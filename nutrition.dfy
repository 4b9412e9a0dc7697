/** The nutrition dashboard of NutritionDashboard.tsx: one chart row per
    planned day with the day's calories and macros summed over breakfast,
    lunch and dinner, the weekly macro totals, and the three-slice macro
    chart built from them. */
module NutritionDashboard {
  import opened Wrappers
  import opened Types
  import opened Seqs

  /** A bar of the daily chart. */
  datatype ChartRow = ChartRow(name: string, calories: real, protein: real, carbs: real, fat: real)

  /** The weekly totals; calories are not totalled. */
  datatype MacroTotals = MacroTotals(protein: real, carbs: real, fat: real)

  /** A slice of the macro pie chart. */
  datatype MacroSlice = MacroSlice(name: string, value: real)

  /** `meal?.nutrition.x || 0` for every x at once: an empty slot counts
      zero. */
  function MealNutrition(meal: Option<Recipe>): (n: Types.Nutrition)
    ensures meal.None? ==> n == Types.Nutrition(0.0, 0.0, 0.0, 0.0)
  {
    if meal.Some? then meal.value.nutrition else Types.Nutrition(0.0, 0.0, 0.0, 0.0)
  }

  /** One day's chart row, labelled by the first three characters of the
      day's name. */
  function DayRow(d: DayPlan): (r: ChartRow)
    ensures r.name == Take(d.day, 3) && |r.name| <= 3
    ensures var b := MealNutrition(d.meals.breakfast); var l := MealNutrition(d.meals.lunch); var n := MealNutrition(d.meals.dinner);
      && r.calories == b.calories + l.calories + n.calories
      && r.protein == b.protein + l.protein + n.protein
      && r.carbs == b.carbs + l.carbs + n.carbs
      && r.fat == b.fat + l.fat + n.fat
  {
    var b := MealNutrition(d.meals.breakfast);
    var l := MealNutrition(d.meals.lunch);
    var n := MealNutrition(d.meals.dinner);
    ChartRow(Take(d.day, 3), b.calories + l.calories + n.calories, b.protein + l.protein + n.protein,
             b.carbs + l.carbs + n.carbs, b.fat + l.fat + n.fat)
  }

  /** `chartData`: one row per day, in plan order. */
  function ChartData(plan: WeeklyPlan): (rows: seq<ChartRow>)
    ensures |rows| == |plan.days|
    ensures forall i :: 0 <= i < |rows| ==> rows[i] == DayRow(plan.days[i])
  {
    seq(|plan.days|, i requires 0 <= i < |plan.days| => DayRow(plan.days[i]))
  }

  function AddRow(acc: MacroTotals, row: ChartRow): MacroTotals {
    MacroTotals(acc.protein + row.protein, acc.carbs + row.carbs, acc.fat + row.fat)
  }

  /** `totalNutrition`: the left fold over the rows from zero. */
  function Totals(rows: seq<ChartRow>): MacroTotals {
    if rows == [] then MacroTotals(0.0, 0.0, 0.0)
    else AddRow(Totals(rows[..|rows| - 1]), rows[|rows| - 1])
  }

  function Plus(a: MacroTotals, b: MacroTotals): MacroTotals {
    MacroTotals(a.protein + b.protein, a.carbs + b.carbs, a.fat + b.fat)
  }

  /** The totals of a concatenation are the sum of the totals of its parts,
      so the fold does not depend on how the week is split. */
  lemma {:induction false} TotalsAppend(a: seq<ChartRow>, b: seq<ChartRow>)
    ensures Totals(a + b) == Plus(Totals(a), Totals(b))
  {
    if b == [] {
      assert a + b == a;
    } else {
      var init := b[..|b| - 1];
      assert (a + b)[..|a + b| - 1] == a + init;
      TotalsAppend(a, init);
    }
  }

  /** The daily chart of a plan made of two parts is the two parts' charts
      one after the other. */
  lemma ChartDataAppend(p: seq<DayPlan>, q: seq<DayPlan>)
    ensures ChartData(WeeklyPlan(p + q)) == ChartData(WeeklyPlan(p)) + ChartData(WeeklyPlan(q))
  {
  }

  /** An empty plan gives zero totals; one more day adds that day's row. */
  lemma PlanTotalsStep(days: seq<DayPlan>, d: DayPlan)
    ensures Totals(ChartData(WeeklyPlan([]))) == MacroTotals(0.0, 0.0, 0.0)
    ensures Totals(ChartData(WeeklyPlan(days + [d]))) == AddRow(Totals(ChartData(WeeklyPlan(days))), DayRow(d))
  {
    ChartDataAppend(days, [d]);
    TotalsAppend(ChartData(WeeklyPlan(days)), [DayRow(d)]);
    assert Totals([DayRow(d)]) == AddRow(MacroTotals(0.0, 0.0, 0.0), DayRow(d)) by {
      assert [DayRow(d)][..0] == [];
    }
  }

  /** What goes in the snack slot never shows on the dashboard. */
  lemma SnackIgnored(plan: WeeklyPlan, i: int, snack: Option<Recipe>)
    requires 0 <= i < |plan.days|
    ensures var d := plan.days[i];
      ChartData(WeeklyPlan(plan.days[i := d.(meals := d.meals.(snack := snack))])) == ChartData(plan)
  {
  }

  predicate NonNegative(n: Types.Nutrition) {
    n.calories >= 0.0 && n.protein >= 0.0 && n.carbs >= 0.0 && n.fat >= 0.0
  }

  predicate PlannedNonNegative(plan: WeeklyPlan) {
    forall i :: 0 <= i < |plan.days| ==>
      && NonNegative(MealNutrition(plan.days[i].meals.breakfast))
      && NonNegative(MealNutrition(plan.days[i].meals.lunch))
      && NonNegative(MealNutrition(plan.days[i].meals.dinner))
  }

  /** With no negative nutrition values planned, every total is at least
      any single day's value. */
  lemma {:induction false} TotalsBoundDays(rows: seq<ChartRow>, k: int)
    requires forall i :: 0 <= i < |rows| ==> rows[i].protein >= 0.0 && rows[i].carbs >= 0.0 && rows[i].fat >= 0.0
    requires 0 <= k < |rows|
    ensures var t := Totals(rows); t.protein >= rows[k].protein && t.carbs >= rows[k].carbs && t.fat >= rows[k].fat
    ensures var t := Totals(rows); t.protein >= 0.0 && t.carbs >= 0.0 && t.fat >= 0.0
  {
    var init := rows[..|rows| - 1];
    if k < |rows| - 1 {
      TotalsBoundDays(init, k);
    } else if init != [] {
      TotalsBoundDays(init, 0);
    }
  }

  /** The totals of a plan without negative values are each at least the
      corresponding value of any day. */
  lemma PlanTotalsBoundDays(plan: WeeklyPlan, k: int)
    requires PlannedNonNegative(plan) && 0 <= k < |plan.days|
    ensures var t := Totals(ChartData(plan)); var r := DayRow(plan.days[k]);
      t.protein >= r.protein >= 0.0 && t.carbs >= r.carbs >= 0.0 && t.fat >= r.fat >= 0.0
  {
    TotalsBoundDays(ChartData(plan), k);
  }

  /** `macroData`: Protein, Carbs and Fat, in that order. */
  function MacroData(t: MacroTotals): (r: seq<MacroSlice>)
    ensures |r| == 3
    ensures forall i :: 0 <= i < 3 ==> r[i].value == [t.protein, t.carbs, t.fat][i]
    ensures [r[0].name, r[1].name, r[2].name] == ["Protein", "Carbs", "Fat"]
  {
    [MacroSlice("Protein", t.protein), MacroSlice("Carbs", t.carbs), MacroSlice("Fat", t.fat)]
  }

  /** The macro chart of a plan made of two parts: each slice's value is
      the sum of that slice's values in the two parts' charts. */
  lemma MacroDataAppend(p: seq<DayPlan>, q: seq<DayPlan>)
    ensures var r := MacroData(Totals(ChartData(WeeklyPlan(p + q))));
            var a := MacroData(Totals(ChartData(WeeklyPlan(p))));
            var b := MacroData(Totals(ChartData(WeeklyPlan(q))));
      forall i :: 0 <= i < 3 ==> r[i].name == a[i].name && r[i].value == a[i].value + b[i].value
  {
    ChartDataAppend(p, q);
    TotalsAppend(ChartData(WeeklyPlan(p)), ChartData(WeeklyPlan(q)));
  }

  /** With no negative nutrition planned, each slice of the macro chart is
      non-negative and at least the day's value of that macro, for every
      day of the plan. */
  lemma MacroDataBoundDays(plan: WeeklyPlan, k: int)
    requires PlannedNonNegative(plan) && 0 <= k < |plan.days|
    ensures var m := MacroData(Totals(ChartData(plan))); var d := DayRow(plan.days[k]);
      && m[0].value >= d.protein >= 0.0
      && m[1].value >= d.carbs >= 0.0
      && m[2].value >= d.fat >= 0.0
  {
    PlanTotalsBoundDays(plan, k);
  }
}
