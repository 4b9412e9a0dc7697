/** The stock arithmetic the recipe editor shows under each line
    (RecipeForm.tsx:188-192): servings on hand, servings left after the
    recipe, whether that is enough and how many units to buy; and the
    five-segment usage bar (RecipeForm.tsx:321-340). */
module Depletion {
  import opened Wrappers
  import opened Types
  import opened RecipeForm

  /** `Math.ceil` */
  function Ceil(x: real): (r: int)
    ensures x <= r as real < x + 1.0
  {
    -((-x).Floor)
  }

  function Abs(x: real): (r: real)
    ensures r >= 0.0 && (r == x || r == -x)
  {
    if x < 0.0 then -x else x
  }

  /** `servesPerUnit || 1`: never zero. */
  function ServingSize(line: Ingredient): (r: real)
    ensures r != 0.0
  {
    OrNum(line.servesPerUnit, 1.0)
  }

  /** `(availableQuantity || 0) * (servesPerUnit || 1)` */
  function TotalServes(line: Ingredient): real {
    OrNum(line.availableQuantity, 0.0) * ServingSize(line)
  }

  /** `amount || 0`, which is the amount itself. */
  function Need(line: Ingredient): real {
    line.amount
  }

  function Remaining(line: Ingredient): real {
    TotalServes(line) - Need(line)
  }

  /** In stock, and the servings on hand cover the recipe. */
  predicate IsEnough(line: Ingredient) {
    line.inStock == Some(true) && Remaining(line) >= 0.0
  }

  /** `Math.ceil(Math.abs(remaining) / (servesPerUnit || 1)) || 1` */
  function AutoBuyCount(line: Ingredient): int {
    var c := Ceil(Abs(Remaining(line)) / ServingSize(line));
    if c == 0 then 1 else c
  }

  /** With a positive serving size the auto-buy count is the least number of
      whole units (and at least one) whose servings cover the shortfall:
      exactly one when nothing is short. */
  lemma AutoBuyCovers(line: Ingredient)
    requires ServingSize(line) > 0.0
    ensures var n := AutoBuyCount(line); var s := ServingSize(line); var gap := Abs(Remaining(line));
      && n >= 1
      && n as real * s >= gap
      && (gap > 0.0 ==> (n - 1) as real * s < gap)
      && (gap == 0.0 ==> n == 1)
  {
    var s := ServingSize(line);
    var gap := Abs(Remaining(line));
    var q := gap / s;
    var c := Ceil(q);
    assert q * s == gap;
    DivSign(gap, s);
    var n := AutoBuyCount(line);
    if gap > 0.0 {
      assert c >= 1 && n == c;
      MulStrict((n - 1) as real, q, s);
      MulMono(q, n as real, s);
      assert (n - 1) as real * s < gap;
      assert n as real * s >= gap;
    } else {
      assert c == 0 && n == 1;
      assert n as real * s == s;
    }
  }

  lemma DivSign(a: real, s: real)
    requires a >= 0.0 && s > 0.0
    ensures a / s >= 0.0 && (a > 0.0 ==> a / s > 0.0)
  {
  }

  lemma MulStrict(a: real, b: real, s: real)
    requires a < b && s > 0.0
    ensures a * s < b * s
  {
  }

  lemma MulMono(a: real, b: real, s: real)
    requires a <= b && s > 0.0
    ensures a * s <= b * s
  {
  }

  /** A negative serving size (the field accepts any number) makes the count
      zero or negative whenever the line is short: the `|| 1` fallback
      only catches zero. */
  lemma AutoBuyNegativeServing(line: Ingredient)
    requires ServingSize(line) < 0.0 && Abs(Remaining(line)) >= -ServingSize(line)
    ensures AutoBuyCount(line) < 0
  {
    QuotientBelowMinusOne(Abs(Remaining(line)), ServingSize(line));
  }

  lemma QuotientBelowMinusOne(a: real, s: real)
    requires s < 0.0 && a >= -s
    ensures a / s <= -1.0
  {
    var q := a / s;
    assert q * s == a;
    assert (q + 1.0) * s == a + s;
  }

  /** Three needed, one unit of one serving on hand, in stock: two
      servings short, two units to buy. */
  lemma ShortfallExample()
    ensures var line := Ingredient(None, "egg", "egg", 3.0, "piece", "Dairy", Some(true), Some(1.0), Some(1.0), Some(""));
      Remaining(line) == -2.0 && !IsEnough(line) && AutoBuyCount(line) == 2
  {
    var line := Ingredient(None, "egg", "egg", 3.0, "piece", "Dairy", Some(true), Some(1.0), Some(1.0), Some(""));
    assert Remaining(line) == -2.0;
    assert Ceil(2.0) == 2;
  }

  /** A fresh line is one serving short and buys one unit. */
  lemma DefaultLineDepletion()
    ensures Remaining(DefaultLine()) == -1.0 && !IsEnough(DefaultLine()) && AutoBuyCount(DefaultLine()) == 1
  {
    assert Ceil(1.0) == 1;
  }

  /** A line filled from a record reads its servings from that record. */
  lemma FilledLineServes(line: Ingredient, e: IngredientEntity)
    ensures TotalServes(FillFromEntity(line, e)) == e.quantity * OrNum(e.servesPerUnit, 1.0)
    ensures IsEnough(FillFromEntity(line, e)) <==> e.inStock && e.quantity * OrNum(e.servesPerUnit, 1.0) >= line.amount
  {
  }

  // ---------------------------------------------------------------------
  // The usage bar.

  /** Green, striped red, or grey. */
  datatype Segment = Covered | Short | Unavailable

  /** `Math.max(total, need, 1)` */
  function Capacity(line: Ingredient): (r: real)
    ensures r >= 1.0 && r >= TotalServes(line) && r >= Need(line)
    ensures r == 1.0 || r == TotalServes(line) || r == Need(line)
  {
    var m := if TotalServes(line) >= Need(line) then TotalServes(line) else Need(line);
    if m >= 1.0 then m else 1.0
  }

  /** Segment `k` spans `[k, k + 1)` fifths of the capacity. */
  function SegmentAt(line: Ingredient, k: int): Segment {
    var per := Capacity(line) / 5.0;
    var start := k as real * per;
    var end := (k + 1) as real * per;
    if TotalServes(line) > start then (if Remaining(line) >= end then Covered else Short) else Unavailable
  }

  function Tracker(line: Ingredient): (r: seq<Segment>)
    ensures |r| == 5
  {
    seq(5, k => SegmentAt(line, k))
  }

  /** The green segments come first and the grey ones last. */
  lemma TrackerOrdered(line: Ingredient, j: int, k: int)
    requires 0 <= j < k < 5
    ensures Tracker(line)[k] == Covered ==> Tracker(line)[j] == Covered
    ensures Tracker(line)[j] == Unavailable ==> Tracker(line)[k] == Unavailable
  {
    var per := Capacity(line) / 5.0;
    assert per > 0.0;
    MulMono(j as real, k as real, per);
    MulMono((j + 1) as real, (k + 1) as real, per);
    assert Tracker(line)[j] == SegmentAt(line, j) && Tracker(line)[k] == SegmentAt(line, k);
    if SegmentAt(line, k) == Covered {
      assert TotalServes(line) > k as real * per && Remaining(line) >= (k + 1) as real * per;
      assert SegmentAt(line, j) == Covered;
    }
    if SegmentAt(line, j) == Unavailable {
      assert TotalServes(line) <= j as real * per;
      assert SegmentAt(line, k) == Unavailable;
    }
  }

  /** Something on hand lights the first segment; nothing on hand leaves the
      bar grey; a green segment means the servings cover the recipe, so an
      in-stock line with one is enough. */
  lemma TrackerBounds(line: Ingredient)
    ensures TotalServes(line) > 0.0 ==> Tracker(line)[0] != Unavailable
    ensures TotalServes(line) <= 0.0 ==> forall k :: 0 <= k < 5 ==> Tracker(line)[k] == Unavailable
    ensures Tracker(line)[0] == Covered ==> Remaining(line) >= 0.0
    ensures line.inStock == Some(true) && Tracker(line)[0] == Covered ==> IsEnough(line)
  {
    var per := Capacity(line) / 5.0;
    assert per > 0.0;
  }

  /** While the recipe needs anything, the last segment is never green: the
      bar is full only up to what remains. */
  lemma TrackerNeedShows(line: Ingredient)
    requires Need(line) > 0.0
    ensures Tracker(line)[4] != Covered
  {
    var per := Capacity(line) / 5.0;
    assert 5 as real * per == Capacity(line);
  }
}
