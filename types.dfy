/** The records of the meal planner (types.ts), and JavaScript's `||`
    default on an optional value, which every component uses to fill in
    missing fields. */
module Types {
  import opened Wrappers

  datatype IngredientCategory = Produce | Meat | Dairy | Pantry | Frozen | Bakery | Other
  datatype StorageLocation = Fridge | Pantry | Freezer | Counter

  /** A global inventory record. `quantity` is the amount on hand;
      `updatedAt` is a clock reading in milliseconds. */
  datatype IngredientEntity = IngredientEntity(
    id: string,
    name: string,
    nameNormalized: string,
    inStock: bool,
    category: IngredientCategory,
    dateBought: Option<string>,
    expiryDate: Option<string>,
    unit: string,
    quantity: real,
    neededQuantity: Option<real>,
    servesPerUnit: Option<real>,
    brand: Option<string>,
    store: Option<string>,
    location: Option<StorageLocation>,
    notes: Option<string>,
    updatedAt: int)

  /** One line of a recipe. It may link to an inventory record and carries
      optional snapshots of that record's stock fields; its category is a
      free string. */
  datatype Ingredient = Ingredient(
    ingredientId: Option<string>,
    name: string,
    nameNormalized: string,
    amount: real,
    unit: string,
    category: string,
    inStock: Option<bool>,
    availableQuantity: Option<real>,
    servesPerUnit: Option<real>,
    store: Option<string>)

  datatype Nutrition = Nutrition(calories: real, protein: real, carbs: real, fat: real)

  datatype Difficulty = Easy | Medium | Hard
  datatype MealType = Breakfast | Lunch | Dinner | Snack

  /** A recipe; `mealType` is the `type` field of the source. */
  datatype Recipe = Recipe(
    id: string,
    name: string,
    nameNormalized: string,
    description: string,
    instructions: seq<string>,
    ingredients: seq<Ingredient>,
    nutrition: Nutrition,
    cookingTime: int,
    difficulty: Difficulty,
    mealType: MealType)

  /** Declared by the planner and read by the recipe view, never computed
      in the modelled code. `matchedEntities` is keyed by display name. */
  datatype RecipeCoverage = RecipeCoverage(
    matchedCount: int,
    totalRequired: int,
    coverageRatio: real,
    missingIngredients: seq<string>,
    isCookable: bool,
    matchedEntities: map<string, IngredientEntity>)

  /** The four meal slots of a day, each independently optional. */
  datatype Meals = Meals(
    breakfast: Option<Recipe>,
    lunch: Option<Recipe>,
    dinner: Option<Recipe>,
    snack: Option<Recipe>)

  datatype DayPlan = DayPlan(day: string, date: string, meals: Meals)

  datatype WeeklyPlan = WeeklyPlan(days: seq<DayPlan>)

  /** The category and location choices offered by the ingredient form
      (IngredientForm.tsx:12-13), in their display order. */
  const Categories: seq<IngredientCategory> := [Produce, Meat, Dairy, IngredientCategory.Pantry, Frozen, Bakery, Other]
  const Locations: seq<StorageLocation> := [Fridge, StorageLocation.Pantry, Freezer, Counter]

  /** The category as the string a recipe line stores. */
  function CategoryName(c: IngredientCategory): string {
    match c
    case Produce => "Produce"
    case Meat => "Meat"
    case Dairy => "Dairy"
    case Pantry => "Pantry"
    case Frozen => "Frozen"
    case Bakery => "Bakery"
    case Other => "Other"
  }

  /** `x || d` on an optional number: the value when it is present and not
      zero, the default otherwise. */
  function OrNum(x: Option<real>, d: real): (r: real)
    ensures x.Some? && x.value != 0.0 ==> r == x.value
    ensures x.None? || x == Some(0.0) ==> r == d
    ensures d != 0.0 ==> r != 0.0
  {
    if x.Some? && x.value != 0.0 then x.value else d
  }

  /** `s || d` on an optional string: the string when it is present and not
      empty, the default otherwise. */
  function OrStr(x: Option<string>, d: string): (r: string)
    ensures x.Some? && x.value != "" ==> r == x.value
    ensures x.None? || x == Some("") ==> r == d
    ensures d != "" ==> r != ""
  {
    if x.Some? && x.value != "" then x.value else d
  }

  // ---------------------------------------------------------------------
  // The enumerations.

  /** The form lists every category exactly once: there are seven. */
  lemma CategoriesComplete(c: IngredientCategory)
    ensures c in Categories
    ensures |Categories| == 7
    ensures forall i, j :: 0 <= i < j < |Categories| ==> Categories[i] != Categories[j]
  {
  }

  /** The form lists every storage location exactly once: there are four. */
  lemma LocationsComplete(l: StorageLocation)
    ensures l in Locations
    ensures |Locations| == 4
    ensures forall i, j :: 0 <= i < j < |Locations| ==> Locations[i] != Locations[j]
  {
  }

  /** Distinct categories are stored as distinct strings. */
  lemma CategoryNameInjective(a: IngredientCategory, b: IngredientCategory)
    requires CategoryName(a) == CategoryName(b)
    ensures a == b
  {
  }
}
