/** The recipe editor of RecipeForm.tsx: its ingredient lines and steps,
    the edits the form applies to one line, the library search under the
    focused line, and the record the save button hands to the library. */
module RecipeForm {
  import opened Wrappers
  import opened Text
  import opened Types
  import opened Seqs
  import opened Normalizer

  /** The units the line editor offers, in display order. */
  const UnitOptions: seq<string> :=
    ["piece", "cup", "serve", "slice", "bottle", "pack", "g", "kg", "ml", "l", "lb", "oz", "clove", "pinch"]

  /** The editor offers fourteen distinct units, `piece` (the fallback)
      first. */
  lemma UnitOptionsShape()
    ensures |UnitOptions| == 14 && UnitOptions[0] == "piece"
    ensures forall i, j :: 0 <= i < j < |UnitOptions| ==> UnitOptions[i] != UnitOptions[j]
  {
  }

  /** The unit a line takes from a library record: the record's own unit
      when the editor offers it, `piece` otherwise. */
  function MatchedUnit(unit: string): (r: string)
    ensures r in UnitOptions
    ensures r == unit || (unit !in UnitOptions && r == "piece")
  {
    if unit in UnitOptions then unit else "piece"
  }

  /** The line the add button puts at the top of the list. */
  function DefaultLine(): Ingredient {
    Ingredient(None, "", "", 1.0, "piece", "Pantry", Some(false), Some(0.0), Some(1.0), Some(""))
  }

  /** The fields the line editor can set, with the value it sets them to. */
  datatype LineEdit =
    | SetName(name: string)
    | SetAmount(amount: real)
    | SetUnit(unit: string)
    | SetServesPerUnit(servesPerUnit: real)
    | SetInStock(inStock: bool)
    | SetAvailableQuantity(quantity: real)
    | SetStore(store: string)

  /** `handleUpdateIngredient` on one line: the field takes the value, and a
      new name also rewrites the line's key with the weak key. */
  function ApplyEdit(line: Ingredient, edit: LineEdit): Ingredient {
    match edit
    case SetName(n) => line.(name := n, nameNormalized := SimpleKey(n))
    case SetAmount(a) => line.(amount := a)
    case SetUnit(u) => line.(unit := u)
    case SetServesPerUnit(s) => line.(servesPerUnit := Some(s))
    case SetInStock(b) => line.(inStock := Some(b))
    case SetAvailableQuantity(q) => line.(availableQuantity := Some(q))
    case SetStore(s) => line.(store := Some(s))
  }

  /** `handleSelectSuggestion` on one line: the line takes the record's name,
      key, category, id, stock flag and quantity; its servings per unit fall
      back to 1 and its store to the empty string. The amount stays. */
  function FillFromEntity(line: Ingredient, e: IngredientEntity): Ingredient {
    line.(name := e.name,
          nameNormalized := e.nameNormalized,
          unit := MatchedUnit(e.unit),
          category := CategoryName(e.category),
          ingredientId := Some(e.id),
          inStock := Some(e.inStock),
          availableQuantity := Some(e.quantity),
          servesPerUnit := Some(OrNum(e.servesPerUnit, 1.0)),
          store := Some(OrStr(e.store, "")))
  }

  predicate MatchesQuery(e: IngredientEntity, query: string) {
    Contains(e.nameNormalized, query)
  }

  /** The library search under line `idx`: nothing unless that line has the
      focus and a non-empty name, otherwise the first five records whose key
      contains the line's lower-cased, trimmed name. */
  function Suggestions(activeIdx: Option<int>, idx: int, line: Ingredient, library: seq<IngredientEntity>): seq<IngredientEntity> {
    if activeIdx == Some(idx) && |line.name| > 0 then
      Take(Filter(library, e => MatchesQuery(e, SimpleKey(line.name))), 5)
    else []
  }

  /** A line whose key is the weak key of its name. */
  predicate KeyConsistent(line: Ingredient) {
    line.nameNormalized == SimpleKey(line.name)
  }

  /** The lines as saved: each key rewritten from its name. */
  function Rekeyed(lines: seq<Ingredient>): (r: seq<Ingredient>)
    ensures |r| == |lines|
    ensures forall i :: 0 <= i < |r| ==> r[i] == lines[i].(nameNormalized := SimpleKey(lines[i].name))
  {
    seq(|lines|, i requires 0 <= i < |lines| => lines[i].(nameNormalized := SimpleKey(lines[i].name)))
  }

  datatype SaveError = NameRequired | IngredientsRequired

  /** `handleSave`: refused without a name or without a line; otherwise the
      recipe keeps the edited recipe's id (or takes `newId`), its nutrition
      (or zeros) and has an empty description. */
  function BuildRecipe(name: string, mealType: MealType, cookingTime: int, difficulty: Difficulty,
                       lines: seq<Ingredient>, instructions: seq<string>,
                       initial: Option<Recipe>, newId: string): Result<Recipe, SaveError> {
    if name == "" then Err(NameRequired)
    else if |lines| == 0 then Err(IngredientsRequired)
    else
      var id := if initial.Some? && initial.value.id != "" then initial.value.id else newId;
      var nutrition := if initial.Some? then initial.value.nutrition else Nutrition(0.0, 0.0, 0.0, 0.0);
      Ok(Recipe(id, name, SimpleKey(name), "", instructions, Rekeyed(lines), nutrition, cookingTime, difficulty, mealType))
  }

  /** The form's state while it is open. `initial` is the recipe being
      edited, if any. */
  class Editor {
    var name: string
    var mealType: MealType
    var cookingTime: int
    var difficulty: Difficulty
    var ingredients: seq<Ingredient>
    var instructions: seq<string>
    var activeSearchIdx: Option<int>
    const initial: Option<Recipe>

    /** Opens the form, empty or on a recipe. A cooking time of 0 reopens
        as 30. */
    constructor (initial: Option<Recipe>)
      ensures this.initial == initial && activeSearchIdx == None
      ensures initial.None? ==>
        && name == "" && mealType == Dinner && cookingTime == 30 && difficulty == Medium
        && ingredients == [] && instructions == []
      ensures initial.Some? ==>
        && name == initial.value.name && mealType == initial.value.mealType
        && cookingTime == (if initial.value.cookingTime != 0 then initial.value.cookingTime else 30)
        && difficulty == initial.value.difficulty
        && ingredients == initial.value.ingredients && instructions == initial.value.instructions
    {
      this.initial := initial;
      if initial.Some? {
        var r := initial.value;
        name := r.name;
        mealType := r.mealType;
        cookingTime := if r.cookingTime != 0 then r.cookingTime else 30;
        difficulty := r.difficulty;
        ingredients := r.ingredients;
        instructions := r.instructions;
      } else {
        name := "";
        mealType := Dinner;
        cookingTime := 30;
        difficulty := Medium;
        ingredients := [];
        instructions := [];
      }
      activeSearchIdx := None;
    }

    /** `handleAddIngredient`: a default line on top, the others shifted
        down by one. */
    method AddIngredient()
      modifies this`ingredients
      ensures ingredients == [DefaultLine()] + old(ingredients)
      ensures |ingredients| == |old(ingredients)| + 1
      ensures forall i :: 0 <= i < |old(ingredients)| ==> ingredients[i + 1] == old(ingredients)[i]
    {
      ingredients := [DefaultLine()] + ingredients;
    }

    /** `handleUpdateIngredient`: one field of one line. */
    method UpdateIngredient(index: int, edit: LineEdit)
      requires 0 <= index < |ingredients|
      modifies this`ingredients
      ensures ingredients == old(ingredients)[index := ApplyEdit(old(ingredients)[index], edit)]
    {
      ingredients := ingredients[index := ApplyEdit(ingredients[index], edit)];
    }

    /** `handleSelectSuggestion`: fills the line from the record and closes
        the search. */
    method SelectSuggestion(index: int, suggestion: IngredientEntity)
      requires 0 <= index < |ingredients|
      modifies this`ingredients, this`activeSearchIdx
      ensures ingredients == old(ingredients)[index := FillFromEntity(old(ingredients)[index], suggestion)]
      ensures activeSearchIdx == None
    {
      ingredients := ingredients[index := FillFromEntity(ingredients[index], suggestion)];
      activeSearchIdx := None;
    }

    /** The line's delete button. */
    method DeleteIngredient(index: int)
      modifies this`ingredients
      ensures ingredients == RemoveAt(old(ingredients), index)
    {
      ingredients := RemoveAt(ingredients, index);
    }

    /** Focus on a line's name opens its search; blur closes it. */
    method Focus(index: int)
      modifies this`activeSearchIdx
      ensures activeSearchIdx == Some(index)
    {
      activeSearchIdx := Some(index);
    }

    method Blur()
      modifies this`activeSearchIdx
      ensures activeSearchIdx == None
    {
      activeSearchIdx := None;
    }

    /** `handleAddStep`: an empty step at the end. */
    method AddStep()
      modifies this`instructions
      ensures instructions == old(instructions) + [""]
    {
      instructions := instructions + [""];
    }

    /** The step's text area. */
    method EditStep(index: int, text: string)
      requires 0 <= index < |instructions|
      modifies this`instructions
      ensures instructions == old(instructions)[index := text]
    {
      instructions := instructions[index := text];
    }

    /** `handleDeleteStep` */
    method DeleteStep(index: int)
      modifies this`instructions
      ensures instructions == RemoveAt(old(instructions), index)
    {
      instructions := RemoveAt(instructions, index);
    }

    /** The save button; `newId` stands for the random id of a new recipe. */
    method Save(newId: string) returns (r: Result<Recipe, SaveError>)
      ensures r == BuildRecipe(name, mealType, cookingTime, difficulty, ingredients, instructions, initial, newId)
    {
      if name == "" {
        return Err(NameRequired);
      }
      if |ingredients| == 0 {
        return Err(IngredientsRequired);
      }
      var id := newId;
      if initial.Some? && initial.value.id != "" {
        id := initial.value.id;
      }
      var nutrition := Nutrition(0.0, 0.0, 0.0, 0.0);
      if initial.Some? {
        nutrition := initial.value.nutrition;
      }
      var lines := [];
      var i := 0;
      while i < |ingredients|
        invariant 0 <= i <= |ingredients|
        invariant lines == Rekeyed(ingredients[..i])
      {
        lines := lines + [ingredients[i].(nameNormalized := SimpleKey(ingredients[i].name))];
        i := i + 1;
      }
      assert ingredients[..i] == ingredients;
      r := Ok(Recipe(id, name, SimpleKey(name), "", instructions, lines, nutrition, cookingTime, difficulty, mealType));
    }
  }

  // ---------------------------------------------------------------------
  // Properties of the line edits.

  /** Setting a name makes the line's key the weak key of that name; every
      other edit leaves the name and the key alone, so a consistent line
      stays consistent. */
  lemma EditKeepsKey(line: Ingredient, edit: LineEdit)
    ensures edit.SetName? ==> KeyConsistent(ApplyEdit(line, edit))
    ensures !edit.SetName? ==> ApplyEdit(line, edit).name == line.name && ApplyEdit(line, edit).nameNormalized == line.nameNormalized
    ensures KeyConsistent(line) ==> KeyConsistent(ApplyEdit(line, edit))
  {
  }

  /** Each edit sets one field: applying it twice is applying it once, and
      the link to a library record is never touched by an edit. */
  lemma EditIdempotent(line: Ingredient, edit: LineEdit)
    ensures ApplyEdit(ApplyEdit(line, edit), edit) == ApplyEdit(line, edit)
    ensures ApplyEdit(line, edit).ingredientId == line.ingredientId
    ensures ApplyEdit(line, edit).category == line.category
  {
  }

  /** A filled line is linked to the record it was filled from, carries its
      stock snapshot with a non-zero serving size, keeps its amount, and
      takes an offered unit; if the record's key is the weak key of its
      name, so is the line's. */
  lemma FillShape(line: Ingredient, e: IngredientEntity)
    ensures var f := FillFromEntity(line, e);
      && f.ingredientId == Some(e.id)
      && f.inStock == Some(e.inStock) && f.availableQuantity == Some(e.quantity)
      && f.name == e.name && f.nameNormalized == e.nameNormalized
      && f.category == CategoryName(e.category)
      && f.servesPerUnit.Some? && f.servesPerUnit.value != 0.0
      && (e.servesPerUnit.Some? && e.servesPerUnit.value != 0.0 ==> f.servesPerUnit == e.servesPerUnit)
      && (e.servesPerUnit.None? || e.servesPerUnit == Some(0.0) ==> f.servesPerUnit == Some(1.0))
      && (e.store.Some? ==> f.store == e.store)
      && (e.store.None? ==> f.store == Some(""))
      && f.amount == line.amount
      && f.unit in UnitOptions
      && (e.unit in UnitOptions ==> f.unit == e.unit)
      && (e.unit !in UnitOptions ==> f.unit == "piece")
      && (e.nameNormalized == SimpleKey(e.name) ==> KeyConsistent(f))
  {
  }

  /** The default line is consistent, unnamed and unlinked, asks for one
      piece from the Pantry category, and is out of stock with nothing
      available, one serving per unit and an empty store. */
  lemma DefaultLineShape()
    ensures KeyConsistent(DefaultLine())
    ensures var d := DefaultLine();
      && d.name == "" && d.ingredientId.None?
      && d.amount == 1.0 && d.unit == "piece" && d.unit in UnitOptions && d.category == "Pantry"
      && d.inStock == Some(false) && d.availableQuantity == Some(0.0)
      && d.servesPerUnit == Some(1.0) && d.store == Some("")
  {
    assert SimpleKey("") == "";
  }

  // ---------------------------------------------------------------------
  // Properties of the search.

  /** The search shows at most five records, each from the library and each
      containing the query: exactly the first five matches in library order,
      or all of them when there are five or fewer; it is empty unless the
      line has the focus and a name. */
  lemma SuggestionsShape(activeIdx: Option<int>, idx: int, line: Ingredient, library: seq<IngredientEntity>)
    ensures var r := Suggestions(activeIdx, idx, line, library);
      && |r| <= 5
      && (forall i :: 0 <= i < |r| ==> r[i] in library && MatchesQuery(r[i], SimpleKey(line.name)))
      && (activeIdx != Some(idx) || line.name == "" ==> r == [])
      && (activeIdx == Some(idx) && line.name != "" ==>
            var all := Filter(library, e => MatchesQuery(e, SimpleKey(line.name)));
            && |r| == (if |all| <= 5 then |all| else 5)
            && r == all[..|r|]
            && (|all| <= 5 ==> r == all))
  {
  }

  /** A name of only whitespace is not empty, so the search opens, but its
      trimmed key is empty and matches every record: the first five
      records of the library are offered. */
  lemma SuggestionsBlankName(idx: int, line: Ingredient, library: seq<IngredientEntity>)
    requires line.name != [] && forall i :: 0 <= i < |line.name| ==> IsSpace(line.name[i])
    ensures Suggestions(Some(idx), idx, line, library) == Take(library, 5)
  {
    var l := ToLower(line.name);
    assert forall i :: 0 <= i < |l| ==> IsSpace(l[i]);
    TrimStartShape(l);
    assert SimpleKey(line.name) == "";
    forall i | 0 <= i < |library| ensures MatchesQuery(library[i], "") {
      ContainsEmpty(library[i].nameNormalized);
    }
    FilterAll(library, e => MatchesQuery(e, ""));
  }

  // ---------------------------------------------------------------------
  // Properties of the save.

  /** The save is refused exactly when the name is empty or there is no
      line, and the name check comes first. */
  lemma SaveErrors(name: string, mealType: MealType, cookingTime: int, difficulty: Difficulty,
                   lines: seq<Ingredient>, instructions: seq<string>, initial: Option<Recipe>, newId: string)
    ensures var r := BuildRecipe(name, mealType, cookingTime, difficulty, lines, instructions, initial, newId);
      && (r == Err(NameRequired) <==> name == "")
      && (r == Err(IngredientsRequired) <==> name != "" && lines == [])
      && (r.Ok? <==> name != "" && lines != [])
  {
  }

  /** A saved recipe has the given name and every field of the form; its
      key and every line's key are the weak keys of their names; an edited
      recipe keeps its id and nutrition, a new one takes `newId` and zeros. */
  lemma SaveShape(name: string, mealType: MealType, cookingTime: int, difficulty: Difficulty,
                  lines: seq<Ingredient>, instructions: seq<string>, initial: Option<Recipe>, newId: string)
    requires BuildRecipe(name, mealType, cookingTime, difficulty, lines, instructions, initial, newId).Ok?
    ensures var r := BuildRecipe(name, mealType, cookingTime, difficulty, lines, instructions, initial, newId).value;
      && r.name == name && r.nameNormalized == SimpleKey(name) && r.description == ""
      && r.mealType == mealType && r.cookingTime == cookingTime && r.difficulty == difficulty
      && r.instructions == instructions
      && |r.ingredients| == |lines|
      && (forall i :: 0 <= i < |lines| ==>
            KeyConsistent(r.ingredients[i]) && r.ingredients[i].(nameNormalized := lines[i].nameNormalized) == lines[i])
      && (initial.Some? && initial.value.id != "" ==> r.id == initial.value.id)
      && (initial.None? ==> r.id == newId && r.nutrition == Nutrition(0.0, 0.0, 0.0, 0.0))
      && (initial.Some? ==> r.nutrition == initial.value.nutrition)
  {
  }

  /** Opening a recipe and saving it without changes gives it back with its
      keys re-derived and its description cleared, provided it has a name,
      a line, a non-zero cooking time and an id. A recipe whose keys are
      already the weak keys and whose description is empty comes back as it
      was. */
  lemma SaveRoundTrip(r: Recipe, newId: string)
    requires r.name != "" && r.ingredients != [] && r.cookingTime != 0 && r.id != ""
    ensures BuildRecipe(r.name, r.mealType, r.cookingTime, r.difficulty, r.ingredients, r.instructions, Some(r), newId)
      == Ok(r.(nameNormalized := SimpleKey(r.name), description := "", ingredients := Rekeyed(r.ingredients)))
    ensures r.nameNormalized == SimpleKey(r.name) && r.description == "" &&
            (forall i :: 0 <= i < |r.ingredients| ==> KeyConsistent(r.ingredients[i])) ==>
      BuildRecipe(r.name, r.mealType, r.cookingTime, r.difficulty, r.ingredients, r.instructions, Some(r), newId) == Ok(r)
  {
    if r.nameNormalized == SimpleKey(r.name) && r.description == "" &&
       (forall i :: 0 <= i < |r.ingredients| ==> KeyConsistent(r.ingredients[i])) {
      assert Rekeyed(r.ingredients) == r.ingredients;
    }
  }
}
