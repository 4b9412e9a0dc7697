/** The application state of App.tsx: the inventory and the recipe
    library, the handlers that update them, and the two values derived
    from them (the missing-item count and the recipe search). Random ids
    and clock readings are parameters. */
module Kitchen {
  import opened Wrappers
  import opened Text
  import opened Types
  import opened Seqs
  import opened Normalizer

  function EntityId(e: IngredientEntity): string { e.id }
  function RecipeId(r: Recipe): string { r.id }

  predicate IsMissing(e: IngredientEntity) { !e.inStock }

  /** `inventory.filter(item => !item.inStock).length` */
  function MissingItemsCount(inventory: seq<IngredientEntity>): (n: nat)
    ensures n <= |inventory|
    ensures n == 0 <==> forall i :: 0 <= i < |inventory| ==> inventory[i].inStock
  {
    var r := Filter(inventory, IsMissing);
    assert r != [] ==> r[0] in r;
    |r|
  }

  /** The toggle handler's `map`: records with the id flip `inStock` and
      take the new clock reading. */
  function ToggleById(inventory: seq<IngredientEntity>, id: string, now: int): seq<IngredientEntity> {
    seq(|inventory|, i requires 0 <= i < |inventory| =>
      var e := inventory[i];
      if e.id == id then e.(inStock := !e.inStock, updatedAt := now) else e)
  }

  /** The detail view's update handler: every record with the id is
      replaced by the updated record. */
  function ReplaceById(inventory: seq<IngredientEntity>, updated: IngredientEntity): seq<IngredientEntity> {
    seq(|inventory|, i requires 0 <= i < |inventory| =>
      if inventory[i].id == updated.id then updated else inventory[i])
  }

  /** The record quick-add creates: out of stock, nothing on hand, filed
      under Pantry in `pcs`, keyed by the full normaliser. */
  function QuickItem(name: string, newId: string, now: int): (e: IngredientEntity)
    ensures e.name == name && e.id == newId && e.updatedAt == now
    ensures e.nameNormalized == Normalize(name)
    ensures !e.inStock && e.quantity == 0.0 && e.category == IngredientCategory.Pantry && e.unit == "pcs"
    ensures e.dateBought.None? && e.expiryDate.None? && e.neededQuantity.None? && e.servesPerUnit.None?
    ensures e.brand.None? && e.store.None? && e.location.None? && e.notes.None?
  {
    IngredientEntity(newId, name, Normalize(name), false, IngredientCategory.Pantry, None, None, "pcs", 0.0,
                     None, None, None, None, None, None, now)
  }

  predicate Matches(r: Recipe, query: string) {
    Contains(r.nameNormalized, ToLower(query))
  }

  /** `filteredRecipes`: the recipes whose stored key contains the
      lower-cased query. The query is not trimmed. */
  function SearchRecipes(recipes: seq<Recipe>, query: string): seq<Recipe> {
    Filter(recipes, r => Matches(r, query))
  }

  class Kitchen {
    var inventory: seq<IngredientEntity>
    var recipes: seq<Recipe>

    constructor (inventory0: seq<IngredientEntity>, recipes0: seq<Recipe>)
      ensures inventory == inventory0 && recipes == recipes0
    {
      inventory := inventory0;
      recipes := recipes0;
    }

    /** `handleToggleStock` */
    method ToggleStock(id: string, now: int)
      modifies this`inventory
      ensures inventory == ToggleById(old(inventory), id, now)
    {
      inventory := ToggleById(inventory, id, now);
    }

    /** `handleQuickAddItem`: appends one new record. */
    method QuickAddItem(name: string, newId: string, now: int)
      modifies this`inventory
      ensures inventory == old(inventory) + [QuickItem(name, newId, now)]
    {
      inventory := inventory + [QuickItem(name, newId, now)];
    }

    /** The recipe form's save callback: replace the recipe with the same id
      in place, or append it. */
    method SaveRecipe(recipe: Recipe)
      modifies this`recipes
      ensures recipes == Upsert(old(recipes), recipe, RecipeId)
    {
      var idx := FindIndex(recipes, RecipeId, recipe.id);
      if idx > -1 {
        recipes := recipes[idx := recipe];
      } else {
        recipes := recipes + [recipe];
      }
    }

    /** The ingredient form's save callback, the same replace-or-append on
      the inventory. */
    method SaveIngredient(ing: IngredientEntity)
      modifies this`inventory
      ensures inventory == Upsert(old(inventory), ing, EntityId)
    {
      var idx := FindIndex(inventory, EntityId, ing.id);
      if idx > -1 {
        inventory := inventory[idx := ing];
      } else {
        inventory := inventory + [ing];
      }
    }

    /** The recipe view's delete callback: drops every recipe with the id. */
    method DeleteRecipe(id: string)
      modifies this`recipes
      ensures recipes == Filter(old(recipes), r => RecipeId(r) != id)
    {
      recipes := Filter(recipes, r => RecipeId(r) != id);
    }

    /** The detail view's update callback. */
    method UpdateIngredient(updated: IngredientEntity)
      modifies this`inventory
      ensures inventory == ReplaceById(old(inventory), updated)
    {
      inventory := ReplaceById(inventory, updated);
    }
  }

  // ---------------------------------------------------------------------
  // Properties of the handlers.

  /** Toggling changes exactly the records with the id: `inStock` flips and
      `updatedAt` is the new reading; length, order, ids and every other
      record stay as they were. */
  lemma ToggleShape(inventory: seq<IngredientEntity>, id: string, now: int)
    ensures var r := ToggleById(inventory, id, now);
      && |r| == |inventory|
      && forall i :: 0 <= i < |r| ==>
        && r[i].id == inventory[i].id
        && (inventory[i].id != id ==> r[i] == inventory[i])
        && (inventory[i].id == id ==>
              && r[i].inStock == !inventory[i].inStock
              && r[i].updatedAt == now
              && r[i].(inStock := inventory[i].inStock, updatedAt := inventory[i].updatedAt) == inventory[i])
  {
  }

  /** Toggling twice restores every record except for its clock reading. */
  lemma ToggleTwice(inventory: seq<IngredientEntity>, id: string, t1: int, t2: int)
    ensures var r := ToggleById(ToggleById(inventory, id, t1), id, t2);
      && |r| == |inventory|
      && forall i :: 0 <= i < |r| ==>
        r[i] == if inventory[i].id == id then inventory[i].(updatedAt := t2) else inventory[i]
  {
  }

  lemma {:induction false} ToggleTail(inventory: seq<IngredientEntity>, id: string, now: int)
    requires inventory != []
    ensures ToggleById(inventory, id, now)[1..] == ToggleById(inventory[1..], id, now)
  {
  }

  /** The missing-item count counts the out-of-stock records one by one:
      the first record adds one exactly when it is out of stock. */
  lemma MissingCountCons(inventory: seq<IngredientEntity>)
    requires inventory != []
    ensures MissingItemsCount(inventory) == (if inventory[0].inStock then 0 else 1) + MissingItemsCount(inventory[1..])
  {
    assert Filter(inventory, IsMissing) == (if IsMissing(inventory[0]) then [inventory[0]] else []) + Filter(inventory[1..], IsMissing);
  }

  /** With unique ids, toggling an existing record moves the missing-item
      count by exactly one, and toggling an unknown id leaves it alone. */
  lemma {:induction false} ToggleMissingCount(inventory: seq<IngredientEntity>, id: string, now: int)
    requires UniqueKeys(inventory, EntityId)
    ensures var i := FirstIndex(inventory, EntityId, id);
      MissingItemsCount(ToggleById(inventory, id, now)) ==
        if i == -1 then MissingItemsCount(inventory)
        else if inventory[i].inStock then MissingItemsCount(inventory) + 1
        else MissingItemsCount(inventory) - 1
  {
    if inventory != [] {
      var r := ToggleById(inventory, id, now);
      var tail := inventory[1..];
      ToggleTail(inventory, id, now);
      UniqueKeysTail(inventory, EntityId);
      ToggleMissingCount(tail, id, now);
      MissingCountCons(r);
      MissingCountCons(inventory);
      if inventory[0].id == id {
        FirstIndexUnique(tail, EntityId, id, -1);
      } else {
        var k := FirstIndex(tail, EntityId, id);
        assert FirstIndex(inventory, EntityId, id) == if k == -1 then -1 else k + 1;
      }
    }
  }

  /** Quick-add puts one more item on the grocery list's missing count. */
  lemma QuickAddMissingCount(inventory: seq<IngredientEntity>, name: string, newId: string, now: int)
    ensures MissingItemsCount(inventory + [QuickItem(name, newId, now)]) == MissingItemsCount(inventory) + 1
  {
    var e := QuickItem(name, newId, now);
    FilterAppend(inventory, [e], IsMissing);
    assert Filter([e], IsMissing) == [e] + Filter([e][1..], IsMissing);
  }

  /** Update-by-id replaces every record with the id and nothing else; when
      ids are unique and the id is present it is the same as saving. */
  lemma ReplaceByIdShape(inventory: seq<IngredientEntity>, updated: IngredientEntity)
    ensures var r := ReplaceById(inventory, updated);
      && |r| == |inventory|
      && (forall i :: 0 <= i < |r| ==> r[i] == if inventory[i].id == updated.id then updated else inventory[i])
    ensures UniqueKeys(inventory, EntityId) && FirstIndex(inventory, EntityId, updated.id) >= 0 ==>
      ReplaceById(inventory, updated) == Upsert(inventory, updated, EntityId)
  {
  }

  /** Deleting leaves no recipe with the id and keeps every recipe with
      another id. */
  lemma DeleteLeavesNoId(recipes: seq<Recipe>, id: string)
    ensures var r := Filter(recipes, x => RecipeId(x) != id);
      && (forall i :: 0 <= i < |r| ==> r[i].id != id)
      && (forall x :: x in recipes && x.id != id ==> x in r)
  {
  }

  /** With unique ids, deleting a present id removes exactly one recipe and
      deleting an absent one removes none. */
  lemma {:induction false} DeleteShape(recipes: seq<Recipe>, id: string)
    requires UniqueKeys(recipes, RecipeId)
    ensures |Filter(recipes, x => RecipeId(x) != id)| == if FirstIndex(recipes, RecipeId, id) >= 0 then |recipes| - 1 else |recipes|
  {
    if recipes != [] {
      var tail := recipes[1..];
      UniqueKeysTail(recipes, RecipeId);
      DeleteShape(tail, id);
      if recipes[0].id == id {
        FirstIndexUnique(tail, RecipeId, id, -1);
      } else {
        var k := FirstIndex(tail, RecipeId, id);
        assert FirstIndex(recipes, RecipeId, id) == if k == -1 then -1 else k + 1;
      }
    }
  }

  /** An empty query keeps the whole library. */
  lemma SearchEmptyQuery(recipes: seq<Recipe>)
    ensures SearchRecipes(recipes, "") == recipes
  {
    forall i | 0 <= i < |recipes| ensures Matches(recipes[i], "") {
      ContainsEmpty(recipes[i].nameNormalized);
    }
    FilterAll(recipes, r => Matches(r, ""));
  }

  /** The search keeps exactly the matching recipes, in library order. */
  lemma SearchShape(a: seq<Recipe>, b: seq<Recipe>, query: string)
    ensures SearchRecipes(a + b, query) == SearchRecipes(a, query) + SearchRecipes(b, query)
    ensures forall r :: r in SearchRecipes(a, query) <==> r in a && Matches(r, query)
  {
    FilterAppend(a, b, r => Matches(r, query));
  }
}
