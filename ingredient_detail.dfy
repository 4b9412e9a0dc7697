/** The stock button of the ingredient detail view (IngredientDetail.tsx):
    a copy of the record with the stock flag flipped and the purchase date
    set to today when it comes into stock, cleared when it runs out.
    Today's date is a parameter. */
module IngredientDetail {
  import opened Wrappers
  import opened Types
  import opened Seqs
  import opened Kitchen

  function ToggleStock(e: IngredientEntity, today: string): IngredientEntity {
    e.(inStock := !e.inStock, dateBought := if !e.inStock then Some(today) else None)
  }

  /** The flag flips; a record coming into stock is dated today and one
      running out loses its date; every other field, the clock reading
      included, is copied. */
  lemma ToggleStockShape(e: IngredientEntity, today: string)
    ensures var r := ToggleStock(e, today);
      && r.inStock == !e.inStock
      && (r.inStock ==> r.dateBought == Some(today))
      && (!r.inStock ==> r.dateBought.None?)
      && r.updatedAt == e.updatedAt
      && r.(inStock := e.inStock, dateBought := e.dateBought) == e
  {
  }

  /** Toggling twice restores the record except for its purchase date,
      which is the second day's when it ends in stock and cleared
      otherwise. */
  lemma ToggleStockTwice(e: IngredientEntity, t1: string, t2: string)
    ensures ToggleStock(ToggleStock(e, t1), t2) == e.(dateBought := if e.inStock then Some(t2) else None)
  {
  }

  /** Sent through the update-by-id handler, the detail toggle flips the same
      record the list toggle does, but keeps its clock reading and dates its
      purchase instead. */
  lemma DetailAgreesWithListToggle(inventory: seq<IngredientEntity>, i: int, today: string, now: int)
    requires UniqueKeys(inventory, EntityId) && 0 <= i < |inventory|
    ensures var viaDetail := ReplaceById(inventory, ToggleStock(inventory[i], today));
            var viaList := ToggleById(inventory, inventory[i].id, now);
      && |viaDetail| == |viaList|
      && (forall j :: 0 <= j < |viaList| ==> viaDetail[j].inStock == viaList[j].inStock)
      && viaDetail[i].updatedAt == inventory[i].updatedAt
      && viaList[i].updatedAt == now
  {
  }
}
