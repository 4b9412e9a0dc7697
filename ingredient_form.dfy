/** The ingredient form of IngredientForm.tsx: the fields it opens with,
    for a new record or an existing one, and the record its save button
    builds. The random id and the clock readings are parameters. */
module IngredientForm {
  import opened Wrappers
  import opened Types
  import opened Normalizer

  /** The form's fields. */
  datatype FormState = FormState(
    name: string,
    quantity: real,
    unit: string,
    category: IngredientCategory,
    location: StorageLocation,
    brand: string,
    store: string,
    notes: string,
    inStock: bool,
    dateBought: string,
    expiryDate: string)

  datatype FormError = NameRequired

  /** The fields the form opens with: each field of the record being
      edited, or its default when there is none or when it is falsy. */
  function InitialForm(initial: Option<IngredientEntity>, today: string): (f: FormState)
    ensures initial.Some? ==> f.category == initial.value.category && f.inStock == initial.value.inStock
    ensures initial.None? ==> f.category == IngredientCategory.Pantry && f.inStock
    ensures f.quantity != 0.0 && f.unit != ""
    ensures today != "" ==> f.dateBought != ""
  {
    match initial
    case None =>
      FormState("", 1.0, "pcs", IngredientCategory.Pantry, StorageLocation.Pantry, "", "", "", true, today, "")
    case Some(e) =>
      FormState(
        e.name,
        OrNum(Some(e.quantity), 1.0),
        OrStr(Some(e.unit), "pcs"),
        e.category,
        e.location.GetOr(StorageLocation.Pantry),
        OrStr(e.brand, ""),
        OrStr(e.store, ""),
        OrStr(e.notes, ""),
        e.inStock,
        OrStr(e.dateBought, today),
        OrStr(e.expiryDate, ""))
  }

  /** `handleSave`: refused without a name; otherwise the record keeps the
      edited record's id, is keyed by the lower-cased trimmed name, files an
      empty store under General and keeps its dates only while in stock. */
  function SaveIngredient(form: FormState, initial: Option<IngredientEntity>, newId: string, now: int): Result<IngredientEntity, FormError> {
    if form.name == "" then Err(NameRequired)
    else
      Ok(IngredientEntity(
        if initial.Some? && initial.value.id != "" then initial.value.id else newId,
        form.name,
        SimpleKey(form.name),
        form.inStock,
        form.category,
        if form.inStock then Some(form.dateBought) else None,
        if form.inStock then Some(form.expiryDate) else None,
        form.unit,
        form.quantity,
        None,
        None,
        Some(form.brand),
        Some(if form.store != "" then form.store else "General"),
        Some(form.location),
        Some(form.notes),
        now))
  }

  /** Save is refused exactly when the name is empty. */
  lemma SaveRefusedIffNoName(form: FormState, initial: Option<IngredientEntity>, newId: string, now: int)
    ensures SaveIngredient(form, initial, newId, now).Err? <==> form.name == ""
  {
  }

  /** What a saved record holds: the edited record's id when it has one,
      the fresh id otherwise; the weak key of the name; a store that is never
      empty; dates exactly when in stock; the clock reading; no amount to buy
      and no serving size. */
  lemma SaveShape(form: FormState, initial: Option<IngredientEntity>, newId: string, now: int)
    requires form.name != ""
    ensures var r := SaveIngredient(form, initial, newId, now);
      && r.Ok?
      && (initial.Some? && initial.value.id != "" ==> r.value.id == initial.value.id)
      && (initial.None? || initial.value.id == "" ==> r.value.id == newId)
      && r.value.name == form.name
      && r.value.nameNormalized == SimpleKey(form.name)
      && r.value.store.Some? && r.value.store.value != ""
      && (form.store == "" ==> r.value.store == Some("General"))
      && (r.value.dateBought.Some? <==> form.inStock) && (r.value.expiryDate.Some? <==> form.inStock)
      && r.value.updatedAt == now
      && r.value.neededQuantity.None? && r.value.servesPerUnit.None?
  {
  }

  /** Two names with the same weak key get the same full key, so the
      form's key never splits what the normaliser would merge. */
  lemma SavedKeyRefinesNormalize(a: FormState, b: FormState, initial: Option<IngredientEntity>, newId: string, now: int)
    requires SaveIngredient(a, initial, newId, now).Ok? && SaveIngredient(b, initial, newId, now).Ok?
    requires SaveIngredient(a, initial, newId, now).value.nameNormalized == SaveIngredient(b, initial, newId, now).value.nameNormalized
    ensures Normalize(a.name) == Normalize(b.name)
  {
    NormalizeRefinesSimpleKey(a.name, b.name);
  }

  /** A new record opens in stock, one `pcs`, in the Pantry category and
      location, bought today, with every text field empty. */
  lemma NewFormDefaults(today: string)
    ensures InitialForm(None, today) == FormState("", 1.0, "pcs", IngredientCategory.Pantry, StorageLocation.Pantry, "", "", "", true, today, "")
  {
  }

  /** A record with no quantity on hand reopens with quantity 1. */
  lemma ZeroQuantityReopensAsOne(e: IngredientEntity, today: string)
    requires e.quantity == 0.0
    ensures InitialForm(Some(e), today).quantity == 1.0
  {
  }

  /** Saving and reopening gives back the form, provided no field hit a
      falsy default: a name, a non-zero quantity, a unit and a store, and in
      stock with a purchase date. */
  lemma SaveReopenRoundTrip(form: FormState, initial: Option<IngredientEntity>, newId: string, now: int, today: string)
    requires form.name != "" && form.quantity != 0.0 && form.unit != "" && form.store != ""
    requires form.inStock && form.dateBought != ""
    ensures InitialForm(Some(SaveIngredient(form, initial, newId, now).value), today) == form
  {
  }

  /** Reopening a saved record and saving it again changes nothing but the
      clock reading, provided the record was in stock with a purchase date
      and had a non-zero quantity. */
  lemma ReopenSaveRoundTrip(form: FormState, initial: Option<IngredientEntity>, newId: string, newId2: string, now: int, now2: int, today: string)
    requires form.name != "" && form.quantity != 0.0 && form.unit != ""
    requires form.inStock && form.dateBought != ""
    requires initial.Some? && initial.value.id != ""
    ensures var e := SaveIngredient(form, initial, newId, now).value;
      SaveIngredient(InitialForm(Some(e), today), Some(e), newId2, now2) == Ok(e.(updatedAt := now2))
  {
  }
}
