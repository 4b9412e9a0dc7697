/** The grocery list of GroceryList.tsx: which inventory records are
    listed, how they are grouped by store, what each row shows, and the
    quick-add box. */
module Grocery {
  import opened Wrappers
  import opened Text
  import opened Types
  import opened Seqs
  import opened Normalizer

  /** Listed: out of stock, or a positive quantity still to buy. */
  predicate IsCandidate(e: IngredientEntity) {
    !e.inStock || (e.neededQuantity.Some? && e.neededQuantity.value > 0.0)
  }

  /** `missingItems` */
  function MissingItems(inventory: seq<IngredientEntity>): seq<IngredientEntity> {
    Filter(inventory, IsCandidate)
  }

  /** `item.store || 'General'` */
  function StoreLabel(e: IngredientEntity): (r: string)
    ensures r != ""
    ensures r == "General" <== e.store.None? || e.store == Some("")
  {
    OrStr(e.store, "General")
  }

  /** The items of one group, in list order. */
  function ItemsIn(items: seq<IngredientEntity>, store: string): seq<IngredientEntity> {
    Filter(items, e => StoreLabel(e) == store)
  }

  /** The group labels in the order the scan first meets them. */
  function StoreOrder(items: seq<IngredientEntity>): seq<string> {
    if items == [] then []
    else
      var o := StoreOrder(items[..|items| - 1]);
      var l := StoreLabel(items[|items| - 1]);
      if l in o then o else o + [l]
  }

  /** `groups` holds exactly the stores of `order`, each with its items. */
  ghost predicate GroupsOf(items: seq<IngredientEntity>, order: seq<string>, groups: map<string, seq<IngredientEntity>>) {
    && (forall l :: l in groups <==> l in order)
    && (forall l :: l in groups ==> groups[l] == ItemsIn(items, l))
  }

  /** The `reduce` that builds `storeGroups`: the stores in first-seen order
      (the order `Object.entries` lists them) and, for each, its items. */
  method BuildStoreGroups(items: seq<IngredientEntity>) returns (order: seq<string>, groups: map<string, seq<IngredientEntity>>)
    ensures order == StoreOrder(items)
    ensures forall l :: l in groups <==> l in order
    ensures forall l :: l in groups ==> groups[l] == ItemsIn(items, l)
  {
    order := [];
    groups := map[];
    var i := 0;
    while i < |items|
      invariant 0 <= i <= |items|
      invariant order == StoreOrder(items[..i])
      invariant GroupsOf(items[..i], order, groups)
    {
      var item := items[i];
      var store := StoreLabel(item);
      GroupsStep(items[..i], item, order, groups);
      assert items[..i + 1] == items[..i] + [item];
      var current := if store in groups then groups[store] else [];
      order := if store in groups then order else order + [store];
      groups := groups[store := current + [item]];
      i := i + 1;
    }
    assert items[..i] == items;
  }

  /** The member names a plain object inherits from `Object.prototype`.
      Looking one of them up on `{}` gives an inherited value, not undefined. */
  const PrototypeNames: set<string> := {
    "constructor", "__proto__", "toString", "toLocaleString", "valueOf",
    "hasOwnProperty", "isPrototypeOf", "propertyIsEnumerable",
    "__defineGetter__", "__defineSetter__", "__lookupGetter__", "__lookupSetter__"}

  /** Some listed item is filed under a prototype member name. */
  predicate HasPrototypeLabel(items: seq<IngredientEntity>) {
    exists i :: 0 <= i < |items| && StoreLabel(items[i]) in PrototypeNames
  }

  lemma NoPrototypeLabelSnoc(items: seq<IngredientEntity>, x: IngredientEntity)
    requires !HasPrototypeLabel(items) && StoreLabel(x) !in PrototypeNames
    ensures !HasPrototypeLabel(items + [x])
  {
  }

  /** The reduce throws at `acc[store].push` on the named store. */
  datatype GroupError = PushOnInherited(store: string)

  /** The reduce as written, on a plain object: `acc[store]` is the store's
      own group when it has one, else the inherited member when the label
      names one (truthy, so no group is created), else undefined. Pushing
      onto an inherited member throws, so the grouping fails exactly when
      some listed item's label is a prototype member name. */
  method BuildStoreGroupsAsWritten(items: seq<IngredientEntity>)
    returns (r: Result<(seq<string>, map<string, seq<IngredientEntity>>), GroupError>)
    ensures r.Err? <==> HasPrototypeLabel(items)
    ensures r.Err? ==> r.error.store in PrototypeNames
    ensures r.Ok? ==> var (order, groups) := r.value;
      && order == StoreOrder(items)
      && (forall l :: l in groups <==> l in order)
      && (forall l :: l in groups ==> groups[l] == ItemsIn(items, l))
  {
    var order := [];
    var groups := map[];
    var i := 0;
    while i < |items|
      invariant 0 <= i <= |items|
      invariant !HasPrototypeLabel(items[..i])
      invariant forall l :: l in groups ==> l !in PrototypeNames
      invariant order == StoreOrder(items[..i])
      invariant GroupsOf(items[..i], order, groups)
    {
      var item := items[i];
      var store := StoreLabel(item);
      if store !in groups && store in PrototypeNames {
        assert StoreLabel(items[i]) in PrototypeNames;
        return Err(PushOnInherited(store));
      }
      NoPrototypeLabelSnoc(items[..i], item);
      GroupsStep(items[..i], item, order, groups);
      assert items[..i + 1] == items[..i] + [item];
      var current := if store in groups then groups[store] else [];
      order := if store in groups then order else order + [store];
      groups := groups[store := current + [item]];
      i := i + 1;
    }
    assert items[..i] == items;
    return Ok((order, groups));
  }

  /** An item filed under the store "constructor": the reduce as written
      throws on it, while the intended grouping gives it a group of its own. */
  lemma PrototypeStoreCounterexample(e: IngredientEntity)
    requires e.store == Some("constructor")
    ensures StoreLabel(e) in PrototypeNames
    ensures StoreOrder([e]) == ["constructor"] && ItemsIn([e], "constructor") == [e]
  {
    assert [e][..0] == [];
    assert Filter([e], x => StoreLabel(x) == "constructor") == [e] + Filter([e][1..], x => StoreLabel(x) == "constructor");
  }

  lemma ItemsInSnoc(items: seq<IngredientEntity>, x: IngredientEntity, l: string)
    ensures ItemsIn(items + [x], l) == ItemsIn(items, l) + (if StoreLabel(x) == l then [x] else [])
  {
    FilterAppend(items, [x], e => StoreLabel(e) == l);
    assert Filter([x], e => StoreLabel(e) == l) == (if StoreLabel(x) == l then [x] else []) + Filter([x][1..], e => StoreLabel(e) == l);
  }

  /** No item of the list is filed under a store none of them names. */
  lemma {:induction false} ItemsInAbsent(items: seq<IngredientEntity>, l: string)
    requires forall k :: 0 <= k < |items| ==> StoreLabel(items[k]) != l
    ensures ItemsIn(items, l) == []
  {
    if items != [] {
      assert forall k :: 0 <= k < |items[1..]| ==> items[1..][k] == items[k + 1];
      ItemsInAbsent(items[1..], l);
    }
  }

  /** One step of the scan: the item joins its store's group, which is
      created (and its store appended to the order) on first sight. */
  lemma GroupsStep(items: seq<IngredientEntity>, x: IngredientEntity, order: seq<string>, groups: map<string, seq<IngredientEntity>>)
    requires order == StoreOrder(items) && GroupsOf(items, order, groups)
    ensures var s := StoreLabel(x);
      && StoreOrder(items + [x]) == (if s in groups then order else order + [s])
      && GroupsOf(items + [x], StoreOrder(items + [x]), groups[s := (if s in groups then groups[s] else []) + [x]])
  {
    var s := StoreLabel(x);
    StoreOrderSnoc(items, x);
    var o2 := if s in order then order else order + [s];
    var g2 := groups[s := (if s in groups then groups[s] else []) + [x]];
    assert forall l :: l in g2 <==> l in o2;
    forall l | l in g2 ensures g2[l] == ItemsIn(items + [x], l) {
      ItemsInSnoc(items, x, l);
      if l == s && s !in groups {
        StoreNotYetSeen(items, s);
      }
    }
  }

  lemma StoreOrderSnoc(items: seq<IngredientEntity>, x: IngredientEntity)
    ensures StoreOrder(items + [x]) ==
      if StoreLabel(x) in StoreOrder(items) then StoreOrder(items) else StoreOrder(items) + [StoreLabel(x)]
  {
    assert (items + [x])[..|items|] == items;
  }

  /** A store the scan has not met yet has no items so far. */
  lemma StoreNotYetSeen(items: seq<IngredientEntity>, s: string)
    requires s !in StoreOrder(items)
    ensures ItemsIn(items, s) == []
  {
    StoreOrderFacts(items);
    ItemsInAbsent(items, s);
  }

  predicate NoDuplicates(s: seq<string>) {
    forall i, j :: 0 <= i < j < |s| ==> s[i] != s[j]
  }

  /** No store appears twice, every item's store appears, and every store
      has at least one item: no group is empty. */
  lemma {:induction false} StoreOrderFacts(items: seq<IngredientEntity>)
    ensures NoDuplicates(StoreOrder(items))
    ensures forall i :: 0 <= i < |items| ==> StoreLabel(items[i]) in StoreOrder(items)
    ensures forall l :: l in StoreOrder(items) ==> ItemsIn(items, l) != []
  {
    if items != [] {
      var p := items[..|items| - 1];
      var x := items[|items| - 1];
      assert items == p + [x];
      StoreOrderFacts(p);
      forall l | l in StoreOrder(items) ensures ItemsIn(items, l) != [] {
        ItemsInSnoc(p, x, l);
      }
    }
  }

  /** The total size of the groups with the given labels. */
  function GroupSizes(items: seq<IngredientEntity>, labels: seq<string>): nat {
    if labels == [] then 0
    else GroupSizes(items, labels[..|labels| - 1]) + |ItemsIn(items, labels[|labels| - 1])|
  }

  lemma {:induction false} GroupSizesSnoc(items: seq<IngredientEntity>, x: IngredientEntity, labels: seq<string>)
    requires NoDuplicates(labels)
    ensures GroupSizes(items + [x], labels) == GroupSizes(items, labels) + (if StoreLabel(x) in labels then 1 else 0)
  {
    if labels != [] {
      var init := labels[..|labels| - 1];
      var last := labels[|labels| - 1];
      assert labels == init + [last];
      GroupSizesSnoc(items, x, init);
      ItemsInSnoc(items, x, last);
      assert StoreLabel(x) in labels <==> StoreLabel(x) in init || StoreLabel(x) == last;
      assert StoreLabel(x) == last ==> StoreLabel(x) !in init;
    }
  }

  /** The groups partition the list: each item lies in the group of its own
      store only, and the group sizes add up to the number of items. */
  lemma {:induction false} GroupsPartition(items: seq<IngredientEntity>)
    ensures GroupSizes(items, StoreOrder(items)) == |items|
    ensures forall l, x :: l in StoreOrder(items) && x in ItemsIn(items, l) ==> StoreLabel(x) == l
  {
    if items != [] {
      var p := items[..|items| - 1];
      var x := items[|items| - 1];
      assert items == p + [x];
      GroupsPartition(p);
      StoreOrderFacts(p);
      var o := StoreOrder(p);
      var l := StoreLabel(x);
      GroupSizesSnoc(p, x, o);
      if l !in o {
        ItemsInSnoc(p, x, l);
        ItemsInAbsent(p, l);
        assert (o + [l])[..|o|] == o;
      }
    }
  }

  /** `item.neededQuantity || item.quantity || 1`: never zero. */
  function BuyQty(e: IngredientEntity): (r: real)
    ensures r != 0.0
    ensures e.neededQuantity.Some? && e.neededQuantity.value != 0.0 ==> r == e.neededQuantity.value
    ensures (e.neededQuantity.None? || e.neededQuantity == Some(0.0)) ==> r == (if e.quantity != 0.0 then e.quantity else 1.0)
  {
    OrNum(e.neededQuantity, OrNum(Some(e.quantity), 1.0))
  }

  /** In stock but with something left to buy. */
  predicate IsPartial(e: IngredientEntity) {
    e.inStock && OrNum(e.neededQuantity, 0.0) > 0.0
  }

  /** The partial rows are exactly the listed rows that are in stock. */
  lemma PartialIffListedInStock(e: IngredientEntity)
    ensures IsPartial(e) <==> IsCandidate(e) && e.inStock
  {
  }

  // An example list: two items at store A (one out of stock with 2 on
  // hand, one in stock still needing 1) and one out-of-stock item with no
  // store and 1 on hand.
  const SampleA1 := IngredientEntity("1", "a", "a", false, Produce, None, None, "pcs", 2.0, None, None, None, Some("A"), None, None, 0)
  const SampleA2 := IngredientEntity("2", "b", "b", true, Produce, None, None, "pcs", 0.0, Some(1.0), None, None, Some("A"), None, None, 0)
  const SampleG := IngredientEntity("3", "c", "c", false, Produce, None, None, "pcs", 1.0, None, None, None, None, None, None, 0)

  /** All three are listed, store A first and General second. */
  lemma SampleOrder()
    ensures MissingItems([SampleA1, SampleA2, SampleG]) == [SampleA1, SampleA2, SampleG]
    ensures StoreOrder([SampleA1, SampleA2, SampleG]) == ["A", "General"]
  {
    FilterAll([SampleA1, SampleA2, SampleG], IsCandidate);
    assert StoreLabel(SampleA1) == "A" && StoreLabel(SampleA2) == "A" && StoreLabel(SampleG) == "General";
    assert [SampleA1, SampleA2, SampleG][..2] == [SampleA1, SampleA2];
    assert [SampleA1, SampleA2][..1] == [SampleA1];
    assert [SampleA1][..0] == [];
    assert StoreOrder([SampleA1]) == ["A"];
    assert StoreOrder([SampleA1, SampleA2]) == ["A"];
    assert "General" !in ["A"];
  }

  /** Group A holds the first two items in list order, General the third. */
  lemma SampleGroups()
    ensures ItemsIn([SampleA1, SampleA2, SampleG], "A") == [SampleA1, SampleA2]
    ensures ItemsIn([SampleA1, SampleA2, SampleG], "General") == [SampleG]
  {
    assert StoreLabel(SampleA1) == "A" && StoreLabel(SampleA2) == "A" && StoreLabel(SampleG) == "General";
    assert [SampleA1] == [] + [SampleA1];
    assert [SampleA1, SampleA2] == [SampleA1] + [SampleA2];
    assert [SampleA1, SampleA2, SampleG] == [SampleA1, SampleA2] + [SampleG];
    assert ItemsIn([], "A") == [] && ItemsIn([], "General") == [];
    ItemsInSnoc([], SampleA1, "A");
    ItemsInSnoc([SampleA1], SampleA2, "A");
    ItemsInSnoc([SampleA1, SampleA2], SampleG, "A");
    ItemsInSnoc([], SampleA1, "General");
    ItemsInSnoc([SampleA1], SampleA2, "General");
    ItemsInSnoc([SampleA1, SampleA2], SampleG, "General");
  }

  /** The rows buy 2, 1 and 1, and only the in-stock one is partial. */
  lemma SampleRows()
    ensures BuyQty(SampleA1) == 2.0 && BuyQty(SampleA2) == 1.0 && BuyQty(SampleG) == 1.0
    ensures !IsPartial(SampleA1) && IsPartial(SampleA2) && !IsPartial(SampleG)
  {
  }

  /** `handleQuickAdd`: a name with something besides whitespace is handed
      on trimmed and the box is cleared; otherwise nothing happens. The
      result is the submitted name, if any, and the box's new contents. */
  function QuickAdd(input: string): (Option<string>, string) {
    if Trim(input) != "" then (Some(Trim(input)), "") else (None, input)
  }

  /** A submitted name is never blank and already trimmed, and it gets the
      same inventory key as the text typed. */
  lemma QuickAddShape(input: string)
    ensures var (submitted, box) := QuickAdd(input);
      && (submitted.Some? <==> Trim(input) != "")
      && (submitted.Some? ==> submitted.value != "" && Trim(submitted.value) == submitted.value && box == "")
      && (submitted.Some? ==> Normalize(submitted.value) == Normalize(input))
      && (submitted.None? ==> box == input)
  {
    TrimIdempotent(input);
    NormalizeOfTrimmed(input);
  }
}
