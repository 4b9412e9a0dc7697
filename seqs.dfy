/** The array operations the handlers are built from: `filter`,
    `findIndex`, replace-or-append by id and removal by position. */
module Seqs {

  /** `Array.prototype.filter`: the elements satisfying `p`, in order. */
  function Filter<T>(xs: seq<T>, p: T -> bool): (r: seq<T>)
    ensures |r| <= |xs|
    ensures forall i :: 0 <= i < |r| ==> r[i] in xs && p(r[i])
    ensures forall i :: 0 <= i < |xs| && p(xs[i]) ==> xs[i] in r
  {
    if xs == [] then [] else (if p(xs[0]) then [xs[0]] else []) + Filter(xs[1..], p)
  }

  /** Filtering a concatenation filters each part, so the order of the kept
      elements is the order of the input. */
  lemma {:induction false} FilterAppend<T>(a: seq<T>, b: seq<T>, p: T -> bool)
    ensures Filter(a + b, p) == Filter(a, p) + Filter(b, p)
  {
    if a != [] {
      assert (a + b)[0] == a[0] && (a + b)[1..] == a[1..] + b;
      FilterAppend(a[1..], b, p);
      var h := if p(a[0]) then [a[0]] else [];
      calc {
        Filter(a + b, p);
        h + Filter(a[1..] + b, p);
        h + (Filter(a[1..], p) + Filter(b, p));
        (h + Filter(a[1..], p)) + Filter(b, p);
      }
    } else {
      assert a + b == b;
    }
  }

  /** A filter that keeps every element is the identity. */
  lemma {:induction false} FilterAll<T>(xs: seq<T>, p: T -> bool)
    requires forall i :: 0 <= i < |xs| ==> p(xs[i])
    ensures Filter(xs, p) == xs
  {
    if xs != [] {
      assert forall i :: 0 <= i < |xs[1..]| ==> xs[1..][i] == xs[i + 1];
      FilterAll(xs[1..], p);
    }
  }

  /** Keys are unique: no two positions hold elements with the same key. */
  predicate UniqueKeys<T>(xs: seq<T>, key: T -> string) {
    forall i, j :: 0 <= i < j < |xs| ==> key(xs[i]) != key(xs[j])
  }

  /** Dropping the head keeps the keys unique, and the head's key no
      longer occurs. */
  lemma UniqueKeysTail<T>(xs: seq<T>, key: T -> string)
    requires xs != [] && UniqueKeys(xs, key)
    ensures UniqueKeys(xs[1..], key)
    ensures forall j :: 0 <= j < |xs[1..]| ==> key(xs[1..][j]) != key(xs[0])
  {
    forall a, b | 0 <= a < b < |xs[1..]| ensures key(xs[1..][a]) != key(xs[1..][b]) {
      assert xs[1..][a] == xs[a + 1] && xs[1..][b] == xs[b + 1];
    }
    forall j | 0 <= j < |xs[1..]| ensures key(xs[1..][j]) != key(xs[0]) {
      assert xs[1..][j] == xs[j + 1];
    }
  }

  /** `findIndex(x => key(x) === k)`: the first position whose key is `k`,
      or -1. */
  function FirstIndex<T>(xs: seq<T>, key: T -> string, k: string): (r: int)
    ensures -1 <= r < |xs|
    ensures r >= 0 ==> key(xs[r]) == k
    ensures forall j :: 0 <= j < |xs| && (r == -1 || j < r) ==> key(xs[j]) != k
  {
    if xs == [] then -1
    else if key(xs[0]) == k then 0
    else
      var i := FirstIndex(xs[1..], key, k);
      if i == -1 then -1 else i + 1
  }

  /** The scan `findIndex` performs. */
  method FindIndex<T>(xs: seq<T>, key: T -> string, k: string) returns (r: int)
    ensures r == FirstIndex(xs, key, k)
  {
    var i := 0;
    while i < |xs|
      invariant 0 <= i <= |xs|
      invariant forall j :: 0 <= j < i ==> key(xs[j]) != k
    {
      if key(xs[i]) == k {
        FirstIndexUnique(xs, key, k, i);
        return i;
      }
      i := i + 1;
    }
    FirstIndexUnique(xs, key, k, -1);
    r := -1;
  }

  /** The contract of FirstIndex determines it. */
  lemma FirstIndexUnique<T>(xs: seq<T>, key: T -> string, k: string, r: int)
    requires -1 <= r < |xs|
    requires r >= 0 ==> key(xs[r]) == k
    requires forall j :: 0 <= j < |xs| && (r == -1 || j < r) ==> key(xs[j]) != k
    ensures r == FirstIndex(xs, key, k)
  {
  }

  /** The save handlers: replace the first element with the same key in
      place, or append when there is none. */
  function Upsert<T>(xs: seq<T>, x: T, key: T -> string): seq<T> {
    var i := FirstIndex(xs, key, key(x));
    if i >= 0 then xs[i := x] else xs + [x]
  }

  /** Upsert adds exactly when the key is new, then finds the record first
      under its key, and leaves every other position as it was. */
  lemma UpsertShape<T>(xs: seq<T>, x: T, key: T -> string)
    ensures var r := Upsert(xs, x, key); var i := FirstIndex(xs, key, key(x));
      && |r| == (if i >= 0 then |xs| else |xs| + 1)
      && FirstIndex(r, key, key(x)) == (if i >= 0 then i else |xs|)
      && r[FirstIndex(r, key, key(x))] == x
      && forall j :: 0 <= j < |xs| && j != i ==> r[j] == xs[j]
  {
    var r := Upsert(xs, x, key);
    var i := FirstIndex(xs, key, key(x));
    FirstIndexUnique(r, key, key(x), if i >= 0 then i else |xs|);
  }

  /** Saving the same record twice is saving it once. */
  lemma UpsertIdempotent<T>(xs: seq<T>, x: T, key: T -> string)
    ensures Upsert(Upsert(xs, x, key), x, key) == Upsert(xs, x, key)
  {
    UpsertShape(xs, x, key);
  }

  /** Upsert keeps the keys unique. */
  lemma UpsertKeepsUnique<T>(xs: seq<T>, x: T, key: T -> string)
    requires UniqueKeys(xs, key)
    ensures UniqueKeys(Upsert(xs, x, key), key)
  {
    UpsertShape(xs, x, key);
  }

  /** `xs.filter((_, i) => i !== index)`: the element at `index` removed. */
  function RemoveAt<T>(xs: seq<T>, index: int): (r: seq<T>)
    ensures 0 <= index < |xs| ==> |r| == |xs| - 1
    ensures !(0 <= index < |xs|) ==> r == xs
    ensures forall j :: 0 <= j < |r| ==> r[j] == xs[if 0 <= index <= j then j + 1 else j]
  {
    if 0 <= index < |xs| then xs[..index] + xs[index + 1..] else xs
  }

  /** `xs.slice(0, n)`. */
  function Take<T>(xs: seq<T>, n: nat): (r: seq<T>)
    ensures |r| == if |xs| <= n then |xs| else n
    ensures |xs| <= n ==> r == xs
    ensures r == xs[..|r|]
  {
    if |xs| <= n then xs else xs[..n]
  }
}
