/** The value of a kernel list: the items in physical order after the end marker,
    and the walk index that listGET_OWNER_OF_NEXT_ENTRY moves. */
module KernelLists {

  ghost predicate NoDup<T>(s: seq<T>) {
    forall i, j :: 0 <= i < j < |s| ==> s[i] != s[j]
  }

  ghost predicate Sorted(s: seq<nat>) {
    forall i, j :: 0 <= i < j < |s| ==> s[i] <= s[j]
  }

  function Position<T(==)>(s: seq<T>, x: T): (k: nat)
    requires x in s
    ensures k < |s| && s[k] == x
  {
    if s[0] == x then 0 else 1 + Position(s[1..], x)
  }

  /** The place at which a stable insertion of `v` belongs. */
  function FirstGreater(values: seq<nat>, v: nat): (k: nat)
    ensures k <= |values|
    ensures forall i :: 0 <= i < k ==> values[i] <= v
    ensures k < |values| ==> v < values[k]
  {
    if values == [] || v < values[0] then 0 else 1 + FirstGreater(values[1..], v)
  }

  /** `index` 0 is the end marker; `index` k > 0 is `items[k - 1]`. */
  datatype KList<T(==)> = KList(items: seq<T>, index: nat) {

    ghost predicate Valid() {
      NoDup(items) && index <= |items|
    }

    function InsertAt(k: nat, x: T): KList<T>
      requires k <= |items|
    {
      KList(items[..k] + [x] + items[k..], if k < index then index + 1 else index)
    }

    /** vListInsertEnd: the new item goes just before the walk index. */
    function InsertEnd(x: T): KList<T> {
      if index == 0 || |items| < index then InsertAt(|items|, x) else InsertAt(index - 1, x)
    }

    /** vListInsert, given the item values of the list in order. */
    function InsertSorted(x: T, values: seq<nat>, v: nat): KList<T>
      requires |values| == |items|
    {
      InsertAt(FirstGreater(values, v), x)
    }

    function RemoveAt(k: nat): KList<T>
      requires k < |items|
    {
      KList(items[..k] + items[k + 1..], if k < index then index - 1 else index)
    }

    /** uxListRemove: a walk index on the removed item falls back to the previous node. */
    function Remove(x: T): KList<T> {
      if x in items then RemoveAt(Position(items, x)) else this
    }

    /** listGET_OWNER_OF_NEXT_ENTRY: step the index, skipping the end marker. */
    function Next(): KList<T> {
      if index < |items| then this.(index := index + 1) else this.(index := if items == [] then 0 else 1)
    }

    function Selected(): T
      requires 0 < index <= |items|
    {
      items[index - 1]
    }
  }

  lemma PositionUnique<T>(s: seq<T>, k: nat)
    requires NoDup(s) && k < |s|
    ensures Position(s, s[k]) == k
  {}

  lemma {:induction false} FirstGreaterUnique(values: seq<nat>, v: nat, k: nat)
    requires k <= |values|
    requires forall i :: 0 <= i < k ==> values[i] <= v
    requires k < |values| ==> v < values[k]
    ensures FirstGreater(values, v) == k
  {}

  lemma InsertAtFacts<T>(l: KList<T>, k: nat, x: T)
    requires l.Valid() && k <= |l.items| && x !in l.items
    ensures l.InsertAt(k, x).Valid()
    ensures forall y :: y in l.InsertAt(k, x).items <==> y == x || y in l.items
  {}

  lemma RemoveFacts<T>(l: KList<T>, x: T)
    requires l.Valid() && x in l.items
    ensures l.Remove(x).Valid()
    ensures |l.Remove(x).items| == |l.items| - 1
    ensures forall y :: y in l.Remove(x).items <==> y != x && y in l.items
  {}

  lemma FirstGreaterSplits(values: seq<nat>, v: nat)
    requires Sorted(values)
    ensures forall i :: 0 <= i < |values| ==> (i < FirstGreater(values, v) <==> values[i] <= v)
  {}

  lemma SomeMember<T>(s: seq<T>)
    ensures s == [] || exists x :: x in s
  {
    assert s == [] || s[0] in s;
  }

  /** Stable ordered insertion: sortedness is kept, everything not greater than the new
      value, equal values and the maximum delay included, stays in front of it, and the
      relative order of the others does not change. */
  lemma InsertSortedIsStable<T>(l: KList<T>, x: T, values: seq<nat>, v: nat)
    requires |values| == |l.items| && Sorted(values)
    ensures var k := FirstGreater(values, v);
            && Sorted(values[..k] + [v] + values[k..])
            && l.InsertSorted(x, values, v).items == l.items[..k] + [x] + l.items[k..]
            && (forall i :: 0 <= i < |values| ==> (i < k <==> values[i] <= v))
  {}
}
