/** All the lists of one scheduler at once: which items each list holds and in what order,
    the container pointer of every item, and the value every item carries. */
module ListHeap {
  import opened KernelLists

  type Task = nat

  /** `DelayedA` and `DelayedB` are the two delayed lists whose roles are switched when the
      tick count wraps; `EventList(n)` is the waiting list of some kernel object. */
  datatype ListId =
    | Ready(level: nat)
    | DelayedA
    | DelayedB
    | Suspended
    | Termination
    | PendingReady
    | EventList(id: nat)

  datatype Item = StateItem(task: Task) | EventItem(task: Task)

  datatype Heap = Heap(
    lists: map<ListId, KList<Item>>,
    container: map<Item, ListId>,
    value: map<Item, nat>)
  {
    function At(l: ListId): KList<Item> {
      if l in lists then lists[l] else KList([], 0)
    }

    function Items(l: ListId): seq<Item> {
      At(l).items
    }

    function Val(i: Item): nat {
      if i in value then value[i] else 0
    }

    function ValuesOf(items: seq<Item>): (vs: seq<nat>)
      ensures |vs| == |items|
      ensures forall k :: 0 <= k < |items| ==> vs[k] == Val(items[k])
    {
      seq(|items|, k requires 0 <= k < |items| => Val(items[k]))
    }

    function Values(l: ListId): seq<nat> {
      ValuesOf(Items(l))
    }

    predicate In(i: Item, l: ListId) {
      i in container && container[i] == l
    }

    /** vListInsertEnd. */
    function LinkEnd(l: ListId, i: Item): Heap {
      Heap(lists[l := At(l).InsertEnd(i)], container[i := l], value)
    }

    /** vListInsert. */
    function LinkSorted(l: ListId, i: Item): Heap {
      Heap(lists[l := At(l).InsertSorted(i, Values(l), Val(i))], container[i := l], value)
    }

    /** uxListRemove, when the item is in a list. */
    function Unlink(i: Item): Heap {
      if i in container then
        Heap(lists[container[i] := At(container[i]).Remove(i)], container - {i}, value)
      else this
    }

    /** listGET_OWNER_OF_NEXT_ENTRY's effect on the list. */
    function Step(l: ListId): Heap {
      this.(lists := lists[l := At(l).Next()])
    }

    function SetValue(i: Item, v: nat): Heap {
      this.(value := value[i := v])
    }

    /** The container pointers and the lists agree, and no list holds an item twice. */
    ghost predicate Wf() {
      && (forall l, i :: i in Items(l) <==> In(i, l))
      && (forall l :: At(l).Valid())
    }

    ghost predicate Ordered(l: ListId) {
      Sorted(Values(l))
    }
  }

  /** Changing one list and the container of one item, consistently, keeps the heap sound. */
  lemma ChangedAt(h: Heap, g: Heap, l: ListId, i: Item)
    requires h.Wf()
    requires forall m :: m != l ==> g.At(m) == h.At(m)
    requires g.At(l).Valid()
    requires forall j :: j != i ==> (j in g.Items(l) <==> j in h.Items(l))
    requires forall m, j :: j != i ==> (g.In(j, m) <==> h.In(j, m))
    requires forall m :: m != l ==> !h.In(i, m) && !g.In(i, m)
    requires i in g.Items(l) <==> g.In(i, l)
    ensures g.Wf()
  {}

  lemma OrderedElsewhere(h: Heap, g: Heap, l: ListId)
    requires forall m :: m != l ==> g.At(m) == h.At(m)
    requires g.value == h.value
    ensures forall m :: m != l && h.Ordered(m) ==> g.Ordered(m)
  {}

  lemma LinkEndFacts(h: Heap, l: ListId, i: Item)
    requires h.Wf() && i !in h.container
    ensures h.LinkEnd(l, i).Wf()
    ensures forall m :: m != l ==> h.LinkEnd(l, i).At(m) == h.At(m)
    ensures |h.LinkEnd(l, i).Items(l)| == |h.Items(l)| + 1
    ensures forall m :: m != l && h.Ordered(m) ==> h.LinkEnd(l, i).Ordered(m)
  {
    var g := h.LinkEnd(l, i);
    assert i in h.Items(l) <==> h.In(i, l);
    InsertAtFacts(h.At(l), if h.At(l).index == 0 then |h.Items(l)| else h.At(l).index - 1, i);
    ChangedAt(h, g, l, i);
    OrderedElsewhere(h, g, l);
  }

  lemma LinkSortedFacts(h: Heap, l: ListId, i: Item)
    requires h.Wf() && i !in h.container
    ensures h.LinkSorted(l, i).Wf()
    ensures forall m :: m != l ==> h.LinkSorted(l, i).At(m) == h.At(m)
    ensures forall m :: h.Ordered(m) ==> h.LinkSorted(l, i).Ordered(m)
    ensures |h.LinkSorted(l, i).Items(l)| == |h.Items(l)| + 1
  {
    var g := h.LinkSorted(l, i);
    assert i in h.Items(l) <==> h.In(i, l);
    InsertAtFacts(h.At(l), FirstGreater(h.Values(l), h.Val(i)), i);
    ChangedAt(h, g, l, i);
    OrderedElsewhere(h, g, l);
    if h.Ordered(l) { LinkSortedOrders(h, l, i); }
  }

  lemma LinkSortedOrders(h: Heap, l: ListId, i: Item)
    requires h.Ordered(l)
    ensures h.LinkSorted(l, i).Ordered(l)
  {
    var g, k := h.LinkSorted(l, i), FirstGreater(h.Values(l), h.Val(i));
    InsertSortedIsStable(h.At(l), i, h.Values(l), h.Val(i));
    ValuesInserted(h, h.Items(l), k, i);
    assert g.Values(l) == h.ValuesOf(g.Items(l));
  }

  lemma ValuesInserted(h: Heap, s: seq<Item>, k: nat, i: Item)
    requires k <= |s|
    ensures h.ValuesOf(s[..k] + [i] + s[k..]) == h.ValuesOf(s)[..k] + [h.Val(i)] + h.ValuesOf(s)[k..]
  {}

  lemma UnlinkFacts(h: Heap, i: Item)
    requires h.Wf() && i in h.container
    ensures h.Unlink(i).Wf()
    ensures forall m :: m != h.container[i] ==> h.Unlink(i).At(m) == h.At(m)
    ensures |h.Unlink(i).Items(h.container[i])| == |h.Items(h.container[i])| - 1
    ensures forall m :: h.Ordered(m) ==> h.Unlink(i).Ordered(m)
  {
    var g, l := h.Unlink(i), h.container[i];
    assert i in h.Items(l) <==> h.In(i, l);
    RemoveFacts(h.At(l), i);
    ChangedAt(h, g, l, i);
    OrderedElsewhere(h, g, l);
    if h.Ordered(l) { UnlinkOrders(h, i); }
  }

  lemma UnlinkOrders(h: Heap, i: Item)
    requires i in h.container && i in h.Items(h.container[i]) && h.Ordered(h.container[i])
    ensures h.Unlink(i).Ordered(h.container[i])
  {}

  lemma StepFacts(h: Heap, l: ListId)
    requires h.Wf()
    ensures h.Step(l).Wf()
    ensures forall m :: h.Step(l).Items(m) == h.Items(m)
    ensures forall m :: m != l ==> h.Step(l).At(m) == h.At(m)
    ensures forall m :: h.Ordered(m) ==> h.Step(l).Ordered(m)
  {
    var g := h.Step(l);
    forall m, j ensures j in g.Items(m) <==> g.In(j, m) {
      assert j in h.Items(m) <==> h.In(j, m);
    }
    forall m ensures g.At(m).Valid() {
      assert h.At(m).Valid();
    }
    OrderedElsewhere(h, g, l);
    assert g.Values(l) == h.Values(l);
  }

  lemma SetValueFacts(h: Heap, i: Item, v: nat)
    requires h.Wf()
    ensures h.SetValue(i, v).Wf()
    ensures forall m :: h.SetValue(i, v).At(m) == h.At(m)
    ensures forall m :: !h.In(i, m) && h.Ordered(m) ==> h.SetValue(i, v).Ordered(m)
  {
    var g := h.SetValue(i, v);
    forall m, j ensures j in g.Items(m) <==> g.In(j, m) {
      assert j in h.Items(m) <==> h.In(j, m);
    }
    forall m ensures g.At(m).Valid() {
      assert h.At(m).Valid();
    }
    forall m | !h.In(i, m) && h.Ordered(m) ensures g.Ordered(m) {
      assert i in h.Items(m) <==> h.In(i, m);
      assert g.Values(m) == h.Values(m);
    }
  }

  lemma EmptyIffNothingIn(h: Heap, l: ListId)
    requires h.Wf()
    ensures h.Items(l) == [] <==> forall i :: !h.In(i, l)
  {
    if h.Items(l) != [] {
      assert h.Items(l)[0] in h.Items(l);
    }
  }

  /** The head of an ordered list carries the least value in it. */
  lemma HeadIsLeast(h: Heap, l: ListId)
    requires h.Wf() && h.Ordered(l) && h.Items(l) != []
    ensures h.In(h.Items(l)[0], l)
    ensures forall i :: h.In(i, l) ==> h.Val(h.Items(l)[0]) <= h.Val(i)
  {}
}