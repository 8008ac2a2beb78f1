/** Many circular lists on the heap at once, whose items wander from one to another. Together
    they are one ListHeap: every pointer operation does to them what the operation of
    ListHeap does to its value. */
module PointerLists {
  import opened KernelConfig
  import opened KernelLists
  import opened ListHeap
  import opened IntrusiveList
  import opened Scheduler

  // ----- Items under their names ----------------------------------------------------

  function NameOf(names: map<ListItem, Item>, n: ListItem): Item {
    if n in names then names[n] else StateItem(0)
  }

  function Names(names: map<ListItem, Item>, s: seq<ListItem>): (r: seq<Item>)
    ensures |r| == |s|
    ensures forall k :: 0 <= k < |s| ==> r[k] == NameOf(names, s[k])
  {
    seq(|s|, k requires 0 <= k < |s| => NameOf(names, s[k]))
  }

  function Named(names: map<ListItem, Item>, l: KList<ListItem>): KList<Item> {
    KList(Names(names, l.items), l.index)
  }

  lemma NamedInsertAt(names: map<ListItem, Item>, l: KList<ListItem>, k: nat, x: ListItem)
    requires k <= |l.items|
    ensures Named(names, l.InsertAt(k, x)) == Named(names, l).InsertAt(k, NameOf(names, x))
  {}

  lemma NamedInsertEnd(names: map<ListItem, Item>, l: KList<ListItem>, x: ListItem)
    ensures Named(names, l.InsertEnd(x)) == Named(names, l).InsertEnd(NameOf(names, x))
  {
    hide Named, KList.InsertAt;
    var k := if l.index == 0 || |l.items| < l.index then |l.items| else l.index - 1;
    NamedInsertAt(names, l, k, x);
    assert |Named(names, l).items| == |l.items| && Named(names, l).index == l.index by { NamedSize(names, l); }
  }

  lemma NamedSize(names: map<ListItem, Item>, l: KList<ListItem>)
    ensures |Named(names, l).items| == |l.items| && Named(names, l).index == l.index
  {}

  /** No two items of the list share a name. */
  ghost predicate Distinguishes(names: map<ListItem, Item>, s: seq<ListItem>) {
    forall m, n :: m in s && n in s && NameOf(names, m) == NameOf(names, n) ==> m == n
  }

  lemma NamedRemove(names: map<ListItem, Item>, l: KList<ListItem>, x: ListItem)
    requires x in l.items && NoDup(l.items) && Distinguishes(names, l.items)
    ensures Named(names, l.Remove(x)) == Named(names, l).Remove(NameOf(names, x))
  {
    var k := Position(l.items, x);
    var r := Names(names, l.items);
    assert r[k] == NameOf(names, x);
    assert NoDup(r);
    PositionUnique(r, k);
  }

  lemma NamedInsertSorted(names: map<ListItem, Item>, l: KList<ListItem>, x: ListItem, values: seq<nat>, v: nat)
    requires |values| == |l.items|
    ensures Named(names, l.InsertSorted(x, values, v))
         == Named(names, l).InsertSorted(NameOf(names, x), values, v)
  {
    NamedInsertAt(names, l, FirstGreater(values, v), x);
  }

  lemma NamedNext(names: map<ListItem, Item>, l: KList<ListItem>)
    ensures Named(names, l.Next()) == Named(names, l).Next()
  {}

  lemma NextSelects(l: KList<ListItem>)
    requires l.Valid() && l.items != []
    ensures 0 < l.Next().index <= |l.Next().items|
  {}

  lemma OneMoreValue(nodes: map<Item, ListItem>, i: Item, item: ListItem, n: ListItem)
    requires i !in nodes
    ensures n in nodes[i := item].Values <==> n == item || n in nodes.Values
  {
    var more := nodes[i := item];
    if n in nodes.Values {
      var j :| j in nodes && nodes[j] == n;
      assert more[j] == n;
    }
    if n == item { assert more[i] == n; }
  }

  lemma NamesAreDistinct(names: map<ListItem, Item>, s: seq<ListItem>)
    requires NoDup(s) && Distinguishes(names, s)
    ensures NoDup(Names(names, s))
  {
    assert forall k :: 0 <= k < |s| ==> s[k] in s;
  }

  /** The nodes of a list are its end marker and the items of its value. */
  lemma NodesOfModel(list: List)
    requires list.Valid()
    ensures list.Model().Valid() && list.end !in list.Model().items
    ensures forall n :: n in list.nodes <==> n == list.end || n in list.Model().items
  {
    var s := list.nodes;
    assert s == [s[0]] + s[1..];
    assert forall k :: 0 <= k < |s| - 1 ==> s[1..][k] == s[k + 1];
  }

  // ----- The lists of a kernel ------------------------------------------------------

  class Store {
    var lists: map<ListId, List>
    var nodes: map<Item, ListItem>
    ghost var ids: map<List, ListId>
    ghost var names: map<ListItem, Item>

    ghost function Repr(): set<object>
      reads this
    {
      lists.Values + nodes.Values + (set l | l in lists :: lists[l].end)
    }

    /** Every list and every item has one name, and no end marker is an item. */
    ghost predicate Labelled()
      reads this
    {
      && (forall l :: l in lists ==> lists[l] in ids && ids[lists[l]] == l)
      && (forall i :: i in nodes ==> nodes[i] in names && names[nodes[i]] == i)
      && names.Keys == nodes.Values
      && (forall l :: l in lists ==> lists[l].end !in names)
      && (forall l, m :: l in lists && m in lists && lists[l].end == lists[m].end ==> l == m)
    }

    /** The list is well linked, and made of its own end marker and of items. */
    ghost predicate WellMade(l: ListId)
      requires l in lists && Labelled()
      reads this, Repr()
    {
      && (forall n :: n in lists[l].nodes ==> n == lists[l].end || n in names)
      && lists[l].Valid()
    }

    /** An item's container, if it has one, is a list that it is in; its owner is its task. */
    ghost predicate Placed(i: Item)
      requires i in nodes && Labelled()
      reads this, Repr()
    {
      var c := nodes[i].container;
      && (c != null ==> c in ids && ids[c] in lists && lists[ids[c]] == c && nodes[i] in c.nodes)
      && nodes[i].owner == i.task
    }

    ghost predicate Valid()
      reads this, Repr()
    {
      && Labelled()
      && (forall l :: l in lists ==> WellMade(l))
      && (forall i :: i in nodes ==> Placed(i))
    }

    ghost function View(): Heap
      requires Valid()
      reads this, Repr()
    {
      Heap(ListsView(), ContainerView(), map i | i in nodes :: nodes[i].value)
    }

    ghost function ListsView(): map<ListId, KList<Item>>
      requires Valid()
      reads this, Repr()
    {
      map l | l in lists :: Listed(l)
    }

    ghost function ContainerView(): map<Item, ListId>
      requires Valid()
      reads this, Repr()
    {
      map i | i in nodes && nodes[i].container != null :: IdOf(nodes[i].container)
    }

    ghost function IdOf(c: List): ListId
      reads this
    {
      if c in ids then ids[c] else Suspended
    }

    ghost function Listed(l: ListId): KList<Item>
      requires l in lists && Labelled() && WellMade(l)
      reads this, Repr()
    {
      Named(names, lists[l].Model())
    }

    // ----- Different lists share nothing ------------------------------------------

    lemma ListsAreApart(l: ListId, m: ListId)
      requires Valid() && l in lists && m in lists && l != m
      ensures lists[l] != lists[m]
      ensures forall n :: n in lists[l].nodes ==> n !in lists[m].nodes
    {
      assert WellMade(l) && WellMade(m);
      forall n | n in lists[l].nodes ensures n !in lists[m].nodes {
        NodeIsMarkerOrItem(l, n);
        if n in lists[m].nodes { NodeIsMarkerOrItem(m, n); }
      }
    }

    lemma NodeIsMarkerOrItem(l: ListId, n: ListItem)
      requires Valid() && l in lists && n in lists[l].nodes
      ensures n == lists[l].end || (n in names && n.container == lists[l])
    {
      assert WellMade(l);
    }

    /** An item is in the list that is its container and in no other. */
    lemma ItemIsWhereItsContainerIs(i: Item, l: ListId)
      requires Valid() && i in nodes && l in lists
      ensures nodes[i] in lists[l].nodes <==> nodes[i].container == lists[l]
      ensures nodes[i] in lists[l].nodes <==> nodes[i] in lists[l].Model().items
    {
      assert WellMade(l) && Placed(i);
      if nodes[i] in lists[l].nodes { NodeIsMarkerOrItem(l, nodes[i]); }
    }

    // ----- Changing one list, and one item in it or out of it ----------------------

    /** Lists and items that were there keep their names. */
    twostate predicate Grown()
      requires old(Valid())
      reads this
    {
      && (forall m :: m in old(lists) ==> m in lists && lists[m] == old(lists)[m])
      && (forall c :: c in old(ids) ==> c in ids && ids[c] == old(ids)[c])
      && (forall i :: i in old(nodes) ==> i in nodes && nodes[i] == old(nodes)[i])
      && (forall n :: n in old(names) ==> n in names && names[n] == old(names)[n])
    }

    /** A list stands whose fields and nodes have not been written. */
    twostate lemma ListStands(m: ListId)
      requires old(Valid()) && Labelled() && Grown() && m in old(lists)
      requires unchanged(old(lists)[m]) && forall n :: n in old(lists[m].nodes) ==> unchanged(n)
      ensures WellMade(m) && Listed(m) == old(Listed(m))
    {
      var list := lists[m];
      assert old(WellMade(m)) && old(list.Valid());
      assert list == old(lists[m]) && list.nodes == old(list.nodes);
      assert list.end == old(list.nodes)[0] && list.end in old(list.nodes);
      forall k | 0 <= k < |list.nodes| ensures unchanged(list.nodes[k]) {
        assert list.nodes[k] in old(list.nodes);
        assert list.nodes[k] in old(lists[m].nodes);
      }
      assert list.Linked();
      NodesOfModel(list);
      assert forall k :: 0 <= k < |list.Items()| ==> list.Items()[k] in list.Model().items;
    }

    /** So does the place of an item. */
    twostate lemma PlaceStands(l: ListId, new i: Item, new j: Item)
      requires old(Valid()) && Labelled() && unchanged(this) && l in lists && i in nodes && j in nodes
      requires forall m :: m in lists && m != l ==> unchanged(lists[m])
      requires j != i ==> nodes[j].container == old(nodes[j].container)
      requires nodes[j].owner == old(nodes[j].owner)
      requires forall n :: n != nodes[i] ==> (n in lists[l].nodes <==> n in old(lists[l].nodes))
      requires nodes[i].container == null || (nodes[i].container == lists[l] && nodes[i] in lists[l].nodes)
      ensures Placed(j)
    {
      assert old(Placed(j));
    }

    twostate lemma OthersStand(l: ListId)
      requires old(Valid()) && Labelled() && unchanged(this) && l in lists
      requires forall m :: m in lists && m != l ==> unchanged(lists[m])
      requires forall m, n :: m in lists && m != l && n in old(lists[m].nodes) ==> unchanged(n)
      ensures forall m :: m in lists && m != l ==> WellMade(m) && Listed(m) == old(Listed(m))
    {
      forall m | m in lists && m != l ensures WellMade(m) && Listed(m) == old(Listed(m)) {
        ListStands(m);
      }
    }

    /** When only list `l`, the links of its nodes, and the place of item `i` have changed, all
        is still in order. */
    twostate lemma RearrangedIsValid(l: ListId, new i: Item)
      requires old(Valid()) && Labelled() && unchanged(this) && l in lists && i in nodes
      requires forall m :: m in lists && m != l ==> unchanged(lists[m])
      requires forall m, n :: m in lists && m != l && n in old(lists[m].nodes) ==> unchanged(n)
      requires forall j :: j in nodes && j != i ==> nodes[j].container == old(nodes[j].container)
      requires forall j :: j in nodes ==> nodes[j].owner == old(nodes[j].owner)
      requires lists[l].Valid()
      requires forall n :: n != nodes[i] ==> (n in lists[l].nodes <==> n in old(lists[l].nodes))
      requires nodes[i].container == null || (nodes[i].container == lists[l] && nodes[i] in lists[l].nodes)
      ensures Valid()
    {
      hide List.Valid;
      assert old(WellMade(l));
      OthersStand(l);
      forall j | j in nodes ensures Placed(j) {
        PlaceStands(l, i, j);
      }
    }

    twostate lemma RearrangedLists(l: ListId)
      requires old(Valid()) && Valid() && unchanged(this) && l in lists
      requires forall m :: m in lists && m != l ==> Listed(m) == old(Listed(m))
      ensures ListsView() == old(ListsView())[l := Listed(l)]
    {
      hide WellMade, Placed, Listed;
    }

    twostate lemma RearrangedContainers(l: ListId, new i: Item)
      requires old(Valid()) && Valid() && unchanged(this) && l in lists && i in nodes
      requires forall j :: j in nodes && j != i ==> nodes[j].container == old(nodes[j].container)
      requires nodes[i].container == null || nodes[i].container == lists[l]
      ensures ContainerView() ==
        if nodes[i].container == null then old(ContainerView()) - {i} else old(ContainerView())[i := l]
    {
      hide WellMade, Placed;
      assert nodes[i].container != null ==> IdOf(nodes[i].container) == l;
    }

    /** And the view differs in that list and that container. */
    twostate lemma RearrangedView(l: ListId, new i: Item)
      requires old(Valid()) && Valid() && unchanged(this) && l in lists && i in nodes
      requires forall m :: m in lists && m != l ==> Listed(m) == old(Listed(m))
      requires forall j :: j in nodes && j != i ==> nodes[j].container == old(nodes[j].container)
      requires forall j :: j in nodes ==> nodes[j].value == old(nodes[j].value)
      requires nodes[i].container == null || nodes[i].container == lists[l]
      ensures View().lists == old(View()).lists[l := Listed(l)]
      ensures View().container ==
        if nodes[i].container == null then old(View()).container - {i} else old(View()).container[i := l]
      ensures View().value == old(View()).value
    {
      hide WellMade, Placed, Listed, ListsView, ContainerView, Labelled;
      RearrangedLists(l);
      RearrangedContainers(l, i);
    }

    // ----- The operations -----------------------------------------------------------

    lemma ViewAt(l: ListId)
      requires Valid() && l in lists
      ensures l in View().lists && View().At(l) == Named(names, lists[l].Model()) && Labelled()
    {
      assert WellMade(l);
    }

    lemma ItemName(i: Item)
      requires Valid() && i in nodes
      ensures NameOf(names, nodes[i]) == i
    {}

    /** What writing to list `l` and to item `i`, which is in it or nowhere, leaves alone. */
    ghost predicate Beside(l: ListId, i: Item)
      requires l in lists && i in nodes
      reads this, Repr()
    {
      && (forall m :: m in lists && m != l ==> lists[m] != lists[l])
      && (forall m, n :: m in lists && m != l && n in lists[m].nodes ==> n !in lists[l].nodes && n != nodes[i])
    }

    lemma BesideFacts(l: ListId, i: Item)
      requires Valid() && l in lists && i in nodes
      requires nodes[i].container == null || nodes[i].container == lists[l]
      ensures lists[l].Valid() && (nodes[i] in lists[l].nodes <==> nodes[i].container == lists[l])
      ensures Beside(l, i)
    {
      assert WellMade(l);
      ItemIsWhereItsContainerIs(i, l);
      forall m | m in lists && m != l
        ensures lists[m] != lists[l] && nodes[i] !in lists[m].nodes
        ensures forall n :: n in lists[m].nodes ==> n !in lists[l].nodes
      {
        ListsAreApart(m, l);
        ItemIsWhereItsContainerIs(i, m);
      }
    }

    /** All that the pointer writes of one operation on list `l` and item `i` amount to. */
    twostate lemma Rearranged(l: ListId, new i: Item)
      requires old(Valid()) && Labelled() && unchanged(this) && l in lists && i in nodes
      requires forall m :: m in lists && m != l ==> unchanged(lists[m])
      requires forall m, n :: m in lists && m != l && n in old(lists[m].nodes) ==> unchanged(n)
      requires forall j :: j in nodes && j != i ==> nodes[j].container == old(nodes[j].container)
      requires forall j :: j in nodes ==> nodes[j].value == old(nodes[j].value) && nodes[j].owner == old(nodes[j].owner)
      requires lists[l].Valid()
      requires forall n :: n != nodes[i] ==> (n in lists[l].nodes <==> n in old(lists[l].nodes))
      requires nodes[i].container == null || (nodes[i].container == lists[l] && nodes[i] in lists[l].nodes)
      ensures Valid()
      ensures View() == Heap(old(View()).lists[l := Named(names, lists[l].Model())],
        if nodes[i].container == null then old(View()).container - {i} else old(View()).container[i := l],
        old(View()).value)
    {
      hide Valid, View, List.Valid, List.Model, Named, Labelled;
      RearrangedIsValid(l, i);
      OthersStand(l);
      RearrangedView(l, i);
      ViewAt(l);
      ListedIsNamed(l);
    }

    lemma ListedIsNamed(l: ListId)
      requires Valid() && l in lists
      ensures Labelled() && WellMade(l) && Listed(l) == Named(names, lists[l].Model())
    {}

    /** vListInsertEnd. */
    method LinkEnd(l: ListId, i: Item)
      requires Valid() && l in lists && i in nodes && nodes[i].container == null
      modifies lists[l], nodes[i], lists[l].nodes
      ensures Valid() && View() == old(View()).LinkEnd(l, i)
    {
      hide Valid, View, List.Valid, List.Model, Named, KList.InsertEnd;
      var list, item := lists[l], nodes[i];
      BesideFacts(l, i);
      ViewAt(l);
      ItemName(i);
      list.InsertEnd(item);
      NamedInsertEnd(names, old(list.Model()), item);
      assert Labelled();
      forall m, n | m in lists && m != l && n in old(lists[m].nodes) ensures unchanged(n) {
        assert old(Beside(l, i));
        assert n !in old(list.nodes) && n != item;
      }
      Rearranged(l, i);
    }

    lemma ValuesAgree(l: ListId)
      requires Valid() && l in lists
      ensures 0 < |lists[l].nodes| && View().Values(l) == lists[l].Values()
      ensures |lists[l].Values()| == |lists[l].Model().items|
    {
      assert WellMade(l);
      var list := lists[l];
      NodesOfModel(list);
      ViewAt(l);
      forall k | 0 <= k < |list.Items()| ensures View().Val(NameOf(names, list.Items()[k])) == list.Items()[k].value {
        assert list.Items()[k] in list.Model().items;
        assert list.Items()[k] in names.Keys;
      }
    }

    /** vListInsert. */
    method LinkSorted(l: ListId, i: Item)
      requires Valid() && l in lists && i in nodes && nodes[i].container == null
      modifies lists[l], nodes[i], lists[l].nodes
      ensures Valid() && View() == old(View()).LinkSorted(l, i)
    {
      hide Valid, View, List.Valid, List.Model, List.Values, Named, KList.InsertSorted, Heap.Values;
      var list, item := lists[l], nodes[i];
      BesideFacts(l, i);
      ViewAt(l);
      ItemName(i);
      ValuesAgree(l);
      ViewValue(i);
      list.Insert(item);
      NamedInsertSorted(names, old(list.Model()), item, old(list.Values()), item.value);
      assert Labelled();
      forall m, n | m in lists && m != l && n in old(lists[m].nodes) ensures unchanged(n) {
        assert old(Beside(l, i));
        assert n !in old(list.nodes) && n != item;
      }
      Rearranged(l, i);
    }

    lemma ViewValue(i: Item)
      requires Valid() && i in nodes
      ensures View().Val(i) == nodes[i].value
    {}

    /** uxListRemove. */
    method Unlink(i: Item)
      requires Valid() && i in nodes && nodes[i].container != null
      modifies nodes[i].container, nodes[i], nodes[i].container.nodes
      ensures Valid() && View() == old(View()).Unlink(i) && nodes[i].container == null
    {
      ViewContainer(i);
      UnlinkFrom(ids[nodes[i].container], i);
    }

    method UnlinkFrom(ghost l: ListId, i: Item)
      requires Valid() && l in lists && i in nodes && nodes[i].container == lists[l]
      requires i in View().container && View().container[i] == l
      modifies lists[l], nodes[i], lists[l].nodes
      ensures Valid() && View() == old(View()).Unlink(i) && nodes[i].container == null
    {
      hide Valid, View, List.Valid, List.Model, Named, KList.Remove;
      var item := nodes[i];
      ghost var list := lists[l];
      BesideFacts(l, i);
      ViewAt(l);
      ItemName(i);
      DifferentNames(l);
      InItems(l, i);
      var _ := List.Remove(item);
      NamedRemove(names, old(list.Model()), item);
      assert Labelled();
      forall m, n | m in lists && m != l && n in old(lists[m].nodes) ensures unchanged(n) {
        assert old(Beside(l, i));
        assert n !in old(list.nodes) && n != item;
      }
      Rearranged(l, i);
    }

    lemma InItems(l: ListId, i: Item)
      requires Valid() && l in lists && i in nodes && nodes[i].container == lists[l]
      ensures 0 < |lists[l].nodes| && nodes[i] in lists[l].Items() && nodes[i] in lists[l].Model().items
    {
      assert WellMade(l);
      ItemIsWhereItsContainerIs(i, l);
    }

    lemma ViewContainer(i: Item)
      requires Valid() && i in nodes && nodes[i].container != null
      ensures ids[nodes[i].container] in lists && lists[ids[nodes[i].container]] == nodes[i].container
      ensures i in View().container && View().container[i] == ids[nodes[i].container]
    {
      assert Placed(i);
    }

    lemma DifferentNames(l: ListId)
      requires Valid() && l in lists
      ensures 0 < |lists[l].nodes| && NoDup(lists[l].Model().items) && Distinguishes(names, lists[l].Model().items)
    {
      assert WellMade(l);
      NodesOfModel(lists[l]);
      forall n | n in lists[l].Model().items ensures n in names && names[n] in nodes && nodes[names[n]] == n {
        assert n in names.Keys;
      }
    }

    /** listGET_OWNER_OF_NEXT_ENTRY. */
    method Step(l: ListId) returns (owner: nat)
      requires Valid() && l in lists && View().Items(l) != []
      modifies lists[l]
      ensures Valid() && View() == old(View()).Step(l)
      ensures 0 < View().At(l).index <= |View().Items(l)| && owner == View().At(l).Selected().task
    {
      ghost var i := FirstItem(l);
      hide Valid, View, List.Valid, List.Model;
      ViewContainer(i);
      owner := StepPast(l, i);
      OwnerIsTask(l);
    }

    method StepPast(l: ListId, ghost i: Item) returns (owner: nat)
      requires Valid() && l in lists && 0 < |lists[l].nodes| && lists[l].Items() != []
      requires i in nodes && nodes[i].container == lists[l] && View().In(i, l)
      modifies lists[l]
      ensures Valid() && View() == old(View()).Step(l)
      ensures 0 < |lists[l].nodes| && 0 < lists[l].Model().index <= |lists[l].Model().items|
      ensures owner == lists[l].Model().Selected().owner
    {
      hide Valid, View, List.Valid, List.Model, Named, KList.Next;
      var list := lists[l];
      BesideFacts(l, i);
      ViewAt(l);
      NodesOfModel(list);
      NextSelects(list.Model());
      owner := list.OwnerOfNextEntry();
      NamedNext(names, old(list.Model()));
      assert Labelled();
      assert forall m, n :: m in lists && m != l && n in old(lists[m].nodes) ==> unchanged(n);
      Rearranged(l, i);
    }

    lemma FirstItem(l: ListId) returns (i: Item)
      requires Valid() && l in lists && View().Items(l) != []
      ensures i in nodes && nodes[i].container == lists[l] && 0 < |lists[l].nodes| && lists[l].Items() != []
    {
      assert WellMade(l);
      NodesOfModel(lists[l]);
      var n := lists[l].Model().items[0];
      NodeIsMarkerOrItem(l, n);
      assert n in names.Keys;
      i := names[n];
    }

    lemma OwnerIsTask(l: ListId)
      requires Valid() && l in lists
      ensures 0 < |lists[l].nodes| && |View().Items(l)| == |lists[l].Model().items|
      ensures View().At(l).index == lists[l].Model().index
      ensures forall k :: 0 <= k < |View().Items(l)| ==> View().Items(l)[k].task == lists[l].Model().items[k].owner
    {
      assert WellMade(l);
      ViewAt(l);
      NodesOfModel(lists[l]);
      forall k | 0 <= k < |View().Items(l)| ensures View().Items(l)[k].task == lists[l].Model().items[k].owner {
        var n := lists[l].Model().items[k];
        assert n in names.Keys && Placed(names[n]);
      }
    }

    twostate lemma SameLists()
      requires old(Valid()) && Valid() && lists == old(lists)
      requires forall l :: l in lists ==> Listed(l) == old(Listed(l))
      ensures ListsView() == old(ListsView())
    {
      hide WellMade, Placed, Listed;
    }

    twostate lemma SameContainers()
      requires old(Valid()) && Valid() && nodes.Keys >= old(nodes).Keys
      requires forall i :: i in old(nodes) ==> nodes[i] == old(nodes)[i]
      requires forall i :: i in old(nodes) ==> nodes[i].container == old(nodes[i].container)
      requires forall i :: i in nodes && i !in old(nodes) ==> nodes[i].container == null
      requires forall c :: c in old(ids) ==> c in ids && ids[c] == old(ids)[c]
      ensures ContainerView() == old(ContainerView())
    {
      hide WellMade;
      assert forall i :: i in old(nodes) ==> old(Placed(i));
    }

    /** listSET_LIST_ITEM_VALUE. */
    method SetValue(i: Item, v: Tick)
      requires Valid() && i in nodes
      modifies nodes[i]
      ensures Valid() && View() == old(View()).SetValue(i, v) && nodes[i].container == old(nodes[i].container)
    {
      hide List.Valid, ListsView, ContainerView;
      NoMarkerIsItem(i);
      nodes[i].value := v;
      assert Labelled();
      forall l | l in lists ensures WellMade(l) && Listed(l) == old(Listed(l)) {
        StandsWithoutValues(l);
      }
      forall j | j in nodes ensures Placed(j) {
        assert old(Placed(j));
      }
      hide WellMade, Placed, Listed, Labelled;
      SameLists();
      SameContainers();
    }

    lemma NoMarkerIsItem(i: Item)
      requires Valid() && i in nodes
      ensures forall l :: l in lists ==> lists[l].end != nodes[i]
    {}

    /** A list does not depend on the values of its items. */
    twostate lemma StandsWithoutValues(l: ListId)
      requires old(Valid()) && Labelled() && unchanged(this) && l in lists && unchanged(lists[l])
      requires forall n :: n in old(lists[l].nodes) ==> n.next == old(n.next) && n.previous == old(n.previous)
      requires forall n :: n in old(lists[l].nodes) ==> n.container == old(n.container)
      requires lists[l].end.value == old(lists[l].end.value)
      ensures WellMade(l) && Listed(l) == old(Listed(l))
    {
      var list := lists[l];
      assert old(WellMade(l)) && old(list.Valid());
      assert list == old(lists[l]) && list.nodes == old(list.nodes);
      forall k | 0 <= k < |list.nodes| ensures list.nodes[k].next == old(list.nodes[k].next)
        && list.nodes[k].previous == old(list.nodes[k].previous)
        && list.nodes[k].container == old(list.nodes[k].container)
      {
        assert list.nodes[k] in old(lists[l].nodes);
      }
    }

    constructor ()
      ensures Valid() && View() == Heap(map[], map[], map[])
    {
      lists, nodes, ids, names := map[], map[], map[], map[];
    }

    twostate lemma PlaceStillStands(i: Item)
      requires old(Valid()) && Labelled() && Grown() && i in old(nodes)
      requires nodes[i].container == old(nodes[i].container) && nodes[i].owner == old(nodes[i].owner)
      requires forall m :: m in old(lists) ==> lists[m].nodes == old(lists[m].nodes)
      ensures Placed(i)
    {
      assert old(Placed(i));
    }

    /** When a list or an item has come and nothing has been written, all is in order. */
    twostate lemma GrownIsValid()
      requires old(Valid()) && Labelled() && Grown()
      requires forall m :: m in old(lists) ==> unchanged(old(lists)[m])
      requires forall m, n :: m in old(lists) && n in old(lists[m].nodes) ==> unchanged(n)
      requires forall i :: i in old(nodes) ==> unchanged(old(nodes)[i])
      requires forall l :: l in lists && l !in old(lists) ==> WellMade(l)
      requires forall i :: i in nodes && i !in old(nodes) ==> Placed(i)
      ensures Valid() && forall m :: m in old(lists) ==> Listed(m) == old(Listed(m))
    {
      hide Labelled, List.Valid;
      forall m | m in old(lists) ensures WellMade(m) && Listed(m) == old(Listed(m)) {
        ListStands(m);
      }
      forall i | i in old(nodes) ensures Placed(i) {
        PlaceStillStands(i);
      }
    }

    /** vListInitialise for a list that is not there yet. */
    method AddList(l: ListId)
      requires Valid() && l !in lists
      modifies this`lists, this`ids
      ensures Valid() && View() == old(View()).(lists := old(View()).lists[l := KList([], 0)])
      ensures nodes == old(nodes)
    {
      var list := new List();
      lists := lists[l := list];
      ids := ids[list := l];
      hide Valid, View, List.Valid;
      ListAdded(l, list);
    }

    twostate lemma ListAdded(l: ListId, new list: List)
      requires old(Valid()) && l !in old(lists) && nodes == old(nodes) && names == old(names)
      requires lists == old(lists)[l := list] && ids == old(ids)[list := l] && list !in old(ids)
      requires list.end !in names && forall m :: m in old(lists) ==> old(lists)[m].end != list.end
      requires list.Valid() && list.Model() == KList([], 0)
      requires forall m :: m in old(lists) ==> unchanged(old(lists)[m])
      requires forall m, n :: m in old(lists) && n in old(lists[m].nodes) ==> unchanged(n)
      requires forall i :: i in old(nodes) ==> unchanged(old(nodes)[i])
      ensures Valid() && View() == old(View()).(lists := old(View()).lists[l := KList([], 0)])
    {
      hide Labelled, WellMade, Placed, List.Valid, ListsView, ContainerView;
      ListIsLabelled(l, list);
      NewListIsSound(l);
      GrownIsValid();
      SameContainers();
      OneMoreList(l);
    }

    lemma NewListIsSound(l: ListId)
      requires l in lists && Labelled() && lists[l].Valid() && lists[l].Model() == KList([], 0)
      ensures WellMade(l) && Listed(l) == KList([], 0)
    {
      NodesOfModel(lists[l]);
    }

    twostate lemma ListIsLabelled(l: ListId, new list: List)
      requires old(Valid()) && l !in old(lists) && nodes == old(nodes) && names == old(names)
      requires lists == old(lists)[l := list] && ids == old(ids)[list := l] && list !in old(ids)
      requires list.end !in names && forall m :: m in old(lists) ==> old(lists)[m].end != list.end
      ensures Labelled() && Grown()
    {}

    twostate lemma OneMoreList(l: ListId)
      requires old(Valid()) && Valid() && Grown() && l in lists && lists.Keys == old(lists).Keys + {l}
      requires forall m :: m in lists && m != l ==> m in old(lists) && Listed(m) == old(Listed(m))
      ensures ListsView() == old(ListsView())[l := Listed(l)]
    {
      hide WellMade, Placed, Listed;
    }

    /** vListInitialiseItem for an item that is not there yet. */
    method AddItem(i: Item, value: Tick)
      requires Valid() && i !in nodes
      modifies this`nodes, this`names
      ensures Valid() && View() == old(View()).SetValue(i, value)
      ensures i in nodes && nodes[i].container == null && lists == old(lists)
    {
      var item := new ListItem(value, i.task);
      nodes := nodes[i := item];
      names := names[item := i];
      hide Valid, View, List.Valid;
      ItemAdded(i, item);
    }

    twostate lemma ItemAdded(i: Item, new item: ListItem)
      requires old(Valid()) && i !in old(nodes) && lists == old(lists) && ids == old(ids)
      requires nodes == old(nodes)[i := item] && names == old(names)[item := i] && item !in old(names)
      requires item.container == null && item.owner == i.task && forall m :: m in lists ==> lists[m].end != item
      requires forall m :: m in old(lists) ==> unchanged(old(lists)[m])
      requires forall m, n :: m in old(lists) && n in old(lists[m].nodes) ==> unchanged(n)
      requires forall j :: j in old(nodes) ==> unchanged(old(nodes)[j])
      ensures Valid() && View() == old(View()).SetValue(i, item.value)
    {
      hide Labelled, WellMade, Placed, Listed, List.Valid, ListsView, ContainerView;
      ItemIsLabelled(i, item);
      NewItemIsPlaced(i);
      GrownIsValid();
      SameLists();
      SameContainers();
    }

    lemma NewItemIsPlaced(i: Item)
      requires Labelled() && i in nodes && nodes[i].container == null && nodes[i].owner == i.task
      ensures Placed(i)
    {}

    twostate lemma ItemIsLabelled(i: Item, new item: ListItem)
      requires old(Valid()) && i !in old(nodes) && lists == old(lists) && ids == old(ids)
      requires nodes == old(nodes)[i := item] && names == old(names)[item := i] && item !in old(names)
      requires forall m :: m in lists ==> lists[m].end != item
      ensures Labelled() && Grown()
    {
      forall n ensures n in names.Keys <==> n in nodes.Values {
        assert n in nodes.Values <==> n == item || n in old(nodes).Values by { OneMoreValue(old(nodes), i, item, n); }
      }
    }

    // ----- Several at once ----------------------------------------------------------

    lemma InRepr(l: ListId, i: Item)
      requires Valid() && l in lists && i in nodes
      ensures lists[l] in Repr() && nodes[i] in Repr() && forall n :: n in lists[l].nodes ==> n in Repr()
      ensures nodes[i].container != null ==> nodes[i].container in lists.Values
      ensures nodes[i].container != null ==> forall n :: n in nodes[i].container.nodes ==> n in Repr()
    {
      assert WellMade(l) && Placed(i);
      if nodes[i].container != null { assert WellMade(ids[nodes[i].container]); }
    }

    /** An item leaves one list and goes to the end of another: a task becomes ready, or is
        suspended, or ends. All other lists are as they were. */
    method MoveState(t: Task, l: ListId)
      requires Valid() && l in lists && StateItem(t) in nodes && nodes[StateItem(t)].container != null
      modifies Repr()
      ensures Valid() && View() == Scheduler.MoveState(old(View()), t, l)
    {
      hide Valid, View, Heap.LinkEnd, Heap.Unlink;
      InRepr(l, StateItem(t));
      Unlink(StateItem(t));
      InRepr(l, StateItem(t));
      LinkEnd(l, StateItem(t));
    }

    /** An item leaves one list and goes into another in order of a new value: a task blocks. */
    method MoveTimed(t: Task, wake: Tick, l: ListId)
      requires Valid() && l in lists && StateItem(t) in nodes && nodes[StateItem(t)].container != null
      modifies Repr()
      ensures Valid() && View() == Scheduler.MoveTimed(old(View()), t, wake, l)
    {
      hide Valid, View, Heap.LinkSorted, Heap.Unlink, Heap.SetValue;
      InRepr(l, StateItem(t));
      Unlink(StateItem(t));
      InRepr(l, StateItem(t));
      SetValue(StateItem(t), wake);
      InRepr(l, StateItem(t));
      LinkSorted(l, StateItem(t));
    }

    lemma ViewIn(l: ListId, i: Item)
      requires Valid()
      ensures i in View().Items(l) <==> View().In(i, l)
    {
      if l in lists {
        ViewAt(l);
        var items := lists[l].Model().items;
        DifferentNames(l);
        if i in nodes {
          ItemIsWhereItsContainerIs(i, l);
          if nodes[i].container != null { ViewContainer(i); }
          if nodes[i] in items {
            assert Names(names, items)[Position(items, nodes[i])] == i;
          }
        }
        if i in View().Items(l) {
          var n := items[Position(View().Items(l), i)];
          assert n in items && NameOf(names, n) == i;
          ItemOfList(l, n);
        }
      } else if i in nodes && nodes[i].container != null {
        ViewContainer(i);
      }
    }

    lemma ItemOfList(l: ListId, n: ListItem)
      requires Valid() && l in lists && 0 < |lists[l].nodes| && n in lists[l].Model().items
      ensures n in names && names[n] in nodes && nodes[names[n]] == n
    {
      assert WellMade(l);
      NodesOfModel(lists[l]);
      NodeIsMarkerOrItem(l, n);
      assert n in names.Keys;
    }

    /** The lists on the heap are always a sound ListHeap: containers and lists agree, and no
        list holds an item twice. */
    lemma ViewIsWf()
      requires Valid()
      ensures View().Wf()
    {
      hide Valid, View, Names;
      forall l, i ensures i in View().Items(l) <==> View().In(i, l) { ViewIn(l, i); }
      forall l ensures View().At(l).Valid() { ListIsValid(l); }
    }

    lemma ListIsValid(l: ListId)
      requires Valid()
      ensures View().At(l).Valid()
    {
      if l in lists {
        assert WellMade(l);
        ViewAt(l);
        DifferentNames(l);
        NodesOfModel(lists[l]);
        NamesAreDistinct(names, lists[l].Model().items);
      }
    }
  }
}
