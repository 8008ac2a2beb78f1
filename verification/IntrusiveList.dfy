/** The circular doubly linked list with an end marker, on the heap. Every operation is
    proved to act on the list's value exactly as the corresponding KernelLists function. */
module IntrusiveList {
  import opened KernelConfig
  import opened KernelLists

  class ListItem {
    var value: Tick
    var next: ListItem?
    var previous: ListItem?
    var container: List?
    var owner: nat

    /** vListInitialiseItem, with the owner and value set by the accessor macros. */
    constructor (value: Tick, owner: nat)
      ensures this.value == value && this.owner == owner && container == null
    {
      this.value, this.owner := value, owner;
      container, next, previous := null, null, null;
    }
  }

  lemma TailOfInsert<T>(s: seq<T>, k: nat, x: T)
    requires k < |s|
    ensures (s[..k + 1] + [x] + s[k + 1..])[1..] == s[1..][..k] + [x] + s[1..][k..]
  {}

  lemma TailOfRemove<T>(s: seq<T>, k: nat)
    requires 0 < k < |s|
    ensures (s[..k] + s[k + 1..])[1..] == s[1..][..k - 1] + s[1..][k..]
  {}

  lemma NodesWithout<T>(s: seq<T>, k: nat)
    requires NoDup(s) && k < |s|
    ensures forall n :: n in s[..k] + s[k + 1..] <==> n != s[k] && n in s
  {}

  lemma NodesWith<T>(s: seq<T>, k: nat, x: T)
    requires k < |s|
    ensures forall n :: n in s[..k + 1] + [x] + s[k + 1..] <==> n == x || n in s
  {}

  class List {
    var count: nat
    var index: ListItem
    const end: ListItem
    /** The marker, then the items in physical order. */
    ghost var nodes: seq<ListItem>
    /** Where in `nodes` the walk index is. */
    ghost var position: nat

    /** The node that follows node `i` around the circle. */
    ghost function Successor(i: nat): ListItem
      requires i < |nodes|
      reads `nodes
    {
      if i + 1 < |nodes| then nodes[i + 1] else nodes[0]
    }

    ghost predicate Linked()
      reads `nodes, nodes
    {
      && NoDup(nodes)
      && forall i {:trigger Successor(i)} :: 0 <= i < |nodes| ==>
          (nodes[i].next == Successor(i) && Successor(i).previous == nodes[i])
    }

    ghost predicate Valid()
      reads this, end, nodes
    {
      && |nodes| == count + 1 && nodes[0] == end
      && position < |nodes| && nodes[position] == index
      && end.value == MAX_DELAY
      && (forall i :: 1 <= i < |nodes| ==> nodes[i].container == this)
      && Linked()
    }

    ghost function Items(): seq<ListItem>
      requires 0 < |nodes|
      reads this
    {
      nodes[1..]
    }

    ghost function Model(): KList<ListItem>
      requires 0 < |nodes|
      reads this
    {
      KList(Items(), position)
    }

    ghost function Values(): (vs: seq<nat>)
      requires 0 < |nodes|
      reads this, nodes
      ensures |vs| == |Items()|
      ensures forall i :: 0 <= i < |vs| ==> vs[i] == Items()[i].value
    {
      seq(|nodes| - 1, i requires 0 <= i < |nodes| - 1 reads this, nodes => nodes[i + 1].value)
    }

    /** vListInitialise. */
    constructor ()
      ensures Valid() && Model() == KList([], 0) && fresh(end)
    {
      var marker := new ListItem(MAX_DELAY, 0);
      marker.next := marker;
      marker.previous := marker;
      end, index, count := marker, marker, 0;
      nodes, position := [marker], 0;
    }

    /** What the links look like once `item` has been spliced in after node `k`. */
    twostate lemma SplicedIn(k: nat, new item: ListItem)
      requires old(Linked()) && k < |old(nodes)| && item !in old(nodes)
      requires nodes == old(nodes)[..k + 1] + [item] + old(nodes)[k + 1..]
      requires var before, after := old(nodes)[k], old(Successor(k));
               && item.next == after && item.previous == before
               && before.next == item && after.previous == item
               && (forall node :: node in old(nodes) && node != before ==> node.next == old(node.next))
               && (forall node :: node in old(nodes) && node != after ==> node.previous == old(node.previous))
      ensures Linked()
    {
      var was := old(nodes);
      forall i, j | 0 <= i < j < |nodes| ensures nodes[i] != nodes[j] {}
      forall i | 0 <= i < |nodes| ensures nodes[i].next == Successor(i) && Successor(i).previous == nodes[i] {
        if i < k {
          assert nodes[i] == was[i] && was[i] != was[k] && old(Successor(i)) == Successor(i);
          assert Successor(i) != old(Successor(k));
        } else if k + 1 < i {
          assert nodes[i] == was[i - 1] && was[i - 1] != was[k] && old(Successor(i - 1)) == Successor(i);
          assert Successor(i) != old(Successor(k));
        }
      }
    }

    /** The pointer writes of an insertion, whatever their order, amount to InsertAt. */
    twostate lemma Inserted(k: nat, new item: ListItem)
      requires old(Valid()) && k < |old(nodes)| && item !in old(nodes)
      requires nodes == old(nodes)[..k + 1] + [item] + old(nodes)[k + 1..]
      requires var before, after := old(nodes)[k], old(Successor(k));
               && item.next == after && item.previous == before
               && before.next == item && after.previous == item
               && (forall node :: node in old(nodes) && node != before ==> node.next == old(node.next))
               && (forall node :: node in old(nodes) && node != after ==> node.previous == old(node.previous))
      requires item.container == this && forall node :: node in old(nodes) ==> node.container == old(node.container)
      requires count == old(count) + 1 && index == old(index) && unchanged(end`value)
      requires position == if k < old(position) then old(position) + 1 else old(position)
      ensures Valid() && Model() == old(Model()).InsertAt(k, item)
    {
      SplicedIn(k, item);
      TailOfInsert(old(nodes), k, item);
      forall i | 1 <= i < |nodes| ensures nodes[i].container == this {
        if i != k + 1 { assert nodes[i] == old(nodes)[if i <= k then i else i - 1]; }
      }
    }

    /** The pointer writes of vListInsertEnd. */
    method LinkBefore(following: ListItem, item: ListItem, ghost k: nat)
      requires Valid() && item !in nodes && item.container == null
      requires k < |nodes| && following == Successor(k)
      modifies this`count, this`nodes, this`position, item`next, item`previous, item`container
      modifies nodes`next
      modifies nodes`previous
      ensures Valid() && Model() == old(Model()).InsertAt(k, item)
      ensures item.container == this && forall n :: n in nodes <==> n == item || n in old(nodes)
    {
      assert following.previous == nodes[k];
      hide List.Valid, List.Model;
      var before := following.previous;
      item.next := following;
      item.previous := before;
      before.next := item;
      following.previous := item;
      item.container := this;
      count := count + 1;
      nodes := nodes[..k + 1] + [item] + nodes[k + 1..];
      if k < position { position := position + 1; }
      Inserted(k, item);
      NodesWith(old(nodes), k, item);
    }

    /** vListInsertEnd. */
    method InsertEnd(item: ListItem)
      requires Valid() && item !in nodes && item.container == null
      modifies this`count, this`nodes, this`position, item`next, item`previous, item`container
      modifies nodes`next
      modifies nodes`previous
      ensures Valid() && Model() == old(Model()).InsertEnd(item)
      ensures item.container == this && forall n :: n in nodes <==> n == item || n in old(nodes)
    {
      ghost var k := if position == 0 then |nodes| - 1 else position - 1;
      LinkBefore(index, item, k);
    }

    /** The search of vListInsert: the marker's value stops it, and a new item that carries
        that very value takes the other branch. */
    method InsertionPoint(valueOfInsertion: Tick) returns (cursor: ListItem)
      requires Valid()
      ensures cursor == nodes[FirstGreater(Values(), valueOfInsertion)]
    {
      ghost var k: nat;
      if valueOfInsertion == MAX_DELAY {
        k := |nodes| - 1;
        assert Successor(k).previous == nodes[k];
        cursor := end.previous;
      } else {
        cursor, k := end, 0;
        while cursor.next.value <= valueOfInsertion
          invariant k < |nodes| && cursor == nodes[k] && cursor.next == Successor(k)
          invariant forall i :: 0 <= i < k ==> Values()[i] <= valueOfInsertion
          decreases |nodes| - k
        {
          cursor, k := cursor.next, k + 1;
        }
      }
      FirstGreaterUnique(Values(), valueOfInsertion, k);
    }

    /** The pointer writes of vListInsert. */
    method LinkAfter(cursor: ListItem, item: ListItem, ghost k: nat)
      requires Valid() && item !in nodes && item.container == null
      requires k < |nodes| && cursor == nodes[k]
      modifies this`count, this`nodes, this`position, item`next, item`previous, item`container
      modifies nodes`next
      modifies nodes`previous
      ensures Valid() && Model() == old(Model()).InsertAt(k, item)
      ensures item.container == this && forall n :: n in nodes <==> n == item || n in old(nodes)
    {
      assert cursor.next == Successor(k);
      hide List.Valid, List.Model;
      var following := cursor.next;
      item.next := following;
      following.previous := item;
      item.previous := cursor;
      cursor.next := item;
      item.container := this;
      count := count + 1;
      nodes := nodes[..k + 1] + [item] + nodes[k + 1..];
      if k < position { position := position + 1; }
      Inserted(k, item);
      NodesWith(old(nodes), k, item);
    }

    /** vListInsert. */
    method Insert(item: ListItem)
      requires Valid() && item !in nodes && item.container == null
      modifies this`count, this`nodes, this`position, item`next, item`previous, item`container
      modifies nodes`next
      modifies nodes`previous
      ensures Valid() && Model() == old(Model()).InsertSorted(item, old(Values()), item.value)
      ensures item.container == this && forall n :: n in nodes <==> n == item || n in old(nodes)
    {
      var cursor := InsertionPoint(item.value);
      ghost var k := FirstGreater(Values(), item.value);
      LinkAfter(cursor, item, k);
    }

    /** What the links look like once node `k` has been taken out. */
    twostate lemma SplicedOut(k: nat)
      requires old(Linked()) && 0 < k < |old(nodes)|
      requires nodes == old(nodes)[..k] + old(nodes)[k + 1..]
      requires var before, after := old(nodes)[k - 1], old(Successor(k));
               && before.next == after && after.previous == before
               && (forall node :: node in old(nodes) && node != before ==> node.next == old(node.next))
               && (forall node :: node in old(nodes) && node != after ==> node.previous == old(node.previous))
      ensures Linked()
    {
      var was := old(nodes);
      forall i, j | 0 <= i < j < |nodes| ensures nodes[i] != nodes[j] {}
      forall i | 0 <= i < |nodes| ensures nodes[i].next == Successor(i) && Successor(i).previous == nodes[i] {
        if i < k - 1 {
          assert nodes[i] == was[i] && was[i] != was[k - 1] && old(Successor(i)) == Successor(i);
          assert Successor(i) != old(Successor(k));
        } else if k <= i {
          assert nodes[i] == was[i + 1] && was[i + 1] != was[k - 1] && old(Successor(i + 1)) == Successor(i);
          assert Successor(i) != old(Successor(k));
        }
      }
    }

    /** The pointer writes of a removal amount to RemoveAt. */
    twostate lemma Removed(k: nat)
      requires old(Valid()) && 0 < k < |old(nodes)|
      requires nodes == old(nodes)[..k] + old(nodes)[k + 1..]
      requires var before, after := old(nodes)[k - 1], old(Successor(k));
               && before.next == after && after.previous == before
               && (forall node :: node in old(nodes) && node != before ==> node.next == old(node.next))
               && (forall node :: node in old(nodes) && node != after ==> node.previous == old(node.previous))
      requires forall node :: node in old(nodes) && node != old(nodes)[k] ==> node.container == old(node.container)
      requires count == old(count) - 1 && unchanged(end`value)
      requires index == if old(index) == old(nodes)[k] then old(nodes)[k - 1] else old(index)
      requires position == if k <= old(position) then old(position) - 1 else old(position)
      ensures Valid() && Model() == old(Model()).RemoveAt(k - 1)
    {
      SplicedOut(k);
      assert NoDup(old(nodes)) by { assert old(Linked()); }
      hide List.Linked;
      TailOfRemove(old(nodes), k);
      forall i | 1 <= i < |nodes| ensures nodes[i].container == this {
        assert nodes[i] == old(nodes)[if i < k then i else i + 1];
      }
    }

    /** The pointer writes of uxListRemove for the item at node `k`. */
    method Unlink(item: ListItem, ghost k: nat)
      requires Valid() && 0 < k < |nodes| && nodes[k] == item
      modifies this`count, this`index, this`nodes, this`position, item`container
      modifies nodes`next
      modifies nodes`previous
      ensures Valid() && Model() == old(Model()).RemoveAt(k - 1)
      ensures item.container == null && forall n :: n in nodes <==> n != item && n in old(nodes)
    {
      assert item.next == Successor(k) && Successor(k - 1) == item && item.previous == nodes[k - 1];
      assert 0 < count && NoDup(nodes);
      hide List.Valid, List.Model;
      var before, after := item.previous, item.next;
      after.previous := before;
      before.next := after;
      if index == item {
        index := before;
      }
      item.container := null;
      count := count - 1;
      nodes := nodes[..k] + nodes[k + 1..];
      position := if k <= position then position - 1 else position;
      Removed(k);
      NodesWithout(old(nodes), k);
    }

    /** uxListRemove: the item itself says which list it is in. */
    static method Remove(item: ListItem) returns (remaining: nat)
      requires item.container != null && item.container.Valid() && item in item.container.Items()
      modifies item.container`count, item.container`index, item.container`nodes, item.container`position
      modifies item`container
      modifies item.container.nodes`next
      modifies item.container.nodes`previous
      ensures var list := old(item.container);
              && list.Valid() && list.Model() == old(item.container.Model()).Remove(item)
              && remaining == |list.Items()|
              && (forall n :: n in list.nodes <==> n != item && n in old(item.container.nodes))
      ensures item.container == null
    {
      var list: List := item.container;
      list.Unlink(item, Position(list.Items(), item) + 1);
      remaining := list.count;
    }

    /** listGET_OWNER_OF_NEXT_ENTRY. */
    method OwnerOfNextEntry() returns (owner: nat)
      requires Valid() && Items() != []
      modifies this`index, this`position
      ensures Valid() && Model() == old(Model()).Next()
      ensures owner == Model().Selected().owner
    {
      assert index.next == Successor(position) && end.next == Successor(0);
      index := index.next;
      position := if position + 1 < |nodes| then position + 1 else 0;
      if index == end {
        index := index.next;
        position := 1;
      }
      owner := index.owner;
    }
  }
}
