/** EventGroup_t and its calls, step by step. The event item values belong to the tasks'
    control blocks; here they are a field beside the group's own two. */
module EventGroupObject {
  import opened KernelLists
  import opened EventBits
  import opened ListHeap
  import opened EventGroups

  class EventGroup {
    var eventBits: Bits                   // uxEventBits
    var tasksWaitingForBits: seq<Task>    // xTasksWaitingForBits
    var itemValue: map<Task, Bits>        // xEventListItem.xItemValue of each task

    constructor ()
      ensures View() == Group(NONE, [], map[]) && Inv(View())
    {
      eventBits, tasksWaitingForBits, itemValue := NONE, [], map[];
      new;
      NothingIsPlain();
    }

    function View(): Group
      reads this
    {
      Group(eventBits, tasksWaitingForBits, itemValue)
    }

    /** xTaskRemoveFromUnorderedEventList, for the waiter at position `at`. */
    method RemoveFromUnorderedEventList(at: nat, value: Bits)
      requires at < |tasksWaitingForBits|
      modifies this
      ensures eventBits == old(eventBits)
      ensures tasksWaitingForBits == old(tasksWaitingForBits[..at] + tasksWaitingForBits[at + 1..])
      ensures itemValue == old(itemValue[tasksWaitingForBits[at] := Marked(value)])
    {
      var task := tasksWaitingForBits[at];
      itemValue := itemValue[task := Marked(value)];
      tasksWaitingForBits := tasksWaitingForBits[..at] + tasksWaitingForBits[at + 1..];
    }

    /** One round of the traversal: the waiter at position `item` is released or passed. */
    method Visit(item: nat, bitsToClear: Bits) returns (next: nat, clear: Bits)
      requires item < |tasksWaitingForBits|
      modifies this
      ensures (View(), clear, next) == Visited(old(View()), old(eventBits), bitsToClear, item)
    {
      hide Meets, Unpack, With, Marked, Unblocking;
      var task := tasksWaitingForBits[item];
      var wish := Unpack(if task in itemValue then itemValue[task] else NONE);
      next, clear := item + 1, bitsToClear;
      if Meets(eventBits, wish) {
        if wish.clear {
          clear := With(bitsToClear, wish.mask);
        }
        RemoveFromUnorderedEventList(item, Unblocking(eventBits));
        next := item;
      }
    }

    /** xEventGroupSetBits: one pass over the waiting list, with the bits to clear collected
        on the way and cleared at the end. The bits returned are those left at the end,
        unless another task runs before they are read. */
    method SetBits(bitsToSet: Bits) returns (result: Bits)
      requires Inv(View()) && Plain(bitsToSet)
      modifies this
      ensures View() == EventGroups.SetBits(old(View()), bitsToSet) && result == eventBits
    {
      ghost var was, s, n: nat := View(), With(eventBits, bitsToSet), 0;
      assert NoDup(was.waiting);
      hide With, Without, Inv, Plain, Traversed, Visited, EventGroups.SetBits;
      var bitsToClear, item: nat := NONE, 0;
      eventBits := With(eventBits, bitsToSet);
      BeforeTraversal(was, s);
      while item < |tasksWaitingForBits|
        invariant n <= |was.waiting| && eventBits == s
        invariant Traversed(was, s, n, View(), bitsToClear, item)
        decreases |was.waiting| - n
      {
        TraversalStep(was, s, n, View(), bitsToClear, item);
        item, bitsToClear := Visit(item, bitsToClear);
        n := n + 1;
      }
      AfterTraversal(was, bitsToSet, n, View(), bitsToClear, item);
      eventBits := Without(eventBits, bitsToClear);
      result := eventBits;
    }

    /** xEventGroupWaitBits, up to the point where the task may block. */
    method WaitBits(task: Task, wish: Wish, ticksToWait: nat) returns (blocked: bool, result: Bits)
      requires Inv(View()) && task !in tasksWaitingForBits && wish.Valid()
      modifies this
      ensures Outcome(View(), blocked, result) == EventGroups.WaitBits(old(View()), task, wish, ticksToWait)
      ensures blocked <==> !Meets(old(eventBits), wish) && 0 < ticksToWait
      ensures !blocked ==> result == old(eventBits)
    {
      hide Meets, Without, Pack, Inv;
      blocked, result := false, eventBits;
      if Meets(eventBits, wish) {
        if wish.clear {
          eventBits := Without(eventBits, wish.mask);
        }
      } else if ticksToWait != 0 {
        PlaceOnUnorderedEventList(task, wish);
        blocked, result := true, NONE;
      }
    }

    /** vTaskPlaceOnUnorderedEventList as the event groups use it. */
    method PlaceOnUnorderedEventList(task: Task, wish: Wish)
      modifies this
      ensures View() == Enqueue(old(View()), task, wish)
    {
      itemValue := itemValue[task := Pack(wish)];
      tasksWaitingForBits := tasksWaitingForBits + [task];
    }

    /** xEventGroupSync, up to the point where the task may block. */
    method Sync(task: Task, bitsToSet: Bits, bitsToWaitFor: Bits, ticksToWait: nat)
        returns (blocked: bool, result: Bits)
      requires Inv(View()) && task !in tasksWaitingForBits && Plain(bitsToSet) && SyncWish(bitsToWaitFor).Valid()
      modifies this
      ensures Outcome(View(), blocked, result) ==
        EventGroups.Sync(old(View()), task, bitsToSet, bitsToWaitFor, ticksToWait)
    {
      hide Meets, With, Without, Pack, Inv, Plain, EventGroups.SetBits;
      var originalBitValue := eventBits;
      var _ := SetBits(bitsToSet);
      if Meets(With(originalBitValue, bitsToSet), SyncWish(bitsToWaitFor)) {
        blocked, result := false, With(originalBitValue, bitsToSet);
        eventBits := Without(eventBits, bitsToWaitFor);
      } else if ticksToWait != 0 {
        PlaceOnUnorderedEventList(task, SyncWish(bitsToWaitFor));
        blocked, result := true, NONE;
      } else {
        blocked, result := false, eventBits;
      }
    }

    /** The end of xEventGroupWaitBits and xEventGroupSync for a task that did block. */
    method Leave(task: Task, wish: Wish, priorityValue: Bits) returns (result: Bits)
      modifies this
      ensures Outcome(View(), false, result) == EventGroups.Leave(old(View()), task, wish, priorityValue)
    {
      hide Meets, Without, Stripped, WasReleased;
      result := if task in itemValue then itemValue[task] else NONE;
      itemValue := itemValue[task := priorityValue];
      if !WasReleased(result) {
        result := eventBits;
        if Meets(result, wish) && wish.clear {
          eventBits := Without(eventBits, wish.mask);
        }
      }
      result := Stripped(result);
    }

    /** xEventGroupClearBits. */
    method ClearBits(bitsToClear: Bits) returns (result: Bits)
      modifies this
      ensures View() == EventGroups.ClearBits(old(View()), bitsToClear) && result == old(eventBits)
    {
      result := eventBits;
      eventBits := Without(eventBits, bitsToClear);
    }

    /** vEventGroupDelete, but for giving back the memory. */
    method Delete()
      requires Inv(View())
      modifies this
      ensures View() == EventGroups.Delete(old(View()))
    {
      ghost var was, n := View(), 0;
      assert NoDup(was.waiting);
      hide With, Release, Inv;
      while 0 < |tasksWaitingForBits|
        invariant n <= |was.waiting| && eventBits == was.bits
        invariant tasksWaitingForBits == was.waiting[n..]
        invariant itemValue == Dismissed(was, was.waiting[..n])
        decreases |tasksWaitingForBits|
      {
        DismissalStep(was, n);
        RemoveFromUnorderedEventList(0, Unblocking(NONE));
        n := n + 1;
      }
      assert was.waiting[..n] == was.waiting;
    }
  }

  function Dismissed(g: Group, ts: seq<Task>): map<Task, Bits> {
    map t | t in g.value.Keys + (set u | u in ts) :: if t in ts then Release(NONE) else g.Val(t)
  }

  lemma DismissalStep(g: Group, n: nat)
    requires NoDup(g.waiting) && n < |g.waiting|
    ensures Dismissed(g, g.waiting[..n + 1]) == Dismissed(g, g.waiting[..n])[g.waiting[n] := Release(NONE)]
  {}

  /** The traversal of `g` with bits `s` has passed its first `n` waiters. */
  ghost predicate Traversed(g: Group, s: Bits, n: nat, v: Group, clear: Bits, item: nat)
    requires n <= |g.waiting|
  {
    && item == |Stay(g, g.waiting[..n], s)|
    && v == Group(s, Stay(g, g.waiting[..n], s) + g.waiting[n..], Posted(g, g.waiting[..n], s))
    && clear == ToClear(g, g.waiting[..n], s)
  }

  lemma BeforeTraversal(g: Group, s: Bits)
    ensures Traversed(g, s, 0, g.(bits := s), NONE, 0)
  {}

  lemma AfterTraversal(g: Group, bits: Bits, n: nat, v: Group, clear: Bits, item: nat)
    requires n <= |g.waiting| && Traversed(g, With(g.bits, bits), n, v, clear, item) && |v.waiting| <= item
    ensures v.(bits := Without(v.bits, clear)) == EventGroups.SetBits(g, bits)
  {
    hide With, Without;
    assert g.waiting[..n] == g.waiting;
  }

  lemma ValueStillThere(g: Group, n: nat, s: Bits)
    requires NoDup(g.waiting) && n < |g.waiting|
    ensures var value := Posted(g, g.waiting[..n], s);
            (if g.waiting[n] in value then value[g.waiting[n]] else NONE) == g.Val(g.waiting[n])
  {
    PostedFacts(g, g.waiting[..n], s);
    assert g.waiting[n] !in g.waiting[..n];
  }

  /** What one round makes of the group, the collected bits and the position. */
  function Visited(v: Group, s: Bits, clear: Bits, item: nat): ((Group, Bits, nat))
    requires item < |v.waiting|
  {
    var t, w := v.waiting[item], v.WishOf(v.waiting[item]);
    if Meets(s, w) then
      (Group(v.bits, v.waiting[..item] + v.waiting[item + 1..], v.value[t := Release(s)]),
       if w.clear then With(clear, w.mask) else clear, item)
    else (v, clear, item + 1)
  }

  /** One more waiter: the traversal either releases it or passes it. */
  lemma TraversalStep(g: Group, s: Bits, n: nat, v: Group, clear: Bits, item: nat)
    requires NoDup(g.waiting) && n <= |g.waiting| && Traversed(g, s, n, v, clear, item) && item < |v.waiting|
    ensures n < |g.waiting| && v.bits == s
    ensures var r := Visited(v, s, clear, item);
            Traversed(g, s, n + 1, r.0, r.1, r.2) && r.0.bits == s
  {
    hide Meets, Unpack, With, Release;
    assert g.waiting[..n + 1][..n] == g.waiting[..n];
    ValueStillThere(g, n, s);
    HeadOfRest(v.waiting, Stay(g, g.waiting[..n], s), g.waiting[n..]);
    assert g.waiting[n..][1..] == g.waiting[n + 1..];
  }

  lemma HeadOfRest(s: seq<Task>, a: seq<Task>, b: seq<Task>)
    requires s == a + b && b != []
    ensures s[|a|] == b[0] && s == (a + [b[0]]) + b[1..]
    ensures s[..|a|] + s[|a| + 1..] == a + b[1..]
  {}
}
