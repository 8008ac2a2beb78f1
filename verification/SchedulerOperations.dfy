/** Blocking, waking, creating, deleting, suspending and re-prioritising a task keep the
    scheduler's invariant. Each of these moves the items of one task. */
module SchedulerOperations {
  import opened KernelConfig
  import opened ListHeap
  import opened Scheduler
  import opened SchedulerInvariant
  import opened SchedulerSteps

  // ----- One task moves -------------------------------------------------------------

  /** Only the items of `t` have moved or changed value. */
  ghost predicate HeapMoves(h: Heap, g: Heap, t: Task) {
    && g.Wf()
    && (forall i: Item :: i.task != t ==> (i in g.container <==> i in h.container) && g.Val(i) == h.Val(i))
    && (forall i: Item :: i.task != t && i in h.container ==> g.container[i] == h.container[i])
    && (forall l :: (l == DelayedA || l == DelayedB) && h.Ordered(l) ==> g.Ordered(l))
  }

  /** `w` differs from `k` at most in where the items of `t` stand and in its control block. */
  ghost predicate OnlyMoves(k: Kernel, w: Kernel, t: Task) {
    && HeapMoves(k.h, w.h, t)
    && w.delayed == k.delayed && w.overflow == k.overflow && w.tick == k.tick
    && w.suspended == k.suspended && w.pendedTicks == k.pendedTicks && w.current == k.current
    && (forall u :: u != t ==> (u in w.tcb <==> u in k.tcb))
    && (forall u :: u != t && u in k.tcb ==> w.tcb[u] == k.tcb[u])
  }

  /** The invariant as far as it speaks of `t`. */
  ghost predicate TaskSound(k: Kernel, t: Task) {
    && (StateItem(t) in k.h.container <==> t in k.tcb)
    && (t in k.tcb ==> StateList(k.h.container[StateItem(t)]))
    && (EventItem(t) in k.h.container ==> !StateList(k.h.container[EventItem(t)]) && k.Blocked(t))
    && (k.IsReady(t) ==> k.h.container[StateItem(t)].level == k.Prio(t) <= k.top)
    && (k.Is(t, k.delayed) ==> k.tick < k.h.Val(StateItem(t)) < TICK_MODULUS && k.nextUnblock <= k.h.Val(StateItem(t)))
    && (k.Is(t, k.overflow) ==> k.h.Val(StateItem(t)) < k.tick)
  }

  lemma InvBounds(k: Kernel)
    requires Inv(k)
    ensures k.tick < TICK_MODULUS && k.h.Wf() && TwoLists(k)
    ensures Partition(k) && Wheel(k, k.tick + 1) && Counts(k) && Deferral(k) && k.current in k.tcb
  {}

  lemma InvFrom(k: Kernel)
    requires Partition(k) && Wheel(k, k.tick + 1) && Counts(k) && Deferral(k) && k.current in k.tcb
    ensures Inv(k)
  {}

  lemma SoundlyMoved(k: Kernel, w: Kernel, t: Task)
    requires Partition(k) && Wheel(k, k.tick + 1) && OnlyMoves(k, w, t) && TaskSound(w, t)
    requires k.top <= w.top && w.nextUnblock <= k.nextUnblock
    ensures Partition(w) && Wheel(w, w.tick + 1)
  {
    OneMoveKeepsPartition(k, w, t);
    OneMoveKeepsWheel(k, w, t);
  }

  lemma OneMoveKeepsInv(k: Kernel, w: Kernel, t: Task)
    requires Inv(k) && OnlyMoves(k, w, t) && TaskSound(w, t)
    requires k.top <= w.top && w.nextUnblock <= k.nextUnblock
    requires Counts(w) && Deferral(w) && w.current in w.tcb
    ensures Inv(w)
  {
    hide *;
    InvBounds(k);
    SoundlyMoved(k, w, t);
    InvFrom(w);
  }

  lemma OneMoveKeepsPartition(k: Kernel, w: Kernel, t: Task)
    requires Partition(k) && OnlyMoves(k, w, t) && TaskSound(w, t)
    requires k.top <= w.top
    ensures Partition(w)
  {
    forall i | i in w.h.container ensures i.StateItem? <==> StateList(w.h.container[i]) {
      if i.task == t { assert i == StateItem(t) || i == EventItem(t); }
    }
    forall u ensures u in w.tcb <==> StateItem(u) in w.h.container {
      assert StateItem(u).task == u;
    }
    forall u | EventItem(u) in w.h.container ensures u in w.tcb && w.Blocked(u) {
      assert EventItem(u).task == u && StateItem(u).task == u;
    }
    forall u | w.IsReady(u) ensures w.h.container[StateItem(u)].level == w.Prio(u) <= w.top {
      assert StateItem(u).task == u;
      if u != t { assert k.IsReady(u); }
    }
  }

  lemma OneMoveKeepsWheel(k: Kernel, w: Kernel, t: Task)
    requires Wheel(k, k.tick + 1) && OnlyMoves(k, w, t) && TaskSound(w, t)
    requires w.nextUnblock <= k.nextUnblock
    ensures Wheel(w, w.tick + 1)
  {
    forall u | w.Is(u, w.delayed) || w.Is(u, w.overflow)
      ensures u == t || w.Is(u, w.delayed) == k.Is(u, k.delayed)
      ensures u == t || w.Is(u, w.overflow) == k.Is(u, k.overflow)
      ensures u == t || w.h.Val(StateItem(u)) == k.h.Val(StateItem(u))
    {
      assert StateItem(u).task == u;
    }
  }

  lemma DeferralKept(k: Kernel, w: Kernel)
    requires k.h.Wf() && w.h.Wf() && Deferral(k) && w.suspended == k.suspended && w.pendedTicks == k.pendedTicks
    requires forall i :: w.h.In(i, PendingReady) ==> k.h.In(i, PendingReady)
    ensures Deferral(w)
  {
    EmptyIffNothingIn(k.h, PendingReady);
    EmptyIffNothingIn(w.h, PendingReady);
  }

  // ----- Blocking -------------------------------------------------------------------

  lemma ReadyIsNotBlocked(k: Kernel, t: Task)
    requires Partition(k) && k.IsReady(t)
    ensures EventItem(t) !in k.h.container && t in k.tcb
  {}

  /** `m` is `k`, perhaps with the running task's event item put on an event list already. */
  ghost predicate EventPlaced(k: Kernel, m: Kernel) {
    var e := EventItem(k.current);
    && m == k.(h := m.h) && m.h.Wf()
    && (forall i :: i != e ==> (i in m.h.container <==> i in k.h.container) && m.h.Val(i) == k.h.Val(i))
    && (forall i :: i != e && i in k.h.container ==> m.h.container[i] == k.h.container[i])
    && (e in m.h.container ==> m.h.container[e].EventList?)
    && (forall l: ListId :: !l.EventList? ==> m.h.At(l) == k.h.At(l))
    && (forall l: ListId :: !l.EventList? && k.h.Ordered(l) ==> m.h.Ordered(l))
  }

  /** Where and with what value a wake time so many ticks ahead is stored. */
  function WakeList(k: Kernel, ticks: nat): ListId {
    if k.tick + ticks < TICK_MODULUS then k.delayed else k.overflow
  }

  function WakeValue(k: Kernel, ticks: nat): int {
    if k.tick + ticks < TICK_MODULUS then k.tick + ticks else k.tick + ticks - TICK_MODULUS
  }

  /** Blocking the running task, on an event or not, for at least one tick. */
  lemma BlockKeeps(k: Kernel, m: Kernel, ticks: nat, indefinitely: bool)
    requires Inv(k) && k.IsReady(k.current) && EventPlaced(k, m) && 0 < ticks < TICK_MODULUS
    ensures Inv(Block(m, ticks, indefinitely))
  {
    hide *;
    var w, l := Block(m, ticks, indefinitely), BlockList(m, ticks, indefinitely);
    InvBounds(k);
    BlockedParks(k, m, ticks, indefinitely);
    ParkedOnlyMoves(k, m, w, l);
    ParkedIsSound(k, m, w, l, ticks);
    ParkedList(k, ticks, l);
    SoundlyMoved(k, w, k.current);
    ParkedCounts(k, m, w, l);
    InvFrom(w);
  }

  lemma BlockedParks(k: Kernel, m: Kernel, ticks: nat, indefinitely: bool)
    requires Inv(k) && k.IsReady(k.current) && EventPlaced(k, m) && 0 < ticks < TICK_MODULUS
    ensures var w, l := Block(m, ticks, indefinitely), BlockList(m, ticks, indefinitely);
            && Parked(m, w, l) && TwoLists(k) && (l == Suspended || l == WakeList(k, ticks))
            && (l != Suspended ==> w.h.Val(StateItem(k.current)) == WakeValue(k, ticks))
            && w.nextUnblock == if l == k.delayed && k.tick + ticks < k.nextUnblock then k.tick + ticks
                else k.nextUnblock
  {
    hide *;
    InvBounds(k);
    PlacedBasics(k, m);
    BlockParks(m, ticks, indefinitely);
    WrapTick(k.tick + ticks);
    StoredWhere(k, m, ticks, indefinitely);
  }

  lemma PlacedBasics(k: Kernel, m: Kernel)
    requires EventPlaced(k, m) && k.IsReady(k.current) && TwoLists(k)
    ensures m.h.Wf() && StateItem(m.current) in m.h.container
    ensures m.tick == k.tick && m.delayed == k.delayed && m.overflow == k.overflow && m.nextUnblock == k.nextUnblock
    ensures m.current == k.current && m.delayed != m.overflow && m.delayed != Suspended && m.overflow != Suspended
  {}

  lemma StoredWhere(k: Kernel, m: Kernel, ticks: nat, indefinitely: bool)
    requires m.tick == k.tick && m.delayed == k.delayed && m.overflow == k.overflow && k.tick < TICK_MODULUS
    requires 0 < ticks < TICK_MODULUS
    ensures BlockList(m, ticks, indefinitely) == Suspended || BlockList(m, ticks, indefinitely) == WakeList(k, ticks)
    ensures WakeValue(k, ticks) == (k.tick + ticks) % TICK_MODULUS
  {}

  lemma ParkedList(k: Kernel, ticks: nat, l: ListId)
    requires l == Suspended || l == WakeList(k, ticks)
    ensures l == Suspended || l == k.delayed || l == k.overflow
  {}

  lemma ParkedOnlyMoves(k: Kernel, m: Kernel, w: Kernel, l: ListId)
    requires EventPlaced(k, m) && Parked(m, w, l)
    ensures OnlyMoves(k, w, k.current)
  {}

  lemma ParkedIsSound(k: Kernel, m: Kernel, w: Kernel, l: ListId, ticks: nat)
    requires Partition(k) && k.current in k.tcb && EventPlaced(k, m) && Parked(m, w, l)
    requires k.tick < TICK_MODULUS && 0 < ticks < TICK_MODULUS
    requires TwoLists(k) && (l == Suspended || l == WakeList(k, ticks))
    requires l != Suspended ==> w.h.Val(StateItem(k.current)) == WakeValue(k, ticks)
    requires w.nextUnblock == if l == k.delayed && k.tick + ticks < k.nextUnblock then k.tick + ticks else k.nextUnblock
    ensures TaskSound(w, k.current) && w.tcb == k.tcb && w.top == k.top && w.nextUnblock <= k.nextUnblock
  {
    assert w.h.container[StateItem(k.current)] == l;
  }

  lemma ParkedCounts(k: Kernel, m: Kernel, w: Kernel, l: ListId)
    requires Inv(k) && k.IsReady(k.current) && EventPlaced(k, m) && Parked(m, w, l) && w.h.Wf()
    requires TwoLists(k) && (l == Suspended || l == k.delayed || l == k.overflow)
    ensures Counts(w) && Deferral(w) && w.current in w.tcb
  {
    assert !m.h.In(StateItem(k.current), Termination) && !m.h.In(StateItem(k.current), PendingReady);
    assert w.h.At(Termination) == k.h.At(Termination);
    assert w.h.At(PendingReady) == k.h.At(PendingReady);
  }

  lemma DelayKeeps(k: Kernel, ticks: nat)
    requires Inv(k) && k.IsReady(k.current) && 0 < ticks < TICK_MODULUS
    ensures Inv(Block(k, ticks, false))
  {
    hide *;
    InvBounds(k);
    NothingPlaced(k);
    BlockKeeps(k, k, ticks, false);
  }

  lemma NothingPlaced(k: Kernel)
    requires Partition(k) && k.IsReady(k.current)
    ensures EventPlaced(k, k)
  {}

  lemma BlockOnEventKeeps(k: Kernel, id: nat, ticks: nat)
    requires Inv(k) && k.IsReady(k.current) && 0 < ticks < TICK_MODULUS
    ensures Inv(BlockOnEvent(k, id, ticks))
  {
    hide Block, Inv, EventPlaced, Partition;
    var m := k.(h := k.h.LinkSorted(EventList(id), EventItem(k.current)));
    InvBounds(k);
    PlacedInOrder(k, m, id);
    BlockKeeps(k, m, ticks, true);
  }

  lemma PlacedInOrder(k: Kernel, m: Kernel, id: nat)
    requires Partition(k) && k.IsReady(k.current)
    requires m == k.(h := k.h.LinkSorted(EventList(id), EventItem(k.current)))
    ensures EventPlaced(k, m)
  {
    ReadyIsNotBlocked(k, k.current);
    LinkSortedFacts(k.h, EventList(id), EventItem(k.current));
  }

  lemma BlockOnUnorderedKeeps(k: Kernel, id: nat, v: nat, ticks: nat)
    requires Inv(k) && k.IsReady(k.current) && 0 < ticks < TICK_MODULUS
    ensures Inv(BlockOnUnordered(k, id, v, ticks))
  {
    hide Block, Inv, EventPlaced, Partition;
    var i := EventItem(k.current);
    var m := k.(h := k.h.SetValue(i, InUse(v)).LinkEnd(EventList(id), i));
    InvBounds(k);
    PlacedAtEnd(k, m, id, InUse(v));
    BlockKeeps(k, m, ticks, true);
  }

  lemma PlacedAtEnd(k: Kernel, m: Kernel, id: nat, v: nat)
    requires Partition(k) && k.IsReady(k.current)
    requires m == k.(h := k.h.SetValue(EventItem(k.current), v).LinkEnd(EventList(id), EventItem(k.current)))
    ensures EventPlaced(k, m)
  {
    var i := EventItem(k.current);
    ReadyIsNotBlocked(k, k.current);
    SetValueFacts(k.h, i, v);
    LinkEndFacts(k.h.SetValue(i, v), EventList(id), i);
    forall l: ListId | !l.EventList? && k.h.Ordered(l) ensures m.h.Ordered(l) {
      assert !k.h.In(i, l);
    }
  }

  // ----- Waking ---------------------------------------------------------------------

  lemma UnlinkAny(h: Heap, i: Item)
    requires h.Wf()
    ensures var g := h.Unlink(i);
            && g.Wf() && g.value == h.value && g.container == h.container - {i}
            && (forall m :: h.Ordered(m) ==> g.Ordered(m))
            && (forall m :: !h.In(i, m) ==> g.At(m) == h.At(m))
  {
    if i in h.container { UnlinkFacts(h, i); }
  }

  lemma WakeKeepsInv(k: Kernel, t: Task)
    requires Inv(k) && k.Blocked(t)
    ensures Inv(Wake(k, t))
  {
    hide Wake, Wheel, Partition;
    var w := Wake(k, t);
    InvBounds(k);
    WakeKeeps(k, t, k.tick + 1);
    PartitionHasWf(w);
    forall i ensures w.h.In(i, PendingReady) ==> k.h.In(i, PendingReady) {}
    DeferralKept(k, w);
  }

  lemma PartitionHasWf(k: Kernel)
    requires Partition(k)
    ensures k.h.Wf()
  {}

  lemma YieldKeepsInv(k: Kernel, y: bool)
    requires Inv(k)
    ensures Inv(k.(yieldPending := y))
  {
    YieldIsAside(k, y);
  }

  /** The head of a waiting list that is not empty is a blocked task. */
  lemma WaiterIsBlocked(k: Kernel, id: nat)
    requires Partition(k) && k.h.Items(EventList(id)) != []
    ensures var i := k.h.Items(EventList(id))[0];
            i == EventItem(i.task) && k.h.In(i, EventList(id)) && k.Blocked(i.task)
  {
    var i := k.h.Items(EventList(id))[0];
    assert i in k.h.Items(EventList(id));
    assert k.h.In(i, EventList(id)) && !StateList(EventList(id));
  }

  lemma RemoveFromEventListKeeps(k: Kernel, id: nat)
    requires Inv(k)
    ensures Inv(RemoveFromEventList(k, id))
  {
    hide Wake, Inv, Partition;
    if k.h.Items(EventList(id)) != [] {
      InvBounds(k);
      WaiterIsBlocked(k, id);
      var t := k.h.Items(EventList(id))[0].task;
      var y := k.yieldPending || k.Prio(k.current) < k.Prio(t);
      if k.suspended == 0 {
        WakeKeepsInv(k, t);
        YieldKeepsInv(Wake(k, t), y);
      } else {
        SetAsideKeeps(k, t);
        YieldKeepsInv(SetAside(k, t), y);
      }
    }
  }

  /** An interrupt finds the scheduler suspended: the task is only noted. */
  function SetAside(k: Kernel, t: Task): Kernel {
    k.(h := k.h.Unlink(EventItem(t)).LinkEnd(PendingReady, EventItem(t)))
  }

  lemma SetAsideKeeps(k: Kernel, t: Task)
    requires Inv(k) && k.Blocked(t) && 0 < k.suspended
    ensures Inv(SetAside(k, t))
  {
    hide Inv, Partition, Wheel, OnlyMoves, TaskSound, HeapMoves;
    var w := SetAside(k, t);
    InvBounds(k);
    SetAsideFacts(k.h, t);
    DelayedHoldNoEvents(k, t);
    SetAsideMoves(k, t);
    SetAsideIsSound(k, w, t);
    OneMoveKeepsInv(k, w, t);
  }

  lemma DelayedHoldNoEvents(k: Kernel, t: Task)
    requires Partition(k)
    ensures forall l: ListId :: StateList(l) ==> !k.h.In(EventItem(t), l)
  {}

  /** What linking an event item to the end of the pending list does. */
  lemma SetAsideFacts(h: Heap, t: Task)
    requires h.Wf()
    ensures var g := h.Unlink(EventItem(t)).LinkEnd(PendingReady, EventItem(t));
            && g.Wf() && g.value == h.value && g.container == h.container[EventItem(t) := PendingReady]
            && (forall m :: m != PendingReady && h.Ordered(m) ==> g.Ordered(m))
            && (forall m :: m != PendingReady && !h.In(EventItem(t), m) ==> g.At(m) == h.At(m))
  {
    var u := h.Unlink(EventItem(t));
    UnlinkAny(h, EventItem(t));
    LinkEndFacts(u, PendingReady, EventItem(t));
    assert (h.container - {EventItem(t)})[EventItem(t) := PendingReady] == h.container[EventItem(t) := PendingReady];
  }

  lemma SetAsideMoves(k: Kernel, t: Task)
    requires k.h.Wf()
    ensures OnlyMoves(k, SetAside(k, t), t)
  {
    SetAsideFacts(k.h, t);
  }

  lemma SetAsideIsSound(k: Kernel, w: Kernel, t: Task)
    requires Partition(k) && Wheel(k, k.tick + 1) && Counts(k) && k.Blocked(t) && 0 < k.suspended && k.current in k.tcb
    requires w == k.(h := w.h) && w.h.value == k.h.value && w.h.container == k.h.container[EventItem(t) := PendingReady]
    requires w.h.At(Termination) == k.h.At(Termination)
    ensures TaskSound(w, t) && Counts(w) && Deferral(w) && w.current in w.tcb
    ensures k.top == w.top && w.nextUnblock == k.nextUnblock
  {}

  /** The value of an event item is free to change: only event lists may lose their order. */
  lemma RevaluedKeeps(k: Kernel, t: Task, v: nat)
    requires Inv(k)
    ensures Inv(k.(h := k.h.SetValue(EventItem(t), v)))
  {
    hide Partition, Wheel, OnlyMoves, TaskSound;
    var m := k.(h := k.h.SetValue(EventItem(t), v));
    InvBounds(k);
    SetValueFacts(k.h, EventItem(t), v);
    RevaluedMoves(k, m, t, v);
    InvHasSound(k, t);
    RevaluedIsSound(k, m, t, v);
    assert Deferral(m) && Counts(m);
    OneMoveKeepsInv(k, m, t);
  }

  lemma InvHasSound(k: Kernel, t: Task)
    requires Partition(k) && Wheel(k, k.tick + 1)
    ensures TaskSound(k, t)
  {}

  lemma RevaluedMoves(k: Kernel, m: Kernel, t: Task, v: nat)
    requires Partition(k) && TwoLists(k) && m == k.(h := k.h.SetValue(EventItem(t), v))
    ensures OnlyMoves(k, m, t)
  {
    SetValueFacts(k.h, EventItem(t), v);
    DelayedHoldNoEvents(k, t);
  }

  lemma RevaluedIsSound(k: Kernel, m: Kernel, t: Task, v: nat)
    requires TaskSound(k, t) && m == k.(h := k.h.SetValue(EventItem(t), v))
    ensures TaskSound(m, t)
  {}

  lemma WaitingIsBlocked(k: Kernel, t: Task)
    requires Partition(k) && EventItem(t) in k.h.container
    ensures k.Blocked(t)
  {}

  lemma RemoveFromUnorderedKeeps(k: Kernel, t: Task, v: nat)
    requires Inv(k) && EventItem(t) in k.h.container
    ensures Inv(RemoveFromUnordered(k, t, v))
  {
    hide Wake, Partition, Wheel;
    InvBounds(k);
    RevaluedKeeps(k, t, InUse(v));
    var m := k.(h := k.h.SetValue(EventItem(t), InUse(v)));
    assert m.Blocked(t) by { WaitingIsBlocked(k, t); }
    WakeKeepsInv(m, t);
    YieldKeepsInv(Wake(m, t), k.yieldPending || k.Prio(k.current) < k.Prio(t));
  }
}
