/** Creating, deleting, suspending, resuming and re-prioritising tasks, and choosing the next
    one to run, keep the scheduler's invariant. */
module SchedulerTasks {
  import opened ListHeap
  import opened Scheduler
  import opened SchedulerInvariant
  import opened SchedulerSteps
  import opened SchedulerOperations

  // ----- Creation and deletion ------------------------------------------------------

  lemma CreateFacts(h: Heap, t: Task, v: nat, l: ListId)
    requires h.Wf() && StateItem(t) !in h.container && l.Ready?
    requires forall m :: m == DelayedA || m == DelayedB ==> !h.In(EventItem(t), m)
    ensures var g := h.SetValue(EventItem(t), v).LinkEnd(l, StateItem(t));
            && HeapMoves(h, g, t) && g.container == h.container[StateItem(t) := l]
            && (forall m: ListId :: !m.Ready? ==> g.At(m) == h.At(m))
  {
    SetValueFacts(h, EventItem(t), v);
    LinkEndFacts(h.SetValue(EventItem(t), v), l, StateItem(t));
  }

  lemma CreateKeeps(k: Kernel, t: Task, priority: nat)
    requires Inv(k) && t !in k.tcb
    ensures Inv(Create(k, t, priority))
  {
    hide Partition, Wheel, Inv, HeapMoves, OnlyMoves, TaskSound;
    var w := Create(k, t, priority);
    var p := Clipped(priority);
    InvBounds(k);
    DelayedHoldNoEvents(k, t);
    NewTaskHasNoItems(k, t);
    CreateFacts(k.h, t, EventValue(p), Ready(p));
    CreatedIsSound(k, w, t, p);
    OneMoveKeepsInv(k, w, t);
  }

  lemma CreatedIsSound(k: Kernel, w: Kernel, t: Task, p: nat)
    requires HeapMoves(k.h, w.h, t) && Counts(k) && Deferral(k) && k.current in k.tcb && t !in k.tcb
    requires TwoLists(k)
    requires w.top == if k.top < p then p else k.top
    requires w == k.(h := w.h, top := w.top, tcb := k.tcb[t := Tcb(p, p, 0)], tasks := k.tasks + 1)
    requires w.h.container == k.h.container[StateItem(t) := Ready(p)] && EventItem(t) !in k.h.container
    requires forall m: ListId :: !m.Ready? ==> w.h.At(m) == k.h.At(m)
    ensures OnlyMoves(k, w, t) && TaskSound(w, t) && Counts(w) && Deferral(w) && w.current in w.tcb
  {}

  lemma NewTaskHasNoItems(k: Kernel, t: Task)
    requires Partition(k) && t !in k.tcb
    ensures StateItem(t) !in k.h.container && EventItem(t) !in k.h.container
  {}

  /** What taking out both items of a task does. */
  lemma TakenOutFacts(h: Heap, t: Task)
    requires h.Wf()
    ensures var g := h.Unlink(StateItem(t)).Unlink(EventItem(t));
            && HeapMoves(h, g, t) && g.value == h.value
            && g.container == h.container - {StateItem(t), EventItem(t)}
            && (forall m :: !h.In(StateItem(t), m) && !h.In(EventItem(t), m) ==> g.At(m) == h.At(m))
            && (forall m :: h.Ordered(m) ==> g.Ordered(m))
  {
    UnlinkAny(h, StateItem(t));
    UnlinkAny(h.Unlink(StateItem(t)), EventItem(t));
    assert h.container - {StateItem(t)} - {EventItem(t)} == h.container - {StateItem(t), EventItem(t)};
  }

  /** What taking out both items and putting the state item into `l` does. */
  lemma PutAwayFacts(h: Heap, t: Task, l: ListId)
    requires h.Wf() && l != DelayedA && l != DelayedB
    ensures var g := h.Unlink(StateItem(t)).Unlink(EventItem(t)).LinkEnd(l, StateItem(t));
            && HeapMoves(h, g, t) && g.value == h.value
            && g.container == (h.container - {EventItem(t)})[StateItem(t) := l]
            && (forall m :: m != l && !h.In(StateItem(t), m) && !h.In(EventItem(t), m) ==> g.At(m) == h.At(m))
            && (!h.In(StateItem(t), l) && !h.In(EventItem(t), l) ==> |g.Items(l)| == |h.Items(l)| + 1)
  {
    hide HeapMoves;
    var u := h.Unlink(StateItem(t)).Unlink(EventItem(t));
    TakenOutFacts(h, t);
    LinkEndFacts(u, l, StateItem(t));
    assert (h.container - {StateItem(t), EventItem(t)})[StateItem(t) := l]
        == (h.container - {EventItem(t)})[StateItem(t) := l];
    LinkedMoves(h, u, u.LinkEnd(l, StateItem(t)), t, l);
  }

  lemma LinkedMoves(h: Heap, u: Heap, g: Heap, t: Task, l: ListId)
    requires HeapMoves(h, u, t) && g.Wf() && g.value == u.value && g.container == u.container[StateItem(t) := l]
    requires forall m :: (m == DelayedA || m == DelayedB) && u.Ordered(m) ==> g.Ordered(m)
    ensures HeapMoves(h, g, t)
  {}

  lemma PendingOnlyLeaves(k: Kernel, w: Kernel, t: Task)
    requires Deferral(k) && k.h.Wf() && HeapMoves(k.h, w.h, t)
    requires w.suspended == k.suspended && w.pendedTicks == k.pendedTicks
    requires EventItem(t) !in w.h.container && !w.h.In(StateItem(t), PendingReady)
    ensures Deferral(w)
  {
    forall i | w.h.In(i, PendingReady) ensures k.h.In(i, PendingReady) {
      assert i.task == t ==> i == StateItem(t) || i == EventItem(t);
    }
    DeferralKept(k, w);
  }

  /** A task that deletes itself waits for the idle task, which is counted. */
  lemma DeleteSelfKeeps(k: Kernel)
    requires Inv(k) && !k.Is(k.current, Termination)
    ensures Inv(Delete(k, k.current))
  {
    hide Partition, Wheel, Inv, HeapMoves, OnlyMoves, TaskSound;
    var t, w := k.current, Delete(k, k.current);
    InvBounds(k);
    PutAwayFacts(k.h, t, Termination);
    DelayedHoldNoEvents(k, t);
    MovesHeapOnly(k, w, t);
    PutAwayIsSound(k, w, t, Termination);
    assert Counts(w);
    PendingOnlyLeaves(k, w, t);
    OneMoveKeepsInv(k, w, t);
  }

  lemma MovesHeapOnly(k: Kernel, w: Kernel, t: Task)
    requires HeapMoves(k.h, w.h, t)
    requires w == k.(h := w.h, top := w.top, nextUnblock := w.nextUnblock, toCleanUp := w.toCleanUp,
        yieldPending := w.yieldPending)
    ensures OnlyMoves(k, w, t)
  {}

  lemma PutAwayIsSound(k: Kernel, w: Kernel, t: Task, l: ListId)
    requires Partition(k) && Wheel(k, k.tick + 1) && t in k.tcb && (l == Termination || l == Suspended)
    requires w == k.(h := w.h, toCleanUp := w.toCleanUp)
    requires w.h.container == (k.h.container - {EventItem(t)})[StateItem(t) := l]
    ensures TaskSound(w, t)
  {}

  /** The first critical section of vTaskSuspend. */
  function PutOnSuspendedList(k: Kernel, t: Task): Kernel {
    k.(h := k.h.Unlink(StateItem(t)).Unlink(EventItem(t)).LinkEnd(Suspended, StateItem(t)))
  }

  lemma PutOnSuspendedListKeeps(k: Kernel, t: Task)
    requires Inv(k) && t in k.tcb && !k.Is(t, Termination)
    ensures Inv(PutOnSuspendedList(k, t))
  {
    hide Partition, Wheel, Inv, HeapMoves, OnlyMoves, TaskSound;
    var w := PutOnSuspendedList(k, t);
    InvBounds(k);
    PutAwayFacts(k.h, t, Suspended);
    DelayedHoldNoEvents(k, t);
    MovesHeapOnly(k, w, t);
    PutAwayIsSound(k, w, t, Suspended);
    assert Counts(w);
    PendingOnlyLeaves(k, w, t);
    OneMoveKeepsInv(k, w, t);
  }

  /** vTaskSuspend as one step: its second critical section resets the unblock time. */
  lemma SuspendKeeps(k: Kernel, t: Task)
    requires Inv(k) && t in k.tcb && !k.Is(t, Termination)
    ensures Inv(Suspend(k, t))
  {
    hide Inv, ResetNextUnblock;
    PutOnSuspendedListKeeps(k, t);
    ResetKeepsInv(PutOnSuspendedList(k, t));
  }

  /** The two sections apart: the invariant holds between them, and the second one keeps it
      whatever state it comes to run in. */
  lemma SuspendSectionsKeep(k: Kernel, t: Task, later: Kernel)
    requires Inv(k) && t in k.tcb && !k.Is(t, Termination) && Inv(later)
    ensures Suspend(k, t) == ResetNextUnblock(PutOnSuspendedList(k, t))
    ensures Inv(PutOnSuspendedList(k, t)) && Inv(ResetNextUnblock(later))
  {
    hide Inv, ResetNextUnblock;
    PutOnSuspendedListKeeps(k, t);
    ResetKeepsInv(later);
  }

  lemma ResetKeepsInv(k: Kernel)
    requires Inv(k)
    ensures Inv(ResetNextUnblock(k))
  {
    hide ResetNextUnblock, Partition, Wheel;
    ResetKeeps(k, k.tick + 1);
    SamePending(k, ResetNextUnblock(k));
  }

  lemma SamePending(k: Kernel, w: Kernel)
    requires Deferral(k) && w == k.(nextUnblock := w.nextUnblock)
    ensures Deferral(w)
  {}

  lemma DeleteOtherKeeps(k: Kernel, t: Task)
    requires Inv(k) && t in k.tcb && t != k.current && !k.Is(t, Termination)
    ensures Inv(Delete(k, t))
  {
    hide *;
    InvBounds(k);
    OneTaskLess(k, t);
    TakenAwayKeeps(k, t);
    ResetKeepsInv(TakenAway(k, t));
    DeletedOther(k, t);
  }

  /** vTaskDelete of another task, before it resets the unblock time. */
  function TakenAway(k: Kernel, t: Task): Kernel {
    k.(h := k.h.Unlink(StateItem(t)).Unlink(EventItem(t)), tcb := k.tcb - {t},
       tasks := if k.tasks == 0 then 0 else k.tasks - 1)
  }

  lemma DeletedOther(k: Kernel, t: Task)
    requires t != k.current
    ensures Delete(k, t) == ResetNextUnblock(TakenAway(k, t))
  {}

  lemma OneTaskLess(k: Kernel, t: Task)
    requires Counts(k) && t in k.tcb
    ensures 0 < k.tasks && |k.tcb - {t}| == k.tasks - 1
  {}

  lemma TakenAwayKeeps(k: Kernel, t: Task)
    requires Inv(k) && t in k.tcb && t != k.current && !k.Is(t, Termination) && 0 < k.tasks
        && |k.tcb - {t}| == k.tasks - 1
    ensures Inv(TakenAway(k, t))
  {
    hide Partition, Wheel, Inv, HeapMoves, OnlyMoves, TaskSound;
    var w := TakenAway(k, t);
    InvBounds(k);
    TakenOutFacts(k.h, t);
    DelayedHoldNoEvents(k, t);
    GoneMoves(k, w, t);
    GoneIsSound(w, t);
    PendingOnlyLeaves(k, w, t);
    OneMoveKeepsInv(k, w, t);
  }

  lemma GoneMoves(k: Kernel, w: Kernel, t: Task)
    requires HeapMoves(k.h, w.h, t) && w == k.(h := w.h, tcb := k.tcb - {t}, tasks := w.tasks, toCleanUp := w.toCleanUp)
    ensures OnlyMoves(k, w, t)
  {}

  lemma GoneIsSound(w: Kernel, t: Task)
    requires StateItem(t) !in w.h.container && EventItem(t) !in w.h.container && t !in w.tcb
    ensures TaskSound(w, t)
  {}

  /** The idle task frees the first task that waits for it. */
  lemma CleanUpKeeps(k: Kernel)
    requires Inv(k) && !k.Is(k.current, Termination)
    ensures Inv(CleanUp(k))
  {
    hide Partition, Wheel, Inv, HeapMoves, OnlyMoves, TaskSound;
    var w, items := CleanUp(k), k.h.Items(Termination);
    InvBounds(k);
    if k.toCleanUp != 0 && items != [] {
      TerminatedTask(k);
      var t := items[0].task;
      OneTaskLess(k, t);
      UnlinkFacts(k.h, items[0]);
      UnlinkAny(k.h, items[0]);
      assert HeapMoves(k.h, w.h, t) by { UnlinkMoves(k.h, items[0]); }
      GoneMoves(k, w, t);
      GoneIsSound(w, t);
      assert Counts(w);
      PendingOnlyLeaves(k, w, t);
      OneMoveKeepsInv(k, w, t);
    }
  }

  lemma UnlinkMoves(h: Heap, i: Item)
    requires h.Wf()
    ensures HeapMoves(h, h.Unlink(i), i.task)
  {
    UnlinkAny(h, i);
  }

  lemma TerminatedTask(k: Kernel)
    requires Partition(k) && k.h.Items(Termination) != []
    ensures var i := k.h.Items(Termination)[0];
            && i == StateItem(i.task) && k.h.In(i, Termination) && i.task in k.tcb
            && EventItem(i.task) !in k.h.container && |k.tcb| != 0
  {}

  // ----- Resumption and priorities --------------------------------------------------

  lemma ResumeKeeps(k: Kernel, t: Task)
    requires Inv(k)
    ensures Inv(Resume(k, t))
  {
    hide Inv, ToReady;
    if t != k.current && IsSuspended(k, t) { ReadiedKeeps(k, t); }
  }

  lemma ReadiedKeeps(k: Kernel, t: Task)
    requires Inv(k) && IsSuspended(k, t)
    ensures Inv(ToReady(k, t))
  {
    hide Inv, Wake;
    WakeKeepsInv(k, t);
    assert k.h.Unlink(EventItem(t)) == k.h;
    OffEventsWake(k, t);
  }

  lemma OffEventsWake(k: Kernel, t: Task)
    requires EventItem(t) !in k.h.container
    ensures Wake(k, t) == ToReady(k, t)
  {}

  lemma ResumeFromISRKeeps(k: Kernel, t: Task)
    requires Inv(k)
    ensures Inv(ResumeFromISR(k, t))
  {
    hide Inv, ToReady;
    if IsSuspended(k, t) {
      if k.suspended == 0 {
        ReadiedKeeps(k, t);
      } else {
        assert k.h.Unlink(EventItem(t)) == k.h;
        SetAsideKeeps(k, t);
      }
    }
  }

  /** `n` is `k` with a new control block for `t` and perhaps a new event item value. */
  ghost predicate Reprioritised(k: Kernel, n: Kernel, t: Task) {
    && t in k.tcb && t in n.tcb && n == k.(h := n.h, tcb := k.tcb[t := n.tcb[t]])
    && n.h.Wf() && n.h.container == k.h.container
    && (forall i :: i != EventItem(t) ==> n.h.Val(i) == k.h.Val(i))
    && (forall m :: n.h.At(m) == k.h.At(m))
    && (forall l :: (l == DelayedA || l == DelayedB) && k.h.Ordered(l) ==> n.h.Ordered(l))
  }

  /** A change of priority keeps everything once a ready task has changed its list. */
  lemma RequeuedKeeps(k: Kernel, n: Kernel, t: Task)
    requires Inv(k) && Reprioritised(k, n, t)
    ensures Inv(Requeued(n, t, k.tcb[t].priority))
  {
    hide Partition, Wheel, Inv, HeapMoves, OnlyMoves, TaskSound, MoveState;
    var w := Requeued(n, t, k.tcb[t].priority);
    InvBounds(k);
    InvHasSound(k, t);
    if n.Is(t, Ready(k.tcb[t].priority)) {
      MoveStateFacts(n.h, t, Ready(n.Prio(t)));
      RequeuedMoves(k, n, w, t);
      RequeuedIsSound(k, n, w, t);
      assert !n.h.In(StateItem(t), Termination) && !n.h.In(StateItem(t), PendingReady);
      assert w.h.At(Termination) == k.h.At(Termination) && w.h.At(PendingReady) == k.h.At(PendingReady);
    } else {
      UnqueuedIsSound(k, n, t);
    }
    assert Counts(w) && Deferral(w);
    OneMoveKeepsInv(k, w, t);
  }

  lemma RequeuedMoves(k: Kernel, n: Kernel, w: Kernel, t: Task)
    requires Reprioritised(k, n, t) && w == n.(h := w.h, top := w.top) && w.h.Wf() && w.h.value == n.h.value
    requires w.h.container == n.h.container[StateItem(t) := Ready(n.Prio(t))]
    requires forall m :: (m == DelayedA || m == DelayedB) && n.h.Ordered(m) ==> w.h.Ordered(m)
    ensures OnlyMoves(k, w, t)
  {}

  lemma RequeuedIsSound(k: Kernel, n: Kernel, w: Kernel, t: Task)
    requires Reprioritised(k, n, t) && TaskSound(k, t) && k.IsReady(t) && TwoLists(k)
    requires w == n.(h := w.h, top := if n.top < n.Prio(t) then n.Prio(t) else n.top) && w.h.value == n.h.value
    requires w.h.container == n.h.container[StateItem(t) := Ready(n.Prio(t))]
    ensures TaskSound(w, t)
  {}

  lemma UnqueuedIsSound(k: Kernel, n: Kernel, t: Task)
    requires Reprioritised(k, n, t) && TaskSound(k, t) && !k.Is(t, Ready(k.tcb[t].priority))
    ensures TaskSound(n, t) && OnlyMoves(k, n, t)
  {}

  lemma SetPriorityReprioritises(k: Kernel, t: Task, q: Tcb, v: nat)
    requires Partition(k) && TwoLists(k) && t in k.tcb
    ensures Reprioritised(k, k.(tcb := k.tcb[t := q]), t)
    ensures Reprioritised(k, k.(tcb := k.tcb[t := q], h := k.h.SetValue(EventItem(t), v)), t)
  {
    SetValueFacts(k.h, EventItem(t), v);
    DelayedHoldNoEvents(k, t);
  }

  lemma PrioritySetKeeps(k: Kernel, t: Task, priority: nat)
    requires Inv(k)
    ensures Inv(PrioritySet(k, t, priority))
  {
    hide Inv, Reprioritised, Requeued, Partition;
    var p := Clipped(priority);
    if t in k.tcb && k.tcb[t].basePriority != p {
      var was := k.tcb[t];
      var q := was.(basePriority := p, priority := if was.basePriority == was.priority then p else was.priority);
      InvBounds(k);
      SetPriorityReprioritises(k, t, q, EventValue(p));
      RequeuedKeeps(k, SetEventPriority(SetTcb(k, t, q), t, p), t);
    }
  }

  lemma InheritKeeps(k: Kernel, holder: Task)
    requires Inv(k)
    ensures Inv(Inherit(k, holder))
  {
    hide Inv, Reprioritised, Requeued, Partition;
    if holder in k.tcb && k.Prio(holder) < k.Prio(k.current) {
      InvBounds(k);
      var q := k.tcb[holder].(priority := k.Prio(k.current));
      SetPriorityReprioritises(k, holder, q, EventValue(q.priority));
      RequeuedKeeps(k, SetTcb(SetEventPriority(k, holder, q.priority), holder, q), holder);
    }
  }

  lemma ReadyAtOwnLevel(k: Kernel, t: Task)
    requires Partition(k) && k.IsReady(t)
    ensures k.Is(t, Ready(k.Prio(t)))
  {}

  lemma DisinheritKeeps(k: Kernel)
    requires Inv(k) && k.IsReady(k.current)
    ensures Inv(Disinherit(k))
  {
    hide Inv, Reprioritised, ToReady, Partition, SetTcb;
    var t := k.current;
    InvBounds(k);
    if k.tcb[t].mutexesHeld != 0 {
      var held := k.tcb[t].(mutexesHeld := k.tcb[t].mutexesHeld - 1);
      if held.priority != held.basePriority && held.mutexesHeld == 0 {
        var q := held.(priority := held.basePriority);
        SetPriorityReprioritises(k, t, q, EventValue(q.priority));
        var n := k.(tcb := k.tcb[t := q], h := k.h.SetValue(EventItem(t), EventValue(q.priority)));
        ReadyAtOwnLevel(k, t);
        RequeuedKeeps(k, n, t);
        assert Disinherit(k) == Requeued(n, t, k.tcb[t].priority) by { IsSetTcb(k, t, q); }
      } else {
        HeldCountKeeps(k, held);
      }
    }
  }

  lemma IsSetTcb(k: Kernel, t: Task, q: Tcb)
    ensures SetTcb(k, t, q) == k.(tcb := k.tcb[t := q])
  {}

  lemma HeldCountKeeps(k: Kernel, q: Tcb)
    requires Inv(k)
    requires q.priority == k.tcb[k.current].priority && q.basePriority == k.tcb[k.current].basePriority
    ensures Inv(SetTcb(k, k.current, q))
  {
    hide Wheel, Partition;
    var w := SetTcb(k, k.current, q);
    SameHeapSameWheel(k, w);
    SamePrioritiesSamePartition(k, w);
  }

  lemma SamePrioritiesSamePartition(k: Kernel, w: Kernel)
    requires Partition(k) && w.h == k.h && w.top == k.top && w.tcb.Keys == k.tcb.Keys
    requires forall t :: t in k.tcb ==> (w.tcb[t].priority == k.tcb[t].priority
        && w.tcb[t].basePriority == k.tcb[t].basePriority)
    ensures Partition(w)
  {
    assert forall t :: w.Prio(t) == k.Prio(t);
  }

  lemma SameHeapSameWheel(k: Kernel, w: Kernel)
    requires Wheel(k, k.tick + 1) && w == k.(tcb := w.tcb, suspended := w.suspended, current := w.current, top := w.top)
    ensures Wheel(w, w.tick + 1)
  {}

  lemma HoldMutexKeeps(k: Kernel)
    requires Inv(k)
    ensures Inv(HoldMutex(k))
  {
    hide Inv, SetTcb;
    InvBounds(k);
    HeldCountKeeps(k, k.tcb[k.current].(mutexesHeld := k.tcb[k.current].mutexesHeld + 1));
  }

  lemma ResetEventItemValueKeeps(k: Kernel)
    requires Inv(k)
    ensures Inv(ResetEventItemValue(k))
  {
    hide Inv, EventValue;
    RevaluedKeeps(k, k.current, EventValue(k.Prio(k.current)));
  }

  lemma SuspendAllKeeps(k: Kernel)
    requires Inv(k)
    ensures Inv(SuspendAll(k))
  {
    hide Wheel, Partition;
    SuspensionIsAside(k, k.suspended + 1, k.pendedTicks);
    assert SuspendAll(k) == k.(suspended := k.suspended + 1, pendedTicks := k.pendedTicks);
  }

  // ----- Selection ------------------------------------------------------------------

  ghost predicate SomeoneReady(k: Kernel) {
    exists t :: k.IsReady(t)
  }

  /** The downward scan ends at a list that is not empty, and everything above it is empty:
      the assertion in its body never fails. */
  lemma {:induction false} ScanFinds(k: Kernel, from: nat)
    requires Partition(k) && SomeoneReady(k)
    requires forall t :: k.IsReady(t) ==> k.Prio(t) <= from
    ensures var level := HighestLevel(k.h, from);
            && level <= from && k.h.Items(Ready(level)) != []
            && (forall t :: k.IsReady(t) ==> k.Prio(t) <= level)
  {
    hide Partition;
    if k.h.Items(Ready(from)) == [] {
      NobodyAt(k, from);
      var t :| k.IsReady(t);
      assert k.Prio(t) < from;
      ScanFinds(k, from - 1);
    }
  }

  lemma NobodyAt(k: Kernel, level: nat)
    requires Partition(k) && k.h.Items(Ready(level)) == []
    ensures forall t :: k.IsReady(t) ==> k.Prio(t) != level
  {
    forall t | k.IsReady(t) ensures k.Prio(t) != level {
      assert k.h.In(StateItem(t), Ready(k.Prio(t)));
      assert StateItem(t) in k.h.Items(Ready(k.Prio(t)));
    }
  }

  /** Selection picks the best: an unsuspended context switch selects a ready task whose
      priority no ready task exceeds, as long as anything is ready. */
  lemma SelectionPicksTheBest(k: Kernel)
    requires Partition(k) && SomeoneReady(k) && k.suspended == 0
    ensures var s := SwitchContext(k);
            && k.IsReady(s.current) && s.top == k.Prio(s.current) && s.top <= k.top
            && (forall t :: k.IsReady(t) ==> k.Prio(t) <= k.Prio(s.current))
            && s == k.(h := k.h.Step(Ready(s.top)), top := s.top, current := s.current, yieldPending := false)
  {
    hide HighestLevel;
    ScanFinds(k, k.top);
    var level := HighestLevel(k.h, k.top);
    StepFacts(k.h, Ready(level));
    var l := k.h.Step(Ready(level)).At(Ready(level));
    assert l == k.h.At(Ready(level)).Next() && 0 < l.index <= |l.items|;
    assert l.Selected() in k.h.Items(Ready(level));
    assert k.h.In(l.Selected(), Ready(level));
    assert l.Selected() == StateItem(l.Selected().task);
  }

  lemma SwitchContextKeeps(k: Kernel)
    requires Inv(k) && (k.suspended != 0 || SomeoneReady(k))
    ensures Inv(SwitchContext(k))
  {
    hide Inv, Partition, Wheel, HighestLevel;
    if k.suspended != 0 {
      YieldKeepsInv(k, true);
    } else {
      InvBounds(k);
      SelectionPicksTheBest(k);
      var s := SwitchContext(k);
      StepFacts(k.h, Ready(s.top));
      SteppedKeeps(k, s);
    }
  }

  lemma SteppedKeeps(k: Kernel, s: Kernel)
    requires Inv(k) && k.IsReady(s.current) && s.top <= k.top
    requires forall t :: k.IsReady(t) ==> k.Prio(t) <= s.top
    requires s == k.(h := s.h, top := s.top, current := s.current, yieldPending := s.yieldPending)
    requires s.h.Wf() && s.h.value == k.h.value && s.h.container == k.h.container
    requires forall m :: s.h.Items(m) == k.h.Items(m)
    requires forall m :: k.h.Ordered(m) ==> s.h.Ordered(m)
    ensures Inv(s)
  {
    hide Partition, Wheel;
    ReadyIsNotBlocked(k, s.current);
    SteppedPartition(k, s);
    SteppedWheel(k, s);
  }

  lemma SteppedPartition(k: Kernel, s: Kernel)
    requires Partition(k) && s.top <= k.top && (forall t :: k.IsReady(t) ==> k.Prio(t) <= s.top)
    requires s.tcb == k.tcb && s.h.Wf() && s.h.container == k.h.container
    ensures Partition(s)
  {}

  lemma SteppedWheel(k: Kernel, s: Kernel)
    requires Wheel(k, k.tick + 1) && s.h.value == k.h.value && s.h.container == k.h.container
    requires s.tick == k.tick && s.delayed == k.delayed && s.overflow == k.overflow && s.nextUnblock == k.nextUnblock
    requires forall m :: k.h.Ordered(m) ==> s.h.Ordered(m)
    ensures Wheel(s, s.tick + 1)
  {}
}
