/** The waiting list of a queue is served by priority, and first come first served among
    equals, as long as tasks join it with the value of their priority and nobody rewrites
    the value of a waiting task. `EventOrderLimits` says where that fails. */
module EventOrder {
  import opened KernelConfig
  import opened KernelLists
  import opened ListHeap
  import opened Scheduler
  import opened SchedulerInvariant
  import opened SchedulerOperations
  import opened SchedulerSteps
  import opened SchedulerRuns
  import opened SchedulerTime
  import opened SchedulerFrames

  /** When each task last joined the list, in order of arrival. */
  datatype Arrivals = Arrivals(stamp: map<Task, nat>, next: nat) {
    function Of(t: Task): nat {
      if t in stamp then stamp[t] else 0
    }
  }

  predicate Ahead(h: Heap, arr: Arrivals, i: Item, j: Item) {
    h.Val(i) < h.Val(j) || (h.Val(i) == h.Val(j) && arr.Of(i.task) < arr.Of(j.task))
  }

  /** Event items of earlier arrivals, none of them borrowed, by value and then by arrival. */
  ghost predicate InOrder(h: Heap, arr: Arrivals, s: seq<Item>) {
    && (forall a :: 0 <= a < |s| ==> s[a].EventItem? && s[a].task in arr.stamp && arr.Of(s[a].task) < arr.next)
    && (forall a :: 0 <= a < |s| ==> h.Val(s[a]) < TICK_MODULUS / 2)
    && (forall a, b :: 0 <= a < b < |s| ==> Ahead(h, arr, s[a], s[b]))
  }

  ghost predicate Fair(h: Heap, arr: Arrivals, l: ListId) {
    InOrder(h, arr, h.Items(l))
  }

  // ----- List operations ------------------------------------------------------------

  lemma SameListSameFairness(h: Heap, g: Heap, arr: Arrivals, l: ListId)
    requires Fair(h, arr, l) && g.Items(l) == h.Items(l)
    requires forall i :: i in h.Items(l) ==> g.Val(i) == h.Val(i)
    ensures Fair(g, arr, l)
  {}

  lemma InOrderWithout(h: Heap, arr: Arrivals, s: seq<Item>, p: nat)
    requires InOrder(h, arr, s) && p < |s|
    ensures InOrder(h, arr, s[..p] + s[p + 1..])
  {}

  lemma FairUnlink(h: Heap, arr: Arrivals, l: ListId, i: Item)
    requires Fair(h, arr, l)
    ensures Fair(h.Unlink(i), arr, l)
  {
    hide InOrder;
    var g := h.Unlink(i);
    if i in h.container && h.container[i] == l && i in h.Items(l) {
      InOrderWithout(h, arr, h.Items(l), Position(h.Items(l), i));
    }
    SameValuesSameOrder(h, g, arr, g.Items(l));
  }

  lemma SameValuesSameOrder(h: Heap, g: Heap, arr: Arrivals, s: seq<Item>)
    requires forall i :: i in s ==> g.Val(i) == h.Val(i)
    ensures InOrder(h, arr, s) ==> InOrder(g, arr, s)
  {}

  lemma FairElsewhere(h: Heap, arr: Arrivals, l: ListId, m: ListId, i: Item, v: nat)
    requires Fair(h, arr, l) && m != l
    ensures Fair(h.LinkEnd(m, i), arr, l)
    ensures Fair(h.LinkSorted(m, i), arr, l)
    ensures Fair(h.Step(m), arr, l)
    ensures i !in h.Items(l) ==> Fair(h.SetValue(i, v), arr, l)
  {
    SameListSameFairness(h, h.LinkEnd(m, i), arr, l);
    SameListSameFairness(h, h.LinkSorted(m, i), arr, l);
    SameListSameFairness(h, h.Step(m), arr, l);
    if i !in h.Items(l) { SameListSameFairness(h, h.SetValue(i, v), arr, l); }
  }

  function Joined(arr: Arrivals, t: Task): Arrivals {
    Arrivals(arr.stamp[t := arr.next], arr.next + 1)
  }

  lemma InOrderJoin(h: Heap, arr: Arrivals, s: seq<Item>, p: nat, t: Task)
    requires InOrder(h, arr, s) && EventItem(t) !in s && p <= |s| && h.Val(EventItem(t)) < TICK_MODULUS / 2
    requires forall a :: 0 <= a < |s| ==> (a < p <==> h.Val(s[a]) <= h.Val(EventItem(t)))
    ensures InOrder(h, Joined(arr, t), s[..p] + [EventItem(t)] + s[p..])
  {
    var n, r := Joined(arr, t), s[..p] + [EventItem(t)] + s[p..];
    assert forall a :: 0 <= a < |r| ==> r[a] == if a == p then EventItem(t) else s[if a < p then a else a - 1];
    forall a | 0 <= a < |s| ensures s[a].task != t && n.Of(s[a].task) == arr.Of(s[a].task) {
      assert s[a] in s && s[a].EventItem?;
    }
    forall a, b | 0 <= a < b < |r| ensures Ahead(h, n, r[a], r[b]) {
      if a != p && b != p {
        assert Ahead(h, arr, s[if a < p then a else a - 1], s[if b < p then b else b - 1]);
      }
    }
  }

  lemma FairIsSorted(h: Heap, arr: Arrivals, l: ListId)
    requires Fair(h, arr, l)
    ensures Sorted(h.Values(l))
  {}

  /** A newcomer goes behind everyone with a value not greater, so behind its equals. */
  lemma FairJoin(h: Heap, arr: Arrivals, l: ListId, t: Task)
    requires Fair(h, arr, l) && EventItem(t) !in h.Items(l) && h.Val(EventItem(t)) < TICK_MODULUS / 2
    ensures Fair(h.LinkSorted(l, EventItem(t)), Joined(arr, t), l)
  {
    hide InOrder;
    var i, s := EventItem(t), h.Items(l);
    var p, g := FirstGreater(h.Values(l), h.Val(i)), h.LinkSorted(l, i);
    FairIsSorted(h, arr, l);
    FirstGreaterSplits(h.Values(l), h.Val(i));
    InOrderJoin(h, arr, s, p, t);
    SameValuesSameOrder(h, g, Joined(arr, t), g.Items(l));
  }

  // ----- Operations -----------------------------------------------------------------

  lemma FairMove(h: Heap, arr: Arrivals, l: ListId, t: Task, m: ListId, wake: nat)
    requires Fair(h, arr, l) && m != l
    ensures Fair(MoveState(h, t, m), arr, l) && Fair(MoveTimed(h, t, wake, m), arr, l)
  {
    hide Fair;
    var u := h.Unlink(StateItem(t));
    FairUnlink(h, arr, l, StateItem(t));
    FairElsewhere(u, arr, l, m, StateItem(t), wake);
    assert StateItem(t) !in u.Items(l) by { OnlyEvents(u, arr, l, t); }
    FairElsewhere(u.SetValue(StateItem(t), wake), arr, l, m, StateItem(t), wake);
  }

  lemma OnlyEvents(h: Heap, arr: Arrivals, l: ListId, t: Task)
    requires Fair(h, arr, l)
    ensures StateItem(t) !in h.Items(l)
  {}

  lemma FairWake(k: Kernel, arr: Arrivals, id: nat, t: Task)
    requires Fair(k.h, arr, EventList(id))
    ensures Fair(ToReady(k, t).h, arr, EventList(id)) && Fair(Wake(k, t).h, arr, EventList(id))
  {
    hide Fair, MoveState;
    FairMove(k.h, arr, EventList(id), t, Ready(k.Prio(t)), 0);
    FairUnlink(k.h, arr, EventList(id), EventItem(t));
    FairMove(k.h.Unlink(EventItem(t)), arr, EventList(id), t, Ready(k.Prio(t)), 0);
  }

  lemma {:induction false} FairWakeAll(k: Kernel, arr: Arrivals, id: nat, ts: seq<Task>)
    requires Fair(k.h, arr, EventList(id))
    ensures Fair(WakeAll(k, ts).h, arr, EventList(id))
    decreases |ts|
  {
    hide Fair, Wake;
    if ts != [] {
      FairWake(k, arr, id, ts[0]);
      FairWakeAll(Wake(k, ts[0]), arr, id, ts[1..]);
    }
  }

  lemma FairTick(k: Kernel, arr: Arrivals, id: nat)
    requires Fair(k.h, arr, EventList(id))
    ensures Fair(IncrementTick(k).h, arr, EventList(id))
  {
    hide Fair, WakeAll, Due;
    FairWakeAll(Advance(k), arr, id, Due(Advance(k)));
  }

  lemma {:induction false} FairReplay(k: Kernel, arr: Arrivals, id: nat, n: nat)
    requires Fair(k.h, arr, EventList(id))
    ensures Fair(Replay(k, n).h, arr, EventList(id))
    decreases n
  {
    hide Fair, IncrementTick, SwitchRequired;
    if 0 < n {
      FairTick(k, arr, id);
      FairReplay(IncrementTick(k).(yieldPending := SwitchRequired(k)), arr, id, n - 1);
    }
  }

  lemma FairResumeAll(k: Kernel, arr: Arrivals, id: nat)
    requires Fair(k.h, arr, EventList(id))
    ensures Fair(ResumeAll(k).h, arr, EventList(id))
  {
    hide Fair, WakeAll, Replay, Pending;
    var r := k.(suspended := if k.suspended == 0 then 0 else k.suspended - 1);
    FairWakeAll(r, arr, id, Pending(r));
    if r.suspended == 0 && r.tasks != 0 {
      FairReplay(Drain(r), arr, id, r.pendedTicks);
    }
  }

  lemma FairBlock(k: Kernel, arr: Arrivals, id: nat, ticks: nat, indefinitely: bool)
    requires Fair(k.h, arr, EventList(id)) && TwoLists(k)
    ensures Fair(Block(k, ticks, indefinitely).h, arr, EventList(id))
  {
    hide Fair, MoveState, MoveTimed;
    var wake := (k.tick + ticks) % TICK_MODULUS;
    FairMove(k.h, arr, EventList(id), k.current, Suspended, wake);
    FairMove(k.h, arr, EventList(id), k.current, k.delayed, wake);
    FairMove(k.h, arr, EventList(id), k.current, k.overflow, wake);
  }

  /** The ghost record of arrivals at list `id`. */
  function Arrived(k: Kernel, arr: Arrivals, op: Op, id: nat): Arrivals {
    if op.WaitOp? && op.id == id then Joined(arr, k.current) else arr
  }

  /** A priority call gives `t` another priority. A call that sets the base priority there
      is, lends no higher priority, or sets the base priority to the inherited one does not. */
  predicate Reprioritises(k: Kernel, op: Op, t: Task) {
    t in k.tcb &&
    match op
    case PrioritySetOp(u, p) => u == t && k.tcb[t].basePriority != Clipped(p)
        && (k.tcb[t].basePriority == k.tcb[t].priority || k.tcb[t].priority != Clipped(p))
    case InheritOp(u) => u == t && k.Prio(t) < k.Prio(k.current)
    case _ => false
  }

  /** A task that joins list `id` finds the value of its priority in its event item; nobody
      gives another priority to a task that waits there; and the list is used in priority
      order only. */
  predicate Calm(k: Kernel, op: Op, id: nat) {
    match op
    case WaitOp(n, _) => n == id ==> k.h.Val(EventItem(k.current)) == EventValue(k.Prio(k.current))
    case PrioritySetOp(t, _) => k.h.In(EventItem(t), EventList(id)) ==> !Reprioritises(k, op, t)
    case InheritOp(t) => k.h.In(EventItem(t), EventList(id)) ==> !Reprioritises(k, op, t)
    case WaitUnorderedOp(n, _, _) => n != id
    case NotifyUnorderedOp(t, _) => !k.h.In(EventItem(t), EventList(id))
    case ResetEventItemValueOp => !k.h.In(EventItem(k.current), EventList(id))
    case _ => true
  }

  /** The event item of everybody on the list carries the priority of its task. */
  ghost predicate WaitersFaithful(k: Kernel, id: nat) {
    forall t :: k.h.In(EventItem(t), EventList(id)) ==> k.h.Val(EventItem(t)) == EventValue(k.Prio(t))
  }

  lemma EventValueIsLow(p: nat)
    ensures EventValue(p) < TICK_MODULUS / 2
  {}

  lemma NotOnList(k: Kernel, id: nat, t: Task)
    requires Partition(k) && (k.IsReady(t) || t !in k.tcb || !k.h.In(EventItem(t), EventList(id)))
    ensures EventItem(t) !in k.h.Items(EventList(id))
  {}

  lemma FairBlocking(k: Kernel, arr: Arrivals, op: Op, id: nat)
    requires Fair(k.h, arr, EventList(id)) && Inv(k) && Enabled(k, op) && Calm(k, op, id)
    requires op.DelayOp? || op.WaitOp? || op.WaitUnorderedOp?
    ensures Fair(Apply(k, op).h, Arrived(k, arr, op, id), EventList(id))
  {
    hide Fair, Block, Inv, InUse, Partition;
    InvBounds(k);
    var l, i := EventList(id), EventItem(k.current);
    NotOnList(k, id, k.current);
    match op {
      case DelayOp(ticks) => FairBlock(k, arr, id, ticks, false);
      case WaitOp(n, ticks) =>
        if n == id {
          EventValueIsLow(k.Prio(k.current));
          FairJoin(k.h, arr, l, k.current);
        } else {
          FairElsewhere(k.h, arr, l, EventList(n), i, 0);
        }
        FairBlock(k.(h := k.h.LinkSorted(EventList(n), i)), Arrived(k, arr, op, id), id, ticks, true);
      case WaitUnorderedOp(n, v, ticks) =>
        FairElsewhere(k.h, arr, l, EventList(n), i, InUse(v));
        FairElsewhere(k.h.SetValue(i, InUse(v)), arr, l, EventList(n), i, 0);
        FairBlock(k.(h := k.h.SetValue(i, InUse(v)).LinkEnd(EventList(n), i)), arr, id, ticks, true);
    }
  }

  lemma FairWaking(k: Kernel, arr: Arrivals, op: Op, id: nat)
    requires Fair(k.h, arr, EventList(id)) && Partition(k) && Calm(k, op, id)
    requires op.NotifyOp? || op.NotifyUnorderedOp? || op.ResumeOp? || op.ResumeFromISROp?
    ensures Fair(Apply(k, op).h, arr, EventList(id))
  {
    hide Fair, Wake, ToReady, InUse, Partition;
    var l := EventList(id);
    match op {
      case NotifyOp(n) =>
        if k.h.Items(EventList(n)) != [] {
          var t := k.h.Items(EventList(n))[0].task;
          FairWake(k, arr, id, t);
          FairUnlink(k.h, arr, l, EventItem(t));
          FairElsewhere(k.h.Unlink(EventItem(t)), arr, l, PendingReady, EventItem(t), 0);
        }
      case NotifyUnorderedOp(t, v) =>
        NotOnList(k, id, t);
        FairElsewhere(k.h, arr, l, PendingReady, EventItem(t), InUse(v));
        FairWake(k.(h := k.h.SetValue(EventItem(t), InUse(v))), arr, id, t);
      case ResumeOp(t) => FairWake(k, arr, id, t);
      case ResumeFromISROp(t) =>
        FairWake(k, arr, id, t);
        FairElsewhere(k.h, arr, l, PendingReady, EventItem(t), 0);
    }
  }

  lemma FairTaskOps(k: Kernel, arr: Arrivals, op: Op, id: nat)
    requires Fair(k.h, arr, EventList(id)) && Inv(k) && Enabled(k, op)
    requires op.CreateOp? || op.DeleteOp? || op.SuspendOp? || op.CleanUpOp?
    ensures Fair(Apply(k, op).h, arr, EventList(id))
  {
    hide Fair, Partition, Wheel, EventValue;
    var l := EventList(id);
    if op.CreateOp? {
      var t, q := op.task, Clipped(op.priority);
      NotOnList(k, id, t);
      FairElsewhere(k.h, arr, l, Ready(q), EventItem(t), EventValue(q));
      FairElsewhere(k.h.SetValue(EventItem(t), EventValue(q)), arr, l, Ready(q), StateItem(t), 0);
    } else if op.CleanUpOp? {
      if k.h.Items(Termination) != [] { FairUnlink(k.h, arr, l, k.h.Items(Termination)[0]); }
    } else {
      var t := op.task;
      FairUnlink(k.h, arr, l, StateItem(t));
      FairUnlink(k.h.Unlink(StateItem(t)), arr, l, EventItem(t));
      var u := k.h.Unlink(StateItem(t)).Unlink(EventItem(t));
      FairElsewhere(u, arr, l, Termination, StateItem(t), 0);
      FairElsewhere(u, arr, l, Suspended, StateItem(t), 0);
    }
  }

  lemma FairRequeued(k: Kernel, n: Kernel, arr: Arrivals, id: nat, t: Task, was: nat)
    requires Fair(n.h, arr, EventList(id))
    ensures Fair(Requeued(n, t, was).h, arr, EventList(id)) && Fair(ToReady(n, t).h, arr, EventList(id))
  {
    hide Fair, ToReady;
    FairWake(n, arr, id, t);
  }

  /** Writing to an event item that is not on the list, or what it carries already. */
  lemma FairWrite(k: Kernel, arr: Arrivals, id: nat, t: Task, v: nat)
    requires Fair(k.h, arr, EventList(id)) && Partition(k)
    requires k.h.In(EventItem(t), EventList(id)) ==> k.h.Val(EventItem(t)) == v
    ensures Fair(k.h.SetValue(EventItem(t), v), arr, EventList(id))
  {
    hide Fair, Partition;
    if k.h.In(EventItem(t), EventList(id)) {
      SameListSameFairness(k.h, k.h.SetValue(EventItem(t), v), arr, EventList(id));
    } else {
      NotOnList(k, id, t);
      FairElsewhere(k.h, arr, EventList(id), PendingReady, EventItem(t), v);
    }
  }

  lemma FairPrioritySet(k: Kernel, arr: Arrivals, t: Task, priority: nat, id: nat)
    requires Fair(k.h, arr, EventList(id)) && Partition(k) && WaitersFaithful(k, id)
    requires Calm(k, PrioritySetOp(t, priority), id)
    ensures Fair(PrioritySet(k, t, priority).h, arr, EventList(id))
  {
    hide Fair, Requeued, Partition, EventValue;
    var p := Clipped(priority);
    if t in k.tcb && k.tcb[t].basePriority != p {
      var was := k.tcb[t];
      var n := SetEventPriority(SetTcb(k, t, was.(basePriority := p,
        priority := if was.basePriority == was.priority then p else was.priority)), t, p);
      FairWrite(k, arr, id, t, EventValue(p));
      FairRequeued(k, n, arr, id, t, was.priority);
    }
  }

  lemma FairInherit(k: Kernel, arr: Arrivals, t: Task, id: nat)
    requires Fair(k.h, arr, EventList(id)) && Partition(k) && Calm(k, InheritOp(t), id)
    ensures Fair(Inherit(k, t).h, arr, EventList(id))
  {
    hide Fair, Requeued, Partition, EventValue;
    if t in k.tcb && k.Prio(t) < k.Prio(k.current) {
      var was := k.tcb[t];
      var n := SetTcb(SetEventPriority(k, t, k.Prio(k.current)), t, was.(priority := k.Prio(k.current)));
      FairWrite(k, arr, id, t, EventValue(k.Prio(k.current)));
      FairRequeued(k, n, arr, id, t, was.priority);
    }
  }

  lemma FairRunningOps(k: Kernel, arr: Arrivals, op: Op, id: nat)
    requires Fair(k.h, arr, EventList(id)) && Partition(k) && Enabled(k, op) && Calm(k, op, id)
    requires op.DisinheritOp? || op.ResetEventItemValueOp? || op.SwitchOp? || op.HoldMutexOp? || op.SuspendAllOp?
    ensures Fair(Apply(k, op).h, arr, EventList(id))
  {
    hide Fair, ToReady, Partition, EventValue, HighestLevel;
    var t := k.current;
    if op.SwitchOp? {
      FairElsewhere(k.h, arr, EventList(id), Ready(HighestLevel(k.h, k.top)), EventItem(t), 0);
    } else if op.ResetEventItemValueOp? {
      NotOnList(k, id, t);
      FairElsewhere(k.h, arr, EventList(id), PendingReady, EventItem(t), EventValue(k.Prio(t)));
    } else if op.DisinheritOp? {
      NotOnList(k, id, t);
      var held := k.tcb[t].(mutexesHeld := k.tcb[t].mutexesHeld - 1);
      var n := SetTcb(k, t, held.(priority := held.basePriority));
      FairElsewhere(k.h, arr, EventList(id), PendingReady, EventItem(t), EventValue(held.basePriority));
      FairWake(n.(h := n.h.SetValue(EventItem(t), EventValue(held.basePriority))), arr, id, t);
    }
  }

  lemma StepKeepsFair(k: Kernel, arr: Arrivals, op: Op, id: nat)
    requires Fair(k.h, arr, EventList(id)) && Sound(k) && Enabled(k, op) && Calm(k, op, id)
    requires WaitersFaithful(k, id)
    ensures Fair(Apply(k, op).h, Arrived(k, arr, op, id), EventList(id))
  {
    hide Fair, Inv, IncrementTick, ResumeAll, WaitersFaithful, PrioritySet, Inherit;
    InvBounds(k);
    match op {
      case TickOp => FairTick(k, arr, id);
      case ResumeAllOp => FairResumeAll(k, arr, id);
      case DelayOp(_) => FairBlocking(k, arr, op, id);
      case WaitOp(_, _) => FairBlocking(k, arr, op, id);
      case WaitUnorderedOp(_, _, _) => FairBlocking(k, arr, op, id);
      case NotifyOp(_) => FairWaking(k, arr, op, id);
      case NotifyUnorderedOp(_, _) => FairWaking(k, arr, op, id);
      case ResumeOp(_) => FairWaking(k, arr, op, id);
      case ResumeFromISROp(_) => FairWaking(k, arr, op, id);
      case CreateOp(_, _) => FairTaskOps(k, arr, op, id);
      case DeleteOp(_) => FairTaskOps(k, arr, op, id);
      case SuspendOp(_) => FairTaskOps(k, arr, op, id);
      case CleanUpOp => FairTaskOps(k, arr, op, id);
      case PrioritySetOp(t, p) => FairPrioritySet(k, arr, t, p, id);
      case InheritOp(t) => FairInherit(k, arr, t, id);
      case _ => FairRunningOps(k, arr, op, id);
    }
  }

  // ----- Values and priorities ------------------------------------------------------

  /** An event item that is not borrowed carries the priority its task runs at. */
  ghost predicate Faithful(k: Kernel) {
    forall t :: t in k.tcb && k.h.Val(EventItem(t)) < TICK_MODULUS / 2 ==>
      k.h.Val(EventItem(t)) == EventValue(k.tcb[t].priority)
  }

  /** vTaskPrioritySet writes the new base priority into an event item that is not borrowed,
      even when the task goes on at an inherited priority. The value is still that of the
      running priority when these two agree. */
  predicate WritesRunningPriority(k: Kernel, op: Op) {
    op.PrioritySetOp? && op.task in k.tcb && k.h.Val(EventItem(op.task)) < TICK_MODULUS / 2 ==>
      var q, p := k.tcb[op.task], Clipped(op.priority);
      q.basePriority == q.priority || p == q.basePriority || p == q.priority
  }

  /** The event item values of all tasks are untouched. */
  ghost predicate SameEventValues(k: Kernel, w: Kernel) {
    forall t :: w.h.Val(EventItem(t)) == k.h.Val(EventItem(t))
  }

  lemma {:induction false} ReplayValues(k: Kernel, n: nat)
    ensures Replay(k, n).h.value == k.h.value
    decreases n
  {
    hide IncrementTick, SwitchRequired;
    if 0 < n {
      TickValues(k);
      ReplayValues(IncrementTick(k).(yieldPending := SwitchRequired(k)), n - 1);
    }
  }

  lemma TickValues(k: Kernel)
    ensures IncrementTick(k).h.value == k.h.value
  {
    hide WakeAll, Due;
    WakeAllFrame(Advance(k), Due(Advance(k)));
  }

  lemma ResumeAllValues(k: Kernel)
    ensures ResumeAll(k).h.value == k.h.value
  {
    hide WakeAll, Replay, Pending;
    var r := k.(suspended := if k.suspended == 0 then 0 else k.suspended - 1);
    WakeAllFrame(r, Pending(r));
    ReplayValues(Drain(r), r.pendedTicks);
  }

  predicate TouchesValues(op: Op) {
    op.WaitUnorderedOp? || op.NotifyUnorderedOp? || op.CreateOp? || op.PrioritySetOp? || op.InheritOp?
    || op.DisinheritOp? || op.ResetEventItemValueOp?
  }

  lemma RequeuedValues(k: Kernel, t: Task, was: nat)
    ensures Requeued(k, t, was).h.value == k.h.value && ToReady(k, t).h.value == k.h.value
  {}

  lemma BlockValues(k: Kernel, ticks: nat, indefinitely: bool)
    ensures forall t :: Block(k, ticks, indefinitely).h.Val(EventItem(t)) == k.h.Val(EventItem(t))
  {
    hide KList.InsertEnd, KList.Remove, FirstGreater;
  }

  lemma WakingValues(k: Kernel, op: Op)
    requires op.NotifyOp? || op.ResumeOp? || op.ResumeFromISROp?
    ensures Apply(k, op).h.value == k.h.value
  {
    hide ToReady;
    match op {
      case NotifyOp(id) =>
        if k.h.Items(EventList(id)) != [] {
          var t := k.h.Items(EventList(id))[0].task;
          RequeuedValues(k.(h := k.h.Unlink(EventItem(t))), t, 0);
        }
      case ResumeOp(t) => RequeuedValues(k, t, 0);
      case ResumeFromISROp(t) => RequeuedValues(k, t, 0);
    }
  }

  lemma QuietValues(k: Kernel, op: Op)
    requires op.SuspendAllOp? || op.DeleteOp? || op.CleanUpOp? || op.SuspendOp? || op.HoldMutexOp? || op.SwitchOp?
    ensures Apply(k, op).h.value == k.h.value
  {
    hide HighestLevel, Heap.Unlink, Heap.LinkEnd;
    if op.DeleteOp? || op.SuspendOp? {
      TakenOutContainers(k.h, op.task);
      PutAwayContainers(k.h, op.task, Termination);
      PutAwayContainers(k.h, op.task, Suspended);
    } else if op.CleanUpOp? && k.h.Items(Termination) != [] {
      RestingContainers(k.h, k.h.Items(Termination)[0]);
    }
  }

  lemma EventValuesFrame(k: Kernel, op: Op)
    requires !TouchesValues(op)
    ensures SameEventValues(k, Apply(k, op))
  {
    hide IncrementTick, ResumeAll, Block, RemoveFromEventList, Resume, ResumeFromISR, Delete, CleanUp, Suspend;
    hide SwitchContext, HoldMutex, SuspendAll;
    match op {
      case TickOp => TickValues(k);
      case ResumeAllOp => ResumeAllValues(k);
      case DelayOp(ticks) => BlockValues(k, ticks, false);
      case WaitOp(id, ticks) =>
        BlockValues(k.(h := k.h.LinkSorted(EventList(id), EventItem(k.current))), ticks, true);
      case NotifyOp(_) => WakingValues(k, op);
      case ResumeOp(_) => WakingValues(k, op);
      case ResumeFromISROp(_) => WakingValues(k, op);
      case _ => QuietValues(k, op);
    }
  }

  lemma PrioritySetValues(k: Kernel, t: Task, priority: nat)
    ensures var w, p, i := PrioritySet(k, t, priority), Clipped(priority), EventItem(t);
            w.h.value == (if t in k.tcb && k.tcb[t].basePriority != p && k.h.Val(i) < TICK_MODULUS / 2
                          then k.h.value[i := EventValue(p)] else k.h.value)
  {
    hide Requeued, EventValue;
    var p := Clipped(priority);
    if t in k.tcb && k.tcb[t].basePriority != p {
      var was := k.tcb[t];
      RequeuedValues(SetEventPriority(SetTcb(k, t, was.(basePriority := p,
        priority := if was.basePriority == was.priority then p else was.priority)), t, p), t, was.priority);
    }
  }

  /** Exactly then does it leave all event items with the priorities of their tasks. */
  lemma PrioritySetFaithfulExactly(k: Kernel, t: Task, priority: nat)
    requires Faithful(k) && InRange(k)
    ensures Faithful(PrioritySet(k, t, priority)) <==> WritesRunningPriority(k, PrioritySetOp(t, priority))
  {
    hide PrioritySet, EventValue;
    var w, p := PrioritySet(k, t, priority), Clipped(priority);
    PrioritySetEffect(k, t, priority);
    PrioritySetValues(k, t, priority);
    EventValueIsLow(p);
    if t in k.tcb {
      ByPriority(p, k.tcb[t].priority);
      assert w.tcb[t].priority == k.tcb[t].priority || w.tcb[t].priority == p;
    }
  }

  lemma InheritFaithful(k: Kernel, t: Task)
    requires Faithful(k)
    ensures Faithful(Inherit(k, t))
  {
    hide Requeued, EventValue;
    InheritEffect(k, t);
    if t in k.tcb && k.Prio(t) < k.Prio(k.current) {
      var n := SetTcb(SetEventPriority(k, t, k.Prio(k.current)), t, k.tcb[t].(priority := k.Prio(k.current)));
      RequeuedValues(n, t, k.tcb[t].priority);
    }
  }

  lemma DisinheritFaithful(k: Kernel)
    requires Faithful(k) && k.current in k.tcb && 0 < k.tcb[k.current].mutexesHeld
    ensures Faithful(Disinherit(k))
  {
    hide ToReady, EventValue;
    DisinheritEffect(k);
    var t := k.current;
    var held := k.tcb[t].(mutexesHeld := k.tcb[t].mutexesHeld - 1);
    if held.priority != held.basePriority && held.mutexesHeld == 0 {
      var n := SetTcb(k, t, held.(priority := held.basePriority));
      RequeuedValues(n.(h := n.h.SetValue(EventItem(t), EventValue(held.basePriority))), t, 0);
    }
  }

  lemma BorrowingFaithful(k: Kernel, op: Op)
    requires Faithful(k) && TwoLists(k) && (op.WaitUnorderedOp? || op.NotifyUnorderedOp?)
    ensures Faithful(Apply(k, op))
  {
    hide ToReady, Block, EventValue, InUse;
    InUseIsHigh(op.value);
    if op.WaitUnorderedOp? {
      BlockingOpsLeaveAlive(k, op);
      var i := EventItem(k.current);
      BlockValues(k.(h := k.h.SetValue(i, InUse(op.value)).LinkEnd(EventList(op.id), i)), op.ticks, true);
    } else {
      WakingOpsLeaveAlive(k, op);
      var m := k.(h := k.h.SetValue(EventItem(op.task), InUse(op.value)));
      RequeuedValues(m.(h := m.h.Unlink(EventItem(op.task))), op.task, 0);
    }
  }

  lemma InUseIsHigh(v: nat)
    ensures TICK_MODULUS / 2 <= InUse(v)
  {}

  lemma CreateFaithful(k: Kernel, t: Task, priority: nat)
    requires Faithful(k)
    ensures Faithful(Create(k, t, priority))
  {}

  lemma UntouchedPriorities(k: Kernel, op: Op)
    requires Sound(k) && Enabled(k, op) && !TouchesValues(op)
    ensures var w := Apply(k, op);
            forall t :: t in w.tcb ==> t in k.tcb && w.tcb[t].priority == k.tcb[t].priority
  {
    hide Apply, Inv, Enabled;
    InvBounds(k);
    if op.DeleteOp? {
      TaskOpsEffect(k, op);
    } else if op.CleanUpOp? {
      CleanUpEffect(k);
      assert Apply(k, op) == CleanUp(k) by { CleanUpIsOp(k); }
    } else if op.HoldMutexOp? {
      HoldMutexPriorities(k);
    } else {
      TcbFrame(k, op);
    }
  }

  lemma UntouchedFaithful(k: Kernel, op: Op)
    requires Faithful(k) && Sound(k) && Enabled(k, op) && !TouchesValues(op)
    ensures Faithful(Apply(k, op))
  {
    hide Apply, Inv, Enabled, EventValue;
    EventValuesFrame(k, op);
    UntouchedPriorities(k, op);
  }

  lemma CleanUpIsOp(k: Kernel)
    ensures Apply(k, CleanUpOp) == CleanUp(k)
  {}

  lemma HoldMutexPriorities(k: Kernel)
    ensures var w := Apply(k, HoldMutexOp);
            w.tcb.Keys == k.tcb.Keys && forall t :: t in k.tcb ==> w.tcb[t].priority == k.tcb[t].priority
  {}

  lemma StepKeepsFaithful(k: Kernel, op: Op)
    requires Faithful(k) && InRange(k) && Sound(k) && Enabled(k, op) && WritesRunningPriority(k, op)
    ensures Faithful(Apply(k, op))
  {
    hide Inv, Faithful, InRange, PrioritySet, Inherit, Disinherit, Create;
    InvBounds(k);
    match op {
      case PrioritySetOp(t, p) => PrioritySetFaithfulExactly(k, t, p);
      case InheritOp(t) => InheritFaithful(k, t);
      case DisinheritOp => DisinheritFaithful(k);
      case WaitUnorderedOp(_, _, _) => BorrowingFaithful(k, op);
      case NotifyUnorderedOp(_, _) => BorrowingFaithful(k, op);
      case CreateOp(t, p) => CreateFaithful(k, t, p);
      case ResetEventItemValueOp => ResetFaithful(k);
      case _ => UntouchedFaithful(k, op);
    }
  }

  lemma ResetFaithful(k: Kernel)
    requires Faithful(k)
    ensures Faithful(ResetEventItemValue(k))
  {}

  // ----- Values of waiters ----------------------------------------------------------

  /** The task whose value or priority an operation writes. */
  function Subject(k: Kernel, op: Op): Task
    requires TouchesValues(op)
  {
    match op
    case NotifyUnorderedOp(t, _) => t
    case CreateOp(t, _) => t
    case PrioritySetOp(t, _) => t
    case InheritOp(t) => t
    case WaitUnorderedOp(_, _, _) => k.current
    case DisinheritOp => k.current
    case ResetEventItemValueOp => k.current
  }

  ghost predicate SamePriorityAndValue(k: Kernel, w: Kernel, t: Task) {
    w.h.Val(EventItem(t)) == k.h.Val(EventItem(t)) && w.Prio(t) == k.Prio(t)
  }

  lemma InheritValues(k: Kernel, t: Task)
    ensures var w, i := Inherit(k, t), EventItem(t);
            w.h.value == (if t in k.tcb && k.Prio(t) < k.Prio(k.current) && k.h.Val(i) < TICK_MODULUS / 2
                          then k.h.value[i := EventValue(k.Prio(k.current))] else k.h.value)
  {
    hide Requeued, EventValue;
    if t in k.tcb && k.Prio(t) < k.Prio(k.current) {
      var was := k.tcb[t];
      RequeuedValues(SetTcb(SetEventPriority(k, t, k.Prio(k.current)), t, was.(priority := k.Prio(k.current))), t,
        was.priority);
    }
  }

  lemma DisinheritValues(k: Kernel, u: Task)
    requires u != k.current
    ensures SamePriorityAndValue(k, Disinherit(k), u)
  {
    hide EventValue;
  }

  lemma OnlySubjectTouched(k: Kernel, op: Op, u: Task)
    requires TwoLists(k) && TouchesValues(op) && u != Subject(k, op)
    ensures SamePriorityAndValue(k, Apply(k, op), u)
  {
    hide Requeued, ToReady, Block, EventValue, InUse, PrioritySet, Inherit, Disinherit;
    match op {
      case WaitUnorderedOp(id, v, ticks) =>
        BlockingOpsLeaveAlive(k, op);
        var i := EventItem(k.current);
        BlockValues(k.(h := k.h.SetValue(i, InUse(v)).LinkEnd(EventList(id), i)), ticks, true);
      case NotifyUnorderedOp(t, v) =>
        WakingOpsLeaveAlive(k, op);
        var m := k.(h := k.h.SetValue(EventItem(t), InUse(v)));
        RequeuedValues(m.(h := m.h.Unlink(EventItem(t))), t, 0);
      case CreateOp(_, _) => {}
      case PrioritySetOp(t, p) =>
        PrioritySetEffect(k, t, p);
        PrioritySetValues(k, t, p);
      case InheritOp(t) =>
        InheritEffect(k, t);
        InheritValues(k, t);
      case DisinheritOp => DisinheritValues(k, u);
      case ResetEventItemValueOp => {}
    }
  }

  /** A task that waits on the list is not the one an operation writes to, unless that is a
      priority call, and then the call leaves its priority and value as they are. */
  lemma WaiterIsLeftAlone(k: Kernel, op: Op, id: nat, t: Task)
    requires Sound(k) && Enabled(k, op) && Calm(k, op, id) && WaitersFaithful(k, id)
    requires k.h.In(EventItem(t), EventList(id)) && t in Apply(k, op).tcb
    ensures SamePriorityAndValue(k, Apply(k, op), t)
  {
    hide Apply, Inv, Enabled, Calm, WaitersFaithful, Partition, Subject;
    InvBounds(k);
    if !TouchesValues(op) {
      EventValuesFrame(k, op);
      UntouchedPriorities(k, op);
    } else if t != Subject(k, op) {
      OnlySubjectTouched(k, op, t);
    } else {
      WrittenWaiter(k, op, id, t);
      PriorityCallLeavesAlone(k, op, id, t);
    }
  }

  lemma PriorityCallLeavesAlone(k: Kernel, op: Op, id: nat, t: Task)
    requires Calm(k, op, id) && WaitersFaithful(k, id) && k.h.In(EventItem(t), EventList(id))
    requires (op.PrioritySetOp? || op.InheritOp?) && op.task == t
    ensures SamePriorityAndValue(k, Apply(k, op), t)
  {
    hide PrioritySet, Inherit, EventValue;
    if op.PrioritySetOp? {
      PrioritySetEffect(k, t, op.priority);
      PrioritySetValues(k, t, op.priority);
    } else {
      InheritEffect(k, t);
      InheritValues(k, t);
    }
  }

  lemma WrittenWaiter(k: Kernel, op: Op, id: nat, t: Task)
    requires Partition(k) && Enabled(k, op) && Calm(k, op, id) && TouchesValues(op)
    requires t == Subject(k, op) && k.h.In(EventItem(t), EventList(id))
    ensures (op.PrioritySetOp? || op.InheritOp?) && op.task == t
  {
    assert !k.IsReady(t) && t in k.tcb;
  }

  /** The arrivals that are still on the list. */
  ghost function Present(k: Kernel, arr: Arrivals, id: nat): Arrivals {
    Arrivals(map t | t in arr.stamp && k.h.In(EventItem(t), EventList(id)) :: arr.stamp[t], arr.next)
  }

  lemma PresentIsFair(k: Kernel, arr: Arrivals, id: nat)
    requires Fair(k.h, arr, EventList(id)) && k.h.Wf()
    ensures Fair(k.h, Present(k, arr, id), EventList(id))
  {
    var s, now := k.h.Items(EventList(id)), Present(k, arr, id);
    forall a | 0 <= a < |s| ensures s[a].task in now.stamp && now.Of(s[a].task) == arr.Of(s[a].task) {
      assert s[a] in s && s[a] == EventItem(s[a].task);
    }
  }

  /** Nobody gets on the list but by waiting on it. */
  lemma NobodyElseJoins(k: Kernel, arr: Arrivals, op: Op, id: nat, t: Task)
    requires Fair(k.h, arr, EventList(id)) && Sound(k) && Enabled(k, op) && Calm(k, op, id)
    requires WaitersFaithful(k, id) && Apply(k, op).h.In(EventItem(t), EventList(id))
    ensures k.h.In(EventItem(t), EventList(id)) || (op.WaitOp? && op.id == id && t == k.current)
    ensures t in Apply(k, op).tcb
  {
    hide Apply, Inv, Enabled, Calm, WaitersFaithful, Partition;
    var w := Apply(k, op);
    InvBounds(k);
    StepKeepsInv(k, op);
    InvBounds(w);
    assert k.h.Wf() && w.h.Wf() && t in w.tcb by { WaitersExist(k); WaitersExist(w); }
    PresentIsFair(k, arr, id);
    StepKeepsFair(k, Present(k, arr, id), op, id);
    assert EventItem(t) in w.h.Items(EventList(id));
    assert t in Arrived(k, Present(k, arr, id), op, id).stamp;
  }

  lemma WaitersExist(k: Kernel)
    requires Partition(k)
    ensures k.h.Wf() && forall t :: EventItem(t) in k.h.container ==> t in k.tcb
  {}

  lemma StepKeepsWaitersFaithful(k: Kernel, arr: Arrivals, op: Op, id: nat)
    requires Fair(k.h, arr, EventList(id)) && Sound(k) && Enabled(k, op) && Calm(k, op, id)
    requires WaitersFaithful(k, id)
    ensures WaitersFaithful(Apply(k, op), id)
  {
    hide Apply, Inv, Enabled, EventValue, Fair;
    var w := Apply(k, op);
    forall t | w.h.In(EventItem(t), EventList(id)) ensures w.h.Val(EventItem(t)) == EventValue(w.Prio(t)) {
      NobodyElseJoins(k, arr, op, id, t);
      if k.h.In(EventItem(t), EventList(id)) {
        WaiterIsLeftAlone(k, op, id, t);
      } else {
        EventValuesFrame(k, op);
        UntouchedPriorities(k, op);
      }
    }
  }

  // ----- Service by priority --------------------------------------------------------

  lemma ByPriority(p: nat, q: nat)
    requires p < MAX_PRIORITIES && q < MAX_PRIORITIES
    ensures EventValue(p) < EventValue(q) <==> q < p
    ensures EventValue(p) == EventValue(q) <==> p == q
  {}

  /** The task that xTaskRemoveFromEventList releases has the greatest priority of all that
      wait, and of those with the same priority it has waited longest. */
  lemma BestWaiterIsServed(k: Kernel, arr: Arrivals, id: nat)
    requires Partition(k) && InRange(k) && Fair(k.h, arr, EventList(id)) && WaitersFaithful(k, id)
        && k.h.Items(EventList(id)) != []
    ensures var t := k.h.Items(EventList(id))[0].task;
            && k.h.In(EventItem(t), EventList(id))
            && (forall u :: u != t && k.h.In(EventItem(u), EventList(id)) ==>
                 k.Prio(u) < k.Prio(t) || (k.Prio(u) == k.Prio(t) && arr.Of(t) < arr.Of(u)))
  {
    hide EventValue;
    var s := k.h.Items(EventList(id));
    var t := s[0].task;
    assert s[0] in s && s[0] == EventItem(t) && t in k.tcb;
    forall u | u != t && k.h.In(EventItem(u), EventList(id))
      ensures k.Prio(u) < k.Prio(t) || (k.Prio(u) == k.Prio(t) && arr.Of(t) < arr.Of(u))
    {
      assert EventItem(u) in s && u in k.tcb;
      var b := Position(s, EventItem(u));
      assert Ahead(k.h, arr, s[0], s[b]);
      ByPriority(k.tcb[t].priority, k.tcb[u].priority);
    }
  }

  predicate CalmRun(k: Kernel, ops: seq<Op>, id: nat)
    decreases |ops|
  {
    ops == [] || (Enabled(k, ops[0]) && Calm(k, ops[0], id) && CalmRun(Apply(k, ops[0]), ops[1..], id))
  }

  function AllArrived(k: Kernel, arr: Arrivals, ops: seq<Op>, id: nat): Arrivals
    decreases |ops|
  {
    if ops == [] then arr else AllArrived(Apply(k, ops[0]), Arrived(k, arr, ops[0], id), ops[1..], id)
  }

  lemma {:induction false} RunKeepsOrder(k: Kernel, arr: Arrivals, ops: seq<Op>, id: nat)
    requires Sound(k) && InRange(k) && CalmRun(k, ops, id)
    requires WaitersFaithful(k, id) && Fair(k.h, arr, EventList(id))
    ensures var e := Run(k, ops);
            && Sound(e) && InRange(e)
            && WaitersFaithful(e, id) && Fair(e.h, AllArrived(k, arr, ops, id), EventList(id))
    decreases |ops|
  {
    hide Sound, InRange, WaitersFaithful, Fair, Apply, Enabled, Calm, Arrived;
    if ops != [] {
      StepKeepsInv(k, ops[0]);
      StepKeepsRange(k, ops[0]);
      StepKeepsWaitersFaithful(k, arr, ops[0], id);
      StepKeepsFair(k, arr, ops[0], id);
      RunKeepsOrder(Apply(k, ops[0]), Arrived(k, arr, ops[0], id), ops[1..], id);
    }
  }

  /** From the start of the scheduler, over any run in which tasks join with the value of
      their priority and waiting tasks keep theirs. */
  lemma WaitersWakeByPriority(ops: seq<Op>, id: nat)
    requires CalmRun(Boot(), ops, id)
    ensures var e, arr := Run(Boot(), ops), AllArrived(Boot(), Arrivals(map[], 0), ops, id);
            e.h.Items(EventList(id)) != [] ==>
              var t := e.h.Items(EventList(id))[0].task;
              forall u :: u != t && e.h.In(EventItem(u), EventList(id)) ==>
                e.Prio(u) < e.Prio(t) || (e.Prio(u) == e.Prio(t) && arr.Of(t) < arr.Of(u))
  {
    hide Run, CalmRun, AllArrived, Inv;
    var arr := Arrivals(map[], 0);
    BootIsSound();
    assert WaitersFaithful(Boot(), id) && Fair(Boot().h, arr, EventList(id));
    RunKeepsOrder(Boot(), arr, ops, id);
    var e := Run(Boot(), ops);
    if e.h.Items(EventList(id)) != [] {
      InvBounds(e);
      BestWaiterIsServed(e, AllArrived(Boot(), arr, ops, id), id);
    }
  }

  /** No base priority is set in the way that spoils an event item. */
  predicate Scrupulous(k: Kernel, ops: seq<Op>)
    decreases |ops|
  {
    ops == [] ||
    (Enabled(k, ops[0]) && WritesRunningPriority(k, ops[0]) && Scrupulous(Apply(k, ops[0]), ops[1..]))
  }

  lemma {:induction false} RunKeepsFaithful(k: Kernel, ops: seq<Op>)
    requires Sound(k) && InRange(k) && Faithful(k) && Scrupulous(k, ops)
    ensures Sound(Run(k, ops)) && Faithful(Run(k, ops))
    decreases |ops|
  {
    hide Sound, InRange, Faithful, Apply, Enabled, WritesRunningPriority;
    if ops != [] {
      StepKeepsInv(k, ops[0]);
      StepKeepsRange(k, ops[0]);
      StepKeepsFaithful(k, ops[0]);
      RunKeepsFaithful(Apply(k, ops[0]), ops[1..]);
    }
  }

  /** Over such runs every task that joins a list with an item that is not borrowed finds the
      value of its priority there. */
  lemma JoinersAreFaithful(ops: seq<Op>)
    requires Scrupulous(Boot(), ops)
    ensures var e := Run(Boot(), ops);
            e.h.Val(EventItem(e.current)) < TICK_MODULUS / 2 ==>
              e.h.Val(EventItem(e.current)) == EventValue(e.Prio(e.current))
  {
    hide Run, Scrupulous, Inv, EventValue;
    BootIsSound();
    assert Faithful(Boot());
    RunKeepsFaithful(Boot(), ops);
    InvBounds(Run(Boot(), ops));
    CurrentExists(Run(Boot(), ops));
  }

  lemma CurrentExists(k: Kernel)
    requires Inv(k)
    ensures k.current in k.tcb
  {}
}
