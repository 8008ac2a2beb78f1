/** Every run of the scheduler keeps the invariant, and there is always a task to run. */
module SchedulerRuns {
  import opened KernelConfig
  import opened KernelLists
  import opened ListHeap
  import opened Scheduler
  import opened SchedulerInvariant
  import opened SchedulerSteps
  import opened SchedulerOperations
  import opened SchedulerTasks

  /** The idle task, which never blocks and is never suspended or deleted. */
  const IDLE: Task := 0

  /** One critical section of a task, of an interrupt or of the scheduler. */
  datatype Op =
    | TickOp
    | SuspendAllOp
    | ResumeAllOp
    | DelayOp(ticks: nat)
    | WaitOp(id: nat, ticks: nat)
    | WaitUnorderedOp(id: nat, value: nat, ticks: nat)
    | NotifyOp(id: nat)
    | NotifyUnorderedOp(task: Task, value: nat)
    | CreateOp(task: Task, priority: nat)
    | DeleteOp(task: Task)
    | CleanUpOp
    | SuspendOp(task: Task)
    | ResumeOp(task: Task)
    | ResumeFromISROp(task: Task)
    | PrioritySetOp(task: Task, priority: nat)
    | InheritOp(task: Task)
    | DisinheritOp
    | HoldMutexOp
    | ResetEventItemValueOp
    | SwitchOp

  /** What the source asserts or asks of its callers. A blocking or deleting call is made by
      the running task, on a task that has not been deleted already. */
  predicate Enabled(k: Kernel, op: Op) {
    match op
    case ResumeAllOp => 0 < k.suspended
    case DelayOp(ticks) => k.IsReady(k.current) && k.current != IDLE && 0 < ticks < TICK_MODULUS
    case WaitOp(_, ticks) => k.IsReady(k.current) && k.current != IDLE && 0 < ticks < TICK_MODULUS
    case WaitUnorderedOp(_, _, ticks) =>
      k.IsReady(k.current) && k.current != IDLE && 0 < ticks < TICK_MODULUS && 0 < k.suspended
    case NotifyUnorderedOp(t, _) => 0 < k.suspended && t != IDLE && k.OnEvent(t)
        && k.h.container[EventItem(t)].EventList?
    case CreateOp(t, _) => t !in k.tcb
    case DeleteOp(t) => t in k.tcb && t != IDLE && !k.Is(t, Termination) && (t == k.current ==> k.suspended == 0)
    case SuspendOp(t) => t in k.tcb && t != IDLE && !k.Is(t, Termination) && (t == k.current ==> k.suspended == 0)
    case CleanUpOp => k.current == IDLE
    case DisinheritOp => k.IsReady(k.current) && k.current in k.tcb && 0 < k.tcb[k.current].mutexesHeld
    case _ => true
  }

  function Apply(k: Kernel, op: Op): Kernel {
    match op
    case TickOp => TickInterrupt(k)
    case SuspendAllOp => SuspendAll(k)
    case ResumeAllOp => ResumeAll(k)
    case DelayOp(ticks) => Block(k, ticks, false)
    case WaitOp(id, ticks) => BlockOnEvent(k, id, ticks)
    case WaitUnorderedOp(id, v, ticks) => BlockOnUnordered(k, id, v, ticks)
    case NotifyOp(id) => RemoveFromEventList(k, id)
    case NotifyUnorderedOp(t, v) => RemoveFromUnordered(k, t, v)
    case CreateOp(t, p) => Create(k, t, p)
    case DeleteOp(t) => Delete(k, t)
    case CleanUpOp => CleanUp(k)
    case SuspendOp(t) => Suspend(k, t)
    case ResumeOp(t) => Resume(k, t)
    case ResumeFromISROp(t) => ResumeFromISR(k, t)
    case PrioritySetOp(t, p) => PrioritySet(k, t, p)
    case InheritOp(t) => Inherit(k, t)
    case DisinheritOp => Disinherit(k)
    case HoldMutexOp => HoldMutex(k)
    case ResetEventItemValueOp => ResetEventItemValue(k)
    case SwitchOp => SwitchContext(k)
  }

  /** The scheduler just started, with the idle task alone. */
  function Boot(): Kernel {
    Kernel(
      Heap(map[], map[], map[EventItem(IDLE) := EventValue(0)]).LinkEnd(Ready(0), StateItem(IDLE)),
        map[IDLE := Tcb(0, 0, 0)],
      DelayedA, DelayedB, 0, 0, MAX_DELAY, 0, 0, false, 0, IDLE, 1, 0)
  }

  ghost predicate Sound(k: Kernel) {
    Inv(k) && k.IsReady(IDLE)
  }

  function Run(k: Kernel, ops: seq<Op>): Kernel
    decreases |ops|
  {
    if ops == [] then k else Run(Apply(k, ops[0]), ops[1..])
  }

  predicate Permitted(k: Kernel, ops: seq<Op>)
    decreases |ops|
  {
    ops == [] || (Enabled(k, ops[0]) && Permitted(Apply(k, ops[0]), ops[1..]))
  }

  lemma BootFacts()
    ensures var k := Boot();
            && k.h.Wf() && k.h.container == map[StateItem(IDLE) := Ready(0)] && k.tcb == map[IDLE := Tcb(0, 0, 0)]
            && (forall m :: m != Ready(0) ==> k.h.At(m) == KList([], 0))
            && k == Kernel(k.h, k.tcb, DelayedA, DelayedB, 0, 0, MAX_DELAY, 0, 0, false, 0, IDLE, 1, 0)
  {}

  /** Any state with the idle task alone, ready, and all other lists empty. */
  lemma IdleAloneIsSound(k: Kernel)
    requires k.h.Wf() && k.h.container == map[StateItem(IDLE) := Ready(0)] && k.tcb == map[IDLE := Tcb(0, 0, 0)]
    requires forall m :: m != Ready(0) ==> k.h.At(m) == KList([], 0)
    requires k == Kernel(k.h, k.tcb, DelayedA, DelayedB, 0, 0, MAX_DELAY, 0, 0, false, 0, IDLE, 1, 0)
    ensures Partition(k) && Wheel(k, k.tick + 1) && Counts(k) && Deferral(k) && k.IsReady(IDLE)
  {
    assert k.h.Items(DelayedA) == [] && k.h.Items(DelayedB) == [];
    assert k.h.Ordered(DelayedA) && k.h.Ordered(DelayedB);
  }

  lemma BootIsSound()
    ensures Sound(Boot())
  {
    BootFacts();
    hide Boot, Partition, Wheel, Counts, Deferral;
    IdleAloneIsSound(Boot());
  }

  // ----- The idle task stays ready --------------------------------------------------

  lemma {:induction false} WakingLeavesReady(k: Kernel, ts: seq<Task>, u: Task)
    requires k.IsReady(u)
    ensures WakeAll(k, ts).IsReady(u)
    decreases |ts|
  {
    if ts != [] {
      WakingLeavesReady(Wake(k, ts[0]), ts[1..], u);
    }
  }

  lemma TickLeavesReady(k: Kernel, u: Task)
    requires k.IsReady(u)
    ensures IncrementTick(k).IsReady(u)
  {
    hide WakeAll;
    WakingLeavesReady(Advance(k), Due(Advance(k)), u);
  }

  lemma {:induction false} ReplayLeavesReady(k: Kernel, n: nat, u: Task)
    requires k.IsReady(u)
    ensures Replay(k, n).IsReady(u)
    decreases n
  {
    hide IncrementTick, SwitchRequired;
    if 0 < n {
      TickLeavesReady(k, u);
      ReplayLeavesReady(IncrementTick(k).(yieldPending := SwitchRequired(k)), n - 1, u);
    }
  }

  lemma ResumeAllLeavesReady(k: Kernel, u: Task)
    requires k.IsReady(u)
    ensures ResumeAll(k).IsReady(u)
  {
    hide WakeAll, Replay;
    var r := k.(suspended := if k.suspended == 0 then 0 else k.suspended - 1);
    WakingLeavesReady(r, Pending(r), u);
    if r.suspended == 0 {
      ReplayLeavesReady(Drain(r), r.pendedTicks, u);
    }
  }

  lemma HeadsWait(k: Kernel, u: Task)
    requires Inv(k) && k.IsReady(u)
    ensures k.h.Items(Termination) != [] ==> k.h.Items(Termination)[0] != StateItem(u)
  {
    if k.h.Items(Termination) != [] {
      assert k.h.Items(Termination)[0] in k.h.Items(Termination);
    }
  }

  lemma BlockLeavesReady(k: Kernel, ticks: nat, indefinitely: bool, u: Task)
    requires k.IsReady(u) && u != k.current
    ensures Block(k, ticks, indefinitely).IsReady(u)
  {}

  lemma BlockingLeavesReady(k: Kernel, op: Op, u: Task)
    requires k.IsReady(u) && u != k.current && (op.DelayOp? || op.WaitOp? || op.WaitUnorderedOp?)
    ensures Apply(k, op).IsReady(u)
  {
    hide Block, InUse;
    match op {
      case DelayOp(ticks) => BlockLeavesReady(k, ticks, false, u);
      case WaitOp(id, ticks) =>
        BlockLeavesReady(k.(h := k.h.LinkSorted(EventList(id), EventItem(k.current))), ticks, true, u);
      case WaitUnorderedOp(id, v, ticks) =>
        var i := EventItem(k.current);
        BlockLeavesReady(k.(h := k.h.SetValue(i, InUse(v)).LinkEnd(EventList(id), i)), ticks, true, u);
    }
  }

  lemma WakeLeavesReady(k: Kernel, t: Task, u: Task)
    requires k.IsReady(u)
    ensures ToReady(k, t).IsReady(u) && Wake(k, t).IsReady(u)
  {}

  lemma AsideLeavesReady(k: Kernel, t: Task, u: Task)
    requires k.IsReady(u)
    ensures StateItem(u) in k.h.Unlink(EventItem(t)).LinkEnd(PendingReady, EventItem(t)).container
    ensures k.h.Unlink(EventItem(t)).LinkEnd(PendingReady, EventItem(t)).container[StateItem(u)].Ready?
    ensures k.h.LinkEnd(PendingReady, EventItem(t)).container[StateItem(u)].Ready?
  {}

  lemma WakingOneLeavesReady(k: Kernel, op: Op, u: Task)
    requires k.IsReady(u) && (op.NotifyOp? || op.NotifyUnorderedOp? || op.ResumeOp? || op.ResumeFromISROp?)
    ensures Apply(k, op).IsReady(u)
  {
    hide Wake, ToReady, InUse, Heap.Unlink;
    match op {
      case NotifyOp(id) =>
        if k.h.Items(EventList(id)) != [] {
          WakeLeavesReady(k, k.h.Items(EventList(id))[0].task, u);
          AsideLeavesReady(k, k.h.Items(EventList(id))[0].task, u);
        }
      case NotifyUnorderedOp(t, v) => WakeLeavesReady(k.(h := k.h.SetValue(EventItem(t), InUse(v))), t, u);
      case ResumeOp(t) => WakeLeavesReady(k, t, u);
      case ResumeFromISROp(t) =>
        WakeLeavesReady(k, t, u);
        AsideLeavesReady(k, t, u);
    }
  }

  lemma TaskOpLeavesReady(k: Kernel, op: Op, u: Task)
    requires k.IsReady(u)
    requires op.CreateOp? || (op.DeleteOp? && op.task != u) || (op.SuspendOp? && op.task != u)
    ensures Apply(k, op).IsReady(u)
  {}

  lemma RequeuedLeavesReady(k: Kernel, t: Task, was: nat, u: Task)
    requires k.IsReady(u)
    ensures ToReady(k, t).IsReady(u) && Requeued(k, t, was).IsReady(u)
  {}

  lemma PrioritySetLeavesReady(k: Kernel, t: Task, priority: nat, u: Task)
    requires k.IsReady(u)
    ensures PrioritySet(k, t, priority).IsReady(u)
  {
    hide Requeued, EventValue;
    var p := Clipped(priority);
    if t in k.tcb && k.tcb[t].basePriority != p {
      var was := k.tcb[t];
      var n := SetTcb(k, t, was.(basePriority := p,
                                 priority := if was.basePriority == was.priority then p else was.priority));
      RequeuedLeavesReady(SetEventPriority(n, t, p), t, was.priority, u);
    }
  }

  lemma InheritLeavesReady(k: Kernel, t: Task, u: Task)
    requires k.IsReady(u)
    ensures Inherit(k, t).IsReady(u)
  {
    hide Requeued, EventValue;
    if t in k.tcb && k.Prio(t) < k.Prio(k.current) {
      var was := k.tcb[t];
      var n := SetEventPriority(k, t, k.Prio(k.current));
      RequeuedLeavesReady(SetTcb(n, t, was.(priority := k.Prio(k.current))), t, was.priority, u);
    }
  }

  lemma DisinheritLeavesReady(k: Kernel, u: Task)
    requires k.IsReady(u)
    ensures Disinherit(k).IsReady(u)
  {}

  lemma PriorityOpLeavesReady(k: Kernel, op: Op, u: Task)
    requires k.IsReady(u)
    requires op.PrioritySetOp? || op.InheritOp? || op.DisinheritOp? || op.HoldMutexOp? || op.SwitchOp?
        || op.SuspendAllOp?
      || op.ResetEventItemValueOp?
    ensures Apply(k, op).IsReady(u)
  {
    hide HighestLevel, PrioritySet, Inherit, Disinherit;
    match op {
      case PrioritySetOp(t, p) => PrioritySetLeavesReady(k, t, p, u);
      case InheritOp(t) => InheritLeavesReady(k, t, u);
      case DisinheritOp => DisinheritLeavesReady(k, u);
      case _ => {}
    }
  }

  lemma IdleStaysReady(k: Kernel, op: Op)
    requires Sound(k) && Enabled(k, op)
    ensures Apply(k, op).IsReady(IDLE)
  {
    match op {
      case TickOp => TickLeavesReady(k, IDLE);
      case ResumeAllOp => ResumeAllLeavesReady(k, IDLE);
      case CleanUpOp => HeadsWait(k, IDLE);
      case DelayOp(_) => BlockingLeavesReady(k, op, IDLE);
      case WaitOp(_, _) => BlockingLeavesReady(k, op, IDLE);
      case WaitUnorderedOp(_, _, _) => BlockingLeavesReady(k, op, IDLE);
      case NotifyOp(_) => WakingOneLeavesReady(k, op, IDLE);
      case NotifyUnorderedOp(_, _) => WakingOneLeavesReady(k, op, IDLE);
      case ResumeOp(_) => WakingOneLeavesReady(k, op, IDLE);
      case ResumeFromISROp(_) => WakingOneLeavesReady(k, op, IDLE);
      case CreateOp(_, _) => TaskOpLeavesReady(k, op, IDLE);
      case DeleteOp(_) => TaskOpLeavesReady(k, op, IDLE);
      case SuspendOp(_) => TaskOpLeavesReady(k, op, IDLE);
      case _ => PriorityOpLeavesReady(k, op, IDLE);
    }
  }

  // ----- Every step and every run ---------------------------------------------------

  lemma StepKeepsInv(k: Kernel, op: Op)
    requires Sound(k) && Enabled(k, op)
    ensures Sound(Apply(k, op))
  {
    IdleStaysReady(k, op);
    assert Inv(Apply(k, op)) by { StepKeepsLists(k, op); }
  }

  lemma StepKeepsLists(k: Kernel, op: Op)
    requires Sound(k) && Enabled(k, op)
    ensures Inv(Apply(k, op))
  {
    hide Inv, TickInterrupt, SuspendAll, ResumeAll, Block, BlockOnEvent, BlockOnUnordered, RemoveFromEventList;
    hide RemoveFromUnordered, Create, Delete, CleanUp, Suspend, Resume, ResumeFromISR, PrioritySet, Inherit;
    hide Disinherit, HoldMutex, SwitchContext, ResetEventItemValue;
    match op {
      case TickOp => TickInterruptKeeps(k);
      case SuspendAllOp => SuspendAllKeeps(k);
      case ResumeAllOp => ResumeAllKeeps(k);
      case DelayOp(ticks) => DelayKeeps(k, ticks);
      case WaitOp(id, ticks) => BlockOnEventKeeps(k, id, ticks);
      case WaitUnorderedOp(id, v, ticks) => BlockOnUnorderedKeeps(k, id, v, ticks);
      case NotifyOp(id) => RemoveFromEventListKeeps(k, id);
      case NotifyUnorderedOp(t, v) => RemoveFromUnorderedKeeps(k, t, v);
      case CreateOp(t, p) => CreateKeeps(k, t, p);
      case DeleteOp(t) => if t == k.current { DeleteSelfKeeps(k); } else { DeleteOtherKeeps(k, t); }
      case CleanUpOp => CleanUpKeeps(k);
      case SuspendOp(t) => SuspendKeeps(k, t);
      case ResumeOp(t) => ResumeKeeps(k, t);
      case ResumeFromISROp(t) => ResumeFromISRKeeps(k, t);
      case PrioritySetOp(t, p) => PrioritySetKeeps(k, t, p);
      case InheritOp(t) => InheritKeeps(k, t);
      case DisinheritOp => DisinheritKeeps(k);
      case HoldMutexOp => HoldMutexKeeps(k);
      case ResetEventItemValueOp => ResetEventItemValueKeeps(k);
      case SwitchOp => SwitchContextKeeps(k);
    }
  }

  /** In every reachable state each task that is not freed is in exactly one state list, the
      wheel and the counters are in order, and the scheduler has a task to select. */
  lemma {:induction false} RunKeepsInv(k: Kernel, ops: seq<Op>)
    requires Sound(k) && Permitted(k, ops)
    ensures Sound(Run(k, ops))
    decreases |ops|
  {
    hide Sound, Apply, Enabled;
    if ops != [] {
      StepKeepsInv(k, ops[0]);
      RunKeepsInv(Apply(k, ops[0]), ops[1..]);
    }
  }

  lemma ReachableIsSound(ops: seq<Op>)
    requires Permitted(Boot(), ops)
    ensures Sound(Run(Boot(), ops))
  {
    BootIsSound();
    RunKeepsInv(Boot(), ops);
  }

  /** In every reachable state a context switch selects a ready task that no other ready
      task exceeds in priority. */
  lemma ReachableSelectionPicksTheBest(ops: seq<Op>)
    requires Permitted(Boot(), ops) && Run(Boot(), ops).suspended == 0
    ensures var k := Run(Boot(), ops);
            var s := SwitchContext(k);
            k.IsReady(s.current) && (forall t :: k.IsReady(t) ==> k.Prio(t) <= k.Prio(s.current))
  {
    hide SwitchContext, Run, Permitted, Boot;
    ReachableIsSound(ops);
    SelectionPicksTheBest(Run(Boot(), ops));
  }

  // ----- Where the claim about deleted tasks stops ----------------------------------

  /** Deleting or suspending a task keeps the count of tasks waiting for clean-up right
      exactly when that task is not itself waiting for clean-up. */
  lemma DeletionKeepsCountsExactly(k: Kernel, t: Task)
    requires Inv(k) && t in k.tcb && t != k.current
    ensures Inv(Delete(k, t)) <==> !k.Is(t, Termination)
    ensures Inv(Suspend(k, t)) <==> !k.Is(t, Termination)
  {
    hide Inv, Suspend, Delete;
    InvCounts(Delete(k, t));
    InvCounts(Suspend(k, t));
    if k.Is(t, Termination) {
      InvBounds(k);
      TerminationShrinks(k, t);
    } else {
      DeleteOtherKeeps(k, t);
      SuspendKeeps(k, t);
    }
  }

  lemma InvCounts(k: Kernel)
    ensures Inv(k) ==> Counts(k)
  {}

  lemma TerminationShrinks(k: Kernel, t: Task)
    requires Partition(k) && Counts(k) && k.Is(t, Termination) && t != k.current
    ensures !Counts(Delete(k, t)) && !Counts(Suspend(k, t))
  {}

  /** Such a state is reached: a task deletes itself, and another deletes it once more
      before the idle task has run. One task is then waited for that no list holds. */
  lemma DeletedTwice()
    ensures var ops := [CreateOp(1, 0), SwitchOp, SwitchOp, DeleteOp(1), SwitchOp];
            var k := Run(Boot(), ops);
            && Permitted(Boot(), ops) && k.Is(1, Termination) && k.current == IDLE
            && !Inv(Delete(k, 1))
  {
    hide Apply, Inv, Boot, Enabled, Delete;
    var k3 := CreatedAndSelected();
    var k5 := DeletedAndSwitched(k3);
    var k1 := Apply(Boot(), CreateOp(1, 0));
    RunStep(Boot(), CreateOp(1, 0), [SwitchOp, SwitchOp, DeleteOp(1), SwitchOp]);
    RunStep(k1, SwitchOp, [SwitchOp, DeleteOp(1), SwitchOp]);
    RunStep(Apply(k1, SwitchOp), SwitchOp, [DeleteOp(1), SwitchOp]);
    RunStep(k3, DeleteOp(1), [SwitchOp]);
    RunStep(Apply(k3, DeleteOp(1)), SwitchOp, []);
    ReachableIsSound([CreateOp(1, 0), SwitchOp, SwitchOp, DeleteOp(1), SwitchOp]);
    DeletionKeepsCountsExactly(k5, 1);
  }

  lemma RunStep(k: Kernel, op: Op, rest: seq<Op>)
    ensures Run(k, [op] + rest) == Run(Apply(k, op), rest)
    ensures Permitted(k, [op] + rest) <==> Enabled(k, op) && Permitted(Apply(k, op), rest)
  {}

  lemma CreatedAndSelected() returns (k3: Kernel)
    ensures var k1 := Apply(Boot(), CreateOp(1, 0));
            var k2 := Apply(k1, SwitchOp);
            && k3 == Apply(k2, SwitchOp)
            && Enabled(Boot(), CreateOp(1, 0)) && Enabled(k1, SwitchOp) && Enabled(k2, SwitchOp)
    ensures k3.h.At(Ready(0)) == KList([StateItem(IDLE), StateItem(1)], 2) && k3.current == 1 && k3.top == 0
    ensures k3.h.container == map[StateItem(IDLE) := Ready(0), StateItem(1) := Ready(0)]
    ensures k3.suspended == 0 && 1 in k3.tcb
  {
    hide Boot, EventValue;
    var k1 := CreatedBesideIdle();
    var k2 := SwitchContext(k1);
    assert k2.h.At(Ready(0)) == KList([StateItem(IDLE), StateItem(1)], 1);
    k3 := SwitchContext(k2);
  }

  lemma CreatedBesideIdle() returns (k1: Kernel)
    ensures k1 == Apply(Boot(), CreateOp(1, 0)) && Enabled(Boot(), CreateOp(1, 0))
    ensures k1.h.At(Ready(0)) == KList([StateItem(IDLE), StateItem(1)], 0) && k1.top == 0
    ensures k1.h.container == map[StateItem(IDLE) := Ready(0), StateItem(1) := Ready(0)]
    ensures k1.suspended == 0 && 1 in k1.tcb
  {
    var k0 := Boot();
    assert k0.h.At(Ready(0)) == KList([StateItem(IDLE)], 0) && k0.h.container == map[StateItem(IDLE) := Ready(0)];
    k1 := Create(k0, 1, 0);
  }

  lemma DeletedAndSwitched(k3: Kernel) returns (k5: Kernel)
    requires k3.h.At(Ready(0)) == KList([StateItem(IDLE), StateItem(1)], 2) && k3.current == 1 && k3.top == 0
    requires k3.h.container == map[StateItem(IDLE) := Ready(0), StateItem(1) := Ready(0)]
    requires k3.suspended == 0 && 1 in k3.tcb
    ensures var k4 := Apply(k3, DeleteOp(1));
            k5 == Apply(k4, SwitchOp) && Enabled(k3, DeleteOp(1)) && Enabled(k4, SwitchOp)
    ensures k5.Is(1, Termination) && k5.current == IDLE && 1 in k5.tcb
  {
    var k4 := Delete(k3, 1);
    var i0, i1 := StateItem(IDLE), StateItem(1);
    assert EventItem(1) !in k3.h.container;
    PositionOfSecond(i0, i1);
    assert k4.h.At(Ready(0)) == KList([i0], 1) && k4.Is(1, Termination);
    k5 := SwitchContext(k4);
  }

  lemma PositionOfSecond(a: Item, b: Item)
    requires a != b
    ensures Position([a, b], b) == 1
  {}
}
