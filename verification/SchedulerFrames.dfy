/** Which operations touch control blocks, and which send a task to its end. */
module SchedulerFrames {
  import opened KernelConfig
  import opened ListHeap
  import opened Scheduler
  import opened SchedulerInvariant
  import opened SchedulerOperations
  import opened SchedulerTasks
  import opened SchedulerRuns
  import opened SchedulerTime

  /** Nobody has been put on the termination list. */
  ghost predicate NoNewDead(k: Kernel, w: Kernel) {
    forall u :: w.Is(u, Termination) ==> k.Is(u, Termination)
  }

  lemma AliveThroughout(k: Kernel, m: Kernel, w: Kernel)
    requires (NoNewDead(k, m) || m.h == k.h) && (NoNewDead(m, w) || w.h == m.h)
    ensures NoNewDead(k, w)
  {}

  lemma ToReadyLeavesAlive(k: Kernel, t: Task)
    ensures NoNewDead(k, ToReady(k, t)) && NoNewDead(k, Wake(k, t))
    ensures ToReady(k, t).tcb == k.tcb && Wake(k, t).tcb == k.tcb && Wake(k, t).current == k.current
  {}

  lemma {:induction false} WakeAllLeavesAlive(k: Kernel, ts: seq<Task>)
    ensures NoNewDead(k, WakeAll(k, ts)) && WakeAll(k, ts).tcb == k.tcb
    decreases |ts|
  {
    hide Wake;
    if ts != [] {
      var w := Wake(k, ts[0]);
      ToReadyLeavesAlive(k, ts[0]);
      WakeAllLeavesAlive(w, ts[1..]);
      assert NoNewDead(k, w);
    }
  }

  lemma TickLeavesAlive(k: Kernel)
    ensures NoNewDead(k, IncrementTick(k)) && IncrementTick(k).tcb == k.tcb
  {
    hide WakeAll, Due;
    var a := Advance(k);
    var w := WakeAll(a, Due(a));
    WakeAllLeavesAlive(a, Due(a));
    AliveThroughout(k, a, w);
    if a.nextUnblock <= a.tick { AliveThroughout(k, w, IncrementTick(k)); }
  }

  lemma {:induction false} ReplayLeavesAlive(k: Kernel, n: nat)
    ensures NoNewDead(k, Replay(k, n)) && Replay(k, n).tcb == k.tcb
    decreases n
  {
    hide IncrementTick, SwitchRequired;
    if 0 < n {
      TickLeavesAlive(k);
      ReplayLeavesAlive(IncrementTick(k).(yieldPending := SwitchRequired(k)), n - 1);
    }
  }

  lemma ResumeAllLeavesAlive(k: Kernel)
    ensures NoNewDead(k, ResumeAll(k)) && ResumeAll(k).tcb == k.tcb
  {
    hide WakeAll, Replay, Pending;
    var r := k.(suspended := if k.suspended == 0 then 0 else k.suspended - 1);
    if r.suspended == 0 && r.tasks != 0 {
      WakeAllLeavesAlive(r, Pending(r));
      var w, d := WakeAll(r, Pending(r)), Drain(r);
      AliveThroughout(k, r, w);
      assert r.h == d.h || w.h == d.h;
      AliveThroughout(k, if r.h == d.h then r else w, d);
      ReplayLeavesAlive(d, r.pendedTicks);
      var p := Replay(d, r.pendedTicks);
      AliveThroughout(k, d, p);
      AliveThroughout(k, p, ResumeAll(k));
    }
  }

  lemma BlockLeavesAlive(k: Kernel, ticks: nat, indefinitely: bool)
    requires TwoLists(k)
    ensures NoNewDead(k, Block(k, ticks, indefinitely)) && Block(k, ticks, indefinitely).tcb == k.tcb
  {}

  lemma BlockingOpsLeaveAlive(k: Kernel, op: Op)
    requires TwoLists(k) && (op.DelayOp? || op.WaitOp? || op.WaitUnorderedOp?)
    ensures NoNewDead(k, Apply(k, op)) && Apply(k, op).tcb == k.tcb
  {
    hide Block, InUse;
    match op {
      case DelayOp(ticks) => BlockLeavesAlive(k, ticks, false);
      case WaitOp(id, ticks) =>
        BlockLeavesAlive(k.(h := k.h.LinkSorted(EventList(id), EventItem(k.current))), ticks, true);
      case WaitUnorderedOp(id, v, ticks) =>
        var i := EventItem(k.current);
        BlockLeavesAlive(k.(h := k.h.SetValue(i, InUse(v)).LinkEnd(EventList(id), i)), ticks, true);
    }
  }

  lemma RemoveLeavesAlive(k: Kernel, id: nat)
    ensures NoNewDead(k, RemoveFromEventList(k, id)) && RemoveFromEventList(k, id).tcb == k.tcb
    ensures RemoveFromEventList(k, id).current == k.current
  {
    hide Wake;
    if k.h.Items(EventList(id)) != [] {
      ToReadyLeavesAlive(k, k.h.Items(EventList(id))[0].task);
    }
  }

  lemma WakingOpsLeaveAlive(k: Kernel, op: Op)
    requires op.NotifyOp? || op.NotifyUnorderedOp? || op.ResumeOp? || op.ResumeFromISROp?
    ensures NoNewDead(k, Apply(k, op)) && Apply(k, op).tcb == k.tcb
  {
    hide Wake, ToReady, RemoveFromEventList;
    match op {
      case NotifyOp(id) => RemoveLeavesAlive(k, id);
      case NotifyUnorderedOp(t, v) =>
        var m := k.(h := k.h.SetValue(EventItem(t), InUse(v)));
        ToReadyLeavesAlive(m, t);
        assert NoNewDead(k, m);
        AliveThroughout(k, m, Wake(m, t));
        AliveThroughout(k, Wake(m, t), Apply(k, op));
      case ResumeOp(t) => ToReadyLeavesAlive(k, t);
      case ResumeFromISROp(t) => ToReadyLeavesAlive(k, t);
    }
  }

  lemma RequeuedLeavesAlive(k: Kernel, n: Kernel, t: Task, was: nat)
    requires n.h.container == k.h.container
    ensures NoNewDead(k, Requeued(n, t, was)) && Requeued(n, t, was).tcb == n.tcb
    ensures NoNewDead(k, ToReady(n, t)) && ToReady(n, t).tcb == n.tcb
  {}

  lemma PrioritySetEffect(k: Kernel, t: Task, priority: nat)
    ensures var w := PrioritySet(k, t, priority);
            var p := Clipped(priority);
            && NoNewDead(k, w)
            && w.tcb == (if t !in k.tcb || k.tcb[t].basePriority == p then k.tcb
                         else k.tcb[t := k.tcb[t].(basePriority := p,
                           priority := if k.tcb[t].basePriority == k.tcb[t].priority then p else k.tcb[t].priority)])
  {
    hide Requeued, EventValue;
    var p := Clipped(priority);
    if t in k.tcb && k.tcb[t].basePriority != p {
      var was := k.tcb[t];
      var n := SetTcb(k, t, was.(basePriority := p,
                                 priority := if was.basePriority == was.priority then p else was.priority));
      RequeuedLeavesAlive(k, SetEventPriority(n, t, p), t, was.priority);
    }
  }

  lemma InheritEffect(k: Kernel, t: Task)
    ensures var w := Inherit(k, t);
            && NoNewDead(k, w) && w.current == k.current
            && w.tcb == (if t !in k.tcb || k.Prio(k.current) <= k.Prio(t) then k.tcb
                         else k.tcb[t := k.tcb[t].(priority := k.Prio(k.current))])
  {
    hide EventValue;
    if t in k.tcb && k.Prio(t) < k.Prio(k.current) {
      var was := k.tcb[t];
      var n := SetTcb(SetEventPriority(k, t, k.Prio(k.current)), t, was.(priority := k.Prio(k.current)));
      RequeuedLeavesAlive(k, n, t, was.priority);
    }
  }

  lemma DisinheritEffect(k: Kernel)
    requires k.current in k.tcb && 0 < k.tcb[k.current].mutexesHeld
    ensures var w, held := Disinherit(k), k.tcb[k.current].mutexesHeld - 1;
            && NoNewDead(k, w) && w.current == k.current
            && w.tcb == k.tcb[k.current := k.tcb[k.current].(mutexesHeld := held,
                 priority := if held == 0 then k.tcb[k.current].basePriority else k.tcb[k.current].priority)]
  {}

  lemma TaskOpsEffect(k: Kernel, op: Op)
    requires op.CreateOp? || op.DeleteOp? || op.SuspendOp?
    ensures forall u :: Apply(k, op).Is(u, Termination) ==> k.Is(u, Termination) || op == DeleteOp(u)
    ensures op.SuspendOp? || (op.DeleteOp? && op.task == k.current) ==> Apply(k, op).tcb == k.tcb
    ensures op.DeleteOp? && op.task != k.current ==> Apply(k, op).tcb == k.tcb - {op.task}
    ensures op.CreateOp? ==> (op.task in Apply(k, op).tcb
        && Apply(k, op).tcb == k.tcb[op.task := Apply(k, op).tcb[op.task]])
    ensures op.CreateOp? ==> Apply(k, op).tcb[op.task] == Tcb(Clipped(op.priority), Clipped(op.priority), 0)
  {
    hide EventValue;
    if op.DeleteOp? || op.SuspendOp? {
      PutAwayContainers(k.h, op.task, Termination);
      PutAwayContainers(k.h, op.task, Suspended);
      TakenOutContainers(k.h, op.task);
    }
  }

  lemma CleanUpEffect(k: Kernel)
    requires Inv(k)
    ensures NoNewDead(k, CleanUp(k))
    ensures CleanUp(k).tcb == k.tcb || exists t :: k.Is(t, Termination) && CleanUp(k).tcb == k.tcb - {t}
  {
    hide Partition, Wheel;
    InvBounds(k);
    var items := k.h.Items(Termination);
    if k.toCleanUp != 0 && items != [] {
      TerminatedTask(k);
      RestingContainers(k.h, items[0]);
      assert k.Is(items[0].task, Termination);
    }
  }

  lemma OtherOpsEffect(k: Kernel, op: Op)
    requires op.SuspendAllOp? || op.HoldMutexOp? || op.SwitchOp? || op.TickOp? || op.ResetEventItemValueOp?
    ensures NoNewDead(k, Apply(k, op))
    ensures !op.HoldMutexOp? ==> Apply(k, op).tcb == k.tcb
  {
    hide HighestLevel, IncrementTick;
    if op.TickOp? { TickLeavesAlive(k); }
  }

  // ----- Priorities stay in range ---------------------------------------------------

  /** Every level in use is an index into the array of ready lists. */
  ghost predicate InRange(k: Kernel) {
    && k.top < MAX_PRIORITIES
    && (forall t :: t in k.tcb ==> k.tcb[t].priority < MAX_PRIORITIES && k.tcb[t].basePriority < MAX_PRIORITIES)
  }

  /** Only a task that deletes itself is put on the termination list. */
  lemma OnlyTheDeletedDie(k: Kernel, op: Op)
    requires Sound(k) && Enabled(k, op)
    ensures forall u :: Apply(k, op).Is(u, Termination) ==> k.Is(u, Termination) || op == DeleteOp(u)
  {
    hide Inv, TickInterrupt, SuspendAll, ResumeAll, Block, BlockOnEvent, BlockOnUnordered, RemoveFromEventList;
    hide RemoveFromUnordered, Create, Delete, CleanUp, Suspend, Resume, ResumeFromISR, PrioritySet, Inherit;
    hide Disinherit, HoldMutex, SwitchContext, ResetEventItemValue;
    InvBounds(k);
    match op {
      case DelayOp(_) => BlockingOpsLeaveAlive(k, op);
      case WaitOp(_, _) => BlockingOpsLeaveAlive(k, op);
      case WaitUnorderedOp(_, _, _) => BlockingOpsLeaveAlive(k, op);
      case NotifyOp(_) => WakingOpsLeaveAlive(k, op);
      case NotifyUnorderedOp(_, _) => WakingOpsLeaveAlive(k, op);
      case ResumeOp(_) => WakingOpsLeaveAlive(k, op);
      case ResumeFromISROp(_) => WakingOpsLeaveAlive(k, op);
      case CreateOp(_, _) => TaskOpsEffect(k, op);
      case DeleteOp(_) => TaskOpsEffect(k, op);
      case SuspendOp(_) => TaskOpsEffect(k, op);
      case CleanUpOp => CleanUpEffect(k);
      case ResumeAllOp => ResumeAllLeavesAlive(k);
      case PrioritySetOp(t, p) => PrioritySetEffect(k, t, p);
      case InheritOp(t) => InheritEffect(k, t);
      case DisinheritOp => DisinheritEffect(k);
      case _ => OtherOpsEffect(k, op);
    }
  }

  /** Control blocks change only by creation, deletion, clean-up and the priority and mutex
      calls. */
  lemma TcbFrame(k: Kernel, op: Op)
    requires TwoLists(k)
    requires !op.CreateOp? && !op.DeleteOp? && !op.CleanUpOp? && !op.PrioritySetOp?
    requires !op.InheritOp? && !op.DisinheritOp? && !op.HoldMutexOp?
    ensures Apply(k, op).tcb == k.tcb
  {
    hide TickInterrupt, SuspendAll, ResumeAll, Block, BlockOnEvent, BlockOnUnordered, RemoveFromEventList;
    hide RemoveFromUnordered, Create, Delete, CleanUp, Suspend, Resume, ResumeFromISR, PrioritySet, Inherit;
    hide Disinherit, HoldMutex, SwitchContext, ResetEventItemValue;
    match op {
      case DelayOp(_) => BlockingOpsLeaveAlive(k, op);
      case WaitOp(_, _) => BlockingOpsLeaveAlive(k, op);
      case WaitUnorderedOp(_, _, _) => BlockingOpsLeaveAlive(k, op);
      case NotifyOp(_) => WakingOpsLeaveAlive(k, op);
      case NotifyUnorderedOp(_, _) => WakingOpsLeaveAlive(k, op);
      case ResumeOp(_) => WakingOpsLeaveAlive(k, op);
      case ResumeFromISROp(_) => WakingOpsLeaveAlive(k, op);
      case SuspendOp(_) => TaskOpsEffect(k, op);
      case ResumeAllOp => ResumeAllLeavesAlive(k);
      case _ => OtherOpsEffect(k, op);
    }
  }

  lemma RangeWake(k: Kernel, t: Task)
    requires InRange(k)
    ensures InRange(ToReady(k, t)) && InRange(Wake(k, t))
  {}

  lemma {:induction false} RangeWakeAll(k: Kernel, ts: seq<Task>)
    requires InRange(k)
    ensures InRange(WakeAll(k, ts))
    decreases |ts|
  {
    hide InRange, Wake;
    if ts != [] {
      RangeWake(k, ts[0]);
      RangeWakeAll(Wake(k, ts[0]), ts[1..]);
    }
  }

  lemma RangeTick(k: Kernel)
    requires InRange(k)
    ensures InRange(IncrementTick(k))
  {
    hide WakeAll, Due;
    RangeWakeAll(Advance(k), Due(Advance(k)));
  }

  lemma {:induction false} RangeReplay(k: Kernel, n: nat)
    requires InRange(k)
    ensures InRange(Replay(k, n))
    decreases n
  {
    hide IncrementTick, SwitchRequired;
    if 0 < n {
      RangeTick(k);
      RangeReplay(IncrementTick(k).(yieldPending := SwitchRequired(k)), n - 1);
    }
  }

  lemma RangeResumeAll(k: Kernel)
    requires InRange(k)
    ensures InRange(ResumeAll(k))
  {
    hide WakeAll, Replay, Pending;
    var r := k.(suspended := if k.suspended == 0 then 0 else k.suspended - 1);
    if r.suspended == 0 && r.tasks != 0 {
      RangeWakeAll(r, Pending(r));
      RangeReplay(Drain(r), r.pendedTicks);
    }
  }

  lemma RangeTaskOps(k: Kernel, op: Op)
    requires Sound(k) && Enabled(k, op) && InRange(k)
    requires op.CreateOp? || op.DeleteOp? || op.SuspendOp? || op.CleanUpOp?
    ensures InRange(Apply(k, op))
  {
    hide Inv, EventValue;
    if op.CleanUpOp? {
      CleanUpEffect(k);
    } else {
      TaskOpsEffect(k, op);
    }
  }

  lemma RangePriorityOps(k: Kernel, op: Op)
    requires InRange(k) && Enabled(k, op) && (op.PrioritySetOp? || op.InheritOp? || op.DisinheritOp?)
    ensures InRange(Apply(k, op))
  {
    hide EventValue, MoveState;
    match op {
      case PrioritySetOp(t, p) => PrioritySetEffect(k, t, p);
      case InheritOp(t) => InheritEffect(k, t);
      case DisinheritOp => DisinheritEffect(k);
    }
  }

  lemma {:induction false} ScanGoesDown(h: Heap, from: nat)
    ensures HighestLevel(h, from) <= from
  {
    if h.Items(Ready(from)) == [] && from != 0 { ScanGoesDown(h, from - 1); }
  }

  lemma RangeOtherOps(k: Kernel, op: Op)
    requires InRange(k) && TwoLists(k)
    requires !op.CreateOp? && !op.DeleteOp? && !op.CleanUpOp? && !op.PrioritySetOp? && !op.SuspendOp?
    requires !op.InheritOp? && !op.DisinheritOp? && !op.TickOp? && !op.ResumeAllOp?
    ensures InRange(Apply(k, op))
  {
    hide MoveState, MoveTimed, EventValue, InUse, HighestLevel;
    ScanGoesDown(k.h, k.top);
  }

  /** No operation leads to a level outside the ready lists, and the scan of a context
      switch stays inside them. */
  lemma StepKeepsRange(k: Kernel, op: Op)
    requires Sound(k) && Enabled(k, op) && InRange(k)
    ensures InRange(Apply(k, op))
  {
    hide Inv, InRange, IncrementTick, ResumeAll;
    InvBounds(k);
    if op.TickOp? {
      RangeTick(k);
      RangePended(k, k.pendedTicks + 1);
    } else if op.ResumeAllOp? {
      RangeResumeAll(k);
    } else if op.CreateOp? || op.DeleteOp? || op.SuspendOp? || op.CleanUpOp? {
      RangeTaskOps(k, op);
    } else if op.PrioritySetOp? || op.InheritOp? || op.DisinheritOp? {
      RangePriorityOps(k, op);
    } else {
      RangeOtherOps(k, op);
    }
  }

  lemma RangePended(k: Kernel, n: nat)
    requires InRange(k)
    ensures InRange(k.(pendedTicks := n))
  {}

  lemma {:induction false} RunKeepsRange(k: Kernel, ops: seq<Op>)
    requires Sound(k) && Permitted(k, ops) && InRange(k)
    ensures InRange(Run(k, ops))
    decreases |ops|
  {
    hide Sound, Enabled, Apply, InRange;
    if ops != [] {
      StepKeepsInv(k, ops[0]);
      StepKeepsRange(k, ops[0]);
      RunKeepsRange(Apply(k, ops[0]), ops[1..]);
    }
  }

  lemma ReachableIsInRange(ops: seq<Op>)
    requires Permitted(Boot(), ops)
    ensures InRange(Run(Boot(), ops))
  {
    BootIsSound();
    RunKeepsRange(Boot(), ops);
  }
}
