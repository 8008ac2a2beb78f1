/** Work done while the scheduler is suspended is deferred, and none of it is lost: no tick,
    no wake-up, and nothing happens twice. */
module SchedulerDeferral {
  import opened KernelLists
  import opened ListHeap
  import opened Scheduler
  import opened SchedulerInvariant
  import opened SchedulerSteps
  import opened SchedulerOperations
  import opened SchedulerRuns
  import opened SchedulerTime

  // ----- Interrupts while the scheduler is suspended --------------------------------

  predicate FromInterrupt(op: Op) {
    op.TickOp? || op.NotifyOp? || op.ResumeFromISROp?
  }

  /** An interrupt that finds the scheduler suspended leaves every state list, the clock and
      all control blocks alone. */
  lemma InterruptsLeaveStateLists(k: Kernel, op: Op)
    requires Inv(k) && 0 < k.suspended && FromInterrupt(op)
    ensures var w := Apply(k, op);
            && (forall l :: StateList(l) ==> w.h.At(l) == k.h.At(l))
            && w.h.value == k.h.value && w.tcb == k.tcb && SameClock(k, w) && w.current == k.current
  {
    hide Wheel;
    match op {
      case TickOp => {}
      case NotifyOp(id) =>
        if k.h.Items(EventList(id)) != [] {
          WaiterIsBlocked(k, id);
          SetAsideMoves(k, k.h.Items(EventList(id))[0].task);
          AsideElsewhere(k, k.h.Items(EventList(id))[0].task);
        }
      case ResumeFromISROp(t) =>
        if IsSuspended(k, t) {
          assert k.h.Unlink(EventItem(t)) == k.h;
          AsideElsewhere(k, t);
        }
    }
  }

  lemma AsideElsewhere(k: Kernel, t: Task)
    requires Partition(k)
    ensures forall l :: StateList(l) ==> SetAside(k, t).h.At(l) == k.h.At(l)
    ensures SetAside(k, t).h.value == k.h.value
  {}

  // ----- No tick is lost ------------------------------------------------------------

  function Ticks(ops: seq<Op>): nat {
    if ops == [] then 0 else (if ops[0].TickOp? then 1 else 0) + Ticks(ops[1..])
  }

  /** Ticks processed and ticks still pended, together. */
  function Seen(k: Kernel): nat {
    Now(k) + k.pendedTicks
  }

  lemma PendedFrame(k: Kernel, op: Op)
    requires Sound(k) && Enabled(k, op)
    ensures Apply(k, op).pendedTicks ==
      if op.TickOp? then (if k.suspended == 0 then k.pendedTicks else k.pendedTicks + 1)
      else if op.ResumeAllOp? && k.suspended == 1 then 0
      else k.pendedTicks
  {
    hide IncrementTick, WakeAll, Replay, HighestLevel, Partition, Wheel;
    if op.TickOp? {
      TickFrame(k);
    } else if op.ResumeAllOp? {
      assert 0 < k.tasks;
    }
  }

  lemma StepConservesTicks(k: Kernel, op: Op)
    requires Sound(k) && Enabled(k, op)
    ensures Seen(Apply(k, op)) == Seen(k) + (if op.TickOp? then 1 else 0)
  {
    hide Apply, Enabled, Sound, View, Now;
    PendedFrame(k, op);
    StepRefinesTimeline(k, op);
    ViewNow(k);
    ViewNow(Apply(k, op));
    if op.TickOp? {
      NonePended(k);
    } else if op.ResumeAllOp? && k.suspended == 1 {
      PassManyNow(View(k).Forget(set t | t in Pending(k)), k.pendedTicks);
    }
  }

  lemma NonePended(k: Kernel)
    requires Sound(k)
    ensures k.suspended == 0 ==> k.pendedTicks == 0
  {}

  /** Over any run, the tick interrupts seen are the ticks processed and those pended. */
  lemma {:induction false} RunConservesTicks(k: Kernel, ops: seq<Op>)
    requires Sound(k) && Permitted(k, ops)
    ensures Seen(Run(k, ops)) == Seen(k) + Ticks(ops)
    decreases |ops|
  {
    hide Sound, Apply, Enabled, Seen;
    if ops != [] {
      StepConservesTicks(k, ops[0]);
      StepKeepsInv(k, ops[0]);
      RunConservesTicks(Apply(k, ops[0]), ops[1..]);
    }
  }

  /** Since the start every tick interrupt has been counted or is pended, and none is
      pended while the scheduler runs. */
  lemma ReachableClock(ops: seq<Op>)
    requires Permitted(Boot(), ops)
    ensures Seen(Run(Boot(), ops)) == Ticks(ops)
    ensures Run(Boot(), ops).suspended == 0 ==> Now(Run(Boot(), ops)) == Ticks(ops)
  {
    hide Run, Permitted;
    BootIsSound();
    RunConservesTicks(Boot(), ops);
    ReachableIsSound(ops);
    NonePended(Run(Boot(), ops));
  }

  // ----- Nobody is woken twice ------------------------------------------------------

  /** The tasks a processed tick wakes, in order. */
  function TickLog(k: Kernel): seq<Task> {
    var a := Advance(k);
    if a.nextUnblock <= a.tick then Due(a) else []
  }

  function ReplayLog(k: Kernel, n: nat): seq<Task>
    decreases n
  {
    if n == 0 then [] else TickLog(k) + ReplayLog(IncrementTick(k).(yieldPending := SwitchRequired(k)), n - 1)
  }

  /** The tasks the outermost resume makes ready, in order. */
  function ResumeLog(k: Kernel): seq<Task> {
    Pending(k) + ReplayLog(Drain(k.(suspended := 0)), k.pendedTicks)
  }

  lemma TickLogIsWhatWakes(k: Kernel)
    requires Partition(k) && Wheel(k, k.tick + 1) && Counts(k)
    ensures IncrementTick(k).h == WakeAll(Advance(k), TickLog(k)).h
    ensures NoDup(TickLog(k))
    ensures forall t :: t in TickLog(k) <==> t in View(k).wakes && View(k).wakes[t] == Now(k) + 1
  {
    hide Partition, Wheel, Counts, Due, View, Advance, Now;
    var a := Advance(k);
    AdvanceKeeps(k);
    AdvanceOnlyCounts(k);
    DueIsNow(a);
    DueFacts(a);
    ViewNow(a);
    if a.nextUnblock > a.tick {
      ShortcutIsSafe(a);
    }
  }

  lemma Disjointly(a: seq<Task>, b: seq<Task>)
    requires NoDup(a) && NoDup(b) && forall t :: t in a ==> t !in b
    ensures NoDup(a + b)
    ensures forall t :: t in a + b <==> t in a || t in b
  {
    assert forall i :: 0 <= i < |a| ==> a[i] in a;
    assert forall i :: 0 <= i < |b| ==> b[i] in b;
  }

  /** Replaying `n` ticks wakes each task that is due within them once, and no other. */
  lemma {:induction false} ReplayWakesOnce(k: Kernel, n: nat)
    requires Partition(k) && Wheel(k, k.tick + 1) && Counts(k)
    ensures NoDup(ReplayLog(k, n))
    ensures forall t :: t in ReplayLog(k, n) <==> t in View(k).wakes && View(k).wakes[t] <= Now(k) + n
    decreases n
  {
    hide IncrementTick, Partition, Wheel, Counts, SwitchRequired, View, Now, TickLog;
    WakesAreAhead(k);
    if 0 < n {
      var t := IncrementTick(k);
      var r := t.(yieldPending := SwitchRequired(k));
      TickKeeps(k);
      TickRefinesTimeline(k);
      TickLogIsWhatWakes(k);
      YieldIsAside(t, r.yieldPending);
      SameView(t, r);
      ViewNow(r);
      ViewNow(k);
      ReplayWakesOnce(r, n - 1);
      Disjointly(TickLog(k), ReplayLog(r, n - 1));
    }
  }

  lemma LoggedIsReady(k: Kernel, u: Task)
    requires Partition(k) && Wheel(k, k.tick + 1) && Counts(k) && u in TickLog(k)
    ensures IncrementTick(k).IsReady(u)
  {
    hide Partition, Wheel, Counts, View, Now, TickLog, IncrementTick, SameStanding;
    TickLogIsWhatWakes(k);
    TickRefinesTimeline(k);
    assert IncrementTick(k).Is(u, Ready(k.Prio(u)));
  }

  lemma {:induction false} ReplayedAreReady(k: Kernel, n: nat, u: Task)
    requires Partition(k) && Wheel(k, k.tick + 1) && Counts(k) && u in ReplayLog(k, n)
    ensures Replay(k, n).IsReady(u)
    decreases n
  {
    hide IncrementTick, Partition, Wheel, Counts, SwitchRequired, TickLog;
    var t := IncrementTick(k);
    var r := t.(yieldPending := SwitchRequired(k));
    TickKeeps(k);
    YieldIsAside(t, r.yieldPending);
    if u in TickLog(k) {
      LoggedIsReady(k, u);
      ReplayLeavesReady(r, n - 1, u);
    } else {
      ReplayedAreReady(r, n - 1, u);
    }
  }

  lemma DrainedOnce(r: Kernel, n: nat)
    requires Partition(r) && Wheel(r, r.tick + 1) && Counts(r)
    ensures NoDup(Pending(r) + ReplayLog(Drain(r), n))
    ensures forall t :: t in Pending(r) + ReplayLog(Drain(r), n) <==>
      t in Pending(r) || (t in View(r).wakes && View(r).wakes[t] <= Now(r) + n)
    ensures forall t :: t in Pending(r) + ReplayLog(Drain(r), n) ==> Replay(Drain(r), n).IsReady(t)
  {
    hide Partition, Wheel, Counts, Drain, Pending, View, Now, ReplayLog, Replay, WakeAll;
    var d := Drain(r);
    PendingFacts(r);
    DrainKeeps(r);
    DrainForgets(r);
    ReplayWakesOnce(d, n);
    ViewNow(d);
    ViewNow(r);
    ForgottenWakes(View(r), set t | t in Pending(r));
    Disjointly(Pending(r), ReplayLog(d, n));
    forall t | t in ReplayLog(d, n) ensures Replay(d, n).IsReady(t) {
      ReplayedAreReady(d, n, t);
    }
    forall t | t in Pending(r) ensures Replay(d, n).IsReady(t) {
      assert d.Is(t, Ready(r.Prio(t)));
      ReplayLeavesReady(d, n, t);
    }
  }

  /** The outermost resume makes ready exactly the tasks that were put aside and those whose
      time came while it was suspended, each of them once, even one that is both. */
  lemma ResumeWakesOnce(k: Kernel)
    requires Inv(k) && k.suspended == 1
    ensures NoDup(ResumeLog(k))
    ensures forall t :: t in ResumeLog(k) <==>
      k.h.In(EventItem(t), PendingReady) || (t in View(k).wakes && View(k).wakes[t] <= Now(k) + k.pendedTicks)
    ensures forall t :: t in ResumeLog(k) ==> ResumeAll(k).IsReady(t)
  {
    hide Partition, Wheel, Drain, Pending, View, ReplayLog, Replay;
    InvBounds(k);
    var r := k.(suspended := 0);
    SuspensionIsAside(k, 0, k.pendedTicks);
    assert r == k.(suspended := 0, pendedTicks := k.pendedTicks);
    SameView(k, r);
    SamePendingTasks(k, r);
    PendingFacts(k);
    DrainedOnce(r, k.pendedTicks);
    assert 0 < k.tasks;
    assert ResumeAll(k) == Replay(Drain(r), k.pendedTicks).(pendedTicks := 0);
  }

  lemma ForgottenWakes(v: Timeline, ts: set<Task>)
    ensures v.Forget(ts).now == v.now
    ensures forall t :: t in v.Forget(ts).wakes <==> t in v.wakes && t !in ts
    ensures forall t :: t in v.Forget(ts).wakes ==> v.Forget(ts).wakes[t] == v.wakes[t]
  {}
}
