/** Who comes onto an event list, and who leaves it. */
module SchedulerWaiters {
  import opened ListHeap
  import opened Scheduler
  import opened SchedulerInvariant
  import opened SchedulerSteps
  import opened SchedulerOperations
  import opened SchedulerRuns
  import opened SchedulerTime
  import opened SchedulerEffects
  import opened SchedulerSwitches

  /** Nobody has come onto an event list. */
  ghost predicate NobodyCame(k: Kernel, w: Kernel, id: nat) {
    forall i :: w.h.In(i, EventList(id)) ==> k.h.In(i, EventList(id))
  }

  lemma OnlyLeft(k: Kernel, w: Kernel, id: nat)
    requires EventsOnlyLeave(k, w) && Partition(w)
    ensures NobodyCame(k, w, id)
  {
    forall i | w.h.In(i, EventList(id)) ensures k.h.In(i, EventList(id)) {
      assert i == EventItem(i.task);
    }
  }

  lemma {:induction false} ReplayOnlyLeaves(k: Kernel, n: nat)
    requires Partition(k) && Wheel(k, k.tick + 1) && Counts(k) && k.h.Items(PendingReady) == []
    ensures EventsOnlyLeave(k, Replay(k, n))
    decreases n
  {
    hide IncrementTick, Partition, Wheel, Counts, SwitchRequired;
    if 0 < n {
      var t := IncrementTick(k);
      TickKeeps(k);
      TickKeepsEvents(k);
      StillNothingPending(k, t);
      YieldIsAside(t, SwitchRequired(k));
      ReplayOnlyLeaves(t.(yieldPending := SwitchRequired(k)), n - 1);
    }
  }

  lemma ResumeOnlyLeaves(k: Kernel)
    requires Inv(k) && 0 < k.suspended
    ensures EventsOnlyLeave(k, ResumeAll(k))
  {
    hide Inv, Drain, Replay, EventsOnlyLeave;
    if k.suspended == 1 {
      ResumedFrame(k);
      var r := k.(suspended := 0);
      var d := Drain(r);
      DrainOnlyLeaves(r);
      ReplayOnlyLeaves(d, r.pendedTicks);
      LeavingTwice(k, d, Replay(d, r.pendedTicks), ResumeAll(k));
    } else {
      NobodyLeaves(k, ResumeAll(k));
    }
  }

  lemma LeavingTwice(k: Kernel, d: Kernel, p: Kernel, e: Kernel)
    requires EventsOnlyLeave(k.(suspended := 0), d) && EventsOnlyLeave(d, p) && e.h == p.h
    ensures EventsOnlyLeave(k, e)
  {}

  lemma NobodyLeaves(k: Kernel, w: Kernel)
    requires w.h == k.h
    ensures EventsOnlyLeave(k, w)
  {}

  lemma DrainOnlyLeaves(r: Kernel)
    requires Partition(r) && Wheel(r, r.tick + 1) && Counts(r)
    ensures EventsOnlyLeave(r, Drain(r))
  {
    hide Partition, Wheel, Counts, WakeAll, Pending;
    DrainKeeps(r);
    WokenEventsLeave(r, WakeAll(r, Pending(r)), Pending(r));
  }

  /** An operation for task `t` that leaves its event item where it is, or takes it off all
      event lists. */
  lemma OneTaskLeft(k: Kernel, w: Kernel, t: Task, id: nat)
    requires OthersStay(k, w, t) && Partition(w)
    requires w.h.In(EventItem(t), EventList(id)) ==> k.h.In(EventItem(t), EventList(id))
    ensures NobodyCame(k, w, id)
  {
    forall i | w.h.In(i, EventList(id)) ensures k.h.In(i, EventList(id)) {
      assert i == EventItem(i.task);
    }
  }

  lemma SameContainersNobodyCame(k: Kernel, w: Kernel, id: nat)
    requires w.h.container == k.h.container
    ensures NobodyCame(k, w, id)
  {}

  lemma WakingLeaves(k: Kernel, op: Op, id: nat)
    requires Inv(k) && Enabled(k, op) && Partition(Apply(k, op))
    requires op.NotifyOp? || op.NotifyUnorderedOp? || op.ResumeOp? || op.ResumeFromISROp?
    ensures NobodyCame(k, Apply(k, op), id)
  {
    hide Partition, Wheel, RemoveFromEventList, RemoveFromUnordered, Resume, ResumeFromISR, InUse;
    hide JoinsReady, OthersStay, NobodyCame;
    match op {
      case NotifyOp(n) =>
        if k.h.Items(EventList(n)) != [] {
          HeadIsServed(k, n);
          OneTaskLeft(k, Apply(k, op), k.h.Items(EventList(n))[0].task, id);
        } else {
          SameContainersNobodyCame(k, Apply(k, op), id) by { NothingToRemove(k, n); }
        }
      case NotifyUnorderedOp(t, v) =>
        ReleasedIsServed(k, t, v);
        OneTaskLeft(k, Apply(k, op), t, id);
      case ResumeOp(t) =>
        ResumedIsReady(k, t);
        if Apply(k, op) == k { SameContainersNobodyCame(k, k, id); } else { OneTaskLeft(k, Apply(k, op), t, id); }
      case ResumeFromISROp(t) =>
        ResumedFromISRIsReady(k, t);
        if Apply(k, op) == k { SameContainersNobodyCame(k, k, id); } else { OneTaskLeft(k, Apply(k, op), t, id); }
    }
  }

  lemma NothingToRemove(k: Kernel, id: nat)
    requires k.h.Items(EventList(id)) == []
    ensures RemoveFromEventList(k, id) == k
  {}

  lemma TaskOpLeaves(k: Kernel, op: Op, id: nat)
    requires Inv(k) && Enabled(k, op) && Partition(Apply(k, op))
    requires op.CreateOp? || op.DeleteOp? || op.SuspendOp? || op.CleanUpOp?
    ensures NobodyCame(k, Apply(k, op), id)
  {
    hide Partition, Wheel, Create, Delete, Suspend, CleanUp, JoinsReady, OthersStay, NobodyCame;
    match op {
      case CreateOp(t, p) =>
        CreatedIsReady(k, t, p);
        OneTaskLeft(k, Apply(k, op), t, id);
      case DeleteOp(t) =>
        DeletedIsGone(k, t);
        OneTaskLeft(k, Apply(k, op), t, id);
      case SuspendOp(t) =>
        SuspendedIsSuspended(k, t);
        OneTaskLeft(k, Apply(k, op), t, id);
      case CleanUpOp => CleanUpLeaves(k, id);
    }
  }

  lemma CleanUpLeaves(k: Kernel, id: nat)
    ensures NobodyCame(k, CleanUp(k), id)
  {
    if k.toCleanUp != 0 && k.h.Items(Termination) != [] { RestingContainers(k.h, k.h.Items(Termination)[0]); }
  }

  lemma PriorityOpLeaves(k: Kernel, op: Op, id: nat)
    requires Inv(k) && Enabled(k, op) && Partition(Apply(k, op))
    requires op.PrioritySetOp? || op.InheritOp? || op.DisinheritOp?
    ensures NobodyCame(k, Apply(k, op), id)
  {
    hide Partition, Wheel, PrioritySet, Inherit, Disinherit, JoinsReady, OthersStay, NobodyCame, SameStanding;
    var w := Apply(k, op);
    match op {
      case PrioritySetOp(t, p) =>
        ReprioritisedGoesLast(k, t, p);
        if w == k { SameContainersNobodyCame(k, k, id); } else { OneTaskLeft(k, w, t, id); }
      case InheritOp(t) =>
        LentGoesLast(k, t);
        if w == k { SameContainersNobodyCame(k, k, id); } else { OneTaskLeft(k, w, t, id); }
      case DisinheritOp =>
        FallenBackGoesLast(k);
        if w.h == k.h { SameContainersNobodyCame(k, w, id); } else { OneTaskLeft(k, w, k.current, id); }
    }
  }

  /** The running task joins the list. */
  predicate Joins(k: Kernel, op: Op, id: nat, i: Item) {
    (op.WaitOp? || op.WaitUnorderedOp?) && op.id == id && i == EventItem(k.current)
  }

  /** Over every operation: nobody comes onto an event list but the running task, by waiting
      on it. */
  lemma NobodyComesUnasked(k: Kernel, op: Op, id: nat, i: Item)
    requires Sound(k) && Enabled(k, op) && Apply(k, op).h.In(i, EventList(id))
    ensures k.h.In(i, EventList(id)) || Joins(k, op, id, i)
  {
    hide Inv, Apply, NobodyCame;
    var w := Apply(k, op);
    InvBounds(k);
    StepKeepsInv(k, op);
    InvBounds(w);
    if op.WaitOp? || op.WaitUnorderedOp? {
      WaiterJoins(k, op);
      EventItemsOnly(w, i, id);
    } else {
      assert NobodyCame(k, w, id) by { OthersOnlyLeave(k, op, id); }
      CameBefore(k, w, id, i);
    }
  }

  lemma EventItemsOnly(w: Kernel, i: Item, id: nat)
    requires Partition(w) && w.h.In(i, EventList(id))
    ensures i == EventItem(i.task)
  {}

  lemma CameBefore(k: Kernel, w: Kernel, id: nat, i: Item)
    requires NobodyCame(k, w, id) && w.h.In(i, EventList(id))
    ensures k.h.In(i, EventList(id))
  {}

  lemma OthersOnlyLeave(k: Kernel, op: Op, id: nat)
    requires Inv(k) && Enabled(k, op) && !op.WaitOp? && !op.WaitUnorderedOp? && Partition(Apply(k, op))
    ensures NobodyCame(k, Apply(k, op), id)
  {
    hide Inv, Apply, NobodyCame, Enabled, Partition;
    InvBounds(k);
    match op {
      case TickOp => TickOnlyLeaves(k, id);
      case ResumeAllOp =>
        assert 0 < k.suspended by { ResumeHasReason(k); }
        ResumeLeaves(k, id);
      case DelayOp(ticks) => DelayLeaves(k, ticks, id);
      case NotifyOp(_) => WakingLeaves(k, op, id);
      case NotifyUnorderedOp(_, _) => WakingLeaves(k, op, id);
      case ResumeOp(_) => WakingLeaves(k, op, id);
      case ResumeFromISROp(_) => WakingLeaves(k, op, id);
      case CreateOp(_, _) => TaskOpLeaves(k, op, id);
      case DeleteOp(_) => TaskOpLeaves(k, op, id);
      case SuspendOp(_) => TaskOpLeaves(k, op, id);
      case CleanUpOp => TaskOpLeaves(k, op, id);
      case PrioritySetOp(_, _) => PriorityOpLeaves(k, op, id);
      case InheritOp(_) => PriorityOpLeaves(k, op, id);
      case DisinheritOp => PriorityOpLeaves(k, op, id);
      case _ => QuietLeaves(k, op, id);
    }
  }

  lemma TickOnlyLeaves(k: Kernel, id: nat)
    requires Inv(k) && Partition(Apply(k, TickOp))
    ensures NobodyCame(k, Apply(k, TickOp), id)
  {
    hide Partition, Wheel, Counts, IncrementTick, NobodyCame, EventsOnlyLeave;
    if k.suspended == 0 {
      TickKeepsEvents(k);
      OnlyLeft(k, IncrementTick(k), id);
    } else {
      SameContainersNobodyCame(k, Apply(k, TickOp), id);
    }
  }

  lemma ResumeLeaves(k: Kernel, id: nat)
    requires Inv(k) && 0 < k.suspended && Partition(Apply(k, ResumeAllOp))
    ensures NobodyCame(k, Apply(k, ResumeAllOp), id)
  {
    hide Inv, Partition, ResumeAll, NobodyCame, EventsOnlyLeave;
    ResumeOnlyLeaves(k);
    OnlyLeft(k, ResumeAll(k), id);
  }

  lemma ResumeHasReason(k: Kernel)
    requires Enabled(k, ResumeAllOp)
    ensures 0 < k.suspended
  {}

  lemma DelayLeaves(k: Kernel, ticks: nat, id: nat)
    requires Inv(k) && Enabled(k, DelayOp(ticks)) && Partition(Apply(k, DelayOp(ticks)))
    ensures NobodyCame(k, Apply(k, DelayOp(ticks)), id)
  {
    hide Wheel, Block, NobodyCame, OthersStay, Partition;
    InvBounds(k);
    BlockEffect(k, ticks, false);
    OneTaskLeft(k, Apply(k, DelayOp(ticks)), k.current, id);
  }

  lemma QuietLeaves(k: Kernel, op: Op, id: nat)
    requires op.SuspendAllOp? || op.HoldMutexOp? || op.ResetEventItemValueOp? || op.SwitchOp?
    ensures NobodyCame(k, Apply(k, op), id)
  {
    hide NobodyCame, HighestLevel, EventValue;
    SameContainersNobodyCame(k, Apply(k, op), id);
  }
}
