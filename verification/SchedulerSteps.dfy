/** Every operation of the scheduler keeps the invariant. */
module SchedulerSteps {
  import opened KernelConfig
  import opened KernelLists
  import opened ListHeap
  import opened Scheduler
  import opened SchedulerInvariant

  // ----- Resuming the scheduler -----------------------------------------------------

  /** Event items only leave the lists they are on. */
  ghost predicate EventsOnlyLeave(k: Kernel, w: Kernel) {
    forall t, l :: w.h.In(EventItem(t), l) ==> k.h.In(EventItem(t), l)
  }

  lemma StillNothingPending(k: Kernel, w: Kernel)
    requires Partition(k) && Partition(w) && EventsOnlyLeave(k, w) && k.h.Items(PendingReady) == []
    ensures w.h.Items(PendingReady) == []
  {
    EmptyIffNothingIn(k.h, PendingReady);
    EmptyIffNothingIn(w.h, PendingReady);
    forall i ensures !w.h.In(i, PendingReady) {
      assert w.h.In(i, PendingReady) ==> i == EventItem(i.task);
    }
  }

  lemma WokenEventsLeave(k: Kernel, w: Kernel, ts: seq<Task>)
    requires Woken(k, w, ts)
    ensures EventsOnlyLeave(k, w)
  {}

  lemma TickKeepsEvents(k: Kernel)
    requires Partition(k) && Wheel(k, k.tick + 1) && Counts(k)
    ensures EventsOnlyLeave(k, IncrementTick(k))
  {
    hide WakeAll, Due, Wheel, Partition, Counts;
    AdvanceKeeps(k);
    var a := Advance(k);
    if a.nextUnblock <= a.tick {
      ExpireKeeps(a);
      WokenEventsLeave(a, WakeAll(a, Due(a)), Due(a));
    }
  }

  /** Replaying `n` ticks keeps everything, and leaves nothing pending. */
  lemma {:induction false} ReplayKeeps(k: Kernel, n: nat)
    requires Partition(k) && Wheel(k, k.tick + 1) && Counts(k) && k.h.Items(PendingReady) == []
    ensures var r := Replay(k, n);
            && Partition(r) && Wheel(r, r.tick + 1) && Counts(r) && r.h.Items(PendingReady) == []
            && r.suspended == k.suspended && r.tcb == k.tcb
    decreases n
  {
    hide IncrementTick, Partition, Wheel, Counts, SwitchRequired;
    if 0 < n {
      var t := IncrementTick(k);
      var r := t.(yieldPending := SwitchRequired(k));
      TickKeeps(k);
      TickKeepsEvents(k);
      StillNothingPending(k, t);
      TickFrame(k);
      YieldIsAside(t, SwitchRequired(k));
      ReplayKeeps(r, n - 1);
    }
  }

  lemma TickFrame(k: Kernel)
    ensures var r := IncrementTick(k);
            r.suspended == k.suspended && r.pendedTicks == k.pendedTicks && r.tcb == k.tcb && r.current == k.current
  {
    var a := Advance(k);
    WakeAllFrame(a, Due(a));
  }

  lemma {:induction false} WakeAllFrame(k: Kernel, ts: seq<Task>)
    ensures var w := WakeAll(k, ts);
            w == k.(h := w.h, top := w.top) && w.h.value == k.h.value
    decreases |ts|
  {
    if ts != [] {
      WakeAllFrame(Wake(k, ts[0]), ts[1..]);
    }
  }

  lemma YieldIsAside(k: Kernel, y: bool)
    requires Partition(k) && Wheel(k, k.tick + 1) && Counts(k)
    ensures var r := k.(yieldPending := y);
            Partition(r) && Wheel(r, r.tick + 1) && Counts(r)
  {}

  lemma PendingFacts(k: Kernel)
    requires Partition(k)
    ensures NoDup(Pending(k))
    ensures forall t :: t in Pending(k) <==> k.h.In(EventItem(t), PendingReady)
    ensures forall t :: t in Pending(k) ==> k.Blocked(t)
  {
    var items := k.h.Items(PendingReady);
    assert forall j :: 0 <= j < |items| ==> items[j] in items;
    assert forall j :: 0 <= j < |items| ==> items[j] == EventItem(items[j].task);
    forall i, j | 0 <= i < j < |items| ensures Pending(k)[i] != Pending(k)[j] {
      assert items[i] != items[j];
    }
    forall t ensures t in Pending(k) <==> k.h.In(EventItem(t), PendingReady) {
      if k.h.In(EventItem(t), PendingReady) {
        assert Pending(k)[Position(items, EventItem(t))] == t;
      }
      if t in Pending(k) {
        assert items[Position(Pending(k), t)] == EventItem(t);
      }
    }
  }

  /** Draining empties the pending list and readies each pended task. */
  lemma DrainKeeps(k: Kernel)
    requires Partition(k) && Wheel(k, k.tick + 1) && Counts(k)
    ensures var d := Drain(k);
            && Partition(d) && Wheel(d, d.tick + 1) && Counts(d) && d.h.Items(PendingReady) == []
            && Woken(k, WakeAll(k, Pending(k)), Pending(k))
            && d == WakeAll(k, Pending(k)).(nextUnblock := d.nextUnblock, yieldPending := d.yieldPending)
  {
    hide Partition, Wheel, Counts, WakeAll, Pending, ResetNextUnblock;
    var ts := Pending(k);
    PendingFacts(k);
    WakeAllKeeps(k, ts, k.tick + 1);
    var w := WakeAll(k, ts);
    WokenFrame(k, w, ts);
    if ts != [] {
      ResetKeeps(w, w.tick + 1);
      YieldIsAside(ResetNextUnblock(w), Drain(k).yieldPending);
    } else {
      WakeNobody(k);
    }
    NothingPendingAfter(k, w, ts);
  }

  lemma WakeNobody(k: Kernel)
    ensures WakeAll(k, []) == k
  {}

  lemma WokenFrame(k: Kernel, w: Kernel, ts: seq<Task>)
    requires Woken(k, w, ts)
    ensures w.tick == k.tick && w.suspended == k.suspended && w.pendedTicks == k.pendedTicks && w.tcb == k.tcb
  {}

  lemma NothingPendingAfter(k: Kernel, w: Kernel, ts: seq<Task>)
    requires Partition(w) && Woken(k, w, ts)
    requires forall t :: t in ts <==> k.h.In(EventItem(t), PendingReady)
    ensures w.h.Items(PendingReady) == []
  {
    forall i ensures !w.h.In(i, PendingReady) {
      assert w.h.In(i, PendingReady) ==> i == EventItem(i.task);
      assert i.task in ts ==> !w.OnEvent(i.task);
    }
    EmptyIffNothingIn(w.h, PendingReady);
  }

  lemma DrainFrame(k: Kernel)
    ensures var d := Drain(k);
            && d.suspended == k.suspended && d.pendedTicks == k.pendedTicks && d.tcb == k.tcb && d.current == k.current
            && d.tick == k.tick && d.overflows == k.overflows && d.delayed == k.delayed && d.overflow == k.overflow
  {
    WakeAllFrame(k, Pending(k));
  }

  lemma {:induction false} ReplayFrame(k: Kernel, n: nat)
    ensures Replay(k, n).current == k.current && Replay(k, n).pendedTicks == k.pendedTicks
    decreases n
  {
    hide IncrementTick, SwitchRequired;
    if 0 < n {
      TickFrame(k);
      ReplayFrame(IncrementTick(k).(yieldPending := SwitchRequired(k)), n - 1);
    }
  }

  lemma SuspensionIsAside(k: Kernel, n: nat, p: nat)
    requires Partition(k) && Wheel(k, k.tick + 1) && Counts(k)
    ensures var r := k.(suspended := n, pendedTicks := p);
            Partition(r) && Wheel(r, r.tick + 1) && Counts(r)
  {}

  lemma DrainedAndReplayedKeeps(r: Kernel, n: nat)
    requires Partition(r) && Wheel(r, r.tick + 1) && Counts(r)
    ensures var p := Replay(Drain(r), n);
            && Partition(p) && Wheel(p, p.tick + 1) && Counts(p) && p.h.Items(PendingReady) == []
            && p.suspended == r.suspended && p.tcb == r.tcb && p.current == r.current
  {
    hide *;
    DrainKeeps(r);
    DrainFrame(r);
    ReplayKeeps(Drain(r), n);
    ReplayFrame(Drain(r), n);
  }

  /** The outermost resume leaves nothing pending, neither tasks nor ticks. */
  lemma ResumeAllKeeps(k: Kernel)
    requires Inv(k) && 0 < k.suspended
    ensures Inv(ResumeAll(k))
    ensures k.suspended == 1 ==> ResumeAll(k).h.Items(PendingReady) == [] && ResumeAll(k).pendedTicks == 0
  {
    hide Drain, Replay, Partition, Wheel;
    var r := k.(suspended := k.suspended - 1);
    SuspensionIsAside(k, r.suspended, k.pendedTicks);
    assert r == k.(suspended := r.suspended, pendedTicks := k.pendedTicks);
    if r.suspended == 0 {
      DrainedAndReplayedKeeps(r, r.pendedTicks);
      var p := Replay(Drain(r), r.pendedTicks);
      SuspensionIsAside(p, p.suspended, 0);
      assert ResumeAll(k) == p.(suspended := p.suspended, pendedTicks := 0);
    }
  }

  lemma TickInterruptKeeps(k: Kernel)
    requires Inv(k)
    ensures Inv(TickInterrupt(k))
  {
    hide IncrementTick, Partition, Wheel;
    if k.suspended == 0 {
      TickKeeps(k);
      TickFrame(k);
      TickKeepsEvents(k);
      StillNothingPending(k, IncrementTick(k));
    } else {
      SuspensionIsAside(k, k.suspended, k.pendedTicks + 1);
      assert TickInterrupt(k) == k.(suspended := k.suspended, pendedTicks := k.pendedTicks + 1);
    }
  }

  // ----- Blocking -------------------------------------------------------------------

  lemma WrapTick(n: nat)
    requires n < 2 * TICK_MODULUS
    ensures n % TICK_MODULUS == if n < TICK_MODULUS then n else n - TICK_MODULUS
  {}

  /** The list that the running task's state item goes to when it blocks. */
  function BlockList(k: Kernel, ticks: nat, indefinitely: bool): ListId {
    if ticks == MAX_DELAY && indefinitely then Suspended
    else if k.tick + ticks < TICK_MODULUS then k.delayed else k.overflow
  }

  /** `w` is `k` with the running task's state item in `l`, in order of its wake time. */
  ghost predicate Parked(k: Kernel, w: Kernel, l: ListId) {
    var i := StateItem(k.current);
    && w.h.Wf() && w == k.(h := w.h, nextUnblock := w.nextUnblock)
    && w.h.container == k.h.container[i := l]
    && (forall j: Item :: j != i ==> w.h.Val(j) == k.h.Val(j))
    && (forall m :: m != Suspended && k.h.Ordered(m) ==> w.h.Ordered(m))
    && (forall m :: m != l && !k.h.In(i, m) ==> w.h.At(m) == k.h.At(m))
  }

  /** Blocking moves the running task's state item, in order of its wake time. */
  lemma BlockParks(k: Kernel, ticks: nat, indefinitely: bool)
    requires k.h.Wf() && k.tick < TICK_MODULUS && StateItem(k.current) in k.h.container && 0 < ticks < TICK_MODULUS
    requires k.delayed != k.overflow && k.delayed != Suspended && k.overflow != Suspended
    ensures var w, l := Block(k, ticks, indefinitely), BlockList(k, ticks, indefinitely);
            && Parked(k, w, l)
            && (l != Suspended ==> w.h.Val(StateItem(k.current)) == (k.tick + ticks) % TICK_MODULUS)
            && w.nextUnblock == (if l == k.delayed && k.tick + ticks < k.nextUnblock then k.tick + ticks
                else k.nextUnblock)
  {
    hide MoveState, MoveTimed;
    WrapTick(k.tick + ticks);
    if ticks == MAX_DELAY && indefinitely {
      MoveStateFacts(k.h, k.current, Suspended);
    } else {
      MoveTimedFacts(k.h, k.current, (k.tick + ticks) % TICK_MODULUS, BlockList(k, ticks, indefinitely));
    }
  }
}
