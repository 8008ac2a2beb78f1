/** The modular tick count and the two delayed lists implement one timeline: an unbounded
    clock and, for every task blocked with a timeout, an unbounded wake time. */
module SchedulerTime {
  import opened KernelConfig
  import opened ListHeap
  import opened Scheduler
  import opened SchedulerInvariant
  import opened SchedulerSteps
  import opened SchedulerOperations
  import opened SchedulerTasks
  import opened SchedulerRuns

  datatype Timeline = Timeline(now: nat, wakes: map<Task, nat>) {

    /** One tick passes: exactly the tasks whose time has come are no longer waiting. */
    function Pass(): Timeline {
      Timeline(now + 1, map t | t in wakes && wakes[t] != now + 1 :: wakes[t])
    }

    function PassMany(n: nat): Timeline
      decreases n
    {
      if n == 0 then this else Pass().PassMany(n - 1)
    }

    function Sleep(t: Task, ticks: nat): Timeline {
      this.(wakes := wakes[t := now + ticks])
    }

    function Forget(ts: set<Task>): Timeline {
      this.(wakes := wakes - ts)
    }
  }

  /** The first tick of an epoch: one epoch is one turn of the tick count. */
  function Epoch(n: nat): nat {
    n * TICK_MODULUS
  }

  lemma NextEpoch(n: nat)
    ensures Epoch(n + 1) == Epoch(n) + TICK_MODULUS
  {}

  function Now(k: Kernel): nat {
    Epoch(k.overflows) + k.tick
  }

  function WakeTime(k: Kernel, t: Task): nat {
    (if k.Is(t, k.delayed) then Epoch(k.overflows) else Epoch(k.overflows + 1)) + k.h.Val(StateItem(t))
  }

  function View(k: Kernel): Timeline {
    Timeline(Now(k), map t | t in k.tcb && k.Timed(t) :: WakeTime(k, t))
  }

  /** No task is ever late, and none sleeps for a whole turn or more. */
  lemma WakesAreAhead(k: Kernel)
    requires Wheel(k, k.tick + 1)
    ensures forall t :: t in View(k).wakes ==> Now(k) < View(k).wakes[t] < Now(k) + TICK_MODULUS
  {}

  lemma {:induction false} PassManyNow(v: Timeline, n: nat)
    ensures v.PassMany(n).now == v.now + n
    decreases n
  {
    if 0 < n { PassManyNow(v.Pass(), n - 1); }
  }

  // ----- Frames ---------------------------------------------------------------------

  ghost predicate SameClock(k: Kernel, w: Kernel) {
    w.delayed == k.delayed && w.overflow == k.overflow && w.overflows == k.overflows && w.tick == k.tick
  }

  ghost predicate SameStanding(k: Kernel, w: Kernel, u: Task) {
    && (u in w.tcb <==> u in k.tcb)
    && (StateItem(u) in w.h.container <==> StateItem(u) in k.h.container)
    && (StateItem(u) in k.h.container ==> w.h.container[StateItem(u)] == k.h.container[StateItem(u)])
    && w.h.Val(StateItem(u)) == k.h.Val(StateItem(u))
  }

  /** Only tasks in `ts` have moved, and those have no timeout any more. */
  lemma OnlyForgets(k: Kernel, w: Kernel, ts: set<Task>)
    requires SameClock(k, w)
    requires forall u :: u !in ts ==> SameStanding(k, w, u)
    requires forall u :: u in ts ==> u !in w.tcb || !w.Timed(u)
    ensures View(w) == View(k).Forget(ts)
  {
    hide Epoch;
    assert forall u :: SameStanding(k, w, u) ==> w.Is(u, k.delayed) == k.Is(u, k.delayed);
    assert View(w).wakes == View(k).Forget(ts).wakes;
  }

  // ----- The tick -------------------------------------------------------------------

  lemma SameWakes(k: Kernel, w: Kernel)
    requires w.tcb == k.tcb
    requires forall t :: w.Timed(t) == k.Timed(t)
    requires forall t :: k.Timed(t) ==> WakeTime(w, t) == WakeTime(k, t)
    ensures View(w).wakes == View(k).wakes
  {}

  lemma AdvanceOnlyCounts(k: Kernel)
    requires Partition(k) && Wheel(k, k.tick + 1)
    ensures View(Advance(k)) == View(k).(now := Now(k) + 1)
  {
    hide Epoch, Partition, Wheel, View;
    var a := Advance(k);
    ViewNow(a);
    ViewNow(k);
    assert k.tick < TICK_MODULUS by { WheelTick(k); }
    if k.tick + 1 == TICK_MODULUS {
      NextEpoch(k.overflows);
      NextEpoch(k.overflows + 1);
      NobodyDelayedAtWrap(k);
      assert a == Switched(k).(nextUnblock := a.nextUnblock);
    }
    SameWakes(k, a);
  }

  lemma WheelTick(k: Kernel)
    requires Wheel(k, k.tick + 1)
    ensures k.tick < TICK_MODULUS
  {}

  lemma NobodyDelayedAtWrap(k: Kernel)
    requires Partition(k) && Wheel(k, k.tick + 1) && k.tick + 1 == TICK_MODULUS
    ensures forall t :: !k.Is(t, k.delayed)
    ensures k.delayed != k.overflow
  {}

  lemma DueIsNow(k: Kernel)
    requires Partition(k) && Wheel(k, k.tick)
    ensures forall t :: t in Due(k) <==> t in View(k).wakes && View(k).wakes[t] == Now(k)
  {
    hide Epoch, Due;
    DueFacts(k);
    NextEpoch(k.overflows);
  }

  lemma WokenForgets(k: Kernel, w: Kernel, ts: seq<Task>)
    requires Woken(k, w, ts)
    requires TwoLists(k)
    ensures View(w) == View(k).Forget(set t | t in ts)
  {
    forall u | u !in ts ensures SameStanding(k, w, u) {
      assert StateItem(u).task == u;
    }
    forall u | u in ts ensures !w.Timed(u) {
      assert w.Is(u, Ready(k.Prio(u)));
    }
    OnlyForgets(k, w, set t | t in ts);
  }

  lemma ExpireForgets(a: Kernel)
    requires Partition(a) && Wheel(a, a.tick) && Counts(a)
    ensures var e := Expire(a);
            && View(e) == View(a).Forget(set t | t in Due(a))
            && (forall t :: t in Due(a) ==> e.Is(t, Ready(a.Prio(t))) && !e.OnEvent(t))
            && (forall t :: t !in Due(a) ==> SameStanding(a, e, t))
  {
    hide Partition, Wheel, Counts, WakeAll, Due, ResetNextUnblock, View;
    WheelLists(a, a.tick);
    ExpireKeeps(a);
    var w := WakeAll(a, Due(a));
    WokenForgets(a, w, Due(a));
    WokenStandings(a, w, Due(a));
    UnblockTimeIsAside(w, Expire(a).nextUnblock);
  }

  /** Each tick that is processed takes off the timeline exactly the tasks whose wake time
      is the new time, and makes these ready; every other task stays where it is. */
  lemma TickRefinesTimeline(k: Kernel)
    requires Partition(k) && Wheel(k, k.tick + 1) && Counts(k)
    ensures var r := IncrementTick(k);
            && View(r) == View(k).Pass()
            && (forall t :: t in View(k).wakes && View(k).wakes[t] == Now(k) + 1 ==>
                (r.Is(t, Ready(k.Prio(t))) && !r.OnEvent(t)))
            && (forall t :: !(t in View(k).wakes && View(k).wakes[t] == Now(k) + 1) ==> SameStanding(k, r, t))
  {
    hide Partition, Wheel, Counts, Due, View, Advance, Expire, Now;
    var a := Advance(k);
    AdvanceKeeps(k);
    AdvanceOnlyCounts(k);
    DueIsNow(a);
    ViewNow(a);
    ViewNow(k);
    ForgetIsPass(View(k), Due(a));
    if a.nextUnblock <= a.tick {
      ExpireForgets(a);
    } else {
      ShortcutIsSafe(a);
    }
  }

  lemma ViewNow(k: Kernel)
    ensures View(k).now == Now(k)
  {}

  lemma WokenStandings(k: Kernel, w: Kernel, ts: seq<Task>)
    requires Woken(k, w, ts)
    ensures forall t :: t !in ts ==> SameStanding(k, w, t)
  {}

  lemma UnblockTimeIsAside(k: Kernel, n: nat)
    ensures View(k.(nextUnblock := n)) == View(k)
    ensures forall t :: SameStanding(k, k.(nextUnblock := n), t)
  {}

  lemma ForgetIsPass(v: Timeline, ts: seq<Task>)
    requires forall t :: t in ts <==> t in v.wakes && v.wakes[t] == v.now + 1
    ensures v.(now := v.now + 1).Forget(set t | t in ts) == v.Pass()
    ensures ts == [] ==> v.(now := v.now + 1) == v.Pass()
  {}

  // ----- Resuming the scheduler -----------------------------------------------------

  lemma SameView(k: Kernel, w: Kernel)
    requires SameClock(k, w) && w.h == k.h && w.tcb == k.tcb
    ensures View(w) == View(k)
  {}

  lemma {:induction false} ReplayRefinesTimeline(k: Kernel, n: nat)
    requires Partition(k) && Wheel(k, k.tick + 1) && Counts(k)
    ensures View(Replay(k, n)) == View(k).PassMany(n)
    decreases n
  {
    hide IncrementTick, Partition, Wheel, Counts, SwitchRequired, View, Now;
    if 0 < n {
      var t := IncrementTick(k);
      var r := t.(yieldPending := SwitchRequired(k));
      TickKeeps(k);
      TickRefinesTimeline(k);
      YieldIsAside(t, r.yieldPending);
      SameView(t, r);
      ReplayRefinesTimeline(r, n - 1);
    }
  }

  lemma DrainForgets(k: Kernel)
    requires Partition(k) && Wheel(k, k.tick + 1) && Counts(k)
    ensures View(Drain(k)) == View(k).Forget(set t | t in Pending(k))
  {
    hide Partition, Wheel, Counts, WakeAll, Pending, View, Drain;
    var w := WakeAll(k, Pending(k));
    DrainKeeps(k);
    WheelLists(k, k.tick + 1);
    WokenForgets(k, w, Pending(k));
    SameView(w, Drain(k));
  }

  lemma DrainedAndReplayed(r: Kernel)
    requires Partition(r) && Wheel(r, r.tick + 1) && Counts(r)
    ensures View(Replay(Drain(r), r.pendedTicks)) == View(r).Forget(set t | t in Pending(r)).PassMany(r.pendedTicks)
  {
    hide *;
    DrainForgets(r);
    DrainKeeps(r);
    ReplayRefinesTimeline(Drain(r), r.pendedTicks);
  }

  /** The outermost resume takes the pended tasks off the timeline and then lets each
      pended tick pass, once. */
  lemma ResumeAllRefinesTimeline(k: Kernel)
    requires Inv(k) && 0 < k.suspended
    ensures View(ResumeAll(k)) ==
      if k.suspended == 1 then View(k).Forget(set t | t in Pending(k)).PassMany(k.pendedTicks) else View(k)
  {
    hide Partition, Wheel, Drain, Replay, View, Pending;
    InvBounds(k);
    var r := k.(suspended := k.suspended - 1);
    SuspensionIsAside(k, r.suspended, k.pendedTicks);
    assert r == k.(suspended := r.suspended, pendedTicks := k.pendedTicks);
    SameView(k, r);
    if k.suspended == 1 {
      assert 0 < k.tasks;
      DrainedAndReplayed(r);
      SameView(Replay(Drain(r), r.pendedTicks), ResumeAll(k));
      SamePendingTasks(k, r);
    }
  }

  lemma SamePendingTasks(k: Kernel, r: Kernel)
    requires r.h == k.h
    ensures Pending(r) == Pending(k)
  {}

  // ----- Blocking -------------------------------------------------------------------

  /** Only `t` may have moved, and it now has a timeout. */
  lemma OnlySleeps(k: Kernel, w: Kernel, t: Task, ticks: nat)
    requires SameClock(k, w) && t in w.tcb && w.Timed(t) && WakeTime(w, t) == Now(k) + ticks
    requires forall u :: u != t ==> SameStanding(k, w, u)
    ensures View(w) == View(k).Sleep(t, ticks)
  {
    hide Epoch;
    forall u | u != t
      ensures (u in w.tcb && w.Timed(u)) == (u in k.tcb && k.Timed(u))
      ensures u in k.tcb && k.Timed(u) ==> WakeTime(w, u) == WakeTime(k, u)
    {
      assert SameStanding(k, w, u);
    }
    assert View(w).wakes == View(k).Sleep(t, ticks).wakes;
  }

  lemma ParkedStandings(k: Kernel, m: Kernel, w: Kernel, l: ListId)
    requires EventPlaced(k, m) && Parked(m, w, l)
    ensures SameClock(k, w) && w.tcb == k.tcb
    ensures forall u :: u != k.current ==> SameStanding(k, w, u)
    ensures w.h.In(StateItem(k.current), l)
  {}

  lemma ParkedView(k: Kernel, m: Kernel, w: Kernel, l: ListId, ticks: nat)
    requires k.current in k.tcb && EventPlaced(k, m) && Parked(m, w, l) && TwoLists(k) && !k.Timed(k.current)
    requires l == Suspended || l == WakeList(k, ticks)
    requires l != Suspended ==> w.h.Val(StateItem(k.current)) == WakeValue(k, ticks)
    ensures View(w) == if l == Suspended then View(k) else View(k).Sleep(k.current, ticks)
  {
    hide EventPlaced, Parked, View, Epoch;
    ParkedStandings(k, m, w, l);
    if l == Suspended {
      OffForgets(k, w, k.current);
    } else {
      NextEpoch(k.overflows);
      OnlySleeps(k, w, k.current, ticks);
    }
  }

  lemma ReadyIsNotTimed(k: Kernel, t: Task)
    requires k.IsReady(t) && TwoLists(k)
    ensures !k.Timed(t)
  {}

  /** A task that blocks for some ticks is put at that distance on the timeline; one that
      blocks indefinitely is not put on it. */
  lemma BlockRefinesTimeline(k: Kernel, m: Kernel, ticks: nat, indefinitely: bool)
    requires Inv(k) && k.IsReady(k.current) && EventPlaced(k, m) && 0 < ticks < TICK_MODULUS
    ensures View(Block(m, ticks, indefinitely)) ==
      if ticks == MAX_DELAY && indefinitely then View(k) else View(k).Sleep(k.current, ticks)
  {
    hide Inv, Partition, Wheel, Block, View, Parked, EventPlaced;
    InvBounds(k);
    BlockedParks(k, m, ticks, indefinitely);
    ReadyIsNotTimed(k, k.current);
    ParkedView(k, m, Block(m, ticks, indefinitely), BlockList(m, ticks, indefinitely), ticks);
    assert BlockList(m, ticks, indefinitely) == Suspended <==> ticks == MAX_DELAY && indefinitely by {
      PlacedClock(k, m);
    }
  }

  lemma PlacedClock(k: Kernel, m: Kernel)
    requires EventPlaced(k, m)
    ensures SameClock(k, m)
  {}

  lemma BlockingOpsRefineTimeline(k: Kernel, op: Op)
    requires Inv(k) && Enabled(k, op) && (op.DelayOp? || op.WaitOp? || op.WaitUnorderedOp?)
    ensures View(Apply(k, op)) ==
      if !op.DelayOp? && op.ticks == MAX_DELAY then View(k) else View(k).Sleep(k.current, op.ticks)
  {
    hide Inv, Partition, Block, View, EventPlaced, InUse;
    InvBounds(k);
    match op {
      case DelayOp(ticks) =>
        NothingPlaced(k);
        BlockRefinesTimeline(k, k, ticks, false);
      case WaitOp(id, ticks) =>
        var m := k.(h := k.h.LinkSorted(EventList(id), EventItem(k.current)));
        PlacedInOrder(k, m, id);
        BlockRefinesTimeline(k, m, ticks, true);
      case WaitUnorderedOp(id, v, ticks) =>
        var i := EventItem(k.current);
        var m := k.(h := k.h.SetValue(i, InUse(v)).LinkEnd(EventList(id), i));
        PlacedAtEnd(k, m, id, InUse(v));
        BlockRefinesTimeline(k, m, ticks, true);
    }
  }

  // ----- The other operations -------------------------------------------------------

  /** Only `t` may have moved, the clock stands, and `t` has no timeout any more. */
  ghost predicate Off(k: Kernel, w: Kernel, t: Task) {
    && SameClock(k, w)
    && (forall u :: u != t ==> SameStanding(k, w, u))
    && (t !in w.tcb || !w.Timed(t))
  }

  lemma OffForgets(k: Kernel, w: Kernel, t: Task)
    requires Off(k, w, t)
    ensures View(w) == View(k).Forget({t})
    ensures t !in k.tcb || !k.Timed(t) ==> View(w) == View(k)
  {
    OnlyForgets(k, w, {t});
    assert t !in View(k).wakes ==> View(k).Forget({t}).wakes == View(k).wakes;
  }

  lemma WakeTakesOff(k: Kernel, t: Task)
    requires TwoLists(k)
    ensures Off(k, Wake(k, t), t) && Off(k, ToReady(k, t), t)
  {
    MovedContainers(k.h, t, Ready(k.Prio(t)));
    MovedContainers(k.h.Unlink(EventItem(t)), t, Ready(k.Prio(t)));
    RestingContainers(k.h, EventItem(t));
    MovedOff(k, ToReady(k, t), t);
    MovedOff(k, Wake(k, t), t);
  }

  lemma MovedOff(k: Kernel, w: Kernel, t: Task)
    requires TwoLists(k) && SameClock(k, w) && w.tcb == k.tcb && w.h.value == k.h.value
    requires StateItem(t) in w.h.container && w.h.container[StateItem(t)].Ready?
    requires w.h.container == k.h.container[StateItem(t) := w.h.container[StateItem(t)]]
      || w.h.container == (k.h.container - {EventItem(t)})[StateItem(t) := w.h.container[StateItem(t)]]
    ensures Off(k, w, t)
  {}

  /** Nothing about any state item has changed. */
  ghost predicate AllStand(k: Kernel, w: Kernel) {
    SameClock(k, w) && forall u :: SameStanding(k, w, u)
  }

  lemma StandingView(k: Kernel, w: Kernel)
    requires AllStand(k, w)
    ensures View(w) == View(k)
  {
    OnlyForgets(k, w, {});
    assert View(k).Forget({}).wakes == View(k).wakes;
  }

  lemma OffThen(k: Kernel, m: Kernel, w: Kernel, t: Task)
    requires AllStand(k, m) && Off(m, w, t)
    ensures Off(k, w, t)
  {
    forall u | u != t ensures SameStanding(k, w, u) {
      assert SameStanding(k, m, u) && SameStanding(m, w, u);
    }
  }

  lemma ThenStanding(k: Kernel, m: Kernel, w: Kernel, t: Task)
    requires Off(k, m, t) && AllStand(m, w)
    ensures Off(k, w, t)
  {
    assert SameStanding(m, w, t);
    forall u | u != t ensures SameStanding(k, w, u) {
      assert SameStanding(k, m, u) && SameStanding(m, w, u);
    }
  }

  /** The one task that an operation may take off the timeline. */
  function Forgotten(k: Kernel, op: Op): set<Task> {
    match op
    case NotifyOp(id) =>
      if k.suspended == 0 && k.h.Items(EventList(id)) != [] then {k.h.Items(EventList(id))[0].task} else {}
    case NotifyUnorderedOp(t, _) => {t}
    case DeleteOp(t) => {t}
    case SuspendOp(t) => {t}
    case _ => {}
  }

  /** What an operation makes of the timeline. */
  function Expected(k: Kernel, op: Op): Timeline {
    match op
    case TickOp => if k.suspended == 0 then View(k).Pass() else View(k)
    case ResumeAllOp =>
      if k.suspended == 1 then View(k).Forget(set t | t in Pending(k)).PassMany(k.pendedTicks) else View(k)
    case DelayOp(ticks) => View(k).Sleep(k.current, ticks)
    case WaitOp(_, ticks) => if ticks == MAX_DELAY then View(k) else View(k).Sleep(k.current, ticks)
    case WaitUnorderedOp(_, _, ticks) => if ticks == MAX_DELAY then View(k) else View(k).Sleep(k.current, ticks)
    case _ => View(k).Forget(Forgotten(k, op))
  }

  lemma ForgetNone(v: Timeline)
    ensures v.Forget({}) == v
  {}

  lemma NotifyRefines(k: Kernel, id: nat)
    requires Inv(k)
    ensures View(RemoveFromEventList(k, id)) == Expected(k, NotifyOp(id))
  {
    hide Partition, Wheel, Wake, View;
    InvBounds(k);
    ForgetNone(View(k));
    var w := RemoveFromEventList(k, id);
    if k.h.Items(EventList(id)) != [] {
      var t := k.h.Items(EventList(id))[0].task;
      if k.suspended == 0 {
        WakeTakesOff(k, t);
        ThenStanding(k, Wake(k, t), w, t);
        OffForgets(k, w, t);
      } else {
        AsideStands(k, w, t);
        StandingView(k, w);
      }
    }
  }

  lemma AsideStands(k: Kernel, w: Kernel, t: Task)
    requires w == k.(h := w.h, yieldPending := w.yieldPending) && w.h.value == k.h.value
    requires w.h.container == (k.h.container - {EventItem(t)})[EventItem(t) := PendingReady]
    ensures AllStand(k, w)
  {}

  lemma RevaluedStands(k: Kernel, t: Task, v: nat)
    ensures AllStand(k, k.(h := k.h.SetValue(EventItem(t), v)))
  {}

  lemma NotifyUnorderedRefines(k: Kernel, t: Task, v: nat)
    requires Inv(k)
    ensures View(RemoveFromUnordered(k, t, v)) == View(k).Forget({t})
  {
    hide Partition, Wheel, Wake, View, InUse;
    InvBounds(k);
    var m := k.(h := k.h.SetValue(EventItem(t), InUse(v)));
    RevaluedStands(k, t, InUse(v));
    WakeTakesOff(m, t);
    OffThen(k, m, Wake(m, t), t);
    ThenStanding(k, Wake(m, t), RemoveFromUnordered(k, t, v), t);
    OffForgets(k, RemoveFromUnordered(k, t, v), t);
  }

  /** Only the items of `t` have moved, and `t` is gone or in a list without timeout. */
  lemma MovedOutOff(k: Kernel, w: Kernel, t: Task)
    requires TwoLists(k) && SameClock(k, w)
    requires forall u :: u != t ==> (u in w.tcb <==> u in k.tcb) && w.h.Val(StateItem(u)) == k.h.Val(StateItem(u))
    requires forall i: Item :: i.task != t ==> (i in w.h.container <==> i in k.h.container)
    requires forall i: Item :: i.task != t && i in w.h.container ==> w.h.container[i] == k.h.container[i]
    requires StateItem(t) in w.h.container ==>
      w.h.container[StateItem(t)].Ready? || w.h.container[StateItem(t)] == Suspended
        || w.h.container[StateItem(t)] == Termination
    ensures Off(k, w, t)
  {}

  lemma CreateRefines(k: Kernel, t: Task, priority: nat)
    requires Inv(k) && t !in k.tcb
    ensures View(Create(k, t, priority)) == View(k)
  {
    hide Partition, Wheel, View, EventValue, Off;
    InvBounds(k);
    var w := Create(k, t, priority);
    assert Off(k, w, t) by { CreatedOff(k, t, priority); }
    OffForgets(k, w, t);
  }

  lemma CreatedOff(k: Kernel, t: Task, priority: nat)
    requires TwoLists(k)
    ensures Off(k, Create(k, t, priority), t)
  {}

  lemma TakenOutContainers(h: Heap, t: Task)
    ensures var g := h.Unlink(StateItem(t)).Unlink(EventItem(t));
            g.value == h.value && g.container == h.container - {StateItem(t), EventItem(t)}
  {}

  lemma PutAwayContainers(h: Heap, t: Task, l: ListId)
    ensures var g := h.Unlink(StateItem(t)).Unlink(EventItem(t)).LinkEnd(l, StateItem(t));
            g.value == h.value && g.container == (h.container - {StateItem(t), EventItem(t)})[StateItem(t) := l]
  {}

  lemma DeleteRefines(k: Kernel, t: Task)
    requires Inv(k) && t in k.tcb
    ensures View(Delete(k, t)) == View(k).Forget({t})
  {
    hide Partition, Wheel, View, ResetNextUnblock, Off;
    InvBounds(k);
    if t == k.current {
      PutAwayContainers(k.h, t, Termination);
      MovedOutOff(k, Delete(k, t), t);
    } else {
      DeletedOther(k, t);
      TakenOutContainers(k.h, t);
      MovedOutOff(k, TakenAway(k, t), t);
      ResetStands(TakenAway(k, t));
      ThenStanding(k, TakenAway(k, t), Delete(k, t), t);
    }
    OffForgets(k, Delete(k, t), t);
  }

  lemma ResetStands(k: Kernel)
    ensures AllStand(k, ResetNextUnblock(k))
  {}

  lemma SuspendRefines(k: Kernel, t: Task)
    requires Inv(k) && t in k.tcb
    ensures View(Suspend(k, t)) == View(k).Forget({t})
  {
    hide Partition, Wheel, View, ResetNextUnblock, Off;
    InvBounds(k);
    var m := k.(h := k.h.Unlink(StateItem(t)).Unlink(EventItem(t)).LinkEnd(Suspended, StateItem(t)));
    PutAwayContainers(k.h, t, Suspended);
    MovedOutOff(k, m, t);
    ResetStands(m);
    ThenStanding(k, m, Suspend(k, t), t);
    OffForgets(k, Suspend(k, t), t);
  }

  lemma CleanUpRefines(k: Kernel)
    requires Inv(k)
    ensures View(CleanUp(k)) == View(k)
  {
    hide Partition, Wheel, View;
    InvBounds(k);
    var items := k.h.Items(Termination);
    if k.toCleanUp != 0 && items != [] {
      TerminatedTask(k);
      RestingContainers(k.h, items[0]);
      MovedOutOff(k, CleanUp(k), items[0].task);
      OffForgets(k, CleanUp(k), items[0].task);
    }
  }

  lemma ResumeRefines(k: Kernel, t: Task)
    requires Inv(k)
    ensures View(Resume(k, t)) == View(k) && View(ResumeFromISR(k, t)) == View(k)
  {
    hide Partition, Wheel, View, ToReady;
    InvBounds(k);
    if IsSuspended(k, t) {
      WakeTakesOff(k, t);
      OffForgets(k, ToReady(k, t), t);
      if k.suspended != 0 {
        assert k.h.container - {EventItem(t)} == k.h.container;
        AsideStands(k, ResumeFromISR(k, t), t);
        StandingView(k, ResumeFromISR(k, t));
      }
    }
  }

  /** A task that is ready before and after has no timeout before or after. */
  lemma RequeuedView(k: Kernel, n: Kernel, t: Task, was: nat)
    requires TwoLists(k) && AllStand(k, n)
    ensures View(Requeued(n, t, was)) == View(k)
    ensures k.IsReady(t) ==> View(ToReady(n, t)) == View(k)
  {
    hide View, ToReady;
    StandingView(k, n);
    assert SameStanding(k, n, t);
    if k.IsReady(t) {
      WakeTakesOff(n, t);
      OffThen(k, n, ToReady(n, t), t);
      OffForgets(k, ToReady(n, t), t);
    }
  }

  lemma PrioritySetRefines(k: Kernel, t: Task, priority: nat)
    requires Inv(k)
    ensures View(PrioritySet(k, t, priority)) == View(k)
  {
    hide Partition, Wheel, View, Requeued, EventValue;
    InvBounds(k);
    var p := Clipped(priority);
    if t in k.tcb && k.tcb[t].basePriority != p {
      var was := k.tcb[t];
      var n := SetTcb(k, t, was.(basePriority := p,
                                 priority := if was.basePriority == was.priority then p else was.priority));
      RequeuedView(k, SetEventPriority(n, t, p), t, was.priority);
    }
  }

  lemma InheritRefines(k: Kernel, t: Task)
    requires Inv(k)
    ensures View(Inherit(k, t)) == View(k)
  {
    hide Partition, Wheel, View, Requeued, EventValue;
    InvBounds(k);
    if t in k.tcb && k.Prio(t) < k.Prio(k.current) {
      var was := k.tcb[t];
      var n := SetTcb(SetEventPriority(k, t, k.Prio(k.current)), t, was.(priority := k.Prio(k.current)));
      RequeuedView(k, n, t, was.priority);
    }
  }

  lemma DisinheritRefines(k: Kernel)
    requires Inv(k) && k.IsReady(k.current)
    ensures View(Disinherit(k)) == View(k)
  {
    hide Partition, Wheel, View, ToReady, EventValue;
    InvBounds(k);
    var t := k.current;
    if t in k.tcb && k.tcb[t].mutexesHeld != 0 {
      var held := k.tcb[t].(mutexesHeld := k.tcb[t].mutexesHeld - 1);
      if held.priority != held.basePriority && held.mutexesHeld == 0 {
        var n := SetTcb(k, t, held.(priority := held.basePriority));
        RequeuedView(k, n.(h := n.h.SetValue(EventItem(t), EventValue(held.basePriority))), t, 0);
      } else {
        StandingView(k, Disinherit(k));
      }
    }
  }

  lemma QuietOpsRefine(k: Kernel, op: Op)
    requires op.SuspendAllOp? || op.HoldMutexOp? || op.SwitchOp? || op.ResetEventItemValueOp?
    ensures View(Apply(k, op)) == View(k)
  {
    hide View, HighestLevel;
    StandingView(k, Apply(k, op));
  }

  /** The refinement: every operation does to the scheduler's modular clock and its two
      delayed lists what its counterpart does to the timeline. */
  lemma StepRefinesTimeline(k: Kernel, op: Op)
    requires Sound(k) && Enabled(k, op)
    ensures View(Apply(k, op)) == Expected(k, op)
  {
    hide Inv, View, TickInterrupt, SuspendAll, ResumeAll, Block, BlockOnEvent, BlockOnUnordered, RemoveFromEventList;
    hide RemoveFromUnordered, Create, Delete, CleanUp, Suspend, Resume, ResumeFromISR, PrioritySet, Inherit;
    hide Disinherit, HoldMutex, SwitchContext, ResetEventItemValue;
    ForgetNone(View(k));
    match op {
      case TickOp => TickInterruptRefines(k);
      case ResumeAllOp => ResumeAllRefinesTimeline(k);
      case DelayOp(_) => BlockingOpsRefineTimeline(k, op);
      case WaitOp(_, _) => BlockingOpsRefineTimeline(k, op);
      case WaitUnorderedOp(_, _, _) => BlockingOpsRefineTimeline(k, op);
      case NotifyOp(id) => NotifyRefines(k, id);
      case NotifyUnorderedOp(t, v) => NotifyUnorderedRefines(k, t, v);
      case CreateOp(t, p) => CreateRefines(k, t, p);
      case DeleteOp(t) => DeleteRefines(k, t);
      case SuspendOp(t) => SuspendRefines(k, t);
      case CleanUpOp => CleanUpRefines(k);
      case ResumeOp(t) => ResumeRefines(k, t);
      case ResumeFromISROp(t) => ResumeRefines(k, t);
      case PrioritySetOp(t, p) => PrioritySetRefines(k, t, p);
      case InheritOp(t) => InheritRefines(k, t);
      case DisinheritOp => DisinheritRefines(k);
      case _ => QuietOpsRefine(k, op);
    }
  }

  lemma TickInterruptRefines(k: Kernel)
    requires Inv(k)
    ensures View(TickInterrupt(k)) == Expected(k, TickOp)
  {
    hide View, IncrementTick, Partition, Wheel;
    InvBounds(k);
    if k.suspended == 0 {
      TickRefinesTimeline(k);
    } else {
      StandingView(k, TickInterrupt(k));
    }
  }
}
