/** Co-routines: a second timing wheel of the same make as the scheduler's. It has no cached
    unblock time, looks at the clock only now and then, and catches up. Interrupts reach it
    through a pending list only, as they reach a suspended scheduler. */
module Coroutines {
  import opened KernelConfig
  import opened KernelLists
  import opened ListHeap
  import opened Scheduler
  import opened SchedulerInvariant
  import opened SchedulerSteps
  import opened SchedulerOperations
  import opened SchedulerTasks
  import opened SchedulerRuns
  import opened SchedulerTime
  import opened Timeouts

  /** The wheel of co-routines. Of the fields of `k`, the co-routine scheduler has the lists,
      the control blocks, `delayed`, `overflow`, `tick` (xCoRoutineTickCount), `top` and
      `current`; `overflows` only serves to tell the time; the others do not change. */
  datatype Co = Co(k: Kernel, last: Tick)

  ghost predicate CoInv(k: Kernel) {
    Inv(k) && k.suspended == 1 && k.nextUnblock == 0
  }

  // ----- One tick and many ----------------------------------------------------------

  /** The tick counter moves on, and the lists are swapped when it wraps. */
  function Turned(k: Kernel): Kernel {
    if k.tick + 1 < TICK_MODULUS then k.(tick := k.tick + 1) else Switched(k)
  }

  /** One round of the outer loop of prvCheckDelayedList. */
  function OneTick(k: Kernel): Kernel {
    WakeAll(Turned(k), Due(Turned(k)))
  }

  function CatchUp(k: Kernel, n: nat): Kernel
    decreases n
  {
    if n == 0 then k else CatchUp(OneTick(k), n - 1)
  }

  /** prvCheckDelayedList, when the clock shows `now`. */
  function CheckDelayedList(c: Co, now: Tick): Co {
    var k := CatchUp(c.k, Minus(now, c.last));
    Co(k, if k.tick < TICK_MODULUS then k.tick else 0)
  }

  /** prvCheckPendingReadyList. */
  function CheckPendingReadyList(k: Kernel): Kernel {
    WakeAll(k, Pending(k))
  }

  /** vCoRoutineAddToDelayedList. */
  function AddToDelayedList(k: Kernel, ticks: nat, onEvent: bool, id: nat): Kernel {
    var w := Block(k, ticks, false);
    if onEvent then w.(h := w.h.LinkSorted(EventList(id), EventItem(k.current))) else w
  }

  /** xCoRoutineRemoveFromEventList. */
  function RemoveFirst(k: Kernel, id: nat): Kernel {
    if k.h.Items(EventList(id)) == [] then k else SetAside(k, k.h.Items(EventList(id))[0].task)
  }

  /** The selection of vCoRoutineSchedule. */
  function SelectNext(k: Kernel): Kernel {
    var level := HighestLevel(k.h, k.top);
    if k.h.Items(Ready(level)) == [] then k.(top := level)
    else
      var g := k.h.Step(Ready(level));
      k.(top := level, h := g,
         current := if 0 < g.At(Ready(level)).index <= |g.Items(Ready(level))|
                    then g.At(Ready(level)).Selected().task else k.current)
  }

  lemma TurnedKeeps(k: Kernel)
    requires Partition(k) && Wheel(k, k.tick + 1) && Counts(k) && k.nextUnblock == 0
    ensures var a := Turned(k);
            && Partition(a) && Wheel(a, a.tick) && Counts(a) && a.nextUnblock == 0
            && View(a) == View(k).(now := Now(k) + 1)
  {
    hide View, ResetNextUnblock;
    AdvanceKeeps(k);
    AdvanceOnlyCounts(k);
    var a := Turned(k);
    assert a == Advance(k).(nextUnblock := 0) by { AdvanceIsTurned(k); }
    UnblockTimeIsAside(Advance(k), 0);
    EarlierUnblockTime(Advance(k), a.tick);
  }

  lemma AdvanceIsTurned(k: Kernel)
    requires k.nextUnblock == 0
    ensures Turned(k) == Advance(k).(nextUnblock := 0)
  {}

  lemma EarlierUnblockTime(k: Kernel, bound: nat)
    requires Partition(k) && Wheel(k, bound)
    ensures Partition(k.(nextUnblock := 0)) && Wheel(k.(nextUnblock := 0), bound)
  {
    SameContainersSamePartition(k, k.(nextUnblock := 0));
  }

  /** The list that is emptied when the count wraps is empty already: its items are all due
      by the last tick of the turn. */
  lemma DelayedListIsEmptyAtWrap(k: Kernel)
    requires Partition(k) && Wheel(k, k.tick + 1) && Turned(k).tick == 0 && k.tick < TICK_MODULUS
    ensures k.h.Items(k.delayed) == []
  {
    DelayedEmptyAtWrap(k);
  }

  lemma OneTickKeeps(k: Kernel)
    requires Partition(k) && Wheel(k, k.tick + 1) && Counts(k) && k.nextUnblock == 0
    ensures var r := OneTick(k);
            && Partition(r) && Wheel(r, r.tick + 1) && Counts(r) && r.nextUnblock == 0
            && r.tick == (if k.tick + 1 < TICK_MODULUS then k.tick + 1 else 0)
            && View(r) == View(k).Pass()
  {
    hide Partition, Wheel, Counts, WakeAll, Due, View;
    var a := Turned(k);
    TurnedKeeps(k);
    DueFacts(a);
    DueIsNow(a);
    WheelLists(a, a.tick);
    assert forall t :: t in Due(a) ==> a.Blocked(t);
    WakeAllKeeps(a, Due(a), a.tick);
    NothingDueIsLeft(a, WakeAll(a, Due(a)));
    WokenForgets(a, WakeAll(a, Due(a)), Due(a));
    ViewNow(a);
    ViewNow(k);
    ForgetIsPass(View(k), Due(a));
  }

  /** A tick of the co-routine wheel leaves the lists that a tick of the scheduler would. */
  lemma SameTickAsScheduler(k: Kernel)
    requires Partition(k) && Wheel(k, k.tick + 1) && Counts(k) && k.nextUnblock == 0
    ensures OneTick(k).h == IncrementTick(k).h
  {
    hide Partition, Wheel, Counts, WakeAll, Due;
    AdvanceKeeps(k);
    AdvanceIsTurned(k);
    var a := Advance(k);
    DueIgnoresUnblockTime(a);
    WakeAllIgnoresUnblockTime(a, Due(a));
    if a.tick < a.nextUnblock {
      ShortcutIsSafe(a);
      assert WakeAll(a, []) == a by { WakeNobody(a); }
    }
  }

  lemma DueIgnoresUnblockTime(k: Kernel)
    ensures Due(k.(nextUnblock := 0)) == Due(k)
  {}

  lemma {:induction false} WakeAllIgnoresUnblockTime(k: Kernel, ts: seq<Task>)
    ensures WakeAll(k.(nextUnblock := 0), ts) == WakeAll(k, ts).(nextUnblock := 0)
    decreases |ts|
  {
    if ts != [] {
      assert Wake(k.(nextUnblock := 0), ts[0]) == Wake(k, ts[0]).(nextUnblock := 0);
      WakeAllIgnoresUnblockTime(Wake(k, ts[0]), ts[1..]);
    }
  }

  /** Catching up on `n` ticks lets `n` ticks pass on the timeline of the co-routines. */
  lemma {:induction false} CatchUpKeeps(k: Kernel, n: nat)
    requires Partition(k) && Wheel(k, k.tick + 1) && Counts(k) && k.nextUnblock == 0
    ensures var r := CatchUp(k, n);
            && Partition(r) && Wheel(r, r.tick + 1) && Counts(r) && r.nextUnblock == 0
            && View(r) == View(k).PassMany(n)
    decreases n
  {
    hide Partition, Wheel, Counts, OneTick, View;
    if 0 < n {
      OneTickKeeps(k);
      CatchUpKeeps(OneTick(k), n - 1);
    }
  }

  lemma {:induction false} CatchUpTick(k: Kernel, n: nat)
    requires k.tick < TICK_MODULUS && n < TICK_MODULUS
    ensures CatchUp(k, n).tick == Plus(k.tick, n)
    decreases n
  {
    hide OneTick;
    if 0 < n {
      OneTickCounts(k);
      CatchUpTick(OneTick(k), n - 1);
    }
  }

  lemma OneTickCounts(k: Kernel)
    requires k.tick < TICK_MODULUS
    ensures OneTick(k).tick == (if k.tick + 1 < TICK_MODULUS then k.tick + 1 else 0)
  {
    WakeAllFrame(Turned(k), Due(Turned(k)));
  }

  /** Catching up in two goes is the same as catching up in one. */
  lemma {:induction false} CatchUpTogether(k: Kernel, a: nat, b: nat)
    ensures CatchUp(k, a + b) == CatchUp(CatchUp(k, a), b)
    decreases a
  {
    hide OneTick;
    if 0 < a {
      CatchUpTogether(OneTick(k), a - 1, b);
    }
  }

  // ----- Catching up with the clock -------------------------------------------------

  /** One call for each of the next `n` ticks. */
  function TickByTick(c: Co, n: nat): Co
    decreases n
  {
    if n == 0 then c else TickByTick(CheckDelayedList(c, Plus(c.last, 1)), n - 1)
  }

  ghost predicate UpToDate(c: Co) {
    CoInv(c.k) && c.k.tick == c.last
  }

  /** After a check, both counters show the tick that was sampled. */
  lemma CheckShowsClock(c: Co, now: Tick)
    requires c.k.tick == c.last
    ensures var d := CheckDelayedList(c, now);
            d.k.tick == d.last == now && d.k == CatchUp(c.k, Minus(now, c.last))
  {
    CatchUpTick(c.k, Minus(now, c.last));
  }

  /** Catching up over `n` ticks in one call leaves the same lists and counters as one call at
      each of them. */
  lemma {:induction false} CatchUpIsTickByTick(c: Co, n: nat)
    requires c.k.tick == c.last && n < TICK_MODULUS
    ensures CheckDelayedList(c, Plus(c.last, n)) == TickByTick(c, n)
    decreases n
  {
    hide CatchUp;
    var all := CheckDelayedList(c, Plus(c.last, n));
    CheckShowsClock(c, Plus(c.last, n));
    if n == 0 {
      assert CatchUp(c.k, 0) == c.k by { CatchUpNothing(c.k); }
    } else {
      var one := CheckDelayedList(c, Plus(c.last, 1));
      CheckShowsClock(c, Plus(c.last, 1));
      CatchUpTogether(c.k, 1, n - 1);
      CatchUpIsTickByTick(one, n - 1);
      CheckShowsClock(one, Plus(one.last, n - 1));
    }
  }

  lemma CatchUpNothing(k: Kernel)
    ensures CatchUp(k, 0) == k
  {}

  /** The check brings the co-routines' time up to the clock exactly when the clock has moved
      less than one full turn since the last check. */
  lemma CheckCatchesUpExactly(c: Co, clock: Clock)
    requires UpToDate(c) && Now(c.k) <= clock.Time()
    ensures Now(CheckDelayedList(c, clock.tick).k) == clock.Time() <==> clock.Time() < Now(c.k) + TICK_MODULUS
  {
    hide Inv, CatchUp, View, Epoch, Partition, Wheel, Counts, Now;
    InvBounds(c.k);
    CatchUpKeeps(c.k, Minus(clock.tick, c.last));
    var d := CheckDelayedList(c, clock.tick);
    CheckShowsClock(c, clock.tick);
    ViewNow(d.k);
    ViewNow(c.k);
    PassManyNow(View(c.k), Minus(clock.tick, c.last));
    ClockTime(c.k);
    MinusIsElapsed(Clock(c.k.overflows, c.last), clock);
  }

  /** A wheel that has just started, with one co-routine ready. */
  function WheelAtStart(): Co {
    Co(Boot().(suspended := 1, nextUnblock := 0), 0)
  }

  /** A check that comes a full turn after the start does nothing at all: it is up to date with
      tick 0 and stays there, a turn behind the clock. */
  lemma CheckMissesAFullTurn()
    ensures UpToDate(WheelAtStart()) && CheckDelayedList(WheelAtStart(), 0) == WheelAtStart()
    ensures Now(CheckDelayedList(WheelAtStart(), Clock(1, 0).tick).k) == 0 < Clock(1, 0).Time()
  {
    hide Inv, CatchUp, Boot;
    BootFacts();
    BootIsSound();
    InvAside(Boot());
    CatchUpNothing(WheelAtStart().k);
    ClockTime(WheelAtStart().k);
  }

  lemma InvAside(k: Kernel)
    requires Inv(k)
    ensures Inv(k.(suspended := 1, nextUnblock := 0))
  {
    hide Partition, Wheel, Deferral;
    var w := k.(nextUnblock := 0);
    EarlierUnblockTime(k, k.tick + 1);
    SameContainersSamePartition(w, w.(suspended := 1));
    WheelSuspended(w, k.tick + 1);
    assert Deferral(w.(suspended := 1)) by { DeferralSuspended(w); }
  }

  lemma WheelSuspended(k: Kernel, bound: nat)
    requires Wheel(k, bound)
    ensures Wheel(k.(suspended := 1), bound)
  {}

  lemma DeferralSuspended(k: Kernel)
    ensures Deferral(k.(suspended := 1))
  {}

  lemma ClockTime(k: Kernel)
    requires k.tick < TICK_MODULUS
    ensures Now(k) == Clock(k.overflows, k.tick).Time()
  {}

  // ----- The operations keep the invariant ------------------------------------------

  lemma {:induction false} CatchUpFrame(k: Kernel, n: nat)
    ensures var r := CatchUp(k, n);
            r.suspended == k.suspended && r.tcb == k.tcb && r.current == k.current && r.pendedTicks == k.pendedTicks
    decreases n
  {
    hide WakeAll, Due;
    if 0 < n {
      WakeAllFrame(Turned(k), Due(Turned(k)));
      CatchUpFrame(OneTick(k), n - 1);
    }
  }

  lemma CheckDelayedKeeps(c: Co, now: Tick)
    requires UpToDate(c)
    ensures UpToDate(CheckDelayedList(c, now)) && CheckDelayedList(c, now).last == now
  {
    hide Partition, Wheel, Counts, CatchUp, View;
    CatchUpKeeps(c.k, Minus(now, c.last));
    CatchUpFrame(c.k, Minus(now, c.last));
    CheckShowsClock(c, now);
  }

  lemma CheckPendingKeeps(k: Kernel)
    requires CoInv(k)
    ensures CoInv(CheckPendingReadyList(k)) && CheckPendingReadyList(k).h.Items(PendingReady) == []
  {
    hide Partition, Wheel, Counts, WakeAll, Pending;
    PendingFacts(k);
    WakeAllKeeps(k, Pending(k), k.tick + 1);
    WokenFrame(k, CheckPendingReadyList(k), Pending(k));
    NothingPendingAfter(k, CheckPendingReadyList(k), Pending(k));
  }

  lemma AddToDelayedListKeeps(k: Kernel, ticks: nat, onEvent: bool, id: nat)
    requires CoInv(k) && k.IsReady(k.current) && 0 < ticks < TICK_MODULUS
    ensures CoInv(AddToDelayedList(k, ticks, onEvent, id))
    ensures View(AddToDelayedList(k, ticks, onEvent, id)) == View(k).Sleep(k.current, ticks)
  {
    hide Inv, Block, Partition, View, EventPlaced;
    InvBounds(k);
    var w := Block(k, ticks, false);
    DelayKeeps(k, ticks);
    NothingPlaced(k);
    BlockRefinesTimeline(k, k, ticks, false);
    BlockedFrame(k, ticks);
    if onEvent {
      InvBounds(w);
      LinkedOnEventKeeps(w, k.current, id);
    }
  }

  lemma BlockedFrame(k: Kernel, ticks: nat)
    requires CoInv(k) && k.IsReady(k.current) && 0 < ticks < TICK_MODULUS
    ensures var w := Block(k, ticks, false);
            && w == k.(h := w.h) && EventItem(k.current) !in w.h.container
            && (w.Is(k.current, w.delayed) || w.Is(k.current, w.overflow))
  {
    hide Inv, Partition;
    InvBounds(k);
    ReadyIsNotBlocked(k, k.current);
    NothingPlaced(k);
    BlockedParks(k, k, ticks, false);
    WrapTick(k.tick + ticks);
    assert BlockList(k, ticks, false) != Suspended;
  }

  /** A co-routine that has just been delayed joins an event list. */
  lemma LinkedOnEventKeeps(w: Kernel, t: Task, id: nat)
    requires CoInv(w) && EventItem(t) !in w.h.container && w.Timed(t)
    ensures var e := w.(h := w.h.LinkSorted(EventList(id), EventItem(t)));
            CoInv(e) && View(e) == View(w)
  {
    hide Partition, Wheel, View, TaskSound, OnlyMoves;
    var e := w.(h := w.h.LinkSorted(EventList(id), EventItem(t)));
    InvBounds(w);
    LinkSortedFacts(w.h, EventList(id), EventItem(t));
    InvHasSound(w, t);
    LinkedMoves(w, e, t, id);
    assert Counts(e) && Deferral(e);
    OneMoveKeepsInv(w, e, t);
    StandingView(w, e);
  }

  lemma LinkedMoves(w: Kernel, e: Kernel, t: Task, id: nat)
    requires TwoLists(w) && w.Timed(t) && TaskSound(w, t) && EventItem(t) !in w.h.container
    requires e == w.(h := e.h) && e.h.Wf() && e.h.value == w.h.value
    requires e.h.container == w.h.container[EventItem(t) := EventList(id)]
    requires forall m :: w.h.Ordered(m) ==> e.h.Ordered(m)
    ensures OnlyMoves(w, e, t) && TaskSound(e, t) && AllStand(w, e)
  {}

  lemma RemoveFirstKeeps(k: Kernel, id: nat)
    requires CoInv(k)
    ensures CoInv(RemoveFirst(k, id)) && View(RemoveFirst(k, id)) == View(k)
  {
    hide Inv, Partition, View;
    if k.h.Items(EventList(id)) != [] {
      InvBounds(k);
      WaiterIsBlocked(k, id);
      var t := k.h.Items(EventList(id))[0].task;
      SetAsideKeeps(k, t);
      AsideStands(k, SetAside(k, t), t);
      StandingView(k, SetAside(k, t));
    }
  }

  // ----- Interrupts during a catch-up -----------------------------------------------

  /** The parts into which interrupts cut vCoRoutineSchedule, and the interrupt itself. */
  datatype Part = Turn | ExpireHead | TakePending | Interrupt(id: nat)

  ghost predicate Midway(k: Kernel) {
    Partition(k) && Wheel(k, k.tick) && Counts(k) && k.nextUnblock == 0
  }

  predicate InPlace(k: Kernel, p: Part) {
    match p
    case Turn => Due(k) == []
    case ExpireHead => k.h.Items(k.delayed) != [] && k.h.Val(k.h.Items(k.delayed)[0]) <= k.tick
    case TakePending => k.h.Items(PendingReady) != []
    case Interrupt(_) => true
  }

  function Do(k: Kernel, p: Part): Kernel {
    match p
    case Turn => Turned(k)
    case ExpireHead => if k.h.Items(k.delayed) == [] then k else Wake(k, k.h.Items(k.delayed)[0].task)
    case TakePending => if k.h.Items(PendingReady) == [] then k else Wake(k, k.h.Items(PendingReady)[0].task)
    case Interrupt(id) => RemoveFirst(k, id)
  }

  /** The co-routine that a part puts on a ready list. */
  function Readied(k: Kernel, p: Part): seq<Task> {
    match p
    case ExpireHead => if k.h.Items(k.delayed) == [] then [] else [k.h.Items(k.delayed)[0].task]
    case TakePending => if k.h.Items(PendingReady) == [] then [] else [k.h.Items(PendingReady)[0].task]
    case _ => []
  }

  predicate Fits(k: Kernel, parts: seq<Part>)
    decreases |parts|
  {
    parts == [] || (InPlace(k, parts[0]) && Fits(Do(k, parts[0]), parts[1..]))
  }

  function After(k: Kernel, parts: seq<Part>): Kernel
    decreases |parts|
  {
    if parts == [] then k else After(Do(k, parts[0]), parts[1..])
  }

  function Log(k: Kernel, parts: seq<Part>): seq<Task>
    decreases |parts|
  {
    if parts == [] then [] else Readied(k, parts[0]) + Log(Do(k, parts[0]), parts[1..])
  }

  lemma AsideKeeps(k: Kernel, t: Task, bound: nat)
    requires Partition(k) && Wheel(k, bound) && Counts(k) && k.Blocked(t)
    ensures var w := SetAside(k, t);
            && Partition(w) && Wheel(w, bound) && Counts(w) && w == k.(h := w.h)
            && (forall u :: w.IsReady(u) == k.IsReady(u) && w.Blocked(u) == k.Blocked(u))
  {
    var w := SetAside(k, t);
    SetAsideFacts(k.h, t);
    DelayedHoldNoEvents(k, t);
    assert w.h.At(Termination) == k.h.At(Termination);
    hide SetAside;
    AsidePartition(k, w, t);
    AsideWheel(k, w, t, bound);
  }

  lemma AsidePartition(k: Kernel, w: Kernel, t: Task)
    requires Partition(k) && k.Blocked(t) && w == k.(h := w.h) && w.h.Wf()
    requires w.h.container == k.h.container[EventItem(t) := PendingReady]
    ensures Partition(w)
    ensures forall u :: w.IsReady(u) == k.IsReady(u) && w.Blocked(u) == k.Blocked(u)
  {}

  lemma AsideWheel(k: Kernel, w: Kernel, t: Task, bound: nat)
    requires Wheel(k, bound) && w == k.(h := w.h) && w.h.value == k.h.value
    requires w.h.container == k.h.container[EventItem(t) := PendingReady]
    requires forall m :: m != PendingReady && k.h.Ordered(m) ==> w.h.Ordered(m)
    ensures Wheel(w, bound)
  {}

  lemma NothingDue(k: Kernel)
    requires Partition(k) && Wheel(k, k.tick) && Due(k) == []
    ensures Wheel(k, k.tick + 1)
  {}

  lemma DelayedHead(k: Kernel)
    requires Partition(k) && Wheel(k, k.tick) && k.h.Items(k.delayed) != []
    ensures var i := k.h.Items(k.delayed)[0]; i == StateItem(i.task) && k.Is(i.task, k.delayed) && k.Blocked(i.task)
  {
    var i := k.h.Items(k.delayed)[0];
    assert i in k.h.Items(k.delayed);
    assert k.h.In(i, k.delayed);
  }

  /** What `p` does to who is ready and who is blocked. */
  ghost predicate ReadiesJust(k: Kernel, w: Kernel, ts: seq<Task>) {
    && (forall t :: t in ts ==> k.Blocked(t) && w.IsReady(t))
    && (forall t :: k.IsReady(t) ==> w.IsReady(t))
    && (forall t :: k.Blocked(t) && t !in ts ==> w.Blocked(t))
    && (forall t :: w.Blocked(t) ==> k.Blocked(t))
  }

  lemma WakeReadies(k: Kernel, t: Task)
    requires Midway(k) && k.Blocked(t)
    ensures Midway(Wake(k, t)) && ReadiesJust(k, Wake(k, t), [t])
  {
    hide Partition, Wheel, Counts, Wake;
    WakeKeeps(k, t, k.tick);
    var w := Wake(k, t);
    assert w.Is(t, Ready(k.Prio(t)));
    forall u | u != t ensures w.IsReady(u) == k.IsReady(u) && w.Blocked(u) == k.Blocked(u) {
      assert StateItem(u) != StateItem(t) && StateItem(u) != EventItem(t);
    }
  }

  lemma PartKeeps(k: Kernel, p: Part)
    requires Midway(k) && InPlace(k, p)
    ensures Midway(Do(k, p)) && ReadiesJust(k, Do(k, p), Readied(k, p))
  {
    hide Partition, Wheel, Counts, Wake, View, Due;
    match p {
      case Turn =>
        NothingDue(k);
        TurnedKeeps(k);
      case ExpireHead =>
        DelayedHead(k);
        WakeReadies(k, k.h.Items(k.delayed)[0].task);
      case TakePending =>
        PendingFacts(k);
        assert Pending(k)[0] in Pending(k);
        WakeReadies(k, k.h.Items(PendingReady)[0].task);
      case Interrupt(id) =>
        if k.h.Items(EventList(id)) != [] {
          WaiterIsBlocked(k, id);
          AsideKeeps(k, k.h.Items(EventList(id))[0].task, k.tick);
        }
    }
  }

  /** However interrupts cut into a catch-up, no co-routine is made ready twice, also when
      its event and its timeout both come about; and those made ready are just the ones
      that are no longer blocked. */
  lemma {:induction false} NobodyIsReadiedTwice(k: Kernel, parts: seq<Part>)
    requires Midway(k) && Fits(k, parts)
    ensures NoDup(Log(k, parts)) && Midway(After(k, parts))
    ensures ReadiesJust(k, After(k, parts), Log(k, parts))
    decreases |parts|
  {
    hide Midway, Do, Readied, InPlace;
    if parts != [] {
      var m, rest, ts := Do(k, parts[0]), parts[1..], Readied(k, parts[0]);
      PartKeeps(k, parts[0]);
      NobodyIsReadiedTwice(m, rest);
      AtMostOne(k, parts[0]);
      ReadiesInTurn(k, m, After(m, rest), ts, Log(m, rest));
    }
  }

  lemma AtMostOne(k: Kernel, p: Part)
    ensures NoDup(Readied(k, p))
  {}

  lemma ReadiesInTurn(k: Kernel, m: Kernel, e: Kernel, ts: seq<Task>, us: seq<Task>)
    requires ReadiesJust(k, m, ts) && ReadiesJust(m, e, us) && NoDup(ts) && NoDup(us)
    requires forall t :: m.Blocked(t) ==> !m.IsReady(t)
    ensures ReadiesJust(k, e, ts + us) && NoDup(ts + us)
  {
    assert forall t :: t in ts + us <==> t in ts || t in us;
    assert forall t :: t in ts ==> t !in us;
    assert forall i :: 0 <= i < |ts| ==> ts[i] in ts;
    assert forall i :: 0 <= i < |us| ==> us[i] in us;
    forall t | t in us ensures k.Blocked(t) {
      assert m.Blocked(t);
    }
  }

  /** What a part does to the timeline of the co-routines. */
  lemma PartView(k: Kernel, p: Part)
    requires Midway(k) && InPlace(k, p)
    ensures forall t :: t in View(k).wakes && t !in Readied(k, p) ==>
      t in View(Do(k, p)).wakes && View(Do(k, p)).wakes[t] == View(k).wakes[t]
  {
    hide Partition, Wheel, Counts, Wake, View, Due;
    assert TwoLists(k) by { WheelLists(k, k.tick); }
    match p {
      case Turn =>
        NothingDue(k);
        TurnedKeeps(k);
      case ExpireHead =>
        WakeTakesOff(k, k.h.Items(k.delayed)[0].task);
        OffForgets(k, Do(k, p), k.h.Items(k.delayed)[0].task);
      case TakePending =>
        WakeTakesOff(k, k.h.Items(PendingReady)[0].task);
        OffForgets(k, Do(k, p), k.h.Items(PendingReady)[0].task);
      case Interrupt(id) =>
        if k.h.Items(EventList(id)) != [] {
          AsideStands(k, Do(k, p), k.h.Items(EventList(id))[0].task);
          StandingView(k, Do(k, p));
        }
    }
  }

  lemma {:induction false} WaitersWaitOn(k: Kernel, parts: seq<Part>)
    requires Midway(k) && Fits(k, parts)
    ensures forall t :: t in View(k).wakes && t !in Log(k, parts) ==>
      t in View(After(k, parts)).wakes && View(After(k, parts)).wakes[t] == View(k).wakes[t]
    decreases |parts|
  {
    hide Midway, Do, Readied, InPlace, View;
    if parts != [] {
      PartKeeps(k, parts[0]);
      PartView(k, parts[0]);
      WaitersWaitOn(Do(k, parts[0]), parts[1..]);
    }
  }

  /** Once nothing is due any more, every co-routine whose wake time has come in the course of
      the catch-up has been made ready. */
  lemma TimeoutsAreServed(k: Kernel, parts: seq<Part>)
    requires Midway(k) && Fits(k, parts) && Due(After(k, parts)) == []
    ensures forall t :: t in View(k).wakes && View(k).wakes[t] <= Now(After(k, parts)) ==> t in Log(k, parts)
  {
    hide Partition, Counts, Wheel, View, Due, After, Log, Now, Fits;
    NobodyIsReadiedTwice(k, parts);
    WaitersWaitOn(k, parts);
    NothingDue(After(k, parts));
    WakesAreAhead(After(k, parts));
  }

  /** The co-routine that runs next is ready and no ready one exceeds its priority; when none
      is ready nothing but the top priority changes. */
  lemma BestCoRoutineRuns(k: Kernel)
    requires Partition(k)
    ensures var s := SelectNext(k);
            if SomeoneReady(k) then s.h.container == k.h.container && k.IsReady(s.current)
              && (forall t :: k.IsReady(t) ==> k.Prio(t) <= k.Prio(s.current))
            else s == k.(top := s.top)
  {
    hide Partition;
    if SomeoneReady(k) {
      var r := k.(suspended := 0);
      SameContainersSamePartition(k, r);
      SameReadiness(k, r);
      SelectionPicksTheBest(r);
      assert k.h.Items(Ready(HighestLevel(k.h, k.top))) != [] by { ScanOfReady(k); }
    } else {
      NobodyOnList(k, HighestLevel(k.h, k.top));
    }
  }

  lemma SameReadiness(k: Kernel, r: Kernel)
    requires r == k.(suspended := 0) && SomeoneReady(k)
    ensures SomeoneReady(r)
  {
    var t :| k.IsReady(t);
    assert r.IsReady(t);
  }

  lemma ScanOfReady(k: Kernel)
    requires Partition(k) && SomeoneReady(k)
    ensures k.h.Items(Ready(HighestLevel(k.h, k.top))) != []
  {
    ScanFinds(k, k.top);
  }

  lemma NobodyOnList(k: Kernel, level: nat)
    requires Partition(k) && !SomeoneReady(k)
    ensures k.h.Items(Ready(level)) == []
  {
    forall i ensures !k.h.In(i, Ready(level)) {
      assert k.h.In(i, Ready(level)) ==> i == StateItem(i.task);
      assert !k.IsReady(i.task);
    }
    EmptyIffNothingIn(k.h, Ready(level));
  }
}
