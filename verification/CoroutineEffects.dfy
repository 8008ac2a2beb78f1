/** What each co-routine operation does to the co-routine it is for, and whose turn it is. */
module CoroutineEffects {
  import opened KernelConfig
  import opened KernelLists
  import opened ListHeap
  import opened Scheduler
  import opened SchedulerInvariant
  import opened SchedulerSteps
  import opened SchedulerOperations
  import opened SchedulerTasks
  import opened SchedulerTime
  import opened SchedulerEffects
  import opened SchedulerSwitches
  import opened Coroutines

  /** xCoRoutineRemoveFromEventList: the first waiter is off the event list and on the pending
      list; its timeout goes on, and it is not ready yet. */
  lemma RemovedIsPending(k: Kernel, id: nat)
    requires CoInv(k) && k.h.Items(EventList(id)) != []
    ensures var t, w := k.h.Items(EventList(id))[0].task, RemoveFirst(k, id);
            && k.h.Items(EventList(id))[0] == EventItem(t)
            && w.h.In(EventItem(t), PendingReady) && SameStanding(k, w, t) && OthersStay(k, w, t) && w == k.(h := w.h)
  {
    hide Inv, SetAside, OthersStay, SameStanding;
    InvBounds(k);
    WaiterIsBlocked(k, id);
    SetAsideEffect(k, k.h.Items(EventList(id))[0].task);
  }

  /** prvCheckPendingReadyList: every co-routine that was pending is ready and waits for no
      event any more, and nobody else has moved. */
  lemma PendingBecomeReady(k: Kernel)
    requires CoInv(k)
    ensures var w := CheckPendingReadyList(k);
            && (forall t :: k.h.In(EventItem(t), PendingReady) ==> w.Is(t, Ready(k.Prio(t))) && !w.OnEvent(t))
            && (forall t :: !k.h.In(EventItem(t), PendingReady) ==> SameStanding(k, w, t))
  {
    hide Partition, Wheel, Counts, WakeAll, Pending, SameStanding;
    InvBounds(k);
    PendingFacts(k);
    WakeAllKeeps(k, Pending(k), k.tick + 1);
    WokenStandings(k, CheckPendingReadyList(k), Pending(k));
  }

  /** vCoRoutineAddToDelayedList: the running co-routine has a timeout and, if asked, is on the
      event list. */
  lemma DelayedIsListed(k: Kernel, ticks: nat, onEvent: bool, id: nat)
    requires CoInv(k) && k.IsReady(k.current) && 0 < ticks < TICK_MODULUS
    ensures var w := AddToDelayedList(k, ticks, onEvent, id);
            && w.Timed(k.current) && OthersStay(k, w, k.current)
            && (if onEvent then w.h.In(EventItem(k.current), EventList(id)) else !w.OnEvent(k.current))
  {
    hide Inv, Block;
    InvBounds(k);
    ReadyIsOffEvents(k);
    BlockEffect(k, ticks, false);
    if onEvent { LinkedIsOn(k, Block(k, ticks, false), EventItem(k.current), id); }
  }

  lemma LinkedIsOn(k: Kernel, w: Kernel, i: Item, id: nat)
    requires i == EventItem(k.current) && w.Timed(k.current) && OthersStay(k, w, k.current)
    ensures var e := w.(h := w.h.LinkSorted(EventList(id), i));
            e.Timed(k.current) && e.h.In(i, EventList(id)) && OthersStay(k, e, k.current)
  {
    hide KList.InsertSorted, Heap.Values;
  }

  lemma ReadyIsOffEvents(k: Kernel)
    requires Partition(k) && k.IsReady(k.current)
    ensures !k.OnEvent(k.current)
  {}

  /** The selection of vCoRoutineSchedule moves the walk over the greatest ready level on by
      one, and that co-routine runs. */
  lemma SelectionFollowsWalk(k: Kernel)
    requires Partition(k) && SomeoneReady(k)
    ensures WalksOn(k.h, SelectNext(k).h, SelectNext(k).current)
  {
    hide Partition, WalksOn;
    var r := k.(suspended := 0);
    SameContainersSamePartition(k, r);
    SameReadiness(k, r);
    SwitchWalksOn(r);
    ScanOfReady(k);
    SelectionIsSwitch(k);
  }

  lemma SelectionIsSwitch(k: Kernel)
    requires k.h.Items(Ready(HighestLevel(k.h, k.top))) != []
    ensures var s := SwitchContext(k.(suspended := 0));
            SelectNext(k).h == s.h && SelectNext(k).current == s.current
  {
    hide HighestLevel;
  }
}
