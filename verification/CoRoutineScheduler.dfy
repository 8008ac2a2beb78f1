/** croutine.c: the co-routine scheduler's variables and the calls that change them. */
module CoRoutineSchedulerObject {
  import opened KernelConfig
  import opened ListHeap
  import opened Scheduler
  import opened SchedulerInvariant
  import opened SchedulerSteps
  import opened SchedulerLoops
  import opened Timeouts
  import opened Coroutines

  /** The control blocks as the scheduler's operations see them. */
  function Blocks(priorities: map<Task, nat>): map<Task, Tcb> {
    map t | t in priorities :: Tcb(priorities[t], priorities[t], 0)
  }

  class CoRoutineScheduler {
    var lists: Heap                              // the lists, and the two items of each co-routine
    var priorities: map<Task, nat>               // uxPriority
    var delayedCoRoutineList: ListId             // pxDelayedCoRoutineList
    var overflowDelayedCoRoutineList: ListId     // pxOverflowDelayedCoRoutineList
    var coRoutineTickCount: Tick                 // xCoRoutineTickCount
    var lastTickCount: Tick                      // xLastTickCount
    var passedTicks: Tick                        // xPassedTicks
    var topCoRoutineReadyPriority: nat           // uxTopCoRoutineReadyPriority
    var currentCoRoutine: Task                   // pxCurrentCoRoutine
    ghost var turns: nat                         // how often the tick counter has wrapped

    ghost function State(): Kernel
      reads this
    {
      Kernel(lists, Blocks(priorities), delayedCoRoutineList, overflowDelayedCoRoutineList, coRoutineTickCount, turns,
             0, 1, 0, false, topCoRoutineReadyPriority, currentCoRoutine, |Blocks(priorities)|, 0)
    }

    function PriorityOf(t: Task): nat
      reads this
    {
      if t in priorities then priorities[t] else 0
    }

    /** prvAddCoRoutineToReadyQueue. */
    method AddToReadyQueue(t: Task)
      modifies this`lists, this`topCoRoutineReadyPriority
      ensures State() == old(State().(
        top := if topCoRoutineReadyPriority < PriorityOf(t) then PriorityOf(t) else topCoRoutineReadyPriority,
        h := lists.LinkEnd(Ready(PriorityOf(t)), StateItem(t))))
    {
      var priority := PriorityOf(t);
      if topCoRoutineReadyPriority < priority {
        topCoRoutineReadyPriority := priority;
      }
      lists := lists.LinkEnd(Ready(priority), StateItem(t));
    }

    /** vCoRoutineAddToDelayedList. */
    method AddToDelayedList(ticksToDelay: Tick, onEvent: bool, id: nat)
      modifies this`lists
      ensures State() == Coroutines.AddToDelayedList(old(State()), ticksToDelay, onEvent, id)
    {
      hide Heap.Unlink, Heap.LinkEnd, Heap.LinkSorted, Heap.SetValue;
      WrapTick(coRoutineTickCount + ticksToDelay);
      var item := StateItem(currentCoRoutine);
      var timeToWake := Plus(coRoutineTickCount, ticksToDelay);
      lists := lists.Unlink(item);
      lists := lists.SetValue(item, timeToWake);
      if timeToWake < coRoutineTickCount {
        lists := lists.LinkSorted(overflowDelayedCoRoutineList, item);
      } else {
        lists := lists.LinkSorted(delayedCoRoutineList, item);
      }
      if onEvent {
        lists := lists.LinkSorted(EventList(id), EventItem(currentCoRoutine));
      }
    }

    /** prvCheckPendingReadyList, when no interrupt cuts in. */
    method CheckPendingReadyList()
      requires Partition(State()) && Wheel(State(), coRoutineTickCount + 1) && Counts(State())
      modifies this`lists, this`topCoRoutineReadyPriority
      ensures State() == Coroutines.CheckPendingReadyList(old(State()))
    {
      hide Partition, Wheel, Counts, WakeAll, Pending;
      ghost var r, n := State(), 0;
      WakeNobody(r);
      assert Pending(r)[..0] == [];
      while lists.Items(PendingReady) != []
        invariant n <= |Pending(r)| && State() == WakeAll(r, Pending(r)[..n])
        decreases |Pending(r)| - n
      {
        PendingRound(r, n);
        var unblocked := lists.Items(PendingReady)[0].task;
        lists := lists.Unlink(EventItem(unblocked));
        lists := lists.Unlink(StateItem(unblocked));
        AddToReadyQueue(unblocked);
        n := n + 1;
      }
      AllPendingTaken(r, n, State());
    }

    /** The inner loop of prvCheckDelayedList. */
    method ReadyExpired()
      requires Partition(State()) && Wheel(State(), coRoutineTickCount) && Counts(State())
      modifies this`lists, this`topCoRoutineReadyPriority
      ensures State() == WakeAll(old(State()), Due(old(State())))
    {
      hide Partition, Wheel, Counts, WakeAll, Due;
      ghost var a, n := State(), 0;
      WakeNobody(a);
      assert Due(a)[..0] == [];
      while lists.Items(delayedCoRoutineList) != []
        invariant n <= |Due(a)| && State() == WakeAll(a, Due(a)[..n])
        decreases |Due(a)| - n
      {
        var crcb := lists.Items(delayedCoRoutineList)[0].task;
        HeadCarriesItsTime(a, n);
        if coRoutineTickCount < lists.Val(StateItem(crcb)) {
          break;
        }
        ExpiryRound(a, n);
        lists := lists.Unlink(StateItem(crcb));
        if EventItem(crcb) in lists.container {
          lists := lists.Unlink(EventItem(crcb));
        }
        AddToReadyQueue(crcb);
        n := n + 1;
      }
      AllDueTaken(a, n, State());
    }

    /** One round of the outer loop of prvCheckDelayedList. */
    method NextTick()
      requires Steady(State())
      modifies this`lists, this`topCoRoutineReadyPriority, this`coRoutineTickCount, this`delayedCoRoutineList
      modifies this`overflowDelayedCoRoutineList, this`turns
      ensures State() == OneTick(old(State()))
    {
      TurnedKeeps(State());
      ghost var m := State();
      coRoutineTickCount := Plus(coRoutineTickCount, 1);
      if coRoutineTickCount == 0 {
        var temp := delayedCoRoutineList;
        delayedCoRoutineList := overflowDelayedCoRoutineList;
        overflowDelayedCoRoutineList := temp;
        turns := turns + 1;
      }
      assert State() == Turned(m);
      hide Partition, Wheel, Counts, WakeAll, Due, Turned;
      ReadyExpired();
    }

    /** prvCheckDelayedList, when no interrupt cuts in; `now` is what xTaskGetTickCount
        returns. */
    method CheckDelayedList(now: Tick)
      requires UpToDate(Co(State(), lastTickCount))
      modifies this`lists, this`topCoRoutineReadyPriority, this`coRoutineTickCount, this`delayedCoRoutineList
      modifies this`overflowDelayedCoRoutineList, this`passedTicks, this`lastTickCount, this`turns
      ensures Co(State(), lastTickCount) == Coroutines.CheckDelayedList(old(Co(State(), lastTickCount)), now)
    {
      ghost var k, done := State(), 0;
      assert Steady(k);
      hide Inv, Steady, OneTick;
      passedTicks := Minus(now, lastTickCount);
      ghost var all: nat := passedTicks;
      while passedTicks != 0
        invariant done + passedTicks == all && State() == CatchUp(k, done)
        decreases passedTicks
      {
        SteadyCatchUp(k, done);
        CatchUpOneMore(k, done);
        NextTick();
        passedTicks := passedTicks - 1;
        done := done + 1;
      }
      lastTickCount := coRoutineTickCount;
    }

    /** xCoRoutineRemoveFromEventList. */
    method RemoveFromEventList(id: nat) returns (atLeastAsImportant: bool)
      requires lists.Items(EventList(id)) != []
      modifies this`lists
      ensures State() == RemoveFirst(old(State()), id)
      ensures atLeastAsImportant <==>
        PriorityOf(currentCoRoutine) <= PriorityOf(old(lists).Items(EventList(id))[0].task)
    {
      var unblocked := lists.Items(EventList(id))[0].task;
      lists := lists.Unlink(EventItem(unblocked));
      lists := lists.LinkEnd(PendingReady, EventItem(unblocked));
      atLeastAsImportant := PriorityOf(currentCoRoutine) <= PriorityOf(unblocked);
    }

    /** The selection of vCoRoutineSchedule; without a result there is nothing to run. */
    method SelectNext() returns (found: bool)
      modifies this`lists, this`topCoRoutineReadyPriority, this`currentCoRoutine
      ensures State() == Coroutines.SelectNext(old(State()))
      ensures found <==> lists.Items(Ready(topCoRoutineReadyPriority)) != []
    {
      ghost var k := State();
      while lists.Items(Ready(topCoRoutineReadyPriority)) == []
        invariant HighestLevel(lists, topCoRoutineReadyPriority) == HighestLevel(k.h, k.top)
        invariant State() == k.(top := topCoRoutineReadyPriority)
        decreases topCoRoutineReadyPriority
      {
        if topCoRoutineReadyPriority == 0 {
          return false;
        }
        topCoRoutineReadyPriority := topCoRoutineReadyPriority - 1;
      }
      StepSelects(lists, topCoRoutineReadyPriority);
      lists := lists.Step(Ready(topCoRoutineReadyPriority));
      currentCoRoutine := lists.At(Ready(topCoRoutineReadyPriority)).Selected().task;
      found := true;
    }
  }

  lemma SteadyCatchUp(k: Kernel, n: nat)
    requires Steady(k) && k.nextUnblock == 0
    ensures Steady(CatchUp(k, n))
  {
    CatchUpKeeps(k, n);
  }

  lemma CatchUpOneMore(k: Kernel, n: nat)
    ensures CatchUp(k, n + 1) == OneTick(CatchUp(k, n))
  {
    hide OneTick;
    CatchUpTogether(k, n, 1);
    assert CatchUp(CatchUp(k, n), 1) == CatchUp(OneTick(CatchUp(k, n)), 0);
  }

  /** The head of the delayed list is a state item, so its time is its value. */
  lemma HeadCarriesItsTime(a: Kernel, n: nat)
    requires Partition(a) && Wheel(a, a.tick) && Counts(a) && n <= |Due(a)|
    requires WakeAll(a, Due(a)[..n]).h.Items(a.delayed) != []
    ensures var w := WakeAll(a, Due(a)[..n]);
            w.delayed == a.delayed && w.h.Items(a.delayed)[0] == StateItem(w.h.Items(a.delayed)[0].task)
  {
    hide Partition, Wheel, Counts, WakeAll, Due;
    var w := WakeAll(a, Due(a)[..n]);
    DuePrefix(a, n);
    DelayedHead(w);
  }
}
