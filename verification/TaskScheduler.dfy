/** tasks.c: the scheduler's variables and the calls that change them, step by step. */
module TaskSchedulerObject {
  import opened KernelConfig
  import opened ListHeap
  import opened Scheduler
  import opened SchedulerInvariant
  import opened SchedulerSteps
  import opened SchedulerOperations
  import opened SchedulerTasks
  import opened SchedulerLoops
  import opened SchedulerSwitches
  import opened Timeouts

  lemma SteadyDrain(r: Kernel)
    requires Steady(r)
    ensures var d := Drain(r);
            Steady(d) && d.h.Items(PendingReady) == [] && d.suspended == r.suspended && d.pendedTicks == r.pendedTicks
  {
    DrainKeeps(r);
    DrainFrame(r);
  }

  lemma SteadyReplay(d: Kernel, n: nat)
    requires Steady(d) && d.h.Items(PendingReady) == []
    ensures Steady(Replay(d, n)) && Replay(d, n).suspended == d.suspended
  {
    ReplayKeeps(d, n);
  }

  lemma SteadyInside(k: Kernel, n: nat)
    requires Inv(k)
    ensures Steady(k.(suspended := n)) && 0 < k.tasks
  {
    SuspensionIsAside(k, n, k.pendedTicks);
  }

  class TaskScheduler {
    var lists: Heap                          // the lists, and the two items of each task
    var tcbs: map<Task, Tcb>
    var delayedTaskList: ListId              // pxDelayedTaskList
    var overflowDelayedTaskList: ListId      // pxOverflowDelayedTaskList
    var tickCount: nat                       // xTickCount
    var numOfOverflows: nat                  // xNumOfOverflows
    var nextTaskUnblockTime: nat             // xNextTaskUnblockTime
    var schedulerSuspended: nat              // uxSchedulerSuspended
    var pendedTicks: nat                     // uxPendedTicks
    var yieldPending: bool                   // xYieldPending
    var topReadyPriority: nat                // uxTopReadyPriority
    var currentTCB: Task                     // pxCurrentTCB
    var currentNumberOfTasks: nat            // uxCurrentNumberOfTasks
    var deletedTasksWaitingCleanUp: nat      // uxDeletedTasksWaitingCleanUp

    function State(): Kernel
      reads this
    {
      Kernel(lists, tcbs, delayedTaskList, overflowDelayedTaskList, tickCount, numOfOverflows, nextTaskUnblockTime,
             schedulerSuspended, pendedTicks, yieldPending, topReadyPriority, currentTCB, currentNumberOfTasks,
             deletedTasksWaitingCleanUp)
    }

    function PriorityOf(t: Task): nat
      reads this
    {
      if t in tcbs then tcbs[t].priority else 0
    }

    /** prvAddTaskToReadyList. */
    method AddTaskToReadyList(t: Task)
      modifies this
      ensures State() == old(State().(
        top := if topReadyPriority < PriorityOf(t) then PriorityOf(t) else topReadyPriority,
        h := lists.LinkEnd(Ready(PriorityOf(t)), StateItem(t))))
    {
      var priority := PriorityOf(t);
      if topReadyPriority < priority {
        topReadyPriority := priority;
      }
      lists := lists.LinkEnd(Ready(priority), StateItem(t));
    }

    /** prvResetNextTaskUnblockTime. */
    method ResetNextTaskUnblockTime()
      modifies this
      ensures State() == ResetNextUnblock(old(State()))
    {
      if lists.Items(delayedTaskList) == [] {
        nextTaskUnblockTime := MAX_DELAY;
      } else {
        nextTaskUnblockTime := lists.Val(lists.Items(delayedTaskList)[0]);
      }
    }

    /** taskSWITCH_DELAYED_LISTS; the list that goes out of use has to be empty. */
    method SwitchDelayedLists()
      requires lists.Items(delayedTaskList) == []
      modifies this
      ensures State() == ResetNextUnblock(old(State().(delayed := overflowDelayedTaskList,
        overflow := delayedTaskList, overflows := numOfOverflows + 1)))
    {
      var temp := delayedTaskList;
      delayedTaskList := overflowDelayedTaskList;
      overflowDelayedTaskList := temp;
      numOfOverflows := numOfOverflows + 1;
      ResetNextTaskUnblockTime();
    }

    /** The loop of xTaskIncrementTick: the head of the delayed list is woken as long as its
        time has come. */
    method UnblockExpired() returns (switchRequired: bool)
      requires Partition(State()) && Wheel(State(), tickCount) && Counts(State())
      modifies this
      ensures State() == Expire(old(State()))
      ensures switchRequired <==> exists t :: (t in Due(old(State()))
          && old(State()).Prio(old(currentTCB)) <= old(State()).Prio(t))
    {
      hide Partition, Wheel, Counts, WakeAll, Due;
      ghost var a, n := State(), 0;
      switchRequired := false;
      WakeNobody(a);
      assert Due(a)[..0] == [];
      while lists.Items(delayedTaskList) != [] && lists.Val(lists.Items(delayedTaskList)[0]) <= tickCount
        invariant n <= |Due(a)| && State() == WakeAll(a, Due(a)[..n])
        invariant tickCount == a.tick && tcbs == a.tcb && currentTCB == a.current && delayedTaskList == a.delayed
        invariant switchRequired <==> exists i :: 0 <= i < n && a.Prio(a.current) <= a.Prio(Due(a)[i])
        decreases |Due(a)| - n
      {
        ExpiryRound(a, n);
        var tcb := lists.Items(delayedTaskList)[0].task;
        lists := lists.Unlink(StateItem(tcb));
        lists := lists.Unlink(EventItem(tcb));
        AddTaskToReadyList(tcb);
        if PriorityOf(currentTCB) <= PriorityOf(tcb) {
          switchRequired := true;
        }
        n := n + 1;
      }
      AllDueTaken(a, n, State());
      if lists.Items(delayedTaskList) == [] {
        nextTaskUnblockTime := MAX_DELAY;
      } else {
        nextTaskUnblockTime := lists.Val(lists.Items(delayedTaskList)[0]);
      }
    }

    /** xTaskIncrementTick. */
    method IncrementTick() returns (switchRequired: bool)
      requires Steady(State())
      modifies this
      ensures State() == TickInterrupt(old(State()))
      ensures switchRequired <==>
        if old(schedulerSuspended) == 0 then SwitchRequired(old(State())) else old(yieldPending)
      ensures switchRequired <==>
        if old(schedulerSuspended) == 0 then SwitchIsDue(old(State())) else old(yieldPending)
    {
      ghost var k := State();
      hide Partition, Wheel, Counts, WakeAll, Due, SwitchIsDue;
      TickAsksExactly(k);
      switchRequired := false;
      if schedulerSuspended == 0 {
        AdvanceKeeps(k);
        tickCount := if tickCount + 1 < TICK_MODULUS then tickCount + 1 else 0;
        if tickCount == 0 {
          DelayedEmptyAtWrapOf(k);
          SwitchDelayedLists();
        }
        assert State() == Advance(k) by { TickBounded(k); }
        if nextTaskUnblockTime <= tickCount {
          switchRequired := UnblockExpired();
        }
        assert State() == Scheduler.IncrementTick(k);
        TickLeavesRest(k);
        if 1 < |lists.Items(Ready(PriorityOf(currentTCB)))| {
          switchRequired := true;
        }
      } else {
        pendedTicks := pendedTicks + 1;
      }
      if yieldPending {
        switchRequired := true;
      }
    }

    /** vTaskSuspendAll. */
    method SuspendAll()
      modifies this
      ensures State() == Scheduler.SuspendAll(old(State()))
    {
      schedulerSuspended := schedulerSuspended + 1;
    }

    /** The loop of xTaskResumeAll that empties the pending list. */
    method EmptyPendingList()
      requires Steady(State())
      modifies this
      ensures State() == Drain(old(State()))
    {
      hide Partition, Wheel, Counts, WakeAll, Pending, Heap.Unlink, Heap.LinkEnd;
      ghost var r, n := State(), 0;
      var anyone := false;
      WakeNobody(r);
      assert Pending(r)[..0] == [];
      while lists.Items(PendingReady) != []
        invariant n <= |Pending(r)| && State() == WakeAll(r, Pending(r)[..n]).(yieldPending := yieldPending)
        invariant tcbs == r.tcb && currentTCB == r.current
        invariant anyone <==> 0 < n
        invariant yieldPending <==> r.yieldPending || exists i :: (0 <= i < n
            && r.Prio(r.current) <= r.Prio(Pending(r)[i]))
        decreases |Pending(r)| - n
      {
        PendingRound(r, n);
        var tcb := lists.Items(PendingReady)[0].task;
        lists := lists.Unlink(EventItem(tcb));
        lists := lists.Unlink(StateItem(tcb));
        AddTaskToReadyList(tcb);
        if PriorityOf(currentTCB) <= PriorityOf(tcb) {
          yieldPending := true;
        }
        anyone, n := true, n + 1;
      }
      AllPendingTaken(r, n, State());
      if anyone {
        ResetNextTaskUnblockTime();
      }
    }

    /** The loop of xTaskResumeAll that processes the pended ticks. */
    method ProcessPendedTicks()
      requires Steady(State())
      requires lists.Items(PendingReady) == [] && schedulerSuspended == 0
      modifies this
      ensures State() == Replay(old(State()), old(pendedTicks)).(pendedTicks := 0)
    {
      hide Steady, Scheduler.IncrementTick, SwitchRequired;
      ghost var d := State();
      var pendedCounts := pendedTicks;
      ReplayFrame(d, pendedCounts);
      while 0 < pendedCounts
        invariant 0 <= pendedCounts <= d.pendedTicks
        invariant State() == Replay(d, d.pendedTicks - pendedCounts)
      {
        ghost var k := State();
        SteadyReplay(d, d.pendedTicks - pendedCounts);
        ReplayAppend(d, d.pendedTicks - pendedCounts);
        TickLeavesRest(k);
        YieldIncluded(k);
        var switchRequired := IncrementTick();
        if switchRequired {
          yieldPending := true;
        }
        pendedCounts := pendedCounts - 1;
      }
      pendedTicks := 0;
    }

    /** xTaskResumeAll. */
    method ResumeAll() returns (alreadyYielded: bool)
      requires Inv(State()) && 0 < schedulerSuspended
      modifies this
      ensures State() == Scheduler.ResumeAll(old(State()))
      ensures alreadyYielded <==> schedulerSuspended == 0 && yieldPending
    {
      hide Inv, Steady, Drain, Replay;
      alreadyYielded := false;
      SteadyInside(State(), schedulerSuspended - 1);
      schedulerSuspended := schedulerSuspended - 1;
      if schedulerSuspended == 0 {
        if 0 < currentNumberOfTasks {
          SteadyDrain(State());
          EmptyPendingList();
          SteadyReplay(State(), pendedTicks);
          ProcessPendedTicks();
          if yieldPending {
            alreadyYielded := true;
          }
        }
      }
    }

    /** prvAddCurrentTaskToDelayedList. */
    method AddCurrentTaskToDelayedList(ticksToWait: nat, canBlockIndefinitely: bool)
      requires ticksToWait < TICK_MODULUS
      modifies this
      ensures State() == Block(old(State()), ticksToWait, canBlockIndefinitely)
    {
      hide Heap.Unlink, Heap.LinkEnd, Heap.LinkSorted, Heap.SetValue;
      var item := StateItem(currentTCB);
      lists := lists.Unlink(item);
      if ticksToWait == MAX_DELAY && canBlockIndefinitely {
        lists := lists.LinkEnd(Suspended, item);
      } else {
        var timeToWake := (tickCount + ticksToWait) % TICK_MODULUS;
        lists := lists.SetValue(item, timeToWake);
        if timeToWake < tickCount {
          lists := lists.LinkSorted(overflowDelayedTaskList, item);
        } else {
          lists := lists.LinkSorted(delayedTaskList, item);
          if timeToWake < nextTaskUnblockTime {
            nextTaskUnblockTime := timeToWake;
          }
        }
      }
    }

    /** vTaskDelay, up to the yield. */
    method Delay(ticksToDelay: nat)
      requires Inv(State()) && schedulerSuspended == 0 && State().IsReady(currentTCB) && ticksToDelay < TICK_MODULUS
      modifies this
      ensures State() == if ticksToDelay == 0 then old(State())
                         else Scheduler.ResumeAll(Block(Scheduler.SuspendAll(old(State())), ticksToDelay, false))
    {
      hide Inv, Block, Scheduler.ResumeAll;
      if 0 < ticksToDelay {
        SuspendAllKeeps(State());
        SuspendAll();
        DelayKeeps(State(), ticksToDelay);
        BlockStaysSuspended(State(), ticksToDelay);
        AddCurrentTaskToDelayedList(ticksToDelay, false);
        var _ := ResumeAll();
      }
    }

    /** vTaskDelayUntil, up to the yield. */
    method DelayUntil(previousWakeTime: Tick, timeIncrement: Tick) returns (reference: Tick)
      requires Inv(State()) && schedulerSuspended == 0 && State().IsReady(currentTCB) && 0 < timeIncrement
      requires tickCount < TICK_MODULUS
      modifies this
      ensures var until := Until(previousWakeTime, timeIncrement, old(tickCount));
              && reference == until.reference
              && State() == Scheduler.ResumeAll(
                   if until.shouldDelay then Block(Scheduler.SuspendAll(old(State())), until.ticks, false)
                   else Scheduler.SuspendAll(old(State())))
    {
      hide Inv, Block, Scheduler.ResumeAll;
      SuspendAllKeeps(State());
      SuspendAll();
      var shouldDelay, ticks;
      reference, shouldDelay, ticks := Timeouts.DelayUntil(previousWakeTime, timeIncrement, tickCount);
      if shouldDelay {
        DelayKeeps(State(), ticks);
        BlockStaysSuspended(State(), ticks);
        AddCurrentTaskToDelayedList(ticks, false);
      }
      var _ := ResumeAll();
    }

    /** vTaskPlaceOnEventList. */
    method PlaceOnEventList(id: nat, ticksToWait: nat)
      requires ticksToWait < TICK_MODULUS
      modifies this
      ensures State() == BlockOnEvent(old(State()), id, ticksToWait)
    {
      lists := lists.LinkSorted(EventList(id), EventItem(currentTCB));
      AddCurrentTaskToDelayedList(ticksToWait, true);
    }

    /** vTaskPlaceOnUnorderedEventList. */
    method PlaceOnUnorderedEventList(id: nat, itemValue: nat, ticksToWait: nat)
      requires 0 < schedulerSuspended && ticksToWait < TICK_MODULUS
      modifies this
      ensures State() == BlockOnUnordered(old(State()), id, itemValue, ticksToWait)
    {
      lists := lists.SetValue(EventItem(currentTCB), InUse(itemValue));
      lists := lists.LinkEnd(EventList(id), EventItem(currentTCB));
      AddCurrentTaskToDelayedList(ticksToWait, true);
    }

    /** xTaskRemoveFromEventList. */
    method RemoveFromEventList(id: nat) returns (higherPriorityWoken: bool)
      requires lists.Items(EventList(id)) != []
      modifies this
      ensures State() == Scheduler.RemoveFromEventList(old(State()), id)
      ensures higherPriorityWoken <==>
        old(State()).Prio(old(currentTCB)) < old(State()).Prio(old(lists).Items(EventList(id))[0].task)
    {
      var unblocked := lists.Items(EventList(id))[0].task;
      lists := lists.Unlink(EventItem(unblocked));
      if schedulerSuspended == 0 {
        lists := lists.Unlink(StateItem(unblocked));
        AddTaskToReadyList(unblocked);
      } else {
        lists := lists.LinkEnd(PendingReady, EventItem(unblocked));
      }
      higherPriorityWoken := PriorityOf(currentTCB) < PriorityOf(unblocked);
      if higherPriorityWoken {
        yieldPending := true;
      }
    }

    /** xTaskRemoveFromUnorderedEventList. */
    method RemoveFromUnorderedEventList(unblocked: Task, itemValue: nat) returns (higherPriorityWoken: bool)
      requires 0 < schedulerSuspended
      modifies this
      ensures State() == RemoveFromUnordered(old(State()), unblocked, itemValue)
      ensures higherPriorityWoken <==> old(State()).Prio(old(currentTCB)) < old(State()).Prio(unblocked)
    {
      lists := lists.SetValue(EventItem(unblocked), InUse(itemValue));
      lists := lists.Unlink(EventItem(unblocked));
      lists := lists.Unlink(StateItem(unblocked));
      AddTaskToReadyList(unblocked);
      higherPriorityWoken := PriorityOf(currentTCB) < PriorityOf(unblocked);
      if higherPriorityWoken {
        yieldPending := true;
      }
    }

    /** vTaskSwitchContext; the assertion in the scan is an obligation here. */
    method SwitchContext()
      requires Partition(State()) && (schedulerSuspended == 0 ==> SomeoneReady(State()))
      modifies this
      ensures State() == Scheduler.SwitchContext(old(State()))
      ensures schedulerSuspended == 0 ==> WalksOn(old(lists), lists, currentTCB)
    {
      hide WalksOn;
      if schedulerSuspended == 0 { SwitchWalksOn(State()); }
      if schedulerSuspended != 0 {
        yieldPending := true;
      } else {
        ghost var k := State();
        ScanFinds(k, k.top);
        hide Partition, SomeoneReady;
        yieldPending := false;
        var topPriority := topReadyPriority;
        while lists.Items(Ready(topPriority)) == []
          invariant HighestLevel(lists, topPriority) == HighestLevel(k.h, k.top) && lists == k.h
          invariant State() == k.(yieldPending := false)
          decreases topPriority
        {
          assert topPriority != 0;
          topPriority := topPriority - 1;
        }
        StepSelects(k.h, topPriority);
        hide Heap.Step, HighestLevel;
        lists := lists.Step(Ready(topPriority));
        currentTCB := lists.At(Ready(topPriority)).Selected().task;
        topReadyPriority := topPriority;
      }
    }

    /** prvAddNewTaskToReadyList, for a task just initialised. */
    method AddNewTaskToReadyList(t: Task, priority: nat, schedulerRunning: bool)
      requires t !in tcbs && (schedulerRunning ==> currentTCB in tcbs)
      modifies this
      ensures State() == if schedulerRunning then Create(old(State()), t, priority)
                         else Launch(old(State()), t, priority)
    {
      hide EventValue, Heap.LinkEnd;
      if currentTCB !in tcbs {
        currentTCB := t;
      } else if !schedulerRunning {
        if tcbs[currentTCB].priority <= Clipped(priority) {
          currentTCB := t;
        }
      }
      tcbs := tcbs[t := Tcb(Clipped(priority), Clipped(priority), 0)];
      lists := lists.SetValue(EventItem(t), EventValue(Clipped(priority)));
      currentNumberOfTasks := currentNumberOfTasks + 1;
      AddTaskToReadyList(t);
    }

    /** vTaskDelete. */
    method Delete(t: Task)
      requires 0 < currentNumberOfTasks
      modifies this
      ensures State() == Scheduler.Delete(old(State()), t)
    {
      lists := lists.Unlink(StateItem(t));
      lists := lists.Unlink(EventItem(t));
      if t == currentTCB {
        lists := lists.LinkEnd(Termination, StateItem(t));
        deletedTasksWaitingCleanUp := deletedTasksWaitingCleanUp + 1;
      } else {
        currentNumberOfTasks := currentNumberOfTasks - 1;
        tcbs := tcbs - {t};
        ResetNextTaskUnblockTime();
      }
    }

    /** prvCheckTasksWaitingTermination, run by the idle task: it frees everything that waits,
        and it comes to an end because the count is the length of the list. */
    method CheckTasksWaitingTermination()
      requires Inv(State()) && schedulerSuspended == 0 && State().IsReady(currentTCB)
      modifies this
      ensures State() == CleanUpAll(old(State()))
      ensures deletedTasksWaitingCleanUp == 0 && lists.Items(Termination) == []
    {
      hide Inv, Scheduler.ResumeAll, CleanUp;
      while 0 < deletedTasksWaitingCleanUp
        invariant Inv(State()) && schedulerSuspended == 0 && State().IsReady(currentTCB)
        invariant CleanUpAll(State()) == CleanUpAll(old(State()))
        decreases deletedTasksWaitingCleanUp
      {
        ghost var k := State();
        SuspendAllKeeps(k);
        SuspendAll();
        var listIsEmpty := lists.Items(Termination) == [];
        var _ := ResumeAll();
        SuspendAndResumeIsNothing(k);
        CleanUpRound(k);
        if !listIsEmpty {
          var item := lists.Items(Termination)[0];
          lists := lists.Unlink(item);
          currentNumberOfTasks := currentNumberOfTasks - 1;
          deletedTasksWaitingCleanUp := deletedTasksWaitingCleanUp - 1;
          tcbs := tcbs - {item.task};
        }
        assert State() == CleanUp(k);
      }
      NothingWaits(State());
    }

    /** vTaskSuspend, up to the yield. */
    method Suspend(t: Task)
      modifies this
      ensures State() == Scheduler.Suspend(old(State()), t)
    {
      lists := lists.Unlink(StateItem(t));
      lists := lists.Unlink(EventItem(t));
      lists := lists.LinkEnd(Suspended, StateItem(t));
      ResetNextTaskUnblockTime();
    }

    /** prvTaskIsTaskSuspended. */
    method TaskIsTaskSuspended(t: Task) returns (suspended: bool)
      ensures suspended <==> IsSuspended(State(), t)
    {
      suspended := false;
      if lists.In(StateItem(t), Suspended) {
        if !lists.In(EventItem(t), PendingReady) {
          if EventItem(t) !in lists.container {
            suspended := true;
          }
        }
      }
    }

    /** vTaskResume, up to the yield. */
    method Resume(t: Task)
      modifies this
      ensures State() == Scheduler.Resume(old(State()), t)
    {
      if t != currentTCB {
        var suspended := TaskIsTaskSuspended(t);
        if suspended {
          lists := lists.Unlink(StateItem(t));
          AddTaskToReadyList(t);
        }
      }
    }

    /** xTaskResumeFromISR. */
    method ResumeFromISR(t: Task) returns (yieldRequired: bool)
      modifies this
      ensures State() == Scheduler.ResumeFromISR(old(State()), t)
      ensures yieldRequired <==> old(IsSuspended(State(), t)) && schedulerSuspended == 0
                                 && PriorityOf(currentTCB) <= PriorityOf(t)
    {
      yieldRequired := false;
      var suspended := TaskIsTaskSuspended(t);
      if suspended {
        if schedulerSuspended == 0 {
          yieldRequired := PriorityOf(currentTCB) <= PriorityOf(t);
          lists := lists.Unlink(StateItem(t));
          AddTaskToReadyList(t);
        } else {
          lists := lists.LinkEnd(PendingReady, EventItem(t));
        }
      }
    }

    /** Only an event item value that is not in use follows the priority. */
    method SetEventItemPriority(t: Task, priority: nat)
      modifies this
      ensures State() == SetEventPriority(old(State()), t, priority)
    {
      if lists.Val(EventItem(t)) < TICK_MODULUS / 2 {
        lists := lists.SetValue(EventItem(t), EventValue(priority));
      }
    }

    /** vTaskPrioritySet; the result says whether it asks for a yield. */
    method PrioritySet(t: Task, priority: nat) returns (yieldRequired: bool)
      requires t in tcbs
      modifies this
      ensures State() == Scheduler.PrioritySet(old(State()), t, priority)
      ensures yieldRequired <==>
        || (old(tcbs[t].basePriority) < Clipped(priority) && t != currentTCB
            && old(State()).Prio(currentTCB) <= Clipped(priority))
        || (Clipped(priority) < old(tcbs[t].basePriority) && t == currentTCB)
    {
      var newPriority, was := Clipped(priority), tcbs[t];
      yieldRequired := false;
      if was.basePriority != newPriority {
        if was.basePriority < newPriority {
          if t != currentTCB {
            yieldRequired := PriorityOf(currentTCB) <= newPriority;
          }
        } else if t == currentTCB {
          yieldRequired := true;
        }
        ghost var k := State();
        hide Requeued, SetEventPriority, EventValue;
        if was.basePriority == was.priority {
          tcbs := tcbs[t := tcbs[t].(priority := newPriority)];
        }
        tcbs := tcbs[t := tcbs[t].(basePriority := newPriority)];
        assert State() == SetTcb(k, t, was.(basePriority := newPriority,
          priority := if was.basePriority == was.priority then newPriority else was.priority));
        SetEventItemPriority(t, newPriority);
        Requeue(t, was.priority);
      }
    }

    /** A task that stands in the ready list of level `was` goes to that of its priority. */
    method Requeue(t: Task, was: nat)
      modifies this
      ensures State() == Requeued(old(State()), t, was)
    {
      if lists.In(StateItem(t), Ready(was)) {
        lists := lists.Unlink(StateItem(t));
        AddTaskToReadyList(t);
      }
    }

    /** vTaskPriorityInherit. */
    method PriorityInherit(mutexHolder: Task)
      requires mutexHolder in tcbs
      modifies this
      ensures State() == Inherit(old(State()), mutexHolder)
    {
      var was := tcbs[mutexHolder];
      var priority := PriorityOf(currentTCB);
      if was.priority < priority {
        SetEventItemPriority(mutexHolder, priority);
        if lists.In(StateItem(mutexHolder), Ready(was.priority)) {
          lists := lists.Unlink(StateItem(mutexHolder));
          tcbs := tcbs[mutexHolder := was.(priority := priority)];
          AddTaskToReadyList(mutexHolder);
        } else {
          tcbs := tcbs[mutexHolder := was.(priority := priority)];
        }
      }
    }

    /** xTaskPriorityDisinherit, for the mutex holder, which has to be the running task. */
    method PriorityDisinherit() returns (switchRequired: bool)
      requires currentTCB in tcbs && 0 < tcbs[currentTCB].mutexesHeld
      modifies this
      ensures State() == Disinherit(old(State()))
      ensures switchRequired <==>
        old(tcbs[currentTCB].priority) != old(tcbs[currentTCB].basePriority) && old(tcbs[currentTCB].mutexesHeld) == 1
    {
      switchRequired := false;
      var t := currentTCB;
      tcbs := tcbs[t := tcbs[t].(mutexesHeld := tcbs[t].mutexesHeld - 1)];
      if tcbs[t].priority != tcbs[t].basePriority {
        if tcbs[t].mutexesHeld == 0 {
          lists := lists.Unlink(StateItem(t));
          tcbs := tcbs[t := tcbs[t].(priority := tcbs[t].basePriority)];
          lists := lists.SetValue(EventItem(t), EventValue(tcbs[t].priority));
          AddTaskToReadyList(t);
          switchRequired := true;
        }
      }
    }

    /** pvTaskIncrementMutexHeldCount. */
    method IncrementMutexHeldCount() returns (holder: Task)
      requires currentTCB in tcbs
      modifies this
      ensures State() == HoldMutex(old(State())) && holder == old(currentTCB)
    {
      tcbs := tcbs[currentTCB := tcbs[currentTCB].(mutexesHeld := tcbs[currentTCB].mutexesHeld + 1)];
      holder := currentTCB;
    }

    /** uxTaskResetEventItemValue. */
    method ResetEventItemValue() returns (value: nat)
      modifies this
      ensures State() == Scheduler.ResetEventItemValue(old(State()))
      ensures value == old(lists).Val(EventItem(currentTCB))
    {
      value := lists.Val(EventItem(currentTCB));
      lists := lists.SetValue(EventItem(currentTCB), EventValue(PriorityOf(currentTCB)));
    }
  }

  lemma BlockStaysSuspended(k: Kernel, ticks: nat)
    ensures Block(k, ticks, false).suspended == k.suspended
  {}

  lemma YieldIncluded(k: Kernel)
    ensures k.yieldPending ==> SwitchRequired(k)
  {}

  /** Everything the idle task frees in one go. */
  function CleanUpAll(k: Kernel): Kernel
    decreases k.toCleanUp
  {
    if k.toCleanUp == 0 || k.h.Items(Termination) == [] then k else CleanUpAll(CleanUp(k))
  }

  lemma CleanUpRound(k: Kernel)
    requires Inv(k) && k.IsReady(k.current) && 0 < k.toCleanUp
    ensures k.h.Items(Termination) != [] && 0 < k.tasks
    ensures var c := CleanUp(k);
            && Inv(c) && c.toCleanUp == k.toCleanUp - 1 && c.suspended == k.suspended && c.IsReady(c.current)
            && c == k.(h := k.h.Unlink(k.h.Items(Termination)[0]), tcb := k.tcb - {k.h.Items(Termination)[0].task},
                       tasks := k.tasks - 1, toCleanUp := k.toCleanUp - 1)
            && CleanUpAll(k) == CleanUpAll(c)
  {
    hide Partition, Wheel;
    InvBounds(k);
    CleanUpKeeps(k);
    TerminatedTask(k);
    assert k.current in k.tcb;
  }

  lemma NothingWaits(k: Kernel)
    requires Inv(k) && k.toCleanUp == 0
    ensures k.h.Items(Termination) == [] && CleanUpAll(k) == k
  {}

  lemma SuspendAndResumeIsNothing(k: Kernel)
    requires Inv(k) && k.suspended == 0
    ensures Scheduler.ResumeAll(Scheduler.SuspendAll(k)) == k
  {}

  /** A tick does not touch the priorities, the running task or the pending yield. */
  lemma TickLeavesRest(k: Kernel)
    ensures var a, r := Advance(k), Scheduler.IncrementTick(k);
            r.tcb == k.tcb && r.current == k.current && r.yieldPending == k.yieldPending
    ensures forall t :: Advance(k).Prio(t) == k.Prio(t)
    ensures Advance(k).current == k.current
  {
    hide WakeAll, Due;
    WakeAllFrame(Advance(k), Due(Advance(k)));
  }

  lemma TickBounded(k: Kernel)
    requires Wheel(k, k.tick + 1)
    ensures k.tick < TICK_MODULUS
  {}

  lemma DelayedEmptyAtWrapOf(k: Kernel)
    requires Partition(k) && Wheel(k, k.tick + 1) && TICK_MODULUS <= k.tick + 1
    ensures k.h.Items(k.delayed) == []
  {
    DelayedEmptyAtWrap(k);
  }
}
