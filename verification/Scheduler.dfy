/** The scheduler's state and what each of its operations makes of it, as functions. */
module Scheduler {
  import opened KernelConfig
  import opened KernelLists
  import opened ListHeap

  datatype Tcb = Tcb(priority: nat, basePriority: nat, mutexesHeld: nat)

  datatype Kernel = Kernel(
    h: Heap,
    tcb: map<Task, Tcb>,
    delayed: ListId,              // pxDelayedTaskList
    overflow: ListId,             // pxOverflowDelayedTaskList
    tick: nat,                    // xTickCount
    overflows: nat,               // xNumOfOverflows
    nextUnblock: nat,             // xNextTaskUnblockTime
    suspended: nat,               // uxSchedulerSuspended
    pendedTicks: nat,             // uxPendedTicks
    yieldPending: bool,           // xYieldPending
    top: nat,                     // uxTopReadyPriority
    current: Task,                // pxCurrentTCB
    tasks: nat,                   // uxCurrentNumberOfTasks
    toCleanUp: nat)               // uxDeletedTasksWaitingCleanUp
  {
    function Prio(t: Task): nat {
      if t in tcb then tcb[t].priority else 0
    }

    /** The task's state item is in list `l`. */
    predicate Is(t: Task, l: ListId) {
      h.In(StateItem(t), l)
    }

    predicate IsReady(t: Task) {
      StateItem(t) in h.container && h.container[StateItem(t)].Ready?
    }

    predicate Timed(t: Task) {
      Is(t, delayed) || Is(t, overflow)
    }

    predicate Blocked(t: Task) {
      Is(t, DelayedA) || Is(t, DelayedB) || Is(t, Suspended)
    }

    predicate OnEvent(t: Task) {
      EventItem(t) in h.container
    }
  }

  function TasksOf(items: seq<Item>): (ts: seq<Task>)
    ensures |ts| == |items|
  {
    seq(|items|, i requires 0 <= i < |items| => items[i].task)
  }

  function MoveState(h: Heap, t: Task, l: ListId): Heap {
    h.Unlink(StateItem(t)).LinkEnd(l, StateItem(t))
  }

  function MoveTimed(h: Heap, t: Task, wake: nat, l: ListId): Heap {
    h.Unlink(StateItem(t)).SetValue(StateItem(t), wake).LinkSorted(l, StateItem(t))
  }

  /** prvAddTaskToReadyList for a task whose state item has just been taken out. */
  function ToReady(k: Kernel, t: Task): Kernel {
    k.(top := if k.top < k.Prio(t) then k.Prio(t) else k.top, h := MoveState(k.h, t, Ready(k.Prio(t))))
  }

  /** A task leaves its blocked list, and any event list it is on, and becomes ready. */
  function Wake(k: Kernel, t: Task): Kernel {
    ToReady(k.(h := k.h.Unlink(EventItem(t))), t)
  }

  function WakeAll(k: Kernel, ts: seq<Task>): Kernel
    decreases |ts|
  {
    if ts == [] then k else WakeAll(Wake(k, ts[0]), ts[1..])
  }

  // ----- Time -----------------------------------------------------------------------

  /** prvResetNextTaskUnblockTime. */
  function ResetNextUnblock(k: Kernel): Kernel {
    k.(nextUnblock := if k.h.Items(k.delayed) == [] then MAX_DELAY else k.h.Val(k.h.Items(k.delayed)[0]))
  }

  /** The tick itself: count, and switch the delayed lists when the count wraps to 0. */
  function Advance(k: Kernel): Kernel {
    if k.tick + 1 < TICK_MODULUS then k.(tick := k.tick + 1)
    else ResetNextUnblock(k.(tick := 0, delayed := k.overflow, overflow := k.delayed, overflows := k.overflows + 1))
  }

  /** The tasks at the front of the delayed list whose time has come. */
  function Due(k: Kernel): seq<Task> {
    TasksOf(k.h.Items(k.delayed)[..FirstGreater(k.h.Values(k.delayed), k.tick)])
  }

  function Expire(k: Kernel): Kernel {
    ResetNextUnblock(WakeAll(k, Due(k)))
  }

  /** xTaskIncrementTick with the scheduler running. */
  function IncrementTick(k: Kernel): Kernel {
    var a := Advance(k);
    if a.nextUnblock <= a.tick then Expire(a) else a
  }

  /** Its result: a task as important as the running one was unblocked, another task shares
      the running task's level, or a yield was pending. */
  predicate SwitchRequired(k: Kernel) {
    var a := Advance(k);
    || (a.nextUnblock <= a.tick && exists t :: t in Due(a) && k.Prio(k.current) <= k.Prio(t))
    || 1 < |IncrementTick(k).h.Items(Ready(k.Prio(k.current)))|
    || k.yieldPending
  }

  function TickInterrupt(k: Kernel): Kernel {
    if k.suspended == 0 then IncrementTick(k) else k.(pendedTicks := k.pendedTicks + 1)
  }

  function SuspendAll(k: Kernel): Kernel {
    k.(suspended := k.suspended + 1)
  }

  /** The pended ticks, one by one. */
  function Replay(k: Kernel, n: nat): Kernel
    decreases n
  {
    if n == 0 then k else Replay(IncrementTick(k).(yieldPending := SwitchRequired(k)), n - 1)
  }

  function Pending(k: Kernel): seq<Task> {
    TasksOf(k.h.Items(PendingReady))
  }

  function Drain(k: Kernel): Kernel {
    var ts := Pending(k);
    if ts == [] then k
    else
      ResetNextUnblock(WakeAll(k, ts)).(
        yieldPending := k.yieldPending || exists t :: t in ts && k.Prio(k.current) <= k.Prio(t))
  }

  /** xTaskResumeAll. */
  function ResumeAll(k: Kernel): Kernel {
    var r := k.(suspended := if k.suspended == 0 then 0 else k.suspended - 1);
    if r.suspended != 0 || r.tasks == 0 then r
    else Replay(Drain(r), r.pendedTicks).(pendedTicks := 0)
  }

  // ----- Blocking and waking --------------------------------------------------------

  /** prvAddCurrentTaskToDelayedList. */
  function Block(k: Kernel, ticks: nat, indefinitely: bool): Kernel {
    if ticks == MAX_DELAY && indefinitely then k.(h := MoveState(k.h, k.current, Suspended))
    else
      var wake := (k.tick + ticks) % TICK_MODULUS;
      if wake < k.tick then k.(h := MoveTimed(k.h, k.current, wake, k.overflow))
      else
        k.(h := MoveTimed(k.h, k.current, wake, k.delayed),
           nextUnblock := if wake < k.nextUnblock then wake else k.nextUnblock)
  }

  /** vTaskPlaceOnEventList. */
  function BlockOnEvent(k: Kernel, id: nat, ticks: nat): Kernel {
    Block(k.(h := k.h.LinkSorted(EventList(id), EventItem(k.current))), ticks, true)
  }

  /** taskEVENT_LIST_ITEM_VALUE_IN_USE is the top bit of the item value. */
  function InUse(v: nat): nat {
    if v < TICK_MODULUS / 2 then v + TICK_MODULUS / 2 else v
  }

  /** vTaskPlaceOnUnorderedEventList. */
  function BlockOnUnordered(k: Kernel, id: nat, v: nat, ticks: nat): Kernel {
    var i := EventItem(k.current);
    Block(k.(h := k.h.SetValue(i, InUse(v)).LinkEnd(EventList(id), i)), ticks, true)
  }

  /** xTaskRemoveFromEventList on a list that is not empty: with the scheduler suspended
      the task is only put aside. */
  function RemoveFromEventList(k: Kernel, id: nat): Kernel {
    var items := k.h.Items(EventList(id));
    if items == [] then k
    else
      var t := items[0].task;
      var r := if k.suspended == 0 then Wake(k, t)
               else k.(h := k.h.Unlink(EventItem(t)).LinkEnd(PendingReady, EventItem(t)));
      r.(yieldPending := k.yieldPending || k.Prio(k.current) < k.Prio(t))
  }

  /** xTaskRemoveFromUnorderedEventList. */
  function RemoveFromUnordered(k: Kernel, t: Task, v: nat): Kernel {
    Wake(k.(h := k.h.SetValue(EventItem(t), InUse(v))), t).(
      yieldPending := k.yieldPending || k.Prio(k.current) < k.Prio(t))
  }

  // ----- Tasks ----------------------------------------------------------------------

  /** Priorities out of range are taken as the highest one. */
  function Clipped(priority: nat): nat {
    if MAX_PRIORITIES <= priority then MAX_PRIORITIES - 1 else priority
  }

  /** Creation of task `t`, up to prvAddNewTaskToReadyList. */
  function Create(k: Kernel, t: Task, priority: nat): Kernel {
    var p := Clipped(priority);
    var n := k.(tcb := k.tcb[t := Tcb(p, p, 0)], tasks := k.tasks + 1,
                h := k.h.SetValue(EventItem(t), EventValue(p)));
    n.(top := if n.top < p then p else n.top, h := n.h.LinkEnd(Ready(p), StateItem(t)))
  }

  /** Creation before the scheduler has started: the new task is the one to run first, unless
      a task of higher priority has been created already. No task yet means that pxCurrentTCB
      is NULL. */
  function Launch(k: Kernel, t: Task, priority: nat): Kernel {
    Create(k, t, priority).(
      current := if k.current !in k.tcb || k.Prio(k.current) <= Clipped(priority) then t else k.current)
  }

  /** vTaskDelete. A task that deletes itself waits on the termination list. */
  function Delete(k: Kernel, t: Task): Kernel {
    var out := k.h.Unlink(StateItem(t)).Unlink(EventItem(t));
    if t == k.current then
      k.(h := out.LinkEnd(Termination, StateItem(t)), toCleanUp := k.toCleanUp + 1)
    else
      ResetNextUnblock(k.(h := out, tcb := k.tcb - {t}, tasks := if k.tasks == 0 then 0 else k.tasks - 1))
  }

  /** One round of prvCheckTasksWaitingTermination in the idle task. */
  function CleanUp(k: Kernel): Kernel {
    var items := k.h.Items(Termination);
    if k.toCleanUp == 0 || items == [] then k
    else
      k.(h := k.h.Unlink(items[0]), tcb := k.tcb - {items[0].task},
         tasks := if k.tasks == 0 then 0 else k.tasks - 1, toCleanUp := k.toCleanUp - 1)
  }

  /** vTaskSuspend. */
  function Suspend(k: Kernel, t: Task): Kernel {
    ResetNextUnblock(k.(h := k.h.Unlink(StateItem(t)).Unlink(EventItem(t)).LinkEnd(Suspended, StateItem(t))))
  }

  /** prvTaskIsTaskSuspended. */
  predicate IsSuspended(k: Kernel, t: Task) {
    k.Is(t, Suspended) && !k.OnEvent(t)
  }

  /** vTaskResume. */
  function Resume(k: Kernel, t: Task): Kernel {
    if t != k.current && IsSuspended(k, t) then ToReady(k, t) else k
  }

  /** xTaskResumeFromISR. */
  function ResumeFromISR(k: Kernel, t: Task): Kernel {
    if !IsSuspended(k, t) then k
    else if k.suspended == 0 then ToReady(k, t)
    else k.(h := k.h.LinkEnd(PendingReady, EventItem(t)))
  }

  // ----- Priorities -----------------------------------------------------------------

  function SetTcb(k: Kernel, t: Task, tcb: Tcb): Kernel {
    k.(tcb := k.tcb[t := tcb])
  }

  function Requeued(k: Kernel, t: Task, was: nat): Kernel {
    if k.Is(t, Ready(was)) then ToReady(k, t) else k
  }

  /** Event lists are in ascending value order, so a high priority is a small value. */
  function EventValue(priority: nat): nat {
    if priority <= MAX_PRIORITIES then MAX_PRIORITIES - priority else 0
  }

  /** The event item's value is left alone while it is borrowed for something else. */
  function SetEventPriority(k: Kernel, t: Task, priority: nat): Kernel {
    if k.h.Val(EventItem(t)) < TICK_MODULUS / 2 then
      k.(h := k.h.SetValue(EventItem(t), EventValue(priority)))
    else k
  }

  /** uxTaskResetEventItemValue's effect: the item value is the priority again. */
  function ResetEventItemValue(k: Kernel): Kernel {
    k.(h := k.h.SetValue(EventItem(k.current), EventValue(k.Prio(k.current))))
  }

  /** vTaskPrioritySet. */
  function PrioritySet(k: Kernel, t: Task, priority: nat): Kernel {
    var p := Clipped(priority);
    if t !in k.tcb || k.tcb[t].basePriority == p then k
    else
      var was := k.tcb[t];
      var n := SetTcb(k, t, was.(basePriority := p,
                                 priority := if was.basePriority == was.priority then p else was.priority));
      Requeued(SetEventPriority(n, t, p), t, was.priority)
  }

  /** vTaskPriorityInherit: the holder runs at least at the running task's priority. */
  function Inherit(k: Kernel, holder: Task): Kernel {
    if holder !in k.tcb || k.Prio(k.current) <= k.Prio(holder) then k
    else
      var was := k.tcb[holder];
      var n := SetEventPriority(k, holder, k.Prio(k.current));
      Requeued(SetTcb(n, holder, was.(priority := k.Prio(k.current))), holder, was.priority)
  }

  /** xTaskPriorityDisinherit, by the holder, which is the running task. */
  function Disinherit(k: Kernel): Kernel {
    var t := k.current;
    if t !in k.tcb || k.tcb[t].mutexesHeld == 0 then k
    else
      var held := k.tcb[t].(mutexesHeld := k.tcb[t].mutexesHeld - 1);
      if held.priority != held.basePriority && held.mutexesHeld == 0 then
        var n := SetTcb(k, t, held.(priority := held.basePriority));
        ToReady(n.(h := n.h.SetValue(EventItem(t), EventValue(held.basePriority))), t)
      else SetTcb(k, t, held)
  }

  /** pvTaskIncrementMutexHeldCount. */
  function HoldMutex(k: Kernel): Kernel {
    if k.current in k.tcb then SetTcb(k, k.current,
      k.tcb[k.current].(mutexesHeld := k.tcb[k.current].mutexesHeld + 1)) else k
  }

  // ----- Selection ------------------------------------------------------------------

  /** The scan of taskSELECT_HIGHEST_PRIORITY_TASK. */
  function HighestLevel(h: Heap, from: nat): nat {
    if h.Items(Ready(from)) != [] || from == 0 then from else HighestLevel(h, from - 1)
  }

  /** vTaskSwitchContext. */
  function SwitchContext(k: Kernel): Kernel {
    if k.suspended != 0 then k.(yieldPending := true)
    else
      var level := HighestLevel(k.h, k.top);
      var g := k.h.Step(Ready(level));
      k.(yieldPending := false, top := level, h := g,
         current := if 0 < g.At(Ready(level)).index <= |g.Items(Ready(level))|
                    then g.At(Ready(level)).Selected().task else k.current)
  }
}
