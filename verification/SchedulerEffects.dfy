/** What each operation does to the task it is for: on which lists the task is afterwards, who
    goes before it there, and whether a switch is asked for. Nobody else moves. */
module SchedulerEffects {
  import opened KernelConfig
  import opened KernelLists
  import opened ListHeap
  import WalkOrder
  import opened Scheduler
  import opened SchedulerInvariant
  import opened SchedulerOperations
  import opened SchedulerTasks
  import opened SchedulerRuns
  import opened SchedulerTime

  // ----- Last in turn ---------------------------------------------------------------

  /** The walk comes to every other item before it comes to `i`, but for the one it rests on. */
  ghost predicate LastInTurn(l: KList<Item>, i: Item) {
    && l.index <= |l.items| && i in l.items
    && forall j :: j in l.items && j != i && !WalkOrder.At(l, j) ==>
         WalkOrder.Distance(l, j) < WalkOrder.Distance(l, i)
  }

  lemma InsertEndIsLast(l: KList<Item>, i: Item)
    requires l.Valid() && i !in l.items
    ensures LastInTurn(l.InsertEnd(i), i)
  {
    var m, k := l.InsertEnd(i), if l.index == 0 then |l.items| else l.index - 1;
    InsertAtFacts(l, k, i);
    assert m == l.InsertAt(k, i) && m.items[k] == i;
    PositionUnique(m.items, k);
    hide KList.InsertEnd, Position;
    forall j | j in m.items && j != i && !WalkOrder.At(m, j)
      ensures WalkOrder.Distance(m, j) < WalkOrder.Distance(m, i)
    {
      var p := Position(m.items, j);
      assert m.items[p] == j && p != k && m.index != p + 1;
    }
  }

  /** `t` is ready, behind all that wait for their turn on its level. */
  ghost predicate JoinsReady(w: Kernel, t: Task) {
    w.Is(t, Ready(w.Prio(t))) && LastInTurn(w.h.At(Ready(w.Prio(t))), StateItem(t))
  }

  /** The items of all tasks but `t` are where they were. */
  ghost predicate OthersStay(k: Kernel, w: Kernel, t: Task) {
    forall i: Item :: i.task != t ==>
      ((i in w.h.container <==> i in k.h.container)
        && (i in k.h.container ==> w.h.container[i] == k.h.container[i]))
  }

  lemma MovedIsLast(h: Heap, t: Task, l: ListId)
    requires h.Wf()
    ensures LastInTurn(MoveState(h, t, l).At(l), StateItem(t))
  {
    var u := h.Unlink(StateItem(t));
    UnlinkAny(h, StateItem(t));
    NotListed(u, l, StateItem(t));
    InsertEndIsLast(u.At(l), StateItem(t));
  }

  lemma NotListed(h: Heap, l: ListId, i: Item)
    requires h.Wf() && i !in h.container
    ensures i !in h.Items(l) && h.At(l).Valid()
  {
    assert i in h.Items(l) <==> h.In(i, l);
  }

  lemma ToReadyEffect(k: Kernel, t: Task)
    requires k.h.Wf()
    ensures var w := ToReady(k, t);
            && JoinsReady(w, t) && OthersStay(k, w, t) && w == k.(h := w.h, top := w.top) && w.h.value == k.h.value
            && (w.OnEvent(t) <==> k.OnEvent(t))
            && (k.OnEvent(t) ==> w.h.container[EventItem(t)] == k.h.container[EventItem(t)])
  {
    hide LastInTurn;
    MovedIsLast(k.h, t, Ready(k.Prio(t)));
    MovedContainers(k.h, t, Ready(k.Prio(t)));
    hide MoveState;
  }

  lemma WakeEffect(k: Kernel, t: Task)
    requires k.h.Wf()
    ensures var w := Wake(k, t);
            && JoinsReady(w, t) && OthersStay(k, w, t) && w == k.(h := w.h, top := w.top) && w.h.value == k.h.value
            && !w.OnEvent(t)
  {
    hide ToReady, JoinsReady;
    UnlinkAny(k.h, EventItem(t));
    ToReadyEffect(k.(h := k.h.Unlink(EventItem(t))), t);
  }

  // ----- Events ---------------------------------------------------------------------

  /** xTaskRemoveFromEventList: the first waiter is off the list; it is ready, or with the
      scheduler suspended it is put aside where it is; and a switch is asked for exactly when
      it is more important than the running task. */
  lemma HeadIsServed(k: Kernel, id: nat)
    requires Inv(k) && k.h.Items(EventList(id)) != []
    ensures var t, w := k.h.Items(EventList(id))[0].task, RemoveFromEventList(k, id);
            && k.h.Items(EventList(id))[0] == EventItem(t)
            && !w.h.In(EventItem(t), EventList(id)) && OthersStay(k, w, t)
            && (if k.suspended == 0 then JoinsReady(w, t) && !w.OnEvent(t)
                else w.h.In(EventItem(t), PendingReady) && SameStanding(k, w, t))
            && (w.yieldPending <==> k.yieldPending || k.Prio(k.current) < k.Prio(t))
            && w == k.(h := w.h, top := w.top, yieldPending := w.yieldPending) && w.h.value == k.h.value
  {
    hide Wake, JoinsReady, Inv, SetAside, OthersStay, RemoveFromEventList, SameStanding;
    InvBounds(k);
    WaiterIsBlocked(k, id);
    RemovalAmountsTo(k, id);
    var t := k.h.Items(EventList(id))[0].task;
    var y := k.yieldPending || k.Prio(k.current) < k.Prio(t);
    if k.suspended == 0 {
      WakeEffect(k, t);
      YieldAside(k, Wake(k, t), y, t);
    } else {
      SetAsideEffect(k, t);
      YieldAside(k, SetAside(k, t), y, t);
    }
  }

  lemma RemovalAmountsTo(k: Kernel, id: nat)
    requires k.h.Items(EventList(id)) != []
    ensures var t := k.h.Items(EventList(id))[0].task;
            RemoveFromEventList(k, id) == (if k.suspended == 0 then Wake(k, t) else SetAside(k, t)).(
              yieldPending := k.yieldPending || k.Prio(k.current) < k.Prio(t))
  {
    hide Wake;
  }

  lemma YieldAside(k: Kernel, w: Kernel, y: bool, t: Task)
    ensures JoinsReady(w, t) ==> JoinsReady(w.(yieldPending := y), t)
    ensures OthersStay(k, w, t) ==> OthersStay(k, w.(yieldPending := y), t)
    ensures SameStanding(k, w, t) ==> SameStanding(k, w.(yieldPending := y), t)
  {
    hide LastInTurn;
  }

  lemma SetAsideEffect(k: Kernel, t: Task)
    requires k.h.Wf()
    ensures var w := SetAside(k, t);
            && w.h.In(EventItem(t), PendingReady) && SameStanding(k, w, t) && OthersStay(k, w, t)
            && w == k.(h := w.h) && w.h.value == k.h.value
  {
    SetAsideFacts(k.h, t);
  }

  /** xTaskRemoveFromUnorderedEventList. */
  lemma ReleasedIsServed(k: Kernel, t: Task, v: nat)
    requires Inv(k) && k.OnEvent(t)
    ensures var w := RemoveFromUnordered(k, t, v);
            && JoinsReady(w, t) && !w.OnEvent(t) && OthersStay(k, w, t)
            && w.h.value == k.h.value[EventItem(t) := InUse(v)]
            && (w.yieldPending <==> k.yieldPending || k.Prio(k.current) < k.Prio(t))
            && w == k.(h := w.h, top := w.top, yieldPending := w.yieldPending)
  {
    hide Wake, JoinsReady, Inv, InUse, OthersStay;
    InvBounds(k);
    var m := k.(h := k.h.SetValue(EventItem(t), InUse(v)));
    SetValueFacts(k.h, EventItem(t), InUse(v));
    WakeEffect(m, t);
    OthersStayed(k, m, Wake(m, t), t);
    YieldAside(k, Wake(m, t), k.yieldPending || k.Prio(k.current) < k.Prio(t), t);
  }

  lemma OthersStayed(k: Kernel, m: Kernel, w: Kernel, t: Task)
    requires m.h.container == k.h.container && OthersStay(m, w, t)
    ensures OthersStay(k, w, t)
  {}

  /** vTaskPlaceOnEventList and vTaskPlaceOnUnorderedEventList: the running task is on the event
      list, with the value it has been given, and blocked: without a timeout if it waits
      indefinitely, else with one. */
  lemma WaiterJoins(k: Kernel, op: Op)
    requires Inv(k) && (op.WaitOp? || op.WaitUnorderedOp?) && Enabled(k, op)
    ensures var w := Apply(k, op);
            && w.h.In(EventItem(k.current), EventList(op.id)) && OthersStay(k, w, k.current)
            && (if op.ticks == MAX_DELAY then w.Is(k.current, Suspended) else w.Timed(k.current))
            && w.h.Val(EventItem(k.current)) == (if op.WaitOp? then k.h.Val(EventItem(k.current)) else InUse(op.value))
            && w == k.(h := w.h, nextUnblock := w.nextUnblock)
  {
    hide Block, Inv, InUse;
    InvBounds(k);
    var m := Placed(k, op);
    PlacedEffect(k, op);
    BlockEffect(m, op.ticks, true);
    WaiterParked(k, m, Block(m, op.ticks, true), EventItem(k.current), op.id);
  }

  /** The running task's event item has joined the event list. */
  function Placed(k: Kernel, op: Op): Kernel
    requires op.WaitOp? || op.WaitUnorderedOp?
  {
    var i := EventItem(k.current);
    if op.WaitOp? then k.(h := k.h.LinkSorted(EventList(op.id), i))
    else k.(h := k.h.SetValue(i, InUse(op.value)).LinkEnd(EventList(op.id), i))
  }

  lemma PlacedEffect(k: Kernel, op: Op)
    requires op.WaitOp? || op.WaitUnorderedOp?
    ensures var m, i := Placed(k, op), EventItem(k.current);
            && Apply(k, op) == Block(m, op.ticks, true) && m == k.(h := m.h)
            && m.h.container == k.h.container[i := EventList(op.id)]
            && m.h.Val(i) == if op.WaitOp? then k.h.Val(i) else InUse(op.value)
  {
    hide Block, InUse;
  }

  lemma WaiterParked(k: Kernel, m: Kernel, w: Kernel, i: Item, id: nat)
    requires m.h.container == k.h.container[i := EventList(id)] && m.current == k.current
    requires i == EventItem(k.current) && OthersStay(m, w, k.current)
    requires m.OnEvent(k.current) ==> w.OnEvent(k.current) && w.h.container[i] == m.h.container[i]
    ensures w.h.In(i, EventList(id)) && OthersStay(k, w, k.current)
  {}

  lemma BlockEffect(k: Kernel, ticks: nat, indefinitely: bool)
    requires TwoLists(k)
    ensures var w := Block(k, ticks, indefinitely);
            && OthersStay(k, w, k.current) && w == k.(h := w.h, nextUnblock := w.nextUnblock)
            && (if ticks == MAX_DELAY && indefinitely then w.Is(k.current, Suspended) else w.Timed(k.current))
            && (w.OnEvent(k.current) <==> k.OnEvent(k.current))
            && (k.OnEvent(k.current) ==> w.h.container[EventItem(k.current)] == k.h.container[EventItem(k.current)])
            && (forall t :: w.h.Val(EventItem(t)) == k.h.Val(EventItem(t)))
  {
    hide KList.InsertEnd, KList.InsertSorted, KList.Remove, Heap.Values;
  }

  /** vTaskDelay and vTaskDelayUntil, when they block. */
  lemma DelayedIsTimed(k: Kernel, ticks: nat)
    requires Inv(k) && Enabled(k, DelayOp(ticks))
    ensures var w := Apply(k, DelayOp(ticks));
            w.Timed(k.current) && w.OnEvent(k.current) == k.OnEvent(k.current) && OthersStay(k, w, k.current)
  {
    hide Block, Partition, Wheel;
    InvBounds(k);
    BlockEffect(k, ticks, false);
  }

  // ----- Tasks ----------------------------------------------------------------------

  /** A new task is ready with its priority, behind the others of its level; the running task
      runs on. */
  lemma CreatedIsReady(k: Kernel, t: Task, priority: nat)
    requires Inv(k) && t !in k.tcb
    ensures var w := Create(k, t, priority);
            && t in w.tcb && w.tcb == k.tcb[t := Tcb(Clipped(priority), Clipped(priority), 0)]
            && JoinsReady(w, t) && !w.OnEvent(t) && OthersStay(k, w, t) && w.current == k.current
            && w.h.Val(EventItem(t)) == EventValue(Clipped(priority))
  {
    hide LastInTurn, EventValue, Wheel;
    InvBounds(k);
    NewTaskHasNoItems(k, t);
    var h := k.h.SetValue(EventItem(t), EventValue(Clipped(priority)));
    SetValueFacts(k.h, EventItem(t), EventValue(Clipped(priority)));
    NotListed(h, Ready(Clipped(priority)), StateItem(t));
    InsertEndIsLast(h.At(Ready(Clipped(priority))), StateItem(t));
    hide KList.InsertEnd;
  }

  /** A task that deletes itself ends on the termination list; another one is gone. */
  lemma DeletedIsGone(k: Kernel, t: Task)
    requires Inv(k) && t in k.tcb
    ensures var w := Delete(k, t);
            && OthersStay(k, w, t) && !w.OnEvent(t) && w.current == k.current
            && (if t == k.current then w.Is(t, Termination) && w.tcb == k.tcb
                else StateItem(t) !in w.h.container && w.tcb == k.tcb - {t})
  {
    hide Partition, Wheel, Heap.Unlink, Heap.LinkEnd;
    TakenOutContainers(k.h, t);
    PutAwayContainers(k.h, t, Termination);
  }

  /** As long as a task waits for clean-up, the idle task frees one that does. */
  lemma CleanUpFreesOne(k: Kernel)
    requires Inv(k) && 0 < k.toCleanUp
    ensures var w := CleanUp(k);
            exists t :: k.Is(t, Termination) && t in k.tcb && w.tcb == k.tcb - {t} && OthersStay(k, w, t)
              && StateItem(t) !in w.h.container
  {
    hide Wheel, Heap.Unlink;
    InvBounds(k);
    TerminatedTask(k);
    var i := k.h.Items(Termination)[0];
    RestingContainers(k.h, i);
    assert k.Is(i.task, Termination) && i == StateItem(i.task);
  }

  /** vTaskSuspend: wherever the task was, it is suspended and waits for no event. */
  lemma SuspendedIsSuspended(k: Kernel, t: Task)
    ensures var w := Suspend(k, t);
            && w.Is(t, Suspended) && !w.OnEvent(t) && OthersStay(k, w, t)
            && w == k.(h := w.h, nextUnblock := w.nextUnblock) && w.h.value == k.h.value
  {
    hide Heap.Unlink, Heap.LinkEnd;
    PutAwayContainers(k.h, t, Suspended);
  }

  /** vTaskResume: a suspended task other than the running one is ready; nothing else happens
      to a task that is blocked, ready or put aside. */
  lemma ResumedIsReady(k: Kernel, t: Task)
    requires Inv(k)
    ensures var w := Resume(k, t);
            if t != k.current && k.Is(t, Suspended) && !k.OnEvent(t)
            then JoinsReady(w, t) && !w.OnEvent(t) && OthersStay(k, w, t) && w == k.(h := w.h, top := w.top)
            else w == k
  {
    hide ToReady, JoinsReady, Partition, Wheel;
    InvBounds(k);
    ToReadyEffect(k, t);
  }

  /** xTaskResumeFromISR: so is it here, or it is put aside where it is. */
  lemma ResumedFromISRIsReady(k: Kernel, t: Task)
    requires Inv(k)
    ensures var w := ResumeFromISR(k, t);
            if !k.Is(t, Suspended) || k.OnEvent(t) then w == k
            else if k.suspended == 0 then
              JoinsReady(w, t) && !w.OnEvent(t) && OthersStay(k, w, t) && w == k.(h := w.h, top := w.top)
            else
              w.h.In(EventItem(t), PendingReady) && SameStanding(k, w, t) && OthersStay(k, w, t) && w == k.(h := w.h)
  {
    hide ToReady, JoinsReady, Partition, Wheel, KList.InsertEnd;
    InvBounds(k);
    ToReadyEffect(k, t);
  }

  // ----- Priorities -----------------------------------------------------------------

  /** A task that was ready is ready behind the others of its level; one that was not stays
      where it is. */
  ghost predicate Requeues(k: Kernel, w: Kernel, t: Task) {
    && OthersStay(k, w, t) && w.current == k.current && w.yieldPending == k.yieldPending
    && (w.OnEvent(t) <==> k.OnEvent(t))
    && (k.OnEvent(t) ==> w.h.container[EventItem(t)] == k.h.container[EventItem(t)])
    && (if k.IsReady(t) then JoinsReady(w, t) else SameStanding(k, w, t))
  }

  lemma RequeuedEffect(k: Kernel, n: Kernel, t: Task)
    requires Partition(k) && t in k.tcb && n.h.Wf() && n.h.container == k.h.container
    requires n == k.(h := n.h, tcb := n.tcb) && n.tcb.Keys == k.tcb.Keys
    requires n.h.Val(StateItem(t)) == k.h.Val(StateItem(t))
    ensures Requeues(k, Requeued(n, t, k.Prio(t)), t)
  {
    hide ToReady, JoinsReady;
    ToReadyEffect(n, t);
  }

  /** A change of priority, or of base priority. */
  lemma ReprioritisedGoesLast(k: Kernel, t: Task, priority: nat)
    requires Inv(k)
    ensures var w := PrioritySet(k, t, priority);
            if t in k.tcb && k.tcb[t].basePriority != Clipped(priority) then Requeues(k, w, t) else w == k
  {
    hide Inv, Requeued, EventValue, Requeues;
    InvBounds(k);
    var p := Clipped(priority);
    SetValueFacts(k.h, EventItem(t), EventValue(p));
    if t in k.tcb && k.tcb[t].basePriority != p {
      var was := k.tcb[t];
      var n := SetEventPriority(SetTcb(k, t, was.(basePriority := p,
        priority := if was.basePriority == was.priority then p else was.priority)), t, p);
      RequeuedEffect(k, n, t);
    }
  }

  lemma LentGoesLast(k: Kernel, t: Task)
    requires Inv(k)
    ensures var w := Inherit(k, t);
            if t in k.tcb && k.Prio(t) < k.Prio(k.current) then Requeues(k, w, t) else w == k
  {
    hide Inv, Requeued, EventValue, Requeues;
    InvBounds(k);
    SetValueFacts(k.h, EventItem(t), EventValue(k.Prio(k.current)));
    if t in k.tcb && k.Prio(t) < k.Prio(k.current) {
      var was := k.tcb[t];
      var n := SetTcb(SetEventPriority(k, t, k.Prio(k.current)), t, was.(priority := k.Prio(k.current)));
      RequeuedEffect(k, n, t);
    }
  }

  /** A holder that falls back to its base priority goes behind the others there; otherwise
      giving a mutex moves nobody. */
  lemma FallenBackGoesLast(k: Kernel)
    requires Inv(k) && k.IsReady(k.current) && 0 < k.tcb[k.current].mutexesHeld
    ensures var w, q := Disinherit(k), k.tcb[k.current];
            if q.priority != q.basePriority && q.mutexesHeld == 1 then Requeues(k, w, k.current)
            else w == k.(tcb := w.tcb)
  {
    hide Wheel, ToReady, JoinsReady, EventValue;
    InvBounds(k);
    var t := k.current;
    var held := k.tcb[t].(mutexesHeld := k.tcb[t].mutexesHeld - 1);
    SetValueFacts(k.h, EventItem(t), EventValue(held.basePriority));
    var n := SetTcb(k, t, held.(priority := held.basePriority));
    ToReadyEffect(n.(h := n.h.SetValue(EventItem(t), EventValue(held.basePriority))), t);
  }

  /** uxTaskResetEventItemValue: a borrowed value is given back, and nothing else changes. */
  lemma ResetGivesBack(k: Kernel)
    ensures var w, i := ResetEventItemValue(k), EventItem(k.current);
            && w.h.Val(i) == EventValue(k.Prio(k.current)) && (forall j :: j != i ==> w.h.Val(j) == k.h.Val(j))
            && w.h.container == k.h.container && w == k.(h := w.h)
  {
    hide EventValue;
  }

  // ----- Suspension -----------------------------------------------------------------

  /** Suspensions nest: each resume undoes one, and only the last one does more. A switch that
      comes in between is only noted. */
  lemma SuspensionsNest(k: Kernel)
    ensures SuspendAll(k) == k.(suspended := k.suspended + 1)
    ensures 1 < k.suspended ==> ResumeAll(k) == k.(suspended := k.suspended - 1)
    ensures 0 < k.suspended ==> SwitchContext(k) == k.(yieldPending := true)
    ensures Inv(k) && k.suspended == 0 ==> ResumeAll(SuspendAll(k)) == k
  {
    hide Partition, Wheel;
  }

  /** The cached unblock time, when it is reset, is the least wake time in the delayed list, or
      the maximum when there is none. */
  lemma ResetIsLeast(k: Kernel)
    requires Inv(k)
    ensures var n := ResetNextUnblock(k).nextUnblock;
            && (forall t :: k.Is(t, k.delayed) ==> n <= k.h.Val(StateItem(t)))
            && (n == MAX_DELAY || exists t :: k.Is(t, k.delayed) && k.h.Val(StateItem(t)) == n)
  {
    InvBounds(k);
    ResetKeeps(k, k.tick + 1);
    EmptyIffNothingIn(k.h, k.delayed);
    if k.h.Items(k.delayed) != [] {
      HeadIsLeast(k.h, k.delayed);
      var i := k.h.Items(k.delayed)[0];
      assert i == StateItem(i.task) && k.Is(i.task, k.delayed);
    }
  }
}
