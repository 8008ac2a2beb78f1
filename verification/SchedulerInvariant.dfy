/** What every scheduler operation keeps, and the lemmas about moving one task. */
module SchedulerInvariant {
  import opened KernelConfig
  import opened KernelLists
  import opened ListHeap
  import opened Scheduler

  predicate StateList(l: ListId) {
    l.Ready? || l == DelayedA || l == DelayedB || l == Suspended || l == Termination
  }

  /** Every task that is not freed has its state item in exactly one state list (an item has
      one container, and the lists agree with it), that of its priority when it is ready;
      only a blocked task is on an event list. */
  ghost predicate Partition(k: Kernel) {
    && k.h.Wf()
    && (forall i :: i in k.h.container ==> (i.StateItem? <==> StateList(k.h.container[i])))
    && (forall t :: t in k.tcb <==> StateItem(t) in k.h.container)
    && (forall t :: EventItem(t) in k.h.container ==> t in k.tcb && k.Blocked(t))
    && (forall t :: k.IsReady(t) ==> k.h.container[StateItem(t)].level == k.Prio(t) <= k.top)
  }

  /** The delayed and the overflow list are the two lists made for that, in one role or the other. */
  predicate TwoLists(k: Kernel) {
    (k.delayed == DelayedA && k.overflow == DelayedB) || (k.delayed == DelayedB && k.overflow == DelayedA)
  }

  /** The timing wheel: both lists are ordered; nothing in the delayed list is due before
      `bound`, nothing in the overflow list is later than one turn, and the cached unblock
      time is not later than anything in the delayed list. */
  ghost predicate Wheel(k: Kernel, bound: nat) {
    && TwoLists(k)
    && k.tick < TICK_MODULUS && k.nextUnblock <= MAX_DELAY
    && k.h.Ordered(k.delayed) && k.h.Ordered(k.overflow)
    && (forall t :: k.Is(t, k.delayed) ==> bound <= k.h.Val(StateItem(t)) < TICK_MODULUS)
    && (forall t :: k.Is(t, k.delayed) ==> k.nextUnblock <= k.h.Val(StateItem(t)))
    && (forall t :: k.Is(t, k.overflow) ==> k.h.Val(StateItem(t)) < k.tick)
  }

  ghost predicate Counts(k: Kernel) {
    && k.tasks == |k.tcb|
    && k.toCleanUp == |k.h.Items(Termination)|
  }

  /** Nothing is pended while the scheduler runs. */
  ghost predicate Deferral(k: Kernel) {
    k.suspended == 0 ==> k.pendedTicks == 0 && k.h.Items(PendingReady) == []
  }

  ghost predicate Inv(k: Kernel) {
    Partition(k) && Wheel(k, k.tick + 1) && Counts(k) && Deferral(k) && k.current in k.tcb
  }

  // ----- Moving one task ------------------------------------------------------------

  lemma MovedContainers(h: Heap, t: Task, l: ListId)
    ensures MoveState(h, t, l).value == h.value
    ensures MoveState(h, t, l).container == h.container[StateItem(t) := l]
  {}

  lemma RestingContainers(h: Heap, i: Item)
    ensures h.Unlink(i).value == h.value && h.Unlink(i).container == h.container - {i}
  {}

  lemma MoveStateFacts(h: Heap, t: Task, l: ListId)
    requires h.Wf() && StateItem(t) in h.container
    ensures var g := MoveState(h, t, l);
            && g.Wf() && g.value == h.value && g.container == h.container[StateItem(t) := l]
            && (forall m :: m != l && h.Ordered(m) ==> g.Ordered(m))
            && (forall m :: m != l && !h.In(StateItem(t), m) ==> g.At(m) == h.At(m))
  {
    UnlinkFacts(h, StateItem(t));
    LinkEndFacts(h.Unlink(StateItem(t)), l, StateItem(t));
  }

  /** The effect of taking a task's event item out and moving its state item to the end of
      a list, as seen through the containers. */
  lemma MoveFacts(h: Heap, t: Task, l: ListId)
    requires h.Wf() && StateItem(t) in h.container
    ensures var g := MoveState(h.Unlink(EventItem(t)), t, l);
            && g.Wf() && g.value == h.value
            && g.container == (h.container - {EventItem(t)})[StateItem(t) := l]
            && (forall m :: m != l && h.Ordered(m) ==> g.Ordered(m))
            && (forall m :: m != l && !h.In(StateItem(t), m) && !h.In(EventItem(t), m) ==> g.At(m) == h.At(m))
  {
    if EventItem(t) in h.container { UnlinkFacts(h, EventItem(t)); }
    MoveStateFacts(h.Unlink(EventItem(t)), t, l);
  }

  /** The effect of taking a state item out and inserting it in order of a new value. */
  lemma MoveTimedFacts(h: Heap, t: Task, v: nat, l: ListId)
    requires h.Wf() && StateItem(t) in h.container
    ensures var g := MoveTimed(h, t, v, l);
            && g.Wf() && g.value == h.value[StateItem(t) := v]
            && g.container == h.container[StateItem(t) := l]
            && (forall m :: h.Ordered(m) ==> g.Ordered(m))
            && (forall m :: m != l && !h.In(StateItem(t), m) ==> g.At(m) == h.At(m))
  {
    UnlinkFacts(h, StateItem(t));
    var u := h.Unlink(StateItem(t));
    SetValueFacts(u, StateItem(t), v);
    LinkSortedFacts(u.SetValue(StateItem(t), v), l, StateItem(t));
  }

  /** `w` differs from `k` in that `t`, off any event list, now stands at the end of `l`. */
  ghost predicate Moved(k: Kernel, w: Kernel, t: Task, l: ListId) {
    && w.h.Wf() && w.h.value == k.h.value && w.tcb == k.tcb
    && w.h.container == (k.h.container - {EventItem(t)})[StateItem(t) := l]
    && (forall m :: m != l && k.h.Ordered(m) ==> w.h.Ordered(m))
    && (forall m :: m != l && !k.h.In(StateItem(t), m) && !k.h.In(EventItem(t), m) ==> w.h.At(m) == k.h.At(m))
    && w.delayed == k.delayed && w.overflow == k.overflow && w.tick == k.tick && w.overflows == k.overflows
  }

  lemma MovedKeepsPartition(k: Kernel, w: Kernel, t: Task, l: ListId)
    requires Partition(k) && Moved(k, w, t, l) && t in k.tcb && StateList(l)
    requires k.top <= w.top
    requires l.Ready? ==> l.level == k.Prio(t) <= w.top
    ensures Partition(w)
  {}

  lemma MovedKeepsWheel(k: Kernel, w: Kernel, t: Task, l: ListId, bound: nat)
    requires Wheel(k, bound) && Moved(k, w, t, l) && l != k.delayed && l != k.overflow
    requires w.nextUnblock == k.nextUnblock
    ensures Wheel(w, bound)
  {}

  /** The effect of waking one blocked task. */
  lemma WakeKeeps(k: Kernel, t: Task, bound: nat)
    requires Partition(k) && Wheel(k, bound) && Counts(k) && k.Blocked(t)
    ensures var w := Wake(k, t);
            && Partition(w) && Wheel(w, bound) && Counts(w)
            && Moved(k, w, t, Ready(k.Prio(t))) && w == k.(h := w.h, top := w.top)
  {
    var w := Wake(k, t);
    assert t in k.tcb;
    MoveFacts(k.h, t, Ready(k.Prio(t)));
    assert Moved(k, w, t, Ready(k.Prio(t)));
    MovedKeepsPartition(k, w, t, Ready(k.Prio(t)));
    MovedKeepsWheel(k, w, t, Ready(k.Prio(t)), bound);
    assert w.h.At(Termination) == k.h.At(Termination);
  }

  /** Everything in `ts` is ready and off the event lists; nothing else has moved. */
  ghost predicate Woken(k: Kernel, w: Kernel, ts: seq<Task>) {
    && w == k.(h := w.h, top := w.top) && w.h.value == k.h.value
    && (forall t :: t in ts ==> w.Is(t, Ready(k.Prio(t))) && !w.OnEvent(t))
    && (forall i: Item :: i.task !in ts ==> (i in w.h.container <==> i in k.h.container))
    && (forall i: Item :: i.task !in ts && i in k.h.container ==> w.h.container[i] == k.h.container[i])
  }

  lemma {:induction false} WakeAllKeeps(k: Kernel, ts: seq<Task>, bound: nat)
    requires Partition(k) && Wheel(k, bound) && Counts(k)
    requires NoDup(ts) && forall t :: t in ts ==> k.Blocked(t)
    ensures var w := WakeAll(k, ts);
            Partition(w) && Wheel(w, bound) && Counts(w) && Woken(k, w, ts)
    decreases |ts|
  {
    hide Partition, Wheel, Counts, Wake;
    if ts != [] {
      var w := Wake(k, ts[0]);
      WakeKeeps(k, ts[0], bound);
      assert ts == [ts[0]] + ts[1..];
      forall t | t in ts[1..] ensures w.Blocked(t) {
        assert k.Blocked(t) && t != ts[0];
      }
      WakeAllKeeps(w, ts[1..], bound);
      WokenTogether(k, w, WakeAll(w, ts[1..]), ts);
    }
  }

  lemma WokenTogether(k: Kernel, w: Kernel, r: Kernel, ts: seq<Task>)
    requires ts != [] && NoDup(ts)
    requires w == k.(h := w.h, top := w.top) && Moved(k, w, ts[0], Ready(k.Prio(ts[0])))
    requires Woken(w, r, ts[1..])
    ensures Woken(k, r, ts)
  {
    assert ts == [ts[0]] + ts[1..];
    assert forall t :: t in ts ==> t == ts[0] || t in ts[1..];
    assert ts[0] !in ts[1..];
    assert StateItem(ts[0]).task == ts[0] && EventItem(ts[0]).task == ts[0];
  }

  // ----- The tick -------------------------------------------------------------------

  lemma ResetMakesWheel(k: Kernel, bound: nat)
    requires Partition(k) && Wheel(k.(nextUnblock := 0), bound)
    ensures Wheel(ResetNextUnblock(k), bound)
  {
    EmptyIffNothingIn(k.h, k.delayed);
    if k.h.Items(k.delayed) != [] {
      HeadIsLeast(k.h, k.delayed);
      var head := k.h.Items(k.delayed)[0];
      assert head == StateItem(head.task);
      assert k.Is(head.task, k.delayed);
    }
  }

  lemma ResetKeeps(k: Kernel, bound: nat)
    requires Partition(k) && Wheel(k, bound)
    ensures var r := ResetNextUnblock(k);
            Partition(r) && Wheel(r, bound) && r == k.(nextUnblock := r.nextUnblock) && (Counts(k) ==> Counts(r))
  {
    ResetMakesWheel(k, bound);
    SameContainersSamePartition(k, ResetNextUnblock(k));
  }

  /** The assertion in taskSWITCH_DELAYED_LISTS: at the wrap the delayed list is empty. */
  lemma DelayedEmptyAtWrap(k: Kernel)
    requires Partition(k) && Wheel(k, k.tick + 1) && k.tick + 1 == TICK_MODULUS
    ensures k.h.Items(k.delayed) == []
  {
    forall i ensures !k.h.In(i, k.delayed) {
      assert k.h.In(i, k.delayed) ==> i == StateItem(i.task);
      assert !k.Is(i.task, k.delayed);
    }
    EmptyIffNothingIn(k.h, k.delayed);
  }

  /** taskSWITCH_DELAYED_LISTS before it resets the unblock time. */
  function Switched(k: Kernel): Kernel {
    k.(tick := 0, delayed := k.overflow, overflow := k.delayed, overflows := k.overflows + 1)
  }

  lemma SwitchKeepsWheel(k: Kernel)
    requires Partition(k) && Wheel(k, k.tick + 1) && k.tick + 1 == TICK_MODULUS
    ensures Wheel(Switched(k).(nextUnblock := 0), 0)
  {}

  lemma AdvanceKeeps(k: Kernel)
    requires Partition(k) && Wheel(k, k.tick + 1) && Counts(k)
    ensures var a := Advance(k);
            Partition(a) && Wheel(a, a.tick) && Counts(a) && a.h == k.h && a.tcb == k.tcb
  {
    var s := Switched(k);
    if k.tick + 1 == TICK_MODULUS {
      SwitchKeepsWheel(k);
      SameContainersSamePartition(k, s);
      ResetMakesWheel(s, 0);
    }
  }

  lemma SameContainersSamePartition(k: Kernel, s: Kernel)
    requires Partition(k) && s.h == k.h && s.tcb == k.tcb && s.top == k.top
    ensures Partition(s)
  {}

  lemma DueFacts(k: Kernel)
    requires Partition(k) && Wheel(k, k.tick)
    ensures NoDup(Due(k))
    ensures forall t :: t in Due(k) <==> k.Is(t, k.delayed) && k.h.Val(StateItem(t)) <= k.tick
  {
    var items, n := k.h.Items(k.delayed), FirstGreater(k.h.Values(k.delayed), k.tick);
    FirstGreaterSplits(k.h.Values(k.delayed), k.tick);
    assert forall j :: 0 <= j < |items| ==> items[j] in items;
    assert forall j :: 0 <= j < |items| ==> items[j] == StateItem(items[j].task);
    forall t ensures t in Due(k) <==> k.Is(t, k.delayed) && k.h.Val(StateItem(t)) <= k.tick {
      if k.Is(t, k.delayed) && k.h.Val(StateItem(t)) <= k.tick {
        var j := Position(items, StateItem(t));
        assert k.h.Values(k.delayed)[j] <= k.tick;
        assert Due(k)[j] == t;
      }
      if t in Due(k) {
        var j := Position(Due(k), t);
        assert items[j] == StateItem(t) && k.h.Values(k.delayed)[j] <= k.tick;
      }
    }
    forall i, j | 0 <= i < j < |Due(k)| ensures Due(k)[i] != Due(k)[j] {
      assert items[i] != items[j];
    }
  }

  lemma ExpireKeeps(k: Kernel)
    requires Partition(k) && Wheel(k, k.tick) && Counts(k)
    ensures var e, w := Expire(k), WakeAll(k, Due(k));
            && Partition(e) && Wheel(e, e.tick + 1) && Counts(e)
            && Woken(k, w, Due(k)) && e == w.(nextUnblock := e.nextUnblock)
  {
    hide WakeAll, Due, Partition, Wheel, Counts, ResetNextUnblock, Woken, TwoLists;
    var w := WakeAll(k, Due(k));
    DueFacts(k);
    DueIsBlocked(k);
    WheelLists(k, k.tick);
    WakeAllKeeps(k, Due(k), k.tick);
    NothingDueIsLeft(k, w);
    WokenTick(k, w, Due(k));
    ResetKeeps(w, w.tick + 1);
  }

  lemma DueIsBlocked(k: Kernel)
    requires Partition(k) && Wheel(k, k.tick)
    ensures forall t :: t in Due(k) ==> k.Blocked(t)
  {
    hide Due, Partition;
    DueFacts(k);
  }

  lemma WokenTick(k: Kernel, w: Kernel, ts: seq<Task>)
    requires Woken(k, w, ts)
    ensures w.tick == k.tick
  {}

  lemma WheelLists(k: Kernel, bound: nat)
    requires Wheel(k, bound)
    ensures TwoLists(k)
  {}

  lemma NothingDueIsLeft(k: Kernel, w: Kernel)
    requires Woken(k, w, Due(k)) && Wheel(w, k.tick)
    requires TwoLists(k)
    requires forall t :: t in Due(k) <==> k.Is(t, k.delayed) && k.h.Val(StateItem(t)) <= k.tick
    ensures Wheel(w, k.tick + 1)
  {}

  /** The shortcut through xNextTaskUnblockTime is safe: when it skips the delayed list,
      nothing in that list is due, so a tick that always scans leaves the same lists. */
  lemma ShortcutIsSafe(k: Kernel)
    requires Partition(k) && Wheel(k, k.tick) && k.tick < k.nextUnblock
    ensures Due(k) == [] && Wheel(k, k.tick + 1)
    ensures Expire(k).h == k.h
  {
    DueFacts(k);
    SomeMember(Due(k));
  }

  lemma TickKeeps(k: Kernel)
    requires Partition(k) && Wheel(k, k.tick + 1) && Counts(k)
    ensures var r := IncrementTick(k);
            Partition(r) && Wheel(r, r.tick + 1) && Counts(r)
  {
    AdvanceKeeps(k);
    if Advance(k).nextUnblock <= Advance(k).tick {
      ExpireKeeps(Advance(k));
    } else {
      ShortcutIsSafe(Advance(k));
    }
  }
}
