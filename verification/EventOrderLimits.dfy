/** Where waiting lists lose their order, and where a waiter of lower priority is served. */
module EventOrderLimits {
  import opened KernelConfig
  import opened KernelLists
  import opened ListHeap
  import opened Scheduler
  import opened SchedulerInvariant
  import opened SchedulerOperations
  import opened SchedulerRuns
  import opened SchedulerFrames
  import opened SchedulerScenes
  import opened EventOrder

  // ----- Priority calls on a waiting task -------------------------------------------

  /** The value is not below that of the item before, nor above that of the item behind. */
  predicate Between(h: Heap, l: ListId, i: Item, v: nat)
    requires i in h.Items(l)
  {
    var p := Position(h.Items(l), i);
    (0 < p ==> h.Values(l)[p - 1] <= v) && (p + 1 < |h.Items(l)| ==> v <= h.Values(l)[p + 1])
  }

  /** Rewriting the value of a waiting task in place keeps its list sorted exactly when the
      new value lies between those of its neighbours. */
  lemma RewritingKeepsOrderExactly(h: Heap, l: ListId, i: Item, v: nat)
    requires h.At(l).Valid() && h.Ordered(l) && i in h.Items(l)
    ensures h.SetValue(i, v).Ordered(l) <==> Between(h, l, i, v)
  {
    ValuesRewritten(h, l, i, v);
    SortedRewritten(h.Values(l), Position(h.Items(l), i), v);
  }

  lemma ValuesRewritten(h: Heap, l: ListId, i: Item, v: nat)
    requires h.At(l).Valid() && i in h.Items(l)
    ensures h.SetValue(i, v).Values(l) == h.Values(l)[Position(h.Items(l), i) := v]
  {
    var p, g := Position(h.Items(l), i), h.SetValue(i, v);
    assert forall a :: 0 <= a < |h.Items(l)| && a != p ==> h.Items(l)[a] != i;
  }

  lemma SortedRewritten(values: seq<nat>, p: nat, v: nat)
    requires Sorted(values) && p < |values|
    ensures Sorted(values[p := v]) <==>
      (0 < p ==> values[p - 1] <= v) && (p + 1 < |values| ==> v <= values[p + 1])
  {
    var now := values[p := v];
    if Sorted(now) {
      assert 0 < p ==> now[p - 1] <= now[p];
      assert p + 1 < |now| ==> now[p] <= now[p + 1];
    }
  }

  lemma WaiterIsListed(k: Kernel, id: nat, t: Task)
    requires Partition(k) && k.h.In(EventItem(t), EventList(id))
    ensures k.h.At(EventList(id)).Valid() && EventItem(t) in k.h.Items(EventList(id)) && !k.IsReady(t) && t in k.tcb
  {}

  /** vTaskPrioritySet on a waiting task keeps its list sorted exactly when it writes nothing,
      since the base priority is that already or the item is borrowed, or the value it writes
      lies between those of the neighbours. */
  lemma PrioritySetKeepsListExactly(k: Kernel, id: nat, t: Task, priority: nat)
    requires Inv(k) && k.h.In(EventItem(t), EventList(id)) && k.h.Ordered(EventList(id))
    ensures t in k.tcb && EventItem(t) in k.h.Items(EventList(id))
    ensures PrioritySet(k, t, priority).h.Ordered(EventList(id)) <==>
      || k.tcb[t].basePriority == Clipped(priority) || TICK_MODULUS / 2 <= k.h.Val(EventItem(t))
      || Between(k.h, EventList(id), EventItem(t), EventValue(Clipped(priority)))
  {
    hide Inv, Partition, EventValue, Between;
    InvBounds(k);
    WaiterIsListed(k, id, t);
    RewritingKeepsOrderExactly(k.h, EventList(id), EventItem(t), EventValue(Clipped(priority)));
  }

  /** The same for vTaskPriorityInherit, which writes nothing when the running task's priority
      is not higher. */
  lemma InheritKeepsListExactly(k: Kernel, id: nat, t: Task)
    requires Inv(k) && k.h.In(EventItem(t), EventList(id)) && k.h.Ordered(EventList(id))
    ensures EventItem(t) in k.h.Items(EventList(id))
    ensures Inherit(k, t).h.Ordered(EventList(id)) <==>
      || k.Prio(k.current) <= k.Prio(t) || TICK_MODULUS / 2 <= k.h.Val(EventItem(t))
      || Between(k.h, EventList(id), EventItem(t), EventValue(k.Prio(k.current)))
  {
    hide Inv, Partition, EventValue, Between;
    InvBounds(k);
    WaiterIsListed(k, id, t);
    RewritingKeepsOrderExactly(k.h, EventList(id), EventItem(t), EventValue(k.Prio(k.current)));
  }

  /** On a list whose waiters carry their priorities, a value lies between those of the
      neighbours exactly when its priority lies between theirs. */
  lemma BetweenPriorities(k: Kernel, id: nat, t: Task, p: nat)
    requires Partition(k) && InRange(k) && WaitersFaithful(k, id)
    requires EventItem(t) in k.h.Items(EventList(id)) && p < MAX_PRIORITIES
    ensures var s := k.h.Items(EventList(id));
            var a := Position(s, EventItem(t));
            Between(k.h, EventList(id), EventItem(t), EventValue(p)) <==>
              (0 < a ==> p <= k.Prio(s[a - 1].task)) && (a + 1 < |s| ==> k.Prio(s[a + 1].task) <= p)
  {
    hide EventValue;
    var s := k.h.Items(EventList(id));
    forall a | 0 <= a < |s|
      ensures k.h.Val(s[a]) == EventValue(k.Prio(s[a].task)) && k.Prio(s[a].task) < MAX_PRIORITIES
    {
      assert s[a] in s && s[a] == EventItem(s[a].task);
    }
    forall a | 0 <= a < |s| ensures k.h.Val(s[a]) <= EventValue(p) <==> p <= k.Prio(s[a].task)
      ensures EventValue(p) <= k.h.Val(s[a]) <==> k.Prio(s[a].task) <= p
    {
      ByPriority(p, k.Prio(s[a].task));
    }
  }

  // ----- A run that ends with an unsorted list --------------------------------------

  /** Two waiters, the one with the smaller value in front. */
  lemma JoinsInFront(h: Heap, l: ListId, i: Item, j: Item)
    requires h.At(l) == KList([i], 0) && h.Val(j) < h.Val(i)
    ensures h.At(l).InsertSorted(j, h.Values(l), h.Val(j)) == KList([j, i], 0)
  {
    assert FirstGreater(h.Values(l), h.Val(j)) == 0;
  }

  lemma JoinsAlone(h: Heap, l: ListId, j: Item)
    requires h.At(l) == KList([], 0)
    ensures h.At(l).InsertSorted(j, h.Values(l), h.Val(j)) == KList([j], 0)
  {}

  /** Tasks 1 and 2, of priorities 1 and 2, wait on list 0. */
  lemma BothWait() returns (k: Kernel)
    requires 2 < MAX_PRIORITIES
    ensures Leads([CreateOp(1, 1), SwitchOp, WaitOp(0, MAX_DELAY), CreateOp(2, 2), SwitchOp, WaitOp(0, MAX_DELAY)], k)
    ensures k.h.Items(EventList(0)) == [EventItem(2), EventItem(1)]
    ensures k.h.Val(EventItem(2)) == EventValue(2) && k.h.Val(EventItem(1)) == EventValue(1)
    ensures k.tcb == map[0 := Tcb(0, 0, 0), 1 := Tcb(1, 1, 0), 2 := Tcb(2, 2, 0)] && !k.IsReady(2)
  {
    hide Apply, Enabled, Boot, Leads, OneRuns;
    var wait := WaitOp(0, MAX_DELAY);
    var ops := [CreateOp(1, 1), SwitchOp, wait, CreateOp(2, 2), SwitchOp, wait];
    var b, c := OneStarts();
    var d := OneWaits(c);
    var e, f := TwoComes(d);
    k := WaitedScene(f, 0);
    JoinsInFront(f.h, EventList(0), EventItem(1), EventItem(2));
    NoOps();
    Onward([], Boot(), ops[0], b, ops[..1]);
    Onward(ops[..1], b, ops[1], c, ops[..2]);
    Onward(ops[..2], c, ops[2], d, ops[..3]);
    Onward(ops[..3], d, ops[3], e, ops[..4]);
    Onward(ops[..4], e, ops[4], f, ops[..5]);
    Onward(ops[..5], f, ops[5], k, ops);
  }

  lemma NoOps()
    ensures Leads([], Boot())
  {}

  lemma OneWaits(c: Kernel) returns (d: Kernel)
    requires OneRuns(c, 0)
    ensures d == Apply(c, WaitOp(0, MAX_DELAY)) && Enabled(c, WaitOp(0, MAX_DELAY))
    ensures d.h.At(EventList(0)) == KList([EventItem(1)], 0) && OthersEmpty(d.h, {Ready(0), EventList(0), Suspended})
    ensures d.h.container == map[StateItem(0) := Ready(0), StateItem(1) := Suspended, EventItem(1) := EventList(0)]
    ensures d.h.value == map[EventItem(0) := EventValue(0), EventItem(1) := EventValue(1)]
    ensures d.tcb == map[0 := Tcb(0, 0, 0), 1 := Tcb(1, 1, 0)] && d.top == 1 && d.suspended == 0
  {
    hide Apply, Enabled, EventValue;
    d := WaitedScene(c, 0);
    JoinsAlone(c.h, EventList(0), EventItem(1));
  }

  lemma TwoComes(d: Kernel) returns (e: Kernel, f: Kernel)
    requires 2 < MAX_PRIORITIES
    requires d.h.At(EventList(0)) == KList([EventItem(1)], 0) && OthersEmpty(d.h, {Ready(0), EventList(0), Suspended})
    requires d.h.container == map[StateItem(0) := Ready(0), StateItem(1) := Suspended, EventItem(1) := EventList(0)]
    requires d.h.value == map[EventItem(0) := EventValue(0), EventItem(1) := EventValue(1)]
    requires d.tcb == map[0 := Tcb(0, 0, 0), 1 := Tcb(1, 1, 0)] && d.top == 1 && d.suspended == 0
    ensures e == Apply(d, CreateOp(2, 2)) && Enabled(d, CreateOp(2, 2))
    ensures f == Apply(e, SwitchOp) && Enabled(e, SwitchOp)
    ensures f.h.At(EventList(0)) == KList([EventItem(1)], 0) && f.IsReady(2) && f.current == 2
    ensures f.h.value == map[EventItem(0) := EventValue(0), EventItem(1) := EventValue(1),
                             EventItem(2) := EventValue(2)]
    ensures f.tcb == map[0 := Tcb(0, 0, 0), 1 := Tcb(1, 1, 0), 2 := Tcb(2, 2, 0)]
  {
    hide Apply, Enabled, EventValue;
    e := CreatedScene(d, 2, 2);
    assert e.h.At(Ready(2)) == KList([StateItem(2)], 0);
    f := SwitchedScene(e, 2, 2);
  }

  /** Then the priority of the first in the list is set to 0: its value is rewritten where it
      stands, the list is no longer sorted, and a task of priority 0 is the next to be served
      while one of priority 1 waits. */
  lemma PriorityCallUnsorts() returns (ops: seq<Op>, k: Kernel)
    requires 2 < MAX_PRIORITIES
    ensures ops == [CreateOp(1, 1), SwitchOp, WaitOp(0, MAX_DELAY), CreateOp(2, 2), SwitchOp, WaitOp(0, MAX_DELAY),
                    PrioritySetOp(2, 0)]
    ensures Permitted(Boot(), ops) && k == Run(Boot(), ops)
    ensures !k.h.Ordered(EventList(0))
    ensures k.h.Items(EventList(0)) == [EventItem(2), EventItem(1)] && k.Prio(2) == 0 && k.Prio(1) == 1
  {
    hide Apply, Enabled, Boot, Permitted, Run;
    var was := BothWait();
    ops := [CreateOp(1, 1), SwitchOp, WaitOp(0, MAX_DELAY), CreateOp(2, 2), SwitchOp, WaitOp(0, MAX_DELAY)];
    k := RepricedScene(was, 2, 0);
    Onward(ops, was, PrioritySetOp(2, 0), k, ops + [PrioritySetOp(2, 0)]);
    ops := ops + [PrioritySetOp(2, 0)];
    assert k.h.Values(EventList(0))[1] < k.h.Values(EventList(0))[0];
  }

  // ----- A run in which the wrong waiter is served ----------------------------------

  /** Task 1 runs at priority 2, inherited from task 2, which waits on the mutex list 0; its
      base priority and its event item have been set to 0. */
  ghost predicate OneMisled(k: Kernel) {
    && k.h.At(Ready(1)) == KList([], 0) && k.h.At(Ready(2)) == KList([StateItem(1)], 1)
    && OthersEmpty(k.h, {Ready(0), Ready(1), Ready(2), Suspended, EventList(0)})
    && StateItem(1) in k.h.container && k.h.container[StateItem(1)] == Ready(2)
    && k.h.Val(EventItem(1)) == EventValue(0)
    && k.tcb == map[0 := Tcb(0, 0, 0), 1 := Tcb(2, 0, 1), 2 := Tcb(2, 2, 0)]
    && k.current == 1 && k.top == 2 && k.suspended == 0
  }

  lemma OneIsRebased(g: Kernel) returns (h: Kernel)
    requires 2 < MAX_PRIORITIES && OneRaised(g, 1)
    requires g.h.value == map[EventItem(0) := EventValue(0), EventItem(1) := EventValue(2),
                              EventItem(2) := EventValue(2)]
    ensures h == Apply(g, PrioritySetOp(1, 0)) && Enabled(g, PrioritySetOp(1, 0))
    ensures OneRaised(h, 0) && h.h.Val(EventItem(1)) == EventValue(0)
  {
    hide Apply, Enabled, EventValue;
    LowValues(g);
    h := RebasedScene(g, 1, 0);
  }

  lemma OneIsMisled(h: Kernel) returns (i: Kernel, j: Kernel)
    requires OneRaised(h, 0) && h.h.Val(EventItem(1)) == EventValue(0)
    ensures i == Apply(h, WaitOp(0, MAX_DELAY)) && Enabled(h, WaitOp(0, MAX_DELAY))
    ensures j == Apply(i, SwitchOp) && Enabled(i, SwitchOp) && OneMisled(j)
  {
    hide Apply, Enabled, EventValue, KList.InsertSorted;
    PositionOfSecond(StateItem(1), StateItem(2));
    i := WaitedScene(h, 0);
    assert i.h.At(Ready(2)) == KList([StateItem(1)], 1);
    j := SwitchedScene(i, 2, 1);
  }

  lemma LowValues(k: Kernel)
    requires k.h.value == map[EventItem(0) := EventValue(0), EventItem(1) := EventValue(2),
                              EventItem(2) := EventValue(2)]
    ensures k.h.Val(EventItem(1)) < TICK_MODULUS / 2
  {}

  /** Task 1 waits on list 1; task 3 is created with priority 1 and runs. */
  ghost predicate ThreeRuns(k: Kernel) {
    && k.h.At(EventList(1)) == KList([EventItem(1)], 0) && k.h.At(Ready(1)) == KList([StateItem(3)], 1)
    && StateItem(3) in k.h.container && k.h.container[StateItem(3)] == Ready(1)
    && k.h.Val(EventItem(1)) == EventValue(0) && k.h.Val(EventItem(3)) == EventValue(1)
    && k.Is(1, Suspended) && k.h.In(EventItem(1), EventList(1)) && 1 in k.tcb && 3 in k.tcb
    && k.Prio(1) == 2 && k.Prio(3) == 1 && k.current == 3 && k.suspended == 0
  }

  /** Task 1 waits on list 1, and nobody is ready but the idle task. */
  ghost predicate OneAsleep(k: Kernel) {
    && k.h.At(EventList(1)) == KList([EventItem(1)], 0)
    && k.h.At(Ready(1)) == KList([], 0) && k.h.At(Ready(2)) == KList([], 0)
    && k.h.Val(EventItem(1)) == EventValue(0) && k.Is(1, Suspended) && k.h.In(EventItem(1), EventList(1))
    && k.tcb == map[0 := Tcb(0, 0, 0), 1 := Tcb(2, 0, 1), 2 := Tcb(2, 2, 0)]
    && k.top == 2 && k.suspended == 0
  }

  lemma OneSleeps(j: Kernel) returns (l: Kernel)
    requires OneMisled(j)
    ensures l == Apply(j, WaitOp(1, MAX_DELAY)) && Enabled(j, WaitOp(1, MAX_DELAY)) && OneAsleep(l)
  {
    hide Apply, Enabled, EventValue, KList.InsertSorted;
    JoinsAlone(j.h, EventList(1), EventItem(1));
    l := WaitedScene(j, 1);
    assert l.h.At(Ready(2)) == KList([], 0);
  }

  lemma ThreeComes(l: Kernel) returns (m: Kernel, n: Kernel)
    requires 2 < MAX_PRIORITIES && OneAsleep(l)
    ensures m == Apply(l, CreateOp(3, 1)) && Enabled(l, CreateOp(3, 1))
    ensures n == Apply(m, SwitchOp) && Enabled(m, SwitchOp) && ThreeRuns(n)
  {
    hide Apply, Enabled, EventValue;
    m := CreatedScene(l, 3, 1);
    assert m.h.At(Ready(1)) == KList([StateItem(3)], 0);
    n := SwitchedScene(m, 1, 3);
  }

  /** Task 3 waits on list 1 too, and is served first, at priority 1, while task 1 waits at
      priority 2. */
  lemma ThreeIsServed(n: Kernel) returns (q: Kernel, r: Kernel)
    requires 2 < MAX_PRIORITIES && ThreeRuns(n)
    ensures q == Apply(n, WaitOp(1, MAX_DELAY)) && Enabled(n, WaitOp(1, MAX_DELAY))
    ensures r == Apply(q, NotifyOp(1)) && Enabled(q, NotifyOp(1))
    ensures r.Is(3, Ready(1)) && r.Prio(3) == 1
    ensures r.h.In(EventItem(1), EventList(1)) && r.Prio(1) == 2
  {
    hide Apply, Enabled;
    q := WaitedScene(n, 1);
    JoinsInFront(n.h, EventList(1), EventItem(1), EventItem(3));
    r := ServedScene(q, 1, 3);
  }

  lemma ServedScene(k: Kernel, id: nat, t: Task) returns (w: Kernel)
    requires k.suspended == 0 && k.h.Items(EventList(id)) != [] && k.h.Items(EventList(id))[0] == EventItem(t)
    ensures w == Apply(k, NotifyOp(id)) && Enabled(k, NotifyOp(id)) && w.tcb == k.tcb
    ensures w.h.container == (k.h.container - {EventItem(t)})[StateItem(t) := Ready(k.Prio(t))]
  {
    hide MoveState;
    MovedContainers(k.h.Unlink(EventItem(t)), t, Ready(k.Prio(t)));
    RestingContainers(k.h, EventItem(t));
    w := RemoveFromEventList(k, id);
  }

  /** From the start: task 2 finds a mutex of task 1 taken and lends its priority; the base
      priority of task 1 is set to 0 before the mutex is given back, which writes the value
      for priority 0 into the event item of a task that runs at priority 2. When task 1 then
      waits for a queue, task 3, of priority 1, comes after it and is served before it. */
  lemma WrongWaiterIsServed() returns (ops: seq<Op>, k: Kernel)
    requires 2 < MAX_PRIORITIES
    ensures ops == [CreateOp(1, 1), SwitchOp, HoldMutexOp, CreateOp(2, 2), SwitchOp, InheritOp(1), PrioritySetOp(1, 0),
                    WaitOp(0, MAX_DELAY), SwitchOp, WaitOp(1, MAX_DELAY), CreateOp(3, 1), SwitchOp,
                    WaitOp(1, MAX_DELAY), NotifyOp(1)]
    ensures Permitted(Boot(), ops) && k == Run(Boot(), ops)
    ensures k.IsReady(3) && k.Prio(3) == 1
    ensures k.h.In(EventItem(1), EventList(1)) && k.Prio(1) == 2
  {
    hide Apply, Enabled, Boot, Permitted, Run, Leads, OneRuns, TwoRuns, OneRaised, OneMisled, OneAsleep, ThreeRuns;
    var g := MutexIsLent();
    var h := OneIsRebased(g);
    var i, j := OneIsMisled(h);
    var l := OneSleeps(j);
    var m, n := ThreeComes(l);
    var q, r := ThreeIsServed(n);
    ops := [CreateOp(1, 1), SwitchOp, HoldMutexOp, CreateOp(2, 2), SwitchOp, InheritOp(1), PrioritySetOp(1, 0),
            WaitOp(0, MAX_DELAY), SwitchOp, WaitOp(1, MAX_DELAY), CreateOp(3, 1), SwitchOp,
            WaitOp(1, MAX_DELAY), NotifyOp(1)];
    assert ops[..6] == [CreateOp(1, 1), SwitchOp, HoldMutexOp, CreateOp(2, 2), SwitchOp, InheritOp(1)];
    Onward(ops[..6], g, ops[6], h, ops[..7]);
    Onward(ops[..7], h, ops[7], i, ops[..8]);
    Onward(ops[..8], i, ops[8], j, ops[..9]);
    Onward(ops[..9], j, ops[9], l, ops[..10]);
    Onward(ops[..10], l, ops[10], m, ops[..11]);
    Onward(ops[..11], m, ops[11], n, ops[..12]);
    Onward(ops[..12], n, ops[12], q, ops[..13]);
    Onward(ops[..13], q, ops[13], r, ops);
    k := r;
    Arrives(ops, k);
  }

  lemma Arrives(ops: seq<Op>, k: Kernel)
    requires Leads(ops, k)
    ensures Permitted(Boot(), ops) && k == Run(Boot(), ops)
  {}

  lemma MutexIsLent() returns (g: Kernel)
    requires 2 < MAX_PRIORITIES
    ensures Leads([CreateOp(1, 1), SwitchOp, HoldMutexOp, CreateOp(2, 2), SwitchOp, InheritOp(1)], g) && OneRaised(g, 1)
    ensures g.h.value == map[EventItem(0) := EventValue(0), EventItem(1) := EventValue(2),
                             EventItem(2) := EventValue(2)]
  {
    hide Apply, Enabled, Boot, Leads, OneRuns, TwoRuns, OneRaised;
    var b, c := OneStarts();
    var d := OneHolds(c);
    var e, f := TwoStarts(d);
    g := OneInherits(f);
    var ops := [CreateOp(1, 1), SwitchOp, HoldMutexOp, CreateOp(2, 2), SwitchOp, InheritOp(1)];
    NoOps();
    Onward([], Boot(), ops[0], b, ops[..1]);
    Onward(ops[..1], b, ops[1], c, ops[..2]);
    Onward(ops[..2], c, ops[2], d, ops[..3]);
    Onward(ops[..3], d, ops[3], e, ops[..4]);
    Onward(ops[..4], e, ops[4], f, ops[..5]);
    Onward(ops[..5], f, ops[5], g, ops);
  }
}
