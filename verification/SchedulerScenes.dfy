/** A few short runs of the scheduler, worked out list by list. */
module SchedulerScenes {
  import opened KernelConfig
  import opened KernelLists
  import opened ListHeap
  import opened Scheduler
  import opened SchedulerRuns

  /** The operations lead from the start of the scheduler to `k`. */
  ghost predicate Leads(ops: seq<Op>, k: Kernel) {
    Permitted(Boot(), ops) && Run(Boot(), ops) == k
  }

  lemma {:induction false} OneMore(k: Kernel, ops: seq<Op>, op: Op)
    requires Permitted(k, ops) && Enabled(Run(k, ops), op)
    ensures Permitted(k, ops + [op]) && Run(k, ops + [op]) == Apply(Run(k, ops), op)
    decreases |ops|
  {
    hide Apply, Enabled;
    if ops == [] {
      assert [op][1..] == [];
    } else {
      assert (ops + [op])[1..] == ops[1..] + [op];
      OneMore(Apply(k, ops[0]), ops[1..], op);
    }
  }

  lemma Onward(ops: seq<Op>, k: Kernel, op: Op, w: Kernel, longer: seq<Op>)
    requires Leads(ops, k) && Enabled(k, op) && w == Apply(k, op) && longer == ops + [op]
    ensures Leads(longer, w)
  {
    hide Apply, Enabled, Boot, Run, Permitted;
    OneMore(Boot(), ops, op);
  }

  /** Lists other than these are the same. */
  ghost predicate OthersSame(h: Heap, g: Heap, changed: set<ListId>) {
    forall l :: l !in changed ==> g.At(l) == h.At(l)
  }

  /** What selection looks at, besides the lists. */
  ghost predicate SameRest(k: Kernel, w: Kernel) {
    w.current == k.current && w.top == k.top && w.suspended == k.suspended
  }

  // ----- One operation at a time ----------------------------------------------------

  lemma CreatedScene(k: Kernel, t: Task, p: nat) returns (w: Kernel)
    requires p < MAX_PRIORITIES && t !in k.tcb
    ensures w == Apply(k, CreateOp(t, p)) && Enabled(k, CreateOp(t, p))
    ensures w.h.At(Ready(p)) == k.h.At(Ready(p)).InsertEnd(StateItem(t)) && OthersSame(k.h, w.h, {Ready(p)})
    ensures w.h.container == k.h.container[StateItem(t) := Ready(p)]
    ensures w.h.value == k.h.value[EventItem(t) := EventValue(p)]
    ensures w.tcb == k.tcb[t := Tcb(p, p, 0)]
    ensures w.current == k.current && w.suspended == k.suspended && w.top == if k.top < p then p else k.top
  {
    w := Create(k, t, p);
  }

  lemma {:induction false} ScanEndsAt(h: Heap, from: nat, level: nat)
    requires level <= from && h.Items(Ready(level)) != []
    requires forall l :: level < l <= from ==> h.Items(Ready(l)) == []
    ensures HighestLevel(h, from) == level
    decreases from
  {
    if level < from { ScanEndsAt(h, from - 1, level); }
  }

  lemma SwitchedScene(k: Kernel, level: nat, t: Task) returns (w: Kernel)
    requires k.suspended == 0 && level <= k.top
    requires forall l :: level < l <= k.top ==> k.h.Items(Ready(l)) == []
    requires k.h.Items(Ready(level)) == [StateItem(t)] && k.h.At(Ready(level)).index <= 1
    ensures w == Apply(k, SwitchOp) && Enabled(k, SwitchOp)
    ensures w.h.At(Ready(level)) == KList([StateItem(t)], 1) && OthersSame(k.h, w.h, {Ready(level)})
    ensures w.h.container == k.h.container && w.h.value == k.h.value && w.tcb == k.tcb
    ensures w.current == t && w.suspended == 0 && w.top == level
  {
    ScanEndsAt(k.h, k.top, level);
    w := SwitchContext(k);
  }

  /** The running task waits for as long as it takes. */
  lemma WaitedScene(k: Kernel, id: nat) returns (w: Kernel)
    requires StateItem(k.current) in k.h.container && k.h.container[StateItem(k.current)].Ready? && k.current != IDLE
    ensures w == Apply(k, WaitOp(id, MAX_DELAY)) && Enabled(k, WaitOp(id, MAX_DELAY))
    ensures var i := EventItem(k.current);
            w.h.At(EventList(id)) == k.h.At(EventList(id)).InsertSorted(i, k.h.Values(EventList(id)), k.h.Val(i))
    ensures var s := StateItem(k.current);
            && w.h.At(k.h.container[s]) == k.h.At(k.h.container[s]).Remove(s)
            && OthersSame(k.h, w.h, {EventList(id), k.h.container[s], Suspended})
    ensures w.h.container == k.h.container[EventItem(k.current) := EventList(id)][StateItem(k.current) := Suspended]
    ensures w.h.value == k.h.value && w.tcb == k.tcb && SameRest(k, w)
  {
    hide KList.InsertSorted, KList.Remove, Heap.Values;
    w := BlockOnEvent(k, id, MAX_DELAY);
  }

  /** The running task lends its priority to a ready task of lower priority. */
  lemma LentScene(k: Kernel, t: Task) returns (w: Kernel)
    requires t in k.tcb && k.Prio(t) < k.Prio(k.current) <= k.top && k.h.Val(EventItem(t)) < TICK_MODULUS / 2
    requires k.Is(t, Ready(k.Prio(t)))
    ensures w == Apply(k, InheritOp(t)) && Enabled(k, InheritOp(t))
    ensures var s, from, to := StateItem(t), Ready(k.Prio(t)), Ready(k.Prio(k.current));
            && w.h.At(from) == k.h.At(from).Remove(s) && w.h.At(to) == k.h.At(to).InsertEnd(s)
            && OthersSame(k.h, w.h, {from, to}) && w.h.container == k.h.container[s := to]
    ensures w.h.value == k.h.value[EventItem(t) := EventValue(k.Prio(k.current))]
    ensures w.tcb == k.tcb[t := k.tcb[t].(priority := k.Prio(k.current))] && SameRest(k, w)
  {
    hide KList.InsertEnd, KList.Remove, EventValue;
    w := Inherit(k, t);
  }

  /** A new base priority for a ready task that runs at an inherited one: it goes to the end
      of the list it is in. */
  lemma RebasedScene(k: Kernel, t: Task, p: nat) returns (w: Kernel)
    requires t in k.tcb && p < MAX_PRIORITIES && p != k.tcb[t].basePriority
    requires k.tcb[t].basePriority != k.tcb[t].priority <= k.top
    requires k.h.Val(EventItem(t)) < TICK_MODULUS / 2 && k.Is(t, Ready(k.Prio(t)))
    ensures w == Apply(k, PrioritySetOp(t, p)) && Enabled(k, PrioritySetOp(t, p))
    ensures var s, l := StateItem(t), Ready(k.Prio(t));
            && w.h.At(l) == k.h.At(l).Remove(s).InsertEnd(s)
            && OthersSame(k.h, w.h, {l}) && w.h.container == k.h.container
    ensures w.h.value == k.h.value[EventItem(t) := EventValue(p)]
    ensures w.tcb == k.tcb[t := k.tcb[t].(basePriority := p)] && SameRest(k, w)
  {
    hide KList.InsertEnd, KList.Remove, EventValue;
    w := PrioritySet(k, t, p);
  }

  /** A new priority for a task that is not ready and runs at its base priority. */
  lemma RepricedScene(k: Kernel, t: Task, p: nat) returns (w: Kernel)
    requires t in k.tcb && p < MAX_PRIORITIES
    requires p != k.tcb[t].basePriority == k.tcb[t].priority
    requires k.h.Val(EventItem(t)) < TICK_MODULUS / 2 && !k.IsReady(t)
    ensures w == Apply(k, PrioritySetOp(t, p)) && Enabled(k, PrioritySetOp(t, p))
    ensures w.h == k.h.SetValue(EventItem(t), EventValue(p)) && SameRest(k, w)
    ensures w.tcb == k.tcb[t := k.tcb[t].(priority := p, basePriority := p)]
  {
    hide EventValue;
    w := PrioritySet(k, t, p);
  }

  lemma HeldScene(k: Kernel) returns (w: Kernel)
    requires k.current in k.tcb
    ensures w == Apply(k, HoldMutexOp) && Enabled(k, HoldMutexOp) && w.h == k.h && SameRest(k, w)
    ensures w.tcb == k.tcb[k.current := k.tcb[k.current].(mutexesHeld := k.tcb[k.current].mutexesHeld + 1)]
  {
    w := HoldMutex(k);
  }

  // ----- Two tasks, and a mutex between them ----------------------------------------

  ghost predicate OthersEmpty(h: Heap, used: set<ListId>) {
    forall l :: l !in used ==> h.At(l) == KList([], 0)
  }

  /** Task 1, of priority 1, runs, and holds some mutexes. */
  ghost predicate OneRuns(k: Kernel, held: nat) {
    && k.h.At(Ready(1)) == KList([StateItem(1)], 1) && OthersEmpty(k.h, {Ready(0), Ready(1)})
    && k.h.container == map[StateItem(0) := Ready(0), StateItem(1) := Ready(1)]
    && k.h.value == map[EventItem(0) := EventValue(0), EventItem(1) := EventValue(1)]
    && k.tcb == map[0 := Tcb(0, 0, 0), 1 := Tcb(1, 1, held)]
    && k.current == 1 && k.top == 1 && k.suspended == 0
  }

  lemma OneStarts() returns (b: Kernel, c: Kernel)
    requires 2 < MAX_PRIORITIES
    ensures b == Apply(Boot(), CreateOp(1, 1)) && Enabled(Boot(), CreateOp(1, 1))
    ensures c == Apply(b, SwitchOp) && Enabled(b, SwitchOp) && OneRuns(c, 0)
  {
    hide Apply, Enabled, Boot, EventValue;
    BootFacts();
    BootValues();
    b := CreatedScene(Boot(), 1, 1);
    assert b.h.At(Ready(1)) == KList([StateItem(1)], 0);
    c := SwitchedScene(b, 1, 1);
  }

  lemma BootValues()
    ensures Boot().h.value == map[EventItem(IDLE) := EventValue(0)]
  {}

  lemma OneHolds(c: Kernel) returns (d: Kernel)
    requires OneRuns(c, 0)
    ensures d == Apply(c, HoldMutexOp) && Enabled(c, HoldMutexOp) && OneRuns(d, 1)
  {
    hide Apply, Enabled, EventValue;
    d := HeldScene(c);
  }

  /** Task 2, of priority 2, runs, and task 1 is ready. */
  ghost predicate TwoRuns(k: Kernel) {
    && k.h.At(Ready(1)) == KList([StateItem(1)], 1) && k.h.At(Ready(2)) == KList([StateItem(2)], 1)
    && OthersEmpty(k.h, {Ready(0), Ready(1), Ready(2)})
    && k.h.container == map[StateItem(0) := Ready(0), StateItem(1) := Ready(1), StateItem(2) := Ready(2)]
    && k.h.value == map[EventItem(0) := EventValue(0), EventItem(1) := EventValue(1), EventItem(2) := EventValue(2)]
    && k.tcb == map[0 := Tcb(0, 0, 0), 1 := Tcb(1, 1, 1), 2 := Tcb(2, 2, 0)]
    && k.current == 2 && k.top == 2 && k.suspended == 0
  }

  lemma TwoStarts(d: Kernel) returns (e: Kernel, f: Kernel)
    requires 2 < MAX_PRIORITIES && OneRuns(d, 1)
    ensures e == Apply(d, CreateOp(2, 2)) && Enabled(d, CreateOp(2, 2))
    ensures f == Apply(e, SwitchOp) && Enabled(e, SwitchOp) && TwoRuns(f)
  {
    hide Apply, Enabled, EventValue;
    e := CreatedScene(d, 2, 2);
    assert e.h.At(Ready(2)) == KList([StateItem(2)], 0);
    f := SwitchedScene(e, 2, 2);
  }

  /** Task 2 still runs, and task 1 has its priority. */
  ghost predicate OneRaised(k: Kernel, base: nat) {
    && k.h.At(Ready(1)) == KList([], 0) && k.h.At(Ready(2)) == KList([StateItem(1), StateItem(2)], 2)
    && OthersEmpty(k.h, {Ready(0), Ready(1), Ready(2)})
    && k.h.container == map[StateItem(0) := Ready(0), StateItem(1) := Ready(2), StateItem(2) := Ready(2)]
    && k.tcb == map[0 := Tcb(0, 0, 0), 1 := Tcb(2, base, 1), 2 := Tcb(2, 2, 0)]
    && k.current == 2 && k.top == 2 && k.suspended == 0
  }

  lemma OneInherits(f: Kernel) returns (g: Kernel)
    requires 2 < MAX_PRIORITIES && TwoRuns(f)
    ensures g == Apply(f, InheritOp(1)) && Enabled(f, InheritOp(1)) && OneRaised(g, 1)
    ensures g.h.value == map[EventItem(0) := EventValue(0), EventItem(1) := EventValue(2),
                             EventItem(2) := EventValue(2)]
  {
    hide Apply, Enabled;
    g := LentScene(f, 1);
  }
}
