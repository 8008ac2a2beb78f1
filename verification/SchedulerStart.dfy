/** What is created before the scheduler starts, and which task then runs first. */
module SchedulerStart {
  import opened KernelConfig
  import opened KernelLists
  import opened ListHeap
  import opened Scheduler
  import opened SchedulerInvariant
  import opened SchedulerOperations
  import opened SchedulerTasks
  import opened SchedulerRuns

  datatype Creation = Creation(task: Task, priority: nat)

  /** Before anything has been created. */
  function Unstarted(): Kernel {
    Kernel(Heap(map[], map[], map[]), map[], DelayedA, DelayedB, 0, 0, 0, 0, 0, false, 0, IDLE, 0, 0)
  }

  function Launched(creations: seq<Creation>): Kernel {
    if creations == [] then Unstarted()
    else
      var last := creations[|creations| - 1];
      Launch(Launched(creations[..|creations| - 1]), last.task, last.priority)
  }

  /** vTaskStartScheduler: the idle task comes last, and the clock is set. */
  function Started(creations: seq<Creation>): Kernel {
    Launched(creations + [Creation(IDLE, 0)]).(nextUnblock := MAX_DELAY, tick := 0)
  }

  predicate Different(creations: seq<Creation>) {
    forall i, j :: 0 <= i < j < |creations| ==> creations[i].task != creations[j].task
  }

  /** Everything that has been created is ready. */
  ghost predicate AllReady(k: Kernel, creations: seq<Creation>) {
    && (forall t :: t in k.tcb <==> exists i :: 0 <= i < |creations| && creations[i].task == t)
    && (forall t :: t in k.tcb ==> k.IsReady(t))
    && (forall i :: 0 <= i < |creations| ==> k.Prio(creations[i].task) == Clipped(creations[i].priority))
    && k.tick == 0 && k.suspended == 0
  }

  /** The i-th creation runs first: none before it has a higher priority, and none after it
      has as high a one. */
  predicate First(creations: seq<Creation>, i: nat)
    requires i < |creations|
  {
    && (forall j :: 0 <= j < i ==> Clipped(creations[j].priority) <= Clipped(creations[i].priority))
    && (forall j :: i < j < |creations| ==> Clipped(creations[j].priority) < Clipped(creations[i].priority))
  }

  /** Any state with one task alone, ready, and all other lists empty. */
  lemma AloneIsInOrder(k: Kernel, t: Task, p: nat)
    requires k.h.Wf() && k.h.container == map[StateItem(t) := Ready(p)] && k.tcb == map[t := Tcb(p, p, 0)]
    requires forall m :: m != Ready(p) ==> k.h.At(m) == KList([], 0)
    requires k == Kernel(k.h, k.tcb, DelayedA, DelayedB, 0, 0, 0, 0, 0, false, p, t, 1, 0)
    ensures Inv(k)
  {
    assert k.h.Items(DelayedA) == [] && k.h.Items(DelayedB) == [];
    assert k.h.Ordered(DelayedA) && k.h.Ordered(DelayedB);
  }

  lemma FirstLaunch(c: Creation)
    ensures Inv(Launch(Unstarted(), c.task, c.priority))
  {
    var k, p := Launch(Unstarted(), c.task, c.priority), Clipped(c.priority);
    assert k.h.At(Ready(p)) == KList([StateItem(c.task)], 0);
    assert k.h.Wf();
    hide Inv;
    AloneIsInOrder(k, c.task, p);
  }

  lemma OtherCurrent(k: Kernel, t: Task)
    requires Inv(k) && t in k.tcb
    ensures Inv(k.(current := t))
  {
    hide Wheel;
    SameContainersSamePartition(k, k.(current := t));
    assert Wheel(k.(current := t), k.tick + 1) by { WheelOfOther(k, t); }
  }

  lemma WheelOfOther(k: Kernel, t: Task)
    requires Wheel(k, k.tick + 1)
    ensures Wheel(k.(current := t), k.tick + 1)
  {}

  lemma LaunchEffect(k: Kernel, t: Task, priority: nat)
    ensures var w, p := Launch(k, t, priority), Clipped(priority);
            && w == Create(k, t, priority).(current := w.current)
            && w.h.container == k.h.container[StateItem(t) := Ready(p)] && w.tcb == k.tcb[t := Tcb(p, p, 0)]
            && w.current == (if k.current !in k.tcb || k.Prio(k.current) <= p then t else k.current)
            && w.tick == k.tick && w.suspended == k.suspended
  {
    hide EventValue, KList.InsertEnd;
  }

  lemma LaunchKeeps(k: Kernel, t: Task, priority: nat)
    requires Inv(k) && t !in k.tcb
    ensures Inv(Launch(k, t, priority))
  {
    hide Inv, Create, Launch;
    CreateKeeps(k, t, priority);
    LaunchEffect(k, t, priority);
    InvBounds(k);
    assert Create(k, t, priority).tcb == Launch(k, t, priority).tcb;
    OtherCurrent(Create(k, t, priority), Launch(k, t, priority).current);
  }

  lemma LaunchIsReady(k: Kernel, front: seq<Creation>, c: Creation)
    requires AllReady(k, front) && c.task !in k.tcb
    ensures AllReady(Launch(k, c.task, c.priority), front + [c])
  {
    hide Launch;
    var w, all := Launch(k, c.task, c.priority), front + [c];
    LaunchEffect(k, c.task, c.priority);
    forall t ensures t in w.tcb <==> exists i :: 0 <= i < |all| && all[i].task == t {
      if t in k.tcb {
        var i :| 0 <= i < |front| && front[i].task == t;
        assert all[i].task == t;
      }
      if t == c.task { assert all[|front|].task == t; }
      if i :| 0 <= i < |all| && all[i].task == t { assert i == |front| || front[i].task == t; }
    }
    forall i | 0 <= i < |all| ensures w.Prio(all[i].task) == Clipped(all[i].priority) {
      if i < |front| { assert all[i] == front[i] && front[i].task in k.tcb; }
    }
  }

  lemma LaunchIsFirst(k: Kernel, front: seq<Creation>, c: Creation, i: nat) returns (j: nat)
    requires AllReady(k, front) && i < |front| && First(front, i) && k.current == front[i].task
    ensures j < |front + [c]| && First(front + [c], j)
    ensures Launch(k, c.task, c.priority).current == (front + [c])[j].task
  {
    hide Launch, Clipped;
    LaunchEffect(k, c.task, c.priority);
    assert front[i].task in k.tcb;
    j := if Clipped(front[i].priority) <= Clipped(c.priority) then |front| else i;
    assert forall a :: 0 <= a < |front| ==> (front + [c])[a] == front[a];
    assert forall a :: 0 <= a < |front| ==> Clipped(front[a].priority) <= Clipped(front[i].priority);
  }

  /** The state is in order after every creation, everybody is ready, and the task that would
      run first is the latest of those with the greatest priority. */
  lemma {:induction false} LaunchedIsInOrder(creations: seq<Creation>) returns (first: nat)
    requires Different(creations) && creations != []
    ensures first < |creations| && First(creations, first)
    ensures var k := Launched(creations);
            Inv(k) && AllReady(k, creations) && k.current == creations[first].task
    decreases |creations|
  {
    hide Inv, Launch, First, AllReady;
    var front, c := creations[..|creations| - 1], creations[|creations| - 1];
    assert creations == front + [c];
    if front == [] {
      first := 0;
      FirstLaunch(c);
      assert Launched(front) == Unstarted();
      assert AllReady(Unstarted(), []) by { NobodyIsReady(); }
      LaunchIsReady(Unstarted(), [], c);
      LaunchEffect(Unstarted(), c.task, c.priority);
      assert First([c], 0) by { OneIsFirst(c); }
    } else {
      var i := LaunchedIsInOrder(front);
      assert c.task !in Launched(front).tcb by { NotYetCreated(Launched(front), front, c); }
      LaunchKeeps(Launched(front), c.task, c.priority);
      LaunchIsReady(Launched(front), front, c);
      first := LaunchIsFirst(Launched(front), front, c, i);
    }
  }

  lemma NobodyIsReady()
    ensures AllReady(Unstarted(), [])
  {}

  lemma OneIsFirst(c: Creation)
    ensures First([c], 0)
  {}

  lemma NotYetCreated(k: Kernel, front: seq<Creation>, c: Creation)
    requires AllReady(k, front) && Different(front + [c])
    ensures c.task !in k.tcb
  {
    forall i | 0 <= i < |front| ensures front[i].task != c.task {
      assert (front + [c])[i].task != (front + [c])[|front|].task;
    }
  }

  /** The clock is set when nobody waits for it. */
  lemma ClockSet(k: Kernel, creations: seq<Creation>)
    requires Inv(k) && AllReady(k, creations)
    ensures Inv(k.(nextUnblock := MAX_DELAY, tick := 0))
  {
    var w := k.(nextUnblock := MAX_DELAY, tick := 0);
    SameContainersSamePartition(k, w);
    assert forall t :: !k.Is(t, k.delayed) && !k.Is(t, k.overflow);
  }

  /** Whatever has been created, the scheduler starts in a sound state, with the idle task
      among the ready ones, and runs the latest task of the greatest priority first. */
  lemma StartIsSound(creations: seq<Creation>) returns (first: nat)
    requires Different(creations + [Creation(IDLE, 0)])
    ensures Sound(Started(creations))
    ensures first < |creations| + 1 && First(creations + [Creation(IDLE, 0)], first)
    ensures Started(creations).current == (creations + [Creation(IDLE, 0)])[first].task
  {
    hide Inv, First, AllReady, Launched;
    var all := creations + [Creation(IDLE, 0)];
    first := LaunchedIsInOrder(all);
    ClockSet(Launched(all), all);
    IdleIsReady(Launched(all), creations);
  }

  lemma IdleIsReady(k: Kernel, creations: seq<Creation>)
    requires AllReady(k, creations + [Creation(IDLE, 0)])
    ensures k.IsReady(IDLE)
  {
    assert (creations + [Creation(IDLE, 0)])[|creations|].task == IDLE;
  }

  /** And every run from there stays sound. */
  lemma RunsAreSound(creations: seq<Creation>, ops: seq<Op>)
    requires Different(creations + [Creation(IDLE, 0)]) && Permitted(Started(creations), ops)
    ensures Sound(Run(Started(creations), ops))
  {
    hide Sound, Run, Permitted, Started, Different;
    var _ := StartIsSound(creations);
    RunKeepsInv(Started(creations), ops);
  }
}
