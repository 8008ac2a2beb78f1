/** Mutexes on top of the scheduler: who holds what, and what the holder's priority may do. */
module Mutexes {
  import opened KernelConfig
  import opened ListHeap
  import opened Scheduler
  import opened SchedulerInvariant
  import opened SchedulerOperations
  import opened SchedulerRuns
  import opened SchedulerFrames
  import opened SchedulerScenes

  datatype Option<T> = None | Some(value: T)

  /** A queue of length 1 and item size 0 used as a mutex. Its waiting list has its number. */
  datatype Mutex = Mutex(recursive: bool, messages: nat, holder: Option<Task>, calls: nat)

  datatype World = World(k: Kernel, mutexes: map<nat, Mutex>) {

    function HolderOf(m: nat): Option<Task> {
      if m in mutexes then mutexes[m].holder else None
    }

    function Held(t: Task): set<nat> {
      set m | m in mutexes && mutexes[m].holder == Some(t)
    }

    predicate Holds(t: Task) {
      exists m :: m in mutexes && mutexes[m].holder == Some(t)
    }
  }

  datatype Action =
    | NewMutex(m: nat, recursive: bool)
    | Take(m: nat)
    | InheritFor(m: nat)
    | Give(m: nat)
    | TakeRecursive(m: nat)
    | GiveRecursive(m: nat)
    | Other(op: Op)

  /** The part of xQueueGenericReceive that removes the one message of a mutex. */
  function Taken(w: World, m: nat): World
    requires m in w.mutexes
  {
    if w.mutexes[m].messages == 0 then w
    else World(HoldMutex(w.k), w.mutexes[m := w.mutexes[m].(messages := 0, holder := Some(w.k.current))])
  }

  /** xQueueGenericSend on a mutex with no message: disinherit, put the message back, and
      wake the first waiter. */
  function Given(w: World, m: nat): World
    requires m in w.mutexes
  {
    World(RemoveFromEventList(Disinherit(w.k), m), w.mutexes[m := w.mutexes[m].(messages := 1, holder := None)])
  }

  function Counted(w: World, m: nat, calls: nat): World
    requires m in w.mutexes
  {
    w.(mutexes := w.mutexes[m := w.mutexes[m].(calls := calls)])
  }

  function Step(w: World, a: Action): World
    requires Possible(w, a)
  {
    match a
    case NewMutex(m, recursive) => w.(mutexes := w.mutexes[m := Mutex(recursive, 1, None, 0)])
    case Take(m) => Taken(w, m)
    case InheritFor(m) =>
      if w.HolderOf(m).Some? then w.(k := Inherit(w.k, w.HolderOf(m).value)) else w
    case Give(m) => Given(w, m)
    case TakeRecursive(m) =>
      if w.HolderOf(m) == Some(w.k.current) then Counted(w, m, w.mutexes[m].calls + 1)
      else if w.mutexes[m].messages == 0 then w
      else Counted(Taken(w, m), m, w.mutexes[m].calls + 1)
    case GiveRecursive(m) =>
      if w.HolderOf(m) != Some(w.k.current) then w
      else
        var n := Counted(w, m, if w.mutexes[m].calls == 0 then 0 else w.mutexes[m].calls - 1);
        if n.mutexes[m].calls == 0 then Given(n, m) else n
    case Other(op) => w.(k := Apply(w.k, op))
  }

  /** Mutexes are taken by running tasks and given by their holder; a holder is not deleted;
      a mutex is used through the recursive calls or through the plain ones. */
  predicate Possible(w: World, a: Action) {
    match a
    case NewMutex(m, _) => m !in w.mutexes
    case Take(m) => m in w.mutexes && !w.mutexes[m].recursive && w.k.IsReady(w.k.current)
    case InheritFor(m) => m in w.mutexes
    case Give(m) =>
      m in w.mutexes && !w.mutexes[m].recursive && w.HolderOf(m) == Some(w.k.current) && w.k.IsReady(w.k.current)
    case TakeRecursive(m) => m in w.mutexes && w.mutexes[m].recursive && w.k.IsReady(w.k.current)
    case GiveRecursive(m) => m in w.mutexes && w.mutexes[m].recursive && w.k.IsReady(w.k.current)
    case Other(op) =>
      && Enabled(w.k, op) && !op.InheritOp? && !op.DisinheritOp? && !op.HoldMutexOp?
      && (op.DeleteOp? ==> !w.Holds(op.task))
  }

  // ----- Accounting -----------------------------------------------------------------

  /** The counts of held mutexes are right, and a mutex has a holder exactly when its message
      is out, which for a recursive one is when its call count is not zero. */
  ghost predicate Accounts(w: World) {
    && (forall m :: m in w.mutexes ==> (w.mutexes[m].messages == if w.mutexes[m].holder.None? then 1 else 0))
    && (forall m :: m in w.mutexes && w.mutexes[m].holder.Some? ==> w.mutexes[m].holder.value in w.k.tcb)
    && (forall m :: m in w.mutexes && w.mutexes[m].holder.Some? ==> !w.k.Is(w.mutexes[m].holder.value, Termination))
    && (forall t :: t in w.k.tcb ==> w.k.tcb[t].mutexesHeld == |w.Held(t)|)
    && (forall m :: m in w.mutexes && w.mutexes[m].recursive ==>
        (0 < w.mutexes[m].calls <==> w.mutexes[m].holder.Some?))
  }

  /** A task runs at its base priority unless it holds a mutex, and never below it. */
  ghost predicate Priorities(w: World) {
    && (forall t :: t in w.k.tcb ==> w.k.tcb[t].basePriority <= w.k.tcb[t].priority)
    && (forall t :: t in w.k.tcb && w.k.tcb[t].mutexesHeld == 0 ==> w.k.tcb[t].basePriority == w.k.tcb[t].priority)
  }

  ghost predicate WorldInv(w: World) {
    Sound(w.k) && Accounts(w) && Priorities(w)
  }

  /** The guard under which a priority change keeps the order of the two priorities. */
  predicate OrderlyChange(k: Kernel, t: Task, priority: nat) {
    var p := Clipped(priority);
    t in k.tcb ==> k.tcb[t].basePriority == k.tcb[t].priority || p <= k.tcb[t].priority
  }

  lemma HeldOne(w: World, t: Task, m: nat)
    requires m in w.mutexes && w.mutexes[m].holder == Some(t)
    ensures 0 < |w.Held(t)| && w.Holds(t)
  {
    assert m in w.Held(t);
  }

  lemma HoldsNone(w: World, t: Task)
    ensures !w.Holds(t) <==> w.Held(t) == {}
    ensures !w.Holds(t) <==> |w.Held(t)| == 0
  {
    if w.Held(t) != {} {
      var m :| m in w.Held(t);
    }
    if w.Holds(t) {
      var m :| m in w.mutexes && w.mutexes[m].holder == Some(t);
      assert m in w.Held(t);
    }
  }

  // ----- The scheduler's part of a step ---------------------------------------------

  /** Taking keeps the scheduler's invariant, as do the other mutex calls. */
  lemma TakenKeepsSound(w: World, m: nat)
    requires Sound(w.k) && m in w.mutexes
    ensures Sound(Taken(w, m).k)
  {
    hide Sound, HoldMutex;
    assert Apply(w.k, HoldMutexOp) == HoldMutex(w.k) && Enabled(w.k, HoldMutexOp);
    StepKeepsInv(w.k, HoldMutexOp);
  }

  lemma GivenKeepsSound(w: World, m: nat)
    requires Sound(w.k) && m in w.mutexes && w.k.IsReady(w.k.current)
    requires w.k.current in w.k.tcb && 0 < w.k.tcb[w.k.current].mutexesHeld
    ensures Sound(Given(w, m).k)
  {
    hide Sound, Disinherit, RemoveFromEventList;
    assert Apply(w.k, DisinheritOp) == Disinherit(w.k) && Enabled(w.k, DisinheritOp);
    StepKeepsInv(w.k, DisinheritOp);
    var k := Disinherit(w.k);
    assert Apply(k, NotifyOp(m)) == RemoveFromEventList(k, m) && Enabled(k, NotifyOp(m));
    StepKeepsInv(k, NotifyOp(m));
  }

  lemma GiverHolds(w: World, m: nat)
    requires Accounts(w) && m in w.mutexes && w.mutexes[m].holder == Some(w.k.current)
    ensures w.k.current in w.k.tcb && 0 < w.k.tcb[w.k.current].mutexesHeld
    ensures w.mutexes[m].recursive ==> 0 < w.mutexes[m].calls
  {
    HeldOne(w, w.k.current, m);
  }

  lemma StepKeepsSound(w: World, a: Action)
    requires Sound(w.k) && Accounts(w) && Possible(w, a)
    ensures Sound(Step(w, a).k)
  {
    hide Sound, Accounts, Apply, Inherit, Given, Taken;
    match a {
      case Take(m) => TakenKeepsSound(w, m);
      case Give(m) =>
        GiverHolds(w, m);
        GivenKeepsSound(w, m);
      case TakeRecursive(m) => TakenKeepsSound(w, m);
      case GiveRecursive(m) =>
        if w.HolderOf(m) == Some(w.k.current) {
          GiverHolds(w, m);
          GivenKeepsSound(Counted(w, m, w.mutexes[m].calls - 1), m);
        }
      case InheritFor(m) =>
        if w.HolderOf(m).Some? {
          InheritIsOp(w.k, w.HolderOf(m).value);
          StepKeepsInv(w.k, InheritOp(w.HolderOf(m).value));
        }
      case Other(op) => StepKeepsInv(w.k, op);
      case _ => {}
    }
  }

  lemma InheritIsOp(k: Kernel, t: Task)
    ensures Apply(k, InheritOp(t)) == Inherit(k, t) && Enabled(k, InheritOp(t))
  {}

  // ----- Accounting is kept ---------------------------------------------------------

  lemma HoldsAlive(w: World)
    requires Sound(w.k) && w.k.IsReady(w.k.current)
    ensures w.k.current in w.k.tcb && !w.k.Is(w.k.current, Termination)
  {}

  /** The holder of `m` changes to or from the running task, which counts it. */
  lemma HolderChanges(w: World, n: World, m: nat, t: Task, h: Option<Task>)
    requires m in w.mutexes && m in n.mutexes && n.mutexes == w.mutexes[m := n.mutexes[m]] && n.mutexes[m].holder == h
    requires (h == Some(t) && w.mutexes[m].holder.None?) || (h.None? && w.mutexes[m].holder == Some(t))
    ensures |n.Held(t)| == if h.Some? then |w.Held(t)| + 1 else |w.Held(t)| - 1
    ensures forall u :: u != t ==> n.Held(u) == w.Held(u)
  {
    if h.Some? {
      assert n.Held(t) == w.Held(t) + {m};
    } else {
      assert w.Held(t) == n.Held(t) + {m};
    }
    forall u | u != t ensures n.Held(u) == w.Held(u) {}
  }

  lemma HolderChangeKeepsAccounts(w: World, n: World, m: nat, t: Task)
    requires Accounts(w) && m in w.mutexes && m in n.mutexes && n.mutexes == w.mutexes[m := n.mutexes[m]]
    requires var x := n.mutexes[m];
             && (x.messages == if x.holder.None? then 1 else 0)
             && (x.recursive ==> (0 < x.calls <==> x.holder.Some?))
             && ((x.holder == Some(t) && w.mutexes[m].holder.None? && !n.k.Is(t, Termination))
               || (x.holder.None? && w.mutexes[m].holder == Some(t)))
    requires t in w.k.tcb && t in n.k.tcb && n.k.tcb == w.k.tcb[t := n.k.tcb[t]] && NoNewDead(w.k, n.k)
    requires n.k.tcb[t].mutexesHeld == w.k.tcb[t].mutexesHeld + if n.mutexes[m].holder.Some? then 1 else -1
    ensures Accounts(n)
  {
    HolderChanges(w, n, m, t, n.mutexes[m].holder);
    forall u | u in n.k.tcb ensures n.k.tcb[u].mutexesHeld == |n.Held(u)| {
      assert u in w.k.tcb;
    }
  }

  lemma TakenKeepsAccounts(w: World, m: nat)
    requires Sound(w.k) && Accounts(w) && m in w.mutexes && w.k.IsReady(w.k.current) && w.mutexes[m].messages != 0
    ensures !w.mutexes[m].recursive ==> Accounts(Taken(w, m))
    ensures w.mutexes[m].recursive ==> Accounts(Counted(Taken(w, m), m, w.mutexes[m].calls + 1))
  {
    var t, n := w.k.current, Taken(w, m);
    var x := if w.mutexes[m].recursive then Counted(n, m, w.mutexes[m].calls + 1) else n;
    HoldsAlive(w);
    assert w.mutexes[m].holder.None? && n.k.h == w.k.h;
    hide Sound, Accounts, Taken;
    HolderChangeKeepsAccounts(w, x, m, t);
  }

  lemma GivenKeepsAccounts(w: World, v: World, m: nat)
    requires Accounts(w) && m in w.mutexes && w.mutexes[m].holder == Some(w.k.current)
    requires v == w || (w.mutexes[m].recursive && v == Counted(w, m, 0))
    requires w.mutexes[m].recursive ==> v.mutexes[m].calls == 0
    ensures Accounts(Given(v, m))
  {
    hide Disinherit, RemoveFromEventList, NoNewDead, Accounts;
    var t, n := w.k.current, Given(v, m);
    GiverHolds(w, m);
    DisinheritEffect(w.k);
    var d := Disinherit(w.k);
    RemoveLeavesAlive(d, m);
    AliveThroughout(w.k, d, n.k);
    HolderChangeKeepsAccounts(w, n, m, t);
  }

  lemma SameAccounts(w: World, n: World)
    requires Accounts(w) && n.mutexes == w.mutexes && NoNewDead(w.k, n.k)
    requires n.k.tcb.Keys == w.k.tcb.Keys
    requires forall t :: t in n.k.tcb ==> n.k.tcb[t].mutexesHeld == w.k.tcb[t].mutexesHeld
    ensures Accounts(n)
  {
    assert forall t :: n.Held(t) == w.Held(t);
  }

  lemma OtherKeepsAccounts(w: World, op: Op)
    requires Sound(w.k) && Accounts(w) && Possible(w, Other(op))
    ensures Accounts(Step(w, Other(op)))
  {
    hide Apply, Inv, NoNewDead, Enabled;
    var n := Step(w, Other(op));
    OnlyTheDeletedDie(w.k, op);
    InvBounds(w.k);
    if op.CreateOp? || op.DeleteOp? || op.CleanUpOp? {
      assert CreatesOrEnds(w.k, n.k, op) by { CreateOrEndEffect(w.k, op); }
      CreateOrEndKeepsAccounts(w, n, op);
    } else {
      assert NoNewDead(w.k, n.k) by { DiedBefore(w.k, n.k, op); }
      if op.PrioritySetOp? {
        PrioritySetEffect(w.k, op.task, op.priority);
        assert n.k == PrioritySet(w.k, op.task, op.priority) by { PrioritySetIsOp(w.k, op); }
      } else {
        TcbFrame(w.k, op);
      }
      SameAccounts(w, n);
    }
  }

  lemma PrioritySetIsOp(k: Kernel, op: Op)
    requires op.PrioritySetOp?
    ensures Apply(k, op) == PrioritySet(k, op.task, op.priority)
  {}

  lemma DiedBefore(k: Kernel, n: Kernel, op: Op)
    requires !op.DeleteOp? && forall u :: n.Is(u, Termination) ==> k.Is(u, Termination) || op == DeleteOp(u)
    ensures NoNewDead(k, n)
  {}

  /** One new control block, or one less, or none. */
  ghost predicate CreatesOrEnds(k: Kernel, n: Kernel, op: Op) {
    || n.tcb == k.tcb
    || (op.CreateOp? && op.task !in k.tcb && op.task in n.tcb && n.tcb == k.tcb[op.task := n.tcb[op.task]]
        && n.tcb[op.task].mutexesHeld == 0 && n.tcb[op.task].priority == n.tcb[op.task].basePriority)
    || (op.DeleteOp? && n.tcb == k.tcb - {op.task})
    || (op.CleanUpOp? && exists t :: k.Is(t, Termination) && n.tcb == k.tcb - {t})
  }

  lemma CreateOrEndEffect(k: Kernel, op: Op)
    requires Sound(k) && Enabled(k, op) && (op.CreateOp? || op.DeleteOp? || op.CleanUpOp?)
    ensures CreatesOrEnds(k, Apply(k, op), op)
  {
    hide Create, Delete, CleanUp, Inv;
    if op.CleanUpOp? { CleanUpEffect(k); } else { TaskOpsEffect(k, op); }
  }

  lemma CreateOrEndKeepsAccounts(w: World, n: World, op: Op)
    requires Accounts(w) && n.mutexes == w.mutexes && CreatesOrEnds(w.k, n.k, op)
    requires forall u :: n.k.Is(u, Termination) ==> w.k.Is(u, Termination) || op == DeleteOp(u)
    requires op.DeleteOp? ==> !w.Holds(op.task)
    ensures Accounts(n)
  {
    assert forall t :: n.Held(t) == w.Held(t);
    if op.CreateOp? { HoldsNone(w, op.task); }
    forall m | m in w.mutexes && w.mutexes[m].holder.Some?
      ensures w.mutexes[m].holder.value in n.k.tcb && !n.k.Is(w.mutexes[m].holder.value, Termination)
    {
      if op.DeleteOp? { assert w.mutexes[m].holder.value != op.task; }
    }
  }

  lemma StepKeepsAccounts(w: World, a: Action)
    requires Sound(w.k) && Accounts(w) && Possible(w, a)
    ensures Accounts(Step(w, a))
  {
    hide Sound, Accounts, Apply, Inherit, Given;
    match a {
      case NewMutex(m, _) => NewMutexKeepsAccounts(w, a);
      case Take(m) => if w.mutexes[m].messages != 0 { TakenKeepsAccounts(w, m); }
      case InheritFor(m) => if w.HolderOf(m).Some? { InheritKeepsAccounts(w, w.HolderOf(m).value); }
      case Give(m) => GivenKeepsAccounts(w, w, m);
      case TakeRecursive(m) =>
        if w.HolderOf(m) == Some(w.k.current) {
          RecountKeepsAccounts(w, m, w.mutexes[m].calls + 1);
        } else if w.mutexes[m].messages != 0 {
          TakenKeepsAccounts(w, m);
        }
      case GiveRecursive(m) =>
        if w.HolderOf(m) == Some(w.k.current) {
          GiverHolds(w, m);
          if w.mutexes[m].calls == 1 {
            GivenKeepsAccounts(w, Counted(w, m, 0), m);
          } else {
            RecountKeepsAccounts(w, m, w.mutexes[m].calls - 1);
          }
        }
      case Other(op) => OtherKeepsAccounts(w, op);
    }
  }

  lemma NewMutexKeepsAccounts(w: World, a: Action)
    requires Accounts(w) && a.NewMutex? && a.m !in w.mutexes
    ensures Accounts(Step(w, a))
  {
    var n := Step(w, a);
    assert forall t :: n.Held(t) == w.Held(t);
  }

  lemma RecountKeepsAccounts(w: World, m: nat, calls: nat)
    requires Accounts(w) && m in w.mutexes && w.mutexes[m].holder.Some? && 0 < calls
    ensures Accounts(Counted(w, m, calls))
  {
    var n := Counted(w, m, calls);
    assert forall t :: n.Held(t) == w.Held(t);
  }

  lemma InheritKeepsAccounts(w: World, t: Task)
    requires Accounts(w)
    ensures Accounts(w.(k := Inherit(w.k, t)))
  {
    InheritEffect(w.k, t);
    SameAccounts(w, w.(k := Inherit(w.k, t)));
  }

  // ----- Priorities -----------------------------------------------------------------

  /** The control block of `t` after a step, when it has one before and after. */
  ghost predicate StepOnTcb(w: World, n: World, a: Action, t: Task)
    requires t in w.k.tcb && t in n.k.tcb
  {
    var b, c := w.k.tcb[t], n.k.tcb[t];
    || c == b
    || (b.basePriority == c.basePriority && b.priority <= c.priority
        && (b.priority == c.priority || (b.mutexesHeld == c.mutexesHeld && 0 < b.mutexesHeld))
        && (c.mutexesHeld == b.mutexesHeld || c.mutexesHeld == b.mutexesHeld + 1))
    || (b.basePriority == c.basePriority && c.mutexesHeld + 1 == b.mutexesHeld && t == w.k.current
        && c.priority == if c.mutexesHeld == 0 then b.basePriority else b.priority)
    || (a.Other? && a.op.PrioritySetOp? && a.op.task == t && c.mutexesHeld == b.mutexesHeld
        && (b.priority == b.basePriority ==> c.priority == c.basePriority)
        && (b.priority != b.basePriority ==> c.priority == b.priority && c.basePriority == Clipped(a.op.priority)))
  }

  lemma OtherOnTcb(w: World, op: Op, t: Task)
    requires Sound(w.k) && Accounts(w) && Possible(w, Other(op))
    requires t in w.k.tcb && t in Step(w, Other(op)).k.tcb
    ensures StepOnTcb(w, Step(w, Other(op)), Other(op), t)
  {
    hide Apply, Inv, Enabled, Accounts;
    InvBounds(w.k);
    if op.CreateOp? || op.DeleteOp? || op.CleanUpOp? {
      CreateOrEndEffect(w.k, op);
    } else if op.PrioritySetOp? {
      PrioritySetEffect(w.k, op.task, op.priority);
      PrioritySetIsOp(w.k, op);
    } else {
      TcbFrame(w.k, op);
    }
  }

  lemma MutexCallOnTcb(w: World, a: Action, t: Task)
    requires Sound(w.k) && Accounts(w) && Possible(w, a) && !a.Other?
    requires t in w.k.tcb && t in Step(w, a).k.tcb
    ensures StepOnTcb(w, Step(w, a), a, t)
  {
    hide Sound, Accounts, Inherit, Disinherit, RemoveFromEventList;
    match a {
      case InheritFor(m) =>
        if w.HolderOf(m).Some? {
          InheritEffect(w.k, w.HolderOf(m).value);
          HolderCounts(w, m);
        }
      case Give(m) =>
        GiverHolds(w, m);
        DisinheritEffect(w.k);
        RemoveLeavesAlive(Disinherit(w.k), m);
      case GiveRecursive(m) =>
        if w.HolderOf(m) == Some(w.k.current) {
          GiverHolds(w, m);
          DisinheritEffect(w.k);
          RemoveLeavesAlive(Disinherit(w.k), m);
        }
      case _ => {}
    }
  }

  lemma HolderCounts(w: World, m: nat)
    requires Accounts(w) && m in w.mutexes && w.mutexes[m].holder.Some?
    ensures w.mutexes[m].holder.value in w.k.tcb && 0 < w.k.tcb[w.mutexes[m].holder.value].mutexesHeld
  {
    HeldOne(w, w.mutexes[m].holder.value, m);
  }

  /** No task falls below its base priority, and one that holds no mutex runs at it, as long
      as nobody lifts the base priority of a task above the priority it has inherited. */
  lemma StepKeepsPriorities(w: World, a: Action)
    requires WorldInv(w) && Possible(w, a)
    requires a.Other? && a.op.PrioritySetOp? ==> OrderlyChange(w.k, a.op.task, a.op.priority)
    ensures WorldInv(Step(w, a))
  {
    hide Sound, Accounts, Step, Possible;
    var n := Step(w, a);
    StepKeepsSound(w, a);
    StepKeepsAccounts(w, a);
    forall t | t in n.k.tcb
      ensures n.k.tcb[t].basePriority <= n.k.tcb[t].priority
      ensures n.k.tcb[t].mutexesHeld == 0 ==> n.k.tcb[t].basePriority == n.k.tcb[t].priority
    {
      if t in w.k.tcb {
        AnyOnTcb(w, a, t);
      } else {
        NewcomerAtBase(w, a, t);
      }
    }
  }

  lemma AnyOnTcb(w: World, a: Action, t: Task)
    requires Sound(w.k) && Accounts(w) && Possible(w, a)
    requires t in w.k.tcb && t in Step(w, a).k.tcb
    ensures StepOnTcb(w, Step(w, a), a, t)
  {
    hide Sound, Accounts, Step, Possible, StepOnTcb;
    if a.Other? { OtherOnTcb(w, a.op, t); } else { MutexCallOnTcb(w, a, t); }
  }

  lemma NewcomerAtBase(w: World, a: Action, t: Task)
    requires Sound(w.k) && Accounts(w) && Possible(w, a) && t !in w.k.tcb && t in Step(w, a).k.tcb
    ensures Step(w, a).k.tcb[t].basePriority == Step(w, a).k.tcb[t].priority
  {
    if a.Other? {
      NewcomerIsCreated(w, a.op, t);
    } else {
      hide Sound, Accounts, Inherit, Disinherit, RemoveFromEventList;
      match a {
        case InheritFor(m) => if w.HolderOf(m).Some? { InheritEffect(w.k, w.HolderOf(m).value); }
        case Give(m) =>
          GiverHolds(w, m);
          DisinheritEffect(w.k);
          RemoveLeavesAlive(Disinherit(w.k), m);
        case GiveRecursive(m) =>
          if w.HolderOf(m) == Some(w.k.current) {
            GiverHolds(w, m);
            DisinheritEffect(w.k);
            RemoveLeavesAlive(Disinherit(w.k), m);
          }
        case _ => {}
      }
    }
  }

  lemma NewcomerIsCreated(w: World, op: Op, t: Task)
    requires Sound(w.k) && Possible(w, Other(op)) && t !in w.k.tcb && t in Apply(w.k, op).tcb
    ensures Apply(w.k, op).tcb[t].basePriority == Apply(w.k, op).tcb[t].priority
  {
    hide Apply, Inv, Enabled;
    InvBounds(w.k);
    if op.CreateOp? || op.DeleteOp? || op.CleanUpOp? {
      CreateOrEndEffect(w.k, op);
    } else if op.PrioritySetOp? {
      PrioritySetEffect(w.k, op.task, op.priority);
      PrioritySetIsOp(w.k, op);
    } else {
      TcbFrame(w.k, op);
    }
  }

  /** vTaskPrioritySet keeps the running priority of a task at or above its base priority
      exactly when the task runs at its base priority or the new one is not above the
      priority it runs at. */
  lemma PrioritySetKeepsOrderExactly(w: World, t: Task, priority: nat)
    requires WorldInv(w) && t in w.k.tcb && t in PrioritySet(w.k, t, priority).tcb
    ensures PrioritySet(w.k, t, priority).tcb[t].basePriority <= PrioritySet(w.k, t, priority).tcb[t].priority
      <==> OrderlyChange(w.k, t, priority)
  {
    hide PrioritySet;
    PrioritySetEffect(w.k, t, priority);
  }

  // ----- The holder of a mutex ------------------------------------------------------

  /** The task is there and holds at least one mutex. */
  predicate HoldsSome(w: World, t: Task) {
    t in w.k.tcb && 0 < w.k.tcb[t].mutexesHeld
  }

  lemma HoldsSomeExactly(w: World, t: Task)
    requires Accounts(w)
    ensures HoldsSome(w, t) <==> w.Holds(t)
  {
    HoldsNone(w, t);
    if w.Holds(t) {
      var m :| m in w.mutexes && w.mutexes[m].holder == Some(t);
      HolderCounts(w, m);
    }
  }

  /** In a step after which a task still holds some mutex, and in which nobody sets its
      priority, its priority does not fall. */
  lemma HolderDoesNotFall(w: World, a: Action, t: Task)
    requires Sound(w.k) && Accounts(w) && Possible(w, a)
    requires HoldsSome(w, t) && HoldsSome(Step(w, a), t)
    requires a.Other? && a.op.PrioritySetOp? ==> a.op.task != t
    ensures w.k.tcb[t].priority <= Step(w, a).k.tcb[t].priority
  {
    hide Sound, Accounts, Step, Possible;
    AnyOnTcb(w, a, t);
  }

  /** All along the actions `t` holds some mutex, not always the same, and nobody sets its
      priority. */
  predicate HoldsThroughout(w: World, actions: seq<Action>, t: Task)
    decreases |actions|
  {
    && HoldsSome(w, t)
    && (actions != [] ==>
         && Possible(w, actions[0])
         && (actions[0].Other? && actions[0].op.PrioritySetOp? ==> actions[0].op.task != t)
         && HoldsThroughout(Step(w, actions[0]), actions[1..], t))
  }

  function Steps(w: World, actions: seq<Action>, t: Task): World
    requires HoldsThroughout(w, actions, t)
    decreases |actions|
  {
    if actions == [] then w else Steps(Step(w, actions[0]), actions[1..], t)
  }

  /** Over any run in which a task holds some mutex in every state. */
  lemma {:induction false} HolderNeverFalls(w: World, actions: seq<Action>, t: Task)
    requires Sound(w.k) && Accounts(w) && HoldsThroughout(w, actions, t)
    ensures var e := Steps(w, actions, t);
            t in w.k.tcb && t in e.k.tcb && w.k.tcb[t].priority <= e.k.tcb[t].priority
    decreases |actions|
  {
    hide Sound, Accounts, Step, Possible;
    if actions != [] {
      StepKeepsSound(w, actions[0]);
      StepKeepsAccounts(w, actions[0]);
      HolderDoesNotFall(w, actions[0], t);
      HolderNeverFalls(Step(w, actions[0]), actions[1..], t);
    }
  }

  /** From the moment a task finds the mutex taken and lends its priority, the holder runs
      at that priority or above as long as it holds any mutex, and so until it gives that one
      back, whatever else happens. */
  lemma HolderStaysAboveWaiter(w: World, m: nat, actions: seq<Action>, t: Task)
    requires Sound(w.k) && Accounts(w) && m in w.mutexes && w.HolderOf(m) == Some(t)
    requires HoldsThroughout(Step(w, InheritFor(m)), actions, t)
    ensures var e := Steps(Step(w, InheritFor(m)), actions, t);
            t in e.k.tcb && w.k.Prio(w.k.current) <= e.k.tcb[t].priority
  {
    hide Sound, Accounts, Inherit, HoldsThroughout, Steps;
    InheritEffect(w.k, t);
    HolderCounts(w, m);
    StepKeepsSound(w, InheritFor(m));
    StepKeepsAccounts(w, InheritFor(m));
    HolderNeverFalls(Step(w, InheritFor(m)), actions, t);
  }

  // ----- Every run ------------------------------------------------------------------

  predicate Feasible(w: World, actions: seq<Action>)
    decreases |actions|
  {
    actions == [] ||
    (&& Possible(w, actions[0])
     && (actions[0].Other? && actions[0].op.PrioritySetOp? ==>
           OrderlyChange(w.k, actions[0].op.task, actions[0].op.priority))
     && Feasible(Step(w, actions[0]), actions[1..]))
  }

  function Result(w: World, actions: seq<Action>): World
    requires Feasible(w, actions)
    decreases |actions|
  {
    if actions == [] then w else Result(Step(w, actions[0]), actions[1..])
  }

  lemma {:induction false} RunKeepsWorldInv(w: World, actions: seq<Action>)
    requires WorldInv(w) && Feasible(w, actions)
    ensures WorldInv(Result(w, actions))
    decreases |actions|
  {
    hide WorldInv, Step, Possible, OrderlyChange;
    if actions != [] {
      StepKeepsPriorities(w, actions[0]);
      RunKeepsWorldInv(Step(w, actions[0]), actions[1..]);
    }
  }

  /** From the start of the scheduler, in every reachable state. */
  lemma ReachableWorld(actions: seq<Action>)
    requires Feasible(World(Boot(), map[]), actions)
    ensures WorldInv(Result(World(Boot(), map[]), actions))
  {
    hide Sound, Result, Feasible;
    BootIsSound();
    assert WorldInv(World(Boot(), map[]));
    RunKeepsWorldInv(World(Boot(), map[]), actions);
  }

  // ----- Where priority and base priority change places -----------------------------

  lemma FeasibleStep(w: World, a: Action, rest: seq<Action>)
    requires Possible(w, a) && Feasible(Step(w, a), rest)
    requires a.Other? ==> !a.op.PrioritySetOp?
    ensures Feasible(w, [a] + rest) && Result(w, [a] + rest) == Result(Step(w, a), rest)
  {
    hide Possible, Step;
    assert ([a] + rest)[1..] == rest;
  }

  /** A task of priority 1 takes a mutex, a task of priority 2 finds it taken and lends its
      priority. */
  function Lending(): seq<Action> {
    [NewMutex(0, false), Other(CreateOp(1, 1)), Other(SwitchOp), Take(0),
     Other(CreateOp(2, 2)), Other(SwitchOp), InheritFor(0)]
  }

  lemma LendingRuns()
    requires 2 < MAX_PRIORITIES
    ensures Feasible(World(Boot(), map[]), Lending())
    ensures OneRaised(Result(World(Boot(), map[]), Lending()).k, 1)
  {
    hide Boot, Apply, Enabled, Inherit, OneRaised, OneRuns, TwoRuns;
    var b, c := OneStarts();
    var d := OneHolds(c);
    var e, f := TwoStarts(d);
    var g := OneInherits(f);
    TakenInScene(c, d);
    var free, held := map[0 := Mutex(false, 1, None, 0)], map[0 := Mutex(false, 0, Some(1), 0)];
    var w := World(g, held);
    assert Apply(f, InheritOp(1)) == Inherit(f, 1) by { InheritIsOp(f, 1); }
    assert Feasible(w, []);
    FeasibleStep(World(f, held), InheritFor(0), []);
    FeasibleStep(World(e, held), Other(SwitchOp), [InheritFor(0)]);
    FeasibleStep(World(d, held), Other(CreateOp(2, 2)), [Other(SwitchOp), InheritFor(0)]);
    FeasibleStep(World(c, free), Take(0), [Other(CreateOp(2, 2)), Other(SwitchOp), InheritFor(0)]);
    FeasibleStep(World(b, free), Other(SwitchOp),
      [Take(0), Other(CreateOp(2, 2)), Other(SwitchOp), InheritFor(0)]);
    FeasibleStep(World(Boot(), free), Other(CreateOp(1, 1)),
      [Other(SwitchOp), Take(0), Other(CreateOp(2, 2)), Other(SwitchOp), InheritFor(0)]);
    FeasibleStep(World(Boot(), map[]), NewMutex(0, false),
      [Other(CreateOp(1, 1)), Other(SwitchOp), Take(0), Other(CreateOp(2, 2)), Other(SwitchOp), InheritFor(0)]);
  }

  lemma TakenInScene(c: Kernel, d: Kernel)
    requires OneRuns(c, 0) && d == Apply(c, HoldMutexOp)
    ensures c.IsReady(c.current) && c.current == 1
    ensures Taken(World(c, map[0 := Mutex(false, 1, None, 0)]), 0) == World(d, map[0 := Mutex(false, 0, Some(1), 0)])
  {}

  /** Then the first task's base priority is set to 3: it goes on at priority 2, below its
      base, in a state that every action before had kept in order. */
  lemma PriorityBelowBase() returns (w: World)
    requires 3 < MAX_PRIORITIES
    ensures Feasible(World(Boot(), map[]), Lending()) && w == Result(World(Boot(), map[]), Lending())
    ensures WorldInv(w) && Possible(w, Other(PrioritySetOp(1, 3)))
    ensures Step(w, Other(PrioritySetOp(1, 3))).k.tcb == w.k.tcb[1 := Tcb(2, 3, 1)]
  {
    hide Boot, Sound, Lending, Feasible, Result, PrioritySet;
    LendingRuns();
    ReachableWorld(Lending());
    w := Result(World(Boot(), map[]), Lending());
    PrioritySetEffect(w.k, 1, 3);
  }
}
