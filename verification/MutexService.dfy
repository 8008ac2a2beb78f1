/** What giving a mutex does for those who wait for it: the first of them is woken, and nobody
    sleeps on a free mutex unless a woken task has not tried again yet. */
module MutexService {
  import opened ListHeap
  import opened Scheduler
  import opened SchedulerInvariant
  import opened SchedulerOperations
  import opened SchedulerTasks
  import opened SchedulerRuns
  import opened SchedulerFrames
  import opened SchedulerEffects
  import opened SchedulerWaiters
  import opened EventOrder
  import opened Mutexes

  // ----- Taking and giving ----------------------------------------------------------

  /** The call is by the holder, and gives the mutex back. */
  predicate Gives(w: World, a: Action, m: nat) {
    && m in w.mutexes && w.HolderOf(m) == Some(w.k.current)
    && (a == Give(m) || (a == GiveRecursive(m) && w.mutexes[m].calls == 1))
  }

  predicate Tries(a: Action, m: nat) {
    a == Take(m) || a == TakeRecursive(m)
  }

  /** A free mutex goes to the task that tries, and a taken one stays with its holder, who
      may only count another call. */
  lemma TryingTakesTheFree(w: World, a: Action, m: nat)
    requires Accounts(w) && Possible(w, a) && Tries(a, m)
    ensures var n, x := Step(w, a), w.mutexes[m];
            && m in n.mutexes && n.mutexes == w.mutexes[m := n.mutexes[m]]
            && (if x.holder.None? then
                  && n.mutexes[m] == x.(messages := 0, holder := Some(w.k.current),
                                        calls := if x.recursive then x.calls + 1 else x.calls)
                  && n.k == w.k.(tcb := n.k.tcb)
                else
                  && n.k == w.k
                  && n.mutexes[m] == x.(calls := if a.TakeRecursive? && x.holder == Some(w.k.current) then x.calls + 1
                                                 else x.calls))
  {}

  /** Giving a recursive mutex once less often than it was taken keeps it. */
  lemma GivingOnceCountsDown(w: World, m: nat)
    requires Accounts(w) && Possible(w, GiveRecursive(m))
    ensures var n, x := Step(w, GiveRecursive(m)), w.mutexes[m];
            if x.holder != Some(w.k.current) then n == w
            else if x.calls == 1 then
              m in n.mutexes && n.mutexes[m].calls == 0 && n.mutexes == w.mutexes[m := n.mutexes[m]]
            else n.k == w.k && n.mutexes == w.mutexes[m := x.(calls := x.calls - 1)]
  {
    hide Disinherit, RemoveFromEventList;
    if w.HolderOf(m) == Some(w.k.current) { GiverHolds(w, m); }
  }

  lemma GivingIsGiven(w: World, a: Action, m: nat)
    requires Accounts(w) && Possible(w, a) && Gives(w, a, m)
    ensures var n := Step(w, a);
            && n.k == RemoveFromEventList(Disinherit(w.k), m)
            && m in n.mutexes && n.mutexes[m].messages == 1 && n.mutexes[m].holder == None
            && n.mutexes == w.mutexes[m := n.mutexes[m]]
  {
    hide Disinherit, RemoveFromEventList;
  }

  /** Falling back to the base priority does not touch a waiting list. */
  lemma WaitersUntouched(k: Kernel, m: nat)
    requires Inv(k) && k.IsReady(k.current) && 0 < k.tcb[k.current].mutexesHeld
    ensures Inv(Disinherit(k)) && Disinherit(k).h.Items(EventList(m)) == k.h.Items(EventList(m))
    ensures Disinherit(k).suspended == k.suspended && Disinherit(k).current == k.current
  {
    hide Inv, Disinherit;
    DisinheritKeeps(k);
    InvBounds(k);
    var t := k.current;
    var h := k.h.SetValue(EventItem(t), EventValue(k.tcb[t].basePriority));
    SetValueFacts(k.h, EventItem(t), EventValue(k.tcb[t].basePriority));
    DisinheritedHeap(k, h);
    hide MoveState, EventValue;
    MoveStateFacts(h, t, Ready(k.tcb[t].basePriority));
  }

  lemma DisinheritedHeap(k: Kernel, h: Heap)
    requires k.current in k.tcb && 0 < k.tcb[k.current].mutexesHeld
    requires h == k.h.SetValue(EventItem(k.current), EventValue(k.tcb[k.current].basePriority))
    ensures var w := Disinherit(k);
            && w == k.(h := w.h, tcb := w.tcb, top := w.top)
            && (w.h == k.h || w.h == MoveState(h, k.current, Ready(k.tcb[k.current].basePriority)))
  {
    hide EventValue, MoveState;
  }

  /** Giving a mutex back frees it, and when anybody waits, the first waiter is off the list,
      and is ready behind the others of its level, or put aside while the scheduler is
      suspended. */
  lemma GivingServesTheHead(w: World, a: Action, m: nat)
    requires Sound(w.k) && Accounts(w) && Possible(w, a) && Gives(w, a, m)
    ensures var n, s := Step(w, a), w.k.h.Items(EventList(m));
            && n.HolderOf(m) == None && m in n.mutexes && n.mutexes[m].messages == 1
            && (s != [] ==>
                 var t := s[0].task;
                 && s[0] == EventItem(t) && !n.k.h.In(EventItem(t), EventList(m))
                 && (if w.k.suspended == 0 then JoinsReady(n.k, t) && !n.k.OnEvent(t)
                     else n.k.h.In(EventItem(t), PendingReady)))
  {
    hide Inv, Accounts, Step, Disinherit, RemoveFromEventList, JoinsReady;
    GiverHolds(w, m);
    GivingIsGiven(w, a, m);
    assert w.k.IsReady(w.k.current);
    WaitersUntouched(w.k, m);
    if w.k.h.Items(EventList(m)) != [] { HeadIsServed(Disinherit(w.k), m); }
  }

  /** And that waiter has the greatest priority of all who wait for the mutex, and of those
      with the same priority it has waited longest. */
  lemma GivingServesTheBest(w: World, a: Action, m: nat, arr: Arrivals)
    requires Sound(w.k) && InRange(w.k) && Accounts(w) && Possible(w, a) && Gives(w, a, m)
    requires Fair(w.k.h, arr, EventList(m)) && WaitersFaithful(w.k, m) && w.k.h.Items(EventList(m)) != []
    ensures var t := w.k.h.Items(EventList(m))[0].task;
            && !Step(w, a).k.h.In(EventItem(t), EventList(m))
            && forall u :: u != t && w.k.h.In(EventItem(u), EventList(m)) ==>
                 w.k.Prio(u) < w.k.Prio(t) || (w.k.Prio(u) == w.k.Prio(t) && arr.Of(t) < arr.Of(u))
  {
    hide Inv, Accounts, Step, Fair, WaitersFaithful, Gives, Possible;
    InvBounds(w.k);
    GivingServesTheHead(w, a, m);
    BestWaiterIsServed(w.k, arr, m);
  }

  // ----- Nobody sleeps on a free mutex ----------------------------------------------

  /** For each mutex, the tasks that a give has woken and that have not tried it since, nor
      gone to sleep on it again. */
  type Wakings = map<nat, set<Task>>

  function Of(z: Wakings, m: nat): set<Task> {
    if m in z then z[m] else {}
  }

  /** The record after an action. */
  function Recorded(w: World, z: Wakings, a: Action): Wakings {
    match a
    case Take(m) => z[m := Of(z, m) - {w.k.current}]
    case TakeRecursive(m) => z[m := Of(z, m) - {w.k.current}]
    case Give(m) => AfterGive(w, z, a, m)
    case GiveRecursive(m) => AfterGive(w, z, a, m)
    case Other(op) => if op.WaitOp? || op.WaitUnorderedOp? then z[op.id := Of(z, op.id) - {w.k.current}] else z
    case _ => z
  }

  function AfterGive(w: World, z: Wakings, a: Action, m: nat): Wakings {
    var s := w.k.h.Items(EventList(m));
    if Gives(w, a, m) && s != [] then z[m := Of(z, m) + {s[0].task}] else z
  }

  /** A task waits for a mutex only when it has found it taken, and the waiting list of a new
      mutex is empty. */
  predicate Careful(w: World, a: Action) {
    match a
    case NewMutex(m, _) => w.k.h.Items(EventList(m)) == []
    case Other(op) => (op.WaitOp? || op.WaitUnorderedOp?) && op.id in w.mutexes ==> w.mutexes[op.id].messages == 0
    case _ => true
  }

  /** Whoever sleeps on a free mutex has a woken task before him that has still to try, and
      that does not sleep there itself. */
  ghost predicate Attended(w: World, z: Wakings) {
    && (forall m :: m in w.mutexes && w.mutexes[m].messages != 0 && w.k.h.Items(EventList(m)) != [] ==> Of(z, m) != {})
    && (forall m, t :: t in Of(z, m) ==> !w.k.h.In(EventItem(t), EventList(m)))
  }

  lemma SomebodyWaits(k: Kernel, m: nat)
    requires Inv(k) && k.h.Items(EventList(m)) != []
    ensures exists i :: k.h.In(i, EventList(m))
  {
    assert k.h.Items(EventList(m))[0] in k.h.Items(EventList(m));
  }

  lemma SomebodyListed(k: Kernel, m: nat, i: Item)
    requires Inv(k) && k.h.In(i, EventList(m))
    ensures k.h.Items(EventList(m)) != []
  {
    assert i in k.h.Items(EventList(m));
  }

  /** An operation of the scheduler brings nobody onto the list of a free mutex. */
  lemma OtherKeepsAttended(w: World, z: Wakings, op: Op)
    requires Sound(w.k) && Enabled(w.k, op) && Careful(w, Other(op)) && Attended(w, z)
    ensures Attended(w.(k := Apply(w.k, op)), Recorded(w, z, Other(op)))
  {
    hide Inv, Apply, Enabled;
    var k, n, y := w.k, Apply(w.k, op), Recorded(w, z, Other(op));
    StepKeepsInv(k, op);
    forall m | m in w.mutexes && w.mutexes[m].messages != 0 && n.h.Items(EventList(m)) != [] ensures Of(y, m) != {} {
      SomebodyWaits(n, m);
      var i :| n.h.In(i, EventList(m));
      NobodyComesUnasked(k, op, m, i);
      SomebodyListed(k, m, i);
    }
    forall m, t | t in Of(y, m) && n.h.In(EventItem(t), EventList(m)) ensures false {
      NobodyComesUnasked(k, op, m, EventItem(t));
    }
  }

  lemma LendingKeepsAttended(w: World, z: Wakings, m: nat)
    requires Sound(w.k) && m in w.mutexes && Attended(w, z)
    ensures Attended(Step(w, InheritFor(m)), z)
  {
    hide Inv, Apply, Enabled, Inherit, Attended;
    if w.HolderOf(m).Some? {
      var t := w.HolderOf(m).value;
      InheritIsOp(w.k, t);
      OtherKeepsAttended(w, z, InheritOp(t));
    }
  }

  lemma TryingKeepsAttended(w: World, z: Wakings, a: Action, m: nat)
    requires Accounts(w) && Possible(w, a) && Tries(a, m) && Attended(w, z)
    ensures Attended(Step(w, a), Recorded(w, z, a))
  {
    hide Step;
    TryingTakesTheFree(w, a, m);
    var n, y := Step(w, a), Recorded(w, z, a);
    assert n.mutexes[m].messages == 0 && n.k.h == w.k.h;
    forall x | x in n.mutexes && n.mutexes[x].messages != 0 && n.k.h.Items(EventList(x)) != [] ensures Of(y, x) != {} {
      assert x != m && n.mutexes[x] == w.mutexes[x] && Of(y, x) == Of(z, x);
    }
    assert forall x, t :: t in Of(y, x) ==> t in Of(z, x);
  }

  lemma GivingKeepsAttended(w: World, z: Wakings, a: Action, m: nat)
    requires Sound(w.k) && Accounts(w) && Possible(w, a) && (a == Give(m) || a == GiveRecursive(m)) && Attended(w, z)
    ensures Attended(Step(w, a), Recorded(w, z, a))
  {
    hide Inv, Disinherit, RemoveFromEventList, Apply;
    if Gives(w, a, m) {
      GivenAttended(w, z, a, m);
    } else {
      GivingOnceCountsDown(w, m);
    }
  }

  lemma GivenAttended(w: World, z: Wakings, a: Action, m: nat)
    requires Sound(w.k) && Accounts(w) && Possible(w, a) && Gives(w, a, m) && Attended(w, z)
    ensures Attended(Step(w, a), Recorded(w, z, a))
  {
    hide Inv, Disinherit, RemoveFromEventList, Apply, Step, Accounts;
    var n, y := Step(w, a), Recorded(w, z, a);
    GiverHolds(w, m);
    GivingIsGiven(w, a, m);
    assert w.k.IsReady(w.k.current);
    var d := Disinherit(w.k);
    assert Apply(w.k, DisinheritOp) == d && Apply(d, NotifyOp(m)) == RemoveFromEventList(d, m)
      by { GivingOps(w.k, d, m); }
    StepKeepsInv(w.k, DisinheritOp);
    StepKeepsInv(d, NotifyOp(m));
    forall x | x in n.mutexes && n.mutexes[x].messages != 0 && n.k.h.Items(EventList(x)) != [] ensures Of(y, x) != {} {
      SomebodyWaits(n.k, x);
      var i :| n.k.h.In(i, EventList(x));
      NobodyComesUnasked(d, NotifyOp(m), x, i);
      NobodyComesUnasked(w.k, DisinheritOp, x, i);
      SomebodyListed(w.k, x, i);
      assert x != m ==> n.mutexes[x] == w.mutexes[x] && Of(y, x) == Of(z, x);
    }
    GivingServesTheHead(w, a, m);
    forall x, t | t in Of(y, x) && n.k.h.In(EventItem(t), EventList(x)) ensures false {
      NobodyComesUnasked(d, NotifyOp(m), x, EventItem(t));
      NobodyComesUnasked(w.k, DisinheritOp, x, EventItem(t));
    }
  }

  lemma GivingOps(k: Kernel, d: Kernel, m: nat)
    requires d == Disinherit(k)
    ensures Apply(k, DisinheritOp) == d && Apply(d, NotifyOp(m)) == RemoveFromEventList(d, m)
    ensures Enabled(d, NotifyOp(m))
  {
    hide Disinherit, RemoveFromEventList;
  }

  lemma StepKeepsAttended(w: World, z: Wakings, a: Action)
    requires Sound(w.k) && Accounts(w) && Possible(w, a) && Careful(w, a) && Attended(w, z)
    ensures Attended(Step(w, a), Recorded(w, z, a))
  {
    hide Inv, Accounts, Apply, Attended, Inherit;
    match a {
      case NewMutex(m, r) => NewKeepsAttended(w, z, a);
      case Take(m) => TryingKeepsAttended(w, z, a, m);
      case TakeRecursive(m) => TryingKeepsAttended(w, z, a, m);
      case InheritFor(m) => LendingKeepsAttended(w, z, m);
      case Give(m) => GivingKeepsAttended(w, z, a, m);
      case GiveRecursive(m) => GivingKeepsAttended(w, z, a, m);
      case Other(op) => OtherKeepsAttended(w, z, op);
    }
  }

  lemma NewKeepsAttended(w: World, z: Wakings, a: Action)
    requires a.NewMutex? && Possible(w, a) && Careful(w, a) && Attended(w, z)
    ensures Attended(Step(w, a), z)
  {}

  predicate CarefulRun(w: World, actions: seq<Action>)
    decreases |actions|
  {
    actions == [] ||
    (Possible(w, actions[0]) && Careful(w, actions[0]) && CarefulRun(Step(w, actions[0]), actions[1..]))
  }

  /** The world and the record at the end of a run. */
  function Outcome(w: World, z: Wakings, actions: seq<Action>): (World, Wakings)
    requires CarefulRun(w, actions)
    decreases |actions|
  {
    if actions == [] then (w, z) else Outcome(Step(w, actions[0]), Recorded(w, z, actions[0]), actions[1..])
  }

  lemma {:induction false} RunKeepsAttended(w: World, z: Wakings, actions: seq<Action>)
    requires Sound(w.k) && Accounts(w) && CarefulRun(w, actions) && Attended(w, z)
    ensures Attended(Outcome(w, z, actions).0, Outcome(w, z, actions).1)
    decreases |actions|
  {
    hide Sound, Accounts, Step, Possible, Careful, Attended, Recorded;
    if actions != [] {
      StepKeepsSound(w, actions[0]);
      StepKeepsAccounts(w, actions[0]);
      StepKeepsAttended(w, z, actions[0]);
      RunKeepsAttended(Step(w, actions[0]), Recorded(w, z, actions[0]), actions[1..]);
    }
  }

  /** From the start, over every run of mutex calls and other operations, timeouts, deletions
      and suspensions of waiters among them: whoever sleeps on a free mutex has a woken task
      before him, that is off the list and has not tried again yet. */
  lemma NobodySleepsOnAFreeMutex(actions: seq<Action>, m: nat)
    requires CarefulRun(World(Boot(), map[]), actions)
    ensures var (e, z) := Outcome(World(Boot(), map[]), map[], actions);
            m in e.mutexes && e.mutexes[m].messages != 0 && e.k.h.Items(EventList(m)) != [] ==>
              exists t :: t in Of(z, m) && !e.k.h.In(EventItem(t), EventList(m))
  {
    hide Sound, Outcome, CarefulRun, Boot;
    BootIsSound();
    assert Accounts(World(Boot(), map[])) by { NothingHeld(); }
    RunKeepsAttended(World(Boot(), map[]), map[], actions);
  }

  lemma NothingHeld()
    ensures Accounts(World(Boot(), map[]))
  {}
}
