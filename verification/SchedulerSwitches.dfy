/** When the scheduler asks for a switch, and whom a switch makes run. */
module SchedulerSwitches {
  import opened KernelLists
  import opened ListHeap
  import WalkOrder
  import opened Scheduler
  import opened SchedulerInvariant
  import opened SchedulerSteps
  import opened SchedulerOperations
  import opened SchedulerTasks
  import opened SchedulerRuns
  import opened SchedulerTime

  // ----- What a tick asks for -------------------------------------------------------

  /** The wake time of `t` is the tick that is about to come. */
  predicate ComesNow(k: Kernel, t: Task) {
    t in View(k).wakes && View(k).wakes[t] == Now(k) + 1
  }

  /** Two tasks share a ready list of level `level`. */
  ghost predicate Shared(k: Kernel, level: nat) {
    exists t, u :: t != u && k.Is(t, Ready(level)) && k.Is(u, Ready(level))
  }

  /** A task at least as important as the running one wakes with the coming tick, or the
      level of the running task is shared afterwards, or a yield was pending. */
  ghost predicate SwitchIsDue(k: Kernel) {
    TickGivesReason(k) || k.yieldPending
  }

  ghost predicate TickGivesReason(k: Kernel) {
    || (exists t :: ComesNow(k, t) && k.Prio(k.current) <= k.Prio(t))
    || Shared(IncrementTick(k), k.Prio(k.current))
  }

  lemma SharedExactly(k: Kernel, level: nat)
    requires Partition(k)
    ensures 1 < |k.h.Items(Ready(level))| <==> Shared(k, level)
  {
    var s := k.h.Items(Ready(level));
    if 1 < |s| {
      assert s[0] in s && s[1] in s;
      assert k.h.In(s[0], Ready(level)) && k.h.In(s[1], Ready(level));
      SharedBy(k, level, s[0].task, s[1].task);
    }
    if Shared(k, level) {
      var t, u :| t != u && k.Is(t, Ready(level)) && k.Is(u, Ready(level));
      assert StateItem(t) in s && StateItem(u) in s;
      var p, q := Position(s, StateItem(t)), Position(s, StateItem(u));
      assert s[p] == StateItem(t) && s[q] == StateItem(u);
      assert p != q;
    }
  }

  lemma ComesNowIsDue(k: Kernel)
    requires Partition(k) && Wheel(k, k.tick + 1) && Counts(k)
    ensures forall t :: t in Due(Advance(k)) <==> ComesNow(k, t)
    ensures Advance(k).tick < Advance(k).nextUnblock ==> forall t :: !ComesNow(k, t)
  {
    hide Partition, Wheel, Counts, Due, View, Advance, Now;
    var a := Advance(k);
    AdvanceKeeps(k);
    AdvanceOnlyCounts(k);
    DueIsNow(a);
    ViewNow(a);
    ViewNow(k);
    if a.tick < a.nextUnblock { ShortcutIsSafe(a); }
  }

  lemma TickAsksExactly(k: Kernel)
    requires Partition(k) && Wheel(k, k.tick + 1) && Counts(k)
    ensures SwitchRequired(k) <==> SwitchIsDue(k)
  {
    hide Partition, Wheel, Counts, Due, View, Advance, Now, Shared, IncrementTick;
    ComesNowIsDue(k);
    TickKeeps(k);
    SharedExactly(IncrementTick(k), k.Prio(k.current));
  }

  /** If nobody was more important than the running task and a tick asks for no switch, no
      other task is as important afterwards. */
  lemma QuietTickNeedsNoSwitch(k: Kernel)
    requires Partition(k) && Wheel(k, k.tick + 1) && Counts(k) && !SwitchRequired(k)
    requires k.IsReady(k.current) && forall t :: k.IsReady(t) ==> k.Prio(t) <= k.Prio(k.current)
    ensures var r := IncrementTick(k);
            r.current == k.current
            && forall u :: u != r.current && r.IsReady(u) ==> r.Prio(u) < r.Prio(r.current)
  {
    hide Wheel, Counts, View, Now, IncrementTick, SwitchRequired, Shared;
    var r, c := IncrementTick(k), k.current;
    TickAsksExactly(k);
    TickKeeps(k);
    TickFrame(k);
    assert !ComesNow(k, c) by { ReadyDoesNotCome(k, c); }
    TickRefinesTimeline(k);
    assert SameStanding(k, r, c);
    forall u | u != c && r.IsReady(u) ensures r.Prio(u) < r.Prio(c) {
      if !ComesNow(k, u) {
        assert SameStanding(k, r, u);
        assert k.IsReady(u);
        if k.Prio(u) == k.Prio(c) { SharedBy(r, k.Prio(c), u, c); }
      }
    }
  }

  lemma SharedBy(k: Kernel, level: nat, t: Task, u: Task)
    requires t != u && k.Is(t, Ready(level)) && k.Is(u, Ready(level))
    ensures Shared(k, level)
  {}

  lemma ReadyDoesNotCome(k: Kernel, t: Task)
    requires Wheel(k, k.tick + 1) && k.IsReady(t)
    ensures !ComesNow(k, t)
  {}

  // ----- What a resume asks for -----------------------------------------------------

  /** The yield that replayed ticks leave pending is there before, or one of them gives a
      reason for it. */
  lemma {:induction false} ReplayAsksExactly(k: Kernel, n: nat)
    requires Partition(k) && Wheel(k, k.tick + 1) && Counts(k) && k.h.Items(PendingReady) == []
    ensures Replay(k, n).yieldPending <==> k.yieldPending || exists i :: 0 <= i < n && TickGivesReason(Replay(k, i))
    decreases n
  {
    hide IncrementTick, Partition, Wheel, Counts, SwitchRequired, TickGivesReason;
    if 0 < n {
      var r := IncrementTick(k).(yieldPending := SwitchRequired(k));
      TickAsksExactly(k);
      TickKeeps(k);
      TickKeepsEvents(k);
      StillNothingPending(k, IncrementTick(k));
      YieldIsAside(IncrementTick(k), SwitchRequired(k));
      ReplayAsksExactly(r, n - 1);
      ReasonsAhead(k, r, n);
    }
  }

  lemma ReasonsAhead(k: Kernel, r: Kernel, n: nat)
    requires 0 < n && r == IncrementTick(k).(yieldPending := SwitchRequired(k))
    ensures (exists i :: 0 <= i < n && TickGivesReason(Replay(k, i))) <==>
      TickGivesReason(k) || exists i :: 0 <= i < n - 1 && TickGivesReason(Replay(r, i))
  {
    hide IncrementTick, SwitchRequired, TickGivesReason, Replay;
    ReplayNothing(k);
    if i :| 0 <= i < n - 1 && TickGivesReason(Replay(r, i)) {
      ReplayAhead(k, r, i);
      assert TickGivesReason(Replay(k, i + 1));
    }
    if TickGivesReason(k) { assert TickGivesReason(Replay(k, 0)); }
    if i :| 0 <= i < n && TickGivesReason(Replay(k, i)) {
      if i != 0 {
        ReplayAhead(k, r, i - 1);
        assert TickGivesReason(Replay(r, i - 1));
      }
    }
  }

  lemma ReplayNothing(k: Kernel)
    ensures Replay(k, 0) == k
  {}

  lemma ReplayAhead(k: Kernel, r: Kernel, i: nat)
    requires r == IncrementTick(k).(yieldPending := SwitchRequired(k))
    ensures Replay(k, i + 1) == Replay(r, i)
  {}

  /** The yield that the outermost resume leaves pending was pending before, or a task that
      had been put aside is at least as important as the running one, or one of the pended
      ticks gives a reason. */
  lemma ResumeAsksExactly(k: Kernel)
    requires Inv(k) && k.suspended == 1
    ensures ResumeAll(k).yieldPending <==>
      || k.yieldPending
      || (exists t :: k.h.In(EventItem(t), PendingReady) && k.Prio(k.current) <= k.Prio(t))
      || (exists i :: 0 <= i < k.pendedTicks && TickGivesReason(Replay(Drain(k.(suspended := 0)), i)))
  {
    hide Inv, Drain, Replay, TickGivesReason, Partition, Wheel, Counts, ResumeAll;
    var r := k.(suspended := 0);
    ResumedFrame(k);
    DrainAsksExactly(r);
    ReplayAsksExactly(Drain(r), r.pendedTicks);
    PrioritiesAside(k, r);
  }

  lemma PrioritiesAside(k: Kernel, r: Kernel)
    requires r == k.(suspended := 0)
    ensures forall t :: r.Prio(t) == k.Prio(t)
  {}

  lemma DrainAsksExactly(k: Kernel)
    requires Partition(k)
    ensures Drain(k).yieldPending <==>
      k.yieldPending || exists t :: k.h.In(EventItem(t), PendingReady) && k.Prio(k.current) <= k.Prio(t)
  {
    hide Partition, WakeAll;
    PendingFacts(k);
    WakeAllFrame(k, Pending(k));
  }

  /** If a resume leaves no yield pending, everybody it has made ready is less important than
      the running task. */
  lemma QuietResumeNeedsNoSwitch(k: Kernel)
    requires Inv(k) && k.suspended == 1 && !ResumeAll(k).yieldPending
    ensures var e := ResumeAll(k);
            e.tcb == k.tcb && e.current == k.current
            && forall u :: e.IsReady(u) && !k.IsReady(u) ==> e.Prio(u) < e.Prio(e.current)
  {
    hide Inv, Drain, Replay, TickGivesReason;
    var r := k.(suspended := 0);
    ResumedFrame(k);
    assert !Drain(r).yieldPending && !Replay(Drain(r), r.pendedTicks).yieldPending by { ReplayKeepsYield(k); }
    QuietDrain(r);
    QuietReplay(Drain(r), r.pendedTicks);
  }

  lemma ResumedFrame(k: Kernel)
    requires Inv(k) && k.suspended == 1
    ensures var r := k.(suspended := 0);
            var d := Drain(r);
            && ResumeAll(k) == Replay(d, r.pendedTicks).(pendedTicks := 0)
            && d.tcb == k.tcb && d.current == k.current && d.h.Items(PendingReady) == []
            && Partition(r) && Wheel(r, r.tick + 1) && Counts(r)
            && Partition(d) && Wheel(d, d.tick + 1) && Counts(d)
            && Replay(d, r.pendedTicks).tcb == k.tcb && Replay(d, r.pendedTicks).current == k.current
  {
    hide *;
    var r := k.(suspended := 0);
    OutermostResume(k);
    DrainedFrame(k);
    ReplayFrame(Drain(r), r.pendedTicks);
    ReplayKeeps(Drain(r), r.pendedTicks);
  }

  lemma DrainedFrame(k: Kernel)
    requires Inv(k)
    ensures var r := k.(suspended := 0);
            var d := Drain(r);
            && d.tcb == k.tcb && d.current == k.current && d.h.Items(PendingReady) == []
            && Partition(r) && Wheel(r, r.tick + 1) && Counts(r)
            && Partition(d) && Wheel(d, d.tick + 1) && Counts(d)
  {
    hide *;
    var r := k.(suspended := 0);
    InvBounds(k);
    SuspensionIsAside(k, 0, k.pendedTicks);
    assert r == k.(suspended := 0, pendedTicks := k.pendedTicks);
    DrainKeeps(r);
    DrainFrame(r);
  }

  lemma OutermostResume(k: Kernel)
    requires Inv(k) && k.suspended == 1
    ensures var r := k.(suspended := 0);
            ResumeAll(k) == Replay(Drain(r), r.pendedTicks).(pendedTicks := 0)
  {
    hide Partition, Wheel, Drain, Replay;
    assert k.tasks != 0;
  }

  lemma ReplayKeepsYield(k: Kernel)
    requires Inv(k) && k.suspended == 1
    ensures var d := Drain(k.(suspended := 0));
            && ResumeAll(k).yieldPending == Replay(d, k.pendedTicks).yieldPending
            && (d.yieldPending ==> Replay(d, k.pendedTicks).yieldPending)
  {
    hide Inv, Partition, Wheel, Counts, Drain, Replay, TickGivesReason;
    ResumedFrame(k);
    ReplayAsksExactly(Drain(k.(suspended := 0)), k.pendedTicks);
  }

  lemma QuietDrain(k: Kernel)
    requires Partition(k) && !Drain(k).yieldPending
    ensures forall u :: Drain(k).IsReady(u) && !k.IsReady(u) ==> k.Prio(u) < k.Prio(k.current)
  {
    hide Partition, WakeAll;
    PendingFacts(k);
    DrainAsksExactly(k);
    WakeAllReadies(k, Pending(k));
  }

  lemma {:induction false} WakeAllReadies(k: Kernel, ts: seq<Task>)
    ensures forall u :: WakeAll(k, ts).IsReady(u) ==> k.IsReady(u) || u in ts
    decreases |ts|
  {
    hide Wake;
    if ts != [] {
      WakeReadies(k, ts[0]);
      WakeAllReadies(Wake(k, ts[0]), ts[1..]);
    }
  }

  lemma WakeReadies(k: Kernel, t: Task)
    ensures forall u :: Wake(k, t).IsReady(u) ==> k.IsReady(u) || u == t
  {}

  lemma {:induction false} QuietReplay(k: Kernel, n: nat)
    requires Partition(k) && Wheel(k, k.tick + 1) && Counts(k) && k.h.Items(PendingReady) == []
    requires !Replay(k, n).yieldPending
    ensures forall u :: Replay(k, n).IsReady(u) && !k.IsReady(u) ==> k.Prio(u) < k.Prio(k.current)
    decreases n
  {
    hide IncrementTick, Partition, Wheel, Counts, SwitchRequired, TickGivesReason;
    if 0 < n {
      var t := IncrementTick(k);
      var r := t.(yieldPending := SwitchRequired(k));
      TickKeeps(k);
      TickKeepsEvents(k);
      StillNothingPending(k, t);
      YieldIsAside(t, SwitchRequired(k));
      TickFrame(k);
      ReplayAsksExactly(r, n - 1);
      QuietReplay(r, n - 1);
      TickAsksExactly(k);
      TickReadies(k);
    }
  }

  lemma TickReadies(k: Kernel)
    requires Partition(k) && Wheel(k, k.tick + 1) && Counts(k)
    ensures forall u :: IncrementTick(k).IsReady(u) && !k.IsReady(u) ==> ComesNow(k, u)
    ensures (exists t :: ComesNow(k, t) && k.Prio(k.current) <= k.Prio(t)) ==> TickGivesReason(k)
  {
    hide Partition, Wheel, Counts, View, Now, IncrementTick;
    TickRefinesTimeline(k);
  }

  // ----- Whom a switch makes run ----------------------------------------------------

  /** No list above `level` holds anything, and that of `level` does. */
  ghost predicate Greatest(h: Heap, level: nat) {
    h.Items(Ready(level)) != [] && forall p: nat :: level < p ==> h.Items(Ready(p)) == []
  }

  /** An unsuspended switch makes current the task that the walk comes to on the greatest level
      that has any, and moves no other walk. */
  lemma SwitchFollowsWalk(k: Kernel, level: nat)
    requires Partition(k) && SomeoneReady(k) && k.suspended == 0 && Greatest(k.h, level)
    ensures var s, l := SwitchContext(k), k.h.At(Ready(level)).Next();
            && s.h.At(Ready(level)) == l && 0 < l.index <= |l.items|
            && StateItem(s.current) == l.Selected() && s.top == level
            && (forall m :: m != Ready(level) ==> s.h.At(m) == k.h.At(m))
  {
    ScanFinds(k, k.top);
    hide HighestLevel;
    var at := HighestLevel(k.h, k.top);
    assert at <= level;
    HeadIsReady(k, level);
    var l := k.h.At(Ready(level)).Next();
    assert k.h.At(Ready(level)).Valid();
    assert l.Selected() in k.h.Items(Ready(level));
    assert k.h.In(l.Selected(), Ready(level));
  }

  /** The walk over the greatest level has moved on by one, to the item of `t`. */
  ghost predicate WalksOn(h: Heap, g: Heap, t: Task) {
    forall level :: Greatest(h, level) ==>
      (g.At(Ready(level)) == h.At(Ready(level)).Next()
        && 0 < g.At(Ready(level)).index <= |g.Items(Ready(level))|
        && StateItem(t) == g.At(Ready(level)).Selected())
  }

  lemma SwitchWalksOn(k: Kernel)
    requires Partition(k) && SomeoneReady(k) && k.suspended == 0
    ensures WalksOn(k.h, SwitchContext(k).h, SwitchContext(k).current)
  {
    hide Partition, SomeoneReady, SwitchContext, Greatest;
    forall level | Greatest(k.h, level)
      ensures SwitchContext(k).h.At(Ready(level)) == k.h.At(Ready(level)).Next()
        && 0 < SwitchContext(k).h.At(Ready(level)).index <= |SwitchContext(k).h.Items(Ready(level))|
        && StateItem(SwitchContext(k).current) == SwitchContext(k).h.At(Ready(level)).Selected()
    {
      SwitchFollowsWalk(k, level);
    }
  }

  lemma HeadIsReady(k: Kernel, level: nat)
    requires Partition(k) && k.h.Items(Ready(level)) != []
    ensures var t := k.h.Items(Ready(level))[0].task;
            k.IsReady(t) && k.Prio(t) == level && level <= k.top
  {
    assert k.h.Items(Ready(level))[0] in k.h.Items(Ready(level));
  }

  /** Switches find the scheduler running and `level` the greatest one; other operations leave
      the list of that level alone. */
  ghost predicate LeavesRound(k: Kernel, op: Op, level: nat) {
    if op.SwitchOp? then k.suspended == 0 && Greatest(k.h, level)
    else Apply(k, op).h.At(Ready(level)) == k.h.At(Ready(level))
  }

  ghost predicate Undisturbed(k: Kernel, ops: seq<Op>, level: nat)
    decreases |ops|
  {
    ops == [] ||
    (Enabled(k, ops[0]) && LeavesRound(k, ops[0], level) && Undisturbed(Apply(k, ops[0]), ops[1..], level))
  }

  /** The tasks that run after the switches of a run, in order. */
  function Runners(k: Kernel, ops: seq<Op>): seq<Task>
    decreases |ops|
  {
    if ops == [] then []
    else (if ops[0].SwitchOp? then [Apply(k, ops[0]).current] else []) + Runners(Apply(k, ops[0]), ops[1..])
  }

  lemma ListIsValid(k: Kernel, l: ListId)
    requires Inv(k)
    ensures k.h.At(l).Valid()
  {}

  lemma IdleMakesSomeone(k: Kernel)
    requires Sound(k)
    ensures SomeoneReady(k) && Partition(k)
  {}

  lemma StepOfRound(k: Kernel, op: Op, level: nat)
    requires Sound(k) && LeavesRound(k, op, level)
    ensures var l, w := k.h.At(Ready(level)), Apply(k, op);
            if !op.SwitchOp? then w.h.At(Ready(level)) == l
            else w.h.At(Ready(level)) == l.Next() && 0 < l.Next().index <= |l.Next().items|
                 && l.Next().items == l.items && StateItem(w.current) == l.Next().Selected()
  {
    if op.SwitchOp? {
      IdleMakesSomeone(k);
      SwitchFollowsWalk(k, level);
    }
  }

  /** They are those that the walk over the list of the greatest level selects. */
  lemma {:induction false} RunnersFollowTheWalk(k: Kernel, ops: seq<Op>, level: nat)
    requires Sound(k) && Undisturbed(k, ops, level) && k.h.Items(Ready(level)) != [] && k.h.At(Ready(level)).Valid()
    ensures |Runners(k, ops)| == |WalkOrder.SelectMany(k.h.At(Ready(level)), |Runners(k, ops)|).0|
    ensures Runners(k, ops) == TasksOf(WalkOrder.SelectMany(k.h.At(Ready(level)), |Runners(k, ops)|).0)
    decreases |ops|
  {
    hide Inv, Apply, Enabled, Greatest;
    if ops != [] {
      var w, l := Apply(k, ops[0]), k.h.At(Ready(level));
      StepKeepsInv(k, ops[0]);
      ListIsValid(w, Ready(level));
      StepOfRound(k, ops[0], level);
      RunnersFollowTheWalk(w, ops[1..], level);
      RunnersOf(k, ops);
      if ops[0].SwitchOp? {
        OneMoreSelection(l, w.h.At(Ready(level)), w.current, Runners(w, ops[1..]));
      }
    }
  }

  lemma RunnersOf(k: Kernel, ops: seq<Op>)
    requires ops != []
    ensures var rest := Runners(Apply(k, ops[0]), ops[1..]);
            Runners(k, ops) == if ops[0].SwitchOp? then [Apply(k, ops[0]).current] + rest else rest
  {}

  lemma OneMoreSelection(l: KList<Item>, m: KList<Item>, t: Task, rest: seq<Task>)
    requires l.Valid() && l.items != [] && m == l.Next() && m.Valid() && 0 < m.index <= |m.items|
    requires m.Selected() == StateItem(t)
    requires |rest| == |WalkOrder.SelectMany(m, |rest|).0| && rest == TasksOf(WalkOrder.SelectMany(m, |rest|).0)
    ensures var all := [t] + rest;
            |all| == |WalkOrder.SelectMany(l, |all|).0| && all == TasksOf(WalkOrder.SelectMany(l, |all|).0)
  {
    var chosen := WalkOrder.SelectMany(m, |rest|).0;
    FirstSelection(l, m, |rest|);
    hide WalkOrder.SelectMany, TasksOf;
    assert |[t] + rest| == 1 + |rest|;
    TasksAhead(m.Selected(), chosen);
  }

  lemma FirstSelection(l: KList<Item>, m: KList<Item>, n: nat)
    requires l.Valid() && l.items != [] && m == l.Next() && m.Valid() && 0 < m.index <= |m.items|
    ensures WalkOrder.SelectMany(l, 1 + n).0 == [m.Selected()] + WalkOrder.SelectMany(m, n).0
  {}

  lemma TasksAhead(i: Item, s: seq<Item>)
    ensures TasksOf([i] + s) == [i.task] + TasksOf(s)
  {}

  lemma SwitchIsOp(k: Kernel)
    ensures Apply(k, SwitchOp) == SwitchContext(k)
  {}

  /** As many switches as there are ready tasks on the greatest level, with that list
      unchanged, run each of these tasks exactly once. */
  lemma EveryoneRunsOnce(k: Kernel, ops: seq<Op>, level: nat)
    requires Sound(k) && Undisturbed(k, ops, level) && k.h.Items(Ready(level)) != []
    requires |Runners(k, ops)| == |k.h.Items(Ready(level))|
    ensures NoDup(Runners(k, ops))
    ensures forall t :: t in Runners(k, ops) <==> k.Is(t, Ready(level))
  {
    hide Inv, Undisturbed, Runners, WalkOrder.SelectMany;
    var l, r := k.h.At(Ready(level)), Runners(k, ops);
    ListIsValid(k, Ready(level));
    RunnersFollowTheWalk(k, ops, level);
    WalkOrder.FullRoundReturnsEachOnce(l);
    var s := WalkOrder.SelectMany(l, |l.items|).0;
    SameMembers(s, l.items);
    ReadyItems(k, level);
    forall i | 0 <= i < |s| ensures s[i] == StateItem(r[i]) { assert s[i] in s; }
    forall t ensures t in r <==> k.Is(t, Ready(level)) {
      if k.Is(t, Ready(level)) { assert s[Position(s, StateItem(t))] == StateItem(t); }
    }
  }

  lemma SameMembers(s: seq<Item>, t: seq<Item>)
    requires multiset(s) == multiset(t)
    ensures forall i :: i in s <==> i in t
  {
    forall i ensures i in s <==> i in t { assert i in multiset(s) <==> i in multiset(t); }
  }

  lemma ReadyItems(k: Kernel, level: nat)
    requires Inv(k)
    ensures forall i :: i in k.h.Items(Ready(level)) <==> k.h.In(i, Ready(level))
    ensures forall i :: i in k.h.Items(Ready(level)) ==> i == StateItem(i.task)
  {}
}
