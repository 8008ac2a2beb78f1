/** The task count is the total length of the state lists. */
module SchedulerAccounts {
  import opened KernelConfig
  import opened KernelLists
  import opened ListHeap
  import opened Scheduler
  import opened SchedulerInvariant
  import opened SchedulerRuns
  import opened SchedulerFrames

  function ReadyLists(n: nat): seq<ListId> {
    if n == 0 then [] else ReadyLists(n - 1) + [Ready(n - 1)]
  }

  function StateLists(): seq<ListId> {
    ReadyLists(MAX_PRIORITIES) + [DelayedA, DelayedB, Suspended, Termination]
  }

  function TotalLength(h: Heap, ls: seq<ListId>): nat {
    if ls == [] then 0 else |h.Items(ls[0])| + TotalLength(h, ls[1..])
  }

  function Elements(s: seq<Item>): set<Item> {
    set i | i in s
  }

  function Members(h: Heap, ls: seq<ListId>): set<Item> {
    if ls == [] then {} else Elements(h.Items(ls[0])) + Members(h, ls[1..])
  }

  lemma {:induction false} ReadyListsAre(n: nat)
    ensures NoDup(ReadyLists(n))
    ensures forall l :: l in ReadyLists(n) <==> l.Ready? && l.level < n
  {
    if 0 < n {
      ReadyListsAre(n - 1);
      var s, last := ReadyLists(n - 1), Ready(n - 1);
      assert last !in s;
      assert forall l :: l in s + [last] <==> l in s || l == last;
    }
  }

  lemma StateListsAre()
    ensures NoDup(StateLists())
    ensures forall l :: l in StateLists() <==> StateList(l) && (l.Ready? ==> l.level < MAX_PRIORITIES)
  {
    var r, s := ReadyLists(MAX_PRIORITIES), [DelayedA, DelayedB, Suspended, Termination];
    ReadyListsAre(MAX_PRIORITIES);
    assert forall l :: l in s <==> l == DelayedA || l == DelayedB || l == Suspended || l == Termination;
    assert forall l :: l in r + s <==> l in r || l in s;
    assert forall i :: 0 <= i < |r| ==> r[i] in r;
  }

  lemma {:induction false} DistinctElements(s: seq<Item>)
    requires NoDup(s)
    ensures |Elements(s)| == |s|
  {
    if s != [] {
      DistinctElements(s[1..]);
      assert s == [s[0]] + s[1..];
      assert s[0] !in s[1..];
      assert Elements(s) == {s[0]} + Elements(s[1..]);
    }
  }

  /** The lists do not share items, so their lengths add up to the number of items in them. */
  lemma {:induction false} LengthsAddUp(h: Heap, ls: seq<ListId>)
    requires h.Wf() && NoDup(ls)
    ensures |Members(h, ls)| == TotalLength(h, ls)
    ensures forall i :: i in Members(h, ls) <==> i in h.container && h.container[i] in ls
  {
    if ls != [] {
      var l, rest := ls[0], ls[1..];
      assert ls == [l] + rest;
      assert l !in rest;
      assert h.At(l).Valid();
      DistinctElements(h.Items(l));
      LengthsAddUp(h, rest);
      assert Elements(h.Items(l)) !! Members(h, rest);
      assert forall m :: m in ls <==> m == l || m in rest;
    }
  }

  lemma {:induction false} StateItemsOf(ts: set<Task>)
    ensures |set t | t in ts :: StateItem(t)| == |ts|
  {
    if ts != {} {
      var t :| t in ts;
      StateItemsOf(ts - {t});
      assert (set u | u in ts :: StateItem(u)) == (set u | u in ts - {t} :: StateItem(u)) + {StateItem(t)};
    }
  }

  /** uxCurrentNumberOfTasks is the total length of the state lists, and the ready list of
      each level holds tasks of that priority only. */
  lemma TasksAreAccountedFor(k: Kernel)
    requires Inv(k) && InRange(k)
    ensures k.tasks == TotalLength(k.h, StateLists())
    ensures k.toCleanUp == |k.h.Items(Termination)|
    ensures forall p, i :: i in k.h.Items(Ready(p)) ==> i == StateItem(i.task) && k.Prio(i.task) == p
  {
    StateListsAre();
    LengthsAddUp(k.h, StateLists());
    StateItemsOf(k.tcb.Keys);
    var all := set t | t in k.tcb.Keys :: StateItem(t);
    forall i ensures i in all <==> i in Members(k.h, StateLists()) {
      if i in k.h.container && k.h.container[i] in StateLists() {
        assert i == StateItem(i.task) && i.task in k.tcb.Keys;
      }
      if i in all {
        assert k.h.container[i].Ready? ==> k.IsReady(i.task);
      }
    }
    assert all == Members(k.h, StateLists());
    forall p, i | i in k.h.Items(Ready(p)) ensures i == StateItem(i.task) && k.Prio(i.task) == p {
      assert k.h.In(i, Ready(p));
      assert i == StateItem(i.task) && k.IsReady(i.task);
    }
  }

  lemma ReachableTasksAreAccountedFor(ops: seq<Op>)
    requires Permitted(Boot(), ops)
    ensures Run(Boot(), ops).tasks == TotalLength(Run(Boot(), ops).h, StateLists())
    ensures Run(Boot(), ops).toCleanUp == |Run(Boot(), ops).h.Items(Termination)|
  {
    hide Run, Permitted, Boot, TotalLength, InRange;
    ReachableIsSound(ops);
    ReachableIsInRange(ops);
    TasksAreAccountedFor(Run(Boot(), ops));
  }
}
