/** What the scheduler's loops have done after some rounds: they take the head of a list that
    shrinks, where the operations are specified by the tasks that were on it at first. */
module SchedulerLoops {
  import opened KernelLists
  import opened ListHeap
  import opened Scheduler
  import opened SchedulerInvariant
  import opened SchedulerSteps

  /** What holds between two ticks. */
  ghost predicate Steady(k: Kernel) {
    Partition(k) && Wheel(k, k.tick + 1) && Counts(k)
  }

  lemma {:induction false} WakeAllAppend(k: Kernel, s: seq<Task>, t: Task)
    ensures WakeAll(k, s + [t]) == Wake(WakeAll(k, s), t)
    decreases |s|
  {
    hide Wake;
    if s == [] {
      assert [] + [t] == [t] && [t][1..] == [];
    } else {
      assert (s + [t])[0] == s[0] && (s + [t])[1..] == s[1..] + [t];
      WakeAllAppend(Wake(k, s[0]), s[1..], t);
    }
  }

  lemma RemoveHead(l: KList<Item>)
    requires l.items != []
    ensures l.Remove(l.items[0]).items == l.items[1..]
  {}

  /** Two items on different lists can be taken out in either order. */
  lemma UnlinkCommutes(h: Heap, i: Item, j: Item)
    requires i != j && (i in h.container && j in h.container ==> h.container[i] != h.container[j])
    ensures h.Unlink(i).Unlink(j) == h.Unlink(j).Unlink(i)
  {
    var a, b := h.Unlink(i).Unlink(j), h.Unlink(j).Unlink(i);
    hide KList.Remove;
    assert a.container == b.container;
    assert a.lists == b.lists;
  }

  /** xTaskIncrementTick takes the state item out before the event item. */
  lemma WakeInTickOrder(k: Kernel, t: Task)
    requires Partition(k)
    ensures Wake(k, t) == k.(top := if k.top < k.Prio(t) then k.Prio(t) else k.top,
                             h := k.h.Unlink(StateItem(t)).Unlink(EventItem(t)).LinkEnd(Ready(k.Prio(t)), StateItem(t)))
  {
    UnlinkCommutes(k.h, StateItem(t), EventItem(t));
  }

  lemma WakeTakesDelayedHead(k: Kernel, t: Task)
    requires Partition(k) && TwoLists(k) && k.h.Items(k.delayed) != [] && k.h.Items(k.delayed)[0] == StateItem(t)
    ensures Wake(k, t).h.Items(k.delayed) == k.h.Items(k.delayed)[1..]
  {
    assert StateItem(t) in k.h.Items(k.delayed);
    assert k.h.In(StateItem(t), k.delayed);
    var u := k.h.Unlink(EventItem(t));
    assert u.At(k.delayed) == k.h.At(k.delayed);
    RemoveHead(u.At(k.delayed));
    hide KList.Remove, KList.InsertEnd;
    assert u.Unlink(StateItem(t)).Items(k.delayed) == k.h.Items(k.delayed)[1..];
  }

  lemma WakeTakesPendingHead(k: Kernel, t: Task)
    requires Partition(k) && k.h.Items(PendingReady) != [] && k.h.Items(PendingReady)[0] == EventItem(t)
    ensures Wake(k, t).h.Items(PendingReady) == k.h.Items(PendingReady)[1..]
  {
    assert EventItem(t) in k.h.Items(PendingReady);
    assert k.h.In(EventItem(t), PendingReady);
    RemoveHead(k.h.At(PendingReady));
    hide KList.Remove, KList.InsertEnd;
    var u := k.h.Unlink(EventItem(t));
    assert u.Items(PendingReady) == k.h.Items(PendingReady)[1..];
    assert !u.In(StateItem(t), PendingReady);
  }

  /** The loop of xTaskIncrementTick after `n` rounds. */
  lemma {:induction false} DuePrefix(a: Kernel, n: nat)
    requires Partition(a) && Wheel(a, a.tick) && Counts(a) && n <= |Due(a)|
    ensures var w := WakeAll(a, Due(a)[..n]);
            && Partition(w) && Wheel(w, a.tick) && Counts(w) && w == a.(h := w.h, top := w.top)
                && w.h.value == a.h.value
            && n <= |a.h.Items(a.delayed)| && w.h.Items(a.delayed) == a.h.Items(a.delayed)[n..]
    decreases n
  {
    hide Partition, Wheel, Counts, Wake, Due, WakeAll;
    DueLength(a);
    if n == 0 {
      assert Due(a)[..0] == [] && a.h.Items(a.delayed)[0..] == a.h.Items(a.delayed);
      WakeNobody(a);
    } else {
      DuePrefix(a, n - 1);
      var w, t := WakeAll(a, Due(a)[..n - 1]), Due(a)[n - 1];
      DueAt(a, n - 1);
      assert Due(a)[..n] == Due(a)[..n - 1] + [t];
      WakeAllAppend(a, Due(a)[..n - 1], t);
      WheelLists(w, a.tick);
      WakeTakesDelayedHead(w, t);
      DelayedIsBlocked(w, t);
      WakeKeeps(w, t, a.tick);
    }
  }

  lemma DelayedIsBlocked(k: Kernel, t: Task)
    requires Partition(k) && TwoLists(k) && k.h.Items(k.delayed) != [] && k.h.Items(k.delayed)[0] == StateItem(t)
    ensures k.Blocked(t)
  {}

  lemma DueLength(a: Kernel)
    ensures |Due(a)| <= |a.h.Items(a.delayed)|
  {}

  lemma DueAt(a: Kernel, n: nat)
    requires Partition(a) && Wheel(a, a.tick) && n < |a.h.Items(a.delayed)|
    ensures n < |Due(a)| <==> a.h.Val(a.h.Items(a.delayed)[n]) <= a.tick
    ensures n < |Due(a)| ==> a.h.Items(a.delayed)[n] == StateItem(Due(a)[n])
  {
    FirstGreaterSplits(a.h.Values(a.delayed), a.tick);
    var i := a.h.Items(a.delayed)[n];
    assert i in a.h.Items(a.delayed);
    assert a.h.In(i, a.delayed);
  }

  /** The loop that empties the pending list after `n` rounds. */
  lemma {:induction false} PendingPrefix(k: Kernel, n: nat)
    requires Partition(k) && Wheel(k, k.tick + 1) && Counts(k) && n <= |Pending(k)|
    ensures var w := WakeAll(k, Pending(k)[..n]);
            && Partition(w) && Wheel(w, k.tick + 1) && Counts(w) && w == k.(h := w.h, top := w.top)
                && w.h.value == k.h.value
            && n <= |k.h.Items(PendingReady)| && w.h.Items(PendingReady) == k.h.Items(PendingReady)[n..]
    decreases n
  {
    hide Partition, Wheel, Counts, Wake, WakeAll, Pending;
    PendingLength(k);
    if n == 0 {
      assert Pending(k)[..0] == [] && k.h.Items(PendingReady)[0..] == k.h.Items(PendingReady);
      WakeNobody(k);
    } else {
      PendingPrefix(k, n - 1);
      var w, t := WakeAll(k, Pending(k)[..n - 1]), Pending(k)[n - 1];
      PendingAt(k, n - 1);
      assert Pending(k)[..n] == Pending(k)[..n - 1] + [t];
      WakeAllAppend(k, Pending(k)[..n - 1], t);
      WakeTakesPendingHead(w, t);
      PendingIsBlocked(w, t);
      WakeKeeps(w, t, k.tick + 1);
    }
  }

  lemma PendingLength(k: Kernel)
    ensures |Pending(k)| == |k.h.Items(PendingReady)|
  {}

  lemma PendingAt(k: Kernel, n: nat)
    requires Partition(k) && n < |k.h.Items(PendingReady)|
    ensures n < |Pending(k)| && k.h.Items(PendingReady)[n] == EventItem(Pending(k)[n])
  {
    var i := k.h.Items(PendingReady)[n];
    assert i in k.h.Items(PendingReady);
    assert k.h.In(i, PendingReady);
  }

  lemma PendingIsBlocked(k: Kernel, t: Task)
    requires Partition(k) && k.h.Items(PendingReady) != [] && k.h.Items(PendingReady)[0] == EventItem(t)
    ensures k.Blocked(t)
  {
    assert EventItem(t) in k.h.Items(PendingReady);
    assert k.h.In(EventItem(t), PendingReady);
  }

  lemma {:induction false} ReplayAppend(k: Kernel, n: nat)
    ensures Replay(k, n + 1) == IncrementTick(Replay(k, n)).(yieldPending := SwitchRequired(Replay(k, n)))
    decreases n
  {
    hide IncrementTick, SwitchRequired;
    if 0 < n {
      ReplayAppend(IncrementTick(k).(yieldPending := SwitchRequired(k)), n - 1);
    }
  }

  /** One round of the loop of xTaskIncrementTick. */
  lemma ExpiryRound(a: Kernel, n: nat)
    requires Partition(a) && Wheel(a, a.tick) && Counts(a) && n <= |Due(a)|
    requires var w := WakeAll(a, Due(a)[..n]);
             w.h.Items(w.delayed) != [] && w.h.Val(w.h.Items(w.delayed)[0]) <= a.tick
    ensures var w := WakeAll(a, Due(a)[..n]);
            var t := w.h.Items(w.delayed)[0].task;
            && n < |Due(a)| && t == Due(a)[n]
            && WakeAll(a, Due(a)[..n + 1]) == w.(
                 top := if w.top < w.Prio(t) then w.Prio(t) else w.top,
                 h := w.h.Unlink(StateItem(t)).Unlink(EventItem(t)).LinkEnd(Ready(w.Prio(t)), StateItem(t)))
  {
    hide Partition, Wheel, Counts, WakeAll, Wake, Due;
    var w := WakeAll(a, Due(a)[..n]);
    DuePrefix(a, n);
    assert w.h.Items(w.delayed)[0] == a.h.Items(a.delayed)[n];
    DueAt(a, n);
    var t := Due(a)[n];
    WakeInTickOrder(w, t);
    WakeAllAppend(a, Due(a)[..n], t);
    assert Due(a)[..n + 1] == Due(a)[..n] + [t];
  }

  /** When the loop stops, every task that was due has been taken. */
  lemma AllDueTaken(a: Kernel, n: nat, w: Kernel)
    requires Partition(a) && Wheel(a, a.tick) && Counts(a) && n <= |Due(a)| && w == WakeAll(a, Due(a)[..n])
    requires w.h.Items(w.delayed) == [] || a.tick < w.h.Val(w.h.Items(w.delayed)[0])
    ensures n == |Due(a)| && w == WakeAll(a, Due(a))
    ensures forall t :: t in Due(a) <==> exists i :: 0 <= i < n && Due(a)[i] == t
  {
    hide Partition, Wheel, Counts, WakeAll, Due;
    DuePrefix(a, n);
    DueLength(a);
    if n < |a.h.Items(a.delayed)| { DueAt(a, n); }
    assert Due(a)[..|Due(a)|] == Due(a);
  }

  /** One round of the loop that empties the pending list. */
  lemma PendingRound(r: Kernel, n: nat)
    requires Partition(r) && Wheel(r, r.tick + 1) && Counts(r) && n <= |Pending(r)|
    requires WakeAll(r, Pending(r)[..n]).h.Items(PendingReady) != []
    ensures var w := WakeAll(r, Pending(r)[..n]);
            var t := w.h.Items(PendingReady)[0].task;
            && n < |Pending(r)| && t == Pending(r)[n] && WakeAll(r, Pending(r)[..n + 1]) == Wake(w, t)
  {
    hide Partition, Wheel, Counts, WakeAll, Wake, Pending;
    var w := WakeAll(r, Pending(r)[..n]);
    PendingPrefix(r, n);
    PendingLength(r);
    assert w.h.Items(PendingReady)[0] == r.h.Items(PendingReady)[n];
    PendingAt(r, n);
    WakeAllAppend(r, Pending(r)[..n], Pending(r)[n]);
    assert Pending(r)[..n + 1] == Pending(r)[..n] + [Pending(r)[n]];
  }

  lemma AllPendingTaken(r: Kernel, n: nat, w: Kernel)
    requires Partition(r) && Wheel(r, r.tick + 1) && Counts(r) && n <= |Pending(r)|
    requires WakeAll(r, Pending(r)[..n]).h.Items(PendingReady) == []
    ensures n == |Pending(r)| && WakeAll(r, Pending(r)[..n]) == WakeAll(r, Pending(r))
    ensures forall t :: t in Pending(r) <==> exists i :: 0 <= i < n && Pending(r)[i] == t
    ensures n == 0 ==> WakeAll(r, Pending(r)) == r
  {
    hide Partition, Wheel, Counts, WakeAll, Pending;
    PendingPrefix(r, n);
    PendingLength(r);
    assert Pending(r)[..|Pending(r)|] == Pending(r);
    if n == 0 {
      assert Pending(r) == [];
      WakeNobody(r);
    }
  }

  /** After a step of its index a list that is not empty has a selected item. */
  lemma StepSelects(h: Heap, level: nat)
    requires h.Items(Ready(level)) != []
    ensures var l := h.Step(Ready(level)).At(Ready(level)); 0 < l.index <= |l.items|
  {}
}
