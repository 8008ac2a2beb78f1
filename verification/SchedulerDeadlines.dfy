/** Over whole runs, a timeout ends a wait at its time and at no other. */
module SchedulerDeadlines {
  import opened ListHeap
  import opened Scheduler
  import opened SchedulerRuns
  import opened SchedulerTime

  /** Task `t` waits until the clock shows `wake`, and not any longer. */
  ghost predicate Awaits(v: Timeline, t: Task, wake: nat) {
    if v.now < wake then t in v.wakes && v.wakes[t] == wake else t !in v.wakes
  }

  /** The operation is none of those that end a wait otherwise or begin another. */
  predicate Leaves(k: Kernel, op: Op, t: Task) {
    && t !in Forgotten(k, op)
    && (op.ResumeAllOp? && k.suspended == 1 ==> t !in Pending(k))
    && (op.DelayOp? || op.WaitOp? || op.WaitUnorderedOp? ==> k.current != t)
  }

  predicate Undisturbed(k: Kernel, ops: seq<Op>, t: Task)
    decreases |ops|
  {
    ops == [] || (Leaves(k, ops[0], t) && Undisturbed(Apply(k, ops[0]), ops[1..], t))
  }

  lemma {:induction false} PassingAwaits(v: Timeline, n: nat, t: Task, wake: nat)
    requires Awaits(v, t, wake)
    ensures Awaits(v.PassMany(n), t, wake)
    decreases n
  {
    if 0 < n { PassingAwaits(v.Pass(), n - 1, t, wake); }
  }

  lemma StepAwaits(k: Kernel, op: Op, t: Task, wake: nat)
    requires Sound(k) && Enabled(k, op) && Leaves(k, op, t) && Awaits(View(k), t, wake)
    ensures Awaits(View(Apply(k, op)), t, wake)
  {
    hide Sound, Enabled, Apply, View;
    StepRefinesTimeline(k, op);
    if op.ResumeAllOp? && k.suspended == 1 {
      var v := View(k).Forget(set u | u in Pending(k));
      assert Awaits(v, t, wake);
      PassingAwaits(v, k.pendedTicks, t, wake);
    }
  }

  /** Whatever else happens, and however often the tick count wraps meanwhile, a task with
      wake time `wake` is on the timeline exactly until the clock reaches that time. */
  lemma {:induction false} WaitsEndOnTime(k: Kernel, ops: seq<Op>, t: Task, wake: nat)
    requires Sound(k) && Permitted(k, ops) && Undisturbed(k, ops, t) && Awaits(View(k), t, wake)
    ensures Awaits(View(Run(k, ops)), t, wake)
    decreases |ops|
  {
    hide Sound, Enabled, Apply, View, Awaits, Leaves;
    if ops != [] {
      StepAwaits(k, ops[0], t, wake);
      StepKeepsInv(k, ops[0]);
      WaitsEndOnTime(Apply(k, ops[0]), ops[1..], t, wake);
    }
  }

  /** In particular a task that delays itself by some ticks sleeps just that long. */
  lemma DelayLastsItsTicks(k: Kernel, ticks: nat, ops: seq<Op>)
    requires Sound(k) && Enabled(k, DelayOp(ticks))
    requires Permitted(Apply(k, DelayOp(ticks)), ops) && Undisturbed(Apply(k, DelayOp(ticks)), ops, k.current)
    ensures var e := Run(Apply(k, DelayOp(ticks)), ops);
            k.current in View(e).wakes <==> Now(e) < Now(k) + ticks
  {
    hide Sound, Apply, View, Undisturbed, Permitted, Run;
    var w := Apply(k, DelayOp(ticks));
    StepKeepsInv(k, DelayOp(ticks));
    StepRefinesTimeline(k, DelayOp(ticks));
    ViewNow(k);
    WaitsEndOnTime(w, ops, k.current, Now(k) + ticks);
    ViewNow(Run(w, ops));
  }
}
