/** What comes of messages and sleepers: over every interleaving the messages in the queue are
    the posts that passed less the removals that passed, and those who sleep are served from
    the front, one for each event. */
module QueueLedger {
  import opened ListHeap
  import opened QueueControl
  import opened QueueProtocol

  // ----- The law of messages --------------------------------------------------------

  /** A post passes when there is room; an overwrite of a full queue replaces its message and
      adds none. */
  function PostOf(s: System, step: Step): nat
    requires Enabled(s, step)
  {
    match step
    case Attempt(t, _) => if s.Pc(t).call.Send? && s.q.messages < s.q.length then 1 else 0
    case InterruptSend(_) => if s.q.messages < s.q.length then 1 else 0
    case _ => 0
  }

  /** A removal passes when there is a message; a peek removes nothing. */
  function RemovalOf(s: System, step: Step): nat
    requires Enabled(s, step)
  {
    match step
    case Attempt(t, _) => if s.Pc(t).call == Receive && 0 < s.q.messages then 1 else 0
    case InterruptReceive => if 0 < s.q.messages then 1 else 0
    case _ => 0
  }

  ghost function Posts(s: System, steps: seq<Step>): nat
    requires Possible(s, steps)
    decreases |steps|
  {
    if steps == [] then 0 else PostOf(s, steps[0]) + Posts(Apply(s, steps[0]), steps[1..])
  }

  ghost function Removals(s: System, steps: seq<Step>): nat
    requires Possible(s, steps)
    decreases |steps|
  {
    if steps == [] then 0 else RemovalOf(s, steps[0]) + Removals(Apply(s, steps[0]), steps[1..])
  }

  /** What the law needs to know of a state; lock counters and sleepers do not matter. */
  ghost predicate Fits(s: System) {
    0 < s.q.length && s.q.messages <= s.q.length && OverwritesFit(s)
  }

  lemma {:induction false} DrainFrame(c: Control, n: int)
    ensures DrainRx(c, n) == c.(waitRx := DrainRx(c, n).waitRx, wokenRx := DrainRx(c, n).wokenRx)
    ensures DrainTx(c, n) == c.(waitTx := DrainTx(c, n).waitTx, wokenTx := DrainTx(c, n).wokenTx)
    decreases n
  {
    if 0 < n {
      DrainFrame(WakeRx(c), n - 1);
      DrainFrame(WakeTx(c), n - 1);
    }
  }

  lemma StepKeepsMessages(s: System, step: Step)
    requires Fits(s) && Enabled(s, step)
    ensures var r := Apply(s, step);
            && r.q.messages + RemovalOf(s, step) == s.q.messages + PostOf(s, step)
            && r.q.length == s.q.length
  {
    if step.UnlockTxStep? { DrainFrame(s.q, s.q.txLock); }
    if step.UnlockRxStep? { DrainFrame(s.q, s.q.rxLock); }
  }

  lemma StepKeepsFits(s: System, step: Step)
    requires Fits(s) && Enabled(s, step)
    ensures Fits(Apply(s, step))
  {
    StepKeepsMessages(s, step);
    StepKeepsOverwrites(s, step);
  }

  lemma StepKeepsOverwrites(s: System, step: Step)
    requires OverwritesFit(s) && Enabled(s, step) && Apply(s, step).q.length == s.q.length
    ensures OverwritesFit(Apply(s, step))
  {
    hide TryCall, Locked, UnlockedTx, UnlockedRx, IsrSend, IsrReceive, AddWaiter, TakenOff;
    var r := Apply(s, step);
    if step.InterruptSend? || step.InterruptReceive? || step.Leave? {
      assert forall u :: r.Pc(u) == s.Pc(u);
    } else {
      assert forall u :: u != step.t ==> r.Pc(u) == s.Pc(u);
    }
  }

  /** Over every run: what is there at the end and what has been removed is what was there and
      what has been posted. */
  lemma {:induction false} MessagesAreConserved(s: System, steps: seq<Step>)
    requires Fits(s) && Possible(s, steps)
    ensures Run(s, steps).q.messages + Removals(s, steps) == s.q.messages + Posts(s, steps)
    ensures Run(s, steps).q.messages <= Run(s, steps).q.length == s.q.length
    decreases |steps|
  {
    hide Fits, Enabled, Apply, PostOf, RemovalOf;
    if steps != [] {
      StepKeepsMessages(s, steps[0]);
      StepKeepsFits(s, steps[0]);
      MessagesAreConserved(Apply(s, steps[0]), steps[1..]);
    } else {
      FitsRoom(s);
    }
  }

  lemma FitsRoom(s: System)
    requires Fits(s)
    ensures s.q.messages <= s.q.length
  {}

  /** On a new queue no message comes from nowhere and none is lost, also when a lock counter
      overruns. */
  lemma NoMessageIsLost(length: nat, steps: seq<Step>)
    requires 0 < length && Possible(Fresh(length), steps)
    ensures Run(Fresh(length), steps).q.messages == Posts(Fresh(length), steps) - Removals(Fresh(length), steps)
  {
    MessagesAreConserved(Fresh(length), steps);
  }

  // ----- The law of sleepers --------------------------------------------------------

  function Least(a: nat, b: nat): nat {
    if a < b then a else b
  }

  /** The events for receivers: a message that is not counted on a locked queue, the counts
      that an unlocking task passes on, and the message that a peek has left. */
  function ForReceivers(s: System, step: Step): nat
    requires Enabled(s, step)
  {
    match step
    case Attempt(t, _) =>
      var call := s.Pc(t).call;
      if (call.Send? && (call.overwrite || s.q.messages < s.q.length)) || (call == Peek && 0 < s.q.messages) then 1
      else 0
    case InterruptSend(overwrite) =>
      if s.q.txLock == UNLOCKED && (overwrite || s.q.messages < s.q.length) then 1 else 0
    case UnlockTxStep(_) => Pos(s.q.txLock)
    case _ => 0
  }

  /** The events for senders: a space that is not counted, and the counts passed on. */
  function ForSenders(s: System, step: Step): nat
    requires Enabled(s, step)
  {
    match step
    case Attempt(t, _) => if s.Pc(t).call == Receive && 0 < s.q.messages then 1 else 0
    case InterruptReceive => if s.q.rxLock == UNLOCKED && 0 < s.q.messages then 1 else 0
    case UnlockRxStep(_) => Pos(s.q.rxLock)
    case _ => 0
  }

  /** A task that tries again gives up its wake-up. */
  function Trying(step: Step): set<Task> {
    match step
    case Attempt(t, _) => {t}
    case _ => {}
  }

  /** The first `m` of those who sleep on a list have been woken, where `was` and `now` are
      those who were and are woken from it. */
  ghost predicate Served(list: seq<Task>, left: seq<Task>, was: set<Task>, now: set<Task>, m: nat) {
    m <= |list| && left == list[m..] && now == was + (set t | t in list[..m])
  }

  lemma {:induction false} DrainRxServes(c: Control, n: int)
    ensures var d := DrainRx(c, n);
            Served(c.waitRx, d.waitRx, c.wokenRx, d.wokenRx, Least(Pos(n), |c.waitRx|))
    decreases n
  {
    if 0 < n && c.waitRx != [] {
      DrainRxServes(WakeRx(c), n - 1);
      var m := Least(n, |c.waitRx|);
      assert c.waitRx[..m] == [c.waitRx[0]] + c.waitRx[1..][..m - 1];
    }
  }

  lemma {:induction false} DrainTxServes(c: Control, n: int)
    ensures var d := DrainTx(c, n);
            Served(c.waitTx, d.waitTx, c.wokenTx, d.wokenTx, Least(Pos(n), |c.waitTx|))
    decreases n
  {
    if 0 < n && c.waitTx != [] {
      DrainTxServes(WakeTx(c), n - 1);
      var m := Least(n, |c.waitTx|);
      assert c.waitTx[..m] == [c.waitTx[0]] + c.waitTx[1..][..m - 1];
    }
  }

  lemma WakeServes(c: Control)
    ensures Served(c.waitRx, WakeRx(c).waitRx, c.wokenRx, WakeRx(c).wokenRx, Least(1, |c.waitRx|))
    ensures Served(c.waitTx, WakeTx(c).waitTx, c.wokenTx, WakeTx(c).wokenTx, Least(1, |c.waitTx|))
  {
    FirstServed(c.waitRx, c.wokenRx);
    FirstServed(c.waitTx, c.wokenTx);
    hide Served;
  }

  lemma FirstServed(list: seq<Task>, was: set<Task>)
    ensures if list == [] then Served(list, list, was, was, 0)
            else Served(list, list[1..], was, was + {list[0]}, 1)
  {
    if list != [] { assert list[..1] == [list[0]]; }
  }

  /** Each event of a step wakes the first of those who sleep on the list it is for. */
  ghost predicate ServesFront(s: System, step: Step)
    requires Enabled(s, step)
  {
    var c, d := s.q, Apply(s, step).q;
    && Served(c.waitRx, d.waitRx, c.wokenRx - Trying(step), d.wokenRx, Least(ForReceivers(s, step), |c.waitRx|))
    && Served(c.waitTx, d.waitTx, c.wokenTx - Trying(step), d.wokenTx, Least(ForSenders(s, step), |c.waitTx|))
  }

  /** Nobody gets on a list but by parking, or off it but by an event or by leaving. Each event
      wakes the first of those who sleep, if anybody does. */
  lemma SleepersAreServedFromTheFront(s: System, step: Step)
    requires Enabled(s, step) && !step.Park? && !step.Leave?
    ensures ServesFront(s, step)
  {
    hide Apply, ServesFront;
    match step {
      case UnlockTxStep(_) => UnlockServes(s, step);
      case UnlockRxStep(_) => UnlockServes(s, step);
      case Attempt(t, _) => AttemptServes(s, step);
      case InterruptSend(_) => InterruptServes(s, step);
      case InterruptReceive => InterruptServes(s, step);
      case _ => OtherServes(s, step);
    }
  }

  lemma UnlockServes(s: System, step: Step)
    requires Enabled(s, step) && (step.UnlockTxStep? || step.UnlockRxStep?)
    ensures ServesFront(s, step)
  {
    hide Served;
    assert s.q.wokenRx - {} == s.q.wokenRx && s.q.wokenTx - {} == s.q.wokenTx;
    NobodyServed(s.q.waitRx, s.q.wokenRx);
    NobodyServed(s.q.waitTx, s.q.wokenTx);
    if step.UnlockTxStep? {
      DrainRxServes(s.q, s.q.txLock);
      DrainFrame(s.q, s.q.txLock);
    } else {
      DrainTxServes(s.q, s.q.rxLock);
      DrainFrame(s.q, s.q.rxLock);
    }
  }

  lemma InterruptServes(s: System, step: Step)
    requires Enabled(s, step) && (step.InterruptSend? || step.InterruptReceive?)
    ensures ServesFront(s, step)
  {
    hide Served;
    assert s.q.wokenRx - {} == s.q.wokenRx && s.q.wokenTx - {} == s.q.wokenTx;
    NobodyServed(s.q.waitRx, s.q.wokenRx);
    NobodyServed(s.q.waitTx, s.q.wokenTx);
    if step.InterruptSend? {
      WakeServes(Posted(s.q, step.overwrite));
    } else if 0 < s.q.messages {
      WakeServes(s.q.(messages := s.q.messages - 1));
    }
  }

  lemma OtherServes(s: System, step: Step)
    requires Enabled(s, step) && !step.Park? && !step.Leave? && !step.UnlockTxStep? && !step.UnlockRxStep?
    requires !step.Attempt? && !step.InterruptSend? && !step.InterruptReceive?
    ensures ServesFront(s, step)
  {
    hide Served;
    assert s.q.wokenRx - {} == s.q.wokenRx && s.q.wokenTx - {} == s.q.wokenTx;
    NobodyServed(s.q.waitRx, s.q.wokenRx);
    NobodyServed(s.q.waitTx, s.q.wokenTx);
  }

  lemma NobodyServed(list: seq<Task>, was: set<Task>)
    ensures Served(list, list, was, was, 0)
  {}

  lemma AttemptServes(s: System, step: Step)
    requires Enabled(s, step) && step.Attempt?
    ensures ServesFront(s, step)
  {
    hide Served;
    var r := Retried(s.q, step.t);
    NobodyServed(r.waitRx, r.wokenRx);
    NobodyServed(r.waitTx, r.wokenTx);
    match s.Pc(step.t).call {
      case Send(overwrite) => WakeServes(Posted(r, overwrite));
      case Receive => if 0 < s.q.messages { WakeServes(r.(messages := r.messages - 1)); }
      case Peek => WakeServes(r);
    }
  }

  /** A task that parks joins the one list it has to, and a task that leaves is on none;
      everybody else keeps his place. */
  lemma ParkingAddsOne(s: System, step: Step)
    requires Enabled(s, step) && step.Park? && !Waiting(s, step.t)
    ensures var c, d, sends := s.q, Apply(s, step).q, s.Pc(step.t).call.Send?;
            && (if sends then d.waitRx == c.waitRx else step.t in d.waitRx && TakenOff(d.waitRx, step.t) == c.waitRx)
            && (if sends then step.t in d.waitTx && TakenOff(d.waitTx, step.t) == c.waitTx else d.waitTx == c.waitTx)
            && d.wokenRx == c.wokenRx && d.wokenTx == c.wokenTx
  {
    InsertedIsNew(if s.Pc(step.t).call.Send? then s.q.waitTx else s.q.waitRx, step.t, step.at);
  }

  lemma InsertedIsNew(list: seq<Task>, t: Task, at: nat)
    requires t !in list
    ensures t in Inserted(list, t, at) && TakenOff(Inserted(list, t, at), t) == list
  {
    var p := if at <= |list| then at else |list|;
    InsertedAndTakenOff(list[..p], list[p..], t);
    assert list[..p] + list[p..] == list;
    assert at > |list| ==> list[..p] + [t] + list[p..] == list + [t];
  }

  lemma {:induction false} InsertedAndTakenOff(a: seq<Task>, b: seq<Task>, t: Task)
    requires t !in a
    ensures t in a + [t] + b && TakenOff(a + [t] + b, t) == a + b
  {
    if a == [] {
      assert ([t] + b)[1..] == b;
    } else {
      assert (a + [t] + b)[1..] == a[1..] + [t] + b;
      InsertedAndTakenOff(a[1..], b, t);
    }
  }

  // ----- The law of counters --------------------------------------------------------

  /** The tx counter goes up by one for each post that is not passed on at once, and stops when
      it is unlocked; it wraps as an int8_t does. The rx counter does so for removals. */
  lemma CountersCount(s: System, step: Step)
    requires Enabled(s, step)
    ensures var c, d := s.q, Apply(s, step).q;
            && d.txLock == (match step
                 case LockQueue(_) => if c.txLock == UNLOCKED then 0 else c.txLock
                 case UnlockTxStep(_) => UNLOCKED
                 case InterruptSend(overwrite) =>
                   if c.txLock != UNLOCKED && (overwrite || c.messages < c.length) then
                     if c.txLock == 127 then -128 else c.txLock + 1
                   else c.txLock
                 case _ => c.txLock)
            && d.rxLock == (match step
                 case LockQueue(_) => if c.rxLock == UNLOCKED then 0 else c.rxLock
                 case UnlockRxStep(_) => UNLOCKED
                 case InterruptReceive =>
                   if c.rxLock != UNLOCKED && 0 < c.messages then
                     if c.rxLock == 127 then -128 else c.rxLock + 1
                   else c.rxLock
                 case _ => c.rxLock)
  {
    if step.UnlockTxStep? { DrainFrame(s.q, s.q.txLock); }
    if step.UnlockRxStep? { DrainFrame(s.q, s.q.rxLock); }
  }

  // ----- The course of a call -------------------------------------------------------

  /** The call cannot be served by the queue as it is. */
  predicate Unserved(q: Control, call: Call) {
    if call.Send? then q.length <= q.messages && !call.overwrite else q.messages == 0
  }

  /** A call that is not served goes on to block if it has block time, and one that is served
      ends; a task parks only when the queue is still of no use once it is locked, and else
      tries again; a send whose time is up ends, and a receive or peek looks once more. */
  lemma CallsTakeTheirCourse(s: System, step: Step)
    requires Enabled(s, step)
    ensures match step
      case Attempt(t, mayBlock) =>
        var call := s.Pc(t).call;
        Apply(s, step).Pc(t) == if Unserved(s.q, call) && mayBlock then Refused(call) else Idle
      case TestAgain(t) =>
        var call := s.Pc(t).call;
        Apply(s, step).Pc(t) == if Unserved(s.q, call) then Parking(call) else UnlockingTx(call, Retry)
      case CheckTimeOut(t, expired) =>
        var call := s.Pc(t).call;
        Apply(s, step).Pc(t) == if expired then UnlockingTx(call, Expired) else Checking(call)
      case ResumeAll(t) =>
        var (call, outcome) := (s.Pc(t).call, s.Pc(t).outcome);
        && Apply(s, step).holder == Nobody
        && Apply(s, step).Pc(t) == (if outcome == Expired && call.Send? then Idle
                                    else if outcome == Expired then Concluding(call) else Attempting(call))
      case Conclude(t) =>
        Apply(s, step).Pc(t) == if s.q.messages == 0 then Idle else Attempting(s.Pc(t).call)
      case _ => true
  {
    hide TryCall;
  }
}
