/** Tasks and interrupts sharing one queue. A task that finds the queue unusable suspends
    the scheduler, locks the queue, tests again and parks itself; meanwhile interrupts keep
    posting and removing. No wake-up is lost, over every interleaving. */
module QueueProtocol {
  import opened KernelLists
  import opened ListHeap
  import opened QueueControl

  datatype Call = Send(overwrite: bool) | Receive | Peek

  datatype Outcome = Parked | Retry | Expired

  /** Where a task is inside xQueueGenericSend or xQueueGenericReceive. */
  datatype Pc =
    | Idle
    | Attempting(call: Call)                        // at the top of the retry loop
    | Refused(call: Call)                           // out of the first critical section, block time left
    | Locking(call: Call)                           // scheduler suspended
    | Testing(call: Call)                           // queue locked, timeout not checked yet
    | Checking(call: Call)                          // not timed out
    | Parking(call: Call)                           // seen full (or empty), not on the list yet
    | UnlockingTx(call: Call, outcome: Outcome)
    | UnlockingRx(call: Call, outcome: Outcome)
    | Resuming(call: Call, outcome: Outcome)
    | Concluding(call: Call)                        // a receive or peek whose time is up looks once more

  datatype Holder = Nobody | Holder(task: Task)

  datatype System = System(q: Control, pcs: map<Task, Pc>, holder: Holder) {
    function Pc(t: Task): Pc {
      if t in pcs then pcs[t] else Idle
    }
  }

  datatype Step =
    | Begin(t: Task, call: Call)
    | Attempt(t: Task, mayBlock: bool)
    | SuspendAll(t: Task)
    | LockQueue(t: Task)
    | CheckTimeOut(t: Task, expired: bool)
    | TestAgain(t: Task)
    | Park(t: Task, at: nat)
    | UnlockTxStep(t: Task)
    | UnlockRxStep(t: Task)
    | ResumeAll(t: Task)
    | Conclude(t: Task)
    | InterruptSend(overwrite: bool)
    | InterruptReceive
    | Leave(t: Task)                                // timed out, or suspended by another task

  predicate Waiting(s: System, t: Task) {
    t in s.q.waitRx || t in s.q.waitTx
  }

  predicate NoRoom(c: Control, call: Call) {
    match call
    case Send(overwrite) => !CanSend(c, overwrite)
    case Receive => c.messages == 0
    case Peek => c.messages == 0
  }

  /** While a task keeps the scheduler suspended only it and interrupts run; a task on a
      waiting list does not run. */
  predicate Enabled(s: System, step: Step) {
    match step
    case Begin(t, call) => s.holder == Nobody && s.Pc(t) == Idle && (call.Send? && call.overwrite ==> s.q.length == 1)
    case Attempt(t, _) => s.holder == Nobody && s.Pc(t).Attempting? && !Waiting(s, t)
    case SuspendAll(t) => s.holder == Nobody && s.Pc(t).Refused?
    case LockQueue(t) => s.holder == Holder(t) && s.Pc(t).Locking?
    case CheckTimeOut(t, _) => s.holder == Holder(t) && s.Pc(t).Testing?
    case TestAgain(t) => s.holder == Holder(t) && s.Pc(t).Checking?
    case Park(t, _) => s.holder == Holder(t) && s.Pc(t).Parking?
    case UnlockTxStep(t) => s.holder == Holder(t) && s.Pc(t).UnlockingTx?
    case UnlockRxStep(t) => s.holder == Holder(t) && s.Pc(t).UnlockingRx?
    case ResumeAll(t) => s.holder == Holder(t) && s.Pc(t).Resuming?
    case Conclude(t) => s.holder == Nobody && s.Pc(t).Concluding?
    case InterruptSend(overwrite) => overwrite ==> s.q.length == 1
    case InterruptReceive => true
    case Leave(t) => s.holder == Nobody
  }

  function TryCall(c: Control, t: Task, call: Call): Control {
    match call
    case Send(overwrite) => TaskSend(c, t, overwrite)
    case Receive => TaskReceive(c, t)
    case Peek => TaskPeek(c, t)
  }

  function AddWaiter(c: Control, t: Task, call: Call, at: nat): Control {
    if call.Send? then c.(waitTx := Inserted(c.waitTx, t, at)) else c.(waitRx := Inserted(c.waitRx, t, at))
  }

  function AfterResume(call: Call, outcome: Outcome): Pc {
    if outcome != Expired then Attempting(call) else if call.Send? then Idle else Concluding(call)
  }

  function At(s: System, t: Task, pc: Pc): System {
    s.(pcs := s.pcs[t := pc])
  }

  function Apply(s: System, step: Step): System
    requires Enabled(s, step)
  {
    match step
    case Begin(t, call) => At(s, t, Attempting(call))
    case Attempt(t, mayBlock) =>
      var call := s.Pc(t).call;
      At(s.(q := TryCall(s.q, t, call)), t, if NoRoom(s.q, call) && mayBlock then Refused(call) else Idle)
    case SuspendAll(t) => At(s.(holder := Holder(t)), t, Locking(s.Pc(t).call))
    case LockQueue(t) => At(s.(q := Locked(s.q)), t, Testing(s.Pc(t).call))
    case CheckTimeOut(t, expired) =>
      At(s, t, if expired then UnlockingTx(s.Pc(t).call, Expired) else Checking(s.Pc(t).call))
    case TestAgain(t) =>
      var call := s.Pc(t).call;
      At(s, t, if NoRoom(s.q, call) then Parking(call) else UnlockingTx(call, Retry))
    case Park(t, at) =>
      At(s.(q := AddWaiter(s.q, t, s.Pc(t).call, at)), t, UnlockingTx(s.Pc(t).call, Parked))
    case UnlockTxStep(t) => At(s.(q := UnlockedTx(s.q)), t, UnlockingRx(s.Pc(t).call, s.Pc(t).outcome))
    case UnlockRxStep(t) => At(s.(q := UnlockedRx(s.q)), t, Resuming(s.Pc(t).call, s.Pc(t).outcome))
    case ResumeAll(t) => At(s.(holder := Nobody), t, AfterResume(s.Pc(t).call, s.Pc(t).outcome))
    case Conclude(t) => At(s, t, if s.q.messages == 0 then Idle else Attempting(s.Pc(t).call))
    case InterruptSend(overwrite) => s.(q := IsrSend(s.q, overwrite))
    case InterruptReceive => s.(q := IsrReceive(s.q))
    case Leave(t) => s.(q := s.q.(waitRx := TakenOff(s.q.waitRx, t), waitTx := TakenOff(s.q.waitTx, t)))
  }

  // ----- The invariant --------------------------------------------------------------

  function Pos(lock: int): nat {
    if lock < 0 then 0 else lock
  }

  /** If somebody sleeps waiting to receive, every message is accounted for by a woken task
      that will try again, or by a post the unlocking task has still to pass on. */
  ghost predicate ReceiversAccounted(c: Control) {
    c.waitRx != [] ==> c.messages <= |c.wokenRx| + Pos(c.txLock)
  }

  ghost predicate SendersAccounted(c: Control) {
    c.waitTx != [] ==> c.length - c.messages <= |c.wokenTx| + Pos(c.rxLock)
  }

  /** No task waits twice, and no woken task still waits. */
  ghost predicate Separate(waiting: seq<Task>, woken: set<Task>) {
    NoDup(waiting) && forall t :: t in waiting ==> t !in woken
  }

  ghost predicate Distinct(c: Control) {
    c.messages <= c.length && Separate(c.waitRx, c.wokenRx) && Separate(c.waitTx, c.wokenTx)
  }

  predicate Receiver(c: Control, t: Task) {
    t in c.waitRx || t in c.wokenRx
  }

  predicate Sender(c: Control, t: Task) {
    t in c.waitTx || t in c.wokenTx
  }

  /** What a task that sleeps on a list, or was woken from it, is doing. */
  predicate Asleep(pc: Pc) {
    pc.Attempting? || ((pc.UnlockingTx? || pc.UnlockingRx? || pc.Resuming?) && pc.outcome == Parked)
  }

  ghost predicate CallsMatch(s: System) {
    && (forall t :: Receiver(s.q, t) ==> Asleep(s.Pc(t)) && !s.Pc(t).call.Send?)
    && (forall t :: Sender(s.q, t) ==> Asleep(s.Pc(t)) && s.Pc(t).call == Send(false))
  }

  /** Only a queue of length 1 is overwritten, an overwrite never blocks, and no send looks
      once more when its time is up. */
  ghost predicate OverwritesFit(s: System) {
    && (forall t :: s.Pc(t).Attempting? && s.Pc(t).call == Send(true) ==> s.q.length == 1)
    && (forall t :: Suspender(s.Pc(t)) || s.Pc(t).Refused? ==> s.Pc(t).call != Send(true))
    && (forall t :: s.Pc(t).Concluding? ==> !s.Pc(t).call.Send?)
  }

  predicate Suspender(pc: Pc) {
    pc.Locking? || pc.Testing? || pc.Checking? || pc.Parking? || pc.UnlockingTx? || pc.UnlockingRx? || pc.Resuming?
  }

  ghost predicate LocksMatch(s: System) {
    && (forall t :: Suspender(s.Pc(t)) <==> s.holder == Holder(t))
    && -1 <= s.q.txLock <= 127 && -1 <= s.q.rxLock <= 127
    && match s.holder
       case Nobody => s.q.txLock == UNLOCKED && s.q.rxLock == UNLOCKED
       case Holder(t) =>
         var pc := s.Pc(t);
         && (s.q.txLock == UNLOCKED <==> pc.Locking? || pc.UnlockingRx? || pc.Resuming?)
         && (s.q.rxLock == UNLOCKED <==> pc.Locking? || pc.Resuming?)
         && (pc.Parking? && !pc.call.Send? ==> s.q.messages <= Pos(s.q.txLock))
         && (pc.Parking? && pc.call.Send? ==> s.q.length - s.q.messages <= Pos(s.q.rxLock))
  }

  ghost predicate Inv(s: System) {
    && 0 < s.q.length
    && Distinct(s.q) && ReceiversAccounted(s.q) && SendersAccounted(s.q)
    && CallsMatch(s) && LocksMatch(s) && OverwritesFit(s)
  }

  // ----- Steps of one queue ---------------------------------------------------------

  /** Waking moves tasks from one half of the receivers to the other and does nothing else. */
  ghost predicate SameReceivers(c: Control, d: Control) {
    forall t :: Receiver(d, t) <==> Receiver(c, t)
  }

  ghost predicate SameSenders(c: Control, d: Control) {
    forall t :: Sender(d, t) <==> Sender(c, t)
  }

  lemma WakeRxFacts(c: Control)
    requires Distinct(c)
    ensures Distinct(WakeRx(c)) && SameReceivers(c, WakeRx(c))
    ensures |WakeRx(c).wokenRx| == |c.wokenRx| + (if c.waitRx == [] then 0 else 1)
  {}

  lemma WakeTxFacts(c: Control)
    requires Distinct(c)
    ensures Distinct(WakeTx(c)) && SameSenders(c, WakeTx(c))
    ensures |WakeTx(c).wokenTx| == |c.wokenTx| + (if c.waitTx == [] then 0 else 1)
  {}

  /** Unlocking wakes one task for each counted post, unless the list runs out. */
  lemma {:induction false} DrainRxFacts(c: Control, n: int)
    requires Distinct(c)
    ensures var d := DrainRx(c, n);
            && Distinct(d) && SameReceivers(c, d)
            && d == c.(waitRx := d.waitRx, wokenRx := d.wokenRx)
            && (d.waitRx == [] || |d.wokenRx| == |c.wokenRx| + Pos(n))
    decreases n
  {
    if 0 < n && c.waitRx != [] {
      WakeRxFacts(c);
      DrainRxFacts(WakeRx(c), n - 1);
    }
  }

  lemma {:induction false} DrainTxFacts(c: Control, n: int)
    requires Distinct(c)
    ensures var d := DrainTx(c, n);
            && Distinct(d) && SameSenders(c, d)
            && d == c.(waitTx := d.waitTx, wokenTx := d.wokenTx)
            && (d.waitTx == [] || |d.wokenTx| == |c.wokenTx| + Pos(n))
    decreases n
  {
    if 0 < n && c.waitTx != [] {
      WakeTxFacts(c);
      DrainTxFacts(WakeTx(c), n - 1);
    }
  }

  ghost predicate Accounted(c: Control) {
    0 < c.length && Distinct(c) && ReceiversAccounted(c) && SendersAccounted(c)
  }

  lemma RetriedFacts(c: Control, t: Task)
    requires Distinct(c)
    ensures Distinct(Retried(c, t))
    ensures |Retried(c, t).wokenRx| == |c.wokenRx| - (if t in c.wokenRx then 1 else 0)
    ensures |Retried(c, t).wokenTx| == |c.wokenTx| - (if t in c.wokenTx then 1 else 0)
    ensures forall u :: Receiver(Retried(c, t), u) ==> Receiver(c, u) && (u == t ==> u in c.waitRx)
    ensures forall u :: Sender(Retried(c, t), u) ==> Sender(c, u) && (u == t ==> u in c.waitTx)
  {}

  /** `t` is not asleep, and if it was woken it is making the call it slept in. */
  ghost predicate MayTry(c: Control, t: Task, call: Call) {
    && Accounted(c) && c.txLock == UNLOCKED && c.rxLock == UNLOCKED
    && t !in c.waitRx && t !in c.waitTx
    && (t in c.wokenRx ==> !call.Send?) && (t in c.wokenTx ==> call == Send(false))
    && (call == Send(true) ==> c.length == 1)
  }

  /** The accounts still hold, and `t` has given up its own wake-up. */
  ghost predicate Tried(c: Control, t: Task, d: Control) {
    && Accounted(d)
    && d.length == c.length && d.txLock == c.txLock && d.rxLock == c.rxLock
    && (forall u :: Receiver(d, u) ==> Receiver(c, u) && u != t)
    && (forall u :: Sender(d, u) ==> Sender(c, u) && u != t)
  }

  /** Giving up a wake-up and then waking somebody else only shrinks the two groups. */
  lemma TriedGroups(c: Control, t: Task, r: Control, d: Control)
    requires t !in c.waitRx && t !in c.waitTx
    requires forall u :: Receiver(r, u) ==> Receiver(c, u) && (u == t ==> u in c.waitRx)
    requires forall u :: Sender(r, u) ==> Sender(c, u) && (u == t ==> u in c.waitTx)
    requires SameReceivers(r, d) && SameSenders(r, d)
    ensures forall u :: Receiver(d, u) ==> Receiver(c, u) && u != t
    ensures forall u :: Sender(d, u) ==> Sender(c, u) && u != t
  {}

  lemma SendKeepsAccounts(c: Control, t: Task, overwrite: bool)
    requires MayTry(c, t, Send(overwrite))
    ensures Tried(c, t, TaskSend(c, t, overwrite))
  {
    RetriedFacts(c, t);
    var r := Retried(c, t);
    if CanSend(c, overwrite) {
      var p := Posted(r, overwrite);
      WakeRxFacts(p);
      TriedGroups(c, t, p, WakeRx(p));
    }
  }

  lemma ReceiveKeepsAccounts(c: Control, t: Task)
    requires MayTry(c, t, Receive)
    ensures Tried(c, t, TaskReceive(c, t))
  {
    RetriedFacts(c, t);
    if 0 < c.messages {
      ReceiveLeavesAccounted(c, t);
      ReceiveLeavesGroups(c, t);
    }
  }

  lemma ReceiveLeavesGroups(c: Control, t: Task)
    requires Distinct(c) && t !in c.waitRx && t !in c.waitTx && 0 < c.messages
    ensures var d := TaskReceive(c, t);
            && (forall u :: Receiver(d, u) ==> Receiver(c, u) && u != t)
            && (forall u :: Sender(d, u) ==> Sender(c, u) && u != t)
  {
    hide Receiver, Sender, Distinct, WakeTx;
    var r := Retried(c, t);
    var p := r.(messages := c.messages - 1);
    RetriedFacts(c, t);
    MessagesAside(r, c.messages - 1);
    RoomAside(c, t);
    WakeTxFacts(p);
    WakeTxLeavesReceivers(p);
    TriedGroups(c, t, p, WakeTx(p));
  }

  lemma RoomAside(c: Control, t: Task)
    requires Distinct(c)
    ensures c.messages - 1 <= Retried(c, t).length
  {}

  lemma ReceiveLeavesAccounted(c: Control, t: Task)
    requires MayTry(c, t, Receive) && 0 < c.messages
    ensures var d := TaskReceive(c, t);
            Accounted(d) && d.length == c.length && d.txLock == c.txLock && d.rxLock == c.rxLock
  {}

  lemma WakeTxLeavesReceivers(c: Control)
    ensures SameReceivers(c, WakeTx(c))
  {}

  lemma MessagesAside(r: Control, messages: nat)
    ensures var p := r.(messages := messages);
            && (forall u :: Receiver(p, u) <==> Receiver(r, u)) && (forall u :: Sender(p, u) <==> Sender(r, u))
            && (Distinct(r) && messages <= r.length ==> Distinct(p))
  {}

  lemma PeekKeepsAccounts(c: Control, t: Task)
    requires MayTry(c, t, Peek)
    ensures Tried(c, t, TaskPeek(c, t))
  {
    RetriedFacts(c, t);
    var r := Retried(c, t);
    if 0 < c.messages {
      WakeRxFacts(r);
      TriedGroups(c, t, r, WakeRx(r));
    }
  }

  lemma AttemptKeepsAccounts(c: Control, t: Task, call: Call)
    requires MayTry(c, t, call)
    ensures Tried(c, t, TryCall(c, t, call))
  {
    match call
    case Send(overwrite) => SendKeepsAccounts(c, t, overwrite);
    case Receive => ReceiveKeepsAccounts(c, t);
    case Peek => PeekKeepsAccounts(c, t);
  }

  lemma PostKeepsAccounts(c: Control, overwrite: bool)
    requires Accounted(c) && (overwrite ==> c.length == 1) && -1 <= c.txLock <= 127
    requires CanSend(c, overwrite) ==> c.txLock < 127
    ensures var d := IsrSend(c, overwrite);
            Accounted(d) && SameReceivers(c, d) && SameSenders(c, d)
  {
    if CanSend(c, overwrite) { WakeRxFacts(Posted(c, overwrite)); }
  }

  lemma RemovalKeepsAccounts(c: Control)
    requires Accounted(c) && -1 <= c.rxLock <= 127 && (0 < c.messages ==> c.rxLock < 127)
    ensures var d := IsrReceive(c);
            Accounted(d) && SameReceivers(c, d) && SameSenders(c, d)
  {
    if 0 < c.messages { WakeTxFacts(c.(messages := c.messages - 1)); }
  }

  // ----- Steps of the system --------------------------------------------------------

  /** An interrupt that does post (or remove) finds a counter below the largest int8_t. */
  predicate WithinCount(s: System, step: Step) {
    && (step.InterruptSend? && CanSend(s.q, step.overwrite) ==> s.q.txLock < 127)
    && (step.InterruptReceive? && 0 < s.q.messages ==> s.q.rxLock < 127)
  }

  lemma PcAfter(s: System, t: Task, pc: Pc)
    ensures At(s, t, pc).Pc(t) == pc && forall u :: u != t ==> At(s, t, pc).Pc(u) == s.Pc(u)
  {}

  lemma AttemptKeepsCalls(s: System, t: Task, d: Control, pc: Pc)
    requires CallsMatch(s) && Tried(s.q, t, d)
    ensures CallsMatch(At(s.(q := d), t, pc))
  {}

  lemma AttemptKeepsInv(s: System, step: Step)
    requires Inv(s) && step.Attempt? && Enabled(s, step)
    ensures Inv(Apply(s, step))
  {
    var t, r := step.t, Apply(s, step);
    AttemptKeepsAccounts(s.q, t, s.Pc(t).call);
    AttemptKeepsCalls(s, t, r.q, r.Pc(t));
    PcAfter(s.(q := r.q), t, r.Pc(t));
    assert LocksMatch(r);
    assert OverwritesFit(r);
  }

  lemma LocalStepKeepsInv(s: System, step: Step)
    requires Inv(s) && Enabled(s, step)
    requires step.Begin? || step.SuspendAll? || step.CheckTimeOut? || step.TestAgain? || step.ResumeAll?
        || step.Conclude?
    ensures Inv(Apply(s, step))
  {
    var r := Apply(s, step);
    assert r.q == s.q;
    assert forall u :: u != step.t ==> r.Pc(u) == s.Pc(u);
  }

  lemma LockKeepsInv(s: System, step: Step)
    requires Inv(s) && step.LockQueue? && Enabled(s, step)
    ensures Inv(Apply(s, step))
  {
    var r := Apply(s, step);
    assert SameReceivers(s.q, r.q) && SameSenders(s.q, r.q);
    assert forall u :: u != step.t ==> r.Pc(u) == s.Pc(u);
  }

  lemma InsertedFacts(waiting: seq<Task>, woken: set<Task>, t: Task, at: nat)
    requires Separate(waiting, woken) && t !in waiting && t !in woken
    ensures Separate(Inserted(waiting, t, at), woken)
    ensures forall u :: u in Inserted(waiting, t, at) <==> u == t || u in waiting
  {}

  lemma ParkKeepsInv(s: System, step: Step)
    requires Inv(s) && step.Park? && Enabled(s, step)
    ensures Inv(Apply(s, step))
  {
    var t, r := step.t, Apply(s, step);
    assert !Receiver(s.q, t) && !Sender(s.q, t);
    assert forall u :: u != t ==> r.Pc(u) == s.Pc(u);
    if s.Pc(t).call.Send? {
      InsertedFacts(s.q.waitTx, s.q.wokenTx, t, step.at);
    } else {
      InsertedFacts(s.q.waitRx, s.q.wokenRx, t, step.at);
    }
  }

  lemma UnlockKeepsInv(s: System, step: Step)
    requires Inv(s) && (step.UnlockTxStep? || step.UnlockRxStep?) && Enabled(s, step)
    ensures Inv(Apply(s, step))
  {
    var r := Apply(s, step);
    assert forall u :: u != step.t ==> r.Pc(u) == s.Pc(u);
    if step.UnlockTxStep? {
      DrainRxFacts(s.q, s.q.txLock);
      assert SameReceivers(s.q, r.q) && SameSenders(s.q, r.q);
    } else {
      DrainTxFacts(s.q, s.q.rxLock);
      assert SameReceivers(s.q, r.q) && SameSenders(s.q, r.q);
    }
  }

  lemma {:induction false} TakenOffFacts(waiting: seq<Task>, t: Task)
    requires NoDup(waiting)
    ensures NoDup(TakenOff(waiting, t))
    ensures forall u :: u in TakenOff(waiting, t) <==> u in waiting && u != t
  {
    if waiting != [] {
      assert waiting == [waiting[0]] + waiting[1..];
      TakenOffFacts(waiting[1..], t);
      assert waiting[0] !in TakenOff(waiting[1..], t);
    }
  }

  lemma LeaveKeepsInv(s: System, step: Step)
    requires Inv(s) && step.Leave? && Enabled(s, step)
    ensures Inv(Apply(s, step))
  {
    TakenOffFacts(s.q.waitRx, step.t);
    TakenOffFacts(s.q.waitTx, step.t);
    var r := Apply(s, step);
    assert forall u :: r.Pc(u) == s.Pc(u);
    assert forall u :: Receiver(r.q, u) ==> Receiver(s.q, u);
    assert forall u :: Sender(r.q, u) ==> Sender(s.q, u);
  }

  lemma InterruptKeepsInv(s: System, step: Step)
    requires Inv(s) && (step.InterruptSend? || step.InterruptReceive?) && Enabled(s, step)
    requires WithinCount(s, step)
    ensures Inv(Apply(s, step))
  {
    var r := Apply(s, step);
    assert forall u :: r.Pc(u) == s.Pc(u);
    if step.InterruptSend? {
      PostKeepsAccounts(s.q, step.overwrite);
    } else {
      RemovalKeepsAccounts(s.q);
    }
  }

  lemma StepKeepsInv(s: System, step: Step)
    requires Inv(s) && Enabled(s, step) && WithinCount(s, step)
    ensures Inv(Apply(s, step))
  {
    match step
    case Attempt(_, _) => AttemptKeepsInv(s, step);
    case LockQueue(_) => LockKeepsInv(s, step);
    case Park(_, _) => ParkKeepsInv(s, step);
    case UnlockTxStep(_) => UnlockKeepsInv(s, step);
    case UnlockRxStep(_) => UnlockKeepsInv(s, step);
    case Leave(_) => LeaveKeepsInv(s, step);
    case InterruptSend(_) => InterruptKeepsInv(s, step);
    case InterruptReceive => InterruptKeepsInv(s, step);
    case _ => LocalStepKeepsInv(s, step);
  }

  // ----- Runs -----------------------------------------------------------------------

  function Fresh(length: nat): System {
    System(Control(length, 0, UNLOCKED, UNLOCKED, [], [], {}, {}), map[], Nobody)
  }

  ghost predicate Possible(s: System, steps: seq<Step>)
    decreases |steps|
  {
    steps == [] || (Enabled(s, steps[0]) && Possible(Apply(s, steps[0]), steps[1..]))
  }

  ghost predicate CountsFit(s: System, steps: seq<Step>)
    requires Possible(s, steps)
    decreases |steps|
  {
    steps == [] || (WithinCount(s, steps[0]) && CountsFit(Apply(s, steps[0]), steps[1..]))
  }

  ghost function Run(s: System, steps: seq<Step>): System
    requires Possible(s, steps)
    decreases |steps|
  {
    if steps == [] then s else Run(Apply(s, steps[0]), steps[1..])
  }

  lemma {:induction false} RunKeepsInv(s: System, steps: seq<Step>)
    requires Inv(s) && Possible(s, steps) && CountsFit(s, steps)
    ensures Inv(Run(s, steps))
    decreases |steps|
  {
    if steps != [] {
      StepKeepsInv(s, steps[0]);
      RunKeepsInv(Apply(s, steps[0]), steps[1..]);
    }
  }

  /** No lost wake-up. Over every run of a new queue in which no lock interval overruns the
      int8_t counters: a task sleeps waiting to receive only while the messages are matched
      by woken tasks and counted posts, and once the queue is unlocked and the woken tasks
      have tried again, nobody sleeps on a queue it could use. */
  lemma NoLostWakeUp(length: nat, steps: seq<Step>)
    requires 0 < length && Possible(Fresh(length), steps) && CountsFit(Fresh(length), steps)
    ensures var s := Run(Fresh(length), steps);
            && (s.q.waitRx != [] ==> s.q.messages <= |s.q.wokenRx| + Pos(s.q.txLock))
            && (s.q.waitTx != [] ==> s.q.length - s.q.messages <= |s.q.wokenTx| + Pos(s.q.rxLock))
            && (s.holder == Nobody && s.q.wokenRx == {} && s.q.waitRx != [] ==> s.q.messages == 0)
            && (s.holder == Nobody && s.q.wokenTx == {} && s.q.waitTx != [] ==> s.q.messages == s.q.length)
  {
    RunKeepsInv(Fresh(length), steps);
  }

  // ----- The counters are int8_t ----------------------------------------------------

  /** A post by an interrupt keeps the accounts of sleepers, messages and wake-ups right
      exactly when the count can still go up, or nothing is posted, or nobody sleeps, or
      woken tasks alone match the messages. */
  lemma PostKeepsAccountsExactly(s: System, overwrite: bool)
    requires Inv(s) && Enabled(s, InterruptSend(overwrite))
    ensures Accounted(Apply(s, InterruptSend(overwrite)).q) <==>
      || s.q.txLock < 127 || !CanSend(s.q, overwrite)
      || s.q.waitRx == [] || Posted(s.q, overwrite).messages <= |s.q.wokenRx|
  {
    if s.q.txLock < 127 || !CanSend(s.q, overwrite) { PostKeepsAccounts(s.q, overwrite); }
  }

  /** The same for an interrupt that receives. */
  lemma RemovalKeepsAccountsExactly(s: System)
    requires Inv(s)
    ensures Accounted(Apply(s, InterruptReceive).q) <==>
      || s.q.rxLock < 127 || s.q.messages == 0
      || s.q.waitTx == [] || s.q.length - s.q.messages < |s.q.wokenTx|
  {
    if s.q.rxLock < 127 || s.q.messages == 0 { RemovalKeepsAccounts(s.q); }
  }

  /** A receiver that has parked itself on a queue of `length`, still holding the lock,
      after `n` interrupts have posted. */
  function ParkedUnderPosts(length: nat, n: nat): System {
    System(Control(length, n, n, 0, [0], [], {}, {}), map[0 := UnlockingTx(Receive, Parked)], Holder(0))
  }

  lemma ParkedUnderPostsInv(length: nat, n: nat)
    requires 0 < length && n <= length && n <= 127
    ensures Inv(ParkedUnderPosts(length, n))
  {
    assert ParkedUnderPosts(length, n).Pc(0) == UnlockingTx(Receive, Parked);
  }

  /** Knowing the lock count alone, a post loses no wake-up exactly when the count is below
      the largest int8_t. */
  lemma PostIsSafeBelowTheLimit(count: int)
    requires -1 <= count <= 127
    ensures (forall s: System | Inv(s) && s.q.txLock == count ::
              Accounted(Apply(s, InterruptSend(false)).q)) <==> count < 127
  {
    hide Inv, Accounted, Apply;
    if count == 127 {
      var s := ParkedUnderPosts(128, 127);
      ParkedUnderPostsInv(128, 127);
      PostKeepsAccountsExactly(s, false);
    } else {
      forall s: System | Inv(s) && s.q.txLock == count ensures Accounted(Apply(s, InterruptSend(false)).q) {
        PostKeepsAccountsExactly(s, false);
      }
    }
  }

  /** A sender that has parked itself on a full queue of `length`, still holding the lock,
      after `n` interrupts have received. */
  function ParkedUnderRemovals(length: nat, n: nat): System
    requires n <= length
  {
    System(Control(length, length - n, 0, n, [], [0], {}, {}), map[0 := UnlockingTx(Send(false), Parked)], Holder(0))
  }

  lemma ParkedUnderRemovalsInv(length: nat, n: nat)
    requires 0 < length && n <= length && n <= 127
    ensures Inv(ParkedUnderRemovals(length, n))
  {
    assert ParkedUnderRemovals(length, n).Pc(0) == UnlockingTx(Send(false), Parked);
  }

  /** The same limit holds for an interrupt that receives. */
  lemma RemovalIsSafeBelowTheLimit(count: int)
    requires -1 <= count <= 127
    ensures (forall s: System | Inv(s) && s.q.rxLock == count ::
              Accounted(Apply(s, InterruptReceive).q)) <==> count < 127
  {
    hide Inv, Accounted, Apply;
    if count == 127 {
      var s := ParkedUnderRemovals(128, 127);
      ParkedUnderRemovalsInv(128, 127);
      RemovalKeepsAccountsExactly(s);
    } else {
      forall s: System | Inv(s) && s.q.rxLock == count ensures Accounted(Apply(s, InterruptReceive).q) {
        RemovalKeepsAccountsExactly(s);
      }
    }
  }

  lemma {:induction false} RunAppend(s: System, a: seq<Step>, b: seq<Step>)
    requires Possible(s, a) && Possible(Run(s, a), b)
    ensures Possible(s, a + b) && Run(s, a + b) == Run(Run(s, a), b)
    decreases |a|
  {
    if a == [] {
      assert a + b == b;
    } else {
      assert (a + b)[1..] == a[1..] + b;
      RunAppend(Apply(s, a[0]), a[1..], b);
    }
  }

  ghost predicate Reaches(s: System, r: System) {
    exists steps :: Possible(s, steps) && Run(s, steps) == r
  }

  lemma Extend(s: System, r: System, step: Step, next: System)
    requires Reaches(s, r) && Enabled(r, step) && next == Apply(r, step)
    ensures Reaches(s, next)
  {
    var steps :| Possible(s, steps) && Run(s, steps) == r;
    assert [step][1..] == [];
    assert Possible(next, []);
    RunAppend(s, steps, [step]);
    assert Possible(s, steps + [step]) && Run(s, steps + [step]) == next;
  }

  /** Task 0 alone on the queue `c`. */
  function Alone(c: Control, pc: Pc, holder: Holder): System {
    System(c, map[0 := pc], holder)
  }

  lemma AloneAt(c: Control, pc: Pc, holder: Holder, next: Pc)
    ensures Alone(c, pc, holder).Pc(0) == pc
    ensures At(Alone(c, pc, holder), 0, next) == Alone(c, next, holder)
  {}

  /** One step of task 0, or of an interrupt, on the queue it has to itself. */
  lemma ExtendAlone(c: Control, pc: Pc, holder: Holder, step: Step, c': Control, pc': Pc, holder': Holder)
    requires Reaches(Fresh(128), Alone(c, pc, holder)) && Enabled(Alone(c, pc, holder), step)
    requires Apply(Alone(c, pc, holder), step) == At(Alone(c', pc, holder'), 0, pc')
    ensures Reaches(Fresh(128), Alone(c', pc', holder'))
  {
    AloneAt(c', pc, holder', pc');
    Extend(Fresh(128), Alone(c, pc, holder), step, Alone(c', pc', holder'));
  }

  lemma ReachTesting()
    ensures Reaches(Fresh(128), Alone(Fresh(128).q.(txLock := 0, rxLock := 0), Testing(Receive), Holder(0)))
  {
    var f := Fresh(128);
    assert Reaches(f, f) by { assert Possible(f, []) && Run(f, []) == f; }
    Extend(f, f, Begin(0, Receive), Alone(f.q, Attempting(Receive), Nobody));
    var locked := f.q.(txLock := 0, rxLock := 0);
    ExtendAlone(f.q, Attempting(Receive), Nobody, Attempt(0, true), f.q, Refused(Receive), Nobody);
    ExtendAlone(f.q, Refused(Receive), Nobody, SuspendAll(0), f.q, Locking(Receive), Holder(0));
    ExtendAlone(f.q, Locking(Receive), Holder(0), LockQueue(0), locked, Testing(Receive), Holder(0));
  }

  lemma ReachParking()
    ensures Reaches(Fresh(128), Alone(Fresh(128).q.(txLock := 0, rxLock := 0), Parking(Receive), Holder(0)))
  {
    hide Reaches;
    ReachTesting();
    var locked := Fresh(128).q.(txLock := 0, rxLock := 0);
    ExtendAlone(locked, Testing(Receive), Holder(0), CheckTimeOut(0, false), locked, Checking(Receive), Holder(0));
    ExtendAlone(locked, Checking(Receive), Holder(0), TestAgain(0), locked, Parking(Receive), Holder(0));
  }

  lemma ReachParked()
    ensures Reaches(Fresh(128), ParkedUnderPosts(128, 0))
  {
    hide Reaches;
    ReachParking();
    var locked := Fresh(128).q.(txLock := 0, rxLock := 0);
    ExtendAlone(locked, Parking(Receive), Holder(0), Park(0, 0), locked.(waitRx := [0]),
      UnlockingTx(Receive, Parked), Holder(0));
  }

  lemma {:induction false} ReachPosts(n: nat)
    requires n <= 127
    ensures Reaches(Fresh(128), ParkedUnderPosts(128, n))
  {
    hide Reaches;
    if n == 0 {
      ReachParked();
    } else {
      ReachPosts(n - 1);
      Extend(Fresh(128), ParkedUnderPosts(128, n - 1), InterruptSend(false), ParkedUnderPosts(128, n));
    }
  }

  /** A whole run of a queue of length 128 that loses a wake-up: a receiver parks, 128
      interrupts post before it unlocks, the counter wraps to -128, unlocking wakes nobody,
      and the receiver stays asleep on an unlocked, full queue. */
  lemma TooManyPostsLoseAWakeUp()
    ensures Reaches(Fresh(128), Alone(Control(128, 128, UNLOCKED, UNLOCKED, [0], [], {}, {}), Attempting(Receive),
        Nobody))
  {
    hide Reaches;
    ReachPosts(127);
    var parked := UnlockingTx(Receive, Parked);
    var wrapped := Control(128, 128, -128, 0, [0], [], {}, {});
    var asleep := Control(128, 128, UNLOCKED, UNLOCKED, [0], [], {}, {});
    Extend(Fresh(128), ParkedUnderPosts(128, 127), InterruptSend(false), Alone(wrapped, parked, Holder(0)));
    ExtendAlone(wrapped, parked, Holder(0), UnlockTxStep(0), wrapped.(txLock := UNLOCKED),
      UnlockingRx(Receive, Parked), Holder(0));
    ExtendAlone(wrapped.(txLock := UNLOCKED), UnlockingRx(Receive, Parked), Holder(0), UnlockRxStep(0), asleep,
      Resuming(Receive, Parked), Holder(0));
    ExtendAlone(asleep, Resuming(Receive, Parked), Holder(0), ResumeAll(0), asleep, Attempting(Receive), Nobody);
  }
}