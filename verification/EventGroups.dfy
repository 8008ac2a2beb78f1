/** Event groups: waiters, the traversal that releases them, and what they return. */
module EventGroups {
  import opened KernelLists
  import opened EventBits
  import opened ListHeap

  /** The group's bits, its waiting list in order, and the event item values of the tasks. */
  datatype Group = Group(bits: Bits, waiting: seq<Task>, value: map<Task, Bits>) {
    function Val(t: Task): Bits {
      if t in value then value[t] else NONE
    }

    function WishOf(t: Task): Wish {
      Unpack(Val(t))
    }
  }

  // ----- What setting bits does -----------------------------------------------------

  /** The waiters that bits `s` do not release, in order. */
  function Stay(g: Group, ts: seq<Task>, s: Bits): seq<Task> {
    if ts == [] then []
    else
      var rest, t := Stay(g, ts[..|ts| - 1], s), ts[|ts| - 1];
      if Meets(s, g.WishOf(t)) then rest else rest + [t]
  }

  /** The masks of the released waiters that clear on exit, together. */
  function ToClear(g: Group, ts: seq<Task>, s: Bits): Bits {
    if ts == [] then NONE
    else
      var rest, w := ToClear(g, ts[..|ts| - 1], s), g.WishOf(ts[|ts| - 1]);
      if Meets(s, w) && w.clear then With(rest, w.mask) else rest
  }

  /** The event item values once the released waiters have found their answer. */
  function Posted(g: Group, ts: seq<Task>, s: Bits): map<Task, Bits> {
    if ts == [] then g.value
    else
      var rest, t := Posted(g, ts[..|ts| - 1], s), ts[|ts| - 1];
      if Meets(s, g.WishOf(t)) then rest[t := Release(s)] else rest
  }

  /** xEventGroupSetBits. */
  function SetBits(g: Group, bits: Bits): Group {
    var s := With(g.bits, bits);
    Group(Without(s, ToClear(g, g.waiting, s)), Stay(g, g.waiting, s), Posted(g, g.waiting, s))
  }

  // ----- The other operations -------------------------------------------------------

  /** The group, whether the task blocks, and otherwise what its call returns. */
  datatype Outcome = Outcome(g: Group, blocked: bool, result: Bits)

  function Enqueue(g: Group, t: Task, w: Wish): Group {
    g.(waiting := g.waiting + [t], value := g.value[t := Pack(w)])
  }

  function Consume(g: Group, w: Wish): Group {
    if w.clear then g.(bits := Without(g.bits, w.mask)) else g
  }

  /** xEventGroupWaitBits up to the point where the task may block. */
  function WaitBits(g: Group, t: Task, w: Wish, ticks: nat): Outcome {
    if Meets(g.bits, w) then Outcome(Consume(g, w), false, g.bits)
    else if ticks == 0 then Outcome(g, false, g.bits)
    else Outcome(Enqueue(g, t, w), true, NONE)
  }

  function SyncWish(mask: Bits): Wish {
    Wish(mask, true, true)
  }

  /** xEventGroupSync up to the point where the task may block. */
  function Sync(g: Group, t: Task, bits: Bits, mask: Bits, ticks: nat): Outcome {
    var n, s := SetBits(g, bits), With(g.bits, bits);
    if Meets(s, SyncWish(mask)) then Outcome(n.(bits := Without(n.bits, mask)), false, s)
    else if ticks == 0 then Outcome(n, false, n.bits)
    else Outcome(Enqueue(n, t, SyncWish(mask)), true, NONE)
  }

  /** Both calls after the task has run again: it resets its event item value, and if it was
      not released it tests the bits once more. */
  function Leave(g: Group, t: Task, w: Wish, priorityValue: Bits): Outcome {
    var v, n := g.Val(t), g.(value := g.value[t := priorityValue]);
    if WasReleased(v) then Outcome(n, false, Stripped(v))
    else if Meets(g.bits, w) then Outcome(Consume(n, w), false, Stripped(g.bits))
    else Outcome(n, false, Stripped(g.bits))
  }

  /** xEventGroupClearBits. */
  function ClearBits(g: Group, bits: Bits): Group {
    g.(bits := Without(g.bits, bits))
  }

  /** The tick or a suspension takes a waiter off the list; its item value stays. */
  function TimeOut(g: Group, t: Task): Group {
    if t in g.waiting then g.(waiting := KList(g.waiting, 0).Remove(t).items) else g
  }

  /** The scheduler's priority calls write an event item value unless it is in use. */
  function Reprioritise(g: Group, t: Task, priorityValue: Bits): Group {
    if !InUse(g.Val(t)) then g.(value := g.value[t := priorityValue]) else g
  }

  /** vEventGroupDelete: everybody is released with no bits. */
  function Delete(g: Group): Group {
    g.(waiting := [], value := map t | t in g.value.Keys + (set u | u in g.waiting) ::
                                 if t in g.waiting then Release(NONE) else g.Val(t))
  }

  datatype Call =
    | Set(bits: Bits)
    | Wait(task: Task, wish: Wish, ticks: nat)
    | Rendezvous(task: Task, bits: Bits, mask: Bits, ticks: nat)
    | Left(task: Task, wish: Wish, priorityValue: Bits)
    | Clear(bits: Bits)
    | TimedOut(task: Task)
    | NewPriority(task: Task, priorityValue: Bits)
    | Deleted

  /** The assertions of the calls; and a task that waits makes no calls. */
  predicate Allowed(g: Group, c: Call) {
    match c
    case Set(bits) => Plain(bits)
    case Wait(t, w, _) => t !in g.waiting && w.Valid()
    case Rendezvous(t, bits, mask, _) => t !in g.waiting && Plain(bits) && SyncWish(mask).Valid()
    case Left(t, w, v) => t !in g.waiting && w.Valid() && !InUse(v)
    case Clear(bits) => Plain(bits)
    case NewPriority(_, v) => !InUse(v)
    case _ => true
  }

  function After(g: Group, c: Call): Group {
    match c
    case Set(bits) => SetBits(g, bits)
    case Wait(t, w, ticks) => WaitBits(g, t, w, ticks).g
    case Rendezvous(t, bits, mask, ticks) => Sync(g, t, bits, mask, ticks).g
    case Left(t, w, v) => Leave(g, t, w, v).g
    case Clear(bits) => ClearBits(g, bits)
    case TimedOut(t) => TimeOut(g, t)
    case NewPriority(t, v) => Reprioritise(g, t, v)
    case Deleted => Delete(g)
  }

  // ----- The invariant --------------------------------------------------------------

  ghost predicate Waits(g: Group, t: Task) {
    g.WishOf(t).Valid() && g.Val(t) == Pack(g.WishOf(t))
  }

  /** Nobody on the list has a wish that the bits fulfil. */
  ghost predicate Inv(g: Group) {
    && NoDup(g.waiting) && Plain(g.bits)
    && (forall t :: t in g.waiting ==> Waits(g, t))
    && (forall t :: t in g.waiting ==> !Meets(g.bits, g.WishOf(t)))
  }

  lemma {:induction false} StayFacts(g: Group, ts: seq<Task>, s: Bits)
    requires NoDup(ts)
    ensures NoDup(Stay(g, ts, s))
    ensures forall t :: t in Stay(g, ts, s) <==> t in ts && !Meets(s, g.WishOf(t))
  {
    hide Meets, With, Without, InUse, WasReleased, Release, Stripped, Within;
    if ts != [] {
      var front, t := ts[..|ts| - 1], ts[|ts| - 1];
      assert ts == front + [t];
      StayFacts(g, front, s);
      assert t !in front;
    }
  }

  lemma {:induction false} PostedFacts(g: Group, ts: seq<Task>, s: Bits)
    ensures var v := Posted(g, ts, s);
            forall t :: (if t in v then v[t] else NONE) ==
              if t in ts && Meets(s, g.WishOf(t)) then Release(s) else g.Val(t)
  {
    hide Meets, Unpack, Release;
    if ts != [] {
      assert ts == ts[..|ts| - 1] + [ts[|ts| - 1]];
      PostedFacts(g, ts[..|ts| - 1], s);
    }
  }

  lemma SetKeepsInv(g: Group, bits: Bits)
    requires Inv(g) && Plain(bits)
    ensures Inv(SetBits(g, bits))
  {
    hide Meets, Plain, Unpack, Pack, Stay, ToClear, With, Without, InUse, WasReleased, Release, Stripped, Within;
    var n, s := SetBits(g, bits), With(g.bits, bits);
    var c := ToClear(g, g.waiting, s);
    StayFacts(g, g.waiting, s);
    PostedFacts(g, g.waiting, s);
    PlainOps(g.bits, bits, NONE);
    PlainOps(s, s, c);
    forall t | t in n.waiting ensures Waits(n, t) && !Meets(n.bits, n.WishOf(t)) {
      assert t in g.waiting && n.Val(t) == g.Val(t);
      if Meets(n.bits, n.WishOf(t)) {
        MeetsIsMonotone(n.bits, s, n.WishOf(t));
      }
    }
  }

  lemma FewerBitsKeepInv(g: Group, c: Bits)
    requires Inv(g)
    ensures Inv(g.(bits := Without(g.bits, c)))
  {
    hide Meets, Plain, Unpack, Pack, With, Without, InUse, WasReleased, Release, Stripped, Within;
    var n := g.(bits := Without(g.bits, c));
    PlainOps(g.bits, g.bits, c);
    forall t | t in n.waiting ensures !Meets(n.bits, n.WishOf(t)) {
      if Meets(n.bits, n.WishOf(t)) {
        MeetsIsMonotone(n.bits, g.bits, n.WishOf(t));
      }
    }
  }

  lemma EnqueueKeepsInv(g: Group, t: Task, w: Wish)
    requires Inv(g) && t !in g.waiting && w.Valid() && !Meets(g.bits, w)
    ensures Inv(Enqueue(g, t, w))
  {
    PackRoundTrip(w);
    hide Meets, Plain, Unpack, Pack, With, Without, InUse, WasReleased, Release, Stripped, Within;
    var n := Enqueue(g, t, w);
    forall u | u in n.waiting ensures Waits(n, u) && !Meets(n.bits, n.WishOf(u)) {
      assert u == t || u in g.waiting;
    }
  }

  lemma ValueKeepsInv(g: Group, t: Task, v: Bits)
    requires Inv(g) && t !in g.waiting
    ensures Inv(g.(value := g.value[t := v]))
  {}

  lemma TimeOutKeepsInv(g: Group, t: Task)
    requires Inv(g)
    ensures Inv(TimeOut(g, t))
  {
    hide Meets, Plain, Unpack, Pack, With, Without, InUse, WasReleased, Release, Stripped, Within;
    if t in g.waiting {
      RemoveFacts(KList(g.waiting, 0), t);
      var n := TimeOut(g, t);
      forall u | u in n.waiting ensures Waits(n, u) && !Meets(n.bits, n.WishOf(u)) {
        assert u in g.waiting && n.Val(u) == g.Val(u);
      }
    }
  }

  lemma WaitersAreInUse(g: Group, t: Task)
    requires Inv(g) && t in g.waiting
    ensures InUse(g.Val(t)) && !WasReleased(g.Val(t))
  {}

  /** In every state between calls no waiter has its wish fulfilled: all calls, both kinds of
      timeout and the scheduler's own writes keep it so. */
  lemma CallKeepsInv(g: Group, c: Call)
    requires Inv(g) && Allowed(g, c)
    ensures Inv(After(g, c))
  {
    hide Inv, Meets, Plain, Unpack, Pack, SetBits, With, Without, InUse, WasReleased, Release, Stripped, Within;
    match c {
      case Set(bits) => SetKeepsInv(g, bits);
      case Wait(t, w, ticks) =>
        if Meets(g.bits, w) { FewerBitsKeepInv(g, w.mask); }
        else if ticks != 0 { EnqueueKeepsInv(g, t, w); }
      case Rendezvous(t, bits, mask, ticks) => SyncKeepsInv(g, t, bits, mask, ticks);
      case Left(t, w, v) =>
        ValueKeepsInv(g, t, v);
        FewerBitsKeepInv(g.(value := g.value[t := v]), w.mask);
      case Clear(bits) => FewerBitsKeepInv(g, bits);
      case TimedOut(t) => TimeOutKeepsInv(g, t);
      case NewPriority(t, v) =>
        if t in g.waiting { WaitersAreInUse(g, t); } else { ValueKeepsInv(g, t, v); }
      case Deleted => DeleteKeepsInv(g);
    }
  }

  lemma DeleteKeepsInv(g: Group)
    requires Inv(g)
    ensures Inv(Delete(g))
  {}

  lemma SyncKeepsInv(g: Group, t: Task, bits: Bits, mask: Bits, ticks: nat)
    requires Inv(g) && t !in g.waiting && Plain(bits) && SyncWish(mask).Valid()
    ensures Inv(Sync(g, t, bits, mask, ticks).g)
  {
    hide Inv, Meets, Plain, Unpack, Pack, With, Without, InUse, WasReleased, Release, Stripped, Within;
    var n, s := SetBits(g, bits), With(g.bits, bits);
    SetKeepsInv(g, bits);
    if Meets(s, SyncWish(mask)) {
      FewerBitsKeepInv(n, mask);
    } else if ticks != 0 {
      AfterSet(g, bits, t, SyncWish(mask));
      EnqueueKeepsInv(n, t, SyncWish(mask));
    }
  }

  lemma AfterSet(g: Group, bits: Bits, t: Task, w: Wish)
    requires Inv(g) && t !in g.waiting && Plain(bits) && !Meets(With(g.bits, bits), w)
    ensures t !in SetBits(g, bits).waiting && !Meets(SetBits(g, bits).bits, w)
  {
    hide Meets, Plain, Unpack, Pack, Stay, ToClear, With, Without, InUse, WasReleased, Release, Stripped, Within;
    var n, s := SetBits(g, bits), With(g.bits, bits);
    StayFacts(g, g.waiting, s);
    PostedFacts(g, g.waiting, s);
    PlainOps(g.bits, bits, NONE);
    PlainOps(s, s, ToClear(g, g.waiting, s));
    if Meets(n.bits, w) { MeetsIsMonotone(n.bits, s, w); }
  }

  function Result(g: Group, calls: seq<Call>): Group
    decreases |calls|
  {
    if calls == [] then g else Result(After(g, calls[0]), calls[1..])
  }

  predicate AllAllowed(g: Group, calls: seq<Call>)
    decreases |calls|
  {
    calls == [] || (Allowed(g, calls[0]) && AllAllowed(After(g, calls[0]), calls[1..]))
  }

  lemma {:induction false} NoSatisfiedWaiterSleeps(g: Group, calls: seq<Call>)
    requires Inv(g) && AllAllowed(g, calls)
    ensures Inv(Result(g, calls))
    decreases |calls|
  {
    hide Inv, Allowed, After;
    if calls != [] {
      CallKeepsInv(g, calls[0]);
      NoSatisfiedWaiterSleeps(After(g, calls[0]), calls[1..]);
    }
  }

  /** And so over every run of a new group. */
  lemma ReachableGroup(calls: seq<Call>)
    requires AllAllowed(Group(NONE, [], map[]), calls)
    ensures Inv(Result(Group(NONE, [], map[]), calls))
  {
    hide Result, AllAllowed;
    NothingIsPlain();
    NoSatisfiedWaiterSleeps(Group(NONE, [], map[]), calls);
  }
}
