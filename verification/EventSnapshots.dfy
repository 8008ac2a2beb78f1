/** Setting bits works on one snapshot of the bits, whatever the order of the waiting list;
    what a released task returns; and how a rendezvous of several tasks ends. */
module EventSnapshots {
  import opened KernelLists
  import opened EventBits
  import opened ListHeap
  import opened EventGroups

  predicate Releases(g: Group, s: Bits, t: Task) {
    t in g.waiting && Meets(s, g.WishOf(t))
  }

  /** The bits that some released waiter clears on exit: nothing is said about an order. */
  ghost predicate ClearedBy(g: Group, s: Bits, c: Bits) {
    forall b: Bits :: Apart(b, c) <==> (forall t :: Releases(g, s, t) && g.WishOf(t).clear ==>
      Apart(b, g.WishOf(t).mask))
  }

  lemma {:induction false} ToClearMeets(g: Group, ts: seq<Task>, s: Bits, b: Bits)
    ensures Apart(b, ToClear(g, ts, s)) <==>
      forall t :: t in ts && Meets(s, g.WishOf(t)) && g.WishOf(t).clear ==> Apart(b, g.WishOf(t).mask)
  {
    hide Meets, Unpack, Apart, With;
    if ts == [] {
      ApartFromBoth(b, NONE, NONE);
    } else {
      var front, t := ts[..|ts| - 1], ts[|ts| - 1];
      assert ts == front + [t];
      ToClearMeets(g, front, s, b);
      ApartFromBoth(b, ToClear(g, front, s), g.WishOf(t).mask);
    }
  }

  lemma ClearedByIsUnique(g: Group, s: Bits, c: Bits, d: Bits)
    requires ClearedBy(g, s, c) && ClearedBy(g, s, d)
    ensures c == d
  {
    hide Releases, Apart, Complement;
    assert Apart(Complement(c), c) <==> Apart(Complement(c), d);
    assert Apart(Complement(d), d) <==> Apart(Complement(d), c);
    ApartDetermines(c, d);
  }

  /** With `s` the old bits and the new ones together, setting bits releases exactly the
      waiters that `s` satisfies, each with the value `s`; the others keep their place; and
      what is left of `s` is without the masks of the released waiters that clear on exit. */
  lemma SetMeetsSnapshot(g: Group, bits: Bits)
    requires Inv(g) && Plain(bits)
    ensures var s, n := With(g.bits, bits), SetBits(g, bits);
            && (forall t :: t in n.waiting <==> t in g.waiting && !Meets(s, g.WishOf(t)))
            && (forall t :: Releases(g, s, t) ==> n.Val(t) == Release(s))
            && (forall t :: !Releases(g, s, t) ==> n.Val(t) == g.Val(t))
            && (exists c :: ClearedBy(g, s, c) && n.bits == Without(s, c))
  {
    hide Meets, Plain, Unpack, Pack, With, Without, InUse, WasReleased, Release, Apart;
    var s, n := With(g.bits, bits), SetBits(g, bits);
    var c := ToClear(g, g.waiting, s);
    StayFacts(g, g.waiting, s);
    PostedFacts(g, g.waiting, s);
    forall b: Bits ensures Apart(b, c) <==>
      (forall t :: Releases(g, s, t) && g.WishOf(t).clear ==> Apart(b, g.WishOf(t).mask))
    {
      ToClearMeets(g, g.waiting, s, b);
    }
    assert ClearedBy(g, s, c);
  }

  /** `t` stands somewhere in front of `u`. */
  ghost predicate InFront(ts: seq<Task>, t: Task, u: Task) {
    exists i, j :: 0 <= i < j < |ts| && ts[i] == t && ts[j] == u
  }

  /** Those who stay keep their order. */
  lemma {:induction false} StayKeepsOrder(g: Group, ts: seq<Task>, s: Bits)
    ensures forall t, u :: InFront(Stay(g, ts, s), t, u) ==> InFront(ts, t, u)
    ensures forall t :: t in Stay(g, ts, s) ==> t in ts
  {
    hide Meets, Unpack, InFront;
    if ts == [] {
      assert forall t, u :: !InFront([], t, u) by { NobodyInFront(); }
    } else {
      var front, last := ts[..|ts| - 1], ts[|ts| - 1];
      assert ts == front + [last];
      StayKeepsOrder(g, front, s);
      forall t, u | InFront(Stay(g, ts, s), t, u) ensures InFront(ts, t, u) {
        InFrontOfLast(Stay(g, front, s), last, t, u);
        InFrontOfLast(front, last, t, u);
      }
    }
  }

  lemma NobodyInFront()
    ensures forall t, u :: !InFront([], t, u)
  {}

  lemma InFrontOfLast(ts: seq<Task>, last: Task, t: Task, u: Task)
    ensures InFront(ts + [last], t, u) <==> InFront(ts, t, u) || (t in ts && u == last)
  {
    var all := ts + [last];
    if InFront(all, t, u) {
      var i, j :| 0 <= i < j < |all| && all[i] == t && all[j] == u;
      assert ts[i] == t;
      assert j < |ts| ==> ts[j] == u;
    }
    if InFront(ts, t, u) {
      var i, j :| 0 <= i < j < |ts| && ts[i] == t && ts[j] == u;
      assert all[i] == t && all[j] == u;
    }
    if t in ts && u == last {
      var i :| 0 <= i < |ts| && ts[i] == t;
      assert all[i] == t && all[|ts|] == u;
    }
  }

  /** Two groups that differ only in the order of the waiting list. */
  ghost predicate SameButOrder(g: Group, h: Group) {
    h.bits == g.bits && (forall t :: t in h.waiting <==> t in g.waiting) && (forall t :: h.Val(t) == g.Val(t))
  }

  lemma OrderDoesNotMatter(g: Group, h: Group, bits: Bits)
    requires Inv(g) && Inv(h) && Plain(bits) && SameButOrder(g, h)
    ensures SameButOrder(SetBits(g, bits), SetBits(h, bits))
  {
    hide Inv, Meets, Plain, Unpack, With, Without, Release, SetBits;
    var s := With(g.bits, bits);
    SetMeetsSnapshot(g, bits);
    SetMeetsSnapshot(h, bits);
    assert forall t :: h.WishOf(t) == g.WishOf(t);
    var c :| ClearedBy(g, s, c) && SetBits(g, bits).bits == Without(s, c);
    var d :| ClearedBy(h, s, d) && SetBits(h, bits).bits == Without(s, d);
    SameCleared(g, h, s, d);
    ClearedByIsUnique(g, s, c, d);
    assert forall t :: Releases(h, s, t) <==> Releases(g, s, t);
  }

  lemma SameCleared(g: Group, h: Group, s: Bits, d: Bits)
    requires SameButOrder(g, h) && ClearedBy(h, s, d)
    ensures ClearedBy(g, s, d)
  {
    hide Meets, Unpack, Apart;
    assert forall t :: h.WishOf(t) == g.WishOf(t);
    assert forall t :: Releases(h, s, t) <==> Releases(g, s, t);
    forall b: Bits ensures Apart(b, d) <==>
      (forall t :: Releases(g, s, t) && g.WishOf(t).clear ==> Apart(b, g.WishOf(t).mask))
    {
      assert Apart(b, d) <==>
        (forall t :: Releases(h, s, t) && h.WishOf(t).clear ==> Apart(b, h.WishOf(t).mask));
    }
  }

  // ----- What a released task returns -----------------------------------------------

  predicate MadeBy(c: Call, t: Task) {
    (c.Wait? || c.Rendezvous? || c.Left?) && c.task == t
  }

  lemma SetLeavesOthers(g: Group, bits: Bits, t: Task)
    requires Inv(g) && Plain(bits) && t !in g.waiting
    ensures t !in SetBits(g, bits).waiting && SetBits(g, bits).Val(t) == g.Val(t)
  {
    hide Meets, Plain, Unpack, Pack, With, Without, Release, Inv, SetBits;
    SetMeetsSnapshot(g, bits);
  }

  /** Until a released task runs on, its value stays: no call of others changes it, and no
      priority call of the scheduler either. */
  lemma CallLeavesReleased(g: Group, c: Call, t: Task, s: Bits)
    requires Inv(g) && Allowed(g, c) && !MadeBy(c, t)
    requires t !in g.waiting && g.Val(t) == Release(s) && Plain(s)
    ensures t !in After(g, c).waiting && After(g, c).Val(t) == Release(s)
  {
    ReleaseRoundTrip(s);
    hide Meets, Plain, Unpack, Pack, With, Without, InUse, WasReleased, Release, SetBits, Stripped, Inv;
    match c {
      case Set(bits) => SetLeavesOthers(g, bits, t);
      case Rendezvous(u, bits, _, _) => SetLeavesOthers(g, bits, t);
      case TimedOut(u) => TimeOutOfAnother(g, u, t);
      case _ => {}
    }
  }

  predicate NoneBy(calls: seq<Call>, t: Task) {
    forall i :: 0 <= i < |calls| ==> !MadeBy(calls[i], t)
  }

  lemma {:induction false} ReleasedValueIsStable(g: Group, calls: seq<Call>, t: Task, s: Bits)
    requires Inv(g) && AllAllowed(g, calls) && NoneBy(calls, t) && Plain(s)
    requires t !in g.waiting && g.Val(t) == Release(s)
    ensures t !in Result(g, calls).waiting && Result(g, calls).Val(t) == Release(s)
    decreases |calls|
  {
    hide Inv, Allowed, After, Plain, Release;
    if calls != [] {
      CallKeepsInv(g, calls[0]);
      CallLeavesReleased(g, calls[0], t, s);
      ReleasedValueIsStable(After(g, calls[0]), calls[1..], t, s);
    }
  }

  /** A waiter that a set of bits satisfies returns the snapshot of that moment without
      control bits, however much happens before it runs again; and its leaving does not
      touch the group's bits. */
  lemma ReleasedReturnsSnapshot(g: Group, bits: Bits, t: Task, calls: seq<Call>, w: Wish, v: Bits)
    requires Inv(g) && Plain(bits) && t in g.waiting && Meets(With(g.bits, bits), g.WishOf(t))
    requires AllAllowed(SetBits(g, bits), calls) && NoneBy(calls, t)
    ensures var e := Result(SetBits(g, bits), calls);
            Leave(e, t, w, v).result == With(g.bits, bits) && Leave(e, t, w, v).g.bits == e.bits
  {
    hide Inv, Meets, Plain, Unpack, With, Without, Release, SetBits, Result, WasReleased, Stripped;
    var s := With(g.bits, bits);
    assert Plain(s) by { InvPlain(g); PlainOps(g.bits, bits, NONE); }
    SetKeepsInv(g, bits);
    SetMeetsSnapshot(g, bits);
    assert Releases(g, s, t);
    ReleasedValueIsStable(SetBits(g, bits), calls, t, s);
    ReleaseRoundTrip(s);
  }

  lemma InvPlain(g: Group)
    requires Inv(g)
    ensures Plain(g.bits)
  {}

  // ----- How a sleep ends -----------------------------------------------------------

  predicate Sleeps(g: Group, t: Task, w: Wish) {
    t in g.waiting && g.WishOf(t) == w
  }

  predicate Sets(c: Call) {
    c.Set? || c.Rendezvous?
  }

  /** A timeout, or a deletion of the group, ends a task's sleep; a set of bits, alone or in a
      rendezvous, does so exactly when the old bits and the new ones together fulfil its wish,
      and leaves these bits to it; and nothing else does. */
  lemma SleepEndsExactly(g: Group, c: Call, t: Task, w: Wish)
    requires Inv(g) && Allowed(g, c) && Sleeps(g, t, w)
    ensures var n := After(g, c);
            && (t in n.waiting <==>
                 (c != TimedOut(t) && !c.Deleted? && (Sets(c) ==> !Meets(With(g.bits, c.bits), w))))
            && (t in n.waiting ==> Sleeps(n, t, w))
            && (t !in n.waiting && Sets(c) ==> n.Val(t) == Release(With(g.bits, c.bits)))
  {
    hide Meets, Plain, Unpack, Pack, With, Without, Release, Inv, SetBits, Within, InUse, WasReleased, Stripped;
    match c {
      case Set(bits) => SetMeetsSnapshot(g, bits);
      case Rendezvous(u, bits, _, _) => SetMeetsSnapshot(g, bits);
      case TimedOut(u) => TimeOutOfAnother(g, u, t);
      case NewPriority(u, _) => if u == t { WaitersAreInUse(g, t); }
      case _ => {}
    }
  }

  lemma TimeOutOfAnother(g: Group, u: Task, t: Task)
    requires Inv(g)
    ensures t in TimeOut(g, u).waiting <==> t in g.waiting && t != u
  {
    hide Meets, Plain, Unpack;
    if u in g.waiting { RemoveFacts(KList(g.waiting, 0), u); }
  }

  // ----- What becomes of the bits ---------------------------------------------------

  /** A waiter that bits `s` release takes some of `b` with it. */
  ghost predicate ReleaseTakes(g: Group, s: Bits, b: Bits) {
    exists t :: Releases(g, s, t) && g.WishOf(t).clear && !Apart(b, g.WishOf(t).mask)
  }

  predicate WishTakes(g: Group, w: Wish, b: Bits) {
    Meets(g.bits, w) && w.clear && !Apart(b, w.mask)
  }

  /** The call clears some of `b`: outright, for a waiter that it releases, or for itself. */
  ghost predicate Takes(g: Group, c: Call, b: Bits) {
    match c
    case Set(bits) => ReleaseTakes(g, With(g.bits, bits), b)
    case Wait(_, w, _) => WishTakes(g, w, b)
    case Rendezvous(_, bits, mask, _) =>
      || ReleaseTakes(g, With(g.bits, bits), b)
      || (Meets(With(g.bits, bits), SyncWish(mask)) && !Apart(b, mask))
    case Left(t, w, _) => !WasReleased(g.Val(t)) && WishTakes(g, w, b)
    case Clear(bits) => !Apart(b, bits)
    case _ => false
  }

  lemma SetTakesExactly(g: Group, bits: Bits, b: Bits)
    requires Inv(g) && Plain(bits) && Within(b, With(g.bits, bits))
    ensures Within(b, SetBits(g, bits).bits) <==> !ReleaseTakes(g, With(g.bits, bits), b)
  {
    hide Meets, Plain, Unpack, Pack, With, Without, Release, Inv, SetBits, Within, Apart, Releases;
    var s := With(g.bits, bits);
    SetMeetsSnapshot(g, bits);
    var c :| ClearedBy(g, s, c) && SetBits(g, bits).bits == Without(s, c);
    ClearedExactly(b, s, c);
    assert Apart(b, c) <==> (forall t :: Releases(g, s, t) && g.WishOf(t).clear ==> Apart(b, g.WishOf(t).mask));
  }

  /** Bits that are set stay set over a call exactly when the call takes none of them. */
  lemma BitsStayExactly(g: Group, c: Call, b: Bits)
    requires Inv(g) && Allowed(g, c) && Within(b, g.bits)
    ensures Within(b, After(g, c).bits) <==> !Takes(g, c, b)
  {
    hide Meets, Plain, Unpack, Pack, With, Without, Release, Inv, SetBits, Within, Apart, ReleaseTakes, Allowed;
    hide WasReleased, Stripped, InUse;
    if Sets(c) {
      SetsPlain(g, c);
      WithinWith(g.bits, c.bits);
      WithinIsTransitive(b, g.bits, With(g.bits, c.bits));
      SetTakesExactly(g, c.bits, b);
    }
    match c {
      case Wait(_, w, _) => ClearedExactly(b, g.bits, w.mask);
      case Rendezvous(_, bits, mask, _) => RendezvousTakes(g, c, b);
      case Left(_, w, _) => ClearedExactly(b, g.bits, w.mask);
      case Clear(bits) => ClearedExactly(b, g.bits, bits);
      case _ => {}
    }
  }

  lemma SetsPlain(g: Group, c: Call)
    requires Allowed(g, c) && Sets(c)
    ensures Plain(c.bits)
  {}

  lemma RendezvousTakes(g: Group, c: Call, b: Bits)
    requires c.Rendezvous?
    requires Within(b, SetBits(g, c.bits).bits) <==> !ReleaseTakes(g, With(g.bits, c.bits), b)
    ensures Within(b, After(g, c).bits) <==> !Takes(g, c, b)
  {
    hide Meets, Plain, Unpack, Pack, With, Without, Release, SetBits, Within, Apart, ReleaseTakes;
    var n := SetBits(g, c.bits);
    if Within(b, n.bits) {
      ClearedExactly(b, n.bits, c.mask);
    } else if Within(b, Without(n.bits, c.mask)) {
      WithoutIsWithin(n.bits, c.mask);
      WithinIsTransitive(b, Without(n.bits, c.mask), n.bits);
    }
  }

  /** A bit that was set and is not has been taken by one of the calls in between. */
  lemma {:induction false} TakenByACall(g: Group, calls: seq<Call>, b: Bits)
    requires Inv(g) && AllAllowed(g, calls) && Within(b, g.bits)
    ensures Within(b, Result(g, calls).bits)
      || exists i :: 0 <= i < |calls| && Takes(Result(g, calls[..i]), calls[i], b)
    decreases |calls|
  {
    hide Inv, Allowed, After, Takes, Within;
    if calls != [] {
      var n := After(g, calls[0]);
      CallKeepsInv(g, calls[0]);
      BitsStayExactly(g, calls[0], b);
      if Takes(g, calls[0], b) {
        assert Takes(Result(g, calls[..0]), calls[0], b);
      } else {
        TakenByACall(n, calls[1..], b);
        if i :| 0 <= i < |calls[1..]| && Takes(Result(n, calls[1..][..i]), calls[1..][i], b) {
          assert calls[..i + 1][1..] == calls[1..][..i];
          assert Takes(Result(g, calls[..i + 1]), calls[i + 1], b);
        }
      }
    }
  }

  /** xEventGroupSetBits reads the bits it returns only after the scheduler has been resumed.
      With any calls of others in between, it returns the bits that these leave, and whatever
      is missing of old and new bits together was taken by a waiter that the call released or
      by one of them. */
  lemma SetReturnsWhatIsLeft(g: Group, bits: Bits, calls: seq<Call>, b: Bits)
    requires Inv(g) && Plain(bits) && AllAllowed(SetBits(g, bits), calls)
    requires Within(b, With(g.bits, bits)) && !Within(b, Result(SetBits(g, bits), calls).bits)
    ensures ReleaseTakes(g, With(g.bits, bits), b)
      || exists i :: 0 <= i < |calls| && Takes(Result(SetBits(g, bits), calls[..i]), calls[i], b)
  {
    hide Inv, Plain, AllAllowed, SetBits, Takes, ReleaseTakes, Within, Result, With;
    SetKeepsInv(g, bits);
    SetTakesExactly(g, bits, b);
    if !ReleaseTakes(g, With(g.bits, bits), b) { TakenByACall(SetBits(g, bits), calls, b); }
  }

  // ----- A rendezvous of several tasks ----------------------------------------------

  lemma SyncWaits(g: Group, t: Task, bits: Bits, mask: Bits, ticks: nat)
    requires Inv(g) && Allowed(g, Rendezvous(t, bits, mask, ticks)) && 0 < ticks
    requires !Meets(With(g.bits, bits), SyncWish(mask))
    ensures Sleeps(After(g, Rendezvous(t, bits, mask, ticks)), t, SyncWish(mask))
  {
    PackRoundTrip(SyncWish(mask));
    hide Meets, Plain, Unpack, Pack, With, Without, Release, Inv, SetBits;
  }

  /** When a task arrives whose bits complete the mask, it goes on at once with the value that
      old and new bits make together; everybody who sleeps in the same rendezvous is released
      with that value; it contains the mask; and the bits of the mask end clear. Who else
      waits on the group, and in what order, does not matter. */
  lemma LastArrivalReleasesAll(g: Group, last: Task, bits: Bits, mask: Bits, ticks: nat)
    requires Inv(g) && Allowed(g, Rendezvous(last, bits, mask, ticks))
    requires Meets(With(g.bits, bits), SyncWish(mask))
    ensures var s, o := With(g.bits, bits), Sync(g, last, bits, mask, ticks);
            && !o.blocked && o.result == s && Within(mask, s) && Apart(o.g.bits, mask) && Inv(o.g)
            && (forall t :: Sleeps(g, t, SyncWish(mask)) ==> t !in o.g.waiting && o.g.Val(t) == Release(s))
  {
    WholeMask(With(g.bits, bits), mask);
    WholeMask(SetBits(g, bits).bits, mask);
    hide Meets, Plain, Unpack, Pack, With, Without, Release, Inv, SetBits, Within, Apart;
    SetMeetsSnapshot(g, bits);
    SyncKeepsInv(g, last, bits, mask, ticks);
    assert forall t :: Sleeps(g, t, SyncWish(mask)) ==> Releases(g, With(g.bits, bits), t);
  }

  /** And each of them returns that value, without control bits, however much happens before
      it runs again; its leaving does not touch the group's bits. */
  lemma AllReturnTheSame(g: Group, last: Task, bits: Bits, mask: Bits, ticks: nat, t: Task, later: seq<Call>,
      priorityValue: Bits)
    requires Inv(g) && Allowed(g, Rendezvous(last, bits, mask, ticks))
    requires Meets(With(g.bits, bits), SyncWish(mask)) && Sleeps(g, t, SyncWish(mask))
    requires AllAllowed(Sync(g, last, bits, mask, ticks).g, later) && NoneBy(later, t)
    ensures var o := Sync(g, last, bits, mask, ticks);
            var e := Result(o.g, later);
            && Leave(e, t, SyncWish(mask), priorityValue).result == o.result
            && Leave(e, t, SyncWish(mask), priorityValue).g.bits == e.bits
  {
    hide Inv, Meets, Plain, Unpack, With, Without, Release, SetBits, Result, WasReleased, Stripped, Sync, Within, Apart;
    var s, o := With(g.bits, bits), Sync(g, last, bits, mask, ticks);
    LastArrivalReleasesAll(g, last, bits, mask, ticks);
    assert Plain(s) by { InvPlain(g); PlainOps(g.bits, bits, NONE); }
    ReleasedValueIsStable(o.g, later, t, s);
    ReleaseRoundTrip(s);
  }

  // ----- How a rendezvous gathers its bits ------------------------------------------

  /** A wish that takes no part of the mask away unless it has the whole mask. */
  predicate Modest(w: Wish, mask: Bits) {
    w == SyncWish(mask) || !w.clear || Apart(w.mask, mask)
  }

  predicate ModestWaiters(g: Group, mask: Bits) {
    forall t :: t in g.waiting ==> Modest(g.WishOf(t), mask)
  }

  /** A call that takes no bits of the mask away, and does not complete the mask either. */
  predicate Gathering(g: Group, c: Call, mask: Bits) {
    && Allowed(g, c) && (Sets(c) ==> !Meets(With(g.bits, c.bits), SyncWish(mask)))
    && match c
       case Wait(_, w, _) => Modest(w, mask)
       case Left(_, w, _) => Modest(w, mask)
       case Rendezvous(_, _, m, _) => Modest(SyncWish(m), mask)
       case Clear(bits) => Apart(bits, mask)
       case _ => true
  }

  /** A rendezvous under way: the mask is not complete, and nobody waits to take part of it. */
  ghost predicate UnderWay(g: Group, mask: Bits) {
    Inv(g) && SyncWish(mask).Valid() && ModestWaiters(g, mask) && !Meets(g.bits, SyncWish(mask))
  }

  /** No bits of the mask are lost. */
  lemma SetGathers(g: Group, bits: Bits, mask: Bits, b: Bits)
    requires UnderWay(g, mask) && Plain(bits) && !Meets(With(g.bits, bits), SyncWish(mask))
    requires Within(b, mask) && Within(b, With(g.bits, bits))
    ensures Within(b, SetBits(g, bits).bits) && !Meets(SetBits(g, bits).bits, SyncWish(mask))
    ensures ModestWaiters(SetBits(g, bits), mask) && Inv(SetBits(g, bits))
  {
    hide Meets, Plain, Unpack, Pack, With, Without, Release, Inv, SetBits, Within, Apart;
    var s, n := With(g.bits, bits), SetBits(g, bits);
    SetMeetsSnapshot(g, bits);
    SetKeepsInv(g, bits);
    var c :| ClearedBy(g, s, c) && n.bits == Without(s, c);
    forall t | Releases(g, s, t) && g.WishOf(t).clear ensures Apart(b, g.WishOf(t).mask) {
      assert Modest(g.WishOf(t), mask);
      PartIsApart(b, mask, g.WishOf(t).mask);
    }
    SurvivesClearing(b, s, c);
    FewerMeetLess(s, c, mask);
    forall t | t in n.waiting ensures Modest(n.WishOf(t), mask) {
      assert t in g.waiting && n.Val(t) == g.Val(t);
    }
  }

  lemma FewerMeetLess(s: Bits, c: Bits, mask: Bits)
    requires !Meets(s, SyncWish(mask))
    ensures !Meets(Without(s, c), SyncWish(mask))
  {
    hide *;
    WithoutIsWithin(s, c);
    if Meets(Without(s, c), SyncWish(mask)) { MeetsIsMonotone(Without(s, c), s, SyncWish(mask)); }
  }

  /** Nor are any lost when bits apart from the mask are cleared. */
  lemma ClearGathers(g: Group, c: Bits, mask: Bits, b: Bits)
    requires UnderWay(g, mask) && Apart(c, mask) && Within(b, mask) && Within(b, g.bits)
    ensures Within(b, Without(g.bits, c)) && UnderWay(g.(bits := Without(g.bits, c)), mask)
  {
    hide Meets, Plain, Unpack, Pack, With, Without, Release, Inv, Within, Apart;
    PartIsApart(b, mask, c);
    SurvivesClearing(b, g.bits, c);
    FewerMeetLess(g.bits, c, mask);
    FewerBitsKeepInv(g, c);
    assert g.(bits := Without(g.bits, c)).waiting == g.waiting;
  }

  lemma EnqueueIsModest(g: Group, t: Task, w: Wish, mask: Bits)
    requires ModestWaiters(g, mask) && Modest(w, mask) && w.Valid()
    ensures ModestWaiters(Enqueue(g, t, w), mask)
  {
    PackRoundTrip(w);
    hide Meets, Plain, Unpack, Pack, Modest;
    assert forall u :: u in Enqueue(g, t, w).waiting ==> u == t || u in g.waiting;
  }

  lemma ConsumeGathers(g: Group, w: Wish, mask: Bits, b: Bits)
    requires UnderWay(g, mask) && Modest(w, mask) && Within(b, mask) && Within(b, g.bits)
    ensures var n := if Meets(g.bits, w) then Consume(g, w) else g;
            Within(b, n.bits) && !Meets(n.bits, SyncWish(mask)) && ModestWaiters(n, mask)
  {
    hide Meets, Plain, Unpack, Without, Within, Apart;
    if Meets(g.bits, w) && w.clear { ClearGathers(g, w.mask, mask, b); }
  }

  lemma SyncGathers(g: Group, c: Call, mask: Bits, b: Bits)
    requires UnderWay(g, mask) && c.Rendezvous? && Gathering(g, c, mask)
    requires Within(b, mask) && Within(b, With(g.bits, c.bits))
    ensures var n := After(g, c);
            Within(b, n.bits) && !Meets(n.bits, SyncWish(mask)) && ModestWaiters(n, mask)
  {
    hide Meets, Plain, Unpack, Pack, With, Without, Release, Inv, SetBits, Within, Apart;
    var n := SetBits(g, c.bits);
    SetGathers(g, c.bits, mask, b);
    if Meets(With(g.bits, c.bits), SyncWish(c.mask)) {
      ClearGathers(n, c.mask, mask, b);
    } else {
      EnqueueIsModest(n, c.task, SyncWish(c.mask), mask);
    }
  }

  lemma LeavingGathers(g: Group, c: Call, mask: Bits, b: Bits)
    requires UnderWay(g, mask) && c.Left? && Gathering(g, c, mask) && Within(b, mask) && Within(b, g.bits)
    ensures var n := After(g, c);
            Within(b, n.bits) && !Meets(n.bits, SyncWish(mask)) && ModestWaiters(n, mask)
  {
    hide Meets, Plain, Unpack, Pack, Without, Inv, Within, Apart, Modest, WasReleased, Stripped, InUse;
    var m := g.(value := g.value[c.task := c.priorityValue]);
    ValueKeepsInv(g, c.task, c.priorityValue);
    assert forall t :: t in m.waiting ==> m.WishOf(t) == g.WishOf(t);
    ConsumeGathers(m, c.wish, mask, b);
  }

  /** A call of that kind keeps the rendezvous under way, and all bits of the mask that were
      there or that it brings are there afterwards. */
  lemma GatheringKeeps(g: Group, c: Call, mask: Bits, b: Bits)
    requires UnderWay(g, mask) && Gathering(g, c, mask)
    requires Within(b, mask) && Within(b, if Sets(c) then With(g.bits, c.bits) else g.bits)
    ensures UnderWay(After(g, c), mask) && Within(b, After(g, c).bits)
  {
    hide Meets, Plain, Unpack, Pack, With, Without, Release, Inv, SetBits, Within, Apart, InUse, Modest;
    CallKeepsInv(g, c);
    match c {
      case Set(bits) => SetGathers(g, bits, mask, b);
      case Wait(t, w, _) =>
        ConsumeGathers(g, w, mask, b);
        EnqueueIsModest(g, t, w, mask);
      case Rendezvous(_, _, _, _) => SyncGathers(g, c, mask, b);
      case Left(_, _, _) => LeavingGathers(g, c, mask, b);
      case Clear(bits) => ClearGathers(g, bits, mask, b);
      case TimedOut(t) =>
        forall u ensures u in After(g, c).waiting ==> u in g.waiting { TimeOutOfAnother(g, t, u); }
      case NewPriority(t, _) => if t in g.waiting { WaitersAreInUse(g, t); }
      case Deleted => {}
    }
  }

  predicate AllGathering(g: Group, calls: seq<Call>, mask: Bits)
    decreases |calls|
  {
    calls == [] || (Gathering(g, calls[0], mask) && AllGathering(After(g, calls[0]), calls[1..], mask))
  }

  /** All the bits that the tasks of the rendezvous have set. */
  function Brought(calls: seq<Call>, mask: Bits): Bits
    decreases |calls|
  {
    if calls == [] then NONE
    else With(if calls[0].Rendezvous? && calls[0].mask == mask then calls[0].bits else NONE, Brought(calls[1..], mask))
  }

  /** The part of the mask that has been brought, and `b` that was there before, is there. */
  lemma {:induction false} BroughtIsThere(g: Group, calls: seq<Call>, mask: Bits, b: Bits)
    requires UnderWay(g, mask) && AllGathering(g, calls, mask) && Within(b, mask) && Within(b, g.bits)
    ensures UnderWay(Result(g, calls), mask)
    ensures Within(With(b, Common(Brought(calls, mask), mask)), Result(g, calls).bits)
    decreases |calls|
  {
    hide UnderWay, Gathering, After, With, Within, Common;
    if calls == [] {
      NothingBrought(b, mask);
    } else {
      var c := calls[0];
      var x := if c.Rendezvous? && c.mask == mask then c.bits else NONE;
      var n := With(b, Common(x, mask));
      OneBrings(g, c, mask, b, x);
      GatheringKeeps(g, c, mask, n);
      BroughtIsThere(After(g, c), calls[1..], mask, n);
      CommonOfBoth(b, x, Brought(calls[1..], mask), mask);
    }
  }

  lemma NothingBrought(b: Bits, mask: Bits)
    ensures With(b, Common(NONE, mask)) == b
  {}

  lemma OneBrings(g: Group, c: Call, mask: Bits, b: Bits, x: Bits)
    requires Within(b, mask) && Within(b, g.bits) && (x == NONE || (c.Rendezvous? && x == c.bits))
    ensures var n := With(b, Common(x, mask));
            Within(n, mask) && Within(n, if Sets(c) then With(g.bits, c.bits) else g.bits)
  {
    hide With, Within, Common;
    CommonIsWithin(x, mask);
    BothWithin(b, Common(x, mask), mask);
    if x == NONE { NothingBrought(b, mask); }
    if Sets(c) {
      WithinWith(g.bits, c.bits);
      WithinIsTransitive(b, g.bits, With(g.bits, c.bits));
      if x != NONE {
        WithinIsTransitive(Common(x, mask), x, With(g.bits, c.bits));
        BothWithin(b, Common(x, mask), With(g.bits, c.bits));
      }
    }
  }

  /** The i-th call is a task's arrival at the rendezvous, and the task's block time does not
      run out, nor is the group deleted, in the calls that follow. */
  predicate ArrivesAndStays(calls: seq<Call>, i: nat, mask: Bits)
    requires i < |calls|
  {
    && calls[i].Rendezvous? && calls[i].mask == mask && 0 < calls[i].ticks
    && forall j :: i < j < |calls| ==> calls[j] != TimedOut(calls[i].task) && !calls[j].Deleted?
  }

  lemma {:induction false} SleepsOn(g: Group, calls: seq<Call>, mask: Bits, t: Task)
    requires UnderWay(g, mask) && AllGathering(g, calls, mask) && Sleeps(g, t, SyncWish(mask))
    requires forall j :: 0 <= j < |calls| ==> calls[j] != TimedOut(t) && !calls[j].Deleted?
    ensures Sleeps(Result(g, calls), t, SyncWish(mask))
    decreases |calls|
  {
    hide UnderWay, After, With, Within, Common, Sleeps, Meets;
    if calls != [] {
      StaysUnderWay(g, calls[0], mask);
      assert Inv(g) && Allowed(g, calls[0]) by { UnderWayIsOrderly(g, mask); }
      SleepEndsExactly(g, calls[0], t, SyncWish(mask));
      assert Sleeps(After(g, calls[0]), t, SyncWish(mask)) by { SleepersWait(g, t, SyncWish(mask)); }
      SleepsOn(After(g, calls[0]), calls[1..], mask, t);
    }
  }

  lemma UnderWayIsOrderly(g: Group, mask: Bits)
    requires UnderWay(g, mask)
    ensures Inv(g)
  {}

  lemma SleepersWait(g: Group, t: Task, w: Wish)
    requires Sleeps(g, t, w)
    ensures t in g.waiting
  {}

  lemma StaysUnderWay(g: Group, c: Call, mask: Bits)
    requires UnderWay(g, mask) && Gathering(g, c, mask)
    ensures UnderWay(After(g, c), mask)
  {
    hide UnderWay, Gathering, After, With;
    NothingIsWithin(mask);
    NothingIsWithin(g.bits);
    if Sets(c) { NothingIsWithin(With(g.bits, c.bits)); }
    GatheringKeeps(g, c, mask, NONE);
  }

  lemma NothingIsWithin(b: Bits)
    ensures Within(NONE, b)
  {}

  lemma ArrivalSleeps(g: Group, c: Call, mask: Bits)
    requires UnderWay(g, mask) && Gathering(g, c, mask) && c.Rendezvous? && c.mask == mask && 0 < c.ticks
    ensures Sleeps(After(g, c), c.task, SyncWish(mask))
  {
    hide After, With, Within, Sleeps, Meets, Inv, Allowed;
    SyncWaits(g, c.task, c.bits, mask, c.ticks);
    assert c == Rendezvous(c.task, c.bits, mask, c.ticks);
  }

  /** While a rendezvous gathers, everybody who has arrived and not timed out sleeps in it,
      whatever the other calls on the group and whoever else waits there. */
  lemma {:induction false} ArrivedWait(g: Group, calls: seq<Call>, i: nat, mask: Bits)
    requires UnderWay(g, mask) && AllGathering(g, calls, mask) && i < |calls| && ArrivesAndStays(calls, i, mask)
    ensures Sleeps(Result(g, calls), calls[i].task, SyncWish(mask))
    decreases i
  {
    hide UnderWay, After, With, Within, Common, Sleeps, Meets, Gathering, Allowed;
    StaysUnderWay(g, calls[0], mask);
    if i == 0 {
      ArrivalSleeps(g, calls[0], mask);
      SleepsOn(After(g, calls[0]), calls[1..], mask, calls[0].task);
    } else {
      assert forall j :: i - 1 < j < |calls[1..]| ==> calls[1..][j] == calls[j + 1];
      ArrivedWait(After(g, calls[0]), calls[1..], i - 1, mask);
    }
  }

  /** Any number of tasks meet on a group: they arrive one by one, with other calls in between
      and other tasks waiting, and none takes bits of the mask away before it is complete.
      When the bits they bring and those of the last task cover the mask, that task goes on
      at once, and every other is released; the value that all have is the same and contains
      the whole mask; and those bits end clear. */
  lemma RendezvousCompletes(g: Group, calls: seq<Call>, last: Task, bits: Bits, mask: Bits, ticks: nat)
    requires UnderWay(g, mask) && AllGathering(g, calls, mask)
    requires Allowed(Result(g, calls), Rendezvous(last, bits, mask, ticks))
    requires Within(mask, With(Brought(calls, mask), bits))
    ensures var m := Result(g, calls);
            var s, o := With(m.bits, bits), Sync(m, last, bits, mask, ticks);
            && Inv(m) && Meets(s, SyncWish(mask))
            && !o.blocked && o.result == s && Within(mask, s) && Apart(o.g.bits, mask)
            && (forall i :: 0 <= i < |calls| && ArrivesAndStays(calls, i, mask) ==>
                 (Sleeps(m, calls[i].task, SyncWish(mask)) && calls[i].task !in o.g.waiting
                   && o.g.Val(calls[i].task) == Release(s)))
  {
    hide UnderWay, With, Within, Common, Sleeps, Meets, Apart, Release, Sync, Brought, Result, AllGathering, Inv;
    hide Allowed;
    var m := Result(g, calls);
    NothingIsWithin(mask);
    NothingIsWithin(g.bits);
    BroughtIsThere(g, calls, mask, NONE);
    assert With(NONE, Common(Brought(calls, mask), mask)) == Common(Brought(calls, mask), mask)
      by { WithNothing(Common(Brought(calls, mask), mask)); }
    Covered(mask, Brought(calls, mask), m.bits, bits);
    WholeMask(With(m.bits, bits), mask);
    UnderWayIsOrderly(m, mask);
    LastArrivalReleasesAll(m, last, bits, mask, ticks);
    forall i | 0 <= i < |calls| && ArrivesAndStays(calls, i, mask)
      ensures Sleeps(m, calls[i].task, SyncWish(mask))
    {
      ArrivedWait(g, calls, i, mask);
    }
  }

  /** Each of them then returns that value, however late it runs. */
  lemma RendezvousReturns(g: Group, calls: seq<Call>, i: nat, last: Task, bits: Bits, mask: Bits, ticks: nat,
      later: seq<Call>, priorityValue: Bits)
    requires UnderWay(g, mask) && AllGathering(g, calls, mask)
    requires i < |calls| && ArrivesAndStays(calls, i, mask)
    requires Allowed(Result(g, calls), Rendezvous(last, bits, mask, ticks))
    requires Within(mask, With(Brought(calls, mask), bits))
    requires AllAllowed(Sync(Result(g, calls), last, bits, mask, ticks).g, later) && NoneBy(later, calls[i].task)
    ensures var o := Sync(Result(g, calls), last, bits, mask, ticks);
            var e := Result(o.g, later);
            var r := Leave(e, calls[i].task, SyncWish(mask), priorityValue);
            !o.blocked && r.result == o.result && Within(mask, r.result) && r.g.bits == e.bits
  {
    hide *;
    RendezvousCompletes(g, calls, last, bits, mask, ticks);
    ArrivedWait(g, calls, i, mask);
    ArrivalIsCall(calls, i, mask);
    AllReturnTheSame(Result(g, calls), last, bits, mask, ticks, calls[i].task, later, priorityValue);
  }

  lemma ArrivalIsCall(calls: seq<Call>, i: nat, mask: Bits)
    requires i < |calls| && ArrivesAndStays(calls, i, mask)
    ensures calls[i].Rendezvous?
  {}

  lemma WithNothing(b: Bits)
    ensures With(NONE, b) == b
  {}
}
