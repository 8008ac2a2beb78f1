/** What the calls of an event group return, when they block, and which bits they take. */
module EventResults {
  import opened EventBits
  import opened ListHeap
  import opened EventGroups
  import opened EventSnapshots

  lemma StrippedPlain(b: Bits)
    requires Plain(b)
    ensures Stripped(b) == b
  {}

  /** A wait blocks exactly when its wish is not met and it has block time, and then sleeps with
      that wish. If it does not block it returns the bits it found, which meet the wish exactly
      when that was met, and only then does it take any, and those of its mask. */
  lemma WaitReturns(g: Group, t: Task, w: Wish, ticks: nat)
    requires Inv(g) && Allowed(g, Wait(t, w, ticks))
    ensures var o := WaitBits(g, t, w, ticks);
            && (o.blocked <==> !Meets(g.bits, w) && 0 < ticks)
            && (o.blocked ==> Sleeps(o.g, t, w) && o.g.bits == g.bits && o.g.waiting == g.waiting + [t])
            && (!o.blocked ==> o.result == g.bits && o.g.waiting == g.waiting && o.g.value == g.value)
            && (!o.blocked ==> o.g.bits == if Meets(o.result, w) && w.clear then Without(g.bits, w.mask) else g.bits)
  {
    PackRoundTrip(w);
    hide Meets, Plain, Unpack, Pack, Without, Inv;
  }

  /** A rendezvous blocks exactly when old and new bits do not complete its mask and it has
      block time. Without block time it returns the bits that are left, and these do not
      contain the mask; it does not join the waiting list, and takes no bits for itself. */
  lemma SyncReturns(g: Group, t: Task, bits: Bits, mask: Bits, ticks: nat)
    requires Inv(g) && Allowed(g, Rendezvous(t, bits, mask, ticks))
    ensures var s, n, o := With(g.bits, bits), SetBits(g, bits), Sync(g, t, bits, mask, ticks);
            && (o.blocked <==> !Meets(s, SyncWish(mask)) && 0 < ticks)
            && (o.blocked ==> Sleeps(o.g, t, SyncWish(mask)) && o.g.bits == n.bits)
            && (!o.blocked && Meets(s, SyncWish(mask)) ==> o.result == s)
            && (!o.blocked && !Meets(s, SyncWish(mask)) ==>
                 o.g == n && o.result == n.bits && !Meets(o.result, SyncWish(mask)) && t !in o.g.waiting)
  {
    if !Meets(With(g.bits, bits), SyncWish(mask)) { SyncGoesOn(g, t, bits, mask, ticks); }
  }

  lemma SyncGoesOn(g: Group, t: Task, bits: Bits, mask: Bits, ticks: nat)
    requires Inv(g) && Allowed(g, Rendezvous(t, bits, mask, ticks)) && !Meets(With(g.bits, bits), SyncWish(mask))
    ensures var n, o := SetBits(g, bits), Sync(g, t, bits, mask, ticks);
            && o.blocked == (0 < ticks) && o.g.bits == n.bits
            && (0 < ticks ==> Sleeps(o.g, t, SyncWish(mask)))
            && (ticks == 0 ==> o.g == n && o.result == n.bits)
            && !Meets(n.bits, SyncWish(mask)) && t !in n.waiting
  {
    hide Meets, Plain, Unpack, Pack, With, Without, Release, Inv, SetBits;
    AfterSet(g, bits, t, SyncWish(mask));
    if 0 < ticks { SyncWaits(g, t, bits, mask, ticks); }
  }

  /** A task that has timed out, and was not released, tests the bits once more: it returns the
      bits it finds, and takes those of its mask exactly when they meet its wish and it is to
      clear them. Its event item has the value of its priority again. */
  lemma TimedOutTestsAgain(g: Group, t: Task, w: Wish, priorityValue: Bits)
    requires Inv(g) && Allowed(g, Left(t, w, priorityValue)) && !WasReleased(g.Val(t))
    ensures var o := Leave(g, t, w, priorityValue);
            && !o.blocked && o.result == g.bits && o.g.waiting == g.waiting && o.g.Val(t) == priorityValue
            && o.g.bits == (if Meets(o.result, w) && w.clear then Without(g.bits, w.mask) else g.bits)
            && (forall u :: u != t ==> o.g.Val(u) == g.Val(u))
  {
    StrippedPlain(g.bits);
    hide Meets, Plain, Unpack, Pack, Without, Inv, WasReleased, Stripped;
  }

  /** A waiter that times out without having been released is in that case: what it had stored
      is not taken for a release. */
  lemma TimeOutIsNoRelease(g: Group, t: Task)
    requires Inv(g) && t in g.waiting
    ensures t !in TimeOut(g, t).waiting && !WasReleased(TimeOut(g, t).Val(t))
  {
    WaitersAreInUse(g, t);
    hide WasReleased;
    TimeOutOfAnother(g, t, t);
  }

  /** A released task takes nothing when it leaves. */
  lemma ReleasedTakesNothing(g: Group, t: Task, s: Bits, w: Wish, priorityValue: Bits)
    requires Plain(s) && g.Val(t) == Release(s)
    ensures var o := Leave(g, t, w, priorityValue);
            o.result == s && o.g.bits == g.bits && o.g.waiting == g.waiting && o.g.Val(t) == priorityValue
  {
    ReleaseRoundTrip(s);
    hide Meets, Plain, Without, Release, WasReleased, Stripped;
  }

  /** Deleting the group releases everybody, with no bits. */
  lemma DeletedReturnNothing(g: Group, t: Task, w: Wish, priorityValue: Bits)
    requires t in g.waiting
    ensures Delete(g).waiting == [] && Leave(Delete(g), t, w, priorityValue).result == NONE
  {
    NothingIsPlain();
    ReleaseRoundTrip(NONE);
    hide Release, WasReleased, Stripped;
  }

  /** A new priority is stored for a task whose value is not borrowed, and waits otherwise until
      the task gives it back. */
  lemma NewPriorityIsStored(g: Group, t: Task, priorityValue: Bits)
    ensures var n := Reprioritise(g, t, priorityValue);
            && n.Val(t) == (if InUse(g.Val(t)) then g.Val(t) else priorityValue)
            && n.bits == g.bits && n.waiting == g.waiting && (forall u :: u != t ==> n.Val(u) == g.Val(u))
  {
    hide InUse;
  }

  /** No call sets any bits but those it is given. */
  lemma NoBitsComeUnasked(g: Group, c: Call)
    requires Inv(g) && Allowed(g, c)
    ensures Within(After(g, c).bits, if Sets(c) then With(g.bits, c.bits) else g.bits)
  {
    hide Meets, Plain, Unpack, Pack, With, Without, Release, Inv, SetBits, Within, WasReleased, Stripped, InUse;
    EverythingIsWithin(g.bits);
    match c {
      case Set(bits) => SetIsWithin(g, bits);
      case Wait(_, w, _) => WithoutIsWithin(g.bits, w.mask);
      case Rendezvous(_, bits, mask, _) =>
        SetIsWithin(g, bits);
        WithoutIsWithin(SetBits(g, bits).bits, mask);
        WithinIsTransitive(Without(SetBits(g, bits).bits, mask), SetBits(g, bits).bits, With(g.bits, bits));
      case Left(_, w, _) => WithoutIsWithin(g.bits, w.mask);
      case Clear(bits) => WithoutIsWithin(g.bits, bits);
      case _ => {}
    }
  }

  lemma EverythingIsWithin(b: Bits)
    ensures Within(b, b)
  {}

  lemma SetIsWithin(g: Group, bits: Bits)
    ensures Within(SetBits(g, bits).bits, With(g.bits, bits))
  {
    WithoutIsWithin(With(g.bits, bits), ToClear(g, g.waiting, With(g.bits, bits)));
  }
}
