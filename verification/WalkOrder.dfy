/** Fair sharing among the items of one list: who is returned next by
    listGET_OWNER_OF_NEXT_ENTRY, and how inserting and removing other items affects it. */
module WalkOrder {
  import opened KernelLists

  /** The next |items| selections, in order. */
  function Turns<T>(l: KList<T>): (r: seq<T>)
    requires l.index <= |l.items|
    ensures |r| == |l.items|
  {
    l.items[l.index..] + l.items[..l.index]
  }

  /** The number of selections up to and including the one that returns `x`. */
  function Distance<T>(l: KList<T>, x: T): (d: nat)
    requires l.index <= |l.items| && x in l.items
    ensures 1 <= d <= |l.items|
  {
    var p := Position(l.items, x) + 1;
    if l.index < p then p - l.index else |l.items| - l.index + p
  }

  /** The walk index rests on `x`. */
  predicate At<T(==)>(l: KList<T>, x: T) {
    0 < l.index <= |l.items| && l.items[l.index - 1] == x
  }

  /** The walk has passed the end marker and has not reached `x` yet. */
  predicate Approaching<T(==)>(l: KList<T>, x: T)
    requires x in l.items
  {
    l.index <= Position(l.items, x)
  }

  function SelectMany<T>(l: KList<T>, n: nat): (r: (seq<T>, KList<T>))
    requires l.Valid() && l.items != []
    ensures r.1.Valid() && r.1.items == l.items
    decreases n
  {
    if n == 0 then ([], l)
    else
      var m := l.Next();
      var (owners, last) := SelectMany(m, n - 1);
      ([m.Selected()] + owners, last)
  }

  lemma TurnsOfNext<T>(l: KList<T>)
    requires l.Valid() && l.items != []
    ensures Turns(l.Next()) == Turns(l)[1..] + [Turns(l)[0]]
    ensures l.Next().Selected() == Turns(l)[0]
  {}

  /** Any n consecutive selections of an unchanged list are the first n turns. */
  lemma {:induction false} SelectionsFollowTurns<T>(l: KList<T>, n: nat)
    requires l.Valid() && n <= |l.items| && l.items != []
    ensures SelectMany(l, n).0 == Turns(l)[..n]
    ensures n == |l.items| && 0 < l.index ==> SelectMany(l, n).1 == l
    ensures 0 < n ==> SelectMany(l, n).1.index == (if l.index + n <= |l.items| then l.index + n
        else l.index + n - |l.items|)
    decreases n
  {
    hide Turns;
    if 0 < n {
      SelectionsFollowTurns(l.Next(), n - 1);
      TurnsOfNext(l);
      assert Turns(l)[..n] == [Turns(l)[0]] + Turns(l)[1..][..n - 1];
      assert Turns(l.Next())[..n - 1] == Turns(l)[1..][..n - 1];
    }
  }

  /** A full round of an n-item list returns each owner exactly once. */
  lemma FullRoundReturnsEachOnce<T>(l: KList<T>)
    requires l.Valid() && l.items != []
    ensures multiset(SelectMany(l, |l.items|).0) == multiset(l.items)
    ensures NoDup(SelectMany(l, |l.items|).0)
  {
    SelectionsFollowTurns(l, |l.items|);
    TurnsNoDup(l);
    assert Turns(l)[..|l.items|] == Turns(l);
    SplitMultiset(l.items, l.index);
  }

  lemma SplitMultiset<T>(s: seq<T>, k: nat)
    requires k <= |s|
    ensures multiset(s[k..] + s[..k]) == multiset(s)
  {
    assert s == s[..k] + s[k..];
  }

  lemma TurnsNoDup<T>(l: KList<T>)
    requires l.Valid()
    ensures NoDup(Turns(l))
  {}

  /** A selection either returns `x` or brings it exactly one turn nearer. */
  lemma SelectionBringsNearer<T>(l: KList<T>, x: T)
    requires l.Valid() && x in l.items
    ensures l.Next().Valid()
    ensures l.Next().Selected() == x <==> Distance(l, x) == 1
    ensures Distance(l, x) == 1 ==> Distance(l.Next(), x) == |l.items|
    ensures 1 < Distance(l, x) ==> Distance(l.Next(), x) == Distance(l, x) - 1
    ensures Approaching(l, x) && 1 < Distance(l, x) ==> Approaching(l.Next(), x)
  {}

  /** Inserting at the end delays `x` exactly when the walk index rests on it. */
  lemma InsertionDelaysOnlyTheCurrentItem<T>(l: KList<T>, x: T, n: T)
    requires l.Valid() && x in l.items && n !in l.items
    ensures l.InsertEnd(n).Valid() && x in l.InsertEnd(n).items
    ensures Distance(l.InsertEnd(n), x) == Distance(l, x) + (if At(l, x) then 1 else 0)
    ensures At(l.InsertEnd(n), x) <==> At(l, x)
    ensures Approaching(l, x) ==> Approaching(l.InsertEnd(n), x)
    ensures Distance(l.InsertEnd(n), n) == |l.items| + (if l.index == 0 then 1 else 0)
  {
    var k := if l.index == 0 then |l.items| else l.index - 1;
    assert l.InsertEnd(n) == l.InsertAt(k, n);
    InsertAtFacts(l, k, n);
    PositionAfterInsert(l, k, n, x);
    AtIsPosition(l, x);
    AtIsPosition(l.InsertEnd(n), x);
    hide At, Position, KList.InsertEnd;
  }

  lemma AtIsPosition<T>(l: KList<T>, x: T)
    requires l.Valid() && x in l.items
    ensures At(l, x) <==> l.index == Position(l.items, x) + 1
  {}

  lemma PositionAfterInsert<T>(l: KList<T>, k: nat, n: T, x: T)
    requires l.Valid() && k <= |l.items| && n !in l.items && x in l.items
    ensures var m, p := l.InsertAt(k, n), Position(l.items, x);
            && x in m.items && Position(m.items, x) == (if p < k then p else p + 1)
            && n in m.items && Position(m.items, n) == k
  {
    InsertAtFacts(l, k, n);
    var m, p := l.InsertAt(k, n), Position(l.items, x);
    PositionUnique(m.items, k);
    PositionUnique(m.items, if p < k then p else p + 1);
  }

  lemma PositionAfterRemove<T>(l: KList<T>, y: T, x: T)
    requires l.Valid() && x in l.items && y in l.items && x != y
    ensures var m, p, k := l.Remove(y), Position(l.items, x), Position(l.items, y);
            p != k && x in m.items && Position(m.items, x) == (if p < k then p else p - 1)
  {}

  /** Removing another item never delays `x`; it brings the index back onto `x`
      exactly when the removed item was the current one and `x` stands just before it. */
  lemma RemovalNeverDelays<T>(l: KList<T>, x: T, y: T)
    requires l.Valid() && x in l.items && y in l.items && x != y
    ensures l.Remove(y).Valid() && x in l.Remove(y).items
    ensures Distance(l.Remove(y), x) == Distance(l, x) - (if Distance(l, y) < Distance(l, x) then 1 else 0)
    ensures Approaching(l, x) ==> Approaching(l.Remove(y), x)
    ensures At(l.Remove(y), x) <==> At(l, x) || (At(l, y) && Position(l.items, x) + 1 == Position(l.items, y))
  {
    RemoveFacts(l, y);
    PositionAfterRemove(l, y, x);
    AtIsPosition(l, x);
    AtIsPosition(l, y);
    AtIsPosition(l.Remove(y), x);
  }

  // ----- Runs -----------------------------------------------------------------------

  datatype ListOp<T> = Insert(new_: T) | Drop(old_: T) | Select

  /** Operations on a list that holds `x`, none of which removes `x` itself. */
  predicate Enabled<T(==)>(l: KList<T>, op: ListOp<T>, x: T) {
    match op
    case Insert(n) => n !in l.items
    case Drop(y) => y in l.items && y != x
    case Select => true
  }

  function Apply<T>(l: KList<T>, op: ListOp<T>): KList<T> {
    match op
    case Insert(n) => l.InsertEnd(n)
    case Drop(y) => l.Remove(y)
    case Select => l.Next()
  }

  /** A run that leaves `x` in the list and never returns it. */
  ghost predicate PassesOver<T>(l: KList<T>, ops: seq<ListOp<T>>, x: T)
    requires x in l.items
    decreases |ops|
  {
    ops == [] ||
    (&& Enabled(l, ops[0], x)
     && x in Apply(l, ops[0]).items
     && (ops[0].Select? ==> !At(l.Next(), x))
     && PassesOver(Apply(l, ops[0]), ops[1..], x))
  }

  function Final<T>(l: KList<T>, ops: seq<ListOp<T>>): KList<T>
    decreases |ops|
  {
    if ops == [] then l else Final(Apply(l, ops[0]), ops[1..])
  }

  function Selections<T>(ops: seq<ListOp<T>>): nat {
    if ops == [] then 0 else (if ops[0].Select? then 1 else 0) + Selections(ops[1..])
  }

  /** Insertions made while the walk index rests on `x`. */
  function Overtakes<T>(l: KList<T>, ops: seq<ListOp<T>>, x: T): nat
    decreases |ops|
  {
    if ops == [] then 0
    else (if ops[0].Insert? && At(l, x) then 1 else 0) + Overtakes(Apply(l, ops[0]), ops[1..], x)
  }

  lemma StepFacts<T>(l: KList<T>, op: ListOp<T>, x: T)
    requires l.Valid() && x in l.items && Enabled(l, op, x)
    requires op.Select? ==> !At(l.Next(), x)
    ensures Apply(l, op).Valid() && x in Apply(l, op).items
    ensures Distance(Apply(l, op), x) + (if op.Select? then 1 else 0)
         <= Distance(l, x) + (if op.Insert? && At(l, x) then 1 else 0)
    ensures Approaching(l, x) ==> Approaching(Apply(l, op), x)
    ensures Approaching(l, x) ==> !At(l, x)
  {
    match op
    case Insert(n) => InsertionDelaysOnlyTheCurrentItem(l, x, n);
    case Drop(y) => RemovalNeverDelays(l, x, y);
    case Select => SelectionBringsNearer(l, x);
    if At(l, x) { PositionUnique(l.items, l.index - 1); }
  }

  /** Over every run that does not return `x`: each selection is paid for by the distance
      `x` had, or by an insertion made while the walk index rested on `x`. */
  lemma {:induction false} WaitIsBounded<T>(l: KList<T>, ops: seq<ListOp<T>>, x: T)
    requires l.Valid() && x in l.items && PassesOver(l, ops, x)
    ensures Final(l, ops).Valid() && x in Final(l, ops).items
    ensures Distance(Final(l, ops), x) + Selections(ops) <= Distance(l, x) + Overtakes(l, ops, x)
    decreases |ops|
  {
    if ops != [] {
      StepFacts(l, ops[0], x);
      WaitIsBounded(Apply(l, ops[0]), ops[1..], x);
    }
  }

  /** Once the walk approaches `x`, no run can overtake it any more: it is returned by the
      selection its distance names, whatever is inserted and removed meanwhile. */
  lemma {:induction false} ApproachCannotBeOvertaken<T>(l: KList<T>, ops: seq<ListOp<T>>, x: T)
    requires l.Valid() && x in l.items && PassesOver(l, ops, x) && Approaching(l, x)
    ensures Overtakes(l, ops, x) == 0
    ensures Selections(ops) < Distance(l, x)
    decreases |ops|
  {
    WaitIsBounded(l, ops, x);
    if ops != [] {
      StepFacts(l, ops[0], x);
      ApproachCannotBeOvertaken(Apply(l, ops[0]), ops[1..], x);
    }
  }

  /** The items still to be walked before the end marker never grow in number, so a run
      that keeps selecting starts to approach `x` (or has returned it): with the lemma
      above, no item of a list that keeps being walked waits for ever. */
  lemma {:induction false} EveryWalkApproaches<T>(l: KList<T>, ops: seq<ListOp<T>>, x: T)
    requires l.Valid() && x in l.items && PassesOver(l, ops, x)
    requires |l.items| - l.index < Selections(ops)
    ensures exists k :: 0 < k <= |ops| && x in Final(l, ops[..k]).items && Approaching(Final(l, ops[..k]), x)
    decreases |ops|
  {
    var m := Apply(l, ops[0]);
    StepFacts(l, ops[0], x);
    assert Final(l, ops[..1]) == m by { assert ops[..1][1..] == []; assert Final(m, []) == m; }
    if Approaching(m, x) {
      assert 0 < 1 <= |ops| && x in Final(l, ops[..1]).items;
    } else {
      EveryWalkApproaches(m, ops[1..], x);
      var k :| 0 < k <= |ops[1..]| && x in Final(m, ops[1..][..k]).items && Approaching(Final(m, ops[1..][..k]), x);
      assert ops[..k + 1][1..] == ops[1..][..k];
      assert Final(l, ops[..k + 1]) == Final(m, ops[1..][..k]);
    }
  }

  /** The distance itself can grow in a run that starts with `x` off the walk index, and
      here is exactly when one removal and one insertion do it: the current item is removed
      and `x` stands just before it, so the index falls back onto `x` and the new item goes
      in front. */
  lemma RemovalThenInsertionDelays<T>(l: KList<T>, x: T, y: T, n: T)
    requires l.Valid() && x in l.items && y in l.items && x != y && n !in l.items && !At(l, x)
    ensures var m := l.Remove(y).InsertEnd(n);
            && x in m.items && m.index <= |m.items|
            && (Distance(l, x) < Distance(m, x)
                <==> At(l, y) && Position(l.items, x) + 1 == Position(l.items, y))
  {
    RemovalNeverDelays(l, x, y);
    RemoveFacts(l, y);
    InsertionDelaysOnlyTheCurrentItem(l.Remove(y), x, n);
    AtIsPosition(l, y);
  }

  lemma DistanceCanGrow()
    ensures var l := KList([1, 2, 3], 2);
            && l.Valid() && !At(l, 1) && 1 in l.items
            && var m := l.Remove(2).InsertEnd(9);
               1 in m.items && m.index <= |m.items| && Distance(l, 1) < Distance(m, 1)
  {
    var l := KList([1, 2, 3], 2);
    assert l.items[0] == 1 && l.items[1] == 2;
    PositionUnique(l.items, 0);
    PositionUnique(l.items, 1);
    RemovalThenInsertionDelays(l, 1, 2, 9);
  }
}
