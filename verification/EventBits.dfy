/** The bit layout that event groups use in a task's event item value, for both widths of
    tick. A 16-bit value is one whose upper half is clear. */
module EventBits {
  import opened KernelConfig

  datatype Bits = Bits(raw: bv32)

  const NONE := Bits(0)

  /** eventCLEAR_EVENTS_ON_EXIT_BIT, eventUNBLOCKED_DUE_TO_BIT_SET, eventWAIT_FOR_ALL_BITS,
      taskEVENT_LIST_ITEM_VALUE_IN_USE and eventEVENT_BITS_CONTROL_BYTES. */
  const CLEAR_ON_EXIT: bv32 := if WIDE then 0x0100_0000 else 0x0100
  const UNBLOCKED: bv32 := if WIDE then 0x0200_0000 else 0x0200
  const WAIT_FOR_ALL: bv32 := if WIDE then 0x0400_0000 else 0x0400
  const IN_USE: bv32 := if WIDE then 0x8000_0000 else 0x8000
  const CONTROL: bv32 := if WIDE then 0xff00_0000 else 0xff00

  const WIDE: bool := TICK_MODULUS == 0x1_0000_0000

  /** All bits of a value, and those that are left to the user of an event group. */
  const ALL: bv32 := if WIDE then 0xffff_ffff else 0xffff
  const USER: bv32 := if WIDE then 0x00ff_ffff else 0x00ff

  predicate Fits(b: Bits) {
    b.raw & !ALL == 0
  }

  predicate Plain(b: Bits) {
    b.raw & !USER == 0
  }

  /** In either width the user's bits and the control bits share out the value, and the four
      marks are different control bits. */
  lemma LayoutIsDisjoint()
    ensures USER & CONTROL == 0 && USER | CONTROL == ALL
    ensures (CLEAR_ON_EXIT | UNBLOCKED | WAIT_FOR_ALL | IN_USE) & CONTROL
         == CLEAR_ON_EXIT | UNBLOCKED | WAIT_FOR_ALL | IN_USE
    ensures CLEAR_ON_EXIT & UNBLOCKED == 0 && CLEAR_ON_EXIT & WAIT_FOR_ALL == 0 && CLEAR_ON_EXIT & IN_USE == 0
    ensures UNBLOCKED & WAIT_FOR_ALL == 0 && UNBLOCKED & IN_USE == 0 && WAIT_FOR_ALL & IN_USE == 0
  {}

  /** The assertion of the calls: no control bytes among the user's bits. */
  lemma PlainExactly(b: Bits)
    ensures Plain(b) <==> Fits(b) && b.raw & CONTROL == 0
  {}

  function With(b: Bits, more: Bits): Bits {
    Bits(b.raw | more.raw)
  }

  function Without(b: Bits, less: Bits): Bits {
    Bits(b.raw & !less.raw)
  }

  predicate Within(few: Bits, many: Bits) {
    few.raw & many.raw == few.raw
  }

  predicate Apart(a: Bits, b: Bits) {
    a.raw & b.raw == 0
  }

  predicate InUse(value: Bits) {
    value.raw & IN_USE != 0
  }

  /** What a task asks for when it waits. */
  datatype Wish = Wish(mask: Bits, clear: bool, all: bool) {
    predicate Valid() {
      Plain(mask) && mask != NONE
    }
  }

  /** prvTestWaitCondition. */
  predicate TestWaitCondition(b: Bits, mask: Bits, all: bool) {
    if all then b.raw & mask.raw == mask.raw else b.raw & mask.raw != 0
  }

  predicate Meets(b: Bits, w: Wish) {
    TestWaitCondition(b, w.mask, w.all)
  }

  /** The wish as it is stored in the event item of the waiting task. */
  function Pack(w: Wish): Bits {
    Bits(w.mask.raw | (if w.clear then CLEAR_ON_EXIT else 0) | (if w.all then WAIT_FOR_ALL else 0) | IN_USE)
  }

  /** The wish as the traversal of xEventGroupSetBits reads it back. */
  function Unpack(value: Bits): Wish {
    var control := value.raw & CONTROL;
    Wish(Stripped(value), control & CLEAR_ON_EXIT != 0, control & WAIT_FOR_ALL != 0)
  }

  function Unblocking(b: Bits): Bits {
    Bits(b.raw | UNBLOCKED)
  }

  function Marked(value: Bits): Bits {
    Bits(value.raw | IN_USE)
  }

  /** The value a task finds when bits have released it. */
  function Release(b: Bits): Bits {
    Marked(Unblocking(b))
  }

  function Stripped(value: Bits): Bits {
    Bits(value.raw & !CONTROL)
  }

  predicate WasReleased(value: Bits) {
    value.raw & UNBLOCKED != 0
  }

  /** Packing loses nothing, and cannot be taken for a release. */
  lemma PackRoundTrip(w: Wish)
    requires w.Valid()
    ensures Unpack(Pack(w)) == w
    ensures !WasReleased(Pack(w)) && InUse(Pack(w)) && Fits(Pack(w))
  {}

  /** A release carries the bits, says that it is one, and marks the value as in use. */
  lemma ReleaseRoundTrip(b: Bits)
    requires Plain(b)
    ensures Stripped(Release(b)) == b && WasReleased(Release(b)) && InUse(Release(b)) && Fits(Release(b))
  {}

  /** Fewer bits satisfy fewer wishes. */
  lemma MeetsIsMonotone(few: Bits, many: Bits, w: Wish)
    requires Within(few, many) && Meets(few, w)
    ensures Meets(many, w)
  {}

  lemma PlainOps(a: Bits, b: Bits, c: Bits)
    requires Plain(a) && Plain(b)
    ensures Plain(With(a, b)) && Plain(Without(a, c))
    ensures Within(Without(a, c), a) && Within(a, With(a, b))
  {
    hide *;
    WithIsPlain(a, b);
    WithoutIsPlain(a, c);
    WithoutIsWithin(a, c);
    WithinWith(a, b);
  }

  lemma WithIsPlain(a: Bits, b: Bits)
    requires Plain(a) && Plain(b)
    ensures Plain(With(a, b))
  {}

  lemma WithoutIsPlain(a: Bits, c: Bits)
    requires Plain(a)
    ensures Plain(Without(a, c))
  {}

  lemma WithoutIsWithin(a: Bits, c: Bits)
    ensures Within(Without(a, c), a)
  {}

  lemma WithinWith(a: Bits, b: Bits)
    ensures Within(a, With(a, b)) && Within(b, With(a, b))
  {}

  lemma NothingIsPlain()
    ensures Plain(NONE)
  {}

  /** A union is apart from what both its parts are apart from. */
  lemma ApartFromBoth(b: Bits, c: Bits, m: Bits)
    ensures Apart(b, With(c, m)) <==> Apart(b, c) && Apart(b, m)
    ensures Apart(b, NONE)
  {
    assert Apart(b, NONE);
    hide Apart, With;
    if Apart(b, With(c, m)) {
      ApartFromParts(b, c, m);
    } else if Apart(b, c) && Apart(b, m) {
      ApartFromWhole(b, c, m);
    }
  }

  lemma ApartFromParts(b: Bits, c: Bits, m: Bits)
    requires Apart(b, With(c, m))
    ensures Apart(b, c) && Apart(b, m)
  {}

  lemma ApartFromWhole(b: Bits, c: Bits, m: Bits)
    requires Apart(b, c) && Apart(b, m)
    ensures Apart(b, With(c, m))
  {}

  function Complement(c: Bits): Bits {
    Bits(!c.raw)
  }

  /** What a set of bits is apart from determines it. */
  lemma ApartDetermines(c: Bits, d: Bits)
    requires Apart(Complement(c), c) ==> Apart(Complement(c), d)
    requires Apart(Complement(d), d) ==> Apart(Complement(d), c)
    ensures c == d
  {}

  /** Bits that meet a wish for all of a mask contain it; without it they are apart from it. */
  lemma WholeMask(s: Bits, mask: Bits)
    ensures Meets(s, Wish(mask, true, true)) <==> Within(mask, s)
    ensures Apart(Without(s, mask), mask)
  {}

  function Common(a: Bits, b: Bits): Bits {
    Bits(a.raw & b.raw)
  }

  lemma CommonIsWithin(a: Bits, b: Bits)
    ensures Within(Common(a, b), a) && Within(Common(a, b), b)
  {}

  lemma WithinIsTransitive(a: Bits, b: Bits, c: Bits)
    requires Within(a, b) && Within(b, c)
    ensures Within(a, c)
  {}

  lemma BothWithin(a: Bits, b: Bits, c: Bits)
    requires Within(a, c) && Within(b, c)
    ensures Within(With(a, b), c)
  {}

  /** What is within one set and apart from another survives when that one is cleared. */
  lemma SurvivesClearing(b: Bits, s: Bits, c: Bits)
    requires Within(b, s) && Apart(b, c)
    ensures Within(b, Without(s, c))
  {}

  /** And only then. */
  lemma ClearedExactly(b: Bits, s: Bits, c: Bits)
    requires Within(b, s)
    ensures Within(b, Without(s, c)) <==> Apart(b, c)
  {
    hide *;
    if Apart(b, c) { SurvivesClearing(b, s, c); }
    if Within(b, Without(s, c)) { WhatIsLeftIsApart(b, s, c); }
  }

  lemma WhatIsLeftIsApart(b: Bits, s: Bits, c: Bits)
    requires Within(b, Without(s, c))
    ensures Apart(b, c)
  {}

  lemma PartIsApart(b: Bits, mask: Bits, m: Bits)
    requires Within(b, mask) && Apart(m, mask)
    ensures Apart(b, m)
  {}

  /** Gathering the common part bit by bit. */
  lemma CommonOfBoth(b: Bits, x: Bits, rest: Bits, mask: Bits)
    ensures With(b, Common(With(x, rest), mask)) == With(With(b, Common(x, mask)), Common(rest, mask))
  {}

  /** A mask covered by some bits is covered by their part in the mask. */
  lemma Covered(mask: Bits, all: Bits, e: Bits, last: Bits)
    requires Within(Common(all, mask), e) && Within(mask, With(all, last))
    ensures Within(mask, With(e, last))
  {}
}
