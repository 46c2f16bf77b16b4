/** Bitwise facts, apart from the fields they are used for. */
module Bitwise {

  function Or(a: bv64, b: bv64): bv64 {
    a | b
  }

  function And(a: bv64, b: bv64): bv64 {
    a & b
  }

  predicate Meets(a: bv64, b: bv64) {
    And(a, b) != 0
  }

  predicate Positive(a: bv64) {
    a > 0
  }

  lemma MeetsPositive(a: bv64, b: bv64)
    ensures Meets(a, b) <==> Positive(And(a, b))
  {
  }

  lemma MeetsNeither(a: bv64, b: bv64, c: bv64)
    requires And(a, b) == 0 && And(a, c) == 0
    ensures And(a, Or(b, c)) == 0
  {
  }

  lemma MeetsPart(a: bv64, b: bv64, c: bv64)
    requires And(a, Or(b, c)) == 0
    ensures And(a, b) == 0 && And(a, c) == 0
  {
  }

  lemma MeetsOr(a: bv64, b: bv64, c: bv64)
    ensures Meets(a, Or(b, c)) <==> Meets(a, b) || Meets(a, c)
  {
    hide And, Or;
    if Meets(a, Or(b, c)) {
      if !Meets(a, b) && !Meets(a, c) {
        MeetsNeither(a, b, c);
      }
    } else {
      MeetsPart(a, b, c);
    }
  }
}

/**
 The 64-bit word of a call chain, bit by bit: 4 bits of depth, 16 of earlier runtime types (the index),
 44 of type list.
 */
module Words {
  import opened Bitwise

  const INDEX_MASK: bv64 := 0x0FFF_F000_0000_0000
  const LIST_MASK: bv64 := 0x0000_0FFF_FFFF_FFFF
  const LATEST_MASK: bv64 := 0xF

  /** The list field can hold this many types. */
  const MAX_LAYERS: nat := 11

  type Nibble = b: bv64 | b < 16

  /** The four bits of a small number. */
  function Bits(n: nat): Nibble
    requires n < 16
  {
    if n == 0 then 0 else if n == 1 then 1 else if n == 2 then 2 else if n == 3 then 3
    else if n == 4 then 4 else if n == 5 then 5 else if n == 6 then 6 else if n == 7 then 7
    else if n == 8 then 8 else if n == 9 then 9 else if n == 10 then 10 else if n == 11 then 11
    else if n == 12 then 12 else if n == 13 then 13 else if n == 14 then 14 else 15
  }

  function Number(b: Nibble): (n: nat)
    ensures n < 16
  {
    if b == 0 then 0 else if b == 1 then 1 else if b == 2 then 2 else if b == 3 then 3
    else if b == 4 then 4 else if b == 5 then 5 else if b == 6 then 6 else if b == 7 then 7
    else if b == 8 then 8 else if b == 9 then 9 else if b == 10 then 10 else if b == 11 then 11
    else if b == 12 then 12 else if b == 13 then 13 else if b == 14 then 14 else 15
  }

  function DepthField(w: bv64): Nibble {
    w >> 60
  }

  function IndexField(w: bv64): bv64 {
    w & INDEX_MASK
  }

  function ListField(w: bv64): bv64 {
    w & LIST_MASK
  }

  function Latest(w: bv64): Nibble {
    w & LATEST_MASK
  }

  function Shrink(w: bv64): bv64 {
    w >> 4
  }

  function Grow(list: bv64, t: Nibble): bv64 {
    (list << 4) | t
  }

  function BitOf(t: Nibble): bv64 {
    1 << (59 - t)
  }

  function SetBit(index: bv64, t: Nibble): bv64 {
    Or(index, BitOf(t))
  }

  predicate HasBit(w: bv64, t: Nibble) {
    Meets(BitOf(t), w)
  }

  function AtTop(depth: bv64): bv64 {
    depth << 60
  }

  /** The word with the given fields; depths wrap at sixteen. */
  function Join(depth: bv64, index: bv64, list: bv64): bv64 {
    Or(Or(AtTop(depth), index), list)
  }

  function Up(depth: bv64): bv64 {
    depth + 1
  }

  /** One layer less; zero wraps. */
  function Down(depth: bv64): bv64 {
    depth - 1
  }

  /** The word after one more layer. */
  function AddTo(w: bv64, t: Nibble): bv64 {
    Join(Up(DepthField(w)), if DepthField(w) != 0 then SetBit(IndexField(w), Latest(w)) else 0, Grow(ListField(w), t))
  }

  /** The type `back` layers below the latest. */
  function TypeBack(w: bv64, back: Nibble): Nibble {
    (w >> (back * 4)) & LATEST_MASK
  }

  /** n nibbles of ones, for as many as the list field holds. */
  function Ones(n: nat): bv64
    requires n <= MAX_LAYERS
  {
    if n == 0 then 0
    else if n == 1 then 0xF
    else if n == 2 then 0xFF
    else if n == 3 then 0xFFF
    else if n == 4 then 0xFFFF
    else if n == 5 then 0xF_FFFF
    else if n == 6 then 0xFF_FFFF
    else if n == 7 then 0xFFF_FFFF
    else if n == 8 then 0xFFFF_FFFF
    else if n == 9 then 0xF_FFFF_FFFF
    else if n == 10 then 0xFF_FFFF_FFFF
    else 0xFFF_FFFF_FFFF
  }

  /** The list has at most n types. */
  predicate Within(list: bv64, n: nat)
    requires n <= MAX_LAYERS
  {
    list & Ones(n) == list
  }

  /** The lowest n nibbles agree. */
  predicate SameNibbles(w: bv64, v: bv64, n: nat)
    requires n <= MAX_LAYERS
  {
    w & Ones(n) == v & Ones(n)
  }

  // ---------------------------------------------------------------- laws of the fields

  lemma SameNibblesShrunk(w: bv64, v: bv64, n: nat)
    requires 1 <= n <= MAX_LAYERS && SameNibbles(w, v, n)
    ensures SameNibbles(Shrink(w), Shrink(v), n - 1) && Latest(w) == Latest(v)
  {
  }

  lemma ListFieldSame(w: bv64, n: nat)
    requires n <= MAX_LAYERS
    ensures SameNibbles(w, ListField(w), n)
  {
  }

  lemma BitsNumber(n: nat)
    requires n < 16
    ensures Number(Bits(n)) == n
  {
  }

  lemma BitsNext(n: nat)
    requires n < 15
    ensures Up(Bits(n)) == Bits(n + 1) && Down(Bits(n + 1)) == Bits(n) && Bits(n + 1) != 0 && Bits(0) == 0
  {
  }

  lemma NumberNext(b: Nibble)
    requires b > 0
    ensures Number(b) == Number(b - 1) + 1
  {
  }

  lemma {:induction false} NumberMinus(a: Nibble, b: Nibble)
    requires b <= a
    ensures Number(a - b) == Number(a) - Number(b)
    decreases Number(b)
  {
    if b == 0 {
      assert Number(0) == 0;
    } else {
      NumberNext(b);
      NumberNext(a - b + 1);
      hide Number;
      NumberMinus(a, b - 1);
    }
  }

  lemma JoinFields(depth: Nibble, index: bv64, list: bv64)
    requires IndexField(index) == index && ListField(list) == list
    ensures var w := Join(depth, index, list);
      DepthField(w) == depth && IndexField(w) == index && ListField(w) == list
  {
  }

  lemma LatestOfList(w: bv64)
    ensures Latest(w) == Latest(ListField(w))
  {
  }

  lemma GrowFields(list: bv64, t: Nibble)
    ensures Latest(Grow(list, t)) == t
    ensures ListField(list) == list ==> Shrink(Grow(list, t)) == list
  {
  }

  lemma WithinGrown(list: bv64, t: Nibble, n: nat)
    requires n < MAX_LAYERS && Within(list, n)
    ensures Within(Grow(list, t), n + 1)
  {
  }

  lemma WithinIsList(list: bv64, n: nat)
    requires n <= MAX_LAYERS && Within(list, n)
    ensures ListField(list) == list
  {
  }

  lemma SetBitField(index: bv64, t: Nibble)
    requires IndexField(index) == index
    ensures IndexField(SetBit(index, t)) == SetBit(index, t)
  {
  }

  lemma OneBit(t: Nibble, u: Nibble)
    ensures Meets(BitOf(t), BitOf(u)) <==> t == u
  {
  }

  lemma HasBitSet(w: bv64, t: Nibble, u: Nibble)
    ensures HasBit(SetBit(w, t), u) <==> t == u || HasBit(w, u)
  {
    OneBit(u, t);
    MeetsOr(BitOf(u), w, BitOf(t));
    hide BitOf, Meets, Or, And;
  }

  lemma HasBitInIndex(w: bv64, t: Nibble)
    ensures HasBit(w, t) <==> HasBit(IndexField(w), t)
  {
  }

  lemma NothingSet(t: Nibble)
    ensures !HasBit(0, t) && IndexField(0) == 0 && ListField(0) == 0 && Within(0, 0) && Join(0, 0, 0) == 0
  {
  }

  lemma TypeBackShrunk(w: bv64, back: Nibble)
    ensures TypeBack(w, 0) == Latest(w)
    ensures back > 0 ==> TypeBack(w, back) == TypeBack(Shrink(w), back - 1)
  {
    if back > 0 {
      ShiftTwice(w, (back - 1) * 4);
      assert (back - 1) * 4 + 4 == back * 4;
    }
  }

  lemma ShiftTwice(w: bv64, n: bv64)
    requires n <= 56
    ensures n + 4 <= 60 && (w >> 4) >> n == w >> (n + 4)
  {
  }

  lemma DepthMeetsNoBit(depth: bv64, u: Nibble)
    ensures !Meets(BitOf(u), AtTop(depth))
  {
  }

  lemma HasBitJoined(depth: bv64, index: bv64, list: bv64, u: Nibble)
    ensures HasBit(Join(depth, index, list), u) <==> HasBit(index, u) || HasBit(list, u)
  {
    DepthMeetsNoBit(depth, u);
    MeetsOr(BitOf(u), AtTop(depth), index);
    MeetsOr(BitOf(u), Or(AtTop(depth), index), list);
    hide BitOf, Meets, Or, And, AtTop;
  }

  lemma HasBitSpilled(w: bv64, t: Nibble, u: Nibble)
    ensures HasBit(Grow(ListField(w), t), u) <==> u >= 12 && ((w >> 40) >> (15 - u)) & 1 == 1
  {
    if u == 12 {
    } else if u == 13 {
    } else if u == 14 {
    } else if u == 15 {
    } else {
      assert Grow(ListField(w), t) <= 0x0000_FFFF_FFFF_FFFF;
      assert BitOf(u) & 0x0000_FFFF_FFFF_FFFF == 0;
      hide Grow, ListField, BitOf;
    }
  }

  /**
   * What a layer adds to the index, for any word: the type it covers, and, once the list is full, the
   * four bits of the oldest type, which are pushed out of the list into the places of types 12 to 15.
   */
  lemma IndexAfterAdd(w: bv64, t: Nibble, u: Nibble)
    requires DepthField(w) != 0
    ensures HasBit(AddTo(w, t), u) <==>
      u == Latest(w) || HasBit(w, u) || (u >= 12 && ((w >> 40) >> (15 - u)) & 1 == 1)
  {
    HasBitInIndex(w, u);
    HasBitSet(IndexField(w), Latest(w), u);
    HasBitSpilled(w, t, u);
    HasBitJoined(Up(DepthField(w)), SetBit(IndexField(w), Latest(w)), Grow(ListField(w), t), u);
    hide HasBit, SetBit, Latest, IndexField, ListField, Grow, Join, DepthField, Up;
  }
}
