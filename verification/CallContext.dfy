/** Runtime types, and which of a call chain's types count as used. */
module RuntimeTypes {

  /** The number of a runtime type fits the four bits a packed layer has for it. */
  newtype RuntimeType = x: int | 0 <= x < 16

  type Types = seq<RuntimeType>

  /** Whether a runtime type is recorded in a layer before the latest one. */
  predicate UsedBefore(types: Types, t: RuntimeType) {
    types != [] && t in types[..|types| - 1]
  }

  /** While a layer runs, a type counts as used when an earlier layer of the chain has it. */
  lemma UsedBeforeIs(earlier: Types, current: RuntimeType, t: RuntimeType)
    ensures UsedBefore(earlier + [current], t) <==> exists i :: 0 <= i < |earlier| && earlier[i] == t
    ensures !UsedBefore([], t)
  {
    assert (earlier + [current])[..|earlier|] == earlier;
  }
}

/** The packed record of a call chain: a stack of at most eleven runtime types in one word. */
module CallContext {
  import opened ByteStrings
  import opened RuntimeTypes
  import opened Bitwise
  import opened Words

  function Last(s: Types): RuntimeType
    requires s != []
  {
    s[|s| - 1]
  }

  function Init(s: Types): Types
    requires s != []
  {
    s[..|s| - 1]
  }

  function Code(t: RuntimeType): Nibble {
    Bits(t as nat)
  }

  function FromCode(b: Nibble): RuntimeType {
    Number(b) as RuntimeType
  }

  lemma FromCodeOfCode(t: RuntimeType)
    ensures FromCode(Code(t)) == t
  {
    BitsNumber(t as nat);
    hide Bits, Number;
  }

  // ---------------------------------------------------------------- the word of a stack

  function ListOf(s: Types): bv64 {
    if s == [] then 0 else Grow(ListOf(Init(s)), Code(Last(s)))
  }

  function IndexOf(s: Types): bv64 {
    if s == [] then 0 else SetBit(IndexOf(Init(s)), Code(Last(s)))
  }

  /** The word recording a call chain; the latest type is in the list but not yet in the index. */
  function Pack(s: Types): bv64
    requires |s| <= MAX_LAYERS
  {
    Join(Bits(|s|), if s == [] then 0 else IndexOf(Init(s)), ListOf(s))
  }

  /** The word as the simulation context keeps it. */
  datatype CrossInfo = CrossInfo(bits: bv64)

  function Packed(s: Types): CrossInfo
    requires |s| <= MAX_LAYERS
  {
    CrossInfo(Pack(s))
  }

  /** The word of three calls, a type, another and the first again: depth 3, the bits of both, the list. */
  lemma PackedExample()
    ensures Pack([6, 2, 6]) == 0x3220_0000_0000_0626
  {
    var s: Types := [6, 2, 6];
    assert Init(s) == [6, 2] && Init([6, 2]) == [6] && Init([6]) == [];
    assert ListOf([6]) == 6 && ListOf([6, 2]) == 0x62 && ListOf(s) == 0x626;
    assert IndexOf([6]) == 0x0020_0000_0000_0000 && IndexOf([6, 2]) == 0x0220_0000_0000_0000;
  }

  lemma NothingPacked()
    ensures Packed([]) == CrossInfo(0)
  {
    NothingSet(0);
    hide Join;
  }

  lemma {:induction false} ListOfFields(s: Types)
    requires |s| <= MAX_LAYERS
    ensures Within(ListOf(s), |s|) && ListField(ListOf(s)) == ListOf(s)
  {
    NothingSet(0);
    hide Within, Grow, ListField, Code, Join, HasBit, IndexField;
    if s != [] {
      ListOfFields(Init(s));
      WithinGrown(ListOf(Init(s)), Code(Last(s)), |s| - 1);
    }
    WithinIsList(ListOf(s), |s|);
  }

  lemma {:induction false} IndexOfField(s: Types)
    ensures IndexField(IndexOf(s)) == IndexOf(s)
  {
    NothingSet(0);
    hide Within, SetBit, ListField, Code, Join, HasBit, IndexField;
    if s != [] {
      IndexOfField(Init(s));
      SetBitField(IndexOf(Init(s)), Code(Last(s)));
    }
  }

  /** Each field of a packed word, read back. */
  lemma PackFields(s: Types)
    requires |s| <= MAX_LAYERS
    ensures DepthField(Pack(s)) == Bits(|s|)
    ensures IndexField(Pack(s)) == if s == [] then 0 else IndexOf(Init(s))
    ensures ListField(Pack(s)) == ListOf(s)
    ensures s != [] ==> Latest(Pack(s)) == Code(Last(s))
  {
    ListOfFields(s);
    NothingSet(0);
    if s != [] {
      IndexOfField(Init(s));
      GrowFields(ListOf(Init(s)), Code(Last(s)));
    }
    var depth, index, list := Bits(|s|), if s == [] then 0 else IndexOf(Init(s)), ListOf(s);
    JoinFields(depth, index, list);
    LatestOfList(Join(depth, index, list));
    hide Bits, DepthField, IndexField, ListField, Latest, Within, Grow, SetBit, HasBit, Code, Join, IndexOf;
  }

  // ---------------------------------------------------------------- what the operations do to a word

  function AddWord(w: bv64, t: RuntimeType): bv64 {
    AddTo(w, Code(t))
  }

  /** The n lowest types of the list, oldest first. */
  function TypesFrom(w: bv64, n: nat): (s: Types)
    ensures |s| == n
  {
    if n == 0 then [] else TypesFrom(Shrink(w), n - 1) + [FromCode(Latest(w))]
  }

  lemma TypesFromStep(w: bv64, n: nat)
    requires n > 0
    ensures TypesFrom(w, n) == TypesFrom(Shrink(w), n - 1) + [FromCode(Latest(w))]
  {
    hide Shrink, FromCode, Latest;
  }

  function AllTypes(w: bv64): Types {
    TypesFrom(w, Number(DepthField(w)))
  }

  function ClearWord(w: bv64): bv64 {
    var types := AllTypes(w);
    Join(Down(DepthField(w)), IndexOf(types[..if |types| >= 2 then |types| - 2 else 0]), Shrink(ListField(w)))
  }

  predicate HasUsedWord(w: bv64, t: RuntimeType) {
    HasBit(w, Code(t))
  }

  /** The type the word gives for a depth counted from 1. */
  function TypeAt(w: bv64, depth: Nibble): RuntimeType
    requires 1 <= depth <= DepthField(w)
  {
    FromCode(TypeBack(w, DepthField(w) - depth))
  }

  // ---------------------------------------------------------------- the word is a stack

  /** AddLayer is push, up to eleven layers. */
  lemma AddIsPush(s: Types, t: RuntimeType)
    requires |s| < MAX_LAYERS
    ensures AddWord(Pack(s), t) == Pack(s + [t])
  {
    hide Bits, DepthField, IndexField, ListField, Latest, Grow, SetBit, Code, Join, Up, Down;
    PackFields(s);
    BitsNext(|s|);
    if s != [] {
      BitsNext(|s| - 1);
    }
    assert Init(s + [t]) == s && Last(s + [t]) == t;
  }

  lemma {:induction false} TypesFromList(w: bv64, s: Types)
    requires |s| <= MAX_LAYERS && w == ListOf(s)
    ensures TypesFrom(w, |s|) == s
    decreases |s|
  {
    hide Shrink, Latest, Grow, Code, FromCode, ListField;
    if s != [] {
      ListOfFields(Init(s));
      GrowFields(ListOf(Init(s)), Code(Last(s)));
      TypesFromList(Shrink(w), Init(s));
      FromCodeOfCode(Last(s));
      assert s == Init(s) + [Last(s)];
    }
  }

  lemma {:induction false} TypesFromSame(w: bv64, v: bv64, n: nat)
    requires n <= MAX_LAYERS && SameNibbles(w, v, n)
    ensures TypesFrom(w, n) == TypesFrom(v, n)
    decreases n
  {
    hide Shrink, Latest, FromCode, SameNibbles;
    if n > 0 {
      SameNibblesShrunk(w, v, n);
      TypesFromSame(Shrink(w), Shrink(v), n - 1);
    }
  }

  /** GetAllTypes reads the stack back, oldest layer first. */
  lemma AllTypesOfPack(s: Types)
    requires |s| <= MAX_LAYERS
    ensures AllTypes(Pack(s)) == s
  {
    PackFields(s);
    BitsNumber(|s|);
    ListFieldSame(Pack(s), |s|);
    TypesFromSame(Pack(s), ListOf(s), |s|);
    TypesFromList(ListOf(s), s);
    hide *;
    assert AllTypes(Pack(s)) == TypesFrom(Pack(s), Number(DepthField(Pack(s)))) by {
      AllTypesIs(Pack(s));
    }
  }

  lemma AllTypesIs(w: bv64)
    ensures AllTypes(w) == TypesFrom(w, Number(DepthField(w)))
  {
    hide TypesFrom, Number, DepthField;
  }

  /** ClearLatestLayer is pop. */
  lemma ClearIsPop(s: Types)
    requires 1 <= |s| <= MAX_LAYERS
    ensures ClearWord(Pack(s)) == Pack(Init(s))
  {
    hide Bits, DepthField, IndexField, ListField, Latest, Grow, SetBit, Code, Join, Shrink, AllTypes, Within, Up, Down;
    PackFields(s);
    AllTypesOfPack(s);
    BitsNext(|s| - 1);
    ListOfFields(Init(s));
    GrowFields(ListOf(Init(s)), Code(Last(s)));
    if |s| >= 2 {
      assert s[..|s| - 2] == Init(Init(s));
    }
  }

  /** Clearing the layer just added gives back the exact word. */
  lemma ClearUndoesAdd(s: Types, t: RuntimeType)
    requires |s| < MAX_LAYERS
    ensures ClearWord(AddWord(Pack(s), t)) == Pack(s)
  {
    AddIsPush(s, t);
    ClearIsPop(s + [t]);
    assert Init(s + [t]) == s;
    hide AddWord, ClearWord, Pack;
  }

  lemma CodeInjective(t: RuntimeType, u: RuntimeType)
    ensures Code(t) == Code(u) <==> t == u
  {
    FromCodeOfCode(t);
    FromCodeOfCode(u);
    hide Code, FromCode;
  }

  lemma {:induction false} IndexOfMembers(s: Types, t: RuntimeType)
    ensures HasBit(IndexOf(s), Code(t)) <==> t in s
  {
    NothingSet(Code(t));
    hide HasBit, SetBit, Code, Within, Join, IndexField, ListField;
    if s != [] {
      IndexOfMembers(Init(s), t);
      HasBitSet(IndexOf(Init(s)), Code(Last(s)), Code(t));
      CodeInjective(Last(s), t);
      assert s == Init(s) + [Last(s)];
    }
  }

  /** HasUsed is membership among all layers but the latest. */
  lemma HasUsedIsMembership(s: Types, t: RuntimeType)
    requires |s| <= MAX_LAYERS
    ensures HasUsedWord(Pack(s), t) <==> UsedBefore(s, t)
  {
    PackFields(s);
    HasBitInIndex(Pack(s), Code(t));
    NothingSet(Code(t));
    if s != [] {
      IndexOfMembers(Init(s), t);
    }
    hide Pack, HasBit, IndexOf, Code, Within, Join, IndexField, ListField, DepthField, Latest, Bits;
  }

  lemma {:induction false} TypesFromAt(w: bv64, n: nat, back: Nibble)
    requires Number(back) < n
    ensures TypesFrom(w, n)[n - 1 - Number(back)] == FromCode(TypeBack(w, back))
    decreases n
  {
    assert Number(0) == 0;
    TypeBackShrunk(w, back);
    if back > 0 {
      NumberNext(back);
      hide Number, TypeBack, Shrink, Latest, FromCode;
      TypesFromAt(Shrink(w), n - 1, back - 1);
    }
  }

  /** GetTypeByDepth reads the same layer as GetAllTypes, in any word. */
  lemma TypeAtReadsLayer(w: bv64, depth: Nibble)
    requires 1 <= depth <= DepthField(w)
    ensures 1 <= Number(depth) <= |AllTypes(w)|
    ensures TypeAt(w, depth) == AllTypes(w)[Number(depth) - 1]
  {
    hide DepthField, Number, TypeBack, FromCode, TypesFrom;
    NumberMinus(DepthField(w), depth);
    NumberNext(depth);
    TypesFromAt(w, Number(DepthField(w)), DepthField(w) - depth);
  }

  // ---------------------------------------------------------------- the context object

  class CallContractContext {
    var ctxBitmap: bv64

    constructor (ctxBitmap: bv64)
      ensures this.ctxBitmap == ctxBitmap
    {
      this.ctxBitmap := ctxBitmap;
    }

    method GetDepth() returns (depth: Nibble)
      ensures depth == DepthField(ctxBitmap)
    {
      depth := ctxBitmap >> 60;
    }

    method AddLayer(runtimeType: RuntimeType)
      modifies this
      ensures ctxBitmap == AddWord(old(ctxBitmap), runtimeType)
    {
      hide DepthField, SetBit, IndexField, Latest, Grow, ListField, Join, Code, Up;
      var currDepth := GetDepth();
      // the latest layer enters the index only once another one covers it
      var rtIndex := if currDepth != 0 then SetBit(IndexField(ctxBitmap), Latest(ctxBitmap)) else 0;
      ctxBitmap := Join(Up(currDepth), rtIndex, Grow(ListField(ctxBitmap), Code(runtimeType)));
    }

    method GetAllTypes() returns (types: array<RuntimeType>)
      ensures fresh(types) && types[..] == AllTypes(ctxBitmap)
    {
      AllTypesIs(ctxBitmap);
      hide DepthField, Number, Shrink, Latest, FromCode, AllTypes, TypesFrom;
      var currDepth := GetDepth();
      var n := Number(currDepth);
      types := new RuntimeType[n](_ => 0);
      assert types[n..] == [];
      var bitmap := ctxBitmap;
      var i := 0;
      while i < n
        invariant 0 <= i <= n
        invariant TypesFrom(bitmap, n - i) + types[n - i..] == AllTypes(ctxBitmap)
      {
        TypesFromStep(bitmap, n - i);
        types[n - i - 1] := FromCode(Latest(bitmap));
        assert types[n - i - 1..] == [FromCode(Latest(bitmap))] + types[n - i..];
        bitmap := Shrink(bitmap);
        i := i + 1;
      }
    }

    method ClearLatestLayer()
      modifies this
      ensures ctxBitmap == ClearWord(old(ctxBitmap))
    {
      hide DepthField, SetBit, ListField, Shrink, Join, Code, Down, AllTypes;
      var currDepth := GetDepth();
      var rtQueue := GetAllTypes();
      var rtIndex: bv64 := 0;
      var newDepth := rtQueue.Length - 2;
      var i := 0;
      while i < newDepth
        invariant 0 <= i <= if newDepth >= 0 then newDepth else 0
        invariant ctxBitmap == old(ctxBitmap)
        invariant rtQueue[..] == AllTypes(ctxBitmap)
        invariant rtIndex == IndexOf(rtQueue[..i])
      {
        assert Init(rtQueue[..i + 1]) == rtQueue[..i];
        rtIndex := SetBit(rtIndex, Code(rtQueue[i]));
        i := i + 1;
      }
      assert AllTypes(ctxBitmap)[..i] == rtQueue[..i];
      ctxBitmap := Join(Down(currDepth), rtIndex, Shrink(ListField(ctxBitmap)));
    }

    method HasUsed(runtimeType: RuntimeType) returns (used: bool)
      ensures used == HasUsedWord(ctxBitmap, runtimeType)
    {
      MeetsPositive(BitOf(Code(runtimeType)), ctxBitmap);
      hide BitOf, Code, Meets, Positive, And;
      used := Positive(And(BitOf(Code(runtimeType)), ctxBitmap));
    }

    /** None is the depth overflow error. */
    method GetTypeByDepth(depth: bv64) returns (runtimeType: Option<RuntimeType>)
      ensures runtimeType.Some? <==> 1 <= depth <= DepthField(ctxBitmap)
      ensures runtimeType.Some? ==> runtimeType.value == TypeAt(ctxBitmap, depth)
    {
      hide FromCode, TypeBack;
      var currDepth := GetDepth();
      if depth > currDepth || depth == 0 {
        return None;
      }
      return Some(FromCode(TypeBack(ctxBitmap, currDepth - depth)));
    }
  }
}
