/** Block versions: the dotted string as one number. */
module Version {
  import opened ByteStrings
  import opened Keys
  import opened BlockVersions

  const DOT: byte := 46
  const UNDERSCORE: byte := 95
  const LETTER_V: byte := 118
  const ZERO: byte := 48
  const MINUS: byte := 45
  const PLUS: byte := 43

  const TWO_32: nat := 0x1_0000_0000
  const INT_LIMIT: int := 0x8000_0000_0000_0000

  // ---------------------------------------------------------------- decimal numbers

  predicate IsDigit(b: byte) {
    48 <= b <= 57
  }

  predicate AllDigits(s: Bytes) {
    forall i :: 0 <= i < |s| ==> IsDigit(s[i])
  }

  /** The value of a string of digits. */
  function DigitsValue(s: Bytes): nat
    requires AllDigits(s)
  {
    if s == [] then 0 else DigitsValue(s[..|s| - 1]) * 10 + (s[|s| - 1] - ZERO) as nat
  }

  /** strconv.Atoi: an optional sign and at least one digit, within 64 bits. */
  function Atoi(s: Bytes): Option<int> {
    var signed := s != [] && (s[0] == MINUS || s[0] == PLUS);
    var digits := if signed then s[1..] else s;
    if digits == [] || !AllDigits(digits) then None
    else
      var n: int := if signed && s[0] == MINUS then -(DigitsValue(digits) as int) else DigitsValue(digits);
      if -INT_LIMIT <= n < INT_LIMIT then Some(n) else None
  }

  function Decimal(n: nat): Bytes {
    if n < 10 then [ZERO + n as byte] else Decimal(n / 10) + [ZERO + (n % 10) as byte]
  }

  /** The verb %02d: at least two characters, the sign among them. */
  function Padded(n: int): Bytes {
    if n < 0 then [MINUS] + Decimal(-n)
    else if n < 10 then [ZERO] + Decimal(n)
    else Decimal(n)
  }

  // ---------------------------------------------------------------- the conversion

  function TrimmedPrefix(s: Bytes): Bytes {
    if s != [] && s[0] == LETTER_V then s[1..] else s
  }

  /** The numbers of the parts, zero where a part is missing; None where the string is refused. */
  function Numbers(s: Bytes): Option<seq<int>> {
    var parts := SplitOn(TrimmedPrefix(s), DOT);
    if UNDERSCORE in s || |parts| < 3 || |parts| > 4 || exists i :: 0 <= i < |parts| && Atoi(parts[i]).None? then None
    else Some(seq(4, i requires 0 <= i < 4 => if i < |parts| then Atoi(parts[i]).value else 0))
  }

  function Formatted(nums: seq<int>): Bytes
    requires |nums| == 4
  {
    Padded(nums[0]) + Padded(nums[1]) + Padded(nums[2]) + Padded(nums[3])
  }

  /** The number of four parts, cut to 32 bits. */
  function Encoded(nums: seq<int>): Option<nat>
    requires |nums| == 4
  {
    match Atoi(Formatted(nums))
    case Some(n) => Some(n % TWO_32)
    case None => None
  }

  /** None is the error return. */
  method ToVersionInt(s: Bytes) returns (version: Option<nat>)
    ensures version == if Numbers(s).Some? then Encoded(Numbers(s).value) else None
  {
    if UNDERSCORE in s {
      return None;
    }
    var parts := SplitOn(TrimmedPrefix(s), DOT);
    if |parts| < 3 || |parts| > 4 {
      return None;
    }
    var nums := new int[4](_ => 0);
    for i := 0 to |parts|
      invariant forall j :: 0 <= j < i ==> Atoi(parts[j]).Some? && nums[j] == Atoi(parts[j]).value
      invariant forall j :: i <= j < 4 ==> nums[j] == 0
    {
      var num := Atoi(parts[i]);
      if num.None? {
        return None;
      }
      nums[i] := num.value;
    }
    assert nums[..] == Numbers(s).value;
    var formatted := Padded(nums[0]) + Padded(nums[1]) + Padded(nums[2]) + Padded(nums[3]);
    var number := Atoi(formatted);
    if number.None? {
      return None;
    }
    return Some(number.value % TWO_32);
  }

  // ---------------------------------------------------------------- what the number is

  /** Parts without a sign. */
  predicate Parts(nums: seq<int>) {
    |nums| == 4 && forall i :: 0 <= i < 4 ==> nums[i] >= 0
  }

  predicate ZeroUpTo(nums: seq<int>, k: nat)
    requires k <= |nums|
  {
    forall j :: 0 <= j < k ==> nums[j] == 0
  }

  /** Among the first k parts one of three digits or more comes after zeros only. */
  predicate NoShift(nums: seq<int>, k: nat)
    requires k <= |nums|
  {
    forall i :: 0 <= i < k && nums[i] >= 100 ==> ZeroUpTo(nums, i)
  }

  function Value(nums: seq<int>): int
    requires |nums| == 4
  {
    nums[0] * 1000000 + nums[1] * 10000 + nums[2] * 100 + nums[3]
  }

  function Pow10(k: nat): (p: nat)
    ensures p >= 1 && (k >= 2 ==> p >= 100) && (k >= 3 ==> p >= 1000)
  {
    if k == 0 then 1 else 10 * Pow10(k - 1)
  }

  lemma {:induction false} DecimalValue(n: nat)
    ensures AllDigits(Decimal(n)) && DigitsValue(Decimal(n)) == n
    ensures |Decimal(n)| >= 1 && (|Decimal(n)| == 1 <==> n < 10) && (|Decimal(n)| <= 2 <==> n < 100)
  {
    var d := Decimal(n);
    if n >= 10 {
      DecimalValue(n / 10);
      assert d[..|d| - 1] == Decimal(n / 10);
    } else {
      assert d[..0] == [];
    }
  }

  lemma PaddedValue(n: nat)
    ensures AllDigits(Padded(n)) && DigitsValue(Padded(n)) == n
    ensures |Padded(n)| >= 2 && (|Padded(n)| == 2 <==> n <= 99)
  {
    DecimalValue(n);
    LeadingZero(Decimal(n));
  }

  lemma {:induction false} AppendValue(s: Bytes, t: Bytes)
    requires AllDigits(s) && AllDigits(t)
    ensures AllDigits(s + t) && DigitsValue(s + t) == DigitsValue(s) * Pow10(|t|) + DigitsValue(t)
    decreases |t|
  {
    var u := s + t;
    if t == [] {
      assert u == s;
    } else {
      AppendValue(s, t[..|t| - 1]);
      assert u[..|u| - 1] == s + t[..|t| - 1];
      var d := (t[|t| - 1] - ZERO) as nat;
      assert DigitsValue(u) == DigitsValue(s + t[..|t| - 1]) * 10 + d;
      assert DigitsValue(t) == DigitsValue(t[..|t| - 1]) * 10 + d && Pow10(|t|) == 10 * Pow10(|t| - 1);
      hide DigitsValue, Pow10;
      OneDigitMore(DigitsValue(s), Pow10(|t| - 1), DigitsValue(t[..|t| - 1]), d);
    }
  }

  lemma OneDigitMore(x: nat, p: nat, y: nat, d: nat)
    ensures (x * p + y) * 10 + d == x * (10 * p) + (y * 10 + d)
  {
  }

  /** One more part, against one more part in base 100. */
  lemma OneMore(f: nat, v: nat, p: nat, n: nat)
    requires f >= v && p >= 100 && (v == 0 ==> f == 0)
    ensures f * p + n >= v * 100 + n
    ensures f * p + n == v * 100 + n <==> f == v && (p == 100 || f == 0)
    ensures v * 100 + n == 0 ==> f * p + n == 0
  {
    var extra := p - 100;
    assert f * p == f * 100 + f * extra;
    if f > 0 && extra > 0 {
      ScaledUp(f, extra);
    }
  }

  lemma ScaledUp(x: nat, y: nat)
    requires x > 0 && y > 0
    ensures x * y > 0
  {
  }

  /** The digits written one after the other against the parts in base 100, over the first k parts. */
  lemma {:induction false} WrittenValue(nums: seq<int>, k: nat)
    requires Parts(nums) && 1 <= k <= 4
    ensures AllDigits(Written(nums, k)) && DigitsValue(Written(nums, k)) >= Base100(nums, k)
    ensures DigitsValue(Written(nums, k)) == Base100(nums, k) <==> NoShift(nums, k)
    ensures Base100(nums, k) == 0 ==> DigitsValue(Written(nums, k)) == 0
    ensures Base100(nums, k) == 0 <==> ZeroUpTo(nums, k)
    decreases k
  {
    var last, w := nums[k - 1], Padded(nums[k - 1]);
    PaddedValue(last);
    OnePartMore(nums, k);
    hide DigitsValue, Padded, Pow10;
    assert Written(nums, k) == Written(nums, k - 1) + w && Base100(nums, k) == Base100(nums, k - 1) * 100 + last;
    if k == 1 {
      assert NoShift(nums, 0) && ZeroUpTo(nums, 0) && Base100(nums, 0) == 0;
      assert Written(nums, 0) == [] && Written(nums, 1) == w && Base100(nums, 1) == last;
    } else {
      hide ZeroUpTo, NoShift, Written, Base100;
      WrittenValue(nums, k - 1);
      AppendValue(Written(nums, k - 1), w);
      Widths(|w|, last);
      OneMore(DigitsValue(Written(nums, k - 1)), Base100(nums, k - 1), Pow10(|w|), last);
      hide AllDigits;
    }
  }

  lemma OnePartMore(nums: seq<int>, k: nat)
    requires 1 <= k <= |nums|
    ensures NoShift(nums, k) <==> NoShift(nums, k - 1) && (nums[k - 1] >= 100 ==> ZeroUpTo(nums, k - 1))
    ensures ZeroUpTo(nums, k) <==> ZeroUpTo(nums, k - 1) && nums[k - 1] == 0
  {
  }

  lemma Widths(k: nat, n: nat)
    requires k >= 2 && (k == 2 <==> n <= 99)
    ensures Pow10(k) >= 100 && (Pow10(k) == 100 <==> n < 100)
  {
    assert Pow10(2) == 10 * Pow10(1) && Pow10(1) == 10 * Pow10(0);
  }

  function Written(nums: seq<int>, k: nat): Bytes
    requires k <= |nums|
  {
    if k == 0 then [] else Written(nums, k - 1) + Padded(nums[k - 1])
  }

  function Base100(nums: seq<int>, k: nat): nat
    requires k <= |nums| && forall i :: 0 <= i < k ==> nums[i] >= 0
  {
    if k == 0 then 0 else Base100(nums, k - 1) * 100 + nums[k - 1]
  }

  /**
   * What is written reads as the base-100 number of the parts exactly when no part shifts one before it;
   * otherwise it reads as more.
   */
  lemma FormattedValue(nums: seq<int>)
    requires Parts(nums)
    ensures Formatted(nums) != [] && AllDigits(Formatted(nums))
    ensures DigitsValue(Formatted(nums)) >= Value(nums)
    ensures DigitsValue(Formatted(nums)) == Value(nums) <==> NoShift(nums, 4)
  {
    WrittenValue(nums, 4);
    AllWritten(nums);
    PaddedValue(nums[0]);
    hide NoShift, ZeroUpTo, DigitsValue, AllDigits, Value, Base100, Written, Padded;
  }

  lemma WrittenStep(nums: seq<int>, k: nat)
    requires Parts(nums) && k < 4
    ensures Written(nums, k + 1) == Written(nums, k) + Padded(nums[k])
    ensures Base100(nums, k + 1) == Base100(nums, k) * 100 + nums[k]
  {
    hide Padded;
  }

  lemma AllWritten(nums: seq<int>)
    requires Parts(nums)
    ensures Written(nums, 4) == Formatted(nums) && Base100(nums, 4) == Value(nums)
  {
    WrittenStep(nums, 0);
    WrittenStep(nums, 1);
    WrittenStep(nums, 2);
    WrittenStep(nums, 3);
    assert Written(nums, 0) == [] && Base100(nums, 0) == 0;
    hide Padded, Written, Base100;
    assert Written(nums, 1) == Padded(nums[0]);
  }

  lemma AtoiOfDigits(s: Bytes)
    requires s != [] && AllDigits(s)
    ensures Atoi(s) == if DigitsValue(s) < INT_LIMIT then Some(DigitsValue(s) as int) else None
  {
    assert IsDigit(s[0]);
    hide DigitsValue;
  }

  /**
   * The encoding is the base-100 number when no part shifts another and that number fits 32 bits. It is
   * another number for any shifted parts whose digits fit 32 bits.
   */
  lemma EncodedValue(nums: seq<int>)
    requires Parts(nums)
    ensures NoShift(nums, 4) ==> (Encoded(nums) == Some(Value(nums)) <==> Value(nums) < TWO_32)
    ensures AllDigits(Formatted(nums))
    ensures DigitsValue(Formatted(nums)) < TWO_32 ==> (Encoded(nums) == Some(Value(nums)) <==> NoShift(nums, 4))
  {
    FormattedValue(nums);
    AtoiOfDigits(Formatted(nums));
    assert Value(nums) >= 0;
    hide DigitsValue, Formatted, Atoi, NoShift, Value;
  }

  lemma PaddedMinus(n: int)
    ensures n < 0 ==> Padded(n) == [MINUS] + Decimal(-n)
    ensures Padded(n) != []
  {
    if n >= 0 {
      PaddedValue(n);
    }
  }

  lemma NotDigits(s: Bytes, t: Bytes, u: Bytes)
    requires s != []
    ensures Atoi(s + ([MINUS] + t) + u) == None
  {
    var v := s + ([MINUS] + t) + u;
    assert v[|s|] == MINUS && !IsDigit(v[|s|]);
    assert v[1..][|s| - 1] == MINUS;
    hide DigitsValue;
  }

  /** A part with a minus sign after the first is an error. */
  lemma MinusInside(nums: seq<int>)
    requires |nums| == 4 && (nums[1] < 0 || nums[2] < 0 || nums[3] < 0)
    ensures Encoded(nums) == None
  {
    var a, b, c, d := Padded(nums[0]), Padded(nums[1]), Padded(nums[2]), Padded(nums[3]);
    PaddedMinus(nums[0]);
    PaddedMinus(nums[1]);
    PaddedMinus(nums[2]);
    PaddedMinus(nums[3]);
    hide Atoi, Padded, Decimal;
    if nums[1] < 0 {
      NotDigits(a, Decimal(-nums[1]), c + d);
      assert a + b + c + d == a + b + (c + d);
    } else if nums[2] < 0 {
      NotDigits(a + b, Decimal(-nums[2]), d);
    } else {
      NotDigits(a + b + c, Decimal(-nums[3]), []);
      assert a + b + c + d == a + b + c + d + [];
    }
  }

  function AfterFirst(nums: seq<int>): Bytes
    requires |nums| == 4
  {
    Padded(nums[1]) + (Padded(nums[2]) + Padded(nums[3]))
  }

  lemma FirstAndRest(nums: seq<int>)
    requires |nums| == 4
    ensures Formatted(nums) == Padded(nums[0]) + AfterFirst(nums)
  {
    hide Padded;
  }

  lemma AfterFirstDigits(nums: seq<int>)
    requires |nums| == 4 && nums[1] >= 0 && nums[2] >= 0 && nums[3] >= 0
    ensures AllDigits(AfterFirst(nums))
  {
    PaddedValue(nums[1]);
    PaddedValue(nums[2]);
    PaddedValue(nums[3]);
    hide Padded, DigitsValue;
  }

  /** The digits of parts without sign, the first part's padding left out. */
  lemma PlusDigits(nums: seq<int>)
    requires Parts(nums)
    ensures var digits := Decimal(nums[0]) + AfterFirst(nums);
      && digits != [] && AllDigits(digits) && AllDigits(Formatted(nums))
      && DigitsValue(Formatted(nums)) == DigitsValue(digits)
  {
    var n, rest := nums[0], AfterFirst(nums);
    DecimalValue(n);
    PaddedValue(n);
    AfterFirstDigits(nums);
    FirstAndRest(nums);
    hide *;
    AppendValue(Decimal(n), rest);
    AppendValue(Padded(n), rest);
  }

  /** With a minus sign on the first part the number is that without it, negated, and cut to 32 bits. */
  lemma MinusFirst(nums: seq<int>)
    requires |nums| == 4 && nums[0] < 0 && Parts(nums[0 := -nums[0]])
    ensures AllDigits(Formatted(nums[0 := -nums[0]]))
    ensures var d := DigitsValue(Formatted(nums[0 := -nums[0]])) as int;
      Encoded(nums) == if d <= 0x8000_0000_0000_0000 then Some((-d) % 0x1_0000_0000) else None
  {
    var plus := nums[0 := -nums[0]];
    SameRest(nums, -nums[0]);
    MinusAtoi(nums, plus);
    hide Formatted, DigitsValue, AllDigits, Atoi, AfterFirst;
  }

  lemma MinusAtoi(nums: seq<int>, plus: seq<int>)
    requires |nums| == |plus| == 4 && nums[0] < 0 && plus[0] == -nums[0]
    requires Parts(plus) && AfterFirst(plus) == AfterFirst(nums)
    ensures AllDigits(Formatted(plus))
    ensures var d := DigitsValue(Formatted(plus)) as int;
      Atoi(Formatted(nums)) == if d <= 0x8000_0000_0000_0000 then Some(-d) else None
  {
    hide *;
    PlusDigits(plus);
    FirstAndRest(nums);
    PaddedMinus(nums[0]);
    Regroup([MINUS], Decimal(plus[0]), AfterFirst(plus));
    AtoiIs(Decimal(plus[0]) + AfterFirst(plus));
  }

  lemma SameRest(nums: seq<int>, n: int)
    requires |nums| == 4
    ensures AfterFirst(nums[0 := n]) == AfterFirst(nums)
  {
    hide Padded;
  }

  lemma Regroup(a: Bytes, b: Bytes, c: Bytes)
    ensures (a + b) + c == a + (b + c)
  {
  }

  /** The parts compared one after the other, the first difference deciding. */
  predicate Earlier(m: seq<int>, n: seq<int>)
    requires |m| == |n| == 4
  {
    m[0] < n[0] || (m[0] == n[0] &&
      (m[1] < n[1] || (m[1] == n[1] &&
        (m[2] < n[2] || (m[2] == n[2] && m[3] < n[3])))))
  }

  /** At most two digits in every part but the first, and a number of 32 bits. */
  predicate Ordinary(nums: seq<int>) {
    Parts(nums) && nums[1] <= 99 && nums[2] <= 99 && nums[3] <= 99 && Value(nums) < TWO_32
  }

  lemma OrdinaryValue(nums: seq<int>)
    requires Ordinary(nums)
    ensures Encoded(nums) == Some(Value(nums))
  {
    EncodedValue(nums);
    assert NoShift(nums, 4);
  }

  lemma ValueOrder(m: seq<int>, n: seq<int>)
    requires Ordinary(m) && Ordinary(n)
    ensures Value(m) < Value(n) <==> Earlier(m, n)
  {
  }

  /** Among ordinary versions the numbers compare as the versions do. */
  lemma EncodedMonotone(m: seq<int>, n: seq<int>)
    requires Ordinary(m) && Ordinary(n)
    ensures Encoded(m).Some? && Encoded(n).Some? && (Encoded(m).value < Encoded(n).value <==> Earlier(m, n))
  {
    OrdinaryValue(m);
    OrdinaryValue(n);
    ValueOrder(m, n);
    hide *;
  }

  /**
   * No other version that is encoded as its base-100 number compares rightly with all of them: exactly the
   * ordinary ones do.
   */
  lemma OrdinaryIff(m: seq<int>)
    requires Parts(m) && NoShift(m, 4) && Value(m) < TWO_32
    ensures Encoded(m) == Some(Value(m))
    ensures Ordinary(m) <==> forall n :: Ordinary(n) ==>
      Encoded(n).Some? && (Value(m) < Encoded(n).value <==> Earlier(m, n))
  {
    EncodedValue(m);
    forall n | Ordinary(n) && Ordinary(m)
      ensures Encoded(n).Some? && (Value(m) < Encoded(n).value <==> Earlier(m, n))
    {
      EncodedMonotone(m, n);
    }
    if !Ordinary(m) {
      var n := if m[1] > 99 then [1, 0, 0, 0] else if m[2] > 99 then [0, 1, 0, 0] else [0, 0, 1, 0];
      assert Ordinary(n) && Value(n) <= Value(m) && Earlier(m, n) by {
        assert m[1] > 99 ==> ZeroUpTo(m, 1);
        assert m[2] > 99 ==> ZeroUpTo(m, 2);
        assert m[3] > 99 ==> ZeroUpTo(m, 3);
      }
      OrdinaryValue(n);
    }
    hide *;
  }

  /** Accepted strings of ordinary versions, end to end. */
  lemma VersionOrder(s: Bytes, t: Bytes)
    requires Numbers(s).Some? && Numbers(t).Some? && Ordinary(Numbers(s).value) && Ordinary(Numbers(t).value)
    ensures Encoded(Numbers(s).value).Some? && Encoded(Numbers(t).value).Some?
    ensures Encoded(Numbers(s).value).value < Encoded(Numbers(t).value).value
       <==> Earlier(Numbers(s).value, Numbers(t).value)
  {
    EncodedMonotone(Numbers(s).value, Numbers(t).value);
  }

  /** A part of three digits shifts the ones before it: 2.3.100 and 20.31.0 get the same number. */
  lemma ThreeDigitsCollide()
    ensures Encoded([2, 3, 100, 0]) == Encoded([20, 31, 0, 0]) == Some(20310000)
    ensures !NoShift([2, 3, 100, 0], 4) && Ordinary([20, 31, 0, 0])
  {
    var shifted, plain: seq<int> := [2, 3, 100, 0], [20, 31, 0, 0];
    assert !NoShift(shifted, 4) && Ordinary(plain) by {
      assert shifted[2] >= 100 && shifted[0] == 2 && !ZeroUpTo(shifted, 2);
    }
    OrdinaryValue(plain);
    FormattedValue(plain);
    assert DigitsValue(Formatted(plain)) == Value(plain) == 20310000 by {
      assert NoShift(plain, 4);
    }
    var long, short := Formatted(shifted), Formatted(plain);
    ShiftedDigits();
    LeadingZero(short);
    AtoiOfDigits(long);
    hide Formatted, DigitsValue, Atoi, AllDigits, NoShift, Ordinary;
  }

  // ---------------------------------------------------------------- from the strings

  /** A version written with three parts. */
  function Dotted(a: nat, b: nat, c: nat): Bytes {
    Decimal(a) + ([DOT] + (Decimal(b) + ([DOT] + Decimal(c))))
  }

  lemma {:induction false} SplitLast(a: Bytes)
    requires AllDigits(a)
    ensures SplitOn(a, DOT) == [a]
  {
    if a != [] {
      SplitLast(a[1..]);
      assert [a[0]] + a[1..] == a && IsDigit(a[0]);
    }
  }

  lemma {:induction false} SplitFirst(a: Bytes, rest: Bytes)
    requires AllDigits(a)
    ensures SplitOn(a + ([DOT] + rest), DOT) == [a] + SplitOn(rest, DOT)
    decreases |a|
  {
    var s := a + ([DOT] + rest);
    if a == [] {
      assert s[1..] == rest;
    } else {
      SplitFirst(a[1..], rest);
      assert s[1..] == a[1..] + ([DOT] + rest);
      assert [a[0]] + a[1..] == a && IsDigit(a[0]);
    }
  }

  lemma AtoiOfDecimal(n: nat)
    requires n < INT_LIMIT
    ensures Atoi(Decimal(n)) == Some(n)
  {
    DecimalValue(n);
    AtoiOfDigits(Decimal(n));
    hide Decimal, DigitsValue, Atoi;
  }

  /** A dotted version is accepted with the parts it was written from. */
  lemma DottedNumbers(a: nat, b: nat, c: nat)
    requires a < INT_LIMIT && b < INT_LIMIT && c < INT_LIMIT
    ensures Numbers(Dotted(a, b, c)) == Some([a, b, c, 0])
  {
    DottedParts(a, b, c);
    AtoiOfDecimal(a);
    AtoiOfDecimal(b);
    AtoiOfDecimal(c);
    var parts := [Decimal(a), Decimal(b), Decimal(c)];
    hide Decimal, Atoi, Dotted, TrimmedPrefix;
    assert forall i :: 0 <= i < 3 ==> Atoi(parts[i]).Some?;
    assert Numbers(Dotted(a, b, c)).value == [a, b, c, 0];
  }

  lemma DottedParts(a: nat, b: nat, c: nat)
    ensures SplitOn(TrimmedPrefix(Dotted(a, b, c)), DOT) == [Decimal(a), Decimal(b), Decimal(c)]
    ensures UNDERSCORE !in Dotted(a, b, c)
  {
    DecimalValue(a);
    DecimalValue(b);
    DecimalValue(c);
    hide Decimal, DigitsValue;
    SplitFirst(Decimal(a), Decimal(b) + ([DOT] + Decimal(c)));
    SplitFirst(Decimal(b), Decimal(c));
    SplitLast(Decimal(c));
    assert IsDigit(Decimal(a)[0]) && Dotted(a, b, c)[0] == Decimal(a)[0];
    assert [Decimal(a)] + ([Decimal(b)] + [Decimal(c)]) == [Decimal(a), Decimal(b), Decimal(c)];
    NoUnderscore(Decimal(a));
    NoUnderscore(Decimal(b));
    NoUnderscore(Decimal(c));
    hide SplitOn, AllDigits;
  }

  lemma NoUnderscore(s: Bytes)
    requires AllDigits(s)
    ensures UNDERSCORE !in s
  {
    forall i | 0 <= i < |s| ensures s[i] != UNDERSCORE {
      assert IsDigit(s[i]);
    }
  }

  /** A version written with four parts. */
  function DottedFour(a: nat, b: nat, c: nat, d: nat): Bytes {
    Decimal(a) + ([DOT] + (Decimal(b) + ([DOT] + (Decimal(c) + ([DOT] + Decimal(d))))))
  }

  lemma DottedFourNumbers(a: nat, b: nat, c: nat, d: nat)
    requires a < INT_LIMIT && b < INT_LIMIT && c < INT_LIMIT && d < INT_LIMIT
    ensures Numbers(DottedFour(a, b, c, d)) == Some([a, b, c, d])
  {
    DottedFourParts(a, b, c, d);
    AtoiOfDecimal(a);
    AtoiOfDecimal(b);
    AtoiOfDecimal(c);
    AtoiOfDecimal(d);
    var parts := [Decimal(a), Decimal(b), Decimal(c), Decimal(d)];
    hide Decimal, Atoi, DottedFour, TrimmedPrefix;
    assert forall i :: 0 <= i < 4 ==> Atoi(parts[i]).Some?;
    assert Numbers(DottedFour(a, b, c, d)).value == [a, b, c, d];
  }

  lemma DottedFourParts(a: nat, b: nat, c: nat, d: nat)
    ensures SplitOn(TrimmedPrefix(DottedFour(a, b, c, d)), DOT) == [Decimal(a), Decimal(b), Decimal(c), Decimal(d)]
    ensures UNDERSCORE !in DottedFour(a, b, c, d)
  {
    DecimalValue(a);
    DecimalValue(b);
    DecimalValue(c);
    DecimalValue(d);
    hide Decimal, DigitsValue;
    SplitFirst(Decimal(a), Decimal(b) + ([DOT] + (Decimal(c) + ([DOT] + Decimal(d)))));
    SplitFirst(Decimal(b), Decimal(c) + ([DOT] + Decimal(d)));
    SplitFirst(Decimal(c), Decimal(d));
    SplitLast(Decimal(d));
    assert IsDigit(Decimal(a)[0]) && DottedFour(a, b, c, d)[0] == Decimal(a)[0];
    assert [Decimal(a)] + ([Decimal(b)] + ([Decimal(c)] + [Decimal(d)]))
        == [Decimal(a), Decimal(b), Decimal(c), Decimal(d)];
    NoUnderscore(Decimal(a));
    NoUnderscore(Decimal(b));
    NoUnderscore(Decimal(c));
    NoUnderscore(Decimal(d));
    hide SplitOn, AllDigits;
  }

  /** The string is accepted as the block version v. */
  predicate Names(s: Bytes, v: nat) {
    Numbers(s).Some? && Encoded(Numbers(s).value) == Some(v)
  }

  /** The block versions of the other modules are the numbers of the versions they are named after. */
  lemma BlockVersionNumbers()
    ensures Names(Dotted(2, 3, 1), V2310) && Names(DottedFour(2, 3, 1, 2), V2312)
    ensures Names(Dotted(2, 3, 5), V235) && Names(DottedFour(2, 3, 6, 1), V2361)
    ensures V2300 == 2300
  {
    hide Names, Dotted, DottedFour;
    ThreeNames(2, 3, 1);
    FourNames(2, 3, 1, 2);
    ThreeNames(2, 3, 5);
    FourNames(2, 3, 6, 1);
  }

  lemma ThreeNames(a: nat, b: nat, c: nat)
    requires a < 100 && b < 100 && c < 100
    ensures Names(Dotted(a, b, c), a * 1000000 + b * 10000 + c * 100)
  {
    hide Dotted, Numbers, Encoded;
    DottedNumbers(a, b, c);
    SmallParts(a, b, c, 0);
  }

  lemma FourNames(a: nat, b: nat, c: nat, d: nat)
    requires a < 100 && b < 100 && c < 100 && d < 100
    ensures Names(DottedFour(a, b, c, d), a * 1000000 + b * 10000 + c * 100 + d)
  {
    hide DottedFour, Numbers, Encoded;
    DottedFourNumbers(a, b, c, d);
    SmallParts(a, b, c, d);
  }

  lemma SmallParts(a: nat, b: nat, c: nat, d: nat)
    requires a < 100 && b < 100 && c < 100 && d < 100
    ensures Encoded([a, b, c, d]) == Some(a * 1000000 + b * 10000 + c * 100 + d)
  {
    var nums: seq<int> := [a, b, c, d];
    assert nums[0] == a && nums[1] == b && nums[2] == c && nums[3] == d;
    assert Value(nums) == a * 1000000 + b * 10000 + c * 100 + d;
    hide Value;
    assert Ordinary(nums);
    OrdinaryValue(nums);
    hide *;
  }

  lemma {:induction false} SplitCount(s: Bytes, separator: byte)
    ensures |SplitOn(s, separator)| == 1 + multiset(s)[separator]
  {
    if s != [] {
      SplitCount(s[1..], separator);
      assert s == [s[0]] + s[1..];
    }
  }

  /**
   * A version is accepted if and only if it holds no underscore, has two or three dots (after a 'v', if it starts with
   * one), and a number in each part; the numbers are its own, and 0 for a missing fourth part.
   */
  lemma AcceptedIff(s: Bytes)
    ensures var t := if s != [] && s[0] == 118 then s[1..] else s;
      var parts := SplitOn(t, 46);
      && (Numbers(s).Some? <==>
            && 95 !in s && 2 <= multiset(t)[46] <= 3
            && forall i :: 0 <= i < |parts| ==> Atoi(parts[i]).Some?)
      && (Numbers(s).Some? ==>
            && 3 <= |parts| <= 4 && |Numbers(s).value| == 4 && (|parts| == 3 ==> Numbers(s).value[3] == 0)
            && forall i :: 0 <= i < |parts| ==> Atoi(parts[i]) == Some(Numbers(s).value[i]))
  {
    var t := if s != [] && s[0] == 118 then s[1..] else s;
    SplitCount(t, 46);
    hide Atoi, SplitOn;
  }

  /** A number is an optional sign and at least one digit, and fits 64 bits with its sign. */
  lemma AtoiIs(s: Bytes)
    requires s != [] && AllDigits(s)
    ensures Atoi(s) == if DigitsValue(s) < 0x8000_0000_0000_0000 then Some(DigitsValue(s) as int) else None
    ensures Atoi([PLUS] + s) == Atoi(s)
    ensures Atoi([MINUS] + s)
         == if DigitsValue(s) <= 0x8000_0000_0000_0000 then Some(-(DigitsValue(s) as int)) else None
  {
    AtoiOfDigits(s);
    var p, m := [PLUS] + s, [MINUS] + s;
    assert p[1..] == s && m[1..] == s && p[0] == PLUS && m[0] == MINUS;
    assert PLUS != MINUS;
    hide DigitsValue, AllDigits;
  }

  lemma AtoiRefuses(s: Bytes)
    requires !AllDigits(s)
    ensures s[0] != MINUS && s[0] != PLUS ==> Atoi(s) == None
    ensures Atoi([PLUS] + s) == None && Atoi([MINUS] + s) == None
    ensures Atoi([]) == None && Atoi([MINUS]) == None && Atoi([PLUS]) == None
  {
    assert ([PLUS] + s)[1..] == s && ([MINUS] + s)[1..] == s;
    hide DigitsValue;
  }

  /** Cut to 32 bits, whatever the parts: the number written, or an error from 64 bits on. */
  lemma EncodedCut(nums: seq<int>)
    requires Parts(nums)
    ensures AllDigits(Formatted(nums))
    ensures Encoded(nums)
         == if DigitsValue(Formatted(nums)) < 0x8000_0000_0000_0000
            then Some(DigitsValue(Formatted(nums)) % 0x1_0000_0000) else None
  {
    FormattedValue(nums);
    AtoiOfDigits(Formatted(nums));
    hide DigitsValue, Formatted, Atoi, NoShift, Value;
  }

  /** The strings "2.3.100" and "20.31.0" get the same number. */
  lemma StringsCollide()
    ensures var s, t := Dotted(2, 3, 100), Dotted(20, 31, 0);
      && s == [50, DOT, 51, DOT, 49, 48, 48] && t == [50, 48, DOT, 51, 49, DOT, 48]
      && Numbers(s).Some? && Numbers(t).Some?
      && Encoded(Numbers(s).value) == Encoded(Numbers(t).value) == Some(20310000)
  {
    ThreeDigitsCollide();
    DottedNumbers(2, 3, 100);
    DottedNumbers(20, 31, 0);
    CollidingStrings();
    hide Encoded, Numbers, Dotted;
  }

  lemma CollidingStrings()
    ensures Dotted(2, 3, 100) == [50, DOT, 51, DOT, 49, 48, 48] && Dotted(20, 31, 0) == [50, 48, DOT, 51, 49, DOT, 48]
  {
    assert Decimal(2) == [50] && Decimal(3) == [51] && Decimal(0) == [48] && Decimal(1) == [49];
    assert Decimal(10) == Decimal(1) + [48] && Decimal(100) == Decimal(10) + [48];
    assert Decimal(20) == Decimal(2) + [48] && Decimal(31) == Decimal(3) + [49];
    hide Decimal;
  }

  lemma ShiftedDigits()
    ensures Formatted([2, 3, 100, 0]) == [ZERO] + Formatted([20, 31, 0, 0])
  {
    assert Decimal(10) == Decimal(1) + [48] && Decimal(100) == Decimal(10) + [48];
    assert Padded(100) == [49, 48, 48];
    assert Padded(2) == [48, 50] && Padded(3) == [48, 51] && Padded(0) == [48, 48];
    assert Padded(20) == [50, 48] && Padded(31) == [51, 49];
    hide Padded;
  }

  lemma {:induction false} LeadingZero(s: Bytes)
    requires AllDigits(s)
    ensures AllDigits([ZERO] + s) && DigitsValue([ZERO] + s) == DigitsValue(s)
    decreases |s|
  {
    if s == [] {
      assert ([ZERO] + s)[..0] == [];
    } else {
      LeadingZero(s[..|s| - 1]);
      assert ([ZERO] + s)[..|s|] == [ZERO] + s[..|s| - 1];
    }
  }
}
