/** State keys: how a contract's key and field become one byte string, and back. */
module Keys {
  import opened ByteStrings

  const HASH: byte := 35                 // '#'
  const MAX_STATE_KEY_LEN: nat := 1024
  const MAX_WRITE_KEY_LEN: nat := 600
  const SEPARATOR: Bytes := [HASH]

  /** The character class of the state regex: letters, digits, '.', '_' and '-'. */
  predicate Allowed(b: byte) {
    97 <= b <= 122 || 65 <= b <= 90 || 48 <= b <= 57 || b == 46 || b == 95 || b == 45
  }

  predicate MatchesStateRegex(s: Bytes) {
    s != [] && forall i :: 0 <= i < |s| ==> Allowed(s[i])
  }

  predicate CheckKeyFieldStr(key: Bytes, field: Bytes) {
    && |key| <= MAX_STATE_KEY_LEN
    && MatchesStateRegex(key)
    && (field == [] || (|field| <= MAX_STATE_KEY_LEN && MatchesStateRegex(field)))
  }

  function GetKey(key: Bytes, field: Bytes): Bytes {
    if |field| > 0 then key + SEPARATOR + field else key
  }

  /** The key of the per-contract read and write maps. */
  function ConstructKey(contract: Bytes, key: Bytes): Bytes {
    contract + SEPARATOR + key
  }

  predicate HashFree(s: Bytes) {
    HASH !in s
  }

  /** What the syscall layer accepts, character by character. */
  lemma AllowedIs(b: byte)
    ensures Allowed(b) <==>
      b as char in "ABCDEFGHIJKLMNOPQRSTUVWXYZ" || b as char in "abcdefghijklmnopqrstuvwxyz"
      || b as char in "0123456789" || b as char in "._-"
  {
  }

  lemma KeyFieldAccepted(key: Bytes, field: Bytes)
    ensures CheckKeyFieldStr(key, field) <==>
      && 1 <= |key| <= 1024 && |field| <= 1024
      && forall b :: b in key || b in field ==> Allowed(b)
  {
  }

  // ---------------------------------------------------------------- splitting

  /** strings.Split with a one-byte separator. */
  function SplitOn(s: Bytes, separator: byte): (parts: seq<Bytes>)
    ensures parts != []
  {
    if s == [] then [[]]
    else
      var rest := SplitOn(s[1..], separator);
      if s[0] == separator then [[]] + rest else [[s[0]] + rest[0]] + rest[1..]
  }

  function Split(s: Bytes): (parts: seq<Bytes>)
    ensures parts != []
  {
    SplitOn(s, HASH)
  }

  /** The key and field an iterator hands back to the contract. */
  function SplitKey(s: Bytes): (Bytes, Bytes) {
    var parts := Split(s);
    (parts[0], if |parts| > 1 then parts[1] else [])
  }

  lemma {:induction false} SplitHashFree(s: Bytes)
    requires HashFree(s)
    ensures Split(s) == [s]
  {
    if s != [] {
      SplitHashFree(s[1..]);
      assert [s[0]] + s[1..] == s;
    }
  }

  lemma {:induction false} SplitAtSeparator(a: Bytes, b: Bytes)
    requires HashFree(a)
    ensures Split(a + SEPARATOR + b) == [a] + Split(b)
  {
    var s := a + SEPARATOR + b;
    if a == [] {
      assert s[1..] == b;
    } else {
      SplitAtSeparator(a[1..], b);
      assert s[1..] == a[1..] + SEPARATOR + b;
      assert [a[0]] + a[1..] == a;
    }
  }

  lemma {:induction false} SplitHeadHashFree(s: Bytes)
    ensures HashFree(Split(s)[0])
  {
    if s != [] {
      SplitHeadHashFree(s[1..]);
    }
  }

  /** Splitting undoes GetKey exactly when neither the key nor the field holds a '#'. */
  lemma SplitKeyRoundTrip(key: Bytes, field: Bytes)
    ensures SplitKey(GetKey(key, field)) == (key, field) <==> HashFree(key) && HashFree(field)
  {
    var s := GetKey(key, field);
    SplitHeadHashFree(s);
    if HashFree(key) {
      if field == [] {
        SplitHashFree(s);
      } else {
        SplitAtSeparator(key, field);
        SplitHeadHashFree(field);
        if HashFree(field) {
          SplitHashFree(field);
        }
      }
    }
  }

  /** On pairs the syscall layer accepts, the state key determines the key and the field. */
  lemma AcceptedKeyRoundTrip(key: Bytes, field: Bytes)
    requires CheckKeyFieldStr(key, field)
    ensures SplitKey(GetKey(key, field)) == (key, field)
  {
    SplitKeyRoundTrip(key, field);
  }

  lemma GetKeyInjective(key: Bytes, field: Bytes, key': Bytes, field': Bytes)
    requires CheckKeyFieldStr(key, field) && CheckKeyFieldStr(key', field')
    requires GetKey(key, field) == GetKey(key', field')
    ensures key == key' && field == field'
  {
    AcceptedKeyRoundTrip(key, field);
    AcceptedKeyRoundTrip(key', field');
  }

  /** The part of a map key before its first '#': the contract, when contract names hold no '#'. */
  function Owner(s: Bytes): Bytes {
    Split(s)[0]
  }

  lemma OwnerOfConstructKey(contract: Bytes, key: Bytes)
    requires HashFree(contract)
    ensures Owner(ConstructKey(contract, key)) == contract
  {
    SplitAtSeparator(contract, key);
  }

  lemma ConstructKeyInjective(contract: Bytes, key: Bytes, contract': Bytes, key': Bytes)
    requires HashFree(contract) && HashFree(contract')
    requires ConstructKey(contract, key) == ConstructKey(contract', key')
    ensures contract == contract' && key == key'
  {
    OwnerOfConstructKey(contract, key);
    OwnerOfConstructKey(contract', key');
    SameContractInjective(contract, key, key');
  }

  /** Within one contract the map key determines the state key, whatever the name holds. */
  lemma SameContractInjective(contract: Bytes, key: Bytes, key': Bytes)
    requires ConstructKey(contract, key) == ConstructKey(contract, key')
    ensures key == key'
  {
    var n := |contract| + 1;
    assert key == ConstructKey(contract, key)[n..];
    assert key' == ConstructKey(contract, key')[n..];
  }

  // ---------------------------------------------------------------- prefix ranges

  /** string(b): the UTF-8 encoding of the code point b. */
  function RuneString(b: byte): Bytes {
    if b < 128 then [b] else [192 + b / 64, 128 + b % 64]
  }

  /** The exclusive upper bound of a prefix scan; the last byte is incremented modulo 256. */
  function PrefixLimit(key: Bytes): Bytes
    requires key != []
  {
    var last := key[|key| - 1];
    key[..|key| - 1] + RuneString(if last == 255 then 0 else last + 1)
  }

  predicate InRange(s: Bytes, start: Bytes, limit: Bytes) {
    LessEq(start, s) && Less(s, limit)
  }

  lemma {:induction false} LessCommonPrefix(p: Bytes, a: Bytes, b: Bytes)
    ensures Less(p + a, p + b) <==> Less(a, b)
  {
    if p == [] {
      assert p + a == a && p + b == b;
    } else {
      LessCommonPrefix(p[1..], a, b);
      assert (p + a)[1..] == p[1..] + a && (p + b)[1..] == p[1..] + b;
    }
  }

  lemma {:induction false} LessDivergent(p: Bytes, s: Bytes, a: Bytes, b: Bytes)
    requires !(p <= s)
    ensures Less(p + a, s) <==> Less(p + b, s)
    ensures Less(s, p + a) <==> Less(s, p + b)
    ensures p + a != s
    ensures Less(p + a, s) ==> !Less(s, p + a)
  {
    assert p <= p + a;
    if s != [] && p[0] == s[0] {
      assert p == [p[0]] + p[1..] && s == [s[0]] + s[1..];
      LessDivergent(p[1..], s[1..], a, b);
      assert (p + a)[1..] == p[1..] + a && (p + b)[1..] == p[1..] + b;
    }
  }

  /**
   * The half-open interval [key, limit) is the set of byte strings with prefix key exactly when the
   * last byte of key is below 127.
   */
  lemma PrefixRangeExact(key: Bytes)
    requires key != []
    ensures (forall s: Bytes :: InRange(s, key, PrefixLimit(key)) <==> key <= s) <==> key[|key| - 1] < 127
  {
    var p, last := key[..|key| - 1], key[|key| - 1];
    assert key == p + [last];
    if last < 127 {
      forall s: Bytes ensures InRange(s, key, PrefixLimit(key)) <==> key <= s {
        PrefixRangeOneByte(p, last, s);
      }
    } else {
      var tail: Bytes :=
        if last == 127 then [128] else if last < 194 then [194] else if last == 194 then [195] else [last, 255];
      var s := p + tail;
      LessCommonPrefix(p, [last], tail);
      LessCommonPrefix(p, tail, RuneString(if last == 255 then 0 else last + 1));
      assert (key <= s) <==> s[|p|] == last;
      assert InRange(s, key, PrefixLimit(key)) <==> !(key <= s);
    }
  }

  lemma PrefixRangeOneByte(p: Bytes, last: byte, s: Bytes)
    requires last < 127
    ensures InRange(s, p + [last], p + [last + 1]) <==> p + [last] <= s
  {
    if p <= s {
      var t := s[|p|..];
      assert s == p + t;
      LessCommonPrefix(p, [last], t);
      LessCommonPrefix(p, t, [last + 1]);
      assert t != [] ==> t == [t[0]] + t[1..];
      assert (p + [last] <= s) <==> (t != [] && t[0] == last);
    } else {
      LessDivergent(p, s, [last], [last + 1]);
      assert p <= p + [last];
    }
  }

  /** The range scanned for an accepted prefix holds exactly the keys having that prefix. */
  lemma AcceptedPrefixRange(key: Bytes, field: Bytes, s: Bytes)
    requires CheckKeyFieldStr(key, field)
    ensures var k := GetKey(key, field);
      k != [] && (InRange(s, k, PrefixLimit(k)) <==> k <= s)
  {
    PrefixRangeExact(GetKey(key, field));
  }
}
