/** Sorted sequences of keys. */
module Sorting {
  import opened ByteStrings

  /** The one sorted sequence of these keys. */
  ghost function SortedKeys(m: multiset<Bytes>): (keys: seq<Bytes>)
    ensures Sorted(keys) && multiset(keys) == m
    decreases |m|
  {
    if m == multiset{} then []
    else
      var k := LeastOf(m);
      SortedKeysStep(k, SortedKeys(m - multiset{k}), m);
      [k] + SortedKeys(m - multiset{k})
  }

  ghost function LeastOf(m: multiset<Bytes>): (k: Bytes)
    requires m != multiset{}
    ensures k in m && forall j :: j in m ==> LessEq(k, j)
  {
    var s := set k | k in m;
    assert s != {} by {
      var k :| k in m;
      assert k in s;
    }
    var least := LeastIn(s);
    assert IsLeast(least, s);
    least
  }

  ghost function LeastIn(s: set<Bytes>): (k: Bytes)
    requires s != {}
    ensures IsLeast(k, s)
  {
    LeastInhabited(s);
    var k :| IsLeast(k, s);
    k
  }

  lemma LeastInhabited(s: set<Bytes>)
    requires s != {}
    ensures exists k :: IsLeast(k, s)
  {
    var k := LeastExists(s);
  }

  lemma SortedKeysStep(k: Bytes, rest: seq<Bytes>, m: multiset<Bytes>)
    requires k in m && (forall j :: j in m ==> LessEq(k, j))
    requires Sorted(rest) && multiset(rest) == m - multiset{k}
    ensures Sorted([k] + rest) && multiset([k] + rest) == m
  {
    hide LessEq;
    assert multiset([k] + rest) == multiset{k} + multiset(rest);
    forall i | 0 <= i < |rest| ensures LessEq(k, rest[i]) {
      assert rest[i] in multiset(rest);
    }
  }

  lemma SortedKeysHas(m: multiset<Bytes>, k: Bytes)
    ensures k in SortedKeys(m) <==> k in m
  {
    hide Sorted;
    assert k in SortedKeys(m) <==> k in multiset(SortedKeys(m));
  }

  lemma CountedTwice(keys: seq<Bytes>, i: nat, j: nat)
    requires i < j < |keys|
    ensures keys[i] == keys[j] ==> multiset(keys)[keys[i]] >= 2
  {
    assert keys == keys[..j] + [keys[j]] + keys[j + 1..];
    assert keys[..j][i] in multiset(keys[..j]);
  }

  lemma SortedSetStrict(keys: seq<Bytes>, s: set<Bytes>)
    requires Sorted(keys) && multiset(keys) == multiset(s)
    ensures StrictlySorted(keys)
  {
    hide Less;
    forall i, j | 0 <= i < j < |keys| ensures keys[i] != keys[j] {
      CountedTwice(keys, i, j);
    }
  }

  /** sort.Strings */
  method SortStrings(keys: seq<Bytes>) returns (sorted: seq<Bytes>)
    ensures Sorted(sorted) && multiset(sorted) == multiset(keys)
    ensures sorted == SortedKeys(multiset(keys))
  {
    sorted := [];
    assert keys[..0] == [];
    for i := 0 to |keys|
      invariant Sorted(sorted) && multiset(sorted) == multiset(keys[..i])
    {
      assert keys[..i + 1] == keys[..i] + [keys[i]];
      sorted := InsertSorted(sorted, keys[i]);
    }
    assert keys[..|keys|] == keys;
    SortedUnique(sorted, SortedKeys(multiset(keys)));
  }

  method InsertSorted(keys: seq<Bytes>, key: Bytes) returns (sorted: seq<Bytes>)
    requires Sorted(keys)
    ensures Sorted(sorted) && multiset(sorted) == multiset(keys) + multiset{key}
  {
    var i := 0;
    while i < |keys| && Less(keys[i], key)
      invariant 0 <= i <= |keys|
      invariant forall j :: 0 <= j < i ==> LessEq(keys[j], key)
    {
      i := i + 1;
    }
    hide Less;
    sorted := keys[..i] + [key] + keys[i..];
    assert multiset(keys[..i] + keys[i..]) == multiset(keys) by {
      assert keys[..i] + keys[i..] == keys;
    }
    if i < |keys| {
      LessTotal(keys[i], key);
      forall j | i <= j < |keys| ensures LessEq(key, keys[j]) {
        assert LessEq(keys[i], keys[j]);
        LessEqTransitive(key, keys[i], keys[j]);
      }
    }
  }
}
