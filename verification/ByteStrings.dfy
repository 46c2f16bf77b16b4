/** Byte strings, as Go's `string` and `[]byte` hold them, and the order `<` gives them. */
module ByteStrings {

  newtype byte = x: int | 0 <= x < 256

  type Bytes = seq<byte>

  datatype Option<+T> = None | Some(value: T)

  /** Go's `<` on strings: lexicographic, a proper prefix comes first. */
  predicate Less(a: Bytes, b: Bytes) {
    if b == [] then false
    else if a == [] then true
    else a[0] < b[0] || (a[0] == b[0] && Less(a[1..], b[1..]))
  }

  predicate LessEq(a: Bytes, b: Bytes) {
    a == b || Less(a, b)
  }

  /** One string is less than another when it is a proper prefix of it or smaller where they first differ. */
  lemma {:induction false} LessIs(a: Bytes, b: Bytes)
    ensures Less(a, b) <==> exists n :: LessFrom(a, b, n)
  {
    if a != [] && b != [] && a[0] == b[0] {
      LessIs(a[1..], b[1..]);
      if n :| LessFrom(a[1..], b[1..], n) {
        assert LessFrom(a, b, n + 1) by {
          assert a[..n + 1] == [a[0]] + a[1..][..n] && b[..n + 1] == [b[0]] + b[1..][..n];
        }
      }
      if n :| LessFrom(a, b, n) {
        assert n > 0;
        assert LessFrom(a[1..], b[1..], n - 1) by {
          assert a[1..][..n - 1] == a[..n][1..] && b[1..][..n - 1] == b[..n][1..];
        }
      }
    } else if a != [] && b != [] && a[0] < b[0] {
      assert LessFrom(a, b, 0);
    } else if a == [] && b != [] {
      assert LessFrom(a, b, 0);
    } else {
      forall n | 0 < n <= |a| && n < |b| ensures a[..n] != b[..n] {
        assert a[..n][0] == a[0] && b[..n][0] == b[0];
      }
    }
  }

  /** The strings agree on their first n bytes, and then a ends or has the smaller byte. */
  predicate LessFrom(a: Bytes, b: Bytes, n: int) {
    0 <= n <= |a| && n < |b| && a[..n] == b[..n] && (n == |a| || a[n] < b[n])
  }

  lemma {:induction false} LessIrreflexive(a: Bytes)
    ensures !Less(a, a)
  {
    if a != [] {
      LessIrreflexive(a[1..]);
    }
  }

  lemma {:induction false} LessTransitive(a: Bytes, b: Bytes, c: Bytes)
    requires Less(a, b) && Less(b, c)
    ensures Less(a, c)
  {
    if a != [] && a[0] == b[0] && b[0] == c[0] {
      LessTransitive(a[1..], b[1..], c[1..]);
    }
  }

  lemma {:induction false} LessTotal(a: Bytes, b: Bytes)
    ensures a == b || Less(a, b) || Less(b, a)
  {
    if a != [] && b != [] {
      if a[0] == b[0] {
        LessTotal(a[1..], b[1..]);
        assert a == [a[0]] + a[1..] && b == [b[0]] + b[1..];
      }
    }
  }

  lemma LessAsymmetric(a: Bytes, b: Bytes)
    requires Less(a, b)
    ensures !Less(b, a) && a != b
  {
    LessIrreflexive(a);
    if Less(b, a) {
      LessTransitive(a, b, a);
    }
  }

  ghost predicate IsLeast(k: Bytes, s: set<Bytes>) {
    k in s && forall j :: j in s ==> LessEq(k, j)
  }

  lemma LessEqTransitive(a: Bytes, b: Bytes, c: Bytes)
    requires LessEq(a, b) && LessEq(b, c)
    ensures LessEq(a, c)
  {
    if a != b && b != c {
      LessTransitive(a, b, c);
    }
  }

  lemma LessEqAntisymmetric(a: Bytes, b: Bytes)
    requires LessEq(a, b) && LessEq(b, a)
    ensures a == b
  {
    if a != b {
      LessAsymmetric(a, b);
    }
  }

  /** A finite, non-empty set of keys has a least key. */
  lemma {:induction false} LeastExists(s: set<Bytes>) returns (k: Bytes)
    requires s != {}
    ensures IsLeast(k, s)
  {
    hide Less;
    k :| k in s;
    var rest := s - {k};
    assert s == rest + {k};
    if rest != {} {
      var m := LeastExists(rest);
      LessTotal(k, m);
      if Less(k, m) {
        forall j | j in rest ensures LessEq(k, j) {
          LessEqTransitive(k, m, j);
        }
      } else {
        k := m;
      }
    }
  }

  ghost predicate Sorted(keys: seq<Bytes>) {
    forall i, j :: 0 <= i < j < |keys| ==> LessEq(keys[i], keys[j])
  }

  ghost predicate StrictlySorted(keys: seq<Bytes>) {
    forall i, j :: 0 <= i < j < |keys| ==> Less(keys[i], keys[j])
  }

  lemma SortedHead(a: seq<Bytes>, k: Bytes)
    requires Sorted(a) && k in multiset(a)
    ensures a != [] && LessEq(a[0], k)
  {
    hide Less;
    assert k in a;
  }

  lemma SortedTail(a: seq<Bytes>)
    requires Sorted(a) && a != []
    ensures Sorted(a[1..]) && multiset(a[1..]) == multiset(a) - multiset{a[0]} && a[0] in multiset(a)
  {
    hide LessEq;
    assert a == [a[0]] + a[1..];
  }

  lemma SameLength(a: seq<Bytes>, b: seq<Bytes>)
    requires multiset(a) == multiset(b)
    ensures |a| == |b|
  {
    assert |a| == |multiset(a)|;
  }

  /** Two sorted sequences holding the same keys, with the same multiplicities, are equal. */
  lemma {:induction false} SortedUnique(a: seq<Bytes>, b: seq<Bytes>)
    requires Sorted(a) && Sorted(b)
    requires multiset(a) == multiset(b)
    ensures a == b
  {
    hide LessEq, Sorted;
    SameLength(a, b);
    if a != [] {
      SortedTail(a);
      SortedTail(b);
      SortedHead(b, a[0]);
      SortedHead(a, b[0]);
      LessEqAntisymmetric(a[0], b[0]);
      SortedUnique(a[1..], b[1..]);
      assert a == [a[0]] + a[1..] && b == [b[0]] + b[1..];
    }
  }
}
