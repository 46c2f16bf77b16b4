/** What a batch read returns and leaves in the read set. */
module Batches {
  import opened ByteStrings
  import opened Keys
  import opened Layers
  import opened BlockVersions
  import opened BatchReads
  import opened Programs

  // ---------------------------------------------------------------- what a batch read amounts to

  /** The value a single Get gives for the key: own write, else value read, else the snapshot's. */
  function ValueFor(st: Stack, snap: BatchKey -> Bytes, b: BatchKey): Bytes {
    match FindKey(st, Writes, b)
    case Some(v) => v
    case None =>
      match FindKey(st, Reads, b)
      case Some(v) => v
      case None => snap(b)
  }

  function FillAll(keys: seq<BatchKey>, value: BatchKey -> Bytes): (filled: seq<Filled>)
    ensures |filled| == |keys|
  {
    seq(|keys|, i requires 0 <= i < |keys| => Filled(keys[i], value(keys[i])))
  }

  lemma ValueForIsGet(env: Env, x: Context, snap: BatchKey -> Bytes, b: BatchKey)
    requires x.stack != []
    requires env.snapshot(|x.queries|, b.contract, GetKey(b.key, b.field)) == Some(snap(b))
    ensures GetStep(env, x, b.contract, GetKey(b.key, b.field)).1 == Value(ValueFor(x.stack, snap, b))
  {
    hide GetKey, Lookup;
  }

  lemma FillAppend(keys: seq<BatchKey>, b: BatchKey, value: BatchKey -> Bytes)
    ensures FillAll(keys + [b], value) == FillAll(keys, value) + [Filled(b, value(b))]
  {
  }

  lemma OneMore(p: seq<Filled>, m: seq<Filled>, f: Filled)
    ensures multiset(p + [f] + m) == multiset(p + m) + multiset{f}
    ensures multiset(p + (m + [f])) == multiset(p + m) + multiset{f}
  {
    assert p + (m + [f]) == (p + m) + [f];
    assert multiset(p + [f] + m) == multiset(p) + multiset{f} + multiset(m);
  }

  lemma PresentMissingStep(st: Stack, side: Side, keys: seq<BatchKey>, b: BatchKey, value: BatchKey -> Bytes)
    requires FindKey(st, side, b).Some? ==> FindKey(st, side, b) == Some(value(b))
    ensures var p, q, f := Present(st, side, keys), FillAll(Missing(st, side, keys), value), Filled(b, value(b));
      Present(st, side, keys + [b]) + FillAll(Missing(st, side, keys + [b]), value)
        == if FindKey(st, side, b).Some? then p + [f] + q else p + (q + [f])
  {
    assert (keys + [b])[..|keys|] == keys;
    FillAppend(Missing(st, side, keys), b, value);
    hide FindKey, FillAll;
  }

  /** Found and missing keys together are the requested ones. */
  lemma {:induction false} PresentMissing(st: Stack, side: Side, keys: seq<BatchKey>, value: BatchKey -> Bytes)
    requires forall b :: b in keys && FindKey(st, side, b).Some? ==> FindKey(st, side, b) == Some(value(b))
    ensures multiset(Present(st, side, keys) + FillAll(Missing(st, side, keys), value))
         == multiset(FillAll(keys, value))
  {
    if keys == [] {
      assert FillAll([], value) == [];
    } else {
      var init, b := keys[..|keys| - 1], keys[|keys| - 1];
      assert keys == init + [b];
      hide *;
      PresentMissing(st, side, init, value);
      PresentMissingStep(st, side, init, b, value);
      OneMore(Present(st, side, init), FillAll(Missing(st, side, init), value), Filled(b, value(b)));
      FillAppend(init, b, value);
      assert multiset(FillAll(init, value) + [Filled(b, value(b))])
          == multiset(FillAll(init, value)) + multiset{Filled(b, value(b))};
    }
  }

  lemma {:induction false} NoneMissing(st: Stack, side: Side, keys: seq<BatchKey>, value: BatchKey -> Bytes)
    requires forall b :: b in keys && FindKey(st, side, b).Some? ==> FindKey(st, side, b) == Some(value(b))
    requires Missing(st, side, keys) == []
    ensures Present(st, side, keys) == FillAll(keys, value)
  {
    hide FindKey, FillAll;
    if keys != [] {
      var n := |keys| - 1;
      assert keys == keys[..n] + [keys[n]];
      NoneMissing(st, side, keys[..n], value);
      FillAppend(keys[..n], keys[n], value);
    } else {
      assert FillAll([], value) == [];
    }
  }

  // ---------------------------------------------------------------- sorting by tag

  /** Requests with one tag are the same request. */
  predicate TagsDetermine(keys: seq<BatchKey>) {
    forall i, j :: 0 <= i < |keys| && 0 <= j < |keys| && Tag(keys[i]) == Tag(keys[j]) ==> keys[i] == keys[j]
  }

  /**
   * Sorting the results of all requests puts each request's own result in its place, duplicates
   * included, exactly when requests with one tag are the same request.
   */
  lemma SortedIsRequestOrder(keys: seq<BatchKey>, results: seq<Filled>, sorted: seq<Filled>, value: BatchKey -> Bytes)
    requires multiset(results) == multiset(FillAll(keys, value)) && SortedResults(keys, results) == Some(sorted)
    ensures sorted == FillAll(keys, value) <==> TagsDetermine(keys)
  {
    hide Tag;
    if TagsDetermine(keys) {
      forall i | 0 <= i < |keys| ensures sorted[i] == Filled(keys[i], value(keys[i])) {
        LastTaggedIn(results, Tag(keys[i]));
        ResultOfRequest(keys, results, value, sorted[i]);
      }
    } else {
      var i, j :| 0 <= i < |keys| && 0 <= j < |keys| && Tag(keys[i]) == Tag(keys[j]) && keys[i] != keys[j];
      assert LastTagged(results, Tag(keys[i])) == Some(sorted[i]);
      assert LastTagged(results, Tag(keys[j])) == Some(sorted[j]);
      assert FillAll(keys, value)[i].request != FillAll(keys, value)[j].request;
    }
  }

  /** What sorting compares: key, '#', field. */
  predicate Matches(a: BatchKey, b: BatchKey) {
    a.key + [35] + a.field == b.key + [35] + b.field
  }

  lemma {:induction false} LastTaggedAt(results: seq<Filled>, b: BatchKey, j: nat)
    requires j < |results| && Matches(results[j].request, b)
    requires forall j' :: j < j' < |results| ==> !Matches(results[j'].request, b)
    ensures LastTagged(results, Tag(b)) == Some(results[j])
    decreases |results|
  {
    var n := |results| - 1;
    if j < n {
      assert !Matches(results[n].request, b);
      LastTaggedAt(results[..n], b, j);
    }
  }

  /** Sorting is an error exactly when the numbers differ or some request matches no result. */
  lemma SortRefusedIff(keys: seq<BatchKey>, results: seq<Filled>)
    ensures SortedResults(keys, results) == None <==>
      |keys| != |results| || exists b :: b in keys && forall f :: f in results ==> !Matches(f.request, b)
  {
    forall b ensures LastTagged(results, Tag(b)).None? <==> forall f :: f in results ==> !Matches(f.request, b) {
      LastTaggedIn(results, Tag(b));
    }
    hide LastTagged, Matches, Tag;
    if i :| 0 <= i < |keys| && LastTagged(results, Tag(keys[i])).None? {
      assert keys[i] in keys;
    }
  }

  /** Otherwise each request gets the last result that matches it. */
  lemma SortedAt(keys: seq<BatchKey>, results: seq<Filled>, i: nat, j: nat)
    requires SortedResults(keys, results).Some? && i < |keys| && j < |results| && Matches(results[j].request, keys[i])
    requires forall j' :: j < j' < |results| ==> !Matches(results[j'].request, keys[i])
    ensures |SortedResults(keys, results).value| == |keys| && SortedResults(keys, results).value[i] == results[j]
  {
    LastTaggedAt(results, keys[i], j);
    hide LastTagged, Matches, Tag;
  }

  /** Otherwise results are lost: what comes back is not even a rearrangement of what was asked for. */
  lemma SortedLosesIff(keys: seq<BatchKey>, results: seq<Filled>, sorted: seq<Filled>, value: BatchKey -> Bytes)
    requires multiset(results) == multiset(FillAll(keys, value)) && SortedResults(keys, results) == Some(sorted)
    ensures multiset(sorted) == multiset(FillAll(keys, value)) <==> TagsDetermine(keys)
  {
    hide Tag;
    SortedIsRequestOrder(keys, results, sorted, value);
    if !TagsDetermine(keys) {
      var i, j :| 0 <= i < |keys| && 0 <= j < |keys| && Tag(keys[i]) == Tag(keys[j]) && keys[i] != keys[j];
      LastTaggedIn(results, Tag(keys[i]));
      var kept := LastTagged(results, Tag(keys[i])).value;
      Displaced(keys, results, sorted, value, if kept.request == keys[i] then j else i);
    }
  }

  /** A request whose tag is kept by another one's result is not among the results. */
  lemma Displaced(keys: seq<BatchKey>, results: seq<Filled>, sorted: seq<Filled>, value: BatchKey -> Bytes, i: nat)
    requires SortedResults(keys, results) == Some(sorted) && i < |keys|
    requires LastTagged(results, Tag(keys[i])).Some? && LastTagged(results, Tag(keys[i])).value.request != keys[i]
    ensures forall f :: f in sorted ==> f.request != keys[i]
    ensures multiset(sorted) != multiset(FillAll(keys, value))
  {
    hide Tag;
    forall f | f in sorted ensures f.request != keys[i] {
      var m :| 0 <= m < |sorted| && sorted[m] == f;
      LastTaggedIn(results, Tag(keys[m]));
    }
    var f := FillAll(keys, value)[i];
    assert f in multiset(FillAll(keys, value)) && f !in multiset(sorted);
  }

  lemma ResultOfRequest(keys: seq<BatchKey>, results: seq<Filled>, value: BatchKey -> Bytes, f: Filled)
    requires multiset(results) == multiset(FillAll(keys, value)) && f in results
    ensures f.request in keys && f == Filled(f.request, value(f.request))
  {
    assert f in multiset(results);
    assert f in FillAll(keys, value);
  }

  lemma RequestHasResult(keys: seq<BatchKey>, results: seq<Filled>, value: BatchKey -> Bytes, i: nat)
    requires multiset(results) == multiset(FillAll(keys, value)) && i < |keys|
    ensures |results| == |keys|
    ensures LastTagged(results, Tag(keys[i])).Some?
  {
    hide Tag;
    assert |results| == |multiset(results)| == |multiset(FillAll(keys, value))| == |keys|;
    var f := FillAll(keys, value)[i];
    assert f in multiset(results);
    assert f in results;
    LastTaggedIn(results, Tag(keys[i]));
  }

  /** In one contract, accepted keys and fields are determined by the tag. */
  lemma AcceptedTagsDetermine(keys: seq<BatchKey>, contract: Bytes)
    requires forall i :: 0 <= i < |keys| ==>
      keys[i].contract == contract && CheckKeyFieldStr(keys[i].key, keys[i].field)
    ensures TagsDetermine(keys)
  {
    forall i, j | 0 <= i < |keys| && 0 <= j < |keys| && Tag(keys[i]) == Tag(keys[j]) ensures keys[i] == keys[j] {
      TagInjective(keys[i], keys[j]);
    }
  }

  lemma TagInjective(a: BatchKey, b: BatchKey)
    requires CheckKeyFieldStr(a.key, a.field) && CheckKeyFieldStr(b.key, b.field) && Tag(a) == Tag(b)
    ensures a.key == b.key && a.field == b.field
  {
    TagSplits(a);
    TagSplits(b);
    hide Split, CheckKeyFieldStr;
    assert [a.key, a.field][0] == [b.key, b.field][0];
    assert [a.key, a.field][1] == [b.key, b.field][1];
  }

  lemma TagSplits(a: BatchKey)
    requires CheckKeyFieldStr(a.key, a.field)
    ensures Split(Tag(a)) == [a.key, a.field]
  {
    assert HashFree(a.key) && HashFree(a.field);
    SplitAtSeparator(a.key, a.field);
    SplitHashFree(a.field);
    hide Split;
  }

  // ---------------------------------------------------------------- the read of a batch

  lemma SameFill(keys: seq<BatchKey>, value: BatchKey -> Bytes, value': BatchKey -> Bytes)
    requires forall b :: b in keys ==> value(b) == value'(b)
    ensures FillAll(keys, value) == FillAll(keys, value')
  {
  }

  function Values(st: Stack, snap: BatchKey -> Bytes): BatchKey -> Bytes {
    b => ValueFor(st, snap, b)
  }

  lemma SourceValues(st: Stack, keys: seq<BatchKey>, snap: BatchKey -> Bytes, b: BatchKey)
    ensures FindKey(st, Writes, b).Some? ==> FindKey(st, Writes, b) == Some(Values(st, snap)(b))
    ensures b in Missing(st, Writes, keys) && FindKey(st, Reads, b).Some? ==>
      FindKey(st, Reads, b) == Some(Values(st, snap)(b))
    ensures b in Unread(st, keys) ==> snap(b) == Values(st, snap)(b)
  {
    hide FindKey;
    if b in Missing(st, Writes, keys) {
      MissingAreMissing(st, Writes, keys, b);
    }
    if b in Unread(st, keys) {
      MissingAreMissing(st, Reads, Missing(st, Writes, keys), b);
      MissingAreMissing(st, Writes, keys, b);
    }
  }

  /** Own writes, values read and the snapshot's answers together: every request with the value Get gives it. */
  lemma GatheredAll(st: Stack, keys: seq<BatchKey>, snap: BatchKey -> Bytes, batch: seq<Filled>)
    requires multiset(batch) == multiset(FillAll(Unread(st, keys), snap))
    ensures multiset(batch + FromSets(st, keys)) == multiset(FillAll(keys, Values(st, snap)))
    ensures Missing(st, Writes, keys) == [] ==> Present(st, Writes, keys) == FillAll(keys, Values(st, snap))
  {
    var value, missing := Values(st, snap), Missing(st, Writes, keys);
    var w, r := Present(st, Writes, keys), Present(st, Reads, missing);
    forall b
      ensures FindKey(st, Writes, b).Some? ==> FindKey(st, Writes, b) == Some(value(b))
      ensures b in missing && FindKey(st, Reads, b).Some? ==> FindKey(st, Reads, b) == Some(value(b))
      ensures b in Unread(st, keys) ==> snap(b) == value(b)
    {
      SourceValues(st, keys, snap, b);
    }
    assert Unread(st, keys) == Missing(st, Reads, missing) && FromSets(st, keys) == w + r;
    hide *;
    SameFill(Unread(st, keys), snap, value);
    PresentMissing(st, Writes, keys, value);
    PresentMissing(st, Reads, missing, value);
    if missing == [] {
      NoneMissing(st, Writes, keys, value);
    }
    assert multiset(w + FillAll(missing, value)) == multiset(w) + multiset(FillAll(missing, value));
    assert multiset(r + FillAll(Unread(st, keys), value)) == multiset(r) + multiset(FillAll(Unread(st, keys), value));
    assert multiset(batch + (w + r)) == multiset(batch) + multiset(w) + multiset(r);
  }

  lemma AllFound(st: Stack, keys: seq<BatchKey>, snap: BatchKey -> Bytes)
    ensures Missing(st, Writes, keys) == [] ==> Present(st, Writes, keys) == FillAll(keys, Values(st, snap))
    ensures Unread(st, keys) == [] ==> multiset(FromSets(st, keys)) == multiset(FillAll(keys, Values(st, snap)))
  {
    assert FillAll([], snap) == [] && [] + FromSets(st, keys) == FromSets(st, keys);
    assert Missing(st, Reads, []) == [];
    hide *;
    if Unread(st, keys) == [] {
      GatheredAll(st, keys, snap, []);
    } else {
      GatheredAll(st, keys, snap, FillAll(Unread(st, keys), snap));
    }
  }

  lemma EveryRequestTagged(keys: seq<BatchKey>, results: seq<Filled>, value: BatchKey -> Bytes)
    requires multiset(results) == multiset(FillAll(keys, value))
    ensures |keys| == |results| && forall i :: 0 <= i < |keys| ==> LastTagged(results, Tag(keys[i])).Some?
  {
    assert |results| == |multiset(results)| == |multiset(FillAll(keys, value))| == |keys|;
    hide *;
    forall i | 0 <= i < |keys| ensures LastTagged(results, Tag(keys[i])).Some? {
      RequestHasResult(keys, results, value, i);
    }
  }

  /** What the snapshot may give for a batch: an error, or each key's value, in any order. */
  ghost predicate AnswerOf(answer: Option<seq<Filled>>, keys: seq<BatchKey>, snap: BatchKey -> Bytes) {
    answer.Some? ==> multiset(answer.value) == multiset(FillAll(keys, snap))
  }

  /**
   * Results a batch read may give. By path, they are the requests with the values single Gets give them, in
   * request order or not; or from above 2.3.6.1 results are lost where tags do not tell requests apart.
   */
  ghost predicate Answered(version: nat, st: Stack, keys: seq<BatchKey>, answer: Option<seq<Filled>>,
                           snap: BatchKey -> Bytes, results: Option<seq<Filled>>)
  {
    var filled := FillAll(keys, Values(st, snap));
    if Missing(st, Writes, keys) == [] then results == Some(filled)
    else if Unread(st, keys) == [] then
      && results.Some? && multiset(results.value) == multiset(filled)
      && (results.value == filled <==> !ReadBeforeWritten(st, keys))
    else if answer.None? then results.None?
    else if version <= V2361 then
      && results.Some? && multiset(results.value) == multiset(filled)
      && (results.value == filled <==> answer.value == FillAll(Unread(st, keys), snap) && SourcesInOrder(st, keys))
    else
      && results.Some?
      && (results.value == filled <==> TagsDetermine(keys))
      && (multiset(results.value) == multiset(filled) <==> TagsDetermine(keys))
  }

  lemma AnsweredBySnapshot(version: nat, st: Stack, keys: seq<BatchKey>, answer: seq<Filled>, snap: BatchKey -> Bytes)
    requires Unread(st, keys) != [] && AnswerOf(Some(answer), Unread(st, keys), snap)
    ensures Answered(version, st, keys, Some(answer), snap, Returned(version, keys, answer + FromSets(st, keys)))
  {
    var gathered := answer + FromSets(st, keys);
    GatheredAll(st, keys, snap, answer);
    assert Missing(st, Reads, []) == [] && Unread(st, keys) == Missing(st, Reads, Missing(st, Writes, keys));
    EveryRequestTagged(keys, gathered, Values(st, snap));
    if version > V2361 {
      SortedIsRequestOrder(keys, gathered, SortedResults(keys, gathered).value, Values(st, snap));
      SortedLosesIff(keys, gathered, SortedResults(keys, gathered).value, Values(st, snap));
    } else {
      ThreeSourceOrder(st, keys, snap, answer);
    }
    hide Present, Missing, Unread, FillAll, Values, LastTagged, FromSets, TagsDetermine, SourcesInOrder;
  }

  lemma AnsweredBySets(version: nat, st: Stack, keys: seq<BatchKey>, answer: Option<seq<Filled>>,
                       snap: BatchKey -> Bytes)
    requires Unread(st, keys) == []
    ensures Answered(version, st, keys, answer, snap, Some(FromSets(st, keys)))
  {
    AllFound(st, keys, snap);
    TwoSourceOrder(st, keys, snap);
    assert Missing(st, Writes, keys) == [] ==> FromSets(st, keys) == Present(st, Writes, keys) by {
      assert Present(st, Reads, []) == [];
    }
    hide Present, Missing, Unread, FillAll, Values, FromSets, ReadBeforeWritten;
  }

  /**
   * Up to 2.3.6.1, and on the paths over own writes and values read, each request comes back with the value a
   * single Get gives it, in an order by path. From above 2.3.6.1 the path over the snapshot restores the request
   * order exactly when tags determine requests, and otherwise loses a request.
   */
  lemma KeysAnswered(env: Env, x: Context, keys: seq<BatchKey>, snap: BatchKey -> Bytes)
    requires x.stack != []
    requires AnswerOf(env.snapshotKeys(|x.queries|, Unread(x.stack, keys)), Unread(x.stack, keys), snap)
    ensures GetKeysStep(env, x, keys).1.Batch?
    ensures Answered(env.version, x.stack, keys, env.snapshotKeys(|x.queries|, Unread(x.stack, keys)), snap,
      GetKeysStep(env, x, keys).1.results)
  {
    var unread := Unread(x.stack, keys);
    var answer := env.snapshotKeys(|x.queries|, unread);
    assert Missing(x.stack, Reads, []) == [] && unread == Missing(x.stack, Reads, Missing(x.stack, Writes, keys));
    if unread == [] {
      AnsweredBySets(env.version, x.stack, keys, answer, snap);
    } else if answer.Some? {
      AnsweredBySnapshot(env.version, x.stack, keys, answer.value, snap);
    }
    hide Present, Missing, Unread, FillAll, Values, FromSets, Returned, AnswerOf, StagedStack, ReadsStored, BatchStores,
      SourcesInOrder, ReadBeforeWritten, TagsDetermine;
  }

  // ---------------------------------------------------------------- the other orders, and the read set

  /** A key found in the read set comes before one found in the write set. */
  predicate ReadBeforeWritten(st: Stack, keys: seq<BatchKey>) {
    exists i, j :: 0 <= i < j < |keys| && FindKey(st, Writes, keys[i]).None? && FindKey(st, Writes, keys[j]).Some?
  }

  /** Answered from own writes and reads only, request order is kept exactly when no written key follows a read one. */
  lemma {:induction false} TwoSourceOrder(st: Stack, keys: seq<BatchKey>, snap: BatchKey -> Bytes)
    requires Unread(st, keys) == []
    ensures FromSets(st, keys) == FillAll(keys, Values(st, snap)) <==> !ReadBeforeWritten(st, keys)
    decreases |keys|
  {
    if keys == [] {
      assert FillAll(keys, Values(st, snap)) == [];
    } else {
      var init, b := keys[..|keys| - 1], keys[|keys| - 1];
      assert keys == init + [b];
      if FindKey(st, Writes, b).None? {
        LastIsRead(st, init, b, snap);
        TwoSourceOrder(st, init, snap);
        SameLast(FromSets(st, init), FillAll(init, Values(st, snap)), Filled(b, Values(st, snap)(b)));
        hide *;
      } else if Missing(st, Writes, init) == [] {
        assert Missing(st, Writes, keys) == [] && Present(st, Reads, []) == [];
        AllFound(st, keys, snap);
        NothingMissing(st, Writes, keys);
      } else {
        LastIsWritten(st, init, b, snap);
      }
    }
  }

  /** Where a key is found, in the order the snapshot path puts the sources. */
  function Source(st: Stack, b: BatchKey): nat {
    if FindKey(st, Writes, b).Some? then 1 else if FindKey(st, Reads, b).Some? then 2 else 0
  }

  /** Unread keys come first, then written ones, then read ones. */
  predicate SourcesInOrder(st: Stack, keys: seq<BatchKey>) {
    forall i, j :: 0 <= i < j < |keys| ==> Source(st, keys[i]) <= Source(st, keys[j])
  }

  function FromSource(st: Stack, keys: seq<BatchKey>, n: nat): seq<BatchKey> {
    if keys == [] then []
    else
      FromSource(st, keys[..|keys| - 1], n)
        + if Source(st, keys[|keys| - 1]) == n then [keys[|keys| - 1]] else []
  }

  lemma {:induction false} FromSourceHas(st: Stack, keys: seq<BatchKey>, n: nat, b: BatchKey)
    ensures b in FromSource(st, keys, n) <==> b in keys && Source(st, b) == n
  {
    hide Source;
    if keys != [] {
      assert keys == keys[..|keys| - 1] + [keys[|keys| - 1]];
      FromSourceHas(st, keys[..|keys| - 1], n, b);
    }
  }

  function BySource(st: Stack, keys: seq<BatchKey>): seq<BatchKey> {
    FromSource(st, keys, 0) + FromSource(st, keys, 1) + FromSource(st, keys, 2)
  }

  /** Before a last request of one source there are none of a later one. */
  lemma NoneOfLater(st: Stack, init: seq<BatchKey>, b: BatchKey, n: nat)
    requires SourcesInOrder(st, init + [b]) && Source(st, b) < n
    ensures FromSource(st, init, n) == []
  {
    hide Source;
    if FromSource(st, init, n) != [] {
      var c := FromSource(st, init, n)[0];
      FromSourceHas(st, init, n, c);
      LaterInOrder(st, init, b, c);
    }
  }

  lemma LaterInOrder(st: Stack, init: seq<BatchKey>, b: BatchKey, c: BatchKey)
    requires SourcesInOrder(st, init + [b]) && c in init
    ensures Source(st, c) <= Source(st, b)
  {
    hide Source;
    var i :| 0 <= i < |init| && init[i] == c;
    assert (init + [b])[i] == c && (init + [b])[|init|] == b;
  }

  lemma {:induction false} InOrderIsBySource(st: Stack, keys: seq<BatchKey>)
    requires SourcesInOrder(st, keys)
    ensures BySource(st, keys) == keys
  {
    if keys != [] {
      var init, b := keys[..|keys| - 1], keys[|keys| - 1];
      assert keys == init + [b] && Source(st, b) <= 2;
      InOrderIsBySource(st, init);
      if Source(st, b) < 1 {
        NoneOfLater(st, init, b, 1);
      }
      if Source(st, b) < 2 {
        NoneOfLater(st, init, b, 2);
      }
      hide *;
      LastBySource(st, init, b);
    }
  }

  lemma LastFromSource(st: Stack, init: seq<BatchKey>, b: BatchKey, n: nat)
    ensures FromSource(st, init + [b], n)
         == if Source(st, b) == n then FromSource(st, init, n) + [b] else FromSource(st, init, n)
  {
    hide Source;
    assert (init + [b])[..|init|] == init;
  }

  lemma AppendThird(x: seq<BatchKey>, y: seq<BatchKey>, z: seq<BatchKey>, b: BatchKey)
    ensures x + y + (z + [b]) == x + y + z + [b]
  {
  }

  lemma AppendSecond(x: seq<BatchKey>, y: seq<BatchKey>, b: BatchKey)
    ensures x + (y + [b]) + [] == x + y + [] + [b]
  {
    assert x + y + [] == x + y;
    assert x + (y + [b]) == x + y + [b];
  }

  lemma AppendFirst(x: seq<BatchKey>, b: BatchKey)
    ensures x + [b] + [] + [] == x + [] + [] + [b]
  {
    assert x + [] + [] == x;
  }

  lemma LastBySource(st: Stack, init: seq<BatchKey>, b: BatchKey)
    requires Source(st, b) <= 2
    requires Source(st, b) < 1 ==> FromSource(st, init, 1) == []
    requires Source(st, b) < 2 ==> FromSource(st, init, 2) == []
    ensures BySource(st, init + [b]) == BySource(st, init) + [b]
  {
    LastFromSource(st, init, b, 0);
    LastFromSource(st, init, b, 1);
    LastFromSource(st, init, b, 2);
    hide Source, FromSource;
    var x, y, z := FromSource(st, init, 0), FromSource(st, init, 1), FromSource(st, init, 2);
    if Source(st, b) == 0 {
      AppendFirst(x, b);
    } else if Source(st, b) == 1 {
      AppendSecond(x, y, b);
    } else {
      AppendThird(x, y, z, b);
    }
  }

  /** How the last request changes what is looked for in the read set. */
  lemma LastUnwritten(st: Stack, keys: seq<BatchKey>)
    requires keys != []
    ensures var b, missing := keys[|keys| - 1], Missing(st, Writes, keys[..|keys| - 1]);
      if FindKey(st, Writes, b).Some? then Missing(st, Writes, keys) == missing
      else
        && Missing(st, Reads, Missing(st, Writes, keys))
             == Missing(st, Reads, missing) + (if FindKey(st, Reads, b).None? then [b] else [])
        && Present(st, Reads, Missing(st, Writes, keys))
             == Present(st, Reads, missing)
                + (if FindKey(st, Reads, b).Some? then [Filled(b, FindKey(st, Reads, b).value)] else [])
  {
    hide FindKey;
    var b, missing := keys[|keys| - 1], Missing(st, Writes, keys[..|keys| - 1]);
    assert (missing + [b])[..|missing|] == missing;
  }

  lemma {:induction false} UnreadFromSource(st: Stack, keys: seq<BatchKey>)
    ensures Unread(st, keys) == FromSource(st, keys, 0)
  {
    hide FindKey;
    if keys != [] {
      LastUnwritten(st, keys);
      UnreadFromSource(st, keys[..|keys| - 1]);
    }
  }

  lemma {:induction false} SetsFromSource(st: Stack, keys: seq<BatchKey>, snap: BatchKey -> Bytes)
    ensures Present(st, Writes, keys) == FillAll(FromSource(st, keys, 1), Values(st, snap))
    ensures Present(st, Reads, Missing(st, Writes, keys)) == FillAll(FromSource(st, keys, 2), Values(st, snap))
  {
    if keys == [] {
      assert FillAll([], Values(st, snap)) == [];
    } else {
      var init, b := keys[..|keys| - 1], keys[|keys| - 1];
      LastUnwritten(st, keys);
      SetsFromSource(st, init, snap);
      FillAppend(FromSource(st, init, 1), b, Values(st, snap));
      FillAppend(FromSource(st, init, 2), b, Values(st, snap));
      assert Values(st, snap)(b) == ValueFor(st, snap, b);
    }
    hide FindKey, FillAll, Values;
  }

  lemma FillConcat(a: seq<BatchKey>, b: seq<BatchKey>, value: BatchKey -> Bytes)
    ensures FillAll(a + b, value) == FillAll(a, value) + FillAll(b, value)
  {
  }

  lemma FillInjective(a: seq<BatchKey>, b: seq<BatchKey>, value: BatchKey -> Bytes)
    requires FillAll(a, value) == FillAll(b, value)
    ensures a == b
  {
    forall i | 0 <= i < |a| ensures a[i] == b[i] {
      assert FillAll(a, value)[i] == FillAll(b, value)[i];
    }
  }

  lemma SplitsEqually(a: seq<Filled>, a': seq<Filled>, b: seq<Filled>)
    requires |a| == |a'|
    ensures a + b == a' + b <==> a == a'
  {
    if a + b == a' + b {
      assert a == (a + b)[..|a|] && a' == (a' + b)[..|a|];
    }
  }

  /**
   * With results of the snapshot, own writes and values read put one after the other, request order is kept
   * exactly when the snapshot answers in its own order and the sources come in that order in the request.
   */
  lemma ThreeSourceOrder(st: Stack, keys: seq<BatchKey>, snap: BatchKey -> Bytes, answer: seq<Filled>)
    requires AnswerOf(Some(answer), Unread(st, keys), snap)
    ensures answer + FromSets(st, keys) == FillAll(keys, Values(st, snap))
       <==> answer == FillAll(Unread(st, keys), snap) && SourcesInOrder(st, keys)
  {
    var value, unread := Values(st, snap), Unread(st, keys);
    ThreeSources(st, keys, snap);
    AnswerLength(answer, unread, snap);
    hide Values, FillAll, FromSets, FromSource, Unread, SourcesInOrder, AnswerOf, BySource;
    if SourcesInOrder(st, keys) {
      InOrderIsBySource(st, keys);
      SplitsEqually(answer, FillAll(unread, snap), FromSets(st, keys));
    } else if answer + FromSets(st, keys) == FillAll(keys, value) {
      OtherOrder(st, keys, snap, answer);
    }
  }

  lemma AnswerLength(answer: seq<Filled>, unread: seq<BatchKey>, snap: BatchKey -> Bytes)
    requires AnswerOf(Some(answer), unread, snap)
    ensures |answer| == |FillAll(unread, snap)|
  {
    assert |answer| == |multiset(answer)| == |multiset(FillAll(unread, snap))|;
  }

  /** The three sources one after the other. */
  lemma ThreeSources(st: Stack, keys: seq<BatchKey>, snap: BatchKey -> Bytes)
    ensures FillAll(Unread(st, keys), snap) + FromSets(st, keys) == FillAll(BySource(st, keys), Values(st, snap))
  {
    var value, unread := Values(st, snap), Unread(st, keys);
    forall b | b in unread ensures snap(b) == value(b) {
      SourceValues(st, keys, snap, b);
    }
    SameFill(unread, snap, value);
    UnreadFromSource(st, keys);
    SetsFromSource(st, keys, snap);
    FillConcat(unread, FromSource(st, keys, 1), value);
    FillConcat(unread + FromSource(st, keys, 1), FromSource(st, keys, 2), value);
    hide Values, FillAll, FromSource, Unread, Present, Missing;
    var u, w := FillAll(unread, value), FillAll(FromSource(st, keys, 1), value);
    var rd := FillAll(FromSource(st, keys, 2), value);
    assert u + (w + rd) == (u + w) + rd;
  }

  /** Whatever the order of the answer, request order means that the sources come in order. */
  lemma OtherOrder(st: Stack, keys: seq<BatchKey>, snap: BatchKey -> Bytes, answer: seq<Filled>)
    requires AnswerOf(Some(answer), Unread(st, keys), snap)
    requires answer + FromSets(st, keys) == FillAll(keys, Values(st, snap))
    ensures SourcesInOrder(st, keys)
  {
    var n := |answer|;
    SetsFromSource(st, keys, snap);
    var w, rd := FromSource(st, keys, 1), FromSource(st, keys, 2);
    var all := answer + FromSets(st, keys);
    forall i | 0 <= i < |keys|
      ensures Source(st, keys[i]) == if i < n then 0 else if i < n + |w| then 1 else 2
    {
      assert all[i] == Filled(keys[i], Values(st, snap)(keys[i]));
      if i < n {
        assert answer[i] in answer;
        ResultOfRequest(Unread(st, keys), answer, snap, answer[i]);
        UnreadFromSource(st, keys);
        FromSourceHas(st, keys, 0, keys[i]);
      } else if i < n + |w| {
        assert all[i] == FillAll(w, Values(st, snap))[i - n];
        FromSourceHas(st, keys, 1, keys[i]);
      } else {
        assert all[i] == FillAll(rd, Values(st, snap))[i - n - |w|];
        FromSourceHas(st, keys, 2, keys[i]);
      }
    }
    hide Source;
  }

  lemma SameLast(a: seq<Filled>, b: seq<Filled>, f: Filled)
    ensures a + [f] == b + [f] <==> a == b
  {
    if a + [f] == b + [f] {
      assert a == (a + [f])[..|a + [f]| - 1] && b == (b + [f])[..|b + [f]| - 1];
    }
  }

  lemma LastIsRead(st: Stack, init: seq<BatchKey>, b: BatchKey, snap: BatchKey -> Bytes)
    requires Unread(st, init + [b]) == [] && FindKey(st, Writes, b).None?
    ensures Unread(st, init) == []
    ensures FromSets(st, init + [b]) == FromSets(st, init) + [Filled(b, Values(st, snap)(b))]
    ensures FillAll(init + [b], Values(st, snap)) == FillAll(init, Values(st, snap)) + [Filled(b, Values(st, snap)(b))]
    ensures ReadBeforeWritten(st, init + [b]) <==> ReadBeforeWritten(st, init)
  {
    var missing := Missing(st, Writes, init);
    assert (init + [b])[..|init|] == init && (missing + [b])[..|missing|] == missing;
    hide FindKey;
    FillAppend(init, b, Values(st, snap));
    SourceValues(st, init + [b], snap, b);
    if ReadBeforeWritten(st, init) {
      var i, j :| 0 <= i < j < |init| && FindKey(st, Writes, init[i]).None? && FindKey(st, Writes, init[j]).Some?;
      assert FindKey(st, Writes, (init + [b])[i]).None? && FindKey(st, Writes, (init + [b])[j]).Some?;
    }
  }

  lemma LastIsWritten(st: Stack, init: seq<BatchKey>, b: BatchKey, snap: BatchKey -> Bytes)
    requires Unread(st, init + [b]) == [] && FindKey(st, Writes, b).Some? && Missing(st, Writes, init) != []
    ensures FromSets(st, init + [b]) != FillAll(init + [b], Values(st, snap))
    ensures ReadBeforeWritten(st, init + [b])
  {
    var keys, missing := init + [b], Missing(st, Writes, init);
    var last := missing[|missing| - 1];
    assert keys[..|init|] == init;
    hide FindKey;
    MissingAreMissing(st, Writes, init, last);
    var i :| 0 <= i < |init| && init[i] == last;
    assert FindKey(st, Writes, keys[i]).None? && FindKey(st, Writes, keys[|init|]).Some?;
    var results := FromSets(st, keys);
    assert results[|results| - 1].request == last;
    FillAppend(init, b, Values(st, snap));
  }

  lemma {:induction false} NothingMissing(st: Stack, side: Side, keys: seq<BatchKey>)
    requires Missing(st, side, keys) == []
    ensures forall i :: 0 <= i < |keys| ==> FindKey(st, side, keys[i]).Some?
  {
    hide FindKey;
    if keys != [] {
      NothingMissing(st, side, keys[..|keys| - 1]);
    }
  }

  /**
   * After a batch read of one key from the snapshot the read set has the key's value exactly from above
   * 2.3.6.1, or when both field and value are empty: earlier versions file the field as the value.
   */
  lemma BatchReadFiled(version: nat, st: Stack, b: BatchKey, v: Bytes)
    requires st != [] && Lookup(st, Reads, b.contract, GetKey(b.key, b.field)).None?
    ensures Lookup(ReadsStored(st, BatchStores(version, [Filled(b, v)])), Reads, b.contract, GetKey(b.key, b.field))
              == Some(v)
       <==> version > V2361 || (b.field == [] && v == [])
  {
    var stores := BatchStores(version, [Filled(b, v)]);
    ReadsStoredLookup(st, stores, Reads, b);
    assert stores[..0] == [];
    assert stores == [BatchStore(version, Filled(b, v))];
    assert b.field != [] ==> |StateKey(b)| > |b.key|;
    hide Lookup, ReadsStored;
  }

  /** The snapshot's answer depends on the contract and the state key only. */
  ghost predicate ByStateKey(snap: BatchKey -> Bytes) {
    forall b: BatchKey, b': BatchKey ::
      b.contract == b'.contract && GetKey(b.key, b.field) == GetKey(b'.key, b'.field) ==> snap(b) == snap(b')
  }

  lemma {:induction false} StoredIs(filled: seq<Filled>, snap: BatchKey -> Bytes, b: BatchKey)
    requires ByStateKey(snap) && forall f :: f in filled ==> f.value == snap(f.request)
    ensures StoredValue(filled, b).Some? ==> StoredValue(filled, b) == Some(snap(b))
    ensures (exists f :: f in filled && f.request == b) ==> StoredValue(filled, b).Some?
  {
    hide GetKey;
    if filled != [] {
      var n := |filled| - 1;
      assert filled == filled[..n] + [filled[n]];
      StoredIs(filled[..n], snap, b);
    }
  }

  /**
   * From above 2.3.6.1 each key a batch took from the snapshot is in the read set with the value the snapshot
   * gave for it.
   */
  lemma BatchRecorded(env: Env, x: Context, keys: seq<BatchKey>, snap: BatchKey -> Bytes, b: BatchKey)
    requires env.version > V2361 && x.stack != [] && ByStateKey(snap) && b in Unread(x.stack, keys)
    requires var answer := env.snapshotKeys(|x.queries|, Unread(x.stack, keys));
      answer.Some? && AnswerOf(answer, Unread(x.stack, keys), snap)
    ensures Lookup(GetKeysStep(env, x, keys).0.stack, Reads, b.contract, GetKey(b.key, b.field)) == Some(snap(b))
  {
    var unread := Unread(x.stack, keys);
    var answer := env.snapshotKeys(|x.queries|, unread).value;
    assert unread != [] && BatchStores(env.version, answer) == answer;
    ReadsStoredLookup(x.stack, answer, Reads, b);
    var i :| 0 <= i < |unread| && unread[i] == b;
    assert FillAll(unread, snap)[i] in multiset(answer);
    forall f | f in answer ensures f.value == snap(f.request) {
      ResultOfRequest(unread, answer, snap, f);
    }
    StoredIs(answer, snap, b);
    assert FindKey(GetKeysStep(env, x, keys).0.stack, Reads, b)
        == Lookup(GetKeysStep(env, x, keys).0.stack, Reads, b.contract, GetKey(b.key, b.field));
    hide FindKey, ReadsStored, StoredValue, Unread, FillAll, Returned;
  }

  // ---------------------------------------------------------------- batches against single reads

  /** What a batch files under one state key is the value it files last. */
  lemma {:induction false} FiledLast(st: Stack, filled: seq<Filled>, c: Bytes, k: Bytes, j: nat)
    requires st != [] && j < |filled|
    requires filled[j].request.contract == c && GetKey(filled[j].request.key, filled[j].request.field) == k
    requires forall i :: j < i < |filled| ==>
      filled[i].request.contract != c || GetKey(filled[i].request.key, filled[i].request.field) != k
    ensures Lookup(ReadsStored(st, filled), Reads, c, k) == Some(filled[j].value)
    decreases |filled|
  {
    var n := |filled| - 1;
    var b, before := filled[n].request, ReadsStored(st, filled[..n]);
    LookupStored(before, Reads, b.contract, GetKey(b.key, b.field), filled[n].value, Reads, c, k);
    assert ReadsStored(st, filled) == StoreTop(before, Reads, b.contract, GetKey(b.key, b.field), filled[n].value);
    hide Lookup, StoreTop, ReadsStored, GetKey;
    if j < n {
      FiledLast(st, filled[..n], c, k, j);
    }
  }

  lemma OneKey(st: Stack, side: Side, b: BatchKey)
    ensures var found := Lookup(st, side, b.contract, GetKey(b.key, b.field));
      && Present(st, side, [b]) == (if found.Some? then [Filled(b, found.value)] else [])
      && Missing(st, side, [b]) == (if found.Some? then [] else [b])
  {
    assert [b][..0] == [];
    assert FindKey(st, side, b) == Lookup(st, side, b.contract, GetKey(b.key, b.field));
    assert Present(st, side, []) == [] && Missing(st, side, []) == [];
    hide Lookup, GetKey, FindKey;
  }

  /**
   * A batch of one key gives what a Get under the key's state key gives, from the same source; it asks the
   * snapshot exactly when the Get would, and passes its answer on.
   */
  lemma OneKeyIsGet(env: Env, x: Context, c: Bytes, key: Bytes, field: Bytes)
    requires x.stack != []
    ensures var b, k := BatchKey(c, key, field), GetKey(key, field);
      var (x', o) := GetKeysStep(env, x, [b]);
      if Lookup(x.stack, Writes, c, k).Some? || Lookup(x.stack, Reads, c, k).Some? then
        && GetStep(env, x, c, k).1.Value? && x'.queries == x.queries
        && o == Batch(Some([Filled(b, GetStep(env, x, c, k).1.value)]))
      else
        var answer := env.snapshotKeys(|x.queries|, [b]);
        && GetStep(env, x, c, k).0.queries != x.queries && x'.queries == x.queries + [BatchQuery([b], answer)]
        && (answer == None ==> o == Batch(None))
        && (forall v :: answer == Some([Filled(b, v)]) ==> o == Batch(answer))
  {
    var b, k := BatchKey(c, key, field), GetKey(key, field);
    OneKeySets(x.stack, b);
    OneKeyReturned(env, b);
    hide Lookup, GetKey, FromSets, Unread, StagedStack, ReadsStored, BatchStores, StoreTop, Returned;
  }

  lemma OneKeySets(st: Stack, b: BatchKey)
    ensures var written, read :=
        Lookup(st, Writes, b.contract, GetKey(b.key, b.field)), Lookup(st, Reads, b.contract, GetKey(b.key, b.field));
      && Unread(st, [b]) == (if written.Some? || read.Some? then [] else [b])
      && FromSets(st, [b]) ==
           if written.Some? then [Filled(b, written.value)]
           else if read.Some? then [Filled(b, read.value)]
           else []
  {
    OneKey(st, Writes, b);
    OneKey(st, Reads, b);
    assert Missing(st, Reads, []) == [] && Present(st, Reads, []) == [];
    hide Lookup, GetKey, Present, Missing;
  }

  lemma OneKeyReturned(env: Env, b: BatchKey)
    ensures forall v :: Returned(env.version, [b], [Filled(b, v)] + []) == Some([Filled(b, v)])
  {
    forall v ensures Returned(env.version, [b], [Filled(b, v)] + []) == Some([Filled(b, v)]) {
      assert [Filled(b, v)] + [] == [Filled(b, v)];
      assert LastTagged([Filled(b, v)], Tag(b)) == Some(Filled(b, v));
      assert SortedResults([b], [Filled(b, v)]).value == [Filled(b, v)];
    }
  }

  lemma {:induction false} PresentHas(st: Stack, side: Side, keys: seq<BatchKey>, b: BatchKey, v: Bytes)
    requires b in keys && Lookup(st, side, b.contract, GetKey(b.key, b.field)) == Some(v)
    ensures Filled(b, v) in Present(st, side, keys)
  {
    assert FindKey(st, side, b) == Some(v);
    hide Lookup, GetKey, FindKey;
    var n := |keys| - 1;
    assert keys == keys[..n] + [keys[n]];
    if keys[n] != b {
      PresentHas(st, side, keys[..n], b, v);
    }
  }

  /** What a contract wrote under the state key of a key and field, a batch finds, and does not ask for. */
  lemma BatchAfterPut(env: Env, x: Context, c: Bytes, key: Bytes, field: Bytes, v: Bytes, keys: seq<BatchKey>)
    requires x.stack != [] && |GetKey(key, field)| <= MAX_WRITE_KEY_LEN
    ensures var b, x' := BatchKey(c, key, field), PutStep(x, c, GetKey(key, field), v).0;
      && x'.stack != []
      && GetKeysStep(env, x', [b]).1 == Batch(Some([Filled(b, v)]))
      && (b in keys ==> b !in Unread(x'.stack, keys) && Filled(b, v) in FromSets(x'.stack, keys))
  {
    var b, k := BatchKey(c, key, field), GetKey(key, field);
    var x' := PutStep(x, c, k, v).0;
    LookupStored(x.stack, Writes, c, k, v, Writes, c, k);
    OneKeyIsGet(env, x', c, key, field);
    assert FindKey(x'.stack, Writes, b) == Some(v);
    hide Lookup, GetKey, GetKeysStep, FindKey;
    if b in keys {
      PresentHas(x'.stack, Writes, keys, b, v);
      if b in Unread(x'.stack, keys) {
        MissingAreMissing(x'.stack, Reads, Missing(x'.stack, Writes, keys), b);
        MissingAreMissing(x'.stack, Writes, keys, b);
      }
    }
  }

  /** Before 2.3.5 a batch puts the own writes it finds into the read set, from then on it does not. */
  lemma OwnWritesRead(env: Env, x: Context, keys: seq<BatchKey>, b: BatchKey, v: Bytes)
    requires x.stack != [] && Unread(x.stack, keys) == [] && b in keys
    requires Lookup(x.stack, Writes, b.contract, GetKey(b.key, b.field)) == Some(v)
    ensures env.version < 2030500 ==>
      Lookup(GetKeysStep(env, x, keys).0.stack, Reads, b.contract, GetKey(b.key, b.field)) == Some(v)
    ensures env.version >= 2030500 ==> GetKeysStep(env, x, keys).0 == x
  {
    if env.version < 2030500 {
      var written := Present(x.stack, Writes, keys);
      ReadsStoredLookup(x.stack, written, Reads, b);
      PresentHas(x.stack, Writes, keys, b, v);
      assert FindKey(x.stack, Writes, b) == Some(v);
      StoredOwn(x.stack, keys, b, v);
      hide Lookup, GetKey, Present, ReadsStored, StoredValue;
    }
  }

  lemma {:induction false} StoredOwn(st: Stack, keys: seq<BatchKey>, b: BatchKey, v: Bytes)
    requires b in keys && FindKey(st, Writes, b) == Some(v)
    ensures StoredValue(Present(st, Writes, keys), b) == Some(v)
  {
    hide GetKey, Lookup;
    var n := |keys| - 1;
    var init, last := keys[..n], keys[n];
    assert keys == init + [last];
    var p := Present(st, Writes, init);
    assert p + [] == p;
    if FindKey(st, Writes, last).Some? {
      assert (p + [Filled(last, FindKey(st, Writes, last).value)])[..|p|] == p;
    }
    if last.contract != b.contract || StateKey(last) != StateKey(b) || FindKey(st, Writes, last).None? {
      StoredOwn(st, init, b, v);
    }
  }
}
