/** What a batch of requested keys finds in the layers, and what its results leave there. */
module BatchReads {
  import opened ByteStrings
  import opened Keys
  import opened Layers
  import opened BlockVersions

  /** One requested key. */
  datatype BatchKey = BatchKey(contract: Bytes, key: Bytes, field: Bytes)

  /** A requested key with the value found for it. */
  datatype Filled = Filled(request: BatchKey, value: Bytes)

  function StateKey(b: BatchKey): Bytes {
    GetKey(b.key, b.field)
  }

  /** What the results are sorted by; it leaves the contract out. */
  function Tag(b: BatchKey): Bytes {
    b.key + SEPARATOR + b.field
  }

  // ---------------------------------------------------------------- finding

  function FindKey(st: Stack, side: Side, b: BatchKey): Option<Bytes> {
    Lookup(st, side, b.contract, StateKey(b))
  }

  /** The keys found on one side, with their values, in request order. */
  function Present(st: Stack, side: Side, keys: seq<BatchKey>): seq<Filled> {
    if keys == [] then []
    else
      var n := |keys| - 1;
      Present(st, side, keys[..n]) +
      match FindKey(st, side, keys[n]) case Some(v) => [Filled(keys[n], v)] case None => []
  }

  function Missing(st: Stack, side: Side, keys: seq<BatchKey>): seq<BatchKey> {
    if keys == [] then []
    else
      var n := |keys| - 1;
      Missing(st, side, keys[..n]) + if FindKey(st, side, keys[n]).None? then [keys[n]] else []
  }

  /** One request more. */
  lemma OneKeyMore(st: Stack, side: Side, keys: seq<BatchKey>, i: nat)
    requires i < |keys|
    ensures FindKey(st, side, keys[i]).Some? ==>
      && Present(st, side, keys[..i + 1]) == Present(st, side, keys[..i])
           + [Filled(keys[i], FindKey(st, side, keys[i]).value)]
      && Missing(st, side, keys[..i + 1]) == Missing(st, side, keys[..i])
    ensures FindKey(st, side, keys[i]).None? ==>
      && Present(st, side, keys[..i + 1]) == Present(st, side, keys[..i])
      && Missing(st, side, keys[..i + 1]) == Missing(st, side, keys[..i]) + [keys[i]]
  {
    assert keys[..i + 1][..i] == keys[..i];
    hide FindKey;
  }

  lemma {:induction false} MissingAreMissing(st: Stack, side: Side, keys: seq<BatchKey>, b: BatchKey)
    requires b in Missing(st, side, keys)
    ensures b in keys && FindKey(st, side, b).None?
  {
    hide FindKey;
    var n := |keys| - 1;
    assert keys == keys[..n] + [keys[n]];
    if b in Missing(st, side, keys[..n]) {
      MissingAreMissing(st, side, keys[..n], b);
    }
  }

  /** The keys neither side holds, in request order. */
  function Unread(st: Stack, keys: seq<BatchKey>): seq<BatchKey> {
    Missing(st, Reads, Missing(st, Writes, keys))
  }

  /** The keys answered without the snapshot. */
  function FromSets(st: Stack, keys: seq<BatchKey>): seq<Filled> {
    Present(st, Writes, keys) + Present(st, Reads, Missing(st, Writes, keys))
  }

  // ---------------------------------------------------------------- storing

  /** The stack after the values of a batch entered the read set, one by one. */
  function ReadsStored(st: Stack, filled: seq<Filled>): (st': Stack)
    requires st != []
    ensures |st'| == |st| && Below(st') == Below(st)
  {
    if filled == [] then st
    else
      var last := filled[|filled| - 1];
      StoreTop(ReadsStored(st, filled[..|filled| - 1]), Reads,
        last.request.contract, StateKey(last.request), last.value)
  }

  lemma OneStoreMore(st: Stack, filled: seq<Filled>, f: Filled)
    requires st != []
    ensures ReadsStored(st, filled + [f])
         == StoreTop(ReadsStored(st, filled), Reads, f.request.contract, StateKey(f.request), f.value)
  {
    assert (filled + [f])[..|filled|] == filled;
  }

  lemma {:induction false} ReadsStoredLookup(st: Stack, filled: seq<Filled>, side: Side, b: BatchKey)
    requires st != []
    ensures FindKey(ReadsStored(st, filled), side, b)
         == if side == Reads && StoredValue(filled, b).Some? then StoredValue(filled, b) else FindKey(st, side, b)
  {
    hide GetKey;
    if filled != [] {
      var n := |filled| - 1;
      ReadsStoredLookup(st, filled[..n], side, b);
      LookupStored(ReadsStored(st, filled[..n]), Reads, filled[n].request.contract, StateKey(filled[n].request),
        filled[n].value, side, b.contract, StateKey(b));
      hide Lookup, StoreTop;
    }
  }

  /** The value last stored under the state key of b. */
  function StoredValue(filled: seq<Filled>, b: BatchKey): Option<Bytes> {
    if filled == [] then None
    else
      var last := filled[|filled| - 1];
      if last.request.contract == b.contract && StateKey(last.request) == StateKey(b) then Some(last.value)
      else StoredValue(filled[..|filled| - 1], b)
  }

  /** What PutBatchIntoReadSet stores for one result: up to 2.3.6.1 the field, as value of the bare key. */
  function BatchStore(version: nat, f: Filled): Filled {
    if version > V2361 then f else Filled(BatchKey(f.request.contract, f.request.key, []), f.request.field)
  }

  function BatchStores(version: nat, results: seq<Filled>): (stores: seq<Filled>)
    ensures |stores| == |results|
  {
    seq(|results|, i requires 0 <= i < |results| => BatchStore(version, results[i]))
  }

  /** The stack after the write stage. */
  function StagedStack(version: nat, st: Stack, keys: seq<BatchKey>): (st': Stack)
    requires st != []
    ensures |st'| == |st| && Below(st') == Below(st)
  {
    if version < V235 then ReadsStored(st, Present(st, Writes, keys)) else st
  }

  // ---------------------------------------------------------------- what the write stage leaves

  lemma {:induction false} SameFinds(st: Stack, st': Stack, side: Side, keys: seq<BatchKey>)
    requires forall b :: b in keys ==> FindKey(st', side, b) == FindKey(st, side, b)
    ensures Present(st', side, keys) == Present(st, side, keys) && Missing(st', side, keys) == Missing(st, side, keys)
  {
    hide FindKey;
    if keys != [] {
      assert keys[|keys| - 1] in keys && forall b :: b in keys[..|keys| - 1] ==> b in keys;
      SameFinds(st, st', side, keys[..|keys| - 1]);
    }
  }

  lemma {:induction false} StoredPresent(st: Stack, side: Side, keys: seq<BatchKey>, b: BatchKey)
    requires StoredValue(Present(st, side, keys), b).Some?
    ensures FindKey(st, side, b).Some?
  {
    hide GetKey, Lookup;
    if keys != [] {
      var n := |keys| - 1;
      var p := Present(st, side, keys[..n]);
      if FindKey(st, side, keys[n]).None? {
        assert Present(st, side, keys) == p;
        StoredPresent(st, side, keys[..n], b);
      } else {
        assert (p + [Filled(keys[n], FindKey(st, side, keys[n]).value)])[..|p|] == p;
        if !(keys[n].contract == b.contract && StateKey(keys[n]) == StateKey(b)) {
          StoredPresent(st, side, keys[..n], b);
        }
      }
    }
  }

  /** What the write stage puts into the read set before 2.3.5 does not concern the keys it did not find. */
  lemma WriteStageKeepsReads(version: nat, st: Stack, keys: seq<BatchKey>)
    requires st != []
    ensures var staged, missing := StagedStack(version, st, keys), Missing(st, Writes, keys);
      && Present(staged, Reads, missing) == Present(st, Reads, missing)
      && Missing(staged, Reads, missing) == Missing(st, Reads, missing)
  {
    var staged, missing := StagedStack(version, st, keys), Missing(st, Writes, keys);
    forall b | b in missing ensures FindKey(staged, Reads, b) == FindKey(st, Reads, b) {
      MissingAreMissing(st, Writes, keys, b);
      ReadsStoredLookup(st, Present(st, Writes, keys), Reads, b);
      if StoredValue(Present(st, Writes, keys), b).Some? {
        StoredPresent(st, Writes, keys, b);
      }
      hide FindKey, ReadsStored, Present, Missing;
    }
    hide *;
    SameFinds(st, staged, Reads, missing);
  }

  // ---------------------------------------------------------------- sorting by tag

  /** The last result with the tag. */
  function LastTagged(results: seq<Filled>, tag: Bytes): Option<Filled> {
    if results == [] then None
    else if Tag(results[|results| - 1].request) == tag then Some(results[|results| - 1])
    else LastTagged(results[..|results| - 1], tag)
  }

  lemma {:induction false} LastTaggedIn(results: seq<Filled>, tag: Bytes)
    ensures LastTagged(results, tag).Some? <==> exists f :: f in results && Tag(f.request) == tag
    ensures LastTagged(results, tag).Some? ==>
      LastTagged(results, tag).value in results && Tag(LastTagged(results, tag).value.request) == tag
  {
    hide Tag;
    if results != [] {
      var n := |results| - 1;
      assert results == results[..n] + [results[n]];
      LastTaggedIn(results[..n], tag);
    }
  }

  /** What sorting the results by tag gives: the last result with each request's tag, or None for an error. */
  function SortedResults(keys: seq<BatchKey>, results: seq<Filled>): (sorted: Option<seq<Filled>>) {
    if |keys| == |results| && forall i :: 0 <= i < |keys| ==> LastTagged(results, Tag(keys[i])).Some?
    then Some(seq(|keys|, i requires 0 <= i < |keys| => LastTagged(results, Tag(keys[i])).value))
    else None
  }

  /** The results of a batch as the version returns them. */
  function Returned(version: nat, keys: seq<BatchKey>, results: seq<Filled>): Option<seq<Filled>> {
    if version > V2361 then SortedResults(keys, results) else Some(results)
  }
}
