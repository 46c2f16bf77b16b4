/** Range scans: what Select collects, and that a drained scan agrees with reading key by key. */
module Scans {
  import opened ByteStrings
  import opened Keys
  import opened Layers
  import opened BlockVersions
  import opened Programs
  import opened TxSimContexts
  import opened Overlays
  import opened Ownership
  import opened Reports
  import opened Iterators

  // ---------------------------------------------------------------- the block's writes so far

  function Flatten(table: seq<seq<Entry>>): seq<Entry> {
    if table == [] then [] else Flatten(table[..|table| - 1]) + table[|table| - 1]
  }

  /** The last write under key k, by whatever contract. */
  function LastWrite(writes: seq<Entry>, k: Bytes): Option<Entry> {
    if writes == [] then None
    else if writes[|writes| - 1].key == k then Some(writes[|writes| - 1])
    else LastWrite(writes[..|writes| - 1], k)
  }

  /** The last write of contract c under key k. */
  function LastWriteOf(writes: seq<Entry>, c: Bytes, k: Bytes): Option<Entry> {
    if writes == [] then None
    else if writes[|writes| - 1].key == k && writes[|writes| - 1].contract == c then Some(writes[|writes| - 1])
    else LastWriteOf(writes[..|writes| - 1], c, k)
  }

  function OwnWrite(own: KeyMap, c: Bytes, k: Bytes): Option<Bytes> {
    if ConstructKey(c, k) in own then Some(own[ConstructKey(c, k)].value) else None
  }

  function InStore(store: map<Bytes, Bytes>, k: Bytes): Option<Bytes> {
    if k in store then Some(store[k]) else None
  }

  function Else(a: Option<Bytes>, b: Option<Bytes>): Option<Bytes> {
    if a.Some? then a else b
  }

  /** What the write-set side of a scan holds under k: the transaction's own write, else the block's. */
  function Written(own: KeyMap, writes: seq<Entry>, c: Bytes, k: Bytes): Option<Bytes> {
    Else(OwnWrite(own, c, k), ValueOf(LastWrite(writes, k)))
  }

  /** What a scan shows under k. */
  function Shown(own: KeyMap, writes: seq<Entry>, store: map<Bytes, Bytes>, c: Bytes, k: Bytes): Option<Bytes> {
    Else(Written(own, writes, c, k), InStore(store, k))
  }

  /** What the contract has under k: its own write, else its last write in the block, else the store. */
  function Known(own: KeyMap, writes: seq<Entry>, store: map<Bytes, Bytes>, c: Bytes, k: Bytes): Option<Bytes> {
    Else(OwnWrite(own, c, k), Else(ValueOf(LastWriteOf(writes, c, k)), InStore(store, k)))
  }

  /** The snapshot's answer for one key: the block's last write of it, else the store, else nothing. */
  function SnapshotAnswer(writes: seq<Entry>, store: map<Bytes, Bytes>, c: Bytes, k: Bytes): Bytes {
    match Else(ValueOf(LastWriteOf(writes, c, k)), InStore(store, k))
    case Some(v) => v
    case None => []
  }

  // ---------------------------------------------------------------- Select

  ghost predicate Holds(wsets: Keyed, c: Bytes, start: Bytes, limit: Bytes, content: Bytes -> Option<Bytes>) {
    forall k :: && (k in wsets <==> InRange(k, start, limit) && content(k).Some?)
                && (k in wsets ==> wsets[k] == KV(k, content(k).value, c))
  }

  /** The block's writes in range, whatever contract made them; later transactions overwrite earlier ones. */
  method BlockWrites(table: seq<seq<Entry>>, c: Bytes, start: Bytes, limit: Bytes) returns (wsets: Keyed)
    ensures Holds(wsets, c, start, limit, k => ValueOf(LastWrite(Flatten(table), k)))
  {
    wsets := map[];
    assert table[..0] == [];
    for t := 0 to |table|
      invariant Holds(wsets, c, start, limit, k => ValueOf(LastWrite(Flatten(table[..t]), k)))
    {
      ghost var before := Flatten(table[..t]);
      assert before + table[t][..0] == before;
      for i := 0 to |table[t]|
        invariant Holds(wsets, c, start, limit, k => ValueOf(LastWrite(before + table[t][..i], k)))
      {
        var e := table[t][i];
        assert before + table[t][..i + 1] == before + table[t][..i] + [e];
        AddBlockWrite(wsets, before + table[t][..i], e, c, start, limit);
        if InRange(e.key, start, limit) {
          wsets := wsets[e.key := KV(e.key, e.value, c)];
        }
      }
      assert table[t][..|table[t]|] == table[t];
      assert table[..t + 1][..t] == table[..t];
    }
    assert table[..|table|] == table;
  }

  lemma AddBlockWrite(wsets: Keyed, writes: seq<Entry>, e: Entry, c: Bytes, start: Bytes, limit: Bytes)
    requires Holds(wsets, c, start, limit, k => ValueOf(LastWrite(writes, k)))
    ensures Holds(if InRange(e.key, start, limit) then wsets[e.key := KV(e.key, e.value, c)] else wsets,
      c, start, limit, k => ValueOf(LastWrite(writes + [e], k)))
  {
    assert (writes + [e])[..|writes|] == writes;
    hide InRange;
  }

  /** The transaction's own writes in range, over the block's. */
  method AddOwnWrites(wsets0: Keyed, own: KeyMap, ghost writes: seq<Entry>, c: Bytes, start: Bytes, limit: Bytes)
    returns (wsets: Keyed)
    requires Holds(wsets0, c, start, limit, k => ValueOf(LastWrite(writes, k)))
    requires forall fk :: fk in own ==> fk == ConstructKey(c, own[fk].key)
    ensures Holds(wsets, c, start, limit, k => Written(own, writes, c, k))
  {
    wsets := wsets0;
    var left := own.Keys;
    ghost var done: KeyMap := map[];
    while left != {}
      invariant left <= own.Keys && done == own - left
      invariant Holds(wsets, c, start, limit, k => Written(done, writes, c, k))
      decreases left
    {
      var fk :| fk in left;
      var e := own[fk];
      AddOwnWrite(wsets, done, writes, e, c, start, limit);
      if InRange(e.key, start, limit) {
        wsets := wsets[e.key := KV(e.key, e.value, c)];
      }
      left := left - {fk};
      done := done[fk := e];
    }
    assert done == own;
  }

  lemma AddOwnWrite(wsets: Keyed, done: KeyMap, writes: seq<Entry>, e: Entry, c: Bytes, start: Bytes, limit: Bytes)
    requires Holds(wsets, c, start, limit, k => Written(done, writes, c, k))
    ensures Holds(if InRange(e.key, start, limit) then wsets[e.key := KV(e.key, e.value, c)] else wsets,
      c, start, limit, k => Written(done[ConstructKey(c, e.key) := e], writes, c, k))
  {
    hide InRange, LastWrite;
    forall k ensures Written(done[ConstructKey(c, e.key) := e], writes, c, k)
                  == if k == e.key then Some(e.value) else Written(done, writes, c, k)
    {
      if ConstructKey(c, k) == ConstructKey(c, e.key) {
        SameContractInjective(c, k, e.key);
      }
      hide ConstructKey;
    }
  }

  function InRangeRows(store: map<Bytes, Bytes>, c: Bytes, start: Bytes, limit: Bytes): Keyed {
    map k | k in store && InRange(k, start, limit) :: KV(k, store[k], c)
  }

  /** The store's rows of the contract in range, in key order. */
  ghost function StoreRows(store: map<Bytes, Bytes>, c: Bytes, start: Bytes, limit: Bytes): Rows {
    InOrder(InRangeRows(store, c, start, limit))
  }

  /** The rows a scan is to give. */
  ghost predicate IsScan(rows: Rows, own: KeyMap, writes: seq<Entry>, store: map<Bytes, Bytes>, c: Bytes,
                         start: Bytes, limit: Bytes) {
    && Increasing(rows)
    && forall kv :: kv in rows <==>
         kv.contract == c && InRange(kv.key, start, limit) && Shown(own, writes, store, c, kv.key) == Some(kv.value)
  }

  lemma MergeIsScan(wsets: Keyed, own: KeyMap, writes: seq<Entry>, store: map<Bytes, Bytes>, c: Bytes,
                    start: Bytes, limit: Bytes)
    requires Holds(wsets, c, start, limit, k => Written(own, writes, c, k))
    ensures IsScan(Merge(InOrder(wsets), StoreRows(store, c, start, limit)), own, writes, store, c, start, limit)
  {
    var stored := InRangeRows(store, c, start, limit);
    assert KeyedByKey(wsets) && KeyedByKey(stored);
    InOrderIncreasing(wsets);
    InOrderIncreasing(stored);
    MergeIncreasing(InOrder(wsets), InOrder(stored));
    forall kv ensures kv in Merge(InOrder(wsets), InOrder(stored)) <==>
      kv.contract == c && InRange(kv.key, start, limit) && Shown(own, writes, store, c, kv.key) == Some(kv.value)
    {
      MergeHolds(wsets, own, writes, store, c, start, limit, kv);
    }
    hide Merge, InOrder, Increasing, InRange, Shown, Holds, InRangeRows;
  }

  lemma MergeHolds(wsets: Keyed, own: KeyMap, writes: seq<Entry>, store: map<Bytes, Bytes>, c: Bytes,
                   start: Bytes, limit: Bytes, kv: KV)
    requires Holds(wsets, c, start, limit, k => Written(own, writes, c, k))
    ensures kv in Merge(InOrder(wsets), InOrder(InRangeRows(store, c, start, limit))) <==>
      kv.contract == c && InRange(kv.key, start, limit) && Shown(own, writes, store, c, kv.key) == Some(kv.value)
  {
    var stored := InRangeRows(store, c, start, limit);
    var written := Written(own, writes, c, kv.key);
    assert KeyedByKey(wsets) && KeyedByKey(stored);
    assert kv.key in wsets <==> InRange(kv.key, start, limit) && written.Some?;
    assert kv.key in wsets ==> wsets[kv.key] == KV(kv.key, written.value, c);
    assert kv.key in stored <==> InRange(kv.key, start, limit) && kv.key in store;
    assert kv.key in stored ==> stored[kv.key] == KV(kv.key, store[kv.key], c);
    assert Shown(own, writes, store, c, kv.key) == Else(written, InStore(store, kv.key));
    hide Holds, InRangeRows, Written, InRange, Shown, Increasing, Merge, InOrder, KeyedByKey;
    InOrderIncreasing(wsets);
    InOrderIncreasing(stored);
    MergeHas(InOrder(wsets), InOrder(stored), kv);
    InOrderHas(wsets, kv);
    InOrderHas(stored, kv);
    InOrderHasKey(wsets, kv.key);
    hide HasKey;
  }

  lemma InOrderHasKey(m: Keyed, k: Bytes)
    requires KeyedByKey(m)
    ensures HasKey(InOrder(m), k) <==> k in m
  {
    if k in m {
      InOrderHas(m, m[k]);
      assert m[k] in InOrder(m);
    }
    if i :| 0 <= i < |InOrder(m)| && InOrder(m)[i].key == k {
      assert InOrder(m)[i] in InOrder(m);
      InOrderHas(m, InOrder(m)[i]);
    }
  }

  /** Select. The table is that of the snapshot; dbRows are the store's, None when the store fails. */
  method Select(s: TxSimContext, payloadContract: Bytes, contract: Bytes, start: Bytes, limit: Bytes,
                table: seq<seq<Entry>>, ghost store: map<Bytes, Bytes>, dbRows: Option<Rows>)
    returns (iter: Option<SimContextIterator>)
    requires s.Valid() && StackFiled(false, s.stack)
    requires dbRows.Some? ==> dbRows.value == StoreRows(store, contract, start, limit)
    modifies s`stack, s`shelf, s.shelf.Keys
    ensures s.Valid() && s.shelf.Keys == old(s.shelf.Keys)
    ensures forall side, c, k :: Lookup(s.stack, side, c, k) == Lookup(old(s.stack), side, c, k)
    ensures Project(s.stack, Writes) == if s.env.version < V235
      then Pooled(Project(old(s.stack), Writes), contract) else Project(old(s.stack), Writes)
    ensures s.env.version >= V235 ==> s.stack == old(s.stack)
    ensures |s.stack| == |old(s.stack)|
    ensures iter.Some? <==> dbRows.Some?
    ensures iter.Some? ==>
      && fresh(iter.value) && fresh(iter.value.wsetIter) && fresh(iter.value.dbIter)
      && iter.value.simContext == s && iter.value.payloadContract == payloadContract
      && IsScan(iter.value.Pending(), Overlay(Project(old(s.stack), Writes), contract), Flatten(table), store,
           contract, start, limit)
  {
    ghost var own := Overlay(Project(s.stack, Writes), contract);
    OwnFiled(s.stack, contract);
    hide *;
    var wsetsMap := BlockWrites(table, contract, start, limit);
    var txWrites := CollectWriteSetByContractName(s, contract);
    SelectLookups(old(s.stack), s.stack, contract, s.env.version);
    if s.env.version >= V235 {
      ProjectsDetermine(old(s.stack), s.stack);
    }
    wsetsMap := AddOwnWrites(wsetsMap, txWrites, Flatten(table), contract, start, limit);
    MergeIsScan(wsetsMap, own, Flatten(table), store, contract, start, limit);
    var wsetIterator := new WsetIterator(wsetsMap);
    if dbRows.None? {
      return None;
    }
    var dbIterator := new StoreIterator(dbRows.value);
    var it := new SimContextIterator(s, payloadContract, wsetIterator, dbIterator);
    return Some(it);
  }

  lemma OwnFiled(st: Stack, c: Bytes)
    requires StackFiled(false, st)
    ensures forall fk :: fk in Overlay(Project(st, Writes), c) ==>
      fk == ConstructKey(c, Overlay(Project(st, Writes), c)[fk].key)
  {
    forall fk | fk in Overlay(Project(st, Writes), c)
      ensures fk == ConstructKey(c, Overlay(Project(st, Writes), c)[fk].key)
    {
      OverlayFiled(st, c, fk);
    }
  }

  lemma {:induction false} OverlayFiled(st: Stack, c: Bytes, fk: Bytes)
    requires StackFiled(false, st) && fk in Overlay(Project(st, Writes), c)
    ensures fk == ConstructKey(c, Overlay(Project(st, Writes), c)[fk].key)
  {
    var n := |st| - 1;
    assert Project(st, Writes)[..n] == Project(Below(st), Writes);
    if fk in MapOf(Project(st, Writes)[n], c) {
      assert LayerFiled(false, st[n]) && MapFiled(false, c, st[n][c].writeMap);
    } else {
      assert StackFiled(false, Below(st));
      OverlayFiled(Below(st), c, fk);
    }
  }

  lemma SelectLookups(before: Stack, after: Stack, contract: Bytes, version: nat)
    requires Project(after, Reads) == Project(before, Reads)
    requires Project(after, Writes)
          == if version < V235 then Pooled(Project(before, Writes), contract) else Project(before, Writes)
    ensures forall side, c, k :: Lookup(after, side, c, k) == Lookup(before, side, c, k)
  {
    forall side, c, k ensures Lookup(after, side, c, k) == Lookup(before, side, c, k) {
      LookupIsFind(before, side, c, k);
      LookupIsFind(after, side, c, k);
      PoolingKeepsLookups(Project(before, Writes), contract, c, ConstructKey(c, k));
      assert side == Reads || side == Writes;
      hide Lookup, Project, Pooled, Find;
    }
  }

  // ---------------------------------------------------------------- draining

  /** Whether a scanned row's key enters the read set: from 2.3.5 on not if some write map has it as a map key. */
  predicate EntersReadSet(version: nat, st: Stack, k: Bytes) {
    version < V235 || !InSomeWriteMap(st, k)
  }

  /** The stack after the values of scanned rows were taken, one by one. */
  ghost function ScanStored(version: nat, st: Stack, payload: Bytes, rows: Rows): (st': Stack)
    requires st != []
    ensures |st'| == |st| && Below(st') == Below(st)
  {
    if rows == [] then st
    else
      var kv, before := rows[|rows| - 1], ScanStored(version, st, payload, rows[..|rows| - 1]);
      if EntersReadSet(version, before, kv.key) then StoreTop(before, Reads, payload, kv.key, kv.value) else before
  }

  lemma OneRowMore(version: nat, st: Stack, payload: Bytes, rows: Rows, kv: KV)
    requires st != []
    ensures var before := ScanStored(version, st, payload, rows);
      ScanStored(version, st, payload, rows + [kv])
        == if EntersReadSet(version, before, kv.key) then StoreTop(before, Reads, payload, kv.key, kv.value) else before
  {
    assert (rows + [kv])[..|rows|] == rows;
  }

  /** The last row with the key. */
  function RowOf(rows: Rows, k: Bytes): Option<Bytes> {
    if rows == [] then None
    else if rows[|rows| - 1].key == k then Some(rows[|rows| - 1].value)
    else RowOf(rows[..|rows| - 1], k)
  }

  lemma {:induction false} RowOfHas(rows: Rows, k: Bytes)
    ensures RowOf(rows, k).Some? <==> HasKey(rows, k)
    ensures RowOf(rows, k).Some? ==> exists kv :: kv in rows && kv.key == k && kv.value == RowOf(rows, k).value
  {
    if rows != [] {
      var n := |rows| - 1;
      assert rows == rows[..n] + [rows[n]] && rows[n] in rows;
      RowOfHas(rows[..n], k);
      if HasKey(rows, k) && rows[n].key != k {
        var i :| 0 <= i < |rows| && rows[i].key == k;
        assert rows[..n][i].key == k;
      }
    }
  }

  lemma RowOfIncreasing(rows: Rows, kv: KV)
    requires Increasing(rows) && kv in rows
    ensures RowOf(rows, kv.key) == Some(kv.value)
  {
    var i :| 0 <= i < |rows| && rows[i] == kv;
    assert HasKey(rows, kv.key);
    RowOfHas(rows, kv.key);
    var kv' :| kv' in rows && kv'.key == kv.key && kv'.value == RowOf(rows, kv.key).value;
    var j :| 0 <= j < |rows| && rows[j] == kv';
    LessIrreflexive(kv.key);
    hide Less, RowOf;
  }

  lemma ReadStoreKeepsWriteMaps(st: Stack, c: Bytes, k: Bytes, v: Bytes, key: Bytes)
    requires st != []
    ensures InSomeWriteMap(StoreTop(st, Reads, c, k, v), key) <==> InSomeWriteMap(st, key)
  {
    var st' := StoreTop(st, Reads, c, k, v);
    var n := |st| - 1;
    assert InWriteMapOf(st'[n], key) <==> InWriteMapOf(st[n], key) by {
      if c' :| c' in st[n] && key in st[n][c'].writeMap {
        assert c' in st'[n] && key in st'[n][c'].writeMap;
      }
    }
    hide InWriteMapOf;
    if InSomeWriteMap(st, key) {
      var d :| 0 <= d < |st| && InWriteMapOf(st[d], key);
      assert InWriteMapOf(st'[d], key);
    }
    if InSomeWriteMap(st', key) {
      var d :| 0 <= d < |st'| && InWriteMapOf(st'[d], key);
      assert InWriteMapOf(st[d], key);
    }
  }

  lemma {:induction false} ScanKeepsWriteMaps(version: nat, st: Stack, payload: Bytes, rows: Rows, key: Bytes)
    requires st != []
    ensures InSomeWriteMap(ScanStored(version, st, payload, rows), key) <==> InSomeWriteMap(st, key)
  {
    hide InSomeWriteMap, StoreTop;
    if rows != [] {
      var kv, init := rows[|rows| - 1], rows[..|rows| - 1];
      ScanKeepsWriteMaps(version, st, payload, init, key);
      ReadStoreKeepsWriteMaps(ScanStored(version, st, payload, init), payload, kv.key, kv.value, key);
    }
  }

  /**
   * What a drained scan records: a key of the payload's contract reads as the scanned row's value if and only if a
   * row has the key and the key enters the read set; every other lookup, on either side, is as before.
   */
  lemma {:induction false} ScanRecords(version: nat, st: Stack, payload: Bytes, rows: Rows, side: Side, c: Bytes,
                                       k: Bytes)
    requires st != []
    ensures Lookup(ScanStored(version, st, payload, rows), side, c, k)
         == if side == Reads && c == payload && RowOf(rows, k).Some? && EntersReadSet(version, st, k)
            then RowOf(rows, k) else Lookup(st, side, c, k)
  {
    hide Lookup, StoreTop, InSomeWriteMap;
    if rows != [] {
      var kv, init := rows[|rows| - 1], rows[..|rows| - 1];
      var before := ScanStored(version, st, payload, init);
      ScanRecords(version, st, payload, init, side, c, k);
      ScanKeepsWriteMaps(version, st, payload, init, kv.key);
      LookupStored(before, Reads, payload, kv.key, kv.value, side, c, k);
    }
  }

  /** The context holds what taking the rows leaves. */
  ghost predicate Scanned(iter: SimContextIterator, st: Stack, rows: Rows)
    reads iter.simContext`stack
  {
    st != [] && iter.simContext.stack == ScanStored(iter.simContext.env.version, st, iter.payloadContract, rows)
  }

  /** The rows taken so far, the current one and those to come make up `all`. */
  ghost predicate Draining(iter: SimContextIterator, taken: Rows, all: Rows)
    reads iter, iter.wsetIter, iter.dbIter
  {
    iter.finalValue.Some? && taken + [iter.finalValue.value] + iter.Pending() == all
  }

  /** Next and Value until there is no more: the pending rows, in order, each entering the read set as it may. */
  method Drain(iter: SimContextIterator) returns (rows: Rows)
    requires iter.simContext.Valid()
    modifies iter, iter.wsetIter, iter.dbIter
    modifies iter.simContext`layers, iter.simContext`stack, iter.simContext`shelf, iter.simContext.shelf.Keys
    ensures iter.simContext.Valid() && fresh(iter.simContext.shelf.Keys - old(iter.simContext.shelf.Keys))
    ensures rows == old(iter.Pending())
    ensures Scanned(iter, old(iter.simContext.stack), rows)
  {
    ghost var all, st := iter.Pending(), iter.simContext.stack;
    assert Scanned(iter, st, []) && [] + all == all;
    hide *;
    var more := Advance(iter, [], all);
    rows := DrainRest(iter, more, all, st);
  }

  method DrainRest(iter: SimContextIterator, first: bool, ghost all: Rows, ghost st: Stack) returns (rows: Rows)
    requires iter.simContext.Valid() && Scanned(iter, st, [])
    requires if first then Draining(iter, [], all) else all == []
    modifies iter, iter.wsetIter, iter.dbIter
    modifies iter.simContext`layers, iter.simContext`stack, iter.simContext`shelf, iter.simContext.shelf.Keys
    ensures iter.simContext.Valid() && fresh(iter.simContext.shelf.Keys - old(iter.simContext.shelf.Keys))
    ensures rows == all && Scanned(iter, st, rows)
  {
    hide *;
    rows := [];
    var more := first;
    while more
      invariant iter.simContext.Valid() && fresh(iter.simContext.shelf.Keys - old(iter.simContext.shelf.Keys))
      invariant if more then Draining(iter, rows, all) else rows == all
      invariant Scanned(iter, st, rows)
      decreases more, |iter.Pending()|
    {
      rows, more := DrainOne(iter, rows, all, st);
    }
  }

  method DrainOne(iter: SimContextIterator, rows0: Rows, ghost all: Rows, ghost st: Stack)
    returns (rows: Rows, more: bool)
    requires iter.simContext.Valid() && Draining(iter, rows0, all) && Scanned(iter, st, rows0)
    modifies iter, iter.wsetIter, iter.dbIter
    modifies iter.simContext`layers, iter.simContext`stack, iter.simContext`shelf, iter.simContext.shelf.Keys
    ensures iter.simContext.Valid() && fresh(iter.simContext.shelf.Keys - old(iter.simContext.shelf.Keys))
    ensures if more then Draining(iter, rows, all) else rows == all
    ensures more ==> |iter.Pending()| < |old(iter.Pending())|
    ensures Scanned(iter, st, rows)
  {
    ghost var rest := iter.Pending();
    DrainingSplits(iter, rows0, all);
    hide *;
    var kv := TakeValue(iter, st, rows0);
    rows := rows0 + [kv];
    more := Advance(iter, rows, all);
  }

  lemma DrainingSplits(iter: SimContextIterator, taken: Rows, all: Rows)
    requires Draining(iter, taken, all)
    ensures iter.finalValue.Some? && all == taken + [iter.finalValue.value] + iter.Pending()
  {
  }

  method Advance(iter: SimContextIterator, ghost taken: Rows, ghost all: Rows) returns (more: bool)
    requires all == taken + iter.Pending()
    modifies iter, iter.wsetIter, iter.dbIter
    ensures if more then Draining(iter, taken, all) else taken == all
    ensures more ==> |iter.Pending()| < |old(iter.Pending())|
  {
    ghost var rest := iter.Pending();
    FirstOfRest(taken, rest);
    hide *;
    more := iter.Next();
    if more {
      DrainingAgain(iter, taken, rest, all);
    }
  }

  lemma FirstOfRest(taken: Rows, rest: Rows)
    ensures rest == [] ==> taken + rest == taken
    ensures rest != [] ==> taken + [rest[0]] + rest[1..] == taken + rest && |rest[1..]| < |rest|
  {
  }

  lemma DrainingAgain(iter: SimContextIterator, taken: Rows, rest: Rows, all: Rows)
    requires rest != [] && iter.finalValue == Some(rest[0]) && iter.Pending() == rest[1..]
    requires taken + [rest[0]] + rest[1..] == all
    ensures Draining(iter, taken, all)
  {
    hide iter.Pending;
  }

  method TakeValue(iter: SimContextIterator, ghost st: Stack, ghost rows: Rows) returns (kv: KV)
    requires iter.simContext.Valid() && iter.finalValue.Some? && Scanned(iter, st, rows)
    modifies iter.simContext`layers, iter.simContext`stack, iter.simContext`shelf, iter.simContext.shelf.Keys
    ensures iter.simContext.Valid() && fresh(iter.simContext.shelf.Keys - old(iter.simContext.shelf.Keys))
    ensures kv == iter.finalValue.value && Scanned(iter, st, rows + [kv])
  {
    kv := iter.finalValue.value;
    OneRowMore(iter.simContext.env.version, st, iter.payloadContract, rows, kv);
    hide Filed, Lookup, StoreTop, InSomeWriteMap, ScanStored;
    var current := iter.Value();
  }

  // ---------------------------------------------------------------- the block's writes by their place

  /** Some write of the key, by the contract if one is named. */
  predicate Hits(e: Entry, who: Option<Bytes>, k: Bytes) {
    e.key == k && (who.Some? ==> e.contract == who.value)
  }

  /** The i-th write of the block's t-th transaction is one of the key. */
  predicate WritesAt(table: seq<seq<Entry>>, who: Option<Bytes>, k: Bytes, t: nat, i: nat) {
    t < |table| && i < |table[t]| && Hits(table[t][i], who, k)
  }

  /** No later transaction writes the key, and this one not after i. */
  ghost predicate LastAt(table: seq<seq<Entry>>, who: Option<Bytes>, k: Bytes, t: nat, i: nat) {
    && WritesAt(table, who, k, t, i)
    && forall t': nat, i': nat :: WritesAt(table, who, k, t', i') ==> t' < t || (t' == t && i' <= i)
  }

  ghost predicate NeverWritten(table: seq<seq<Entry>>, who: Option<Bytes>, k: Bytes) {
    forall t: nat, i: nat :: !WritesAt(table, who, k, t, i)
  }

  function LastHit(writes: seq<Entry>, who: Option<Bytes>, k: Bytes): Option<Entry> {
    match who case None => LastWrite(writes, k) case Some(c) => LastWriteOf(writes, c, k)
  }

  lemma LastHitStep(writes: seq<Entry>, e: Entry, who: Option<Bytes>, k: Bytes)
    ensures LastHit([], who, k) == None
    ensures LastHit(writes + [e], who, k) == if Hits(e, who, k) then Some(e) else LastHit(writes, who, k)
  {
    assert (writes + [e])[..|writes|] == writes;
  }

  lemma {:induction false} LastHitAppend(a: seq<Entry>, b: seq<Entry>, who: Option<Bytes>, k: Bytes)
    ensures LastHit(a + b, who, k) == if LastHit(b, who, k).Some? then LastHit(b, who, k) else LastHit(a, who, k)
    decreases |b|
  {
    LastHitStep([], Entry([], [], []), who, k);
    if b == [] {
      assert a + b == a;
    } else {
      var n := |b| - 1;
      LastHitAppend(a, b[..n], who, k);
      LastHitStep(a + b[..n], b[n], who, k);
      LastHitStep(b[..n], b[n], who, k);
      assert a + b == (a + b[..n]) + [b[n]] && b == b[..n] + [b[n]];
    }
    hide LastHit, Hits;
  }

  /** Where a transaction last writes the key. */
  lemma {:induction false} LastInRow(row: seq<Entry>, who: Option<Bytes>, k: Bytes) returns (i: nat)
    requires LastHit(row, who, k).Some?
    ensures i < |row| && Hits(row[i], who, k) && LastHit(row, who, k) == Some(row[i])
    ensures forall i' :: i < i' < |row| ==> !Hits(row[i'], who, k)
    decreases |row|
  {
    LastHitStep([], Entry([], [], []), who, k);
    var n := |row| - 1;
    assert row == row[..n] + [row[n]];
    LastHitStep(row[..n], row[n], who, k);
    hide LastHit, Hits;
    if Hits(row[n], who, k) {
      i := n;
    } else {
      i := LastInRow(row[..n], who, k);
      forall i' | i < i' < |row| ensures !Hits(row[i'], who, k) {
        assert i' < n ==> row[..n][i'] == row[i'];
      }
    }
  }

  lemma {:induction false} NoneInRow(row: seq<Entry>, who: Option<Bytes>, k: Bytes)
    requires LastHit(row, who, k).None?
    ensures forall i :: 0 <= i < |row| ==> !Hits(row[i], who, k)
    decreases |row|
  {
    if row != [] {
      var n := |row| - 1;
      assert row == row[..n] + [row[n]];
      LastHitStep(row[..n], row[n], who, k);
      hide LastHit, Hits;
      NoneInRow(row[..n], who, k);
      forall i | 0 <= i < |row| ensures !Hits(row[i], who, k) {
        assert i < n ==> row[..n][i] == row[i];
      }
    }
  }

  /** Where the block last writes the key. */
  lemma {:induction false} LastInTable(table: seq<seq<Entry>>, who: Option<Bytes>, k: Bytes) returns (t: nat, i: nat)
    requires LastHit(Flatten(table), who, k).Some?
    ensures LastAt(table, who, k, t, i) && LastHit(Flatten(table), who, k) == Some(table[t][i])
    decreases |table|
  {
    LastHitStep([], Entry([], [], []), who, k);
    var n := |table| - 1;
    LastHitAppend(Flatten(table[..n]), table[n], who, k);
    hide LastHit, Hits;
    if LastHit(table[n], who, k).Some? {
      t := n;
      i := LastInRow(table[n], who, k);
    } else {
      NoneInRow(table[n], who, k);
      t, i := LastInTable(table[..n], who, k);
      forall t': nat, i': nat | WritesAt(table, who, k, t', i') ensures t' < t || (t' == t && i' <= i) {
        assert t' < n;
        assert WritesAt(table[..n], who, k, t', i');
      }
    }
  }

  lemma {:induction false} NoneInTable(table: seq<seq<Entry>>, who: Option<Bytes>, k: Bytes)
    requires LastHit(Flatten(table), who, k).None?
    ensures NeverWritten(table, who, k)
    decreases |table|
  {
    if table != [] {
      var n := |table| - 1;
      LastHitAppend(Flatten(table[..n]), table[n], who, k);
      hide LastHit, Hits;
      NoneInRow(table[n], who, k);
      NoneInTable(table[..n], who, k);
      forall t: nat, i: nat ensures !WritesAt(table, who, k, t, i) {
        assert !WritesAt(table[..n], who, k, t, i);
      }
    }
  }

  /** The last write of the flattened table is the one of the last transaction that has one, at its last place. */
  lemma LastHitAt(table: seq<seq<Entry>>, who: Option<Bytes>, k: Bytes)
    ensures forall t: nat, i: nat ::
      LastAt(table, who, k, t, i) ==> LastHit(Flatten(table), who, k) == Some(table[t][i])
    ensures LastHit(Flatten(table), who, k).None? <==> NeverWritten(table, who, k)
  {
    if LastHit(Flatten(table), who, k).Some? {
      var t, i := LastInTable(table, who, k);
      forall t': nat, i': nat | LastAt(table, who, k, t', i') ensures t' == t && i' == i {
      }
      hide Flatten, LastHit;
    } else {
      NoneInTable(table, who, k);
      hide Flatten, LastHit;
    }
  }

  /**
   * What a scan shows under an in-range key: the transaction's own write; without one, the write of the block's last
   * transaction that wrote the key, whatever its contract, at the last place it did; without any, the store's row.
   */
  lemma ScanRow(rows: Rows, own: KeyMap, table: seq<seq<Entry>>, store: map<Bytes, Bytes>, c: Bytes,
                start: Bytes, limit: Bytes, k: Bytes)
    requires IsScan(rows, own, Flatten(table), store, c, start, limit) && InRange(k, start, limit)
    ensures ConstructKey(c, k) in own ==> KV(k, own[ConstructKey(c, k)].value, c) in rows
    ensures ConstructKey(c, k) !in own ==>
      forall t: nat, i: nat :: LastAt(table, None, k, t, i) ==> KV(k, table[t][i].value, c) in rows
    ensures ConstructKey(c, k) !in own && NeverWritten(table, None, k) ==>
      if k in store then KV(k, store[k], c) in rows else !HasKey(rows, k)
  {
    LastHitAt(table, None, k);
    var shown := Shown(own, Flatten(table), store, c, k);
    assert LastHit(Flatten(table), None, k) == LastWrite(Flatten(table), k);
    assert shown == if ConstructKey(c, k) in own then Some(own[ConstructKey(c, k)].value)
      else if LastWrite(Flatten(table), k).Some? then Some(LastWrite(Flatten(table), k).value.value)
      else if k in store then Some(store[k]) else None;
    hide Shown, Flatten, LastHit, LastWrite, InRange, Increasing, ConstructKey, LastAt, NeverWritten;
    assert shown.Some? ==> KV(k, shown.value, c) in rows;
    if HasKey(rows, k) {
      var i :| 0 <= i < |rows| && rows[i].key == k;
      assert rows[i] in rows;
    }
  }

  // ---------------------------------------------------------------- scans against point reads

  lemma {:induction false} LastWriteIn(writes: seq<Entry>, c: Bytes, k: Bytes)
    ensures LastWrite(writes, k).Some? <==> exists e :: e in writes && e.key == k
    ensures LastWrite(writes, k).Some? ==> LastWrite(writes, k).value in writes && LastWrite(writes, k).value.key == k
    ensures LastWrite(writes, k).None? ==> LastWriteOf(writes, c, k).None?
    ensures LastWrite(writes, k).Some? && LastWrite(writes, k).value.contract == c ==>
      LastWriteOf(writes, c, k) == LastWrite(writes, k)
  {
    if writes != [] {
      var n := |writes| - 1;
      LastWriteIn(writes[..n], c, k);
      assert writes == writes[..n] + [writes[n]];
    }
  }

  /** No other contract's write of k is the block's last one, unless it leaves what the contract has anyway. */
  predicate NotOverwritten(own: KeyMap, writes: seq<Entry>, store: map<Bytes, Bytes>, c: Bytes, k: Bytes) {
    OwnWrite(own, c, k).Some? ||
    match LastWrite(writes, k)
    case None => true
    case Some(e) => e.contract == c || Known(own, writes, store, c, k) == Some(e.value)
  }

  lemma ShownIsKnown(own: KeyMap, writes: seq<Entry>, store: map<Bytes, Bytes>, c: Bytes, k: Bytes)
    ensures Shown(own, writes, store, c, k) == Known(own, writes, store, c, k)
       <==> NotOverwritten(own, writes, store, c, k)
  {
    LastWriteIn(writes, c, k);
    hide LastWrite, LastWriteOf, OwnWrite;
  }

  /** The rows are exactly what the contract has in range. */
  ghost predicate IsFaithfulScan(rows: Rows, own: KeyMap, writes: seq<Entry>, store: map<Bytes, Bytes>,
                                 c: Bytes, start: Bytes, limit: Bytes) {
    forall kv :: kv in rows <==>
      kv.contract == c && InRange(kv.key, start, limit) && Known(own, writes, store, c, kv.key) == Some(kv.value)
  }

  /**
   * A scan shows exactly what the contract has in range if and only if no in-range key was last written,
   * within the block, by another contract (with a different outcome) and not by the transaction itself.
   */
  lemma ScanFaithfulIff(rows: Rows, own: KeyMap, writes: seq<Entry>, store: map<Bytes, Bytes>, c: Bytes,
                        start: Bytes, limit: Bytes)
    requires IsScan(rows, own, writes, store, c, start, limit)
    ensures IsFaithfulScan(rows, own, writes, store, c, start, limit)
       <==> forall k :: InRange(k, start, limit) ==> NotOverwritten(own, writes, store, c, k)
  {
    forall k
      ensures Shown(own, writes, store, c, k) == Known(own, writes, store, c, k)
         <==> NotOverwritten(own, writes, store, c, k)
    {
      ShownIsKnown(own, writes, store, c, k);
    }
    hide Shown, Known, NotOverwritten, InRange, Increasing;
    if IsFaithfulScan(rows, own, writes, store, c, start, limit) {
      forall k | InRange(k, start, limit) ensures NotOverwritten(own, writes, store, c, k) {
        var shown, known := Shown(own, writes, store, c, k), Known(own, writes, store, c, k);
        var a, b := if shown.Some? then shown.value else [], if known.Some? then known.value else [];
        assert KV(k, a, c) in rows <==> shown == Some(a);
        assert KV(k, b, c) in rows <==> shown == Some(b);
      }
    }
  }

  /**
   * The snapshot answers from the block's writes and the store: with the contract's last write of the key in the
   * block, else with the store's row, else with nothing.
   */
  ghost predicate Answers(env: Env, n: nat, table: seq<seq<Entry>>, store: map<Bytes, Bytes>, c: Bytes) {
    forall k :: AnswersKey(env, n, table, store, c, k)
  }

  ghost predicate AnswersKey(env: Env, n: nat, table: seq<seq<Entry>>, store: map<Bytes, Bytes>, c: Bytes, k: Bytes) {
    && (forall t: nat, i: nat :: LastAt(table, Some(c), k, t, i) ==> env.snapshot(n, c, k) == Some(table[t][i].value))
    && (NeverWritten(table, Some(c), k) ==> env.snapshot(n, c, k) == Some(if k in store then store[k] else []))
  }

  lemma AnswerIs(env: Env, n: nat, table: seq<seq<Entry>>, store: map<Bytes, Bytes>, c: Bytes, k: Bytes)
    requires Answers(env, n, table, store, c)
    ensures env.snapshot(n, c, k) == Some(SnapshotAnswer(Flatten(table), store, c, k))
  {
    assert AnswersKey(env, n, table, store, c, k);
    LastHitAt(table, Some(c), k);
    assert LastHit(Flatten(table), Some(c), k) == LastWriteOf(Flatten(table), c, k);
    if LastHit(Flatten(table), Some(c), k).Some? {
      var t, i := LastInTable(table, Some(c), k);
    }
    hide Flatten, LastHit, LastWriteOf, LastAt, NeverWritten;
  }

  lemma PointReadIsKnown(env: Env, x: Context, table: seq<seq<Entry>>, store: map<Bytes, Bytes>, c: Bytes, k: Bytes)
    requires Answers(env, |x.queries|, table, store, c)
    ensures var known := Known(Overlay(Project(x.stack, Writes), c), Flatten(table), store, c, k);
      NoRecordStep(env, x, c, k) == Some(if known.Some? then known.value else [])
  {
    LookupIsFind(x.stack, Writes, c, k);
    OverlayIsFind(Project(x.stack, Writes), c, ConstructKey(c, k));
    AnswerIs(env, |x.queries|, table, store, c, k);
    hide Lookup, Find, Overlay, Project, LastWriteOf, ConstructKey, Answers, Flatten;
  }

  /** The key was written by the transaction, or in the block, or is in the store. */
  ghost predicate HasSource(st: Stack, table: seq<seq<Entry>>, store: map<Bytes, Bytes>, c: Bytes, k: Bytes) {
    Lookup(st, Writes, c, k).Some? || !NeverWritten(table, None, k) || k in store
  }

  /** Every in-range write of the block is the contract's own. */
  ghost predicate OwnInRange(table: seq<seq<Entry>>, c: Bytes, start: Bytes, limit: Bytes) {
    forall t: nat, i: nat, k :: WritesAt(table, None, k, t, i) && InRange(k, start, limit) ==> table[t][i].contract == c
  }

  lemma OwnInRangeNotOverwritten(own: KeyMap, table: seq<seq<Entry>>, store: map<Bytes, Bytes>, c: Bytes, start: Bytes,
                                 limit: Bytes, k: Bytes)
    requires OwnInRange(table, c, start, limit) && InRange(k, start, limit)
    ensures NotOverwritten(own, Flatten(table), store, c, k)
  {
    if LastHit(Flatten(table), None, k).Some? {
      var t, i := LastInTable(table, None, k);
      assert table[t][i].contract == c;
    }
    assert LastHit(Flatten(table), None, k) == LastWrite(Flatten(table), k);
    hide Flatten, LastWrite, LastHit, InRange, Known, OwnWrite;
  }

  /**
   * When every in-range block write is the contract's own, a scan covers exactly the in-range keys of own
   * writes, block writes and store, each once and in order, and each row's value is what GetNoRecord
   * reads; a deleted key is there with the empty value it reads as.
   */
  lemma ScanAgreesWithPointReads(rows: Rows, env: Env, x: Context, table: seq<seq<Entry>>, store: map<Bytes, Bytes>,
                                 c: Bytes, start: Bytes, limit: Bytes)
    requires IsScan(rows, Overlay(Project(x.stack, Writes), c), Flatten(table), store, c, start, limit)
    requires Answers(env, |x.queries|, table, store, c) && OwnInRange(table, c, start, limit)
    ensures Increasing(rows)
    ensures forall kv :: kv in rows ==> NoRecordStep(env, x, c, kv.key) == Some(kv.value)
    ensures forall k :: HasKey(rows, k) <==> InRange(k, start, limit) && HasSource(x.stack, table, store, c, k)
  {
    var own := Overlay(Project(x.stack, Writes), c);
    hide Overlay, Project, Flatten, NoRecordStep, HasSource, InRange, Increasing, HasKey, NotOverwritten, Known;
    hide Answers;
    forall k | InRange(k, start, limit) ensures NotOverwritten(own, Flatten(table), store, c, k) {
      OwnInRangeNotOverwritten(own, table, store, c, start, limit, k);
    }
    ScanFaithfulIff(rows, own, Flatten(table), store, c, start, limit);
    forall kv | kv in rows ensures NoRecordStep(env, x, c, kv.key) == Some(kv.value) {
      PointReadIsKnown(env, x, table, store, c, kv.key);
    }
    forall k
      ensures HasKey(rows, k) <==> InRange(k, start, limit) && HasSource(x.stack, table, store, c, k)
    {
      ScanHasKey(rows, x, table, store, c, start, limit, k);
    }
  }

  /** A prefix scan, over the range the syscall layer builds, covers exactly the keys with that prefix. */
  lemma PrefixScan(rows: Rows, x: Context, table: seq<seq<Entry>>, store: map<Bytes, Bytes>, c: Bytes, key: Bytes,
                   field: Bytes, k: Bytes)
    requires CheckKeyFieldStr(key, field)
    requires var prefix := GetKey(key, field);
      && prefix != []
      && IsScan(rows, Overlay(Project(x.stack, Writes), c), Flatten(table), store, c, prefix, PrefixLimit(prefix))
    ensures HasKey(rows, k) <==> GetKey(key, field) <= k && HasSource(x.stack, table, store, c, k)
  {
    var prefix := GetKey(key, field);
    ScanHasKey(rows, x, table, store, c, prefix, PrefixLimit(prefix), k);
    AcceptedPrefixRange(key, field, k);
    hide HasSource, HasKey, IsScan, InRange, GetKey, PrefixLimit, CheckKeyFieldStr;
  }

  lemma ScanHasKey(rows: Rows, x: Context, table: seq<seq<Entry>>, store: map<Bytes, Bytes>, c: Bytes, start: Bytes,
                   limit: Bytes, k: Bytes)
    requires IsScan(rows, Overlay(Project(x.stack, Writes), c), Flatten(table), store, c, start, limit)
    ensures HasKey(rows, k) <==> InRange(k, start, limit) && HasSource(x.stack, table, store, c, k)
  {
    var own := Overlay(Project(x.stack, Writes), c);
    var shown := Shown(own, Flatten(table), store, c, k);
    LookupIsFind(x.stack, Writes, c, k);
    OverlayIsFind(Project(x.stack, Writes), c, ConstructKey(c, k));
    LastHitAt(table, None, k);
    assert shown.Some? <==> HasSource(x.stack, table, store, c, k);
    hide Lookup, Find, Overlay, Project, Flatten, HasSource, ConstructKey, InRange, Shown, Increasing;
    if HasKey(rows, k) {
      var i :| 0 <= i < |rows| && rows[i].key == k;
      assert rows[i] in rows;
    }
    if InRange(k, start, limit) && shown.Some? {
      assert KV(k, shown.value, c) in rows;
    }
  }

  /** Another contract's write in the block shows up in a scan although the contract has no such key. */
  lemma ForeignWriteIsShown(v: Bytes)
    ensures var a: Bytes, b: Bytes, k: Bytes := [97], [98], [107];
      && Shown(map[], [Entry(b, k, v)], map[], a, k) == Some(v)
      && Known(map[], [Entry(b, k, v)], map[], a, k) == None
  {
    var a: Bytes, b: Bytes, k: Bytes := [97], [98], [107];
    var writes := [Entry(b, k, v)];
    assert writes[..0] == [];
    assert LastWrite(writes, k) == Some(writes[0]);
    assert a != b by {
      assert a[0] != b[0];
    }
    assert LastWriteOf(writes, a, k) == None;
  }

  // ---------------------------------------------------------------- which scanned rows enter the read set

  /** The check compares a raw key with map keys: it hits exactly the own writes whose map key is that raw key. */
  lemma RawKeyCheck(st: Stack, key: Bytes)
    requires StackFiled(false, st)
    ensures InSomeWriteMap(st, key)
       <==> exists d, c, k ::
              0 <= d < |st| && c in st[d] && ConstructKey(c, k) in st[d][c].writeMap && key == ConstructKey(c, k)
  {
    if InSomeWriteMap(st, key) {
      var d :| 0 <= d < |st| && InWriteMapOf(st[d], key);
      var c :| c in st[d] && key in st[d][c].writeMap;
      assert LayerFiled(false, st[d]) && MapFiled(false, c, st[d][c].writeMap);
      assert key == ConstructKey(c, st[d][c].writeMap[key].key);
    }
    if d, c, k :| 0 <= d < |st| && c in st[d] && ConstructKey(c, k) in st[d][c].writeMap && key == ConstructKey(c, k) {
      assert InWriteMapOf(st[d], key);
    }
  }

  /** From 2.3.5 on a scanned row stays out of the read set exactly when its key is some own write's map key. */
  lemma EntersIff(version: nat, st: Stack, k: Bytes)
    requires StackFiled(false, st)
    ensures EntersReadSet(version, st, k) <==>
      version < 2030500
      || !exists d, c, k' ::
           0 <= d < |st| && c in st[d] && ConstructKey(c, k') in st[d][c].writeMap && k == ConstructKey(c, k')
  {
    RawKeyCheck(st, k);
    hide StackFiled, InSomeWriteMap, ConstructKey;
  }

  /** So a raw key without '#' never hits, and enters the read set in every version. */
  lemma HashFreeEnters(version: nat, st: Stack, k: Bytes)
    requires StackFiled(false, st) && HashFree(k)
    ensures EntersReadSet(version, st, k)
  {
    RawKeyCheck(st, k);
    forall c, k' ensures !HashFree(ConstructKey(c, k')) {
      assert ConstructKey(c, k')[|c|] == HASH;
    }
  }

  // ---------------------------------------------------------------- a failed call's scan of its own write

  /** An own write in range is among the rows. */
  lemma OwnWriteScanned(rows: Rows, st: Stack, writes: seq<Entry>, store: map<Bytes, Bytes>, c: Bytes,
                        start: Bytes, limit: Bytes, k: Bytes, v: Bytes)
    requires IsScan(rows, Overlay(Project(st, Writes), c), writes, store, c, start, limit)
    requires InRange(k, start, limit) && Lookup(st, Writes, c, k) == Some(v)
    ensures KV(k, v, c) in rows && RowOf(rows, k) == Some(v)
  {
    LookupIsFind(st, Writes, c, k);
    OverlayIsFind(Project(st, Writes), c, ConstructKey(c, k));
    assert Shown(Overlay(Project(st, Writes), c), writes, store, c, k) == Some(v);
    hide Shown, InRange, Lookup, Overlay, Project;
    RowOfIncreasing(rows, KV(k, v, c));
  }

  /**
   * From 2.3.5 on: a callee writes a key of a contract its caller had touched, scans the key and fails. The write
   * is rolled back; with no own write and no read of the key, and the snapshot giving something else, the
   * caller's next Get gives the rolled-back value exactly when the scanned contract is the payload's and the
   * key enters the read set.
   */
  lemma FailedScanLeaks(env: Env, x: Context, payload: Bytes, rows: Rows, writes: seq<Entry>,
                        store: map<Bytes, Bytes>, c: Bytes, start: Bytes, limit: Bytes, k: Bytes, v: Bytes)
    requires |x.stack| >= 2 && c in Top(Below(x.stack))
    requires IsScan(rows, Overlay(Project(x.stack, Writes), c), writes, store, c, start, limit)
    requires InRange(k, start, limit) && Lookup(x.stack, Writes, c, k) == Some(v)
    requires Lookup(Below(x.stack), Writes, c, k).None? && Lookup(x.stack, Reads, c, k).None?
    requires env.snapshot(|x.queries|, c, k) != Some(v)
    ensures var x' := x.(stack := Rollback(ScanStored(env.version, x.stack, payload, rows)));
      && Lookup(x'.stack, Writes, c, k).None?
      && (GetStep(env, x', c, k).1 == Value(v) <==> payload == c && EntersReadSet(env.version, x.stack, k))
  {
    OwnWriteScanned(rows, x.stack, writes, store, c, start, limit, k, v);
    var scanned := ScanStored(env.version, x.stack, payload, rows);
    ScanRecords(env.version, x.stack, payload, rows, Reads, c, k);
    RollbackLookup(scanned, Writes, c, k);
    RollbackLookup(scanned, Reads, c, k);
    hide Lookup, ScanStored, Rollback, EntersReadSet, IsScan, StoreTop, RowOf, InRange;
  }

  // ---------------------------------------------------------------- a scan from end to end

  lemma ProjectsDetermine(st: Stack, st': Stack)
    requires |st| == |st'| && Project(st, Reads) == Project(st', Reads) && Project(st, Writes) == Project(st', Writes)
    ensures st == st'
  {
    forall d | 0 <= d < |st| ensures st[d] == st'[d] {
      assert OneSide(st[d], Reads) == OneSide(st'[d], Reads) && OneSide(st[d], Writes) == OneSide(st'[d], Writes);
      assert st[d].Keys == OneSide(st[d], Reads).Keys && st'[d].Keys == OneSide(st'[d], Reads).Keys;
      forall c | c in st[d] ensures st[d][c] == st'[d][c] {
        assert OneSide(st[d], Reads)[c] == st[d][c].readMap && OneSide(st[d], Writes)[c] == st[d][c].writeMap;
        assert OneSide(st'[d], Reads)[c] == st'[d][c].readMap && OneSide(st'[d], Writes)[c] == st'[d][c].writeMap;
      }
    }
  }

  /** What a whole scan leaves of the lookups. */
  ghost predicate LeftByScan(version: nat, before: Stack, after: Stack, payload: Bytes, rows: Rows) {
    forall side, c, k ::
      Lookup(after, side, c, k)
        == if side == Reads && c == payload && HasKey(rows, k) && EntersReadSet(version, before, k)
           then RowOf(rows, k) else Lookup(before, side, c, k)
  }

  lemma LeftByScanHolds(version: nat, before: Stack, selected: Stack, payload: Bytes, rows: Rows)
    requires before != [] && selected != []
    requires version >= V235 ==> selected == before
    requires forall side, c, k :: Lookup(selected, side, c, k) == Lookup(before, side, c, k)
    ensures LeftByScan(version, before, ScanStored(version, selected, payload, rows), payload, rows)
  {
    hide Lookup, ScanStored, HasKey, RowOf;
    forall side, c, k
      ensures Lookup(ScanStored(version, selected, payload, rows), side, c, k)
        == if side == Reads && c == payload && HasKey(rows, k) && EntersReadSet(version, before, k)
           then RowOf(rows, k) else Lookup(before, side, c, k)
    {
      ScanRecords(version, selected, payload, rows, side, c, k);
      RowOfHas(rows, k);
    }
  }

  /**
   * Select and the drain of its iterator. When every in-range block write is the contract's own, the rows cover
   * exactly the keys with a source, with the values single reads gave before, and the lookups change by what is
   * recorded and nothing else.
   */
  method ScanAll(s: TxSimContext, payloadContract: Bytes, contract: Bytes, start: Bytes, limit: Bytes,
                 table: seq<seq<Entry>>, ghost store: map<Bytes, Bytes>, dbRows: Option<Rows>)
    returns (rows: Option<Rows>)
    requires s.Valid() && StackFiled(false, s.stack)
    requires dbRows.Some? ==> dbRows.value == StoreRows(store, contract, start, limit)
    requires Answers(s.env, |s.queries|, table, store, contract) && OwnInRange(table, contract, start, limit)
    modifies s`layers, s`stack, s`shelf, s.shelf.Keys
    ensures s.Valid() && fresh(s.shelf.Keys - old(s.shelf.Keys)) && (rows.Some? <==> dbRows.Some?)
    ensures rows.Some? ==>
      && Increasing(rows.value)
      && (forall kv :: kv in rows.value ==> NoRecordStep(s.env, old(s.Ctx()), contract, kv.key) == Some(kv.value))
      && (forall k :: HasKey(rows.value, k) <==>
            InRange(k, start, limit) && HasSource(old(s.stack), table, store, contract, k))
    ensures LeftByScan(s.env.version, old(s.stack), s.stack, payloadContract, if rows.Some? then rows.value else [])
  {
    ghost var x := s.Ctx();
    assert x.stack != [] && x.stack == s.stack && |x.queries| == |s.queries|;
    hide *;
    var iter := Select(s, payloadContract, contract, start, limit, table, store, dbRows);
    SelectLeaves(s.env.version, x.stack, s.stack, payloadContract);
    if iter.None? {
      return None;
    }
    ghost var selected := s.stack;
    var list := Drain(iter.value);
    ScannedIs(iter.value, selected, list);
    LeftByScanHolds(s.env.version, x.stack, selected, payloadContract, list);
    ScanAgreesWithPointReads(list, s.env, x, table, store, contract, start, limit);
    return Some(list);
  }

  lemma ScannedIs(iter: SimContextIterator, st: Stack, rows: Rows)
    requires Scanned(iter, st, rows)
    ensures st != [] && iter.simContext.stack == ScanStored(iter.simContext.env.version, st, iter.payloadContract, rows)
  {
  }

  lemma SelectLeaves(version: nat, before: Stack, after: Stack, payload: Bytes)
    requires before != [] && forall side, c, k :: Lookup(after, side, c, k) == Lookup(before, side, c, k)
    ensures LeftByScan(version, before, after, payload, [])
  {
    hide Lookup;
  }
}
