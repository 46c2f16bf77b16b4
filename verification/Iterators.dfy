/** The iterators of a range scan: own and block writes, the store, and the two merged. */
module Iterators {
  import opened ByteStrings
  import opened Layers
  import opened BlockVersions
  import opened Sorting
  import opened TxSimContexts

  datatype KV = KV(key: Bytes, value: Bytes, contract: Bytes)

  type Rows = seq<KV>

  ghost predicate Increasing(rows: Rows) {
    forall i, j :: 0 <= i < j < |rows| ==> Less(rows[i].key, rows[j].key)
  }

  ghost predicate AllAbove(key: Bytes, rows: Rows) {
    forall i :: 0 <= i < |rows| ==> Less(key, rows[i].key)
  }

  // ---------------------------------------------------------------- a map in key order

  type Keyed = map<Bytes, KV>

  ghost predicate KeyedByKey(m: Keyed) {
    forall k :: k in m ==> m[k].key == k
  }

  ghost function InOrder(m: Keyed): (rows: Rows)
    ensures |rows| == |m|
    decreases |m|
  {
    if m == map[] then []
    else
      var k := LeastIn(m.Keys);
      assert (m - {k}).Keys == m.Keys - {k};
      [m[k]] + InOrder(m - {k})
  }

  lemma {:induction false} InOrderHas(m: Keyed, kv: KV)
    requires KeyedByKey(m)
    ensures kv in InOrder(m) <==> kv.key in m && m[kv.key] == kv
    decreases |m|
  {
    if m != map[] {
      var k := LeastIn(m.Keys);
      assert (m - {k}).Keys == m.Keys - {k};
      InOrderHas(m - {k}, kv);
    }
  }

  lemma {:induction false} InOrderIncreasing(m: Keyed)
    requires KeyedByKey(m)
    ensures Increasing(InOrder(m))
    decreases |m|
  {
    if m != map[] {
      var k := LeastIn(m.Keys);
      var rest := InOrder(m - {k});
      assert (m - {k}).Keys == m.Keys - {k};
      InOrderIncreasing(m - {k});
      forall i | 0 <= i < |rest| ensures Less(k, rest[i].key) {
        assert rest[i] in rest;
        InOrderHas(m - {k}, rest[i]);
        assert LessEq(k, rest[i].key);
      }
      var kv := m[k];
      assert InOrder(m) == [kv] + rest;
      hide Less, InOrder, KeyedByKey, LeastIn;
      ConsIncreasing(kv, rest);
    }
  }

  /** A sorted map whose first entry is taken out at each step. */
  class WsetIterator {
    var sorted: Keyed

    constructor (wsets: Keyed)
      ensures sorted == wsets
    {
      sorted := wsets;
    }

    method Next() returns (more: bool)
      ensures more <==> InOrder(sorted) != []
    {
      more := sorted != map[];
    }

    method Value() returns (kv: Option<KV>)
      modifies this
      ensures kv == if InOrder(old(sorted)) == [] then None else Some(InOrder(old(sorted))[0])
      ensures InOrder(sorted) == if InOrder(old(sorted)) == [] then [] else InOrder(old(sorted))[1..]
    {
      if sorted == map[] {
        return None;
      }
      var k := FirstKey(sorted);
      assert k == LeastIn(sorted.Keys) by {
        LessEqAntisymmetric(k, LeastIn(sorted.Keys));
      }
      kv := Some(sorted[k]);
      sorted := sorted - {k};
    }
  }

  /** The first key of a sorted map. */
  method FirstKey(m: Keyed) returns (k: Bytes)
    requires m != map[]
    ensures IsLeast(k, m.Keys)
  {
    hide Less;
    var left := m.Keys;
    k :| k in left;
    left := left - {k};
    while left != {}
      invariant left <= m.Keys && k in m
      invariant forall j :: j in m && j !in left ==> LessEq(k, j)
      decreases left
    {
      var j :| j in left;
      LessTotal(j, k);
      if Less(j, k) {
        forall i | i in m && i !in left ensures LessEq(j, i) {
          LessEqTransitive(j, k, i);
        }
        k := j;
      }
      left := left - {j};
    }
  }

  /** The rows of the store, in key order. */
  class StoreIterator {
    var rows: Rows
    var current: Option<KV>

    constructor (rows: Rows)
      ensures this.rows == rows
    {
      this.rows, current := rows, None;
    }

    method Next() returns (more: bool)
      modifies this
      ensures more <==> old(rows) != []
      ensures more ==> current == Some(old(rows)[0]) && rows == old(rows)[1..]
      ensures !more ==> rows == []
    {
      more := rows != [];
      if more {
        current, rows := Some(rows[0]), rows[1..];
      }
    }

    method Value() returns (kv: Option<KV>)
      ensures kv == current
    {
      kv := current;
    }
  }

  // ---------------------------------------------------------------- merging

  /** The merge of two row sequences; on equal keys the first one's row is taken and the other dropped. */
  function Merge(ws: Rows, ds: Rows): Rows
    decreases |ws| + |ds|
  {
    if ws == [] then ds
    else if ds == [] then ws
    else if ws[0].key == ds[0].key then [ws[0]] + Merge(ws[1..], ds[1..])
    else if Less(ws[0].key, ds[0].key) then [ws[0]] + Merge(ws[1..], ds)
    else [ds[0]] + Merge(ws, ds[1..])
  }

  function Held(cache: Option<KV>): Rows {
    match cache case None => [] case Some(kv) => [kv]
  }

  predicate HasKey(rows: Rows, k: Bytes) {
    exists i :: 0 <= i < |rows| && rows[i].key == k
  }

  lemma {:induction false} MergeAbove(k: Bytes, ws: Rows, ds: Rows)
    requires AllAbove(k, ws) && AllAbove(k, ds)
    ensures AllAbove(k, Merge(ws, ds))
    decreases |ws| + |ds|
  {
    hide Less;
    if ws != [] && ds != [] {
      MergeAbove(k, ws[1..], ds[1..]);
      MergeAbove(k, ws[1..], ds);
      MergeAbove(k, ws, ds[1..]);
    }
  }

  lemma TailAbove(rows: Rows)
    requires Increasing(rows) && rows != []
    ensures AllAbove(rows[0].key, rows[1..]) && Increasing(rows[1..])
  {
  }

  lemma AboveAll(k: Bytes, rows: Rows)
    requires Increasing(rows) && rows != [] && Less(k, rows[0].key)
    ensures AllAbove(k, rows)
  {
    forall i | 0 < i < |rows| ensures Less(k, rows[i].key) {
      LessTransitive(k, rows[0].key, rows[i].key);
    }
  }

  lemma ConsIncreasing(kv: KV, rows: Rows)
    requires Increasing(rows) && AllAbove(kv.key, rows)
    ensures Increasing([kv] + rows)
  {
    hide Less;
  }

  /** The merge of two strictly increasing sequences is strictly increasing: no key comes twice. */
  lemma {:induction false} MergeIncreasing(ws: Rows, ds: Rows)
    requires Increasing(ws) && Increasing(ds)
    ensures Increasing(Merge(ws, ds))
    decreases |ws| + |ds|
  {
    if ws != [] && ds != [] {
      TailAbove(ws);
      TailAbove(ds);
      LessTotal(ws[0].key, ds[0].key);
      var k := if ws[0].key == ds[0].key || Less(ws[0].key, ds[0].key) then ws[0] else ds[0];
      var ws', ds' := if k == ws[0] then ws[1..] else ws, if ws[0].key == ds[0].key || k != ws[0] then ds[1..] else ds;
      if ws' != [] && Less(k.key, ws'[0].key) {
        AboveAll(k.key, ws');
      }
      if ds' != [] && Less(k.key, ds'[0].key) {
        AboveAll(k.key, ds');
      }
      hide Less, Increasing, AllAbove;
      MergeIncreasing(ws', ds');
      MergeAbove(k.key, ws', ds');
      ConsIncreasing(k, Merge(ws', ds'));
    }
  }

  lemma HasCons(rows: Rows, kv: KV)
    requires rows != []
    ensures kv in rows <==> kv == rows[0] || kv in rows[1..]
    ensures HasKey(rows, kv.key) <==> kv.key == rows[0].key || HasKey(rows[1..], kv.key)
  {
    assert rows == [rows[0]] + rows[1..];
    if i :| 0 < i < |rows| && rows[i].key == kv.key {
      assert rows[1..][i - 1].key == kv.key;
    }
  }

  lemma AboveHasNot(rows: Rows, k: Bytes, kv: KV)
    requires AllAbove(k, rows)
    ensures kv in rows ==> kv.key != k
    ensures !HasKey(rows, k)
  {
    LessIrreflexive(k);
    hide Less;
  }

  lemma MergeCons(kv: KV, rows: Rows, other: KV)
    ensures other in [kv] + rows <==> other == kv || other in rows
  {
  }

  /** A row is in the merge when the first sequence has it, or the second has it and the first has not its key. */
  lemma {:induction false} MergeHas(ws: Rows, ds: Rows, kv: KV)
    requires Increasing(ws) && Increasing(ds)
    ensures kv in Merge(ws, ds) <==> kv in ws || (kv in ds && !HasKey(ws, kv.key))
    decreases |ws| + |ds|
  {
    if ws != [] && ds != [] {
      TailAbove(ws);
      TailAbove(ds);
      HasCons(ws, kv);
      HasCons(ds, kv);
      LessTotal(ws[0].key, ds[0].key);
      if ws[0].key == ds[0].key {
        AboveHasNot(ds[1..], ds[0].key, kv);
        MergeHas(ws[1..], ds[1..], kv);
        MergeCons(ws[0], Merge(ws[1..], ds[1..]), kv);
      } else if Less(ws[0].key, ds[0].key) {
        AboveAll(ws[0].key, ds);
        AboveHasNot(ds, ws[0].key, kv);
        MergeHas(ws[1..], ds, kv);
        MergeCons(ws[0], Merge(ws[1..], ds), kv);
      } else {
        AboveAll(ds[0].key, ws);
        AboveHasNot(ws, ds[0].key, ds[0]);
        MergeHas(ws, ds[1..], kv);
        MergeCons(ds[0], Merge(ws, ds[1..]), kv);
      }
      hide Less, Increasing, AllAbove, HasKey;
    }
  }

  // ---------------------------------------------------------------- the iterator contracts use

  /**
   * The merged iterator. It holds at most one row of each side in a cache, so that it can compare the
   * two before it lets go of one.
   */
  class SimContextIterator {
    const simContext: TxSimContext
    const payloadContract: Bytes
    const wsetIter: WsetIterator
    const dbIter: StoreIterator

    var wsetValueCache: Option<KV>
    var dbValueCache: Option<KV>
    var finalValue: Option<KV>

    constructor (simContext: TxSimContext, payloadContract: Bytes, wsetIter: WsetIterator, dbIter: StoreIterator)
      ensures this.simContext == simContext && this.payloadContract == payloadContract
      ensures this.wsetIter == wsetIter && this.dbIter == dbIter
      ensures finalValue == None && Pending() == Merge(InOrder(wsetIter.sorted), dbIter.rows)
    {
      this.simContext, this.payloadContract := simContext, payloadContract;
      this.wsetIter, this.dbIter := wsetIter, dbIter;
      wsetValueCache, dbValueCache, finalValue := None, None, None;
      new;
      assert [] + InOrder(wsetIter.sorted) == InOrder(wsetIter.sorted);
      assert [] + dbIter.rows == dbIter.rows;
    }

    ghost function WsetPending(): Rows
      reads this, wsetIter
    {
      Held(wsetValueCache) + InOrder(wsetIter.sorted)
    }

    ghost function DbPending(): Rows
      reads this, dbIter
    {
      Held(dbValueCache) + dbIter.rows
    }

    /** The rows still to come. */
    ghost function Pending(): Rows
      reads this, wsetIter, dbIter
    {
      Merge(WsetPending(), DbPending())
    }

    method FillWset()
      modifies this`wsetValueCache, wsetIter
      ensures WsetPending() == old(WsetPending())
      ensures wsetValueCache == if WsetPending() == [] then None else Some(WsetPending()[0])
    {
      if wsetValueCache == None {
        var more := wsetIter.Next();
        if more {
          wsetValueCache := wsetIter.Value();
        }
      }
    }

    method FillDb()
      modifies this`dbValueCache, dbIter
      ensures DbPending() == old(DbPending())
      ensures dbValueCache == if DbPending() == [] then None else Some(DbPending()[0])
    {
      if dbValueCache == None {
        var more := dbIter.Next();
        if more {
          dbValueCache := dbIter.Value();
        }
      }
    }

    /** Moves to the next row of the merge; false when there is none. */
    method Next() returns (more: bool)
      modifies this`wsetValueCache, this`dbValueCache, this`finalValue, wsetIter, dbIter
      ensures more <==> old(Pending()) != []
      ensures more ==> finalValue == Some(old(Pending())[0]) && Pending() == old(Pending())[1..]
      ensures !more ==> Pending() == [] && finalValue == old(finalValue)
    {
      FillWset();
      FillDb();
      ghost var ws, ds := WsetPending(), DbPending();
      assert wsetValueCache.Some? ==> Held(None) + InOrder(wsetIter.sorted) == ws[1..];
      assert dbValueCache.Some? ==> Held(None) + dbIter.rows == ds[1..];
      hide Less, InOrder;
      if wsetValueCache == None && dbValueCache == None {
        return false;
      }
      if wsetValueCache.Some? && dbValueCache.Some? {
        if wsetValueCache.value.key == dbValueCache.value.key {
          dbValueCache := None;
          finalValue := wsetValueCache;
          wsetValueCache := None;
        } else if Less(wsetValueCache.value.key, dbValueCache.value.key) {
          finalValue := wsetValueCache;
          wsetValueCache := None;
        } else {
          finalValue := dbValueCache;
          dbValueCache := None;
        }
      } else if wsetValueCache.Some? {
        finalValue := wsetValueCache;
        wsetValueCache := None;
      } else {
        finalValue := dbValueCache;
        dbValueCache := None;
      }
      return true;
    }

    /** Whether some write map of one layer has the raw key as a map key. */
    method KeyInLayer(depth: nat, key: Bytes) returns (found: bool)
      requires simContext.Valid() && depth <= simContext.currentDepth
      ensures found <==> InWriteMapOf(simContext.stack[depth], key)
    {
      ghost var layer := simContext.stack[depth];
      FiledKeys(simContext.layers, simContext.shelf, simContext.stack, depth);
      assert Shows(simContext.layers[depth], depth, simContext.shelf, layer);
      var names := simContext.layers[depth].Keys;
      while names != {}
        invariant names <= layer.Keys
        invariant forall c: Bytes :: c in layer && c !in names ==> key !in layer[c].writeMap
        decreases names
      {
        var contract :| contract in names;
        var rws := simContext.layers[depth][contract];
        assert rws.View() == layer[contract];
        if key in rws.writeMap {
          return true;
        }
        names := names - {contract};
      }
      return false;
    }

    /** Whether some write map of the context has the current row's raw key as a map key. */
    method IterKeyInSimCtxWSet(key: Bytes) returns (found: bool)
      requires simContext.Valid()
      ensures found <==> InSomeWriteMap(simContext.stack, key)
    {
      hide InWriteMapOf;
      for depth := 0 to simContext.currentDepth + 1
        invariant forall d :: 0 <= d < depth ==> !InWriteMapOf(simContext.stack[d], key)
      {
        found := KeyInLayer(depth, key);
        if found {
          return true;
        }
      }
      return false;
    }

    /**
     * The current row. It enters the read set of the transaction's own contract, from 2.3.5 on unless
     * its raw key is a map key of the write set.
     */
    method Value() returns (kv: Option<KV>)
      requires simContext.Valid()
      modifies simContext`layers, simContext`stack, simContext`shelf, simContext.shelf.Keys
      ensures simContext.Valid() && fresh(simContext.shelf.Keys - old(simContext.shelf.Keys))
      ensures kv == finalValue
      ensures simContext.stack
           == if finalValue.Some?
                 && (simContext.env.version < V235 || !InSomeWriteMap(old(simContext.stack), finalValue.value.key))
              then StoreTop(old(simContext.stack), Reads, payloadContract, finalValue.value.key, finalValue.value.value)
              else old(simContext.stack)
    {
      kv := finalValue;
      if kv.Some? {
        if simContext.env.version < V235 {
          simContext.PutIntoSet(Reads, payloadContract, kv.value.key, kv.value.value);
        } else {
          var found := IterKeyInSimCtxWSet(kv.value.key);
          if !found {
            simContext.PutIntoSet(Reads, payloadContract, kv.value.key, kv.value.value);
          }
        }
      }
    }
  }

  predicate InWriteMapOf(layer: Layer, key: Bytes) {
    exists c :: c in layer && key in layer[c].writeMap
  }

  predicate InSomeWriteMap(st: Stack, key: Bytes) {
    exists d :: 0 <= d < |st| && InWriteMapOf(st[d], key)
  }
}
