/** The read and write sets a finished transaction reports. */
module Reports {
  import opened ByteStrings
  import opened Keys
  import opened Layers
  import opened BlockVersions
  import opened Programs
  import opened Overlays
  import opened Sorting
  import opened TxSimContexts

  /** "ACCOUNT_MANAGER" */
  const ACCOUNT_MANAGER: Bytes := [65, 67, 67, 79, 85, 78, 84, 95, 77, 65, 78, 65, 71, 69, 82]

  lemma AccountManagerName()
    ensures |ACCOUNT_MANAGER| == |"ACCOUNT_MANAGER"|
    ensures forall i :: 0 <= i < |ACCOUNT_MANAGER| ==> ACCOUNT_MANAGER[i] as char == "ACCOUNT_MANAGER"[i]
  {
  }

  // ---------------------------------------------------------------- the report as a function of the layers

  function Listed(keys: seq<Bytes>, m: KeyMap): seq<Entry>
    requires forall k :: k in keys ==> k in m
  {
    seq(|keys|, i requires 0 <= i < |keys| => m[keys[i]])
  }

  /** The merged map: versions from 2.3.1.2 to before 2.3.5 let older entries win. */
  function Flattened(version: nat, ms: seq<Maps>): KeyMap
    requires AllOwned(ms)
  {
    if V2312 <= version < V235 then Oldest(ms) else Newest(ms)
  }

  ghost function Report(version: nat, ms: seq<Maps>): seq<Entry>
    requires AllOwned(ms)
  {
    ReportDefined(version, ms);
    Listed(SortedKeys(KeyBag(ms)), Flattened(version, ms))
  }

  lemma ReportDefined(version: nat, ms: seq<Maps>)
    requires AllOwned(ms)
    ensures forall fk :: fk in KeyBag(ms) <==> fk in Flattened(version, ms)
    ensures forall fk :: fk in SortedKeys(KeyBag(ms)) ==> fk in Flattened(version, ms)
  {
    forall fk ensures fk in KeyBag(ms) <==> fk in Flattened(version, ms) {
      BagHasNewest(ms, fk);
    }
    hide Flattened, KeyBag, Sorted;
    assert forall fk :: fk in SortedKeys(KeyBag(ms)) ==> fk in multiset(SortedKeys(KeyBag(ms)));
  }

  // ---------------------------------------------------------------- collecting

  /** collectReadKey and collectWriteKey: the map's keys, in whatever order the map gives them. */
  method CollectKeys(m: KeyMap) returns (keys: seq<Bytes>)
    ensures multiset(keys) == multiset(m.Keys)
  {
    keys := [];
    var left := m.Keys;
    while left != {}
      invariant left <= m.Keys && multiset(keys) + multiset(left) == multiset(m.Keys)
      decreases left
    {
      var key :| key in left;
      keys := keys + [key];
      assert multiset(left) == multiset(left - {key}) + multiset{key};
      left := left - {key};
    }
  }

  /** Looking up the sorted keys one by one. */
  method ListEntries(keys: seq<Bytes>, entries: KeyMap) returns (list: seq<Entry>)
    requires forall k :: k in keys ==> k in entries
    ensures list == Listed(keys, entries)
  {
    list := [];
    for i := 0 to |keys|
      invariant |list| == i && forall j :: 0 <= j < i ==> list[j] == entries[keys[j]]
    {
      list := list + [entries[keys[i]]];
    }
  }

  /** The gathered keys sorted, and their entries in that order. */
  method SortAndList(keys: seq<Bytes>, entries: KeyMap) returns (list: seq<Entry>)
    requires forall k :: k in multiset(keys) ==> k in entries
    ensures (forall k :: k in SortedKeys(multiset(keys)) ==> k in entries)
         && list == Listed(SortedKeys(multiset(keys)), entries)
  {
    hide Sorted;
    var sorted := SortStrings(keys);
    forall k | k in sorted ensures k in entries {
      assert k in multiset(sorted);
    }
    list := ListEntries(sorted, entries);
  }

  method MapAt(s: TxSimContext, side: Side, depth: nat, contract: Bytes) returns (m: KeyMap)
    requires s.Valid() && depth <= s.currentDepth && contract in s.layers[depth]
    ensures contract in s.stack[depth] && m == Pick(s.stack[depth][contract], side)
  {
    FiledKeys(s.layers, s.shelf, s.stack, depth);
    assert Shows(s.layers[depth], depth, s.shelf, s.stack[depth]);
    var rw := s.layers[depth][contract];
    m := match side case Reads => rw.readMap case Writes => rw.writeMap;
  }

  method CollectOver(s: TxSimContext, side: Side, depth: nat, contract: Bytes, entries0: KeyMap, keys0: seq<Bytes>)
    returns (entries: KeyMap, keys: seq<Bytes>)
    requires s.Valid() && depth <= s.currentDepth && contract in s.layers[depth]
    ensures contract in s.stack[depth]
    ensures var m := Pick(s.stack[depth][contract], side);
      entries == entries0 + m && multiset(keys) == multiset(keys0) + multiset(m.Keys)
  {
    var rwMap := MapAt(s, side, depth, contract);
    var rwKeys := CollectKeys(rwMap);
    keys := keys0 + rwKeys;
    entries := MergeInto(entries0, rwMap);
  }

  /**
   * One layer collected with mergeTx...Set(entries, its maps): the layer's maps go over what was gathered, in the
   * order the contracts are ranged over. With plain names the order does not matter.
   */
  method CollectLayerOver(s: TxSimContext, side: Side, depth: nat, entries0: KeyMap, keys0: seq<Bytes>)
    returns (entries: KeyMap, keys: seq<Bytes>, ghost order: seq<Bytes>)
    requires s.Valid() && depth <= s.currentDepth
    ensures var m := OneSide(s.stack[depth], side);
      && Enumerates(order, m.Keys) && entries == entries0 + MergedInOrder(m, order)
      && (Owned(m) ==>
            entries == entries0 + LayerMap(m) && multiset(keys) == multiset(keys0) + multiset(KeysOf(m, m.Keys)))
  {
    ghost var m := OneSide(s.stack[depth], side);
    FiledKeys(s.layers, s.shelf, s.stack, depth);
    KeysStart(m, multiset(keys0));
    MergeStart(m, entries0);
    hide Filed, Shows, Owned, KeysOf, KeysSoFar, MergedSoFar, LayerMap, MergedInOrder;
    var names := s.layers[depth].Keys;
    entries, keys, order := entries0, keys0, [];
    while names != {}
      invariant names <= m.Keys && MergedSoFar(m, names, order, entries0, entries)
      invariant KeysSoFar(m, names, multiset(keys0), multiset(keys))
      decreases names
    {
      var contract :| contract in names;
      MergeTurn(m, names, order, entries0, entries, contract);
      KeysTurn(m, names, contract, multiset(keys0), multiset(keys));
      entries, keys := CollectOver(s, side, depth, contract, entries, keys);
      names, order := names - {contract}, order + [contract];
    }
    MergeEnd(m, order, entries0, entries);
    KeysEnd(m, multiset(keys0), multiset(keys));
  }

  /** From the bottom layer up, each merged over what was collected. */
  method CollectAscending(s: TxSimContext, side: Side) returns (entries: KeyMap, keys: seq<Bytes>)
    requires s.Valid() && AllOwned(Project(s.stack, side))
    ensures entries == Newest(Project(s.stack, side))
    ensures multiset(keys) == KeyBag(Project(s.stack, side))
  {
    ghost var ms := Project(s.stack, side);
    assert |ms| == s.currentDepth + 1 && ms[..0] == [] && ms[..|ms|] == ms;
    hide Filed, Shows, Owned, LayerMap, KeysOf, MergedInOrder, Newest, KeyBag, s.Valid;
    entries, keys := map[], [];
    NothingGathered();
    ghost var order;
    var depth := 0;
    while depth <= s.currentDepth
      invariant depth <= s.currentDepth + 1
      invariant entries == Newest(ms[..depth]) && multiset(keys) == KeyBag(ms[..depth])
    {
      NewestPrefix(ms, depth);
      entries, keys, order := CollectLayerOver(s, side, depth, entries, keys);
      depth := depth + 1;
    }
  }

  /** From the current layer down, each merged over what was collected: older entries win. */
  method CollectDescending(s: TxSimContext, side: Side) returns (entries: KeyMap, keys: seq<Bytes>)
    requires s.Valid() && AllOwned(Project(s.stack, side))
    ensures entries == Oldest(Project(s.stack, side))
    ensures multiset(keys) == KeyBag(Project(s.stack, side))
  {
    ghost var ms := Project(s.stack, side);
    hide Filed, Shows, Owned, LayerMap, KeysOf;
    entries, keys := map[], [];
    ghost var order;
    var depth: int := s.currentDepth;
    assert ms[depth + 1..] == [];
    while depth >= 0
      invariant -1 <= depth <= s.currentDepth
      invariant entries == Oldest(ms[depth + 1..]) && multiset(keys) == KeyBag(ms[depth + 1..])
    {
      entries, keys, order := CollectLayerOver(s, side, depth, entries, keys);
      assert ms[depth..][1..] == ms[depth + 1..] && ms[depth..][0] == ms[depth];
      depth := depth - 1;
    }
    assert ms[0..] == ms;
  }

  // ---------------------------------------------------------------- collecting with merges in place

  function Other(side: Side): Side {
    if side == Reads then Writes else Reads
  }

  lemma ProjectChange(st: Stack, side: Side, d: nat, c: Bytes, rw: RW)
    requires d < |st|
    ensures Project(st[d := st[d][c := rw]], side)
         == Project(st, side)[d := OneSide(st[d], side)[c := Pick(rw, side)]]
  {
    hide Pick;
    assert OneSide(st[d][c := rw], side) == OneSide(st[d], side)[c := Pick(rw, side)];
  }

  lemma ProjectSame(st: Stack, side: Side, d: nat, c: Bytes, rw: RW)
    requires d < |st| && c in st[d] && Pick(rw, side) == Pick(st[d][c], side)
    ensures Project(st[d := st[d][c := rw]], side) == Project(st, side)
  {
    ProjectChange(st, side, d, c, rw);
    hide Pick;
    assert OneSide(st[d], side)[c := Pick(rw, side)] == OneSide(st[d], side);
  }

  /** One map of a set gets new contents, in place. */
  method ReplaceMap(s: TxSimContext, side: Side, depth: nat, contract: Bytes, m: KeyMap)
    requires s.Valid() && depth <= s.currentDepth && contract in s.layers[depth]
    modifies s`stack, s`shelf, s.layers[depth][contract]
    ensures s.Valid() && s.shelf.Keys == old(s.shelf.Keys)
    ensures |s.stack| == |old(s.stack)|
    ensures Project(s.stack, side)
         == Project(old(s.stack), side)[depth := OneSide(old(s.stack)[depth], side)[contract := m]]
    ensures Project(s.stack, Other(side)) == Project(old(s.stack), Other(side))
  {
    FiledKeys(s.layers, s.shelf, s.stack, depth);
    assert Shows(s.layers[depth], depth, s.shelf, s.stack[depth]);
    var rw := s.layers[depth][contract];
    assert rw.View() == s.stack[depth][contract];
    if side == Reads {
      rw.readMap := m;
    } else {
      rw.writeMap := m;
    }
    ghost var view := rw.View();
    s.Reshelve(depth, contract, view);
    hide Filed, Shows, Project;
    ProjectChange(old(s.stack), side, depth, contract, view);
    ProjectSame(old(s.stack), Other(side), depth, contract, view);
  }

  /** One contract collected with mergeTx...Set(its map, entries): its map takes up what was gathered. */
  method CollectUnder(s: TxSimContext, side: Side, depth: nat, contract: Bytes, entries0: KeyMap, keys0: seq<Bytes>)
    returns (entries: KeyMap, keys: seq<Bytes>)
    requires s.Valid() && depth <= s.currentDepth && contract in s.layers[depth]
    modifies s`stack, s`shelf, s.layers[depth][contract]
    ensures s.Valid() && s.shelf.Keys == old(s.shelf.Keys)
    ensures |s.stack| == |old(s.stack)|
    ensures contract in OneSide(old(s.stack)[depth], side)
    ensures var m := OneSide(old(s.stack)[depth], side)[contract];
      entries == m + entries0 && multiset(keys) == multiset(keys0) + multiset(m.Keys)
    ensures Project(s.stack, side) == Absorbed(Project(old(s.stack), side), depth, contract, entries0)
    ensures Project(s.stack, Other(side)) == Project(old(s.stack), Other(side))
  {
    var rwMap := MapAt(s, side, depth, contract);
    var rwKeys := CollectKeys(rwMap);
    keys := keys0 + rwKeys;
    entries := MergeInto(rwMap, entries0);
    hide s.Valid;
    ReplaceMap(s, side, depth, contract, entries);
  }

  /** One layer of the descending loop before 2.3.1.2: ms0 are the maps before the whole loop. */
  method CollectLayerUnder(s: TxSimContext, side: Side, depth: nat, entries0: KeyMap, keys0: seq<Bytes>,
                           ghost ms0: seq<Maps>)
    returns (entries: KeyMap, keys: seq<Bytes>)
    requires s.Valid() && depth < |s.stack| == |ms0| && AllOwned(ms0)
    requires GatheredFrom(Project(s.stack, side), ms0, depth + 1, entries0, multiset(keys0))
    modifies s`stack, s`shelf, s.shelf.Keys
    ensures s.Valid() && s.shelf.Keys == old(s.shelf.Keys) && |s.stack| == |ms0|
    ensures GatheredFrom(Project(s.stack, side), ms0, depth, entries, multiset(keys))
    ensures Project(s.stack, Other(side)) == Project(old(s.stack), Other(side))
  {
    ghost var m := ms0[depth];
    FiledKeys(s.layers, s.shelf, s.stack, depth);
    AbsorbDown(Project(s.stack, side), ms0, depth);
    GatherStart(m, entries0, multiset(keys0));
    hide Filed, Shows, Owned, KeysOf, GatheredUnder, LayerMap, Newest, KeyBag, SameFrom, Untouched;
    var names := s.layers[depth].Keys;
    entries, keys := entries0, keys0;
    assert names == m.Keys && Turning(s, side, depth, names, entries0, multiset(keys0), entries, multiset(keys), ms0);
    assert entries0 == Newest(ms0[depth + 1..]) && multiset(keys0) == KeyBag(ms0[depth + 1..]);
    ghost var other := Project(s.stack, Other(side));
    hide *;
    while names != {}
      invariant s.Valid() && s.shelf.Keys == old(s.shelf.Keys) && |s.stack| == |ms0|
      invariant Turning(s, side, depth, names, entries0, multiset(keys0), entries, multiset(keys), ms0)
      invariant Project(s.stack, Other(side)) == other
      decreases names
    {
      var contract :| contract in names;
      entries, keys := CollectTurn(s, side, depth, names, contract, entries0, multiset(keys0), entries, keys, ms0);
      names := names - {contract};
    }
    TurningEnd(s, side, depth, entries0, multiset(keys0), entries, multiset(keys), ms0);
  }

  /** The state of the inner loop. */
  ghost predicate Turning(s: TxSimContext, side: Side, depth: nat, names: set<Bytes>, base: KeyMap,
                          bag0: multiset<Bytes>,
                          entries: KeyMap, bag: multiset<Bytes>, ms0: seq<Maps>)
    reads s`stack
    requires |s.stack| == |ms0| && depth < |ms0| && AllOwned(ms0)
  {
    var ms := Project(s.stack, side);
    && GatheredUnder(ms0[depth], names, base, bag0, entries, bag)
    && Untouched(ms, ms0, depth, names)
    && SameFrom(ms, ms0, depth) && SameFrom(ms, ms0, depth + 1)
  }

  method CollectTurn(s: TxSimContext, side: Side, depth: nat, ghost names: set<Bytes>, contract: Bytes,
                     ghost base: KeyMap, ghost bag0: multiset<Bytes>,
                     entries0: KeyMap, keys0: seq<Bytes>, ghost ms0: seq<Maps>)
    returns (entries: KeyMap, keys: seq<Bytes>)
    requires s.Valid() && depth <= s.currentDepth && |ms0| == |s.stack| && AllOwned(ms0)
    requires Turning(s, side, depth, names, base, bag0, entries0, multiset(keys0), ms0)
    requires contract in names && base == Newest(ms0[depth + 1..])
    modifies s`stack, s`shelf, s.shelf.Keys
    ensures s.Valid() && s.shelf.Keys == old(s.shelf.Keys) && |s.stack| == |ms0|
    ensures Turning(s, side, depth, names - {contract}, base, bag0, entries, multiset(keys), ms0)
    ensures Project(s.stack, Other(side)) == Project(old(s.stack), Other(side))
  {
    ghost var m, ms := ms0[depth], Project(s.stack, side);
    GatherTurnUnder(m, names, contract, base, bag0, entries0, multiset(keys0));
    AbsorbTurn(ms, ms0, depth, names, contract, base, entries0);
    assert contract in s.stack[depth];
    FiledKeys(s.layers, s.shelf, s.stack, depth);
    assert Shows(s.layers[depth], depth, s.shelf, s.stack[depth]);
    assert s.layers[depth][contract] in s.shelf.Keys;
    hide Filed, Shows, Owned, KeysOf, GatheredUnder, LayerMap, Newest, SameFrom, Untouched, Absorbed, s.Valid;
    entries, keys := CollectUnder(s, side, depth, contract, entries0, keys0);
  }

  lemma TurningEnd(s: TxSimContext, side: Side, depth: nat, base: KeyMap, bag0: multiset<Bytes>,
                   entries: KeyMap, bag: multiset<Bytes>, ms0: seq<Maps>)
    requires |s.stack| == |ms0| && depth < |ms0| && AllOwned(ms0)
    requires Turning(s, side, depth, {}, base, bag0, entries, bag, ms0)
    requires base == Newest(ms0[depth + 1..]) && bag0 == KeyBag(ms0[depth + 1..])
    ensures GatheredFrom(Project(s.stack, side), ms0, depth, entries, bag)
  {
    hide Owned, KeysOf, GatheredUnder, LayerMap, SameFrom, Newest, KeyBag;
    GatherEnd(ms0[depth], base, bag0, entries, bag);
    NewestSuffix(ms0, depth);
  }

  /**
   * From the current layer down, before 2.3.1.2: each layer's own map takes up what was gathered, so the
   * context is changed; newer entries win, and no contract's lookup changes.
   */
  method CollectInPlace(s: TxSimContext, side: Side) returns (entries: KeyMap, keys: seq<Bytes>)
    requires s.Valid() && AllOwned(Project(s.stack, side))
    modifies s`stack, s`shelf, s.shelf.Keys
    ensures s.Valid() && s.shelf.Keys == old(s.shelf.Keys) && |s.stack| == |old(s.stack)|
    ensures entries == Newest(Project(old(s.stack), side))
    ensures multiset(keys) == KeyBag(Project(old(s.stack), side))
    ensures Project(s.stack, Other(side)) == Project(old(s.stack), Other(side))
    ensures SameFrom(Project(s.stack, side), Project(old(s.stack), side), 0)
  {
    ghost var ms0 := Project(s.stack, side);
    GatherFromStart(ms0);
    assert |ms0| == s.currentDepth + 1;
    hide *;
    entries, keys := CollectDown(s, side, ms0);
    GatherFromEnd(Project(s.stack, side), ms0, entries, multiset(keys));
  }

  /** The descending loop itself. */
  method CollectDown(s: TxSimContext, side: Side, ghost ms0: seq<Maps>) returns (entries: KeyMap, keys: seq<Bytes>)
    requires s.Valid() && |ms0| == |s.stack| == s.currentDepth + 1 && AllOwned(ms0)
    requires GatheredFrom(Project(s.stack, side), ms0, |ms0|, map[], multiset{})
    modifies s`stack, s`shelf, s.shelf.Keys
    ensures s.Valid() && s.shelf.Keys == old(s.shelf.Keys) && |s.stack| == |ms0|
    ensures GatheredFrom(Project(s.stack, side), ms0, 0, entries, multiset(keys))
    ensures Project(s.stack, Other(side)) == Project(old(s.stack), Other(side))
  {
    ghost var other := Project(s.stack, Other(side));
    hide *;
    entries, keys := map[], [];
    assert multiset(keys) == multiset{};
    var layers := s.currentDepth + 1;
    for depth := layers downto 0
      invariant layers == |ms0| == |s.stack|
      invariant s.Valid() && s.shelf.Keys == old(s.shelf.Keys)
      invariant GatheredFrom(Project(s.stack, side), ms0, depth, entries, multiset(keys))
      invariant Project(s.stack, Other(side)) == other
    {
      entries, keys := CollectLayerUnder(s, side, depth, entries, keys, ms0);
    }
  }

  // ---------------------------------------------------------------- one contract

  /** One side of one turn: the layer's own map takes up the merged maps of the layers above. */
  method PoolSide(s: TxSimContext, side: Side, depth: nat, contract: Bytes, acc0: KeyMap, ghost ms0: seq<Maps>)
    returns (acc: KeyMap)
    requires s.Valid() && depth <= s.currentDepth && |ms0| == |s.stack| && contract in s.layers[depth]
    requires PooledFrom(Project(s.stack, side), ms0, depth + 1, contract, acc0)
    modifies s`stack, s`shelf, s.layers[depth][contract]
    ensures s.Valid() && s.shelf.Keys == old(s.shelf.Keys) && |s.stack| == |ms0|
    ensures PooledFrom(Project(s.stack, side), ms0, depth, contract, acc)
    ensures Project(s.stack, Other(side)) == Project(old(s.stack), Other(side))
  {
    PooledTurn(Project(s.stack, side), ms0, depth, contract, acc0);
    hide PooledFrom, Filed, Shows;
    var m := MapAt(s, side, depth, contract);
    acc := MergeInto(m, acc0);
    ReplaceMap(s, side, depth, contract, acc);
  }

  /** A layer without the contract is passed over. */
  lemma PoolPast(s: TxSimContext, side: Side, depth: nat, contract: Bytes, acc: KeyMap, ms0: seq<Maps>)
    requires s.Valid() && depth <= s.currentDepth && |ms0| == |s.stack| && contract !in s.layers[depth]
    requires PooledFrom(Project(s.stack, side), ms0, depth + 1, contract, acc)
    ensures PooledFrom(Project(s.stack, side), ms0, depth, contract, acc)
  {
    FiledKeys(s.layers, s.shelf, s.stack, depth);
    PooledTurn(Project(s.stack, side), ms0, depth, contract, acc);
    hide PooledFrom, Filed, Shows;
  }

  lemma LayerShelved(s: TxSimContext, depth: nat, contract: Bytes)
    requires s.Valid() && depth <= s.currentDepth && contract in s.layers[depth]
    ensures s.layers[depth][contract] in s.shelf.Keys
  {
    assert Shows(s.layers[depth], depth, s.shelf, s.stack[depth]);
  }

  /** One side of one turn, whether the layer has the contract or not. */
  method PoolTurn(s: TxSimContext, side: Side, depth: nat, contract: Bytes, acc0: KeyMap, ghost ms0: seq<Maps>)
    returns (acc: KeyMap)
    requires s.Valid() && depth < |s.stack| == |ms0|
    requires PooledFrom(Project(s.stack, side), ms0, depth + 1, contract, acc0)
    modifies s`stack, s`shelf, s.shelf.Keys
    ensures s.Valid() && s.shelf.Keys == old(s.shelf.Keys) && |s.stack| == |ms0|
    ensures PooledFrom(Project(s.stack, side), ms0, depth, contract, acc)
    ensures Project(s.stack, Other(side)) == Project(old(s.stack), Other(side))
  {
    assert depth < |s.layers| && depth <= s.currentDepth;
    hide *;
    if contract in s.layers[depth] {
      LayerShelved(s, depth, contract);
      acc := PoolSide(s, side, depth, contract, acc0, ms0);
    } else {
      PoolPast(s, side, depth, contract, acc0, ms0);
      acc := acc0;
    }
  }

  /**
   * A contract's reads and writes over all layers. The maps of deeper layers are merged into those of
   * shallower ones in place, and the maps returned are those of the lowest layer.
   */
  method GetTxRWMapByContractName(s: TxSimContext, contract: Bytes) returns (txReads: KeyMap, txWrites: KeyMap)
    requires s.Valid()
    modifies s`stack, s`shelf, s.shelf.Keys
    ensures s.Valid() && s.shelf.Keys == old(s.shelf.Keys) && |s.stack| == |old(s.stack)|
    ensures txReads == Overlay(Project(old(s.stack), Reads), contract)
    ensures txWrites == Overlay(Project(old(s.stack), Writes), contract)
    ensures Project(s.stack, Reads) == Pooled(Project(old(s.stack), Reads), contract)
    ensures Project(s.stack, Writes) == Pooled(Project(old(s.stack), Writes), contract)
  {
    ghost var rs0, ws0 := Project(s.stack, Reads), Project(s.stack, Writes);
    PooledStart(rs0, contract);
    PooledStart(ws0, contract);
    txReads, txWrites := map[], map[];
    assert s.currentDepth + 1 == |s.stack| && Other(Reads) == Writes && Other(Writes) == Reads;
    hide *;
    var layers := s.currentDepth + 1;
    for depth := layers downto 0
      invariant layers == |rs0| == |ws0| == |s.stack|
      invariant s.Valid() && s.shelf.Keys == old(s.shelf.Keys)
      invariant PooledFrom(Project(s.stack, Reads), rs0, depth, contract, txReads)
      invariant PooledFrom(Project(s.stack, Writes), ws0, depth, contract, txWrites)
    {
      txReads := PoolTurn(s, Reads, depth, contract, txReads, rs0);
      txWrites := PoolTurn(s, Writes, depth, contract, txWrites, ws0);
    }
    PooledEnd(Project(s.stack, Reads), rs0, contract, txReads);
    PooledEnd(Project(s.stack, Writes), ws0, contract, txWrites);
  }

  /** No lookup at the current depth changes, in any contract and on either side. */
  lemma PooledContextLookups(before: Stack, after: Stack, contract: Bytes, side: Side, c: Bytes, k: Bytes)
    requires Project(after, side) == Pooled(Project(before, side), contract)
    ensures Lookup(after, side, c, k) == Lookup(before, side, c, k)
  {
    LookupIsFind(before, side, c, k);
    LookupIsFind(after, side, c, k);
    PoolingKeepsLookups(Project(before, side), contract, c, ConstructKey(c, k));
    hide *;
  }

  /**
   * A rollback after the query keeps the failed callee's writes to the queried contract even though the
   * caller's layer has that contract.
   */
  lemma QueryDefeatsRollback(before: Stack, after: Stack, contract: Bytes, k: Bytes)
    requires |before| >= 2 && |after| == |before| && contract in Top(Below(before)) && contract in Top(Below(after))
    requires Project(after, Writes) == Pooled(Project(before, Writes), contract)
    ensures Lookup(Rollback(after), Writes, contract, k) == Lookup(before, Writes, contract, k)
  {
    RollbackLookup(after, Writes, contract, k);
    LookupIsFind(before, Writes, contract, k);
    LookupIsFind(Below(after), Writes, contract, k);
    assert Project(Below(after), Writes) == Project(after, Writes)[..|after| - 1];
    assert contract in Project(before, Writes)[|before| - 2] by {
      assert Project(after, Writes)[|before| - 2].Keys == Top(Below(after)).Keys;
    }
    PoolingOutlivesTop(Project(before, Writes), contract, ConstructKey(contract, k));
  }

  /** The caller's layer, after the query, holds the same contracts; those not queried as they were. */
  lemma PooledBelow(before: Stack, after: Stack, contract: Bytes, c: Bytes, k: Bytes)
    requires |before| >= 2 && |after| == |before|
    requires Project(after, Writes) == Pooled(Project(before, Writes), contract)
    ensures Top(Below(after)).Keys == Top(Below(before)).Keys
    ensures c != contract ==> Lookup(Below(after), Writes, c, k) == Lookup(Below(before), Writes, c, k)
  {
    var n := |before| - 1;
    assert Project(after, Writes)[n - 1].Keys == Project(before, Writes)[n - 1].Keys;
    assert OneSide(after[n - 1], Writes).Keys == after[n - 1].Keys;
    assert OneSide(before[n - 1], Writes).Keys == before[n - 1].Keys;
    hide Lookup, Find, Pooled, ConstructKey;
    if c != contract {
      PooledBelowOthers(before, after, contract, c, k);
    }
  }

  lemma PooledBelowOthers(before: Stack, after: Stack, contract: Bytes, c: Bytes, k: Bytes)
    requires |before| >= 2 && |after| == |before| && c != contract
    requires Project(after, Writes) == Pooled(Project(before, Writes), contract)
    ensures Lookup(Below(after), Writes, c, k) == Lookup(Below(before), Writes, c, k)
  {
    var n := |before| - 1;
    assert Project(Below(after), Writes) == Project(after, Writes)[..n];
    assert Project(Below(before), Writes) == Project(before, Writes)[..n];
    hide *;
    LookupIsFind(Below(after), Writes, c, k);
    LookupIsFind(Below(before), Writes, c, k);
    PoolingLeavesOthers(Project(before, Writes), contract, c, ConstructKey(c, k), n);
  }

  /**
   * A call that fails after such a query leaves every write lookup of its caller as it was exactly when the
   * callee changed nothing of the queried contract and nothing of contracts the caller's layer does not have.
   */
  lemma QueriedRollbackIff(before: Stack, after: Stack, contract: Bytes)
    requires |before| >= 2 && |after| == |before|
    requires Project(after, Writes) == Pooled(Project(before, Writes), contract)
    ensures (forall c, k :: Lookup(Rollback(after), Writes, c, k) == Lookup(Below(before), Writes, c, k))
       <==> (forall c, k :: c == contract || c !in Top(Below(before)) ==>
              InLayer(Top(before), Writes, c, k).None?
              || InLayer(Top(before), Writes, c, k) == Lookup(Below(before), Writes, c, k))
  {
    assert before == Below(before) + [Top(before)];
    forall c, k
      ensures Lookup(Rollback(after), Writes, c, k) == Lookup(Below(before), Writes, c, k)
         <==> (c == contract || c !in Top(Below(before)) ==>
                InLayer(Top(before), Writes, c, k).None?
                || InLayer(Top(before), Writes, c, k) == Lookup(Below(before), Writes, c, k))
    {
      PooledBelow(before, after, contract, c, k);
      LookupOnTop(Below(before), Top(before), Writes, c, k);
      hide Lookup, InLayer, Pooled, Project;
      RollbackLookup(after, Writes, c, k);
      PooledContextLookups(before, after, contract, Writes, c, k);
      if c == contract && c in Top(Below(before)) {
        QueryDefeatsRollback(before, after, contract, k);
      }
    }
  }

  /** A query, and then a failing return: which of the caller's write lookups survive. */
  method QueryAndFail(s: TxSimContext, contract: Bytes, code: nat)
    requires s.Valid() && s.currentDepth >= 1 && s.env.version >= V2300 && code != 0
    modifies s`currentDepth, s`layers, s`stack, s`shelf, s.shelf.Keys
    ensures s.Valid() && s.currentDepth == old(s.currentDepth) - 1 && s.shelf.Keys <= old(s.shelf.Keys)
    ensures |old(s.stack)| >= 2
    ensures (forall c, k :: Lookup(s.stack, Writes, c, k) == Lookup(Below(old(s.stack)), Writes, c, k))
       <==> (forall c, k :: c == contract || c !in Top(Below(old(s.stack))) ==>
              InLayer(Top(old(s.stack)), Writes, c, k).None?
              || InLayer(Top(old(s.stack)), Writes, c, k) == Lookup(Below(old(s.stack)), Writes, c, k))
    ensures contract in Top(Below(old(s.stack))) ==>
      forall k :: Lookup(s.stack, Writes, contract, k) == Lookup(old(s.stack), Writes, contract, k)
  {
    ghost var before := s.stack;
    assert |s.stack| >= 2;
    assert forall st: Stack :: |st| >= 2 ==> Leave(s.env.version, code, st) == Rollback(st);
    hide *;
    var _, _ := GetTxRWMapByContractName(s, contract);
    QueriedRollbackIff(before, s.stack, contract);
    if contract in Top(Below(before)) {
      forall k ensures Lookup(Rollback(s.stack), Writes, contract, k) == Lookup(before, Writes, contract, k) {
        PooledBelow(before, s.stack, contract, contract, k);
        QueryDefeatsRollback(before, s.stack, contract, k);
      }
    }
    s.LeaveCall(code);
  }

  /** The writes of one contract over all layers, as a range scan takes them. */
  method CollectWriteSetByContractName(s: TxSimContext, contract: Bytes) returns (txWrites: KeyMap)
    requires s.Valid()
    modifies s`stack, s`shelf, s.shelf.Keys
    ensures s.Valid() && s.shelf.Keys == old(s.shelf.Keys) && |s.stack| == |old(s.stack)|
    ensures txWrites == Overlay(Project(old(s.stack), Writes), contract)
    ensures Project(s.stack, Reads) == Project(old(s.stack), Reads)
    ensures Project(s.stack, Writes)
         == if s.env.version < V235 then Pooled(Project(old(s.stack), Writes), contract)
            else Project(old(s.stack), Writes)
  {
    assert Other(Writes) == Reads;
    hide *;
    if s.env.version < V235 {
      txWrites := PoolDown(s, Writes, contract);
    } else {
      txWrites := OverlayWrites(s, contract);
    }
  }

  /** From the current layer down, merging in place. */
  method PoolDown(s: TxSimContext, side: Side, contract: Bytes) returns (pooled: KeyMap)
    requires s.Valid()
    modifies s`stack, s`shelf, s.shelf.Keys
    ensures s.Valid() && s.shelf.Keys == old(s.shelf.Keys) && |s.stack| == |old(s.stack)|
    ensures pooled == Overlay(Project(old(s.stack), side), contract)
    ensures Project(s.stack, side) == Pooled(Project(old(s.stack), side), contract)
    ensures Project(s.stack, Other(side)) == Project(old(s.stack), Other(side))
  {
    ghost var ms0, other := Project(s.stack, side), Project(s.stack, Other(side));
    PooledStart(ms0, contract);
    pooled := map[];
    assert s.currentDepth + 1 == |s.stack|;
    hide *;
    var layers := s.currentDepth + 1;
    for depth := layers downto 0
      invariant layers == |ms0| == |s.stack|
      invariant s.Valid() && s.shelf.Keys == old(s.shelf.Keys)
      invariant PooledFrom(Project(s.stack, side), ms0, depth, contract, pooled)
      invariant Project(s.stack, Other(side)) == other
    {
      pooled := PoolTurn(s, side, depth, contract, pooled, ms0);
    }
    PooledEnd(Project(s.stack, side), ms0, contract, pooled);
  }

  /** From the bottom layer up, into a map of its own. */
  method OverlayWrites(s: TxSimContext, contract: Bytes) returns (txWrites: KeyMap)
    requires s.Valid()
    ensures txWrites == Overlay(Project(s.stack, Writes), contract)
  {
    ghost var ms := Project(s.stack, Writes);
    txWrites := map[];
    var i := 0;
    assert ms[..0] == [];
    while i <= s.currentDepth
      invariant i <= s.currentDepth + 1 && txWrites == Overlay(ms[..i], contract)
    {
      assert ms[..i + 1][..i] == ms[..i];
      FiledKeys(s.layers, s.shelf, s.stack, i);
      if contract in s.layers[i] {
        var m := MapAt(s, Writes, i, contract);
        txWrites := MergeInto(txWrites, m);
      }
      i := i + 1;
    }
    assert ms[..i] == ms;
  }

  // ---------------------------------------------------------------- the report

  /** collectReadSetAndKey and collectWriteSetAndKey */
  method Collect(s: TxSimContext, side: Side) returns (entries: KeyMap, keys: seq<Bytes>)
    requires s.Valid() && AllOwned(Project(s.stack, side))
    modifies s`stack, s`shelf, s.shelf.Keys
    ensures s.Valid() && s.shelf.Keys == old(s.shelf.Keys) && |s.stack| == |old(s.stack)|
    ensures entries == Flattened(s.env.version, Project(old(s.stack), side))
    ensures multiset(keys) == KeyBag(Project(old(s.stack), side))
    ensures Project(s.stack, Other(side)) == Project(old(s.stack), Other(side))
    ensures SameFrom(Project(s.stack, side), Project(old(s.stack), side), 0)
  {
    SameFromSelf(Project(s.stack, side), 0);
    hide SameFrom, Owned, s.Valid, Project, KeyBag;
    if s.env.version < V235 {
      if s.env.version < V2312 {
        entries, keys := CollectInPlace(s, side);
      } else {
        entries, keys := CollectDescending(s, side);
      }
    } else {
      entries, keys := CollectAscending(s, side);
    }
  }

  function KeysOwnedBy(m: KeyMap, among: set<Bytes>, contract: Bytes): set<Bytes> {
    set k | k in among && k in m && m[k].contract == contract
  }

  lemma KeysOwnedByStep(m: KeyMap, among: set<Bytes>, contract: Bytes, key: Bytes)
    requires key in m && key !in among
    ensures multiset(KeysOwnedBy(m, among + {key}, contract))
         == multiset(KeysOwnedBy(m, among, contract))
            + if m[key].contract == contract then multiset{key} else multiset{}
  {
    assert KeysOwnedBy(m, among + {key}, contract)
        == KeysOwnedBy(m, among, contract) + if m[key].contract == contract then {key} else {};
  }

  /** The keys whose entry carries the contract's name. */
  method CollectKeysOf(m: KeyMap, contract: Bytes) returns (keys: seq<Bytes>)
    ensures multiset(keys) == multiset(KeysOwnedBy(m, m.Keys, contract))
  {
    keys := [];
    var left := m.Keys;
    ghost var seen := {};
    assert KeysOwnedBy(m, {}, contract) == {};
    hide KeysOwnedBy;
    while left != {}
      invariant left <= m.Keys && seen == m.Keys - left
      invariant multiset(keys) == multiset(KeysOwnedBy(m, seen, contract))
      decreases left
    {
      var key :| key in left;
      KeysOwnedByStep(m, seen, contract, key);
      left, seen := left - {key}, seen + {key};
      if m[key].contract == contract {
        keys := keys + [key];
      }
    }
    assert seen == m.Keys;
  }

  /** What a failed transaction still writes: the account manager's entries, from 2.3.0 on. */
  ghost function FailureReport(version: nat, ms: seq<Maps>): seq<Entry> {
    var m := Overlay(ms, ACCOUNT_MANAGER);
    if version < V2300 then []
    else
      assert forall k :: k in SortedKeys(multiset(m.Keys)) ==> k in multiset(SortedKeys(multiset(m.Keys)));
      Listed(SortedKeys(multiset(m.Keys)), m)
  }

  lemma PooledContextAllLookups(before: Stack, after: Stack, contract: Bytes)
    requires forall side: Side :: Project(after, side) == Pooled(Project(before, side), contract)
    ensures forall side, c, k :: Lookup(after, side, c, k) == Lookup(before, side, c, k)
  {
    forall side, c, k ensures Lookup(after, side, c, k) == Lookup(before, side, c, k) {
      PooledContextLookups(before, after, contract, side, c, k);
    }
  }

  lemma FailureKeys(ms: seq<Maps>)
    requires AllOwned(ms)
    ensures var m := Overlay(ms, ACCOUNT_MANAGER); KeysOwnedBy(m, m.Keys, ACCOUNT_MANAGER) == m.Keys
  {
    var m := Overlay(ms, ACCOUNT_MANAGER);
    forall fk | fk in m ensures m[fk].contract == ACCOUNT_MANAGER {
      OverlayOwned(ms, ACCOUNT_MANAGER, fk);
    }
    hide Overlay, Owned;
  }

  lemma FailureReportIs(version: nat, ms: seq<Maps>)
    ensures var m := Overlay(ms, ACCOUNT_MANAGER);
      && (version < V2300 ==> FailureReport(version, ms) == [])
      && (version >= V2300 ==>
            (forall k :: k in SortedKeys(multiset(m.Keys)) ==> k in m)
            && FailureReport(version, ms) == Listed(SortedKeys(multiset(m.Keys)), m))
  {
    hide Overlay, Sorted;
    var m := Overlay(ms, ACCOUNT_MANAGER);
    assert forall k :: k in SortedKeys(multiset(m.Keys)) ==> k in multiset(SortedKeys(multiset(m.Keys)));
  }

  method ReportFailure(s: TxSimContext) returns (txWrites: seq<Entry>)
    requires s.Valid() && AllOwned(Project(s.stack, Writes))
    modifies s`stack, s`shelf, s.shelf.Keys
    ensures s.Valid() && s.shelf.Keys == old(s.shelf.Keys) && |s.stack| == |old(s.stack)|
    ensures txWrites == FailureReport(s.env.version, Project(old(s.stack), Writes))
    ensures forall side, c, k :: Lookup(s.stack, side, c, k) == Lookup(old(s.stack), side, c, k)
  {
    ghost var ms := Project(s.stack, Writes);
    FailureKeys(ms);
    FailureReportIs(s.env.version, ms);
    hide *;
    txWrites := [];
    if s.env.version >= V2300 {
      var _, writes := GetTxRWMapByContractName(s, ACCOUNT_MANAGER);
      assert forall side: Side :: Project(s.stack, side) == Pooled(Project(old(s.stack), side), ACCOUNT_MANAGER) by {
        forall side: Side ensures Project(s.stack, side) == Pooled(Project(old(s.stack), side), ACCOUNT_MANAGER) {
          assert side == Reads || side == Writes;
        }
      }
      PooledContextAllLookups(old(s.stack), s.stack, ACCOUNT_MANAGER);
      var writeKeys := CollectKeysOf(writes, ACCOUNT_MANAGER);
      txWrites := SortAndList(writeKeys, writes);
    }
  }

  lemma ReportIs(version: nat, ms: seq<Maps>)
    requires AllOwned(ms)
    ensures forall k :: k in KeyBag(ms) ==> k in Flattened(version, ms)
    ensures forall k :: k in SortedKeys(KeyBag(ms)) ==> k in Flattened(version, ms)
    ensures Report(version, ms) == Listed(SortedKeys(KeyBag(ms)), Flattened(version, ms))
  {
    ReportDefined(version, ms);
  }

  method ReportSide(s: TxSimContext, side: Side) returns (list: seq<Entry>)
    requires s.Valid() && AllOwned(Project(s.stack, side))
    modifies s`stack, s`shelf, s.shelf.Keys
    ensures s.Valid() && s.shelf.Keys == old(s.shelf.Keys) && |s.stack| == |old(s.stack)|
    ensures list == Report(s.env.version, Project(old(s.stack), side))
    ensures Project(s.stack, Other(side)) == Project(old(s.stack), Other(side))
    ensures SameFrom(Project(s.stack, side), Project(old(s.stack), side), 0)
  {
    ReportIs(s.env.version, Project(s.stack, side));
    hide *;
    var entries, keys := Collect(s, side);
    list := SortAndList(keys, entries);
  }

  /**
   * GetTxRWSet. The SQL records are appended as they were made. Whatever order the maps are ranged over,
   * the lists are the same.
   */
  method GetTxRWSet(s: TxSimContext, runVmSuccess: bool, sqlWrites: seq<Entry>, ddlWrites: seq<Entry>)
    returns (txReads: seq<Entry>, txWrites: seq<Entry>)
    requires s.Valid() && AllOwned(Project(s.stack, Reads)) && AllOwned(Project(s.stack, Writes))
    modifies s`stack, s`shelf, s.shelf.Keys
    ensures s.Valid() && s.shelf.Keys == old(s.shelf.Keys) && |s.stack| == |old(s.stack)|
    ensures txReads == Report(s.env.version, Project(old(s.stack), Reads))
    ensures txWrites == if runVmSuccess then Report(s.env.version, Project(old(s.stack), Writes)) + sqlWrites
                        else FailureReport(s.env.version, Project(old(s.stack), Writes)) + ddlWrites
    ensures forall side, c, k :: HashFree(c) ==> Lookup(s.stack, side, c, k) == Lookup(old(s.stack), side, c, k)
  {
    assert Other(Reads) == Writes && Other(Writes) == Reads;
    hide *;
    txReads := ReportSide(s, Reads);
    SideLookups(old(s.stack), s.stack, Reads);
    label Middle:
    if runVmSuccess {
      txWrites := ReportSide(s, Writes);
      SideLookups(old@Middle(s.stack), s.stack, Writes);
      txWrites := txWrites + sqlWrites;
    } else {
      txWrites := ReportFailure(s);
      txWrites := txWrites + ddlWrites;
    }
  }

  lemma SideLookups(before: Stack, after: Stack, side: Side)
    requires |before| == |after|
    requires SameFrom(Project(after, side), Project(before, side), 0)
    requires Project(after, Other(side)) == Project(before, Other(side))
    ensures forall side', c, k :: HashFree(c) ==> Lookup(after, side', c, k) == Lookup(before, side', c, k)
  {
    assert Project(after, side)[0..] == Project(after, side) && Project(before, side)[0..] == Project(before, side);
    forall side': Side, c, k | HashFree(c)
      ensures Lookup(after, side', c, k) == Lookup(before, side', c, k)
    {
      LookupIsFind(before, side', c, k);
      LookupIsFind(after, side', c, k);
      OwnerOfConstructKey(c, k);
      assert side' == side || side' == Other(side);
      hide Owner, ConstructKey, Lookup, Project, Find;
    }
  }
}
