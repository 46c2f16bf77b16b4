/** One side of the layers flattened: what the collecting loops compute, and in which order they merge. */
module Overlays {
  import opened ByteStrings
  import opened Keys
  import opened Layers

  /** The maps of one side of one layer, by contract. */
  type Maps = map<Bytes, KeyMap>

  function OneSide(layer: Layer, side: Side): Maps {
    map c | c in layer :: Pick(layer[c], side)
  }

  function Project(st: Stack, side: Side): (ms: seq<Maps>)
    ensures |ms| == |st| && forall d :: 0 <= d < |st| ==> ms[d] == OneSide(st[d], side)
  {
    seq(|st|, d requires 0 <= d < |st| => OneSide(st[d], side))
  }

  function MapOf(m: Maps, c: Bytes): KeyMap {
    if c in m then m[c] else map[]
  }

  /** The entry the newest layer holding fk for contract c has. */
  function Find(ms: seq<Maps>, c: Bytes, fk: Bytes): Option<Entry> {
    if ms == [] then None
    else if fk in MapOf(ms[|ms| - 1], c) then Some(MapOf(ms[|ms| - 1], c)[fk])
    else Find(ms[..|ms| - 1], c, fk)
  }

  function ValueOf(e: Option<Entry>): Option<Bytes> {
    match e case None => None case Some(entry) => Some(entry.value)
  }

  lemma {:induction false} LookupIsFind(st: Stack, side: Side, c: Bytes, k: Bytes)
    ensures Lookup(st, side, c, k) == ValueOf(Find(Project(st, side), c, ConstructKey(c, k)))
  {
    hide ConstructKey;
    if st != [] {
      LookupIsFind(Below(st), side, c, k);
      assert Project(st, side)[..|st| - 1] == Project(Below(st), side);
    }
  }

  lemma {:induction false} FindSplit(a: seq<Maps>, b: seq<Maps>, c: Bytes, fk: Bytes)
    ensures Find(a + b, c, fk) == if Find(b, c, fk).Some? then Find(b, c, fk) else Find(a, c, fk)
  {
    if b == [] {
      assert a + b == a;
    } else {
      var n := |b| - 1;
      FindSplit(a, b[..n], c, fk);
      assert (a + b)[..|a + b| - 1] == a + b[..n];
    }
  }

  // ---------------------------------------------------------------- one contract

  /** All layers of one contract, newer entries over older ones. */
  function Overlay(ms: seq<Maps>, c: Bytes): KeyMap {
    if ms == [] then map[] else Overlay(ms[..|ms| - 1], c) + MapOf(ms[|ms| - 1], c)
  }

  /** The overlay holds for each key what a lookup finds. */
  lemma {:induction false} OverlayIsFind(ms: seq<Maps>, c: Bytes, fk: Bytes)
    ensures Find(ms, c, fk) == if fk in Overlay(ms, c) then Some(Overlay(ms, c)[fk]) else None
  {
    if ms != [] {
      OverlayIsFind(ms[..|ms| - 1], c, fk);
    }
  }

  lemma PlusAssociates(a: KeyMap, b: KeyMap, c: KeyMap)
    ensures (a + b) + c == a + (b + c)
  {
  }

  lemma {:induction false} OverlayFront(ms: seq<Maps>, c: Bytes)
    requires ms != []
    ensures Overlay(ms, c) == MapOf(ms[0], c) + Overlay(ms[1..], c)
  {
    var n := |ms| - 1;
    if n == 0 {
      assert ms[..0] == [] && ms[1..] == [];
      assert Overlay(ms, c) == MapOf(ms[0], c);
    } else {
      OverlayFront(ms[..n], c);
      assert ms[..n][1..] == ms[1..][..n - 1];
      PlusAssociates(MapOf(ms[0], c), Overlay(ms[1..][..n - 1], c), MapOf(ms[n], c));
    }
  }

  /** Every layer that has the contract holds the overlay of itself and the layers above. */
  function Pooled(ms: seq<Maps>, c: Bytes): (pooled: seq<Maps>)
    ensures |pooled| == |ms|
  {
    seq(|ms|, d requires 0 <= d < |ms| => if c in ms[d] then ms[d][c := Overlay(ms[d..], c)] else ms[d])
  }

  /** Finding a key from the d-th layer up. */
  lemma {:induction false} PooledFinds(ms: seq<Maps>, c: Bytes, c': Bytes, fk: Bytes, d: nat)
    requires d <= |ms|
    ensures Find(Pooled(ms, c)[d..], c', fk) == Find(ms[d..], c', fk)
    decreases |ms| - d
  {
    if d < |ms| {
      PooledFinds(ms, c, c', fk, d + 1);
      FindSplit([ms[d]], ms[d + 1..], c', fk);
      FindSplit([Pooled(ms, c)[d]], Pooled(ms, c)[d + 1..], c', fk);
      assert ms[d..] == [ms[d]] + ms[d + 1..];
      assert Pooled(ms, c)[d..] == [Pooled(ms, c)[d]] + Pooled(ms, c)[d + 1..];
      FindOne(ms[d], c', fk);
      FindOne(Pooled(ms, c)[d], c', fk);
      OverlayIsFind(ms[d..], c, fk);
    }
  }

  lemma FindOne(m: Maps, c: Bytes, fk: Bytes)
    ensures Find([m], c, fk) == if fk in MapOf(m, c) then Some(MapOf(m, c)[fk]) else None
  {
    assert [m][..0] == [];
  }

  /** Merging a contract's layers into each other in place changes no lookup. */
  lemma PoolingKeepsLookups(ms: seq<Maps>, c: Bytes, c': Bytes, fk: Bytes)
    ensures Find(Pooled(ms, c), c', fk) == Find(ms, c', fk)
  {
    PooledFinds(ms, c, c', fk, 0);
    assert Pooled(ms, c)[0..] == Pooled(ms, c) && ms[0..] == ms;
  }

  /** Once merged in place, the entries of the layer above are found without it: dropping it undoes nothing. */
  lemma PoolingOutlivesTop(ms: seq<Maps>, c: Bytes, fk: Bytes)
    requires |ms| >= 2 && c in ms[|ms| - 2]
    ensures Find(Pooled(ms, c)[..|ms| - 1], c, fk) == Find(ms, c, fk)
  {
    var n, pooled := |ms| - 2, Pooled(ms, c);
    var below := pooled[..n + 1];
    assert MapOf(below[n], c) == Overlay(ms[n..], c);
    assert pooled == pooled[..n] + pooled[n..] && ms == ms[..n] + ms[n..] && below == pooled[..n] + [below[n]];
    hide Pooled, Overlay, MapOf;
    OverlayIsFind(ms[n..], c, fk);
    PooledFinds(ms, c, c, fk, n);
    PoolingKeepsLookups(ms, c, c, fk);
    FindSplit(ms[..n], ms[n..], c, fk);
    FindSplit(pooled[..n], pooled[n..], c, fk);
    FindSplit(pooled[..n], [below[n]], c, fk);
    FindOne(below[n], c, fk);
    hide Find;
  }

  /** Pooling one contract leaves the maps of the others alone, in every layer. */
  lemma {:induction false} PoolingLeavesOthers(ms: seq<Maps>, c: Bytes, c': Bytes, fk: Bytes, n: nat)
    requires n <= |ms| && c' != c
    ensures Find(Pooled(ms, c)[..n], c', fk) == Find(ms[..n], c', fk)
    decreases n
  {
    if n > 0 {
      PoolingLeavesOthers(ms, c, c', fk, n - 1);
      assert Pooled(ms, c)[..n][..n - 1] == Pooled(ms, c)[..n - 1] && ms[..n][..n - 1] == ms[..n - 1];
    }
  }

  /** How far pooling has come: the layers from d up are merged, and acc is what they amount to. */
  ghost predicate PooledFrom(ms: seq<Maps>, ms0: seq<Maps>, d: nat, c: Bytes, acc: KeyMap)
    requires d <= |ms0|
  {
    ms == ms0[..d] + Pooled(ms0[d..], c) && acc == Overlay(ms0[d..], c)
  }

  lemma PooledStart(ms: seq<Maps>, c: Bytes)
    ensures PooledFrom(ms, ms, |ms|, c, map[])
  {
    assert ms[|ms|..] == [] && ms[..|ms|] == ms;
  }

  lemma PooledFront(ms: seq<Maps>, d: nat, c: Bytes)
    requires d < |ms|
    ensures Pooled(ms[d..], c)
         == [if c in ms[d] then ms[d][c := Overlay(ms[d..], c)] else ms[d]] + Pooled(ms[d + 1..], c)
  {
    hide Overlay;
    var pooled := Pooled(ms[d..], c);
    assert ms[d..][0] == ms[d] && ms[d..][0..] == ms[d..];
    forall i | 1 <= i < |pooled| ensures pooled[i] == Pooled(ms[d + 1..], c)[i - 1] {
      assert ms[d..][i..] == ms[d + 1..][i - 1..];
    }
  }

  lemma PooledTurn(ms: seq<Maps>, ms0: seq<Maps>, d: nat, c: Bytes, acc: KeyMap)
    requires d < |ms0| && PooledFrom(ms, ms0, d + 1, c, acc)
    ensures |ms| == |ms0| && ms[d] == ms0[d]
    ensures c !in ms[d] ==> PooledFrom(ms, ms0, d, c, acc)
    ensures c in ms[d] ==> PooledFrom(ms[d := ms[d][c := ms[d][c] + acc]], ms0, d, c, ms[d][c] + acc)
  {
    OverlayFront(ms0[d..], c);
    assert ms0[d..][1..] == ms0[d + 1..] && ms0[d..][0] == ms0[d];
    PooledFront(ms0, d, c);
    hide Overlay, Pooled;
    var pooled := Pooled(ms0[d..], c);
    if c in ms[d] {
      assert ms[d := ms[d][c := ms[d][c] + acc]] == ms0[..d] + pooled;
    } else {
      assert acc == map[] + acc;
      assert ms == ms0[..d] + pooled;
    }
  }

  lemma PooledEnd(ms: seq<Maps>, ms0: seq<Maps>, c: Bytes, acc: KeyMap)
    requires PooledFrom(ms, ms0, 0, c, acc)
    ensures ms == Pooled(ms0, c) && acc == Overlay(ms0, c)
  {
    assert ms0[0..] == ms0 && ms0[..0] == [];
  }

  // ---------------------------------------------------------------- all contracts

  /** Every entry is filed under the map key of its contract, whose name holds no '#'. */
  ghost predicate Owned(m: Maps) {
    forall c, fk :: c in m && fk in m[c] ==> OwnedEntry(c, fk, m[c][fk])
  }

  predicate OwnedEntry(c: Bytes, fk: Bytes, e: Entry) {
    HashFree(c) && e.contract == c && fk == ConstructKey(c, e.key) && Owner(fk) == c
  }

  ghost predicate AllOwned(ms: seq<Maps>) {
    forall d :: 0 <= d < |ms| ==> Owned(ms[d])
  }

  function KeysOf(m: Maps, cs: set<Bytes>): set<Bytes> {
    set c, fk | c in cs && c in m && fk in m[c] :: fk
  }

  /** The maps of the contracts cs in one map. */
  function Union(m: Maps, cs: set<Bytes>): KeyMap
    requires Owned(m)
  {
    map fk | fk in KeysOf(m, cs) :: m[Owner(fk)][fk]
  }

  function LayerMap(m: Maps): KeyMap
    requires Owned(m)
  {
    Union(m, m.Keys)
  }

  /** All layers of all contracts, newer entries over older ones. */
  function Newest(ms: seq<Maps>): KeyMap
    requires AllOwned(ms)
  {
    if ms == [] then map[] else Newest(ms[..|ms| - 1]) + LayerMap(ms[|ms| - 1])
  }

  /** All layers of all contracts, older entries over newer ones. */
  function Oldest(ms: seq<Maps>): KeyMap
    requires AllOwned(ms)
  {
    if ms == [] then map[] else Oldest(ms[1..]) + LayerMap(ms[0])
  }

  /** The keys the collecting loops gather: one occurrence for each layer that has the key. */
  function KeyBag(ms: seq<Maps>): multiset<Bytes> {
    if ms == [] then multiset{} else KeyBag(ms[1..]) + multiset(KeysOf(ms[0], ms[0].Keys))
  }

  /** How many layers hold the map key for its contract. */
  function Holders(ms: seq<Maps>, fk: Bytes): nat {
    if ms == [] then 0
    else Holders(ms[..|ms| - 1], fk) + if fk in MapOf(ms[|ms| - 1], Owner(fk)) then 1 else 0
  }

  lemma {:induction false} KeyBagCounts(ms: seq<Maps>, fk: Bytes)
    requires AllOwned(ms)
    ensures KeyBag(ms)[fk] == Holders(ms, fk)
  {
    hide Owned, Owner, MapOf, KeysOf;
    if ms != [] {
      var n := |ms| - 1;
      assert ms == ms[..n] + [ms[n]];
      KeyBagBack(ms[..n], ms[n]);
      KeyBagCounts(ms[..n], fk);
      LayerMapIs(ms[n], fk);
      assert fk in KeysOf(ms[n], ms[n].Keys) <==> fk in LayerMap(ms[n]);
    }
  }

  lemma UnionStep(m: Maps, cs: set<Bytes>, c: Bytes)
    requires Owned(m) && c in m && c !in cs
    ensures Union(m, cs + {c}) == Union(m, cs) + m[c] == m[c] + Union(m, cs)
    ensures Union(m, cs).Keys !! m[c].Keys
    ensures multiset(KeysOf(m, cs + {c})) == multiset(KeysOf(m, cs)) + multiset(m[c].Keys)
  {
    hide HashFree, ConstructKey, Owner;
    assert KeysOf(m, cs + {c}) == KeysOf(m, cs) + m[c].Keys;
    forall c', fk | c' in cs && c' in m && fk in m[c'] ensures fk !in m[c] {
      assert OwnedEntry(c', fk, m[c'][fk]);
    }
  }

  // ---------------------------------------------------------------- the order a layer's contracts are ranged over

  predicate Enumerates(order: seq<Bytes>, s: set<Bytes>) {
    multiset(order) == multiset(s)
  }

  /** Merging a layer's maps in a given order of its contracts. */
  function MergedInOrder(m: Maps, order: seq<Bytes>): KeyMap {
    if order == [] then map[] else MergedInOrder(m, order[..|order| - 1]) + MapOf(m, order[|order| - 1])
  }

  /** No two contracts hold different entries under one map key. */
  ghost predicate NoClash(m: Maps) {
    forall c, c', fk :: c in m && c' in m && fk in m[c] && fk in m[c'] ==> m[c][fk] == m[c'][fk]
  }

  lemma {:induction false} MergedHas(m: Maps, order: seq<Bytes>, fk: Bytes)
    requires NoClash(m) && forall c :: c in order ==> c in m
    ensures fk in MergedInOrder(m, order) <==> exists c :: c in order && fk in m[c]
    ensures forall c :: c in order && fk in m[c] ==>
      fk in MergedInOrder(m, order) && MergedInOrder(m, order)[fk] == m[c][fk]
  {
    if order != [] {
      var n := |order| - 1;
      assert order == order[..n] + [order[n]];
      MergedHas(m, order[..n], fk);
    }
  }

  lemma EnumerationHas(order: seq<Bytes>, s: set<Bytes>, c: Bytes)
    requires Enumerates(order, s)
    ensures c in order <==> c in s
  {
    assert c in order <==> c in multiset(order);
  }

  /** Entries of plain names cannot clash. */
  lemma HashFreeNamesDoNotClash(m: Maps)
    requires Owned(m)
    ensures NoClash(m)
  {
    forall c, c', fk | c in m && c' in m && fk in m[c] && fk in m[c'] ensures m[c][fk] == m[c'][fk] {
      assert OwnedEntry(c, fk, m[c][fk]) && OwnedEntry(c', fk, m[c'][fk]);
    }
  }

  /** Then every order gives the one map of the layer. */
  lemma MergedIsLayerMap(m: Maps, order: seq<Bytes>)
    requires Owned(m) && Enumerates(order, m.Keys)
    ensures MergedInOrder(m, order) == LayerMap(m)
  {
    HashFreeNamesDoNotClash(m);
    forall c ensures c in order <==> c in m {
      EnumerationHas(order, m.Keys, c);
    }
    hide Owned, NoClash, Enumerates;
    forall fk
      ensures fk in MergedInOrder(m, order) <==> fk in LayerMap(m)
      ensures fk in LayerMap(m) ==> MergedInOrder(m, order)[fk] == LayerMap(m)[fk]
    {
      MergedHas(m, order, fk);
      LayerMapIs(m, fk);
      hide MergedInOrder, LayerMap, Owner;
    }
  }

  /** A loop over a layer's contracts has merged those in `order` over base, `left` are still to come. */
  ghost predicate MergedSoFar(m: Maps, left: set<Bytes>, order: seq<Bytes>, base: KeyMap, entries: KeyMap) {
    && left <= m.Keys && multiset(order) == multiset(m.Keys - left)
    && entries == base + MergedInOrder(m, order)
  }

  lemma MergeStart(m: Maps, base: KeyMap)
    ensures MergedSoFar(m, m.Keys, [], base, base)
  {
    assert m.Keys - m.Keys == {};
  }

  lemma MergeTurn(m: Maps, left: set<Bytes>, order: seq<Bytes>, base: KeyMap, entries: KeyMap, c: Bytes)
    requires MergedSoFar(m, left, order, base, entries) && c in left
    ensures c in m && MergedSoFar(m, left - {c}, order + [c], base, entries + m[c])
  {
    assert (order + [c])[..|order|] == order;
    PlusAssociates(base, MergedInOrder(m, order), m[c]);
    assert m.Keys - (left - {c}) == (m.Keys - left) + {c};
    assert multiset(order + [c]) == multiset(order) + multiset{c};
  }

  lemma MergeEnd(m: Maps, order: seq<Bytes>, base: KeyMap, entries: KeyMap)
    requires MergedSoFar(m, {}, order, base, entries)
    ensures Enumerates(order, m.Keys) && entries == base + MergedInOrder(m, order)
    ensures Owned(m) ==> entries == base + LayerMap(m)
  {
    assert m.Keys - {} == m.Keys;
    if Owned(m) {
      MergedIsLayerMap(m, order);
    }
    hide MergedInOrder, LayerMap;
  }

  /** The keys a collecting loop over a layer has gathered when the contracts `left` are still to come. */
  ghost predicate KeysSoFar(m: Maps, left: set<Bytes>, bag0: multiset<Bytes>, bag: multiset<Bytes>) {
    left <= m.Keys && (Owned(m) ==> bag == bag0 + multiset(KeysOf(m, m.Keys - left)))
  }

  lemma KeysStart(m: Maps, bag0: multiset<Bytes>)
    ensures KeysSoFar(m, m.Keys, bag0, bag0)
  {
    assert m.Keys - m.Keys == {};
    assert KeysOf(m, {}) == {};
  }

  lemma KeysTurn(m: Maps, left: set<Bytes>, c: Bytes, bag0: multiset<Bytes>, bag: multiset<Bytes>)
    requires KeysSoFar(m, left, bag0, bag) && c in left
    ensures c in m && KeysSoFar(m, left - {c}, bag0, bag + multiset(m[c].Keys))
  {
    if Owned(m) {
      assert m.Keys - (left - {c}) == (m.Keys - left) + {c};
      UnionStep(m, m.Keys - left, c);
    }
    hide Union, KeysOf, Owned;
  }

  lemma KeysEnd(m: Maps, bag0: multiset<Bytes>, bag: multiset<Bytes>)
    requires KeysSoFar(m, {}, bag0, bag)
    ensures Owned(m) ==> bag == bag0 + multiset(KeysOf(m, m.Keys))
  {
    assert m.Keys - {} == m.Keys;
  }

  /** What a collecting loop over a layer has gathered where earlier entries win over the layer's. */
  ghost predicate GatheredUnder(m: Maps, left: set<Bytes>, base: KeyMap, bag0: multiset<Bytes>, entries: KeyMap,
                                bag: multiset<Bytes>)
    requires Owned(m)
  {
    && left <= m.Keys
    && entries == Union(m, m.Keys - left) + base
    && bag == bag0 + multiset(KeysOf(m, m.Keys - left))
  }

  lemma GatherStart(m: Maps, base: KeyMap, bag0: multiset<Bytes>)
    requires Owned(m)
    ensures GatheredUnder(m, m.Keys, base, bag0, base, bag0)
  {
    assert m.Keys - m.Keys == {};
    assert KeysOf(m, {}) == {} && Union(m, {}) == map[];
  }

  lemma GatherTurnUnder(m: Maps, left: set<Bytes>, c: Bytes, base: KeyMap, bag0: multiset<Bytes>,
                        entries: KeyMap, bag: multiset<Bytes>)
    requires Owned(m) && GatheredUnder(m, left, base, bag0, entries, bag) && c in left
    ensures c in m && GatheredUnder(m, left - {c}, base, bag0, m[c] + entries, bag + multiset(m[c].Keys))
    ensures forall fk :: fk in entries && Owner(fk) == c ==> fk in base
  {
    var before := m.Keys - left;
    assert m.Keys - (left - {c}) == before + {c};
    UnionStep(m, before, c);
    PlusAssociates(m[c], Union(m, before), base);
    hide KeysOf, Owner, HashFree, ConstructKey;
    forall fk | fk in Union(m, before) ensures Owner(fk) != c {
      var c' :| c' in before && c' in m && fk in m[c'];
      assert OwnedEntry(c', fk, m[c'][fk]);
    }
  }

  lemma GatherEnd(m: Maps, base: KeyMap, bag0: multiset<Bytes>, entries: KeyMap, bag: multiset<Bytes>)
    requires Owned(m)
    ensures GatheredUnder(m, {}, base, bag0, entries, bag) ==>
      entries == LayerMap(m) + base && bag == bag0 + multiset(KeysOf(m, m.Keys))
  {
    assert m.Keys - {} == m.Keys;
  }

  lemma {:induction false} NewestFront(ms: seq<Maps>)
    requires AllOwned(ms) && ms != []
    ensures Newest(ms) == LayerMap(ms[0]) + Newest(ms[1..])
  {
    hide Owned, LayerMap;
    var n := |ms| - 1;
    if n == 0 {
      assert ms[..0] == [] && ms[1..] == [];
      assert Newest(ms) == LayerMap(ms[0]);
    } else {
      NewestFront(ms[..n]);
      assert ms[..n][1..] == ms[1..][..n - 1];
      assert ms[1..][n - 1] == ms[n];
      PlusAssociates(LayerMap(ms[0]), Newest(ms[1..][..n - 1]), LayerMap(ms[n]));
    }
  }

  lemma NewestSuffix(ms: seq<Maps>, d: nat)
    requires AllOwned(ms) && d < |ms|
    ensures Newest(ms[d..]) == LayerMap(ms[d]) + Newest(ms[d + 1..])
    ensures KeyBag(ms[d..]) == KeyBag(ms[d + 1..]) + multiset(KeysOf(ms[d], ms[d].Keys))
  {
    hide Owned, LayerMap, KeysOf;
    NewestFront(ms[d..]);
    assert ms[d..][1..] == ms[d + 1..] && ms[d..][0] == ms[d];
  }

  lemma {:induction false} KeyBagBack(ms: seq<Maps>, m: Maps)
    ensures KeyBag(ms + [m]) == KeyBag(ms) + multiset(KeysOf(m, m.Keys))
  {
    hide KeysOf;
    if ms == [] {
      assert (ms + [m])[1..] == [];
    } else {
      KeyBagBack(ms[1..], m);
      assert (ms + [m])[1..] == ms[1..] + [m];
    }
  }

  lemma NewestPrefix(ms: seq<Maps>, d: nat)
    requires AllOwned(ms) && d < |ms|
    ensures AllOwned(ms[..d]) && AllOwned(ms[..d + 1]) && Owned(ms[d])
    ensures Newest(ms[..d + 1]) == Newest(ms[..d]) + LayerMap(ms[d])
    ensures KeyBag(ms[..d + 1]) == KeyBag(ms[..d]) + multiset(KeysOf(ms[d], ms[d].Keys))
  {
    hide Owned, LayerMap, KeysOf;
    assert ms[..d + 1] == ms[..d] + [ms[d]] && ms[..d + 1][..d] == ms[..d];
    KeyBagBack(ms[..d], ms[d]);
  }

  lemma NothingGathered()
    ensures Newest([]) == map[] && KeyBag([]) == multiset{}
  {
  }

  /** The flattened map holds for each key what a lookup in the key's own contract finds. */
  lemma {:induction false} NewestIsFind(ms: seq<Maps>, fk: Bytes)
    requires AllOwned(ms)
    ensures Find(ms, Owner(fk), fk) == if fk in Newest(ms) then Some(Newest(ms)[fk]) else None
  {
    hide Owned, LayerMap, MapOf, Owner;
    if ms != [] {
      NewestIsFind(ms[..|ms| - 1], fk);
      LayerMapIs(ms[|ms| - 1], fk);
    }
  }

  lemma LayerMapIs(m: Maps, fk: Bytes)
    requires Owned(m)
    ensures fk in LayerMap(m) <==> fk in MapOf(m, Owner(fk))
    ensures fk in LayerMap(m) ==> LayerMap(m)[fk] == MapOf(m, Owner(fk))[fk]
  {
    hide ConstructKey, Owner, HashFree;
    if fk in LayerMap(m) {
      var c :| c in m && fk in m[c];
      assert OwnedEntry(c, fk, m[c][fk]);
    }
  }

  lemma {:induction false} NewestOwned(ms: seq<Maps>, fk: Bytes)
    requires AllOwned(ms) && fk in Newest(ms)
    ensures var e := Newest(ms)[fk]; OwnedEntry(e.contract, fk, e)
  {
    var n := |ms| - 1;
    if fk in LayerMap(ms[n]) {
      var c :| c in ms[n] && fk in ms[n][c];
      assert Owned(ms[n]) && OwnedEntry(c, fk, ms[n][c][fk]);
    } else {
      NewestOwned(ms[..n], fk);
    }
  }

  lemma {:induction false} OverlayOwned(ms: seq<Maps>, c: Bytes, fk: Bytes)
    requires AllOwned(ms) && fk in Overlay(ms, c)
    ensures OwnedEntry(c, fk, Overlay(ms, c)[fk])
  {
    var n := |ms| - 1;
    if fk in MapOf(ms[n], c) {
      assert Owned(ms[n]);
    } else {
      OverlayOwned(ms[..n], c, fk);
    }
  }

  lemma {:induction false} BagHasNewest(ms: seq<Maps>, fk: Bytes)
    requires AllOwned(ms)
    ensures fk in KeyBag(ms) <==> fk in Newest(ms)
    ensures fk in KeyBag(ms) <==> fk in Oldest(ms)
  {
    hide Owned, KeysOf;
    if ms != [] {
      NewestFront(ms);
      BagHasNewest(ms[1..], fk);
    }
  }

  /** With a single layer the three merge orders give the same map, and no key is gathered twice. */
  lemma OneLayer(m: Maps)
    requires Owned(m)
    ensures Newest([m]) == Oldest([m]) == LayerMap(m)
    ensures KeyBag([m]) == multiset(LayerMap(m).Keys)
  {
    hide Owned;
    assert [m][..0] == [] && [m][1..] == [];
    assert Newest([m]) == LayerMap(m);
    assert Oldest([m]) == LayerMap(m);
  }

  // ---------------------------------------------------------------- merging in place

  /** The maps after one contract's map took up `extra`. */
  function Absorbed(ms: seq<Maps>, d: nat, c: Bytes, extra: KeyMap): seq<Maps>
    requires d < |ms| && c in ms[d]
  {
    ms[d := ms[d][c := ms[d][c] + extra]]
  }

  /** From the d-th layer up, every key is found in its own contract as it was. */
  ghost predicate SameFrom(ms: seq<Maps>, ms0: seq<Maps>, d: nat)
    requires |ms| == |ms0| && d <= |ms|
  {
    forall fk :: Find(ms[d..], Owner(fk), fk) == Find(ms0[d..], Owner(fk), fk)
  }

  lemma SameFromSelf(ms: seq<Maps>, d: nat)
    requires d <= |ms|
    ensures SameFrom(ms, ms, d)
  {
  }

  /** Taking up entries found above, or owned by other contracts, changes no such lookup. */
  lemma AbsorbKeepsLookups(ms: seq<Maps>, ms0: seq<Maps>, d: nat, c: Bytes, extra: KeyMap)
    requires |ms| == |ms0| && d < |ms| && c in ms[d] && SameFrom(ms, ms0, d)
    requires forall fk :: fk in extra && Owner(fk) == c ==> Find(ms[d + 1..], c, fk).Some?
    ensures SameFrom(Absorbed(ms, d, c, extra), ms0, d)
  {
    hide Owner;
    var ms' := Absorbed(ms, d, c, extra);
    assert ms'[d + 1..] == ms[d + 1..];
    forall fk ensures Find(ms'[d..], Owner(fk), fk) == Find(ms[d..], Owner(fk), fk) {
      FindFront(ms, d, Owner(fk), fk);
      FindFront(ms', d, Owner(fk), fk);
      hide Find;
    }
  }

  lemma FindFront(ms: seq<Maps>, d: nat, c: Bytes, fk: Bytes)
    requires d < |ms|
    ensures Find(ms[d..], c, fk)
         == if Find(ms[d + 1..], c, fk).Some? then Find(ms[d + 1..], c, fk)
            else if fk in MapOf(ms[d], c) then Some(MapOf(ms[d], c)[fk])
            else None
  {
    assert ms[d..] == [ms[d]] + ms[d + 1..];
    FindSplit([ms[d]], ms[d + 1..], c, fk);
    FindOne(ms[d], c, fk);
    hide Find;
  }

  /** How far merging in place has come in layer d: the layers below and the contracts `left` are untouched. */
  ghost predicate Untouched(ms: seq<Maps>, ms0: seq<Maps>, d: nat, left: set<Bytes>)
  {
    && |ms| == |ms0| && d < |ms|
    && ms[..d] == ms0[..d]
    && ms[d].Keys == ms0[d].Keys
    && (forall c :: c in left ==> c in ms[d] && ms[d][c] == ms0[d][c])
  }

  lemma AbsorbTurn(ms: seq<Maps>, ms0: seq<Maps>, d: nat, left: set<Bytes>, c: Bytes, base: KeyMap, entries: KeyMap)
    requires AllOwned(ms0) && Untouched(ms, ms0, d, left) && c in left
    requires SameFrom(ms, ms0, d) && SameFrom(ms, ms0, d + 1)
    requires base == Newest(ms0[d + 1..])
    requires forall fk :: fk in entries && Owner(fk) == c ==> fk in base
    ensures c in ms[d] && ms[d][c] == ms0[d][c]
    ensures var ms' := Absorbed(ms, d, c, entries);
      Untouched(ms', ms0, d, left - {c}) && SameFrom(ms', ms0, d) && SameFrom(ms', ms0, d + 1)
  {
    hide Owned, Newest, Owner;
    forall fk | fk in entries && Owner(fk) == c ensures Find(ms[d + 1..], c, fk).Some? {
      NewestIsFind(ms0[d + 1..], fk);
      assert Find(ms[d + 1..], Owner(fk), fk) == Find(ms0[d + 1..], Owner(fk), fk);
    }
    AbsorbKeepsLookups(ms, ms0, d, c, entries);
    assert Absorbed(ms, d, c, entries)[d + 1..] == ms[d + 1..];
    assert Absorbed(ms, d, c, entries)[..d] == ms[..d];
  }

  /** Going down one layer. */
  lemma AbsorbDown(ms: seq<Maps>, ms0: seq<Maps>, d: nat)
    requires |ms| == |ms0| && d < |ms| && ms[..d + 1] == ms0[..d + 1] && SameFrom(ms, ms0, d + 1)
    ensures Untouched(ms, ms0, d, ms0[d].Keys) && SameFrom(ms, ms0, d)
  {
    assert ms[d] == ms[..d + 1][d] && ms0[d] == ms0[..d + 1][d];
    assert ms[..d] == ms[..d + 1][..d] && ms0[..d] == ms0[..d + 1][..d];
    forall fk ensures Find(ms[d..], Owner(fk), fk) == Find(ms0[d..], Owner(fk), fk) {
      FindFront(ms, d, Owner(fk), fk);
      FindFront(ms0, d, Owner(fk), fk);
      hide Find, Owner;
    }
  }

  /** How far the descending loop has come: the layers from d up are gathered, each key in them is found as before. */
  ghost predicate GatheredFrom(ms: seq<Maps>, ms0: seq<Maps>, d: nat, entries: KeyMap, bag: multiset<Bytes>)
    requires d <= |ms0| && AllOwned(ms0)
  {
    && |ms| == |ms0| && ms[..d] == ms0[..d] && SameFrom(ms, ms0, d)
    && entries == Newest(ms0[d..]) && bag == KeyBag(ms0[d..])
  }

  lemma GatherFromStart(ms: seq<Maps>)
    requires AllOwned(ms)
    ensures GatheredFrom(ms, ms, |ms|, map[], multiset{})
  {
    assert ms[|ms|..] == [];
  }

  lemma GatherFromEnd(ms: seq<Maps>, ms0: seq<Maps>, entries: KeyMap, bag: multiset<Bytes>)
    requires AllOwned(ms0) && GatheredFrom(ms, ms0, 0, entries, bag)
    ensures entries == Newest(ms0) && bag == KeyBag(ms0) && SameFrom(ms, ms0, 0)
  {
    assert ms0[0..] == ms0;
  }
}
