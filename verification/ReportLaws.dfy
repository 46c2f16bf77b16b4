/** What the reported sets say about the run that produced them. */
module ReportLaws {
  import opened ByteStrings
  import opened Keys
  import opened Layers
  import opened BlockVersions
  import opened Programs
  import opened Reference
  import opened Overlays
  import opened Ownership
  import opened Reports
  import opened Sorting
  import opened TxSimContexts

  // ---------------------------------------------------------------- the lists against lookups

  predicate NewestWins(version: nat) {
    version < V2312 || version >= V235
  }

  lemma ListedHas(keys: seq<Bytes>, m: KeyMap, e: Entry)
    requires forall k :: k in keys ==> k in m
    ensures e in Listed(keys, m) <==> exists k :: k in keys && m[k] == e
  {
    if e in Listed(keys, m) {
      var i :| 0 <= i < |keys| && Listed(keys, m)[i] == e;
      assert keys[i] in keys && m[keys[i]] == e;
    }
    if k :| k in keys && m[k] == e {
      var i :| 0 <= i < |keys| && keys[i] == k;
      assert Listed(keys, m)[i] == e;
    }
  }

  lemma ReportHas(version: nat, ms: seq<Maps>, e: Entry)
    requires AllOwned(ms)
    ensures e in Report(version, ms) <==> exists fk :: fk in Flattened(version, ms) && Flattened(version, ms)[fk] == e
  {
    ReportIs(version, ms);
    ReportDefined(version, ms);
    var m := Flattened(version, ms);
    forall fk ensures fk in SortedKeys(KeyBag(ms)) <==> fk in m {
      SortedKeysHas(KeyBag(ms), fk);
    }
    hide Flattened, KeyBag, Sorted, Report;
    ListedHas(SortedKeys(KeyBag(ms)), m, e);
  }

  /** An entry is reported exactly when a lookup at the current depth finds it: nothing is lost, nothing is stale. */
  lemma ReportIsLookup(version: nat, st: Stack, side: Side, e: Entry)
    requires AllOwned(Project(st, side)) && NewestWins(version)
    ensures e in Report(version, Project(st, side)) <==> Lookup(st, side, e.contract, e.key) == Some(e.value)
  {
    var ms, fk := Project(st, side), ConstructKey(e.contract, e.key);
    ReportHas(version, ms, e);
    LookupIsFind(st, side, e.contract, e.key);
    if e in Report(version, ms) {
      var fk' :| fk' in Newest(ms) && Newest(ms)[fk'] == e;
      NewestOwned(ms, fk');
      NewestIsFind(ms, fk);
    } else if Lookup(st, side, e.contract, e.key).Some? {
      FoundOwned(ms, e.contract, fk);
      NewestIsFind(ms, fk);
      FoundEntry(ms, e.contract, e.key);
    }
  }

  lemma {:induction false} FoundOwned(ms: seq<Maps>, c: Bytes, fk: Bytes)
    requires AllOwned(ms) && Find(ms, c, fk).Some?
    ensures HashFree(c) && Owner(fk) == c
  {
    var n := |ms| - 1;
    if fk in MapOf(ms[n], c) {
      assert Owned(ms[n]) && OwnedEntry(c, fk, ms[n][c][fk]);
    } else {
      FoundOwned(ms[..n], c, fk);
    }
  }

  /** What is found for (c, k) is an entry of c and k. */
  lemma FoundEntry(ms: seq<Maps>, c: Bytes, k: Bytes)
    requires AllOwned(ms) && HashFree(c) && ConstructKey(c, k) in Newest(ms)
    ensures Newest(ms)[ConstructKey(c, k)].contract == c && Newest(ms)[ConstructKey(c, k)].key == k
  {
    var e := Newest(ms)[ConstructKey(c, k)];
    NewestOwned(ms, ConstructKey(c, k));
    ConstructKeyInjective(c, k, e.contract, e.key);
  }

  /** The map key an entry is listed under. */
  function ListKey(e: Entry): Bytes {
    ConstructKey(e.contract, e.key)
  }

  function ListKeys(list: seq<Entry>): seq<Bytes> {
    seq(|list|, i requires 0 <= i < |list| => ListKey(list[i]))
  }

  lemma FlattenedOwned(version: nat, ms: seq<Maps>, fk: Bytes)
    requires AllOwned(ms) && fk in Flattened(version, ms)
    ensures ListKey(Flattened(version, ms)[fk]) == fk
  {
    if V2312 <= version < V235 {
      OldestOwned(ms, fk);
    } else {
      NewestOwned(ms, fk);
    }
  }

  lemma {:induction false} OldestOwned(ms: seq<Maps>, fk: Bytes)
    requires AllOwned(ms) && fk in Oldest(ms)
    ensures var e := Oldest(ms)[fk]; OwnedEntry(e.contract, fk, e)
  {
    if fk in LayerMap(ms[0]) {
      var c :| c in ms[0] && fk in ms[0][c];
      assert Owned(ms[0]) && OwnedEntry(c, fk, ms[0][c][fk]);
    } else {
      OldestOwned(ms[1..], fk);
    }
  }

  /** The lists are sorted by map key; each key comes once for every layer that holds it. */
  lemma ReportSorted(version: nat, ms: seq<Maps>)
    requires AllOwned(ms)
    ensures Sorted(ListKeys(Report(version, ms))) && multiset(ListKeys(Report(version, ms))) == KeyBag(ms)
    ensures forall fk :: multiset(ListKeys(Report(version, ms)))[fk] == Holders(ms, fk)
  {
    ReportIs(version, ms);
    var keys, m := SortedKeys(KeyBag(ms)), Flattened(version, ms);
    forall i | 0 <= i < |keys| ensures ListKey(m[keys[i]]) == keys[i] {
      FlattenedOwned(version, ms, keys[i]);
    }
    forall fk ensures KeyBag(ms)[fk] == Holders(ms, fk) {
      KeyBagCounts(ms, fk);
    }
    hide *;
    ListKeysOfListed(keys, m);
  }

  lemma ListKeysOfListed(keys: seq<Bytes>, m: KeyMap)
    requires forall k :: k in keys ==> k in m
    requires forall i :: 0 <= i < |keys| ==> ListKey(m[keys[i]]) == keys[i]
    ensures ListKeys(Listed(keys, m)) == keys
  {
    hide ListKey;
  }

  /** At depth 0 all versions report the same, strictly sorted, hence without duplicates. */
  lemma ReportAtDepthZero(version: nat, version': nat, m: Maps)
    requires Owned(m)
    ensures Report(version, [m]) == Report(version', [m])
    ensures StrictlySorted(ListKeys(Report(version, [m])))
  {
    OneLayer(m);
    ReportIs(version, [m]);
    ReportIs(version', [m]);
    ReportSorted(version, [m]);
    hide Owned, LayerMap, Report, KeyBag, Newest, Oldest, ListKeys;
    SortedSetStrict(ListKeys(Report(version, [m])), LayerMap(m).Keys);
  }

  // ---------------------------------------------------------------- which entry a merge order keeps

  predicate FirstHolder(ms: seq<Maps>, fk: Bytes, d: nat) {
    && d < |ms| && fk in MapOf(ms[d], Owner(fk))
    && forall d' :: 0 <= d' < d ==> fk !in MapOf(ms[d'], Owner(fk))
  }

  predicate LastHolder(ms: seq<Maps>, fk: Bytes, d: nat) {
    && d < |ms| && fk in MapOf(ms[d], Owner(fk))
    && forall d' :: d < d' < |ms| ==> fk !in MapOf(ms[d'], Owner(fk))
  }

  /** From 2.3.1.2 to before 2.3.5 the lowest layer's entry is reported; otherwise the highest's. */
  lemma {:induction false} MergeOrders(version: nat, ms: seq<Maps>, fk: Bytes, d: nat)
    requires AllOwned(ms)
    requires if NewestWins(version) then LastHolder(ms, fk, d) else FirstHolder(ms, fk, d)
    ensures fk in Flattened(version, ms) && Flattened(version, ms)[fk] == MapOf(ms[d], Owner(fk))[fk]
    decreases |ms|
  {
    hide Owned, LayerMap, MapOf, Owner;
    if NewestWins(version) {
      LayerMapIs(ms[|ms| - 1], fk);
      if d < |ms| - 1 {
        MergeOrders(version, ms[..|ms| - 1], fk, d);
      }
    } else {
      LayerMapIs(ms[0], fk);
      if d > 0 {
        assert FirstHolder(ms[1..], fk, d - 1) by {
          assert forall d' :: 0 <= d' < d - 1 ==> ms[1..][d'] == ms[d' + 1];
        }
        MergeOrders(version, ms[1..], fk, d - 1);
      }
    }
  }

  lemma {:induction false} SomeFirstHolder(ms: seq<Maps>, fk: Bytes) returns (d: nat)
    requires AllOwned(ms) && fk in Oldest(ms)
    ensures FirstHolder(ms, fk, d)
  {
    hide Owned, LayerMap, MapOf, Owner;
    LayerMapIs(ms[0], fk);
    if fk in MapOf(ms[0], Owner(fk)) {
      d := 0;
    } else {
      var d' := SomeFirstHolder(ms[1..], fk);
      d := d' + 1;
      assert forall i :: 0 < i < d ==> ms[1..][i - 1] == ms[i];
    }
  }

  lemma {:induction false} SomeLastHolder(ms: seq<Maps>, fk: Bytes) returns (d: nat)
    requires AllOwned(ms) && fk in Newest(ms)
    ensures LastHolder(ms, fk, d)
  {
    hide Owned, LayerMap, MapOf, Owner;
    var n := |ms| - 1;
    LayerMapIs(ms[n], fk);
    if fk in MapOf(ms[n], Owner(fk)) {
      d := n;
    } else {
      d := SomeLastHolder(ms[..n], fk);
    }
  }

  /** The lowest and the highest layer that hold a map key hold the same entry under it. */
  ghost predicate SameEnds(ms: seq<Maps>) {
    forall fk: Bytes, a: nat, b: nat :: FirstHolder(ms, fk, a) && LastHolder(ms, fk, b) ==>
      MapOf(ms[a], Owner(fk))[fk] == MapOf(ms[b], Owner(fk))[fk]
  }

  lemma SameEndsSameMaps(ms: seq<Maps>)
    requires AllOwned(ms)
    ensures SameEnds(ms) <==> Oldest(ms) == Newest(ms)
  {
    forall fk ensures fk in Oldest(ms) <==> fk in Newest(ms) {
      BagHasNewest(ms, fk);
    }
    hide MapOf, Owner, AllOwned, Oldest, Newest;
    if SameEnds(ms) {
      forall fk | fk in Oldest(ms) ensures Oldest(ms)[fk] == Newest(ms)[fk] {
        var a := SomeFirstHolder(ms, fk);
        var b := SomeLastHolder(ms, fk);
        EndsReported(ms, fk, a, b);
      }
    } else {
      OtherEnds(ms);
    }
  }

  lemma OtherEnds(ms: seq<Maps>)
    requires AllOwned(ms) && !SameEnds(ms)
    ensures Oldest(ms) != Newest(ms)
  {
    var fk: Bytes, a: nat, b: nat :| FirstHolder(ms, fk, a) && LastHolder(ms, fk, b)
      && MapOf(ms[a], Owner(fk))[fk] != MapOf(ms[b], Owner(fk))[fk];
    EndsReported(ms, fk, a, b);
    hide MapOf, Owner, AllOwned, Oldest, Newest;
  }

  lemma EndsReported(ms: seq<Maps>, fk: Bytes, a: nat, b: nat)
    requires AllOwned(ms) && FirstHolder(ms, fk, a) && LastHolder(ms, fk, b)
    ensures fk in Oldest(ms) && Oldest(ms)[fk] == MapOf(ms[a], Owner(fk))[fk]
    ensures fk in Newest(ms) && Newest(ms)[fk] == MapOf(ms[b], Owner(fk))[fk]
  {
    MergeOrders(V2312, ms, fk, a);
    MergeOrders(V235, ms, fk, b);
    hide FirstHolder, LastHolder, MapOf, Owner, AllOwned, Oldest, Newest;
  }

  /** Reports of two versions list the same entries exactly when the merged maps are the same. */
  lemma SameReportsSameMaps(version: nat, version': nat, ms: seq<Maps>)
    requires AllOwned(ms)
    ensures (forall e :: e in Report(version, ms) <==> e in Report(version', ms))
       <==> Flattened(version, ms) == Flattened(version', ms)
  {
    ReportEntries(version, ms);
    ReportEntries(version', ms);
    FlattenedKeyed(version, ms);
    FlattenedKeyed(version', ms);
    hide Report, Flattened, AllOwned, HasEntry, KeyedByListKey;
    if forall e :: e in Report(version, ms) <==> e in Report(version', ms) {
      SameEntriesSameMap(Flattened(version, ms), Flattened(version', ms));
    }
  }

  ghost predicate HasEntry(m: KeyMap, e: Entry) {
    exists fk :: fk in m && m[fk] == e
  }

  ghost predicate KeyedByListKey(m: KeyMap) {
    forall fk :: fk in m ==> ListKey(m[fk]) == fk
  }

  lemma ReportEntries(version: nat, ms: seq<Maps>)
    requires AllOwned(ms)
    ensures forall e :: e in Report(version, ms) <==> HasEntry(Flattened(version, ms), e)
  {
    hide Report, Flattened, AllOwned;
    forall e ensures e in Report(version, ms) <==> HasEntry(Flattened(version, ms), e) {
      ReportHas(version, ms, e);
    }
  }

  lemma FlattenedKeyed(version: nat, ms: seq<Maps>)
    requires AllOwned(ms)
    ensures KeyedByListKey(Flattened(version, ms))
  {
    hide Flattened, AllOwned, ListKey;
    forall fk | fk in Flattened(version, ms) ensures ListKey(Flattened(version, ms)[fk]) == fk {
      FlattenedOwned(version, ms, fk);
    }
  }

  lemma SameEntriesSameMap(m: KeyMap, m': KeyMap)
    requires KeyedByListKey(m) && KeyedByListKey(m')
    requires forall e :: HasEntry(m, e) <==> HasEntry(m', e)
    ensures m == m'
  {
    SubMap(m, m');
    SubMap(m', m);
    hide KeyedByListKey, HasEntry;
  }

  lemma SubMap(m: KeyMap, m': KeyMap)
    requires KeyedByListKey(m) && KeyedByListKey(m')
    requires forall e :: HasEntry(m, e) ==> HasEntry(m', e)
    ensures forall fk :: fk in m ==> fk in m' && m'[fk] == m[fk]
  {
    hide ListKey;
    forall fk | fk in m ensures fk in m' && m'[fk] == m[fk] {
      assert HasEntry(m, m[fk]);
      var fk' :| fk' in m' && m'[fk'] == m[fk];
    }
  }

  /**
   * A report agrees with the lookups at the current depth, nothing lost and nothing stale, exactly when the
   * version merges newest over oldest or the lowest and the highest holder of each map key agree.
   */
  lemma ReportAgreesIff(version: nat, st: Stack, side: Side)
    requires AllOwned(Project(st, side))
    ensures (forall e :: e in Report(version, Project(st, side)) <==>
                         Lookup(st, side, e.contract, e.key) == Some(e.value))
       <==> NewestWins(version) || SameEnds(Project(st, side))
  {
    var ms := Project(st, side);
    forall e: Entry
      ensures e in Report(V235, ms) <==> Lookup(st, side, e.contract, e.key) == Some(e.value)
    {
      ReportIsLookup(V235, st, side, e);
    }
    SameReportsSameMaps(version, V235, ms);
    SameEndsSameMaps(ms);
    hide Report, Lookup, Project, SameEnds, AllOwned, Oldest, Newest;
  }

  /** A contract's write in a call, over its caller's of the same key. */
  function TwoDeepWrites(c: Bytes, k: Bytes, v: Bytes, v': Bytes): Stack {
    StoreTop(StoreTop([map[]], Writes, c, k, v) + [map[]], Writes, c, k, v')
  }

  /** Reported from within the call, the caller's older value is listed and the newer one is not. */
  lemma StaleReport(version: nat, c: Bytes, k: Bytes, v: Bytes, v': Bytes)
    requires V2312 <= version < V235 && HashFree(c) && v != v'
    ensures var st := TwoDeepWrites(c, k, v, v');
      && AllOwned(Project(st, Writes)) && Lookup(st, Writes, c, k) == Some(v')
      && Entry(c, k, v) in Report(version, Project(st, Writes))
      && Entry(c, k, v') !in Report(version, Project(st, Writes))
  {
    var st, fk := TwoDeepWrites(c, k, v, v'), ConstructKey(c, k);
    var ms := Project(st, Writes);
    assert st == [StoreTop([map[]], Writes, c, k, v)[0], Store(map[], Writes, c, k, v')];
    assert ms[0] == map[c := map[fk := Entry(c, k, v)]] && ms[1] == map[c := map[fk := Entry(c, k, v')]];
    OwnerOfConstructKey(c, k);
    assert AllOwned(ms);
    LookupStored(StoreTop([map[]], Writes, c, k, v) + [map[]], Writes, c, k, v', Writes, c, k);
    assert FirstHolder(ms, fk, 0);
    MergeOrders(version, ms, fk, 0);
    ReportHas(version, ms, Entry(c, k, v));
    ReportHas(version, ms, Entry(c, k, v'));
    hide Report, Lookup, AllOwned, Owner, ConstructKey, Flattened;
    if Entry(c, k, v') in Report(version, ms) {
      var fk' :| fk' in Flattened(version, ms) && Flattened(version, ms)[fk'] == Entry(c, k, v');
      FlattenedOwned(version, ms, fk');
    }
  }

  // ---------------------------------------------------------------- the order a layer's contracts are ranged over

  lemma SomeOrder(s: set<Bytes>) returns (order: seq<Bytes>)
    ensures Enumerates(order, s)
  {
    order := SortedKeys(multiset(s));
  }

  /** An order that ends with c. */
  lemma OrderEndingWith(m: Maps, c: Bytes) returns (order: seq<Bytes>)
    requires c in m
    ensures Enumerates(order, m.Keys)
    ensures forall fk :: fk in m[c] ==> fk in MergedInOrder(m, order) && MergedInOrder(m, order)[fk] == m[c][fk]
  {
    var rest := SomeOrder(m.Keys - {c});
    order := rest + [c];
    assert order[..|order| - 1] == rest;
    assert m.Keys == (m.Keys - {c}) + {c};
  }

  /**
   * The merged map is the same for every order of the layer's contracts exactly when no two contracts
   * hold different entries under one map key.
   */
  lemma OrderMatters(m: Maps)
    ensures (forall o, o' :: Enumerates(o, m.Keys) && Enumerates(o', m.Keys) ==>
              MergedInOrder(m, o) == MergedInOrder(m, o'))
       <==> NoClash(m)
  {
    if NoClash(m) {
      forall o, o' | Enumerates(o, m.Keys) && Enumerates(o', m.Keys)
        ensures MergedInOrder(m, o) == MergedInOrder(m, o')
      {
        SameMerge(m, o, o');
      }
    } else {
      var c, c', fk :| c in m && c' in m && fk in m[c] && fk in m[c'] && m[c][fk] != m[c'][fk];
      var o := OrderEndingWith(m, c);
      var o' := OrderEndingWith(m, c');
      assert MergedInOrder(m, o)[fk] != MergedInOrder(m, o')[fk];
    }
  }

  lemma SameMerge(m: Maps, o: seq<Bytes>, o': seq<Bytes>)
    requires NoClash(m) && Enumerates(o, m.Keys) && Enumerates(o', m.Keys)
    ensures MergedInOrder(m, o) == MergedInOrder(m, o')
  {
    forall c ensures (c in o <==> c in m) && (c in o' <==> c in m) {
      EnumerationHas(o, m.Keys, c);
      EnumerationHas(o', m.Keys, c);
    }
    forall fk
      ensures fk in MergedInOrder(m, o) <==> fk in MergedInOrder(m, o')
      ensures fk in MergedInOrder(m, o) ==> MergedInOrder(m, o)[fk] == MergedInOrder(m, o')[fk]
    {
      MergedHas(m, o, fk);
      MergedHas(m, o', fk);
    }
  }

  /** A name with a '#' can clash, even against an entry of another contract. */
  lemma HashInNameClashes(v: Bytes)
    ensures var a: Bytes, ab: Bytes := [97], [97, HASH, 98];       // "a" and "a#b"
      var st := StoreTop(StoreTop([map[]], Writes, a, [98, HASH, 107], v), Writes, ab, [107], v);
      !NoClash(OneSide(Top(st), Writes))
  {
    var a: Bytes, ab: Bytes := [97], [97, HASH, 98];
    var k: Bytes := [98, HASH, 107];
    var st1 := StoreTop([map[]], Writes, a, k, v);
    var st := StoreTop(st1, Writes, ab, [107], v);
    var fk := ConstructKey(a, k);
    assert fk == ConstructKey(ab, [107]);
    var m := OneSide(Top(st), Writes);
    assert m[a][fk] == Entry(a, k, v) && m[ab][fk] == Entry(ab, [107], v);
  }

  // ---------------------------------------------------------------- whole runs

  /** A report lists exactly the entries of a flat map, each once, in key order. */
  ghost predicate ListsExactly(list: seq<Entry>, m: Flat) {
    && StrictlySorted(ListKeys(list))
    && forall e :: e in list <==> Fetch(m, e.contract, e.key) == Some(e.value)
  }

  lemma ReportOfSingleLayer(version: nat, st: Stack, side: Side, m: Flat)
    requires |st| == 1 && StackFiled(true, st) && Agrees(st, side, m)
    ensures AllOwned(Project(st, side)) && ListsExactly(Report(version, Project(st, side)), m)
  {
    StackFiledOwned(st, side);
    var ms := Project(st, side);
    assert ms == [ms[0]];
    ReportAtDepthZero(version, V235, ms[0]);
    forall e ensures e in Report(version, ms) <==> Fetch(m, e.contract, e.key) == Some(e.value) {
      ReportIsLookup(V235, st, side, e);
      assert Lookup(st, side, e.contract, e.key) == Fetch(m, e.contract, e.key);
    }
  }

  /**
   * A successful transaction reports, at every block version, exactly the reference's own writes and the
   * values it read.
   */
  lemma TransactionReport(env: Env, q: Request, p: Program)
    requires Plain(env, p)
    ensures var st, ref := Programs.RunContract(env, EMPTY_CONTEXT, [], q, p).ctx.stack,
                           RunContractRef(env, EMPTY_REF, [], q, p).ref;
      && |st| == 1 && StackFiled(true, st)
      && AllOwned(Project(st, Reads)) && ListsExactly(Report(env.version, Project(st, Reads)), ref.seen)
      && AllOwned(Project(st, Writes)) && ListsExactly(Report(env.version, Project(st, Writes)), ref.own)
  {
    TransactionRefines(env, q, p);
    assert LayerFiled(true, map[]);
    RunContractFiled(true, env, EMPTY_CONTEXT, [], q, p);
    var st := Programs.RunContract(env, EMPTY_CONTEXT, [], q, p).ctx.stack;
    var ref := RunContractRef(env, EMPTY_REF, [], q, p).ref;
    assert Agrees(st, Reads, ref.seen) && Agrees(st, Writes, ref.own);
    hide *;
    ReportOfSingleLayer(env.version, st, Reads, ref.seen);
    ReportOfSingleLayer(env.version, st, Writes, ref.own);
  }

  // ---------------------------------------------------------------- run and report

  /** One contract's part of a flat map. */
  function OfContract(m: Flat, c: Bytes): Flat {
    map ck | ck in m && ck.0 == c :: m[ck]
  }

  lemma MapListed(o: KeyMap)
    requires forall k :: k in o ==> ListKey(o[k]) == k
    ensures var keys := SortedKeys(multiset(o.Keys));
      (forall k :: k in keys ==> k in o) && StrictlySorted(ListKeys(Listed(keys, o)))
  {
    var keys := SortedKeys(multiset(o.Keys));
    SortedSetStrict(keys, o.Keys);
    hide Sorted, StrictlySorted, ListKey;
    forall k ensures k in keys <==> k in o {
      SortedKeysHas(multiset(o.Keys), k);
    }
    ListKeysOfListed(keys, o);
  }

  lemma MapListedHas(o: KeyMap, e: Entry)
    ensures var keys := SortedKeys(multiset(o.Keys));
      (forall k :: k in keys ==> k in o) && (e in Listed(keys, o) <==> exists k :: k in o && o[k] == e)
  {
    var keys := SortedKeys(multiset(o.Keys));
    hide Sorted;
    forall k ensures k in keys <==> k in o {
      SortedKeysHas(multiset(o.Keys), k);
    }
    ListedHas(keys, o, e);
  }

  /** The entries of one contract over all layers, listed by sorted key, are exactly its lookups. */
  lemma ContractListed(st: Stack, side: Side, c: Bytes, m: Flat)
    requires StackFiled(true, st) && Agrees(st, side, m)
    ensures var o := Overlay(Project(st, side), c);
      && (forall k :: k in SortedKeys(multiset(o.Keys)) ==> k in o)
      && ListsExactly(Listed(SortedKeys(multiset(o.Keys)), o), OfContract(m, c))
  {
    StackFiledOwned(st, side);
    var ms := Project(st, side);
    var o := Overlay(ms, c);
    forall k | k in o ensures ListKey(o[k]) == k {
      OverlayOwned(ms, c, k);
    }
    MapListed(o);
    forall e: Entry
      ensures e in Listed(SortedKeys(multiset(o.Keys)), o)
         <==> Fetch(OfContract(m, c), e.contract, e.key) == Some(e.value)
    {
      ContractListedHas(st, side, c, m, e);
    }
    hide Overlay, StackFiled, Project, AllOwned, StrictlySorted, ListKeys, Listed, ListKey, OfContract, Fetch;
  }

  lemma FetchOfContract(m: Flat, c: Bytes, c': Bytes, k: Bytes)
    ensures Fetch(OfContract(m, c), c', k) == if c' == c then Fetch(m, c', k) else None
  {
  }

  lemma ContractListedHas(st: Stack, side: Side, c: Bytes, m: Flat, e: Entry)
    requires AllOwned(Project(st, side)) && Agrees(st, side, m)
    ensures var o := Overlay(Project(st, side), c);
      && (forall k :: k in SortedKeys(multiset(o.Keys)) ==> k in o)
      && (e in Listed(SortedKeys(multiset(o.Keys)), o) <==> Fetch(OfContract(m, c), e.contract, e.key) == Some(e.value))
  {
    assert Lookup(st, side, e.contract, e.key) == Fetch(m, e.contract, e.key);
    FetchOfContract(m, c, e.contract, e.key);
    hide *;
    MapListedHas(Overlay(Project(st, side), c), e);
    OverlayLookup(st, side, c, e);
  }

  lemma OverlayLookup(st: Stack, side: Side, c: Bytes, e: Entry)
    requires AllOwned(Project(st, side))
    ensures (exists k :: k in Overlay(Project(st, side), c) && Overlay(Project(st, side), c)[k] == e)
       <==> e.contract == c && Lookup(st, side, c, e.key) == Some(e.value)
  {
    var ms, fk := Project(st, side), ConstructKey(c, e.key);
    var o := Overlay(ms, c);
    LookupIsFind(st, side, c, e.key);
    OverlayIsFind(ms, c, fk);
    hide Overlay, Lookup, Find;
    if k :| k in o && o[k] == e {
      OverlayOwned(ms, c, k);
    }
    if e.contract == c && fk in o && o[fk].value == e.value {
      OverlayOwned(ms, c, fk);
      SameContractInjective(c, e.key, o[fk].key);
    }
  }

  /** The writes a finished transaction is to report, as a flat map. */
  function ReportedWrites(version: nat, status: Status, own: Flat): Flat {
    if status == Success then own
    else if version >= V2300 then OfContract(own, ACCOUNT_MANAGER)
    else map[]
  }

  lemma ReportedWritesListed(version: nat, status: Status, st: Stack, own: Flat)
    requires |st| == 1 && StackFiled(true, st) && Agrees(st, Writes, own)
    ensures AllOwned(Project(st, Writes))
    ensures ListsExactly(
      if status == Success then Report(version, Project(st, Writes)) else FailureReport(version, Project(st, Writes)),
      ReportedWrites(version, status, own))
  {
    ReportOfSingleLayer(version, st, Writes, own);
    ContractListed(st, Writes, ACCOUNT_MANAGER, own);
    FailureReportIs(version, Project(st, Writes));
  }

  /**
   * A whole transaction, run on a fresh context and reported: the lists are the reference interpreter's
   * reads and writes, each key once and in order, followed by the SQL records.
   */
  method RunAndReport(env: Env, q: Request, p: Program, sqlWrites: seq<Entry>, ddlWrites: seq<Entry>)
    returns (status: Status, txReads: seq<Entry>, txWrites: seq<Entry>)
    requires Plain(env, p)
    ensures status == RunContractRef(env, EMPTY_REF, [], q, p).status
    ensures ListsExactly(txReads, RunContractRef(env, EMPTY_REF, [], q, p).ref.seen)
    ensures var records := if status == Success then sqlWrites else ddlWrites;
      && |records| <= |txWrites| && txWrites[|txWrites| - |records|..] == records
      && ListsExactly(txWrites[..|txWrites| - |records|],
           ReportedWrites(env.version, status, RunContractRef(env, EMPTY_REF, [], q, p).ref.own))
  {
    TransactionReport(env, q, p);
    TransactionRefines(env, q, p);
    var s, r, trace;
    s, status, r, trace := RunTransaction(env, q, p);
    ghost var st, ref := s.stack, RunContractRef(env, EMPTY_REF, [], q, p).ref;
    assert Agrees(st, Writes, ref.own);
    ReportedWritesListed(env.version, status, st, ref.own);
    ghost var stateWrites :=
      if status == Success then Report(env.version, Project(st, Writes))
      else FailureReport(env.version, Project(st, Writes));
    hide *;
    txReads, txWrites := GetTxRWSet(s, status == Success, sqlWrites, ddlWrites);
    ghost var records := if status == Success then sqlWrites else ddlWrites;
    assert txWrites == stateWrites + records;
    assert txWrites[..|txWrites| - |records|] == stateWrites;
  }
}
