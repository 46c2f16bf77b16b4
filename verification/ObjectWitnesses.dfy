/** On the object: what a failed callee leaves behind when it looked at its contract's data first. */
module ObjectWitnesses {
  import opened ByteStrings
  import opened Keys
  import opened Layers
  import opened BlockVersions
  import opened Programs
  import opened TxSimContexts
  import opened Overlays
  import opened Ownership
  import opened Reports
  import opened Iterators
  import opened Scans

  const CALLER: Bytes := [1]
  const KEY: Bytes := [2]
  const KEY2: Bytes := [4]
  const VALUE: Bytes := [3]

  /** What a callee does between its write and its failing return. */
  datatype Peek = Nothing | AskWrites | Scan(table: seq<seq<Entry>>, dbRows: Option<Rows>)

  predicate MergesInPlace(version: nat, peek: Peek) {
    peek.AskWrites? || (peek.Scan? && version < V235)
  }

  function TwoWrites(): Stack {
    StoreTop(StoreTop([map[]], Writes, CALLER, KEY, VALUE) + [map[]], Writes, CALLER, KEY, KEY2)
  }

  lemma TwoWritesLookups()
    ensures |TwoWrites()| == 2 && StackFiled(false, TwoWrites()) && CALLER in Top(Below(TwoWrites()))
    ensures Lookup(TwoWrites(), Writes, CALLER, KEY) == Some(KEY2)
    ensures Lookup(Below(TwoWrites()), Writes, CALLER, KEY) == Some(VALUE)
  {
    var st0: Stack := [map[]];
    var st := StoreTop(st0, Writes, CALLER, KEY, VALUE);
    LookupStored(st0, Writes, CALLER, KEY, VALUE, Writes, CALLER, KEY);
    LookupStored(st + [map[]], Writes, CALLER, KEY, KEY2, Writes, CALLER, KEY);
    assert Below(TwoWrites()) == Below(st + [map[]]) == st;
    assert LayerFiled(false, map[]);
    StoreFiled(false, st0, Writes, CALLER, KEY, VALUE);
    assert StackFiled(false, st + [map[]]);
    StoreFiled(false, st + [map[]], Writes, CALLER, KEY, KEY2);
    hide Lookup, StackFiled;
  }

  /**
   * Caller and callee write the same key and the callee fails. The caller's write is back, unless the callee asked
   * for the contract's reads and writes or, before 2.3.5, scanned the contract: then its own write stays.
   */
  method PeekAndFail(env: Env, vmManager: VmManager, peek: Peek, ghost store: map<Bytes, Bytes>)
    returns (value: Option<Bytes>)
    requires env.version >= V2300
    requires peek.Scan? && peek.dbRows.Some? ==> peek.dbRows.value == StoreRows(store, CALLER, KEY, KEY2)
    ensures value == Some(if MergesInPlace(env.version, peek) then KEY2 else VALUE)
  {
    TwoWritesLookups();
    var s := InnerWrite(env, vmManager);
    ghost var st := s.stack;
    FailedPeek(env.version, peek, st);
    hide *;
    Look(s, peek, store);
    value := FailAndFind(s);
  }

  /** What the callee looks at. */
  method Look(s: TxSimContext, peek: Peek, ghost store: map<Bytes, Bytes>)
    requires s.Valid() && StackFiled(false, s.stack) && s.currentDepth == 1
    requires peek.Scan? && peek.dbRows.Some? ==> peek.dbRows.value == StoreRows(store, CALLER, KEY, KEY2)
    modifies s`stack, s`shelf, s.shelf.Keys
    ensures s.Valid() && s.shelf.Keys == old(s.shelf.Keys) && |s.stack| == |old(s.stack)|
    ensures if MergesInPlace(s.env.version, peek)
      then Project(s.stack, Writes) == Pooled(Project(old(s.stack), Writes), CALLER)
      else s.stack == old(s.stack)
  {
    assert MergesInPlace(s.env.version, peek) <==> peek.AskWrites? || (peek.Scan? && s.env.version < V235);
    hide *;
    match peek {
      case Nothing =>
      case AskWrites => var _, _ := GetTxRWMapByContractName(s, CALLER);
      case Scan(table, dbRows) => var _ := Select(s, CALLER, CALLER, KEY, KEY2, table, store, dbRows);
    }
  }

  /** The callee fails and the caller looks for its write. */
  method FailAndFind(s: TxSimContext) returns (value: Option<Bytes>)
    requires s.Valid() && s.currentDepth == 1
    modifies s`currentDepth, s`layers, s`stack, s`shelf, s.shelf.Keys
    ensures |old(s.stack)| == 2
    ensures value == Lookup(Leave(s.env.version, 1, old(s.stack)), Writes, CALLER, KEY)
  {
    assert |s.stack| == 2;
    hide Filed, Leave, s.Valid;
    s.LeaveCall(1);
    value := s.GetFromSet(Writes, CALLER, KEY);
  }

  method InnerWrite(env: Env, vmManager: VmManager) returns (s: TxSimContext)
    ensures fresh(s) && fresh(s.shelf.Keys) && s.Valid() && s.env == env && s.currentDepth == 1
    ensures s.stack == TwoWrites()
  {
    s := new TxSimContext(env, vmManager);
    s.PutIntoSet(Writes, CALLER, KEY, VALUE);
    s.RaiseDepth();
    s.PutIntoSet(Writes, CALLER, KEY, KEY2);
  }

  /** The stacks the callee may leave behind, and what the caller then finds. */
  lemma FailedPeek(version: nat, peek: Peek, before: Stack)
    requires version >= V2300 && before == TwoWrites()
    ensures |before| == 2
    ensures Lookup(Leave(version, 1, before), Writes, CALLER, KEY) == Some(VALUE)
    ensures forall after: Stack :: |after| == 2 && Project(after, Writes) == Pooled(Project(before, Writes), CALLER) ==>
      Lookup(Leave(version, 1, after), Writes, CALLER, KEY) == Some(KEY2)
  {
    TwoWritesLookups();
    RollbackLookup(before, Writes, CALLER, KEY);
    forall after: Stack | |after| == 2 && Project(after, Writes) == Pooled(Project(before, Writes), CALLER)
      ensures Lookup(Rollback(after), Writes, CALLER, KEY) == Some(KEY2)
    {
      PooledBelow(before, after, CALLER, CALLER, KEY);
      QueryDefeatsRollback(before, after, CALLER, KEY);
    }
    hide Lookup, Rollback, Project, Pooled, TwoWrites;
  }

  function TouchThenWrite(): Stack {
    StoreTop(StoreTop([map[]], Writes, CALLER, KEY2, VALUE) + [map[]], Writes, CALLER, KEY, VALUE)
  }

  lemma TouchLookups()
    ensures var st := StoreTop([map[]], Writes, CALLER, KEY2, VALUE) + [map[]];
      && StackFiled(false, st) && |st| == 2 && CALLER in Top(Below(st))
      && Lookup(Below(st), Writes, CALLER, KEY) == None && Lookup(st, Reads, CALLER, KEY) == None
  {
    var st0: Stack := [map[]];
    var st1 := StoreTop(st0, Writes, CALLER, KEY2, VALUE);
    assert st0 == [] + [map[]];
    LookupEmptyTop([], Writes, CALLER, KEY);
    LookupEmptyTop([], Reads, CALLER, KEY);
    assert KEY[0] != KEY2[0];
    LookupStored(st0, Writes, CALLER, KEY2, VALUE, Writes, CALLER, KEY);
    LookupStored(st0, Writes, CALLER, KEY2, VALUE, Reads, CALLER, KEY);
    LookupEmptyTop(st1, Reads, CALLER, KEY);
    assert Below(st1 + [map[]]) == st1;
    assert LayerFiled(false, map[]);
    StoreFiled(false, st0, Writes, CALLER, KEY2, VALUE);
    assert StackFiled(false, st1 + [map[]]);
    hide Lookup, StackFiled;
  }

  lemma TouchThenWriteLookups()
    ensures |TouchThenWrite()| == 2 && StackFiled(false, TouchThenWrite()) && CALLER in Top(Below(TouchThenWrite()))
    ensures Lookup(TouchThenWrite(), Writes, CALLER, KEY) == Some(VALUE)
    ensures Lookup(Below(TouchThenWrite()), Writes, CALLER, KEY) == None
    ensures Lookup(TouchThenWrite(), Reads, CALLER, KEY) == None
  {
    TouchLookups();
    var st := StoreTop([map[]], Writes, CALLER, KEY2, VALUE) + [map[]];
    LookupStored(st, Writes, CALLER, KEY, VALUE, Writes, CALLER, KEY);
    LookupStored(st, Writes, CALLER, KEY, VALUE, Reads, CALLER, KEY);
    StoreFiled(false, st, Writes, CALLER, KEY, VALUE);
    hide Lookup, StackFiled, StoreTop;
  }

  /** The failed callee's write is gone, and what the caller reads next depends on whether the callee scanned it. */
  lemma ScannedOrNot(env: Env, scan: bool, rows: Rows, writes: seq<Entry>, store: map<Bytes, Bytes>, st': Stack,
                     u: Bytes)
    requires env.snapshot(0, CALLER, KEY) == Some(u) && u != VALUE
    requires IsScan(rows, Overlay(Project(TouchThenWrite(), Writes), CALLER), writes, store, CALLER, KEY, KEY2)
    requires st' == if scan then ScanStored(env.version, TouchThenWrite(), CALLER, rows) else TouchThenWrite()
    ensures |st'| == 2
    ensures GetStep(env, Context(Rollback(st'), [], []), CALLER, KEY).1 == Value(if scan then VALUE else u)
  {
    var st := TouchThenWrite();
    TouchThenWriteLookups();
    RollbackLookup(st, Writes, CALLER, KEY);
    RollbackLookup(st, Reads, CALLER, KEY);
    HashFreeEnters(env.version, st, KEY);
    assert InRange(KEY, KEY, KEY2);
    hide Lookup, Rollback, ScanStored, TouchThenWrite, IsScan, StoreTop, InRange, EntersReadSet, Project;
    FailedScanLeaks(env, Context(st, [], []), CALLER, rows, writes, store, CALLER, KEY, KEY2, KEY, VALUE);
  }

  /**
   * From 2.3.5 on, on the object: the callee writes a key and fails. Its caller then reads what the snapshot has,
   * unless the callee scanned the key: then it reads the value that was rolled back.
   */
  method ScanAndFail(env: Env, vmManager: VmManager, scan: bool, table: seq<seq<Entry>>,
                     ghost store: map<Bytes, Bytes>, dbRows: Rows, ghost u: Bytes)
    returns (o: Observation)
    requires env.version >= V235 && env.snapshot(0, CALLER, KEY) == Some(u) && u != VALUE
    requires dbRows == StoreRows(store, CALLER, KEY, KEY2)
    ensures o == Value(if scan then VALUE else u)
  {
    hide *;
    var s := TouchAndWrite(env, vmManager);
    o := ScanFailGet(s, scan, table, store, dbRows, u);
  }

  method ScanFailGet(s: TxSimContext, scan: bool, table: seq<seq<Entry>>, ghost store: map<Bytes, Bytes>, dbRows: Rows,
                     ghost u: Bytes)
    returns (o: Observation)
    requires s.Valid() && s.currentDepth == 1 && s.stack == TouchThenWrite() && s.queries == [] && s.types == []
    requires s.env.version >= V235 && s.env.snapshot(0, CALLER, KEY) == Some(u) && u != VALUE
    requires dbRows == StoreRows(store, CALLER, KEY, KEY2)
    modifies s, s.shelf.Keys
    ensures o == Value(if scan then VALUE else u)
  {
    hide *;
    ScanIf(s, scan, table, store, dbRows, u);
    o := FailAndGet(s);
  }

  /** The callee's scan, if it makes one. */
  method ScanIf(s: TxSimContext, scan: bool, table: seq<seq<Entry>>, ghost store: map<Bytes, Bytes>, dbRows: Rows,
                ghost u: Bytes)
    requires s.Valid() && s.stack == TouchThenWrite()
    requires s.env.version >= V235 && s.env.snapshot(0, CALLER, KEY) == Some(u) && u != VALUE
    requires dbRows == StoreRows(store, CALLER, KEY, KEY2)
    modifies s`layers, s`stack, s`shelf, s.shelf.Keys
    ensures s.Valid() && fresh(s.shelf.Keys - old(s.shelf.Keys)) && |s.stack| == 2
    ensures GetStep(s.env, Context(Rollback(s.stack), [], []), CALLER, KEY).1 == Value(if scan then VALUE else u)
  {
    TouchThenWriteLookups();
    hide *;
    var iter := Select(s, CALLER, CALLER, KEY, KEY2, table, store, Some(dbRows));
    ghost var rows := iter.value.Pending();
    if scan {
      var _ := Drain(iter.value);
      ScannedIs(iter.value, TouchThenWrite(), rows);
    }
    ScannedOrNot(s.env, scan, rows, Flatten(table), store, s.stack, u);
  }

  lemma RollsBack(version: nat)
    requires version >= V2300
    ensures forall st: Stack :: |st| >= 2 ==> Leave(version, 1, st) == Rollback(st)
  {
  }

  /** The callee fails and the caller reads. */
  method FailAndGet(s: TxSimContext) returns (o: Observation)
    requires s.Valid() && s.currentDepth == 1 && |s.stack| == 2 && s.env.version >= V235
    modifies s`currentDepth, s`layers, s`stack, s`shelf, s`queries, s.shelf.Keys
    ensures o == GetStep(s.env, old(Context(Rollback(s.stack), s.types, s.queries)), CALLER, KEY).1
  {
    RollsBack(s.env.version);
    ghost var x := Context(Rollback(s.stack), s.types, s.queries);
    hide Filed, GetStep, Rollback, Leave, s.Valid;
    s.LeaveCall(1);
    assert s.Ctx() == x;
    o := s.Get(CALLER, KEY);
  }

  method TouchAndWrite(env: Env, vmManager: VmManager) returns (s: TxSimContext)
    ensures fresh(s) && fresh(s.shelf.Keys) && s.Valid() && s.env == env && s.currentDepth == 1
    ensures s.stack == TouchThenWrite() && s.queries == [] && s.types == []
  {
    s := new TxSimContext(env, vmManager);
    s.PutIntoSet(Writes, CALLER, KEY2, VALUE);
    s.RaiseDepth();
    s.PutIntoSet(Writes, CALLER, KEY, VALUE);
  }
}
