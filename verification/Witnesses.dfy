/** Transactions, run on a fresh context, that show what the laws exclude elsewhere. */
module Witnesses {
  import opened ByteStrings
  import opened Layers
  import opened BlockVersions
  import opened BatchReads
  import opened Programs
  import opened Reference
  import Repeatable

  const CALLER: Bytes := [1]
  const OTHER: Bytes := [9]
  const KEY: Bytes := [2]
  const KEY2: Bytes := [4]
  const VALUE: Bytes := [3]

  // ---------------------------------------------------------------- one step of a run

  const START: Context := EMPTY_CONTEXT.(types := [0])

  lemma PlainRun(env: Env, p: Program)
    ensures var o, inner := RunContract(env, EMPTY_CONTEXT, [], Repeatable.PLAIN_CALL, p), Exec(env, START, [], p);
      && o.trace == inner.trace && o.ctx == inner.ctx.(types := [])
      && (o.status == Success <==> inner.answer.code == 0)
  {
    hide Exec;
  }

  lemma ExecReturn(env: Env, x: Context, h: History, p: Program)
    requires x.stack != [] && p.Return?
    ensures Exec(env, x, h, p).trace == [] && Exec(env, x, h, p).ctx == x
    ensures Exec(env, x, h, p).answer == CallResult(p.code(h), p.result(h))
  {
  }

  lemma ExecGet(env: Env, x: Context, h: History, p: Program, x': Context, o: Observation)
    requires x.stack != [] && p.Get? && GetStep(env, x, p.contract(h), p.key(h)) == (x', o)
    ensures x'.stack != []
    ensures var rest := Exec(env, x', h + [o], p.next);
      Exec(env, x, h, p) == rest.(trace := [o] + rest.trace)
  {
  }

  lemma ExecPut(env: Env, x: Context, h: History, p: Program, x': Context, o: Observation)
    requires x.stack != [] && p.Put? && PutStep(x, p.contract(h), p.key(h), p.value(h)) == (x', o)
    ensures x'.stack != []
    ensures var rest := Exec(env, x', h + [o], p.next);
      Exec(env, x, h, p) == rest.(trace := [o] + rest.trace)
  {
  }

  lemma ExecBatch(env: Env, x: Context, h: History, p: Program, x': Context, o: Observation)
    requires x.stack != [] && p.GetBatch? && GetKeysStep(env, x, p.keys(h)) == (x', o)
    ensures x'.stack != []
    ensures var rest := Exec(env, x', h + [o], p.next);
      Exec(env, x, h, p) == rest.(trace := [o] + rest.trace)
  {
    Repeatable.StackKept(env, x, p.keys(h));
    hide GetKeysStep;
  }

  lemma ExecHasUsed(env: Env, x: Context, h: History, p: Program)
    requires x.stack != [] && p.HasUsed?
    ensures var o := Used(exists i :: 0 <= i < |x.types| - 1 && x.types[i] == p.runtimeType(h));
      var rest := Exec(env, x, h + [o], p.next);
      Exec(env, x, h, p) == rest.(trace := [o] + rest.trace)
  {
  }

  /** The caller goes on with the answer of the call, and the trace has the callee's observations before it. */
  lemma ExecCall(env: Env, x: Context, h: History, p: Program)
    requires x.stack != [] && p.Call?
    ensures var c := CallStep(env, x, h, p.request(h), p.body);
      var rest := Exec(env, c.ctx, h + [c.answer], p.next);
      Exec(env, x, h, p) == rest.(trace := c.trace + [c.answer] + rest.trace)
  {
    hide CallStep;
  }

  lemma ExecBranch(env: Env, x: Context, h: History, p: Program)
    requires x.stack != [] && p.Branch?
    ensures Exec(env, x, h, p) == Exec(env, x, h, if p.test(h) then p.yes else p.no)
  {
  }

  // ---------------------------------------------------------------- a failed call

  /** A contract that writes one key and fails. */
  function WriteAndFail(): Program {
    Put(_ => OTHER, _ => KEY, _ => VALUE, Return(_ => 1, _ => []))
  }

  /** A contract that calls another, which fails, and then reads what that one wrote. */
  function CallThenRead(): Program {
    Call(_ => Repeatable.PLAIN_CALL, WriteAndFail(), Get(_ => OTHER, _ => KEY, Return(_ => 0, _ => [])))
  }

  /** The failed call's frame. */
  lemma FailingCall(env: Env, x: Context, h: History)
    requires x.stack != [] && |x.stack| <= CALL_CONTRACT_DEPTH && OTHER !in Top(x.stack)
    ensures var o := CallStep(env, x, h, Repeatable.PLAIN_CALL, WriteAndFail());
      && o.answer == Called(ContractFail, Some(CallResult(1, []))) && o.trace == [Written]
      && o.ctx.queries == x.queries && Lookup(o.ctx.stack, Writes, OTHER, KEY) == Some(VALUE)
  {
    var x1 := x.(stack := x.stack + [map[]], types := x.types + [0]);
    var x2 := PutStep(x1, OTHER, KEY, VALUE).0;
    LookupStored(x1.stack, Writes, OTHER, KEY, VALUE, Writes, OTHER, KEY);
    var o := Exec(env, x1, h, WriteAndFail());
    assert o.ctx == x2 && o.trace == [Written] && o.answer == CallResult(1, []);
    assert Below(x2.stack) == x.stack;
    CommitKeepsLookups(x2.stack, Writes, OTHER, KEY);
    RollbackLookup(x2.stack, Writes, OTHER, KEY);
    hide Lookup, StoreTop;
  }

  /**
   * In every version the caller of a failed contract reads the failed contract's write, and the transaction
   * ends with that write, when the caller had not touched that contract before.
   */
  lemma FailedCallLeaks(env: Env)
    ensures var o := RunContract(env, EMPTY_CONTEXT, [], Repeatable.PLAIN_CALL, CallThenRead());
      && o.status == Success
      && o.trace == [Written, Called(ContractFail, Some(CallResult(1, []))), Value(VALUE)]
      && Lookup(o.ctx.stack, Writes, OTHER, KEY) == Some(VALUE)
  {
    var x := START;
    FailingCall(env, x, []);
    var call := CallStep(env, x, [], Repeatable.PLAIN_CALL, WriteAndFail());
    var (x', o) := GetStep(env, call.ctx, OTHER, KEY);
    assert o == Value(VALUE);
    LookupStored(call.ctx.stack, Reads, OTHER, KEY, VALUE, Writes, OTHER, KEY);
    hide Lookup, StoreTop, CallStep;
    assert Exec(env, x, [], CallThenRead()).trace == call.trace + [call.answer] + [o];
    assert Exec(env, x, [], CallThenRead()).ctx == x';
  }

  /** A contract that reads one key, writes another and asks for both in that order. */
  function ReadWriteBatch(): Program {
    Get(_ => CALLER, _ => KEY, Put(_ => CALLER, _ => KEY2, _ => VALUE,
      GetBatch(_ => [BatchKey(CALLER, KEY, []), BatchKey(CALLER, KEY2, [])], Return(_ => 0, _ => []))))
  }

  lemma KeyThenKey2(st: Stack, v: Bytes)
    requires st != [] && Lookup(st, Writes, CALLER, KEY).None? && Lookup(st, Reads, CALLER, KEY) == Some(v)
    requires Lookup(st, Writes, CALLER, KEY2) == Some(VALUE)
    ensures var a, b := BatchKey(CALLER, KEY, []), BatchKey(CALLER, KEY2, []);
      Unread(st, [a, b]) == [] && FromSets(st, [a, b]) == [Filled(b, VALUE), Filled(a, v)]
  {
    var a, b := BatchKey(CALLER, KEY, []), BatchKey(CALLER, KEY2, []);
    Repeatable.BareKey(CALLER, KEY);
    Repeatable.BareKey(CALLER, KEY2);
    assert [a][..0] == [] && [a, b][..1] == [a];
    assert FindKey(st, Writes, a).None? && FindKey(st, Reads, a) == Some(v) && FindKey(st, Writes, b) == Some(VALUE);
    hide FindKey, Lookup;
    assert Missing(st, Writes, [a]) == [a] && Present(st, Writes, [a]) == [];
    assert Missing(st, Writes, [a, b]) == [a] && Present(st, Writes, [a, b]) == [Filled(b, VALUE)];
    assert Present(st, Reads, []) == [] && Missing(st, Reads, []) == [];
    assert Missing(st, Reads, [a]) == [] && Present(st, Reads, [a]) == [] + [Filled(a, v)];
  }

  lemma AfterReadAndWrite(env: Env, v: Bytes)
    requires env.snapshot(0, CALLER, KEY) == Some(v)
    ensures var x0 := START;
      var (x1, o1) := GetStep(env, x0, CALLER, KEY);
      var (x2, o2) := PutStep(x1, CALLER, KEY2, VALUE);
      && o1 == Value(v) && o2 == Written && x2.types == [0]
      && Lookup(x2.stack, Writes, CALLER, KEY).None? && Lookup(x2.stack, Reads, CALLER, KEY) == Some(v)
      && Lookup(x2.stack, Writes, CALLER, KEY2) == Some(VALUE)
  {
    var st0 := EMPTY_CONTEXT.stack;
    assert Lookup(st0, Writes, CALLER, KEY).None? && Lookup(st0, Reads, CALLER, KEY).None?;
    FirstGet(env, START, v);
    var st1 := StoreTop(st0, Reads, CALLER, KEY, v);
    assert KEY[0] != KEY2[0];
    LookupStored(st0, Reads, CALLER, KEY, v, Writes, CALLER, KEY);
    LookupStored(st0, Reads, CALLER, KEY, v, Reads, CALLER, KEY);
    LookupStored(st1, Writes, CALLER, KEY2, VALUE, Writes, CALLER, KEY);
    LookupStored(st1, Writes, CALLER, KEY2, VALUE, Reads, CALLER, KEY);
    LookupStored(st1, Writes, CALLER, KEY2, VALUE, Writes, CALLER, KEY2);
    hide Lookup, StoreTop, GetStep;
  }

  lemma ReadWriteBatchTrace(env: Env, x1: Context, o1: Observation, x2: Context, o2: Observation)
    requires (x1, o1) == GetStep(env, START, CALLER, KEY) && x1.stack != []
    requires (x2, o2) == PutStep(x1, CALLER, KEY2, VALUE) && x2.stack != []
    ensures var o3 := GetKeysStep(env, x2, [BatchKey(CALLER, KEY, []), BatchKey(CALLER, KEY2, [])]).1;
      RunContract(env, EMPTY_CONTEXT, [], Repeatable.PLAIN_CALL, ReadWriteBatch()).trace == [o1, o2, o3]
  {
    hide GetStep, PutStep, GetKeysStep, RunContract, Exec;
    var p := ReadWriteBatch();
    var (x3, o3) := GetKeysStep(env, x2, [BatchKey(CALLER, KEY, []), BatchKey(CALLER, KEY2, [])]);
    PlainRun(env, p);
    ExecGet(env, START, [], p, x1, o1);
    ExecPut(env, x1, [] + [o1], p.next, x2, o2);
    ExecBatch(env, x2, [] + [o1] + [o2], p.next.next, x3, o3);
    ExecReturn(env, x3, [] + [o1] + [o2] + [o3], p.next.next.next);
  }

  /** In every version the batch comes back with the written key first, though it was asked for last. */
  lemma BatchOutOfOrder(env: Env, v: Bytes)
    requires env.snapshot(0, CALLER, KEY) == Some(v)
    ensures RunContract(env, EMPTY_CONTEXT, [], Repeatable.PLAIN_CALL, ReadWriteBatch()).trace
         == [Value(v), Written,
             Batch(Some([Filled(BatchKey(CALLER, KEY2, []), VALUE), Filled(BatchKey(CALLER, KEY, []), v)]))]
  {
    var a, b := BatchKey(CALLER, KEY, []), BatchKey(CALLER, KEY2, []);
    var (x1, o1) := GetStep(env, START, CALLER, KEY);
    var (x2, o2) := PutStep(x1, CALLER, KEY2, VALUE);
    AfterReadAndWrite(env, v);
    hide GetStep, PutStep, Lookup, Unread, FromSets, StagedStack, RunContract, ReadWriteBatch;
    KeyThenKey2(x2.stack, v);
    assert GetKeysStep(env, x2, [a, b]).1 == Batch(Some(FromSets(x2.stack, [a, b])));
    hide GetKeysStep;
    ReadWriteBatchTrace(env, x1, o1, x2, o2);
  }

  lemma FirstGet(env: Env, x: Context, v: Bytes)
    requires x.stack != [] && x.queries == [] && env.snapshot(0, CALLER, KEY) == Some(v)
    requires Lookup(x.stack, Writes, CALLER, KEY).None? && Lookup(x.stack, Reads, CALLER, KEY).None?
    ensures GetStep(env, x, CALLER, KEY)
         == (Context(StoreTop(x.stack, Reads, CALLER, KEY, v), x.types, [Query(CALLER, KEY, Some(v))]), Value(v))
  {
    assert x.queries + [Query(CALLER, KEY, Some(v))] == [Query(CALLER, KEY, Some(v))];
    hide Lookup, StoreTop;
  }

  // ---------------------------------------------------------------- batches over the snapshot

  /** A contract that asks for a batch of keys. */
  function AskFor(keys: seq<BatchKey>): Program {
    GetBatch(_ => keys, Return(_ => 0, _ => []))
  }

  lemma AskForRun(env: Env, keys: seq<BatchKey>)
    ensures RunContract(env, EMPTY_CONTEXT, [], Repeatable.PLAIN_CALL, AskFor(keys)).trace
         == [GetKeysStep(env, START, keys).1]
  {
    var (x, o) := GetKeysStep(env, START, keys);
    hide GetKeysStep, Exec, RunContract;
    PlainRun(env, AskFor(keys));
    ExecBatch(env, START, [], AskFor(keys), x, o);
    ExecReturn(env, x, [] + [o], AskFor(keys).next);
  }

  lemma {:induction false} NothingFound(st: Stack, keys: seq<BatchKey>)
    requires forall side, c, k :: Lookup(st, side, c, k).None?
    ensures Present(st, Writes, keys) == [] && Unread(st, keys) == keys && FromSets(st, keys) == []
  {
    hide Lookup, StateKey;
    if keys != [] {
      var n := |keys| - 1;
      assert keys == keys[..n] + [keys[n]];
      NothingFound(st, keys[..n]);
      NoneHeld(st, Writes, keys);
      NoneHeld(st, Reads, keys);
    }
  }

  lemma {:induction false} NoneHeld(st: Stack, side: Side, keys: seq<BatchKey>)
    requires forall side, c, k :: Lookup(st, side, c, k).None?
    ensures Present(st, side, keys) == [] && Missing(st, side, keys) == keys
  {
    hide Lookup, StateKey;
    if keys != [] {
      var n := |keys| - 1;
      assert keys == keys[..n] + [keys[n]];
      NoneHeld(st, side, keys[..n]);
    }
  }

  lemma EmptyLookups()
    ensures forall side, c, k :: Lookup(EMPTY_CONTEXT.stack, side, c, k).None?
  {
    forall side, c, k ensures Lookup(EMPTY_CONTEXT.stack, side, c, k).None? {
      LookupEmptyTop([], side, c, k);
      assert EMPTY_CONTEXT.stack == [] + [map[]];
    }
  }

  /**
   * From above 2.3.6.1 one key of two contracts, asked for in one batch, comes back twice with the other contract's
   * value in place of its own.
   */
  lemma BatchLosesKey(env: Env, v: Bytes, v': Bytes)
    requires env.version > V2361
    requires var a, b := BatchKey(CALLER, KEY, []), BatchKey(OTHER, KEY, []);
      env.snapshotKeys(0, [a, b]) == Some([Filled(a, v), Filled(b, v')])
    ensures var a, b := BatchKey(CALLER, KEY, []), BatchKey(OTHER, KEY, []);
      RunContract(env, EMPTY_CONTEXT, [], Repeatable.PLAIN_CALL, AskFor([a, b])).trace
        == [Batch(Some([Filled(b, v'), Filled(b, v')]))]
  {
    var a, b := BatchKey(CALLER, KEY, []), BatchKey(OTHER, KEY, []);
    var keys, results := [a, b], [Filled(a, v), Filled(b, v')];
    AskForRun(env, keys);
    EmptyLookups();
    NothingFound(EMPTY_CONTEXT.stack, keys);
    assert results + [] == results;
    assert Tag(a) == Tag(b);
    assert LastTagged(results, Tag(a)) == Some(results[1]);
    assert SortedResults(keys, results).value == [Filled(b, v'), Filled(b, v')];
    hide Unread, FromSets, SortedResults, RunContract, AskFor, ReadsStored, StagedStack, Lookup, BatchStores;
  }

  /** Reading one key and then asking for it and another. */
  function ReadThenBatch(): Program {
    Get(_ => CALLER, _ => KEY,
      GetBatch(_ => [BatchKey(CALLER, KEY, []), BatchKey(CALLER, KEY2, [])], Return(_ => 0, _ => [])))
  }

  lemma AfterRead(env: Env, v: Bytes)
    requires env.snapshot(0, CALLER, KEY) == Some(v)
    ensures var (x1, o1) := GetStep(env, START, CALLER, KEY);
      && o1 == Value(v) && x1.stack != [] && |x1.queries| == 1
      && Lookup(x1.stack, Writes, CALLER, KEY).None? && Lookup(x1.stack, Reads, CALLER, KEY) == Some(v)
      && Lookup(x1.stack, Writes, CALLER, KEY2).None? && Lookup(x1.stack, Reads, CALLER, KEY2).None?
  {
    hide Lookup, StoreTop, GetStep;
    EmptyLookups();
    FirstGet(env, START, v);
    assert KEY[0] != KEY2[0];
    LookupStored(START.stack, Reads, CALLER, KEY, v, Reads, CALLER, KEY);
    LookupStored(START.stack, Reads, CALLER, KEY, v, Writes, CALLER, KEY);
    LookupStored(START.stack, Reads, CALLER, KEY, v, Reads, CALLER, KEY2);
    LookupStored(START.stack, Reads, CALLER, KEY, v, Writes, CALLER, KEY2);
  }

  lemma ReadThenBatchTrace(env: Env, x1: Context, o1: Observation)
    requires (x1, o1) == GetStep(env, START, CALLER, KEY) && x1.stack != []
    ensures var o2 := GetKeysStep(env, x1, [BatchKey(CALLER, KEY, []), BatchKey(CALLER, KEY2, [])]).1;
      RunContract(env, EMPTY_CONTEXT, [], Repeatable.PLAIN_CALL, ReadThenBatch()).trace == [o1, o2]
  {
    hide GetStep, GetKeysStep, RunContract, Exec;
    var p := ReadThenBatch();
    var (x2, o2) := GetKeysStep(env, x1, [BatchKey(CALLER, KEY, []), BatchKey(CALLER, KEY2, [])]);
    PlainRun(env, p);
    ExecGet(env, START, [], p, x1, o1);
    ExecBatch(env, x1, [] + [o1], p.next, x2, o2);
    ExecReturn(env, x2, [] + [o1] + [o2], p.next.next);
  }

  /** Up to 2.3.6.1 the key that was not read before comes back first, though it was asked for last. */
  lemma UnreadComesFirst(env: Env, v: Bytes, v': Bytes)
    requires env.version <= V2361 && env.snapshot(0, CALLER, KEY) == Some(v)
    requires env.snapshotKeys(1, [BatchKey(CALLER, KEY2, [])]) == Some([Filled(BatchKey(CALLER, KEY2, []), v')])
    ensures RunContract(env, EMPTY_CONTEXT, [], Repeatable.PLAIN_CALL, ReadThenBatch()).trace
         == [Value(v), Batch(Some([Filled(BatchKey(CALLER, KEY2, []), v'), Filled(BatchKey(CALLER, KEY, []), v)]))]
  {
    hide GetStep, Lookup, RunContract, ReadThenBatch, Unread, FromSets, StagedStack, ReadsStored, BatchStores;
    var a, b := BatchKey(CALLER, KEY, []), BatchKey(CALLER, KEY2, []);
    var (x1, o1) := GetStep(env, START, CALLER, KEY);
    AfterRead(env, v);
    OneOfTwoRead(x1.stack, v);
    assert [Filled(b, v')] + FromSets(x1.stack, [a, b]) == [Filled(b, v'), Filled(a, v)];
    ReadThenBatchTrace(env, x1, o1);
  }

  lemma OneOfTwoRead(st: Stack, v: Bytes)
    requires st != [] && Lookup(st, Writes, CALLER, KEY).None? && Lookup(st, Reads, CALLER, KEY) == Some(v)
    requires Lookup(st, Writes, CALLER, KEY2).None? && Lookup(st, Reads, CALLER, KEY2).None?
    ensures var a, b := BatchKey(CALLER, KEY, []), BatchKey(CALLER, KEY2, []);
      Unread(st, [a, b]) == [b] && FromSets(st, [a, b]) == [Filled(a, v)]
  {
    var a, b := BatchKey(CALLER, KEY, []), BatchKey(CALLER, KEY2, []);
    Repeatable.BareKey(CALLER, KEY);
    Repeatable.BareKey(CALLER, KEY2);
    assert [a][..0] == [] && [a, b][..1] == [a];
    assert FindKey(st, Writes, a).None? && FindKey(st, Reads, a) == Some(v);
    assert FindKey(st, Writes, b).None? && FindKey(st, Reads, b).None?;
    hide FindKey, Lookup;
    assert Missing(st, Writes, [a]) == [a] && Present(st, Writes, [a]) == [];
    assert Missing(st, Writes, [a, b]) == [a, b] && Present(st, Writes, [a, b]) == [];
    assert Present(st, Reads, []) == [] && Missing(st, Reads, []) == [];
    assert Missing(st, Reads, [a]) == [] && Present(st, Reads, [a]) == [] + [Filled(a, v)];
    assert Missing(st, Reads, [a, b]) == [b] && Present(st, Reads, [a, b]) == [Filled(a, v)];
  }

  /** Two batches for one key with different fields, the bare key read after each. */
  function ReadBetweenBatches(b: BatchKey, b': BatchKey): Program {
    GetBatch(_ => [b], Get(_ => b.contract, _ => b.key,
      GetBatch(_ => [b'], Get(_ => b.contract, _ => b.key, Return(_ => 0, _ => [])))))
  }

  lemma ReadBetweenBatchesTrace(env: Env, b: BatchKey, b': BatchKey, x1: Context, o1: Observation, x2: Context,
                                o2: Observation, u: Bytes, u': Bytes)
    requires b.contract == b'.contract && b.key == b'.key
    requires (x1, o1) == GetKeysStep(env, START, [b]) && x1.stack != []
    requires GetStep(env, x1, b.contract, b.key) == (x1, Value(u))
    requires (x2, o2) == GetKeysStep(env, x1, [b']) && x2.stack != []
    requires GetStep(env, x2, b.contract, b.key) == (x2, Value(u'))
    ensures RunContract(env, EMPTY_CONTEXT, [], Repeatable.PLAIN_CALL, ReadBetweenBatches(b, b')).trace
         == [o1, Value(u), o2, Value(u')]
  {
    hide GetStep, GetKeysStep, RunContract, Exec;
    var p := ReadBetweenBatches(b, b');
    PlainRun(env, p);
    ExecBatch(env, START, [], p, x1, o1);
    ExecGet(env, x1, [] + [o1], p.next, x1, Value(u));
    ExecBatch(env, x1, [] + [o1] + [Value(u)], p.next.next, x2, o2);
    ExecGet(env, x2, [] + [o1] + [Value(u)] + [o2], p.next.next.next, x2, Value(u'));
    ExecReturn(env, x2, [] + [o1] + [Value(u)] + [o2] + [Value(u')], p.next.next.next.next);
  }

  /** Up to 2.3.6.1 a key reads differently after a second batch, though nothing was written. */
  lemma ReadChanges(env: Env, b: BatchKey, b': BatchKey, v: Bytes, v': Bytes)
    requires env.version <= V2361 && b.contract == b'.contract && b.key == b'.key && b.field != [] && b'.field != []
    requires env.snapshotKeys(0, [b]) == Some([Filled(b, v)]) && env.snapshotKeys(1, [b']) == Some([Filled(b', v')])
    ensures RunContract(env, EMPTY_CONTEXT, [], Repeatable.PLAIN_CALL, ReadBetweenBatches(b, b')).trace
         == [Batch(Some([Filled(b, v)])), Value(b.field), Batch(Some([Filled(b', v')])), Value(b'.field)]
  {
    hide Lookup, GetKeysStep, RunContract, ReadBetweenBatches;
    Repeatable.TwoFields(env, b, b', v, v');
    var (x1, o1) := GetKeysStep(env, START, [b]);
    var (x2, o2) := GetKeysStep(env, x1, [b']);
    ReadBetweenBatchesTrace(env, b, b', x1, o1, x2, o2, b.field, b'.field);
  }
}
