/** What the read set holds over a whole run, and that reads repeat. */
module Repeatable {
  import opened ByteStrings
  import opened Keys
  import opened Layers
  import opened BlockVersions
  import opened BatchReads
  import opened Programs
  import opened RuntimeTypes
  import opened Reference
  import Batches

  /** What one question to the snapshot brought for (contract, key). */
  function AnswerTo(q: Query, c: Bytes, k: Bytes): Option<Bytes> {
    match q
    case Query(contract, key, answer) => if contract == c && key == k then answer else None
    case BatchQuery(_, results) => if results.Some? then StoredValue(results.value, BatchKey(c, k, [])) else None
  }

  predicate Asks(q: Query, c: Bytes, k: Bytes) {
    match q
    case Query(contract, key, _) => contract == c && key == k
    case BatchQuery(keys, _) => exists b :: b in keys && b.contract == c && StateKey(b) == k
  }

  /** The first value the snapshot gave for (contract, key), to a Get or in a batch. */
  function FirstAnswer(queries: seq<Query>, c: Bytes, k: Bytes): Option<Bytes> {
    if queries == [] then None
    else if AnswerTo(queries[0], c, k).Some? then AnswerTo(queries[0], c, k)
    else FirstAnswer(queries[1..], c, k)
  }

  lemma {:induction false} FirstAnswerAppend(queries: seq<Query>, q: Query, c: Bytes, k: Bytes)
    ensures FirstAnswer(queries + [q], c, k)
         == if FirstAnswer(queries, c, k).Some? then FirstAnswer(queries, c, k) else AnswerTo(q, c, k)
  {
    hide AnswerTo;
    if queries == [] {
      assert (queries + [q])[1..] == [];
    } else {
      FirstAnswerAppend(queries[1..], q, c, k);
      assert (queries + [q])[1..] == queries[1..] + [q];
    }
  }

  /**
   * The read set visible at the current depth is the snapshot's first answers, and no key is asked for
   * again once it was answered.
   */
  ghost predicate Faithful(x: Context) {
    && x.stack != []
    && (forall c, k :: Lookup(x.stack, Reads, c, k) == FirstAnswer(x.queries, c, k))
    && AskedUntilAnswered(x.queries)
  }

  ghost predicate AskedUntilAnswered(queries: seq<Query>) {
    forall i, j, c, k :: 0 <= i < j < |queries| && Asks(queries[j], c, k) ==> AnswerTo(queries[i], c, k).None?
  }

  lemma {:induction false} FirstAnswerNone(queries: seq<Query>, i: nat, c: Bytes, k: Bytes)
    requires i < |queries| && AnswerTo(queries[i], c, k).Some?
    ensures FirstAnswer(queries, c, k).Some?
  {
    hide AnswerTo;
    if i > 0 {
      FirstAnswerNone(queries[1..], i - 1, c, k);
    }
  }

  /** A question about keys that no read holds, its answers entering the read set, keeps it faithful. */
  lemma AskFaithful(x: Context, q: Query, st': Stack)
    requires Faithful(x) && st' != []
    requires forall c, k :: Asks(q, c, k) || AnswerTo(q, c, k).Some? ==> Lookup(x.stack, Reads, c, k).None?
    requires forall c, k ::
      Lookup(st', Reads, c, k) == if AnswerTo(q, c, k).Some? then AnswerTo(q, c, k) else Lookup(x.stack, Reads, c, k)
    ensures Faithful(x.(stack := st', queries := x.queries + [q]))
  {
    hide Lookup, AnswerTo, Asks;
    var queries' := x.queries + [q];
    forall c, k ensures Lookup(st', Reads, c, k) == FirstAnswer(queries', c, k) {
      FirstAnswerAppend(x.queries, q, c, k);
      assert Lookup(x.stack, Reads, c, k) == FirstAnswer(x.queries, c, k);
    }
    forall i, c, k | 0 <= i < |x.queries| && Asks(q, c, k) ensures AnswerTo(x.queries[i], c, k).None? {
      if AnswerTo(x.queries[i], c, k).Some? {
        FirstAnswerNone(x.queries, i, c, k);
      }
    }
  }

  lemma GetFaithful(env: Env, x: Context, c: Bytes, k: Bytes)
    requires env.version >= V235 && Faithful(x)
    ensures Faithful(GetStep(env, x, c, k).0)
  {
    if Lookup(x.stack, Writes, c, k).None? && Lookup(x.stack, Reads, c, k).None? {
      var q := Query(c, k, env.snapshot(|x.queries|, c, k));
      var x' := GetStep(env, x, c, k).0;
      forall c', k'
        ensures Lookup(x'.stack, Reads, c', k')
             == if AnswerTo(q, c', k').Some? then AnswerTo(q, c', k') else Lookup(x.stack, Reads, c', k')
      {
        if q.answer.Some? {
          LookupStored(x.stack, Reads, c, k, q.answer.value, Reads, c', k');
        }
      }
      hide Faithful;
      AskFaithful(x, q, x'.stack);
    }
  }

  // ---------------------------------------------------------------- batches

  lemma {:induction false} StoredValueOf(filled: seq<Filled>, b: BatchKey)
    requires StoredValue(filled, b).Some?
    ensures exists f ::
      f in filled && f.request.contract == b.contract && StateKey(f.request) == StateKey(b)
      && f.value == StoredValue(filled, b).value
  {
    hide StateKey;
    var n := |filled| - 1;
    assert filled == filled[..n] + [filled[n]];
    if filled[n].request.contract != b.contract || StateKey(filled[n].request) != StateKey(b) {
      StoredValueOf(filled[..n], b);
    }
  }

  lemma BareKey(c: Bytes, k: Bytes)
    ensures StateKey(BatchKey(c, k, [])) == k
  {
  }

  /** What storing a batch does to the lookups of reads. */
  lemma BatchLookup(st: Stack, filled: seq<Filled>, c: Bytes, k: Bytes)
    requires st != []
    ensures Lookup(ReadsStored(st, filled), Reads, c, k)
         == if StoredValue(filled, BatchKey(c, k, [])).Some? then StoredValue(filled, BatchKey(c, k, []))
            else Lookup(st, Reads, c, k)
  {
    BareKey(c, k);
    ReadsStoredLookup(st, filled, Reads, BatchKey(c, k, []));
    hide Lookup, ReadsStored, StoredValue;
  }

  lemma UnreadIsUnread(st: Stack, keys: seq<BatchKey>, b: BatchKey)
    requires b in Unread(st, keys)
    ensures Lookup(st, Reads, b.contract, StateKey(b)).None?
  {
    MissingAreMissing(st, Reads, Missing(st, Writes, keys), b);
  }

  /** From above 2.3.6.1 a batch changes nothing but to add what the snapshot gave for unread keys. */
  lemma GetKeysAdds(env: Env, x: Context, keys: seq<BatchKey>, c: Bytes, k: Bytes)
    requires env.version > V2361 && AnswersOnlyAsked(env) && x.stack != []
    ensures var unread, x' := Unread(x.stack, keys), GetKeysStep(env, x, keys).0;
      var q := BatchQuery(unread, env.snapshotKeys(|x.queries|, unread));
      && (Asks(q, c, k) || AnswerTo(q, c, k).Some? ==> Lookup(x.stack, Reads, c, k).None?)
      && (unread == [] ==> x' == x)
      && (unread != [] ==>
            && x'.queries == x.queries + [q] && x'.types == x.types
            && Lookup(x'.stack, Reads, c, k)
                 == if AnswerTo(q, c, k).Some? then AnswerTo(q, c, k) else Lookup(x.stack, Reads, c, k))
  {
    var unread := Unread(x.stack, keys);
    var q := BatchQuery(unread, env.snapshotKeys(|x.queries|, unread));
    if Asks(q, c, k) {
      var b :| b in unread && b.contract == c && StateKey(b) == k;
      UnreadIsUnread(x.stack, keys, b);
    }
    if q.results.Some? {
      var results := q.results.value;
      assert BatchStores(env.version, results) == results;
      BatchLookup(x.stack, results, c, k);
      if AnswerTo(q, c, k).Some? {
        BareKey(c, k);
        StoredValueOf(results, BatchKey(c, k, []));
        var f :| f in results && f.request.contract == c && StateKey(f.request) == k;
        UnreadIsUnread(x.stack, keys, f.request);
      }
    }
    hide Unread, Lookup, ReadsStored, StoredValue, BatchStores, Returned, StateKey, AnswersOnlyAsked, FromSets;
  }

  lemma GetKeysFaithful(env: Env, x: Context, keys: seq<BatchKey>)
    requires env.version > V2361 && AnswersOnlyAsked(env) && Faithful(x)
    ensures Faithful(GetKeysStep(env, x, keys).0)
  {
    var unread, x' := Unread(x.stack, keys), GetKeysStep(env, x, keys).0;
    var q := BatchQuery(unread, env.snapshotKeys(|x.queries|, unread));
    forall c, k
      ensures Asks(q, c, k) || AnswerTo(q, c, k).Some? ==> Lookup(x.stack, Reads, c, k).None?
      ensures unread != [] ==>
        Lookup(x'.stack, Reads, c, k)
          == if AnswerTo(q, c, k).Some? then AnswerTo(q, c, k) else Lookup(x.stack, Reads, c, k)
    {
      GetKeysAdds(env, x, keys, c, k);
    }
    GetKeysAdds(env, x, keys, [], []);
    StackKept(env, x, keys);
    assert x.stack != [];
    hide Faithful, GetKeysStep, Asks, AnswerTo, Lookup, Unread;
    if unread != [] {
      AskFaithful(x, q, x'.stack);
    }
  }

  lemma StackKept(env: Env, x: Context, keys: seq<BatchKey>)
    requires x.stack != []
    ensures |GetKeysStep(env, x, keys).0.stack| == |x.stack|
  {
  }

  /** From 2.3.5 a read set is dependable for programs without batches, from above 2.3.6.1 for all. */
  ghost predicate Dependable(env: Env, p: Program) {
    env.version >= V235 && (NoBatch(p) || (env.version > V2361 && AnswersOnlyAsked(env)))
  }

  // ---------------------------------------------------------------- read sets are the snapshot's first answers

  lemma StoreWriteFaithful(x: Context, c: Bytes, k: Bytes, v: Bytes)
    requires Faithful(x)
    ensures Faithful(x.(stack := StoreTop(x.stack, Writes, c, k, v)))
  {
    forall c', k'
      ensures Lookup(StoreTop(x.stack, Writes, c, k, v), Reads, c', k') == Lookup(x.stack, Reads, c', k')
    {
      LookupStored(x.stack, Writes, c, k, v, Reads, c', k');
    }
  }

  lemma EnterFaithful(x: Context)
    requires Faithful(x)
    ensures Faithful(x.(stack := x.stack + [map[]]))
  {
    forall c, k ensures Lookup(x.stack + [map[]], Reads, c, k) == Lookup(x.stack, Reads, c, k) {
      LookupEmptyTop(x.stack, Reads, c, k);
    }
  }

  lemma LeaveFaithful(version: nat, code: nat, x: Context)
    requires Faithful(x) && |x.stack| >= 2
    ensures Faithful(x.(stack := Leave(version, code, x.stack)))
  {
    forall c, k ensures Lookup(Leave(version, code, x.stack), Reads, c, k) == Lookup(x.stack, Reads, c, k) {
      CommitKeepsLookups(x.stack, Reads, c, k);
      RollbackLookup(x.stack, Reads, c, k);
    }
  }

  lemma {:induction false} ExecFaithful(env: Env, x: Context, h: History, p: Program)
    requires Dependable(env, p) && Faithful(x)
    ensures Faithful(Exec(env, x, h, p).ctx)
    decreases p, 0
  {
    match p
    case Return(_, _) =>
    case Branch(test, yes, no) =>
      ExecFaithful(env, x, h, if test(h) then yes else no);
    case Get(c, k, next) =>
      GetFaithful(env, x, c(h), k(h));
      var (x', o) := GetStep(env, x, c(h), k(h));
      ExecFaithful(env, x', h + [o], next);
    case GetBatch(keys, next) =>
      GetKeysFaithful(env, x, keys(h));
      var (x', o) := GetKeysStep(env, x, keys(h));
      ExecFaithful(env, x', h + [o], next);
    case Put(c, k, v, next) =>
      StoreWriteFaithful(x, c(h), k(h), v(h));
      var (x', o) := PutStep(x, c(h), k(h), v(h));
      ExecFaithful(env, x', h + [o], next);
    case HasUsed(t, next) =>
      ExecFaithful(env, x, h + [Used(UsedBefore(x.types, t(h)))], next);
    case Call(request, body, next) =>
      CallFaithful(env, x, h, request(h), body);
      var c := CallStep(env, x, h, request(h), body);
      ExecFaithful(env, c.ctx, h + [c.answer], next);
  }

  lemma {:induction false} CallFaithful(env: Env, x: Context, h: History, q: Request, body: Program)
    requires Dependable(env, body) && Faithful(x)
    ensures Faithful(CallStep(env, x, h, q, body).ctx)
    decreases body, 2
  {
    if Preflight(env, |x.stack|, q).None? {
      EnterFaithful(x);
      var x1 := x.(stack := x.stack + [map[]]);
      RunContractFaithful(env, x1, h, WithByteCode(env, q), body);
      var inner := RunContract(env, x1, h, WithByteCode(env, q), body);
      LeaveFaithful(env.version, inner.answer.code, inner.ctx);
    }
  }

  lemma {:induction false} RunContractFaithful(env: Env, x: Context, h: History, q: Request, body: Program)
    requires Dependable(env, body) && Faithful(x)
    ensures Faithful(RunContract(env, x, h, q, body).ctx)
    decreases body, 1
  {
    match Admit(env.version, q)
    case Refused(_) =>
    case Admitted(contract) =>
      if Dispatch(env, q, contract).None? {
        ExecFaithful(env, x.(types := x.types + [contract.runtimeType]), h, body);
      }
  }

  // ---------------------------------------------------------------- reads repeat

  lemma StepPersists(env: Env, x: Context, c': Bytes, k': Bytes, v': Bytes, keys: seq<BatchKey>, c: Bytes, k: Bytes)
    requires env.version >= V235 && x.stack != [] && Lookup(x.stack, Reads, c, k).Some?
    ensures GetStep(env, x, c', k').0.stack != [] && PutStep(x, c', k', v').0.stack != []
    ensures GetKeysStep(env, x, keys).0.stack != []
    ensures Lookup(GetStep(env, x, c', k').0.stack, Reads, c, k) == Lookup(x.stack, Reads, c, k)
    ensures Lookup(PutStep(x, c', k', v').0.stack, Reads, c, k) == Lookup(x.stack, Reads, c, k)
    ensures env.version > V2361 && AnswersOnlyAsked(env) ==>
      Lookup(GetKeysStep(env, x, keys).0.stack, Reads, c, k) == Lookup(x.stack, Reads, c, k)
  {
    var answer := env.snapshot(|x.queries|, c', k');
    LookupStored(x.stack, Reads, c', k', if answer.Some? then answer.value else [], Reads, c, k);
    LookupStored(x.stack, Writes, c', k', v', Reads, c, k);
    StackKept(env, x, keys);
    if env.version > V2361 && AnswersOnlyAsked(env) {
      GetKeysAdds(env, x, keys, c, k);
    }
    hide Lookup, StoreTop, GetKeysStep, Asks, AnswerTo, Unread;
  }

  /** A value in the read set stays there over any program, its calls succeeding or failing. */
  lemma {:induction false} ExecPersists(env: Env, x: Context, h: History, p: Program, c: Bytes, k: Bytes)
    requires Dependable(env, p) && x.stack != [] && Lookup(x.stack, Reads, c, k).Some?
    ensures Lookup(Exec(env, x, h, p).ctx.stack, Reads, c, k) == Lookup(x.stack, Reads, c, k)
    decreases p, 0
  {
    hide Lookup, GetStep, PutStep, GetKeysStep, CallStep;
    match p
    case Return(_, _) =>
    case Branch(test, yes, no) =>
      ExecPersists(env, x, h, if test(h) then yes else no, c, k);
    case Get(c', k', next) =>
      StepPersists(env, x, c'(h), k'(h), [], [], c, k);
      var (x', o) := GetStep(env, x, c'(h), k'(h));
      ExecPersists(env, x', h + [o], next, c, k);
    case GetBatch(keys, next) =>
      StepPersists(env, x, [], [], [], keys(h), c, k);
      var (x', o) := GetKeysStep(env, x, keys(h));
      ExecPersists(env, x', h + [o], next, c, k);
    case Put(c', k', v, next) =>
      StepPersists(env, x, c'(h), k'(h), v(h), [], c, k);
      var (x', o) := PutStep(x, c'(h), k'(h), v(h));
      ExecPersists(env, x', h + [o], next, c, k);
    case HasUsed(t, next) =>
      ExecPersists(env, x, h + [Used(UsedBefore(x.types, t(h)))], next, c, k);
    case Call(request, body, next) =>
      CallPersists(env, x, h, request(h), body, c, k);
      var o := CallStep(env, x, h, request(h), body);
      ExecPersists(env, o.ctx, h + [o.answer], next, c, k);
  }

  lemma {:induction false} CallPersists(env: Env, x: Context, h: History, q: Request, body: Program, c: Bytes, k: Bytes)
    requires Dependable(env, body) && x.stack != [] && Lookup(x.stack, Reads, c, k).Some?
    ensures Lookup(CallStep(env, x, h, q, body).ctx.stack, Reads, c, k) == Lookup(x.stack, Reads, c, k)
    decreases body, 2
  {
    hide Lookup, Preflight, WithByteCode, RunContract, Commit, Rollback;
    if Preflight(env, |x.stack|, q).None? {
      var x1 := x.(stack := x.stack + [map[]]);
      LookupEmptyTop(x.stack, Reads, c, k);
      RunPersists(env, x1, h, WithByteCode(env, q), body, c, k);
      var inner := RunContract(env, x1, h, WithByteCode(env, q), body);
      CommitKeepsLookups(inner.ctx.stack, Reads, c, k);
      RollbackLookup(inner.ctx.stack, Reads, c, k);
    }
  }

  lemma {:induction false} RunPersists(env: Env, x: Context, h: History, q: Request, body: Program, c: Bytes, k: Bytes)
    requires Dependable(env, body) && x.stack != [] && Lookup(x.stack, Reads, c, k).Some?
    ensures Lookup(RunContract(env, x, h, q, body).ctx.stack, Reads, c, k) == Lookup(x.stack, Reads, c, k)
    decreases body, 1
  {
    hide Lookup, Exec;
    match Admit(env.version, q)
    case Refused(_) =>
    case Admitted(contract) =>
      if Dispatch(env, q, contract).None? {
        ExecPersists(env, x.(types := x.types + [contract.runtimeType]), h, body, c, k);
      }
  }

  /**
   * Once a key is in the read set, whatever program runs next, its calls succeeding or failing, a Get of that
   * key with no own write to it gives the same value and asks the snapshot nothing; a batch does not ask for
   * it either.
   */
  lemma ReadsRepeat(env: Env, x: Context, h: History, p: Program, b: BatchKey, v: Bytes, keys: seq<BatchKey>)
    requires Dependable(env, p) && x.stack != []
    requires Lookup(x.stack, Reads, b.contract, GetKey(b.key, b.field)) == Some(v)
    ensures var x' := Exec(env, x, h, p).ctx;
      && b !in Unread(x'.stack, keys)
      && (Lookup(x'.stack, Writes, b.contract, GetKey(b.key, b.field)).None? ==>
            GetStep(env, x', b.contract, GetKey(b.key, b.field)) == (x', Value(v)))
  {
    ExecPersists(env, x, h, p, b.contract, GetKey(b.key, b.field));
    assert StateKey(b) == GetKey(b.key, b.field);
    var x' := Exec(env, x, h, p).ctx;
    if b in Unread(x'.stack, keys) {
      UnreadIsUnread(x'.stack, keys, b);
    }
    hide Lookup, Unread, Exec, StateKey, GetKey;
  }

  /** What a batch took from the snapshot repeats over every later program, its calls succeeding or failing. */
  lemma BatchRepeats(env: Env, x: Context, keys: seq<BatchKey>, snap: BatchKey -> Bytes, b: BatchKey,
                     h: History, p: Program, keys': seq<BatchKey>)
    requires env.version > V2361 && AnswersOnlyAsked(env) && x.stack != []
    requires Batches.ByStateKey(snap) && b in Unread(x.stack, keys)
    requires var answer := env.snapshotKeys(|x.queries|, Unread(x.stack, keys));
      answer.Some? && Batches.AnswerOf(answer, Unread(x.stack, keys), snap)
    ensures var x' := Exec(env, GetKeysStep(env, x, keys).0, h, p).ctx;
      && b !in Unread(x'.stack, keys')
      && (Lookup(x'.stack, Writes, b.contract, GetKey(b.key, b.field)).None? ==>
            GetStep(env, x', b.contract, GetKey(b.key, b.field)) == (x', Value(snap(b))))
  {
    Batches.BatchRecorded(env, x, keys, snap, b);
    StackKept(env, x, keys);
    hide Exec, GetKeysStep, Lookup, Unread, StateKey, GetKey, GetStep, AnswersOnlyAsked;
    hide Batches.ByStateKey, Batches.AnswerOf;
    ReadsRepeat(env, GetKeysStep(env, x, keys).0, h, p, b, snap(b), keys');
  }

  // ---------------------------------------------------------------- from which version on

  /** Whether every transaction run ends with a read set of first answers. */
  ghost predicate ReadSetsFaithful(env: Env) {
    forall q, p :: Faithful(RunContract(env, EMPTY_CONTEXT, [], q, p).ctx)
  }

  ghost predicate PlainReadSetsFaithful(env: Env) {
    forall q, p :: NoBatch(p) ==> Faithful(RunContract(env, EMPTY_CONTEXT, [], q, p).ctx)
  }

  /** The context after a program that started on an empty one. */
  function Reached(env: Env, types: Types, p: Program): (x: Context)
    ensures x.stack != []
  {
    Exec(env, EMPTY_CONTEXT.(types := types), [], p).ctx
  }

  /** Whether, wherever a program may lead, no further program changes a value in the read set. */
  ghost predicate ReadsStay(env: Env) {
    forall types: Types, p: Program, h: History, p': Program, c: Bytes, k: Bytes ::
      ReadStays(env, Reached(env, types, p), h, p', c, k)
  }

  ghost predicate ReadStays(env: Env, x: Context, h: History, p: Program, c: Bytes, k: Bytes)
    requires x.stack != []
  {
    Lookup(x.stack, Reads, c, k).Some? ==>
      Lookup(Exec(env, x, h, p).ctx.stack, Reads, c, k) == Lookup(x.stack, Reads, c, k)
  }

  /** A contract that writes a key and reads it back. */
  function WriteThenRead(): Program {
    Put(_ => [1], _ => [2], _ => [3], Get(_ => [1], _ => [2], Return(_ => 0, _ => [])))
  }

  const PLAIN_CALL: Request :=
    Request(Contract([1], true, Normal, 0), false, false, 0, true, None, None, true, false, true, Starts)

  /** Read sets are the snapshot's first answers in every run without batches exactly from version 2.3.5 on. */
  lemma FaithfulFromV235(env: Env)
    ensures PlainReadSetsFaithful(env) <==> env.version >= V235
  {
    if env.version >= V235 {
      forall q, p | NoBatch(p) ensures Faithful(RunContract(env, EMPTY_CONTEXT, [], q, p).ctx) {
        RunContractFaithful(env, EMPTY_CONTEXT, [], q, p);
      }
    } else {
      var c: Bytes, k: Bytes, v: Bytes := [1], [2], [3];
      var x0 := EMPTY_CONTEXT.(types := [0]);
      var x1 := PutStep(x0, c, k, v).0;
      LookupStored(x0.stack, Writes, c, k, v, Writes, c, k);
      var x2 := GetStep(env, x1, c, k).0;
      LookupStored(x1.stack, Reads, c, k, v, Reads, c, k);
      assert x2.queries == [] && Lookup(x2.stack, Reads, c, k) == Some(v);
      var end: Program := Return(_ => 0, _ => []);
      var h1: History := [] + [Written];
      var o := Exec(env, x0, [], WriteThenRead());
      assert o.ctx == x2;
      assert RunContract(env, EMPTY_CONTEXT, [], PLAIN_CALL, WriteThenRead()).ctx == x2.(types := []);
      assert !Faithful(x2.(types := [])) && NoBatch(WriteThenRead());
    }
  }

  /** A contract that reads one key in a batch. */
  function OneKeyBatch(b: BatchKey): Program {
    GetBatch(_ => [b], Return(_ => 0, _ => []))
  }

  lemma OneKeyUnread(st: Stack, b: BatchKey)
    requires st != [] && FindKey(st, Writes, b).None? && FindKey(st, Reads, b).None?
    ensures Unread(st, [b]) == [b]
    ensures forall version :: StagedStack(version, st, [b]) == st
  {
    assert [b][..0] == [];
    assert Missing(st, Writes, [b]) == Missing(st, Writes, []) + [b] == [b];
    assert Missing(st, Reads, [b]) == Missing(st, Reads, []) + [b] == [b];
    assert Present(st, Writes, [b]) == Present(st, Writes, []) + [] == [];
    hide FindKey;
  }

  lemma NothingElse(st: Stack, b: BatchKey)
    requires FindKey(st, Writes, b).None? && FindKey(st, Reads, b).None?
    ensures FromSets(st, [b]) == []
  {
    assert [b][..0] == [];
    assert Missing(st, Writes, [b]) == Missing(st, Writes, []) + [b] == [b];
    assert Present(st, Writes, [b]) == Present(st, Writes, []) + [] == [];
    assert Present(st, Reads, [b]) == Present(st, Reads, []) + [] == [];
    hide FindKey;
  }

  /** Up to 2.3.6.1 a batch of one unread key leaves the field as the value of the bare key, and no value of its own. */
  lemma FieldForValue(env: Env, x: Context, b: BatchKey, v: Bytes)
    requires env.version <= V2361 && b.field != []
    requires x.stack != [] && FindKey(x.stack, Writes, b).None? && FindKey(x.stack, Reads, b).None?
    requires env.snapshotKeys(|x.queries|, [b]) == Some([Filled(b, v)])
    ensures var x' := GetKeysStep(env, x, [b]).0;
      && Lookup(x'.stack, Reads, b.contract, b.key) == Some(b.field)
      && Lookup(x'.stack, Reads, b.contract, StateKey(b)).None?
      && x'.stack == StoreTop(x.stack, Reads, b.contract, b.key, b.field)
      && GetKeysStep(env, x, [b]).1 == Batch(Some([Filled(b, v)]))
      && x'.types == x.types && x'.queries == x.queries + [BatchQuery([b], Some([Filled(b, v)]))]
      && x'.stack != []
  {
    OneKeyUnread(x.stack, b);
    NothingElse(x.stack, b);
    assert [Filled(b, v)] + [] == [Filled(b, v)];
    var stores := BatchStores(env.version, [Filled(b, v)]);
    assert stores == [Filled(BatchKey(b.contract, b.key, []), b.field)];
    BareKey(b.contract, b.key);
    assert |StateKey(b)| > |b.key|;
    assert stores[..0] == [];
    assert ReadsStored(x.stack, stores) == StoreTop(x.stack, Reads, b.contract, b.key, b.field);
    LookupStored(x.stack, Reads, b.contract, b.key, b.field, Reads, b.contract, b.key);
    LookupStored(x.stack, Reads, b.contract, b.key, b.field, Reads, b.contract, StateKey(b));
    hide Lookup, StoreTop, ReadsStored, Unread, StagedStack, StateKey, BatchStores, FromSets;
  }

  lemma OneKeyRun(env: Env, b: BatchKey)
    ensures RunContract(env, EMPTY_CONTEXT, [], PLAIN_CALL, OneKeyBatch(b)).ctx
         == GetKeysStep(env, EMPTY_CONTEXT.(types := [0]), [b]).0.(types := [])
  {
    var x0 := EMPTY_CONTEXT.(types := [0]);
    assert Exec(env, x0, [], OneKeyBatch(b)).ctx == GetKeysStep(env, x0, [b]).0;
    hide GetKeysStep;
  }

  lemma OneKeyAnswer(b: BatchKey, v: Bytes)
    ensures AnswerTo(BatchQuery([b], Some([Filled(b, v)])), b.contract, StateKey(b)) == Some(v)
  {
    assert [Filled(b, v)][..0] == [];
    BareKey(b.contract, StateKey(b));
  }

  /**
   * With batches, read sets are the snapshot's first answers in every run exactly from above version 2.3.6.1, on
   * a snapshot that answers its first question when that is a batch of one key with a field.
   */
  lemma FaithfulAboveV2361(env: Env, b: BatchKey, v: Bytes)
    requires AnswersOnlyAsked(env)
    requires b.field != [] && env.snapshotKeys(0, [b]) == Some([Filled(b, v)])
    ensures ReadSetsFaithful(env) <==> env.version > V2361
  {
    if env.version > V2361 {
      forall q, p ensures Faithful(RunContract(env, EMPTY_CONTEXT, [], q, p).ctx) {
        RunContractFaithful(env, EMPTY_CONTEXT, [], q, p);
      }
    } else {
      var x2 := RunContract(env, EMPTY_CONTEXT, [], PLAIN_CALL, OneKeyBatch(b)).ctx;
      OneKeyRun(env, b);
      LookupEmptyTop([], Writes, b.contract, StateKey(b));
      LookupEmptyTop([], Reads, b.contract, StateKey(b));
      assert EMPTY_CONTEXT.stack == [] + [map[]];
      FieldForValue(env, EMPTY_CONTEXT.(types := [0]), b, v);
      OneKeyAnswer(b, v);
      assert FirstAnswer(x2.queries, b.contract, StateKey(b)) == Some(v);
      hide Lookup, GetKeysStep, StateKey, RunContract;
      assert !Faithful(x2);
    }
  }

  /** Up to 2.3.6.1, two batches of one key with two fields: the second overwrites what the first left. */
  lemma TwoFields(env: Env, b: BatchKey, b': BatchKey, v: Bytes, v': Bytes)
    requires env.version <= V2361 && b.contract == b'.contract && b.key == b'.key && b.field != [] && b'.field != []
    requires env.snapshotKeys(0, [b]) == Some([Filled(b, v)]) && env.snapshotKeys(1, [b']) == Some([Filled(b', v')])
    ensures var (x1, o1) := GetKeysStep(env, EMPTY_CONTEXT.(types := [0]), [b]);
      && x1.stack != [] && o1 == Batch(Some([Filled(b, v)]))
      && Lookup(x1.stack, Reads, b.contract, b.key) == Some(b.field)
      && Lookup(x1.stack, Writes, b.contract, b.key).None?
      && var (x2, o2) := GetKeysStep(env, x1, [b']);
      && x2.stack != [] && o2 == Batch(Some([Filled(b', v')]))
      && Lookup(x2.stack, Reads, b.contract, b.key) == Some(b'.field)
      && Lookup(x2.stack, Writes, b.contract, b.key).None?
  {
    var c, k, x0 := b.contract, b.key, EMPTY_CONTEXT.(types := [0]);
    assert x0.stack == [] + [map[]];
    forall side, k' ensures Lookup(x0.stack, side, c, k').None? {
      LookupEmptyTop([], side, c, k');
    }
    assert FindKey(x0.stack, Writes, b).None? && FindKey(x0.stack, Reads, b).None?;
    FieldForValue(env, x0, b, v);
    var x1 := GetKeysStep(env, x0, [b]).0;
    assert |StateKey(b')| > |k|;
    LookupStored(x0.stack, Reads, c, k, b.field, Reads, c, StateKey(b'));
    LookupStored(x0.stack, Reads, c, k, b.field, Writes, c, StateKey(b'));
    LookupStored(x0.stack, Reads, c, k, b.field, Writes, c, k);
    assert FindKey(x1.stack, Writes, b').None? && FindKey(x1.stack, Reads, b').None?;
    hide GetKeysStep, StateKey, FindKey, StoreTop;
    FieldForValue(env, x1, b', v');
    LookupStored(x1.stack, Reads, c, k, b'.field, Writes, c, k);
    hide Lookup;
  }

  /**
   * On a snapshot that answers two batches of one key with two fields, values in the read set stay what they
   * are, over all that programs may reach and do, exactly from above version 2.3.6.1.
   */
  lemma ReadsStayAboveV2361(env: Env, b: BatchKey, b': BatchKey, v: Bytes, v': Bytes)
    requires AnswersOnlyAsked(env) && b.contract == b'.contract && b.key == b'.key
    requires b.field != [] && b'.field != [] && b.field != b'.field
    requires env.snapshotKeys(0, [b]) == Some([Filled(b, v)]) && env.snapshotKeys(1, [b']) == Some([Filled(b', v')])
    ensures ReadsStay(env) <==> env.version > V2361
  {
    if env.version > V2361 {
      forall types: Types, p: Program, h: History, p': Program, c: Bytes, k: Bytes
        ensures ReadStays(env, Reached(env, types, p), h, p', c, k)
      {
        StaysAbove(env, Reached(env, types, p), h, p', c, k);
      }
    } else {
      OneBatchAfterAnother(env, b, b', v, v');
    }
    hide ReadStays, Reached, AnswersOnlyAsked;
  }

  lemma StaysAbove(env: Env, x: Context, h: History, p: Program, c: Bytes, k: Bytes)
    requires env.version > V2361 && AnswersOnlyAsked(env) && x.stack != []
    ensures ReadStays(env, x, h, p, c, k)
  {
    hide Lookup, Exec;
    if Lookup(x.stack, Reads, c, k).Some? {
      ExecPersists(env, x, h, p, c, k);
    }
  }

  lemma OneKeyExec(env: Env, x: Context, b: BatchKey)
    requires x.stack != []
    ensures Exec(env, x, [], OneKeyBatch(b)).ctx == GetKeysStep(env, x, [b]).0
  {
    StackKept(env, x, [b]);
    hide GetKeysStep;
  }

  lemma OneBatchAfterAnother(env: Env, b: BatchKey, b': BatchKey, v: Bytes, v': Bytes)
    requires env.version <= V2361 && b.contract == b'.contract && b.key == b'.key
    requires b.field != [] && b'.field != [] && b.field != b'.field
    requires env.snapshotKeys(0, [b]) == Some([Filled(b, v)]) && env.snapshotKeys(1, [b']) == Some([Filled(b', v')])
    ensures !ReadStays(env, Reached(env, [0], OneKeyBatch(b)), [], OneKeyBatch(b'), b.contract, b.key)
  {
    hide Lookup, GetKeysStep, Exec;
    TwoFields(env, b, b', v, v');
    var x0 := EMPTY_CONTEXT.(types := [0]);
    OneKeyExec(env, x0, b);
    OneKeyExec(env, GetKeysStep(env, x0, [b]).0, b');
  }
}
