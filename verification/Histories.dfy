/** What reads and writes of one frame come to, told from the operations alone. */
module Histories {
  import opened ByteStrings
  import opened Layers
  import opened Programs
  import opened Reference
  import opened Repeatable

  datatype Op = GetOp(contract: Bytes, key: Bytes) | PutOp(contract: Bytes, key: Bytes, value: Bytes)

  function Apply(env: Env, x: Context, op: Op): (r: (Context, Observation))
    requires x.stack != []
    ensures r.0.stack != []
  {
    match op
    case GetOp(c, k) => GetStep(env, x, c, k)
    case PutOp(c, k, v) => PutStep(x, c, k, v)
  }

  /** The context after the operations, starting on an empty one. */
  function After(env: Env, ops: seq<Op>): (x: Context)
    ensures x.stack != []
  {
    if ops == [] then EMPTY_CONTEXT else Apply(env, After(env, ops[..|ops| - 1]), ops[|ops| - 1]).0
  }

  /** The value last put under (c, k); keys of more than 600 bytes are refused. */
  function LastPut(ops: seq<Op>, c: Bytes, k: Bytes): Option<Bytes> {
    if ops == [] then None
    else
      var op := ops[|ops| - 1];
      if op.PutOp? && op.contract == c && op.key == k && |k| <= 600 then Some(op.value)
      else LastPut(ops[..|ops| - 1], c, k)
  }

  lemma {:induction false} WritesAre(env: Env, ops: seq<Op>, c: Bytes, k: Bytes)
    ensures Lookup(After(env, ops).stack, Writes, c, k) == LastPut(ops, c, k)
  {
    if ops == [] {
      LookupEmptyTop([], Writes, c, k);
      assert EMPTY_CONTEXT.stack == [] + [map[]];
    } else {
      var x, op := After(env, ops[..|ops| - 1]), ops[|ops| - 1];
      WritesAre(env, ops[..|ops| - 1], c, k);
      OpWrites(env, x, op, c, k);
      hide Lookup, Apply;
    }
  }

  lemma OpWrites(env: Env, x: Context, op: Op, c: Bytes, k: Bytes)
    requires x.stack != []
    ensures Lookup(Apply(env, x, op).0.stack, Writes, c, k)
         == if op.PutOp? && op.contract == c && op.key == k && |k| <= 600 then Some(op.value)
            else Lookup(x.stack, Writes, c, k)
  {
    match op
    case GetOp(c', k') =>
      var written, answer := Lookup(x.stack, Writes, c', k'), env.snapshot(|x.queries|, c', k');
      if written.Some? {
        LookupStored(x.stack, Reads, c', k', written.value, Writes, c, k);
      } else if answer.Some? {
        LookupStored(x.stack, Reads, c', k', answer.value, Writes, c, k);
      }
      hide Lookup, StoreTop;
    case PutOp(c', k', v) =>
      LookupStored(x.stack, Writes, c', k', v, Writes, c, k);
      hide Lookup, StoreTop;
  }

  /** A key that was never put reads as the snapshot's first answer for it, if there was one. */
  lemma {:induction false} ReadsAre(env: Env, ops: seq<Op>, c: Bytes, k: Bytes)
    requires LastPut(ops, c, k) == None
    ensures Lookup(After(env, ops).stack, Reads, c, k) == FirstAnswer(After(env, ops).queries, c, k)
  {
    if ops == [] {
      LookupEmptyTop([], Reads, c, k);
      assert EMPTY_CONTEXT.stack == [] + [map[]];
    } else {
      var x, op := After(env, ops[..|ops| - 1]), ops[|ops| - 1];
      ReadsAre(env, ops[..|ops| - 1], c, k);
      WritesAre(env, ops[..|ops| - 1], c, k);
      OpReads(env, x, op, c, k);
      hide Lookup, Apply, FirstAnswer;
    }
  }

  lemma OpReads(env: Env, x: Context, op: Op, c: Bytes, k: Bytes)
    requires x.stack != [] && Lookup(x.stack, Writes, c, k) == None
    requires Lookup(x.stack, Reads, c, k) == FirstAnswer(x.queries, c, k)
    ensures var x' := Apply(env, x, op).0; Lookup(x'.stack, Reads, c, k) == FirstAnswer(x'.queries, c, k)
  {
    match op
    case GetOp(c', k') =>
      var written, answer := Lookup(x.stack, Writes, c', k'), env.snapshot(|x.queries|, c', k');
      FirstAnswerAppend(x.queries, Query(c', k', answer), c, k);
      if written.Some? {
        LookupStored(x.stack, Reads, c', k', written.value, Reads, c, k);
      } else if answer.Some? {
        LookupStored(x.stack, Reads, c', k', answer.value, Reads, c, k);
      }
      hide Lookup, StoreTop, FirstAnswer;
    case PutOp(c', k', v) =>
      LookupStored(x.stack, Writes, c', k', v, Reads, c, k);
      hide Lookup, StoreTop;
  }

  /**
   * In every version: a Get gives the value last put; without one, the snapshot's first answer to an earlier Get,
   * asking nothing; without that, what the snapshot answers now, an error if it fails. A Put is refused exactly when
   * the key has more than 600 bytes.
   */
  lemma ReadsAndWrites(env: Env, ops: seq<Op>, c: Bytes, k: Bytes, v: Bytes)
    ensures var x, put := After(env, ops), LastPut(ops, c, k);
      var (x', o) := GetStep(env, x, c, k);
      var first, now := FirstAnswer(x.queries, c, k), env.snapshot(|x.queries|, c, k);
      && (put.Some? ==> o == Value(put.value) && x'.queries == x.queries)
      && (put.None? && first.Some? ==> o == Value(first.value) && x' == x)
      && (put.None? && first.None? ==>
            && x'.queries == x.queries + [Query(c, k, now)]
            && o == if now.Some? then Value(now.value) else SnapshotError)
    ensures PutStep(After(env, ops), c, k, v).1 == if |k| > 600 then KeyTooLong else Written
    ensures |k| > 600 ==> PutStep(After(env, ops), c, k, v).0 == After(env, ops)
  {
    WritesAre(env, ops, c, k);
    if LastPut(ops, c, k).None? {
      ReadsAre(env, ops, c, k);
    }
    hide Lookup, FirstAnswer, After, LastPut, StoreTop;
  }
}
