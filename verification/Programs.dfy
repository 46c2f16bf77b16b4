/**
 Contract execution over the layered context.

 A contract run is a finite program of context operations. Every argument, test and result is a
 function of what the frame has observed so far, so a program may adapt to the values it reads.
 */
module Programs {
  import opened ByteStrings
  import opened Keys
  import opened Layers
  import opened BlockVersions
  import opened BatchReads
  import opened RuntimeTypes

  const CALL_CONTRACT_DEPTH: nat := 5
  const GAS_LIMIT: nat := 10000000000

  datatype Status =
    | Success | ContractFail | TooDeep | BadContractName | BadMethod
    | ContractFrozen | ContractRevoked | BadTxType | NoByteCode
    | NoRuntime | NoInstance

  datatype CallResult = CallResult(code: nat, result: Bytes)

  datatype Observation =
    | Value(value: Bytes)
    | SnapshotError
    | Batch(results: Option<seq<Filled>>)
    | Written
    | KeyTooLong
    | Used(used: bool)
    | Called(status: Status, answer: Option<CallResult>)

  type History = seq<Observation>

  datatype ContractStatus = Normal | Frozen | Revoked

  /**
   * How far the runtime gets with a user contract. The lookup of sender and creator that comes before the
   * contract's code may read through the context: it is the first part of the program.
   */
  datatype Startup = Starts | RuntimeMissing | InstanceFails

  datatype Contract = Contract(name: Bytes, hasVersion: bool, status: ContractStatus, runtimeType: RuntimeType)

  /**
   * One cross-contract call as CallContract and RunContract see it. What they ask of code outside this
   * model is part of the request: the stored contract and byte code (None when the query fails), the
   * verdict of access control, how the transaction type classifies the contract, and how its runtime starts.
   */
  datatype Request = Request(
    contract: Contract,
    methodEmpty: bool,
    methodIsUpgrade: bool,
    gasUsed: nat,
    hasByteCode: bool,
    storedContract: Option<Contract>,
    storedHasByteCode: Option<bool>,
    authorized: bool,
    isNative: bool,
    isUserContract: bool,
    startup: Startup)

  datatype Program =
    | Return(code: History -> nat, result: History -> Bytes)
    | Branch(test: History -> bool, yes: Program, no: Program)
    | Get(contract: History -> Bytes, key: History -> Bytes, next: Program)
    | GetBatch(keys: History -> seq<BatchKey>, next: Program)
    | Put(contract: History -> Bytes, key: History -> Bytes, value: History -> Bytes, next: Program)
    | HasUsed(runtimeType: History -> RuntimeType, next: Program)
    | Call(request: History -> Request, body: Program, next: Program)

  /** One question put to the snapshot, and its answer; None is an error. */
  datatype Query =
    | Query(contract: Bytes, key: Bytes, answer: Option<Bytes>)
    | BatchQuery(keys: seq<BatchKey>, results: Option<seq<Filled>>)

  /**
   * The block version, what the snapshot answers to its n-th question (the snapshot may change while
   * the transaction runs), and the runtime types that carry no byte code.
   */
  datatype Env = Env(
    version: nat,
    snapshot: (nat, Bytes, Bytes) -> Option<Bytes>,
    snapshotKeys: (nat, seq<BatchKey>) -> Option<seq<Filled>>,
    dockerGo: RuntimeType,
    go: RuntimeType,
    dockerJava: RuntimeType)

  /** The snapshot returns results for requested keys only. */
  ghost predicate AnswersOnlyAsked(env: Env) {
    forall n, keys, f ::
      env.snapshotKeys(n, keys).Some? && f in env.snapshotKeys(n, keys).value ==> f.request in keys
  }

  predicate NoBatch(p: Program) {
    match p
    case Return(_, _) => true
    case Branch(_, yes, no) => NoBatch(yes) && NoBatch(no)
    case Get(_, _, next) => NoBatch(next)
    case GetBatch(_, _) => false
    case Put(_, _, _, next) => NoBatch(next)
    case HasUsed(_, next) => NoBatch(next)
    case Call(_, body, next) => NoBatch(body) && NoBatch(next)
  }

  // ---------------------------------------------------------------- decisions that touch no state

  /** CallContract's own exits at the given depth; None lets the call through. */
  function Preflight(env: Env, depth: nat, q: Request): Option<Observation> {
    if depth > CALL_CONTRACT_DEPTH then Some(Called(TooDeep, Some(CallResult(1, []))))
    else if q.gasUsed > GAS_LIMIT then Some(Called(ContractFail, Some(CallResult(1, []))))
    else if AsksStoreForByteCode(env, q) && q.storedHasByteCode.None? then Some(Called(ContractFail, None))
    else if env.version >= V2310 && !q.authorized then Some(Called(ContractFail, Some(CallResult(1, []))))
    else None
  }

  predicate AsksStoreForByteCode(env: Env, q: Request) {
    !q.hasByteCode && q.contract.runtimeType != env.dockerGo && q.contract.runtimeType != env.go
  }

  /** The request CallContract hands on: byte code comes from the store when the caller gave none. */
  function WithByteCode(env: Env, q: Request): Request {
    if AsksStoreForByteCode(env, q) && q.storedHasByteCode.Some?
    then q.(hasByteCode := q.storedHasByteCode.value)
    else q
  }

  datatype Admission = Refused(status: Status) | Admitted(contract: Contract)

  /** RunContract's exits before it records the runtime type. */
  function Admit(version: nat, q: Request): Admission {
    if q.contract.name == [] then Refused(BadContractName)
    else if !q.contract.hasVersion && q.storedContract.None? then Refused(BadContractName)
    else
      var contract := if q.contract.hasVersion then q.contract else q.storedContract.value;
      if contract.status == Frozen && (version < V2310 || !q.methodIsUpgrade) then Refused(ContractFrozen)
      else if contract.status == Revoked then Refused(ContractRevoked)
      else Admitted(contract)
  }

  /** RunContract's exits after it recorded the runtime type; None runs the contract. */
  function Dispatch(env: Env, q: Request, contract: Contract): Option<Status> {
    if q.isNative then (if q.methodEmpty then Some(BadMethod) else None)
    else if !q.isUserContract then Some(BadTxType)
    else if contract.runtimeType !in {env.dockerGo, env.go, env.dockerJava} && !q.hasByteCode then Some(NoByteCode)
    else
      match q.startup
      case RuntimeMissing => Some(NoRuntime)
      case InstanceFails => Some(NoInstance)
      case Starts => None
  }

  // ---------------------------------------------------------------- operations

  datatype Context = Context(stack: Stack, types: Types, queries: seq<Query>)

  function GetStep(env: Env, x: Context, c: Bytes, k: Bytes): (Context, Observation)
    requires x.stack != []
  {
    match Lookup(x.stack, Writes, c, k)
    case Some(v) =>
      (if env.version < V235 then x.(stack := StoreTop(x.stack, Reads, c, k, v)) else x, Value(v))
    case None =>
      match Lookup(x.stack, Reads, c, k)
      case Some(v) => (x, Value(v))
      case None =>
        var answer := env.snapshot(|x.queries|, c, k);
        var asked := x.(queries := x.queries + [Query(c, k, answer)]);
        match answer
        case None => (asked, SnapshotError)
        case Some(v) => (asked.(stack := StoreTop(x.stack, Reads, c, k, v)), Value(v))
  }

  /**
   * A batch read: own writes, then values read, then one question for all keys still unread. Whatever the
   * snapshot returns enters the read set before the results are put in order.
   */
  function GetKeysStep(env: Env, x: Context, keys: seq<BatchKey>): (Context, Observation)
    requires x.stack != []
  {
    var unread, staged := Unread(x.stack, keys), StagedStack(env.version, x.stack, keys);
    if unread == [] then (x.(stack := staged), Batch(Some(FromSets(x.stack, keys))))
    else
      var answer := env.snapshotKeys(|x.queries|, unread);
      var asked := Context(staged, x.types, x.queries + [BatchQuery(unread, answer)]);
      match answer
      case None => (asked, Batch(None))
      case Some(results) =>
        (asked.(stack := ReadsStored(staged, BatchStores(env.version, results))),
         Batch(Returned(env.version, keys, results + FromSets(x.stack, keys))))
  }

  /** The read for the framework: own writes first, then the snapshot as it is now; nothing is recorded. */
  function NoRecordStep(env: Env, x: Context, c: Bytes, k: Bytes): Option<Bytes> {
    match Lookup(x.stack, Writes, c, k)
    case Some(v) => Some(v)
    case None => env.snapshot(|x.queries|, c, k)
  }

  function PutStep(x: Context, c: Bytes, k: Bytes, v: Bytes): (Context, Observation)
    requires x.stack != []
  {
    if |k| > MAX_WRITE_KEY_LEN then (x, KeyTooLong)
    else (x.(stack := StoreTop(x.stack, Writes, c, k, v)), Written)
  }

  function Leave(version: nat, code: nat, st: Stack): Stack
    requires |st| >= 2
  {
    if code == 0 || version < V2300 then Commit(st) else Rollback(st)
  }

  datatype Outcome = Outcome(ctx: Context, answer: CallResult, trace: seq<Observation>)

  datatype RunOutcome = RunOutcome(ctx: Context, status: Status, answer: CallResult, trace: seq<Observation>)

  datatype CallOutcome = CallOutcome(ctx: Context, answer: Observation, trace: seq<Observation>)

  /** The run of a program in its frame; `trace` lists every observation made, callees' included. */
  function Exec(env: Env, x: Context, h: History, p: Program): (o: Outcome)
    requires x.stack != []
    ensures o.ctx.types == x.types
    ensures |o.ctx.stack| == |x.stack| && Below(o.ctx.stack) == Below(x.stack)
    decreases p, 0
  {
    match p
    case Return(code, result) => Outcome(x, CallResult(code(h), result(h)), [])
    case Branch(test, yes, no) => if test(h) then Exec(env, x, h, yes) else Exec(env, x, h, no)
    case Get(c, k, next) =>
      var (x', o) := GetStep(env, x, c(h), k(h));
      var rest := Exec(env, x', h + [o], next);
      rest.(trace := [o] + rest.trace)
    case GetBatch(keys, next) =>
      var (x', o) := GetKeysStep(env, x, keys(h));
      var rest := Exec(env, x', h + [o], next);
      rest.(trace := [o] + rest.trace)
    case Put(c, k, v, next) =>
      var (x', o) := PutStep(x, c(h), k(h), v(h));
      var rest := Exec(env, x', h + [o], next);
      rest.(trace := [o] + rest.trace)
    case HasUsed(t, next) =>
      var o := Used(UsedBefore(x.types, t(h)));
      var rest := Exec(env, x, h + [o], next);
      rest.(trace := [o] + rest.trace)
    case Call(request, body, next) =>
      var c := CallStep(env, x, h, request(h), body);
      var rest := Exec(env, c.ctx, h + [c.answer], next);
      rest.(trace := c.trace + [c.answer] + rest.trace)
  }

  /** CallContract: a fresh layer for the callee, merged into the caller's or rolled back on return. */
  function CallStep(env: Env, x: Context, h: History, q: Request, body: Program): (o: CallOutcome)
    requires x.stack != []
    ensures o.ctx.types == x.types
    ensures |o.ctx.stack| == |x.stack| && Below(o.ctx.stack) == Below(x.stack)
    decreases body, 2
  {
    match Preflight(env, |x.stack|, q)
    case Some(answer) => CallOutcome(x, answer, [])
    case None =>
      var inner := RunContract(env, x.(stack := x.stack + [map[]]), h, WithByteCode(env, q), body);
      CallOutcome(inner.ctx.(stack := Leave(env.version, inner.answer.code, inner.ctx.stack)),
        Called(inner.status, Some(inner.answer)), inner.trace)
  }

  /** RunContract: the runtime type is recorded for exactly the time the contract runs. */
  function RunContract(env: Env, x: Context, h: History, q: Request, body: Program): (o: RunOutcome)
    requires x.stack != []
    ensures o.ctx.types == x.types
    ensures |o.ctx.stack| == |x.stack| && Below(o.ctx.stack) == Below(x.stack)
    decreases body, 1
  {
    match Admit(env.version, q)
    case Refused(status) => RunOutcome(x, status, CallResult(1, []), [])
    case Admitted(contract) =>
      match Dispatch(env, q, contract)
      case Some(status) => RunOutcome(x, status, CallResult(1, []), [])
      case None =>
        var inner := Exec(env, x.(types := x.types + [contract.runtimeType]), h, body);
        RunOutcome(
          inner.ctx.(types := inner.ctx.types[..|inner.ctx.types| - 1]),
          if inner.answer.code == 0 then Success else ContractFail,
          inner.answer, inner.trace)
  }
}

/** The reference: one flat map of own writes, one of values read, and the contracts a frame touched. */
module Reference {
  import opened ByteStrings
  import opened Keys
  import opened Layers
  import opened BlockVersions
  import opened BatchReads
  import opened RuntimeTypes
  import opened Programs

  type Flat = map<(Bytes, Bytes), Bytes>

  datatype Ref = Ref(
    own: Flat,
    seen: Flat,
    touched: set<Bytes>,
    depth: nat,
    types: Types,
    queries: seq<Query>)

  function Fetch(m: Flat, c: Bytes, k: Bytes): Option<Bytes> {
    if (c, k) in m then Some(m[(c, k)]) else None
  }

  function GetRef(env: Env, r: Ref, c: Bytes, k: Bytes): (Ref, Observation) {
    if (c, k) in r.own then
      var v := r.own[(c, k)];
      (if env.version < V235 then r.(seen := r.seen[(c, k) := v], touched := r.touched + {c}) else r, Value(v))
    else if (c, k) in r.seen then (r, Value(r.seen[(c, k)]))
    else
      var answer := env.snapshot(|r.queries|, c, k);
      var asked := r.(queries := r.queries + [Query(c, k, answer)]);
      match answer
      case None => (asked, SnapshotError)
      case Some(v) => (asked.(seen := r.seen[(c, k) := v], touched := r.touched + {c}), Value(v))
  }

  // ---------------------------------------------------------------- batches on the flat maps

  function FetchKey(m: Flat, b: BatchKey): Option<Bytes> {
    Fetch(m, b.contract, StateKey(b))
  }

  /** The requests one of the maps answers, with its values, in request order. */
  function Held(m: Flat, keys: seq<BatchKey>): seq<Filled> {
    if keys == [] then []
    else
      var n := |keys| - 1;
      Held(m, keys[..n]) + if FetchKey(m, keys[n]).Some? then [Filled(keys[n], FetchKey(m, keys[n]).value)] else []
  }

  function NotHeld(m: Flat, keys: seq<BatchKey>): seq<BatchKey> {
    if keys == [] then []
    else
      var n := |keys| - 1;
      NotHeld(m, keys[..n]) + if FetchKey(m, keys[n]).Some? then [] else [keys[n]]
  }

  /** Values that count as read from now on. */
  function See(r: Ref, filled: seq<Filled>): Ref {
    if filled == [] then r
    else
      var n := |filled| - 1;
      var r', b := See(r, filled[..n]), filled[n].request;
      r'.(seen := r'.seen[(b.contract, StateKey(b)) := filled[n].value], touched := r'.touched + {b.contract})
  }

  function GetKeysRef(env: Env, r: Ref, keys: seq<BatchKey>): (Ref, Observation) {
    var written, rest := Held(r.own, keys), NotHeld(r.own, keys);
    var found, unread := written + Held(r.seen, rest), NotHeld(r.seen, rest);
    var staged := if env.version < V235 then See(r, written) else r;
    if unread == [] then (staged, Batch(Some(found)))
    else
      var answer := env.snapshotKeys(|r.queries|, unread);
      var asked := staged.(queries := r.queries + [BatchQuery(unread, answer)]);
      match answer
      case None => (asked, Batch(None))
      case Some(results) =>
        (See(asked, BatchStores(env.version, results)), Batch(Returned(env.version, keys, results + found)))
  }

  function PutRef(r: Ref, c: Bytes, k: Bytes, v: Bytes): (Ref, Observation) {
    if |k| > MAX_WRITE_KEY_LEN then (r, KeyTooLong)
    else (r.(own := r.own[(c, k) := v], touched := r.touched + {c}), Written)
  }

  /** A failed call restores the writes of the contracts the caller had touched, and only those. */
  function Restored(before: Flat, after: Flat, touched: set<Bytes>): Flat {
    map ck | ck in before.Keys + after.Keys && (if ck.0 in touched then ck in before else ck in after) ::
      if ck.0 in touched then before[ck] else after[ck]
  }

  function LeaveRef(version: nat, code: nat, caller: Ref, callee: Ref): Ref {
    callee.(
      own := if code == 0 || version < V2300 then callee.own else Restored(caller.own, callee.own, caller.touched),
      touched := caller.touched + callee.touched,
      depth := caller.depth)
  }

  datatype RefOutcome = RefOutcome(ref: Ref, answer: CallResult, trace: seq<Observation>)

  datatype RefRunOutcome = RefRunOutcome(ref: Ref, status: Status, answer: CallResult, trace: seq<Observation>)

  datatype RefCallOutcome = RefCallOutcome(ref: Ref, answer: Observation, trace: seq<Observation>)

  function ExecRef(env: Env, r: Ref, h: History, p: Program): RefOutcome
    decreases p, 0
  {
    match p
    case Return(code, result) => RefOutcome(r, CallResult(code(h), result(h)), [])
    case Branch(test, yes, no) => if test(h) then ExecRef(env, r, h, yes) else ExecRef(env, r, h, no)
    case Get(c, k, next) =>
      var (r', o) := GetRef(env, r, c(h), k(h));
      var rest := ExecRef(env, r', h + [o], next);
      rest.(trace := [o] + rest.trace)
    case GetBatch(keys, next) =>
      var (r', o) := GetKeysRef(env, r, keys(h));
      var rest := ExecRef(env, r', h + [o], next);
      rest.(trace := [o] + rest.trace)
    case Put(c, k, v, next) =>
      var (r', o) := PutRef(r, c(h), k(h), v(h));
      var rest := ExecRef(env, r', h + [o], next);
      rest.(trace := [o] + rest.trace)
    case HasUsed(t, next) =>
      var o := Used(UsedBefore(r.types, t(h)));
      var rest := ExecRef(env, r, h + [o], next);
      rest.(trace := [o] + rest.trace)
    case Call(request, body, next) =>
      var c := CallRef(env, r, h, request(h), body);
      var rest := ExecRef(env, c.ref, h + [c.answer], next);
      rest.(trace := c.trace + [c.answer] + rest.trace)
  }

  function CallRef(env: Env, r: Ref, h: History, q: Request, body: Program): RefCallOutcome
    decreases body, 2
  {
    match Preflight(env, r.depth + 1, q)
    case Some(answer) => RefCallOutcome(r, answer, [])
    case None =>
      var inner := RunContractRef(env, r.(touched := {}, depth := r.depth + 1), h, WithByteCode(env, q), body);
      RefCallOutcome(LeaveRef(env.version, inner.answer.code, r, inner.ref),
        Called(inner.status, Some(inner.answer)), inner.trace)
  }

  function RunContractRef(env: Env, r: Ref, h: History, q: Request, body: Program): RefRunOutcome
    decreases body, 1
  {
    match Admit(env.version, q)
    case Refused(status) => RefRunOutcome(r, status, CallResult(1, []), [])
    case Admitted(contract) =>
      match Dispatch(env, q, contract)
      case Some(status) => RefRunOutcome(r, status, CallResult(1, []), [])
      case None =>
        var inner := ExecRef(env, r.(types := r.types + [contract.runtimeType]), h, body);
        RefRunOutcome(inner.ref.(types := r.types),
          if inner.answer.code == 0 then Success else ContractFail, inner.answer, inner.trace)
  }

  // ---------------------------------------------------------------- the layers refine the reference

  ghost predicate Agrees(st: Stack, side: Side, m: Flat) {
    forall c, k :: Lookup(st, side, c, k) == Fetch(m, c, k)
  }

  ghost predicate Simulates(x: Context, r: Ref) {
    && x.stack != []
    && |x.stack| == r.depth + 1
    && x.types == r.types
    && x.queries == r.queries
    && Top(x.stack).Keys == r.touched
    && Agrees(x.stack, Writes, r.own)
    && Agrees(x.stack, Reads, r.seen)
  }

  lemma StoreSimulates(x: Context, r: Ref, side: Side, c: Bytes, k: Bytes, v: Bytes)
    requires Simulates(x, r)
    ensures var x' := x.(stack := StoreTop(x.stack, side, c, k, v));
      match side
      case Reads => Simulates(x', r.(seen := r.seen[(c, k) := v], touched := r.touched + {c}))
      case Writes => Simulates(x', r.(own := r.own[(c, k) := v], touched := r.touched + {c}))
  {
    forall side', c', k'
      ensures Lookup(StoreTop(x.stack, side, c, k, v), side', c', k')
           == if side == side' && c == c' && k == k' then Some(v) else Lookup(x.stack, side', c', k')
    {
      LookupStored(x.stack, side, c, k, v, side', c', k');
    }
  }

  lemma GetSimulates(env: Env, x: Context, r: Ref, c: Bytes, k: Bytes)
    requires Simulates(x, r)
    ensures var (x', o) := GetStep(env, x, c, k);
      var (r', o') := GetRef(env, r, c, k);
      o == o' && Simulates(x', r')
  {
    assert Lookup(x.stack, Writes, c, k) == Fetch(r.own, c, k);
    assert Lookup(x.stack, Reads, c, k) == Fetch(r.seen, c, k);
    if (c, k) in r.own {
      StoreSimulates(x, r, Reads, c, k, r.own[(c, k)]);
    } else if (c, k) !in r.seen {
      var answer := env.snapshot(|x.queries|, c, k);
      if answer.Some? {
        var asked := x.queries + [Query(c, k, answer)];
        StoreSimulates(x.(queries := asked), r.(queries := asked), Reads, c, k, answer.value);
      }
    }
  }

  lemma {:induction false} HeldIsPresent(st: Stack, side: Side, m: Flat, keys: seq<BatchKey>)
    requires Agrees(st, side, m)
    ensures Held(m, keys) == Present(st, side, keys) && NotHeld(m, keys) == Missing(st, side, keys)
  {
    if keys != [] {
      var b := keys[|keys| - 1];
      assert Lookup(st, side, b.contract, StateKey(b)) == Fetch(m, b.contract, StateKey(b));
      HeldIsPresent(st, side, m, keys[..|keys| - 1]);
    }
    hide Agrees, Lookup, StateKey;
  }

  lemma {:induction false} SeeSimulates(x: Context, r: Ref, filled: seq<Filled>)
    requires Simulates(x, r)
    ensures Simulates(x.(stack := ReadsStored(x.stack, filled)), See(r, filled))
    ensures See(r, filled).queries == r.queries
  {
    if filled != [] {
      var n := |filled| - 1;
      SeeSimulates(x, r, filled[..n]);
      StoreSimulates(x.(stack := ReadsStored(x.stack, filled[..n])), See(r, filled[..n]), Reads,
        filled[n].request.contract, StateKey(filled[n].request), filled[n].value);
    }
    hide Simulates, StoreTop;
  }

  lemma AskSimulates(x: Context, r: Ref, q: Query)
    requires Simulates(x, r)
    ensures Simulates(x.(queries := x.queries + [q]), r.(queries := r.queries + [q]))
  {
  }

  /** A batch read finds, asks, records and returns what it does on the flat maps. */
  lemma GetKeysSimulates(env: Env, x: Context, r: Ref, keys: seq<BatchKey>)
    requires Simulates(x, r)
    ensures var (x', o) := GetKeysStep(env, x, keys);
      var (r', o') := GetKeysRef(env, r, keys);
      o == o' && Simulates(x', r')
  {
    HeldIsPresent(x.stack, Writes, r.own, keys);
    HeldIsPresent(x.stack, Reads, r.seen, Missing(x.stack, Writes, keys));
    var written, unread := Present(x.stack, Writes, keys), Unread(x.stack, keys);
    SeeSimulates(x, r, written);
    var x1 := x.(stack := StagedStack(env.version, x.stack, keys));
    var r1 := if env.version < V235 then See(r, written) else r;
    var answer := env.snapshotKeys(|x.queries|, unread);
    AskSimulates(x1, r1, BatchQuery(unread, answer));
    if answer.Some? {
      SeeSimulates(x1.(queries := x.queries + [BatchQuery(unread, answer)]),
        r1.(queries := r.queries + [BatchQuery(unread, answer)]), BatchStores(env.version, answer.value));
    }
    hide ReadsStored, See, Present, Missing, Held, NotHeld, BatchStores, Returned;
  }

  lemma EnterSimulates(x: Context, r: Ref)
    requires Simulates(x, r)
    ensures Simulates(x.(stack := x.stack + [map[]]), r.(touched := {}, depth := r.depth + 1))
  {
    forall side, c, k ensures Lookup(x.stack + [map[]], side, c, k) == Lookup(x.stack, side, c, k) {
      LookupEmptyTop(x.stack, side, c, k);
    }
  }

  lemma LeaveSimulates(version: nat, code: nat, x: Context, r: Ref, x': Context, r': Ref)
    requires Simulates(x, r) && Simulates(x', r')
    requires |x'.stack| == |x.stack| + 1 && Below(x'.stack) == x.stack && x'.types == x.types
    ensures Simulates(x'.(stack := Leave(version, code, x'.stack)), LeaveRef(version, code, r, r'))
  {
    forall side, c, k
      ensures Lookup(Commit(x'.stack), side, c, k) == Lookup(x'.stack, side, c, k)
    {
      CommitKeepsLookups(x'.stack, side, c, k);
    }
    forall side, c, k
      ensures Lookup(Rollback(x'.stack), side, c, k)
           == if side == Writes && c in Top(x.stack) then Lookup(x.stack, side, c, k) else Lookup(x'.stack, side, c, k)
    {
      RollbackLookup(x'.stack, side, c, k);
    }
    var own' := LeaveRef(version, code, r, r').own;
    forall c, k ensures Lookup(Leave(version, code, x'.stack), Writes, c, k) == Fetch(own', c, k) {
      assert Lookup(x.stack, Writes, c, k) == Fetch(r.own, c, k);
      assert Lookup(x'.stack, Writes, c, k) == Fetch(r'.own, c, k);
    }
  }

  /** Every observation of a run, its answer and its snapshot queries are the reference's. */
  lemma {:induction false} ExecSimulates(env: Env, x: Context, r: Ref, h: History, p: Program)
    requires Simulates(x, r)
    ensures var o := Exec(env, x, h, p);
      var o' := ExecRef(env, r, h, p);
      o.trace == o'.trace && o.answer == o'.answer && Simulates(o.ctx, o'.ref)
    decreases p, 0
  {
    match p
    case Return(code, result) =>
    case Branch(test, yes, no) =>
      ExecSimulates(env, x, r, h, if test(h) then yes else no);
    case Get(c, k, next) =>
      GetSimulates(env, x, r, c(h), k(h));
      var (x', o) := GetStep(env, x, c(h), k(h));
      ExecSimulates(env, x', GetRef(env, r, c(h), k(h)).0, h + [o], next);
    case GetBatch(keys, next) =>
      GetKeysSimulates(env, x, r, keys(h));
      var (x', o) := GetKeysStep(env, x, keys(h));
      ExecSimulates(env, x', GetKeysRef(env, r, keys(h)).0, h + [o], next);
    case Put(c, k, v, next) =>
      StoreSimulates(x, r, Writes, c(h), k(h), v(h));
      var (x', o) := PutStep(x, c(h), k(h), v(h));
      ExecSimulates(env, x', PutRef(r, c(h), k(h), v(h)).0, h + [o], next);
    case HasUsed(t, next) =>
      ExecSimulates(env, x, r, h + [Used(UsedBefore(x.types, t(h)))], next);
    case Call(request, body, next) =>
      CallSimulates(env, x, r, h, request(h), body);
      var c := CallStep(env, x, h, request(h), body);
      ExecSimulates(env, c.ctx, CallRef(env, r, h, request(h), body).ref, h + [c.answer], next);
  }

  lemma {:induction false} CallSimulates(env: Env, x: Context, r: Ref, h: History, q: Request, body: Program)
    requires Simulates(x, r)
    ensures var o := CallStep(env, x, h, q, body);
      var o' := CallRef(env, r, h, q, body);
      o.trace == o'.trace && o.answer == o'.answer && Simulates(o.ctx, o'.ref)
    decreases body, 2
  {
    assert |x.stack| == r.depth + 1;
    hide Simulates, Preflight, WithByteCode, Programs.RunContract, RunContractRef, Leave, LeaveRef;
    if Preflight(env, |x.stack|, q).None? {
      var x1, r1 := x.(stack := x.stack + [map[]]), r.(touched := {}, depth := r.depth + 1);
      EnterSimulates(x, r);
      RunContractSimulates(env, x1, r1, h, WithByteCode(env, q), body);
      var inner := RunContract(env, x1, h, WithByteCode(env, q), body);
      assert Below(x1.stack) == x.stack;
      LeaveSimulates(env.version, inner.answer.code, x, r, inner.ctx,
        RunContractRef(env, r1, h, WithByteCode(env, q), body).ref);
    }
  }

  lemma {:induction false} RunContractSimulates(env: Env, x: Context, r: Ref, h: History, q: Request, body: Program)
    requires Simulates(x, r)
    ensures var o := RunContract(env, x, h, q, body);
      var o' := RunContractRef(env, r, h, q, body);
      o.trace == o'.trace && o.status == o'.status && o.answer == o'.answer && Simulates(o.ctx, o'.ref)
    decreases body, 1
  {
    match Admit(env.version, q)
    case Refused(_) =>
    case Admitted(contract) =>
      if Dispatch(env, q, contract).None? {
        ExecSimulates(env, x.(types := x.types + [contract.runtimeType]),
          r.(types := r.types + [contract.runtimeType]), h, body);
      }
  }

  // ---------------------------------------------------------------- whole transactions

  const EMPTY_CONTEXT: Context := Context([map[]], [], [])

  const EMPTY_REF: Ref := Ref(map[], map[], {}, 0, [], [])

  /** A transaction run on a fresh context observes and answers what the flat reference does. */
  lemma TransactionRefines(env: Env, q: Request, p: Program)
    ensures var o := RunContract(env, EMPTY_CONTEXT, [], q, p);
      var o' := RunContractRef(env, EMPTY_REF, [], q, p);
      && o.trace == o'.trace && o.status == o'.status && o.answer == o'.answer
      && o.ctx.queries == o'.ref.queries
      && |o.ctx.stack| == 1
      && (forall c, k :: Lookup(o.ctx.stack, Writes, c, k) == Fetch(o'.ref.own, c, k))
      && (forall c, k :: Lookup(o.ctx.stack, Reads, c, k) == Fetch(o'.ref.seen, c, k))
  {
    RunContractSimulates(env, EMPTY_CONTEXT, EMPTY_REF, [], q, p);
  }
}
