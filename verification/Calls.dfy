/** When a cross-contract call runs the contract, and what a refused call leaves behind. */
module Calls {
  import opened ByteStrings
  import opened Layers
  import opened BlockVersions
  import opened Programs

  // ---------------------------------------------------------------- the conditions, over the request alone

  /** The contract a request names, once it is looked up. */
  function Resolved(q: Request): Contract
    requires q.contract.hasVersion || q.storedContract.Some?
  {
    if q.contract.hasVersion then q.contract else q.storedContract.value
  }

  /** A contract called without byte code has it fetched from the store, unless its runtime is one of the Go ones. */
  predicate StoreIsAsked(env: Env, q: Request) {
    !q.hasByteCode && q.contract.runtimeType != env.dockerGo && q.contract.runtimeType != env.go
  }

  predicate StoreFails(env: Env, q: Request) {
    StoreIsAsked(env, q) && q.storedHasByteCode == None
  }

  /** Calls are at most five deep, within the gas limit, authorized, and the store answers when it is asked. */
  predicate MayCall(env: Env, depth: nat, q: Request) {
    depth <= 5 && q.gasUsed <= 10000000000 && !StoreFails(env, q) && (env.version >= V2310 ==> q.authorized)
  }

  predicate Known(q: Request) {
    q.contract.name != [] && (q.contract.hasVersion || q.storedContract.Some?)
  }

  /** A frozen contract is refused, but from 2.3.1 on it may be upgraded. */
  predicate FrozenOut(version: nat, q: Request)
    requires Known(q)
  {
    Resolved(q).status == Frozen && !(version >= V2310 && q.methodIsUpgrade)
  }

  /** The contract is named, known, not frozen out, and not revoked. */
  predicate MayEnter(version: nat, q: Request) {
    Known(q) && !FrozenOut(version, q) && Resolved(q).status != Revoked
  }

  /** The byte code a call has in the end: the caller's, or the store's. */
  predicate HasCode(env: Env, q: Request) {
    q.hasByteCode || (StoreIsAsked(env, q) && q.storedHasByteCode == Some(true))
  }

  predicate NeedsCode(env: Env, contract: Contract) {
    contract.runtimeType != env.dockerGo && contract.runtimeType != env.go && contract.runtimeType != env.dockerJava
  }

  /**
   * A native contract needs a method; a user contract needs byte code, unless its runtime carries none, and a
   * runtime that makes an instance.
   */
  predicate MayStart(env: Env, q: Request, contract: Contract, hasCode: bool) {
    if q.isNative then !q.methodEmpty
    else q.isUserContract && q.startup.Starts? && (NeedsCode(env, contract) ==> hasCode)
  }

  predicate MayRun(env: Env, q: Request, hasCode: bool) {
    MayEnter(env.version, q) && MayStart(env, q, Resolved(q), hasCode)
  }

  lemma GatesIff(env: Env, depth: nat, q: Request, contract: Contract)
    ensures Preflight(env, depth, q).None? <==> MayCall(env, depth, q)
    ensures Admit(env.version, q).Admitted? <==> MayEnter(env.version, q)
    ensures MayEnter(env.version, q) ==> Admit(env.version, q).contract == Resolved(q)
    ensures Dispatch(env, q, contract).None? <==> MayStart(env, q, contract, q.hasByteCode)
  {
  }

  /** What a call hands on to RunContract is its own request, with byte code if there is any. */
  lemma HandedOn(env: Env, depth: nat, q: Request)
    requires MayCall(env, depth, q)
    ensures WithByteCode(env, q) == q.(hasByteCode := HasCode(env, q))
  {
  }

  /** A layer in which nothing happened leaves no trace, whatever the code it is left with. */
  lemma EmptyLayerLeaves(version: nat, code: nat, st: Stack)
    requires st != []
    ensures Leave(version, code, st + [map[]]) == st
  {
    var st' := st + [map[]];
    assert Below(st') == st && Top(st') == map[];
    assert Committed(Top(st), map[]) == Top(st) && RolledBack(Top(st), map[]) == Top(st);
    assert st == Below(st) + [Top(st)];
  }

  // ---------------------------------------------------------------- RunContract

  /** A contract that may not run changes nothing: layers, runtime types and questions asked stay as they were. */
  lemma RefusedRunChangesNothing(env: Env, x: Context, h: History, q: Request, body: Program)
    requires x.stack != [] && !MayRun(env, q, q.hasByteCode)
    ensures var o := RunContract(env, x, h, q, body);
      o.ctx == x && o.trace == [] && o.status != Success && o.status != ContractFail && o.answer == CallResult(1, [])
  {
    if MayEnter(env.version, q) {
      GatesIff(env, 0, q, Resolved(q));
    } else {
      GatesIff(env, 0, q, q.contract);
    }
  }

  /** A contract that may run does: its code alone decides what is observed, and the status follows its code. */
  lemma AllowedRunRuns(env: Env, x: Context, h: History, q: Request, body: Program)
    requires x.stack != [] && MayRun(env, q, q.hasByteCode)
    ensures var o, inner := RunContract(env, x, h, q, body),
        Exec(env, x.(types := x.types + [Resolved(q).runtimeType]), h, body);
      && o.ctx == inner.ctx.(types := x.types) && o.trace == inner.trace && o.answer == inner.answer
      && o.status == if inner.answer.code == 0 then Success else ContractFail
  {
    GatesIff(env, 0, q, Resolved(q));
    hide Admit, Dispatch, MayEnter, MayStart;
  }

  /** Which status a refused run gives, in the order of the checks. */
  ghost predicate StatusFits(env: Env, q: Request, hasCode: bool, status: Status) {
    && (status == BadContractName <==> !Known(q))
    && (status == ContractFrozen <==> Known(q) && FrozenOut(env.version, q))
    && (status == ContractRevoked <==> Known(q) && Resolved(q).status == Revoked)
    && (status == BadMethod <==> MayEnter(env.version, q) && q.isNative && q.methodEmpty)
    && (status == BadTxType <==> MayEnter(env.version, q) && !q.isNative && !q.isUserContract)
    && (status == NoByteCode <==>
          && MayEnter(env.version, q) && !q.isNative && q.isUserContract
          && NeedsCode(env, Resolved(q)) && !hasCode)
    && (status == NoRuntime <==>
          && MayEnter(env.version, q) && !q.isNative && q.isUserContract
          && (NeedsCode(env, Resolved(q)) ==> hasCode) && q.startup == RuntimeMissing)
    && (status == NoInstance <==>
          && MayEnter(env.version, q) && !q.isNative && q.isUserContract
          && (NeedsCode(env, Resolved(q)) ==> hasCode) && q.startup == InstanceFails)
    && (status == Success || status == ContractFail <==> MayRun(env, q, hasCode))
    && status != TooDeep
  }

  /** Every status a run can give, each exactly when the request calls for it. */
  lemma RunStatus(env: Env, x: Context, h: History, q: Request, body: Program)
    requires x.stack != []
    ensures StatusFits(env, q, q.hasByteCode, RunContract(env, x, h, q, body).status)
  {
    if MayRun(env, q, q.hasByteCode) {
      AllowedRunRuns(env, x, h, q, body);
    } else {
      RefusedStatus(env, x, h, q, body);
      RefusedRunChangesNothing(env, x, h, q, body);
    }
    hide RunContract, Exec;
  }

  lemma RefusedStatus(env: Env, x: Context, h: History, q: Request, body: Program)
    requires x.stack != [] && !MayRun(env, q, q.hasByteCode)
    ensures StatusFits(env, q, q.hasByteCode, RunContract(env, x, h, q, body).status)
  {
    if Known(q) {
      GatesIff(env, 0, q, Resolved(q));
    }
    hide Exec;
  }

  // ---------------------------------------------------------------- CallContract

  predicate CallRuns(env: Env, depth: nat, q: Request) {
    MayCall(env, depth, q) && MayRun(env, q, HasCode(env, q))
  }

  /** A call that is refused, by CallContract or by RunContract, leaves the context exactly as it was. */
  lemma RefusedCallChangesNothing(env: Env, x: Context, h: History, q: Request, body: Program)
    requires x.stack != [] && !CallRuns(env, |x.stack|, q)
    ensures var o := CallStep(env, x, h, q, body);
      && o.ctx == x && o.trace == [] && o.answer.Called? && o.answer.status != Success
      && (o.answer.answer == None || o.answer.answer == Some(CallResult(1, [])))
  {
    GatesIff(env, |x.stack|, q, q.contract);
    if MayCall(env, |x.stack|, q) {
      var x1 := x.(stack := x.stack + [map[]]);
      HandedOn(env, |x.stack|, q);
      SameRequest(env, q, HasCode(env, q));
      RefusedRunChangesNothing(env, x1, h, WithByteCode(env, q), body);
      EmptyLayerLeaves(env.version, 1, x.stack);
      hide Preflight, MayCall, MayRun, RunContract, Leave, WithByteCode;
    }
  }

  /** Byte code apart, the conditions of a run are those of the request handed on. */
  lemma SameRequest(env: Env, q: Request, hasCode: bool)
    ensures var q' := q.(hasByteCode := hasCode);
      && (MayRun(env, q', q'.hasByteCode) <==> MayRun(env, q, hasCode))
      && (Known(q') <==> Known(q)) && (Known(q) ==> Resolved(q') == Resolved(q))
  {
  }

  lemma SameStatus(env: Env, q: Request, hasCode: bool, status: Status)
    requires StatusFits(env, q.(hasByteCode := hasCode), hasCode, status)
    ensures StatusFits(env, q, hasCode, status)
  {
  }

  /** Every other call runs the contract in a fresh layer, its runtime type recorded, and leaves it by its code. */
  lemma AllowedCallRuns(env: Env, x: Context, h: History, q: Request, body: Program)
    requires x.stack != [] && CallRuns(env, |x.stack|, q)
    ensures var o, inner := CallStep(env, x, h, q, body),
        Exec(env, x.(stack := x.stack + [map[]], types := x.types + [Resolved(q).runtimeType]), h, body);
      && o.trace == inner.trace && o.ctx.queries == inner.ctx.queries && o.ctx.types == x.types
      && o.ctx.stack == Leave(env.version, inner.answer.code, inner.ctx.stack)
      && o.answer == Called(if inner.answer.code == 0 then Success else ContractFail, Some(inner.answer))
  {
    GatesIff(env, |x.stack|, q, q.contract);
    HandedOn(env, |x.stack|, q);
    SameRequest(env, q, HasCode(env, q));
    AllowedRunRuns(env, x.(stack := x.stack + [map[]]), h, WithByteCode(env, q), body);
    hide Preflight, MayCall, MayRun, Leave, WithByteCode, Exec, RunContract;
  }

  /**
   * What a call that runs leaves of the lookups: from 2.3.0 on, after a code other than 0, the caller's own writes to
   * contracts of its layer; all else as the callee left it.
   */
  lemma AllowedCallLookups(env: Env, x: Context, h: History, q: Request, body: Program, side: Side, c: Bytes, k: Bytes)
    requires x.stack != [] && CallRuns(env, |x.stack|, q)
    ensures var o, inner := CallStep(env, x, h, q, body),
        Exec(env, x.(stack := x.stack + [map[]], types := x.types + [Resolved(q).runtimeType]), h, body);
      Lookup(o.ctx.stack, side, c, k)
        == if inner.answer.code != 0 && env.version >= 2300 && side == Writes && c in Top(x.stack)
           then Lookup(x.stack, side, c, k)
           else Lookup(inner.ctx.stack, side, c, k)
  {
    AllowedCallRuns(env, x, h, q, body);
    var inner :=
      Exec(env, x.(stack := x.stack + [map[]], types := x.types + [Resolved(q).runtimeType]), h, body);
    assert Below(x.stack + [map[]]) == x.stack;
    CommitKeepsLookups(inner.ctx.stack, side, c, k);
    RollbackLookup(inner.ctx.stack, side, c, k);
    hide CallStep, Exec, Lookup, Commit, Rollback, CallRuns;
  }

  /** The statuses of calls: the depth, CallContract's own exits, and those of RunContract behind them. */
  lemma CallStatus(env: Env, x: Context, h: History, q: Request, body: Program)
    requires x.stack != []
    ensures var a, depth := CallStep(env, x, h, q, body).answer, |x.stack|;
      && a.Called?
      && (a.status == TooDeep <==> depth > 5)
      && (a.answer == None <==> depth <= 5 && q.gasUsed <= 10000000000 && StoreFails(env, q))
      && (!MayCall(env, depth, q) && depth <= 5 ==> a.status == ContractFail)
      && (!CallRuns(env, depth, q) && a.answer != None ==> a.answer == Some(CallResult(1, [])))
      && (MayCall(env, depth, q) ==> StatusFits(env, q, HasCode(env, q), a.status))
  {
    if MayCall(env, |x.stack|, q) {
      HandedOnStatus(env, x, h, q, body);
    } else {
      NotHandedOn(env, x, h, q, body);
    }
    if !CallRuns(env, |x.stack|, q) {
      RefusedCallChangesNothing(env, x, h, q, body);
    }
    hide CallStep;
  }

  lemma NotHandedOn(env: Env, x: Context, h: History, q: Request, body: Program)
    requires x.stack != [] && !MayCall(env, |x.stack|, q)
    ensures var a := CallStep(env, x, h, q, body).answer;
      && a.Called? && (a.status == TooDeep <==> |x.stack| > 5) && (|x.stack| <= 5 ==> a.status == ContractFail)
      && (a.answer == None <==> |x.stack| <= 5 && q.gasUsed <= 10000000000 && StoreFails(env, q))
  {
    hide RunContract, WithByteCode, Leave;
  }

  lemma HandedOnStatus(env: Env, x: Context, h: History, q: Request, body: Program)
    requires x.stack != [] && MayCall(env, |x.stack|, q)
    ensures var a := CallStep(env, x, h, q, body).answer;
      a.Called? && a.answer.Some? && StatusFits(env, q, HasCode(env, q), a.status)
  {
    var x1 := x.(stack := x.stack + [map[]]);
    GatesIff(env, |x.stack|, q, q.contract);
    HandedOn(env, |x.stack|, q);
    RunStatus(env, x1, h, WithByteCode(env, q), body);
    SameStatus(env, q, HasCode(env, q), RunContract(env, x1, h, WithByteCode(env, q), body).status);
    hide StatusFits, RunContract, WithByteCode, Preflight, MayCall, Leave;
  }

  // ---------------------------------------------------------------- byte code

  /** The call ran its contract: the outcome is that of the contract's own code in a fresh layer. */
  ghost predicate RanContract(env: Env, x: Context, h: History, q: Request, body: Program)
    requires x.stack != []
  {
    && (q.contract.hasVersion || q.storedContract.Some?)
    && var inner := Exec(env, x.(stack := x.stack + [map[]], types := x.types + [Resolved(q).runtimeType]), h, body);
       CallStep(env, x, h, q, body).answer
         == Called(if inner.answer.code == 0 then Success else ContractFail, Some(inner.answer))
  }

  /**
   * A call without byte code of a user contract whose runtime needs it, all else in order, runs the contract if and
   * only if the store has byte code for it.
   */
  lemma CodeFromStoreIff(env: Env, x: Context, h: History, q: Request, body: Program)
    requires x.stack != [] && |x.stack| <= 5 && q.gasUsed <= 10000000000 && (env.version >= V2310 ==> q.authorized)
    requires MayEnter(env.version, q) && !q.isNative && q.isUserContract && q.startup.Starts?
    requires NeedsCode(env, q.contract) && NeedsCode(env, Resolved(q)) && !q.hasByteCode
    ensures RanContract(env, x, h, q, body) <==> q.storedHasByteCode == Some(true)
  {
    CallStatus(env, x, h, q, body);
    if q.storedHasByteCode == Some(true) {
      AllowedCallRuns(env, x, h, q, body);
    }
    hide CallStep, Exec;
  }

  /** A call that brings byte code runs without it, whatever the store would have answered. */
  lemma OwnCodeSuffices(env: Env, x: Context, h: History, q: Request, stored: Option<bool>, body: Program)
    requires x.stack != [] && |x.stack| <= 5 && q.gasUsed <= 10000000000 && (env.version >= V2310 ==> q.authorized)
    requires MayEnter(env.version, q) && !q.isNative && q.isUserContract && q.startup.Starts? && q.hasByteCode
    ensures RanContract(env, x, h, q.(storedHasByteCode := stored), body)
  {
    AllowedCallRuns(env, x, h, q.(storedHasByteCode := stored), body);
    hide CallStep, Exec;
  }
}
