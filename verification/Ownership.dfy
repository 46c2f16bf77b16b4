/** Where a run files its entries: under their own map keys, in the set of their own contract. */
module Ownership {
  import opened ByteStrings
  import opened Keys
  import opened Layers
  import opened BatchReads
  import opened Programs
  import opened Overlays
  import opened RuntimeTypes

  /** The entry is filed under its own map key; with `plain`, its contract's name holds no '#'. */
  predicate FiledEntry(plain: bool, c: Bytes, fk: Bytes, e: Entry) {
    e.contract == c && fk == ConstructKey(c, e.key) && (plain ==> HashFree(c))
  }

  ghost predicate MapFiled(plain: bool, c: Bytes, m: KeyMap) {
    forall fk :: fk in m ==> FiledEntry(plain, c, fk, m[fk])
  }

  ghost predicate LayerFiled(plain: bool, layer: Layer) {
    forall c :: c in layer ==> MapFiled(plain, c, layer[c].readMap) && MapFiled(plain, c, layer[c].writeMap)
  }

  ghost predicate StackFiled(plain: bool, st: Stack) {
    forall d :: 0 <= d < |st| ==> LayerFiled(plain, st[d])
  }

  lemma LayerFiledOwned(layer: Layer, side: Side)
    requires LayerFiled(true, layer)
    ensures Owned(OneSide(layer, side))
  {
    forall c, fk | c in layer && fk in Pick(layer[c], side) ensures OwnedEntry(c, fk, Pick(layer[c], side)[fk]) {
      assert MapFiled(true, c, layer[c].readMap) && MapFiled(true, c, layer[c].writeMap);
      OwnerOfConstructKey(c, Pick(layer[c], side)[fk].key);
      hide Owner, ConstructKey, HashFree;
    }
  }

  lemma StackFiledOwned(st: Stack, side: Side)
    requires StackFiled(true, st)
    ensures AllOwned(Project(st, side))
  {
    hide OwnedEntry, FiledEntry, Pick;
    forall d | 0 <= d < |st| ensures Owned(OneSide(st[d], side)) {
      LayerFiledOwned(st[d], side);
    }
  }

  /** The contract names a program uses hold no '#'. */
  ghost predicate PlainNames(p: Program) {
    match p
    case Return(_, _) => true
    case Branch(_, yes, no) => PlainNames(yes) && PlainNames(no)
    case Get(c, _, next) => (forall h :: HashFree(c(h))) && PlainNames(next)
    case GetBatch(keys, next) => (forall h, b :: b in keys(h) ==> HashFree(b.contract)) && PlainNames(next)
    case Put(c, _, _, next) => (forall h :: HashFree(c(h))) && PlainNames(next)
    case HasUsed(_, next) => PlainNames(next)
    case Call(_, body, next) => PlainNames(body) && PlainNames(next)
  }

  /** A program of plain names, on a snapshot that invents no names when it reads batches. */
  ghost predicate Plain(env: Env, p: Program) {
    PlainNames(p) && (NoBatch(p) || AnswersOnlyAsked(env))
  }

  lemma StoreFiled(plain: bool, st: Stack, side: Side, c: Bytes, k: Bytes, v: Bytes)
    requires st != [] && StackFiled(plain, st) && (plain ==> HashFree(c))
    ensures StackFiled(plain, StoreTop(st, side, c, k, v))
  {
    var st' := StoreTop(st, side, c, k, v);
    assert LayerFiled(plain, Top(st));
    hide HashFree, Owner, ConstructKey;
    var rw, rw' := SetOf(Top(st), c), SetOf(Top(st'), c);
    assert MapFiled(plain, c, rw.readMap) && MapFiled(plain, c, rw.writeMap);
    assert MapFiled(plain, c, rw'.readMap) && MapFiled(plain, c, rw'.writeMap);
    assert LayerFiled(plain, Top(st'));
  }

  lemma {:induction false} ReadsFiled(plain: bool, st: Stack, filled: seq<Filled>)
    requires st != [] && StackFiled(plain, st)
    requires plain ==> forall f :: f in filled ==> HashFree(f.request.contract)
    ensures StackFiled(plain, ReadsStored(st, filled))
  {
    hide StackFiled, HashFree, StoreTop, StateKey;
    if filled != [] {
      var n := |filled| - 1;
      assert filled[n] in filled && forall f :: f in filled[..n] ==> f in filled;
      ReadsFiled(plain, st, filled[..n]);
      StoreFiled(plain, ReadsStored(st, filled[..n]), Reads,
        filled[n].request.contract, StateKey(filled[n].request), filled[n].value);
    }
  }

  lemma {:induction false} PresentAsked(st: Stack, side: Side, keys: seq<BatchKey>, f: Filled)
    requires f in Present(st, side, keys)
    ensures f.request in keys
  {
    hide FindKey;
    var n := |keys| - 1;
    assert keys == keys[..n] + [keys[n]];
    if f in Present(st, side, keys[..n]) {
      PresentAsked(st, side, keys[..n], f);
    }
  }

  lemma GetKeysFiled(plain: bool, env: Env, x: Context, keys: seq<BatchKey>)
    requires x.stack != [] && StackFiled(plain, x.stack)
    requires plain ==> AnswersOnlyAsked(env) && forall b :: b in keys ==> HashFree(b.contract)
    ensures StackFiled(plain, GetKeysStep(env, x, keys).0.stack)
  {
    hide StackFiled, HashFree, ReadsStored, Returned, FromSets, Present, Missing;
    var unread, written := Unread(x.stack, keys), Present(x.stack, Writes, keys);
    forall f | plain && f in written ensures HashFree(f.request.contract) {
      PresentAsked(x.stack, Writes, keys, f);
    }
    ReadsFiled(plain, x.stack, written);
    var answer := env.snapshotKeys(|x.queries|, unread);
    if answer.Some? {
      forall f | plain && f in answer.value ensures HashFree(f.request.contract) {
        MissingAreMissing(x.stack, Reads, Missing(x.stack, Writes, keys), f.request);
        MissingAreMissing(x.stack, Writes, keys, f.request);
      }
      ReadsFiled(plain, StagedStack(env.version, x.stack, keys), BatchStores(env.version, answer.value));
    }
  }

  lemma UnionFiled(plain: bool, c: Bytes, m: KeyMap, m': KeyMap)
    requires MapFiled(plain, c, m) && MapFiled(plain, c, m')
    ensures MapFiled(plain, c, m + m')
  {
    hide FiledEntry;
  }

  lemma LayerLeftFiled(plain: bool, pre: Layer, callee: Layer)
    requires LayerFiled(plain, pre) && LayerFiled(plain, callee)
    ensures LayerFiled(plain, Committed(pre, callee)) && LayerFiled(plain, RolledBack(pre, callee))
  {
    hide MapFiled;
    forall c | c in pre && c in callee
      ensures MapFiled(plain, c, pre[c].readMap + callee[c].readMap)
      ensures MapFiled(plain, c, pre[c].writeMap + callee[c].writeMap)
    {
      UnionFiled(plain, c, pre[c].readMap, callee[c].readMap);
      UnionFiled(plain, c, pre[c].writeMap, callee[c].writeMap);
    }
  }

  lemma LeaveFiled(plain: bool, version: nat, code: nat, st: Stack)
    requires |st| >= 2 && StackFiled(plain, st)
    ensures StackFiled(plain, Leave(version, code, st))
  {
    assert LayerFiled(plain, Top(Below(st))) && LayerFiled(plain, Top(st));
    LayerLeftFiled(plain, Top(Below(st)), Top(st));
    hide LayerFiled, Committed, RolledBack;
  }

  lemma {:induction false} ExecFiled(plain: bool, env: Env, x: Context, h: History, p: Program)
    requires x.stack != [] && StackFiled(plain, x.stack) && (plain ==> Plain(env, p))
    ensures StackFiled(plain, Exec(env, x, h, p).ctx.stack)
    decreases p, 0
  {
    hide StackFiled, HashFree, Preflight, Admit, Dispatch;
    match p
    case Return(_, _) =>
    case Branch(test, yes, no) =>
      ExecFiled(plain, env, x, h, if test(h) then yes else no);
    case Get(c, k, next) =>
      var (x', o) := GetStep(env, x, c(h), k(h));
      GetFiled(plain, env, x, c(h), k(h));
      ExecFiled(plain, env, x', h + [o], next);
    case GetBatch(keys, next) =>
      var (x', o) := GetKeysStep(env, x, keys(h));
      GetKeysFiled(plain, env, x, keys(h));
      ExecFiled(plain, env, x', h + [o], next);
    case Put(c, k, v, next) =>
      StoreFiled(plain, x.stack, Writes, c(h), k(h), v(h));
      var (x', o) := PutStep(x, c(h), k(h), v(h));
      ExecFiled(plain, env, x', h + [o], next);
    case HasUsed(t, next) =>
      ExecFiled(plain, env, x, h + [Used(UsedBefore(x.types, t(h)))], next);
    case Call(request, body, next) =>
      CallFiled(plain, env, x, h, request(h), body);
      var c := CallStep(env, x, h, request(h), body);
      ExecFiled(plain, env, c.ctx, h + [c.answer], next);
  }

  lemma GetFiled(plain: bool, env: Env, x: Context, c: Bytes, k: Bytes)
    requires x.stack != [] && StackFiled(plain, x.stack) && (plain ==> HashFree(c))
    ensures StackFiled(plain, GetStep(env, x, c, k).0.stack)
  {
    hide StackFiled, HashFree;
    match Lookup(x.stack, Writes, c, k)
    case Some(v) =>
      StoreFiled(plain, x.stack, Reads, c, k, v);
    case None =>
      var answer := env.snapshot(|x.queries|, c, k);
      if answer.Some? {
        StoreFiled(plain, x.stack, Reads, c, k, answer.value);
      }
  }

  lemma {:induction false} CallFiled(plain: bool, env: Env, x: Context, h: History, q: Request, body: Program)
    requires x.stack != [] && StackFiled(plain, x.stack) && (plain ==> Plain(env, body))
    ensures StackFiled(plain, CallStep(env, x, h, q, body).ctx.stack)
    decreases body, 2
  {
    var x1 := x.(stack := x.stack + [map[]]);
    assert StackFiled(plain, x1.stack);
    hide StackFiled, Preflight, WithByteCode, Leave, Plain;
    if Preflight(env, |x.stack|, q).None? {
      RunContractFiled(plain, env, x1, h, WithByteCode(env, q), body);
      var inner := Programs.RunContract(env, x1, h, WithByteCode(env, q), body);
      LeaveFiled(plain, env.version, inner.answer.code, inner.ctx.stack);
    }
  }

  lemma {:induction false} RunContractFiled(plain: bool, env: Env, x: Context, h: History, q: Request, body: Program)
    requires x.stack != [] && StackFiled(plain, x.stack) && (plain ==> Plain(env, body))
    ensures StackFiled(plain, Programs.RunContract(env, x, h, q, body).ctx.stack)
    decreases body, 1
  {
    hide StackFiled, Admit, Dispatch, Plain;
    match Admit(env.version, q)
    case Refused(_) =>
    case Admitted(contract) =>
      if Dispatch(env, q, contract).None? {
        ExecFiled(plain, env, x.(types := x.types + [contract.runtimeType]), h, body);
      }
  }
}
