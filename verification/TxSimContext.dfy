/** The transaction simulation context: the object the runtimes read and write state through. */
module TxSimContexts {
  import opened ByteStrings
  import opened Keys
  import opened Layers
  import opened BlockVersions
  import opened BatchReads
  import opened Programs
  import opened RuntimeTypes
  import opened Reference
  import Calls
  import CC = CallContext

  const DEPTHS: nat := CALL_CONTRACT_DEPTH + 1

  /** One contract's read and write maps at one call depth. */
  class RwSet {
    var readMap: KeyMap
    var writeMap: KeyMap

    constructor ()
      ensures readMap == map[] && writeMap == map[]
    {
      readMap, writeMap := map[], map[];
    }

    ghost function View(): RW
      reads this
    {
      RW(readMap, writeMap)
    }

    method Insert(side: Side, contract: Bytes, key: Bytes, value: Bytes)
      modifies this
      ensures View() == StoreEntry(old(View()), side, contract, key, value)
    {
      var fk, entry := ConstructKey(contract, key), Entry(contract, key, value);
      match side {
        case Reads => readMap := readMap[fk := entry];
        case Writes => writeMap := writeMap[fk := entry];
      }
    }
  }

  /** Merging src into dst, as mergeTxReadSet and mergeTxWriteSet do: every key of src wins. */
  method MergeInto(dst: KeyMap, src: KeyMap) returns (merged: KeyMap)
    ensures merged == dst + src
  {
    merged := dst;
    var keys := src.Keys;
    while keys != {}
      invariant keys <= src.Keys
      invariant forall k :: k in merged <==> k in dst || (k in src && k !in keys)
      invariant forall k :: k in merged ==> merged[k] == if k in src && k !in keys then src[k] else dst[k]
      decreases keys
    {
      var key :| key in keys;
      merged := merged[key := src[key]];
      keys := keys - {key};
    }
  }

  // ---------------------------------------------------------------- where the sets are filed

  type HeapLayer = map<Bytes, RwSet>

  /** What a set object holds, and the one place it is filed. */
  datatype Slot = Slot(view: RW, depth: nat, contract: Bytes)

  type Shelf = map<RwSet, Slot>

  ghost predicate Shows(layer: HeapLayer, depth: nat, shelf: Shelf, view: Layer) {
    && layer.Keys == view.Keys
    && forall c :: c in layer ==> layer[c] in shelf && shelf[layer[c]] == Slot(view[c], depth, c)
  }

  /** The layers up to the top of the stack show it, the deeper ones are empty. */
  ghost predicate Filed(layers: seq<HeapLayer>, shelf: Shelf, stack: Stack) {
    && |layers| == DEPTHS
    && 1 <= |stack| <= DEPTHS
    && (forall d :: 0 <= d < |stack| ==> Shows(layers[d], d, shelf, stack[d]))
    && (forall d :: |stack| <= d < DEPTHS ==> layers[d] == map[])
  }

  lemma FiledKeys(layers: seq<HeapLayer>, shelf: Shelf, stack: Stack, depth: nat)
    requires Filed(layers, shelf, stack) && depth < |stack|
    ensures |layers| == DEPTHS && layers[depth].Keys == stack[depth].Keys
  {
    assert Shows(layers[depth], depth, shelf, stack[depth]);
  }

  /** Changing what one filed set holds changes that entry of the stack and nothing else. */
  lemma FiledChange(layers: seq<HeapLayer>, shelf: Shelf, stack: Stack, depth: nat, c: Bytes, view: RW)
    requires Filed(layers, shelf, stack) && depth < |stack| && c in layers[depth]
    ensures Shows(layers[depth], depth, shelf, stack[depth])
    ensures Filed(layers, shelf[layers[depth][c] := Slot(view, depth, c)], stack[depth := stack[depth][c := view]])
  {
    var shelf', stack' := shelf[layers[depth][c] := Slot(view, depth, c)], stack[depth := stack[depth][c := view]];
    forall d | 0 <= d < |stack| ensures Shows(layers[d], d, shelf', stack'[d]) {
      assert Shows(layers[d], d, shelf, stack[d]);
    }
  }

  /** Filing a set that was filed nowhere. */
  lemma FiledAdd(layers: seq<HeapLayer>, shelf: Shelf, stack: Stack, depth: nat, c: Bytes, rw: RwSet, view: RW)
    requires Filed(layers, shelf, stack) && depth < |stack| && c !in layers[depth]
    requires rw !in shelf
    ensures Filed(layers[depth := layers[depth][c := rw]], shelf[rw := Slot(view, depth, c)],
      stack[depth := stack[depth][c := view]])
  {
    var layers' := layers[depth := layers[depth][c := rw]];
    var shelf', stack' := shelf[rw := Slot(view, depth, c)], stack[depth := stack[depth][c := view]];
    forall d | 0 <= d < |stack| ensures Shows(layers'[d], d, shelf', stack'[d]) {
      assert Shows(layers[d], d, shelf, stack[d]);
    }
  }

  /** Removing a set from a layer. */
  lemma FiledRemove(layers: seq<HeapLayer>, shelf: Shelf, stack: Stack, depth: nat, c: Bytes)
    requires Filed(layers, shelf, stack) && depth < |stack| && c in layers[depth]
    ensures Filed(layers[depth := layers[depth] - {c}], shelf - {layers[depth][c]}, stack[depth := stack[depth] - {c}])
  {
    var layers', shelf' := layers[depth := layers[depth] - {c}], shelf - {layers[depth][c]};
    var stack' := stack[depth := stack[depth] - {c}];
    forall d | 0 <= d < |stack| ensures Shows(layers'[d], d, shelf', stack'[d]) {
      assert Shows(layers[d], d, shelf, stack[d]);
      assert Shows(layers[depth], depth, shelf, stack[depth]);
    }
  }

  lemma FiledPush(layers: seq<HeapLayer>, shelf: Shelf, stack: Stack)
    requires Filed(layers, shelf, stack) && |stack| < DEPTHS
    ensures Filed(layers[|stack| := map[]], shelf, stack + [map[]])
  {
    forall d | 0 <= d < |stack| ensures Shows(layers[|stack| := map[]][d], d, shelf, (stack + [map[]])[d]) {
      assert Shows(layers[d], d, shelf, stack[d]);
    }
  }

  lemma FiledPop(layers: seq<HeapLayer>, shelf: Shelf, stack: Stack)
    requires Filed(layers, shelf, stack) && |stack| >= 2 && layers[|stack| - 1] == map[]
    ensures Filed(layers, shelf, Below(stack))
  {
    forall d | 0 <= d < |stack| - 1 ensures Shows(layers[d], d, shelf, Below(stack)[d]) {
      assert Shows(layers[d], d, shelf, stack[d]);
    }
  }

  class TxSimContext {
    const env: Env
    const vmManager: VmManager

    var crossInfo: CC.CrossInfo
    var currentDepth: nat
    var layers: seq<HeapLayer>
    var queries: seq<Query>

    ghost var stack: Stack                  // the layers up to currentDepth, as values
    ghost var types: Types       // the runtime types crossInfo packs
    ghost var shelf: Shelf                  // the set objects in use

    ghost predicate Valid()
      reads this`currentDepth, this`layers, this`stack, this`shelf, shelf.Keys
    {
      && |stack| == currentDepth + 1 <= DEPTHS
      && Filed(layers, shelf, stack)
      && forall rw :: rw in shelf ==> rw.View() == shelf[rw].view
    }

    /** The packed word records the runtime types of the call chain. */
    ghost predicate Recorded()
      reads this`crossInfo, this`types
    {
      |types| <= DEPTHS && crossInfo == CC.Packed(types)
    }

    ghost function Ctx(): Context
      reads this`stack, this`types, this`queries
    {
      Context(stack, types, queries)
    }

    constructor (env: Env, vmManager: VmManager)
      ensures Valid() && Recorded() && this.env == env && this.vmManager == vmManager
      ensures Ctx() == EMPTY_CONTEXT && currentDepth == 0 && crossInfo == CC.CrossInfo(0) && shelf == map[]
    {
      this.env, this.vmManager := env, vmManager;
      crossInfo, currentDepth, queries := CC.CrossInfo(0), 0, [];
      layers := seq(DEPTHS, _ => map[]);
      stack, types, shelf := [map[]], [], map[];
      new;
      CC.NothingPacked();
    }

    // -------------------------------------------------------------- reading and writing

    /** getFromReadSet and getFromWriteSet: the layers are searched from the current depth down. */
    method GetFromSet(side: Side, contract: Bytes, key: Bytes) returns (value: Option<Bytes>)
      requires Valid()
      ensures value == Lookup(stack, side, contract, key)
    {
      var fk := ConstructKey(contract, key);
      var depth := currentDepth as int;
      assert stack[..depth + 1] == stack;
      while depth >= 0
        invariant -1 <= depth <= currentDepth
        invariant Lookup(stack, side, contract, key) == Lookup(stack[..depth + 1], side, contract, key)
      {
        assert Shows(layers[depth], depth, shelf, stack[depth]);
        assert Below(stack[..depth + 1]) == stack[..depth];
        if contract in layers[depth] {
          var rw := layers[depth][contract];
          assert rw.View() == stack[depth][contract];
          var m := match side case Reads => rw.readMap case Writes => rw.writeMap;
          if fk in m {
            return Some(m[fk].value);
          }
        }
        depth := depth - 1;
      }
      return None;
    }

    /** PutIntoReadSet and putIntoWriteSet past its length check: the contract's set is made on demand. */
    method PutIntoSet(side: Side, contract: Bytes, key: Bytes, value: Bytes)
      requires Valid()
      modifies this`layers, this`stack, this`shelf, shelf.Keys
      ensures Valid() && fresh(shelf.Keys - old(shelf.Keys))
      ensures stack == StoreTop(old(stack), side, contract, key, value)
    {
      assert Shows(layers[currentDepth], currentDepth, shelf, stack[currentDepth]);
      StoreInTwoSteps(stack, side, contract, key, value);
      hide Filed, Shows, StoreEntry, StoreTop;
      if contract !in layers[currentDepth] {
        MakeSet(currentDepth, contract);
      }
      InsertFiled(side, currentDepth, contract, key, value);
    }

    method InsertFiled(side: Side, depth: nat, contract: Bytes, key: Bytes, value: Bytes)
      requires Valid() && depth <= currentDepth && contract in layers[depth]
      modifies this`stack, this`shelf, layers[depth][contract]
      ensures Valid() && shelf.Keys == old(shelf.Keys)
      ensures contract in old(stack)[depth]
      ensures stack == old(stack)[depth := old(stack)[depth][contract :=
        StoreEntry(old(stack)[depth][contract], side, contract, key, value)]]
    {
      assert Shows(layers[depth], depth, shelf, stack[depth]);
      var rw := layers[depth][contract];
      assert rw.View() == stack[depth][contract];
      rw.Insert(side, contract, key, value);
      Reshelve(depth, contract, rw.View());
    }

    method MakeSet(depth: nat, contract: Bytes)
      requires Valid() && depth <= currentDepth && contract !in layers[depth]
      modifies this`layers, this`stack, this`shelf
      ensures Valid() && fresh(shelf.Keys - old(shelf.Keys)) && old(shelf.Keys) <= shelf.Keys
      ensures contract in layers[depth]
      ensures stack == old(stack)[depth := old(stack)[depth][contract := RW(map[], map[])]]
    {
      var rw := new RwSet();
      FiledAdd(layers, shelf, stack, depth, contract, rw, RW(map[], map[]));
      layers := layers[depth := layers[depth][contract := rw]];
      shelf := shelf[rw := Slot(RW(map[], map[]), depth, contract)];
      stack := stack[depth := stack[depth][contract := RW(map[], map[])]];
    }

    /** Brings the views up to date after a change to the set of one contract and depth. */
    ghost method Reshelve(depth: nat, contract: Bytes, view: RW)
      requires |stack| == currentDepth + 1 && Filed(layers, shelf, stack)
      requires depth <= currentDepth && contract in layers[depth]
      requires layers[depth][contract].View() == view
      requires forall rw :: rw in shelf && rw != layers[depth][contract] ==> rw.View() == shelf[rw].view
      modifies this`stack, this`shelf
      ensures Valid() && shelf.Keys == old(shelf.Keys)
      ensures stack == old(stack)[depth := old(stack)[depth][contract := view]]
    {
      FiledChange(layers, shelf, stack, depth, contract, view);
      shelf := shelf[layers[depth][contract] := Slot(view, depth, contract)];
      stack := stack[depth := stack[depth][contract := view]];
    }

    method Get(contract: Bytes, key: Bytes) returns (o: Observation)
      requires Valid()
      modifies this`layers, this`stack, this`shelf, this`queries, shelf.Keys
      ensures Valid() && fresh(shelf.Keys - old(shelf.Keys))
      ensures (Ctx(), o) == GetStep(env, old(Ctx()), contract, key)
    {
      hide Filed, Lookup, StoreTop;
      var written := GetFromSet(Writes, contract, key);
      if written.Some? {
        if env.version < V235 {
          PutIntoSet(Reads, contract, key, written.value);
        }
        return Value(written.value);
      }
      var read := GetFromSet(Reads, contract, key);
      if read.Some? {
        return Value(read.value);
      }
      var answer := env.snapshot(|queries|, contract, key);
      queries := queries + [Query(contract, key, answer)];
      if answer.None? {
        return SnapshotError;
      }
      PutIntoSet(Reads, contract, key, answer.value);
      return Value(answer.value);
    }

    // -------------------------------------------------------------- batches

    /** getBatchFromWriteSet; before 2.3.5 what is found also enters the read set. */
    method GetBatchFromWriteSet(keys: seq<BatchKey>) returns (found: seq<Filled>, missing: seq<BatchKey>)
      requires Valid()
      modifies this`layers, this`stack, this`shelf, shelf.Keys
      ensures Valid() && fresh(shelf.Keys - old(shelf.Keys))
      ensures found == Present(old(stack), Writes, keys) && missing == Missing(old(stack), Writes, keys)
      ensures old(stack) != [] && stack == StagedStack(env.version, old(stack), keys)
    {
      found, missing := [], [];
      ghost var st := stack;
      WriteStageStart(env.version, st, keys);
      hide *;
      for i := 0 to |keys|
        invariant Valid() && fresh(shelf.Keys - old(shelf.Keys))
        invariant WriteStage(env.version, st, keys, i, found, missing, stack)
      {
        WriteStageTurn(env.version, st, keys, i, found, missing, stack);
        var value := GetWritten(keys[i]);
        if value.Some? {
          found := found + [Filled(keys[i], value.value)];
        } else {
          missing := missing + [keys[i]];
        }
      }
      WriteStageEnd(env.version, st, keys, found, missing, stack);
    }

    /** The search for one key of a batch, whose own write, if any, enters the read set before 2.3.5. */
    method GetWritten(b: BatchKey) returns (value: Option<Bytes>)
      requires Valid()
      modifies this`layers, this`stack, this`shelf, shelf.Keys
      ensures Valid() && fresh(shelf.Keys - old(shelf.Keys))
      ensures value == Lookup(old(stack), Writes, b.contract, StateKey(b))
      ensures old(stack) != []
      ensures stack == if value.Some? && env.version < V235
        then StoreTop(old(stack), Reads, b.contract, StateKey(b), value.value) else old(stack)
    {
      assert stack != [];
      hide *;
      value := GetFromSet(Writes, b.contract, StateKey(b));
      if value.Some? && env.version < V235 {
        PutIntoSet(Reads, b.contract, StateKey(b), value.value);
      }
    }


    /** getBatchFromReadSet */
    method GetBatchFromReadSet(keys: seq<BatchKey>) returns (found: seq<Filled>, missing: seq<BatchKey>)
      requires Valid()
      ensures found == Present(stack, Reads, keys) && missing == Missing(stack, Reads, keys)
    {
      found, missing := [], [];
      assert keys[..0] == [];
      hide GetKey, Lookup;
      for i := 0 to |keys|
        invariant found == Present(stack, Reads, keys[..i]) && missing == Missing(stack, Reads, keys[..i])
      {
        assert keys[..i + 1][..i] == keys[..i];
        var value := GetFromSet(Reads, keys[i].contract, StateKey(keys[i]));
        if value.Some? {
          found := found + [Filled(keys[i], value.value)];
        } else {
          missing := missing + [keys[i]];
        }
      }
      assert keys[..|keys|] == keys;
    }

    method PutBatchIntoReadSet(results: seq<Filled>)
      requires Valid()
      modifies this`layers, this`stack, this`shelf, shelf.Keys
      ensures Valid() && fresh(shelf.Keys - old(shelf.Keys))
      ensures stack == ReadsStored(old(stack), BatchStores(env.version, results))
    {
      ghost var st := stack;
      StoreStageStart(env.version, st, results);
      hide *;
      for i := 0 to |results|
        invariant Valid() && fresh(shelf.Keys - old(shelf.Keys))
        invariant StoreStage(env.version, st, results, i, stack)
      {
        StoreStageTurn(env.version, st, results, i, stack);
        PutResult(results[i]);
      }
      StoreStageEnd(env.version, st, results, stack);
    }

    /** Up to 2.3.6.1 it is the field that enters the read set, under the bare key. */
    method PutResult(f: Filled)
      requires Valid()
      modifies this`layers, this`stack, this`shelf, shelf.Keys
      ensures Valid() && fresh(shelf.Keys - old(shelf.Keys)) && old(stack) != []
      ensures var b := f.request;
        stack == if env.version > V2361 then StoreTop(old(stack), Reads, b.contract, StateKey(b), f.value)
                 else StoreTop(old(stack), Reads, b.contract, b.key, b.field)
    {
      assert stack != [];
      hide *;
      if env.version > V2361 {
        PutIntoSet(Reads, f.request.contract, StateKey(f.request), f.value);
      } else {
        PutIntoSet(Reads, f.request.contract, f.request.key, f.request.field);
      }
    }

    method GetKeys(keys: seq<BatchKey>) returns (o: Observation)
      requires Valid()
      modifies this`layers, this`stack, this`shelf, this`queries, shelf.Keys
      ensures Valid() && fresh(shelf.Keys - old(shelf.Keys))
      ensures (Ctx(), o) == GetKeysStep(env, old(Ctx()), keys)
    {
      ghost var x := Ctx();
      assert x.stack != [];
      hide *;
      var written, unwritten := GetBatchFromWriteSet(keys);
      o := GetKeysLeft(keys, written, unwritten, x);
    }

    /** The part of GetKeys after the write stage; x is the context before it. */
    method GetKeysLeft(keys: seq<BatchKey>, written: seq<Filled>, unwritten: seq<BatchKey>, ghost x: Context)
      returns (o: Observation)
      requires Valid() && x.stack != [] && Ctx() == x.(stack := StagedStack(env.version, x.stack, keys))
      requires written == Present(x.stack, Writes, keys) && unwritten == Missing(x.stack, Writes, keys)
      modifies this`layers, this`stack, this`shelf, this`queries, shelf.Keys
      ensures Valid() && fresh(shelf.Keys - old(shelf.Keys))
      ensures (Ctx(), o) == GetKeysStep(env, x, keys)
    {
      assert stack == StagedStack(env.version, x.stack, keys) && queries == x.queries && types == x.types;
      hide *;
      if unwritten == [] {
        AllWritten(env, x, keys);
        return Batch(Some(written));
      }
      var read, unread := GetBatchFromReadSet(unwritten);
      if unread == [] {
        AllInSets(env, x, keys);
        return Batch(Some(written + read));
      }
      SomeUnread(env, x, keys);
      var results := AskForKeys(keys, written + read, unread);
      return Batch(results);
    }

    /** The part of GetKeys that asks the snapshot for the keys still unread. */
    method AskForKeys(keys: seq<BatchKey>, found: seq<Filled>, unread: seq<BatchKey>)
      returns (results: Option<seq<Filled>>)
      requires Valid()
      modifies this`layers, this`stack, this`shelf, this`queries, shelf.Keys
      ensures Valid() && fresh(shelf.Keys - old(shelf.Keys)) && old(stack) != []
      ensures var answer := env.snapshotKeys(|old(queries)|, unread);
        && queries == old(queries) + [BatchQuery(unread, answer)]
        && (answer.None? ==> stack == old(stack) && results == None)
        && (answer.Some? ==>
              && stack == ReadsStored(old(stack), BatchStores(env.version, answer.value))
              && results == Returned(env.version, keys, answer.value + found))
    {
      assert stack != [];
      var answer := env.snapshotKeys(|queries|, unread);
      queries := queries + [BatchQuery(unread, answer)];
      if answer.None? {
        return None;
      }
      ghost var gathered := answer.value + found;
      assert Returned(env.version, keys, gathered)
          == if env.version > V2361 then SortedResults(keys, gathered) else Some(gathered);
      hide *;
      PutBatchIntoReadSet(answer.value);
      if env.version > V2361 {
        results := SortBatchKeyResults(keys, answer.value + found);
      } else {
        results := Some(answer.value + found);
      }
    }

    // -------------------------------------------------------------- reads for the framework, and writes

    method GetNoRecord(contract: Bytes, key: Bytes) returns (value: Option<Bytes>)
      requires Valid()
      ensures value == NoRecordStep(env, Ctx(), contract, key)
    {
      value := GetFromSet(Writes, contract, key);
      if value.None? {
        value := env.snapshot(|queries|, contract, key);
      }
    }

    /** Del is Put of the empty value. */
    method Put(contract: Bytes, key: Bytes, value: Bytes) returns (o: Observation)
      requires Valid()
      modifies this`layers, this`stack, this`shelf, shelf.Keys
      ensures Valid() && fresh(shelf.Keys - old(shelf.Keys))
      ensures (Ctx(), o) == PutStep(old(Ctx()), contract, key, value)
    {
      if |key| > MAX_WRITE_KEY_LEN {
        return KeyTooLong;
      }
      PutIntoSet(Writes, contract, key, value);
      return Written;
    }

    // -------------------------------------------------------------- leaving a call

    /** Takes a contract's set out of the current layer. */
    method TakeSet(contract: Bytes) returns (rw: RwSet)
      requires Valid() && contract in layers[currentDepth]
      modifies this`layers, this`stack, this`shelf
      ensures Valid() && shelf == old(shelf) - {rw} && rw in old(shelf)
      ensures contract in Top(old(stack)) && rw.View() == Top(old(stack))[contract]
      ensures layers == old(layers)[currentDepth := old(layers)[currentDepth] - {contract}]
      ensures stack == old(stack)[currentDepth := old(stack)[currentDepth] - {contract}]
    {
      assert Shows(layers[currentDepth], currentDepth, shelf, stack[currentDepth]);
      rw := layers[currentDepth][contract];
      FiledRemove(layers, shelf, stack, currentDepth, contract);
      hide Filed, Shows;
      layers := layers[currentDepth := layers[currentDepth] - {contract}];
      shelf := shelf - {rw};
      stack := stack[currentDepth := stack[currentDepth] - {contract}];
    }

    /** Files a set in a layer that has none for the contract: the pointer moves, the set is not copied. */
    method FileSet(depth: nat, contract: Bytes, rw: RwSet)
      requires Valid() && depth <= currentDepth && contract !in layers[depth] && rw !in shelf
      modifies this`layers, this`stack, this`shelf
      ensures Valid() && shelf.Keys == old(shelf.Keys) + {rw}
      ensures stack == old(stack)[depth := old(stack)[depth][contract := rw.View()]]
    {
      FiledAdd(layers, shelf, stack, depth, contract, rw, rw.View());
      hide Filed, Shows;
      layers := layers[depth := layers[depth][contract := rw]];
      shelf := shelf[rw := Slot(rw.View(), depth, contract)];
      stack := stack[depth := stack[depth][contract := rw.View()]];
    }

    /** Merges a set that is filed nowhere into the filed one, in place. */
    method MergeSet(depth: nat, contract: Bytes, rw: RwSet, withWrites: bool)
      requires Valid() && depth <= currentDepth && contract in layers[depth] && rw !in shelf
      modifies this`stack, this`shelf, layers[depth][contract]
      ensures Valid() && shelf.Keys == old(shelf.Keys)
      ensures contract in old(stack)[depth]
      ensures stack == old(stack)[depth := old(stack)[depth][contract :=
        Merged(old(stack)[depth], contract, rw.View(), withWrites)]]
    {
      assert Shows(layers[depth], depth, shelf, stack[depth]);
      var preSet := layers[depth][contract];
      assert preSet.View() == stack[depth][contract];
      preSet.readMap := MergeInto(preSet.readMap, rw.readMap);
      if withWrites {
        preSet.writeMap := MergeInto(preSet.writeMap, rw.writeMap);
      }
      hide Filed, Shows;
      Reshelve(depth, contract, preSet.View());
    }

    /** One turn of the commit and rollback loops: a contract's set goes to the caller's layer. */
    method MoveUp(contract: Bytes, withWrites: bool)
      requires Valid() && currentDepth >= 1 && contract in Top(stack)
      modifies this`layers, this`stack, this`shelf, shelf.Keys
      ensures Valid() && shelf.Keys <= old(shelf.Keys)
      ensures stack == MovedUp(old(stack), contract, withWrites)
    {
      FiledKeys(layers, shelf, stack, currentDepth);
      MovedUpInOrder(stack, contract, withWrites);
      assert |stack| == currentDepth + 1;
      assert TakenOut(stack, contract) == stack[currentDepth := stack[currentDepth] - {contract}];
      hide *;
      var rw := TakeSet(contract);
      PutSet(currentDepth - 1, contract, rw, withWrites);
    }

    /** A set that is filed nowhere goes to a layer, or is merged into the one there. */
    method PutSet(depth: nat, contract: Bytes, rw: RwSet, withWrites: bool)
      requires Valid() && depth <= currentDepth && rw !in shelf
      modifies this`layers, this`stack, this`shelf, shelf.Keys
      ensures Valid() && shelf.Keys <= old(shelf.Keys) + {rw} && depth < |old(stack)|
      ensures stack == old(stack)[depth := old(stack)[depth][contract :=
        Merged(old(stack)[depth], contract, old(rw.View()), withWrites)]]
    {
      FiledKeys(layers, shelf, stack, depth);
      if contract !in layers[depth] {
        hide Filed, Shows;
        FileSet(depth, contract, rw);
      } else {
        assert layers[depth][contract] in shelf.Keys by {
          assert Shows(layers[depth], depth, shelf, stack[depth]);
        }
        hide Filed, Shows, Merged;
        MergeSet(depth, contract, rw, withWrites);
      }
    }

    /** commitRWSetToPreDepth, and with withWrites false commitRSetAndRollbackWSet. */
    method MoveAllUp(withWrites: bool)
      requires Valid() && currentDepth >= 1
      modifies this`layers, this`stack, this`shelf, shelf.Keys
      ensures Valid() && shelf.Keys <= old(shelf.Keys)
      ensures layers[currentDepth] == map[]
      ensures Ctx() == old(Ctx()).(stack := AllMovedUp(old(stack), {}, withWrites))
      ensures currentDepth == old(currentDepth) && crossInfo == old(crossInfo)
    {
      assert Shows(layers[currentDepth], currentDepth, shelf, stack[currentDepth]);
      var names := layers[currentDepth].Keys;
      AllMovedUpStart(stack, withWrites);
      while names != {}
        invariant Valid() && shelf.Keys <= old(shelf.Keys)
        invariant names <= Top(old(stack)).Keys
        invariant stack == AllMovedUp(old(stack), names, withWrites)
        decreases names
      {
        var contract :| contract in names;
        AllMovedUpStep(old(stack), names, contract, withWrites);
        MoveUp(contract, withWrites);
        names := names - {contract};
      }
      assert Shows(layers[currentDepth], currentDepth, shelf, stack[currentDepth]);
    }

    // -------------------------------------------------------------- cross-contract calls

    method RecordRuntimeTypeIntoCrossInfo(runtimeType: RuntimeType)
      requires Recorded() && |types| < DEPTHS
      modifies this`crossInfo, this`types
      ensures Recorded() && Ctx() == old(Ctx()).(types := old(types) + [runtimeType])
      ensures old(Valid()) ==> Valid()
    {
      hide CC.Packed;
      crossInfo := WithType(crossInfo, runtimeType, types);
      types := types + [runtimeType];
    }

    method WithType(crossInfo: CC.CrossInfo, runtimeType: RuntimeType, ghost types: Types) returns (added: CC.CrossInfo)
      requires |types| < DEPTHS && crossInfo == CC.Packed(types)
      ensures added == CC.Packed(types + [runtimeType])
    {
      CC.AddIsPush(types, runtimeType);
      hide CC.Pack, CC.AddWord;
      var callContractCtx := new CC.CallContractContext(crossInfo.bits);
      callContractCtx.AddLayer(runtimeType);
      added := CC.CrossInfo(callContractCtx.ctxBitmap);
    }

    method RemoveRuntimeTypeFromCrossInfo()
      requires Recorded() && types != []
      modifies this`crossInfo, this`types
      ensures Recorded() && Ctx() == old(Ctx()).(types := old(types)[..|old(types)| - 1])
      ensures old(Valid()) ==> Valid()
    {
      hide CC.Packed;
      crossInfo := WithoutLatest(crossInfo, types);
      types := types[..|types| - 1];
    }

    method WithoutLatest(crossInfo: CC.CrossInfo, ghost types: Types) returns (cleared: CC.CrossInfo)
      requires 0 < |types| <= DEPTHS && crossInfo == CC.Packed(types)
      ensures cleared == CC.Packed(types[..|types| - 1])
    {
      CC.ClearIsPop(types);
      hide CC.Pack, CC.ClearWord;
      var callContractCtx := new CC.CallContractContext(crossInfo.bits);
      callContractCtx.ClearLatestLayer();
      cleared := CC.CrossInfo(callContractCtx.ctxBitmap);
    }

    method HasUsed(runtimeType: RuntimeType) returns (used: bool)
      requires Recorded()
      ensures used <==> UsedBefore(types, runtimeType)
    {
      CC.HasUsedIsMembership(types, runtimeType);
      hide CC.Pack, CC.HasUsedWord;
      var callContractCtx := new CC.CallContractContext(crossInfo.bits);
      used := callContractCtx.HasUsed(runtimeType);
    }

    /** A frame of a contract run: one layer and one packed runtime type for each call depth so far. */
    ghost predicate Running()
      reads this`currentDepth, this`layers, this`stack, this`shelf, this`crossInfo, this`types, shelf.Keys
    {
      Valid() && Recorded() && |types| == currentDepth + 1
    }

    /** The depth goes up and a fresh layer is made for it. */
    method RaiseDepth()
      requires Valid() && currentDepth < CALL_CONTRACT_DEPTH
      modifies this`currentDepth, this`layers, this`stack
      ensures Valid() && currentDepth == old(currentDepth) + 1
      ensures Ctx() == old(Ctx()).(stack := old(stack) + [map[]])
    {
      FiledPush(layers, shelf, stack);
      hide Filed;
      currentDepth := currentDepth + 1;
      layers := layers[currentDepth := map[]];
      stack := stack + [map[]];
    }

    /** The depth goes down again, whatever the call's exit. */
    method LowerDepth()
      requires Valid() && currentDepth >= 1 && layers[currentDepth] == map[]
      modifies this`currentDepth, this`stack
      ensures Valid() && currentDepth == old(currentDepth) - 1
      ensures Ctx() == old(Ctx()).(stack := Below(old(stack)))
    {
      FiledPop(layers, shelf, stack);
      hide Filed;
      currentDepth := currentDepth - 1;
      stack := Below(stack);
    }

    /** The callee's layer is committed or rolled back, and the depth goes down. */
    method LeaveCall(code: nat)
      requires Valid() && currentDepth >= 1
      modifies this`currentDepth, this`layers, this`stack, this`shelf, shelf.Keys
      ensures Valid() && currentDepth == old(currentDepth) - 1 && shelf.Keys <= old(shelf.Keys)
      ensures Ctx() == old(Ctx()).(stack := Leave(env.version, code, old(stack)))
    {
      AllMovedUpEnd(stack, code == 0 || env.version < V2300);
      hide Filed, AllMovedUp, Commit, Rollback;
      MoveAllUp(code == 0 || env.version < V2300);
      LowerDepth();
    }

    method CallContract(h: History, q: Request, body: Program)
      returns (answer: Observation, trace: seq<Observation>)
      requires Running()
      modifies this, shelf.Keys
      ensures Running() && fresh(shelf.Keys - old(shelf.Keys))
      ensures currentDepth == old(currentDepth) && crossInfo == old(crossInfo)
      ensures CallOutcome(Ctx(), answer, trace) == CallStep(env, old(Ctx()), h, q, body)
      decreases body, 5
    {
      ghost var x := Ctx();
      hide Filed, Recorded, CC.Packed, CallStep, Programs.RunContract, Preflight, WithByteCode, Leave;
      var refused := Check(env, currentDepth + 1, q);
      if refused.Some? {
        CallStepRefused(env, x, h, q, body);
        return refused.value, [];
      }
      CallStepRuns(env, x, h, q, body);
      answer, trace := RunInNewLayer(h, WithByteCode(env, q), body);
    }

    /** The callee runs one depth up, in a fresh layer; its layer and the depth are gone on return. */
    method RunInNewLayer(h: History, q: Request, body: Program) returns (answer: Observation, trace: seq<Observation>)
      requires Running() && currentDepth < CALL_CONTRACT_DEPTH
      modifies this, shelf.Keys
      ensures Running() && fresh(shelf.Keys - old(shelf.Keys))
      ensures currentDepth == old(currentDepth) && crossInfo == old(crossInfo)
      ensures var inner := Programs.RunContract(env, old(Ctx()).(stack := old(stack) + [map[]]), h, q, body);
        && Ctx() == inner.ctx.(stack := Leave(env.version, inner.answer.code, inner.ctx.stack))
        && answer == Called(inner.status, Some(inner.answer)) && trace == inner.trace
      decreases body, 4
    {
      RunContractFrame(env, Ctx().(stack := stack + [map[]]), h, q, body);
      hide Filed, Recorded, CC.Packed, Programs.RunContract, Leave;
      RaiseDepth();
      var status, r;
      status, r, trace := vmManager.RunContract(this, h, q, body);
      LeaveCall(r.code);
      answer := Called(status, Some(r));
    }

    /** The contract's code: whatever it does, it does through the context. */
    method Run(h: History, p: Program) returns (r: CallResult, trace: seq<Observation>)
      requires Running()
      modifies this, shelf.Keys
      ensures Running() && fresh(shelf.Keys - old(shelf.Keys))
      ensures currentDepth == old(currentDepth) && crossInfo == old(crossInfo)
      ensures Outcome(Ctx(), r, trace) == Exec(env, old(Ctx()), h, p)
      decreases p, 0
    {
      hide Filed, Recorded, CC.Packed, GetStep, GetKeysStep, PutStep, CallStep;
      match p
      case Return(code, result) =>
        return CallResult(code(h), result(h)), [];
      case Branch(test, yes, no) =>
        if test(h) {
          r, trace := Run(h, yes);
        } else {
          r, trace := Run(h, no);
        }
      case Get(c, k, next) =>
        var o := Get(c(h), k(h));
        r, trace := Run(h + [o], next);
        trace := [o] + trace;
      case GetBatch(keys, next) =>
        var o := GetKeys(keys(h));
        r, trace := Run(h + [o], next);
        trace := [o] + trace;
      case Put(c, k, v, next) =>
        var o := Put(c(h), k(h), v(h));
        r, trace := Run(h + [o], next);
        trace := [o] + trace;
      case HasUsed(t, next) =>
        var used := HasUsed(t(h));
        r, trace := Run(h + [Used(used)], next);
        trace := [Used(used)] + trace;
      case Call(request, body, next) =>
        var answer, inner := CallContract(h, request(h), body);
        r, trace := Run(h + [answer], next);
        trace := inner + [answer] + trace;
    }
  }

  /** The write stage of a batch read after i keys. */
  ghost predicate WriteStage(version: nat, st: Stack, keys: seq<BatchKey>, i: nat, found: seq<Filled>,
                             missing: seq<BatchKey>, now: Stack)
  {
    && st != [] && i <= |keys|
    && found == Present(st, Writes, keys[..i]) && missing == Missing(st, Writes, keys[..i])
    && now == StagedStack(version, st, keys[..i])
  }

  lemma WriteStageStart(version: nat, st: Stack, keys: seq<BatchKey>)
    requires st != []
    ensures WriteStage(version, st, keys, 0, [], [], st)
  {
    assert keys[..0] == [];
  }

  lemma WriteStageEnd(version: nat, st: Stack, keys: seq<BatchKey>, found: seq<Filled>, missing: seq<BatchKey>,
                      now: Stack)
    requires WriteStage(version, st, keys, |keys|, found, missing, now)
    ensures st != [] && found == Present(st, Writes, keys) && missing == Missing(st, Writes, keys)
    ensures now == StagedStack(version, st, keys)
  {
    assert keys[..|keys|] == keys;
    hide Present, Missing, StagedStack;
  }

  /** What earlier turns have stored hides no own write. */
  lemma WriteStageTurn(version: nat, st: Stack, keys: seq<BatchKey>, i: nat, found: seq<Filled>,
                       missing: seq<BatchKey>, now: Stack)
    requires WriteStage(version, st, keys, i, found, missing, now) && i < |keys|
    ensures now != []
    ensures var b, own := keys[i], Lookup(now, Writes, keys[i].contract, StateKey(keys[i]));
      && (own.None? ==> WriteStage(version, st, keys, i + 1, found, missing + [b], now))
      && (own.Some? ==>
            WriteStage(version, st, keys, i + 1, found + [Filled(b, own.value)], missing,
              if version < V235 then StoreTop(now, Reads, b.contract, StateKey(b), own.value) else now))
  {
    OneKeyMore(st, Writes, keys, i);
    ReadsStoredLookup(st, found, Writes, keys[i]);
    if FindKey(st, Writes, keys[i]).Some? {
      OneStoreMore(st, found, Filled(keys[i], FindKey(st, Writes, keys[i]).value));
    }
    hide Present, Missing, Lookup, ReadsStored, StateKey, StoreTop;
  }

  /** The stack after i results were put into the read set. */
  ghost predicate StoreStage(version: nat, st: Stack, results: seq<Filled>, i: nat, now: Stack) {
    st != [] && i <= |results| && now == ReadsStored(st, BatchStores(version, results)[..i])
  }

  lemma StoreStageStart(version: nat, st: Stack, results: seq<Filled>)
    requires st != []
    ensures StoreStage(version, st, results, 0, st)
  {
    assert BatchStores(version, results)[..0] == [];
  }

  lemma StoreStageEnd(version: nat, st: Stack, results: seq<Filled>, now: Stack)
    requires StoreStage(version, st, results, |results|, now)
    ensures st != [] && now == ReadsStored(st, BatchStores(version, results))
  {
    assert BatchStores(version, results)[..|results|] == BatchStores(version, results);
  }

  lemma StoreStageTurn(version: nat, st: Stack, results: seq<Filled>, i: nat, now: Stack)
    requires StoreStage(version, st, results, i, now) && i < |results|
    ensures now != []
    ensures var b := results[i].request;
      StoreStage(version, st, results, i + 1,
        if version > V2361 then StoreTop(now, Reads, b.contract, StateKey(b), results[i].value)
        else StoreTop(now, Reads, b.contract, b.key, b.field))
  {
    var all := BatchStores(version, results);
    assert all[..i + 1] == all[..i] + [BatchStore(version, results[i])];
    OneStoreMore(st, all[..i], BatchStore(version, results[i]));
    hide ReadsStored, StoreTop;
  }

  lemma AllWritten(env: Env, x: Context, keys: seq<BatchKey>)
    requires x.stack != [] && Missing(x.stack, Writes, keys) == []
    ensures GetKeysStep(env, x, keys)
         == (x.(stack := StagedStack(env.version, x.stack, keys)), Batch(Some(Present(x.stack, Writes, keys))))
  {
    assert Missing(x.stack, Reads, []) == [] && Present(x.stack, Reads, []) == [];
    assert Present(x.stack, Writes, keys) + [] == Present(x.stack, Writes, keys);
    hide Present, Missing, StagedStack;
  }

  lemma AllInSets(env: Env, x: Context, keys: seq<BatchKey>)
    requires x.stack != []
    requires Missing(StagedStack(env.version, x.stack, keys), Reads, Missing(x.stack, Writes, keys)) == []
    ensures var staged := StagedStack(env.version, x.stack, keys);
      GetKeysStep(env, x, keys) == (x.(stack := staged), Batch(Some(
        Present(x.stack, Writes, keys) + Present(staged, Reads, Missing(x.stack, Writes, keys)))))
  {
    WriteStageKeepsReads(env.version, x.stack, keys);
    hide Present, Missing, StagedStack;
  }

  lemma SomeUnread(env: Env, x: Context, keys: seq<BatchKey>)
    requires x.stack != []
    requires Missing(StagedStack(env.version, x.stack, keys), Reads, Missing(x.stack, Writes, keys)) != []
    ensures var staged, unwritten := StagedStack(env.version, x.stack, keys), Missing(x.stack, Writes, keys);
      var found, unread := Present(x.stack, Writes, keys) + Present(staged, Reads, unwritten),
        Missing(staged, Reads, unwritten);
      var answer := env.snapshotKeys(|x.queries|, unread);
      GetKeysStep(env, x, keys) ==
        (Context(if answer.None? then staged else ReadsStored(staged, BatchStores(env.version, answer.value)),
           x.types, x.queries + [BatchQuery(unread, answer)]),
         Batch(if answer.None? then None else Returned(env.version, keys, answer.value + found)))
  {
    WriteStageKeepsReads(env.version, x.stack, keys);
    hide Present, Missing, ReadsStored, BatchStores, Returned, StagedStack;
  }

  /** sortBatchKeyResults; None is its error. */
  method SortBatchKeyResults(keys: seq<BatchKey>, results: seq<Filled>) returns (sorted: Option<seq<Filled>>)
    ensures sorted == SortedResults(keys, results)
  {
    if |keys| != |results| {
      return None;
    }
    hide Tag;
    var byTag: map<Bytes, Filled> := map[];
    assert results[..0] == [];
    for i := 0 to |results|
      invariant forall t :: (t in byTag <==> LastTagged(results[..i], t).Some?)
                         && (t in byTag ==> LastTagged(results[..i], t) == Some(byTag[t]))
    {
      byTag := byTag[Tag(results[i].request) := results[i]];
      assert results[..i + 1][..i] == results[..i];
    }
    assert results[..|results|] == results;
    var list: seq<Filled> := [];
    for i := 0 to |keys|
      invariant |list| == i && forall j :: 0 <= j < i ==> LastTagged(results, Tag(keys[j])) == Some(list[j])
    {
      if Tag(keys[i]) !in byTag {
        return None;
      }
      list := list + [byTag[Tag(keys[i])]];
    }
    forall j | 0 <= j < |keys|
      ensures LastTagged(results, Tag(keys[j])).Some? && list[j] == LastTagged(results, Tag(keys[j])).value
    {
      assert LastTagged(results, Tag(keys[j])) == Some(list[j]);
    }
    assert list == SortedResults(keys, results).value;
    return Some(list);
  }

  /** CallContract's exits before it runs the contract, at the raised depth. */
  method Check(env: Env, depth: nat, q: Request) returns (refused: Option<Observation>)
    ensures refused == Preflight(env, depth, q)
    ensures refused.None? <==> Calls.MayCall(env, depth, q)
  {
    if depth > CALL_CONTRACT_DEPTH {
      return Some(Called(TooDeep, Some(CallResult(1, []))));
    }
    if q.gasUsed > GAS_LIMIT {
      return Some(Called(ContractFail, Some(CallResult(1, []))));
    }
    if AsksStoreForByteCode(env, q) && q.storedHasByteCode.None? {
      return Some(Called(ContractFail, None));
    }
    if env.version >= V2310 && !q.authorized {
      return Some(Called(ContractFail, Some(CallResult(1, []))));
    }
    return None;
  }

  lemma RunContractFrame(env: Env, x: Context, h: History, q: Request, body: Program)
    requires x.stack != []
    ensures var o := Programs.RunContract(env, x, h, q, body);
      o.ctx.types == x.types && |o.ctx.stack| == |x.stack|
  {
  }

  /** A call refused before it runs. */
  lemma CallStepRefused(env: Env, x: Context, h: History, q: Request, body: Program)
    requires x.stack != [] && Preflight(env, |x.stack|, q).Some?
    ensures CallStep(env, x, h, q, body) == CallOutcome(x, Preflight(env, |x.stack|, q).value, [])
  {
  }

  /** A call that CallContract lets through. */
  lemma CallStepRuns(env: Env, x: Context, h: History, q: Request, body: Program)
    requires x.stack != [] && Preflight(env, |x.stack|, q).None?
    ensures |x.stack| <= CALL_CONTRACT_DEPTH
    ensures var inner := Programs.RunContract(env, x.(stack := x.stack + [map[]]), h, WithByteCode(env, q), body);
      CallStep(env, x, h, q, body) == CallOutcome(
        inner.ctx.(stack := Leave(env.version, inner.answer.code, inner.ctx.stack)),
        Called(inner.status, Some(inner.answer)), inner.trace)
  {
  }

  /** The stack while the sets of the contracts in `left` are still to be moved up. */
  function AllMovedUp(st: Stack, left: set<Bytes>, withWrites: bool): Stack
    requires |st| >= 2
  {
    var n := |st| - 1;
    var done := st[n] - left;
    st[n - 1 := if withWrites then Committed(st[n - 1], done) else RolledBack(st[n - 1], done)]
      [n := map c | c in st[n] && c in left :: st[n][c]]
  }

  lemma AllMovedUpStart(st: Stack, withWrites: bool)
    requires |st| >= 2
    ensures AllMovedUp(st, Top(st).Keys, withWrites) == st
  {
    var n := |st| - 1;
    assert st[n] - st[n].Keys == map[];
    assert (map c | c in st[n] && c in st[n].Keys :: st[n][c]) == st[n];
    assert Committed(st[n - 1], map[]) == st[n - 1];
    assert RolledBack(st[n - 1], map[]) == st[n - 1];
  }

  lemma AllMovedUpStep(st: Stack, left: set<Bytes>, c: Bytes, withWrites: bool)
    requires |st| >= 2 && left <= Top(st).Keys && c in left
    ensures var st' := AllMovedUp(st, left, withWrites);
      c in Top(st') && AllMovedUp(st, left - {c}, withWrites) == MovedUp(st', c, withWrites)
  {
    var n := |st| - 1;
    var st' := AllMovedUp(st, left, withWrites);
    var goal := AllMovedUp(st, left - {c}, withWrites);
    var next := MovedUp(st', c, withWrites);
    assert goal[n] == next[n];
    assert goal[n - 1] == next[n - 1];
    assert goal == next;
  }

  /** Once every set is moved up, dropping the emptied layer is a commit, or a rollback. */
  lemma AllMovedUpEnd(st: Stack, withWrites: bool)
    requires |st| >= 2
    ensures AllMovedUp(st, {}, withWrites)[..|st| - 1] == if withWrites then Commit(st) else Rollback(st)
  {
    var n := |st| - 1;
    assert st[n] - {} == st[n];
  }

  function MovedUp(st: Stack, c: Bytes, withWrites: bool): Stack
    requires |st| >= 2 && c in Top(st)
  {
    var n := |st| - 1;
    st[n - 1 := st[n - 1][c := Merged(st[n - 1], c, st[n][c], withWrites)]][n := st[n] - {c}]
  }

  function TakenOut(st: Stack, c: Bytes): (st': Stack)
    requires st != []
    ensures |st'| == |st|
  {
    st[|st| - 1 := Top(st) - {c}]
  }

  /** Taking the set out first and filing or merging it then comes to the same. */
  lemma MovedUpInOrder(st: Stack, c: Bytes, withWrites: bool)
    requires |st| >= 2 && c in Top(st)
    ensures var n, taken := |st| - 1, TakenOut(st, c);
      MovedUp(st, c, withWrites)
        == taken[n - 1 := taken[n - 1][c := Merged(taken[n - 1], c, Top(st)[c], withWrites)]]
  {
  }

  function Merged(pre: Layer, c: Bytes, callee: RW, withWrites: bool): RW {
    if c !in pre then callee
    else RW(pre[c].readMap + callee.readMap, if withWrites then pre[c].writeMap + callee.writeMap else pre[c].writeMap)
  }

  lemma InitOfPushed(types: Types, t: RuntimeType)
    ensures (types + [t])[..|types + [t]| - 1] == types
  {
  }

  class VmManager {
    constructor () {}

    method RunContract(s: TxSimContext, h: History, q: Request, body: Program)
      returns (status: Status, r: CallResult, trace: seq<Observation>)
      requires s.Valid() && s.Recorded() && |s.types| == s.currentDepth
      modifies s, s.shelf.Keys
      ensures s.Valid() && s.Recorded() && fresh(s.shelf.Keys - old(s.shelf.Keys))
      ensures s.currentDepth == old(s.currentDepth) && s.crossInfo == old(s.crossInfo)
      ensures RunOutcome(s.Ctx(), status, r, trace) == Programs.RunContract(s.env, old(s.Ctx()), h, q, body)
      decreases body, 3
    {
      hide Filed, Exec, Admit, Dispatch, CC.Packed;
      var admission := Examine(s.env.version, q);
      if admission.Refused? {
        return admission.status, CallResult(1, []), [];
      }
      status, r, trace := RunRecorded(s, h, q, admission.contract, body);
    }

    /** The runtime type is recorded before anything can fail, and removed on every exit. */
    method RunRecorded(s: TxSimContext, h: History, q: Request, contract: Contract, body: Program)
      returns (status: Status, r: CallResult, trace: seq<Observation>)
      requires s.Valid() && s.Recorded() && |s.types| == s.currentDepth
      modifies s, s.shelf.Keys
      ensures s.Valid() && s.Recorded() && fresh(s.shelf.Keys - old(s.shelf.Keys))
      ensures s.currentDepth == old(s.currentDepth) && s.crossInfo == old(s.crossInfo)
      ensures var refused, inner := Dispatch(s.env, q, contract),
                Exec(s.env, old(s.Ctx()).(types := old(s.types) + [contract.runtimeType]), h, body);
        if refused.Some? then
          s.Ctx() == old(s.Ctx()) && (status, r, trace) == (refused.value, CallResult(1, []), [])
        else
          && s.Ctx() == inner.ctx.(types := old(s.types))
          && (status, r, trace) == (if r.code == 0 then Success else ContractFail, inner.answer, inner.trace)
      decreases body, 2
    {
      assert s.currentDepth < DEPTHS;
      InitOfPushed(s.types, contract.runtimeType);
      hide *;
      s.RecordRuntimeTypeIntoCrossInfo(contract.runtimeType);
      ghost var x := s.Ctx();
      status, r, trace := RunPrepared(s, h, q, contract, body);
      assert s.types == x.types;
      s.RemoveRuntimeTypeFromCrossInfo();
    }

    /** What happens while the runtime type is recorded. */
    method RunPrepared(s: TxSimContext, h: History, q: Request, contract: Contract, body: Program)
      returns (status: Status, r: CallResult, trace: seq<Observation>)
      requires s.Running()
      modifies s, s.shelf.Keys
      ensures s.Running() && fresh(s.shelf.Keys - old(s.shelf.Keys))
      ensures s.currentDepth == old(s.currentDepth) && s.crossInfo == old(s.crossInfo) && s.types == old(s.types)
      ensures var refused, inner := Dispatch(s.env, q, contract), Exec(s.env, old(s.Ctx()), h, body);
        if refused.Some? then
          s.Ctx() == old(s.Ctx()) && (status, r, trace) == (refused.value, CallResult(1, []), [])
        else
          && s.Ctx() == inner.ctx
          && (status, r, trace) == (if r.code == 0 then Success else ContractFail, inner.answer, inner.trace)
      decreases body, 1
    {
      assert s.stack != [];
      hide Filed, Exec, Dispatch, CC.Packed, s.Valid, s.Recorded;
      var refused := Prepare(s.env, q, contract);
      if refused.Some? {
        return refused.value, CallResult(1, []), [];
      }
      r, trace := s.Run(h, body);
      status := if r.code == 0 then Success else ContractFail;
    }

    /** RunContract's exits before it records the runtime type. */
    method Examine(version: nat, q: Request) returns (admission: Admission)
      ensures admission == Admit(version, q)
      ensures admission.Admitted? <==> Calls.MayEnter(version, q)
      ensures admission.Admitted? ==> admission.contract == Calls.Resolved(q)
    {
      var contract := q.contract;
      if contract.name == [] {
        return Refused(BadContractName);
      }
      if !contract.hasVersion {
        if q.storedContract.None? {
          return Refused(BadContractName);
        }
        contract := q.storedContract.value;
      }
      if version < V2310 {
        if contract.status == Frozen {
          return Refused(ContractFrozen);
        }
      } else if contract.status == Frozen && !q.methodIsUpgrade {
        return Refused(ContractFrozen);
      }
      if contract.status == Revoked {
        return Refused(ContractRevoked);
      }
      return Admitted(contract);
    }

    /** RunContract's exits after it recorded the runtime type. */
    method Prepare(env: Env, q: Request, contract: Contract) returns (refused: Option<Status>)
      ensures refused == Dispatch(env, q, contract)
      ensures refused.None? <==> Calls.MayStart(env, q, contract, q.hasByteCode)
    {
      if q.isNative {
        return if q.methodEmpty then Some(BadMethod) else None;
      }
      if !q.isUserContract {
        return Some(BadTxType);
      }
      if contract.runtimeType != env.dockerGo && contract.runtimeType != env.go
         && contract.runtimeType != env.dockerJava && !q.hasByteCode {
        return Some(NoByteCode);
      }
      match q.startup {
        case RuntimeMissing => return Some(NoRuntime);
        case InstanceFails => return Some(NoInstance);
        case Starts => return None;
      }
    }
  }

  /** A whole transaction on a fresh context, as the scheduler runs it. */
  method RunTransaction(env: Env, q: Request, p: Program)
    returns (s: TxSimContext, status: Status, r: CallResult, trace: seq<Observation>)
    ensures fresh(s) && fresh(s.shelf.Keys) && s.Valid()
    ensures s.env == env && s.currentDepth == 0 && s.crossInfo == CC.CrossInfo(0)
    ensures s.Ctx() == Programs.RunContract(env, EMPTY_CONTEXT, [], q, p).ctx
    ensures var o := RunContractRef(env, EMPTY_REF, [], q, p);
      && (status, r, trace) == (o.status, o.answer, o.trace)
      && (forall c, k :: Lookup(s.stack, Writes, c, k) == Fetch(o.ref.own, c, k))
      && (forall c, k :: Lookup(s.stack, Reads, c, k) == Fetch(o.ref.seen, c, k))
  {
    var vm := new VmManager();
    s := new TxSimContext(env, vm);
    TransactionRefines(env, q, p);
    status, r, trace := vm.RunContract(s, [], q, p);
  }
}
