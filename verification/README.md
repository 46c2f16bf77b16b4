# The transaction simulation context, the call-chain word and the instance pool

A Dafny model of three state machines of the ChainMaker contract runtime, with proofs about all of their
runs, and of the small functions the rest of the code relies on.

**The transaction simulation context.** While a transaction runs, its contracts read and write state
through one context that keeps a layer of per-contract read and write maps for each call depth. A
contract run is modelled as a finite program of Get, batch read, Put, HasUsed and CallContract, each
argument and result a function of what the frame has observed, so a program may adapt to what it reads;
the snapshot may answer differently each time it is asked. `TxSimContext` is the object with its in-
place mutation: sets are objects, pointers to them move between layers, maps are merged key by key in an
arbitrary order. It is proved against value-level steps (`Programs`, `Layers`), which are proved to
refine a flat interpreter with one map of own writes and one of values read (`Reference`). On top of it:
which calls run (`Calls`), repeatable reads (`Repeatable`, `Histories`), reporting (`Overlays`,
`Reports`, `ReportLaws`), range scans (`Iterators`, `Scans`), batch reads (`BatchReads`, `Batches`) and
gas (`Gas`). `Witnesses` and `ObjectWitnesses` have runs in which a claim fails. `Keys` has the state
keys and their ranges, `Version` the block version numbers.

**The call-chain word.** Depth, an index of used runtime types and a list of 4-bit types in 64 bits.
`Words` has the bit-level laws, `CallContext` the stack the word refines, the context ties it to the depth.

**The instance pool.** Callers take, revert and discard instances while one loop grows, shrinks, drains
and refills the pool. `Pools` is the state machine over single atomic steps with its invariants over all
interleavings, `PoolLaws` what it decides and does in terms of what happened, `PoolBound` and
`ResetBound` the exact bounds on discards in flight, `VmPools` the object with the turns of its loop.

Versions are written as in the source: 2300 is 2.3.0, 2030102 is 2.3.1.2, 2030500 is 2.3.5, 2030601 is
2.3.6.1. "Touched" contracts of a frame are those with a set in its layer.

Where the obvious claim is false the code is modelled as it is, with the exact condition:

- A failed call keeps the callee's writes to a contract the caller's layer does not have
  (`Layers.RollbackUndoesWrites`; a run: `Witnesses.FailedCallLeaks`).
- `GetTxRWMapByContractName`, and before 2.3.5 `Select`, merge deeper layers into shallower ones in
  place, after which a rollback keeps the callee's writes (`Reports.QueriedRollbackIff`; on the object:
  `ObjectWitnesses.PeekAndFail`).
- A scan shows other contracts' block writes (`Scans.ScanFaithfulIff`), and a failed call's scan of its own
  write leaves the rolled-back value to be read (`Scans.FailedScanLeaks`; on the object:
  `ObjectWitnesses.ScanAndFail`).
- Batch reads come back in request order under conditions that differ by path and version
  (`Batches.TwoSourceOrder`, `Batches.ThreeSourceOrder`, `Batches.SortedIsRequestOrder`; runs in
  `Witnesses.BatchOutOfOrder` and `Witnesses.UnreadComesFirst`). Above 2.3.6.1 a batch over several contracts
  can lose a key and give another contract's value twice (`Batches.SortedLosesIff`; a run:
  `Witnesses.BatchLosesKey`). Up to 2.3.6.1 a batch files the field as the value (`Batches.BatchReadFiled`,
  `Repeatable.FaithfulAboveV2361`), so that a read can change (`Repeatable.ReadsStayAboveV2361`; a run:
  `Witnesses.ReadChanges`).
- Before 2.3.5 read sets hold own writes (`Repeatable.FaithfulFromV235`); from 2.3.1.2 to before 2.3.5 a
  report from above depth 0 lists the older value (`ReportLaws.ReportAgreesIff`, `ReportLaws.StaleReport`).
- With a '#' in a contract name a report can depend on map order (`ReportLaws.OrderMatters`).
- One charge of more than 2^63 above what is left makes the meter positive again (`Gas.FailureIsFinal`).
- Five discards between their signals let the pool exceed its maximum (`PoolBound.BoundIff`), with resets one
  does (`ResetBound.ResetBoundIff`). A drain that meets a discarded instance never ends
  (`Pools.DrainFinishesIff`; a run: `PoolBound.CloseBlocksForever`), nor does a shrink that finds too few
  (`Pools.ShrinkFinishesIff`; a run: `PoolBound.TimerBlocksForever`).
- A version part of three digits shifts the ones before it (`Version.FormattedValue`, with a collision in
  `Version.StringsCollide`); twelve layers of calls spill in the word (`Words.IndexAfterAdd`), which six
  layers never reach.

Where code and comment disagree the code is followed: the comment in call_contract_context.go says the
type list leaves out the current layer, the code puts it in; the comment on `shouldGrow` makes the maximum
a condition of every growth, the code grows below the minimum without it.

## Model

| member | source | states |
|---|---|---|
| `Reference.TransactionRefines` | vm/v2@v2.4.0/tx_sim_context.go:179-211 | Over every contract program, call tree and snapshot behaviour, the layered context gives each Get, batch read, Put, HasUsed and CallContract the answer a flat interpreter gives that keeps one map of own writes and one of values read; final lookups are those maps |
| `Reference.ExecSimulates` | vm/v2@v2.4.0/tx_sim_context.go:179-211 | One frame at any depth: from states that agree, the layered run and the flat run make the same observations, ask the snapshot the same questions and end in states that agree |
| `Reference.CallSimulates` | vm/v2@v2.4.0/tx_sim_context.go:934-1028 | A cross-contract call, with every exit, is the flat call: a success keeps the callee's writes, a failure from 2.3.0 on restores the writes of the contracts the caller had touched and of no others |
| `Reference.RunContractSimulates` | vm/v2@v2.4.0/vm_factory.go:195-288 | Running a contract admits, refuses and records exactly as in the flat interpreter |
| `Reference.GetSimulates` | vm/v2@v2.4.0/tx_sim_context.go:179-211 | A Get finds the newest own write, else the newest value read, else asks the snapshot, as the flat maps do, and records what the version records |
| `Reference.GetKeysSimulates` | vm/v2@v2.4.0/tx_sim_context.go:214-251 | A batch read finds, asks, records, orders and returns what it does on the flat maps, whatever the snapshot answers |
| `Reference.StoreSimulates` | vm/v2@v2.4.0/tx_sim_context.go:509-572 | Writing an entry into the current layer is one update of the flat map |
| `Reference.LeaveSimulates` | vm/v2@v2.4.0/tx_sim_context.go:1016-1079 | Commit and rollback of the callee's layer are the flat interpreter's keep and restore |
| `TxSimContexts.RunTransaction` | vm/v2@v2.4.0/tx_sim_context.go:58-84 | A transaction run on the object, sets and maps mutated in place, ends with the flat interpreter's trace, status and answer, at depth 0, with an empty cross info word and the reference's own writes and reads |
| `TxSimContexts.TxSimContext.constructor` | vm/v2@v2.4.0/tx_sim_context.go:58-84 | A new context is the empty one: one empty layer, depth 0, cross info 0 |
| `TxSimContexts.TxSimContext.GetFromSet` | vm/v2@v2.4.0/tx_sim_context.go:575-597 | The search from the current depth down finds the entry of the newest layer that has the key (getFromReadSet; getFromWriteSet is the same loop on the other side, lines 625-647) |
| `TxSimContexts.TxSimContext.PutIntoSet` | vm/v2@v2.4.0/tx_sim_context.go:509-530 | Exactly one entry of the current layer's set of that contract changes, the set being made on demand (PutIntoReadSet; putIntoWriteSet past its length check, lines 545-572) |
| `TxSimContexts.TxSimContext.Get` | vm/v2@v2.4.0/tx_sim_context.go:179-211 | New state, recorded read and answer are those of the specification step, in every branch and version |
| `TxSimContexts.TxSimContext.GetKeys` | vm/v2@v2.4.0/tx_sim_context.go:214-251 | New state, question to the snapshot, recorded reads and results are those of the specification step, on every path and version; KeysAnswered, BatchRepeats and GetKeysSimulates say what that step gives |
| `TxSimContexts.TxSimContext.GetBatchFromWriteSet` | vm/v2@v2.4.0/tx_sim_context.go:650-673 | Found and missing keys in request order; before 2.3.5 what is found enters the read set |
| `TxSimContexts.TxSimContext.GetBatchFromReadSet` | vm/v2@v2.4.0/tx_sim_context.go:600-622 | Found and missing keys in request order |
| `TxSimContexts.TxSimContext.PutBatchIntoReadSet` | vm/v2@v2.4.0/tx_sim_context.go:533-542 | Each result is filed under its state key; up to 2.3.6.1 under the bare key, with the field as value |
| `TxSimContexts.SortBatchKeyResults` | vm/v2@v2.4.0/tx_sim_context.go:257-278 | Result i is the last result with request i's tag; an error if lengths differ or a tag is missing |
| `TxSimContexts.TxSimContext.GetNoRecord` | vm/v2@v2.4.0/tx_sim_context.go:281-299 | Own write, else the snapshot's present answer; nothing changes |
| `TxSimContexts.TxSimContext.Put` | vm/v2@v2.4.0/tx_sim_context.go:307-309 | A key over the length limit is refused without effect; otherwise the write set holds the new value |
| `TxSimContexts.TxSimContext.MoveUp` | vm/v2@v2.4.0/tx_sim_context.go:1037-1053 | One turn of the commit or rollback loop: the callee's set moves to the caller's layer, or is merged into the caller's set, and leaves the callee's layer |
| `TxSimContexts.TxSimContext.MoveAllUp` | vm/v2@v2.4.0/tx_sim_context.go:1031-1079 | Whatever order the contracts are ranged over, the callee's layer ends empty and the caller's is the merged one |
| `TxSimContexts.TxSimContext.LeaveCall` | vm/v2@v2.4.0/tx_sim_context.go:1016-1028 | On return the callee's layer is committed, or rolled back from 2.3.0 on when the code is not 0, and the depth is back |
| `TxSimContexts.TxSimContext.CallContract` | vm/v2@v2.4.0/tx_sim_context.go:934-1028 | Every exit restores the depth and the cross info word; state and answer are those of the specification, and the layers in use stay within bounds |
| `TxSimContexts.TxSimContext.RunInNewLayer` | vm/v2@v2.4.0/tx_sim_context.go:937-1028 | The callee runs in a fresh layer one depth up, which is gone on return |
| `TxSimContexts.TxSimContext.Run` | vm/v2@v2.4.0/tx_sim_context.go:934-1028 | A contract's code at depth d runs with exactly d + 1 packed runtime types recorded, at most six, and leaves depth and cross info as they were |
| `TxSimContexts.TxSimContext.RecordRuntimeTypeIntoCrossInfo` | vm/v2@v2.4.0/tx_sim_context.go:1193-1197 | The packed word is that of the call chain with one more type |
| `TxSimContexts.TxSimContext.RemoveRuntimeTypeFromCrossInfo` | vm/v2@v2.4.0/tx_sim_context.go:1200-1204 | The packed word is that of the call chain without its latest type |
| `TxSimContexts.TxSimContext.HasUsed` | vm/v2@v2.4.0/tx_sim_context.go:1187-1190 | Answers whether a layer before the latest has the runtime type |
| `TxSimContexts.VmManager.RunContract` | vm/v2@v2.4.0/vm_factory.go:195-288 | Every early exit and the paired record and remove: depth and cross info are as before on each exit |
| `TxSimContexts.VmManager.RunRecorded` | vm/v2@v2.4.0/vm_factory.go:254-288 | The runtime type is recorded during the run only, also when the call is refused after recording |
| `Calls.RefusedCallChangesNothing` | vm/v2@v2.4.0/tx_sim_context.go:943-1010 | A call runs its contract only when it is at most five deep, within the gas limit, authorized, answered by the store, and names a known contract that is neither revoked nor frozen (an upgrade is let through from 2.3.1 on), with a method when native, and with byte code of its own or from the store, a runtime and an instance when a user's; any other call is no success, makes no observation, and leaves layers, runtime types and questions asked exactly as they were |
| `Calls.AllowedCallRuns` | vm/v2@v2.4.0/tx_sim_context.go:1001-1028 | Every call that meets those conditions runs the contract in a fresh layer, the lookup of sender and creator being its first part: its trace is the callee's, and its status and the layers left follow from the callee's code alone |
| `Calls.AllowedCallLookups` | vm/v2@v2.4.0/tx_sim_context.go:1016-1079 | What a call that runs leaves: from 2.3.0 on, after a code other than 0, the caller's own writes to contracts of its layer; every other lookup as the callee left it |
| `Calls.CallStatus` | vm/v2@v2.4.0/tx_sim_context.go:943-998 | Which status and result a call gives, over the request alone and one if-and-only-if for each: too deep exactly above depth five, no result exactly when the store fails, contract failure for the other exits of CallContract, and those of RunContract behind them |
| `Calls.RunStatus` | vm/v2@v2.4.0/vm_factory.go:210-400 | Which status a run gives, one if-and-only-if for each: bad name, frozen, revoked, no method, wrong transaction type, no byte code, no runtime, no instance; success or contract failure exactly when it runs |
| `Calls.CodeFromStoreIff` | vm/v2@v2.4.0/tx_sim_context.go:965-973 | A call that brings no byte code, of a user contract whose runtime needs it, runs the contract if and only if the store has byte code for it |
| `Calls.OwnCodeSuffices` | vm/v2@v2.4.0/tx_sim_context.go:965-973 | A call that brings byte code runs whatever the store would answer |
| `Calls.RefusedRunChangesNothing` | vm/v2@v2.4.0/vm_factory.go:195-400 | RunContract on its own: what fails its conditions, up to the making of the instance, leaves the context as it was, the runtime type included |
| `Calls.AllowedRunRuns` | vm/v2@v2.4.0/vm_factory.go:254-400 | What meets them runs, and the runtime type is recorded for the time of the run only; a failing lookup of sender or creator, which may read through the context, counts as the contract failing |
| `TxSimContexts.MergeInto` | vm/v2@v2.4.0/sim_context_rwset_cache.go:36-53 | Merging map into map, key by key in any order, makes the source's entries win |
| `TxSimContexts.RwSet.Insert` | vm/v2@v2.4.0/tx_sim_context.go:524-530 | One entry is filed under contract#key, all others stay |
| `Layers.LookupStored` | vm/v2@v2.4.0/tx_sim_context.go:509-572 | A stored entry is found afterwards and every other lookup, of any contract, key and side, is unchanged |
| `Layers.CommitKeepsLookups` | vm/v2@v2.4.0/tx_sim_context.go:1031-1054 | After commitRWSetToPreDepth every read and write lookup at the caller's depth equals the callee's lookup before |
| `Layers.RollbackLookup` | vm/v2@v2.4.0/tx_sim_context.go:1057-1079 | After commitRSetAndRollbackWSet a write lookup is the caller's where the caller's layer knew the contract, the callee's where it did not; reads are kept |
| `Layers.RollbackUndoesWrites` | vm/v2@v2.4.0/tx_sim_context.go:1068-1073 | A failed call leaves all of the caller's write lookups as they were if and only if it changed none of a contract absent from the caller's layer |
| `Witnesses.FailedCallLeaks` | vm/v2@v2.4.0/tx_sim_context.go:1057-1079 | A transaction, run from an empty context: in every version the caller of a failed contract reads the failed contract's write and the transaction succeeds with that write |
| `Repeatable.ReadsRepeat` | vm/v2@v2.4.0/tx_sim_context.go:179-211 | Once a key is in the read set, by a Get, a batch or a scan, whatever runs next, nested calls succeeding or failing, a Get without own write gives the same value and asks the snapshot nothing, and no batch asks for it (from 2.3.5; for programs with batches from above 2.3.6.1, on a snapshot that answers for requested keys only) |
| `Repeatable.ExecPersists` | vm/v2@v2.4.0/tx_sim_context.go:934-1079 | Over any program and its calls the value a read lookup gives stays what it is |
| `Repeatable.BatchRepeats` | vm/v2@v2.4.0/tx_sim_context.go:214-251 | Above 2.3.6.1 what a batch took from the snapshot repeats: after any later program, its calls succeeding or failing, a Get of the key gives the batch's value and asks nothing, and no batch asks for it again |
| `Repeatable.ReadsStayAboveV2361` | vm/v2@v2.4.0/tx_sim_context.go:533-542 | Wherever programs may lead from an empty context, values in the read set stay what they are over all further programs if and only if the version is above 2.3.6.1, on a snapshot that answers two batches of one key with two fields; up to then the second batch overwrites what the first left |
| `Witnesses.ReadChanges` | vm/v2@v2.4.0/tx_sim_context.go:533-542 | A transaction up to 2.3.6.1 whose Get of a key gives two different values, before and after a batch, though nothing was written |
| `Repeatable.ExecFaithful` | vm/v2@v2.4.0/tx_sim_context.go:179-211 | Over every run, Get and batches mixed, the visible read set is the snapshot's first answers and no key is asked for again once answered (from 2.3.5; with batches from above 2.3.6.1) |
| `Repeatable.FaithfulFromV235` | vm/v2@v2.4.0/tx_sim_context.go:185-193 | Without batches that holds of all runs if and only if the block version is at least 2.3.5; before, own writes enter the read set |
| `Repeatable.FaithfulAboveV2361` | vm/v2@v2.4.0/tx_sim_context.go:533-542 | With batches it holds of all runs if and only if the version is above 2.3.6.1, on a snapshot that answers a first batch of one key with a field |
| `Repeatable.FieldForValue` | vm/v2@v2.4.0/tx_sim_context.go:533-542 | Up to 2.3.6.1 a batch of one unread key with a field leaves the field as the value of the bare key, and nothing under the key read |
| `Histories.ReadsAndWrites` | vm/v2@v2.4.0/tx_sim_context.go:179-211 | Told from the operations alone, in every version: a Get gives the value last put, else the snapshot's first answer to an earlier Get, asking nothing, else what the snapshot answers now, an error if it fails; a Put is refused exactly when the key has more than 600 bytes |
| `CallContext.AddIsPush` | vm/v2@v2.4.0/call_contract_context.go:44-62 | AddLayer on the word of a stack of at most ten types gives the word of the stack with the type pushed |
| `CallContext.ClearIsPop` | vm/v2@v2.4.0/call_contract_context.go:65-82 | ClearLatestLayer gives the word of the stack without its latest type, the index rebuilt without the type before it |
| `CallContext.ClearUndoesAdd` | vm/v2@v2.4.0/call_contract_context.go:44-82 | Clearing the layer just added restores the exact 64-bit word |
| `CallContext.AllTypesOfPack` | vm/v2@v2.4.0/call_contract_context.go:110-123 | GetAllTypes reads the stack back, oldest first |
| `CallContext.HasUsedIsMembership` | vm/v2@v2.4.0/call_contract_context.go:90-93 | HasUsed is membership among all layers but the latest |
| `CallContext.TypeAtReadsLayer` | vm/v2@v2.4.0/call_contract_context.go:96-107 | GetTypeByDepth reads, in any word, the entry GetAllTypes has for that depth |
| `Words.IndexAfterAdd` | vm/v2@v2.4.0/call_contract_context.go:44-62 | What one more layer makes HasUsed answer, for any word with a layer: the covered type, the old answers, and above eleven layers the bits of the oldest type spilling from the list into types 12 to 15 |
| `CallContext.PackFields` | vm/v2@v2.4.0/call_contract_context.go:24-36 | Depth, index and list are read back unmixed from the word of a stack of at most eleven types |
| `CallContext.PackedExample` | vm/v2@v2.4.0/call_contract_context.go:20-36 | The word of the documented chain of three calls |
| `RuntimeTypes.UsedBeforeIs` | vm/v2@v2.4.0/call_contract_context.go:90-93 | While a layer runs a type counts as used exactly when an earlier layer has it |
| `CallContext.CallContractContext.AddLayer` | vm/v2@v2.4.0/call_contract_context.go:44-62 | The object's word becomes the specified one |
| `CallContext.CallContractContext.GetAllTypes` | vm/v2@v2.4.0/call_contract_context.go:110-123 | The backwards loop fills the array with the word's types, oldest first |
| `CallContext.CallContractContext.ClearLatestLayer` | vm/v2@v2.4.0/call_contract_context.go:65-82 | The loop over the older types rebuilds index, depth and list |
| `CallContext.CallContractContext.HasUsed` | vm/v2@v2.4.0/call_contract_context.go:90-93 | One bit test on the index of the word |
| `CallContext.CallContractContext.GetTypeByDepth` | vm/v2@v2.4.0/call_contract_context.go:96-107 | Depth 0 and depths above the current one are errors; otherwise the type of that depth |
| `CallContext.CallContractContext.GetDepth` | vm/v2@v2.4.0/call_contract_context.go:85-87 | The four top bits |
| `Reports.GetTxRWSet` | vm/v2@v2.4.0/tx_sim_context.go:709-771 | Read and write lists are functions of the layers alone, so the same for every order the maps are ranged over; SQL or DDL records follow; on failure only the account manager's writes are listed, from 2.3.0 on; no lookup of a contract without '#' in its name changes |
| `Reports.Collect` | vm/v2@v2.4.0/tx_sim_context.go:774-837 | The three merge loops by version: map and gathered keys they produce (collectReadSetAndKey and collectWriteSetAndKey) |
| `Reports.CollectLayerOver` | vm/v2@v2.4.0/sim_context_rwset_cache.go:36-53 | One layer: its maps go over what was gathered in the order the contracts are ranged over; with plain names that is the layer's one map |
| `Reports.CollectAscending` | vm/v2@v2.4.0/tx_sim_context.go:793-801 | From 2.3.5: newer layers win |
| `Reports.CollectDescending` | vm/v2@v2.4.0/tx_sim_context.go:782-792 | From 2.3.1.2 to before 2.3.5: older layers win |
| `Reports.CollectInPlace` | vm/v2@v2.4.0/tx_sim_context.go:782-791 | Before 2.3.1.2: newer layers win although each layer's own map is merged into; no contract's lookup changes |
| `Reports.CollectKeys` | vm/v2@v2.4.0/sim_context_rwset_cache.go:12-33 | Each key of the map once, in any order |
| `Reports.SortAndList` | vm/v2@v2.4.0/tx_sim_context.go:722-735 | The gathered keys in order, each with its entry |
| `Sorting.SortStrings` | vm/v2@v2.4.0/tx_sim_context.go:722-735 | Sorting gives the one sorted sequence of the same keys with the same multiplicities |
| `Reports.ReportFailure` | vm/v2@v2.4.0/tx_sim_context.go:740-759 | The account manager's entries over all layers, sorted; the in-place merge changes no lookup |
| `Reports.GetTxRWMapByContractName` | vm/v2@v2.4.0/tx_sim_context.go:864-879 | Both maps are the newest-wins overlay of the contract's layers, and the state after is exactly that of merging each layer into the one below in place |
| `Reports.PooledContextLookups` | vm/v2@v2.4.0/tx_sim_context.go:864-879 | That merging in place changes no read or write lookup at the current depth, of any contract |
| `Reports.QueryDefeatsRollback` | vm/v2@v2.4.0/tx_sim_context.go:864-879 | After the query a rollback keeps all of the failed callee's writes to the queried contract, though the caller's layer has it |
| `Reports.QueriedRollbackIff` | vm/v2@v2.4.0/tx_sim_context.go:839-931 | A call that fails after the query leaves all of its caller's write lookups as they were if and only if it changed nothing of the queried contract and nothing of contracts absent from the caller's layer |
| `Reports.QueryAndFail` | vm/v2@v2.4.0/tx_sim_context.go:839-1028 | The same on the object: the query, then the failing return |
| `ObjectWitnesses.PeekAndFail` | vm/v2@v2.4.0/tx_sim_context.go:839-1028 | On a new object: caller and callee write one key and the callee fails; the caller's write is back, unless the callee queried the contract's sets or, before 2.3.5, scanned the contract |
| `Reports.CollectWriteSetByContractName` | vm/v2@v2.4.0/tx_sim_context.go:839-861 | The overlay of the contract's write maps; before 2.3.5 merged in place, from then on in a map of its own |
| `Overlays.OverlayIsFind` | vm/v2@v2.4.0/tx_sim_context.go:864-879 | The overlay holds under each map key what the search through the layers finds |
| `Overlays.LookupIsFind` | vm/v2@v2.4.0/tx_sim_context.go:575-647 | A lookup of (contract, key) is the search for contract#key in that contract's maps |
| `Overlays.PoolingKeepsLookups` | vm/v2@v2.4.0/sim_context_rwset_cache.go:36-53 | Merging a contract's layers in place changes what is found for no key of any contract |
| `Overlays.AbsorbTurn` | vm/v2@v2.4.0/sim_context_rwset_cache.go:36-53 | Merging everything gathered so far into one contract's map changes what is found for no key in its own contract |
| `Overlays.NewestIsFind` | vm/v2@v2.4.0/tx_sim_context.go:774-837 | The newest-wins map holds under each map key what its own contract's lookup finds |
| `ReportLaws.ReportAgreesIff` | vm/v2@v2.4.0/tx_sim_context.go:774-837 | A report lists exactly what lookups at the current depth find, nothing lost and nothing stale, if and only if the version merges newest over oldest or, for each map key, the lowest and the highest layer holding it agree |
| `ReportLaws.ReportIsLookup` | vm/v2@v2.4.0/tx_sim_context.go:774-837 | Before 2.3.1.2 and from 2.3.5 an entry is reported if and only if a lookup finds it |
| `ReportLaws.StaleReport` | vm/v2@v2.4.0/tx_sim_context.go:782-792 | A two-layer stack whose report, from 2.3.1.2 to before 2.3.5, lists the older value and not the newer |
| `ReportLaws.ReportSorted` | vm/v2@v2.4.0/tx_sim_context.go:722-735 | The lists are sorted by map key, each key coming once for every layer that holds it |
| `ReportLaws.ReportAtDepthZero` | vm/v2@v2.4.0/tx_sim_context.go:774-837 | At depth 0 all versions report the same list, strictly sorted, without duplicates |
| `ReportLaws.MergeOrders` | vm/v2@v2.4.0/tx_sim_context.go:774-837 | Which layer's entry each version reports: the highest holding the key, or, from 2.3.1.2 to before 2.3.5, the lowest |
| `ReportLaws.OrderMatters` | vm/v2@v2.4.0/tx_sim_context.go:795-798 | The map CollectLayerOver gathers from a layer is the same for every order of its contracts if and only if no two contracts hold different entries under one map key |
| `Overlays.MergedIsLayerMap` | vm/v2@v2.4.0/tx_sim_context.go:793-801 | With plain names every order gives the layer's one map |
| `Overlays.HashFreeNamesDoNotClash` | vm/v2@v2.4.0/tx_sim_context.go:1092-1098 | Contract names without '#' meet that condition |
| `ReportLaws.HashInNameClashes` | vm/v2@v2.4.0/tx_sim_context.go:1092-1098 | Two writes, one to a contract with '#' in its name, that do not meet it |
| `ReportLaws.TransactionReport` | vm/v2@v2.4.0/tx_sim_context.go:709-771 | After any transaction with plain contract names the two lists are, at every version, exactly the flat interpreter's reads and own writes, each key once, in order |
| `ReportLaws.RunAndReport` | vm/v2@v2.4.0/tx_sim_context.go:709-771 | Running a transaction and reporting it, end to end on the object, successful or failed |
| `ReportLaws.ContractListed` | vm/v2@v2.4.0/tx_sim_context.go:742-759 | The account manager's list is exactly its part of the own writes, strictly sorted |
| `Ownership.ExecFiled` | vm/v2@v2.4.0/tx_sim_context.go:509-572 | Over every run each entry sits under its own map key in the set of its own contract |
| `Ownership.LeaveFiled` | vm/v2@v2.4.0/tx_sim_context.go:1031-1079 | Commit and rollback keep that |
| `Iterators.WsetIterator.Next` | vm/v2@v2.4.0/wset_iterator.go:30-32 | True exactly while entries are left |
| `Iterators.WsetIterator.Value` | vm/v2@v2.4.0/wset_iterator.go:35-50 | Gives the entry with the least key and removes it |
| `Iterators.FirstKey` | vm/v2@v2.4.0/wset_iterator.go:39-48 | The first key of the sorted map |
| `Iterators.SimContextIterator.constructor` | vm/v2@v2.4.0/sim_context_iterator.go:30-42 | A fresh merged iterator has the merge of its two sources to come |
| `Iterators.SimContextIterator.Next` | vm/v2@v2.4.0/sim_context_iterator.go:45-100 | Moves to the next row of the two-way merge, own and block writes winning over the store on equal keys; false exactly when nothing is left |
| `Iterators.SimContextIterator.Value` | vm/v2@v2.4.0/sim_context_iterator.go:125-148 | Gives the current row and records it in the read set of the transaction's contract, from 2.3.5 on unless its raw key is found among the write maps' keys |
| `Iterators.SimContextIterator.IterKeyInSimCtxWSet` | vm/v2@v2.4.0/sim_context_iterator.go:102-122 | Whether some layer's write map has the raw key as a map key |
| `Iterators.MergeIncreasing` | vm/v2@v2.4.0/sim_context_iterator.go:72-100 | The merge of two strictly increasing sequences is strictly increasing |
| `Iterators.MergeHas` | vm/v2@v2.4.0/sim_context_iterator.go:72-100 | A row is in the merge if and only if the first source has it, or the second has it and the first lacks its key |
| `Scans.Select` | vm/v2@v2.4.0/tx_sim_context.go:338-388 | The iterator's pending rows are the in-range keys of own writes, block writes and store, in order, each once, with the value of the first of these that has the key; no lookup changes |
| `Scans.ScanRow` | vm/v2@v2.4.0/tx_sim_context.go:350-388 | The row of an in-range key: the transaction's own write; without one, the write in the table's highest transaction that wrote the key, at its highest place there, whatever its contract; without any, the store's; and no row otherwise |
| `Scans.BlockWrites` | vm/v2@v2.4.0/tx_sim_context.go:350-365 | The last in-range write of each key in the block's table, whatever contract made it; ScanRow says which place of the table that is |
| `Scans.AddOwnWrites` | vm/v2@v2.4.0/tx_sim_context.go:367-379 | The transaction's own in-range writes go over the block's |
| `Scans.Drain` | vm/v2@v2.4.0/sim_context_iterator.go:45-148 | Draining gives all pending rows in order and leaves the layers as taking them one by one does, each row entering the payload's read set if its key may |
| `Scans.ScanRecords` | vm/v2@v2.4.0/sim_context_iterator.go:125-148 | After a drained scan a key of the payload's contract reads as its row's value if and only if a row has it and the version is before 2.3.5 or no write map has it as a map key; every other lookup is unchanged |
| `Scans.FailedScanLeaks` | vm/v2@v2.4.0/sim_context_iterator.go:102-148 | A failed call that scanned its own write of a contract its caller had touched: the write is rolled back, and the caller's next Get gives the rolled-back value if and only if the scanned contract is the payload's and the key enters the read set (no own write or read of the caller, the snapshot giving something else) |
| `ObjectWitnesses.ScanAndFail` | vm/v2@v2.4.0/sim_context_iterator.go:102-148 | On a new object from 2.3.5 on: the callee writes a key and fails; the caller then reads the snapshot's value, or, when the callee scanned the key, the value rolled back |
| `Scans.ScanAll` | vm/v2@v2.4.0/tx_sim_context.go:338-388 | From end to end: Select and the drain give exactly the in-range keys with a source, in order, with the values single reads gave before, and change the lookups by what is recorded and nothing else (in-range block writes being the contract's own) |
| `Scans.ScanAgreesWithPointReads` | vm/v2@v2.4.0/tx_sim_context.go:281-299 | When every in-range block write is the scanned contract's, a scan covers exactly the in-range keys of own writes, block writes and store, each once and in order, and each value is what GetNoRecord reads, a deleted key showing empty; the snapshot answers with the contract's last write in the table, else the store |
| `Scans.ScanFaithfulIff` | vm/v2@v2.4.0/tx_sim_context.go:352-364 | A scan shows exactly what the contract has if and only if no in-range key was last written in the block by another contract, with a different outcome and no own write over it |
| `Scans.ForeignWriteIsShown` | vm/v2@v2.4.0/tx_sim_context.go:352-364 | A concrete table where another contract's key shows up |
| `Scans.PrefixScan` | vm/v2@v2.4.0/wasi.go:734-743 | A scan over the range built for an accepted prefix covers exactly the keys having the prefix |
| `Scans.RawKeyCheck` | vm/v2@v2.4.0/sim_context_iterator.go:102-122 | The comparison hits exactly the raw keys that are themselves some own write's contract#key |
| `Scans.EntersIff` | vm/v2@v2.4.0/sim_context_iterator.go:125-148 | A scanned row stays out of the read set if and only if the version is at least 2.3.5 and its key is some own write's contract#key |
| `Scans.HashFreeEnters` | vm/v2@v2.4.0/sim_context_iterator.go:102-122 | So a row whose key holds no '#' enters the read set in every version, also when it is the transaction's own write |
| `Batches.KeysAnswered` | vm/v2@v2.4.0/tx_sim_context.go:214-251 | Up to 2.3.6.1, and on the paths over own writes and values read, the requested keys come back with the values single Gets give, in request order under the exact conditions of TwoSourceOrder and ThreeSourceOrder; above 2.3.6.1 the path over the snapshot gives request order, duplicates included, if and only if requests with one tag are the same request, and otherwise what comes back is not even a rearrangement of it |
| `Batches.ValueForIsGet` | vm/v2@v2.4.0/tx_sim_context.go:214-251 | The value a batch gives for a contract, key and field is the one a Get observes under the state key of key and field |
| `Batches.OneKeyIsGet` | vm/v2@v2.4.0/tx_sim_context.go:214-251 | A batch of one key gives what a Get under its state key gives, from the same source, and asks the snapshot exactly when the Get would |
| `Batches.BatchAfterPut` | vm/v2@v2.4.0/tx_sim_context.go:650-673 | What was put under the state key of a key and field a batch finds, and does not ask for |
| `Batches.OwnWritesRead` | vm/v2@v2.4.0/tx_sim_context.go:650-673 | A batch puts the own writes it finds into the read set before 2.3.5, and changes nothing then on |
| `Batches.SortedIsRequestOrder` | vm/v2@v2.4.0/tx_sim_context.go:257-278 | Sorting restores request order if and only if requests with one tag are the same request (the tag leaves the contract out) |
| `Batches.SortRefusedIff` | vm/v2@v2.4.0/tx_sim_context.go:257-278 | Sorting is an error if and only if the numbers differ or some request has no result with its key, '#' and field |
| `Batches.SortedAt` | vm/v2@v2.4.0/tx_sim_context.go:257-278 | Otherwise each request gets the last result with its key, '#' and field |
| `Batches.SortedLosesIff` | vm/v2@v2.4.0/tx_sim_context.go:257-278 | The sorted results are a rearrangement of the requests with their values if and only if requests with one tag are the same request: otherwise a request is lost and another one's result stands in its place |
| `Witnesses.BatchLosesKey` | vm/v2@v2.4.0/tx_sim_context.go:246-278 | A transaction above 2.3.6.1 that asks for one key of two contracts: one contract's value comes back twice, the other's not at all |
| `Batches.AcceptedTagsDetermine` | vm/v2@v2.4.0/tx_sim_context.go:265-273 | Accepted keys and fields of one contract are determined by the tag |
| `Batches.GatheredAll` | vm/v2@v2.4.0/tx_sim_context.go:214-251 | Own writes, values read and snapshot answers together are every request once |
| `Batches.TwoSourceOrder` | vm/v2@v2.4.0/tx_sim_context.go:228-236 | Answered from own writes and reads alone, request order is kept if and only if no written key follows a read one |
| `Batches.ThreeSourceOrder` | vm/v2@v2.4.0/tx_sim_context.go:228-250 | The snapshot's results before own writes before values read are in request order if and only if the snapshot answers in its own order and the request has the sources in that order |
| `Witnesses.UnreadComesFirst` | vm/v2@v2.4.0/tx_sim_context.go:228-250 | A transaction up to 2.3.6.1 that reads a key and asks for it and another: they come back in the other order |
| `Witnesses.BatchOutOfOrder` | vm/v2@v2.4.0/tx_sim_context.go:228-236 | A transaction that reads one key, writes another and asks for both: in every version they come back in the other order |
| `Batches.BatchReadFiled` | vm/v2@v2.4.0/tx_sim_context.go:533-542 | After a one-key batch read the read set has the key's value if and only if the version is above 2.3.6.1 or field and value are both empty |
| `Batches.FiledLast` | vm/v2@v2.4.0/tx_sim_context.go:533-542 | What a batch files under one state key is the value it files last |
| `Batches.BatchRecorded` | vm/v2@v2.4.0/tx_sim_context.go:533-542 | Above 2.3.6.1 every key a batch took from the snapshot is in the read set with that value, under the state key of key and field |
| `Keys.SplitKeyRoundTrip` | vm/v2@v2.4.0/wasi.go:821-826 | Splitting a state key as the iterator does gives back key and field if and only if neither holds a '#' |
| `Keys.AcceptedKeyRoundTrip` | protocol/v2@v2.4.0/vm_interface.go:368-409 | So it does for every pair CheckKeyFieldStr accepts |
| `Keys.KeyFieldAccepted` | protocol/v2@v2.4.0/vm_interface.go:384-409 | What is accepted: a key of 1 to 1024 and a field of at most 1024 characters |
| `Keys.AllowedIs` | protocol/v2@v2.4.0/vm_interface.go:384-409 | each a letter, a digit, '.', '_' or '-' |
| `Keys.GetKeyInjective` | protocol/v2@v2.4.0/vm_interface.go:368-382 | Accepted pairs with one state key are equal |
| `Keys.ConstructKeyInjective` | vm/v2@v2.4.0/tx_sim_context.go:1092-1098 | contract#key determines contract and key when contract names hold no '#' |
| `Keys.PrefixRangeExact` | vm/v2@v2.4.0/wasi.go:740-741 | The interval from a prefix to its limit is exactly the strings with that prefix if and only if the prefix's last byte is below 127 |
| `Keys.AcceptedPrefixRange` | vm/v2@v2.4.0/wasi.go:734-743 | So it is for every accepted prefix |
| `Gas.GasMeter.SubtractGas` | vm/v2@v2.4.0/tx_sim_context.go:1269-1279 | The wrapping subtraction and its two failure tests |
| `Gas.ChargeAccepted` | vm/v2@v2.4.0/tx_sim_context.go:1269-1279 | A charge is accepted if and only if the remainder is not negative as a signed number and covers it |
| `Gas.LeftIsLimitMinusSum` | vm/v2@v2.4.0/tx_sim_context.go:1269-1279 | While all charges are accepted what is left is the limit minus their sum, which stays within the limit |
| `Gas.GasRun` | vm/v2@v2.4.0/tx_sim_context.go:1269-1279 | With a limit below 2^63 and charges of at most 2^63, after the first failure every later charge fails |
| `Gas.FailureIsFinal` | vm/v2@v2.4.0/tx_sim_context.go:1269-1279 | A failure is final if and only if the charge exceeds what was left by at most 2^63 |
| `Pools.RunConserved` | vm-wasmer/v2@v2.4.0/vm_pool.go:603-666 | Over every interleaving each instance made is in exactly one place, and currentSize, never negative although it is decremented without a test, counts those in the channel, checked out and discarded awaiting their remove signal |
| `Pools.StepConserved` | vm-wasmer/v2@v2.4.0/vm_pool.go:946-1016 | Every single step of a caller or the loop keeps that |
| `Pools.InitialConserved` | vm-wasmer/v2@v2.4.0/vm_pool.go:1043-1058 | A pool grown to its minimum starts so |
| `Pools.TakenIsFree` | vm-wasmer/v2@v2.4.0/vm_pool.go:603-637 | What a caller is handed nobody else holds, and it is not closed |
| `Pools.ClosedNeverHandedOut` | vm-wasmer/v2@v2.4.0/vm_pool.go:1071-1081 | An instance once closed is never in the channel or with a caller again |
| `Pools.DrainLeavesNothing` | vm-wasmer/v2@v2.4.0/vm_pool.go:983-1007 | A close or reset drain that ends leaves nothing in the channel, checked out, or awaiting removal |
| `Pools.DrainFinishesIff` | vm-wasmer/v2@v2.4.0/vm_pool.go:980-1013 | A drain can end if and only if no discarded instance awaits its remove signal and none checked out is due to be discarded, since the loop that would take the signal is the one draining |
| `PoolBound.CloseBlocksForever` | vm-wasmer/v2@v2.4.0/vm_pool.go:983-1010 | A run from a new pool: one instance fails eleven times and is returned, the pool is closed, and no continuation ends the drain |
| `Pools.ShrinkFinishesIff` | vm-wasmer/v2@v2.4.0/vm_pool.go:1071-1081 | A shrink can end if and only if the channel and the instances checked out and not due to be discarded are as many as it still has to take |
| `PoolBound.TimerBlocksForever` | vm-wasmer/v2@v2.4.0/vm_pool.go:962-979 | A run from a new pool: grown to ten, six instances fail eleven times and are returned, the timer starts a shrink, and no continuation ends it |
| `Pools.SizeAtLoopHead` | vm-wasmer/v2@v2.4.0/vm_pool.go:946-1016 | On reset-free runs, size plus discards between their two signals is a multiple of five at the loop head |
| `Pools.RunRounded` | vm-wasmer/v2@v2.4.0/vm_pool.go:1022-1081 | The same arithmetic in every state of the loop |
| `Pools.ShrinkLeavesMinimum` | vm-wasmer/v2@v2.4.0/vm_pool.go:1063-1081 | A shrink with no discard in flight leaves at least five |
| `Pools.RunBounded` | vm-wasmer/v2@v2.4.0/vm_pool.go:1022-1058 | With at most four discards in flight the size never exceeds 50 |
| `PoolBound.BoundIff` | vm-wasmer/v2@v2.4.0/vm_pool.go:640-650 | Reset-free runs with at most k discards in flight stay within 50 if and only if k is at most four |
| `PoolBound.FiveInFlightOverfill` | vm-wasmer/v2@v2.4.0/vm_pool.go:640-650 | A run from a new pool, with five in flight, to 51 instances |
| `ResetBound.ResetBoundIff` | vm-wasmer/v2@v2.4.0/vm_pool.go:993-1013 | Over all runs, resets included, with at most k discards in flight the size stays within 50 if and only if k is 0 |
| `ResetBound.ResetOverfills` | vm-wasmer/v2@v2.4.0/vm_pool.go:993-1013 | A run from a new pool with one reset and one discard in flight at a time, to 51 instances |
| `PoolBound.GrowAll` | vm-wasmer/v2@v2.4.0/vm_pool.go:1043-1058 | A growth nobody interrupts is a run of single steps |
| `VmPools.VmPool.constructor` | vm-wasmer/v2@v2.4.0/vm_pool.go:913-940 | A pool as its manager makes it |
| `Pools.SlowWhen` | vm-wasmer/v2@v2.4.0/vm_pool.go:1160-1167 | The pool counts as slow exactly when it was used and its delays come to eleven or more for each use |
| `VmPools.VmPool.ShouldGrowNow` | vm-wasmer/v2@v2.4.0/vm_pool.go:1022-1041 | The decision to grow; below the minimum also when the maximum test would forbid it |
| `VmPools.VmPool.ShouldShrinkNow` | vm-wasmer/v2@v2.4.0/vm_pool.go:1063-1069 | The decision to shrink |
| `PoolLaws.ApplyDecides` | vm-wasmer/v2@v2.4.0/vm_pool.go:952-961 | Over every run, counting events: an apply signal starts a growth by five if and only if the size is below five, or it is at most 45 and this is at least the 101st apply signal since the last growth for such a signal or the timer, or callers waited eleven or more for each use since the timer's last turn |
| `PoolLaws.TimerDecides` | vm-wasmer/v2@v2.4.0/vm_pool.go:962-979 | The timer starts a growth in the same terms; otherwise a shrink by five when there are more than five and callers did not wait long; otherwise nothing |
| `PoolLaws.RevertDecides` | vm-wasmer/v2@v2.4.0/vm_pool.go:640-650 | Over every run: a returned instance goes to the channel's end, or out of use if it failed eleven times or more |
| `PoolLaws.FirstInFirstOut` | vm-wasmer/v2@v2.4.0/vm_pool.go:603-650 | Over every run instances leave the channel, to callers or to be closed, in the order in which they came |
| `PoolLaws.SignalsConserved` | vm-wasmer/v2@v2.4.0/vm_pool.go:617-622 | Each wait sends one apply signal and ends with one instance; those not received and not ended are pending |
| `VmPools.VmPool.TryGetInstance` | vm-wasmer/v2@v2.4.0/vm_pool.go:603-623 | The caller takes the first instance, or signals and waits, as the step says |
| `VmPools.VmPool.AwaitedInstance` | vm-wasmer/v2@v2.4.0/vm_pool.go:624-637 | The wait's end: the first instance is taken and the time waited added to the delay |
| `VmPools.VmPool.Callers` | vm-wasmer/v2@v2.4.0/vm_pool.go:603-650 | Any sequence of callers' steps between two steps of the loop |
| `VmPools.VmPool.RevertInstance` | vm-wasmer/v2@v2.4.0/vm_pool.go:640-650 | Back into the channel, or discarded above ten errors |
| `VmPools.VmPool.Grow` | vm-wasmer/v2@v2.4.0/vm_pool.go:1043-1058 | The loop's sends and counts, callers stepping in between: the run of single steps, each send waiting until the channel has room |
| `VmPools.VmPool.Shrink` | vm-wasmer/v2@v2.4.0/vm_pool.go:1071-1081 | The loop's receives and counts, callers stepping in between, each receive waiting until the channel has an instance |
| `VmPools.VmPool.Drain` | vm-wasmer/v2@v2.4.0/vm_pool.go:983-991 | The same until the size is 0 |
| `VmPools.VmPool.HandleApply` | vm-wasmer/v2@v2.4.0/vm_pool.go:952-961 | One turn on an apply signal, callers stepping in between: the run of its single steps, the counter reset after a growth only |
| `VmPools.VmPool.HandleRefresh` | vm-wasmer/v2@v2.4.0/vm_pool.go:962-979 | One turn of the timer, callers stepping in between: grow, else shrink, then the statistics are cleared |
| `VmPools.VmPool.HandleRemove` | vm-wasmer/v2@v2.4.0/vm_pool.go:1008-1010 | One turn on a remove signal |
| `VmPools.VmPool.HandleAdd` | vm-wasmer/v2@v2.4.0/vm_pool.go:1011-1013 | One turn on an add signal, callers stepping in between |
| `VmPools.VmPool.HandleClose` | vm-wasmer/v2@v2.4.0/vm_pool.go:980-992 | The turn of a close signal, callers stepping in between: the drain, and the end of the loop |
| `VmPools.VmPool.HandleReset` | vm-wasmer/v2@v2.4.0/vm_pool.go:993-1007 | The turn of a reset signal: the drain, a new channel, and a growth to the minimum size |
| `VmPools.QuietTurns` | vm-wasmer/v2@v2.4.0/vm_pool.go:946-1016 | With no caller stepping in, the loop never waits in a turn an apply signal starts; it waits in the timer's exactly when it is to shrink and fewer than five are idle, and in an add signal's exactly when the channel is full |
| `PoolLaws.QuietApply` | vm-wasmer/v2@v2.4.0/vm_pool.go:952-961 | The state after a growth for an apply signal with callers away: five fresh instances at the channel's end, the signal gone, the count from zero |
| `PoolLaws.QuietTimerGrows` | vm-wasmer/v2@v2.4.0/vm_pool.go:962-979 | The same for the timer, uses and delays from zero again |
| `PoolLaws.QuietTimerShrinks` | vm-wasmer/v2@v2.4.0/vm_pool.go:962-979 | The state after the timer's shrink: the channel's first five closed, uses and delays from zero |
| `PoolLaws.QuietAdd` | vm-wasmer/v2@v2.4.0/vm_pool.go:1011-1013 | The state after an add signal: one fresh instance for the discarded one |
| `PoolLaws.QuietDrain` | vm-wasmer/v2@v2.4.0/vm_pool.go:980-1003 | The state after a close or the drain of a reset with everything idle: all closed, the loop ended or refilling |
| `PoolLaws.QuietReset` | vm-wasmer/v2@v2.4.0/vm_pool.go:993-1007 | The state after a reset with everything idle: five fresh instances, all others closed |
| `Version.ToVersionInt` | protocol/v2@v2.4.0/version_helper.go:84-115 | Every refusal, the four-element array and the pad, concatenate and parse conversion |
| `Version.AcceptedIff` | protocol/v2@v2.4.0/version_helper.go:84-104 | A version is accepted if and only if it holds no underscore, has two or three dots after an optional v, and a number in each part; a missing fourth part is 0 |
| `Version.AtoiIs` | protocol/v2@v2.4.0/version_helper.go:96-104 | A number is digits with an optional sign that fit 64 bits |
| `Version.EncodedCut` | protocol/v2@v2.4.0/version_helper.go:106-114 | For all parts without sign the number written is cut to 32 bits, an error from 64 bits on |
| `Version.MinusInside` | protocol/v2@v2.4.0/version_helper.go:106-114 | A minus sign on a part after the first is an error |
| `Version.MinusFirst` | protocol/v2@v2.4.0/version_helper.go:106-114 | With one on the first part the number is that without it, negated, and cut to 32 bits |
| `Version.FormattedValue` | protocol/v2@v2.4.0/version_helper.go:106-110 | For all parts without sign the digits written read as the base-100 number of the parts if and only if no part of three digits or more comes after a part that is not 0; otherwise they read as more |
| `Version.EncodedValue` | protocol/v2@v2.4.0/version_helper.go:106-114 | Such versions are encoded as their base-100 number if and only if it fits 32 bits; with digits that fit 32 bits no other version is |
| `Version.EncodedMonotone` | protocol/v2@v2.4.0/version_helper.go:106-114 | Versions with at most two digits in every part but the first compare as their numbers do, both ways |
| `Version.OrdinaryIff` | protocol/v2@v2.4.0/version_helper.go:106-114 | Among the versions encoded as their base-100 number they are the only ones that compare rightly with all of them |
| `Version.VersionOrder` | protocol/v2@v2.4.0/version_helper.go:84-115 | The order from the strings |
| `Version.ThreeDigitsCollide` | protocol/v2@v2.4.0/version_helper.go:106-114 | The parts of 2.3.100 and 20.31.0 get one number |
| `Version.StringsCollide` | protocol/v2@v2.4.0/version_helper.go:84-115 | So do the two strings |
| `Version.DottedNumbers` | protocol/v2@v2.4.0/version_helper.go:84-104 | A version written with three parts is accepted with exactly those parts |
| `Version.DottedFourNumbers` | protocol/v2@v2.4.0/version_helper.go:84-104 | The same with four parts |
| `Version.BlockVersionNumbers` | vm/v2@v2.4.0/tx_sim_context.go:34-45 | The block versions this model compares with are the numbers of the versions they are named after |

## Left out

- SQL execution, save points and `PutRecord`: the SQL and DDL records reach the report as parameters.
- The stored contract and byte code, the verdict of access control, whether a contract is native, how the transaction type classifies it and how its runtime starts: parts of each call request. So are clocks and delays, as numbers.
- Calls.AllowedCallRuns: the status codes of a failed lookup of sender or creator are not told apart from the contract failing.
- Signatures, method names and parameters of contracts beyond what decides an exit; messages and logs; `hisResult` and `currentResult`.
- Panics inside `RunContract`, and callers still waiting on a channel that close or reset closes: assumed not to happen.
- A nil layer is not told apart from an empty one, nor a nil value from an empty one; `Del` is `Put` of the empty value. Maps handed out by `GetTxRWMapByContractName` are values, so later use of the returned map as an alias is not modelled.
- Iterators, queries of one contract's sets and reports are operations on a context between steps of a contract program; they are not operations of the programs the whole-run theorems range over, whose flat interpreter has no layers for an early scan or a query to merge in place. What they record or merge is stated on the layers (`Scans.ScanRecords`, `Reports.QueriedRollbackIff`).
- TxSimContexts.TxSimContext.GetKeys: batch keys are values, so that two requests may be one pointer is not modelled. The snapshot's batch answer is arbitrary in the step and in the refinement; `Batches.KeysAnswered` is for answers that are a permutation of the requested keys, repeatable reads for answers about requested keys only, which is what a snapshot gives.
- Pools.RunConserved: instance creation always gives a fresh instance, a blocked channel send is a step that is not enabled, and receiving a remove signal and counting it is one step.
- VmPools.VmPool.Grow: the callers' steps that come in between are an argument of the method; that they let the loop's waits end is its precondition, since a turn that waits for ever has no end to state.
- Scans.Select: the store is a finite map whose in-range rows come sorted, and a failing store iterator and `Release` are not modelled.
- 32-bit overflow of the pool's counters, the refresh timer, the wasm binding and its metering.
- Key history iterators, row handle caches, context recycling, crypto, addresses, codec and memory copies of the system calls: easy members, or foreign code.
