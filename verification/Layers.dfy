/**
 The read/write sets of a transaction as values: one layer per call depth, one pair of maps per
 contract in a layer, newest layer last.
 */
module Layers {
  import opened ByteStrings
  import opened Keys

  /** A TxRead or a TxWrite. */
  datatype Entry = Entry(contract: Bytes, key: Bytes, value: Bytes)

  type KeyMap = map<Bytes, Entry>

  datatype RW = RW(readMap: KeyMap, writeMap: KeyMap)

  datatype Side = Reads | Writes

  type Layer = map<Bytes, RW>

  type Stack = seq<Layer>

  function Pick(rw: RW, side: Side): KeyMap {
    match side case Reads => rw.readMap case Writes => rw.writeMap
  }

  function Top(st: Stack): Layer
    requires st != []
  {
    st[|st| - 1]
  }

  function Below(st: Stack): Stack
    requires st != []
  {
    st[..|st| - 1]
  }

  /** The entry the newest layer holding (contract, key) has on that side. */
  function Lookup(st: Stack, side: Side, contract: Bytes, key: Bytes): Option<Bytes> {
    if st == [] then None
    else
      match InLayer(Top(st), side, contract, key)
      case Some(v) => Some(v)
      case None => Lookup(Below(st), side, contract, key)
  }

  function InLayer(layer: Layer, side: Side, contract: Bytes, key: Bytes): Option<Bytes> {
    var fk := ConstructKey(contract, key);
    if contract in layer && fk in Pick(layer[contract], side)
    then Some(Pick(layer[contract], side)[fk].value)
    else None
  }

  function SetOf(layer: Layer, contract: Bytes): RW {
    if contract in layer then layer[contract] else RW(map[], map[])
  }

  function StoreEntry(rw: RW, side: Side, contract: Bytes, key: Bytes, value: Bytes): RW {
    var fk, entry := ConstructKey(contract, key), Entry(contract, key, value);
    match side
    case Reads => rw.(readMap := rw.readMap[fk := entry])
    case Writes => rw.(writeMap := rw.writeMap[fk := entry])
  }

  /** Writing one entry, creating the contract's set when the layer has none. */
  function Store(layer: Layer, side: Side, contract: Bytes, key: Bytes, value: Bytes): Layer {
    layer[contract := StoreEntry(SetOf(layer, contract), side, contract, key, value)]
  }

  function StoreTop(st: Stack, side: Side, contract: Bytes, key: Bytes, value: Bytes): (st': Stack)
    requires st != []
    ensures |st'| == |st| && Below(st') == Below(st)
  {
    st[|st| - 1 := Store(Top(st), side, contract, key, value)]
  }

  /** Making an empty set first, where there is none, gives the same layer. */
  lemma StoreInTwoSteps(st: Stack, side: Side, c: Bytes, k: Bytes, v: Bytes)
    requires st != []
    ensures var n, made := |st| - 1, Top(st)[c := SetOf(Top(st), c)];
      && StoreTop(st, side, c, k, v) == st[n := made][n := made[c := StoreEntry(made[c], side, c, k, v)]]
      && (c in Top(st) ==> StoreTop(st, side, c, k, v) == st[n := Top(st)[c := StoreEntry(Top(st)[c], side, c, k, v)]])
  {
    var n, made := |st| - 1, Top(st)[c := SetOf(Top(st), c)];
    assert Store(Top(st), side, c, k, v) == made[c := StoreEntry(made[c], side, c, k, v)];
  }

  lemma LookupOnTop(below: Stack, layer: Layer, side: Side, contract: Bytes, key: Bytes)
    ensures Lookup(below + [layer], side, contract, key)
         == match InLayer(layer, side, contract, key)
            case Some(v) => Some(v)
            case None => Lookup(below, side, contract, key)
  {
    assert Below(below + [layer]) == below;
  }

  /** A stored entry is found; every other lookup, on either side, is as before. */
  lemma LookupStored(st: Stack, side: Side, c: Bytes, k: Bytes, v: Bytes, side': Side, c': Bytes, k': Bytes)
    requires st != []
    ensures Lookup(StoreTop(st, side, c, k, v), side', c', k')
         == if side == side' && c == c' && k == k' then Some(v) else Lookup(st, side', c', k')
  {
    assert StoreTop(st, side, c, k, v) == Below(st) + [Store(Top(st), side, c, k, v)];
    LookupOnTop(Below(st), Store(Top(st), side, c, k, v), side', c', k');
    if c == c' && ConstructKey(c, k) == ConstructKey(c, k') {
      SameContractInjective(c, k, k');
    }
  }

  lemma LookupEmptyTop(st: Stack, side: Side, c: Bytes, k: Bytes)
    ensures Lookup(st + [map[]], side, c, k) == Lookup(st, side, c, k)
  {
    LookupOnTop(st, map[], side, c, k);
  }

  // ---------------------------------------------------------------- leaving a call

  /** The caller's layer after a successful callee's layer is merged into it. */
  function Committed(pre: Layer, callee: Layer): Layer {
    map c | c in pre.Keys + callee.Keys ::
      if c !in pre then callee[c]
      else if c !in callee then pre[c]
      else RW(pre[c].readMap + callee[c].readMap, pre[c].writeMap + callee[c].writeMap)
  }

  /** The caller's layer after a failed callee: a set the caller lacks is moved up whole, writes included. */
  function RolledBack(pre: Layer, callee: Layer): Layer {
    map c | c in pre.Keys + callee.Keys ::
      if c !in pre then callee[c]
      else if c !in callee then pre[c]
      else RW(pre[c].readMap + callee[c].readMap, pre[c].writeMap)
  }

  function Commit(st: Stack): Stack
    requires |st| >= 2
  {
    Below(Below(st)) + [Committed(Top(Below(st)), Top(st))]
  }

  function Rollback(st: Stack): Stack
    requires |st| >= 2
  {
    Below(Below(st)) + [RolledBack(Top(Below(st)), Top(st))]
  }

  /** After a commit every lookup at the caller's depth is what the callee saw. */
  lemma CommitKeepsLookups(st: Stack, side: Side, c: Bytes, k: Bytes)
    requires |st| >= 2
    ensures Lookup(Commit(st), side, c, k) == Lookup(st, side, c, k)
  {
    var pre, callee := Top(Below(st)), Top(st);
    LookupOnTop(Below(Below(st)), Committed(pre, callee), side, c, k);
    assert Below(st) == Below(Below(st)) + [pre];
    assert st == Below(st) + [callee];
    LookupOnTop(Below(st), callee, side, c, k);
    LookupOnTop(Below(Below(st)), pre, side, c, k);
  }

  /**
   * After a rollback a write is as the caller had it when the caller's layer knew the contract, and as
   * the failed callee left it when it did not. Reads are kept either way.
   */
  lemma RollbackLookup(st: Stack, side: Side, c: Bytes, k: Bytes)
    requires |st| >= 2
    ensures Lookup(Rollback(st), side, c, k)
         == if side == Writes && c in Top(Below(st)) then Lookup(Below(st), side, c, k) else Lookup(st, side, c, k)
  {
    var pre, callee := Top(Below(st)), Top(st);
    LookupOnTop(Below(Below(st)), RolledBack(pre, callee), side, c, k);
    assert Below(st) == Below(Below(st)) + [pre];
    assert st == Below(st) + [callee];
    LookupOnTop(Below(st), callee, side, c, k);
    LookupOnTop(Below(Below(st)), pre, side, c, k);
  }

  /**
   * A failed call leaves every write lookup of the caller as it was exactly when each contract the
   * callee wrote to, with an effect, already had a set in the caller's layer.
   */
  lemma RollbackUndoesWrites(st: Stack)
    requires |st| >= 2
    ensures (forall c, k :: Lookup(Rollback(st), Writes, c, k) == Lookup(Below(st), Writes, c, k))
       <==> (forall c, k :: c !in Top(Below(st)) ==>
              InLayer(Top(st), Writes, c, k).None?
              || InLayer(Top(st), Writes, c, k) == Lookup(Below(st), Writes, c, k))
  {
    assert st == Below(st) + [Top(st)];
    forall c, k
      ensures Lookup(Rollback(st), Writes, c, k) == Lookup(Below(st), Writes, c, k)
         <==> (c !in Top(Below(st)) ==>
                InLayer(Top(st), Writes, c, k).None?
                || InLayer(Top(st), Writes, c, k) == Lookup(Below(st), Writes, c, k))
    {
      RollbackLookup(st, Writes, c, k);
      LookupOnTop(Below(st), Top(st), Writes, c, k);
    }
  }
}
