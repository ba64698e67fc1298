/**
 Connecting and disconnecting one block (src/node/node.ts:1707-1766): transactions are staged
 in the UTXO set and index writes are appended to a batch. Each method is proved to have the
 effect module `Chain` gives for one block more or less.
 */
module Connecting {
  import opened Ledger
  import opened Utxo
  import opened Store
  import opened Layers
  import opened Chain
  import opened UtxoSets
  import opened AddressIndex

  /** Reads a height of the canonical chain back from the store, unless some part of it is missing. */
  function CanonicalBlockWithUndo(s: State, height: int): Option<Connected> {
    if height < 0 || height !in s.heights || s.heights[height] !in s.blocks then None
    else
      var hash := s.heights[height];
      Some(Connected(s.blocks[hash], if hash in s.undo then s.undo[hash] else []))
  }

  // ---------------------------------------------------------------- transaction and anchor entries

  function WithTxs(s: State, b: Block, n: nat): State
    requires n <= |b.transactions|
  {
    s.(txIndex := s.txIndex + TxLocations(b, n), anchors := s.anchors + Anchored(b, n))
  }

  function WithoutTxs(s: State, b: Block, n: nat): State
    requires n <= |b.transactions|
  {
    s.(txIndex := s.txIndex - TxIds(b, n), anchors := s.anchors - Anchored(b, n).Keys)
  }

  lemma {:induction false} MergePut<K, V>(m: map<K, V>, e: map<K, V>, k: K, v: V)
    ensures (m + e)[k := v] == m + e[k := v]
  {
  }

  lemma {:induction false} MinusPut<K, V>(m: map<K, V>, e: map<K, V>, k: K, v: V)
    ensures (m - e.Keys) - {k} == m - e[k := v].Keys
  {
    assert e[k := v].Keys == e.Keys + {k};
  }

  function PutTxOps(b: Block, tx: Transaction): seq<Op> {
    [PutTxLocation(tx.id, b.hash)]
    + if tx.data.Some? then [PutAnchor(AnchorKeyOf(b, tx), Anchor(b.hash, b.header.timestamp))] else []
  }

  function DelTxOps(b: Block, tx: Transaction): seq<Op> {
    [DelTxLocation(tx.id)] + if tx.data.Some? then [DelAnchor(AnchorKeyOf(b, tx))] else []
  }

  lemma {:induction false} OneTxMore(b: Block, i: nat)
    requires i < |b.transactions|
    ensures var tx := b.transactions[i];
            && TxLocations(b, i + 1) == TxLocations(b, i)[tx.id := b.hash]
            && Anchored(b, i + 1)
               == if tx.data.Some? then Anchored(b, i)[AnchorKeyOf(b, tx) := Anchor(b.hash, b.header.timestamp)]
                 else Anchored(b, i)
  {
  }

  lemma {:induction false} PutTxEffect(s: State, b: Block, i: nat)
    requires i < |b.transactions|
    ensures Commit(WithTxs(s, b, i), PutTxOps(b, b.transactions[i])) == WithTxs(s, b, i + 1)
  {
    hide Commit, TxLocations, Anchored;
    var tx := b.transactions[i];
    var before := WithTxs(s, b, i);
    OneTxMore(b, i);
    MergePut(s.txIndex, TxLocations(b, i), tx.id, b.hash);
    if tx.data.Some? {
      MergePut(s.anchors, Anchored(b, i), AnchorKeyOf(b, tx), Anchor(b.hash, b.header.timestamp));
      CommitTwo(before, PutTxLocation(tx.id, b.hash),
        PutAnchor(AnchorKeyOf(b, tx), Anchor(b.hash, b.header.timestamp)));
    } else {
      CommitSingle(before, PutTxLocation(tx.id, b.hash));
    }
  }

  lemma {:induction false} CommitSingle(s: State, a: Op)
    ensures Commit(s, [a]) == ApplyOp(s, a) && Commit(s, [a] + []) == ApplyOp(s, a)
  {
    hide ApplyOp;
    assert [a][..0] == [];
    assert [a] + [] == [a];
  }

  lemma {:induction false} CommitTwo(s: State, a: Op, b: Op)
    ensures Commit(s, [a] + [b]) == ApplyOp(ApplyOp(s, a), b)
  {
    hide ApplyOp;
    CommitSingle(s, a);
    CommitOne(s, [a], b);
  }

  lemma {:induction false} DelTxEffect(s: State, b: Block, i: nat)
    requires i < |b.transactions|
    ensures Commit(WithoutTxs(s, b, i), DelTxOps(b, b.transactions[i])) == WithoutTxs(s, b, i + 1)
  {
    hide Commit;
    var tx := b.transactions[i];
    var before := WithoutTxs(s, b, i);
    assert s.txIndex - TxIds(b, i) - {tx.id} == s.txIndex - TxIds(b, i + 1);
    if tx.data.Some? {
      MinusPut(s.anchors, Anchored(b, i), AnchorKeyOf(b, tx), Anchor(b.hash, b.header.timestamp));
      CommitTwo(before, DelTxLocation(tx.id), DelAnchor(AnchorKeyOf(b, tx)));
    } else {
      CommitSingle(before, DelTxLocation(tx.id));
    }
  }

  method PutTxEntries(ghost s: State, ops: seq<Op>, b: Block) returns (out: seq<Op>)
    ensures Commit(s, out) == WithTxs(Commit(s, ops), b, |b.transactions|)
  {
    out := ops;
    for i := 0 to |b.transactions|
      invariant Commit(s, out) == WithTxs(Commit(s, ops), b, i)
    {
      PutTxEffect(Commit(s, ops), b, i);
      CommitConcat(s, out, PutTxOps(b, b.transactions[i]));
      out := out + PutTxOps(b, b.transactions[i]);
    }
  }

  method DelTxEntries(ghost s: State, ops: seq<Op>, b: Block) returns (out: seq<Op>)
    ensures Commit(s, out) == WithoutTxs(Commit(s, ops), b, |b.transactions|)
  {
    out := ops;
    for i := 0 to |b.transactions|
      invariant Commit(s, out) == WithoutTxs(Commit(s, ops), b, i)
    {
      DelTxEffect(Commit(s, ops), b, i);
      CommitConcat(s, out, DelTxOps(b, b.transactions[i]));
      out := out + DelTxOps(b, b.transactions[i]);
    }
  }

  // ---------------------------------------------------------------- transactions of a block

  lemma {:induction false} RunContinues(r: SpendRules, u: Utxos, pre: seq<Placed>, p: Placed)
    requires Applies(r, u, pre) && AllFunded(u, pre) && ValidTx(r, After(u, pre), p.tx, p.height)
    ensures After(u, pre + [p]) == ApplyTx(After(u, pre), p.tx, p.height)
    ensures Applies(r, u, pre + [p])
    ensures AllFunded(u, pre + [p]) && Funded(After(u, pre), p.tx)
    ensures UndosOf(u, pre + [p]) == UndosOf(u, pre) + [UndoOf(After(u, pre), p.tx)]
  {
    assert (pre + [p])[..|pre|] == pre;
    AppliesSnoc(r, u, pre, p);
    ValidIsFunded(r, After(u, pre), p.tx, p.height);
    UndosPush(u, pre, p);
  }

  /** Applies a block's transactions in order, stopping at the first invalid one. */
  method ApplyBlock(utxoSet: UtxoSet, b: Block) returns (undo: Option<BlockUndo>)
    requires utxoSet.staging.Some?
    modifies utxoSet, utxoSet.db
    ensures utxoSet.db.state == old(utxoSet.db.state) && utxoSet.staging.Some?
    ensures undo.Some? <==> Applies(utxoSet.rules, old(utxoSet.View()), BlockSteps(b))
    ensures undo.Some? ==> utxoSet.View() == After(old(utxoSet.View()), BlockSteps(b))
    ensures undo.Some? ==> AllFunded(old(utxoSet.View()), BlockSteps(b))
    ensures undo.Some? ==> undo.value == UndosOf(old(utxoSet.View()), BlockSteps(b))
  {
    ghost var u := utxoSet.View();
    ghost var steps := BlockSteps(b);
    ghost var pre: seq<Placed> := [];
    var records: BlockUndo := [];
    for i := 0 to |b.transactions|
      invariant utxoSet.db.state == old(utxoSet.db.state) && utxoSet.staging.Some?
      invariant pre == steps[..i]
      invariant utxoSet.View() == After(u, pre)
      invariant Applies(utxoSet.rules, u, pre)
      invariant AllFunded(u, pre) && records == UndosOf(u, pre)
    {
      ghost var p := Placed(b.transactions[i], b.header.height);
      if ValidTx(utxoSet.rules, After(u, pre), p.tx, p.height) {
        RunContinues(utxoSet.rules, u, pre, p);
      } else if Applies(utxoSet.rules, u, steps) {
        AppliesAt(utxoSet.rules, u, steps, i);
      }
      var record := utxoSet.ApplyTransaction(b.transactions[i], b.header.height);
      if record.None? { return None; }
      records := records + [record.value];
      TakeOneMore(steps, i);
      pre := pre + [p];
    }
    assert pre == steps;
    return Some(records);
  }

  /** Undoes a block's transactions, last first. */
  method UndoBlock(utxoSet: UtxoSet, undo: BlockUndo)
    requires utxoSet.staging.Some?
    modifies utxoSet, utxoSet.db
    ensures utxoSet.db.state == old(utxoSet.db.state) && utxoSet.staging.Some?
    ensures utxoSet.View() == UndoAll(old(utxoSet.View()), undo)
  {
    ghost var u := utxoSet.View();
    var k := |undo|;
    assert undo[..k] == undo;
    while k > 0
      invariant 0 <= k <= |undo|
      invariant utxoSet.db.state == old(utxoSet.db.state) && utxoSet.staging.Some?
      invariant UndoAll(utxoSet.View(), undo[..k]) == UndoAll(u, undo)
    {
      assert undo[..k][..k - 1] == undo[..k - 1];
      utxoSet.UndoTransaction(undo[k - 1]);
      k := k - 1;
    }
  }

  // ---------------------------------------------------------------- one block

  /** Blocks connected earlier in a batch, by height, with their undo records. */
  type Batch = map<int, Connected>

  function LookUp(s: State, batch: Batch, height: int): Option<Connected> {
    if height in batch then Some(batch[height]) else CanonicalBlockWithUndo(s, height)
  }

  /** Looking a height up in the batch first and in the database second finds the history `h`. */
  predicate FindsHistory(s: State, batch: Batch, h: seq<Connected>) {
    && (forall k :: k in batch ==> 0 <= k < |h| && batch[k] == h[k])
    && (forall k :: 0 <= k < |h| && k !in batch ==> CanonicalBlockWithUndo(s, k) == Some(h[k]))
  }

  /** The block that leaves the address window when one at `height` is connected. */
  function LeavingBlock(cfg: Config, s: State, batch: Batch, height: int): Option<Connected> {
    if cfg.addressIndexDepth == 0 then None else LookUp(s, batch, height - cfg.addressIndexDepth)
  }

  lemma {:induction false} FindsBehind(
    cfg: Config, s: State, batch: Batch, h: seq<Connected>, height: int, c: Connected)
    requires cfg.addressIndexEnabled && FindsHistory(s, batch, h) && height == |h|
    ensures LeavingBlock(cfg, s, batch[height := c], height) == BlockBehind(cfg, h, |h|)
  {
  }

  lemma {:induction false} ConnectFields(cfg: Config, s: State, b: Block, undo: BlockUndo, leaving: Option<Connected>,
                      s1: State, s2: State, s3: State, s4: State)
    requires s1 == ApplyOp(s, PutUndo(b.hash, undo))
    requires s2 == WithTxs(s1, b, |b.transactions|)
    requires s3 == if cfg.addressIndexEnabled then
      WithEntries(WithEntries(s2, ActivityLayer(Connected(b, undo)), false), LayerOrNone(leaving), true) else s2
    requires s4 == ApplyOp(s3, PutHeight(b.header.height, b.hash))
    ensures s4 == Connect(cfg, s, Connected(b, undo), leaving)
  {
  }

  /** Appends the address-index writes of an optional block. */
  method OptionalAddressOps(
    ghost s: State, ops: seq<Op>, target: Option<Connected>, remove: bool) returns (out: seq<Op>)
    ensures Commit(s, out) == WithEntries(Commit(s, ops), LayerOrNone(target), remove)
  {
    out := ops;
    if target.Some? {
      out := AddressIndexOps(s, ops, target.value.block, target.value.undo, remove);
    } else {
      EditedNothing(Commit(s, ops).activity, remove);
    }
  }

  /** The address-index writes of connecting a block: its own entries, and the deletion of
      the block that leaves the window. */
  method ConnectAddressOps(
    cfg: Config, db: Db, b: Block, undo: BlockUndo, ops: seq<Op>, batch: Batch, ghost h: seq<Connected>)
      returns (out: seq<Op>, batch': Batch)
    requires cfg.addressIndexEnabled
    requires b.header.height == |h| && FindsHistory(db.state, batch, h)
    ensures Commit(db.state, out) ==
      WithEntries(WithEntries(Commit(db.state, ops), ActivityLayer(Connected(b, undo)), false),
                  LayerOrNone(BlockBehind(cfg, h, |h|)), true)
    ensures batch' == batch[b.header.height := Connected(b, undo)]
  {
    out := AddressIndexOps(db.state, ops, b, undo, false);
    batch' := batch[b.header.height := Connected(b, undo)];
    FindsBehind(cfg, db.state, batch, h, b.header.height, Connected(b, undo));
    out := OptionalAddressOps(db.state, out, LeavingBlock(cfg, db.state, batch', b.header.height), true);
  }

  /** Puts one more block on top of the batch. If a transaction does not apply the whole batch is
      of no further use. */
  method ConnectBlock(
    cfg: Config, db: Db, utxoSet: UtxoSet, b: Block, ops: seq<Op>, batch: Batch, ghost h: seq<Connected>)
      returns (ok: bool, out: seq<Op>, batch': Batch)
    requires utxoSet.db == db && utxoSet.rules == cfg.rules && utxoSet.staging.Some?
    requires b.header.height == |h| && (cfg.addressIndexEnabled ==> FindsHistory(db.state, batch, h))
    modifies utxoSet, db
    ensures db.state == old(db.state) && utxoSet.staging.Some?
    ensures ok <==> Applies(cfg.rules, old(utxoSet.View()), BlockSteps(b))
    ensures ok ==> AllFunded(old(utxoSet.View()), BlockSteps(b))
    ensures ok ==> utxoSet.View() == After(old(utxoSet.View()), BlockSteps(b))
    ensures ok ==>
      Commit(db.state, out) ==
      Connect(cfg, Commit(db.state, ops), Connected(b, UndosOf(old(utxoSet.View()), BlockSteps(b))),
        BlockBehind(cfg, h, |h|))
    ensures ok && cfg.addressIndexEnabled ==>
      batch' == batch[b.header.height := Connected(b, UndosOf(old(utxoSet.View()), BlockSteps(b)))]
    ensures ok && !cfg.addressIndexEnabled ==> batch' == batch
  {
    var records := ApplyBlock(utxoSet, b);
    if records.None? { return false, ops, batch; }
    var undo := records.value;
    CommitOne(db.state, ops, PutUndo(b.hash, undo));
    out, batch' := ops + [PutUndo(b.hash, undo)], batch;
    ghost var s1 := Commit(db.state, out);
    out := PutTxEntries(db.state, out, b);
    ghost var s2 := Commit(db.state, out);
    if cfg.addressIndexEnabled {
      out, batch' := ConnectAddressOps(cfg, db, b, undo, out, batch, h);
    }
    ghost var s3 := Commit(db.state, out);
    CommitOne(db.state, out, PutHeight(b.header.height, b.hash));
    out := out + [PutHeight(b.header.height, b.hash)];
    ConnectFields(cfg, Commit(db.state, ops), b, undo, BlockBehind(cfg, h, |h|), s1, s2, s3, Commit(db.state, out));
    return true, out, batch';
  }

  lemma {:induction false} DisconnectFields(
    cfg: Config, s: State, b: Block, undo: BlockUndo, returning: Option<Connected>, s1: State, s2: State, s3: State)
    requires s1 == ApplyOp(s, DelUndo(b.hash))
    requires s2 == WithoutTxs(s1, b, |b.transactions|)
    requires s3 == if cfg.addressIndexEnabled then
      WithEntries(WithEntries(s2, ActivityLayer(Connected(b, undo)), true), LayerOrNone(returning), false) else s2
    ensures s3 == Disconnect(cfg, s, Connected(b, undo), returning)
  {
  }

  /** Undoes a block's transactions and appends the removal of its index entries. */
  method DisconnectBlock(
    cfg: Config, db: Db, utxoSet: UtxoSet, b: Block, undo: BlockUndo, ops: seq<Op>, ghost h: seq<Connected>)
      returns (out: seq<Op>)
    requires utxoSet.db == db && utxoSet.staging.Some?
    requires 0 <= b.header.height < |h| && FindsHistory(db.state, map[], h)
    modifies utxoSet, db
    ensures db.state == old(db.state) && utxoSet.staging.Some?
    ensures utxoSet.View() == UndoAll(old(utxoSet.View()), undo)
    ensures Commit(db.state, out) ==
      Disconnect(cfg, Commit(db.state, ops), Connected(b, undo), BlockBehind(cfg, h, b.header.height))
  {
    UndoBlock(utxoSet, undo);
    CommitOne(db.state, ops, DelUndo(b.hash));
    out := ops + [DelUndo(b.hash)];
    ghost var s1 := Commit(db.state, out);
    out := DelTxEntries(db.state, out, b);
    ghost var s2 := Commit(db.state, out);
    if cfg.addressIndexEnabled {
      out := AddressIndexOps(db.state, out, b, undo, true);
      var returning := None;
      if cfg.addressIndexDepth > 0 {
        returning := CanonicalBlockWithUndo(db.state, b.header.height - cfg.addressIndexDepth);
      }
      assert returning == BlockBehind(cfg, h, b.header.height);
      out := OptionalAddressOps(db.state, out, returning, false);
    }
    DisconnectFields(cfg, Commit(db.state, ops), b, undo, BlockBehind(cfg, h, b.header.height), s1, s2,
      Commit(db.state, out));
  }
}
