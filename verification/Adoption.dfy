/**
 Making a block the canonical tip (src/node/node.ts:1580-1675): plan the reorganisation,
 disconnect tip-first, connect fork-first, and commit everything in one batch. Proved to
 leave exactly the state that rebuilding from genesis along the new chain would give, or,
 when a block fails against the UTXO set, to leave everything as it was.
 */
module Adoption {
  import opened Ledger
  import opened Utxo
  import opened Store
  import opened Layers
  import opened Chain
  import opened Tree
  import opened UtxoSets
  import opened Connecting

  /** The canonical chain of a state. */
  ghost function CanonicalChain(genesis: Hash, s: State): seq<Block>
    requires TreeOk(s.blocks, genesis) && s.tip.hash in s.blocks
  {
    ChainOf(s.blocks, genesis, s.tip.hash)
  }

  /** Every derived part of the state is the function of the canonical chain it should be,
      and that chain replays from genesis. */
  ghost predicate Consistent(cfg: Config, genesis: Hash, s: State) {
    && TreeOk(s.blocks, genesis)
    && s.tip.hash in s.blocks
    && Replays(cfg.rules, CanonicalChain(genesis, s))
    && s == StateFor(cfg, s.blocks, s.headers, CanonicalChain(genesis, s))
  }

  lemma {:induction false} HistoryStacked(blocks: Blocks, genesis: Hash, h: Hash)
    requires TreeOk(blocks, genesis) && h in blocks
    ensures Stacked(History(ChainOf(blocks, genesis, h)))
  {
    ChainShape(blocks, genesis, h);
    DistinctHashes(blocks, genesis, h);
  }

  lemma {:induction false} UndoStored(h: seq<Connected>, k: nat)
    requires Stacked(h) && 0 < k < |h|
    ensures h[k].block.hash in Union(UndoLayers(h)) && Union(UndoLayers(h))[h[k].block.hash] == h[k].undo
  {
    UndoLayersDisjoint(h);
    assert h[k].block.hash in UndoLayers(h)[k];
    InUnion(UndoLayers(h), k, h[k].block.hash);
  }

  lemma {:induction false} UndoOfGenesisAbsent(h: seq<Connected>)
    requires Stacked(h) && |h| > 0
    ensures h[0].block.hash !in Union(UndoLayers(h))
  {
    if h[0].block.hash in Union(UndoLayers(h)) {
      var i := LayerOf(UndoLayers(h), h[0].block.hash);
      assert false;
    }
  }

  lemma {:induction false} FindsOne(s: State, h: seq<Connected>, k: nat)
    requires Stacked(h) && k < |h| && (k == 0 ==> h[k].undo == [])
    requires s.undo == Union(UndoLayers(h))
    requires k in s.heights && s.heights[k] == h[k].block.hash
    requires h[k].block.hash in s.blocks && s.blocks[h[k].block.hash] == h[k].block
    ensures CanonicalBlockWithUndo(s, k) == Some(h[k])
  {
    if k == 0 {
      UndoOfGenesisAbsent(h);
    } else {
      UndoStored(h, k);
    }
  }

  /** In a consistent state every canonical block is found with its undo record, so the
      full-replay fallback for missing records is never taken. */
  lemma {:induction false} ConsistentFinds(cfg: Config, genesis: Hash, s: State)
    requires Consistent(cfg, genesis, s)
    ensures FindsHistory(s, map[], History(CanonicalChain(genesis, s)))
    ensures var chain := CanonicalChain(genesis, s);
      forall k :: 0 < k < |chain| ==> chain[k].hash in s.undo && s.undo[chain[k].hash] == History(chain)[k].undo
  {
    var chain := CanonicalChain(genesis, s);
    var h := History(chain);
    HistoryStacked(s.blocks, genesis, s.tip.hash);
    ChainShape(s.blocks, genesis, s.tip.hash);
    forall k | 0 <= k < |h|
      ensures CanonicalBlockWithUndo(s, k) == Some(h[k])
      ensures 0 < k ==> chain[k].hash in s.undo && s.undo[chain[k].hash] == h[k].undo
    {
      ChainPrefix(s.blocks, genesis, s.tip.hash, k);
      HistoryAt(chain, k);
      FindsOne(s, h, k);
      if k > 0 {
        UndoStored(h, k);
      }
    }
  }

  // ---------------------------------------------------------------- moving along the plan

  /** A partly built batch: only the chain's indexes differ from `base`, and they are `h`'s. */
  predicate BuiltFor(cfg: Config, s: State, base: State, h: seq<Connected>) {
    && s.blocks == base.blocks && s.headers == base.headers && s.utxo == base.utxo && s.tip == base.tip
    && Indexed(cfg, s, h)
  }

  /** Popping block `m` takes the UTXO set and every index back to the chain below it. */
  lemma {:induction false} PopOne(cfg: Config, chain: seq<Block>, m: nat, s: State)
    requires 0 < m < |chain| && Stacked(History(chain))
    requires Replays(cfg.rules, chain) && DistinctIds(Steps(chain))
    requires Indexed(cfg, s, History(chain)[..m + 1])
    ensures UndoAll(UtxoOf(chain[..m + 1]), History(chain)[m].undo) == UtxoOf(chain[..m])
    ensures Indexed(cfg, Disconnect(cfg, s, History(chain)[m], BlockBehind(cfg, History(chain), m)),
      History(chain)[..m])
  {
    hide Indexed, Stacked, Replays, UtxoOf, Disconnect, DistinctIds, Steps, UndoAll, Disjoint;
    var h := History(chain);
    var longer := chain[..m + 1];
    StackedPrefix(h, m + 1);
    TakeOneMore(chain, m);
    TakeOneMore(h, m);
    ReplaysPrefix(cfg.rules, chain, m + 1);
    DistinctIdsPrefix(chain, m + 1);
    UndoPops(cfg.rules, chain[..m], chain[m]);
    HistoryPrefix(chain, m + 1);
    HistoryAt(chain, m);
    TxLayersDisjoint(longer);
    assert BlockBehind(cfg, h[..m] + [h[m]], m) == BlockBehind(cfg, h, m);
    DisconnectStep(cfg, s, h[..m], h[m]);
  }

  /** What a walk over the canonical chain needs to know of it. */
  predicate Undoable(cfg: Config, s: State, chain: seq<Block>) {
    && Stacked(History(chain)) && Replays(cfg.rules, chain) && DistinctIds(Steps(chain))
    && FindsHistory(s, map[], History(chain))
    && forall k :: 0 < k < |chain| ==> chain[k].hash in s.undo && s.undo[chain[k].hash] == History(chain)[k].undo
  }

  lemma {:induction false} StoredUndo(cfg: Config, s: State, chain: seq<Block>, m: nat)
    requires Undoable(cfg, s, chain) && 0 < m < |chain|
    ensures chain[m].header.height == m
    ensures chain[m].hash in s.undo && Connected(chain[m], s.undo[chain[m].hash]) == History(chain)[m]
  {
    var h := History(chain);
    assert h[m].block == chain[m];
  }

  /** The batch and the staged set stand for the first `m` blocks of the old chain. */
  predicate Remaining(cfg: Config, disk: State, s: State, view: Utxos, base: State, chain: seq<Block>, m: nat) {
    && m <= |chain| && view == UtxoOf(chain[..m])
    && BuiltFor(cfg, s, base, History(chain)[..m])
    && s.heights == disk.heights
  }

  lemma {:induction false} AllRemaining(cfg: Config, disk: State, s: State, view: Utxos, base: State, chain: seq<Block>)
    requires view == UtxoOf(chain) && BuiltFor(cfg, s, base, History(chain)) && s.heights == disk.heights
    ensures Remaining(cfg, disk, s, view, base, chain, |chain|)
  {
    assert chain[..|chain|] == chain && History(chain)[..|chain|] == History(chain);
  }

  /** Disconnects block `m`, the top of what is left of the old chain. */
  method DisconnectTop(cfg: Config, db: Db, utxoSet: UtxoSet, b: Block, ops: seq<Op>,
                       ghost base: State, ghost chain: seq<Block>, ghost m: nat)
      returns (out: seq<Op>)
    requires utxoSet.db == db && utxoSet.staging.Some?
    requires Undoable(cfg, db.state, chain) && 0 < m < |chain| && b == chain[m]
    requires Remaining(cfg, db.state, Commit(db.state, ops), utxoSet.View(), base, chain, m + 1)
    modifies utxoSet, db
    ensures db.state == old(db.state) && utxoSet.staging.Some?
    ensures Remaining(cfg, db.state, Commit(db.state, out), utxoSet.View(), base, chain, m)
  {
    StoredUndo(cfg, db.state, chain, m);
    PopOne(cfg, chain, m, Commit(db.state, ops));
    out := DisconnectBlock(cfg, db, utxoSet, b, db.state.undo[b.hash], ops, History(chain));
  }

  /** Disconnects the blocks above the fork, tip first. */
  method DisconnectAll(cfg: Config, db: Db, utxoSet: UtxoSet, toDisconnect: seq<Block>, ops: seq<Op>,
                       ghost base: State, ghost chain: seq<Block>, ghost fork: nat)
      returns (out: seq<Op>)
    requires utxoSet.db == db && utxoSet.staging.Some?
    requires 0 < fork <= |chain| && IsReversed(toDisconnect, chain[fork..])
    requires Undoable(cfg, db.state, chain)
    requires Remaining(cfg, db.state, Commit(db.state, ops), utxoSet.View(), base, chain, |chain|)
    modifies utxoSet, db
    ensures db.state == old(db.state) && utxoSet.staging.Some?
    ensures Remaining(cfg, db.state, Commit(db.state, out), utxoSet.View(), base, chain, fork)
  {
    hide Undoable, Remaining;
    out := ops;
    ghost var left := |chain|;
    for i := 0 to |toDisconnect|
      invariant left == |chain| - i
      invariant db.state == old(db.state) && utxoSet.staging.Some?
      invariant Remaining(cfg, db.state, Commit(db.state, out), utxoSet.View(), base, chain, left)
    {
      left := left - 1;
      DropIndex(chain, fork, |chain| - fork - 1 - i);
      out := DisconnectTop(cfg, db, utxoSet, toDisconnect[i], out, base, chain, left);
    }
  }

  /** Pushing block `m` brings the UTXO set and every index up to the chain that ends with it. */
  lemma {:induction false} StackedPrefix(h: seq<Connected>, n: nat)
    requires Stacked(h) && n <= |h|
    ensures Stacked(h[..n])
  {
  }

  lemma {:induction false} PushOne(cfg: Config, chain: seq<Block>, m: nat, s: State)
    requires 0 < m < |chain| && Stacked(History(chain)) && Replays(cfg.rules, chain[..m])
    requires Applies(cfg.rules, UtxoOf(chain[..m]), BlockSteps(chain[m]))
    requires Indexed(cfg, s, History(chain)[..m])
    ensures Replays(cfg.rules, chain[..m + 1])
    ensures UtxoOf(chain[..m + 1]) == After(UtxoOf(chain[..m]), BlockSteps(chain[m]))
    ensures AllFunded(UtxoOf(chain[..m]), BlockSteps(chain[m]))
    ensures History(chain)[m] == Connected(chain[m], UndosOf(UtxoOf(chain[..m]), BlockSteps(chain[m])))
    ensures Indexed(cfg, Connect(cfg, s, History(chain)[m], BlockBehind(cfg, History(chain)[..m], m)),
      History(chain)[..m + 1])
  {
    hide Indexed, Stacked, Replays, Applies, UtxoOf, After, Connect, BlockBehind, AllFunded, BlockSteps;
    var h := History(chain);
    TakeOneMore(chain, m);
    TakeOneMore(h, m);
    StackedPrefix(h, m + 1);
    ReplayPush(cfg.rules, chain[..m], chain[m]);
    RecordPush(cfg.rules, chain[..m], chain[m]);
    HistoryAt(chain, m);
    ConnectStep(cfg, s, h[..m], h[m]);
  }

  lemma {:induction false} FailsAt(cfg: Config, chain: seq<Block>, m: nat)
    requires m < |chain| && !Applies(cfg.rules, UtxoOf(chain[..m]), BlockSteps(chain[m]))
    ensures !Replays(cfg.rules, chain)
  {
    if Replays(cfg.rules, chain) {
      ReplaysPrefix(cfg.rules, chain, m + 1);
      TakeOneMore(chain, m);
      ReplayPush(cfg.rules, chain[..m], chain[m]);
    }
  }

  /** Where the heights of the first `m` blocks of `chain` have been written over `old_`. */
  predicate HeightsBuilt(s: State, old_: map<int, Hash>, chain: seq<Block>, m: nat)
    requires m <= |chain|
  {
    s.heights == old_ + HeightsOf(chain[..m])
  }

  lemma {:induction false} HeightsPush(old_: map<int, Hash>, chain: seq<Block>, m: nat)
    requires m < |chain|
    ensures (old_ + HeightsOf(chain[..m]))[m := chain[m].hash] == old_ + HeightsOf(chain[..m + 1])
  {
    assert HeightsOf(chain[..m + 1]) == HeightsOf(chain[..m])[m := chain[m].hash];
  }

  lemma {:induction false} FindsOneMore(s: State, batch: Batch, h: seq<Connected>, m: nat)
    requires m < |h| && FindsHistory(s, batch, h[..m])
    ensures FindsHistory(s, batch[m := h[m]], h[..m + 1])
  {
    TakeOneMore(h, m);
  }

  /** The batch, the staged set and the lookups stand for the first `m` blocks of the new chain. */
  predicate Reached(
    cfg: Config, disk: State, s: State, view: Utxos, batch: Batch, base: State, chain: seq<Block>, m: nat) {
    && 0 < m <= |chain| && Replays(cfg.rules, chain[..m])
    && view == UtxoOf(chain[..m])
    && BuiltFor(cfg, s, base, History(chain)[..m])
    && HeightsBuilt(s, disk.heights, chain, m)
    && (cfg.addressIndexEnabled ==> FindsHistory(disk, batch, History(chain)[..m]))
  }

  lemma {:induction false} ReachedAll(
    cfg: Config, disk: State, s: State, view: Utxos, batch: Batch, base: State, chain: seq<Block>)
    requires Reached(cfg, disk, s, view, batch, base, chain, |chain|)
    ensures Replays(cfg.rules, chain) && view == UtxoOf(chain) && BuiltFor(cfg, s, base, History(chain))
    ensures HeightsBuilt(s, disk.heights, chain, |chain|)
  {
    assert chain[..|chain|] == chain && History(chain)[..|chain|] == History(chain);
  }

  /** Connects block `m` of the new chain on top of the ones before it. */
  method ConnectTop(cfg: Config, db: Db, utxoSet: UtxoSet, b: Block, ops: seq<Op>, batch: Batch,
                    ghost base: State, ghost chain: seq<Block>, ghost m: nat)
      returns (ok: bool, out: seq<Op>, batch': Batch)
    requires utxoSet.db == db && utxoSet.rules == cfg.rules && utxoSet.staging.Some?
    requires Stacked(History(chain)) && m < |chain| && b == chain[m]
    requires Reached(cfg, db.state, Commit(db.state, ops), utxoSet.View(), batch, base, chain, m)
    modifies utxoSet, db
    ensures db.state == old(db.state) && utxoSet.staging.Some?
    ensures !ok ==> !Replays(cfg.rules, chain)
    ensures ok ==> Reached(cfg, db.state, Commit(db.state, out), utxoSet.View(), batch', base, chain, m + 1)
  {
    if Applies(cfg.rules, UtxoOf(chain[..m]), BlockSteps(b)) {
      PushOne(cfg, chain, m, Commit(db.state, ops));
    } else {
      FailsAt(cfg, chain, m);
    }
    HeightsPush(db.state.heights, chain, m);
    if cfg.addressIndexEnabled {
      FindsOneMore(db.state, batch, History(chain), m);
    }
    assert History(chain)[m].block == b;
    ok, out, batch' := ConnectBlock(cfg, db, utxoSet, b, ops, batch, History(chain)[..m]);
  }

  /** Connects the blocks above the fork, fork first, stopping at the first that fails. */
  method ConnectAll(cfg: Config, db: Db, utxoSet: UtxoSet, toConnect: seq<Block>, ops: seq<Op>,
                    ghost base: State, ghost chain: seq<Block>, ghost fork: nat)
      returns (ok: bool, out: seq<Op>)
    requires utxoSet.db == db && utxoSet.rules == cfg.rules && utxoSet.staging.Some?
    requires Stacked(History(chain)) && fork <= |chain| && toConnect == chain[fork..]
    requires Reached(cfg, db.state, Commit(db.state, ops), utxoSet.View(), map[], base, chain, fork)
    modifies utxoSet, db
    ensures db.state == old(db.state) && utxoSet.staging.Some?
    ensures ok <==> Replays(cfg.rules, chain)
    ensures ok ==> utxoSet.View() == UtxoOf(chain)
    ensures ok ==> BuiltFor(cfg, Commit(db.state, out), base, History(chain))
    ensures ok ==> HeightsBuilt(Commit(db.state, out), db.state.heights, chain, |chain|)
  {
    hide Reached, History, Stacked;
    out := ops;
    var batch: Batch := map[];
    ghost var m := fork;
    for i := 0 to |toConnect|
      invariant m == fork + i
      invariant db.state == old(db.state) && utxoSet.staging.Some?
      invariant Reached(cfg, db.state, Commit(db.state, out), utxoSet.View(), batch, base, chain, m)
    {
      var b := toConnect[i];
      DropIndex(chain, fork, i);
      ok, out, batch := ConnectTop(cfg, db, utxoSet, b, out, batch, base, chain, m);
      if !ok { return false, out; }
      m := m + 1;
    }
    ReachedAll(cfg, db.state, Commit(db.state, out), utxoSet.View(), batch, base, chain);
    return true, out;
  }

  // ---------------------------------------------------------------- committing

  function WithoutHeights(m: map<int, Hash>, above: int, upTo: int): map<int, Hash> {
    map h | h in m && !(above < h <= upTo) :: m[h]
  }

  /** Appends the deletion of the canonical hashes in (keepUpTo, clearUpTo]. */
  method ClearCanonicalHashesAbove(ghost s: State, ops: seq<Op>, keepUpTo: int, clearUpTo: int) returns (out: seq<Op>)
    ensures Commit(s, out) == Commit(s, ops).(heights := WithoutHeights(Commit(s, ops).heights, keepUpTo, clearUpTo))
  {
    hide Commit, WithoutHeights;
    out := ops;
    ghost var before := Commit(s, ops);
    NoHeights(before.heights, keepUpTo, clearUpTo);
    if keepUpTo < clearUpTo {
      for h := keepUpTo + 1 to clearUpTo + 1
        invariant Commit(s, out) == before.(heights := WithoutHeights(before.heights, keepUpTo, h - 1))
      {
        OneHeightLess(before.heights, keepUpTo, h);
        CommitHeight(s, out, before, WithoutHeights(before.heights, keepUpTo, h - 1), h);
        out := out + [DelHeight(h)];
      }
    }
  }

  lemma {:induction false} NoHeights(m: map<int, Hash>, above: int, upTo: int)
    ensures WithoutHeights(m, above, above) == m && (upTo <= above ==> WithoutHeights(m, above, upTo) == m)
  {
  }

  lemma {:induction false} OneHeightLess(m: map<int, Hash>, above: int, h: int)
    requires above < h
    ensures WithoutHeights(m, above, h - 1) - {h} == WithoutHeights(m, above, h)
  {
  }

  lemma {:induction false} CommitHeight(s: State, ops: seq<Op>, base: State, heights: map<int, Hash>, h: int)
    requires Commit(s, ops) == base.(heights := heights)
    ensures Commit(s, ops + [DelHeight(h)]) == base.(heights := heights - {h})
  {
    hide Commit;
    CommitOne(s, ops, DelHeight(h));
  }

  lemma {:induction false} HeightsCleared(oldChain: seq<Block>, newChain: seq<Block>, m: map<int, Hash>)
    requires m == HeightsOf(oldChain) + HeightsOf(newChain[..|newChain|])
    ensures WithoutHeights(m, |newChain| - 1, |oldChain| - 1) == HeightsOf(newChain)
  {
    assert newChain[..|newChain|] == newChain;
  }

  lemma {:induction false} HeightsShared(oldChain: seq<Block>, newChain: seq<Block>, fork: nat)
    requires fork <= |oldChain| && fork <= |newChain| && oldChain[..fork] == newChain[..fork]
    ensures HeightsOf(oldChain) + HeightsOf(newChain[..fork]) == HeightsOf(oldChain)
  {
    forall k | 0 <= k < fork ensures newChain[..fork][k].hash == oldChain[k].hash {
      assert oldChain[..fork][k] == oldChain[k];
    }
  }

  // ---------------------------------------------------------------- adopting a block

  /** The blocks and headers after `head` is stored, its header indexed if it was not. */
  function BlocksWith(s: State, head: Block): Blocks {
    s.blocks[head.hash := head]
  }

  function HeadersWith(s: State, head: Block, work: int): map<Hash, IndexedHeader> {
    if head.hash in s.headers then s.headers else s.headers[head.hash := IndexedHeader(head.header, work)]
  }

  /** `head` may be stored: it extends a stored block and clashes with none. */
  predicate Attaches(blocks: Blocks, genesis: Hash, head: Block) {
    && head.header.previousHash in blocks
    && head.header.height == blocks[head.header.previousHash].header.height + 1
    && (head.hash in blocks ==> blocks[head.hash] == head)
    && head.hash != genesis
  }

  /** The chain `head` would make canonical. */
  ghost function ChainWith(genesis: Hash, s: State, head: Block): seq<Block>
    requires TreeOk(s.blocks, genesis) && Attaches(s.blocks, genesis, head)
  {
    ChainOf(s.blocks, genesis, head.header.previousHash) + [head]
  }

  lemma {:induction false} ChainsWith(genesis: Hash, s: State, head: Block, h: Hash)
    requires TreeOk(s.blocks, genesis) && Attaches(s.blocks, genesis, head) && h in s.blocks
    ensures TreeOk(BlocksWith(s, head), genesis)
    ensures ChainOf(BlocksWith(s, head), genesis, head.hash) == ChainWith(genesis, s, head)
    ensures ChainOf(BlocksWith(s, head), genesis, h) == ChainOf(s.blocks, genesis, h)
  {
    AddChild(s.blocks, genesis, head);
    ChainStable(s.blocks, BlocksWith(s, head), genesis, h);
  }

  /** The first ops of the batch: the block and, if new, its header. */
  method StoreOps(s: State, head: Block, work: int) returns (ops: seq<Op>)
    ensures Commit(s, ops) == s.(blocks := BlocksWith(s, head), headers := HeadersWith(s, head, work))
  {
    ops := [PutBlock(head)];
    CommitOne(s, [], PutBlock(head));
    assert [] + [PutBlock(head)] == [PutBlock(head)];
    if head.hash !in s.headers {
      CommitOne(s, ops, PutHeader(head.hash, IndexedHeader(head.header, work)));
      ops := ops + [PutHeader(head.hash, IndexedHeader(head.header, work))];
    }
  }

  /** A fully built batch plus the cleared heights, the tip and the staged UTXO writes is the
      state rebuilt for the new chain. */
  lemma {:induction false} BuiltIsRebuilt(
    cfg: Config, disk: State, s: State, base: State, oldChain: seq<Block>, chain: seq<Block>, ops: seq<Op>,
    final: State)
    requires |chain| > 0 && BuiltFor(cfg, s, base, History(chain))
    requires disk.heights == HeightsOf(oldChain) && HeightsBuilt(s, disk.heights, chain, |chain|)
    requires UtxoOps(ops) && Written(base.utxo, ops) == UtxoOf(chain)
    requires final == Commit(s.(heights := WithoutHeights(s.heights, |chain| - 1, |oldChain| - 1),
                                tip := ChainTip(chain[|chain| - 1].hash, |chain| - 1)), ops)
    ensures final == StateFor(cfg, base.blocks, base.headers, chain)
  {
    var t := s.(heights := WithoutHeights(s.heights, |chain| - 1, |oldChain| - 1),
                tip := ChainTip(chain[|chain| - 1].hash, |chain| - 1));
    CommitUtxoOps(t, ops);
    HeightsCleared(oldChain, chain, s.heights);
  }

  /** Clears heights above the new tip, sets the tip and drains the staged writes. */
  method FinishBatch(db: Db, utxoSet: UtxoSet, ops: seq<Op>, head: Block, previousHeight: int)
      returns (out: seq<Op>, ghost uops: seq<Op>)
    requires utxoSet.db == db && utxoSet.staging.Some?
    modifies utxoSet
    ensures utxoSet.staging == None
    ensures UtxoOps(uops) && Written(db.state.utxo, uops) == old(utxoSet.View())
    ensures
      var s := Commit(db.state, ops);
      Commit(db.state, out) ==
      Commit(s.(heights := WithoutHeights(s.heights, head.header.height, previousHeight),
                tip := ChainTip(head.hash, head.header.height)), uops)
  {
    out := ClearCanonicalHashesAbove(db.state, ops, head.header.height, previousHeight);
    CommitOne(db.state, out, SetTip(ChainTip(head.hash, head.header.height)));
    out := out + [SetTip(ChainTip(head.hash, head.header.height))];
    var staged := utxoSet.TakeStagedOps();
    CommitConcat(db.state, out, staged);
    out := out + staged;
    uops := staged;
  }

  lemma {:induction false} StartBatch(cfg: Config, genesis: Hash, disk: State, head: Block, base: State)
    requires Consistent(cfg, genesis, disk) && DistinctIds(Steps(CanonicalChain(genesis, disk)))
    requires base == disk.(blocks := base.blocks, headers := base.headers)
    ensures Undoable(cfg, disk, CanonicalChain(genesis, disk))
    ensures Remaining(cfg, disk, base, disk.utxo, base, CanonicalChain(genesis, disk), |CanonicalChain(genesis, disk)|)
    ensures disk.heights == HeightsOf(CanonicalChain(genesis, disk))
  {
    HistoryStacked(disk.blocks, genesis, disk.tip.hash);
    ConsistentFinds(cfg, genesis, disk);
    AllRemaining(cfg, disk, base, disk.utxo, base, CanonicalChain(genesis, disk));
  }

  /** At the fork, what is left of the old chain is what the new one starts from. */
  lemma {:induction false} TurnAround(cfg: Config, disk: State, s: State, view: Utxos, base: State,
                                      oldChain: seq<Block>, chain: seq<Block>, fork: nat)
    requires ForkAt(oldChain, chain, fork) && Undoable(cfg, disk, oldChain)
    requires disk.heights == HeightsOf(oldChain)
    requires Remaining(cfg, disk, s, view, base, oldChain, fork)
    ensures Reached(cfg, disk, s, view, map[], base, chain, fork)
  {
    assert History(oldChain)[..fork] == History(chain)[..fork] by {
      HistoryPrefix(oldChain, fork);
      HistoryPrefix(chain, fork);
    }
    ReplaysPrefix(cfg.rules, oldChain, fork);
    HeightsShared(oldChain, chain, fork);
    FindsPrefix(disk, History(oldChain), fork);
    hide History, Replays, UtxoOf, Indexed, FindsHistory, HeightsOf, Stacked;
  }

  lemma {:induction false} FindsPrefix(s: State, h: seq<Connected>, n: nat)
    requires n <= |h| && FindsHistory(s, map[], h)
    ensures FindsHistory(s, map[], h[..n])
  {
  }

  /** What adoption needs of the two chains it moves between. */
  lemma {:induction false} ChainFacts(cfg: Config, genesis: Hash, s: State, head: Block)
    requires Consistent(cfg, genesis, s) && Attaches(s.blocks, genesis, head)
    ensures s.blocks[s.tip.hash].hash == s.tip.hash
    ensures s.tip.height == |CanonicalChain(genesis, s)| - 1
    ensures Stacked(History(ChainWith(genesis, s, head)))
    ensures var chain := ChainWith(genesis, s, head);
      |chain| > 0 && chain[|chain| - 1] == head && head.header.height == |chain| - 1
  {
    assert BlockOk(s.blocks, genesis, s.tip.hash);
    ChainsWith(genesis, s, head, s.tip.hash);
    HistoryStacked(BlocksWith(s, head), genesis, head.hash);
    ChainShape(s.blocks, genesis, head.header.previousHash);
  }

  /** Makes `head` the canonical tip. On success the state is the one rebuilt from genesis
      along the new chain; on failure nothing has changed. Either way nothing stays staged. */
  method AdoptBlock(cfg: Config, genesis: Hash, db: Db, utxoSet: UtxoSet, head: Block, work: int)
      returns (ok: bool, connected: seq<Block>, disconnected: seq<Block>, ghost fork: nat)
    requires utxoSet.db == db && utxoSet.rules == cfg.rules && utxoSet.staging == None
    requires Consistent(cfg, genesis, db.state) && Attaches(db.state.blocks, genesis, head)
    requires DistinctIds(Steps(CanonicalChain(genesis, db.state)))
    modifies utxoSet, db
    ensures utxoSet.staging == None
    ensures ok <==> Replays(cfg.rules, ChainWith(genesis, old(db.state), head))
    ensures ok ==> db.state == StateFor(cfg, BlocksWith(old(db.state), head), HeadersWith(old(db.state), head, work),
                                        ChainWith(genesis, old(db.state), head))
    ensures !ok ==> db.state == old(db.state)
    ensures ForkAt(CanonicalChain(genesis, old(db.state)), ChainWith(genesis, old(db.state), head), fork)
    ensures connected == ChainWith(genesis, old(db.state), head)[fork..]
    ensures IsReversed(disconnected, CanonicalChain(genesis, old(db.state))[fork..])
  {
    hide Undoable, Remaining, Reached, BuiltFor, HeightsBuilt, Replays, Indexed, StateFor, History, Stacked, ChainOf,
      HeightsOf, TreeOk;
    ghost var disk := db.state;
    ghost var oldChain := CanonicalChain(genesis, disk);
    ghost var chain := ChainWith(genesis, disk, head);
    var ops := StoreOps(db.state, head, work);
    ghost var base := Commit(disk, ops);
    StartBatch(cfg, genesis, disk, head, base);
    ChainsWith(genesis, disk, head, disk.tip.hash);
    ChainFacts(cfg, genesis, disk, head);
    OverlayNone(disk.utxo);
    var began := utxoSet.BeginStaging(false);
    disconnected, connected, fork := PlanReorg(BlocksWith(db.state, head), genesis, db.state.blocks[db.state.tip.hash],
      head);
    ops := DisconnectAll(cfg, db, utxoSet, disconnected, ops, base, oldChain, fork);
    TurnAround(cfg, disk, Commit(disk, ops), utxoSet.View(), base, oldChain, chain, fork);
    ok, ops := ConnectAll(cfg, db, utxoSet, connected, ops, base, chain, fork);
    if !ok {
      utxoSet.DiscardStaging();
      return;
    }
    ghost var built, uops := Commit(disk, ops), [];
    ops, uops := FinishBatch(db, utxoSet, ops, head, db.state.tip.height);
    BuiltIsRebuilt(cfg, disk, built, base, oldChain, chain, uops, Commit(disk, ops));
    db.CommitAtomic(ops);
  }
}
