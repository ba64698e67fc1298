/**
 * Starting over from nothing (src/node/node.ts:1768-1787), the way out when an undo record is missing: walk back
 * to genesis, mask the stored set out, and connect every block again. It fails exactly when the incremental
 * adoption of the same block does, and leaves the same unspent outputs, heights and tip. The indexes are written
 * over and not cleared first, so they are those of the new chain exactly when the old chain's entries all recur.
 */
module Replay {

  import opened Ledger
  import opened Utxo
  import opened Store
  import opened Layers
  import opened Chain
  import opened Tree
  import opened UtxoSets
  import opened Connecting
  import opened Adoption

  /** The blocks from `head` back to genesis, as the walk meets them. */
  method WalkToGenesis(blocks: Blocks, genesis: Hash, head: Block) returns (seen: seq<Block>)
    requires TreeOk(blocks, genesis) && head.hash in blocks && blocks[head.hash] == head
    ensures IsReversed(seen, ChainOf(blocks, genesis, head.hash))
  {
    hide TreeOk, ChainOf, Walked;
    seen := [];
    var cursor := head;
    WalkStart(blocks, genesis, head.hash);
    ghost var top := head.hash;
    while cursor.header.height != 0
      invariant Walked(blocks, genesis, top, cursor, seen)
      decreases cursor.header.height
    {
      WalkHeight(blocks, genesis, top, cursor, seen);
      WalkBack(blocks, genesis, top, cursor, seen);
      seen := seen + [cursor];
      cursor := blocks[cursor.header.previousHash];
    }
    WalkedAll(blocks, genesis, top, cursor, seen);
    seen := seen + [cursor];
  }

  lemma {:induction false} WalkHeight(blocks: Blocks, genesis: Hash, h: Hash, b: Block, seen: seq<Block>)
    requires TreeOk(blocks, genesis) && h in blocks && Walked(blocks, genesis, h, b, seen)
    ensures 0 <= b.header.height
  {
  }

  lemma {:induction false} WalkedAll(blocks: Blocks, genesis: Hash, h: Hash, b: Block, seen: seq<Block>)
    requires TreeOk(blocks, genesis) && h in blocks && Walked(blocks, genesis, h, b, seen) && b.header.height == 0
    ensures IsReversed(seen + [b], ChainOf(blocks, genesis, h))
  {
    hide TreeOk, ChainOf;
  }

  // ---------------------------------------------------------------- what a full replay writes

  /** The record a replay leaves for `b` on top of `below`. */
  function FullRecord(below: seq<Block>, b: Block): BlockUndo {
    if AllFunded(UtxoOf(below), BlockSteps(b)) then UndosOf(UtxoOf(below), BlockSteps(b)) else []
  }

  /** The chain with the record a replay leaves for each block; unlike in `History`, genesis has one too. */
  function FullHistory(chain: seq<Block>): (h: seq<Connected>)
    ensures |h| == |chain|
    ensures forall k :: 0 <= k < |h| ==> h[k].block == chain[k]
  {
    if |chain| == 0 then []
    else FullHistory(chain[..|chain| - 1])
         + [Connected(chain[|chain| - 1], FullRecord(chain[..|chain| - 1], chain[|chain| - 1]))]
  }

  function RecordLayers(h: seq<Connected>): seq<map<Hash, BlockUndo>> {
    seq(|h|, k requires 0 <= k < |h| => map[h[k].block.hash := h[k].undo])
  }

  /** `s` with everything the replay of `chain` writes. What was there under other keys is left alone. */
  function Overlaid(cfg: Config, s: State, chain: seq<Block>): State {
    var h := FullHistory(chain);
    s.(undo := s.undo + Union(RecordLayers(h)),
       txIndex := s.txIndex + Union(TxLayers(h)),
       anchors := s.anchors + Union(AnchorLayers(h)),
       activity := if cfg.addressIndexEnabled
                   then (s.activity - Union(ActivityLayers(h)).Keys) + ActivityIndex(cfg, h) else s.activity,
       heights := s.heights + HeightsOf(chain))
  }

  lemma {:induction false} FullHistoryPush(chain: seq<Block>, b: Block)
    ensures FullHistory(chain + [b]) == FullHistory(chain) + [Connected(b, FullRecord(chain, b))]
  {
    assert (chain + [b])[..|chain|] == chain;
  }

  lemma {:induction false} RecordLayersPush(h: seq<Connected>, c: Connected)
    ensures Union(RecordLayers(h + [c])) == Union(RecordLayers(h))[c.block.hash := c.undo]
  {
    assert RecordLayers(h + [c]) == RecordLayers(h) + [map[c.block.hash := c.undo]];
    UnionPush(RecordLayers(h), map[c.block.hash := c.undo]);
  }

  lemma {:induction false} MergeThrice<K, V>(a: map<K, V>, b: map<K, V>, c: map<K, V>)
    ensures (a + b) + c == a + (b + c)
  {
  }

  /** An entry that leaves the window was written by the replay, so nothing older shows through in its place. */
  lemma {:induction false} WindowOver<K, V>(
    old_: map<K, V>, all: map<K, V>, window: map<K, V>, top: map<K, V>, leaving: map<K, V>)
    requires leaving.Keys <= all.Keys && window.Keys <= all.Keys
    ensures (((old_ - all.Keys) + window) + top) - leaving.Keys
         == (old_ - (all + top).Keys) + ((window + top) - leaving.Keys)
  {
  }

  lemma {:induction false} LayerBelow<K, V>(layers: seq<map<K, V>>, i: nat)
    requires Disjoint(layers) && i < |layers|
    ensures layers[i].Keys <= Union(layers).Keys
  {
    forall k | k in layers[i].Keys ensures k in Union(layers).Keys {
      InUnion(layers, i, k);
    }
  }

  lemma {:induction false} WindowBelow<K, V>(depth: nat, layers: seq<map<K, V>>)
    requires Disjoint(layers)
    ensures Window(depth, layers).Keys <= Union(layers).Keys
  {
    var lo := Floor(depth, |layers| - 1);
    forall k | k in Window(depth, layers).Keys ensures k in Union(layers).Keys {
      var i := LayerOf(layers[lo..], k);
      InUnion(layers, lo + i, k);
    }
  }

  lemma {:induction false} ActivityOver(cfg: Config, s: State, h: seq<Connected>, c: Connected)
    requires Stacked(h + [c]) && cfg.addressIndexEnabled
    ensures (((s.activity - Union(ActivityLayers(h)).Keys) + ActivityIndex(cfg, h)) + ActivityLayer(c))
              - LayerOrNone(BlockBehind(cfg, h, |h|)).Keys
         == (s.activity - Union(ActivityLayers(h + [c])).Keys) + ActivityIndex(cfg, h + [c])
  {
    hide Union, ActivityLayer, Window, Disjoint, Stacked;
    StackedBelow(h, c);
    ActivityLayersDisjoint(h);
    WindowBelow(cfg.addressIndexDepth, ActivityLayers(h));
    if 0 < cfg.addressIndexDepth <= |h| {
      LayerBelow(ActivityLayers(h), |h| - cfg.addressIndexDepth);
    }
    WindowOver(s.activity, Union(ActivityLayers(h)), ActivityIndex(cfg, h), ActivityLayer(c),
      LayerOrNone(BlockBehind(cfg, h, |h|)));
    LayersPush(h, c);
    UnionPush(ActivityLayers(h), ActivityLayer(c));
    WindowAfterConnect(cfg, h, c);
  }

  lemma {:induction false} StackedBelow(h: seq<Connected>, c: Connected)
    requires Stacked(h + [c])
    ensures Stacked(h)
  {
    StackedPrefix(h + [c], |h|);
    assert (h + [c])[..|h|] == h;
  }

  /** Connecting one more block takes what the replay wrote so far to what it writes for the longer chain. */
  lemma {:induction false} OverlaidPush(cfg: Config, s: State, chain: seq<Block>, b: Block)
    requires Stacked(FullHistory(chain + [b]))
    ensures Connect(cfg, Overlaid(cfg, s, chain), Connected(b, FullRecord(chain, b)),
                    BlockBehind(cfg, FullHistory(chain), |chain|))
         == Overlaid(cfg, s, chain + [b])
  {
    hide Union, ActivityLayer, TxLayer, AnchorLayer, ActivityIndex, BlockBehind, FullRecord, FullHistory;
    var h, c := FullHistory(chain), Connected(b, FullRecord(chain, b));
    FullHistoryPush(chain, b);
    assert (h + [c])[|h|] == c;
    IndexesPush(h, c);
    RecordLayersPush(h, c);
    MergeThrice(s.txIndex, Union(TxLayers(h)), TxLayer(c));
    MergeThrice(s.anchors, Union(AnchorLayers(h)), AnchorLayer(c));
    MergePut(s.undo, Union(RecordLayers(h)), b.hash, c.undo);
    TakeOneMore(chain + [b], |chain|);
    assert (chain + [b])[..|chain|] == chain && (chain + [b])[..|chain| + 1] == chain + [b];
    HeightsPush(s.heights, chain + [b], |chain|);
    if cfg.addressIndexEnabled {
      ActivityOver(cfg, s, h, c);
    }
  }

  // ---------------------------------------------------------------- connecting every block again

  /** The blocks connected so far, by height. */
  function BatchOf(cfg: Config, h: seq<Connected>): Batch {
    if cfg.addressIndexEnabled then map k | 0 <= k < |h| :: h[k] else map[]
  }

  /** The batch, the staged set and the lookups stand for the first `m` blocks. */
  predicate Rebuilding(
    cfg: Config, s: State, view: Utxos, batch: Batch, base: State, chain: seq<Block>, m: nat) {
    && m <= |chain| && Replays(cfg.rules, chain[..m]) && view == UtxoOf(chain[..m])
    && s == Overlaid(cfg, base, chain[..m]) && batch == BatchOf(cfg, FullHistory(chain[..m]))
  }

  lemma {:induction false} RebuildingStarts(cfg: Config, s: State, chain: seq<Block>)
    ensures Rebuilding(cfg, s, map[], map[], s, chain, 0)
  {
    hide Overlaid;
    assert chain[..0] == [];
    NothingOverlaid(cfg, s);
  }

  lemma {:induction false} NothingOverlaid(cfg: Config, s: State)
    ensures Overlaid(cfg, s, []) == s
  {
    var h := FullHistory([]);
    assert RecordLayers(h) == [] && TxLayers(h) == [] && AnchorLayers(h) == [] && ActivityLayers(h) == [];
    NothingMore(s.undo);
    NothingMore(s.txIndex);
    NothingMore(s.anchors);
    NothingMore(s.activity);
    assert s.heights + HeightsOf([]) == s.heights;
  }

  lemma {:induction false} FullHistoryPrefix(chain: seq<Block>, k: nat)
    requires k <= |chain|
    ensures FullHistory(chain[..k]) == FullHistory(chain)[..k]
  {
    hide FullRecord;
    if k == |chain| {
      assert chain[..k] == chain;
    } else {
      var below := chain[..|chain| - 1];
      FullHistoryPrefix(below, k);
      assert below[..k] == chain[..k];
      assert FullHistory(chain)[..k] == FullHistory(below)[..k];
    }
  }

  lemma {:induction false} RebuildStep(cfg: Config, base: State, chain: seq<Block>, m: nat)
    requires m < |chain| && Stacked(FullHistory(chain)) && Replays(cfg.rules, chain[..m])
    requires Applies(cfg.rules, UtxoOf(chain[..m]), BlockSteps(chain[m]))
    ensures Replays(cfg.rules, chain[..m + 1])
    ensures UtxoOf(chain[..m + 1]) == After(UtxoOf(chain[..m]), BlockSteps(chain[m]))
    ensures AllFunded(UtxoOf(chain[..m]), BlockSteps(chain[m]))
    ensures var undo := UndosOf(UtxoOf(chain[..m]), BlockSteps(chain[m]));
            && FullHistory(chain[..m + 1]) == FullHistory(chain[..m]) + [Connected(chain[m], undo)]
            && Connect(cfg, Overlaid(cfg, base, chain[..m]), Connected(chain[m], undo),
                       BlockBehind(cfg, FullHistory(chain[..m]), m))
               == Overlaid(cfg, base, chain[..m + 1])
  {
    hide Overlaid, Connect, Stacked, FullHistory, UtxoOf, Replays, Applies, AllFunded;
    TakeOneMore(chain, m);
    ReplayPush(cfg.rules, chain[..m], chain[m]);
    AppliesIsFunded(cfg.rules, UtxoOf(chain[..m]), BlockSteps(chain[m]));
    FullHistoryPrefix(chain, m + 1);
    StackedPrefix(FullHistory(chain), m + 1);
    FullHistoryPush(chain[..m], chain[m]);
    OverlaidPush(cfg, base, chain[..m], chain[m]);
  }

  lemma {:induction false} BatchFinds(cfg: Config, s: State, h: seq<Connected>)
    requires cfg.addressIndexEnabled
    ensures FindsHistory(s, BatchOf(cfg, h), h)
  {
  }

  lemma {:induction false} BatchPush(cfg: Config, h: seq<Connected>, c: Connected)
    ensures BatchOf(cfg, h + [c]) == if cfg.addressIndexEnabled then BatchOf(cfg, h)[|h| := c] else BatchOf(cfg, h)
  {
    if cfg.addressIndexEnabled {
      assert forall k :: 0 <= k < |h| ==> (h + [c])[k] == h[k];
      assert BatchOf(cfg, h + [c]) == BatchOf(cfg, h)[|h| := c];
    }
  }

  lemma {:induction false} HeightAt(chain: seq<Block>, m: nat)
    requires m < |chain| && Stacked(FullHistory(chain))
    ensures chain[m].header.height == m
  {
    assert FullHistory(chain)[m].block == chain[m];
  }

  /** Connects block `m` on top of the ones before it. */
  method ConnectNext(cfg: Config, db: Db, utxoSet: UtxoSet, b: Block, ops: seq<Op>, batch: Batch,
                     ghost base: State, ghost chain: seq<Block>, ghost m: nat)
      returns (ok: bool, out: seq<Op>, batch': Batch)
    requires utxoSet.db == db && utxoSet.rules == cfg.rules && utxoSet.staging.Some?
    requires Stacked(FullHistory(chain)) && m < |chain| && b == chain[m]
    requires Rebuilding(cfg, Commit(db.state, ops), utxoSet.View(), batch, base, chain, m)
    modifies utxoSet, db
    ensures db.state == old(db.state) && utxoSet.staging.Some?
    ensures !ok ==> !Replays(cfg.rules, chain)
    ensures ok ==> Rebuilding(cfg, Commit(db.state, out), utxoSet.View(), batch', base, chain, m + 1)
  {
    hide Overlaid, Connect, Stacked, FullHistory, UtxoOf, Replays, Applies, AllFunded, FindsHistory, BatchOf;
    if Applies(cfg.rules, UtxoOf(chain[..m]), BlockSteps(b)) {
      RebuildStep(cfg, base, chain, m);
      BatchPush(cfg, FullHistory(chain[..m]), Connected(b, UndosOf(UtxoOf(chain[..m]), BlockSteps(b))));
    } else {
      FailsAt(cfg, chain, m);
    }
    HeightAt(chain, m);
    if cfg.addressIndexEnabled {
      BatchFinds(cfg, db.state, FullHistory(chain[..m]));
    }
    ok, out, batch' := ConnectBlock(cfg, db, utxoSet, b, ops, batch, FullHistory(chain[..m]));
  }

  /** Connects the blocks of `chain` in turn to an empty staged set, up to the first that does not apply. */
  method ConnectChain(cfg: Config, db: Db, utxoSet: UtxoSet, chain: seq<Block>, ops: seq<Op>)
      returns (ok: bool, out: seq<Op>)
    requires utxoSet.db == db && utxoSet.rules == cfg.rules && utxoSet.staging.Some? && utxoSet.View() == map[]
    requires Stacked(FullHistory(chain))
    modifies utxoSet, db
    ensures db.state == old(db.state) && utxoSet.staging.Some?
    ensures ok <==> Replays(cfg.rules, chain)
    ensures ok ==> utxoSet.View() == UtxoOf(chain)
    ensures ok ==> Commit(db.state, out) == Overlaid(cfg, Commit(db.state, ops), chain)
  {
    hide Overlaid, Stacked, FullHistory, UtxoOf, Replays, BatchOf;
    ghost var base := Commit(db.state, ops);
    RebuildingStarts(cfg, base, chain);
    out := ops;
    var batch: Batch := map[];
    for k := 0 to |chain|
      invariant db.state == old(db.state) && utxoSet.staging.Some?
      invariant Rebuilding(cfg, Commit(db.state, out), utxoSet.View(), batch, base, chain, k)
    {
      ok, out, batch := ConnectNext(cfg, db, utxoSet, chain[k], out, batch, base, chain, k);
      if !ok { return false, out; }
    }
    assert chain[..|chain|] == chain;
    return true, out;
  }

  lemma {:induction false} FullStacked(blocks: Blocks, genesis: Hash, h: Hash)
    requires TreeOk(blocks, genesis) && h in blocks
    ensures Stacked(FullHistory(ChainOf(blocks, genesis, h)))
  {
    ChainShape(blocks, genesis, h);
    DistinctHashes(blocks, genesis, h);
  }

  /** Rebuilds everything for the chain that ends in `head`, on top of the operations already collected. */
  method ReplayChainTo(cfg: Config, genesis: Hash, db: Db, utxoSet: UtxoSet, head: Block, ops: seq<Op>)
      returns (ok: bool, chain: seq<Block>, out: seq<Op>)
    requires utxoSet.db == db && utxoSet.rules == cfg.rules
    requires TreeOk(db.state.blocks, genesis) && Attaches(db.state.blocks, genesis, head)
    modifies utxoSet, db
    ensures db.state == old(db.state) && utxoSet.staging.Some?
    ensures chain == ChainWith(genesis, old(db.state), head)
    ensures ok <==> Replays(cfg.rules, chain)
    ensures ok ==> utxoSet.View() == UtxoOf(chain)
    ensures ok ==> Commit(db.state, out) == Overlaid(cfg, Commit(db.state, ops), chain)
  {
    hide TreeOk, ChainOf, Replays, UtxoOf, Applies, Stacked, FullHistory, Overlaid;
    ghost var blocks := BlocksWith(db.state, head);
    ChainsWith(genesis, db.state, head, head.header.previousHash);
    var seen := WalkToGenesis(BlocksWith(db.state, head), genesis, head);
    chain := Reversed(seen);
    ReversedTwice(ChainOf(blocks, genesis, head.hash), seen, chain);
    FullStacked(blocks, genesis, head.hash);
    utxoSet.DiscardStaging();
    var began := utxoSet.BeginStaging(true);
    ok, out := ConnectChain(cfg, db, utxoSet, chain, ops);
  }

  // ---------------------------------------------------------------- the whole fallback

  /** The state the fallback leaves. */
  function Rebuilt(cfg: Config, s: State, head: Block, work: int, chain: seq<Block>): State
    requires |chain| > 0
  {
    var t := Overlaid(cfg, s.(blocks := BlocksWith(s, head), headers := HeadersWith(s, head, work)), chain);
    t.(utxo := UtxoOf(chain), heights := WithoutHeights(t.heights, |chain| - 1, s.tip.height),
       tip := ChainTip(chain[|chain| - 1].hash, |chain| - 1))
  }

  /** Makes `head` the tip by rebuilding. */
  method AdoptByReplay(cfg: Config, genesis: Hash, db: Db, utxoSet: UtxoSet, head: Block, work: int)
      returns (ok: bool, connected: seq<Block>)
    requires utxoSet.db == db && utxoSet.rules == cfg.rules && utxoSet.staging == None
    requires TreeOk(db.state.blocks, genesis) && Attaches(db.state.blocks, genesis, head)
    modifies utxoSet, db
    ensures utxoSet.staging == None && connected == ChainWith(genesis, old(db.state), head)
    ensures ok <==> Replays(cfg.rules, connected)
    ensures ok ==> |connected| > 0 && db.state == Rebuilt(cfg, old(db.state), head, work, connected)
    ensures !ok ==> db.state == old(db.state)
  {
    hide Overlaid, Replays, UtxoOf, TreeOk, ChainOf, Attaches;
    ghost var disk := db.state;
    var ops := StoreOps(db.state, head, work);
    var began := utxoSet.BeginStaging(false);
    ok, connected, ops := ReplayChainTo(cfg, genesis, db, utxoSet, head, ops);
    if !ok {
      utxoSet.DiscardStaging();
      return;
    }
    HeadIsTop(genesis, disk, head);
    ghost var built, uops := Commit(disk, ops), [];
    ops, uops := FinishBatch(db, utxoSet, ops, head, db.state.tip.height);
    CommitUtxoOps(built.(heights := WithoutHeights(built.heights, head.header.height, disk.tip.height),
      tip := ChainTip(head.hash, head.header.height)), uops);
    OverlaidKeeps(cfg, disk.(blocks := BlocksWith(disk, head), headers := HeadersWith(disk, head, work)), connected);
    db.CommitAtomic(ops);
  }

  lemma {:induction false} OverlaidKeeps(cfg: Config, s: State, chain: seq<Block>)
    ensures Overlaid(cfg, s, chain).utxo == s.utxo
  {
  }

  lemma {:induction false} HeadIsTop(genesis: Hash, s: State, head: Block)
    requires TreeOk(s.blocks, genesis) && Attaches(s.blocks, genesis, head)
    ensures var chain := ChainWith(genesis, s, head);
      |chain| > 0 && chain[|chain| - 1] == head && head.header.height == |chain| - 1
  {
    ChainShape(s.blocks, genesis, head.header.previousHash);
  }
}
