/**
 * How the full rebuild compares with the incremental adoption (src/node/node.ts:1600-1604, 1768-1787). It is taken
 * when a block to be disconnected has no undo record. Both leave the same unspent outputs, heights, tip and records,
 * but the rebuild clears no index, so what only the abandoned blocks had written stays.
 */
module Fallback {

  import opened Ledger
  import opened Utxo
  import opened Store
  import opened Layers
  import opened Chain
  import opened Tree
  import opened Adoption
  import opened Replay

  /** Exact but for undo records, any of which may be missing or left over. */
  ghost predicate ExactButRecords(cfg: Config, genesis: Hash, s: State) {
    && TreeOk(s.blocks, genesis) && s.tip.hash in s.blocks
    && Replays(cfg.rules, CanonicalChain(genesis, s))
    && s == StateFor(cfg, s.blocks, s.headers, CanonicalChain(genesis, s)).(undo := s.undo)
  }

  // ---------------------------------------------------------------- the two histories

  lemma {:induction false} FullHistoryAt(chain: seq<Block>, k: nat)
    requires k < |chain|
    ensures FullHistory(chain)[k] == Connected(chain[k], FullRecord(chain[..k], chain[k]))
  {
    FullHistoryPrefix(chain, k + 1);
    assert chain[..k + 1][..k] == chain[..k];
  }

  lemma {:induction false} SameRecord(chain: seq<Block>, k: nat)
    requires 0 < k < |chain|
    ensures FullHistory(chain)[k] == History(chain)[k]
  {
    hide FullHistory, History;
    FullHistoryAt(chain, k);
    HistoryAt(chain, k);
  }

  lemma {:induction false} SpentNothing(u: Utxos, steps: seq<Placed>, i: nat)
    requires AllFunded(u, steps) && i < |steps| && steps[i].tx.inputs == []
    ensures UndosOf(u, steps)[i].spent == []
  {
    if i < |steps| - 1 {
      SpentNothing(u, steps[..|steps| - 1], i);
    }
  }

  lemma {:induction false} SameEntries(b: Block, x: BlockUndo, y: BlockUndo, n: nat)
    requires n <= |b.transactions| && forall i :: 0 <= i < n ==> SpentIn(x, i) == SpentIn(y, i)
    ensures Entries(b, x, n) == Entries(b, y, n)
  {
    hide ActivityOf, EntriesFor;
    if n > 0 {
      assert SpentIn(x, n - 1) == SpentIn(y, n - 1);
      SameEntries(b, x, y, n - 1);
    }
  }

  /** The record of genesis makes no difference to the address index. */
  lemma {:induction false} GenesisEntries(chain: seq<Block>)
    requires |chain| > 0 && SpendsNothing(chain[0])
    ensures ActivityLayer(FullHistory(chain)[0]) == ActivityLayer(History(chain)[0])
  {
    hide FullHistory, History, Entries;
    FullHistoryAt(chain, 0);
    HistoryAt(chain, 0);
    var b, x, y := chain[0], FullHistory(chain)[0].undo, History(chain)[0].undo;
    var steps, u := BlockSteps(b), UtxoOf(chain[..0]);
    forall i | 0 <= i < |b.transactions| ensures SpentIn(x, i) == SpentIn(y, i) {
      if AllFunded(u, steps) {
        SpentNothing(u, steps, i);
      }
    }
    SameEntries(b, x, y, |b.transactions|);
  }

  lemma {:induction false} SameLayers(chain: seq<Block>)
    requires |chain| > 0 && SpendsNothing(chain[0])
    ensures TxLayers(FullHistory(chain)) == TxLayers(History(chain))
    ensures AnchorLayers(FullHistory(chain)) == AnchorLayers(History(chain))
    ensures ActivityLayers(FullHistory(chain)) == ActivityLayers(History(chain))
  {
    hide FullHistory, History, ActivityLayer, TxLocations, Anchored;
    GenesisEntries(chain);
    forall k | 0 < k < |chain| ensures FullHistory(chain)[k] == History(chain)[k] {
      SameRecord(chain, k);
    }
  }

  lemma {:induction false} RecordFound(h: seq<Connected>, k: nat)
    requires Stacked(h) && k < |h|
    ensures h[k].block.hash in Union(RecordLayers(h)) && Union(RecordLayers(h))[h[k].block.hash] == h[k].undo
  {
    assert RecordLayers(h)[k] == map[h[k].block.hash := h[k].undo];
    InUnion(RecordLayers(h), k, h[k].block.hash);
  }

  // ---------------------------------------------------------------- what the rebuild leaves

  /** Every block above genesis has the record it should have. */
  predicate RecordsKept(s: State, chain: seq<Block>) {
    forall k :: 0 < k < |chain| ==> chain[k].hash in s.undo && s.undo[chain[k].hash] == History(chain)[k].undo
  }

  lemma {:induction false} RebuiltRecords(cfg: Config, s: State, head: Block, work: int, chain: seq<Block>)
    requires |chain| > 0 && Stacked(FullHistory(chain))
    ensures RecordsKept(Rebuilt(cfg, s, head, work, chain), chain)
  {
    hide FullHistory, History, UtxoOf, Union, Stacked, RecordLayers;
    forall k | 0 < k < |chain|
      ensures chain[k].hash in Union(RecordLayers(FullHistory(chain)))
      ensures Union(RecordLayers(FullHistory(chain)))[chain[k].hash] == History(chain)[k].undo
    {
      SameRecord(chain, k);
      RecordFound(FullHistory(chain), k);
    }
  }

  lemma {:induction false} RebuiltIndexes(cfg: Config, s: State, head: Block, work: int, chain: seq<Block>)
    requires |chain| > 0 && SpendsNothing(chain[0]) && Stacked(History(chain))
    requires !cfg.addressIndexEnabled ==> s.activity == map[]
    ensures var t, h := Rebuilt(cfg, s, head, work, chain), History(chain);
            && (t.txIndex == Union(TxLayers(h)) <==> s.txIndex.Keys <= IdsOn(chain))
            && (t.anchors == Union(AnchorLayers(h)) <==> s.anchors.Keys <= Union(AnchorLayers(h)).Keys)
            && (t.activity == ActivityIndex(cfg, h) <==> s.activity.Keys <= Union(ActivityLayers(h)).Keys)
  {
    hide FullHistory, History, UtxoOf, Union, Window, Stacked, IdsOn;
    var h := History(chain);
    SameLayers(chain);
    TxIndexKeys(chain);
    OverKeys(s.txIndex, Union(TxLayers(h)));
    OverKeys(s.anchors, Union(AnchorLayers(h)));
    ActivityLayersDisjoint(h);
    WindowBelow(cfg.addressIndexDepth, ActivityLayers(h));
    if cfg.addressIndexEnabled {
      OverWindow(s.activity, Union(ActivityLayers(h)), ActivityIndex(cfg, h));
    }
  }

  /**
   * The rebuild against the state made from scratch for the new chain: everything agrees but, possibly, the indexes,
   * and each of those agrees exactly when the old chain's entries all recur on the new one.
   */
  lemma {:induction false} RebuiltExactly(cfg: Config, genesis: Hash, s: State, head: Block, work: int)
    requires ExactButRecords(cfg, genesis, s) && Attaches(s.blocks, genesis, head)
    requires genesis in s.blocks && SpendsNothing(s.blocks[genesis])
    ensures var chain := ChainWith(genesis, s, head);
            |chain| > 0 &&
            var t := Rebuilt(cfg, s, head, work, chain);
            var n := StateFor(cfg, BlocksWith(s, head), HeadersWith(s, head, work), chain);
            && t == n.(undo := t.undo, txIndex := t.txIndex, anchors := t.anchors, activity := t.activity)
            && RecordsKept(t, chain)
            && (t.txIndex == n.txIndex <==> IdsOn(CanonicalChain(genesis, s)) <= IdsOn(chain))
            && (t.anchors == n.anchors <==> s.anchors.Keys <= n.anchors.Keys)
            && (t.activity == n.activity <==> s.activity.Keys <= Union(ActivityLayers(History(chain))).Keys)
  {
    hide FullHistory, History, UtxoOf, Union, Stacked, IdsOn, RecordsKept, TreeOk, ChainOf, ActivityIndex;
    var old_, chain := CanonicalChain(genesis, s), ChainWith(genesis, s, head);
    HeadIsTop(genesis, s, head);
    ChainsWith(genesis, s, head, s.tip.hash);
    StartsAtGenesis(genesis, s, head);
    FullStacked(BlocksWith(s, head), genesis, head.hash);
    HistoryStacked(BlocksWith(s, head), genesis, head.hash);
    TxIndexKeys(old_);
    RebuiltRecords(cfg, s, head, work, chain);
    NoActivity(cfg, s, old_);
    RebuiltIndexes(cfg, s, head, work, chain);
    assert chain[..|chain|] == chain;
    HeightsCleared(old_, chain, HeightsOf(old_) + HeightsOf(chain));
  }

  lemma {:induction false} NoActivity(cfg: Config, s: State, chain: seq<Block>)
    requires s.activity == ActivityIndex(cfg, History(chain))
    ensures !cfg.addressIndexEnabled ==> s.activity == map[]
  {
  }

  lemma {:induction false} StartsAtGenesis(genesis: Hash, s: State, head: Block)
    requires TreeOk(s.blocks, genesis) && Attaches(s.blocks, genesis, head) && genesis in s.blocks
    ensures |ChainWith(genesis, s, head)| > 0 && ChainWith(genesis, s, head)[0] == s.blocks[genesis]
  {
    var below := ChainOf(s.blocks, genesis, head.header.previousHash);
    ChainShape(s.blocks, genesis, head.header.previousHash);
    ChainPrefix(s.blocks, genesis, head.header.previousHash, 0);
    assert BlockOk(s.blocks, genesis, below[0].hash);
  }

  /** A transaction of the abandoned blocks that is not on the new chain is still found, in its abandoned block. */
  lemma {:induction false} AbandonedStaysFound(cfg: Config, genesis: Hash, s: State, head: Block, work: int, id: Hash)
    requires ExactButRecords(cfg, genesis, s) && Attaches(s.blocks, genesis, head)
    requires genesis in s.blocks && SpendsNothing(s.blocks[genesis])
    requires id in IdsOn(CanonicalChain(genesis, s)) && id !in IdsOn(ChainWith(genesis, s, head))
    ensures var chain := ChainWith(genesis, s, head);
            |chain| > 0 &&
            var t := Rebuilt(cfg, s, head, work, chain);
            id in s.txIndex && id in t.txIndex && t.txIndex[id] == s.txIndex[id]
  {
    hide FullHistory, History, UtxoOf, Union, Stacked, IdsOn, TreeOk, ChainOf, ActivityIndex;
    var chain := ChainWith(genesis, s, head);
    HeadIsTop(genesis, s, head);
    StartsAtGenesis(genesis, s, head);
    TxIndexKeys(CanonicalChain(genesis, s));
    TxIndexKeys(chain);
    SameLayers(chain);
  }

  // ---------------------------------------------------------------- an instance

  /** A block of one valid coinbase, on a genesis of the same kind. */
  predicate Single(c: Crypto, b: Block) {
    |b.transactions| == 1 && b.transactions[0].IsCoinbase() && ValidStructure(c, b.transactions[0])
  }

  lemma {:induction false} SingleReplays(r: SpendRules, g: Block, b: Block)
    requires Single(r.crypto, g) && Single(r.crypto, b)
    ensures Replays(r, [g, b]) && IdsOn([g, b]) == {g.transactions[0].id, b.transactions[0].id}
  {
    hide ValidStructure;
    var x, y := Placed(g.transactions[0], g.header.height), Placed(b.transactions[0], b.header.height);
    assert [] + [g] == [g] && [g] + [b] == [g, b];
    StepsPush([], g);
    StepsPush([g], b);
    assert BlockSteps(g) == [x] && BlockSteps(b) == [y];
    assert Steps([g, b]) == [x] + [y];
    assert [] + [x] == [x];
    AppliesSnoc(r, map[], [], x);
    AppliesSnoc(r, map[], [x], y);
  }

  /**
   * For any two blocks on one genesis, each with a coinbase of its own: the node is at the first, whose record is
   * missing; rebuilding to the second leaves the first one's coinbase in the index.
   */
  lemma {:induction false} TwinStaysFound(cfg: Config, g: Block, a: Block, b: Block, work: int) returns (s: State)
    requires Single(cfg.rules.crypto, g) && Single(cfg.rules.crypto, a) && Single(cfg.rules.crypto, b)
    requires g.header.height == 0 && a.header.height == 1 == b.header.height
    requires a.header.previousHash == g.hash == b.header.previousHash
    requires a.hash != g.hash && b.hash != g.hash && a.hash != b.hash
    requires a.transactions[0].id !in {g.transactions[0].id, b.transactions[0].id}
    ensures ExactButRecords(cfg, g.hash, s) && Attaches(s.blocks, g.hash, b)
    ensures s.tip.hash == a.hash && a.hash !in s.undo
    ensures var chain := ChainWith(g.hash, s, b);
            chain == [g, b] && Replays(cfg.rules, chain) &&
            var t := Rebuilt(cfg, s, b, work, chain);
            a.transactions[0].id in t.txIndex && a.transactions[0].id !in IdsOn(chain)
  {
    hide ValidStructure, ActivityIndex, UtxoOf, Union, History, Replays, IdsOn, Rebuilt;
    var blocks := map[g.hash := g, a.hash := a];
    s := StateFor(cfg, blocks, map[], [g, a]).(undo := map[]);
    TwoBlocks(g, a);
    SingleReplays(cfg.rules, g, a);
    SingleReplays(cfg.rules, g, b);
    assert [g] + [b] == [g, b];
    SingleSpendsNothing(cfg.rules.crypto, g);
    AbandonedStaysFound(cfg, g.hash, s, b, work, a.transactions[0].id);
  }

  lemma {:induction false} TwoBlocks(g: Block, a: Block)
    requires g.header.height == 0 && a.header.height == 1 && a.header.previousHash == g.hash != a.hash
    ensures var blocks := map[g.hash := g, a.hash := a];
            && TreeOk(blocks, g.hash) && ChainOf(blocks, g.hash, g.hash) == [g]
            && ChainOf(blocks, g.hash, a.hash) == [g, a]
  {
    var blocks := map[g.hash := g, a.hash := a];
    assert BlockOk(blocks, g.hash, g.hash) && BlockOk(blocks, g.hash, a.hash);
    assert [g] + [a] == [g, a];
  }

  lemma {:induction false} SingleSpendsNothing(c: Crypto, g: Block)
    requires Single(c, g)
    ensures SpendsNothing(g)
  {
  }
}
