/**
 Everything the node derives from its canonical chain, defined as plain functions of that
 chain, and what connecting or disconnecting one block does to each
 (src/node/node.ts:1707-1766). These are the reference the incremental adoption is proved
 to agree with.
 */
module Chain {
  import opened Ledger
  import opened Utxo
  import opened Store
  import opened Layers

  /** The parts of the node's configuration that decide what is stored. */
  datatype Config = Config(rules: SpendRules, addressIndexEnabled: bool, addressIndexDepth: nat)

  /** A canonical block with its undo record. */
  datatype Connected = Connected(block: Block, undo: BlockUndo)

  function BlockSteps(b: Block): seq<Placed> {
    seq(|b.transactions|, i requires 0 <= i < |b.transactions| => Placed(b.transactions[i], b.header.height))
  }

  /** The chain's transactions in order. */
  function Steps(chain: seq<Block>): seq<Placed> {
    if |chain| == 0 then [] else Steps(chain[..|chain| - 1]) + BlockSteps(chain[|chain| - 1])
  }

  /** The unspent outputs after replaying the chain from nothing. */
  function UtxoOf(chain: seq<Block>): Utxos {
    After(map[], Steps(chain))
  }

  predicate Replays(r: SpendRules, chain: seq<Block>) {
    Applies(r, map[], Steps(chain))
  }

  /** The undo record connecting `b` on top of `below` leaves; genesis is never given one. */
  function RecordOn(below: seq<Block>, b: Block): BlockUndo {
    if 0 < |below| && AllFunded(UtxoOf(below), BlockSteps(b)) then UndosOf(UtxoOf(below), BlockSteps(b)) else []
  }

  /** The chain with the undo record of each block. */
  function History(chain: seq<Block>): (h: seq<Connected>)
    ensures |h| == |chain|
    ensures forall k :: 0 <= k < |h| ==> h[k].block == chain[k]
  {
    if |chain| == 0 then []
    else History(chain[..|chain| - 1]) + [Connected(chain[|chain| - 1],
      RecordOn(chain[..|chain| - 1], chain[|chain| - 1]))]
  }

  // ---------------------------------------------------------------- the derived indexes

  function UndoLayer(c: Connected): map<Hash, BlockUndo> {
    if c.block.header.height == 0 then map[] else map[c.block.hash := c.undo]
  }

  function TxLayer(c: Connected): map<Hash, Hash> {
    TxLocations(c.block, |c.block.transactions|)
  }

  function AnchorLayer(c: Connected): map<AnchorKey, Anchor> {
    Anchored(c.block, |c.block.transactions|)
  }

  function ActivityLayer(c: Connected): map<ActivityKey, Activity> {
    Entries(c.block, c.undo, |c.block.transactions|)
  }

  function UndoLayers(h: seq<Connected>): seq<map<Hash, BlockUndo>> {
    seq(|h|, k requires 0 <= k < |h| => UndoLayer(h[k]))
  }

  function TxLayers(h: seq<Connected>): seq<map<Hash, Hash>> {
    seq(|h|, k requires 0 <= k < |h| => TxLayer(h[k]))
  }

  function AnchorLayers(h: seq<Connected>): seq<map<AnchorKey, Anchor>> {
    seq(|h|, k requires 0 <= k < |h| => AnchorLayer(h[k]))
  }

  function ActivityLayers(h: seq<Connected>): seq<map<ActivityKey, Activity>> {
    seq(|h|, k requires 0 <= k < |h| => ActivityLayer(h[k]))
  }

  /** The address activity of the last `addressIndexDepth` blocks, or of all when that is 0. */
  function ActivityIndex(cfg: Config, h: seq<Connected>): map<ActivityKey, Activity> {
    if cfg.addressIndexEnabled then Window(cfg.addressIndexDepth, ActivityLayers(h)) else map[]
  }

  function HeightsOf(chain: seq<Block>): map<int, Hash> {
    map k | 0 <= k < |chain| :: chain[k].hash
  }

  /** The whole state, rebuilt from scratch for `chain`. */
  function StateFor(cfg: Config, blocks: map<Hash, Block>, headers: map<Hash, IndexedHeader>, chain: seq<Block>): State
    requires |chain| > 0
  {
    var h := History(chain);
    State(blocks, headers, UtxoOf(chain), Union(UndoLayers(h)), HeightsOf(chain),
          ChainTip(chain[|chain| - 1].hash, |chain| - 1),
          Union(TxLayers(h)), Union(AnchorLayers(h)), ActivityIndex(cfg, h))
  }

  // ---------------------------------------------------------------- one block more or less

  /** Block `k` sits at height `k` and no hash repeats. */
  predicate Stacked(h: seq<Connected>) {
    && (forall k :: 0 <= k < |h| ==> h[k].block.header.height == k)
    && (forall i, j :: 0 <= i < j < |h| ==> h[i].block.hash != h[j].block.hash)
  }

  /** The batch-maintained indexes of `s` are the ones of `h`. */
  predicate Indexed(cfg: Config, s: State, h: seq<Connected>) {
    && s.undo == Union(UndoLayers(h))
    && s.txIndex == Union(TxLayers(h))
    && s.anchors == Union(AnchorLayers(h))
    && s.activity == ActivityIndex(cfg, h)
  }

  /** The block `addressIndexDepth` below height `k`, if the chain reaches that far. */
  function BlockBehind(cfg: Config, h: seq<Connected>, k: nat): Option<Connected>
    requires k <= |h|
  {
    if cfg.addressIndexEnabled && 0 < cfg.addressIndexDepth <= k then Some(h[k - cfg.addressIndexDepth]) else None
  }

  function LayerOrNone(c: Option<Connected>): map<ActivityKey, Activity> {
    if c.Some? then ActivityLayer(c.value) else map[]
  }

  /** What disconnecting `c` writes: its own entries go, and the block it had pushed out of
      the address window comes back. */
  function Disconnect(cfg: Config, s: State, c: Connected, returning: Option<Connected>): State {
    s.(undo := s.undo - {c.block.hash},
       txIndex := s.txIndex - TxLayer(c).Keys,
       anchors := s.anchors - AnchorLayer(c).Keys,
       activity := if cfg.addressIndexEnabled
                   then (s.activity - ActivityLayer(c).Keys) + LayerOrNone(returning) else s.activity)
  }

  /** What connecting `c` writes: its own entries come, and the block it pushes out of the
      address window goes. */
  function Connect(cfg: Config, s: State, c: Connected, leaving: Option<Connected>): State {
    s.(undo := s.undo[c.block.hash := c.undo],
       txIndex := s.txIndex + TxLayer(c),
       anchors := s.anchors + AnchorLayer(c),
       activity := if cfg.addressIndexEnabled
                   then (s.activity + ActivityLayer(c)) - LayerOrNone(leaving).Keys else s.activity,
       heights := s.heights[c.block.header.height := c.block.hash])
  }

  lemma {:induction false} UndoLayersDisjoint(h: seq<Connected>)
    requires Stacked(h)
    ensures Disjoint(UndoLayers(h))
  {
  }

  lemma {:induction false} AnchorLayersDisjoint(h: seq<Connected>)
    requires Stacked(h)
    ensures Disjoint(AnchorLayers(h))
  {
    var layers := AnchorLayers(h);
    forall i, j | 0 <= i < j < |layers| ensures layers[i].Keys !! layers[j].Keys {
      assert forall k :: k in layers[i] ==> k.height == i;
      assert forall k :: k in layers[j] ==> k.height == j;
    }
  }

  lemma {:induction false} ActivityLayersDisjoint(h: seq<Connected>)
    requires Stacked(h)
    ensures Disjoint(ActivityLayers(h))
  {
    var layers := ActivityLayers(h);
    forall i, j | 0 <= i < j < |layers| ensures layers[i].Keys !! layers[j].Keys {
      assert forall k :: k in layers[i] ==> k.height == i;
      assert forall k :: k in layers[j] ==> k.height == j;
    }
  }

  lemma {:induction false} LayersPush(h: seq<Connected>, c: Connected)
    ensures UndoLayers(h + [c]) == UndoLayers(h) + [UndoLayer(c)]
    ensures TxLayers(h + [c]) == TxLayers(h) + [TxLayer(c)]
    ensures AnchorLayers(h + [c]) == AnchorLayers(h) + [AnchorLayer(c)]
    ensures ActivityLayers(h + [c]) == ActivityLayers(h) + [ActivityLayer(c)]
  {
  }

  /** The address index of a chain one block shorter: the top block's entries go, the block
      that re-enters the window comes back. */
  lemma {:induction false} WindowAfterDisconnect(cfg: Config, h: seq<Connected>, c: Connected)
    requires Stacked(h + [c]) && cfg.addressIndexEnabled
    ensures (ActivityIndex(cfg, h + [c]) - ActivityLayer(c).Keys) + LayerOrNone(BlockBehind(cfg, h + [c], |h|))
         == ActivityIndex(cfg, h)
  {
    hide Window, Union, ActivityLayer, Disjoint, Stacked;
    LayersPush(h, c);
    ActivityLayersDisjoint(h + [c]);
    WindowPop(cfg.addressIndexDepth, ActivityLayers(h), ActivityLayer(c));
  }

  /** The address index of a chain one block longer: the new block's entries come, the block
      that leaves the window goes. */
  lemma {:induction false} WindowAfterConnect(cfg: Config, h: seq<Connected>, c: Connected)
    requires Stacked(h + [c]) && cfg.addressIndexEnabled
    ensures (ActivityIndex(cfg, h) + ActivityLayer(c)) - LayerOrNone(BlockBehind(cfg, h, |h|)).Keys
         == ActivityIndex(cfg, h + [c])
  {
    hide Window, Union, ActivityLayer, Disjoint, Stacked;
    LayersPush(h, c);
    ActivityLayersDisjoint(h + [c]);
    WindowPush(cfg.addressIndexDepth, ActivityLayers(h), ActivityLayer(c));
  }

  /** Disconnecting the top block leaves exactly the indexes of the shorter chain. */
  lemma {:induction false} DisconnectStep(cfg: Config, s: State, h: seq<Connected>, c: Connected)
    requires |h| > 0 && Stacked(h + [c]) && Disjoint(TxLayers(h + [c])) && Indexed(cfg, s, h + [c])
    ensures Indexed(cfg, Disconnect(cfg, s, c, BlockBehind(cfg, h + [c], |h|)), h)
  {
    LayersPush(h, c);
    assert (h + [c])[|h|] == c;
    UndoLayersDisjoint(h + [c]);
    DropTop(UndoLayers(h), UndoLayer(c));
    assert UndoLayer(c).Keys == {c.block.hash};
    DropTop(TxLayers(h), TxLayer(c));
    AnchorLayersDisjoint(h + [c]);
    DropTop(AnchorLayers(h), AnchorLayer(c));
    if cfg.addressIndexEnabled {
      WindowAfterDisconnect(cfg, h, c);
    }
  }

  lemma {:induction false} IndexesPush(h: seq<Connected>, c: Connected)
    ensures Union(UndoLayers(h + [c])) == Union(UndoLayers(h)) + UndoLayer(c)
    ensures Union(TxLayers(h + [c])) == Union(TxLayers(h)) + TxLayer(c)
    ensures Union(AnchorLayers(h + [c])) == Union(AnchorLayers(h)) + AnchorLayer(c)
  {
    LayersPush(h, c);
    UnionPush(UndoLayers(h), UndoLayer(c));
    UnionPush(TxLayers(h), TxLayer(c));
    UnionPush(AnchorLayers(h), AnchorLayer(c));
  }

  /** Connecting a block on top leaves exactly the indexes of the longer chain. */
  lemma {:induction false} ConnectStep(cfg: Config, s: State, h: seq<Connected>, c: Connected)
    requires |h| > 0 && Stacked(h + [c]) && Indexed(cfg, s, h)
    ensures Indexed(cfg, Connect(cfg, s, c, BlockBehind(cfg, h, |h|)), h + [c])
  {
    IndexesPush(h, c);
    assert (h + [c])[|h|] == c;
    PutIsMerge(s.undo, c.block.hash, c.undo);
    if cfg.addressIndexEnabled {
      WindowAfterConnect(cfg, h, c);
    }
  }

  // ---------------------------------------------------------------- extending a chain by one block

  lemma {:induction false} HistoryPrefix(chain: seq<Block>, k: nat)
    requires k <= |chain|
    ensures History(chain[..k]) == History(chain)[..k]
  {
    hide RecordOn;
    if k == |chain| {
      assert chain[..k] == chain;
    } else {
      var below := chain[..|chain| - 1];
      HistoryPrefix(below, k);
      assert below[..k] == chain[..k];
      assert History(chain)[..k] == History(below)[..k];
    }
  }

  lemma {:induction false} HistoryAt(chain: seq<Block>, k: nat)
    requires k < |chain|
    ensures History(chain)[k] == Connected(chain[k], RecordOn(chain[..k], chain[k]))
  {
    HistoryPrefix(chain, k + 1);
    assert chain[..k + 1][..k] == chain[..k];
  }

  lemma {:induction false} StepsPush(chain: seq<Block>, b: Block)
    ensures Steps(chain + [b]) == Steps(chain) + BlockSteps(b)
  {
    assert (chain + [b])[..|chain|] == chain;
  }

  /** Replaying one more block is applying it to what the chain below it left. */
  lemma {:induction false} ReplayPush(r: SpendRules, chain: seq<Block>, b: Block)
    ensures UtxoOf(chain + [b]) == After(UtxoOf(chain), BlockSteps(b))
    ensures Replays(r, chain + [b]) <==> Replays(r, chain) && Applies(r, UtxoOf(chain), BlockSteps(b))
  {
    StepsPush(chain, b);
    AfterConcat(map[], Steps(chain), BlockSteps(b));
    AppliesConcat(r, map[], Steps(chain), BlockSteps(b));
  }

  lemma {:induction false} RecordPush(r: SpendRules, chain: seq<Block>, b: Block)
    requires |chain| > 0 && Applies(r, UtxoOf(chain), BlockSteps(b))
    ensures AllFunded(UtxoOf(chain), BlockSteps(b))
    ensures RecordOn(chain, b) == UndosOf(UtxoOf(chain), BlockSteps(b))
  {
    AppliesIsFunded(r, UtxoOf(chain), BlockSteps(b));
  }

  /** The top block's undo record takes the set back to the chain below it. */
  lemma {:induction false} UndoPops(r: SpendRules, chain: seq<Block>, b: Block)
    requires |chain| > 0 && Replays(r, chain + [b]) && DistinctIds(Steps(chain + [b]))
    ensures UndoAll(UtxoOf(chain + [b]), RecordOn(chain, b)) == UtxoOf(chain)
  {
    ReplayPush(r, chain, b);
    RecordPush(r, chain, b);
    StepsPush(chain, b);
    DistinctIdsNeverClobber(Steps(chain), BlockSteps(b));
    UndoAllReverses(UtxoOf(chain), BlockSteps(b));
  }

  lemma {:induction false} StepsPrefix(chain: seq<Block>, k: nat) returns (rest: seq<Placed>)
    requires k <= |chain|
    ensures Steps(chain) == Steps(chain[..k]) + rest
  {
    if k == |chain| {
      rest := [];
      assert chain[..k] == chain;
    } else {
      rest := StepsPrefix(chain[..|chain| - 1], k);
      rest := rest + BlockSteps(chain[|chain| - 1]);
      assert chain[..|chain| - 1][..k] == chain[..k];
    }
  }

  lemma {:induction false} DistinctIdsPrefix(chain: seq<Block>, k: nat)
    requires k <= |chain| && DistinctIds(Steps(chain))
    ensures DistinctIds(Steps(chain[..k]))
  {
    var rest := StepsPrefix(chain, k);
    assert forall i :: 0 <= i < |Steps(chain[..k])| ==> Steps(chain)[i] == Steps(chain[..k])[i];
  }

  lemma {:induction false} ReplaysPrefix(r: SpendRules, chain: seq<Block>, k: nat)
    requires k <= |chain| && Replays(r, chain)
    ensures Replays(r, chain[..k])
  {
    var rest := StepsPrefix(chain, k);
    AppliesConcat(r, map[], Steps(chain[..k]), rest);
  }

  lemma {:induction false} InTxIds(b: Block, n: nat, t: Hash) returns (i: nat)
    requires n <= |b.transactions| && t in TxIds(b, n)
    ensures i < n && b.transactions[i].id == t
  {
    if t == b.transactions[n - 1].id {
      i := n - 1;
    } else {
      i := InTxIds(b, n - 1, t);
    }
  }

  /** Where transaction `i` of block `k` sits in the chain's transactions. */
  lemma {:induction false} PositionOf(chain: seq<Block>, k: nat, i: nat) returns (p: nat)
    requires k < |chain| && i < |chain[k].transactions|
    ensures |Steps(chain[..k])| <= p < |Steps(chain[..k + 1])| <= |Steps(chain)|
    ensures Steps(chain)[p].tx == chain[k].transactions[i]
  {
    var rest := StepsPrefix(chain, k + 1);
    assert chain[..k + 1] == chain[..k] + [chain[k]];
    StepsPush(chain[..k], chain[k]);
    p := |Steps(chain[..k])| + i;
  }

  lemma {:induction false} PositionsOrdered(chain: seq<Block>, k: nat, l: nat)
    requires k < l < |chain|
    ensures |Steps(chain[..k + 1])| <= |Steps(chain[..l])|
  {
    var rest := StepsPrefix(chain[..l], k + 1);
    assert chain[..l][..k + 1] == chain[..k + 1];
  }

  lemma {:induction false} IndexedOnce(chain: seq<Block>, k: nat, l: nat, t: Hash)
    requires DistinctIds(Steps(chain)) && k < l < |chain|
    requires t in TxIds(chain[k], |chain[k].transactions|)
    ensures t !in TxIds(chain[l], |chain[l].transactions|)
  {
    if t in TxIds(chain[l], |chain[l].transactions|) {
      var i := InTxIds(chain[k], |chain[k].transactions|, t);
      var j := InTxIds(chain[l], |chain[l].transactions|, t);
      PositionsOrdered(chain, k, l);
      var p := PositionOf(chain, k, i);
      var q := PositionOf(chain, l, j);
      assert false;
    }
  }

  /** With distinct ids, no two blocks of the chain index the same transaction. */
  lemma {:induction false} TxLayersDisjoint(chain: seq<Block>)
    requires DistinctIds(Steps(chain))
    ensures Disjoint(TxLayers(History(chain)))
  {
    var layers := TxLayers(History(chain));
    forall k, l | 0 <= k < l < |layers| ensures layers[k].Keys !! layers[l].Keys {
      forall t | t in layers[k].Keys ensures t !in layers[l].Keys {
        IndexedOnce(chain, k, l, t);
      }
    }
  }

  // ---------------------------------------------------------------- the ids on a chain

  function IdsOn(chain: seq<Block>): set<Hash> {
    set p | p in Steps(chain) :: p.tx.id
  }

  lemma {:induction false} BlockIds(b: Block, n: nat)
    requires n <= |b.transactions|
    ensures TxIds(b, n) == set i | 0 <= i < n :: b.transactions[i].id
  {
    if n > 0 {
      BlockIds(b, n - 1);
    }
  }

  lemma {:induction false} IdsOnPush(chain: seq<Block>, b: Block)
    ensures IdsOn(chain + [b]) == IdsOn(chain) + TxIds(b, |b.transactions|)
  {
    StepsPush(chain, b);
    BlockIds(b, |b.transactions|);
    var old_, more := Steps(chain), BlockSteps(b);
    forall i | 0 <= i < |b.transactions| ensures b.transactions[i].id in IdsOn(chain + [b]) {
      assert more[i] in old_ + more;
    }
    forall id | id in IdsOn(chain + [b]) ensures id in IdsOn(chain) + TxIds(b, |b.transactions|) {
      var p :| p in old_ + more && p.tx.id == id;
      if p !in old_ {
        var i :| 0 <= i < |more| && more[i] == p;
        assert b.transactions[i].id == id;
      }
    }
  }

  /** The transaction index has an entry for exactly the transactions of the chain. */
  lemma {:induction false} TxIndexKeys(chain: seq<Block>)
    ensures Union(TxLayers(History(chain))).Keys == IdsOn(chain)
  {
    if |chain| == 0 {
      assert TxLayers(History(chain)) == [];
    } else {
      var below, b := chain[..|chain| - 1], chain[|chain| - 1];
      assert chain == below + [b];
      TxIndexKeys(below);
      IdsOnPush(below, b);
      IndexesPush(History(below), Connected(b, RecordOn(below, b)));
    }
  }

  /** The transactions of genesis spend nothing. */
  predicate SpendsNothing(genesis: Block) {
    forall i :: 0 <= i < |genesis.transactions| ==> genesis.transactions[i].inputs == []
  }
}
