/**
 * What holds on every branch of stored blocks: work grows along it, transaction ids do not
 * repeat on it, and it meets the checkpoints it is long enough for.
 */
module Branches {

  import opened Ledger
  import opened Utxo
  import opened Store
  import opened Chain
  import opened Tree
  import opened Consensus
  import opened HeaderIndex
  import opened BlockRules

  // ---------------------------------------------------------------- work

  lemma {:induction false} ParentWork(c: Crypto, e: Engine, w: World, genesis: Hash, s: State, h: Hash)
    requires HashesBind(c, w) && FromWorld(w, s) && TreeOk(s.blocks, genesis) && HeadersOk(c, e, genesis, s.headers)
    requires h in s.blocks && h in s.headers && 0 < s.blocks[h].header.height
    ensures var p := s.blocks[h].header.previousHash;
            p in s.blocks && p in s.headers && s.headers[h].work == s.headers[p].work + BlockWork(e, s.blocks[h].header)
            && s.headers[p].work < s.headers[h].work
  {
    ViewsAgree(c, e, w, genesis, s, h);
    assert BlockOk(s.blocks, genesis, h);
    assert HeaderOk(c, e, genesis, s.headers, h);
    BlockHeader(c, w, s.blocks[h]);
    WorkPositive(e, s.blocks[h].header);
  }

  /** Every block of an indexed branch is indexed, with less work the lower it is. */
  lemma {:induction false} AncestorWork(c: Crypto, e: Engine, w: World, genesis: Hash, s: State, h: Hash, k: nat)
    requires HashesBind(c, w) && FromWorld(w, s) && TreeOk(s.blocks, genesis) && HeadersOk(c, e, genesis, s.headers)
    requires h in s.blocks && h in s.headers && k <= s.blocks[h].header.height
    ensures var chain := ChainOf(s.blocks, genesis, h);
            && k < |chain| && chain[k].hash in s.headers && s.headers[chain[k].hash].work <= s.headers[h].work
            && (k < s.blocks[h].header.height ==> s.headers[chain[k].hash].work < s.headers[h].work)
    decreases s.blocks[h].header.height
  {
    ChainShape(s.blocks, genesis, h);
    var n := s.blocks[h].header.height;
    assert BlockOk(s.blocks, genesis, h);
    if k < n {
      hide HashesBind, FromWorld, HeadersOk;
      ParentWork(c, e, w, genesis, s, h);
      var p := s.blocks[h].header.previousHash;
      AncestorWork(c, e, w, genesis, s, p, k);
      assert ChainOf(s.blocks, genesis, h)[k] == ChainOf(s.blocks, genesis, p)[k];
    }
  }

  // ---------------------------------------------------------------- ids

  /** The body is the one the header commits to: honest ids, each once, under the header's root. */
  predicate Committed(c: Crypto, b: Block) {
    && 0 < |b.transactions| && b.header.merkleRoot == c.merkleRoot(TransactionIds(b.transactions))
    && (forall i :: 0 <= i < |b.transactions| ==> c.transactionId(b.transactions[i].Body()) == b.transactions[i].id)
    && (forall i, j :: 0 <= i < j < |b.transactions| ==> b.transactions[i].id != b.transactions[j].id)
  }

  /** One root commits to one list of ids; `Commitments.RootsBindFromHash` derives it for the Merkle tree. */
  ghost predicate RootsBind(c: Crypto, w: World) {
    forall a, b :: a in w.blocks && b in w.blocks && Committed(c, a) && Committed(c, b)
      && a.header.merkleRoot == b.header.merkleRoot
      ==> TransactionIds(a.transactions) == TransactionIds(b.transactions)
  }

  /** Among the transactions that can reach the node, ids bind everything but the division of the outputs. */
  ghost predicate ShapesBind(c: Crypto, w: World) {
    forall a, b, i, j ::
      a in w.blocks && b in w.blocks && 0 <= i < |a.transactions| && 0 <= j < |b.transactions|
      && c.transactionId(a.transactions[i].Body()) == c.transactionId(b.transactions[j].Body())
      ==> Shape(a.transactions[i].Body()) == Shape(b.transactions[j].Body())
  }

  /** A branch that could be stored: known blocks on top of each other, each with the body it commits to. */
  ghost predicate OnBranch(c: Crypto, w: World, chain: seq<Block>) {
    && HeightsCount(chain)
    && (forall k :: 0 <= k < |chain| ==>
          chain[k] in w.blocks && CoinbaseFirst(chain[k].transactions) && Committed(c, chain[k]))
    && (forall k :: 0 < k < |chain| ==> chain[k].header.previousHash == chain[k - 1].hash)
  }

  /** Shapes and roots are bound, and no branch has the same coinbase twice. */
  ghost predicate IdsBind(c: Crypto, w: World) {
    && ShapesBind(c, w) && RootsBind(c, w)
    && forall chain :: OnBranch(c, w, chain) ==> DistinctCoinbases(Steps(chain))
  }

  /** Two bodies under one header, and the header commits to both. */
  predicate Respells(c: Crypto, a: Block, b: Block) {
    a != b && a.hash == b.hash && Committed(c, a) && Committed(c, b)
  }

  /** No two of the blocks respell each other; `Commitments.PlainIsOneSpelling` says when that is so. */
  ghost predicate OneSpelling(c: Crypto, w: World) {
    forall a, b :: a in w.blocks && b in w.blocks ==> !Respells(c, a, b)
  }

  /** The same transactions up to the division of their outputs. */
  predicate SameShapes(a: seq<Transaction>, b: seq<Transaction>) {
    |a| == |b| && forall i :: 0 <= i < |a| ==> a[i].id == b[i].id && Shape(a[i].Body()) == Shape(b[i].Body())
  }

  lemma {:induction false} ShapesOf(c: Crypto, w: World, a: Block, b: Block)
    requires ShapesBind(c, w) && a in w.blocks && b in w.blocks && Committed(c, a) && Committed(c, b)
    requires TransactionIds(a.transactions) == TransactionIds(b.transactions)
    ensures SameShapes(a.transactions, b.transactions)
  {
    var ids := TransactionIds(a.transactions);
    assert |ids| == |a.transactions| && |ids| == |b.transactions|;
    forall i | 0 <= i < |ids|
      ensures a.transactions[i].id == b.transactions[i].id
      ensures Shape(a.transactions[i].Body()) == Shape(b.transactions[i].Body())
    {
      assert ids[i] == a.transactions[i].id && ids[i] == b.transactions[i].id;
    }
  }

  /** All the bodies that a header commits to have the same transactions up to the division of their outputs. */
  lemma {:induction false} CommittedAlike(c: Crypto, w: World, a: Block, b: Block)
    requires HashesBind(c, w) && IdsBind(c, w) && a in w.blocks && b in w.blocks && a.hash == b.hash
    requires Committed(c, a) && Committed(c, b)
    ensures a.header == b.header && SameShapes(a.transactions, b.transactions)
  {
    hide Committed, ShapesBind, OnBranch, SameShapes;
    BlockHeader(c, w, a);
    BlockHeader(c, w, b);
    OneHeader(c, w, a.header, b.header);
    ShapesOf(c, w, a, b);
  }

  /** Position `i` of a chain's transactions: transaction `j` of block `k`. */
  lemma {:induction false} StepAt(chain: seq<Block>, i: nat) returns (k: nat, j: nat)
    requires i < |Steps(chain)|
    ensures k < |chain| && j < |chain[k].transactions| && i == |Steps(chain[..k])| + j
    ensures Steps(chain)[i] == Placed(chain[k].transactions[j], chain[k].header.height)
  {
    var n := |chain| - 1;
    var below := Steps(chain[..n]);
    if i >= |below| {
      k, j := n, i - |below|;
    } else {
      k, j := StepAt(chain[..n], i);
      assert chain[..n][..k] == chain[..k];
    }
  }

  predicate HeightsCount(chain: seq<Block>) {
    forall k :: 0 <= k < |chain| ==> chain[k].header.height == k
  }

  lemma {:induction false} InputsOf(a: TxBody, b: TxBody)
    requires Shape(a) == Shape(b)
    ensures a.inputs == b.inputs && a.timestamp == b.timestamp && a.fee == b.fee && a.data == b.data
  {
    assert a.inputs == Shape(a).inputs && a.timestamp == Shape(a).timestamp && a.fee == Shape(a).fee
      && a.data == Shape(a).data;
    assert b.inputs == Shape(b).inputs && b.timestamp == Shape(b).timestamp && b.fee == Shape(b).fee
      && b.data == Shape(b).data;
  }

  lemma {:induction false} InputsBound(c: Crypto, w: World, chain: seq<Block>)
    requires ShapesBind(c, w) && OnBranch(c, w, chain)
    ensures IdsBindInputs(c, Steps(chain))
  {
    hide Steps, Committed, Shape;
    var steps := Steps(chain);
    forall i, j | 0 <= i < |steps| && 0 <= j < |steps|
                  && c.transactionId(steps[i].tx.Body()) == c.transactionId(steps[j].tx.Body())
      ensures steps[i].tx.inputs == steps[j].tx.inputs
    {
      var k, a := StepAt(chain, i);
      var l, b := StepAt(chain, j);
      InputsOf(steps[i].tx.Body(), steps[j].tx.Body());
    }
  }

  /** On a replaying branch no transaction id repeats. */
  lemma {:induction false} BranchIdsDistinct(r: SpendRules, w: World, chain: seq<Block>)
    requires IdsBind(r.crypto, w) && OnBranch(r.crypto, w, chain) && Replays(r, chain)
    ensures DistinctIds(Steps(chain))
  {
    hide ShapesBind, RootsBind, OnBranch, Steps;
    InputsBound(r.crypto, w, chain);
    CoinbasesDecideIds(r, Steps(chain));
  }

  /** The stored blocks of a branch, as the lemmas above need them. */
  lemma {:induction false} StoredBranch(c: Crypto, w: World, genesis: Hash, s: State, h: Hash)
    requires FromWorld(w, s) && TreeOk(s.blocks, genesis) && h in s.blocks
    requires forall k :: k in s.blocks ==> CoinbaseFirst(s.blocks[k].transactions) && Committed(c, s.blocks[k])
    ensures OnBranch(c, w, ChainOf(s.blocks, genesis, h))
  {
    hide CoinbaseFirst, Committed;
    var chain := ChainOf(s.blocks, genesis, h);
    ChainShape(s.blocks, genesis, h);
    forall k | 0 <= k < |chain|
      ensures chain[k] in w.blocks && CoinbaseFirst(chain[k].transactions) && Committed(c, chain[k])
    {
      ChainPrefix(s.blocks, genesis, h, k);
    }
  }

  // ---------------------------------------------------------------- checkpoints

  type Checkpoints = map<nat, Hash>

  /** Every stored block above genesis at a checkpointed height is the checkpointed one. */
  predicate CheckpointsKept(cps: Checkpoints, blocks: Blocks) {
    forall h :: h in blocks && 0 < blocks[h].header.height && blocks[h].header.height in cps
      ==> h == cps[blocks[h].header.height]
  }

  predicate AtCheckpoint(cps: Checkpoints, chain: seq<Block>, k: int) {
    0 <= k < |chain| && k in cps && chain[k].hash == cps[k]
  }

  /** `v` is the highest checkpoint on the chain, or -1. */
  ghost predicate HighestReached(cps: Checkpoints, chain: seq<Block>, v: int) {
    (v == -1 || AtCheckpoint(cps, chain, v)) && forall k :: AtCheckpoint(cps, chain, k) ==> k <= v
  }

  /** A stored branch above a verified checkpoint shares everything up to it with the branch it was verified on. */
  lemma {:induction false} CheckpointShared(
    cps: Checkpoints, blocks: Blocks, genesis: Hash, tip: Hash, head: Hash, v: nat)
    requires TreeOk(blocks, genesis) && CheckpointsKept(cps, blocks) && tip in blocks && head in blocks
    requires AtCheckpoint(cps, ChainOf(blocks, genesis, tip), v) && v <= blocks[head].header.height
    ensures v + 1 <= |ChainOf(blocks, genesis, head)| && v + 1 <= |ChainOf(blocks, genesis, tip)|
    ensures ChainOf(blocks, genesis, head)[..v + 1] == ChainOf(blocks, genesis, tip)[..v + 1]
  {
    hide CheckpointsKept;
    var a, b := ChainOf(blocks, genesis, tip), ChainOf(blocks, genesis, head);
    ChainShape(blocks, genesis, tip);
    ChainShape(blocks, genesis, head);
    ChainPrefix(blocks, genesis, tip, v);
    ChainPrefix(blocks, genesis, head, v);
    if v == 0 {
      assert a[0].hash == genesis && b[0].hash == genesis;
    } else {
      KeptAt(cps, blocks, b[v].hash);
    }
    assert a[v].hash == b[v].hash;
  }

  lemma {:induction false} KeptAt(cps: Checkpoints, blocks: Blocks, h: Hash)
    requires CheckpointsKept(cps, blocks) && h in blocks && 0 < blocks[h].header.height
    requires blocks[h].header.height in cps
    ensures h == cps[blocks[h].header.height]
  {
  }

  /** Which checkpoints the canonical chain has reached, read off the height index. */
  method RefreshVerifiedCheckpoint(
    cps: Checkpoints, heights: map<int, Hash>, ghost chain: seq<Block>) returns (best: int)
    requires heights == HeightsOf(chain)
    ensures HighestReached(cps, chain, best)
  {
    best := -1;
    var rest := cps.Keys;
    while rest != {}
      invariant rest <= cps.Keys && (best == -1 || AtCheckpoint(cps, chain, best))
      invariant forall k :: AtCheckpoint(cps, chain, k) && k !in rest ==> k <= best
    {
      var height :| height in rest;
      if height > best && height in heights && heights[height] == cps[height] {
        best := height;
      }
      rest := rest - {height};
    }
  }
}
