/**
 * Storing a block writes over whatever is stored under its hash (src/node/node.ts:1398-1399,
 * src/state/chainState.ts:240-242).
 * A body that respells the stored one passes every rule, so this changes a stored body; the derived state stays exact
 * exactly when that body is not on the canonical chain.
 */
module Overwriting {

  import opened Ledger
  import opened Utxo
  import opened Store
  import opened Chain
  import opened Tree
  import opened Consensus
  import opened HeaderIndex
  import opened HeaderWalk
  import opened BlockRules
  import opened Supply
  import opened Branches
  import opened Adoption
  import opened NodeState
  import opened Arrivals
  import opened Commitments

  // ---------------------------------------------------------------- chains with one body replaced

  /** `b` takes the place of the block stored under its hash; the headers agree. */
  predicate Replaces(blocks: Blocks, b: Block) {
    b.hash in blocks && blocks[b.hash].header == b.header && blocks[b.hash].hash == b.hash
  }

  lemma {:induction false} ReplacedTree(blocks: Blocks, genesis: Hash, b: Block)
    requires TreeOk(blocks, genesis) && Replaces(blocks, b)
    ensures TreeOk(blocks[b.hash := b], genesis)
  {
    var more := blocks[b.hash := b];
    forall h | h in more ensures BlockOk(more, genesis, h) {
      assert BlockOk(blocks, genesis, h);
    }
  }

  lemma {:induction false} ReplacedChain(blocks: Blocks, genesis: Hash, b: Block, h: Hash)
    requires TreeOk(blocks, genesis) && Replaces(blocks, b) && TreeOk(blocks[b.hash := b], genesis) && h in blocks
    ensures var was, now := ChainOf(blocks, genesis, h), ChainOf(blocks[b.hash := b], genesis, h);
            |now| == |was| && forall k :: 0 <= k < |was| ==> now[k] == if was[k].hash == b.hash then b else was[k]
    decreases blocks[h].header.height
  {
    var more := blocks[b.hash := b];
    assert BlockOk(blocks, genesis, h) && BlockOk(more, genesis, h);
    if blocks[h].header.height > 0 {
      hide TreeOk;
      ReplacedChain(blocks, genesis, b, blocks[h].header.previousHash);
    }
  }

  // ---------------------------------------------------------------- undo records decide outputs

  lemma {:induction false} NoneOverwritten(before: seq<Placed>, p: Placed)
    requires DistinctIds(before + [p])
    ensures forall o :: p.tx.Creates(o) ==> o !in After(map[], before)
  {
    var all := before + [p];
    assert before[..|before|] == before && all[|before|] == p;
    assert forall m :: 0 <= m < |before| ==> all[m] == before[m];
    forall o | p.tx.Creates(o) ensures o !in After(map[], before) {
      if o in After(map[], before) {
        var m := CreatorOf(map[], before, |before|, o);
      }
    }
  }

  lemma {:induction false} DistinctFront(steps: seq<Placed>, i: nat)
    requires DistinctIds(steps) && i <= |steps|
    ensures DistinctIds(steps[..i])
  {
  }

  /** The set before transaction `i` is the set after it, undone. */
  lemma {:induction false} UndoneOnce(before: seq<Placed>, steps: seq<Placed>, i: nat)
    requires DistinctIds(before + steps) && i < |steps| && AllFunded(After(map[], before), steps)
    ensures var u := After(map[], before);
            UndoTx(After(u, steps[..i + 1]), UndosOf(u, steps)[i]) == After(u, steps[..i])
  {
    hide DistinctIds, UndoTx, ApplyTx, AllFunded;
    var u, all := After(map[], before), before + steps;
    TakeOneMore(steps, i);
    UndosAt(u, steps, i);
    DistinctFront(all, |before| + i + 1);
    assert all[..|before| + i + 1] == before + steps[..i] + [steps[i]];
    NoneOverwritten(before + steps[..i], steps[i]);
    AfterConcat(map[], before, steps[..i]);
    UndoReversesApply(After(u, steps[..i]), steps[i].tx, steps[i].height);
  }

  /** One transaction applied to one set: what it creates tells its outputs. */
  lemma {:induction false} OutputsShow(u: Utxos, a: Transaction, b: Transaction, height: int)
    requires a.id == b.id && ApplyTx(u, a, height) == ApplyTx(u, b, height) && |a.outputs| == |b.outputs|
    ensures a.outputs == b.outputs
  {
    hide ApplyTx;
    forall j | 0 <= j < |a.outputs| ensures a.outputs[j] == b.outputs[j] {
      var o := Outpoint(a.id, j);
      ApplyTxAt(u, a, height, o);
      ApplyTxAt(u, b, height, o);
    }
  }

  /** Two runs from one set with one end and one list of undo records go through the same sets. */
  lemma {:induction false} SameSets(before: seq<Placed>, a: seq<Placed>, b: seq<Placed>, i: nat)
    requires DistinctIds(before + a) && DistinctIds(before + b) && |a| == |b| && i <= |a|
    requires AllFunded(After(map[], before), a) && AllFunded(After(map[], before), b)
    requires UndosOf(After(map[], before), a) == UndosOf(After(map[], before), b)
    requires After(After(map[], before), a) == After(After(map[], before), b)
    ensures After(After(map[], before), a[..i]) == After(After(map[], before), b[..i])
    decreases |a| - i
  {
    hide DistinctIds, After, UndoTx, UndosOf, AllFunded;
    if i == |a| {
      assert a[..i] == a && b[..i] == b;
    } else {
      SameSets(before, a, b, i + 1);
      UndoneOnce(before, a, i);
      UndoneOnce(before, b, i);
    }
  }

  lemma {:induction false} CreatedCount(u: Utxos, a: Transaction, b: Transaction)
    requires Funded(u, a) && Funded(u, b) && UndoOf(u, a) == UndoOf(u, b)
    ensures |a.outputs| == |b.outputs|
  {
    assert |UndoOf(u, a).created| == |a.outputs| && |UndoOf(u, b).created| == |b.outputs|;
  }

  lemma {:induction false} SameBody(a: Transaction, b: Transaction)
    requires a.id == b.id && Shape(a.Body()) == Shape(b.Body()) && a.outputs == b.outputs
    ensures a == b
  {
    assert a.Body() == Shape(a.Body()).(outputs := a.outputs) && b.Body() == Shape(b.Body()).(outputs := b.outputs);
    SameTransaction(a, b);
  }

  /** So bodies of one shape that leave the same records and the same set are the same body. */
  lemma {:induction false} RecordsDecideBody(before: seq<Placed>, a: Block, b: Block)
    requires DistinctIds(before + BlockSteps(a)) && DistinctIds(before + BlockSteps(b)) && a.header == b.header
    requires SameShapes(a.transactions, b.transactions)
    requires var u := After(map[], before);
             && AllFunded(u, BlockSteps(a)) && AllFunded(u, BlockSteps(b))
             && UndosOf(u, BlockSteps(a)) == UndosOf(u, BlockSteps(b))
             && After(u, BlockSteps(a)) == After(u, BlockSteps(b))
    ensures a.transactions == b.transactions
  {
    hide DistinctIds, After, UndosOf, AllFunded, Shape, UndoOf, Funded, ApplyTx;
    var u, x, y := After(map[], before), BlockSteps(a), BlockSteps(b);
    forall i | 0 <= i < |x| ensures a.transactions[i] == b.transactions[i] {
      SameSets(before, x, y, i);
      SameSets(before, x, y, i + 1);
      UndosAt(u, x, i);
      UndosAt(u, y, i);
      CreatedCount(After(u, x[..i]), x[i].tx, y[i].tx);
      AfterOne(u, x, i);
      AfterOne(u, y, i);
      OutputsShow(After(u, x[..i]), x[i].tx, y[i].tx, a.header.height);
      SameBody(a.transactions[i], b.transactions[i]);
    }
  }

  lemma {:induction false} AfterOne(u: Utxos, steps: seq<Placed>, i: nat)
    requires i < |steps|
    ensures After(u, steps[..i + 1]) == ApplyTx(After(u, steps[..i]), steps[i].tx, steps[i].height)
  {
    hide ApplyTx;
    TakeOneMore(steps, i);
  }

  // ---------------------------------------------------------------- two chains with one derived state

  /** The records of two chains agree above genesis, and so do the sets at their ends. */
  ghost predicate SameDerived(r: SpendRules, a: seq<Block>, b: seq<Block>) {
    && |a| == |b| && 0 < |a| && UtxoOf(a) == UtxoOf(b)
    && Replays(r, a) && Replays(r, b) && DistinctIds(Steps(a)) && DistinctIds(Steps(b))
    && forall k :: 0 < k < |a| ==> History(a)[k].undo == History(b)[k].undo
  }

  lemma {:induction false} SameBelow(r: SpendRules, a: seq<Block>, b: seq<Block>, n: nat)
    requires SameDerived(r, a, b) && 0 < n <= |a|
    ensures UtxoOf(a[..n]) == UtxoOf(b[..n])
    decreases |a| - n
  {
    hide UtxoOf, Replays, DistinctIds, Steps, UndoAll;
    if n == |a| {
      assert a[..n] == a && b[..n] == b;
    } else {
      SameBelow(r, a, b, n + 1);
      PoppedTo(r, a, n);
      PoppedTo(r, b, n);
    }
  }

  lemma {:induction false} PoppedTo(r: SpendRules, chain: seq<Block>, n: nat)
    requires Replays(r, chain) && DistinctIds(Steps(chain)) && 0 < n < |chain|
    ensures UndoAll(UtxoOf(chain[..n + 1]), History(chain)[n].undo) == UtxoOf(chain[..n])
  {
    hide UtxoOf, Replays, DistinctIds, Steps, UndoAll, RecordOn;
    TakeOneMore(chain, n);
    ReplaysPrefix(r, chain, n + 1);
    DistinctIdsPrefix(chain, n + 1);
    UndoPops(r, chain[..n], chain[n]);
    HistoryAt(chain, n);
  }

  lemma {:induction false} RecordAt(r: SpendRules, chain: seq<Block>, n: nat)
    requires Replays(r, chain) && DistinctIds(Steps(chain)) && 0 < n < |chain|
    ensures AllFunded(UtxoOf(chain[..n]), BlockSteps(chain[n]))
    ensures History(chain)[n].undo == UndosOf(UtxoOf(chain[..n]), BlockSteps(chain[n]))
    ensures UtxoOf(chain[..n + 1]) == After(UtxoOf(chain[..n]), BlockSteps(chain[n]))
    ensures DistinctIds(Steps(chain[..n]) + BlockSteps(chain[n]))
  {
    hide UtxoOf, Replays, DistinctIds, Steps, UndosOf, Applies, After, AllFunded, RecordOn;
    TakeOneMore(chain, n);
    ReplaysPrefix(r, chain, n + 1);
    DistinctIdsPrefix(chain, n + 1);
    ReplayPush(r, chain[..n], chain[n]);
    RecordPush(r, chain[..n], chain[n]);
    StepsPush(chain[..n], chain[n]);
    HistoryAt(chain, n);
  }

  /** Two chains that differ in one body of the same shape and have one derived state do not differ. */
  lemma {:induction false} DerivedDecides(r: SpendRules, a: seq<Block>, b: seq<Block>, n: nat)
    requires SameDerived(r, a, b) && 0 < n < |a| && a[..n] == b[..n] && a[n].header == b[n].header
    requires SameShapes(a[n].transactions, b[n].transactions)
    ensures a[n].transactions == b[n].transactions
  {
    SameBelow(r, a, b, n + 1);
    RecordAt(r, a, n);
    RecordAt(r, b, n);
    SetAfter(a[..n]);
    hide SameShapes, UtxoOf, Replays, DistinctIds, Steps, UndosOf, After, AllFunded;
    RecordsDecideBody(Steps(a[..n]), a[n], b[n]);
  }

  lemma {:induction false} SetAfter(chain: seq<Block>)
    ensures UtxoOf(chain) == After(map[], Steps(chain))
  {
  }

  // ---------------------------------------------------------------- the exact condition

  /** The block that is canonical at the block's height has its hash and another spelling of its body. */
  predicate RespellsCanonical(c: Crypto, s: State, b: Block) {
    && RespellsStored(c, s.blocks, b)
    && b.header.height in s.heights && s.heights[b.header.height] == b.hash
  }

  lemma {:induction false} RespellingReplaces(r: Rules, w: World, s: State, b: Block)
    requires Assumes(r, w) && Sane(r, w, s) && b in w.blocks && RespellsStored(r.Crypto(), s.blocks, b)
    ensures Replaces(s.blocks, b) && SameShapes(s.blocks[b.hash].transactions, b.transactions) && s.blocks[b.hash] != b
    ensures TreeOk(s.blocks, r.Genesis()) && s.tip.hash in s.blocks && TreeOk(BlocksWith(s, b), r.Genesis())
  {
    hide Consistent, HeadersOk, BodiesOk, HashesBind, IdsBind, SameShapes, Committed;
    SaneTree(r, w, s);
    StoredAt(s.blocks, r.Genesis(), b.hash);
    CommittedAlike(r.Crypto(), w, s.blocks[b.hash], b);
    ReplacedTree(s.blocks, r.Genesis(), b);
  }

  lemma {:induction false} HeightIs(r: Rules, w: World, s: State, k: nat)
    requires Sane(r, w, s)
    ensures s.tip.hash in s.blocks && TreeOk(s.blocks, r.Genesis())
    ensures k < |Canonical(r, s)| ==>
      k in s.heights && s.heights[k] == Canonical(r, s)[k].hash && Canonical(r, s)[k].header.height == k
    ensures |Canonical(r, s)| <= k ==> k !in s.heights
  {
    hide Sane, TreeOk, ChainOf;
    SaneTree(r, w, s);
    ChainShape(s.blocks, r.Genesis(), s.tip.hash);
  }

  lemma {:induction false} SameChainConsistent(cfg: Config, genesis: Hash, s: State, blocks: Blocks)
    requires Consistent(cfg, genesis, s) && TreeOk(blocks, genesis) && s.tip.hash in blocks
    requires ChainOf(blocks, genesis, s.tip.hash) == CanonicalChain(genesis, s)
    ensures Consistent(cfg, genesis, s.(blocks := blocks))
  {
    hide TreeOk, Replays, ChainOf, UtxoOf, HeightsOf;
  }

  /** A respelled block off the canonical chain can be written over without harm to the derived state. */
  lemma {:induction false} OffChainOverwrite(r: Rules, w: World, s: State, b: Block)
    requires Assumes(r, w) && Sane(r, w, s) && b in w.blocks && BodyOk(r.Crypto(), r.policy, b)
    requires RespellsStored(r.Crypto(), s.blocks, b) && !RespellsCanonical(r.Crypto(), s, b)
    ensures Sane(r, w, s.(blocks := BlocksWith(s, b)))
  {
    hide Assumes, Consistent, HeadersOk, BodiesOk, BodyOk, FromWorld, TreeOk, ChainOf, Replaces, SameShapes;
    RespellingReplaces(r, w, s, b);
    ReplacedChain(s.blocks, r.Genesis(), b, s.tip.hash);
    var was, now := Canonical(r, s), ChainOf(BlocksWith(s, b), r.Genesis(), s.tip.hash);
    forall k | 0 <= k < |was| ensures was[k].hash != b.hash {
      HeightIs(r, w, s, k);
      if was[k].hash == b.hash {
        SameHeight(r, w, s, b, k);
      }
    }
    assert now == was;
    SameChainConsistent(r.cfg, r.Genesis(), s, BlocksWith(s, b));
    HeadersKnown(w, s);
    BodiesWith(r.Crypto(), r.policy, s, b);
    KnownWith(w, s, b, s.headers);
  }

  lemma {:induction false} SameHeight(r: Rules, w: World, s: State, b: Block, k: nat)
    requires Sane(r, w, s) && s.tip.hash in s.blocks && TreeOk(s.blocks, r.Genesis()) && k < |Canonical(r, s)|
    requires Replaces(s.blocks, b) && Canonical(r, s)[k].hash == b.hash
    ensures b.header.height == k && Canonical(r, s)[k] == s.blocks[b.hash]
  {
    hide Sane;
    SaneTree(r, w, s);
    HeightIs(r, w, s, k);
    ChainPrefix(s.blocks, r.Genesis(), s.tip.hash, k);
  }

  lemma {:induction false} DerivedOf(r: Rules, w: World, s: State)
    requires Assumes(r, w) && Sane(r, w, s)
    ensures s.tip.hash in s.blocks && TreeOk(s.blocks, r.Genesis())
    ensures var chain := Canonical(r, s);
            && 0 < |chain| && Replays(r.cfg.rules, chain) && DistinctIds(Steps(chain)) && s.utxo == UtxoOf(chain)
            && forall k :: 0 < k < |chain| ==>
              chain[k].hash in s.undo && s.undo[chain[k].hash] == History(chain)[k].undo
  {
    hide HeadersOk, BodiesOk, FromWorld, Replays, TreeOk, ChainOf, UtxoOf, DistinctIds, Steps, Assumes;
    SaneTree(r, w, s);
    SaneIds(r, w, s);
    ConsistentFinds(r.cfg, r.Genesis(), s);
  }

  /** If the state were exact both before and after, the two bodies would be one. */
  lemma {:induction false} ExactTwice(r: Rules, w: World, s: State, b: Block)
    requires Assumes(r, w) && Sane(r, w, s) && Sane(r, w, s.(blocks := BlocksWith(s, b)))
    requires Replaces(s.blocks, b) && SameShapes(s.blocks[b.hash].transactions, b.transactions)
    requires 0 < b.header.height && b.header.height in s.heights && s.heights[b.header.height] == b.hash
    ensures s.blocks[b.hash].transactions == b.transactions
  {
    hide Sane, Assumes, TreeOk, ChainOf, SameShapes, Replays, DistinctIds, Steps, UtxoOf, Committed;
    var t, n := s.(blocks := BlocksWith(s, b)), b.header.height;
    DerivedOf(r, w, s);
    DerivedOf(r, w, t);
    HeightIs(r, w, s, n);
    ReplacedChain(s.blocks, r.Genesis(), b, s.tip.hash);
    var was, now := Canonical(r, s), Canonical(r, t);
    SameHeight(r, w, s, b, n);
    forall k | 0 <= k < n ensures was[k] == now[k] {
      HeightIs(r, w, s, k);
      if was[k].hash == b.hash {
        SameHeight(r, w, s, b, k);
      }
    }
    forall k | 0 < k < |was| ensures History(was)[k].undo == History(now)[k].undo {
      assert was[k].hash == now[k].hash;
    }
    DerivedDecides(r.cfg.rules, was, now, n);
  }

  /** What an accepted block is, whether or not it respells a stored one. */
  lemma {:induction false} AcceptedBodyOk(
    r: Rules, s: State, processed: set<Hash>, invalid: set<Hash>, verified: int, b: Block, now: int)
    requires Judge(r, s, processed, invalid, verified, b, now).Accepted?
    ensures BodyOk(r.Crypto(), r.policy, b) && b.header.height >= 1
  {
    hide NodeLookup, TargetByWalk, ContextFor, ValidateHeader, SoundBody, Committed;
    SoundIsWithin(r.Crypto(), b, r.policy.BlockReward(b.header.height), r.limits);
    SoundIsCommitted(r.Crypto(), b, r.policy.BlockReward(b.header.height), r.limits);
  }

  /**
   * Storing an accepted block keeps every derived part of the state exact if and only if the block does not respell
   * the canonical block of its height.
   */
  lemma {:induction false} StoringKeepsExact(
    r: Rules, w: World, s: State, processed: set<Hash>, invalid: set<Hash>, verified: int, b: Block, now: int)
    requires Assumes(r, w) && Sane(r, w, s) && b in w.blocks
    requires Judge(r, s, processed, invalid, verified, b, now).Accepted?
    ensures Sane(r, w, s.(blocks := BlocksWith(s, b))) <==> !RespellsCanonical(r.Crypto(), s, b)
  {
    hide Sane, Assumes, Judge, BodyOk, Attaches, Respells;
    AcceptedBodyOk(r, s, processed, invalid, verified, b, now);
    if !RespellsStored(r.Crypto(), s.blocks, b) {
      AcceptedFacts(r, w, s, processed, invalid, verified, b, now);
      SaneStored(r, w, s, b);
    } else if !RespellsCanonical(r.Crypto(), s, b) {
      OffChainOverwrite(r, w, s, b);
    } else if Sane(r, w, s.(blocks := BlocksWith(s, b))) {
      RespellingReplaces(r, w, s, b);
      ExactTwice(r, w, s, b);
      SameBlock(s.blocks[b.hash], b);
    }
  }

  lemma {:induction false} SameBlock(a: Block, b: Block)
    requires a.header == b.header && a.hash == b.hash && a.transactions == b.transactions
    ensures a == b
  {
  }
}
