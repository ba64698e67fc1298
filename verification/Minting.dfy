/**
 * What a coinbase's own fee does to the supply of a running node (src/consensus/blockValidator.ts:145-176):
 * a block the node accepts and adopts can mint more than the schedule allows.
 */
module Minting {

  import opened Ledger
  import opened Utxo
  import opened Store
  import opened Chain
  import opened Tree
  import opened Consensus
  import opened HeaderChain
  import opened HeaderIndex
  import opened HeaderWalk
  import opened BlockRules
  import opened Monetary
  import opened Supply
  import opened Branches
  import opened Adoption
  import opened Pending
  import opened NodeState
  import opened Arrivals
  import opened Mining

  /** Every unspent output was created by a transaction of the chain. */
  lemma {:induction false} OutputsAreOld(chain: seq<Block>, cb: Transaction, height: int)
    requires NewIds(Steps(chain), [Placed(cb, height)])
    ensures forall o :: o in UtxoOf(chain) ==> o.txId != cb.id
  {
    hide Steps;
    var steps := Steps(chain);
    assert steps[..|steps|] == steps;
    forall o | o in UtxoOf(chain) ensures o.txId != cb.id {
      var m := CreatorOf(map[], steps, |steps|, o);
      assert steps[m].tx.id != [Placed(cb, height)][0].tx.id;
    }
  }

  /**
   * An accepted block on the tip that holds only a coinbase replays, so the node adopts it, and raises the supply by
   * exactly what that coinbase pays: up to its own fee field more than the reward.
   */
  lemma {:induction false} AcceptedCoinbaseMints(
    r: Rules, w: World, s: State, processed: set<Hash>, invalid: set<Hash>, verified: int, b: Block, now: int)
    requires Assumes(r, w) && Sane(r, w, s) && b in w.blocks && !RespellsStored(r.Crypto(), s.blocks, b)
    requires |b.transactions| == 1 && b.header.previousHash == s.tip.hash
    requires Judge(r, s, processed, invalid, verified, b, now).Accepted?
    ensures b.header.height >= 1 && TreeOk(s.blocks, r.Genesis()) && Attaches(s.blocks, r.Genesis(), b)
    ensures s.tip.hash in s.blocks
    ensures BranchReplays(r, s, b) && ChainWith(r.Genesis(), s, b) == Canonical(r, s) + [b]
    ensures Total(UtxoOf(ChainWith(r.Genesis(), s, b))) == Total(s.utxo) + TotalOut(b.transactions[0].outputs)
    ensures TotalOut(b.transactions[0].outputs) <= r.policy.BlockReward(b.header.height) + b.transactions[0].fee
  {
    hide Sane, Assumes, Judge, SoundBody, Replays, Steps, UtxoOf, Total, TotalOut, ValidStructure, TreeOk, ChainOf,
      Attaches, BodyOk, Committed, OnBranch, NewIds, IdsBindPending;
    SaneTree(r, w, s);
    var cb, chain := b.transactions[0], Canonical(r, s);
    AcceptedFacts(r, w, s, processed, invalid, verified, b, now);
    AcceptedBody(r, s, processed, invalid, verified, b, now);
    SoundCoinbase(r.Crypto(), b, r.policy.BlockReward(b.header.height), r.limits);
    CanonicalKnown(r, w, s);
    OneCrypto(r, w);
    TipAgain(r, w, s);
    AttachedHeight(s.blocks, r.Genesis(), b);
    SoundIsCommitted(r.Crypto(), b, r.policy.BlockReward(b.header.height), r.limits);
    BlockIsFresh(r, w, chain, b);
    OutputsAreOld(chain, cb, b.header.height);
    assert b.transactions == [cb];
    PushCoinbase(r.cfg.rules, chain, b, cb);
    ChildChain(r, s, b);
  }

  lemma {:induction false} AttachedHeight(blocks: Blocks, genesis: Hash, b: Block)
    requires Attaches(blocks, genesis, b)
    ensures b.header.previousHash in blocks && b.header.height == blocks[b.header.previousHash].header.height + 1
  {
  }

  lemma {:induction false} ChildChain(r: Rules, s: State, b: Block)
    requires TreeOk(s.blocks, r.Genesis()) && s.tip.hash in s.blocks && Attaches(s.blocks, r.Genesis(), b)
    requires b.header.previousHash == s.tip.hash
    ensures ChainWith(r.Genesis(), s, b) == Canonical(r, s) + [b]
  {
    hide TreeOk, ChainOf;
  }

  lemma {:induction false} AcceptedBody(
    r: Rules, s: State, processed: set<Hash>, invalid: set<Hash>, verified: int, b: Block, now: int)
    requires Judge(r, s, processed, invalid, verified, b, now).Accepted?
    ensures b.header.height >= 1 && SoundBody(r.Crypto(), b, r.policy.BlockReward(b.header.height), r.limits)
  {
    hide NodeLookup, TargetByWalk, ContextFor, ValidateHeader, SoundBody;
  }

  lemma {:induction false} SoundCoinbase(c: Crypto, b: Block, reward: int, limits: Limits)
    requires SoundBody(c, b, reward, limits) && |b.transactions| == 1
    ensures CoinbaseFirst(b.transactions) && b.transactions[0].IsCoinbase() && ValidStructure(c, b.transactions[0])
    ensures TotalOut(b.transactions[0].outputs) <= reward + b.transactions[0].fee
  {
    hide ValidStructure, TotalOut, Separate;
    OneFee(b.transactions);
  }

  // ---------------------------------------------------------------- a node that does it

  /** Ids are timestamps, block hashes nonces, and a root is its first id. */
  function PlainCrypto(): Crypto {
    Crypto(
      (b: TxBody) => if b.timestamp < 0 then 0 else b.timestamp, (k: Key) => "m",
      (k: Key, m: SigningPayload) => 0, (k: Key, m: SigningPayload, s: Signature) => true,
      (h: Header) => if h.nonce < 0 then 0 else h.nonce, (k: Key, h: Hash, s: Signature) => true,
      (ids: seq<Hash>) => if |ids| == 0 then 0 else ids[0], (b: Block) => 0)
  }

  /** Proof of work without retargets, 50 coins a block for ever, no checkpoints. */
  function PlainRules(): Rules {
    Rules(Config(SpendRules(PlainCrypto(), 0), false, 0),
          Params(PlainCrypto(), 0, Pow, RetargetRules(1, 0, 1), 0, 0),
          MonetaryPolicy(50, 0, 0), Limits(0, 1), map[])
  }

  function PlainGenesis(): Block {
    Block(Header(0, 7, 1, 1, MAX_TARGET, 0, 0, None, None), [Transaction(1, [], [TxOutput("m", 100)], 1, 0, None)], 0)
  }

  /** Claims a fee of 10 and pays it to itself: 60 coins where the schedule has 50. */
  function GreedyBlock(): Block {
    Block(Header(0, 0, 2, 2, MAX_TARGET, 1, 1, None, None), [Transaction(2, [], [TxOutput("m", 60)], 2, 10, None)], 1)
  }

  /** Two empty blocks that name the block above as their parent; the first claims the height of genesis. */
  function LowBlock(): Block {
    Block(Header(0, 1, 0, 3, MAX_TARGET, 2, 0, None, None), [], 2)
  }

  function LateBlock(): Block {
    Block(Header(0, 1, 0, 3, MAX_TARGET, 3, 2, None, None), [], 3)
  }

  ghost function PlainWorld(): World {
    World(iset{PlainGenesis().header, GreedyBlock().header, LowBlock().header, LateBlock().header},
          iset{PlainGenesis(), GreedyBlock(), LowBlock(), LateBlock()})
  }

  lemma {:induction false} PlainBlocks(b: Block)
    requires b in PlainWorld().blocks
    ensures b == PlainGenesis() || b == GreedyBlock() || b == LowBlock() || b == LateBlock()
  {
  }

  /** Only the first two blocks have a body, and it is told apart by its height, its id and its root. */
  lemma {:induction false} PlainIds(b: Block)
    requires b in PlainWorld().blocks && |b.transactions| > 0
    ensures |b.transactions| == 1 && PlainCrypto().transactionId(b.transactions[0].Body()) == b.transactions[0].id
    ensures b.transactions[0].id == b.header.height + 1 == b.header.merkleRoot
    ensures b == if b.header.height == 0 then PlainGenesis() else GreedyBlock()
  {
    hide PlainWorld;
    PlainBlocks(b);
  }

  lemma {:induction false} PlainCoinbases(chain: seq<Block>)
    requires OnBranch(PlainCrypto(), PlainWorld(), chain)
    ensures DistinctCoinbases(Steps(chain))
  {
    hide Steps, Committed, PlainWorld, PlainCrypto, PlainGenesis, GreedyBlock;
    var steps := Steps(chain);
    forall i, j | 0 <= i < j < |steps| && steps[i].tx.IsCoinbase() && steps[j].tx.IsCoinbase()
      ensures steps[i].tx.id != steps[j].tx.id
    {
      var k, a := StepAt(chain, i);
      var l, b := StepAt(chain, j);
      PlainIds(chain[k]);
      PlainIds(chain[l]);
      assert chain[k].header.height == k && chain[l].header.height == l;
    }
  }

  lemma {:induction false} PlainContents()
    ensures ShapesBind(PlainCrypto(), PlainWorld()) && RootsBind(PlainCrypto(), PlainWorld())
  {
    hide PlainCrypto, PlainWorld, PlainGenesis, GreedyBlock;
    var c, w := PlainCrypto(), PlainWorld();
    forall a, b | a in w.blocks && b in w.blocks && Committed(c, a) && Committed(c, b)
      && a.header.merkleRoot == b.header.merkleRoot
      ensures TransactionIds(a.transactions) == TransactionIds(b.transactions)
    {
      PlainIds(a);
      PlainIds(b);
    }
    forall a, b, i, j | a in w.blocks && b in w.blocks && 0 <= i < |a.transactions| && 0 <= j < |b.transactions|
                        && c.transactionId(a.transactions[i].Body()) == c.transactionId(b.transactions[j].Body())
      ensures Shape(a.transactions[i].Body()) == Shape(b.transactions[j].Body())
    {
      PlainIds(a);
      PlainIds(b);
    }
  }

  lemma {:induction false} PlainHashes()
    ensures HashesBind(PlainCrypto(), PlainWorld())
  {
    var c, w := PlainCrypto(), PlainWorld();
    forall b | b in w.blocks ensures b.header in w.headers && b.hash == c.blockHash(b.header) {
      PlainBlocks(b);
    }
    forall a | a in w.headers
      ensures a == PlainGenesis().header || a == GreedyBlock().header || a == LowBlock().header
        || a == LateBlock().header
    {
    }
  }

  lemma {:induction false} PlainAssumes()
    ensures Assumes(PlainRules(), PlainWorld())
  {
    hide OnBranch, HashesBind, ShapesBind, RootsBind, PlainWorld;
    PlainContents();
    PlainHashes();
    forall chain | OnBranch(PlainCrypto(), PlainWorld(), chain) ensures DistinctCoinbases(Steps(chain)) {
      PlainCoinbases(chain);
    }
  }

  lemma {:induction false} PlainAccepts(now: int)
    requires 2 <= now
    ensures Judge(PlainRules(), FirstState(PlainRules(), PlainGenesis()), {}, {}, -1, GreedyBlock(), now).Accepted?
  {
    hide HeightsOf, UtxoOf;
    var r, g, b := PlainRules(), PlainGenesis(), GreedyBlock();
    var s, cb := FirstState(r, g), b.transactions[0];
    assert cb.Body() == TxBody([], [TxOutput("m", 60)], 2, 10, None);
    OneCoinbase(r.Crypto(), cb, "m", 60);
    assert r.policy.BlockReward(1) == 50 by { RewardAlways(r.policy); }
    assert TransactionIds([cb]) == [2];
    LoneCoinbaseIsSound(r.Crypto(), b, cb, 50, r.limits);
    var lookup := NodeLookup(s, map[]);
    assert TargetByWalk(r.params, lookup, g.header) == Some(MAX_TARGET);
  }

  lemma {:induction false} RewardAlways(p: MonetaryPolicy)
    requires p.halvingInterval == 0 && p.tailEmission == 0
    ensures p.BlockReward(1) == p.initialReward && p.Emitted(1) == p.initialReward
  {
    assert p.Emitted(0) == 0;
  }

  lemma {:induction false} PlainStart()
    ensures Sane(PlainRules(), PlainWorld(), FirstState(PlainRules(), PlainGenesis()))
    ensures Canonical(PlainRules(), FirstState(PlainRules(), PlainGenesis())) == [PlainGenesis()]
  {
    hide Sane, Assumes;
    var r, g := PlainRules(), PlainGenesis();
    var first := g.transactions[0];
    assert first.Body() == TxBody([], [TxOutput("m", 100)], 1, 0, None);
    OneCoinbase(r.Crypto(), first, "m", 100);
    assert TransactionIds(g.transactions) == [1];
    PlainAssumes();
    FirstStateIsSane(r, PlainWorld(), g);
  }

  /** A fresh node accepts and adopts a block after which more coins exist than allocation and schedule allow. */
  lemma {:induction false} SupplyCanPassTheSchedule(now: int) returns (r: Rules, w: World, s: State, b: Block)
    requires 2 <= now
    ensures Assumes(r, w) && Sane(r, w, s) && b in w.blocks && Judge(r, s, {}, {}, -1, b, now).Accepted?
    ensures BranchReplays(r, s, b)
    ensures var chain := ChainWith(r.Genesis(), s, b);
            Lawful(r.cfg.rules, r.policy, chain)
              && Total(UtxoOf(chain)) > Allocation(chain[0]) + r.policy.Emitted(|chain| - 1)
  {
    hide Sane, Assumes, Judge, UtxoOf, Total, Replays, Attaches, TreeOk, ChainOf, Steps, TotalOut, ValidStructure,
      TotalFees;
    var g;
    r, w, g, b := PlainRules(), PlainWorld(), PlainGenesis(), GreedyBlock();
    s := FirstState(r, g);
    PlainAssumes();
    PlainStart();
    PlainAccepts(now);
    AcceptedCoinbaseMints(r, w, s, {}, {}, -1, b, now);
    RewardAlways(r.policy);
    var first, second := g.transactions[0], b.transactions[0];
    assert first.Body() == TxBody([], [TxOutput("m", 100)], 1, 0, None)
      && second.Body() == TxBody([], [TxOutput("m", 60)], 2, 10, None);
    OneCoinbase(r.Crypto(), first, "m", 100);
    OneCoinbase(r.Crypto(), second, "m", 60);
    TwoCoinbases(r.cfg.rules, g, b, first, second);
    OneFee(b.transactions);
    TwoAreLawful(r.cfg.rules, r.policy, g, b);
    assert [g] + [b] == [g, b];
  }
}
