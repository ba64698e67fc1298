/**
 * A template is sealed outside the chain lock (src/node/node.ts:996-1040): whatever happens
 * meanwhile, if the tip is again the one it was built on, the block connects.
 */
module Mining {

  import opened Ledger
  import opened Utxo
  import opened Store
  import opened Chain
  import opened Tree
  import opened HeaderIndex
  import opened BlockRules
  import opened Branches
  import opened Adoption
  import opened Pending
  import opened Templates
  import opened NodeState
  import opened Consensus
  import opened HeaderWalk
  import opened Arrivals
  import opened IndexedPaths

  lemma {:induction false} BranchPush(c: Crypto, w: World, chain: seq<Block>, b: Block)
    requires OnBranch(c, w, chain) && |chain| > 0 && b in w.blocks && CoinbaseFirst(b.transactions) && Committed(c, b)
    requires b.header.height == |chain| && b.header.previousHash == chain[|chain| - 1].hash
    ensures OnBranch(c, w, chain + [b])
  {
    hide CoinbaseFirst, Committed;
  }

  /** On one branch a block's coinbase is new. */
  lemma {:induction false} CoinbaseIsNew(c: Crypto, w: World, chain: seq<Block>, b: Block, k: nat)
    requires IdsBind(c, w) && OnBranch(c, w, chain + [b]) && k < |Steps(chain)| && Steps(chain)[k].tx.IsCoinbase()
    ensures 0 < |b.transactions| && Steps(chain)[k].tx.id != b.transactions[0].id
  {
    hide ShapesBind, RootsBind, Committed;
    var all, n := chain + [b], |chain|;
    assert all[n] == b && all[..n] == chain;
    var steps := Steps(all);
    assert steps == Steps(chain) + BlockSteps(b);
    assert DistinctCoinbases(steps);
    assert CoinbaseFirst(all[n].transactions);
    assert steps[|Steps(chain)|] == Placed(b.transactions[0], b.header.height);
    assert steps[k] == Steps(chain)[k];
  }

  /** What the hash assumptions say about a block and a chain below it. */
  lemma {:induction false} BlockIsFresh(r: Rules, w: World, chain: seq<Block>, b: Block)
    requires Assumes(r, w) && OnBranch(r.Crypto(), w, chain) && |chain| > 0 && Replays(r.cfg.rules, chain)
    requires b in w.blocks && CoinbaseFirst(b.transactions) && Committed(r.Crypto(), b)
    requires b.header.height == |chain| && b.header.previousHash == chain[|chain| - 1].hash
    ensures IdsBindPending(r.Crypto(), Steps(chain), b.transactions[1..])
    ensures NewIds(Steps(chain), [Placed(b.transactions[0], b.header.height)])
  {
    hide HashesBind, Replays, Steps, RootsBind, Shape;
    BranchPush(r.Crypto(), w, chain, b);
    var steps, rest, cb := Steps(chain), b.transactions[1..], b.transactions[0];
    forall k, j | 0 <= k < |steps| && 0 <= j < |rest|
                  && r.Crypto().transactionId(steps[k].tx.Body()) == r.Crypto().transactionId(rest[j].Body())
      ensures steps[k].tx.inputs == rest[j].inputs
    {
      var l, i := StepAt(chain, k);
      assert rest[j] == b.transactions[j + 1];
      InputsOf(steps[k].tx.Body(), rest[j].Body());
    }
    forall k | 0 <= k < |steps| ensures steps[k].tx.id != cb.id {
      var l, i := StepAt(chain, k);
      StepIsHonest(r.cfg.rules, chain, k);
      if steps[k].tx.IsCoinbase() {
        CoinbaseIsNew(r.Crypto(), w, chain, b, k);
      } else if steps[k].tx.id == cb.id {
        InputsOf(steps[k].tx.Body(), cb.Body());
      }
    }
  }

  lemma {:induction false} StepIsHonest(r: SpendRules, chain: seq<Block>, k: nat)
    requires Replays(r, chain) && k < |Steps(chain)|
    ensures r.crypto.transactionId(Steps(chain)[k].tx.Body()) == Steps(chain)[k].tx.id
  {
    hide Steps, ValidTx;
    AppliesAt(r, map[], Steps(chain), k);
    HonestId(r, After(map[], Steps(chain)[..k]), Steps(chain)[k]);
  }

  /** The same tip in a store that only grew has the same chain below it. */
  lemma {:induction false} SameTipSameChain(r: Rules, w: World, built: State, now: State)
    requires Sane(r, w, built) && Sane(r, w, now) && Grows(built.blocks, now.blocks) && built.tip.hash == now.tip.hash
    ensures Canonical(r, now) == Canonical(r, built)
  {
    hide Sane;
    SaneTree(r, w, built);
    SaneTree(r, w, now);
    ChainStable(built.blocks, now.blocks, r.Genesis(), built.tip.hash);
  }

  lemma {:induction false} CanonicalKnown(r: Rules, w: World, s: State)
    requires Sane(r, w, s)
    ensures OnBranch(r.Crypto(), w, Canonical(r, s)) && Replays(r.cfg.rules, Canonical(r, s))
  {
    hide HeadersOk, Replays, TreeOk, StateFor, CoinbaseFirst, Committed, OnBranch;
    StoredBranch(r.Crypto(), w, r.Genesis(), s, s.tip.hash);
  }

  /**
   * A template built on a valid pool, sealed, and met by the same tip again, connects exactly when it
   * pays anything: no interleaving of other handlers can make it fail.
   */
  lemma {:induction false} SealedTemplateConnects(
    r: Rules, w: World, built: State, now: State, job: Job, p: seq<Transaction>, t: Template, b: Block)
    requires Assumes(r, w) && Sane(r, w, built) && Sane(r, w, now)
    requires Grows(built.blocks, now.blocks) && built.tip.hash == now.tip.hash
    requires job.crypto == r.Crypto() && job.parent == built.blocks[built.tip.hash]
    requires Fits(job, p, t) && PoolValid(r.cfg.rules, built.utxo, p, built.tip.height + 1)
    requires b in w.blocks && Seals(b, t)
    ensures Replays(r.cfg.rules, Canonical(r, now) + [b]) <==> job.reward + TotalFees(t.transactions[1..]) > 0
  {
    hide Sane, Assumes, Fits, PoolValid, Replays, Steps, UtxoOf, TotalFees, ChainOf, TreeOk, IdsBindPending, NewIds,
      DistinctIds, OnBranch, Committed;
    SaneTree(r, w, built);
    SaneIds(r, w, built);
    SameTipSameChain(r, w, built, now);
    CanonicalKnown(r, w, built);
    var chain := Canonical(r, built);
    FitsShape(job, p, t, r.cfg.rules, built.utxo, built.tip.height + 1);
    OneCrypto(r, w);
    SealedCommits(r, w, job, p, t, b, built.utxo);
    FitsHeader(job, p, t);
    TipAgain(r, w, built);
    BlockIsFresh(r, w, chain, b);
    TemplateConnects(r.cfg.rules, job, chain, p, t, b);
  }

  lemma {:induction false} OneCrypto(r: Rules, w: World)
    requires Assumes(r, w)
    ensures r.cfg.rules.crypto == r.Crypto()
  {
  }

  lemma {:induction false} FitsShape(job: Job, p: seq<Transaction>, t: Template, r: SpendRules, u: Utxos, height: int)
    requires Fits(job, p, t) && PoolValid(r, u, p, height)
    ensures CoinbaseFirst(t.transactions) && job.crypto.transactionId(t.transactions[0].Body()) == t.transactions[0].id
    ensures t.header.height == job.Height() && 0 < |t.transactions|
  {
    hide ValidTx, TotalFees;
    var rest := t.transactions[1..];
    DrawnIsValid(r, u, p, rest, height);
    forall i | 1 <= i < |t.transactions| ensures !t.transactions[i].IsCoinbase() {
      assert t.transactions[i] == rest[i - 1];
    }
    var cb := job.Coinbase(TotalFees(rest));
    assert cb.Body() == TxBody([], [TxOutput(job.miner, job.reward + TotalFees(rest))], job.Timestamp(), 0, None);
  }

  lemma {:induction false} TipAgain(r: Rules, w: World, s: State)
    requires Sane(r, w, s)
    ensures s.tip.hash in s.blocks && s.blocks[s.tip.hash].hash == s.tip.hash
  {
    hide Consistent, HeadersOk, BodiesOk, FromWorld;
    SaneTree(r, w, s);
    StoredAt(s.blocks, r.Genesis(), s.tip.hash);
  }

  lemma {:induction false} DrawnAreHonest(r: SpendRules, u: Utxos, rest: seq<Transaction>, height: int, i: nat)
    requires PoolValid(r, u, rest, height) && i < |rest|
    ensures r.crypto.transactionId(rest[i].Body()) == rest[i].id && !rest[i].IsCoinbase()
  {
  }

  lemma {:induction false} ApartIds(txs: seq<Transaction>, i: nat, j: nat)
    requires Apart(txs) && i < j < |txs|
    ensures txs[i].id != txs[j].id
  {
  }

  lemma {:induction false} BodyDecides(c: Crypto, w: World, b: Block, i: nat, j: nat)
    requires ShapesBind(c, w) && b in w.blocks && i < |b.transactions| && j < |b.transactions|
    requires c.transactionId(b.transactions[i].Body()) == c.transactionId(b.transactions[j].Body())
    ensures b.transactions[i].IsCoinbase() == b.transactions[j].IsCoinbase()
  {
    hide Shape;
    assert Shape(b.transactions[i].Body()) == Shape(b.transactions[j].Body());
    InputsOf(b.transactions[i].Body(), b.transactions[j].Body());
  }

  lemma {:induction false} FitsHeader(job: Job, p: seq<Transaction>, t: Template)
    requires Fits(job, p, t)
    ensures t.header.merkleRoot == job.crypto.merkleRoot(TransactionIds(t.transactions)) && Apart(t.transactions[1..])
    ensures t.header.previousHash == job.parent.hash
  {
    hide Apart, Picked, TotalFees, TrimmedFrom;
  }

  lemma {:induction false} ShapesBindAssumed(r: Rules, w: World)
    requires Assumes(r, w)
    ensures ShapesBind(r.Crypto(), w)
  {
    hide ShapesBind, RootsBind, OnBranch, HashesBind;
  }

  /** A sealed template is the body its header commits to. */
  lemma {:induction false} SealedCommits(
    r: Rules, w: World, job: Job, p: seq<Transaction>, t: Template, b: Block, u: Utxos)
    requires Assumes(r, w) && job.crypto == r.Crypto() && b in w.blocks && Fits(job, p, t) && Seals(b, t)
    requires PoolValid(r.cfg.rules, u, p, job.Height())
    ensures Committed(r.Crypto(), b)
  {
    hide Assumes, Fits, PoolValid, ShapesBind, Apart;
    ShapesBindAssumed(r, w);
    OneCrypto(r, w);
    FitsHeader(job, p, t);
    FitsShape(job, p, t, r.cfg.rules, u, job.Height());
    var c, txs, rest := r.Crypto(), t.transactions, t.transactions[1..];
    RestIsValid(job, p, t, r.cfg.rules, u, job.Height());
    forall i | 0 <= i < |txs| ensures c.transactionId(txs[i].Body()) == txs[i].id && (0 < i ==> !txs[i].IsCoinbase()) {
      if 0 < i {
        assert txs[i] == rest[i - 1];
        DrawnAreHonest(r.cfg.rules, u, rest, job.Height(), i - 1);
      }
    }
    forall i, j | 0 <= i < j < |txs| ensures txs[i].id != txs[j].id {
      if i == 0 {
        if txs[i].id == txs[j].id {
          BodyDecides(c, w, b, i, j);
        }
      } else {
        assert txs[i] == rest[i - 1] && txs[j] == rest[j - 1];
        ApartIds(rest, i - 1, j - 1);
      }
    }
  }

  lemma {:induction false} RestIsValid(job: Job, p: seq<Transaction>, t: Template, r: SpendRules, u: Utxos, height: int)
    requires Fits(job, p, t) && PoolValid(r, u, p, height)
    ensures 0 < |t.transactions| && PoolValid(r, u, t.transactions[1..], height)
  {
    hide PoolValid, Drawn, TotalFees, Picked, TrimmedFrom;
    DrawnIsValid(r, u, p, t.transactions[1..], height);
  }

  /** A sealed template is committed to by its header and within its reward, as every stored block must be. */
  lemma {:induction false} SealedBodyOk(
    r: Rules, w: World, job: Job, p: seq<Transaction>, t: Template, b: Block, u: Utxos)
    requires Assumes(r, w) && job.crypto == r.Crypto() && b in w.blocks
    requires Fits(job, p, t) && Seals(b, t) && PoolValid(r.cfg.rules, u, p, job.Height())
    requires job.parent.header.height >= 0 && job.reward == r.policy.BlockReward(job.Height())
    ensures BodyOk(r.Crypto(), r.policy, b)
  {
    hide Assumes, Committed;
    SealedCommits(r, w, job, p, t, b, u);
    FitsShape(job, p, t, r.cfg.rules, u, job.Height());
    TemplatePaysExactly(job, p, t);
  }

  // ---------------------------------------------------------------- the sealed header

  /** Walks from a stored block find the same ancestors in a store that has grown. */
  lemma {:induction false} BehindStays(r: Rules, w: World, s: State, t: State, h: Hash, k: nat)
    requires Assumes(r, w) && Sane(r, w, s) && Sane(r, w, t) && Grows(s.blocks, t.blocks) && h in s.blocks
    requires k <= s.blocks[h].header.height
    ensures Behind(NodeLookup(s, map[]), s.blocks[h].header, k) == Behind(NodeLookup(t, map[]), s.blocks[h].header, k)
    decreases k
  {
    hide Sane, Assumes, NodeLookup;
    SaneTree(r, w, s);
    StoredAt(s.blocks, r.Genesis(), h);
    if k > 0 {
      var p := s.blocks[h].header.previousHash;
      LookupStored(r, w, s, p);
      LookupStored(r, w, t, p);
      BehindStays(r, w, s, t, p, k - 1);
    }
  }

  lemma {:induction false} SignersStay(r: Rules, w: World, s: State, t: State, h: Hash, n: nat)
    requires Assumes(r, w) && Sane(r, w, s) && Sane(r, w, t) && Grows(s.blocks, t.blocks) && h in s.blocks
    ensures SignersByWalk(NodeLookup(s, map[]), Some(s.blocks[h].header), n)
            == SignersByWalk(NodeLookup(t, map[]), Some(s.blocks[h].header), n)
    decreases n
  {
    hide Sane, Assumes, NodeLookup;
    SaneTree(r, w, s);
    StoredAt(s.blocks, r.Genesis(), h);
    if n > 0 && s.blocks[h].header.height > 0 {
      var p := s.blocks[h].header.previousHash;
      LookupStored(r, w, s, p);
      LookupStored(r, w, t, p);
      SignersStay(r, w, s, t, p, n - 1);
    }
  }

  lemma {:induction false} TargetStays(r: Rules, w: World, s: State, t: State, h: Hash)
    requires Assumes(r, w) && Sane(r, w, s) && Sane(r, w, t) && Grows(s.blocks, t.blocks) && h in s.blocks
    ensures TargetByWalk(r.params, NodeLookup(s, map[]), s.blocks[h].header)
            == TargetByWalk(r.params, NodeLookup(t, map[]), s.blocks[h].header)
  {
    hide Sane, Assumes, NodeLookup, Behind, NextTarget, RetargetsAt;
    SaneTree(r, w, s);
    StoredAt(s.blocks, r.Genesis(), h);
    var parent, interval := s.blocks[h].header, r.params.retarget.interval;
    if RetargetsAt(r.params.engine, parent.height + 1, interval) {
      BehindStays(r, w, s, t, h, RetargetGaps(parent.height + 1, interval));
    }
  }

  /**
   * A template sealed for the tip of one store, with a seal that verifies there, passes every header rule in any later
   * store with the same tip, so `Nodes.Node.AdoptSealed` may be called with it.
   */
  lemma {:induction false} SealedPasses(
    r: Rules, w: World, built: State, now: State, job: Job, p: seq<Transaction>, t: Template, b: Block)
    requires Assumes(r, w) && Sane(r, w, built) && Sane(r, w, now) && Grows(built.blocks, now.blocks)
    requires built.tip.hash == now.tip.hash && job.parent == built.blocks[built.tip.hash] && job.crypto == r.Crypto()
    requires TargetByWalk(r.params, NodeLookup(built, map[]), job.parent.header) == Some(job.target)
    requires Fits(job, p, t) && Seals(b, t) && r.Crypto().blockHash(b.header) == b.hash
    requires VerifySeal(r.Crypto(), r.params.engine, b.header, b.hash,
                        SignersByWalk(NodeLookup(built, map[]), Some(job.parent.header),
                          r.params.engine.RecentSignerWindow()))
    ensures Passes(r, NodeLookup(now, map[]), b.header, b.hash, b.header.timestamp - r.params.maxFutureDriftMs)
  {
    hide Sane, Assumes, NodeLookup, TargetByWalk, SignersByWalk, VerifySeal, Fits;
    SaneTree(r, w, built);
    TipAgain(r, w, built);
    FitsTime(job, p, t);
    LookupStored(r, w, now, now.tip.hash);
    GrownTip(built, now);
    TargetStays(r, w, built, now, built.tip.hash);
    SignersStay(r, w, built, now, built.tip.hash, r.params.engine.RecentSignerWindow());
  }

  lemma {:induction false} GrownTip(s: State, t: State)
    requires Grows(s.blocks, t.blocks) && s.tip.hash in s.blocks && s.tip.hash == t.tip.hash
    ensures t.tip.hash in t.blocks && t.blocks[t.tip.hash] == s.blocks[s.tip.hash]
  {
  }

  lemma {:induction false} FitsTime(job: Job, p: seq<Transaction>, t: Template)
    requires Fits(job, p, t)
    ensures t.header.previousHash == job.parent.hash && t.header.height == job.Height()
    ensures t.header.difficultyTarget == job.target
    ensures job.parent.header.timestamp < t.header.timestamp
  {
    hide Drawn, Picked, TotalFees, TrimmedFrom;
  }
}
