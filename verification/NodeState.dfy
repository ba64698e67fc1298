/**
 * What every handler of the node keeps true of its store, and how one state may follow another
 * (src/node/node.ts:1165-1217, 1391-1431, 1580-1675).
 */
module NodeState {

  import opened Ledger
  import opened Utxo
  import opened Store
  import opened Chain
  import opened Tree
  import opened Consensus
  import opened HeaderChain
  import opened HeaderIndex
  import opened BlockRules
  import opened Monetary
  import opened Supply
  import opened Branches
  import opened Adoption

  /** The configuration a node runs with. */
  datatype Rules = Rules(
    cfg: Config, params: Params, policy: MonetaryPolicy, limits: Limits, checkpoints: Checkpoints)
  {
    function Crypto(): Crypto {
      params.crypto
    }

    function Genesis(): Hash {
      params.genesisHash
    }
  }

  /** What holds of everything that reaches the node, and one crypto for all rules. */
  ghost predicate Assumes(r: Rules, w: World) {
    HashesBind(r.Crypto(), w) && IdsBind(r.Crypto(), w) && r.cfg.rules.crypto == r.Crypto()
  }

  /** What the node keeps of a body: the one its header commits to, led by its only coinbase, within its reward. */
  predicate BodyOk(c: Crypto, p: MonetaryPolicy, b: Block) {
    && CoinbaseFirst(b.transactions) && Committed(c, b)
    && (b.header.height <= 0 ==> GenesisShape(b))
    && (0 < b.header.height ==> WithinReward(b, p.BlockReward(b.header.height)))
  }

  predicate BodiesOk(c: Crypto, p: MonetaryPolicy, blocks: Blocks) {
    forall h :: h in blocks ==> BodyOk(c, p, blocks[h])
  }

  /** The store: canonical indexes exact, work exact, every body within its reward. */
  ghost predicate Sane(r: Rules, w: World, s: State) {
    && Consistent(r.cfg, r.Genesis(), s)
    && HeadersOk(r.Crypto(), r.params.engine, r.Genesis(), s.headers)
    && FromWorld(w, s) && s.tip.hash in s.headers && BodiesOk(r.Crypto(), r.policy, s.blocks)
  }

  ghost function Canonical(r: Rules, s: State): seq<Block>
    requires TreeOk(s.blocks, r.Genesis()) && s.tip.hash in s.blocks
  {
    CanonicalChain(r.Genesis(), s)
  }

  lemma {:induction false} SaneTree(r: Rules, w: World, s: State)
    requires Sane(r, w, s)
    ensures TreeOk(s.blocks, r.Genesis()) && s.tip.hash in s.blocks && s.tip.hash in s.headers
    ensures |Canonical(r, s)| == s.tip.height + 1 && s.tip.height >= 0
    ensures Canonical(r, s)[s.tip.height] == s.blocks[s.tip.hash]
    ensures s.heights == HeightsOf(Canonical(r, s)) && s.utxo == UtxoOf(Canonical(r, s))
    ensures s.blocks[s.tip.hash].header.height == s.tip.height
  {
    hide Replays, HeightsOf, UtxoOf, HeadersOk, FromWorld, BodiesOk;
    ChainShape(s.blocks, r.Genesis(), s.tip.hash);
  }

  lemma {:induction false} SaneConsistent(r: Rules, w: World, s: State)
    requires Sane(r, w, s)
    ensures Consistent(r.cfg, r.Genesis(), s) && Canonical(r, s) == CanonicalChain(r.Genesis(), s)
  {
    hide Consistent, HeadersOk, FromWorld, BodiesOk;
    SaneTree(r, w, s);
  }

  /** On the canonical chain no transaction id repeats. */
  lemma {:induction false} SaneIds(r: Rules, w: World, s: State)
    requires Assumes(r, w) && Sane(r, w, s)
    ensures DistinctIds(Steps(Canonical(r, s)))
  {
    hide IdsBind, HashesBind, Replays, HeadersOk, CoinbaseFirst, Committed, TreeOk, StateFor, OnBranch;
    StoredBranch(r.Crypto(), w, r.Genesis(), s, s.tip.hash);
    BranchIdsDistinct(r.cfg.rules, w, Canonical(r, s));
  }

  // ---------------------------------------------------------------- the first state

  /** The store of a node that has seen nothing but genesis. */
  function FirstState(r: Rules, g: Block): State {
    StateFor(r.cfg, map[g.hash := g], map[g.hash := IndexedHeader(g.header, BlockWork(r.params.engine, g.header))], [g])
  }

  lemma {:induction false} GenesisReplays(r: SpendRules, g: Block)
    requires GenesisShape(g) && ValidStructure(r.crypto, g.transactions[0])
    ensures Replays(r, [g])
  {
    hide ValidStructure;
    assert [g][..0] == [];
    assert Steps([]) == [];
    assert BlockSteps(g) == [Placed(g.transactions[0], g.header.height)];
    assert Steps([g]) == BlockSteps(g);
    CoinbaseApplies(r, map[], g.transactions[0], g.header.height);
  }

  /** A fresh node's store is sane, so runs have somewhere to start. */
  lemma {:induction false} FirstStateIsSane(r: Rules, w: World, g: Block)
    requires Assumes(r, w) && g in w.blocks && g.hash == r.Genesis() && g.header.height == 0
    requires GenesisShape(g) && ValidStructure(r.Crypto(), g.transactions[0])
    requires g.header.merkleRoot == r.Crypto().merkleRoot(TransactionIds(g.transactions))
    ensures Sane(r, w, FirstState(r, g)) && Canonical(r, FirstState(r, g)) == [g]
  {
    hide ValidStructure, UtxoOf, HeightsOf, IdsBind, HashesBind, Replays, TreeOk, ChainOf, HeadersOk;
    GenesisReplays(r.cfg.rules, g);
    BlockHeader(r.Crypto(), w, g);
    FirstChain(r.Genesis(), g);
    FirstIndex(r, g);
    FirstConsistent(r, g);
    FirstKnown(r, w, g);
  }

  lemma {:induction false} FirstConsistent(r: Rules, g: Block)
    requires TreeOk(map[g.hash := g], r.Genesis()) && ChainOf(map[g.hash := g], r.Genesis(), g.hash) == [g]
    requires Replays(r.cfg.rules, [g])
    ensures Consistent(r.cfg, r.Genesis(), FirstState(r, g)) && CanonicalChain(r.Genesis(), FirstState(r, g)) == [g]
  {
    hide Replays, TreeOk, ChainOf, UtxoOf, HeightsOf;
  }

  lemma {:induction false} FirstChain(genesis: Hash, g: Block)
    requires g.hash == genesis && g.header.height == 0
    ensures TreeOk(map[g.hash := g], genesis) && ChainOf(map[g.hash := g], genesis, g.hash) == [g]
  {
    assert BlockOk(map[g.hash := g], genesis, g.hash);
  }

  lemma {:induction false} FirstIndex(r: Rules, g: Block)
    requires g.hash == r.Genesis() && g.header.height == 0 && r.Crypto().blockHash(g.header) == g.hash
    ensures HeadersOk(r.Crypto(), r.params.engine, r.Genesis(),
                      map[g.hash := IndexedHeader(g.header, BlockWork(r.params.engine, g.header))])
  {
  }

  lemma {:induction false} FirstKnown(r: Rules, w: World, g: Block)
    requires g in w.blocks && g.header in w.headers && GenesisShape(g) && g.header.height == 0
    requires ValidStructure(r.Crypto(), g.transactions[0])
    requires g.header.merkleRoot == r.Crypto().merkleRoot(TransactionIds(g.transactions))
    ensures FromWorld(w, FirstState(r, g)) && BodiesOk(r.Crypto(), r.policy, FirstState(r, g).blocks)
  {
    hide StateFor, UtxoOf;
    var s := FirstState(r, g);
    StateForHolds(r.cfg, map[g.hash := g], map[g.hash := IndexedHeader(g.header, BlockWork(r.params.engine, g.header))],
      [g]);
    assert s.blocks == map[g.hash := g];
  }

  // ---------------------------------------------------------------- changes to the store

  lemma {:induction false} ReindexedConsistent(cfg: Config, genesis: Hash, s: State, headers: Headers)
    requires Consistent(cfg, genesis, s)
    ensures Consistent(cfg, genesis, s.(headers := headers))
    ensures CanonicalChain(genesis, s.(headers := headers)) == CanonicalChain(genesis, s)
  {
    hide TreeOk, Replays, ChainOf, UtxoOf, HeightsOf;
  }

  /** More index entries change nothing else. */
  lemma {:induction false} SaneHeaders(r: Rules, w: World, s: State, headers: Headers)
    requires Sane(r, w, s) && HeadersOk(r.Crypto(), r.params.engine, r.Genesis(), headers)
    requires Extends(s.headers, headers) && FromWorld(w, s.(headers := headers))
    ensures Sane(r, w, s.(headers := headers))
    ensures Canonical(r, s.(headers := headers)) == Canonical(r, s)
  {
    hide Consistent, HeadersOk, FromWorld, BodiesOk;
    SaneTree(r, w, s);
    ReindexedConsistent(r.cfg, r.Genesis(), s, headers);
  }

  lemma {:induction false} StoredConsistent(cfg: Config, genesis: Hash, s: State, b: Block)
    requires Consistent(cfg, genesis, s) && Attaches(s.blocks, genesis, b)
    ensures Consistent(cfg, genesis, s.(blocks := BlocksWith(s, b)))
    ensures CanonicalChain(genesis, s.(blocks := BlocksWith(s, b))) == CanonicalChain(genesis, s)
  {
    hide TreeOk, Replays, ChainOf, UtxoOf, HeightsOf;
    ChainsWith(genesis, s, b, s.tip.hash);
  }

  /** Storing a block that attaches changes no derived part of the state. */
  lemma {:induction false} SaneStored(r: Rules, w: World, s: State, b: Block)
    requires Sane(r, w, s) && Attaches(s.blocks, r.Genesis(), b) && b in w.blocks && BodyOk(r.Crypto(), r.policy, b)
    ensures Sane(r, w, s.(blocks := BlocksWith(s, b)))
    ensures Canonical(r, s.(blocks := BlocksWith(s, b))) == Canonical(r, s)
  {
    hide Consistent, HeadersOk, BodiesOk, BodyOk, FromWorld, TreeOk, ChainOf;
    HeadersKnown(w, s);
    SaneTree(r, w, s);
    StoredConsistent(r.cfg, r.Genesis(), s, b);
    BodiesWith(r.Crypto(), r.policy, s, b);
    KnownWith(w, s, b, s.headers);
  }

  lemma {:induction false} BodiesWith(c: Crypto, p: MonetaryPolicy, s: State, b: Block)
    requires BodiesOk(c, p, s.blocks) && BodyOk(c, p, b)
    ensures BodiesOk(c, p, BlocksWith(s, b))
  {
    hide BodyOk;
  }

  lemma {:induction false} KnownWith(w: World, s: State, b: Block, headers: Headers)
    requires FromWorld(w, s) && b in w.blocks && forall h :: h in headers ==> headers[h].header in w.headers
    ensures forall t: State :: t.blocks == BlocksWith(s, b) && t.headers == headers ==> FromWorld(w, t)
  {
  }

  lemma {:induction false} HeadersKnown(w: World, s: State)
    requires FromWorld(w, s)
    ensures forall h :: h in s.headers ==> s.headers[h].header in w.headers
  {
  }

  lemma {:induction false} AdoptedConsistent(cfg: Config, genesis: Hash, s: State, b: Block, headers: Headers)
    requires Consistent(cfg, genesis, s) && Attaches(s.blocks, genesis, b)
    requires Replays(cfg.rules, ChainWith(genesis, s, b))
    ensures var t := StateFor(cfg, BlocksWith(s, b), headers, ChainWith(genesis, s, b));
            Consistent(cfg, genesis, t) && t.tip.hash == b.hash
              && CanonicalChain(genesis, t) == ChainWith(genesis, s, b)
  {
    hide TreeOk, Replays, ChainOf, UtxoOf, HeightsOf;
    ChainsWith(genesis, s, b, s.tip.hash);
    StoredHere(s, b);
  }

  lemma {:induction false} StoredHere(s: State, b: Block)
    ensures b.hash in BlocksWith(s, b)
  {
  }

  /** The state that adopting `b` leads to. */
  ghost function AdoptedState(r: Rules, s: State, b: Block, work: int): State
    requires TreeOk(s.blocks, r.Genesis()) && Attaches(s.blocks, r.Genesis(), b)
  {
    StateFor(r.cfg, BlocksWith(s, b), HeadersWith(s, b, work), ChainWith(r.Genesis(), s, b))
  }

  /** The state after an adoption is again exact. */
  lemma {:induction false} SaneAdopted(r: Rules, w: World, s: State, b: Block, headers: Headers)
    requires Sane(r, w, s) && Attaches(s.blocks, r.Genesis(), b) && b in w.blocks && BodyOk(r.Crypto(), r.policy, b)
    requires Replays(r.cfg.rules, ChainWith(r.Genesis(), s, b))
    requires HeadersOk(r.Crypto(), r.params.engine, r.Genesis(), headers) && b.hash in headers
    requires forall h :: h in headers ==> headers[h].header in w.headers
    ensures var t := StateFor(r.cfg, BlocksWith(s, b), headers, ChainWith(r.Genesis(), s, b));
            Sane(r, w, t) && t.tip.hash == b.hash && Canonical(r, t) == ChainWith(r.Genesis(), s, b)
  {
    hide Consistent, HeadersOk, BodiesOk, BodyOk, FromWorld, TreeOk, ChainOf, Replays, StateFor;
    SaneTree(r, w, s);
    AdoptedConsistent(r.cfg, r.Genesis(), s, b, headers);
    ChainNotEmpty(r.Genesis(), s, b);
    StateForHolds(r.cfg, BlocksWith(s, b), headers, ChainWith(r.Genesis(), s, b));
    BodiesWith(r.Crypto(), r.policy, s, b);
    KnownWith(w, s, b, headers);
  }

  lemma {:induction false} ChainNotEmpty(genesis: Hash, s: State, b: Block)
    requires TreeOk(s.blocks, genesis) && Attaches(s.blocks, genesis, b)
    ensures |ChainWith(genesis, s, b)| > 0
  {
  }

  lemma {:induction false} StateForHolds(cfg: Config, blocks: Blocks, headers: Headers, chain: seq<Block>)
    requires |chain| > 0
    ensures StateFor(cfg, blocks, headers, chain).blocks == blocks
    ensures StateFor(cfg, blocks, headers, chain).headers == headers
  {
  }

  // ---------------------------------------------------------------- supply in every state

  /** Whatever the node has been through, its unspent outputs hold no more than was allocated and minted. */
  lemma {:induction false} SaneSupply(r: Rules, w: World, s: State)
    requires Sane(r, w, s)
    ensures Lawful(r.cfg.rules, r.policy, Canonical(r, s))
    ensures var chain := Canonical(r, s);
            Total(s.utxo) <= Allocation(chain[0]) + r.policy.Emitted(s.tip.height) + CoinbaseFees(chain)
  {
    hide Replays, HeadersOk, UtxoOf, HeightsOf, Total, TotalOut, TotalFees;
    SaneTree(r, w, s);
    var chain := Canonical(r, s);
    ChainShape(s.blocks, r.Genesis(), s.tip.hash);
    forall k | 0 <= k < |chain| ensures BodyOk(r.Crypto(), r.policy, chain[k]) && chain[k].header.height == k {
      ChainPrefix(s.blocks, r.Genesis(), s.tip.hash, k);
    }
    SupplyBound(r.cfg.rules, r.policy, chain);
  }

  // ---------------------------------------------------------------- fork choice

  /** No processed block that was not rejected outweighs the tip. */
  predicate Settled(processed: set<Hash>, invalid: set<Hash>, s: State) {
    s.tip.hash in s.headers &&
    forall h :: h in processed && h !in invalid ==>
      h in s.blocks && h in s.headers && s.headers[h].work <= s.headers[s.tip.hash].work
  }

  /** A store that only grew, under the same tip or a heavier one, stays settled. */
  lemma {:induction false} SettledGrows(processed: set<Hash>, invalid: set<Hash>, s: State, t: State)
    requires Settled(processed, invalid, s) && Extends(s.headers, t.headers) && Grows(s.blocks, t.blocks)
    requires t.tip.hash in t.headers && s.headers[s.tip.hash].work <= t.headers[t.tip.hash].work
    ensures Settled(processed, invalid, t)
  {
  }

  lemma {:induction false} SettledWith(processed: set<Hash>, invalid: set<Hash>, s: State, h: Hash)
    requires Settled(processed, invalid, s)
    requires h in s.blocks && h in s.headers && s.headers[h].work <= s.headers[s.tip.hash].work
    ensures Settled(processed + {h}, invalid, s)
  {
  }

  lemma {:induction false} SettledWithout(processed: set<Hash>, invalid: set<Hash>, s: State, h: Hash)
    requires Settled(processed, invalid, s)
    ensures Settled(processed + {h}, invalid + {h}, s)
  {
  }

  lemma {:induction false} SettledFewer(
    processed: set<Hash>, invalid: set<Hash>, s: State, processed': set<Hash>, invalid': set<Hash>)
    requires Settled(processed, invalid, s) && processed' - invalid' <= processed - invalid
    ensures Settled(processed', invalid', s)
  {
    forall h | h in processed' && h !in invalid' ensures h in processed && h !in invalid {
      assert h in processed' - invalid';
    }
  }

  predicate Grows(blocks: Blocks, more: Blocks) {
    forall h :: h in blocks ==> h in more && more[h] == blocks[h]
  }

  /** A block at a canonical place weighs no more than the tip. */
  lemma {:induction false} CanonicalIsLighter(r: Rules, w: World, s: State, height: int, hash: Hash)
    requires Assumes(r, w) && Sane(r, w, s)
    requires 0 <= height <= s.tip.height && height in s.heights && s.heights[height] == hash
    ensures hash in s.headers && s.headers[hash].work <= s.headers[s.tip.hash].work
  {
    hide Consistent, IdsBind, HashesBind, FromWorld, BodiesOk, HeadersOk;
    SaneTree(r, w, s);
    AncestorWork(r.Crypto(), r.params.engine, w, r.Genesis(), s, s.tip.hash, height);
  }

  /** A block that may be stored on top of `s` and, with the work `work`, outweighs its tip. */
  ghost predicate Candidate(r: Rules, w: World, s: State, b: Block, work: int) {
    && Attaches(s.blocks, r.Genesis(), b) && b in w.blocks && BodyOk(r.Crypto(), r.policy, b)
    && s.tip.hash in s.headers && s.headers[s.tip.hash].work < work
    && (var headers := HeadersWith(s, b, work);
        && HeadersOk(r.Crypto(), r.params.engine, r.Genesis(), headers) && headers[b.hash].work == work
        && forall h :: h in headers ==> headers[h].header in w.headers)
  }

  lemma {:induction false} CandidateAttaches(r: Rules, w: World, s: State, b: Block, work: int)
    requires Candidate(r, w, s, b, work)
    ensures Attaches(s.blocks, r.Genesis(), b)
  {
  }

  // ---------------------------------------------------------------- checkpoints

  /** Up to the verified height only the canonical block of each height is admitted. */
  predicate ConflictsWithVerified(verified: int, heights: map<int, Hash>, height: int, hash: Hash) {
    height <= verified && height in heights && heights[height] != hash
  }

  /** A block that passes that rule and outweighs the tip lies above the verified checkpoint. */
  lemma {:induction false} HeavierIsAbove(r: Rules, w: World, s: State, verified: int, height: int, hash: Hash)
    requires Assumes(r, w) && Sane(r, w, s) && 0 <= height
    requires HighestReached(r.checkpoints, Canonical(r, s), verified)
    requires !ConflictsWithVerified(verified, s.heights, height, hash)
    requires hash in s.headers && s.headers[hash].work > s.headers[s.tip.hash].work
    ensures height > verified
  {
    hide Sane, Assumes;
    SaneTree(r, w, s);
    if height <= verified {
      assert height in s.heights;
      CanonicalIsLighter(r, w, s, height, hash);
    }
  }

  // ---------------------------------------------------------------- runs

  /** What a run is judged by: the canonical chain, its work, and the highest verified checkpoint. */
  datatype View = View(chain: seq<Block>, work: int, verified: int, sealedAtCheckpoint: bool)

  /** The tip changes only for more work, and what a verified checkpoint covers never changes. */
  predicate Follows(a: View, b: View) {
    && ((a.chain == b.chain && a.work == b.work) || a.work < b.work)
    && (a.sealedAtCheckpoint ==> b.sealedAtCheckpoint)
    && (!b.sealedAtCheckpoint ==>
          && a.verified <= b.verified && 0 <= a.verified + 1 <= |a.chain| && a.verified + 1 <= |b.chain|
          && a.chain[..a.verified + 1] == b.chain[..a.verified + 1])
  }

  lemma {:induction false} FollowsTrans(a: View, b: View, c: View)
    requires Follows(a, b) && Follows(b, c)
    ensures Follows(a, c)
  {
    if !c.sealedAtCheckpoint {
      var n, m := a.verified + 1, b.verified + 1;
      assert b.chain[..m][..n] == b.chain[..n] && c.chain[..m][..n] == c.chain[..n];
    }
  }

  predicate IsRun(trace: seq<View>) {
    forall i :: 0 <= i < |trace| - 1 ==> Follows(trace[i], trace[i + 1])
  }

  /** Over every run: work never falls, and without a locally sealed checkpoint block finality holds. */
  lemma {:induction false} RunsFollow(trace: seq<View>, i: nat, j: nat)
    requires IsRun(trace) && i < j < |trace|
    ensures Follows(trace[i], trace[j])
    decreases j
  {
    if i < j - 1 {
      RunsFollow(trace, i, j - 1);
      FollowsTrans(trace[i], trace[j - 1], trace[j]);
    }
  }

  ghost function ViewOf(r: Rules, s: State, verified: int, sealedAtCheckpoint: bool): View
    requires TreeOk(s.blocks, r.Genesis()) && s.tip.hash in s.blocks && s.tip.hash in s.headers
  {
    View(Canonical(r, s), s.headers[s.tip.hash].work, verified, sealedAtCheckpoint)
  }

  lemma {:induction false} ViewStays(r: Rules, w: World, s: State, t: State, verified: int, sealedAtCheckpoint: bool)
    requires Sane(r, w, s) && Sane(r, w, t) && s.tip == t.tip && Extends(s.headers, t.headers)
    requires Canonical(r, t) == Canonical(r, s) && HighestReached(r.checkpoints, Canonical(r, s), verified)
    ensures Follows(ViewOf(r, s, verified, sealedAtCheckpoint), ViewOf(r, t, verified, sealedAtCheckpoint))
  {
    hide Sane;
    SaneTree(r, w, s);
    SaneTree(r, w, t);
  }

  /** Adopting a heavier block above the verified checkpoint is a step of a run. */
  lemma {:induction false} AdoptionFollows(
    r: Rules, w: World, s: State, b: Block, t: State, v: int, v': int, sealed: bool)
    requires Sane(r, w, s) && Attaches(s.blocks, r.Genesis(), b) && Sane(r, w, t)
    requires t.blocks == BlocksWith(s, b) && t.tip.hash == b.hash && Canonical(r, t) == ChainWith(r.Genesis(), s, b)
    requires s.headers[s.tip.hash].work < t.headers[b.hash].work
    requires HighestReached(r.checkpoints, Canonical(r, s), v) && HighestReached(r.checkpoints, Canonical(r, t), v')
    requires !sealed ==> CheckpointsKept(r.checkpoints, t.blocks) && v < b.header.height
    ensures TreeOk(t.blocks, r.Genesis()) && t.tip.hash in t.blocks && t.tip.hash in t.headers
    ensures Follows(ViewOf(r, s, v, sealed), ViewOf(r, t, v', sealed))
  {
    hide Sane, CheckpointsKept, TreeOk, HighestReached, ChainOf;
    SaneTree(r, w, s);
    SaneTree(r, w, t);
    if !sealed {
      SharedBelow(r, s, b, t, v);
      CheckpointStays(r.checkpoints, Canonical(r, s), Canonical(r, t), v, v');
    }
  }

  lemma {:induction false} SharedBelow(r: Rules, s: State, b: Block, t: State, v: int)
    requires TreeOk(s.blocks, r.Genesis()) && s.tip.hash in s.blocks && Attaches(s.blocks, r.Genesis(), b)
    requires t.blocks == BlocksWith(s, b) && TreeOk(t.blocks, r.Genesis()) && t.tip.hash == b.hash && b.hash in t.blocks
    requires HighestReached(r.checkpoints, Canonical(r, s), v) && CheckpointsKept(r.checkpoints, t.blocks)
    requires v < b.header.height
    ensures 0 <= v + 1 <= |Canonical(r, s)| && v + 1 <= |Canonical(r, t)|
    ensures Canonical(r, s)[..v + 1] == Canonical(r, t)[..v + 1]
  {
    hide CheckpointsKept, TreeOk, ChainOf;
    ChainsWith(r.Genesis(), s, b, s.tip.hash);
    if v >= 0 {
      CheckpointShared(r.checkpoints, t.blocks, r.Genesis(), s.tip.hash, b.hash, v);
    }
  }

  lemma {:induction false} CheckpointStays(cps: Checkpoints, a: seq<Block>, b: seq<Block>, v: int, v': int)
    requires HighestReached(cps, a, v) && HighestReached(cps, b, v')
    requires 0 <= v + 1 <= |a| && v + 1 <= |b| && a[..v + 1] == b[..v + 1]
    ensures v <= v'
  {
    if v >= 0 {
      assert a[v] == a[..v + 1][v] && b[v] == b[..v + 1][v];
      assert AtCheckpoint(cps, b, v);
    }
  }

  /** Everything an adoption does to the store, at once. */
  lemma {:induction false} AdoptionStep(r: Rules, w: World, s: State, b: Block, work: int)
    requires Sane(r, w, s) && Candidate(r, w, s, b, work) && Replays(r.cfg.rules, ChainWith(r.Genesis(), s, b))
    ensures var t := AdoptedState(r, s, b, work);
            && Sane(r, w, t) && t.tip.hash == b.hash && Canonical(r, t) == ChainWith(r.Genesis(), s, b)
            && t.blocks == BlocksWith(s, b) && t.headers == HeadersWith(s, b, work)
            && s.headers[s.tip.hash].work < t.headers[b.hash].work
  {
    hide Sane, Replays, HeadersOk, BodyOk, StateFor, ChainOf, Attaches, TreeOk;
    SaneTree(r, w, s);
    ChainNotEmpty(r.Genesis(), s, b);
    StateForHolds(r.cfg, BlocksWith(s, b), HeadersWith(s, b, work), ChainWith(r.Genesis(), s, b));
    SaneAdopted(r, w, s, b, HeadersWith(s, b, work));
  }

  /** The index entry of a stored child of an indexed block. */
  lemma {:induction false} IndexStored(r: Rules, w: World, s: State, b: Block)
    requires Assumes(r, w) && Sane(r, w, s) && b.hash in s.blocks && s.blocks[b.hash] == b && b.hash !in s.headers
    requires 0 < b.header.height && b.header.previousHash in s.headers
    ensures var headers := s.headers[b.hash :=
      IndexedHeader(b.header, s.headers[b.header.previousHash].work + BlockWork(r.params.engine, b.header))];
            && Sane(r, w, s.(headers := headers)) && Extends(s.headers, headers)
            && Canonical(r, s.(headers := headers)) == Canonical(r, s)
  {
    hide IdsBind, HashesBind, BodiesOk, HeadersOk, Consistent, BlockWork;
    SaneTree(r, w, s);
    StoredAt(s.blocks, r.Genesis(), b.hash);
    GenesisOnly(s.blocks, r.Genesis(), b.hash);
    BlockHeader(r.Crypto(), w, b);
    ViewsAgree(r.Crypto(), r.params.engine, w, r.Genesis(), s, b.header.previousHash);
    IndexChild(r.Crypto(), r.params.engine, r.Genesis(), s.headers, b.header);
    var headers := s.headers[b.hash := IndexedHeader(b.header,
      s.headers[b.header.previousHash].work + BlockWork(r.params.engine, b.header))];
    SaneHeaders(r, w, s, headers);
  }

  lemma {:induction false} StoredWork(r: Rules, w: World, s: State, h: Hash)
    requires Assumes(r, w) && Sane(r, w, s) && h in s.blocks && h in s.headers && 0 < s.blocks[h].header.height
    ensures var p := s.blocks[h].header.previousHash;
            p in s.headers && s.headers[h].work == s.headers[p].work + BlockWork(r.params.engine, s.blocks[h].header)
            && s.headers[p].work < s.headers[h].work
  {
    hide IdsBind, HashesBind, BodiesOk, HeadersOk, Consistent, BlockWork, FromWorld;
    SaneTree(r, w, s);
    ParentWork(r.Crypto(), r.params.engine, w, r.Genesis(), s, h);
  }

  lemma {:induction false} SaneParts(r: Rules, w: World, s: State)
    requires Assumes(r, w) && Sane(r, w, s)
    ensures HashesBind(r.Crypto(), w) && FromWorld(w, s)
    ensures HeadersOk(r.Crypto(), r.params.engine, r.Genesis(), s.headers)
  {
    hide IdsBind, HashesBind, BodiesOk, HeadersOk, Consistent, FromWorld;
  }

  lemma {:induction false} KeptWith(cps: Checkpoints, s: State, b: Block)
    requires CheckpointsKept(cps, s.blocks) && b.header.height >= 1
    requires b.header.height in cps ==> b.hash == cps[b.header.height]
    ensures CheckpointsKept(cps, BlocksWith(s, b))
  {
  }

  /** A stored and indexed block that outweighs the tip can be adopted. */
  lemma {:induction false} StoredIsCandidate(r: Rules, w: World, s: State, b: Block)
    requires Assumes(r, w) && Sane(r, w, s) && b.hash in s.blocks && s.blocks[b.hash] == b && b in w.blocks
    requires BodyOk(r.Crypto(), r.policy, b)
    requires b.header.height >= 1 && b.hash in s.headers && s.headers[s.tip.hash].work < s.headers[b.hash].work
    ensures Candidate(r, w, s, b, s.headers[b.hash].work) && BlocksWith(s, b) == s.blocks
  {
    hide IdsBind, HashesBind, BodiesOk, HeadersOk, Consistent, BodyOk;
    SaneTree(r, w, s);
    StoredAt(s.blocks, r.Genesis(), b.hash);
    GenesisOnly(s.blocks, r.Genesis(), b.hash);
  }

  /** Storing a block and indexing headers under the same tip keeps the choice settled. */
  lemma {:induction false} SettleStored(
    r: Rules, w: World, s: State, t: State, processed: set<Hash>, invalid: set<Hash>)
    requires Sane(r, w, s) && Sane(r, w, t) && Settled(processed, invalid, s)
    requires t.tip == s.tip && Extends(s.headers, t.headers) && Grows(s.blocks, t.blocks)
    ensures Settled(processed, invalid, t)
  {
    hide Sane;
    SaneTree(r, w, s);
    SaneTree(r, w, t);
    SettledGrows(processed, invalid, s, t);
  }

  lemma {:induction false} GrowsWith(genesis: Hash, s: State, b: Block)
    requires Attaches(s.blocks, genesis, b)
    ensures Grows(s.blocks, BlocksWith(s, b)) && b.hash in BlocksWith(s, b) && BlocksWith(s, b)[b.hash] == b
  {
  }

  lemma {:induction false} GrowsTrans(a: Blocks, b: Blocks, c: Blocks)
    requires Grows(a, b) && Grows(b, c)
    ensures Grows(a, c)
  {
  }

  /** A child of the tip outweighs it, whether or not its header was indexed before. */
  lemma {:induction false} ChildIsCandidate(r: Rules, w: World, s: State, b: Block)
    requires Assumes(r, w) && Sane(r, w, s) && Attaches(s.blocks, r.Genesis(), b) && b in w.blocks
    requires BodyOk(r.Crypto(), r.policy, b)
    requires b.header.previousHash == s.tip.hash
    ensures Candidate(r, w, s, b, s.headers[s.tip.hash].work + BlockWork(r.params.engine, b.header))
    ensures b.header.height == s.tip.height + 1
  {
    hide IdsBind, BodiesOk, Consistent, BodyOk, BlockWork;
    SaneTree(r, w, s);
    BlockHeader(r.Crypto(), w, b);
    WorkPositive(r.params.engine, b.header);
    ViewsAgree(r.Crypto(), r.params.engine, w, r.Genesis(), s, s.tip.hash);
    if b.hash in s.headers {
      assert HeaderOk(r.Crypto(), r.params.engine, r.Genesis(), s.headers, b.hash);
      OneHeader(r.Crypto(), w, s.headers[b.hash].header, b.header);
    } else {
      IndexChild(r.Crypto(), r.params.engine, r.Genesis(), s.headers, b.header);
    }
  }

  /** The branch that ends in `b`, stored or not, replays from genesis. */
  ghost predicate BranchReplays(r: Rules, s: State, b: Block) {
    && TreeOk(s.blocks, r.Genesis()) && Attaches(s.blocks, r.Genesis(), b)
    && Replays(r.cfg.rules, ChainWith(r.Genesis(), s, b))
  }

  lemma {:induction false} BranchStays(r: Rules, w: World, s: State, t: State, b: Block)
    requires Sane(r, w, s) && Sane(r, w, t) && Grows(s.blocks, t.blocks)
    requires Attaches(s.blocks, r.Genesis(), b) && t.blocks == BlocksWith(s, b)
    ensures BranchReplays(r, s, b) <==> BranchReplays(r, t, b)
  {
    hide Sane, Replays;
    SaneTree(r, w, s);
    SaneTree(r, w, t);
    ChainStable(s.blocks, t.blocks, r.Genesis(), b.header.previousHash);
  }

  lemma {:induction false} ExtendsTrans(a: Headers, b: Headers, c: Headers)
    requires Extends(a, b) && Extends(b, c)
    ensures Extends(a, c)
  {
  }

  /** What fork choice must do with an accepted block: follow it if it replays, reject it if it was heavier and does
      not. */
  ghost predicate Chosen(r: Rules, s: State, b: Block, before: View, headers: Headers, after: View, rejected: bool) {
    && b.hash in headers
    && (BranchReplays(r, s, b) ==> headers[b.hash].work <= after.work)
    && (!BranchReplays(r, s, b) && before.work < headers[b.hash].work ==> rejected && after.chain == before.chain)
  }
}
