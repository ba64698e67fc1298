/**
 * The node's handlers (src/node/node.ts:996-1040, 1345-1675). Each runs under the chain lock, so
 * each is one step, and every one of them keeps `Valid` and takes the view to one that follows it.
 */
module Nodes {

  import opened Ledger
  import opened Numbers
  import opened Utxo
  import opened Store
  import opened UtxoSets
  import opened Chain
  import opened Tree
  import opened Consensus
  import opened HeaderIndex
  import opened HeaderWalk
  import opened BlockRules
  import opened Branches
  import opened Adoption
  import opened Orphans
  import opened Mempools
  import opened Pending
  import opened PoolUpkeep
  import opened NodeState
  import opened Arrivals
  import opened Looks
  import opened IndexedPaths
  import opened Templates

  // ---------------------------------------------------------------- waiting blocks

  /** Everything that waits comes from the world. */
  ghost predicate QueueKnown(w: World, g: seq<Group>) {
    forall b :: b in Waiting(g) ==> b in w.blocks
  }

  lemma {:induction false} MemberWaits(bs: seq<Block>, i: nat)
    requires i < |bs|
    ensures bs[i] in SetOf(bs)
  {
    if i < |bs| - 1 {
      MemberWaits(bs[..|bs| - 1], i);
    }
  }

  /** Taking a group out leaves known blocks in both parts. */
  lemma {:induction false} KnownWithout(w: World, g: seq<Group>, at: nat)
    requires QueueKnown(w, g) && at < |g|
    ensures QueueKnown(w, g[..at] + g[at + 1..]) && forall i :: 0 <= i < |g[at].blocks| ==> g[at].blocks[i] in w.blocks
  {
    hide Waiting, SetOf;
    WaitingWithout(g, at);
    forall i | 0 <= i < |g[at].blocks| ensures g[at].blocks[i] in w.blocks {
      MemberWaits(g[at].blocks, i);
    }
  }

  lemma {:induction false} HashListed(bs: seq<Block>, i: nat)
    requires i < |bs|
    ensures bs[i].hash in HashesOf(bs)
  {
    if i < |bs| - 1 {
      HashListed(bs[..|bs| - 1], i);
    }
  }

  lemma {:induction false} TakeOne(g: seq<Group>, hashes: set<Hash>, extra: set<Hash>, h: Hash)
    requires PoolOk(g, hashes, extra + {h}) && h !in extra
    ensures PoolOk(g, hashes - {h}, extra)
  {
    SubsetSize(hashes - {h}, hashes);
  }

  /** The hashes still out once the first `i` of a group have been looked at. */
  ghost function StillOut(extra: set<Hash>, bs: seq<Block>, i: nat): set<Hash>
    requires i <= |bs|
  {
    extra + HashesOf(bs[i..])
  }

  lemma {:induction false} OutBounds(extra: set<Hash>, bs: seq<Block>)
    ensures StillOut(extra, bs, 0) == extra + HashesOf(bs) && StillOut(extra, bs, |bs|) == extra
  {
    assert bs[0..] == bs && bs[|bs|..] == [];
  }

  lemma {:induction false} TakeNext(
    g: seq<Group>, hashes: set<Hash>, stranded: set<Hash>, extra: set<Hash>, bs: seq<Block>, i: nat)
    requires i < |bs| && Distinct(bs) && HashesOf(bs) !! extra && HashesOf(bs) !! stranded && stranded !! extra
    requires PoolOk(g, hashes, stranded + StillOut(extra, bs, i))
    ensures PoolOk(g, hashes - {bs[i].hash}, stranded + StillOut(extra, bs, i + 1))
    ensures stranded !! StillOut(extra, bs, i + 1) && StillOut(extra, bs, i + 1) - extra == HashesOf(bs[i + 1..])
  {
    hide PoolOk, HashesOf, Distinct;
    HashesHead(bs, i);
    HashListed(bs, i);
    HashesBelow(bs, i + 1);
    assert StillOut(extra, bs, i) == StillOut(extra, bs, i + 1) + {bs[i].hash};
    assert stranded + StillOut(extra, bs, i) == stranded + StillOut(extra, bs, i + 1) + {bs[i].hash};
    TakeOne(g, hashes, stranded + StillOut(extra, bs, i + 1), bs[i].hash);
  }

  lemma {:induction false} HashesBelow(bs: seq<Block>, i: nat)
    requires i <= |bs|
    ensures HashesOf(bs[i..]) <= HashesOf(bs)
  {
    hide HashesOf;
    assert bs == bs[..i] + bs[i..];
    HashesConcat(bs[..i], bs[i..]);
  }

  lemma {:induction false} TakeGroup(g: seq<Group>, hashes: set<Hash>, stranded: set<Hash>, extra: set<Hash>, at: nat)
    requires PoolOk(g, hashes, stranded + extra) && stranded !! extra && at < |g|
    ensures PoolOk(g[..at] + g[at + 1..], hashes, stranded + (extra + HashesOf(g[at].blocks)))
    ensures GroupOk(g[at]) && HashesOf(g[at].blocks) !! extra && HashesOf(g[at].blocks) !! stranded
    ensures var rest := g[..at] + g[at + 1..];
            && Queued(g) == Queued(rest) + HashesOf(g[at].blocks) && Queued(rest) !! HashesOf(g[at].blocks)
            && Parents(rest) == Parents(g) - {g[at].parent} && Waiting(rest) <= Waiting(g)
            && rest == Without(g, {g[at].parent})
  {
    hide WellQueued, Queued, HashesOf, GroupOk, Parents, Waiting, Without;
    SplitAt(g, at);
    WithoutOne(g, at);
    WithoutWaits(g, {g[at].parent});
    assert stranded + extra + HashesOf(g[at].blocks) == stranded + (extra + HashesOf(g[at].blocks));
  }

  lemma {:induction false} PoolQueued(g: seq<Group>, hashes: set<Hash>, extra: set<Hash>)
    requires PoolOk(g, hashes, extra)
    ensures WellQueued(g)
  {
  }

  /** The blocks that wait for `h`. */
  function GroupOf(g: seq<Group>, h: Hash): seq<Block> {
    if |g| == 0 then [] else if g[0].parent == h then g[0].blocks else GroupOf(g[1..], h)
  }

  lemma {:induction false} GroupAt(g: seq<Group>, h: Hash, at: nat)
    requires at <= |g| && (forall k :: 0 <= k < at ==> g[k].parent != h) && (at < |g| ==> g[at].parent == h)
    ensures GroupOf(g, h) == if at < |g| then g[at].blocks else []
  {
    if 0 < at {
      GroupAt(g[1..], h, at - 1);
    }
  }

  predicate AllDecided(bs: seq<Block>, processed: set<Hash>, invalid: set<Hash>) {
    forall k :: 0 <= k < |bs| ==> bs[k].hash in processed || bs[k].hash in invalid
  }

  lemma {:induction false} DecidedMore(
    bs: seq<Block>, i: nat, processed: set<Hash>, invalid: set<Hash>, processed': set<Hash>, invalid': set<Hash>)
    requires i < |bs| && AllDecided(bs[..i], processed, invalid) && processed <= processed' && invalid <= invalid'
    requires bs[i].hash in processed' || bs[i].hash in invalid'
    ensures AllDecided(bs[..i + 1], processed', invalid')
  {
    var front, all := bs[..i], bs[..i + 1];
    forall k | 0 <= k < |all| ensures all[k].hash in processed' || all[k].hash in invalid' {
      if k < i {
        assert all[k] == front[k];
      }
    }
  }

  lemma {:induction false} NoneWait(g: seq<Group>, h: Hash)
    requires WellQueued(g) && h !in Parents(g)
    ensures Dependents(g, h) == {} && Without(g, {h} + Dependents(g, h)) == g
  {
    hide WellQueued, Queued, Parents, Without, DependsOn;
    WithoutNone(g, {h});
    MarkedIsDependents(g, h, {h});
    assert {h} + Dependents(g, h) == {h};
  }

  /** Every mark so far stands for `h` or something that waits for it, and the marked groups are gone. */
  ghost predicate Marking(g: seq<Group>, h: Hash, marked: set<Hash>, now: seq<Group>) {
    && h in marked && now == Without(g, marked)
    && forall x :: x in marked ==> x == h || (x in Queued(g) && DependsOn(g, h, x))
  }

  lemma {:induction false} MarkingStarts(g: seq<Group>, h: Hash, now: seq<Group>)
    requires now == Without(g, {h})
    ensures Marking(g, h, {h}, now)
  {
  }

  lemma {:induction false} MarkingIs(g: seq<Group>, h: Hash, marked: set<Hash>, now: seq<Group>)
    requires Marking(g, h, marked, now)
    ensures now == Without(g, marked)
  {
  }

  lemma {:induction false} MarkMore(
    g: seq<Group>, h: Hash, marked: set<Hash>, before: seq<Group>, d: Block, after: seq<Group>)
    requires Marking(g, h, marked, before) && d in Waiting(g) && d.header.previousHash == h
    requires after == Without(before, {d.hash} + Dependents(before, d.hash))
    ensures Marking(g, h, marked + ({d.hash} + Dependents(before, d.hash)), after)
  {
    hide Waiting, Queued, Without, DependsOn;
    var more := {d.hash} + Dependents(before, d.hash);
    WithoutTwice(g, marked, more);
    WithoutWaits(g, marked);
    WaitingQueued(g, d);
    DescendsFirst(g, d);
    forall x | x in more ensures x in Queued(g) && DependsOn(g, h, x) {
      if x != d.hash {
        DescendsThrough(g, h, d, before, x);
      }
    }
  }

  lemma {:induction false} MarkingEnds(g: seq<Group>, h: Hash, marked: set<Hash>, now: seq<Group>)
    requires WellQueued(g) && Marking(g, h, marked, now) && Queued(g) - Queued(now) <= marked
    ensures marked == {h} + Dependents(g, h) && Queued(g) - Queued(now) == Dependents(g, h)
  {
    hide WellQueued, Queued, Without, DependsOn;
    MarkedIsDependents(g, h, marked);
  }

  lemma {:induction false} GroupWaits(g: seq<Group>, at: nat, i: nat)
    requires at < |g| && i < |g[at].blocks| && GroupOk(g[at])
    ensures g[at].blocks[i] in Waiting(g) && g[at].blocks[i].header.previousHash == g[at].parent
  {
    hide Waiting, SetOf;
    WaitingWithout(g, at);
    MemberWaits(g[at].blocks, i);
  }

  /** Verdicts after which the node keeps the block, stored or waiting. */
  predicate Kept(a: Arrival) {
    a.Accepted? || a.NoParent?
  }

  /** Everything stored is among the blocks held, all of them known and none a respelling of another. */
  ghost predicate Held(c: Crypto, w: World, held: iset<Block>, s: State) {
    && held <= w.blocks && OneSpelling(c, World(w.headers, held))
    && forall h :: h in s.blocks ==> s.blocks[h] in held
  }

  lemma {:induction false} StoredApart(c: Crypto, w: World, s: State, genesis: Hash)
    requires TreeOk(s.blocks, genesis)
    ensures OneSpelling(c, World(w.headers, iset h | h in s.blocks :: s.blocks[h]))
  {
    hide TreeOk, Committed;
    var stored := iset h | h in s.blocks :: s.blocks[h];
    forall a, b | a in stored && b in stored ensures !Respells(c, a, b) {
      var g :| g in s.blocks && a == s.blocks[g];
      var h :| h in s.blocks && b == s.blocks[h];
      StoredAt(s.blocks, genesis, g);
      StoredAt(s.blocks, genesis, h);
    }
  }

  lemma {:induction false} StoredReach(r: Rules, w: World, s: State)
    requires Sane(r, w, s)
    ensures (iset h | h in s.blocks :: s.blocks[h]) <= w.blocks
  {
    hide Consistent, HeadersOk, BodiesOk;
  }

  lemma {:induction false} HeldWith(c: Crypto, w: World, held: iset<Block>, s: State, t: State, b: Block)
    requires Held(c, w, held, s) && b in held && t.blocks == BlocksWith(s, b)
    ensures Held(c, w, held, t)
  {
    hide Committed, OneSpelling;
  }

  lemma {:induction false} HeldSame(c: Crypto, w: World, held: iset<Block>, s: State, t: State)
    requires Held(c, w, held, s) && t.blocks == s.blocks
    ensures Held(c, w, held, t)
  {
    hide OneSpelling;
  }

  lemma {:induction false} HeldKnown(c: Crypto, w: World, held: iset<Block>, s: State, b: Block)
    requires Held(c, w, held, s) && b in held
    ensures b in w.blocks
  {
    hide OneSpelling;
  }

  /** A fresh node holds what is stored. */
  lemma {:induction false} HeldFirst(r: Rules, w: World, s: State)
    requires Sane(r, w, s)
    ensures Held(r.Crypto(), w, iset h | h in s.blocks :: s.blocks[h], s)
  {
    hide Sane, OneSpelling;
    SaneTree(r, w, s);
    StoredApart(r.Crypto(), w, s, r.Genesis());
    StoredReach(r, w, s);
  }

  /** A held block of a stored hash is the stored one. */
  lemma {:induction false} HeldIsStored(c: Crypto, w: World, held: iset<Block>, s: State, b: Block)
    requires Held(c, w, held, s) && b in held
    ensures !RespellsStored(c, s.blocks, b)
  {
    hide Committed;
    if b.hash in s.blocks {
      assert s.blocks[b.hash] in World(w.headers, held).blocks && b in World(w.headers, held).blocks;
    }
  }

  lemma {:induction false} HoldMore(
    c: Crypto, w: World, held: iset<Block>, genesis: Hash, s: State, g: seq<Group>, b: Block)
    requires Held(c, w, held, s) && QueueKnown(World(w.headers, held), g) && TreeOk(s.blocks, genesis) && b in w.blocks
    requires !RespellsStored(c, s.blocks, b) && forall x :: x in Waiting(g) ==> !Respells(c, x, b)
    ensures var more := (iset h | h in s.blocks :: s.blocks[h]) + (iset x | x in Waiting(g)) + iset{b};
            Held(c, w, more, s) && QueueKnown(World(w.headers, more), g) && b in more
  {
    hide Committed, Waiting, TreeOk;
    var kept := (iset h | h in s.blocks :: s.blocks[h]) + (iset x | x in Waiting(g));
    var more := kept + iset{b};
    assert kept <= held;
    forall x | x in kept ensures !Respells(c, x, b) {
      if x !in Waiting(g) {
        var h :| h in s.blocks && x == s.blocks[h];
        StoredAt(s.blocks, genesis, h);
      }
    }
    forall x, y | x in more && y in more ensures !Respells(c, x, y) {
      if x in kept && y in kept {
        assert x in World(w.headers, held).blocks && y in World(w.headers, held).blocks;
      }
    }
  }

  lemma {:induction false} NothingYet(r: Rules, w: World, s: State)
    requires s.tip.hash in s.headers
    ensures PoolOk([], {}, {}) && QueueKnown(w, []) && Settled({}, {}, s)
    ensures PoolValid(r.cfg.rules, s.utxo, [], s.tip.height + 1)
  {
  }

  class Node {
    const rules: Rules
    const db: Db
    const utxoSet: UtxoSet
    const mempool: Mempool
    /** What can ever reach this node. */
    ghost const world: World

    var processed: set<Hash>
    var invalid: set<Hash>
    var orphans: seq<Group>
    var orphanHashes: set<Hash>
    var verifiedCheckpointHeight: int
    /** A locally sealed block sits at a checkpointed height. */
    ghost var sealedAtCheckpoint: bool
    /** Every tip change so far extended the chain. */
    ghost var onlyExtended: bool
    /** Hashes that count as waiting though no group holds them any more. */
    ghost var stranded: set<Hash>
    /** What the node has shown since it started, one entry per step. */
    ghost var trace: seq<View>
    /** The latest time at which anything was checked. */
    ghost var latest: int
    /** The blocks this node holds or is handling; no two of them respell each other. */
    ghost var held: iset<Block>

    /** Starts on a store that an earlier run left behind, or on a fresh one holding genesis. */
    constructor (rules: Rules, db: Db, poolPolicy: Policy, ghost world: World, ghost checkedAt: int)
      requires Assumes(rules, world) && Sane(rules, world, db.state)
      requires RulesHeld(rules.params, NodeLookup(db.state, map[]), checkedAt)
      ensures this.rules == rules && this.db == db && this.world == world
      ensures Valid({}) && processed == {} && invalid == {} && orphans == [] && mempool.pending == [] && stranded == {}
      ensures |trace| == 1
    {
      hide Sane, Held, HighestReached, Assumes, CheckpointsKept, Settled, TreeOk, RulesHeld, NodeLookup, StoreOk, Now,
        QueueOk, TraceOk, RulesKept, ChainOf, Canonical, Sound;
      SaneTree(rules, world, db.state);
      var u := new UtxoSet(db, rules.cfg.rules);
      var m := new Mempool(u, poolPolicy);
      var best := RefreshVerifiedCheckpoint(rules.checkpoints, db.state.heights, Canonical(rules, db.state));
      this.rules := rules;
      this.db := db;
      this.world := world;
      utxoSet := u;
      mempool := m;
      processed := {};
      invalid := {};
      orphans := [];
      orphanHashes := {};
      verifiedCheckpointHeight := best;
      sealedAtCheckpoint := !CheckpointsKept(rules.checkpoints, db.state.blocks);
      onlyExtended := true;
      stranded := {};
      latest := checkedAt;
      held := iset h | h in db.state.blocks :: db.state.blocks[h];
      new;
      FirstStoreOk();
      trace := [Now()];
      FirstValid();
    }

    lemma {:induction false} FirstStoreOk()
      requires utxoSet.db == db && utxoSet.rules == rules.cfg.rules && utxoSet.staging == None
      requires mempool.utxoSet == utxoSet && mempool.Valid() && mempool.pending == []
      requires Assumes(rules, world) && Sane(rules, world, db.state)
      requires held == iset h | h in db.state.blocks :: db.state.blocks[h]
      requires HighestReached(rules.checkpoints, Canonical(rules, db.state), verifiedCheckpointHeight)
      requires sealedAtCheckpoint == !CheckpointsKept(rules.checkpoints, db.state.blocks)
      ensures StoreOk()
    {
      hide Sane, Held, HighestReached, Assumes, QueueKnown, Settled, PoolValid, CheckpointsKept, TreeOk, ChainOf,
        Canonical;
      SaneTree(rules, world, db.state);
      HeldFirst(rules, world, db.state);
      NothingYet(rules, world, db.state);
    }

    lemma {:induction false} FirstValid()
      requires StoreOk() && RulesHeld(rules.params, NodeLookup(db.state, map[]), latest) && trace == [Now()]
      requires processed == {} && invalid == {} && orphans == [] && orphanHashes == {} && stranded == {}
      ensures Valid({})
    {
      hide StoreOk, Now, PoolOk, QueueKnown, Settled, RulesHeld, NodeLookup, Follows;
      FirstSettled();
      ghost var none: set<Hash> := {};
      assert none + none == none;
    }

    lemma {:induction false} FirstSettled()
      requires StoreOk()
      ensures Settled({}, {}, db.state) && PoolOk([], {}, {}) && QueueKnown(Reach(), [])
    {
      hide Sane, Held, HighestReached, Assumes, PoolOk, QueueKnown, Settled, PoolValid, CheckpointsKept, TreeOk,
        ChainOf;
      SaneTree(rules, world, db.state);
      NothingYet(rules, Reach(), db.state);
    }

    ghost predicate StoreOk()
      reads this`verifiedCheckpointHeight, this`sealedAtCheckpoint, this`onlyExtended, this`held, db, utxoSet, mempool
    {
      && utxoSet.db == db && utxoSet.rules == rules.cfg.rules && utxoSet.staging == None && mempool.utxoSet == utxoSet
      && Assumes(rules, world) && Sane(rules, world, db.state) && Held(rules.Crypto(), world, held, db.state)
      && HighestReached(rules.checkpoints, Canonical(rules, db.state), verifiedCheckpointHeight)
      && (!sealedAtCheckpoint ==> CheckpointsKept(rules.checkpoints, db.state.blocks))
      && mempool.Valid()
      && (onlyExtended ==> PoolValid(rules.cfg.rules, db.state.utxo, mempool.pending, db.state.tip.height + 1))
    }

    /** The world cut down to the blocks held. */
    ghost function Reach(): World
      reads this`held
    {
      World(world.headers, held)
    }

    /** `extra` are the waiting hashes taken out of their groups but not yet looked at again. */
    ghost predicate QueueOk(extra: set<Hash>)
      reads this`orphans, this`orphanHashes, this`stranded, this`held
    {
      PoolOk(orphans, orphanHashes, stranded + extra) && stranded !! extra && QueueKnown(Reach(), orphans)
    }

    /** The trace is a run and ends in what the node shows now. */
    ghost predicate TraceOk()
      reads this`verifiedCheckpointHeight, this`sealedAtCheckpoint, this`onlyExtended, this`held, this`trace, db,
        utxoSet, mempool
    {
      StoreOk() && IsRun(trace) && |trace| > 0 && trace[|trace| - 1] == Now()
    }

    /** Every known header has passed the header rules. */
    ghost predicate RulesKept()
      reads this`latest, db
    {
      RulesHeld(rules.params, NodeLookup(db.state, map[]), latest)
    }

    /** A block that respells none of the blocks that are stored or wait. */
    ghost predicate RespellsNothing(block: Block)
      reads this`orphans, db
    {
      && !RespellsStored(rules.Crypto(), db.state.blocks, block)
      && forall b :: b in Waiting(orphans) ==> !Respells(rules.Crypto(), b, block)
    }

    ghost predicate Valid(extra: set<Hash>)
      reads this, db, utxoSet, mempool
    {
      StoreOk() && TraceOk() && RulesKept() && QueueOk(extra) && Settled(processed, invalid, db.state)
    }

    ghost function Now(): View
      requires StoreOk()
      reads this`verifiedCheckpointHeight, this`sealedAtCheckpoint, this`onlyExtended, this`held, db, utxoSet, mempool
    {
      ViewOf(rules, db.state, verifiedCheckpointHeight, sealedAtCheckpoint)
    }

    /** Marks a block invalid with everything that waits for it, directly or not, and nothing else. */
    method RejectBlock(block: Block, ghost extra: set<Hash>)
      requires QueueOk(extra)
      modifies this`processed, this`invalid, this`orphans, this`orphanHashes
      ensures QueueOk(extra) && |orphans| <= old(|orphans|) && Waiting(orphans) <= old(Waiting(orphans))
      ensures Parents(orphans) <= old(Parents(orphans)) - {block.hash} && Queued(orphans) <= old(Queued(orphans))
      ensures invalid == old(invalid) + {block.hash} + Dependents(old(orphans), block.hash)
      ensures processed == old(processed) + {block.hash} + Dependents(old(orphans), block.hash)
      ensures orphans == Without(old(orphans), {block.hash} + Dependents(old(orphans), block.hash))
      ensures old(Queued(orphans)) - Queued(orphans) == Dependents(old(orphans), block.hash)
      decreases |orphans|
    {
      hide PoolOk, QueueKnown, GroupOk, HashesOf, StillOut, Queued, Parents, Waiting, Without, DependsOn, Dependents,
        Marking, WellQueued, Reach;
      ghost var g, h := orphans, block.hash;
      invalid := invalid + {block.hash};
      processed := processed + {block.hash};
      PoolQueued(orphans, orphanHashes, stranded + extra);
      var at := FindGroup(orphans, block.hash);
      if at == |orphans| {
        NoneWait(orphans, block.hash);
        return;
      }
      var dependents := orphans[at].blocks;
      ghost var count := |orphans|;
      TakeGroup(orphans, orphanHashes, stranded, extra, at);
      KnownWithout(Reach(), orphans, at);
      GroupDistinct(orphans[at]);
      orphans := orphans[..at] + orphans[at + 1..];
      ghost var rest, marked := Queued(orphans), {h};
      MarkingStarts(g, h, orphans);
      OutBounds(extra, dependents);
      NoneYet(dependents);
      for i := 0 to |dependents|
        invariant QueueOk(StillOut(extra, dependents, i)) && stranded == old(stranded)
        invariant |orphans| < count && Parents(orphans) <= Parents(g) - {h} && Queued(orphans) <= rest
        invariant Waiting(orphans) <= Waiting(g)
        invariant invalid == old(invalid) + marked && processed == old(processed) + marked
        invariant Marking(g, h, marked, orphans) && HashesOf(dependents[..i]) + (rest - Queued(orphans)) <= marked
      {
        TakeNext(orphans, orphanHashes, stranded, extra, dependents, i);
        TakeOneMore(dependents, i);
        HashesPush(dependents[..i], dependents[i]);
        GroupWaits(g, at, i);
        orphanHashes := orphanHashes - {dependents[i].hash};
        ghost var before := orphans;
        RejectBlock(dependents[i], StillOut(extra, dependents, i + 1));
        MarkMore(g, h, marked, before, dependents[i], orphans);
        marked := marked + ({dependents[i].hash} + Dependents(before, dependents[i].hash));
      }
      assert dependents[..|dependents|] == dependents;
      MarkingEnds(g, h, marked, orphans);
      MarkingIs(g, h, marked, orphans);
    }

    /**
     * Makes `head` the tip if its chain replays: the store is then exactly the one rebuilt for the new
     * chain, the checkpoint and the pool follow, and a failure leaves everything as it was.
     */
    method Adopt(head: Block, work: int) returns (ok: bool)
      requires StoreOk() && Candidate(rules, world, db.state, head, work) && head in held
      requires !sealedAtCheckpoint ==>
        CheckpointsKept(rules.checkpoints, BlocksWith(db.state, head)) && verifiedCheckpointHeight < head.header.height
      modifies db, utxoSet, mempool, this`verifiedCheckpointHeight, this`onlyExtended
      ensures StoreOk() && Follows(old(Now()), Now())
      ensures ok <==> Replays(rules.cfg.rules, ChainWith(rules.Genesis(), old(db.state), head))
      ensures ok ==> db.state == AdoptedState(rules, old(db.state), head, work) && db.state.tip.hash == head.hash
      ensures ok ==> db.state.blocks == BlocksWith(old(db.state), head)
      ensures ok ==> db.state.headers == HeadersWith(old(db.state), head, work)
      ensures !ok ==> db.state == old(db.state) && verifiedCheckpointHeight == old(verifiedCheckpointHeight)
    {
      hide Sane, Held, Assumes, HighestReached, CheckpointsKept, Replays, PoolValid, Sound, TreeOk, ChainOf, StateFor,
        Candidate, Consistent, Follows, Attaches;
      ghost var was := db.state;
      SaneTree(rules, world, was);
      SaneIds(rules, world, was);
      SaneConsistent(rules, world, was);
      CandidateAttaches(rules, world, was, head, work);
      var connected, disconnected;
      ghost var fork;
      ok, connected, disconnected, fork := AdoptBlock(rules.cfg, rules.Genesis(), db, utxoSet, head, work);
      if !ok {
        ViewStays(rules, world, was, was, verifiedCheckpointHeight, sealedAtCheckpoint);
        return;
      }
      FollowTip(was, head, work, connected, disconnected, fork);
    }

    /** Brings the verified checkpoint and the pool up to a tip that has just moved. */
    method FollowTip(
      ghost was: State, head: Block, ghost work: int, connected: seq<Block>, disconnected: seq<Block>, ghost fork: nat)
      requires utxoSet.db == db && utxoSet.rules == rules.cfg.rules && utxoSet.staging == None
      requires mempool.utxoSet == utxoSet
      requires Assumes(rules, world) && Sane(rules, world, was) && Candidate(rules, world, was, head, work)
      requires mempool.Valid()
      requires Held(rules.Crypto(), world, held, was) && head in held
      requires HighestReached(rules.checkpoints, Canonical(rules, was), verifiedCheckpointHeight)
      requires !sealedAtCheckpoint ==>
        CheckpointsKept(rules.checkpoints, BlocksWith(was, head)) && verifiedCheckpointHeight < head.header.height
      requires onlyExtended ==> PoolValid(rules.cfg.rules, was.utxo, mempool.pending, was.tip.height + 1)
      requires Replays(rules.cfg.rules, ChainWith(rules.Genesis(), was, head))
      requires db.state == AdoptedState(rules, was, head, work)
      requires ForkAt(Canonical(rules, was), ChainWith(rules.Genesis(), was, head), fork)
      requires connected == ChainWith(rules.Genesis(), was, head)[fork..]
      requires IsReversed(disconnected, Canonical(rules, was)[fork..])
      modifies mempool, this`verifiedCheckpointHeight, this`onlyExtended
      ensures StoreOk()
      ensures Follows(ViewOf(rules, was, old(verifiedCheckpointHeight), sealedAtCheckpoint), Now())
      ensures db.state.tip.hash == head.hash && db.state.blocks == BlocksWith(was, head)
      ensures db.state.headers == HeadersWith(was, head, work)
      ensures mempool.pending
              == Offered(mempool.policy, rules.cfg.rules, db.state.utxo, Surviving(old(mempool.pending), connected),
                         AllEligible(disconnected, IncludedIds(connected)), head.header.height + 1)
    {
      hide Sane, Held, Assumes, HighestReached, CheckpointsKept, Replays, PoolValid, Sound, TreeOk, ChainOf, StateFor,
        Candidate, Follows, ForkAt, IsReversed, AdoptedState, Offered, Surviving, AllEligible, IncludedIds, Overlay;
      OverlayNone(db.state.utxo);
      SaneTree(rules, world, was);
      AdoptionStep(rules, world, was, head, work);
      HeldWith(rules.Crypto(), world, held, was, db.state, head);
      SaneTree(rules, world, db.state);
      SaneIds(rules, world, db.state);
      CandidateAttaches(rules, world, was, head, work);
      ghost var v := verifiedCheckpointHeight;
      verifiedCheckpointHeight := RefreshVerifiedCheckpoint(rules.checkpoints, db.state.heights,
        Canonical(rules, db.state));
      AdoptionFollows(rules, world, was, head, db.state, v, verifiedCheckpointHeight, sealedAtCheckpoint);
      if |disconnected| > 0 {
        onlyExtended := false;
      } else if onlyExtended {
        PoolAfterExtension(rules, Canonical(rules, was), Canonical(rules, db.state), connected, disconnected, fork,
          mempool.pending);
      }
      UpdatePool(mempool, connected, disconnected, head.header.height + 1);
    }

    /** Stores a block that fits and indexes its header, filling in its ancestors' entries first. */
    method StoreBlock(block: Block) returns (work: int)
      requires StoreOk() && Attaches(db.state.blocks, rules.Genesis(), block) && block in held
      requires BodyOk(rules.Crypto(), rules.policy, block)
      requires block.header.height >= 1
      requires !sealedAtCheckpoint ==> CheckpointsKept(rules.checkpoints, BlocksWith(db.state, block))
      modifies db
      ensures StoreOk() && Now() == old(Now())
      ensures db.state.blocks == BlocksWith(old(db.state), block)
      ensures db.state.tip == old(db.state.tip) && db.state.heights == old(db.state.heights)
      ensures OnlyNew(old(db.state), db.state, block)
      ensures block.hash in db.state.headers && db.state.headers[block.hash].work == work
    {
      hide Sane, Held, Assumes, HighestReached, CheckpointsKept, PoolValid, Sound, TreeOk, ChainOf, Follows, BodyOk,
        HashesBind, FromWorld, HeadersOk;
      ghost var was := db.state;
      SaneTree(rules, world, was);
      SaneParts(rules, world, was);
      var parent := GetIndexedHeader(rules.Crypto(), rules.params.engine, rules.Genesis(), db,
        block.header.previousHash, world);
      SaneHeaders(rules, world, was, db.state.headers);
      ghost var indexed := db.state;
      HeldKnown(rules.Crypto(), world, held, was, block);
      SaneStored(rules, world, indexed, block);
      db.state := db.state.(blocks := BlocksWith(db.state, block));
      work := parent.value.work + BlockWork(rules.params.engine, block.header);
      if block.hash in db.state.headers {
        StoredWork(rules, world, db.state, block.hash);
      } else {
        IndexStored(rules, world, db.state, block);
        db.state := db.state.(headers := db.state.headers[block.hash := IndexedHeader(block.header, work)]);
      }
      HeldWith(rules.Crypto(), world, held, was, db.state, block);
      SaneTree(rules, world, db.state);
    }

    lemma {:induction false} StoreParts()
      requires StoreOk()
      ensures Assumes(rules, world) && Sane(rules, world, db.state)
      ensures Held(rules.Crypto(), world, held, db.state)
      ensures HighestReached(rules.checkpoints, Canonical(rules, db.state), verifiedCheckpointHeight)
      ensures !sealedAtCheckpoint ==> CheckpointsKept(rules.checkpoints, db.state.blocks)
    {
      hide Sane, Held, Assumes, HighestReached, CheckpointsKept, PoolValid;
    }

    /** Stores an accepted block and, if it outweighs the tip, tries to adopt it. */
    method Connect(block: Block) returns (ok: bool)
      requires StoreOk() && Settled(processed, invalid, db.state)
      requires block in held && Attaches(db.state.blocks, rules.Genesis(), block)
      requires BodyOk(rules.Crypto(), rules.policy, block)
      requires block.header.height >= 1
      requires (block.header.height in rules.checkpoints ==> block.hash == rules.checkpoints[block.header.height])
      requires !ConflictsWithVerified(verifiedCheckpointHeight, db.state.heights, block.header.height, block.hash)
      modifies this`processed, this`verifiedCheckpointHeight, this`onlyExtended, db, utxoSet, mempool
      ensures StoreOk() && Follows(old(Now()), Now())
      ensures Settled(processed, if ok then invalid else invalid + {block.hash}, db.state)
      ensures processed == old(processed) + {block.hash}
      ensures Grows(old(db.state.blocks), db.state.blocks) && block.hash in db.state.blocks
      ensures db.state.blocks[block.hash] == block
      ensures Extends(old(db.state.headers), db.state.headers)
      ensures Chosen(rules, old(db.state), block, old(Now()), db.state.headers, Now(), !ok)
      ensures ok <==> BranchReplays(rules, old(db.state), block) || db.state.headers[block.hash].work <= old(Now()).work
      ensures NodeLookup(db.state, map[]) == NodeLookup(old(db.state), map[])[block.hash := block.header]
    {
      hide StoreOk, Now, Held, Sane, HighestReached, CheckpointsKept, TreeOk, ChainOf, Follows, BodyOk, Settled,
        BlocksWith, Grows, Extends, Attaches, BranchReplays, NodeLookup;
      ghost var was := db.state;
      StoreParts();
      if !sealedAtCheckpoint {
        KeptWith(rules.checkpoints, db.state, block);
      }
      GrowsWith(rules.Genesis(), db.state, block);
      var work := StoreBlock(block);
      StoreParts();
      OnlyNewGrows(was, db.state, block);
      KnownAfter(rules, world, was, db.state, block);
      SettleStored(rules, world, was, db.state, processed, invalid);
      BranchStays(rules, world, was, db.state, block);
      ghost var stored := db.state;
      ok := Choose(block, work);
      SameKnown(stored, db.state);
      processed := processed + {block.hash};
    }

    /** Fork choice for a stored block: adopt it exactly when it outweighs the tip. */
    method Choose(block: Block, work: int) returns (ok: bool)
      requires StoreOk() && Settled(processed, invalid, db.state) && block in held
      requires BodyOk(rules.Crypto(), rules.policy, block)
      requires block.hash in db.state.blocks && db.state.blocks[block.hash] == block && block.header.height >= 1
      requires block.hash in db.state.headers && db.state.headers[block.hash].work == work
      requires !ConflictsWithVerified(verifiedCheckpointHeight, db.state.heights, block.header.height, block.hash)
      modifies this`verifiedCheckpointHeight, this`onlyExtended, db, utxoSet, mempool
      ensures StoreOk() && Follows(old(Now()), Now())
      ensures Settled(processed + {block.hash}, if ok then invalid else invalid + {block.hash}, db.state)
      ensures db.state.blocks == old(db.state.blocks) && db.state.headers == old(db.state.headers)
      ensures ok <==> work <= old(Now()).work || BranchReplays(rules, old(db.state), block)
      ensures ok ==> work <= Now().work
      ensures !ok ==> Now() == old(Now())
    {
      hide Sane, Held, Assumes, HighestReached, CheckpointsKept, PoolValid, Sound, TreeOk, ChainOf, Follows, BodyOk,
        Settled, AdoptedState, Replays, Candidate, StateFor, Attaches;
      ghost var was := db.state;
      SaneTree(rules, world, was);
      if !IsBetterChain(work, db.state.headers[db.state.tip.hash].work) {
        SettledWith(processed, invalid, was, block.hash);
        ViewStays(rules, world, was, was, verifiedCheckpointHeight, sealedAtCheckpoint);
        return true;
      }
      HeavierIsAbove(rules, world, was, verifiedCheckpointHeight, block.header.height, block.hash);
      HeldKnown(rules.Crypto(), world, held, was, block);
      StoredIsCandidate(rules, world, was, block);
      CandidateAttaches(rules, world, was, block, work);
      ok := Adopt(block, work);
      if ok {
        SettledGrows(processed, invalid, was, db.state);
        SettledWith(processed, invalid, db.state, block.hash);
      } else {
        SettledWithout(processed, invalid, db.state, block.hash);
      }
    }

    /** Counts `block` among those held and forgets what is held no more. */
    ghost method Hold(block: Block)
      requires Valid({}) && block in world.blocks && RespellsNothing(block)
      modifies this`held
      ensures Valid({}) && block in held && Here() == old(Here())
    {
      hide Sane, Held, Assumes, HighestReached, CheckpointsKept, PoolValid, PoolOk, Settled, RulesHeld, NodeLookup,
        Waiting, Follows, IsRun;
      SaneTree(rules, world, db.state);
      HoldMore(rules.Crypto(), world, held, rules.Genesis(), db.state, orphans, block);
      held := (iset h | h in db.state.blocks :: db.state.blocks[h]) + (iset b | b in Waiting(orphans)) + iset{block};
    }

    /** Notes in the trace what the node shows after a step. */
    ghost method Note()
      requires StoreOk() && IsRun(trace) && |trace| > 0 && Follows(trace[|trace| - 1], Now())
      modifies this`trace
      ensures TraceOk() && old(trace) <= trace
    {
      hide Sane, Held, Assumes, HighestReached, CheckpointsKept, Follows;
      RunPush(trace, Now());
      trace := trace + [Now()];
    }

    ghost function Here(): Moment
      requires StoreOk()
      reads this`verifiedCheckpointHeight, this`sealedAtCheckpoint, this`onlyExtended, this`held, this`trace,
        this`processed, this`invalid
      reads db, utxoSet, mempool
    {
      Moment(Now(), db.state.blocks, db.state.headers, trace, processed, invalid)
    }

    /**
     * A block arrives, from a peer or from the waiting list. Whatever it is, the handler ends with the
     * node valid and a view that follows the one before. `thrown` is an exception that reaches the caller; what it
     * cut off is added to `stranded`.
     */
    method HandleIncomingBlock(block: Block, now: int, ghost extra: set<Hash>)
      returns (arrival: Arrival, thrown: bool, ghost looks: seq<Look>)
      requires Valid(extra)
      requires Kept(Judge(rules, db.state, processed, invalid, verifiedCheckpointHeight, block, now)) ==> block in held
      modifies this`processed, this`invalid, this`orphans, this`orphanHashes, this`verifiedCheckpointHeight
      modifies this`onlyExtended, this`stranded, this`trace, this`latest, db, utxoSet, mempool
      ensures Valid(extra) && Passed(old(Here()), Here())
      ensures arrival == Judge(rules, old(db.state), old(processed), old(invalid), old(verifiedCheckpointHeight), block,
        now)
      ensures !arrival.Accepted? ==> db.state == old(db.state) && mempool.pending == old(mempool.pending) && looks == []
      ensures arrival.Known? || arrival.Fault? || arrival.NoParent? ==>
        processed == old(processed) && invalid == old(invalid)
      ensures arrival.Known? || arrival.Fault? ==> orphans == old(orphans) && orphanHashes == old(orphanHashes)
      ensures arrival.NoParent? ==> Joined(old(orphans), old(orphanHashes), block, orphans)
      ensures arrival.OnInvalid? || arrival.Refused? ==>
        Purged(old(orphans), block.hash, old(invalid), invalid, orphans)
      ensures arrival.Accepted? ==> block.hash in processed && block.hash in db.state.blocks
      ensures arrival.Accepted? ==>
        Chosen(rules, old(db.state), block, old(Now()), db.state.headers, Now(), block.hash in invalid)
      ensures block.header.previousHash in old(db.state.blocks) ==> Fewer(old(orphans), orphans)
      ensures arrival.OnInvalid? || arrival.Refused? || arrival.Accepted? ==> block.hash !in Parents(orphans)
      ensures !thrown && !arrival.NoParent? ==> block.hash in processed || block.hash in invalid
      ensures Looked(rules, world, looks, now, extra, old(stranded), old(Waiting(orphans)))
      ensures thrown <==> arrival.Fault? || Stopped(rules, looks, now)
      ensures stranded == old(stranded) + if thrown then LastOut(looks) - extra else {}
      ensures arrival.Accepted? && BranchReplays(rules, old(db.state), block)
              && |GroupOf(old(orphans), block.hash)| > 0 ==>
        |looks| > 0 && FirstLook(looks[0], GroupOf(old(orphans), block.hash), old(processed) + {block.hash},
          old(invalid), extra)
      ensures arrival.Accepted? && BranchReplays(rules, old(db.state), block)
              && Childless(GroupOf(old(orphans), block.hash), old(orphans)) ==>
        Orderly(rules, looks, now, GroupOf(old(orphans), block.hash), old(processed) + {block.hash}, old(invalid),
          extra)
      ensures block.hash !in old(Parents(orphans)) ==>
        Quiet(block.hash, looks, old(processed), processed, old(invalid), invalid)
      decreases |orphans|, 3
    {
      hide StoreOk, Now, QueueOk, TraceOk, RulesKept, IsRun, Passed, Fewer, Settled, Judge, Chosen, BranchReplays,
        Parents, Waiting, Looked, Stopped, LastOut, Joined, Purged, GroupOf, FirstLook, Orderly, Childless;
      thrown, looks := false, [];
      NoLooks(rules, world, now, extra, stranded, Waiting(orphans));
      HereStays();
      FewerSame(orphans);
      arrival := JudgeBlock(rules, db.state, processed, invalid, verifiedCheckpointHeight, block, now);
      JudgeSays(rules, db.state, processed, invalid, verifiedCheckpointHeight, block, now);
      if arrival.Known? || arrival.Fault? {
        thrown := arrival.Fault?;
        return;
      }
      if arrival.OnInvalid? || arrival.Refused? {
        Reject(block, extra);
        return;
      }
      if arrival.NoParent? {
        Queue(block, extra);
        return;
      }
      thrown, looks := Accept(block, now, extra);
    }

    /**
     * A peer's block. Nothing is stranded exactly when no look that raised had other blocks out; by `Looks.LookFaults`
     * a look raises exactly for an undecided block of height below 1 that no verified checkpoint rules out.
     */
    method ReceiveBlock(block: Block, now: int) returns (arrival: Arrival, thrown: bool, ghost looks: seq<Look>)
      requires Valid({}) && block in world.blocks
      requires Kept(Judge(rules, db.state, processed, invalid, verifiedCheckpointHeight, block, now)) ==>
        RespellsNothing(block)
      modifies this, db, utxoSet, mempool
      ensures Valid({}) && Passed(old(Here()), Here())
      ensures arrival == Judge(rules, old(db.state), old(processed), old(invalid), old(verifiedCheckpointHeight), block,
        now)
      ensures arrival.NoParent? ==> db.state == old(db.state) && processed == old(processed) && invalid == old(invalid)
      ensures arrival.NoParent? ==> Joined(old(orphans), old(orphanHashes), block, orphans) && stranded == old(stranded)
      ensures Looked(rules, world, looks, now, {}, old(stranded), old(Waiting(orphans)))
      ensures thrown <==> arrival.Fault? || Stopped(rules, looks, now)
      ensures stranded == old(stranded) <==> forall k :: 0 <= k < |looks| && Faults(rules, looks[k], now) ==>
        looks[k].out == {}
      ensures (forall b :: b in old(Waiting(orphans)) ==> b.header.height >= 1) ==>
        stranded == old(stranded) && (thrown ==> arrival.Fault?)
      ensures arrival.Accepted? && BranchReplays(rules, old(db.state), block) && rules.checkpoints == map[]
              && LowFirst(GroupOf(old(orphans), block.hash), old(processed) + {block.hash}, old(invalid)) ==>
        thrown && stranded == old(stranded) + HashesOf(GroupOf(old(orphans), block.hash)[1..])
      ensures arrival.Accepted? && BranchReplays(rules, old(db.state), block) && rules.checkpoints == map[]
              && Childless(GroupOf(old(orphans), block.hash), old(orphans)) ==>
        (stranded == old(stranded)
         <==> LowOnlyLast(GroupOf(old(orphans), block.hash), old(processed) + {block.hash}, old(invalid)))
    {
      hide StoreOk, Now, QueueOk, TraceOk, RulesKept, Passed, Settled, Judge, Chosen, BranchReplays, Parents, Waiting,
        Looked, Fewer, LastOut, Joined, Purged, GroupOf, FirstLook, Faults, HashesOf, LowFirst, Stopped, Orderly,
        Childless, LowOnlyLast, Held, RespellsNothing, Reach, Quiet, RulesKept, Here;
      if Kept(Judge(rules, db.state, processed, invalid, verifiedCheckpointHeight, block, now)) {
        Hold(block);
      }
      StoreParts();
      ghost var waiting := GroupOf(orphans, block.hash);
      GroupNow(block.hash);
      arrival, thrown, looks := HandleIncomingBlock(block, now, {});
      NoneOut(looks);
      ghost var connected := arrival.Accepted? && BranchReplays(rules, old(db.state), block);
      WhatIsStranded(rules, world, looks, now, old(stranded), old(Waiting(orphans)), stranded, waiting,
                     old(processed) + {block.hash}, old(invalid), connected);
      if connected && rules.checkpoints == map[] && Childless(waiting, old(orphans)) {
        InOrder(rules, world, looks, now, old(stranded), old(Waiting(orphans)), stranded, waiting,
                old(processed) + {block.hash}, old(invalid), block.hash);
      }
    }

    /** Stores an accepted block, chooses the tip, and looks again at what waited for it. */
    method Accept(block: Block, now: int, ghost extra: set<Hash>) returns (thrown: bool, ghost looks: seq<Look>)
      requires Valid(extra) && block in held
      requires Judge(rules, db.state, processed, invalid, verifiedCheckpointHeight, block, now).Accepted?
      modifies this`processed, this`invalid, this`orphans, this`orphanHashes, this`verifiedCheckpointHeight
      modifies this`onlyExtended, this`stranded, this`trace, this`latest, db, utxoSet, mempool
      ensures Valid(extra) && Passed(old(Here()), Here())
      ensures block.hash in processed && block.hash in db.state.blocks
      ensures Chosen(rules, old(db.state), block, old(Now()), db.state.headers, Now(), block.hash in invalid)
      ensures Fewer(old(orphans), orphans) && block.hash !in Parents(orphans)
      ensures Looked(rules, world, looks, now, extra, old(stranded), old(Waiting(orphans)))
      ensures thrown <==> Stopped(rules, looks, now)
      ensures stranded == old(stranded) + if thrown then LastOut(looks) - extra else {}
      ensures BranchReplays(rules, old(db.state), block) && |GroupOf(old(orphans), block.hash)| > 0 ==>
        |looks| > 0 && FirstLook(looks[0], GroupOf(old(orphans), block.hash), old(processed) + {block.hash},
          old(invalid), extra)
      ensures BranchReplays(rules, old(db.state), block)
              && Childless(GroupOf(old(orphans), block.hash), old(orphans)) ==>
        Orderly(rules, looks, now, GroupOf(old(orphans), block.hash), old(processed) + {block.hash}, old(invalid),
          extra)
      ensures block.hash !in old(Parents(orphans)) ==>
        looks == [] && processed == old(processed) + {block.hash} && invalid <= old(invalid) + {block.hash}
      decreases |orphans|, 2
    {
      hide StoreOk, Now, QueueOk, TraceOk, IsRun, Passed, Fewer, Sane, Assumes, Follows, BodyOk, Committed, Settled,
        Grows, Attaches, Judge, Extends, Chosen, BranchReplays, Parents, Waiting, Looked, Stopped, LastOut,
        GroupOf, FirstLook, RulesHeld, NodeLookup, Passes, Held, Orderly, Childless;
      ghost var was, view, start := db.state, Now(), Here();
      StoreParts();
      TraceParts();
      Tick(now);
      HeldIsStored(rules.Crypto(), world, held, db.state, block);
      HeldKnown(rules.Crypto(), world, held, db.state, block);
      AcceptedPasses(rules, world, db.state, processed, invalid, verifiedCheckpointHeight, block, now);
      AcceptedFacts(rules, world, db.state, processed, invalid, verifiedCheckpointHeight, block, now);
      var ok := Connect(block);
      Note();
      KeepRules(was, block, now);
      PassedFrom(start, Here());
      if !ok {
        thrown, looks := false, [];
        NoLooks(rules, world, now, extra, stranded, Waiting(orphans));
        RejectLate(block, extra, start);
        return;
      }
      ghost var between, stored := Here(), db.state;
      thrown, looks := ResolveOrphansOf(block.hash, now, extra);
      PassedParts(between, Here());
      GrowsAt(stored.blocks, db.state.blocks, block.hash);
      ChosenStays(rules, was, block, view, stored.headers, between.view, db.state.headers, Now(),
        block.hash in invalid);
      PassedTrans(start, between, Here());
    }

    /** Brings the clock of the trace of checks up to `now`. */
    ghost method Tick(now: int)
      requires RulesKept()
      modifies this`latest
      ensures RulesKept() && old(latest) <= latest && now <= latest
    {
      hide RulesHeld, NodeLookup;
      if latest < now {
        RulesHeldLater(rules.params, NodeLookup(db.state, map[]), latest, now);
        latest := now;
      }
    }

    lemma {:induction false} KeepRules(was: State, block: Block, now: int)
      requires Assumes(rules, world) && Sane(rules, world, was)
      requires RulesHeld(rules.params, NodeLookup(was, map[]), latest)
      requires now <= latest && Passes(rules, NodeLookup(was, map[]), block.header, block.hash, now)
      requires block in world.blocks
      requires NodeLookup(db.state, map[]) == NodeLookup(was, map[])[block.hash := block.header]
      ensures RulesKept()
    {
      hide Sane, Held, HashesBind, IdsBind, RulesHeld, NodeLookup, Passes;
      BlockHeader(rules.Crypto(), world, block);
      RulesHeldAfter(rules, world, was, NodeLookup(db.state, map[]), block.header, block.hash, now, latest);
    }

    /** Rejects a stored block whose branch turned out not to replay. */
    method RejectLate(block: Block, ghost extra: set<Hash>, ghost start: Moment)
      requires StoreOk() && TraceOk() && RulesKept() && QueueOk(extra)
      requires Settled(processed, invalid + {block.hash}, db.state)
      requires Passed(start, Here())
      modifies this`processed, this`invalid, this`orphans, this`orphanHashes
      ensures Valid(extra) && Passed(start, Here()) && block.hash in processed && block.hash in invalid
      ensures Fewer(old(orphans), orphans) && block.hash !in Parents(orphans)
      ensures block.hash !in old(Parents(orphans)) ==>
        processed == old(processed) + {block.hash} && invalid == old(invalid) + {block.hash}
    {
      hide StoreOk, Now, TraceOk, RulesKept, QueueOk, Settled, Follows, Grows, Extends, Parents, Waiting, Queued,
        Without, Dependents;
      ghost var p, i := processed, invalid;
      NoneDepend(block.hash, extra);
      RejectBlock(block, extra);
      RejectedSettled(p, i, db.state, processed, invalid, block.hash);
    }

    lemma {:induction false} HereStays()
      requires StoreOk()
      ensures Passed(Here(), Here())
    {
      hide StoreOk, Now, Follows, Grows, Extends;
      Unmoved();
    }

    lemma {:induction false} TraceParts()
      requires TraceOk()
      ensures StoreOk() && IsRun(trace) && |trace| > 0 && trace[|trace| - 1] == Now()
    {
    }

    /** Rejects a block that was judged invalid. */
    method Reject(block: Block, ghost extra: set<Hash>)
      requires Valid(extra)
      modifies this`processed, this`invalid, this`orphans, this`orphanHashes
      ensures Valid(extra) && Passed(old(Here()), Here()) && block.hash in invalid && stranded == old(stranded)
      ensures Purged(old(orphans), block.hash, old(invalid), invalid, orphans)
      ensures Fewer(old(orphans), orphans) && block.hash !in Parents(orphans)
      ensures block.hash !in old(Parents(orphans)) ==>
        processed == old(processed) + {block.hash} && invalid == old(invalid) + {block.hash}
    {
      hide StoreOk, Now, TraceOk, RulesKept, QueueOk, Settled, Follows, Grows, Extends, Parents, Waiting, Queued,
        Without, Dependents;
      Unmoved();
      NoneDepend(block.hash, extra);
      RejectBlock(block, extra);
      SettledFewer(old(processed), old(invalid), db.state, processed, invalid);
    }

    /**
     * Looks again at the blocks that waited for `hash`, in order. All of them are decided afterwards, unless one
     * raises: then the rest of the group, and of every group being worked through, is stranded.
     */
    method ResolveOrphansOf(hash: Hash, now: int, ghost extra: set<Hash>) returns (thrown: bool, ghost looks: seq<Look>)
      requires Valid(extra) && hash in db.state.blocks && db.state.blocks[hash].header.height >= 1
      modifies this`processed, this`invalid, this`orphans, this`orphanHashes, this`verifiedCheckpointHeight
      modifies this`onlyExtended, this`stranded, this`trace, this`latest, db, utxoSet, mempool
      ensures Valid(extra) && Passed(old(Here()), Here())
      ensures Fewer(old(orphans), orphans) && hash !in Parents(orphans)
      ensures !thrown ==> AllDecided(GroupOf(old(orphans), hash), processed, invalid)
      ensures Looked(rules, world, looks, now, extra, old(stranded), old(Waiting(orphans)))
      ensures thrown <==> Stopped(rules, looks, now)
      ensures stranded == old(stranded) + if thrown then LastOut(looks) - extra else {}
      ensures |GroupOf(old(orphans), hash)| > 0 ==>
        |looks| > 0 && FirstLook(looks[0], GroupOf(old(orphans), hash), old(processed), old(invalid), extra)
        && looks[0].s == old(db.state) && looks[0].verified == old(verifiedCheckpointHeight)
      ensures Childless(GroupOf(old(orphans), hash), old(orphans)) ==>
        Orderly(rules, looks, now, GroupOf(old(orphans), hash), old(processed), old(invalid), extra)
      ensures hash !in old(Parents(orphans)) ==> looks == [] && processed == old(processed) && invalid == old(invalid)
      decreases |orphans|, 1
    {
      hide StoreOk, Now, TraceOk, RulesKept, QueueOk, Passed, Settled, HashesOf, StillOut, GroupOk, Parents, Queued,
        Waiting, Looked, Stopped, LastOut, GroupOf, AllDecided, FirstLook, Without, Distinct, Orderly, Childless,
        Reach;
      thrown, looks := false, [];
      NoLooks(rules, world, now, extra, stranded, Waiting(orphans));
      HereStays();
      var at := FindGroup(orphans, hash);
      GroupAt(orphans, hash, at);
      if at == |orphans| {
        NoneDecided(processed, invalid);
        NoneToSee(rules, now, processed, invalid, extra);
        return;
      }
      var waiting := orphans[at].blocks;
      ghost var g := orphans;
      TakeOut(extra, at);
      if Childless(waiting, g) {
        ChildlessFewer(waiting, g, orphans);
      }
      thrown, looks := LookAgain(waiting, hash, now, extra, Waiting(g));
    }

    /** Takes a group out of the queue; its hashes stay known as waiting. */
    method TakeOut(ghost extra: set<Hash>, at: nat)
      requires Valid(extra) && at < |orphans|
      modifies this`orphans
      ensures Valid(StillOut(extra, old(orphans)[at].blocks, 0)) && Here() == old(Here())
      ensures |orphans| < old(|orphans|) && Parents(orphans) <= old(Parents(orphans)) - {old(orphans)[at].parent}
      ensures Waiting(orphans) <= old(Waiting(orphans))
      ensures TakenOut(Reach(), old(orphans)[at].parent, old(orphans)[at].blocks, extra, stranded,
        old(Waiting(orphans)))
    {
      hide StoreOk, Now, TraceOk, RulesKept, Settled, PoolOk, QueueKnown, HashesOf, GroupOk, Parents, Queued, Waiting,
        Without, StillOut, Distinct;
      TakeGroup(orphans, orphanHashes, stranded, extra, at);
      KnownWithout(Reach(), orphans, at);
      GroupDistinct(orphans[at]);
      OutBounds(extra, orphans[at].blocks);
      forall i | 0 <= i < |orphans[at].blocks| ensures orphans[at].blocks[i] in Waiting(orphans) {
        GroupWaits(orphans, at, i);
      }
      orphans := orphans[..at] + orphans[at + 1..];
    }

    /** The loop over a group that has been taken out. */
    method LookAgain(waiting: seq<Block>, hash: Hash, now: int, ghost extra: set<Hash>, ghost all: set<Block>)
      returns (thrown: bool, ghost looks: seq<Look>)
      requires TakenOut(Reach(), hash, waiting, extra, stranded, all) && Valid(StillOut(extra, waiting, 0))
      requires hash in db.state.blocks && db.state.blocks[hash].header.height >= 1
      requires Waiting(orphans) <= all && 0 < |waiting|
      modifies this`processed, this`invalid, this`orphans, this`orphanHashes, this`verifiedCheckpointHeight
      modifies this`onlyExtended, this`stranded, this`trace, this`latest, db, utxoSet, mempool
      ensures Valid(extra) && Passed(old(Here()), Here()) && Fewer(old(orphans), orphans)
      ensures !thrown ==> AllDecided(waiting, processed, invalid)
      ensures Looked(rules, world, looks, now, extra, old(stranded), all)
      ensures thrown <==> Stopped(rules, looks, now)
      ensures stranded == old(stranded) + if thrown then LastOut(looks) - extra else {}
      ensures |looks| > 0 && FirstLook(looks[0], waiting, old(processed), old(invalid), extra)
      ensures looks[0].s == old(db.state) && looks[0].verified == old(verifiedCheckpointHeight)
      ensures Childless(waiting, old(orphans)) ==>
        Orderly(rules, looks, now, waiting, old(processed), old(invalid), extra)
      decreases |orphans|, 5
    {
      hide StoreOk, Now, TraceOk, RulesKept, QueueOk, Passed, Settled, HashesOf, StillOut, Looked, Stopped, LastOut,
        AllDecided, FirstLook, Fewer, Parents, Waiting, TakenOut, OnePerBlock, Reach, Childless;
      thrown, looks := false, [];
      NoLooks(rules, world, now, extra, stranded, all);
      HereStays();
      FewerSame(orphans);
      ghost var start, count := Here(), |orphans|;
      ghost var lone := Childless(waiting, orphans);
      NoneDecided(processed, invalid);
      NoneSeen(waiting, processed, invalid, extra);
      assert waiting[..0] == [];
      for i := 0 to |waiting|
        invariant Valid(StillOut(extra, waiting, i)) && stranded == old(stranded) && Passed(start, Here())
        invariant Fewer(old(orphans), orphans) && AllDecided(waiting[..i], processed, invalid)
        invariant Looked(rules, world, looks, now, extra, old(stranded), all) && !Stopped(rules, looks, now)
        invariant lone ==> |looks| == i && OnePerBlock(looks, waiting, old(processed), old(invalid), extra)
        invariant lone ==> old(processed) <= processed <= old(processed) + HashesOf(waiting[..i])
        invariant lone ==> old(invalid) <= invalid <= old(invalid) + (HashesOf(waiting[..i]) - old(processed))
        invariant i == 0 ==> db.state == old(db.state) && processed == old(processed) && invalid == old(invalid)
        invariant i == 0 ==> verifiedCheckpointHeight == old(verifiedCheckpointHeight) && looks == []
        invariant i > 0 ==>
          |looks| > 0 && FirstLook(looks[0], waiting, old(processed), old(invalid), extra)
          && looks[0].s == old(db.state) && looks[0].verified == old(verifiedCheckpointHeight)
      {
        ghost var before, here, p, v := orphans, Here(), processed, invalid;
        PassedParts(start, here);
        GrowsAt(start.blocks, db.state.blocks, hash);
        FewerCount(old(orphans), orphans);
        FewerWaits(old(orphans), orphans);
        var raised;
        ghost var seen;
        raised, seen := LookAt(waiting, i, hash, now, extra, all);
        PassedTrans(start, here, Here());
        FewerTrans(old(orphans), before, orphans);
        LooksJoin(rules, world, looks, seen, now, extra, old(stranded), all);
        if i == 0 {
          LookIsFirst(seen[0], waiting, extra);
        }
        ghost var earlier := looks;
        if lone {
          ChildlessStill(waiting, old(orphans), before, i);
          OutIs(extra, waiting, i + 1);
          LookOnce(looks, seen[0], waiting, old(processed), old(invalid), extra);
          assert seen == [seen[0]];
        }
        looks := looks + seen;
        assert looks[0] == if i == 0 then seen[0] else earlier[0];
        if raised {
          thrown := true;
          return;
        }
        PassedParts(here, Here());
        if lone {
          MarksGrow(waiting, i, old(processed), p, processed, old(invalid), v, invalid);
        }
        DecidedMore(waiting, i, p, v, processed, invalid);
      }
      assert waiting[..|waiting|] == waiting;
      OutBounds(extra, waiting);
    }

    /** One look at a block that has been taken out. */
    method LookAt(waiting: seq<Block>, i: nat, hash: Hash, now: int, ghost extra: set<Hash>, ghost all: set<Block>)
      returns (raised: bool, ghost seen: seq<Look>)
      requires i < |waiting| && TakenOut(Reach(), hash, waiting, extra, stranded, all)
      requires Valid(StillOut(extra, waiting, i))
      requires hash in db.state.blocks && db.state.blocks[hash].header.height >= 1 && Waiting(orphans) <= all
      modifies this`processed, this`invalid, this`orphans, this`orphanHashes, this`verifiedCheckpointHeight
      modifies this`onlyExtended, this`stranded, this`trace, this`latest, db, utxoSet, mempool
      ensures Valid(if raised then extra else StillOut(extra, waiting, i + 1)) && Passed(old(Here()), Here())
      ensures Fewer(old(orphans), orphans)
      ensures !raised ==> waiting[i].hash in processed || waiting[i].hash in invalid
      ensures Looked(rules, world, seen, now, extra, old(stranded), all) && |seen| > 0
      ensures raised <==> Stopped(rules, seen, now)
      ensures stranded == old(stranded) + if raised then LastOut(seen) - extra else {}
      ensures seen[0] == Look(old(db.state), old(processed), old(invalid), old(verifiedCheckpointHeight), waiting[i],
                              StillOut(extra, waiting, i + 1))
      ensures waiting[i].hash !in old(Parents(orphans)) ==>
        |seen| == 1 && processed <= old(processed) + {waiting[i].hash}
        && invalid <= old(invalid) + ({waiting[i].hash} - old(processed))
      decreases |orphans|, 4
    {
      hide StoreOk, Now, TraceOk, RulesKept, QueueOk, Passed, Settled, StillOut, Looked, Stopped, LastOut, LookOk,
        Faults, Fewer, Parents, Waiting, Judge, Joined, Purged, GroupOf, FirstLook, Chosen, BranchReplays,
        TakenOut, Reach, Kept, Orderly, HashesOf;
      TakenAt(Reach(), hash, waiting, extra, stranded, all, i);
      ReachIs();
      ghost var rest := StillOut(extra, waiting, i + 1);
      ghost var look := Look(db.state, processed, invalid, verifiedCheckpointHeight, waiting[i], rest);
      TakeHash(waiting, i, extra);
      StoreParts();
      IsLook(rules, world, look, now);
      ghost var left := Waiting(orphans);
      var arrival;
      ghost var nested;
      arrival, raised, nested := HandleIncomingBlock(waiting[i], now, rest);
      NoLooks(rules, world, now, extra, old(stranded), all);
      MoreLooks(rules, world, [], look, nested, now, extra, rest, old(stranded), all, left);
      seen := [] + [look] + nested;
      if raised {
        LookedOut(rules, world, nested, now, rest, old(stranded), left);
        Strand(waiting[i + 1..], extra, rest, nested, seen, old(stranded));
      } else {
        JudgeSays(rules, look.s, look.processed, look.invalid, look.verified, waiting[i], now);
      }
    }

    /** The hash of the block about to be looked at no longer counts as waiting. */
    method TakeHash(waiting: seq<Block>, i: nat, ghost extra: set<Hash>)
      requires i < |waiting| && Valid(StillOut(extra, waiting, i))
      requires Separated(waiting, extra, stranded)
      modifies this`orphanHashes
      ensures Valid(StillOut(extra, waiting, i + 1)) && Here() == old(Here())
      ensures StillOut(extra, waiting, i + 1) == extra + HashesOf(waiting[i + 1..])
      ensures HashesOf(waiting[i + 1..]) !! extra
      ensures stranded !! StillOut(extra, waiting, i + 1)
    {
      hide StoreOk, Now, TraceOk, RulesKept, Settled, PoolOk, QueueKnown, HashesOf, StillOut, Distinct;
      TakeNext(orphans, orphanHashes, stranded, extra, waiting, i);
      OutIs(extra, waiting, i + 1);
      HashesBelow(waiting, i + 1);
      orphanHashes := orphanHashes - {waiting[i].hash};
    }

    lemma {:induction false} GroupNow(h: Hash)
      requires QueueOk({})
      ensures Distinct(GroupOf(orphans, h)) && AllUnder(h, GroupOf(orphans, h))
    {
      hide PoolOk, QueueKnown, GroupOf, Distinct, AllUnder;
      GroupFacts(orphans, orphanHashes, stranded + {}, h);
    }

    lemma {:induction false} NoneDepend(h: Hash, extra: set<Hash>)
      requires QueueOk(extra)
      ensures h !in Parents(orphans) ==> Dependents(orphans, h) == {}
    {
      hide PoolOk, QueueKnown, Parents, Dependents;
      NoDependents(orphans, orphanHashes, stranded, extra, h);
    }

    lemma {:induction false} ReachIs()
      ensures Reach().blocks == held
    {
    }

    /** What an exception leaves behind: counted as waiting, held by no group. */
    ghost method Strand(
      rest: seq<Block>, extra: set<Hash>, out: set<Hash>, nested: seq<Look>, looks: seq<Look>, before: set<Hash>)
      requires out == extra + HashesOf(rest) && HashesOf(rest) !! extra && Valid(out)
      requires stranded == before + (LastOut(nested) - out) && (|nested| > 0 ==> out <= LastOut(nested))
      requires LastOut(looks) == if nested == [] then out else LastOut(nested)
      modifies this`stranded
      ensures Valid(extra) && Here() == old(Here()) && stranded == before + (LastOut(looks) - extra)
    {
      hide StoreOk, Now, TraceOk, RulesKept, Settled, PoolOk, QueueKnown, HashesOf;
      NoneOut(nested);
      assert stranded + out == stranded + HashesOf(rest) + extra;
      stranded := stranded + HashesOf(rest);
    }

    /** Queues a block whose parent is missing. */
    method Queue(block: Block, ghost extra: set<Hash>)
      requires QueueOk(extra) && block in held
      modifies this`orphans, this`orphanHashes
      ensures QueueOk(extra) && Joined(old(orphans), old(orphanHashes), block, orphans)
    {
      hide PoolOk, Waiting, Enqueued;
      orphans, orphanHashes := QueueOrphan(orphans, orphanHashes, block, stranded + extra);
    }

    lemma {:induction false} Unmoved()
      requires StoreOk()
      ensures Follows(Now(), Now()) && Grows(db.state.blocks, db.state.blocks)
      ensures Extends(db.state.headers, db.state.headers)
    {
      hide Sane, Held, HighestReached, Follows;
      ViewStays(rules, world, db.state, db.state, verifiedCheckpointHeight, sealedAtCheckpoint);
    }

    /** Indexes one header after `previous` if it is valid; `last` is where the walk stands afterwards. */
    method TakeHeader(
      header: Header, previous: Hash, batch: Lookup, now: int) returns (last: Option<Hash>, batch': Lookup)
      requires StoreOk() && previous in db.state.headers && header in world.headers && BatchOk(db.state, batch)
      requires RulesKept() && now <= latest
      modifies db
      ensures StoreOk() && Now() == old(Now())
      ensures db.state.blocks == old(db.state.blocks) && db.state.tip == old(db.state.tip)
      ensures Extends(old(db.state.headers), db.state.headers)
      ensures last.Some? ==> last.value == rules.Crypto().blockHash(header) && last.value in db.state.headers
      ensures last.None? ==> db.state == old(db.state)
      ensures last.Some? <==> HeaderTaken(rules, old(db.state), invalid, verifiedCheckpointHeight, header, previous,
        map[], now)
      ensures BatchOk(db.state, batch') && RulesKept()
      ensures forall h :: h in db.state.headers ==> h in old(db.state.headers) || h == rules.Crypto().blockHash(header)
    {
      hide Sane, Held, Assumes, HighestReached, CheckpointsKept, PoolValid, Sound, TreeOk, ChainOf, TargetByWalk,
        SignersByWalk, NodeLookup, ValidateHeader, RulesKept;
      var hash := rules.Crypto().blockHash(header);
      batch' := batch;
      BatchLookup(db.state, batch);
      SaneTree(rules, world, db.state);
      if hash in db.state.headers {
        return Some(hash), batch;
      }
      if hash in invalid || header.previousHash in invalid {
        return None, batch;
      }
      if ConflictsWithVerified(verifiedCheckpointHeight, db.state.heights, header.height, hash) {
        return None, batch;
      }
      var prev := db.state.headers[previous];
      var lookup := NodeLookup(db.state, batch);
      var target := ExpectedTargetFor(rules.params, lookup, prev.header);
      if target.None? {
        return None, batch;
      }
      var signers := RecentSignersFor(rules.params, lookup, previous);
      var ctx := HeaderContext(prev.header, previous, target.value, now, rules.params.maxFutureDriftMs,
                               CheckpointFor(rules.checkpoints, header.height), signers);
      var verdict := ValidateHeader(rules.Crypto(), rules.params.engine, header, hash, ctx);
      if !verdict.Valid? {
        return None, batch;
      }
      IndexTaken(header, previous, now);
      return Some(hash), batch[hash := header];
    }

    /** Writes the index entry of a header that has passed. */
    method IndexTaken(header: Header, previous: Hash, ghost now: int)
      requires StoreOk() && RulesKept() && now <= latest && previous in db.state.headers && header in world.headers
      requires HeaderTaken(rules, db.state, invalid, verifiedCheckpointHeight, header, previous, map[], now)
      requires rules.Crypto().blockHash(header) !in db.state.headers
      modifies db
      ensures StoreOk() && Now() == old(Now()) && RulesKept()
      ensures db.state.blocks == old(db.state.blocks) && db.state.tip == old(db.state.tip)
      ensures Extends(old(db.state.headers), db.state.headers)
      ensures db.state.headers.Keys == old(db.state.headers.Keys) + {rules.Crypto().blockHash(header)}
      ensures db.state.headers[rules.Crypto().blockHash(header)].header == header
    {
      hide Sane, Held, Assumes, HighestReached, CheckpointsKept, PoolValid, Sound, TreeOk, ChainOf, HeaderTaken,
        NodeLookup, RulesHeld, Passes;
      ghost var was := db.state;
      var hash, prev := rules.Crypto().blockHash(header), db.state.headers[previous];
      SaneTree(rules, world, was);
      TakenPasses(rules, was, invalid, verifiedCheckpointHeight, header, previous, now);
      TakenHeight(rules, was, invalid, verifiedCheckpointHeight, header, previous, now);
      IndexHeader(rules, world, was, header);
      var work := prev.work + BlockWork(rules.params.engine, header);
      KnownIndexed(was, hash, header, work);
      db.state := db.state.(headers := db.state.headers[hash := IndexedHeader(header, work)]);
      RulesHeldAfter(rules, world, was, NodeLookup(db.state, map[]), header, hash, now, latest);
      HeldSame(rules.Crypto(), world, held, was, db.state);
      SaneTree(rules, world, db.state);
    }

    /**
     * A peer's headers: those up to the first that does not pass are indexed with their work, and nothing else
     * changes. Bodies are wanted exactly when all passed and the last outweighs the tip and is not stored, and more
     * headers exactly when all passed and the message was full.
     */
    method HandleHeaders(headers: seq<Header>, now: int, maxHeaders: nat)
      returns (wantBlocks: bool, wantMore: bool, ghost taken: nat)
      requires Valid({}) && forall i :: 0 <= i < |headers| ==> headers[i] in world.headers
      modifies db, this`latest
      ensures Valid({}) && Now() == old(Now()) && db.state.blocks == old(db.state.blocks)
      ensures Extends(old(db.state.headers), db.state.headers) && taken <= |headers|
      ensures IndexedBy(rules.Crypto(), headers[..taken], old(db.state), db.state.headers)
      ensures taken < |headers| && Before(rules.Crypto(), headers, taken) in db.state.headers ==>
        !HeaderTaken(rules, db.state, invalid, verifiedCheckpointHeight, headers[taken],
                     Before(rules.Crypto(), headers, taken), map[], now)
      ensures wantMore <==> 0 < |headers| == taken && maxHeaders <= |headers|
      ensures wantBlocks <==>
        0 < |headers| == taken && Outweighs(db.state, rules.Crypto().blockHash(headers[|headers| - 1]))
    {
      hide StoreOk, Now, Settled, QueueOk, Sane, Assumes, TreeOk, HeaderTaken, TraceOk, RulesKept, IsRun, IndexedBy;
      wantBlocks, wantMore, taken := false, false, 0;
      assert headers[..0] == [];
      NoneIndexed(rules.Crypto(), db.state);
      if |headers| == 0 {
        return;
      }
      ghost var was := db.state;
      TraceParts();
      Tick(now);
      var first := IndexedFor(headers[0].previousHash);
      StillTraced(old(Now()));
      Filling(rules.Crypto(), was, db.state.headers);
      if !first {
        return;
      }
      var all;
      all, taken := TakeAll(headers, now, was);
      StillTraced(old(Now()));
      if !all {
        return;
      }
      assert headers[..taken] == headers;
      StoreParts();
      SaneTree(rules, world, db.state);
      var last := rules.Crypto().blockHash(headers[|headers| - 1]);
      LastIndexed(rules.Crypto(), headers, was, db.state.headers);
      wantBlocks := IsBetterChain(db.state.headers[last].work, db.state.headers[db.state.tip.hash].work)
        && last !in db.state.blocks;
      wantMore := |headers| >= maxHeaders;
    }

    /** The loop over the headers of a message, up to the first that does not pass. */
    method TakeAll(headers: seq<Header>, now: int, ghost was: State) returns (all: bool, ghost taken: nat)
      requires StoreOk() && Settled(processed, invalid, db.state) && RulesKept() && now <= latest
      requires 0 < |headers| && forall i :: 0 <= i < |headers| ==> headers[i] in world.headers
      requires headers[0].previousHash in db.state.headers && Extends(was.headers, db.state.headers)
      requires IndexedBy(rules.Crypto(), [], was, db.state.headers)
      modifies db
      ensures StoreOk() && Now() == old(Now()) && Settled(processed, invalid, db.state) && RulesKept()
      ensures db.state.blocks == old(db.state.blocks) && db.state.tip == old(db.state.tip)
      ensures Extends(was.headers, db.state.headers) && taken <= |headers| && (all <==> taken == |headers|)
      ensures IndexedBy(rules.Crypto(), headers[..taken], was, db.state.headers)
      ensures Before(rules.Crypto(), headers, taken) in db.state.headers
      ensures !all ==>
        !HeaderTaken(rules, db.state, invalid, verifiedCheckpointHeight, headers[taken],
                     Before(rules.Crypto(), headers, taken), map[], now)
    {
      hide StoreOk, Now, Settled, HeaderTaken, RulesKept, IndexedBy, BatchOk;
      var previous, batch: Lookup := headers[0].previousHash, map[];
      NoBatch(db.state);
      assert headers[..0] == [];
      for i := 0 to |headers|
        invariant StoreOk() && Now() == old(Now()) && RulesKept() && Settled(processed, invalid, db.state)
        invariant db.state.blocks == old(db.state.blocks) && db.state.tip == old(db.state.tip)
        invariant Extends(was.headers, db.state.headers) && BatchOk(db.state, batch)
        invariant IndexedBy(rules.Crypto(), headers[..i], was, db.state.headers)
        invariant previous == Before(rules.Crypto(), headers, i) && previous in db.state.headers
      {
        ghost var before := db.state;
        var last;
        last, batch := TakeHeader(headers[i], previous, batch, now);
        StillSettled(before);
        ExtendsTrans(was.headers, before.headers, db.state.headers);
        if last.None? {
          return false, i;
        }
        IndexedMore(rules.Crypto(), headers, i, was, before.headers, db.state.headers);
        previous := last.value;
      }
      return true, |headers|;
    }

    lemma {:induction false} StillTraced(view: View)
      requires StoreOk() && IsRun(trace) && |trace| > 0 && trace[|trace| - 1] == view && Now() == view
      ensures TraceOk()
    {
    }

    /** Whether `hash` is in the index, filling it in from the stored blocks if need be. */
    method IndexedFor(hash: Hash) returns (found: bool)
      requires StoreOk() && Settled(processed, invalid, db.state) && RulesKept()
      modifies db
      ensures StoreOk() && Now() == old(Now()) && Settled(processed, invalid, db.state) && RulesKept()
      ensures db.state.blocks == old(db.state.blocks) && db.state.tip == old(db.state.tip)
      ensures Extends(old(db.state.headers), db.state.headers)
      ensures found <==> hash in db.state.headers
      ensures forall h :: h in db.state.headers ==> h in old(db.state.headers) || h in old(db.state.blocks)
    {
      hide Sane, Held, Assumes, HighestReached, CheckpointsKept, PoolValid, Sound, TreeOk, ChainOf, HashesBind,
        FromWorld, HeadersOk, NodeLookup, RulesHeld;
      ghost var was := db.state;
      SaneTree(rules, world, was);
      SaneParts(rules, world, was);
      var entry := GetIndexedHeader(rules.Crypto(), rules.params.engine, rules.Genesis(), db, hash, world);
      SaneHeaders(rules, world, was, db.state.headers);
      KnownFilled(rules, world, was, db.state);
      HeldSame(rules.Crypto(), world, held, was, db.state);
      SaneTree(rules, world, db.state);
      found := entry.Some?;
    }

    lemma {:induction false} StillSettled(before: State)
      requires StoreOk() && Settled(processed, invalid, before) && Extends(before.headers, db.state.headers)
      requires db.state.blocks == before.blocks && db.state.tip == before.tip
      ensures Settled(processed, invalid, db.state)
    {
      hide Sane, Held, Assumes, HighestReached, CheckpointsKept, PoolValid, Sound, TreeOk, ChainOf;
      SaneTree(rules, world, db.state);
      SettledGrows(processed, invalid, before, db.state);
    }

    /** Offers a transaction to the pool for the next block. */
    method SubmitTransaction(tx: Transaction) returns (a: Admission)
      requires StoreOk()
      modifies mempool
      ensures StoreOk() && Now() == old(Now())
      ensures a.Accepted?
              <==> Admissible(mempool.policy, rules.cfg.rules, db.state.utxo, old(mempool.pending), tx,
                db.state.tip.height + 1)
      ensures a.Accepted? ==> mempool.pending == MakeRoom(mempool.policy, old(mempool.pending), tx) + [tx]
      ensures a.Rejected? ==> mempool.pending == old(mempool.pending)
    {
      hide Sane, Held, Assumes, HighestReached, CheckpointsKept, PoolValid, TreeOk, Sound, Admissible, MakeRoom;
      OverlayNone(db.state.utxo);
      ghost var was := mempool.pending;
      a := mempool.AddTransaction(tx, db.state.tip.height + 1);
      if a.Accepted? && onlyExtended {
        AdmittedIsValid(mempool.policy, rules.cfg.rules, db.state.utxo, was, tx, db.state.tip.height + 1);
      }
    }

    /** A block to seal on the current tip, unless its target cannot be computed. */
    method BlockTemplate(now: int, miner: Address, txBytes: Transaction -> nat) returns (job: Job, t: Option<Template>)
      requires StoreOk()
      ensures job.crypto == rules.Crypto() && job.parent == db.state.blocks[db.state.tip.hash]
      ensures job.limits == rules.limits
      ensures job.reward == rules.policy.BlockReward(db.state.tip.height + 1) && job.miner == miner
      ensures t.Some? <==> TargetByWalk(rules.params, NodeLookup(db.state, map[]), job.parent.header).Some?
      ensures t.Some? ==> Fits(job, mempool.pending, t.value)
      ensures t.Some? ==> TargetByWalk(rules.params, NodeLookup(db.state, map[]), job.parent.header) == Some(job.target)
    {
      hide Sane, Held, Assumes, HighestReached, CheckpointsKept, PoolValid, TreeOk, Sound, Fits, TargetByWalk,
        NodeLookup;
      SaneTree(rules, world, db.state);
      var parent := db.state.blocks[db.state.tip.hash];
      var target := ExpectedTargetFor(rules.params, NodeLookup(db.state, map[]), parent.header);
      job := Job(rules.Crypto(), txBytes, parent, now, if target.Some? then target.value else 0, miner,
                 rules.policy.BlockReward(parent.header.height + 1), rules.limits);
      if target.None? {
        return job, None;
      }
      var built := BuildBlockTemplate(job, mempool);
      return job, Some(built);
    }

    /** A sealed block comes back: stale if the tip has moved, otherwise adopted if it connects. */
    method AdoptSealed(block: Block, ghost sealedAt: int) returns (outcome: Sealing)
      requires Valid({}) && block in world.blocks && BodyOk(rules.Crypto(), rules.policy, block)
      requires block.header.previousHash == db.state.tip.hash ==>
        Passes(rules, NodeLookup(db.state, map[]), block.header, block.hash, sealedAt)
      requires block.header.previousHash == db.state.tip.hash ==> RespellsNothing(block)
      modifies this`verifiedCheckpointHeight, this`onlyExtended, this`sealedAtCheckpoint, this`trace, this`latest,
        this`held
      modifies db, utxoSet, mempool
      ensures Valid({}) && Follows(old(Now()), Now()) && old(trace) <= trace
      ensures outcome.Stale? <==> block.header.previousHash != old(db.state.tip.hash)
      ensures outcome.Mined? <==>
        block.header.previousHash == old(db.state.tip.hash)
        && Replays(rules.cfg.rules, Canonical(rules, old(db.state)) + [block])
      ensures outcome.Mined? ==> db.state.tip.hash == block.hash
      ensures !outcome.Mined? ==> db.state == old(db.state)
      ensures sealedAtCheckpoint ==> old(sealedAtCheckpoint) || OffCheckpoint(rules.checkpoints, block)
    {
      hide StoreOk, Now, QueueOk, TraceOk, IsRun, RulesHeld, NodeLookup, Passes, Sane, Assumes, TreeOk, ChainOf,
        Follows, Settled, Replays, BodyOk, Candidate, AdoptedState, StateFor;
      ghost var was, view := db.state, Now();
      Unmoved();
      StoreParts();
      SaneTree(rules, world, was);
      if db.state.tip.hash != block.header.previousHash {
        return Stale;
      }
      Hold(block);
      TraceParts();
      Tick(sealedAt);
      StoreParts();
      SealedFits(rules, world, was, block, sealedAt);
      var ok := AdoptOnTip(block);
      if !ok {
        StillTraced(view);
        return Failed;
      }
      StoreParts();
      AdoptedKnown(rules, world, was, db.state, block);
      KeepRules(was, block, sealedAt);
      SettledAdopted(rules, world, was, db.state, processed, invalid, block);
      Note();
      return Mined;
    }

    /** Adopts a child of the tip. */
    method AdoptOnTip(block: Block) returns (ok: bool)
      requires StoreOk() && block in held && BodyOk(rules.Crypto(), rules.policy, block)
      requires Attaches(db.state.blocks, rules.Genesis(), block) && block.header.height >= 1
      requires block.header.previousHash == db.state.tip.hash
      modifies this`verifiedCheckpointHeight, this`onlyExtended, this`sealedAtCheckpoint, db, utxoSet, mempool
      ensures StoreOk() && Follows(old(Now()), Now())
      ensures ok <==> Replays(rules.cfg.rules, Canonical(rules, old(db.state)) + [block])
      ensures ok ==> db.state.tip.hash == block.hash && Adopted(rules, old(db.state), db.state, block)
      ensures !ok ==> db.state == old(db.state) && Now() == old(Now())
      ensures sealedAtCheckpoint ==> old(sealedAtCheckpoint) || OffCheckpoint(rules.checkpoints, block)
    {
      hide Sane, Held, Assumes, HighestReached, CheckpointsKept, PoolValid, TreeOk, ChainOf, Sound, Follows, Replays,
        AdoptedState, Candidate, BodyOk, Attaches, StateFor;
      ghost var was, view := db.state, Now();
      Unmoved();
      SaneTree(rules, world, was);
      HeldKnown(rules.Crypto(), world, held, was, block);
      ChildIsCandidate(rules, world, was, block);
      var work := db.state.headers[db.state.tip.hash].work + BlockWork(rules.params.engine, block.header);
      if !sealedAtCheckpoint {
        if OffCheckpoint(rules.checkpoints, block) {
          sealedAtCheckpoint := true;
        } else {
          KeptWith(rules.checkpoints, was, block);
        }
      }
      ghost var marked := Now();
      MarkedFollows(view, marked);
      ok := Adopt(block, work);
      if ok {
        FollowsTrans(view, marked, Now());
      } else {
        sealedAtCheckpoint := old(sealedAtCheckpoint);
      }
    }
  }

  /** A block at a checkpointed height that is not the checkpointed one. */
  predicate OffCheckpoint(cps: Checkpoints, b: Block) {
    b.header.height >= 0 && b.header.height in cps && b.hash != cps[b.header.height]
  }

  /** What adopting a child of the tip makes of blocks and index. */
  ghost predicate Adopted(r: Rules, s: State, t: State, b: Block) {
    && s.tip.hash in s.headers && t.blocks == BlocksWith(s, b)
    && t.headers == HeadersWith(s, b, s.headers[s.tip.hash].work + BlockWork(r.params.engine, b.header))
  }

  /** A sealed block whose header passes goes on top of the tip. */
  lemma {:induction false} SealedFits(r: Rules, w: World, s: State, b: Block, now: int)
    requires Assumes(r, w) && Sane(r, w, s) && b in w.blocks && BodyOk(r.Crypto(), r.policy, b)
    requires b.header.previousHash == s.tip.hash && Passes(r, NodeLookup(s, map[]), b.header, b.hash, now)
    requires !RespellsStored(r.Crypto(), s.blocks, b)
    ensures Attaches(s.blocks, r.Genesis(), b) && b.header.height >= 1
  {
    hide Sane, Held, Assumes, NodeLookup, BodyOk, Committed, Attaches, TargetByWalk, SignersByWalk;
    BodyCommits(r, b);
    SaneTree(r, w, s);
    LookupStored(r, w, s, s.tip.hash);
    ChildAttaches(r, w, s, b);
  }

  lemma {:induction false} AdoptedKnown(r: Rules, w: World, s: State, t: State, b: Block)
    requires Assumes(r, w) && Sane(r, w, s) && Sane(r, w, t) && Adopted(r, s, t, b)
    requires Attaches(s.blocks, r.Genesis(), b)
    ensures NodeLookup(t, map[]) == NodeLookup(s, map[])[b.hash := b.header]
  {
    hide Sane, Held, Assumes, NodeLookup, BlockWork;
    KnownAfter(r, w, s, t, b);
  }

  lemma {:induction false} OnlyNewGrows(s: State, t: State, b: Block)
    requires OnlyNew(s, t, b)
    ensures Grows(s.blocks, t.blocks) && Extends(s.headers, t.headers) && b.hash in t.blocks && t.blocks[b.hash] == b
  {
  }

  lemma {:induction false} SameKnown(s: State, t: State)
    requires s.blocks == t.blocks && s.headers == t.headers
    ensures NodeLookup(s, map[]) == NodeLookup(t, map[])
  {
  }

  lemma {:induction false} TakenHeight(
    r: Rules, s: State, invalid: set<Hash>, verified: int, header: Header, previous: Hash, now: int)
    requires previous in s.headers && HeaderTaken(r, s, invalid, verified, header, previous, map[], now)
    requires r.Crypto().blockHash(header) !in s.headers
    ensures header.height == s.headers[previous].header.height + 1
  {
    hide TargetByWalk, SignersByWalk, NodeLookup;
  }

  lemma {:induction false} LastIndexed(c: Crypto, headers: seq<Header>, was: State, after: Headers)
    requires 0 < |headers| && IndexedBy(c, headers, was, after)
    ensures c.blockHash(headers[|headers| - 1]) in after
  {
  }

  lemma {:induction false} NoDependents(
    g: seq<Group>, hashes: set<Hash>, stranded: set<Hash>, extra: set<Hash>, h: Hash)
    requires PoolOk(g, hashes, stranded + extra)
    ensures h !in Parents(g) ==> Dependents(g, h) == {}
  {
    hide PoolOk, Parents, Dependents, WellQueued;
    PoolQueued(g, hashes, stranded + extra);
    if h !in Parents(g) {
      NoneWait(g, h);
    }
  }

  lemma {:induction false} GroupFacts(g: seq<Group>, hashes: set<Hash>, extra: set<Hash>, h: Hash)
    requires PoolOk(g, hashes, extra)
    ensures Distinct(GroupOf(g, h)) && AllUnder(h, GroupOf(g, h))
  {
    hide Parents, WellQueued, Queued;
    GroupParts(g, h);
  }

  lemma {:induction false} GroupParts(g: seq<Group>, h: Hash)
    requires WellQueued(g)
    ensures Distinct(GroupOf(g, h)) && AllUnder(h, GroupOf(g, h))
  {
    hide GroupOk, Parents, Queued, Distinct, AllUnder, WellQueued;
    if |g| > 0 {
      SplitAt(g, 0);
      assert g[..0] + g[1..] == g[1..];
      GroupDistinct(g[0]);
      GroupParts(g[1..], h);
    } else {
      NothingUnder(h);
    }
  }

  lemma {:induction false} NothingUnder(h: Hash)
    ensures Distinct([]) && AllUnder(h, [])
  {
  }

  lemma {:induction false} NoneYet(bs: seq<Block>)
    ensures HashesOf(bs[..0]) == {}
  {
  }

  lemma {:induction false} NoneDecided(processed: set<Hash>, invalid: set<Hash>)
    ensures AllDecided([], processed, invalid)
  {
  }

  lemma {:induction false} NoneOut(looks: seq<Look>)
    ensures looks == [] ==> LastOut(looks) == {}
  {
  }

  /** The hash a header of the message comes after. */
  function Before(c: Crypto, headers: seq<Header>, i: nat): Hash
    requires 0 < |headers| && i <= |headers|
  {
    if i == 0 then headers[0].previousHash else c.blockHash(headers[i - 1])
  }

  /** Every one of `taken` is indexed, and nothing else is that was not indexed or stored before. */
  predicate IndexedBy(c: Crypto, taken: seq<Header>, was: State, headers: Headers) {
    && (forall i :: 0 <= i < |taken| ==> c.blockHash(taken[i]) in headers)
    && (forall h :: h in headers ==>
          h in was.headers || h in was.blocks || exists i :: 0 <= i < |taken| && h == c.blockHash(taken[i]))
  }

  lemma {:induction false} NoneIndexed(c: Crypto, s: State)
    ensures IndexedBy(c, [], s, s.headers)
  {
  }

  lemma {:induction false} Filling(c: Crypto, s: State, headers: Headers)
    requires forall h :: h in headers ==> h in s.headers || h in s.blocks
    ensures IndexedBy(c, [], s, headers)
  {
  }

  lemma {:induction false} NoBatch(s: State)
    ensures BatchOk(s, map[])
  {
  }

  lemma {:induction false} IndexedMore(
    c: Crypto, headers: seq<Header>, i: nat, was: State, before: Headers, after: Headers)
    requires i < |headers| && IndexedBy(c, headers[..i], was, before) && Extends(before, after)
    requires c.blockHash(headers[i]) in after && forall h :: h in after ==> h in before || h == c.blockHash(headers[i])
    ensures IndexedBy(c, headers[..i + 1], was, after)
  {
    var front, taken := headers[..i], headers[..i + 1];
    forall k | 0 <= k < |taken| ensures c.blockHash(taken[k]) in after {
      if k < i {
        assert taken[k] == front[k];
      }
    }
    forall h | h in after && h !in was.headers && h !in was.blocks
      ensures exists k :: 0 <= k < |taken| && h == c.blockHash(taken[k])
    {
      if h in before {
        var k :| 0 <= k < |front| && h == c.blockHash(front[k]);
        assert taken[k] == front[k];
      } else {
        assert taken[i] == headers[i];
      }
    }
  }

  /** Not stored, and heavier than the tip. */
  predicate Outweighs(s: State, h: Hash) {
    h !in s.blocks && h in s.headers && s.tip.hash in s.headers && s.headers[s.tip.hash].work < s.headers[h].work
  }

  /** What a step is measured against. */
  datatype Moment = Moment(
    view: View, blocks: Blocks, headers: Headers, trace: seq<View>, processed: set<Hash>, invalid: set<Hash>)

  /** Between two moments the view follows, and everything known only grew. */
  ghost predicate Passed(a: Moment, b: Moment) {
    && Follows(a.view, b.view) && Grows(a.blocks, b.blocks) && Extends(a.headers, b.headers)
    && a.trace <= b.trace && a.processed <= b.processed && a.invalid <= b.invalid
  }

  lemma {:induction false} PassedParts(a: Moment, b: Moment)
    requires Passed(a, b)
    ensures Follows(a.view, b.view) && Grows(a.blocks, b.blocks) && Extends(a.headers, b.headers)
    ensures a.processed <= b.processed && a.invalid <= b.invalid
  {
    hide Follows, Grows, Extends;
  }

  lemma {:induction false} PassedFrom(a: Moment, b: Moment)
    requires Follows(a.view, b.view) && Grows(a.blocks, b.blocks) && Extends(a.headers, b.headers)
    requires a.trace <= b.trace && a.processed <= b.processed && a.invalid <= b.invalid
    ensures Passed(a, b)
  {
    hide Follows, Grows, Extends;
  }

  lemma {:induction false} PassedTrans(a: Moment, b: Moment, c: Moment)
    requires Passed(a, b) && Passed(b, c)
    ensures Passed(a, c)
  {
    hide Follows, Grows, Extends;
    FollowsTrans(a.view, b.view, c.view);
    GrowsTrans(a.blocks, b.blocks, c.blocks);
    ExtendsTrans(a.headers, b.headers, c.headers);
  }

  /** The queue only lost blocks and groups. */
  predicate Fewer(g: seq<Group>, after: seq<Group>) {
    |after| <= |g| && Parents(after) <= Parents(g) && Waiting(after) <= Waiting(g)
  }

  lemma {:induction false} FewerSame(g: seq<Group>)
    ensures Fewer(g, g)
  {
    hide Parents, Waiting;
  }

  lemma {:induction false} FewerTrans(a: seq<Group>, b: seq<Group>, c: seq<Group>)
    requires Fewer(a, b) && Fewer(b, c)
    ensures Fewer(a, c)
  {
    hide Parents, Waiting;
  }

  lemma {:induction false} FewerCount(a: seq<Group>, b: seq<Group>)
    requires Fewer(a, b)
    ensures |b| <= |a|
  {
  }

  lemma {:induction false} FewerWaits(a: seq<Group>, b: seq<Group>)
    requires Fewer(a, b)
    ensures Waiting(b) <= Waiting(a)
  {
    hide Waiting, Parents;
  }

  /** No block twice, and none of them out or stranded already. */
  predicate Separated(bs: seq<Block>, extra: set<Hash>, stranded: set<Hash>) {
    Distinct(bs) && HashesOf(bs) !! extra && HashesOf(bs) !! stranded && stranded !! extra
  }

  lemma {:induction false} TakenAt(
    w: World, parent: Hash, bs: seq<Block>, extra: set<Hash>, stranded: set<Hash>, all: set<Block>, i: nat)
    requires TakenOut(w, parent, bs, extra, stranded, all) && i < |bs|
    ensures bs[i] in w.blocks && bs[i] in all && bs[i].header.previousHash == parent && Separated(bs, extra, stranded)
  {
    hide Separated;
  }

  /** Nothing waits for any of the blocks. */
  predicate Childless(bs: seq<Block>, g: seq<Group>) {
    forall k :: 0 <= k < |bs| ==> bs[k].hash !in Parents(g)
  }

  lemma {:induction false} ChildlessStill(bs: seq<Block>, g: seq<Group>, now: seq<Group>, i: nat)
    requires Childless(bs, g) && Fewer(g, now) && i < |bs|
    ensures bs[i].hash !in Parents(now)
  {
    hide Parents, Waiting;
  }

  lemma {:induction false} ChildlessFewer(bs: seq<Block>, g: seq<Group>, now: seq<Group>)
    requires Childless(bs, g) && Parents(now) <= Parents(g)
    ensures Childless(bs, now)
  {
    hide Parents;
  }

  lemma {:induction false} NoneSeen(bs: seq<Block>, p: set<Hash>, v: set<Hash>, extra: set<Hash>)
    ensures OnePerBlock([], bs, p, v, extra)
  {
  }

  lemma {:induction false} NoneToSee(r: Rules, now: int, p: set<Hash>, v: set<Hash>, extra: set<Hash>)
    ensures Orderly(r, [], now, [], p, v, extra)
  {
  }

  /** A group just taken out: known blocks under one parent, none of them out or stranded already. */
  ghost predicate TakenOut(
    w: World, parent: Hash, bs: seq<Block>, extra: set<Hash>, stranded: set<Hash>, all: set<Block>) {
    && 0 < |bs| && Separated(bs, extra, stranded)
    && forall i :: 0 <= i < |bs| ==> bs[i] in w.blocks && bs[i] in all && bs[i].header.previousHash == parent
  }

  /** What queueing a block makes of the groups: nothing if its hash counts as waiting already. */
  predicate Joined(g: seq<Group>, hashes: set<Hash>, b: Block, after: seq<Group>) {
    if b.hash in hashes then after == g
    else if |hashes| < MAX_ORPHANS then after == Enqueued(g, b)
    else 0 < |Enqueued(g, b)| && after == Enqueued(g, b)[1..]
  }

  /** What a rejection marks, and what is left of the queue. */
  ghost predicate Purged(g: seq<Group>, h: Hash, invalid: set<Hash>, invalid': set<Hash>, after: seq<Group>) {
    && invalid' == invalid + {h} + Dependents(g, h)
    && after == Without(g, {h} + Dependents(g, h))
  }

  /** The first block of a group is looked at while the others are out. */
  ghost predicate FirstLook(l: Look, bs: seq<Block>, processed: set<Hash>, invalid: set<Hash>, extra: set<Hash>) {
    && |bs| > 0 && l.block == bs[0] && l.out == extra + HashesOf(bs[1..])
    && l.processed == processed && l.invalid == invalid
  }

  /** The first of a group is undecided and claims a height that no block above genesis has. */
  predicate LowFirst(bs: seq<Block>, processed: set<Hash>, invalid: set<Hash>) {
    0 < |bs| && bs[0].header.height < 1 && Undecided(processed, invalid, bs[0])
  }

  lemma {:induction false} LowFirstStops(
    r: Rules, w: World, looks: seq<Look>, now: int, stranded: set<Hash>, waiting: set<Block>, bs: seq<Block>,
    processed: set<Hash>, invalid: set<Hash>)
    requires Assumes(r, w) && Looked(r, w, looks, now, {}, stranded, waiting) && r.checkpoints == map[]
    requires |looks| > 0 && FirstLook(looks[0], bs, processed, invalid, {}) && LowFirst(bs, processed, invalid)
    ensures Stopped(r, looks, now) && LastOut(looks) == HashesOf(bs[1..])
  {
    hide Assumes, LookOk, Faults, HashesOf;
    NoCheckpointRules(r, w, looks[0]);
    LookFaults(r, w, looks[0], now);
    assert |looks| == 1;
  }

  lemma {:induction false} InOrder(
    r: Rules, w: World, looks: seq<Look>, now: int, stranded: set<Hash>, waiting: set<Block>, after: set<Hash>,
    bs: seq<Block>, p: set<Hash>, v: set<Hash>, parent: Hash)
    requires Assumes(r, w) && Looked(r, w, looks, now, {}, stranded, waiting) && r.checkpoints == map[]
    requires after == stranded + if Stopped(r, looks, now) then LastOut(looks) - {} else {}
    requires Orderly(r, looks, now, bs, p, v, {}) && Distinct(bs) && AllUnder(parent, bs) && parent in p
    ensures after == stranded <==> LowOnlyLast(bs, p, v)
  {
    hide Assumes, Looked, Stopped, LastOut, Orderly, Distinct, AllUnder, LowOnlyLast;
    assert LastOut(looks) - {} == LastOut(looks);
    OrderlyStrands(r, w, looks, now, stranded, waiting, after, bs, p, v, parent);
  }

  lemma {:induction false} WhatIsStranded(
    r: Rules, w: World, looks: seq<Look>, now: int, stranded: set<Hash>, waiting: set<Block>, after: set<Hash>,
    bs: seq<Block>, processed: set<Hash>, invalid: set<Hash>, connected: bool)
    requires Assumes(r, w) && Looked(r, w, looks, now, {}, stranded, waiting)
    requires after == stranded + if Stopped(r, looks, now) then LastOut(looks) - {} else {}
    requires connected && 0 < |bs| ==> |looks| > 0 && FirstLook(looks[0], bs, processed, invalid, {})
    ensures after == stranded <==> forall k :: 0 <= k < |looks| && Faults(r, looks[k], now) ==> looks[k].out == {}
    ensures (forall b :: b in waiting ==> b.header.height >= 1) ==> after == stranded && !Stopped(r, looks, now)
    ensures connected && r.checkpoints == map[] && LowFirst(bs, processed, invalid) ==>
      Stopped(r, looks, now) && after == stranded + HashesOf(bs[1..])
  {
    hide Assumes, Looked, Faults, HashesOf, Stopped, LastOut, FirstLook, Undecided;
    assert LastOut(looks) - {} == LastOut(looks);
    StrandsExactly(r, w, looks, now, stranded, waiting, after);
    if forall b :: b in waiting ==> b.header.height >= 1 {
      HighBlocksAreSafe(r, w, looks, now, {}, stranded, waiting);
    }
    if connected && r.checkpoints == map[] && LowFirst(bs, processed, invalid) {
      LowFirstStops(r, w, looks, now, stranded, waiting, bs, processed, invalid);
    }
  }

  lemma {:induction false} LookIsFirst(l: Look, bs: seq<Block>, extra: set<Hash>)
    requires |bs| > 0 && l.block == bs[0] && l.out == StillOut(extra, bs, 1)
    ensures FirstLook(l, bs, l.processed, l.invalid, extra)
  {
  }

  lemma {:induction false} OutIs(extra: set<Hash>, bs: seq<Block>, i: nat)
    requires i <= |bs|
    ensures StillOut(extra, bs, i) == extra + HashesOf(bs[i..])
  {
  }

  lemma {:induction false} IsLook(r: Rules, w: World, l: Look, now: int)
    requires Sane(r, w, l.s) && l.block.header.previousHash in l.s.blocks
    requires l.s.blocks[l.block.header.previousHash].header.height >= 1
    requires HighestReached(r.checkpoints, Canonical(r, l.s), l.verified)
    ensures LookOk(r, w, l)
    ensures Faults(r, l, now) <==> Judge(r, l.s, l.processed, l.invalid, l.verified, l.block, now).Fault?
  {
    hide Sane, Held, Judge, HighestReached;
  }

  lemma {:induction false} LookedOut(
    r: Rules, w: World, looks: seq<Look>, now: int, extra: set<Hash>, stranded: set<Hash>, waiting: set<Block>)
    requires Looked(r, w, looks, now, extra, stranded, waiting)
    ensures |looks| > 0 ==> extra <= LastOut(looks)
  {
    hide LookOk, Faults;
  }

  lemma {:induction false} RunPush(trace: seq<View>, v: View)
    requires IsRun(trace) && |trace| > 0 && Follows(trace[|trace| - 1], v)
    ensures IsRun(trace + [v])
  {
    hide Follows;
  }

  lemma {:induction false} BodyCommits(r: Rules, b: Block)
    requires BodyOk(r.Crypto(), r.policy, b)
    ensures Committed(r.Crypto(), b)
  {
  }

  lemma {:induction false} GroupDistinct(g: Group)
    requires GroupOk(g)
    ensures 0 < |g.blocks| && Distinct(g.blocks) && AllUnder(g.parent, g.blocks)
  {
  }

  /** A tip change that disconnects nothing keeps the surviving pool valid. */
  lemma {:induction false} PoolAfterExtension(
    r: Rules, oldChain: seq<Block>, chain: seq<Block>, connected: seq<Block>, disconnected: seq<Block>, fork: nat,
    p: seq<Transaction>)
    requires ForkAt(oldChain, chain, fork) && connected == chain[fork..] && IsReversed(disconnected, oldChain[fork..])
    requires disconnected == [] && DistinctIds(Steps(chain))
    requires PoolValid(r.cfg.rules, UtxoOf(oldChain), p, |oldChain|)
    ensures PoolValid(r.cfg.rules, UtxoOf(chain), Surviving(p, connected), |chain|)
  {
    hide PoolValid, UtxoOf, Steps, DistinctIds, Surviving;
    assert oldChain[..fork] == oldChain;
    assert chain == oldChain + connected;
    SurvivorsStayValid(r.cfg.rules, oldChain, connected, p, |oldChain|);
  }

  /** What fork choice did with a block still holds after more blocks have followed. */
  lemma {:induction false} ChosenStays(
    r: Rules, s: State, b: Block, before: View, headers: Headers, after: View, more: Headers, later: View,
    rejected: bool)
    requires Chosen(r, s, b, before, headers, after, false) && Extends(headers, more) && Follows(after, later)
    requires BranchReplays(r, s, b) || headers[b.hash].work <= before.work
    ensures Chosen(r, s, b, before, more, later, rejected)
  {
    hide BranchReplays;
  }

  lemma {:induction false} GrowsAt(a: Blocks, b: Blocks, h: Hash)
    requires Grows(a, b) && h in a
    ensures h in b && b[h] == a[h]
  {
  }

  lemma {:induction false} JudgeSays(
    r: Rules, s: State, processed: set<Hash>, invalid: set<Hash>, verified: int, b: Block, now: int)
    ensures Judge(r, s, processed, invalid, verified, b, now).NoParent? ==> b.header.previousHash !in s.blocks
    ensures Judge(r, s, processed, invalid, verified, b, now).Known? <==> b.hash in processed || b.hash in invalid
  {
    hide TargetByWalk, ContextFor, SoundBody, ValidateHeader, NodeLookup;
  }

  lemma {:induction false} RejectedSettled(
    processed: set<Hash>, invalid: set<Hash>, s: State, processed': set<Hash>, invalid': set<Hash>, h: Hash)
    requires Settled(processed, invalid + {h}, s) && h in invalid' && processed' - invalid' <= processed - invalid
    ensures Settled(processed', invalid', s)
  {
    SettledFewer(processed, invalid + {h}, s, processed', invalid');
  }

  datatype Sealing = Stale | Failed | Mined

  /** Noting that a sealed block sits at a checkpoint changes nothing that is seen. */
  lemma {:induction false} MarkedFollows(a: View, b: View)
    requires Follows(a, a) && b == a.(sealedAtCheckpoint := b.sealedAtCheckpoint)
    requires (a.sealedAtCheckpoint ==> b.sealedAtCheckpoint)
    ensures Follows(a, b)
  {
  }

  lemma {:induction false} SettledAdopted(
    r: Rules, w: World, s: State, t: State, processed: set<Hash>, invalid: set<Hash>, b: Block)
    requires Settled(processed, invalid, s) && Assumes(r, w) && Sane(r, w, s) && Sane(r, w, t) && b in w.blocks
    requires t.tip.hash == b.hash && Adopted(r, s, t, b) && Attaches(s.blocks, r.Genesis(), b)
    requires BodyOk(r.Crypto(), r.policy, b) && b.header.previousHash == s.tip.hash
    ensures Settled(processed, invalid, t)
  {
    hide Sane, Held, Assumes, HeadersOk, BodyOk, BlockWork, Attaches;
    ChildIsCandidate(r, w, s, b);
    SaneTree(r, w, t);
    GrowsWith(r.Genesis(), s, b);
    SettledGrows(processed, invalid, s, t);
  }

  lemma {:induction false} AdmittedIsValid(
    policy: Policy, r: SpendRules, u: Utxos, p: seq<Transaction>, tx: Transaction, height: int)
    requires PoolValid(r, u, p, height) && Admissible(policy, r, u, p, tx, height)
    ensures PoolValid(r, u, MakeRoom(policy, p, tx) + [tx], height)
  {
    hide PoolValid, ValidTx, PaysForConflicts, OutbidsLowest;
    var kept := Pool.Dropping(p, Pool.Conflicts(p, tx));
    FewerStayValid(r, u, p, Pool.Conflicts(p, tx), height);
    if Full(policy, kept) && 0 < |kept| {
      FewerStayValid(r, u, kept, {kept[LowestFee(kept)].id}, height);
    }
    OneMoreIsValid(r, u, MakeRoom(policy, p, tx), tx, height);
  }

  lemma {:induction false} FewerStayValid(r: SpendRules, u: Utxos, p: seq<Transaction>, ids: set<Hash>, height: int)
    requires PoolValid(r, u, p, height)
    ensures PoolValid(r, u, Pool.Dropping(p, ids), height)
  {
    hide ValidTx;
    var q := Pool.Dropping(p, ids);
    forall k | 0 <= k < |q| ensures !q[k].IsCoinbase() && ValidTx(r, u, q[k], height) {
      var i := DroppingMember(p, ids, k);
    }
  }

  lemma {:induction false} OneMoreIsValid(r: SpendRules, u: Utxos, p: seq<Transaction>, tx: Transaction, height: int)
    requires PoolValid(r, u, p, height) && !tx.IsCoinbase() && ValidTx(r, u, tx, height)
    ensures PoolValid(r, u, p + [tx], height)
  {
    hide ValidTx;
  }
}
