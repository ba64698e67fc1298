/**
 * A run in which an exception strands a waiting block (src/node/node.ts:1479-1488,
 * src/consensus/monetary.ts:60-63): two blocks wait for a third, the first of them claims height 0, and then the
 * third arrives.
 */
module Stranding {

  import opened Ledger
  import opened Store
  import opened UtxoSets
  import opened Chain
  import opened Tree
  import opened Consensus
  import opened HeaderWalk
  import opened Branches
  import opened Mempools
  import opened Orphans
  import opened NodeState
  import opened Arrivals
  import opened IndexedPaths
  import opened Looks
  import opened Minting
  import opened Nodes

  lemma {:induction false} OnlyGenesis(s: State, g: Block)
    requires s.blocks == map[g.hash := g] && s.headers.Keys == {g.hash} && s.headers[g.hash].header == g.header
    ensures NodeLookup(s, map[]) == map[g.hash := g.header]
  {
  }

  lemma {:induction false} PlainKnown()
    ensures RulesHeld(PlainRules().params, NodeLookup(FirstState(PlainRules(), PlainGenesis()), map[]), 0)
  {
    hide RulesHeld, StateFor, NodeLookup;
    var r, g := PlainRules(), PlainGenesis();
    var s := FirstState(r, g);
    StateForHolds(r.cfg, map[g.hash := g], map[g.hash := IndexedHeader(g.header, BlockWork(r.params.engine, g.header))],
      [g]);
    OnlyGenesis(s, g);
    RulesHeldFirst(r.params, g.header, 0);
  }

  /** A block whose parent is not stored waits. */
  lemma {:induction false} PlainWaits(b: Block, now: int)
    requires b == LowBlock() || b == LateBlock()
    ensures Judge(PlainRules(), FirstState(PlainRules(), PlainGenesis()), {}, {}, -1, b, now).NoParent?
  {
    hide UtxoOf, HeightsOf, TargetByWalk, NodeLookup;
    var s := FirstState(PlainRules(), PlainGenesis());
    assert s.blocks == map[0 := PlainGenesis()];
  }

  lemma {:induction false} BothWait()
    ensures Enqueued([], LowBlock()) == [Group(1, [LowBlock()])]
    ensures Enqueued([Group(1, [LowBlock()])], LateBlock()) == [Group(1, [LowBlock(), LateBlock()])]
    ensures HashesOf([LowBlock()]) == {2} && HashesOf([LowBlock(), LateBlock()][1..]) == {3}
    ensures Queued([Group(1, [LowBlock()])]) == {2}
    ensures GroupOf([Group(1, [LowBlock(), LateBlock()])], 1) == [LowBlock(), LateBlock()]
  {
    LoneBlock(LowBlock());
    LoneBlock(LateBlock());
    OneGroup(Group(1, [LowBlock()]));
    assert [LowBlock(), LateBlock()][1..] == [LateBlock()];
    assert [LowBlock()] + [LateBlock()] == [LowBlock(), LateBlock()];
  }

  lemma {:induction false} NoneVerified(chain: seq<Block>, v: int)
    requires HighestReached(map[], chain, v)
    ensures v == -1
  {
  }

  lemma {:induction false} WaitingIs(g: seq<Group>, hashes: set<Hash>, extra: set<Hash>)
    requires PoolOk(g, hashes, extra)
    ensures hashes == Queued(g) + extra && Queued(g) !! extra
  {
  }

  /** What the run needs to know of a valid node. */
  lemma {:induction false} Seen(node: Node)
    requires node.Valid({}) && node.rules == PlainRules()
    ensures node.verifiedCheckpointHeight == -1
    ensures node.orphanHashes == Queued(node.orphans) + node.stranded && Queued(node.orphans) !! node.stranded
  {
    hide Sane, Assumes, PoolOk, Queued, QueueKnown, TreeOk, ChainOf, HighestReached, CheckpointsKept, PlainGenesis;
    node.StoreParts();
    SaneTree(node.rules, node.world, node.db.state);
    NoneVerified(Canonical(node.rules, node.db.state), node.verifiedCheckpointHeight);
    assert node.stranded + {} == node.stranded;
    WaitingIs(node.orphans, node.orphanHashes, node.stranded);
  }

  /** A node on its first store, with `queue` waiting and nothing decided. */
  ghost predicate Waits(node: Node, queue: seq<Group>)
    reads node, node.db, node.utxoSet, node.mempool
  {
    && node.Valid({}) && node.rules == PlainRules() && node.world == PlainWorld()
    && node.db.state == FirstState(PlainRules(), PlainGenesis()) && node.processed == {} && node.invalid == {}
    && node.orphans == queue && node.stranded == {}
  }

  /** A block without transactions is committed to by no header, so it respells nothing. */
  lemma {:induction false} EmptyRespellsNothing(node: Node, block: Block)
    requires block == LowBlock() || block == LateBlock()
    ensures node.RespellsNothing(block)
  {
    hide Waiting;
  }

  lemma {:induction false} WaitingEmpty(g: seq<Group>, b: Block)
    requires g == [Group(1, [LowBlock(), LateBlock()])] && b in Waiting(g)
    ensures b == LowBlock() || b == LateBlock()
  {
    hide LowBlock, LateBlock;
    WaitingOne(g[0]);
    var i := SetMember(g[0].blocks, b);
  }

  lemma {:induction false} GreedyRespellsNothing(node: Node)
    requires node.orphans == [Group(1, [LowBlock(), LateBlock()])] && node.rules == PlainRules()
    requires node.db.state == FirstState(PlainRules(), PlainGenesis())
    ensures node.RespellsNothing(GreedyBlock())
  {
    hide Waiting, FirstState, RespellsStored;
    GreedyIsNew();
    forall b | b in Waiting(node.orphans) ensures !Respells(PlainRules().Crypto(), b, GreedyBlock()) {
      WaitingEmpty(node.orphans, b);
    }
  }

  method Start() returns (node: Node)
    ensures fresh(node) && fresh(node.db) && fresh(node.utxoSet) && fresh(node.mempool) && Waits(node, [])
  {
    PlainAssumes();
    PlainStart();
    PlainKnown();
    hide Sane, Assumes, FirstState, RulesHeld, NodeLookup, PlainRules, PlainGenesis, PlainWorld;
    var db := new Db(FirstState(PlainRules(), PlainGenesis()));
    node := new Node(PlainRules(), db, Policy(None, 0, 0), PlainWorld(), 0);
  }

  /** One more block for the queue. */
  method Wait(node: Node, block: Block, now: int)
    requires Waits(node, node.orphans) && (block == LowBlock() || block == LateBlock())
    requires block.hash !in Queued(node.orphans) && |Queued(node.orphans)| < MAX_ORPHANS
    modifies node, node.db, node.utxoSet, node.mempool
    ensures Waits(node, Enqueued(old(node.orphans), block))
  {
    Seen(node);
    InPlainWorld();
    PlainWaits(block, now);
    EmptyRespellsNothing(node, block);
    hide Sane, Assumes, FirstState, PlainRules, PlainGenesis, PlainWorld, LowBlock, LateBlock, Judge, Queued,
      Enqueued, Looked, BranchReplays, GroupOf, HashesOf, Childless, LowOnlyLast, LowFirst, Stopped, Faults,
      Passed, Node.RespellsNothing;
    assert node.orphanHashes == Queued(node.orphans);
    var arrival, thrown, looks := node.ReceiveBlock(block, now);
  }

  /** The late block's hash ends up known as waiting while no group holds it, so it is never queued again. */
  method StrandingRun(now: int) returns (node: Node)
    requires 2 <= now
    ensures node.Valid({}) && node.stranded == {LateBlock().hash}
    ensures LateBlock().hash in node.orphanHashes && LateBlock().hash !in Queued(node.orphans)
  {
    BothWait();
    InPlainWorld();
    node := Start();
    Wait(node, LowBlock(), now);
    Wait(node, LateBlock(), now);
    Strand(node, now);
  }

  /** The parent arrives. */
  method Strand(node: Node, now: int)
    requires Waits(node, [Group(1, [LowBlock(), LateBlock()])]) && 2 <= now
    modifies node, node.db, node.utxoSet, node.mempool
    ensures node.Valid({}) && node.stranded == {LateBlock().hash}
    ensures LateBlock().hash in node.orphanHashes && LateBlock().hash !in Queued(node.orphans)
  {
    BothWait();
    InPlainWorld();
    Seen(node);
    PlainAssumes();
    PlainStart();
    PlainAccepts(now);
    FirstTip();
    LowIsFirst();
    GreedyRespellsNothing(node);
    GreedyIsNew();
    AcceptedCoinbaseMints(PlainRules(), PlainWorld(), node.db.state, {}, {}, -1, GreedyBlock(), now);
    hide Sane, Assumes, FirstState, PlainRules, PlainGenesis, PlainWorld, LowBlock, LateBlock, Judge, Queued,
      Enqueued, Looked, BranchReplays, GroupOf, HashesOf, GreedyBlock, Childless, LowOnlyLast, Stopped, Faults,
      Passed, Node.RespellsNothing;
    var arrival, thrown, looks := node.ReceiveBlock(GreedyBlock(), now);
    Seen(node);
  }

  lemma {:induction false} FirstTip()
    ensures FirstState(PlainRules(), PlainGenesis()).tip.hash == 0
  {
    hide UtxoOf, HeightsOf;
  }

  lemma {:induction false} InPlainWorld()
    ensures LowBlock() in PlainWorld().blocks && LateBlock() in PlainWorld().blocks
    ensures GreedyBlock() in PlainWorld().blocks
    ensures GreedyBlock().hash == 1 && LowBlock().hash == 2 && LateBlock().hash == 3
    ensures |GreedyBlock().transactions| == 1
    ensures GreedyBlock().header.previousHash == 0 && PlainRules().checkpoints == map[]
  {
  }

  lemma {:induction false} GreedyIsNew()
    ensures !RespellsStored(PlainCrypto(), FirstState(PlainRules(), PlainGenesis()).blocks, GreedyBlock())
  {
    hide StateFor;
    var r, g := PlainRules(), PlainGenesis();
    StateForHolds(r.cfg, map[g.hash := g], map[g.hash := IndexedHeader(g.header, BlockWork(r.params.engine, g.header))],
      [g]);
  }

  lemma {:induction false} LowIsFirst()
    ensures LowFirst([LowBlock(), LateBlock()], {} + {GreedyBlock().hash}, {})
  {
  }
}
