/** How the node judges an arriving block before it changes anything (src/node/node.ts:1345-1389). */
module Arrivals {

  import opened Ledger
  import opened Store
  import opened Tree
  import opened Consensus
  import opened HeaderChain
  import opened HeaderIndex
  import opened HeaderWalk
  import opened BlockRules
  import opened Supply
  import opened Branches
  import opened Adoption
  import opened Pool
  import opened NodeState

  /** `Fault` is an exception on the way, which leaves the block to be looked at again. */
  datatype Arrival = Known | OnInvalid | NoParent | Refused | Fault | Accepted

  /** Where the node finds ancestors: the batch shadows the index, and the index shadows the stored blocks. */
  function NodeLookup(s: State, batch: Lookup): Lookup {
    (map h | h in s.blocks :: s.blocks[h].header) + (map h | h in s.headers :: s.headers[h].header) + batch
  }

  function CheckpointFor(cps: Checkpoints, height: int): Option<Hash> {
    if height >= 0 && height in cps then Some(cps[height]) else None
  }

  function ContextFor(
    r: Rules, lookup: Lookup, parent: Header, parentHash: Hash, height: int, target: nat, now: int): HeaderContext {
    HeaderContext(parent, parentHash, target, now, r.params.maxFutureDriftMs, CheckpointFor(r.checkpoints, height),
                  SignersByWalk(lookup, LookupHeader(lookup, parentHash), r.params.engine.RecentSignerWindow()))
  }

  function Judge(
    r: Rules, s: State, processed: set<Hash>, invalid: set<Hash>, verified: int, b: Block, now: int): Arrival {
    if b.hash in processed || b.hash in invalid then Known
    else if b.header.previousHash in invalid then OnInvalid
    else if b.header.previousHash !in s.blocks then NoParent
    else if ConflictsWithVerified(verified, s.heights, b.header.height, b.hash) then Refused else
    var parent := s.blocks[b.header.previousHash];
    var lookup := NodeLookup(s, map[]);
    var target := TargetByWalk(r.params, lookup, parent.header);
    if target.None? || b.header.height < 1 then Fault else
    var ctx := ContextFor(r, lookup, parent.header, parent.hash, b.header.height, target.value, now);
    if ValidateHeader(r.Crypto(), r.params.engine, b.header, b.hash, ctx) == Valid
       && SoundBody(r.Crypto(), b, r.policy.BlockReward(b.header.height), r.limits)
    then Accepted else Refused
  }

  method JudgeBlock(
    r: Rules, s: State, processed: set<Hash>, invalid: set<Hash>, verified: int, b: Block, now: int)
    returns (a: Arrival)
    ensures a == Judge(r, s, processed, invalid, verified, b, now)
  {
    hide TargetByWalk, SignersByWalk, SoundBody, ValidateHeader, NodeLookup;
    if b.hash in processed || b.hash in invalid {
      return Known;
    }
    if b.header.previousHash in invalid {
      return OnInvalid;
    }
    if b.header.previousHash !in s.blocks {
      return NoParent;
    }
    var parent := s.blocks[b.header.previousHash];
    if ConflictsWithVerified(verified, s.heights, b.header.height, b.hash) {
      return Refused;
    }
    var lookup := NodeLookup(s, map[]);
    var target := ExpectedTargetFor(r.params, lookup, parent.header);
    if target.None? || b.header.height < 1 {
      return Fault;
    }
    var signers := RecentSignersFor(r.params, lookup, parent.hash);
    var ctx := HeaderContext(parent.header, parent.hash, target.value, now, r.params.maxFutureDriftMs,
                             CheckpointFor(r.checkpoints, b.header.height), signers);
    var valid := ValidateBlock(r.Crypto(), r.params.engine, b, ctx, r.policy.BlockReward(b.header.height), r.limits);
    return if valid then Accepted else Refused;
  }

  lemma {:induction false} GenesisStored(blocks: Blocks, genesis: Hash, h: Hash)
    requires TreeOk(blocks, genesis) && h in blocks
    ensures genesis in blocks && blocks[genesis].header.height == 0
  {
    ChainShape(blocks, genesis, h);
    ChainPrefix(blocks, genesis, h, 0);
  }

  lemma {:induction false} SeparateIds(txs: seq<Transaction>, i: nat, j: nat)
    requires Separate(txs) && i < j < |txs|
    ensures txs[i].id != txs[j].id
  {
    if j < |txs| - 1 {
      SeparateIds(txs[..|txs| - 1], i, j);
    } else {
      InIds(txs[..j], i);
    }
  }

  /** A body that passes the rules is the one its header commits to. */
  lemma {:induction false} SoundIsCommitted(c: Crypto, b: Block, reward: int, limits: Limits)
    requires SoundBody(c, b, reward, limits)
    ensures Committed(c, b)
  {
    hide Separate;
    forall i, j | 0 <= i < j < |b.transactions| ensures b.transactions[i].id != b.transactions[j].id {
      SeparateIds(b.transactions, i, j);
    }
  }

  /** The block comes under a stored hash with another body that the header commits to. */
  predicate RespellsStored(c: Crypto, blocks: Blocks, b: Block) {
    b.hash in blocks && Respells(c, blocks[b.hash], b)
  }

  /** A child of a stored block fits into the store, unless it respells a stored one. */
  lemma {:induction false} ChildAttaches(r: Rules, w: World, s: State, b: Block)
    requires Assumes(r, w) && Sane(r, w, s) && b in w.blocks && Committed(r.Crypto(), b)
    requires b.header.previousHash in s.blocks && !RespellsStored(r.Crypto(), s.blocks, b)
    requires b.header.height == s.blocks[b.header.previousHash].header.height + 1
    ensures Attaches(s.blocks, r.Genesis(), b) && b.header.height >= 1
  {
    hide Consistent, HeadersOk, BodiesOk, IdsBind, HashesBind, FromWorld, Committed;
    SaneTree(r, w, s);
    StoredAt(s.blocks, r.Genesis(), b.header.previousHash);
    if b.hash in s.blocks {
      StoredAt(s.blocks, r.Genesis(), b.hash);
      StoredCommits(r, s, b.hash);
    }
    BlockHeader(r.Crypto(), w, b);
    NotGenesis(r, w, s, b.header);
  }

  lemma {:induction false} StoredCommits(r: Rules, s: State, h: Hash)
    requires BodiesOk(r.Crypto(), r.policy, s.blocks) && h in s.blocks
    ensures Committed(r.Crypto(), s.blocks[h])
  {
    assert BodyOk(r.Crypto(), r.policy, s.blocks[h]);
  }

  lemma {:induction false} StoredKnown(w: World, s: State, h: Hash)
    requires FromWorld(w, s) && h in s.blocks
    ensures s.blocks[h] in w.blocks
  {
  }

  /** What being accepted says about a block. */
  lemma {:induction false} AcceptedFacts(
    r: Rules, w: World, s: State, processed: set<Hash>, invalid: set<Hash>, verified: int, b: Block, now: int)
    requires Assumes(r, w) && Sane(r, w, s) && b in w.blocks && !RespellsStored(r.Crypto(), s.blocks, b)
    requires Judge(r, s, processed, invalid, verified, b, now) == Accepted
    ensures Attaches(s.blocks, r.Genesis(), b) && BodyOk(r.Crypto(), r.policy, b) && b.hash !in processed
    ensures b.hash !in invalid
    ensures !ConflictsWithVerified(verified, s.heights, b.header.height, b.hash)
    ensures b.header.height >= 1 && (b.header.height in r.checkpoints ==> b.hash == r.checkpoints[b.header.height])
  {
    hide Sane, Assumes, TargetByWalk, SignersByWalk, SoundBody, NodeLookup, Committed;
    SoundIsWithin(r.Crypto(), b, r.policy.BlockReward(b.header.height), r.limits);
    SoundIsCommitted(r.Crypto(), b, r.policy.BlockReward(b.header.height), r.limits);
    SaneTree(r, w, s);
    StoredAt(s.blocks, r.Genesis(), b.header.previousHash);
    ChildAttaches(r, w, s, b);
  }

  // ---------------------------------------------------------------- when judging raises

  lemma {:induction false} LookupStored(r: Rules, w: World, s: State, h: Hash)
    requires Assumes(r, w) && Sane(r, w, s) && h in s.blocks
    ensures LookupHeader(NodeLookup(s, map[]), h) == Some(s.blocks[h].header)
  {
    hide Consistent, HeadersOk, BodiesOk, IdsBind, HashesBind, FromWorld;
    SaneTree(r, w, s);
    if h in s.headers {
      ViewsAgree(r.Crypto(), r.params.engine, w, r.Genesis(), s, h);
    }
  }

  /** In the node's store every ancestor of a stored block is found. */
  lemma {:induction false} BehindStored(r: Rules, w: World, s: State, h: Hash, k: nat)
    requires Assumes(r, w) && Sane(r, w, s) && h in s.blocks && k <= s.blocks[h].header.height
    ensures var ancestor := Behind(NodeLookup(s, map[]), s.blocks[h].header, k);
            ancestor.Some? && ancestor.value.height == s.blocks[h].header.height - k
    decreases k
  {
    hide Sane, Assumes, NodeLookup;
    SaneTree(r, w, s);
    StoredAt(s.blocks, r.Genesis(), h);
    if k > 0 {
      var p := s.blocks[h].header.previousHash;
      LookupStored(r, w, s, p);
      BehindStored(r, w, s, p, k - 1);
    }
  }

  /** Block 1 under an interval of one block has no earlier block to measure from. */
  predicate NoPeriod(p: Params, parent: Header) {
    p.engine.Retargets() && p.retarget.interval == 1 && parent.height == 0
  }

  lemma {:induction false} RetargetsAfterGenesis(p: Params)
    ensures RetargetsAt(p.engine, 1, p.retarget.interval) <==> p.engine.Retargets() && p.retarget.interval == 1
  {
    if p.retarget.interval > 1 {
      assert 1 % p.retarget.interval == 1;
    }
  }

  /** The target after a stored block is computable unless that block is genesis and every block retargets. */
  lemma {:induction false} TargetExactly(r: Rules, w: World, s: State, h: Hash)
    requires Assumes(r, w) && Sane(r, w, s) && h in s.blocks
    ensures TargetByWalk(r.params, NodeLookup(s, map[]), s.blocks[h].header).None? <==>
      NoPeriod(r.params, s.blocks[h].header)
  {
    hide Sane, Assumes, NodeLookup, Behind, RetargetDifficulty, RetargetsAt;
    SaneTree(r, w, s);
    StoredAt(s.blocks, r.Genesis(), h);
    var parent, interval := s.blocks[h].header, r.params.retarget.interval;
    RetargetsAfterGenesis(r.params);
    if RetargetsAt(r.params.engine, parent.height + 1, interval) {
      RetargetsOnly(r.params, parent.height + 1);
      var gaps := RetargetGaps(parent.height + 1, interval);
      assert gaps == if parent.height < interval then parent.height else interval;
      BehindStored(r, w, s, h, gaps);
    }
  }

  lemma {:induction false} RetargetsOnly(p: Params, height: int)
    requires RetargetsAt(p.engine, height, p.retarget.interval)
    ensures p.engine.Retargets() && 0 < p.retarget.interval
  {
  }

  /** Neither decided before, nor built on a rejected block. */
  predicate Undecided(processed: set<Hash>, invalid: set<Hash>, b: Block) {
    b.hash !in processed && b.hash !in invalid && b.header.previousHash !in invalid
  }

  /**
   * Judging raises exactly for an undecided block with a stored parent that no verified checkpoint
   * rules out, if its height is below 1 or its parent is genesis and every block retargets.
   */
  lemma {:induction false} FaultExactly(
    r: Rules, w: World, s: State, processed: set<Hash>, invalid: set<Hash>, verified: int, b: Block, now: int)
    requires Assumes(r, w) && Sane(r, w, s)
    ensures Judge(r, s, processed, invalid, verified, b, now).Fault? <==>
            && Undecided(processed, invalid, b) && b.header.previousHash in s.blocks
            && !ConflictsWithVerified(verified, s.heights, b.header.height, b.hash)
            && (b.header.height < 1 || NoPeriod(r.params, s.blocks[b.header.previousHash].header))
  {
    hide Sane, Assumes, NodeLookup, TargetByWalk, ContextFor, ValidateHeader, SoundBody, NoPeriod;
    if b.header.previousHash in s.blocks {
      TargetExactly(r, w, s, b.header.previousHash);
    }
  }

  // ---------------------------------------------------------------- marks

  /** A block that would be accepted is turned away exactly when its own or its parent's hash was marked before. */
  lemma {:induction false} MarksDecide(
    r: Rules, s: State, processed: set<Hash>, invalid: set<Hash>, verified: int, b: Block, now: int)
    requires Judge(r, s, {}, {}, verified, b, now).Accepted?
    ensures Judge(r, s, processed, invalid, verified, b, now).Accepted? <==> Undecided(processed, invalid, b)
    ensures b.hash in processed || b.hash in invalid ==> Judge(r, s, processed, invalid, verified, b, now).Known?
  {
    hide NodeLookup, TargetByWalk, ContextFor, ValidateHeader, SoundBody;
  }

  lemma {:induction false} ShapeFields(a: Transaction, b: Transaction)
    requires Shape(a.Body()) == Shape(b.Body())
    ensures a.inputs == b.inputs && a.fee == b.fee && a.data == b.data && a.Spends() == b.Spends()
  {
    hide Shape;
    InputsOf(a.Body(), b.Body());
  }

  lemma {:induction false} SameShapesFront(a: seq<Transaction>, b: seq<Transaction>)
    requires SameShapes(a, b) && |a| > 0
    ensures SameShapes(a[..|a| - 1], b[..|b| - 1])
  {
  }

  lemma {:induction false} ShapesSeparate(a: seq<Transaction>, b: seq<Transaction>)
    requires SameShapes(a, b)
    ensures Ids(a) == Ids(b) && AllSpends(a) == AllSpends(b) && TotalFees(a) == TotalFees(b)
    ensures Separate(a) <==> Separate(b)
  {
    hide Shape;
    if |a| > 0 {
      SameShapesFront(a, b);
      ShapesSeparate(a[..|a| - 1], b[..|b| - 1]);
      ShapeFields(a[|a| - 1], b[|b| - 1]);
    }
  }

  /** What the body rules ask of the outputs and the size of a block. */
  predicate Pays(c: Crypto, b: Block, reward: int, limits: Limits) {
    && c.blockBytes(b) <= limits.maxBlockBytes
    && (forall i :: 0 <= i < |b.transactions| ==>
          0 < |b.transactions[i].outputs| && forall j :: 0 <= j < |b.transactions[i].outputs| ==>
            0 < b.transactions[i].outputs[j].amount)
    && 0 < |b.transactions| && TotalOut(b.transactions[0].outputs) <= reward + TotalFees(b.transactions)
  }

  lemma {:induction false} StructureAlike(c: Crypto, a: Transaction, b: Transaction)
    requires ValidStructure(c, a) && Shape(a.Body()) == Shape(b.Body()) && c.transactionId(b.Body()) == b.id
    ensures ValidStructure(c, b) <==> 0 < |b.outputs| && forall j :: 0 <= j < |b.outputs| ==> 0 < b.outputs[j].amount
  {
    hide Shape;
    ShapeFields(a, b);
  }

  /** A body that respells a sound one is sound exactly when its outputs and size are. */
  lemma {:induction false} SoundAlike(c: Crypto, a: Block, b: Block, reward: int, limits: Limits)
    requires SoundBody(c, a, reward, limits) && a.header == b.header && SameShapes(a.transactions, b.transactions)
    requires Committed(c, b)
    ensures SoundBody(c, b, reward, limits) <==> Pays(c, b, reward, limits)
  {
    hide Shape, ValidStructure, Separate, TotalFees, TotalOut;
    ShapesSeparate(a.transactions, b.transactions);
    forall i | 0 <= i < |a.transactions|
      ensures a.transactions[i].IsCoinbase() == b.transactions[i].IsCoinbase()
      ensures ValidStructure(c, b.transactions[i])
              <==> 0 < |b.transactions[i].outputs|
                   && forall j :: 0 <= j < |b.transactions[i].outputs| ==> 0 < b.transactions[i].outputs[j].amount
    {
      ShapeFields(a.transactions[i], b.transactions[i]);
      StructureAlike(c, a.transactions[i], b.transactions[i]);
    }
  }

  /**
   * Another body under an accepted block's header is accepted too exactly when it respells that block and pays and
   * weighs within the rules; otherwise it is refused, and the mark this leaves on the shared hash then keeps the honest
   * block out.
   */
  lemma {:induction false} AlteredCopyJudged(
    r: Rules, w: World, s: State, processed: set<Hash>, invalid: set<Hash>, verified: int, b: Block, copy: Block,
    now: int)
    requires Assumes(r, w) && b in w.blocks && copy in w.blocks && copy.hash == b.hash && copy != b
    requires Judge(r, s, processed, invalid, verified, b, now).Accepted?
    ensures b.header.height >= 1
    ensures Judge(r, s, processed, invalid, verified, copy, now)
            == if Respells(r.Crypto(), b, copy)
                  && Pays(r.Crypto(), copy, r.policy.BlockReward(b.header.height), r.limits)
               then Accepted else Refused
    ensures Judge(r, s, processed + {copy.hash}, invalid + {copy.hash}, verified, b, now).Known?
  {
    hide NodeLookup, TargetByWalk, ContextFor, ValidateHeader, SoundBody, HashesBind, IdsBind, Committed, SameShapes,
      Pays;
    BlockHeader(r.Crypto(), w, b);
    BlockHeader(r.Crypto(), w, copy);
    OneHeader(r.Crypto(), w, b.header, copy.header);
    var reward := r.policy.BlockReward(b.header.height);
    SoundIsCommitted(r.Crypto(), b, reward, r.limits);
    if SoundBody(r.Crypto(), copy, reward, r.limits) {
      SoundIsCommitted(r.Crypto(), copy, reward, r.limits);
    }
    if Committed(r.Crypto(), copy) {
      CommittedAlike(r.Crypto(), w, b, copy);
      SoundAlike(r.Crypto(), b, copy, reward, r.limits);
    }
  }

  /** For instance a copy without any transactions, under every choice of hashes. */
  lemma {:induction false} EmptiedCopyShutsOut(
    r: Rules, s: State, processed: set<Hash>, invalid: set<Hash>, verified: int, b: Block, now: int)
    requires Judge(r, s, processed, invalid, verified, b, now).Accepted?
    ensures var copy := b.(transactions := []);
            && Judge(r, s, processed, invalid, verified, copy, now).Refused?
            && Judge(r, s, processed + {copy.hash}, invalid + {copy.hash}, verified, b, now).Known?
  {
    hide NodeLookup, TargetByWalk, ContextFor, ValidateHeader;
    assert !SoundBody(r.Crypto(), b.(transactions := []), r.policy.BlockReward(b.header.height), r.limits);
  }

  // ---------------------------------------------------------------- headers

  /** A header after `previous` is taken if it is indexed already or passes every header rule there. */
  predicate HeaderTaken(
    r: Rules, s: State, invalid: set<Hash>, verified: int, header: Header, previous: Hash, batch: Lookup, now: int)
    requires previous in s.headers
  {
    var hash, prev, lookup := r.Crypto().blockHash(header), s.headers[previous], NodeLookup(s, batch);
    var target := TargetByWalk(r.params, lookup, prev.header);
    hash in s.headers ||
    (&& hash !in invalid && header.previousHash !in invalid
     && !ConflictsWithVerified(verified, s.heights, header.height, hash)
     && target.Some?
     && ValidateHeader(r.Crypto(), r.params.engine, header, hash,
                       ContextFor(r, lookup, prev.header, previous, header.height, target.value, now)) == Valid)
  }

  /** The headers of one batch are all indexed, so looking them up there changes nothing. */
  predicate BatchOk(s: State, batch: Lookup) {
    forall h :: h in batch ==> h in s.headers && s.headers[h].header == batch[h]
  }

  lemma {:induction false} BatchLookup(s: State, batch: Lookup)
    requires BatchOk(s, batch)
    ensures NodeLookup(s, batch) == NodeLookup(s, map[])
  {
  }

  lemma {:induction false} NotGenesis(r: Rules, w: World, s: State, header: Header)
    requires Assumes(r, w) && Sane(r, w, s) && header in w.headers && header.height >= 1
    ensures r.Crypto().blockHash(header) != r.Genesis()
  {
    hide Consistent, HeadersOk, BodiesOk, IdsBind, HashesBind, FromWorld;
    SaneTree(r, w, s);
    GenesisStored(s.blocks, r.Genesis(), s.tip.hash);
    StoredAt(s.blocks, r.Genesis(), r.Genesis());
    StoredKnown(w, s, r.Genesis());
    var first := s.blocks[r.Genesis()];
    BlockHeader(r.Crypto(), w, first);
    if r.Crypto().blockHash(header) == r.Genesis() {
      OneHeader(r.Crypto(), w, first.header, header);
    }
  }

  /** Indexing a valid child of an indexed header keeps the store exact. */
  lemma {:induction false} IndexHeader(r: Rules, w: World, s: State, header: Header)
    requires Assumes(r, w) && Sane(r, w, s) && header in w.headers && header.previousHash in s.headers
    requires header.height == s.headers[header.previousHash].header.height + 1
    requires r.Crypto().blockHash(header) !in s.headers
    ensures var headers := s.headers[r.Crypto().blockHash(header) :=
                             IndexedHeader(header,
                               s.headers[header.previousHash].work + BlockWork(r.params.engine, header))];
            && Sane(r, w, s.(headers := headers)) && Extends(s.headers, headers)
            && Canonical(r, s.(headers := headers)) == Canonical(r, s)
  {
    hide Consistent, HeadersOk, BodiesOk, IdsBind, HashesBind, BlockWork;
    SaneTree(r, w, s);
    HeightFound(r, s, header.previousHash);
    NotGenesis(r, w, s, header);
    IndexChild(r.Crypto(), r.params.engine, r.Genesis(), s.headers, header);
    var headers := s.headers[r.Crypto().blockHash(header) :=
                     IndexedHeader(header, s.headers[header.previousHash].work + BlockWork(r.params.engine, header))];
    SaneHeaders(r, w, s, headers);
  }

  lemma {:induction false} HeightFound(r: Rules, s: State, h: Hash)
    requires HeadersOk(r.Crypto(), r.params.engine, r.Genesis(), s.headers) && h in s.headers
    ensures 0 <= s.headers[h].header.height
  {
    assert HeaderOk(r.Crypto(), r.params.engine, r.Genesis(), s.headers, h);
  }
}
