/**
 * A block and its respelled copy, both accepted (src/ledger/transaction.ts:16-18, src/network/wireShapes.ts:60-65,
 * src/node/node.ts:1017-1033, 1398): which blocks have one, and a whole instance in which every assumption holds, the
 * block is sealed and adopted, the copy is accepted afterwards, and storing it leaves a store that is not exact.
 */
module Respelled {

  import opened Ledger
  import opened Utxo
  import opened Store
  import opened Chain
  import opened Tree
  import opened Consensus
  import opened HeaderChain
  import opened HeaderIndex
  import opened HeaderWalk
  import opened BlockRules
  import opened Monetary
  import opened Supply
  import opened Branches
  import opened Adoption
  import opened Merkle
  import opened Spelling
  import opened NodeState
  import opened Arrivals
  import opened Commitments
  import opened Minting
  import opened Overwriting

  // ---------------------------------------------------------------- which blocks have a respelling

  function WithOutputs(b: Block, i: nat, outputs: seq<TxOutput>): Block
    requires i < |b.transactions|
  {
    b.(transactions := b.transactions[i := b.transactions[i].(outputs := outputs)])
  }

  /** Outputs with the same text in one transaction give another body that the header commits to. */
  lemma {:induction false} SameTextRespells(c: Crypto, m: Writing, b: Block, i: nat, outputs: seq<TxOutput>)
    requires Computes(c, m) && Committed(c, b) && i < |b.transactions| && outputs != b.transactions[i].outputs
    requires OutputsText(outputs) == OutputsText(b.transactions[i].outputs)
    ensures Respells(c, b, WithOutputs(b, i, outputs))
  {
    hide OutputsText, EndText, Join, InputTexts, Writes, Root, Written;
    var copy, tx := WithOutputs(b, i, outputs), b.transactions[i];
    var x, y := tx.Body(), copy.transactions[i].Body();
    assert y == x.(outputs := outputs);
    SameEnd(x, y);
    assert m.Text(x) == m.Text(y);
    assert m.hexing.hash(c.transactionId(x)) == m.hexing.hash(c.transactionId(y));
    WritesDiffer(m.hexing, c.transactionId(x), c.transactionId(y));
    assert TransactionIds(copy.transactions) == TransactionIds(b.transactions);
    assert copy.transactions[i] != tx;
  }

  lemma {:induction false} WritesDiffer(h: Hexing, a: Hash, b: Hash)
    requires Writes(h) && h.hash(a) == h.hash(b)
    ensures a == b
  {
  }

  /** Every block with a transaction of two outputs, or with an address that reads as two, has a respelling. */
  lemma {:induction false} SomeCopyRespells(c: Crypto, m: Writing, b: Block, i: nat) returns (copy: Block)
    requires Computes(c, m) && Committed(c, b) && i < |b.transactions|
    requires !(|b.transactions[i].outputs| <= 1 && PlainOutputs(b.transactions[i].outputs))
    ensures Respells(c, b, copy) && exists outputs :: copy == WithOutputs(b, i, outputs)
  {
    hide Computes, Committed, OutputsText, PlainOutputs;
    OnlySpellingExactly(b.transactions[i].outputs);
    var outputs :| OutputsText(outputs) == OutputsText(b.transactions[i].outputs)
      && outputs != b.transactions[i].outputs;
    SameTextRespells(c, m, b, i, outputs);
    copy := WithOutputs(b, i, outputs);
  }

  // ---------------------------------------------------------------- an instance

  function Zeros(n: nat): (s: string)
    ensures |s| == n && forall i :: 0 <= i < n ==> s[i] == '0'
  {
    seq(n, _ => '0')
  }

  /** Two digests, and longer strings for all other numbers. */
  function HashText(n: nat): string {
    if n == 0 then Zeros(64) else Zeros(63) + "1" + Zeros(n - 1)
  }

  /** A digest of the last character only. */
  function LastSha(x: string): string {
    if 0 < |x| && x[|x| - 1] == '0' then HashText(0) else HashText(1)
  }

  function Unhash(s: string): Hash {
    if s == HashText(0) then 0 else 1
  }

  function SmallHexing(): Hexing {
    Hexing((x: Hash) => HashText(x), (x: Key) => Zeros(x), (x: Signature) => Zeros(x))
  }

  function SmallWriting(): Writing {
    Writing((x: string) => LastSha(x), SmallHexing())
  }

  function SmallRoot(ids: seq<Hash>): Hash {
    if |ids| == 0 then 0 else if |ids| == 1 then ids[0]
    else Unhash(Root(SmallWriting().sha, Written(SmallHexing().hash, ids)))
  }

  function SmallCrypto(): Crypto {
    Crypto(
      (b: TxBody) => Unhash(LastSha(BodyText(SmallHexing(), b))), (k: Key) => "m",
      (k: Key, m: SigningPayload) => 0, (k: Key, m: SigningPayload, s: Signature) => true,
      (h: Header) => if h.nonce < 0 then 0 else h.nonce, (k: Key, h: Hash, s: Signature) => true,
      (ids: seq<Hash>) => SmallRoot(ids), (b: Block) => 0)
  }

  lemma {:induction false} HashTextDiffers(a: nat, b: nat)
    requires HashText(a) == HashText(b)
    ensures a == b
  {
    assert HashText(0)[63] == '0';
    assert a > 0 ==> HashText(a)[63] == '1' && |HashText(a)| == 63 + a;
    assert b > 0 ==> HashText(b)[63] == '1' && |HashText(b)| == 63 + b;
  }

  lemma {:induction false} ZerosDiffer(a: nat, b: nat)
    requires Zeros(a) == Zeros(b)
    ensures a == b
  {
    assert |Zeros(a)| == a && |Zeros(b)| == b;
  }

  lemma {:induction false} HashTextIsHex(n: nat)
    ensures AllHex(HashText(n)) && (n <= 1 ==> IsHashHex(HashText(n)))
  {
  }

  lemma {:induction false} UnhashBack(n: nat)
    requires n <= 1
    ensures Unhash(HashText(n)) == n
  {
    hide HashText;
    if n == 1 && HashText(1) == HashText(0) {
      HashTextDiffers(1, 0);
    }
  }

  lemma {:induction false} SmallWrites()
    ensures Writes(SmallHexing())
  {
    hide HashText, Zeros, AllHex;
    var h := SmallHexing();
    forall x ensures AllHex(h.hash(x)) && AllHex(h.key(x)) && AllHex(h.signature(x)) {
      HashTextIsHex(x);
      ZerosAreHex(x);
    }
    forall x, y ensures h.hash(x) == h.hash(y) ==> x == y {
      if HashText(x) == HashText(y) {
        HashTextDiffers(x, y);
      }
    }
    forall x, y ensures (h.key(x) == h.key(y) ==> x == y) && (h.signature(x) == h.signature(y) ==> x == y) {
      if Zeros(x) == Zeros(y) {
        ZerosDiffer(x, y);
      }
    }
  }

  lemma {:induction false} ZerosAreHex(n: nat)
    ensures AllHex(Zeros(n))
  {
  }

  /** The digest takes two values, which number 0 and 1. */
  lemma {:induction false} ShaIsHash(x: string)
    ensures LastSha(x) == HashText(Unhash(LastSha(x))) && IsHashHex(LastSha(x))
  {
    HashTextIsHex(0);
    HashTextIsHex(1);
    UnhashBack(0);
    UnhashBack(1);
    hide HashText;
  }

  lemma {:induction false} RootIsSha(level: seq<string>)
    requires |level| > 1
    ensures exists x :: Root(SmallWriting().sha, level) == LastSha(x)
    decreases |level|
  {
    hide LastSha;
    var next := NextLevel(SmallWriting().sha, level);
    assert next[0] == LastSha(PairAt(level, 0)) && Root(SmallWriting().sha, level) == Root(SmallWriting().sha, next);
    if |next| > 1 {
      RootIsSha(next);
    } else {
      LoneRoot(SmallWriting().sha, next);
    }
  }

  lemma {:induction false} SmallComputes()
    ensures Computes(SmallCrypto(), SmallWriting())
  {
    hide LastSha, HashText, BodyText, Root, Writes;
    var c, m := SmallCrypto(), SmallWriting();
    SmallWrites();
    forall x ensures IsHashHex(m.sha(x)) {
      ShaIsHash(x);
    }
    forall body ensures m.hexing.hash(c.transactionId(body)) == m.sha(m.Text(body)) {
      ShaIsHash(m.Text(body));
    }
    forall ids | |ids| > 0 ensures m.hexing.hash(c.merkleRoot(ids)) == Root(m.sha, Written(m.hexing.hash, ids)) {
      var leaves := Written(m.hexing.hash, ids);
      if |ids| == 1 {
        LoneRoot(m.sha, leaves);
      } else {
        RootIsSha(leaves);
        var x :| Root(m.sha, leaves) == LastSha(x);
        ShaIsHash(x);
      }
    }
  }

  lemma {:induction false} LoneRoot(sha: Sha, level: seq<string>)
    requires |level| == 1
    ensures Root(sha, level) == level[0]
  {
  }

  // ---------------------------------------------------------------- its blocks

  function SmallRules(): Rules {
    Rules(Config(SpendRules(SmallCrypto(), 0), false, 0),
          Params(SmallCrypto(), 0, Pow, RetargetRules(1, 0, 1), 0, 0),
          MonetaryPolicy(50, 0, 0), Limits(0, 1), map[])
  }

  function CoinbaseTo(id: Hash, outputs: seq<TxOutput>, timestamp: int, fee: int): Transaction {
    Transaction(id, [], outputs, timestamp, fee, None)
  }

  function FirstBlock(): Block {
    Block(Header(0, 7, 0, 1, MAX_TARGET, 0, 0, None, None), [CoinbaseTo(0, [TxOutput("m", 100)], 1, 0)], 0)
  }

  function TwoPaid(): seq<TxOutput> {
    [TxOutput("x", 1), TxOutput("y", 2)]
  }

  function OnePaid(): seq<TxOutput> {
    [TxOutput("x" + [':'] + Decimal(1) + [','] + "y", 2)]
  }

  function BlockPaying(outputs: seq<TxOutput>): Block {
    Block(Header(0, 0, 1, 2, MAX_TARGET, 1, 1, None, None), [CoinbaseTo(1, outputs, 2, 1)], 1)
  }

  ghost function SmallWorld(): World {
    World(iset{FirstBlock().header, BlockPaying([]).header},
      iset{FirstBlock(), BlockPaying(TwoPaid()), BlockPaying(OnePaid())})
  }

  lemma {:induction false} EndsInFee(h: Hexing, body: TxBody)
    requires body.data.None?
    ensures var text, fee := BodyText(h, body), Decimal(body.fee);
            0 < |text| && text[|text| - 1] == fee[|fee| - 1]
  {
    hide Join, InputTexts, OutputsText, Decimal;
    var fee := Decimal(body.fee);
    assert fee + "" == fee;
  }

  /** Ids tell the fees 0 and 1 apart. */
  lemma {:induction false} SmallId(body: TxBody)
    requires body.data.None? && 0 <= body.fee <= 1
    ensures SmallCrypto().transactionId(body) == body.fee
  {
    var text := BodyText(SmallHexing(), body);
    EndsInFee(SmallHexing(), body);
    assert Decimal(0) == "0" && Decimal(1) == "1";
    hide BodyText, HashText, Decimal;
    UnhashBack(0);
    UnhashBack(1);
  }

  lemma {:induction false} SameSpelling()
    ensures OutputsText(TwoPaid()) == OutputsText(OnePaid()) && TwoPaid() != OnePaid()
  {
    hide OutputsText, Decimal;
    OneReadsAsTwo("x", 1, "y", 2);
    assert |TwoPaid()| == 2 && |OnePaid()| == 1;
  }

  lemma {:induction false} CoinbaseCommits(b: Block, id: Hash, outputs: seq<TxOutput>, timestamp: int)
    requires id <= 1 && b.transactions == [CoinbaseTo(id, outputs, timestamp, id)] && b.header.merkleRoot == id
    ensures Committed(SmallCrypto(), b) && CoinbaseFirst(b.transactions) && b.transactions[0].Body().data.None?
  {
    var cb := b.transactions[0];
    SmallId(cb.Body());
    assert TransactionIds(b.transactions) == [id];
  }

  lemma {:induction false} SmallBlocks(b: Block)
    requires b in SmallWorld().blocks
    ensures b == FirstBlock() || b == BlockPaying(TwoPaid()) || b == BlockPaying(OnePaid())
  {
  }

  /** What tells the blocks apart is their height. */
  lemma {:induction false} SmallBlock(b: Block)
    requires b in SmallWorld().blocks
    ensures |b.transactions| == 1
    ensures b.header.height == b.transactions[0].id == b.header.merkleRoot == b.transactions[0].fee
    ensures SmallCrypto().transactionId(b.transactions[0].Body()) == b.header.height <= 1
    ensures Shape(b.transactions[0].Body())
         == TxBody([], [], if b.header.height == 0 then 1 else 2, b.header.height, None)
    ensures b.header in SmallWorld().headers && b.hash == SmallCrypto().blockHash(b.header)
    ensures b.transactions[0].IsCoinbase()
  {
    SmallBlocks(b);
    SmallId(b.transactions[0].Body());
  }

  lemma {:induction false} SmallCoinbases(chain: seq<Block>)
    requires OnBranch(SmallCrypto(), SmallWorld(), chain)
    ensures DistinctCoinbases(Steps(chain))
  {
    hide Steps, Committed, SmallWorld, SmallCrypto;
    var steps := Steps(chain);
    forall i, j | 0 <= i < j < |steps| && steps[i].tx.IsCoinbase() && steps[j].tx.IsCoinbase()
      ensures steps[i].tx.id != steps[j].tx.id
    {
      var k, a := StepAt(chain, i);
      var l, b := StepAt(chain, j);
      SmallBlock(chain[k]);
      SmallBlock(chain[l]);
      assert chain[k].header.height == k && chain[l].header.height == l;
    }
  }

  lemma {:induction false} SmallShapes()
    ensures ShapesBind(SmallCrypto(), SmallWorld()) && RootsBind(SmallCrypto(), SmallWorld())
  {
    hide SmallCrypto, SmallWorld, Shape;
    var c, w := SmallCrypto(), SmallWorld();
    forall a, b | a in w.blocks && b in w.blocks && Committed(c, a) && Committed(c, b)
      && a.header.merkleRoot == b.header.merkleRoot
      ensures TransactionIds(a.transactions) == TransactionIds(b.transactions)
    {
      SmallBlock(a);
      SmallBlock(b);
    }
    forall a, b, i, j | a in w.blocks && b in w.blocks && 0 <= i < |a.transactions| && 0 <= j < |b.transactions|
                        && c.transactionId(a.transactions[i].Body()) == c.transactionId(b.transactions[j].Body())
      ensures Shape(a.transactions[i].Body()) == Shape(b.transactions[j].Body())
    {
      SmallBlock(a);
      SmallBlock(b);
    }
  }

  lemma {:induction false} SmallHashes()
    ensures HashesBind(SmallCrypto(), SmallWorld())
  {
    var c, w := SmallCrypto(), SmallWorld();
    forall b | b in w.blocks ensures b.header in w.headers && b.hash == c.blockHash(b.header) {
      SmallBlock(b);
    }
  }

  lemma {:induction false} SmallAssumes()
    ensures Assumes(SmallRules(), SmallWorld())
  {
    hide OnBranch, HashesBind, ShapesBind, RootsBind, SmallWorld, SmallCrypto;
    SmallShapes();
    SmallHashes();
    forall chain | OnBranch(SmallCrypto(), SmallWorld(), chain) ensures DistinctCoinbases(Steps(chain)) {
      SmallCoinbases(chain);
    }
  }

  /** The premises from which the assumptions are derived hold here as well. */
  lemma {:induction false} SmallNoCollision()
    ensures NoCollision(SmallWriting(), SmallWorld()) && CleanWorld(SmallWorld())
  {
    hide SmallWorld, BodyText, LastSha, HashText;
    var m, w := SmallWriting(), SmallWorld();
    SameSpelling();
    forall b | b in w.blocks ensures CleanBlock(b) {
      SmallBlocks(b);
    }
    forall a, b | a in w.blocks && b in w.blocks ensures !Collides(m.sha, BlockInputs(m, a) + BlockInputs(m, b)) {
      SmallInputs(a);
      SmallInputs(b);
      SmallTexts(a, b);
    }
  }

  lemma {:induction false} SmallInputs(b: Block)
    requires b in SmallWorld().blocks
    ensures |b.transactions| == 1 && BlockInputs(SmallWriting(), b) == {SmallWriting().Text(b.transactions[0].Body())}
  {
    hide BodyText, SmallWorld;
    SmallBlock(b);
    var m := SmallWriting();
    assert |Written(m.hexing.hash, TransactionIds(b.transactions))| == 1;
    var texts := Texts(m, b.transactions);
    assert texts == [m.Text(b.transactions[0].Body())];
    assert TextSet(texts) == {texts[0]};
  }

  lemma {:induction false} SmallTexts(a: Block, b: Block)
    requires a in SmallWorld().blocks && b in SmallWorld().blocks
    ensures |a.transactions| == 1 && |b.transactions| == 1
    ensures var m := SmallWriting();
            var x, y := m.Text(a.transactions[0].Body()), m.Text(b.transactions[0].Body());
            m.sha(x) == m.sha(y) ==> x == y
  {
    SmallBlock(a);
    SmallBlock(b);
    SmallBlocks(a);
    SmallBlocks(b);
    SameSpelling();
    hide OutputsText, SmallWorld, LastSha, HashText, Decimal, Join;
    if a.header.height == b.header.height == 1 {
      SameEnd(a.transactions[0].Body(), b.transactions[0].Body());
    }
  }

  // ---------------------------------------------------------------- what happens to them

  /** The block is accepted, by a node that holds genesis and by one that has adopted it. */
  lemma {:induction false} SmallAccepts(s: State, now: int)
    requires 2 <= now && 0 in s.blocks && s.blocks[0] == FirstBlock()
    ensures Judge(SmallRules(), s, {}, {}, -1, BlockPaying(TwoPaid()), now).Accepted?
  {
    var r, b := SmallRules(), BlockPaying(TwoPaid());
    var cb, g := b.transactions[0], FirstBlock();
    CoinbaseCommits(b, 1, TwoPaid(), 2);
    TwoPaidIsValid(cb);
    RewardAlways(r.policy);
    LoneCoinbaseIsSound(r.Crypto(), b, cb, 50, r.limits);
    assert TargetByWalk(r.params, NodeLookup(s, map[]), g.header) == Some(MAX_TARGET);
    hide NodeLookup, TargetByWalk, SoundBody, SignersByWalk, ContextFor;
    SmallHeader(s, now);
  }

  lemma {:induction false} SmallHeader(s: State, now: int)
    requires 2 <= now
    ensures var r, b, g := SmallRules(), BlockPaying(TwoPaid()), FirstBlock();
            ValidateHeader(r.Crypto(), r.params.engine, b.header, b.hash,
                           ContextFor(r, NodeLookup(s, map[]), g.header, g.hash, 1, MAX_TARGET, now)) == Valid
  {
    hide NodeLookup, SignersByWalk;
  }

  lemma {:induction false} TwoPaidIsValid(cb: Transaction)
    requires cb == CoinbaseTo(1, TwoPaid(), 2, 1)
    ensures ValidStructure(SmallCrypto(), cb) && TotalOut(cb.outputs) == 3
  {
    SmallId(cb.Body());
    assert cb.outputs[..1] == [TxOutput("x", 1)] && cb.outputs[..1][..0] == [];
    assert TotalOut(cb.outputs[..1]) == 1;
  }

  lemma {:induction false} OnePaidIsValid(cb: Transaction)
    requires cb == CoinbaseTo(1, OnePaid(), 2, 1)
    ensures ValidStructure(SmallCrypto(), cb) && TotalOut(cb.outputs) == 2
  {
    SmallId(cb.Body());
    hide Decimal;
    assert cb.outputs[..0] == [];
  }

  lemma {:induction false} SmallStart()
    ensures Sane(SmallRules(), SmallWorld(), FirstState(SmallRules(), FirstBlock()))
    ensures Canonical(SmallRules(), FirstState(SmallRules(), FirstBlock())) == [FirstBlock()]
    ensures FirstState(SmallRules(), FirstBlock()).blocks == map[0 := FirstBlock()]
    ensures FirstState(SmallRules(), FirstBlock()).tip.hash == 0
  {
    var r, g := SmallRules(), FirstBlock();
    var cb := g.transactions[0];
    SmallId(cb.Body());
    OneCoinbase(r.Crypto(), cb, "m", 100);
    CoinbaseCommits(g, 0, cb.outputs, 1);
    assert TransactionIds(g.transactions) == [0];
    hide Sane, Assumes, UtxoOf, HeightsOf, History;
    SmallAssumes();
    FirstStateIsSane(r, SmallWorld(), g);
  }

  lemma {:induction false} CopyRespells()
    ensures Respells(SmallCrypto(), BlockPaying(TwoPaid()), BlockPaying(OnePaid()))
    ensures BlockPaying(TwoPaid()).transactions != BlockPaying(OnePaid()).transactions
  {
    SameSpelling();
    CoinbaseCommits(BlockPaying(TwoPaid()), 1, TwoPaid(), 2);
    CoinbaseCommits(BlockPaying(OnePaid()), 1, OnePaid(), 2);
    hide Committed, TwoPaid, OnePaid;
    assert BlockPaying(TwoPaid()).transactions[0].outputs == TwoPaid();
    assert BlockPaying(OnePaid()).transactions[0].outputs == OnePaid();
  }

  lemma {:induction false} CopyPays()
    ensures Pays(SmallCrypto(), BlockPaying(OnePaid()), 50, SmallRules().limits)
  {
    var b := BlockPaying(OnePaid());
    OnePaidIsValid(b.transactions[0]);
    OneFee(b.transactions);
    hide Decimal;
  }

  /** A lone coinbase block that is accepted on the tip can be adopted, and then ends the canonical chain. */
  lemma {:induction false} AdoptLone(r: Rules, w: World, s: State, b: Block, now: int) returns (t: State)
    requires Assumes(r, w) && Sane(r, w, s) && b in w.blocks && !RespellsStored(r.Crypto(), s.blocks, b)
    requires |b.transactions| == 1 && b.header.previousHash == s.tip.hash && Judge(r, s, {}, {}, -1, b, now).Accepted?
    ensures Sane(r, w, t) && t.blocks == BlocksWith(s, b) && TreeOk(s.blocks, r.Genesis()) && s.tip.hash in s.blocks
    ensures t.tip.hash in t.blocks && TreeOk(t.blocks, r.Genesis()) && Canonical(r, t) == Canonical(r, s) + [b]
  {
    hide Sane, Assumes, Judge, Candidate, AdoptedState, BodyOk, Respells, Total, UtxoOf, TotalOut, TreeOk, ChainOf,
      Attaches;
    AcceptedFacts(r, w, s, {}, {}, -1, b, now);
    AcceptedCoinbaseMints(r, w, s, {}, {}, -1, b, now);
    ChildIsCandidate(r, w, s, b);
    SaneTree(r, w, s);
    var work := s.headers[s.tip.hash].work + BlockWork(r.params.engine, b.header);
    t := AdoptedState(r, s, b, work);
    AdoptionStep(r, w, s, b, work);
    SaneTree(r, w, t);
  }

  lemma {:induction false} SmallReward()
    ensures SmallRules().policy.BlockReward(1) == 50 && SmallRules().Crypto() == SmallCrypto()
  {
    RewardAlways(SmallRules().policy);
  }

  lemma {:induction false} SmallPayer()
    ensures var b := BlockPaying(TwoPaid());
            && b in SmallWorld().blocks && b.hash == 1 && b.header.previousHash == 0 && |b.transactions| == 1
            && b.header.height == 1
    ensures var copy := BlockPaying(OnePaid());
            copy in SmallWorld().blocks && copy.hash == 1 && copy.header.height == 1
  {
  }

  lemma {:induction false} Adopted(now: int) returns (t: State)
    requires 2 <= now
    ensures Sane(SmallRules(), SmallWorld(), t) && t.tip.hash in t.blocks && TreeOk(t.blocks, SmallRules().Genesis())
    ensures t.blocks == map[0 := FirstBlock(), 1 := BlockPaying(TwoPaid())]
    ensures Canonical(SmallRules(), t) == [FirstBlock(), BlockPaying(TwoPaid())]
  {
    hide Sane, Assumes, FirstState, Judge, SmallRules, SmallWorld, FirstBlock, BlockPaying, TreeOk, ChainOf, Respells,
      OnePaid, TwoPaid;
    var r, w, b := SmallRules(), SmallWorld(), BlockPaying(TwoPaid());
    var s := FirstState(r, FirstBlock());
    SmallStart();
    SmallAssumes();
    SmallAccepts(s, now);
    SmallPayer();
    t := AdoptLone(r, w, s, b, now);
    assert [FirstBlock()] + [b] == [FirstBlock(), b];
  }

  /** The two chains replay to different sets. */
  lemma {:induction false} ReplaysDiffer()
    ensures var g, a, b := FirstBlock(), BlockPaying(TwoPaid()), BlockPaying(OnePaid());
            && Replays(SmallRules().cfg.rules, [g, a]) && Replays(SmallRules().cfg.rules, [g, b])
            && Total(UtxoOf([g, a])) == Total(UtxoOf([g, b])) + 1 && UtxoOf([g, a]) != UtxoOf([g, b])
  {
    var r, g, a, b := SmallRules().cfg.rules, FirstBlock(), BlockPaying(TwoPaid()), BlockPaying(OnePaid());
    var first := g.transactions[0];
    SmallId(first.Body());
    OneCoinbase(r.crypto, first, "m", 100);
    TwoPaidIsValid(a.transactions[0]);
    OnePaidIsValid(b.transactions[0]);
    hide UtxoOf, Replays, Total, TotalOut, ValidStructure, TwoPaid, OnePaid;
    TwoCoinbases(r, g, a, first, a.transactions[0]);
    TwoCoinbases(r, g, b, first, b.transactions[0]);
  }

  /**
   * A respelled copy of a canonical block that the node has not marked is accepted if it pays and weighs within
   * the rules, and storing it leaves the derived state of a chain that is no longer stored.
   */
  lemma {:induction false} RespellingBreaks(r: Rules, w: World, t: State, b: Block, copy: Block, now: int)
    requires Assumes(r, w) && Sane(r, w, t) && b in w.blocks && copy in w.blocks
    requires Judge(r, t, {}, {}, -1, b, now).Accepted?
    requires b.header.height >= 1 && b.hash in t.blocks && t.blocks[b.hash] == b && Respells(r.Crypto(), b, copy)
    requires Pays(r.Crypto(), copy, r.policy.BlockReward(b.header.height), r.limits)
    requires b.header.height in t.heights && t.heights[b.header.height] == b.hash
    ensures Judge(r, t, {}, {}, -1, copy, now).Accepted?
    ensures RespellsCanonical(r.Crypto(), t, copy) && !Sane(r, w, t.(blocks := BlocksWith(t, copy)))
  {
    hide Sane, Assumes, Judge, Pays, Committed;
    RespellsUnderHash(r, w, b, copy);
    AlteredCopyJudged(r, w, t, {}, {}, -1, b, copy, now);
    StoringKeepsExact(r, w, t, {}, {}, -1, copy, now);
  }

  lemma {:induction false} RespellsUnderHash(r: Rules, w: World, b: Block, copy: Block)
    requires Assumes(r, w) && b in w.blocks && copy in w.blocks && Respells(r.Crypto(), b, copy)
    ensures copy.header == b.header
  {
    hide HashesBind, IdsBind, Committed;
    CommittedAlike(r.Crypto(), w, b, copy);
  }

  /** The instance: a node that has adopted the block, as after sealing it, and then meets the copy. */
  lemma {:induction false} RespelledCopyBreaksStore(now: int)
      returns (r: Rules, w: World, t: State, b: Block, copy: Block)
    requires 2 <= now
    ensures Assumes(r, w) && Sane(r, w, t) && b in w.blocks && copy in w.blocks && b.hash in t.blocks
    ensures t.blocks[b.hash] == b
    ensures Judge(r, t, {}, {}, -1, b, now).Accepted? && Judge(r, t, {}, {}, -1, copy, now).Accepted?
    ensures RespellsCanonical(r.Crypto(), t, copy) && !Sane(r, w, t.(blocks := BlocksWith(t, copy)))
  {
    hide Sane, Assumes, Judge, Respells, Pays, TwoPaid, OnePaid, SmallWorld, FirstBlock, BlockPaying, TreeOk, ChainOf,
      SmallRules, SmallCrypto, RespellsCanonical;
    r, w, b, copy := SmallRules(), SmallWorld(), BlockPaying(TwoPaid()), BlockPaying(OnePaid());
    t := Adopted(now);
    SmallAssumes();
    SmallAccepts(t, now);
    CopyRespells();
    CopyPays();
    SmallReward();
    SmallPayer();
    HeightIs(r, w, t, 1);
    RespellingBreaks(r, w, t, b, copy, now);
  }
}
