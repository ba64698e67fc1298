/**
 * What a block's header commits to (src/crypto/merkle.ts:3-26, src/ledger/transaction.ts:46-66): ids are digests of
 * transaction texts, the root is built from the ids, and a digest without collisions makes both bind what the texts
 * decide.
 */
module Commitments {

  import opened Ledger
  import opened Utxo
  import opened Chain
  import opened BlockRules
  import opened HeaderIndex
  import opened Branches
  import opened Merkle
  import opened Spelling
  import opened NodeState

  /** The digest, and how the fields of a transaction are written. */
  datatype Writing = Writing(sha: Sha, hexing: Hexing)
  {
    function Text(body: TxBody): string {
      BodyText(hexing, body)
    }
  }

  function Written(hex: Hash -> string, ids: seq<Hash>): seq<string> {
    seq(|ids|, i requires 0 <= i < |ids| => hex(ids[i]))
  }

  function Texts(m: Writing, txs: seq<Transaction>): seq<string> {
    seq(|txs|, i requires 0 <= i < |txs| => m.Text(txs[i].Body()))
  }

  /** Ids and roots are what the source computes, over one digest function. */
  ghost predicate Computes(c: Crypto, m: Writing) {
    && Digests(m.sha) && Writes(m.hexing)
    && (forall body :: m.hexing.hash(c.transactionId(body)) == m.sha(m.Text(body)))
    && (forall ids :: |ids| > 0 ==> m.hexing.hash(c.merkleRoot(ids)) == Root(m.sha, Written(m.hexing.hash, ids)))
  }

  /** Everything hashed for a block's ids and root. */
  function BlockInputs(m: Writing, b: Block): set<string> {
    TreeInputs(m.sha, Written(m.hexing.hash, TransactionIds(b.transactions))) + TextSet(Texts(m, b.transactions))
  }

  /** No two of the texts hashed for blocks that reach the node collide. */
  ghost predicate NoCollision(m: Writing, w: World) {
    forall a, b :: a in w.blocks && b in w.blocks ==> !Collides(m.sha, BlockInputs(m, a) + BlockInputs(m, b))
  }

  /** All recorded data is hexadecimal, as the decoder checks. */
  predicate CleanBlock(b: Block) {
    forall i :: 0 <= i < |b.transactions| ==> Clean(b.transactions[i].Body())
  }

  ghost predicate CleanWorld(w: World) {
    forall b :: b in w.blocks ==> CleanBlock(b)
  }

  /** A transaction text has a bar in it, so it is not a pair of digests. */
  lemma {:induction false} TextIsNoPair(m: Writing, body: TxBody)
    ensures !IsPair(m.Text(body))
  {
    hide OutputsText, EndText, Join, InputTexts;
    var inputs := Join(InputTexts(m.hexing, body.inputs), ',');
    assert m.Text(body)[|inputs|] == '|';
  }

  lemma {:induction false} WrittenDecides(hex: Hash -> string, a: seq<Hash>, b: seq<Hash>)
    requires (forall x, y :: hex(x) == hex(y) ==> x == y) && Written(hex, a) == Written(hex, b)
    ensures a == b
  {
    assert |Written(hex, a)| == |a| && |Written(hex, b)| == |b|;
    forall i | 0 <= i < |a| ensures a[i] == b[i] {
      assert Written(hex, a)[i] == hex(a[i]) && Written(hex, b)[i] == hex(b[i]);
    }
  }

  lemma {:induction false} LeavesAreDigests(c: Crypto, m: Writing, b: Block)
    requires Computes(c, m) && Committed(c, b)
    ensures var ids := TransactionIds(b.transactions);
            && LeavesOf(m.sha, Written(m.hexing.hash, ids), Texts(m, b.transactions))
            && Distinct(Written(m.hexing.hash, ids))
            && |ids| > 0 && m.hexing.hash(b.header.merkleRoot) == Root(m.sha, Written(m.hexing.hash, ids))
  {
    hide BodyText, IsPair, Digests;
    var ids := TransactionIds(b.transactions);
    var leaves, texts := Written(m.hexing.hash, ids), Texts(m, b.transactions);
    forall i | 0 <= i < |leaves| ensures leaves[i] == m.sha(texts[i]) && !IsPair(texts[i]) {
      var body := b.transactions[i].Body();
      assert ids[i] == c.transactionId(body);
      assert m.hexing.hash(c.transactionId(body)) == m.sha(m.Text(body));
      TextIsNoPair(m, body);
    }
    forall i, j | 0 <= i < j < |leaves| ensures leaves[i] != leaves[j] {
      assert ids[i] != ids[j];
      assert leaves[i] == m.hexing.hash(ids[i]) && leaves[j] == m.hexing.hash(ids[j]);
    }
  }

  /** One root commits to one list of ids. */
  lemma {:induction false} RootsBindFromHash(c: Crypto, m: Writing, w: World)
    requires Computes(c, m) && NoCollision(m, w)
    ensures RootsBind(c, w)
  {
    hide Committed, TreeInputs, LeavesOf, Merkle.Distinct, Root, Texts;
    var hex := m.hexing.hash;
    forall a, b | a in w.blocks && b in w.blocks && Committed(c, a) && Committed(c, b)
      && a.header.merkleRoot == b.header.merkleRoot
      ensures TransactionIds(a.transactions) == TransactionIds(b.transactions)
    {
      var ia, ib := TransactionIds(a.transactions), TransactionIds(b.transactions);
      LeavesAreDigests(c, m, a);
      LeavesAreDigests(c, m, b);
      RootBindsLeaves(m.sha, Written(hex, ia), Texts(m, a.transactions), Written(hex, ib), Texts(m, b.transactions));
      assert !Collides(m.sha, BlockInputs(m, a) + BlockInputs(m, b));
      WrittenDecides(hex, ia, ib);
    }
  }

  lemma {:induction false} TextHashed(m: Writing, b: Block, i: nat)
    requires i < |b.transactions|
    ensures m.Text(b.transactions[i].Body()) in BlockInputs(m, b)
  {
    hide BodyText, TreeInputs;
    var texts := Texts(m, b.transactions);
    assert texts[i] == m.Text(b.transactions[i].Body());
    assert texts[i] in TextSet(texts);
  }

  /** Two known transactions share an id exactly when they share a text. */
  lemma {:induction false} IdsAreTexts(c: Crypto, m: Writing, w: World, a: Block, i: nat, b: Block, j: nat)
    requires Computes(c, m) && NoCollision(m, w) && a in w.blocks && b in w.blocks && i < |a.transactions|
    requires j < |b.transactions|
    ensures c.transactionId(a.transactions[i].Body()) == c.transactionId(b.transactions[j].Body())
            <==> m.Text(a.transactions[i].Body()) == m.Text(b.transactions[j].Body())
  {
    hide BlockInputs, BodyText, Root, Written;
    var x, y := a.transactions[i].Body(), b.transactions[j].Body();
    assert m.hexing.hash(c.transactionId(x)) == m.sha(m.Text(x))
      && m.hexing.hash(c.transactionId(y)) == m.sha(m.Text(y));
    if m.sha(m.Text(x)) == m.sha(m.Text(y)) {
      TextHashed(m, a, i);
      TextHashed(m, b, j);
      assert !Collides(m.sha, BlockInputs(m, a) + BlockInputs(m, b));
    }
  }

  /** Ids bind everything but the division of the outputs. */
  lemma {:induction false} ShapesBindFromHash(c: Crypto, m: Writing, w: World)
    requires Computes(c, m) && NoCollision(m, w) && CleanWorld(w)
    ensures ShapesBind(c, w)
  {
    hide NoCollision, BodyText, Writes, Clean, Shape;
    forall a, b, i, j | a in w.blocks && b in w.blocks && 0 <= i < |a.transactions| && 0 <= j < |b.transactions|
                        && c.transactionId(a.transactions[i].Body()) == c.transactionId(b.transactions[j].Body())
      ensures Shape(a.transactions[i].Body()) == Shape(b.transactions[j].Body())
    {
      IdsAreTexts(c, m, w, a, i, b, j);
      TextDecides(m.hexing, a.transactions[i].Body(), b.transactions[j].Body());
    }
  }

  // ---------------------------------------------------------------- respellings

  /** No output address of the block reads as the end of one output and the start of another. */
  ghost predicate PlainBlock(b: Block) {
    forall i :: 0 <= i < |b.transactions| ==> PlainOutputs(b.transactions[i].outputs)
  }

  lemma {:induction false} SameTransaction(a: Transaction, b: Transaction)
    requires a.id == b.id && a.Body() == b.Body()
    ensures a == b
  {
  }

  /** Of all the bodies that come under one header, at most one that is plain is committed to. */
  lemma {:induction false} OneBlock(c: Crypto, m: Writing, w: World, a: Block, b: Block)
    requires Computes(c, m) && NoCollision(m, w) && CleanWorld(w) && HashesBind(c, w) && a in w.blocks && b in w.blocks
    requires a.hash == b.hash && Committed(c, a) && Committed(c, b) && PlainBlock(a) && PlainBlock(b)
    ensures a == b
  {
    hide NoCollision, BodyText, Writes, Clean, PlainOutputs, HashesBind;
    BlockHeader(c, w, a);
    BlockHeader(c, w, b);
    OneHeader(c, w, a.header, b.header);
    RootsBindFromHash(c, m, w);
    var ids := TransactionIds(a.transactions);
    assert ids == TransactionIds(b.transactions);
    assert |ids| == |a.transactions| && |ids| == |b.transactions|;
    forall i | 0 <= i < |ids| ensures a.transactions[i] == b.transactions[i] {
      assert ids[i] == a.transactions[i].id && ids[i] == b.transactions[i].id;
      IdsAreTexts(c, m, w, a, i, b, i);
      PlainTextDecides(m.hexing, a.transactions[i].Body(), b.transactions[i].Body());
      SameTransaction(a.transactions[i], b.transactions[i]);
    }
  }

  /** So where every committed body is plain nothing respells anything. */
  lemma {:induction false} PlainIsOneSpelling(c: Crypto, m: Writing, w: World)
    requires Computes(c, m) && NoCollision(m, w) && CleanWorld(w) && HashesBind(c, w)
    requires forall b :: b in w.blocks && Committed(c, b) ==> PlainBlock(b)
    ensures OneSpelling(c, w)
  {
    hide Computes, NoCollision, CleanWorld, HashesBind, Committed, PlainBlock;
    forall a, b | a in w.blocks && b in w.blocks ensures !Respells(c, a, b) {
      if Respells(c, a, b) {
        OneBlock(c, m, w, a, b);
      }
    }
  }

  /** Transaction for transaction the same id and the same text. */
  predicate SameTexts(m: Writing, a: seq<Transaction>, b: seq<Transaction>) {
    |a| == |b| && forall i :: 0 <= i < |a| ==> a[i].id == b[i].id && m.Text(a[i].Body()) == m.Text(b[i].Body())
  }

  /** A header that commits to one body commits to exactly the bodies with the same ids and texts. */
  lemma {:induction false} CommittedExactly(c: Crypto, m: Writing, w: World, a: Block, b: Block)
    requires Computes(c, m) && NoCollision(m, w) && a in w.blocks && b in w.blocks && a.header == b.header
    requires Committed(c, a)
    ensures Committed(c, b) <==> SameTexts(m, a.transactions, b.transactions)
  {
    hide NoCollision, BodyText, Writes;
    if Committed(c, b) {
      RootsBindFromHash(c, m, w);
      var ids := TransactionIds(a.transactions);
      assert ids == TransactionIds(b.transactions);
      assert |ids| == |a.transactions| && |ids| == |b.transactions|;
      forall i | 0 <= i < |ids|
        ensures a.transactions[i].id == b.transactions[i].id
        ensures m.Text(a.transactions[i].Body()) == m.Text(b.transactions[i].Body())
      {
        assert ids[i] == a.transactions[i].id && ids[i] == b.transactions[i].id;
        IdsAreTexts(c, m, w, a, i, b, i);
      }
    } else if SameTexts(m, a.transactions, b.transactions) {
      assert TransactionIds(a.transactions) == TransactionIds(b.transactions);
      forall i | 0 <= i < |b.transactions| ensures c.transactionId(b.transactions[i].Body()) == b.transactions[i].id {
        IdsAreTexts(c, m, w, a, i, b, i);
      }
      forall i, j | 0 <= i < j < |b.transactions| ensures b.transactions[i].id != b.transactions[j].id {
        assert a.transactions[i].id != a.transactions[j].id;
      }
    }
  }

  // ---------------------------------------------------------------- what may come

  lemma {:induction false} ShapesCoinbase(a: seq<Transaction>, b: seq<Transaction>)
    requires SameShapes(a, b)
    ensures CoinbaseFirst(a) <==> CoinbaseFirst(b)
  {
    hide Shape;
    forall i | 0 <= i < |a| ensures a[i].IsCoinbase() == b[i].IsCoinbase() {
      InputsOf(a[i].Body(), b[i].Body());
    }
  }

  /** `b` with every appearance of `copy` put back to `b`. */
  function Restored(chain: seq<Block>, copy: Block, b: Block): (r: seq<Block>)
    ensures |r| == |chain|
    ensures forall k :: 0 <= k < |chain| ==> r[k] == if chain[k] == copy then b else chain[k]
  {
    if |chain| == 0 then []
    else Restored(chain[..|chain| - 1], copy, b) + [if chain[|chain| - 1] == copy then b else chain[|chain| - 1]]
  }

  predicate SameSteps(a: seq<Placed>, b: seq<Placed>) {
    |a| == |b| && forall i :: 0 <= i < |a| ==> a[i].tx.id == b[i].tx.id && a[i].tx.IsCoinbase() == b[i].tx.IsCoinbase()
  }

  lemma {:induction false} SameBlockSteps(a: Block, b: Block)
    requires SameShapes(a.transactions, b.transactions)
    ensures SameSteps(BlockSteps(a), BlockSteps(b))
  {
    hide Shape;
    forall i | 0 <= i < |a.transactions| ensures a.transactions[i].IsCoinbase() == b.transactions[i].IsCoinbase() {
      InputsOf(a.transactions[i].Body(), b.transactions[i].Body());
    }
  }

  lemma {:induction false} RestoredSteps(chain: seq<Block>, copy: Block, b: Block)
    requires SameShapes(copy.transactions, b.transactions)
    ensures SameSteps(Steps(chain), Steps(Restored(chain, copy, b)))
  {
    hide SameShapes;
    if |chain| > 0 {
      var n := |chain| - 1;
      RestoredSteps(chain[..n], copy, b);
      SameBlockSteps(copy, b);
      assert Restored(chain, copy, b)[..n] == Restored(chain[..n], copy, b);
    }
  }

  lemma {:induction false} RestoredBranch(c: Crypto, w: World, chain: seq<Block>, copy: Block, b: Block)
    requires OnBranch(c, World(w.headers, w.blocks + iset{copy}), chain) && b in w.blocks && Committed(c, b)
    requires copy.header == b.header && copy.hash == b.hash && (copy in chain ==> CoinbaseFirst(b.transactions))
    ensures OnBranch(c, w, Restored(chain, copy, b))
  {
    hide CoinbaseFirst, Committed;
    var r := Restored(chain, copy, b);
    forall k | 0 <= k < |r| ensures r[k].header == chain[k].header && r[k].hash == chain[k].hash {
    }
    forall k | 0 <= k < |r| ensures r[k] in w.blocks && CoinbaseFirst(r[k].transactions) && Committed(c, r[k]) {
      assert chain[k] in w.blocks || chain[k] == copy;
    }
  }

  lemma {:induction false} BranchStaysDistinct(c: Crypto, w: World, chain: seq<Block>, copy: Block, b: Block)
    requires IdsBind(c, w) && OnBranch(c, World(w.headers, w.blocks + iset{copy}), chain) && b in w.blocks
    requires Committed(c, b)
    requires copy.header == b.header && copy.hash == b.hash
    requires Committed(c, copy) ==> SameShapes(copy.transactions, b.transactions)
    ensures DistinctCoinbases(Steps(chain))
  {
    hide Committed, ShapesBind, RootsBind, Steps, SameShapes;
    if copy in chain {
      ShapesCoinbase(copy.transactions, b.transactions);
      RestoredBranch(c, w, chain, copy, b);
      RestoredSteps(chain, copy, b);
      var x, y := Steps(chain), Steps(Restored(chain, copy, b));
      assert DistinctCoinbases(y);
      forall i, j | 0 <= i < j < |x| && x[i].tx.IsCoinbase() && x[j].tx.IsCoinbase() ensures x[i].tx.id != x[j].tx.id {
        assert y[i].tx.IsCoinbase() && y[j].tx.IsCoinbase();
      }
    } else {
      assert OnBranch(c, w, chain);
    }
  }

  lemma {:induction false} HeadersStayBound(c: Crypto, w: World, b: Block, copy: Block)
    requires HashesBind(c, w) && b in w.blocks && copy.header == b.header && copy.hash == b.hash
    ensures HashesBind(c, World(w.headers, w.blocks + iset{copy}))
  {
  }

  /**
   * Whatever body comes under a known header, the standing assumptions go on holding as long as the digest shows no
   * collision; and what comes respells a known block exactly when that is the one it shares its header with.
   */
  lemma {:induction false} AnyBodyMayCome(r: Rules, m: Writing, w: World, b: Block, txs: seq<Transaction>)
    requires Assumes(r, w) && OneSpelling(r.Crypto(), w) && b in w.blocks && Committed(r.Crypto(), b)
    requires Computes(r.Crypto(), m)
    requires var more := World(w.headers, w.blocks + iset{b.(transactions := txs)});
             NoCollision(m, more) && CleanWorld(more)
    ensures var copy := b.(transactions := txs);
            var more := World(w.headers, w.blocks + iset{copy});
            && Assumes(r, more)
            && (OneSpelling(r.Crypto(), more) <==> !Respells(r.Crypto(), b, copy))
            && (Respells(r.Crypto(), b, copy) <==> txs != b.transactions && SameTexts(m, b.transactions, txs))
  {
    var c, copy := r.Crypto(), b.(transactions := txs);
    var more := World(w.headers, w.blocks + iset{copy});
    HeadersStayBound(c, w, b, copy);
    RootsBindFromHash(c, m, more);
    ShapesBindFromHash(c, m, more);
    CommittedExactly(c, m, more, b, copy);
    hide HashesBind, ShapesBind, RootsBind, OnBranch, NoCollision, Computes, CleanWorld, SameTexts, SameShapes;
    if Committed(c, copy) {
      assert TransactionIds(copy.transactions) == TransactionIds(b.transactions) by { RootsAgree(c, more, copy, b); }
      ShapesOf(c, more, copy, b);
    }
    forall chain | OnBranch(c, more, chain) ensures DistinctCoinbases(Steps(chain)) {
      BranchStaysDistinct(c, w, chain, copy, b);
    }
    hide Committed;
    SpellingsWith(c, w, b, copy);
  }

  lemma {:induction false} RootsAgree(c: Crypto, w: World, a: Block, b: Block)
    requires RootsBind(c, w) && a in w.blocks && b in w.blocks && Committed(c, a) && Committed(c, b)
    requires a.header == b.header
    ensures TransactionIds(a.transactions) == TransactionIds(b.transactions)
  {
  }

  lemma {:induction false} SpellingsWith(c: Crypto, w: World, b: Block, copy: Block)
    requires OneSpelling(c, w) && b in w.blocks && Committed(c, b) && copy.hash == b.hash
    ensures OneSpelling(c, World(w.headers, w.blocks + iset{copy})) <==> !Respells(c, b, copy)
  {
    hide Committed;
    var more := World(w.headers, w.blocks + iset{copy});
    if !Respells(c, b, copy) {
      forall x, y | x in more.blocks && y in more.blocks ensures !Respells(c, x, y) {
        assert x in w.blocks ==> !Respells(c, x, b);
        assert y in w.blocks ==> !Respells(c, b, y);
      }
    } else {
      assert b in more.blocks && copy in more.blocks;
    }
  }
}
