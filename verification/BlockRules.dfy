/** What a block may contain, checked before it is replayed (src/consensus/blockValidator.ts). */
module BlockRules {

  import opened Ledger
  import opened Consensus
  import opened Pool

  datatype Limits = Limits(maxBlockBytes: int, maxTransactions: int)

  /** The outpoints spent anywhere in `txs`. */
  function AllSpends(txs: seq<Transaction>): set<Outpoint> {
    if |txs| == 0 then {} else AllSpends(txs[..|txs| - 1]) + txs[|txs| - 1].Spends()
  }

  /** No id appears twice and no outpoint is spent by two of the transactions. */
  predicate Separate(txs: seq<Transaction>) {
    |txs| == 0 ||
    (var n := |txs| - 1;
     && Separate(txs[..n])
     && txs[n].id !in Ids(txs[..n])
     && txs[n].Spends() !! AllSpends(txs[..n]))
  }

  predicate CoinbaseFirst(txs: seq<Transaction>) {
    0 < |txs| && txs[0].IsCoinbase() && forall i :: 1 <= i < |txs| ==> !txs[i].IsCoinbase()
  }

  /** The rules on a block's transactions that need no chain state. */
  predicate SoundBody(c: Crypto, b: Block, reward: int, limits: Limits) {
    && CoinbaseFirst(b.transactions)
    && |b.transactions| <= limits.maxTransactions
    && c.blockBytes(b) <= limits.maxBlockBytes
    && c.merkleRoot(TransactionIds(b.transactions)) == b.header.merkleRoot
    && AllStructured(c, b.transactions)
    && Separate(b.transactions)
    && TotalOut(b.transactions[0].outputs) <= reward + TotalFees(b.transactions)
  }

  method CheckCoinbaseFirst(txs: seq<Transaction>) returns (ok: bool)
    requires 0 < |txs|
    ensures ok <==> CoinbaseFirst(txs)
  {
    if |txs[0].inputs| != 0 {
      return false;
    }
    for i := 1 to |txs|
      invariant forall k :: 1 <= k < i ==> !txs[k].IsCoinbase()
    {
      if |txs[i].inputs| == 0 {
        return false;
      }
    }
    return true;
  }

  /** The set as one transaction's inputs are added to it, until one is already there. */
  method AddSpends(inputs: seq<TxInput>, spent: set<Outpoint>) returns (ok: bool, now: set<Outpoint>)
    requires DistinctOutpoints(inputs)
    ensures ok <==> (set i | 0 <= i < |inputs| :: inputs[i].outpoint) !! spent
    ensures ok ==> now == spent + set i | 0 <= i < |inputs| :: inputs[i].outpoint
  {
    now := spent;
    for i := 0 to |inputs|
      invariant now == spent + set k | 0 <= k < i :: inputs[k].outpoint
      invariant forall k :: 0 <= k < i ==> inputs[k].outpoint !in spent
    {
      if inputs[i].outpoint in now {
        ghost var o := inputs[i].outpoint;
        assert o in spent by {
          forall k | 0 <= k < i ensures inputs[k].outpoint != o { }
        }
        assert o in set k | 0 <= k < |inputs| :: inputs[k].outpoint;
        return false, now;
      }
      now := now + {inputs[i].outpoint};
    }
    return true, now;
  }

  predicate AllStructured(c: Crypto, txs: seq<Transaction>) {
    forall i :: 0 <= i < |txs| ==> ValidStructure(c, txs[i])
  }

  lemma {:induction false} SeparateTake(txs: seq<Transaction>, i: nat)
    requires i <= |txs| && Separate(txs)
    ensures Separate(txs[..i])
    decreases |txs|
  {
    if i == |txs| {
      assert txs[..i] == txs;
    } else {
      assert txs[..|txs| - 1][..i] == txs[..i];
      SeparateTake(txs[..|txs| - 1], i);
    }
  }

  lemma {:induction false} NamedSomewhere(txs: seq<Transaction>, id: Hash)
    ensures id in Ids(txs) <==> exists i :: 0 <= i < |txs| && txs[i].id == id
  {
    if |txs| > 0 {
      var front := txs[..|txs| - 1];
      NamedSomewhere(front, id);
      assert forall i :: 0 <= i < |front| ==> front[i] == txs[i];
    }
  }

  /** Separate transactions, pair by pair. */
  lemma {:induction false} SeparateExactly(txs: seq<Transaction>)
    ensures Separate(txs) <==>
      forall i, j :: 0 <= i < j < |txs| ==> txs[i].id != txs[j].id && txs[i].Spends() !! txs[j].Spends()
  {
    if |txs| > 0 {
      var n := |txs| - 1;
      var front, last := txs[..n], txs[n];
      SeparateExactly(front);
      NamedSomewhere(front, last.id);
      assert forall i :: 0 <= i < n ==> front[i] == txs[i];
      ApartFromAll(front, last);
    }
  }

  lemma {:induction false} ApartFromAll(txs: seq<Transaction>, tx: Transaction)
    ensures tx.Spends() !! AllSpends(txs) <==> forall i :: 0 <= i < |txs| ==> txs[i].Spends() !! tx.Spends()
  {
    if |txs| > 0 {
      var front := txs[..|txs| - 1];
      ApartFromAll(front, tx);
      assert forall i :: 0 <= i < |front| ==> front[i] == txs[i];
    }
  }

  /**
   * The body rules spelled out: one coinbase and it comes first, within count and size, the root of the ids in order,
   * every transaction well-formed, no id twice, no outpoint spent twice, and a coinbase worth at most the reward and
   * the fees of all of them, its own included.
   */
  lemma {:induction false} SoundExactly(c: Crypto, b: Block, reward: int, limits: Limits)
    ensures SoundBody(c, b, reward, limits) <==>
      var txs := b.transactions;
      && 0 < |txs| <= limits.maxTransactions && c.blockBytes(b) <= limits.maxBlockBytes
      && (forall i :: 0 <= i < |txs| ==> (|txs[i].inputs| == 0 <==> i == 0))
      && c.merkleRoot(seq(|txs|, i requires 0 <= i < |txs| => txs[i].id)) == b.header.merkleRoot
      && (forall i :: 0 <= i < |txs| ==> ValidStructure(c, txs[i]))
      && (forall i, j :: 0 <= i < j < |txs| ==> txs[i].id != txs[j].id && txs[i].Spends() !! txs[j].Spends())
      && TotalOut(txs[0].outputs) <= reward + TotalFees(txs)
  {
    hide ValidStructure, TotalOut, TotalFees, Separate;
    var txs := b.transactions;
    SeparateExactly(txs);
    assert TransactionIds(txs) == seq(|txs|, i requires 0 <= i < |txs| => txs[i].id);
  }

  /** What the pass has seen after the transactions `txs`. */
  predicate Seen(c: Crypto, txs: seq<Transaction>, ids: set<Hash>, spent: set<Outpoint>, fees: int) {
    && ids == Ids(txs) && spent == AllSpends(txs) && fees == TotalFees(txs)
    && AllStructured(c, txs) && Separate(txs)
  }

  lemma {:induction false} SeenMore(
    c: Crypto, txs: seq<Transaction>, ids: set<Hash>, spent: set<Outpoint>, fees: int, i: nat)
    requires i < |txs| && Seen(c, txs[..i], ids, spent, fees)
    ensures !ValidStructure(c, txs[i]) || txs[i].id in ids || !(txs[i].Spends() !! spent)
            ==> !(AllStructured(c, txs) && Separate(txs))
    ensures ValidStructure(c, txs[i]) && txs[i].id !in ids && txs[i].Spends() !! spent
            ==> Seen(c, txs[..i + 1], ids + {txs[i].id}, spent + txs[i].Spends(), fees + txs[i].fee)
  {
    hide ValidStructure;
    TakeOneMore(txs, i);
    if Separate(txs) {
      SeparateTake(txs, i + 1);
    }
  }

  /** One pass over the transactions: ids and spends seen so far, and the fees collected. */
  method CheckTransactions(c: Crypto, txs: seq<Transaction>) returns (ok: bool, totalFees: int)
    ensures ok <==> AllStructured(c, txs) && Separate(txs)
    ensures ok ==> totalFees == TotalFees(txs)
  {
    var ids: set<Hash>, spent: set<Outpoint> := {}, {};
    totalFees := 0;
    assert Seen(c, txs[..0], ids, spent, totalFees);
    hide ValidStructure, Seen, AllStructured, Separate, TotalFees;
    for i := 0 to |txs|
      invariant Seen(c, txs[..i], ids, spent, totalFees)
    {
      SeenMore(c, txs, ids, spent, totalFees, i);
      var structured := ValidateTransactionStructure(c, txs[i]);
      if !structured {
        return false, totalFees;
      }
      if txs[i].id in ids {
        return false, totalFees;
      }
      ids := ids + {txs[i].id};
      StructureIsDistinct(c, txs[i]);
      var free;
      free, spent := AddSpends(txs[i].inputs, spent);
      if !free {
        return false, totalFees;
      }
      totalFees := totalFees + txs[i].fee;
    }
    assert txs[..|txs|] == txs;
    SeenAll(c, txs, ids, spent, totalFees);
    return true, totalFees;
  }

  lemma {:induction false} SeenAll(c: Crypto, txs: seq<Transaction>, ids: set<Hash>, spent: set<Outpoint>, fees: int)
    requires Seen(c, txs, ids, spent, fees)
    ensures AllStructured(c, txs) && Separate(txs) && fees == TotalFees(txs)
  {
  }

  lemma {:induction false} StructureIsDistinct(c: Crypto, tx: Transaction)
    requires ValidStructure(c, tx)
    ensures DistinctOutpoints(tx.inputs)
  {
  }

  method ValidateBlock(
    c: Crypto, e: Engine, b: Block, ctx: HeaderContext, reward: int, limits: Limits) returns (valid: bool)
    ensures valid <==> ValidateHeader(c, e, b.header, b.hash, ctx) == Valid && SoundBody(c, b, reward, limits)
  {
    hide ValidateHeader, ValidStructure, Separate;
    var verdict := ValidateHeader(c, e, b.header, b.hash, ctx);
    if verdict != Valid {
      return false;
    }
    if |b.transactions| == 0 || |b.transactions| > limits.maxTransactions {
      return false;
    }
    if c.blockBytes(b) > limits.maxBlockBytes {
      return false;
    }
    var coinbaseFirst := CheckCoinbaseFirst(b.transactions);
    if !coinbaseFirst {
      return false;
    }
    if c.merkleRoot(TransactionIds(b.transactions)) != b.header.merkleRoot {
      return false;
    }
    var ok, totalFees := CheckTransactions(c, b.transactions);
    if !ok {
      return false;
    }
    return TotalOut(b.transactions[0].outputs) <= reward + totalFees;
  }
}
