/**
 * When pending transactions stay valid: across the blocks that extend the chain, and behind one
 * another in the block template made of them (src/node/node.ts:1042-1102, 1653-1663).
 */
module Pending {

  import opened Ledger
  import opened Utxo
  import opened Chain

  /** Every pending transaction is valid against `u` in a block at `height`. */
  predicate PoolValid(r: SpendRules, u: Utxos, p: seq<Transaction>, height: int) {
    forall k :: 0 <= k < |p| ==> !p[k].IsCoinbase() && ValidTx(r, u, p[k], height)
  }

  /** `v` says about the outpoints that `inputs` spend what `u` does. */
  predicate SameFunds(u: Utxos, v: Utxos, inputs: seq<TxInput>) {
    forall i :: 0 <= i < |inputs| ==> Look(v, inputs[i].outpoint) == Look(u, inputs[i].outpoint)
  }

  lemma {:induction false} SameTotalIn(u: Utxos, v: Utxos, inputs: seq<TxInput>)
    requires SameFunds(u, v, inputs) && forall i :: 0 <= i < |inputs| ==> inputs[i].outpoint in u
    ensures forall i :: 0 <= i < |inputs| ==> inputs[i].outpoint in v
    ensures TotalIn(v, inputs) == TotalIn(u, inputs)
  {
    forall i | 0 <= i < |inputs| ensures inputs[i].outpoint in v {
      assert Look(v, inputs[i].outpoint) == Look(u, inputs[i].outpoint);
    }
    if |inputs| > 0 {
      var n := |inputs| - 1;
      assert Look(v, inputs[n].outpoint) == Look(u, inputs[n].outpoint);
      SameTotalIn(u, v, inputs[..n]);
    }
  }

  /** A transaction whose inputs are left alone stays valid, at this height and above. */
  lemma {:induction false} StaysValid(r: SpendRules, u: Utxos, v: Utxos, tx: Transaction, height: int, later: int)
    requires ValidTx(r, u, tx, height) && SameFunds(u, v, tx.inputs) && height <= later
    ensures ValidTx(r, v, tx, later)
  {
    hide ValidStructure;
    if !tx.IsCoinbase() {
      ValidIsFunded(r, u, tx, height);
      SameTotalIn(u, v, tx.inputs);
      forall i | 0 <= i < |tx.inputs|
        ensures InputAllowed(r, v, Payload(tx.Body()), tx.inputs[i], later)
      {
        assert InputAllowed(r, u, Payload(tx.Body()), tx.inputs[i], height);
        assert Look(v, tx.inputs[i].outpoint) == Look(u, tx.inputs[i].outpoint);
      }
    }
  }

  /** No transaction of `steps` spends an outpoint that `inputs` spend. */
  predicate Avoids(steps: seq<Placed>, inputs: seq<TxInput>) {
    forall j, i :: 0 <= j < |steps| && 0 <= i < |inputs| ==> inputs[i].outpoint !in steps[j].tx.Spends()
  }

  /** No transaction of `steps` repeats an id of `before`. */
  predicate NewIds(before: seq<Placed>, steps: seq<Placed>) {
    forall k, j :: 0 <= k < |before| && 0 <= j < |steps| ==> before[k].tx.id != steps[j].tx.id
  }

  /** Steps with new ids that spend none of its inputs leave a transaction's funds alone. */
  lemma {:induction false} FundsLeftAlone(before: seq<Placed>, steps: seq<Placed>, inputs: seq<TxInput>)
    requires Avoids(steps, inputs) && NewIds(before, steps)
    requires forall i :: 0 <= i < |inputs| ==> inputs[i].outpoint in After(map[], before)
    ensures SameFunds(After(map[], before), After(After(map[], before), steps), inputs)
  {
    hide After;
    assert before[..|before|] == before;
    assert steps[..|steps|] == steps;
    forall i | 0 <= i < |inputs|
      ensures Look(After(After(map[], before), steps), inputs[i].outpoint)
        == Look(After(map[], before), inputs[i].outpoint)
    {
      var o := inputs[i].outpoint;
      var m := CreatorOf(map[], before, |before|, o);
      forall j | 0 <= j < |steps| ensures !Touches(steps[j], o) {
        assert before[m].tx.id != steps[j].tx.id;
      }
      UntouchedAfter(After(map[], before), steps, |steps|, o);
    }
  }

  /**
   * Extending the chain by a block keeps every pending transaction valid that does not spend what
   * the block spent.
   */
  lemma {:induction false} ExtensionKeepsPool(
    r: SpendRules, chain: seq<Block>, b: Block, p: seq<Transaction>, height: int)
    requires DistinctIds(Steps(chain + [b])) && PoolValid(r, UtxoOf(chain), p, height)
    requires forall k :: 0 <= k < |p| ==> Avoids(BlockSteps(b), p[k].inputs)
    ensures PoolValid(r, UtxoOf(chain + [b]), p, height + 1)
  {
    hide ValidTx, After, Steps, BlockSteps, Avoids;
    StepsPush(chain, b);
    ReplayPush(r, chain, b);
    var before, steps := Steps(chain), BlockSteps(b);
    NewIdsOf(before, steps);
    forall k | 0 <= k < |p| ensures !p[k].IsCoinbase() && ValidTx(r, UtxoOf(chain + [b]), p[k], height + 1) {
      ValidIsFunded(r, UtxoOf(chain), p[k], height);
      FundsLeftAlone(before, steps, p[k].inputs);
      StaysValid(r, UtxoOf(chain), UtxoOf(chain + [b]), p[k], height, height + 1);
    }
  }

  lemma {:induction false} NewIdsOf(before: seq<Placed>, steps: seq<Placed>)
    requires DistinctIds(before + steps)
    ensures NewIds(before, steps)
  {
    forall k, j | 0 <= k < |before| && 0 <= j < |steps| ensures before[k].tx.id != steps[j].tx.id {
      assert (before + steps)[k] == before[k] && (before + steps)[|before| + j] == steps[j];
    }
  }

  // ---------------------------------------------------------------- a block of pending transactions

  /** No two of the transactions share an id or an outpoint. */
  predicate Apart(p: seq<Transaction>) {
    forall i, j :: 0 <= i < j < |p| ==> p[i].id != p[j].id && p[i].Spends() !! p[j].Spends()
  }

  /** A pending transaction that shares the id of a chain transaction spends the same. */
  predicate IdsBindPending(c: Crypto, steps: seq<Placed>, p: seq<Transaction>) {
    forall k, j :: 0 <= k < |steps| && 0 <= j < |p|
      && c.transactionId(steps[k].tx.Body()) == c.transactionId(p[j].Body())
      ==> steps[k].tx.inputs == p[j].inputs
  }

  /** A valid pending transaction is not yet on the chain. */
  lemma {:induction false} PendingIsNew(
    r: SpendRules, steps: seq<Placed>, p: seq<Transaction>, height: int, k: nat, j: nat)
    requires Applies(r, map[], steps) && DistinctIds(steps) && PoolValid(r, After(map[], steps), p, height)
    requires IdsBindPending(r.crypto, steps, p) && k < |steps| && j < |p|
    ensures steps[k].tx.id != p[j].id
  {
    hide After, Applies, ValidTx, DistinctIds;
    if steps[k].tx.id == p[j].id {
      AppliesAt(r, map[], steps, k);
      HonestId(r, After(map[], steps[..k]), steps[k]);
      HonestId(r, After(map[], steps), Placed(p[j], height));
      NoRespend(r, steps, k, p[j], height);
    }
  }

  /** What a block of a coinbase and pending transactions needs in order to connect. */
  predicate Mineable(r: SpendRules, chain: seq<Block>, b: Block) {
    && 0 < |b.transactions| && b.transactions[0].IsCoinbase() && ValidStructure(r.crypto, b.transactions[0])
    && Apart(b.transactions[1..]) && PoolValid(r, UtxoOf(chain), b.transactions[1..], b.header.height)
    && NewIds(Steps(chain), [Placed(b.transactions[0], b.header.height)])
    && IdsBindPending(r.crypto, Steps(chain), b.transactions[1..])
  }

  lemma {:induction false} BlockIdsAreNew(r: SpendRules, chain: seq<Block>, b: Block, n: nat)
    requires Replays(r, chain) && DistinctIds(Steps(chain)) && Mineable(r, chain, b) && n <= |b.transactions|
    ensures NewIds(Steps(chain), BlockSteps(b)[..n])
  {
    hide Applies, ValidTx, DistinctIds, Steps, PoolValid, IdsBindPending;
    var before, steps, rest := Steps(chain), BlockSteps(b)[..n], b.transactions[1..];
    forall k, j | 0 <= k < |before| && 0 <= j < |steps| ensures before[k].tx.id != steps[j].tx.id {
      if j > 0 {
        assert steps[j].tx == rest[j - 1];
        PendingIsNew(r, before, rest, b.header.height, k, j - 1);
      } else {
        assert steps[j] == [Placed(b.transactions[0], b.header.height)][0];
      }
    }
  }

  lemma {:induction false} PrefixConnects(r: SpendRules, chain: seq<Block>, b: Block, n: nat)
    requires Replays(r, chain) && DistinctIds(Steps(chain)) && Mineable(r, chain, b) && n <= |b.transactions|
    ensures Applies(r, UtxoOf(chain), BlockSteps(b)[..n])
  {
    var steps, u := BlockSteps(b), UtxoOf(chain);
    if n > 0 {
      PrefixConnects(r, chain, b, n - 1);
      hide Applies, ValidTx, DistinctIds, Steps, IdsBindPending, NewIds, After;
      TakeOneMore(steps, n - 1);
      var tx := b.transactions[n - 1];
      if n == 1 {
        CoinbaseIsValid(r, After(u, steps[..n - 1]), tx, b.header.height);
      } else {
        assert tx == b.transactions[1..][n - 2];
        ValidIsFunded(r, u, tx, b.header.height);
        BlockIdsAreNew(r, chain, b, n - 1);
        EarlierAvoid(b, n - 1);
        FundsLeftAlone(Steps(chain), steps[..n - 1], tx.inputs);
        StaysValid(r, u, After(u, steps[..n - 1]), tx, b.header.height, b.header.height);
      }
      AppliesSnoc(r, u, steps[..n - 1], steps[n - 1]);
    }
  }

  lemma {:induction false} CoinbaseIsValid(r: SpendRules, u: Utxos, tx: Transaction, height: int)
    requires tx.IsCoinbase() && ValidStructure(r.crypto, tx)
    ensures ValidTx(r, u, tx, height)
  {
  }

  lemma {:induction false} EarlierAvoid(b: Block, n: nat)
    requires 0 < n < |b.transactions| && b.transactions[0].IsCoinbase() && Apart(b.transactions[1..])
    ensures Avoids(BlockSteps(b)[..n], b.transactions[n].inputs)
  {
    var steps, inputs, rest := BlockSteps(b)[..n], b.transactions[n].inputs, b.transactions[1..];
    forall j, i | 0 <= j < |steps| && 0 <= i < |inputs| ensures inputs[i].outpoint !in steps[j].tx.Spends() {
      assert steps[j].tx == b.transactions[j];
      assert inputs[i].outpoint in b.transactions[n].Spends();
      if j > 0 {
        assert rest[j - 1] == b.transactions[j] && rest[n - 1] == b.transactions[n];
      }
    }
  }

  /** Such a block connects to the chain it was made for. */
  lemma {:induction false} MineableConnects(r: SpendRules, chain: seq<Block>, b: Block)
    requires Replays(r, chain) && DistinctIds(Steps(chain)) && Mineable(r, chain, b)
    ensures Replays(r, chain + [b])
  {
    hide Applies, Mineable, DistinctIds, Steps, After, UtxoOf;
    PrefixConnects(r, chain, b, |b.transactions|);
    assert BlockSteps(b)[..|b.transactions|] == BlockSteps(b);
    ReplayPush(r, chain, b);
  }
}
