/**
 * What the pool loses and regains when the tip moves (src/node/node.ts:1653-1674): included and
 * double-spent transactions leave, abandoned ones are offered again.
 */
module PoolUpkeep {

  import opened Ledger
  import opened Utxo
  import opened Chain
  import opened Pool
  import opened Mempools
  import opened BlockRules
  import opened Pending

  function IncludedIds(bs: seq<Block>): set<Hash> {
    if |bs| == 0 then {} else IncludedIds(bs[..|bs| - 1]) + Ids(bs[|bs| - 1].transactions)
  }

  function SpentIn(bs: seq<Block>): set<Outpoint> {
    if |bs| == 0 then {} else SpentIn(bs[..|bs| - 1]) + AllSpends(bs[|bs| - 1].transactions)
  }

  /** The pending transactions that spend an outpoint in `spent`. */
  function Clashing(p: seq<Transaction>, spent: set<Outpoint>): set<Hash> {
    if |p| == 0 then {}
    else if p[|p| - 1].Spends() !! spent then Clashing(p[..|p| - 1], spent)
    else Clashing(p[..|p| - 1], spent) + {p[|p| - 1].id}
  }

  /** What is left of the pool once the connected blocks have taken their part. */
  function Surviving(p: seq<Transaction>, connected: seq<Block>): seq<Transaction> {
    var left := Dropping(p, IncludedIds(connected));
    Dropping(left, Clashing(left, SpentIn(connected)))
  }

  lemma {:induction false} ClashingListed(p: seq<Transaction>, spent: set<Outpoint>, i: nat)
    requires i < |p| && !(p[i].Spends() !! spent)
    ensures p[i].id in Clashing(p, spent)
  {
    if i < |p| - 1 {
      ClashingListed(p[..|p| - 1], spent, i);
    }
  }

  /** A survivor was pending before and spends nothing that the connected blocks spent. */
  lemma {:induction false} SurvivorAvoids(p: seq<Transaction>, connected: seq<Block>, k: nat) returns (i: nat)
    requires k < |Surviving(p, connected)|
    ensures i < |p| && p[i] == Surviving(p, connected)[k] && p[i].id !in IncludedIds(connected)
    ensures p[i].Spends() !! SpentIn(connected)
  {
    var left := Dropping(p, IncludedIds(connected));
    var j := DroppingMember(left, Clashing(left, SpentIn(connected)), k);
    if !(left[j].Spends() !! SpentIn(connected)) {
      ClashingListed(left, SpentIn(connected), j);
    }
    i := DroppingMember(p, IncludedIds(connected), j);
  }

  lemma {:induction false} SpendsListed(txs: seq<Transaction>, j: nat, o: Outpoint)
    requires j < |txs| && o in txs[j].Spends()
    ensures o in AllSpends(txs)
  {
    if j < |txs| - 1 {
      SpendsListed(txs[..|txs| - 1], j, o);
    }
  }

  lemma {:induction false} SpentListed(bs: seq<Block>, k: nat, o: Outpoint)
    requires k < |bs| && o in AllSpends(bs[k].transactions)
    ensures o in SpentIn(bs)
  {
    if k < |bs| - 1 {
      SpentListed(bs[..|bs| - 1], k, o);
    }
  }

  /** A transaction that spends nothing spent in `bs` avoids each of its blocks. */
  lemma {:induction false} AvoidsBlock(tx: Transaction, bs: seq<Block>, k: nat)
    requires tx.Spends() !! SpentIn(bs) && k < |bs|
    ensures Avoids(BlockSteps(bs[k]), tx.inputs)
  {
    var txs := bs[k].transactions;
    forall j, n | 0 <= j < |txs| && 0 <= n < |tx.inputs|
      ensures tx.inputs[n].outpoint !in txs[j].Spends()
    {
      assert tx.inputs[n].outpoint in tx.Spends();
      if tx.inputs[n].outpoint in txs[j].Spends() {
        SpendsListed(txs, j, tx.inputs[n].outpoint);
        SpentListed(bs, k, tx.inputs[n].outpoint);
      }
    }
  }

  predicate AllAvoid(p: seq<Transaction>, more: seq<Block>) {
    forall i, k :: 0 <= i < |p| && 0 <= k < |more| ==> Avoids(BlockSteps(more[k]), p[i].inputs)
  }

  lemma {:induction false} ExtensionsKeepPool(
    r: SpendRules, chain: seq<Block>, more: seq<Block>, p: seq<Transaction>, height: int)
    requires DistinctIds(Steps(chain + more)) && PoolValid(r, UtxoOf(chain), p, height) && AllAvoid(p, more)
    ensures PoolValid(r, UtxoOf(chain + more), p, height + |more|)
  {
    hide PoolValid, UtxoOf, Steps, DistinctIds, Avoids, BlockSteps;
    if |more| == 0 {
      assert chain + more == chain;
    } else {
      var n := |more| - 1;
      assert chain + more == (chain + more[..n]) + [more[n]];
      assert (chain + more)[..|chain| + n] == chain + more[..n];
      DistinctIdsPrefix(chain + more, |chain| + n);
      ExtensionsKeepPool(r, chain, more[..n], p, height);
      ExtensionKeepsPool(r, chain + more[..n], more[n], p, height + n);
    }
  }

  /** Survivors of a plain extension stay valid in the next block. */
  lemma {:induction false} SurvivorsStayValid(
    r: SpendRules, chain: seq<Block>, more: seq<Block>, p: seq<Transaction>, height: int)
    requires DistinctIds(Steps(chain + more)) && PoolValid(r, UtxoOf(chain), p, height)
    ensures PoolValid(r, UtxoOf(chain + more), Surviving(p, more), height + |more|)
  {
    hide ValidTx, UtxoOf, Steps, DistinctIds, Surviving, Avoids;
    var q := Surviving(p, more);
    forall i | 0 <= i < |q|
      ensures !q[i].IsCoinbase() && ValidTx(r, UtxoOf(chain), q[i], height) && q[i].Spends() !! SpentIn(more)
    {
      var j := SurvivorAvoids(p, more, i);
    }
    forall i, k | 0 <= i < |q| && 0 <= k < |more| ensures Avoids(BlockSteps(more[k]), q[i].inputs) {
      AvoidsBlock(q[i], more, k);
    }
    ExtensionsKeepPool(r, chain, more, q, height);
  }

  // ---------------------------------------------------------------- the upkeep itself

  method RemoveIncluded(pool: Mempool, connected: seq<Block>)
    requires pool.Valid()
    modifies pool
    ensures pool.Valid() && pool.pending == Dropping(old(pool.pending), IncludedIds(connected))
  {
    hide Sound, Dropping, Ids;
    DroppingNothing(pool.pending);
    for k := 0 to |connected|
      invariant pool.Valid() && pool.pending == Dropping(old(pool.pending), IncludedIds(connected[..k]))
    {
      TakeOneMore(connected, k);
      var txs := connected[k].transactions;
      ghost var before := IncludedIds(connected[..k]);
      NoIds();
      assert before + Ids(txs[..0]) == before;
      for j := 0 to |txs|
        invariant pool.Valid() && pool.pending == Dropping(old(pool.pending), before + Ids(txs[..j]))
      {
        TakeOneMore(txs, j);
        IdsPush(txs[..j], txs[j]);
        DroppingTwice(old(pool.pending), before + Ids(txs[..j]), {txs[j].id});
        assert before + Ids(txs[..j]) + {txs[j].id} == before + Ids(txs[..j + 1]);
        pool.Remove(txs[j].id);
      }
      assert txs[..|txs|] == txs;
    }
    assert connected[..|connected|] == connected;
  }

  lemma {:induction false} DroppingNothing(p: seq<Transaction>)
    ensures Dropping(p, {}) == p && IncludedIds([]) == {}
  {
    DroppingNone(p, {});
  }

  lemma {:induction false} NoIds()
    ensures Ids([]) == {}
  {
  }

  method CollectSpent(connected: seq<Block>) returns (spent: set<Outpoint>)
    ensures spent == SpentIn(connected)
  {
    spent := {};
    for k := 0 to |connected|
      invariant spent == SpentIn(connected[..k])
    {
      TakeOneMore(connected, k);
      var txs := connected[k].transactions;
      ghost var before := spent;
      for j := 0 to |txs|
        invariant spent == before + AllSpends(txs[..j])
      {
        TakeOneMore(txs, j);
        spent := spent + txs[j].Spends();
      }
      assert txs[..|txs|] == txs;
    }
    assert connected[..|connected|] == connected;
  }

  method RemoveClashing(pool: Mempool, spent: set<Outpoint>)
    requires pool.Valid()
    modifies pool
    ensures pool.Valid() && pool.pending == Dropping(old(pool.pending), Clashing(old(pool.pending), spent))
  {
    hide Sound, Dropping;
    var txs := pool.pending;
    DroppingNothing(txs);
    for k := 0 to |txs|
      invariant pool.Valid() && pool.pending == Dropping(txs, Clashing(txs[..k], spent))
    {
      TakeOneMore(txs, k);
      if !(txs[k].Spends() !! spent) {
        DroppingTwice(txs, Clashing(txs[..k], spent), {txs[k].id});
        pool.Remove(txs[k].id);
      }
    }
    assert txs[..|txs|] == txs;
  }

  /** The abandoned transactions worth offering again, in block order. */
  function Eligible(txs: seq<Transaction>, included: set<Hash>): seq<Transaction> {
    if |txs| == 0 then []
    else if |txs[|txs| - 1].inputs| > 0 && txs[|txs| - 1].id !in included then
      Eligible(txs[..|txs| - 1], included) + [txs[|txs| - 1]]
    else Eligible(txs[..|txs| - 1], included)
  }

  function AllEligible(bs: seq<Block>, included: set<Hash>): seq<Transaction> {
    if |bs| == 0 then [] else AllEligible(bs[..|bs| - 1], included) + Eligible(bs[|bs| - 1].transactions, included)
  }

  /** The pool after each of `txs` has been offered in turn. */
  function Offered(
    policy: Policy, r: SpendRules, u: Utxos, p: seq<Transaction>, txs: seq<Transaction>,
    height: int): seq<Transaction> {
    if |txs| == 0 then p else
    var before, tx := Offered(policy, r, u, p, txs[..|txs| - 1], height), txs[|txs| - 1];
    if Admissible(policy, r, u, before, tx, height) then MakeRoom(policy, before, tx) + [tx] else before
  }

  lemma {:induction false} OfferedMore(
    policy: Policy, r: SpendRules, u: Utxos, p: seq<Transaction>, txs: seq<Transaction>, tx: Transaction, height: int)
    ensures Offered(policy, r, u, p, txs + [tx], height)
            == var before := Offered(policy, r, u, p, txs, height);
               if Admissible(policy, r, u, before, tx, height) then MakeRoom(policy, before, tx) + [tx] else before
  {
    hide Admissible, MakeRoom;
    assert (txs + [tx])[..|txs|] == txs;
  }

  lemma {:induction false} EligibleMore(done: seq<Transaction>, txs: seq<Transaction>, j: nat, included: set<Hash>)
    requires j < |txs|
    ensures done + Eligible(txs[..j + 1], included)
            == if |txs[j].inputs| > 0 && txs[j].id !in included then (done + Eligible(txs[..j], included)) + [txs[j]]
               else done + Eligible(txs[..j], included)
  {
    TakeOneMore(txs, j);
  }

  lemma {:induction false} NoneEligible(done: seq<Transaction>, txs: seq<Transaction>, included: set<Hash>)
    ensures done + Eligible(txs[..0], included) == done && AllEligible([], included) == []
  {
  }

  method OfferAgain(pool: Mempool, disconnected: seq<Block>, included: set<Hash>, spendingHeight: int)
    requires pool.Valid()
    modifies pool
    ensures pool.Valid()
    ensures pool.pending == Offered(pool.policy, pool.utxoSet.rules, pool.utxoSet.View(), old(pool.pending),
                                    AllEligible(disconnected, included), spendingHeight)
  {
    hide Sound, Admissible, MakeRoom, Conflicts, Offered, Eligible;
    ghost var policy, r, u, p := pool.policy, pool.utxoSet.rules, pool.utxoSet.View(), pool.pending;
    NothingOffered(policy, r, u, p, spendingHeight);
    for k := 0 to |disconnected|
      invariant pool.Valid()
      invariant pool.pending == Offered(policy, r, u, p, AllEligible(disconnected[..k], included), spendingHeight)
    {
      TakeOneMore(disconnected, k);
      var txs := disconnected[k].transactions;
      ghost var done := AllEligible(disconnected[..k], included);
      NoneEligible(done, txs, included);
      for j := 0 to |txs|
        invariant pool.Valid()
        invariant pool.pending == Offered(policy, r, u, p, done + Eligible(txs[..j], included), spendingHeight)
      {
        EligibleMore(done, txs, j, included);
        if |txs[j].inputs| > 0 && txs[j].id !in included {
          OfferedMore(policy, r, u, p, done + Eligible(txs[..j], included), txs[j], spendingHeight);
          var admission := pool.AddTransaction(txs[j], spendingHeight);
        }
      }
      assert txs[..|txs|] == txs;
    }
    assert disconnected[..|disconnected|] == disconnected;
  }

  lemma {:induction false} NothingOffered(policy: Policy, r: SpendRules, u: Utxos, p: seq<Transaction>, height: int)
    ensures Offered(policy, r, u, p, [], height) == p
  {
  }

  /** After a tip change: the survivors, and on a reorganisation whatever abandoned transactions are admitted again. */
  method UpdatePool(pool: Mempool, connected: seq<Block>, disconnected: seq<Block>, spendingHeight: int)
    requires pool.Valid()
    modifies pool
    ensures pool.Valid()
    ensures pool.pending == Offered(pool.policy, pool.utxoSet.rules, pool.utxoSet.View(),
      Surviving(old(pool.pending), connected),
                                    AllEligible(disconnected, IncludedIds(connected)), spendingHeight)
    ensures disconnected == [] ==> pool.pending == Surviving(old(pool.pending), connected)
  {
    hide Sound, Dropping, Clashing, Offered;
    RemoveIncluded(pool, connected);
    var spent := CollectSpent(connected);
    RemoveClashing(pool, spent);
    NothingOffered(pool.policy, pool.utxoSet.rules, pool.utxoSet.View(), pool.pending, spendingHeight);
    OfferAgain(pool, disconnected, IncludedIds(connected), spendingHeight);
  }
}
