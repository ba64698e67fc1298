/** A fee bump meets the pool that holds its original (src/wallet/txBuilder.ts:163-197,
    src/mempool/mempool.ts:74-105). */
module Bumping {

  import opened Ledger
  import opened Utxo
  import opened Pool
  import opened Mempools
  import opened Templates
  import opened Wallet

  lemma {:induction false} SameOutpointsSpent(a: Transaction, b: Transaction)
    requires Outpoints(a.inputs) == Outpoints(b.inputs)
    ensures a.Spends() == b.Spends() && |a.inputs| == |b.inputs|
  {
    assert |Outpoints(a.inputs)| == |a.inputs| && |Outpoints(b.inputs)| == |b.inputs|;
    forall i | 0 <= i < |a.inputs| ensures a.inputs[i].outpoint == b.inputs[i].outpoint {
      assert Outpoints(a.inputs)[i] == Outpoints(b.inputs)[i];
    }
  }

  /** A transaction with the outpoints of a pending one conflicts with that one alone. */
  lemma {:induction false} ConflictsWithOne(p: seq<Transaction>, i: nat, tx: Transaction)
    requires UniqueIds(p) && Unshared(p) && i < |p| && !p[i].IsCoinbase()
    requires Outpoints(tx.inputs) == Outpoints(p[i].inputs)
    ensures Conflicts(p, tx) == {p[i].id}
  {
    hide UniqueIds, Unshared, Conflicts;
    SameOutpointsSpent(tx, p[i]);
    PoolIsApart(p);
    assert p[i].inputs[0].outpoint in p[i].Spends();
    ConflictsShare(p, tx, i);
    forall id | id in Conflicts(p, tx) ensures id == p[i].id {
      ConflictListed(p, tx, id);
      var k := FindId(p, id);
      ConflictsShare(p, tx, k);
    }
  }

  lemma {:induction false} ConflictListed(p: seq<Transaction>, tx: Transaction, id: Hash)
    requires id in Conflicts(p, tx)
    ensures id in Ids(p)
  {
    ClaimantsListed(p, tx.inputs);
  }

  /**
   * A pool that holds the original admits the bump exactly when the increase is at least the
   * minimum fee, replacing is allowed and the bump is new; it then loses the original and nothing else.
   */
  lemma {:induction false} BumpDisplacesOriginal(
    policy: Policy, r: SpendRules, u: Utxos, p: seq<Transaction>, i: nat, keys: KeyPair, newFee: int, timestamp: int,
    height: int)
    requires Sound(policy, p) && i < |p| && ValidTx(r, u, p[i], height) && Agrees(r.crypto, keys)
    requires Bumped(r.crypto, keys, p[i], newFee, timestamp).Some?
    ensures var tx := Bumped(r.crypto, keys, p[i], newFee, timestamp).value;
            && (Admissible(policy, r, u, p, tx, height)
                <==> tx.id !in Ids(p) && 1 <= policy.maxReplacements && p[i].fee + policy.minFee <= newFee)
            && MakeRoom(policy, p, tx) == Dropping(p, {p[i].id})
  {
    hide UniqueIds, Unshared, Conflicts, ValidTx, Bumped, TotalOut, Ids, Admissible, MakeRoom, LastOwn;
    var tx := Bumped(r.crypto, keys, p[i], newFee, timestamp).value;
    BumpConserves(r.crypto, keys, p[i], newFee, timestamp);
    BumpIsValid(r, u, keys, p[i], newFee, timestamp, height);
    SameOutpointsSpent(tx, p[i]);
    ConflictsWithOne(p, i, tx);
    FeeIsNonNegative(r, u, p[i], height);
    ReplacesOne(policy, r, u, p, i, tx, height);
  }

  lemma {:induction false} ReplacesOne(
    policy: Policy, r: SpendRules, u: Utxos, p: seq<Transaction>, i: nat, tx: Transaction, height: int)
    requires Sound(policy, p) && i < |p| && Conflicts(p, tx) == {p[i].id}
    requires ValidTx(r, u, tx, height) && !tx.IsCoinbase() && p[i].fee >= 0
    ensures Admissible(policy, r, u, p, tx, height)
            <==> tx.id !in Ids(p) && 1 <= policy.maxReplacements && p[i].fee + policy.minFee <= tx.fee
    ensures MakeRoom(policy, p, tx) == Dropping(p, {p[i].id})
  {
    hide UniqueIds, Unshared, Conflicts, ValidTx, Ids, Keeping, Dropping;
    DroppingNone(p, {});
    KeepingMore(p, {}, i);
    assert {} + {p[i].id} == {p[i].id};
    ReplacementLeavesRoom(policy, p, tx);
  }

  lemma {:induction false} FeeIsNonNegative(r: SpendRules, u: Utxos, tx: Transaction, height: int)
    requires ValidTx(r, u, tx, height)
    ensures 0 <= tx.fee
  {
  }
}
