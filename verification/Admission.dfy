/**
 * Which transactions are pending, in terms of the transactions alone (src/mempool/mempool.ts:61-124,
 * src/node/node.ts:1653-1674): which are admitted and what they displace, which leave when blocks are connected, and
 * which come back when blocks are abandoned.
 */
module Admission {

  import opened Ledger
  import opened Utxo
  import opened Pool
  import opened Mempools
  import opened BlockRules
  import opened PoolUpkeep

  // ---------------------------------------------------------------- sharing an outpoint

  predicate Shares(a: Transaction, b: Transaction) {
    exists i, j ::
      0 <= i < |a.inputs| && 0 <= j < |b.inputs| && a.inputs[i].outpoint == b.inputs[j].outpoint
  }

  /** The pending transactions that share an outpoint with `tx`, in order. */
  function Sharing(p: seq<Transaction>, tx: Transaction): seq<Transaction> {
    if |p| == 0 then []
    else if Shares(p[|p| - 1], tx) then Sharing(p[..|p| - 1], tx) + [p[|p| - 1]]
    else Sharing(p[..|p| - 1], tx)
  }

  /** Those that do not. */
  function Others(p: seq<Transaction>, tx: Transaction): seq<Transaction> {
    if |p| == 0 then []
    else if Shares(p[|p| - 1], tx) then Others(p[..|p| - 1], tx)
    else Others(p[..|p| - 1], tx) + [p[|p| - 1]]
  }

  lemma {:induction false} SharesExactly(a: Transaction, b: Transaction)
    ensures Shares(a, b) <==> !(a.Spends() !! b.Spends())
  {
    if Shares(a, b) {
      var i, j :| 0 <= i < |a.inputs| && 0 <= j < |b.inputs| && a.inputs[i].outpoint == b.inputs[j].outpoint;
      assert a.inputs[i].outpoint in a.Spends() && a.inputs[i].outpoint in b.Spends();
    }
  }

  lemma {:induction false} SplitBySharing(p: seq<Transaction>, tx: Transaction, n: nat)
    requires UniqueIds(p) && Unshared(p) && n <= |p|
    ensures Keeping(p[..n], Conflicts(p, tx)) == Sharing(p[..n], tx)
    ensures Dropping(p[..n], Conflicts(p, tx)) == Others(p[..n], tx)
  {
    hide UniqueIds, Unshared, Conflicts, Shares;
    if n > 0 {
      SplitBySharing(p, tx, n - 1);
      assert p[..n][..n - 1] == p[..n - 1];
      ConflictsShare(p, tx, n - 1);
      SharesExactly(p[n - 1], tx);
    }
  }

  lemma {:induction false} Displaced(p: seq<Transaction>, tx: Transaction)
    requires UniqueIds(p) && Unshared(p)
    ensures Keeping(p, Conflicts(p, tx)) == Sharing(p, tx) && Dropping(p, Conflicts(p, tx)) == Others(p, tx)
  {
    hide UniqueIds, Unshared, Conflicts, Sharing, Others, Keeping, Dropping;
    SplitBySharing(p, tx, |p|);
    assert p[..|p|] == p;
  }

  // ---------------------------------------------------------------- admission

  /**
   * A transaction is admitted if and only if it is new, spends something, pays the minimum, is valid in the next block,
   * displaces no more than allowed and pays for all it displaces and the minimum besides, and, if the pool is full
   * without those, pays more than one of the others.
   */
  lemma {:induction false} AdmissibleExactly(
    policy: Policy, r: SpendRules, u: Utxos, p: seq<Transaction>, tx: Transaction, height: int)
    requires Sound(policy, p)
    ensures Admissible(policy, r, u, p, tx, height) <==>
      && (forall k :: 0 <= k < |p| ==> p[k].id != tx.id) && 0 < |tx.inputs| && policy.minFee <= tx.fee
      && ValidTx(r, u, tx, height) && |Sharing(p, tx)| <= policy.maxReplacements
      && (Sharing(p, tx) != [] ==> TotalFees(Sharing(p, tx)) + policy.minFee <= tx.fee)
      && (policy.maxSize.Some? && policy.maxSize.value <= |Others(p, tx)| ==>
            exists k :: 0 <= k < |Others(p, tx)| && Others(p, tx)[k].fee < tx.fee)
  {
    hide UniqueIds, Unshared, Conflicts, Sharing, Others, Keeping, Dropping, ValidTx, TotalFees, Ids;
    Displaced(p, tx);
    NamedSomewhere(p, tx.id);
    var kept := Others(p, tx);
    if 0 < |kept| {
      var i := LowestFee(kept);
      assert forall k :: 0 <= k < |kept| && kept[k].fee < tx.fee ==> kept[i].fee < tx.fee;
    }
  }

  /** What it displaces: everything it shares an outpoint with, or, in a pool that is full without, the first of those
      that pay least. */
  lemma {:induction false} RoomExactly(policy: Policy, p: seq<Transaction>, tx: Transaction) returns (i: nat)
    requires Sound(policy, p)
    ensures var kept := Others(p, tx);
            if policy.maxSize.Some? && policy.maxSize.value <= |kept| && 0 < |kept| then
              && i < |kept| && MakeRoom(policy, p, tx) == kept[..i] + kept[i + 1..]
              && (forall k :: 0 <= k < |kept| ==> kept[i].fee <= kept[k].fee)
              && (forall k :: 0 <= k < i ==> kept[i].fee < kept[k].fee)
            else MakeRoom(policy, p, tx) == kept
  {
    hide UniqueIds, Unshared, Conflicts, Sharing, Others, Keeping, Dropping;
    Displaced(p, tx);
    DroppingSound(policy, p, Conflicts(p, tx));
    var kept := Others(p, tx);
    i := 0;
    if 0 < |kept| {
      i := LowestFee(kept);
      DropAt(kept, i);
    }
  }

  lemma {:induction false} DropAt(p: seq<Transaction>, i: nat)
    requires UniqueIds(p) && i < |p|
    ensures Dropping(p, {p[i].id}) == p[..i] + p[i + 1..]
  {
    hide Ids;
    var n := |p| - 1;
    var front, last := p[..n], p[n];
    if i < n {
      DropAt(front, i);
      InIds(front, i);
      WithoutOne(p, i);
    } else {
      assert {last.id} !! Ids(front);
      DroppingNone(front, {last.id});
      assert p[..i] + p[i + 1..] == front;
    }
  }

  lemma {:induction false} WithoutOne(p: seq<Transaction>, i: nat)
    requires i < |p| - 1
    ensures p[..i] + p[i + 1..] == p[..|p| - 1][..i] + p[..|p| - 1][i + 1..] + [p[|p| - 1]]
  {
  }

  // ---------------------------------------------------------------- what connected blocks take

  /** Some block carries the transaction's id or spends one of its outpoints. */
  predicate Taken(tx: Transaction, bs: seq<Block>) {
    exists k, j ::
      && 0 <= k < |bs| && 0 <= j < |bs[k].transactions|
      && (bs[k].transactions[j].id == tx.id || Shares(bs[k].transactions[j], tx))
  }

  lemma {:induction false} IncludedSomewhere(bs: seq<Block>, id: Hash)
    ensures id in IncludedIds(bs) <==>
      exists k, j :: 0 <= k < |bs| && 0 <= j < |bs[k].transactions| && bs[k].transactions[j].id == id
  {
    if |bs| > 0 {
      var front, last := bs[..|bs| - 1], bs[|bs| - 1];
      IncludedSomewhere(front, id);
      NamedSomewhere(last.transactions, id);
      assert forall k :: 0 <= k < |front| ==> front[k] == bs[k];
    }
  }

  lemma {:induction false} SpentSomewhere(bs: seq<Block>, tx: Transaction)
    ensures !(tx.Spends() !! SpentIn(bs)) <==>
      exists k, j :: 0 <= k < |bs| && 0 <= j < |bs[k].transactions| && Shares(bs[k].transactions[j], tx)
  {
    hide Shares;
    if |bs| > 0 {
      var front, last := bs[..|bs| - 1], bs[|bs| - 1];
      SpentSomewhere(front, tx);
      ApartFromAll(last.transactions, tx);
      forall j | 0 <= j < |last.transactions|
        ensures Shares(last.transactions[j], tx) <==> !(last.transactions[j].Spends() !! tx.Spends())
      {
        SharesExactly(last.transactions[j], tx);
      }
      assert forall k :: 0 <= k < |front| ==> front[k] == bs[k];
    }
  }

  lemma {:induction false} ClashingExactly(p: seq<Transaction>, spent: set<Outpoint>, i: nat)
    requires UniqueIds(p) && i < |p|
    ensures p[i].id in Clashing(p, spent) <==> !(p[i].Spends() !! spent)
  {
    var front, last := p[..|p| - 1], p[|p| - 1];
    if i < |p| - 1 {
      ClashingExactly(front, spent, i);
      InIds(front, i);
    } else {
      ClashingNamed(front, spent, last.id);
    }
  }

  lemma {:induction false} ClashingNamed(p: seq<Transaction>, spent: set<Outpoint>, id: Hash)
    ensures id in Clashing(p, spent) ==> id in Ids(p)
  {
    if |p| > 0 {
      ClashingNamed(p[..|p| - 1], spent, id);
    }
  }

  lemma {:induction false} DroppedExactly(p: seq<Transaction>, ids: set<Hash>, tx: Transaction)
    ensures tx in Dropping(p, ids) <==> tx in p && tx.id !in ids
  {
    if |p| > 0 {
      var front, last := p[..|p| - 1], p[|p| - 1];
      DroppedExactly(front, ids, tx);
      assert p == front + [last];
    }
  }

  /** A pending transaction survives connected blocks if and only if none of them carries it or spends what it
      spends. */
  lemma {:induction false} SurvivesExactly(p: seq<Transaction>, connected: seq<Block>, tx: Transaction)
    requires UniqueIds(p)
    ensures tx in Surviving(p, connected) <==> tx in p && !Taken(tx, connected)
  {
    hide UniqueIds, Dropping, Clashing, Shares, SpentIn, IncludedIds;
    var included, spent := IncludedIds(connected), SpentIn(connected);
    var left := Dropping(p, included);
    DroppedExactly(p, included, tx);
    DroppedExactly(left, Clashing(left, spent), tx);
    DroppingIds(p, included);
    IncludedSomewhere(connected, tx.id);
    SpentSomewhere(connected, tx);
    if tx in left {
      var i :| 0 <= i < |left| && left[i] == tx;
      ClashingExactly(left, spent, i);
    }
  }

  // ---------------------------------------------------------------- what abandoned blocks give back

  lemma {:induction false} EligibleIn(txs: seq<Transaction>, included: set<Hash>, tx: Transaction)
    ensures tx in Eligible(txs, included) <==> tx in txs && 0 < |tx.inputs| && tx.id !in included
  {
    if |txs| > 0 {
      var front, last := txs[..|txs| - 1], txs[|txs| - 1];
      EligibleIn(front, included, tx);
      assert txs == front + [last];
    }
  }

  /** Offered again are exactly the transactions of abandoned blocks that are no coinbases and were not included. */
  lemma {:induction false} OfferedAgainExactly(bs: seq<Block>, included: set<Hash>, tx: Transaction)
    ensures tx in AllEligible(bs, included) <==>
      0 < |tx.inputs| && tx.id !in included && exists k :: 0 <= k < |bs| && tx in bs[k].transactions
  {
    if |bs| > 0 {
      var front, last := bs[..|bs| - 1], bs[|bs| - 1];
      OfferedAgainExactly(front, included, tx);
      EligibleIn(last.transactions, included, tx);
      assert forall k :: 0 <= k < |front| ==> front[k] == bs[k];
    }
  }

  lemma {:induction false} NothingShared(p: seq<Transaction>, tx: Transaction)
    requires forall k :: 0 <= k < |p| ==> !Shares(p[k], tx)
    ensures Sharing(p, tx) == [] && Others(p, tx) == p
  {
    if |p| > 0 {
      NothingShared(p[..|p| - 1], tx);
      assert p == p[..|p| - 1] + [p[|p| - 1]];
    }
  }

  /** With room for all, everything that is offered again, valid and in nobody's way comes back, in order. */
  lemma {:induction false} AllComeBack(
    policy: Policy, r: SpendRules, u: Utxos, p: seq<Transaction>, txs: seq<Transaction>, height: int)
    requires Sound(policy, p) && policy.maxSize.None?
    requires forall k :: 0 <= k < |txs| ==>
      0 < |txs[k].inputs| && policy.minFee <= txs[k].fee && ValidTx(r, u, txs[k], height)
    requires forall i, j :: 0 <= i < j < |p + txs| ==>
      (p + txs)[i].id != (p + txs)[j].id && !Shares((p + txs)[i], (p + txs)[j])
    ensures Offered(policy, r, u, p, txs, height) == p + txs && Sound(policy, p + txs)
  {
    hide ValidTx, Shares, UniqueIds, Unshared, Conflicts, MakeRoom, Admissible, Sharing, Others, TotalFees;
    if |txs| == 0 {
      assert p + txs == p;
    } else {
      var n := |txs| - 1;
      var front, tx := txs[..n], txs[n];
      var before := p + front;
      assert p + txs == before + [tx];
      assert (p + txs)[|before|] == tx && forall i :: 0 <= i < |before| ==> before[i] == (p + txs)[i];
      AllComeBack(policy, r, u, p, front, height);
      NothingShared(before, tx);
      AdmissibleExactly(policy, r, u, before, tx, height);
      var i := RoomExactly(policy, before, tx);
      AdmitSound(policy, r, u, before, tx, height);
    }
  }
}
