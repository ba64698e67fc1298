/**
 * Lists of pending transactions as values: filtering by id, the map from outpoints to the
 * transaction that claims them, and what admission does to fees. The specification that
 * the in-place `Mempool` is proved against.
 */
module Pool {

  import opened Ledger

  // ---------------------------------------------------------------- filtering by id

  function Ids(p: seq<Transaction>): set<Hash> {
    if |p| == 0 then {} else Ids(p[..|p| - 1]) + {p[|p| - 1].id}
  }

  predicate UniqueIds(p: seq<Transaction>) {
    |p| == 0 || (UniqueIds(p[..|p| - 1]) && p[|p| - 1].id !in Ids(p[..|p| - 1]))
  }

  function Dropping(p: seq<Transaction>, ids: set<Hash>): seq<Transaction> {
    if |p| == 0 then []
    else if p[|p| - 1].id in ids then Dropping(p[..|p| - 1], ids)
    else Dropping(p[..|p| - 1], ids) + [p[|p| - 1]]
  }

  function Keeping(p: seq<Transaction>, ids: set<Hash>): seq<Transaction> {
    if |p| == 0 then []
    else if p[|p| - 1].id in ids then Keeping(p[..|p| - 1], ids) + [p[|p| - 1]]
    else Keeping(p[..|p| - 1], ids)
  }

  lemma {:induction false} IdsPush(p: seq<Transaction>, tx: Transaction)
    ensures Ids(p + [tx]) == Ids(p) + {tx.id}
    ensures UniqueIds(p + [tx]) <==> UniqueIds(p) && tx.id !in Ids(p)
  {
    assert (p + [tx])[..|p|] == p;
  }

  lemma {:induction false} DroppingPush(p: seq<Transaction>, tx: Transaction, ids: set<Hash>)
    ensures Dropping(p + [tx], ids) == if tx.id in ids then Dropping(p, ids) else Dropping(p, ids) + [tx]
  {
    assert (p + [tx])[..|p|] == p;
  }

  lemma {:induction false} DroppingIds(p: seq<Transaction>, ids: set<Hash>)
    ensures Ids(Dropping(p, ids)) == Ids(p) - ids
    ensures UniqueIds(p) ==> UniqueIds(Dropping(p, ids))
  {
    if |p| > 0 {
      var front, last := p[..|p| - 1], p[|p| - 1];
      DroppingIds(front, ids);
      if last.id !in ids {
        IdsPush(Dropping(front, ids), last);
      }
    }
  }

  lemma {:induction false} DroppingTwice(p: seq<Transaction>, a: set<Hash>, b: set<Hash>)
    ensures Dropping(Dropping(p, a), b) == Dropping(p, a + b)
  {
    if |p| > 0 {
      var front, last := p[..|p| - 1], p[|p| - 1];
      DroppingTwice(front, a, b);
      if last.id !in a {
        DroppingPush(Dropping(front, a), last, b);
      }
    }
  }

  lemma {:induction false} DroppingNone(p: seq<Transaction>, ids: set<Hash>)
    requires Ids(p) !! ids
    ensures Dropping(p, ids) == p && Keeping(p, ids) == []
  {
    if |p| > 0 {
      DroppingNone(p[..|p| - 1], ids);
    }
  }

  /** Filtering splits the list and its fees in two. */
  lemma {:induction false} SplitByIds(p: seq<Transaction>, ids: set<Hash>)
    ensures |Dropping(p, ids)| + |Keeping(p, ids)| == |p|
    ensures TotalFees(Dropping(p, ids)) + TotalFees(Keeping(p, ids)) == TotalFees(p)
  {
    if |p| > 0 {
      var front, last := p[..|p| - 1], p[|p| - 1];
      SplitByIds(front, ids);
      TotalFeesAppend(Dropping(front, ids), last);
      TotalFeesAppend(Keeping(front, ids), last);
    }
  }

  /** Picking one more id picks its one transaction. */
  lemma {:induction false} KeepingMore(p: seq<Transaction>, ids: set<Hash>, i: nat)
    requires UniqueIds(p) && i < |p| && p[i].id !in ids
    ensures |Keeping(p, ids + {p[i].id})| == |Keeping(p, ids)| + 1
    ensures TotalFees(Keeping(p, ids + {p[i].id})) == TotalFees(Keeping(p, ids)) + p[i].fee
  {
    var front, last := p[..|p| - 1], p[|p| - 1];
    var more := ids + {p[i].id};
    TotalFeesAppend(Keeping(front, ids), last);
    TotalFeesAppend(Keeping(front, more), last);
    if i == |p| - 1 {
      KeepingSame(front, ids, last.id);
    } else {
      InIds(front, i);
      KeepingMore(front, ids, i);
    }
  }

  lemma {:induction false} InIds(p: seq<Transaction>, i: nat)
    requires i < |p|
    ensures p[i].id in Ids(p)
  {
    if i < |p| - 1 {
      InIds(p[..|p| - 1], i);
    }
  }

  lemma {:induction false} KeepingSame(p: seq<Transaction>, ids: set<Hash>, id: Hash)
    requires id !in Ids(p)
    ensures Keeping(p, ids + {id}) == Keeping(p, ids)
  {
    if |p| > 0 {
      KeepingSame(p[..|p| - 1], ids, id);
    }
  }

  lemma {:induction false} FindId(p: seq<Transaction>, id: Hash) returns (i: nat)
    requires id in Ids(p)
    ensures i < |p| && p[i].id == id
  {
    if p[|p| - 1].id == id {
      i := |p| - 1;
    } else {
      i := FindId(p[..|p| - 1], id);
    }
  }

  // ---------------------------------------------------------------- claims

  /** The claims `m` after `id` has claimed every outpoint of `inputs`. */
  function Claiming(m: map<Outpoint, Hash>, inputs: seq<TxInput>, id: Hash): map<Outpoint, Hash> {
    if |inputs| == 0 then m
    else Claiming(m, inputs[..|inputs| - 1], id)[inputs[|inputs| - 1].outpoint := id]
  }

  function ClaimOf(m: map<Outpoint, Hash>, o: Outpoint): Option<Hash> {
    if o in m then Some(m[o]) else None
  }

  lemma {:induction false} ClaimingAt(m: map<Outpoint, Hash>, inputs: seq<TxInput>, id: Hash, o: Outpoint)
    ensures ClaimOf(Claiming(m, inputs, id), o)
            == if exists i :: 0 <= i < |inputs| && inputs[i].outpoint == o then Some(id) else ClaimOf(m, o)
  {
    if |inputs| > 0 {
      var front := inputs[..|inputs| - 1];
      ClaimingAt(m, front, id, o);
      if exists i :: 0 <= i < |front| && front[i].outpoint == o {
        var i :| 0 <= i < |front| && front[i].outpoint == o;
        assert inputs[i].outpoint == o;
      } else if inputs[|inputs| - 1].outpoint != o {
        forall i | 0 <= i < |inputs| ensures inputs[i].outpoint != o {
          if i < |front| { assert front[i] == inputs[i]; }
        }
      }
    }
  }

  lemma {:induction false} ClaimingFor(m: map<Outpoint, Hash>, tx: Transaction, o: Outpoint)
    ensures ClaimOf(Claiming(m, tx.inputs, tx.id), o) == if o in tx.Spends() then Some(tx.id) else ClaimOf(m, o)
  {
    ClaimingAt(m, tx.inputs, tx.id, o);
  }

  /** Which pending transaction spends which outpoint. */
  function Claims(p: seq<Transaction>): map<Outpoint, Hash> {
    if |p| == 0 then map[] else Claiming(Claims(p[..|p| - 1]), p[|p| - 1].inputs, p[|p| - 1].id)
  }

  predicate Unclaimed(m: map<Outpoint, Hash>, inputs: seq<TxInput>) {
    forall i :: 0 <= i < |inputs| ==> inputs[i].outpoint !in m
  }

  /** No two of the transactions spend the same outpoint. */
  predicate Unshared(p: seq<Transaction>) {
    |p| == 0 || (Unshared(p[..|p| - 1]) && Unclaimed(Claims(p[..|p| - 1]), p[|p| - 1].inputs))
  }

  lemma {:induction false} ClaimsPush(p: seq<Transaction>, tx: Transaction)
    ensures Claims(p + [tx]) == Claiming(Claims(p), tx.inputs, tx.id)
    ensures Unshared(p + [tx]) <==> Unshared(p) && Unclaimed(Claims(p), tx.inputs)
  {
    assert (p + [tx])[..|p|] == p;
  }

  /** Every claim names a listed transaction. */
  lemma {:induction false} ClaimIsListed(p: seq<Transaction>, o: Outpoint)
    requires o in Claims(p)
    ensures Claims(p)[o] in Ids(p)
  {
    var front, last := p[..|p| - 1], p[|p| - 1];
    ClaimingFor(Claims(front), last, o);
    if o !in last.Spends() {
      ClaimIsListed(front, o);
    }
  }

  /** Dropping transactions drops exactly the claims that name them. */
  lemma {:induction false} DroppingClaims(p: seq<Transaction>, ids: set<Hash>, o: Outpoint)
    requires Unshared(p)
    ensures ClaimOf(Claims(Dropping(p, ids)), o)
            == if o in Claims(p) && Claims(p)[o] in ids then None else ClaimOf(Claims(p), o)
  {
    hide Unclaimed, Claiming;
    if |p| > 0 {
      var front, last := p[..|p| - 1], p[|p| - 1];
      DroppingClaims(front, ids, o);
      ClaimingFor(Claims(front), last, o);
      if o in last.Spends() {
        ClaimsUnshared(p, o);
      }
      if last.id !in ids {
        ClaimsPush(Dropping(front, ids), last);
        ClaimingFor(Claims(Dropping(front, ids)), last, o);
      }
    }
  }

  /** The last transaction of an unshared list spends nothing that an earlier one claims. */
  lemma {:induction false} ClaimsUnshared(p: seq<Transaction>, o: Outpoint)
    requires Unshared(p) && 0 < |p| && o in p[|p| - 1].Spends()
    ensures o !in Claims(p[..|p| - 1])
  {
  }

  lemma {:induction false} DroppingUnshared(p: seq<Transaction>, ids: set<Hash>)
    requires Unshared(p)
    ensures Unshared(Dropping(p, ids))
  {
    hide Claiming;
    if |p| > 0 {
      var front, last := p[..|p| - 1], p[|p| - 1];
      DroppingUnshared(front, ids);
      if last.id !in ids {
        ClaimsPush(Dropping(front, ids), last);
        forall i | 0 <= i < |last.inputs|
          ensures last.inputs[i].outpoint !in Claims(Dropping(front, ids))
        {
          DroppingClaims(front, ids, last.inputs[i].outpoint);
        }
      }
    }
  }

  /** The claims of one listed transaction are exactly what it spends. */
  lemma {:induction false} ClaimsOfOne(p: seq<Transaction>, i: nat, o: Outpoint)
    requires Unshared(p) && UniqueIds(p) && i < |p|
    ensures o in p[i].Spends() <==> ClaimOf(Claims(p), o) == Some(p[i].id)
  {
    hide Claiming;
    var front, last := p[..|p| - 1], p[|p| - 1];
    ClaimingFor(Claims(front), last, o);
    if i < |p| - 1 {
      ClaimsOfOne(front, i, o);
      InIds(front, i);
    } else if o in Claims(front) {
      ClaimIsListed(front, o);
    }
  }

  /** The transactions that spend an outpoint of `inputs`. */
  function Claimants(claims: map<Outpoint, Hash>, inputs: seq<TxInput>): set<Hash> {
    if |inputs| == 0 then {} else
    var o := inputs[|inputs| - 1].outpoint;
    Claimants(claims, inputs[..|inputs| - 1]) + if o in claims then {claims[o]} else {}
  }

  lemma {:induction false} ClaimantOf(claims: map<Outpoint, Hash>, inputs: seq<TxInput>, id: Hash)
    ensures id in Claimants(claims, inputs)
            <==> exists i :: 0 <= i < |inputs| && inputs[i].outpoint in claims && claims[inputs[i].outpoint] == id
  {
    if |inputs| > 0 {
      ClaimantOf(claims, inputs[..|inputs| - 1], id);
    }
  }

  lemma {:induction false} ClaimantsListed(p: seq<Transaction>, inputs: seq<TxInput>)
    ensures Claimants(Claims(p), inputs) <= Ids(p)
  {
    if |inputs| > 0 {
      ClaimantsListed(p, inputs[..|inputs| - 1]);
      var o := inputs[|inputs| - 1].outpoint;
      if o in Claims(p) {
        ClaimIsListed(p, o);
      }
    }
  }

  /** The pending transactions that `tx` would double-spend. */
  function Conflicts(p: seq<Transaction>, tx: Transaction): set<Hash> {
    Claimants(Claims(p), tx.inputs)
  }

  /** A pending transaction conflicts exactly when it spends an outpoint that `tx` spends too. */
  lemma {:induction false} ConflictsShare(p: seq<Transaction>, tx: Transaction, i: nat)
    requires Unshared(p) && UniqueIds(p) && i < |p|
    ensures p[i].id in Conflicts(p, tx) <==> !(p[i].Spends() !! tx.Spends())
  {
    hide Unshared, UniqueIds, Claims;
    ClaimantOf(Claims(p), tx.inputs, p[i].id);
    if p[i].id in Conflicts(p, tx) {
      var k :| 0 <= k < |tx.inputs| && tx.inputs[k].outpoint in Claims(p)
        && Claims(p)[tx.inputs[k].outpoint] == p[i].id;
      ClaimsOfOne(p, i, tx.inputs[k].outpoint);
      assert tx.inputs[k].outpoint in tx.Spends();
    }
    if !(p[i].Spends() !! tx.Spends()) {
      var o :| o in p[i].Spends() && o in tx.Spends();
      ClaimsOfOne(p, i, o);
    }
  }

  /** Once its conflicts are gone, `tx` spends nothing that is claimed. */
  lemma {:induction false} ConflictsCleared(p: seq<Transaction>, tx: Transaction)
    requires Unshared(p)
    ensures Unclaimed(Claims(Dropping(p, Conflicts(p, tx))), tx.inputs)
  {
    hide Unshared, Claims;
    forall k | 0 <= k < |tx.inputs|
      ensures tx.inputs[k].outpoint !in Claims(Dropping(p, Conflicts(p, tx)))
    {
      var o := tx.inputs[k].outpoint;
      DroppingClaims(p, Conflicts(p, tx), o);
      if o in Claims(p) {
        ClaimantOf(Claims(p), tx.inputs, Claims(p)[o]);
      }
    }
  }
}
