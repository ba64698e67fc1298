/** The pool of pending transactions (src/mempool/mempool.ts): replace-by-fee, capacity and a claim map. */
module Mempools {

  import opened Ledger
  import opened Utxo
  import opened UtxoSets
  import opened Pool

  datatype Policy = Policy(maxSize: Option<nat>, minFee: int, maxReplacements: nat)

  datatype Admission = Accepted(replaced: seq<Hash>) | Rejected

  // ---------------------------------------------------------------- what admission decides

  predicate Full(policy: Policy, p: seq<Transaction>) {
    policy.maxSize.Some? && policy.maxSize.value <= |p|
  }

  /** Position of the first pending transaction with the lowest fee. */
  function LowestFee(p: seq<Transaction>): (i: nat)
    requires 0 < |p|
    ensures i < |p|
    ensures forall k :: 0 <= k < |p| ==> p[i].fee <= p[k].fee
    ensures forall k :: 0 <= k < i ==> p[i].fee < p[k].fee
  {
    if |p| == 1 then 0 else
    var i := LowestFee(p[..|p| - 1]);
    assert forall k :: 0 <= k < |p| - 1 ==> p[..|p| - 1][k] == p[k];
    if p[|p| - 1].fee < p[i].fee then |p| - 1 else i
  }

  /** What the pool holds besides `tx` once room has been made for it. */
  function MakeRoom(policy: Policy, p: seq<Transaction>, tx: Transaction): seq<Transaction> {
    var kept := Dropping(p, Conflicts(p, tx));
    if Full(policy, kept) && 0 < |kept| then Dropping(kept, {kept[LowestFee(kept)].id}) else kept
  }

  predicate PaysForConflicts(policy: Policy, p: seq<Transaction>, tx: Transaction) {
    var displaced := Keeping(p, Conflicts(p, tx));
    && |displaced| <= policy.maxReplacements
    && (0 < |displaced| ==> TotalFees(displaced) + policy.minFee <= tx.fee)
  }

  predicate OutbidsLowest(policy: Policy, p: seq<Transaction>, tx: Transaction) {
    var kept := Dropping(p, Conflicts(p, tx));
    Full(policy, kept) ==> 0 < |kept| && kept[LowestFee(kept)].fee < tx.fee
  }

  predicate Admissible(policy: Policy, r: SpendRules, u: Utxos, p: seq<Transaction>, tx: Transaction, height: int) {
    && tx.id !in Ids(p) && !tx.IsCoinbase() && policy.minFee <= tx.fee
    && PaysForConflicts(policy, p, tx)
    && ValidTx(r, u, tx, height)
    && OutbidsLowest(policy, p, tx)
  }

  /** What every run of the pool keeps true of its contents. */
  predicate Sound(policy: Policy, p: seq<Transaction>) {
    && UniqueIds(p) && Unshared(p)
    && (policy.maxSize.Some? ==> |p| <= policy.maxSize.value)
    && (forall k :: 0 <= k < |p| ==> !p[k].IsCoinbase() && policy.minFee <= p[k].fee)
  }

  lemma {:induction false} DroppingMember(p: seq<Transaction>, ids: set<Hash>, k: nat) returns (i: nat)
    requires k < |Dropping(p, ids)|
    ensures i < |p| && p[i] == Dropping(p, ids)[k] && p[i].id !in ids
  {
    var front, last := p[..|p| - 1], p[|p| - 1];
    if last.id in ids || k < |Dropping(front, ids)| {
      i := DroppingMember(front, ids, k);
    } else {
      i := |p| - 1;
    }
  }

  lemma {:induction false} DroppingSound(policy: Policy, p: seq<Transaction>, ids: set<Hash>)
    requires Sound(policy, p)
    ensures Sound(policy, Dropping(p, ids)) && |Dropping(p, ids)| <= |p|
  {
    hide UniqueIds, Unshared;
    DroppingIds(p, ids);
    DroppingUnshared(p, ids);
    SplitByIds(p, ids);
    var d := Dropping(p, ids);
    forall k | 0 <= k < |d|
      ensures !d[k].IsCoinbase() && policy.minFee <= d[k].fee
    {
      var i := DroppingMember(p, ids, k);
    }
  }

  /** Displacing anything leaves room, so the capacity rule never applies after a replacement. */
  lemma {:induction false} ReplacementLeavesRoom(policy: Policy, p: seq<Transaction>, tx: Transaction)
    requires Sound(policy, p) && 0 < |Keeping(p, Conflicts(p, tx))|
    ensures !Full(policy, Dropping(p, Conflicts(p, tx)))
    ensures OutbidsLowest(policy, p, tx)
  {
    SplitByIds(p, Conflicts(p, tx));
  }

  lemma {:induction false} RoomMade(policy: Policy, p: seq<Transaction>, tx: Transaction)
    requires Sound(policy, p) && OutbidsLowest(policy, p, tx)
    ensures var room := MakeRoom(policy, p, tx);
            Sound(policy, room) && !Full(policy, room) && Ids(room) <= Ids(p) && Unclaimed(Claims(room), tx.inputs)
  {
    hide UniqueIds, Unshared, Unclaimed, Claims, Conflicts, Ids, Dropping;
    var kept := Dropping(p, Conflicts(p, tx));
    DroppingSound(policy, p, Conflicts(p, tx));
    DroppingIds(p, Conflicts(p, tx));
    ConflictsCleared(p, tx);
    if Full(policy, kept) {
      var i := LowestFee(kept);
      DropOne(kept, i);
      DroppingSound(policy, kept, {kept[i].id});
      DroppingIds(kept, {kept[i].id});
      StillUnclaimed(kept, {kept[i].id}, tx.inputs);
    }
  }

  lemma {:induction false} AdmitSound(
    policy: Policy, r: SpendRules, u: Utxos, p: seq<Transaction>, tx: Transaction, height: int)
    requires Sound(policy, p) && Admissible(policy, r, u, p, tx, height)
    ensures Sound(policy, MakeRoom(policy, p, tx) + [tx])
  {
    hide UniqueIds, Unshared, ValidTx, Unclaimed, Claims, MakeRoom, Ids, PaysForConflicts, OutbidsLowest;
    RoomMade(policy, p, tx);
    IdsPush(MakeRoom(policy, p, tx), tx);
    ClaimsPush(MakeRoom(policy, p, tx), tx);
  }

  lemma {:induction false} StillUnclaimed(p: seq<Transaction>, ids: set<Hash>, inputs: seq<TxInput>)
    requires Unshared(p) && Unclaimed(Claims(p), inputs)
    ensures Unclaimed(Claims(Dropping(p, ids)), inputs)
  {
    hide Unshared, Claims;
    forall i | 0 <= i < |inputs|
      ensures inputs[i].outpoint !in Claims(Dropping(p, ids))
    {
      DroppingClaims(p, ids, inputs[i].outpoint);
    }
  }

  lemma {:induction false} DropOne(p: seq<Transaction>, i: nat)
    requires UniqueIds(p) && i < |p|
    ensures |Dropping(p, {p[i].id})| == |p| - 1
    ensures TotalFees(Dropping(p, {p[i].id})) == TotalFees(p) - p[i].fee
  {
    DroppingNone(p, {});
    KeepingMore(p, {}, i);
    assert {} + {p[i].id} == {p[i].id};
    SplitByIds(p, {p[i].id});
  }

  /** With a positive minimum fee, every admission strictly raises what the pool pays. */
  lemma {:induction false} FeesRise(
    policy: Policy, r: SpendRules, u: Utxos, p: seq<Transaction>, tx: Transaction, height: int)
    requires Sound(policy, p) && Admissible(policy, r, u, p, tx, height) && policy.minFee > 0
    ensures TotalFees(MakeRoom(policy, p, tx) + [tx]) > TotalFees(p)
  {
    hide UniqueIds, Unshared, ValidTx, Conflicts;
    var kept := Dropping(p, Conflicts(p, tx));
    SplitByIds(p, Conflicts(p, tx));
    TotalFeesAppend(MakeRoom(policy, p, tx), tx);
    if 0 < |Keeping(p, Conflicts(p, tx))| {
      ReplacementLeavesRoom(policy, p, tx);
    } else {
      assert TotalFees(Keeping(p, Conflicts(p, tx))) == 0;
      if Full(policy, kept) {
        DroppingSound(policy, p, Conflicts(p, tx));
        DropOne(kept, LowestFee(kept));
      }
    }
  }

  // ---------------------------------------------------------------- the claim map

  /** The claims `m` after `id` has given up the outpoints of `inputs` that it holds. */
  function Unclaiming(m: map<Outpoint, Hash>, inputs: seq<TxInput>, id: Hash): map<Outpoint, Hash> {
    if |inputs| == 0 then m else
    var rest, o := Unclaiming(m, inputs[..|inputs| - 1], id), inputs[|inputs| - 1].outpoint;
    if o in rest && rest[o] == id then rest - {o} else rest
  }

  lemma {:induction false} UnclaimingAt(m: map<Outpoint, Hash>, inputs: seq<TxInput>, id: Hash, o: Outpoint)
    ensures ClaimOf(Unclaiming(m, inputs, id), o)
            == if ClaimOf(m, o) == Some(id) && (exists i :: 0 <= i < |inputs| && inputs[i].outpoint == o) then None
               else ClaimOf(m, o)
  {
    if |inputs| > 0 {
      var front := inputs[..|inputs| - 1];
      UnclaimingAt(m, front, id, o);
      if exists i :: 0 <= i < |front| && front[i].outpoint == o {
        var i :| 0 <= i < |front| && front[i].outpoint == o;
        assert inputs[i].outpoint == o;
      } else if inputs[|inputs| - 1].outpoint != o {
        forall i | 0 <= i < |inputs| ensures inputs[i].outpoint != o {
          if i < |front| { assert front[i] == inputs[i]; }
        }
      }
    }
  }

  lemma {:induction false} SameClaims(a: map<Outpoint, Hash>, b: map<Outpoint, Hash>)
    requires forall o :: ClaimOf(a, o) == ClaimOf(b, o)
    ensures a == b
  {
    forall o ensures o in a <==> o in b {
      assert ClaimOf(a, o) == ClaimOf(b, o);
    }
    forall o | o in a ensures a[o] == b[o] {
      assert ClaimOf(a, o) == ClaimOf(b, o);
    }
  }

  /** Giving up its own claims is all that removing a transaction does to the claim map. */
  lemma {:induction false} UnclaimingAll(p: seq<Transaction>, at: nat)
    requires UniqueIds(p) && Unshared(p) && at < |p|
    ensures Unclaiming(Claims(p), p[at].inputs, p[at].id) == Claims(Dropping(p, {p[at].id}))
  {
    hide Claims, Unshared, UniqueIds, Unclaiming, Dropping;
    var id := p[at].id;
    forall o ensures ClaimOf(Unclaiming(Claims(p), p[at].inputs, id), o) == ClaimOf(Claims(Dropping(p, {id})), o) {
      UnclaimingAt(Claims(p), p[at].inputs, id, o);
      DroppingClaims(p, {id}, o);
      ClaimsOfOne(p, at, o);
    }
    SameClaims(Unclaiming(Claims(p), p[at].inputs, id), Claims(Dropping(p, {id})));
  }

  /** `c` lists as many transactions, paying as much, as `p` holds with an id in `ids`. */
  predicate Counted(p: seq<Transaction>, c: seq<Transaction>, ids: set<Hash>) {
    |c| == |Keeping(p, ids)| && TotalFees(c) == TotalFees(Keeping(p, ids))
  }

  lemma {:induction false} CountedIs(p: seq<Transaction>, c: seq<Transaction>, ids: set<Hash>)
    requires Counted(p, c, ids)
    ensures |c| == |Keeping(p, ids)| && TotalFees(c) == TotalFees(Keeping(p, ids))
  {
  }

  lemma {:induction false} NoClaimants(p: seq<Transaction>, claims: map<Outpoint, Hash>, inputs: seq<TxInput>)
    ensures inputs[..0] == [] && Claimants(claims, inputs[..0]) == {} && Ids([]) == {}
    ensures Counted(p, [], Claimants(claims, inputs[..0]))
  {
    DroppingNone(p, {});
  }

  lemma {:induction false} ClaimantsPush(claims: map<Outpoint, Hash>, inputs: seq<TxInput>, i: nat)
    requires i < |inputs|
    ensures var o := inputs[i].outpoint;
            Claimants(claims, inputs[..i + 1]) == Claimants(claims, inputs[..i]) + if o in claims then {claims[o]}
              else {}
  {
    TakeOneMore(inputs, i);
  }

  lemma {:induction false} CountOneMore(p: seq<Transaction>, c: seq<Transaction>, ids: set<Hash>, at: nat)
    requires UniqueIds(p) && at < |p| && p[at].id !in ids && Counted(p, c, ids)
    ensures Counted(p, c + [p[at]], ids + {p[at].id})
  {
    KeepingMore(p, ids, at);
    TotalFeesAppend(c, p[at]);
  }

  // ---------------------------------------------------------------- ordering by fee

  predicate Descending(p: seq<Transaction>) {
    forall i, j :: 0 <= i < j < |p| ==> p[i].fee >= p[j].fee
  }

  /** `tx` after everything that pays at least as much. */
  function Insert(p: seq<Transaction>, tx: Transaction): seq<Transaction> {
    if |p| == 0 || p[|p| - 1].fee >= tx.fee then p + [tx]
    else Insert(p[..|p| - 1], tx) + [p[|p| - 1]]
  }

  /** The highest fees first. */
  function ByFee(p: seq<Transaction>): seq<Transaction> {
    if |p| == 0 then [] else Insert(ByFee(p[..|p| - 1]), p[|p| - 1])
  }

  function PayingExactly(p: seq<Transaction>, fee: int): seq<Transaction> {
    if |p| == 0 then []
    else if p[|p| - 1].fee == fee then PayingExactly(p[..|p| - 1], fee) + [p[|p| - 1]]
    else PayingExactly(p[..|p| - 1], fee)
  }

  lemma {:induction false} PayingPush(p: seq<Transaction>, tx: Transaction, fee: int)
    ensures PayingExactly(p + [tx], fee) == if tx.fee == fee then PayingExactly(p, fee) + [tx]
      else PayingExactly(p, fee)
  {
    assert (p + [tx])[..|p|] == p;
  }

  predicate AllPay(p: seq<Transaction>, least: int) {
    forall i :: 0 <= i < |p| ==> p[i].fee >= least
  }

  lemma {:induction false} DescendingPush(p: seq<Transaction>, tx: Transaction)
    requires Descending(p) && AllPay(p, tx.fee)
    ensures Descending(p + [tx])
  {
  }

  lemma {:induction false} InsertOrders(p: seq<Transaction>, tx: Transaction, least: int)
    requires Descending(p) && AllPay(p, least) && least <= tx.fee
    ensures Descending(Insert(p, tx)) && AllPay(Insert(p, tx), least)
  {
    if |p| > 0 && p[|p| - 1].fee < tx.fee {
      var front, last := p[..|p| - 1], p[|p| - 1];
      InsertOrders(front, tx, last.fee);
      DescendingPush(Insert(front, tx), last);
    } else {
      DescendingPush(p, tx);
    }
  }

  lemma {:induction false} InsertPermutes(p: seq<Transaction>, tx: Transaction)
    ensures multiset(Insert(p, tx)) == multiset(p) + multiset{tx}
  {
    if |p| > 0 && p[|p| - 1].fee < tx.fee {
      var front, last := p[..|p| - 1], p[|p| - 1];
      InsertPermutes(front, tx);
      assert p == front + [last] && Insert(p, tx) == Insert(front, tx) + [last];
    }
  }

  lemma {:induction false} InsertIsStable(p: seq<Transaction>, tx: Transaction, fee: int)
    ensures PayingExactly(Insert(p, tx), fee) == PayingExactly(p + [tx], fee)
  {
    PayingPush(p, tx, fee);
    if |p| > 0 && p[|p| - 1].fee < tx.fee {
      var front, last := p[..|p| - 1], p[|p| - 1];
      InsertIsStable(front, tx, fee);
      PayingPush(front, tx, fee);
      PayingPush(Insert(front, tx), last, fee);
    }
  }

  lemma {:induction false} LeastFee(p: seq<Transaction>, tx: Transaction) returns (least: int)
    ensures AllPay(p, least) && least <= tx.fee
  {
    least := tx.fee;
    for i := 0 to |p|
      invariant least <= tx.fee && forall k :: 0 <= k < i ==> p[k].fee >= least
    {
      if p[i].fee < least {
        least := p[i].fee;
      }
    }
  }

  lemma {:induction false} ByFeeDescends(p: seq<Transaction>)
    ensures Descending(ByFee(p))
  {
    if |p| > 0 {
      ByFeeDescends(p[..|p| - 1]);
      var least := LeastFee(ByFee(p[..|p| - 1]), p[|p| - 1]);
      InsertOrders(ByFee(p[..|p| - 1]), p[|p| - 1], least);
    }
  }

  lemma {:induction false} ByFeePermutes(p: seq<Transaction>)
    ensures multiset(ByFee(p)) == multiset(p)
  {
    hide Insert;
    if |p| > 0 {
      var front, last := p[..|p| - 1], p[|p| - 1];
      ByFeePermutes(front);
      InsertPermutes(ByFee(front), last);
      assert p == front + [last];
    }
  }

  lemma {:induction false} ByFeeIsStable(p: seq<Transaction>, fee: int)
    ensures PayingExactly(ByFee(p), fee) == PayingExactly(p, fee)
  {
    if |p| > 0 {
      ByFeeIsStable(p[..|p| - 1], fee);
      InsertIsStable(ByFee(p[..|p| - 1]), p[|p| - 1], fee);
      PayingPush(ByFee(p[..|p| - 1]), p[|p| - 1], fee);
    }
  }

  /** The same transactions, by falling fee, and those of equal fee in order of arrival. */
  lemma {:induction false} ByFeeSorts(p: seq<Transaction>)
    ensures Descending(ByFee(p)) && multiset(ByFee(p)) == multiset(p)
    ensures forall fee :: PayingExactly(ByFee(p), fee) == PayingExactly(p, fee)
  {
    ByFeeDescends(p);
    ByFeePermutes(p);
    forall fee ensures PayingExactly(ByFee(p), fee) == PayingExactly(p, fee) {
      ByFeeIsStable(p, fee);
    }
  }

  /** By falling fee, drawn from `p`, no better than what is left out, and of those with equal fee the earliest. */
  ghost predicate BestOf(txs: seq<Transaction>, p: seq<Transaction>) {
    && Descending(txs) && multiset(txs) <= multiset(p)
    && (forall left, i :: left in multiset(p) - multiset(txs) && 0 <= i < |txs| ==> left.fee <= txs[i].fee)
    && (forall fee :: PayingExactly(txs, fee) <= PayingExactly(p, fee))
  }

  lemma {:induction false} SameSize(a: seq<Transaction>, b: seq<Transaction>)
    requires multiset(a) == multiset(b)
    ensures |a| == |b|
  {
    assert |multiset(a)| == |a| && |multiset(b)| == |b|;
  }

  lemma {:induction false} PayingFirst(p: seq<Transaction>, n: nat, fee: int)
    requires n <= |p|
    ensures PayingExactly(p[..n], fee) <= PayingExactly(p, fee)
    decreases |p|
  {
    if n == |p| {
      assert p[..n] == p;
    } else {
      PayingFirst(p[..|p| - 1], n, fee);
      assert p[..|p| - 1][..n] == p[..n];
    }
  }

  lemma {:induction false} Splits(p: seq<Transaction>, n: nat)
    requires n <= |p|
    ensures multiset(p[..n]) <= multiset(p) && multiset(p) - multiset(p[..n]) == multiset(p[n..])
  {
    assert p == p[..n] + p[n..];
  }

  lemma {:induction false} DescendingFirst(p: seq<Transaction>, n: nat)
    requires Descending(p) && n <= |p|
    ensures Descending(p[..n])
  {
  }

  lemma {:induction false} LaterPayLess(p: seq<Transaction>, n: nat, later: Transaction, i: nat)
    requires Descending(p) && i < n <= |p| && later in p[n..]
    ensures later.fee <= p[i].fee
  {
    var k :| 0 <= k < |p[n..]| && p[n..][k] == later;
    assert p[n + k] == later;
  }

  lemma {:induction false} FirstAreBest(p: seq<Transaction>, n: nat)
    requires n <= |ByFee(p)|
    ensures BestOf(ByFee(p)[..n], p)
  {
    hide ByFee, PayingExactly, Descending;
    var all := ByFee(p);
    var txs, rest := all[..n], all[n..];
    ByFeeSorts(p);
    Splits(all, n);
    DescendingFirst(all, n);
    forall left, i | left in multiset(p) - multiset(txs) && 0 <= i < |txs| ensures left.fee <= txs[i].fee {
      assert left in rest;
      LaterPayLess(all, n, left, i);
    }
    forall fee ensures PayingExactly(txs, fee) <= PayingExactly(p, fee) {
      PayingFirst(all, n, fee);
    }
  }

  // ---------------------------------------------------------------- the pool

  class Mempool {
    const utxoSet: UtxoSet
    const policy: Policy
    /** In order of arrival. */
    var pending: seq<Transaction>
    var claimed: map<Outpoint, Hash>

    ghost predicate Valid()
      reads this
    {
      Sound(policy, pending) && claimed == Claims(pending)
    }

    constructor (utxoSet: UtxoSet, policy: Policy)
      ensures this.utxoSet == utxoSet && this.policy == policy && pending == [] && Valid()
    {
      this.utxoSet := utxoSet;
      this.policy := policy;
      pending := [];
      claimed := map[];
    }

    method Find(id: Hash) returns (found: Option<Transaction>)
      requires Valid()
      ensures found.Some? <==> id in Ids(pending)
      ensures found.Some? ==> exists i :: 0 <= i < |pending| && pending[i] == found.value && pending[i].id == id
    {
      for i := 0 to |pending|
        invariant id !in Ids(pending[..i])
      {
        TakeOneMore(pending, i);
        IdsPush(pending[..i], pending[i]);
        if pending[i].id == id {
          InIds(pending, i);
          return Some(pending[i]);
        }
      }
      assert pending[..|pending|] == pending;
      return None;
    }

    /** Takes a transaction and its claims out of the pool. */
    method Remove(id: Hash)
      requires Valid()
      modifies this
      ensures Valid() && pending == Dropping(old(pending), {id})
    {
      hide Claims, Unshared, UniqueIds, Dropping, Ids;
      var tx := Find(id);
      if tx.None? {
        DroppingNone(pending, {id});
        return;
      }
      ghost var was := pending;
      ghost var at :| 0 <= at < |pending| && pending[at] == tx.value && pending[at].id == id;
      DroppingSound(policy, was, {id});
      pending := Dropping(pending, {id});
      var inputs := tx.value.inputs;
      for i := 0 to |inputs|
        invariant pending == Dropping(was, {id})
        invariant claimed == Unclaiming(Claims(was), inputs[..i], id)
      {
        TakeOneMore(inputs, i);
        var o := inputs[i].outpoint;
        if o in claimed && claimed[o] == id {
          claimed := claimed - {o};
        }
      }
      assert inputs[..|inputs|] == inputs;
      UnclaimingAll(was, at);
    }

    /** The pending transactions that spend one of the inputs, in the order the inputs name them. */
    method FindConflicts(tx: Transaction) returns (conflicts: seq<Transaction>)
      requires Valid()
      ensures Ids(conflicts) == Conflicts(pending, tx)
      ensures |conflicts| == |Keeping(pending, Conflicts(pending, tx))|
      ensures TotalFees(conflicts) == TotalFees(Keeping(pending, Conflicts(pending, tx)))
    {
      hide Claims, Unshared, UniqueIds, Counted, Claimants;
      conflicts := [];
      NoClaimants(pending, claimed, tx.inputs);
      hide Ids;
      for i := 0 to |tx.inputs|
        invariant Ids(conflicts) == Claimants(claimed, tx.inputs[..i])
        invariant Counted(pending, conflicts, Claimants(claimed, tx.inputs[..i]))
      {
        ClaimantsPush(claimed, tx.inputs, i);
        var o := tx.inputs[i].outpoint;
        if o in claimed {
          ClaimIsListed(pending, o);
          var claimant := Find(claimed[o]);
          if claimed[o] !in Ids(conflicts) {
            ghost var at :| 0 <= at < |pending| && pending[at] == claimant.value && pending[at].id == claimed[o];
            CountOneMore(pending, conflicts, Claimants(claimed, tx.inputs[..i]), at);
            IdsPush(conflicts, claimant.value);
            conflicts := conflicts + [claimant.value];
          }
        }
      }
      assert tx.inputs[..|tx.inputs|] == tx.inputs;
      CountedIs(pending, conflicts, Conflicts(pending, tx));
    }

    method LowestFeeTransaction() returns (lowest: Option<Transaction>)
      requires Valid()
      ensures lowest.None? <==> pending == []
      ensures lowest.Some? ==> lowest.value == pending[LowestFee(pending)]
    {
      lowest := None;
      for i := 0 to |pending|
        invariant lowest.None? <==> i == 0
        invariant i > 0 ==> lowest.value == pending[..i][LowestFee(pending[..i])]
      {
        TakeOneMore(pending, i);
        if lowest.None? || pending[i].fee < lowest.value.fee {
          lowest := Some(pending[i]);
        }
      }
      assert pending[..|pending|] == pending;
    }

    method RemoveAll(conflicts: seq<Transaction>)
      requires Valid()
      modifies this
      ensures Valid() && pending == Dropping(old(pending), Ids(conflicts))
    {
      DroppingNone(pending, {});
      for i := 0 to |conflicts|
        invariant Valid() && pending == Dropping(old(pending), Ids(conflicts[..i]))
      {
        TakeOneMore(conflicts, i);
        DroppingTwice(old(pending), Ids(conflicts[..i]), {conflicts[i].id});
        Remove(conflicts[i].id);
      }
      assert conflicts[..|conflicts|] == conflicts;
    }

    /** Puts `tx` at the end of the pool and claims what it spends. */
    method Append(tx: Transaction)
      requires Valid() && Sound(policy, pending + [tx])
      modifies this
      ensures Valid() && pending == old(pending) + [tx]
    {
      hide Claims, Sound;
      ghost var was := pending;
      pending := pending + [tx];
      for i := 0 to |tx.inputs|
        invariant pending == was + [tx]
        invariant claimed == Claiming(Claims(was), tx.inputs[..i], tx.id)
      {
        TakeOneMore(tx.inputs, i);
        claimed := claimed[tx.inputs[i].outpoint := tx.id];
      }
      assert tx.inputs[..|tx.inputs|] == tx.inputs;
      ClaimsPush(was, tx);
    }

    /**
     * Admits `tx` exactly when the rules allow it, displacing what it conflicts with or else, in a
     * full pool, the lowest fee; a refusal changes nothing.
     */
    method AddTransaction(tx: Transaction, spendingHeight: int) returns (a: Admission)
      requires Valid()
      modifies this
      ensures Valid()
      ensures a.Accepted?
              <==> Admissible(policy, utxoSet.rules, utxoSet.View(), old(pending), tx, spendingHeight)
      ensures a.Accepted? ==> pending == MakeRoom(policy, old(pending), tx) + [tx]
      ensures a.Accepted? ==> forall id :: id in a.replaced <==> id in Conflicts(old(pending), tx)
      ensures a.Accepted? && policy.minFee > 0 ==> TotalFees(pending) > TotalFees(old(pending))
      ensures a.Rejected? ==> pending == old(pending) && claimed == old(claimed)
    {
      hide Sound, Claims, ValidTx, Conflicts, Ids;
      ghost var was := pending;
      var same := Find(tx.id);
      if same.Some? {
        return Rejected;
      }
      if |tx.inputs| == 0 || tx.fee < policy.minFee {
        return Rejected;
      }
      var conflicts := FindConflicts(tx);
      if |conflicts| > policy.maxReplacements {
        return Rejected;
      }
      if |conflicts| > 0 {
        var required := TotalFees(conflicts) + policy.minFee;
        if tx.fee < required {
          return Rejected;
        }
        ReplacementLeavesRoom(policy, was, tx);
      }
      var valid := utxoSet.ValidateTransaction(tx, spendingHeight);
      if !valid {
        return Rejected;
      }
      RemoveAll(conflicts);
      if Full(policy, pending) {
        var lowest := LowestFeeTransaction();
        if lowest.None? || lowest.value.fee >= tx.fee {
          NothingDropped(was, conflicts);
          return Rejected;
        }
        Remove(lowest.value.id);
      }
      AdmitSound(policy, utxoSet.rules, utxoSet.View(), was, tx, spendingHeight);
      if policy.minFee > 0 {
        FeesRise(policy, utxoSet.rules, utxoSet.View(), was, tx, spendingHeight);
      }
      Append(tx);
      IdsListed(conflicts);
      return Accepted(TransactionIds(conflicts));
    }

    /** The best paying pending transactions, best first, as many as asked for. */
    method GetTransactionsByFee(limit: Option<nat>) returns (txs: seq<Transaction>)
      ensures |txs| == if limit.Some? && limit.value < |pending| then limit.value else |pending|
      ensures BestOf(txs, pending)
      ensures limit.None? ==> txs == ByFee(pending)
    {
      txs := ByFee(pending);
      FirstAreBest(pending, |txs|);
      ByFeePermutes(pending);
      SameSize(txs, pending);
      assert txs[..|txs|] == txs;
      if limit.Some? && limit.value < |txs| {
        FirstAreBest(pending, limit.value);
        txs := txs[..limit.value];
      }
    }
  }

  lemma {:induction false} NothingDropped(p: seq<Transaction>, conflicts: seq<Transaction>)
    ensures conflicts == [] ==> Dropping(p, Ids(conflicts)) == p
  {
    if conflicts == [] {
      DroppingNone(p, {});
    }
  }

  lemma {:induction false} IdsListed(p: seq<Transaction>)
    ensures forall id :: id in TransactionIds(p) <==> id in Ids(p)
  {
    forall id ensures id in TransactionIds(p) <==> id in Ids(p) {
      if id in TransactionIds(p) {
        var i :| 0 <= i < |p| && TransactionIds(p)[i] == id;
        InIds(p, i);
      }
      if id in Ids(p) {
        var i := FindId(p, id);
        assert TransactionIds(p)[i] == id;
      }
    }
  }
}
