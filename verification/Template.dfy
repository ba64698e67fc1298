/**
 * Block templates (src/node/node.ts:1042-1102): a coinbase and pending transactions by falling
 * fee, within the count and byte limits.
 */
module Templates {

  import opened Ledger
  import opened Utxo
  import opened Chain
  import opened Pool
  import opened Mempools
  import opened BlockRules
  import opened Pending

  datatype Template = Template(header: Header, transactions: seq<Transaction>)

  /** What a template is built from besides the pool. */
  datatype Job = Job(
    crypto: Crypto, txBytes: Transaction -> nat, parent: Block, now: int, target: nat, miner: Address, reward: int,
    limits: Limits)
  {
    function Timestamp(): int {
      if now > parent.header.timestamp + 1 then now else parent.header.timestamp + 1
    }

    function Height(): int {
      parent.header.height + 1
    }

    function Coinbase(fees: int): Transaction {
      var body := TxBody([], [TxOutput(miner, reward + fees)], Timestamp(), 0, None);
      Transaction(crypto.transactionId(body), body.inputs, body.outputs, body.timestamp, body.fee, body.data)
    }

    function HeaderFor(txs: seq<Transaction>): Header {
      Header(1, parent.hash, crypto.merkleRoot(TransactionIds(txs)), Timestamp(), target, 0, Height(), None, None)
    }

    function Measure(txs: seq<Transaction>): nat {
      crypto.blockBytes(Block(HeaderFor(txs), txs, 0))
    }

    function MaxCount(): int {
      if limits.maxTransactions > 1 then limits.maxTransactions else 1
    }
  }

  // ---------------------------------------------------------------- the pool in fee order

  lemma {:induction false} UniqueAt(p: seq<Transaction>, i: nat, j: nat)
    requires UniqueIds(p) && i < j < |p|
    ensures p[i].id != p[j].id
    decreases |p|
  {
    if j < |p| - 1 {
      UniqueAt(p[..|p| - 1], i, j);
    } else {
      InIds(p[..|p| - 1], i);
    }
  }

  lemma {:induction false} PoolIsApart(p: seq<Transaction>)
    requires UniqueIds(p) && Unshared(p)
    ensures Apart(p)
  {
    hide UniqueIds, Unshared;
    forall i, j | 0 <= i < j < |p| ensures p[i].id != p[j].id && p[i].Spends() !! p[j].Spends() {
      UniqueAt(p, i, j);
      forall o ensures !(o in p[i].Spends() && o in p[j].Spends()) {
        ClaimsOfOne(p, i, o);
        ClaimsOfOne(p, j, o);
      }
    }
  }

  predicate ApartFrom(p: seq<Transaction>, tx: Transaction) {
    forall i :: 0 <= i < |p| ==> p[i].id != tx.id && p[i].Spends() !! tx.Spends()
  }

  lemma {:induction false} ApartPush(p: seq<Transaction>, tx: Transaction)
    requires Apart(p) && ApartFrom(p, tx)
    ensures Apart(p + [tx])
  {
  }

  lemma {:induction false} InsertApart(p: seq<Transaction>, tx: Transaction, other: Transaction)
    requires Apart(p) && ApartFrom(p, tx)
    ensures Apart(Insert(p, tx))
    ensures ApartFrom(p, other) && ApartFrom([tx], other) ==> ApartFrom(Insert(p, tx), other)
  {
    if |p| == 0 || p[|p| - 1].fee >= tx.fee {
      ApartPush(p, tx);
    } else {
      var front, last := p[..|p| - 1], p[|p| - 1];
      InsertApart(front, tx, last);
      InsertApart(front, tx, other);
      ApartPush(Insert(front, tx), last);
    }
  }

  lemma {:induction false} ByFeeApart(p: seq<Transaction>, other: Transaction)
    requires Apart(p)
    ensures Apart(ByFee(p))
    ensures ApartFrom(p, other) ==> ApartFrom(ByFee(p), other)
  {
    if |p| > 0 {
      var front, last := p[..|p| - 1], p[|p| - 1];
      ByFeeApart(front, last);
      ByFeeApart(front, other);
      InsertApart(ByFee(front), last, other);
    }
  }

  lemma {:induction false} ByFeeMember(p: seq<Transaction>, k: nat)
    requires k < |ByFee(p)|
    ensures ByFee(p)[k] in p
  {
    ByFeePermutes(p);
    assert ByFee(p)[k] in multiset(ByFee(p));
  }

  // ---------------------------------------------------------------- building

  /** `selected` consists of transactions of `sorted` that do not get in each other's way. */
  predicate Drawn(selected: seq<Transaction>, sorted: seq<Transaction>) {
    Apart(selected) && forall k :: 0 <= k < |selected| ==> selected[k] in sorted
  }

  lemma {:induction false} DrawOne(selected: seq<Transaction>, sorted: seq<Transaction>, i: nat)
    requires i < |sorted| && Apart(sorted) && Drawn(selected, sorted[..i])
    ensures Drawn(selected, sorted[..i + 1]) && Drawn(selected + [sorted[i]], sorted[..i + 1])
  {
    TakeOneMore(sorted, i);
    forall k | 0 <= k < |selected|
      ensures selected[k] in sorted[..i + 1]
      ensures selected[k].id != sorted[i].id && selected[k].Spends() !! sorted[i].Spends()
    {
      var j :| 0 <= j < i && sorted[..i][j] == selected[k];
      assert sorted[j] == selected[k];
      assert sorted[..i + 1][j] == selected[k];
    }
    ApartPush(selected, sorted[i]);
    assert sorted[..i + 1][i] == sorted[i];
  }

  /** What the transactions `txs` add to a block's size. */
  function SizeOf(job: Job, txs: seq<Transaction>): nat {
    if |txs| == 0 then 0 else SizeOf(job, txs[..|txs| - 1]) + job.txBytes(txs[|txs| - 1]) + 1
  }

  /** From the best fee down, everything that still fits by count and size. */
  function Picked(job: Job, sorted: seq<Transaction>): seq<Transaction> {
    if |sorted| == 0 then [] else
    var before, tx := Picked(job, sorted[..|sorted| - 1]), sorted[|sorted| - 1];
    if |before| + 1 >= job.limits.maxTransactions
       || job.Measure([job.Coinbase(0)]) + SizeOf(job, before) + job.txBytes(tx) + 1 > job.limits.maxBlockBytes
    then before else before + [tx]
  }

  lemma {:induction false} PickedFull(job: Job, sorted: seq<Transaction>, i: nat)
    requires i <= |sorted| && |Picked(job, sorted[..i])| + 1 >= job.limits.maxTransactions
    ensures Picked(job, sorted) == Picked(job, sorted[..i])
    decreases |sorted|
  {
    if i == |sorted| {
      assert sorted[..i] == sorted;
    } else {
      assert sorted[..|sorted| - 1][..i] == sorted[..i];
      PickedFull(job, sorted[..|sorted| - 1], i);
    }
  }

  lemma {:induction false} PickedGrows(job: Job, sorted: seq<Transaction>, i: nat)
    requires i <= |sorted|
    ensures |Picked(job, sorted[..i])| <= |Picked(job, sorted)|
    ensures SizeOf(job, Picked(job, sorted[..i])) <= SizeOf(job, Picked(job, sorted))
    ensures forall tx :: tx in Picked(job, sorted[..i]) ==> tx in Picked(job, sorted)
    decreases |sorted|
  {
    if i == |sorted| {
      assert sorted[..i] == sorted;
    } else {
      var front, tx := sorted[..|sorted| - 1], sorted[|sorted| - 1];
      assert front[..i] == sorted[..i];
      PickedGrows(job, front, i);
      SizePush(job, Picked(job, front), tx);
    }
  }

  /** What is left out no longer fits beside what was picked, by count or by size. */
  lemma {:induction false} LeftOutDoesNotFit(job: Job, sorted: seq<Transaction>, k: nat)
    requires k < |sorted|
    ensures sorted[k] in Picked(job, sorted)
            || 1 + |Picked(job, sorted)| >= job.limits.maxTransactions
            || job.Measure([job.Coinbase(0)]) + SizeOf(job, Picked(job, sorted)) + job.txBytes(sorted[k]) + 1
               > job.limits.maxBlockBytes
  {
    TakeOneMore(sorted, k);
    PickedGrows(job, sorted, k);
    PickedGrows(job, sorted, k + 1);
    assert sorted[..k + 1][..k] == sorted[..k];
    var before := Picked(job, sorted[..k]);
    assert Picked(job, sorted[..k + 1]) == before || sorted[k] in Picked(job, sorted[..k + 1]);
  }

  /** What is picked fits together, by count and by size. */
  lemma {:induction false} PickedFits(job: Job, sorted: seq<Transaction>)
    ensures var picked := Picked(job, sorted);
            picked == []
            || (1 + |picked| <= job.limits.maxTransactions
                && job.Measure([job.Coinbase(0)]) + SizeOf(job, picked) <= job.limits.maxBlockBytes)
  {
    if |sorted| > 0 {
      PickedFits(job, sorted[..|sorted| - 1]);
      SizePush(job, Picked(job, sorted[..|sorted| - 1]), sorted[|sorted| - 1]);
    }
  }

  lemma {:induction false} SizePush(job: Job, txs: seq<Transaction>, tx: Transaction)
    ensures SizeOf(job, txs + [tx]) == SizeOf(job, txs) + job.txBytes(tx) + 1
  {
    assert (txs + [tx])[..|txs|] == txs;
  }

  method Select(job: Job, sorted: seq<Transaction>) returns (selected: seq<Transaction>, fees: int)
    requires Apart(sorted)
    ensures selected == Picked(job, sorted) && Drawn(selected, sorted)
    ensures fees == TotalFees(selected) && |selected| + 1 <= job.MaxCount()
  {
    hide Apart, Drawn;
    selected, fees := [], 0;
    var bytes := job.Measure([job.Coinbase(0)]);
    NothingDrawn(sorted[..0]);
    for i := 0 to |sorted|
      invariant selected == Picked(job, sorted[..i]) && bytes == job.Measure([job.Coinbase(0)]) + SizeOf(job, selected)
      invariant Drawn(selected, sorted[..i]) && fees == TotalFees(selected) && |selected| + 1 <= job.MaxCount()
    {
      if |selected| + 1 >= job.limits.maxTransactions {
        PickedFull(job, sorted, i);
        DrawnMore(selected, sorted, i);
        return;
      }
      DrawOne(selected, sorted, i);
      TakeOneMore(sorted, i);
      var extra := job.txBytes(sorted[i]) + 1;
      if bytes + extra <= job.limits.maxBlockBytes {
        TotalFeesAppend(selected, sorted[i]);
        SizePush(job, selected, sorted[i]);
        selected := selected + [sorted[i]];
        fees := fees + sorted[i].fee;
        bytes := bytes + extra;
      }
    }
    assert sorted[..|sorted|] == sorted;
  }

  lemma {:induction false} NothingDrawn(sorted: seq<Transaction>)
    ensures Drawn([], sorted)
  {
  }

  lemma {:induction false} DrawnMore(selected: seq<Transaction>, sorted: seq<Transaction>, i: nat)
    requires i <= |sorted| && Drawn(selected, sorted[..i])
    ensures Drawn(selected, sorted)
  {
    forall k | 0 <= k < |selected| ensures selected[k] in sorted {
      var j :| 0 <= j < i && sorted[..i][j] == selected[k];
      assert sorted[j] == selected[k];
    }
  }

  lemma {:induction false} DrawnFewer(selected: seq<Transaction>, sorted: seq<Transaction>, n: nat)
    requires n <= |selected| && Drawn(selected, sorted)
    ensures Drawn(selected[..n], sorted)
  {
  }

  /** What the builder promises of a template over the pool `p`. */
  predicate Fits(job: Job, p: seq<Transaction>, t: Template) {
    && 0 < |t.transactions| <= job.MaxCount()
    && Drawn(t.transactions[1..], p)
    && t.transactions[0] == job.Coinbase(TotalFees(t.transactions[1..]))
    && t.header == job.HeaderFor(t.transactions)
    && (|t.transactions| > 1 ==> job.Measure(t.transactions) <= job.limits.maxBlockBytes)
    && TrimmedFrom(job, Picked(job, ByFee(p)), |t.transactions| - 1)
    && t.transactions[1..] == Picked(job, ByFee(p))[..|t.transactions| - 1]
  }

  /** Only as many of the picked transactions were given up as the final size required. */
  predicate TrimmedFrom(job: Job, picked: seq<Transaction>, n: nat) {
    n <= |picked| && forall k :: n < k <= |picked| ==>
      job.Measure([job.Coinbase(TotalFees(picked[..k]))] + picked[..k]) > job.limits.maxBlockBytes
  }

  method BuildBlockTemplate(job: Job, pool: Mempool) returns (t: Template)
    requires pool.Valid()
    ensures Fits(job, pool.pending, t)
  {
    var sorted := pool.GetTransactionsByFee(None);
    PoolIsApart(pool.pending);
    ByFeeApart(pool.pending, job.Coinbase(0));
    var selected, fees := Select(job, sorted);
    DrawnFromPool(selected, pool.pending);
    hide Drawn, Apart, Picked, ByFee, TrimmedFrom, TotalFees, Fits;
    var transactions, n := Trim(job, selected, fees);
    t := Template(job.HeaderFor(transactions), transactions);
    TrimmedFits(job, pool.pending, selected, n);
  }

  lemma {:induction false} TrimmedFits(job: Job, p: seq<Transaction>, selected: seq<Transaction>, n: nat)
    requires selected == Picked(job, ByFee(p)) && Drawn(selected, p) && n <= |selected| < job.MaxCount()
    requires TrimmedFrom(job, selected, n)
    requires n > 0 ==>
      job.Measure([job.Coinbase(TotalFees(selected[..n]))] + selected[..n]) <= job.limits.maxBlockBytes
    ensures var transactions := [job.Coinbase(TotalFees(selected[..n]))] + selected[..n];
            Fits(job, p, Template(job.HeaderFor(transactions), transactions))
  {
    hide Drawn, Picked, ByFee, TrimmedFrom, TotalFees;
    DrawnFewer(selected, p, n);
    var transactions := [job.Coinbase(TotalFees(selected[..n]))] + selected[..n];
    assert transactions[1..] == selected[..n];
  }

  lemma {:induction false} NothingTrimmed(job: Job, picked: seq<Transaction>)
    ensures TrimmedFrom(job, picked, |picked|)
  {
  }

  lemma {:induction false} TrimOne(job: Job, picked: seq<Transaction>, n: nat)
    requires 0 < n && TrimmedFrom(job, picked, n)
    requires job.Measure([job.Coinbase(TotalFees(picked[..n]))] + picked[..n]) > job.limits.maxBlockBytes
    ensures TrimmedFrom(job, picked, n - 1)
  {
    hide TotalFees;
    forall k | n - 1 < k <= |picked|
      ensures job.Measure([job.Coinbase(TotalFees(picked[..k]))] + picked[..k]) > job.limits.maxBlockBytes
    {
    }
  }

  /** Gives up the last transactions until the block measures within its limit. */
  method Trim(job: Job, selected: seq<Transaction>, total: int) returns (transactions: seq<Transaction>, n: nat)
    requires total == TotalFees(selected)
    ensures n <= |selected| && transactions == [job.Coinbase(TotalFees(selected[..n]))] + selected[..n]
    ensures n > 0 ==> job.Measure(transactions) <= job.limits.maxBlockBytes
    ensures TrimmedFrom(job, selected, n)
  {
    hide TrimmedFrom, TotalFees;
    var fees := total;
    n := |selected|;
    assert selected[..n] == selected;
    NothingTrimmed(job, selected);
    transactions := [job.Coinbase(fees)] + selected;
    while n > 0 && job.Measure(transactions) > job.limits.maxBlockBytes
      invariant n <= |selected| && fees == TotalFees(selected[..n])
      invariant transactions == [job.Coinbase(fees)] + selected[..n]
      invariant TrimmedFrom(job, selected, n)
    {
      TrimOne(job, selected, n);
      n := n - 1;
      TakeOneMore(selected, n);
      TotalFeesAppend(selected[..n], selected[n]);
      fees := fees - selected[n].fee;
      transactions := [job.Coinbase(fees)] + selected[..n];
    }
  }

  lemma {:induction false} DrawnFromPool(selected: seq<Transaction>, p: seq<Transaction>)
    requires Drawn(selected, ByFee(p))
    ensures Drawn(selected, p)
  {
    forall k | 0 <= k < |selected| ensures selected[k] in p {
      var j :| 0 <= j < |ByFee(p)| && ByFee(p)[j] == selected[k];
      ByFeeMember(p, j);
    }
  }

  // ---------------------------------------------------------------- what a template is good for

  /** `b` is the template sealed: a seal fills in the nonce, the signer, the signature and the hash, and nothing
      else. */
  predicate Seals(b: Block, t: Template) {
    && b.transactions == t.transactions
    && b.header == t.header.(nonce := b.header.nonce, signer := b.header.signer, signature := b.header.signature)
  }

  lemma {:induction false} CoinbasePays(job: Job, fees: int)
    ensures TotalOut(job.Coinbase(fees).outputs) == job.reward + fees
    ensures ValidStructure(job.crypto, job.Coinbase(fees)) <==> job.reward + fees > 0
  {
    var cb := job.Coinbase(fees);
    assert cb.outputs[..0] == [];
    assert cb.Body() == TxBody([], [TxOutput(job.miner, job.reward + fees)], job.Timestamp(), 0, None);
    assert cb.outputs[0].amount == job.reward + fees;
  }

  lemma {:induction false} FeesAhead(tx: Transaction, rest: seq<Transaction>)
    ensures TotalFees([tx] + rest) == tx.fee + TotalFees(rest)
  {
    if |rest| == 0 {
      assert [tx] + rest == [tx];
      assert [tx][..0] == [];
    } else {
      FeesAhead(tx, rest[..|rest| - 1]);
      assert ([tx] + rest)[..|rest|] == [tx] + rest[..|rest| - 1];
    }
  }

  lemma {:induction false} SpendsAmong(txs: seq<Transaction>, o: Outpoint) returns (i: nat)
    requires o in AllSpends(txs)
    ensures i < |txs| && o in txs[i].Spends()
  {
    if o in txs[|txs| - 1].Spends() {
      i := |txs| - 1;
    } else {
      i := SpendsAmong(txs[..|txs| - 1], o);
    }
  }

  lemma {:induction false} ApartIsSeparate(txs: seq<Transaction>)
    requires Apart(txs)
    ensures Separate(txs)
  {
    if |txs| > 0 {
      var n := |txs| - 1;
      var front := txs[..n];
      ApartIsSeparate(front);
      if txs[n].id in Ids(front) {
        var i := FindId(front, txs[n].id);
      }
      forall o | o in txs[n].Spends() ensures o !in AllSpends(front) {
        if o in AllSpends(front) {
          var i := SpendsAmong(front, o);
        }
      }
    }
  }

  lemma {:induction false} CoinbaseApart(cb: Transaction, rest: seq<Transaction>)
    requires cb.IsCoinbase() && Apart(rest) && forall k :: 0 <= k < |rest| ==> rest[k].id != cb.id
    ensures Apart([cb] + rest)
  {
    var all := [cb] + rest;
    forall i, j | 0 <= i < j < |all| ensures all[i].id != all[j].id && all[i].Spends() !! all[j].Spends() {
      if i == 0 {
        assert all[j] == rest[j - 1];
      } else {
        assert all[i] == rest[i - 1] && all[j] == rest[j - 1];
      }
    }
  }

  /** The coinbase takes exactly the reward and the fees of the transactions beside it. */
  lemma {:induction false} TemplatePaysExactly(job: Job, p: seq<Transaction>, t: Template)
    requires Fits(job, p, t)
    ensures TotalOut(t.transactions[0].outputs) == job.reward + TotalFees(t.transactions)
    ensures t.transactions[0].fee == 0 && t.transactions[0].IsCoinbase()
  {
    var rest := t.transactions[1..];
    CoinbasePays(job, TotalFees(rest));
    FeesAhead(t.transactions[0], rest);
    assert t.transactions == [t.transactions[0]] + rest;
  }

  /** The header of a template: the next height on its parent, later than it and not before now, unsealed. */
  lemma {:induction false} TemplateHeader(job: Job, p: seq<Transaction>, t: Template)
    requires Fits(job, p, t)
    ensures t.header.version == 1 && t.header.previousHash == job.parent.hash
    ensures t.header.height == job.parent.header.height + 1 && t.header.difficultyTarget == job.target
    ensures job.parent.header.timestamp < t.header.timestamp && job.now <= t.header.timestamp
    ensures t.header.timestamp == job.now || t.header.timestamp == job.parent.header.timestamp + 1
    ensures t.header.nonce == 0 && t.header.signer.None? && t.header.signature.None?
    ensures t.header.merkleRoot == job.crypto.merkleRoot(TransactionIds(t.transactions))
    ensures t.transactions[0].timestamp == t.header.timestamp && |t.transactions[0].outputs| == 1
    ensures t.transactions[0].outputs[0].address == job.miner && t.transactions[0].data.None?
  {
  }

  /** A sealed template passes the block rules, as far as its size allows. */
  lemma {:induction false} TemplateIsSound(job: Job, p: seq<Transaction>, t: Template, b: Block)
    requires Fits(job, p, t) && Seals(b, t) && 1 <= job.limits.maxTransactions
    requires job.crypto.blockBytes(b) <= job.limits.maxBlockBytes
    requires forall k :: 0 <= k < |p| ==>
      ValidStructure(job.crypto, p[k]) && !p[k].IsCoinbase() && p[k].id != t.transactions[0].id
    requires job.reward + TotalFees(t.transactions[1..]) > 0
    ensures SoundBody(job.crypto, b, job.reward, job.limits)
  {
    hide ValidStructure, Separate, TotalFees, TotalOut;
    var txs, rest := t.transactions, t.transactions[1..];
    TemplatePaysExactly(job, p, t);
    CoinbasePays(job, TotalFees(rest));
    forall k | 0 <= k < |rest|
      ensures ValidStructure(job.crypto, rest[k]) && !rest[k].IsCoinbase() && rest[k].id != txs[0].id
    {
      var j :| 0 <= j < |p| && p[j] == rest[k];
    }
    forall k | 0 <= k < |txs| ensures ValidStructure(job.crypto, txs[k]) && (k > 0 ==> !txs[k].IsCoinbase()) {
      if k > 0 {
        assert txs[k] == rest[k - 1];
      }
    }
    CoinbaseApart(txs[0], rest);
    assert txs == [txs[0]] + rest;
    ApartIsSeparate(txs);
  }

  /**
   * A sealed template connects whenever the tip is again the one it was built on: transactions that
   * entered or left the pool while it was being sealed make no difference.
   */
  lemma {:induction false} TemplateConnects(
    r: SpendRules, job: Job, chain: seq<Block>, p: seq<Transaction>, t: Template, b: Block)
    requires Fits(job, p, t) && Seals(b, t) && job.crypto == r.crypto
    requires |chain| > 0 && job.parent == chain[|chain| - 1]
    requires Replays(r, chain) && DistinctIds(Steps(chain)) && PoolValid(r, UtxoOf(chain), p, job.Height())
    requires IdsBindPending(r.crypto, Steps(chain), t.transactions[1..])
    requires NewIds(Steps(chain), [Placed(t.transactions[0], job.Height())])
    ensures Replays(r, chain + [b]) <==> job.reward + TotalFees(t.transactions[1..]) > 0
  {
    hide ValidTx, Steps, UtxoOf, Replays, DistinctIds, NewIds, TotalFees, ValidStructure;
    var rest := t.transactions[1..];
    CoinbasePays(job, TotalFees(rest));
    if job.reward + TotalFees(rest) > 0 {
      DrawnIsValid(r, UtxoOf(chain), p, rest, job.Height());
      MineableConnects(r, chain, b);
    } else {
      BadCoinbaseFails(r, chain, b);
    }
  }

  lemma {:induction false} DrawnIsValid(
    r: SpendRules, u: Utxos, p: seq<Transaction>, rest: seq<Transaction>, height: int)
    requires Drawn(rest, p) && PoolValid(r, u, p, height)
    ensures PoolValid(r, u, rest, height)
  {
    hide ValidTx;
    forall k | 0 <= k < |rest| ensures !rest[k].IsCoinbase() && ValidTx(r, u, rest[k], height) {
      var j :| 0 <= j < |p| && p[j] == rest[k];
    }
  }

  lemma {:induction false} BadCoinbaseFails(r: SpendRules, chain: seq<Block>, b: Block)
    requires 0 < |b.transactions| && !ValidStructure(r.crypto, b.transactions[0])
    ensures !Replays(r, chain + [b])
  {
    hide ValidStructure;
    ReplayPush(r, chain, b);
    if Applies(r, UtxoOf(chain), BlockSteps(b)) {
      AppliesAt(r, UtxoOf(chain), BlockSteps(b), 0);
    }
  }
}
