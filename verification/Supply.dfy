/**
 * How many coins the unspent outputs hold: conserved by transactions up to their fees, and
 * bounded over every replayed chain by the genesis allocation plus what the blocks mint.
 */
module Supply {

  import opened Ledger
  import opened Utxo
  import opened Chain
  import opened Pool
  import opened BlockRules
  import opened Monetary

  ghost function Total(u: Utxos): int {
    if u == map[] then 0 else
    var o :| o in u;
    u[o].amount + Total(u - {o})
  }

  lemma {:induction false} TotalWithout(u: Utxos, o: Outpoint)
    requires o in u
    ensures Total(u) == u[o].amount + Total(u - {o})
    decreases |u|
  {
    var p :| p in u && Total(u) == u[p].amount + Total(u - {p});
    if p != o {
      assert u - {p} - {o} == u - {o} - {p};
      TotalWithout(u - {p}, o);
      TotalWithout(u - {o}, p);
    }
  }

  lemma {:induction false} TotalPut(u: Utxos, o: Outpoint, e: UtxoEntry)
    requires o !in u
    ensures Total(u[o := e]) == Total(u) + e.amount
  {
    TotalWithout(u[o := e], o);
    assert u[o := e] - {o} == u;
  }

  lemma {:induction false} TotalUnion(a: Utxos, b: Utxos)
    requires a.Keys !! b.Keys
    ensures Total(a + b) == Total(a) + Total(b)
    decreases b.Keys
  {
    if b == map[] {
      assert a + b == a;
      assert Total(b) == 0;
    } else {
      hide Total;
      var o :| o in b;
      TotalWithout(b, o);
      TotalWithout(a + b, o);
      UnionWithout(a, b, o);
      TotalUnion(a, b - {o});
    }
  }

  lemma {:induction false} UnionWithout(a: Utxos, b: Utxos, o: Outpoint)
    requires a.Keys !! b.Keys && o in b
    ensures (a + b) - {o} == a + (b - {o}) && (a + b)[o] == b[o] && a.Keys !! (b - {o}).Keys
  {
  }

  function Among(u: Utxos, keys: set<Outpoint>): Utxos {
    map o | o in u && o in keys :: u[o]
  }

  lemma {:induction false} TotalSplit(u: Utxos, keys: set<Outpoint>)
    ensures Total(u) == Total(u - keys) + Total(Among(u, keys))
  {
    TotalUnion(u - keys, Among(u, keys));
    assert (u - keys) + Among(u, keys) == u;
  }

  function Spent(inputs: seq<TxInput>): set<Outpoint> {
    set i | 0 <= i < |inputs| :: inputs[i].outpoint
  }

  lemma {:induction false} TotalSpent(u: Utxos, inputs: seq<TxInput>)
    requires DistinctOutpoints(inputs) && forall i :: 0 <= i < |inputs| ==> inputs[i].outpoint in u
    ensures Total(u - Spent(inputs)) == Total(u) - TotalIn(u, inputs)
  {
    if |inputs| == 0 {
      assert u - Spent(inputs) == u;
    } else {
      var front, o := inputs[..|inputs| - 1], inputs[|inputs| - 1].outpoint;
      TotalSpent(u, front);
      assert o !in Spent(front);
      assert Spent(inputs) == Spent(front) + {o};
      assert u - Spent(inputs) == (u - Spent(front)) - {o};
      TotalWithout(u - Spent(front), o);
    }
  }

  /** The entries of the first `n` outputs. */
  function CreatedUpTo(tx: Transaction, height: int, n: nat): Utxos
    requires n <= |tx.outputs|
  {
    if n == 0 then map[] else
    CreatedUpTo(tx, height, n - 1)[
      Outpoint(tx.id, n - 1) := UtxoEntry(tx.outputs[n - 1].address, tx.outputs[n - 1].amount, height, tx.IsCoinbase())]
  }

  lemma {:induction false} CreatedKeys(tx: Transaction, height: int, n: nat)
    requires n <= |tx.outputs|
    ensures forall o :: o in CreatedUpTo(tx, height, n) <==> o.txId == tx.id && 0 <= o.index < n
    ensures forall o :: o in CreatedUpTo(tx, height, n) ==>
      CreatedUpTo(tx, height, n)[o]
      == UtxoEntry(tx.outputs[o.index].address, tx.outputs[o.index].amount, height, tx.IsCoinbase())
    ensures Total(CreatedUpTo(tx, height, n)) == TotalOut(tx.outputs[..n])
  {
    if n > 0 {
      CreatedKeys(tx, height, n - 1);
      TotalPut(CreatedUpTo(tx, height, n - 1), Outpoint(tx.id, n - 1),
               UtxoEntry(tx.outputs[n - 1].address, tx.outputs[n - 1].amount, height, tx.IsCoinbase()));
      TakeOneMore(tx.outputs, n - 1);
      TotalOutAppend(tx.outputs[..n - 1], tx.outputs[n - 1]);
    }
  }

  lemma {:induction false} TotalCreated(tx: Transaction, height: int)
    ensures Total(CreatedEntries(tx, height)) == TotalOut(tx.outputs)
  {
    hide Total, TotalOut;
    var n := |tx.outputs|;
    CreatedKeys(tx, height, n);
    forall o ensures Look(CreatedEntries(tx, height), o) == Look(CreatedUpTo(tx, height, n), o) {
      if tx.Creates(o) {
        assert o == Outpoint(tx.id, o.index);
      }
    }
    SameLooks(CreatedEntries(tx, height), CreatedUpTo(tx, height, n));
    assert tx.outputs[..n] == tx.outputs;
  }

  /** Unspent entries that the transaction overwrites without spending them. */
  function Overwritten(u: Utxos, tx: Transaction, height: int): Utxos {
    Among(u - tx.Spends(), CreatedEntries(tx, height).Keys)
  }

  /** Applying a transaction moves its inputs to its outputs and destroys what it overwrites. */
  lemma {:induction false} ApplyConserves(u: Utxos, tx: Transaction, height: int)
    requires DistinctOutpoints(tx.inputs) && Funded(u, tx)
    ensures Total(ApplyTx(u, tx, height)) + Total(Overwritten(u, tx, height))
            == Total(u) - TotalIn(u, tx.inputs) + TotalOut(tx.outputs)
  {
    var left, created := u - tx.Spends(), CreatedEntries(tx, height);
    TotalSpent(u, tx.inputs);
    assert Spent(tx.inputs) == tx.Spends();
    TotalSplit(left, created.Keys);
    TotalUnion(left - created.Keys, created);
    assert left + created == (left - created.Keys) + created;
    TotalCreated(tx, height);
  }

  // ---------------------------------------------------------------- runs

  predicate Positive(u: Utxos) {
    forall o :: o in u ==> u[o].amount > 0
  }

  lemma {:induction false} PositiveTotal(u: Utxos)
    requires Positive(u)
    ensures Total(u) >= 0
    decreases |u|
  {
    if u != map[] {
      var o :| o in u;
      TotalWithout(u, o);
      PositiveTotal(u - {o});
    }
  }

  /** A valid transaction lowers the total by at least its fee; a coinbase raises it by at most its outputs. */
  lemma {:induction false} ValidTxTotal(r: SpendRules, u: Utxos, tx: Transaction, height: int)
    requires ValidTx(r, u, tx, height) && Positive(u)
    ensures Positive(ApplyTx(u, tx, height))
    ensures Total(ApplyTx(u, tx, height)) <= Total(u) + if tx.IsCoinbase() then TotalOut(tx.outputs) else -tx.fee
  {
    assert Funded(u, tx);
    ApplyConserves(u, tx, height);
    PositiveTotal(Overwritten(u, tx, height));
    forall o | o in ApplyTx(u, tx, height)
      ensures ApplyTx(u, tx, height)[o].amount > 0
    {
      ApplyTxAt(u, tx, height, o);
    }
  }

  lemma {:induction false} PrefixTotal(r: SpendRules, u: Utxos, b: Block, i: nat)
    requires Applies(r, u, BlockSteps(b)) && CoinbaseFirst(b.transactions) && Positive(u) && i <= |b.transactions|
    ensures Positive(After(u, BlockSteps(b)[..i]))
    ensures Total(After(u, BlockSteps(b)[..i]))
            <= Total(u) - TotalFees(b.transactions[..i])
               + if i == 0 then 0 else TotalOut(b.transactions[0].outputs) + b.transactions[0].fee
  {
    hide ValidTx, Total, Positive, ApplyTx, TotalOut;
    var steps, txs := BlockSteps(b), b.transactions;
    if i > 0 {
      var k := i - 1;
      PrefixTotal(r, u, b, k);
      AppliesAt(r, u, steps, k);
      TakeOneMore(steps, k);
      TakeOneMore(txs, k);
      TotalFeesAppend(txs[..k], txs[k]);
      ValidTxTotal(r, After(u, steps[..k]), txs[k], b.header.height);
    }
  }

  /** What the block rules say about the amounts of a block. */
  predicate WithinReward(b: Block, reward: int) {
    CoinbaseFirst(b.transactions) && TotalOut(b.transactions[0].outputs) <= reward + TotalFees(b.transactions)
  }

  lemma {:induction false} SoundIsWithin(c: Crypto, b: Block, reward: int, limits: Limits)
    requires SoundBody(c, b, reward, limits)
    ensures WithinReward(b, reward)
  {
  }

  /** A block adds at most the reward and its coinbase's own fee field. */
  lemma {:induction false} BlockTotal(r: SpendRules, u: Utxos, b: Block, reward: int)
    requires WithinReward(b, reward) && Applies(r, u, BlockSteps(b)) && Positive(u)
    ensures Positive(After(u, BlockSteps(b)))
    ensures Total(After(u, BlockSteps(b))) <= Total(u) + reward + b.transactions[0].fee
  {
    hide Total, Positive, Applies;
    var n := |b.transactions|;
    PrefixTotal(r, u, b, n);
    assert BlockSteps(b)[..n] == BlockSteps(b);
    assert b.transactions[..n] == b.transactions;
  }

  // ---------------------------------------------------------------- chains

  predicate GenesisShape(b: Block) {
    |b.transactions| == 1 && b.transactions[0].IsCoinbase()
  }

  /** A chain that replays from genesis and whose later blocks keep within their rewards. */
  predicate Lawful(r: SpendRules, p: MonetaryPolicy, chain: seq<Block>) {
    && 0 < |chain| && GenesisShape(chain[0]) && Replays(r, chain)
    && (forall k :: 1 <= k < |chain| ==> WithinReward(chain[k], p.BlockReward(k)))
  }

  function Allocation(genesis: Block): int
    requires GenesisShape(genesis)
  {
    TotalOut(genesis.transactions[0].outputs)
  }

  /** The fee fields of the coinbases above genesis. */
  function CoinbaseFees(chain: seq<Block>): int
    requires forall k :: 1 <= k < |chain| ==> 0 < |chain[k].transactions|
  {
    if |chain| <= 1 then 0
    else CoinbaseFees(chain[..|chain| - 1]) + chain[|chain| - 1].transactions[0].fee
  }

  lemma {:induction false} GenesisTotal(r: SpendRules, genesis: Block)
    requires GenesisShape(genesis) && Replays(r, [genesis])
    ensures Positive(UtxoOf([genesis])) && Total(UtxoOf([genesis])) <= Allocation(genesis)
  {
    hide Total, Positive, UtxoOf, Replays, Applies, TotalFees;
    assert [] + [genesis] == [genesis];
    ReplayPush(r, [], genesis);
    EmptySupply();
    PrefixTotal(r, map[], genesis, 1);
    assert BlockSteps(genesis)[..1] == BlockSteps(genesis);
    assert genesis.transactions[..1] == genesis.transactions;
    OneFee(genesis.transactions);
  }

  lemma {:induction false} EmptySupply()
    ensures UtxoOf([]) == map[] && Positive(map[]) && Total(map[]) == 0
  {
  }

  lemma {:induction false} OneFee(txs: seq<Transaction>)
    requires |txs| == 1
    ensures TotalFees(txs) == txs[0].fee
  {
    assert txs[..0] == [];
  }

  /** Over every lawful chain, what exists is at most the allocation, the rewards and the coinbases' fee fields. */
  lemma {:induction false} SupplyBound(r: SpendRules, p: MonetaryPolicy, chain: seq<Block>)
    requires Lawful(r, p, chain)
    ensures Positive(UtxoOf(chain))
    ensures Total(UtxoOf(chain)) <= Allocation(chain[0]) + p.Emitted(|chain| - 1) + CoinbaseFees(chain)
  {
    hide Total, Positive, UtxoOf, Replays, Applies;
    var n := |chain| - 1;
    if n == 0 {
      assert chain == [chain[0]];
      GenesisTotal(r, chain[0]);
    } else {
      var below, b := chain[..n], chain[n];
      assert chain == below + [b];
      ReplayPush(r, below, b);
      SupplyBound(r, p, below);
      BlockTotal(r, UtxoOf(below), b, p.BlockReward(n));
    }
  }

  predicate FeelessCoinbases(chain: seq<Block>) {
    forall k :: 1 <= k < |chain| ==> 0 < |chain[k].transactions| && chain[k].transactions[0].fee == 0
  }

  lemma {:induction false} NoCoinbaseFees(chain: seq<Block>)
    requires FeelessCoinbases(chain)
    ensures CoinbaseFees(chain) == 0
  {
    if |chain| > 1 {
      NoCoinbaseFees(chain[..|chain| - 1]);
    }
  }

  /** When coinbases carry no fee of their own, the schedule and its cap bound the supply. */
  lemma {:induction false} ScheduleBoundsSupply(r: SpendRules, p: MonetaryPolicy, chain: seq<Block>, cap: nat)
    requires Lawful(r, p, chain) && FeelessCoinbases(chain)
    ensures Total(UtxoOf(chain)) <= Allocation(chain[0]) + p.Emitted(|chain| - 1)
    ensures Allocation(chain[0]) >= 0 && IsCap(p, Allocation(chain[0]), cap) ==> Total(UtxoOf(chain)) <= cap
  {
    hide Total, UtxoOf, Replays;
    SupplyBound(r, p, chain);
    NoCoinbaseFees(chain);
  }

  // ---------------------------------------------------------------- where the bound fails

  /** The coinbase pays out no more than the reward and the fees the other transactions leave. */
  predicate PaysWithinMeans(b: Block, reward: int)
    requires 0 < |b.transactions|
  {
    TotalOut(b.transactions[0].outputs) <= reward + TotalFees(b.transactions) - b.transactions[0].fee
  }

  /** A block with only a coinbase that claims the fee `fee` and pays it out on top of the reward. */
  function SelfPaying(c: Crypto, timestamp: int, reward: int, fee: int): Block {
    var body := TxBody([], [TxOutput("", reward + fee)], timestamp, fee, None);
    var cb := Transaction(c.transactionId(body), body.inputs, body.outputs, body.timestamp, body.fee, body.data);
    Block(Header(0, 0, c.merkleRoot(TransactionIds([cb])), 0, 0, 0, 1, None, None), [cb], 0)
  }

  lemma {:induction false} LoneCoinbaseIsSound(c: Crypto, b: Block, cb: Transaction, reward: int, limits: Limits)
    requires b.transactions == [cb] && cb.IsCoinbase() && ValidStructure(c, cb)
    requires c.merkleRoot(TransactionIds([cb])) == b.header.merkleRoot
    requires c.blockBytes(b) <= limits.maxBlockBytes && 1 <= limits.maxTransactions
    ensures SoundBody(c, b, reward, limits) <==> TotalOut(cb.outputs) <= reward + cb.fee
  {
    hide ValidStructure, TotalOut;
    OneFee([cb]);
    assert [cb][..0] == [];
    assert Ids([]) == {} && AllSpends([]) == {};
    assert Separate([cb]);
  }

  lemma {:induction false} SelfPayingIsSound(c: Crypto, timestamp: int, reward: int, fee: int)
    requires reward >= 0 && fee > 0
    ensures var b := SelfPaying(c, timestamp, reward, fee);
            SoundBody(c, b, reward, Limits(c.blockBytes(b), 1)) && !PaysWithinMeans(b, reward)
  {
    var b := SelfPaying(c, timestamp, reward, fee);
    var cb := b.transactions[0];
    assert cb.Body() == TxBody([], [TxOutput("", reward + fee)], timestamp, fee, None);
    OneCoinbase(c, cb, "", reward + fee);
    LoneCoinbaseIsSound(c, b, cb, reward, Limits(c.blockBytes(b), 1));
    OneFee(b.transactions);
  }

  /**
   * The block rules count the coinbase's own fee among the fees it may pay out, so they keep the
   * coinbase within its means exactly when that fee is zero.
   */
  lemma {:induction false} CoinbaseFeeDecides(c: Crypto, reward: int, fee: int)
    requires reward >= 0 && fee >= 0
    ensures (forall b: Block, limits: Limits ::
               SoundBody(c, b, reward, limits) && b.transactions[0].fee == fee ==> PaysWithinMeans(b, reward))
            <==> fee == 0
  {
    if fee > 0 {
      SelfPayingIsSound(c, 0, reward, fee);
      assert SelfPaying(c, 0, reward, fee).transactions[0].fee == fee;
    }
  }

  lemma {:induction false} TwoAreLawful(r: SpendRules, p: MonetaryPolicy, g: Block, b: Block)
    requires GenesisShape(g) && Replays(r, [g, b]) && WithinReward(b, p.BlockReward(1))
    ensures Lawful(r, p, [g, b])
  {
    hide Replays, WithinReward;
  }

  lemma {:induction false} OneCoinbaseFee(g: Block, b: Block)
    requires 0 < |b.transactions|
    ensures CoinbaseFees([g, b]) == b.transactions[0].fee
  {
    assert [g, b][..1] == [g];
  }

  lemma {:induction false} FirstRewards(p: MonetaryPolicy)
    ensures p.Emitted(1) == p.BlockReward(1)
  {
    assert p.Emitted(0) == 0;
  }

  /** A chain of genesis and a self-paying block holds the coinbase's fee on top of allocation and schedule. */
  lemma {:induction false} SelfPayingPasses(r: SpendRules, p: MonetaryPolicy, g: Block, timestamp: int, fee: int)
    requires GenesisShape(g) && ValidStructure(r.crypto, g.transactions[0]) && fee > 0
    requires SelfPaying(r.crypto, timestamp, p.BlockReward(1), fee).transactions[0].id != g.transactions[0].id
    ensures var chain := [g, SelfPaying(r.crypto, timestamp, p.BlockReward(1), fee)];
            && Lawful(r, p, chain) && CoinbaseFees(chain) == fee
            && Total(UtxoOf(chain)) == Allocation(g) + p.Emitted(1) + fee
  {
    hide ValidStructure, Replays, UtxoOf, Total, TotalOut, WithinReward, SoundBody;
    var b := SelfPaying(r.crypto, timestamp, p.BlockReward(1), fee);
    var cb := b.transactions[0];
    SelfPayingIsSound(r.crypto, timestamp, p.BlockReward(1), fee);
    SoundIsWithin(r.crypto, b, p.BlockReward(1), Limits(r.crypto.blockBytes(b), 1));
    SelfPayingShape(r.crypto, timestamp, p.BlockReward(1), fee);
    GenesisIsOne(g);
    TwoCoinbases(r, g, b, g.transactions[0], cb);
    TwoAreLawful(r, p, g, b);
    OneCoinbaseFee(g, b);
    FirstRewards(p);
  }

  lemma {:induction false} GenesisIsOne(g: Block)
    requires GenesisShape(g)
    ensures g.transactions == [g.transactions[0]] && g.transactions[0].IsCoinbase()
  {
  }

  lemma {:induction false} SelfPayingShape(c: Crypto, timestamp: int, reward: int, fee: int)
    requires reward >= 0 && fee > 0
    ensures var b := SelfPaying(c, timestamp, reward, fee);
            && b.transactions == [b.transactions[0]] && b.transactions[0].IsCoinbase() && b.transactions[0].fee == fee
            && ValidStructure(c, b.transactions[0]) && TotalOut(b.transactions[0].outputs) == reward + fee
  {
    var cb := SelfPaying(c, timestamp, reward, fee).transactions[0];
    assert cb.Body() == TxBody([], [TxOutput("", reward + fee)], timestamp, fee, None);
    OneCoinbase(c, cb, "", reward + fee);
  }

  /**
   * Over whole chains: those whose coinbases claim `fee` in total all keep to the allocation and the schedule if and
   * only if that is nothing. `g` and `timestamp` only pick two coinbases with different ids.
   */
  lemma {:induction false} ChainFeesDecide(r: SpendRules, p: MonetaryPolicy, g: Block, timestamp: int, fee: int)
    requires GenesisShape(g) && ValidStructure(r.crypto, g.transactions[0]) && fee >= 0
    requires SelfPaying(r.crypto, timestamp, p.BlockReward(1), fee).transactions[0].id != g.transactions[0].id
    ensures (forall chain :: Lawful(r, p, chain) && CoinbaseFees(chain) == fee ==>
               Total(UtxoOf(chain)) <= Allocation(chain[0]) + p.Emitted(|chain| - 1))
            <==> fee == 0
  {
    hide ValidStructure, Replays, UtxoOf, Total, TotalOut;
    if fee > 0 {
      SelfPayingPasses(r, p, g, timestamp, fee);
      var chain := [g, SelfPaying(r.crypto, timestamp, p.BlockReward(1), fee)];
      assert chain[0] == g && |chain| - 1 == 1;
      assert !(Total(UtxoOf(chain)) <= Allocation(chain[0]) + p.Emitted(|chain| - 1));
    } else {
      forall chain | Lawful(r, p, chain) && CoinbaseFees(chain) == fee
        ensures Total(UtxoOf(chain)) <= Allocation(chain[0]) + p.Emitted(|chain| - 1)
      {
        SupplyBound(r, p, chain);
      }
    }
  }

  lemma {:induction false} OneCoinbase(c: Crypto, tx: Transaction, to: Address, amount: int)
    requires tx.outputs == [TxOutput(to, amount)] && amount > 0 && tx.fee >= 0 && tx.data == None && tx.inputs == []
    requires c.transactionId(tx.Body()) == tx.id
    ensures ValidStructure(c, tx) && TotalOut(tx.outputs) == amount
  {
    assert tx.outputs[..0] == [];
  }

  lemma {:induction false} TwoCoinbases(r: SpendRules, g: Block, b: Block, first: Transaction, second: Transaction)
    requires g.transactions == [first] && b.transactions == [second] && first.id != second.id
    requires first.IsCoinbase() && second.IsCoinbase()
    requires ValidStructure(r.crypto, first) && ValidStructure(r.crypto, second)
    ensures Replays(r, [g, b])
    ensures Total(UtxoOf([g, b])) == TotalOut(first.outputs) + TotalOut(second.outputs)
  {
    hide ValidStructure, Total, UtxoOf, Replays, TotalOut;
    assert UtxoOf([]) == map[] && Replays(r, []) && Total(UtxoOf([])) == 0 by { EmptySupply(); EmptyReplays(r); }
    PushCoinbase(r, [], g, first);
    assert [] + [g] == [g];
    CreatedOnly(first, g.header.height);
    PushCoinbase(r, [g], b, second);
    assert [g] + [b] == [g, b];
  }

  lemma {:induction false} EmptyReplays(r: SpendRules)
    ensures Replays(r, [])
  {
  }

  lemma {:induction false} CreatedOnly(tx: Transaction, height: int)
    ensures forall o :: o in ApplyTx(map[], tx, height) ==> o.txId == tx.id
  {
  }

  /** A block of one coinbase with a new id adds exactly what that coinbase pays. */
  lemma {:induction false} PushCoinbase(r: SpendRules, chain: seq<Block>, b: Block, cb: Transaction)
    requires Replays(r, chain) && b.transactions == [cb] && cb.IsCoinbase() && ValidStructure(r.crypto, cb)
    requires forall o :: o in UtxoOf(chain) ==> o.txId != cb.id
    ensures Replays(r, chain + [b])
    ensures UtxoOf(chain + [b]) == ApplyTx(UtxoOf(chain), cb, b.header.height)
    ensures Total(UtxoOf(chain + [b])) == Total(UtxoOf(chain)) + TotalOut(cb.outputs)
  {
    hide ValidStructure, Total, UtxoOf, Replays, TotalOut, ApplyTx, Applies;
    assert BlockSteps(b) == [Placed(cb, b.header.height)];
    CoinbaseApplies(r, UtxoOf(chain), cb, b.header.height);
    ReplayPush(r, chain, b);
    FreshCoinbase(UtxoOf(chain), cb, b.header.height);
  }

  lemma {:induction false} FreshCoinbase(u: Utxos, tx: Transaction, height: int)
    requires tx.IsCoinbase() && forall o :: o in u ==> o.txId != tx.id
    ensures Total(ApplyTx(u, tx, height)) == Total(u) + TotalOut(tx.outputs)
  {
    ApplyConserves(u, tx, height);
    assert Overwritten(u, tx, height) == map[];
    assert Total(map[]) == 0;
  }
}
