/**
 * What the indexes say (src/node/node.ts:655-684, 1721-1745, src/state/chainState.ts:88-160): what an entry of the
 * address index or the record index holds, and that the history of every address adds up to what it owns.
 */
module Balances {

  import opened Ledger
  import opened Utxo
  import opened Store
  import opened Layers
  import opened Chain
  import opened Tree
  import opened HeaderIndex
  import opened Supply
  import opened AddressIndex
  import opened Adoption
  import opened NodeState
  import opened Startup

  // ---------------------------------------------------------------- sums over maps

  ghost function SumOf<K(!new), V(!new)>(m: map<K, V>, f: (K, V) -> int): int {
    if m == map[] then 0 else
    var k :| k in m;
    f(k, m[k]) + SumOf(m - {k}, f)
  }

  lemma {:induction false} SumWithout<K(!new), V(!new)>(m: map<K, V>, f: (K, V) -> int, k: K)
    requires k in m
    ensures SumOf(m, f) == f(k, m[k]) + SumOf(m - {k}, f)
    decreases |m|
  {
    var p :| p in m && SumOf(m, f) == f(p, m[p]) + SumOf(m - {p}, f);
    if p != k {
      assert m - {p} - {k} == m - {k} - {p};
      SumWithout(m - {p}, f, k);
      SumWithout(m - {k}, f, p);
    }
  }

  lemma {:induction false} SumNone<K(!new), V(!new)>(f: (K, V) -> int)
    ensures SumOf(map[], f) == 0
  {
  }

  lemma {:induction false} SumUnion<K(!new), V(!new)>(a: map<K, V>, b: map<K, V>, f: (K, V) -> int)
    requires a.Keys !! b.Keys
    ensures SumOf(a + b, f) == SumOf(a, f) + SumOf(b, f)
    decreases b.Keys
  {
    hide SumOf;
    SumNone(f);
    if b == map[] {
      assert a + b == a;
    } else {
      var k :| k in b;
      SumWithout(b, f, k);
      SumWithout(a + b, f, k);
      assert (a + b) - {k} == a + (b - {k});
      SumUnion(a, b - {k}, f);
    }
  }

  lemma {:induction false} SumZero<K(!new), V(!new)>(m: map<K, V>, f: (K, V) -> int)
    requires forall k :: k in m ==> f(k, m[k]) == 0
    ensures SumOf(m, f) == 0
    decreases m.Keys
  {
    hide SumOf;
    SumNone(f);
    if m != map[] {
      var k :| k in m;
      SumWithout(m, f, k);
      SumZero(m - {k}, f);
    }
  }

  // ---------------------------------------------------------------- what an address owns

  function Worth(a: Address): (Outpoint, UtxoEntry) -> int {
    (o, e: UtxoEntry) => if e.address == a then e.amount else 0
  }

  /** The amounts of the unspent outputs of an address. */
  ghost function Owned(u: Utxos, a: Address): int {
    SumOf(u, Worth(a))
  }

  lemma {:induction false} OwnedWithoutSpent(u: Utxos, tx: Transaction, a: Address, n: nat)
    requires Funded(u, tx) && DistinctOutpoints(tx.inputs) && n <= |tx.inputs|
    ensures Owned(u - Spent(tx.inputs[..n]), a) == Owned(u, a) - SentBy(UndoOf(u, tx).spent[..n], a)
  {
    hide SumOf, SentBy;
    var spent := UndoOf(u, tx).spent;
    if n == 0 {
      assert u - Spent(tx.inputs[..0]) == u;
      NoneSent(spent[..0], a);
    } else {
      OwnedWithoutSpent(u, tx, a, n - 1);
      var o := tx.inputs[n - 1].outpoint;
      TakeOneMore(tx.inputs, n - 1);
      TakeOneMore(spent, n - 1);
      var front := tx.inputs[..n - 1];
      assert Spent(tx.inputs[..n]) == Spent(front) + {o};
      assert o !in Spent(front);
      assert u - Spent(tx.inputs[..n]) == (u - Spent(front)) - {o};
      SumWithout(u - Spent(front), Worth(a), o);
      SentOneMore(spent[..n - 1], spent[n - 1], a);
    }
  }

  lemma {:induction false} NoneSent(spent: seq<SpentEntry>, a: Address)
    requires spent == []
    ensures SentBy(spent, a) == 0
  {
  }

  lemma {:induction false} SentOneMore(spent: seq<SpentEntry>, e: SpentEntry, a: Address)
    ensures SentBy(spent + [e], a) == SentBy(spent, a) + if e.entry.address == a then e.entry.amount else 0
  {
    assert (spent + [e])[..|spent|] == spent;
  }

  lemma {:induction false} OwnedCreated(tx: Transaction, height: int, a: Address, n: nat)
    requires n <= |tx.outputs|
    ensures Owned(CreatedUpTo(tx, height, n), a) == ReceivedBy(tx.outputs[..n], a)
  {
    hide SumOf;
    SumNone(Worth(a));
    if n > 0 {
      OwnedCreated(tx, height, a, n - 1);
      CreatedKeys(tx, height, n - 1);
      var o := Outpoint(tx.id, n - 1);
      var before, m := CreatedUpTo(tx, height, n - 1), CreatedUpTo(tx, height, n);
      SumWithout(m, Worth(a), o);
      assert m - {o} == before;
      TakeOneMore(tx.outputs, n - 1);
      assert tx.outputs[..n][..n - 1] == tx.outputs[..n - 1];
    }
  }

  /** A transaction with a new id moves to and from an address what it pays it and what of its it spends. */
  lemma {:induction false} OwnedAfter(u: Utxos, tx: Transaction, height: int, a: Address)
    requires Funded(u, tx) && DistinctOutpoints(tx.inputs) && forall o :: o in u ==> o.txId != tx.id
    ensures Owned(ApplyTx(u, tx, height), a)
         == Owned(u, a) + ReceivedBy(tx.outputs, a) - SentBy(UndoOf(u, tx).spent, a)
  {
    hide SumOf, SentBy, ReceivedBy;
    var spent, created := UndoOf(u, tx).spent, CreatedUpTo(tx, height, |tx.outputs|);
    OwnedWithoutSpent(u, tx, a, |tx.inputs|);
    OwnedCreated(tx, height, a, |tx.outputs|);
    CreatedKeys(tx, height, |tx.outputs|);
    assert tx.inputs[..|tx.inputs|] == tx.inputs && tx.outputs[..|tx.outputs|] == tx.outputs;
    assert spent[..|tx.inputs|] == spent;
    assert Spent(tx.inputs) == tx.Spends();
    assert CreatedEntries(tx, height) == created;
    SumUnion(u - tx.Spends(), created, Worth(a));
  }

  lemma {:induction false} NewId(steps: seq<Placed>, n: nat)
    requires DistinctIds(steps) && n < |steps|
    ensures forall o :: o in After(map[], steps[..n]) ==> o.txId != steps[n].tx.id
  {
    forall o | o in After(map[], steps[..n]) ensures o.txId != steps[n].tx.id {
      var m := CreatorOf(map[], steps, n, o);
    }
  }

  lemma {:induction false} OwnedStep(r: SpendRules, steps: seq<Placed>, n: nat, a: Address)
    requires Applies(r, map[], steps) && DistinctIds(steps) && n < |steps|
    ensures Funded(After(map[], steps[..n]), steps[n].tx)
    ensures Owned(After(map[], steps[..n + 1]), a)
         == Owned(After(map[], steps[..n]), a) + ReceivedBy(steps[n].tx.outputs, a)
            - SentBy(UndoOf(After(map[], steps[..n]), steps[n].tx).spent, a)
  {
    hide SumOf, SentBy, ReceivedBy, ApplyTx;
    AppliesAt(r, map[], steps, n);
    ValidIsFunded(r, After(map[], steps[..n]), steps[n].tx, steps[n].height);
    NewId(steps, n);
    TakeOneMore(steps, n);
    assert steps[..n + 1][..n] == steps[..n];
    OwnedAfter(After(map[], steps[..n]), steps[n].tx, steps[n].height, a);
  }

  // ---------------------------------------------------------------- what its history adds up to

  function Gain(a: Address): (ActivityKey, Activity) -> int {
    (k: ActivityKey, v: Activity) => if k.address == a then v.received - v.sent else 0
  }

  /** Everything received less everything sent, over the entries of an address. */
  ghost function Net(m: map<ActivityKey, Activity>, a: Address): int {
    SumOf(m, Gain(a))
  }

  lemma {:induction false} NetOfTx(b: Block, undo: BlockUndo, i: nat, a: Address)
    requires i < |b.transactions|
    ensures Net(EntriesOfTx(b, undo, i), a)
         == ReceivedBy(b.transactions[i].outputs, a) - SentBy(SpentIn(undo, i), a)
  {
    hide SumOf, SentBy, ReceivedBy, Senders, Receivers;
    var tx, spent, m := b.transactions[i], SpentIn(undo, i), EntriesOfTx(b, undo, i);
    var k := ActivityKey(a, b.header.height, tx.id);
    if a in Receivers(tx.outputs) + Senders(spent) {
      SumWithout(m, Gain(a), k);
      SumZero(m - {k}, Gain(a));
    } else {
      NothingReceived(tx.outputs, a);
      NothingSent(spent, a);
      SumZero(m, Gain(a));
    }
  }

  lemma {:induction false} EntryKeys(b: Block, undo: BlockUndo, n: nat, k: ActivityKey) returns (i: nat)
    requires n <= |b.transactions| && k in Entries(b, undo, n)
    ensures i < n && k in EntriesOfTx(b, undo, i) && k.height == b.header.height && k.txId == b.transactions[i].id
  {
    hide ActivityOf;
    if k in EntriesOfTx(b, undo, n - 1) {
      i := n - 1;
    } else {
      i := EntryKeys(b, undo, n - 1, k);
    }
  }

  /** The record says of every transaction of the block what it spent in its place in the run. */
  predicate RecordsRun(all: seq<Placed>, q: nat, b: Block, undo: BlockUndo) {
    && q + |b.transactions| == |all|
    && forall i :: 0 <= i < |b.transactions| ==>
         && all[q + i].tx == b.transactions[i] && Funded(After(map[], all[..q + i]), b.transactions[i])
         && SpentIn(undo, i) == UndoOf(After(map[], all[..q + i]), b.transactions[i]).spent
  }

  lemma {:induction false} BlockNet(
    r: SpendRules, all: seq<Placed>, q: nat, b: Block, undo: BlockUndo, base: map<ActivityKey, Activity>, a: Address,
    n: nat)
    requires Applies(r, map[], all) && DistinctIds(all) && RecordsRun(all, q, b, undo) && n <= |b.transactions|
    requires forall k :: k in base ==> k.height != b.header.height
    requires Net(base, a) == Owned(After(map[], all[..q]), a)
    ensures Net(base + Entries(b, undo, n), a) == Owned(After(map[], all[..q + n]), a)
  {
    hide SumOf, SentBy, ReceivedBy, EntriesOfTx, Applies, After, UndoOf;
    if n == 0 {
      assert base + map[] == base;
    } else {
      BlockNet(r, all, q, b, undo, base, a, n - 1);
      var before, entries := base + Entries(b, undo, n - 1), EntriesOfTx(b, undo, n - 1);
      assert base + Entries(b, undo, n) == before + entries;
      EntriesApart(all, q, b, undo, base, n - 1);
      SumUnion(before, entries, Gain(a));
      NetOfTx(b, undo, n - 1, a);
      OwnedStep(r, all, q + n - 1, a);
    }
  }

  lemma {:induction false} EntriesApart(
    all: seq<Placed>, q: nat, b: Block, undo: BlockUndo, base: map<ActivityKey, Activity>, n: nat)
    requires DistinctIds(all) && RecordsRun(all, q, b, undo) && n < |b.transactions|
    requires forall k :: k in base ==> k.height != b.header.height
    ensures (base + Entries(b, undo, n)).Keys !! EntriesOfTx(b, undo, n).Keys
  {
    hide EntriesOfTx, UndoOf, After, Funded;
    assert forall i :: 0 <= i < n ==> b.transactions[i].id != b.transactions[n].id by { IdsApart(all, q, b, undo, n); }
    forall k | k in EntriesOfTx(b, undo, n) ensures k !in base && k !in Entries(b, undo, n) {
      TxKeys(b, undo, n, k);
      if k in Entries(b, undo, n) {
        var i := EntryKeys(b, undo, n, k);
      }
    }
  }

  lemma {:induction false} IdsApart(all: seq<Placed>, q: nat, b: Block, undo: BlockUndo, n: nat)
    requires DistinctIds(all) && RecordsRun(all, q, b, undo) && n < |b.transactions|
    ensures forall i :: 0 <= i < n ==> b.transactions[i].id != b.transactions[n].id
  {
    forall i | 0 <= i < n ensures b.transactions[i].id != b.transactions[n].id {
      assert all[q + i].tx == b.transactions[i] && all[q + n].tx == b.transactions[n];
    }
  }

  lemma {:induction false} TxKeys(b: Block, undo: BlockUndo, i: nat, k: ActivityKey)
    requires i < |b.transactions| && k in EntriesOfTx(b, undo, i)
    ensures k.txId == b.transactions[i].id && k.height == b.header.height
  {
  }

  /** What the record left for the top block says. */
  lemma {:induction false} TopRecord(r: SpendRules, below: seq<Block>, b: Block)
    requires Replays(r, below + [b]) && (below == [] ==> SpendsNothing(b))
    ensures RecordsRun(Steps(below + [b]), |Steps(below)|, b, RecordOn(below, b))
  {
    hide Applies, After, UtxoOf, Replays, AllFunded, UndosOf, Steps;
    var chain := below + [b];
    assert chain[..|below|] == below && chain[|below|] == b;
    StepsPush(below, b);
    ReplayPush(r, below, b);
    AppliesIsFunded(r, UtxoOf(below), BlockSteps(b));
    forall i | 0 <= i < |b.transactions|
      ensures Steps(chain)[|Steps(below)| + i].tx == b.transactions[i]
      ensures Funded(After(map[], Steps(chain)[..|Steps(below)| + i]), b.transactions[i])
      ensures SpentIn(RecordOn(below, b), i)
           == UndoOf(After(map[], Steps(chain)[..|Steps(below)| + i]), b.transactions[i]).spent
    {
      StepOf(chain, |below|, i);
      UndosAt(UtxoOf(below), BlockSteps(b), i);
    }
  }

  /** Over every chain: the whole history of an address adds up to what it owns at the end. */
  lemma {:induction false} HistoryAddsUp(r: SpendRules, chain: seq<Block>, a: Address)
    requires Replays(r, chain) && DistinctIds(Steps(chain)) && Stacked(History(chain))
    requires 0 < |chain| ==> SpendsNothing(chain[0])
    ensures Net(Union(ActivityLayers(History(chain))), a) == Owned(UtxoOf(chain), a)
  {
    hide SumOf, Replays, RecordOn, ActivityLayer, RecordsRun, DistinctIds;
    if |chain| == 0 {
      assert ActivityLayers(History(chain)) == [];
      SumNone(Gain(a));
      SumNone(Worth(a));
    } else {
      var below, b := chain[..|chain| - 1], chain[|chain| - 1];
      assert chain == below + [b];
      ShorterChain(r, chain);
      HistoryAddsUp(r, below, a);
      TopRecord(r, below, b);
      TopNet(r, below, b, a);
    }
  }

  lemma {:induction false} ShorterChain(r: SpendRules, chain: seq<Block>)
    requires Replays(r, chain) && DistinctIds(Steps(chain)) && Stacked(History(chain)) && 0 < |chain|
    ensures var below := chain[..|chain| - 1];
            Replays(r, below) && DistinctIds(Steps(below)) && Stacked(History(below))
  {
    hide Replays, DistinctIds, Steps, Stacked;
    var n := |chain| - 1;
    ReplaysPrefix(r, chain, n);
    DistinctIdsPrefix(chain, n);
    HistoryPrefix(chain, n);
    StackedPrefix(History(chain), n);
  }

  lemma {:induction false} TopNet(r: SpendRules, below: seq<Block>, b: Block, a: Address)
    requires Replays(r, below + [b]) && DistinctIds(Steps(below + [b])) && Stacked(History(below + [b]))
    requires RecordsRun(Steps(below + [b]), |Steps(below)|, b, RecordOn(below, b))
    requires Net(Union(ActivityLayers(History(below))), a) == Owned(UtxoOf(below), a)
    ensures Net(Union(ActivityLayers(History(below + [b]))), a) == Owned(UtxoOf(below + [b]), a)
  {
    hide SumOf, RecordOn, RecordsRun, DistinctIds, Entries, Net, Owned, History, Steps, After, Applies, Union, Stacked,
      ActivityLayers;
    var c, base := Connected(b, RecordOn(below, b)), Union(ActivityLayers(History(below)));
    HistoryPush(below, b);
    LayersPush(History(below), c);
    UnionPush(ActivityLayers(History(below)), ActivityLayer(c));
    BelowHeights(below, b);
    StepsPush(below, b);
    var all, q := Steps(below + [b]), |Steps(below)|;
    assert all[..q] == Steps(below) && all[..q + |b.transactions|] == all;
    BlockNet(r, all, q, b, RecordOn(below, b), base, a, |b.transactions|);
  }

  lemma {:induction false} HistoryPush(below: seq<Block>, b: Block)
    ensures History(below + [b]) == History(below) + [Connected(b, RecordOn(below, b))]
  {
    hide RecordOn;
    assert (below + [b])[..|below|] == below;
  }

  lemma {:induction false} BelowHeights(below: seq<Block>, b: Block)
    requires Stacked(History(below + [b]))
    ensures forall k :: k in Union(ActivityLayers(History(below))) ==> k.height != b.header.height
  {
    hide History;
    var chain, h := below + [b], History(below);
    HistoryPrefix(chain, |below|);
    assert chain[..|below|] == below;
    StackedPrefix(History(chain), |below|);
    assert History(chain)[|below|].block == b;
    SliceHeights(h, 0, |h|);
    LayerCount(h);
    assert ActivityLayers(h)[0..|h|] == ActivityLayers(h);
  }

  /** In every state of every node that keeps the whole index: received less sent is what the address owns. */
  lemma {:induction false} BalanceIsOwned(r: Rules, w: World, s: State, a: Address)
    requires Assumes(r, w) && Sane(r, w, s) && r.cfg.addressIndexEnabled && r.cfg.addressIndexDepth == 0
    ensures Net(s.activity, a) == Owned(s.utxo, a)
  {
    hide Assumes, Net, Owned;
    var chain := Canonical(r, s);
    SaneIds(r, w, s);
    SaneTree(r, w, s);
    SaneConsistent(r, w, s);
    HistoryStacked(s.blocks, r.Genesis(), s.tip.hash);
    CanonicalGenesis(r, w, s);
    var layers := ActivityLayers(History(chain));
    hide Sane, TreeOk, ChainOf, Replays, DistinctIds, Steps, History, Union, UtxoOf, SpendsNothing, Stacked;
    assert layers[0..] == layers;
    HistoryAddsUp(r.cfg.rules, chain, a);
  }

  lemma {:induction false} CanonicalGenesis(r: Rules, w: World, s: State)
    requires Sane(r, w, s)
    ensures TreeOk(s.blocks, r.Genesis()) && s.tip.hash in s.blocks
    ensures 0 < |Canonical(r, s)| && SpendsNothing(Canonical(r, s)[0])
  {
    hide Sane, TreeOk, ChainOf;
    SaneTree(r, w, s);
    ChainShape(s.blocks, r.Genesis(), s.tip.hash);
    ChainPrefix(s.blocks, r.Genesis(), s.tip.hash, 0);
    GenesisSpends(r, w, s, Canonical(r, s)[0].hash);
  }

  lemma {:induction false} GenesisSpends(r: Rules, w: World, s: State, h: Hash)
    requires Sane(r, w, s) && h in s.blocks && s.blocks[h].header.height == 0
    ensures SpendsNothing(s.blocks[h])
  {
    hide Consistent, HeadersOk, FromWorld;
    assert BodyOk(r.Crypto(), r.policy, s.blocks[h]);
  }

  // ---------------------------------------------------------------- what an entry holds

  /** The transaction pays the address or spends something of its. */
  predicate Touched(tx: Transaction, spent: seq<SpentEntry>, a: Address) {
    || (exists i :: 0 <= i < |tx.outputs| && tx.outputs[i].address == a)
    || (exists i :: 0 <= i < |spent| && spent[i].entry.address == a)
  }

  lemma {:induction false} ReceiverIs(outputs: seq<TxOutput>, a: Address)
    ensures a in Receivers(outputs) <==> exists i :: 0 <= i < |outputs| && outputs[i].address == a
  {
    if |outputs| > 0 {
      var front := outputs[..|outputs| - 1];
      ReceiverIs(front, a);
      assert outputs == front + [outputs[|outputs| - 1]];
      if i :| 0 <= i < |front| && front[i].address == a {
        assert outputs[i].address == a;
      }
    }
  }

  lemma {:induction false} SenderIs(spent: seq<SpentEntry>, a: Address)
    ensures a in Senders(spent) <==> exists i :: 0 <= i < |spent| && spent[i].entry.address == a
  {
    if |spent| > 0 {
      var front := spent[..|spent| - 1];
      SenderIs(front, a);
      assert spent == front + [spent[|spent| - 1]];
      if i :| 0 <= i < |front| && front[i].entry.address == a {
        assert spent[i].entry.address == a;
      }
    }
  }

  lemma {:induction false} TxEntry(b: Block, undo: BlockUndo, i: nat, k: ActivityKey)
    requires i < |b.transactions|
    ensures k in EntriesOfTx(b, undo, i) <==>
      k.height == b.header.height && k.txId == b.transactions[i].id
      && Touched(b.transactions[i], SpentIn(undo, i), k.address)
    ensures k in EntriesOfTx(b, undo, i) ==>
      var e := EntriesOfTx(b, undo, i)[k];
      && e.blockHash == b.hash && e.timestamp == b.transactions[i].timestamp
      && e.received == ReceivedBy(b.transactions[i].outputs, k.address)
      && e.sent == SentBy(SpentIn(undo, i), k.address)
  {
    ReceiverIs(b.transactions[i].outputs, k.address);
    SenderIs(SpentIn(undo, i), k.address);
    hide ReceivedBy, SentBy, Receivers, Senders;
  }

  predicate OwnIds(b: Block) {
    forall i, j :: 0 <= i < j < |b.transactions| ==> b.transactions[i].id != b.transactions[j].id
  }

  lemma {:induction false} EntryOfBlock(b: Block, undo: BlockUndo, n: nat, i: nat, k: ActivityKey)
    requires i < n <= |b.transactions| && OwnIds(b) && k.txId == b.transactions[i].id
    ensures k in Entries(b, undo, n) <==> k in EntriesOfTx(b, undo, i)
    ensures k in EntriesOfTx(b, undo, i) ==> Entries(b, undo, n)[k] == EntriesOfTx(b, undo, i)[k]
  {
    hide EntriesOfTx;
    if i < n - 1 {
      EntryOfBlock(b, undo, n - 1, i, k);
      if k in EntriesOfTx(b, undo, n - 1) {
        TxKeys(b, undo, n - 1, k);
      }
    } else if k in Entries(b, undo, n - 1) {
      var j := EntryKeys(b, undo, n - 1, k);
    }
  }

  lemma {:induction false} BlockIdsApart(chain: seq<Block>, h: nat)
    requires DistinctIds(Steps(chain)) && h < |chain|
    ensures OwnIds(chain[h])
  {
    hide Steps;
    forall i, j | 0 <= i < j < |chain[h].transactions|
      ensures chain[h].transactions[i].id != chain[h].transactions[j].id
    {
      StepOf(chain, h, i);
      StepOf(chain, h, j);
    }
  }

  lemma {:induction false} InSlice(h: seq<Connected>, lo: nat, k: ActivityKey)
    requires Stacked(h) && lo <= |h|
    ensures k in Union(ActivityLayers(h)[lo..]) <==> lo <= k.height < |h| && k in ActivityLayer(h[k.height])
    ensures k in Union(ActivityLayers(h)[lo..]) ==>
      Union(ActivityLayers(h)[lo..])[k] == ActivityLayer(h[k.height])[k]
  {
    hide Union, ActivityLayer, Disjoint, Stacked;
    var layers := ActivityLayers(h);
    ActivityLayersDisjoint(h);
    DisjointSlice(layers, lo, |h|);
    assert layers[lo..|h|] == layers[lo..];
    if k in Union(layers[lo..]) {
      SliceHeights(h, lo, |h|);
      var i := LayerOf(layers[lo..], k);
      assert layers[lo..][i] == ActivityLayer(h[lo + i]);
      LayerHeight(h[lo + i], k);
      StackedAt(h, lo + i);
      InUnion(layers[lo..], i, k);
    } else if lo <= k.height < |h| && k in ActivityLayer(h[k.height]) {
      assert layers[lo..][k.height - lo] == ActivityLayer(h[k.height]);
      InUnion(layers[lo..], k.height - lo, k);
    }
  }

  lemma {:induction false} StackedAt(h: seq<Connected>, k: nat)
    requires Stacked(h) && k < |h|
    ensures h[k].block.header.height == k
  {
  }

  /**
   * The address index of a chain, entry by entry. It has one for an address, a height and an id exactly if the height
   * is among those kept and the block there carries a transaction of that id that pays the address or spends its coins.
   * The entry names that block and that transaction's time, what the address received and what it sent.
   */
  lemma {:induction false} EntryExactly(cfg: Config, chain: seq<Block>, k: ActivityKey)
    requires Stacked(History(chain)) && DistinctIds(Steps(chain)) && cfg.addressIndexEnabled
    ensures k in ActivityIndex(cfg, History(chain)) <==>
      && 0 <= k.height < |chain| && (cfg.addressIndexDepth == 0 || |chain| - cfg.addressIndexDepth <= k.height)
      && exists i ::
           && 0 <= i < |chain[k.height].transactions| && chain[k.height].transactions[i].id == k.txId
           && Touched(chain[k.height].transactions[i], SpentIn(History(chain)[k.height].undo, i), k.address)
    ensures k in ActivityIndex(cfg, History(chain)) && 0 <= k.height < |chain| ==>
      forall i :: 0 <= i < |chain[k.height].transactions| && chain[k.height].transactions[i].id == k.txId ==>
        var e, tx := ActivityIndex(cfg, History(chain))[k], chain[k.height].transactions[i];
        && e.blockHash == chain[k.height].hash && e.timestamp == tx.timestamp
        && e.received == ReceivedBy(tx.outputs, k.address)
        && e.sent == SentBy(SpentIn(History(chain)[k.height].undo, i), k.address)
  {
    hide Union, ActivityLayers, Stacked, DistinctIds, Steps, History, Entries, EntriesOfTx, Touched, ReceivedBy, SentBy;
    var h := History(chain);
    var lo := Floor(cfg.addressIndexDepth, |h| - 1);
    LayerCount(h);
    InSlice(h, lo, k);
    if lo <= k.height < |h| {
      var b, undo := chain[k.height], h[k.height].undo;
      StackedAt(h, k.height);
      BlockIdsApart(chain, k.height);
      forall i | 0 <= i < |b.transactions| && b.transactions[i].id == k.txId
        ensures k in Entries(b, undo, |b.transactions|) <==> k in EntriesOfTx(b, undo, i)
        ensures k in EntriesOfTx(b, undo, i) ==> Entries(b, undo, |b.transactions|)[k] == EntriesOfTx(b, undo, i)[k]
      {
        EntryOfBlock(b, undo, |b.transactions|, i, k);
      }
      forall i | 0 <= i < |b.transactions|
        ensures k in EntriesOfTx(b, undo, i) <==>
          b.transactions[i].id == k.txId && Touched(b.transactions[i], SpentIn(undo, i), k.address)
        ensures k in EntriesOfTx(b, undo, i) ==>
          var e := EntriesOfTx(b, undo, i)[k];
          && e.blockHash == b.hash && e.timestamp == b.transactions[i].timestamp
          && e.received == ReceivedBy(b.transactions[i].outputs, k.address)
          && e.sent == SentBy(SpentIn(undo, i), k.address)
      {
        TxEntry(b, undo, i, k);
      }
      if k in Entries(b, undo, |b.transactions|) {
        var i := EntryKeys(b, undo, |b.transactions|, k);
      }
    }
  }

  // ---------------------------------------------------------------- records

  lemma {:induction false} AnchoredIs(b: Block, n: nat, k: AnchorKey)
    requires n <= |b.transactions|
    ensures k in Anchored(b, n) <==>
      k.height == b.header.height
      && exists i :: 0 <= i < n && b.transactions[i].id == k.txId && b.transactions[i].data == Some(k.data)
    ensures k in Anchored(b, n) ==>
      Anchored(b, n)[k].blockHash == b.hash && Anchored(b, n)[k].blockTimestamp == b.header.timestamp
  {
    if n > 0 {
      AnchoredIs(b, n - 1, k);
    }
  }

  /** The record index of a chain: exactly the records its transactions carry, each under its height and id. */
  lemma {:induction false} AnchorsExactly(chain: seq<Block>, k: AnchorKey)
    requires Stacked(History(chain))
    ensures k in Union(AnchorLayers(History(chain))) <==>
      && 0 <= k.height < |chain|
      && exists i ::
           && 0 <= i < |chain[k.height].transactions|
           && chain[k.height].transactions[i].id == k.txId && chain[k.height].transactions[i].data == Some(k.data)
    ensures k in Union(AnchorLayers(History(chain))) ==>
      var e := Union(AnchorLayers(History(chain)))[k];
      0 <= k.height < |chain| && e.blockHash == chain[k.height].hash
      && e.blockTimestamp == chain[k.height].header.timestamp
  {
    hide Union, Disjoint, Stacked, Anchored, History;
    var h := History(chain);
    var layers := AnchorLayers(h);
    AnchorLayersDisjoint(h);
    if k in Union(layers) {
      var j := LayerOf(layers, k);
      StackedAt(h, j);
      AnchoredIs(chain[j], |chain[j].transactions|, k);
      InUnion(layers, j, k);
    }
    if 0 <= k.height < |chain| {
      var j := k.height;
      StackedAt(h, j);
      AnchoredIs(chain[j], |chain[j].transactions|, k);
      if k in layers[j] {
        InUnion(layers, j, k);
      }
    }
  }
}
