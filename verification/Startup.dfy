/**
 * Bringing the indexes in line when the node starts (src/node/node.ts:640-652, 707-770,
 * src/state/chainState.ts:198-202): the transaction index is filled from the stored chain, and the address index is
 * built, widened, narrowed or dropped. Undo records may be missing then, so what a transaction spent is looked up
 * through the transaction index. Proved to give the entries the undo records give, and the whole to leave the indexes
 * of the configured depth.
 */
module Startup {

  import opened Ledger
  import opened Utxo
  import opened Store
  import opened Layers
  import opened Chain
  import opened Tree
  import opened UtxoSets
  import opened AddressIndex
  import opened Adoption
  import opened Spelling

  // ---------------------------------------------------------------- which block carries a transaction

  /** Which block carries a transaction of the chain. */
  lemma {:induction false} CarrierOf(chain: seq<Block>, m: nat) returns (k: nat, i: nat)
    requires m < |Steps(chain)|
    ensures k < |chain| && i < |chain[k].transactions| && chain[k].transactions[i] == Steps(chain)[m].tx
  {
    var below, b := chain[..|chain| - 1], chain[|chain| - 1];
    if m < |Steps(below)| {
      k, i := CarrierOf(below, m);
    } else {
      k, i := |chain| - 1, m - |Steps(below)|;
    }
  }

  // ---------------------------------------------------------------- looking an output up

  /** The first transaction with this id, or the length of the list. */
  function FirstWithId(txs: seq<Transaction>, id: Hash): (i: nat)
    ensures i <= |txs| && (i < |txs| ==> txs[i].id == id) && forall j :: 0 <= j < i ==> txs[j].id != id
  {
    if |txs| == 0 then 0
    else
      var i := FirstWithId(txs[..|txs| - 1], id);
      if i < |txs| - 1 || txs[i].id == id then i else |txs|
  }

  function FindOutput(s: State, o: Outpoint): Option<TxOutput> {
    if o.txId !in s.txIndex || s.txIndex[o.txId] !in s.blocks then None
    else
      var txs := s.blocks[s.txIndex[o.txId]].transactions;
      var i := FirstWithId(txs, o.txId);
      if i < |txs| && 0 <= o.index < |txs[i].outputs| then Some(txs[i].outputs[o.index]) else None
  }

  /** The chain is stored and indexed, and no id repeats on it. */
  predicate Located(s: State, chain: seq<Block>) {
    && (forall k :: 0 <= k < |chain| ==> chain[k].hash in s.blocks && s.blocks[chain[k].hash] == chain[k])
    && s.txIndex == Union(TxLayers(History(chain))) && DistinctIds(Steps(chain))
  }

  lemma {:induction false} LocationIs(b: Block, n: nat, i: nat)
    requires i < n <= |b.transactions|
    ensures b.transactions[i].id in TxLocations(b, n) && TxLocations(b, n)[b.transactions[i].id] == b.hash
  {
    if i < n - 1 {
      LocationIs(b, n - 1, i);
    }
  }

  lemma {:induction false} IndexNames(s: State, chain: seq<Block>, k: nat, i: nat)
    requires Located(s, chain) && k < |chain| && i < |chain[k].transactions|
    ensures var id := chain[k].transactions[i].id; id in s.txIndex && s.txIndex[id] == chain[k].hash
  {
    hide Steps, History, TxLocations, DistinctIds, Disjoint;
    var layers, id := TxLayers(History(chain)), chain[k].transactions[i].id;
    TxLayersDisjoint(chain);
    LocationIs(chain[k], |chain[k].transactions|, i);
    assert layers[k] == TxLocations(chain[k], |chain[k].transactions|);
    InUnion(layers, k, id);
  }

  lemma {:induction false} OneCarrier(chain: seq<Block>, k: nat, i: nat, m: nat)
    requires DistinctIds(Steps(chain)) && k < |chain| && i < |chain[k].transactions| && m < |Steps(chain)|
    requires chain[k].transactions[i].id == Steps(chain)[m].tx.id
    ensures chain[k].transactions[i] == Steps(chain)[m].tx
  {
    hide Steps;
    var p := PositionOf(chain, k, i);
    assert p == m;
  }

  /** An output of a transaction on the chain is found through the index. */
  lemma {:induction false} OutputFound(s: State, chain: seq<Block>, m: nat, o: Outpoint)
    requires Located(s, chain) && m < |Steps(chain)| && Steps(chain)[m].tx.Creates(o)
    ensures FindOutput(s, o) == Some(Steps(chain)[m].tx.outputs[o.index])
  {
    hide Steps, History, Union, DistinctIds;
    var k, i := CarrierOf(chain, m);
    IndexNames(s, chain, k, i);
    var j := FirstWithId(chain[k].transactions, o.txId);
    OneCarrier(chain, k, j, m);
  }

  // ---------------------------------------------------------------- what a transaction spent

  /** The entries found for the first `n` inputs; an input without one is passed over. Only owner and worth are used. */
  function Found(s: State, tx: Transaction, n: nat): seq<SpentEntry>
    requires n <= |tx.inputs|
  {
    if n == 0 then []
    else
      var o := tx.inputs[n - 1].outpoint;
      var output := FindOutput(s, o);
      Found(s, tx, n - 1)
      + if output.Some? then [SpentEntry(o, UtxoEntry(output.value.address, output.value.amount, 0, false))] else []
  }

  method FindSpent(s: State, tx: Transaction) returns (spent: seq<SpentEntry>)
    ensures spent == Found(s, tx, |tx.inputs|)
  {
    spent := [];
    for i := 0 to |tx.inputs|
      invariant spent == Found(s, tx, i)
    {
      var output := FindOutput(s, tx.inputs[i].outpoint);
      if output.Some? {
        spent := spent
          + [SpentEntry(tx.inputs[i].outpoint, UtxoEntry(output.value.address, output.value.amount, 0, false))];
      }
    }
  }

  predicate SameWorth(a: seq<SpentEntry>, b: seq<SpentEntry>) {
    |a| == |b| && forall i :: 0 <= i < |a| ==>
      a[i].entry.address == b[i].entry.address && a[i].entry.amount == b[i].entry.amount
  }

  lemma {:induction false} SameSenders(a: seq<SpentEntry>, b: seq<SpentEntry>, owner: Address)
    requires SameWorth(a, b)
    ensures Senders(a) == Senders(b) && SentBy(a, owner) == SentBy(b, owner)
  {
    if |a| > 0 {
      SameSenders(a[..|a| - 1], b[..|b| - 1], owner);
    }
  }

  lemma {:induction false} SameActivity(outputs: seq<TxOutput>, a: seq<SpentEntry>, b: seq<SpentEntry>)
    requires SameWorth(a, b)
    ensures ActivityOf(outputs, a) == ActivityOf(outputs, b)
  {
    SameSenders(a, b, "");
    forall owner ensures SentBy(a, owner) == SentBy(b, owner) {
      SameSenders(a, b, owner);
    }
    hide Senders, SentBy, Receivers, ReceivedBy;
  }

  /** Each input of transaction `p` of the chain is found, with the owner and worth of the entry it consumed. */
  lemma {:induction false} FoundIsSpent(s: State, chain: seq<Block>, p: nat, n: nat)
    requires Located(s, chain) && p < |Steps(chain)|
    requires Funded(After(map[], Steps(chain)[..p]), Steps(chain)[p].tx) && n <= |Steps(chain)[p].tx.inputs|
    ensures SameWorth(Found(s, Steps(chain)[p].tx, n),
                      UndoOf(After(map[], Steps(chain)[..p]), Steps(chain)[p].tx).spent[..n])
  {
    hide Steps, History, Located, FindOutput, After;
    if n > 0 {
      FoundIsSpent(s, chain, p, n - 1);
      var o := Steps(chain)[p].tx.inputs[n - 1].outpoint;
      var m := Provenance(Steps(chain), p, o);
      OutputFound(s, chain, m, o);
    }
  }

  lemma {:induction false} StepOf(chain: seq<Block>, k: nat, i: nat)
    requires k < |chain| && i < |chain[k].transactions|
    ensures var p := |Steps(chain[..k])| + i;
            && p < |Steps(chain)| && Steps(chain)[p].tx == chain[k].transactions[i]
            && After(UtxoOf(chain[..k]), BlockSteps(chain[k])[..i]) == After(map[], Steps(chain)[..p])
  {
    hide After;
    var rest := StepsPrefix(chain, k + 1);
    TakeOneMore(chain, k);
    StepsPush(chain[..k], chain[k]);
    var below, more := Steps(chain[..k]), BlockSteps(chain[k]);
    assert Steps(chain)[..|below| + i] == below + more[..i];
    AfterConcat(map[], below, more[..i]);
  }

  /** What is found for a transaction of the chain is worth what its undo record says it spent. */
  lemma {:induction false} FoundIsRecorded(r: SpendRules, s: State, chain: seq<Block>, k: nat, i: nat)
    requires Located(s, chain) && Replays(r, chain) && k < |chain| && i < |chain[k].transactions|
    requires SpendsNothing(chain[0])
    ensures var tx := chain[k].transactions[i];
            ActivityOf(tx.outputs, Found(s, tx, |tx.inputs|))
            == ActivityOf(tx.outputs, SpentIn(History(chain)[k].undo, i))
  {
    hide Located, Replays, UtxoOf, Steps, Found, ActivityOf, Applies, After, AllFunded, History, UndosOf;
    var tx := chain[k].transactions[i];
    HistoryAt(chain, k);
    if k == 0 {
      NothingFound(s, tx);
    } else {
      TakeOneMore(chain, k);
      ReplaysPrefix(r, chain, k + 1);
      ReplayPush(r, chain[..k], chain[k]);
      RecordPush(r, chain[..k], chain[k]);
      UndosAt(UtxoOf(chain[..k]), BlockSteps(chain[k]), i);
      StepOf(chain, k, i);
      var p := |Steps(chain[..k])| + i;
      FoundIsSpent(s, chain, p, |tx.inputs|);
      var spent := UndoOf(After(map[], Steps(chain)[..p]), tx).spent;
      assert spent[..|tx.inputs|] == spent;
      SameActivity(tx.outputs, Found(s, tx, |tx.inputs|), spent);
    }
  }

  lemma {:induction false} NothingFound(s: State, tx: Transaction)
    requires tx.inputs == []
    ensures Found(s, tx, |tx.inputs|) == []
  {
  }

  // ---------------------------------------------------------------- the store at start

  /** Exact but for undo records and the two indexes, which may be as an older version left them. */
  ghost predicate Startable(cfg: Config, genesis: Hash, s: State) {
    && TreeOk(s.blocks, genesis) && s.tip.hash in s.blocks
    && var chain := CanonicalChain(genesis, s);
    && Replays(cfg.rules, chain) && DistinctIds(Steps(chain)) && 0 < |chain| && SpendsNothing(chain[0])
    && s == StateFor(cfg, s.blocks, s.headers, chain).(undo := s.undo, txIndex := s.txIndex, activity := s.activity)
  }

  /** The canonical block at a height, if it is stored. */
  function StoredAt(s: State, height: int): Option<Block> {
    if height in s.heights && s.heights[height] in s.blocks then Some(s.blocks[s.heights[height]]) else None
  }

  lemma {:induction false} ChainIsStored(cfg: Config, genesis: Hash, s: State)
    requires Startable(cfg, genesis, s)
    ensures var chain := CanonicalChain(genesis, s);
            && s.tip.height == |chain| - 1 && Stacked(History(chain))
            && (forall k :: 0 <= k < |chain| ==> chain[k].hash in s.blocks && s.blocks[chain[k].hash] == chain[k])
            && (forall k :: 0 <= k < |chain| ==> StoredAt(s, k) == Some(chain[k]))
  {
    var chain := CanonicalChain(genesis, s);
    ChainShape(s.blocks, genesis, s.tip.hash);
    HistoryStacked(s.blocks, genesis, s.tip.hash);
    hide History, UtxoOf, Steps, Replays, Union, Stacked;
    forall k | 0 <= k < |chain| ensures chain[k].hash in s.blocks && s.blocks[chain[k].hash] == chain[k] {
      ChainPrefix(s.blocks, genesis, s.tip.hash, k);
    }
  }

  // ---------------------------------------------------------------- the transaction index

  function WithLocations(s: State, m: map<Hash, Hash>): State {
    s.(txIndex := s.txIndex + m)
  }

  /** Appends where a block's transactions are found. */
  method LocationOps(ghost s: State, ops: seq<Op>, b: Block) returns (out: seq<Op>)
    ensures Commit(s, out) == WithLocations(Commit(s, ops), TxLocations(b, |b.transactions|))
  {
    hide Commit;
    out := ops;
    for i := 0 to |b.transactions|
      invariant Commit(s, out) == WithLocations(Commit(s, ops), TxLocations(b, i))
    {
      OneLocation(s, out, Commit(s, ops), b, i);
      out := out + [PutTxLocation(b.transactions[i].id, b.hash)];
    }
  }

  lemma {:induction false} OneLocation(s: State, ops: seq<Op>, base: State, b: Block, i: nat)
    requires i < |b.transactions| && Commit(s, ops) == WithLocations(base, TxLocations(b, i))
    ensures Commit(s, ops + [PutTxLocation(b.transactions[i].id, b.hash)]) == WithLocations(base, TxLocations(b, i + 1))
  {
    hide Commit;
    var id, before := b.transactions[i].id, TxLocations(b, i);
    assert TxLocations(b, i + 1) == before[id := b.hash];
    hide TxLocations;
    CommitOne(s, ops, PutTxLocation(id, b.hash));
    PutLast(base.txIndex, before, id, b.hash);
  }

  lemma {:induction false} PutLast<K, V>(m: map<K, V>, e: map<K, V>, k: K, v: V)
    ensures (m + e)[k := v] == m + e[k := v]
  {
  }

  lemma {:induction false} OneLayerMore<K, V>(m: map<K, V>, layers: seq<map<K, V>>, lo: nat, hi: nat)
    requires lo <= hi < |layers|
    ensures (m + Union(layers[lo..hi])) + layers[hi] == m + Union(layers[lo..hi + 1])
  {
    assert layers[lo..hi + 1] == layers[lo..hi] + [layers[hi]];
    UnionPush(layers[lo..hi], layers[hi]);
  }

  /** Fills the transaction index from the stored chain, unless that was done before. */
  method BackfillTxIndex(ghost cfg: Config, ghost genesis: Hash, db: Db, built: bool)
    requires Startable(cfg, genesis, db.state)
    requires var chain := CanonicalChain(genesis, db.state);
             if built then db.state.txIndex == Union(TxLayers(History(chain)))
             else db.state.txIndex.Keys <= IdsOn(chain)
    modifies db
    ensures db.state
         == old(db.state).(txIndex := Union(TxLayers(History(CanonicalChain(genesis, old(db.state))))))
  {
    hide StateFor, Replays, DistinctIds, SpendsNothing, History, IdsOn, Union, TreeOk, ChainOf, TxLocations, Stacked;
    if built { return; }
    ghost var was, chain := db.state, CanonicalChain(genesis, db.state);
    ghost var layers := TxLayers(History(chain));
    ChainIsStored(cfg, genesis, was);
    var ops: seq<Op> := [];
    NoLayers(was.txIndex, layers);
    for height := 0 to db.state.tip.height + 1
      invariant db.state == was
      invariant Commit(was, ops) == WithLocations(was, Union(layers[0..height]))
    {
      var b := StoredAt(db.state, height);
      assert b == Some(chain[height]);
      OneLayerMore(was.txIndex, layers, 0, height);
      if b.Some? {
        ops := LocationOps(was, ops, b.value);
      }
    }
    assert layers[0..|layers|] == layers;
    TxIndexKeys(chain);
    OverKeys(was.txIndex, Union(layers));
    db.CommitAtomic(ops);
  }

  lemma {:induction false} NoLayers<K, V>(m: map<K, V>, layers: seq<map<K, V>>)
    ensures forall lo :: 0 <= lo <= |layers| ==> m + Union(layers[lo..lo]) == m
  {
  }

  // ---------------------------------------------------------------- filling the address index

  lemma {:induction false} Ready(cfg: Config, genesis: Hash, s: State)
    requires Startable(cfg, genesis, s)
    requires s.txIndex == Union(TxLayers(History(CanonicalChain(genesis, s))))
    ensures var chain := CanonicalChain(genesis, s);
            Located(s, chain) && Replays(cfg.rules, chain) && 0 < |chain| && SpendsNothing(chain[0])
  {
    ChainIsStored(cfg, genesis, s);
    hide History, UtxoOf, Steps, Replays, Union, Stacked, TreeOk, ChainOf;
  }

  /** Appends a block's address entries, with what its transactions spent looked up. */
  method FoundEntryOps(s: State, ops: seq<Op>, b: Block, ghost r: SpendRules, ghost chain: seq<Block>, ghost k: nat)
      returns (out: seq<Op>)
    requires Located(s, chain) && Replays(r, chain) && k < |chain| && SpendsNothing(chain[0]) && b == chain[k]
    ensures Commit(s, out) == WithEntries(Commit(s, ops), ActivityLayer(History(chain)[k]), false)
  {
    hide Located, Replays, Commit, Edited, History, EntriesFor, ActivityOf, SpendsNothing;
    ghost var undo := History(chain)[k].undo;
    out := ops;
    EditedNothing(Commit(s, ops).activity, false);
    for i := 0 to |b.transactions|
      invariant Commit(s, out) == WithEntries(Commit(s, ops), Entries(b, undo, i), false)
    {
      var spent := FindSpent(s, b.transactions[i]);
      FoundIsRecorded(r, s, chain, k, i);
      var totals := AddressActivityOf(b.transactions[i], spent);
      EditedTwice(Commit(s, ops).activity, Entries(b, undo, i), EntriesOfTx(b, undo, i), false);
      out := TxActivityOps(s, out, b, b.transactions[i], totals, false);
    }
  }

  /** Writes the entries of the heights from `from` to `to`. */
  method BackfillAddressIndex(ghost cfg: Config, ghost genesis: Hash, db: Db, from: nat, to: int)
    requires Startable(cfg, genesis, db.state)
    requires db.state.txIndex == Union(TxLayers(History(CanonicalChain(genesis, db.state))))
    requires from <= to + 1 <= |CanonicalChain(genesis, db.state)|
    modifies db
    ensures db.state == old(db.state).(activity := old(db.state.activity)
      + Union(ActivityLayers(History(CanonicalChain(genesis, old(db.state))))[from..to + 1]))
  {
    hide StateFor, DistinctIds, History, Union, TreeOk, ChainOf, Stacked, Located, Replays, SpendsNothing,
      ActivityLayer;
    ghost var was, chain := db.state, CanonicalChain(genesis, db.state);
    ghost var layers := ActivityLayers(History(chain));
    ChainIsStored(cfg, genesis, was);
    Ready(cfg, genesis, was);
    var ops: seq<Op> := [];
    NoLayers(was.activity, layers);
    for height := from to to + 1
      invariant db.state == was
      invariant Commit(was, ops) == was.(activity := was.activity + Union(layers[from..height]))
    {
      var b := StoredAt(db.state, height);
      assert b == Some(chain[height]);
      OneLayerMore(was.activity, layers, from, height);
      if b.Some? {
        ops := FoundEntryOps(db.state, ops, b.value, cfg.rules, chain, height);
      }
    }
    db.CommitAtomic(ops);
  }

  // ---------------------------------------------------------------- reading a height back from a key

  /** How a text compares with a number when read as one, and how ids are written in keys. */
  datatype Reading = Reading(below: (string, int) -> bool, idText: Hash -> string)

  function Padding(n: int): string {
    if n <= 0 then "" else "0" + Padding(n - 1)
  }

  /** A height, padded to ten places. */
  function Padded(n: int): string {
    Padding(10 - |Decimal(n)|) + Decimal(n)
  }

  ghost predicate ReadsHeights(reading: Reading) {
    forall n: nat, floor: int :: reading.below(Padded(n), floor) <==> n < floor
  }

  function KeyText(reading: Reading, k: ActivityKey): string {
    k.address + [':'] + (Padded(k.height) + [':'] + reading.idText(k.txId))
  }

  /** What comes before the first colon, and what comes after it. */
  function UpTo(s: string): string {
    if |s| == 0 || s[0] == ':' then "" else [s[0]] + UpTo(s[1..])
  }

  function Past(s: string): string {
    if |s| == 0 then "" else if s[0] == ':' then s[1..] else Past(s[1..])
  }

  /** The second of the pieces between colons. */
  function SecondPiece(s: string): string {
    UpTo(Past(s))
  }

  lemma {:induction false} UpToOf(a: string, x: string)
    ensures UpTo(a + [':'] + x) == UpTo(a) && (':' !in a ==> UpTo(a) == a)
  {
    var s := a + [':'] + x;
    if |a| > 0 && a[0] != ':' {
      assert s[1..] == a[1..] + [':'] + x;
      UpToOf(a[1..], x);
    }
  }

  lemma {:induction false} PastOf(a: string, x: string)
    ensures Past(a + [':'] + x) == if ':' in a then Past(a) + [':'] + x else x
  {
    var s := a + [':'] + x;
    if |a| == 0 {
      assert s[1..] == x;
    } else {
      assert s[1..] == a[1..] + [':'] + x;
      if a[0] != ':' {
        PastOf(a[1..], x);
        assert ':' in a <==> ':' in a[1..];
      }
    }
  }

  lemma {:induction false} PaddedIsClean(n: int)
    ensures ':' !in Padded(n)
  {
    PaddingIsClean(10 - |Decimal(n)|);
    DecimalIsClean(n);
  }

  lemma {:induction false} PaddingIsClean(n: int)
    ensures ':' !in Padding(n)
  {
    if n > 0 {
      PaddingIsClean(n - 1);
    }
  }

  /** The second piece of a key is the height, unless the address has a colon: then it is a piece of the address. */
  lemma {:induction false} PieceOfKey(reading: Reading, k: ActivityKey)
    ensures SecondPiece(KeyText(reading, k)) == if ':' in k.address then SecondPiece(k.address) else Padded(k.height)
  {
    hide Padded, UpTo, Past;
    var tail := Padded(k.height) + [':'] + reading.idText(k.txId);
    PastOf(k.address, tail);
    PaddedIsClean(k.height);
    UpToOf(Past(k.address), tail);
    UpToOf(Padded(k.height), reading.idText(k.txId));
  }

  /** How ids are written: apart from one another and without colons. */
  ghost predicate WritesIds(reading: Reading) {
    && (forall a, b :: reading.idText(a) == reading.idText(b) ==> a == b)
    && forall a :: ':' !in reading.idText(a)
  }

  /** Keys tell entries apart whatever the addresses are. */
  lemma {:induction false} KeysDiffer(reading: Reading, a: ActivityKey, b: ActivityKey)
    requires ReadsHeights(reading) && WritesIds(reading) && 0 <= a.height && 0 <= b.height
    requires KeyText(reading, a) == KeyText(reading, b)
    ensures a == b
  {
    var x, y := Padded(a.height), Padded(b.height);
    PaddedIsClean(a.height);
    PaddedIsClean(b.height);
    assert reading.below(x, a.height + 1) && reading.below(y, b.height + 1);
    assert !reading.below(x, a.height) && !reading.below(y, b.height);
    assert x == y ==> a.height == b.height;
    hide Padded, ReadsHeights;
    var left, right := a.address + [':'] + x, b.address + [':'] + y;
    assert KeyText(reading, a) == left + [':'] + reading.idText(a.txId);
    assert KeyText(reading, b) == right + [':'] + reading.idText(b.txId);
    CutLast(left, reading.idText(a.txId), right, reading.idText(b.txId), ':');
    CutLast(a.address, x, b.address, y, ':');
  }

  // ---------------------------------------------------------------- sweeping

  predicate IsSwept(reading: Reading, k: ActivityKey, floor: int) {
    reading.below(SecondPiece(KeyText(reading, k)), floor)
  }

  /** What a sweep leaves. */
  function Left(reading: Reading, m: map<ActivityKey, Activity>, floor: int): map<ActivityKey, Activity> {
    map k | k in m && !IsSwept(reading, k, floor) :: m[k]
  }

  /** The entries from a height on. */
  function FromHeight(m: map<ActivityKey, Activity>, floor: int): map<ActivityKey, Activity> {
    map k | k in m && floor <= k.height :: m[k]
  }

  /** Every address with a colon has its second piece on the same side of `floor` as the height. */
  predicate PiecesAgree(reading: Reading, m: map<ActivityKey, Activity>, floor: int) {
    forall k :: k in m && ':' in k.address ==> (reading.below(SecondPiece(k.address), floor) <==> k.height < floor)
  }

  lemma {:induction false} SweptIs(reading: Reading, k: ActivityKey, floor: int)
    requires ReadsHeights(reading) && 0 <= k.height
    ensures IsSwept(reading, k, floor)
       <==> if ':' in k.address then reading.below(SecondPiece(k.address), floor) else k.height < floor
  {
    hide SecondPiece, KeyText, Padded;
    PieceOfKey(reading, k);
  }

  /** Sweeping leaves exactly the entries from the floor on if and only if those pieces agree. */
  lemma {:induction false} SweepExactly(reading: Reading, m: map<ActivityKey, Activity>, floor: int)
    requires ReadsHeights(reading) && forall k :: k in m ==> 0 <= k.height
    ensures Left(reading, m, floor) == FromHeight(m, floor) <==> PiecesAgree(reading, m, floor)
  {
    hide ReadsHeights, IsSwept, SecondPiece;
    forall k | k in m
      ensures IsSwept(reading, k, floor)
         <==> if ':' in k.address then reading.below(SecondPiece(k.address), floor) else k.height < floor
    {
      SweptIs(reading, k, floor);
    }
    if PiecesAgree(reading, m, floor) {
      assert forall k :: k in m ==> (IsSwept(reading, k, floor) <==> k.height < floor);
      assert Left(reading, m, floor) == FromHeight(m, floor);
    } else {
      var k :| k in m && ':' in k.address && !(reading.below(SecondPiece(k.address), floor) <==> k.height < floor);
      assert k in Left(reading, m, floor) <==> k !in FromHeight(m, floor);
    }
  }

  /** So the history of an address such as `x:y` is never swept. */
  lemma {:induction false} ColonStays(reading: Reading, m: map<ActivityKey, Activity>, floor: int, k: ActivityKey)
    requires k in m && k.address == "x:y" && k.height < floor && !reading.below("y", floor)
    ensures k in Left(reading, m, floor) && k !in FromHeight(m, floor)
  {
    var a := k.address;
    assert a[1..] == ":y" && ":y"[1..] == "y" && "y"[1..] == "";
    assert Past(a) == Past(":y") == "y";
    assert UpTo("y") == ['y'] + UpTo("") == "y";
    PieceOfKey(reading, k);
  }

  method AnyKey(s: set<ActivityKey>) returns (k: ActivityKey)
    requires s != {}
    ensures k in s
  {
    k :| k in s;
  }

  lemma {:induction false} CommitDelete(s: State, ops: seq<Op>, m: map<ActivityKey, Activity>, k: ActivityKey)
    requires Commit(s, ops) == s.(activity := m)
    ensures Commit(s, ops + [DelActivity(k)]) == s.(activity := m - {k})
  {
    CommitOne(s, ops, DelActivity(k));
  }

  /** Deletes the entries whose key reads as below `floor`, in batches of at most `limit`. */
  method SweepAddressIndexBelow(reading: Reading, db: Db, floor: int, limit: nat)
    modifies db
    ensures db.state == old(db.state).(activity := Left(reading, old(db.state.activity), floor))
  {
    hide Commit, IsSwept;
    ghost var was := db.state;
    ghost var current := was.activity;
    var rest := db.state.activity.Keys;
    var ops: seq<Op> := [];
    assert Commit(db.state, ops) == was.(activity := current) by { NoOps(db.state); }
    while rest != {}
      invariant rest <= was.activity.Keys
      invariant db.state == was.(activity := db.state.activity) && Commit(db.state, ops) == was.(activity := current)
      invariant current == map k | k in was.activity && (k in rest || !IsSwept(reading, k, floor)) :: was.activity[k]
      decreases rest
    {
      var k := AnyKey(rest);
      rest := rest - {k};
      if IsSwept(reading, k, floor) {
        CommitDelete(db.state, ops, current, k);
        ops := ops + [DelActivity(k)];
        current := current - {k};
        if |ops| >= limit {
          db.CommitAtomic(ops);
          ops := [];
          NoOps(db.state);
        }
      }
    }
    if |ops| > 0 {
      db.CommitAtomic(ops);
    } else {
      NoOps(db.state);
    }
  }

  lemma {:induction false} NoOps(s: State)
    ensures Commit(s, []) == s
  {
  }

  // ---------------------------------------------------------------- from one depth to another

  lemma {:induction false} UnionConcat<K, V>(a: seq<map<K, V>>, b: seq<map<K, V>>)
    ensures Union(a + b) == Union(a) + Union(b)
  {
    if |b| == 0 {
      assert a + b == a;
    } else {
      var init, top := b[..|b| - 1], b[|b| - 1];
      assert a + b == (a + init) + [top];
      UnionConcat(a, init);
      UnionPush(a + init, top);
    }
  }

  lemma {:induction false} SliceHeights(h: seq<Connected>, lo: nat, hi: nat)
    requires Stacked(h) && lo <= hi <= |h|
    ensures forall k :: k in Union(ActivityLayers(h)[lo..hi]) ==> lo <= k.height < hi
  {
    hide Union, ActivityLayer;
    var part := ActivityLayers(h)[lo..hi];
    forall k: ActivityKey | k in Union(part) ensures lo <= k.height < hi {
      var i := LayerOf(part, k);
      assert part[i] == ActivityLayer(h[lo + i]);
      LayerHeight(h[lo + i], k);
    }
  }

  lemma {:induction false} LayerHeight(c: Connected, k: ActivityKey)
    requires k in ActivityLayer(c)
    ensures k.height == c.block.header.height
  {
  }

  lemma {:induction false} Narrowed(h: seq<Connected>, lo: nat, floor: nat)
    requires Stacked(h) && lo <= floor <= |h|
    ensures FromHeight(Union(ActivityLayers(h)[lo..]), floor) == Union(ActivityLayers(h)[floor..])
  {
    hide Union, Stacked, ActivityLayers;
    var layers := ActivityLayers(h);
    assert |layers| == |h| by { LayerCount(h); }
    assert layers[lo..] == layers[lo..floor] + layers[floor..];
    UnionConcat(layers[lo..floor], layers[floor..]);
    SliceHeights(h, lo, floor);
    SliceHeights(h, floor, |h|);
    assert layers[floor..|h|] == layers[floor..];
  }

  lemma {:induction false} LayerCount(h: seq<Connected>)
    ensures |ActivityLayers(h)| == |h|
  {
  }

  lemma {:induction false} Widened(h: seq<Connected>, lo: nat, floor: nat)
    requires Stacked(h) && floor <= lo <= |h|
    ensures Union(ActivityLayers(h)[lo..]) + Union(ActivityLayers(h)[floor..lo]) == Union(ActivityLayers(h)[floor..])
  {
    hide Union, Stacked, ActivityLayers;
    var layers := ActivityLayers(h);
    assert |layers| == |h| by { LayerCount(h); }
    assert layers[floor..] == layers[floor..lo] + layers[lo..];
    UnionConcat(layers[floor..lo], layers[lo..]);
    SliceHeights(h, floor, lo);
    SliceHeights(h, lo, |h|);
    assert layers[lo..|h|] == layers[lo..];
  }

  /** Fewer heights are wanted than are there. */
  predicate Tightens(cfg: Config, built: bool, stored: nat) {
    cfg.addressIndexEnabled && built && cfg.addressIndexDepth != 0
    && (stored == 0 || cfg.addressIndexDepth < stored)
  }

  lemma {:induction false} FloorsAgree(cfg: Config, built: bool, stored: nat, top: int)
    requires -1 <= top
    ensures Tightens(cfg, built, stored) ==> Floor(stored, top) <= Floor(cfg.addressIndexDepth, top) <= top + 1
    ensures built && cfg.addressIndexEnabled && !Tightens(cfg, built, stored) ==>
      Floor(cfg.addressIndexDepth, top) <= Floor(stored, top) <= top + 1
  {
  }

  /** The address index as it was left: of the depth it was last kept with, or none. */
  predicate LeftBehind(s: State, built: bool, stored: nat, h: seq<Connected>) {
    s.activity == if built then Window(stored, ActivityLayers(h)) else map[]
  }

  lemma {:induction false} HeightsInWindow(stored: nat, h: seq<Connected>)
    requires Stacked(h)
    ensures forall k :: k in Window(stored, ActivityLayers(h)) ==> 0 <= k.height
  {
    hide Stacked, ActivityLayers, Union;
    LayerCount(h);
    var lo := Floor(stored, |h| - 1);
    SliceHeights(h, lo, |h|);
    assert ActivityLayers(h)[lo..|h|] == ActivityLayers(h)[lo..];
  }

  /**
   * Brings the address index in line with the configured depth, and says what is recorded about it. The index is then
   * the one of the chain, except when a tighter depth has to sweep an address whose second piece is on the wrong side.
   */
  method ReconcileAddressIndex(
    cfg: Config, ghost genesis: Hash, db: Db, built: bool, stored: nat, reading: Reading, limit: nat)
      returns (nowBuilt: bool, nowStored: nat)
    requires Startable(cfg, genesis, db.state) && ReadsHeights(reading)
    requires db.state.txIndex == Union(TxLayers(History(CanonicalChain(genesis, db.state))))
    requires LeftBehind(db.state, built, stored, History(CanonicalChain(genesis, db.state)))
    modifies db
    ensures db.state == old(db.state).(activity := db.state.activity)
    ensures nowBuilt == cfg.addressIndexEnabled && (nowBuilt ==> nowStored == cfg.addressIndexDepth)
    ensures var h := History(CanonicalChain(genesis, old(db.state)));
            if Tightens(cfg, built, stored) then
              db.state.activity == ActivityIndex(cfg, h)
              <==> PiecesAgree(reading, old(db.state.activity), Floor(cfg.addressIndexDepth, |h| - 1))
            else db.state.activity == ActivityIndex(cfg, h)
  {
    hide StateFor, DistinctIds, History, Union, TreeOk, ChainOf, Stacked, Replays, SpendsNothing, ActivityLayers,
      ReadsHeights, PiecesAgree, Left, FromHeight;
    ghost var was := db.state;
    ghost var h := History(CanonicalChain(genesis, was));
    ChainIsStored(cfg, genesis, was);
    LayerCount(h);
    if !cfg.addressIndexEnabled {
      if built {
        db.state := db.state.(activity := map[]);
      }
      return false, stored;
    }
    var tip := db.state.tip.height;
    var floor := Floor(cfg.addressIndexDepth, tip);
    FloorsAgree(cfg, built, stored, tip);
    if !built {
      BackfillAddressIndex(cfg, genesis, db, floor, tip);
      Nothing(ActivityLayers(h), floor);
    } else if stored != cfg.addressIndexDepth {
      if cfg.addressIndexDepth != 0 && (stored == 0 || cfg.addressIndexDepth < stored) {
        Narrowed(h, Floor(stored, tip), floor);
        HeightsInWindow(stored, h);
        SweepExactly(reading, was.activity, floor);
        SweepAddressIndexBelow(reading, db, floor, limit);
      } else {
        Widened(h, Floor(stored, tip), floor);
        BackfillAddressIndex(cfg, genesis, db, floor, Floor(stored, tip) - 1);
      }
    }
    return true, cfg.addressIndexDepth;
  }

  lemma {:induction false} Nothing<K, V>(layers: seq<map<K, V>>, floor: nat)
    requires floor <= |layers|
    ensures map[] + Union(layers[floor..|layers|]) == Union(layers[floor..])
  {
    assert layers[floor..|layers|] == layers[floor..];
  }

  // ---------------------------------------------------------------- starting

  lemma {:induction false} StillStartable(cfg: Config, genesis: Hash, s: State, t: State)
    requires Startable(cfg, genesis, s) && t == s.(txIndex := t.txIndex)
    ensures Startable(cfg, genesis, t) && CanonicalChain(genesis, t) == CanonicalChain(genesis, s)
  {
    hide TreeOk, ChainOf, Replays, DistinctIds, Steps, History, UtxoOf, Union, SpendsNothing;
  }

  /** What the state for the chain is, seen from a startable one. */
  lemma {:induction false} StartsExact(cfg: Config, genesis: Hash, s: State, t: State)
    requires Startable(cfg, genesis, s) && t == s.(txIndex := t.txIndex, activity := t.activity)
    requires t.txIndex == Union(TxLayers(History(CanonicalChain(genesis, s))))
    ensures var chain := CanonicalChain(genesis, s);
            t == StateFor(cfg, s.blocks, s.headers, chain).(undo := s.undo)
            <==> t.activity == ActivityIndex(cfg, History(chain))
  {
    hide TreeOk, ChainOf, Replays, DistinctIds, Steps, History, UtxoOf, Union, SpendsNothing, ActivityIndex;
  }

  /**
   * Both indexes in turn. Afterwards the store is the one of its canonical chain, undo records aside, if and only if
   * no tighter depth had to sweep past an address whose second piece is on the wrong side.
   */
  method PrepareIndexes(cfg: Config, ghost genesis: Hash, db: Db, txBuilt: bool, built: bool, stored: nat,
                        reading: Reading, limit: nat)
      returns (nowBuilt: bool, nowStored: nat)
    requires Startable(cfg, genesis, db.state) && ReadsHeights(reading)
    requires var chain := CanonicalChain(genesis, db.state);
             if txBuilt then db.state.txIndex == Union(TxLayers(History(chain)))
             else db.state.txIndex.Keys <= IdsOn(chain)
    requires LeftBehind(db.state, built, stored, History(CanonicalChain(genesis, db.state)))
    modifies db
    ensures nowBuilt == cfg.addressIndexEnabled && (nowBuilt ==> nowStored == cfg.addressIndexDepth)
    ensures var s := old(db.state);
            var chain := CanonicalChain(genesis, s);
            db.state == StateFor(cfg, s.blocks, s.headers, chain).(undo := s.undo)
            <==> (Tightens(cfg, built, stored) ==>
                    PiecesAgree(reading, s.activity, Floor(cfg.addressIndexDepth, |chain| - 1)))
  {
    hide StateFor, DistinctIds, History, Union, TreeOk, ChainOf, Replays, SpendsNothing, ActivityLayers, Tightens,
      ReadsHeights, PiecesAgree, ActivityIndex, IdsOn;
    ghost var was := db.state;
    BackfillTxIndex(cfg, genesis, db, txBuilt);
    StillStartable(cfg, genesis, was, db.state);
    nowBuilt, nowStored := ReconcileAddressIndex(cfg, genesis, db, built, stored, reading, limit);
    StartsExact(cfg, genesis, was, db.state);
  }
}
