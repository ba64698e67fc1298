/**
 The persistent state (src/state/db.ts, src/state/chainState.ts): one map per sublevel, and
 batches of puts and deletes that the database applies in order, all or nothing.
 */
module Store {
  import opened Ledger
  import opened Utxo

  datatype ChainTip = ChainTip(hash: Hash, height: int)

  /** An entry of the header index; `work` counts everything from genesis up to and including `header`. */
  datatype IndexedHeader = IndexedHeader(header: Header, work: int)

  datatype AnchorKey = AnchorKey(data: string, height: int, txId: Hash)

  datatype Anchor = Anchor(blockHash: Hash, blockTimestamp: int)

  datatype ActivityKey = ActivityKey(address: Address, height: int, txId: Hash)

  /** What a transaction on the canonical chain did to the balance of an address. */
  datatype Activity = Activity(blockHash: Hash, timestamp: int, received: int, sent: int)

  datatype State = State(
    blocks: map<Hash, Block>,
    headers: map<Hash, IndexedHeader>,
    utxo: Utxos,
    undo: map<Hash, BlockUndo>,
    heights: map<int, Hash>,
    tip: ChainTip,
    txIndex: map<Hash, Hash>,
    anchors: map<AnchorKey, Anchor>,
    activity: map<ActivityKey, Activity>)

  datatype Op =
    | PutBlock(block: Block)
    | PutHeader(hash: Hash, indexed: IndexedHeader)
    | PutUndo(hash: Hash, undo: BlockUndo)
    | DelUndo(hash: Hash)
    | PutTxLocation(txId: Hash, hash: Hash)
    | DelTxLocation(txId: Hash)
    | PutAnchor(anchorKey: AnchorKey, anchor: Anchor)
    | DelAnchor(anchorKey: AnchorKey)
    | PutActivity(activityKey: ActivityKey, activity: Activity)
    | DelActivity(activityKey: ActivityKey)
    | PutHeight(height: int, hash: Hash)
    | DelHeight(height: int)
    | SetTip(tip: ChainTip)
    | PutUtxo(outpoint: Outpoint, entry: UtxoEntry)
    | DelUtxo(outpoint: Outpoint)

  function ApplyOp(s: State, op: Op): State {
    match op
    case PutBlock(b) => s.(blocks := s.blocks[b.hash := b])
    case PutHeader(h, i) => s.(headers := s.headers[h := i])
    case PutUndo(h, u) => s.(undo := s.undo[h := u])
    case DelUndo(h) => s.(undo := s.undo - {h})
    case PutTxLocation(t, h) => s.(txIndex := s.txIndex[t := h])
    case DelTxLocation(t) => s.(txIndex := s.txIndex - {t})
    case PutAnchor(k, a) => s.(anchors := s.anchors[k := a])
    case DelAnchor(k) => s.(anchors := s.anchors - {k})
    case PutActivity(k, a) => s.(activity := s.activity[k := a])
    case DelActivity(k) => s.(activity := s.activity - {k})
    case PutHeight(n, h) => s.(heights := s.heights[n := h])
    case DelHeight(n) => s.(heights := s.heights - {n})
    case SetTip(t) => s.(tip := t)
    case PutUtxo(o, e) => s.(utxo := s.utxo[o := e])
    case DelUtxo(o) => s.(utxo := s.utxo - {o})
  }

  /** The state after a batch: its ops in order, so the last write to a key wins. */
  function Commit(s: State, ops: seq<Op>): State {
    if |ops| == 0 then s else ApplyOp(Commit(s, ops[..|ops| - 1]), ops[|ops| - 1])
  }

  lemma {:induction false} CommitOne(s: State, ops: seq<Op>, op: Op)
    ensures Commit(s, ops + [op]) == ApplyOp(Commit(s, ops), op)
  {
    assert (ops + [op])[..|ops|] == ops;
  }

  lemma {:induction false} CommitConcat(s: State, a: seq<Op>, b: seq<Op>)
    ensures Commit(s, a + b) == Commit(Commit(s, a), b)
  {
    if |b| == 0 {
      assert a + b == a;
    } else {
      CommitConcat(s, a, b[..|b| - 1]);
      assert (a + b)[..|a + b| - 1] == a + b[..|b| - 1];
    }
  }

  // ---------------------------------------------------------------- per-block index entries

  /** Where a block's first `n` transactions are found. */
  function TxLocations(b: Block, n: nat): (m: map<Hash, Hash>)
    requires n <= |b.transactions|
    ensures m.Keys == TxIds(b, n)
  {
    if n == 0 then map[] else TxLocations(b, n - 1)[b.transactions[n - 1].id := b.hash]
  }

  function TxIds(b: Block, n: nat): set<Hash>
    requires n <= |b.transactions|
  {
    if n == 0 then {} else TxIds(b, n - 1) + {b.transactions[n - 1].id}
  }

  function AnchorKeyOf(b: Block, tx: Transaction): AnchorKey
    requires tx.data.Some?
  {
    AnchorKey(tx.data.value, b.header.height, tx.id)
  }

  /** The records a block's first `n` transactions carry. */
  function Anchored(b: Block, n: nat): (m: map<AnchorKey, Anchor>)
    requires n <= |b.transactions|
    ensures forall k :: k in m ==> k.height == b.header.height
  {
    if n == 0 then map[]
    else if b.transactions[n - 1].data.None? then Anchored(b, n - 1)
    else Anchored(b, n - 1)[AnchorKeyOf(b, b.transactions[n - 1]) := Anchor(b.hash, b.header.timestamp)]
  }

  // ---------------------------------------------------------------- address activity

  datatype Totals = Totals(received: int, sent: int)

  function ReceivedBy(outputs: seq<TxOutput>, a: Address): int {
    if |outputs| == 0 then 0
    else ReceivedBy(outputs[..|outputs| - 1], a)
         + if outputs[|outputs| - 1].address == a then outputs[|outputs| - 1].amount else 0
  }

  function SentBy(spent: seq<SpentEntry>, a: Address): int {
    if |spent| == 0 then 0
    else SentBy(spent[..|spent| - 1], a)
         + if spent[|spent| - 1].entry.address == a then spent[|spent| - 1].entry.amount else 0
  }

  function Receivers(outputs: seq<TxOutput>): set<Address> {
    if |outputs| == 0 then {} else Receivers(outputs[..|outputs| - 1]) + {outputs[|outputs| - 1].address}
  }

  function Senders(spent: seq<SpentEntry>): set<Address> {
    if |spent| == 0 then {} else Senders(spent[..|spent| - 1]) + {spent[|spent| - 1].entry.address}
  }

  /** For every address a transaction touches, how much came in and how much went out. */
  function ActivityOf(outputs: seq<TxOutput>, spent: seq<SpentEntry>): map<Address, Totals> {
    map a | a in Receivers(outputs) + Senders(spent) :: Totals(ReceivedBy(outputs, a), SentBy(spent, a))
  }

  function SpentIn(undo: BlockUndo, i: nat): seq<SpentEntry> {
    if i < |undo| then undo[i].spent else []
  }

  /** The address-index entries of one transaction for the addresses `of`. */
  function EntriesFor(
    b: Block, tx: Transaction, totals: map<Address, Totals>, of: set<Address>): (m: map<ActivityKey, Activity>)
    requires of <= totals.Keys
    ensures forall k :: k in m ==> k.height == b.header.height
  {
    map a | a in of ::
      ActivityKey(a, b.header.height, tx.id) := Activity(b.hash, tx.timestamp, totals[a].received, totals[a].sent)
  }

  function EntriesOfTx(b: Block, undo: BlockUndo, i: nat): (m: map<ActivityKey, Activity>)
    requires i < |b.transactions|
    ensures forall k :: k in m ==> k.height == b.header.height
  {
    var totals := ActivityOf(b.transactions[i].outputs, SpentIn(undo, i));
    EntriesFor(b, b.transactions[i], totals, totals.Keys)
  }

  /** The address-index entries of the first `n` transactions of a block. */
  function Entries(b: Block, undo: BlockUndo, n: nat): (m: map<ActivityKey, Activity>)
    requires n <= |b.transactions|
    ensures forall k :: k in m ==> k.height == b.header.height
  {
    if n == 0 then map[] else Entries(b, undo, n - 1) + EntriesOfTx(b, undo, n - 1)
  }
}
