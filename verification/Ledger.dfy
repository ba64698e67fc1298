/**
 The ledger's value types (src/ledger/types.ts) and the context-free rules every
 transaction must satisfy (src/ledger/transaction.ts).

 Digests, keys and signatures are hexadecimal and only ever compared for equality or, in proof
 of work, read as the number they denote, so they are natural numbers here; `Spelling` writes
 them out. An address is whatever string an output names. The cryptographic primitives are the
 fields of a `Crypto` value that every definition takes as a parameter: whatever is proved holds
 for every choice of them.
 */
module Ledger {

  datatype Option<+T> = None | Some(value: T)

  type Hash = nat
  type Address = string
  type Key = nat
  type Signature = nat

  datatype TxOutput = TxOutput(address: Address, amount: int)

  datatype Outpoint = Outpoint(txId: Hash, index: int)

  datatype TxInput = TxInput(outpoint: Outpoint, signature: Signature, publicKey: Key)

  /** A transaction without its id: what the id is computed from. */
  datatype TxBody = TxBody(
    inputs: seq<TxInput>, outputs: seq<TxOutput>, timestamp: int, fee: int, data: Option<string>)

  /** Everything of a transaction but what it pays to whom. */
  function Shape(body: TxBody): TxBody {
    body.(outputs := [])
  }

  datatype Transaction = Transaction(
    id: Hash, inputs: seq<TxInput>, outputs: seq<TxOutput>, timestamp: int, fee: int, data: Option<string>)
  {
    function Body(): TxBody {
      TxBody(inputs, outputs, timestamp, fee, data)
    }

    predicate IsCoinbase() {
      |inputs| == 0
    }

    /** The outpoints this transaction consumes. */
    function Spends(): set<Outpoint> {
      set i | 0 <= i < |inputs| :: inputs[i].outpoint
    }

    predicate Creates(o: Outpoint) {
      o.txId == id && 0 <= o.index < |outputs|
    }
  }

  /** What every input signs: everything but the signatures and public keys. */
  datatype SigningPayload = SigningPayload(
    outpoints: seq<Outpoint>, outputs: seq<TxOutput>, timestamp: int, fee: int, data: Option<string>)

  datatype Header = Header(
    version: int, previousHash: Hash, merkleRoot: Hash, timestamp: int, difficultyTarget: nat,
    nonce: int, height: int, signer: Option<Key>, signature: Option<Signature>)

  datatype Block = Block(header: Header, transactions: seq<Transaction>, hash: Hash)

  datatype Crypto = Crypto(
    transactionId: TxBody -> Hash,
    deriveAddress: Key -> Address,
    sign: (Key, SigningPayload) -> Signature,
    verify: (Key, SigningPayload, Signature) -> bool,
    blockHash: Header -> Hash,
    verifySeal: (Key, Hash, Signature) -> bool,
    merkleRoot: seq<Hash> -> Hash,
    blockBytes: Block -> nat)

  function Payload(body: TxBody): SigningPayload {
    SigningPayload(Outpoints(body.inputs), body.outputs, body.timestamp, body.fee, body.data)
  }

  function Outpoints(inputs: seq<TxInput>): (os: seq<Outpoint>) {
    seq(|inputs|, i requires 0 <= i < |inputs| => inputs[i].outpoint)
  }

  function TotalOut(outputs: seq<TxOutput>): int {
    if |outputs| == 0 then 0
    else TotalOut(outputs[..|outputs| - 1]) + outputs[|outputs| - 1].amount
  }

  function TotalFees(txs: seq<Transaction>): int {
    if |txs| == 0 then 0 else TotalFees(txs[..|txs| - 1]) + txs[|txs| - 1].fee
  }

  function TransactionIds(txs: seq<Transaction>): seq<Hash> {
    seq(|txs|, i requires 0 <= i < |txs| => txs[i].id)
  }

  // ---------------------------------------------------------------- structure rules

  /** The limit on anchored data, in bytes; the data itself is hexadecimal. */
  const MAX_TX_DATA_BYTES := 80

  predicate IsLowerHex(c: char) {
    '0' <= c <= '9' || 'a' <= c <= 'f'
  }

  predicate WellFormedData(data: string) {
    && 0 < |data| && |data| % 2 == 0
    && (forall i :: 0 <= i < |data| ==> IsLowerHex(data[i]))
    && |data| / 2 <= MAX_TX_DATA_BYTES
  }

  /** Data is one to eighty bytes in lower-case hexadecimal, two digits each. */
  lemma {:induction false} DataExactly(data: string)
    ensures WellFormedData(data) <==>
      && 2 <= |data| <= 160 && (exists n: nat :: |data| == 2 * n)
      && forall i :: 0 <= i < |data| ==> '0' <= data[i] <= '9' || 'a' <= data[i] <= 'f'
  {
    if |data| % 2 == 0 {
      assert |data| == 2 * (|data| / 2);
    }
  }

  predicate DistinctOutpoints(inputs: seq<TxInput>) {
    forall i, j :: 0 <= i < j < |inputs| ==> inputs[i].outpoint != inputs[j].outpoint
  }

  /** The context-free rules: honest id, some output, positive amounts, non-negative fee,
      bounded well-formed data, and no outpoint referenced twice. */
  predicate ValidStructure(c: Crypto, tx: Transaction) {
    && c.transactionId(tx.Body()) == tx.id
    && 0 < |tx.outputs|
    && (forall i :: 0 <= i < |tx.outputs| ==> 0 < tx.outputs[i].amount)
    && 0 <= tx.fee
    && (tx.data.Some? ==> WellFormedData(tx.data.value))
    && DistinctOutpoints(tx.inputs)
  }

  /** The checks in the order the source makes them; a set of seen outpoints finds repeats. */
  method ValidateTransactionStructure(c: Crypto, tx: Transaction) returns (valid: bool)
    ensures valid <==> ValidStructure(c, tx)
  {
    if c.transactionId(tx.Body()) != tx.id { return false; }
    if |tx.outputs| == 0 { return false; }
    for i := 0 to |tx.outputs|
      invariant forall k :: 0 <= k < i ==> 0 < tx.outputs[k].amount
    {
      if tx.outputs[i].amount <= 0 { return false; }
    }
    if tx.fee < 0 { return false; }
    if tx.data.Some? && !WellFormedData(tx.data.value) { return false; }
    var seen: set<Outpoint> := {};
    for i := 0 to |tx.inputs|
      invariant forall k :: 0 <= k < i ==> tx.inputs[k].outpoint in seen
      invariant forall o :: o in seen ==> exists k :: 0 <= k < i && tx.inputs[k].outpoint == o
      invariant DistinctOutpoints(tx.inputs[..i])
    {
      if tx.inputs[i].outpoint in seen { return false; }
      seen := seen + {tx.inputs[i].outpoint};
    }
    assert tx.inputs[..|tx.inputs|] == tx.inputs;
    return true;
  }

  lemma {:induction false} TakeOneMore<T>(s: seq<T>, i: nat)
    requires i < |s|
    ensures s[..i + 1] == s[..i] + [s[i]] && s[..i + 1][..i] == s[..i]
  {
  }

  lemma {:induction false} DropIndex<T>(s: seq<T>, k: nat, i: nat)
    requires k <= |s| && i < |s| - k
    ensures s[k..][i] == s[k + i]
  {
  }

  lemma {:induction false} TotalOutAppend(outputs: seq<TxOutput>, o: TxOutput)
    ensures TotalOut(outputs + [o]) == TotalOut(outputs) + o.amount
  {
    assert (outputs + [o])[..|outputs|] == outputs;
  }

  lemma {:induction false} TotalFeesAppend(txs: seq<Transaction>, tx: Transaction)
    ensures TotalFees(txs + [tx]) == TotalFees(txs) + tx.fee
  {
    assert (txs + [tx])[..|txs|] == txs;
  }
}
