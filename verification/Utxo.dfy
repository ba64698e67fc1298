/**
 What applying and undoing transactions does to a set of unspent outputs
 (src/state/utxoSet.ts), as functions on values: the specification the staged,
 in-place `UtxoSet` is proved against.
 */
module Utxo {
  import opened Ledger

  datatype UtxoEntry = UtxoEntry(address: Address, amount: int, blockHeight: int, isCoinbase: bool)

  type Utxos = map<Outpoint, UtxoEntry>

  datatype SpentEntry = SpentEntry(outpoint: Outpoint, entry: UtxoEntry)

  /** The record kept for undoing: the entries consumed and the outpoints made. */
  datatype TxUndo = TxUndo(spent: seq<SpentEntry>, created: seq<Outpoint>)

  type BlockUndo = seq<TxUndo>

  /** The rules a transaction's validity depends on. */
  datatype SpendRules = SpendRules(crypto: Crypto, coinbaseMaturity: int)

  /** A transaction together with the height of the block that carries it. */
  datatype Placed = Placed(tx: Transaction, height: int)

  // ---------------------------------------------------------------- one transaction

  function TotalIn(u: Utxos, inputs: seq<TxInput>): int
    requires forall i :: 0 <= i < |inputs| ==> inputs[i].outpoint in u
  {
    if |inputs| == 0 then 0
    else TotalIn(u, inputs[..|inputs| - 1]) + u[inputs[|inputs| - 1].outpoint].amount
  }

  predicate Mature(r: SpendRules, e: UtxoEntry, spendingHeight: int) {
    e.isCoinbase ==> e.blockHeight + r.coinbaseMaturity <= spendingHeight
  }

  predicate InputAllowed(r: SpendRules, u: Utxos, payload: SigningPayload, input: TxInput, height: int) {
    && input.outpoint in u
    && Mature(r, u[input.outpoint], height)
    && r.crypto.deriveAddress(input.publicKey) == u[input.outpoint].address
    && r.crypto.verify(input.publicKey, payload, input.signature)
  }

  predicate ValidTx(r: SpendRules, u: Utxos, tx: Transaction, height: int) {
    && ValidStructure(r.crypto, tx)
    && (tx.IsCoinbase() ||
        ((forall i :: 0 <= i < |tx.inputs| ==> InputAllowed(r, u, Payload(tx.Body()), tx.inputs[i], height))
         && TotalOut(tx.outputs) + tx.fee <= TotalIn(u, tx.inputs)))
  }

  /** Every outpoint the transaction spends is unspent in `u`. */
  predicate Funded(u: Utxos, tx: Transaction) {
    forall i :: 0 <= i < |tx.inputs| ==> tx.inputs[i].outpoint in u
  }

  function CreatedEntries(tx: Transaction, height: int): Utxos {
    map i | 0 <= i < |tx.outputs| ::
      Outpoint(tx.id, i) := UtxoEntry(tx.outputs[i].address, tx.outputs[i].amount, height, tx.IsCoinbase())
  }

  function ApplyTx(u: Utxos, tx: Transaction, height: int): Utxos {
    (u - tx.Spends()) + CreatedEntries(tx, height)
  }

  function UndoOf(u: Utxos, tx: Transaction): TxUndo
    requires Funded(u, tx)
  {
    TxUndo(
      seq(|tx.inputs|, i requires 0 <= i < |tx.inputs| => SpentEntry(tx.inputs[i].outpoint, u[tx.inputs[i].outpoint])),
      seq(|tx.outputs|, i requires 0 <= i < |tx.outputs| => Outpoint(tx.id, i)))
  }

  /** The entries a list of spends puts back; a later one wins. */
  function Restored(spent: seq<SpentEntry>): Utxos {
    if |spent| == 0 then map[]
    else Restored(spent[..|spent| - 1])[spent[|spent| - 1].outpoint := spent[|spent| - 1].entry]
  }

  function UndoTx(u: Utxos, undo: TxUndo): Utxos {
    (u - (set o | o in undo.created)) + Restored(undo.spent)
  }

  /** What `u` says about `o`. */
  function Look(u: Utxos, o: Outpoint): Option<UtxoEntry> {
    if o in u then Some(u[o]) else None
  }

  lemma {:induction false} SameLooks(u: Utxos, v: Utxos)
    requires forall o :: Look(u, o) == Look(v, o)
    ensures u == v
  {
    forall o ensures o in u <==> o in v {
      assert Look(u, o) == Look(v, o);
    }
    forall o | o in u ensures u[o] == v[o] {
      assert Look(u, o) == Look(v, o);
    }
  }

  lemma {:induction false} RestoredOf(u: Utxos, spent: seq<SpentEntry>)
    requires forall i :: 0 <= i < |spent| ==> spent[i].outpoint in u && spent[i].entry == u[spent[i].outpoint]
    ensures Restored(spent).Keys == set i | 0 <= i < |spent| :: spent[i].outpoint
    ensures forall o :: o in Restored(spent) ==> o in u && Restored(spent)[o] == u[o]
  {
    if |spent| > 0 {
      var init := spent[..|spent| - 1];
      RestoredOf(u, init);
      assert (set i | 0 <= i < |spent| :: spent[i].outpoint)
          == (set i | 0 <= i < |init| :: init[i].outpoint) + {spent[|spent| - 1].outpoint};
    }
  }

  lemma {:induction false} ApplyTxAt(u: Utxos, tx: Transaction, height: int, o: Outpoint)
    ensures tx.Creates(o) ==>
      Look(ApplyTx(u, tx, height), o) ==
      Some(UtxoEntry(tx.outputs[o.index].address, tx.outputs[o.index].amount, height, tx.IsCoinbase()))
    ensures !tx.Creates(o) && o in tx.Spends() ==> Look(ApplyTx(u, tx, height), o) == None
    ensures !tx.Creates(o) && o !in tx.Spends() ==> Look(ApplyTx(u, tx, height), o) == Look(u, o)
  {
    var created := CreatedEntries(tx, height);
    assert tx.Creates(o) <==> o in created by {
      if tx.Creates(o) {
        assert o == Outpoint(tx.id, o.index);
      }
    }
  }

  /** What undoing one transaction makes of `o`: restored, removed, or left alone. */
  function UndoneLook(undo: TxUndo, before: Option<UtxoEntry>, o: Outpoint): Option<UtxoEntry> {
    if o in Restored(undo.spent) then Some(Restored(undo.spent)[o])
    else if o in undo.created then None
    else before
  }

  lemma {:induction false} UndoTxLook(v: Utxos, undo: TxUndo, o: Outpoint)
    ensures Look(UndoTx(v, undo), o) == UndoneLook(undo, Look(v, o), o)
  {
  }

  /** A transaction's undo record restores what it spent and removes what else it created. */
  lemma {:induction false} RecordLook(u: Utxos, tx: Transaction, before: Option<UtxoEntry>, o: Outpoint)
    requires Funded(u, tx)
    ensures UndoneLook(UndoOf(u, tx), before, o)
         == if o in tx.Spends() then Look(u, o) else if tx.Creates(o) then None else before
  {
    var undo := UndoOf(u, tx);
    RestoredOf(u, undo.spent);
    assert Restored(undo.spent).Keys == tx.Spends() by {
      assert forall i :: 0 <= i < |tx.inputs| ==> undo.spent[i].outpoint == tx.inputs[i].outpoint;
    }
    assert o in undo.created <==> tx.Creates(o) by {
      if tx.Creates(o) {
        assert undo.created[o.index] == o;
      }
    }
  }

  /** Undo restores the old set exactly when no created outpoint overwrote one the
      transaction did not itself spend. */
  lemma {:induction false} UndoReversesApply(u: Utxos, tx: Transaction, height: int)
    requires Funded(u, tx)
    ensures UndoTx(ApplyTx(u, tx, height), UndoOf(u, tx)) == u
      <==> forall o :: tx.Creates(o) && o in u ==> o in tx.Spends()
  {
    var v := ApplyTx(u, tx, height);
    var w := UndoTx(v, UndoOf(u, tx));
    forall o ensures Look(w, o) == Look(u, o) <==> !(tx.Creates(o) && o in u && o !in tx.Spends()) {
      ApplyTxAt(u, tx, height, o);
      UndoTxLook(v, UndoOf(u, tx), o);
      RecordLook(u, tx, Look(v, o), o);
    }
    if forall o :: tx.Creates(o) && o in u ==> o in tx.Spends() {
      forall o ensures Look(w, o) == Look(u, o) {
      }
      SameLooks(w, u);
    }
  }

  // ---------------------------------------------------------------- runs of transactions

  /** The set after a run of transactions, whether or not each is valid. */
  function After(u: Utxos, steps: seq<Placed>): Utxos {
    if |steps| == 0 then u
    else ApplyTx(After(u, steps[..|steps| - 1]), steps[|steps| - 1].tx, steps[|steps| - 1].height)
  }

  /** Every transaction of the run is valid against the set the ones before it left. */
  predicate Applies(r: SpendRules, u: Utxos, steps: seq<Placed>) {
    |steps| == 0 ||
    (Applies(r, u, steps[..|steps| - 1])
     && ValidTx(r, After(u, steps[..|steps| - 1]), steps[|steps| - 1].tx, steps[|steps| - 1].height))
  }

  predicate AllFunded(u: Utxos, steps: seq<Placed>) {
    |steps| == 0 ||
    (AllFunded(u, steps[..|steps| - 1]) && Funded(After(u, steps[..|steps| - 1]), steps[|steps| - 1].tx))
  }

  /** The undo records of a run, in order. */
  function UndosOf(u: Utxos, steps: seq<Placed>): (undos: BlockUndo)
    requires AllFunded(u, steps)
    ensures |undos| == |steps|
  {
    if |steps| == 0 then []
    else UndosOf(u, steps[..|steps| - 1]) + [UndoOf(After(u, steps[..|steps| - 1]), steps[|steps| - 1].tx)]
  }

  /** Undoes a run, last transaction first. */
  function UndoAll(u: Utxos, undos: BlockUndo): Utxos
    decreases |undos|
  {
    if |undos| == 0 then u
    else UndoAll(UndoTx(u, undos[|undos| - 1]), undos[..|undos| - 1])
  }

  lemma {:induction false} ValidIsFunded(r: SpendRules, u: Utxos, tx: Transaction, height: int)
    requires ValidTx(r, u, tx, height)
    ensures Funded(u, tx)
  {
    if !tx.IsCoinbase() {
      forall i | 0 <= i < |tx.inputs| ensures tx.inputs[i].outpoint in u {
        assert InputAllowed(r, u, Payload(tx.Body()), tx.inputs[i], height);
      }
    }
  }

  lemma {:induction false} AppliesAt(r: SpendRules, u: Utxos, steps: seq<Placed>, k: int)
    requires Applies(r, u, steps) && 0 <= k < |steps|
    ensures Applies(r, u, steps[..k]) && ValidTx(r, After(u, steps[..k]), steps[k].tx, steps[k].height)
  {
    if k < |steps| - 1 {
      AppliesAt(r, u, steps[..|steps| - 1], k);
      assert steps[..|steps| - 1][..k] == steps[..k];
    }
  }

  lemma {:induction false} AppliesIsFunded(r: SpendRules, u: Utxos, steps: seq<Placed>)
    requires Applies(r, u, steps)
    ensures AllFunded(u, steps)
  {
    if |steps| > 0 {
      var n := |steps| - 1;
      AppliesIsFunded(r, u, steps[..n]);
      ValidIsFunded(r, After(u, steps[..n]), steps[n].tx, steps[n].height);
    }
  }

  lemma {:induction false} AfterConcat(u: Utxos, a: seq<Placed>, b: seq<Placed>)
    ensures After(u, a + b) == After(After(u, a), b)
  {
    if |b| == 0 {
      assert a + b == a;
    } else {
      AfterConcat(u, a, b[..|b| - 1]);
      assert (a + b)[..|a + b| - 1] == a + b[..|b| - 1];
    }
  }

  lemma {:induction false} AppliesSnoc(r: SpendRules, u: Utxos, a: seq<Placed>, p: Placed)
    ensures Applies(r, u, a + [p]) <==> Applies(r, u, a) && ValidTx(r, After(u, a), p.tx, p.height)
  {
    assert (a + [p])[..|a|] == a;
  }

  lemma {:induction false} AppliesConcat(r: SpendRules, u: Utxos, a: seq<Placed>, b: seq<Placed>)
    ensures Applies(r, u, a + b) <==> Applies(r, u, a) && Applies(r, After(u, a), b)
  {
    if |b| == 0 {
      assert a + b == a;
    } else {
      var init, last := b[..|b| - 1], b[|b| - 1];
      AppliesConcat(r, u, a, init);
      AfterConcat(u, a, init);
      assert (a + b)[..|a + b| - 1] == a + init;
    }
  }

  // ---------------------------------------------------------------- undoing a whole run

  predicate Touches(p: Placed, o: Outpoint) {
    p.tx.Creates(o) || o in p.tx.Spends()
  }

  /** Transaction `k` is the first of the run to spend or create `o`. */
  predicate FirstTouch(steps: seq<Placed>, k: int, o: Outpoint) {
    && 0 <= k < |steps| && Touches(steps[k], o)
    && forall j :: 0 <= j < k ==> !Touches(steps[j], o)
  }

  /** `o` is unspent in `u`, yet the run creates it again before spending it. */
  predicate ClobberedAt(u: Utxos, steps: seq<Placed>, k: int, o: Outpoint) {
    FirstTouch(steps, k, o) && o in u && o !in steps[k].tx.Spends()
  }

  ghost predicate Clobbers(u: Utxos, steps: seq<Placed>) {
    exists k, o :: ClobberedAt(u, steps, k, o)
  }

  lemma {:induction false} UntouchedAfter(u: Utxos, steps: seq<Placed>, n: nat, o: Outpoint)
    requires n <= |steps| && forall j :: 0 <= j < n ==> !Touches(steps[j], o)
    ensures Look(After(u, steps[..n]), o) == Look(u, o)
  {
    if n > 0 {
      UntouchedAfter(u, steps, n - 1, o);
      TakeOneMore(steps, n - 1);
      ApplyTxAt(After(u, steps[..n - 1]), steps[n - 1].tx, steps[n - 1].height, o);
    }
  }

  lemma {:induction false} UndosPush(u: Utxos, pre: seq<Placed>, p: Placed)
    requires AllFunded(u, pre) && Funded(After(u, pre), p.tx)
    ensures AllFunded(u, pre + [p])
    ensures UndosOf(u, pre + [p]) == UndosOf(u, pre) + [UndoOf(After(u, pre), p.tx)]
  {
    assert (pre + [p])[..|pre|] == pre;
  }

  /** The undo record of a run's transaction `k`. */
  lemma {:induction false} UndosAt(u: Utxos, steps: seq<Placed>, k: int)
    requires AllFunded(u, steps) && 0 <= k < |steps|
    ensures Funded(After(u, steps[..k]), steps[k].tx)
    ensures UndosOf(u, steps)[k] == UndoOf(After(u, steps[..k]), steps[k].tx)
  {
    if k < |steps| - 1 {
      UndosAt(u, steps[..|steps| - 1], k);
      assert steps[..|steps| - 1][..k] == steps[..k];
    }
  }

  /** What undoing a list of records, last first, makes of `o`. */
  function UndoneAll(undos: BlockUndo, before: Option<UtxoEntry>, o: Outpoint): Option<UtxoEntry>
    decreases |undos|
  {
    if |undos| == 0 then before
    else UndoneAll(undos[..|undos| - 1], UndoneLook(undos[|undos| - 1], before, o), o)
  }

  lemma {:induction false} UndoAllLook(v: Utxos, undos: BlockUndo, o: Outpoint)
    ensures Look(UndoAll(v, undos), o) == UndoneAll(undos, Look(v, o), o)
    decreases |undos|
  {
    if |undos| > 0 {
      UndoTxLook(v, undos[|undos| - 1], o);
      UndoAllLook(UndoTx(v, undos[|undos| - 1]), undos[..|undos| - 1], o);
    }
  }

  /** The first record settles `o` unless it leaves it alone. */
  lemma {:induction false} UndoneAllFirst(undos: BlockUndo, before: Option<UtxoEntry>, o: Outpoint)
    requires |undos| > 0
    ensures UndoneAll(undos, before, o) == UndoneLook(undos[0], UndoneAll(undos[1..], before, o), o)
    decreases |undos|
  {
    var n := |undos| - 1;
    if n > 0 {
      UndoneAllFirst(undos[..n], UndoneLook(undos[n], before, o), o);
      assert undos[..n][1..] == undos[1..][..n - 1];
    }
  }

  lemma {:induction false} UndoneStep(u: Utxos, steps: seq<Placed>, from: nat, before: Option<UtxoEntry>, o: Outpoint)
    requires AllFunded(u, steps) && from < |steps|
    ensures UndoneAll(UndosOf(u, steps)[from..], before, o)
         == if o in steps[from].tx.Spends() then Look(After(u, steps[..from]), o)
            else if steps[from].tx.Creates(o) then None
            else UndoneAll(UndosOf(u, steps)[from + 1..], before, o)
  {
    var undos := UndosOf(u, steps);
    UndosAt(u, steps, from);
    assert undos[from..][0] == undos[from] && undos[from..][1..] == undos[from + 1..];
    UndoneAllFirst(undos[from..], before, o);
    RecordLook(After(u, steps[..from]), steps[from].tx, UndoneAll(undos[from + 1..], before, o), o);
  }

  /** Undoing a run leaves an outpoint alone that the run never touched. */
  lemma {:induction false} UndoneUntouched(
    u: Utxos, steps: seq<Placed>, from: nat, before: Option<UtxoEntry>, o: Outpoint)
    requires AllFunded(u, steps) && from <= |steps|
    requires forall j :: 0 <= j < |steps| ==> !Touches(steps[j], o)
    ensures UndoneAll(UndosOf(u, steps)[from..], before, o) == before
    decreases |steps| - from
  {
    if from < |steps| {
      assert !Touches(steps[from], o);
      UndoneStep(u, steps, from, before, o);
      UndoneUntouched(u, steps, from + 1, before, o);
    }
  }

  /** Undoing a run gives an outpoint the value it had in `u` if the run first touched it by
      spending it, and removes it if the run first touched it by creating it. */
  lemma {:induction false} UndoneTouched(
    u: Utxos, steps: seq<Placed>, k: nat, from: nat, before: Option<UtxoEntry>, o: Outpoint)
    requires AllFunded(u, steps) && FirstTouch(steps, k, o) && from <= k
    ensures UndoneAll(UndosOf(u, steps)[from..], before, o) == if o in steps[k].tx.Spends() then Look(u, o) else None
    decreases k - from
  {
    UndoneStep(u, steps, from, before, o);
    if from < k {
      assert !Touches(steps[from], o);
      UndoneTouched(u, steps, k, from + 1, before, o);
    } else {
      UntouchedAfter(u, steps, k, o);
    }
  }

  lemma {:induction false} FirstTouchExists(steps: seq<Placed>, o: Outpoint, j: int) returns (k: int)
    requires 0 <= j < |steps| && Touches(steps[j], o)
    ensures FirstTouch(steps, k, o)
    decreases j
  {
    if i :| 0 <= i < j && Touches(steps[i], o) {
      k := FirstTouchExists(steps, o, i);
    } else {
      k := j;
    }
  }

  /** Undoing a run, last transaction first, restores the set it started from exactly when
      the run clobbers no outpoint of that set. */
  lemma {:induction false} UndoAllReverses(u: Utxos, steps: seq<Placed>)
    requires AllFunded(u, steps)
    ensures UndoAll(After(u, steps), UndosOf(u, steps)) == u <==> !Clobbers(u, steps)
  {
    var v, undos := After(u, steps), UndosOf(u, steps);
    var w := UndoAll(v, undos);
    assert undos[0..] == undos;
    if Clobbers(u, steps) {
      var k, o :| ClobberedAt(u, steps, k, o);
      UndoAllLook(v, undos, o);
      UndoneTouched(u, steps, k, 0, Look(v, o), o);
    } else {
      forall o ensures Look(w, o) == Look(u, o) {
        UndoAllLook(v, undos, o);
        if j :| 0 <= j < |steps| && Touches(steps[j], o) {
          var k := FirstTouchExists(steps, o, j);
          assert !ClobberedAt(u, steps, k, o);
          UndoneTouched(u, steps, k, 0, Look(v, o), o);
        } else {
          UndoneUntouched(u, steps, 0, Look(v, o), o);
          UntouchedAfter(u, steps, |steps|, o);
          assert steps[..|steps|] == steps;
        }
      }
      SameLooks(w, u);
    }
  }

  // ---------------------------------------------------------------- when nothing is clobbered

  predicate DistinctIds(steps: seq<Placed>) {
    forall i, j :: 0 <= i < j < |steps| ==> steps[i].tx.id != steps[j].tx.id
  }

  predicate DistinctCoinbases(steps: seq<Placed>) {
    forall i, j :: 0 <= i < j < |steps| && steps[i].tx.IsCoinbase() && steps[j].tx.IsCoinbase()
      ==> steps[i].tx.id != steps[j].tx.id
  }

  /** Transactions of the run that share an id spend the same. */
  predicate IdsBindInputs(c: Crypto, steps: seq<Placed>) {
    forall i, j :: 0 <= i < |steps| && 0 <= j < |steps| &&
      c.transactionId(steps[i].tx.Body()) == c.transactionId(steps[j].tx.Body())
      ==> steps[i].tx.inputs == steps[j].tx.inputs
  }

  /** An outpoint the first `n` transactions of a run made unspent was created by one of them. */
  lemma {:induction false} CreatorOf(u: Utxos, steps: seq<Placed>, n: nat, o: Outpoint) returns (m: int)
    requires n <= |steps| && o !in u && o in After(u, steps[..n])
    ensures 0 <= m < n && steps[m].tx.Creates(o)
  {
    assert n > 0;
    assert steps[..n][..n - 1] == steps[..n - 1];
    ApplyTxAt(After(u, steps[..n - 1]), steps[n - 1].tx, steps[n - 1].height, o);
    if steps[n - 1].tx.Creates(o) {
      m := n - 1;
    } else {
      m := CreatorOf(u, steps, n - 1, o);
    }
  }

  /** An outpoint spent at `j` and unspent after the run was created at `j` or later. */
  lemma {:induction false} RecreatedSince(u: Utxos, steps: seq<Placed>, j: int, o: Outpoint) returns (m: int)
    requires 0 <= j < |steps| && o in steps[j].tx.Spends() && o in After(u, steps)
    ensures j <= m < |steps| && steps[m].tx.Creates(o)
  {
    ApplyTxAt(After(u, steps[..j]), steps[j].tx, steps[j].height, o);
    if steps[j].tx.Creates(o) {
      m := j;
    } else {
      var head, tail := steps[..j + 1], steps[j + 1..];
      assert head[..j] == steps[..j];
      assert steps == head + tail;
      AfterConcat(u, head, tail);
      assert tail[..|tail|] == tail;
      m := CreatorOf(After(u, head), tail, |tail|, o);
      m := m + j + 1;
    }
  }

  /** On a branch whose ids are distinct, a spent outpoint never becomes unspent again. */
  lemma {:induction false} SpentStaysSpent(steps: seq<Placed>, j: int, o: Outpoint)
    requires DistinctIds(steps)
    requires 0 <= j < |steps| && o in steps[j].tx.Spends() && o in After(map[], steps[..j])
    ensures o !in After(map[], steps)
  {
    if o in After(map[], steps) {
      var first := CreatorOf(map[], steps, j, o);
      var second := RecreatedSince(map[], steps, j, o);
      assert false;
    }
  }

  /** Two equal ids in a valid run would need two equal coinbase ids before them. */
  lemma {:induction false} CoinbasesDecideIds(r: SpendRules, steps: seq<Placed>)
    requires Applies(r, map[], steps)
    requires DistinctCoinbases(steps) && IdsBindInputs(r.crypto, steps)
    ensures DistinctIds(steps)
  {
    if |steps| > 0 {
      var n := |steps| - 1;
      var init := steps[..n];
      CoinbasesDecideIds(r, init);
      forall j | 0 <= j < n ensures steps[j].tx.id != steps[n].tx.id {
        if steps[j].tx.id == steps[n].tx.id {
          NoRepeat(r, steps, j);
        }
      }
      forall i, j | 0 <= i < j < |steps| ensures steps[i].tx.id != steps[j].tx.id {
        if j < n {
          assert init[i] == steps[i] && init[j] == steps[j];
        }
      }
    }
  }

  /** A transaction with the inputs of an earlier one would have to spend again what that one spent. */
  lemma {:induction false} NoRespend(r: SpendRules, steps: seq<Placed>, j: int, tx: Transaction, height: int)
    requires Applies(r, map[], steps) && DistinctIds(steps) && ValidTx(r, After(map[], steps), tx, height)
    requires 0 <= j < |steps| && steps[j].tx.inputs == tx.inputs
    ensures tx.IsCoinbase()
  {
    hide Applies, After, ValidTx, DistinctIds;
    AppliesAt(r, map[], steps, j);
    if !tx.IsCoinbase() {
      ValidIsFunded(r, After(map[], steps[..j]), steps[j].tx, steps[j].height);
      ValidIsFunded(r, After(map[], steps), tx, height);
      var o := tx.inputs[0].outpoint;
      assert steps[j].tx.inputs[0].outpoint == o;
      SpentStaysSpent(steps, j, o);
    }
  }

  lemma {:induction false} NoRepeat(r: SpendRules, steps: seq<Placed>, j: int)
    requires Applies(r, map[], steps)
    requires DistinctCoinbases(steps) && IdsBindInputs(r.crypto, steps)
    requires |steps| > 0 && DistinctIds(steps[..|steps| - 1])
    requires 0 <= j < |steps| - 1
    ensures steps[j].tx.id != steps[|steps| - 1].tx.id
  {
    var n := |steps| - 1;
    var init := steps[..n];
    if steps[j].tx.id == steps[n].tx.id {
      AppliesAt(r, map[], steps, j);
      AppliesAt(r, map[], steps, n);
      HonestId(r, After(map[], steps[..j]), steps[j]);
      HonestId(r, After(map[], init), steps[n]);
      hide Applies, After, ValidTx, DistinctIds;
      assert init[j] == steps[j];
      NoRespend(r, init, j, steps[n].tx, steps[n].height);
    }
  }

  lemma {:induction false} HonestId(r: SpendRules, u: Utxos, p: Placed)
    requires ValidTx(r, u, p.tx, p.height)
    ensures r.crypto.transactionId(p.tx.Body()) == p.tx.id
  {
  }

  /** On a branch whose ids are distinct, undoing any suffix restores the set it started from. */
  lemma {:induction false} DistinctIdsNeverClobber(prefix: seq<Placed>, suffix: seq<Placed>)
    requires DistinctIds(prefix + suffix)
    ensures !Clobbers(After(map[], prefix), suffix)
  {
    var all := prefix + suffix;
    assert all[..|prefix|] == prefix;
    forall k, o ensures !ClobberedAt(After(map[], prefix), suffix, k, o) {
      if ClobberedAt(After(map[], prefix), suffix, k, o) {
        assert all[|prefix| + k] == suffix[k];
        var m := CreatorOf(map[], all, |prefix|, o);
        assert false;
      }
    }
  }

  /** A branch that carries one coinbase twice: undoing the second occurrence does not restore
      the set below it, so the condition on coinbases cannot be dropped. */
  lemma {:induction false} RepeatedCoinbaseClobbers(r: SpendRules, cb: Transaction, low: int, high: int)
    requires cb.IsCoinbase() && ValidStructure(r.crypto, cb)
    ensures Applies(r, map[], [Placed(cb, low)] + [Placed(cb, high)])
    ensures Clobbers(After(map[], [Placed(cb, low)]), [Placed(cb, high)])
    ensures AllFunded(After(map[], [Placed(cb, low)]), [Placed(cb, high)])
      && UndoAll(After(map[], [Placed(cb, low)] + [Placed(cb, high)]),
                 UndosOf(After(map[], [Placed(cb, low)]), [Placed(cb, high)]))
         != After(map[], [Placed(cb, low)])
  {
    var a, b := [Placed(cb, low)], [Placed(cb, high)];
    var u := After(map[], a);
    CoinbaseApplies(r, map[], cb, low);
    CoinbaseApplies(r, u, cb, high);
    AppliesConcat(r, map[], a, b);
    AfterConcat(map[], a, b);
    var o := Outpoint(cb.id, 0);
    ApplyTxAt(map[], cb, low, o);
    assert ClobberedAt(u, b, 0, o);
    UndoAllReverses(u, b);
  }

  lemma {:induction false} CoinbaseApplies(r: SpendRules, u: Utxos, cb: Transaction, height: int)
    requires cb.IsCoinbase() && ValidStructure(r.crypto, cb)
    ensures Applies(r, u, [Placed(cb, height)]) && AllFunded(u, [Placed(cb, height)])
    ensures After(u, [Placed(cb, height)]) == ApplyTx(u, cb, height)
  {
    assert [Placed(cb, height)][..0] == [];
    AppliesIsFunded(r, u, [Placed(cb, height)]);
  }

  // ---------------------------------------------------------------- where an unspent entry comes from

  predicate SaysSame(e: UtxoEntry, tx: Transaction, index: int) {
    0 <= index < |tx.outputs| && e.address == tx.outputs[index].address && e.amount == tx.outputs[index].amount
  }

  /** Whatever is unspent after some transactions has the owner and worth that one of them gave it. */
  lemma {:induction false} Provenance(steps: seq<Placed>, n: nat, o: Outpoint) returns (m: nat)
    requires n <= |steps| && o in After(map[], steps[..n])
    ensures m < n && steps[m].tx.id == o.txId && SaysSame(After(map[], steps[..n])[o], steps[m].tx, o.index)
  {
    hide ApplyTx;
    assert n > 0;
    TakeOneMore(steps, n - 1);
    assert steps[..n][..n - 1] == steps[..n - 1];
    var u, p := After(map[], steps[..n - 1]), steps[n - 1];
    ApplyTxAt(u, p.tx, p.height, o);
    if p.tx.Creates(o) {
      m := n - 1;
    } else {
      m := Provenance(steps, n - 1, o);
    }
  }
}
