/**
 The UTXO set as the node holds it (src/state/utxoSet.ts): a persistent sublevel with an
 in-memory overlay of staged writes. Every operation is proved against the functions of
 module `Utxo` applied to the set the overlay shows.
 */
module UtxoSets {
  import opened Ledger
  import opened Utxo
  import opened Store

  /** The root database. */
  class Db {
    var state: State

    constructor (initial: State)
      ensures state == initial
    {
      state := initial;
    }

    /** Applies a whole batch or, on a crash before this point, none of it. */
    method CommitAtomic(ops: seq<Op>)
      modifies this
      ensures state == Commit(old(state), ops)
    {
      var next := state;
      for i := 0 to |ops|
        invariant next == Commit(state, ops[..i])
      {
        assert ops[..i + 1][..i] == ops[..i];
        next := ApplyOp(next, ops[i]);
      }
      assert ops[..|ops|] == ops;
      state := next;
    }
  }

  // ---------------------------------------------------------------- writes to the UTXO sublevel

  predicate IsUtxoOp(op: Op) {
    op.PutUtxo? || op.DelUtxo?
  }

  predicate UtxoOps(ops: seq<Op>) {
    forall i :: 0 <= i < |ops| ==> IsUtxoOp(ops[i])
  }

  function WriteOne(u: Utxos, op: Op): Utxos {
    match op
    case PutUtxo(o, e) => u[o := e]
    case DelUtxo(o) => u - {o}
    case _ => u
  }

  function Written(u: Utxos, ops: seq<Op>): Utxos {
    if |ops| == 0 then u else WriteOne(Written(u, ops[..|ops| - 1]), ops[|ops| - 1])
  }

  lemma {:induction false} WrittenOne(u: Utxos, ops: seq<Op>, op: Op)
    ensures Written(u, ops + [op]) == WriteOne(Written(u, ops), op)
  {
    assert (ops + [op])[..|ops|] == ops;
  }

  /** A batch of UTXO writes touches nothing else. */
  lemma {:induction false} CommitUtxoOps(s: State, ops: seq<Op>)
    requires UtxoOps(ops)
    ensures Commit(s, ops) == s.(utxo := Written(s.utxo, ops))
  {
    if |ops| > 0 {
      CommitUtxoOps(s, ops[..|ops| - 1]);
      assert IsUtxoOp(ops[|ops| - 1]);
    }
  }

  function DelOps(inputs: seq<TxInput>): seq<Op> {
    seq(|inputs|, i requires 0 <= i < |inputs| => DelUtxo(inputs[i].outpoint))
  }

  function PutOps(tx: Transaction, height: int, n: nat): seq<Op>
    requires n <= |tx.outputs|
  {
    seq(n, i requires 0 <= i < n => PutUtxo(Outpoint(tx.id, i),
      UtxoEntry(tx.outputs[i].address, tx.outputs[i].amount, height, tx.IsCoinbase())))
  }

  lemma {:induction false} WrittenConcat(u: Utxos, a: seq<Op>, b: seq<Op>)
    ensures Written(u, a + b) == Written(Written(u, a), b)
  {
    if |b| == 0 {
      assert a + b == a;
    } else {
      WrittenConcat(u, a, b[..|b| - 1]);
      assert (a + b)[..|a + b| - 1] == a + b[..|b| - 1];
    }
  }

  lemma {:induction false} DelOpsWritten(u: Utxos, inputs: seq<TxInput>)
    ensures Written(u, DelOps(inputs)) == u - set i | 0 <= i < |inputs| :: inputs[i].outpoint
  {
    if |inputs| > 0 {
      var n := |inputs| - 1;
      var init := inputs[..n];
      DelOpsWritten(u, init);
      assert DelOps(inputs)[..n] == DelOps(init);
      assert (set i | 0 <= i < |inputs| :: inputs[i].outpoint)
          == (set i | 0 <= i < |init| :: init[i].outpoint) + {inputs[n].outpoint};
    }
  }

  lemma {:induction false} PutOpsWritten(u: Utxos, tx: Transaction, height: int, n: nat, o: Outpoint)
    requires n <= |tx.outputs|
    ensures Look(Written(u, PutOps(tx, height, n)), o) ==
      if o.txId == tx.id && 0 <= o.index < n
      then Some(UtxoEntry(tx.outputs[o.index].address, tx.outputs[o.index].amount, height, tx.IsCoinbase()))
      else Look(u, o)
  {
    if n > 0 {
      PutOpsWritten(u, tx, height, n - 1, o);
      assert PutOps(tx, height, n)[..n - 1] == PutOps(tx, height, n - 1);
    }
  }

  /** Deleting what a transaction spends and then putting what it creates is applying it. */
  lemma {:induction false} ApplyOpsWritten(u: Utxos, tx: Transaction, height: int)
    ensures Written(u, DelOps(tx.inputs) + PutOps(tx, height, |tx.outputs|)) == ApplyTx(u, tx, height)
  {
    WrittenConcat(u, DelOps(tx.inputs), PutOps(tx, height, |tx.outputs|));
    DelOpsWritten(u, tx.inputs);
    var mid := u - tx.Spends();
    forall o ensures Look(Written(mid, PutOps(tx, height, |tx.outputs|)), o) == Look(ApplyTx(u, tx, height), o) {
      PutOpsWritten(mid, tx, height, |tx.outputs|, o);
      ApplyTxAt(u, tx, height, o);
    }
    SameLooks(Written(mid, PutOps(tx, height, |tx.outputs|)), ApplyTx(u, tx, height));
  }

  function UndoDelOps(created: seq<Outpoint>): seq<Op> {
    seq(|created|, i requires 0 <= i < |created| => DelUtxo(created[i]))
  }

  function UndoPutOps(spent: seq<SpentEntry>): seq<Op> {
    seq(|spent|, i requires 0 <= i < |spent| => PutUtxo(spent[i].outpoint, spent[i].entry))
  }

  lemma {:induction false} UndoDelWritten(u: Utxos, created: seq<Outpoint>)
    ensures Written(u, UndoDelOps(created)) == u - set o | o in created
  {
    if |created| > 0 {
      var n := |created| - 1;
      UndoDelWritten(u, created[..n]);
      assert UndoDelOps(created)[..n] == UndoDelOps(created[..n]);
      assert created == created[..n] + [created[n]];
    }
  }

  lemma {:induction false} UndoPutWritten(u: Utxos, spent: seq<SpentEntry>)
    ensures Written(u, UndoPutOps(spent)) == u + Restored(spent)
  {
    if |spent| > 0 {
      var n := |spent| - 1;
      UndoPutWritten(u, spent[..n]);
      assert UndoPutOps(spent)[..n] == UndoPutOps(spent[..n]);
    }
  }

  lemma {:induction false} UndoOpsWritten(u: Utxos, undo: TxUndo)
    ensures Written(u, UndoDelOps(undo.created) + UndoPutOps(undo.spent)) == UndoTx(u, undo)
  {
    WrittenConcat(u, UndoDelOps(undo.created), UndoPutOps(undo.spent));
    UndoDelWritten(u, undo.created);
    UndoPutWritten(u - (set o | o in undo.created), undo.spent);
  }

  /** Every input may be spent. */
  predicate AllAllowed(r: SpendRules, u: Utxos, payload: SigningPayload, inputs: seq<TxInput>, height: int): (ok: bool)
    ensures ok ==> forall i :: 0 <= i < |inputs| ==> inputs[i].outpoint in u
  {
    forall i :: 0 <= i < |inputs| ==> InputAllowed(r, u, payload, inputs[i], height)
  }

  lemma {:induction false} NoInputs(r: SpendRules, u: Utxos, payload: SigningPayload, height: int)
    ensures AllAllowed(r, u, payload, [], height) && TotalIn(u, []) == 0
  {
  }

  lemma {:induction false} AllowedIs(r: SpendRules, u: Utxos, tx: Transaction, height: int)
    requires ValidStructure(r.crypto, tx) && !tx.IsCoinbase()
    ensures ValidTx(r, u, tx, height) <==>
            AllAllowed(r, u, Payload(tx.Body()), tx.inputs, height)
              && TotalOut(tx.outputs) + tx.fee <= TotalIn(u, tx.inputs)
  {
    hide ValidStructure, InputAllowed, TotalIn, TotalOut;
  }

  lemma {:induction false} OneMoreInput(
    r: SpendRules, u: Utxos, payload: SigningPayload, inputs: seq<TxInput>, i: nat, height: int)
    requires i < |inputs| && AllAllowed(r, u, payload, inputs[..i], height)
    ensures InputAllowed(r, u, payload, inputs[i], height) ==>
      AllAllowed(r, u, payload, inputs[..i + 1], height) && inputs[i].outpoint in u
      && TotalIn(u, inputs[..i + 1]) == TotalIn(u, inputs[..i]) + u[inputs[i].outpoint].amount
    ensures !InputAllowed(r, u, payload, inputs[i], height) ==> !AllAllowed(r, u, payload, inputs, height)
  {
    var front, more := inputs[..i], inputs[..i + 1];
    TakeOneMore(inputs, i);
    if InputAllowed(r, u, payload, inputs[i], height) {
      forall k | 0 <= k < |more| ensures InputAllowed(r, u, payload, more[k], height) {
        if k < i {
          assert more[k] == front[k];
        }
      }
    }
  }

  /** A layer over the stored set: an outpoint mapped to `None` is gone. */
  datatype Staging = Staging(writes: map<Outpoint, Option<UtxoEntry>>, clearBase: bool)

  /** What a read of `o` returns: the staged write if any, else the persisted entry. */
  function Read(base: Utxos, staging: Option<Staging>, o: Outpoint): Option<UtxoEntry> {
    if staging.Some? && o in staging.value.writes then staging.value.writes[o]
    else if staging.Some? && staging.value.clearBase then None
    else Look(base, o)
  }

  /** The set that reads see. */
  function Overlay(base: Utxos, staging: Option<Staging>): Utxos {
    map o | o in base.Keys + (if staging.Some? then staging.value.writes.Keys else {})
            && Read(base, staging, o).Some? :: Read(base, staging, o).value
  }

  lemma {:induction false} OverlayLook(base: Utxos, staging: Option<Staging>, o: Outpoint)
    ensures Look(Overlay(base, staging), o) == Read(base, staging, o)
  {
  }

  lemma {:induction false} OverlayNone(base: Utxos)
    ensures Overlay(base, None) == base
  {
  }

  lemma {:induction false} OverlayEmpty(base: Utxos, clearBase: bool)
    ensures Overlay(base, Some(Staging(map[], clearBase))) == if clearBase then map[] else base
  {
  }

  function StageOne(writes: map<Outpoint, Option<UtxoEntry>>, op: Op): map<Outpoint, Option<UtxoEntry>> {
    match op
    case PutUtxo(o, e) => writes[o := Some(e)]
    case DelUtxo(o) => writes[o := None]
    case _ => writes
  }

  lemma {:induction false} StageOneSeen(base: Utxos, s: Staging, op: Op)
    requires IsUtxoOp(op)
    ensures Overlay(base, Some(s.(writes := StageOne(s.writes, op)))) == WriteOne(Overlay(base, Some(s)), op)
  {
    var after := Some(s.(writes := StageOne(s.writes, op)));
    forall o ensures Look(Overlay(base, after), o) == Look(WriteOne(Overlay(base, Some(s)), op), o) {
      OverlayLook(base, after, o);
      OverlayLook(base, Some(s), o);
    }
    SameLooks(Overlay(base, after), WriteOne(Overlay(base, Some(s)), op));
  }

  // ---------------------------------------------------------------- the set

  class UtxoSet {
    const db: Db
    const rules: SpendRules
    var staging: Option<Staging>

    ghost function View(): Utxos
      reads this, db
    {
      Overlay(db.state.utxo, staging)
    }

    constructor (db: Db, rules: SpendRules)
      ensures this.db == db && this.rules == rules && staging == None
      ensures View() == db.state.utxo
    {
      this.db := db;
      this.rules := rules;
      staging := None;
      new;
      OverlayNone(db.state.utxo);
    }

    /** Starts buffering writes; fails if a buffer is already open. */
    method BeginStaging(clearBase: bool) returns (ok: bool)
      modifies this
      ensures ok <==> old(staging) == None
      ensures ok ==> staging.Some? && staging.value.clearBase == clearBase
      ensures ok ==> View() == if clearBase then map[] else db.state.utxo
      ensures !ok ==> staging == old(staging)
    {
      if staging.Some? { return false; }
      staging := Some(Staging(map[], clearBase));
      OverlayEmpty(db.state.utxo, clearBase);
      return true;
    }

    method DiscardStaging()
      modifies this
      ensures staging == None && View() == db.state.utxo
    {
      staging := None;
      OverlayNone(db.state.utxo);
    }

    /** Closes the buffer and hands out operations after which the stored set is what reads saw before. */
    method TakeStagedOps() returns (ops: seq<Op>)
      requires staging.Some?
      modifies this
      ensures staging == None
      ensures UtxoOps(ops) && Written(db.state.utxo, ops) == old(View())
    {
      var s := staging.value;
      ghost var seen := View();
      staging := None;
      ops := [];
      var base := db.state.utxo;
      if s.clearBase {
        var rest := base.Keys - s.writes.Keys;
        while rest != {}
          invariant UtxoOps(ops) && staging == None
          invariant rest <= base.Keys - s.writes.Keys
          invariant Written(base, ops) == base - (base.Keys - s.writes.Keys - rest)
          decreases rest
        {
          var o :| o in rest;
          WrittenOne(base, ops, DelUtxo(o));
          ops := ops + [DelUtxo(o)];
          rest := rest - {o};
        }
      }
      ghost var cleared := Written(base, ops);
      assert forall o :: o !in s.writes ==> Look(cleared, o) == Read(base, Some(s), o);
      var left := s.writes.Keys;
      while left != {}
        invariant UtxoOps(ops) && staging == None
        invariant left <= s.writes.Keys
        invariant forall o :: o !in left ==> Look(Written(base, ops), o) == Read(base, Some(s), o)
        decreases left
      {
        var o :| o in left;
        var op := if s.writes[o].Some? then PutUtxo(o, s.writes[o].value) else DelUtxo(o);
        WrittenOne(base, ops, op);
        ops := ops + [op];
        left := left - {o};
      }
      forall o ensures Look(Written(base, ops), o) == Look(seen, o) {
        OverlayLook(base, Some(s), o);
      }
      SameLooks(Written(base, ops), seen);
    }

    method GetEntry(o: Outpoint) returns (e: Option<UtxoEntry>)
      ensures e == Look(View(), o)
    {
      OverlayLook(db.state.utxo, staging, o);
      e := Read(db.state.utxo, staging, o);
    }

    /** Buffers the writes while staging, persists them otherwise. */
    method Write(ops: seq<Op>)
      requires UtxoOps(ops)
      modifies this, db
      ensures View() == Written(old(View()), ops)
      ensures old(staging).Some? ==> db.state == old(db.state) && staging.Some?
      ensures old(staging).None? ==> staging == None && db.state == Commit(old(db.state), ops)
    {
      ghost var before := View();
      if staging.Some? {
        for i := 0 to |ops|
          invariant staging.Some?
          invariant db.state == old(db.state)
          invariant View() == Written(before, ops[..i])
        {
          TakeOneMore(ops, i);
          assert IsUtxoOp(ops[i]);
          StageOneSeen(db.state.utxo, staging.value, ops[i]);
          staging := Some(staging.value.(writes := StageOne(staging.value.writes, ops[i])));
        }
        assert ops[..|ops|] == ops;
      } else {
        OverlayNone(db.state.utxo);
        CommitUtxoOps(db.state, ops);
        db.CommitAtomic(ops);
        OverlayNone(db.state.utxo);
      }
    }

    /** Every input exists, is mature, is owned and signed, and the inputs cover outputs and fee. */
    method ValidateTransaction(tx: Transaction, spendingHeight: int) returns (valid: bool)
      ensures valid <==> ValidTx(rules, View(), tx, spendingHeight)
    {
      hide ValidStructure, InputAllowed, AllAllowed, TotalIn, TotalOut;
      var structural := ValidateTransactionStructure(rules.crypto, tx);
      if !structural { return false; }
      if |tx.inputs| == 0 { return true; }
      var payload := Payload(tx.Body());
      var totalIn := 0;
      NoInputs(rules, View(), payload, spendingHeight);
      assert tx.inputs[..0] == [];
      for i := 0 to |tx.inputs|
        invariant AllAllowed(rules, View(), payload, tx.inputs[..i], spendingHeight)
        invariant totalIn == TotalIn(View(), tx.inputs[..i])
      {
        var allowed, amount := ValidateInput(tx.inputs[i], payload, spendingHeight);
        OneMoreInput(rules, View(), payload, tx.inputs, i, spendingHeight);
        if !allowed {
          AllowedIs(rules, View(), tx, spendingHeight);
          return false;
        }
        totalIn := totalIn + amount;
      }
      assert tx.inputs[..|tx.inputs|] == tx.inputs;
      AllowedIs(rules, View(), tx, spendingHeight);
      return totalIn >= TotalOut(tx.outputs) + tx.fee;
    }

    /** Whether an input may be spent, and what it brings in. */
    method ValidateInput(input: TxInput, payload: SigningPayload, spendingHeight: int) returns (ok: bool, amount: int)
      ensures ok <==> InputAllowed(rules, View(), payload, input, spendingHeight)
      ensures ok ==> input.outpoint in View() && amount == View()[input.outpoint].amount
    {
      var entry := GetEntry(input.outpoint);
      if entry.None? {
        return false, 0;
      }
      var e := entry.value;
      ok := !(e.isCoinbase && spendingHeight < e.blockHeight + rules.coinbaseMaturity)
            && rules.crypto.deriveAddress(input.publicKey) == e.address
            && rules.crypto.verify(input.publicKey, payload, input.signature);
      amount := e.amount;
    }

    /** The writes a funded transaction makes and the record that reverses them. */
    method PrepareApply(tx: Transaction, height: int) returns (ops: seq<Op>, undo: TxUndo)
      requires Funded(View(), tx)
      ensures ops == DelOps(tx.inputs) + PutOps(tx, height, |tx.outputs|)
      ensures undo == UndoOf(View(), tx)
    {
      ghost var full := UndoOf(View(), tx);
      ops := [];
      var spent: seq<SpentEntry>, created: seq<Outpoint> := [], [];
      for i := 0 to |tx.inputs|
        invariant ops == DelOps(tx.inputs)[..i]
        invariant spent == full.spent[..i]
      {
        var entry := GetEntry(tx.inputs[i].outpoint);
        spent := spent + [SpentEntry(tx.inputs[i].outpoint, entry.value)];
        ops := ops + [DelUtxo(tx.inputs[i].outpoint)];
      }
      assert DelOps(tx.inputs)[..|tx.inputs|] == DelOps(tx.inputs);
      for i := 0 to |tx.outputs|
        invariant ops == DelOps(tx.inputs) + PutOps(tx, height, i)
        invariant created == full.created[..i]
      {
        created := created + [Outpoint(tx.id, i)];
        ops := ops + [PutUtxo(Outpoint(tx.id, i),
          UtxoEntry(tx.outputs[i].address, tx.outputs[i].amount, height, tx.IsCoinbase()))];
      }
      undo := TxUndo(spent, created);
    }

    /** Applies a valid transaction and records how to undo it; an invalid one is refused and
        leaves no trace. */
    method ApplyTransaction(tx: Transaction, height: int) returns (undo: Option<TxUndo>)
      modifies this, db
      ensures undo.Some? <==> ValidTx(rules, old(View()), tx, height)
      ensures undo.Some? ==> Funded(old(View()), tx) && undo.value == UndoOf(old(View()), tx)
      ensures undo.Some? ==> View() == ApplyTx(old(View()), tx, height)
      ensures undo.None? ==> View() == old(View())
      ensures old(staging).Some? || undo.None? ==> db.state == old(db.state)
      ensures staging.Some? <==> old(staging).Some?
    {
      var valid := ValidateTransaction(tx, height);
      if !valid { return None; }
      ValidIsFunded(rules, View(), tx, height);
      var ops, record := PrepareApply(tx, height);
      ApplyOpsWritten(View(), tx, height);
      Write(ops);
      return Some(record);
    }

    /** Reverses one `ApplyTransaction`. */
    method UndoTransaction(undo: TxUndo)
      modifies this, db
      ensures View() == UndoTx(old(View()), undo)
      ensures old(staging).Some? ==> db.state == old(db.state)
      ensures staging.Some? <==> old(staging).Some?
    {
      var ops: seq<Op> := [];
      for i := 0 to |undo.created|
        invariant ops == UndoDelOps(undo.created)[..i]
      {
        ops := ops + [DelUtxo(undo.created[i])];
      }
      assert UndoDelOps(undo.created)[..|undo.created|] == UndoDelOps(undo.created);
      for i := 0 to |undo.spent|
        invariant ops == UndoDelOps(undo.created) + UndoPutOps(undo.spent)[..i]
      {
        ops := ops + [PutUtxo(undo.spent[i].outpoint, undo.spent[i].entry)];
      }
      assert UndoPutOps(undo.spent)[..|undo.spent|] == UndoPutOps(undo.spent);
      UndoOpsWritten(View(), undo);
      Write(ops);
    }
  }
}
