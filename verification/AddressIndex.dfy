/**
 How the node turns a block into address-index writes (src/node/node.ts:655-684).
 */
module AddressIndex {
  import opened Ledger
  import opened Utxo
  import opened Store
  import opened Layers

  function Bump(totals: map<Address, Totals>, a: Address, received: int, sent: int): map<Address, Totals> {
    var t := if a in totals then totals[a] else Totals(0, 0);
    totals[a := Totals(t.received + received, t.sent + sent)]
  }

  lemma {:induction false} NothingReceived(outputs: seq<TxOutput>, a: Address)
    requires a !in Receivers(outputs)
    ensures ReceivedBy(outputs, a) == 0
  {
    if |outputs| > 0 {
      NothingReceived(outputs[..|outputs| - 1], a);
    }
  }

  lemma {:induction false} NothingSent(spent: seq<SpentEntry>, a: Address)
    requires a !in Senders(spent)
    ensures SentBy(spent, a) == 0
  {
    if |spent| > 0 {
      NothingSent(spent[..|spent| - 1], a);
    }
  }

  lemma {:induction false} ActivityAddsOutput(outputs: seq<TxOutput>, o: TxOutput)
    ensures ActivityOf(outputs + [o], []) == Bump(ActivityOf(outputs, []), o.address, o.amount, 0)
  {
    assert (outputs + [o])[..|outputs|] == outputs;
    if o.address !in Receivers(outputs) {
      NothingReceived(outputs, o.address);
    }
  }

  lemma {:induction false} ActivityAddsSpend(outputs: seq<TxOutput>, spent: seq<SpentEntry>, e: SpentEntry)
    ensures ActivityOf(outputs, spent + [e]) == Bump(ActivityOf(outputs, spent), e.entry.address, 0, e.entry.amount)
  {
    assert (spent + [e])[..|spent|] == spent;
    if e.entry.address !in Receivers(outputs) + Senders(spent) {
      NothingReceived(outputs, e.entry.address);
      NothingSent(spent, e.entry.address);
    }
  }

  /** Per-address totals of one transaction: what it paid the address and what of the
      address's it spent. */
  method AddressActivityOf(tx: Transaction, spent: seq<SpentEntry>) returns (totals: map<Address, Totals>)
    ensures totals == ActivityOf(tx.outputs, spent)
  {
    totals := map[];
    for i := 0 to |tx.outputs|
      invariant totals == ActivityOf(tx.outputs[..i], [])
    {
      ActivityAddsOutput(tx.outputs[..i], tx.outputs[i]);
      assert tx.outputs[..i + 1] == tx.outputs[..i] + [tx.outputs[i]];
      totals := Bump(totals, tx.outputs[i].address, tx.outputs[i].amount, 0);
    }
    assert tx.outputs[..|tx.outputs|] == tx.outputs;
    for i := 0 to |spent|
      invariant totals == ActivityOf(tx.outputs, spent[..i])
    {
      ActivityAddsSpend(tx.outputs, spent[..i], spent[i]);
      assert spent[..i + 1] == spent[..i] + [spent[i]];
      totals := Bump(totals, spent[i].entry.address, 0, spent[i].entry.amount);
    }
    assert spent[..|spent|] == spent;
  }

  /** `s` with the entries `m` deleted or put. */
  function WithEntries(s: State, m: map<ActivityKey, Activity>, remove: bool): State {
    s.(activity := Edited(s.activity, m, remove))
  }

  function ActivityFor(b: Block, tx: Transaction, t: Totals): Activity {
    Activity(b.hash, tx.timestamp, t.received, t.sent)
  }

  lemma {:induction false} EntriesForOneMore(
    m: map<ActivityKey, Activity>, b: Block, tx: Transaction, totals: map<Address, Totals>, rest: set<Address>,
    a: Address, remove: bool)
    requires rest <= totals.Keys && a in rest
    ensures
      var key := ActivityKey(a, b.header.height, tx.id);
      var before := Edited(m, EntriesFor(b, tx, totals, totals.Keys - rest), remove);
      Edited(m, EntriesFor(b, tx, totals, totals.Keys - (rest - {a})), remove)
      == if remove then before - {key} else before[key := ActivityFor(b, tx, totals[a])]
  {
    var key := ActivityKey(a, b.header.height, tx.id);
    assert totals.Keys - (rest - {a}) == totals.Keys - rest + {a};
    assert EntriesFor(b, tx, totals, totals.Keys - rest + {a})
        == EntriesFor(b, tx, totals, totals.Keys - rest)[key := ActivityFor(b, tx, totals[a])];
    EditedOneMore(m, EntriesFor(b, tx, totals, totals.Keys - rest), key, ActivityFor(b, tx, totals[a]), remove);
  }

  lemma {:induction false} CommitActivityOp(
    s: State, ops: seq<Op>, base: State, current: map<ActivityKey, Activity>, op: Op)
    requires Commit(s, ops) == base.(activity := current)
    requires op.PutActivity? || op.DelActivity?
    ensures Commit(s, ops + [op]) == base.(activity :=
      if op.DelActivity? then current - {op.activityKey} else current[op.activityKey := op.activity])
  {
    CommitOne(s, ops, op);
  }

  method AnyOf(s: set<Address>) returns (a: Address)
    requires s != {}
    ensures a in s
  {
    a :| a in s;
  }

  lemma {:induction false} NoEntries(
    m: map<ActivityKey, Activity>, b: Block, tx: Transaction, totals: map<Address, Totals>, remove: bool)
    ensures Edited(m, EntriesFor(b, tx, totals, {}), remove) == m
  {
    assert EntriesFor(b, tx, totals, {}) == map[];
  }

  /** Appends the writes for one transaction's totals. */
  method TxActivityOps(
    ghost s: State, ops: seq<Op>, b: Block, tx: Transaction, totals: map<Address, Totals>, remove: bool)
      returns (out: seq<Op>)
    ensures Commit(s, out) == WithEntries(Commit(s, ops), EntriesFor(b, tx, totals, totals.Keys), remove)
  {
    hide Commit, Edited, EntriesFor;
    out := ops;
    ghost var base := Commit(s, ops);
    ghost var current := base.activity;
    var rest := totals.Keys;
    NoEntries(base.activity, b, tx, totals, remove);
    assert totals.Keys - rest == {};
    while rest != {}
      invariant rest <= totals.Keys
      invariant Commit(s, out) == base.(activity := current)
      invariant current == Edited(base.activity, EntriesFor(b, tx, totals, totals.Keys - rest), remove)
      decreases rest
    {
      var a := AnyOf(rest);
      var key := ActivityKey(a, b.header.height, tx.id);
      var value := ActivityFor(b, tx, totals[a]);
      var op := if remove then DelActivity(key) else PutActivity(key, value);
      EntriesForOneMore(base.activity, b, tx, totals, rest, a, remove);
      CommitActivityOp(s, out, base, current, op);
      current := if remove then current - {key} else current[key := value];
      out := out + [op];
      rest := rest - {a};
    }
    assert totals.Keys - rest == totals.Keys;
  }

  /** Appends the writes that put a block's address entries, or the deletes that remove them. */
  method AddressIndexOps(ghost s: State, ops: seq<Op>, b: Block, undo: BlockUndo, remove: bool) returns (out: seq<Op>)
    ensures Commit(s, out) == WithEntries(Commit(s, ops), Entries(b, undo, |b.transactions|), remove)
  {
    out := ops;
    for i := 0 to |b.transactions|
      invariant Commit(s, out) == WithEntries(Commit(s, ops), Entries(b, undo, i), remove)
    {
      ghost var before := out;
      var totals := AddressActivityOf(b.transactions[i], SpentIn(undo, i));
      out := TxActivityOps(s, out, b, b.transactions[i], totals, remove);
      EditedTwice(Commit(s, ops).activity, Entries(b, undo, i), EntriesOfTx(b, undo, i), remove);
    }
  }
}
