/**
 * What signatures authorise (src/ledger/transaction.ts:27-40, src/state/utxoSet.ts:162-219): a signature covers what is
 * spent, who is paid, time, fee and record, and coins leave an address only by transactions its owner has signed, once
 * they are mature.
 */
module Signing {

  import opened Ledger
  import opened Utxo
  import opened Store
  import opened Chain
  import opened Tree
  import opened HeaderIndex
  import opened NodeState
  import opened Spelling

  // ---------------------------------------------------------------- what a signature covers

  /** Two transactions are signed alike if and only if they spend, pay and record the same, with one time and fee. */
  lemma {:induction false} PayloadDecides(a: TxBody, b: TxBody)
    ensures Payload(a) == Payload(b) <==>
      |a.inputs| == |b.inputs| && (forall i :: 0 <= i < |a.inputs| ==> a.inputs[i].outpoint == b.inputs[i].outpoint)
      && a.outputs == b.outputs && a.timestamp == b.timestamp && a.fee == b.fee && a.data == b.data
  {
    var x, y := Outpoints(a.inputs), Outpoints(b.inputs);
    assert |x| == |a.inputs| && |y| == |b.inputs|;
    assert forall i :: 0 <= i < |x| ==> x[i] == a.inputs[i].outpoint;
    assert forall i :: 0 <= i < |y| ==> y[i] == b.inputs[i].outpoint;
  }

  // ---------------------------------------------------------------- the text that is signed

  function OutpointText(h: Hexing, o: Outpoint): string {
    h.hash(o.txId) + [':'] + Decimal(o.index)
  }

  function OutpointTexts(h: Hexing, os: seq<Outpoint>): (r: seq<string>) {
    seq(|os|, i requires 0 <= i < |os| => OutpointText(h, os[i]))
  }

  /** A payload as a transaction body without keys and signatures. */
  function Unsigned(p: SigningPayload): TxBody {
    TxBody([], p.outputs, p.timestamp, p.fee, p.data)
  }

  function SigningText(h: Hexing, p: SigningPayload): string {
    Join(OutpointTexts(h, p.outpoints), ',') + ['|'] + (OutputsText(p.outputs) + ['|'] + EndText(Unsigned(p)))
  }

  lemma {:induction false} OutpointIsClean(h: Hexing, o: Outpoint)
    requires Writes(h)
    ensures 0 < |OutpointText(h, o)| && ',' !in OutpointText(h, o) && '|' !in OutpointText(h, o)
  {
    HexIsClean(h.hash(o.txId));
    DecimalIsClean(o.index);
    hide Decimal, AllHex;
  }

  lemma {:induction false} OutpointDecides(h: Hexing, a: Outpoint, b: Outpoint)
    requires Writes(h) && OutpointText(h, a) == OutpointText(h, b)
    ensures a == b
  {
    hide Decimal, AllHex;
    HexIsClean(h.hash(a.txId));
    HexIsClean(h.hash(b.txId));
    CutFirst(h.hash(a.txId), Decimal(a.index), h.hash(b.txId), Decimal(b.index), ':');
    DecimalDecides(a.index, b.index);
  }

  lemma {:induction false} OutpointParts(h: Hexing, os: seq<Outpoint>)
    requires Writes(h)
    ensures Parts(OutpointTexts(h, os), ',') && '|' !in Join(OutpointTexts(h, os), ',')
  {
    hide OutpointText, Writes, Join;
    var texts := OutpointTexts(h, os);
    forall i | 0 <= i < |texts| ensures 0 < |texts[i]| && ',' !in texts[i] && '|' !in texts[i] {
      OutpointIsClean(h, os[i]);
    }
    JoinAvoids(texts, ',', '|');
  }

  lemma {:induction false} OutpointsDecide(h: Hexing, a: seq<Outpoint>, b: seq<Outpoint>)
    requires Writes(h) && Join(OutpointTexts(h, a), ',') == Join(OutpointTexts(h, b), ',')
    ensures a == b
  {
    hide OutpointText, Join, Writes, Parts;
    var ta, tb := OutpointTexts(h, a), OutpointTexts(h, b);
    OutpointParts(h, a);
    OutpointParts(h, b);
    JoinDecides(ta, tb, ',');
    assert |ta| == |a| && |tb| == |b|;
    forall i | 0 <= i < |a| ensures a[i] == b[i] {
      assert ta[i] == OutpointText(h, a[i]) && tb[i] == OutpointText(h, b[i]);
      OutpointDecides(h, a[i], b[i]);
    }
  }

  /** The signed text gives back everything but how the outputs are divided: a signature covers every respelling. */
  lemma {:induction false} SigningTextDecides(h: Hexing, a: SigningPayload, b: SigningPayload)
    requires Writes(h) && Clean(Unsigned(a)) && Clean(Unsigned(b))
    ensures SigningText(h, a) == SigningText(h, b) <==>
      a.outpoints == b.outpoints && OutputsText(a.outputs) == OutputsText(b.outputs)
      && a.timestamp == b.timestamp && a.fee == b.fee && a.data == b.data
  {
    hide OutputsText, EndText, Join, OutpointTexts, Writes, Clean;
    var x, y := Unsigned(a), Unsigned(b);
    if SigningText(h, a) == SigningText(h, b) {
      OutpointParts(h, a.outpoints);
      OutpointParts(h, b.outpoints);
      CutFirst(Join(OutpointTexts(h, a.outpoints), ','), OutputsText(a.outputs) + ['|'] + EndText(x),
        Join(OutpointTexts(h, b.outpoints), ','), OutputsText(b.outputs) + ['|'] + EndText(y), '|');
      OutpointsDecide(h, a.outpoints, b.outpoints);
      EndDecides(OutputsText(a.outputs), x, OutputsText(b.outputs), y);
    } else if a.timestamp == b.timestamp && a.fee == b.fee && a.data == b.data {
      SameEnd(x.(outputs := []), y.(outputs := []));
      EndOnly(x);
      EndOnly(y);
    }
  }

  lemma {:induction false} EndOnly(body: TxBody)
    ensures EndText(body) == EndText(body.(outputs := []))
  {
  }

  lemma {:induction false} SampleOutputs()
    ensures OutputsText([TxOutput("x", 1), TxOutput("y", 2)]) == "x:1,y:2"
  {
    var a, b := TxOutput("x", 1), TxOutput("y", 2);
    assert OutputText(a) == "x:1" && OutputText(b) == "y:2";
    var t := OutputTexts([a, b]);
    assert t[0] == OutputText(a) && t[1] == OutputText(b);
    assert t[..1] == [OutputText(a)];
  }

  lemma {:induction false} SampleEnd(body: TxBody)
    requires body.timestamp == 5 && body.fee == 3 && body.data == Some("ab")
    ensures EndText(body) == "5|3|data:ab"
  {
    assert Decimal(5) == "5" && Decimal(3) == "3";
  }

  lemma {:induction false} SampleInput(h: Hexing, i: TxInput)
    requires i.outpoint.index == 0
    ensures Join(InputTexts(h, [i]), ',')
         == h.hash(i.outpoint.txId) + ":0:" + h.signature(i.signature) + ":" + h.key(i.publicKey)
    ensures Join(OutpointTexts(h, [i.outpoint]), ',') == h.hash(i.outpoint.txId) + ":0"
  {
    assert Decimal(0) == "0";
    hide Decimal;
    assert InputTexts(h, [i]) == [InputText(h, i)] && OutpointTexts(h, [i.outpoint]) == [OutpointText(h, i.outpoint)];
  }

  /** Both texts of a small transaction, as the source joins them. */
  lemma {:induction false} SampleTexts(h: Hexing, id: Hash, signature: Signature, key: Key)
    ensures var body := TxBody([TxInput(Outpoint(id, 0), signature, key)], [TxOutput("x", 1), TxOutput("y", 2)], 5, 3,
                               Some("ab"));
            && BodyText(h, body)
               == (h.hash(id) + ":0:" + h.signature(signature) + ":" + h.key(key)) + "|x:1,y:2|5|3|data:ab"
            && SigningText(h, Payload(body)) == (h.hash(id) + ":0") + "|x:1,y:2|5|3|data:ab"
  {
    var i, outputs := TxInput(Outpoint(id, 0), signature, key), [TxOutput("x", 1), TxOutput("y", 2)];
    var body := TxBody([i], outputs, 5, 3, Some("ab"));
    hide Decimal, OutputsText, EndText, InputTexts, OutpointTexts, Join;
    SampleInput(h, i);
    SampleOutputs();
    SampleEnd(body);
    SampleEnd(Unsigned(Payload(body)));
    assert Outpoints([i]) == [i.outpoint];
    assert "x:1,y:2" + ['|'] + "5|3|data:ab" == "x:1,y:2|5|3|data:ab";
    assert ['|'] + "x:1,y:2|5|3|data:ab" == "|x:1,y:2|5|3|data:ab";
  }

  // ---------------------------------------------------------------- leaving an address

  /** No key of the address has signed anything but these. */
  ghost predicate SignedOnly(c: Crypto, owner: Address, signed: iset<SigningPayload>) {
    forall k, p, s :: c.deriveAddress(k) == owner && c.verify(k, p, s) ==> p in signed
  }

  /** The transaction does what a payload says: spends, pays and records that, with that time and fee. */
  predicate Does(tx: Transaction, p: SigningPayload) {
    && |tx.inputs| == |p.outpoints| && (forall i :: 0 <= i < |tx.inputs| ==> tx.inputs[i].outpoint == p.outpoints[i])
    && tx.outputs == p.outputs && tx.timestamp == p.timestamp && tx.fee == p.fee && tx.data == p.data
  }

  lemma {:induction false} DoesPayload(tx: Transaction)
    ensures Does(tx, Payload(tx.Body()))
  {
    var os := Outpoints(tx.inputs);
    assert |os| == |tx.inputs| && forall i :: 0 <= i < |os| ==> os[i] == tx.inputs[i].outpoint;
  }

  /** When an unspent outpoint goes, a transaction spends it. */
  lemma {:induction false} SpentBetween(steps: seq<Placed>, from: nat, o: Outpoint) returns (j: nat)
    requires from <= |steps| && o in After(map[], steps[..from]) && o !in After(map[], steps)
    ensures from <= j < |steps| && o in After(map[], steps[..j]) && o in steps[j].tx.Spends()
    decreases |steps| - from
  {
    assert steps[..|steps|] == steps;
    if from < |steps| {
      TakeOneMore(steps, from);
      assert steps[..from + 1][..from] == steps[..from];
      ApplyTxAt(After(map[], steps[..from]), steps[from].tx, steps[from].height, o);
      if o in After(map[], steps[..from + 1]) {
        j := SpentBetween(steps, from + 1, o);
      } else {
        j := from;
      }
    } else {
      j := from;
    }
  }

  /** On a run with distinct ids an outpoint is what the one transaction with its id made it. */
  lemma {:induction false} EntryOf(steps: seq<Placed>, m: nat, n: nat, o: Outpoint)
    requires DistinctIds(steps) && m < |steps| && n <= |steps| && steps[m].tx.id == o.txId
    requires o in After(map[], steps[..n])
    ensures m < n && steps[m].tx.Creates(o)
    ensures After(map[], steps[..n])[o]
         == UtxoEntry(steps[m].tx.outputs[o.index].address, steps[m].tx.outputs[o.index].amount, steps[m].height,
                      steps[m].tx.IsCoinbase())
  {
    hide ApplyTx;
    assert n > 0;
    TakeOneMore(steps, n - 1);
    assert steps[..n][..n - 1] == steps[..n - 1];
    var u, p := After(map[], steps[..n - 1]), steps[n - 1];
    ApplyTxAt(u, p.tx, p.height, o);
    if !p.tx.Creates(o) {
      EntryOf(steps, m, n - 1, o);
    }
  }

  lemma {:induction false} InputOf(tx: Transaction, o: Outpoint) returns (i: nat)
    requires o in tx.Spends()
    ensures i < |tx.inputs| && tx.inputs[i].outpoint == o
  {
    i :| 0 <= i < |tx.inputs| && tx.inputs[i].outpoint == o;
  }

  /**
   * Over every valid run: an output to an address whose owner has signed only certain payloads is gone only if a later
   * transaction did exactly what one of these says.
   */
  lemma {:induction false} LeavesOnlySigned(
    r: SpendRules, steps: seq<Placed>, m: nat, o: Outpoint, owner: Address, signed: iset<SigningPayload>)
    returns (j: nat, p: SigningPayload)
    requires Applies(r, map[], steps) && DistinctIds(steps) && SignedOnly(r.crypto, owner, signed)
    requires m < |steps| && steps[m].tx.Creates(o) && steps[m].tx.outputs[o.index].address == owner
    requires o !in After(map[], steps)
    ensures m < j < |steps| && p in signed && o in p.outpoints && Does(steps[j].tx, p)
  {
    hide Applies, After, SignedOnly, Payload, Does;
    assert o in After(map[], steps[..m + 1]) by { MadeUnspent(steps, m, o); }
    j := SpentBetween(steps, m + 1, o);
    EntryOf(steps, m, j, o);
    p := Payload(steps[j].tx.Body());
    SpendIsSigned(r, steps, j, o, owner, signed);
    DoesPayload(steps[j].tx);
  }

  lemma {:induction false} MadeUnspent(steps: seq<Placed>, m: nat, o: Outpoint)
    requires m < |steps| && steps[m].tx.Creates(o)
    ensures o in After(map[], steps[..m + 1])
  {
    TakeOneMore(steps, m);
    assert steps[..m + 1][..m] == steps[..m];
    ApplyTxAt(After(map[], steps[..m]), steps[m].tx, steps[m].height, o);
  }

  lemma {:induction false} SpendIsSigned(
    r: SpendRules, steps: seq<Placed>, j: nat, o: Outpoint, owner: Address, signed: iset<SigningPayload>)
    requires Applies(r, map[], steps) && j < |steps| && SignedOnly(r.crypto, owner, signed)
    requires o in steps[j].tx.Spends() && o in After(map[], steps[..j]) && After(map[], steps[..j])[o].address == owner
    ensures Payload(steps[j].tx.Body()) in signed && o in Payload(steps[j].tx.Body()).outpoints
  {
    hide After;
    AppliesAt(r, map[], steps, j);
    var tx := steps[j].tx;
    var i := InputOf(tx, o);
    var os := Outpoints(tx.inputs);
    assert os[i] == o;
  }

  /** Over every valid run: a coinbase is spent only after as many blocks as maturity asks for. */
  lemma {:induction false} CoinbaseRests(r: SpendRules, steps: seq<Placed>, m: nat, j: nat, o: Outpoint)
    requires Applies(r, map[], steps) && DistinctIds(steps) && m < |steps| && j < |steps|
    requires steps[m].tx.IsCoinbase() && steps[m].tx.id == o.txId && o in steps[j].tx.Spends()
    ensures m < j && steps[m].height + r.coinbaseMaturity <= steps[j].height
  {
    hide After;
    AppliesAt(r, map[], steps, j);
    var i := InputOf(steps[j].tx, o);
    EntryOf(steps, m, j, o);
  }

  // ---------------------------------------------------------------- every node

  /** Of a node's chain: the same of every output it ever carried. */
  lemma {:induction false} SpentByOwner(
    r: Rules, w: World, s: State, m: nat, o: Outpoint, owner: Address, signed: iset<SigningPayload>)
    returns (j: nat, p: SigningPayload)
    requires Assumes(r, w) && Sane(r, w, s) && SignedOnly(r.cfg.rules.crypto, owner, signed)
    requires var steps := Steps(Canonical(r, s));
             m < |steps| && steps[m].tx.Creates(o) && steps[m].tx.outputs[o.index].address == owner
    requires o !in s.utxo
    ensures m < j < |Steps(Canonical(r, s))| && p in signed && o in p.outpoints
    ensures Does(Steps(Canonical(r, s))[j].tx, p)
  {
    hide Assumes, SignedOnly, Does, TreeOk, ChainOf;
    SaneIds(r, w, s);
    SaneTree(r, w, s);
    var chain := Canonical(r, s);
    assert Replays(r.cfg.rules, chain) by { SaneConsistent(r, w, s); }
    hide Sane;
    j, p := LeavesOnlySigned(r.cfg.rules, Steps(chain), m, o, owner, signed);
  }
}
