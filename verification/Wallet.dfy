/** Transactions the wallet builds and signs (src/wallet/txBuilder.ts:83-197). */
module Wallet {

  import opened Ledger
  import opened Utxo
  import opened Coins

  datatype KeyPair = KeyPair(privateKey: Key, publicKey: Key)

  datatype SpendArgs = SpendArgs(
    keys: KeyPair, unspent: seq<Unspent>, fee: int, timestamp: int, tipHeight: int, coinbaseMaturity: int)

  /** What this pair signs, it verifies. */
  ghost predicate Agrees(c: Crypto, keys: KeyPair) {
    forall m :: c.verify(keys.publicKey, m, c.sign(keys.privateKey, m))
  }

  // ---------------------------------------------------------------- coins to spend

  predicate IsMature(u: Unspent, tipHeight: int, coinbaseMaturity: int) {
    !u.entry.isCoinbase || u.entry.blockHeight + coinbaseMaturity <= tipHeight + 1
  }

  /** The wallet takes a coin for mature exactly when the next block may spend it. */
  lemma {:induction false} MatureExactly(r: SpendRules, u: Unspent, tipHeight: int)
    ensures IsMature(u, tipHeight, r.coinbaseMaturity) <==> Mature(r, u.entry, tipHeight + 1)
    ensures IsMature(u, tipHeight, r.coinbaseMaturity) <==>
      (u.entry.isCoinbase ==> r.coinbaseMaturity <= tipHeight + 1 - u.entry.blockHeight)
  {
  }

  function Spendable(s: seq<Unspent>, tipHeight: int, coinbaseMaturity: int): seq<Unspent> {
    if |s| == 0 then []
    else if IsMature(s[|s| - 1], tipHeight, coinbaseMaturity) then
      Spendable(s[..|s| - 1], tipHeight, coinbaseMaturity) + [s[|s| - 1]]
    else Spendable(s[..|s| - 1], tipHeight, coinbaseMaturity)
  }

  predicate Away(s: seq<Unspent>, u: Unspent) {
    forall i :: 0 <= i < |s| ==> s[i].outpoint != u.outpoint
  }

  predicate DistinctCoins(s: seq<Unspent>) {
    forall i, j :: 0 <= i < j < |s| ==> s[i].outpoint != s[j].outpoint
  }

  /** Each listed coin is an unspent output that has matured and belongs to `owner`. */
  predicate Spends(u: Utxos, s: seq<Unspent>, owner: Address, tipHeight: int, coinbaseMaturity: int) {
    forall i :: 0 <= i < |s| ==>
      && s[i].outpoint in u && u[s[i].outpoint] == s[i].entry
      && s[i].entry.address == owner && IsMature(s[i], tipHeight, coinbaseMaturity)
  }

  predicate Owned(s: seq<Unspent>, owner: Address) {
    forall i :: 0 <= i < |s| ==> s[i].entry.address == owner
  }

  predicate Matches(u: Utxos, s: seq<Unspent>) {
    DistinctCoins(s) && forall i :: 0 <= i < |s| ==> s[i].outpoint in u && u[s[i].outpoint] == s[i].entry
  }

  lemma {:induction false} SpendableCoins(
    u: Utxos, s: seq<Unspent>, owner: Address, tip: int, maturity: int, other: Unspent)
    requires Matches(u, s) && Owned(s, owner)
    ensures Spends(u, Spendable(s, tip, maturity), owner, tip, maturity) && DistinctCoins(Spendable(s, tip, maturity))
    ensures Away(s, other) ==> Away(Spendable(s, tip, maturity), other)
  {
    if |s| > 0 {
      SpendableCoins(u, s[..|s| - 1], owner, tip, maturity, s[|s| - 1]);
      SpendableCoins(u, s[..|s| - 1], owner, tip, maturity, other);
    }
  }

  lemma {:induction false} PlaceCoins(
    u: Utxos, s: seq<Unspent>, x: Unspent, owner: Address, tip: int, maturity: int, other: Unspent)
    requires Spends(u, s, owner, tip, maturity) && DistinctCoins(s)
    requires Spends(u, [x], owner, tip, maturity) && Away(s, x)
    ensures Spends(u, Place(s, x), owner, tip, maturity) && DistinctCoins(Place(s, x))
    ensures Away(s, other) && Away([x], other) ==> Away(Place(s, x), other)
  {
    assert [x][0] == x;
    if |s| > 0 && !Before(s[|s| - 1], x) {
      PlaceCoins(u, s[..|s| - 1], x, owner, tip, maturity, s[|s| - 1]);
      PlaceCoins(u, s[..|s| - 1], x, owner, tip, maturity, other);
    }
  }

  lemma {:induction false} SortedCoins(
    u: Utxos, s: seq<Unspent>, owner: Address, tip: int, maturity: int, other: Unspent)
    requires Spends(u, s, owner, tip, maturity) && DistinctCoins(s)
    ensures Spends(u, Sorted(s), owner, tip, maturity) && DistinctCoins(Sorted(s))
    ensures Away(s, other) ==> Away(Sorted(s), other)
  {
    if |s| > 0 {
      var front, last := s[..|s| - 1], s[|s| - 1];
      SortedCoins(u, front, owner, tip, maturity, last);
      SortedCoins(u, front, owner, tip, maturity, other);
      PlaceCoins(u, Sorted(front), last, owner, tip, maturity, other);
    }
  }

  // ---------------------------------------------------------------- change

  /** How many coins the change is split into: never more than it has units. */
  function Pieces(change: int, split: int): nat {
    if change <= 0 then 0
    else if (if split > 1 then split else 1) < change then (if split > 1 then split else 1) else change
  }

  /** Equal amounts, the remainder on the last. */
  function Piece(change: int, pieces: nat, i: nat): int
    requires pieces > 0
  {
    if i == pieces - 1 then change - change / pieces * (pieces - 1) else change / pieces
  }

  function Change(own: Address, change: int, pieces: nat, n: nat): (o: seq<TxOutput>)
    requires n <= pieces
    ensures |o| == n
  {
    if n == 0 then [] else Change(own, change, pieces, n - 1) + [TxOutput(own, Piece(change, pieces, n - 1))]
  }

  lemma {:induction false} PiecesPositive(change: int, pieces: nat, i: nat)
    requires 0 < pieces <= change && i < pieces
    ensures Piece(change, pieces, i) > 0
  {
    var q := change / pieces;
    assert change == q * pieces + change % pieces;
    assert q > 0;
    assert q * pieces == q * (pieces - 1) + q;
  }

  /**
   * How change is split: into as many pieces as asked for, at least one and at most one per unit, all equal but for
   * the last, which has the remainder as well.
   */
  lemma {:induction false} ChangeSplit(own: Address, change: int, split: int, i: nat)
    ensures Pieces(change, split) == 0 <==> change <= 0
    ensures 0 < change ==>
      && (split <= 1 ==> Pieces(change, split) == 1) && (1 < split <= change ==> Pieces(change, split) == split)
      && (1 < split && change < split ==> Pieces(change, split) == change)
    ensures i < Pieces(change, split) ==>
      var n := Pieces(change, split);
      var outputs := Change(own, change, n, n);
      && outputs[i].address == own
      && outputs[i].amount == change / n + if i == n - 1 then change % n else 0
  {
    var n := Pieces(change, split);
    if i < n {
      ChangeAt(own, change, n, n, i);
      assert change == change / n * n + change % n;
      assert change / n * n == change / n * (n - 1) + change / n;
    }
  }

  lemma {:induction false} ChangeAt(own: Address, change: int, pieces: nat, n: nat, i: nat)
    requires i < n <= pieces
    ensures Change(own, change, pieces, n)[i] == TxOutput(own, Piece(change, pieces, i))
  {
    hide Piece;
    if i < n - 1 {
      ChangeAt(own, change, pieces, n - 1, i);
    }
  }

  /** What the first `n` pieces are worth. */
  function Worth(change: int, pieces: nat, n: nat): int
    requires pieces > 0
  {
    if n == pieces then change else change / pieces * n
  }

  lemma {:induction false} WorthMore(change: int, pieces: nat, n: nat)
    requires n < pieces
    ensures Worth(change, pieces, n + 1) == Worth(change, pieces, n) + Piece(change, pieces, n)
    ensures Worth(change, pieces, 0) == 0
  {
    var q := change / pieces;
    assert q * (n + 1) == q * n + q;
    assert q * 0 == 0;
  }

  lemma {:induction false} ChangeUpTo(own: Address, change: int, pieces: nat, n: nat)
    requires 0 < pieces <= change && n <= pieces
    ensures TotalOut(Change(own, change, pieces, n)) == Worth(change, pieces, n)
    ensures forall i :: 0 <= i < n ==>
      Change(own, change, pieces, n)[i].amount > 0 && Change(own, change, pieces, n)[i].address == own
  {
    hide Worth, Piece;
    if n == 0 {
      WorthMore(change, pieces, 0);
    } else {
      ChangeUpTo(own, change, pieces, n - 1);
      PiecesPositive(change, pieces, n - 1);
      WorthMore(change, pieces, n - 1);
      TotalOutAppend(Change(own, change, pieces, n - 1), TxOutput(own, Piece(change, pieces, n - 1)));
    }
  }

  lemma {:induction false} TotalOutConcat(a: seq<TxOutput>, b: seq<TxOutput>)
    ensures TotalOut(a + b) == TotalOut(a) + TotalOut(b)
  {
    if |b| == 0 {
      assert a + b == a;
    } else {
      TotalOutConcat(a, b[..|b| - 1]);
      assert (a + b)[..|a + b| - 1] == a + b[..|b| - 1];
    }
  }

  lemma {:induction false} ChangeExact(own: Address, change: int, split: int)
    requires change >= 0
    ensures var o := Change(own, change, Pieces(change, split), Pieces(change, split));
            TotalOut(o) == change && forall i :: 0 <= i < |o| ==> o[i].amount > 0 && o[i].address == own
  {
    if change > 0 {
      ChangeUpTo(own, change, Pieces(change, split), Pieces(change, split));
    }
  }

  // ---------------------------------------------------------------- signing

  function InputsFor(coins: seq<Unspent>, key: Key, signature: Signature): (r: seq<TxInput>)
    ensures |r| == |coins|
    ensures forall i :: 0 <= i < |r| ==> r[i] == TxInput(coins[i].outpoint, signature, key)
  {
    if |coins| == 0 then []
    else InputsFor(coins[..|coins| - 1], key, signature) + [TxInput(coins[|coins| - 1].outpoint, signature, key)]
  }

  /** `body` with every input signed over the payload the unsigned inputs leave. */
  function Sign(c: Crypto, keys: KeyPair, body: TxBody): Transaction {
    var signature := c.sign(keys.privateKey, Payload(body));
    var signed := body.(inputs := Resigned(body.inputs, signature));
    Transaction(c.transactionId(signed), signed.inputs, signed.outputs, signed.timestamp, signed.fee, signed.data)
  }

  function Resigned(inputs: seq<TxInput>, signature: Signature): (r: seq<TxInput>)
    ensures |r| == |inputs|
    ensures forall i :: 0 <= i < |r| ==> r[i] == inputs[i].(signature := signature)
  {
    if |inputs| == 0 then []
    else Resigned(inputs[..|inputs| - 1], signature) + [inputs[|inputs| - 1].(signature := signature)]
  }

  /** Signatures are not part of what is signed. */
  lemma {:induction false} PayloadKept(c: Crypto, keys: KeyPair, body: TxBody)
    ensures Payload(Sign(c, keys, body).Body()) == Payload(body)
  {
    var tx := Sign(c, keys, body);
    assert Outpoints(tx.inputs) == Outpoints(body.inputs);
  }

  /** A signed body whose inputs are owned, mature and sufficient is a valid transaction. */
  lemma {:induction false} SignedIsValid(r: SpendRules, u: Utxos, keys: KeyPair, body: TxBody, height: int)
    requires Agrees(r.crypto, keys) && 0 < |body.inputs| && DistinctOutpoints(body.inputs)
    requires forall i :: 0 <= i < |body.inputs| ==>
      && body.inputs[i].publicKey == keys.publicKey && body.inputs[i].outpoint in u
      && u[body.inputs[i].outpoint].address == r.crypto.deriveAddress(keys.publicKey)
      && Mature(r, u[body.inputs[i].outpoint], height)
    requires 0 < |body.outputs| && forall i :: 0 <= i < |body.outputs| ==> 0 < body.outputs[i].amount
    requires 0 <= body.fee && (body.data.Some? ==> WellFormedData(body.data.value))
    requires TotalOut(body.outputs) + body.fee <= TotalIn(u, body.inputs)
    ensures ValidTx(r, u, Sign(r.crypto, keys, body), height)
    ensures TotalIn(u, Sign(r.crypto, keys, body).inputs) == TotalIn(u, body.inputs)
  {
    var tx := Sign(r.crypto, keys, body);
    PayloadKept(r.crypto, keys, body);
    SameInputs(u, body.inputs, tx.inputs);
    assert DistinctOutpoints(tx.inputs);
    assert tx.Body() == body.(inputs := tx.inputs);
    hide WellFormedData, TotalOut, TotalIn;
    assert ValidStructure(r.crypto, tx);
    forall i | 0 <= i < |tx.inputs|
      ensures InputAllowed(r, u, Payload(tx.Body()), tx.inputs[i], height)
    {
      assert tx.inputs[i].outpoint == body.inputs[i].outpoint;
    }
  }

  lemma {:induction false} SameInputs(u: Utxos, a: seq<TxInput>, b: seq<TxInput>)
    requires |a| == |b| && forall i :: 0 <= i < |a| ==> a[i].outpoint == b[i].outpoint && a[i].outpoint in u
    ensures (forall i :: 0 <= i < |b| ==> b[i].outpoint in u) && TotalIn(u, b) == TotalIn(u, a)
  {
    forall i | 0 <= i < |b| ensures b[i].outpoint in u {
      assert a[i].outpoint == b[i].outpoint;
    }
    if |a| > 0 {
      SameInputs(u, a[..|a| - 1], b[..|b| - 1]);
    }
  }

  lemma {:induction false} InputsTotal(
    u: Utxos, coins: seq<Unspent>, owner: Address, tip: int, maturity: int, key: Key, signature: Signature)
    requires Spends(u, coins, owner, tip, maturity)
    ensures forall i :: 0 <= i < |coins| ==> InputsFor(coins, key, signature)[i].outpoint in u
    ensures TotalIn(u, InputsFor(coins, key, signature)) == Sum(coins)
  {
    if |coins| > 0 {
      InputsTotal(u, coins[..|coins| - 1], owner, tip, maturity, key, signature);
      var inputs := InputsFor(coins, key, signature);
      assert inputs[..|inputs| - 1] == InputsFor(coins[..|coins| - 1], key, signature);
    }
  }

  // ---------------------------------------------------------------- building

  /** The transaction that spends `coins` on `payments`, with the rest split into change. */
  function Assembled(
    c: Crypto, args: SpendArgs, payments: seq<TxOutput>, coins: seq<Unspent>, data: Option<string>,
    split: int): Transaction {
    var own := c.deriveAddress(args.keys.publicKey);
    var change := Sum(coins) - TotalOut(payments) - args.fee;
    var pieces := Pieces(change, split);
    Sign(c, args.keys,
         TxBody(InputsFor(coins, args.keys.publicKey, 0), payments + Change(own, change, pieces, pieces),
           args.timestamp, args.fee, data))
  }

  function Built(
    c: Crypto, args: SpendArgs, payments: seq<TxOutput>, minChange: int, data: Option<string>,
    split: int): Option<Transaction> {
    if !Owned(args.unspent, c.deriveAddress(args.keys.publicKey)) then None else
    var coins := Selected(Spendable(args.unspent, args.tipHeight, args.coinbaseMaturity),
      TotalOut(payments) + args.fee + minChange);
    if coins.None? then None else Some(Assembled(c, args, payments, coins.value, data, split))
  }

  method FilterMature(s: seq<Unspent>, tipHeight: int, coinbaseMaturity: int) returns (r: seq<Unspent>)
    ensures r == Spendable(s, tipHeight, coinbaseMaturity)
  {
    r := [];
    for i := 0 to |s|
      invariant r == Spendable(s[..i], tipHeight, coinbaseMaturity)
    {
      TakeOneMore(s, i);
      if IsMature(s[i], tipHeight, coinbaseMaturity) {
        r := r + [s[i]];
      }
    }
    assert s[..|s|] == s;
  }

  method WithChange(payments: seq<TxOutput>, own: Address, change: int, pieces: nat) returns (outputs: seq<TxOutput>)
    ensures outputs == payments + Change(own, change, pieces, pieces)
  {
    hide Piece;
    outputs := payments;
    for i := 0 to pieces
      invariant outputs == payments + Change(own, change, pieces, i)
    {
      outputs := outputs + [TxOutput(own, Piece(change, pieces, i))];
    }
  }

  method BuildSigned(
    c: Crypto, args: SpendArgs, payments: seq<TxOutput>, minChange: int, data: Option<string>, split: int)
    returns (r: Option<Transaction>)
    ensures r == Built(c, args, payments, minChange, data, split)
  {
    hide Sum, Spendable, Selected, Change, Sign, Pieces, TotalOut, InputsFor;
    var own := c.deriveAddress(args.keys.publicKey);
    if i :| 0 <= i < |args.unspent| && args.unspent[i].entry.address != own {
      return None;
    }
    var spendable := FilterMature(args.unspent, args.tipHeight, args.coinbaseMaturity);
    var required := TotalOut(payments) + args.fee;
    var chosen := SelectCoins(spendable, required + minChange);
    if chosen.None? {
      return None;
    }
    var change := Sum(chosen.value) - required;
    var outputs := WithChange(payments, own, change, Pieces(change, split));
    var body := TxBody(InputsFor(chosen.value, args.keys.publicKey, 0), outputs, args.timestamp, args.fee, data);
    return Some(Sign(c, args.keys, body));
  }

  /** What a caller must hand in for the result to be a transaction at all. */
  predicate Sensible(args: SpendArgs, payments: seq<TxOutput>, minChange: int, data: Option<string>) {
    && (forall i :: 0 <= i < |payments| ==> payments[i].amount > 0)
    && args.fee >= 0 && minChange >= 0 && (0 < |payments| || 1 <= minChange)
    && (data.Some? ==> WellFormedData(data.value))
  }

  lemma {:induction false} PaymentsPositive(payments: seq<TxOutput>)
    requires forall i :: 0 <= i < |payments| ==> payments[i].amount > 0
    ensures TotalOut(payments) >= |payments|
  {
    if |payments| > 0 {
      PaymentsPositive(payments[..|payments| - 1]);
    }
  }

  lemma {:induction false} ChosenCoins(u: Utxos, s: seq<Unspent>, owner: Address, tip: int, maturity: int, target: int)
    requires Matches(u, s) && Owned(s, owner) && Selected(Spendable(s, tip, maturity), target).Some?
    ensures var coins := Selected(Spendable(s, tip, maturity), target).value;
            Spends(u, coins, owner, tip, maturity) && DistinctCoins(coins) && Sum(coins) >= target
  {
    var spendable := Spendable(s, tip, maturity);
    var coins := Selected(spendable, target).value;
    var other := Unspent(Outpoint(0, 0), UtxoEntry("", 0, 0, false));
    SpendableCoins(u, s, owner, tip, maturity, other);
    SortedCoins(u, spendable, owner, tip, maturity, other);
    assert forall i :: 0 <= i < |coins| ==> coins[i] == Sorted(spendable)[i];
  }

  /** The coins pay for the outputs and the fee to the unit, and the change goes back in positive pieces. */
  lemma {:induction false} AssembledBalances(
    c: Crypto, args: SpendArgs, payments: seq<TxOutput>, coins: seq<Unspent>, data: Option<string>, split: int)
    requires Sum(coins) >= TotalOut(payments) + args.fee
    ensures var tx := Assembled(c, args, payments, coins, data, split);
            && TotalOut(tx.outputs) + tx.fee == Sum(coins)
            && payments <= tx.outputs
            && forall i :: |payments| <= i < |tx.outputs| ==>
                 tx.outputs[i].amount > 0 && tx.outputs[i].address == c.deriveAddress(args.keys.publicKey)
  {
    var own := c.deriveAddress(args.keys.publicKey);
    var change := Sum(coins) - TotalOut(payments) - args.fee;
    ChangeExact(own, change, split);
    TotalOutConcat(payments, Change(own, change, Pieces(change, split), Pieces(change, split)));
  }

  /** Whatever the wallet builds from coins that match the UTXO set is valid in the next block. */
  lemma {:induction false} BuiltIsValid(
    r: SpendRules, u: Utxos, args: SpendArgs, payments: seq<TxOutput>, minChange: int, data: Option<string>, split: int)
    requires Agrees(r.crypto, args.keys) && r.coinbaseMaturity == args.coinbaseMaturity
    requires Matches(u, args.unspent) && Sensible(args, payments, minChange, data)
    requires Built(r.crypto, args, payments, minChange, data, split).Some?
    ensures var tx := Built(r.crypto, args, payments, minChange, data, split).value;
            && !tx.IsCoinbase() && ValidTx(r, u, tx, args.tipHeight + 1)
            && Funded(u, tx) && TotalIn(u, tx.inputs) == TotalOut(tx.outputs) + tx.fee
  {
    hide Sum, Spendable, Selected, Sorted, Change, Pieces, TotalOut, ValidTx, TotalIn, WellFormedData;
    var own := r.crypto.deriveAddress(args.keys.publicKey);
    var target := TotalOut(payments) + args.fee + minChange;
    ChosenCoins(u, args.unspent, own, args.tipHeight, args.coinbaseMaturity, target);
    var coins := Selected(Spendable(args.unspent, args.tipHeight, args.coinbaseMaturity), target).value;
    PaymentsPositive(payments);
    SumOfNone(coins);
    AssembledBalances(r.crypto, args, payments, coins, data, split);
    var tx := Assembled(r.crypto, args, payments, coins, data, split);
    var inputs := InputsFor(coins, args.keys.publicKey, 0);
    InputsTotal(u, coins, own, args.tipHeight, args.coinbaseMaturity, args.keys.publicKey, 0);
    var body := TxBody(inputs, tx.outputs, args.timestamp, args.fee, data);
    assert tx == Sign(r.crypto, args.keys, body);
    SomeOutput(tx.outputs, |payments|, args.fee, Sum(coins));
    SignedIsValid(r, u, args.keys, body, args.tipHeight + 1);
    ValidIsFunded(r, u, tx, args.tipHeight + 1);
  }

  lemma {:induction false} SumOfNone(coins: seq<Unspent>)
    ensures |coins| == 0 ==> Sum(coins) == 0
  {
  }

  lemma {:induction false} SomeOutput(outputs: seq<TxOutput>, paid: nat, fee: int, total: int)
    requires TotalOut(outputs) + fee == total && paid <= |outputs| && (paid > 0 || total > fee)
    ensures |outputs| > 0
  {
  }

  /** No choice of mature coins that covers the payments, fee and minimum change has fewer inputs. */
  lemma {:induction false} BuiltUsesFewestInputs(
    c: Crypto, args: SpendArgs, payments: seq<TxOutput>, minChange: int, data: Option<string>, split: int,
    choice: seq<Unspent>)
    requires Owned(args.unspent, c.deriveAddress(args.keys.publicKey))
    requires multiset(choice) <= multiset(Spendable(args.unspent, args.tipHeight, args.coinbaseMaturity))
    requires Sum(choice) >= TotalOut(payments) + args.fee + minChange
    ensures Built(c, args, payments, minChange, data, split).Some?
    ensures |Built(c, args, payments, minChange, data, split).value.inputs| <= |choice|
  {
    SelectionIsFewest(Spendable(args.unspent, args.tipHeight, args.coinbaseMaturity),
      TotalOut(payments) + args.fee + minChange, choice);
  }

  // ---------------------------------------------------------------- payments and anchors

  function Payment(c: Crypto, args: SpendArgs, to: Address, amount: int): Option<Transaction> {
    if amount <= 0 || args.fee < 0 then None else Built(c, args, [TxOutput(to, amount)], 0, None, 1)
  }

  function AnchorTransaction(c: Crypto, args: SpendArgs, data: string, split: int): Option<Transaction> {
    if !WellFormedData(data) || args.fee < 0 then None else Built(c, args, [], 1, Some(data), split)
  }

  /** A payment pays the recipient in full, balances and is valid in the next block. */
  lemma {:induction false} PaymentIsValid(r: SpendRules, u: Utxos, args: SpendArgs, to: Address, amount: int)
    requires Agrees(r.crypto, args.keys) && r.coinbaseMaturity == args.coinbaseMaturity && Matches(u, args.unspent)
    requires Payment(r.crypto, args, to, amount).Some?
    ensures var tx := Payment(r.crypto, args, to, amount).value;
            && !tx.IsCoinbase() && ValidTx(r, u, tx, args.tipHeight + 1)
            && 0 < |tx.outputs| && tx.outputs[0] == TxOutput(to, amount)
  {
    hide ValidTx, Selected, Spendable, TotalOut, Sum;
    BuiltIsValid(r, u, args, [TxOutput(to, amount)], 0, None, 1);
    BuiltPays(r.crypto, args, [TxOutput(to, amount)], 0, None, 1);
  }

  /** An anchor carries its record and is valid in the next block. */
  lemma {:induction false} AnchorIsValid(r: SpendRules, u: Utxos, args: SpendArgs, data: string, split: int)
    requires Agrees(r.crypto, args.keys) && r.coinbaseMaturity == args.coinbaseMaturity && Matches(u, args.unspent)
    requires AnchorTransaction(r.crypto, args, data, split).Some?
    ensures var tx := AnchorTransaction(r.crypto, args, data, split).value;
            && !tx.IsCoinbase() && ValidTx(r, u, tx, args.tipHeight + 1) && tx.data == Some(data)
            && forall i :: 0 <= i < |tx.outputs| ==>
                 tx.outputs[i].amount > 0 && tx.outputs[i].address == r.crypto.deriveAddress(args.keys.publicKey)
  {
    hide ValidTx, Selected, Spendable, TotalOut, Sum;
    BuiltIsValid(r, u, args, [], 1, Some(data), split);
    BuiltPays(r.crypto, args, [], 1, Some(data), split);
  }

  lemma {:induction false} BuiltPays(
    c: Crypto, args: SpendArgs, payments: seq<TxOutput>, minChange: int, data: Option<string>, split: int)
    requires minChange >= 0 && Built(c, args, payments, minChange, data, split).Some?
    ensures var tx := Built(c, args, payments, minChange, data, split).value;
            && payments <= tx.outputs && tx.data == data
            && forall i :: |payments| <= i < |tx.outputs| ==>
                 tx.outputs[i].amount > 0 && tx.outputs[i].address == c.deriveAddress(args.keys.publicKey)
  {
    hide Spendable, TotalOut, Sum, Owned, Sorted, Prefix;
    var coins := Selected(Spendable(args.unspent, args.tipHeight, args.coinbaseMaturity),
      TotalOut(payments) + args.fee + minChange).value;
    AssembledBalances(c, args, payments, coins, data, split);
  }

  // ---------------------------------------------------------------- raising the fee

  /** Position of the last output to `own`, or -1. */
  function LastOwn(outputs: seq<TxOutput>, own: Address): (i: int)
    ensures -1 <= i < |outputs|
    ensures i >= 0 ==> outputs[i].address == own
    ensures forall k :: i < k < |outputs| ==> outputs[k].address != own
  {
    if |outputs| == 0 then -1
    else if outputs[|outputs| - 1].address == own then |outputs| - 1
    else LastOwn(outputs[..|outputs| - 1], own)
  }

  /** Output `i` lowered by `extra`, and left out when nothing remains. */
  function Reduced(outputs: seq<TxOutput>, i: nat, extra: int): seq<TxOutput>
    requires i < |outputs|
  {
    if outputs[i].amount == extra then outputs[..i] + outputs[i + 1..]
    else outputs[i := outputs[i].(amount := outputs[i].amount - extra)]
  }

  function Bumped(c: Crypto, keys: KeyPair, original: Transaction, newFee: int, timestamp: int): Option<Transaction> {
    if newFee <= original.fee
       || (exists i :: 0 <= i < |original.inputs| && original.inputs[i].publicKey != keys.publicKey) then None else
    var at := LastOwn(original.outputs, c.deriveAddress(keys.publicKey));
    if at < 0 || original.outputs[at].amount < newFee - original.fee then None else
    var outputs := Reduced(original.outputs, at, newFee - original.fee);
    if |outputs| == 0 then None else
    Some(Sign(c, keys, TxBody(Resigned(original.inputs, 0), outputs, timestamp, newFee, original.data)))
  }

  lemma {:induction false} ReducedTotal(outputs: seq<TxOutput>, i: nat, extra: int)
    requires i < |outputs|
    ensures TotalOut(Reduced(outputs, i, extra)) == TotalOut(outputs) - extra
  {
    var a, o, b := outputs[..i], outputs[i], outputs[i + 1..];
    assert outputs == a + [o] + b;
    TotalOutConcat(a + [o], b);
    TotalOutAppend(a, o);
    TotalOutConcat(a, b);
    var less := o.(amount := o.amount - extra);
    TotalOutConcat(a + [less], b);
    TotalOutAppend(a, less);
    assert outputs[i := less] == a + [less] + b;
  }

  /** A bump keeps the inputs, the record and what outputs and fee add up to; only the last own output changes. */
  lemma {:induction false} BumpConserves(c: Crypto, keys: KeyPair, original: Transaction, newFee: int, timestamp: int)
    requires Bumped(c, keys, original, newFee, timestamp).Some?
    ensures var tx := Bumped(c, keys, original, newFee, timestamp).value;
            var at := LastOwn(original.outputs, c.deriveAddress(keys.publicKey));
            && TotalOut(tx.outputs) + tx.fee == TotalOut(original.outputs) + original.fee
            && tx.fee == newFee && tx.data == original.data && Outpoints(tx.inputs) == Outpoints(original.inputs)
            && at >= 0 && tx.outputs[..at] == original.outputs[..at]
            && tx.outputs[|tx.outputs| - (|original.outputs| - 1 - at)..] == original.outputs[at + 1..]
  {
    var at := LastOwn(original.outputs, c.deriveAddress(keys.publicKey));
    ReducedTotal(original.outputs, at, newFee - original.fee);
  }

  lemma {:induction false} LastIsOwn(outputs: seq<TxOutput>, own: Address)
    requires |outputs| > 0 && outputs[|outputs| - 1].address == own
    ensures LastOwn(outputs, own) == |outputs| - 1
  {
  }

  /** Bumping a payment leaves what the recipient gets alone exactly when the payment has change. */
  lemma {:induction false} BumpKeepsPayment(
    c: Crypto, args: SpendArgs, to: Address, amount: int, newFee: int, timestamp: int)
    requires Payment(c, args, to, amount).Some?
    requires Bumped(c, args.keys, Payment(c, args, to, amount).value, newFee, timestamp).Some?
    ensures var tx := Payment(c, args, to, amount).value;
            var bumped := Bumped(c, args.keys, tx, newFee, timestamp).value;
            0 < |bumped.outputs| && (bumped.outputs[0] == TxOutput(to, amount) <==> |tx.outputs| > 1)
  {
    hide Selected, Spendable, TotalOut, Sum, Sign;
    var tx, own := Payment(c, args, to, amount).value, c.deriveAddress(args.keys.publicKey);
    BuiltPays(c, args, [TxOutput(to, amount)], 0, None, 1);
    PaysFirst(tx.outputs, TxOutput(to, amount));
    if |tx.outputs| > 1 {
      LastIsOwn(tx.outputs, own);
    }
    SignKeeps(c, args.keys, TxBody(Resigned(tx.inputs, 0),
      Reduced(tx.outputs, LastOwn(tx.outputs, own), newFee - tx.fee),
                                   timestamp, newFee, tx.data));
  }

  lemma {:induction false} LoneCoin(coin: Unspent, tip: int, maturity: int, target: int)
    requires IsMature(coin, tip, maturity) && 0 < target <= coin.entry.amount
    ensures Selected(Spendable([coin], tip, maturity), target) == Some([coin]) && Sum([coin]) == coin.entry.amount
  {
    assert [coin][..0] == [] && [coin][..1] == [coin];
    assert Spendable([], tip, maturity) == [] && Sorted([]) == [] && Sum([]) == 0;
    assert Spendable([coin], tip, maturity) == [coin];
    assert Sorted([coin]) == [coin];
    PrefixIs([coin], target, 1);
  }

  lemma {:induction false} NoChange(c: Crypto, args: SpendArgs, payment: TxOutput, coin: Unspent)
    requires coin.entry.amount == payment.amount + args.fee
    ensures Sum([coin]) == coin.entry.amount && TotalOut([payment]) == payment.amount
    ensures var tx := Assembled(c, args, [payment], [coin], None, 1);
            tx.outputs == [payment] && tx.fee == args.fee && |tx.inputs| == 1
              && tx.inputs[0].publicKey == args.keys.publicKey
  {
    assert [coin][..0] == [] && [payment][..0] == [];
    assert Sum([]) == 0 && TotalOut([]) == 0;
    assert [payment] + [] == [payment];
  }

  /**
   * Whoever pays their own address with a coin that leaves no change has the payment itself shrunk by the bump, for
   * every increase below it.
   */
  lemma {:induction false} SelfPaymentShrinks(
    c: Crypto, keys: KeyPair, coin: Unspent, amount: int, fee: int, extra: int, timestamp: int)
    requires 0 < extra < amount && 0 <= fee && !coin.entry.isCoinbase
    requires coin.entry.address == c.deriveAddress(keys.publicKey) && coin.entry.amount == amount + fee
    ensures var own, args := c.deriveAddress(keys.publicKey), SpendArgs(keys, [coin], fee, timestamp, 0, 0);
            && Payment(c, args, own, amount).Some?
            && (var tx := Payment(c, args, own, amount).value;
                && Bumped(c, keys, tx, fee + extra, timestamp).Some?
                && Bumped(c, keys, tx, fee + extra, timestamp).value.outputs == [TxOutput(own, amount - extra)])
  {
    hide Selected, Spendable, Sum, TotalOut, Assembled, Sign;
    var own, args := c.deriveAddress(keys.publicKey), SpendArgs(keys, [coin], fee, timestamp, 0, 0);
    var payment := TxOutput(own, amount);
    NoChange(c, args, payment, coin);
    LoneCoin(coin, 0, 0, amount + fee);
    var tx := Payment(c, args, own, amount).value;
    LastIsOwn(tx.outputs, own);
    var outputs := Reduced(tx.outputs, 0, extra);
    assert outputs == [TxOutput(own, amount - extra)];
    SignKeeps(c, keys, TxBody(Resigned(tx.inputs, 0), outputs, timestamp, fee + extra, tx.data));
  }

  lemma {:induction false} PaysFirst(outputs: seq<TxOutput>, payment: TxOutput)
    requires [payment] <= outputs
    ensures 0 < |outputs| && outputs[0] == payment
  {
  }

  lemma {:induction false} SignKeeps(c: Crypto, keys: KeyPair, body: TxBody)
    ensures Sign(c, keys, body).outputs == body.outputs
  {
  }

  /** What a bump is made of. */
  lemma {:induction false} BumpedParts(c: Crypto, keys: KeyPair, original: Transaction, newFee: int, timestamp: int)
    requires Bumped(c, keys, original, newFee, timestamp).Some?
    ensures var at, extra := LastOwn(original.outputs, c.deriveAddress(keys.publicKey)), newFee - original.fee;
            && 0 <= at && 0 < extra <= original.outputs[at].amount && 0 < |Reduced(original.outputs, at, extra)|
            && Bumped(c, keys, original, newFee, timestamp).value
               == Sign(c, keys, TxBody(Resigned(original.inputs, 0), Reduced(original.outputs, at, extra), timestamp,
                 newFee, original.data))
    ensures forall i :: 0 <= i < |original.inputs| ==> original.inputs[i].publicKey == keys.publicKey
  {
    hide Sign, Reduced;
  }

  lemma {:induction false} OwnInputs(r: SpendRules, u: Utxos, keys: KeyPair, original: Transaction, height: int)
    requires ValidTx(r, u, original, height) && !original.IsCoinbase()
    requires forall i :: 0 <= i < |original.inputs| ==> original.inputs[i].publicKey == keys.publicKey
    ensures forall i :: 0 <= i < |original.inputs| ==>
              && original.inputs[i].outpoint in u
              && u[original.inputs[i].outpoint].address == r.crypto.deriveAddress(keys.publicKey)
              && Mature(r, u[original.inputs[i].outpoint], height)
  {
    hide ValidStructure, TotalIn, TotalOut, Mature;
    forall i | 0 <= i < |original.inputs|
      ensures original.inputs[i].outpoint in u
      ensures u[original.inputs[i].outpoint].address == r.crypto.deriveAddress(keys.publicKey)
      ensures Mature(r, u[original.inputs[i].outpoint], height)
    {
      assert InputAllowed(r, u, Payload(original.Body()), original.inputs[i], height);
    }
  }

  /** Bumping a valid transaction gives a valid one. */
  lemma {:induction false} BumpIsValid(
    r: SpendRules, u: Utxos, keys: KeyPair, original: Transaction, newFee: int, timestamp: int, height: int)
    requires Agrees(r.crypto, keys) && ValidTx(r, u, original, height) && !original.IsCoinbase()
    requires Bumped(r.crypto, keys, original, newFee, timestamp).Some?
    ensures ValidTx(r, u, Bumped(r.crypto, keys, original, newFee, timestamp).value, height)
  {
    BumpedParts(r.crypto, keys, original, newFee, timestamp);
    hide Bumped, LastOwn, Reduced, Sign, WellFormedData, TotalOut, TotalIn, Agrees;
    var at := LastOwn(original.outputs, r.crypto.deriveAddress(keys.publicKey));
    var extra := newFee - original.fee;
    ReducedTotal(original.outputs, at, extra);
    var inputs, outputs := Resigned(original.inputs, 0), Reduced(original.outputs, at, extra);
    ReducedPositive(original.outputs, at, extra);
    ValidIsFunded(r, u, original, height);
    OwnInputs(r, u, keys, original, height);
    SameInputs(u, original.inputs, inputs);
    SignedIsValid(r, u, keys, TxBody(inputs, outputs, timestamp, newFee, original.data), height);
  }

  lemma {:induction false} ReducedPositive(outputs: seq<TxOutput>, at: nat, extra: int)
    requires at < |outputs| && outputs[at].amount >= extra && forall i :: 0 <= i < |outputs| ==> 0 < outputs[i].amount
    ensures forall i :: 0 <= i < |Reduced(outputs, at, extra)| ==> 0 < Reduced(outputs, at, extra)[i].amount
  {
  }
}
