/**
 * The text a transaction id is the digest of (src/ledger/transaction.ts:16-18, 46-62). Fields are joined with `:`,
 * `,` and `|`. All but the output addresses are hexadecimal or decimal, so the text gives back everything except
 * how the outputs are divided; and it gives back that too as long as no address reads like the end of one output
 * and the start of another.
 */
module Spelling {

  import opened Ledger

  // ---------------------------------------------------------------- decimals

  predicate IsDigit(c: char) {
    '0' <= c <= '9'
  }

  function Digit(d: nat): (c: char)
    requires d < 10
    ensures IsDigit(c)
  {
    ['0', '1', '2', '3', '4', '5', '6', '7', '8', '9'][d]
  }

  function Digits(n: nat): (s: string)
    ensures 0 < |s| && forall i :: 0 <= i < |s| ==> IsDigit(s[i])
  {
    if n < 10 then [Digit(n)] else Digits(n / 10) + [Digit(n % 10)]
  }

  function Decimal(n: int): (s: string)
    ensures 0 < |s| && forall i :: 0 <= i < |s| ==> IsDigit(s[i]) || s[i] == '-'
  {
    if n < 0 then "-" + Digits(-n) else Digits(n)
  }

  lemma {:induction false} DigitDecides(a: nat, b: nat)
    requires a < 10 && b < 10 && Digit(a) == Digit(b)
    ensures a == b
  {
  }

  lemma {:induction false} LastDigit(n: nat)
    ensures Digits(n)[|Digits(n)| - 1] == Digit(n % 10)
    ensures |Digits(n)| == 1 <==> n < 10
    ensures 10 <= n ==> Digits(n)[..|Digits(n)| - 1] == Digits(n / 10)
  {
  }

  lemma {:induction false} DigitsDecide(a: nat, b: nat)
    requires Digits(a) == Digits(b)
    ensures a == b
  {
    hide Digits, Digit;
    LastDigit(a);
    LastDigit(b);
    DigitDecides(a % 10, b % 10);
    if 10 <= a {
      DigitsDecide(a / 10, b / 10);
    }
  }

  lemma {:induction false} DecimalDecides(a: int, b: int)
    requires Decimal(a) == Decimal(b)
    ensures a == b
  {
    hide Digits;
    assert Decimal(a)[0] == '-' <==> a < 0;
    assert Decimal(b)[0] == '-' <==> b < 0;
    if a < 0 {
      assert Decimal(a)[1..] == Digits(-a) && Decimal(b)[1..] == Digits(-b);
      DigitsDecide(-a, -b);
    } else {
      DigitsDecide(a, b);
    }
  }

  lemma {:induction false} DecimalIsClean(n: int)
    ensures ':' !in Decimal(n) && ',' !in Decimal(n) && '|' !in Decimal(n)
  {
  }

  // ---------------------------------------------------------------- separators

  /** A string is cut in one way at its first separator. */
  lemma {:induction false} CutFirst(a: string, x: string, b: string, y: string, c: char)
    requires a + [c] + x == b + [c] + y && c !in a && c !in b
    ensures a == b && x == y
  {
    var s := a + [c] + x;
    assert s[|a|] == c && s[|b|] == c;
    assert forall i :: 0 <= i < |a| ==> s[i] == a[i];
    assert forall i :: 0 <= i < |b| ==> s[i] == b[i];
    assert |a| == |b|;
    assert a == s[..|a|] && b == s[..|b|] && x == s[|a| + 1..] && y == s[|b| + 1..];
  }

  /** And in one way at its last. */
  lemma {:induction false} CutLast(x: string, a: string, y: string, b: string, c: char)
    requires x + [c] + a == y + [c] + b && c !in a && c !in b
    ensures a == b && x == y
  {
    var s := x + [c] + a;
    assert s[|x|] == c && s[|y|] == c;
    assert forall i :: |x| < i < |s| ==> s[i] == a[i - |x| - 1];
    assert forall i :: |y| < i < |s| ==> s[i] == b[i - |y| - 1];
    assert |x| == |y|;
    assert x == s[..|x|] && y == s[..|y|] && a == s[|x| + 1..] && b == s[|y| + 1..];
  }

  function Join(parts: seq<string>, c: char): string {
    if |parts| == 0 then "" else if |parts| == 1 then parts[0]
    else Join(parts[..|parts| - 1], c) + [c] + parts[|parts| - 1]
  }

  predicate Parts(parts: seq<string>, c: char) {
    forall i :: 0 <= i < |parts| ==> 0 < |parts[i]| && c !in parts[i]
  }

  lemma {:induction false} JoinHolds(parts: seq<string>, c: char)
    requires Parts(parts, c)
    ensures |parts| == 0 <==> Join(parts, c) == ""
    ensures c in Join(parts, c) <==> 1 < |parts|
  {
  }

  lemma {:induction false} JoinDecides(a: seq<string>, b: seq<string>, c: char)
    requires Parts(a, c) && Parts(b, c) && Join(a, c) == Join(b, c)
    ensures a == b
    decreases |a|
  {
    JoinHolds(a, c);
    JoinHolds(b, c);
    if 1 < |a| {
      var n, m := |a| - 1, |b| - 1;
      CutLast(Join(a[..n], c), a[n], Join(b[..m], c), b[m], c);
      JoinDecides(a[..n], b[..m], c);
      assert a == a[..n] + [a[n]] && b == b[..m] + [b[m]];
    }
  }

  lemma {:induction false} JoinConcat(a: seq<string>, b: seq<string>, c: char)
    requires 0 < |a| && 0 < |b|
    ensures Join(a + b, c) == Join(a, c) + [c] + Join(b, c)
    decreases |b|
  {
    var n := |b| - 1;
    assert (a + b)[..|a + b| - 1] == a + b[..n];
    if n == 0 {
      assert a + b[..0] == a;
    } else {
      JoinConcat(a, b[..n], c);
    }
  }

  // ---------------------------------------------------------------- inputs

  /** How digests, keys and signatures are written. */
  datatype Hexing = Hexing(hash: Hash -> string, key: Key -> string, signature: Signature -> string)

  predicate AllHex(s: string) {
    forall i :: 0 <= i < |s| ==> IsLowerHex(s[i])
  }

  /** In hexadecimal, and differently for different values. */
  ghost predicate Writes(h: Hexing) {
    && (forall x :: AllHex(h.hash(x))) && (forall x, y :: h.hash(x) == h.hash(y) ==> x == y)
    && (forall x :: AllHex(h.key(x))) && (forall x, y :: h.key(x) == h.key(y) ==> x == y)
    && (forall x :: AllHex(h.signature(x))) && (forall x, y :: h.signature(x) == h.signature(y) ==> x == y)
  }

  lemma {:induction false} HexIsClean(s: string)
    requires AllHex(s)
    ensures ':' !in s && ',' !in s && '|' !in s
  {
  }

  function InputText(h: Hexing, input: TxInput): string {
    h.hash(input.outpoint.txId) + [':'] + (Decimal(input.outpoint.index) + [':']
      + (h.signature(input.signature) + [':'] + h.key(input.publicKey)))
  }

  lemma {:induction false} InputIsClean(h: Hexing, input: TxInput)
    requires Writes(h)
    ensures 0 < |InputText(h, input)| && ',' !in InputText(h, input) && '|' !in InputText(h, input)
  {
    HexIsClean(h.hash(input.outpoint.txId));
    DecimalIsClean(input.outpoint.index);
    HexIsClean(h.signature(input.signature));
    HexIsClean(h.key(input.publicKey));
    hide Decimal, AllHex;
  }

  lemma {:induction false} InputDecides(h: Hexing, a: TxInput, b: TxInput)
    requires Writes(h) && InputText(h, a) == InputText(h, b)
    ensures a == b
  {
    hide Decimal, AllHex;
    HexIsClean(h.hash(a.outpoint.txId));
    HexIsClean(h.hash(b.outpoint.txId));
    CutFirst(h.hash(a.outpoint.txId), InputRest(h, a), h.hash(b.outpoint.txId), InputRest(h, b), ':');
    DecimalIsClean(a.outpoint.index);
    DecimalIsClean(b.outpoint.index);
    var x := h.signature(a.signature) + [':'] + h.key(a.publicKey);
    var y := h.signature(b.signature) + [':'] + h.key(b.publicKey);
    CutFirst(Decimal(a.outpoint.index), x, Decimal(b.outpoint.index), y, ':');
    DecimalDecides(a.outpoint.index, b.outpoint.index);
    HexIsClean(h.signature(a.signature));
    HexIsClean(h.signature(b.signature));
    CutFirst(h.signature(a.signature), h.key(a.publicKey), h.signature(b.signature), h.key(b.publicKey), ':');
  }

  function InputRest(h: Hexing, input: TxInput): string {
    Decimal(input.outpoint.index) + [':'] + (h.signature(input.signature) + [':'] + h.key(input.publicKey))
  }

  function InputTexts(h: Hexing, inputs: seq<TxInput>): (r: seq<string>) {
    seq(|inputs|, i requires 0 <= i < |inputs| => InputText(h, inputs[i]))
  }

  lemma {:induction false} InputsDecide(h: Hexing, a: seq<TxInput>, b: seq<TxInput>)
    requires Writes(h) && Join(InputTexts(h, a), ',') == Join(InputTexts(h, b), ',')
    ensures a == b
  {
    hide InputText, Join, Writes;
    var ta, tb := InputTexts(h, a), InputTexts(h, b);
    forall i | 0 <= i < |ta| ensures 0 < |ta[i]| && ',' !in ta[i] {
      InputIsClean(h, a[i]);
    }
    forall i | 0 <= i < |tb| ensures 0 < |tb[i]| && ',' !in tb[i] {
      InputIsClean(h, b[i]);
    }
    JoinDecides(ta, tb, ',');
    assert |ta| == |a| && |tb| == |b|;
    forall i | 0 <= i < |a| ensures a[i] == b[i] {
      assert ta[i] == InputText(h, a[i]) && tb[i] == InputText(h, b[i]);
      InputDecides(h, a[i], b[i]);
    }
  }

  lemma {:induction false} JoinAvoids(parts: seq<string>, c: char, d: char)
    requires c != d && forall i :: 0 <= i < |parts| ==> d !in parts[i]
    ensures d !in Join(parts, c)
  {
    if 1 < |parts| {
      JoinAvoids(parts[..|parts| - 1], c, d);
    }
  }

  // ---------------------------------------------------------------- outputs

  function OutputText(o: TxOutput): (s: string)
    ensures 0 < |s|
  {
    o.address + [':'] + Decimal(o.amount)
  }

  function OutputTexts(outputs: seq<TxOutput>): (r: seq<string>)
    ensures |r| == |outputs|
  {
    seq(|outputs|, i requires 0 <= i < |outputs| => OutputText(outputs[i]))
  }

  function OutputsText(outputs: seq<TxOutput>): string {
    Join(OutputTexts(outputs), ',')
  }

  /** `a` reads like the end of one output and the start of another. */
  predicate ReadsAs(a: Address, p: Address, n: int, q: Address) {
    a == p + [':'] + Decimal(n) + [','] + q
  }

  ghost predicate Plain(a: Address) {
    !exists p, n, q :: ReadsAs(a, p, n, q)
  }

  ghost predicate PlainOutputs(outputs: seq<TxOutput>) {
    forall i :: 0 <= i < |outputs| ==> Plain(outputs[i].address)
  }

  lemma {:induction false} OutputsConcat(a: seq<TxOutput>, b: seq<TxOutput>)
    requires 0 < |a| && 0 < |b|
    ensures OutputsText(a + b) == OutputsText(a) + [','] + OutputsText(b)
  {
    assert OutputTexts(a + b) == OutputTexts(a) + OutputTexts(b);
    JoinConcat(OutputTexts(a), OutputTexts(b), ',');
  }

  lemma {:induction false} OneOutput(o: TxOutput)
    ensures OutputsText([o]) == OutputText(o)
  {
  }

  lemma {:induction false} TwoOutputs(a: TxOutput, b: TxOutput)
    ensures OutputsText([a, b]) == OutputText(a) + [','] + OutputText(b)
  {
    OutputsConcat([a], [b]);
    OneOutput(a);
    OneOutput(b);
    assert [a] + [b] == [a, b];
  }

  /** Two outputs have the text of one whose address runs over both. */
  lemma {:induction false} OneReadsAsTwo(p: Address, n: int, q: Address, m: int)
    ensures OutputsText([TxOutput(p, n), TxOutput(q, m)])
      == OutputsText([TxOutput(p + [':'] + Decimal(n) + [','] + q, m)])
  {
    hide Decimal;
    TwoOutputs(TxOutput(p, n), TxOutput(q, m));
    OneOutput(TxOutput(p + [':'] + Decimal(n) + [','] + q, m));
    assert p + [':'] + Decimal(n) + [','] + (q + [':'] + Decimal(m))
      == p + [':'] + Decimal(n) + [','] + q + [':'] + Decimal(m);
  }

  lemma {:induction false} InContext(before: seq<TxOutput>, a: seq<TxOutput>, b: seq<TxOutput>, after: seq<TxOutput>)
    requires OutputsText(a) == OutputsText(b) && 0 < |a| && 0 < |b|
    ensures OutputsText(before + a + after) == OutputsText(before + b + after)
  {
    hide OutputsText;
    if before != [] {
      OutputsConcat(before, a);
      OutputsConcat(before, b);
    } else {
      assert before + a == a && before + b == b;
    }
    if after != [] {
      OutputsConcat(before + a, after);
      OutputsConcat(before + b, after);
    } else {
      assert before + a + after == before + a && before + b + after == before + b;
    }
  }

  /** Output `i` divided in two where its address reads like two. */
  function Divided(outputs: seq<TxOutput>, i: nat, p: Address, n: int, q: Address): seq<TxOutput>
    requires i < |outputs|
  {
    outputs[..i] + [TxOutput(p, n), TxOutput(q, outputs[i].amount)] + outputs[i + 1..]
  }

  lemma {:induction false} DividedText(outputs: seq<TxOutput>, i: nat, p: Address, n: int, q: Address)
    requires i < |outputs| && ReadsAs(outputs[i].address, p, n, q)
    ensures OutputsText(Divided(outputs, i, p, n, q)) == OutputsText(outputs)
  {
    hide OutputsText, Decimal;
    OneReadsAsTwo(p, n, q, outputs[i].amount);
    InContext(outputs[..i], [TxOutput(p, n), TxOutput(q, outputs[i].amount)], [outputs[i]], outputs[i + 1..]);
    assert outputs == outputs[..i] + [outputs[i]] + outputs[i + 1..];
  }

  /** The last two outputs run together. */
  function Merged(outputs: seq<TxOutput>): seq<TxOutput>
    requires 1 < |outputs|
  {
    var n := |outputs|;
    var a, b := outputs[n - 2], outputs[n - 1];
    outputs[..n - 2] + [TxOutput(a.address + [':'] + Decimal(a.amount) + [','] + b.address, b.amount)]
  }

  lemma {:induction false} MergedText(outputs: seq<TxOutput>)
    requires 1 < |outputs|
    ensures OutputsText(Merged(outputs)) == OutputsText(outputs)
  {
    hide OutputsText, Decimal;
    var n := |outputs|;
    var a, b := outputs[n - 2], outputs[n - 1];
    OneReadsAsTwo(a.address, a.amount, b.address, b.amount);
    var one := [TxOutput(a.address + [':'] + Decimal(a.amount) + [','] + b.address, b.amount)];
    InContext(outputs[..n - 2], [a, b], one, []);
    assert outputs == outputs[..n - 2] + [a, b] + [] && Merged(outputs) == outputs[..n - 2] + one + [];
  }

  // ---------------------------------------------------------------- what the outputs' text decides

  /** Where the text ends the address of the last output. */
  function LastRest(outputs: seq<TxOutput>): string
    requires 0 < |outputs|
  {
    var n := |outputs| - 1;
    if n == 0 then outputs[n].address else OutputsText(outputs[..n]) + [','] + outputs[n].address
  }

  lemma {:induction false} LastText(outputs: seq<TxOutput>)
    requires 0 < |outputs|
    ensures OutputsText(outputs) == LastRest(outputs) + [':'] + Decimal(outputs[|outputs| - 1].amount)
  {
    hide OutputsText, Decimal;
    var n := |outputs| - 1;
    var o := outputs[n];
    OneOutput(o);
    assert outputs == outputs[..n] + [o];
    if n > 0 {
      OutputsConcat(outputs[..n], [o]);
      assert OutputsText(outputs[..n]) + [','] + (o.address + [':'] + Decimal(o.amount))
          == OutputsText(outputs[..n]) + [','] + o.address + [':'] + Decimal(o.amount);
    } else {
      assert outputs == [o];
    }
  }

  lemma {:induction false} NoOutputs()
    ensures OutputsText([]) == ""
  {
  }

  lemma {:induction false} LastAmount(a: seq<TxOutput>, b: seq<TxOutput>)
    requires 0 < |a| && OutputsText(a) == OutputsText(b)
    ensures 0 < |b| && a[|a| - 1].amount == b[|b| - 1].amount && LastRest(a) == LastRest(b)
  {
    hide OutputsText, Decimal, LastRest;
    LastText(a);
    NoOutputs();
    if 0 < |b| {
      LastText(b);
      DecimalIsClean(a[|a| - 1].amount);
      DecimalIsClean(b[|b| - 1].amount);
      CutLast(LastRest(a), Decimal(a[|a| - 1].amount), LastRest(b), Decimal(b[|b| - 1].amount), ':');
      DecimalDecides(a[|a| - 1].amount, b[|b| - 1].amount);
    }
  }

  /** More than one output before the end makes the rest read as two. */
  lemma {:induction false} RestReadsAs(outputs: seq<TxOutput>)
    requires 1 < |outputs|
    ensures exists p, n, q :: ReadsAs(LastRest(outputs), p, n, q)
  {
    hide OutputsText, Decimal;
    var n := |outputs| - 1;
    LastText(outputs[..n]);
    assert ReadsAs(LastRest(outputs), LastRest(outputs[..n]), outputs[n - 1].amount, outputs[n].address);
  }

  /** If a text ends in `,a`, and what is before the last comma of another reading ends in a decimal, `a` reads as
      two. */
  lemma {:induction false} LongerReadsAs(x: string, a: string, z: string, m: int, b: string)
    requires x + [','] + a == z + [':'] + Decimal(m) + [','] + b && |b| < |a|
    ensures exists p, n, q :: ReadsAs(a, p, n, q)
  {
    var d := Decimal(m);
    DecimalIsClean(m);
    hide Decimal;
    var s := x + [','] + a;
    var y := z + [':'] + d;
    var k := |a| - |b| - 1;
    assert s == y + [','] + b;
    assert a == s[|x| + 1..] && |y| == |x| + 1 + k;
    assert forall i :: |z| <= i < |y| ==> s[i] == ([':'] + d)[i - |z|];
    assert s[|x|] == ',' && |x| < |z|;
    var p := a[..k - |d| - 1];
    assert a[k] == ',' && a[k + 1..] == b by {
      assert a[k] == s[|y|];
    }
    assert a[..k] == y[|x| + 1..];
    assert a[..k] == p + [':'] + d;
    assert a == a[..k] + [','] + b;
    assert ReadsAs(a, p, m, b);
  }

  /** Plain addresses: the text decides the outputs. */
  lemma {:induction false} PlainDecides(a: seq<TxOutput>, b: seq<TxOutput>)
    requires PlainOutputs(a) && PlainOutputs(b) && OutputsText(a) == OutputsText(b)
    ensures a == b
    decreases |a|
  {
    hide OutputsText, Decimal, ReadsAs;
    NoOutputs();
    if |a| == 0 {
      if 0 < |b| {
        LastText(b);
      }
      return;
    }
    LastAmount(a, b);
    var n, m := |a| - 1, |b| - 1;
    if 0 < n {
      RestReadsAs(a);
    }
    if 0 < m {
      RestReadsAs(b);
    }
    if 0 < n && 0 < m {
      LastCut(a, b);
      assert a == a[..n] + [a[n]] && b == b[..m] + [b[m]];
      PlainDecides(a[..n], b[..m]);
    }
    assert a[n] == b[m];
  }

  lemma {:induction false} LastCut(a: seq<TxOutput>, b: seq<TxOutput>)
    requires 1 < |a| && 1 < |b| && LastRest(a) == LastRest(b)
    requires Plain(a[|a| - 1].address) && Plain(b[|b| - 1].address)
    ensures a[|a| - 1].address == b[|b| - 1].address && OutputsText(a[..|a| - 1]) == OutputsText(b[..|b| - 1])
  {
    hide OutputsText, Decimal, ReadsAs;
    var n, m := |a| - 1, |b| - 1;
    var x, y := OutputsText(a[..n]), OutputsText(b[..m]);
    LastText(a[..n]);
    LastText(b[..m]);
    if |b[m].address| < |a[n].address| {
      LongerReadsAs(x, a[n].address, LastRest(b[..m]), b[m - 1].amount, b[m].address);
    }
    if |a[n].address| < |b[m].address| {
      LongerReadsAs(y, b[m].address, LastRest(a[..n]), a[n - 1].amount, a[n].address);
    }
    SameTail(x, a[n].address, y, b[m].address);
  }

  lemma {:induction false} SameTail(x: string, a: string, y: string, b: string)
    requires x + [','] + a == y + [','] + b && |a| == |b|
    ensures x == y && a == b
  {
    var s := x + [','] + a;
    assert x == s[..|x|] && y == s[..|y|] && a == s[|x| + 1..] && b == s[|y| + 1..];
  }

  // ---------------------------------------------------------------- when a spelling is the only one

  ghost predicate OnlySpelling(outputs: seq<TxOutput>) {
    forall other :: OutputsText(other) == OutputsText(outputs) ==> other == outputs
  }

  lemma {:induction false} NotPlain(outputs: seq<TxOutput>, i: nat)
    requires i < |outputs| && !Plain(outputs[i].address)
    ensures !OnlySpelling(outputs)
  {
    hide OutputsText, Decimal;
    var p, n, q :| ReadsAs(outputs[i].address, p, n, q);
    DividedText(outputs, i, p, n, q);
    assert |Divided(outputs, i, p, n, q)| == |outputs| + 1;
  }

  lemma {:induction false} LoneIsOnly(outputs: seq<TxOutput>, other: seq<TxOutput>)
    requires |outputs| <= 1 && PlainOutputs(outputs) && OutputsText(other) == OutputsText(outputs)
    ensures other == outputs
  {
    hide OutputsText, Decimal, ReadsAs;
    NoOutputs();
    if outputs == [] {
      if other != [] {
        LastText(other);
      }
    } else {
      LastAmount(outputs, other);
      if 1 < |other| {
        RestReadsAs(other);
      }
      assert outputs == [outputs[0]] && other == [other[0]];
    }
  }

  /**
   * A list of outputs is the only one with its text exactly when there is at most one output and its address does not
   * read as two: two outputs can always be run together, and an address that reads as two can be divided.
   */
  lemma {:induction false} OnlySpellingExactly(outputs: seq<TxOutput>)
    ensures OnlySpelling(outputs) <==> |outputs| <= 1 && PlainOutputs(outputs)
  {
    hide OutputsText, Plain;
    if !PlainOutputs(outputs) {
      var i :| 0 <= i < |outputs| && !Plain(outputs[i].address);
      NotPlain(outputs, i);
    } else if 1 < |outputs| {
      MergedText(outputs);
      assert |Merged(outputs)| == |outputs| - 1;
    } else {
      forall other | OutputsText(other) == OutputsText(outputs) ensures other == outputs {
        LoneIsOnly(outputs, other);
      }
    }
  }

  function Letters(outputs: seq<TxOutput>): nat {
    if |outputs| == 0 then 0 else Letters(outputs[..|outputs| - 1]) + |outputs[|outputs| - 1].address|
  }

  lemma {:induction false} LettersConcat(a: seq<TxOutput>, b: seq<TxOutput>)
    ensures Letters(a + b) == Letters(a) + Letters(b)
  {
    if |b| == 0 {
      assert a + b == a;
    } else {
      LettersConcat(a, b[..|b| - 1]);
      assert (a + b)[..|a + b| - 1] == a + b[..|b| - 1];
    }
  }

  lemma {:induction false} DividedIsShorter(outputs: seq<TxOutput>, i: nat, p: Address, n: int, q: Address)
    requires i < |outputs| && ReadsAs(outputs[i].address, p, n, q)
    ensures Letters(Divided(outputs, i, p, n, q)) < Letters(outputs)
  {
    hide Decimal;
    var o, two := outputs[i], [TxOutput(p, n), TxOutput(q, outputs[i].amount)];
    assert outputs == outputs[..i] + [o] + outputs[i + 1..];
    LettersConcat(outputs[..i] + [o], outputs[i + 1..]);
    LettersConcat(outputs[..i], [o]);
    LettersConcat(outputs[..i] + two, outputs[i + 1..]);
    LettersConcat(outputs[..i], two);
    assert [o][..0] == [] && two[..1] == [TxOutput(p, n)] && two[..1][..0] == [];
    assert Letters([o]) == |o.address| && Letters(two[..1]) == |p|;
  }

  /** Every text of outputs is that of plain ones, and by `PlainDecides` of one list of them only. */
  lemma {:induction false} PlainForm(outputs: seq<TxOutput>) returns (plain: seq<TxOutput>)
    ensures PlainOutputs(plain) && OutputsText(plain) == OutputsText(outputs)
    decreases Letters(outputs)
  {
    hide OutputsText, Letters, Decimal;
    plain := outputs;
    if i :| 0 <= i < |outputs| && !Plain(outputs[i].address) {
      var p, n, q :| ReadsAs(outputs[i].address, p, n, q);
      DividedText(outputs, i, p, n, q);
      DividedIsShorter(outputs, i, p, n, q);
      plain := PlainForm(Divided(outputs, i, p, n, q));
    }
  }

  // ---------------------------------------------------------------- the whole text

  /** What follows the outputs. */
  function EndText(body: TxBody): string {
    Decimal(body.timestamp) + ['|'] + (Decimal(body.fee) + if body.data.Some? then "|data:" + body.data.value else "")
  }

  function BodyText(h: Hexing, body: TxBody): string {
    Join(InputTexts(h, body.inputs), ',') + ['|'] + (OutputsText(body.outputs) + ['|'] + EndText(body))
  }

  /** Recorded data is hexadecimal, as the wire decoder checks. */
  predicate Clean(body: TxBody) {
    body.data.Some? ==> AllHex(body.data.value)
  }

  lemma {:induction false} InputsHaveNoBar(h: Hexing, inputs: seq<TxInput>)
    requires Writes(h)
    ensures '|' !in Join(InputTexts(h, inputs), ',')
  {
    hide InputText, Writes;
    var texts := InputTexts(h, inputs);
    forall i | 0 <= i < |texts| ensures '|' !in texts[i] {
      InputIsClean(h, inputs[i]);
    }
    JoinAvoids(texts, ',', '|');
  }

  /** The last field, up to the bar before it: the fee, or the data with the fee before it. */
  function Front(x: string, body: TxBody): string {
    if body.data.Some? then x + ['|'] + Decimal(body.timestamp) + ['|'] + Decimal(body.fee)
    else x + ['|'] + Decimal(body.timestamp)
  }

  function Last(body: TxBody): string {
    if body.data.Some? then "data:" + body.data.value else Decimal(body.fee)
  }

  lemma {:induction false} EndsWith(x: string, body: TxBody)
    ensures x + ['|'] + EndText(body) == Front(x, body) + ['|'] + Last(body)
  {
    hide Decimal;
    var t, f := Decimal(body.timestamp), Decimal(body.fee);
    if body.data.Some? {
      assert "|data:" + body.data.value == ['|'] + ("data:" + body.data.value);
      assert x + ['|'] + (t + ['|'] + (f + (['|'] + Last(body)))) == x + ['|'] + t + ['|'] + f + ['|'] + Last(body);
    } else {
      assert f + "" == f;
      assert x + ['|'] + (t + ['|'] + f) == x + ['|'] + t + ['|'] + f;
    }
  }

  lemma {:induction false} LastIsClean(body: TxBody)
    requires Clean(body)
    ensures '|' !in Last(body) && 0 < |Last(body)| && (Last(body)[0] == 'd' <==> body.data.Some?)
  {
    DecimalIsClean(body.fee);
    if body.data.Some? {
      HexIsClean(body.data.value);
    }
  }

  /** Reading from the end: data, fee and timestamp, and what is before them. */
  lemma {:induction false} EndDecides(x: string, a: TxBody, y: string, b: TxBody)
    requires Clean(a) && Clean(b) && x + ['|'] + EndText(a) == y + ['|'] + EndText(b)
    ensures x == y && a.timestamp == b.timestamp && a.fee == b.fee && a.data == b.data
  {
    EndsWith(x, a);
    EndsWith(y, b);
    LastIsClean(a);
    LastIsClean(b);
    DecimalIsClean(a.timestamp);
    DecimalIsClean(b.timestamp);
    DecimalIsClean(a.fee);
    DecimalIsClean(b.fee);
    hide EndText, Decimal, Clean;
    CutLast(Front(x, a), Last(a), Front(y, b), Last(b), '|');
    var ta, tb, fa, fb := Decimal(a.timestamp), Decimal(b.timestamp), Decimal(a.fee), Decimal(b.fee);
    if a.data.Some? {
      assert a.data.value == Last(a)[5..] && b.data.value == Last(b)[5..];
      CutLast(x + ['|'] + ta, fa, y + ['|'] + tb, fb, '|');
    }
    CutLast(x, ta, y, tb, '|');
    DecimalDecides(a.fee, b.fee);
    DecimalDecides(a.timestamp, b.timestamp);
  }

  /** The text decides everything but how the outputs are divided, and of those their text. */
  lemma {:induction false} TextDecides(h: Hexing, a: TxBody, b: TxBody)
    requires Writes(h) && Clean(a) && Clean(b)
    ensures BodyText(h, a) == BodyText(h, b) <==>
      Shape(a) == Shape(b) && OutputsText(a.outputs) == OutputsText(b.outputs)
  {
    hide OutputsText, EndText, Join, InputTexts, Writes, Clean;
    if BodyText(h, a) == BodyText(h, b) {
      var ia, ib := Join(InputTexts(h, a.inputs), ','), Join(InputTexts(h, b.inputs), ',');
      InputsHaveNoBar(h, a.inputs);
      InputsHaveNoBar(h, b.inputs);
      var xa, xb := OutputsText(a.outputs), OutputsText(b.outputs);
      CutFirst(ia, xa + ['|'] + EndText(a), ib, xb + ['|'] + EndText(b), '|');
      InputsDecide(h, a.inputs, b.inputs);
      EndDecides(xa, a, xb, b);
    } else if Shape(a) == Shape(b) && OutputsText(a.outputs) == OutputsText(b.outputs) {
      SameEnd(a, b);
    }
  }

  lemma {:induction false} SameEnd(a: TxBody, b: TxBody)
    requires Shape(a) == Shape(b)
    ensures EndText(a) == EndText(b) && a.inputs == b.inputs
  {
    assert a.timestamp == Shape(a).timestamp && a.fee == Shape(a).fee && a.data == Shape(a).data
      && a.inputs == Shape(a).inputs;
    assert b.timestamp == Shape(b).timestamp && b.fee == Shape(b).fee && b.data == Shape(b).data
      && b.inputs == Shape(b).inputs;
  }

  /** Between bodies with plain addresses the text decides everything. */
  lemma {:induction false} PlainTextDecides(h: Hexing, a: TxBody, b: TxBody)
    requires Writes(h) && Clean(a) && Clean(b) && PlainOutputs(a.outputs) && PlainOutputs(b.outputs)
    requires BodyText(h, a) == BodyText(h, b)
    ensures a == b
  {
    hide OutputsText, BodyText, Writes, Clean, PlainOutputs;
    TextDecides(h, a, b);
    PlainDecides(a.outputs, b.outputs);
    assert a == Shape(a).(outputs := a.outputs) && b == Shape(b).(outputs := b.outputs);
  }

  /** A body is the only one with its text exactly when it has at most one output, to an address that does not read
      as two. */
  lemma {:induction false} OnlyBodyExactly(h: Hexing, body: TxBody)
    requires Writes(h) && Clean(body)
    ensures (forall other :: Clean(other) && BodyText(h, other) == BodyText(h, body) ==> other == body)
            <==> |body.outputs| <= 1 && PlainOutputs(body.outputs)
  {
    hide OutputsText, BodyText, Writes, PlainOutputs;
    OnlySpellingExactly(body.outputs);
    if OnlySpelling(body.outputs) {
      forall other | Clean(other) && BodyText(h, other) == BodyText(h, body) ensures other == body {
        TextDecides(h, other, body);
        assert other == Shape(other).(outputs := other.outputs) && body == Shape(body).(outputs := body.outputs);
      }
    } else {
      var outputs :| OutputsText(outputs) == OutputsText(body.outputs) && outputs != body.outputs;
      var other := body.(outputs := outputs);
      TextDecides(h, other, body);
      assert Clean(other) && other != body;
    }
  }
}
