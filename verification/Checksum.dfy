/**
 * The Bech32 checksum register (src/ledger/address.ts), from the section "Checksum" of BIP-173.
 * The register holds six 5-bit symbols. Feeding a symbol shifts it in and folds the symbol
 * that falls out back through the generator.
 */
module Checksum {

  import opened Ledger
  import opened Bits

  function Generator(i: nat): bv32
    requires i < 5
  {
    if i == 0 then 0x3b6a57b2
    else if i == 1 then 0x26508e6d
    else if i == 2 then 0x1ea119fa
    else if i == 3 then 0x3d4233dd
    else 0x2a1462b3
  }

  // ---------------------------------------------------------------- one step

  function Xor(a: bv32, b: bv32): bv32 {
    a ^ b
  }

  predicate Bit(x: bv32, i: nat)
    requires i < 5
  {
    (x >> i) & 1 == 1
  }

  /** `chk` after the first `i` generator taps. */
  function Tapped(chk: bv32, top: bv32, i: nat): bv32
    requires i <= 5
  {
    if i == 0 then chk else
    var c := Tapped(chk, top, i - 1);
    if Bit(top, i - 1) then Xor(c, Generator(i - 1)) else c
  }

  function Shifted(chk: bv32): bv32 {
    (chk & 0x1ffffff) << 5
  }

  function Top(chk: bv32): bv32 {
    chk >> 25
  }

  /** The register after the symbol `v`. */
  function Step(chk: bv32, v: bv32): bv32 {
    Tapped(Xor(Shifted(chk), v), Top(chk), 5)
  }

  function Tap(top: bv32, i: nat): bv32
    requires i < 5
  {
    if Bit(top, i) then Generator(i) else 0
  }

  function Fold(t0: bv32, t1: bv32, t2: bv32, t3: bv32, t4: bv32): bv32 {
    Xor(t0, Xor(t1, Xor(t2, Xor(t3, t4))))
  }

  function Taps(top: bv32): bv32 {
    Fold(Tap(top, 0), Tap(top, 1), Tap(top, 2), Tap(top, 3), Tap(top, 4))
  }

  lemma {:induction false} XorZero(a: bv32)
    ensures Xor(a, 0) == a
  {
  }

  lemma {:induction false} XorGroups(a: bv32, b: bv32, c: bv32)
    ensures Xor(Xor(a, b), c) == Xor(a, Xor(b, c))
  {
  }

  lemma {:induction false} XorSwaps(a: bv32, b: bv32, c: bv32)
    ensures Xor(Xor(a, b), c) == Xor(Xor(a, c), b)
  {
    hide Xor;
    XorGroups(a, b, c);
    XorGroups(a, c, b);
    XorCommutes(b, c);
  }

  lemma {:induction false} XorCommutes(a: bv32, b: bv32)
    ensures Xor(a, b) == Xor(b, a)
  {
  }

  lemma {:induction false} XorCancels(a: bv32, b: bv32, c: bv32)
    requires Xor(a, c) == Xor(b, c)
    ensures a == b
  {
  }

  lemma {:induction false} TappedNext(chk: bv32, top: bv32, i: nat)
    requires i < 5
    ensures Tapped(chk, top, i + 1) == if Bit(top, i) then Xor(Tapped(chk, top, i), Generator(i))
      else Tapped(chk, top, i)
  {
    hide Bit, Xor, Generator;
  }

  lemma {:induction false} TapOnce(chk: bv32, top: bv32, i: nat)
    requires i < 5
    ensures Tapped(chk, top, i + 1) == Xor(Tapped(chk, top, i), Tap(top, i))
  {
    hide Bit, Xor, Generator, Tapped;
    TappedNext(chk, top, i);
    XorZero(Tapped(chk, top, i));
  }

  lemma {:induction false} FoldIsXors(c: bv32, t0: bv32, t1: bv32, t2: bv32, t3: bv32, t4: bv32)
    ensures Xor(Xor(Xor(Xor(Xor(c, t0), t1), t2), t3), t4) == Xor(c, Fold(t0, t1, t2, t3, t4))
  {
    hide Xor;
    XorGroups(c, t0, Xor(t1, Xor(t2, Xor(t3, t4))));
    XorGroups(Xor(c, t0), t1, Xor(t2, Xor(t3, t4)));
    XorGroups(Xor(Xor(c, t0), t1), t2, Xor(t3, t4));
    XorGroups(Xor(Xor(Xor(c, t0), t1), t2), t3, t4);
  }

  lemma {:induction false} TappedNone(chk: bv32, top: bv32)
    ensures Tapped(chk, top, 0) == chk
  {
  }

  lemma {:induction false} TappedIsTaps(chk: bv32, top: bv32)
    ensures Tapped(chk, top, 5) == Xor(chk, Taps(top))
  {
    hide Tap, Xor, Fold, Tapped;
    TappedNone(chk, top);
    TapOnce(chk, top, 0);
    TapOnce(chk, top, 1);
    TapOnce(chk, top, 2);
    TapOnce(chk, top, 3);
    TapOnce(chk, top, 4);
    FoldIsXors(chk, Tap(top, 0), Tap(top, 1), Tap(top, 2), Tap(top, 3), Tap(top, 4));
  }

  function Mix(x: bv32, v: bv32, t: bv32): bv32 {
    Xor(Xor(x, v), t)
  }

  lemma {:induction false} StepIsMix(chk: bv32, v: bv32)
    ensures Step(chk, v) == Mix(Shifted(chk), v, Taps(Top(chk)))
  {
    hide Tapped, Taps, Shifted, Xor, Top;
    TappedIsTaps(Xor(Shifted(chk), v), Top(chk));
  }

  // ---------------------------------------------------------------- the register over a list

  function Word(v: nat): bv32
    requires v < 0x10000
  {
    v as bv32
  }

  function Polymod(chk: bv32, values: seq<nat>): bv32
    requires InRange(values, 0x10000)
  {
    if values == [] then chk else Step(Polymod(chk, values[..|values| - 1]), Word(values[|values| - 1]))
  }

  lemma {:induction false} PolymodEmpty(chk: bv32)
    ensures Polymod(chk, []) == chk
  {
  }

  lemma {:induction false} PolymodPush(chk: bv32, values: seq<nat>, v: nat)
    requires InRange(values, 0x10000) && v < 0x10000
    ensures Polymod(chk, values + [v]) == Step(Polymod(chk, values), Word(v))
  {
    hide Step, Word;
    assert (values + [v])[..|values|] == values;
  }

  method Taps5(start: bv32, top: bv32) returns (chk: bv32)
    ensures chk == Tapped(start, top, 5)
  {
    hide Bit, Tapped, Xor, Generator;
    chk := start;
    TappedNone(start, top);
    for i := 0 to 5
      invariant chk == Tapped(start, top, i)
    {
      TappedNext(start, top, i);
      if Bit(top, i) {
        chk := Xor(chk, Generator(i));
      }
    }
  }

  method PolymodOf(values: seq<nat>) returns (chk: bv32)
    requires InRange(values, 0x10000)
    ensures chk == Polymod(1, values)
  {
    hide Polymod, Tapped, Shifted, Xor, Top, Word;
    chk := 1;
    PolymodEmpty(1);
    for n := 0 to |values|
      invariant chk == Polymod(1, values[..n])
    {
      TakeOneMore(values, n);
      PolymodPush(1, values[..n], values[n]);
      chk := Taps5(Xor(Shifted(chk), Word(values[n])), Top(chk));
    }
    assert values[..|values|] == values;
  }

  // ---------------------------------------------------------------- what a step keeps

  const REGISTER: bv32 := 0x40000000

  /** `d` holds at most `n` symbols. */
  predicate Holds(d: bv32, n: nat)
    requires n <= 6
  {
    if n == 0 then d == 0 else if n == 1 then d < 0x20 else if n == 2 then d < 0x400 else if n == 3 then d < 0x8000
    else if n == 4 then d < 0x100000 else if n == 5 then d < 0x2000000 else d < REGISTER
  }

  /** The symbols `d` followed by the symbol `c`, as one number. */
  function Join(d: bv32, c: bv32): bv32 {
    Xor(d << 5, c)
  }

  lemma {:induction false} TopKept(s: bv32, d: bv32)
    requires Holds(d, 5)
    ensures Top(Xor(s, d)) == Top(s)
  {
  }

  lemma {:induction false} ShiftedXor(s: bv32, d: bv32)
    requires Holds(d, 5)
    ensures Shifted(Xor(s, d)) == Xor(Shifted(s), d << 5)
  {
  }

  lemma {:induction false} MixJoin(x: bv32, d: bv32, c: bv32, t: bv32)
    ensures Mix(Xor(x, d << 5), c, t) == Xor(Mix(x, 0, t), Join(d, c))
  {
    hide Xor;
    XorGroups(x, d << 5, c);
    XorSwaps(x, Join(d, c), t);
    XorZero(x);
  }

  /** A difference that has not reached the top symbol slides through a step untouched. */
  lemma {:induction false} Slide(s: bv32, d: bv32, c: bv32)
    requires Holds(d, 5)
    ensures Step(Xor(s, d), c) == Xor(Step(s, 0), Join(d, c))
  {
    hide Step, Taps, Shifted, Mix, Xor, Join, Top, Holds;
    StepIsMix(Xor(s, d), c);
    StepIsMix(s, 0);
    TopKept(s, d);
    ShiftedXor(s, d);
    MixJoin(Shifted(s), d, c, Taps(Top(s)));
  }

  lemma {:induction false} TapsTell(s: bv32, t: bv32)
    requires Holds(s, 1) && Holds(t, 1) && Taps(s) & 31 == Taps(t) & 31
    ensures s == t
  {
  }

  lemma {:induction false} MixLow(x: bv32, y: bv32, v: bv32, t: bv32, u: bv32)
    requires Mix(Shifted(x), v, t) == Mix(Shifted(y), v, u)
    ensures t & 31 == u & 31
  {
  }

  lemma {:induction false} MixCancels(x: bv32, y: bv32, v: bv32, t: bv32)
    requires Mix(x, v, t) == Mix(y, v, t)
    ensures x == y
  {
    hide Xor;
    XorCancels(Xor(x, v), Xor(y, v), t);
    XorCancels(x, y, v);
  }

  lemma {:induction false} ShiftedTells(a: bv32, b: bv32)
    requires Holds(a, 6) && Holds(b, 6) && Top(a) == Top(b) && Shifted(a) == Shifted(b)
    ensures a == b
  {
  }

  lemma {:induction false} TopIsSymbol(a: bv32)
    requires Holds(a, 6)
    ensures Holds(Top(a), 1)
  {
  }

  /** No two registers are confused by the same symbol. */
  lemma {:induction false} StepInjective(a: bv32, b: bv32, v: bv32)
    requires Holds(a, 6) && Holds(b, 6) && Step(a, v) == Step(b, v)
    ensures a == b
  {
    hide Step, Taps, Shifted, Mix, Top, Holds;
    StepIsMix(a, v);
    StepIsMix(b, v);
    MixLow(a, b, v, Taps(Top(a)), Taps(Top(b)));
    TopIsSymbol(a);
    TopIsSymbol(b);
    TapsTell(Top(a), Top(b));
    MixCancels(Shifted(a), Shifted(b), v, Taps(Top(a)));
    ShiftedTells(a, b);
  }

  lemma {:induction false} MixStays(x: bv32, v: bv32, t: bv32)
    requires Holds(v, 6) && Holds(t, 6)
    ensures Holds(Mix(Shifted(x), v, t), 6)
  {
  }

  lemma {:induction false} TapsStay(t: bv32)
    ensures Holds(Taps(t), 6)
  {
  }

  lemma {:induction false} StepStays(chk: bv32, v: bv32)
    requires Holds(v, 6)
    ensures Holds(Step(chk, v), 6)
  {
    hide Step, Taps, Shifted, Mix, Top, Holds;
    StepIsMix(chk, v);
    TapsStay(Top(chk));
    MixStays(chk, v, Taps(Top(chk)));
  }

  lemma {:induction false} ValueFits(v: nat)
    requires v < 0x10000
    ensures Holds(Word(v), 6)
  {
    hide Word;
    ValueBelow(v);
  }

  lemma {:induction false} ValueBelow(v: nat)
    requires v < 0x10000
    ensures Word(v) < 0x10000
  {
  }

  lemma {:induction false} SymbolFits(v: nat)
    requires v < 32
    ensures Holds(Word(v), 1)
  {
  }

  lemma {:induction false} SymbolBack0(v: nat)
    requires v < 8
    ensures Word(v) as nat == v
  {
  }

  lemma {:induction false} SymbolBack8(v: nat)
    requires 8 <= v < 16
    ensures Word(v) as nat == v
  {
  }

  lemma {:induction false} SymbolBack16(v: nat)
    requires 16 <= v < 24
    ensures Word(v) as nat == v
  {
  }

  lemma {:induction false} SymbolBack24(v: nat)
    requires 24 <= v < 32
    ensures Word(v) as nat == v
  {
  }

  lemma {:induction false} SymbolBack(v: nat)
    requires v < 32
    ensures Word(v) as nat == v
  {
    hide Word;
    if v < 8 {
      SymbolBack0(v);
    } else if v < 16 {
      SymbolBack8(v);
    } else if v < 24 {
      SymbolBack16(v);
    } else {
      SymbolBack24(v);
    }
  }

  lemma {:induction false} WordInjective(v: nat, u: nat)
    requires v < 32 && u < 32 && Word(v) == Word(u)
    ensures v == u
  {
    hide Word;
    SymbolBack(v);
    SymbolBack(u);
  }

  // ---------------------------------------------------------------- what the checksum detects

  /** Up to six symbols as one number. */
  function Packed(w: seq<nat>): bv32
    requires InRange(w, 32)
  {
    if w == [] then 0 else Join(Packed(w[..|w| - 1]), Word(w[|w| - 1]))
  }

  lemma {:induction false} HoldsMore(d: bv32, n: nat)
    requires n <= 5 && Holds(d, n)
    ensures Holds(d, 5)
  {
  }

  lemma {:induction false} JoinHolds(d: bv32, c: bv32, n: nat)
    requires n <= 5 && Holds(d, n) && Holds(c, 1)
    ensures Holds(Join(d, c), n + 1)
  {
  }

  lemma {:induction false} JoinInjective(d: bv32, c: bv32, e: bv32, f: bv32)
    requires Holds(d, 5) && Holds(e, 5) && Holds(c, 1) && Holds(f, 1) && Join(d, c) == Join(e, f)
    ensures d == e && c == f
  {
  }

  lemma {:induction false} PackedPush(w: seq<nat>, v: nat)
    requires InRange(w, 32) && v < 32
    ensures Packed(w + [v]) == Join(Packed(w), Word(v))
  {
    hide Join, Word;
    assert (w + [v])[..|w|] == w;
  }

  lemma {:induction false} PackedHolds(w: seq<nat>)
    requires InRange(w, 32) && |w| <= 6
    ensures Holds(Packed(w), |w|)
  {
    if w != [] {
      hide Join, Holds, Word, Packed;
      var front, last := w[..|w| - 1], w[|w| - 1];
      assert w == front + [last];
      PackedHolds(front);
      SymbolFits(last);
      JoinHolds(Packed(front), Word(last), |front|);
      PackedPush(front, last);
    }
  }

  lemma {:induction false} PackedInjective(w: seq<nat>, u: seq<nat>)
    requires InRange(w, 32) && InRange(u, 32) && |w| == |u| <= 6 && Packed(w) == Packed(u)
    ensures w == u
  {
    hide Join, Holds, Word, Packed;
    if w != [] {
      var n := |w| - 1;
      var front, last, front', last' := w[..n], w[n], u[..n], u[n];
      assert w == front + [last];
      assert u == front' + [last'];
      PackedPush(front, last);
      PackedPush(front', last');
      JoinTells(front, last, front', last');
      PackedInjective(front, front');
    }
  }

  lemma {:induction false} JoinTells(w: seq<nat>, v: nat, w': seq<nat>, v': nat)
    requires InRange(w, 32) && InRange(w', 32) && |w| == |w'| <= 5 && v < 32 && v' < 32
    requires Join(Packed(w), Word(v)) == Join(Packed(w'), Word(v'))
    ensures Packed(w) == Packed(w') && v == v'
  {
    hide Join, Holds, Word, Packed;
    PackedHolds(w);
    PackedHolds(w');
    HoldsMore(Packed(w), |w|);
    HoldsMore(Packed(w'), |w|);
    SymbolFits(v);
    SymbolFits(v');
    JoinInjective(Packed(w), Word(v), Packed(w'), Word(v'));
    WordInjective(v, v');
  }

  function Zeros(n: nat): (z: seq<nat>)
    ensures |z| == n && InRange(z, 32)
  {
    if n == 0 then [] else Zeros(n - 1) + [0]
  }

  lemma {:induction false} EmptyWindow(s: bv32)
    ensures Polymod(s, []) == s == Xor(Polymod(s, Zeros(0)), Packed([]))
  {
    PolymodEmpty(s);
  }

  lemma {:induction false} WordZero()
    ensures Word(0) == 0
  {
  }

  /** Up to six symbols enter the register as their packed number, whatever it held before. */
  lemma {:induction false} Window(s: bv32, w: seq<nat>)
    requires InRange(w, 32) && |w| <= 6
    ensures Polymod(s, w) == Xor(Polymod(s, Zeros(|w|)), Packed(w))
  {
    hide Join, Holds, Word, Packed, Polymod, Xor, Step;
    if w == [] {
      EmptyWindow(s);
    } else {
      var n := |w| - 1;
      var front, last := w[..n], w[n];
      assert w == front + [last];
      Window(s, front);
      PolymodPush(s, front, last);
      PolymodPush(s, Zeros(n), 0);
      WordZero();
      PackedPush(front, last);
      PackedHolds(front);
      HoldsMore(Packed(front), n);
      Slide(Polymod(s, Zeros(n)), Packed(front), Word(last));
    }
  }

  lemma {:induction false} PolymodConcat(chk: bv32, a: seq<nat>, b: seq<nat>)
    requires InRange(a, 0x10000) && InRange(b, 0x10000)
    ensures Polymod(chk, a + b) == Polymod(Polymod(chk, a), b)
  {
    hide Word, Polymod, Step;
    if b == [] {
      assert a + b == a;
      PolymodEmpty(Polymod(chk, a));
    } else {
      var front, last := b[..|b| - 1], b[|b| - 1];
      PolymodConcat(chk, a, front);
      PolymodPush(chk, a + front, last);
      PolymodPush(Polymod(chk, a), front, last);
      assert b == front + [last];
      assert a + b == a + front + [last];
    }
  }

  lemma {:induction false} PolymodStays(chk: bv32, values: seq<nat>)
    requires InRange(values, 0x10000) && Holds(chk, 6)
    ensures Holds(Polymod(chk, values), 6)
  {
    hide Word, Polymod, Step, Holds;
    if values == [] {
      PolymodEmpty(chk);
    } else {
      var front, last := values[..|values| - 1], values[|values| - 1];
      assert values == front + [last];
      PolymodPush(chk, front, last);
      ValueFits(last);
      StepStays(Polymod(chk, front), Word(last));
    }
  }

  /** Registers that differ stay different under any common suffix. */
  lemma {:induction false} PolymodInjective(a: bv32, b: bv32, values: seq<nat>)
    requires InRange(values, 0x10000) && Holds(a, 6) && Holds(b, 6) && Polymod(a, values) == Polymod(b, values)
    ensures a == b
  {
    hide Word, Polymod, Step, Holds;
    if values == [] {
      PolymodEmpty(a);
      PolymodEmpty(b);
    } else {
      var front, last := values[..|values| - 1], values[|values| - 1];
      assert values == front + [last];
      PolymodPush(a, front, last);
      PolymodPush(b, front, last);
      PolymodStays(a, front);
      PolymodStays(b, front);
      StepInjective(Polymod(a, front), Polymod(b, front), Word(last));
      PolymodInjective(a, b, front);
    }
  }

  /** Changing any of six consecutive symbols, at any place in a list of any length, changes the checksum. */
  lemma {:induction false} BurstDetected(chk: bv32, before: seq<nat>, w: seq<nat>, u: seq<nat>, after: seq<nat>)
    requires InRange(before, 0x10000) && InRange(after, 0x10000) && Holds(chk, 6)
    requires InRange(w, 32) && InRange(u, 32) && |w| == |u| <= 6 && w != u
    ensures Polymod(chk, before + w + after) != Polymod(chk, before + u + after)
  {
    hide Word, Polymod, Step, Holds, Xor, Packed;
    var s := Polymod(chk, before);
    PolymodConcat(chk, before + w, after);
    PolymodConcat(chk, before + u, after);
    PolymodConcat(chk, before, w);
    PolymodConcat(chk, before, u);
    PolymodStays(chk, before);
    PolymodStays(s, w);
    PolymodStays(s, u);
    if Polymod(s, w) == Polymod(s, u) {
      Window(s, w);
      Window(s, u);
      XorTells(Polymod(s, Zeros(|w|)), Packed(w), Packed(u));
      PackedInjective(w, u);
    } else if Polymod(chk, before + w + after) == Polymod(chk, before + u + after) {
      PolymodInjective(Polymod(s, w), Polymod(s, u), after);
    }
  }

  lemma {:induction false} XorTells(a: bv32, b: bv32, c: bv32)
    requires Xor(a, b) == Xor(a, c)
    ensures b == c
  {
  }

  // ---------------------------------------------------------------- the six checksum symbols

  const BECH32M_CONST: bv32 := 0x2bc830a3

  /** The `i`-th of the six symbols of a register. */
  function Group(m: bv32, i: nat): (x: bv32)
    requires i < 6
    ensures Holds(x, 1)
  {
    if i == 0 then (m >> 25) & 31
    else if i == 1 then (m >> 20) & 31
    else if i == 2 then (m >> 15) & 31
    else if i == 3 then (m >> 10) & 31
    else if i == 4 then (m >> 5) & 31
    else m & 31
  }

  function AsSymbol(x: bv32): (v: nat)
    requires Holds(x, 1)
    ensures v < 32
  {
    x as nat
  }

  function Unpacked(m: bv32): (w: seq<nat>)
    ensures |w| == 6 && InRange(w, 32)
  {
    [AsSymbol(Group(m, 0)), AsSymbol(Group(m, 1)), AsSymbol(Group(m, 2)),
     AsSymbol(Group(m, 3)), AsSymbol(Group(m, 4)), AsSymbol(Group(m, 5))]
  }

  lemma {:induction false} WordOfSymbol(x: bv32)
    requires Holds(x, 1)
    ensures Word(AsSymbol(x)) == x
  {
  }

  lemma {:induction false} Repack(m: bv32)
    requires Holds(m, 6)
    ensures Join(Join(Join(Join(Join(Join(0, Group(m, 0)), Group(m, 1)), Group(m, 2)), Group(m, 3)), Group(m, 4)),
      Group(m, 5)) == m
  {
    hide Holds, Join, Group;
    GroupsAre(m);
    RepackWord(m);
  }

  lemma {:induction false} GroupsAre(m: bv32)
    ensures Group(m, 0) == (m >> 25) & 31 && Group(m, 1) == (m >> 20) & 31 && Group(m, 2) == (m >> 15) & 31
    ensures Group(m, 3) == (m >> 10) & 31 && Group(m, 4) == (m >> 5) & 31 && Group(m, 5) == m & 31
  {
  }

  lemma {:induction false} RepackWord(m: bv32)
    requires Holds(m, 6)
    ensures Join(Join(Join(Join(Join(Join(0, (m >> 25) & 31), (m >> 20) & 31), (m >> 15) & 31),
                                (m >> 10) & 31), (m >> 5) & 31), m & 31) == m
  {
  }

  lemma {:induction false} PackedEmpty()
    ensures Packed([]) == 0
  {
  }

  lemma {:induction false} PackedUnpacked(m: bv32)
    requires Holds(m, 6)
    ensures Packed(Unpacked(m)) == m
  {
    hide Holds, Join, Word, Packed, Group, AsSymbol;
    var w := Unpacked(m);
    PackedEmpty();
    UnpackedStep(m, 0);
    UnpackedStep(m, 1);
    UnpackedStep(m, 2);
    UnpackedStep(m, 3);
    UnpackedStep(m, 4);
    UnpackedStep(m, 5);
    assert w[..0] == [] && w[..6] == w;
    Repack(m);
  }

  lemma {:induction false} UnpackedStep(m: bv32, i: nat)
    requires i < 6
    ensures Packed(Unpacked(m)[..i + 1]) == Join(Packed(Unpacked(m)[..i]), Group(m, i))
  {
    hide Holds, Join, Word, Packed, Group, AsSymbol;
    var w := Unpacked(m);
    TakeOneMore(w, i);
    PackedPush(w[..i], w[i]);
    WordOfSymbol(Group(m, i));
  }

  function ChecksumOf(values: seq<nat>): (c: seq<nat>)
    requires InRange(values, 0x10000)
    ensures |c| == 6 && InRange(c, 32)
  {
    Unpacked(Xor(Polymod(Polymod(1, values), Zeros(6)), BECH32M_CONST))
  }

  lemma {:induction false} Constants(x: bv32)
    requires Holds(x, 6)
    ensures Holds(1, 6) && Holds(Xor(x, BECH32M_CONST), 6) && Xor(x, Xor(x, BECH32M_CONST)) == BECH32M_CONST
  {
  }

  lemma {:induction false} OneHolds()
    ensures Holds(1, 6)
  {
  }

  lemma {:induction false} ChecksumVerifies(values: seq<nat>)
    requires InRange(values, 0x10000)
    ensures Polymod(1, values + ChecksumOf(values)) == BECH32M_CONST
  {
    hide Holds, Word, Packed, Polymod, Xor, Unpacked;
    var s, c := Polymod(1, values), ChecksumOf(values);
    OneHolds();
    PolymodStays(1, values);
    PolymodStays(s, Zeros(6));
    Constants(Polymod(s, Zeros(6)));
    PolymodConcat(1, values, c);
    Window(s, c);
    PackedUnpacked(Xor(Polymod(s, Zeros(6)), BECH32M_CONST));
  }

  /** Exactly one list of six symbols completes a given list. */
  lemma {:induction false} ChecksumUnique(values: seq<nat>, c: seq<nat>)
    requires InRange(values, 0x10000) && InRange(c, 32) && |c| == 6
    ensures Polymod(1, values + c) == BECH32M_CONST <==> c == ChecksumOf(values)
  {
    hide Holds, Word, Packed, Polymod, Xor, Unpacked, ChecksumOf;
    OneHolds();
    ChecksumVerifies(values);
    var good := ChecksumOf(values);
    if c != good {
      BurstDetected(1, values, c, good, []);
      assert values + c + [] == values + c;
      assert values + good + [] == values + good;
    }
  }
}
