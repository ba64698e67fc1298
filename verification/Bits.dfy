/**
 * Regrouping of bits (src/ledger/address.ts). A list of w-bit groups is a number written
 * in base 2^w, and `convertBits` rewrites that number in another power of two.
 */
module Bits {

  import opened Ledger
  import opened Numbers

  predicate InRange(s: seq<nat>, base: nat) {
    forall i :: 0 <= i < |s| ==> s[i] < base
  }

  /** The number that the digits `s`, most significant first, write in `base`. */
  function Value(s: seq<nat>, base: nat): nat {
    if s == [] then 0 else Value(s[..|s| - 1], base) * base + s[|s| - 1]
  }

  function Split(v: nat, base: nat): (r: (nat, nat))
    requires base > 0
    ensures v == r.0 * base + r.1 && r.1 < base
  {
    (v / base, v % base)
  }

  /** The last `len` digits of `v` in `base`. */
  function Digits(v: nat, base: nat, len: nat): (s: seq<nat>)
    requires base > 0
    ensures |s| == len && InRange(s, base)
    decreases len
  {
    if len == 0 then [] else
    var (high, low) := Split(v, base);
    Digits(high, base, len - 1) + [low]
  }

  lemma {:induction false} ValuePush(s: seq<nat>, d: nat, base: nat)
    ensures Value(s + [d], base) == Value(s, base) * base + d
  {
    assert (s + [d])[..|s|] == s;
  }

  lemma {:induction false} DigitsOfValue(s: seq<nat>, base: nat)
    requires base > 0 && InRange(s, base)
    ensures Digits(Value(s, base), base, |s|) == s
  {
    if s != [] {
      var front := s[..|s| - 1];
      DigitsOfValue(front, base);
      DivMod(Value(s, base), Value(front, base), s[|s| - 1], base);
      assert s == front + [s[|s| - 1]];
    }
  }

  lemma {:induction false} ValueBound(s: seq<nat>, w: nat)
    requires InRange(s, Pow2(w))
    ensures Value(s, Pow2(w)) < Pow2(w * |s|)
  {
    if s != [] {
      var front, n := s[..|s| - 1], |s| - 1;
      ValueBound(front, w);
      PowerOfNext(w, n);
      StepBelow(Value(front, Pow2(w)), Pow2(w * n), Pow2(w));
    }
  }

  lemma {:induction false} QuotientBelow(v: nat, q: nat, r: nat, m: nat, base: nat)
    requires v == q * base + r && v < m * base
    ensures q < m
  {
    if m < q {
      StepBelow(m, q, base);
    }
  }

  lemma {:induction false} DigitsEmpty(v: nat, base: nat)
    requires base > 0
    ensures Digits(v, base, 0) == [] && Value([], base) == 0
  {
  }

  lemma {:induction false} DigitsPush(v: nat, base: nat, n: nat)
    requires base > 0
    ensures var (high, low) := Split(v, base); Digits(v, base, n + 1) == Digits(high, base, n) + [low]
  {
    hide Split;
  }

  lemma {:induction false} PowerOfNext(w: nat, n: nat)
    ensures Pow2(w * (n + 1)) == Pow2(w * n) * Pow2(w)
  {
    hide Pow2;
    assert w * (n + 1) == w * n + w;
    Pow2Sum(w * n, w);
  }

  /** A number below 2^(w * len) is what its `len` digits write. */
  lemma {:induction false} ValueOfDigits(v: nat, w: nat, len: nat)
    requires v < Pow2(w * len)
    ensures Value(Digits(v, Pow2(w), len), Pow2(w)) == v
    decreases len
  {
    var base := Pow2(w);
    if len == 0 {
      assert w * len == 0;
      DigitsEmpty(v, base);
    } else {
      hide Split, Pow2, Digits, Value;
      var n := len - 1;
      var (high, low) := Split(v, base);
      PowerOfNext(w, n);
      QuotientBelow(v, high, low, Pow2(w * n), base);
      ValueOfDigits(high, w, n);
      DigitsPush(v, base, n);
      ValuePush(Digits(high, base, n), low, base);
    }
  }

  // ---------------------------------------------------------------- regrouping

  /** How many `to`-bit groups hold `total` bits, the last one filled up. */
  function GroupsFor(total: nat, to: nat): (k: nat)
    requires to > 0
    ensures total <= k * to < total + to
  {
    var k := (total + to - 1) / to;
    assert total + to - 1 == k * to + (total + to - 1) % to;
    k
  }

  /**
   * The same bits in `to`-bit groups. With padding, zero bits complete the last group; without,
   * the bits left over must be zero and fewer than one `from`-bit group.
   */
  function Regroup(data: seq<nat>, from: nat, to: nat, pad: bool): Option<seq<nat>>
    requires to > 0
  {
    var total, v := from * |data|, Value(data, Pow2(from));
    if pad then
      var k := GroupsFor(total, to);
      Some(Digits(v * Pow2(k * to - total), Pow2(to), k))
    else
      var k, rest := total / to, total % to;
      if rest >= from || v % Pow2(rest) != 0 then None else Some(Digits(v / Pow2(rest), Pow2(to), k))
  }

  // ---------------------------------------------------------------- the 32-bit accumulator

  const WORD := 32

  /** `acc << w` on 32-bit words. */
  function ShiftLeft(acc: nat, w: nat): nat {
    acc * Pow2(w) % Pow2(WORD)
  }

  /** The wrapped shift keeps the low bits, whatever high bits it drops. */
  lemma {:induction false} ShiftKeepsLow(acc: nat, w: nat, d: nat, bits: nat)
    requires bits + w <= WORD && d < Pow2(w)
    ensures (ShiftLeft(acc, w) + d) % Pow2(bits + w) == acc % Pow2(bits) * Pow2(w) + d
  {
    hide Pow2;
    var f, b, k := Pow2(w), Pow2(bits), Pow2(WORD - bits - w);
    Pow2Sum(bits, w);
    Pow2Sum(w, bits);
    Pow2Sum(bits, WORD - bits - w);
    Pow2Sum(w, WORD - w);
    assert w + (WORD - w) == WORD && bits + (WORD - bits - w) == WORD - w;
    WrapKeepsLow(acc, d, f, b, k);
  }

  lemma {:induction false} WrapKeepsLow(acc: nat, d: nat, f: nat, b: nat, k: nat)
    requires d < f && b > 0 && k > 0
    ensures b * k > 0 && f * (b * k) > 0 && f * b > 0
    ensures (acc * f % (f * (b * k)) + d) % (f * b) == acc % b * f + d
  {
    ModProduct(acc, b, k);
    var low := acc % (b * k);
    DivMod(low, acc / b % k, acc % b, b);
    ModProduct(acc * f, f, b * k);
    DivMod(acc * f, acc, 0, f);
    ModProduct(low * f + d, f, b);
    DivMod(low * f + d, low, d, f);
  }

  /** `out` and the low `bits` bits of `acc` together hold the `total` bits of the number `v`. */
  predicate Holding(total: nat, v: nat, out: seq<nat>, acc: nat, bits: nat, to: nat) {
    && |out| * to + bits == total
    && Value(out, Pow2(to)) * Pow2(bits) + acc % Pow2(bits) == v
    && InRange(out, Pow2(to))
  }

  lemma {:induction false} Absorb(total: nat, v: nat, out: seq<nat>, acc: nat, bits: nat, to: nat, from: nat, d: nat)
    requires Holding(total, v, out, acc, bits, to) && bits + from <= WORD && d < Pow2(from)
    ensures Holding(total + from, v * Pow2(from) + d, out, ShiftLeft(acc, from) + d, bits + from, to)
  {
    hide Pow2, ShiftLeft, Value;
    ShiftKeepsLow(acc, from, d, bits);
    Pow2Sum(bits, from);
    var x, b, f, a := Value(out, Pow2(to)), Pow2(bits), Pow2(from), acc % Pow2(bits);
    assert (x * b + a) * f == x * (b * f) + a * f;
  }

  lemma {:induction false} Emit(total: nat, v: nat, out: seq<nat>, acc: nat, bits: nat, to: nat)
    requires Holding(total, v, out, acc, bits, to) && to <= bits
    ensures Holding(total, v, out + [acc / Pow2(bits - to) % Pow2(to)], acc, bits - to, to)
  {
    hide Pow2, Value;
    var b, t := Pow2(bits - to), Pow2(to);
    Pow2Sum(bits - to, to);
    ModProduct(acc, b, t);
    var d := acc / b % t;
    ValuePush(out, d, t);
    var x := Value(out, t);
    assert (x * t + d) * b == x * (b * t) + d * b;
    assert |out + [d]| * to == |out| * to + to;
  }

  lemma {:induction false} PadLast(total: nat, v: nat, out: seq<nat>, acc: nat, bits: nat, to: nat)
    requires Holding(total, v, out, acc, bits, to) && 0 < bits < to <= WORD
    ensures var all := out + [ShiftLeft(acc, to - bits) % Pow2(to)];
            InRange(all, Pow2(to)) && |all| * to == total - bits + to && Value(all, Pow2(to)) == v * Pow2(to - bits)
  {
    hide Pow2, Value, ShiftLeft;
    var b, s, t := Pow2(bits), Pow2(to - bits), Pow2(to);
    ShiftKeepsLow(acc, to - bits, 0, bits);
    Pow2Sum(bits, to - bits);
    var a := acc % b;
    var d := ShiftLeft(acc, to - bits) % t;
    assert d == a * s;
    ValuePush(out, d, t);
    var x := Value(out, t);
    assert (x * b + a) * s == x * (b * s) + a * s;
    assert |out + [d]| * to == |out| * to + to;
  }

  lemma {:induction false} GroupsUnique(total: nat, to: nat, k: nat)
    requires to > 0 && total <= k * to < total + to
    ensures k == GroupsFor(total, to)
  {
    var g := GroupsFor(total, to);
    if k < g {
      StepBelow(k, g, to);
    } else if g < k {
      StepBelow(g, k, to);
    }
  }

  lemma {:induction false} PaddedIsRegroup(data: seq<nat>, from: nat, to: nat, out: seq<nat>, bits: nat)
    requires 0 < to && bits < to && InRange(out, Pow2(to))
    requires |out| * to == from * |data| + bits
    requires Value(out, Pow2(to)) == Value(data, Pow2(from)) * Pow2(bits)
    ensures Regroup(data, from, to, true) == Some(out)
  {
    hide Pow2, Value, Digits;
    GroupsUnique(from * |data|, to, |out|);
    DigitsOfValue(out, Pow2(to));
  }

  lemma {:induction false} UnpaddedIsRegroup(data: seq<nat>, from: nat, to: nat, out: seq<nat>, acc: nat, bits: nat)
    requires 0 < to && bits < to <= WORD
    requires Holding(from * |data|, Value(data, Pow2(from)), out, acc, bits, to)
    ensures Regroup(data, from, to, false)
            == if bits >= from || ShiftLeft(acc, to - bits) % Pow2(to) != 0 then None else Some(out)
  {
    hide Pow2, Value, Digits, ShiftLeft;
    DivMod(from * |data|, |out|, bits, to);
    DivMod(Value(data, Pow2(from)), Value(out, Pow2(to)), acc % Pow2(bits), Pow2(bits));
    DigitsOfValue(out, Pow2(to));
    ShiftKeepsLow(acc, to - bits, 0, bits);
    assert bits + (to - bits) == to;
    NonZeroProduct(acc % Pow2(bits), Pow2(to - bits));
  }

  lemma {:induction false} NonZeroProduct(a: nat, b: nat)
    requires b > 0
    ensures a * b == 0 <==> a == 0
  {
    if a > 0 {
      StepBelow(0, a, b);
    }
  }

  /**
   * The 32-bit loop regroups exactly, although `acc` wraps: the groups spell the same number,
   * and an unpadded result is refused exactly when bits are left over.
   */
  method ConvertBits(data: seq<nat>, from: nat, to: nat, pad: bool) returns (r: Option<seq<nat>>)
    requires 0 < from && 0 < to && from + to <= WORD && InRange(data, Pow2(from))
    ensures r == Regroup(data, from, to, pad)
  {
    hide Pow2, Value, ShiftLeft, Holding, Regroup;
    var acc: nat, bits: nat, out: seq<nat> := 0, 0, [];
    EmptyHolds(from, to);
    for i := 0 to |data|
      invariant bits < to
      invariant Holding(from * i, Value(data[..i], Pow2(from)), out, acc, bits, to)
    {
      Absorb(from * i, Value(data[..i], Pow2(from)), out, acc, bits, to, from, data[i]);
      TakeOneMore(data, i);
      ValuePush(data[..i], data[i], Pow2(from));
      acc := ShiftLeft(acc, from) + data[i];
      bits := bits + from;
      ghost var total, v := from * (i + 1), Value(data[..i + 1], Pow2(from));
      assert total == from * i + from;
      while bits >= to
        invariant Holding(total, v, out, acc, bits, to)
      {
        Emit(total, v, out, acc, bits, to);
        bits := bits - to;
        out := out + [acc / Pow2(bits) % Pow2(to)];
      }
    }
    assert data[..|data|] == data;
    if pad {
      if bits > 0 {
        PadLast(from * |data|, Value(data, Pow2(from)), out, acc, bits, to);
        PaddedIsRegroup(data, from, to, out + [ShiftLeft(acc, to - bits) % Pow2(to)], to - bits);
        out := out + [ShiftLeft(acc, to - bits) % Pow2(to)];
      } else {
        FullHolds(from * |data|, Value(data, Pow2(from)), out, acc, to);
        PaddedIsRegroup(data, from, to, out, 0);
      }
      r := Some(out);
    } else {
      UnpaddedIsRegroup(data, from, to, out, acc, bits);
      r := if bits >= from || ShiftLeft(acc, to - bits) % Pow2(to) != 0 then None else Some(out);
    }
  }

  lemma {:induction false} EmptyHolds(from: nat, to: nat)
    ensures Holding(from * 0, Value([], Pow2(from)), [], 0, 0, to)
  {
  }

  lemma {:induction false} FullHolds(total: nat, v: nat, out: seq<nat>, acc: nat, to: nat)
    requires Holding(total, v, out, acc, 0, to)
    ensures |out| * to == total && Value(out, Pow2(to)) * Pow2(0) == v && Pow2(0) == 1 && InRange(out, Pow2(to))
    ensures v * Pow2(0) == v
  {
    hide Value;
  }

  // ---------------------------------------------------------------- round trips

  /** Padding into narrower groups and regrouping back without padding gives the same list. */
  lemma {:induction false} RegroupThereAndBack(data: seq<nat>, wide: nat, narrow: nat)
    requires 0 < narrow <= wide && InRange(data, Pow2(wide))
    ensures var groups := Regroup(data, wide, narrow, true);
            groups.Some? && InRange(groups.value, Pow2(narrow))
              && Regroup(groups.value, narrow, wide, false) == Some(data)
  {
    hide Pow2, Value, Digits;
    var total, v := wide * |data|, Value(data, Pow2(wide));
    var k := GroupsFor(total, narrow);
    var extra := k * narrow - total;
    var groups := Digits(v * Pow2(extra), Pow2(narrow), k);
    ValueBound(data, wide);
    Pow2Sum(total, extra);
    StepBelow(v, Pow2(total), Pow2(extra));
    assert narrow * k == k * narrow;
    ValueOfDigits(v * Pow2(extra), narrow, k);
    DivMod(narrow * k, |data|, extra, wide);
    DivMod(v * Pow2(extra), v, 0, Pow2(extra));
    DigitsOfValue(data, Pow2(wide));
  }

  /** What the unpadded direction accepts is exactly what the padded direction produces. */
  lemma {:induction false} RegroupBackAndThere(groups: seq<nat>, narrow: nat, wide: nat)
    requires 0 < narrow <= wide && InRange(groups, Pow2(narrow))
    requires Regroup(groups, narrow, wide, false).Some?
    ensures var data := Regroup(groups, narrow, wide, false).value;
            InRange(data, Pow2(wide)) && Regroup(data, wide, narrow, true) == Some(groups)
  {
    hide Pow2, Value, Digits;
    var total, v := narrow * |groups|, Value(groups, Pow2(narrow));
    var k, rest := total / wide, total % wide;
    var x := v / Pow2(rest);
    assert v == x * Pow2(rest);
    assert total == wide * k + rest;
    ValueBound(groups, narrow);
    Pow2Sum(wide * k, rest);
    QuotientBelow(v, x, 0, Pow2(wide * k), Pow2(rest));
    ValueOfDigits(x, wide, k);
    PaddedIsRegroup(Digits(x, Pow2(wide), k), wide, narrow, groups, rest);
  }
}
