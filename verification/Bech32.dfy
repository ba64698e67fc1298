/**
 * Bech32m strings (src/ledger/address.ts), as in the sections "Bech32" of BIP-173 and
 * "Bech32m" of BIP-350: a prefix, the separator "1", the data and six checksum symbols.
 */
module Bech32 {

  import opened Ledger
  import opened Bits
  import opened Checksum

  datatype AddressError =
    | NotRaw | MixedCase | Misshapen | BadCharacter | BadChecksum | WrongPrefix | BadPadding | WrongLength

  datatype Result<T> = Ok(value: T) | Fail(error: AddressError)

  datatype Decoded = Decoded(hrp: string, data: seq<nat>)

  // ---------------------------------------------------------------- characters

  const CHARSET := "qpzry9x8gf2tvdw0s3jn54khce6mua7l"

  function LowerChar(c: char): char {
    if 'A' <= c <= 'Z' then c - 'A' + 'a' else c
  }

  function UpperChar(c: char): char {
    if 'a' <= c <= 'z' then c - 'a' + 'A' else c
  }

  function Lower(s: string): (r: string)
    ensures |r| == |s| && forall i :: 0 <= i < |s| ==> r[i] == LowerChar(s[i])
  {
    if s == "" then "" else Lower(s[..|s| - 1]) + [LowerChar(s[|s| - 1])]
  }

  function Upper(s: string): (r: string)
    ensures |r| == |s| && forall i :: 0 <= i < |s| ==> r[i] == UpperChar(s[i])
  {
    if s == "" then "" else Upper(s[..|s| - 1]) + [UpperChar(s[|s| - 1])]
  }

  /** First position of `c` in `s`, or -1. */
  function IndexOf(s: string, c: char): (i: int)
    ensures -1 <= i < |s|
    ensures i >= 0 ==> s[i] == c && c !in s[..i]
    ensures i < 0 ==> c !in s
  {
    if s == "" then -1 else
    var i := IndexOf(s[..|s| - 1], c);
    if i >= 0 then i else if s[|s| - 1] == c then |s| - 1 else -1
  }

  /** Last position of `c` in `s`, or -1. */
  function LastIndexOf(s: string, c: char): (i: int)
    ensures -1 <= i < |s|
    ensures i >= 0 ==> s[i] == c
    ensures forall j :: i < j < |s| ==> s[j] != c
  {
    if s == "" then -1 else if s[|s| - 1] == c then |s| - 1 else LastIndexOf(s[..|s| - 1], c)
  }

  /** The character that stands for the symbol `d`. */
  function CharOf(d: nat): char
    requires d < 32
  {
    CHARSET[d]
  }

  /** `CHARSET.indexOf(c)`. */
  function SymbolOf(c: char): (v: int)
    ensures -1 <= v < 32 && (v >= 0 ==> CharOf(v) == c)
  {
    IndexOf(CHARSET, c)
  }

  lemma {:induction false} CharsDiffer(d: nat, e: nat)
    requires d < e < 32
    ensures CharOf(d) != CharOf(e)
  {
  }

  lemma {:induction false} CharIsPlain(d: nat)
    requires d < 32
    ensures CharOf(d) != '1' && LowerChar(CharOf(d)) == CharOf(d)
  {
  }

  lemma {:induction false} CharIsFound(d: nat)
    requires d < 32
    ensures SymbolOf(CharOf(d)) >= 0
  {
    assert CHARSET[d] in CHARSET;
  }

  lemma {:induction false} SymbolOfChar(d: nat)
    requires d < 32
    ensures SymbolOf(CharOf(d)) == d
  {
    hide CharOf, SymbolOf;
    CharIsFound(d);
    var v := SymbolOf(CharOf(d));
    if v < d {
      CharsDiffer(v, d);
    } else if d < v {
      CharsDiffer(d, v);
    }
  }

  /** The characters that stand for `data`. */
  function Spell(data: seq<nat>): (s: string)
    requires InRange(data, 32)
    ensures |s| == |data| && forall i :: 0 <= i < |s| ==> s[i] == CharOf(data[i])
  {
    if data == [] then "" else Spell(data[..|data| - 1]) + [CharOf(data[|data| - 1])]
  }

  /** The symbols that `s` spells, if every character is one. */
  function Symbols(s: string): Option<seq<nat>> {
    if s == "" then Some([]) else
    var front, v := Symbols(s[..|s| - 1]), SymbolOf(s[|s| - 1]);
    if front.None? || v < 0 then None else Some(front.value + [v])
  }

  lemma {:induction false} SymbolsSpell(s: string)
    requires Symbols(s).Some?
    ensures var d := Symbols(s).value; InRange(d, 32) && Spell(d) == s
  {
    hide CharOf, SymbolOf;
    if s != "" {
      var front, v := s[..|s| - 1], SymbolOf(s[|s| - 1]);
      SymbolsSpell(front);
      var d := Symbols(front).value;
      assert (d + [v])[..|d|] == d;
      assert s == front + [s[|s| - 1]];
    }
  }

  lemma {:induction false} SymbolsOfSpell(data: seq<nat>)
    requires InRange(data, 32)
    ensures Symbols(Spell(data)) == Some(data)
  {
    hide CharOf, SymbolOf;
    if data != [] {
      var front, last := data[..|data| - 1], data[|data| - 1];
      SymbolsOfSpell(front);
      SymbolOfChar(last);
      assert Spell(data)[..|data| - 1] == Spell(front);
      assert data == front + [last];
    }
  }

  /** First UTF-16 code unit of a character. */
  function Code(c: char): (u: nat)
    ensures u < 0x10000
  {
    var n := c as int;
    if n < 0x10000 then n else 0xd800 + (n - 0x10000) / 0x400
  }

  function HighBits(hrp: string): (r: seq<nat>)
    ensures |r| == |hrp| && InRange(r, 0x10000)
  {
    if hrp == "" then [] else HighBits(hrp[..|hrp| - 1]) + [Code(hrp[|hrp| - 1]) / 32]
  }

  function LowBits(hrp: string): (r: seq<nat>)
    ensures |r| == |hrp| && InRange(r, 0x10000)
  {
    if hrp == "" then [] else LowBits(hrp[..|hrp| - 1]) + [Code(hrp[|hrp| - 1]) % 32]
  }

  function Expand(hrp: string): (r: seq<nat>)
    ensures InRange(r, 0x10000)
  {
    HighBits(hrp) + [0] + LowBits(hrp)
  }

  method ExpandOf(hrp: string) returns (out: seq<nat>)
    ensures out == Expand(hrp)
  {
    out := [];
    for i := 0 to |hrp|
      invariant out == HighBits(hrp[..i])
    {
      TakeOneMore(hrp, i);
      assert hrp[..i + 1][..i] == hrp[..i];
      out := out + [Code(hrp[i]) / 32];
    }
    assert hrp[..|hrp|] == hrp;
    out := out + [0];
    for i := 0 to |hrp|
      invariant out == HighBits(hrp) + [0] + LowBits(hrp[..i])
    {
      TakeOneMore(hrp, i);
      assert hrp[..i + 1][..i] == hrp[..i];
      out := out + [Code(hrp[i]) % 32];
    }
  }

  // ---------------------------------------------------------------- encoding

  function Encoding(hrp: string, data: seq<nat>): string
    requires InRange(data, 32)
  {
    hrp + "1" + Spell(data + ChecksumOf(Expand(hrp) + data))
  }

  method SpellOut(data: seq<nat>) returns (s: string)
    requires InRange(data, 32)
    ensures s == Spell(data)
  {
    hide CharOf;
    s := "";
    for i := 0 to |data|
      invariant s == Spell(data[..i])
    {
      TakeOneMore(data, i);
      assert data[..i + 1][..i] == data[..i];
      s := s + [CharOf(data[i])];
    }
    assert data[..|data|] == data;
  }

  method Unpack(mod: bv32) returns (checksum: seq<nat>)
    ensures checksum == Unpacked(mod)
  {
    hide Group, AsSymbol;
    checksum := [];
    for i := 0 to 6
      invariant checksum == Unpacked(mod)[..i]
    {
      TakeOneMore(Unpacked(mod), i);
      checksum := checksum + [AsSymbol(Group(mod, i))];
    }
    assert Unpacked(mod)[..6] == Unpacked(mod);
  }

  method Bech32mEncode(hrp: string, data: seq<nat>) returns (s: string)
    requires InRange(data, 32)
    ensures s == Encoding(hrp, data)
  {
    hide CharOf, Spell, Polymod, Xor, Unpacked, Expand;
    var expanded := ExpandOf(hrp);
    var reg := PolymodOf(expanded + data + Zeros(6));
    PolymodConcat(1, expanded + data, Zeros(6));
    var mod := Xor(reg, BECH32M_CONST);
    var checksum := Unpack(mod);
    var spelled := SpellOut(data + checksum);
    s := hrp + "1" + spelled;
  }

  // ---------------------------------------------------------------- decoding

  function Decoding(input: string): Result<Decoded> {
    var lower := Lower(input);
    if lower != input && Upper(input) != input then Fail(MixedCase) else
    var sep := LastIndexOf(lower, '1');
    if sep < 1 || sep + 7 > |lower| then Fail(Misshapen) else
    var data := Symbols(lower[sep + 1..]);
    if data.None? then Fail(BadCharacter) else
    SymbolsSpell(lower[sep + 1..]);
    Checked(lower[..sep], data.value)
  }

  function Checked(hrp: string, data: seq<nat>): Result<Decoded>
    requires InRange(data, 32) && |data| >= 6
  {
    if Polymod(1, Expand(hrp) + data) != BECH32M_CONST then Fail(BadChecksum)
    else Ok(Decoded(hrp, data[..|data| - 6]))
  }

  lemma {:induction false} SymbolsTake(s: string, i: nat)
    requires i <= |s| && Symbols(s[..i]).None?
    ensures Symbols(s).None?
    decreases |s|
  {
    hide SymbolOf;
    if i == |s| {
      assert s[..i] == s;
    } else {
      assert s[..|s| - 1][..i] == s[..i];
      SymbolsTake(s[..|s| - 1], i);
    }
  }

  method SymbolsIn(s: string) returns (r: Option<seq<nat>>)
    ensures r == Symbols(s)
    ensures r.Some? ==> |r.value| == |s| && InRange(r.value, 32)
  {
    hide SymbolOf;
    var data: seq<nat> := [];
    for i := 0 to |s|
      invariant |data| == i && InRange(data, 32) && Symbols(s[..i]) == Some(data)
    {
      TakeOneMore(s, i);
      assert s[..i + 1][..i] == s[..i];
      var v := SymbolOf(s[i]);
      if v < 0 {
        SymbolsTake(s, i + 1);
        return None;
      }
      data := data + [v];
    }
    assert s[..|s|] == s;
    return Some(data);
  }

  method Bech32mDecode(input: string) returns (r: Result<Decoded>)
    ensures r == Decoding(input)
  {
    hide Symbols, Polymod, Expand, Lower, Upper, LastIndexOf;
    var lower := Lower(input);
    if lower != input && Upper(input) != input {
      return Fail(MixedCase);
    }
    var sep := LastIndexOf(lower, '1');
    if sep < 1 || sep + 7 > |lower| {
      return Fail(Misshapen);
    }
    var data := SymbolsIn(lower[sep + 1..]);
    if data.None? {
      return Fail(BadCharacter);
    }
    var expanded := ExpandOf(lower[..sep]);
    var reg := PolymodOf(expanded + data.value);
    if reg != BECH32M_CONST {
      return Fail(BadChecksum);
    }
    return Ok(Decoded(lower[..sep], data.value[..|data.value| - 6]));
  }

  // ---------------------------------------------------------------- round trips

  lemma {:induction false} LowerConcat(a: string, b: string)
    ensures Lower(a + b) == Lower(a) + Lower(b)
  {
    hide LowerChar;
    assert |Lower(a + b)| == |Lower(a) + Lower(b)|;
    forall i | 0 <= i < |a + b|
      ensures Lower(a + b)[i] == (Lower(a) + Lower(b))[i]
    {
    }
  }

  lemma {:induction false} SpellIsPlain(data: seq<nat>)
    requires InRange(data, 32)
    ensures Lower(Spell(data)) == Spell(data) && '1' !in Spell(data)
  {
    hide CharOf, LowerChar;
    forall i | 0 <= i < |data|
      ensures Lower(Spell(data))[i] == Spell(data)[i] && Spell(data)[i] != '1'
    {
      CharIsPlain(data[i]);
    }
  }

  /** `sep` is where the last separator stands when nothing after it is one. */
  lemma {:induction false} SeparatorFound(hrp: string, rest: string)
    requires '1' !in rest
    ensures LastIndexOf(hrp + "1" + rest, '1') == |hrp|
  {
    var s := hrp + "1" + rest;
    assert s[|hrp|] == '1';
    forall j | |hrp| < j < |s|
      ensures s[j] != '1'
    {
      assert s[j] == rest[j - |hrp| - 1];
    }
  }

  /** A lower-case string of prefix, separator and symbols is parsed into exactly these. */
  lemma {:induction false} Parses(hrp: string, data: seq<nat>)
    requires hrp != "" && Lower(hrp) == hrp && InRange(data, 32) && |data| >= 6
    ensures Decoding(hrp + "1" + Spell(data)) == Checked(hrp, data)
  {
    hide CharOf, LowerChar, Spell, Symbols, Checked;
    var rest := Spell(data);
    var s := hrp + "1" + rest;
    SpellIsPlain(data);
    SeparatorFound(hrp, rest);
    LowerConcat(hrp + "1", rest);
    LowerConcat(hrp, "1");
    OneIsLower();
    SpellLength(data);
    SymbolsOfSpell(data);
    assert s[..|hrp|] == hrp && s[|hrp| + 1..] == rest;
  }

  lemma {:induction false} OneIsLower()
    ensures Lower("1") == "1"
  {
  }

  lemma {:induction false} SpellLength(data: seq<nat>)
    requires InRange(data, 32)
    ensures |Spell(data)| == |data|
  {
  }

  /** Decoding undoes encoding exactly for the non-empty prefixes without capitals. */
  lemma {:induction false} DecodeUndoesEncode(hrp: string, data: seq<nat>)
    requires InRange(data, 32)
    ensures Decoding(Encoding(hrp, data)) == Ok(Decoded(hrp, data)) <==> hrp != "" && Lower(hrp) == hrp
  {
    hide Spell, ChecksumOf, Expand, Polymod, Decoding, Lower;
    if hrp != "" && Lower(hrp) == hrp {
      var all := data + ChecksumOf(Expand(hrp) + data);
      Parses(hrp, all);
      ChecksumVerifies(Expand(hrp) + data);
      assert Expand(hrp) + data + ChecksumOf(Expand(hrp) + data) == Expand(hrp) + all;
      assert all[..|all| - 6] == data;
    } else if Decoding(Encoding(hrp, data)) == Ok(Decoded(hrp, data)) {
      DecodedIsEncoded(Encoding(hrp, data));
    }
  }

  lemma {:induction false} LowerTwice(s: string)
    ensures Lower(Lower(s)) == Lower(s)
  {
  }

  /** Whatever decodes is the encoding of its parts, up to letter case. */
  lemma {:induction false} DecodedIsEncoded(s: string)
    requires Decoding(s).Ok?
    ensures var d := Decoding(s).value;
            d.hrp != "" && Lower(d.hrp) == d.hrp && InRange(d.data, 32) && Encoding(d.hrp, d.data) == Lower(s)
  {
    hide Spell, ChecksumOf, Expand, Polymod, LastIndexOf, Symbols, Lower;
    var lower := Lower(s);
    var sep := LastIndexOf(lower, '1');
    var hrp, rest := lower[..sep], lower[sep + 1..];
    SymbolsSpell(rest);
    var all := Symbols(rest).value;
    SpellLength(all);
    var n := |all| - 6;
    var data, sum := all[..n], all[n..];
    assert Expand(hrp) + data + sum == Expand(hrp) + all;
    ChecksumUnique(Expand(hrp) + data, sum);
    assert all == data + sum;
    assert lower == hrp + "1" + rest;
    LowerTwice(s);
    LowerTake(lower, sep);
  }

  lemma {:induction false} LowerTake(s: string, n: nat)
    requires n <= |s| && Lower(s) == s
    ensures Lower(s[..n]) == s[..n]
  {
    LowerConcat(s[..n], s[n..]);
    assert s == s[..n] + s[n..];
  }

  /**
   * Changing characters within any six consecutive places after the separator, each to another
   * character of the alphabet, is refused, at any length.
   */
  lemma {:induction false} BurstRefused(hrp: string, before: seq<nat>, w: seq<nat>, u: seq<nat>, after: seq<nat>)
    requires hrp != "" && Lower(hrp) == hrp
    requires InRange(before, 32) && InRange(w, 32) && InRange(u, 32) && InRange(after, 32)
    requires |w| == |u| <= 6 && w != u && |before + w + after| >= 6
    requires Decoding(hrp + "1" + Spell(before + w + after)).Ok?
    ensures Decoding(hrp + "1" + Spell(before + u + after)) == Fail(BadChecksum)
  {
    hide Spell, Expand, Polymod, Holds, Decoding, Lower;
    Parses(hrp, before + w + after);
    Parses(hrp, before + u + after);
    OneHolds();
    BurstDetected(1, Expand(hrp) + before, w, u, after);
    assert Expand(hrp) + before + w + after == Expand(hrp) + (before + w + after);
    assert Expand(hrp) + before + u + after == Expand(hrp) + (before + u + after);
  }
}
