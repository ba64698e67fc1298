/**
 * The address format against its standards (src/ledger/address.ts:19-21, 44-66, 91-103,
 * tests/ledger/addressCodec.test.ts:57-64): the alphabet of BIP-173, a valid string of BIP-350, and what an address
 * spells.
 */
module Vectors {

  import opened Ledger
  import opened Numbers
  import opened Bits
  import opened Checksum
  import opened Bech32
  import opened Addresses

  // ---------------------------------------------------------------- a string of BIP-350

  lemma {:induction false} ThreeSymbols(x: nat, y: nat, z: nat)
    requires x < 0x10000 && y < 0x10000 && z < 0x10000
    ensures Polymod(1, [x, y, z]) == Step(Step(Step(1, Word(x)), Word(y)), Word(z))
  {
    hide Step, Word, Polymod;
    PolymodEmpty(1);
    PolymodPush(1, [], x);
    PolymodPush(1, [x], y);
    PolymodPush(1, [x, y], z);
    assert [] + [x] == [x] && [x] + [y] == [x, y] && [x, y] + [z] == [x, y, z];
  }

  lemma {:induction false} ZeroFed(chk: bv32, n: nat)
    ensures Polymod(chk, Zeros(n + 1)) == Step(Polymod(chk, Zeros(n)), 0)
  {
    assert Word(0) == 0;
    hide Step, Polymod, Word;
    PolymodPush(chk, Zeros(n), 0);
  }

  lemma {:induction false} SixZeros(chk: bv32)
    ensures Polymod(chk, Zeros(6)) == Step(Step(Step(Step(Step(Step(chk, 0), 0), 0), 0), 0), 0)
  {
    assert Zeros(0) == [];
    hide Step, Polymod, Zeros;
    PolymodEmpty(chk);
    ZeroFed(chk, 0);
    ZeroFed(chk, 1);
    ZeroFed(chk, 2);
    ZeroFed(chk, 3);
    ZeroFed(chk, 4);
    ZeroFed(chk, 5);
  }

  lemma {:induction false} FirstSteps()
    ensures Word(0) == 0 && Word(1) == 1 && Word(3) == 3
    ensures Step(0x1, 3) == 0x23 && Step(0x23, 0) == 0x460 && Step(0x460, 1) == 0x8c01
    ensures Step(0x8c01, 0) == 0x11_8020 && Step(0x11_8020, 0) == 0x230_0400
  {
  }

  lemma {:induction false} LastSteps()
    ensures Step(0x230_0400, 0) == 0x3d6a_d7b2 && Step(0x3d6a_d7b2, 0) == 0x2fd_30b9
    ensures Step(0x2fd_30b9, 0) == 0x24cc_4092 && Step(0x24cc_4092, 0) == 0x15cc_fe9e
  {
  }

  /** The register over the prefix `a` and six zeros. */
  lemma {:induction false} KnownRegister()
    ensures Polymod(1, [3, 0, 1] + Zeros(6)) == 0x15cc_fe9e
  {
    hide Polymod, Step, Word;
    FirstSteps();
    LastSteps();
    ThreeSymbols(3, 0, 1);
    PolymodConcat(1, [3, 0, 1], Zeros(6));
    SixZeros(0x8c01);
  }

  lemma {:induction false} KnownChecksum()
    ensures Unpacked(Xor(0x15cc_fe9e, BECH32M_CONST)) == [31, 0, 9, 19, 17, 29]
  {
  }

  lemma {:induction false} SpellEach(data: seq<nat>, s: string)
    requires InRange(data, 32) && |s| == |data| && forall i :: 0 <= i < |s| ==> s[i] == CharOf(data[i])
    ensures Spell(data) == s
  {
  }

  lemma {:induction false} ExpandedPrefix()
    ensures Expand("a") == [3, 0, 1] && Lower("a") == "a"
  {
    assert "a"[..0] == "";
    assert HighBits("a") == [3] && LowBits("a") == [1];
  }

  lemma {:induction false} KnownSymbols()
    ensures ChecksumOf([3, 0, 1]) == [31, 0, 9, 19, 17, 29]
  {
    hide Polymod, Unpacked, Xor;
    PolymodConcat(1, [3, 0, 1], Zeros(6));
    KnownRegister();
    KnownChecksum();
  }

  lemma {:induction false} EncodedWith(hrp: string, expanded: seq<nat>, checksum: seq<nat>, s: string)
    requires Expand(hrp) == expanded && ChecksumOf(expanded) == checksum && Spell(checksum) == s
    ensures Encoding(hrp, []) == hrp + "1" + s
  {
    hide Spell, Expand, ChecksumOf;
    assert Expand(hrp) + [] == Expand(hrp) && [] + checksum == checksum;
  }

  lemma {:induction false} KnownCharacters()
    ensures Spell([31, 0, 9, 19, 17, 29]) == "lqfn3a"
  {
    SpellEach([31, 0, 9, 19, 17, 29], "lqfn3a");
  }

  /** The prefix `a` without data is `a1lqfn3a`, as BIP-350 has it. */
  lemma {:induction false} KnownString()
    ensures Encoding("a", []) == "a1lqfn3a" && Decoding("a1lqfn3a") == Ok(Decoded("a", []))
  {
    hide Polymod, Unpacked, Spell, Expand, ChecksumOf, Decoding, Lower, Encoding;
    ExpandedPrefix();
    KnownSymbols();
    KnownCharacters();
    EncodedWith("a", [3, 0, 1], [31, 0, 9, 19, 17, 29], "lqfn3a");
    DecodeUndoesEncode("a", []);
  }

  // ---------------------------------------------------------------- the alphabet

  function UpTo(n: nat): (s: seq<nat>)
    ensures |s| == n && forall i :: 0 <= i < n ==> s[i] == i
  {
    seq(n, i => i)
  }

  /** The 32 characters in the order of BIP-173. */
  lemma {:induction false} Alphabet()
    ensures Spell(UpTo(32)) == "qpzry9x8gf2tvdw0s3jn54khce6mua7l"
  {
    SpellEach(UpTo(32), "qpzry9x8gf2tvdw0s3jn54khce6mua7l");
  }

  // ---------------------------------------------------------------- what decodes

  lemma {:induction false} CaseIsLost(s: string)
    ensures Lower(Upper(s)) == Lower(s) && Upper(Lower(s)) == Upper(s) && Upper(Upper(s)) == Upper(s)
  {
    assert forall c :: LowerChar(UpperChar(c)) == LowerChar(c) && UpperChar(LowerChar(c)) == UpperChar(c);
    assert forall c :: UpperChar(UpperChar(c)) == UpperChar(c);
  }

  lemma {:induction false} SameWhenUpper(s: string)
    requires Lower(s) == s
    ensures Decoding(Upper(s)) == Decoding(s)
  {
    hide Lower, Upper, Symbols, Checked;
    CaseIsLost(s);
  }

  /** A string decodes to a prefix and data exactly if it is their encoding, in lower case or all in capitals. */
  lemma {:induction false} DecodesExactly(s: string, hrp: string, data: seq<nat>)
    requires InRange(data, 32)
    ensures Decoding(s) == Ok(Decoded(hrp, data)) <==>
      hrp != "" && Lower(hrp) == hrp && (s == Encoding(hrp, data) || s == Upper(Encoding(hrp, data)))
  {
    hide Lower, Upper, Encoding, Decoding;
    var e := Encoding(hrp, data);
    DecodeUndoesEncode(hrp, data);
    if Decoding(s) == Ok(Decoded(hrp, data)) {
      DecodedIsEncoded(s);
      NotMixed(s);
      CaseIsLost(s);
    } else if hrp != "" && Lower(hrp) == hrp {
      DecodedIsEncoded(e);
      NotMixed(e);
      CaseIsLost(e);
      SameWhenUpper(e);
    }
  }

  lemma {:induction false} NotMixed(s: string)
    requires Decoding(s).Ok?
    ensures s == Lower(s) || s == Upper(s)
  {
    hide Lower, Upper, Symbols, Checked;
  }

  /** And an address to raw digits exactly if it is their checksummed form, in lower case or all in capitals. */
  lemma {:induction false} AddressDecodesExactly(s: string, raw: string)
    ensures DecodeAddress(s) == Ok(raw) <==>
      IsRaw(raw) && EncodeAddress(raw).Ok? && (s == EncodeAddress(raw).value || s == Upper(EncodeAddress(raw).value))
  {
    hide Lower, Upper, Encoding, Decoding, Regroup, BytesOf, HexOf;
    if DecodeAddress(s) == Ok(raw) {
      AddressIsCanonical(s);
      NotMixed(s);
      CaseIsLost(s);
    } else if IsRaw(raw) {
      AddressRoundTrip(raw);
      var e := EncodeAddress(raw).value;
      AddressIsCanonical(e);
      SameWhenUpper(e);
    }
  }

  // ---------------------------------------------------------------- what an address spells

  /** The number that hexadecimal digits write. */
  function HexNumber(hex: string): nat
    requires forall i :: 0 <= i < |hex| ==> IsLowerHex(hex[i])
  {
    if hex == "" then 0 else 16 * HexNumber(hex[..|hex| - 1]) + HexValue(hex[|hex| - 1])
  }

  lemma {:induction false} BytesSpell(hex: string)
    requires IsHex(hex)
    ensures Value(BytesOf(hex), 256) == HexNumber(hex)
  {
    if hex != "" {
      HexSplit(hex);
      var n := |hex| - 2;
      var front, a, b := hex[..n], hex[n], hex[n + 1];
      BytesSpell(front);
      BytesPush(front, a, b);
      ValuePush(BytesOf(front), 16 * HexValue(a) + HexValue(b), 256);
      assert hex[..n + 1][..n] == front && hex[..n + 1][n] == a && hex[..|hex| - 1] == hex[..n + 1];
    }
  }

  /**
   * An address is `l1`, the separator, 52 symbols that spell the number of its 64 hexadecimal digits times 16, and the
   * checksum.
   */
  lemma {:induction false} AddressSpells(raw: string) returns (data: seq<nat>)
    requires IsRaw(raw)
    ensures |data| == 52 && InRange(data, 32) && Value(data, 32) == HexNumber(raw) * 16
    ensures EncodeAddress(raw) == Ok("l11" + Spell(data + ChecksumOf([3, 1, 0, 12, 17] + data)))
  {
    hide ChecksumOf, Spell, BytesOf;
    Widths();
    var bytes := BytesOf(raw);
    RegroupThereAndBack(bytes, 8, 5);
    data := Regroup(bytes, 8, 5, true).value;
    BytesSpell(raw);
    PaddedValue(bytes, HexNumber(raw));
    PrefixExpanded();
    assert "l1" + "1" == "l11";
  }

  lemma {:induction false} PrefixExpanded()
    ensures Expand(ADDRESS_HRP) == [3, 1, 0, 12, 17]
  {
    var p := ADDRESS_HRP;
    assert p[..1] == "l" && p[..1][..0] == "";
    assert HighBits(p[..1]) == [3] && LowBits(p[..1]) == [12];
    assert HighBits(p) == [3] + [1] && LowBits(p) == [12] + [17];
  }

  lemma {:induction false} PaddedValue(bytes: seq<nat>, v: nat)
    requires InRange(bytes, 256) && |bytes| == 32 && Value(bytes, 256) == v
    ensures var data := Regroup(bytes, 8, 5, true);
            data.Some? && |data.value| == 52 && InRange(data.value, 32) && Value(data.value, 32) == v * 16
  {
    hide Value, Digits;
    Widths();
    assert Pow2(4) == 16;
    ValueBound(bytes, 8);
    Pow2Sum(256, 4);
    hide Pow2;
    assert GroupsFor(256, 5) == 52;
    ValueOfDigits(v * 16, 5, 52);
  }
}
