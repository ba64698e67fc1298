/** Checksummed addresses (src/ledger/address.ts): 32 raw bytes in hexadecimal against a Bech32m string. */
module Addresses {

  import opened Ledger
  import opened Numbers
  import opened Bits
  import opened Bech32

  const ADDRESS_HRP := "l1"

  // ---------------------------------------------------------------- hexadecimal

  function HexDigit(v: nat): (c: char)
    requires v < 16
    ensures IsLowerHex(c) && HexValue(c) == v
  {
    if v < 10 then '0' + (v as char) else 'a' + ((v - 10) as char)
  }

  function HexValue(c: char): (v: nat)
    requires IsLowerHex(c)
    ensures v < 16
  {
    if '0' <= c <= '9' then (c - '0') as nat else (c - 'a') as nat + 10
  }

  lemma {:induction false} DigitOfHexValue(c: char)
    requires IsLowerHex(c)
    ensures HexDigit(HexValue(c)) == c
  {
  }

  predicate IsHex(s: string) {
    |s| % 2 == 0 && forall i :: 0 <= i < |s| ==> IsLowerHex(s[i])
  }

  predicate IsRaw(s: string) {
    |s| == 64 && forall i :: 0 <= i < |s| ==> IsLowerHex(s[i])
  }

  function BytesOf(hex: string): (b: seq<nat>)
    requires IsHex(hex)
    ensures |hex| == 2 * |b| && InRange(b, 256)
  {
    if hex == "" then [] else
    var n := |hex| - 2;
    BytesOf(hex[..n]) + [16 * HexValue(hex[n]) + HexValue(hex[n + 1])]
  }

  function HexOf(bytes: seq<nat>): (hex: string)
    requires InRange(bytes, 256)
    ensures |hex| == 2 * |bytes| && IsHex(hex)
  {
    if bytes == [] then "" else
    var n := |bytes| - 1;
    HexOf(bytes[..n]) + [HexDigit(bytes[n] / 16), HexDigit(bytes[n] % 16)]
  }

  lemma {:induction false} HexPush(bytes: seq<nat>, b: nat)
    requires InRange(bytes, 256) && b < 256
    ensures InRange(bytes + [b], 256) && HexOf(bytes + [b]) == HexOf(bytes) + [HexDigit(b / 16), HexDigit(b % 16)]
  {
    hide HexDigit;
    assert (bytes + [b])[..|bytes|] == bytes;
  }

  lemma {:induction false} BytesPush(hex: string, x: char, y: char)
    requires IsHex(hex) && IsLowerHex(x) && IsLowerHex(y)
    ensures IsHex(hex + [x, y]) && BytesOf(hex + [x, y]) == BytesOf(hex) + [16 * HexValue(x) + HexValue(y)]
  {
    hide HexValue, IsLowerHex;
    assert (hex + [x, y])[..|hex|] == hex;
  }

  lemma {:induction false} HexSplit(hex: string)
    requires IsHex(hex) && hex != ""
    ensures var n := |hex| - 2;
            0 <= n && IsHex(hex[..n]) && IsLowerHex(hex[n]) && IsLowerHex(hex[n + 1])
              && hex == hex[..n] + [hex[n], hex[n + 1]]
  {
    hide IsLowerHex;
  }

  lemma {:induction false} NibblesBack(x: nat, y: nat)
    requires x < 16 && y < 16
    ensures 16 * x + y < 256 && (16 * x + y) / 16 == x && (16 * x + y) % 16 == y
  {
  }

  lemma {:induction false} HexOfBytes(hex: string)
    requires IsHex(hex)
    ensures HexOf(BytesOf(hex)) == hex
  {
    hide HexDigit, HexValue, IsLowerHex, InRange;
    if hex != "" {
      HexSplit(hex);
      var n := |hex| - 2;
      var front, a, b := hex[..n], hex[n], hex[n + 1];
      hide HexOf, BytesOf, IsHex;
      HexOfBytes(front);
      BytesPush(front, a, b);
      NibblesBack(HexValue(a), HexValue(b));
      HexPush(BytesOf(front), 16 * HexValue(a) + HexValue(b));
      DigitOfHexValue(a);
      DigitOfHexValue(b);
    }
  }

  lemma {:induction false} ValueOfDigit(v: nat)
    requires v < 16
    ensures IsLowerHex(HexDigit(v)) && HexValue(HexDigit(v)) == v
  {
  }

  lemma {:induction false} LastByte(bytes: seq<nat>)
    requires InRange(bytes, 256) && bytes != []
    ensures var n := |bytes| - 1;
            InRange(bytes[..n], 256) && bytes[n] < 256 && bytes == bytes[..n] + [bytes[n]]
            && bytes[n] / 16 < 16 && bytes[n] % 16 < 16 && 16 * (bytes[n] / 16) + bytes[n] % 16 == bytes[n]
  {
  }

  lemma {:induction false} BytesOfHex(bytes: seq<nat>)
    requires InRange(bytes, 256)
    ensures BytesOf(HexOf(bytes)) == bytes
  {
    hide HexDigit, HexValue, IsLowerHex, InRange;
    if bytes != [] {
      LastByte(bytes);
      var n := |bytes| - 1;
      var front, b := bytes[..n], bytes[n];
      hide HexOf, BytesOf, IsHex;
      BytesOfHex(front);
      HexPush(front, b);
      ValueOfDigit(b / 16);
      ValueOfDigit(b % 16);
      BytesPush(HexOf(front), HexDigit(b / 16), HexDigit(b % 16));
    }
  }

  // ---------------------------------------------------------------- addresses

  lemma {:induction false} Widths()
    ensures Pow2(8) == 256 && Pow2(5) == 32
  {
    assert Pow2(2) == 4;
    assert Pow2(4) == 16;
    assert Pow2(6) == 64;
  }

  function EncodeAddress(raw: string): Result<string> {
    if !IsRaw(raw) then Fail(NotRaw) else
    Widths();
    RegroupThereAndBack(BytesOf(raw), 8, 5);
    Ok(Encoding(ADDRESS_HRP, Regroup(BytesOf(raw), 8, 5, true).value))
  }

  function DecodeAddress(encoded: string): Result<string> {
    var r := Decoding(encoded);
    if r.Fail? then Fail(r.error)
    else if r.value.hrp != ADDRESS_HRP then Fail(WrongPrefix) else
    var bytes := Regroup(r.value.data, 5, 8, false);
    if bytes.None? then Fail(BadPadding)
    else if |bytes.value| != 32 then Fail(WrongLength) else
    Widths();
    DecodedIsEncoded(encoded);
    RegroupBackAndThere(r.value.data, 5, 8);
    Ok(HexOf(bytes.value))
  }

  /** Every raw address survives the trip through its checksummed form. */
  lemma {:induction false} AddressRoundTrip(raw: string)
    requires IsRaw(raw)
    ensures EncodeAddress(raw).Ok? && DecodeAddress(EncodeAddress(raw).value) == Ok(raw)
  {
    hide Regroup, Encoding, Decoding, BytesOf, HexOf;
    Widths();
    var bytes := BytesOf(raw);
    RegroupThereAndBack(bytes, 8, 5);
    var data := Regroup(bytes, 8, 5, true).value;
    PrefixIsPlain();
    DecodeUndoesEncode(ADDRESS_HRP, data);
    HexOfBytes(raw);
  }

  lemma {:induction false} PrefixIsPlain()
    ensures ADDRESS_HRP != "" && Lower(ADDRESS_HRP) == ADDRESS_HRP
  {
  }

  /** An accepted address is the one checksummed form of what it decodes to, up to letter case. */
  lemma {:induction false} AddressIsCanonical(encoded: string)
    requires DecodeAddress(encoded).Ok?
    ensures var raw := DecodeAddress(encoded).value;
            IsRaw(raw) && EncodeAddress(raw) == Ok(Lower(encoded))
  {
    hide Regroup, Encoding, Decoding, BytesOf, HexOf, Lower;
    Widths();
    DecodedIsEncoded(encoded);
    var data := Decoding(encoded).value.data;
    RegroupBackAndThere(data, 5, 8);
    BytesOfHex(Regroup(data, 5, 8, false).value);
  }
}
