/** The standard base64 encoding of section 4 of RFC 4648, as `encoding/base64` implements it:
    decoding skips line breaks and ignores the unused bits of the last symbol. */
module Base64 {
  import opened CacheTypes

  const PAD: Byte := 0x3D

  function Symbol(v: int): (b: Byte)
    requires 0 <= v < 64
  {
    if v < 26 then 0x41 + v          // A-Z
    else if v < 52 then 0x61 + v - 26  // a-z
    else if v < 62 then 0x30 + v - 52  // 0-9
    else if v == 62 then 0x2B          // +
    else 0x2F                          // /
  }

  function Value(b: Byte): (v: Option<int>)
    ensures v.Some? ==> 0 <= v.value < 64
  {
    if 0x41 <= b < 0x5B then Some(b - 0x41)
    else if 0x61 <= b < 0x7B then Some(b - 0x61 + 26)
    else if 0x30 <= b < 0x3A then Some(b - 0x30 + 52)
    else if b == 0x2B then Some(62)
    else if b == 0x2F then Some(63)
    else None
  }

  lemma SymbolValue(v: int)
    requires 0 <= v < 64
    ensures Value(Symbol(v)) == Some(v) && Symbol(v) != PAD && !IsLineBreak(Symbol(v))
  {
  }

  predicate IsLineBreak(b: Byte) {
    b == 0x0A || b == 0x0D
  }

  function Encode(s: Text): Text {
    if s == [] then []
    else if |s| == 1 then
      [Symbol(s[0] / 4), Symbol(s[0] % 4 * 16), PAD, PAD]
    else if |s| == 2 then
      [Symbol(s[0] / 4), Symbol(s[0] % 4 * 16 + s[1] / 16), Symbol(s[1] % 16 * 4), PAD]
    else
      [Symbol(s[0] / 4), Symbol(s[0] % 4 * 16 + s[1] / 16), Symbol(s[1] % 16 * 4 + s[2] / 64), Symbol(s[2] % 64)]
      + Encode(s[3..])
  }

  function Unbroken(s: Text): Text {
    if s == [] then [] else if IsLineBreak(s[0]) then Unbroken(s[1..]) else [s[0]] + Unbroken(s[1..])
  }

  /** Decoding of the input without its line breaks. */
  function DecodeQuads(s: Text): Option<Text> {
    if s == [] then Some([])
    else if |s| < 4 then None
    else
      var v0, v1 := Value(s[0]), Value(s[1]);
      if v0.None? || v1.None? then None
      else
        var b0 := v0.value * 4 + v1.value / 16;
        if |s| == 4 && s[2] == PAD && s[3] == PAD then Some([b0])
        else
          var v2 := Value(s[2]);
          if v2.None? then None
          else
            var b1 := v1.value % 16 * 16 + v2.value / 4;
            if |s| == 4 && s[3] == PAD then Some([b0, b1])
            else
              var v3 := Value(s[3]);
              var rest := DecodeQuads(s[4..]);
              if v3.None? || rest.None? then None
              else Some([b0, b1, v2.value % 4 * 64 + v3.value] + rest.value)
  }

  function Decode(s: Text): Option<Text> {
    DecodeQuads(Unbroken(s))
  }

  lemma OneByte(a: Byte)
    ensures DecodeQuads(Encode([a])) == Some([a])
  {
    SymbolValue(a / 4);
    SymbolValue(a % 4 * 16);
  }

  lemma TwoBytes(a: Byte, b: Byte)
    ensures DecodeQuads(Encode([a, b])) == Some([a, b])
  {
    SymbolValue(a / 4);
    SymbolValue(a % 4 * 16 + b / 16);
    SymbolValue(b % 16 * 4);
  }

  /** Four symbol values put together again are the three bytes they came from. */
  lemma Regroup(a: Byte, b: Byte, c: Byte)
    ensures var v0, v1, v2, v3 := a / 4, a % 4 * 16 + b / 16, b % 16 * 4 + c / 64, c % 64;
            v0 * 4 + v1 / 16 == a && v1 % 16 * 16 + v2 / 4 == b && v2 % 4 * 64 + v3 == c
  {
  }

  lemma DecodeFourSymbols(v0: int, v1: int, v2: int, v3: int, rest: Text)
    requires 0 <= v0 < 64 && 0 <= v1 < 64 && 0 <= v2 < 64 && 0 <= v3 < 64
    ensures DecodeQuads([Symbol(v0), Symbol(v1), Symbol(v2), Symbol(v3)] + rest) ==
            if DecodeQuads(rest).None? then None
            else Some([v0 * 4 + v1 / 16, v1 % 16 * 16 + v2 / 4, v2 % 4 * 64 + v3] + DecodeQuads(rest).value)
  {
    SymbolValue(v0);
    SymbolValue(v1);
    SymbolValue(v2);
    SymbolValue(v3);
    hide Symbol, Value;
    var s := [Symbol(v0), Symbol(v1), Symbol(v2), Symbol(v3)] + rest;
    assert s[0] == Symbol(v0) && s[1] == Symbol(v1) && s[2] == Symbol(v2) && s[3] == Symbol(v3);
    assert s[4..] == rest;
  }

  lemma ThreeBytes(a: Byte, b: Byte, c: Byte, rest: Text)
    ensures var quad := [Symbol(a / 4), Symbol(a % 4 * 16 + b / 16), Symbol(b % 16 * 4 + c / 64), Symbol(c % 64)];
            DecodeQuads(quad + rest) ==
            if DecodeQuads(rest).None? then None else Some([a, b, c] + DecodeQuads(rest).value)
  {
    hide Symbol, Value, DecodeQuads;
    DecodeFourSymbols(a / 4, a % 4 * 16 + b / 16, b % 16 * 4 + c / 64, c % 64, rest);
    Regroup(a, b, c);
  }

  lemma {:induction false} QuadsRoundTrip(s: Text)
    ensures DecodeQuads(Encode(s)) == Some(s)
  {
    hide Symbol, Value;
    if |s| == 1 {
      assert s == [s[0]];
      OneByte(s[0]);
    } else if |s| == 2 {
      assert s == [s[0], s[1]];
      TwoBytes(s[0], s[1]);
    } else if |s| > 2 {
      QuadsRoundTrip(s[3..]);
      ThreeBytes(s[0], s[1], s[2], Encode(s[3..]));
      assert s == [s[0], s[1], s[2]] + s[3..];
    }
  }

  lemma {:induction false} EncodeHasNoLineBreaks(s: Text)
    ensures Unbroken(Encode(s)) == Encode(s)
  {
    forall i | 0 <= i < |Encode(s)| ensures !IsLineBreak(Encode(s)[i]) { EncodeIsPrintable(s, i); }
    UnbrokenIsIdentity(Encode(s));
  }

  lemma {:induction false} EncodeIsPrintable(s: Text, i: nat)
    requires i < |Encode(s)|
    ensures 0x2B <= Encode(s)[i] < 0x7B
  {
    if |s| > 2 && i >= 4 {
      EncodeIsPrintable(s[3..], i - 4);
    }
  }

  lemma {:induction false} UnbrokenIsIdentity(s: Text)
    requires forall i :: 0 <= i < |s| ==> !IsLineBreak(s[i])
    ensures Unbroken(s) == s
  {
    if s != [] { UnbrokenIsIdentity(s[1..]); }
  }

  /** The round trip of section 4 of RFC 4648, for every byte string. */
  lemma RoundTrip(s: Text)
    ensures Decode(Encode(s)) == Some(s)
    ensures Encode(s) == [] <==> s == []
  {
    EncodeHasNoLineBreaks(s);
    QuadsRoundTrip(s);
  }

  /** The alphabet of table 1 of section 4 of RFC 4648. */
  lemma SymbolsAreTheAlphabet(v: nat)
    requires v < 64
    ensures Symbol(v) == if v < 26 then 'A' as int + v
                         else if v < 52 then 'a' as int + (v - 26)
                         else if v < 62 then '0' as int + (v - 52)
                         else if v == 62 then '+' as int
                         else '/' as int
  {
  }

  lemma OneGroup(a: Byte, b: Byte, c: Byte, rest: Text)
    ensures Encode([a, b, c] + rest) ==
            [Symbol(a / 4), Symbol(a % 4 * 16 + b / 16), Symbol(b % 16 * 4 + c / 64), Symbol(c % 64)] + Encode(rest)
  {
    assert ([a, b, c] + rest)[3..] == rest;
  }

  lemma LastGroups()
    ensures Encode([0x62]) == [Symbol(24), Symbol(32), PAD, PAD]
    ensures Encode([0x62, 0x61]) == [Symbol(24), Symbol(38), Symbol(4), PAD]
  {
  }

  lemma NothingToEncode()
    ensures Encode([]) == []
  {
  }

  /** The examples of section 10 of RFC 4648 for six, four and five bytes. */
  lemma TestVectors()
    ensures Spells(Encode([0x66, 0x6F, 0x6F] + [0x62, 0x61, 0x72]), "Zm9vYmFy")
    ensures Spells(Encode([0x66, 0x6F, 0x6F] + [0x62]), "Zm9vYg==")
    ensures Spells(Encode([0x66, 0x6F, 0x6F] + [0x62, 0x61]), "Zm9vYmE=")
  {
    hide Encode;
    LastGroups();
    NothingToEncode();
    OneGroup(0x66, 0x6F, 0x6F, [0x62, 0x61, 0x72]);
    OneGroup(0x66, 0x6F, 0x6F, [0x62]);
    OneGroup(0x66, 0x6F, 0x6F, [0x62, 0x61]);
    OneGroup(0x62, 0x61, 0x72, []);
    assert [0x62, 0x61, 0x72] + [] == [0x62, 0x61, 0x72];
  }
}
