/** Which ETags are valid UTF-8, and what becomes of the others, in the terms of section 3 of RFC 3629. */
module Utf8Runes {
  import opened CacheTypes
  import opened MetadataJson

  /** Some scalar value's bytes start `s`. */
  ghost predicate StartsWithRune(s: Text) {
    exists code :: Scalar(code) && Utf8(code) <= s
  }

  lemma RuneIsRead(code: int, rest: Text)
    requires Scalar(code)
    ensures RuneLength(Utf8(code) + rest) == |Utf8(code)|
  {
  }

  lemma Digits(high: nat, low: nat)
    requires low < 64
    ensures (high * 64 + low) / 64 == high && (high * 64 + low) % 64 == low
  {
  }

  lemma TwoBytes(a: nat, b: nat)
    requires 2 <= a < 32 && b < 64
    ensures Utf8(a * 64 + b) == [0xC0 + a, 0x80 + b]
  {
    Digits(a, b);
  }

  lemma ThreeBytes(a: nat, b: nat, c: nat)
    requires a < 16 && b < 64 && c < 64 && (a == 0 ==> b >= 32) && (a == 13 ==> b < 32)
    ensures var code := (a * 64 + b) * 64 + c;
            Scalar(code) && Utf8(code) == [0xE0 + a, 0x80 + b, 0x80 + c]
  {
    var code := (a * 64 + b) * 64 + c;
    Digits(a * 64 + b, c);
    Digits(a, b);
    assert code / 4096 == a;
  }

  lemma FourBytes(a: nat, b: nat, c: nat, d: nat)
    requires a < 5 && b < 64 && c < 64 && d < 64 && (a == 0 ==> b >= 16) && (a == 4 ==> b < 16)
    ensures var code := ((a * 64 + b) * 64 + c) * 64 + d;
            Scalar(code) && Utf8(code) == [0xF0 + a, 0x80 + b, 0x80 + c, 0x80 + d]
  {
    var code := ((a * 64 + b) * 64 + c) * 64 + d;
    Digits((a * 64 + b) * 64 + c, d);
    Digits(a * 64 + b, c);
    Digits(a, b);
    assert code / 4096 == a * 64 + b;
    assert code / 262144 == a;
  }

  /** The scalar value that bytes in the ranges of the table stand for. */
  lemma ReadIsRune(s: Text) returns (code: int)
    requires s != [] && RuneLength(s) > 0
    ensures Scalar(code) && Utf8(code) == s[..RuneLength(s)]
  {
    hide Utf8;
    if s[0] < 0x80 {
      code := OneByte(s);
      return;
    }
    var a, b: int := s[0], s[1];
    if a < 0xE0 {
      TwoBytes(a - 0xC0, b - 0x80);
      return (a - 0xC0) * 64 + (b - 0x80);
    }
    var c: int := s[2];
    if a < 0xF0 {
      ThreeBytes(a - 0xE0, b - 0x80, c - 0x80);
      return ((a - 0xE0) * 64 + (b - 0x80)) * 64 + (c - 0x80);
    }
    var d: int := s[3];
    FourBytes(a - 0xF0, b - 0x80, c - 0x80, d - 0x80);
    return (((a - 0xF0) * 64 + (b - 0x80)) * 64 + (c - 0x80)) * 64 + (d - 0x80);
  }

  lemma OneByte(s: Text) returns (code: int)
    requires s != [] && s[0] < 0x80
    ensures Scalar(code) && Utf8(code) == s[..1] && RuneLength(s) == 1
  {
    code := s[0];
  }

  /** A text is valid exactly if it is the UTF-8 of some scalar values. */
  function Encoded(codes: seq<int>): Text
    requires forall code :: code in codes ==> Scalar(code)
  {
    if codes == [] then [] else Utf8(codes[0]) + Encoded(codes[1..])
  }

  lemma {:induction false} EncodedIsValid(codes: seq<int>)
    requires forall code :: code in codes ==> Scalar(code)
    ensures ValidUtf8(Encoded(codes))
  {
    hide RuneLength, Utf8;
    if codes != [] {
      var rune, rest := Utf8(codes[0]), Encoded(codes[1..]);
      EncodedIsValid(codes[1..]);
      RuneIsRead(codes[0], rest);
      assert (rune + rest)[|rune|..] == rest;
    }
  }

  lemma {:induction false} ValidIsEncoded(s: Text) returns (codes: seq<int>)
    requires ValidUtf8(s)
    ensures (forall code :: code in codes ==> Scalar(code)) && Encoded(codes) == s
    decreases |s|
  {
    hide RuneLength, Utf8;
    codes := [];
    if s != [] {
      var first := ReadIsRune(s);
      var others := ValidIsEncoded(s[RuneLength(s)..]);
      codes := [first] + others;
      assert codes[1..] == others && s == s[..RuneLength(s)] + s[RuneLength(s)..];
    }
  }

  /** What becomes of an ETag: scalar values stay, and each byte at which none starts becomes U+FFFD. */
  lemma CoercesExactly(s: Text, code: int, rest: Text)
    ensures Coerce([]) == []
    ensures Scalar(code) ==> Coerce(Utf8(code) + rest) == Utf8(code) + Coerce(rest)
    ensures s != [] && !StartsWithRune(s) ==> Coerce(s) == [0xEF, 0xBF, 0xBD] + Coerce(s[1..])
  {
    hide RuneLength, Utf8;
    if Scalar(code) {
      RuneIsRead(code, rest);
      assert (Utf8(code) + rest)[|Utf8(code)|..] == rest && (Utf8(code) + rest)[..|Utf8(code)|] == Utf8(code);
    }
    if s != [] && RuneLength(s) > 0 {
      var first := ReadIsRune(s);
      assert Utf8(first) <= s;
    }
  }
}
