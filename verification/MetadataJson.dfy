/** The JSON text of `cache.Metadata` as `encoding/json` writes and reads it: an optional `etag` string,
    escaped, in which every byte that is not part of valid UTF-8 becomes U+FFFD. */
module MetadataJson {
  import opened CacheTypes

  const QUOTE: Byte := 0x22
  const BACKSLASH: Byte := 0x5C

  /** U+FFFD in UTF-8. */
  const REPLACEMENT: Text := [0xEF, 0xBF, 0xBD]

  predicate Continues(b: Byte) {
    0x80 <= b < 0xC0
  }

  /** The length of the valid UTF-8 sequence that starts `s`, or 0 if none does. */
  function RuneLength(s: Text): (n: nat)
    requires s != []
    ensures n <= 4 && n <= |s|
  {
    var b := s[0];
    if b < 0x80 then 1
    else if |s| >= 2 && 0xC2 <= b < 0xE0 && Continues(s[1]) then 2
    else if |s| >= 3 && 0xE0 <= b < 0xF0 && Continues(s[1]) && Continues(s[2])
            && (b == 0xE0 ==> s[1] >= 0xA0) && (b == 0xED ==> s[1] < 0xA0) then 3
    else if |s| >= 4 && 0xF0 <= b < 0xF5 && Continues(s[1]) && Continues(s[2]) && Continues(s[3])
            && (b == 0xF0 ==> s[1] >= 0x90) && (b == 0xF4 ==> s[1] < 0x90) then 4
    else 0
  }

  predicate ValidUtf8(s: Text) {
    s == [] || (RuneLength(s) > 0 && ValidUtf8(s[RuneLength(s)..]))
  }

  /** The string that survives the encoding. */
  function Coerce(s: Text): Text {
    if s == [] then []
    else if RuneLength(s) == 0 then REPLACEMENT + Coerce(s[1..])
    else s[..RuneLength(s)] + Coerce(s[RuneLength(s)..])
  }

  function HexDigit(v: int): Byte
    requires 0 <= v < 16
  {
    if v < 10 then 0x30 + v else 0x61 + v - 10
  }

  function HexValue(b: Byte): (v: Option<int>)
    ensures v.Some? ==> 0 <= v.value < 16
  {
    if 0x30 <= b < 0x3A then Some(b - 0x30)
    else if 0x61 <= b < 0x67 then Some(b - 0x61 + 10)
    else if 0x41 <= b < 0x47 then Some(b - 0x41 + 10)
    else None
  }

  /** `\uXXXX`. */
  function UnicodeEscape(code: int): (e: Text)
    requires 0 <= code < 0x10000
    ensures |e| == 6
  {
    [BACKSLASH, 0x75, HexDigit(code / 4096), HexDigit(code / 256 % 16), HexDigit(code / 16 % 16), HexDigit(code % 16)]
  }

  /** What one character below U+0080 becomes. */
  function EscapeAscii(b: Byte): (e: Text)
    requires b < 0x80
  {
    if b == QUOTE || b == BACKSLASH then [BACKSLASH, b]
    else if b == 0x08 then [BACKSLASH, 0x62]
    else if b == 0x0C then [BACKSLASH, 0x66]
    else if b == 0x0A then [BACKSLASH, 0x6E]
    else if b == 0x0D then [BACKSLASH, 0x72]
    else if b == 0x09 then [BACKSLASH, 0x74]
    else if b < 0x20 || b == 0x3C || b == 0x3E || b == 0x26 then UnicodeEscape(b)
    else [b]
  }

  predicate IsLineSeparator(rune: Text) {
    rune == [0xE2, 0x80, 0xA8] || rune == [0xE2, 0x80, 0xA9]
  }

  function LineSeparatorCode(rune: Text): int
    requires IsLineSeparator(rune)
  {
    if rune[2] == 0xA8 then 0x2028 else 0x2029
  }

  function Escape(s: Text): Text {
    if s == [] then []
    else
      var n := RuneLength(s);
      if n == 0 then UnicodeEscape(0xFFFD) + Escape(s[1..])
      else if n == 1 then EscapeAscii(s[0]) + Escape(s[1..])
      else if IsLineSeparator(s[..n]) then UnicodeEscape(LineSeparatorCode(s[..n])) + Escape(s[n..])
      else s[..n] + Escape(s[n..])
  }

  /** Unicode scalar values. */
  predicate Scalar(code: int) {
    0 <= code < 0xD800 || 0xE000 <= code < 0x11_0000
  }

  /** Section 3 of RFC 3629. */
  function Utf8(code: int): (rune: Text)
    requires Scalar(code)
    ensures 1 <= |rune| <= 4
  {
    if code < 0x80 then [code]
    else if code < 0x800 then [0xC0 + code / 64, 0x80 + code % 64]
    else if code < 0x1_0000 then [0xE0 + code / 4096, 0x80 + code / 64 % 64, 0x80 + code % 64]
    else [0xF0 + code / 262144, 0x80 + code / 4096 % 64, 0x80 + code / 64 % 64, 0x80 + code % 64]
  }

  /** The meaning of one element of a string literal and the number of bytes it takes. */
  datatype Element = Element(length: nat, text: Text)

  function ReadElement(s: Text): (e: Option<Element>)
    requires s != []
    ensures e.Some? ==> 0 < e.value.length <= |s|
  {
    var n := RuneLength(s);
    if s[0] == QUOTE || s[0] < 0x20 then None
    else if s[0] != BACKSLASH then
      if n == 0 then Some(Element(1, REPLACEMENT)) else Some(Element(n, s[..n]))
    else if |s| < 2 then None
    else if s[1] == QUOTE || s[1] == BACKSLASH || s[1] == 0x2F then Some(Element(2, [s[1]]))
    else if s[1] == 0x62 then Some(Element(2, [0x08]))
    else if s[1] == 0x66 then Some(Element(2, [0x0C]))
    else if s[1] == 0x6E then Some(Element(2, [0x0A]))
    else if s[1] == 0x72 then Some(Element(2, [0x0D]))
    else if s[1] == 0x74 then Some(Element(2, [0x09]))
    else if s[1] == 0x75 && |s| >= 6 then
      var a, b, c, d := HexValue(s[2]), HexValue(s[3]), HexValue(s[4]), HexValue(s[5]);
      if a.None? || b.None? || c.None? || d.None? then None
      else
        var code := a.value * 4096 + b.value * 256 + c.value * 16 + d.value;
        Some(Element(6, if Scalar(code) then Utf8(code) else REPLACEMENT))
    else None
  }

  /** Reads the body of a string literal. */
  function Unescape(s: Text): Option<Text> {
    if s == [] then Some([])
    else
      var e := ReadElement(s);
      if e.None? then None
      else
        var rest := Unescape(s[e.value.length..]);
        if rest.None? then None else Some(e.value.text + rest.value)
  }

  lemma HexDigitsAddUp(code: int)
    requires 0 <= code < 0x10000
    ensures code / 4096 * 4096 + code / 256 % 16 * 256 + code / 16 % 16 * 16 + code % 16 == code
  {
    var a, b := code / 16, code / 256;
    assert a / 16 == b && b / 16 == code / 4096;
    assert code == 16 * a + code % 16 && a == 16 * b + a % 16 && b == 16 * (b / 16) + b % 16;
  }

  lemma ReadsUnicodeEscape(code: int, rest: Text)
    requires 0 <= code < 0xD800 || 0xE000 <= code < 0x10000
    ensures ReadElement(UnicodeEscape(code) + rest) == Some(Element(6, Utf8(code)))
  {
    HexDigitsAddUp(code);
    var t := UnicodeEscape(code) + rest;
    assert t[0] == BACKSLASH && t[1] == 0x75;
    assert HexValue(t[2]) == Some(code / 4096) && HexValue(t[3]) == Some(code / 256 % 16);
    assert HexValue(t[4]) == Some(code / 16 % 16) && HexValue(t[5]) == Some(code % 16);
    hide HexValue, HexDigit, Utf8;
  }

  lemma ReadsAscii(b: Byte, rest: Text)
    requires b < 0x80
    ensures ReadElement(EscapeAscii(b) + rest) == Some(Element(|EscapeAscii(b)|, [b]))
  {
    if b < 0x20 || b == 0x3C || b == 0x3E || b == 0x26 {
      ReadsUnicodeEscape(b, rest);
    }
  }

  /** A valid sequence is recognised whatever follows it. */
  lemma ReadsRune(s: Text, rest: Text)
    requires s != [] && RuneLength(s) >= 2
    ensures ReadElement(s[..RuneLength(s)] + rest) == Some(Element(RuneLength(s), s[..RuneLength(s)]))
  {
    var t := s[..RuneLength(s)] + rest;
    assert RuneLength(t) == RuneLength(s);
    assert t[..RuneLength(s)] == s[..RuneLength(s)];
  }

  lemma UnescapeStep(head: Text, text: Text, rest: Text)
    requires head != [] && ReadElement(head + rest) == Some(Element(|head|, text))
    requires Unescape(rest).Some?
    ensures Unescape(head + rest) == Some(text + Unescape(rest).value)
  {
    assert (head + rest)[|head|..] == rest;
  }

  lemma {:induction false} UnescapeEscape(s: Text)
    ensures Unescape(Escape(s)) == Some(Coerce(s))
    decreases |s|
  {
    hide RuneLength, ReadElement, EscapeAscii, UnicodeEscape, Utf8, Unescape;
    if s == [] {
      NothingToUnescape();
    } else {
      var n := RuneLength(s);
      var rest := Escape(s[if n == 0 then 1 else n..]);
      UnescapeEscape(s[if n == 0 then 1 else n..]);
      if n == 0 {
        ReadsUnicodeEscape(0xFFFD, rest);
        ThreeByteCodes();
        UnescapeStep(UnicodeEscape(0xFFFD), REPLACEMENT, rest);
      } else if n == 1 {
        OneByteRune(s);
        ReadsAscii(s[0], rest);
        UnescapeStep(EscapeAscii(s[0]), [s[0]], rest);
        assert s[..1] == [s[0]];
      } else if IsLineSeparator(s[..n]) {
        var code := LineSeparatorCode(s[..n]);
        ThreeByteCodes();
        ReadsUnicodeEscape(code, rest);
        UnescapeStep(UnicodeEscape(code), s[..n], rest);
      } else {
        ReadsRune(s, rest);
        UnescapeStep(s[..n], s[..n], rest);
      }
    }
  }

  lemma NothingToUnescape()
    ensures Unescape([]) == Some([])
  {
  }

  lemma OneByteRune(s: Text)
    requires s != [] && RuneLength(s) == 1
    ensures s[0] < 0x80 && EscapeAscii(s[0]) != []
  {
  }

  lemma ThreeByteCodes()
    ensures Utf8(0xFFFD) == REPLACEMENT
    ensures Utf8(0x2028) == [0xE2, 0x80, 0xA8] && Utf8(0x2029) == [0xE2, 0x80, 0xA9]
  {
  }

  /** `{"etag":"` and `"}`. */
  const OPENING: Text := [0x7B, 0x22, 0x65, 0x74, 0x61, 0x67, 0x22, 0x3A, 0x22]
  const CLOSING: Text := [0x22, 0x7D]

  /** `json.Marshal`; the empty ETag is omitted. */
  function Marshal(m: Metadata): Text {
    if m.etag == [] then [0x7B, 0x7D] else OPENING + Escape(m.etag) + CLOSING
  }

  /** `json.Unmarshal`, on the texts that `Marshal` writes. */
  function Unmarshal(s: Text): Option<Metadata> {
    if s == [0x7B, 0x7D] then Some(Metadata([]))
    else if |s| >= 11 && s[..9] == OPENING && s[|s| - 2..] == CLOSING then
      var etag := Unescape(s[9..|s| - 2]);
      if etag.None? then None else Some(Metadata(etag.value))
    else None
  }

  lemma UnmarshalMarshal(m: Metadata)
    ensures Unmarshal(Marshal(m)) == Some(Metadata(Coerce(m.etag)))
    ensures Marshal(m) != []
  {
    if m.etag != [] {
      var s := Marshal(m);
      assert s[..9] == OPENING && s[9..|s| - 2] == Escape(m.etag) && s[|s| - 2..] == CLOSING;
      UnescapeEscape(m.etag);
    }
  }

  lemma {:induction false} CoerceLengthens(s: Text)
    ensures |Coerce(s)| >= |s|
    ensures ValidUtf8(s) ==> Coerce(s) == s
    ensures !ValidUtf8(s) ==> |Coerce(s)| > |s|
    decreases |s|
  {
    if s != [] {
      var n := RuneLength(s);
      CoerceLengthens(s[if n == 0 then 1 else n..]);
      hide RuneLength;
      assert s == s[..n] + s[n..];
    }
  }

  /** An ETag survives the JSON text exactly when it is valid UTF-8. */
  lemma SurvivesExactlyIfValid(m: Metadata)
    ensures Unmarshal(Marshal(m)) == Some(m) <==> ValidUtf8(m.etag)
  {
    UnmarshalMarshal(m);
    CoerceLengthens(m.etag);
  }

  /** What came back once is valid, so it comes back unchanged. */
  lemma {:induction false} CoercedIsValid(s: Text)
    ensures ValidUtf8(Coerce(s))
    decreases |s|
  {
    if s != [] {
      var n := RuneLength(s);
      var rest := Coerce(s[if n == 0 then 1 else n..]);
      CoercedIsValid(s[if n == 0 then 1 else n..]);
      var head := if n == 0 then REPLACEMENT else s[..n];
      assert RuneLength(head + rest) == |head|;
      assert (head + rest)[|head|..] == rest;
    }
  }

  lemma {:induction false} AsciiIsValid(s: Text)
    requires forall b :: b in s ==> b < 0x80
    ensures ValidUtf8(s)
    decreases |s|
  {
    if s != [] {
      assert s[0] in s && RuneLength(s) == 1;
      assert forall b :: b in s[1..] ==> b in s;
      AsciiIsValid(s[1..]);
    }
  }

  /** Metadata as it comes back. */
  function Coerced(m: Metadata): Metadata {
    Metadata(Coerce(m.etag))
  }

  lemma CoercedTwice(m: Metadata)
    ensures Coerced(Coerced(m)) == Coerced(m)
  {
    CoercedIsValid(m.etag);
    CoerceLengthens(Coerce(m.etag));
  }

  /** Characters that the JSON text shows as they are. */
  predicate Verbatim(b: Byte) {
    0x20 <= b < 0x7F && b != 0x22 && b != 0x5C && b != 0x3C && b != 0x3E && b != 0x26
  }

  lemma {:induction false} VerbatimIsKept(s: Text)
    requires forall b :: b in s ==> Verbatim(b)
    ensures Escape(s) == s
    decreases |s|
  {
    if s != [] {
      assert s[0] in s && Verbatim(s[0]) && forall b :: b in s[1..] ==> b in s;
      VerbatimIsKept(s[1..]);
      assert RuneLength(s) == 1 && EscapeAscii(s[0]) == [s[0]];
      assert s == [s[0]] + s[1..];
    }
  }

  /** What the text of plain metadata looks like. */
  lemma MarshalledForm(m: Metadata)
    requires forall b :: b in m.etag ==> Verbatim(b)
    ensures m.etag == [] ==> Spells(Marshal(m), "{}")
    ensures m.etag != [] ==>
              exists opening, closing ::
                Spells(opening, "{\"etag\":\"") && Spells(closing, "\"}") && Marshal(m) == opening + m.etag + closing
  {
    VerbatimIsKept(m.etag);
    if m.etag != [] {
      assert Spells(OPENING, "{\"etag\":\"") && Spells(CLOSING, "\"}");
    }
  }

  /** What the characters that are not shown as they are look like. */
  lemma EscapedForms()
    ensures Spells(EscapeAscii(0x22), "\\\"") && Spells(EscapeAscii(0x5C), "\\\\")
    ensures Spells(EscapeAscii(0x08), "\\b") && Spells(EscapeAscii(0x09), "\\t") && Spells(EscapeAscii(0x0A), "\\n")
    ensures Spells(EscapeAscii(0x0C), "\\f") && Spells(EscapeAscii(0x0D), "\\r")
  {
    hide UnicodeEscape;
  }

  /** And those that are shown by their code: a lower-case escape of four digits. */
  lemma EscapedByCode(b: Byte)
    requires b in {0x3C, 0x3E, 0x26, 0x7, 0x1F}
    ensures EscapeAscii(b) == UnicodeEscape(b)
    ensures Spells(UnicodeEscape(b)[..4], "\\u00")
    ensures Spells(UnicodeEscape(0x3C)[4..], "3c") && Spells(UnicodeEscape(0x1F)[4..], "1f")
  {
  }
}
