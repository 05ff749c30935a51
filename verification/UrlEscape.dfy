/** Percent-encoding (section 2.1 of RFC 3986) as `net/url` does it for hosts, paths and query components. */
module UrlEscape {
  import opened CacheTypes

  datatype Mode = Host | Path | Query

  const PERCENT: Byte := 0x25
  const PLUS: Byte := 0x2B
  const SPACE: Byte := 0x20

  predicate IsAlphanumeric(b: Byte) {
    0x61 <= b <= 0x7A || 0x41 <= b <= 0x5A || 0x30 <= b <= 0x39
  }

  /** `shouldEscape`. */
  predicate ShouldEscape(b: Byte, mode: Mode) {
    if IsAlphanumeric(b) || b == 0x2D || b == 0x5F || b == 0x2E || b == 0x7E then false  // - _ . ~
    else
      match mode
      // ! $ & ' ( ) * + , ; = : [ ] < > "
      case Host => !(b == 0x21 || b == 0x24 || 0x26 <= b <= 0x2C || b == 0x3B || b == 0x3D || b == 0x3A
                     || b == 0x5B || b == 0x5D || b == 0x3C || b == 0x3E || b == 0x22)
      // $ & + , / : ; = @
      case Path => !(b == 0x24 || b == 0x26 || b == 0x2B || b == 0x2C || b == 0x2F || b == 0x3A || b == 0x3B
                     || b == 0x3D || b == 0x40)
      case Query => true
  }

  function Hex(v: int): Byte
    requires 0 <= v < 16
  {
    if v < 10 then 0x30 + v else 0x41 + v - 10
  }

  function Unhex(b: Byte): (v: Option<int>)
    ensures v.Some? ==> 0 <= v.value < 16
  {
    if 0x30 <= b <= 0x39 then Some(b - 0x30)
    else if 0x61 <= b <= 0x66 then Some(b - 0x61 + 10)
    else if 0x41 <= b <= 0x46 then Some(b - 0x41 + 10)
    else None
  }

  function EscapeByte(b: Byte, mode: Mode): (e: Text)
    ensures e != []
  {
    if mode.Query? && b == SPACE then [PLUS]
    else if ShouldEscape(b, mode) then [PERCENT, Hex(b / 16), Hex(b % 16)]
    else [b]
  }

  function Escape(s: Text, mode: Mode): Text {
    if s == [] then [] else EscapeByte(s[0], mode) + Escape(s[1..], mode)
  }

  function Unescape(s: Text, mode: Mode): Option<Text> {
    if s == [] then Some([])
    else if s[0] == PERCENT then
      if |s| < 3 || Unhex(s[1]).None? || Unhex(s[2]).None? then None
      else
        var rest := Unescape(s[3..], mode);
        if rest.None? then None else Some([Unhex(s[1]).value * 16 + Unhex(s[2]).value] + rest.value)
    else
      var rest := Unescape(s[1..], mode);
      if rest.None? then None
      else Some([if mode.Query? && s[0] == PLUS then SPACE else s[0]] + rest.value)
  }

  lemma UnhexHex(v: int)
    requires 0 <= v < 16
    ensures Unhex(Hex(v)) == Some(v) && IsAlphanumeric(Hex(v))
  {
  }

  lemma UnescapeByte(b: Byte, rest: Text, mode: Mode)
    requires Unescape(rest, mode).Some?
    ensures Unescape(EscapeByte(b, mode) + rest, mode) == Some([b] + Unescape(rest, mode).value)
  {
    UnhexHex(b / 16);
    UnhexHex(b % 16);
    var e := EscapeByte(b, mode);
    assert (e + rest)[|e|..] == rest;
    hide Hex, Unhex;
  }

  /** Unescaping undoes escaping, for every byte string. */
  lemma {:induction false} UnescapeEscape(s: Text, mode: Mode)
    ensures Unescape(Escape(s, mode), mode) == Some(s)
  {
    hide EscapeByte;
    if s != [] {
      UnescapeEscape(s[1..], mode);
      UnescapeByte(s[0], Escape(s[1..], mode), mode);
      assert s == [s[0]] + s[1..];
    }
  }

  /** A byte that the mode escapes does not appear in escaped text, unless escaping itself uses it. */
  lemma {:induction false} EscapedAway(s: Text, mode: Mode, b: Byte)
    requires ShouldEscape(b, mode) && b != PERCENT && !(mode.Query? && b == PLUS)
    ensures b !in Escape(s, mode)
  {
    if s != [] {
      EscapedAway(s[1..], mode, b);
      UnhexHex(s[0] / 16);
      UnhexHex(s[0] % 16);
      assert b !in EscapeByte(s[0], mode);
      hide EscapeByte, ShouldEscape;
    }
  }

  lemma EscapeIsInjective(s: Text, t: Text, mode: Mode)
    requires Escape(s, mode) == Escape(t, mode)
    ensures s == t
  {
    UnescapeEscape(s, mode);
    UnescapeEscape(t, mode);
  }
}
