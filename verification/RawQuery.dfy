/** Query strings as clients write them, not only as the code prints them, and what the parser makes of each. */
module RawQuery {
  import opened CacheTypes
  import opened Splitting
  import opened UrlEscape
  import opened UrlQuery

  /** `0123456789ABCDEF` and `0123456789abcdef`. */
  const UPPER: Text :=
    [0x30, 0x31, 0x32, 0x33, 0x34, 0x35, 0x36, 0x37, 0x38, 0x39, 0x41, 0x42, 0x43, 0x44, 0x45, 0x46]
  const LOWER: Text :=
    [0x30, 0x31, 0x32, 0x33, 0x34, 0x35, 0x36, 0x37, 0x38, 0x39, 0x61, 0x62, 0x63, 0x64, 0x65, 0x66]

  /** One byte as a client can write it: itself, a space as "+", or its two hexadecimal digits in either case. */
  datatype Piece = Plain(byte: Byte) | Plus | Percent(byte: Byte, highUpper: bool, lowUpper: bool)

  function Digit(v: nat, upper: bool): Byte
    requires v < 16
  {
    if upper then UPPER[v] else LOWER[v]
  }

  function Write(p: Piece): (t: Text)
    ensures t != []
  {
    match p
    case Plain(b) => [b]
    case Plus => [0x2B]
    case Percent(b, high, low) => [0x25, Digit(b / 16, high), Digit(b % 16, low)]
  }

  function Meaning(p: Piece): Byte {
    match p
    case Plain(b) => b
    case Plus => 0x20
    case Percent(b, _, _) => b
  }

  function WriteAll(ps: seq<Piece>): Text {
    if ps == [] then [] else Write(ps[0]) + WriteAll(ps[1..])
  }

  function MeaningAll(ps: seq<Piece>): (t: Text)
    ensures |t| == |ps|
  {
    if ps == [] then [] else [Meaning(ps[0])] + MeaningAll(ps[1..])
  }

  /** A byte that stands for itself must not be one of `%`, `+`, `&` and `;`. */
  predicate Proper(ps: seq<Piece>) {
    forall p :: p in ps && p.Plain? ==> p.byte !in [0x25, 0x2B, 0x26, 0x3B]
  }

  predicate WithoutEquals(ps: seq<Piece>) {
    forall p :: p in ps && p.Plain? ==> p.byte != 0x3D
  }

  predicate IsHexDigit(b: Byte) {
    b in UPPER || b in LOWER
  }

  /** A percent sign that two hexadecimal digits do not follow. */
  ghost predicate Broken(t: Text) {
    exists i :: 0 <= i < |t| && t[i] == 0x25 && (i + 2 >= |t| || !IsHexDigit(t[i + 1]) || !IsHexDigit(t[i + 2]))
  }

  lemma DigitIsRead(v: nat, upper: bool)
    requires v < 16
    ensures Unhex(Digit(v, upper)) == Some(v) && IsHexDigit(Digit(v, upper))
  {
  }

  lemma OnlyDigitsAreRead(b: Byte)
    ensures Unhex(b).Some? <==> IsHexDigit(b)
    ensures Unhex(b).Some? ==> b == Digit(Unhex(b).value, true) || b == Digit(Unhex(b).value, false)
  {
  }

  lemma UnescapesPercent(t: Text, rest: Text)
    requires |t| >= 3 && t[0] == 0x25 && Unhex(t[1]).Some? && Unhex(t[2]).Some? && t[3..] == rest
    ensures Unescape(t, Query) ==
            if Unescape(rest, Query).None? then None
            else Some([Unhex(t[1]).value * 16 + Unhex(t[2]).value] + Unescape(rest, Query).value)
  {
    hide Unhex;
  }

  lemma UnescapesByte(t: Text, rest: Text)
    requires t != [] && t[0] != 0x25 && t[1..] == rest
    ensures Unescape(t, Query) ==
            if Unescape(rest, Query).None? then None
            else Some([if t[0] == 0x2B then 0x20 else t[0]] + Unescape(rest, Query).value)
  {
    hide Unhex;
  }

  lemma ReadsPiece(p: Piece, rest: Text)
    requires Proper([p])
    ensures Unescape(Write(p) + rest, Query) ==
            if Unescape(rest, Query).None? then None else Some([Meaning(p)] + Unescape(rest, Query).value)
  {
    hide Digit, Unhex, Unescape;
    assert p in [p];
    var t := Write(p) + rest;
    if p.Percent? {
      var high, low := Digit(p.byte / 16, p.highUpper), Digit(p.byte % 16, p.lowUpper);
      DigitIsRead(p.byte / 16, p.highUpper);
      DigitIsRead(p.byte % 16, p.lowUpper);
      assert t[0] == 0x25 && t[1] == high && t[2] == low && t[3..] == rest;
      UnescapesPercent(t, rest);
    } else {
      assert t[1..] == rest;
      UnescapesByte(t, rest);
    }
  }

  /** Whatever way a client writes the bytes, the parser reads them. */
  lemma {:induction false} ReadsPieces(ps: seq<Piece>)
    requires Proper(ps)
    ensures Unescape(WriteAll(ps), Query) == Some(MeaningAll(ps))
  {
    if ps != [] {
      assert ps[0] in ps && forall p :: p in ps[1..] ==> p in ps;
      ReadsPieces(ps[1..]);
      ReadsPiece(ps[0], WriteAll(ps[1..]));
    }
  }

  lemma {:induction false} BrokenIsRefused(t: Text)
    requires Broken(t)
    ensures Unescape(t, Query).None?
    decreases |t|
  {
    var i :| 0 <= i < |t| && t[i] == 0x25 && (i + 2 >= |t| || !IsHexDigit(t[i + 1]) || !IsHexDigit(t[i + 2]));
    hide Unhex, IsHexDigit;
    if i == 0 {
      if |t| >= 3 {
        OnlyDigitsAreRead(t[1]);
        OnlyDigitsAreRead(t[2]);
      }
    } else if t[0] == 0x25 {
      if |t| >= 3 && Unhex(t[1]).Some? && Unhex(t[2]).Some? {
        OnlyDigitsAreRead(t[1]);
        OnlyDigitsAreRead(t[2]);
        PercentIsNoDigit();
        assert i >= 3;
        assert t[3..][i - 3] == t[i];
        assert i + 2 < |t| ==> t[3..][i - 2] == t[i + 1] && t[3..][i - 1] == t[i + 2];
        assert Broken(t[3..]);
        BrokenIsRefused(t[3..]);
      }
    } else {
      assert t[1..][i - 1] == t[i];
      assert i + 2 < |t| ==> t[1..][i] == t[i + 1] && t[1..][i + 1] == t[i + 2];
      assert Broken(t[1..]);
      BrokenIsRefused(t[1..]);
    }
  }

  lemma PercentIsNoDigit()
    ensures !IsHexDigit(0x25) && !IsHexDigit(0x3D) && !IsHexDigit(0x3B) && !IsHexDigit(0x26)
  {
  }

  /** Every text that is not broken is some way of writing. */
  lemma {:induction false} IsWritten(t: Text) returns (ps: seq<Piece>)
    requires !Broken(t) && 0x26 !in t && 0x3B !in t
    ensures Proper(ps) && WriteAll(ps) == t
    ensures 0x3D !in t ==> WithoutEquals(ps)
    decreases |t|
  {
    hide Unhex, IsHexDigit, Digit;
    if t == [] {
      return [];
    }
    assert t[0] in t;
    var p: Piece;
    if t[0] == 0x25 {
      assert !(0 + 2 >= |t| || !IsHexDigit(t[1]) || !IsHexDigit(t[2]));
      OnlyDigitsAreRead(t[1]);
      OnlyDigitsAreRead(t[2]);
      var high, low := Unhex(t[1]).value, Unhex(t[2]).value;
      p := Percent(high * 16 + low, t[1] == Digit(high, true), t[2] == Digit(low, true));
      assert p.byte / 16 == high && p.byte % 16 == low;
      assert Write(p) == t[..3];
    } else if t[0] == 0x2B {
      p := Plus;
    } else {
      p := Plain(t[0]);
    }
    var n := |Write(p)|;
    assert t == Write(p) + t[n..];
    NotBrokenLater(t, n);
    assert forall b :: b in t[n..] ==> b in t;
    var rest := IsWritten(t[n..]);
    ps := [p] + rest;
    assert ps[1..] == rest;
    assert forall q :: q in ps ==> q == p || q in rest;
  }

  lemma NotBrokenLater(t: Text, n: nat)
    requires !Broken(t) && n <= |t|
    ensures !Broken(t[n..])
  {
    hide IsHexDigit;
    if Broken(t[n..]) {
      var u := t[n..];
      var i :| 0 <= i < |u| && u[i] == 0x25 && (i + 2 >= |u| || !IsHexDigit(u[i + 1]) || !IsHexDigit(u[i + 2]));
      assert false;
    }
  }

  /** What stands between two ampersands. */
  datatype Segment =
    | Empty
    | Bare(name: seq<Piece>)
    | Assigned(name: seq<Piece>, value: seq<Piece>)
    | Malformed(text: Text)

  function WriteSegment(g: Segment): Text {
    match g
    case Empty => []
    case Bare(name) => WriteAll(name)
    case Assigned(name, value) => WriteAll(name) + [0x3D] + WriteAll(value)
    case Malformed(text) => text
  }

  ghost predicate WellFormed(g: Segment) {
    match g
    case Empty => true
    case Bare(name) => name != [] && Proper(name) && WithoutEquals(name)
    case Assigned(name, value) => Proper(name) && WithoutEquals(name) && Proper(value)
    case Malformed(text) => 0x26 !in text && (0x3B in text || Broken(text))
  }

  /** A parameter without "=" has the empty value; malformed segments and empty ones mean nothing. */
  function MeaningOf(g: Segment): seq<Pair> {
    match g
    case Empty => []
    case Bare(name) => [(MeaningAll(name), [])]
    case Assigned(name, value) => [(MeaningAll(name), MeaningAll(value))]
    case Malformed(_) => []
  }

  function WriteQuery(gs: seq<Segment>): Text
    requires gs != []
  {
    if |gs| == 1 then WriteSegment(gs[0]) else WriteSegment(gs[0]) + [0x26] + WriteQuery(gs[1..])
  }

  function MeaningOfAll(gs: seq<Segment>): seq<Pair> {
    if gs == [] then [] else MeaningOf(gs[0]) + MeaningOfAll(gs[1..])
  }

  /** The values of a name, in their order. */
  function ValuesOf(pairs: seq<Pair>, name: Text): seq<Text> {
    if pairs == [] then []
    else (if pairs[0].0 == name then [pairs[0].1] else []) + ValuesOf(pairs[1..], name)
  }

  /** What is written properly has no separators of queries, and an equals sign only if it is told to. */
  lemma {:induction false} WrittenBytes(ps: seq<Piece>)
    requires Proper(ps)
    ensures 0x26 !in WriteAll(ps) && 0x3B !in WriteAll(ps)
    ensures WithoutEquals(ps) ==> 0x3D !in WriteAll(ps)
    ensures ps != [] ==> WriteAll(ps) != []
  {
    if ps != [] {
      assert ps[0] in ps && forall p :: p in ps[1..] ==> p in ps;
      WrittenBytes(ps[1..]);
      PercentIsNoDigit();
      if ps[0].Percent? {
        DigitIsRead(ps[0].byte / 16, ps[0].highUpper);
        DigitIsRead(ps[0].byte % 16, ps[0].lowUpper);
      }
      hide Digit, IsHexDigit, Unhex;
    }
  }

  lemma {:induction false} NoEqualsSign(t: Text)
    requires 0x3D !in t
    ensures IndexOf(t, EQUALS) == |t|
  {
    if t != [] {
      assert t[0] in t && forall b :: b in t[1..] ==> b in t;
      NoEqualsSign(t[1..]);
    }
  }

  /** A broken escape breaks the name or the value it is in. */
  lemma BrokenPart(t: Text, i: nat)
    requires Broken(t) && i == IndexOf(t, EQUALS)
    ensures Broken(t[..i]) || (i < |t| && Broken(t[i + 1..]))
  {
    FirstEquals(t);
    PercentIsNoDigit();
    hide IsHexDigit, IndexOf;
    var k :| 0 <= k < |t| && t[k] == 0x25 && (k + 2 >= |t| || !IsHexDigit(t[k + 1]) || !IsHexDigit(t[k + 2]));
    if k < i {
      var u := t[..i];
      assert u[k] == 0x25;
      assert k + 2 < i ==> u[k + 1] == t[k + 1] && u[k + 2] == t[k + 2];
    } else {
      assert k > i;
      var u := t[i + 1..];
      assert u[k - i - 1] == 0x25;
      assert k + 2 < |t| ==> u[k - i] == t[k + 1] && u[k - i + 1] == t[k + 2];
    }
  }

  lemma {:induction false} FirstEquals(t: Text)
    ensures IndexOf(t, EQUALS) < |t| ==> t[IndexOf(t, EQUALS)] == 0x3D
    ensures 0x3D !in t[..IndexOf(t, EQUALS)]
  {
    if t != [] && t[0] != EQUALS {
      FirstEquals(t[1..]);
      var i := IndexOf(t[1..], EQUALS);
      assert t[..i + 1] == [t[0]] + t[1..][..i];
    }
  }

  lemma ReadsBare(name: seq<Piece>)
    requires WellFormed(Bare(name))
    ensures ParsePair(WriteAll(name)) == Some((MeaningAll(name), []))
  {
    WrittenBytes(name);
    NoEqualsSign(WriteAll(name));
    ReadsPieces(name);
    var t := WriteAll(name);
    assert t[..|t|] == t;
    hide WriteAll, MeaningAll, IndexOf;
    assert Unescape([], Query) == Some([]);
  }

  lemma ReadsAssigned(name: seq<Piece>, value: seq<Piece>)
    requires WellFormed(Assigned(name, value))
    ensures ParsePair(WriteAll(name) + [0x3D] + WriteAll(value)) == Some((MeaningAll(name), MeaningAll(value)))
  {
    WrittenBytes(name);
    WrittenBytes(value);
    IndexOfFirst(WriteAll(name), EQUALS, WriteAll(value));
    ReadsPieces(name);
    ReadsPieces(value);
    hide WriteAll, MeaningAll, IndexOf, Unescape;
    var t := WriteAll(name) + [0x3D] + WriteAll(value);
    assert t[..|WriteAll(name)|] == WriteAll(name) && t[|WriteAll(name)| + 1..] == WriteAll(value);
  }

  lemma DropsMalformed(t: Text)
    requires WellFormed(Malformed(t))
    ensures ParsePair(t) == None
  {
    if 0x3B !in t {
      var i := IndexOf(t, EQUALS);
      BrokenPart(t, i);
      if Broken(t[..i]) {
        BrokenIsRefused(t[..i]);
      } else {
        BrokenIsRefused(t[i + 1..]);
      }
      hide Broken, Unescape, IndexOf;
    }
  }

  /** One segment means what it says. */
  lemma ReadsSegment(g: Segment)
    requires WellFormed(g)
    ensures 0x26 !in WriteSegment(g)
    ensures (if ParsePair(WriteSegment(g)).Some? then [ParsePair(WriteSegment(g)).value] else []) == MeaningOf(g)
  {
    match g
    case Empty => EmptySegment();
    case Bare(name) => ReadsBare(name); WrittenBytes(name);
    case Assigned(name, value) => ReadsAssigned(name, value); WrittenBytes(name); WrittenBytes(value);
    case Malformed(text) => DropsMalformed(text);
  }

  lemma {:induction false} ReadsSegments(gs: seq<Segment>)
    requires gs != [] && forall g :: g in gs ==> WellFormed(g)
    ensures ParsePairs(Split(WriteQuery(gs), AMPERSAND)) == MeaningOfAll(gs)
  {
    hide WellFormed, WriteSegment, MeaningOf, ParsePair;
    var t := WriteSegment(gs[0]);
    ReadsSegment(gs[0]);
    SplitOfPrefix(t, [], AMPERSAND);
    assert t + [] == t;
    assert Split<Byte>([], AMPERSAND) == [[]];
    assert Split(t, AMPERSAND) == [t];
    if |gs| == 1 {
      ghost var one: seq<Text> := [t];
      assert one[1..] == [] && gs[1..] == [];
      assert ParsePairs([]) == [];
    } else {
      assert forall g :: g in gs[1..] ==> g in gs;
      ReadsSegments(gs[1..]);
      SplitOfJoin(t, WriteQuery(gs[1..]), AMPERSAND);
      assert ([t] + Split(WriteQuery(gs[1..]), AMPERSAND))[1..] == Split(WriteQuery(gs[1..]), AMPERSAND);
    }
  }

  lemma {:induction false} GroupsInOrder(m: Values, pairs: seq<Pair>, name: Text)
    ensures var before := if name in m then m[name] else [];
            && (name in Group(m, pairs) <==> name in m || ValuesOf(pairs, name) != [])
            && (name in Group(m, pairs) ==> Group(m, pairs)[name] == before + ValuesOf(pairs, name))
    decreases |pairs|
  {
    if pairs != [] {
      GroupsInOrder(Append(m, pairs[0]), pairs[1..], name);
      var before := if name in m then m[name] else [];
      assert before + [pairs[0].1] + ValuesOf(pairs[1..], name) == before + ([pairs[0].1] + ValuesOf(pairs[1..], name));
    }
  }

  /** The parser on anything that a client can write: each name has its values, in the order in which they stand. */
  lemma ReadsQuery(gs: seq<Segment>, name: Text)
    requires gs != [] && forall g :: g in gs ==> WellFormed(g)
    ensures var values := ValuesOf(MeaningOfAll(gs), name);
            && (name in ParseQuery(WriteQuery(gs)) <==> values != [])
            && (name in ParseQuery(WriteQuery(gs)) ==> ParseQuery(WriteQuery(gs))[name] == values)
  {
    ReadsSegments(gs);
    GroupsInOrder(map[], MeaningOfAll(gs), name);
    assert [] + ValuesOf(MeaningOfAll(gs), name) == ValuesOf(MeaningOfAll(gs), name);
  }

  lemma IsSegment(t: Text) returns (g: Segment)
    requires 0x26 !in t
    ensures WellFormed(g) && WriteSegment(g) == t
  {
    if t == [] {
      return Empty;
    }
    if 0x3B in t || Broken(t) {
      return Malformed(t);
    }
    g := IsParameter(t);
  }

  lemma IsParameter(t: Text) returns (g: Segment)
    requires t != [] && 0x26 !in t && 0x3B !in t && !Broken(t)
    ensures WellFormed(g) && WriteSegment(g) == t
  {
    hide Broken, IndexOf, IsHexDigit, Proper, WithoutEquals, WriteAll;
    var i := IndexOf(t, EQUALS);
    FirstEquals(t);
    NotBrokenBefore(t, i);
    NotBrokenLater(t, if i == |t| then i else i + 1);
    Sublists(t, i);
    var name := IsWritten(t[..i]);
    if i == |t| {
      assert t[..i] == t;
      NothingIsWritten();
      return Bare(name);
    }
    var value := IsWritten(t[i + 1..]);
    assert t == t[..i] + [0x3D] + t[i + 1..];
    return Assigned(name, value);
  }

  lemma NothingIsWritten()
    ensures WriteAll([]) == []
  {
  }

  lemma Sublists(t: Text, i: nat)
    requires i <= |t|
    ensures forall b :: b !in t ==> b !in t[..i]
    ensures i < |t| ==> forall b :: b !in t ==> b !in t[i + 1..]
  {
  }

  lemma NotBrokenBefore(t: Text, i: nat)
    requires !Broken(t) && i == IndexOf(t, EQUALS)
    ensures !Broken(t[..i])
  {
    FirstEquals(t);
    PercentIsNoDigit();
    hide IsHexDigit, IndexOf;
    if Broken(t[..i]) {
      var u := t[..i];
      var k :| 0 <= k < |u| && u[k] == 0x25 && (k + 2 >= |u| || !IsHexDigit(u[k + 1]) || !IsHexDigit(u[k + 2]));
      assert false;
    }
  }

  /** And there is nothing else that a client can write. */
  lemma {:induction false} IsQuery(t: Text) returns (gs: seq<Segment>)
    ensures gs != [] && (forall g :: g in gs ==> WellFormed(g)) && WriteQuery(gs) == t
    decreases |t|
  {
    hide WellFormed, WriteSegment;
    var i := IndexOf(t, AMPERSAND);
    FirstAmpersand(t);
    var g := IsSegment(t[..i]);
    if i == |t| {
      assert t[..i] == t;
      return [g];
    }
    var rest := IsQuery(t[i + 1..]);
    gs := [g] + rest;
    assert gs[1..] == rest;
    assert t == t[..i] + [0x26] + t[i + 1..];
  }

  lemma {:induction false} FirstAmpersand(t: Text)
    ensures IndexOf(t, AMPERSAND) < |t| ==> t[IndexOf(t, AMPERSAND)] == 0x26
    ensures 0x26 !in t[..IndexOf(t, AMPERSAND)]
  {
    if t != [] && t[0] != AMPERSAND {
      FirstAmpersand(t[1..]);
      var i := IndexOf(t[1..], AMPERSAND);
      assert t[..i + 1] == [t[0]] + t[1..][..i];
    }
  }

  /** What escaping leaves as it is: the unreserved characters of section 2.3 of RFC 3986 and, by part of the URL,
      some of the reserved ones. */
  predicate Kept(c: char, mode: Mode) {
    || 'a' <= c <= 'z' || 'A' <= c <= 'Z' || '0' <= c <= '9' || c in "-_.~"
    || match mode
       case Host => c in "!$&'()*+,;=:[]<>\""
       case Path => c in "$&+,/:;=@"
       case Query => false
  }

  /** How one byte is escaped. */
  lemma EscapesExactly(b: Byte, mode: Mode)
    ensures EscapeByte(b, mode) ==
            if b < 0x80 && Kept(b as char, mode) then [b]
            else if mode.Query? && b == 0x20 then [0x2B]
            else [0x25, UPPER[b / 16], UPPER[b % 16]]
  {
    HexIsUpper(b / 16);
    HexIsUpper(b % 16);
    hide Hex, UPPER;
  }

  lemma HexIsUpper(v: nat)
    requires v < 16
    ensures Hex(v) == UPPER[v]
  {
  }
}
