/** The reading of `Cache-Control` by `headersContainDirective`, on field values as sequences of
    characters. */
module CacheControl {
  import opened Splitting

  /** `unicode.IsSpace`. */
  predicate IsSpace(c: char) {
    || c in "\t\n\U{B}\U{C}\r \U{85}\U{A0}\U{1680}\U{2028}\U{2029}\U{202F}\U{205F}\U{3000}"
    || '\U{2000}' <= c <= '\U{200A}'
  }

  predicate Blank(s: string) {
    forall i :: 0 <= i < |s| ==> IsSpace(s[i])
  }

  function TrimLeft(s: string): string {
    if s != "" && IsSpace(s[0]) then TrimLeft(s[1..]) else s
  }

  function TrimRight(s: string): string {
    if s != "" && IsSpace(s[|s| - 1]) then TrimRight(s[..|s| - 1]) else s
  }

  function TrimSpace(s: string): string {
    TrimRight(TrimLeft(s))
  }

  /** Case folding onto the ASCII letters; beyond ASCII only the long s and the Kelvin sign fold to them. */
  function Fold(c: char): char {
    if 'A' <= c <= 'Z' then c - 'A' + 'a'
    else if c == '\U{17F}' then 's'
    else if c == '\U{212A}' then 'k'
    else c
  }

  /** `strings.EqualFold` against an ASCII string. */
  predicate EqualFold(s: string, t: string) {
    |s| == |t| && forall i :: 0 <= i < |s| ==> Fold(s[i]) == Fold(t[i])
  }

  /** The name of a directive: what precedes the first "=", without blanks around it. */
  function Name(segment: string): string {
    TrimSpace(Split(segment, '=')[0])
  }

  ghost predicate InValue(value: string, directive: string) {
    exists j :: 0 <= j < |Split(value, ',')| && EqualFold(Name(Split(value, ',')[j]), directive)
  }

  ghost predicate Contains(values: seq<string>, directive: string) {
    exists v :: v in values && InValue(v, directive)
  }

  /** `headersContainDirective`. */
  method HeadersContainDirective(headers: seq<string>, directive: string) returns (found: bool)
    ensures found <==> Contains(headers, directive)
  {
    hide Split, Name, EqualFold;
    for i := 0 to |headers|
      invariant forall k :: 0 <= k < i ==> !InValue(headers[k], directive)
    {
      var segments := Split(headers[i], ',');
      for j := 0 to |segments|
        invariant forall k :: 0 <= k < j ==> !EqualFold(Name(segments[k]), directive)
      {
        if EqualFold(Name(segments[j]), directive) {
          assert InValue(headers[i], directive);
          return true;
        }
      }
    }
    return false;
  }

  lemma {:induction false} TrimLeftOfBlank(w: string, s: string)
    requires Blank(w)
    ensures TrimLeft(w + s) == TrimLeft(s)
  {
    hide IsSpace;
    if w == "" {
      assert w + s == s;
    } else {
      assert (w + s)[0] == w[0];
      TrimLeftOfBlank(w[1..], s);
      assert (w + s)[1..] == w[1..] + s;
    }
  }

  lemma {:induction false} TrimRightOfBlank(s: string, w: string)
    requires Blank(w)
    ensures TrimRight(s + w) == TrimRight(s)
  {
    if w == "" {
      assert s + w == s;
    } else {
      TrimRightOfBlank(s, w[..|w| - 1]);
      assert (s + w)[..|s + w| - 1] == s + w[..|w| - 1];
    }
  }

  lemma {:induction false} TrimLeftThenBlank(s: string, w: string)
    requires Blank(w)
    ensures TrimLeft(s + w) == if Blank(s) then "" else TrimLeft(s) + w
  {
    hide IsSpace;
    if s == "" {
      assert s + w == w + "";
      TrimLeftOfBlank(w, "");
    } else {
      assert (s + w)[1..] == s[1..] + w;
      TrimLeftThenBlank(s[1..], w);
      assert s == [s[0]] + s[1..];
    }
  }

  /** Blanks around a string do not matter. */
  lemma {:induction false} TrimOfBlanks(w: string, s: string, w': string)
    requires Blank(w) && Blank(w')
    ensures TrimSpace(w + s + w') == TrimSpace(s)
  {
    assert w + s + w' == w + (s + w');
    TrimLeftOfBlank(w, s + w');
    TrimLeftThenBlank(s, w');
    if Blank(s) {
      TrimLeftOfBlank(s, "");
      assert s + "" == s;
    } else {
      TrimRightOfBlank(TrimLeft(s), w');
    }
  }

  lemma BlankHasNoSeparators(w: string)
    requires Blank(w)
    ensures ',' !in w && '=' !in w
  {
  }

  lemma {:induction false} NameOfBlanks(w: string, s: string, w': string)
    requires Blank(w) && Blank(w')
    ensures Name(w + s + w') == Name(s)
  {
    hide IsSpace, Split, TrimSpace, Blank;
    NothingIsBlank();
    BlankHasNoSeparators(w);
    BlankHasNoSeparators(w');
    assert w + s + w' == w + (s + w');
    SplitOfPrefix(w, s + w', '=');
    SplitOfSuffix(s, w', '=');
    var r := Split(s, '=');
    if |r| == 1 {
      assert w + (r[0] + w') == w + r[0] + w';
      TrimOfBlanks(w, r[0], w');
    } else {
      assert w + r[0] == w + r[0] + "";
      TrimOfBlanks(w, r[0], "");
    }
  }

  lemma SegmentOfBlanks(r: seq<string>, w: string, w': string, j: nat)
    requires j < |r|
    ensures ([w + Extend(r, w')[0]] + Extend(r, w')[1..])[j]
            == (if j == 0 then w else "") + r[j] + (if j == |r| - 1 then w' else "")
  {
    assert w + (r[0] + w') == w + r[0] + w';
    assert w + r[0] == w + r[0] + "";
    assert r[j] == "" + r[j] + "";
  }

  /** Blanks around a value do not change its directives. */
  lemma {:induction false} ValueOfBlanks(w: string, s: string, w': string, d: string)
    requires Blank(w) && Blank(w')
    ensures InValue(w + s + w', d) <==> InValue(s, d)
  {
    hide Name, Split, IsSpace, EqualFold, Blank, Extend;
    var r, r' := Split(s, ','), Split(w + s + w', ',');
    SplitOfBlanks(w, s, w');
    forall j | 0 <= j < |r| ensures Name(r'[j]) == Name(r[j]) {
      var before := if j == 0 then w else "";
      var after := if j == |r| - 1 then w' else "";
      SegmentOfBlanks(r, w, w', j);
      NothingIsBlank();
      NameOfBlanks(before, r[j], after);
    }
    SameNames(r, r', d);
  }

  lemma NothingIsBlank()
    ensures Blank("")
  {
  }

  lemma SplitOfBlanks(w: string, s: string, w': string)
    requires Blank(w) && Blank(w')
    ensures var r := Split(s, ',');
            |Split(w + s + w', ',')| == |r| && Split(w + s + w', ',') == [w + Extend(r, w')[0]] + Extend(r, w')[1..]
  {
    hide IsSpace, Split;
    BlankHasNoSeparators(w);
    BlankHasNoSeparators(w');
    assert w + s + w' == w + (s + w');
    SplitOfPrefix(w, s + w', ',');
    SplitOfSuffix(s, w', ',');
  }

  lemma SameNames(r: seq<string>, r': seq<string>, d: string)
    requires |r| == |r'| && forall j :: 0 <= j < |r| ==> Name(r'[j]) == Name(r[j])
    ensures (exists j :: 0 <= j < |r| && EqualFold(Name(r[j]), d)) <==>
            exists j :: 0 <= j < |r'| && EqualFold(Name(r'[j]), d)
  {
    hide Name, EqualFold;
    if j :| 0 <= j < |r| && EqualFold(Name(r[j]), d) {
      assert EqualFold(Name(r'[j]), d);
    }
    if j :| 0 <= j < |r'| && EqualFold(Name(r'[j]), d) {
      assert EqualFold(Name(r[j]), d);
    }
  }

  /** A comma between two values separates their directives. */
  lemma {:induction false} ValueOfJoin(a: string, b: string, d: string)
    ensures InValue(a + "," + b, d) <==> InValue(a, d) || InValue(b, d)
  {
    SplitOfJoin(a, b, ',');
    var p, q := Split(a, ','), Split(b, ',');
    if InValue(a, d) {
      var j :| 0 <= j < |p| && EqualFold(Name(p[j]), d);
      assert (p + q)[j] == p[j];
    }
    if InValue(b, d) {
      var j :| 0 <= j < |q| && EqualFold(Name(q[j]), d);
      assert (p + q)[|p| + j] == q[j];
    }
  }

  /** Field lines joined as section 5.3 of RFC 9110 prescribes. */
  function Join(values: seq<string>): string
    requires values != []
  {
    if |values| == 1 then values[0] else values[0] + ", " + Join(values[1..])
  }

  /** Joining field lines changes nothing. */
  lemma {:induction false} JoiningLines(values: seq<string>, d: string)
    requires values != []
    ensures Contains([Join(values)], d) <==> Contains(values, d)
  {
    if |values| == 1 {
      assert values == [Join(values)];
    } else {
      var rest := Join(values[1..]);
      JoiningLines(values[1..], d);
      assert [rest][0] == rest;
      assert values == [values[0]] + values[1..];
      assert values[0] + ", " + rest == values[0] + "," + (" " + rest + "");
      ValueOfJoin(values[0], " " + rest + "", d);
      ValueOfBlanks(" ", rest, "", d);
    }
  }

  /** The order and repetition of field lines change nothing. */
  lemma ReorderingLines(values: seq<string>, values': seq<string>, d: string)
    requires forall v :: v in values <==> v in values'
    ensures Contains(values, d) <==> Contains(values', d)
  {
  }

  /** Segment by segment the same up to case. */
  ghost predicate SameFolds(p: seq<string>, q: seq<string>) {
    |p| == |q| && forall j :: 0 <= j < |p| ==> EqualFold(p[j], q[j])
  }

  lemma FoldKeeps(c: char, c': char)
    requires Fold(c) == Fold(c')
    ensures (c == ',' <==> c' == ',') && (c == '=' <==> c' == '=') && (IsSpace(c) <==> IsSpace(c'))
  {
    if c != c' {
      assert 'A' <= c <= 'z' || 'A' <= c' <= 'z';
    }
  }

  lemma {:induction false} SplitOfFold(s: string, t: string, sep: char)
    requires EqualFold(s, t) && (sep == ',' || sep == '=')
    ensures SameFolds(Split(s, sep), Split(t, sep))
  {
    hide Fold;
    if s != "" {
      FoldKeeps(s[0], t[0]);
      SplitOfFold(s[1..], t[1..], sep);
      var p, q := Split(s[1..], sep), Split(t[1..], sep);
      assert EqualFold([s[0]] + p[0], [t[0]] + q[0]);
    }
  }

  lemma {:induction false} TrimLeftOfFold(s: string, t: string)
    requires EqualFold(s, t)
    ensures EqualFold(TrimLeft(s), TrimLeft(t))
  {
    if s != "" {
      FoldKeeps(s[0], t[0]);
      hide Fold, IsSpace;
      TrimLeftOfFold(s[1..], t[1..]);
    }
  }

  lemma {:induction false} TrimRightOfFold(s: string, t: string)
    requires EqualFold(s, t)
    ensures EqualFold(TrimRight(s), TrimRight(t))
  {
    if s != "" {
      FoldKeeps(s[|s| - 1], t[|t| - 1]);
      hide Fold, IsSpace;
      TrimRightOfFold(s[..|s| - 1], t[..|t| - 1]);
    }
  }

  /** Letter case changes nothing. */
  lemma {:induction false} ChangingCase(v: string, v': string, d: string)
    requires EqualFold(v, v')
    ensures InValue(v, d) <==> InValue(v', d)
  {
    SplitOfFold(v, v', ',');
    var p, q := Split(v, ','), Split(v', ',');
    hide Split, TrimSpace, Fold;
    forall j | 0 <= j < |p| ensures EqualFold(Name(p[j]), Name(q[j])) {
      NameOfFold(p[j], q[j]);
    }
  }

  lemma NameOfFold(s: string, t: string)
    requires EqualFold(s, t)
    ensures EqualFold(Name(s), Name(t))
  {
    hide Split, TrimLeft, TrimRight, Fold, EqualFold;
    SplitOfFold(s, t, '=');
    TrimLeftOfFold(Split(s, '=')[0], Split(t, '=')[0]);
    TrimRightOfFold(TrimLeft(Split(s, '=')[0]), TrimLeft(Split(t, '=')[0]));
  }

  /** A directive of section 5.2 of RFC 9111: a token and possibly an argument, with blanks around it. */
  datatype Directive = Directive(before: string, name: string, argument: string, hasArgument: bool, after: string)

  predicate IsToken(s: string) {
    ',' !in s && '=' !in s && (s != "" ==> !IsSpace(s[0]) && !IsSpace(s[|s| - 1]))
  }

  predicate WellFormed(d: Directive) {
    Blank(d.before) && Blank(d.after) && IsToken(d.name)
  }

  function PrintCore(d: Directive): string {
    if d.hasArgument then d.name + "=" + d.argument else d.name
  }

  function Print(ds: seq<Directive>): string
    requires ds != []
  {
    var first := ds[0].before + PrintCore(ds[0]) + ds[0].after;
    if |ds| == 1 then first else first + "," + Print(ds[1..])
  }

  /** What lies behind a comma inside an argument is read as directives of its own. */
  ghost predicate HidesInArgument(d: Directive, name: string) {
    d.hasArgument && exists j :: 0 < j < |Split(d.argument, ',')| && EqualFold(Name(Split(d.argument, ',')[j]), name)
  }

  lemma NameOfToken(t: string, rest: string)
    requires IsToken(t)
    ensures Name(t) == t && Name(t + "=" + rest) == t
  {
    SplitOfPrefix(t, "", '=');
    assert t + "" == t;
    SplitOfJoin(t, rest, '=');
    assert TrimSpace(t) == t;
  }

  lemma {:induction false} CoreNames(d: Directive, name: string)
    requires WellFormed(d)
    ensures InValue(PrintCore(d), name) <==> EqualFold(d.name, name) || HidesInArgument(d, name)
  {
    if !d.hasArgument {
      SplitOfPrefix(d.name, "", ',');
      assert d.name + "" == d.name;
      NameOfToken(d.name, "");
      assert Split(PrintCore(d), ',') == [d.name];
      assert EqualFold(d.name, name) ==> EqualFold(Name(Split(PrintCore(d), ',')[0]), name);
    } else {
      var r := Split(d.argument, ',');
      var r' := Split(PrintCore(d), ',');
      SplitOfPrefix(d.name + "=", d.argument, ',');
      assert r'[0] == d.name + "=" + r[0];
      NameOfToken(d.name, r[0]);
      assert forall j :: 0 < j < |r| ==> r'[j] == r[j];
      hide Split, Name, EqualFold, IsToken;
      if InValue(PrintCore(d), name) {
        var j :| 0 <= j < |r'| && EqualFold(Name(r'[j]), name);
        assert j > 0 ==> EqualFold(Name(r[j]), name);
      }
      if EqualFold(d.name, name) {
        assert EqualFold(Name(r'[0]), name);
      }
    }
  }

  /** On any printed list the answer is yes exactly when a directive of that name is present or an
      argument hides one behind a comma. */
  lemma {:induction false} PrintedList(ds: seq<Directive>, name: string)
    requires ds != [] && forall i :: 0 <= i < |ds| ==> WellFormed(ds[i])
    ensures InValue(Print(ds), name) <==>
            exists i :: 0 <= i < |ds| && (EqualFold(ds[i].name, name) || HidesInArgument(ds[i], name))
  {
    var d := ds[0];
    CoreNames(d, name);
    assert WellFormed(d);
    ValueOfBlanks(d.before, PrintCore(d), d.after, name);
    hide InValue, HidesInArgument, EqualFold, WellFormed, PrintCore;
    if |ds| > 1 {
      PrintedList(ds[1..], name);
      ValueOfJoin(d.before + PrintCore(d) + d.after, Print(ds[1..]), name);
      InFirstOrRest(ds, name);
    }
  }

  lemma InFirstOrRest(ds: seq<Directive>, name: string)
    requires ds != []
    ensures (exists i :: 0 <= i < |ds| && (EqualFold(ds[i].name, name) || HidesInArgument(ds[i], name))) <==>
            || EqualFold(ds[0].name, name) || HidesInArgument(ds[0], name)
            || exists i :: 0 <= i < |ds[1..]| && (EqualFold(ds[1..][i].name, name) || HidesInArgument(ds[1..][i], name))
  {
    hide EqualFold, HidesInArgument;
    if exists i :: 0 <= i < |ds| && (EqualFold(ds[i].name, name) || HidesInArgument(ds[i], name)) {
      var i :| 0 <= i < |ds| && (EqualFold(ds[i].name, name) || HidesInArgument(ds[i], name));
      assert i > 0 ==> ds[1..][i - 1] == ds[i];
    }
  }

  /** With comma-free arguments the answer is exact. */
  lemma {:induction false} PrintedListIsExact(ds: seq<Directive>, name: string)
    requires ds != [] && forall i :: 0 <= i < |ds| ==> WellFormed(ds[i]) && ',' !in ds[i].argument
    ensures Contains([Print(ds)], name) <==> exists i :: 0 <= i < |ds| && EqualFold(ds[i].name, name)
  {
    PrintedList(ds, name);
    assert [Print(ds)][0] == Print(ds);
    forall i | 0 <= i < |ds| ensures !HidesInArgument(ds[i], name) {
      SplitOfPrefix(ds[i].argument, "", ',');
      assert ds[i].argument + "" == ds[i].argument;
    }
  }

  const QUOTED := "\"a" + "," + ("no-store" + "," + "b\"")

  lemma SplitOfQuoted()
    ensures |Split(QUOTED, ',')| > 1 && Split(QUOTED, ',')[1] == "no-store"
  {
    SplitOfPrefix("\"a", "", ',');
    SplitOfPrefix("no-store", "", ',');
    assert "\"a" + "" == "\"a" && "no-store" + "" == "no-store";
    SplitOfJoin("\"a", "no-store" + "," + "b\"", ',');
    SplitOfJoin("no-store", "b\"", ',');
  }

  lemma NoStoreIsToken()
    ensures IsToken("no-store") && IsToken("ext") && !EqualFold("ext", "no-store")
  {
  }

  /** A quoted argument that mentions a directive between commas is taken for that directive. */
  lemma QuotedCommasAreMisread()
    ensures var d := Directive("", "ext", QUOTED, true, "");
            && WellFormed(d) && !EqualFold(d.name, "no-store")
            && Contains([Print([d])], "no-store")
  {
    hide Split, IsToken, Name, Print, QUOTED;
    var d := Directive("", "ext", QUOTED, true, "");
    NoStoreIsToken();
    SplitOfQuoted();
    NameOfToken("no-store", "");
    assert HidesInArgument(d, "no-store");
    PrintedList([d], "no-store");
    assert [d][0] == d && [Print([d])][0] == Print([d]);
  }

  /** The same character, or the two cases of one ASCII letter. */
  predicate SameLetter(a: char, b: char) {
    || a == b
    || (0x41 <= a as int <= 0x5A && b as int == a as int + 0x20)
    || (0x41 <= b as int <= 0x5A && a as int == b as int + 0x20)
  }

  predicate SameWord(s: string, t: string) {
    |s| == |t| && forall i :: 0 <= i < |s| ==> SameLetter(s[i], t[i])
  }

  predicate Ascii(s: string) {
    forall i :: 0 <= i < |s| ==> s[i] as int < 0x80
  }

  /** Against an ASCII character, exactly the two cases of a letter match, and the long s and the Kelvin sign. */
  lemma FoldsExactly(a: char, b: char)
    requires b as int < 0x80
    ensures Fold(a) == Fold(b) <==>
            || SameLetter(a, b)
            || (a as int == 0x17F && (b as int == 0x53 || b as int == 0x73))
            || (a as int == 0x212A && (b as int == 0x4B || b as int == 0x6B))
  {
  }

  lemma WordsFoldExactly(s: string, t: string)
    requires Ascii(s) && Ascii(t)
    ensures EqualFold(s, t) <==> SameWord(s, t)
  {
    hide Fold;
    if |s| == |t| {
      forall i | 0 <= i < |s| ensures Fold(s[i]) == Fold(t[i]) <==> SameLetter(s[i], t[i]) {
        FoldsExactly(s[i], t[i]);
      }
    }
  }

  lemma RecasedFolds(s: string, t: string)
    requires SameWord(s, t)
    ensures EqualFold(s, t)
  {
  }

  /** Changing the case of any ASCII letters of any values does not change the answer. */
  lemma RecasingLetters(values: seq<string>, values': seq<string>, directive: string)
    requires |values| == |values'| && forall k :: 0 <= k < |values| ==> SameWord(values[k], values'[k])
    ensures Contains(values, directive) <==> Contains(values', directive)
  {
    hide InValue, SameWord;
    forall k | 0 <= k < |values| ensures InValue(values[k], directive) <==> InValue(values'[k], directive) {
      RecasedFolds(values[k], values'[k]);
      ChangingCase(values[k], values'[k], directive);
    }
    if Contains(values, directive) {
      var v :| v in values && InValue(v, directive);
      var k :| 0 <= k < |values| && values[k] == v;
      assert values'[k] in values';
    }
    if Contains(values', directive) {
      var v :| v in values' && InValue(v, directive);
      var k :| 0 <= k < |values'| && values'[k] == v;
      assert values[k] in values;
    }
  }

  /** What counts as blank, by code point: the White_Space characters of Unicode. */
  lemma BlanksExactly(c: char)
    ensures IsSpace(c) <==>
            c as int in {0x9, 0xA, 0xB, 0xC, 0xD, 0x20, 0x85, 0xA0, 0x1680, 0x2000, 0x2001, 0x2002, 0x2003, 0x2004,
                         0x2005, 0x2006, 0x2007, 0x2008, 0x2009, 0x200A, 0x2028, 0x2029, 0x202F, 0x205F, 0x3000}
  {
  }

  /** A list of directives as sections 5.2 and 5.6.1 of RFC 9111 and RFC 9110 print it, without commas in arguments. */
  ghost predicate Plain(ds: seq<Directive>) {
    ds != [] && forall i :: 0 <= i < |ds| ==> WellFormed(ds[i]) && ',' !in ds[i].argument && Ascii(ds[i].name)
  }

  /** A directive of that name, in any case. */
  ghost predicate Lists(ds: seq<Directive>, name: string) {
    exists i :: 0 <= i < |ds| && SameWord(ds[i].name, name)
  }

  /** On printed lists the answer is exactly whether the directive is there, in any case. */
  lemma PrintedListsAreRead(ds: seq<Directive>, name: string)
    requires Plain(ds) && Ascii(name)
    ensures Contains([Print(ds)], name) <==> Lists(ds, name)
  {
    PrintedListIsExact(ds, name);
    hide Contains, EqualFold, SameWord, WellFormed;
    forall i | 0 <= i < |ds| ensures EqualFold(ds[i].name, name) <==> SameWord(ds[i].name, name) {
      WordsFoldExactly(ds[i].name, name);
    }
  }
}
