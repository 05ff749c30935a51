/** `url.ParseQuery` and `url.Values.Encode`: the printer sorts the names, and the parser undoes it. */
module UrlQuery {
  import opened CacheTypes
  import opened Splitting
  import opened UrlEscape

  type Values = map<Text, seq<Text>>
  type Pair = (Text, Text)

  const AMPERSAND: Byte := 0x26
  const SEMICOLON: Byte := 0x3B
  const EQUALS: Byte := 0x3D

  function IndexOf(s: Text, b: Byte): (n: nat)
    ensures n <= |s|
  {
    if s == [] || s[0] == b then 0 else 1 + IndexOf(s[1..], b)
  }

  /** One segment between ampersands: a pair, or nothing if it is empty or malformed. */
  function ParsePair(segment: Text): Option<Pair> {
    if segment == [] || SEMICOLON in segment then None
    else
      var i := IndexOf(segment, EQUALS);
      var name := Unescape(segment[..i], Query);
      var value := Unescape(if i < |segment| then segment[i + 1..] else [], Query);
      if name.None? || value.None? then None else Some((name.value, value.value))
  }

  function ParsePairs(segments: seq<Text>): seq<Pair> {
    if segments == [] then []
    else
      var p := ParsePair(segments[0]);
      (if p.Some? then [p.value] else []) + ParsePairs(segments[1..])
  }

  function Append(m: Values, p: Pair): Values {
    m[p.0 := (if p.0 in m then m[p.0] else []) + [p.1]]
  }

  /** The values of each name, in the order of the pairs. */
  function Group(m: Values, pairs: seq<Pair>): Values
    decreases |pairs|
  {
    if pairs == [] then m else Group(Append(m, pairs[0]), pairs[1..])
  }

  function ParseQuery(query: Text): Values {
    Group(map[], ParsePairs(Split(query, AMPERSAND)))
  }

  /** Byte-wise lexicographic order. */
  predicate Leq(a: Text, b: Text) {
    a == [] || (b != [] && (a[0] < b[0] || (a[0] == b[0] && Leq(a[1..], b[1..]))))
  }

  lemma {:induction false} LeqTotal(a: Text, b: Text)
    ensures Leq(a, b) || Leq(b, a)
  {
    if a != [] && b != [] { LeqTotal(a[1..], b[1..]); }
  }

  lemma {:induction false} LeqAntisymmetric(a: Text, b: Text)
    requires Leq(a, b) && Leq(b, a)
    ensures a == b
  {
    if a != [] && b != [] { LeqAntisymmetric(a[1..], b[1..]); assert a == [a[0]] + a[1..] && b == [b[0]] + b[1..]; }
  }

  lemma {:induction false} LeqTransitive(a: Text, b: Text, c: Text)
    requires Leq(a, b) && Leq(b, c)
    ensures Leq(a, c)
  {
    if a != [] && a[0] == b[0] && b[0] == c[0] { LeqTransitive(a[1..], b[1..], c[1..]); }
  }

  ghost predicate IsLeast(names: set<Text>, n: Text) {
    n in names && forall m :: m in names ==> Leq(n, m)
  }

  lemma {:induction false} LeastExists(names: set<Text>)
    requires names != {}
    ensures exists n :: IsLeast(names, n)
    decreases names
  {
    var m :| m in names;
    LeqTotal(m, m);
    if names == {m} {
      assert IsLeast(names, m);
    } else {
      var rest := names - {m};
      assert names == rest + {m};
      LeastExists(rest);
      var n :| IsLeast(rest, n);
      LeqTotal(m, n);
      var least := if Leq(m, n) then m else n;
      forall k | k in names ensures Leq(least, k) {
        if least == m && k in rest { LeqTransitive(m, n, k); }
      }
      assert IsLeast(names, least);
    }
  }

  ghost function Least(names: set<Text>): (n: Text)
    requires names != {}
    ensures IsLeast(names, n)
  {
    LeastExists(names);
    var n :| IsLeast(names, n);
    n
  }

  /** The names in increasing order. */
  ghost function Sorted(names: set<Text>): (r: seq<Text>)
    ensures forall n :: n in r <==> n in names
    ensures forall i, j :: 0 <= i < j < |r| ==> Leq(r[i], r[j]) && r[i] != r[j]
  {
    if names == {} then []
    else
      var rest := Sorted(names - {Least(names)});
      assert forall j :: 0 <= j < |rest| ==> rest[j] in rest;
      [Least(names)] + rest
  }

  function PairsOf(name: Text, values: seq<Text>): seq<Pair> {
    if values == [] then [] else [(name, values[0])] + PairsOf(name, values[1..])
  }

  function PairsIn(order: seq<Text>, m: Values): seq<Pair> {
    if order == [] then []
    else (if order[0] in m then PairsOf(order[0], m[order[0]]) else []) + PairsIn(order[1..], m)
  }

  function PrintPair(p: Pair): Text {
    Escape(p.0, Query) + [EQUALS] + Escape(p.1, Query)
  }

  function PrintPairs(pairs: seq<Pair>): Text {
    if pairs == [] then []
    else if |pairs| == 1 then PrintPair(pairs[0])
    else PrintPair(pairs[0]) + [AMPERSAND] + PrintPairs(pairs[1..])
  }

  /** `Values.Encode`. */
  ghost function Encode(m: Values): Text {
    PrintPairs(PairsIn(Sorted(m.Keys), m))
  }

  lemma {:induction false} IndexOfFirst(a: Text, b: Byte, rest: Text)
    requires b !in a
    ensures IndexOf(a + [b] + rest, b) == |a|
  {
    if a != [] {
      IndexOfFirst(a[1..], b, rest);
      assert (a + [b] + rest)[1..] == a[1..] + [b] + rest;
    }
  }

  lemma {:induction false} ParsePrintedPair(p: Pair)
    ensures ParsePair(PrintPair(p)) == Some(p)
    ensures AMPERSAND !in PrintPair(p) && PrintPair(p) != []
  {
    var name, value := Escape(p.0, Query), Escape(p.1, Query);
    EscapedAway(p.0, Query, EQUALS);
    EscapedAway(p.0, Query, SEMICOLON);
    EscapedAway(p.1, Query, SEMICOLON);
    EscapedAway(p.0, Query, AMPERSAND);
    EscapedAway(p.1, Query, AMPERSAND);
    UnescapeEscape(p.0, Query);
    UnescapeEscape(p.1, Query);
    IndexOfFirst(name, EQUALS, value);
    var s := PrintPair(p);
    assert s[..|name|] == name && s[|name| + 1..] == value;
  }

  lemma {:induction false} ParsePrintedPairs(pairs: seq<Pair>)
    ensures ParsePairs(Split(PrintPairs(pairs), AMPERSAND)) == pairs
  {
    hide ParsePair, PrintPair;
    if pairs == [] {
      assert ParsePair([]) == None by { EmptySegment(); }
      assert Split<Byte>([], AMPERSAND) == [[]];
    } else {
      var p := pairs[0];
      ParsePrintedPair(p);
      SplitOfPrefix(PrintPair(p), [], AMPERSAND);
      assert PrintPair(p) + [] == PrintPair(p);
      assert Split(PrintPair(p), AMPERSAND) == [PrintPair(p)];
      assert pairs == [p] + pairs[1..];
      if |pairs| == 1 {
        assert pairs[1..] == [];
        assert ParsePairs([PrintPair(p)][1..]) == [];
      } else {
        SplitOfJoin(PrintPair(p), PrintPairs(pairs[1..]), AMPERSAND);
        ParsePrintedPairs(pairs[1..]);
      }
    }
  }

  lemma EmptySegment()
    ensures ParsePair([]) == None
  {
  }

  lemma {:induction false} GroupOneName(m: Values, name: Text, values: seq<Text>, rest: seq<Pair>)
    requires values != []
    ensures Group(m, PairsOf(name, values) + rest)
            == Group(m[name := (if name in m then m[name] else []) + values], rest)
    decreases |values|
  {
    var m' := Append(m, (name, values[0]));
    GroupFirst(m, name, values, rest);
    AppendThenMore(m, name, values);
    hide Group, Append, PairsOf;
    if values[1..] == [] {
      NoPairs(name);
      assert [] + rest == rest;
    } else {
      GroupOneName(m', name, values[1..], rest);
    }
  }

  lemma NoPairs(name: Text)
    ensures PairsOf(name, []) == []
  {
  }

  lemma GroupFirst(m: Values, name: Text, values: seq<Text>, rest: seq<Pair>)
    requires values != []
    ensures Group(m, PairsOf(name, values) + rest)
            == Group(Append(m, (name, values[0])), PairsOf(name, values[1..]) + rest)
  {
    hide Append;
    assert (PairsOf(name, values) + rest)[1..] == PairsOf(name, values[1..]) + rest;
  }

  lemma AppendThenMore(m: Values, name: Text, values: seq<Text>)
    requires values != []
    ensures var m' := Append(m, (name, values[0]));
            var whole := m[name := (if name in m then m[name] else []) + values];
            && name in m' && m'[name := m'[name] + values[1..]] == whole
            && (values[1..] == [] ==> m' == whole)
  {
    var old' := if name in m then m[name] else [];
    assert values == [values[0]] + values[1..];
    assert old' + [values[0]] + values[1..] == old' + values;
    assert values[1..] == [] ==> values == [values[0]];
  }

  ghost predicate NoEmptyLists(m: Values) {
    forall n :: n in m ==> m[n] != []
  }

  lemma PairsOfLeast(names: set<Text>, m: Values)
    requires names != {} && names <= m.Keys
    ensures var n := Least(names);
            n in m && PairsIn(Sorted(names), m) == PairsOf(n, m[n]) + PairsIn(Sorted(names - {n}), m)
  {
    var order := Sorted(names);
    assert order[0] == Least(names) && order[1..] == Sorted(names - {Least(names)});
  }

  ghost function Restrict(m: Values, names: set<Text>): Values {
    map n | n in names && n in m :: m[n]
  }

  lemma RestrictStep(acc: Values, m: Values, names: set<Text>, n: Text)
    requires n in names && n in m
    ensures acc[n := m[n]] + Restrict(m, names - {n}) == acc + Restrict(m, names)
  {
  }

  lemma {:induction false} GroupSorted(acc: Values, names: set<Text>, m: Values)
    requires NoEmptyLists(m) && names <= m.Keys && acc.Keys !! names
    ensures Group(acc, PairsIn(Sorted(names), m)) == acc + Restrict(m, names)
    decreases names
  {
    if names == {} {
      assert Restrict(m, names) == map[];
    } else {
      var n := Least(names);
      PairsOfLeast(names, m);
      hide Sorted, PairsIn, Group, PairsOf, Restrict;
      GroupOneName(acc, n, m[n], PairsIn(Sorted(names - {n}), m));
      assert [] + m[n] == m[n];
      GroupSorted(acc[n := m[n]], names - {n}, m);
      RestrictStep(acc, m, names, n);
    }
  }

  /** The parser undoes the printer, for every map of names to non-empty lists of values. */
  lemma {:induction false} ParseEncode(m: Values)
    requires NoEmptyLists(m)
    ensures ParseQuery(Encode(m)) == m
  {
    hide Group, PairsIn, Sorted, PrintPairs, ParsePairs;
    ParsePrintedPairs(PairsIn(Sorted(m.Keys), m));
    GroupSorted(map[], m.Keys, m);
    assert map[] + Restrict(m, m.Keys) == m;
  }

  lemma {:induction false} GroupsAreNotEmpty(m: Values, pairs: seq<Pair>)
    requires NoEmptyLists(m)
    ensures NoEmptyLists(Group(m, pairs))
    decreases |pairs|
  {
    if pairs != [] { GroupsAreNotEmpty(Append(m, pairs[0]), pairs[1..]); }
  }

  /** Two printed maps are equal only if the maps are. */
  lemma EncodeIsInjective(m: Values, m': Values)
    requires NoEmptyLists(m) && NoEmptyLists(m') && Encode(m) == Encode(m')
    ensures m == m'
  {
    ParseEncode(m);
    ParseEncode(m');
  }

  /** The sort inside `Encode`. */
  method SortNames(names: set<Text>) returns (sorted: seq<Text>)
    ensures sorted == Sorted(names)
  {
    hide Leq, Sorted;
    sorted := [];
    var rest := names;
    while rest != {}
      invariant sorted + Sorted(rest) == Sorted(names)
      decreases rest
    {
      var least := FindLeast(rest);
      SortedFrom(rest, least);
      assert sorted + ([least] + Sorted(rest - {least})) == sorted + [least] + Sorted(rest - {least});
      sorted := sorted + [least];
      rest := rest - {least};
    }
    NothingToSort();
    assert sorted + [] == sorted;
  }

  lemma NothingToSort()
    ensures Sorted({}) == []
  {
  }

  lemma SortedFrom(names: set<Text>, least: Text)
    requires IsLeast(names, least)
    ensures Sorted(names) == [least] + Sorted(names - {least})
  {
    LeqAntisymmetric(least, Least(names));
  }

  method FindLeast(names: set<Text>) returns (least: Text)
    requires names != {}
    ensures IsLeast(names, least)
  {
    hide Leq;
    least :| least in names;
    LeqTotal(least, least);
    var others := names - {least};
    while others != {}
      invariant others <= names && least in names
      invariant forall m :: m in names && m !in others ==> Leq(least, m)
      decreases others
    {
      var n :| n in others;
      LeqTotal(least, n);
      LeqTotal(n, n);
      if !Leq(least, n) {
        forall m | m in names && m !in others ensures Leq(n, m) { LeqTransitive(n, least, m); }
        least := n;
      }
      others := others - {n};
    }
  }

  /** The order of names is the order of their bytes: the first difference decides, and a prefix comes first. */
  lemma {:induction false} FirstDifferenceDecides(prefix: Text, x: Byte, y: Byte, a: Text, b: Text)
    requires x < y
    ensures Leq(prefix + [x] + a, prefix + [y] + b) && !Leq(prefix + [y] + b, prefix + [x] + a)
    ensures Leq(prefix, prefix + [x] + a) && !Leq(prefix + [x] + a, prefix)
  {
    var s, t := prefix + [x] + a, prefix + [y] + b;
    if prefix != [] {
      FirstDifferenceDecides(prefix[1..], x, y, a, b);
      assert s[1..] == prefix[1..] + [x] + a && t[1..] == prefix[1..] + [y] + b;
    }
  }
}
