/** `cacheKey`: the URL text under which a response is stored, and when two requests share it. */
module CacheKey {
  import opened CacheTypes
  import opened UrlEscape
  import opened UrlQuery
  import MetadataJson
  import RawQuery
  import Splitting

  /** What `cacheKey` reads of a request: whether it came over TLS, the Host header, the decoded path and
      the query as received. */
  datatype Target = Target(tls: bool, host: Text, path: Text, rawQuery: Text)

  const HTTP: Text := [0x68, 0x74, 0x74, 0x70]
  const HTTPS: Text := [0x68, 0x74, 0x74, 0x70, 0x73]
  const AUTHORITY: Text := [0x3A, 0x2F, 0x2F]
  const SLASH: Byte := 0x2F
  const QUESTION: Byte := 0x3F
  const STAR: Text := [0x2A]

  /** `URL.EscapedPath`, with the slash that `URL.String` puts between a host and a path without one. */
  function PrintPath(path: Text): Text {
    var escaped := if path == STAR then STAR else Escape(path, Path);
    if escaped != [] && escaped[0] != SLASH then [SLASH] + escaped else escaped
  }

  function PrintQuery(query: Text): Text {
    if query == [] then [] else [QUESTION] + query
  }

  /** `URL.String` for a URL with a host. */
  function PrintUrl(tls: bool, host: Text, path: Text, query: Text): Text {
    (if tls then HTTPS else HTTP) + AUTHORITY + (Escape(host, Host) + (PrintPath(path) + PrintQuery(query)))
  }

  /** The parsed query without the ignored names. */
  function Remaining(t: Target, ignored: seq<Text>): Values {
    ParseQuery(t.rawQuery) - set n | n in ignored
  }

  ghost function KeyOf(t: Target, ignored: seq<Text>): Key {
    PrintUrl(t.tls, t.host, t.path, Encode(Remaining(t, ignored)))
  }

  /** `cacheKey`: parses the query, deletes the ignored parameters from it and prints the URL. */
  method ComputeKey(t: Target, ignored: seq<Text>) returns (key: Key)
    ensures key == KeyOf(t, ignored)
  {
    var query := ParseQuery(t.rawQuery);
    for i := 0 to |ignored|
      invariant query == ParseQuery(t.rawQuery) - set n | n in ignored[..i]
    {
      query := query - {ignored[i]};
      assert ignored[..i + 1] == ignored[..i] + [ignored[i]];
    }
    assert ignored[..|ignored|] == ignored;
    var order := SortNames(query.Keys);
    key := PrintUrl(t.tls, t.host, t.path, PrintPairs(PairsIn(order, query)));
  }

  predicate Starts(s: Text, delimiters: set<Byte>) {
    s == [] || s[0] in delimiters
  }

  /** Text up to the first delimiter is determined by the whole. */
  lemma {:induction false} CutUniquely(a: Text, b: Text, a': Text, b': Text, delimiters: set<Byte>)
    requires a + b == a' + b'
    requires (forall x :: x in delimiters ==> x !in a && x !in a') && Starts(b, delimiters) && Starts(b', delimiters)
    ensures a == a' && b == b'
    decreases |a|
  {
    assert a == [] ==> a + b == b;
    assert a' == [] ==> a' + b' == b';
    assert a != [] ==> (a + b)[0] == a[0] && a[0] in a;
    assert a' != [] ==> (a' + b')[0] == a'[0] && a'[0] in a';
    if a != [] && a' != [] {
      assert a[1..] + b == (a + b)[1..] == (a' + b')[1..] == a'[1..] + b';
      CutUniquely(a[1..], b, a'[1..], b', delimiters);
      assert a == [a[0]] + a[1..] && a' == [a'[0]] + a'[1..];
    }
  }

  /** What the printed path tells of a path. The server passes on an empty path, one that starts with a slash and
      `*`, all of which it leaves alone. */
  function Slashed(path: Text): Text {
    if path == [] || path[0] == SLASH || path == STAR then path else [SLASH] + path
  }

  lemma PrintedPath(path: Text)
    ensures PrintPath(path) == if path == STAR then [SLASH] + STAR else Escape(Slashed(path), Path)
    ensures Starts(PrintPath(path), {SLASH, QUESTION}) && QUESTION !in PrintPath(path)
    ensures path != STAR ==> STAR[0] !in PrintPath(path)
  {
    EscapedAway(Slashed(path), Path, QUESTION);
    EscapedAway(Slashed(path), Path, STAR[0]);
    assert EscapeByte(SLASH, Path) == [SLASH];
    if path != [] && path != STAR {
      assert Escape(path, Path)[0] == EscapeByte(path[0], Path)[0];
      assert ([SLASH] + path)[1..] == path;
    }
  }

  /** Two paths print alike exactly if they agree once slashed. */
  lemma PathsPrintAlike(p: Text, q: Text)
    ensures PrintPath(p) == PrintPath(q) <==> Slashed(p) == Slashed(q)
  {
    PrintedPath(p);
    PrintedPath(q);
    assert STAR[0] in [SLASH] + STAR;
    hide PrintPath, Escape;
    if PrintPath(p) == PrintPath(q) && p != STAR && q != STAR {
      EscapeIsInjective(Slashed(p), Slashed(q), Path);
    }
  }

  lemma HostIsDelimited(host: Text)
    ensures SLASH !in Escape(host, Host) && QUESTION !in Escape(host, Host)
  {
    EscapedAway(host, Host, SLASH);
    EscapedAway(host, Host, QUESTION);
  }

  lemma TailOfUrl(path: Text, query: Text)
    ensures Starts(PrintQuery(query), {QUESTION})
    ensures Starts(PrintPath(path) + PrintQuery(query), {SLASH, QUESTION})
  {
    PrintedPath(path);
  }

  lemma {:induction false} UrlDeterminesParts(tls: bool, host: Text, path: Text, query: Text,
                                              tls': bool, host': Text, path': Text, query': Text)
    requires PrintUrl(tls, host, path, query) == PrintUrl(tls', host', path', query')
    ensures tls == tls' && host == host' && PrintPath(path) == PrintPath(path') && query == query'
  {
    hide Escape, PrintPath, ShouldEscape;
    var rest := Escape(host, Host) + (PrintPath(path) + PrintQuery(query));
    var rest' := Escape(host', Host) + (PrintPath(path') + PrintQuery(query'));
    SchemesDiffer(tls, rest, tls', rest');
    HostIsDelimited(host);
    HostIsDelimited(host');
    TailOfUrl(path, query);
    TailOfUrl(path', query');
    PrintedPath(path);
    PrintedPath(path');
    CutUniquely(Escape(host, Host), PrintPath(path) + PrintQuery(query),
                Escape(host', Host), PrintPath(path') + PrintQuery(query'), {SLASH, QUESTION});
    CutUniquely(PrintPath(path), PrintQuery(query), PrintPath(path'), PrintQuery(query'), {QUESTION});
    EscapeIsInjective(host, host', Host);
    QueryOf(query);
    QueryOf(query');
  }

  /** A printed URL determines its parts, the path up to a missing slash. */
  lemma UrlsPrintAlike(tls: bool, host: Text, path: Text, query: Text,
                       tls': bool, host': Text, path': Text, query': Text)
    ensures PrintUrl(tls, host, path, query) == PrintUrl(tls', host', path', query') <==>
            tls == tls' && host == host' && Slashed(path) == Slashed(path') && query == query'
  {
    hide Escape, PrintPath, Slashed;
    PathsPrintAlike(path, path');
    if PrintUrl(tls, host, path, query) == PrintUrl(tls', host', path', query') {
      UrlDeterminesParts(tls, host, path, query, tls', host', path', query');
    }
  }

  lemma QueryOf(query: Text)
    ensures query == if PrintQuery(query) == [] then [] else PrintQuery(query)[1..]
  {
  }

  lemma SchemesDiffer(tls: bool, rest: Text, tls': bool, rest': Text)
    requires (if tls then HTTPS else HTTP) + AUTHORITY + rest == (if tls' then HTTPS else HTTP) + AUTHORITY + rest'
    ensures tls == tls' && rest == rest'
  {
    var u := (if tls then HTTPS else HTTP) + AUTHORITY + rest;
    var u' := (if tls' then HTTPS else HTTP) + AUTHORITY + rest';
    assert u[4] == (if tls then 0x73 else 0x3A) && u'[4] == (if tls' then 0x73 else 0x3A);
    assert u[if tls then 8 else 7..] == rest && u'[if tls' then 8 else 7..] == rest';
  }

  /** The paths that the server passes on. */
  predicate Arrives(path: Text) {
    path == [] || path[0] == SLASH || path == STAR
  }

  /** Canonicity: under one rule, two requests share a key exactly when scheme, host, slashed path and the parsed
      query without the ignored names agree, the order of the values of each name included; for paths
      that arrive, exactly when the paths themselves agree. */
  lemma {:induction false} SameKeyExactly(t: Target, t': Target, ignored: seq<Text>)
    ensures KeyOf(t, ignored) == KeyOf(t', ignored) <==>
            && t.tls == t'.tls && t.host == t'.host && Slashed(t.path) == Slashed(t'.path)
            && Remaining(t, ignored) == Remaining(t', ignored)
    ensures Arrives(t.path) && Arrives(t'.path) ==> (Slashed(t.path) == Slashed(t'.path) <==> t.path == t'.path)
  {
    hide PrintUrl, Encode;
    UrlsPrintAlike(t.tls, t.host, t.path, Encode(Remaining(t, ignored)),
                   t'.tls, t'.host, t'.path, Encode(Remaining(t', ignored)));
    if KeyOf(t, ignored) == KeyOf(t', ignored) {
      RemainingListsAreNotEmpty(t, ignored);
      RemainingListsAreNotEmpty(t', ignored);
      EncodeIsInjective(Remaining(t, ignored), Remaining(t', ignored));
    }
  }

  lemma RemainingListsAreNotEmpty(t: Target, ignored: seq<Text>)
    ensures NoEmptyLists(Remaining(t, ignored))
  {
    GroupsAreNotEmpty(map[], ParsePairs(Splitting.Split(t.rawQuery, AMPERSAND)));
  }

  predicate Ascii(s: Text) {
    forall b :: b in s ==> b < 0x80
  }

  lemma EscapedIsAscii(s: Text, mode: Mode)
    ensures Ascii(Escape(s, mode))
  {
    forall b: Byte | b >= 0x80 ensures b !in Escape(s, mode) { EscapedAway(s, mode, b); }
  }

  lemma {:induction false} PairsAreAscii(pairs: seq<Pair>)
    ensures Ascii(PrintPairs(pairs))
  {
    if pairs != [] {
      EscapedIsAscii(pairs[0].0, Query);
      EscapedIsAscii(pairs[0].1, Query);
      PairsAreAscii(pairs[1..]);
    }
  }

  /** A key is ASCII whatever the request holds, so JSON carries it unchanged. */
  lemma KeysAreAscii(t: Target, ignored: seq<Text>)
    ensures Ascii(KeyOf(t, ignored)) && MetadataJson.ValidUtf8(KeyOf(t, ignored))
  {
    EscapedIsAscii(t.host, Host);
    EscapedIsAscii(t.path, Path);
    PairsAreAscii(PairsIn(Sorted(Remaining(t, ignored).Keys), Remaining(t, ignored)));
    hide Escape, PrintPairs, Remaining, PairsIn;
    assert Ascii(KeyOf(t, ignored));
    MetadataJson.AsciiIsValid(KeyOf(t, ignored));
  }

  /** Canonicity in terms of what clients write: under one rule, two requests share a key exactly when they came the
      same way, to the same host and decoded path, and give every name that is not ignored the same values in
      the same order, however these are written. */
  lemma {:induction false} SameKeyAsWritten(t: Target, t': Target, ignored: seq<Text>,
                                            query: seq<RawQuery.Segment>, query': seq<RawQuery.Segment>)
    requires Arrives(t.path) && Arrives(t'.path)
    requires query != [] && query' != []
    requires forall g :: g in query ==> RawQuery.WellFormed(g)
    requires forall g :: g in query' ==> RawQuery.WellFormed(g)
    requires t.rawQuery == RawQuery.WriteQuery(query) && t'.rawQuery == RawQuery.WriteQuery(query')
    ensures KeyOf(t, ignored) == KeyOf(t', ignored) <==>
            && t.tls == t'.tls && t.host == t'.host && t.path == t'.path
            && forall name :: name !in ignored ==>
                 RawQuery.ValuesOf(RawQuery.MeaningOfAll(query), name)
                 == RawQuery.ValuesOf(RawQuery.MeaningOfAll(query'), name)
  {
    hide KeyOf, RawQuery.ValuesOf, RawQuery.MeaningOfAll, RawQuery.WriteQuery, RawQuery.WellFormed, ParseQuery;
    SameKeyExactly(t, t', ignored);
    var m, m' := ParseQuery(t.rawQuery), ParseQuery(t'.rawQuery);
    var gone := set n | n in ignored;
    var pairs, pairs' := RawQuery.MeaningOfAll(query), RawQuery.MeaningOfAll(query');
    forall name ensures Holds(m, name, RawQuery.ValuesOf(pairs, name)) && Holds(m', name, RawQuery.ValuesOf(pairs', name)) {
      RawQuery.ReadsQuery(query, name);
      RawQuery.ReadsQuery(query', name);
    }
    var left: Values, left': Values := m - gone, m' - gone;
    if left == left' {
      forall name | name !in ignored ensures RawQuery.ValuesOf(pairs, name) == RawQuery.ValuesOf(pairs', name) {
        assert Holds(m, name, RawQuery.ValuesOf(pairs, name)) && Holds(m', name, RawQuery.ValuesOf(pairs', name));
        assert name in left <==> name in m;
        assert name in left' <==> name in m';
        assert name in m ==> left[name] == m[name];
        assert name in m' ==> left'[name] == m'[name];
      }
    }
    if forall name :: name !in ignored ==> RawQuery.ValuesOf(pairs, name) == RawQuery.ValuesOf(pairs', name) {
      forall name ensures name in left <==> name in left' {
        assert Holds(m, name, RawQuery.ValuesOf(pairs, name)) && Holds(m', name, RawQuery.ValuesOf(pairs', name));
      }
      forall name | name in left ensures left[name] == left'[name] {
        assert Holds(m, name, RawQuery.ValuesOf(pairs, name)) && Holds(m', name, RawQuery.ValuesOf(pairs', name));
      }
      assert left == left';
    }
  }

  /** A map has exactly these values under a name. */
  ghost predicate Holds(m: Values, name: Text, values: seq<Text>) {
    (name in m <==> values != []) && (name in m ==> m[name] == values)
  }

  /** Every raw query is written some way, so that is said of all requests. */
  lemma EveryQueryIsWritten(t: Target) returns (query: seq<RawQuery.Segment>)
    ensures query != [] && (forall g :: g in query ==> RawQuery.WellFormed(g)) && t.rawQuery == RawQuery.WriteQuery(query)
  {
    query := RawQuery.IsQuery(t.rawQuery);
  }

  /** The key starts with the scheme that the request came by. */
  lemma KeysNameTheScheme(t: Target, ignored: seq<Text>)
    ensures var key := KeyOf(t, ignored);
            if t.tls then |key| >= 8 && Spells(key[..8], "https://") else |key| >= 7 && Spells(key[..7], "http://")
  {
    hide PrintPath, PrintQuery, Encode, Escape, Remaining;
  }

  /** Then comes the host, then the path, then, behind a question mark, the query if there is any. */
  lemma KeysInOrder(t: Target, ignored: seq<Text>)
    requires Arrives(t.path) && t.path != STAR
    ensures var key, query := KeyOf(t, ignored), Encode(Remaining(t, ignored));
            key[if t.tls then 8 else 7..] ==
              Escape(t.host, Host) + Escape(t.path, Path) + (if query == [] then [] else [0x3F] + query)
  {
    PrintedPath(t.path);
    hide PrintPath, Encode, Escape, Remaining;
  }
}
