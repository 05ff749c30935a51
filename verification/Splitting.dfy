/** `strings.Split` and how it meets concatenation. */
module Splitting {
  function Split<T(==)>(s: seq<T>, sep: T): (r: seq<seq<T>>)
    ensures |r| >= 1
  {
    if s == [] then [[]]
    else
      var rest := Split(s[1..], sep);
      if s[0] == sep then [[]] + rest else Grow(s[0], rest)
  }

  /** Puts an element in front of the first segment. */
  function Grow<T>(c: T, segments: seq<seq<T>>): (r: seq<seq<T>>)
    requires |segments| >= 1
    ensures |r| == |segments|
  {
    [[c] + segments[0]] + segments[1..]
  }

  lemma GrowOfSum<T>(c: T, p: seq<seq<T>>, q: seq<seq<T>>)
    requires |p| >= 1
    ensures Grow(c, p + q) == Grow(c, p) + q
  {
  }

  lemma {:induction false} SplitOfJoin<T>(a: seq<T>, b: seq<T>, sep: T)
    ensures Split(a + [sep] + b, sep) == Split(a, sep) + Split(b, sep)
  {
    hide Grow;
    if a == [] {
      assert a + [sep] + b == [sep] + b;
      assert ([sep] + b)[1..] == b;
    } else {
      SplitOfJoin(a[1..], b, sep);
      assert (a + [sep] + b)[1..] == a[1..] + [sep] + b;
      GrowOfSum(a[0], Split(a[1..], sep), Split(b, sep));
      assert [[]] + (Split(a[1..], sep) + Split(b, sep)) == [[]] + Split(a[1..], sep) + Split(b, sep);
    }
  }

  /** What is free of the separator extends the first segment. */
  lemma {:induction false} SplitOfPrefix<T>(a: seq<T>, b: seq<T>, sep: T)
    requires sep !in a
    ensures Split(a + b, sep) == [a + Split(b, sep)[0]] + Split(b, sep)[1..]
  {
    if a == [] {
      assert a + b == b;
      assert a + Split(b, sep)[0] == Split(b, sep)[0];
    } else {
      SplitOfPrefix(a[1..], b, sep);
      assert (a + b)[1..] == a[1..] + b;
      assert [a[0]] + (a[1..] + Split(b, sep)[0]) == a + Split(b, sep)[0];
    }
  }

  /** Puts more behind the last segment. */
  function Extend<T>(segments: seq<seq<T>>, b: seq<T>): (r: seq<seq<T>>)
    requires |segments| >= 1
    ensures |r| == |segments|
  {
    segments[..|segments| - 1] + [segments[|segments| - 1] + b]
  }

  lemma GrowOfExtend<T>(c: T, p: seq<seq<T>>, b: seq<T>)
    requires |p| >= 1
    ensures Grow(c, Extend(p, b)) == Extend(Grow(c, p), b)
    ensures [[]] + Extend(p, b) == Extend([[]] + p, b)
  {
    if |p| == 1 {
      assert [c] + (p[0] + b) == [c] + p[0] + b;
    }
  }

  /** What is free of the separator extends the last segment. */
  lemma {:induction false} SplitOfSuffix<T>(a: seq<T>, b: seq<T>, sep: T)
    requires sep !in b
    ensures Split(a + b, sep) == Extend(Split(a, sep), b)
  {
    if a == [] {
      SplitOfPrefix(b, [], sep);
      assert a + b == b == b + [];
    } else {
      SplitOfSuffix(a[1..], b, sep);
      assert (a + b)[1..] == a[1..] + b;
      GrowOfExtend(a[0], Split(a[1..], sep), b);
      hide Grow, Extend;
    }
  }
}
