/** The sort that `evict` applies to its listing. Only the contract matters to the callers: some
    permutation in modification-time order, ties in any order. */
module Sorting {
  import opened Eviction

  function Insert(es: seq<DirEntry>, e: DirEntry): (r: seq<DirEntry>)
    requires SortedByModTime(es)
    ensures SortedByModTime(r) && |r| == |es| + 1
    ensures forall x :: x in r <==> x in es || x == e
  {
    if es == [] || e.modTime <= es[0].modTime then [e] + es
    else
      var rest := Insert(es[1..], e);
      assert forall x :: x in es <==> x == es[0] || x in es[1..];
      assert forall i :: 0 <= i < |rest| ==> rest[i] in rest;
      [es[0]] + rest
  }

  function SortByModTime(es: seq<DirEntry>): (r: seq<DirEntry>)
    ensures SortedByModTime(r) && |r| == |es|
    ensures forall x :: x in r <==> x in es
  {
    if es == [] then []
    else
      assert forall x :: x in es <==> x == es[0] || x in es[1..];
      Insert(SortByModTime(es[1..]), es[0])
  }

  lemma {:induction false} InsertDistinct(es: seq<DirEntry>, e: DirEntry)
    requires SortedByModTime(es) && DistinctNames(es)
    requires forall x :: x in es ==> x.name != e.name
    ensures DistinctNames(Insert(es, e))
  {
    if !(es == [] || e.modTime <= es[0].modTime) {
      InsertDistinct(es[1..], e);
      var rest := Insert(es[1..], e);
      forall j | 0 <= j < |rest| ensures rest[j].name != es[0].name {
        assert rest[j] in rest;
      }
    }
  }

  /** Sorting a listing keeps it a listing: no name appears twice. */
  lemma {:induction false} SortDistinct(es: seq<DirEntry>)
    requires DistinctNames(es)
    ensures DistinctNames(SortByModTime(es))
  {
    if es != [] {
      SortDistinct(es[1..]);
      InsertDistinct(SortByModTime(es[1..]), es[0]);
    }
  }

  lemma {:induction false} InsertAdds(es: seq<DirEntry>, e: DirEntry)
    requires SortedByModTime(es)
    ensures multiset(Insert(es, e)) == multiset(es) + multiset{e}
  {
    if !(es == [] || e.modTime <= es[0].modTime) {
      InsertAdds(es[1..], e);
      assert es == [es[0]] + es[1..];
    }
  }

  /** Sorting permutes. */
  lemma {:induction false} SortPermutes(es: seq<DirEntry>)
    ensures multiset(SortByModTime(es)) == multiset(es) && SortedByModTime(SortByModTime(es))
  {
    if es != [] {
      SortPermutes(es[1..]);
      InsertAdds(SortByModTime(es[1..]), es[0]);
      assert es == [es[0]] + es[1..];
    }
  }
}
