/** `Disk.evict` on one directory listing: which entries it removes, in the `uint64` arithmetic
    the code uses, and what that means when nothing wraps. */
module Eviction {
  import opened CacheTypes

  const TWO_63: nat := 0x8000_0000_0000_0000
  const TWO_64: nat := 0x1_0000_0000_0000_0000

  /** One element of the slice that `evict` collects and sorts. */
  datatype DirEntry = DirEntry(name: Key, size: nat, modTime: nat)

  function Sum(es: seq<DirEntry>): nat {
    if es == [] then 0 else es[0].size + Sum(es[1..])
  }

  predicate SortedByModTime(es: seq<DirEntry>) {
    forall i, j :: 0 <= i < j < |es| ==> es[i].modTime <= es[j].modTime
  }

  predicate DistinctNames(es: seq<DirEntry>) {
    forall i, j :: 0 <= i < j < |es| ==> es[i].name != es[j].name
  }

  /** What a `uint64` holds after an operation whose integer result is `n`. */
  function Wrap(n: int): nat {
    n % TWO_64
  }

  /** The loop's test, with `uint64` wrap-around. */
  predicate FitsWrapped(es: seq<DirEntry>, need: nat, limit: nat) {
    Wrap(Sum(es) + need) <= limit
  }

  /** The same test over the integers. */
  predicate Fits(es: seq<DirEntry>, need: nat, limit: nat) {
    Sum(es) + need <= limit
  }

  datatype Outcome = Outcome(removed: nat, ok: bool)

  /** The removal loop over a sorted listing; `undeletable` names the files whose removal fails. */
  function Remove(es: seq<DirEntry>, need: nat, limit: nat, undeletable: set<Key>): (r: Outcome)
    ensures r.removed <= |es|
  {
    if es == [] || FitsWrapped(es, need, limit) then Outcome(0, true)
    else if es[0].name in undeletable then Outcome(0, false)
    else
      var rest := Remove(es[1..], need, limit, undeletable);
      Outcome(rest.removed + 1, rest.ok)
  }

  /** `evict` after the listing is sorted. */
  function Evict(es: seq<DirEntry>, need: nat, limit: nat, undeletable: set<Key>): (r: Outcome)
    ensures r.removed <= |es|
  {
    if need > limit then Outcome(0, false) else Remove(es, need, limit, undeletable)
  }

  lemma {:induction false} SumSplit(es: seq<DirEntry>, n: nat)
    requires n <= |es|
    ensures Sum(es) == Sum(es[..n]) + Sum(es[n..])
  {
    if n == 0 {
      assert es[0..] == es;
    } else {
      SumSplit(es[1..], n - 1);
      assert es[..n][1..] == es[1..][..n - 1];
      assert es[1..][n - 1..] == es[n..];
    }
  }

  /** The loop in declarative form: it stops at the first suffix that passes the (wrapped) test,
      or before the first file it cannot remove. */
  lemma {:induction false} RemoveStopsFirst(es: seq<DirEntry>, need: nat, limit: nat, undeletable: set<Key>)
    ensures var r := Remove(es, need, limit, undeletable);
            && (forall i :: 0 <= i < r.removed ==> !FitsWrapped(es[i..], need, limit) && es[i].name !in undeletable)
            && (r.ok ==> r.removed == |es| || FitsWrapped(es[r.removed..], need, limit))
            && (!r.ok ==> r.removed < |es| && es[r.removed].name in undeletable)
  {
    assert es[0..] == es;
    if es != [] && !FitsWrapped(es, need, limit) && es[0].name !in undeletable {
      var rest := Remove(es[1..], need, limit, undeletable);
      RemoveStopsFirst(es[1..], need, limit, undeletable);
      forall i | 0 <= i < rest.removed + 1
        ensures !FitsWrapped(es[i..], need, limit) && es[i].name !in undeletable
      {
        if i > 0 {
          assert es[1..][i - 1..] == es[i..];
        }
      }
      assert es[1..][rest.removed..] == es[rest.removed + 1..];
    }
  }

  /** Without wrap-around the code's test is the integer test, on every suffix of the listing. */
  lemma {:induction false} NoWrap(es: seq<DirEntry>, need: nat, limit: nat, n: nat)
    requires Sum(es) + need < TWO_64
    requires n <= |es|
    ensures FitsWrapped(es[n..], need, limit) == Fits(es[n..], need, limit)
  {
    SumSplit(es, n);
  }

  /** Minimal eviction: when nothing wraps and every removal succeeds, the loop removes the
      shortest prefix of the modification-time order that leaves room, and it removes nothing
      when the entry already fits or can never fit. */
  lemma {:induction false} MinimalEviction(es: seq<DirEntry>, need: nat, limit: nat)
    requires Sum(es) + need < TWO_64
    ensures var r := Evict(es, need, limit, {});
            && (r.ok <==> need <= limit)
            && (r.ok ==> Fits(es[r.removed..], need, limit))
            && (forall n :: 0 <= n < r.removed ==> !Fits(es[n..], need, limit))
            && (Fits(es, need, limit) || need > limit ==> r.removed == 0)
  {
    var r := Evict(es, need, limit, {});
    if need <= limit {
      RemoveStopsFirst(es, need, limit, {});
      NoWrap(es, need, limit, r.removed);
      forall n | 0 <= n < r.removed
        ensures !Fits(es[n..], need, limit)
      {
        NoWrap(es, need, limit, n);
      }
      assert es[0..] == es;
    }
  }
}
