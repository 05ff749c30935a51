/** The size limit over whole runs. The limit is respected by every run exactly when it is at most
    2^63: above that the `uint64` sum in `evict` can wrap around. */
module DiskSize {
  import opened CacheTypes
  import opened Eviction
  import opened DiskModel
  import opened DiskRuns

  ghost function Total(sizes: map<Key, nat>): nat {
    if sizes == map[] then 0
    else
      var k :| k in sizes;
      sizes[k] + Total(sizes - {k})
  }

  lemma {:induction false} TotalRemove(sizes: map<Key, nat>, k: Key)
    requires k in sizes
    ensures Total(sizes) == sizes[k] + Total(sizes - {k})
  {
    var j :| j in sizes && Total(sizes) == sizes[j] + Total(sizes - {j});
    if j != k {
      TotalRemove(sizes - {j}, k);
      TotalRemove(sizes - {k}, j);
      assert sizes - {j} - {k} == sizes - {k} - {j};
    }
  }

  lemma {:induction false} TotalWithout(sizes: map<Key, nat>, lost: set<Key>)
    ensures Total(sizes - lost) <= Total(sizes)
    decreases |lost|
  {
    if lost == {} {
      assert sizes - lost == sizes;
    } else {
      var k :| k in lost;
      TotalWithout(sizes, lost - {k});
      var m := sizes - (lost - {k});
      assert sizes - lost == m - {k};
      if k in m {
        TotalRemove(m, k);
      } else {
        assert m - {k} == m;
      }
    }
  }

  lemma TotalBind(sizes: map<Key, nat>, k: Key, n: nat)
    ensures Total(sizes[k := n]) <= Total(sizes) + n
  {
    TotalRemove(sizes[k := n], k);
    assert sizes[k := n] - {k} == sizes - {k};
    TotalWithout(sizes, {k});
  }

  ghost function Sizes(s: State): map<Key, nat>
    requires WellFormed(s)
  {
    map k | k in s.names :: assert NameOk(s, k); s.files[s.names[k]].size
  }

  /** The bytes that the directory's entries occupy. */
  ghost function Used(s: State): nat
    requires WellFormed(s)
  {
    Total(Sizes(s))
  }

  /** A listing, in whatever order, adds up to what the directory occupies. */
  lemma {:induction false} SumOfListing(es: seq<DirEntry>, sizes: map<Key, nat>)
    requires forall i, j :: 0 <= i < j < |es| ==> es[i].name != es[j].name
    requires forall i :: 0 <= i < |es| ==> es[i].name in sizes && sizes[es[i].name] == es[i].size
    requires forall k :: k in sizes ==> exists i :: 0 <= i < |es| && es[i].name == k
    ensures Sum(es) == Total(sizes)
    decreases |es|
  {
    if es == [] {
      assert sizes == map[];
    } else {
      var k := es[0].name;
      TotalRemove(sizes, k);
      var rest := sizes - {k};
      forall j | j in rest ensures exists i :: 0 <= i < |es[1..]| && es[1..][i].name == j {
        var i :| 0 <= i < |es| && es[i].name == j;
        assert es[1..][i - 1].name == j;
      }
      SumOfListing(es[1..], rest);
    }
  }

  lemma ListingAddsUp(s: State, order: seq<Key>)
    requires WellFormed(s) && ModTimeOrder(s, order)
    ensures Sum(Listing(s, order)) == Used(s)
  {
    var es := Listing(s, order);
    forall k | k in Sizes(s) ensures exists i :: 0 <= i < |es| && es[i].name == k {
      assert k in order;
      var i :| 0 <= i < |order| && order[i] == k;
      assert es[i].name == k;
    }
    SumOfListing(es, Sizes(s));
  }

  /** What is left after the first `n` names of the order are gone. */
  lemma RemainderAddsUp(s: State, order: seq<Key>, n: nat)
    requires WellFormed(s) && ModTimeOrder(s, order) && n <= |order|
    ensures Sum(Listing(s, order)[n..]) == Total(Sizes(s) - First(order, n))
  {
    var es := Listing(s, order)[n..];
    var gone := First(order, n);
    var rest := Sizes(s) - gone;
    forall i | 0 <= i < |es| ensures es[i].name in rest {
      assert es[i].name == order[n + i];
    }
    forall k | k in rest ensures exists i :: 0 <= i < |es| && es[i].name == k {
      var i := FoundLater(order, n, k);
      assert es[i].name == k;
    }
    SumOfListing(es, rest);
  }

  /** With a limit of at most 2^63 the sum that `evict` tests stays below 2^64. */
  lemma NeverWraps(s: State, ino: Ino, order: seq<Key>)
    requires WellFormed(s) && Used(s) <= s.limit <= TWO_63
    requires ino in s.uploads && s.uploads[ino].size.Some? && ModTimeOrder(s, order)
    ensures Sum(Listing(s, order)) + s.uploads[ino].size.value < TWO_64
  {
    ListingAddsUp(s, order);
    assert UploadOk(s, ino);
  }

  /** If `evict` succeeds, the remaining entries and the new one fit, even if some files could
      not have been removed. */
  lemma {:induction false} EvictMakesRoom(es: seq<DirEntry>, need: nat, limit: nat, undeletable: set<Key>)
    requires Sum(es) + need < TWO_64
    requires Evict(es, need, limit, undeletable).ok
    ensures Fits(es[Evict(es, need, limit, undeletable).removed..], need, limit)
  {
    var r := Evict(es, need, limit, undeletable);
    RemoveStopsFirst(es, need, limit, undeletable);
    NoWrap(es, need, limit, r.removed);
  }

  lemma SizesAfterAccept(s: State, step: Step)
    requires WellFormed(s) && Enabled(s, step) && step.Accept?
    requires WellFormed(Apply(s, step))
    ensures var r := AcceptOutcome(s, step.ino, step.order, step.fault);
            var left := Sizes(s) - r.removed;
            var u := s.uploads[step.ino];
            Sizes(Apply(s, step)) == if r.ok then left[u.key := u.size.value] else left
  {
    hide WellFormed, ModTimeOrder, AcceptOutcome;
    UploadIsOk(s, step.ino);
    forall k | k in s.names ensures s.names[k] in s.files { NameIsOk(s, k); }
  }

  lemma {:induction false} AcceptKeepsBound(s: State, step: Step)
    requires WellFormed(s) && Used(s) <= s.limit <= TWO_63
    requires Enabled(s, step) && step.Accept?
    requires WellFormed(Apply(s, step))
    ensures Used(Apply(s, step)) <= s.limit
  {
    SizesAfterAccept(s, step);
    var need := s.uploads[step.ino].size.value;
    var r := AcceptOutcome(s, step.ino, step.order, step.fault);
    TotalWithout(Sizes(s), r.removed);
    if r.ok {
      var es := Listing(s, step.order);
      NeverWraps(s, step.ino, step.order);
      EvictMakesRoom(es, need, s.limit, step.fault.undeletable);
      RemainderAddsUp(s, step.order, Evict(es, need, s.limit, step.fault.undeletable).removed);
      TotalBind(Sizes(s) - r.removed, s.uploads[step.ino].key, need);
    }
  }

  lemma OtherKeepsSize(s: State, step: Step, k: Key)
    requires WellFormed(s) && Enabled(s, step) && !step.Accept?
    requires WellFormed(Apply(s, step)) && k in Sizes(Apply(s, step))
    ensures k in Sizes(s) && Sizes(Apply(s, step))[k] == Sizes(s)[k]
  {
    hide Apply, WellFormed, ModTimeOrder;
    NamesAfter(s, step);
    NameIsOk(s, k);
    FilesStay(s, step, s.names[k]);
  }

  lemma {:induction false} StepKeepsBound(s: State, step: Step)
    requires WellFormed(s) && Used(s) <= s.limit <= TWO_63
    requires Enabled(s, step) && WellFormed(Apply(s, step))
    ensures Used(Apply(s, step)) <= s.limit
  {
    hide Apply, Enabled, WellFormed, Sizes;
    if step.Accept? {
      AcceptKeepsBound(s, step);
    } else {
      var old', new' := Sizes(s), Sizes(Apply(s, step));
      forall k | k in new' ensures k in old' && new'[k] == old'[k] {
        OtherKeepsSize(s, step, k);
      }
      assert new' == old' - (old'.Keys - new'.Keys);
      TotalWithout(old', old'.Keys - new'.Keys);
    }
  }

  lemma LimitIsFixed(s: State, step: Step)
    requires WellFormed(s) && Enabled(s, step)
    ensures Apply(s, step).limit == s.limit
  {
  }

  lemma {:induction false} RunKeepsBound(s: State, steps: seq<Step>)
    requires WellFormed(s) && Used(s) <= s.limit <= TWO_63 && ValidRun(s, steps)
    ensures Run(s, steps).limit == s.limit && Used(Run(s, steps)) <= s.limit
    decreases |steps|
  {
    hide Apply, Enabled, WellFormed, Used;
    if steps != [] {
      var init := steps[..|steps| - 1];
      RunKeepsBound(s, init);
      LimitIsFixed(Run(s, init), steps[|steps| - 1]);
      ApplyKeepsWellFormed(Run(s, init), steps[|steps| - 1]);
      StepKeepsBound(Run(s, init), steps[|steps| - 1]);
    }
  }

  /** Size bound: no run from an empty directory ever exceeds a limit of at most 2^63, through
      overwrites, failed accepts and files that cannot be removed. */
  lemma {:induction false} SizeBound(limit: nat, steps: seq<Step>)
    requires limit <= TWO_63 && ValidRun(Empty(limit), steps)
    ensures Used(Run(Empty(limit), steps)) <= limit
  {
    assert Sizes(Empty(limit)) == map[];
    RunKeepsBound(Empty(limit), steps);
  }

  const A: Key := [0x61]
  const B: Key := [0x62]
  const C: Key := [0x63]
  const NO_FAULT := AcceptFault(false, {}, false)

  /** What a container takes beside the blob. */
  const OVERHEAD: nat := 1024

  /** An entry that fills a container of `size` bytes. */
  function Filler(size: nat): StoredEntry
    requires size >= OVERHEAD
  {
    Entry(Metadata([]), seq(size - OVERHEAD, _ => 0))
  }

  /** The steps of a Put that fills a container of `size` bytes. */
  function Store(ino: Ino, key: Key, size: nat, order: seq<Key>): seq<Step>
    requires size >= OVERHEAD
  {
    [Begin(ino, key, Filler(size)), Copy(ino, size - OVERHEAD), Seal(ino, size), Accept(ino, order, NO_FAULT)]
  }

  /** The state after `Store` when `evict` finds nothing to do. */
  ghost function Stored(s: State, ino: Ino, key: Key, size: nat): State
    requires size >= OVERHEAD
  {
    s.(clock := s.clock + 4,
       names := s.names[key := ino],
       files := s.files[ino := File(s.clock + 2, size, key, Filler(size))],
       uploads := s.uploads - {ino})
  }

  lemma RunOfAppended(s: State, steps: seq<Step>, step: Step)
    requires WellFormed(s) && ValidRun(s, steps) && Enabled(Run(s, steps), step)
    ensures ValidRun(s, steps + [step])
    ensures Run(s, steps + [step]) == Apply(Run(s, steps), step)
  {
    assert (steps + [step])[..|steps|] == steps;
  }

  lemma ListingIsLocal(s: State, s': State, order: seq<Key>)
    requires WellFormed(s) && ModTimeOrder(s, order) && s'.names == s.names
    requires forall i :: i in s.files ==> i in s'.files && s'.files[i] == s.files[i]
    ensures ModTimeOrder(s', order) && Listing(s', order) == Listing(s, order)
  {
    forall k | k in s.names ensures s.names[k] in s.files { assert NameOk(s, k); }
  }

  /** The state once the temporary file is complete. */
  ghost function Sealed(s: State, ino: Ino, key: Key, size: nat): State
    requires size >= OVERHEAD
  {
    s.(clock := s.clock + 3,
       files := s.files[ino := File(s.clock + 2, size, key, Filler(size))],
       uploads := s.uploads[ino := Upload(key, Filler(size), size - OVERHEAD, Some(size))])
  }

  lemma WriteRun(s0: State, steps: seq<Step>, s: State, ino: Ino, key: Key, size: nat)
    requires WellFormed(s0) && ValidRun(s0, steps) && Run(s0, steps) == s
    requires ino !in s.files && ino !in s.uploads && OVERHEAD <= size < TWO_63
    ensures var write := [Begin(ino, key, Filler(size)), Copy(ino, size - OVERHEAD), Seal(ino, size)];
            ValidRun(s0, steps + write) && Run(s0, steps + write) == Sealed(s, ino, key, size)
  {
    hide WellFormed, ModTimeOrder, AcceptOutcome, Run, ValidRun;
    var b, c, e := Begin(ino, key, Filler(size)), Copy(ino, size - OVERHEAD), Seal(ino, size);
    RunOfAppended(s0, steps, b);
    RunOfAppended(s0, steps + [b], c);
    RunOfAppended(s0, steps + [b] + [c], e);
    assert steps + [b] + [c] + [e] == steps + [b, c, e];
  }

  lemma AcceptIntoRoom(s: State, ino: Ino, order: seq<Key>)
    requires WellFormed(s) && ino in s.uploads && s.uploads[ino].size.Some?
    requires s.uploads[ino].size.value <= s.limit && ModTimeOrder(s, order)
    requires FitsWrapped(Listing(s, order), s.uploads[ino].size.value, s.limit)
    ensures Enabled(s, Accept(ino, order, NO_FAULT))
    ensures Apply(s, Accept(ino, order, NO_FAULT))
            == s.(clock := s.clock + 1, names := s.names[s.uploads[ino].key := ino], uploads := s.uploads - {ino})
  {
    hide WellFormed, Listing;
    assert order[..0] == [];
    assert AcceptOutcome(s, ino, order, NO_FAULT) == AcceptResult({}, true);
    assert s.names - {} == s.names;
  }

  lemma StoreRun(s0: State, steps: seq<Step>, s: State, ino: Ino, key: Key, size: nat, order: seq<Key>)
    requires WellFormed(s0) && ValidRun(s0, steps) && Run(s0, steps) == s
    requires ino !in s.files && ino !in s.uploads && OVERHEAD <= size < TWO_63 && size <= s.limit
    requires ModTimeOrder(s, order) && FitsWrapped(Listing(s, order), size, s.limit)
    ensures ValidRun(s0, steps + Store(ino, key, size, order))
    ensures Run(s0, steps + Store(ino, key, size, order)) == Stored(s, ino, key, size)
  {
    hide Apply, Enabled, WellFormed, ModTimeOrder, FitsWrapped, Run, ValidRun, Listing;
    var write := [Begin(ino, key, Filler(size)), Copy(ino, size - OVERHEAD), Seal(ino, size)];
    WriteRun(s0, steps, s, ino, key, size);
    var s' := Sealed(s, ino, key, size);
    ListingIsLocal(s, s', order);
    AcceptIntoRoom(s', ino, order);
    RunOfAppended(s0, steps + write, Accept(ino, order, NO_FAULT));
    assert steps + write + [Accept(ino, order, NO_FAULT)] == steps + Store(ino, key, size, order);
    assert s'.uploads - {ino} == s.uploads - {ino};
  }

  const HALF: nat := TWO_63 / 2

  /** Two entries fill 2^63 + 1 bytes; a third of 2^63 - 1 bytes makes the sum that `evict` compares wrap to 0. */
  function OverflowingRun(): seq<Step> {
    FillingRun() + Store(2, C, TWO_63 - 1, [A, B])
  }

  function FillingRun(): seq<Step> {
    Store(0, A, HALF + 1, []) + Store(1, B, HALF, [A])
  }

  lemma OneEntry(s: State, k: Key)
    requires WellFormed(s) && s.names.Keys == {k}
    ensures ModTimeOrder(s, [k])
    ensures NameOk(s, k) && Sum(Listing(s, [k])) == s.files[s.names[k]].size
  {
    assert NameOk(s, k);
    assert Sum(Listing(s, [k])[1..]) == 0;
  }

  lemma TwoEntries(s: State, j: Key, k: Key)
    requires WellFormed(s) && s.names.Keys == {j, k} && j != k
    requires NameOk(s, j) && NameOk(s, k)
    requires s.files[s.names[j]].modTime <= s.files[s.names[k]].modTime
    ensures ModTimeOrder(s, [j, k])
    ensures Sum(Listing(s, [j, k])) == s.files[s.names[j]].size + s.files[s.names[k]].size
  {
    var es := Listing(s, [j, k]);
    assert Sum(es) == es[0].size + Sum(es[1..]);
    assert Sum(es[1..]) == es[1].size + Sum(es[1..][1..]);
  }

  lemma EmptyRun(s: State)
    requires WellFormed(s)
    ensures ValidRun(s, []) && Run(s, []) == s
  {
  }

  lemma {:induction false} FillingRunIsValid(limit: nat)
    requires TWO_63 < limit < TWO_64
    ensures ValidRun(Empty(limit), FillingRun())
    ensures Run(Empty(limit), FillingRun()) == Stored(Stored(Empty(limit), 0, A, HALF + 1), 1, B, HALF)
  {
    hide Apply, Enabled, Run, ValidRun, Store;
    var s0 := Empty(limit);
    EmptyRun(s0);
    StoreRun(s0, [], s0, 0, A, HALF + 1, []);
    var steps := Store(0, A, HALF + 1, []);
    assert [] + steps == steps;
    var s1 := Stored(s0, 0, A, HALF + 1);
    OneEntry(s1, A);
    StoreRun(s0, steps, s1, 1, B, HALF, [A]);
  }

  lemma {:induction false} TheSumWraps(limit: nat)
    requires TWO_63 < limit < TWO_64
    ensures var s := Stored(Stored(Empty(limit), 0, A, HALF + 1), 1, B, HALF);
            ModTimeOrder(s, [A, B]) && FitsWrapped(Listing(s, [A, B]), TWO_63 - 1, limit)
  {
    var s := Stored(Stored(Empty(limit), 0, A, HALF + 1), 1, B, HALF);
    assert s.names == map[A := 0, B := 1] && s.uploads == map[];
    TwoEntries(s, A, B);
    hide *;
    assert Wrap(HALF + 1 + HALF + (TWO_63 - 1)) == 0;
  }

  lemma {:induction false} OverflowingRunIsValid(limit: nat)
    requires TWO_63 < limit < TWO_64
    ensures ValidRun(Empty(limit), OverflowingRun())
    ensures Run(Empty(limit), OverflowingRun())
            == Stored(Stored(Stored(Empty(limit), 0, A, HALF + 1), 1, B, HALF), 2, C, TWO_63 - 1)
  {
    hide Apply, Enabled, Run, ValidRun, FillingRun, WellFormed, ModTimeOrder, Listing, FitsWrapped, Store;
    FillingRunIsValid(limit);
    var s2 := Stored(Stored(Empty(limit), 0, A, HALF + 1), 1, B, HALF);
    TheSumWraps(limit);
    StoreRun(Empty(limit), FillingRun(), s2, 2, C, TWO_63 - 1, [A, B]);
  }

  lemma OverflowingSizes(limit: nat)
    requires limit < TWO_64
    requires WellFormed(Stored(Stored(Stored(Empty(limit), 0, A, HALF + 1), 1, B, HALF), 2, C, TWO_63 - 1))
    ensures Sizes(Stored(Stored(Stored(Empty(limit), 0, A, HALF + 1), 1, B, HALF), 2, C, TWO_63 - 1))
            == map[A := HALF + 1, B := HALF, C := TWO_63 - 1]
  {
    hide WellFormed;
  }

  lemma TotalOfThree(a: nat, b: nat, c: nat)
    ensures Total(map[A := a, B := b, C := c]) == a + b + c
  {
    var sizes := map[A := a, B := b, C := c];
    TotalRemove(sizes, A);
    TotalRemove(sizes - {A}, B);
    TotalRemove(sizes - {A} - {B}, C);
    assert sizes - {A} - {B} - {C} == map[];
  }

  lemma {:induction false} OverflowingRunExceeds(limit: nat)
    requires TWO_63 < limit < TWO_64
    ensures ValidRun(Empty(limit), OverflowingRun())
    ensures Used(Run(Empty(limit), OverflowingRun())) == TWO_64
  {
    hide Apply, Enabled, Run, ValidRun, OverflowingRun, WellFormed, Stored, Sizes;
    OverflowingRunIsValid(limit);
    OverflowingSizes(limit);
    TotalOfThree(HALF + 1, HALF, TWO_63 - 1);
  }

  ghost predicate RespectsLimit(limit: nat)
    requires limit < TWO_64
  {
    forall steps :: ValidRun(Empty(limit), steps) ==> Used(Run(Empty(limit), steps)) <= limit
  }

  /** The size bound holds for every run exactly when the limit is at most 2^63. */
  lemma {:induction false} SizeBoundIsExact(limit: nat)
    requires limit < TWO_64
    ensures RespectsLimit(limit) <==> limit <= TWO_63
  {
    hide Apply, Enabled, WellFormed, Used, Run, ValidRun, OverflowingRun;
    if limit <= TWO_63 {
      forall steps | ValidRun(Empty(limit), steps) ensures Used(Run(Empty(limit), steps)) <= limit {
        SizeBound(limit, steps);
      }
    } else {
      OverflowingRunExceeds(limit);
    }
  }
}
