/** Which entries a Put evicts, over whole runs. A Get stamps the entry when it happens, but a Put stamps it when
    the temporary file is last written, not when it is renamed into the directory. So eviction follows the
    last stamp in every run, and the last access exactly when no entry was overtaken while it waited to be
    accepted. */
module DiskLru {
  import opened CacheTypes
  import opened Eviction
  import opened DiskModel
  import opened DiskRuns

  /** The key that a step accesses: a Get that finds the entry, or a Put that is accepted. */
  ghost function Touched(s: State, step: Step): Option<Key>
    requires WellFormed(s) && Enabled(s, step)
  {
    match step
    case Get(key, _, trouble) => if key in s.names && !trouble.ChtimesFails? then Some(key) else None
    case Accept(ino, order, fault) =>
      if AcceptOutcome(s, ino, order, fault).ok then Some(s.uploads[ino].key) else None
    case _ => None
  }

  /** The position in the run of the last access to `key`, or -1. */
  ghost function LastAccess(s: State, steps: seq<Step>, key: Key): (p: int)
    requires WellFormed(s) && ValidRun(s, steps)
    ensures -1 <= p < |steps|
  {
    if steps == [] then -1
    else
      var init := steps[..|steps| - 1];
      if Touched(Run(s, init), steps[|steps| - 1]) == Some(key) then |steps| - 1
      else LastAccess(s, init, key)
  }

  /** The file whose time a step sets: the end of a Put's writing, or a Get that finds the entry. */
  ghost function Stamped(s: State, step: Step): Option<Ino>
    requires Enabled(s, step)
  {
    match step
    case Seal(ino, _) => Some(ino)
    case Get(key, _, trouble) => if key in s.names && !trouble.ChtimesFails? then Some(s.names[key]) else None
    case _ => None
  }

  /** The position of the last stamp of a file, or -1. */
  ghost function LastStamp(s: State, steps: seq<Step>, ino: Ino): (p: int)
    requires WellFormed(s) && ValidRun(s, steps)
    ensures -1 <= p < |steps|
  {
    if steps == [] then -1
    else
      var init := steps[..|steps| - 1];
      if Stamped(Run(s, init), steps[|steps| - 1]) == Some(ino) then |steps| - 1 else LastStamp(s, init, ino)
  }

  /** The position at which a file was sealed, or -1. */
  function SealedAt(steps: seq<Step>, ino: Ino): (p: int)
    ensures -1 <= p < |steps|
  {
    if steps == [] then -1
    else
      var last := steps[|steps| - 1];
      if last.Seal? && last.ino == ino then |steps| - 1 else SealedAt(steps[..|steps| - 1], ino)
  }

  lemma StepStamps(s: State, step: Step, i: Ino)
    requires WellFormed(s) && Enabled(s, step) && i in Apply(s, step).files
    ensures Apply(s, step).clock == s.clock + 1
    ensures if Stamped(s, step) == Some(i) then Apply(s, step).files[i].modTime == s.clock
            else i in s.files && Apply(s, step).files[i].modTime == s.files[i].modTime
  {
    hide WellFormed, ModTimeOrder, AcceptOutcome;
  }

  lemma ClockTicks(s: State, step: Step)
    requires WellFormed(s) && Enabled(s, step)
    ensures Apply(s, step).clock == s.clock + 1
  {
    hide WellFormed, ModTimeOrder, AcceptOutcome;
  }

  lemma {:induction false} ClockCounts(s: State, steps: seq<Step>)
    requires WellFormed(s) && ValidRun(s, steps)
    ensures Run(s, steps).clock == s.clock + |steps|
    decreases |steps|
  {
    hide Apply, Enabled, WellFormed;
    if steps != [] {
      ClockCounts(s, steps[..|steps| - 1]);
      ClockTicks(Run(s, steps[..|steps| - 1]), steps[|steps| - 1]);
    }
  }

  lemma NoFilesYet(s: State, i: Ino)
    requires WellFormed(s) && s.clock == 0
    ensures i !in s.files
  {
  }

  /** A file's modification time is the position of its last stamp. */
  lemma {:induction false} TimeIsLastStamp(s: State, steps: seq<Step>, i: Ino)
    requires WellFormed(s) && s.clock == 0 && ValidRun(s, steps) && i in Run(s, steps).files
    ensures Run(s, steps).files[i].modTime == LastStamp(s, steps, i)
    decreases |steps|
  {
    hide Apply, Enabled, WellFormed, Stamped;
    if steps == [] {
      NoFilesYet(s, i);
    } else {
      var init, last := steps[..|steps| - 1], steps[|steps| - 1];
      StepStamps(Run(s, init), last, i);
      ClockCounts(s, init);
      if Stamped(Run(s, init), last) != Some(i) {
        TimeIsLastStamp(s, init, i);
      }
    }
  }

  /** Two files stamped at all are not stamped by one step. */
  lemma {:induction false} StampsDiffer(s: State, steps: seq<Step>, i: Ino, j: Ino)
    requires WellFormed(s) && ValidRun(s, steps) && i != j && LastStamp(s, steps, i) >= 0
    ensures LastStamp(s, steps, i) != LastStamp(s, steps, j)
    decreases |steps|
  {
    hide Apply, Enabled, WellFormed, Stamped;
    var init, last := steps[..|steps| - 1], steps[|steps| - 1];
    if Stamped(Run(s, init), last) != Some(i) && Stamped(Run(s, init), last) != Some(j) {
      StampsDiffer(s, init, i, j);
    }
  }

  ghost function ModTime(s: State, k: Key): nat
    requires WellFormed(s) && k in s.names
  {
    assert NameOk(s, k);
    s.files[s.names[k]].modTime
  }

  /** The last stamp of the file that is the entry of `k`. */
  ghost function StampOf(s: State, steps: seq<Step>, k: Key): int
    requires WellFormed(s) && ValidRun(s, steps) && k in Run(s, steps).names
  {
    LastStamp(s, steps, Run(s, steps).names[k])
  }

  lemma ModTimeIsStamp(s: State, steps: seq<Step>, k: Key)
    requires WellFormed(s) && s.clock == 0 && ValidRun(s, steps) && k in Run(s, steps).names
    ensures ModTime(Run(s, steps), k) == StampOf(s, steps, k)
  {
    hide WellFormed, Run, ValidRun, LastStamp;
    NameIsOk(Run(s, steps), k);
    TimeIsLastStamp(s, steps, Run(s, steps).names[k]);
  }

  lemma OlderInListing(s: State, step: Step, e: Key, k: Key)
    requires WellFormed(s) && Enabled(s, step) && step.Accept?
    requires var lost := AcceptOutcome(s, step.ino, step.order, step.fault).removed;
             e in lost && k in s.names && k !in lost
    ensures e in s.names && ModTime(s, e) <= ModTime(s, k) && s.names[e] != s.names[k]
  {
    var order := step.order;
    var n := Evict(Listing(s, order), s.uploads[step.ino].size.value, s.limit, step.fault.undeletable).removed;
    var i :| 0 <= i < n && order[..n][i] == e;
    assert order[i] == e && e in order && k in order;
    var j := FoundLater(order, n, k);
    assert Listing(s, order)[i].modTime <= Listing(s, order)[n + j].modTime;
    assert NameOk(s, e) && NameOk(s, k);
  }

  /** Every run: what a Put evicts was last stamped before everything that survives. */
  lemma {:induction false} EvictsLeastRecentlyStamped(s: State, steps: seq<Step>, accept: Step, e: Key, k: Key)
    requires WellFormed(s) && s.clock == 0 && ValidRun(s, steps)
    requires accept.Accept? && Enabled(Run(s, steps), accept)
    requires var lost := AcceptOutcome(Run(s, steps), accept.ino, accept.order, accept.fault).removed;
             e in lost && k in Run(s, steps).names && k !in lost
    ensures e in Run(s, steps).names && StampOf(s, steps, e) < StampOf(s, steps, k)
  {
    hide Apply, Enabled, WellFormed, ModTime, Run, ValidRun, AcceptOutcome, LastStamp;
    OlderInListing(Run(s, steps), accept, e, k);
    ModTimeIsStamp(s, steps, e);
    ModTimeIsStamp(s, steps, k);
    StampsDiffer(s, steps, Run(s, steps).names[e], Run(s, steps).names[k]);
  }

  /** What can be said of a file that waits to be accepted: nothing has stamped it since it was sealed. */
  lemma WaitingStep(s: State, step: Step, i: Ino)
    requires WellFormed(s) && Enabled(s, step)
    requires i in Apply(s, step).uploads && Apply(s, step).uploads[i].size.Some?
    ensures if step.Seal? && step.ino == i then Stamped(s, step) == Some(i)
            else Stamped(s, step) != Some(i) && i in s.uploads && s.uploads[i].size.Some?
  {
    hide WellFormed, ModTimeOrder, AcceptOutcome;
    if step.Get? && step.key in s.names {
      NameIsOk(s, step.key);
    }
  }

  lemma {:induction false} WaitingIsSealed(s: State, steps: seq<Step>, i: Ino)
    requires WellFormed(s) && s.clock == 0 && ValidRun(s, steps)
    requires i in Run(s, steps).uploads && Run(s, steps).uploads[i].size.Some?
    ensures LastStamp(s, steps, i) == SealedAt(steps, i)
    decreases |steps|
  {
    hide Apply, Enabled, WellFormed, Stamped;
    if steps == [] {
      SealedHasFile(s, i);
      NoFilesYet(s, i);
    } else {
      var init, last := steps[..|steps| - 1], steps[|steps| - 1];
      WaitingStep(Run(s, init), last, i);
      if !(last.Seal? && last.ino == i) {
        WaitingIsSealed(s, init, i);
      }
    }
  }

  lemma SealedHasFile(s: State, i: Ino)
    requires WellFormed(s) && i in s.uploads && s.uploads[i].size.Some?
    ensures i in s.files
  {
    UploadIsOk(s, i);
  }

  /** How an entry was last accessed decides its stamp: a Get stamps it there and then, an accepted Put
      brings the stamp of its sealing. */
  ghost predicate AccessFits(s: State, steps: seq<Step>, k: Key)
    requires WellFormed(s) && ValidRun(s, steps) && k in Run(s, steps).names
  {
    var p, i := LastAccess(s, steps, k), Run(s, steps).names[k];
    && p >= 0 && (steps[p].Get? || steps[p].Accept?)
    && (steps[p].Get? ==> LastStamp(s, steps, i) == p)
    && (steps[p].Accept? ==> steps[p].ino == i && LastStamp(s, steps, i) == SealedAt(steps, i) < p)
  }

  lemma UntouchedEntry(s: State, step: Step, k: Key)
    requires WellFormed(s) && Enabled(s, step)
    requires k in Apply(s, step).names && Touched(s, step) != Some(k)
    ensures k in s.names && Apply(s, step).names[k] == s.names[k]
    ensures Stamped(s, step) != Some(s.names[k]) && !(step.Seal? && step.ino == s.names[k])
  {
    hide WellFormed, ModTimeOrder, AcceptOutcome;
    if k in s.names {
      NameIsOk(s, k);
    }
    if step.Get? && step.key in s.names {
      NameIsOk(s, step.key);
    }
  }

  lemma TouchedEntry(s: State, step: Step, k: Key)
    requires WellFormed(s) && Enabled(s, step) && Touched(s, step) == Some(k)
    ensures step.Get? || step.Accept?
    ensures step.Get? ==> k in s.names && Apply(s, step).names == s.names && Stamped(s, step) == Some(s.names[k])
    ensures step.Accept? ==>
              && step.ino in s.uploads && s.uploads[step.ino].size.Some?
              && Apply(s, step).names[k] == step.ino && Stamped(s, step) == None
  {
    hide WellFormed, ModTimeOrder, AcceptOutcome;
  }

  lemma NoNamesYet(s: State, k: Key)
    requires WellFormed(s) && s.clock == 0
    ensures k !in s.names
  {
    if k in s.names {
      NameIsOk(s, k);
      assert false;
    }
  }

  lemma {:induction false} AccessAndStamp(s: State, steps: seq<Step>, k: Key)
    requires WellFormed(s) && s.clock == 0 && ValidRun(s, steps) && k in Run(s, steps).names
    ensures AccessFits(s, steps, k)
    decreases |steps|
  {
    hide Apply, Enabled, WellFormed, Stamped, Touched;
    if steps == [] {
      NoNamesYet(s, k);
    } else {
      var init, last := steps[..|steps| - 1], steps[|steps| - 1];
      if Touched(Run(s, init), last) != Some(k) {
        UntouchedEntry(Run(s, init), last, k);
        AccessAndStamp(s, init, k);
      } else {
        TouchedEntry(Run(s, init), last, k);
        if last.Accept? {
          WaitingIsSealed(s, init, last.ino);
        }
      }
    }
  }

  /** While `a` waited between its sealing and its acceptance, `b` got its last stamp and its last access. */
  ghost predicate Overtaken(s: State, steps: seq<Step>, a: Key, b: Key)
    requires WellFormed(s) && ValidRun(s, steps) && a in Run(s, steps).names && b in Run(s, steps).names
  {
    var p := LastAccess(s, steps, a);
    && p >= 0 && steps[p].Accept?
    && SealedAt(steps, steps[p].ino) < StampOf(s, steps, b) <= LastAccess(s, steps, b) < p
  }

  /** The exact condition: of two entries, one looks older though it was accessed later, exactly when it was
      overtaken by the other. */
  lemma {:induction false} OrdersDisagreeExactly(s: State, steps: seq<Step>, a: Key, b: Key)
    requires WellFormed(s) && s.clock == 0 && ValidRun(s, steps)
    requires a in Run(s, steps).names && b in Run(s, steps).names
    ensures ModTime(Run(s, steps), a) < ModTime(Run(s, steps), b)
            && LastAccess(s, steps, b) < LastAccess(s, steps, a)
            <==> Overtaken(s, steps, a, b)
  {
    hide Apply, Enabled, WellFormed, ModTime, Run, ValidRun, LastAccess, LastStamp, SealedAt;
    AccessAndStamp(s, steps, a);
    AccessAndStamp(s, steps, b);
    ModTimeIsStamp(s, steps, a);
    ModTimeIsStamp(s, steps, b);
  }

  lemma {:induction false} AccessesDiffer(s: State, steps: seq<Step>, j: Key, k: Key)
    requires WellFormed(s) && ValidRun(s, steps) && j != k
    ensures LastAccess(s, steps, j) == LastAccess(s, steps, k) ==> LastAccess(s, steps, j) == -1
    decreases |steps|
  {
    hide Apply, Enabled, WellFormed, Touched;
    if steps != [] {
      AccessesDiffer(s, steps[..|steps| - 1], j, k);
    }
  }

  /** LRU over whole runs: an evicted entry was last accessed before a survivor exactly when the survivor did
      not overtake it. */
  lemma {:induction false} EvictsLeastRecentlyUsed(s: State, steps: seq<Step>, accept: Step, e: Key, k: Key)
    requires WellFormed(s) && s.clock == 0 && ValidRun(s, steps)
    requires accept.Accept? && Enabled(Run(s, steps), accept)
    requires var lost := AcceptOutcome(Run(s, steps), accept.ino, accept.order, accept.fault).removed;
             e in lost && k in Run(s, steps).names && k !in lost
    ensures e in Run(s, steps).names
    ensures LastAccess(s, steps, e) < LastAccess(s, steps, k) <==> !Overtaken(s, steps, e, k)
  {
    hide Apply, Enabled, WellFormed, ModTime, Run, ValidRun, AcceptOutcome, LastAccess, LastStamp, Overtaken, SealedAt;
    EvictsLeastRecentlyStamped(s, steps, accept, e, k);
    ModTimeIsStamp(s, steps, e);
    ModTimeIsStamp(s, steps, k);
    OrdersDisagreeExactly(s, steps, e, k);
    AccessesDiffer(s, steps, e, k);
    AccessAndStamp(s, steps, e);
  }

  /** No step separates the end of a Put's writing from its acceptance. */
  predicate AtomicPuts(steps: seq<Step>) {
    forall i :: 0 <= i < |steps| && steps[i].Accept? ==>
      i > 0 && steps[i - 1].Seal? && steps[i - 1].ino == steps[i].ino
  }

  lemma {:induction false} SealedNoEarlier(steps: seq<Step>, j: nat)
    requires j < |steps| && steps[j].Seal?
    ensures SealedAt(steps, steps[j].ino) >= j
    decreases |steps|
  {
    if j < |steps| - 1 {
      SealedNoEarlier(steps[..|steps| - 1], j);
    }
  }

  /** When Puts write and rename at once, nothing is overtaken, so eviction is least-recently-used. */
  lemma {:induction false} AtomicPutsAreNotOvertaken(s: State, steps: seq<Step>, a: Key, b: Key)
    requires WellFormed(s) && ValidRun(s, steps) && AtomicPuts(steps)
    requires a in Run(s, steps).names && b in Run(s, steps).names
    ensures !Overtaken(s, steps, a, b)
  {
    hide Apply, Enabled, WellFormed, Run, ValidRun, LastAccess, LastStamp, SealedAt;
    var p := LastAccess(s, steps, a);
    if p >= 0 && steps[p].Accept? {
      SealedNoEarlier(steps, p - 1);
    }
  }
}
