/** Why eviction is least-recently-used only for Puts that nothing interrupts: an entry carries the time at which
    its temporary file was written, so one that is accepted late is taken for older than it is. */
module DiskLruLimits {
  import opened CacheTypes
  import opened Eviction
  import opened DiskModel
  import opened DiskRuns
  import opened DiskSize
  import opened DiskLru

  const SIZE: nat := 2000

  /** Any entry whose container has that size. */
  const NOTHING: StoredEntry := Entry(Metadata([]), [])

  /** A is written, B is written and accepted, A is accepted, C is written. */
  function LateAccept(): (steps: seq<Step>)
    ensures |steps| == 8
  {
    [Begin(0, A, NOTHING), Seal(0, SIZE), Begin(1, B, NOTHING), Seal(1, SIZE), Accept(1, [], NO_FAULT),
     Accept(0, [B], NO_FAULT), Begin(2, C, NOTHING), Seal(2, SIZE)]
  }

  function Done(key: Key): Upload {
    Upload(key, NOTHING, 0, Some(SIZE))
  }

  /** The states that it goes through, with a limit of two containers. */
  function Trace(i: nat): State
    requires i <= 8
  {
    var fileA, fileB, fileC := File(1, SIZE, A, NOTHING), File(3, SIZE, B, NOTHING), File(7, SIZE, C, NOTHING);
    match i
    case 0 => State(2 * SIZE, 0, map[], map[], map[], map[])
    case 1 => State(2 * SIZE, 1, map[], map[], map[0 := Upload(A, NOTHING, 0, None)], map[])
    case 2 => State(2 * SIZE, 2, map[], map[0 := fileA], map[0 := Done(A)], map[])
    case 3 => State(2 * SIZE, 3, map[], map[0 := fileA], map[0 := Done(A), 1 := Upload(B, NOTHING, 0, None)], map[])
    case 4 => State(2 * SIZE, 4, map[], map[0 := fileA, 1 := fileB], map[0 := Done(A), 1 := Done(B)], map[])
    case 5 => State(2 * SIZE, 5, map[B := 1], map[0 := fileA, 1 := fileB], map[0 := Done(A)], map[])
    case 6 => State(2 * SIZE, 6, map[A := 0, B := 1], map[0 := fileA, 1 := fileB], map[], map[])
    case 7 =>
      State(2 * SIZE, 7, map[A := 0, B := 1], map[0 := fileA, 1 := fileB], map[2 := Upload(C, NOTHING, 0, None)], map[])
    case 8 => State(2 * SIZE, 8, map[A := 0, B := 1], map[0 := fileA, 1 := fileB, 2 := fileC], map[2 := Done(C)], map[])
  }

  ghost predicate Moves(i: nat)
    requires i < 8
  {
    && WellFormed(Trace(i)) && Enabled(Trace(i), LateAccept()[i])
    && Apply(Trace(i), LateAccept()[i]) == Trace(i + 1)
  }

  lemma WritingSteps(i: nat)
    requires i in {0, 1, 2, 3, 6, 7} && WellFormed(Trace(i))
    ensures Moves(i)
  {
    hide WellFormed, ModTimeOrder, AcceptOutcome;
  }

  lemma FirstAccept()
    requires WellFormed(Trace(4))
    ensures Moves(4)
  {
    var s := Trace(4);
    assert Listing(s, []) == [];
    AcceptIntoRoom(s, 1, []);
    hide Apply, WellFormed, ModTimeOrder, Listing;
    assert s.uploads - {1} == Trace(5).uploads;
  }

  lemma SecondAccept()
    requires WellFormed(Trace(5))
    ensures Moves(5)
  {
    var s := Trace(5);
    OneEntry(s, B);
    AcceptIntoRoom(s, 0, [B]);
    hide Apply, WellFormed, ModTimeOrder, Listing;
    assert s.uploads - {0} == Trace(6).uploads;
    assert s.names[A := 0] == Trace(6).names;
  }

  lemma Move(i: nat)
    requires i < 8 && WellFormed(Trace(i))
    ensures Moves(i) && WellFormed(Trace(i + 1))
  {
    hide WellFormed, Apply, Enabled, Trace, LateAccept;
    if i == 4 {
      FirstAccept();
    } else if i == 5 {
      SecondAccept();
    } else {
      WritingSteps(i);
    }
    ApplyKeepsWellFormed(Trace(i), LateAccept()[i]);
  }

  lemma {:induction false} Follows(i: nat)
    requires i <= 8
    ensures ValidRun(Empty(2 * SIZE), LateAccept()[..i]) && Run(Empty(2 * SIZE), LateAccept()[..i]) == Trace(i)
    ensures WellFormed(Trace(i))
  {
    hide WellFormed, Apply, Enabled, Trace, LateAccept, Run, ValidRun;
    if i == 0 {
      assert LateAccept()[..0] == [];
      EmptyRun(Empty(2 * SIZE));
      Starts();
    } else {
      Follows(i - 1);
      Move(i - 1);
      RunOfAppended(Empty(2 * SIZE), LateAccept()[..i - 1], LateAccept()[i - 1]);
      assert LateAccept()[..i - 1] + [LateAccept()[i - 1]] == LateAccept()[..i];
    }
  }

  lemma Starts()
    ensures Trace(0) == Empty(2 * SIZE)
  {
  }

  /** The Put of A is accepted after that of B. */
  lemma TouchedAt(i: nat)
    requires i < 8 && WellFormed(Trace(i)) && Moves(i)
    ensures Touched(Trace(i), LateAccept()[i]) == if i == 4 then Some(B) else if i == 5 then Some(A) else None
  {
    hide WellFormed, ModTimeOrder, AcceptOutcome;
    if i == 4 || i == 5 {
      var s, step := Trace(i), LateAccept()[i];
      assert s.uploads[step.ino].key in Apply(s, step).names;
    }
  }

  lemma {:induction false} LastAccessAt(i: nat, key: Key)
    requires i <= 8 && key in {A, B}
    ensures ValidRun(Empty(2 * SIZE), LateAccept()[..i])
    ensures LastAccess(Empty(2 * SIZE), LateAccept()[..i], key)
            == if key == A then (if i > 5 then 5 else -1) else (if i > 4 then 4 else -1)
  {
    hide WellFormed, Apply, Enabled, Trace, LateAccept, Run, ValidRun, Touched;
    Follows(i);
    if i > 0 {
      Follows(i - 1);
      LastAccessAt(i - 1, key);
      Move(i - 1);
      TouchedAt(i - 1);
      assert LateAccept()[..i][..i - 1] == LateAccept()[..i - 1];
    }
  }

  /** C evicts A, though A was accessed after B, which survives. */
  lemma LateAcceptIsTakenForOld()
    ensures var s, steps, accept := Empty(2 * SIZE), LateAccept(), Accept(2, [A, B], NO_FAULT);
            && ValidRun(s, steps) && Enabled(Run(s, steps), accept)
            && var lost := AcceptOutcome(Run(s, steps), accept.ino, accept.order, accept.fault).removed;
               && A in lost && B !in lost && A in Run(s, steps).names && B in Run(s, steps).names
               && LastAccess(s, steps, A) > LastAccess(s, steps, B) && Overtaken(s, steps, A, B)
  {
    hide WellFormed, Apply, Run, ValidRun, LastAccess, LateAccept, Overtaken;
    assert LateAccept()[..8] == LateAccept();
    Follows(8);
    LastAccessAt(8, A);
    LastAccessAt(8, B);
    EvictsTheWrongOne();
    EvictsLeastRecentlyUsed(Empty(2 * SIZE), LateAccept(), Accept(2, [A, B], NO_FAULT), A, B);
  }

  lemma EvictsTheWrongOne()
    requires WellFormed(Trace(8))
    ensures var s := Trace(8);
            && ModTimeOrder(s, [A, B]) && B in s.names
            && AcceptOutcome(s, 2, [A, B], NO_FAULT).removed == {A}
  {
    var s := Trace(8);
    TwoEntries(s, A, B);
    var es := Listing(s, [A, B]);
    hide ModTimeOrder, WellFormed;
    assert Sum(es[1..]) == SIZE + Sum(es[1..][1..]);
    assert Sum(es) == 2 * SIZE && !FitsWrapped(es, SIZE, 2 * SIZE) && FitsWrapped(es[1..], SIZE, 2 * SIZE);
    assert Remove(es[1..], SIZE, 2 * SIZE, {}) == Outcome(0, true);
    assert Evict(es, SIZE, 2 * SIZE, {}).removed == 1;
    assert [A, B][..1] == [A];
  }
}
