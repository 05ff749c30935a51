/** Runs of the disk cache: every interleaving of Gets, Deletes, reads and the steps of any number
    of concurrent Puts refines the lossy map, and open readers are unaffected by what follows. */
module DiskRuns {
  import opened CacheTypes
  import opened DiskModel
  import LossyMap

  ghost predicate ValidRun(s: State, steps: seq<Step>)
    requires WellFormed(s)
    decreases |steps|, 0
  {
    steps == [] ||
    (var init := steps[..|steps| - 1];
     ValidRun(s, init) && Enabled(Run(s, init), steps[|steps| - 1]))
  }

  ghost function Run(s: State, steps: seq<Step>): (s': State)
    requires WellFormed(s) && ValidRun(s, steps)
    ensures WellFormed(s')
    decreases |steps|, 1
  {
    if steps == [] then s
    else
      var before := Run(s, steps[..|steps| - 1]);
      ApplyKeepsWellFormed(before, steps[|steps| - 1]);
      Apply(before, steps[|steps| - 1])
  }

  /** The entries a Get would return. */
  ghost function Visible(s: State): LossyMap.Contents
    requires WellFormed(s)
  {
    map k | k in s.names :: assert NameOk(s, k); s.files[s.names[k]].entry
  }

  /** What a step means to a caller of the cache. */
  ghost function Meaning(s: State, step: Step): LossyMap.Event
    requires WellFormed(s) && Enabled(s, step)
  {
    match step
    case Accept(ino, order, fault) =>
      var r := AcceptOutcome(s, ino, order, fault);
      if r.ok then LossyMap.Put(s.uploads[ino].key, s.uploads[ino].entry, r.removed)
      else LossyMap.Lose(r.removed)
    case Get(key, _, trouble) =>
      if key !in s.names then LossyMap.Get(key, None)
      else if !trouble.NoFault? then LossyMap.Lose({})
      else
        assert NameOk(s, key);
        LossyMap.Get(key, Some(s.files[s.names[key]].entry))
    case Delete(key, false) => LossyMap.Delete(key)
    case _ => LossyMap.Lose({})
  }

  lemma AcceptRefinesAt(s: State, step: Step, k: Key)
    requires WellFormed(s) && Enabled(s, step) && step.Accept?
    requires WellFormed(Apply(s, step))
    ensures LossyMap.Lookup(Visible(Apply(s, step)), k)
            == LossyMap.Lookup(LossyMap.Apply(Visible(s), Meaning(s, step)), k)
  {
    hide WellFormed, ModTimeOrder, AcceptOutcome;
    UploadIsOk(s, step.ino);
    if k in s.names {
      NameIsOk(s, k);
    }
  }

  lemma GetRefinesAt(s: State, step: Step, k: Key)
    requires WellFormed(s) && Enabled(s, step) && step.Get?
    requires WellFormed(Apply(s, step))
    ensures LossyMap.Lookup(Visible(Apply(s, step)), k)
            == LossyMap.Lookup(LossyMap.Apply(Visible(s), Meaning(s, step)), k)
  {
    hide ModTimeOrder, AcceptOutcome, Apply, WellFormed, NameOk, Visible;
    GetKeepsEntries(s, step);
    assert Visible(s) - {} == Visible(s);
  }

  lemma GetKeepsEntries(s: State, step: Step)
    requires WellFormed(s) && Enabled(s, step) && step.Get?
    requires WellFormed(Apply(s, step))
    ensures Visible(Apply(s, step)) == Visible(s)
  {
    hide Apply, Enabled, ModTimeOrder, UploadOk, ReaderOk;
    NamesAfter(s, step);
    forall k | k in s.names ensures NameOk(s, k) && Visible(Apply(s, step))[k] == Visible(s)[k] {
      FilesStay(s, step, s.names[k]);
    }
  }

  lemma OtherRefinesAt(s: State, step: Step, k: Key)
    requires WellFormed(s) && Enabled(s, step) && !step.Accept? && !step.Get?
    requires WellFormed(Apply(s, step))
    ensures LossyMap.Lookup(Visible(Apply(s, step)), k)
            == LossyMap.Lookup(LossyMap.Apply(Visible(s), Meaning(s, step)), k)
  {
    hide Apply, WellFormed, ModTimeOrder;
    NamesAfter(s, step);
    if k in s.names {
      NameIsOk(s, k);
      FilesStay(s, step, s.names[k]);
    }
  }

  lemma SameLookups(m: LossyMap.Contents, m': LossyMap.Contents)
    requires forall k :: LossyMap.Lookup(m, k) == LossyMap.Lookup(m', k)
    ensures m == m'
  {
    forall k ensures k in m <==> k in m' {
      assert LossyMap.Lookup(m, k) == LossyMap.Lookup(m', k);
    }
    forall k | k in m ensures m[k] == m'[k] {
      assert LossyMap.Lookup(m, k) == LossyMap.Lookup(m', k);
    }
  }

  /** Every step of the disk is the step of the lossy map that it means. */
  lemma StepRefines(s: State, step: Step)
    requires WellFormed(s) && Enabled(s, step)
    ensures WellFormed(Apply(s, step))
    ensures LossyMap.Enabled(Visible(s), Meaning(s, step))
    ensures Visible(Apply(s, step)) == LossyMap.Apply(Visible(s), Meaning(s, step))
  {
    ApplyKeepsWellFormed(s, step);
    var m := Visible(Apply(s, step));
    var m' := LossyMap.Apply(Visible(s), Meaning(s, step));
    forall k ensures LossyMap.Lookup(m, k) == LossyMap.Lookup(m', k) {
      if step.Accept? {
        AcceptRefinesAt(s, step, k);
      } else if step.Get? {
        GetRefinesAt(s, step, k);
      } else {
        OtherRefinesAt(s, step, k);
      }
    }
    SameLookups(m, m');
  }

  /** Writing a temporary file, dropping it, reading and closing change nothing that a Get returns. */
  lemma IsInvisible(s: State, step: Step)
    requires WellFormed(s) && Enabled(s, step)
    requires step.Begin? || step.Copy? || step.Seal? || step.Abort? || step.Read? || step.Close?
    ensures WellFormed(Apply(s, step)) && Visible(Apply(s, step)) == Visible(s)
  {
    hide Apply, Enabled, WellFormed, Visible;
    StepRefines(s, step);
    assert Visible(s) - {} == Visible(s);
  }

  ghost function Meanings(s: State, steps: seq<Step>): (evs: seq<LossyMap.Event>)
    requires WellFormed(s) && ValidRun(s, steps)
    ensures |evs| == |steps|
  {
    if steps == [] then []
    else
      var init := steps[..|steps| - 1];
      Meanings(s, init) + [Meaning(Run(s, init), steps[|steps| - 1])]
  }

  /** Disk refinement: the run of the disk is, event by event, a run of the lossy map. */
  lemma {:induction false} RunRefines(s: State, steps: seq<Step>)
    requires WellFormed(s) && ValidRun(s, steps)
    ensures LossyMap.Valid(Visible(s), Meanings(s, steps))
    ensures LossyMap.Run(Visible(s), Meanings(s, steps)) == Visible(Run(s, steps))
    decreases |steps|
  {
    if steps != [] {
      var init := steps[..|steps| - 1];
      RunRefines(s, init);
      StepRefines(Run(s, init), steps[|steps| - 1]);
      var evs := Meanings(s, steps);
      assert evs[..|evs| - 1] == Meanings(s, init);
    }
  }

  lemma {:induction false} MeaningsOfPrefix(s: State, steps: seq<Step>, i: nat)
    requires WellFormed(s) && ValidRun(s, steps) && i <= |steps|
    ensures ValidRun(s, steps[..i])
    ensures Meanings(s, steps)[..i] == Meanings(s, steps[..i])
    ensures i < |steps| ==> Enabled(Run(s, steps[..i]), steps[i])
                            && Meanings(s, steps)[i] == Meaning(Run(s, steps[..i]), steps[i])
    decreases |steps|
  {
    hide Apply, Enabled, WellFormed, Meaning;
    if i == |steps| {
      assert steps[..i] == steps;
    } else if i < |steps| - 1 {
      var init := steps[..|steps| - 1];
      MeaningsOfPrefix(s, init, i);
      assert init[..i] == steps[..i];
    }
  }

  /** A Put that fails, at whatever point, leaves every key unchanged or absent. */
  lemma FailedPutOnlyLoses(s: State, step: Step, k: Key)
    requires WellFormed(s) && Enabled(s, step)
    requires step.Abort? || (step.Accept? && !AcceptOutcome(s, step.ino, step.order, step.fault).ok)
    ensures WellFormed(Apply(s, step))
    ensures k in Visible(Apply(s, step)) ==> k in Visible(s) && Visible(Apply(s, step))[k] == Visible(s)[k]
  {
    StepRefines(s, step);
  }

  lemma StepKeepsReader(s: State, step: Step, id: nat)
    requires WellFormed(s) && Enabled(s, step) && id in s.readers
    ensures var s' := Apply(s, step);
            && id in s'.readers && s'.readers[id].ino == s.readers[id].ino
            && s.readers[id].ino in s.files && s.readers[id].ino in s'.files
            && s'.files[s.readers[id].ino].entry == s.files[s.readers[id].ino].entry
  {
    assert ReaderOk(s, id);
    if step.Seal? {
      assert UploadOk(s, step.ino);
    }
  }

  ghost function Opened(s: State, id: nat): Entry
    requires WellFormed(s) && id in s.readers
  {
    assert ReaderOk(s, id);
    s.files[s.readers[id].ino].entry
  }

  /** An open reader keeps yielding the entry of Get time, whatever is put, deleted or evicted later. */
  lemma {:induction false} ReaderSurvives(s: State, steps: seq<Step>, i: nat, id: nat)
    requires WellFormed(s) && ValidRun(s, steps) && i <= |steps|
    requires ValidRun(s, steps[..i]) && id in Run(s, steps[..i]).readers
    ensures id in Run(s, steps).readers
    ensures Opened(Run(s, steps), id) == Opened(Run(s, steps[..i]), id)
    decreases |steps|
  {
    if i == |steps| {
      assert steps[..i] == steps;
    } else {
      var init := steps[..|steps| - 1];
      assert init[..i] == steps[..i];
      ReaderSurvives(s, init, i, id);
      StepKeepsReader(Run(s, init), steps[|steps| - 1], id);
    }
  }

  lemma OpensTheCurrentEntry(s: State, step: Step)
    requires WellFormed(s) && Enabled(s, step) && step.Get?
    requires WellFormed(Apply(s, step)) && step.id in Apply(s, step).readers
    ensures Meaning(s, step) == LossyMap.Get(step.key, Some(Opened(Apply(s, step), step.id)))
  {
    assert step.key in s.names ==> NameOk(s, step.key);
  }

  lemma RunOfNext(s: State, steps: seq<Step>, i: nat)
    requires WellFormed(s) && i < |steps| && ValidRun(s, steps[..i + 1])
    ensures ValidRun(s, steps[..i]) && Enabled(Run(s, steps[..i]), steps[i])
    ensures Run(s, steps[..i + 1]) == Apply(Run(s, steps[..i]), steps[i])
  {
    assert steps[..i + 1][..i] == steps[..i];
  }

  lemma {:induction false} OpensTheLastPut(s: State, steps: seq<Step>, i: nat)
    requires WellFormed(s) && s.names == map[]
    requires ValidRun(s, steps) && i < |steps| && steps[i].Get?
    requires ValidRun(s, steps[..i]) && ValidRun(s, steps[..i + 1])
    requires steps[i].id in Run(s, steps[..i + 1]).readers
    ensures LossyMap.LastPut(Meanings(s, steps[..i]), steps[i].key)
            == Some(Opened(Run(s, steps[..i + 1]), steps[i].id))
  {
    assert Visible(s) == map[];
    RunOfNext(s, steps, i);
    hide *;
    OpensTheCurrentEntry(Run(s, steps[..i]), steps[i]);
    MeaningsOfPrefix(s, steps, i);
    RunRefines(s, steps);
    LossyMap.GetsReturnTheLastPut(Meanings(s, steps), i);
  }

  /** Whole runs from an empty directory: the reader that the i-th step opens yields, at any later
      point, exactly the entry of the last Put of that key accepted before the Get and not deleted since:
      never an older one, never a part of one. */
  lemma {:induction false} GetYieldsTheLastPut(s: State, steps: seq<Step>, i: nat)
    requires WellFormed(s) && s.names == map[]
    requires ValidRun(s, steps) && i < |steps| && steps[i].Get?
    requires ValidRun(s, steps[..i]) && ValidRun(s, steps[..i + 1])
    requires steps[i].id in Run(s, steps[..i + 1]).readers
    ensures steps[i].id in Run(s, steps).readers
    ensures LossyMap.LastPut(Meanings(s, steps[..i]), steps[i].key)
            == Some(Opened(Run(s, steps), steps[i].id))
  {
    hide *;
    OpensTheLastPut(s, steps, i);
    ReaderSurvives(s, steps, i + 1, steps[i].id);
  }
}
