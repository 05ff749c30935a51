/** The simulation of the steps that involve a disk. */
module DeploymentDisks {
  import opened CacheTypes
  import opened StoragePolicy
  import opened Rendezvous
  import opened Deployment
  import opened DeploymentRuns
  import opened DeploymentSteps
  import PR = ProxyRuns
  import P = ProxyModel
  import D = DiskModel
  import DiskRuns
  import LossyMap

  /** Only `accept` and `Delete` show. */
  lemma QuietMeaning(d: D.State, dstep: D.Step)
    requires D.WellFormed(d) && D.Enabled(d, dstep) && !dstep.Accept? && !dstep.Delete?
    ensures LossyMap.Apply(DiskRuns.Visible(d), DiskRuns.Meaning(d, dstep)) == DiskRuns.Visible(d)
  {
    hide D.WellFormed, DiskRuns.Visible, D.ModTimeOrder;
    assert DiskRuns.Visible(d) - {} == DiskRuns.Visible(d);
  }

  lemma QuietShift(s: State, s': State, id: Id, dstep: D.Step)
    requires Inv(s) && Housed(s) && Shifts(s, s', id, dstep) && !dstep.Accept? && !dstep.Delete?
    ensures Inv(s') && Housed(s')
    ensures Abs(s') == P.State(Abs(s).disks, Abs(s).handlers[id := HandlerOf(s'.disks, s'.workers[id])],
                               s'.locks, s'.origin, s'.puts, s'.calls)
  {
    hide D.WellFormed, D.Apply, D.Enabled, HandlerOf, Abs, HandlersOf, ContentsOf, LossyMap.Apply;
    hide DiskRuns.Meaning, DiskRuns.Visible, StageOk, Apart, Spares;
    var n := s.workers[id].owner;
    ShiftAbs(s, s', id, dstep);
    QuietMeaning(s.disks[n], dstep);
    SameContents(s, n, DiskRuns.Visible(s.disks[n]));
    AbsInParts(s);
  }

  /** The step of a disk concerns the handler's own reader or temporary file, or none. */
  predicate Mine(dstep: D.Step, t: Stage) {
    && (dstep.Read? || dstep.Close? ==> HandleIn(t).Some? && HandleIn(t).value.reader == dstep.id)
    && (dstep.Copy? || dstep.Seal? || dstep.Abort? || dstep.Accept? ==> UploadIn(t) == Some(dstep.ino))
  }

  lemma SparesOthers(s: State, id: Id, dstep: D.Step, i: Id)
    requires AllApart(s) && id in s.workers && i in s.workers && i != id && Mine(dstep, s.workers[id].stage)
    requires s.workers[i].owner == s.workers[id].owner
    ensures Spares(dstep, s.workers[i].stage)
  {
    assert Apart(s.workers[id], s.workers[i]);
  }

  /** A handler that keeps to what it holds, while its owner's disk takes a step of its. */
  lemma OwnShift(s: State, s': State, id: Id, dstep: D.Step)
    requires Inv(s) && id in s.workers && D.Enabled(s.disks[s.workers[id].owner], dstep) && Mine(dstep, s.workers[id].stage)
    requires s'.disks == s.disks[s.workers[id].owner := D.Apply(s.disks[s.workers[id].owner], dstep)]
    requires id in s'.workers && s'.workers == s.workers[id := s'.workers[id]]
    requires s'.workers[id] == s.workers[id].(stage := s'.workers[id].stage)
    requires StageOk(s'.disks[s.workers[id].owner], s'.workers[id])
    requires var t, t' := s.workers[id].stage, s'.workers[id].stage;
             && (HandleIn(t').None? || HandleIn(t') == HandleIn(t)) && (UploadIn(t').None? || UploadIn(t') == UploadIn(t))
    ensures Shifts(s, s', id, dstep)
  {
    hide D.WellFormed, D.Apply, D.Enabled, StageOk, Apart, Spares, Mine;
    forall i | i in s.workers && i != id
      ensures Apart(s'.workers[id], s.workers[i]) && Apart(s.workers[i], s'.workers[id])
      ensures s.workers[i].owner == s.workers[id].owner ==> Spares(dstep, s.workers[i].stage)
    {
      StaysApart(s, id, s'.workers[id], i);
      if s.workers[i].owner == s.workers[id].owner {
        SparesOthers(s, id, dstep, i);
      }
    }
  }

  lemma UploadStays(d: D.State, dstep: D.Step, w: Worker)
    requires D.WellFormed(d) && D.Enabled(d, dstep) && StageOk(d, w) && Putting(w.stage) && w.stage.upload.Some?
    requires (dstep.Copy? || dstep.Seal?) && dstep.ino == w.stage.upload.value
    ensures StageOk(D.Apply(d, dstep), w) && PhaseOf(D.Apply(d, dstep), w.stage) == PhaseOf(d, w.stage)
  {
    hide D.WellFormed, Found;
    FoundStays(d, dstep, HandleIn(w.stage));
  }

  lemma WritingEffect(c: P.Config, s: State, step: Step)
    requires DisksOk(s) && Enabled(c, s, step) && (step.Absorb? || step.Seal?)
    ensures step.id in s.workers && OnDisk(s, step).Some?
    ensures var w, dstep := s.workers[step.id], OnDisk(s, step).value.1;
            && Putting(w.stage) && w.stage.upload.Some? && w.owner in s.disks && D.WellFormed(s.disks[w.owner])
            && (dstep.Copy? || dstep.Seal?) && dstep.ino == w.stage.upload.value && D.Enabled(s.disks[w.owner], dstep)
            && Apply(c, s, step) == s.(disks := s.disks[w.owner := D.Apply(s.disks[w.owner], dstep)])
  {
    hide D.WellFormed, D.Apply;
    WellFormedAt(s, s.workers[step.id].owner);
  }

  /** While a temporary file is written, nothing happens. */
  lemma WritingStep(c: P.Config, s: State, step: Step)
    requires Inv(s) && Housed(s) && Enabled(c, s, step) && (step.Absorb? || step.Seal?)
    ensures Simulates(c, s, Apply(c, s, step), None)
  {
    hide D.WellFormed, D.Apply, D.Enabled, Apply, Enabled, OnDisk, StageOk, AllApart, Abs, PhaseOf, DisksOk;
    WritingEffect(c, s, step);
    var s', w := Apply(c, s, step), s.workers[step.id];
    var dstep := OnDisk(s, step).value.1;
    UploadStays(s.disks[w.owner], dstep, w);
    assert s.workers[step.id := w] == s.workers;
    OwnShift(s, s', step.id, dstep);
    QuietShift(s, s', step.id, dstep);
    AbsFields(s);
    AbsAt(s, step.id);
    assert Abs(s).handlers[step.id := Abs(s).handlers[step.id]] == Abs(s).handlers;
  }

  lemma WellFormedAt(s: State, n: Node)
    requires DisksOk(s) && n in s.disks
    ensures D.WellFormed(s.disks[n])
  {
  }

  /** A handler that gets a reader or a temporary file which nobody has. */
  lemma FreshShift(s: State, s': State, id: Id, dstep: D.Step)
    requires Inv(s) && id in s.workers && D.Enabled(s.disks[s.workers[id].owner], dstep)
    requires dstep.Get? || dstep.Begin?
    requires s'.disks == s.disks[s.workers[id].owner := D.Apply(s.disks[s.workers[id].owner], dstep)]
    requires id in s'.workers && s'.workers == s.workers[id := s'.workers[id]]
    requires s'.workers[id] == s.workers[id].(stage := s'.workers[id].stage)
    requires StageOk(s'.disks[s.workers[id].owner], s'.workers[id])
    requires var t, t', d := s.workers[id].stage, s'.workers[id].stage, s.disks[s.workers[id].owner];
             && (HandleIn(t').None? || HandleIn(t') == HandleIn(t) || HandleIn(t').value.reader !in d.readers)
             && (UploadIn(t').None? || UploadIn(t').value !in d.uploads)
    ensures Shifts(s, s', id, dstep)
  {
    hide D.WellFormed, D.Apply, D.Enabled, ReaderAt;
    forall i | i in s.workers && i != id
      ensures Apart(s'.workers[id], s.workers[i]) && Apart(s.workers[i], s'.workers[id])
    {
      assert StageOk(s.disks[s.workers[i].owner], s.workers[i]);
      assert Apart(s.workers[id], s.workers[i]);
    }
  }

  lemma BeginsUpload(d: D.State, w: Worker, ino: D.Ino)
    requires D.WellFormed(d) && StageOk(d, w) && Putting(w.stage) && w.stage.upload.None?
    requires ino !in d.files && ino !in d.uploads
    ensures var dstep := D.Begin(ino, w.key, D.AsStored(Entry(Metadata(w.stage.y.resp.etag), w.stage.y.resp.body)));
            var w' := w.(stage := w.stage.(upload := Some(ino)));
            && D.Enabled(d, dstep) && StageOk(D.Apply(d, dstep), w')
            && PhaseOf(D.Apply(d, dstep), w'.stage) == PhaseOf(d, w.stage)
  {
    hide D.WellFormed, Found;
    var dstep := D.Begin(ino, w.key, D.AsStored(Entry(Metadata(w.stage.y.resp.etag), w.stage.y.resp.body)));
    FoundStays(d, dstep, HandleIn(w.stage));
  }

  lemma BeginStep(c: P.Config, s: State, step: Step)
    requires Inv(s) && Housed(s) && Enabled(c, s, step) && step.BeginPut?
    ensures Simulates(c, s, Apply(c, s, step), None)
  {
    hide D.WellFormed, D.Apply, StageOk, AllApart, Abs, PhaseOf, DisksOk, D.AsStored;
    var s', w := Apply(c, s, step), s.workers[step.id];
    var dstep := OnDisk(s, step).value.1;
    WellFormedAt(s, w.owner);
    BeginsUpload(s.disks[w.owner], w, step.ino);
    FreshShift(s, s', step.id, dstep);
    QuietShift(s, s', step.id, dstep);
    AbsFields(s);
    AbsAt(s, step.id);
    assert Abs(s).handlers[step.id := Abs(s).handlers[step.id]] == Abs(s).handlers;
  }

  lemma StreamsOn(d: D.State, w: Worker, n: nat)
    requires D.WellFormed(d) && StageOk(d, w) && w.stage.Serving?
    requires D.Enabled(d, D.Step.Read(w.stage.y.found.value.reader, n))
    ensures var r := d.readers[w.stage.y.found.value.reader];
            var blob := d.files[r.ino].entry.blob;
            var d' := D.Apply(d, D.Step.Read(w.stage.y.found.value.reader, n));
            var w' := w.(stage := Serving(w.stage.y, w.stage.sent + blob[r.pos..r.pos + n]));
            && StageOk(d', w') && PhaseOf(d', w'.stage) == P.Serving(ExchangeOf(d, w.stage.y), w'.stage.sent)
            && ExchangeOf(d, w.stage.y).cached.Some? && ExchangeOf(d, w.stage.y).cached.value.blob == blob
            && r.pos == |w.stage.sent| && r.pos + n <= |blob|
  {
    hide D.WellFormed, D.ModTimeOrder, D.AcceptOutcome;
    FoundStays(d, D.Step.Read(w.stage.y.found.value.reader, n), w.stage.y.found);
  }

  /** The handler goes on while its owner's disk takes a quiet step. */
  lemma QuietProceed(s: State, s': State, id: Id, dstep: D.Step, t: Stage)
    requires Inv(s) && Housed(s) && id in s.workers && Mine(dstep, s.workers[id].stage)
    requires !dstep.Accept? && !dstep.Delete?
    requires var d := s.disks[s.workers[id].owner];
             && D.WellFormed(d) && D.Enabled(d, dstep) && StageOk(D.Apply(d, dstep), s.workers[id].(stage := t))
             && s' == Proceed(s, id, t).(disks := s.disks[s.workers[id].owner := D.Apply(d, dstep)])
    requires HandleIn(t).None? || HandleIn(t) == HandleIn(s.workers[id].stage)
    requires UploadIn(t).None? || UploadIn(t) == UploadIn(s.workers[id].stage)
    ensures Inv(s') && Housed(s') && id in Abs(s).handlers
    ensures Abs(s') == P.Proceed(Abs(s), id, PhaseOf(D.Apply(s.disks[s.workers[id].owner], dstep), t))
  {
    hide D.WellFormed, D.Apply, D.Enabled, StageOk, AllApart, Abs, DisksOk, PhaseOf, Mine;
    OwnShift(s, s', id, dstep);
    QuietShift(s, s', id, dstep);
    AbsFields(s);
    AbsAt(s, id);
  }

  /** The handler ends with a quiet step of its owner's disk. */
  lemma QuietFinish(s: State, s': State, id: Id, dstep: D.Step, t: Stage)
    requires Inv(s) && Housed(s) && id in s.workers && Mine(dstep, s.workers[id].stage)
    requires !dstep.Accept? && !dstep.Delete?
    requires var d := s.disks[s.workers[id].owner];
             && D.WellFormed(d) && D.Enabled(d, dstep) && StageOk(d, s.workers[id])
             && s' == Finish(s, id, t).(disks := s.disks[s.workers[id].owner := D.Apply(d, dstep)])
    requires !Active(t) && !t.Waiting? && !t.Abandoned?
    requires HandleIn(t).None? || HandleIn(t) == HandleIn(s.workers[id].stage)
    ensures Inv(s') && Housed(s') && id in Abs(s).handlers
    ensures Abs(s') == P.Finish(Abs(s), id, PhaseOf(s.disks[s.workers[id].owner], t))
  {
    hide D.WellFormed, D.Apply, D.Enabled, StageOk, AllApart, Abs, DisksOk, PhaseOf, Mine;
    EndsOn(s.disks[s.workers[id].owner], dstep, s.workers[id], t);
    OwnShift(s, s', id, dstep);
    QuietShift(s, s', id, dstep);
    AbsFields(s);
    AbsAt(s, id);
  }

  lemma StreamStep(c: P.Config, s: State, step: Step)
    requires Inv(s) && Housed(s) && Enabled(c, s, step) && step.Stream?
    ensures Simulates(c, s, Apply(c, s, step), Some(P.Copy(step.id, step.n)))
  {
    hide D.WellFormed, D.Apply, StageOk, AllApart, Abs, DisksOk, Housed, ExchangeOf, Proceed, P.Proceed;
    var w := s.workers[step.id];
    var d := s.disks[w.owner];
    WellFormedAt(s, w.owner);
    StreamsOn(d, w, step.n);
    Seen(s, step.id);
    var r := d.readers[w.stage.y.found.value.reader];
    QuietProceed(s, Apply(c, s, step), step.id, D.Step.Read(w.stage.y.found.value.reader, step.n),
                 Serving(w.stage.y, w.stage.sent + d.files[r.ino].entry.blob[r.pos..r.pos + step.n]));
  }

  /** A handler that ends lets go of everything but the record of what it read. */
  lemma EndsOn(d: D.State, dstep: D.Step, w: Worker, t: Stage)
    requires D.WellFormed(d) && D.Enabled(d, dstep) && StageOk(d, w)
    requires !Active(t) && !t.Waiting? && !t.Abandoned? && (HandleIn(t).None? || HandleIn(t) == HandleIn(w.stage))
    ensures StageOk(D.Apply(d, dstep), w.(stage := t)) && PhaseOf(D.Apply(d, dstep), t) == PhaseOf(d, t)
  {
    hide D.WellFormed, D.Apply, D.Enabled, Found;
    FoundStays(d, dstep, HandleIn(w.stage));
    FoundStays(d, dstep, None);
  }

  lemma ReadToTheEnd(d: D.State, w: Worker)
    requires StageOk(d, w) && w.stage.Serving?
    requires var r := d.readers[w.stage.y.found.value.reader]; r.pos == |d.files[r.ino].entry.blob|
    ensures var x := ExchangeOf(d, w.stage.y); x.cached.Some? && |w.stage.sent| == |x.cached.value.blob|
  {
  }

  lemma EndEffect(c: P.Config, s: State, step: Step)
    requires DisksOk(s) && Enabled(c, s, step) && step.End?
    ensures step.id in s.workers && s.workers[step.id].stage.Serving? && s.workers[step.id].stage.y.found.Some?
    ensures var w := s.workers[step.id];
            var dstep := D.Step.Close(w.stage.y.found.value.reader);
            && w.owner in s.disks && D.WellFormed(s.disks[w.owner]) && D.Enabled(s.disks[w.owner], dstep)
            && (var r := s.disks[w.owner].readers[w.stage.y.found.value.reader];
                r.ino in s.disks[w.owner].files && r.pos == |s.disks[w.owner].files[r.ino].entry.blob|)
            && Apply(c, s, step) == Finish(s, step.id, Hit(w.stage.y, w.stage.sent, false))
                                      .(disks := s.disks[w.owner := D.Apply(s.disks[w.owner], dstep)])
  {
    hide D.WellFormed, D.Apply, Finish;
    WellFormedAt(s, s.workers[step.id].owner);
  }

  lemma EndStep(c: P.Config, s: State, step: Step)
    requires Inv(s) && Housed(s) && Enabled(c, s, step) && step.End?
    ensures Simulates(c, s, Apply(c, s, step), Some(P.CopyEnds(step.id)))
  {
    hide D.WellFormed, D.Apply, D.Enabled, Apply, Enabled, StageOk, AllApart, Abs, DisksOk, Housed, Found;
    hide Finish, P.Finish;
    EndEffect(c, s, step);
    var w := s.workers[step.id];
    ReadToTheEnd(s.disks[w.owner], w);
    Seen(s, step.id);
    QuietFinish(s, Apply(c, s, step), step.id, D.Step.Close(w.stage.y.found.value.reader),
                Hit(w.stage.y, w.stage.sent, false));
  }

  lemma LosesNothing(c: P.Config, a: P.State, id: Id)
    requires P.Enabled(c, a, P.PutFails(id, {}))
    ensures var h := a.handlers[id];
            P.Apply(c, a, P.PutFails(id, {})) == P.EndPut(a, id, P.StoreFailed(h.phase.x, h.phase.sent))
  {
    var h := a.handlers[id];
    assert a.disks[h.owner] - {} == a.disks[h.owner];
    assert a.disks[h.owner := a.disks[h.owner]] == a.disks;
  }

  lemma AbortEffect(c: P.Config, s: State, step: Step)
    requires DisksOk(s) && Enabled(c, s, step) && step.Abort?
    ensures step.id in s.workers
    ensures var w := s.workers[step.id];
            && Putting(w.stage) && w.owner in s.disks && D.WellFormed(s.disks[w.owner])
            && (w.stage.upload.Some? ==> D.Enabled(s.disks[w.owner], D.Abort(w.stage.upload.value)))
            && Apply(c, s, step) == EndPut(s, step.id, StoreFailed(w.stage.y, w.stage.sent)).(disks :=
                 if w.stage.upload.Some? then
                   s.disks[w.owner := D.Apply(s.disks[w.owner], D.Abort(w.stage.upload.value))]
                 else s.disks)
  {
    hide D.WellFormed, D.Apply, EndPut;
    WellFormedAt(s, s.workers[step.id].owner);
  }

  lemma AbortStep(c: P.Config, s: State, step: Step)
    requires Inv(s) && Housed(s) && Enabled(c, s, step) && step.Abort?
    ensures Simulates(c, s, Apply(c, s, step), Some(P.PutFails(step.id, {})))
  {
    hide Apply, Enabled, Simulates;
    AbortEffect(c, s, step);
    if s.workers[step.id].stage.Refreshing? {
      AbortOfHandler(c, s, step);
    } else {
      AbortAlone(c, s, step);
    }
  }

  /** The Put fails and its handler with it. */
  lemma AbortOfHandler(c: P.Config, s: State, step: Step)
    requires Inv(s) && Housed(s) && Enabled(c, s, step) && step.Abort?
    requires step.id in s.workers && s.workers[step.id].stage.Refreshing?
    ensures Simulates(c, s, Apply(c, s, step), Some(P.PutFails(step.id, {})))
  {
    hide D.WellFormed, D.Apply, D.Enabled, Apply, Enabled, StageOk, AllApart, Abs, DisksOk, Housed, Found, Finish;
    hide P.Finish, P.Apply, Proceed, P.Proceed;
    AbortEffect(c, s, step);
    var w := s.workers[step.id];
    var t := StoreFailed(w.stage.y, w.stage.sent);
    Seen(s, step.id);
    AbsFields(s);
    LosesNothing(c, Abs(s), step.id);
    if w.stage.upload.Some? {
      QuietFinish(s, Apply(c, s, step), step.id, D.Abort(w.stage.upload.value), t);
    } else {
      FinishSim(s, step.id, t);
      FinishKeepsDisks(s, step.id, t);
    }
  }

  /** An abandoned Put fails. */
  lemma AbortAlone(c: P.Config, s: State, step: Step)
    requires Inv(s) && Housed(s) && Enabled(c, s, step) && step.Abort?
    requires step.id in s.workers && s.workers[step.id].stage.Abandoned?
    ensures Simulates(c, s, Apply(c, s, step), Some(P.PutFails(step.id, {})))
  {
    hide D.WellFormed, D.Apply, D.Enabled, Apply, Enabled, StageOk, AllApart, Abs, DisksOk, Housed, Found, Finish;
    hide P.Finish, P.Apply, Proceed, P.Proceed;
    AbortEffect(c, s, step);
    var w := s.workers[step.id];
    var t := StoreFailed(w.stage.y, w.stage.sent);
    Seen(s, step.id);
    AbsFields(s);
    LosesNothing(c, Abs(s), step.id);
    if w.stage.upload.Some? {
      EndsOn(s.disks[w.owner], D.Abort(w.stage.upload.value), w, t);
      QuietProceed(s, Apply(c, s, step), step.id, D.Abort(w.stage.upload.value), t);
    } else {
      ProceedQuietly(s, step.id, t);
      ProceedKeepsDisks(s, step.id, t);
    }
  }

  lemma ProceedKeepsDisks(s: State, id: Id, t: Stage)
    requires id in s.workers
    ensures Proceed(s, id, t).(disks := s.disks) == Proceed(s, id, t)
  {
  }

  /** What a Get of a handler finds on the owner's disk. */
  lemma LooksOn(d: D.State, w: Worker, reader: nat, trouble: D.GetFault)
    requires D.WellFormed(d) && reader !in d.readers
    ensures var d' := D.Apply(d, D.Step.Get(w.key, reader, trouble));
            && (w.key in d.names ==> d.names[w.key] in d.files)
            && LossyMap.Lookup(DiskRuns.Visible(d), w.key)
               == (if w.key in d.names then Some(d.files[d.names[w.key]].entry) else None)
            && (w.key in d.names && trouble.NoFault? ==>
                  var hd := Some(Handle(reader, d.files[d.names[w.key]].entry.meta));
                  && StageOk(d', w.(stage := Asking(hd)))
                  && Found(d', hd) == Some(d.files[d.names[w.key]].entry))
  {
    hide D.WellFormed, D.ModTimeOrder, D.AcceptOutcome;
    if w.key in d.names {
      D.NameIsOk(d, w.key);
    }
  }

  lemma LookFinds(c: P.Config, s: State, step: Step)
    requires Inv(s) && Housed(s) && Enabled(c, s, step) && step.Look?
    requires var w := s.workers[step.id]; w.key in s.disks[w.owner].names && step.trouble.NoFault?
    ensures Simulates(c, s, Apply(c, s, step), Meaning(c, s, step))
  {
    hide D.WellFormed, D.Apply, StageOk, AllApart, Abs, DisksOk, DiskRuns.Visible, LossyMap.Lookup, Found;
    var w, s' := s.workers[step.id], Apply(c, s, step);
    var d, dstep := s.disks[w.owner], D.Step.Get(w.key, step.reader, step.trouble);
    WellFormedAt(s, w.owner);
    LooksOn(d, w, step.reader, step.trouble);
    FreshShift(s, s', step.id, dstep);
    QuietShift(s, s', step.id, dstep);
    AbsFields(s);
    AbsAt(s, step.id);
    ContentsAt(s, w.owner);
  }

  lemma ContentsAt(s: State, n: Node)
    requires Housed(s) && n in s.disks
    ensures n in Abs(s).disks && Abs(s).disks[n] == DiskRuns.Visible(s.disks[n])
  {
    hide D.WellFormed, HandlerOf, DiskRuns.Visible;
  }

  /** Nothing found. */
  lemma LookMisses(c: P.Config, s: State, step: Step)
    requires Inv(s) && Housed(s) && Enabled(c, s, step) && step.Look?
    requires var w := s.workers[step.id]; w.key !in s.disks[w.owner].names
    ensures Simulates(c, s, Apply(c, s, step), Meaning(c, s, step))
  {
    hide D.WellFormed, D.Apply, AllApart, Abs, DisksOk, Housed, DiskRuns.Visible, LossyMap.Lookup, Proceed, P.Proceed;
    var w := s.workers[step.id];
    WellFormedAt(s, w.owner);
    LooksOn(s.disks[w.owner], w, step.reader, step.trouble);
    Seen(s, step.id);
    ContentsAt(s, w.owner);
    QuietProceed(s, Apply(c, s, step), step.id, D.Step.Get(w.key, step.reader, step.trouble), Asking(None));
  }

  /** Found, but the disk fails. */
  lemma LookFails(c: P.Config, s: State, step: Step)
    requires Inv(s) && Housed(s) && Enabled(c, s, step) && step.Look?
    requires var w := s.workers[step.id]; w.key in s.disks[w.owner].names && !step.trouble.NoFault?
    ensures Simulates(c, s, Apply(c, s, step), Meaning(c, s, step))
  {
    hide D.WellFormed, D.Apply, AllApart, Abs, DisksOk, Housed, StageOk, Finish, P.Finish;
    var w := s.workers[step.id];
    WellFormedAt(s, w.owner);
    Seen(s, step.id);
    QuietFinish(s, Apply(c, s, step), step.id, D.Step.Get(w.key, step.reader, step.trouble), Failed);
  }

  /** The Put has been given the whole body, so the temporary file holds what it was given. */
  lemma WholeBodyIsKept(c: P.Config, s: State, id: Id)
    requires Inv(s) && Housed(s) && PR.Inv(c, Abs(s)) && id in s.workers
    requires var t := s.workers[id].stage; (AtEnd(t) || t.Abandoned?) && t.upload.Some?
    ensures var w := s.workers[id];
            var d := s.disks[w.owner];
            && w.stage.upload.value in d.uploads && d.uploads[w.stage.upload.value].key == w.key
            && d.uploads[w.stage.upload.value].entry == P.Kept(w.stage.y.resp.etag, Given(w.stage))
  {
    hide PR.RecordsOk, PR.DisksOk, PR.LocksOk, Abs, DisksOk, AllApart, P.Kept, P.Owns, MayStore;
    Seen(s, id);
    assert PR.HandlerOk(c, Abs(s).puts, Abs(s).handlers[id]);
    assert StageOk(s.disks[s.workers[id].owner], s.workers[id]);
    var t := s.workers[id].stage;
    assert t.Refreshing? ==> t.y.resp.body[..t.at] == t.y.resp.body;
  }

  /** The state after `accept`. */
  ghost function Accepted(s: State, step: Step): State
    requires DisksOk(s) && step.Accept? && step.id in s.workers && s.workers[step.id].owner in s.disks
    requires var w := s.workers[step.id];
             Putting(w.stage) && w.stage.upload.Some?
             && D.Enabled(s.disks[w.owner], D.Accept(w.stage.upload.value, step.order, step.fault))
  {
    var w := s.workers[step.id];
    var d := s.disks[w.owner];
    var r := D.AcceptOutcome(d, w.stage.upload.value, step.order, step.fault);
    var t := if r.ok && step.acknowledged then Stored(w.stage.y, w.stage.sent) else StoreFailed(w.stage.y, w.stage.sent);
    EndPut(s, step.id, t)
      .(disks := s.disks[w.owner := D.Apply(d, D.Accept(w.stage.upload.value, step.order, step.fault))],
        puts := if r.ok then
                  s.puts + [P.PutRecord(w.owner, w.key, d.uploads[w.stage.upload.value].entry, w.req, w.stage.y.resp)]
                else s.puts)
  }

  lemma AcceptEffect(c: P.Config, s: State, step: Step)
    requires DisksOk(s) && Enabled(c, s, step) && step.Accept?
    ensures step.id in s.workers
    ensures var w := s.workers[step.id];
            && w.owner in s.disks && (AtEnd(w.stage) || (w.stage.Abandoned? && !step.acknowledged)) && w.stage.upload.Some?
            && P.Reachable(c, w.node, w.owner) && (!step.acknowledged ==> w.owner != w.node)
            && D.Enabled(s.disks[w.owner], D.Accept(w.stage.upload.value, step.order, step.fault))
            && Apply(c, s, step) == Accepted(s, step)
  {
    hide D.WellFormed, D.Apply, D.AcceptOutcome;
    assert EndPut(s, step.id, Failed).puts == s.puts;
  }

  /** What `accept` means, in terms of the handler. */
  lemma AcceptMeaning(d: D.State, ino: D.Ino, order: seq<Key>, fault: D.AcceptFault)
    requires D.WellFormed(d) && D.Enabled(d, D.Accept(ino, order, fault))
    ensures var r := D.AcceptOutcome(d, ino, order, fault);
            DiskRuns.Meaning(d, D.Accept(ino, order, fault))
            == if r.ok then LossyMap.Put(d.uploads[ino].key, d.uploads[ino].entry, r.removed) else LossyMap.Lose(r.removed)
  {
    hide D.WellFormed, D.AcceptOutcome, D.ModTimeOrder;
  }

  lemma AcceptShifts(s: State, step: Step)
    requires Inv(s) && step.Accept? && step.id in s.workers
    requires var w := s.workers[step.id];
             Putting(w.stage) && w.stage.upload.Some?
             && D.Enabled(s.disks[w.owner], D.Accept(w.stage.upload.value, step.order, step.fault))
    ensures var w := s.workers[step.id];
            var dstep := D.Accept(w.stage.upload.value, step.order, step.fault);
            var t := Accepted(s, step).workers[step.id].stage;
            && Shifts(s, Accepted(s, step), step.id, dstep)
            && PhaseOf(Accepted(s, step).disks[w.owner], t) == PhaseOf(s.disks[w.owner], t)
  {
    hide D.WellFormed, D.Apply, D.Enabled, D.AcceptOutcome, StageOk, AllApart, PhaseOf;
    var w := s.workers[step.id];
    var dstep := D.Accept(w.stage.upload.value, step.order, step.fault);
    var t := Accepted(s, step).workers[step.id].stage;
    EndsOn(s.disks[w.owner], dstep, w, t);
    OwnShift(s, Accepted(s, step), step.id, dstep);
  }

  ghost predicate CanAccept(s: State, step: Step) {
    && step.Accept? && step.id in s.workers && s.workers[step.id].owner in s.disks
    && var w := s.workers[step.id];
       && (AtEnd(w.stage) || w.stage.Abandoned?) && w.stage.upload.Some?
       && D.Enabled(s.disks[w.owner], D.Accept(w.stage.upload.value, step.order, step.fault))
  }

  ghost function OutcomeOf(s: State, step: Step): D.AcceptResult
    requires CanAccept(s, step)
  {
    var w := s.workers[step.id];
    D.AcceptOutcome(s.disks[w.owner], w.stage.upload.value, step.order, step.fault)
  }

  /** What `ProxyModel` sees of an `accept`. */
  lemma AcceptAbs(c: P.Config, s: State, step: Step)
    requires Inv(s) && Housed(s) && PR.Inv(c, Abs(s)) && CanAccept(s, step)
    ensures var w, r := s.workers[step.id], OutcomeOf(s, step);
            var entry := P.Kept(w.stage.y.resp.etag, Given(w.stage));
            var event := if r.ok then LossyMap.Put(w.key, entry, r.removed) else LossyMap.Lose(r.removed);
            var t := if r.ok && step.acknowledged then Stored(w.stage.y, w.stage.sent)
                     else StoreFailed(w.stage.y, w.stage.sent);
            && Inv(Accepted(s, step)) && Housed(Accepted(s, step)) && w.owner in Abs(s).disks
            && Abs(Accepted(s, step)) ==
                 P.State(Abs(s).disks[w.owner := LossyMap.Apply(Abs(s).disks[w.owner], event)],
                         Abs(s).handlers[step.id := HandlerOf(s.disks, w.(stage := t))],
                         if w.stage.Refreshing? then s.locks - {(w.node, w.key)} else s.locks, s.origin,
                         if r.ok then s.puts + [P.PutRecord(w.owner, w.key, entry, w.req, w.stage.y.resp)] else s.puts,
                         s.calls)
  {
    hide D.WellFormed, D.Apply, D.AcceptOutcome, StageOk, AllApart, DisksOk, WorkersOk, Shifts, Abs, HandlersOf;
    hide ContentsOf, PR.Inv, PhaseOf, DiskRuns.Visible, DiskRuns.Meaning, LossyMap.Apply, P.Kept;
    var w := s.workers[step.id];
    WellFormedAt(s, w.owner);
    WholeBodyIsKept(c, s, step.id);
    AcceptMeaning(s.disks[w.owner], w.stage.upload.value, step.order, step.fault);
    AcceptShifts(s, step);
    ShiftAbs(s, Accepted(s, step), step.id, D.Accept(w.stage.upload.value, step.order, step.fault));
    AbsInParts(s);
    ContentsAt(s, w.owner);
  }

  lemma PutAcceptedInFull(c: P.Config, a: P.State, id: Id, lost: set<Key>, acknowledged: bool)
    requires P.Enabled(c, a, P.PutAccepted(id, lost, acknowledged))
    ensures var h := a.handlers[id];
            var entry := P.Kept(h.phase.x.resp.etag, P.Given(h.phase));
            var p := if acknowledged then P.Stored(h.phase.x, h.phase.sent) else P.StoreFailed(h.phase.x, h.phase.sent);
            P.Apply(c, a, P.PutAccepted(id, lost, acknowledged)) ==
              P.State(a.disks[h.owner := LossyMap.Apply(a.disks[h.owner], LossyMap.Put(h.key, entry, lost))],
                      a.handlers[id := h.(phase := p)],
                      if P.Active(h.phase) then a.locks - {(h.node, h.key)} else a.locks, a.origin,
                      a.puts + [P.PutRecord(h.owner, h.key, entry, h.req, h.phase.x.resp)], a.calls)
  {
    hide LossyMap.Apply, P.Kept, P.Reachable;
  }

  lemma PutFailsInFull(c: P.Config, a: P.State, id: Id, lost: set<Key>)
    requires P.Enabled(c, a, P.PutFails(id, lost))
    ensures var h := a.handlers[id];
            P.Apply(c, a, P.PutFails(id, lost)) ==
              P.State(a.disks[h.owner := LossyMap.Apply(a.disks[h.owner], LossyMap.Lose(lost))],
                      a.handlers[id := h.(phase := P.StoreFailed(h.phase.x, h.phase.sent))],
                      if P.Active(h.phase) then a.locks - {(h.node, h.key)} else a.locks, a.origin, a.puts, a.calls)
  {
    hide LossyMap.Apply;
  }

  /** The step of `ProxyModel` that an `accept` is, and that it can happen there. */
  lemma AcceptIsStep(c: P.Config, s: State, step: Step)
    requires DisksOk(s) && Housed(s) && Enabled(c, s, step) && step.Accept?
    ensures CanAccept(s, step)
    ensures var r := OutcomeOf(s, step);
            var p := if r.ok then P.PutAccepted(step.id, r.removed, step.acknowledged) else P.PutFails(step.id, r.removed);
            Meaning(c, s, step) == Some(p) && P.Enabled(c, Abs(s), p)
  {
    hide D.WellFormed, D.Apply, D.Enabled, Apply, D.AcceptOutcome, DisksOk, Housed, Abs, Found, P.Reachable;
    AcceptEffect(c, s, step);
    Seen(s, step.id);
    AbsFields(s);
  }

  lemma AcceptStep(c: P.Config, s: State, step: Step)
    requires Inv(s) && Housed(s) && PR.Inv(c, Abs(s)) && Enabled(c, s, step) && step.Accept?
    ensures Simulates(c, s, Apply(c, s, step), Meaning(c, s, step))
  {
    hide D.WellFormed, D.Apply, D.Enabled, Apply, Enabled, D.AcceptOutcome, WorkersOk, AllApart, DisksOk, Housed, Abs;
    hide PR.Inv, Found, LossyMap.Apply, P.Kept, Accepted, P.Apply, P.Enabled, Meaning;
    AcceptEffect(c, s, step);
    AcceptIsStep(c, s, step);
    AcceptAbs(c, s, step);
    Seen(s, step.id);
    AbsAt(s, step.id);
    AbsFields(s);
    var r := OutcomeOf(s, step);
    if r.ok {
      PutAcceptedInFull(c, Abs(s), step.id, r.removed, step.acknowledged);
    } else {
      PutFailsInFull(c, Abs(s), step.id, r.removed);
    }
  }

  /** A disk takes a step that concerns no handler. */
  lemma DeleteStep(c: P.Config, s: State, step: Step)
    requires Inv(s) && Housed(s) && Enabled(c, s, step) && step.Delete?
    ensures Simulates(c, s, Apply(c, s, step), Meaning(c, s, step))
  {
    hide D.WellFormed, D.Apply, StageOk, AllApart, Abs, HandlersOf, ContentsOf, DiskRuns.Visible;
    hide DiskRuns.Meaning, LossyMap.Apply, HandlerOf;
    var s' := Apply(c, s, step);
    var d, dstep := s.disks[step.node], D.Step.Delete(step.key, step.fails);
    WellFormedAt(s, step.node);
    D.ApplyKeepsWellFormed(d, dstep);
    DiskRuns.StepRefines(d, dstep);
    DeleteMeaning(d, step.key, step.fails);
    ShiftContents(s, s', step.node, D.Apply(d, dstep));
    NobodyNotices(s, s', step.node, dstep);
    AbsInParts(s);
    AbsInParts(s');
    ContentsAt(s, step.node);
    AbsFields(s);
  }

  lemma DeleteMeaning(d: D.State, key: Key, fails: bool)
    requires D.WellFormed(d)
    ensures var dstep := D.Step.Delete(key, fails);
            LossyMap.Apply(DiskRuns.Visible(d), DiskRuns.Meaning(d, dstep))
            == LossyMap.Apply(DiskRuns.Visible(d), LossyMap.Lose(if fails then {} else {key}))
  {
    hide D.WellFormed, DiskRuns.Visible;
  }

  lemma NobodyNotices(s: State, s': State, n: Node, dstep: D.Step)
    requires Inv(s) && Housed(s) && n in s.disks && D.WellFormed(s.disks[n]) && D.Enabled(s.disks[n], dstep) && dstep.Delete?
    requires s' == s.(disks := s.disks[n := D.Apply(s.disks[n], dstep)]) && DisksOk(s')
    ensures Inv(s') && Housed(s') && HandlersOf(s') == HandlersOf(s)
  {
    hide D.WellFormed, D.Apply, D.Enabled, StageOk, PhaseOf, AllApart;
    forall i | i in s.workers
      ensures s.workers[i].owner in s'.disks && StageOk(s'.disks[s.workers[i].owner], s.workers[i])
      ensures HandlerOf(s'.disks, s.workers[i]) == HandlerOf(s.disks, s.workers[i])
    {
      assert StageOk(s.disks[s.workers[i].owner], s.workers[i]);
      if s.workers[i].owner == n {
        SparedStays(s.disks[n], dstep, s.workers[i]);
      }
    }
    ApartFrame(s, s');
  }

  lemma ApartFrame(s: State, s': State)
    requires AllApart(s) && s'.workers == s.workers
    ensures AllApart(s')
  {
  }

  /** Every step of the deployment is a step of `ProxyModel`, or none. */
  lemma StepSimulates(c: P.Config, s: State, step: Step)
    requires Inv(s) && Housed(s) && PR.Inv(c, Abs(s)) && Enabled(c, s, step)
    ensures Simulates(c, s, Apply(c, s, step), Meaning(c, s, step))
  {
    hide Inv, Housed, Abs, PR.Inv, Simulates, D.WellFormed, D.Apply, D.AcceptOutcome;
    match step
    case Plain(p) => PlainSteps(c, s, p);
    case Look(id, _, trouble) =>
      var w := s.workers[id];
      if w.key !in s.disks[w.owner].names {
        LookMisses(c, s, step);
      } else if trouble.NoFault? {
        LookFinds(c, s, step);
      } else {
        LookFails(c, s, step);
      }
    case BeginPut(_, _) => BeginStep(c, s, step);
    case Absorb(_, _) => WritingStep(c, s, step);
    case Seal(_, _) => WritingStep(c, s, step);
    case Accept(_, _, _, _) => AcceptStep(c, s, step);
    case Abort(_) => AbortStep(c, s, step);
    case Stream(_, _) => StreamStep(c, s, step);
    case End(_) => EndStep(c, s, step);
    case Break(id) => BreakStep(c, s, id);
    case Delete(_, _, _) => DeleteStep(c, s, step);
  }
}
