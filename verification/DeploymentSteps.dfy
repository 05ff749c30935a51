/** The simulation, step by step. */
module DeploymentSteps {
  import opened CacheTypes
  import opened StoragePolicy
  import opened Deployment
  import opened DeploymentRuns
  import P = ProxyModel
  import D = DiskModel
  import DiskRuns

  /** What a step is to `ProxyModel`: nothing while a temporary file is written. */
  ghost function Meaning(c: P.Config, s: State, step: Step): Option<P.Step>
    requires DisksOk(s) && Enabled(c, s, step)
  {
    match step
    case Plain(p) => Some(p)
    case Look(id, _, trouble) =>
      var w := s.workers[id];
      if w.key in s.disks[w.owner].names && !trouble.NoFault? then Some(P.Fail(id))
      else if w.stage.Locked? then Some(P.CacheGet(id))
      else Some(P.ServeGet(id))
    case BeginPut(_, _) => None
    case Absorb(_, _) => None
    case Seal(_, _) => None
    case Accept(id, order, fault, acknowledged) =>
      var w := s.workers[id];
      var r := D.AcceptOutcome(s.disks[w.owner], w.stage.upload.value, order, fault);
      Some(if r.ok then P.PutAccepted(id, r.removed, acknowledged) else P.PutFails(id, r.removed))
    case Abort(id) => Some(P.PutFails(id, {}))
    case Stream(id, n) => Some(P.Copy(id, n))
    case End(id) => Some(P.CopyEnds(id))
    case Break(id) => Some(P.CopyBreaks(id))
    case Delete(node, key, fails) => Some(P.Evict(node, if fails then {} else {key}))
  }

  /** `s'` is to `s` what `ProxyModel` says. */
  ghost predicate Simulates(c: P.Config, s: State, s': State, m: Option<P.Step>)
    requires Housed(s)
  {
    && Inv(s') && Housed(s')
    && match m
       case None => Abs(s') == Abs(s)
       case Some(p) => P.Enabled(c, Abs(s), p) && Abs(s') == P.Apply(c, Abs(s), p)
  }

  lemma AbsAt(s: State, id: Id)
    requires Housed(s) && id in s.workers
    ensures id in Abs(s).handlers && Abs(s).handlers[id] == HandlerOf(s.disks, s.workers[id])
  {
    hide DisksOk, HandlerOf, DiskRuns.Visible;
  }

  lemma AbsFields(s: State)
    requires Housed(s)
    ensures Abs(s).handlers.Keys == s.workers.Keys && Abs(s).disks.Keys == s.disks.Keys
    ensures Abs(s).locks == s.locks && Abs(s).origin == s.origin && Abs(s).puts == s.puts && Abs(s).calls == s.calls
  {
    hide DisksOk, HandlerOf, DiskRuns.Visible;
  }

  /** A stage that a handler can take over from the one it is in: it holds no more than before. */
  ghost predicate Follows(t: Stage, t': Stage) {
    && (HandleIn(t').None? || HandleIn(t') == HandleIn(t))
    && (UploadIn(t').None? || (UploadIn(t') == UploadIn(t) && t'.y.resp == t.y.resp))
    && (t'.Asking? || t'.Deciding? ==> t.Asking? || t.Deciding? || HandleIn(t').None?)
    && (t'.Serving? ==> t.Deciding? && t'.sent == [] && t'.y.found.Some?)
  }

  lemma StageFollows(d: D.State, w: Worker, t: Stage)
    requires StageOk(d, w) && Follows(w.stage, t)
    ensures StageOk(d, w.(stage := t))
  {
  }

  lemma ApartFollows(s: State, id: Id, t: Stage, i: Id)
    requires AllApart(s) && id in s.workers && i in s.workers && i != id && Follows(s.workers[id].stage, t)
    ensures var w := s.workers[id].(stage := t); Apart(w, s.workers[i]) && Apart(s.workers[i], w)
  {
    StaysApart(s, id, s.workers[id].(stage := t), i);
  }

  /** The handler of `id` goes on to `t`. */
  lemma ProceedSim(s: State, id: Id, t: Stage, calls: seq<P.Call>)
    requires Inv(s) && Housed(s) && id in s.workers && Follows(s.workers[id].stage, t)
    ensures var s' := Proceed(s, id, t).(calls := calls);
            && Inv(s') && Housed(s') && id in Abs(s).handlers
            && Abs(s') == P.Proceed(Abs(s), id, PhaseOf(s.disks[s.workers[id].owner], t)).(calls := calls)
  {
    hide D.WellFormed, DiskRuns.Visible, Apart, AllApart, Abs, DisksOk, StageOk, Follows, PhaseOf;
    var s' := Proceed(s, id, t).(calls := calls);
    AbsFields(s);
    AbsAt(s, id);
    StageFollows(s.disks[s.workers[id].owner], s.workers[id], t);
    forall i | i in s.workers && i != id ensures Apart(s'.workers[id], s.workers[i]) && Apart(s.workers[i], s'.workers[id]) {
      ApartFollows(s, id, t, i);
    }
    MoveAbs(s, s', id);
  }

  /** The handler of `id` ends in `t`. */
  lemma FinishSim(s: State, id: Id, t: Stage)
    requires Inv(s) && Housed(s) && id in s.workers && Follows(s.workers[id].stage, t)
    ensures var s' := Finish(s, id, t);
            && Inv(s') && Housed(s') && id in Abs(s).handlers
            && Abs(s') == P.Finish(Abs(s), id, PhaseOf(s.disks[s.workers[id].owner], t))
  {
    hide D.WellFormed, DiskRuns.Visible, Apart, AllApart, Abs, DisksOk, StageOk, Follows, PhaseOf;
    var s' := Finish(s, id, t);
    AbsFields(s);
    AbsAt(s, id);
    StageFollows(s.disks[s.workers[id].owner], s.workers[id], t);
    forall i | i in s.workers && i != id ensures Apart(s'.workers[id], s.workers[i]) && Apart(s.workers[i], s'.workers[id]) {
      ApartFollows(s, id, t, i);
    }
    MoveAbs(s, s', id);
  }

  lemma ProceedQuietly(s: State, id: Id, t: Stage)
    requires Inv(s) && Housed(s) && id in s.workers && Follows(s.workers[id].stage, t)
    ensures var s' := Proceed(s, id, t);
            && Inv(s') && Housed(s') && id in Abs(s).handlers
            && Abs(s') == P.Proceed(Abs(s), id, PhaseOf(s.disks[s.workers[id].owner], t))
  {
    hide Inv, Housed, Abs, Follows, PhaseOf;
    AbsFields(s);
    ProceedSim(s, id, t, s.calls);
    assert Proceed(s, id, t).(calls := s.calls) == Proceed(s, id, t);
  }

  /** What a handler of the deployment is to `ProxyModel`. */
  lemma Seen(s: State, id: Id)
    requires Housed(s) && id in s.workers
    ensures id in Abs(s).handlers
    ensures var h, w := Abs(s).handlers[id], s.workers[id];
            && h.node == w.node && h.key == w.key && h.req == w.req && h.owner == w.owner
            && h.phase == PhaseOf(s.disks[w.owner], w.stage)
  {
    AbsAt(s, id);
  }

  lemma ArriveStep(c: P.Config, s: State, p: P.Step)
    requires Inv(s) && Housed(s) && PlainEnabled(c, s, p) && p.Arrive?
    ensures Simulates(c, s, ApplyPlain(c, s, p), Some(p))
  {
    hide D.WellFormed, DiskRuns.Visible, Apart, AllApart, Abs, DisksOk;
    var s' := ApplyPlain(c, s, p);
    AbsFields(s);
    NothingHeldApart(s, p.id, s'.workers[p.id]);
    MoveAbs(s, s', p.id);
  }

  lemma NothingHeldApart(s: State, id: Id, w: Worker)
    requires HandleIn(w.stage).None? && UploadIn(w.stage).None?
    ensures forall i :: i in s.workers && i != id ==> Apart(w, s.workers[i]) && Apart(s.workers[i], w)
  {
  }

  lemma LockStep(c: P.Config, s: State, p: P.Step)
    requires Inv(s) && Housed(s) && PlainEnabled(c, s, p) && p.Lock?
    ensures Simulates(c, s, ApplyPlain(c, s, p), Some(p))
  {
    hide D.WellFormed, DiskRuns.Visible, Apart, AllApart, Abs, DisksOk, P.Owns;
    var s' := ApplyPlain(c, s, p);
    AbsFields(s);
    AbsAt(s, p.id);
    NothingHeldApart(s, p.id, s'.workers[p.id]);
    MoveAbs(s, s', p.id);
  }

  lemma SendGetStep(c: P.Config, s: State, id: Id)
    requires Inv(s) && Housed(s) && PlainEnabled(c, s, P.SendGet(id))
    ensures Simulates(c, s, ApplyPlain(c, s, P.SendGet(id)), Some(P.SendGet(id)))
  {
    hide Inv, Housed, Abs, P.Proceed, Proceed;
    Seen(s, id);
    AbsFields(s);
    var w := s.workers[id];
    ProceedSim(s, id, Calling, s.calls + P.CallsFor(id, P.GetOp, w.node, w.owner, w.key));
  }

  lemma FailStep(c: P.Config, s: State, id: Id)
    requires Inv(s) && Housed(s) && PlainEnabled(c, s, P.Fail(id))
    ensures Simulates(c, s, ApplyPlain(c, s, P.Fail(id)), Some(P.Fail(id)))
  {
    hide Inv, Housed, Abs, P.Finish, Finish;
    Seen(s, id);
    FinishSim(s, id, Failed);
  }

  lemma FetchStep(c: P.Config, s: State, id: Id, resp: Response)
    requires Inv(s) && Housed(s) && PlainEnabled(c, s, P.Fetch(id, resp))
    ensures Simulates(c, s, ApplyPlain(c, s, P.Fetch(id, resp)), Some(P.Fetch(id, resp)))
  {
    hide Inv, Housed, Abs, P.Proceed, Proceed, BlobOf;
    Seen(s, id);
    AbsFields(s);
    var w := s.workers[id];
    var t := Deciding(Round(w.stage.found, P.Validator(MetaOf(w.stage.found), w.req), resp, P.CurrentAt(s.origin, w.key)));
    ProceedQuietly(s, id, t);
  }

  lemma DecideStep(c: P.Config, s: State, id: Id)
    requires Inv(s) && Housed(s) && PlainEnabled(c, s, P.Decide(id))
    ensures Simulates(c, s, ApplyPlain(c, s, P.Decide(id)), Some(P.Decide(id)))
  {
    hide Inv, Housed, Abs, P.Proceed, Proceed, P.Finish, Finish, BlobOf, MayStore;
    Seen(s, id);
    AbsFields(s);
    var w := s.workers[id];
    var t := Decision(c, w, w.stage.y);
    if t.Refreshing? {
      ProceedSim(s, id, t, s.calls + P.CallsFor(id, P.PutOp, w.node, w.owner, w.key));
    } else if t.Serving? {
      ProceedQuietly(s, id, t);
    } else {
      FinishSim(s, id, t);
    }
  }

  lemma TeeSteps(c: P.Config, s: State, p: P.Step)
    requires Inv(s) && Housed(s) && PlainEnabled(c, s, p) && (p.Take? || p.WriteClient? || p.Hand?)
    ensures Simulates(c, s, ApplyPlain(c, s, p), Some(p))
  {
    hide Inv, Housed, Abs, P.Proceed, Proceed, BlobOf;
    Seen(s, p.id);
    AbsFields(s);
    var t := s.workers[p.id].stage;
    if p.Take? {
      ProceedQuietly(s, p.id, t.(at := t.at + p.n, tee := P.Pending(t.y.resp.body[t.at..t.at + p.n])));
    } else if p.WriteClient? {
      ProceedQuietly(s, p.id, t.(sent := t.sent + t.tee.chunk[..p.n], tee := P.Written(t.tee.chunk, p.n)));
    } else {
      ProceedQuietly(s, p.id, t.(read := t.read + t.tee.chunk[..t.tee.n],
                                 tee := if t.tee.n == |t.tee.chunk| then P.Idle else P.Broken));
    }
  }

  /** A handler that returns early: its Put goes on without it, or the client got a prefix. */
  lemma ReturnSteps(c: P.Config, s: State, p: P.Step)
    requires Inv(s) && Housed(s) && PlainEnabled(c, s, p) && (p.Abandon? || p.CopyFails?)
    ensures Simulates(c, s, ApplyPlain(c, s, p), Some(p))
  {
    hide Inv, Housed, Abs, P.Finish, Finish, BlobOf;
    Seen(s, p.id);
    var t := s.workers[p.id].stage;
    FinishSim(s, p.id, if p.Abandon? then Abandoned(t.y, t.sent, t.upload) else CutOff(t.y, t.sent));
  }

  lemma OriginStep(c: P.Config, s: State, key: Key, v: P.Version)
    requires Inv(s) && Housed(s)
    ensures Simulates(c, s, ApplyPlain(c, s, P.OriginChanges(key, v)), Some(P.OriginChanges(key, v)))
  {
    hide D.WellFormed, DiskRuns.Visible, Apart, HandlerOf, StageOk;
    var s' := s.(origin := s.origin[key := v]);
    AbsInParts(s);
    AbsInParts(s');
    assert ContentsOf(s') == ContentsOf(s) && HandlersOf(s') == HandlersOf(s);
  }

  lemma PlainSteps(c: P.Config, s: State, p: P.Step)
    requires Inv(s) && Housed(s) && IsPlain(p) && PlainEnabled(c, s, p)
    ensures Simulates(c, s, ApplyPlain(c, s, p), Some(p))
  {
    hide Inv, Housed, PlainEnabled, ApplyPlain, Simulates;
    match p
    case Arrive(_, _, _, _) => ArriveStep(c, s, p);
    case Lock(_, _) => LockStep(c, s, p);
    case SendGet(id) => SendGetStep(c, s, id);
    case Fail(id) => FailStep(c, s, id);
    case Fetch(id, resp) => FetchStep(c, s, id, resp);
    case Decide(id) => DecideStep(c, s, id);
    case OriginChanges(key, v) => OriginStep(c, s, key, v);
    case Abandon(_) => ReturnSteps(c, s, p);
    case CopyFails(_) => ReturnSteps(c, s, p);
    case _ => TeeSteps(c, s, p);
  }

  lemma BreakEffect(c: P.Config, s: State, id: Id)
    requires Inv(s) && Enabled(c, s, Break(id))
    ensures id in s.workers
    ensures var w := s.workers[id];
            && w.stage.Serving? && w.owner != w.node && Found(s.disks[w.owner], w.stage.y.found).Some?
            && 0 < |w.stage.sent| < |Found(s.disks[w.owner], w.stage.y.found).value.blob|
            && Apply(c, s, Break(id)) == Finish(s, id, Hit(w.stage.y, w.stage.sent, true))
  {
    hide D.WellFormed, AllApart, UploadOk;
    assert StageOk(s.disks[s.workers[id].owner], s.workers[id]);
    FinishKeepsDisks(s, id, Hit(s.workers[id].stage.y, s.workers[id].stage.sent, true));
  }

  lemma BreakStep(c: P.Config, s: State, id: Id)
    requires Inv(s) && Housed(s) && Enabled(c, s, Break(id))
    ensures Simulates(c, s, Apply(c, s, Break(id)), Some(P.CopyBreaks(id)))
  {
    hide Housed, Abs, P.Finish, Finish, Found, DisksOk, WorkersOk, AllApart, Apply, Enabled;
    BreakEffect(c, s, id);
    Seen(s, id);
    var w := s.workers[id];
    FinishSim(s, id, Hit(w.stage.y, w.stage.sent, true));
  }

  lemma FinishKeepsDisks(s: State, id: Id, t: Stage)
    requires id in s.workers
    ensures Finish(s, id, t).(disks := s.disks) == Finish(s, id, t)
  {
  }
}
