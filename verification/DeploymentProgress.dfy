/** The same over real disks: what a handler finds does not keep it from storing what it gets, and what it streams it
    streams to the end. */
module DeploymentProgress {
  import opened CacheTypes
  import opened StoragePolicy
  import opened Rendezvous
  import opened Deployment
  import opened DeploymentRuns
  import opened DeploymentDisks
  import opened DeploymentTheorems
  import P = ProxyModel
  import D = DiskModel
  import DiskObject
  import DiskRuns
  import DiskSize
  import Eviction
  import LossyMap

  /** The step is one of this handler. */
  predicate IsOf(step: Step, id: Id) {
    match step
    case Plain(p) => !p.Evict? && !p.OriginChanges? && p.id == id
    case Delete(_, _, _) => false
    case _ => step.id == id
  }

  predicate Own(steps: seq<Step>, id: Id) {
    forall i :: 0 <= i < |steps| ==> IsOf(steps[i], id)
  }

  ghost predicate Goes(c: P.Config, limit: nat, past: seq<Step>, id: Id, more: seq<Step>, s: State)
    requires limit < Eviction.TWO_64
  {
    Own(more, id) && ValidRun(c, limit, past + more) && Run(c, limit, past + more) == s
  }

  /** After a run, steps of one handler alone lead to the state. */
  ghost predicate CanGo(c: P.Config, limit: nat, past: seq<Step>, id: Id, s: State)
    requires limit < Eviction.TWO_64
  {
    exists more :: Goes(c, limit, past, id, more, s)
  }

  lemma Starts(c: P.Config, limit: nat, past: seq<Step>, id: Id)
    requires limit < Eviction.TWO_64 && ValidRun(c, limit, past)
    ensures CanGo(c, limit, past, id, Run(c, limit, past))
  {
    assert past + [] == past;
    assert Goes(c, limit, past, id, [], Run(c, limit, past));
  }

  lemma GoesOn(c: P.Config, limit: nat, past: seq<Step>, id: Id, s: State, step: Step)
    requires limit < Eviction.TWO_64 && CanGo(c, limit, past, id, s) && Enabled(c, s, step) && IsOf(step, id)
    ensures DisksOk(s) && CanGo(c, limit, past, id, Apply(c, s, step))
  {
    hide Apply, Enabled, IsOf, Run, ValidRun;
    var more :| Goes(c, limit, past, id, more, s);
    assert past + (more + [step]) == past + more + [step];
    OneMoreStep(c, limit, past + more, step);
    assert Goes(c, limit, past, id, more + [step], Apply(c, s, step));
  }

  lemma OneMoreStep(c: P.Config, limit: nat, steps: seq<Step>, step: Step)
    requires limit < Eviction.TWO_64 && ValidRun(c, limit, steps) && Enabled(c, Run(c, limit, steps), step)
    ensures DisksOk(Run(c, limit, steps)) && ValidRun(c, limit, steps + [step])
    ensures Run(c, limit, steps + [step]) == Apply(c, Run(c, limit, steps), step)
  {
    hide Apply, Enabled;
    assert (steps + [step])[..|steps|] == steps;
  }

  lemma TheWay(c: P.Config, limit: nat, past: seq<Step>, id: Id, s: State) returns (more: seq<Step>)
    requires limit < Eviction.TWO_64 && CanGo(c, limit, past, id, s)
    ensures Own(more, id) && ValidRun(c, limit, past + more) && Run(c, limit, past + more) == s
  {
    more :| Goes(c, limit, past, id, more, s);
  }

  /** There is always a file that is not there. */
  lemma {:induction false} FreshNumber(taken: set<nat>) returns (n: nat)
    ensures forall k :: k in taken ==> k < n
    decreases taken
  {
    if taken == {} {
      return 0;
    }
    var k :| k in taken;
    var m := FreshNumber(taken - {k});
    n := if m > k then m else k + 1;
    assert forall j :: j in taken ==> j == k || j in taken - {k};
  }

  ghost predicate Limited(s: State, limit: nat) {
    forall n :: n in s.disks ==> s.disks[n].limit == limit
  }

  lemma StepKeepsLimited(c: P.Config, s: State, step: Step, limit: nat)
    requires DisksOk(s) && Limited(s, limit) && Enabled(c, s, step)
    ensures Limited(Apply(c, s, step), limit)
  {
    hide D.WellFormed, D.Apply, D.Enabled, Apply, Enabled;
    var move := OneDiskMoves(c, s, step);
    if move.Some? {
      DiskSize.LimitIsFixed(s.disks[move.value.0], move.value.1);
    }
  }

  lemma {:induction false} RunKeepsLimited(c: P.Config, limit: nat, steps: seq<Step>)
    requires limit < Eviction.TWO_64 && ValidRun(c, limit, steps)
    ensures Limited(Run(c, limit, steps), limit)
    decreases |steps|
  {
    if steps != [] {
      hide Apply, Enabled, Limited;
      RunKeepsLimited(c, limit, steps[..|steps| - 1]);
      StepKeepsLimited(c, Run(c, limit, steps[..|steps| - 1]), steps[|steps| - 1], limit);
    }
  }

  lemma DecidesToRefresh(c: P.Config, limit: nat, past: seq<Step>, id: Id, s: State) returns (s': State)
    requires limit < Eviction.TWO_64 && CanGo(c, limit, past, id, s) && id in s.workers && s.workers[id].stage.Deciding?
    requires s.workers[id].stage.y.resp.status == 200 && MayStore(s.workers[id].req, s.workers[id].stage.y.resp)
    ensures CanGo(c, limit, past, id, s') && s'.disks == s.disks && id in s'.workers
    ensures s'.workers[id] == s.workers[id].(stage := Refreshing(s.workers[id].stage.y, 0, [], [], P.Idle, None))
  {
    hide CanGo, MayStore, P.CallsFor;
    GoesOn(c, limit, past, id, s, Plain(P.Decide(id)));
    s' := Apply(c, s, Plain(P.Decide(id)));
  }

  lemma TeesAll(c: P.Config, limit: nat, past: seq<Step>, id: Id, s: State) returns (s': State)
    requires limit < Eviction.TWO_64 && CanGo(c, limit, past, id, s) && id in s.workers && s.workers[id].stage.Refreshing?
    requires s.workers[id].stage == Refreshing(s.workers[id].stage.y, 0, [], [], P.Idle, None)
    ensures CanGo(c, limit, past, id, s') && s'.disks == s.disks && id in s'.workers
    ensures var y := s.workers[id].stage.y;
            var body := y.resp.body;
            s'.workers[id] == s.workers[id].(stage := Refreshing(y, |body|, body, body, P.Idle, None))
  {
    hide CanGo, P.Owns, P.Reachable, P.CallsFor, D.Enabled, D.WellFormed, Decision;
    var body := s.workers[id].stage.y.resp.body;
    assert body[0..|body|] == body && body[..|body|] == body && [] + body == body;
    GoesOn(c, limit, past, id, s, Plain(P.Take(id, |body|)));
    var s1 := Apply(c, s, Plain(P.Take(id, |body|)));
    GoesOn(c, limit, past, id, s1, Plain(P.WriteClient(id, |body|)));
    var s2 := Apply(c, s1, Plain(P.WriteClient(id, |body|)));
    GoesOn(c, limit, past, id, s2, Plain(P.Hand(id)));
    s' := Apply(c, s2, Plain(P.Hand(id)));
  }

  /** The handler has handed everything over, whether it is still there or not; its temporary file is `ino`. */
  ghost predicate AllHanded(s: State, id: Id, y: Round, ino: D.Ino) {
    && id in s.workers && s.workers[id].owner in s.disks
    && (|| s.workers[id].stage == Refreshing(y, |y.resp.body|, y.resp.body, y.resp.body, P.Idle, Some(ino))
        || s.workers[id].stage == Abandoned(y, y.resp.body, Some(ino)))
  }

  /** That file is still empty. */
  ghost predicate Uploads(s: State, id: Id, y: Round, ino: D.Ino) {
    AllHanded(s, id, y, ino) &&
    var w := s.workers[id];
    && ino in s.disks[w.owner].uploads
    && s.disks[w.owner].uploads[ino]
       == D.Upload(w.key, D.AsStored(Entry(Metadata(y.resp.etag), y.resp.body)), 0, None)
  }

  lemma Begins(c: P.Config, limit: nat, past: seq<Step>, id: Id, s: State) returns (s': State, ino: D.Ino)
    requires limit < Eviction.TWO_64 && CanGo(c, limit, past, id, s) && id in s.workers && s.workers[id].owner in s.disks
    requires s.workers[id].stage.Refreshing? && P.Reachable(c, s.workers[id].node, s.workers[id].owner)
    requires var y := s.workers[id].stage.y;
             s.workers[id].stage == Refreshing(y, |y.resp.body|, y.resp.body, y.resp.body, P.Idle, None)
    ensures CanGo(c, limit, past, id, s') && AllHanded(s', id, s.workers[id].stage.y, ino)
    ensures s'.workers[id].stage.Refreshing? && s'.workers[id] == s.workers[id].(stage := s'.workers[id].stage)
    ensures Uploads(s', id, s.workers[id].stage.y, ino)
    ensures s'.disks[s.workers[id].owner].limit == s.disks[s.workers[id].owner].limit
  {
    hide CanGo, D.WellFormed, P.Reachable, D.AsStored;
    var d := s.disks[s.workers[id].owner];
    ino := FreshNumber(d.files.Keys + d.uploads.Keys);
    GoesOn(c, limit, past, id, s, BeginPut(id, ino));
    s' := Apply(c, s, BeginPut(id, ino));
  }

  lemma Absorbs(c: P.Config, limit: nat, past: seq<Step>, id: Id, s: State, y: Round, ino: D.Ino) returns (s': State)
    requires limit < Eviction.TWO_64 && CanGo(c, limit, past, id, s) && AllHanded(s, id, y, ino)
    requires var d := s.disks[s.workers[id].owner];
             && ino in d.uploads && d.uploads[ino].size.None? && d.uploads[ino].copied == 0
             && d.uploads[ino].entry.blob == y.resp.body
    ensures CanGo(c, limit, past, id, s') && AllHanded(s', id, y, ino) && s'.workers == s.workers
    ensures var d, d' := s.disks[s.workers[id].owner], s'.disks[s.workers[id].owner];
            d'.limit == d.limit && ino in d'.uploads && d'.uploads[ino] == d.uploads[ino].(copied := |y.resp.body|)
  {
    hide CanGo, D.WellFormed;
    GoesOn(c, limit, past, id, s, Absorb(id, |y.resp.body|));
    s' := Apply(c, s, Absorb(id, |y.resp.body|));
  }

  lemma Seals(c: P.Config, limit: nat, past: seq<Step>, id: Id, s: State, y: Round, ino: D.Ino, size: nat)
    returns (s': State)
    requires limit < Eviction.TWO_64 && CanGo(c, limit, past, id, s) && AllHanded(s, id, y, ino)
    requires var d := s.disks[s.workers[id].owner];
             && ino in d.uploads && d.uploads[ino].size.None? && d.uploads[ino].entry.blob == y.resp.body
             && d.uploads[ino].copied == |y.resp.body| <= size < Eviction.TWO_63
    ensures CanGo(c, limit, past, id, s') && AllHanded(s', id, y, ino) && s'.workers == s.workers
    ensures var d, d' := s.disks[s.workers[id].owner], s'.disks[s.workers[id].owner];
            && d'.limit == d.limit && ino in d'.uploads && d'.uploads[ino] == d.uploads[ino].(size := Some(size))
            && ino in d'.files && d'.files[ino].entry == d.uploads[ino].entry
  {
    hide CanGo, D.WellFormed;
    GoesOn(c, limit, past, id, s, Seal(id, size));
    s' := Apply(c, s, Seal(id, size));
  }

  lemma Accepts(c: P.Config, limit: nat, past: seq<Step>, id: Id, s: State, y: Round, ino: D.Ino, acknowledged: bool)
    returns (s': State)
    requires limit < Eviction.TWO_64 && CanGo(c, limit, past, id, s) && AllHanded(s, id, y, ino)
    requires P.Reachable(c, s.workers[id].node, s.workers[id].owner)
    requires if acknowledged then s.workers[id].stage.Refreshing? else s.workers[id].owner != s.workers[id].node
    requires var d := s.disks[s.workers[id].owner];
             && ino in d.uploads && d.uploads[ino].size.Some? && d.uploads[ino].size.value <= d.limit
             && d.uploads[ino].key == s.workers[id].key
             && ino in d.files && d.files[ino].entry == d.uploads[ino].entry
    ensures CanGo(c, limit, past, id, s') && id in s'.workers && s.workers[id].owner in s'.disks
    ensures s'.workers[id] ==
              s.workers[id].(stage := if acknowledged then Stored(y, y.resp.body) else StoreFailed(y, y.resp.body))
    ensures var w, d, d' := s.workers[id], s.disks[s.workers[id].owner], s'.disks[s.workers[id].owner];
            && D.WellFormed(d') && w.key in d'.names && DiskRuns.Visible(d')[w.key] == d.uploads[ino].entry
  {
    hide CanGo, P.Reachable, D.WellFormed, D.Apply, D.AcceptOutcome, D.ModTimeOrder, DiskRuns.Visible;
    var w, d := s.workers[id], s.disks[s.workers[id].owner];
    DisksAreOk(c, limit, past, id, s, w.owner);
    var order := DiskObject.SomeOrder(d);
    var fault := D.AcceptFault(false, {}, false);
    DiskObject.AcceptsWhatFits(d, ino, order, fault);
    GoesOn(c, limit, past, id, s, Accept(id, order, fault, acknowledged));
    s' := Apply(c, s, Accept(id, order, fault, acknowledged));
    D.ApplyKeepsWellFormed(d, D.Accept(ino, order, fault));
    BoundAtAccept(d, ino, order, fault);
  }

  lemma DisksAreOk(c: P.Config, limit: nat, past: seq<Step>, id: Id, s: State, n: Node)
    requires limit < Eviction.TWO_64 && CanGo(c, limit, past, id, s) && n in s.disks
    ensures DisksOk(s) && D.WellFormed(s.disks[n])
  {
  }

  lemma BoundAtAccept(d: D.State, ino: D.Ino, order: seq<Key>, fault: D.AcceptFault)
    requires D.WellFormed(d) && D.Enabled(d, D.Accept(ino, order, fault)) && D.AcceptOutcome(d, ino, order, fault).ok
    ensures var d' := D.Apply(d, D.Accept(ino, order, fault));
            && D.WellFormed(d') && d.uploads[ino].key in d'.names
            && DiskRuns.Visible(d')[d.uploads[ino].key] == d.uploads[ino].entry
  {
    hide D.WellFormed, D.ModTimeOrder, D.AcceptOutcome;
    D.ApplyKeepsWellFormed(d, D.Accept(ino, order, fault));
    D.UploadIsOk(d, ino);
  }

  /** Progress of a refresh over real disks: whatever the handler found, if the entry's container fits the limit and
      nothing fails, its own steps lead to a state where the client has the whole body and the owner's directory
      names a file that holds it. */
  lemma StorableGetsStored(c: P.Config, limit: nat, past: seq<Step>, id: Id, size: nat) returns (more: seq<Step>)
    requires limit < Eviction.TWO_64 && ValidRun(c, limit, past)
    requires id in Run(c, limit, past).workers && Run(c, limit, past).workers[id].stage.Deciding?
    requires var w := Run(c, limit, past).workers[id];
             && w.stage.y.resp.status == 200 && MayStore(w.req, w.stage.y.resp) && P.Reachable(c, w.node, w.owner)
             && |w.stage.y.resp.body| <= size <= limit && size < Eviction.TWO_63
    ensures Own(more, id) && ValidRun(c, limit, past + more)
    ensures var w, s' := Run(c, limit, past).workers[id], Run(c, limit, past + more);
            var resp := w.stage.y.resp;
            && id in s'.workers && s'.workers[id] == w.(stage := Stored(w.stage.y, resp.body))
            && w.owner in s'.disks && w.key in s'.disks[w.owner].names
            && DiskRuns.Visible(s'.disks[w.owner])[w.key] == P.Kept(resp.etag, resp.body)
  {
    var s' := Refreshes(c, limit, past, id, size, true);
    more := TheWay(c, limit, past, id, s');
  }

  lemma Refreshes(c: P.Config, limit: nat, past: seq<Step>, id: Id, size: nat, acknowledged: bool) returns (s': State)
    requires limit < Eviction.TWO_64 && ValidRun(c, limit, past)
    requires id in Run(c, limit, past).workers && Run(c, limit, past).workers[id].stage.Deciding?
    requires var w := Run(c, limit, past).workers[id];
             && w.stage.y.resp.status == 200 && MayStore(w.req, w.stage.y.resp) && P.Reachable(c, w.node, w.owner)
             && |w.stage.y.resp.body| <= size <= limit && size < Eviction.TWO_63
             && (!acknowledged ==> w.owner != w.node)
    ensures CanGo(c, limit, past, id, s')
    ensures var w := Run(c, limit, past).workers[id];
            var y := w.stage.y;
            && id in s'.workers
            && s'.workers[id] ==
                 w.(stage := if acknowledged then Stored(y, y.resp.body) else StoreFailed(y, y.resp.body))
            && w.owner in s'.disks && w.key in s'.disks[w.owner].names
            && DiskRuns.Visible(s'.disks[w.owner])[w.key] == P.Kept(y.resp.etag, y.resp.body)
  {
    hide CanGo, Run, ValidRun, MayStore, P.Reachable, D.WellFormed, DiskRuns.Visible, Inv, Housed, Abs, Uploads;
    Starts(c, limit, past, id);
    RunSimulates(c, limit, past);
    RunKeepsLimited(c, limit, past);
    var s := Run(c, limit, past);
    OwnerHasDisk(s, id);
    var s1 := DecidesToRefresh(c, limit, past, id, s);
    var s2 := TeesAll(c, limit, past, id, s1);
    var s3, ino := Begins(c, limit, past, id, s2);
    s' := Stores(c, limit, past, id, s3, s.workers[id].stage.y, ino, size, acknowledged);
  }

  /** The owner writes the temporary file, closes it and accepts it. */
  lemma Stores(c: P.Config, limit: nat, past: seq<Step>, id: Id, s: State, y: Round, ino: D.Ino, size: nat,
               acknowledged: bool)
    returns (s': State)
    requires limit < Eviction.TWO_64 && CanGo(c, limit, past, id, s) && Uploads(s, id, y, ino)
    requires var w := s.workers[id];
             && P.Reachable(c, w.node, w.owner) && (if acknowledged then w.stage.Refreshing? else w.owner != w.node)
             && |y.resp.body| <= size <= s.disks[w.owner].limit && size < Eviction.TWO_63
    ensures CanGo(c, limit, past, id, s') && id in s'.workers && s.workers[id].owner in s'.disks
    ensures s'.workers[id] ==
              s.workers[id].(stage := if acknowledged then Stored(y, y.resp.body) else StoreFailed(y, y.resp.body))
    ensures var w, d' := s.workers[id], s'.disks[s.workers[id].owner];
            && D.WellFormed(d') && w.key in d'.names
            && DiskRuns.Visible(d')[w.key] == P.Kept(y.resp.etag, y.resp.body)
  {
    hide CanGo, P.Reachable, D.WellFormed, DiskRuns.Visible;
    var s1 := Absorbs(c, limit, past, id, s, y, ino);
    var s2 := Seals(c, limit, past, id, s1, y, ino, size);
    s' := Accepts(c, limit, past, id, s2, y, ino, acknowledged);
  }

  lemma OwnerHasDisk(s: State, id: Id)
    requires Housed(s) && id in s.workers
    ensures s.workers[id].owner in s.disks
  {
  }

  /** Progress of a hit over real disks: a handler that serves what it found can stream it to the end. */
  lemma ConfirmedGetsServed(c: P.Config, limit: nat, past: seq<Step>, id: Id) returns (more: seq<Step>)
    requires limit < Eviction.TWO_64 && ValidRun(c, limit, past)
    requires id in Run(c, limit, past).workers && Run(c, limit, past).workers[id].stage.Deciding?
    requires var w := Run(c, limit, past).workers[id];
             && w.stage.y.resp.status == 304 && w.stage.y.found.Some?
             && !(c.cluster.Some? && w.req.rule.Some? && w.req.rule.value.directConnect)
    ensures Own(more, id) && ValidRun(c, limit, past + more)
    ensures var s, s' := Run(c, limit, past), Run(c, limit, past + more);
            var w := s.workers[id];
            && w.owner in s.disks && Found(s.disks[w.owner], w.stage.y.found).Some? && id in s'.workers
            && s'.workers[id] ==
                 w.(stage := Hit(w.stage.y, Found(s.disks[w.owner], w.stage.y.found).value.blob, false))
  {
    hide CanGo, Run, ValidRun, Housed, Abs, Inv, StageOk, BlobOf, Found, Apply, Enabled;
    Starts(c, limit, past, id);
    RunSimulates(c, limit, past);
    var s := Run(c, limit, past);
    OwnerHasDisk(s, id);
    FoundIsUnread(s, id);
    var s1 := Decides(c, limit, past, id, s);
    var blob := BlobOf(s.disks[s.workers[id].owner], s.workers[id].stage.y.found.value.reader);
    var s2 := Streams(c, limit, past, id, s1, |blob|);
    assert blob[..|blob|] == blob;
    var s3 := Ends(c, limit, past, id, s2);
    more := TheWay(c, limit, past, id, s3);
  }

  lemma FoundIsUnread(s: State, id: Id)
    requires Inv(s) && Housed(s) && id in s.workers && s.workers[id].stage.Deciding? && s.workers[id].stage.y.found.Some?
    ensures var w := s.workers[id];
            && w.owner in s.disks && Unread(s.disks[w.owner], w)
            && Found(s.disks[w.owner], w.stage.y.found)
               == Some(Entry(w.stage.y.found.value.meta, BlobOf(s.disks[w.owner], w.stage.y.found.value.reader)))
  {
    hide AllApart, DisksOk;
    assert StageOk(s.disks[s.workers[id].owner], s.workers[id]);
  }

  lemma Decides(c: P.Config, limit: nat, past: seq<Step>, id: Id, s: State) returns (s': State)
    requires limit < Eviction.TWO_64 && CanGo(c, limit, past, id, s) && id in s.workers && s.workers[id].stage.Deciding?
    requires var w := s.workers[id];
             && w.stage.y.resp.status == 304 && w.stage.y.found.Some?
             && !(c.cluster.Some? && w.req.rule.Some? && w.req.rule.value.directConnect)
    ensures CanGo(c, limit, past, id, s') && s'.disks == s.disks && id in s'.workers
    ensures s'.workers[id] == s.workers[id].(stage := Serving(s.workers[id].stage.y, []))
  {
    hide CanGo, MayStore;
    GoesOn(c, limit, past, id, s, Plain(P.Decide(id)));
    s' := Apply(c, s, Plain(P.Decide(id)));
  }

  /** A reader that has not been read from. */
  ghost predicate Unread(d: D.State, w: Worker) {
    && HandleIn(w.stage).Some? && HandleIn(w.stage).value.reader in d.readers
    && var r := d.readers[HandleIn(w.stage).value.reader];
       r.open && r.pos == 0 && r.ino in d.files
  }

  lemma Streams(c: P.Config, limit: nat, past: seq<Step>, id: Id, s: State, n: nat) returns (s': State)
    requires limit < Eviction.TWO_64 && CanGo(c, limit, past, id, s) && id in s.workers && s.workers[id].owner in s.disks
    requires s.workers[id].stage.Serving? && s.workers[id].stage.sent == []
    requires Unread(s.disks[s.workers[id].owner], s.workers[id])
    requires n <= |BlobOf(s.disks[s.workers[id].owner], s.workers[id].stage.y.found.value.reader)|
    ensures CanGo(c, limit, past, id, s') && id in s'.workers && s.workers[id].owner in s'.disks
    ensures var w := s.workers[id];
            var d, d', reader := s.disks[w.owner], s'.disks[w.owner], w.stage.y.found.value.reader;
            && s'.workers[id] == w.(stage := Serving(w.stage.y, BlobOf(d, reader)[..n]))
            && reader in d'.readers && d'.readers[reader].open && d'.readers[reader].ino in d'.files
            && d'.readers[reader].pos == n && BlobOf(d', reader) == BlobOf(d, reader)
  {
    hide CanGo, D.WellFormed;
    var w := s.workers[id];
    var blob := BlobOf(s.disks[w.owner], w.stage.y.found.value.reader);
    GoesOn(c, limit, past, id, s, Stream(id, n));
    s' := Apply(c, s, Stream(id, n));
    assert [] + blob[0..n] == blob[..n];
  }

  lemma Ends(c: P.Config, limit: nat, past: seq<Step>, id: Id, s: State) returns (s': State)
    requires limit < Eviction.TWO_64 && CanGo(c, limit, past, id, s) && id in s.workers && s.workers[id].owner in s.disks
    requires var w := s.workers[id];
             && w.stage.Serving? && w.stage.y.found.Some?
             && var d, reader := s.disks[w.owner], w.stage.y.found.value.reader;
                && reader in d.readers && d.readers[reader].open && d.readers[reader].ino in d.files
                && d.readers[reader].pos == |BlobOf(d, reader)|
    ensures CanGo(c, limit, past, id, s') && id in s'.workers
    ensures s'.workers[id] == s.workers[id].(stage := Hit(s.workers[id].stage.y, s.workers[id].stage.sent, false))
  {
    hide CanGo, D.WellFormed;
    GoesOn(c, limit, past, id, s, End(id));
    s' := Apply(c, s, End(id));
  }

  /** The handler has its lock; on its own disk or, by a KV request, on the owner's it finds what that shows. */
  lemma Looks(c: P.Config, limit: nat, past: seq<Step>, id: Id, s: State) returns (s': State)
    requires limit < Eviction.TWO_64 && CanGo(c, limit, past, id, s) && id in s.workers && s.workers[id].owner in s.disks
    requires var w := s.workers[id];
             (w.owner == w.node && w.stage.Locked?) || (w.stage.Calling? && P.Reachable(c, w.node, w.owner))
    ensures CanGo(c, limit, past, id, s') && id in s'.workers && s.workers[id].owner in s'.disks
    ensures s'.origin == s.origin && D.WellFormed(s.disks[s.workers[id].owner])
    ensures var w := s.workers[id];
            && s'.workers[id].stage.Asking? && s'.workers[id] == w.(stage := s'.workers[id].stage)
            && Found(s'.disks[w.owner], s'.workers[id].stage.found)
               == LossyMap.Lookup(DiskRuns.Visible(s.disks[w.owner]), w.key)
  {
    hide CanGo, P.Reachable, D.WellFormed, DiskRuns.Visible, LossyMap.Lookup, D.Apply, Found, StageOk;
    var w := s.workers[id];
    var d := s.disks[w.owner];
    DisksAreOk(c, limit, past, id, s, w.owner);
    var reader := FreshNumber(d.readers.Keys);
    GoesOn(c, limit, past, id, s, Look(id, reader, D.NoFault));
    s' := Apply(c, s, Look(id, reader, D.NoFault));
    LooksOn(d, w, reader, D.NoFault);
    NothingFound(s'.disks[w.owner]);
  }

  lemma NothingFound(d: D.State)
    ensures Found(d, None) == None
  {
  }

  lemma Locks(c: P.Config, limit: nat, past: seq<Step>, id: Id, s: State, owner: Node) returns (s': State)
    requires limit < Eviction.TWO_64 && CanGo(c, limit, past, id, s) && id in s.workers && s.workers[id].stage.Waiting?
    requires var w := s.workers[id];
             && (w.node, w.key) !in s.locks && owner in s.disks && P.Owns(c, w.node, w.key, owner)
             && P.Reachable(c, w.node, owner)
    ensures CanGo(c, limit, past, id, s') && id in s'.workers && s'.disks == s.disks && s'.origin == s.origin
    ensures s'.workers[id] ==
              s.workers[id].(owner := owner, stage := if owner == s.workers[id].node then Locked else Calling)
  {
    hide CanGo, P.Owns, P.Reachable, P.CallsFor;
    GoesOn(c, limit, past, id, s, Plain(P.Lock(id, owner)));
    s' := Apply(c, s, Plain(P.Lock(id, owner)));
    if owner != s.workers[id].node {
      GoesOn(c, limit, past, id, s', Plain(P.SendGet(id)));
      s' := Apply(c, s', Plain(P.SendGet(id)));
    }
  }

  /** Progress up to the origin, over real disks. */
  lemma WaitingGetsToAsk(c: P.Config, limit: nat, past: seq<Step>, id: Id, owner: Node, resp: Response)
    returns (more: seq<Step>)
    requires limit < Eviction.TWO_64 && ValidRun(c, limit, past) && id in Run(c, limit, past).workers
    requires var s := Run(c, limit, past);
             var w := s.workers[id];
             && w.stage.Waiting? && (w.node, w.key) !in s.locks && owner in s.disks
             && P.Owns(c, w.node, w.key, owner) && P.Reachable(c, w.node, owner)
    ensures Own(more, id) && ValidRun(c, limit, past + more)
    ensures var s, s' := Run(c, limit, past), Run(c, limit, past + more);
            && id in s'.workers && owner in s'.disks && D.WellFormed(s.disks[owner])
            && var w, w' := s.workers[id], s'.workers[id];
               var cached := LossyMap.Lookup(DiskRuns.Visible(s.disks[owner]), w.key);
               && w'.stage.Deciding? && w' == w.(owner := owner, stage := w'.stage)
               && ExchangeOf(s'.disks[owner], w'.stage.y)
                  == P.Exchange(cached, P.IfNoneMatch(cached, w.req), resp, P.CurrentAt(s.origin, w.key))
  {
    hide CanGo, Run, ValidRun, P.Owns, P.Reachable, D.WellFormed, DiskRuns.Visible, LossyMap.Lookup, P.CurrentAt;
    Starts(c, limit, past, id);
    var s := Run(c, limit, past);
    var s1 := Locks(c, limit, past, id, s, owner);
    var s2 := Looks(c, limit, past, id, s1);
    GoesOn(c, limit, past, id, s2, Plain(P.Fetch(id, resp)));
    more := TheWay(c, limit, past, id, Apply(c, s2, Plain(P.Fetch(id, resp))));
  }

  /** What can go wrong can go wrong wherever it can: looking, on the server's own disk or on another's. */
  lemma LookingCanFail(c: P.Config, s: State, id: Id, reader: nat, trouble: D.GetFault)
    requires id in s.workers && s.workers[id].owner in s.disks && reader !in s.disks[s.workers[id].owner].readers
    ensures var w := s.workers[id];
            (w.stage.Locked? && w.owner == w.node) || (w.stage.Calling? && P.Reachable(c, w.node, w.owner)) ==>
              Enabled(c, s, Look(id, reader, trouble))
  {
    hide P.Reachable;
  }

  /** Putting. */
  lemma PuttingCanFail(c: P.Config, s: State, id: Id)
    requires id in s.workers && s.workers[id].owner in s.disks && Putting(s.workers[id].stage)
    requires var w := s.workers[id];
             w.stage.upload.Some? ==> w.stage.upload.value in s.disks[w.owner].uploads
    ensures Enabled(c, s, Abort(id))
  {
    hide P.Reachable;
  }

  /** Asking and serving. */
  lemma HandlersCanFail(c: P.Config, s: State, id: Id)
    requires id in s.workers
    ensures var t := s.workers[id].stage;
            && (t.Locked? || t.Calling? || t.Asking? ==> Enabled(c, s, Plain(P.Fail(id))))
            && (t.Serving? ==> Enabled(c, s, Plain(P.CopyFails(id))))
  {
  }

  /** Requests arrive on any server, entries are deleted and the origin changes at any time. */
  lemma AnythingCanHappen(c: P.Config, s: State, id: Id, node: Node, key: Key, req: Request, version: P.Version)
    ensures id !in s.workers && node in s.disks ==> Enabled(c, s, Plain(P.Arrive(id, node, key, req)))
    ensures forall fails :: node in s.disks ==> Enabled(c, s, Delete(node, key, fails))
    ensures Enabled(c, s, Plain(P.OriginChanges(key, version)))
  {
  }
}
