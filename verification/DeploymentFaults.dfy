/** What can go wrong over real disks does, in runs: Puts that outlive their handlers, clients that take part of a body,
    reads that break. */
module DeploymentFaults {
  import opened CacheTypes
  import opened StoragePolicy
  import opened Deployment
  import opened DeploymentRuns
  import opened DeploymentTheorems
  import opened DeploymentProgress
  import P = ProxyModel
  import D = DiskModel
  import DiskRuns
  import Eviction

  lemma Abandons(c: P.Config, limit: nat, past: seq<Step>, id: Id, s: State, y: Round, ino: D.Ino) returns (s': State)
    requires limit < Eviction.TWO_64 && CanGo(c, limit, past, id, s) && AllHanded(s, id, y, ino)
    requires var w := s.workers[id]; w.stage.Refreshing? && w.owner != w.node && P.Reachable(c, w.node, w.owner)
    ensures CanGo(c, limit, past, id, s') && AllHanded(s', id, y, ino) && s'.disks == s.disks
    ensures s'.workers[id] == s.workers[id].(stage := Abandoned(y, y.resp.body, Some(ino)))
    ensures s'.locks == s.locks - {(s.workers[id].node, s.workers[id].key)}
  {
    hide CanGo, P.Reachable;
    GoesOn(c, limit, past, id, s, Plain(P.Abandon(id)));
    s' := Apply(c, s, Plain(P.Abandon(id)));
  }

  /** A client can leave as soon as the Put on another server's disk has the whole request; the key is free again then,
      with nothing of the Put on that disk but its temporary file. */
  lemma PutsCanBeAbandoned(c: P.Config, limit: nat, past: seq<Step>, id: Id) returns (more: seq<Step>, ino: D.Ino)
    requires limit < Eviction.TWO_64 && ValidRun(c, limit, past)
    requires id in Run(c, limit, past).workers && Run(c, limit, past).workers[id].stage.Deciding?
    requires var w := Run(c, limit, past).workers[id];
             && w.stage.y.resp.status == 200 && MayStore(w.req, w.stage.y.resp) && P.Reachable(c, w.node, w.owner)
             && w.owner != w.node
    ensures Own(more, id) && ValidRun(c, limit, past + more)
    ensures var s, s' := Run(c, limit, past), Run(c, limit, past + more);
            var w := s.workers[id];
            && id in s'.workers && s'.workers[id] == w.(stage := Abandoned(w.stage.y, w.stage.y.resp.body, Some(ino)))
            && (w.node, w.key) !in s'.locks && Uploads(s', id, w.stage.y, ino)
  {
    hide CanGo, Run, ValidRun, MayStore, P.Reachable, Inv, Housed, Abs, Uploads;
    Starts(c, limit, past, id);
    RunSimulates(c, limit, past);
    var s := Run(c, limit, past);
    OwnerHasDisk(s, id);
    var s1 := DecidesToRefresh(c, limit, past, id, s);
    var s2 := TeesAll(c, limit, past, id, s1);
    var s3;
    s3, ino := Begins(c, limit, past, id, s2);
    var s4 := Abandons(c, limit, past, id, s3, s.workers[id].stage.y, ino);
    more := TheWay(c, limit, past, id, s4);
    StillUploads(s3, s4, id, s.workers[id].stage.y, ino);
  }

  lemma StillUploads(s: State, s': State, id: Id, y: Round, ino: D.Ino)
    requires Uploads(s, id, y, ino) && AllHanded(s', id, y, ino) && s'.disks == s.disks
    requires s'.workers[id].owner == s.workers[id].owner && s'.workers[id].key == s.workers[id].key
    ensures Uploads(s', id, y, ino)
  {
  }

  /** From then on it stores its entry by itself, if that fits and nothing fails. */
  lemma AbandonedPutsStore(c: P.Config, limit: nat, past: seq<Step>, id: Id, y: Round, ino: D.Ino, size: nat)
    returns (more: seq<Step>)
    requires limit < Eviction.TWO_64 && ValidRun(c, limit, past) && Uploads(Run(c, limit, past), id, y, ino)
    requires var w := Run(c, limit, past).workers[id];
             && w.stage == Abandoned(y, y.resp.body, Some(ino)) && P.Reachable(c, w.node, w.owner) && w.owner != w.node
             && |y.resp.body| <= size <= limit && size < Eviction.TWO_63
    ensures Own(more, id) && ValidRun(c, limit, past + more)
    ensures var w, s' := Run(c, limit, past).workers[id], Run(c, limit, past + more);
            && id in s'.workers && s'.workers[id] == w.(stage := StoreFailed(y, y.resp.body))
            && w.owner in s'.disks && w.key in s'.disks[w.owner].names
            && DiskRuns.Visible(s'.disks[w.owner])[w.key] == P.Kept(y.resp.etag, y.resp.body)
  {
    hide CanGo, Run, ValidRun, P.Reachable, D.WellFormed, DiskRuns.Visible;
    Starts(c, limit, past, id);
    RunKeepsLimited(c, limit, past);
    var s' := Stores(c, limit, past, id, Run(c, limit, past), y, ino, size, false);
    more := TheWay(c, limit, past, id, s');
  }

  /** A Put on another server's disk can store its entry although its handler, still there, never hears of it. */
  lemma UnacknowledgedPutsStore(c: P.Config, limit: nat, past: seq<Step>, id: Id, size: nat) returns (more: seq<Step>)
    requires limit < Eviction.TWO_64 && ValidRun(c, limit, past)
    requires id in Run(c, limit, past).workers && Run(c, limit, past).workers[id].stage.Deciding?
    requires var w := Run(c, limit, past).workers[id];
             && w.stage.y.resp.status == 200 && MayStore(w.req, w.stage.y.resp) && P.Reachable(c, w.node, w.owner)
             && |w.stage.y.resp.body| <= size <= limit && size < Eviction.TWO_63 && w.owner != w.node
    ensures Own(more, id) && ValidRun(c, limit, past + more)
    ensures var w, s' := Run(c, limit, past).workers[id], Run(c, limit, past + more);
            var resp := w.stage.y.resp;
            && id in s'.workers && s'.workers[id] == w.(stage := StoreFailed(w.stage.y, resp.body))
            && w.owner in s'.disks && w.key in s'.disks[w.owner].names
            && DiskRuns.Visible(s'.disks[w.owner])[w.key] == P.Kept(resp.etag, resp.body)
  {
    var s' := Refreshes(c, limit, past, id, size, false);
    more := TheWay(c, limit, past, id, s');
  }

  /** A refresh can break off anywhere: the client takes only part of a chunk, and the Put fails. */
  lemma RefreshCanBreakOff(c: P.Config, limit: nat, past: seq<Step>, id: Id, n: nat) returns (more: seq<Step>)
    requires limit < Eviction.TWO_64 && ValidRun(c, limit, past)
    requires id in Run(c, limit, past).workers && Run(c, limit, past).workers[id].stage.Deciding?
    requires var w := Run(c, limit, past).workers[id];
             w.stage.y.resp.status == 200 && MayStore(w.req, w.stage.y.resp) && n < |w.stage.y.resp.body|
    ensures Own(more, id) && ValidRun(c, limit, past + more)
    ensures var s, s' := Run(c, limit, past), Run(c, limit, past + more);
            var w := s.workers[id];
            && id in s'.workers && s'.workers[id] == w.(stage := StoreFailed(w.stage.y, w.stage.y.resp.body[..n]))
            && s'.disks == s.disks
  {
    hide CanGo, Run, ValidRun, MayStore, Inv, Housed, Abs;
    Starts(c, limit, past, id);
    RunSimulates(c, limit, past);
    var s := Run(c, limit, past);
    OwnerHasDisk(s, id);
    var s1 := DecidesToRefresh(c, limit, past, id, s);
    var s2 := TakesPart(c, limit, past, id, s1, n);
    GoesOn(c, limit, past, id, s2, Abort(id));
    more := TheWay(c, limit, past, id, Apply(c, s2, Abort(id)));
  }

  lemma TakesPart(c: P.Config, limit: nat, past: seq<Step>, id: Id, s: State, n: nat) returns (s': State)
    requires limit < Eviction.TWO_64 && CanGo(c, limit, past, id, s) && id in s.workers && s.workers[id].stage.Refreshing?
    requires s.workers[id].stage == Refreshing(s.workers[id].stage.y, 0, [], [], P.Idle, None)
    requires n < |s.workers[id].stage.y.resp.body|
    ensures CanGo(c, limit, past, id, s') && s'.disks == s.disks && id in s'.workers
    ensures var y := s.workers[id].stage.y;
            var part := y.resp.body[..n];
            s'.workers[id] == s.workers[id].(stage := Refreshing(y, |y.resp.body|, part, part, P.Broken, None))
  {
    hide CanGo;
    var body := s.workers[id].stage.y.resp.body;
    assert body[0..|body|] == body && [] + body[..n] == body[..n];
    GoesOn(c, limit, past, id, s, Plain(P.Take(id, |body|)));
    var s1 := Apply(c, s, Plain(P.Take(id, |body|)));
    GoesOn(c, limit, past, id, s1, Plain(P.WriteClient(id, n)));
    var s2 := Apply(c, s1, Plain(P.WriteClient(id, n)));
    GoesOn(c, limit, past, id, s2, Plain(P.Hand(id)));
    s' := Apply(c, s2, Plain(P.Hand(id)));
  }

  /** Serving can stop after any part of the entry: with an error, or, if the entry is on another server's disk and the
      part is neither empty nor all, as a hit. */
  lemma ServingCanStop(c: P.Config, limit: nat, past: seq<Step>, id: Id, n: nat, missed: bool) returns (more: seq<Step>)
    requires limit < Eviction.TWO_64 && ValidRun(c, limit, past)
    requires id in Run(c, limit, past).workers && Run(c, limit, past).workers[id].stage.Deciding?
    requires var s := Run(c, limit, past);
             var w := s.workers[id];
             && w.stage.y.resp.status == 304 && w.stage.y.found.Some? && w.owner in s.disks
             && !(c.cluster.Some? && w.req.rule.Some? && w.req.rule.value.directConnect)
             && var blob := Found(s.disks[w.owner], w.stage.y.found).value.blob;
                n <= |blob| && (missed ==> w.owner != w.node && 0 < n < |blob|)
    ensures Own(more, id) && ValidRun(c, limit, past + more)
    ensures var s, s' := Run(c, limit, past), Run(c, limit, past + more);
            var w := s.workers[id];
            var part := Found(s.disks[w.owner], w.stage.y.found).value.blob[..n];
            && id in s'.workers
            && s'.workers[id] == w.(stage := if missed then Hit(w.stage.y, part, true) else CutOff(w.stage.y, part))
  {
    hide CanGo, Run, ValidRun, Housed, Abs, Inv, StageOk, BlobOf, Found, Apply, Enabled;
    Starts(c, limit, past, id);
    RunSimulates(c, limit, past);
    var s := Run(c, limit, past);
    FoundIsUnread(s, id);
    var s1 := Decides(c, limit, past, id, s);
    var s2 := Streams(c, limit, past, id, s1, n);
    var s3 := Stops(c, limit, past, id, s2, missed);
    more := TheWay(c, limit, past, id, s3);
  }

  lemma Stops(c: P.Config, limit: nat, past: seq<Step>, id: Id, s: State, missed: bool) returns (s': State)
    requires limit < Eviction.TWO_64 && CanGo(c, limit, past, id, s) && id in s.workers && s.workers[id].owner in s.disks
    requires var w := s.workers[id];
             && w.stage.Serving? && w.stage.y.found.Some?
             && var d, reader := s.disks[w.owner], w.stage.y.found.value.reader;
                && reader in d.readers && d.readers[reader].ino in d.files
                && (missed ==> w.owner != w.node && w.stage.sent != [] && d.readers[reader].pos < |BlobOf(d, reader)|)
    ensures CanGo(c, limit, past, id, s') && id in s'.workers
    ensures var w := s.workers[id];
            s'.workers[id] ==
              w.(stage := if missed then Hit(w.stage.y, w.stage.sent, true) else CutOff(w.stage.y, w.stage.sent))
  {
    hide CanGo, D.WellFormed;
    var step := if missed then Break(id) else Plain(P.CopyFails(id));
    GoesOn(c, limit, past, id, s, step);
    s' := Apply(c, s, step);
  }
}
