/** A deployment in full: the handlers of `ProxyModel`, but over disks that are `DiskModel` step systems. A handler
    does not hold an entry, it holds an open reader on the owner's disk; a Put is a temporary file there, which
    takes bytes as they are handed over, is sealed and accepted; all disks, uploads and readers interleave. */
module Deployment {
  import opened CacheTypes
  import opened StoragePolicy
  import opened Rendezvous
  import P = ProxyModel
  import D = DiskModel
  import Eviction

  type Id = P.Id

  /** What `Get` returned: a reader on the owner's disk, and the metadata. */
  datatype Handle = Handle(reader: nat, meta: Metadata)

  /** `ProxyModel.Exchange` with a reader in place of the entry. */
  datatype Round = Round(found: Option<Handle>, ifNoneMatch: Option<Text>, resp: Response, current: P.Version)

  /** `ProxyModel.Phase` with rounds; `upload` is the temporary file on the owner's disk. */
  datatype Stage =
    | Waiting
    | Locked
    | Calling
    | Asking(found: Option<Handle>)
    | Deciding(y: Round)
    | Refreshing(y: Round, at: nat, sent: Blob, read: Blob, tee: P.Tee, upload: Option<D.Ino>)
    | Serving(y: Round, sent: Blob)
    | Failed
    | Abandoned(y: Round, sent: Blob, upload: Option<D.Ino>)
    | Stored(y: Round, sent: Blob)
    | StoreFailed(y: Round, sent: Blob)
    | Hit(y: Round, sent: Blob, broken: bool)
    | CutOff(y: Round, sent: Blob)
    | Redirected(y: Round)
    | PassedThrough(y: Round)

  datatype Worker = Worker(node: Node, key: Key, req: Request, owner: Node, stage: Stage)

  datatype State = State(
    disks: map<Node, D.State>,
    workers: map<Id, Worker>,
    locks: map<(Node, Key), Id>,
    origin: map<Key, P.Version>,
    puts: seq<P.PutRecord>,
    calls: seq<P.Call>)

  datatype Step =
    | Plain(step: P.Step)
    | Look(id: Id, reader: nat, trouble: D.GetFault)
    | BeginPut(id: Id, ino: D.Ino)
    | Absorb(id: Id, n: nat)
    | Seal(id: Id, size: nat)
    | Accept(id: Id, order: seq<Key>, fault: D.AcceptFault, acknowledged: bool)
    | Abort(id: Id)
    | Stream(id: Id, n: nat)
    | End(id: Id)
    | Break(id: Id)
    | Delete(node: Node, key: Key, fails: bool)

  ghost function Init(c: P.Config, limit: nat): State
    requires limit < Eviction.TWO_64
  {
    State(map n | n in c.servers :: D.Empty(limit), map[], map[], map[], [], [])
  }

  ghost predicate DisksOk(s: State) {
    forall n :: n in s.disks ==> D.WellFormed(s.disks[n])
  }

  /** The steps of `ProxyModel` that touch no disk. */
  predicate IsPlain(step: P.Step) {
    || step.Arrive? || step.Lock? || step.SendGet? || step.Fail? || step.Fetch? || step.Decide?
    || step.Take? || step.WriteClient? || step.Hand? || step.Abandon? || step.CopyFails? || step.OriginChanges?
  }

  function MetaOf(found: Option<Handle>): Option<Metadata> {
    if found.Some? then Some(found.value.meta) else None
  }

  predicate Active(t: Stage) {
    t.Locked? || t.Calling? || t.Asking? || t.Deciding? || t.Refreshing? || t.Serving?
  }

  /** A Put is under way, with its handler or without. */
  predicate Putting(t: Stage) {
    t.Refreshing? || t.Abandoned?
  }

  /** The Put has been handed the whole body and sees its end. */
  predicate AtEnd(t: Stage) {
    t.Refreshing? && t.tee.Idle? && t.at == |t.y.resp.body|
  }

  /** What the Put has been given. */
  function Given(t: Stage): Blob
    requires Putting(t)
  {
    if t.Refreshing? then t.read else t.sent
  }

  ghost function Decision(c: P.Config, w: Worker, y: Round): Stage {
    if y.resp.status == 200 && MayStore(w.req, y.resp) then Refreshing(y, 0, [], [], P.Idle, None)
    else if y.resp.status == 304 && y.found.Some? then
      if c.cluster.Some? && w.req.rule.Some? && w.req.rule.value.directConnect then Redirected(y)
      else Serving(y, [])
    else PassedThrough(y)
  }

  ghost predicate PlainEnabled(c: P.Config, s: State, step: P.Step) {
    match step
    case Arrive(id, node, key, req) => id !in s.workers && node in s.disks
    case Lock(id, owner) =>
      && id in s.workers && s.workers[id].stage.Waiting?
      && (s.workers[id].node, s.workers[id].key) !in s.locks
      && P.Owns(c, s.workers[id].node, s.workers[id].key, owner) && owner in s.disks
    case SendGet(id) => id in s.workers && s.workers[id].stage.Locked? && s.workers[id].owner != s.workers[id].node
    case Fail(id) =>
      && id in s.workers
      && (s.workers[id].stage.Locked? || s.workers[id].stage.Calling? || s.workers[id].stage.Asking?)
    case Fetch(id, _) => id in s.workers && s.workers[id].stage.Asking?
    case Decide(id) => id in s.workers && s.workers[id].stage.Deciding?
    case Take(id, n) =>
      && id in s.workers && s.workers[id].stage.Refreshing? && s.workers[id].stage.tee.Idle?
      && s.workers[id].stage.at + n <= |s.workers[id].stage.y.resp.body|
    case WriteClient(id, n) =>
      && id in s.workers && s.workers[id].stage.Refreshing? && s.workers[id].stage.tee.Pending?
      && n <= |s.workers[id].stage.tee.chunk|
    case Hand(id) =>
      && id in s.workers && s.workers[id].stage.Refreshing? && s.workers[id].stage.tee.Written?
      && s.workers[id].stage.tee.n <= |s.workers[id].stage.tee.chunk|
    case Abandon(id) =>
      && id in s.workers && AtEnd(s.workers[id].stage)
      && s.workers[id].owner != s.workers[id].node && P.Reachable(c, s.workers[id].node, s.workers[id].owner)
    case CopyFails(id) => id in s.workers && s.workers[id].stage.Serving?
    case OriginChanges(_, _) => true
    case _ => false
  }

  /** What a step does to a disk: where, and which step of the disk it is. */
  ghost function OnDisk(s: State, step: Step): Option<(Node, D.Step)>
    requires !step.Plain? && !step.Delete? ==> step.id in s.workers
  {
    match step
    case Plain(_) => None
    case Look(id, reader, trouble) => Some((s.workers[id].owner, D.Step.Get(s.workers[id].key, reader, trouble)))
    case BeginPut(id, ino) =>
      var w := s.workers[id];
      if Putting(w.stage) then
        Some((w.owner, D.Begin(ino, w.key, D.AsStored(Entry(Metadata(w.stage.y.resp.etag), w.stage.y.resp.body)))))
      else None
    case Absorb(id, n) =>
      var w := s.workers[id];
      if Putting(w.stage) && w.stage.upload.Some? then Some((w.owner, D.Copy(w.stage.upload.value, n))) else None
    case Seal(id, size) =>
      var w := s.workers[id];
      if Putting(w.stage) && w.stage.upload.Some? then Some((w.owner, D.Seal(w.stage.upload.value, size))) else None
    case Accept(id, order, fault, _) =>
      var w := s.workers[id];
      if Putting(w.stage) && w.stage.upload.Some? then Some((w.owner, D.Accept(w.stage.upload.value, order, fault)))
      else None
    case Abort(id) =>
      var w := s.workers[id];
      if Putting(w.stage) && w.stage.upload.Some? then Some((w.owner, D.Abort(w.stage.upload.value))) else None
    case Stream(id, n) =>
      var w := s.workers[id];
      if w.stage.Serving? && w.stage.y.found.Some? then Some((w.owner, D.Step.Read(w.stage.y.found.value.reader, n)))
      else None
    case End(id) =>
      var w := s.workers[id];
      if w.stage.Serving? && w.stage.y.found.Some? then Some((w.owner, D.Step.Close(w.stage.y.found.value.reader)))
      else None
    case Break(_) => None
    case Delete(node, key, fails) => Some((node, D.Step.Delete(key, fails)))
  }

  ghost predicate DiskEnabled(s: State, step: Step)
    requires !step.Plain? && !step.Delete? ==> step.id in s.workers
  {
    OnDisk(s, step).Some? ==>
      var (n, dstep) := OnDisk(s, step).value;
      n in s.disks && D.Enabled(s.disks[n], dstep)
  }

  /** Whether the handler is where it takes the step. */
  ghost predicate WorkerEnabled(c: P.Config, s: State, step: Step)
    requires !step.Plain? && !step.Delete?
  {
    step.id in s.workers &&
    var w := s.workers[step.id];
    match step
    case Look(_, _, _) =>
      (w.stage.Locked? && w.owner == w.node) || (w.stage.Calling? && P.Reachable(c, w.node, w.owner))
    case BeginPut(_, _) => Putting(w.stage) && w.stage.upload.None? && P.Reachable(c, w.node, w.owner)
    case Absorb(_, n) =>
      && Putting(w.stage) && w.stage.upload.Some? && w.owner in s.disks
      && w.stage.upload.value in s.disks[w.owner].uploads
      && s.disks[w.owner].uploads[w.stage.upload.value].copied + n <= |Given(w.stage)|
    case Seal(_, _) => (AtEnd(w.stage) || w.stage.Abandoned?) && w.stage.upload.Some?
    case Accept(_, _, _, acknowledged) =>
      && (AtEnd(w.stage) || (w.stage.Abandoned? && !acknowledged)) && w.stage.upload.Some?
      && P.Reachable(c, w.node, w.owner) && (!acknowledged ==> w.owner != w.node)
    case Abort(_) => Putting(w.stage) && w.owner in s.disks
    case Stream(_, n) => w.stage.Serving? && w.stage.y.found.Some?
    case End(_) =>
      && w.stage.Serving? && w.stage.y.found.Some? && w.owner in s.disks
      && w.stage.y.found.value.reader in s.disks[w.owner].readers
      && var r := s.disks[w.owner].readers[w.stage.y.found.value.reader];
         r.ino in s.disks[w.owner].files && r.pos == |s.disks[w.owner].files[r.ino].entry.blob|
    case Break(_) =>
      && w.stage.Serving? && w.stage.y.found.Some? && w.owner in s.disks && w.owner != w.node && w.stage.sent != []
      && w.stage.y.found.value.reader in s.disks[w.owner].readers
      && var r := s.disks[w.owner].readers[w.stage.y.found.value.reader];
         r.ino in s.disks[w.owner].files && r.pos < |s.disks[w.owner].files[r.ino].entry.blob|
  }

  ghost predicate Enabled(c: P.Config, s: State, step: Step) {
    match step
    case Plain(p) => IsPlain(p) && PlainEnabled(c, s, p)
    case Delete(node, key, fails) => node in s.disks
    case _ => WorkerEnabled(c, s, step) && DiskEnabled(s, step)
  }

  function Proceed(s: State, id: Id, t: Stage): State
    requires id in s.workers
  {
    s.(workers := s.workers[id := s.workers[id].(stage := t)])
  }

  function Finish(s: State, id: Id, t: Stage): State
    requires id in s.workers
  {
    Proceed(s, id, t).(locks := s.locks - {(s.workers[id].node, s.workers[id].key)})
  }

  function EndPut(s: State, id: Id, t: Stage): State
    requires id in s.workers
  {
    if Active(s.workers[id].stage) then Finish(s, id, t) else Proceed(s, id, t)
  }

  ghost function ApplyPlain(c: P.Config, s: State, step: P.Step): State
    requires PlainEnabled(c, s, step)
  {
    match step
    case Arrive(id, node, key, req) => s.(workers := s.workers[id := Worker(node, key, req, node, Waiting)])
    case Lock(id, owner) =>
      var w := s.workers[id];
      s.(workers := s.workers[id := w.(owner := owner, stage := Locked)], locks := s.locks[(w.node, w.key) := id])
    case SendGet(id) =>
      var w := s.workers[id];
      Proceed(s, id, Calling).(calls := s.calls + P.CallsFor(id, P.GetOp, w.node, w.owner, w.key))
    case Fail(id) => Finish(s, id, Failed)
    case Fetch(id, resp) =>
      var w := s.workers[id];
      Proceed(s, id, Deciding(Round(w.stage.found, P.Validator(MetaOf(w.stage.found), w.req), resp,
                                   P.CurrentAt(s.origin, w.key))))
    case Decide(id) =>
      var w := s.workers[id];
      var next := Decision(c, w, w.stage.y);
      if next.Refreshing? then Proceed(s, id, next).(calls := s.calls + P.CallsFor(id, P.PutOp, w.node, w.owner, w.key))
      else if Active(next) then Proceed(s, id, next)
      else Finish(s, id, next)
    case Take(id, n) =>
      var t := s.workers[id].stage;
      Proceed(s, id, t.(at := t.at + n, tee := P.Pending(t.y.resp.body[t.at..t.at + n])))
    case WriteClient(id, n) =>
      var t := s.workers[id].stage;
      Proceed(s, id, t.(sent := t.sent + t.tee.chunk[..n], tee := P.Written(t.tee.chunk, n)))
    case Hand(id) =>
      var t := s.workers[id].stage;
      Proceed(s, id, t.(read := t.read + t.tee.chunk[..t.tee.n],
                        tee := if t.tee.n == |t.tee.chunk| then P.Idle else P.Broken))
    case Abandon(id) =>
      var t := s.workers[id].stage;
      Finish(s, id, Abandoned(t.y, t.sent, t.upload))
    case CopyFails(id) => Finish(s, id, CutOff(s.workers[id].stage.y, s.workers[id].stage.sent))
    case OriginChanges(key, version) => s.(origin := s.origin[key := version])
  }

  /** The disks after the step of one of them. */
  ghost function DisksAfter(s: State, step: Step): map<Node, D.State>
    requires DisksOk(s) && (!step.Plain? && !step.Delete? ==> step.id in s.workers) && DiskEnabled(s, step)
  {
    if OnDisk(s, step).None? then s.disks
    else
      var (n, dstep) := OnDisk(s, step).value;
      s.disks[n := D.Apply(s.disks[n], dstep)]
  }

  /** What becomes of the handler, with the disks as they were before. */
  ghost function ApplyWorker(c: P.Config, s: State, step: Step): State
    requires DisksOk(s) && !step.Plain? && !step.Delete? && WorkerEnabled(c, s, step) && DiskEnabled(s, step)
  {
    var id := step.id;
    var w := s.workers[id];
    match step
    case Look(_, reader, trouble) =>
      var d := s.disks[w.owner];
      if w.key !in d.names then Proceed(s, id, Asking(None))
      else if !trouble.NoFault? then Finish(s, id, Failed)
      else
        assert D.NameOk(d, w.key);
        Proceed(s, id, Asking(Some(Handle(reader, d.files[d.names[w.key]].entry.meta))))
    case BeginPut(_, ino) => Proceed(s, id, w.stage.(upload := Some(ino)))
    case Absorb(_, _) => s
    case Seal(_, _) => s
    case Accept(_, order, fault, acknowledged) =>
      var r := D.AcceptOutcome(s.disks[w.owner], w.stage.upload.value, order, fault);
      if !r.ok then EndPut(s, id, StoreFailed(w.stage.y, w.stage.sent))
      else
        EndPut(s, id, if acknowledged then Stored(w.stage.y, w.stage.sent) else StoreFailed(w.stage.y, w.stage.sent))
          .(puts := s.puts + [P.PutRecord(w.owner, w.key, s.disks[w.owner].uploads[w.stage.upload.value].entry,
                                          w.req, w.stage.y.resp)])
    case Abort(_) => EndPut(s, id, StoreFailed(w.stage.y, w.stage.sent))
    case Stream(_, n) =>
      var d := s.disks[w.owner];
      var r := d.readers[w.stage.y.found.value.reader];
      Proceed(s, id, Serving(w.stage.y, w.stage.sent + d.files[r.ino].entry.blob[r.pos..r.pos + n]))
    case End(_) => Finish(s, id, Hit(w.stage.y, w.stage.sent, false))
    case Break(_) => Finish(s, id, Hit(w.stage.y, w.stage.sent, true))
  }

  ghost function Apply(c: P.Config, s: State, step: Step): State
    requires DisksOk(s) && Enabled(c, s, step)
  {
    match step
    case Plain(p) => ApplyPlain(c, s, p)
    case Delete(_, _, _) => s.(disks := DisksAfter(s, step))
    case _ => ApplyWorker(c, s, step).(disks := DisksAfter(s, step))
  }
}
