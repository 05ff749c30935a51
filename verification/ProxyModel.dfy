/** `handleProxyDefault` on every server of a deployment as one step system. A request is a handler that takes
    its key's lock, reads the cache that the key belongs to (its own disk or, by a KV request, another
    server's), asks the origin and then refreshes the entry, serves it, redirects or passes through. Handlers
    of all servers, the KV requests between them, evictions and the changing origin interleave freely. Disks
    are lossy maps, which is what `DiskRuns` proves of them. */
module ProxyModel {
  import opened CacheTypes
  import opened StoragePolicy
  import opened Rendezvous
  import LossyMap
  import MetadataJson

  type Id = nat

  datatype ClusterConfig = ClusterConfig(nodes: set<Node>, score: Score, secret: Text)

  /** All servers share one configuration. */
  datatype Config = Config(servers: set<Node>, cluster: Option<ClusterConfig>)

  ghost predicate ValidConfig(c: Config) {
    c.cluster.Some? ==> c.cluster.value.nodes != {} && c.cluster.value.nodes <= c.servers
  }

  /** What the origin currently has for a key. */
  datatype Version = Version(etag: Text, body: Blob)

  /** What a handler knows once the origin has answered. `current` is the origin's version at that moment,
      which the handler itself cannot see. */
  datatype Exchange = Exchange(cached: Option<Entry>, ifNoneMatch: Option<Text>, resp: Response, current: Version)

  /** Where `io.TeeReader` is: it takes a chunk from the upstream, writes it to the client and hands what was
      written to its reader, with an error if that is not all of it. */
  datatype Tee = Idle | Pending(chunk: Blob) | Written(chunk: Blob, n: nat) | Broken

  /** `at` is how much of the upstream's body was taken, `sent` what the client got and `read` what the Put got. A
      handler that is `Abandoned` has returned, but its Put on another server has the whole body and goes on. One
      that is `CutOff` has answered 200 and then failed to send the rest of the entry. */
  datatype Phase =
    | Waiting
    | Locked
    | Calling
    | Asking(cached: Option<Entry>)
    | Deciding(x: Exchange)
    | Refreshing(x: Exchange, at: nat, sent: Blob, read: Blob, tee: Tee)
    | Serving(x: Exchange, sent: Blob)
    | Failed
    | Abandoned(x: Exchange, sent: Blob)
    | Stored(x: Exchange, sent: Blob)
    | StoreFailed(x: Exchange, sent: Blob)
    | Hit(x: Exchange, sent: Blob, broken: bool)
    | CutOff(x: Exchange, sent: Blob)
    | Redirected(x: Exchange)
    | PassedThrough(x: Exchange)

  datatype Handler = Handler(node: Node, key: Key, req: Request, owner: Node, phase: Phase)

  /** One accepted Put, for the record. */
  datatype PutRecord = PutRecord(owner: Node, key: Key, entry: Entry, req: Request, resp: Response)

  datatype Operation = GetOp | PutOp

  /** One KV request, for the record. */
  datatype Call = Call(id: Id, op: Operation, from: Node, to: Node, key: Key)

  datatype State = State(
    disks: map<Node, LossyMap.Contents>,
    handlers: map<Id, Handler>,
    locks: map<(Node, Key), Id>,
    origin: map<Key, Version>,
    puts: seq<PutRecord>,
    calls: seq<Call>)

  ghost function Init(c: Config): State {
    State(map n | n in c.servers :: map[], map[], map[], map[], [], [])
  }

  datatype Step =
    | Arrive(id: Id, node: Node, key: Key, req: Request)
    | Lock(id: Id, owner: Node)
    | CacheGet(id: Id)
    | SendGet(id: Id)
    | ServeGet(id: Id)
    | Fail(id: Id)
    | Fetch(id: Id, resp: Response)
    | Decide(id: Id)
    | Take(id: Id, n: nat)
    | WriteClient(id: Id, n: nat)
    | Hand(id: Id)
    | Abandon(id: Id)
    | PutFails(id: Id, lost: set<Key>)
    | PutAccepted(id: Id, lost: set<Key>, acknowledged: bool)
    | Copy(id: Id, n: nat)
    | CopyEnds(id: Id)
    | CopyBreaks(id: Id)
    | CopyFails(id: Id)
    | Evict(node: Node, lost: set<Key>)
    | OriginChanges(key: Key, version: Version)

  predicate Active(p: Phase) {
    p.Locked? || p.Calling? || p.Asking? || p.Deciding? || p.Refreshing? || p.Serving?
  }

  /** `server.cache`: the disk that a server uses for a key. Under ties any node that ranks first may be picked. */
  ghost predicate Owns(c: Config, node: Node, key: Key, owner: Node) {
    match c.cluster
    case None => owner == node
    case Some(cluster) => RanksFirst(cluster.score, cluster.nodes, key, owner)
  }

  /** A remote disk answers only if there is a secret to present. */
  predicate Reachable(c: Config, node: Node, owner: Node) {
    owner == node || (c.cluster.Some? && c.cluster.value.secret != [])
  }

  /** The precondition that goes upstream: the cached ETag, unless the client brought its own. */
  function Validator(meta: Option<Metadata>, req: Request): Option<Text> {
    if req.ifNoneMatch.Some? then req.ifNoneMatch
    else if meta.Some? && meta.value.etag != [] then Some(meta.value.etag)
    else None
  }

  function IfNoneMatch(cached: Option<Entry>, req: Request): Option<Text> {
    Validator(if cached.Some? then Some(cached.value.meta) else None, req)
  }

  function CurrentAt(origin: map<Key, Version>, key: Key): Version {
    if key in origin then origin[key] else Version([], [])
  }

  function Current(s: State, key: Key): Version {
    CurrentAt(s.origin, key)
  }

  /** The entry that a Put leaves, on a disk of this server or of another: its ETag went through JSON. */
  function Kept(etag: Text, blob: Blob): Entry {
    Entry(MetadataJson.Coerced(Metadata(etag)), blob)
  }

  /** The Put has been handed the whole body and sees its end. */
  predicate AtEnd(p: Phase) {
    p.Refreshing? && p.tee.Idle? && p.at == |p.x.resp.body|
  }

  ghost predicate Enabled(c: Config, s: State, step: Step) {
    match step
    case Arrive(id, node, key, req) => id !in s.handlers && node in s.disks
    case Lock(id, owner) =>
      && id in s.handlers && s.handlers[id].phase.Waiting?
      && (s.handlers[id].node, s.handlers[id].key) !in s.locks
      && Owns(c, s.handlers[id].node, s.handlers[id].key, owner) && owner in s.disks
    case CacheGet(id) =>
      && id in s.handlers && s.handlers[id].phase.Locked?
      && s.handlers[id].owner == s.handlers[id].node && s.handlers[id].owner in s.disks
    case SendGet(id) =>
      && id in s.handlers && s.handlers[id].phase.Locked? && s.handlers[id].owner != s.handlers[id].node
    case ServeGet(id) =>  // on the owner
      && id in s.handlers && s.handlers[id].phase.Calling?
      && Reachable(c, s.handlers[id].node, s.handlers[id].owner) && s.handlers[id].owner in s.disks
    case Fail(id) =>
      && id in s.handlers
      && (s.handlers[id].phase.Locked? || s.handlers[id].phase.Calling? || s.handlers[id].phase.Asking?)
    case Fetch(id, _) => id in s.handlers && s.handlers[id].phase.Asking?
    case Decide(id) => id in s.handlers && s.handlers[id].phase.Deciding?
    case Take(id, n) =>
      && id in s.handlers && s.handlers[id].phase.Refreshing? && s.handlers[id].phase.tee.Idle?
      && s.handlers[id].phase.at + n <= |s.handlers[id].phase.x.resp.body|
    case WriteClient(id, n) =>
      && id in s.handlers && s.handlers[id].phase.Refreshing? && s.handlers[id].phase.tee.Pending?
      && n <= |s.handlers[id].phase.tee.chunk|
    case Hand(id) =>
      && id in s.handlers && s.handlers[id].phase.Refreshing? && s.handlers[id].phase.tee.Written?
      && s.handlers[id].phase.tee.n <= |s.handlers[id].phase.tee.chunk|
    case Abandon(id) =>  // the client is gone; the owner has the whole request
      && id in s.handlers && AtEnd(s.handlers[id].phase)
      && s.handlers[id].owner != s.handlers[id].node && Reachable(c, s.handlers[id].node, s.handlers[id].owner)
    case PutFails(id, _) =>
      && id in s.handlers && (s.handlers[id].phase.Refreshing? || s.handlers[id].phase.Abandoned?)
      && s.handlers[id].owner in s.disks
    case PutAccepted(id, _, acknowledged) =>  // the target has seen EOF; only a remote one can fail to say so
      && id in s.handlers && (AtEnd(s.handlers[id].phase) || (s.handlers[id].phase.Abandoned? && !acknowledged))
      && s.handlers[id].owner in s.disks && Reachable(c, s.handlers[id].node, s.handlers[id].owner)
      && (!acknowledged ==> s.handlers[id].owner != s.handlers[id].node)
    case Copy(id, n) =>
      && id in s.handlers && s.handlers[id].phase.Serving? && s.handlers[id].phase.x.cached.Some?
      && |s.handlers[id].phase.sent| + n <= |s.handlers[id].phase.x.cached.value.blob|
    case CopyEnds(id) =>
      && id in s.handlers && s.handlers[id].phase.Serving? && s.handlers[id].phase.x.cached.Some?
      && |s.handlers[id].phase.sent| == |s.handlers[id].phase.x.cached.value.blob|
    case CopyBreaks(id) =>  // a break in the first buffer would have been an error instead of a response
      && id in s.handlers && s.handlers[id].phase.Serving? && s.handlers[id].phase.x.cached.Some?
      && s.handlers[id].owner != s.handlers[id].node
      && 0 < |s.handlers[id].phase.sent| < |s.handlers[id].phase.x.cached.value.blob|
    case CopyFails(id) => id in s.handlers && s.handlers[id].phase.Serving?
    case Evict(node, _) => node in s.disks
    case OriginChanges(_, _) => true
  }

  /** Moves a handler to a phase in which it still holds its lock. */
  function Proceed(s: State, id: Id, phase: Phase): State
    requires id in s.handlers
  {
    s.(handlers := s.handlers[id := s.handlers[id].(phase := phase)])
  }

  /** Ends a handler, which releases its lock. */
  function Finish(s: State, id: Id, phase: Phase): State
    requires id in s.handlers
  {
    Proceed(s, id, phase).(locks := s.locks - {(s.handlers[id].node, s.handlers[id].key)})
  }

  /** Ends a Put: its handler with it, unless that has returned before. */
  function EndPut(s: State, id: Id, phase: Phase): State
    requires id in s.handlers
  {
    if Active(s.handlers[id].phase) then Finish(s, id, phase) else Proceed(s, id, phase)
  }

  /** What a Put was given in the end. */
  function Given(p: Phase): Blob
    requires p.Refreshing? || p.Abandoned?
  {
    if p.Refreshing? then p.read else p.sent
  }

  /** The KV request that an operation makes, if the key belongs to another server. */
  function CallsFor(id: Id, op: Operation, node: Node, owner: Node, key: Key): seq<Call> {
    if owner == node then [] else [Call(id, op, node, owner, key)]
  }

  /** The switch on the upstream's answer. */
  ghost function Decision(c: Config, h: Handler, x: Exchange): Phase {
    if x.resp.status == 200 && MayStore(h.req, x.resp) then Refreshing(x, 0, [], [], Idle)
    else if x.resp.status == 304 && x.cached.Some? then
      if c.cluster.Some? && h.req.rule.Some? && h.req.rule.value.directConnect then Redirected(x)
      else Serving(x, [])
    else PassedThrough(x)
  }

  ghost function Apply(c: Config, s: State, step: Step): State
    requires Enabled(c, s, step)
  {
    match step
    case Arrive(id, node, key, req) => s.(handlers := s.handlers[id := Handler(node, key, req, node, Waiting)])
    case Lock(id, owner) =>
      var h := s.handlers[id];
      s.(handlers := s.handlers[id := h.(owner := owner, phase := Locked)], locks := s.locks[(h.node, h.key) := id])
    case CacheGet(id) =>
      var h := s.handlers[id];
      Proceed(s, id, Asking(LossyMap.Lookup(s.disks[h.owner], h.key)))
    case SendGet(id) =>
      var h := s.handlers[id];
      Proceed(s, id, Calling).(calls := s.calls + CallsFor(id, GetOp, h.node, h.owner, h.key))
    case ServeGet(id) =>
      var h := s.handlers[id];
      Proceed(s, id, Asking(LossyMap.Lookup(s.disks[h.owner], h.key)))
    case Fail(id) => Finish(s, id, Failed)
    case Fetch(id, resp) =>
      var h := s.handlers[id];
      var cached := h.phase.cached;
      Proceed(s, id, Deciding(Exchange(cached, IfNoneMatch(cached, h.req), resp, Current(s, h.key))))
    case Decide(id) =>
      var h := s.handlers[id];
      var next := Decision(c, h, h.phase.x);
      if next.Refreshing? then Proceed(s, id, next).(calls := s.calls + CallsFor(id, PutOp, h.node, h.owner, h.key))
      else if Active(next) then Proceed(s, id, next)
      else Finish(s, id, next)
    case Take(id, n) =>
      var p := s.handlers[id].phase;
      Proceed(s, id, p.(at := p.at + n, tee := Pending(p.x.resp.body[p.at..p.at + n])))
    case WriteClient(id, n) =>
      var p := s.handlers[id].phase;
      Proceed(s, id, p.(sent := p.sent + p.tee.chunk[..n], tee := Written(p.tee.chunk, n)))
    case Hand(id) =>
      var p := s.handlers[id].phase;
      Proceed(s, id, p.(read := p.read + p.tee.chunk[..p.tee.n], tee := if p.tee.n == |p.tee.chunk| then Idle else Broken))
    case Abandon(id) => Finish(s, id, Abandoned(s.handlers[id].phase.x, s.handlers[id].phase.sent))
    case PutFails(id, lost) =>
      var h := s.handlers[id];
      EndPut(s, id, StoreFailed(h.phase.x, h.phase.sent))
        .(disks := s.disks[h.owner := LossyMap.Apply(s.disks[h.owner], LossyMap.Lose(lost))])
    case PutAccepted(id, lost, acknowledged) =>
      var h := s.handlers[id];
      var entry := Kept(h.phase.x.resp.etag, Given(h.phase));
      EndPut(s, id, if acknowledged then Stored(h.phase.x, h.phase.sent) else StoreFailed(h.phase.x, h.phase.sent))
        .(disks := s.disks[h.owner := LossyMap.Apply(s.disks[h.owner], LossyMap.Put(h.key, entry, lost))],
          puts := s.puts + [PutRecord(h.owner, h.key, entry, h.req, h.phase.x.resp)])
    case Copy(id, n) =>
      var p := s.handlers[id].phase;
      Proceed(s, id, Serving(p.x, p.sent + p.x.cached.value.blob[|p.sent|..|p.sent| + n]))
    case CopyEnds(id) => Finish(s, id, Hit(s.handlers[id].phase.x, s.handlers[id].phase.sent, false))
    case CopyBreaks(id) =>  // an error on another server's disk ends that server's response early but cleanly
      Finish(s, id, Hit(s.handlers[id].phase.x, s.handlers[id].phase.sent, true))
    case CopyFails(id) =>  // an error of the handler's own disk, or of the client's connection
      Finish(s, id, CutOff(s.handlers[id].phase.x, s.handlers[id].phase.sent))
    case Evict(node, lost) => s.(disks := s.disks[node := LossyMap.Apply(s.disks[node], LossyMap.Lose(lost))])
    case OriginChanges(key, version) => s.(origin := s.origin[key := version])
  }
}
