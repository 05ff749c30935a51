/** Runs built step by step, for what the code does not promise: an origin and its clients under which a stale
    body is served, and a disk under which a short one is. */
module Witness {
  import opened CacheTypes
  import opened StoragePolicy
  import opened Rendezvous
  import opened ProxyModel
  import opened ProxyRuns
  import opened ProxyTheorems
  import opened Freshness
  import opened DiskObject
  import LossyMap
  import MetadataJson

  ghost predicate Reached(c: Config, bodies: Bodies, steps: seq<Step>, s: State) {
    ValidRun(c, steps) && HonestRun(c, bodies, steps) && Run(c, steps) == s
  }

  /** Some run with an honest origin leads to the state. */
  ghost predicate CanReach(c: Config, bodies: Bodies, s: State) {
    exists steps :: Reached(c, bodies, steps, s)
  }

  lemma StartsThere(c: Config, bodies: Bodies)
    ensures CanReach(c, bodies, Init(c))
  {
    assert Reached(c, bodies, [], Init(c));
  }

  lemma OneMore(c: Config, bodies: Bodies, s: State, step: Step)
    requires CanReach(c, bodies, s) && Enabled(c, s, step) && Honest(bodies, s, step)
    ensures CanReach(c, bodies, Apply(c, s, step))
  {
    hide Apply, Enabled, Honest;
    var steps :| Reached(c, bodies, steps, s);
    assert (steps + [step])[..|steps|] == steps;
    assert Reached(c, bodies, steps + [step], Apply(c, s, step));
  }

  /** The state `s` with one handler more, which holds its lock while it is active. */
  ghost function At(s: State, id: Id, h: Handler): State {
    s.(handlers := s.handlers[id := h], locks := if Active(h.phase) then s.locks[(h.node, h.key) := id] else s.locks)
  }

  predicate Free(s: State, id: Id, h: Handler) {
    id !in s.handlers && (h.node, h.key) !in s.locks
  }

  lemma Proceeds(s: State, id: Id, h: Handler, p: Phase)
    requires Active(h.phase) && Active(p)
    ensures Proceed(At(s, id, h), id, p) == At(s, id, h.(phase := p))
  {
    assert s.handlers[id := h][id := h.(phase := p)] == s.handlers[id := h.(phase := p)];
  }

  lemma Finishes(s: State, id: Id, h: Handler, p: Phase)
    requires Free(s, id, h) && Active(h.phase) && !Active(p)
    ensures Finish(At(s, id, h), id, p) == At(s, id, h.(phase := p))
  {
    assert s.handlers[id := h][id := h.(phase := p)] == s.handlers[id := h.(phase := p)];
    assert s.locks[(h.node, h.key) := id] - {(h.node, h.key)} == s.locks;
  }

  lemma LocksFirst(c: Config, bodies: Bodies, s: State, id: Id, h: Handler)
    requires CanReach(c, bodies, s) && Free(s, id, h) && h.phase.Locked? && h.node in s.disks
    requires Owns(c, h.node, h.key, h.owner) && h.owner in s.disks
    ensures CanReach(c, bodies, At(s, id, h))
  {
    hide CanReach, Owns;
    OneMore(c, bodies, s, Arrive(id, h.node, h.key, h.req));
    var s1 := Apply(c, s, Arrive(id, h.node, h.key, h.req));
    OneMore(c, bodies, s1, Lock(id, h.owner));
    assert s.handlers[id := Handler(h.node, h.key, h.req, h.node, Waiting)][id := h] == s.handlers[id := h];
    assert Apply(c, s1, Lock(id, h.owner)) == At(s, id, h);
  }

  lemma LooksLocally(c: Config, bodies: Bodies, s: State, id: Id, h: Handler)
    requires CanReach(c, bodies, s) && Free(s, id, h) && h.node in s.disks
    requires Owns(c, h.node, h.key, h.owner) && h.owner == h.node
    ensures CanReach(c, bodies, At(s, id, h.(phase := Asking(LossyMap.Lookup(s.disks[h.owner], h.key)))))
  {
    hide CanReach, Owns, LossyMap.Lookup;
    var l := h.(phase := Locked);
    LocksFirst(c, bodies, s, id, l);
    OneMore(c, bodies, At(s, id, l), CacheGet(id));
    Proceeds(s, id, l, Asking(LossyMap.Lookup(s.disks[h.owner], h.key)));
  }

  /** After a KV request from one server to another. */
  ghost function Called(s: State, id: Id, h: Handler): State {
    s.(calls := s.calls + CallsFor(id, GetOp, h.node, h.owner, h.key))
  }

  lemma LooksRemotely(c: Config, bodies: Bodies, s: State, id: Id, h: Handler)
    requires CanReach(c, bodies, s) && Free(s, id, h) && h.node in s.disks && h.owner in s.disks
    requires Owns(c, h.node, h.key, h.owner) && h.owner != h.node && Reachable(c, h.node, h.owner)
    ensures CanReach(c, bodies, At(Called(s, id, h), id, h.(phase := Asking(LossyMap.Lookup(s.disks[h.owner], h.key)))))
  {
    hide CanReach, Owns, LossyMap.Lookup, CallsFor;
    var l := h.(phase := Locked);
    LocksFirst(c, bodies, s, id, l);
    OneMore(c, bodies, At(s, id, l), SendGet(id));
    Proceeds(s, id, l, Calling);
    var t := Called(s, id, h);
    assert Apply(c, At(s, id, l), SendGet(id)) == At(t, id, h.(phase := Calling));
    OneMore(c, bodies, At(t, id, h.(phase := Calling)), ServeGet(id));
    Proceeds(t, id, h.(phase := Calling), Asking(LossyMap.Lookup(s.disks[h.owner], h.key)));
  }

  lemma AsksTheOrigin(c: Config, bodies: Bodies, s: State, id: Id, h: Handler, resp: Response)
    requires h.phase.Asking? && CanReach(c, bodies, At(s, id, h))
    requires HonestAnswer(IfNoneMatch(h.phase.cached, h.req), resp, Current(s, h.key))
    ensures var x := Exchange(h.phase.cached, IfNoneMatch(h.phase.cached, h.req), resp, Current(s, h.key));
            CanReach(c, bodies, At(s, id, h.(phase := Deciding(x))))
  {
    hide CanReach, HonestAnswer, IfNoneMatch;
    var x := Exchange(h.phase.cached, IfNoneMatch(h.phase.cached, h.req), resp, Current(s, h.key));
    OneMore(c, bodies, At(s, id, h), Fetch(id, resp));
    Proceeds(s, id, h, Deciding(x));
  }

  /** A 304 for a cached entry is served from the cache. */
  lemma StartsServing(c: Config, bodies: Bodies, s: State, id: Id, h: Handler)
    requires h.phase.Deciding? && CanReach(c, bodies, At(s, id, h))
    requires h.phase.x.resp.status == 304 && h.phase.x.cached.Some?
    requires c.cluster.None? || h.req.rule.None? || !h.req.rule.value.directConnect
    ensures CanReach(c, bodies, At(s, id, h.(phase := Serving(h.phase.x, []))))
  {
    hide CanReach, MayStore;
    OneMore(c, bodies, At(s, id, h), Decide(id));
    Proceeds(s, id, h, Serving(h.phase.x, []));
  }

  lemma Copies(c: Config, bodies: Bodies, s: State, id: Id, h: Handler, n: nat)
    requires h.phase.Serving? && h.phase.sent == [] && h.phase.x.cached.Some? && n <= |h.phase.x.cached.value.blob|
    requires CanReach(c, bodies, At(s, id, h))
    ensures CanReach(c, bodies, At(s, id, h.(phase := Serving(h.phase.x, h.phase.x.cached.value.blob[..n]))))
  {
    hide CanReach;
    OneMore(c, bodies, At(s, id, h), Copy(id, n));
    Proceeds(s, id, h, Serving(h.phase.x, h.phase.x.cached.value.blob[..n]));
    assert [] + h.phase.x.cached.value.blob[0..n] == h.phase.x.cached.value.blob[..n];
  }

  lemma EndsWhole(c: Config, bodies: Bodies, s: State, id: Id, h: Handler)
    requires h.phase.Serving? && h.phase.x.cached.Some? && |h.phase.sent| == |h.phase.x.cached.value.blob|
    requires Free(s, id, h) && CanReach(c, bodies, At(s, id, h))
    ensures CanReach(c, bodies, At(s, id, h.(phase := Hit(h.phase.x, h.phase.sent, false))))
  {
    hide CanReach;
    OneMore(c, bodies, At(s, id, h), CopyEnds(id));
    Finishes(s, id, h, Hit(h.phase.x, h.phase.sent, false));
  }

  lemma EndsBroken(c: Config, bodies: Bodies, s: State, id: Id, h: Handler)
    requires h.phase.Serving? && h.owner != h.node && h.phase.x.cached.Some?
    requires 0 < |h.phase.sent| < |h.phase.x.cached.value.blob|
    requires Free(s, id, h) && CanReach(c, bodies, At(s, id, h))
    ensures CanReach(c, bodies, At(s, id, h.(phase := Hit(h.phase.x, h.phase.sent, true))))
  {
    hide CanReach;
    OneMore(c, bodies, At(s, id, h), CopyBreaks(id));
    Finishes(s, id, h, Hit(h.phase.x, h.phase.sent, true));
  }

  lemma EndsCutOff(c: Config, bodies: Bodies, s: State, id: Id, h: Handler)
    requires h.phase.Serving? && Free(s, id, h) && CanReach(c, bodies, At(s, id, h))
    ensures CanReach(c, bodies, At(s, id, h.(phase := CutOff(h.phase.x, h.phase.sent))))
  {
    hide CanReach;
    OneMore(c, bodies, At(s, id, h), CopyFails(id));
    Finishes(s, id, h, CutOff(h.phase.x, h.phase.sent));
  }

  /** A request whose responses may be stored. */
  const PLAIN := Request("GET", [], "", "", None, Some(Rule(false, [], false, false)))

  function Ok(v: Version): Response {
    Response(200, v.etag, [], [], v.body)
  }

  const NOT_MODIFIED := Response(304, [], [], [], [])

  lemma PlainMayBeStored(v: Version)
    ensures MayStore(PLAIN, Ok(v))
  {
  }

  /** A handler that stores a version on a disk, in a phase. */
  function Storing(node: Node, owner: Node, key: Key, phase: Phase): Handler {
    Handler(node, key, PLAIN, owner, phase)
  }

  function Miss(v: Version): Exchange {
    Exchange(None, None, Ok(v), v)
  }

  lemma StartsStoring(c: Config, bodies: Bodies, s: State, id: Id, node: Node, key: Key)
    requires CanReach(c, bodies, s) && Free(s, id, Storing(node, node, key, Locked))
    requires node in s.disks && key !in s.disks[node] && Owns(c, node, key, node)
    ensures var x := Miss(Current(s, key));
            CanReach(c, bodies, At(s, id, Storing(node, node, key, Refreshing(x, 0, [], [], Idle))))
  {
    hide CanReach, Owns, MayStore;
    var v := Current(s, key);
    LooksLocally(c, bodies, s, id, Storing(node, node, key, Locked));
    AsksTheOrigin(c, bodies, s, id, Storing(node, node, key, Asking(None)), Ok(v));
    var h := Storing(node, node, key, Deciding(Miss(v)));
    OneMore(c, bodies, At(s, id, h), Decide(id));
    PlainMayBeStored(v);
    Proceeds(s, id, h, Refreshing(Miss(v), 0, [], [], Idle));
    assert s.calls + [] == s.calls;
  }

  lemma TeesAll(c: Config, bodies: Bodies, s: State, id: Id, node: Node, owner: Node, key: Key, x: Exchange)
    requires CanReach(c, bodies, At(s, id, Storing(node, owner, key, Refreshing(x, 0, [], [], Idle))))
    ensures var body := x.resp.body;
            CanReach(c, bodies, At(s, id, Storing(node, owner, key, Refreshing(x, |body|, body, body, Idle))))
  {
    hide CanReach;
    var body := x.resp.body;
    var h0 := Storing(node, owner, key, Refreshing(x, 0, [], [], Idle));
    var h1 := Storing(node, owner, key, Refreshing(x, |body|, [], [], Pending(body)));
    var h2 := Storing(node, owner, key, Refreshing(x, |body|, body, [], Written(body, |body|)));
    assert body[0..|body|] == body && body[..|body|] == body && [] + body == body;
    OneMore(c, bodies, At(s, id, h0), Take(id, |body|));
    Proceeds(s, id, h0, h1.phase);
    OneMore(c, bodies, At(s, id, h1), WriteClient(id, |body|));
    Proceeds(s, id, h1, h2.phase);
    OneMore(c, bodies, At(s, id, h2), Hand(id));
    Proceeds(s, id, h2, Refreshing(x, |body|, body, body, Idle));
  }

  /** The deployment once an entry is stored on a disk. */
  ghost function WithEntry(s: State, node: Node, key: Key, v: Version): State
    requires node in s.disks
  {
    s.(disks := s.disks[node := s.disks[node][key := Kept(v.etag, v.body)]],
       puts := s.puts + [PutRecord(node, key, Kept(v.etag, v.body), PLAIN, Ok(v))])
  }

  /** A version of the origin gets stored. */
  lemma Stores(c: Config, bodies: Bodies, s: State, id: Id, node: Node, key: Key)
    requires CanReach(c, bodies, s) && Free(s, id, Storing(node, node, key, Locked))
    requires node in s.disks && key !in s.disks[node] && Owns(c, node, key, node)
    ensures var v := Current(s, key);
            CanReach(c, bodies, At(WithEntry(s, node, key, v), id, Storing(node, node, key, Stored(Miss(v), v.body))))
  {
    hide CanReach, Owns, Kept, Current;
    var v := Current(s, key);
    var x := Miss(v);
    StartsStoring(c, bodies, s, id, node, key);
    TeesAll(c, bodies, s, id, node, node, key, x);
    var h := Storing(node, node, key, Refreshing(x, |v.body|, v.body, v.body, Idle));
    OneMore(c, bodies, At(s, id, h), PutAccepted(id, {}, true));
    Finishes(s, id, h, Stored(x, v.body));
    assert s.disks[node] - {} == s.disks[node];
  }

  lemma OriginHas(c: Config, bodies: Bodies, s: State, key: Key, v: Version)
    requires CanReach(c, bodies, s) && Consistent(bodies, key, v)
    ensures CanReach(c, bodies, s.(origin := s.origin[key := v]))
  {
    OneMore(c, bodies, s, OriginChanges(key, v));
  }

  /** The deployment with one version stored on a disk and another at the origin. */
  ghost function StoredThen(c: Config, node: Node, key: Key, v: Version, v': Version): State
    requires node in c.servers
  {
    At(WithEntry(Init(c).(origin := map[key := v]), node, key, v), 0, Storing(node, node, key, Stored(Miss(v), v.body)))
      .(origin := map[key := v'])
  }

  lemma StoresThenChanges(c: Config, bodies: Bodies, node: Node, key: Key, v: Version, v': Version)
    requires node in c.servers && Owns(c, node, key, node)
    requires Consistent(bodies, key, v) && Consistent(bodies, key, v')
    ensures CanReach(c, bodies, StoredThen(c, node, key, v, v'))
  {
    hide CanReach, Owns, Consistent, Kept;
    StartsThere(c, bodies);
    OriginHas(c, bodies, Init(c), key, v);
    var s := Init(c).(origin := map[key := v]);
    assert Init(c).origin[key := v] == map[key := v];
    Stores(c, bodies, s, 0, node, key);
    var t := At(WithEntry(s, node, key, v), 0, Storing(node, node, key, Stored(Miss(v), v.body)));
    OriginHas(c, bodies, t, key, v');
    assert t.origin[key := v'] == map[key := v'];
  }

  /** Looking at what is stored there, and hearing 304 from the origin. */
  function Revalidated(v: Version, v': Version, req: Request): Exchange {
    var cached := Some(Kept(v.etag, v.body));
    Exchange(cached, IfNoneMatch(cached, req), NOT_MODIFIED, v')
  }

  /** The deployment in which a version was stored, another followed it, and a client was served the first. */
  ghost function Stale(node: Node, key: Key, v: Version, v': Version, req: Request): State {
    At(StoredThen(Config({node}, None), node, key, v, v'), 1,
       Handler(node, key, req, node, Hit(Revalidated(v, v', req), v.body, false)))
  }

  lemma ReachesStale(bodies: Bodies, node: Node, key: Key, v: Version, v': Version, req: Request)
    requires Consistent(bodies, key, v) && Consistent(bodies, key, v')
    requires v'.etag != [] && IfNoneMatch(Some(Kept(v.etag, v.body)), req) == Some(v'.etag)
    ensures CanReach(Config({node}, None), bodies, Stale(node, key, v, v', req))
  {
    hide CanReach, Consistent, Kept, IfNoneMatch;
    var c := Config({node}, None);
    StoresThenChanges(c, bodies, node, key, v, v');
    var s := StoredThen(c, node, key, v, v');
    var h := Handler(node, key, req, node, Locked);
    LooksLocally(c, bodies, s, 1, h);
    var cached := Some(Kept(v.etag, v.body));
    assert LossyMap.Lookup(s.disks[node], key) == cached;
    AsksTheOrigin(c, bodies, s, 1, h.(phase := Asking(cached)), NOT_MODIFIED);
    var x := Revalidated(v, v', req);
    StartsServing(c, bodies, s, 1, h.(phase := Deciding(x)));
    KeptBlob(v);
    Copies(c, bodies, s, 1, h.(phase := Serving(x, [])), |v.body|);
    assert v.body[..|v.body|] == v.body;
    EndsWhole(c, bodies, s, 1, h.(phase := Serving(x, v.body)));
  }

  lemma KeptBlob(v: Version)
    ensures Kept(v.etag, v.body).blob == v.body
  {
  }

  /** Whatever is not safe to serve is served stale in some run with an honest origin, on any server and for any
      key and body. */
  lemma UnsafeIsServedStale(node: Node, key: Key, etag: Text, body: Blob, req: Request)
    returns (c: Config, bodies: Bodies, steps: seq<Step>, id: Id, i: nat)
    requires !SafeToServe(etag, req)
    ensures ServedPut(c, bodies, steps, id, i)
    ensures var s := Run(c, steps);
            && s.puts[i].resp.etag == etag && s.puts[i].resp.body == body
            && s.handlers[id].req == req && s.handlers[id].node == node && s.handlers[id].key == key
            && s.handlers[id].phase.sent == body && s.handlers[id].phase.x.current.body == body + [0]
  {
    SafeAsksForTheSame(etag, body, req);
    var asked := IfNoneMatch(Some(Kept(etag, body)), req).value;
    var v, v' := Version(etag, body), Version(asked, body + [0]);
    c, id, i := Config({node}, None), 1, 0;
    bodies := (k, e) => if e == asked then body + [0] else body;
    ReachesStale(bodies, node, key, v, v', req);
    hide Run, ValidRun, HonestRun, Kept, IfNoneMatch;
    steps :| Reached(c, bodies, steps, Stale(node, key, v, v', req));
  }

  /** Every hit on an entry stored with `etag`, for a request, is fresh. */
  ghost predicate AlwaysFresh(etag: Text, req: Request) {
    forall c, bodies, steps, id, i: nat ::
      ServedPut(c, bodies, steps, id, i) && Run(c, steps).puts[i].resp.etag == etag
      && Run(c, steps).handlers[id].req == req
      ==> Run(c, steps).handlers[id].phase.sent == Run(c, steps).handlers[id].phase.x.current.body
  }

  /** The client's headers are copied over the cached ETag, and JSON alters an ETag that is not valid UTF-8: over all
      runs with an honest origin, hits are fresh exactly under `SafeToServe`. */
  lemma FreshnessIsExact(etag: Text, req: Request)
    ensures AlwaysFresh(etag, req) <==> SafeToServe(etag, req)
  {
    hide Run, ValidRun, HonestRun, SafeToServe;
    if SafeToServe(etag, req) {
      forall c, bodies, steps, id, i: nat
        | ServedPut(c, bodies, steps, id, i) && Run(c, steps).puts[i].resp.etag == etag
          && Run(c, steps).handlers[id].req == req
        ensures Run(c, steps).handlers[id].phase.sent == Run(c, steps).handlers[id].phase.x.current.body
      {
        HitsAreFresh(c, bodies, steps, id, i);
      }
    } else {
      var c, bodies, steps, id, i := UnsafeIsServedStale([], [], etag, [], req);
    }
  }

  /** A server asks another for an entry, of which it gets `n` bytes and no error. */
  ghost function Short(c: Config, node: Node, owner: Node, key: Key, v: Version, n: nat): State
    requires owner in c.servers && n <= |v.body|
  {
    var h := Handler(node, key, PLAIN, owner, Hit(Revalidated(v, v, PLAIN), v.body[..n], true));
    At(Called(StoredThen(c, owner, key, v, v), 1, h), 1, h)
  }

  lemma ReachesShort(c: Config, bodies: Bodies, node: Node, owner: Node, key: Key, v: Version, n: nat)
    requires {node, owner} <= c.servers && node != owner && Owns(c, node, key, owner) && Owns(c, owner, key, owner)
    requires Reachable(c, node, owner)
    requires Consistent(bodies, key, v) && v.etag != [] && MetadataJson.ValidUtf8(v.etag) && 0 < n < |v.body|
    ensures CanReach(c, bodies, Short(c, node, owner, key, v, n))
  {
    MetadataJson.CoerceLengthens(v.etag);
    assert IfNoneMatch(Some(Kept(v.etag, v.body)), PLAIN) == Some(v.etag);
    KeptBlob(v);
    hide CanReach, Consistent, Kept, IfNoneMatch, Owns, CallsFor;
    StoresThenChanges(c, bodies, owner, key, v, v);
    var s := StoredThen(c, owner, key, v, v);
    var h := Handler(node, key, PLAIN, owner, Locked);
    LooksRemotely(c, bodies, s, 1, h);
    var t := Called(s, 1, h);
    var cached := Some(Kept(v.etag, v.body));
    assert LossyMap.Lookup(s.disks[owner], key) == cached;
    AsksTheOrigin(c, bodies, t, 1, h.(phase := Asking(cached)), NOT_MODIFIED);
    var x := Revalidated(v, v, PLAIN);
    StartsServing(c, bodies, t, 1, h.(phase := Deciding(x)));
    Copies(c, bodies, t, 1, h.(phase := Serving(x, [])), n);
    EndsBroken(c, bodies, t, 1, h.(phase := Serving(x, v.body[..n])));
  }

  /** In a cluster with a secret, whatever is stored on one node can reach a client of another as a hit that is cut
      off where the owner's disk breaks, for every way of reading that breaks too late to change the status. */
  lemma ShortHitsHappen(c: Config, node: Node, owner: Node, key: Key, v: Version, download: Download)
    returns (steps: seq<Step>)
    requires c.cluster.Some? && c.cluster.value.secret != [] && {node, owner} <= c.servers && node != owner
    requires RanksFirst(c.cluster.value.score, c.cluster.value.nodes, key, owner)
    requires v.etag != [] && MetadataJson.ValidUtf8(v.etag)
    requires download.Breaks(v.body) && download.Status(v.body) == 200
    ensures ValidRun(c, steps) && 1 in Run(c, steps).handlers
    ensures var h := Run(c, steps).handlers[1];
            && h.node == node && h.owner == owner && h.phase.Hit? && h.phase.broken
            && h.phase.x.cached.Some? && h.phase.x.cached.value.blob == v.body
            && h.phase.sent == download.Yield(v.body) && |h.phase.sent| < |v.body|
  {
    LateErrorsAreLost(download, v.body);
    KeptBlob(v);
    var n := |download.Yield(v.body)|;
    var bodies: Bodies := (_, _) => v.body;
    ReachesShort(c, bodies, node, owner, key, v, n);
    hide Run, ValidRun, HonestRun, Kept, IfNoneMatch;
    steps :| Reached(c, bodies, steps, Short(c, node, owner, key, v, n));
    assert v.body[..n] == download.Yield(v.body);
  }

  /** And no other: what a broken hit has sent is what such a way of reading yields. */
  lemma ShortHitsAreYields(c: Config, steps: seq<Step>, id: Id) returns (download: Download)
    requires ValidRun(c, steps) && id in Run(c, steps).handlers
    requires var p := Run(c, steps).handlers[id].phase; p.Hit? && p.broken
    ensures var h := Run(c, steps).handlers[id];
            && h.owner != h.node && h.phase.x.cached.Some?
            && download.Breaks(h.phase.x.cached.value.blob) && download.Status(h.phase.x.cached.value.blob) == 200
            && h.phase.sent == download.Yield(h.phase.x.cached.value.blob)
  {
    hide Run, ValidRun;
    BrokenHitsAreRemote(c, steps, id);
    var h := Run(c, steps).handlers[id];
    var n := |h.phase.sent|;
    download := Download(n, Some(n), false);
    BufferAt(1, n, n);
    LateErrorsAreLost(download, h.phase.x.cached.value.blob);
  }

  /** A client is sent the first bytes of an entry with status 200, and no more. */
  ghost function Cut(node: Node, key: Key, v: Version, n: nat): State
    requires n <= |v.body|
  {
    At(StoredThen(Config({node}, None), node, key, v, v), 1,
       Handler(node, key, PLAIN, node, CutOff(Revalidated(v, v, PLAIN), v.body[..n])))
  }

  lemma ReachesCut(bodies: Bodies, node: Node, key: Key, v: Version, n: nat)
    requires Consistent(bodies, key, v) && v.etag != [] && MetadataJson.ValidUtf8(v.etag) && n <= |v.body|
    ensures CanReach(Config({node}, None), bodies, Cut(node, key, v, n))
  {
    MetadataJson.CoerceLengthens(v.etag);
    assert IfNoneMatch(Some(Kept(v.etag, v.body)), PLAIN) == Some(v.etag);
    KeptBlob(v);
    hide CanReach, Consistent, Kept, IfNoneMatch;
    var c := Config({node}, None);
    StoresThenChanges(c, bodies, node, key, v, v);
    var s := StoredThen(c, node, key, v, v);
    var h := Handler(node, key, PLAIN, node, Locked);
    LooksLocally(c, bodies, s, 1, h);
    var cached := Some(Kept(v.etag, v.body));
    assert LossyMap.Lookup(s.disks[node], key) == cached;
    AsksTheOrigin(c, bodies, s, 1, h.(phase := Asking(cached)), NOT_MODIFIED);
    var x := Revalidated(v, v, PLAIN);
    StartsServing(c, bodies, s, 1, h.(phase := Deciding(x)));
    Copies(c, bodies, s, 1, h.(phase := Serving(x, [])), n);
    EndsCutOff(c, bodies, s, 1, h.(phase := Serving(x, v.body[..n])));
  }

  /** On any server, whatever is stored can be cut off anywhere, even before its first byte, after status 200. */
  lemma CutOffsHappen(node: Node, key: Key, v: Version, n: nat) returns (steps: seq<Step>)
    requires v.etag != [] && MetadataJson.ValidUtf8(v.etag) && n <= |v.body|
    ensures ValidRun(Config({node}, None), steps) && 1 in Run(Config({node}, None), steps).handlers
    ensures var h := Run(Config({node}, None), steps).handlers[1];
            && h.node == node && h.key == key && h.phase.CutOff? && h.phase.sent == v.body[..n]
            && h.phase.x.cached.Some? && h.phase.x.cached.value.blob == v.body
  {
    KeptBlob(v);
    var bodies: Bodies := (_, _) => v.body;
    ReachesCut(bodies, node, key, v, n);
    hide Run, ValidRun, HonestRun, Kept, IfNoneMatch;
    steps :| Reached(Config({node}, None), bodies, steps, Cut(node, key, v, n));
  }

  /** After the two KV requests of a miss on another server's key. */
  ghost function CalledTwice(s: State, id: Id, node: Node, owner: Node, key: Key): State {
    s.(calls := s.calls + CallsFor(id, GetOp, node, owner, key) + CallsFor(id, PutOp, node, owner, key))
  }

  lemma StartsStoringRemotely(c: Config, bodies: Bodies, s: State, id: Id, node: Node, owner: Node, key: Key)
    requires CanReach(c, bodies, s) && Free(s, id, Storing(node, owner, key, Locked))
    requires {node, owner} <= s.disks.Keys && key !in s.disks[owner] && node != owner
    requires Owns(c, node, key, owner) && Reachable(c, node, owner)
    ensures var x := Miss(Current(s, key));
            var t, body := CalledTwice(s, id, node, owner, key), x.resp.body;
            CanReach(c, bodies, At(t, id, Storing(node, owner, key, Refreshing(x, |body|, body, body, Idle))))
  {
    hide CanReach, Owns, MayStore, CallsFor;
    var v := Current(s, key);
    var l := Storing(node, owner, key, Locked);
    LooksRemotely(c, bodies, s, id, l);
    var t := Called(s, id, l);
    AsksTheOrigin(c, bodies, t, id, Storing(node, owner, key, Asking(None)), Ok(v));
    var h := Storing(node, owner, key, Deciding(Miss(v)));
    OneMore(c, bodies, At(t, id, h), Decide(id));
    PlainMayBeStored(v);
    Proceeds(t, id, h, Refreshing(Miss(v), 0, [], [], Idle));
    TeesAll(c, bodies, CalledTwice(s, id, node, owner, key), id, node, owner, key, Miss(v));
  }

  /** A first handler has returned, but its Put goes on. */
  ghost function Left(c: Config, node: Node, owner: Node, key: Key, v: Version, v': Version): State {
    At(CalledTwice(Init(c).(origin := map[key := v]), 0, node, owner, key), 0,
       Storing(node, owner, key, Abandoned(Miss(v), v.body))).(origin := map[key := v'])
  }

  lemma LeavesPut(c: Config, bodies: Bodies, node: Node, owner: Node, key: Key, v: Version, v': Version)
    requires {node, owner} <= c.servers && node != owner && Owns(c, node, key, owner) && Reachable(c, node, owner)
    requires Consistent(bodies, key, v) && Consistent(bodies, key, v')
    ensures CanReach(c, bodies, Left(c, node, owner, key, v, v'))
  {
    hide CanReach, Owns, Consistent, CallsFor;
    StartsThere(c, bodies);
    OriginHas(c, bodies, Init(c), key, v);
    var s := Init(c).(origin := map[key := v]);
    assert Init(c).origin[key := v] == map[key := v];
    StartsStoringRemotely(c, bodies, s, 0, node, owner, key);
    var t := CalledTwice(s, 0, node, owner, key);
    var h := Storing(node, owner, key, Refreshing(Miss(v), |v.body|, v.body, v.body, Idle));
    OneMore(c, bodies, At(t, 0, h), Abandon(0));
    Finishes(t, 0, h, Abandoned(Miss(v), v.body));
    var u := At(t, 0, h.(phase := Abandoned(Miss(v), v.body)));
    OriginHas(c, bodies, u, key, v');
    assert u.origin[key := v'] == map[key := v'];
  }

  /** A second handler of the same server has stored what the origin has now. */
  ghost function Renewed(c: Config, node: Node, owner: Node, key: Key, v: Version, v': Version): State
    requires owner in c.servers
  {
    var s := CalledTwice(Left(c, node, owner, key, v, v'), 1, node, owner, key);
    At(WithEntry(s, owner, key, v'), 1, Storing(node, owner, key, Stored(Miss(v'), v'.body)))
  }

  lemma Renews(c: Config, bodies: Bodies, node: Node, owner: Node, key: Key, v: Version, v': Version)
    requires {node, owner} <= c.servers && node != owner && Owns(c, node, key, owner) && Reachable(c, node, owner)
    requires Consistent(bodies, key, v) && Consistent(bodies, key, v')
    ensures CanReach(c, bodies, Renewed(c, node, owner, key, v, v'))
  {
    hide CanReach, Owns, Consistent, CallsFor, Kept;
    LeavesPut(c, bodies, node, owner, key, v, v');
    var s := Left(c, node, owner, key, v, v');
    StartsStoringRemotely(c, bodies, s, 1, node, owner, key);
    var t := CalledTwice(s, 1, node, owner, key);
    var h := Storing(node, owner, key, Refreshing(Miss(v'), |v'.body|, v'.body, v'.body, Idle));
    OneMore(c, bodies, At(t, 1, h), PutAccepted(1, {}, true));
    Finishes(t, 1, h, Stored(Miss(v'), v'.body));
    assert t.disks[owner] - {} == t.disks[owner];
  }

  /** Exclusion ends with the handler, not with its Put: the Put of a client that went away can be accepted after a
      later one of the same server and key, and then the owner shows the older response. */
  lemma LatePutReplacesNewer(c: Config, bodies: Bodies, node: Node, owner: Node, key: Key, v: Version, v': Version)
    returns (steps: seq<Step>)
    requires {node, owner} <= c.servers && node != owner && Owns(c, node, key, owner) && Reachable(c, node, owner)
    requires Consistent(bodies, key, v) && Consistent(bodies, key, v')
    ensures ValidRun(c, steps) && HonestRun(c, bodies, steps)
    ensures var s := Run(c, steps);
            && |s.puts| == 2 && s.puts[0].resp == Ok(v') && s.puts[1].resp == Ok(v) && Current(s, key) == v'
            && owner in s.disks && key in s.disks[owner] && s.disks[owner][key] == Kept(v.etag, v.body)
  {
    Renews(c, bodies, node, owner, key, v, v');
    var s := Renewed(c, node, owner, key, v, v');
    hide CanReach, Kept, CallsFor, Run, ValidRun, HonestRun, Consistent, Owns;
    OneMore(c, bodies, s, PutAccepted(0, {}, false));
    var t := Apply(c, s, PutAccepted(0, {}, false));
    assert s.puts == [PutRecord(owner, key, Kept(v'.etag, v'.body), PLAIN, Ok(v'))];
    assert t.disks[owner][key] == Kept(v.etag, v.body);
    steps := ReachedBy(c, bodies, t);
  }

  lemma ReachedBy(c: Config, bodies: Bodies, s: State) returns (steps: seq<Step>)
    requires CanReach(c, bodies, s)
    ensures ValidRun(c, steps) && HonestRun(c, bodies, steps) && Run(c, steps) == s
  {
    steps :| Reached(c, bodies, steps, s);
  }
}
