/** What a handler can always still do: from every reachable state its own steps lead it to the end that the origin's
    answer calls for. */
module Progress {
  import opened CacheTypes
  import opened StoragePolicy
  import opened Rendezvous
  import opened ProxyModel
  import opened ProxyRuns
  import LossyMap

  /** The switch, as it shows in the handler: exactly when it refreshes its entry, redirects, serves it or passes the
      response through. */
  lemma DecideExactly(c: Config, s: State, id: Id)
    requires Enabled(c, s, Decide(id))
    ensures var h, x, p := s.handlers[id], s.handlers[id].phase.x, Apply(c, s, Decide(id)).handlers[id].phase;
            var valid := x.resp.status == 304 && x.cached.Some?;
            var direct := c.cluster.Some? && h.req.rule.Some? && h.req.rule.value.directConnect;
            && (x.resp.status == 200 && MayStore(h.req, x.resp) <==> p == Refreshing(x, 0, [], [], Idle))
            && (valid && direct <==> p == Redirected(x))
            && (valid && !direct <==> p == Serving(x, []))
            && (!(x.resp.status == 200 && MayStore(h.req, x.resp)) && !valid <==> p == PassedThrough(x))
  {
    hide MayStore, CallsFor;
  }

  predicate Own(steps: seq<Step>, id: Id) {
    forall i :: 0 <= i < |steps| ==> IsAbout(steps[i], id)
  }

  /** After a run, steps of one handler alone lead to the state. */
  ghost predicate Goes(c: Config, past: seq<Step>, id: Id, more: seq<Step>, s: State) {
    Own(more, id) && ValidRun(c, past + more) && Run(c, past + more) == s
  }

  ghost predicate CanGo(c: Config, past: seq<Step>, id: Id, s: State) {
    exists more :: Goes(c, past, id, more, s)
  }

  lemma Starts(c: Config, past: seq<Step>, id: Id)
    requires ValidRun(c, past)
    ensures CanGo(c, past, id, Run(c, past))
  {
    assert past + [] == past;
    assert Goes(c, past, id, [], Run(c, past));
  }

  lemma GoesOn(c: Config, past: seq<Step>, id: Id, s: State, step: Step)
    requires CanGo(c, past, id, s) && Enabled(c, s, step) && IsAbout(step, id)
    ensures CanGo(c, past, id, Apply(c, s, step))
  {
    hide Apply, Enabled;
    var more :| Goes(c, past, id, more, s);
    assert past + (more + [step]) == past + more + [step];
    assert (past + more + [step])[..|past + more|] == past + more;
    assert Goes(c, past, id, more + [step], Apply(c, s, step));
  }

  /** Every handler that has its lock has an owner with a disk. */
  ghost predicate Served(s: State) {
    forall id :: id in s.handlers && !s.handlers[id].phase.Waiting? ==> s.handlers[id].owner in s.disks
  }

  lemma StepKeepsServed(c: Config, s: State, step: Step)
    requires Inv(c, s) && Served(s) && Enabled(c, s, step)
    ensures Served(Apply(c, s, step))
  {
    hide Apply, Enabled, Inv;
    var s' := Apply(c, s, step);
    KeysStay(c, s, step);
    forall id | id in s'.handlers && !s'.handlers[id].phase.Waiting? ensures s'.handlers[id].owner in s'.disks {
      if IsAbout(step, id) {
        OwnerStays(c, s, step);
      } else {
        OthersStay(c, s, step, id);
      }
    }
  }

  lemma KeysStay(c: Config, s: State, step: Step)
    requires Inv(c, s) && Enabled(c, s, step)
    ensures Apply(c, s, step).disks.Keys == s.disks.Keys
  {
    hide Inv, Apply, Enabled;
    StepKeepsDisks(c, s, step);
  }

  lemma OwnerStays(c: Config, s: State, step: Step)
    requires Enabled(c, s, step) && !step.Evict? && !step.OriginChanges?
    ensures step.id in Apply(c, s, step).handlers
    ensures var h' := Apply(c, s, step).handlers[step.id];
            || h'.phase.Waiting?
            || (step.Lock? && h'.owner in s.disks)
            || (step.id in s.handlers && !s.handlers[step.id].phase.Waiting? && h'.owner == s.handlers[step.id].owner)
  {
    if IsEarly(step) {
      hide Decision, LossyMap.Apply, LossyMap.Lookup, Owns, Reachable, CallsFor, Kept, Current, IfNoneMatch, Given;
    } else {
      hide Apply, Enabled;
      LateSteps(c, s, step);
    }
  }

  lemma {:induction false} RunKeepsServed(c: Config, steps: seq<Step>)
    requires ValidRun(c, steps)
    ensures Served(Run(c, steps))
    decreases |steps|
  {
    hide Apply, Enabled, Inv;
    if steps != [] {
      RunKeepsServed(c, steps[..|steps| - 1]);
      RunKeepsInv(c, steps[..|steps| - 1]);
      StepKeepsServed(c, Run(c, steps[..|steps| - 1]), steps[|steps| - 1]);
    }
  }

  /** A handler that is to refresh its entry tees the whole body. */
  lemma TeesAll(c: Config, past: seq<Step>, id: Id, s: State) returns (s': State)
    requires CanGo(c, past, id, s) && id in s.handlers && s.handlers[id].phase.Refreshing?
    requires s.handlers[id].phase == Refreshing(s.handlers[id].phase.x, 0, [], [], Idle)
    ensures CanGo(c, past, id, s') && s'.disks == s.disks && s'.puts == s.puts && id in s'.handlers
    ensures var x := s.handlers[id].phase.x;
            s'.handlers[id] == s.handlers[id].(phase := Refreshing(x, |x.resp.body|, x.resp.body, x.resp.body, Idle))
  {
    hide CanGo;
    var x := s.handlers[id].phase.x;
    var body := x.resp.body;
    assert body[0..|body|] == body && body[..|body|] == body && [] + body == body;
    GoesOn(c, past, id, s, Take(id, |body|));
    var s1 := Apply(c, s, Take(id, |body|));
    GoesOn(c, past, id, s1, WriteClient(id, |body|));
    var s2 := Apply(c, s1, WriteClient(id, |body|));
    GoesOn(c, past, id, s2, Hand(id));
    s' := Apply(c, s2, Hand(id));
  }

  /** Progress of a refresh: from every reachable state in which the origin has answered with a response that may be
      stored, whatever the handler found in the cache, its own steps lead to a state where the client has the
      whole body and the owner's disk shows it under the key. */
  lemma StorableGetsStored(c: Config, past: seq<Step>, id: Id) returns (more: seq<Step>)
    requires ValidRun(c, past) && id in Run(c, past).handlers && Run(c, past).handlers[id].phase.Deciding?
    requires var h := Run(c, past).handlers[id];
             h.phase.x.resp.status == 200 && MayStore(h.req, h.phase.x.resp) && Reachable(c, h.node, h.owner)
    ensures Own(more, id) && ValidRun(c, past + more)
    ensures var h, s' := Run(c, past).handlers[id], Run(c, past + more);
            var resp := h.phase.x.resp;
            && id in s'.handlers && s'.handlers[id] == h.(phase := Stored(h.phase.x, resp.body))
            && h.owner in s'.disks && h.key in s'.disks[h.owner]
            && s'.disks[h.owner][h.key] == Kept(resp.etag, resp.body)
  {
    hide CanGo, Run, ValidRun, MayStore, Reachable, Kept;
    Starts(c, past, id);
    RunKeepsServed(c, past);
    var s := Run(c, past);
    var x := s.handlers[id].phase.x;
    GoesOn(c, past, id, s, Decide(id));
    DecideExactly(c, s, id);
    var s1 := Apply(c, s, Decide(id));
    assert s1.disks == s.disks && s1.handlers[id] == s.handlers[id].(phase := Refreshing(x, 0, [], [], Idle));
    var s2 := TeesAll(c, past, id, s1);
    GoesOn(c, past, id, s2, PutAccepted(id, {}, true));
    more := TheWay(c, past, id, Apply(c, s2, PutAccepted(id, {}, true)));
  }

  lemma TheWay(c: Config, past: seq<Step>, id: Id, s: State) returns (more: seq<Step>)
    requires CanGo(c, past, id, s)
    ensures Own(more, id) && ValidRun(c, past + more) && Run(c, past + more) == s
  {
    more :| Goes(c, past, id, more, s);
  }

  /** Progress of a hit: when the origin has confirmed what the handler found, and it does not redirect, its own steps
      lead to the end of a hit that has sent the whole entry. */
  lemma ConfirmedGetsServed(c: Config, past: seq<Step>, id: Id) returns (more: seq<Step>)
    requires ValidRun(c, past) && id in Run(c, past).handlers && Run(c, past).handlers[id].phase.Deciding?
    requires var h := Run(c, past).handlers[id];
             && h.phase.x.resp.status == 304 && h.phase.x.cached.Some?
             && !(c.cluster.Some? && h.req.rule.Some? && h.req.rule.value.directConnect)
    ensures Own(more, id) && ValidRun(c, past + more)
    ensures var h, s' := Run(c, past).handlers[id], Run(c, past + more);
            id in s'.handlers && s'.handlers[id] == h.(phase := Hit(h.phase.x, h.phase.x.cached.value.blob, false))
  {
    hide CanGo, Run, ValidRun, MayStore;
    Starts(c, past, id);
    var s := Run(c, past);
    var blob := s.handlers[id].phase.x.cached.value.blob;
    GoesOn(c, past, id, s, Decide(id));
    DecideExactly(c, s, id);
    var s1 := Apply(c, s, Decide(id));
    GoesOn(c, past, id, s1, Copy(id, |blob|));
    assert [] + blob[0..|blob|] == blob;
    var s2 := Apply(c, s1, Copy(id, |blob|));
    GoesOn(c, past, id, s2, CopyEnds(id));
    more := TheWay(c, past, id, Apply(c, s2, CopyEnds(id)));
  }

  /** Progress up to the origin: a handler whose key is free on its server gets the lock and finds what the owner's disk
      shows, and can then take any answer. */
  lemma WaitingGetsToAsk(c: Config, past: seq<Step>, id: Id, owner: Node, resp: Response) returns (more: seq<Step>)
    requires ValidRun(c, past) && id in Run(c, past).handlers
    requires var s := Run(c, past);
             var h := s.handlers[id];
             && h.phase.Waiting? && (h.node, h.key) !in s.locks && owner in s.disks
             && Owns(c, h.node, h.key, owner) && Reachable(c, h.node, owner)
    ensures Own(more, id) && ValidRun(c, past + more)
    ensures var s, s' := Run(c, past), Run(c, past + more);
            var h := s.handlers[id];
            var cached := LossyMap.Lookup(s.disks[owner], h.key);
            && id in s'.handlers
            && s'.handlers[id] == h.(owner := owner,
                 phase := Deciding(Exchange(cached, IfNoneMatch(cached, h.req), resp, Current(s, h.key))))
  {
    hide CanGo, Run, ValidRun, Owns, Reachable, LossyMap.Lookup, IfNoneMatch, Current, CallsFor;
    Starts(c, past, id);
    var s := Run(c, past);
    GoesOn(c, past, id, s, Lock(id, owner));
    var s1 := Apply(c, s, Lock(id, owner));
    var s2 := Looks(c, past, id, s1);
    GoesOn(c, past, id, s2, Fetch(id, resp));
    SameOrigin(s, s2, s.handlers[id].key);
    more := TheWay(c, past, id, Apply(c, s2, Fetch(id, resp)));
  }

  lemma SameOrigin(s: State, s': State, key: Key)
    requires s'.origin == s.origin
    ensures Current(s', key) == Current(s, key)
  {
  }

  /** On its own disk or, by a KV request, on the owner's. */
  lemma Looks(c: Config, past: seq<Step>, id: Id, s: State) returns (s': State)
    requires CanGo(c, past, id, s) && id in s.handlers && s.handlers[id].phase.Locked?
    requires s.handlers[id].owner in s.disks && Reachable(c, s.handlers[id].node, s.handlers[id].owner)
    ensures CanGo(c, past, id, s') && s'.disks == s.disks && s'.origin == s.origin && id in s'.handlers
    ensures var h := s.handlers[id];
            s'.handlers[id] == h.(phase := Asking(LossyMap.Lookup(s.disks[h.owner], h.key)))
  {
    hide CanGo, Reachable, LossyMap.Lookup, CallsFor;
    if s.handlers[id].owner == s.handlers[id].node {
      GoesOn(c, past, id, s, CacheGet(id));
      s' := Apply(c, s, CacheGet(id));
    } else {
      GoesOn(c, past, id, s, SendGet(id));
      var s1 := Apply(c, s, SendGet(id));
      GoesOn(c, past, id, s1, ServeGet(id));
      s' := Apply(c, s1, ServeGet(id));
    }
  }

  /** Without a secret no other server is any use: a handler of a key that lives there ends in a failure before it
      has asked the origin. */
  ghost predicate Stuck(s: State) {
    forall id :: id in s.handlers && s.handlers[id].owner != s.handlers[id].node ==>
      var p := s.handlers[id].phase; p.Waiting? || p.Locked? || p.Calling? || p.Failed?
  }

  lemma StepKeepsStuck(c: Config, s: State, step: Step)
    requires c.cluster.Some? && c.cluster.value.secret == [] && Stuck(s) && Enabled(c, s, step)
    ensures Stuck(Apply(c, s, step))
  {
    hide Apply, Enabled;
    var s' := Apply(c, s, step);
    forall id | id in s'.handlers && s'.handlers[id].owner != s'.handlers[id].node
      ensures var p := s'.handlers[id].phase; p.Waiting? || p.Locked? || p.Calling? || p.Failed?
    {
      if IsAbout(step, id) {
        SubjectIsStuck(c, s, step);
      } else {
        OthersStay(c, s, step, id);
      }
    }
  }

  lemma SubjectIsStuck(c: Config, s: State, step: Step)
    requires c.cluster.Some? && c.cluster.value.secret == [] && Stuck(s) && Enabled(c, s, step)
    requires !step.Evict? && !step.OriginChanges? && step.id in Apply(c, s, step).handlers
    requires var h' := Apply(c, s, step).handlers[step.id]; h'.owner != h'.node
    ensures var p := Apply(c, s, step).handlers[step.id].phase; p.Waiting? || p.Locked? || p.Calling? || p.Failed?
  {
    if IsEarly(step) {
      hide Decision, LossyMap.Apply, LossyMap.Lookup, Owns, CallsFor, Kept, Current, IfNoneMatch, Given;
    } else {
      hide Apply, Enabled;
      LateSteps(c, s, step);
    }
  }

  lemma {:induction false} NoSecretNoRemoteCache(c: Config, steps: seq<Step>)
    requires c.cluster.Some? && c.cluster.value.secret == [] && ValidRun(c, steps)
    ensures Stuck(Run(c, steps))
    decreases |steps|
  {
    hide Apply, Enabled;
    if steps != [] {
      NoSecretNoRemoteCache(c, steps[..|steps| - 1]);
      hide Stuck;
      StepKeepsStuck(c, Run(c, steps[..|steps| - 1]), steps[|steps| - 1]);
    }
  }

  /** A refresh can break off anywhere: the client takes only part of a chunk, and the Put fails. */
  lemma RefreshCanBreakOff(c: Config, past: seq<Step>, id: Id, n: nat, lost: set<Key>) returns (more: seq<Step>)
    requires ValidRun(c, past) && id in Run(c, past).handlers && Run(c, past).handlers[id].phase.Deciding?
    requires var h := Run(c, past).handlers[id];
             h.phase.x.resp.status == 200 && MayStore(h.req, h.phase.x.resp) && n < |h.phase.x.resp.body|
    ensures Own(more, id) && ValidRun(c, past + more)
    ensures var h, s' := Run(c, past).handlers[id], Run(c, past + more);
            && id in s'.handlers && s'.handlers[id] == h.(phase := StoreFailed(h.phase.x, h.phase.x.resp.body[..n]))
            && h.owner in s'.disks
  {
    hide CanGo, Run, ValidRun, MayStore;
    Starts(c, past, id);
    RunKeepsServed(c, past);
    var s := Run(c, past);
    var x := s.handlers[id].phase.x;
    GoesOn(c, past, id, s, Decide(id));
    DecideExactly(c, s, id);
    var s1 := Apply(c, s, Decide(id));
    assert s1.disks == s.disks && s1.handlers[id] == s.handlers[id].(phase := Refreshing(x, 0, [], [], Idle));
    var s2 := WritesPart(c, past, id, s1, n);
    GoesOn(c, past, id, s2, PutFails(id, lost));
    more := TheWay(c, past, id, Apply(c, s2, PutFails(id, lost)));
  }

  lemma WritesPart(c: Config, past: seq<Step>, id: Id, s: State, n: nat) returns (s': State)
    requires CanGo(c, past, id, s) && id in s.handlers && s.handlers[id].phase.Refreshing?
    requires s.handlers[id].phase == Refreshing(s.handlers[id].phase.x, 0, [], [], Idle)
    requires n < |s.handlers[id].phase.x.resp.body|
    ensures CanGo(c, past, id, s') && s'.disks == s.disks && id in s'.handlers
    ensures var x := s.handlers[id].phase.x;
            var part := x.resp.body[..n];
            s'.handlers[id] == s.handlers[id].(phase := Refreshing(x, |x.resp.body|, part, part, Broken))
  {
    hide CanGo;
    var body := s.handlers[id].phase.x.resp.body;
    assert body[0..|body|] == body && [] + body[..n] == body[..n];
    GoesOn(c, past, id, s, Take(id, |body|));
    var s1 := Apply(c, s, Take(id, |body|));
    GoesOn(c, past, id, s1, WriteClient(id, n));
    var s2 := Apply(c, s1, WriteClient(id, n));
    GoesOn(c, past, id, s2, Hand(id));
    s' := Apply(c, s2, Hand(id));
  }

  /** What can go wrong can go wrong wherever it can. */
  lemma AnythingCanFail(c: Config, s: State, id: Id, lost: set<Key>)
    requires id in s.handlers
    ensures var p := s.handlers[id].phase;
            && (p.Locked? || p.Calling? || p.Asking? ==> Enabled(c, s, Fail(id)))
            && ((p.Refreshing? || p.Abandoned?) && s.handlers[id].owner in s.disks ==> Enabled(c, s, PutFails(id, lost)))
            && (p.Serving? ==> Enabled(c, s, CopyFails(id)))
  {
  }

  /** Requests arrive on any server, entries get lost and the origin changes at any time. */
  lemma AnythingCanHappen(c: Config, s: State, id: Id, node: Node, key: Key, req: Request, version: Version)
    ensures id !in s.handlers && node in s.disks ==> Enabled(c, s, Arrive(id, node, key, req))
    ensures forall lost :: node in s.disks ==> Enabled(c, s, Evict(node, lost))
    ensures Enabled(c, s, OriginChanges(key, version))
  {
  }
}
