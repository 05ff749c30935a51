/** A client that follows the redirect gets what it would have got from the hit branch. */
module DirectConnectRuns {
  import opened CacheTypes
  import opened StoragePolicy
  import opened Rendezvous
  import opened ProxyModel
  import opened ProxyRuns
  import opened ClusterTheorems
  import opened DirectConnect
  import opened Freshness
  import LossyMap
  import MetadataJson

  /** Where the redirect points, the token in its query and whether it hints that the proxy can be left out. */
  datatype Location = Location(node: Node, token: Token, hint: bool)

  ghost function Redirect(c: Config, h: Handler, now: int): Location
    requires Clustered(c)
  {
    Location(Home(c, h.key), GenerateToken(Some(c.cluster.value.secret), h.key, now).value,
             h.req.rule.Some? && h.req.rule.value.directConnectHeader)
  }

  /** Whether a step overwrites or removes a key on a node. */
  ghost predicate Touches(c: Config, s: State, step: Step, n: Node, k: Key)
    requires Enabled(c, s, step)
  {
    match step
    case PutAccepted(id, lost, _) => s.handlers[id].owner == n && (s.handlers[id].key == k || k in lost)
    case PutFails(id, lost) => s.handlers[id].owner == n && k in lost
    case Evict(node, lost) => node == n && k in lost
    case _ => false
  }

  ghost function LookupOn(s: State, n: Node, k: Key): Option<Entry> {
    if n in s.disks then LossyMap.Lookup(s.disks[n], k) else None
  }

  lemma UntouchedStays(c: Config, s: State, step: Step, n: Node, k: Key)
    requires Enabled(c, s, step) && !Touches(c, s, step, n, k)
    ensures LookupOn(Apply(c, s, step), n, k) == LookupOn(s, n, k)
  {
    hide Decision, Owns, Reachable, CallsFor, Kept;
    if !step.PutAccepted? && !step.PutFails? && !step.Evict? {
      OtherStepsKeepDisks(c, s, step);
      hide Apply;
    }
  }

  /** What a handler found in the cache, from when it looked. */
  function CachedOf(p: Phase): Option<Option<Entry>> {
    if p.Asking? then Some(p.cached)
    else if ExchangeOf(p).Some? then Some(ExchangeOf(p).value.cached)
    else None
  }

  /** The handler has looked, and what it found is still there. */
  ghost predicate StillThere(s: State, id: Id) {
    id in s.handlers &&
    var h := s.handlers[id];
    && !h.phase.Waiting? && !h.phase.Locked? && !h.phase.Calling?
    && (CachedOf(h.phase).Some? ==> CachedOf(h.phase).value == LookupOn(s, h.owner, h.key))
  }

  lemma SubjectKeepsWhatItFound(c: Config, s: State, step: Step)
    requires Enabled(c, s, step) && !step.Evict? && !step.OriginChanges? && StillThere(s, step.id)
    ensures step.id in Apply(c, s, step).handlers
    ensures var h, h' := s.handlers[step.id], Apply(c, s, step).handlers[step.id];
            && h'.owner == h.owner && h'.key == h.key && !h'.phase.Waiting? && !h'.phase.Locked? && !h'.phase.Calling?
            && (CachedOf(h'.phase).Some? ==> CachedOf(h'.phase) == CachedOf(h.phase))
  {
    LooksOnce(c, s, step);
    if step.Fetch? {
      FetchKeepsWhatItFound(c, s, step);
    } else {
      hide LookupOn, StillThere;
      ExchangeStays(c, s, step);
      hide Apply;
    }
  }

  lemma FetchKeepsWhatItFound(c: Config, s: State, step: Step)
    requires Enabled(c, s, step) && step.Fetch?
    ensures var h, h' := s.handlers[step.id], Apply(c, s, step).handlers[step.id];
            h'.phase.Deciding? && CachedOf(h'.phase) == CachedOf(h.phase)
  {
    hide IfNoneMatch, Current;
  }

  /** A handler that has looked keeps its owner and never looks again. */
  lemma LooksOnce(c: Config, s: State, step: Step)
    requires Enabled(c, s, step) && !step.Evict? && !step.OriginChanges? && step.id in s.handlers
    requires var p := s.handlers[step.id].phase; !p.Waiting? && !p.Locked? && !p.Calling?
    ensures step.id in Apply(c, s, step).handlers
    ensures var h, h' := s.handlers[step.id], Apply(c, s, step).handlers[step.id];
            && h'.owner == h.owner && h'.key == h.key
            && !h'.phase.Waiting? && !h'.phase.Locked? && !h'.phase.Calling? && !h'.phase.Asking?
  {
    if step.PutFails? || step.PutAccepted? {
      PutsLookNoMore(c, s, step);
    } else {
      hide MayStore, Owns, Reachable, LossyMap.Apply, LossyMap.Lookup, CallsFor, Kept, Current, IfNoneMatch, EndPut, Given;
    }
  }

  lemma PutsLookNoMore(c: Config, s: State, step: Step)
    requires Enabled(c, s, step) && (step.PutFails? || step.PutAccepted?)
    ensures step.id in Apply(c, s, step).handlers
    ensures var h, h' := s.handlers[step.id], Apply(c, s, step).handlers[step.id];
            h'.owner == h.owner && h'.key == h.key && (h'.phase.Stored? || h'.phase.StoreFailed?)
  {
    hide Owns, Reachable, LossyMap.Apply, Kept, Given;
  }

  lemma StepKeepsThere(c: Config, s: State, step: Step, id: Id)
    requires Enabled(c, s, step) && StillThere(s, id)
    requires !Touches(c, s, step, s.handlers[id].owner, s.handlers[id].key)
    ensures StillThere(Apply(c, s, step), id)
    ensures var h, h' := s.handlers[id], Apply(c, s, step).handlers[id]; h'.owner == h.owner && h'.key == h.key
  {
    hide Apply, Enabled, LookupOn;
    UntouchedStays(c, s, step, s.handlers[id].owner, s.handlers[id].key);
    if IsAbout(step, id) {
      SubjectKeepsWhatItFound(c, s, step);
    } else {
      OthersStay(c, s, step, id);
    }
  }

  /** The step in which a handler finds out what the cache has: on its own disk or on the owner's. */
  predicate Looks(step: Step, id: Id) {
    step == CacheGet(id) || step == ServeGet(id)
  }

  lemma LookingFinds(c: Config, s: State, step: Step, id: Id)
    requires Enabled(c, s, step) && Looks(step, id)
    ensures StillThere(Apply(c, s, step), id)
    ensures var h, h' := s.handlers[id], Apply(c, s, step).handlers[id]; h'.owner == h.owner && h'.key == h.key
  {
  }

  /** After the i-th step, in which handler `id` looked into the cache, nothing touches what it found. */
  ghost predicate Undisturbed(c: Config, steps: seq<Step>, i: nat, id: Id)
    requires ValidRun(c, steps)
    decreases |steps|
  {
    i < |steps| && ValidRun(c, steps[..|steps| - 1]) &&
    var init, last := steps[..|steps| - 1], steps[|steps| - 1];
    if i == |steps| - 1 then Looks(last, id)
    else
      && Undisturbed(c, init, i, id)
      && id in Run(c, init).handlers
      && var h := Run(c, init).handlers[id]; !Touches(c, Run(c, init), last, h.owner, h.key)
  }

  lemma {:induction false} UndisturbedStays(c: Config, steps: seq<Step>, i: nat, id: Id)
    requires ValidRun(c, steps) && Undisturbed(c, steps, i, id)
    ensures StillThere(Run(c, steps), id)
    decreases |steps|
  {
    hide Apply, Enabled, StillThere, HandlersOk, Touches, DisksOk, RecordsOk, LocksOk;
    var init, last := steps[..|steps| - 1], steps[|steps| - 1];
    if i == |init| {
      LookingFinds(c, Run(c, init), last, id);
    } else {
      UndisturbedStays(c, init, i, id);
      StepKeepsThere(c, Run(c, init), last, id);
    }
  }

  /** Direct connect equals a proxied hit: if nothing overwrites or removes the entry after the handler has
      looked, following its redirect gives the blob that the hit branch sends, at exactly the times at which
      the token is good, and 401 at all others. */
  lemma FollowingEqualsHit(c: Config, steps: seq<Step>, i: nat, id: Id, issued: int, now: int)
    requires Clustered(c) && ValidRun(c, steps) && Undisturbed(c, steps, i, id)
    requires id in Run(c, steps).handlers && Run(c, steps).handlers[id].phase.Redirected?
    requires MetadataJson.ValidUtf8(Run(c, steps).handlers[id].key)
    ensures var s := Run(c, steps);
            var h := s.handlers[id];
            var to := Redirect(c, h, issued);
            && to.node == h.owner && to.node in s.disks && h.phase.x.cached.Some?
            && (to.hint <==> h.req.rule.Some? && h.req.rule.value.directConnectHeader)
            && Serve(Some(c.cluster.value.secret), s.disks[to.node], Some(to.token), now)
               == if InWindow(issued, now) then Served(h.phase.x.cached.value.blob) else Status(401)
  {
    hide Run, ValidRun, Undisturbed, RecordsOk, DisksOk, LocksOk, HandlersOk, Home, PerformAuth, GenerateToken;
    RunKeepsInv(c, steps);
    UndisturbedStays(c, steps, i, id);
    var s := Run(c, steps);
    var h := s.handlers[id];
    OwnerIsHome(c, s, id);
    RedirectedHasEntry(c, s, id);
    AcceptedExactly(c.cluster.value.secret, h.key, issued, Some(c.cluster.value.secret), now);
    MetadataJson.CoerceLengthens(h.key);
    hide Clustered;
    TokenIsIssued(c.cluster.value.secret, h.key, issued);
  }

  lemma RedirectedHasEntry(c: Config, s: State, id: Id)
    requires HandlersOk(c, s) && id in s.handlers && s.handlers[id].phase.Redirected?
    ensures s.handlers[id].phase.x.cached.Some?
  {
    assert HandlerOk(c, s.puts, s.handlers[id]);
  }

  lemma TokenIsIssued(secret: Text, key: Key, now: int)
    ensures GenerateToken(Some(secret), key, now).Some?
  {
  }
}
