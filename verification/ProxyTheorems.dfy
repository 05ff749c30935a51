/** Coherence, storage policy, conservation and exclusion, for every run of the deployment. */
module ProxyTheorems {
  import opened CacheTypes
  import opened StoragePolicy
  import opened Rendezvous
  import opened ProxyModel
  import opened ProxyRuns
  import LossyMap

  /** Hit coherence: a hit that ends without a read error has sent the whole blob of one accepted Put for the
      key, and the precondition that went upstream was the client's own or the ETag of that same Put. */
  lemma HitCoherence(c: Config, steps: seq<Step>, id: Id)
    requires ValidRun(c, steps) && id in Run(c, steps).handlers
    requires var p := Run(c, steps).handlers[id].phase; p.Hit? && !p.broken
    ensures var s := Run(c, steps);
            var h := s.handlers[id];
            var x := h.phase.x;
            exists i :: 0 <= i < |s.puts| && s.puts[i].owner == h.owner && s.puts[i].key == h.key
              && h.phase.sent == s.puts[i].entry.blob
              && x.ifNoneMatch == IfNoneMatch(Some(s.puts[i].entry), h.req)
  {
    RunKeepsInv(c, steps);
    var s := Run(c, steps);
    hide Run, ValidRun, RecordsOk, DisksOk, LocksOk, Owns;
    var h := s.handlers[id];
    assert HandlerOk(c, s.puts, h);
    assert CameFrom(s.puts, h.owner, h.key, h.phase.x.cached.value);
  }

  /** A handler can miss a read error only of another server's disk, and only past the first buffer: it has then
      sent a proper, non-empty prefix. */
  lemma BrokenHitsAreRemote(c: Config, steps: seq<Step>, id: Id)
    requires ValidRun(c, steps) && id in Run(c, steps).handlers
    requires var p := Run(c, steps).handlers[id].phase; p.Hit? && p.broken
    ensures var h := Run(c, steps).handlers[id];
            && h.owner != h.node && h.phase.x.cached.Some? && h.phase.sent <= h.phase.x.cached.value.blob
            && 0 < |h.phase.sent| < |h.phase.x.cached.value.blob|
  {
    RunKeepsInv(c, steps);
    assert HandlerOk(c, Run(c, steps).puts, Run(c, steps).handlers[id]);
  }

  /** A handler that sees an error while it serves has answered 200 before and has sent a prefix of the entry. */
  lemma CutOffIsPrefix(c: Config, steps: seq<Step>, id: Id)
    requires ValidRun(c, steps) && id in Run(c, steps).handlers && Run(c, steps).handlers[id].phase.CutOff?
    ensures var h := Run(c, steps).handlers[id];
            && h.phase.x.cached.Some? && CameFrom(Run(c, steps).puts, h.owner, h.key, h.phase.x.cached.value)
            && h.phase.sent <= h.phase.x.cached.value.blob
  {
    RunKeepsInv(c, steps);
    assert HandlerOk(c, Run(c, steps).puts, Run(c, steps).handlers[id]);
  }

  /** Storage policy: whatever any disk shows at any time is the whole body of a response to a request for that
      key, which the policy let be stored. */
  lemma OnlyStorableIsStored(c: Config, steps: seq<Step>, n: Node, k: Key)
    requires ValidRun(c, steps) && n in Run(c, steps).disks && k in Run(c, steps).disks[n]
    ensures var s := Run(c, steps);
            exists i :: 0 <= i < |s.puts| && s.puts[i].owner == n && s.puts[i].key == k
              && MayStore(s.puts[i].req, s.puts[i].resp)
              && s.disks[n][k] == Kept(s.puts[i].resp.etag, s.puts[i].resp.body)
  {
    RunKeepsInv(c, steps);
    var s := Run(c, steps);
    hide Run, ValidRun, HandlersOk, LocksOk, MayStore;
    assert DiskOk(s.puts, n, s.disks[n]);
    LatestCameFrom(s.puts, n, k);
    var i :| 0 <= i < |s.puts| && s.puts[i].owner == n && s.puts[i].key == k && s.puts[i].entry == s.disks[n][k];
    assert RecordOk(c, s.puts[i]);
  }

  /** Miss conservation: while an entry is refreshed the client is ahead of the Put by no more than the chunk in
      hand, and level with it whenever the Put can look; both have a prefix of the upstream's body. Once the Put
      has succeeded the client, the upstream and an accepted Put agree on the whole body; if it fails, the
      client has got a prefix. */
  lemma MissConservation(c: Config, steps: seq<Step>, id: Id)
    requires ValidRun(c, steps) && id in Run(c, steps).handlers
    ensures var s := Run(c, steps);
            var h := s.handlers[id];
            match h.phase
            case Refreshing(x, at, sent, read, tee) =>
              && read <= sent <= x.resp.body && |sent| <= at <= |x.resp.body|
              && (tee.Idle? ==> read == sent == x.resp.body[..at])
              && (tee.Broken? ==> read == sent && |sent| < at)
              && (tee.Written? ==> |sent| == |read| + tee.n)
            case Stored(x, sent) =>
              sent == x.resp.body && CameFrom(s.puts, h.owner, h.key, Kept(x.resp.etag, sent))
            case Abandoned(x, sent) => sent == x.resp.body && h.owner != h.node
            case StoreFailed(x, sent) => sent <= x.resp.body
            case _ => true
  {
    RunKeepsInv(c, steps);
    hide Run, ValidRun, Owns, MayStore;
    var h := Run(c, steps).handlers[id];
    assert HandlerOk(c, Run(c, steps).puts, h);
    if h.phase.Refreshing? {
      SentIsPrefix(h.phase.x.resp.body, h.phase.at, h.phase.sent, h.phase.read, h.phase.tee);
    }
  }

  /** After a short write to the client the Put can only fail. */
  lemma ShortWritesFail(c: Config, s: State, step: Step, id: Id)
    requires Enabled(c, s, step) && IsAbout(step, id) && id in s.handlers
    requires s.handlers[id].phase.Refreshing? && s.handlers[id].phase.tee.Broken?
    ensures step.PutFails?
  {
  }

  /** Per-key exclusion: on one server no two handlers for a key are between lock and return. */
  lemma Exclusion(c: Config, steps: seq<Step>, id: Id, id': Id)
    requires ValidRun(c, steps) && id in Run(c, steps).handlers && id' in Run(c, steps).handlers
    requires var h, h' := Run(c, steps).handlers[id], Run(c, steps).handlers[id'];
             Active(h.phase) && Active(h'.phase) && h.node == h'.node && h.key == h'.key
    ensures id == id'
  {
    RunKeepsInv(c, steps);
  }

  /** On a server without a cluster, a handler that has read the cache and not yet returned knows the latest
      entry stored for its key, unless that entry is gone from the disk. */
  ghost predicate KnowsLatest(s: State) {
    forall id :: id in s.handlers ==> KnowsLatestAt(s, s.handlers[id])
  }

  ghost predicate KnowsLatestAt(s: State, h: Handler) {
    h.owner in s.disks && h.key in s.disks[h.owner] ==>
      && (h.phase.Asking? ==> h.phase.cached == Some(s.disks[h.owner][h.key]))
      && (h.phase.Deciding? ==> h.phase.x.cached == Some(s.disks[h.owner][h.key]))
  }

  /** A step shows on a disk only what was there before, except for the key of an accepted Put. */
  lemma DisksOnlyLose(c: Config, s: State, step: Step, n: Node, k: Key)
    requires Enabled(c, s, step) && n in Apply(c, s, step).disks && k in Apply(c, s, step).disks[n]
    requires step.PutAccepted? ==> (n, k) != (s.handlers[step.id].owner, s.handlers[step.id].key)
    ensures n in s.disks && k in s.disks[n] && Apply(c, s, step).disks[n][k] == s.disks[n][k]
  {
    hide Decision, Owns, Reachable, CallsFor, Kept;
    if !step.PutAccepted? && !step.PutFails? && !step.Evict? {
      OtherStepsKeepDisks(c, s, step);
      hide Apply;
    }
  }

  /** Without a cluster, nobody else stores an entry under the key of a handler that holds its lock. */
  lemma OthersStoreElsewhere(c: Config, s: State, step: Step, id: Id)
    requires c.cluster.None? && Inv(c, s) && Enabled(c, s, step) && step.PutAccepted?
    requires id in s.handlers && id != step.id && Active(s.handlers[id].phase)
    ensures (s.handlers[id].owner, s.handlers[id].key) != (s.handlers[step.id].owner, s.handlers[step.id].key)
  {
    hide RecordsOk, DisksOk, MayStore, PhaseOk;
    assert HandlerOk(c, s.puts, s.handlers[id]) && HandlerOk(c, s.puts, s.handlers[step.id]);
  }

  lemma OtherHandlersKnow(c: Config, s: State, step: Step, id: Id)
    requires c.cluster.None? && Inv(c, s) && KnowsLatest(s) && Enabled(c, s, step)
    requires id in s.handlers && !IsAbout(step, id) && HandlersOk(c, s)
    requires id in Apply(c, s, step).handlers && Apply(c, s, step).handlers[id] == s.handlers[id]
    ensures KnowsLatestAt(Apply(c, s, step), s.handlers[id])
  {
    var h := s.handlers[id];
    var s' := Apply(c, s, step);
    assert KnowsLatestAt(s, h);
    hide Apply, Enabled, Inv;
    if (h.phase.Asking? || h.phase.Deciding?) && h.owner in s'.disks && h.key in s'.disks[h.owner] {
      if step.PutAccepted? {
        OthersStoreElsewhere(c, s, step, id);
      }
      DisksOnlyLose(c, s, step, h.owner, h.key);
    }
  }

  lemma SubjectKnows(c: Config, s: State, step: Step)
    requires KnowsLatest(s) && Enabled(c, s, step) && !step.Evict? && !step.OriginChanges?
    ensures step.id in Apply(c, s, step).handlers
    ensures KnowsLatestAt(Apply(c, s, step), Apply(c, s, step).handlers[step.id])
  {
    if IsEarly(step) {
      hide Owns, Reachable, LossyMap.Apply, CallsFor, Kept, Decision;
      if step.Fetch? {
        assert KnowsLatestAt(s, s.handlers[step.id]);
      }
    } else {
      hide Apply, Enabled;
      LateSteps(c, s, step);
    }
  }

  lemma StepKeepsKnowing(c: Config, s: State, step: Step)
    requires c.cluster.None? && Inv(c, s) && KnowsLatest(s) && Enabled(c, s, step)
    ensures KnowsLatest(Apply(c, s, step))
  {
    var s' := Apply(c, s, step);
    hide Apply, Enabled, KnowsLatestAt;
    forall id | id in s'.handlers ensures KnowsLatestAt(s', s'.handlers[id]) {
      if IsAbout(step, id) {
        SubjectKnows(c, s, step);
      } else {
        OthersStayOk(c, s, step, id);
        OtherHandlersKnow(c, s, step, id);
      }
    }
  }

  lemma {:induction false} RunKeepsKnowing(c: Config, steps: seq<Step>)
    requires c.cluster.None? && ValidRun(c, steps)
    ensures KnowsLatest(Run(c, steps))
    decreases |steps|
  {
    hide Inv, Apply, Enabled, KnowsLatest;
    if steps == [] {
      NobodyKnows(c);
    } else {
      RunKeepsInv(c, steps[..|steps| - 1]);
      RunKeepsKnowing(c, steps[..|steps| - 1]);
      StepKeepsKnowing(c, Run(c, steps[..|steps| - 1]), steps[|steps| - 1]);
    }
  }

  lemma NobodyKnows(c: Config)
    ensures KnowsLatest(Init(c))
  {
  }

  /** So a request without a precondition of its own goes upstream with the ETag of the latest accepted Put of
      its key, unless that entry was lost meanwhile or has no ETag. */
  lemma SendsTheLatestETag(c: Config, steps: seq<Step>, id: Id)
    requires c.cluster.None? && ValidRun(c, steps) && id in Run(c, steps).handlers
    requires var h := Run(c, steps).handlers[id];
             h.phase.Deciding? && h.req.ifNoneMatch.None? && h.node in Run(c, steps).disks
             && h.key in Run(c, steps).disks[h.node]
    ensures var s := Run(c, steps);
            var h := s.handlers[id];
            var latest := LatestPut(s.puts, h.node, h.key);
            latest.Some? && (latest.value.meta.etag != [] ==> h.phase.x.ifNoneMatch == Some(latest.value.meta.etag))
  {
    RunKeepsInv(c, steps);
    RunKeepsKnowing(c, steps);
    var s := Run(c, steps);
    hide Run, ValidRun, RecordsOk, LocksOk;
    assert HandlerOk(c, s.puts, s.handlers[id]) && KnowsLatestAt(s, s.handlers[id]);
    assert DiskOk(s.puts, s.handlers[id].node, s.disks[s.handlers[id].node]);
  }
}
