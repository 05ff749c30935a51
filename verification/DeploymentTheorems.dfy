/** What holds of every run of the deployment, because each is a run of `ProxyModel`. */
module DeploymentTheorems {
  import opened CacheTypes
  import opened StoragePolicy
  import opened Rendezvous
  import opened Deployment
  import opened DeploymentRuns
  import opened DeploymentSteps
  import opened DeploymentDisks
  import ProxyTheorems
  import ClusterTheorems
  import Freshness
  import LossyMap
  import DiskSize
  import P = ProxyModel
  import PR = ProxyRuns
  import D = DiskModel
  import DiskRuns
  import Eviction

  /** A step changes at most one disk, by one step of that disk. */
  lemma OneDiskMoves(c: P.Config, s: State, step: Step) returns (move: Option<(Node, D.Step)>)
    requires DisksOk(s) && Enabled(c, s, step)
    ensures move.None? ==> Apply(c, s, step).disks == s.disks
    ensures move.Some? ==>
              var (n, dstep) := move.value;
              && n in s.disks && D.WellFormed(s.disks[n]) && D.Enabled(s.disks[n], dstep)
              && Apply(c, s, step).disks == s.disks[n := D.Apply(s.disks[n], dstep)]
  {
    hide D.WellFormed, D.Apply, D.AcceptOutcome, Decision, Proceed, Finish, Active, EndPut;
    move := if step.Plain? then None else OnDisk(s, step);
    if step.Plain? {
      PlainKeepsDisks(c, s, step.step);
    } else if move.Some? {
      WellFormedAt(s, move.value.0);
    }
  }

  lemma PlainKeepsDisks(c: P.Config, s: State, p: P.Step)
    requires PlainEnabled(c, s, p)
    ensures ApplyPlain(c, s, p).disks == s.disks
  {
    hide Decision, P.CallsFor, P.Owns;
  }

  lemma ApplyKeepsDisks(c: P.Config, s: State, step: Step)
    requires DisksOk(s) && Enabled(c, s, step)
    ensures DisksOk(Apply(c, s, step))
  {
    hide D.WellFormed, D.Apply, D.Enabled, Apply, Enabled;
    var move := OneDiskMoves(c, s, step);
    if move.Some? {
      D.ApplyKeepsWellFormed(s.disks[move.value.0], move.value.1);
    }
  }

  ghost predicate ValidRun(c: P.Config, limit: nat, steps: seq<Step>)
    requires limit < Eviction.TWO_64
    decreases |steps|, 0
  {
    steps == [] ||
    (var init := steps[..|steps| - 1];
     ValidRun(c, limit, init) && Enabled(c, Run(c, limit, init), steps[|steps| - 1]))
  }

  ghost function Run(c: P.Config, limit: nat, steps: seq<Step>): (s: State)
    requires limit < Eviction.TWO_64 && ValidRun(c, limit, steps)
    ensures DisksOk(s)
    decreases |steps|, 1
  {
    if steps == [] then Init(c, limit)
    else
      var before := Run(c, limit, steps[..|steps| - 1]);
      ApplyKeepsDisks(c, before, steps[|steps| - 1]);
      Apply(c, before, steps[|steps| - 1])
  }

  /** The run of `ProxyModel` that a run of the deployment is. */
  ghost function Meanings(c: P.Config, limit: nat, steps: seq<Step>): seq<P.Step>
    requires limit < Eviction.TWO_64 && ValidRun(c, limit, steps)
  {
    if steps == [] then []
    else
      var init := steps[..|steps| - 1];
      var m := Meaning(c, Run(c, limit, init), steps[|steps| - 1]);
      if m.None? then Meanings(c, limit, init) else Meanings(c, limit, init) + [m.value]
  }

  lemma StartsTheSame(c: P.Config, limit: nat)
    requires limit < Eviction.TWO_64
    ensures Inv(Init(c, limit)) && Housed(Init(c, limit)) && Abs(Init(c, limit)) == P.Init(c)
  {
    var s := Init(c, limit);
    assert DiskRuns.Visible(D.Empty(limit)) == map[];
    assert ContentsOf(s) == P.Init(c).disks;
    AbsInParts(s);
  }

  lemma OneMore(c: P.Config, steps: seq<P.Step>, step: P.Step)
    requires PR.ValidRun(c, steps) && P.Enabled(c, PR.Run(c, steps), step)
    ensures PR.ValidRun(c, steps + [step]) && PR.Run(c, steps + [step]) == P.Apply(c, PR.Run(c, steps), step)
  {
    hide P.Apply, P.Enabled;
    assert (steps + [step])[..|steps|] == steps;
  }

  /** Refinement: every run of handlers over real disks is, step by step, a run of `ProxyModel`, in which the
      disks are lossy maps. */
  lemma {:induction false} RunSimulates(c: P.Config, limit: nat, steps: seq<Step>)
    requires limit < Eviction.TWO_64 && ValidRun(c, limit, steps)
    ensures Inv(Run(c, limit, steps)) && Housed(Run(c, limit, steps))
    ensures PR.ValidRun(c, Meanings(c, limit, steps))
    ensures PR.Run(c, Meanings(c, limit, steps)) == Abs(Run(c, limit, steps))
    decreases |steps|
  {
    hide Inv, Housed, Abs, Apply, Enabled, Meaning, P.Apply, P.Enabled, PR.Inv, PR.Run, PR.ValidRun, Init;
    if steps == [] {
      StartsTheSame(c, limit);
      NoStepsYet(c);
    } else {
      var init, last := steps[..|steps| - 1], steps[|steps| - 1];
      RunSimulates(c, limit, init);
      PR.RunKeepsInv(c, Meanings(c, limit, init));
      var s := Run(c, limit, init);
      StepSimulates(c, s, last);
      if Meaning(c, s, last).Some? {
        OneMore(c, Meanings(c, limit, init), Meaning(c, s, last).value);
      }
    }
  }

  lemma NoStepsYet(c: P.Config)
    ensures PR.ValidRun(c, []) && PR.Run(c, []) == P.Init(c)
  {
  }

  /** Hit coherence, down to the disks: a hit that ends without a read error has sent the whole blob of one
      accepted Put of the key, whose ETag went upstream unless the client brought its own precondition. */
  lemma DeployedHitCoherence(c: P.Config, limit: nat, steps: seq<Step>, id: Id)
    requires limit < Eviction.TWO_64 && ValidRun(c, limit, steps) && id in Run(c, limit, steps).workers
    requires var t := Run(c, limit, steps).workers[id].stage; t.Hit? && !t.broken
    ensures var s := Run(c, limit, steps);
            var w := s.workers[id];
            exists i :: 0 <= i < |s.puts| && s.puts[i].owner == w.owner && s.puts[i].key == w.key
              && w.stage.sent == s.puts[i].entry.blob
              && w.stage.y.ifNoneMatch == P.IfNoneMatch(Some(s.puts[i].entry), w.req)
  {
    hide Run, ValidRun, Meanings, Inv, Housed, Abs, PR.Run, PR.ValidRun, Found;
    RunSimulates(c, limit, steps);
    var s := Run(c, limit, steps);
    Seen(s, id);
    AbsFields(s);
    ProxyTheorems.HitCoherence(c, Meanings(c, limit, steps), id);
  }

  /** Storage policy and placement, down to the directories: whatever file a directory names holds the whole body
      of a response that the policy let be stored, and in a cluster it is on its owner's disk. */
  lemma DeployedStorage(c: P.Config, limit: nat, steps: seq<Step>, n: Node, k: Key)
    requires limit < Eviction.TWO_64 && ValidRun(c, limit, steps) && n in Run(c, limit, steps).disks
    requires k in DiskRuns.Visible(Run(c, limit, steps).disks[n])
    ensures var s := Run(c, limit, steps);
            && (ClusterTheorems.Clustered(c) ==> n == ClusterTheorems.Home(c, k))
            && exists i :: 0 <= i < |s.puts| && s.puts[i].owner == n && s.puts[i].key == k
                 && MayStore(s.puts[i].req, s.puts[i].resp)
                 && DiskRuns.Visible(s.disks[n])[k] == P.Kept(s.puts[i].resp.etag, s.puts[i].resp.body)
  {
    hide Run, ValidRun, Meanings, Inv, Abs, PR.Run, PR.ValidRun, MayStore, P.Kept, DiskRuns.Visible;
    hide ClusterTheorems.Clustered, ClusterTheorems.Home;
    RunSimulates(c, limit, steps);
    var s := Run(c, limit, steps);
    ContentsAt(s, n);
    AbsFields(s);
    ProxyTheorems.OnlyStorableIsStored(c, Meanings(c, limit, steps), n, k);
    if ClusterTheorems.Clustered(c) {
      ClusterTheorems.Placement(c, Meanings(c, limit, steps), n, k);
    }
  }

  /** Miss conservation, down to the disks: client and Put are level whenever the Put can look, a stored response
      is whole with the client, the upstream and an accepted Put, and one whose Put fails was sent as a prefix. */
  lemma DeployedMissConservation(c: P.Config, limit: nat, steps: seq<Step>, id: Id)
    requires limit < Eviction.TWO_64 && ValidRun(c, limit, steps) && id in Run(c, limit, steps).workers
    ensures var s := Run(c, limit, steps);
            var w := s.workers[id];
            match w.stage
            case Refreshing(y, at, sent, read, tee, _) =>
              && read <= sent <= y.resp.body && |sent| <= at <= |y.resp.body|
              && (tee.Idle? ==> read == sent == y.resp.body[..at])
            case Abandoned(y, sent, _) => sent == y.resp.body && w.owner != w.node
            case Stored(y, sent) =>
              sent == y.resp.body && PR.CameFrom(s.puts, w.owner, w.key, P.Kept(y.resp.etag, sent))
            case StoreFailed(y, sent) => sent <= y.resp.body
            case _ => true
  {
    hide Run, ValidRun, Meanings, Inv, Housed, Abs, PR.Run, PR.ValidRun, Found, PR.CameFrom, P.Kept;
    RunSimulates(c, limit, steps);
    var s := Run(c, limit, steps);
    Seen(s, id);
    AbsFields(s);
    ProxyTheorems.MissConservation(c, Meanings(c, limit, steps), id);
  }

  /** Per-key exclusion, of the handlers of one server. */
  lemma DeployedExclusion(c: P.Config, limit: nat, steps: seq<Step>, id: Id, id': Id)
    requires limit < Eviction.TWO_64 && ValidRun(c, limit, steps)
    requires var s := Run(c, limit, steps);
             && id in s.workers && id' in s.workers && Active(s.workers[id].stage) && Active(s.workers[id'].stage)
             && s.workers[id].node == s.workers[id'].node && s.workers[id].key == s.workers[id'].key
    ensures id == id'
  {
    hide Run, ValidRun, Meanings, Inv, Housed, Abs, PR.Run, PR.ValidRun, Found;
    RunSimulates(c, limit, steps);
    Seen(Run(c, limit, steps), id);
    Seen(Run(c, limit, steps), id');
    ProxyTheorems.Exclusion(c, Meanings(c, limit, steps), id, id');
  }

  /** Freshness, down to the disks: with an honest origin, a hit on the entry of an accepted Put that is safe for
      the request has streamed the body that the origin had when it answered. */
  lemma DeployedFreshness(c: P.Config, limit: nat, bodies: Freshness.Bodies, steps: seq<Step>, id: Id, i: nat)
    requires limit < Eviction.TWO_64 && ValidRun(c, limit, steps) && PR.ValidRun(c, Meanings(c, limit, steps))
    requires Freshness.HonestRun(c, bodies, Meanings(c, limit, steps))
    requires var s := Run(c, limit, steps);
             && id in s.workers && s.workers[id].stage.Hit? && !s.workers[id].stage.broken && i < |s.puts|
             && var w := s.workers[id];
                && w.owner in s.disks && s.puts[i].owner == w.owner && s.puts[i].key == w.key
                && Found(s.disks[w.owner], w.stage.y.found) == Some(s.puts[i].entry)
                && Freshness.SafeToServe(s.puts[i].resp.etag, w.req)
    ensures var t := Run(c, limit, steps).workers[id].stage; t.sent == t.y.current.body
  {
    hide Run, ValidRun, Meanings, Inv, Housed, Abs, PR.Run, PR.ValidRun, Found, Freshness.HonestRun;
    hide Freshness.SafeToServe;
    RunSimulates(c, limit, steps);
    Seen(Run(c, limit, steps), id);
    AbsFields(Run(c, limit, steps));
    Freshness.HitsAreFresh(c, bodies, Meanings(c, limit, steps), id, i);
  }

  /** One cache: in a cluster, what the directory of a key's owner shows is, at any time, what one lossy map shows
      that took all the Puts, losses and Gets of all nodes in their order. */
  lemma DeployedRefinement(c: P.Config, limit: nat, steps: seq<Step>, k: Key)
    requires limit < Eviction.TWO_64 && ValidRun(c, limit, steps) && ClusterTheorems.Clustered(c)
    ensures PR.ValidRun(c, Meanings(c, limit, steps))
    ensures var s, home := Run(c, limit, steps), ClusterTheorems.Home(c, k);
            var events := ClusterTheorems.Meanings(c, Meanings(c, limit, steps));
            && LossyMap.Valid(map[], events)
            && LossyMap.Lookup(LossyMap.Run(map[], events), k)
               == if home in s.disks then LossyMap.Lookup(DiskRuns.Visible(s.disks[home]), k) else None
  {
    hide Run, ValidRun, Meanings, Inv, Abs, PR.Run, PR.ValidRun, DiskRuns.Visible, ClusterTheorems.Clustered;
    hide ClusterTheorems.Home, ClusterTheorems.Meanings, ClusterTheorems.Whole, LossyMap.Run, LossyMap.Lookup;
    RunSimulates(c, limit, steps);
    var s := Run(c, limit, steps);
    ClusterTheorems.RunRefines(c, Meanings(c, limit, steps));
    ClusterTheorems.WholeLookup(c, Abs(s), k);
    AbsFields(s);
    if ClusterTheorems.Home(c, k) in s.disks {
      ContentsAt(s, ClusterTheorems.Home(c, k));
    }
  }

  /** Every disk has the limit, and respects it. */
  ghost predicate Bounded(s: State, limit: nat)
    requires DisksOk(s)
  {
    forall n :: n in s.disks ==> s.disks[n].limit == limit && DiskSize.Used(s.disks[n]) <= limit
  }

  lemma StepKeepsBounded(c: P.Config, s: State, step: Step, limit: nat)
    requires limit <= Eviction.TWO_63 && DisksOk(s) && Bounded(s, limit) && Enabled(c, s, step)
    ensures DisksOk(Apply(c, s, step)) && Bounded(Apply(c, s, step), limit)
  {
    hide D.WellFormed, D.Apply, D.Enabled, Apply, Enabled, DiskSize.Used;
    ApplyKeepsDisks(c, s, step);
    var move := OneDiskMoves(c, s, step);
    if move.Some? {
      var (n, dstep) := move.value;
      D.ApplyKeepsWellFormed(s.disks[n], dstep);
      DiskSize.LimitIsFixed(s.disks[n], dstep);
      DiskSize.StepKeepsBound(s.disks[n], dstep);
    }
  }

  /** The size bound, on every disk of every run of the deployment. */
  lemma {:induction false} DeployedSizeBound(c: P.Config, limit: nat, steps: seq<Step>, n: Node)
    requires limit <= Eviction.TWO_63 && ValidRun(c, limit, steps) && n in Run(c, limit, steps).disks
    ensures DiskSize.Used(Run(c, limit, steps).disks[n]) <= limit
  {
    RunKeepsBounded(c, limit, steps);
  }

  lemma {:induction false} RunKeepsBounded(c: P.Config, limit: nat, steps: seq<Step>)
    requires limit <= Eviction.TWO_63 && ValidRun(c, limit, steps)
    ensures Bounded(Run(c, limit, steps), limit)
    decreases |steps|
  {
    if steps == [] {
      DiskSize.SizeBound(limit, []);
    } else {
      hide Apply, Enabled, Bounded;
      RunKeepsBounded(c, limit, steps[..|steps| - 1]);
      StepKeepsBounded(c, Run(c, limit, steps[..|steps| - 1]), steps[|steps| - 1], limit);
    }
  }
}
