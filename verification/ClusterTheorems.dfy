/** A cluster is one cache: with shared settings and no ties every entry lives on the one node that owns its key,
    and all nodes together refine a single lossy map, whichever of them serves a request. */
module ClusterTheorems {
  import opened CacheTypes
  import opened Rendezvous
  import opened ProxyModel
  import opened ProxyRuns
  import DiskRuns
  import LossyMap

  ghost predicate Clustered(c: Config) {
    && c.cluster.Some? && ValidConfig(c)
    && forall key :: NoTies(c.cluster.value.score, c.cluster.value.nodes, key)
  }

  /** The node that owns a key. */
  ghost function Home(c: Config, key: Key): Node
    requires Clustered(c)
  {
    Target(c.cluster.value.score, c.cluster.value.nodes, key)
  }

  lemma FirstIsHome(c: Config, key: Key, n: Node)
    requires Clustered(c) && RanksFirst(c.cluster.value.score, c.cluster.value.nodes, key, n)
    ensures n == Home(c, key)
  {
    assert NoTies(c.cluster.value.score, c.cluster.value.nodes, key);
    assert RanksFirst(c.cluster.value.score, c.cluster.value.nodes, key, Home(c, key));
  }

  lemma EntryIsAtHome(c: Config, s: State, n: Node, k: Key)
    requires Clustered(c) && RecordsOk(c, s.puts) && DisksOk(s) && n in s.disks && k in s.disks[n]
    ensures n == Home(c, k)
  {
    assert DiskOk(s.puts, n, s.disks[n]);
    LatestCameFrom(s.puts, n, k);
    var i :| 0 <= i < |s.puts| && s.puts[i].owner == n && s.puts[i].key == k && s.puts[i].entry == s.disks[n][k];
    assert RecordOk(c, s.puts[i]);
    FirstIsHome(c, k, n);
  }

  /** Placement: every entry on a node's disk has that node as its owner. */
  lemma Placement(c: Config, steps: seq<Step>, n: Node, k: Key)
    requires Clustered(c) && ValidRun(c, steps) && n in Run(c, steps).disks && k in Run(c, steps).disks[n]
    ensures n == Home(c, k)
  {
    RunKeepsInv(c, steps);
    EntryIsAtHome(c, Run(c, steps), n, k);
  }

  ghost function Keys(s: State): set<Key> {
    set n, k | n in s.disks && k in s.disks[n] :: k
  }

  /** The cluster seen as one cache: each key on its owner's disk. */
  ghost function Whole(c: Config, s: State): LossyMap.Contents
    requires Clustered(c)
  {
    map k | k in Keys(s) && Home(c, k) in s.disks && k in s.disks[Home(c, k)] :: s.disks[Home(c, k)][k]
  }

  ghost function HomeLookup(c: Config, s: State, k: Key): Option<Entry>
    requires Clustered(c)
  {
    if Home(c, k) in s.disks then LossyMap.Lookup(s.disks[Home(c, k)], k) else None
  }

  lemma WholeLookup(c: Config, s: State, k: Key)
    requires Clustered(c)
    ensures LossyMap.Lookup(Whole(c, s), k) == HomeLookup(c, s, k)
  {
  }

  /** The keys of `lost` that live on `n`. */
  ghost function LostFrom(c: Config, n: Node, lost: set<Key>): set<Key>
    requires Clustered(c)
  {
    set k | k in lost && Home(c, k) == n
  }

  /** What a step means to the cluster seen as one cache. */
  ghost function Meaning(c: Config, s: State, step: Step): LossyMap.Event
    requires Clustered(c) && Enabled(c, s, step)
  {
    match step
    case CacheGet(id) =>
      var h := s.handlers[id];
      LossyMap.Get(h.key, LossyMap.Lookup(s.disks[h.owner], h.key))
    case ServeGet(id) =>
      var h := s.handlers[id];
      LossyMap.Get(h.key, LossyMap.Lookup(s.disks[h.owner], h.key))
    case PutAccepted(id, lost, _) =>
      var h := s.handlers[id];
      LossyMap.Put(h.key, Kept(h.phase.x.resp.etag, Given(h.phase)), LostFrom(c, h.owner, lost))
    case PutFails(id, lost) => LossyMap.Lose(LostFrom(c, s.handlers[id].owner, lost))
    case Evict(n, lost) => LossyMap.Lose(LostFrom(c, n, lost))
    case _ => LossyMap.Lose({})
  }

  lemma OwnerIsHome(c: Config, s: State, id: Id)
    requires Clustered(c) && HandlersOk(c, s) && id in s.handlers && !s.handlers[id].phase.Waiting?
    ensures s.handlers[id].owner == Home(c, s.handlers[id].key)
  {
    assert HandlerOk(c, s.puts, s.handlers[id]);
    FirstIsHome(c, s.handlers[id].key, s.handlers[id].owner);
  }

  /** Lookups after an event of the lossy map. */
  lemma LookupAfter(m: LossyMap.Contents, ev: LossyMap.Event, k: Key)
    ensures LossyMap.Lookup(LossyMap.Apply(m, ev), k) ==
            match ev
            case Put(key, entry, lost) =>
              if k == key then Some(entry) else if k in lost then None else LossyMap.Lookup(m, k)
            case Lose(lost) => if k in lost then None else LossyMap.Lookup(m, k)
            case Delete(key) => if k == key then None else LossyMap.Lookup(m, k)
            case Get(_, _) => LossyMap.Lookup(m, k)
  {
  }

  lemma PutRefinesAt(c: Config, s: State, step: Step, k: Key)
    requires Clustered(c) && Enabled(c, s, step) && step.PutAccepted?
    requires s.handlers[step.id].owner == Home(c, s.handlers[step.id].key)
    ensures LossyMap.Lookup(Whole(c, Apply(c, s, step)), k)
            == LossyMap.Lookup(LossyMap.Apply(Whole(c, s), Meaning(c, s, step)), k)
  {
    var h := s.handlers[step.id];
    var entry := Kept(h.phase.x.resp.etag, Given(h.phase));
    var s' := Apply(c, s, step);
    WholeLookup(c, s, k);
    WholeLookup(c, s', k);
    LookupAfter(Whole(c, s), Meaning(c, s, step), k);
    LookupAfter(s.disks[h.owner], LossyMap.Put(h.key, entry, step.lost), k);
    hide Whole, LossyMap.Apply, LossyMap.Lookup, Clustered, Home, Owns, Reachable;
  }

  lemma LossRefinesAt(c: Config, s: State, step: Step, k: Key)
    requires Clustered(c) && Enabled(c, s, step) && (step.PutFails? || step.Evict?)
    ensures LossyMap.Lookup(Whole(c, Apply(c, s, step)), k)
            == LossyMap.Lookup(LossyMap.Apply(Whole(c, s), Meaning(c, s, step)), k)
  {
    var n := if step.Evict? then step.node else s.handlers[step.id].owner;
    WholeLookup(c, s, k);
    WholeLookup(c, Apply(c, s, step), k);
    LookupAfter(Whole(c, s), Meaning(c, s, step), k);
    LookupAfter(s.disks[n], LossyMap.Lose(step.lost), k);
    hide Whole, LossyMap.Apply, LossyMap.Lookup, Clustered, Home, Owns, Reachable;
  }

  lemma GetIsTrue(c: Config, s: State, step: Step)
    requires Clustered(c) && Enabled(c, s, step) && HandlersOk(c, s)
    ensures LossyMap.Enabled(Whole(c, s), Meaning(c, s, step))
  {
    if step.CacheGet? || step.ServeGet? {
      OwnerIsHome(c, s, step.id);
      WholeLookup(c, s, s.handlers[step.id].key);
    }
    hide Whole, Clustered, Owns;
  }

  /** Every step of the cluster is a step of the one lossy map. */
  lemma StepRefines(c: Config, s: State, step: Step)
    requires Clustered(c) && Inv(c, s) && Enabled(c, s, step)
    ensures LossyMap.Enabled(Whole(c, s), Meaning(c, s, step))
    ensures Whole(c, Apply(c, s, step)) == LossyMap.Apply(Whole(c, s), Meaning(c, s, step))
  {
    GetIsTrue(c, s, step);
    if step.PutAccepted? {
      OwnerIsHome(c, s, step.id);
    }
    hide Whole, Meaning, Apply, Enabled, Inv, Clustered, LossyMap.Apply, LossyMap.Enabled;
    if step.PutAccepted? || step.PutFails? || step.Evict? {
      var m, m' := Whole(c, Apply(c, s, step)), LossyMap.Apply(Whole(c, s), Meaning(c, s, step));
      forall k ensures LossyMap.Lookup(m, k) == LossyMap.Lookup(m', k) {
        if step.PutAccepted? {
          PutRefinesAt(c, s, step, k);
        } else {
          LossRefinesAt(c, s, step, k);
        }
      }
      DiskRuns.SameLookups(m, m');
    } else {
      OtherRefines(c, s, step);
    }
  }

  lemma OtherRefines(c: Config, s: State, step: Step)
    requires Clustered(c) && Enabled(c, s, step) && !step.PutAccepted? && !step.PutFails? && !step.Evict?
    ensures Whole(c, Apply(c, s, step)) == LossyMap.Apply(Whole(c, s), Meaning(c, s, step))
  {
    hide Apply, Enabled, Clustered, Whole, Meaning, LossyMap.Apply;
    OtherStepsKeepDisks(c, s, step);
    WholeOfDisks(c, s, Apply(c, s, step));
    OthersMeanNothing(c, s, step, Whole(c, s));
  }

  lemma WholeOfDisks(c: Config, s: State, s': State)
    requires Clustered(c) && s'.disks == s.disks
    ensures Whole(c, s') == Whole(c, s)
  {
    assert Keys(s') == Keys(s);
    hide Clustered, Home, Keys;
  }

  lemma OthersMeanNothing(c: Config, s: State, step: Step, m: LossyMap.Contents)
    requires Clustered(c) && Enabled(c, s, step) && !step.PutAccepted? && !step.PutFails? && !step.Evict?
    ensures LossyMap.Apply(m, Meaning(c, s, step)) == m
  {
    hide Enabled, Clustered;
    assert m - {} == m;
  }

  ghost function Meanings(c: Config, steps: seq<Step>): (evs: seq<LossyMap.Event>)
    requires Clustered(c) && ValidRun(c, steps)
    ensures |evs| == |steps|
  {
    if steps == [] then []
    else
      var init := steps[..|steps| - 1];
      Meanings(c, init) + [Meaning(c, Run(c, init), steps[|steps| - 1])]
  }

  /** Cluster refinement: a run of the whole cluster is, event by event, a run of one lossy map. */
  lemma {:induction false} RunRefines(c: Config, steps: seq<Step>)
    requires Clustered(c) && ValidRun(c, steps)
    ensures LossyMap.Valid(map[], Meanings(c, steps))
    ensures LossyMap.Run(map[], Meanings(c, steps)) == Whole(c, Run(c, steps))
    decreases |steps|
  {
    if steps == [] {
      assert Whole(c, Init(c)) == map[];
    } else {
      hide Apply, Enabled, Whole, Meaning, Inv, Clustered;
      var init := steps[..|steps| - 1];
      RunRefines(c, init);
      RunKeepsInv(c, init);
      StepRefines(c, Run(c, init), steps[|steps| - 1]);
      var evs := Meanings(c, steps);
      assert evs[..|evs| - 1] == Meanings(c, init);
    }
  }

  /** So what a handler on any node reads is the last entry that any node stored under the key, or nothing. */
  lemma {:induction false} AnyNodeReadsTheLastPut(c: Config, steps: seq<Step>, id: Id)
    requires Clustered(c) && ValidRun(c, steps)
    requires Enabled(c, Run(c, steps), CacheGet(id)) || Enabled(c, Run(c, steps), ServeGet(id))
    ensures var s := Run(c, steps);
            var h := s.handlers[id];
            h.key in s.disks[h.owner] ==>
              LossyMap.LastPut(Meanings(c, steps), h.key) == Some(s.disks[h.owner][h.key])
  {
    RunRefines(c, steps);
    RunKeepsInv(c, steps);
    var s := Run(c, steps);
    var h := s.handlers[id];
    OwnerIsHome(c, s, id);
    WholeLookup(c, s, h.key);
    if h.key in s.disks[h.owner] {
      hide Run, ValidRun, Whole, Meanings, Inv, Clustered;
      LossyMap.OnlyTheLastPutIsVisible(Meanings(c, steps), h.key);
    }
  }
}
