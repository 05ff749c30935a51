/** What every run of the deployment keeps: where entries come from, what handlers send and who holds locks. */
module ProxyRuns {
  import opened CacheTypes
  import opened StoragePolicy
  import opened Rendezvous
  import opened ProxyModel
  import LossyMap

  /** The entry of the last Put of `key` that `owner` accepted. */
  function LatestPut(puts: seq<PutRecord>, owner: Node, key: Key): Option<Entry> {
    if puts == [] then None
    else
      var last := puts[|puts| - 1];
      if last.owner == owner && last.key == key then Some(last.entry)
      else LatestPut(puts[..|puts| - 1], owner, key)
  }

  /** Some accepted Put made this entry. */
  ghost predicate CameFrom(puts: seq<PutRecord>, owner: Node, key: Key, entry: Entry) {
    exists i :: 0 <= i < |puts| && puts[i].owner == owner && puts[i].key == key && puts[i].entry == entry
  }

  /** Every accepted Put stored the whole body of a response that the policy lets be stored. */
  ghost predicate RecordOk(c: Config, r: PutRecord) {
    && MayStore(r.req, r.resp)
    && r.entry == Kept(r.resp.etag, r.resp.body)
    && (c.cluster.Some? ==> RanksFirst(c.cluster.value.score, c.cluster.value.nodes, r.key, r.owner))
  }

  ghost predicate RecordsOk(c: Config, puts: seq<PutRecord>) {
    forall i :: 0 <= i < |puts| ==> RecordOk(c, puts[i])
  }

  /** A disk shows the latest Put of a key or nothing. */
  ghost predicate DiskOk(puts: seq<PutRecord>, owner: Node, m: LossyMap.Contents) {
    forall k :: k in m ==> LatestPut(puts, owner, k) == Some(m[k])
  }

  ghost predicate DisksOk(s: State) {
    forall n :: n in s.disks ==> DiskOk(s.puts, n, s.disks[n])
  }

  ghost predicate CachedOk(puts: seq<PutRecord>, h: Handler, cached: Option<Entry>) {
    cached.Some? ==> CameFrom(puts, h.owner, h.key, cached.value)
  }

  ghost predicate ExchangeOk(puts: seq<PutRecord>, h: Handler, x: Exchange) {
    CachedOk(puts, h, x.cached) && x.ifNoneMatch == IfNoneMatch(x.cached, h.req)
  }

  /** Whenever the Put can look, it has read what the client was sent; in between they differ by the chunk in
      hand. */
  ghost predicate TeeOk(body: Blob, at: nat, sent: Blob, read: Blob, tee: Tee) {
    && at <= |body|
    && match tee
       case Idle => sent == read == body[..at]
       case Pending(chunk) => sent == read && read + chunk == body[..at]
       case Written(chunk, n) => n <= |chunk| && sent == read + chunk[..n] && read + chunk == body[..at]
       case Broken => sent == read && read <= body && |read| < at
  }

  ghost predicate PhaseOk(puts: seq<PutRecord>, h: Handler) {
    match h.phase
    case Waiting => true
    case Locked => true
    case Calling => true
    case Asking(cached) => CachedOk(puts, h, cached)
    case Deciding(x) => ExchangeOk(puts, h, x)
    case Refreshing(x, at, sent, read, tee) =>
      ExchangeOk(puts, h, x) && MayStore(h.req, x.resp) && TeeOk(x.resp.body, at, sent, read, tee)
    case Serving(x, sent) =>
      ExchangeOk(puts, h, x) && x.resp.status == 304 && x.cached.Some? && sent <= x.cached.value.blob
    case Failed => true
    case Abandoned(x, sent) =>
      ExchangeOk(puts, h, x) && MayStore(h.req, x.resp) && sent == x.resp.body && h.owner != h.node
    case Stored(x, sent) =>
      && ExchangeOk(puts, h, x) && sent == x.resp.body
      && CameFrom(puts, h.owner, h.key, Kept(x.resp.etag, x.resp.body))
    case StoreFailed(x, sent) => ExchangeOk(puts, h, x) && sent <= x.resp.body
    case Hit(x, sent, broken) =>
      && ExchangeOk(puts, h, x) && x.resp.status == 304 && x.cached.Some? && sent <= x.cached.value.blob
      && (if broken then h.owner != h.node && 0 < |sent| < |x.cached.value.blob| else sent == x.cached.value.blob)
    case CutOff(x, sent) =>
      ExchangeOk(puts, h, x) && x.resp.status == 304 && x.cached.Some? && sent <= x.cached.value.blob
    case Redirected(x) => ExchangeOk(puts, h, x) && x.resp.status == 304 && x.cached.Some?
    case PassedThrough(x) => ExchangeOk(puts, h, x)
  }

  ghost predicate HandlerOk(c: Config, puts: seq<PutRecord>, h: Handler) {
    PhaseOk(puts, h) && (!h.phase.Waiting? ==> Owns(c, h.node, h.key, h.owner))
  }

  ghost predicate HandlersOk(c: Config, s: State) {
    forall id :: id in s.handlers ==> HandlerOk(c, s.puts, s.handlers[id])
  }

  /** A handler between lock and return is the one that holds the lock of its server and key. */
  ghost predicate LocksOk(s: State) {
    && (forall id :: id in s.handlers && Active(s.handlers[id].phase) ==>
          var h := s.handlers[id];
          (h.node, h.key) in s.locks && s.locks[(h.node, h.key)] == id)
    && (forall l :: l in s.locks ==>
          var id := s.locks[l];
          id in s.handlers && Active(s.handlers[id].phase) && l == (s.handlers[id].node, s.handlers[id].key))
  }

  ghost predicate Inv(c: Config, s: State) {
    RecordsOk(c, s.puts) && DisksOk(s) && HandlersOk(c, s) && LocksOk(s)
  }

  lemma InitInv(c: Config)
    ensures Inv(c, Init(c))
  {
  }

  lemma CameFromGrows(puts: seq<PutRecord>, r: PutRecord, owner: Node, key: Key, entry: Entry)
    requires CameFrom(puts, owner, key, entry)
    ensures CameFrom(puts + [r], owner, key, entry)
  {
    var i :| 0 <= i < |puts| && puts[i].owner == owner && puts[i].key == key && puts[i].entry == entry;
    assert (puts + [r])[i] == puts[i];
  }

  lemma {:induction false} LatestCameFrom(puts: seq<PutRecord>, owner: Node, key: Key)
    requires LatestPut(puts, owner, key).Some?
    ensures CameFrom(puts, owner, key, LatestPut(puts, owner, key).value)
  {
    var last := puts[|puts| - 1];
    if !(last.owner == owner && last.key == key) {
      LatestCameFrom(puts[..|puts| - 1], owner, key);
      CameFromGrows(puts[..|puts| - 1], last, owner, key, LatestPut(puts, owner, key).value);
      assert puts == puts[..|puts| - 1] + [last];
    }
  }

  lemma HandlerStaysOk(c: Config, puts: seq<PutRecord>, r: PutRecord, h: Handler)
    requires HandlerOk(c, puts, h)
    ensures HandlerOk(c, puts + [r], h)
  {
    hide Owns, MayStore, CameFrom;
    forall e | CameFrom(puts, h.owner, h.key, e) ensures CameFrom(puts + [r], h.owner, h.key, e) {
      CameFromGrows(puts, r, h.owner, h.key, e);
    }
  }

  /** The handler that a step is about. */
  predicate IsAbout(step: Step, id: Id) {
    !step.Evict? && !step.OriginChanges? && step.id == id
  }

  /** A step touches no handler but its own. */
  lemma OthersStay(c: Config, s: State, step: Step, id: Id)
    requires Enabled(c, s, step) && !IsAbout(step, id)
    ensures id in Apply(c, s, step).handlers <==> id in s.handlers
    ensures id in s.handlers ==> Apply(c, s, step).handlers[id] == s.handlers[id]
  {
    hide Decision, LossyMap.Apply, LossyMap.Lookup, Owns, Reachable, CallsFor, Kept, Current, IfNoneMatch;
    hide AtEnd, Given, Active;
    if step.PutFails? || step.PutAccepted? {
      EndPutIsAbout(s, step.id, id);
      hide EndPut;
    }
  }

  lemma EndPutIsAbout(s: State, subject: Id, id: Id)
    requires subject in s.handlers && id != subject
    ensures forall p :: id in EndPut(s, subject, p).handlers <==> id in s.handlers
    ensures forall p :: id in s.handlers ==> EndPut(s, subject, p).handlers[id] == s.handlers[id]
  {
  }

  /** Only an accepted Put is put on record. */
  lemma PutsAfter(c: Config, s: State, step: Step)
    requires Enabled(c, s, step)
    ensures if step.PutAccepted? then
              var h := s.handlers[step.id];
              Apply(c, s, step).puts
              == s.puts + [PutRecord(h.owner, h.key, Kept(h.phase.x.resp.etag, Given(h.phase)), h.req, h.phase.x.resp)]
            else Apply(c, s, step).puts == s.puts
  {
    hide Decision, LossyMap.Apply, LossyMap.Lookup, Owns, Reachable, CallsFor, Kept, Current, IfNoneMatch;
  }

  lemma OtherStepsKeepDisks(c: Config, s: State, step: Step)
    requires Enabled(c, s, step) && !step.PutAccepted? && !step.PutFails? && !step.Evict?
    ensures Apply(c, s, step).disks == s.disks
  {
    hide Decision, LossyMap.Apply, LossyMap.Lookup, Owns, Reachable, CallsFor, Kept, Current, IfNoneMatch;
  }

  lemma OthersStayOk(c: Config, s: State, step: Step, id: Id)
    requires HandlersOk(c, s) && Enabled(c, s, step) && !IsAbout(step, id) && id in Apply(c, s, step).handlers
    ensures id in s.handlers && Apply(c, s, step).handlers[id] == s.handlers[id]
    ensures HandlerOk(c, Apply(c, s, step).puts, s.handlers[id])
  {
    hide Apply, Enabled, HandlerOk;
    OthersStay(c, s, step, id);
    PutsAfter(c, s, step);
    if step.PutAccepted? {
      var r := Apply(c, s, step).puts[|s.puts|];
      HandlerStaysOk(c, s.puts, r, s.handlers[id]);
    }
  }

  /** The steps of a handler before it decides. */
  predicate IsEarly(step: Step) {
    step.Arrive? || step.Lock? || step.CacheGet? || step.SendGet? || step.ServeGet? || step.Fail? || step.Fetch?
  }

  /** A handler's steps from its decision on are taken where it was, by one that has looked and will not look again. */
  lemma LateSteps(c: Config, s: State, step: Step)
    requires Enabled(c, s, step) && !IsEarly(step) && !step.Evict? && !step.OriginChanges?
    ensures step.id in s.handlers && step.id in Apply(c, s, step).handlers
    ensures var h, h' := s.handlers[step.id], Apply(c, s, step).handlers[step.id];
            && h'.owner == h.owner && h'.node == h.node
            && (h.phase.Deciding? || h.phase.Refreshing? || h.phase.Abandoned? || h.phase.Serving?)
            && !h'.phase.Asking? && !h'.phase.Deciding? && !h'.phase.Waiting?
  {
    hide MayStore, LossyMap.Apply, LossyMap.Lookup, Owns, Reachable, CallsFor, Kept, Given;
  }

  lemma EarlyPhases(c: Config, s: State, step: Step)
    requires Inv(c, s) && Enabled(c, s, step) && IsEarly(step)
    ensures HandlerOk(c, s.puts, Apply(c, s, step).handlers[step.id])
  {
    hide RecordsOk, LocksOk, MayStore;
    if step.CacheGet? || step.ServeGet? {
      var h := s.handlers[step.id];
      assert HandlerOk(c, s.puts, h) && DiskOk(s.puts, h.owner, s.disks[h.owner]);
      if h.key in s.disks[h.owner] {
        LatestCameFrom(s.puts, h.owner, h.key);
      }
    } else if step.SendGet? || step.Fail? || step.Fetch? {
      assert HandlerOk(c, s.puts, s.handlers[step.id]);
    }
  }

  lemma DecidePhase(c: Config, s: State, id: Id)
    requires Inv(c, s) && Enabled(c, s, Decide(id))
    ensures HandlerOk(c, s.puts, Apply(c, s, Decide(id)).handlers[id])
  {
    hide RecordsOk, DisksOk, LocksOk, MayStore, CameFrom;
    assert HandlerOk(c, s.puts, s.handlers[id]);
  }

  lemma TakeKeepsTee(body: Blob, at: nat, sent: Blob, read: Blob, n: nat)
    requires TeeOk(body, at, sent, read, Idle) && at + n <= |body|
    ensures TeeOk(body, at + n, sent, read, Pending(body[at..at + n]))
  {
  }

  lemma HandKeepsTee(body: Blob, at: nat, sent: Blob, read: Blob, chunk: Blob, n: nat)
    requires TeeOk(body, at, sent, read, Written(chunk, n))
    ensures TeeOk(body, at, sent, read + chunk[..n], if n == |chunk| then Idle else Broken)
  {
    assert read + chunk[..n] <= read + chunk;
  }

  lemma TeePhase(c: Config, s: State, step: Step)
    requires Inv(c, s) && Enabled(c, s, step) && (step.Take? || step.WriteClient? || step.Hand?)
    ensures HandlerOk(c, s.puts, Apply(c, s, step).handlers[step.id])
  {
    hide RecordsOk, DisksOk, LocksOk, MayStore, CameFrom, Owns;
    var p := s.handlers[step.id].phase;
    assert HandlerOk(c, s.puts, s.handlers[step.id]);
    if step.Take? {
      TakeKeepsTee(p.x.resp.body, p.at, p.sent, p.read, step.n);
    } else if step.Hand? {
      HandKeepsTee(p.x.resp.body, p.at, p.sent, p.read, p.tee.chunk, p.tee.n);
    }
  }

  /** What the client was sent is a prefix of the body, wherever the tee is. */
  lemma SentIsPrefix(body: Blob, at: nat, sent: Blob, read: Blob, tee: Tee)
    requires TeeOk(body, at, sent, read, tee)
    ensures read <= sent <= body
  {
    if tee.Pending? {
      assert read <= body[..at];
    } else if tee.Written? {
      assert sent <= read + tee.chunk;
    }
  }

  lemma PutFailsPhase(c: Config, s: State, step: Step)
    requires Inv(c, s) && Enabled(c, s, step) && (step.PutFails? || step.Abandon?)
    ensures HandlerOk(c, s.puts, Apply(c, s, step).handlers[step.id])
  {
    hide RecordsOk, DisksOk, LocksOk, MayStore, CameFrom, LossyMap.Apply;
    assert HandlerOk(c, s.puts, s.handlers[step.id]);
    var p := s.handlers[step.id].phase;
    if p.Refreshing? {
      SentIsPrefix(p.x.resp.body, p.at, p.sent, p.read, p.tee);
    }
  }

  lemma ServingPhases(c: Config, s: State, step: Step)
    requires Inv(c, s) && Enabled(c, s, step) && (step.Copy? || step.CopyEnds? || step.CopyBreaks? || step.CopyFails?)
    ensures HandlerOk(c, s.puts, Apply(c, s, step).handlers[step.id])
  {
    hide RecordsOk, DisksOk, LocksOk, MayStore, CameFrom;
    assert HandlerOk(c, s.puts, s.handlers[step.id]);
  }

  lemma PutAcceptedPhase(c: Config, s: State, step: Step)
    requires Inv(c, s) && Enabled(c, s, step) && step.PutAccepted?
    ensures HandlerOk(c, Apply(c, s, step).puts, Apply(c, s, step).handlers[step.id])
  {
    hide RecordsOk, DisksOk, LocksOk, MayStore, CameFrom, LossyMap.Apply, Kept, Owns, Reachable, CallsFor;
    var h := s.handlers[step.id];
    PutsAfter(c, s, step);
    var r := PutRecord(h.owner, h.key, Kept(h.phase.x.resp.etag, Given(h.phase)), h.req, h.phase.x.resp);
    assert HandlerOk(c, s.puts, h);
    HandlerStaysOk(c, s.puts, r, h);
    assert Given(h.phase) == h.phase.x.resp.body;
    NewPutIsThere(s.puts, r);
  }

  lemma NewPutIsThere(puts: seq<PutRecord>, r: PutRecord)
    ensures CameFrom(puts + [r], r.owner, r.key, r.entry)
  {
    assert (puts + [r])[|puts|] == r;
  }

  lemma StepKeepsHandlers(c: Config, s: State, step: Step)
    requires Inv(c, s) && Enabled(c, s, step)
    ensures HandlersOk(c, Apply(c, s, step))
  {
    var s' := Apply(c, s, step);
    hide Apply, Enabled, HandlerOk, RecordsOk, DisksOk, LocksOk;
    forall id | id in s'.handlers ensures HandlerOk(c, s'.puts, s'.handlers[id]) {
      if !IsAbout(step, id) {
        OthersStayOk(c, s, step, id);
      } else {
        SubjectStaysOk(c, s, step);
      }
    }
  }

  lemma SubjectStaysOk(c: Config, s: State, step: Step)
    requires Inv(c, s) && Enabled(c, s, step) && !step.Evict? && !step.OriginChanges?
    ensures step.id in Apply(c, s, step).handlers
    ensures HandlerOk(c, Apply(c, s, step).puts, Apply(c, s, step).handlers[step.id])
  {
    hide Inv, HandlerOk, Owns, Reachable, Decision, LossyMap.Apply;
    match step
    case Decide(id) => DecidePhase(c, s, id);
    case Take(_, _) => TeePhase(c, s, step);
    case WriteClient(_, _) => TeePhase(c, s, step);
    case Hand(_) => TeePhase(c, s, step);
    case PutFails(_, _) => PutFailsPhase(c, s, step);
    case Abandon(_) => PutFailsPhase(c, s, step);
    case PutAccepted(_, _, _) => PutAcceptedPhase(c, s, step);
    case Copy(_, _) => ServingPhases(c, s, step);
    case CopyEnds(_) => ServingPhases(c, s, step);
    case CopyBreaks(_) => ServingPhases(c, s, step);
    case CopyFails(_) => ServingPhases(c, s, step);
    case _ => EarlyPhases(c, s, step);
  }

  lemma StepKeepsRecords(c: Config, s: State, step: Step)
    requires Inv(c, s) && Enabled(c, s, step)
    ensures RecordsOk(c, Apply(c, s, step).puts)
  {
    hide DisksOk, LocksOk, MayStore, Apply, Kept;
    PutsAfter(c, s, step);
    if step.PutAccepted? {
      var h := s.handlers[step.id];
      assert HandlerOk(c, s.puts, h);
      assert Given(h.phase) == h.phase.x.resp.body;
    }
  }

  lemma LosingKeepsDisk(puts: seq<PutRecord>, n: Node, m: LossyMap.Contents, lost: set<Key>)
    requires DiskOk(puts, n, m)
    ensures DiskOk(puts, n, LossyMap.Apply(m, LossyMap.Lose(lost)))
  {
  }

  lemma PuttingKeepsDisk(puts: seq<PutRecord>, r: PutRecord, n: Node, m: LossyMap.Contents, lost: set<Key>)
    requires DiskOk(puts, n, m)
    ensures DiskOk(puts + [r], n, if r.owner == n then LossyMap.Apply(m, LossyMap.Put(r.key, r.entry, lost)) else m)
  {
    assert (puts + [r])[..|puts|] == puts;
  }

  lemma StepKeepsDisks(c: Config, s: State, step: Step)
    requires Inv(c, s) && Enabled(c, s, step)
    ensures DisksOk(Apply(c, s, step)) && Apply(c, s, step).disks.Keys == s.disks.Keys
  {
    hide RecordsOk, HandlersOk, LocksOk, DiskOk, Owns, Decision, LossyMap.Apply;
    var s' := Apply(c, s, step);
    forall n | n in s'.disks ensures DiskOk(s'.puts, n, s'.disks[n]) {
      assert DiskOk(s.puts, n, s.disks[n]);
      if step.PutAccepted? {
        PuttingKeepsDisk(s.puts, s'.puts[|s.puts|], n, s.disks[n], step.lost);
      } else if step.PutFails? || step.Evict? {
        LosingKeepsDisk(s.puts, n, s.disks[n], step.lost);
      }
    }
  }

  /** A handler that goes on keeps its lock, one that ends releases it, one that has returned holds none. */
  ghost predicate Moves(s: State, s': State, id: Id) {
    && id in s.handlers && id in s'.handlers
    && (s'.handlers[id].node, s'.handlers[id].key) == (s.handlers[id].node, s.handlers[id].key)
    && s'.handlers == s.handlers[id := s'.handlers[id]]
    && (Active(s'.handlers[id].phase) ==> Active(s.handlers[id].phase))
    && s'.locks == if Active(s'.handlers[id].phase) || !Active(s.handlers[id].phase) then s.locks
                   else s.locks - {(s.handlers[id].node, s.handlers[id].key)}
  }

  lemma MovingKeepsLocks(s: State, s': State, id: Id)
    requires LocksOk(s) && Moves(s, s', id)
    ensures LocksOk(s')
  {
  }

  lemma LocksFrame(s: State, s': State)
    requires LocksOk(s) && s'.handlers == s.handlers && s'.locks == s.locks
    ensures LocksOk(s')
  {
  }

  lemma ArriveKeepsLocks(s: State, id: Id, h: Handler)
    requires LocksOk(s) && id !in s.handlers && h.phase.Waiting?
    ensures LocksOk(s.(handlers := s.handlers[id := h]))
  {
  }

  lemma LockKeepsLocks(s: State, id: Id, h: Handler)
    requires LocksOk(s) && id in s.handlers && s.handlers[id].phase.Waiting? && h.phase.Locked?
    requires (h.node, h.key) == (s.handlers[id].node, s.handlers[id].key) && (h.node, h.key) !in s.locks
    ensures LocksOk(s.(handlers := s.handlers[id := h], locks := s.locks[(h.node, h.key) := id]))
  {
  }

  lemma EarlyStepsMove(c: Config, s: State, step: Step)
    requires Enabled(c, s, step)
    requires step.CacheGet? || step.SendGet? || step.ServeGet? || step.Fail? || step.Fetch? || step.Decide?
    ensures Moves(s, Apply(c, s, step), step.id)
  {
    hide LossyMap.Lookup, Owns, Reachable, MayStore;
  }

  lemma LateStepsMove(c: Config, s: State, step: Step)
    requires Enabled(c, s, step)
    requires step.Take? || step.WriteClient? || step.Hand? || step.Abandon? || step.PutFails? || step.PutAccepted?
             || step.Copy? || step.CopyEnds? || step.CopyBreaks? || step.CopyFails?
    ensures Moves(s, Apply(c, s, step), step.id)
  {
    if step.PutFails? || step.PutAccepted? {
      PutStepsMove(c, s, step);
    } else {
      hide LossyMap.Apply, Owns, Reachable, Kept, Given, EndPut, Decision, IfNoneMatch, Current, CallsFor;
    }
  }

  lemma PutStepsMove(c: Config, s: State, step: Step)
    requires Enabled(c, s, step) && (step.PutFails? || step.PutAccepted?)
    ensures Moves(s, Apply(c, s, step), step.id)
  {
    hide LossyMap.Apply, Owns, Reachable, Kept, Given;
  }

  lemma StepKeepsLocks(c: Config, s: State, step: Step)
    requires LocksOk(s) && Enabled(c, s, step)
    ensures LocksOk(Apply(c, s, step))
  {
    var s' := Apply(c, s, step);
    hide LocksOk, Moves;
    if step.Arrive? {
      ArriveKeepsLocks(s, step.id, Handler(step.node, step.key, step.req, step.node, Waiting));
    } else if step.Lock? {
      LockKeepsLocks(s, step.id, s.handlers[step.id].(owner := step.owner, phase := Locked));
    } else if step.Evict? || step.OriginChanges? {
      LocksFrame(s, s');
    } else {
      hide Apply, Enabled;
      if step.CacheGet? || step.SendGet? || step.ServeGet? || step.Fail? || step.Fetch? || step.Decide? {
        EarlyStepsMove(c, s, step);
      } else {
        LateStepsMove(c, s, step);
      }
      MovingKeepsLocks(s, s', step.id);
    }
  }

  lemma StepKeepsInv(c: Config, s: State, step: Step)
    requires Inv(c, s) && Enabled(c, s, step)
    ensures Inv(c, Apply(c, s, step))
  {
    hide RecordsOk, DisksOk, HandlersOk, LocksOk, Apply, Enabled;
    StepKeepsRecords(c, s, step);
    StepKeepsDisks(c, s, step);
    StepKeepsHandlers(c, s, step);
    StepKeepsLocks(c, s, step);
  }

  ghost predicate ValidRun(c: Config, steps: seq<Step>)
    decreases |steps|, 0
  {
    steps == [] ||
    (var init := steps[..|steps| - 1]; ValidRun(c, init) && Enabled(c, Run(c, init), steps[|steps| - 1]))
  }

  ghost function Run(c: Config, steps: seq<Step>): State
    requires ValidRun(c, steps)
    decreases |steps|, 1
  {
    if steps == [] then Init(c) else Apply(c, Run(c, steps[..|steps| - 1]), steps[|steps| - 1])
  }

  lemma {:induction false} RunKeepsInv(c: Config, steps: seq<Step>)
    requires ValidRun(c, steps)
    ensures Inv(c, Run(c, steps))
    decreases |steps|
  {
    hide Inv, Apply, Enabled;
    if steps == [] {
      InitInv(c);
    } else {
      RunKeepsInv(c, steps[..|steps| - 1]);
      StepKeepsInv(c, Run(c, steps[..|steps| - 1]), steps[|steps| - 1]);
    }
  }
}
