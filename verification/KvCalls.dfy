/** How many servers a cache operation involves: a handler makes at most one KV request for its Get and one for its
    Put, straight to the owner of the key, and the server that answers makes none. */
module KvCalls {
  import opened StoragePolicy
  import opened Rendezvous
  import opened ProxyModel
  import opened ProxyRuns
  import opened ClusterTheorems
  import LossyMap

  /** Whether a handler in a phase may have made the request of an operation. */
  predicate MayHaveCalled(p: Phase, op: Operation) {
    match op
    case GetOp => !p.Waiting? && !p.Locked?
    case PutOp => p.Refreshing? || p.Abandoned? || p.Stored? || p.StoreFailed?
  }

  ghost predicate CallOk(s: State, call: Call) {
    call.id in s.handlers &&
    var h := s.handlers[call.id];
    && call == Call(call.id, call.op, h.node, h.owner, h.key) && h.owner != h.node
    && !h.phase.Waiting? && MayHaveCalled(h.phase, call.op)
  }

  ghost predicate CallsOk(s: State) {
    && (forall i :: 0 <= i < |s.calls| ==> CallOk(s, s.calls[i]))
    && (forall i, j :: 0 <= i < j < |s.calls| ==> (s.calls[i].id, s.calls[i].op) != (s.calls[j].id, s.calls[j].op))
  }

  /** The request that a step makes. */
  ghost function Made(c: Config, s: State, step: Step): seq<Call>
    requires Enabled(c, s, step)
  {
    match step
    case SendGet(id) => CallsFor(id, GetOp, s.handlers[id].node, s.handlers[id].owner, s.handlers[id].key)
    case Decide(id) =>
      var h := s.handlers[id];
      if Decision(c, h, h.phase.x).Refreshing? then CallsFor(id, PutOp, h.node, h.owner, h.key) else []
    case _ => []
  }

  lemma CallsAfter(c: Config, s: State, step: Step)
    requires Enabled(c, s, step)
    ensures Apply(c, s, step).calls == s.calls + Made(c, s, step)
  {
    hide Decision, LossyMap.Apply, LossyMap.Lookup, Owns, Reachable, CallsFor;
  }

  /** A handler that has called keeps its node, owner and key and never gets back to where it could call again. */
  lemma CallersMoveOn(c: Config, s: State, step: Step, call: Call)
    requires Enabled(c, s, step) && CallOk(s, call)
    ensures CallOk(Apply(c, s, step), call)
  {
    if IsAbout(step, call.id) {
      CallerMovesOn(c, s, step, call);
    } else {
      OthersStay(c, s, step, call.id);
      hide Apply, Enabled;
    }
  }

  lemma CallerMovesOn(c: Config, s: State, step: Step, call: Call)
    requires Enabled(c, s, step) && CallOk(s, call) && IsAbout(step, call.id)
    ensures CallOk(Apply(c, s, step), call)
  {
    if IsEarly(step) {
      hide MayStore, LossyMap.Apply, LossyMap.Lookup, Owns, Reachable, CallsFor, Kept, Current, IfNoneMatch, Given;
      hide Decision;
    } else {
      hide Apply, Enabled;
      LateCallerMovesOn(c, s, step, call);
    }
  }

  lemma LateCallerMovesOn(c: Config, s: State, step: Step, call: Call)
    requires Enabled(c, s, step) && CallOk(s, call) && IsAbout(step, call.id) && !IsEarly(step)
    ensures CallOk(Apply(c, s, step), call)
  {
    hide MayStore, LossyMap.Apply, LossyMap.Lookup, Owns, Reachable, CallsFor, Kept, Current, IfNoneMatch, Given;
  }

  /** A new request is the first of its kind. */
  lemma CallIsNew(c: Config, s: State, step: Step, call: Call)
    requires Enabled(c, s, step) && call in Made(c, s, step)
    ensures CallOk(Apply(c, s, step), call)
    ensures call.id in s.handlers && !MayHaveCalled(s.handlers[call.id].phase, call.op)
    ensures Made(c, s, step) == [call]
  {
    hide MayStore, LossyMap.Apply, LossyMap.Lookup, Owns, Reachable;
  }

  lemma StepKeepsCalls(c: Config, s: State, step: Step)
    requires CallsOk(s) && Enabled(c, s, step)
    ensures CallsOk(Apply(c, s, step))
  {
    hide Apply, Enabled, CallOk, Made;
    var s' := Apply(c, s, step);
    CallsAfter(c, s, step);
    forall i | 0 <= i < |s'.calls| ensures CallOk(s', s'.calls[i]) {
      if i < |s.calls| {
        CallersMoveOn(c, s, step, s.calls[i]);
      } else {
        CallIsNew(c, s, step, s'.calls[i]);
      }
    }
    forall i, j | 0 <= i < j < |s'.calls|
      ensures (s'.calls[i].id, s'.calls[i].op) != (s'.calls[j].id, s'.calls[j].op)
    {
      if j >= |s.calls| {
        CallIsNew(c, s, step, s'.calls[j]);
        WhoCalled(s, s.calls[i]);
      }
    }
  }

  lemma WhoCalled(s: State, call: Call)
    requires CallOk(s, call)
    ensures call.id in s.handlers && MayHaveCalled(s.handlers[call.id].phase, call.op)
  {
  }

  lemma {:induction false} RunKeepsCalls(c: Config, steps: seq<Step>)
    requires ValidRun(c, steps)
    ensures CallsOk(Run(c, steps))
    decreases |steps|
  {
    hide Apply, Enabled;
    if steps != [] {
      RunKeepsCalls(c, steps[..|steps| - 1]);
      hide CallsOk;
      StepKeepsCalls(c, Run(c, steps[..|steps| - 1]), steps[|steps| - 1]);
    }
  }

  /** One hop: every KV request of every run goes from a server that does not own the key straight to the one
      that does, and no handler makes a second one for the same operation. */
  lemma OneHop(c: Config, steps: seq<Step>, i: nat)
    requires Clustered(c) && ValidRun(c, steps) && i < |Run(c, steps).calls|
    ensures var s := Run(c, steps);
            var call := s.calls[i];
            && call.id in s.handlers && s.handlers[call.id].node == call.from && s.handlers[call.id].key == call.key
            && call.to == Home(c, call.key) && call.from != call.to
            && forall j :: 0 <= j < |s.calls| && s.calls[j].id == call.id && s.calls[j].op == call.op ==> j == i
  {
    RunKeepsInv(c, steps);
    RunKeepsCalls(c, steps);
    hide Run, ValidRun, Clustered, Home, DisksOk, RecordsOk, LocksOk, HandlersOk;
    var s := Run(c, steps);
    assert CallOk(s, s.calls[i]);
    OwnerIsHome(c, s, s.calls[i].id);
  }

  /** What a handler without a request of its own has used is its own disk. */
  lemma NoHopAtHome(c: Config, steps: seq<Step>, id: Id)
    requires Clustered(c) && ValidRun(c, steps) && id in Run(c, steps).handlers
    requires Run(c, steps).handlers[id].node == Home(c, Run(c, steps).handlers[id].key)
    ensures forall i :: 0 <= i < |Run(c, steps).calls| ==> Run(c, steps).calls[i].id != id
  {
    forall i | 0 <= i < |Run(c, steps).calls| ensures Run(c, steps).calls[i].id != id {
      OneHop(c, steps, i);
    }
  }

  /** Serving a KV request asks nobody else and leaves every disk but the server's own as it is. */
  lemma ServingIsLocal(c: Config, s: State, step: Step, n: Node)
    requires Enabled(c, s, step) && (step.ServeGet? || step.PutAccepted? || step.PutFails?)
    requires n in s.disks && n != s.handlers[step.id].owner
    ensures Apply(c, s, step).calls == s.calls && n in Apply(c, s, step).disks && Apply(c, s, step).disks[n] == s.disks[n]
  {
    hide LossyMap.Apply, LossyMap.Lookup, Owns, Reachable;
  }

  /** A handler in this phase has asked its owner, if that is another server. */
  predicate HasAsked(p: Phase) {
    !p.Waiting? && !p.Locked? && !p.Failed?
  }

  predicate HasPut(p: Phase) {
    p.Refreshing? || p.Abandoned? || p.Stored? || p.StoreFailed?
  }

  ghost predicate Recorded(s: State, id: Id)
    requires id in s.handlers
  {
    var h := s.handlers[id];
    h.owner != h.node ==>
      && (HasAsked(h.phase) ==> Call(id, GetOp, h.node, h.owner, h.key) in s.calls)
      && (HasPut(h.phase) ==> Call(id, PutOp, h.node, h.owner, h.key) in s.calls)
  }

  ghost predicate AllRecorded(s: State) {
    forall id :: id in s.handlers ==> Recorded(s, id)
  }

  /** Only `SendGet` makes a handler one that has asked, and only `Decide` one that has put. */
  lemma PhasesInOrder(c: Config, s: State, step: Step)
    requires Enabled(c, s, step) && !step.Evict? && !step.OriginChanges? && !step.Arrive? && !step.Lock?
    ensures step.id in s.handlers && step.id in Apply(c, s, step).handlers
    ensures var h, h' := s.handlers[step.id], Apply(c, s, step).handlers[step.id];
            && h' == h.(phase := h'.phase)
            && (HasAsked(h'.phase) && !HasAsked(h.phase) ==> step.SendGet? || h.owner == h.node)
            && (HasPut(h'.phase) && !HasPut(h.phase) ==> step.Decide? && h'.phase.Refreshing?)
            && (step.SendGet? ==> h.owner != h.node)
            && (step.Decide? && h'.phase.Refreshing? ==> Decision(c, h, h.phase.x).Refreshing?)
  {
    hide MayStore, LossyMap.Apply, LossyMap.Lookup, Owns, Reachable, Kept, Current, IfNoneMatch, Given, CallsFor;
    if step.PutFails? || step.PutAccepted? {
      PutsEnd(c, s, step);
      hide Apply;
    }
  }

  lemma PutsEnd(c: Config, s: State, step: Step)
    requires Enabled(c, s, step) && (step.PutFails? || step.PutAccepted?)
    ensures step.id in s.handlers && step.id in Apply(c, s, step).handlers
    ensures var h, h' := s.handlers[step.id], Apply(c, s, step).handlers[step.id];
            h' == h.(phase := h'.phase) && HasPut(h.phase) && HasAsked(h.phase)
  {
    hide LossyMap.Apply, Owns, Reachable, Kept, Given;
  }

  lemma NewHandlersRecorded(c: Config, s: State, step: Step)
    requires Enabled(c, s, step) && (step.Arrive? || step.Lock?)
    ensures step.id in Apply(c, s, step).handlers && Recorded(Apply(c, s, step), step.id)
  {
    hide Owns;
  }

  lemma SubjectRecorded(c: Config, s: State, step: Step)
    requires AllRecorded(s) && Enabled(c, s, step) && !step.Evict? && !step.OriginChanges?
    ensures step.id in Apply(c, s, step).handlers && Recorded(Apply(c, s, step), step.id)
  {
    if step.Arrive? || step.Lock? {
      NewHandlersRecorded(c, s, step);
    } else {
      hide Apply, Enabled, Decision;
      PhasesInOrder(c, s, step);
      CallsAfter(c, s, step);
      assert Recorded(s, step.id);
    }
  }

  lemma StepKeepsRecorded(c: Config, s: State, step: Step)
    requires AllRecorded(s) && Enabled(c, s, step)
    ensures AllRecorded(Apply(c, s, step))
  {
    hide Apply, Enabled, Made;
    var s' := Apply(c, s, step);
    CallsAfter(c, s, step);
    forall id | id in s'.handlers ensures Recorded(s', id) {
      if IsAbout(step, id) {
        SubjectRecorded(c, s, step);
      } else {
        OthersStay(c, s, step, id);
        assert Recorded(s, id);
      }
    }
  }

  /** The record is complete: every handler that has used another server's disk has its requests there. */
  lemma {:induction false} CallsAreRecorded(c: Config, steps: seq<Step>)
    requires ValidRun(c, steps)
    ensures AllRecorded(Run(c, steps))
    decreases |steps|
  {
    hide Apply, Enabled;
    if steps != [] {
      CallsAreRecorded(c, steps[..|steps| - 1]);
      hide AllRecorded;
      StepKeepsRecorded(c, Run(c, steps[..|steps| - 1]), steps[|steps| - 1]);
    }
  }
}
