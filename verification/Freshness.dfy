/** Freshness: with an origin that says 304 only for its current ETag, and an ETag that determines the body, a
    client that brings no precondition of its own gets the origin's current body out of the cache. */
module Freshness {
  import opened CacheTypes
  import opened StoragePolicy
  import opened ProxyModel
  import opened ProxyRuns
  import LossyMap
  import MetadataJson

  /** The body that a key has under an ETag. */
  type Bodies = (Key, Text) -> Blob

  /** A version whose ETag determines its body. */
  predicate Consistent(bodies: Bodies, key: Key, v: Version) {
    v.etag != [] ==> v.body == bodies(key, v.etag)
  }

  /** Section 13.1.2 of RFC 9110: 200 carries the current version, 304 means that the precondition names it. */
  predicate HonestAnswer(ifNoneMatch: Option<Text>, resp: Response, current: Version) {
    && (resp.status == 200 ==> resp.etag == current.etag && resp.body == current.body)
    && (resp.status == 304 ==> current.etag != [] && ifNoneMatch == Some(current.etag))
  }

  /** Nothing is asked of the proxy here, only of the origin. */
  ghost predicate Honest(bodies: Bodies, s: State, step: Step) {
    match step
    case OriginChanges(key, v) => Consistent(bodies, key, v)
    case Fetch(id, resp) =>
      id in s.handlers && s.handlers[id].phase.Asking? ==>
        var h := s.handlers[id];
        HonestAnswer(IfNoneMatch(h.phase.cached, h.req), resp, Current(s, h.key))
    case _ => true
  }

  ghost predicate HonestRun(c: Config, bodies: Bodies, steps: seq<Step>)
    requires ValidRun(c, steps)
    decreases |steps|
  {
    steps == [] ||
    (var init := steps[..|steps| - 1];
     HonestRun(c, bodies, init) && Honest(bodies, Run(c, init), steps[|steps| - 1]))
  }

  function ExchangeOf(p: Phase): Option<Exchange> {
    match p
    case Deciding(x) => Some(x)
    case Refreshing(x, _, _, _, _) => Some(x)
    case Serving(x, _) => Some(x)
    case Abandoned(x, _) => Some(x)
    case Stored(x, _) => Some(x)
    case StoreFailed(x, _) => Some(x)
    case Hit(x, _, _) => Some(x)
    case CutOff(x, _) => Some(x)
    case Redirected(x) => Some(x)
    case PassedThrough(x) => Some(x)
    case _ => None
  }

  ghost predicate Truthful(bodies: Bodies, h: Handler) {
    var x := ExchangeOf(h.phase);
    && (x.Some? ==> Consistent(bodies, h.key, x.value.current)
                    && HonestAnswer(x.value.ifNoneMatch, x.value.resp, x.value.current))
    && (h.phase.Refreshing? || h.phase.Abandoned? ==> x.value.resp.status == 200)
  }

  ghost predicate OriginOk(bodies: Bodies, s: State) {
    forall k :: k in s.origin ==> Consistent(bodies, k, s.origin[k])
  }

  ghost predicate PutsOk(bodies: Bodies, puts: seq<PutRecord>) {
    forall i :: 0 <= i < |puts| ==> Consistent(bodies, puts[i].key, Version(puts[i].resp.etag, puts[i].resp.body))
  }

  ghost predicate AllTruthful(bodies: Bodies, s: State) {
    forall id :: id in s.handlers ==> Truthful(bodies, s.handlers[id])
  }

  ghost predicate FreshInv(bodies: Bodies, s: State) {
    OriginOk(bodies, s) && PutsOk(bodies, s.puts) && AllTruthful(bodies, s)
  }

  /** Between the answer and the end a handler works on one and the same exchange. */
  lemma ExchangeStays(c: Config, s: State, step: Step)
    requires Enabled(c, s, step) && !step.Evict? && !step.OriginChanges? && !step.Fetch? && !step.Arrive?
    ensures step.id in s.handlers && step.id in Apply(c, s, step).handlers
    ensures var h, h' := s.handlers[step.id], Apply(c, s, step).handlers[step.id];
            && h'.key == h.key
            && (ExchangeOf(h'.phase).Some? ==> ExchangeOf(h'.phase) == ExchangeOf(h.phase))
            && (h'.phase.Refreshing? || h'.phase.Abandoned? ==>
                  ExchangeOf(h'.phase).value.resp.status == 200 || h.phase.Refreshing?)
  {
    if IsEarly(step) {
      hide MayStore, Owns, Reachable, LossyMap.Apply, LossyMap.Lookup, CallsFor, Kept, Current, IfNoneMatch, Given;
      hide Decision;
    } else {
      hide Apply, Enabled;
      LateExchangeStays(c, s, step);
    }
  }

  lemma LateExchangeStays(c: Config, s: State, step: Step)
    requires Enabled(c, s, step) && !IsEarly(step) && !step.Evict? && !step.OriginChanges?
    ensures step.id in s.handlers && step.id in Apply(c, s, step).handlers
    ensures var h, h' := s.handlers[step.id], Apply(c, s, step).handlers[step.id];
            && h'.key == h.key && ExchangeOf(h'.phase) == ExchangeOf(h.phase)
            && (h'.phase.Refreshing? || h'.phase.Abandoned? ==>
                  ExchangeOf(h'.phase).value.resp.status == 200 || h.phase.Refreshing?)
  {
    hide MayStore, Owns, Reachable, LossyMap.Apply, LossyMap.Lookup, CallsFor, Kept, Current, IfNoneMatch, Given;
    if step.Decide? {
      DecisionKeepsExchange(c, s.handlers[step.id]);
      hide ExchangeOf;
    }
    hide Decision, AtEnd;
  }

  lemma DecisionKeepsExchange(c: Config, h: Handler)
    requires h.phase.Deciding?
    ensures ExchangeOf(Decision(c, h, h.phase.x)) == ExchangeOf(h.phase) == Some(h.phase.x)
    ensures Decision(c, h, h.phase.x).Refreshing? ==> h.phase.x.resp.status == 200
    ensures !Decision(c, h, h.phase.x).Abandoned?
  {
    hide MayStore;
  }

  lemma FetchIsTruthful(c: Config, bodies: Bodies, s: State, id: Id, resp: Response)
    requires OriginOk(bodies, s) && Enabled(c, s, Fetch(id, resp)) && Honest(bodies, s, Fetch(id, resp))
    ensures Truthful(bodies, Apply(c, s, Fetch(id, resp)).handlers[id])
  {
  }

  lemma SubjectIsTruthful(c: Config, bodies: Bodies, s: State, step: Step)
    requires FreshInv(bodies, s) && Enabled(c, s, step) && Honest(bodies, s, step)
    requires !step.Evict? && !step.OriginChanges?
    ensures step.id in Apply(c, s, step).handlers && Truthful(bodies, Apply(c, s, step).handlers[step.id])
  {
    if step.Fetch? {
      FetchIsTruthful(c, bodies, s, step.id, step.resp);
    } else if !step.Arrive? {
      ExchangeStays(c, s, step);
      assert Truthful(bodies, s.handlers[step.id]);
      hide Apply, Enabled, Consistent, HonestAnswer;
    }
  }

  lemma HandlersStayTruthful(c: Config, bodies: Bodies, s: State, step: Step)
    requires FreshInv(bodies, s) && HandlersOk(c, s) && Enabled(c, s, step) && Honest(bodies, s, step)
    ensures AllTruthful(bodies, Apply(c, s, step))
  {
    var s' := Apply(c, s, step);
    hide Apply, Enabled, Truthful, HandlersOk;
    forall id | id in s'.handlers ensures Truthful(bodies, s'.handlers[id]) {
      if IsAbout(step, id) {
        SubjectIsTruthful(c, bodies, s, step);
      } else {
        OthersStayOk(c, s, step, id);
      }
    }
  }

  lemma PutsStayOk(c: Config, bodies: Bodies, s: State, step: Step)
    requires FreshInv(bodies, s) && Enabled(c, s, step)
    ensures PutsOk(bodies, Apply(c, s, step).puts)
  {
    PutsAfter(c, s, step);
    if step.PutAccepted? {
      assert Truthful(bodies, s.handlers[step.id]);
    }
    hide Apply, Owns, Reachable, Consistent;
  }

  lemma OriginStaysOk(c: Config, bodies: Bodies, s: State, step: Step)
    requires OriginOk(bodies, s) && Enabled(c, s, step) && Honest(bodies, s, step)
    ensures OriginOk(bodies, Apply(c, s, step))
  {
    hide MayStore, Owns, Reachable, LossyMap.Apply, LossyMap.Lookup, Consistent, CallsFor, Kept;
  }

  lemma {:induction false} HonestRunKeepsFresh(c: Config, bodies: Bodies, steps: seq<Step>)
    requires ValidRun(c, steps) && HonestRun(c, bodies, steps)
    ensures FreshInv(bodies, Run(c, steps))
    decreases |steps|
  {
    hide Apply, Enabled, Honest, OriginOk, PutsOk, AllTruthful, HandlersOk, DisksOk, RecordsOk, LocksOk;
    if steps == [] {
      FreshAtFirst(c, bodies);
    } else {
      var init, last := steps[..|steps| - 1], steps[|steps| - 1];
      RunKeepsInv(c, init);
      HonestRunKeepsFresh(c, bodies, init);
      HandlersStayTruthful(c, bodies, Run(c, init), last);
      PutsStayOk(c, bodies, Run(c, init), last);
      OriginStaysOk(c, bodies, Run(c, init), last);
    }
  }

  lemma FreshAtFirst(c: Config, bodies: Bodies)
    ensures FreshInv(bodies, Init(c))
  {
  }

  /** A client can be served an entry stored with `etag` if it brings no precondition and the ETag is valid UTF-8, so
      that it survives being stored; or if its precondition names that version or nothing at all. */
  predicate SafeToServe(etag: Text, req: Request) {
    if req.ifNoneMatch.Some? then req.ifNoneMatch.value == [] || req.ifNoneMatch.value == etag
    else MetadataJson.ValidUtf8(etag)
  }

  /** Then the precondition that goes upstream names the stored version or nothing. */
  lemma SafeAsksForTheSame(etag: Text, blob: Blob, req: Request)
    ensures var asked := IfNoneMatch(Some(Kept(etag, blob)), req);
            SafeToServe(etag, req) <==> asked.None? || asked.value == [] || asked.value == etag
  {
    MetadataJson.CoerceLengthens(etag);
  }

  /** Handler `id` has ended a hit without a read error, with the entry of the `i`-th accepted Put. */
  ghost predicate ServedPut(c: Config, bodies: Bodies, steps: seq<Step>, id: Id, i: nat) {
    && ValidRun(c, steps) && HonestRun(c, bodies, steps)
    && var s := Run(c, steps);
       && id in s.handlers && s.handlers[id].phase.Hit? && !s.handlers[id].phase.broken
       && i < |s.puts| && s.puts[i].owner == s.handlers[id].owner && s.puts[i].key == s.handlers[id].key
       && s.handlers[id].phase.x.cached == Some(s.puts[i].entry)
  }

  /** Freshness: in every run with an honest origin, a hit that ends without a read error and is safe for the
      request has sent the body that the origin had when it answered. */
  lemma HitsAreFresh(c: Config, bodies: Bodies, steps: seq<Step>, id: Id, i: nat)
    requires ServedPut(c, bodies, steps, id, i)
    requires SafeToServe(Run(c, steps).puts[i].resp.etag, Run(c, steps).handlers[id].req)
    ensures var h := Run(c, steps).handlers[id]; h.phase.sent == h.phase.x.current.body
  {
    RunKeepsInv(c, steps);
    HonestRunKeepsFresh(c, bodies, steps);
    var s := Run(c, steps);
    hide Run, ValidRun, HonestRun, DisksOk, LocksOk, Owns, MayStore, SafeToServe;
    var h, r := s.handlers[id], s.puts[i];
    assert HandlerOk(c, s.puts, h) && Truthful(bodies, h) && RecordOk(c, r);
    SafeAsksForTheSame(r.resp.etag, r.resp.body, h.req);
    assert Consistent(bodies, h.key, Version(r.resp.etag, r.resp.body));
  }
}
