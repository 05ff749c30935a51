/** That the protocol gets anything done: from every quiet state a call can be answered with its connection. */
module HelperProgress {
  import opened CacheTypes
  import opened HelperModel
  import opened HelperRuns
  import opened HelperDelivery

  /** Nothing is on the wires, in a read or being written, and both ends are up. */
  predicate Quiet(s: State) {
    && s.writing.None? && s.requests == [] && s.responses == [] && s.batch.rest == []
    && s.childUp && !s.stopped
  }

  lemma GoesOn(steps: seq<Step>, s: State, step: Step) returns (more: seq<Step>)
    requires ValidRun(steps) && Run(steps) == s && Enabled(s, step)
    ensures more == steps + [step] && ValidRun(more) && Run(more) == Apply(s, step)
  {
    hide Apply, Enabled;
    more := steps + [step];
    assert more[..|steps|] == steps;
  }

  /** The request of a new call reaches the child. */
  lemma IsAsked(steps: seq<Step>, ch: Chan, network: string, addr: string, token: Token) returns (more: seq<Step>)
    requires ValidRun(steps) && Quiet(Run(steps)) && ch !in Run(steps).calls && token !in Run(steps).owner
    ensures steps <= more && ValidRun(more)
    ensures var s, s' := Run(steps), Run(more);
            && s'.dialling == s.dialling + [WireRequest(token, network, addr)] && s'.requests == []
            && s'.responses == [] && s'.batch == s.batch && s'.childUp && !s'.stopped && s'.writing.None?
            && token in s'.owner && s'.owner[token] == Request(network, addr, ch)
  {
    hide ValidRun, Run;
    var s := Run(steps);
    var req := Request(network, addr, ch);
    more := GoesOn(steps, s, Submit(ch, network, addr, token, true));
    var s1 := Apply(s, Submit(ch, network, addr, token, true));
    assert s1.writing == Some(token) && token in s1.processed && s1.processed[token] == req;
    more := GoesOn(more, s1, Write(true));
    var s2 := Apply(s1, Write(true));
    assert s2.requests == [WireRequest(token, network, addr)];
    more := GoesOn(more, s2, ChildRead(1));
    assert s2.requests[..1] == s2.requests && s2.requests[1..] == [];
  }

  /** The answer to the last dial reaches the parent, which processes it. */
  lemma IsAnswered(steps: seq<Step>, dial: Dial) returns (more: seq<Step>)
    requires ValidRun(steps) && Succeeds(dial)
    requires var s := Run(steps);
             s.dialling != [] && s.responses == [] && s.batch.rest == [] && s.childUp && !s.stopped
    ensures steps <= more && ValidRun(more)
    ensures var s, s' := Run(steps), Run(more);
            var w := s.dialling[|s.dialling| - 1];
            && w.token in s.owner && s.owner[w.token].replyCh in s'.replies
            && s'.replies[s.owner[w.token].replyCh] == [Delivered(Conn(w.network, w.addr, dial.serial))]
  {
    hide ValidRun, Run, Inv;
    var s := Run(steps);
    var i := |s.dialling| - 1;
    var r := Respond(s.dialling[i], dial);
    SuccessIsAnswered(s.dialling[i], dial);
    RunKeepsInv(steps);
    assert HasTexts(dial);
    NotYetDialled(s, i, dial);
    more := GoesOn(steps, s, ChildReply(i, dial));
    var s1 := Apply(s, ChildReply(i, dial));
    assert s1.responses == [r];
    more := GoesOn(more, s1, ParentRead(1));
    var s2 := Apply(s1, ParentRead(1));
    TheOnlyOne(r);
    assert s1.responses[..1] == [r];
    assert s2.batch == Batch([r], 0, [r.rights.value]);
    RunKeepsInv(more);
    hide Apply, Respond;
    ProcessEffect(s2, true);
    ProcessIsEnabled(s2);
    ProcessStep(s2, true);
    more := GoesOn(more, s2, Process(true));
  }

  lemma ProcessIsEnabled(s: State)
    requires !s.stopped && s.batch.rest != []
    ensures Enabled(s, Process(true))
  {
  }

  lemma TheOnlyOne(r: WireResponse)
    requires r.rights.Some?
    ensures Rights([r]) == [r.rights.value]
  {
    assert [r][1..] == [];
  }

  /** From every quiet state of every run: a new call to any network and address can be answered with the connection
      that was dialled for it. */
  lemma CallsCanBeAnswered(steps: seq<Step>, ch: Chan, network: string, addr: string, token: Token, dial: Dial)
    returns (more: seq<Step>)
    requires ValidRun(steps) && Quiet(Run(steps)) && ch !in Run(steps).calls && token !in Run(steps).owner
    requires Succeeds(dial)
    ensures steps <= more && ValidRun(more)
    ensures var s := Run(more); ch in s.replies && s.replies[ch] == [Delivered(Conn(network, addr, dial.serial))]
  {
    hide ValidRun, Run;
    var asked := IsAsked(steps, ch, network, addr, token);
    more := IsAnswered(asked, dial);
  }

  /** After a fatal error the parent reads and processes nothing more. */
  lemma FatalErrorsAreFinal(s: State, step: Step)
    requires Enabled(s, step)
    ensures s.stopped ==> Apply(s, step).stopped && !step.ParentRead? && !step.Process?
    ensures step.ParentReadFails? ==> Apply(s, step).stopped
  {
    hide Respond, Open, Rights, ReqTokens, Without;
  }

  /** A caller that gives up is marked and changes nothing else. */
  lemma GivingUpIsQuiet(s: State, ch: Chan)
    requires Enabled(s, GiveUp(ch))
    ensures ch in s.calls && Apply(s, GiveUp(ch)) == s.(calls := s.calls[ch := s.calls[ch].(gaveUp := true)])
  {
  }

  /** Any call of the runtime can fail at any time that it can be made, and the child can go at any time. */
  lemma AnythingCanFail(s: State, i: nat)
    ensures s.writing.Some? ==> Enabled(s, Write(false))
    ensures s.childUp ==> Enabled(s, ChildExits)
    ensures s.childUp && i < |s.dialling| ==> Enabled(s, ChildReplyFails(i))
    ensures !s.stopped && s.batch.rest == [] ==> Enabled(s, ParentReadFails)
    ensures !s.stopped && s.batch.rest != [] ==> Enabled(s, Process(false))
    ensures forall ch :: ch in s.calls ==> Enabled(s, GiveUp(ch))
  {
  }

  /** A read can return any number of the responses that wait, and the child's read any number of requests. */
  lemma AnythingCanCoalesce(s: State, n: nat)
    requires 0 < n
    ensures !s.stopped && s.batch.rest == [] && n <= |s.responses| ==> Enabled(s, ParentRead(n))
    ensures s.childUp && n <= |s.requests| ==> Enabled(s, ChildRead(n))
  {
  }

  /** Any dial can finish next, in any way that its errors have texts. */
  lemma AnyDialCanFinish(s: State, i: nat, dial: Dial)
    requires s.childUp && i < |s.dialling|
    requires dial.DialFails? ==> dial.text != ""
    requires dial.Connects? ==> dial.syscallError != Some("") && dial.controlError != Some("")
    ensures Enabled(s, ChildReply(i, dial))
  {
  }
}
