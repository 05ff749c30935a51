/** When a successful dial reaches its caller. The descriptors of a read all go to its first message, so a
    connection is delivered exactly when its response comes first in its read and brings the only
    descriptor of it. */
module HelperDelivery {
  import opened CacheTypes
  import opened HelperModel
  import opened HelperRuns

  ghost predicate DeliveredTo(s: State, t: Token)
    requires t in s.owner && t in s.dialled
  {
    s.owner[t].replyCh in s.replies && s.replies[s.owner[t].replyCh] == [Delivered(s.dialled[t])]
  }

  /** Every dial that succeeded and was answered has reached its caller. */
  ghost predicate AllDelivered(s: State) {
    forall t :: t in s.answered && t in s.dialled && t in s.owner ==> DeliveredTo(s, t)
  }

  /** Without a descriptor nothing was dialled. */
  ghost predicate NotDialled(dialled: map<Token, Conn>, rs: seq<WireResponse>) {
    forall i :: 0 <= i < |rs| && rs[i].rights.None? ==> rs[i].token !in dialled
  }

  ghost predicate Replied(s: State) {
    forall t :: t in s.answered ==> t in s.owner && s.owner[t].replyCh in s.replies
  }

  ghost predicate Settled(s: State) {
    NotDialled(s.dialled, s.responses) && NotDialled(s.dialled, s.batch.rest) && Replied(s)
  }

  /** No message but the first has a descriptor. */
  predicate FirstOnly(rs: seq<WireResponse>) {
    forall i :: 0 < i < |rs| ==> rs[i].rights.None?
  }

  /** If the step processes a success, it is the first of its read and has the only descriptor of it. */
  predicate Yields(s: State, step: Step) {
    step.Process? && s.batch.rest != [] && s.batch.rest[0].rights.Some? ==>
      s.batch.done == 0 && FirstOnly(s.batch.rest) && step.converts
  }

  lemma {:induction false} NoRights(rs: seq<WireResponse>)
    ensures Rights(rs) == [] <==> forall i :: 0 <= i < |rs| ==> rs[i].rights.None?
  {
    if rs != [] {
      NoRights(rs[1..]);
      assert (forall i :: 0 <= i < |rs| ==> rs[i].rights.None?) ==>
               forall i :: 0 <= i < |rs[1..]| ==> rs[1..][i].rights.None?;
      assert forall i :: 0 < i < |rs| ==> rs[i] == rs[1..][i - 1];
    }
  }

  /** What the parent makes of the next message of a read, if that reports a success. */
  lemma OpensExactly(s: State, converts: bool)
    requires WiresOk(s) && s.batch.rest != [] && s.batch.rest[0].rights.Some?
    ensures var r := s.batch.rest[0];
            Open(r, if s.batch.done == 0 then s.batch.oob else [], converts) == Delivered(r.rights.value)
            <==> Yields(s, Process(converts))
  {
    var rest := s.batch.rest;
    NoRights(rest[1..]);
    assert forall i :: 0 < i < |rest| ==> rest[i] == rest[1..][i - 1];
    assert FirstOnly(rest) <==> forall i :: 0 <= i < |rest[1..]| ==> rest[1..][i].rights.None?;
  }

  /** What answering the next message changes. */
  lemma ProcessEffect(s: State, converts: bool)
    requires Inv(s) && s.batch.rest != []
    ensures var r := s.batch.rest[0];
            var s' := ApplyProcess(s, r, converts);
            && r.token in s.owner && r.token !in s.answered && s.owner[r.token].replyCh !in s.replies
            && s'.owner == s.owner && s'.dialled == s.dialled && s'.answered == s.answered + {r.token}
            && s'.replies == s.replies[s.owner[r.token].replyCh :=
                 [Open(r, if s.batch.done == 0 then s.batch.oob else [], converts)]]
            && s'.responses == s.responses && s'.batch.rest == s.batch.rest[1..]
  {
    hide Conserved, WiresOk, DeliveredRight, DialledRight, Open;
    HeadIsKnown(s);
    var r := s.batch.rest[0];
    SendIsTheFirst(s, r.token, Failed);
    assert s.processed[r.token] == s.owner[r.token];
    var reply := Open(r, if s.batch.done == 0 then s.batch.oob else [], converts);
    assert [] + [reply] == [reply];
  }

  lemma HeadIsDialled(s: State)
    requires WiresOk(s) && Settled(s) && s.batch.rest != []
    ensures var r := s.batch.rest[0];
            && (r.rights.Some? <==> r.token in s.dialled)
            && (r.rights.Some? ==> s.dialled[r.token] == r.rights.value)
  {
  }

  /** Answering a message delivers exactly if it yields. */
  lemma ProcessDelivers(s: State, converts: bool)
    requires Inv(s) && Settled(s) && s.batch.rest != []
    ensures AllDelivered(ApplyProcess(s, s.batch.rest[0], converts)) <==> AllDelivered(s) && Yields(s, Process(converts))
  {
    hide Conserved, WiresOk, DeliveredRight, DialledRight, Remembered, OneReply, Open, ApplyProcess, NotDialled;
    var r := s.batch.rest[0];
    var s' := ApplyProcess(s, r, converts);
    ProcessEffect(s, converts);
    HeadIsDialled(s);
    if r.rights.Some? {
      OpensExactly(s, converts);
      assert DeliveredTo(s', r.token) <==> Yields(s, Process(converts));
    }
    hide Yields;
    forall t | t in s.answered && t in s.dialled && t in s.owner ensures DeliveredTo(s', t) <==> DeliveredTo(s, t) {
      assert s.owner[t].replyCh in s.replies;
    }
  }

  lemma ProcessSettles(s: State, converts: bool)
    requires Inv(s) && Settled(s) && s.batch.rest != []
    ensures Settled(ApplyProcess(s, s.batch.rest[0], converts))
  {
    hide Inv, Open, ApplyProcess;
    ProcessEffect(s, converts);
  }

  lemma ProcessStep(s: State, converts: bool)
    requires Enabled(s, Process(converts))
    ensures s.batch.rest != [] && Apply(s, Process(converts)) == ApplyProcess(s, s.batch.rest[0], converts)
  {
  }

  lemma SubmitFrame(s: State, req: Request, token: Token, marshals: bool)
    ensures var s' := ApplySubmit(s, req, token, marshals);
            s'.answered == s.answered && s'.responses == s.responses && s'.batch == s.batch
  {
  }

  /** Other steps answer nothing, and responses only move, except for the one that the child writes. */
  lemma OthersFrame(s: State, step: Step)
    requires Enabled(s, step) && !step.Process?
    ensures var s' := Apply(s, step);
            && s'.answered == s.answered
            && (step.ParentRead? ==>
                  s'.responses == s.responses[step.n..] && s'.batch.rest == s.responses[..step.n] && s'.batch.done == 0)
            && (!step.ParentRead? ==> s'.batch == s.batch)
            && (!step.ParentRead? && !step.ChildReply? ==> s'.responses == s.responses)
  {
    hide Respond, Open, ApplyProcess, ApplySubmit, ApplyWrite, Rights, ReqTokens, Without;
    if step.Submit? {
      SubmitFrame(s, Request(step.network, step.addr, step.ch), step.token, step.marshals);
    } else if step.Write? {
      WriteDialsNothing(s, s.writing.value, step.ok);
    }
  }

  lemma AnsweredStays(s: State, step: Step, t: Token)
    requires Inv(s) && Settled(s) && Enabled(s, step) && Inv(Apply(s, step)) && !step.Process? && t in s.answered
    ensures var s' := Apply(s, step);
            && t in s.owner && t in s'.owner && s'.owner[t] == s.owner[t]
            && s.owner[t].replyCh in s.replies && s.owner[t].replyCh in s'.replies
            && s'.replies[s.owner[t].replyCh] == s.replies[s.owner[t].replyCh]
            && (t in s'.dialled <==> t in s.dialled) && (t in s.dialled ==> s'.dialled[t] == s.dialled[t])
  {
    hide Apply, Enabled, Conserved, WiresOk, DeliveredRight, DialledRight, Remembered, OneReply, NotDialled;
    if step.ChildReply? {
      ChildReplyEffect(s, step.i, step.dial);
    } else {
      OnlyRepliesDial(s, step);
    }
    RepliesOnlyGrow(s, step, s.owner[t].replyCh);
    SendsOnce(s, step, s.owner[t].replyCh);
  }

  lemma ChildReplyEffect(s: State, i: nat, dial: Dial)
    requires Inv(s) && Enabled(s, ChildReply(i, dial))
    ensures var s' := Apply(s, ChildReply(i, dial));
            var r := Respond(s.dialling[i], dial);
            && s'.owner == s.owner && s'.responses == s.responses + [r] && s'.batch == s.batch
            && s'.dialled == (if r.rights.Some? then s.dialled[r.token := r.rights.value] else s.dialled)
            && r.token !in s.answered && (r.rights.None? ==> r.token !in s.dialled)
            && r.token !in multiset(RespTokens(s.responses)) && r.token !in multiset(RespTokens(s.batch.rest))
  {
    DialledOnce(s, i);
    DialsWhatIsAsked(s.dialling[i], dial);
    hide Conserved, DeliveredRight, DialledRight, Remembered, OneReply, Respond;
    assert RequestsOk(s.owner, s.dialled, s.dialling);
  }

  lemma NewDialKeepsSilence(dialled: map<Token, Conn>, rs: seq<WireResponse>, t: Token, c: Conn)
    requires NotDialled(dialled, rs) && t !in multiset(RespTokens(rs))
    ensures NotDialled(dialled[t := c], rs)
  {
    forall i | 0 <= i < |rs| ensures rs[i].token != t { RespTokenIn(rs, i); }
  }

  lemma ChildReplySettles(s: State, i: nat, dial: Dial)
    requires Inv(s) && Settled(s) && Enabled(s, ChildReply(i, dial))
    ensures var s' := Apply(s, ChildReply(i, dial));
            NotDialled(s'.dialled, s'.responses) && NotDialled(s'.dialled, s'.batch.rest)
  {
    hide Apply, Inv, Respond;
    ChildReplyEffect(s, i, dial);
    var r := Respond(s.dialling[i], dial);
    if r.rights.Some? {
      NewDialKeepsSilence(s.dialled, s.responses, r.token, r.rights.value);
      NewDialKeepsSilence(s.dialled, s.batch.rest, r.token, r.rights.value);
    }
  }

  lemma StepSettles(s: State, step: Step)
    requires Inv(s) && Settled(s) && Enabled(s, step) && Inv(Apply(s, step))
    ensures Settled(Apply(s, step))
  {
    hide Apply, Inv, ApplyProcess;
    var s' := Apply(s, step);
    if step.Process? {
      ProcessStep(s, step.converts);
      ProcessSettles(s, step.converts);
    } else {
      OthersFrame(s, step);
      forall t | t in s'.answered ensures t in s'.owner && s'.owner[t].replyCh in s'.replies {
        AnsweredStays(s, step, t);
      }
      if step.ChildReply? {
        ChildReplySettles(s, step.i, step.dial);
      } else {
        OnlyRepliesDial(s, step);
      }
    }
  }

  lemma StepDelivers(s: State, step: Step)
    requires Inv(s) && Settled(s) && Enabled(s, step) && Inv(Apply(s, step))
    ensures AllDelivered(Apply(s, step)) <==> AllDelivered(s) && Yields(s, step)
  {
    hide Apply, Enabled, Inv, Settled, ApplyProcess;
    var s' := Apply(s, step);
    if step.Process? {
      ProcessStep(s, step.converts);
      ProcessDelivers(s, step.converts);
    } else {
      OthersFrame(s, step);
      forall t | t in s.answered
        ensures t in s.owner && t in s'.owner && (t in s'.dialled <==> t in s.dialled)
        ensures t in s.dialled ==> (DeliveredTo(s', t) <==> DeliveredTo(s, t))
      {
        AnsweredStays(s, step, t);
      }
    }
  }

  /** Every success that the run processed came first in its read and had the only descriptor of it. */
  ghost predicate AllYield(steps: seq<Step>)
    requires ValidRun(steps)
    decreases |steps|
  {
    steps == [] ||
    (var init := steps[..|steps| - 1]; AllYield(init) && Yields(Run(init), steps[|steps| - 1]))
  }

  lemma SettledAtFirst()
    ensures Settled(Init()) && AllDelivered(Init())
  {
  }

  /** Delivery, for every run: all answered successes have reached their callers exactly if every one of them
      came first in its read and had the only descriptor of it. */
  lemma {:induction false} DeliversExactly(steps: seq<Step>)
    requires ValidRun(steps)
    ensures Settled(Run(steps)) && (AllDelivered(Run(steps)) <==> AllYield(steps))
    decreases |steps|
  {
    hide Apply, Enabled, Inv, Settled, AllDelivered, Yields;
    if steps == [] {
      SettledAtFirst();
    } else {
      var init, last := steps[..|steps| - 1], steps[|steps| - 1];
      DeliversExactly(init);
      RunKeepsInv(init);
      RunKeepsInv(steps);
      StepSettles(Run(init), last);
      StepDelivers(Run(init), last);
    }
  }

  /** A reading schedule that keeps descriptors in front: reads end before the next message that has one. */
  ghost predicate DescriptorsFirst(steps: seq<Step>)
    requires ValidRun(steps)
    decreases |steps|
  {
    steps == [] ||
    (var init, last := steps[..|steps| - 1], steps[|steps| - 1];
     && DescriptorsFirst(init)
     && (last.ParentRead? && last.n <= |Run(init).responses| ==> FirstOnly(Run(init).responses[..last.n]))
     && (last.Process? ==> last.converts))
  }

  /** Only the first message of a read can still have a descriptor. */
  ghost predicate OnlyFirstLeft(s: State) {
    forall i :: 0 <= i < |s.batch.rest| && (i > 0 || s.batch.done > 0) ==> s.batch.rest[i].rights.None?
  }

  lemma StepKeepsFirst(s: State, step: Step)
    requires Enabled(s, step) && OnlyFirstLeft(s)
    requires step.ParentRead? ==> FirstOnly(s.responses[..step.n])
    ensures OnlyFirstLeft(Apply(s, step))
  {
    if step.Process? {
      ProcessStep(s, step.converts);
      hide Apply, Open;
    } else {
      OthersFrame(s, step);
      hide Apply;
    }
  }

  lemma {:induction false} FirstStaysFirst(steps: seq<Step>)
    requires ValidRun(steps) && DescriptorsFirst(steps)
    ensures OnlyFirstLeft(Run(steps)) && AllYield(steps)
    decreases |steps|
  {
    if steps != [] {
      var init, last := steps[..|steps| - 1], steps[|steps| - 1];
      FirstStaysFirst(init);
      StepKeepsFirst(Run(init), last);
    }
  }

  /** So under such a schedule every dial that succeeded and was answered has reached its caller. */
  lemma DescriptorsFirstDelivers(steps: seq<Step>, t: Token)
    requires ValidRun(steps) && DescriptorsFirst(steps)
    requires t in Run(steps).answered && t in Run(steps).dialled
    ensures var s := Run(steps);
            && t in s.owner && s.owner[t].replyCh in s.replies
            && s.replies[s.owner[t].replyCh] == [Delivered(s.dialled[t])]
  {
    FirstStaysFirst(steps);
    DeliversExactly(steps);
    hide ValidRun, Run, AllYield, DescriptorsFirst, OnlyFirstLeft;
    assert t in Run(steps).owner;
    assert DeliveredTo(Run(steps), t);
  }

  /** A dial that leads to a connection over TCP or UDP, all of whose system calls succeed. */
  predicate Succeeds(dial: Dial) {
    dial.Connects? && (dial.kind == Tcp || dial.kind == Udp) && dial.syscallError.None? && dial.controlError.None?
  }

  /** Exactly such a dial is answered with a descriptor, and it is the one that was dialled for the request. */
  lemma SuccessIsAnswered(w: WireRequest, dial: Dial)
    ensures Respond(w, dial).rights.Some? <==> Succeeds(dial)
    ensures Succeeds(dial) ==> Respond(w, dial) == WireResponse(w.token, "", Some(Conn(w.network, w.addr, dial.serial)))
  {
  }

  lemma {:induction false} PrefixIsRun(steps: seq<Step>, j: nat)
    requires ValidRun(steps) && j <= |steps|
    ensures ValidRun(steps[..j]) && (j < |steps| ==> Enabled(Run(steps[..j]), steps[j]))
    ensures j < |steps| ==> ValidRun(steps[..j + 1]) && Run(steps[..j + 1]) == Apply(Run(steps[..j]), steps[j])
    decreases |steps|
  {
    hide Apply, Enabled;
    if j == |steps| {
      assert steps[..j] == steps;
    } else if j == |steps| - 1 {
      assert steps[..j + 1] == steps;
    } else {
      var init := steps[..|steps| - 1];
      PrefixIsRun(init, j);
      assert init[..j] == steps[..j] && init[..j + 1] == steps[..j + 1] && init[j] == steps[j];
    }
  }

  lemma DialledStaysAtStep(s: State, step: Step, t: Token)
    requires Inv(s) && Enabled(s, step) && t in s.dialled && t in s.owner
    ensures var s' := Apply(s, step);
            && t in s'.dialled && s'.dialled[t] == s.dialled[t] && t in s'.owner && s'.owner[t] == s.owner[t]
  {
    hide Apply, Enabled, Inv, Respond;
    if step.ChildReply? {
      ChildReplyKeepsDialled(s, step.i, step.dial, t);
    } else {
      OnlyRepliesDial(s, step);
    }
  }

  lemma ChildReplyKeepsDialled(s: State, i: nat, dial: Dial, t: Token)
    requires Inv(s) && Enabled(s, ChildReply(i, dial)) && t in s.dialled
    ensures var s' := Apply(s, ChildReply(i, dial));
            s'.owner == s.owner && t in s'.dialled && s'.dialled[t] == s.dialled[t]
  {
    hide Inv, Apply, Enabled;
    ChildReplyEffect(s, i, dial);
    NotYetDialled(s, i, dial);
    DialsWhatIsAsked(s.dialling[i], dial);
    hide Respond;
  }

  lemma NotYetDialled(s: State, i: nat, dial: Dial)
    requires Inv(s) && Enabled(s, ChildReply(i, dial))
    ensures i < |s.dialling| && s.dialling[i].token !in s.dialled && s.dialling[i].token in s.owner
  {
    hide Conserved, Remembered, OneReply, DialledRight, DeliveredRight;
    assert RequestsOk(s.owner, s.dialled, s.dialling);
  }

  lemma {:induction false} DialledStays(steps: seq<Step>, j: nat, t: Token)
    requires ValidRun(steps) && j <= |steps| && ValidRun(steps[..j])
    requires t in Run(steps[..j]).dialled && t in Run(steps[..j]).owner
    ensures var s, s' := Run(steps[..j]), Run(steps);
            && t in s'.dialled && s'.dialled[t] == s.dialled[t] && t in s'.owner && s'.owner[t] == s.owner[t]
    decreases |steps|
  {
    hide Apply, Enabled, Inv;
    if j == |steps| {
      assert steps[..j] == steps;
    } else {
      var init := steps[..|steps| - 1];
      assert init[..j] == steps[..j];
      DialledStays(init, j, t);
      RunKeepsInv(init);
      DialledStaysAtStep(Run(init), steps[|steps| - 1], t);
    }
  }

  /** What a successful dial leaves behind: the connection under the token of its request. */
  lemma SuccessIsDialled(s: State, i: nat, dial: Dial)
    requires Inv(s) && Enabled(s, ChildReply(i, dial)) && Succeeds(dial)
    ensures var w, s' := s.dialling[i], Apply(s, ChildReply(i, dial));
            && w.token in s'.owner && s'.owner == s.owner
            && s.owner[w.token].network == w.network && s.owner[w.token].addr == w.addr
            && w.token in s'.dialled && s'.dialled[w.token] == Conn(w.network, w.addr, dial.serial)
  {
    SuccessIsAnswered(s.dialling[i], dial);
    ChildReplyEffect(s, i, dial);
    NotYetDialled(s, i, dial);
    assert RequestsOk(s.owner, s.dialled, s.dialling);
    hide Inv, Apply, Respond;
  }

  /** From dial to caller, in every run: if the successes that the run processed came first in their reads, brought
      the only descriptor and converted, then whoever asked for a dial that succeeded, and was answered, got
      exactly the connection of that dial. */
  lemma SuccessfulDialsAreDelivered(steps: seq<Step>, j: nat)
    requires ValidRun(steps) && AllYield(steps) && j < |steps| && steps[j].ChildReply? && Succeeds(steps[j].dial)
    ensures ValidRun(steps[..j]) && steps[j].i < |Run(steps[..j]).dialling|
    ensures var w, s := Run(steps[..j]).dialling[steps[j].i], Run(steps);
            && w.token in s.owner && s.owner[w.token].network == w.network && s.owner[w.token].addr == w.addr
            && (w.token in s.answered ==>
                  && s.owner[w.token].replyCh in s.replies
                  && s.replies[s.owner[w.token].replyCh] == [Delivered(Conn(w.network, w.addr, steps[j].dial.serial))])
  {
    hide ValidRun, Run, AllYield, Inv, Apply;
    PrefixIsRun(steps, j);
    var before := Run(steps[..j]);
    RunKeepsInv(steps[..j]);
    SuccessIsDialled(before, steps[j].i, steps[j].dial);
    var t := before.dialling[steps[j].i].token;
    DialledStays(steps, j + 1, t);
    DeliversExactly(steps);
    assert t in Run(steps).answered ==> DeliveredTo(Run(steps), t);
  }

  /** A call whose request is no longer under way has had a reply. */
  ghost predicate NobodyWaitsInVain(s: State) {
    forall t :: t in s.owner && t !in s.processed ==> s.owner[t].replyCh in s.replies
  }

  lemma SubmitAnswers(s: State, req: Request, token: Token, marshals: bool)
    requires NobodyWaitsInVain(s) && token !in s.owner
    ensures NobodyWaitsInVain(ApplySubmit(s, req, token, marshals))
  {
  }

  lemma WriteAnswers(s: State, token: Token, ok: bool)
    requires NobodyWaitsInVain(s) && Remembered(s)
    ensures NobodyWaitsInVain(ApplyWrite(s, token, ok))
  {
  }

  lemma ProcessAnswers(s: State, converts: bool)
    requires NobodyWaitsInVain(s) && Remembered(s) && s.batch.rest != []
    ensures NobodyWaitsInVain(ApplyProcess(s, s.batch.rest[0], converts))
  {
    hide Open;
  }

  lemma StepAnswers(s: State, step: Step)
    requires NobodyWaitsInVain(s) && Remembered(s) && Enabled(s, step)
    ensures NobodyWaitsInVain(Apply(s, step))
  {
    hide Remembered, ApplySubmit, ApplyWrite, ApplyProcess, Respond, Rights, ReqTokens, Without;
    if step.Submit? {
      SubmitAnswers(s, Request(step.network, step.addr, step.ch), step.token, step.marshals);
    } else if step.Write? {
      WriteAnswers(s, s.writing.value, step.ok);
    } else if step.Process? {
      ProcessAnswers(s, step.converts);
    }
  }

  /** In every run: a request is under way until its caller has had exactly one reply, and no longer. */
  lemma {:induction false} EveryCallIsAnswered(steps: seq<Step>)
    requires ValidRun(steps)
    ensures NobodyWaitsInVain(Run(steps))
    ensures var s := Run(steps);
            forall t :: t in s.owner ==>
              && (t in s.processed <==> s.owner[t].replyCh !in s.replies)
              && (s.owner[t].replyCh in s.replies ==> |s.replies[s.owner[t].replyCh]| == 1)
    decreases |steps|
  {
    hide Apply, Enabled;
    RunKeepsInv(steps);
    if steps != [] {
      var init := steps[..|steps| - 1];
      EveryCallIsAnswered(init);
      RunKeepsInv(init);
      hide NobodyWaitsInVain, Conserved, WiresOk, DialledRight, DeliveredRight;
      StepAnswers(Run(init), steps[|steps| - 1]);
    }
    AnsweredOrNot(Run(steps));
  }

  lemma AnsweredOrNot(s: State)
    requires Inv(s) && NobodyWaitsInVain(s)
    ensures forall t :: t in s.owner ==>
              && (t in s.processed <==> s.owner[t].replyCh !in s.replies)
              && (s.owner[t].replyCh in s.replies ==> |s.replies[s.owner[t].replyCh]| == 1)
  {
    hide Conserved, WiresOk, DialledRight, DeliveredRight;
  }

  /** Why the child's errors need a text: one without would be opened with the descriptor of the next
      message of the same read. */
  lemma EmptyErrorTextMisdelivers(t: Token, u: Token, c: Conn)
    ensures var batch := [Respond(WireRequest(t, "tcp", "a:1"), DialFails("")), WireResponse(u, "", Some(c))];
            Open(batch[0], Rights(batch), true) == Delivered(c)
  {
    var batch := [Respond(WireRequest(t, "tcp", "a:1"), DialFails("")), WireResponse(u, "", Some(c))];
    assert Rights(batch[1..][1..]) == [];
    assert Rights(batch[1..]) == [c];
  }
}
