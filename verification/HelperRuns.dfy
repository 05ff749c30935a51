/** Safety of the helper protocol over every run. */
module HelperRuns {
  import opened CacheTypes
  import opened HelperModel

  /** In how many places a token is. */
  ghost function Places(s: State, t: Token): nat {
    multiset(ReqTokens(s.requests))[t] + multiset(ReqTokens(s.dialling))[t]
    + multiset(RespTokens(s.responses))[t] + multiset(RespTokens(s.batch.rest))[t]
    + (if t in s.answered then 1 else 0) + (if t in s.lost then 1 else 0)
  }

  /** A sent token is in exactly one place, any other token in none. */
  ghost predicate Conserved(s: State) {
    forall t :: Places(s, t) == if t in s.sent then 1 else 0
  }

  /** The parent still knows every request that it has not answered. */
  ghost predicate Remembered(s: State) {
    && (forall t :: t in s.processed ==> t in s.owner && s.processed[t] == s.owner[t])
    && s.sent <= s.owner.Keys
    && s.sent <= s.processed.Keys + s.answered
    && s.processed.Keys !! s.answered
    && (s.writing.Some? ==> s.writing.value in s.processed && s.writing.value !in s.sent)
  }

  /** Each call has its own reply channel, on which nothing was sent before its request is answered,
      and at most one reply is ever sent. */
  ghost predicate OneReply(s: State) {
    && (forall t :: t in s.owner ==> CallOf(s, s.owner[t]))
    && (forall t, u :: t in s.owner && u in s.owner && t != u ==> s.owner[t].replyCh != s.owner[u].replyCh)
    && (forall t :: t in s.processed && t in s.owner ==> s.owner[t].replyCh !in s.replies)
    && (forall ch :: ch in s.replies ==> |s.replies[ch]| == 1 && ch in s.calls)
  }

  ghost predicate CallOf(s: State, req: Request) {
    && req.replyCh in s.calls
    && s.calls[req.replyCh].network == req.network && s.calls[req.replyCh].addr == req.addr
  }

  /** Requests on the wire ask for what their caller asked for and have not been dialled yet. */
  ghost predicate RequestsOk(owner: map<Token, Request>, dialled: map<Token, Conn>, ws: seq<WireRequest>) {
    forall i :: 0 <= i < |ws| ==>
      && ws[i].token in owner && ws[i].token !in dialled
      && owner[ws[i].token].network == ws[i].network && owner[ws[i].token].addr == ws[i].addr
  }

  /** A response carries a descriptor exactly when it reports no error, and it is the one dialled for
      its token. */
  ghost predicate ResponsesOk(dialled: map<Token, Conn>, rs: seq<WireResponse>) {
    forall i :: 0 <= i < |rs| ==>
      && (rs[i].error == "" <==> rs[i].rights.Some?)
      && (rs[i].rights.Some? ==> rs[i].token in dialled && dialled[rs[i].token] == rs[i].rights.value)
  }

  ghost predicate WiresOk(s: State) {
    && RequestsOk(s.owner, s.dialled, s.requests)
    && RequestsOk(s.owner, s.dialled, s.dialling)
    && ResponsesOk(s.dialled, s.responses)
    && ResponsesOk(s.dialled, s.batch.rest)
    && (s.batch.done == 0 ==> s.batch.oob == Rights(s.batch.rest))
  }

  /** What was dialled for a token is what its caller asked for. */
  ghost predicate DialledRight(s: State) {
    forall t :: t in s.dialled ==>
      && t in s.sent && t in s.owner
      && s.dialled[t].network == s.owner[t].network && s.dialled[t].addr == s.owner[t].addr
  }

  /** `c` was dialled for the token of the call that waits on `ch`. */
  ghost predicate DialledFor(owner: map<Token, Request>, dialled: map<Token, Conn>, ch: Chan, c: Conn) {
    exists t :: t in dialled && t in owner && dialled[t] == c && owner[t].replyCh == ch
  }

  /** Every delivered connection was dialled for the call it was delivered to. */
  ghost predicate DeliveredRight(s: State) {
    forall ch, c :: ch in s.replies && Delivered(c) in s.replies[ch] ==> DialledFor(s.owner, s.dialled, ch, c)
  }

  ghost predicate Inv(s: State) {
    Conserved(s) && Remembered(s) && OneReply(s) && WiresOk(s) && DialledRight(s) && DeliveredRight(s)
  }

  lemma InitInv()
    ensures Inv(Init())
  {
  }

  lemma TokenIn(ws: seq<WireRequest>, i: nat)
    requires i < |ws|
    ensures ws[i].token in multiset(ReqTokens(ws))
  {
    assert ReqTokens(ws)[i] == ws[i].token;
  }

  lemma RespTokenIn(rs: seq<WireResponse>, i: nat)
    requires i < |rs|
    ensures rs[i].token in multiset(RespTokens(rs))
  {
    assert RespTokens(rs)[i] == rs[i].token;
  }

  lemma TokensOfSplit(ws: seq<WireRequest>, n: nat)
    requires n <= |ws|
    ensures multiset(ReqTokens(ws)) == multiset(ReqTokens(ws[..n])) + multiset(ReqTokens(ws[n..]))
  {
    assert ReqTokens(ws) == ReqTokens(ws[..n]) + ReqTokens(ws[n..]);
  }

  lemma TokensOfSum(a: seq<WireRequest>, b: seq<WireRequest>)
    ensures multiset(ReqTokens(a + b)) == multiset(ReqTokens(a)) + multiset(ReqTokens(b))
  {
    assert ReqTokens(a + b) == ReqTokens(a) + ReqTokens(b);
  }

  lemma TokensWithout(ws: seq<WireRequest>, i: nat)
    requires i < |ws|
    ensures multiset(ReqTokens(ws)) == multiset(ReqTokens(Without(ws, i))) + multiset{ws[i].token}
  {
    assert ReqTokens(ws) == ReqTokens(ws[..i]) + [ws[i].token] + ReqTokens(ws[i + 1..]);
    assert ReqTokens(Without(ws, i)) == ReqTokens(ws[..i]) + ReqTokens(ws[i + 1..]);
  }

  lemma RespTokensOfSplit(rs: seq<WireResponse>, n: nat)
    requires n <= |rs|
    ensures multiset(RespTokens(rs)) == multiset(RespTokens(rs[..n])) + multiset(RespTokens(rs[n..]))
  {
    assert RespTokens(rs) == RespTokens(rs[..n]) + RespTokens(rs[n..]);
  }

  lemma RespTokensOfSum(a: seq<WireResponse>, r: WireResponse)
    ensures multiset(RespTokens(a + [r])) == multiset(RespTokens(a)) + multiset{r.token}
  {
    assert RespTokens(a + [r]) == RespTokens(a) + [r.token];
  }

  lemma RespTokensOfHead(rs: seq<WireResponse>)
    requires rs != []
    ensures multiset(RespTokens(rs)) == multiset(RespTokens(rs[1..])) + multiset{rs[0].token}
  {
    assert RespTokens(rs) == [rs[0].token] + RespTokens(rs[1..]);
  }

  /** The parent's map holds the token of every response it can read: "response for a non-existent
      request" cannot happen. */
  lemma HeadIsKnown(s: State)
    requires Inv(s) && s.batch.rest != []
    ensures s.batch.rest[0].token in s.processed && s.batch.rest[0].token in s.owner
    ensures s.batch.rest[0].token in s.sent && s.batch.rest[0].token !in s.answered
  {
    var t := s.batch.rest[0].token;
    RespTokenIn(s.batch.rest, 0);
    assert Places(s, t) == if t in s.sent then 1 else 0;
  }

  ghost predicate ConservedAt(s: State, t: Token) {
    Places(s, t) == if t in s.sent then 1 else 0
  }

  lemma WriteConserves(s: State, ok: bool, t: Token)
    requires Inv(s) && Enabled(s, Write(ok))
    ensures ConservedAt(Apply(s, Write(ok)), t)
  {
    var u := s.writing.value;
    assert ConservedAt(s, t);
    TokensOfSum(s.requests, [WireRequest(u, s.processed[u].network, s.processed[u].addr)]);
    assert ReqTokens([WireRequest(u, s.processed[u].network, s.processed[u].addr)]) == [u];
  }

  lemma ChildReadConserves(s: State, n: nat, t: Token)
    requires Inv(s) && Enabled(s, ChildRead(n))
    ensures ConservedAt(Apply(s, ChildRead(n)), t)
  {
    assert ConservedAt(s, t);
    TokensOfSplit(s.requests, n);
    TokensOfSum(s.dialling, s.requests[..n]);
  }

  lemma ChildReplyConserves(s: State, i: nat, dial: Dial, t: Token)
    requires Inv(s) && Enabled(s, ChildReply(i, dial))
    ensures ConservedAt(Apply(s, ChildReply(i, dial)), t)
  {
    assert ConservedAt(s, t);
    TokensWithout(s.dialling, i);
    RespTokensOfSum(s.responses, Respond(s.dialling[i], dial));
  }

  lemma ChildReplyFailsConserves(s: State, i: nat, t: Token)
    requires Inv(s) && Enabled(s, ChildReplyFails(i))
    ensures ConservedAt(Apply(s, ChildReplyFails(i)), t)
  {
    assert ConservedAt(s, t);
    TokensWithout(s.dialling, i);
  }

  lemma ChildExitsConserves(s: State, t: Token)
    requires Inv(s) && Enabled(s, ChildExits)
    ensures ConservedAt(Apply(s, ChildExits), t)
  {
    assert ConservedAt(s, t);
    TokensOfSum(s.requests, s.dialling);
    var all := ReqTokens(s.requests + s.dialling);
    assert t in all <==> t in multiset(all);
  }

  lemma ParentReadConserves(s: State, n: nat, t: Token)
    requires Inv(s) && Enabled(s, ParentRead(n))
    ensures ConservedAt(Apply(s, ParentRead(n)), t)
  {
    assert ConservedAt(s, t);
    RespTokensOfSplit(s.responses, n);
  }

  lemma ProcessConserves(s: State, converts: bool, t: Token)
    requires Inv(s) && Enabled(s, Process(converts))
    ensures ConservedAt(Apply(s, Process(converts)), t)
  {
    hide Remembered, OneReply, WiresOk, DialledRight, DeliveredRight, Open;
    assert ConservedAt(s, t);
    HeadIsKnown(s);
    RespTokensOfHead(s.batch.rest);
  }

  lemma StepConserves(s: State, step: Step, t: Token)
    requires Inv(s) && Enabled(s, step)
    ensures ConservedAt(Apply(s, step), t)
  {
    hide Remembered, OneReply, WiresOk, DialledRight, DeliveredRight, ApplyWrite, ApplyReply, ApplyProcess;
    match step
    case Write(ok) => WriteConserves(s, ok, t);
    case ChildRead(n) => ChildReadConserves(s, n, t);
    case ChildReply(i, dial) => ChildReplyConserves(s, i, dial, t);
    case ChildReplyFails(i) => ChildReplyFailsConserves(s, i, t);
    case ChildExits => ChildExitsConserves(s, t);
    case ParentRead(n) => ParentReadConserves(s, n, t);
    case Process(converts) => ProcessConserves(s, converts, t);
    case _ => assert ConservedAt(s, t);
  }

  lemma AnsweredWasSent(s: State, t: Token)
    requires Inv(s) && t in s.answered
    ensures t in s.owner
  {
    assert ConservedAt(s, t);
  }

  lemma SubmitRemembers(s: State, req: Request, token: Token, marshals: bool)
    requires Remembered(s) && s.writing.None? && token !in s.owner && s.answered <= s.owner.Keys
    ensures Remembered(ApplySubmit(s, req, token, marshals))
  {
  }

  lemma WriteRemembers(s: State, token: Token, ok: bool)
    requires Remembered(s) && s.writing == Some(token)
    ensures Remembered(ApplyWrite(s, token, ok))
  {
  }

  lemma ProcessRemembers(s: State, r: WireResponse, converts: bool)
    requires Remembered(s) && s.batch.rest != [] && s.batch.rest[0] == r && r.token in s.sent
    ensures Remembered(ApplyProcess(s, r, converts))
  {
  }

  lemma StepRemembers(s: State, step: Step)
    requires Inv(s) && Enabled(s, step)
    ensures Remembered(Apply(s, step))
  {
    hide Conserved, OneReply, WiresOk, DialledRight, DeliveredRight, ApplySubmit, ApplyWrite, ApplyProcess;
    hide Respond, Rights, ReqTokens, Without;
    forall t | t in s.answered ensures t in s.owner { AnsweredWasSent(s, t); }
    match step
    case Submit(ch, network, addr, token, marshals) => SubmitRemembers(s, Request(network, addr, ch), token, marshals);
    case Write(ok) => WriteRemembers(s, s.writing.value, ok);
    case Process(converts) => HeadIsKnown(s); ProcessRemembers(s, s.batch.rest[0], converts);
    case _ =>
  }

  /** Answering a request that the parent still knows is the first send on its channel. */
  lemma SendIsTheFirst(s: State, t: Token, reply: Reply)
    requires OneReply(s) && Remembered(s) && t in s.processed
    ensures OneReply(Send(s.(processed := s.processed - {t}), s.processed[t].replyCh, reply))
    ensures s.processed[t].replyCh !in s.replies
  {
    hide Conserved, WiresOk, DialledRight, DeliveredRight;
  }

  /** `OneReply` depends on these parts of the state only. */
  lemma OneReplyFrame(s: State, s': State)
    requires OneReply(s)
    requires s'.owner == s.owner && s'.processed == s.processed && s'.replies == s.replies
    requires s'.calls.Keys == s.calls.Keys
    requires forall ch :: ch in s.calls ==>
               s'.calls[ch].network == s.calls[ch].network && s'.calls[ch].addr == s.calls[ch].addr
    ensures OneReply(s')
  {
    forall t | t in s'.owner ensures CallOf(s', s'.owner[t]) { assert CallOf(s, s.owner[t]); }
  }

  /** A new call, with a new channel and a new token. */
  lemma SubmitRepliesOnce(s: State, req: Request, token: Token, marshals: bool)
    requires OneReply(s) && token !in s.owner && req.replyCh !in s.calls && token !in s.processed
    ensures OneReply(ApplySubmit(s, req, token, marshals))
  {
    var s' := ApplySubmit(s, req, token, marshals);
    forall u | u in s.owner ensures s.owner[u].replyCh != req.replyCh && CallOf(s', s.owner[u]) {
      assert CallOf(s, s.owner[u]);
    }
    assert req.replyCh !in s.replies;
  }

  lemma WriteRepliesOnce(s: State, token: Token, ok: bool)
    requires OneReply(s) && Remembered(s) && token in s.processed
    ensures OneReply(ApplyWrite(s, token, ok))
  {
    SendIsTheFirst(s, token, Failed);
    hide OneReply;
    if ok {
      OneReplyFrame(s, ApplyWrite(s, token, ok));
    } else {
      OneReplyFrame(Send(s.(processed := s.processed - {token}), s.processed[token].replyCh, Failed),
                    ApplyWrite(s, token, ok));
    }
  }

  lemma ProcessRepliesOnce(s: State, r: WireResponse, converts: bool)
    requires OneReply(s) && Remembered(s) && r.token in s.processed
    requires s.batch.rest != [] && s.batch.rest[0] == r
    ensures OneReply(ApplyProcess(s, r, converts))
  {
    var reply := Open(r, if s.batch.done == 0 then s.batch.oob else [], converts);
    SendIsTheFirst(s, r.token, reply);
    hide OneReply, Open;
    OneReplyFrame(Send(s.(processed := s.processed - {r.token}), s.processed[r.token].replyCh, reply),
                  ApplyProcess(s, r, converts));
  }

  lemma StepRepliesOnce(s: State, step: Step)
    requires Inv(s) && Enabled(s, step)
    ensures OneReply(Apply(s, step))
  {
    hide OneReply, Conserved, WiresOk, DialledRight, DeliveredRight, ApplySubmit, ApplyWrite, ApplyProcess;
    match step
    case Submit(ch, network, addr, token, marshals) =>
      SubmitRepliesOnce(s, Request(network, addr, ch), token, marshals);
    case Write(ok) => WriteRepliesOnce(s, s.writing.value, ok);
    case Process(converts) => HeadIsKnown(s); ProcessRepliesOnce(s, s.batch.rest[0], converts);
    case _ => OneReplyFrame(s, Apply(s, step));
  }

  lemma WriteKeepsWires(s: State, token: Token, ok: bool)
    requires WiresOk(s) && Remembered(s) && DialledRight(s) && s.writing == Some(token)
    ensures WiresOk(ApplyWrite(s, token, ok))
  {
  }

  /** A new dial does not disturb what is known about other tokens. */
  lemma NewDialKeepsResponses(dialled: map<Token, Conn>, rs: seq<WireResponse>, t: Token, c: Conn)
    requires ResponsesOk(dialled, rs) && t !in multiset(RespTokens(rs))
    ensures ResponsesOk(dialled[t := c], rs)
  {
    forall i | 0 <= i < |rs| ensures rs[i].token != t { RespTokenIn(rs, i); }
  }

  lemma NewDialKeepsRequests(owner: map<Token, Request>, dialled: map<Token, Conn>, ws: seq<WireRequest>, t: Token, c: Conn)
    requires RequestsOk(owner, dialled, ws) && t !in multiset(ReqTokens(ws))
    ensures RequestsOk(owner, dialled[t := c], ws)
  {
    forall i | 0 <= i < |ws| ensures ws[i].token != t { TokenIn(ws, i); }
  }

  /** A token being dialled is nowhere else. */
  lemma DialledOnce(s: State, i: nat)
    requires Inv(s) && i < |s.dialling|
    ensures var t := s.dialling[i].token;
            && t in s.sent && t !in s.answered && t !in s.lost
            && t !in multiset(ReqTokens(s.requests)) && t !in multiset(ReqTokens(Without(s.dialling, i)))
            && t !in multiset(RespTokens(s.responses)) && t !in multiset(RespTokens(s.batch.rest))
  {
    TokensWithout(s.dialling, i);
    assert ConservedAt(s, s.dialling[i].token);
  }

  lemma ReplyKeepsWires(s: State, i: nat, r: WireResponse)
    requires WiresOk(s) && i < |s.dialling| && r.token == s.dialling[i].token
    requires r.error == "" <==> r.rights.Some?
    requires r.token !in multiset(ReqTokens(s.requests)) && r.token !in multiset(ReqTokens(Without(s.dialling, i)))
    requires r.token !in multiset(RespTokens(s.responses)) && r.token !in multiset(RespTokens(s.batch.rest))
    ensures WiresOk(ApplyReply(s, i, r))
  {
    assert RequestsOk(s.owner, s.dialled, Without(s.dialling, i));
    if r.rights.Some? {
      var c := r.rights.value;
      NewDialKeepsRequests(s.owner, s.dialled, s.requests, r.token, c);
      NewDialKeepsRequests(s.owner, s.dialled, Without(s.dialling, i), r.token, c);
      NewDialKeepsResponses(s.dialled, s.responses, r.token, c);
      NewDialKeepsResponses(s.dialled, s.batch.rest, r.token, c);
      hide Without, RequestsOk;
      assert ResponsesOk(s.dialled[r.token := c], s.responses + [r]);
    }
  }

  /** The child reports an error exactly when it sends no descriptor. */
  lemma RespondsInKind(w: WireRequest, dial: Dial)
    requires HasTexts(dial)
    ensures var r := Respond(w, dial);
            r.token == w.token && (r.error == "" <==> r.rights.Some?)
  {
  }

  lemma SubmitKeepsWires(s: State, req: Request, token: Token, marshals: bool)
    requires WiresOk(s) && token !in s.owner
    ensures WiresOk(ApplySubmit(s, req, token, marshals))
  {
  }

  lemma ProcessKeepsWires(s: State, r: WireResponse, converts: bool)
    requires WiresOk(s) && s.batch.rest != [] && s.batch.rest[0] == r
    ensures WiresOk(ApplyProcess(s, r, converts))
  {
  }

  lemma StepKeepsWires(s: State, step: Step)
    requires Inv(s) && Enabled(s, step)
    ensures WiresOk(Apply(s, step))
  {
    hide Conserved, OneReply, DeliveredRight, DialledRight, Remembered;
    hide ApplySubmit, ApplyWrite, ApplyReply, ApplyProcess, Respond;
    match step
    case Submit(ch, network, addr, token, marshals) => SubmitKeepsWires(s, Request(network, addr, ch), token, marshals);
    case Write(ok) => WriteKeepsWires(s, s.writing.value, ok);
    case ChildReply(i, dial) =>
      DialledOnce(s, i);
      RespondsInKind(s.dialling[i], dial);
      ReplyKeepsWires(s, i, Respond(s.dialling[i], dial));
    case Process(converts) => ProcessKeepsWires(s, s.batch.rest[0], converts);
    case _ =>
  }

  lemma ReplyDialsRight(s: State, i: nat, r: WireResponse)
    requires DialledRight(s) && i < |s.dialling| && r.token in s.sent && r.token in s.owner
    requires r.rights.Some? ==>
               r.rights.value.network == s.owner[r.token].network && r.rights.value.addr == s.owner[r.token].addr
    ensures DialledRight(ApplyReply(s, i, r))
  {
  }

  lemma StepDialsRight(s: State, step: Step)
    requires Inv(s) && Enabled(s, step)
    ensures DialledRight(Apply(s, step))
  {
    hide Conserved, OneReply, DeliveredRight, Remembered, ResponsesOk, Respond, Open, ApplyReply, Rights;
    hide ReqTokens, Without;
    if step.ChildReply? {
      DialledOnce(s, step.i);
      DialsWhatIsAsked(s.dialling[step.i], step.dial);
      ReplyDialsRight(s, step.i, Respond(s.dialling[step.i], step.dial));
    } else {
      OthersDialRight(s, step);
    }
  }

  lemma OthersDialRight(s: State, step: Step)
    requires Inv(s) && Enabled(s, step) && !step.ChildReply?
    ensures DialledRight(Apply(s, step))
  {
    hide Apply, Enabled, Conserved, OneReply, DeliveredRight, Remembered, WiresOk;
    OnlyRepliesDial(s, step);
  }

  lemma OnlyRepliesDial(s: State, step: Step)
    requires Enabled(s, step) && !step.ChildReply?
    ensures var s' := Apply(s, step);
            && s'.dialled == s.dialled && s.sent <= s'.sent
            && forall t :: t in s.owner ==> t in s'.owner && s'.owner[t] == s.owner[t]
  {
    hide Respond, Open, ApplyReply, ApplySubmit, ApplyWrite, ApplyProcess, Rights, ReqTokens, Without;
    if step.Submit? {
      SubmitDialsNothing(s, Request(step.network, step.addr, step.ch), step.token, step.marshals);
    } else if step.Write? {
      WriteDialsNothing(s, s.writing.value, step.ok);
    } else if step.Process? {
      ProcessDialsNothing(s, s.batch.rest[0], step.converts);
    }
  }

  lemma SubmitDialsNothing(s: State, req: Request, token: Token, marshals: bool)
    ensures var s' := ApplySubmit(s, req, token, marshals);
            s'.dialled == s.dialled && s'.sent == s.sent && s'.owner == s.owner[token := req]
  {
  }

  /** Sending a reply changes nothing else. */
  lemma SendFrame(s: State, ch: Chan, reply: Reply)
    ensures var s' := Send(s, ch, reply);
            && s'.dialled == s.dialled && s'.sent == s.sent && s'.owner == s.owner
            && s'.answered == s.answered && s'.responses == s.responses && s'.batch == s.batch
  {
  }

  lemma WriteDialsNothing(s: State, token: Token, ok: bool)
    ensures var s' := ApplyWrite(s, token, ok);
            && s'.dialled == s.dialled && s.sent <= s'.sent && s'.owner == s.owner
            && s'.answered == s.answered && s'.responses == s.responses && s'.batch == s.batch
  {
    hide Send;
    if token in s.processed && !ok {
      SendFrame(s.(writing := None, processed := s.processed - {token}), s.processed[token].replyCh, Failed);
    }
  }

  lemma ProcessDialsNothing(s: State, r: WireResponse, converts: bool)
    requires s.batch.rest != [] && s.batch.rest[0] == r
    ensures var s' := ApplyProcess(s, r, converts);
            s'.dialled == s.dialled && s'.sent == s.sent && s'.owner == s.owner
  {
    hide Open;
  }

  lemma DialsWhatIsAsked(w: WireRequest, dial: Dial)
    ensures var r := Respond(w, dial);
            r.token == w.token && (r.rights.Some? ==> r.rights.value.network == w.network && r.rights.value.addr == w.addr)
  {
  }

  /** The first message of a read, if it reports success, is opened with its own descriptor. */
  lemma OpensItsOwn(s: State, converts: bool)
    requires WiresOk(s) && s.batch.rest != []
    ensures var r := s.batch.rest[0];
            forall c :: Open(r, if s.batch.done == 0 then s.batch.oob else [], converts) == Delivered(c) ==>
              r.rights == Some(c) && r.token in s.dialled && s.dialled[r.token] == c
  {
    assert s.batch.rest[0].rights.Some? ==> Rights(s.batch.rest)[0] == s.batch.rest[0].rights.value;
  }

  lemma ProcessDeliversRight(s: State, r: WireResponse, converts: bool)
    requires WiresOk(s) && Remembered(s) && OneReply(s) && DeliveredRight(s)
    requires s.batch.rest != [] && s.batch.rest[0] == r && r.token in s.processed
    ensures DeliveredRight(ApplyProcess(s, r, converts))
  {
    OpensItsOwn(s, converts);
    SendIsTheFirst(s, r.token, Failed);
    var s' := ApplyProcess(s, r, converts);
    var mine := s.processed[r.token].replyCh;
    hide WiresOk, Open, OneReply;
    forall ch, c | ch in s'.replies && Delivered(c) in s'.replies[ch] ensures DialledFor(s'.owner, s'.dialled, ch, c) {
      if ch == mine {
        assert s'.replies[ch][0] == Delivered(c);
        assert s.dialled[r.token] == c && s.owner[r.token].replyCh == ch;
      }
    }
  }

  lemma SubmitDeliversRight(s: State, req: Request, token: Token, marshals: bool)
    requires DeliveredRight(s) && token !in s.owner && req.replyCh !in s.replies
    ensures DeliveredRight(ApplySubmit(s, req, token, marshals))
  {
    var s' := ApplySubmit(s, req, token, marshals);
    forall ch, c | ch in s'.replies && Delivered(c) in s'.replies[ch] ensures DialledFor(s'.owner, s'.dialled, ch, c) {
      assert DialledFor(s.owner, s.dialled, ch, c);
      var t :| t in s.dialled && t in s.owner && s.dialled[t] == c && s.owner[t].replyCh == ch;
      assert s'.owner[t].replyCh == ch;
    }
  }

  lemma WriteDeliversRight(s: State, token: Token, ok: bool)
    requires DeliveredRight(s) && OneReply(s) && Remembered(s) && token in s.processed
    ensures DeliveredRight(ApplyWrite(s, token, ok))
  {
    SendIsTheFirst(s, token, Failed);
  }

  lemma ReplyDeliversRight(s: State, i: nat, r: WireResponse)
    requires DeliveredRight(s) && i < |s.dialling| && r.token !in s.dialled
    ensures DeliveredRight(ApplyReply(s, i, r))
  {
    var s' := ApplyReply(s, i, r);
    forall ch, c | ch in s'.replies && Delivered(c) in s'.replies[ch] ensures DialledFor(s'.owner, s'.dialled, ch, c) {
      assert DialledFor(s.owner, s.dialled, ch, c);
      var t :| t in s.dialled && t in s.owner && s.dialled[t] == c && s.owner[t].replyCh == ch;
      assert s'.dialled[t] == c;
    }
  }

  lemma StepDeliversRight(s: State, step: Step)
    requires Inv(s) && Enabled(s, step)
    ensures DeliveredRight(Apply(s, step))
  {
    hide Conserved, DialledRight, ApplySubmit, ApplyWrite, ApplyReply, ApplyProcess, Respond;
    match step
    case Submit(ch, network, addr, token, marshals) =>
      SubmitDeliversRight(s, Request(network, addr, ch), token, marshals);
    case Write(ok) => WriteDeliversRight(s, s.writing.value, ok);
    case ChildReply(i, dial) =>
      DialsWhatIsAsked(s.dialling[i], dial);
      ReplyDeliversRight(s, i, Respond(s.dialling[i], dial));
    case Process(converts) => HeadIsKnown(s); ProcessDeliversRight(s, s.batch.rest[0], converts);
    case _ =>
  }

  lemma StepKeepsInv(s: State, step: Step)
    requires Inv(s) && Enabled(s, step)
    ensures Inv(Apply(s, step))
  {
    var s' := Apply(s, step);
    forall t ensures Places(s', t) == if t in s'.sent then 1 else 0 {
      StepConserves(s, step, t);
    }
    StepRemembers(s, step);
    StepRepliesOnce(s, step);
    StepKeepsWires(s, step);
    StepDialsRight(s, step);
    StepDeliversRight(s, step);
  }

  ghost predicate ValidRun(steps: seq<Step>)
    decreases |steps|, 0
  {
    steps == [] ||
    (var init := steps[..|steps| - 1]; ValidRun(init) && Enabled(Run(init), steps[|steps| - 1]))
  }

  ghost function Run(steps: seq<Step>): State
    requires ValidRun(steps)
    decreases |steps|, 1
  {
    if steps == [] then Init() else Apply(Run(steps[..|steps| - 1]), steps[|steps| - 1])
  }

  lemma {:induction false} RunKeepsInv(steps: seq<Step>)
    requires ValidRun(steps)
    ensures Inv(Run(steps))
    decreases |steps|
  {
    hide Inv, Apply, Enabled;
    if steps == [] {
      InitInv();
    } else {
      RunKeepsInv(steps[..|steps| - 1]);
      StepKeepsInv(Run(steps[..|steps| - 1]), steps[|steps| - 1]);
    }
  }

  /** Token conservation, for every run: a sent token is in exactly one of the request stream, a dial,
      the response stream, the read being processed, the answered and the lost tokens; one that is
      neither answered nor lost is still known to the parent. */
  lemma TokenConservation(steps: seq<Step>, t: Token)
    requires ValidRun(steps) && t in Run(steps).sent
    ensures var s := Run(steps);
            && Places(s, t) == 1
            && (t !in s.answered ==> t in s.processed && t in s.owner && s.processed[t] == s.owner[t])
  {
    RunKeepsInv(steps);
    assert ConservedAt(Run(steps), t);
    hide ValidRun, Run, Conserved, OneReply, WiresOk, DialledRight, DeliveredRight;
  }

  /** "Response for a non-existent request" is unreachable. */
  lemma ResponsesAreExpected(steps: seq<Step>)
    requires ValidRun(steps) && Run(steps).batch.rest != []
    ensures Run(steps).batch.rest[0].token in Run(steps).processed
  {
    RunKeepsInv(steps);
    HeadIsKnown(Run(steps));
  }

  lemma SendsOnce(s: State, step: Step, ch: Chan)
    requires OneReply(s) && Enabled(s, step) && OneReply(Apply(s, step)) && ch in Apply(s, step).replies
    ensures var after := Apply(s, step).replies;
            |after[ch]| == 1 && (ch in s.replies ==> after[ch] == s.replies[ch])
  {
    if ch in s.replies {
      RepliesOnlyGrow(s, step, ch);
    }
    hide Apply, CallOf;
  }

  /** A reply channel gets at most one send, so its capacity of one never blocks either loop, whether
      or not the caller is still there. */
  lemma NeverBlocks(steps: seq<Step>, step: Step, ch: Chan)
    requires ValidRun(steps) && Enabled(Run(steps), step)
    requires ch in Apply(Run(steps), step).replies
    ensures var before, after := Run(steps).replies, Apply(Run(steps), step).replies;
            |after[ch]| == 1 && (ch in before ==> after[ch] == before[ch])
  {
    hide ValidRun, Run, Apply, Enabled, OneReply, Conserved, WiresOk, Remembered, DialledRight, DeliveredRight;
    RunKeepsInv(steps);
    StepRepliesOnce(Run(steps), step);
    SendsOnce(Run(steps), step, ch);
  }

  lemma RepliesOnlyGrow(s: State, step: Step, ch: Chan)
    requires Enabled(s, step) && ch in s.replies
    ensures ch in Apply(s, step).replies && s.replies[ch] <= Apply(s, step).replies[ch]
  {
    hide Open, Respond, Rights, ReqTokens, Without, ApplySubmit, ApplyWrite, ApplyProcess;
    if step.Submit? {
      SubmitGrowsReplies(s, Request(step.network, step.addr, step.ch), step.token, step.marshals, ch);
    } else if step.Write? {
      WriteGrowsReplies(s, s.writing.value, step.ok, ch);
    } else if step.Process? {
      ProcessGrowsReplies(s, s.batch.rest[0], step.converts, ch);
    }
  }

  lemma SubmitGrowsReplies(s: State, req: Request, token: Token, marshals: bool, ch: Chan)
    requires ch in s.replies
    ensures ch in ApplySubmit(s, req, token, marshals).replies
    ensures s.replies[ch] <= ApplySubmit(s, req, token, marshals).replies[ch]
  {
  }

  lemma WriteGrowsReplies(s: State, token: Token, ok: bool, ch: Chan)
    requires ch in s.replies
    ensures ch in ApplyWrite(s, token, ok).replies && s.replies[ch] <= ApplyWrite(s, token, ok).replies[ch]
  {
  }

  lemma ProcessGrowsReplies(s: State, r: WireResponse, converts: bool, ch: Chan)
    requires ch in s.replies && s.batch.rest != [] && s.batch.rest[0] == r
    ensures ch in ApplyProcess(s, r, converts).replies && s.replies[ch] <= ApplyProcess(s, r, converts).replies[ch]
  {
    hide Open;
  }

  /** Delivery, for every run: a delivered connection is the one the child dialled for that very call,
      to the network and address that the caller asked for. */
  lemma DeliversWhatWasAsked(steps: seq<Step>, ch: Chan, c: Conn)
    requires ValidRun(steps) && ch in Run(steps).replies && Delivered(c) in Run(steps).replies[ch]
    ensures var s := Run(steps);
            && DialledFor(s.owner, s.dialled, ch, c)
            && ch in s.calls && s.calls[ch].network == c.network && s.calls[ch].addr == c.addr
  {
    RunKeepsInv(steps);
    var s := Run(steps);
    hide ValidRun, Run, Conserved, Remembered, WiresOk;
    assert DialledFor(s.owner, s.dialled, ch, c);
    var t :| t in s.dialled && t in s.owner && s.dialled[t] == c && s.owner[t].replyCh == ch;
    assert CallOf(s, s.owner[t]);
  }
}
