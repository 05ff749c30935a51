/** `pkg/localnetworkhelper` as an asynchronous protocol. The parent hands dial requests to a child
    process over a stream socket and gets sockets back as descriptors that travel beside the bytes.
    Dials finish in any order, one read may return several messages, callers may give up at any time
    and the child may die at any time. */
module HelperModel {
  import opened CacheTypes

  type Token = nat
  type Chan = nat

  /** A connected socket, known by what was dialled. */
  datatype Conn = Conn(network: string, addr: string, serial: nat)

  /** The parent's `Request`. */
  datatype Request = Request(network: string, addr: string, replyCh: Chan)

  datatype WireRequest = WireRequest(token: Token, network: string, addr: string)

  /** A response and the descriptor written with it. */
  datatype WireResponse = WireResponse(token: Token, error: string, rights: Option<Conn>)

  datatype Reply = Delivered(conn: Conn) | Failed

  datatype Kind = Tcp | Udp | OtherKind

  /** What `net.Dial` and the calls on its result do. */
  datatype Dial =
    | DialFails(text: string)
    | Connects(serial: nat, kind: Kind, syscallError: Option<string>, controlError: Option<string>)

  const UNSUPPORTED: string := "unsupported net.Conn type"

  /** `handleRequest` in the child, up to the write. */
  function Respond(w: WireRequest, dial: Dial): WireResponse {
    match dial
    case DialFails(text) => WireResponse(w.token, text, None)
    case Connects(serial, kind, syscallError, controlError) =>
      if kind.OtherKind? then WireResponse(w.token, UNSUPPORTED, None)
      else if syscallError.Some? then WireResponse(w.token, syscallError.value, None)
      else if controlError.Some? then WireResponse(w.token, controlError.value, None)
      else WireResponse(w.token, "", Some(Conn(w.network, w.addr, serial)))
  }

  /** Errors of the Go runtime have a text. */
  predicate HasTexts(dial: Dial) {
    match dial
    case DialFails(text) => text != ""
    case Connects(_, _, s, c) => s != Some("") && c != Some("")
  }

  /** `handleResponse` in the parent: `oob` holds every descriptor of the read for the first message
      of the read and nothing for the others. */
  function Open(r: WireResponse, oob: seq<Conn>, converts: bool): Reply {
    if r.error != "" then Failed
    else if |oob| != 1 then Failed
    else if !converts then Failed
    else Delivered(oob[0])
  }

  function Rights(batch: seq<WireResponse>): (oob: seq<Conn>) {
    if batch == [] then []
    else (if batch[0].rights.Some? then [batch[0].rights.value] else []) + Rights(batch[1..])
  }

  /** One read of the parent: the responses it returned that are still to be processed, the number
      already processed and the descriptors it carried. */
  datatype Batch = Batch(rest: seq<WireResponse>, done: nat, oob: seq<Conn>)

  datatype Call = Call(network: string, addr: string, gaveUp: bool)

  datatype State = State(
    // the parent
    calls: map<Chan, Call>,
    processed: map<Token, Request>,
    writing: Option<Token>,
    batch: Batch,
    stopped: bool,
    // the wires and the child
    requests: seq<WireRequest>,
    dialling: seq<WireRequest>,
    responses: seq<WireResponse>,
    childUp: bool,
    // what happened so far
    owner: map<Token, Request>,
    sent: set<Token>,
    answered: set<Token>,
    lost: set<Token>,
    dialled: map<Token, Conn>,
    replies: map<Chan, seq<Reply>>)

  function Init(): State {
    State(map[], map[], None, Batch([], 0, []), false, [], [], [], true,
          map[], {}, {}, {}, map[], map[])
  }

  datatype Step =
    | Submit(ch: Chan, network: string, addr: string, token: Token, marshals: bool)
    | Write(ok: bool)
    | GiveUp(ch: Chan)
    | ChildRead(n: nat)
    | ChildReply(i: nat, dial: Dial)
    | ChildReplyFails(i: nat)
    | ChildExits
    | ParentRead(n: nat)
    | ParentReadFails
    | Process(converts: bool)

  predicate Enabled(s: State, step: Step) {
    match step
    case Submit(ch, _, _, token, _) => s.writing.None? && ch !in s.calls && token !in s.owner
    case Write(_) => s.writing.Some?
    case GiveUp(ch) => ch in s.calls
    case ChildRead(n) => s.childUp && 0 < n <= |s.requests|
    case ChildReply(i, dial) => s.childUp && i < |s.dialling| && HasTexts(dial)
    case ChildReplyFails(i) => s.childUp && i < |s.dialling|
    case ChildExits => s.childUp
    case ParentRead(n) => !s.stopped && s.batch.rest == [] && 0 < n <= |s.responses|
    case ParentReadFails => !s.stopped && s.batch.rest == []
    case Process(_) => !s.stopped && s.batch.rest != []
  }

  function Send(s: State, ch: Chan, reply: Reply): State {
    s.(replies := s.replies[ch := (if ch in s.replies then s.replies[ch] else []) + [reply]])
  }

  function ReqTokens(ws: seq<WireRequest>): seq<Token> {
    seq(|ws|, i requires 0 <= i < |ws| => ws[i].token)
  }

  function RespTokens(rs: seq<WireResponse>): seq<Token> {
    seq(|rs|, i requires 0 <= i < |rs| => rs[i].token)
  }

  function Without(ws: seq<WireRequest>, i: nat): seq<WireRequest>
    requires i < |ws|
  {
    ws[..i] + ws[i + 1..]
  }

  /** `PrivilegedDialContext` hands its request to `handleRequests`, which picks a token for it and,
      unless it cannot be marshalled, stores it before sending it. */
  function ApplySubmit(s: State, req: Request, token: Token, marshals: bool): State {
    var called := s.(calls := s.calls[req.replyCh := Call(req.network, req.addr, false)],
                     owner := s.owner[token := req]);
    if marshals then called.(processed := s.processed[token := req], writing := Some(token))
    else Send(called, req.replyCh, Failed)
  }

  /** The write of the stored request; if it fails, the request is forgotten and the caller told. */
  function ApplyWrite(s: State, token: Token, ok: bool): State {
    if token !in s.processed then s.(writing := None)
    else
      var req := s.processed[token];
      if ok then
        s.(writing := None, sent := s.sent + {token},
           requests := s.requests + [WireRequest(token, req.network, req.addr)])
      else Send(s.(writing := None, processed := s.processed - {token}), req.replyCh, Failed)
  }

  /** The child's goroutine `i` writes its response. */
  function ApplyReply(s: State, i: nat, r: WireResponse): State
    requires i < |s.dialling|
  {
    s.(dialling := Without(s.dialling, i), responses := s.responses + [r],
       dialled := if r.rights.Some? then s.dialled[r.token := r.rights.value] else s.dialled)
  }

  /** One turn of the decoding loop of `handleResponses`. */
  function ApplyProcess(s: State, r: WireResponse, converts: bool): State
    requires s.batch.rest != [] && s.batch.rest[0] == r
  {
    if r.token !in s.processed then s.(stopped := true)
    else
      var oob := if s.batch.done == 0 then s.batch.oob else [];
      var taken := s.(processed := s.processed - {r.token},
                      batch := Batch(s.batch.rest[1..], s.batch.done + 1, s.batch.oob),
                      answered := s.answered + {r.token});
      Send(taken, s.processed[r.token].replyCh, Open(r, oob, converts))
  }

  function Apply(s: State, step: Step): State
    requires Enabled(s, step)
  {
    match step
    case Submit(ch, network, addr, token, marshals) =>
      ApplySubmit(s, Request(network, addr, ch), token, marshals)
    case Write(ok) => ApplyWrite(s, s.writing.value, ok)
    case GiveUp(ch) => s.(calls := s.calls[ch := s.calls[ch].(gaveUp := true)])
    case ChildRead(n) =>
      s.(requests := s.requests[n..], dialling := s.dialling + s.requests[..n])
    case ChildReply(i, dial) => ApplyReply(s, i, Respond(s.dialling[i], dial))
    case ChildReplyFails(i) =>
      s.(dialling := Without(s.dialling, i), lost := s.lost + {s.dialling[i].token})
    case ChildExits =>
      s.(childUp := false, requests := [], dialling := [],
         lost := s.lost + set t | t in ReqTokens(s.requests + s.dialling))
    case ParentRead(n) =>
      s.(responses := s.responses[n..], batch := Batch(s.responses[..n], 0, Rights(s.responses[..n])))
    case ParentReadFails => s.(stopped := true)
    case Process(converts) => ApplyProcess(s, s.batch.rest[0], converts)
  }

  /** All the turns of the decoding loop for one read. */
  function Drain(s: State, converts: seq<bool>): State
    requires !s.stopped ==> |converts| == |s.batch.rest|
    decreases |converts|
  {
    if s.stopped || s.batch.rest == [] then s
    else Drain(ApplyProcess(s, s.batch.rest[0], converts[0]), converts[1..])
  }
}
