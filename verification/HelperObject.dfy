/** The two ends of the helper protocol as the program has them. The endless loops appear as one method
    per turn: a request taken by `handleRequests`, a read taken apart by `handleResponses`. */
module HelperObject {
  import opened CacheTypes
  import opened HelperModel

  class LocalNetworkHelper {
    var requestsProcessed: map<Token, Request>
    var replies: map<Chan, seq<Reply>>  // what was sent on each reply channel
    var failed: bool

    /** The parent's part of a state of the protocol. */
    ghost predicate Represents(s: State)
      reads this
    {
      requestsProcessed == s.processed && replies == s.replies && failed == s.stopped
    }

    constructor ()
      ensures Represents(Init())
    {
      requestsProcessed, replies, failed := map[], map[], false;
    }

    method SendReply(ch: Chan, reply: Reply)
      modifies this`replies
      ensures replies == old(replies)[ch := (if ch in old(replies) then old(replies)[ch] else []) + [reply]]
    {
      replies := replies[ch := (if ch in replies then replies[ch] else []) + [reply]];
    }

    /** One turn of `handleRequests`: the request is stored before it is written, and forgotten again if
        the write fails. */
    method HandleRequest(ghost s: State, request: Request, token: Token, marshals: bool, writes: bool)
      returns (message: Option<WireRequest>)
      requires Represents(s) && token !in s.processed
      modifies this
      ensures var submitted := ApplySubmit(s, request, token, marshals);
              Represents(if marshals then ApplyWrite(submitted, token, writes) else submitted)
      ensures message == if marshals && writes then Some(WireRequest(token, request.network, request.addr)) else None
    {
      hide ApplySubmit, ApplyWrite, Send;
      AfterRequest(s, request, token, marshals, writes);
      if !marshals {
        SendReply(request.replyCh, Failed);
        return None;
      }
      requestsProcessed := requestsProcessed[token := request];
      if !writes {
        StoredAndForgotten(s.processed, token, request);
        requestsProcessed := requestsProcessed - {token};
        SendReply(request.replyCh, Failed);
        return None;
      }
      return Some(WireRequest(token, request.network, request.addr));
    }

    /** One read of `handleResponses`: the messages are decoded in turn and the descriptors of the read go
        to the first of them. */
    method HandleRead(ghost s: State, messages: seq<WireResponse>, oob: seq<Conn>, converts: seq<bool>)
      requires Represents(s) && !s.stopped && s.batch == Batch(messages, 0, oob) && |converts| == |messages|
      modifies this
      ensures Represents(Drain(s, converts))
    {
      hide Drain, Open, Rights;
      ghost var current := s;
      var i := 0;
      assert messages[0..] == messages && converts[0..] == converts;
      while i < |messages| && !failed
        invariant i <= |messages| && Represents(current)
        invariant !failed ==> current.batch == Batch(messages[i..], i, oob)
        invariant Drain(current, converts[i..]) == Drain(s, converts)
      {
        var r := messages[i];
        var currentOOB := if i == 0 then oob else [];
        assert converts[i..][1..] == converts[i + 1..] && messages[i..][1..] == messages[i + 1..];
        DrainsOne(current, converts[i..]);
        current := ApplyProcess(current, r, converts[i]);
        if r.token !in requestsProcessed {
          failed := true;
        } else {
          var request := requestsProcessed[r.token];
          requestsProcessed := requestsProcessed - {r.token};
          SendReply(request.replyCh, Open(r, currentOOB, converts[i]));
        }
        i := i + 1;
      }
      DrainsNothing(current, converts[i..]);
    }
  }

  function Replied(replies: map<Chan, seq<Reply>>, ch: Chan, reply: Reply): map<Chan, seq<Reply>> {
    replies[ch := (if ch in replies then replies[ch] else []) + [reply]]
  }

  lemma AfterRequest(s: State, request: Request, token: Token, marshals: bool, writes: bool)
    requires token !in s.processed
    ensures var submitted := ApplySubmit(s, request, token, marshals);
            var after := if marshals then ApplyWrite(submitted, token, writes) else submitted;
            && after.stopped == s.stopped
            && after.processed == (if marshals && writes then s.processed[token := request] else s.processed)
            && after.replies == if marshals && writes then s.replies else Replied(s.replies, request.replyCh, Failed)
  {
    if marshals && !writes {
      AfterFailedWrite(s, request, token);
    } else {
      hide ApplyWrite;
    }
  }

  lemma AfterFailedWrite(s: State, request: Request, token: Token)
    requires token !in s.processed
    ensures var after := ApplyWrite(ApplySubmit(s, request, token, true), token, false);
            && after.stopped == s.stopped && after.processed == s.processed
            && after.replies == Replied(s.replies, request.replyCh, Failed)
  {
    StoredAndForgotten(s.processed, token, request);
  }

  lemma StoredAndForgotten(m: map<Token, Request>, token: Token, request: Request)
    requires token !in m
    ensures m[token := request] - {token} == m
  {
  }

  lemma DrainsOne(s: State, converts: seq<bool>)
    requires !s.stopped && s.batch.rest != [] && |converts| == |s.batch.rest|
    ensures Drain(s, converts) == Drain(ApplyProcess(s, s.batch.rest[0], converts[0]), converts[1..])
  {
  }

  lemma DrainsNothing(s: State, converts: seq<bool>)
    requires s.stopped || (s.batch.rest == [] && converts == [])
    ensures Drain(s, converts) == s
  {
  }

  /** `helper.handleRequest` in the child: the response's fields and the descriptor are filled in step by
      step, and a response without a descriptor always reports an error. */
  method HandleDial(w: WireRequest, dial: Dial) returns (r: WireResponse)
    ensures r == Respond(w, dial)
    ensures HasTexts(dial) ==> (r.error == "" <==> r.rights.Some?)
    ensures match dial
            case DialFails(text) => r == WireResponse(w.token, text, None)
            case Connects(serial, kind, syscallError, controlError) =>
              if kind != Tcp && kind != Udp then r == WireResponse(w.token, "unsupported net.Conn type", None)
              else if syscallError.Some? then r == WireResponse(w.token, syscallError.value, None)
              else if controlError.Some? then r == WireResponse(w.token, controlError.value, None)
              else r == WireResponse(w.token, "", Some(Conn(w.network, w.addr, serial)))
  {
    r := WireResponse(w.token, "", None);
    match dial
    case DialFails(text) =>
      r := r.(error := text);
    case Connects(serial, kind, syscallError, controlError) =>
      var haveSyscallConn := false;
      if kind.OtherKind? {
        r := r.(error := UNSUPPORTED);
      } else if syscallError.Some? {
        r := r.(error := syscallError.value);
      } else {
        haveSyscallConn := true;
      }
      if haveSyscallConn {
        if controlError.Some? {
          r := r.(error := controlError.value);
        } else {
          r := r.(rights := Some(Conn(w.network, w.addr, serial)));
        }
      }
  }
}
