/**
 * One stdio session: requests with their own ids on one stream of incoming
 * lines (sections 4.1 and 5 of JSON-RPC 2.0). What a receive can meet, beside a
 * line, is part of the stream: a timeout, a read error, the end, a stop.
 */
module McpSession {
  import opened Wrappers

  /** The `id` member of a frame; only an unsigned number can be one of ours. */
  datatype FrameId = Number(n: nat) | OtherId(text: string)

  datatype Frame = Frame(methodName: Option<string>, id: Option<FrameId>, body: string)

  datatype Arrival = Line(frame: Frame) | Malformed | ReadError | Timeout | Closed | Stop

  datatype Reply = Roots(id: FrameId) | Pong(id: FrameId) | NotImplemented(id: FrameId, methodName: string)

  datatype Failure = JsonError | ReadFailed | TimedOut | StdoutClosed | Cancelled | WriteFailed

  predicate IsRequest(a: Arrival) {
    a.Line? && a.frame.methodName.Some? && a.frame.id.Some?
  }

  predicate IsNotification(a: Arrival) {
    a.Line? && a.frame.methodName.Some? && a.frame.id.None?
  }

  predicate IsResponseTo(a: Arrival, id: nat) {
    a.Line? && a.frame.methodName.None? && a.frame.id == Some(Number(id))
  }

  function FailureOf(a: Arrival): Option<Failure> {
    match a
    case Line(_) => None
    case Malformed => Some(JsonError)
    case ReadError => Some(ReadFailed)
    case Timeout => Some(TimedOut)
    case Closed => Some(StdoutClosed)
    case Stop => Some(Cancelled)
  }

  function Serve(f: Frame): Reply
    requires f.methodName.Some? && f.id.Some?
  {
    if f.methodName.value == "roots/list" then Roots(f.id.value)
    else if f.methodName.value == "ping" then Pong(f.id.value)
    else NotImplemented(f.id.value, f.methodName.value)
  }

  // ---- What a stream asks for ----

  function Replies(stream: seq<Arrival>): seq<Reply> {
    if stream == [] then []
    else
      var last := stream[|stream| - 1];
      Replies(stream[..|stream| - 1]) + (if IsRequest(last) then [Serve(last.frame)] else [])
  }

  function Notifications(stream: seq<Arrival>): seq<Frame> {
    if stream == [] then []
    else
      var last := stream[|stream| - 1];
      Notifications(stream[..|stream| - 1]) + (if IsNotification(last) then [last.frame] else [])
  }

  lemma {:induction false} StreamsConcatenate(a: seq<Arrival>, b: seq<Arrival>)
    ensures Replies(a + b) == Replies(a) + Replies(b)
    ensures Notifications(a + b) == Notifications(a) + Notifications(b)
  {
    if b == [] {
      assert a + b == a;
    } else {
      StreamsConcatenate(a, b[..|b| - 1]);
      assert (a + b)[..|a + b| - 1] == a + b[..|b| - 1];
    }
  }

  // ---- One exchange ----

  /**
   * The exchange ends before the arrival `at` is passed: it is the response, a
   * failure, or a request whose answer could not be written.
   */
  predicate Ends(a: Arrival, id: nat, writeFails: bool) {
    IsResponseTo(a, id) || FailureOf(a).Some? || (IsRequest(a) && writeFails)
  }

  /** The outcome of an exchange: what it consumed, answered and buffered, and its result. */
  datatype Exchange = Exchange(consumed: nat, answered: seq<Reply>, notes: seq<Frame>, result: Result<Frame, Failure>)

  /**
   * The loop over arrivals. `writeFails(i)` says whether answering the i-th
   * arrival fails, `requestFails` whether writing the request itself does.
   */
  method StdioRoundtrip(stream: seq<Arrival>, id: nat, requestFails: bool, writeFails: nat -> bool)
    returns (e: Exchange)
    ensures IsExchange(e, stream, id, requestFails, writeFails)
  {
    if requestFails { return Exchange(0, [], [], Err(WriteFailed)); }
    var answered: seq<Reply>, notes: seq<Frame> := [], [];
    var i := 0;
    while i < |stream|
      invariant 0 <= i <= |stream|
      invariant answered == Replies(stream[..i]) && notes == Notifications(stream[..i])
      invariant NoneEnds(stream, i, id, writeFails)
    {
      var a := stream[i];
      assert stream[..i + 1][..i] == stream[..i];
      var failure := FailureOf(a);
      if failure.Some? { return Exchange(i + 1, answered, notes, Err(failure.value)); }
      var f := a.frame;
      if f.methodName.Some? && f.id.Some? {
        if writeFails(i) { return Exchange(i + 1, answered, notes, Err(WriteFailed)); }
        answered := answered + [Serve(f)];
      } else if f.methodName.Some? {
        notes := notes + [f];
      } else if f.id == Some(Number(id)) {
        return Exchange(i + 1, answered, notes, Ok(f));
      }
      i := i + 1;
    }
    assert stream[..|stream|] == stream;
    return Exchange(|stream|, answered, notes, Err(StdoutClosed));
  }

  predicate NoneEnds(stream: seq<Arrival>, n: nat, id: nat, writeFails: nat -> bool)
    requires n <= |stream|
  {
    forall k {:trigger Ends(stream[k], id, writeFails(k))} :: 0 <= k < n ==> !Ends(stream[k], id, writeFails(k))
  }

  /**
   * An exchange, outright: it passes arrivals until the first that ends it;
   * every request it passed is answered once and in order, every notification
   * buffered in order, and its result is what that last arrival says.
   */
  predicate IsExchange(e: Exchange, stream: seq<Arrival>, id: nat, requestFails: bool, writeFails: nat -> bool) {
    if requestFails then e == Exchange(0, [], [], Err(WriteFailed))
    else
      && e.consumed <= |stream|
      && (e.consumed == 0 ==> stream == [])
      && var passed := if e.consumed > 0 && Ends(stream[e.consumed - 1], id, writeFails(e.consumed - 1))
                       then e.consumed - 1 else e.consumed;
         && (passed == e.consumed ==> e.consumed == |stream|)
         && NoneEnds(stream, passed, id, writeFails)
         && e.answered == Replies(stream[..passed]) && e.notes == Notifications(stream[..passed])
         && e.result == if passed == e.consumed then Err(StdoutClosed) else ResultOf(stream[passed], id)
  }

  function ResultOf(a: Arrival, id: nat): Result<Frame, Failure> {
    if FailureOf(a).Some? then Err(FailureOf(a).value)
    else if IsResponseTo(a, id) then Ok(a.frame)
    else Err(WriteFailed)
  }

  /**
   * A frame is returned exactly when a response with the request's own id
   * arrives before anything that ends the exchange.
   */
  lemma ReturnsOwnResponse(e: Exchange, stream: seq<Arrival>, id: nat, writeFails: nat -> bool)
    requires IsExchange(e, stream, id, false, writeFails)
    ensures e.result.Ok? <==>
      exists i :: 0 <= i < |stream| && IsResponseTo(stream[i], id) && NoneEnds(stream, i, id, writeFails)
    ensures e.result.Ok? ==> e.result.value.methodName == None && e.result.value.id == Some(Number(id))
  {
    if i :| 0 <= i < |stream| && IsResponseTo(stream[i], id) && NoneEnds(stream, i, id, writeFails) {
      assert Ends(stream[i], id, writeFails(i));
      assert e.consumed > 0;
    }
  }

  /**
   * What one arrival is answered and buffered as. A request for the roots gets
   * them, a ping its pong, any other request the error that it is not
   * implemented, each under the request's own id; a method without an id is a
   * notification.
   */
  lemma ArrivalIs(a: Arrival)
    ensures Replies([a]) ==
      if a.Line? && a.frame.methodName.Some? && a.frame.id.Some? then
        if a.frame.methodName.value == "roots/list" then [Roots(a.frame.id.value)]
        else if a.frame.methodName.value == "ping" then [Pong(a.frame.id.value)]
        else [NotImplemented(a.frame.id.value, a.frame.methodName.value)]
      else []
    ensures Notifications([a]) ==
      if a.Line? && a.frame.methodName.Some? && a.frame.id.None? then [a.frame] else []
  {
    assert [a][..|[a]| - 1] == [];
  }

  /** How an exchange whose request was written ends, told by the last arrival it consumed. */
  lemma ExchangeEnds(e: Exchange, stream: seq<Arrival>, id: nat, writeFails: nat -> bool)
    requires IsExchange(e, stream, id, false, writeFails)
    ensures
      if e.consumed == 0 then stream == [] && e.result == Err(StdoutClosed)
      else
        match stream[e.consumed - 1]
        case Malformed => e.result == Err(JsonError)
        case ReadError => e.result == Err(ReadFailed)
        case Timeout => e.result == Err(TimedOut)
        case Closed => e.result == Err(StdoutClosed)
        case Stop => e.result == Err(Cancelled)
        case Line(f) =>
          if f.methodName.None? && f.id == Some(Number(id)) then e.result == Ok(f)
          else if f.methodName.Some? && f.id.Some? && writeFails(e.consumed - 1) then e.result == Err(WriteFailed)
          else e.consumed == |stream| && e.result == Err(StdoutClosed)
  {
  }

  // ---- A session ----

  /** What each request of the session meets. */
  datatype Request = Request(requestFails: bool, writeFails: nat -> bool)

  datatype Session = Session(nextId: nat, stream: seq<Arrival>, answered: seq<Reply>, notes: seq<Frame>,
                             returned: seq<Result<Frame, Failure>>)

  /** The two handshake exchanges took ids 1 and 2. */
  const FIRST_ID: nat := 3

  /** The session after an exchange under the next id. */
  function AfterExchange(s: Session, e: Exchange): Session
    requires e.consumed <= |s.stream|
  {
    Session(s.nextId + 1, s.stream[e.consumed..], s.answered + e.answered, s.notes + e.notes, s.returned + [e.result])
  }

  /** Exchanges one after another, each on what the ones before left of the stream. */
  predicate IsSession(start: Session, requests: seq<Request>, exchanges: seq<Exchange>, end: Session)
    decreases |requests|
  {
    if requests == [] then exchanges == [] && end == start
    else
      && exchanges != []
      && IsExchange(exchanges[0], start.stream, start.nextId, requests[0].requestFails, requests[0].writeFails)
      && IsSession(AfterExchange(start, exchanges[0]), requests[1..], exchanges[1..], end)
  }

  /** The requests among the consumed arrivals whose answer could not be written: at most the last of each exchange. */
  function Unanswered(e: Exchange, stream: seq<Arrival>): seq<Reply>
    requires e.consumed <= |stream|
  {
    if e.consumed > 0 && IsRequest(stream[e.consumed - 1]) && e.result == Err(WriteFailed)
    then [Serve(stream[e.consumed - 1].frame)] else []
  }

  lemma ExchangeAnswers(e: Exchange, stream: seq<Arrival>, id: nat, requestFails: bool, writeFails: nat -> bool)
    requires IsExchange(e, stream, id, requestFails, writeFails)
    ensures e.notes == Notifications(stream[..e.consumed])
    ensures e.answered + Unanswered(e, stream) == Replies(stream[..e.consumed])
  {
    if e.consumed > 0 {
      var i := e.consumed - 1;
      assert stream[..e.consumed][..i] == stream[..i];
      if Ends(stream[i], id, writeFails(i)) {
        assert e.answered == Replies(stream[..i]) && e.notes == Notifications(stream[..i]);
      } else {
        assert e.answered + [] == e.answered;
      }
    } else {
      assert stream[..0] == [];
      assert e.answered + [] == e.answered;
    }
  }

  lemma ExchangeAnswersAll(e: Exchange, stream: seq<Arrival>, id: nat, requestFails: bool, writeFails: nat -> bool)
    requires IsExchange(e, stream, id, requestFails, writeFails) && e.result != Err(WriteFailed)
    ensures e.answered == Replies(stream[..e.consumed])
  {
    ExchangeAnswers(e, stream, id, requestFails, writeFails);
    assert e.answered + [] == e.answered;
  }

  lemma NotesJoin(before: seq<Frame>, first: seq<Arrival>, rest: seq<Arrival>, after: seq<Frame>)
    requires after == before + Notifications(first) + Notifications(rest)
    ensures after == before + Notifications(first + rest)
  {
    StreamsConcatenate(first, rest);
  }

  lemma AnswersJoin(before: seq<Reply>, first: seq<Arrival>, rest: seq<Arrival>, after: seq<Reply>)
    requires after == before + Replies(first) + Replies(rest)
    ensures after == before + Replies(first + rest)
  {
    StreamsConcatenate(first, rest);
  }

  /** What a session consumes is a prefix of the stream. */
  lemma {:induction false} SessionConsumesPrefix(start: Session, requests: seq<Request>, exchanges: seq<Exchange>,
                                                 end: Session)
    requires IsSession(start, requests, exchanges, end)
    ensures |end.stream| <= |start.stream| && start.stream[|start.stream| - |end.stream|..] == end.stream
    decreases |requests|
  {
    if requests != [] {
      SessionConsumesPrefix(AfterExchange(start, exchanges[0]), requests[1..], exchanges[1..], end);
    }
  }

  function Consumed(start: Session, end: Session): seq<Arrival>
    requires |end.stream| <= |start.stream|
  {
    start.stream[..|start.stream| - |end.stream|]
  }

  lemma ConsumedSplits(start: Session, consumed: nat, next: Session, end: Session)
    requires consumed <= |start.stream| && next.stream == start.stream[consumed..] && |end.stream| <= |next.stream|
    ensures Consumed(start, end) == start.stream[..consumed] + Consumed(next, end)
  {
  }

  /** Every frame a session returns carries the id of the request it is returned for, so never that of an older one. */
  lemma {:induction false} ReturnedFramesAreOwn(start: Session, requests: seq<Request>, exchanges: seq<Exchange>,
                                                end: Session, i: nat)
    requires IsSession(start, requests, exchanges, end) && |start.returned| <= i < |end.returned|
    ensures |end.returned| == |start.returned| + |requests|
    ensures end.returned[i].Ok? ==> end.returned[i].value.id == Some(Number(start.nextId + i - |start.returned|))
    decreases |requests|
  {
    var e := exchanges[0];
    var next := AfterExchange(start, e);
    if !requests[0].requestFails {
      ReturnsOwnResponse(e, start.stream, start.nextId, requests[0].writeFails);
    }
    ReturnedGrows(next, requests[1..], exchanges[1..], end);
    if i > |start.returned| {
      ReturnedFramesAreOwn(next, requests[1..], exchanges[1..], end, i);
    }
  }

  lemma {:induction false} ReturnedGrows(start: Session, requests: seq<Request>, exchanges: seq<Exchange>, end: Session)
    requires IsSession(start, requests, exchanges, end)
    ensures start.returned <= end.returned && |end.returned| == |start.returned| + |requests|
    decreases |requests|
  {
    if requests != [] {
      ReturnedGrows(AfterExchange(start, exchanges[0]), requests[1..], exchanges[1..], end);
    }
  }

  /** Over a session every notification consumed is buffered once and in arrival order. */
  lemma {:induction false} NotificationsAreBuffered(start: Session, requests: seq<Request>, exchanges: seq<Exchange>,
                                                    end: Session)
    requires IsSession(start, requests, exchanges, end) && |end.stream| <= |start.stream|
    ensures end.notes == start.notes + Notifications(Consumed(start, end))
    decreases |requests|
  {
    if requests == [] {
      assert Consumed(start, end) == [];
    } else {
      var e := exchanges[0];
      var next := AfterExchange(start, e);
      ExchangeAnswers(e, start.stream, start.nextId, requests[0].requestFails, requests[0].writeFails);
      SessionConsumesPrefix(next, requests[1..], exchanges[1..], end);
      NotificationsAreBuffered(next, requests[1..], exchanges[1..], end);
      ConsumedSplits(start, e.consumed, next, end);
      NotesJoin(start.notes, start.stream[..e.consumed], Consumed(next, end), end.notes);
    }
  }

  /**
   * Over a session whose writes go through, whatever arrives and however its
   * requests end, every server request consumed is answered exactly once and in
   * arrival order.
   */
  lemma {:induction false} RequestsAreAnswered(start: Session, requests: seq<Request>, exchanges: seq<Exchange>,
                                               end: Session)
    requires IsSession(start, requests, exchanges, end) && |end.stream| <= |start.stream|
    requires forall i :: 0 <= i < |exchanges| ==> exchanges[i].result != Err(WriteFailed)
    ensures end.answered == start.answered + Replies(Consumed(start, end))
    decreases |requests|
  {
    if requests == [] {
      assert Consumed(start, end) == [];
    } else {
      var e := exchanges[0];
      var next := AfterExchange(start, e);
      ExchangeAnswersAll(e, start.stream, start.nextId, requests[0].requestFails, requests[0].writeFails);
      SessionConsumesPrefix(next, requests[1..], exchanges[1..], end);
      RequestsAreAnswered(next, requests[1..], exchanges[1..], end);
      ConsumedSplits(start, e.consumed, next, end);
      AnswersJoin(start.answered, start.stream[..e.consumed], Consumed(next, end), end.answered);
    }
  }

  class StdioSession {
    var nextId: nat
    var stream: seq<Arrival>
    var answered: seq<Reply>
    var notes: seq<Frame>
    var returned: seq<Result<Frame, Failure>>

    ghost function State(): Session
      reads this
    {
      Session(nextId, stream, answered, notes, returned)
    }

    constructor (stream: seq<Arrival>)
      ensures State() == Session(3, stream, [], [], [])
    {
      nextId, this.stream, answered, notes, returned := FIRST_ID, stream, [], [], [];
    }

    /** A request takes an id no other request of the session has. */
    method StdioRequest(request: Request) returns (e: Exchange)
      modifies this
      ensures IsExchange(e, old(stream), old(nextId), request.requestFails, request.writeFails)
      ensures e.consumed <= |old(stream)| && State() == AfterExchange(old(State()), e)
    {
      var id := nextId;
      nextId := nextId + 1;
      e := StdioRoundtrip(stream, id, request.requestFails, request.writeFails);
      stream := stream[e.consumed..];
      answered, notes, returned := answered + e.answered, notes + e.notes, returned + [e.result];
    }
  }
}
