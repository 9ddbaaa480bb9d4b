/** `Server::run` over a line-oriented byte transport. */
module Server {
  import opened Wrappers
  import opened Json
  import opened Protocol

  /** What one poll of the input stream finds: a line of JSON, or one of the ways to have none. */
  datatype Line = Text(value: Value) | NotJson(detail: string) | NotUtf8(detail: string) | IoFault(detail: string)

  datatype TransportError =
    | Io(detail: string)
    | Json(detail: string)
    | Utf8(detail: string)
    | ProtocolFault(detail: string)
    | InvalidMessage(detail: string)

  function Display(e: TransportError): string {
    match e
    case Io(d) => "IO error: " + d
    case Json(d) => "JSON serialization error: " + d
    case Utf8(d) => "Invalid UTF-8 sequence: " + d
    case ProtocolFault(d) => "Protocol error: " + d
    case InvalidMessage(d) => "Invalid message format: " + d
  }

  function ReadLine(line: Line): Result<Message, TransportError> {
    match line
    case IoFault(d) => Err(Io(d))
    case NotUtf8(d) => Err(Utf8(d))
    case NotJson(d) => Err(Json(d))
    case Text(v) =>
      if !v.Obj? then Err(InvalidMessage("Message must be a JSON object"))
      else if "jsonrpc" !in v.fields || v.fields["jsonrpc"] != Str("2.0") then
        Err(InvalidMessage("Missing or invalid jsonrpc version"))
      else
        match Parse(v)
        case Ok(m) => Ok(m)
        case Err(_) => Err(Json("no message has this form"))
  }

  /** A service: from its state and a request to its next state and a response or an error text. */
  type Service<!S> = (S, RpcRequest) -> (S, Result<RpcResponse, string>)

  function ErrorCode(e: TransportError): I32 {
    if e.Json? || e.InvalidMessage? then PARSE_ERROR
    else if e.ProtocolFault? then INVALID_REQUEST
    else INTERNAL_ERROR
  }

  function ServiceReply(id: Option<U64>, answer: Result<RpcResponse, string>): Message {
    match answer
    case Ok(response) => Response(response)
    case Err(text) => Response(RpcResponse("2.0", id, None, Some(ErrorData(INTERNAL_ERROR, text, None))))
  }

  // ---------- The specification: a filter-map over the lines ----------

  function Answer<S>(service: Service<S>, s: S, line: Line): (S, Option<Message>) {
    match ReadLine(line)
    case Err(e) => (s, Some(Error(RpcError("2.0", None, ErrorData(ErrorCode(e), Display(e), None)))))
    case Ok(Request(request)) =>
      var (s', answer) := service(s, request);
      (s', Some(ServiceReply(request.id, answer)))
    case Ok(_) => (s, None)
  }

  function Replies<S>(service: Service<S>, s: S, lines: seq<Line>): seq<Message> {
    if lines == [] then [] else
      var (s', reply) := Answer(service, s, lines[0]);
      (if reply.Some? then [reply.value] else []) + Replies(service, s', lines[1..])
  }

  lemma RepliesStep<S>(service: Service<S>, s: S, lines: seq<Line>, i: nat)
    requires i < |lines|
    ensures var (s', reply) := Answer(service, s, lines[i]);
            Replies(service, s, lines[i..])
            == (if reply.Some? then [reply.value] else []) + Replies(service, s', lines[i + 1..])
  {
    assert lines[i..][1..] == lines[i + 1..];
  }

  lemma Extend<T>(all: seq<T>, sent: seq<T>, more: seq<T>, rest: seq<T>)
    requires all == sent + (more + rest)
    ensures all == (sent + more) + rest && sent + [] == sent && |all| >= |sent| + |more|
    ensures all[..|sent|] == sent
  {
  }

  // ---------- The loop ----------

  /** The output side: `room` more messages can be written before the writer fails. */
  class Writer {
    var written: seq<Message>
    var room: nat

    constructor (room: nat)
      ensures written == [] && this.room == room
    {
      written, this.room := [], room;
    }

    method WriteMessage(m: Message) returns (ok: bool)
      modifies this
      ensures ok <==> old(room) > 0
      ensures written == if ok then old(written) + [m] else old(written)
      ensures room == if ok then old(room) - 1 else 0
    {
      ok := room > 0;
      if ok {
        written := written + [m];
        room := room - 1;
      }
    }
  }

  method Process<S>(service: Service<S>, s: S, line: Line) returns (s': S, reply: Option<Message>)
    ensures (s', reply) == Answer(service, s, line)
  {
    s', reply := s, None;
    match ReadLine(line) {
      case Ok(message) =>
        match message {
          case Request(request) =>
            var (next, answer) := service(s, request);
            s', reply := next, Some(ServiceReply(request.id, answer));
          case Response(_) =>
          case Notification(_) =>
          case Error(_) =>
          case Nil =>
        }
      case Err(e) =>
        reply := Some(Error(RpcError("2.0", None, ErrorData(ErrorCode(e), Display(e), None))));
    }
  }

  /**
   * The run answers its input as `Replies` says; when the writer fails, what was written is the
   * prefix of those replies that fitted.
   */
  method Run<S>(service: Service<S>, initial: S, lines: seq<Line>, out: Writer) returns (ok: bool)
    modifies out
    ensures var replies := Replies(service, initial, lines);
            && (ok <==> |replies| <= old(out.room))
            && out.written == old(out.written) + (if ok then replies else replies[..old(out.room)])
  {
    var state, i := initial, 0;
    ghost var replies, sent: seq<Message> := Replies(service, initial, lines), [];
    while i < |lines|
      invariant 0 <= i <= |lines|
      invariant out.room == old(out.room) - |sent| && out.written == old(out.written) + sent
      invariant replies == sent + Replies(service, state, lines[i..])
    {
      RepliesStep(service, state, lines, i);
      var reply;
      state, reply := Process(service, state, lines[i]);
      Extend(replies, sent, if reply.Some? then [reply.value] else [], Replies(service, state, lines[i + 1..]));
      if reply.Some? {
        var written := out.WriteMessage(reply.value);
        if !written { return false; }
        sent := sent + [reply.value];
      }
      i := i + 1;
    }
    return true;
  }

  // ---------- What the replies are ----------

  predicate Answerable(line: Line) {
    ReadLine(line).Err? || ReadLine(line).value.Request?
  }

  function AnswerableLines(lines: seq<Line>): seq<Line> {
    if lines == [] then []
    else (if Answerable(lines[0]) then [lines[0]] else []) + AnswerableLines(lines[1..])
  }

  /** A request is answered under its own id; a line that failed is answered by an error without one. */
  predicate Answers(line: Line, reply: Message) {
    match ReadLine(line)
    case Ok(Request(request)) => reply.Response? && reply.response.id == request.id
    case Ok(_) => false
    case Err(e) =>
      && reply.Error? && reply.failure.id == None
      && (reply.failure.error.code == PARSE_ERROR <==> e.Json? || e.InvalidMessage?)
      && (reply.failure.error.code == INTERNAL_ERROR <==> e.Io? || e.Utf8?)
  }

  ghost predicate EchoesIds<S(!new)>(service: Service<S>) {
    forall s: S, request: RpcRequest ::
      service(s, request).1.Ok? ==> service(s, request).1.value.id == request.id
  }

  /**
   * One reply for each request and each failed line, in their order and answering it; none for
   * notifications, responses, errors and Nil.
   */
  lemma {:induction false} RepliesAnswer<S(!new)>(service: Service<S>, s: S, lines: seq<Line>)
    requires EchoesIds(service)
    ensures |Replies(service, s, lines)| == |AnswerableLines(lines)|
    ensures forall i | 0 <= i < |Replies(service, s, lines)| ::
              Answers(AnswerableLines(lines)[i], Replies(service, s, lines)[i])
  {
    if lines != [] {
      var (s', reply) := Answer(service, s, lines[0]);
      RepliesAnswer(service, s', lines[1..]);
      AnswerFits(service, s, lines[0]);
      hide Answer, Answers, Answerable, EchoesIds;
    }
  }

  lemma AnswerFits<S(!new)>(service: Service<S>, s: S, line: Line)
    requires EchoesIds(service)
    ensures var reply := Answer(service, s, line).1;
            && (reply.Some? <==> Answerable(line))
            && (reply.Some? ==> Answers(line, reply.value))
  {
  }

  // ---------- Line by line ----------

  // An error that answers no request in particular.
  function Unidentified(code: I32, text: string): Message {
    Error(RpcError("2.0", None, ErrorData(code, text, None)))
  }

  /** What each kind of line is answered with, and what it does to the service. */
  lemma AnswerIs<S>(service: Service<S>, s: S, line: Line)
    ensures var (s', reply) := Answer(service, s, line);
            match line
            case IoFault(d) => s' == s && reply == Some(Unidentified(-32603, "IO error: " + d))
            case NotUtf8(d) => s' == s && reply == Some(Unidentified(-32603, "Invalid UTF-8 sequence: " + d))
            case NotJson(d) => s' == s && reply == Some(Unidentified(-32700, "JSON serialization error: " + d))
            case Text(v) =>
              if !v.Obj? then
                s' == s && reply == Some(Unidentified(
                  -32700, "Invalid message format: " + "Message must be a JSON object"))
              else if "jsonrpc" !in v.fields || v.fields["jsonrpc"] != Str("2.0") then
                s' == s && reply == Some(Unidentified(
                  -32700, "Invalid message format: " + "Missing or invalid jsonrpc version"))
              else
                match Parse(v)
                case Err(_) =>
                  s' == s && reply == Some(Unidentified(
                    -32700, "JSON serialization error: " + "no message has this form"))
                case Ok(Request(q)) =>
                  && s' == service(s, q).0
                  && reply == Some(Response(
                       match service(s, q).1
                       case Ok(response) => response
                       case Err(text) => RpcResponse("2.0", q.id, None, Some(ErrorData(-32603, text, None)))))
                case Ok(_) => s' == s && reply == None
  {
  }

  /** The line is a JSON object of version 2.0 that is the request `q`. */
  predicate Asks(line: Line, q: RpcRequest) {
    && line.Text? && line.value.Obj?
    && "jsonrpc" in line.value.fields && line.value.fields["jsonrpc"] == Str("2.0")
    && Parse(line.value) == Ok(Request(q))
  }

  function AskedBy(line: Line): (q: Option<RpcRequest>)
    ensures q.Some? ==> Asks(line, q.value)
    ensures q.None? ==> forall p :: !Asks(line, p)
  {
    var got := if line.Text? then Parse(line.value) else Err(BadShape);
    if got.Ok? && got.value.Request? && Asks(line, got.value.request) then Some(got.value.request) else None
  }

  function RequestsOf(lines: seq<Line>): seq<RpcRequest> {
    if lines == [] then []
    else (if AskedBy(lines[0]).Some? then [AskedBy(lines[0]).value] else []) + RequestsOf(lines[1..])
  }

  /** The service's state after it was called with these requests, one after the other. */
  function StateAfter<S>(service: Service<S>, s: S, requests: seq<RpcRequest>): S {
    if requests == [] then s else StateAfter(service, service(s, requests[0]).0, requests[1..])
  }

  lemma Associate<T>(x: seq<T>, y: seq<T>, z: seq<T>)
    ensures x + (y + z) == (x + y) + z
  {
  }

  lemma RepliesFirst<S>(service: Service<S>, s: S, lines: seq<Line>)
    requires lines != []
    ensures var (s', reply) := Answer(service, s, lines[0]);
            Replies(service, s, lines)
            == (if reply.Some? then [reply.value] else []) + Replies(service, s', lines[1..])
  {
    hide Answer;
  }

  /** What comes later is answered from the state that the requests before it have left. */
  lemma {:induction false} RepliesAppend<S>(service: Service<S>, s: S, a: seq<Line>, b: seq<Line>)
    ensures Replies(service, s, a + b)
         == Replies(service, s, a) + Replies(service, StateAfter(service, s, RequestsOf(a)), b)
    decreases |a|
  {
    if a == [] {
      assert a + b == b && RequestsOf([]) == [];
    } else {
      hide *;
      assert (a + b)[1..] == a[1..] + b && (a + b)[0] == a[0];
      var next, reply := Answer(service, s, a[0]).0, Answer(service, s, a[0]).1;
      RepliesFirst(service, s, a);
      RepliesFirst(service, s, a + b);
      StateStep(service, s, a);
      RepliesAppend(service, next, a[1..], b);
      Associate(if reply.Some? then [reply.value] else [], Replies(service, next, a[1..]),
                Replies(service, StateAfter(service, next, RequestsOf(a[1..])), b));
    }
  }

  lemma AnswerState<S>(service: Service<S>, s: S, line: Line)
    ensures Answer(service, s, line).0 == if AskedBy(line).Some? then service(s, AskedBy(line).value).0 else s
  {
    AnswerIs(service, s, line);
    hide Answer, AskedBy;
    if line.Text? && line.value.Obj? && Parse(line.value).Ok? && Parse(line.value).value.Request? {
      assert AskedBy(line).None? ==> !Asks(line, Parse(line.value).value.request);
    }
    hide Parse;
  }

  lemma StateStep<S>(service: Service<S>, s: S, lines: seq<Line>)
    requires lines != []
    ensures StateAfter(service, s, RequestsOf(lines))
         == StateAfter(service, Answer(service, s, lines[0]).0, RequestsOf(lines[1..]))
  {
    hide Answer, AskedBy, Asks;
    AnswerState(service, s, lines[0]);
    if AskedBy(lines[0]).Some? {
      assert RequestsOf(lines) == [AskedBy(lines[0]).value] + RequestsOf(lines[1..]);
      assert RequestsOf(lines)[1..] == RequestsOf(lines[1..]);
    } else {
      assert RequestsOf(lines) == RequestsOf(lines[1..]);
    }
  }

  /**
   * A request is answered by the service in the state which the requests on the lines before it have
   * left, at its place among the replies; what follows is answered from the state after it.
   */
  lemma RequestAnswered<S>(service: Service<S>, s: S, lines: seq<Line>, i: nat, q: RpcRequest)
    requires i < |lines| && Asks(lines[i], q)
    ensures var (after, answer) := service(StateAfter(service, s, RequestsOf(lines[..i])), q);
            var reply := match answer
                         case Ok(response) => response
                         case Err(text) => RpcResponse("2.0", q.id, None, Some(ErrorData(-32603, text, None)));
            Replies(service, s, lines)
            == Replies(service, s, lines[..i]) + [Response(reply)] + Replies(service, after, lines[i + 1..])
  {
    assert lines == lines[..i] + lines[i..] && lines[i..][0] == lines[i] && lines[i..][1..] == lines[i + 1..];
    RepliesAppend(service, s, lines[..i], lines[i..]);
    AnswerIs(service, StateAfter(service, s, RequestsOf(lines[..i])), lines[i]);
    hide Answer, Parse;
  }

  /** For example, a service that counts its calls: the second request is answered by 1. */
  lemma StateIsCarried(first: Line, second: Line, p: RpcRequest, q: RpcRequest)
    requires Asks(first, p) && Asks(second, q)
    ensures var counter: Service<nat> :=
              (n: nat, request: RpcRequest) => (n + 1, Ok(RpcResponse("2.0", request.id, Some(Int(n)), None)));
            Replies(counter, 0, [first, second])
            == [Response(RpcResponse("2.0", p.id, Some(Int(0)), None)),
                Response(RpcResponse("2.0", q.id, Some(Int(1)), None))]
  {
    var counter: Service<nat> :=
      (n: nat, request: RpcRequest) => (n + 1, Ok(RpcResponse("2.0", request.id, Some(Int(n)), None)));
    AnswerIs(counter, 0, first);
    AnswerIs(counter, 1, second);
    hide Answer, Parse;
    assert [first, second][1..] == [second] && [second][1..] == [];
    assert Replies(counter, 1, [second]) == [Answer(counter, 1, second).1.value] + Replies(counter, 2, []);
  }
}
