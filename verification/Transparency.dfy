/**
 * Client, wire, classification, server and router put together: a remote call means the same
 * as calling the handler directly.
 */
module Transparency {
  import opened Wrappers
  import opened Json
  import opened Protocol
  import opened DecimalText
  import opened Transport
  import opened Client
  import opened ClientRun
  import opened ClientInvariant
  import opened ClientSafety
  import opened ClientTheorems
  import opened ClientUndisturbed
  import R = Router
  import S = Server

  /** The router as the service `Server::run` drives. */
  ghost function RouterService(r: R.Router): S.Service<()> {
    (_: (), request: RpcRequest) => ((), RouterAnswer(r, request))
  }

  // An error leaves `RouterService::call` as its text.
  ghost function RouterAnswer(r: R.Router, request: RpcRequest): Result<RpcResponse, string> {
    match R.Call(r, request)
    case Ok(response) => Ok(response)
    case Err(e) => Err(R.Display(e))
  }

  /** The router answers under the id it was asked with, as `Server.RepliesAnswer` needs. */
  lemma RouterEchoesIds(r: R.Router)
    ensures S.EchoesIds(RouterService(r))
  {
    forall s: (), request: RpcRequest | RouterService(r)(s, request).1.Ok?
      ensures RouterService(r)(s, request).1.value.id == request.id
    {
      assert RouterService(r)(s, request).1 == RouterAnswer(r, request);
    }
  }

  /** What calling the router's handler yields, in the client's terms. */
  ghost function Direct(r: R.Router, methodName: string, params: Value): Result<Value, ClientError> {
    if methodName !in R.METHODS then Err(RpcFailure(METHOD_NOT_FOUND, methodName))
    else
      match R.Handle(r, methodName, NullToNone(Some(params)))
      case Ok(result) => Ok(result)
      case Err(e) => Err(RpcFailure(INTERNAL_ERROR, R.Display(e)))
  }

  // Handlers yield objects, so a result is never mistaken for an absent one.
  lemma HandlersYieldObjects(r: R.Router, methodName: string, params: Option<Value>)
    requires methodName in R.METHODS
    ensures R.Handle(r, methodName, params).Ok? ==> R.Handle(r, methodName, params).value.Obj?
  {
  }

  // The server's answer to a request, as the client reads it off the wire.
  ghost function WireReply(r: R.Router, request: RpcRequest): Result<Message, ParseError> {
    Parse(ToValue(S.ServiceReply(request.id, RouterAnswer(r, request))))
  }

  lemma WireReplyMeans(r: R.Router, request: RpcRequest, params: Value)
    requires request.id.Some? && request.params == NullToNone(Some(params))
    ensures var reply := WireReply(r, request);
            && reply.Ok? && ReplyId(reply.value) == request.id
            && Interpret(request.id.value, reply.value) == Direct(r, request.methodName, params)
  {
    var m := S.ServiceReply(request.id, RouterAnswer(r, request));
    if request.methodName in R.METHODS { HandlersYieldObjects(r, request.methodName, request.params); }
    WireMeaning(m);
  }

  // The server reads a request line as the request, with a null `params` gone.
  lemma RequestLine(request: RpcRequest)
    requires request.jsonrpc == "2.0" && request.id.Some?
    ensures S.ReadLine(S.Text(ToValue(Request(request))))
         == Ok(Request(request.(params := NullToNone(request.params))))
  {
    WireMeaning(Request(request));
    var fields := ToValue(Request(request)).fields;
    assert "jsonrpc" in fields && fields["jsonrpc"] == Str(request.jsonrpc);
  }

  /**
   * One call through the wire both ways: request to line, line to request, handler, response to
   * line, line to reply, reply to result. It is the direct call.
   */
  lemma OneCallIsDirect(r: R.Router, id: U64, methodName: string, params: Value)
    ensures var request := MakeRequest(id, methodName, params);
            var (_, reply) := S.Answer(RouterService(r), (), S.Text(ToValue(Request(request))));
            && reply.Some? && Parse(ToValue(reply.value)).Ok?
            && ReplyId(Parse(ToValue(reply.value)).value) == Some(id)
            && Interpret(id, Parse(ToValue(reply.value)).value) == Direct(r, methodName, params)
  {
    var request := MakeRequest(id, methodName, params);
    RequestLine(request);
    WireReplyMeans(r, request.(params := NullToNone(request.params)), params);
  }

  // ---------- Over every run ----------

  /** `v` is a line that `Server::run` writes when it is fed some lines that are on the wire. */
  ghost predicate Served(r: R.Router, wire: seq<Message>, v: Value) {
    exists lines: seq<S.Line> ::
      && (forall l | l in lines :: exists m | m in wire :: l == S.Text(ToValue(m)))
      && exists m | m in S.Replies(RouterService(r), (), lines) :: v == ToValue(m)
  }

  lemma {:induction false} ReplyHasLine(r: R.Router, lines: seq<S.Line>, reply: Message) returns (l: S.Line)
    requires reply in S.Replies(RouterService(r), (), lines)
    ensures l in lines && S.Answer(RouterService(r), (), l).1 == Some(reply)
  {
    var first := S.Answer(RouterService(r), (), lines[0]).1;
    if first == Some(reply) {
      l := lines[0];
    } else {
      l := ReplyHasLine(r, lines[1..], reply);
    }
  }

  /** Every delivery of the run comes from a server driving `r`; which, when and how often is open. */
  ghost predicate FedBy(r: R.Router, kind: Kind, steps: seq<Step>) {
    steps == [] ||
    (var before, step := steps[..|steps| - 1], steps[|steps| - 1];
     var s := After(kind, before);
     && FedBy(r, kind, before)
     && (s.Some? && step.In? && step.arrival.Deliver? ==> Served(r, s.value.wire, step.arrival.value)))
  }

  // A reply that reads as the direct call of the request of channel `c`.
  ghost predicate Faithful(r: R.Router, channels: seq<Channel>, c: int, m: Message) {
    && 0 <= c < |channels| && c + 1 < TWO64
    && channels[c].request.params.Some?
    && Interpret(c + 1, m) == Direct(r, channels[c].request.methodName, channels[c].request.params.value)
  }

  predicate MadeByClient(s: State) {
    forall c | 0 <= c < |s.channels| ::
      s.channels[c].request.jsonrpc == "2.0" && s.channels[c].request.params.Some?
  }

  ghost predicate FaithfulSoFar(r: R.Router, s: State) {
    && MadeByClient(s)
    && (s.incoming.Responding? && ReplyId(s.incoming.message).Some? ==>
          Faithful(r, s.channels, ReplyId(s.incoming.message).value - 1, s.incoming.message))
    && (forall c | 0 <= c < |s.channels| && s.channels[c].sender.Used? && s.channels[c].sender.reply.Ok? ::
          Faithful(r, s.channels, c, s.channels[c].sender.reply.value))
  }

  lemma ServedForRequest(r: R.Router, wire: seq<Message>, v: Value)
    returns (i: nat, reply: Message)
    requires Served(r, wire, v) && Parse(v).Ok? && ReplyId(Parse(v).value).Some?
    ensures i < |wire| && wire[i].Request? && v == ToValue(reply)
    ensures S.Answer(RouterService(r), (), S.Text(ToValue(wire[i]))).1 == Some(reply)
  {
    var lines: seq<S.Line> :|
      && (forall l | l in lines :: exists m | m in wire :: l == S.Text(ToValue(m)))
      && exists m | m in S.Replies(RouterService(r), (), lines) :: v == ToValue(m);
    reply :| reply in S.Replies(RouterService(r), (), lines) && v == ToValue(reply);
    var l := ReplyHasLine(r, lines, reply);
    var sent :| sent in wire && l == S.Text(ToValue(sent));
    i :| 0 <= i < |wire| && wire[i] == sent;
    AnswerToWire(r, sent, reply);
  }

  lemma ServedIsFaithful(r: R.Router, s: State, v: Value)
    requires Good(s) && MadeByClient(s) && |s.channels| < TWO64 - 1
    requires Served(r, s.wire, v) && Parse(v).Ok? && ReplyId(Parse(v).value).Some?
    ensures Faithful(r, s.channels, ReplyId(Parse(v).value).value - 1, Parse(v).value)
  {
    var i, reply := ServedForRequest(r, s.wire, v);
    OnWire(s, i);
    hide Core, Served, RouterService, S.Answer, Faithful, ToValue, Parse;
    AnswerIsFaithful(r, s.channels, s.wire[i].request.id.value, reply);
  }

  // A request on the wire is the one its channel was made for.
  lemma OnWire(s: State, i: nat)
    requires Good(s) && i < |s.wire| && s.wire[i].Request?
    ensures var request := s.wire[i].request;
            && request.id.Some? && 0 < request.id.value <= |s.channels|
            && request == s.channels[request.id.value - 1].request
            && s.channels[request.id.value - 1].request.id == request.id
  {
    assert Gone(s)[i] == s.wire[i] && GoodGone(ViewOf(s), Gone(s)[i]);
  }

  lemma AnswerIsFaithful(r: R.Router, channels: seq<Channel>, id: U64, reply: Message)
    requires 0 < id <= |channels|
    requires var request := channels[id - 1].request;
             && request.jsonrpc == "2.0" && request.id == Some(id) && request.params.Some?
             && S.Answer(RouterService(r), (), S.Text(ToValue(Request(request)))).1 == Some(reply)
    ensures var got := Parse(ToValue(reply));
            got.Ok? && ReplyId(got.value) == Some(id) && Faithful(r, channels, id - 1, got.value)
  {
    var request := channels[id - 1].request;
    assert request == MakeRequest(id, request.methodName, request.params.value);
    OneCallIsDirect(r, id, request.methodName, request.params.value);
  }

  // Only requests on the wire are answered with a reply that has an id.
  lemma AnswerToWire(r: R.Router, sent: Message, reply: Message)
    requires S.Answer(RouterService(r), (), S.Text(ToValue(sent))).1 == Some(reply)
    requires Parse(ToValue(reply)).Ok? && ReplyId(Parse(ToValue(reply)).value).Some?
    ensures sent.Request?
  {
    WireMeaning(sent);
    WireMeaning(reply);
  }

  lemma FaithfulKept(r: R.Router, before: seq<Channel>, after: seq<Channel>, c: int, m: Message)
    requires Faithful(r, before, c, m) && SendersFinal(before, after)
    ensures Faithful(r, after, c, m)
  {
  }

  // No channel got a reply, and the reply being handled is the same one.
  predicate RepliesKept(s: State, t: State) {
    && t.incoming == s.incoming && MadeByClient(t) && SendersFinal(s.channels, t.channels)
    && forall c | 0 <= c < |t.channels| && t.channels[c].sender.Used? && t.channels[c].sender.reply.Ok? ::
         c < |s.channels| && t.channels[c].sender == s.channels[c].sender
  }

  lemma RepliesSame(r: R.Router, s: State, t: State)
    requires FaithfulSoFar(r, s) && RepliesKept(s, t)
    ensures FaithfulSoFar(r, t)
  {
    hide Direct, Interpret;
    if t.incoming.Responding? && ReplyId(t.incoming.message).Some? {
      FaithfulKept(r, s.channels, t.channels, ReplyId(s.incoming.message).value - 1, s.incoming.message);
    }
    forall c | 0 <= c < |t.channels| && t.channels[c].sender.Used? && t.channels[c].sender.reply.Ok?
      ensures Faithful(r, t.channels, c, t.channels[c].sender.reply.value)
    {
      FaithfulKept(r, s.channels, t.channels, c, s.channels[c].sender.reply.value);
    }
  }

  lemma CallKeeps(s: State, step: CallStep)
    requires CanCall(s, step) && Good(s) && MadeByClient(s)
    ensures RepliesKept(s, DoCall(s, step))
  {
    CallFinal(s, step);
    CallFrame(s, step);
    CallMade(s, step);
  }

  lemma CallMade(s: State, step: CallStep)
    requires CanCall(s, step) && MadeByClient(s)
    ensures var t := DoCall(s, step);
            && MadeByClient(t)
            && forall c | 0 <= c < |t.channels| && t.channels[c].sender.Used? ::
                 c < |s.channels| && t.channels[c].sender == s.channels[c].sender
  {
    hide Outcome, AdvertisedBy, Allows;
    CallUses(s, step);
    CallAsks(s, step);
    hide DoCall, CanCall;
  }

  lemma CallUses(s: State, step: CallStep)
    requires CanCall(s, step)
    ensures forall c | 0 <= c < |DoCall(s, step).channels| && DoCall(s, step).channels[c].sender.Used? ::
              c < |s.channels| && DoCall(s, step).channels[c].sender == s.channels[c].sender
  {
    hide Outcome, AdvertisedBy, Allows, FinalReply, LastId;
  }

  lemma CallAsks(s: State, step: CallStep)
    requires CanCall(s, step) && MadeByClient(s)
    ensures MadeByClient(DoCall(s, step))
  {
    hide Outcome, AdvertisedBy, Allows, FinalReply, LastId;
  }

  lemma SendReplies(s: State, step: OutgoingStep)
    requires CanSend(s, step)
    ensures forall c | 0 <= c < |DoSend(s, step).channels| :: var t := DoSend(s, step);
              t.channels[c].sender.Used? && t.channels[c].sender.reply.Ok? ==>
                c < |s.channels| && t.channels[c].sender == s.channels[c].sender
  {
  }

  lemma SendKeeps(s: State, step: OutgoingStep)
    requires CanSend(s, step) && Good(s) && MadeByClient(s)
    ensures RepliesKept(s, DoSend(s, step))
  {
    SendFinal(s, step);
    SendFrame(s, step);
    SendReplies(s, step);
    hide DoSend, Good;
  }

  lemma ActKeeps(s: State, step: ActorStep)
    requires CanAct(s, step) && Good(s) && MadeByClient(s)
    ensures RepliesKept(s, DoAct(s, step))
  {
    ActFinal(s, step);
    ActFrame(s, step);
    hide Good;
  }

  lemma RespondFaithful(r: R.Router, s: State)
    requires CanArrive(s, Respond) && Good(s) && FaithfulSoFar(r, s)
    ensures FaithfulSoFar(r, DoArrive(s, Respond))
  {
    RespondKeeps(s);
    hide Direct, Interpret, Good, DoArrive, ReplyId;
    var t := DoArrive(s, Respond);
    forall c | 0 <= c < |t.channels| && t.channels[c].sender.Used? && t.channels[c].sender.reply.Ok?
      ensures Faithful(r, t.channels, c, t.channels[c].sender.reply.value)
    {
      FaithfulKept(r, s.channels, t.channels, c, t.channels[c].sender.reply.value);
    }
  }

  // A channel whose sender was used holds what it held, or the reply in hand, which names it.
  lemma RespondKeeps(s: State)
    requires CanArrive(s, Respond) && Good(s) && MadeByClient(s)
    ensures var t := DoArrive(s, Respond);
            && !t.incoming.Responding? && MadeByClient(t) && SendersFinal(s.channels, t.channels)
            && |t.channels| == |s.channels| && ReplyId(s.incoming.message).Some?
            && forall c | 0 <= c < |t.channels| && t.channels[c].sender.Used? ::
                 || t.channels[c].sender == s.channels[c].sender
                 || (t.channels[c].sender == Used(Ok(s.incoming.message)) && ReplyId(s.incoming.message) == Some(c + 1))
  {
    RespondedIs(s, s.incoming.message);
    ArriveFinal(s, Respond);
    hide Core, Decimal, SendersFinal;
    assert MadeByClient(DoArrive(s, Respond)) by { RespondAsks(s); }
  }

  lemma RespondAsks(s: State)
    requires CanArrive(s, Respond) && MadeByClient(s)
    ensures MadeByClient(DoArrive(s, Respond))
  {
    hide Decimal;
  }

  lemma ArrivedFaithful(r: R.Router, s: State, m: Message)
    requires FaithfulSoFar(r, s)
    requires ReplyId(m).Some? ==> Faithful(r, s.channels, ReplyId(m).value - 1, m)
    ensures FaithfulSoFar(r, Arrived(s, m))
  {
    hide Direct, Interpret;
  }

  lemma SoFarMade(r: R.Router, s: State)
    requires FaithfulSoFar(r, s)
    ensures MadeByClient(s)
  {
  }

  lemma DeliveredIs(s: State, v: Value)
    ensures Delivered(s, v) == if Parse(v).Ok? then Arrived(s, Parse(v).value) else s
  {
    hide Parse, Arrived;
  }

  lemma DeliverFaithful(r: R.Router, s: State, v: Value)
    requires Good(s) && FaithfulSoFar(r, s) && |s.channels| < TWO64 - 1 && Served(r, s.wire, v)
    ensures FaithfulSoFar(r, Delivered(s, v))
  {
    hide *;
    SoFarMade(r, s);
    DeliveredIs(s, v);
    if Parse(v).Ok? {
      var m := Parse(v).value;
      if ReplyId(m).Some? { ServedIsFaithful(r, s, v); }
      ArrivedFaithful(r, s, m);
    }
  }

  lemma ArriveFaithful(r: R.Router, s: State, step: IncomingStep)
    requires CanArrive(s, step) && Good(s) && FaithfulSoFar(r, s) && |s.channels| < TWO64 - 1
    requires step.Deliver? ==> Served(r, s.wire, step.value)
    ensures FaithfulSoFar(r, DoArrive(s, step))
  {
    match step
    case FindEndpoint =>
    case GiveUpEndpoint =>
    case Deliver(v) => DeliverFaithful(r, s, v);
    case Respond => RespondFaithful(r, s);
    case EndIncoming =>
    case ClearIncoming => ClearFaithful(r, s);
  }

  lemma ClearFaithful(r: R.Router, s: State)
    requires CanArrive(s, ClearIncoming) && Good(s) && FaithfulSoFar(r, s)
    ensures FaithfulSoFar(r, DoArrive(s, ClearIncoming))
  {
    ClearKeeps(s);
    hide Direct, Interpret, Good, ClearPending, Faithful, RepliesKept;
    RepliesSame(r, s, ClearPending(s));
  }

  lemma ClearKeeps(s: State)
    requires Good(s) && MadeByClient(s)
    ensures RepliesKept(s, ClearPending(s))
  {
    ClearFinal(s);
    hide Good;
  }

  lemma {:induction false} RunFaithful(r: R.Router, kind: Kind, steps: seq<Step>)
    requires After(kind, steps).Some? && |After(kind, steps).value.channels| < TWO64 - 1
    requires FedBy(r, kind, steps)
    ensures FaithfulSoFar(r, After(kind, steps).value)
  {
    hide Direct, Interpret;
    AfterStep(kind, steps);
    if steps != [] {
      var before, s, step := LastStep(kind, steps);
      RunFaithful(r, kind, before);
      match step {
        case Call(c) => CallKeeps(s, c); RepliesSame(r, s, DoCall(s, c));
        case Out(o) => SendKeeps(s, o); RepliesSame(r, s, DoSend(s, o));
        case In(i) => ArriveFaithful(r, s, i);
        case Act(a) => ActKeeps(s, a); RepliesSame(r, s, DoAct(s, a));
      }
    }
  }

  /**
   * In every run against a server driving `r`, with replies late, lost, reordered or repeated and
   * calls timing out: whatever a call returns is a transport error or exactly the direct call of
   * the handler with the method and parameters it was made with.
   */
  lemma RemoteCallIsDirect(r: R.Router, kind: Kind, steps: seq<Step>, i: nat)
    requires After(kind, steps).Some? && |After(kind, steps).value.channels| < TWO64 - 1
    requires FedBy(r, kind, steps)
    requires i < |After(kind, steps).value.log| && After(kind, steps).value.log[i].Replied?
    ensures var s := After(kind, steps).value;
            var Replied(c, result) := s.log[i];
            && c < |s.channels| && s.channels[c].request.params.Some?
            && ((result.Err? && result.error.McpServerError?)
                || result == Direct(r, s.channels[c].request.methodName, s.channels[c].request.params.value))
  {
    RunLogOk(kind, steps);
    RunFaithful(r, kind, steps);
    var s := After(kind, steps).value;
    assert GoodResult(s, s.log[i].channel, s.log[i].result);
  }

  // ---------- The undisturbed call ----------

  /**
   * From any quiescent state reached, an undisturbed call that is served in order returns the
   * direct call: the run exists, and every one of its steps is enabled.
   */
  lemma UndisturbedCallReturns(r: R.Router, kind: Kind, steps: seq<Step>, s: State, issue: CallStep)
    returns (all: seq<Step>, v: Value, t: State)
    requires After(kind, steps) == Some(s) && Quiescent(s) && |s.channels| + 1 < TWO64 - 1
    requires (issue.BeginInitialize? || issue.Invoke?) && CanCall(s, issue)
    ensures all == steps + SendSteps(issue) + ReceiveSteps(v) && After(kind, all) == Some(t)
    ensures ReturnedDirect(r, s, issue, v, t)
  {
    hide *;
    RunGood(kind, steps);
    var id, methodName, params := |s.channels| + 1, IssuedMethod(issue), issue.params;
    var sent, mid := SendRun(kind, steps, s, issue);
    all, v := AnsweredRun(r, kind, sent, mid, id, methodName, params);
    t := After(kind, all).value;
    Returned(r, s, issue, mid, v, t);
  }

  /** Since `s` one request was written and answered: by `v`, served for it and read as the direct call. */
  ghost predicate ReturnedDirect(r: R.Router, s: State, issue: CallStep, v: Value, t: State)
    requires issue.BeginInitialize? || issue.Invoke?
  {
    |s.channels| < TWO64 - 1 &&
    var sent := Request(MakeRequest(|s.channels| + 1, IssuedMethod(issue), issue.params));
    var result := Direct(r, IssuedMethod(issue), issue.params);
    && t.wire == s.wire + [sent] && Served(r, t.wire, v)
    && t.log == s.log + [Issued(sent), Replied(|s.channels|, result)]
    && t.caller == Idle && TransportIdle(t) && t.capabilities == s.capabilities && |t.channels| == |s.channels| + 1
    && t.phase == if issue.BeginInitialize? && result.Ok? then Notifying(|s.channels|, AdvertisedBy(result.value))
                  else Ready
  }

  lemma Returned(r: R.Router, s: State, issue: CallStep, mid: State, v: Value, t: State)
    requires issue.BeginInitialize? || issue.Invoke?
    requires |s.channels| < TWO64 - 1
    requires var request := MakeRequest(|s.channels| + 1, IssuedMethod(issue), issue.params);
             && WaitingFor(mid, request) && mid.phase == IssuedPhase(issue) && mid.capabilities == s.capabilities
             && mid.wire == s.wire + [Request(request)] && mid.log == s.log + [Issued(Request(request))]
    requires Served(r, mid.wire, v)
    requires Concluded(mid, t, |s.channels|, Direct(r, IssuedMethod(issue), issue.params))
    ensures ReturnedDirect(r, s, issue, v, t)
  {
    hide Served, Direct, AdvertisedBy, Decimal;
  }

  lemma AnsweredRun(r: R.Router, kind: Kind, sent: seq<Step>, mid: State, id: U64, methodName: string, params: Value)
    returns (all: seq<Step>, v: Value)
    requires After(kind, sent) == Some(mid) && WaitingFor(mid, MakeRequest(id, methodName, params))
    requires mid.wire != [] && mid.wire[|mid.wire| - 1] == Request(MakeRequest(id, methodName, params))
    ensures all == sent + ReceiveSteps(v) && After(kind, all).Some?
    ensures Served(r, mid.wire, v)
    ensures id > 0 && Concluded(mid, After(kind, all).value, id - 1, Direct(r, methodName, params))
  {
    hide After, Interpret, Parse, Direct, Served, Concluded, S.Answer, ToValue, ReceiveSteps, ReplyId, RouterService;
    var request := MakeRequest(id, methodName, params);
    var reply := DirectReply(r, id, methodName, params);
    v := ToValue(reply);
    all := ReceiveRun(kind, sent, mid, request, v);
    OneLineServed(r, mid.wire, request, reply);
  }

  lemma DirectReply(r: R.Router, id: U64, methodName: string, params: Value) returns (reply: Message)
    ensures var sent := Request(MakeRequest(id, methodName, params));
            S.Answer(RouterService(r), (), S.Text(ToValue(sent))).1 == Some(reply)
    ensures var got := Parse(ToValue(reply));
            && got.Ok? && ReplyId(got.value) == Some(id)
            && Interpret(id, got.value) == Direct(r, methodName, params)
  {
    hide Parse, Interpret, Direct, ToValue;
    OneCallIsDirect(r, id, methodName, params);
    reply := S.Answer(RouterService(r), (), S.Text(ToValue(Request(MakeRequest(id, methodName, params))))).1.value;
  }

  lemma OneLineServed(r: R.Router, wire: seq<Message>, request: RpcRequest, reply: Message)
    requires Request(request) in wire
    requires S.Answer(RouterService(r), (), S.Text(ToValue(Request(request)))).1 == Some(reply)
    ensures Served(r, wire, ToValue(reply))
  {
    hide ToValue, S.Answer;
    var lines := [S.Text(ToValue(Request(request)))];
    assert S.Replies(RouterService(r), (), lines) == [reply] + S.Replies(RouterService(r), (), lines[1..]);
    assert reply in S.Replies(RouterService(r), (), lines);
  }
}
