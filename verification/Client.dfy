/** The decimal text of an id, which keys the pending map (`u64::to_string`). */
module DecimalText {

  function Digit(d: nat): char
    requires d < 10
  {
    "0123456789"[d]
  }

  function Decimal(n: nat): string {
    if n < 10 then [Digit(n)] else Decimal(n / 10) + [Digit(n % 10)]
  }

  function ReadDecimal(s: string): nat {
    if s == "" then 0 else
      var last := s[|s| - 1];
      10 * ReadDecimal(s[..|s| - 1]) + (if '0' <= last <= '9' then (last - '0') as nat else 0)
  }

  lemma {:induction false} ReadDecimalOf(n: nat)
    ensures ReadDecimal(Decimal(n)) == n
  {
    var s := Decimal(n);
    if n < 10 {
      assert s[..0] == "";
    } else {
      assert s[..|s| - 1] == Decimal(n / 10);
      ReadDecimalOf(n / 10);
    }
  }

  /** Different ids have different texts. */
  lemma DecimalInjective(m: nat, n: nat)
    ensures Decimal(m) == Decimal(n) <==> m == n
  {
    ReadDecimalOf(m);
    ReadDecimalOf(n);
  }
}

/** Oneshot reply channels and the map of pending requests (`transport/mod.rs`). */
module Transport {
  import opened Wrappers
  import opened Protocol

  datatype TransportError = NotConnected | ChannelClosed | Serialization | UnsupportedMessage | StdioProcessError

  type Reply = Result<Message, TransportError>

  /** The sending half of a oneshot channel is held somewhere, has been used, or has been dropped. */
  datatype Sender = Held | Used(reply: Reply) | Dropped

  /** The channel created for `request`; `listening` while its receiver exists. */
  datatype Channel = Channel(request: RpcRequest, sender: Sender, listening: bool)

  function Send(channels: seq<Channel>, c: nat, reply: Reply): seq<Channel> {
    if c < |channels| then channels[c := channels[c].(sender := Used(reply))] else channels
  }

  function DropAll(channels: seq<Channel>, senders: set<nat>): seq<Channel> {
    seq(|channels|, i requires 0 <= i < |channels| =>
      if i in senders then channels[i].(sender := Dropped) else channels[i])
  }

  /** Channels keep their requests, and a sender that was used or dropped stays as it was. */
  predicate SendersFinal(before: seq<Channel>, after: seq<Channel>) {
    && |before| <= |after|
    && forall c | 0 <= c < |before| ::
         && after[c].request == before[c].request
         && (!before[c].sender.Held? ==> after[c].sender == before[c].sender)
  }

  /** No two entries share a sender, and every sender in the map is unused. */
  predicate ValidMap(requests: map<string, nat>, channels: seq<Channel>) {
    && (forall k | k in requests :: requests[k] < |channels| && channels[requests[k]].sender.Held?)
    && (forall k, l | k in requests && l in requests && requests[k] == requests[l] :: k == l)
  }

  /** `PendingRequests`, together with the channels its senders belong to. */
  class PendingRequests {
    var requests: map<string, nat>
    var channels: seq<Channel>

    ghost predicate Valid()
      reads this
    {
      ValidMap(requests, channels)
    }

    constructor (channels: seq<Channel>)
      ensures Valid() && requests == map[] && this.channels == channels
    {
      requests, this.channels := map[], channels;
    }

    // A sender that was already under this id is dropped by the map.
    method Insert(id: string, sender: nat)
      requires Valid() && sender < |channels| && channels[sender].sender.Held? && sender !in requests.Values
      modifies this
      ensures Valid() && SendersFinal(old(channels), channels)
      ensures requests == old(requests)[id := sender]
      ensures channels == DropAll(old(channels), if id in old(requests) then {old(requests)[id]} else {})
    {
      if id in requests { channels := DropAll(channels, {requests[id]}); }
      requests := requests[id := sender];
    }

    method Respond(id: string, response: Reply)
      requires Valid()
      modifies this
      ensures Valid() && SendersFinal(old(channels), channels)
      ensures requests == old(requests) - {id}
      ensures channels ==
                if id in old(requests) then Send(old(channels), old(requests)[id], response) else old(channels)
    {
      if id in requests {
        var tx := requests[id];
        requests := requests - {id};
        channels := Send(channels, tx, response);
      }
    }

    method Clear()
      requires Valid()
      modifies this
      ensures Valid() && SendersFinal(old(channels), channels)
      ensures requests == map[] && channels == DropAll(old(channels), old(requests.Values))
    {
      channels := DropAll(channels, requests.Values);
      requests := map[];
    }
  }
}

/** `McpClient`: ids, the reply check, and the calls gated by the server's capabilities. */
module Client {
  import opened Wrappers
  import opened Json
  import opened Protocol
  import opened Transport

  datatype ClientError =
    | McpServerError(methodName: string, source: TransportError)
    | RpcFailure(code: I32, message: string)
    | UnexpectedResponse(message: string)
    | NotInitialized
    | Undecodable

  /** Which method families the server advertised. */
  datatype Capabilities = Capabilities(prompts: bool, resources: bool, tools: bool)

  datatype Operation = ListResources | ReadResource | ListTools | CallTool | ListPrompts | GetPrompt

  function MethodName(op: Operation): string {
    match op
    case ListResources => "resources/list"
    case ReadResource => "resources/read"
    case ListTools => "tools/list"
    case CallTool => "tools/call"
    case ListPrompts => "prompts/list"
    case GetPrompt => "prompts/get"
  }

  predicate Allows(caps: Capabilities, op: Operation) {
    match op
    case ListResources => caps.resources
    case ReadResource => caps.resources
    case ListTools => caps.tools
    case CallTool => caps.tools
    case ListPrompts => caps.prompts
    case GetPrompt => caps.prompts
  }

  // What a call yields when its family is not advertised: two listings are empty, the rest fail.
  function Unsupported(op: Operation): Result<Value, ClientError> {
    match op
    case ListResources => Ok(Obj(map["resources" := Arr([])]))
    case ListTools => Ok(Obj(map["tools" := Arr([])]))
    case ReadResource => Err(RpcFailure(METHOD_NOT_FOUND, "Server does not support 'resources' capability"))
    case CallTool => Err(RpcFailure(METHOD_NOT_FOUND, "Server does not support 'tools' capability"))
    case ListPrompts => Err(RpcFailure(METHOD_NOT_FOUND, "Server does not support 'prompts' capability"))
    case GetPrompt => Err(RpcFailure(METHOD_NOT_FOUND, "Server does not support 'prompts' capability"))
  }

  // The atomic counter wraps at 2^64.
  function NextId(id: U64): U64 {
    (id + 1) % TWO64
  }

  function LastId(next: U64): U64 {
    (next + TWO64 - 1) % TWO64
  }

  function MakeRequest(id: U64, methodName: string, params: Value): RpcRequest {
    RpcRequest("2.0", Some(id), methodName, Some(params))
  }

  const INITIALIZED: Message := Notification(RpcNotification("2.0", "notifications/initialized", Some(Obj(map[]))))

  /** How `send_request` reads the message it was handed, having last issued `expected`. */
  function Interpret(expected: U64, m: Message): Result<Value, ClientError> {
    match m
    case Response(r) =>
      if r.id != Some(expected) then Err(UnexpectedResponse("id mismatch for JsonRpcResponse"))
      else if r.error.Some? then Err(RpcFailure(r.error.value.code, r.error.value.message))
      else if r.result.Some? then Ok(r.result.value)
      else Err(UnexpectedResponse("missing result"))
    case Error(e) =>
      if e.id != Some(expected) then Err(UnexpectedResponse("id mismatch for JsonRpcError"))
      else Err(RpcFailure(e.error.code, e.error.message))
    case _ => Err(UnexpectedResponse("unexpected message type"))
  }

  function Outcome(expected: U64, methodName: string, reply: Reply): Result<Value, ClientError> {
    match reply
    case Err(e) => Err(McpServerError(methodName, e))
    case Ok(m) => Interpret(expected, m)
  }

  /** The transport behind a client: it keeps what it was handed, and its reply may depend on all of that. */
  class Service {
    const replies: seq<Message> -> Reply
    var sent: seq<Message>

    constructor (replies: seq<Message> -> Reply)
      ensures this.replies == replies && sent == []
    {
      this.replies, this.sent := replies, [];
    }

    method Call(m: Message) returns (reply: Reply)
      modifies this
      ensures sent == old(sent) + [m] && reply == replies(sent)
    {
      sent := sent + [m];
      reply := replies(sent);
    }
  }

  class McpClient {
    const service: Service
    var nextId: U64
    var serverCapabilities: Option<Capabilities>

    constructor (service: Service)
      ensures this.service == service && nextId == 1 && serverCapabilities == None
    {
      this.service, nextId, serverCapabilities := service, 1, None;
    }

    /** Hands over one request, under the next id, and reads its reply against that id. */
    method SendRequest(methodName: string, params: Value) returns (r: Result<Value, ClientError>)
      modifies this`nextId, service
      ensures nextId == NextId(old(nextId))
      ensures service.sent
           == old(service.sent) + [Request(RpcRequest("2.0", Some(old(nextId)), methodName, Some(params)))]
      ensures r == Outcome(old(nextId), methodName, service.replies(service.sent))
      ensures match service.replies(service.sent)
              case Err(e) => r == Err(McpServerError(methodName, e))
              case Ok(Response(p)) =>
                if p.id != Some(old(nextId)) then r == Err(UnexpectedResponse("id mismatch for JsonRpcResponse"))
                else if p.error.Some? then r == Err(RpcFailure(p.error.value.code, p.error.value.message))
                else if p.result.Some? then r == Ok(p.result.value)
                else r == Err(UnexpectedResponse("missing result"))
              case Ok(Error(e)) =>
                if e.id != Some(old(nextId)) then r == Err(UnexpectedResponse("id mismatch for JsonRpcError"))
                else r == Err(RpcFailure(e.error.code, e.error.message))
              case Ok(_) => r == Err(UnexpectedResponse("unexpected message type"))
    {
      var id := nextId;
      nextId := NextId(nextId);
      var reply := service.Call(Request(MakeRequest(id, methodName, params)));
      r := Outcome(LastId(nextId), methodName, reply);
    }

    /** The capabilities change only when both messages of the handshake went well; the second follows a good first. */
    method Initialize(params: Value, decode: Value -> Option<Capabilities>)
      returns (r: Result<Capabilities, ClientError>)
      modifies this, service
      ensures nextId == NextId(old(nextId))
      ensures r.Err? ==> serverCapabilities == old(serverCapabilities)
      ensures r.Ok? ==> serverCapabilities == Some(r.value)
      ensures var initialized := Notification(RpcNotification("2.0", "notifications/initialized", Some(Obj(map[]))));
              var first := old(service.sent)
                           + [Request(RpcRequest("2.0", Some(old(nextId)), "initialize", Some(params)))];
              var result := Outcome(old(nextId), "initialize", service.replies(first));
              var accepted := result.Ok? && decode(result.value).Some?;
              && service.sent == (if accepted then first + [initialized] else first)
              && (r.Ok? <==> accepted && service.replies(first + [initialized]).Ok?)
    {
      var result := SendRequest("initialize", params);
      if result.Err? { return Err(result.error); }
      var capabilities := decode(result.value);
      if capabilities.None? { return Err(Undecodable); }
      var sent := service.Call(INITIALIZED);
      if sent.Err? { return Err(McpServerError("notifications/initialized", sent.error)); }
      serverCapabilities := capabilities;
      return Ok(capabilities.value);
    }

    /** Nothing is sent, and no id is spent, unless the latest handshake advertised the method's family. */
    method Invoke(op: Operation, params: Value) returns (r: Result<Value, ClientError>)
      modifies this`nextId, service
      ensures var advertised := serverCapabilities.Some? &&
                                match op
                                case ListResources => serverCapabilities.value.resources
                                case ReadResource => serverCapabilities.value.resources
                                case ListTools => serverCapabilities.value.tools
                                case CallTool => serverCapabilities.value.tools
                                case ListPrompts => serverCapabilities.value.prompts
                                case GetPrompt => serverCapabilities.value.prompts;
              var methodName := match op
                                case ListResources => "resources/list"
                                case ReadResource => "resources/read"
                                case ListTools => "tools/list"
                                case CallTool => "tools/call"
                                case ListPrompts => "prompts/list"
                                case GetPrompt => "prompts/get";
              if advertised then
                && nextId == NextId(old(nextId))
                && service.sent
                   == old(service.sent) + [Request(RpcRequest("2.0", Some(old(nextId)), methodName, Some(params)))]
                && r == Outcome(old(nextId), methodName, service.replies(service.sent))
              else service.sent == old(service.sent) && nextId == old(nextId)
      ensures serverCapabilities.None? ==> r == Err(NotInitialized)
      ensures serverCapabilities.Some? && !Allows(serverCapabilities.value, op) ==>
                match op
                case ListResources => r == Ok(Obj(map["resources" := Arr([])]))
                case ListTools => r == Ok(Obj(map["tools" := Arr([])]))
                case ReadResource => r == Err(RpcFailure(-32601, "Server does not support 'resources' capability"))
                case CallTool => r == Err(RpcFailure(-32601, "Server does not support 'tools' capability"))
                case ListPrompts => r == Err(RpcFailure(-32601, "Server does not support 'prompts' capability"))
                case GetPrompt => r == Err(RpcFailure(-32601, "Server does not support 'prompts' capability"))
    {
      if serverCapabilities.None? { return Err(NotInitialized); }
      if !Allows(serverCapabilities.value, op) { return Unsupported(op); }
      r := SendRequest(MethodName(op), params);
    }
  }
}
