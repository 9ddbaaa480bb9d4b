/**
 * What each method of a router returns to a client: from the request on the wire to the result
 * of the call, in terms of what the router itself supplies.
 */
module RemoteCalls {
  import opened Wrappers
  import opened Json
  import opened Protocol
  import opened Client
  import opened ClientRun
  import opened ClientUndisturbed
  import opened Transparency
  import P = Prompts
  import Refusals = PromptRefusals

  // ---------- How things are shown ----------

  function AsText(text: Option<string>): Option<Value> {
    if text.Some? then Some(Str(text.value)) else None
  }

  predicate ArgumentShown(a: P.PromptArgument, v: Value) {
    && v.Obj? && v.fields.Keys <= {"name", "description", "required"}
    && Shows(v.fields, "name", Some(Str(a.name)))
    && Shows(v.fields, "description", AsText(a.description))
    && Shows(v.fields, "required", if a.required.Some? then Some(Bool(a.required.value)) else None)
  }

  predicate PromptShown(p: P.Prompt, v: Value) {
    && v.Obj? && v.fields.Keys <= {"name", "description", "arguments"}
    && Shows(v.fields, "name", Some(Str(p.name)))
    && Shows(v.fields, "description", AsText(p.description))
    && ("arguments" in v.fields <==> p.arguments.Some?)
    && (p.arguments.Some? ==>
          && v.fields["arguments"].Arr? && |v.fields["arguments"].items| == |p.arguments.value|
          && forall i | 0 <= i < |p.arguments.value| ::
               ArgumentShown(p.arguments.value[i], v.fields["arguments"].items[i]))
  }

  predicate PromptsShown(prompts: seq<P.Prompt>, v: Value) {
    && v.Arr? && |v.items| == |prompts|
    && forall i | 0 <= i < |prompts| :: PromptShown(prompts[i], v.items[i])
  }

  predicate CapabilitiesShown(c: R.Capabilities, v: Value) {
    && v.Obj? && v.fields.Keys <= {"prompts", "resources", "tools"}
    && Shows(v.fields, "prompts", c.prompts)
    && Shows(v.fields, "resources", c.resources)
    && Shows(v.fields, "tools", c.tools)
  }

  /** The string member of an object of parameters. */
  predicate HasText(params: Value, name: string) {
    params.Obj? && name in params.fields && params.fields[name].Str?
  }

  /** An error of a handler, as the client gets it. */
  function Refused(text: string): Result<Value, ClientError> {
    Err(RpcFailure(-32603, text))
  }

  // ---------- What each method gives ----------

  predicate InitializeGives(r: R.Router, result: Result<Value, ClientError>) {
    && result.Ok? && result.value.Obj?
    && result.value.fields.Keys == {"protocolVersion", "capabilities", "serverInfo", "instructions"}
    && result.value.fields["protocolVersion"] == Str("2024-11-05")
    && CapabilitiesShown(r.capabilities, result.value.fields["capabilities"])
    && result.value.fields["serverInfo"] == Obj(map["name" := Str(r.name), "version" := Str(r.version)])
    && result.value.fields["instructions"] == Str(r.instructions)
  }

  predicate PromptsListGives(r: R.Router, result: Result<Value, ClientError>) {
    && result.Ok? && result.value.Obj? && result.value.fields.Keys == {"prompts"}
    && PromptsShown(r.prompts, result.value.fields["prompts"])
  }

  /** The tool's contents, or its error as text and marked as one. */
  function ToolGives(outcome: Result<seq<Value>, string>): Value {
    match outcome
    case Ok(content) => Obj(map["content" := Arr(content)])
    case Err(text) =>
      Obj(map["content" := Arr([Obj(map["type" := Str("text"), "text" := Str(text)])]), "isError" := Bool(true)])
  }

  predicate ToolsCallGives(r: R.Router, params: Value, result: Result<Value, ClientError>) {
    if HasText(params, "name") then
      var arguments := if "arguments" in params.fields then params.fields["arguments"] else Null;
      result == Ok(ToolGives(r.callTool(params.fields["name"].s, arguments)))
    else if params == Null then result == Refused("Invalid parameters: " + "Missing parameters")
    else result == Refused("Invalid parameters: " + "Missing tool name")
  }

  function ResourceGives(uri: string, text: string): Value {
    Obj(map["contents" := Arr([
      Obj(map["uri" := Str(uri), "mime_type" := Str("text/plain"), "text" := Str(text)])])])
  }

  predicate ResourcesReadGives(r: R.Router, params: Value, result: Result<Value, ClientError>) {
    if HasText(params, "uri") then
      var uri := params.fields["uri"].s;
      match r.readResource(uri)
      case Ok(text) => result == Ok(ResourceGives(uri, text))
      case Err(NotFound(m)) => result == Refused("Resource not found: " + m)
      case Err(ExecutionError(_)) => result == Refused("Internal error: " + "Unknown resource error")
    else if params == Null then result == Refused("Invalid parameters: " + "Missing parameters")
    else result == Refused("Invalid parameters: " + "Missing resource URI")
  }

  /** A prompt's text is shown twice: as the description and as the user's message. */
  function PromptGives(text: string): Value {
    Obj(map[
      "description" := Str(text),
      "messages" := Arr([
        Obj(map["role" := Str("user"), "content" := Obj(map["type" := Str("text"), "text" := Str(text)])])])])
  }

  ghost predicate PromptsGetGives(r: R.Router, params: Value, result: Result<Value, ClientError>) {
    if params == Null then result == Refused("Invalid parameters: " + "Missing parameters")
    else if !HasText(params, "name") then result == Refused("Invalid parameters: " + "Missing prompt name")
    else if "arguments" !in params.fields || !params.fields["arguments"].Obj? then
      result == Refused("Invalid parameters: " + "Missing arguments object")
    else
      var order := R.KeyOrder(params.fields["arguments"].fields.Keys);
      match P.PromptsGet(r.prompts, r.getPrompt, Some(params), order)
      case Ok(text) => result == Ok(PromptGives(text))
      case Err(InvalidParams(m)) => result == Refused("Invalid parameters: " + m)
      case Err(PromptNotFound(m)) => result == Refused("Not found: " + m)
      case Err(Internal(m)) => result == Refused("Internal error: " + m)
      case Err(_) => false
  }

  /** What a call gives its caller, in terms of the router's own fields. */
  ghost predicate Gives(r: R.Router, methodName: string, params: Value, result: Result<Value, ClientError>) {
    if methodName == "initialize" then InitializeGives(r, result)
    else if methodName == "tools/list" then result == Ok(Obj(map["tools" := Arr(r.tools)]))
    else if methodName == "tools/call" then ToolsCallGives(r, params, result)
    else if methodName == "resources/list" then result == Ok(Obj(map["resources" := Arr(r.resources)]))
    else if methodName == "resources/read" then ResourcesReadGives(r, params, result)
    else if methodName == "prompts/list" then PromptsListGives(r, result)
    else if methodName == "prompts/get" then PromptsGetGives(r, params, result)
    else result == Err(RpcFailure(-32601, methodName))
  }

  // ---------- One method at a time ----------

  // A handler's answer, as the client gets it.
  ghost function Handled(answer: Result<Value, P.RouterError>): Result<Value, ClientError> {
    match answer
    case Ok(result) => Ok(result)
    case Err(MethodNotFound(m)) => Refused("Method not found: " + m)
    case Err(InvalidParams(m)) => Refused("Invalid parameters: " + m)
    case Err(Internal(m)) => Refused("Internal error: " + m)
    case Err(ToolNotFound(m)) => Refused("Tool not found: " + m)
    case Err(ResourceNotFound(m)) => Refused("Resource not found: " + m)
    case Err(PromptNotFound(m)) => Refused("Not found: " + m)
  }

  lemma DirectIsHandled(r: R.Router, methodName: string, params: Value)
    ensures methodName in R.METHODS ==>
              Direct(r, methodName, params) == Handled(R.Handle(r, methodName, NullToNone(Some(params))))
    ensures methodName !in R.METHODS ==> Direct(r, methodName, params) == Err(RpcFailure(-32601, methodName))
  {
    hide R.Handle;
  }

  // Which handler serves which method.
  lemma Dispatch(r: R.Router, params: Option<Value>)
    ensures "initialize" in R.METHODS && R.Handle(r, "initialize", params) == Ok(R.HandleInitialize(r))
    ensures "tools/list" in R.METHODS && R.Handle(r, "tools/list", params) == Ok(Obj(map["tools" := Arr(r.tools)]))
    ensures "resources/list" in R.METHODS
            && R.Handle(r, "resources/list", params) == Ok(Obj(map["resources" := Arr(r.resources)]))
    ensures "tools/call" in R.METHODS && R.Handle(r, "tools/call", params) == R.HandleToolsCall(r, params)
    ensures "resources/read" in R.METHODS && R.Handle(r, "resources/read", params) == R.HandleResourcesRead(r, params)
    ensures "prompts/get" in R.METHODS && R.Handle(r, "prompts/get", params) == R.HandlePromptsGet(r, params)
  {
    hide R.HandleInitialize, R.HandleToolsCall, R.HandleResourcesRead, R.HandlePromptsGet;
  }

  lemma InitializeIs(r: R.Router, params: Value)
    ensures InitializeGives(r, Direct(r, "initialize", params))
  {
    hide R.Handle, Direct, InitializeGives, R.HandleInitialize;
    Dispatch(r, NullToNone(Some(params)));
    DirectIsHandled(r, "initialize", params);
    InitializeValue(r);
  }

  lemma InitializeValue(r: R.Router)
    ensures InitializeGives(r, Ok(R.HandleInitialize(r)))
  {
    hide CapabilitiesShown, R.CapabilitiesValue;
    CapabilitiesAreShown(r.capabilities);
  }

  lemma CapabilitiesAreShown(c: R.Capabilities)
    ensures CapabilitiesShown(c, R.CapabilitiesValue(c))
  {
  }

  lemma ListingsAre(r: R.Router, params: Value)
    ensures Direct(r, "tools/list", params) == Ok(Obj(map["tools" := Arr(r.tools)]))
    ensures Direct(r, "resources/list", params) == Ok(Obj(map["resources" := Arr(r.resources)]))
  {
    hide R.Handle, Direct;
    Dispatch(r, NullToNone(Some(params)));
    DirectIsHandled(r, "tools/list", params);
    DirectIsHandled(r, "resources/list", params);
  }

  lemma PromptsListIs(r: R.Router, params: Value)
    ensures PromptsListGives(r, Direct(r, "prompts/list", params))
  {
    hide R.PromptValue, PromptShown;
    forall p ensures PromptShown(p, R.PromptValue(p)) { PromptIsShown(p); }
  }

  lemma PromptIsShown(p: P.Prompt)
    ensures PromptShown(p, R.PromptValue(p))
  {
    hide R.ArgumentValue, ArgumentShown;
    forall a ensures ArgumentShown(a, R.ArgumentValue(a)) { ArgumentIsShown(a); }
  }

  lemma ArgumentIsShown(a: P.PromptArgument)
    ensures ArgumentShown(a, R.ArgumentValue(a))
  {
  }

  lemma ToolsCallIs(r: R.Router, params: Value)
    ensures ToolsCallGives(r, params, Direct(r, "tools/call", params))
  {
    hide R.Handle, Direct;
    Dispatch(r, NullToNone(Some(params)));
    DirectIsHandled(r, "tools/call", params);
  }

  lemma ResourcesReadIs(r: R.Router, params: Value)
    ensures ResourcesReadGives(r, params, Direct(r, "resources/read", params))
  {
    hide R.Handle, Direct, ResourcesReadGives, R.HandleResourcesRead;
    Dispatch(r, NullToNone(Some(params)));
    DirectIsHandled(r, "resources/read", params);
    ResourcesReadHandled(r, params);
  }

  lemma ResourcesReadHandled(r: R.Router, params: Value)
    ensures ResourcesReadGives(r, params, Handled(R.HandleResourcesRead(r, NullToNone(Some(params)))))
  {
  }

  lemma PromptsGetIs(r: R.Router, params: Value)
    ensures PromptsGetGives(r, params, Direct(r, "prompts/get", params))
  {
    hide R.Handle, Direct, P.FilledPrompt;
    if params.Obj? && P.Extract(Some(params)).Ok? {
      Refusals.ThreeKindsOfError(
        r.prompts, r.getPrompt, Some(params), R.KeyOrder(P.Extract(Some(params)).value.1.Keys));
    }
    Dispatch(r, NullToNone(Some(params)));
    DirectIsHandled(r, "prompts/get", params);
  }

  /** The direct call gives what `Gives` says. */
  lemma DirectGives(r: R.Router, methodName: string, params: Value)
    ensures Gives(r, methodName, params, Direct(r, methodName, params))
  {
    hide Direct, InitializeGives, ToolsCallGives, ResourcesReadGives, PromptsListGives, PromptsGetGives;
    if methodName == "initialize" { InitializeIs(r, params); }
    else if methodName == "tools/list" || methodName == "resources/list" { ListingsAre(r, params); }
    else if methodName == "tools/call" { ToolsCallIs(r, params); }
    else if methodName == "resources/read" { ResourcesReadIs(r, params); }
    else if methodName == "prompts/list" { PromptsListIs(r, params); }
    else if methodName == "prompts/get" { PromptsGetIs(r, params); }
    else { DirectIsHandled(r, methodName, params); }
  }

  // ---------- Over the wire ----------

  /** What a client reads when a server driving the router answers its one request line. */
  ghost function WireResult(r: R.Router, id: U64, methodName: string, params: Value)
    : Option<Result<Value, ClientError>>
  {
    var (_, reply) := S.Answer(RouterService(r), (), S.Text(ToValue(Request(MakeRequest(id, methodName, params)))));
    if reply.None? then None
    else
      var got := Parse(ToValue(reply.value));
      if got.Ok? then Some(Interpret(id, got.value)) else None
  }

  /** One call through the wire both ways gives what the router's own fields say. */
  lemma OneCallGives(r: R.Router, id: U64, methodName: string, params: Value)
    ensures WireResult(r, id, methodName, params).Some?
    ensures Gives(r, methodName, params, WireResult(r, id, methodName, params).value)
  {
    hide Direct, Gives, Parse, ToValue, Interpret, S.Answer;
    OneCallIsDirect(r, id, methodName, params);
    DirectGives(r, methodName, params);
  }

  /** So does every call of every run against such a server, unless its transport failed. */
  lemma RemoteCallGives(r: R.Router, kind: Kind, steps: seq<Step>, i: nat)
    requires After(kind, steps).Some? && |After(kind, steps).value.channels| < TWO64 - 1
    requires FedBy(r, kind, steps)
    requires i < |After(kind, steps).value.log| && After(kind, steps).value.log[i].Replied?
    ensures var s := After(kind, steps).value;
            var Replied(c, result) := s.log[i];
            && c < |s.channels| && s.channels[c].request.params.Some?
            && ((result.Err? && result.error.McpServerError?)
                || Gives(r, s.channels[c].request.methodName, s.channels[c].request.params.value, result))
  {
    hide Direct, Gives;
    RemoteCallIsDirect(r, kind, steps, i);
    var s := After(kind, steps).value;
    var c := s.log[i].channel;
    DirectGives(r, s.channels[c].request.methodName, s.channels[c].request.params.value);
  }

  // ---------- The client's six operations ----------

  /**
   * From any quiescent state reached, an undisturbed operation of the client puts its own method on
   * the wire and comes back with what the router has for it.
   */
  lemma UndisturbedOperationGives(r: R.Router, kind: Kind, steps: seq<Step>, s: State, op: Operation, params: Value)
    returns (all: seq<Step>, t: State, sent: RpcRequest, result: Result<Value, ClientError>)
    requires After(kind, steps) == Some(s) && Quiescent(s) && |s.channels| + 1 < TWO64 - 1
    requires CanCall(s, Invoke(op, params))
    ensures steps <= all && After(kind, all) == Some(t)
    ensures t.wire == s.wire + [Request(sent)]
    ensures t.log == s.log + [Issued(Request(sent)), Replied(|s.channels|, result)]
    ensures Quiescent(t) && t.capabilities == s.capabilities
    ensures sent.jsonrpc == "2.0" && sent.id == Some(|s.channels| + 1) && sent.params == Some(params)
    ensures sent.methodName == (
              match op
              case ListResources => "resources/list"
              case ReadResource => "resources/read"
              case ListTools => "tools/list"
              case CallTool => "tools/call"
              case ListPrompts => "prompts/list"
              case GetPrompt => "prompts/get")
    ensures op == ListTools ==> result == Ok(Obj(map["tools" := Arr(r.tools)]))
    ensures op == ListResources ==> result == Ok(Obj(map["resources" := Arr(r.resources)]))
    ensures op == ListPrompts ==> PromptsListGives(r, result)
    ensures op == CallTool ==> ToolsCallGives(r, params, result)
    ensures op == ReadResource ==> ResourcesReadGives(r, params, result)
    ensures op == GetPrompt ==> PromptsGetGives(r, params, result)
  {
    hide ReturnedDirect, Quiescent, CanCall, After, ToolsCallGives, ResourcesReadGives, PromptsListGives,
         PromptsGetGives, InitializeGives, Direct, SendSteps, ReceiveSteps;
    var v;
    all, v, t := UndisturbedCallReturns(r, kind, steps, s, Invoke(op, params));
    sent := MakeRequest(|s.channels| + 1, MethodName(op), params);
    result := Direct(r, MethodName(op), params);
    DirectGives(r, MethodName(op), params);
    ReturnedIs(r, s, Invoke(op, params), v, t);
  }

  lemma ReturnedIs(r: R.Router, s: State, issue: CallStep, v: Value, t: State)
    requires issue.BeginInitialize? || issue.Invoke?
    requires ReturnedDirect(r, s, issue, v, t)
    ensures |s.channels| < TWO64 - 1
    ensures var sent := Request(MakeRequest(|s.channels| + 1, IssuedMethod(issue), issue.params));
            && t.wire == s.wire + [sent]
            && t.log == s.log + [Issued(sent), Replied(|s.channels|, Direct(r, IssuedMethod(issue), issue.params))]
    ensures issue.Invoke? ==> Quiescent(t) && t.capabilities == s.capabilities
  {
    hide Direct, Served, MakeRequest, AdvertisedBy;
  }

  /** A tool called with a name and arguments is called with exactly these. */
  lemma CallToolPassesArguments(r: R.Router, name: string, arguments: Value, result: Result<Value, ClientError>)
    requires ToolsCallGives(r, Obj(map["name" := Str(name), "arguments" := arguments]), result)
    ensures result == Ok(ToolGives(r.callTool(name, arguments)))
  {
  }
}
