/** `RouterService::call`: dispatch of a request to the handlers of a router. */
module Router {
  import opened Wrappers
  import opened Json
  import opened Protocol
  import opened Prompts
  import opened Sequences

  datatype ResourceError = ExecutionError(message: string) | NotFound(message: string)

  datatype Capabilities = Capabilities(prompts: Option<Value>, resources: Option<Value>, tools: Option<Value>)

  /**
   * What an implementation of the `Router` trait supplies. Listings and tool contents are given
   * as the values they serialise to; error texts are those of their `Display` implementations.
   */
  datatype Router = Router(
    name: string, version: string, instructions: string, capabilities: Capabilities,
    tools: seq<Value>, callTool: (string, Value) -> Result<seq<Value>, string>,
    resources: seq<Value>, readResource: string -> Result<string, ResourceError>,
    prompts: seq<Prompt>, getPrompt: string -> Result<string, string>)

  function Display(e: RouterError): string {
    match e
    case MethodNotFound(m) => "Method not found: " + m
    case InvalidParams(m) => "Invalid parameters: " + m
    case Internal(m) => "Internal error: " + m
    case ToolNotFound(m) => "Tool not found: " + m
    case ResourceNotFound(m) => "Resource not found: " + m
    case PromptNotFound(m) => "Not found: " + m
  }

  // `From<RouterError> for ErrorData`
  function ToErrorData(e: RouterError): ErrorData {
    match e
    case MethodNotFound(m) => ErrorData(METHOD_NOT_FOUND, m, None)
    case InvalidParams(m) => ErrorData(INVALID_PARAMS, m, None)
    case Internal(m) => ErrorData(INTERNAL_ERROR, m, None)
    case ToolNotFound(m) => ErrorData(INVALID_REQUEST, m, None)
    case ResourceNotFound(m) => ErrorData(INVALID_REQUEST, m, None)
    case PromptNotFound(m) => ErrorData(INVALID_REQUEST, m, None)
  }

  /** The codes a router error stands for, whose text is kept. */
  lemma ErrorCodes(e: RouterError)
    ensures ToErrorData(e).message == e.message && ToErrorData(e).data == None
    ensures ToErrorData(e).code == if e.MethodNotFound? then -32601
                                   else if e.InvalidParams? then -32602
                                   else if e.Internal? then -32603
                                   else -32600
  {
  }

  function TextContent(text: string): Value {
    Obj(map["type" := Str("text"), "text" := Str(text)])
  }

  function OptionalText(name: string, text: Option<string>): map<string, Value> {
    Member(name, if text.Some? then Some(Str(text.value)) else None)
  }

  function ArgumentValue(a: PromptArgument): Value {
    Obj(map["name" := Str(a.name)] + OptionalText("description", a.description)
        + Member("required", if a.required.Some? then Some(Bool(a.required.value)) else None))
  }

  function PromptValue(p: Prompt): Value {
    Obj(map["name" := Str(p.name)] + OptionalText("description", p.description)
        + Member("arguments",
                 if p.arguments.None? then None else
                   var args := p.arguments.value;
                   Some(Arr(seq(|args|, i requires 0 <= i < |args| => ArgumentValue(args[i]))))))
  }

  // ---------- Handlers ----------

  function CapabilitiesValue(c: Capabilities): Value {
    Obj(Member("prompts", c.prompts) + Member("resources", c.resources) + Member("tools", c.tools))
  }

  function HandleInitialize(r: Router): Value {
    Obj(map["protocolVersion" := Str("2024-11-05"),
            "capabilities" := CapabilitiesValue(r.capabilities),
            "serverInfo" := Obj(map["name" := Str(r.name), "version" := Str(r.version)]),
            "instructions" := Str(r.instructions)])
  }

  function HandleToolsCall(r: Router, params: Option<Value>): Result<Value, RouterError> {
    if params.None? then Err(InvalidParams("Missing parameters")) else
      var name, arguments := Get(params.value, "name"), Get(params.value, "arguments");
      if name.None? || !name.value.Str? then Err(InvalidParams("Missing tool name")) else
        match r.callTool(name.value.s, if arguments.Some? then arguments.value else Null)
        case Ok(content) => Ok(Obj(map["content" := Arr(content)]))
        case Err(text) => Ok(Obj(map["content" := Arr([TextContent(text)]), "isError" := Bool(true)]))
  }

  function HandleResourcesRead(r: Router, params: Option<Value>): Result<Value, RouterError> {
    if params.None? then Err(InvalidParams("Missing parameters")) else
      var uri := Get(params.value, "uri");
      if uri.None? || !uri.value.Str? then Err(InvalidParams("Missing resource URI")) else
        match r.readResource(uri.value.s)
        case Ok(text) =>
          Ok(Obj(map["contents" := Arr([
            Obj(map["uri" := uri.value, "mime_type" := Str("text/plain"), "text" := Str(text)])])]))
        case Err(NotFound(m)) => Err(ResourceNotFound(m))
        case Err(_) => Err(Internal("Unknown resource error"))
  }

  // The order in which an object's members are walked: some fixed enumeration of its keys.
  ghost function KeyOrder(keys: set<string>): (order: seq<string>)
    ensures Distinct(order)
    ensures forall k :: k in order <==> k in keys
  {
    if keys == {} then [] else
      var k :| k in keys;
      [k] + KeyOrder(keys - {k})
  }

  ghost function HandlePromptsGet(r: Router, params: Option<Value>): Result<Value, RouterError> {
    match Extract(params)
    case Err(e) => Err(e)
    case Ok((name, arguments)) =>
      match FilledPrompt(r.prompts, r.getPrompt, name, arguments, KeyOrder(arguments.Keys))
      case Err(e) => Err(e)
      case Ok(text) =>
        Ok(Obj(map["description" := Str(text),
                   "messages" := Arr([Obj(map["role" := Str("user"), "content" := TextContent(text)])])]))
  }

  // ---------- Dispatch ----------

  const METHODS: seq<string> := [
    "initialize", "tools/list", "tools/call", "resources/list", "resources/read", "prompts/list", "prompts/get"]

  ghost function Handle(r: Router, methodName: string, params: Option<Value>): Result<Value, RouterError>
    requires methodName in METHODS
  {
    if methodName == "initialize" then Ok(HandleInitialize(r))
    else if methodName == "tools/list" then Ok(Obj(map["tools" := Arr(r.tools)]))
    else if methodName == "tools/call" then HandleToolsCall(r, params)
    else if methodName == "resources/list" then Ok(Obj(map["resources" := Arr(r.resources)]))
    else if methodName == "resources/read" then HandleResourcesRead(r, params)
    else if methodName == "prompts/list" then
      Ok(Obj(map["prompts" := Arr(seq(|r.prompts|, i requires 0 <= i < |r.prompts| => PromptValue(r.prompts[i])))]))
    else HandlePromptsGet(r, params)
  }

  function CreateResponse(id: Option<U64>): RpcResponse {
    RpcResponse("2.0", id, None, None)
  }

  ghost function Call(r: Router, req: RpcRequest): Result<RpcResponse, RouterError> {
    if req.methodName !in METHODS then
      Ok(CreateResponse(req.id).(error := Some(ToErrorData(MethodNotFound(req.methodName)))))
    else
      match Handle(r, req.methodName, req.params)
      case Ok(result) => Ok(CreateResponse(req.id).(result := Some(result)))
      case Err(e) => Err(e)
  }
}
