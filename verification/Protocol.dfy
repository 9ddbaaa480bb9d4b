/** JSON values as `serde_json::Value` holds them once text has been parsed. */
module Json {

  datatype Value =
    | Null
    | Bool(b: bool)
    | Int(n: int)
    | Real(r: real)
    | Str(s: string)
    | Arr(items: seq<Value>)
    | Obj(fields: map<string, Value>)
}

/**
 * The JSON-RPC messages of `mcp-core`, the value each one serialises to, and the
 * classification of an incoming value (JSON-RPC 2.0, sections 4, 4.1, 5 and 5.1).
 */
module Protocol {
  import opened Wrappers
  import opened Json

  const TWO64: nat := 0x1_0000_0000_0000_0000

  type U64 = n: nat | n < TWO64
  type I32 = n: int | -0x8000_0000 <= n < 0x8000_0000

  const PARSE_ERROR: I32 := -32700
  const INVALID_REQUEST: I32 := -32600
  const METHOD_NOT_FOUND: I32 := -32601
  const INVALID_PARAMS: I32 := -32602
  const INTERNAL_ERROR: I32 := -32603

  datatype ErrorData = ErrorData(code: I32, message: string, data: Option<Value>)

  datatype RpcRequest = RpcRequest(jsonrpc: string, id: Option<U64>, methodName: string, params: Option<Value>)
  datatype RpcResponse = RpcResponse(jsonrpc: string, id: Option<U64>, result: Option<Value>, error: Option<ErrorData>)
  datatype RpcNotification = RpcNotification(jsonrpc: string, methodName: string, params: Option<Value>)
  datatype RpcError = RpcError(jsonrpc: string, id: Option<U64>, error: ErrorData)

  datatype Message =
    | Request(request: RpcRequest)
    | Response(response: RpcResponse)
    | Notification(notification: RpcNotification)
    | Error(failure: RpcError)
    | Nil

  datatype Raw = Raw(
    jsonrpc: string, id: Option<U64>, methodName: Option<string>,
    params: Option<Value>, result: Option<Value>, error: Option<ErrorData>)

  /** BadShape: the value is no `JsonRpcRaw`. BadFormat: it is one that no message variant fits. */
  datatype ParseError = BadShape | BadFormat

  // ---------- Serialisation ----------

  // A member whose `Option` is None is skipped.
  function Member(name: string, value: Option<Value>): map<string, Value> {
    if value.Some? then map[name := value.value] else map[]
  }

  function IdMember(id: Option<U64>): map<string, Value> {
    Member("id", if id.Some? then Some(Int(id.value)) else None)
  }

  function ErrorDataValue(e: ErrorData): Value {
    Obj(map["code" := Int(e.code), "message" := Str(e.message)] + Member("data", e.data))
  }

  function ToValue(m: Message): Value {
    match m
    case Request(r) =>
      Obj(map["jsonrpc" := Str(r.jsonrpc), "method" := Str(r.methodName)] + IdMember(r.id) + Member("params", r.params))
    case Response(r) =>
      Obj(map["jsonrpc" := Str(r.jsonrpc)] + IdMember(r.id) + Member("result", r.result)
          + Member("error", if r.error.Some? then Some(ErrorDataValue(r.error.value)) else None))
    case Notification(n) =>
      Obj(map["jsonrpc" := Str(n.jsonrpc), "method" := Str(n.methodName)] + Member("params", n.params))
    case Error(e) =>
      Obj(map["jsonrpc" := Str(e.jsonrpc), "error" := ErrorDataValue(e.error)] + IdMember(e.id))
    case Nil => Null
  }

  // ---------- Parsing ----------

  // A derived struct is read from an object, or from an array with one item per field.
  predicate IsRecord(v: Value, arity: nat) {
    v.Obj? || (v.Arr? && |v.items| == arity)
  }

  // The value of one field; an absent member reads as null, as it does for an `Option`.
  function Field(v: Value, name: string, position: nat): Value
    requires v.Obj? || (v.Arr? && position < |v.items|)
  {
    match v
    case Obj(fields) => if name in fields then fields[name] else Null
    case Arr(items) => items[position]
  }

  function Optional(v: Value): Option<Value> {
    if v == Null then None else Some(v)
  }

  function ParseErrorData(v: Value): Option<ErrorData> {
    if !IsRecord(v, 3) then None else
      var code, message := Field(v, "code", 0), Field(v, "message", 1);
      if code.Int? && -0x8000_0000 <= code.n < 0x8000_0000 && message.Str? then
        Some(ErrorData(code.n, message.s, Optional(Field(v, "data", 2))))
      else None
  }

  function ParseRaw(v: Value): Option<Raw> {
    if !IsRecord(v, 6) then None else
      var jsonrpc, id, methodName := Field(v, "jsonrpc", 0), Field(v, "id", 1), Field(v, "method", 2);
      var error := Field(v, "error", 5);
      var errorData := ParseErrorData(error);
      if !jsonrpc.Str?
         || !(id.Null? || (id.Int? && 0 <= id.n < TWO64))
         || !(methodName.Null? || methodName.Str?)
         || (error != Null && errorData.None?)
      then None
      else Some(Raw(
        jsonrpc.s,
        if id.Int? then Some(id.n) else None,
        if methodName.Str? then Some(methodName.s) else None,
        Optional(Field(v, "params", 3)),
        Optional(Field(v, "result", 4)),
        if error == Null then None else errorData))
  }

  function Classify(raw: Raw): Result<Message, ParseError> {
    if raw.error.Some? then Ok(Error(RpcError(raw.jsonrpc, raw.id, raw.error.value)))
    else if raw.result.Some? then Ok(Response(RpcResponse(raw.jsonrpc, raw.id, raw.result, None)))
    else if raw.methodName.Some? then
      if raw.id.None? then Ok(Notification(RpcNotification(raw.jsonrpc, raw.methodName.value, raw.params)))
      else Ok(Request(RpcRequest(raw.jsonrpc, raw.id, raw.methodName.value, raw.params)))
    else if raw.id.None? then Ok(Nil)
    else Err(BadFormat)
  }

  function Parse(v: Value): Result<Message, ParseError> {
    var raw := ParseRaw(v);
    if raw.None? then Err(BadShape) else Classify(raw.value)
  }

  // ---------- Round trips ----------

  predicate NoNull(o: Option<Value>) {
    o != Some(Null)
  }

  /** The messages that survive the wire unchanged, read off their own fields. */
  predicate Survives(m: Message) {
    match m
    case Request(r) => r.id.Some? && NoNull(r.params)
    case Notification(n) => NoNull(n.params)
    case Response(r) => r.error.None? && r.result.Some? && NoNull(r.result)
    case Error(e) => NoNull(e.error.data)
    case Nil => false
  }

  lemma ErrorDataRoundTrip(e: ErrorData)
    ensures ErrorDataValue(e) != Null
    ensures ParseErrorData(ErrorDataValue(e))
         == Some(if e.data == Some(Null) then e.(data := None) else e)
  {
    var fields := ErrorDataValue(e).fields;
    assert fields["code"] == Int(e.code) && fields["message"] == Str(e.message);
    assert "data" in fields <==> e.data.Some?;
  }

  function NullToNone(o: Option<Value>): Option<Value> {
    if o == Some(Null) then None else o
  }

  // What an arbitrary message becomes on the other side of the wire.
  function Received(m: Message): Result<Message, ParseError> {
    match m
    case Request(r) =>
      if r.id.Some? then Ok(Request(r.(params := NullToNone(r.params))))
      else Ok(Notification(RpcNotification(r.jsonrpc, r.methodName, NullToNone(r.params))))
    case Notification(n) =>
      Ok(Notification(n.(params := NullToNone(n.params))))
    case Response(r) =>
      if r.error.Some? then
        var e := r.error.value;
        Ok(Error(RpcError(r.jsonrpc, r.id, e.(data := NullToNone(e.data)))))
      else if r.result.Some? && r.result != Some(Null) then Ok(m)
      else if r.id.None? then Ok(Nil)
      else Err(BadFormat)
    case Error(e) =>
      Ok(Error(e.(error := e.error.(data := NullToNone(e.error.data)))))
    case Nil => Err(BadShape)
  }

  // `ParseRaw` of an object reads exactly these six members.
  lemma RawOfObject(v: Value, raw: Raw)
    requires v.Obj?
    requires Field(v, "jsonrpc", 0) == Str(raw.jsonrpc)
    requires Field(v, "id", 1) == if raw.id.Some? then Int(raw.id.value) else Null
    requires Field(v, "method", 2) == if raw.methodName.Some? then Str(raw.methodName.value) else Null
    requires Optional(Field(v, "params", 3)) == raw.params
    requires Optional(Field(v, "result", 4)) == raw.result
    requires raw.error.None? ==> Field(v, "error", 5) == Null
    requires raw.error.Some? ==> Field(v, "error", 5) != Null && ParseErrorData(Field(v, "error", 5)) == raw.error
    ensures Parse(v) == Classify(raw)
  {
  }

  lemma RequestMeaning(r: RpcRequest)
    ensures Parse(ToValue(Request(r))) == Received(Request(r))
  {
    RawOfObject(ToValue(Request(r)), Raw(r.jsonrpc, r.id, Some(r.methodName), NullToNone(r.params), None, None));
  }

  lemma ResponseFields(r: RpcResponse)
    ensures var v := ToValue(Response(r));
            && Field(v, "jsonrpc", 0) == Str(r.jsonrpc)
            && Field(v, "id", 1) == (if r.id.Some? then Int(r.id.value) else Null)
            && Field(v, "method", 2) == Null
            && Field(v, "params", 3) == Null
            && Field(v, "result", 4) == (if r.result.Some? then r.result.value else Null)
            && Field(v, "error", 5) == (if r.error.Some? then ErrorDataValue(r.error.value) else Null)
  {
  }

  lemma ResponseMeaning(r: RpcResponse)
    ensures Parse(ToValue(Response(r))) == Received(Response(r))
  {
    var error := if r.error.None? then None else Some(r.error.value.(data := NullToNone(r.error.value.data)));
    if r.error.Some? { ErrorDataRoundTrip(r.error.value); }
    ResponseFields(r);
    RawOfObject(ToValue(Response(r)), Raw(r.jsonrpc, r.id, None, None, NullToNone(r.result), error));
  }

  lemma NotificationMeaning(n: RpcNotification)
    ensures Parse(ToValue(Notification(n))) == Received(Notification(n))
  {
    RawOfObject(ToValue(Notification(n)), Raw(n.jsonrpc, None, Some(n.methodName), NullToNone(n.params), None, None));
  }

  lemma ErrorMeaning(e: RpcError)
    ensures Parse(ToValue(Error(e))) == Received(Error(e))
  {
    ErrorDataRoundTrip(e.error);
    var error := e.error.(data := NullToNone(e.error.data));
    RawOfObject(ToValue(Error(e)), Raw(e.jsonrpc, e.id, None, None, None, Some(error)));
  }

  /** Serialising and classifying computes `Received`, for every message that can be built. */
  lemma WireMeaning(m: Message)
    ensures Parse(ToValue(m)) == Received(m)
  {
    match m
    case Request(r) => RequestMeaning(r);
    case Response(r) => ResponseMeaning(r);
    case Notification(n) => NotificationMeaning(n);
    case Error(e) => ErrorMeaning(e);
    case Nil =>
  }

  /** A constructed message comes back as itself exactly when `Survives` holds of it. */
  lemma RoundTripIff(m: Message)
    ensures Parse(ToValue(m)) == Ok(m) <==> Survives(m)
  {
    WireMeaning(m);
  }

  /** Serialise-then-classify normalises: whatever was parsed (and is not Nil) is a fixed point. */
  lemma ParsedIsFixedPoint(v: Value)
    requires Parse(v).Ok? && Parse(v).value != Nil
    ensures Survives(Parse(v).value)
    ensures Parse(ToValue(Parse(v).value)) == Parse(v)
  {
    RoundTripIff(Parse(v).value);
  }

  /** A response carrying an error arrives as an Error with the same id, code and message. */
  lemma ErrorResponseBecomesError(r: RpcResponse)
    requires r.error.Some?
    ensures var got := Parse(ToValue(Response(r)));
            && got.Ok? && got.value.Error?
            && got.value.failure.id == r.id
            && got.value.failure.error.code == r.error.value.code
            && got.value.failure.error.message == r.error.value.message
  {
    WireMeaning(Response(r));
  }

  // ---------- On the wire ----------

  /** The member `name` of an object is there exactly when there is a value, and is that value. */
  predicate Shows(fields: map<string, Value>, name: string, value: Option<Value>) {
    if value.Some? then name in fields && fields[name] == value.value else name !in fields
  }

  function AsInt(id: Option<U64>): Option<Value> {
    if id.Some? then Some(Int(id.value)) else None
  }

  predicate ErrorShown(e: ErrorData, v: Value) {
    && v.Obj? && v.fields.Keys <= {"code", "message", "data"}
    && Shows(v.fields, "code", Some(Int(e.code)))
    && Shows(v.fields, "message", Some(Str(e.message)))
    && Shows(v.fields, "data", e.data)
  }

  predicate RequestShown(r: RpcRequest, fields: map<string, Value>) {
    && fields.Keys <= {"jsonrpc", "id", "method", "params"}
    && Shows(fields, "jsonrpc", Some(Str(r.jsonrpc))) && Shows(fields, "id", AsInt(r.id))
    && Shows(fields, "method", Some(Str(r.methodName))) && Shows(fields, "params", r.params)
  }

  predicate ResponseShown(r: RpcResponse, fields: map<string, Value>) {
    && fields.Keys <= {"jsonrpc", "id", "result", "error"}
    && Shows(fields, "jsonrpc", Some(Str(r.jsonrpc))) && Shows(fields, "id", AsInt(r.id))
    && Shows(fields, "result", r.result)
    && ("error" in fields <==> r.error.Some?)
    && (r.error.Some? ==> ErrorShown(r.error.value, fields["error"]))
  }

  predicate NotificationShown(n: RpcNotification, fields: map<string, Value>) {
    && fields.Keys <= {"jsonrpc", "method", "params"}
    && Shows(fields, "jsonrpc", Some(Str(n.jsonrpc)))
    && Shows(fields, "method", Some(Str(n.methodName))) && Shows(fields, "params", n.params)
  }

  predicate FailureShown(e: RpcError, fields: map<string, Value>) {
    && fields.Keys <= {"jsonrpc", "id", "error"}
    && Shows(fields, "jsonrpc", Some(Str(e.jsonrpc))) && Shows(fields, "id", AsInt(e.id))
    && "error" in fields && ErrorShown(e.error, fields["error"])
  }

  /** What a message looks like on the wire, member by member. */
  lemma WireShape(m: Message)
    requires m != Nil
    ensures ToValue(m).Obj?
    ensures match m
            case Request(r) => RequestShown(r, ToValue(m).fields)
            case Response(r) => ResponseShown(r, ToValue(m).fields)
            case Notification(n) => NotificationShown(n, ToValue(m).fields)
            case Error(e) => FailureShown(e, ToValue(m).fields)
  {
    hide RequestShown, ResponseShown, NotificationShown, FailureShown, IdMember, Member, ErrorDataValue;
    match m
    case Request(r) => RequestIsShown(r);
    case Response(r) => ResponseIsShown(r);
    case Notification(n) => NotificationIsShown(n);
    case Error(e) => FailureIsShown(e);
  }

  lemma RequestIsShown(r: RpcRequest)
    ensures ToValue(Request(r)).Obj? && RequestShown(r, ToValue(Request(r)).fields)
  {
  }

  lemma ResponseIsShown(r: RpcResponse)
    ensures ToValue(Response(r)).Obj? && ResponseShown(r, ToValue(Response(r)).fields)
  {
    hide ErrorDataValue, ErrorShown;
    if r.error.Some? { ErrorIsShown(r.error.value); }
  }

  lemma NotificationIsShown(n: RpcNotification)
    ensures ToValue(Notification(n)).Obj? && NotificationShown(n, ToValue(Notification(n)).fields)
  {
  }

  lemma FailureIsShown(e: RpcError)
    ensures ToValue(Error(e)).Obj? && FailureShown(e, ToValue(Error(e)).fields)
  {
    hide ErrorDataValue, ErrorShown;
    ErrorIsShown(e.error);
  }

  lemma ErrorIsShown(e: ErrorData)
    ensures ErrorShown(e, ErrorDataValue(e))
  {
  }

  /** The value of a field: of an object by its name, of an array by its place; null if there is none. */
  function At(v: Value, name: string, place: nat): Value {
    match v
    case Obj(fields) => if name in fields then fields[name] else Null
    case Arr(items) => if place < |items| then items[place] else Null
    case _ => Null
  }

  /** An object with an `i32` code and a message, or the same as an array of three. */
  predicate IsError(v: Value) {
    && (v.Obj? || (v.Arr? && |v.items| == 3))
    && At(v, "code", 0).Int? && -0x8000_0000 <= At(v, "code", 0).n < 0x8000_0000
    && At(v, "message", 1).Str?
  }

  /**
   * Which values are messages: objects, or arrays of six, whose fields have their types; but an id
   * alone is none.
   */
  lemma ParsesIff(v: Value)
    ensures Parse(v).Ok? <==>
              && (v.Obj? || (v.Arr? && |v.items| == 6))
              && var id, methodName, error := At(v, "id", 1), At(v, "method", 2), At(v, "error", 5);
                 && At(v, "jsonrpc", 0).Str?
                 && (id.Null? || (id.Int? && 0 <= id.n < TWO64))
                 && (methodName.Null? || methodName.Str?)
                 && (error.Null? || IsError(error))
                 && !(id.Int? && methodName.Null? && At(v, "result", 4).Null? && error.Null?)
  {
  }

  /**
   * Which message a value is: an error if it has one, else a response if it has a result, else a
   * request or a notification if it has a method, with or without an id; and what is in it.
   */
  lemma ClassifiedBy(v: Value)
    requires Parse(v).Ok?
    ensures var jsonrpc := At(v, "jsonrpc", 0).s;
            var id := if At(v, "id", 1).Int? then Some(At(v, "id", 1).n) else None;
            var methodName, result, error := At(v, "method", 2), At(v, "result", 4), At(v, "error", 5);
            var params := if At(v, "params", 3).Null? then None else Some(At(v, "params", 3));
            match Parse(v).value
            case Error(e) =>
              && error != Null && e.jsonrpc == jsonrpc && e.id == id
              && At(error, "code", 0) == Int(e.error.code) && At(error, "message", 1) == Str(e.error.message)
              && At(error, "data", 2) == if e.error.data.Some? then e.error.data.value else Null
            case Response(r) =>
              error == Null && result != Null && r == RpcResponse(jsonrpc, id, Some(result), None)
            case Request(q) =>
              && error == Null && result == Null && methodName.Str? && id.Some?
              && q == RpcRequest(jsonrpc, id, methodName.s, params)
            case Notification(n) =>
              && error == Null && result == Null && methodName.Str? && id.None?
              && n == RpcNotification(jsonrpc, methodName.s, params)
            case Nil => error == Null && result == Null && methodName == Null && id.None?
  {
  }
}
