/**
 * `prompts/get`: validation of the request, then filling of the prompt text
 * (`Router::handle_prompts_get`).
 */
module Prompts {
  import opened Wrappers
  import opened Json
  import opened Text
  import opened Templates

  datatype RouterError =
    | MethodNotFound(message: string)
    | InvalidParams(message: string)
    | Internal(message: string)
    | ToolNotFound(message: string)
    | ResourceNotFound(message: string)
    | PromptNotFound(message: string)

  datatype PromptArgument = PromptArgument(name: string, description: Option<string>, required: Option<bool>)
  datatype Prompt = Prompt(name: string, description: Option<string>, arguments: Option<seq<PromptArgument>>)

  const MAX_ARGUMENT_BYTES := 1000
  const MAX_DESCRIPTION_BYTES := 10000
  const DANGEROUS_PATTERNS: seq<string> := ["../", "//", "\\\\", "<script>", "{{", "}}"]

  // `params.get(name)`: only objects have members.
  function Get(v: Value, name: string): Option<Value> {
    if v.Obj? && name in v.fields then Some(v.fields[name]) else None
  }

  // `value.as_str().unwrap_or_default()`
  function TextOf(v: Value): string {
    if v.Str? then v.s else ""
  }

  function Texts(arguments: map<string, Value>): map<string, string> {
    map k | k in arguments :: TextOf(arguments[k])
  }

  // ---------- The method's specification ----------

  function FindPrompt(prompts: seq<Prompt>, name: string): Option<Prompt> {
    if prompts == [] then None
    else if prompts[0].name == name then Some(prompts[0])
    else FindPrompt(prompts[1..], name)
  }

  predicate Missing(arg: PromptArgument, arguments: map<string, Value>) {
    arg.required == Some(true) && (arg.name !in arguments || TextOf(arguments[arg.name]) == "")
  }

  // The first declared argument that is required and not given.
  function FirstMissing(args: seq<PromptArgument>, arguments: map<string, Value>): Option<string> {
    if args == [] then None
    else if Missing(args[0], arguments) then Some(args[0].name)
    else FirstMissing(args[1..], arguments)
  }

  function FirstPattern(patterns: seq<string>, key: string, text: string): Option<string> {
    if patterns == [] then None
    else if Contains(key, patterns[0]) || Contains(text, patterns[0]) then Some(patterns[0])
    else FirstPattern(patterns[1..], key, text)
  }

  function ArgumentFault(key: string, text: string): Option<RouterError> {
    if key == "" || ByteLen(key) > MAX_ARGUMENT_BYTES then
      Some(InvalidParams("Argument keys must be between 1-1000 characters"))
    else if ByteLen(text) > MAX_ARGUMENT_BYTES then
      Some(InvalidParams("Argument values must not exceed 1000 characters"))
    else
      var p := FirstPattern(DANGEROUS_PATTERNS, key, text);
      if p.Some? then Some(InvalidParams("Arguments contain potentially unsafe pattern: " + p.value)) else None
  }

  function FirstFault(order: seq<string>, texts: map<string, string>): Option<RouterError>
    requires forall k | k in order :: k in texts
  {
    if order == [] then None
    else
      var fault := ArgumentFault(order[0], texts[order[0]]);
      if fault.Some? then fault else FirstFault(order[1..], texts)
  }

  // The name and the arguments object, or the error for what is missing.
  function Extract(params: Option<Value>): Result<(string, map<string, Value>), RouterError> {
    if params.None? then Err(InvalidParams("Missing parameters"))
    else
      var name, arguments := Get(params.value, "name"), Get(params.value, "arguments");
      if name.None? || !name.value.Str? then Err(InvalidParams("Missing prompt name"))
      else if arguments.None? || !arguments.value.Obj? then Err(InvalidParams("Missing arguments object"))
      else Ok((name.value.s, arguments.value.fields))
  }

  function CheckPrompt(prompts: seq<Prompt>, name: string, arguments: map<string, Value>): Option<RouterError> {
    var prompt := FindPrompt(prompts, name);
    if prompt.None? then Some(PromptNotFound("Prompt '" + name + "' not found"))
    else
      var missing := FirstMissing(if prompt.value.arguments.Some? then prompt.value.arguments.value else [], arguments);
      if missing.Some? then Some(InvalidParams("Missing required argument: '" + missing.value + "'")) else None
  }

  /** The text a `prompts/get` call yields, given the order in which the arguments object is walked. */
  function FilledPrompt(
    prompts: seq<Prompt>, getPrompt: string -> Result<string, string>,
    name: string, arguments: map<string, Value>, order: seq<string>): Result<string, RouterError>
    requires Enumerates(order, arguments)
  {
    var fault := CheckPrompt(prompts, name, arguments);
    if fault.Some? then Err(fault.value) else
      var description := getPrompt(name);
      if description.Err? then Err(Internal(description.error)) else
        var unsafe := FirstFault(order, Texts(arguments));
        if unsafe.Some? then Err(unsafe.value)
        else if ByteLen(description.value) > MAX_DESCRIPTION_BYTES then
          Err(Internal("Prompt description exceeds maximum allowed length"))
        else Ok(FillInOrder(description.value, order, Texts(arguments)))
  }

  /** What `handle_prompts_get` yields for the parameters of a request. */
  function PromptsGet(
    prompts: seq<Prompt>, getPrompt: string -> Result<string, string>, params: Option<Value>, order: seq<string>)
    : Result<string, RouterError>
    requires Extract(params).Ok? ==> Enumerates(order, Extract(params).value.1)
  {
    match Extract(params)
    case Err(e) => Err(e)
    case Ok((name, arguments)) => FilledPrompt(prompts, getPrompt, name, arguments, order)
  }

  // ---------- When it succeeds ----------

  /** The first listed prompt of that name. */
  predicate FirstNamed(prompts: seq<Prompt>, name: string, i: nat) {
    i < |prompts| && prompts[i].name == name && forall j | 0 <= j < i :: prompts[j].name != name
  }

  predicate Given(arg: PromptArgument, arguments: map<string, Value>) {
    arg.name in arguments && arguments[arg.name].Str? && arguments[arg.name].s != ""
  }

  /** At most 1000 bytes of UTF-8, and none of the six patterns. */
  predicate SafeText(s: string) {
    && ByteLen(s) <= 1000
    && !Contains(s, "../") && !Contains(s, "//") && !Contains(s, "\\\\")
    && !Contains(s, "<script>") && !Contains(s, "{{") && !Contains(s, "}}")
  }

  predicate SafeArgument(key: string, text: string) {
    key != "" && SafeText(key) && SafeText(text)
  }

  /** The first prompt of that name is there, and has been given all it requires. */
  predicate Ready(prompts: seq<Prompt>, name: string, arguments: map<string, Value>) {
    exists i: nat | i < |prompts| :: FirstNamed(prompts, name, i)
      && (prompts[i].arguments.Some? ==>
            forall a | a in prompts[i].arguments.value && a.required == Some(true) :: Given(a, arguments))
  }

  predicate Acceptable(
    prompts: seq<Prompt>, getPrompt: string -> Result<string, string>, name: string, arguments: map<string, Value>)
  {
    && Ready(prompts, name, arguments)
    && getPrompt(name).Ok?
    && ByteLen(getPrompt(name).value) <= 10000
    && (forall k | k in arguments :: SafeArgument(k, if arguments[k].Str? then arguments[k].s else ""))
  }

  lemma {:induction false} FindPromptIff(prompts: seq<Prompt>, name: string)
    ensures FindPrompt(prompts, name).Some?
       <==> exists i: nat | i < |prompts| :: FirstNamed(prompts, name, i)
    ensures forall i: nat | i < |prompts| && FirstNamed(prompts, name, i) ::
              FindPrompt(prompts, name) == Some(prompts[i])
  {
    if prompts != [] {
      FindPromptIff(prompts[1..], name);
      if prompts[0].name == name {
        assert FirstNamed(prompts, name, 0);
      } else {
        forall i: nat | i < |prompts| - 1
          ensures FirstNamed(prompts, name, i + 1) <==> FirstNamed(prompts[1..], name, i)
        {
          if FirstNamed(prompts[1..], name, i) {
            forall j | 0 <= j < i + 1 ensures prompts[j].name != name {
              if j > 0 { assert prompts[1..][j - 1] == prompts[j]; }
            }
          }
        }
        forall i: nat | i < |prompts| && FirstNamed(prompts, name, i)
          ensures FirstNamed(prompts[1..], name, i - 1)
        {
          assert i > 0;
          assert FirstNamed(prompts, name, (i - 1) + 1);
        }
      }
    }
  }

  lemma {:induction false} FirstMissingIff(args: seq<PromptArgument>, arguments: map<string, Value>)
    ensures FirstMissing(args, arguments).None?
       <==> forall a | a in args && a.required == Some(true) :: Given(a, arguments)
  {
    if args != [] {
      FirstMissingIff(args[1..], arguments);
      assert args == [args[0]] + args[1..];
    }
  }

  lemma {:induction false} FirstPatternIff(patterns: seq<string>, key: string, text: string)
    ensures FirstPattern(patterns, key, text).None?
       <==> forall p | p in patterns :: !Contains(key, p) && !Contains(text, p)
  {
    if patterns != [] {
      FirstPatternIff(patterns[1..], key, text);
      assert patterns == [patterns[0]] + patterns[1..];
    }
  }

  lemma ArgumentFaultIff(key: string, text: string)
    ensures ArgumentFault(key, text).None? <==> SafeArgument(key, text)
  {
    FirstPatternIff(DANGEROUS_PATTERNS, key, text);
    hide Contains, ByteLen;
    SixPatterns(key);
    SixPatterns(text);
  }

  lemma SixPatterns(s: string)
    ensures (forall p | p in DANGEROUS_PATTERNS :: !Contains(s, p))
       <==> && !Contains(s, "../") && !Contains(s, "//") && !Contains(s, "\\\\")
            && !Contains(s, "<script>") && !Contains(s, "{{") && !Contains(s, "}}")
  {
    hide Contains;
    var ps := DANGEROUS_PATTERNS;
    assert ps[0] in ps && ps[1] in ps && ps[2] in ps && ps[3] in ps && ps[4] in ps && ps[5] in ps;
  }

  lemma {:induction false} FirstFaultIff(order: seq<string>, texts: map<string, string>)
    requires forall k | k in order :: k in texts
    ensures FirstFault(order, texts).None?
       <==> forall k | k in order :: SafeArgument(k, texts[k])
  {
    if order != [] {
      FirstFaultIff(order[1..], texts);
      ArgumentFaultIff(order[0], texts[order[0]]);
      assert order == [order[0]] + order[1..];
    }
  }

  lemma ReadyIff(prompts: seq<Prompt>, name: string, arguments: map<string, Value>)
    ensures CheckPrompt(prompts, name, arguments).None? <==> Ready(prompts, name, arguments)
  {
    FindPromptIff(prompts, name);
    var p := FindPrompt(prompts, name);
    if p.Some? {
      FirstMissingIff(if p.value.arguments.Some? then p.value.arguments.value else [], arguments);
    }
  }

  lemma FilledIff(
    prompts: seq<Prompt>, getPrompt: string -> Result<string, string>,
    name: string, arguments: map<string, Value>, order: seq<string>)
    requires Enumerates(order, arguments)
    ensures FilledPrompt(prompts, getPrompt, name, arguments, order).Ok?
       <==> Acceptable(prompts, getPrompt, name, arguments)
  {
    ReadyIff(prompts, name, arguments);
    hide CheckPrompt, Ready, SafeArgument, FillInOrder;
    FirstFaultIff(order, Texts(arguments));
  }

  /** The parameters are an object with a string `name` and an object of `arguments`. */
  predicate Asks(params: Option<Value>, name: string, arguments: map<string, Value>) {
    && params.Some? && params.value.Obj?
    && "name" in params.value.fields && params.value.fields["name"] == Str(name)
    && "arguments" in params.value.fields && params.value.fields["arguments"] == Obj(arguments)
  }

  /** `prompts/get` yields a text exactly for the parameters that ask for an `Acceptable` prompt. */
  lemma SucceedsIff(
    prompts: seq<Prompt>, getPrompt: string -> Result<string, string>, params: Option<Value>, order: seq<string>)
    requires Extract(params).Ok? ==> Enumerates(order, Extract(params).value.1)
    ensures PromptsGet(prompts, getPrompt, params, order).Ok?
       <==> exists name, arguments :: Asks(params, name, arguments) && Acceptable(prompts, getPrompt, name, arguments)
  {
    hide FilledPrompt, Acceptable;
    if Extract(params).Ok? {
      var (name, arguments) := Extract(params).value;
      FilledIff(prompts, getPrompt, name, arguments, order);
      assert Asks(params, name, arguments);
    }
  }

  // ---------- The method, loop by loop ----------

  method FindByName(prompts: seq<Prompt>, name: string) returns (r: Option<Prompt>)
    ensures r == FindPrompt(prompts, name)
  {
    for i := 0 to |prompts|
      invariant FindPrompt(prompts[i..], name) == FindPrompt(prompts, name)
    {
      if prompts[i].name == name { return Some(prompts[i]); }
    }
    return None;
  }

  method CheckRequired(args: seq<PromptArgument>, arguments: map<string, Value>) returns (r: Option<string>)
    ensures r == FirstMissing(args, arguments)
  {
    for i := 0 to |args|
      invariant FirstMissing(args[i..], arguments) == FirstMissing(args, arguments)
    {
      if args[i].required.Some? && args[i].required.value
         && (args[i].name !in arguments || TextOf(arguments[args[i].name]) == "") {
        return Some(args[i].name);
      }
    }
    return None;
  }

  method CheckArgument(key: string, text: string) returns (r: Option<RouterError>)
    ensures r == ArgumentFault(key, text)
  {
    if key == "" || ByteLen(key) > MAX_ARGUMENT_BYTES {
      return Some(InvalidParams("Argument keys must be between 1-1000 characters"));
    }
    if ByteLen(text) > MAX_ARGUMENT_BYTES {
      return Some(InvalidParams("Argument values must not exceed 1000 characters"));
    }
    var patterns := DANGEROUS_PATTERNS;
    for j := 0 to |patterns|
      invariant FirstPattern(patterns[j..], key, text) == FirstPattern(patterns, key, text)
    {
      if Contains(key, patterns[j]) || Contains(text, patterns[j]) {
        return Some(InvalidParams("Arguments contain potentially unsafe pattern: " + patterns[j]));
      }
    }
    return None;
  }

  method CheckArguments(order: seq<string>, texts: map<string, string>) returns (r: Option<RouterError>)
    requires forall k | k in order :: k in texts
    ensures r == FirstFault(order, texts)
  {
    for i := 0 to |order|
      invariant FirstFault(order[i..], texts) == FirstFault(order, texts)
    {
      var fault := CheckArgument(order[i], texts[order[i]]);
      if fault.Some? { return fault; }
    }
    return None;
  }

  method FillDescription(description: string, order: seq<string>, texts: map<string, string>)
    returns (filled: string)
    requires forall k | k in order :: k in texts
    ensures filled == FillInOrder(description, order, texts)
  {
    filled := description;
    for i := 0 to |order|
      invariant FillInOrder(filled, order[i..], texts) == FillInOrder(description, order, texts)
    {
      filled := Replace(filled, Placeholder(order[i]), texts[order[i]]);
    }
  }

  method HandlePromptsGet(
    prompts: seq<Prompt>, getPrompt: string -> Result<string, string>, params: Option<Value>, order: seq<string>)
    returns (r: Result<string, RouterError>)
    requires Extract(params).Ok? ==> Enumerates(order, Extract(params).value.1)
    ensures r == PromptsGet(prompts, getPrompt, params, order)
    ensures r.Ok? <==> exists name, arguments ::
              Asks(params, name, arguments) && Acceptable(prompts, getPrompt, name, arguments)
  {
    SucceedsIff(prompts, getPrompt, params, order);
    if params.None? { return Err(InvalidParams("Missing parameters")); }
    var nameValue := Get(params.value, "name");
    if nameValue.None? || !nameValue.value.Str? { return Err(InvalidParams("Missing prompt name")); }
    var argumentsValue := Get(params.value, "arguments");
    if argumentsValue.None? || !argumentsValue.value.Obj? { return Err(InvalidParams("Missing arguments object")); }
    var name, arguments := nameValue.value.s, argumentsValue.value.fields;

    var prompt := FindByName(prompts, name);
    if prompt.None? { return Err(PromptNotFound("Prompt '" + name + "' not found")); }
    if prompt.value.arguments.Some? {
      var missing := CheckRequired(prompt.value.arguments.value, arguments);
      if missing.Some? { return Err(InvalidParams("Missing required argument: '" + missing.value + "'")); }
    }

    var description := getPrompt(name);
    if description.Err? { return Err(Internal(description.error)); }

    var unsafe := CheckArguments(order, Texts(arguments));
    if unsafe.Some? { return Err(unsafe.value); }
    if ByteLen(description.value) > MAX_DESCRIPTION_BYTES {
      return Err(Internal("Prompt description exceeds maximum allowed length"));
    }

    var filled := FillDescription(description.value, order, Texts(arguments));
    return Ok(filled);
  }

  // ---------- How long the text can get ----------

  // Holes that some argument fills.
  function Supplied(t: Template, texts: map<string, string>): nat {
    if t == [] then 0
    else (if t[0].Hole? && t[0].name in texts then 1 else 0) + Supplied(t[1..], texts)
  }

  lemma PlaceholderLength(name: string)
    ensures ByteLen(Placeholder(name)) == ByteLen(name) + 2
  {
    ByteLenConcat("{", name);
    ByteLenConcat("{" + name, "}");
    assert ByteLen("{") == 1 && ByteLen("}") == 1;
  }

  lemma {:induction false} FillLength(t: Template, texts: map<string, string>)
    requires forall k | k in texts :: k != "" && ByteLen(texts[k]) <= MAX_ARGUMENT_BYTES
    ensures ByteLen(Render(Fill(t, texts))) <= ByteLen(Render(t)) + 997 * Supplied(t, texts)
    ensures 3 * Supplied(t, texts) <= ByteLen(Render(t))
  {
    if t != [] {
      FillLength(t[1..], texts);
      ByteLenConcat(RenderSegment(t[0]), Render(t[1..]));
      ByteLenConcat(RenderSegment(FillSegment(t[0], texts)), Render(Fill(t[1..], texts)));
      assert Fill(t, texts)[1..] == Fill(t[1..], texts);
      if t[0].Hole? { PlaceholderLength(t[0].name); }
    }
  }

  lemma TemplateLengthBound(t: Template, order: seq<string>, texts: map<string, string>)
    requires WellFormed(t) && Harmless(texts) && BraceFreeKeys(texts) && Enumerates(order, texts)
    requires forall k | k in texts :: k != "" && ByteLen(texts[k]) <= MAX_ARGUMENT_BYTES
    requires ByteLen(Render(t)) <= MAX_DESCRIPTION_BYTES
    ensures ByteLen(FillInOrder(Render(t), order, texts)) <= 3_333_001
  {
    SequentialIsSimultaneous(t, order, texts);
    FillLength(t, texts);
    var n, before := Supplied(t, texts), ByteLen(Render(t));
    assert 3 * n <= before <= 10000;
    assert n <= 3333;
  }

  /** An accepted prompt over a template, with harmless arguments, is at most 3,333,001 bytes long. */
  lemma FilledLengthBound(
    prompts: seq<Prompt>, getPrompt: string -> Result<string, string>,
    name: string, arguments: map<string, Value>, order: seq<string>)
    requires Enumerates(order, arguments) && Harmless(Texts(arguments)) && BraceFreeKeys(Texts(arguments))
    requires getPrompt(name).Ok? ==> ReadTemplate(getPrompt(name).value).Some?
    ensures var r := FilledPrompt(prompts, getPrompt, name, arguments, order);
            r.Ok? ==> ByteLen(r.value) <= 3_333_001
  {
    FilledIff(prompts, getPrompt, name, arguments, order);
    if FilledPrompt(prompts, getPrompt, name, arguments, order).Ok? {
      TemplateLengthBound(ReadTemplate(getPrompt(name).value).value, order, Texts(arguments));
    }
  }

  function Repeat(c: char, n: nat): string {
    if n == 0 then "" else [c] + Repeat(c, n - 1)
  }

  /** UTF-8 takes one byte for a character below U+80, two below U+800, three below U+10000 and else four. */
  lemma {:induction false} RepeatBytes(c: char, n: nat)
    ensures c < '\U{80}' ==> ByteLen(Repeat(c, n)) == n
    ensures '\U{80}' <= c < '\U{800}' ==> ByteLen(Repeat(c, n)) == 2 * n
    ensures '\U{800}' <= c < '\U{10000}' ==> ByteLen(Repeat(c, n)) == 3 * n
    ensures '\U{10000}' <= c ==> ByteLen(Repeat(c, n)) == 4 * n
    ensures Repeat(c, n) == "" <==> n == 0
  {
    if n > 0 { RepeatBytes(c, n - 1); }
  }

  lemma {:induction false} RepeatLength(c: char, n: nat)
    requires c < '\U{80}'
    ensures ByteLen(Repeat(c, n)) == |Repeat(c, n)| == n
    ensures forall d | d in Repeat(c, n) :: d == c
  {
    if n > 0 { RepeatLength(c, n - 1); }
  }

  function RepeatSegment(s: Segment, n: nat): Template {
    if n == 0 then [Lit("x")] else [s] + RepeatSegment(s, n - 1)
  }

  lemma ConsLength(s: Segment, t: Template)
    ensures ByteLen(Render([s] + t)) == ByteLen(RenderSegment(s)) + ByteLen(Render(t))
  {
    assert ([s] + t)[1..] == t;
    ByteLenConcat(RenderSegment(s), Render(t));
  }

  lemma {:induction false} RepeatSegmentLength(s: Segment, bytes: nat, n: nat)
    requires ByteLen(RenderSegment(s)) == bytes
    ensures ByteLen(Render(RepeatSegment(s, n))) == bytes * n + 1
  {
    if n == 0 {
      ConsLength(Lit("x"), []);
    } else {
      RepeatSegmentLength(s, bytes, n - 1);
      ConsLength(s, RepeatSegment(s, n - 1));
      assert bytes * n == bytes * (n - 1) + bytes;
    }
  }

  lemma {:induction false} FillRepeated(n: nat, texts: map<string, string>)
    requires "k" in texts
    ensures WellFormed(RepeatSegment(Hole("k"), n))
    ensures Fill(RepeatSegment(Hole("k"), n), texts) == RepeatSegment(Lit(texts["k"]), n)
  {
    if n > 0 { FillRepeated(n - 1, texts); }
  }

  // Text of one letter has no other letter in it, and so no pattern that does.
  lemma RepeatLacks(c: char, n: nat, pattern: string, j: nat)
    requires c < '\U{80}' && j < |pattern| && pattern[j] != c
    ensures !Contains(Repeat(c, n), pattern)
  {
    var s := Repeat(c, n);
    RepeatLength(c, n);
    forall i | 0 <= i <= |s| ensures !(pattern <= s[i..]) {
      assert j < |s[i..]| ==> s[i..][j] == s[i + j] && s[i + j] in s;
    }
  }

  lemma RepeatIsSafe(n: nat)
    requires 0 < n <= MAX_ARGUMENT_BYTES
    ensures SafeText(Repeat('a', n))
  {
    RepeatLength('a', n);
    forall p | p in DANGEROUS_PATTERNS ensures !Contains(Repeat('a', n), p) { RepeatLacks('a', n, p, 0); }
    hide Contains;
    SixPatterns(Repeat('a', n));
  }

  lemma FilledRepeat(v: string, holes: nat)
    requires ByteLen(v) == MAX_ARGUMENT_BYTES && '{' !in v && holes == MAX_DESCRIPTION_BYTES / 3
    ensures var text := Render(RepeatSegment(Hole("k"), holes));
            && ByteLen(text) == MAX_DESCRIPTION_BYTES
            && ByteLen(FillInOrder(text, ["k"], map["k" := v])) == 3_333_001
  {
    var texts := map["k" := v];
    PlaceholderLength("k");
    assert ByteLen("k") == 1;
    RepeatSegmentLength(Hole("k"), 3, holes);
    RepeatSegmentLength(Lit(v), MAX_ARGUMENT_BYTES, holes);
    FillRepeated(holes, texts);
    SafeIsHarmless(texts);
    SequentialIsSimultaneous(RepeatSegment(Hole("k"), holes), ["k"], texts);
  }

  // One prompt with one required argument.
  const ONE_PROMPT := [Prompt("p", None, Some([PromptArgument("k", None, Some(true))]))]

  /**
   * The bound is attained by an accepted request: one argument of 1000 letters, and a description
   * of as many holes `{k}` as fit in 10000 bytes and one more byte.
   */
  lemma FilledLengthAttained(n: nat, holes: nat)
    requires n == MAX_ARGUMENT_BYTES && holes == MAX_DESCRIPTION_BYTES / 3
    ensures var text := Render(RepeatSegment(Hole("k"), holes));
            var arguments := map["k" := Str(Repeat('a', n))];
            var params := Some(Obj(map["name" := Str("p"), "arguments" := Obj(arguments)]));
            && Extract(params) == Ok(("p", arguments)) && Enumerates(["k"], arguments)
            && var r := PromptsGet(ONE_PROMPT, _ => Ok(text), params, ["k"]);
               r.Ok? && ByteLen(r.value) == 3_333_001
  {
    assert 0 < n <= MAX_ARGUMENT_BYTES;
    hide *;
    var v, text := Repeat('a', n), Render(RepeatSegment(Hole("k"), holes));
    RepeatLength('a', n);
    RepeatIsSafe(n);
    RepeatIsLong('a', n);
    FilledRepeat(v, holes);
    AttainedPrompt(v, text);
  }

  lemma RepeatIsLong(c: char, n: nat)
    requires c < '\U{80}' && c != '{' && n == MAX_ARGUMENT_BYTES
    ensures ByteLen(Repeat(c, n)) == MAX_ARGUMENT_BYTES && Repeat(c, n) != "" && '{' !in Repeat(c, n)
  {
    RepeatLength(c, n);
  }

  // A request for the one prompt with `text` as its description is answered with the text filled.
  lemma AttainedPrompt(v: string, text: string)
    requires v != "" && SafeText(v) && ByteLen(text) <= MAX_DESCRIPTION_BYTES
    ensures var arguments := map["k" := Str(v)];
            var params := Some(Obj(map["name" := Str("p"), "arguments" := Obj(arguments)]));
            && Extract(params) == Ok(("p", arguments)) && Enumerates(["k"], arguments)
            && PromptsGet(ONE_PROMPT, _ => Ok(text), params, ["k"])
               == Ok(FillInOrder(text, ["k"], map["k" := v]))
  {
    hide FilledPrompt, FillInOrder, SafeText, ByteLen;
    AttainedFilled(v, text);
  }

  lemma AttainedFilled(v: string, text: string)
    requires v != "" && SafeText(v) && ByteLen(text) <= MAX_DESCRIPTION_BYTES
    ensures Enumerates(["k"], map["k" := Str(v)])
    ensures FilledPrompt(ONE_PROMPT, _ => Ok(text), "p", map["k" := Str(v)], ["k"])
         == Ok(FillInOrder(text, ["k"], map["k" := v]))
  {
    var arguments := map["k" := Str(v)];
    AttainedAcceptable(v, text, arguments);
    hide FilledPrompt, Acceptable, FillInOrder, SafeText, ByteLen;
    FilledIff(ONE_PROMPT, _ => Ok(text), "p", arguments, ["k"]);
    FilledIsFilling(ONE_PROMPT, _ => Ok(text), "p", arguments, ["k"]);
    OneText(v);
  }

  lemma OneText(v: string)
    ensures var arguments := map["k" := Str(v)];
            (map k | k in arguments :: if arguments[k].Str? then arguments[k].s else "") == map["k" := v]
  {
  }

  /** The text of an accepted prompt: its description, filled in the order in which the arguments are walked. */
  lemma FilledIsFilling(
    prompts: seq<Prompt>, getPrompt: string -> Result<string, string>,
    name: string, arguments: map<string, Value>, order: seq<string>)
    requires Enumerates(order, arguments)
    ensures var r := FilledPrompt(prompts, getPrompt, name, arguments, order);
            var texts := map k | k in arguments :: if arguments[k].Str? then arguments[k].s else "";
            r.Ok? ==> getPrompt(name).Ok? && r.value == FillInOrder(getPrompt(name).value, order, texts)
  {
    assert Texts(arguments) == map k | k in arguments :: if arguments[k].Str? then arguments[k].s else "";
  }

  lemma AttainedAcceptable(v: string, text: string, arguments: map<string, Value>)
    requires v != "" && SafeText(v) && ByteLen(text) <= MAX_DESCRIPTION_BYTES && arguments == map["k" := Str(v)]
    ensures Acceptable(ONE_PROMPT, _ => Ok(text), "p", arguments)
  {
    assert FirstNamed(ONE_PROMPT, "p", 0);
    assert SafeText("k") by {
      assert ByteLen("k") == 1;
      assert forall p, i | p in DANGEROUS_PATTERNS && 0 <= i <= 1 :: !(p <= "k"[i..]);
      SixPatterns("k");
    }
  }
}
