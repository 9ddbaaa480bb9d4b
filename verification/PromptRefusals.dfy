/** Which error a refused `prompts/get` gets, and what each limit and pattern refuses. */
module PromptRefusals {
  import opened Wrappers
  import opened Json
  import opened Text
  import opened Templates
  import opened Prompts

  /** What is wrong with the parameters themselves. */
  lemma BadParameters(
    prompts: seq<Prompt>, getPrompt: string -> Result<string, string>, params: Option<Value>, order: seq<string>)
    requires Extract(params).Ok? ==> Enumerates(order, Extract(params).value.1)
    ensures var r := PromptsGet(prompts, getPrompt, params, order);
            var fields := if params.Some? && params.value.Obj? then params.value.fields else map[];
            var named := "name" in fields && fields["name"].Str?;
            && (params == None ==> r == Err(InvalidParams("Missing parameters")))
            && (params.Some? && !named ==> r == Err(InvalidParams("Missing prompt name")))
            && (named && !("arguments" in fields && fields["arguments"].Obj?) ==>
                  r == Err(InvalidParams("Missing arguments object")))
  {
    hide FilledPrompt;
  }

  /** No prompt of that name, or the first of them lacks a required argument: the first that it lacks is told. */
  lemma NotReady(
    prompts: seq<Prompt>, getPrompt: string -> Result<string, string>, params: Option<Value>,
    name: string, arguments: map<string, Value>, order: seq<string>)
    requires Asks(params, name, arguments) && Enumerates(order, arguments)
    ensures var r := PromptsGet(prompts, getPrompt, params, order);
            && ((forall p | p in prompts :: p.name != name) ==>
                  r == Err(PromptNotFound("Prompt '" + name + "' not found")))
            && (forall i: nat, j: nat |
                  FirstNamed(prompts, name, i) && LacksFirst(prompts[i].arguments, arguments, j) ::
                  r == Err(InvalidParams("Missing required argument: '" + prompts[i].arguments.value[j].name + "'")))
  {
    FindPromptIff(prompts, name);
    if forall p | p in prompts :: p.name != name {
      assert forall i: nat | i < |prompts| :: !FirstNamed(prompts, name, i) by {
        assert forall i | 0 <= i < |prompts| :: prompts[i] in prompts;
      }
    }
    forall i: nat, j: nat | FirstNamed(prompts, name, i) && LacksFirst(prompts[i].arguments, arguments, j)
      ensures FirstMissing(prompts[i].arguments.value, arguments) == Some(prompts[i].arguments.value[j].name)
    {
      FirstMissingAt(prompts[i].arguments.value, arguments, j);
    }
  }

  /** Declared argument `j` is the first one that is required and not given. */
  predicate LacksFirst(declared: Option<seq<PromptArgument>>, arguments: map<string, Value>, j: nat) {
    && declared.Some? && j < |declared.value|
    && declared.value[j].required == Some(true) && !Given(declared.value[j], arguments)
    && forall k | 0 <= k < j :: declared.value[k].required == Some(true) ==> Given(declared.value[k], arguments)
  }

  lemma {:induction false} FirstMissingAt(args: seq<PromptArgument>, arguments: map<string, Value>, j: nat)
    requires LacksFirst(Some(args), arguments, j)
    ensures FirstMissing(args, arguments) == Some(args[j].name)
  {
    if j > 0 {
      assert Given(args[0], arguments) || args[0].required != Some(true);
      assert forall k | 0 <= k < j - 1 :: args[1..][k] == args[k + 1];
      FirstMissingAt(args[1..], arguments, j - 1);
    }
  }

  // The pattern `p` occurs in the key or in the value.
  predicate Has(key: string, text: string, p: string) {
    Contains(key, p) || Contains(text, p)
  }

  lemma {:induction false} FirstPatternAt(patterns: seq<string>, key: string, text: string, i: nat)
    requires i < |patterns| && Has(key, text, patterns[i])
    requires forall j | 0 <= j < i :: !Has(key, text, patterns[j])
    ensures FirstPattern(patterns, key, text) == Some(patterns[i])
  {
    hide Contains;
    if i > 0 {
      assert !Has(key, text, patterns[0]);
      assert forall j | 0 <= j < i - 1 :: patterns[1..][j] == patterns[j + 1];
      FirstPatternAt(patterns[1..], key, text, i - 1);
    }
  }

  lemma {:induction false} FirstFaultAt(order: seq<string>, texts: map<string, string>, i: nat)
    requires (forall k | k in order :: k in texts) && i < |order|
    requires forall j | 0 <= j < i :: SafeArgument(order[j], texts[order[j]])
    requires !SafeArgument(order[i], texts[order[i]])
    ensures FirstFault(order, texts) == ArgumentFault(order[i], texts[order[i]])
  {
    hide SafeArgument, ArgumentFault;
    ArgumentFaultIff(order[0], texts[order[0]]);
    if i > 0 { FirstFaultAt(order[1..], texts, i - 1); }
  }

  // The first of the six patterns that occurs, of which one does.
  function FirstOfSix(key: string, text: string): string {
    if Has(key, text, "../") then "../"
    else if Has(key, text, "//") then "//"
    else if Has(key, text, "\\\\") then "\\\\"
    else if Has(key, text, "<script>") then "<script>"
    else if Has(key, text, "{{") then "{{"
    else "}}"
  }

  lemma UnsafeArgumentTold(key: string, text: string)
    requires !SafeArgument(key, text)
    ensures key == "" || ByteLen(key) > 1000 ==>
              ArgumentFault(key, text) == Some(InvalidParams("Argument keys must be between 1-1000 characters"))
    ensures key != "" && ByteLen(key) <= 1000 && ByteLen(text) > 1000 ==>
              ArgumentFault(key, text) == Some(InvalidParams("Argument values must not exceed 1000 characters"))
    ensures key != "" && ByteLen(key) <= 1000 && ByteLen(text) <= 1000 ==>
              ArgumentFault(key, text)
              == Some(InvalidParams("Arguments contain potentially unsafe pattern: " + FirstOfSix(key, text)))
  {
    ArgumentFaultIff(key, text);
    hide ByteLen, FirstPattern, Contains, SafeArgument;
    var ps := DANGEROUS_PATTERNS;
    FirstPatternIff(ps, key, text);
    if Has(key, text, ps[0]) { FirstPatternAt(ps, key, text, 0); }
    else if Has(key, text, ps[1]) { FirstPatternAt(ps, key, text, 1); }
    else if Has(key, text, ps[2]) { FirstPatternAt(ps, key, text, 2); }
    else if Has(key, text, ps[3]) { FirstPatternAt(ps, key, text, 3); }
    else if Has(key, text, ps[4]) { FirstPatternAt(ps, key, text, 4); }
    else if Has(key, text, ps[5]) { FirstPatternAt(ps, key, text, 5); }
  }

  /** The text an argument counts as: its own if it is a string, none otherwise. */
  function Spelled(v: Value): string {
    if v.Str? then v.s else ""
  }

  lemma AskedFor(
    prompts: seq<Prompt>, getPrompt: string -> Result<string, string>, params: Option<Value>,
    name: string, arguments: map<string, Value>, order: seq<string>)
    requires Asks(params, name, arguments) && Enumerates(order, arguments)
    ensures Extract(params) == Ok((name, arguments))
    ensures PromptsGet(prompts, getPrompt, params, order) == FilledPrompt(prompts, getPrompt, name, arguments, order)
  {
    hide FilledPrompt;
  }

  /**
   * A ready prompt with an unsafe argument, the `i`-th in the order in which they are walked and the
   * first that is unsafe, is refused with what is wrong with it: its key, its length, or the first of
   * "../", "//", "\\\\", "<script>", "{{" and "}}" that occurs in key or value.
   */
  lemma UnsafeArgumentRefused(
    prompts: seq<Prompt>, getPrompt: string -> Result<string, string>, params: Option<Value>,
    name: string, arguments: map<string, Value>, order: seq<string>, i: nat)
    requires Asks(params, name, arguments) && Enumerates(order, arguments)
    requires Ready(prompts, name, arguments) && getPrompt(name).Ok? && i < |order|
    requires forall j | 0 <= j < i :: SafeArgument(order[j], Spelled(arguments[order[j]]))
    requires !SafeArgument(order[i], Spelled(arguments[order[i]]))
    ensures var r := PromptsGet(prompts, getPrompt, params, order);
            var key, text := order[i], Spelled(arguments[order[i]]);
            if key == "" || ByteLen(key) > 1000 then
              r == Err(InvalidParams("Argument keys must be between 1-1000 characters"))
            else if ByteLen(text) > 1000 then
              r == Err(InvalidParams("Argument values must not exceed 1000 characters"))
            else
              r == Err(InvalidParams("Arguments contain potentially unsafe pattern: " + FirstOfSix(key, text)))
  {
    var key, text := order[i], Spelled(arguments[order[i]]);
    AskedFor(prompts, getPrompt, params, name, arguments, order);
    hide CheckPrompt, Ready, SafeArgument, ArgumentFault, FillInOrder, ByteLen, FirstOfSix, FirstFault,
         Asks, Extract, PromptsGet, Has;
    ReadyIff(prompts, name, arguments);
    FirstFaultAt(order, Texts(arguments), i);
    UnsafeArgumentTold(key, text);
  }

  /** A ready prompt that is not available, or too long with all arguments safe. */
  lemma DescriptionRefused(
    prompts: seq<Prompt>, getPrompt: string -> Result<string, string>, params: Option<Value>,
    name: string, arguments: map<string, Value>, order: seq<string>)
    requires Asks(params, name, arguments) && Enumerates(order, arguments) && Ready(prompts, name, arguments)
    ensures var r := PromptsGet(prompts, getPrompt, params, order);
            match getPrompt(name)
            case Err(e) => r == Err(Internal(e))
            case Ok(description) =>
              (forall k | k in arguments :: SafeArgument(k, Spelled(arguments[k]))) && ByteLen(description) > 10000 ==>
                r == Err(Internal("Prompt description exceeds maximum allowed length"))
  {
    hide CheckPrompt, Ready, SafeArgument, ArgumentFault, FillInOrder, ByteLen, FirstFault;
    ReadyIff(prompts, name, arguments);
    FirstFaultIff(order, Texts(arguments));
  }

  // No prompt fails in any fourth way.
  lemma {:induction false} FaultsAreInvalidParams(order: seq<string>, texts: map<string, string>)
    requires forall k | k in order :: k in texts
    ensures FirstFault(order, texts).Some? ==> FirstFault(order, texts).value.InvalidParams?
  {
    if order != [] { FaultsAreInvalidParams(order[1..], texts); }
  }

  lemma ThreeKindsOfError(
    prompts: seq<Prompt>, getPrompt: string -> Result<string, string>, params: Option<Value>, order: seq<string>)
    requires Extract(params).Ok? ==> Enumerates(order, Extract(params).value.1)
    ensures var r := PromptsGet(prompts, getPrompt, params, order);
            r.Err? ==> r.error.InvalidParams? || r.error.PromptNotFound? || r.error.Internal?
  {
    hide FillInOrder, FirstFault;
    if Extract(params).Ok? { FaultsAreInvalidParams(order, Texts(Extract(params).value.1)); }
  }

  /** The limits are in bytes: 501 two-byte characters are too many for a value, and for a key. */
  lemma BytesNotCharacters(c: char, n: nat)
    requires '\U{80}' <= c < '\U{800}' && n > 500
    ensures ArgumentFault("k", Repeat(c, n)) == Some(InvalidParams("Argument values must not exceed 1000 characters"))
    ensures ArgumentFault(Repeat(c, n), "") == Some(InvalidParams("Argument keys must be between 1-1000 characters"))
  {
    RepeatBytes(c, n);
    assert ByteLen("k") == 1;
    hide Repeat, Has, FirstOfSix;
    UnsafeArgumentTold("k", Repeat(c, n));
    UnsafeArgumentTold(Repeat(c, n), "");
  }
}
