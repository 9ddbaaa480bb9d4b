/**
 * Prompt templates: text in which every '{' opens a `{name}` hole. The theorems compare
 * rewriting the text one argument after another with filling every hole at once.
 */
module Templates {
  import opened Wrappers
  import opened Sequences
  import opened Text

  datatype Segment = Lit(text: string) | Hole(name: string)

  type Template = seq<Segment>

  function RenderSegment(s: Segment): string {
    match s
    case Lit(text) => text
    case Hole(name) => Placeholder(name)
  }

  function Render(t: Template): string {
    if t == [] then "" else RenderSegment(t[0]) + Render(t[1..])
  }

  predicate WellFormedSegment(s: Segment) {
    match s
    case Lit(text) => '{' !in text
    case Hole(name) => BraceFree(name)
  }

  predicate WellFormed(t: Template) {
    forall s | s in t :: WellFormedSegment(s)
  }

  // ---------- Reading a template off a text ----------

  // The position of the first brace, or the length of the text.
  function FirstBrace(s: string): (i: nat)
    ensures i <= |s|
    ensures BraceFree(s[..i])
    ensures i < |s| ==> s[i] == '{' || s[i] == '}'
  {
    if s == "" || s[0] == '{' || s[0] == '}' then 0
    else
      var i := 1 + FirstBrace(s[1..]);
      assert s[..i] == [s[0]] + s[1..][..i - 1];
      i
  }

  lemma SplitHole(s: string, i: nat)
    requires i + 1 < |s| && s[0] == '{' && s[i + 1] == '}'
    ensures s == Placeholder(s[1..][..i]) + s[i + 2..]
  {
  }

  /** None when some '{' is not closed before the next brace: the caller's test for a template. */
  function ReadTemplate(s: string): (r: Option<Template>)
    ensures r.Some? ==> WellFormed(r.value) && Render(r.value) == s
    decreases |s|
  {
    if s == "" then Some([])
    else if s[0] != '{' then
      var rest := ReadTemplate(s[1..]);
      if rest.None? then None else
        assert s == [s[0]] + s[1..];
        Some([Lit([s[0]])] + rest.value)
    else
      var i := FirstBrace(s[1..]);
      var name := s[1..][..i];
      if i == |s| - 1 || s[1 + i] == '{' then None
      else
        var rest := ReadTemplate(s[i + 2..]);
        if rest.None? then None else
          SplitHole(s, i);
          Some([Hole(name)] + rest.value)
  }

  lemma FirstBraceAt(name: string, rest: string)
    requires BraceFree(name)
    ensures FirstBrace(name + "}" + rest) == |name|
  {
    var s := name + "}" + rest;
    assert s[|name|] == '}';
    assert forall i | 0 <= i < |name| :: s[i] == name[i];
    var i := FirstBrace(s);
    assert forall k | 0 <= k < i :: s[k] in s[..i];
  }

  lemma {:induction false} ReadSkips(text: string, rest: string)
    requires '{' !in text
    ensures ReadTemplate(text + rest).Some? <==> ReadTemplate(rest).Some?
  {
    if text == "" {
      assert text + rest == rest;
    } else {
      assert (text + rest)[1..] == text[1..] + rest;
      ReadSkips(text[1..], rest);
    }
  }

  /** `ReadTemplate` accepts the text of every well-formed template. */
  lemma {:induction false} ReadComplete(t: Template)
    requires WellFormed(t)
    ensures ReadTemplate(Render(t)).Some?
  {
    if t != [] {
      assert t[0] in t;
      ReadComplete(t[1..]);
      var rest := Render(t[1..]);
      match t[0] {
        case Lit(text) => ReadSkips(text, rest);
        case Hole(name) =>
          var s := Placeholder(name) + rest;
          assert s[1..] == name + "}" + rest;
          FirstBraceAt(name, rest);
          assert s[|name| + 2..] == rest;
      }
    }
  }

  // ---------- Filling every hole at once ----------

  function FillSegment(s: Segment, texts: map<string, string>): Segment {
    if s.Hole? && s.name in texts then Lit(texts[s.name]) else s
  }

  function Fill(t: Template, texts: map<string, string>): Template {
    if t == [] then [] else [FillSegment(t[0], texts)] + Fill(t[1..], texts)
  }

  // ---------- Filling one argument after another ----------

  function FillInOrder(text: string, order: seq<string>, texts: map<string, string>): string
    requires forall k | k in order :: k in texts
    decreases |order|
  {
    if order == [] then text
    else FillInOrder(Replace(text, Placeholder(order[0]), texts[order[0]]), order[1..], texts)
  }

  /** `order` lists every key once. */
  predicate Enumerates<V>(order: seq<string>, m: map<string, V>) {
    Distinct(order) && (forall k | k in order :: k in m) && (forall k | k in m :: k in order)
  }

  /** No other argument's placeholder can match in a text, not even across its end: a test on the arguments alone. */
  predicate Harmless(texts: map<string, string>) {
    forall a, b | a in texts && b in texts && a != b && texts[b] != Placeholder(b) :: Inert(texts[a], b)
  }

  predicate BraceFreeKeys(texts: map<string, string>) {
    forall k | k in texts :: BraceFree(k)
  }

  /** A simpler test that is enough. */
  predicate SafeTexts(texts: map<string, string>) {
    forall k | k in texts :: BraceFree(k) && '{' !in texts[k]
  }

  lemma SafeIsHarmless(texts: map<string, string>)
    requires SafeTexts(texts)
    ensures Harmless(texts) && BraceFreeKeys(texts)
  {
    forall a, b | a in texts && b in texts ensures Inert(texts[a], b) { NoBraceIsInert(texts[a], b); }
  }

  lemma {:induction false} FillWellFormed(t: Template, texts: map<string, string>)
    requires WellFormed(t) && SafeTexts(texts)
    ensures WellFormed(Fill(t, texts))
  {
    if t != [] {
      assert t[0] in t;
      FillWellFormed(t[1..], texts);
    }
  }

  // No match of the placeholder of `key` starts outside a hole.
  predicate InertFor(t: Template, key: string) {
    forall s | s in t :: if s.Lit? then Inert(s.text, key) else BraceFree(s.name)
  }

  lemma WellFormedIsInert(t: Template, key: string)
    requires WellFormed(t)
    ensures InertFor(t, key)
  {
    forall s | s in t ensures if s.Lit? then Inert(s.text, key) else BraceFree(s.name) {
      if s.Lit? { NoBraceIsInert(s.text, key); }
    }
  }

  lemma {:induction false} FillInert(t: Template, texts: map<string, string>, key: string)
    requires InertFor(t, key) && forall k | k in texts :: Inert(texts[k], key)
    ensures InertFor(Fill(t, texts), key)
  {
    if t != [] {
      assert t[0] in t;
      FillInert(t[1..], texts, key);
    }
  }

  // One `replace` call fills exactly the holes of its own key.
  lemma {:induction false} ReplaceFills(t: Template, key: string, text: string)
    requires InertFor(t, key) && BraceFree(key)
    ensures Replace(Render(t), Placeholder(key), text) == Render(Fill(t, map[key := text]))
  {
    if t != [] {
      assert t[0] in t;
      var rest := Render(t[1..]);
      ReplaceFills(t[1..], key, text);
      match t[0] {
        case Lit(lit) => ReplaceSkips(lit, rest, key, text);
        case Hole(name) => ReplaceHole(key, name, rest, text);
      }
    }
  }

  // Filling a hole with its own placeholder shows nowhere.
  lemma {:induction false} FillSelf(t: Template, texts: map<string, string>, key: string)
    requires key !in texts
    ensures Render(Fill(t, texts[key := Placeholder(key)])) == Render(Fill(t, texts))
  {
    if t != [] { FillSelf(t[1..], texts, key); }
  }

  lemma {:induction false} FillTwice(t: Template, first: map<string, string>, second: map<string, string>)
    ensures Fill(Fill(t, first), second) == Fill(t, second + first)
  {
    if t != [] {
      FillTwice(t[1..], first, second);
      assert Fill(t, first)[1..] == Fill(t[1..], first);
    }
  }

  function Restrict(texts: map<string, string>, order: seq<string>): map<string, string> {
    map k | k in texts && k in order :: texts[k]
  }

  lemma StillInert(t: Template, key: string, k: string, texts: map<string, string>)
    requires Harmless(texts) && key in texts && k in texts && key != k && texts[k] != Placeholder(k)
    requires InertFor(t, k)
    ensures InertFor(Fill(t, map[key := texts[key]]), k)
  {
    FillInert(t, map[key := texts[key]], k);
  }

  lemma RestrictMore(texts: map<string, string>, key: string, rest: seq<string>)
    requires key in texts
    ensures Restrict(texts, [key] + rest) == Restrict(texts, rest) + map[key := texts[key]]
    ensures Restrict(texts, [key] + rest) == Restrict(texts, rest)[key := texts[key]]
    ensures key !in rest ==> key !in Restrict(texts, rest)
  {
  }

  lemma {:induction false} FillInOrderIsFill(t: Template, order: seq<string>, texts: map<string, string>)
    requires Harmless(texts) && BraceFreeKeys(texts) && Distinct(order)
    requires forall k | k in order :: k in texts
    requires forall k | k in order && texts[k] != Placeholder(k) :: InertFor(t, k)
    ensures FillInOrder(Render(t), order, texts) == Render(Fill(t, Restrict(texts, order)))
    decreases |order|
  {
    hide Inert, InertFor, Harmless, Fill, Render, Replace, Restrict;
    if order == [] {
      FillNothing(t);
      assert Restrict(texts, order) == map[] by { RestrictNothing(texts); }
    } else {
      var key, rest := order[0], order[1..];
      var one := map[key := texts[key]];
      assert order == [key] + rest && key !in rest;
      RestrictMore(texts, key, rest);
      if texts[key] == Placeholder(key) {
        ReplaceSelf(Render(t), Placeholder(key));
        FillInOrderIsFill(t, rest, texts);
        FillSelf(t, Restrict(texts, rest), key);
      } else {
        ReplaceFills(t, key, texts[key]);
        forall k | k in rest && texts[k] != Placeholder(k) ensures InertFor(Fill(t, one), k) {
          StillInert(t, key, k, texts);
        }
        FillInOrderIsFill(Fill(t, one), rest, texts);
        FillTwice(t, one, Restrict(texts, rest));
      }
    }
  }

  lemma RestrictNothing(texts: map<string, string>)
    ensures Restrict(texts, []) == map[]
  {
  }

  lemma {:induction false} FillNothing(t: Template)
    ensures Fill(t, map[]) == t
  {
    if t != [] { FillNothing(t[1..]); }
  }

  /** Rewriting in sequence equals simultaneous substitution, whatever the order of the arguments. */
  lemma SequentialIsSimultaneous(t: Template, order: seq<string>, texts: map<string, string>)
    requires WellFormed(t) && Harmless(texts) && BraceFreeKeys(texts) && Enumerates(order, texts)
    ensures FillInOrder(Render(t), order, texts) == Render(Fill(t, texts))
  {
    forall k | k in order ensures InertFor(t, k) { WellFormedIsInert(t, k); }
    FillInOrderIsFill(t, order, texts);
    assert Restrict(texts, order) == texts;
  }

  /** The same for a text that `ReadTemplate` accepts, and for any two orders. */
  lemma OrderIrrelevant(text: string, order1: seq<string>, order2: seq<string>, texts: map<string, string>)
    requires ReadTemplate(text).Some? && Harmless(texts) && BraceFreeKeys(texts)
    requires Enumerates(order1, texts) && Enumerates(order2, texts)
    ensures FillInOrder(text, order1, texts) == FillInOrder(text, order2, texts)
  {
    SequentialIsSimultaneous(ReadTemplate(text).value, order1, texts);
    SequentialIsSimultaneous(ReadTemplate(text).value, order2, texts);
  }

  // ---------- The guard is exact ----------

  ghost predicate AlwaysSimultaneous(texts: map<string, string>) {
    forall t, order | WellFormed(t) && Enumerates(order, texts) ::
      FillInOrder(Render(t), order, texts) == Render(Fill(t, texts))
  }

  ghost predicate NeverOrdered(texts: map<string, string>) {
    forall t, order1, order2 | WellFormed(t) && Enumerates(order1, texts) && Enumerates(order2, texts) ::
      FillInOrder(Render(t), order1, texts) == FillInOrder(Render(t), order2, texts)
  }

  lemma {:induction false} FillInOrderAppend(text: string, a: seq<string>, b: seq<string>, texts: map<string, string>)
    requires forall k | k in a + b :: k in texts
    ensures FillInOrder(text, a + b, texts) == FillInOrder(FillInOrder(text, a, texts), b, texts)
    decreases |a|
  {
    if a == [] {
      assert a + b == b;
    } else {
      assert (a + b)[1..] == a[1..] + b;
      FillInOrderAppend(Replace(text, Placeholder(a[0]), texts[a[0]]), a[1..], b, texts);
    }
  }

  // Arguments the template has no hole for leave it as it is.
  lemma {:induction false} OthersLeave(t: Template, order: seq<string>, texts: map<string, string>)
    requires WellFormed(t) && BraceFreeKeys(texts)
    requires forall k | k in order :: k in texts && Hole(k) !in t
    ensures FillInOrder(Render(t), order, texts) == Render(t)
    decreases |order|
  {
    if order != [] {
      WellFormedIsInert(t, order[0]);
      ReplaceFills(t, order[0], texts[order[0]]);
      FillOther(t, order[0], texts[order[0]]);
      OthersLeave(t, order[1..], texts);
    }
  }

  lemma {:induction false} FillOther(t: Template, key: string, text: string)
    requires Hole(key) !in t
    ensures Fill(t, map[key := text]) == t
  {
    if t != [] {
      assert t[0] in t;
      FillOther(t[1..], key, text);
    }
  }

  lemma {:induction false} Listing(keys: set<string>) returns (order: seq<string>)
    ensures Distinct(order) && forall k :: k in order <==> k in keys
  {
    order := [];
    if keys != {} {
      var k :| k in keys;
      order := Listing(keys - {k});
      order := [k] + order;
    }
  }

  /** From a text that another placeholder can match in: a template, and two orders that fill it differently. */
  lemma HarmfulShows(texts: map<string, string>, a: string, b: string)
    returns (t: Template, order1: seq<string>, order2: seq<string>)
    requires BraceFreeKeys(texts) && a in texts && b in texts && a != b
    requires texts[b] != Placeholder(b) && !Inert(texts[a], b)
    ensures WellFormed(t) && Enumerates(order1, texts) && Enumerates(order2, texts)
    ensures FillInOrder(Render(t), order1, texts) != FillInOrder(Render(t), order2, texts) == Render(Fill(t, texts))
  {
    hide Inert, Replace, Fill, Render, Contains, Harmless;
    var rest := CompleteHole(texts[a], b);
    t := [Hole(a), Lit(rest)];
    var others := Listing(texts.Keys - {a, b});
    order1, order2 := others + [a, b], others + [b, a];
    RenderTwo(Hole(a), Lit(rest));
    OthersLeave(t, others, texts);
    FillInOrderAppend(Render(t), others, [a, b], texts);
    FillInOrderAppend(Render(t), others, [b, a], texts);
    TwoOrders(t, texts, a, b, rest);
    if Replace(texts[a] + rest, Placeholder(b), texts[b]) == texts[a] + rest {
      ReplaceChanges(texts[a] + rest, Placeholder(b), texts[b]);
    }
  }

  // What has to follow a harmful text for the placeholder to occur.
  lemma CompleteHole(v: string, b: string) returns (rest: string)
    requires BraceFree(b) && !Inert(v, b)
    ensures '{' !in rest && Contains(v + rest, Placeholder(b))
  {
    var p := Placeholder(b);
    var i :| 0 <= i < |v| && (p <= v[i..] || v[i..] <= p);
    rest := if p <= v[i..] then "" else p[|v| - i..];
    assert (v + rest)[i..] == v[i..] + rest;
    assert forall k | 1 <= k < |p| :: p[k] != '{';
  }

  lemma RenderTwo(x: Segment, y: Segment)
    ensures Render([x, y]) == RenderSegment(x) + RenderSegment(y)
  {
    assert [x, y][1..] == [y] && [y][1..] == [];
    assert Render([y]) == RenderSegment(y) + Render([]);
  }

  lemma FillTwoSegments(x: Segment, y: Segment, texts: map<string, string>)
    ensures Fill([x, y], texts) == [FillSegment(x, texts), FillSegment(y, texts)]
  {
    assert [x, y][1..] == [y] && [y][1..] == [];
    assert Fill([y], texts) == [FillSegment(y, texts)] + Fill([], texts);
  }

  lemma FillOne(text: string, key: string, texts: map<string, string>)
    requires key in texts
    ensures FillInOrder(text, [key], texts) == Replace(text, Placeholder(key), texts[key])
  {
    assert [key][1..] == [];
  }

  lemma TwoOrders(t: Template, texts: map<string, string>, a: string, b: string, rest: string)
    requires BraceFreeKeys(texts) && a in texts && b in texts && a != b
    requires '{' !in rest && t == [Hole(a), Lit(rest)]
    ensures FillInOrder(Render(t), [a, b], texts) == Replace(texts[a] + rest, Placeholder(b), texts[b])
    ensures FillInOrder(Render(t), [b, a], texts) == texts[a] + rest == Render(Fill(t, texts))
  {
    RenderTwo(Lit(texts[a]), Lit(rest));
    FillTwoSegments(Hole(a), Lit(rest), texts);
    FillTwoSegments(Hole(a), Lit(rest), map[a := texts[a]]);
    hide Inert, Replace, Fill, Render, Contains;
    WellFormedIsInert(t, a);
    ReplaceFills(t, a, texts[a]);
    OthersLeave(t, [b], texts);
    FillInOrderAppend(Render(t), [b], [a], texts);
    FillOne(texts[a] + rest, b, texts);
    FillOne(Render(t), a, texts);
    assert [b] + [a] == [b, a] && [a, b][1..] == [b];
  }

  /**
   * Given brace-free keys, `Harmless` arguments are exactly those for which sequential rewriting
   * is simultaneous substitution in every template, and exactly those whose order never matters.
   */
  lemma HarmlessIff(texts: map<string, string>)
    requires BraceFreeKeys(texts)
    ensures Harmless(texts) <==> AlwaysSimultaneous(texts)
    ensures Harmless(texts) <==> NeverOrdered(texts)
  {
    if Harmless(texts) {
      forall t, order | WellFormed(t) && Enumerates(order, texts)
        ensures FillInOrder(Render(t), order, texts) == Render(Fill(t, texts))
      {
        SequentialIsSimultaneous(t, order, texts);
      }
    } else {
      var a, b :| a in texts && b in texts && a != b && texts[b] != Placeholder(b) && !Inert(texts[a], b);
      var t, order1, order2 := HarmfulShows(texts, a, b);
    }
  }

  // ---------- Which holes are left ----------

  lemma {:induction false} ContainsSuffix(s: string, rest: string, pattern: string)
    requires Contains(rest, pattern)
    ensures Contains(s + rest, pattern)
  {
    var i :| 0 <= i <= |rest| && pattern <= rest[i..];
    assert (s + rest)[|s| + i..] == rest[i..];
  }

  // A match in `s + rest` that starts inside `s` starts at a '{' of `s`.
  lemma {:induction false} MatchStarts(s: string, rest: string, name: string)
    requires Contains(s + rest, Placeholder(name))
    ensures Contains(rest, Placeholder(name))
         || exists i | 0 <= i < |s| :: s[i] == '{' && Placeholder(name) <= (s + rest)[i..]
  {
    var i :| 0 <= i <= |s + rest| && Placeholder(name) <= (s + rest)[i..];
    if i < |s| {
      assert (s + rest)[i..][0] == s[i];
    } else {
      assert (s + rest)[i..] == rest[i - |s|..];
    }
  }

  lemma {:induction false} HolesOfRender(t: Template, name: string)
    requires WellFormed(t) && BraceFree(name)
    ensures Contains(Render(t), Placeholder(name)) <==> Hole(name) in t
  {
    if t == [] {
      assert forall i | 0 <= i <= |""| :: ""[i..] == "";
    } else {
      assert t == [t[0]] + t[1..];
      assert t[0] in t;
      var s, rest := RenderSegment(t[0]), Render(t[1..]);
      HolesOfRender(t[1..], name);
      if Contains(rest, Placeholder(name)) { ContainsSuffix(s, rest, Placeholder(name)); }
      if t[0] == Hole(name) { assert (s + rest)[0..] == s + rest; }
      if Contains(s + rest, Placeholder(name)) && !Contains(rest, Placeholder(name)) { FirstHole(t[0], rest, name); }
    }
  }

  // An occurrence that is not in the rest starts at the first segment, which is then the hole.
  lemma FirstHole(first: Segment, rest: string, name: string)
    requires WellFormed([first]) && BraceFree(name)
    requires Contains(RenderSegment(first) + rest, Placeholder(name)) && !Contains(rest, Placeholder(name))
    ensures first == Hole(name)
  {
    var s := RenderSegment(first);
    assert first in [first];
    MatchStarts(s, rest, name);
    var i :| 0 <= i < |s| && s[i] == '{' && Placeholder(name) <= (s + rest)[i..];
    assert first.Hole?;
    assert i == 0 && (s + rest)[0..] == s + rest;
    PlaceholderPrefix(name, first.name, rest);
  }

  lemma {:induction false} HolesOfFill(t: Template, texts: map<string, string>, name: string)
    ensures Hole(name) in Fill(t, texts) <==> Hole(name) in t && name !in texts
  {
    if t != [] {
      assert t == [t[0]] + t[1..];
      HolesOfFill(t[1..], texts, name);
    }
  }

  /** After filling, `{name}` occurs exactly when the template had that hole and nobody supplied it. */
  lemma HolesLeft(t: Template, order: seq<string>, texts: map<string, string>, name: string)
    requires WellFormed(t) && SafeTexts(texts) && Enumerates(order, texts) && BraceFree(name)
    ensures Contains(FillInOrder(Render(t), order, texts), Placeholder(name))
       <==> Hole(name) in t && name !in texts
  {
    SafeIsHarmless(texts);
    SequentialIsSimultaneous(t, order, texts);
    FillWellFormed(t, texts);
    HolesOfRender(Fill(t, texts), name);
    HolesOfFill(t, texts, name);
  }

  /** For example, a value with a placeholder in it is rewritten again: the order shows, and simultaneity is lost. */
  lemma UnsafeValueDependsOnOrder()
    ensures var texts, t := map["a" := "{b}", "b" := "x"], [Hole("a"), Lit("")];
            && Enumerates(["a", "b"], texts) && Enumerates(["b", "a"], texts)
            && FillInOrder(Render(t), ["a", "b"], texts) == "x"
            && FillInOrder(Render(t), ["b", "a"], texts) == "{b}" == Render(Fill(t, texts))
  {
    var texts, t := map["a" := "{b}", "b" := "x"], [Hole("a"), Lit("")];
    assert "{b}" + "" == "{b}" == Placeholder("b") + "";
    ReplaceHole("b", "b", "", "x");
    assert Replace("", Placeholder("b"), "x") == "";
    hide Replace, FillInOrder, Render, Fill;
    TwoOrders(t, texts, "a", "b", "");
  }
}
