/**
 * Argument names with braces in them, which the router accepts: the placeholder of such a name may
 * spell a piece of template, holes and all. For values without an opening brace, exactly when
 * rewriting in sequence is still simultaneous substitution.
 */
module TemplateKeys {
  import opened Wrappers
  import opened Text
  import opened Templates

  predicate PlainValues(texts: map<string, string>) {
    forall k | k in texts :: '{' !in texts[k]
  }

  /** The simultaneous filling of a text that reads as a template. */
  function Meaning(s: string, texts: map<string, string>): string
    requires ReadTemplate(s).Some?
  {
    Render(Fill(ReadTemplate(s).value, texts))
  }

  /** Where the placeholder of an argument reads as a template, its value is what filling that template gives. */
  predicate KeysAgree(texts: map<string, string>) {
    forall k | k in texts && ReadTemplate(Placeholder(k)).Some? :: texts[k] == Meaning(Placeholder(k), texts)
  }

  // ---------- Reading and meaning of joined texts ----------

  lemma ReadChar(c: char, rest: string)
    requires c != '{'
    ensures ReadTemplate([c] + rest)
         == if ReadTemplate(rest).None? then None else Some([Lit([c])] + ReadTemplate(rest).value)
  {
    assert ([c] + rest)[1..] == rest;
  }

  lemma ReadHole(name: string, rest: string)
    requires BraceFree(name)
    ensures ReadTemplate(Placeholder(name) + rest)
         == if ReadTemplate(rest).None? then None else Some([Hole(name)] + ReadTemplate(rest).value)
  {
    var s := Placeholder(name) + rest;
    assert s[1..] == name + "}" + rest;
    FirstBraceAt(name, rest);
    assert s[1..][..|name|] == name && s[|name| + 2..] == rest;
  }

  // A text that reads as a template and starts with a brace starts with a hole.
  lemma SplitRead(s: string) returns (name: string, rest: string)
    requires ReadTemplate(s).Some? && s != "" && s[0] == '{'
    ensures BraceFree(name) && s == Placeholder(name) + rest && ReadTemplate(rest).Some?
  {
    var i := FirstBrace(s[1..]);
    name, rest := s[1..][..i], s[i + 2..];
    SplitHole(s, i);
  }

  /** Joining `y` to `x` joins what they read as. */
  ghost predicate Joins(x: string, y: string) {
    && ReadTemplate(x).Some?
    && (ReadTemplate(x + y).Some? <==> ReadTemplate(y).Some?)
    && (ReadTemplate(y).Some? ==> ReadTemplate(x + y).value == ReadTemplate(x).value + ReadTemplate(y).value)
  }

  lemma CharJoins(c: char, x: string, y: string)
    requires c != '{' && Joins(x, y)
    ensures Joins([c] + x, y)
  {
    hide ReadTemplate;
    ReadChar(c, x);
    ReadChar(c, x + y);
    assert ([c] + x) + y == [c] + (x + y);
  }

  lemma HoleJoins(name: string, x: string, y: string)
    requires BraceFree(name) && Joins(x, y)
    ensures Joins(Placeholder(name) + x, y)
  {
    hide ReadTemplate, Placeholder;
    ReadHole(name, x);
    ReadHole(name, x + y);
    assert (Placeholder(name) + x) + y == Placeholder(name) + (x + y);
  }

  lemma {:induction false} ReadAppend(x: string, y: string)
    requires ReadTemplate(x).Some?
    ensures Joins(x, y)
    decreases |x|
  {
    if x == "" {
      assert x + y == y;
    } else if x[0] != '{' {
      assert x == [x[0]] + x[1..];
      ReadAppend(x[1..], y);
      CharJoins(x[0], x[1..], y);
    } else {
      var name, rest := SplitRead(x);
      SplitShrinks(x, name, rest);
      ReadAppend(rest, y);
      HoleJoins(name, rest, y);
    }
  }

  lemma SplitShrinks(s: string, name: string, rest: string)
    requires s == Placeholder(name) + rest
    ensures |rest| < |s|
  {
  }

  lemma {:induction false} FillAppend(t: Template, u: Template, texts: map<string, string>)
    ensures Render(Fill(t + u, texts)) == Render(Fill(t, texts)) + Render(Fill(u, texts))
  {
    if t == [] {
      assert t + u == u;
    } else {
      assert (t + u)[1..] == t[1..] + u;
      FillAppend(t[1..], u, texts);
    }
  }

  lemma MeaningAppend(x: string, y: string, texts: map<string, string>)
    requires ReadTemplate(x).Some? && ReadTemplate(y).Some?
    ensures ReadTemplate(x + y).Some? && Meaning(x + y, texts) == Meaning(x, texts) + Meaning(y, texts)
  {
    ReadAppend(x, y);
    FillAppend(ReadTemplate(x).value, ReadTemplate(y).value, texts);
  }

  // What a closing brace ends reads as a template if the whole does.
  lemma {:induction false} ReadPrefix(x: string, y: string)
    requires ReadTemplate(x + y).Some? && (x == "" || x[|x| - 1] == '}')
    ensures ReadTemplate(x).Some?
    decreases |x|
  {
    hide *;
    if x == "" {
      PlainReads(x);
    } else if x[0] != '{' {
      CharFits(x, y);
      ReadChar(x[0], x[1..]);
      ReadChar(x[0], x[1..] + y);
      ReadPrefix(x[1..], y);
    } else {
      var name, more := SplitRead(x + y);
      var rest := HoleFits(x, y, name, more);
      ReadHole(name, rest);
      SplitShrinks(x, name, rest);
      ReadPrefix(rest, y);
    }
  }

  lemma CharFits(x: string, y: string)
    requires x != "" && x[|x| - 1] == '}'
    ensures x == [x[0]] + x[1..] && x + y == [x[0]] + (x[1..] + y)
    ensures x[1..] == "" || x[1..][|x[1..]| - 1] == '}'
  {
  }

  // The first hole ends no later than the first closing brace.
  lemma HoleFits(x: string, y: string, name: string, more: string) returns (rest: string)
    requires x != "" && x[0] == '{' && x[|x| - 1] == '}' && BraceFree(name) && x + y == Placeholder(name) + more
    ensures x == Placeholder(name) + rest && more == rest + y && (rest == "" || rest[|rest| - 1] == '}')
  {
    var s := x + y;
    assert s[|x| - 1] == '}' && forall k | 0 <= k < |name| :: s[k + 1] == name[k];
    assert |name| + 2 <= |x|;
    rest := x[|name| + 2..];
    assert x == s[..|x|] && s[..|name| + 2] == Placeholder(name) && s[|name| + 2..] == more;
  }

  predicate NoHoles(t: Template) {
    forall s | s in t :: s.Lit?
  }

  lemma {:induction false} FillIdle(t: Template, texts: map<string, string>)
    requires forall s | s in t && s.Hole? :: s.name !in texts
    ensures Fill(t, texts) == t
  {
    if t != [] {
      assert t[0] in t;
      FillIdle(t[1..], texts);
    }
  }

  lemma {:induction false} PlainReads(s: string)
    requires '{' !in s
    ensures ReadTemplate(s).Some? && NoHoles(ReadTemplate(s).value)
  {
    if s != "" { PlainReads(s[1..]); }
  }

  lemma PlainMeaning(s: string, texts: map<string, string>)
    requires '{' !in s
    ensures ReadTemplate(s).Some? && Meaning(s, texts) == s
  {
    PlainReads(s);
    FillIdle(ReadTemplate(s).value, texts);
  }

  lemma HoleReads(name: string)
    requires BraceFree(name)
    ensures ReadTemplate(Placeholder(name)) == Some([Hole(name)])
  {
    ReadHole(name, "");
    assert Placeholder(name) + "" == Placeholder(name) && [Hole(name)] + [] == [Hole(name)];
  }

  lemma {:induction false} MeaningOfRender(t: Template, texts: map<string, string>)
    requires WellFormed(t)
    ensures ReadTemplate(Render(t)).Some? && Meaning(Render(t), texts) == Render(Fill(t, texts))
  {
    ReadComplete(t);
    if t != [] {
      assert t[0] in t;
      MeaningOfRender(t[1..], texts);
      match t[0] {
        case Lit(text) => PlainMeaning(text, texts);
        case Hole(name) => HoleReads(name); RenderOne(FillSegment(t[0], texts)); FillOnly(t[0], texts);
      }
      MeaningAppend(RenderSegment(t[0]), Render(t[1..]), texts);
    }
  }

  lemma RenderOne(s: Segment)
    ensures Render([s]) == RenderSegment(s)
  {
    assert Render([s]) == RenderSegment(s) + Render([]);
  }

  lemma FillOnly(s: Segment, texts: map<string, string>)
    ensures Fill([s], texts) == [FillSegment(s, texts)]
  {
    assert Fill([s], texts) == [FillSegment(s, texts)] + Fill([], texts);
  }

  // ---------- One argument ----------

  lemma ReadHoles(x: string, y: string, name: string)
    requires ReadTemplate(x).Some? && ReadTemplate(y).Some?
    ensures ReadTemplate(x + y).Some?
    ensures Hole(name) in ReadTemplate(x + y).value
       <==> Hole(name) in ReadTemplate(x).value || Hole(name) in ReadTemplate(y).value
  {
    ReadAppend(x, y);
  }

  // `s'` has come out of `s` by filling holes: same meaning, no new holes, and none for `key`.
  ghost predicate Refines(s: string, s': string, key: string, texts: map<string, string>) {
    && ReadTemplate(s).Some? && ReadTemplate(s').Some?
    && Meaning(s', texts) == Meaning(s, texts)
    && forall n | Hole(n) in ReadTemplate(s').value :: Hole(n) in ReadTemplate(s).value && n != key
  }

  lemma RefinesAppend(x: string, x': string, y: string, y': string, key: string, texts: map<string, string>)
    requires Refines(x, x', key, texts) && Refines(y, y', key, texts)
    ensures Refines(x + y, x' + y', key, texts)
  {
    hide ReadTemplate, Meaning;
    MeaningAppend(x, y, texts);
    MeaningAppend(x', y', texts);
    forall n | Hole(n) in ReadTemplate(x' + y').value ensures Hole(n) in ReadTemplate(x + y).value && n != key {
      ReadHoles(x, y, n);
      ReadHoles(x', y', n);
    }
  }

  lemma PlainRefines(v: string, s: string, key: string, texts: map<string, string>)
    requires '{' !in v && ReadTemplate(s).Some? && Meaning(s, texts) == v
    ensures Refines(s, v, key, texts)
  {
    PlainReads(v);
    PlainMeaning(v, texts);
  }

  lemma HoleRefines(name: string, key: string, texts: map<string, string>)
    requires BraceFree(name) && name != key
    ensures Refines(Placeholder(name), Placeholder(name), key, texts)
  {
    HoleReads(name);
  }

  // Whether one `replace` call does so.
  ghost predicate Fills(s: string, key: string, texts: map<string, string>)
    requires key in texts
  {
    Refines(s, Replace(s, Placeholder(key), texts[key]), key, texts)
  }

  lemma MatchFills(rest: string, key: string, texts: map<string, string>)
    requires PlainValues(texts) && KeysAgree(texts) && key in texts && Fills(rest, key, texts)
    requires ReadTemplate(Placeholder(key)).Some?
    ensures Fills(Placeholder(key) + rest, key, texts)
  {
    var p, v := Placeholder(key), texts[key];
    assert Replace(p + rest, p, v) == v + Replace(rest, p, v) by { assert (p + rest)[|p|..] == rest; }
    hide Replace, Refines, Meaning, ReadTemplate;
    PlainRefines(v, p, key, texts);
    RefinesAppend(p, v, rest, Replace(rest, p, v), key, texts);
  }

  lemma CharFills(c: char, rest: string, key: string, texts: map<string, string>)
    requires c != '{' && key in texts && Fills(rest, key, texts)
    ensures Fills([c] + rest, key, texts)
  {
    var p, v := Placeholder(key), texts[key];
    assert Replace([c] + rest, p, v) == [c] + Replace(rest, p, v) by { assert ([c] + rest)[1..] == rest; }
    hide Replace, Refines, Meaning, ReadTemplate;
    PlainMeaning([c], texts);
    PlainRefines([c], [c], key, texts);
    RefinesAppend([c], [c], rest, Replace(rest, p, v), key, texts);
  }

  lemma HoleFills(name: string, rest: string, key: string, texts: map<string, string>)
    requires BraceFree(name) && key in texts && Fills(rest, key, texts)
    requires !(Placeholder(key) <= Placeholder(name) + rest)
    ensures Fills(Placeholder(name) + rest, key, texts)
  {
    hide Replace, Refines, Meaning, ReadTemplate, Placeholder;
    var p, v := Placeholder(key), texts[key];
    SkipHole(name, rest, key, v);
    HoleRefines(name, key, texts);
    RefinesAppend(Placeholder(name), Placeholder(name), rest, Replace(rest, p, v), key, texts);
  }

  lemma {:induction false} ReplaceFillsAll(s: string, key: string, texts: map<string, string>)
    requires ReadTemplate(s).Some? && PlainValues(texts) && KeysAgree(texts) && key in texts
    ensures Fills(s, key, texts)
    decreases |s|
  {
    hide *;
    if s == "" {
      NothingFills(key, texts);
    } else if Placeholder(key) <= s {
      var rest := s[|Placeholder(key)|..];
      assert s == Placeholder(key) + rest;
      MatchReads(key, rest);
      SplitShrinks(s, key, rest);
      ReplaceFillsAll(rest, key, texts);
      MatchFills(rest, key, texts);
    } else if s[0] != '{' {
      assert s == [s[0]] + s[1..];
      ReadChar(s[0], s[1..]);
      ReplaceFillsAll(s[1..], key, texts);
      CharFills(s[0], s[1..], key, texts);
    } else {
      var name, rest := SplitRead(s);
      SplitShrinks(s, name, rest);
      ReplaceFillsAll(rest, key, texts);
      HoleFills(name, rest, key, texts);
    }
  }

  /** One `replace` call keeps the meaning of a text, and leaves no hole of its own name. */
  lemma ReplaceRefines(s: string, key: string, texts: map<string, string>)
    requires ReadTemplate(s).Some? && PlainValues(texts) && KeysAgree(texts) && key in texts
    ensures Refines(s, Replace(s, Placeholder(key), texts[key]), key, texts)
  {
    hide Replace, Refines, ReadTemplate;
    ReplaceFillsAll(s, key, texts);
  }

  lemma NothingFills(key: string, texts: map<string, string>)
    requires key in texts
    ensures Fills("", key, texts)
  {
    PlainMeaning("", texts);
    PlainRefines("", "", key, texts);
  }

  lemma MatchReads(key: string, rest: string)
    requires ReadTemplate(Placeholder(key) + rest).Some?
    ensures ReadTemplate(Placeholder(key)).Some? && ReadTemplate(rest).Some?
  {
    var p := Placeholder(key);
    assert p[|p| - 1] == '}';
    hide ReadTemplate, Placeholder;
    ReadPrefix(p, rest);
    ReadAppend(p, rest);
  }

  lemma SkipHole(name: string, rest: string, key: string, to: string)
    requires BraceFree(name) && !(Placeholder(key) <= Placeholder(name) + rest)
    ensures name != key
    ensures Replace(Placeholder(name) + rest, Placeholder(key), to)
         == Placeholder(name) + Replace(rest, Placeholder(key), to)
  {
    var s, tail := Placeholder(name) + rest, name + "}";
    NoBraceIsInert(tail, key);
    assert s[1..] == tail + rest;
    ReplaceSkips(tail, rest, key, to);
    var after := Replace(rest, Placeholder(key), to);
    assert ['{'] + (tail + after) == Placeholder(name) + after;
  }

  // ---------- All arguments ----------

  lemma {:induction false} OrderRefines(s: string, order: seq<string>, texts: map<string, string>)
    requires ReadTemplate(s).Some? && PlainValues(texts) && KeysAgree(texts) && forall k | k in order :: k in texts
    ensures var s' := FillInOrder(s, order, texts);
            && ReadTemplate(s').Some? && Meaning(s', texts) == Meaning(s, texts)
            && forall n | Hole(n) in ReadTemplate(s').value :: Hole(n) in ReadTemplate(s).value && n !in order
    decreases |order|
  {
    if order != [] {
      hide ReadTemplate, Meaning, KeysAgree, PlainValues;
      ReplaceRefines(s, order[0], texts);
      OrderRefines(Replace(s, Placeholder(order[0]), texts[order[0]]), order[1..], texts);
    }
  }

  lemma AgreeingIsSimultaneous(t: Template, order: seq<string>, texts: map<string, string>)
    requires WellFormed(t) && PlainValues(texts) && KeysAgree(texts) && Enumerates(order, texts)
    ensures FillInOrder(Render(t), order, texts) == Render(Fill(t, texts))
  {
    hide ReadTemplate, KeysAgree, PlainValues;
    MeaningOfRender(t, texts);
    OrderRefines(Render(t), order, texts);
    var s := FillInOrder(Render(t), order, texts);
    FillIdle(ReadTemplate(s).value, texts);
  }

  lemma {:induction false} PlainStays(s: string, order: seq<string>, texts: map<string, string>)
    requires '{' !in s && forall k | k in order :: k in texts
    ensures FillInOrder(s, order, texts) == s
    decreases |order|
  {
    if order != [] {
      NoBraceIsInert(s, order[0]);
      ReplaceSkips(s, "", order[0], texts[order[0]]);
      assert s + "" == s;
      PlainStays(s, order[1..], texts);
    }
  }

  /** From a key that disagrees: its own placeholder is a template that comes out wrong when it goes first. */
  lemma DisagreeingShows(texts: map<string, string>, key: string) returns (t: Template, order: seq<string>)
    requires PlainValues(texts) && key in texts && ReadTemplate(Placeholder(key)).Some?
    requires texts[key] != Meaning(Placeholder(key), texts)
    ensures WellFormed(t) && Enumerates(order, texts)
    ensures FillInOrder(Render(t), order, texts) != Render(Fill(t, texts))
  {
    var p, v := Placeholder(key), texts[key];
    t := ReadTemplate(p).value;
    var others := Listing(texts.Keys - {key});
    order := [key] + others;
    assert Replace(p, p, v) == v + Replace("", p, v) == v by { assert p[|p|..] == ""; }
    assert order[1..] == others;
    hide Replace, ReadTemplate;
    assert FillInOrder(p, order, texts) == FillInOrder(v, others, texts);
    PlainStays(v, others, texts);
  }

  /**
   * Whatever the names, for values without an opening brace: sequential rewriting is simultaneous
   * substitution in every template exactly when the keys agree, and brace-free keys always do.
   */
  lemma KeysIff(texts: map<string, string>)
    requires PlainValues(texts)
    ensures KeysAgree(texts) <==> AlwaysSimultaneous(texts)
    ensures BraceFreeKeys(texts) ==> KeysAgree(texts)
  {
    hide ReadTemplate, Meaning;
    if KeysAgree(texts) {
      forall t, order | WellFormed(t) && Enumerates(order, texts)
        ensures FillInOrder(Render(t), order, texts) == Render(Fill(t, texts))
      {
        AgreeingIsSimultaneous(t, order, texts);
      }
    } else {
      var key :| key in texts && ReadTemplate(Placeholder(key)).Some? && texts[key] != Meaning(Placeholder(key), texts);
      var t, order := DisagreeingShows(texts, key);
    }
    if BraceFreeKeys(texts) { BraceFreeAgree(texts); }
  }

  lemma BraceFreeAgree(texts: map<string, string>)
    requires BraceFreeKeys(texts)
    ensures KeysAgree(texts)
  {
    hide ReadTemplate, Meaning, Placeholder;
    forall k | k in texts && ReadTemplate(Placeholder(k)).Some? ensures texts[k] == Meaning(Placeholder(k), texts) {
      HoleMeaning(k, texts);
    }
  }

  lemma HoleMeaning(name: string, texts: map<string, string>)
    requires BraceFree(name) && name in texts
    ensures ReadTemplate(Placeholder(name)).Some? && Meaning(Placeholder(name), texts) == texts[name]
  {
    HoleReads(name);
    FillOnly(Hole(name), texts);
    RenderOne(Lit(texts[name]));
  }
}
