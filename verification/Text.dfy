/**
 * The string operations the prompt code relies on: UTF-8 length, substring test and
 * left-to-right replacement (Rust's `str::len`, `str::contains`, `str::replace`).
 */
module Text {

  function CharBytes(c: char): nat {
    if c < '\U{80}' then 1 else if c < '\U{800}' then 2 else if c < '\U{10000}' then 3 else 4
  }

  function ByteLen(s: string): nat {
    if s == [] then 0 else CharBytes(s[0]) + ByteLen(s[1..])
  }

  lemma {:induction false} ByteLenConcat(a: string, b: string)
    ensures ByteLen(a + b) == ByteLen(a) + ByteLen(b)
  {
    if a == [] {
      assert a + b == b;
    } else {
      assert (a + b)[1..] == a[1..] + b;
      ByteLenConcat(a[1..], b);
    }
  }

  predicate Contains(s: string, pattern: string) {
    exists i | 0 <= i <= |s| :: pattern <= s[i..]
  }

  function Replace(s: string, pattern: string, to: string): string
    requires pattern != ""
  {
    if s == "" then ""
    else if pattern <= s then to + Replace(s[|pattern|..], pattern, to)
    else [s[0]] + Replace(s[1..], pattern, to)
  }

  // How many times `Replace` replaces.
  function Occurrences(s: string, pattern: string): nat
    requires pattern != ""
  {
    if s == "" then 0
    else if pattern <= s then 1 + Occurrences(s[|pattern|..], pattern)
    else Occurrences(s[1..], pattern)
  }

  /** One replacement step trades `Occurrences` placeholders for as many values, byte for byte. */
  lemma {:induction false} ReplaceLength(s: string, pattern: string, to: string)
    requires pattern != ""
    ensures ByteLen(Replace(s, pattern, to)) + Occurrences(s, pattern) * ByteLen(pattern)
         == ByteLen(s) + Occurrences(s, pattern) * ByteLen(to)
  {
    if s == "" {
    } else if pattern <= s {
      var rest := s[|pattern|..];
      ReplaceLength(rest, pattern, to);
      ByteLenConcat(to, Replace(rest, pattern, to));
      ByteLenConcat(pattern, rest);
      assert s == pattern + rest;
      var n := Occurrences(rest, pattern);
      assert (n + 1) * ByteLen(pattern) == n * ByteLen(pattern) + ByteLen(pattern);
      assert (n + 1) * ByteLen(to) == n * ByteLen(to) + ByteLen(to);
    } else {
      ReplaceLength(s[1..], pattern, to);
      ByteLenConcat([s[0]], Replace(s[1..], pattern, to));
    }
  }

  lemma {:induction false} ReplaceSelf(s: string, pattern: string)
    requires pattern != ""
    ensures Replace(s, pattern, pattern) == s
  {
    if s != "" {
      ReplaceSelf(if pattern <= s then s[|pattern|..] else s[1..], pattern);
    }
  }

  lemma ShorterIsLighter(s: string, a: string, b: string)
    requires a <= s && b <= s && |a| < |b|
    ensures ByteLen(a) < ByteLen(b)
  {
    ByteLenConcat(a, b[|a|..]);
    assert b == a + b[|a|..];
  }

  lemma SameBytesSamePrefix(s: string, a: string, b: string)
    requires a <= s && b <= s && ByteLen(a) == ByteLen(b)
    ensures a == b
  {
    if |a| < |b| { ShorterIsLighter(s, a, b); }
    if |b| < |a| { ShorterIsLighter(s, b, a); }
  }

  /** Replacing something that occurs changes the text, unless it is replaced by itself. */
  lemma {:induction false} ReplaceChanges(s: string, pattern: string, to: string)
    requires pattern != "" && Contains(s, pattern) && Replace(s, pattern, to) == s
    ensures to == pattern
  {
    if pattern <= s {
      ReplaceLength(s, pattern, to);
      var n := Occurrences(s, pattern);
      assert n > 0 && n * ByteLen(pattern) == n * ByteLen(to);
      SameTimes(n, ByteLen(pattern), ByteLen(to));
      SameBytesSamePrefix(s, pattern, to);
    } else {
      var i :| 0 <= i <= |s| && pattern <= s[i..];
      assert i > 0 by { assert s[0..] == s; }
      assert s[1..][i - 1..] == s[i..];
      assert ([s[0]] + Replace(s[1..], pattern, to))[1..] == s[1..];
      ReplaceChanges(s[1..], pattern, to);
    }
  }

  lemma TimesGrows(n: nat, a: nat, b: nat)
    requires n > 0 && a < b
    ensures n * a < n * b
  {
    assert n * (b - a) > 0;
  }

  lemma SameTimes(n: nat, a: nat, b: nat)
    requires n > 0 && n * a == n * b
    ensures a == b
  {
    if a < b { TimesGrows(n, a, b); }
    if b < a { TimesGrows(n, b, a); }
  }

  // ---------- Braces ----------

  predicate BraceFree(s: string) {
    '{' !in s && '}' !in s
  }

  function Placeholder(name: string): string {
    "{" + name + "}"
  }

  /** No match of the placeholder of `key` can start inside `text`, whatever comes after it. */
  predicate Inert(text: string, key: string) {
    forall i | 0 <= i < |text| :: !(Placeholder(key) <= text[i..]) && !(text[i..] <= Placeholder(key))
  }

  lemma NoBraceIsInert(text: string, key: string)
    requires '{' !in text
    ensures Inert(text, key)
  {
    forall i | 0 <= i < |text| ensures !(Placeholder(key) <= text[i..]) && !(text[i..] <= Placeholder(key)) {
      assert text[i..][0] == text[i] != '{' == Placeholder(key)[0];
    }
  }

  lemma PrefixOverlap(p: string, prefix: string, rest: string)
    ensures p <= prefix + rest ==> p <= prefix || prefix <= p
  {
  }

  lemma {:induction false} ReplaceSkips(prefix: string, rest: string, key: string, to: string)
    requires Inert(prefix, key)
    ensures Replace(prefix + rest, Placeholder(key), to) == prefix + Replace(rest, Placeholder(key), to)
  {
    if prefix == "" {
      assert prefix + rest == rest;
    } else {
      var s, tail, p := prefix + rest, prefix[1..], Placeholder(key);
      assert prefix[0..] == prefix;
      PrefixOverlap(p, prefix, rest);
      assert s[1..] == tail + rest;
      assert forall i | 0 <= i < |tail| :: tail[i..] == prefix[i + 1..];
      ReplaceSkips(tail, rest, key, to);
      assert [prefix[0]] + (tail + Replace(rest, p, to)) == prefix + Replace(rest, p, to);
    }
  }

  // Two brace-free names whose placeholders start the same text are one name.
  lemma PlaceholderPrefix(key: string, name: string, rest: string)
    requires BraceFree(key) && BraceFree(name)
    requires Placeholder(key) <= Placeholder(name) + rest
    ensures key == name
  {
    var s := Placeholder(name) + rest;
    assert s[|key| + 1] == Placeholder(key)[|key| + 1] == '}';
    assert s[|name| + 1] == '}';
    assert forall i | 0 <= i < |name| :: s[i + 1] == name[i];
    assert forall i | 0 <= i < |key| :: s[i + 1] == Placeholder(key)[i + 1] == key[i];
    assert |key| == |name|;
  }

  lemma ReplaceHole(key: string, name: string, rest: string, to: string)
    requires BraceFree(key) && BraceFree(name)
    ensures Replace(Placeholder(name) + rest, Placeholder(key), to)
         == (if name == key then to else Placeholder(name)) + Replace(rest, Placeholder(key), to)
  {
    var s, p := Placeholder(name) + rest, Placeholder(key);
    if name == key {
      assert p <= s && s[|p|..] == rest;
    } else {
      if p <= s { PlaceholderPrefix(key, name, rest); }
      var tail := name + "}";
      NoBraceIsInert(tail, key);
      assert s[1..] == tail + rest;
      ReplaceSkips(tail, rest, key, to);
      assert ['{'] + (tail + Replace(rest, p, to)) == Placeholder(name) + Replace(rest, p, to);
    }
  }
}
