/** `JsonRpcFrameCodec`: newline-terminated frames taken out of a growing byte buffer. */
module LineFraming {
  import opened Wrappers
  import opened Sequences

  const NEWLINE: Byte := 10

  function Join(frames: seq<Bytes>): Bytes {
    if frames == [] then [] else frames[0] + [NEWLINE] + Join(frames[1..])
  }

  function Concat(chunks: seq<Bytes>): Bytes {
    if chunks == [] then [] else chunks[0] + Concat(chunks[1..])
  }

  /** `bytes` are these frames, each ended by its newline, and an unfinished `rest`. */
  predicate FramedAs(bytes: Bytes, frames: seq<Bytes>, rest: Bytes) {
    && bytes == Join(frames) + rest
    && NEWLINE !in rest
    && forall f | f in frames :: NEWLINE !in f
  }

  class JsonRpcFrameCodec {
    var src: Bytes

    constructor ()
      ensures src == []
    {
      src := [];
    }

    /** Takes the bytes before the first newline, and the newline with them; leaves `src` alone if there is none. */
    method Decode() returns (frame: Option<Bytes>)
      modifies this
      ensures frame.None? <==> 10 !in old(src)
      ensures frame.None? ==> src == old(src)
      ensures frame.Some? ==> 10 !in frame.value && old(src) == frame.value + [10] + src
      ensures frame.Some? ==> |src| < |old(src)|
    {
      var end := 0;
      while end < |src| && src[end] != NEWLINE
        invariant 0 <= end <= |src|
        invariant NEWLINE !in src[..end]
      {
        end := end + 1;
      }
      if end == |src| {
        return None;
      }
      var line := src[..end];
      src := src[end..];
      src := src[1..];
      return Some(line);
    }

    /** Decodes until nothing is left to decode. */
    method Drain() returns (frames: seq<Bytes>)
      modifies this
      ensures FramedAs(old(src), frames, src)
    {
      frames := [];
      var frame := Decode();
      assert frame.None? ==> old(src) == src;
      while frame.Some?
        invariant frame.None? ==> FramedAs(old(src), frames, src)
        invariant frame.Some? ==> NEWLINE !in frame.value && old(src) == Join(frames) + frame.value + [NEWLINE] + src
        invariant forall f | f in frames :: NEWLINE !in f
        decreases |src| + (if frame.Some? then 1 else 0)
      {
        JoinSnoc(frames, frame.value);
        frames := frames + [frame.value];
        ghost var before := src;
        frame := Decode();
        if frame.Some? { JoinAssoc(Join(frames), frame.value, src, before); }
      }
    }

    /** The reader's loop: append what arrived, drain, wait for more. */
    method Feed(chunks: seq<Bytes>) returns (frames: seq<Bytes>)
      requires NEWLINE !in src
      modifies this
      ensures FramedAs(old(src) + Concat(chunks), frames, src)
    {
      frames := [];
      var i := 0;
      assert old(src) + Concat(chunks[..0]) == old(src);
      while i < |chunks|
        invariant 0 <= i <= |chunks|
        invariant FramedAs(old(src) + Concat(chunks[..i]), frames, src)
      {
        ghost var before, done := src, frames;
        src := src + chunks[i];
        var more := Drain();
        frames := frames + more;
        ConcatSnoc(chunks, i);
        FramedAppend(old(src) + Concat(chunks[..i]), done, before, chunks[i], more, src);
        i := i + 1;
      }
      assert chunks[..i] == chunks;
    }
  }

  // ---------- Bookkeeping ----------

  lemma {:induction false} JoinAppend(a: seq<Bytes>, b: seq<Bytes>)
    ensures Join(a + b) == Join(a) + Join(b)
  {
    if a == [] {
      assert a + b == b;
    } else {
      assert (a + b)[1..] == a[1..] + b;
      JoinAppend(a[1..], b);
    }
  }

  lemma JoinSnoc(frames: seq<Bytes>, f: Bytes)
    ensures Join(frames + [f]) == Join(frames) + f + [NEWLINE]
  {
    JoinAppend(frames, [f]);
  }

  lemma JoinAssoc(a: Bytes, f: Bytes, rest: Bytes, before: Bytes)
    requires before == f + [NEWLINE] + rest
    ensures a + before == a + f + [NEWLINE] + rest
  {
  }

  lemma {:induction false} ConcatAppend(a: seq<Bytes>, b: seq<Bytes>)
    ensures Concat(a + b) == Concat(a) + Concat(b)
  {
    if a == [] {
      assert a + b == b;
    } else {
      assert (a + b)[1..] == a[1..] + b;
      ConcatAppend(a[1..], b);
    }
  }

  lemma ConcatSnoc(chunks: seq<Bytes>, i: nat)
    requires i < |chunks|
    ensures Concat(chunks[..i + 1]) == Concat(chunks[..i]) + chunks[i]
  {
    assert chunks[..i + 1] == chunks[..i] + [chunks[i]];
    ConcatAppend(chunks[..i], [chunks[i]]);
  }

  /** Framing what was left over together with what arrives next continues the framing so far. */
  lemma FramedAppend(bytes: Bytes, frames: seq<Bytes>, rest: Bytes, chunk: Bytes, more: seq<Bytes>, left: Bytes)
    requires FramedAs(bytes, frames, rest) && FramedAs(rest + chunk, more, left)
    ensures FramedAs(bytes + chunk, frames + more, left)
  {
    JoinAppend(frames, more);
    assert bytes + chunk == Join(frames) + (rest + chunk);
  }

  // ---------- What is decoded ----------

  // Two newline-free pieces before a newline (or the end) of the same bytes are the same piece.
  lemma SameFirst(f: Bytes, x: Bytes, g: Bytes, y: Bytes)
    requires NEWLINE !in f && NEWLINE !in g && f + [NEWLINE] + x == g + [NEWLINE] + y
    ensures f == g && x == y
  {
    var s := f + [NEWLINE] + x;
    assert s[|f|] == NEWLINE && s[|g|] == NEWLINE;
    assert forall k | 0 <= k < |f| :: s[k] == f[k] && f[k] in f;
    assert forall k | 0 <= k < |g| :: s[k] == g[k] && g[k] in g;
    assert s[..|f|] == f && s[..|g|] == g && s[|f| + 1..] == x && s[|g| + 1..] == y;
  }

  lemma FrameHasNewline(frames: seq<Bytes>, rest: Bytes)
    requires frames != []
    ensures NEWLINE in Join(frames) + rest
  {
    assert (Join(frames) + rest)[|frames[0]|] == NEWLINE;
  }

  /** There is one way to frame a byte sequence, so what comes out depends on nothing else. */
  lemma {:induction false} FramingUnique(bytes: Bytes, f: seq<Bytes>, x: Bytes, g: seq<Bytes>, y: Bytes)
    requires FramedAs(bytes, f, x) && FramedAs(bytes, g, y)
    ensures f == g && x == y
    decreases |f|
  {
    if f == [] {
      assert bytes == x;
      if g == [] { assert bytes == y; } else { FrameHasNewline(g, y); }
    } else if g == [] {
      FrameHasNewline(f, x);
    } else {
      var a, b := Join(f[1..]) + x, Join(g[1..]) + y;
      assert bytes == f[0] + [NEWLINE] + a && bytes == g[0] + [NEWLINE] + b;
      SameFirst(f[0], a, g[0], b);
      FramingUnique(a, f[1..], x, g[1..], y);
    }
  }

  /** However the same bytes are cut into chunks, the same frames come out and the same bytes stay. */
  method ChunkingDoesNotMatter(one: seq<Bytes>, other: seq<Bytes>)
    returns (f: seq<Bytes>, g: seq<Bytes>, x: Bytes, y: Bytes)
    requires Concat(one) == Concat(other)
    ensures f == g && x == y && FramedAs(Concat(one), f, x)
  {
    var a := new JsonRpcFrameCodec();
    var b := new JsonRpcFrameCodec();
    f := a.Feed(one);
    g := b.Feed(other);
    x, y := a.src, b.src;
    assert [] + Concat(one) == Concat(one) == [] + Concat(other);
    FramingUnique(Concat(one), f, x, g, y);
  }

  /** Payloads without newlines come out in order and as they were, whatever the chunks. */
  method PayloadsRoundTrip(payloads: seq<Bytes>, chunks: seq<Bytes>) returns (frames: seq<Bytes>, rest: Bytes)
    requires forall p | p in payloads :: NEWLINE !in p
    requires Concat(chunks) == Join(payloads)
    ensures frames == payloads && rest == []
  {
    var codec := new JsonRpcFrameCodec();
    frames := codec.Feed(chunks);
    rest := codec.src;
    assert [] + Concat(chunks) == Join(payloads) + [];
    FramingUnique(Join(payloads), frames, rest, payloads, []);
  }

  /** Every byte sequence has a framing: its frames are counted by its newlines. */
  lemma {:induction false} FrameCount(bytes: Bytes, frames: seq<Bytes>, rest: Bytes)
    requires FramedAs(bytes, frames, rest)
    ensures |frames| == multiset(bytes)[10]
    decreases |frames|
  {
    if frames == [] {
      assert bytes == rest;
    } else {
      var tail := Join(frames[1..]) + rest;
      assert bytes == frames[0] + [NEWLINE] + tail;
      FrameCount(tail, frames[1..], rest);
      assert frames[0] in frames;
    }
  }
}
