/** `McpCodec`: frames of an 8-byte big-endian length and that many bytes. */
module LengthFraming {
  import opened Wrappers
  import opened Sequences

  const LENGTH_SIZE := 8

  const LENGTH_LIMIT: nat := 0x1_0000_0000_0000_0000

  function Power(k: nat): (p: nat)
    ensures p > 0
  {
    if k == 0 then 1 else 256 * Power(k - 1)
  }

  /** `to_be_bytes`, for a number of `k` bytes. */
  function BigEndian(n: nat, k: nat): (b: Bytes)
    ensures |b| == k
  {
    if k == 0 then [] else BigEndian(n / 256, k - 1) + [n % 256]
  }

  /** `from_be_bytes`. */
  function FromBigEndian(b: Bytes): nat {
    if b == [] then 0 else 256 * FromBigEndian(b[..|b| - 1]) + b[|b| - 1]
  }

  lemma LowerDigits(n: nat, p: nat)
    requires n < 256 * p
    ensures n / 256 < p && n == 256 * (n / 256) + n % 256
  {
  }

  lemma FromBigEndianSnoc(b: Bytes, digit: Byte)
    ensures FromBigEndian(b + [digit]) == 256 * FromBigEndian(b) + digit
  {
    assert (b + [digit])[..|b|] == b;
  }

  lemma {:induction false} FromToBigEndian(n: nat, k: nat)
    requires n < Power(k)
    ensures FromBigEndian(BigEndian(n, k)) == n
  {
    if k > 0 {
      LowerDigits(n, Power(k - 1));
      FromToBigEndian(n / 256, k - 1);
      FromBigEndianSnoc(BigEndian(n / 256, k - 1), n % 256);
    }
  }

  lemma {:induction false} ToFromBigEndian(b: Bytes)
    ensures FromBigEndian(b) < Power(|b|) && BigEndian(FromBigEndian(b), |b|) == b
  {
    if b != [] {
      var init := b[..|b| - 1];
      ToFromBigEndian(init);
      assert FromBigEndian(b) / 256 == FromBigEndian(init) && FromBigEndian(b) % 256 == b[|b| - 1];
      assert b == init + [b[|b| - 1]];
    }
  }

  lemma EightBytes()
    ensures Power(LENGTH_SIZE) == LENGTH_LIMIT
  {
    assert Power(4) == 0x1_0000_0000;
    assert Power(8) == 256 * 256 * 256 * 256 * Power(4);
  }

  /** The numbers below 2^64 and the 8-byte strings correspond one to one. */
  lemma LengthsAreBytes(n: nat, b: Bytes)
    requires n < LENGTH_LIMIT && |b| == LENGTH_SIZE
    ensures FromBigEndian(b) < LENGTH_LIMIT
    ensures BigEndian(n, LENGTH_SIZE) == b <==> n == FromBigEndian(b)
  {
    EightBytes();
    FromToBigEndian(n, LENGTH_SIZE);
    ToFromBigEndian(b);
  }

  lemma PrefixStep(b: Bytes, i: nat)
    requires i < |b|
    ensures FromBigEndian(b[..i + 1]) == 256 * FromBigEndian(b[..i]) + b[i]
  {
    assert b[..i + 1] == b[..i] + [b[i]];
    FromBigEndianSnoc(b[..i], b[i]);
  }

  /** The number of eight digits, the highest first. */
  function Eight(d: seq<nat>): nat
    requires |d| == 8
  {
    0x100_0000_0000_0000 * d[0] + 0x1_0000_0000_0000 * d[1] + 0x100_0000_0000 * d[2] + 0x1_0000_0000 * d[3]
    + 0x100_0000 * d[4] + 0x1_0000 * d[5] + 0x100 * d[6] + d[7]
  }

  lemma HighestFirst(b: Bytes)
    requires |b| == 8
    ensures FromBigEndian(b) == Eight(b)
  {
    assert b[..0] == [] && b[..8] == b;
    assert FromBigEndian(b[..0]) == 0;
    hide FromBigEndian;
    PrefixStep(b, 0);
    PrefixStep(b, 1);
    PrefixStep(b, 2);
    PrefixStep(b, 3);
    PrefixStep(b, 4);
    PrefixStep(b, 5);
    PrefixStep(b, 6);
    PrefixStep(b, 7);
  }

  // ---------- Frames ----------

  predicate Sendable(payload: Bytes) {
    |payload| < LENGTH_LIMIT
  }

  function Frame(payload: Bytes): Bytes {
    BigEndian(|payload|, LENGTH_SIZE) + payload
  }

  function Frames(payloads: seq<Bytes>): Bytes {
    if payloads == [] then [] else Frame(payloads[0]) + Frames(payloads[1..])
  }

  /** The stream ends before a frame does. */
  predicate Truncated(data: Bytes) {
    |data| < LENGTH_SIZE || |data| < LENGTH_SIZE + FromBigEndian(data[..LENGTH_SIZE])
  }

  /** UnexpectedEof: what `read_exact` reports at the end of the stream. */
  datatype ReadError = UnexpectedEof

  /** A byte stream that is read at one end and written at the other. */
  class Stream {
    var data: Bytes

    constructor (initial: Bytes)
      ensures data == initial
    {
      data := initial;
    }

    /** Fills `buffer` from the stream, in reads of whatever sizes; at the end of the stream all is consumed. */
    method ReadExact(buffer: array<Byte>) returns (ok: bool)
      modifies this, buffer
      ensures ok <==> buffer.Length <= |old(data)|
      ensures ok ==> old(data) == buffer[..] + data
      ensures !ok ==> data == []
    {
      var filled := 0;
      while filled < buffer.Length
        invariant 0 <= filled <= buffer.Length
        invariant old(data) == buffer[..filled] + data
      {
        if data == [] { return false; }
        var n :| 1 <= n <= |data| && n <= buffer.Length - filled;
        ghost var before := buffer[..filled];
        forall k | 0 <= k < n { buffer[filled + k] := data[k]; }
        assert buffer[..filled + n] == before + data[..n];
        data := data[n..];
        filled := filled + n;
      }
      assert buffer[..filled] == buffer[..];
      return true;
    }

    method WriteAll(bytes: Bytes)
      modifies this
      ensures data == old(data) + bytes
    {
      data := data + bytes;
    }

    method WriteFrame(payload: Bytes)
      requires Sendable(payload)
      modifies this
      ensures data == old(data) + Frame(payload)
    {
      WriteAll(BigEndian(|payload|, LENGTH_SIZE));
      WriteAll(payload);
    }

    /** The error cases are exactly the truncated streams; otherwise one frame is taken off the front. */
    method ReadFrame() returns (r: Result<Bytes, ReadError>)
      modifies this
      ensures r.Err? <==> Truncated(old(data))
      ensures r.Ok? ==> Sendable(r.value) && old(data) == Frame(r.value) + data
    {
      var lengthBytes := new Byte[LENGTH_SIZE];
      ghost var whole := data;
      var ok := ReadExact(lengthBytes);
      if !ok { return Err(UnexpectedEof); }
      ghost var head := lengthBytes[..];
      FrameOf(whole, head, data);
      var length := FromBigEndian(lengthBytes[..]);
      hide FromBigEndian, BigEndian;
      var buffer := new Byte[length];
      ok := ReadExact(buffer);
      if !ok { return Err(UnexpectedEof); }
      assert whole == head + (buffer[..] + data);
      return Ok(buffer[..]);
    }
  }

  // A head and what follows it: truncated or a frame, as the head says.
  lemma FrameOf(whole: Bytes, head: Bytes, after: Bytes)
    requires |head| == LENGTH_SIZE && whole == head + after
    ensures Truncated(whole) <==> |after| < FromBigEndian(head)
    ensures forall p: Bytes, x: Bytes | |p| == FromBigEndian(head) && whole == head + (p + x) ::
              Sendable(p) && whole == Frame(p) + x
  {
    assert whole[..LENGTH_SIZE] == head;
    LengthsAreBytes(0, head);
    LengthsAreBytes(FromBigEndian(head), head);
  }

  // ---------- Properties ----------

  /** Eight bytes of length, the highest first, and then the payload. */
  lemma FrameBytes(p: Bytes)
    requires Sendable(p)
    ensures var b := Frame(p);
            && |b| == 8 + |p| && b[8..] == p
            && |p| == Eight(b[..8])
  {
    var head := BigEndian(|p|, LENGTH_SIZE);
    LengthsAreBytes(|p|, head);
    HighestFirst(head);
    assert Frame(p)[..8] == head;
  }

  /** A frame is read where one stands, and no other payload fits the same bytes. */
  lemma FrameUnique(p: Bytes, x: Bytes, q: Bytes, y: Bytes)
    requires Sendable(p) && Sendable(q) && Frame(p) + x == Frame(q) + y
    ensures p == q && x == y
  {
    var s := Frame(p) + x;
    assert s[..LENGTH_SIZE] == BigEndian(|p|, LENGTH_SIZE) && s[..LENGTH_SIZE] == BigEndian(|q|, LENGTH_SIZE);
    LengthsAreBytes(|p|, BigEndian(|p|, LENGTH_SIZE));
    LengthsAreBytes(|q|, BigEndian(|q|, LENGTH_SIZE));
    assert s[LENGTH_SIZE..LENGTH_SIZE + |p|] == p && s[LENGTH_SIZE..LENGTH_SIZE + |q|] == q;
    assert s[LENGTH_SIZE + |p|..] == x && s[LENGTH_SIZE + |q|..] == y;
  }

  /** No frame begins another. */
  lemma PrefixFree(p: Bytes, q: Bytes)
    requires Sendable(p) && Sendable(q) && Frame(p) <= Frame(q)
    ensures p == q
  {
    var tail := Frame(q)[|Frame(p)|..];
    assert Frame(p) + tail == Frame(q) + [];
    FrameUnique(p, tail, q, []);
  }

  /** A stream is truncated exactly when no frame stands at its front. */
  lemma TruncatedIff(data: Bytes)
    ensures Truncated(data) <==> !exists p, x :: Sendable(p) && data == Frame(p) + x
  {
    if !Truncated(data) {
      var head := data[..LENGTH_SIZE];
      LengthsAreBytes(0, head);
      LengthsAreBytes(FromBigEndian(head), head);
      var p := data[LENGTH_SIZE..LENGTH_SIZE + FromBigEndian(head)];
      var x := data[LENGTH_SIZE + FromBigEndian(head)..];
      assert Sendable(p) && data == Frame(p) + x;
    }
    forall p: Bytes, x: Bytes | Sendable(p) && data == Frame(p) + x ensures !Truncated(data) {
      assert data[..LENGTH_SIZE] == BigEndian(|p|, LENGTH_SIZE);
      LengthsAreBytes(|p|, BigEndian(|p|, LENGTH_SIZE));
    }
  }

  /** Cutting a frame anywhere short of its end makes it unreadable. */
  lemma CutFrameIsTruncated(p: Bytes, cut: nat)
    requires Sendable(p) && cut < |Frame(p)|
    ensures Truncated(Frame(p)[..cut])
  {
    if cut >= LENGTH_SIZE {
      assert Frame(p)[..cut][..LENGTH_SIZE] == BigEndian(|p|, LENGTH_SIZE);
      LengthsAreBytes(|p|, BigEndian(|p|, LENGTH_SIZE));
    }
  }

  lemma {:induction false} FramesAppend(a: seq<Bytes>, p: Bytes)
    ensures Frames(a + [p]) == Frames(a) + Frame(p)
  {
    if a == [] {
      assert [p][1..] == [];
    } else {
      assert (a + [p])[1..] == a[1..] + [p];
      FramesAppend(a[1..], p);
    }
  }

  /** What is written is read back: the same payloads in order, and nothing left over. */
  method WriteThenRead(payloads: seq<Bytes>) returns (got: seq<Bytes>, end: Result<Bytes, ReadError>, left: Bytes)
    requires forall p | p in payloads :: Sendable(p)
    ensures got == payloads && end.Err? && left == []
  {
    var io := new Stream([]);
    var i := 0;
    while i < |payloads|
      invariant 0 <= i <= |payloads|
      invariant io.data == Frames(payloads[..i])
    {
      io.WriteFrame(payloads[i]);
      assert payloads[..i + 1] == payloads[..i] + [payloads[i]];
      FramesAppend(payloads[..i], payloads[i]);
      i := i + 1;
    }
    assert payloads[..i] == payloads == payloads[0..];
    got := [];
    while |got| < |payloads|
      invariant |got| <= |payloads| && got == payloads[..|got|]
      invariant io.data == Frames(payloads[|got|..])
    {
      ghost var before, next := io.data, payloads[|got|];
      assert payloads[|got|..][0] == next && payloads[|got|..][1..] == payloads[|got| + 1..];
      FrameAtFront(next, Frames(payloads[|got| + 1..]));
      var r := io.ReadFrame();
      FrameUnique(r.value, io.data, next, Frames(payloads[|got| + 1..]));
      got := got + [r.value];
    }
    assert io.data == [];
    left := io.data;
    end := io.ReadFrame();
  }

  lemma FrameAtFront(p: Bytes, x: Bytes)
    requires Sendable(p)
    ensures !Truncated(Frame(p) + x)
  {
    TruncatedIff(Frame(p) + x);
  }
}
