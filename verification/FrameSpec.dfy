/**
 The wire format of one byte stream: payloads, each prefixed with its unsigned 32-bit big-endian
 length. This module says what a stream of bytes means; FrameDecoder refines it incrementally.
 */
module FrameSpec {
  type Byte = x: int | 0 <= x < 256
  type Bytes = seq<Byte>

  const FRAME_HEADER_LENGTH: nat := 4
  const MAX_UINT32: nat := 0xffff_ffff

  function BigEndian(header: Bytes): (n: nat)
    requires |header| == FRAME_HEADER_LENGTH
    ensures n <= MAX_UINT32
  {
    header[0] as int * 0x100_0000 + header[1] as int * 0x1_0000 + header[2] as int * 0x100 + header[3] as int
  }

  /** The four bytes that a length leaves in a byte array: each shift is truncated to eight bits. */
  function Header(length: nat): (h: Bytes)
    ensures |h| == FRAME_HEADER_LENGTH
  {
    [length / 0x100_0000 % 256, length / 0x1_0000 % 256, length / 0x100 % 256, length % 256]
  }

  lemma HeaderRoundTrip(length: nat)
    requires length <= MAX_UINT32
    ensures BigEndian(Header(length)) == length
  {
    var a, b, c := length / 0x100, length / 0x1_0000, length / 0x100_0000;
    assert length == a * 0x100 + length % 256;
    assert b == a / 0x100 && c == b / 0x100;
  }

  lemma BigEndianRoundTrip(header: Bytes)
    requires |header| == FRAME_HEADER_LENGTH
    ensures Header(BigEndian(header)) == header
  {
    var n := BigEndian(header);
    assert n / 0x100 == header[0] as int * 0x1_0000 + header[1] as int * 0x100 + header[2] as int;
    assert n / 0x1_0000 == header[0] as int * 0x100 + header[1] as int;
    assert n / 0x100_0000 == header[0];
  }

  function Frame(payload: Bytes): Bytes {
    Header(|payload|) + payload
  }

  function Concat(chunks: seq<Bytes>): Bytes {
    if chunks == [] then [] else chunks[0] + Concat(chunks[1..])
  }

  function EncodeAll(payloads: seq<Bytes>): Bytes {
    if payloads == [] then [] else Frame(payloads[0]) + EncodeAll(payloads[1..])
  }

  ghost predicate AllWithin(payloads: seq<Bytes>, max: nat) {
    forall p :: p in payloads ==> |p| <= max
  }

  /** What the start of a byte stream says. */
  datatype Head = Incomplete | Oversized | Complete(payload: Bytes, rest: Bytes)

  function First(bytes: Bytes, max: nat): (head: Head)
    ensures head.Complete? ==> |head.rest| < |bytes|
  {
    if |bytes| < FRAME_HEADER_LENGTH then Incomplete
    else
      var n := BigEndian(bytes[..FRAME_HEADER_LENGTH]);
      if n > max then Oversized
      else if |bytes| < FRAME_HEADER_LENGTH + n then Incomplete
      else Complete(bytes[FRAME_HEADER_LENGTH..FRAME_HEADER_LENGTH + n], bytes[FRAME_HEADER_LENGTH + n..])
  }

  /** A decided head stays decided when more bytes arrive. */
  lemma FirstAppend(s: Bytes, t: Bytes, max: nat)
    ensures First(s, max).Oversized? ==> First(s + t, max).Oversized?
    ensures First(s, max).Complete? ==> First(s + t, max) == First(s, max).(rest := First(s, max).rest + t)
  {
    if |s| >= FRAME_HEADER_LENGTH {
      assert (s + t)[..FRAME_HEADER_LENGTH] == s[..FRAME_HEADER_LENGTH];
      var end := FRAME_HEADER_LENGTH + BigEndian(s[..FRAME_HEADER_LENGTH]);
      if end <= |s| {
        assert (s + t)[end..] == s[end..] + t;
        assert (s + t)[FRAME_HEADER_LENGTH..end] == s[FRAME_HEADER_LENGTH..end];
      }
    }
  }

  lemma FirstOfFrame(payload: Bytes, tail: Bytes, max: nat)
    requires |payload| <= max <= MAX_UINT32
    ensures First(Frame(payload) + tail, max) == Complete(payload, tail)
  {
    HeaderRoundTrip(|payload|);
    var bytes := Frame(payload) + tail;
    assert bytes[..FRAME_HEADER_LENGTH] == Header(|payload|);
    assert bytes[FRAME_HEADER_LENGTH..FRAME_HEADER_LENGTH + |payload|] == payload;
    assert bytes[FRAME_HEADER_LENGTH + |payload|..] == tail;
  }

  lemma FirstIsFrame(bytes: Bytes, max: nat)
    requires First(bytes, max).Complete?
    ensures var head := First(bytes, max);
            |head.payload| <= max && bytes == Frame(head.payload) + head.rest
  {
    BigEndianRoundTrip(bytes[..FRAME_HEADER_LENGTH]);
  }

  /**
   What a whole byte stream means under a length limit: the complete payloads, the bytes after the
   last complete one, and whether those bytes start with a header that declares too long a payload.
   */
  datatype Parsed = Parsed(frames: seq<Bytes>, rest: Bytes, oversized: bool)

  function Parse(bytes: Bytes, max: nat): Parsed
    decreases |bytes|
  {
    match First(bytes, max)
    case Incomplete => Parsed([], bytes, false)
    case Oversized => Parsed([], bytes, true)
    case Complete(payload, rest) => Prepend([payload], Parse(rest, max))
  }

  function Prepend(frames: seq<Bytes>, p: Parsed): Parsed {
    p.(frames := frames + p.frames)
  }

  /** Parsing stops at the first incomplete frame, so what arrives later only extends the result. */
  lemma {:induction false} ParseAppend(s: Bytes, t: Bytes, max: nat)
    ensures var p := Parse(s, max);
            Parse(s + t, max) == if p.oversized then Parsed(p.frames, p.rest + t, true)
                                 else Prepend(p.frames, Parse(p.rest + t, max))
    decreases |s|
  {
    FirstAppend(s, t, max);
    hide First;
    match First(s, max)
    case Incomplete =>
      assert Prepend([], Parse(s + t, max)) == Parse(s + t, max);
    case Oversized =>
    case Complete(payload, rest) =>
      ParseAppend(rest, t, max);
      var q := Parse(rest, max);
      var last := Parse(q.rest + t, max);
      assert [payload] + (q.frames + last.frames) == [payload] + q.frames + last.frames;
  }

  /** Round trip: parsing an encoded payload list, followed by anything, gives the payloads first. */
  lemma {:induction false} ParseEncoded(payloads: seq<Bytes>, more: Bytes, max: nat)
    requires max <= MAX_UINT32 && AllWithin(payloads, max)
    ensures Parse(EncodeAll(payloads) + more, max) == Prepend(payloads, Parse(more, max))
  {
    hide First, Frame;
    if payloads == [] {
      assert EncodeAll(payloads) + more == more;
      assert [] + Parse(more, max).frames == Parse(more, max).frames;
    } else {
      var p, tail := payloads[0], EncodeAll(payloads[1..]) + more;
      assert p in payloads;
      FirstOfFrame(p, tail, max);
      assert EncodeAll(payloads) + more == Frame(p) + tail;
      ParseEncoded(payloads[1..], more, max);
      assert [p] + (payloads[1..] + Parse(more, max).frames) == payloads + Parse(more, max).frames;
    }
  }

  /** The converse: the parsed payloads are within the limit and re-encode to the bytes consumed. */
  lemma {:induction false} ParseSound(bytes: Bytes, max: nat)
    ensures var p := Parse(bytes, max);
            bytes == EncodeAll(p.frames) + p.rest && AllWithin(p.frames, max) &&
            Parse(p.rest, max) == Parsed([], p.rest, p.oversized)
    decreases |bytes|
  {
    match First(bytes, max)
    case Complete(payload, rest) =>
      FirstIsFrame(bytes, max);
      ParseSound(rest, max);
      var p, q := Parse(bytes, max), Parse(rest, max);
      assert p.frames[1..] == q.frames;
      assert Frame(payload) + (EncodeAll(q.frames) + q.rest) == EncodeAll(p.frames) + p.rest;
    case _ =>
      assert EncodeAll([]) + bytes == bytes;
  }

  /** A payload list can be read back in one way only: EncodeAll is injective within the limit. */
  lemma EncodingIsUnique(a: seq<Bytes>, b: seq<Bytes>, max: nat)
    requires max <= MAX_UINT32 && AllWithin(a, max) && AllWithin(b, max)
    requires EncodeAll(a) == EncodeAll(b)
    ensures a == b
  {
    ParseEncoded(a, [], max);
    ParseEncoded(b, [], max);
    assert EncodeAll(a) + [] == EncodeAll(b) + [] == EncodeAll(a);
    assert a + [] == a && b + [] == b;
  }

  /** What a decoder has done after a list of chunks: `failed` latches and stops delivery. */
  datatype Stream = Stream(delivered: seq<Bytes>, pending: Bytes, failed: bool)

  /** The effect of one push; the frames completed by the failing push are not delivered. */
  function PushStream(s: Stream, chunk: Bytes, max: nat): Stream {
    if s.failed then s
    else
      var p := Parse(s.pending + chunk, max);
      if p.oversized then Stream(s.delivered, [], true)
      else Stream(s.delivered + p.frames, p.rest, false)
  }

  function PushAll(s: Stream, chunks: seq<Bytes>, max: nat): Stream
    decreases |chunks|
  {
    if chunks == [] then s else PushAll(PushStream(s, chunks[0], max), chunks[1..], max)
  }

  lemma {:induction false} PushAllFrom(s: Stream, chunks: seq<Bytes>, max: nat)
    requires !s.failed
    ensures var p := Parse(s.pending + Concat(chunks), max);
            var r := PushAll(s, chunks, max);
            && (!p.oversized && Parse(s.pending, max) == Parsed([], s.pending, false) ==>
                  r == Stream(s.delivered + p.frames, p.rest, false))
            && (p.oversized && Parse(s.pending, max) == Parsed([], s.pending, false) ==>
                  r.failed && r.pending == [] && s.delivered <= r.delivered <= s.delivered + p.frames)
    decreases |chunks|
  {
    hide First, Parse;
    if chunks == [] {
      assert s.pending + Concat(chunks) == s.pending;
      assert s.delivered + [] == s.delivered;
    } else {
      var now := s.pending + chunks[0];
      assert s.pending + Concat(chunks) == now + Concat(chunks[1..]);
      ParseAppend(now, Concat(chunks[1..]), max);
      ParseSound(now, max);
      var p := Parse(now, max);
      var s' := PushStream(s, chunks[0], max);
      if s'.failed {
        StaysFailed(s', chunks[1..], max);
        assert s.delivered <= s.delivered + p.frames;
      } else {
        PushAllFrom(s', chunks[1..], max);
        var q := Parse(p.rest + Concat(chunks[1..]), max);
        assert s.delivered + (p.frames + q.frames) == s.delivered + p.frames + q.frames;
      }
    }
  }

  lemma {:induction false} StaysFailed(s: Stream, chunks: seq<Bytes>, max: nat)
    requires s.failed
    ensures PushAll(s, chunks, max) == s
    decreases |chunks|
  {
    if chunks != [] { StaysFailed(s, chunks[1..], max); }
  }

  /**
   Chunking never matters: what a decoder delivers for a chunk list is what the concatenated bytes
   mean. Only the failing push can lose frames, and then a prefix of them has been delivered.
   */
  lemma ChunkIndependence(chunks: seq<Bytes>, max: nat)
    ensures var p := Parse(Concat(chunks), max);
            var r := PushAll(Stream([], [], false), chunks, max);
            && r.failed == p.oversized
            && (!p.oversized ==> r.delivered == p.frames && r.pending == p.rest)
            && (p.oversized ==> r.delivered <= p.frames)
  {
    PushAllFrom(Stream([], [], false), chunks, max);
    var p := Parse(Concat(chunks), max);
    assert [] + Concat(chunks) == Concat(chunks);
    assert [] + p.frames == p.frames;
  }

  /** Every splitting of an encoded payload list delivers exactly the payloads, with nothing pending. */
  lemma EverySplitDecodes(payloads: seq<Bytes>, chunks: seq<Bytes>, max: nat)
    requires max <= MAX_UINT32 && AllWithin(payloads, max)
    requires Concat(chunks) == EncodeAll(payloads)
    ensures PushAll(Stream([], [], false), chunks, max) == Stream(payloads, [], false)
  {
    ChunkIndependence(chunks, max);
    ParseEncoded(payloads, [], max);
    assert EncodeAll(payloads) + [] == EncodeAll(payloads);
    assert payloads + [] == payloads;
  }
}
