/**
 Message codec over the framing layer. Serialization and schema validation are parameters:
 `encode` gives the payload of a valid message, `decode` the message of a valid payload.
 */
module Codec {
  import opened Wrappers
  import opened FrameSpec
  import opened Framing

  datatype CodecError = InvalidMessage | EncodingFailed | DecoderHasFailed | InvalidFrame

  /** Encodes one message; every frame it produces is one a decoder with the same limit accepts. */
  method EncodeMessage<T>(message: T, encode: T -> Option<Bytes>, maxFrameLength: nat)
    returns (r: Result<array<Byte>, CodecError>)
    requires maxFrameLength <= MAX_UINT32
    ensures r.Success? <==> encode(message).Some? && |encode(message).value| <= maxFrameLength
    ensures r.Success? ==> fresh(r.value) && r.value[..] == Frame(encode(message).value)
  {
    var encoded := encode(message);
    if encoded.None? { return Failure(InvalidMessage); }
    var payload := new Byte[|encoded.value|](i requires 0 <= i < |encoded.value| => encoded.value[i]);
    assert payload[..] == encoded.value;
    var frame := EncodeFrame(payload);
    if frame.Failure? { return Failure(EncodingFailed); }
    var complete := AssertCompleteFrame(frame.value, maxFrameLength);
    if complete.Failure? { return Failure(EncodingFailed); }
    ghost var p :| |p| <= maxFrameLength && Frame(p) == frame.value[..];
    assert |Frame(p)| == |Frame(encoded.value)|;
    return Success(frame.value);
  }

  /** The messages of a list of payloads, if all of them are valid. */
  function DecodeAll<T>(frames: seq<Bytes>, decode: Bytes -> Option<T>): (r: Option<seq<T>>)
    ensures r.Some? ==> |r.value| == |frames|
  {
    if frames == [] then Some([])
    else
      var first, rest := decode(frames[0]), DecodeAll(frames[1..], decode);
      if first.Some? && rest.Some? then Some([first.value] + rest.value) else None
  }

  /** The messages before the first invalid payload. */
  function ValidPrefix<T>(frames: seq<Bytes>, decode: Bytes -> Option<T>): seq<T> {
    if frames == [] || decode(frames[0]).None? then [] else [decode(frames[0]).value] + ValidPrefix(frames[1..], decode)
  }

  lemma {:induction false} DecodeConcat<T>(a: seq<Bytes>, b: seq<Bytes>, decode: Bytes -> Option<T>)
    ensures DecodeAll(a, decode).Some? ==> ValidPrefix(a, decode) == DecodeAll(a, decode).value
    ensures DecodeAll(a, decode).Some? ==>
            ValidPrefix(a + b, decode) == DecodeAll(a, decode).value + ValidPrefix(b, decode)
    ensures DecodeAll(a, decode).Some? && DecodeAll(b, decode).Some? ==>
              DecodeAll(a + b, decode) == Some(DecodeAll(a, decode).value + DecodeAll(b, decode).value)
    ensures DecodeAll(a, decode).None? || DecodeAll(b, decode).None? ==> DecodeAll(a + b, decode).None?
    ensures ValidPrefix(a, decode) <= ValidPrefix(a + b, decode)
  {
    if a == [] {
      assert a + b == b;
      assert DecodeAll(b, decode).Some? ==> [] + DecodeAll(b, decode).value == DecodeAll(b, decode).value;
    } else {
      DecodeConcat(a[1..], b, decode);
      assert (a + b)[0] == a[0] && (a + b)[1..] == a[1..] + b;
      if DecodeAll(a, decode).Some? && DecodeAll(b, decode).Some? {
        var first, others := decode(a[0]).value, DecodeAll(a[1..], decode).value;
        assert [first] + (others + DecodeAll(b, decode).value) == [first] + others + DecodeAll(b, decode).value;
      }
    }
  }

  /** What a message decoder has done after some chunks. */
  datatype Messages<T> = Messages(delivered: seq<T>, pending: Bytes, failed: bool)

  function PushMessages<T>(s: Messages<T>, chunk: Bytes, max: nat, decode: Bytes -> Option<T>): Messages<T> {
    if s.failed then s
    else
      var p := Parse(s.pending + chunk, max);
      if p.oversized then Messages(s.delivered, [], true)
      else
        match DecodeAll(p.frames, decode)
        case Some(messages) => Messages(s.delivered + messages, p.rest, false)
        case None => Messages(s.delivered, p.rest, true)
  }

  function PushMessagesAll<T>(s: Messages<T>, chunks: seq<Bytes>, max: nat, decode: Bytes -> Option<T>): Messages<T>
    decreases |chunks|
  {
    if chunks == [] then s else PushMessagesAll(PushMessages(s, chunks[0], max, decode), chunks[1..], max, decode)
  }

  lemma {:induction false} FailureLatches<T>(s: Messages<T>, chunks: seq<Bytes>, max: nat, decode: Bytes -> Option<T>)
    requires s.failed
    ensures PushMessagesAll(s, chunks, max, decode) == s
    decreases |chunks|
  {
    if chunks != [] { FailureLatches(s, chunks[1..], max, decode); }
  }

  /** The stream a decoder has yet to see, of which `parsed` is the meaning, extends what was delivered. */
  ghost predicate Outcome<T>(r: Messages<T>, before: seq<T>, parsed: Parsed, decode: Bytes -> Option<T>) {
    var all := DecodeAll(parsed.frames, decode);
    && r.failed == (parsed.oversized || all.None?)
    && (!r.failed ==> r.delivered == before + all.value && r.pending == parsed.rest)
    && before <= r.delivered <= before + ValidPrefix(parsed.frames, decode)
  }

  lemma {:induction false} PushMessagesFrom<T>(s: Messages<T>, chunks: seq<Bytes>, max: nat, decode: Bytes -> Option<T>)
    requires !s.failed && Parse(s.pending, max) == Parsed([], s.pending, false)
    ensures Outcome(PushMessagesAll(s, chunks, max, decode), s.delivered, Parse(s.pending + Concat(chunks), max),
            decode)
    decreases |chunks|
  {
    hide First, Parse, ValidPrefix;
    if chunks == [] {
      assert s.pending + Concat(chunks) == s.pending;
      assert s.delivered + [] == s.delivered;
    } else {
      var now, more := s.pending + chunks[0], Concat(chunks[1..]);
      assert s.pending + Concat(chunks) == now + more;
      ParseAppend(now, more, max);
      ParseSound(now, max);
      var p := Parse(now, max);
      var q := Parse(p.rest + more, max);
      var s' := PushMessages(s, chunks[0], max, decode);
      if s'.failed {
        FailureLatches(s', chunks[1..], max, decode);
        OutcomeFailed(s', s.delivered, p, if p.oversized then Parsed([], [], true) else q, decode);
      } else {
        PushMessagesFrom(s', chunks[1..], max, decode);
        OutcomeChain(PushMessagesAll(s', chunks[1..], max, decode), s.delivered, p, q, decode);
      }
    }
  }

  lemma OutcomeFailed<T>(r: Messages<T>, before: seq<T>, p: Parsed, q: Parsed, decode: Bytes -> Option<T>)
    requires r.failed && r.delivered == before
    requires (p.oversized && q.frames == [] && q.oversized) || DecodeAll(p.frames, decode).None?
    ensures forall rest :: Outcome(r, before, Parsed(p.frames + q.frames, rest, q.oversized), decode)
  {
    DecodeConcat(p.frames, q.frames, decode);
    assert p.oversized && q.frames == [] ==> p.frames + q.frames == p.frames;
  }

  lemma OutcomeChain<T>(r: Messages<T>, before: seq<T>, p: Parsed, q: Parsed, decode: Bytes -> Option<T>)
    requires DecodeAll(p.frames, decode).Some? && !p.oversized
    requires Outcome(r, before + DecodeAll(p.frames, decode).value, q, decode)
    ensures Outcome(r, before, Prepend(p.frames, q), decode)
  {
    DecodeConcat(p.frames, q.frames, decode);
    var first := DecodeAll(p.frames, decode).value;
    assert before + (first + ValidPrefix(q.frames, decode)) == before + first + ValidPrefix(q.frames, decode);
    if DecodeAll(q.frames, decode).Some? {
      var second := DecodeAll(q.frames, decode).value;
      assert before + (first + second) == before + first + second;
    }
  }

  /**
   For every chunking, a decoder fails exactly when the whole stream declares an oversized frame or
   holds an invalid payload; otherwise it delivers exactly the stream's messages, and it never
   delivers anything but a prefix of the messages before the first invalid payload.
   */
  lemma MessageChunkIndependence<T>(chunks: seq<Bytes>, max: nat, decode: Bytes -> Option<T>)
    ensures Outcome(PushMessagesAll(Messages([], [], false), chunks, max, decode), [], Parse(Concat(chunks), max),
            decode)
  {
    PushMessagesFrom(Messages([], [], false), chunks, max, decode);
    assert [] + Concat(chunks) == Concat(chunks);
  }

  function Payloads<T>(messages: seq<T>, encode: T -> Option<Bytes>): (p: seq<Bytes>)
    requires forall m :: m in messages ==> encode(m).Some?
    ensures |p| == |messages|
  {
    if messages == [] then [] else [encode(messages[0]).value] + Payloads(messages[1..], encode)
  }

  /** End to end: however the encoded messages are split, exactly these messages come out. */
  lemma MessageRoundTrip<T>(messages: seq<T>, chunks: seq<Bytes>, max: nat,
                            encode: T -> Option<Bytes>, decode: Bytes -> Option<T>)
    requires max <= MAX_UINT32
    requires forall m :: m in messages ==>
               encode(m).Some? && |encode(m).value| <= max && decode(encode(m).value) == Some(m)
    requires Concat(chunks) == EncodeAll(Payloads(messages, encode))
    ensures PushMessagesAll(Messages([], [], false), chunks, max, decode) == Messages(messages, [], false)
  {
    var payloads := Payloads(messages, encode);
    PayloadsDecode(messages, max, encode, decode);
    ParseEncoded(payloads, [], max);
    assert EncodeAll(payloads) + [] == EncodeAll(payloads);
    assert payloads + [] == payloads;
    MessageChunkIndependence(chunks, max, decode);
    assert [] + messages == messages;
  }

  lemma {:induction false} PayloadsDecode<T>(messages: seq<T>, max: nat, encode: T -> Option<Bytes>,
                                             decode: Bytes -> Option<T>)
    requires forall m :: m in messages ==>
               encode(m).Some? && |encode(m).value| <= max && decode(encode(m).value) == Some(m)
    ensures AllWithin(Payloads(messages, encode), max)
    ensures DecodeAll(Payloads(messages, encode), decode) == Some(messages)
  {
    if messages != [] {
      assert messages[0] in messages;
      PayloadsDecode(messages[1..], max, encode, decode);
      assert messages == [messages[0]] + messages[1..];
    }
  }

  /** The stateful decoder: a frame decoder and a failure flag that, once set, stays set. */
  class MessageDecoder<T> {
    var failed: bool
    const frames: FrameDecoder
    const decode: Bytes -> Option<T>

    /** Every array the decoder owns, and the decoder objects themselves. */
    ghost function Footprint(): set<object>
      reads this, frames
    {
      {this, frames} + frames.Buffers()
    }

    ghost predicate Valid()
      reads this, frames, frames.header, frames.payloadBlocks
    {
      && this !in frames.Buffers() && frames !in frames.Buffers()
      && frames.Valid()
      && (frames.state == Failed ==> failed)
      && (!failed ==> frames.state != Failed)
    }

    constructor (maxFrameLength: nat, decode: Bytes -> Option<T>)
      requires maxFrameLength <= MAX_UINT32
      ensures Valid() && !failed && frames.state == Open && frames.Pending() == []
      ensures frames.maxFrameLength == maxFrameLength && this.decode == decode
      ensures fresh(Footprint())
    {
      var decoder := new FrameDecoder(maxFrameLength);
      this.frames := decoder;
      this.decode := decode;
      this.failed := false;
    }

    method Push(chunk: array<Byte>) returns (r: Result<seq<T>, CodecError>)
      requires Valid() && chunk !in frames.Buffers()
      modifies this, frames, frames.Buffers()
      ensures Valid() && chunk !in frames.Buffers() && fresh(frames.Buffers() - old(frames.Buffers()))
      ensures old(failed) ==> r == Failure(DecoderHasFailed) && failed
      ensures !old(failed) && old(frames.state) == Ended ==> r == Failure(InvalidFrame) && failed
      ensures !old(failed) && old(frames.state) == Open ==>
                var s := PushMessages(Messages([], old(frames.Pending()), false), chunk[..], frames.maxFrameLength,
                  decode);
                && failed == s.failed
                && (failed ==> r == Failure(InvalidFrame))
                && (!failed ==> r == Success(s.delivered) && frames.Pending() == s.pending && frames.state == Open)
    {
      hide First, Parse, DecodeAll;
      if failed { return Failure(DecoderHasFailed); }
      ghost var parsed := Parse(frames.Pending() + chunk[..], frames.maxFrameLength);
      assert [] + parsed.frames == parsed.frames;
      var payloads := frames.Push(chunk);
      if payloads.Failure? {
        failed := true;
        return Failure(InvalidFrame);
      }
      var messages := DecodeFrames(payloads.value);
      assert messages.Some? ==> [] + messages.value == messages.value;
      if messages.None? {
        failed := true;
        return Failure(InvalidFrame);
      }
      return Success(messages.value);
    }

    method DecodeFrames(payloads: seq<array<Byte>>) returns (r: Option<seq<T>>)
      ensures r == DecodeAll(Contents(payloads), decode)
    {
      var messages := [];
      ghost var contents := Contents(payloads);
      for i := 0 to |payloads|
        invariant Some(messages) == DecodeAll(contents[..i], decode)
      {
        ContentsAt(payloads, i);
        var message := decode(payloads[i][..]);
        assert contents == contents[..i] + [contents[i]] + contents[i + 1..];
        ghost var single: seq<Bytes> := [contents[i]];
        assert single[1..] == [] && (message.Some? ==> [message.value] + [] == [message.value]);
        assert DecodeAll(single, decode) == if message.Some? then Some([message.value]) else None;
        DecodeConcat(contents[..i], [contents[i]], decode);
        if message.None? {
          DecodeConcat(contents[..i] + [contents[i]], contents[i + 1..], decode);
          return None;
        }
        messages := messages + [message.value];
        assert contents[..i + 1] == contents[..i] + [contents[i]];
      }
      assert contents[..|payloads|] == contents;
      return Some(messages);
    }

    method End() returns (r: Result<(), CodecError>)
      requires Valid()
      modifies this, frames
      ensures Valid()
      ensures r.Success? <==> !old(failed) && old(frames.state) == Open && old(frames.Pending()) == []
      ensures r.Failure? ==> failed
      ensures r.Success? ==> !failed && frames.state == Ended
    {
      if failed { return Failure(DecoderHasFailed); }
      var ended := frames.End();
      if ended.Failure? {
        failed := true;
        return Failure(InvalidFrame);
      }
      return Success(());
    }
  }
}
