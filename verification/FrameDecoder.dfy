/** Encoding of single frames, and the incremental decoder with its header buffer and payload blocks. */
module Framing {
  import opened Wrappers
  import opened FrameSpec

  const PAYLOAD_BLOCK_SIZE: nat := 0x1_0000

  datatype FrameError =
    | DecoderEnded
    | DecoderFailed
    | LimitExceeded
    | Truncated
    | IncompleteHeader
    | NotOneFrame
    | PayloadTooLong
  datatype DecoderState = Open | Ended | Failed

  /** Where the block at an index starts in its payload. */
  function BlockStart(index: nat): nat { index * 0x1_0000 }

  /** A full block holds its part of the payload. */
  ghost predicate Holds(block: Bytes, payload: Bytes, index: nat) {
    && |block| == PAYLOAD_BLOCK_SIZE
    && BlockStart(index) + PAYLOAD_BLOCK_SIZE <= |payload|
    && block == payload[BlockStart(index)..BlockStart(index) + PAYLOAD_BLOCK_SIZE]
  }

  lemma HoldsExtends(block: Bytes, payload: Bytes, index: nat, more: Bytes)
    requires Holds(block, payload, index)
    ensures Holds(block, payload + more, index)
  {
  }

  function Min(a: int, b: int): int { if a < b then a else b }

  /** The current contents of a list of returned frames. */
  function Contents(frames: seq<array<Byte>>): (c: seq<Bytes>)
    reads frames
    ensures |c| == |frames|
  {
    if frames == [] then [] else Contents(frames[..|frames| - 1]) + [frames[|frames| - 1][..]]
  }

  lemma ContentsSnoc(frames: seq<array<Byte>>, frame: array<Byte>)
    ensures Contents(frames + [frame]) == Contents(frames) + [frame[..]]
  {
    assert (frames + [frame])[..|frames|] == frames;
  }

  lemma {:induction false} ContentsAt(frames: seq<array<Byte>>, i: nat)
    requires i < |frames|
    ensures Contents(frames)[i] == frames[i][..]
  {
    if i < |frames| - 1 { ContentsAt(frames[..|frames| - 1], i); }
  }

  function TotalLength(blocks: seq<array<Byte>>): nat {
    if blocks == [] then 0 else TotalLength(blocks[..|blocks| - 1]) + blocks[|blocks| - 1].Length
  }

  lemma {:induction false} TotalLengthOfFull(blocks: seq<array<Byte>>)
    requires forall b :: b in blocks ==> b.Length == PAYLOAD_BLOCK_SIZE
    ensures TotalLength(blocks) == BlockStart(|blocks|)
  {
    if blocks != [] { TotalLengthOfFull(blocks[..|blocks| - 1]); }
  }

  /** `dst.set(src.subarray(from, from + n), at)`. */
  method SetBytes(dst: array<Byte>, at: nat, src: array<Byte>, from: nat, n: nat)
    requires at + n <= dst.Length && from + n <= src.Length
    modifies dst
    ensures dst[at..at + n] == old(src[from..from + n])
    ensures dst[..at] == old(dst[..at]) && dst[at + n..] == old(dst[at + n..])
  {
    forall i | 0 <= i < n { dst[at + i] := src[from + i]; }
  }

  method EncodeFrame(payload: array<Byte>) returns (r: Result<array<Byte>, FrameError>)
    ensures r.Failure? <==> payload.Length > MAX_UINT32
    ensures r.Success? ==> fresh(r.value) && r.value[..] == Frame(payload[..])
  {
    if payload.Length > MAX_UINT32 { return Failure(PayloadTooLong); }
    var length: nat := payload.Length;
    var frame := new Byte[FRAME_HEADER_LENGTH + length](_ => 0);
    frame[0] := length / 0x100_0000 % 256;
    frame[1] := length / 0x1_0000 % 256;
    frame[2] := length / 0x100 % 256;
    frame[3] := length % 256;
    assert frame[..FRAME_HEADER_LENGTH] == Header(length);
    SetBytes(frame, FRAME_HEADER_LENGTH, payload, 0, length);
    assert frame[..] == frame[..FRAME_HEADER_LENGTH] + frame[FRAME_HEADER_LENGTH..FRAME_HEADER_LENGTH + length];
    assert payload[0..length] == payload[..];
    return Success(frame);
  }

  /** Accepts exactly the encodings of one payload within the limit, and says what is wrong with anything else. */
  method AssertCompleteFrame(frame: array<Byte>, maxFrameLength: nat) returns (r: Result<(), FrameError>)
    requires maxFrameLength <= MAX_UINT32
    ensures r.Success? <==> exists payload :: |payload| <= maxFrameLength && frame[..] == Frame(payload)
    ensures r == Failure(IncompleteHeader) <==> frame.Length < FRAME_HEADER_LENGTH
    ensures r == Failure(LimitExceeded) <==>
            frame.Length >= FRAME_HEADER_LENGTH && BigEndian(frame[..FRAME_HEADER_LENGTH]) > maxFrameLength
    ensures r == Failure(NotOneFrame) <==>
              && frame.Length >= FRAME_HEADER_LENGTH && BigEndian(frame[..FRAME_HEADER_LENGTH]) <= maxFrameLength
              && frame.Length != FRAME_HEADER_LENGTH + BigEndian(frame[..FRAME_HEADER_LENGTH])
  {
    hide Header, BigEndian;
    if frame.Length < FRAME_HEADER_LENGTH {
      return Failure(IncompleteHeader);
    }
    var header := frame[..FRAME_HEADER_LENGTH];
    var length := BigEndian(header);
    forall payload | |payload| <= maxFrameLength && frame[..] == Frame(payload)
      ensures length == |payload|
    {
      assert frame[..][..FRAME_HEADER_LENGTH] == Header(|payload|);
      HeaderRoundTrip(|payload|);
    }
    if length > maxFrameLength { return Failure(LimitExceeded); }
    if frame.Length != FRAME_HEADER_LENGTH + length { return Failure(NotOneFrame); }
    BigEndianRoundTrip(header);
    assert frame[..] == Frame(frame[FRAME_HEADER_LENGTH..]);
    return Success(());
  }

  /**
   What processing some bytes of a chunk does to the unread bytes: it fails on their head, hands out
   their first payload, or only moves bytes from the chunk into the decoder.
   */
  ghost predicate Consumed(unread: Bytes, max: nat, state: DecoderState, frame: Option<array<Byte>>, unreadAfter: Bytes)
    reads if frame.Some? then {frame.value} else {}
  {
    if state == Failed then First(unread, max).Oversized?
    else if frame.Some? then First(unread, max) == Complete(frame.value[..], unreadAfter)
    else unreadAfter == unread
  }

  /** `frames` are the frames of `whole` that end before its last part `unread`. */
  ghost predicate Found(whole: Bytes, max: nat, frames: seq<array<Byte>>, unread: Bytes)
    reads frames
  {
    Parse(whole, max) == Prepend(Contents(frames), Parse(unread, max))
  }

  lemma NothingFound(whole: Bytes, max: nat, frames: seq<array<Byte>>)
    requires frames == []
    ensures Found(whole, max, frames, whole)
  {
    hide First;
  }

  lemma FoundConsumed(whole: Bytes, unread: Bytes, max: nat, state: DecoderState, frame: Option<array<Byte>>,
                      unreadAfter: Bytes, frames: seq<array<Byte>>)
    requires Found(whole, max, frames, unread) && Consumed(unread, max, state, frame, unreadAfter)
    ensures state == Failed ==> Parse(whole, max).oversized
    ensures state != Failed ==>
              Found(whole, max, if frame.Some? then frames + [frame.value] else frames, unreadAfter)
  {
    hide First;
    if state != Failed && frame.Some? {
      ContentsSnoc(frames, frame.value);
      assert Contents(frames) + ([frame.value[..]] + Parse(unreadAfter, max).frames)
          == Contents(frames) + [frame.value[..]] + Parse(unreadAfter, max).frames;
    }
  }

  lemma OversizedHeader(header: Bytes, rest: Bytes, max: nat)
    requires |header| == FRAME_HEADER_LENGTH && BigEndian(header) > max
    ensures First(header + rest, max).Oversized?
  {
    assert (header + rest)[..FRAME_HEADER_LENGTH] == header;
  }

  lemma FirstOfHeader(header: Bytes, payload: Bytes, rest: Bytes, max: nat)
    requires |header| == FRAME_HEADER_LENGTH && |payload| == BigEndian(header) <= max
    ensures First(header + payload + rest, max) == Complete(payload, rest)
  {
    var bytes := header + payload + rest;
    assert bytes[..FRAME_HEADER_LENGTH] == header;
    assert bytes[FRAME_HEADER_LENGTH..FRAME_HEADER_LENGTH + |payload|] == payload;
    assert bytes[FRAME_HEADER_LENGTH + |payload|..] == rest;
  }

  class FrameDecoder {
    const maxFrameLength: nat
    const header: array<Byte>
    var headerLength: nat
    var payloadBlocks: seq<array<Byte>>
    var currentPayloadBlock: array?<Byte>
    var currentPayloadBlockLength: nat
    var expectedPayloadLength: Option<nat>
    var payloadLength: nat
    var state: DecoderState
    /** The payload bytes collected so far. */
    ghost var received: Bytes

    /** The arrays that only the decoder writes. */
    ghost function Buffers(): set<object>
      reads this
    {
      {header} + set b | b in payloadBlocks
    }

    /** Every block but the last is full and the last is the current one; together they hold `received`. */
    ghost predicate BlocksValid(expected: nat)
      reads this, payloadBlocks
    {
      if payloadBlocks == [] then currentPayloadBlock == null && currentPayloadBlockLength == 0 && received == []
      else
        var last := |payloadBlocks| - 1;
        && currentPayloadBlock == payloadBlocks[last]
        && |received| == BlockStart(last) + currentPayloadBlockLength
        && currentPayloadBlockLength <= currentPayloadBlock.Length
        && currentPayloadBlock.Length == Min(PAYLOAD_BLOCK_SIZE, expected - BlockStart(last))
        && payloadBlocks[last][..currentPayloadBlockLength] == received[BlockStart(last)..]
        && (forall i :: 0 <= i < last ==>
              payloadBlocks[i] != payloadBlocks[last] && Holds(payloadBlocks[i][..], received, i))
    }

    /** What holds while a chunk is being processed. */
    ghost predicate Shaped()
      reads this, header, payloadBlocks
    {
      && header.Length == FRAME_HEADER_LENGTH
      && maxFrameLength <= MAX_UINT32
      && header !in payloadBlocks
      && headerLength < FRAME_HEADER_LENGTH
      && payloadLength == |received|
      && (expectedPayloadLength.None? ==> received == [] && payloadBlocks == [] && BlocksValid(0))
      && (expectedPayloadLength.Some? ==>
            && headerLength == 0
            && expectedPayloadLength.value == BigEndian(header[..])
            && 0 < expectedPayloadLength.value <= maxFrameLength
            && payloadLength <= expectedPayloadLength.value
            && BlocksValid(expectedPayloadLength.value))
      && (state != Open ==> headerLength == 0 && expectedPayloadLength.None?)
    }

    /** What holds between calls: no collected payload is complete, and no open block is unused. */
    ghost predicate Valid()
      reads this, header, payloadBlocks
    {
      && Shaped()
      && (payloadBlocks != [] ==> currentPayloadBlockLength > 0)
      && (expectedPayloadLength.Some? ==> payloadLength < expectedPayloadLength.value)
    }

    /** The bytes received that belong to no returned frame yet. */
    ghost function Pending(): Bytes
      requires Shaped()
      reads this, header, payloadBlocks
    {
      if expectedPayloadLength.None? then header[..headerLength] else header[..] + received
    }

    /** The frames handed out share no memory with the decoder or with the chunk. */
    ghost predicate OwnedByCaller(frames: seq<array<Byte>>, chunk: array<Byte>)
      reads this
    {
      forall f :: f in frames ==> f !in Buffers() && f != chunk
    }

    lemma PendingIsIncomplete()
      requires Valid()
      ensures Parse(Pending(), maxFrameLength) == Parsed([], Pending(), false)
    {
      if expectedPayloadLength.Some? {
        assert Pending()[..FRAME_HEADER_LENGTH] == header[..];
      }
    }

    /** Block memory is bounded by what was received, whatever length a header declares. */
    lemma AllocationBound()
      requires Valid()
      ensures TotalLength(payloadBlocks) <= |received| + (PAYLOAD_BLOCK_SIZE - 1)
    {
      if payloadBlocks != [] {
        TotalLengthOfFull(payloadBlocks[..|payloadBlocks| - 1]);
      }
    }

    constructor (maxFrameLength: nat)
      requires maxFrameLength <= MAX_UINT32
      ensures Valid() && state == Open && Pending() == [] && this.maxFrameLength == maxFrameLength
      ensures fresh(Buffers())
    {
      this.maxFrameLength := maxFrameLength;
      header := new Byte[FRAME_HEADER_LENGTH](_ => 0);
      headerLength := 0;
      payloadBlocks := [];
      currentPayloadBlock := null;
      currentPayloadBlockLength := 0;
      expectedPayloadLength := None;
      payloadLength := 0;
      state := Open;
      received := [];
    }

    /** Copies header bytes up to the end of the header or of the chunk. */
    method ReadHeader(chunk: array<Byte>, offset: nat) returns (next: nat)
      requires Valid() && state == Open && expectedPayloadLength.None?
      requires offset < chunk.Length && chunk != header
      modifies header, this`headerLength
      ensures offset < next <= chunk.Length && headerLength <= FRAME_HEADER_LENGTH
      ensures header[..headerLength] == old(header[..headerLength]) + chunk[offset..next]
      ensures headerLength < FRAME_HEADER_LENGTH ==> next == chunk.Length
    {
      var headerBytes := Min(FRAME_HEADER_LENGTH - headerLength, chunk.Length - offset);
      SetBytes(header, headerLength, chunk, offset, headerBytes);
      headerLength := headerLength + headerBytes;
      next := offset + headerBytes;
    }

    /** Makes the current block one with room, opening a block when there is none. */
    method OpenBlock()
      requires Shaped() && state == Open
      requires expectedPayloadLength.Some? && payloadLength < expectedPayloadLength.value
      modifies `payloadBlocks, `currentPayloadBlock, `currentPayloadBlockLength
      ensures Shaped() && currentPayloadBlock != null && currentPayloadBlockLength < currentPayloadBlock.Length
      ensures currentPayloadBlock in payloadBlocks && fresh(Buffers() - old(Buffers()))
    {
      if currentPayloadBlock == null || currentPayloadBlockLength == currentPayloadBlock.Length {
        var block := new Byte[Min(PAYLOAD_BLOCK_SIZE, expectedPayloadLength.value - payloadLength)](_ => 0);
        ghost var full := payloadBlocks;
        ghost var last := |full| - 1;
        if full != [] {
          assert Holds(full[last][..], received, last) by {
            assert full[last].Length == PAYLOAD_BLOCK_SIZE;
            assert full[last][..] == full[last][..currentPayloadBlockLength];
            assert received[BlockStart(last)..] == received[BlockStart(last)..BlockStart(last) + PAYLOAD_BLOCK_SIZE];
          }
        }
        hide Holds;
        payloadBlocks := payloadBlocks + [block];
        currentPayloadBlock := block;
        currentPayloadBlockLength := 0;
        assert forall i :: 0 <= i < |full| ==> payloadBlocks[i] == full[i];
      }
    }

    method FillBlock(chunk: array<Byte>, offset: nat) returns (next: nat)
      requires Shaped() && state == Open && expectedPayloadLength.Some?
      requires currentPayloadBlock != null && currentPayloadBlockLength < currentPayloadBlock.Length
      requires offset < chunk.Length && chunk !in Buffers()
      modifies `currentPayloadBlockLength, `payloadLength, `received, currentPayloadBlock
      ensures Shaped() && offset < next <= chunk.Length && currentPayloadBlockLength > 0
      ensures received == old(received) + chunk[offset..next]
    {
      var payloadBytes := Min(currentPayloadBlock.Length - currentPayloadBlockLength, chunk.Length - offset);
      next := offset + payloadBytes;
      hide Holds;
      forall i | 0 <= i < |payloadBlocks| - 1
        ensures Holds(payloadBlocks[i][..], received + chunk[offset..next], i)
      {
        HoldsExtends(payloadBlocks[i][..], received, i, chunk[offset..next]);
      }
      SetBytes(currentPayloadBlock, currentPayloadBlockLength, chunk, offset, payloadBytes);
      currentPayloadBlockLength := currentPayloadBlockLength + payloadBytes;
      payloadLength := payloadLength + payloadBytes;
      received := received + chunk[offset..next];
    }

    /** Collects payload bytes until the payload or the chunk is complete. */
    method ReadPayload(chunk: array<Byte>, offset: nat) returns (next: nat)
      requires Valid() && state == Open && expectedPayloadLength.Some?
      requires offset <= chunk.Length && chunk !in Buffers()
      modifies `payloadBlocks, `currentPayloadBlock, `currentPayloadBlockLength, `payloadLength, `received,
               payloadBlocks
      ensures Shaped() && offset <= next <= chunk.Length && (payloadBlocks != [] ==> currentPayloadBlockLength > 0)
      ensures received == old(received) + chunk[offset..next]
      ensures payloadLength < expectedPayloadLength.value ==> next == chunk.Length
      ensures fresh(Buffers() - old(Buffers())) && chunk !in Buffers()
    {
      hide FrameDecoder.BlocksValid;
      next := offset;
      assert received == old(received) + chunk[offset..next];
      while next < chunk.Length && payloadLength < expectedPayloadLength.value
        invariant Shaped() && offset <= next <= chunk.Length && (payloadBlocks != [] ==> currentPayloadBlockLength > 0)
        invariant received == old(received) + chunk[offset..next]
        invariant fresh(Buffers() - old(Buffers())) && chunk !in Buffers()
        decreases chunk.Length - next
      {
        ghost var before, start := received, next;
        OpenBlock();
        assert chunk !in Buffers();
        next := FillBlock(chunk, next);
        assert old(received) + chunk[offset..start] + chunk[start..next] == old(received) + chunk[offset..next];
      }
    }

    /** Hands out the complete payload: the block itself when there is one, a joined copy otherwise. */
    method TakePayload() returns (frame: array<Byte>)
      requires Shaped() && state == Open && expectedPayloadLength == Some(payloadLength)
      modifies this
      ensures Valid() && state == Open && Pending() == []
      ensures frame[..] == old(received)
      ensures frame != header && (fresh(frame) || frame in old(Buffers()))
      ensures Buffers() == {header}
    {
      if |payloadBlocks| == 1 {
        frame := payloadBlocks[0];
      } else {
        frame := JoinBlocks();
      }
      payloadBlocks := [];
      currentPayloadBlock := null;
      currentPayloadBlockLength := 0;
      expectedPayloadLength := None;
      payloadLength := 0;
      received := [];
    }

    /** Copies the blocks one after the other into a new array. */
    method JoinBlocks() returns (payload: array<Byte>)
      requires Shaped() && expectedPayloadLength == Some(payloadLength)
      ensures fresh(payload) && payload[..] == received
    {
      payload := new Byte[payloadLength](_ => 0);
      var offset := 0;
      for i := 0 to |payloadBlocks|
        invariant offset == if i < |payloadBlocks| then BlockStart(i) else payloadLength
        invariant payload[..offset] == received[..offset]
      {
        var block := payloadBlocks[i];
        SetBytes(payload, offset, block, 0, block.Length);
        if i < |payloadBlocks| - 1 {
          assert Holds(block[..], received, i);
        } else {
          assert block[..currentPayloadBlockLength] == received[offset..];
        }
        assert block[0..block.Length] == block[..] == received[offset..offset + block.Length];
        var end := offset + block.Length;
        assert payload[..end] == payload[..offset] + payload[offset..end];
        assert received[..end] == received[..offset] + received[offset..end];
        offset := end;
      }
    }

    method Fail()
      requires header.Length == FRAME_HEADER_LENGTH && maxFrameLength <= MAX_UINT32
      modifies this
      ensures Valid() && state == Failed && Pending() == [] && Buffers() == {header}
    {
      state := Failed;
      headerLength := 0;
      payloadBlocks := [];
      currentPayloadBlock := null;
      currentPayloadBlockLength := 0;
      expectedPayloadLength := None;
      payloadLength := 0;
      received := [];
    }

    /** The header part of one round of the push loop. */
    method StartFrame(chunk: array<Byte>, offset: nat) returns (next: nat, frame: Option<array<Byte>>)
      requires Valid() && state == Open && expectedPayloadLength.None?
      requires offset < chunk.Length && chunk !in Buffers()
      modifies this, header
      ensures Valid() && state != Ended && offset < next <= chunk.Length && Buffers() == {header}
      ensures state == Failed ==> Pending() == []
      ensures frame.Some? ==> fresh(frame.value) && expectedPayloadLength.None? && state == Open
      ensures expectedPayloadLength.None? && frame.None? && state == Open ==> next == chunk.Length
      ensures Consumed(old(Pending() + chunk[offset..]), maxFrameLength, state, frame, Pending() + chunk[next..])
    {
      hide First, Holds, BigEndian;
      ghost var unread := Pending() + chunk[offset..];
      frame := None;
      next := ReadHeader(chunk, offset);
      assert header[..headerLength] + chunk[next..] == unread;
      if headerLength < FRAME_HEADER_LENGTH { return; }
      var frameLength := BigEndian(header[..]);
      headerLength := 0;
      assert header[..] + chunk[next..] == unread;
      if frameLength > maxFrameLength {
        OversizedHeader(header[..], chunk[next..], maxFrameLength);
        Fail();
        return;
      }
      if frameLength == 0 {
        FirstOfHeader(header[..], [], chunk[next..], maxFrameLength);
        var empty := new Byte[0];
        frame := Some(empty);
        assert header[..] + [] + chunk[next..] == unread && frame.value[..] == [];
        assert Pending() + chunk[next..] == chunk[next..];
        return;
      }
      expectedPayloadLength := Some(frameLength);
      payloadBlocks := [];
      currentPayloadBlock := null;
      currentPayloadBlockLength := 0;
      payloadLength := 0;
      received := [];
      assert header[..] + [] == header[..];
    }

    /** The payload part of one round of the push loop. */
    method ContinueFrame(chunk: array<Byte>, offset: nat) returns (next: nat, frame: Option<array<Byte>>)
      requires Valid() && state == Open && expectedPayloadLength.Some?
      requires offset <= chunk.Length && chunk !in Buffers()
      modifies this, Buffers()
      ensures Valid() && state == Open && offset <= next <= chunk.Length
      ensures offset < chunk.Length ==> offset < next
      ensures frame.None? ==> next == chunk.Length
      ensures chunk !in Buffers() && fresh(Buffers() - old(Buffers()))
      ensures Consumed(old(Pending() + chunk[offset..]), maxFrameLength, state, frame, Pending() + chunk[next..])
      ensures frame.Some? ==>
                frame.value !in Buffers() && frame.value != chunk
                    && (fresh(frame.value) || frame.value in old(Buffers()))
    {
      hide FrameDecoder.BlocksValid, First;
      ghost var unread, length := Pending() + chunk[offset..], header[..];
      next := ReadPayload(chunk, offset);
      assert chunk[offset..] == chunk[offset..next] + chunk[next..];
      assert length + received + chunk[next..] == unread;
      frame := None;
      if payloadLength == expectedPayloadLength.value {
        FirstOfHeader(length, received, chunk[next..], maxFrameLength);
        var payload := TakePayload();
        frame := Some(payload);
        assert Pending() + chunk[next..] == chunk[next..];
      }
    }

    /** One round of the push loop: at most one frame is completed, and at least one byte is read. */
    method Advance(chunk: array<Byte>, offset: nat) returns (next: nat, frame: Option<array<Byte>>)
      requires Valid() && state == Open && offset < chunk.Length && chunk !in Buffers()
      modifies this, Buffers()
      ensures Valid() && state != Ended && offset < next <= chunk.Length && (state == Failed ==> Pending() == [])
      ensures chunk !in Buffers() && fresh(Buffers() - old(Buffers()))
      ensures Consumed(old(Pending() + chunk[offset..]), maxFrameLength, state, frame, Pending() + chunk[next..])
      ensures frame.Some? ==>
                frame.value !in Buffers() && frame.value != chunk
                    && (fresh(frame.value) || frame.value in old(Buffers()))
    {
      hide First, FrameDecoder.BlocksValid;
      next, frame := offset, None;
      if expectedPayloadLength.None? {
        next, frame := StartFrame(chunk, offset);
        if state == Failed || frame.Some? || expectedPayloadLength.None? { return; }
      }
      next, frame := ContinueFrame(chunk, next);
    }

    /** Accepts a chunk and returns the payloads it completes; nothing is returned when it fails. */
    method Push(chunk: array<Byte>) returns (r: Result<seq<array<Byte>>, FrameError>)
      requires Valid() && chunk !in Buffers()
      modifies this, Buffers()
      ensures Valid() && chunk !in Buffers() && fresh(Buffers() - old(Buffers()))
      ensures old(state) != Open ==>
                && r == Failure(if old(state) == Ended then DecoderEnded else DecoderFailed)
                && state == old(state) && Pending() == old(Pending())
      ensures old(state) == Open ==>
                var s := PushStream(Stream([], old(Pending()), false), chunk[..], maxFrameLength);
                && state == (if s.failed then Failed else Open)
                && Pending() == s.pending
                && (s.failed ==> r == Failure(LimitExceeded))
                && (!s.failed ==> r.Success? && Contents(r.value) == s.delivered)
      ensures r.Success? ==> OwnedByCaller(r.value, chunk)
      ensures r.Success? ==> forall f :: f in r.value ==> fresh(f) || f in old(Buffers())
    {
      if state == Ended { return Failure(DecoderEnded); }
      if state == Failed { return Failure(DecoderFailed); }
      assert Pending() + chunk[0..] == Pending() + chunk[..];
      var frames := ReadFrames(chunk);
      if state == Failed { return Failure(LimitExceeded); }
      PendingIsIncomplete();
      return Success(frames);
    }

    /** The push loop of an open decoder. */
    method ReadFrames(chunk: array<Byte>) returns (frames: seq<array<Byte>>)
      requires Valid() && state == Open && chunk !in Buffers()
      modifies this, Buffers()
      ensures Valid() && state != Ended && chunk !in Buffers() && fresh(Buffers() - old(Buffers()))
      ensures OwnedByCaller(frames, chunk)
      ensures forall f :: f in frames ==> fresh(f) || f in old(Buffers())
      ensures state == Failed ==> Pending() == [] && Parse(old(Pending() + chunk[0..]), maxFrameLength).oversized
      ensures state == Open ==> Found(old(Pending() + chunk[0..]), maxFrameLength, frames, Pending())
    {
      hide First, Parse, Contents, Found, Consumed, FrameDecoder.BlocksValid, FrameDecoder.Shaped;
      frames := [];
      var offset := 0;
      ghost var whole := Pending() + chunk[0..];
      NothingFound(whole, maxFrameLength, frames);
      while offset < chunk.Length
        invariant Valid() && state == Open && offset <= chunk.Length
        invariant chunk !in Buffers() && fresh(Buffers() - old(Buffers()))
        invariant OwnedByCaller(frames, chunk)
        invariant forall f :: f in frames ==> fresh(f) || f in old(Buffers())
        invariant Found(whole, maxFrameLength, frames, Pending() + chunk[offset..])
        decreases chunk.Length - offset
      {
        ghost var unread := Pending() + chunk[offset..];
        var next, frame := Advance(chunk, offset);
        FoundConsumed(whole, unread, maxFrameLength, state, frame, Pending() + chunk[next..], frames);
        offset := next;
        if state == Failed { return; }
        if frame.Some? { frames := frames + [frame.value]; }
      }
      assert Pending() + chunk[offset..] == Pending();
    }

    /** Ends the stream; it succeeds exactly when no frame is left incomplete. */
    method End() returns (r: Result<(), FrameError>)
      requires Valid()
      modifies this
      ensures Valid() && Buffers() <= old(Buffers())
      ensures old(state) != Open ==>
                && r == Failure(if old(state) == Ended then DecoderEnded else DecoderFailed)
                && state == old(state) && Pending() == old(Pending())
      ensures old(state) == Open && old(Pending()) == [] ==> r.Success? && state == Ended && Pending() == []
      ensures old(state) == Open && old(Pending()) != [] ==>
              r == Failure(Truncated) && state == Failed && Pending() == []
    {
      if state == Ended { return Failure(DecoderEnded); }
      if state == Failed { return Failure(DecoderFailed); }
      if headerLength != 0 || expectedPayloadLength.Some? {
        Fail();
        return Failure(Truncated);
      }
      state := Ended;
      return Success(());
    }
  }
}
