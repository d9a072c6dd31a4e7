/**
 The two bounded NDJSON readers, the client's over one growing buffer and the server's
 over a reused array, against one specification of the byte stream as a whole. Decoding
 UTF-8 is a parameter: it either yields a line or fails.
*/
module Ndjson {
  import opened Wire

  newtype byte = b: int | 0 <= b < 256

  const LF: byte := 0x0a
  const CR: byte := 0x0d

  datatype FrameError = FrameTooLarge | InvalidEncoding | UnterminatedFrame

  type Decoder = seq<byte> -> Option<string>

  /** What a reader yields before it ends, and the error it ends with, if any. */
  datatype Outcome = Outcome(lines: seq<string>, error: Option<FrameError>)

  /** `indexOf(0x0a, from)`, with the length of the sequence for "not found". */
  function IndexOfLf(s: seq<byte>, from: nat): (i: nat)
    requires from <= |s|
    ensures from <= i <= |s|
    ensures i < |s| ==> s[i] == LF
    ensures forall j :: from <= j < i ==> s[j] != LF
    decreases |s| - from
  {
    if from == |s| || s[from] == LF then from else IndexOfLf(s, from + 1)
  }

  function WithoutCr(frame: seq<byte>): seq<byte> {
    if frame != [] && frame[|frame| - 1] == CR then frame[..|frame| - 1] else frame
  }

  // ----- the specification

  /** The stream split at its LFs, up to the first frame that is bad. */
  function Parse(s: seq<byte>, limit: nat, decode: Decoder): Outcome
    decreases |s|
  {
    var i := IndexOfLf(s, 0);
    if i > limit then Outcome([], Some(FrameTooLarge))
    else if i == |s| then Outcome([], if s == [] then None else Some(UnterminatedFrame))
    else
      match decode(WithoutCr(s[..i]))
      case None => Outcome([], Some(InvalidEncoding))
      case Some(line) =>
        var rest := Parse(s[i + 1..], limit, decode);
        Outcome([line] + rest.lines, rest.error)
  }

  function Concat(chunks: seq<seq<byte>>): seq<byte> {
    if chunks == [] then [] else chunks[0] + Concat(chunks[1..])
  }

  lemma {:induction false} IndexOfLfPrefix(p: seq<byte>, s: seq<byte>, from: nat)
    requires from <= |p|
    ensures IndexOfLf(p, from) < |p| ==> IndexOfLf(p + s, from) == IndexOfLf(p, from)
    ensures IndexOfLf(p, from) == |p| ==> IndexOfLf(p + s, from) == |p| + IndexOfLf(s, 0)
    decreases |p| - from
  {
    var i, j, k := IndexOfLf(p, from), IndexOfLf(p + s, from), IndexOfLf(s, 0);
    assert forall n :: 0 <= n < |p| ==> (p + s)[n] == p[n];
    assert forall n :: 0 <= n < |s| ==> (p + s)[|p| + n] == s[n];
    if i < |p| {
      assert (p + s)[i] == LF;
    } else if k < |s| {
      assert (p + s)[|p| + k] == LF;
    }
  }

  /** A first frame that is already too long stays too long whatever follows. */
  lemma TooLargeStays(p: seq<byte>, s: seq<byte>, limit: nat, decode: Decoder)
    requires IndexOfLf(p, 0) > limit
    ensures Parse(p + s, limit, decode) == Outcome([], Some(FrameTooLarge))
  {
    IndexOfLfPrefix(p, s, 0);
  }

  /** A first frame that is complete is parsed on its own. */
  lemma FirstFrame(p: seq<byte>, s: seq<byte>, limit: nat, decode: Decoder)
    requires var i := IndexOfLf(p, 0); i < |p| && i <= limit
    ensures var i := IndexOfLf(p, 0);
      Parse(p + s, limit, decode) ==
      match decode(WithoutCr(p[..i]))
      case None => Outcome([], Some(InvalidEncoding))
      case Some(line) =>
        var rest := Parse(p[i + 1..] + s, limit, decode);
        Outcome([line] + rest.lines, rest.error)
  {
    var i := IndexOfLf(p, 0);
    IndexOfLfPrefix(p, s, 0);
    assert (p + s)[..i] == p[..i];
    assert (p + s)[i + 1..] == p[i + 1..] + s;
  }

  /** Having yielded `lines`, a reader that parses `rest` next will end as `whole` does. */
  ghost predicate Ahead(lines: seq<string>, rest: seq<byte>, limit: nat, decode: Decoder, whole: Outcome) {
    var p := Parse(rest, limit, decode);
    whole == Outcome(lines + p.lines, p.error)
  }

  lemma AheadTooLarge(lines: seq<string>, p: seq<byte>, s: seq<byte>, limit: nat, decode: Decoder, whole: Outcome)
    requires Ahead(lines, p + s, limit, decode, whole) && IndexOfLf(p, 0) > limit
    ensures whole == Outcome(lines, Some(FrameTooLarge))
  {
    TooLargeStays(p, s, limit, decode);
  }

  lemma AheadFrame(lines: seq<string>, p: seq<byte>, s: seq<byte>, limit: nat, decode: Decoder, whole: Outcome)
    requires Ahead(lines, p + s, limit, decode, whole) && IndexOfLf(p, 0) < |p| && IndexOfLf(p, 0) <= limit
    ensures var i := IndexOfLf(p, 0);
      match decode(WithoutCr(p[..i]))
      case None => whole == Outcome(lines, Some(InvalidEncoding))
      case Some(line) => Ahead(lines + [line], p[i + 1..] + s, limit, decode, whole)
  {
    FirstFrame(p, s, limit, decode);
  }

  lemma AheadEnd(lines: seq<string>, p: seq<byte>, limit: nat, decode: Decoder, whole: Outcome)
    requires Ahead(lines, p, limit, decode, whole) && IndexOfLf(p, 0) == |p| <= limit
    ensures whole == Outcome(lines, if p == [] then None else Some(UnterminatedFrame))
  {
  }

  lemma AheadStart(s: seq<byte>, limit: nat, decode: Decoder)
    ensures Ahead([], s, limit, decode, Parse(s, limit, decode))
  {
  }

  // ----- the client's reader

  /** `client.ts`: append each chunk to the buffer, then cut frames off its front. */
  method ReadClientLines(chunks: seq<seq<byte>>, limit: nat, decode: Decoder) returns (out: Outcome)
    ensures out == Parse(Concat(chunks), limit, decode)
  {
    hide Parse, Ahead, Concat, IndexOfLf;
    var lines: seq<string> := [];
    var buffered: seq<byte> := [];
    ghost var whole := Parse(Concat(chunks), limit, decode);
    AheadStart(Concat(chunks), limit, decode);
    assert chunks[0..] == chunks && [] + Concat(chunks) == Concat(chunks);
    for n := 0 to |chunks|
      invariant Ahead(lines, buffered + Concat(chunks[n..]), limit, decode, whole)
      invariant IndexOfLf(buffered, 0) == |buffered| <= limit
    {
      ghost var later := Concat(chunks[n + 1..]);
      ConcatNext(chunks, n, buffered);
      buffered := buffered + chunks[n];
      var error;
      lines, buffered, error := CutFrames(lines, buffered, limit, decode, later, whole);
      if error.Some? {
        return Outcome(lines, error);
      }
      if |buffered| > limit {
        AheadTooLarge(lines, buffered, later, limit, decode, whole);
        return Outcome(lines, Some(FrameTooLarge));
      }
    }
    ConcatDone(chunks, buffered);
    AheadEnd(lines, buffered, limit, decode, whole);
    if |buffered| > 0 {
      return Outcome(lines, Some(UnterminatedFrame));
    }
    return Outcome(lines, None);
  }

  method CutFrames(yielded: seq<string>, input: seq<byte>, limit: nat, decode: Decoder,
                   ghost later: seq<byte>, ghost whole: Outcome)
    returns (lines: seq<string>, buffered: seq<byte>, error: Option<FrameError>)
    requires Ahead(yielded, input + later, limit, decode, whole)
    ensures error.Some? ==> whole == Outcome(lines, error)
    ensures error.None? ==> Ahead(lines, buffered + later, limit, decode, whole) && IndexOfLf(buffered, 0) == |buffered|
  {
    hide Parse, Ahead;
    lines, buffered := yielded, input;
    var newline := IndexOfLf(buffered, 0);
    while newline < |buffered|
      invariant newline == IndexOfLf(buffered, 0)
      invariant Ahead(lines, buffered + later, limit, decode, whole)
      decreases |buffered|
    {
      var frame := buffered[..newline];
      if |frame| > limit {
        AheadTooLarge(lines, buffered, later, limit, decode, whole);
        return lines, buffered, Some(FrameTooLarge);
      }
      AheadFrame(lines, buffered, later, limit, decode, whole);
      buffered := buffered[newline + 1..];
      match decode(WithoutCr(frame)) {
        case None => return lines, buffered, Some(InvalidEncoding);
        case Some(line) => lines := lines + [line];
      }
      newline := IndexOfLf(buffered, 0);
    }
    error := None;
  }

  lemma ConcatNext(chunks: seq<seq<byte>>, n: nat, p: seq<byte>)
    requires n < |chunks|
    ensures p + Concat(chunks[n..]) == (p + chunks[n]) + Concat(chunks[n + 1..])
  {
    assert chunks[n..][1..] == chunks[n + 1..];
  }

  lemma ConcatDone(chunks: seq<seq<byte>>, p: seq<byte>)
    ensures p + Concat(chunks[|chunks|..]) == p
  {
  }

  // ----- the server's reader

  /** `stdio-server.ts`: copy each segment into a buffer that is reused from frame to frame
      and grown by doubling up to the limit. `moved` counts the bytes copied by growing. */
  method ReadServerLines(chunks: seq<seq<byte>>, limit: nat, decode: Decoder) returns (out: Outcome, moved: nat)
    requires limit >= 1
    ensures out == Parse(Concat(chunks), limit, decode)
    ensures moved < 2 * limit
  {
    hide Parse, Ahead, Concat;
    var lines: seq<string> := [];
    var frameBuffer := new byte[0];
    var frameBytes: nat := 0;
    moved := 0;
    ghost var whole := Parse(Concat(chunks), limit, decode);
    AheadStart(Concat(chunks), limit, decode);
    assert chunks[0..] == chunks && frameBuffer[..0] + Concat(chunks) == Concat(chunks);
    for n := 0 to |chunks|
      invariant fresh(frameBuffer) && BufferOk(frameBuffer.Length, frameBytes, limit, moved)
      invariant IndexOfLf(frameBuffer[..frameBytes], 0) == frameBytes
      invariant Ahead(lines, frameBuffer[..frameBytes] + Concat(chunks[n..]), limit, decode, whole)
    {
      ConcatNext(chunks, n, frameBuffer[..frameBytes]);
      var error;
      lines, frameBuffer, frameBytes, moved, error :=
        TakeChunk(lines, frameBuffer, frameBytes, moved, chunks[n], limit, decode, Concat(chunks[n + 1..]), whole);
      if error.Some? {
        return Outcome(lines, error), moved;
      }
    }
    ConcatDone(chunks, frameBuffer[..frameBytes]);
    AheadEnd(lines, frameBuffer[..frameBytes], limit, decode, whole);
    if frameBytes > 0 {
      return Outcome(lines, Some(UnterminatedFrame)), moved;
    }
    return Outcome(lines, None), moved;
  }

  method TakeChunk(yielded: seq<string>, buffer: array<byte>, used: nat, movedBefore: nat, bytes: seq<byte>,
                   limit: nat, decode: Decoder, ghost later: seq<byte>, ghost whole: Outcome)
    returns (lines: seq<string>, frameBuffer: array<byte>, frameBytes: nat, moved: nat, error: Option<FrameError>)
    requires BufferOk(buffer.Length, used, limit, movedBefore) && limit >= 1
    requires IndexOfLf(buffer[..used], 0) == used
    requires Ahead(yielded, (buffer[..used] + bytes) + later, limit, decode, whole)
    modifies buffer
    ensures frameBuffer == buffer || fresh(frameBuffer)
    ensures BufferOk(frameBuffer.Length, frameBytes, limit, moved)
    ensures error.Some? ==> whole == Outcome(lines, error)
    ensures error.None? ==>
      && IndexOfLf(frameBuffer[..frameBytes], 0) == frameBytes
      && Ahead(lines, frameBuffer[..frameBytes] + later, limit, decode, whole)
  {
    hide Parse, Ahead;
    lines, frameBuffer, frameBytes, moved := yielded, buffer, used, movedBefore;
    var offset := 0;
    assert bytes[0..] == bytes;
    while offset < |bytes|
      invariant 0 <= offset <= |bytes| && (frameBuffer == buffer || fresh(frameBuffer))
      invariant BufferOk(frameBuffer.Length, frameBytes, limit, moved)
      invariant IndexOfLf(frameBuffer[..frameBytes], 0) == frameBytes
      invariant Ahead(lines, (frameBuffer[..frameBytes] + bytes[offset..]) + later, limit, decode, whole)
      decreases |bytes| - offset
    {
      var newline := IndexOfLf(bytes, offset);
      var segment := bytes[offset..newline];
      ghost var frame := frameBuffer[..frameBytes] + segment;
      ghost var rest := bytes[newline..] + later;
      SegmentEnds(frameBuffer[..frameBytes], bytes, offset, later);
      if |segment| > 0 {
        if frameBytes + |segment| > limit {
          AheadTooLarge(lines, frame, rest, limit, decode, whole);
          return lines, frameBuffer, frameBytes, moved, Some(FrameTooLarge);
        }
        frameBuffer, moved := Append(frameBuffer, frameBytes, segment, limit, moved);
        frameBytes := frameBytes + |segment|;
      }
      assert frameBuffer[..frameBytes] == frame;
      if newline == |bytes| {
        offset := newline;
        assert frame + rest == (frame + bytes[offset..]) + later;
      } else {
        EndedFrame(frame, bytes, newline, later);
        AheadFrame(lines, frame + [LF], bytes[newline + 1..] + later, limit, decode, whole);
        match decode(WithoutCr(frameBuffer[..frameBytes])) {
          case None => return lines, frameBuffer, frameBytes, moved, Some(InvalidEncoding);
          case Some(line) => lines := lines + [line];
        }
        frameBytes := 0;
        offset := newline + 1;
        assert frameBuffer[..0] == [];
      }
    }
    assert frameBuffer[..frameBytes] + bytes[offset..] == frameBuffer[..frameBytes];
    error := None;
  }

  /** One segment goes into the buffer, which is replaced by a larger one if need be. */
  method Append(buffer: array<byte>, used: nat, segment: seq<byte>, limit: nat, movedBefore: nat)
    returns (frameBuffer: array<byte>, moved: nat)
    requires BufferOk(buffer.Length, used, limit, movedBefore)
    requires |segment| > 0 && used + |segment| <= limit
    modifies buffer
    ensures frameBuffer == buffer || fresh(frameBuffer)
    ensures BufferOk(frameBuffer.Length, used + |segment|, limit, moved)
    ensures frameBuffer[..used + |segment|] == old(buffer[..used]) + segment
  {
    frameBuffer, moved := buffer, movedBefore;
    ghost var kept := buffer[..used];
    if used + |segment| > buffer.Length {
      var capacity := GrownCapacity(buffer.Length, used + |segment|, limit);
      frameBuffer := new byte[capacity];
      CopyInto(frameBuffer, 0, buffer[..used]);
      moved := movedBefore + used;
      assert frameBuffer[..used] == kept;
    }
    CopyInto(frameBuffer, used, segment);
    assert frameBuffer[..used + |segment|] == frameBuffer[..used] + frameBuffer[used..used + |segment|];
  }

  /** While the buffer can still double, everything moved so far fits in it once; the last
      growth, which only goes up to the limit, moves less than the limit again. */
  predicate BufferOk(capacity: nat, used: nat, limit: nat, moved: nat) {
    && used <= capacity <= limit
    && (if capacity < limit then moved <= capacity else moved < 2 * limit)
  }

  lemma EndedFrame(frame: seq<byte>, bytes: seq<byte>, newline: nat, later: seq<byte>)
    requires IndexOfLf(frame, 0) == |frame| && newline < |bytes| && bytes[newline] == LF
    ensures IndexOfLf(frame + [LF], 0) == |frame|
    ensures (frame + [LF])[..|frame|] == frame
    ensures frame + (bytes[newline..] + later) == (frame + [LF]) + (bytes[newline + 1..] + later)
    ensures (frame + [LF])[|frame| + 1..] + (bytes[newline + 1..] + later) == ([] + bytes[newline + 1..]) + later
  {
    hide IndexOfLf;
    EndsAtLf(frame);
    SplitAtLf(frame, bytes, newline, later);
  }

  lemma EndsAtLf(frame: seq<byte>)
    requires IndexOfLf(frame, 0) == |frame|
    ensures IndexOfLf(frame + [LF], 0) == |frame|
    ensures (frame + [LF])[..|frame|] == frame && (frame + [LF])[|frame| + 1..] == []
  {
    IndexOfLfPrefix(frame, [LF], 0);
    assert IndexOfLf([LF], 0) == 0;
  }

  lemma SplitAtLf(frame: seq<byte>, bytes: seq<byte>, newline: nat, later: seq<byte>)
    requires newline < |bytes| && bytes[newline] == LF && (frame + [LF])[|frame| + 1..] == []
    ensures frame + (bytes[newline..] + later) == (frame + [LF]) + (bytes[newline + 1..] + later)
    ensures (frame + [LF])[|frame| + 1..] + (bytes[newline + 1..] + later) == ([] + bytes[newline + 1..]) + later
  {
    var next := bytes[newline + 1..];
    assert bytes[newline..] == [LF] + next;
    Reassociate(frame, next, later);
    assert [] + next == next && [] + (next + later) == next + later;
  }

  lemma Reassociate(frame: seq<byte>, next: seq<byte>, later: seq<byte>)
    ensures frame + (([LF] + next) + later) == (frame + [LF]) + (next + later)
  {
  }

  /** What is buffered and the next segment make the frame; what follows is the rest. */
  lemma SegmentEnds(before: seq<byte>, bytes: seq<byte>, offset: nat, later: seq<byte>)
    requires offset <= |bytes| && IndexOfLf(before, 0) == |before|
    ensures var newline := IndexOfLf(bytes, offset); var frame := before + bytes[offset..newline];
      && (before + bytes[offset..]) + later == frame + (bytes[newline..] + later)
      && IndexOfLf(frame, 0) == |frame|
  {
    var newline := IndexOfLf(bytes, offset);
    var segment := bytes[offset..newline];
    assert IndexOfLf(segment, 0) == |segment|;
    IndexOfLfPrefix(before, segment, 0);
    SplitAt(before, bytes, offset, newline, later);
    hide IndexOfLf;
  }

  lemma SplitAt(before: seq<byte>, bytes: seq<byte>, offset: nat, newline: nat, later: seq<byte>)
    requires offset <= newline <= |bytes|
    ensures (before + bytes[offset..]) + later == (before + bytes[offset..newline]) + (bytes[newline..] + later)
  {
    assert bytes[offset..] == bytes[offset..newline] + bytes[newline..];
    Associate(before, bytes[offset..newline], bytes[newline..], later);
  }

  lemma Associate(a: seq<byte>, b: seq<byte>, c: seq<byte>, d: seq<byte>)
    ensures (a + (b + c)) + d == (a + b) + (c + d)
  {
  }

  /** The doubling loop. It ends because the need is within the limit. */
  method GrownCapacity(current: nat, need: nat, limit: nat) returns (capacity: nat)
    requires current < need <= limit
    ensures need <= capacity <= limit
    ensures capacity == limit || capacity >= 2 * current
  {
    capacity := if current > 1 then current else 1;
    while capacity < need
      invariant current <= capacity <= limit
      invariant capacity > current ==> current == 0 || capacity == limit || capacity >= 2 * current
      decreases limit - capacity
    {
      capacity := if limit < capacity * 2 then limit else capacity * 2;
    }
  }

  method CopyInto(target: array<byte>, at: nat, source: seq<byte>)
    requires at + |source| <= target.Length
    modifies target
    ensures target[..at] == old(target[..at])
    ensures target[at..at + |source|] == source
  {
    for i := 0 to |source|
      invariant target[..at] == old(target[..at])
      invariant target[at..at + i] == source[..i]
    {
      target[at + i] := source[i];
      assert target[at..at + i + 1] == target[at..at + i] + [source[i]];
    }
  }

  // ----- what a line is made of

  predicate NoLf(s: seq<byte>) {
    forall i :: 0 <= i < |s| ==> s[i] != LF
  }

  /** The frame is this body, perhaps followed by one CR. */
  predicate Frames(frame: seq<byte>, body: seq<byte>) {
    || frame == body + [CR]
    || (frame == body && (body == [] || body[|body| - 1] != CR))
  }

  lemma BodyIsWithoutCr(frame: seq<byte>, body: seq<byte>)
    requires Frames(frame, body)
    ensures WithoutCr(frame) == body
  {
    assert frame == body + [CR] ==> frame[..|frame| - 1] == body;
  }

  /** Of one frame: whether it is too long is decided with its CR, and what is decoded is
      its body without. */
  lemma FrameIsItsBody(frame: seq<byte>, body: seq<byte>, rest: seq<byte>, limit: nat, decode: Decoder)
    requires NoLf(frame) && Frames(frame, body)
    ensures Parse((frame + [LF]) + rest, limit, decode) ==
      if |frame| > limit then Outcome([], Some(FrameTooLarge))
      else match decode(body)
           case None => Outcome([], Some(InvalidEncoding))
           case Some(line) => Outcome([line] + Parse(rest, limit, decode).lines, Parse(rest, limit, decode).error)
  {
    assert IndexOfLf(frame, 0) == |frame|;
    EndsAtLf(frame);
    BodyIsWithoutCr(frame, body);
    hide Parse, IndexOfLf, WithoutCr, Frames, NoLf;
    assert [] + rest == rest;
    if |frame| > limit {
      TooLargeStays(frame + [LF], rest, limit, decode);
    } else {
      FirstFrame(frame + [LF], rest, limit, decode);
    }
  }

  /** A CR before the LF makes no difference to the reader, as long as there is room for it. */
  lemma CrIsOptional(frame: seq<byte>, rest: seq<byte>, limit: nat, decode: Decoder)
    requires NoLf(frame) && (frame == [] || frame[|frame| - 1] != CR) && |frame| + 1 <= limit
    ensures Parse((frame + [CR, LF]) + rest, limit, decode) == Parse((frame + [LF]) + rest, limit, decode)
  {
    hide Parse;
    assert frame + [CR, LF] == (frame + [CR]) + [LF];
    FrameIsItsBody(frame + [CR], frame, rest, limit, decode);
    FrameIsItsBody(frame, frame, rest, limit, decode);
  }

  /** Of two CRs exactly one goes. */
  lemma OneCrGoes(frame: seq<byte>, rest: seq<byte>, limit: nat, decode: Decoder)
    requires NoLf(frame) && |frame| + 2 <= limit && decode(frame + [CR]).Some?
    ensures Parse((frame + [CR, CR, LF]) + rest, limit, decode) ==
      Outcome([decode(frame + [CR]).value] + Parse(rest, limit, decode).lines, Parse(rest, limit, decode).error)
  {
    hide Parse;
    var two := (frame + [CR]) + [CR];
    assert frame + [CR, CR, LF] == two + [LF];
    FrameIsItsBody(two, frame + [CR], rest, limit, decode);
  }

  function Written(frames: seq<seq<byte>>): seq<byte> {
    if frames == [] then [] else frames[0] + [LF] + Written(frames[1..])
  }

  predicate IsGood(frame: seq<byte>, body: seq<byte>, limit: nat, decode: Decoder) {
    |frame| <= limit && decode(body).Some?
  }

  /** How a reader ends that has met only good frames, and then the tail. */
  function TailError(tail: seq<byte>, limit: nat): Option<FrameError> {
    if tail == [] then None else if |tail| > limit then Some(FrameTooLarge) else Some(UnterminatedFrame)
  }

  lemma TailIsAnError(tail: seq<byte>, limit: nat, decode: Decoder)
    requires NoLf(tail)
    ensures Parse(tail, limit, decode) == Outcome([], TailError(tail, limit))
  {
    assert IndexOfLf(tail, 0) == |tail|;
  }

  /** Every stream, of whatever bytes: its frames ended by LF, and a tail without one. Up to
      the `k`-th frame, which is the first bad one or the end, each yields its decoded body;
      the error says what was wrong with the `k`-th, or with the tail. */
  lemma {:induction false} StreamIsItsFrames(frames: seq<seq<byte>>, bodies: seq<seq<byte>>, tail: seq<byte>,
                                             k: nat, limit: nat, decode: Decoder)
    requires |bodies| == |frames| && k <= |frames| && NoLf(tail)
    requires forall i :: 0 <= i < |frames| ==> NoLf(frames[i]) && Frames(frames[i], bodies[i])
    requires forall i :: 0 <= i < k ==> IsGood(frames[i], bodies[i], limit, decode)
    requires k < |frames| ==> !IsGood(frames[k], bodies[k], limit, decode)
    ensures var out := Parse(Written(frames) + tail, limit, decode);
      && |out.lines| == k && (forall i :: 0 <= i < k ==> Some(out.lines[i]) == decode(bodies[i]))
      && out.error == if k == |frames| then TailError(tail, limit)
                      else if |frames[k]| > limit then Some(FrameTooLarge) else Some(InvalidEncoding)
    decreases |frames|
  {
    hide Parse, NoLf, Frames, TailError;
    if frames == [] {
      assert Written(frames) + tail == tail;
      TailIsAnError(tail, limit, decode);
    } else {
      var rest := Written(frames[1..]) + tail;
      assert Written(frames) + tail == (frames[0] + [LF]) + rest;
      FrameIsItsBody(frames[0], bodies[0], rest, limit, decode);
      if k > 0 {
        assert IsGood(frames[0], bodies[0], limit, decode);
        StreamIsItsFrames(frames[1..], bodies[1..], tail, k - 1, limit, decode);
      }
    }
  }

  lemma BodyOf(frame: seq<byte>) returns (body: seq<byte>)
    ensures Frames(frame, body)
  {
    body := if frame != [] && frame[|frame| - 1] == CR then frame[..|frame| - 1] else frame;
    assert frame != [] && frame[|frame| - 1] == CR ==> frame == body + [CR];
  }

  /** And every stream is made so. */
  lemma {:induction false} EveryStreamHasFrames(s: seq<byte>)
    returns (frames: seq<seq<byte>>, bodies: seq<seq<byte>>, tail: seq<byte>)
    ensures s == Written(frames) + tail && NoLf(tail) && |bodies| == |frames|
    ensures forall i :: 0 <= i < |frames| ==> NoLf(frames[i]) && Frames(frames[i], bodies[i])
    decreases |s|
  {
    hide Frames;
    var i := IndexOfLf(s, 0);
    if i == |s| {
      frames, bodies, tail := [], [], s;
      assert s == Written(frames) + tail;
    } else {
      var body := BodyOf(s[..i]);
      frames, bodies, tail := EveryStreamHasFrames(s[i + 1..]);
      assert s == (s[..i] + [LF]) + s[i + 1..];
      assert (([s[..i]] + frames)[1..]) == frames;
      frames, bodies := [s[..i]] + frames, [body] + bodies;
    }
  }

  // ----- what is written is what is read

  /** JSON text: every control character is escaped (section 7 of RFC 8259), so neither LF
      nor CR occurs in it. */
  predicate JsonText(frame: seq<byte>) {
    forall i :: 0 <= i < |frame| ==> frame[i] >= 0x20
  }

  /** The client's writer counts the LF against the limit, the server's does not. */
  predicate ClientWrites(frame: seq<byte>, limit: nat) {
    |frame| + 1 <= limit
  }

  predicate ServerWrites(frame: seq<byte>, limit: nat) {
    |frame| <= limit
  }

  function Decoded(frames: seq<seq<byte>>, decode: Decoder): seq<string>
    requires forall f :: f in frames ==> decode(f).Some?
  {
    if frames == [] then [] else [decode(frames[0]).value] + Decoded(frames[1..], decode)
  }

  lemma JsonIsItsBody(f: seq<byte>)
    requires JsonText(f)
    ensures NoLf(f) && Frames(f, f)
  {
  }

  /** A stream of JSON frames, cut off anywhere in a last one or not at all: every complete
      frame within the limit is read back, and the cut-off one never is. */
  lemma {:induction false} WrittenIsRead(frames: seq<seq<byte>>, cut: seq<byte>, limit: nat, decode: Decoder)
    requires forall f :: f in frames ==> JsonText(f) && ServerWrites(f, limit) && decode(f).Some?
    requires JsonText(cut)
    ensures Parse(Written(frames) + cut, limit, decode) == Outcome(Decoded(frames, decode), TailError(cut, limit))
    decreases |frames|
  {
    hide Parse, TailError;
    JsonIsItsBody(cut);
    if frames == [] {
      assert Written(frames) + cut == cut;
      TailIsAnError(cut, limit, decode);
    } else {
      hide JsonText, NoLf, Frames;
      var rest := Written(frames[1..]) + cut;
      WrittenIsRead(frames[1..], cut, limit, decode);
      assert Written(frames) + cut == (frames[0] + [LF]) + rest;
      JsonIsItsBody(frames[0]);
      FrameIsItsBody(frames[0], frames[0], rest, limit, decode);
    }
  }

  function WithCrs(frames: seq<seq<byte>>): seq<seq<byte>> {
    seq(|frames|, i requires 0 <= i < |frames| => frames[i] + [CR])
  }

  lemma {:induction false} DecodedIsEach(frames: seq<seq<byte>>, decode: Decoder)
    requires forall f :: f in frames ==> decode(f).Some?
    ensures |Decoded(frames, decode)| == |frames|
    ensures forall i :: 0 <= i < |frames| ==> Some(Decoded(frames, decode)[i]) == decode(frames[i])
    decreases |frames|
  {
    if frames != [] {
      DecodedIsEach(frames[1..], decode);
    }
  }

  /** Frames ended by CR LF come through as well, if there is room for the CR. */
  lemma CrLfIsRead(frames: seq<seq<byte>>, limit: nat, decode: Decoder)
    requires forall f :: f in frames ==> JsonText(f) && |f| + 1 <= limit && decode(f).Some?
    ensures Parse(Written(WithCrs(frames)), limit, decode) == Outcome(Decoded(frames, decode), None)
  {
    hide Parse, Written, Decoded;
    var ended := WithCrs(frames);
    assert Written(ended) + [] == Written(ended);
    StreamIsItsFrames(ended, frames, [], |frames|, limit, decode);
    var out := Parse(Written(ended), limit, decode);
    DecodedIsEach(frames, decode);
    assert out.lines == Decoded(frames, decode);
  }

  lemma {:induction false} TooLongIsAnError(frames: seq<seq<byte>>, limit: nat, decode: Decoder)
    requires forall f :: f in frames ==> JsonText(f) && decode(f).Some?
    requires exists f :: f in frames && !ServerWrites(f, limit)
    ensures Parse(Written(frames), limit, decode).error.Some?
    decreases |frames|
  {
    hide Parse, JsonText, NoLf, Frames;
    if frames == [] {
      assert false;
    } else {
      var rest := frames[1..];
      assert Written(frames) == (frames[0] + [LF]) + Written(rest);
      JsonIsItsBody(frames[0]);
      FrameIsItsBody(frames[0], frames[0], Written(rest), limit, decode);
      if ServerWrites(frames[0], limit) {
        var f :| f in frames && !ServerWrites(f, limit);
        assert f in rest;
        TooLongIsAnError(rest, limit, decode);
      }
    }
  }

  /** The writers' bound is exactly what the readers need: a sequence of decodable JSON
      frames comes through without an error if and only if each is within the limit, and
      then it comes through unchanged. */
  lemma RoundTripExactly(frames: seq<seq<byte>>, limit: nat, decode: Decoder)
    requires forall f :: f in frames ==> JsonText(f) && decode(f).Some?
    ensures Parse(Written(frames), limit, decode).error.None? <==> forall f :: f in frames ==> ServerWrites(f, limit)
    ensures Parse(Written(frames), limit, decode).error.None? ==>
      Parse(Written(frames), limit, decode).lines == Decoded(frames, decode)
  {
    hide Parse, Written, Decoded;
    if forall f :: f in frames ==> ServerWrites(f, limit) {
      WrittenIsRead(frames, [], limit, decode);
      assert Written(frames) + [] == Written(frames);
    } else {
      TooLongIsAnError(frames, limit, decode);
    }
  }

  /** The limit is documented without the LF, and both readers and the server's writer keep
      to that. The client's writer differs from it on exactly the frames that fill it, and on
      those alone it is at odds with what the readers take. */
  lemma ClientMissesTheLimit(frame: seq<byte>, limit: nat, decode: Decoder)
    ensures ClientWrites(frame, limit) <==> |frame + [LF]| <= limit
    ensures (ClientWrites(frame, limit) <==> ServerWrites(frame, limit)) <==> |frame| != limit
    ensures JsonText(frame) && decode(frame).Some? ==>
      ((ClientWrites(frame, limit) <==> Parse(Written([frame]), limit, decode).error.None?) <==> |frame| != limit)
  {
    if JsonText(frame) && decode(frame).Some? {
      RoundTripExactly([frame], limit, decode);
      assert frame in [frame];
    }
  }

  /** Any frame that fills the limit is an input it fails on: the client's writer refuses
      it, although the readers would have taken it. */
  lemma FullFrameIsRefused(frame: seq<byte>, decode: Decoder)
    requires JsonText(frame) && decode(frame).Some?
    ensures !ClientWrites(frame, |frame|) && ServerWrites(frame, |frame|)
    ensures Parse(Written([frame]), |frame|, decode) == Outcome([decode(frame).value], None)
  {
    hide Parse;
    WrittenIsRead([frame], [], |frame|, decode);
    assert Written([frame]) + [] == Written([frame]);
    assert [frame][1..] == [];
  }
}
