/** The server-sent-event frame decoder: a byte stream is cut at blank lines, each
    frame's `data:` lines are joined, and one pending frame may hold at most
    MAX_PENDING_FRAME bytes. */
module Sse {
  import opened Wrappers
  import opened Collections

  newtype Byte = x: int | 0 <= x < 256
  type Bytes = seq<Byte>

  const LF: Byte := 10
  const CR: Byte := 13
  const SPACE: Byte := 32
  const DATA_PREFIX: Bytes := [100, 97, 116, 97, 58]
  const MAX_PENDING_FRAME: nat := 1024 * 1024

  // ----- Delimiters -----

  predicate LfLfAt(b: Bytes, i: nat) {
    i + 2 <= |b| && b[i] == LF && b[i + 1] == LF
  }

  predicate CrlfCrlfAt(b: Bytes, i: nat) {
    i + 4 <= |b| && b[i] == CR && b[i + 1] == LF && b[i + 2] == CR && b[i + 3] == LF
  }

  /** A frame delimiter starts at `i`. */
  predicate DelimAt(b: Bytes, i: nat) {
    LfLfAt(b, i) || CrlfCrlfAt(b, i)
  }

  ghost predicate NoDelim(b: Bytes) {
    forall i: nat :: !DelimAt(b, i)
  }

  function FirstLfLf(b: Bytes, from: nat): (r: Option<nat>)
    ensures r.Some? ==> LfLfAt(b, r.value) && forall k: nat :: from <= k < r.value ==> !LfLfAt(b, k)
    ensures r.None? ==> forall k: nat :: from <= k ==> !LfLfAt(b, k)
    decreases |b| - from
  {
    if from + 2 > |b| then None else if LfLfAt(b, from) then Some(from) else FirstLfLf(b, from + 1)
  }

  function FirstCrlfCrlf(b: Bytes, from: nat): (r: Option<nat>)
    ensures r.Some? ==> CrlfCrlfAt(b, r.value) && forall k: nat :: from <= k < r.value ==> !CrlfCrlfAt(b, k)
    ensures r.None? ==> forall k: nat :: from <= k ==> !CrlfCrlfAt(b, k)
    decreases |b| - from
  {
    if from + 4 > |b| then None else if CrlfCrlfAt(b, from) then Some(from) else FirstCrlfCrlf(b, from + 1)
  }

  /** The earliest delimiter of either kind, or None when no frame is complete. */
  function FindFrameEnd(b: Bytes): (r: Option<nat>)
    ensures r.Some? ==> DelimAt(b, r.value) && forall k: nat :: k < r.value ==> !DelimAt(b, k)
    ensures r.None? <==> NoDelim(b)
  {
    match (FirstLfLf(b, 0), FirstCrlfCrlf(b, 0))
    case (Some(lf), Some(crlf)) => Some(if lf <= crlf then lf else crlf)
    case (Some(end), None) => Some(end)
    case (None, Some(end)) => Some(end)
    case (None, None) => None
  }

  function DelimiterLength(b: Bytes, end: nat): (n: nat)
    requires DelimAt(b, end)
    ensures 2 <= n <= 4 && end + n <= |b|
  {
    if CrlfCrlfAt(b, end) then 4 else 2
  }

  // ----- One-shot reference: cut the whole stream -----

  /** All complete frames of a stream, in order. */
  function Frames(b: Bytes): (r: seq<Bytes>)
    decreases |b|
  {
    match FindFrameEnd(b)
    case None => []
    case Some(end) => [b[..end]] + Frames(b[end + DelimiterLength(b, end)..])
  }

  /** What follows the last delimiter of a stream. */
  function Pending(b: Bytes): (r: Bytes)
    decreases |b|
  {
    match FindFrameEnd(b)
    case None => b
    case Some(end) => Pending(b[end + DelimiterLength(b, end)..])
  }

  // ----- Frame payload -----

  function FirstLf(b: Bytes, from: nat): (r: Option<nat>)
    ensures r.Some? ==> from <= r.value < |b| && b[r.value] == LF
    decreases |b| - from
  {
    if from >= |b| then None else if b[from] == LF then Some(from) else FirstLf(b, from + 1)
  }

  /** The pieces of `b` between line feeds; always at least one piece. */
  function Lines(b: Bytes): (r: seq<Bytes>)
    ensures |r| >= 1
    decreases |b|
  {
    match FirstLf(b, 0)
    case None => [b]
    case Some(i) => [b[..i]] + Lines(b[i + 1..])
  }

  function StripSuffixCr(line: Bytes): (r: Bytes) {
    if |line| > 0 && line[|line| - 1] == CR then line[..|line| - 1] else line
  }

  /** The value of a `data:` line, without one leading space. */
  function DataValue(line: Bytes): (r: Option<Bytes>) {
    var line := StripSuffixCr(line);
    if DATA_PREFIX <= line then
      var value := line[|DATA_PREFIX|..];
      Some(if |value| > 0 && value[0] == SPACE then value[1..] else value)
    else None
  }

  function DataValues(lines: seq<Bytes>): (r: seq<Bytes>) {
    if lines == [] then []
    else
      var rest := DataValues(lines[..|lines| - 1]);
      match DataValue(lines[|lines| - 1])
      case None => rest
      case Some(v) => rest + [v]
  }

  /** Values separated by single line feeds. */
  function JoinLf(values: seq<Bytes>): (r: Bytes) {
    if values == [] then []
    else if |values| == 1 then values[0]
    else JoinLf(values[..|values| - 1]) + [LF] + values[|values| - 1]
  }

  function DropLeadingEmpty(values: seq<Bytes>): (r: seq<Bytes>) {
    if values != [] && values[0] == [] then DropLeadingEmpty(values[1..]) else values
  }

  /** What a frame carries: its data values joined, without the leading empty ones. */
  function Payload(frame: Bytes): (r: Option<Bytes>) {
    var data := JoinLf(DropLeadingEmpty(DataValues(Lines(frame))));
    if data == [] then None else Some(data)
  }

  function Payloads(frames: seq<Bytes>): (r: seq<Bytes>) {
    if frames == [] then []
    else
      var rest := Payloads(frames[..|frames| - 1]);
      match Payload(frames[|frames| - 1])
      case None => rest
      case Some(p) => rest + [p]
  }

  // ----- Cutting is compositional -----

  /** The earliest delimiter of a prefix stays the earliest one, with the same length,
      whatever bytes follow: the two delimiters never overlap in a way that lets later
      bytes complete an earlier one. */
  lemma {:induction false} FirstDelimiterStable(a: Bytes, b: Bytes, end: nat)
    requires FindFrameEnd(a) == Some(end)
    ensures FindFrameEnd(a + b) == Some(end)
    ensures DelimiterLength(a + b, end) == DelimiterLength(a, end)
  {
    var s := a + b;
    assert forall k: nat | k < end :: DelimAt(s, k) ==> DelimAt(a, k);
    assert DelimAt(s, end);
  }

  /** Cutting a concatenation is cutting the first part, then its remainder with the rest. */
  lemma {:induction false} PendingAppend(a: Bytes, b: Bytes)
    ensures Pending(a + b) == Pending(Pending(a) + b)
    decreases |a|
  {
    match FindFrameEnd(a)
    case None =>
    case Some(end) =>
      FirstDelimiterStable(a, b, end);
      var n := end + DelimiterLength(a, end);
      assert (a + b)[n..] == a[n..] + b;
      PendingAppend(a[n..], b);
  }

  lemma {:induction false} FramesAppend(a: Bytes, b: Bytes)
    ensures Frames(a + b) == Frames(a) + Frames(Pending(a) + b)
    decreases |a|
  {
    match FindFrameEnd(a)
    case None =>
      assert [] + Frames(a + b) == Frames(a + b);
    case Some(end) =>
      FirstDelimiterStable(a, b, end);
      var n := end + DelimiterLength(a, end);
      assert (a + b)[n..] == a[n..] + b && (a + b)[..end] == a[..end];
      FramesAppend(a[n..], b);
      Assoc([a[..end]], Frames(a[n..]), Frames(Pending(a[n..]) + b));
  }

  lemma {:induction false} PayloadsAppend(a: seq<Bytes>, b: seq<Bytes>)
    ensures Payloads(a + b) == Payloads(a) + Payloads(b)
  {
    if b == [] {
      assert a + b == a;
    } else {
      var last := |b| - 1;
      assert (a + b)[..|a + b| - 1] == a + b[..last];
      PayloadsAppend(a, b[..last]);
    }
  }

  // ----- The framing a stream spells, stated without the search -----

  /** A frame body with the delimiter that ended it. */
  datatype Segment = Segment(body: Bytes, delimiter: Bytes)

  ghost predicate Complete(s: Segment) {
    && (s.delimiter == [LF, LF] || s.delimiter == [CR, LF, CR, LF])
    && forall k: nat :: k < |s.body| ==> !DelimAt(s.body + s.delimiter, k)
  }

  function Spell(segments: seq<Segment>, rest: Bytes): (r: Bytes) {
    if segments == [] then rest
    else segments[0].body + segments[0].delimiter + Spell(segments[1..], rest)
  }

  function Bodies(segments: seq<Segment>): (r: seq<Bytes>) {
    if segments == [] then [] else [segments[0].body] + Bodies(segments[1..])
  }

  lemma {:induction false} SegmentEnds(s: Segment, tail: Bytes)
    requires Complete(s)
    ensures FindFrameEnd(s.body + s.delimiter + tail) == Some(|s.body|)
    ensures DelimiterLength(s.body + s.delimiter + tail, |s.body|) == |s.delimiter|
  {
    var a := s.body + s.delimiter;
    assert DelimAt(a, |s.body|);
    assert FindFrameEnd(a) == Some(|s.body|);
    FirstDelimiterStable(a, tail, |s.body|);
  }

  /** However a stream is spelled as complete frames and an undelimited rest, cutting
      finds exactly those frames and that rest: the reading of a stream is unique. */
  lemma {:induction false} CutReadsSpelling(segments: seq<Segment>, rest: Bytes)
    requires forall s :: s in segments ==> Complete(s)
    requires NoDelim(rest)
    ensures Frames(Spell(segments, rest)) == Bodies(segments)
    ensures Pending(Spell(segments, rest)) == rest
  {
    if segments != [] {
      var head, tail := segments[0], Spell(segments[1..], rest);
      SegmentEnds(head, tail);
      CutReadsSpelling(segments[1..], rest);
      var b := head.body + head.delimiter + tail;
      assert b[..|head.body|] == head.body;
      assert b[|head.body| + |head.delimiter|..] == tail;
    }
  }

  /** Every stream has such a spelling, so the two views describe the same streams. */
  lemma {:induction false} EveryStreamSpells(b: Bytes) returns (segments: seq<Segment>)
    ensures forall s :: s in segments ==> Complete(s)
    ensures Spell(segments, Pending(b)) == b && Bodies(segments) == Frames(b)
    ensures NoDelim(Pending(b))
    decreases |b|
  {
    match FindFrameEnd(b)
    case None => segments := [];
    case Some(end) =>
      var n := DelimiterLength(b, end);
      var later := EveryStreamSpells(b[end + n..]);
      var head := Segment(b[..end], b[end..end + n]);
      HeadComplete(b, end);
      assert b == head.body + head.delimiter + b[end + n..];
      segments := [head] + later;
      assert segments[1..] == later && segments[0] == head;
      assert Spell(segments, Pending(b)) == head.body + head.delimiter + Spell(later, Pending(b));
  }

  lemma {:induction false} HeadComplete(b: Bytes, end: nat)
    requires FindFrameEnd(b) == Some(end)
    ensures Complete(Segment(b[..end], b[end..end + DelimiterLength(b, end)]))
  {
    var n := DelimiterLength(b, end);
    var s := Segment(b[..end], b[end..end + n]);
    assert if n == 4 then s.delimiter == [CR, LF, CR, LF] else s.delimiter == [LF, LF];
    assert s.body + s.delimiter == b[..end + n];
    forall k: nat | k < |s.body|
      ensures !DelimAt(s.body + s.delimiter, k)
    {
      assert !DelimAt(b, k);
    }
  }

  // ----- The decoder and its runs -----

  datatype FrameTooLarge = FrameTooLarge

  datatype DecoderState = DecoderState(buffer: Bytes, overflowed: bool)

  const INIT: DecoderState := DecoderState([], false)

  /** Feed one chunk: the payloads it completes, or failure once a pending frame is oversized. */
  function Push(st: DecoderState, chunk: Bytes): (r: (DecoderState, Result<seq<Bytes>, FrameTooLarge>)) {
    if st.overflowed then (st, Err(FrameTooLarge))
    else
      var b := st.buffer + chunk;
      if |Pending(b)| > MAX_PENDING_FRAME then (DecoderState([], true), Err(FrameTooLarge))
      else (DecoderState(Pending(b), false), Ok(Payloads(Frames(b))))
  }

  /** The trailing payload at end of stream. */
  function Trailing(st: DecoderState): (r: Option<Bytes>) {
    if st.buffer == [] then None else Payload(st.buffer)
  }

  function Flatten(chunks: seq<Bytes>): (r: Bytes) {
    if chunks == [] then [] else Flatten(chunks[..|chunks| - 1]) + chunks[|chunks| - 1]
  }

  /** Push the chunks one after another; None as soon as one push failed. */
  function Decode(chunks: seq<Bytes>): (r: (DecoderState, Option<seq<Bytes>>)) {
    if chunks == [] then (INIT, Some([]))
    else
      var (st, sofar) := Decode(chunks[..|chunks| - 1]);
      var (st', result) := Push(st, chunks[|chunks| - 1]);
      (st', if sofar.Some? && result.Ok? then Some(sofar.value + result.value) else None)
  }

  /** At every chunk boundary the pending frame fits the cap. */
  ghost predicate Fits(chunks: seq<Bytes>) {
    forall i :: 0 <= i <= |chunks| ==> |Pending(Flatten(chunks[..i]))| <= MAX_PENDING_FRAME
  }

  lemma {:induction false} FitsLast(chunks: seq<Bytes>)
    requires chunks != []
    ensures Fits(chunks) <==>
            Fits(chunks[..|chunks| - 1]) && |Pending(Flatten(chunks))| <= MAX_PENDING_FRAME
  {
    var init := chunks[..|chunks| - 1];
    assert forall i | 0 <= i <= |init| :: init[..i] == chunks[..i];
    assert chunks[..|chunks|] == chunks;
  }

  /** What any sequence of pushes computes: it succeeds exactly when the pending frame fits
      at every chunk boundary, and then yields the one-shot reading of the whole stream;
      otherwise the decoder ends poisoned, with its memory released. */
  lemma {:induction false} RunReadsStream(chunks: seq<Bytes>)
    ensures Decode(chunks).1.Some? <==> Fits(chunks)
    ensures Fits(chunks) ==> Decode(chunks) == (DecoderState(Pending(Flatten(chunks)), false),
                                             Some(Payloads(Frames(Flatten(chunks)))))
    ensures !Fits(chunks) ==> Decode(chunks).0 == DecoderState([], true)
  {
    if chunks != [] {
      var init, last := chunks[..|chunks| - 1], chunks[|chunks| - 1];
      RunReadsStream(init);
      FitsLast(chunks);
      var a := Flatten(init);
      PendingAppend(a, last);
      FramesAppend(a, last);
      PayloadsAppend(Frames(a), Frames(Pending(a) + last));
    }
  }

  lemma {:induction false} DecodeStep(chunks: seq<Bytes>, chunk: Bytes)
    ensures var (st, sofar) := Decode(chunks);
            var (st', result) := Push(st, chunk);
            && (sofar.None? <==> st.overflowed)
            && (result.Err? <==> st'.overflowed)
            && Decode(chunks + [chunk]) ==
               (st', if sofar.Some? && result.Ok? then Some(sofar.value + result.value) else None)
  {
    RunReadsStream(chunks);
    assert (chunks + [chunk])[..|chunks|] == chunks;
  }

  /** Decoding does not depend on chunking: a split in which no push fails gives the frames
      and the remainder of one push of the whole, and if the whole push overflows so does
      every split. */
  lemma {:induction false} ChunkingIndependence(chunks: seq<Bytes>)
    ensures var whole := Push(INIT, Flatten(chunks));
            && (Decode(chunks).1.Some? ==>
                  whole.1 == Ok(Decode(chunks).1.value) && whole.0 == Decode(chunks).0)
            && (whole.1.Err? ==> Decode(chunks).1.None?)
  {
    RunReadsStream(chunks);
    assert chunks[..|chunks|] == chunks;
    assert INIT.buffer + Flatten(chunks) == Flatten(chunks);
  }

  /** After every push the buffer holds no complete delimiter and at most the cap, and
      overflow is permanent. */
  lemma {:induction false} ReachableState(chunks: seq<Bytes>, more: seq<Bytes>)
    ensures NoDelim(Decode(chunks).0.buffer) && |Decode(chunks).0.buffer| <= MAX_PENDING_FRAME
    ensures Decode(chunks).0.overflowed ==>
              Decode(chunks + more).0 == Decode(chunks).0 && Decode(chunks + more).1.None?
    decreases |more|
  {
    RunReadsStream(chunks);
    assert chunks[..|chunks|] == chunks;
    var segments := EveryStreamSpells(Flatten(chunks));
    if more == [] {
      assert chunks + more == chunks;
    } else {
      ReachableState(chunks, more[..|more| - 1]);
      assert (chunks + more)[..|chunks + more| - 1] == chunks + more[..|more| - 1];
    }
  }

  // ----- Joining data lines -----

  /** Appending one value to the joined data, as the decoder's line loop does it. */
  lemma {:induction false} JoinAppend(values: seq<Bytes>, v: Bytes)
    ensures var kept := DropLeadingEmpty(values);
            && (JoinLf(kept) == [] <==> kept == [])
            && JoinLf(DropLeadingEmpty(values + [v])) ==
               if JoinLf(kept) == [] then v else JoinLf(kept) + [LF] + v
  {
    if values == [] {
      assert values + [v] == [v] && [v][1..] == [];
    } else if values[0] == [] {
      JoinAppend(values[1..], v);
      assert (values + [v])[1..] == values[1..] + [v];
    } else {
      JoinNonEmpty(values);
      assert (values + [v])[..|values|] == values;
    }
  }

  lemma {:induction false} JoinNonEmpty(values: seq<Bytes>)
    requires values != [] && values[0] != []
    ensures |JoinLf(values)| > 0
  {
    if |values| > 1 {
      assert |JoinLf(values)| >= 1;
    }
  }

  /** The decoder's line loop. */
  method FrameData(frame: Bytes) returns (data: Option<Bytes>)
    ensures data == Payload(frame)
  {
    var lines := Lines(frame);
    var joined: Bytes := [];
    for i := 0 to |lines|
      invariant joined == JoinLf(DropLeadingEmpty(DataValues(lines[..i])))
    {
      assert lines[..i + 1][..i] == lines[..i];
      var value := DataValue(lines[i]);
      if value.Some? {
        JoinAppend(DataValues(lines[..i]), value.value);
        if joined != [] {
          joined := joined + [LF];
        }
        joined := joined + value.value;
      }
    }
    assert lines[..|lines|] == lines;
    data := if joined == [] then None else Some(joined);
  }

  class SseDecoder {
    var buffer: Bytes
    var overflowed: bool

    ghost function View(): (st: DecoderState)
      reads this
    {
      DecoderState(buffer, overflowed)
    }

    constructor ()
      ensures View() == INIT
    {
      buffer, overflowed := [], false;
    }

    method PushChunk(chunk: Bytes) returns (r: Result<seq<Bytes>, FrameTooLarge>)
      modifies this
      ensures (View(), r) == Push(old(View()), chunk)
    {
      if overflowed {
        return Err(FrameTooLarge);
      }
      buffer := buffer + chunk;
      ghost var whole, cut := buffer, [];
      var output := [];
      var end := FindFrameEnd(buffer);
      while end.Some?
        invariant overflowed == old(overflowed)
        invariant end == FindFrameEnd(buffer)
        invariant Frames(whole) == cut + Frames(buffer) && Pending(whole) == Pending(buffer)
        invariant output == Payloads(cut)
        decreases |buffer|
      {
        var frame := buffer[..end.value];
        var n := DelimiterLength(buffer, end.value);
        Assoc(cut, [frame], Frames(buffer[end.value + n..]));
        buffer := buffer[end.value + n..];
        assert (cut + [frame])[..|cut|] == cut;
        cut := cut + [frame];
        var data := FrameData(frame);
        if data.Some? {
          output := output + [data.value];
        }
        end := FindFrameEnd(buffer);
      }
      assert cut + [] == cut;
      if |buffer| > MAX_PENDING_FRAME {
        overflowed := true;
        buffer := [];
        return Err(FrameTooLarge);
      }
      return Ok(output);
    }

    method Finish() returns (data: Option<Bytes>)
      modifies this
      ensures data == Trailing(old(View()))
      ensures View() == old(View()).(buffer := [])
    {
      if buffer == [] {
        return None;
      }
      var frame := buffer;
      buffer := [];
      data := FrameData(frame);
    }
  }
}
