/** The usage observer: a tee over an upstream byte stream. It forwards every item
    untouched, reads a copy through the frame decoder, and tells the attempt what it saw. */
module UsageObserver {
  import opened Wrappers
  import opened Sse

  /** What one frame proved; the fields are independent of each other. */
  datatype ObservedFrame<+Usage> = ObservedFrame(
    fields: Option<Usage>,
    model: Option<string>,
    firstToken: bool,
    successfulTerminal: Option<bool>)

  /** What the attempt is told, in order. */
  datatype Report<+Usage> =
    | ModelObserved(model: string)
    | FirstToken
    | ObservationLost
    | SuccessTerminal
    | Finished(usage: Option<Usage>)
    | Cancelled(usage: Option<Usage>)

  /** One poll of the upstream. */
  datatype Item = Data(chunk: Bytes) | Failure(message: string) | Eof

  datatype Observer<+Usage> = Observer(
    decoder: DecoderState,
    latest: Option<Usage>,
    attached: bool,              // the attempt has not been told the end yet
    upstreamDone: bool,
    blind: bool,
    successfulTerminal: Option<bool>,
    reports: seq<Report<Usage>>)

  type Extractor<!Usage> = Bytes -> Option<ObservedFrame<Usage>>

  function Start<Usage>(): (st: Observer<Usage>) {
    Observer(INIT, None, true, false, false, None, [])
  }

  // ----- One frame -----

  function FrameReports<Usage>(o: ObservedFrame<Usage>): (r: seq<Report<Usage>>) {
    (if o.model.Some? then [ModelObserved(o.model.value)] else []) +
    (if o.firstToken then [FirstToken] else [])
  }

  /** A failure terminal is authoritative; a success terminal never replaces a verdict. */
  function Verdict(sofar: Option<bool>, terminal: Option<bool>): (r: Option<bool>) {
    match terminal
    case Some(false) => Some(false)
    case Some(true) => if sofar.None? then Some(true) else sofar
    case None => sofar
  }

  function InspectFrame<Usage>(st: Observer<Usage>, extract: Extractor<Usage>, frame: Bytes): (r: Observer<Usage>) {
    match extract(frame)
    case None => st
    case Some(o) =>
      st.(reports := st.reports + if st.attached then FrameReports(o) else [],
          successfulTerminal := Verdict(st.successfulTerminal, o.successfulTerminal),
          latest := if o.fields.Some? then o.fields else st.latest)
  }

  function InspectFrames<Usage>(st: Observer<Usage>, extract: Extractor<Usage>, frames: seq<Bytes>): (r: Observer<Usage>) {
    if frames == [] then st
    else InspectFrame(InspectFrames(st, extract, frames[..|frames| - 1]), extract, frames[|frames| - 1])
  }

  // ----- One poll, and the drop -----

  function Inspect<Usage>(st: Observer<Usage>, extract: Extractor<Usage>, chunk: Bytes): (r: Observer<Usage>) {
    if st.blind then st
    else
      var (decoder, result) := Push(st.decoder, chunk);
      var st := st.(decoder := decoder);
      match result
      case Ok(frames) => InspectFrames(st, extract, frames)
      case Err(_) => st.(blind := true, reports := st.reports + if st.attached then [ObservationLost] else [])
  }

  function ReportFinished<Usage>(st: Observer<Usage>): (r: Observer<Usage>) {
    if !st.attached then st
    else st.(attached := false, latest := None,
             reports := st.reports + (if st.successfulTerminal == Some(true) then [SuccessTerminal] else []) +
                        [Finished(st.latest)])
  }

  function ReportCancelled<Usage>(st: Observer<Usage>): (r: Observer<Usage>) {
    if !st.attached then st
    else if st.successfulTerminal.Some? then ReportFinished(st)
    else st.(attached := false, latest := None, reports := st.reports + [Cancelled(st.latest)])
  }

  /** Poll: the item handed downstream (None ends the stream) and the new state. */
  function Poll<Usage>(st: Observer<Usage>, extract: Extractor<Usage>, item: Item): (r: (Observer<Usage>, Option<Item>)) {
    if st.upstreamDone then (st, None)
    else
      match item
      case Data(chunk) => (Inspect(st, extract, chunk), Some(item))
      case Failure(_) => (st, Some(item))
      case Eof =>
        var trailing := Trailing(st.decoder);
        var st := st.(upstreamDone := true, decoder := st.decoder.(buffer := []));
        (ReportFinished(if trailing.Some? then InspectFrame(st, extract, trailing.value) else st), None)
  }

  // ----- Runs -----

  /** Poll the items one after another; also what was forwarded downstream. */
  function Run<Usage>(extract: Extractor<Usage>, items: seq<Item>): (r: (Observer<Usage>, seq<Item>)) {
    if items == [] then (Start(), [])
    else
      var (st, sent) := Run(extract, items[..|items| - 1]);
      var (st', out) := Poll(st, extract, items[|items| - 1]);
      (st', if out.Some? then sent + [out.value] else sent)
  }

  function Chunks(items: seq<Item>): (r: seq<Bytes>) {
    if items == [] then []
    else
      var rest := Chunks(items[..|items| - 1]);
      match items[|items| - 1]
      case Data(chunk) => rest + [chunk]
      case _ => rest
  }

  /** The payloads decoded before any push failed. */
  function Seen(chunks: seq<Bytes>): (r: seq<Bytes>) {
    if Decode(chunks).1.Some? then Decode(chunks).1.value
    else if chunks == [] then []
    else Seen(chunks[..|chunks| - 1])
  }

  // ----- Closed form of inspecting frames -----

  function AllReports<Usage>(extract: Extractor<Usage>, frames: seq<Bytes>): (r: seq<Report<Usage>>) {
    if frames == [] then []
    else
      AllReports(extract, frames[..|frames| - 1]) +
      match extract(frames[|frames| - 1])
      case None => []
      case Some(o) => FrameReports(o)
  }

  function LastUsage<Usage>(extract: Extractor<Usage>, frames: seq<Bytes>): (r: Option<Usage>) {
    if frames == [] then None
    else
      var o := extract(frames[|frames| - 1]);
      if o.Some? && o.value.fields.Some? then o.value.fields else LastUsage(extract, frames[..|frames| - 1])
  }

  predicate Proves<Usage>(extract: Extractor<Usage>, frame: Bytes, success: bool) {
    var o := extract(frame);
    o.Some? && o.value.successfulTerminal == Some(success)
  }

  ghost predicate SomeProves<Usage>(extract: Extractor<Usage>, frames: seq<Bytes>, success: bool) {
    exists f :: f in frames && Proves(extract, f, success)
  }

  /** The verdict of a whole response: any failure decides, else any success. */
  ghost function Outcome<Usage>(extract: Extractor<Usage>, frames: seq<Bytes>): (r: Option<bool>) {
    if SomeProves(extract, frames, false) then Some(false)
    else if SomeProves(extract, frames, true) then Some(true)
    else None
  }

  lemma {:induction false} InspectedFrames<Usage>(extract: Extractor<Usage>, frames: seq<Bytes>)
    ensures InspectFrames(Start(), extract, frames) ==
            Start<Usage>().(reports := AllReports(extract, frames),
                            latest := LastUsage(extract, frames),
                            successfulTerminal := Outcome(extract, frames))
  {
    if frames != [] {
      var init, last := frames[..|frames| - 1], frames[|frames| - 1];
      InspectedFrames(extract, init);
      ProvesLast(extract, frames, true);
      ProvesLast(extract, frames, false);
      assert AllReports(extract, init) + [] == AllReports(extract, init);
    }
  }

  lemma {:induction false} ProvesLast<Usage>(extract: Extractor<Usage>, frames: seq<Bytes>, success: bool)
    requires frames != []
    ensures SomeProves(extract, frames, success) <==>
            SomeProves(extract, frames[..|frames| - 1], success) || Proves(extract, frames[|frames| - 1], success)
  {
    var init, last := frames[..|frames| - 1], frames[|frames| - 1];
    assert frames == init + [last];
  }

  lemma {:induction false} InspectAppend<Usage>(st: Observer<Usage>, extract: Extractor<Usage>, a: seq<Bytes>, b: seq<Bytes>)
    ensures InspectFrames(st, extract, a + b) == InspectFrames(InspectFrames(st, extract, a), extract, b)
  {
    if b == [] {
      assert a + b == a;
    } else {
      assert (a + b)[..|a + b| - 1] == a + b[..|b| - 1];
      InspectAppend(st, extract, a, b[..|b| - 1]);
    }
  }

  /** Inspecting frames leaves the decoder, the blindness and the attachment alone. */
  lemma {:induction false} InspectFrame0<Usage>(st: Observer<Usage>, extract: Extractor<Usage>, frames: seq<Bytes>, d: DecoderState)
    ensures InspectFrames(st.(decoder := d), extract, frames) == InspectFrames(st, extract, frames).(decoder := d)
  {
    if frames != [] {
      InspectFrame0(st, extract, frames[..|frames| - 1], d);
    }
  }

  // ----- What a run has done so far -----

  /** The state reached by reading chunks. */
  ghost function Reached<Usage>(extract: Extractor<Usage>, chunks: seq<Bytes>): (st: Observer<Usage>) {
    var st := InspectFrames<Usage>(Start(), extract, Seen(chunks));
    var lost := Decode(chunks).0.overflowed;
    st.(decoder := Decode(chunks).0, blind := lost,
        reports := if lost then st.reports + [ObservationLost] else st.reports)
  }

  lemma {:induction false} SeenStep(chunks: seq<Bytes>, chunk: Bytes)
    ensures var result := Push(Decode(chunks).0, chunk).1;
            Seen(chunks + [chunk]) == if result.Ok? then Seen(chunks) + result.value else Seen(chunks)
  {
    DecodeStep(chunks, chunk);
    assert (chunks + [chunk])[..|chunks|] == chunks;
  }

  lemma {:induction false} InspectReaches<Usage>(extract: Extractor<Usage>, chunks: seq<Bytes>, chunk: Bytes)
    ensures Inspect(Reached<Usage>(extract, chunks), extract, chunk) == Reached(extract, chunks + [chunk])
  {
    var (d, result) := Push(Decode(chunks).0, chunk);
    DecodeStep(chunks, chunk);
    SeenStep(chunks, chunk);
    var before := InspectFrames<Usage>(Start(), extract, Seen(chunks));
    InspectedFrames(extract, Seen(chunks));
    if result.Ok? {
      InspectAppend(Start(), extract, Seen(chunks), result.value);
      InspectFrame0(before, extract, result.value, d);
      InspectedFrames(extract, Seen(chunks) + result.value);
    }
  }

  /** Polling items, none of them the end of the stream, forwards exactly those items. */
  lemma {:induction false} RunReaches<Usage>(extract: Extractor<Usage>, items: seq<Item>)
    requires Eof !in items
    ensures Run(extract, items) == (Reached<Usage>(extract, Chunks(items)), items)
  {
    if items != [] {
      var init, last := items[..|items| - 1], items[|items| - 1];
      RunReaches<Usage>(extract, init);
      assert items == init + [last];
      InspectedFrames<Usage>(extract, Seen(Chunks(init)));
      if last.Data? {
        InspectReaches<Usage>(extract, Chunks(init), last.chunk);
      }
    }
  }

  // ----- How a run ends -----

  function Optional<T>(o: Option<T>): (r: seq<T>) {
    if o.Some? then [o.value] else []
  }

  /** Everything the observer ever inspects if the stream ends after these chunks. */
  function AllSeen(chunks: seq<Bytes>): (r: seq<Bytes>) {
    Seen(chunks) + Optional(Trailing(Decode(chunks).0))
  }

  /** A complete account of a response: its frames, then how it ended. */
  function Tell<Usage>(body: seq<Report<Usage>>, lost: bool, success: bool, end: Report<Usage>): (r: seq<Report<Usage>>) {
    body + (if lost then [ObservationLost] else []) + (if success then [SuccessTerminal] else []) + [end]
  }

  /** The end of stream, told in full: frame reports, lost observation if any, success
      exactly for a successful outcome, and one Finished carrying the last usage. */
  ghost function ToldAtEof<Usage>(extract: Extractor<Usage>, chunks: seq<Bytes>): (r: seq<Report<Usage>>) {
    var frames := AllSeen(chunks);
    Tell(AllReports(extract, frames), Decode(chunks).0.overflowed,
         Outcome(extract, frames) == Some(true), Finished(LastUsage(extract, frames)))
  }

  /** A drop before the end: Finished after a protocol terminal, Cancelled otherwise. */
  ghost function ToldAtDrop<Usage>(extract: Extractor<Usage>, chunks: seq<Bytes>): (r: seq<Report<Usage>>) {
    var frames, usage := Seen(chunks), LastUsage(extract, Seen(chunks));
    var outcome := Outcome(extract, frames);
    Tell(AllReports(extract, frames), Decode(chunks).0.overflowed,
         outcome == Some(true), if outcome.Some? then Finished(usage) else Cancelled(usage))
  }

  lemma {:induction false} OverflowHasNoTrailing(chunks: seq<Bytes>)
    ensures Decode(chunks).0.overflowed ==> Trailing(Decode(chunks).0) == None
  {
    RunReadsStream(chunks);
  }

  lemma {:induction false} TrailingReports<Usage>(extract: Extractor<Usage>, chunks: seq<Bytes>)
    requires Trailing(Decode(chunks).0).Some?
    ensures var st := Reached<Usage>(extract, chunks);
            InspectFrame(st, extract, Trailing(st.decoder).value) ==
            st.(reports := AllReports(extract, AllSeen(chunks)),
                latest := LastUsage(extract, AllSeen(chunks)),
                successfulTerminal := Outcome(extract, AllSeen(chunks)))
  {
    OverflowHasNoTrailing(chunks);
    InspectedFrames<Usage>(extract, Seen(chunks));
    InspectedFrames<Usage>(extract, AllSeen(chunks));
    assert AllSeen(chunks)[..|Seen(chunks)|] == Seen(chunks);
  }

  lemma {:induction false} InspectCommutes<Usage>(st: Observer<Usage>, extract: Extractor<Usage>, frame: Bytes, d: DecoderState)
    ensures InspectFrame(st.(upstreamDone := true, decoder := d), extract, frame) ==
            InspectFrame(st, extract, frame).(upstreamDone := true, decoder := d)
  {}

  lemma {:induction false} EofReached<Usage>(extract: Extractor<Usage>, chunks: seq<Bytes>)
    ensures var (st, out) := Poll(Reached<Usage>(extract, chunks), extract, Eof);
            st.reports == ToldAtEof(extract, chunks) && !st.attached && st.upstreamDone && out.None?
  {
    InspectedFrames<Usage>(extract, Seen(chunks));
    var st := Reached<Usage>(extract, chunks);
    if Trailing(st.decoder).Some? {
      var d := st.decoder.(buffer := []);
      TrailingReports<Usage>(extract, chunks);
      InspectCommutes<Usage>(st, extract, Trailing(st.decoder).value, d);
      OverflowHasNoTrailing(chunks);
    } else {
      assert AllSeen(chunks) == Seen(chunks);
    }
  }

  /** At the end of the stream the observer has forwarded exactly the upstream items and
      told the attempt `ToldAtEof`. */
  lemma {:induction false} EndOfStream<Usage>(extract: Extractor<Usage>, items: seq<Item>)
    requires Eof !in items
    ensures Run<Usage>(extract, items + [Eof]).1 == items
    ensures Run<Usage>(extract, items + [Eof]).0.reports == ToldAtEof(extract, Chunks(items))
    ensures !Run<Usage>(extract, items + [Eof]).0.attached && Run<Usage>(extract, items + [Eof]).0.upstreamDone
  {
    RunReaches<Usage>(extract, items);
    assert (items + [Eof])[..|items|] == items;
    EofReached<Usage>(extract, Chunks(items));
  }

  /** A drop at any earlier point tells `ToldAtDrop`. */
  lemma {:induction false} DropBeforeEnd<Usage>(extract: Extractor<Usage>, items: seq<Item>)
    requires Eof !in items
    ensures ReportCancelled(Run<Usage>(extract, items).0).reports == ToldAtDrop(extract, Chunks(items))
  {
    RunReaches<Usage>(extract, items);
    InspectedFrames<Usage>(extract, Seen(Chunks(items)));
  }

  lemma {:induction false} DoneRunStays<Usage>(extract: Extractor<Usage>, items: seq<Item>, more: seq<Item>)
    requires Run<Usage>(extract, items).0.upstreamDone
    ensures Run<Usage>(extract, items + more) == Run(extract, items)
    decreases |more|
  {
    if more == [] {
      assert items + more == items;
    } else {
      DoneRunStays<Usage>(extract, items, more[..|more| - 1]);
      assert (items + more)[..|items + more| - 1] == items + more[..|more| - 1];
    }
  }

  /** After the end, further polls and the drop change nothing and forward nothing. */
  lemma {:induction false} NothingAfterEnd<Usage>(extract: Extractor<Usage>, items: seq<Item>, more: seq<Item>)
    requires Eof !in items
    ensures Run<Usage>(extract, items + [Eof] + more) == Run(extract, items + [Eof])
    ensures var st := Run<Usage>(extract, items + [Eof] + more).0; ReportCancelled(st) == st
  {
    EndOfStream<Usage>(extract, items);
    DoneRunStays<Usage>(extract, items + [Eof], more);
  }

  /** One terminal report, at the end; at most one lost-observation report. */
  ghost predicate ToldOnce<Usage>(rs: seq<Report<Usage>>) {
    && rs != [] && (rs[|rs| - 1].Finished? || rs[|rs| - 1].Cancelled?)
    && (forall i :: 0 <= i < |rs| - 1 ==> !rs[i].Finished? && !rs[i].Cancelled?)
    && (forall i, j :: 0 <= i < |rs| && 0 <= j < |rs| && rs[i].ObservationLost? && rs[j].ObservationLost? ==> i == j)
  }

  lemma {:induction false} FrameReportsOnly<Usage>(extract: Extractor<Usage>, frames: seq<Bytes>)
    ensures forall r :: r in AllReports(extract, frames) ==> r.ModelObserved? || r.FirstToken?
  {
    if frames != [] {
      FrameReportsOnly(extract, frames[..|frames| - 1]);
    }
  }

  lemma {:induction false} ToldShape<Usage>(body: seq<Report<Usage>>, lost: bool, success: bool, end: Report<Usage>)
    requires forall r :: r in body ==> r.ModelObserved? || r.FirstToken?
    requires end.Finished? || end.Cancelled?
    ensures var rs := Tell(body, lost, success, end);
            && ToldOnce(rs)
            && (SuccessTerminal in rs <==> success)
            && (ObservationLost in rs <==> lost)
  {
    var rs := Tell(body, lost, success, end);
    assert forall i | 0 <= i < |body| :: rs[i] == body[i] && body[i] in body;
    if lost {
      assert rs[|body|] == ObservationLost;
    }
    if success {
      assert rs[|rs| - 2] == SuccessTerminal;
    }
  }

  /** The attempt hears the end exactly once, whether the stream ends or is dropped, and
      hears success exactly for a response with a success frame and no failure frame. */
  lemma {:induction false} ReportedExactlyOnce<Usage>(extract: Extractor<Usage>, chunks: seq<Bytes>)
    ensures ToldOnce(ToldAtEof<Usage>(extract, chunks)) && ToldOnce(ToldAtDrop<Usage>(extract, chunks))
    ensures SuccessTerminal in ToldAtEof<Usage>(extract, chunks) <==>
            SomeProves(extract, AllSeen(chunks), true) && !SomeProves(extract, AllSeen(chunks), false)
    ensures SuccessTerminal in ToldAtDrop<Usage>(extract, chunks) <==>
            SomeProves(extract, Seen(chunks), true) && !SomeProves(extract, Seen(chunks), false)
    ensures ObservationLost in ToldAtEof<Usage>(extract, chunks) <==> !Fits(chunks)
    ensures ToldAtEof<Usage>(extract, chunks)[|ToldAtEof<Usage>(extract, chunks)| - 1].Finished?
  {
    RunReadsStream(chunks);
    FrameReportsOnly<Usage>(extract, AllSeen(chunks));
    FrameReportsOnly<Usage>(extract, Seen(chunks));
    var (all, seen, lost) := (AllSeen(chunks), Seen(chunks), Decode(chunks).0.overflowed);
    ToldShape(AllReports<Usage>(extract, all), lost, Outcome(extract, all) == Some(true),
              Finished(LastUsage(extract, all)));
    var outcome, usage := Outcome<Usage>(extract, seen), LastUsage<Usage>(extract, seen);
    ToldShape(AllReports<Usage>(extract, seen), lost, outcome == Some(true),
              if outcome.Some? then Finished(usage) else Cancelled(usage));
  }

  /** What is told at the end depends only on the bytes, not on how they were chunked or
      which errors were interleaved, as long as no pending frame outgrows the cap. */
  lemma {:induction false} VerdictIndependentOfChunking<Usage>(extract: Extractor<Usage>, a: seq<Item>, b: seq<Item>)
    requires Eof !in a && Eof !in b
    requires Flatten(Chunks(a)) == Flatten(Chunks(b))
    requires Fits(Chunks(a)) && Fits(Chunks(b))
    ensures Run<Usage>(extract, a + [Eof]).0.reports == Run<Usage>(extract, b + [Eof]).0.reports
  {
    EndOfStream<Usage>(extract, a);
    EndOfStream<Usage>(extract, b);
    RunReadsStream(Chunks(a));
    RunReadsStream(Chunks(b));
  }

  // ----- The stream wrapper itself -----

  class UsageObservingStream<Usage(!new)> {
    const extractor: Extractor<Usage>
    const decoder: SseDecoder
    var latest: Option<Usage>
    var attached: bool
    var upstreamDone: bool
    var blind: bool
    var successfulTerminal: Option<bool>
    var reports: seq<Report<Usage>>

    ghost function View(): (st: Observer<Usage>)
      reads this, decoder
    {
      Observer(decoder.View(), latest, attached, upstreamDone, blind, successfulTerminal, reports)
    }

    constructor (extractor: Extractor<Usage>)
      ensures View() == Start() && this.extractor == extractor && fresh(decoder)
    {
      this.extractor := extractor;
      decoder := new SseDecoder();
      latest, attached, upstreamDone, blind, successfulTerminal, reports := None, true, false, false, None, [];
    }

    /** Poll the upstream once and hand its item on. */
    method NextItem(item: Item) returns (out: Option<Item>)
      modifies this, decoder
      ensures (View(), out) == Poll(old(View()), extractor, item)
    {
      if upstreamDone {
        return None;
      }
      match item
      case Data(chunk) =>
        InspectChunk(chunk);
        return Some(item);
      case Failure(_) =>
        return Some(item);
      case Eof =>
        upstreamDone := true;
        var trailing := decoder.Finish();
        if trailing.Some? {
          ObserveFrame(trailing.value);
        }
        TellFinished();
        return None;
    }

    method InspectChunk(chunk: Bytes)
      modifies this, decoder
      ensures View() == Inspect(old(View()), extractor, chunk)
    {
      if blind {
        return;
      }
      var result := decoder.PushChunk(chunk);
      ghost var pushed := View();
      match result
      case Ok(frames) =>
        for i := 0 to |frames|
          invariant View() == InspectFrames(pushed, extractor, frames[..i])
          invariant decoder.View() == pushed.decoder
        {
          assert frames[..i + 1][..i] == frames[..i];
          ObserveFrame(frames[i]);
        }
        assert frames[..|frames|] == frames;
      case Err(_) =>
        blind := true;
        if attached {
          reports := reports + [ObservationLost];
        }
    }

    method ObserveFrame(frame: Bytes)
      modifies this
      ensures View() == InspectFrame(old(View()), extractor, frame)
    {
      var observed := extractor(frame);
      if observed.None? {
        return;
      }
      var o := observed.value;
      if attached {
        if o.model.Some? {
          reports := reports + [ModelObserved(o.model.value)];
        }
        if o.firstToken {
          reports := reports + [FirstToken];
        }
      }
      if o.successfulTerminal == Some(false) {
        successfulTerminal := Some(false);
      } else if o.successfulTerminal == Some(true) && successfulTerminal.None? {
        successfulTerminal := Some(true);
      }
      if o.fields.Some? {
        latest := o.fields;
      }
    }

    method TellFinished()
      modifies this
      ensures View() == ReportFinished(old(View()))
    {
      if attached {
        attached := false;
        if successfulTerminal == Some(true) {
          reports := reports + [SuccessTerminal];
        }
        reports := reports + [Finished(latest)];
        latest := None;
      }
    }

    /** The drop: a client disconnect reports whatever was already observed. */
    method Drop()
      modifies this
      ensures View() == ReportCancelled(old(View()))
    {
      if !attached {
        return;
      }
      if successfulTerminal.Some? {
        TellFinished();
      } else {
        attached := false;
        reports := reports + [Cancelled(latest)];
        latest := None;
      }
    }
  }
}
