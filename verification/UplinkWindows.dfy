// What the furniture sends, stated without its counters and buffers: a sequence of windows
// of the microphone stream, each rendered as start, 600 ms pieces, end.
module UplinkWindows {
  import opened Wire
  import opened Vad
  import opened Chunks
  import opened Uplink

  /** Frames from..end are sent; the detector fired at frame `start` and stopped at `end`. */
  datatype Window = Window(from: nat, start: nat, end: nat)

  datatype Phase =
    | Idle(base: nat)                  // listening since frame `base`
    | Talking(base: nat, start: nat)
    | Paused                           // until one more frame arrives

  datatype Progress = Progress(windows: seq<Window>, phase: Phase)

  /** At most ten frames of look-back, none from before the last resume. */
  function From(base: nat, start: nat): nat
    requires base <= start
  {
    if start > LOOKBACK && start - LOOKBACK > base then start - LOOKBACK else base
  }

  /** A segment starts at frame i: the last N frames since `base` are all speech. */
  predicate StartsAt(th: Thresholds, h: seq<bool>, base: nat, i: nat)
    requires i < |h|
  {
    LastAre(h[..i + 1], base, th.toStart, true)
  }

  /** A segment ends at frame i: the last N frames after the start frame are all silent. */
  predicate EndsAt(th: Thresholds, h: seq<bool>, start: nat, i: nat)
    requires i < |h|
  {
    LastAre(h[..i + 1], start + 1, th.toEnd, false)
  }

  predicate PhaseOk(p: Phase, n: nat) {
    match p
    case Idle(base) => base <= n
    case Talking(base, start) => base <= start < n
    case Paused => true
  }

  function Advance(th: Thresholds, h: seq<bool>, p: Progress): (q: Progress)
    requires h != [] && PhaseOk(p.phase, |h| - 1)
    ensures PhaseOk(q.phase, |h|)
  {
    var i := |h| - 1;
    match p.phase
    case Idle(base) => if StartsAt(th, h, base, i) then p.(phase := Talking(base, i)) else p
    case Talking(base, start) =>
      if EndsAt(th, h, start, i) then Progress(p.windows + [Window(From(base, start), start, i)], Paused) else p
    case Paused => p.(phase := Idle(|h|))
  }

  /** Segmentation of a verdict history by the window conditions alone. */
  function Track(th: Thresholds, h: seq<bool>): (p: Progress)
    ensures PhaseOk(p.phase, |h|)
  {
    if h == [] then Progress([], Idle(0)) else Advance(th, h, Track(th, h[..|h| - 1]))
  }

  /** All windows, the open one cut off where the loop is left. */
  function Windows(th: Thresholds, h: seq<bool>): seq<Window> {
    var p := Track(th, h);
    match p.phase
    case Talking(base, start) => p.windows + [Window(From(base, start), start, |h|)]
    case _ => p.windows
  }

  /** Where listening began before window j: after the frame that resumed the loop. */
  function Base(ws: seq<Window>, j: nat): nat
    requires j <= |ws|
  {
    if j == 0 then 0 else ws[j - 1].end + 2
  }

  /** The first frame since `base` at which the start condition holds. */
  ghost predicate FirstStart(th: Thresholds, h: seq<bool>, base: nat, i: nat) {
    base <= i < |h| && StartsAt(th, h, base, i) && forall k | base <= k < i :: !StartsAt(th, h, base, k)
  }

  ghost predicate NoEndBefore(th: Thresholds, h: seq<bool>, start: nat, i: nat)
    requires i <= |h|
  {
    forall k | start < k < i :: !EndsAt(th, h, start, k)
  }

  ghost predicate WindowOk(th: Thresholds, h: seq<bool>, ws: seq<Window>, j: nat)
    requires j < |ws|
  {
    var w := ws[j];
    && FirstStart(th, h, Base(ws, j), w.start)
    && w.from == From(Base(ws, j), w.start)
    && w.start < w.end < |h| && EndsAt(th, h, w.start, w.end) && NoEndBefore(th, h, w.start, w.end)
  }

  ghost predicate PhaseMeans(th: Thresholds, h: seq<bool>, p: Progress) {
    var base := Base(p.windows, |p.windows|);
    match p.phase
    case Idle(b) => b == base <= |h| && forall k | base <= k < |h| :: !StartsAt(th, h, base, k)
    case Talking(b, start) => b == base && FirstStart(th, h, base, start) && NoEndBefore(th, h, start, |h|)
    case Paused => p.windows != [] && |h| == p.windows[|p.windows| - 1].end + 1
  }

  lemma Shorter(th: Thresholds, h: seq<bool>, b: nat, i: nat)
    requires h != [] && i < |h| - 1
    ensures StartsAt(th, h[..|h| - 1], b, i) == StartsAt(th, h, b, i)
    ensures EndsAt(th, h[..|h| - 1], b, i) == EndsAt(th, h, b, i)
  {
    assert h[..|h| - 1][..i + 1] == h[..i + 1];
  }

  ghost predicate SameConditions(th: Thresholds, h: seq<bool>)
    requires h != []
  {
    var front := h[..|h| - 1];
    forall b: nat, i: nat | i < |front| ::
      StartsAt(th, front, b, i) == StartsAt(th, h, b, i) && EndsAt(th, front, b, i) == EndsAt(th, h, b, i)
  }

  lemma ConditionsAreLocal(th: Thresholds, h: seq<bool>)
    requires h != []
    ensures SameConditions(th, h)
  {
    forall b: nat, i: nat | i < |h| - 1
      ensures StartsAt(th, h[..|h| - 1], b, i) == StartsAt(th, h, b, i)
      ensures EndsAt(th, h[..|h| - 1], b, i) == EndsAt(th, h, b, i)
    {
      Shorter(th, h, b, i);
    }
  }

  lemma WindowOkGrows(th: Thresholds, h: seq<bool>, ws: seq<Window>, more: seq<Window>, j: nat)
    requires h != [] && j < |ws| && ws <= more && WindowOk(th, h[..|h| - 1], ws, j)
    ensures WindowOk(th, h, more, j)
  {
    assert Base(more, j) == Base(ws, j);
    ConditionsAreLocal(th, h);
  }

  lemma PhaseStep(th: Thresholds, h: seq<bool>, p: Progress)
    requires h != [] && SameConditions(th, h) && PhaseOk(p.phase, |h| - 1) && PhaseMeans(th, h[..|h| - 1], p)
    ensures PhaseMeans(th, h, Advance(th, h, p))
  {
    match p.phase
    case Idle(_) =>
    case Talking(_, _) =>
    case Paused =>
  }

  lemma NewWindowStep(th: Thresholds, h: seq<bool>, p: Progress)
    requires h != [] && SameConditions(th, h) && PhaseOk(p.phase, |h| - 1) && PhaseMeans(th, h[..|h| - 1], p)
    ensures var ws := Advance(th, h, p).windows;
      ws == p.windows || (|ws| == |p.windows| + 1 && p.windows <= ws && WindowOk(th, h, ws, |p.windows|))
  {
    var ws := Advance(th, h, p).windows;
    if ws != p.windows {
      assert Base(ws, |p.windows|) == Base(p.windows, |p.windows|);
    }
  }

  /** The windows are exactly the segments the two window conditions cut out: each starts at
      the first frame meeting the start condition since listening began, ends at the first
      later frame meeting the end condition, and listening resumes two frames after that. */
  lemma {:induction false} WindowsArePlaced(th: Thresholds, h: seq<bool>)
    ensures forall j | 0 <= j < |Track(th, h).windows| :: WindowOk(th, h, Track(th, h).windows, j)
    ensures PhaseMeans(th, h, Track(th, h))
    decreases |h|
  {
    if h != [] {
      var p, q := Track(th, h[..|h| - 1]), Track(th, h);
      WindowsArePlaced(th, h[..|h| - 1]);
      ConditionsAreLocal(th, h);
      PhaseStep(th, h, p);
      NewWindowStep(th, h, p);
      forall j | 0 <= j < |p.windows| ensures WindowOk(th, h, q.windows, j) {
        WindowOkGrows(th, h, p.windows, q.windows, j);
      }
    }
  }

  // ---- rendering ----

  function Verdicts(mic: Mic, frames: seq<Bytes>): (h: seq<bool>)
    ensures |h| == |frames|
  {
    seq(|frames|, i requires 0 <= i < |frames| => mic.isSpeech(frames[i]))
  }

  /** Full pieces, then the remainder if there is one. */
  function Packets(payload: Bytes): seq<Bytes> {
    Pieces(payload) + (if Rest(payload) == [] then [] else [Rest(payload)])
  }

  function Render(payload: Bytes): seq<AsrFrame> {
    [Start(SAMPLE_RATE)] + Audios(Packets(payload)) + [End]
  }

  function Payload(frames: seq<Bytes>, w: Window): Bytes
    requires w.from <= w.end <= |frames|
  {
    Flatten(frames[w.from..w.end])
  }

  function RenderAll(payloads: seq<Bytes>): seq<AsrFrame> {
    if payloads == [] then []
    else RenderAll(payloads[..|payloads| - 1]) + Render(payloads[|payloads| - 1])
  }

  predicate Fits(ws: seq<Window>, n: nat) {
    forall j | 0 <= j < |ws| :: ws[j].from <= ws[j].end <= n
  }

  function Payloads(frames: seq<Bytes>, ws: seq<Window>): (ps: seq<Bytes>)
    requires Fits(ws, |frames|)
    ensures |ps| == |ws|
    ensures forall j | 0 <= j < |ws| :: ps[j] == Payload(frames, ws[j])
  {
    seq(|ws|, j requires 0 <= j < |ws| => Payload(frames, ws[j]))
  }

  lemma TrackFits(th: Thresholds, h: seq<bool>)
    ensures Fits(Track(th, h).windows, |h|) && Fits(Windows(th, h), |h|)
  {
    WindowsArePlaced(th, h);
    var p := Track(th, h);
    forall j | 0 <= j < |p.windows| ensures p.windows[j].from <= p.windows[j].end <= |h| {
      assert WindowOk(th, h, p.windows, j);
    }
  }

  // ---- the loop refines the windows ----

  /** blocksize makes every microphone block one detector frame. */
  predicate Blocks(frames: seq<Bytes>) {
    forall i | 0 <= i < |frames| :: |frames[i]| == FRAME_BYTES
  }

  ghost predicate Refines(mic: Mic, frames: seq<Bytes>, s: Stream) {
    var h := Verdicts(mic, frames);
    var p := Track(mic.limits, h);
    && Fits(p.windows, |frames|)
    && s.ends == |p.windows|
    && var closed := RenderAll(Payloads(frames, p.windows));
       match p.phase
       case Idle(base) =>
         && !s.paused && s.segBuf == [] && s.sent == closed
         && s.vad == Counters(false, 0, Trail(h, base, true))
         && s.vad.speechRun < mic.limits.toStart
         && s.preBuf == frames[From(base, |frames|)..]
       case Talking(base, start) =>
         var sofar := Flatten(frames[From(base, start)..]);
         && !s.paused && s.preBuf == []
         && s.vad == Counters(true, Trail(h, start + 1, false), 0)
         && s.vad.silenceRun < mic.limits.toEnd
         && s.segBuf == Rest(sofar) && |s.segBuf| % FRAME_BYTES == 0
         && s.sent == closed + [Start(SAMPLE_RATE)] + Audios(Pieces(sofar))
       case Paused =>
         s.paused && s.segBuf == [] && s.preBuf == [] && s.vad == RESET && s.sent == closed
  }

  lemma VerdictsAppend(mic: Mic, frames: seq<Bytes>)
    requires frames != []
    ensures Verdicts(mic, frames)[..|frames| - 1] == Verdicts(mic, frames[..|frames| - 1])
  {
  }

  /** Adding a block to the pending piece either keeps it pending or completes it. */
  lemma ExtendPieces(p: Bytes, block: Bytes)
    requires |block| == FRAME_BYTES && |Rest(p)| % FRAME_BYTES == 0
    ensures var pending := Rest(p) + block;
      if |pending| >= CHUNK then
        |pending| == CHUNK && Pieces(p + block) == Pieces(p) + [pending] && Rest(p + block) == []
      else
        Pieces(p + block) == Pieces(p) && Rest(p + block) == pending
  {
    PiecesResume(p, block);
    var pending := Rest(p) + block;
    if |pending| >= CHUNK {
      assert |pending| == CHUNK;
      assert pending[..CHUNK] == pending && pending[CHUNK..] == [];
    }
  }

  /** Extending a segment by one block. */
  lemma ExtendStep(s: Stream, p: Bytes, block: Bytes, closed: seq<AsrFrame>)
    requires |block| == FRAME_BYTES && |Rest(p)| % FRAME_BYTES == 0
    requires s.segBuf == Rest(p) && s.sent == closed + Audios(Pieces(p))
    ensures var e := Extend(s, block);
      && e.segBuf == Rest(p + block) && |e.segBuf| % FRAME_BYTES == 0
      && e.sent == closed + Audios(Pieces(p + block))
      && e == s.(segBuf := e.segBuf, sent := e.sent)
  {
    ExtendPieces(p, block);
    AudiosAppend(Pieces(p), Rest(p) + block);
  }

  lemma RenderAppend(before: seq<Bytes>, p: Bytes)
    ensures RenderAll(before + [p]) == RenderAll(before) + Render(p)
  {
    assert (before + [p])[..|before|] == before;
  }

  /** Flushing turns the pieces sent so far into the packets of the segment. */
  lemma FlushStep(s: Stream, p: Bytes, closed: seq<AsrFrame>)
    requires s.segBuf == Rest(p) && s.sent == closed + Audios(Pieces(p))
    ensures Flush(s) == s.(segBuf := [], sent := closed + Audios(Packets(p)))
  {
    if Rest(p) != [] {
      AudiosAppend(Pieces(p), Rest(p));
    } else {
      assert Packets(p) == Pieces(p);
    }
  }

  lemma FinishStep(s: Stream, p: Bytes, before: seq<Bytes>)
    requires s.segBuf == Rest(p)
    requires s.sent == RenderAll(before) + [Start(SAMPLE_RATE)] + Audios(Pieces(p))
    ensures Finish(s) == s.(sent := RenderAll(before + [p]), segBuf := [], ends := s.ends + 1)
  {
    var closed := RenderAll(before);
    FlushStep(s, p, closed + [Start(SAMPLE_RATE)]);
    RenderAppend(before, p);
    var packets := Audios(Packets(p));
    assert closed + ([Start(SAMPLE_RATE)] + packets + [End]) == closed + [Start(SAMPLE_RATE)] + packets + [End];
    assert Flush(s).sent + [End] == RenderAll(before + [p]);
  }

  lemma PayloadsSame(frames: seq<Bytes>, ws: seq<Window>)
    requires frames != [] && Fits(ws, |frames| - 1)
    ensures Fits(ws, |frames|) && Payloads(frames, ws) == Payloads(frames[..|frames| - 1], ws)
  {
    var front := frames[..|frames| - 1];
    forall j | 0 <= j < |ws| ensures Payload(frames, ws[j]) == Payload(front, ws[j]) {
      assert frames[ws[j].from..ws[j].end] == front[ws[j].from..ws[j].end];
    }
  }

  lemma PayloadsAppend(frames: seq<Bytes>, ws: seq<Window>, w: Window)
    requires Fits(ws, |frames|) && w.from <= w.end <= |frames|
    ensures Fits(ws + [w], |frames|)
    ensures Payloads(frames, ws + [w]) == Payloads(frames, ws) + [Payload(frames, w)]
  {
  }

  lemma TailAppend(frames: seq<Bytes>, from: nat)
    requires frames != [] && from < |frames|
    ensures Flatten(frames[from..]) == Flatten(frames[..|frames| - 1][from..]) + frames[|frames| - 1]
  {
    assert frames[from..] == frames[..|frames| - 1][from..] + [frames[|frames| - 1]];
    FlattenAppend(frames[..|frames| - 1][from..], frames[|frames| - 1]);
  }

  /** The deque keeps exactly the last ten blocks since listening began. */
  lemma LookbackStep(frames: seq<Bytes>, base: nat)
    requires frames != [] && base < |frames|
    ensures var n := |frames| - 1;
      Remember(frames[..n][From(base, n)..], frames[n]) == frames[From(base, n + 1)..]
  {
    var n := |frames| - 1;
    var from := From(base, n);
    assert frames[..n][from..] + [frames[n]] == frames[from..];
    if |frames[from..]| > LOOKBACK {
      assert frames[from..][|frames[from..]| - LOOKBACK..] == frames[n + 1 - LOOKBACK..];
    }
  }

  ghost predicate Before(mic: Mic, frames: seq<Bytes>, s: Stream) {
    Positive(mic.limits) && frames != [] && Blocks(frames) && Refines(mic, frames[..|frames| - 1], s)
  }

  function Earlier(mic: Mic, frames: seq<Bytes>): (p: Progress)
    requires frames != []
    ensures PhaseOk(p.phase, |frames| - 1)
  {
    Track(mic.limits, Verdicts(mic, frames)[..|frames| - 1])
  }

  /** The detector on one more frame outside a segment. */
  lemma IdleHears(mic: Mic, frames: seq<Bytes>, s: Stream)
    requires Before(mic, frames, s) && Earlier(mic, frames).phase.Idle?
    ensures var h := Verdicts(mic, frames);
      var base := Earlier(mic, frames).phase.base;
      var heard := Hear(mic.limits, mic.isSpeech, s.vad, frames[|frames| - 1]);
      var run := Trail(h, base, true);
      if StartsAt(mic.limits, h, base, |frames| - 1) then heard == (Counters(true, 0, 0), SpeechStart)
      else run < mic.limits.toStart && heard == (Counters(false, 0, run), Nothing)
  {
    var h := Verdicts(mic, frames);
    VerdictsAppend(mic, frames);
    JudgeRuns(mic.limits, s.vad, h, Earlier(mic, frames).phase.base);
    assert h[..|frames|] == h;
  }

  lemma IdleStays(mic: Mic, frames: seq<Bytes>, s: Stream)
    requires Before(mic, frames, s) && Earlier(mic, frames).phase.Idle?
    requires !StartsAt(mic.limits, Verdicts(mic, frames), Earlier(mic, frames).phase.base, |frames| - 1)
    ensures Refines(mic, frames, Take(mic, s, frames[|frames| - 1]))
  {
    VerdictsAppend(mic, frames);
    PayloadsSame(frames, Earlier(mic, frames).windows);
    IdleHears(mic, frames, s);
    LookbackStep(frames, Earlier(mic, frames).phase.base);
  }

  /** What the loop does on the frame that starts a segment. */
  lemma StartFrame(mic: Mic, frames: seq<Bytes>, s: Stream, base: nat)
    requires frames != [] && Blocks(frames) && base < |frames| && !s.paused && s.segBuf == []
    requires s.preBuf == frames[..|frames| - 1][From(base, |frames| - 1)..]
    requires Hear(mic.limits, mic.isSpeech, s.vad, frames[|frames| - 1]) == (Counters(true, 0, 0), SpeechStart)
    ensures var t := Take(mic, s, frames[|frames| - 1]);
      var sofar := Flatten(frames[From(base, |frames| - 1)..]);
      && !t.paused && t.preBuf == [] && t.vad == Counters(true, 0, 0) && t.ends == s.ends
      && t.segBuf == Rest(sofar) && |t.segBuf| % FRAME_BYTES == 0
      && t.sent == s.sent + [Start(SAMPLE_RATE)] + Audios(Pieces(sofar))
  {
    var n := |frames| - 1;
    FlattenSize(s.preBuf, FRAME_BYTES);
    TailAppend(frames, From(base, n));
    var t := s.(vad := Counters(true, 0, 0), sent := s.sent + [Start(SAMPLE_RATE)], segBuf := Flatten(s.preBuf), preBuf := []);
    ExtendStep(t, Flatten(s.preBuf), frames[n], s.sent + [Start(SAMPLE_RATE)]);
  }

  lemma IdleStarts(mic: Mic, frames: seq<Bytes>, s: Stream)
    requires Before(mic, frames, s) && Earlier(mic, frames).phase.Idle?
    requires StartsAt(mic.limits, Verdicts(mic, frames), Earlier(mic, frames).phase.base, |frames| - 1)
    ensures Refines(mic, frames, Take(mic, s, frames[|frames| - 1]))
  {
    VerdictsAppend(mic, frames);
    PayloadsSame(frames, Earlier(mic, frames).windows);
    IdleHears(mic, frames, s);
    StartFrame(mic, frames, s, Earlier(mic, frames).phase.base);
  }

  /** The detector on one more frame of a segment. */
  lemma TalkingHears(mic: Mic, frames: seq<Bytes>, s: Stream)
    requires Before(mic, frames, s) && Earlier(mic, frames).phase.Talking?
    ensures var h := Verdicts(mic, frames);
      var start := Earlier(mic, frames).phase.start;
      var heard := Hear(mic.limits, mic.isSpeech, s.vad, frames[|frames| - 1]);
      var run := Trail(h, start + 1, false);
      if EndsAt(mic.limits, h, start, |frames| - 1) then heard == (RESET, SpeechEnd)
      else run < mic.limits.toEnd && heard == (Counters(true, run, 0), Nothing)
  {
    var h := Verdicts(mic, frames);
    VerdictsAppend(mic, frames);
    JudgeRuns(mic.limits, s.vad, h, Earlier(mic, frames).phase.start + 1);
    assert h[..|frames|] == h;
  }

  /** What the loop does on a frame inside a segment. */
  lemma TalkingFrame(mic: Mic, s: Stream, frame: Bytes, run: nat, sofar: Bytes, closed: seq<AsrFrame>)
    requires !s.paused && s.preBuf == [] && s.segBuf == Rest(sofar) && |s.segBuf| % FRAME_BYTES == 0
    requires s.sent == closed + Audios(Pieces(sofar)) && |frame| == FRAME_BYTES
    requires Hear(mic.limits, mic.isSpeech, s.vad, frame) == (Counters(true, run, 0), Nothing)
    ensures var t := Take(mic, s, frame);
      && !t.paused && t.preBuf == [] && t.vad == Counters(true, run, 0) && t.ends == s.ends
      && t.segBuf == Rest(sofar + frame) && |t.segBuf| % FRAME_BYTES == 0
      && t.sent == closed + Audios(Pieces(sofar + frame))
  {
    ExtendStep(s.(vad := Counters(true, run, 0)), sofar, frame, closed);
  }

  lemma TalkingStays(mic: Mic, frames: seq<Bytes>, s: Stream)
    requires Before(mic, frames, s) && Earlier(mic, frames).phase.Talking?
    requires !EndsAt(mic.limits, Verdicts(mic, frames), Earlier(mic, frames).phase.start, |frames| - 1)
    ensures Refines(mic, frames, Take(mic, s, frames[|frames| - 1]))
  {
    var n := |frames| - 1;
    var p := Earlier(mic, frames);
    var from := From(p.phase.base, p.phase.start);
    VerdictsAppend(mic, frames);
    PayloadsSame(frames, p.windows);
    TalkingHears(mic, frames, s);
    TailAppend(frames, from);
    var closed := RenderAll(Payloads(frames[..n], p.windows));
    TalkingFrame(mic, s, frames[n], Trail(Verdicts(mic, frames), p.phase.start + 1, false),
                 Flatten(frames[..n][from..]), closed + [Start(SAMPLE_RATE)]);
  }

  /** What the loop does on the frame that ends a segment. */
  lemma EndFrame(mic: Mic, s: Stream, frame: Bytes, payload: Bytes, before: seq<Bytes>)
    requires !s.paused && s.preBuf == [] && s.segBuf == Rest(payload)
    requires s.sent == RenderAll(before) + [Start(SAMPLE_RATE)] + Audios(Pieces(payload))
    requires Hear(mic.limits, mic.isSpeech, s.vad, frame) == (RESET, SpeechEnd)
    ensures Take(mic, s, frame) == Stream(RESET, true, [], [], RenderAll(before + [payload]), s.ends + 1)
  {
    FinishStep(s.(vad := RESET), payload, before);
  }

  lemma TalkingEnds(mic: Mic, frames: seq<Bytes>, s: Stream)
    requires Before(mic, frames, s) && Earlier(mic, frames).phase.Talking?
    requires EndsAt(mic.limits, Verdicts(mic, frames), Earlier(mic, frames).phase.start, |frames| - 1)
    ensures Refines(mic, frames, Take(mic, s, frames[|frames| - 1]))
  {
    var n := |frames| - 1;
    var p := Earlier(mic, frames);
    var w := Window(From(p.phase.base, p.phase.start), p.phase.start, n);
    VerdictsAppend(mic, frames);
    PayloadsSame(frames, p.windows);
    TalkingHears(mic, frames, s);
    assert frames[..n][w.from..] == frames[w.from..n];
    PayloadsAppend(frames, p.windows, w);
    EndFrame(mic, s, frames[n], Payload(frames, w), Payloads(frames, p.windows));
  }

  /** After any number of blocks the loop's counters, buffers and sent frames are the ones the
      windows prescribe. */
  lemma {:induction false} LoopRefines(mic: Mic, frames: seq<Bytes>)
    requires Positive(mic.limits) && Blocks(frames)
    ensures Refines(mic, frames, TakeAll(mic, frames))
    decreases |frames|
  {
    if frames != [] {
      var n := |frames| - 1;
      LoopRefines(mic, frames[..n]);
      VerdictsAppend(mic, frames);
      var h := Verdicts(mic, frames);
      var s := TakeAll(mic, frames[..n]);
      match Earlier(mic, frames).phase
      case Idle(base) =>
        if StartsAt(mic.limits, h, base, n) { IdleStarts(mic, frames, s); } else { IdleStays(mic, frames, s); }
      case Talking(_, start) =>
        if EndsAt(mic.limits, h, start, n) { TalkingEnds(mic, frames, s); } else { TalkingStays(mic, frames, s); }
      case Paused => PayloadsSame(frames, Earlier(mic, frames).windows);
    }
  }

  // ---- main results ----

  /** Everything stream_live sends, when it is left after any number of blocks: each window
      rendered once, in order; the returned count is the number of windows. */
  lemma UplinkIsRenderedWindows(mic: Mic, frames: seq<Bytes>)
    requires Positive(mic.limits) && Blocks(frames)
    ensures var ws := Windows(mic.limits, Verdicts(mic, frames));
      && Fits(ws, |frames|)
      && Leave(TakeAll(mic, frames)).sent == RenderAll(Payloads(frames, ws))
      && Leave(TakeAll(mic, frames)).ends == |ws|
  {
    var h := Verdicts(mic, frames);
    TrackFits(mic.limits, h);
    LoopRefines(mic, frames);
    var p := Track(mic.limits, h);
    match p.phase
    case Talking(base, start) =>
      var from := From(base, start);
      PayloadsAppend(frames, p.windows, Window(from, start, |frames|));
      assert frames[from..] == frames[from..|frames|];
      FinishStep(TakeAll(mic, frames), Flatten(frames[from..]), Payloads(frames, p.windows));
    case _ =>
  }

  /** Sending is append-only, so at any moment the uplink is a prefix of complete segments. */
  lemma UplinkIsPrefix(mic: Mic, frames: seq<Bytes>)
    requires Positive(mic.limits) && Blocks(frames)
    ensures var ws := Windows(mic.limits, Verdicts(mic, frames));
      && Fits(ws, |frames|)
      && TakeAll(mic, frames).sent <= RenderAll(Payloads(frames, ws))
  {
    UplinkIsRenderedWindows(mic, frames);
    var s := TakeAll(mic, frames);
    assert s.sent <= Flush(s).sent <= Leave(s).sent || Leave(s) == s;
  }

  /** A window reaches back at most ten frames before its start frame, and not past the frame
      that resumed listening after the previous window; it stops before the end frame. */
  lemma WindowsAreShort(th: Thresholds, h: seq<bool>, j: nat)
    requires j < |Windows(th, h)|
    ensures var ws := Windows(th, h);
      && ws[j].from <= ws[j].start < ws[j].end <= |h|
      && ws[j].start - ws[j].from <= LOOKBACK
      && (ws[j].start - ws[j].from < LOOKBACK ==> ws[j].from == Base(ws, j))
      && (j > 0 ==> ws[j].from >= ws[j - 1].end + 2)
  {
    WindowsArePlaced(th, h);
    var p := Track(th, h);
    if j < |p.windows| {
      assert WindowOk(th, h, p.windows, j);
      assert Base(Windows(th, h), j) == Base(p.windows, j);
    }
  }

  /** Every packet of a segment but its last is exactly 19200 bytes, the last is not empty and
      not longer, and together they are the payload. */
  lemma PacketSizes(payload: Bytes)
    ensures Flatten(Packets(payload)) == payload
    ensures forall i | 0 <= i < |Packets(payload)| :: 0 < |Packets(payload)[i]| <= CHUNK
    ensures forall i | 0 <= i < |Packets(payload)| - 1 :: |Packets(payload)[i]| == CHUNK
  {
    PiecesKeep(payload);
    forall i | 0 <= i < |Pieces(payload)| ensures |Pieces(payload)[i]| == CHUNK {
      PiecesAreSlices(payload, i);
    }
    if Rest(payload) == [] {
      assert Packets(payload) == Pieces(payload);
    } else {
      FlattenAppend(Pieces(payload), Rest(payload));
    }
  }
}
