// Pausing and resuming the microphone loop, and leaving it in the middle of a frame: which
// uplinks are balanced.
module UplinkLeaving {
  import opened Wire
  import opened Vad
  import opened Chunks
  import opened Uplink
  import opened UplinkWindows

  // ---- resuming ----

  lemma {:induction false} PausedIsReset(mic: Mic, frames: seq<Bytes>)
    ensures TakeAll(mic, frames).paused ==> TakeAll(mic, frames).vad == RESET
    decreases |frames|
  {
    if frames != [] {
      var n := |frames| - 1;
      PausedIsReset(mic, frames[..n]);
    }
  }

  /** The frame that ends a pause only ends the pause: it is dropped, and the reset of the
      detector finds it reset already. */
  lemma ResumeOnlyUnpauses(mic: Mic, frames: seq<Bytes>, frame: Bytes)
    requires TakeAll(mic, frames).paused
    ensures TakeAll(mic, frames + [frame]) == TakeAll(mic, frames).(paused := false)
  {
    PausedIsReset(mic, frames);
    assert (frames + [frame])[..|frames|] == frames;
  }

  // ---- the grammar (start binary* end)* ----

  datatype Shape = Outside | Inside | Broken

  function Next(shape: Shape, f: AsrFrame): Shape {
    match (shape, f)
    case (Outside, Start(_)) => Inside
    case (Inside, Audio(_)) => Inside
    case (Inside, End) => Outside
    case _ => Broken
  }

  function ShapeOf(trace: seq<AsrFrame>): Shape {
    if trace == [] then Outside else Next(ShapeOf(trace[..|trace| - 1]), trace[|trace| - 1])
  }

  predicate Balanced(trace: seq<AsrFrame>) {
    ShapeOf(trace) == Outside
  }

  lemma ShapeAppend(trace: seq<AsrFrame>, f: AsrFrame)
    ensures ShapeOf(trace + [f]) == Next(ShapeOf(trace), f)
  {
    assert (trace + [f])[..|trace|] == trace;
  }

  lemma {:induction false} ShapeOfAudios(trace: seq<AsrFrame>, packets: seq<Bytes>)
    requires ShapeOf(trace) == Inside
    ensures ShapeOf(trace + Audios(packets)) == Inside
    decreases |packets|
  {
    if packets == [] {
      assert trace + Audios(packets) == trace;
    } else {
      var n := |packets| - 1;
      ShapeOfAudios(trace, packets[..n]);
      assert Audios(packets) == Audios(packets[..n]) + [Audio(packets[n])];
      assert trace + Audios(packets) == (trace + Audios(packets[..n])) + [Audio(packets[n])];
      ShapeAppend(trace + Audios(packets[..n]), Audio(packets[n]));
    }
  }

  lemma RenderBalances(before: seq<AsrFrame>, payload: Bytes)
    requires Balanced(before)
    ensures Balanced(before + Render(payload))
  {
    var begun, packets := before + [Start(SAMPLE_RATE)], Packets(payload);
    ShapeAppend(before, Start(SAMPLE_RATE));
    ShapeOfAudios(begun, packets);
    ShapeAppend(begun + Audios(packets), End);
    assert before + Render(payload) == (begun + Audios(packets)) + [End];
  }

  lemma {:induction false} RenderedIsBalanced(payloads: seq<Bytes>)
    ensures Balanced(RenderAll(payloads))
    decreases |payloads|
  {
    if payloads != [] {
      var n := |payloads| - 1;
      RenderedIsBalanced(payloads[..n]);
      RenderBalances(RenderAll(payloads[..n]), payloads[n]);
    }
  }

  /** Inside a segment exactly while the detector speaks, with nothing buffered outside. */
  predicate InShape(s: Stream) {
    ShapeOf(s.sent) == (if s.vad.speaking then Inside else Outside) && (!s.vad.speaking ==> s.segBuf == [])
  }

  /** So it is between frames, whenever the loop is looked at. */
  lemma ShapeOfLoop(mic: Mic, frames: seq<Bytes>)
    requires Positive(mic.limits) && Blocks(frames)
    ensures InShape(TakeAll(mic, frames))
  {
    LoopRefines(mic, frames);
    var p := Track(mic.limits, Verdicts(mic, frames));
    var closed := RenderAll(Payloads(frames, p.windows));
    RenderedIsBalanced(Payloads(frames, p.windows));
    match p.phase
    case Talking(base, start) =>
      ShapeAppend(closed, Start(SAMPLE_RATE));
      ShapeOfAudios(closed + [Start(SAMPLE_RATE)], Pieces(Flatten(frames[From(base, start)..])));
    case _ =>
  }

  // ---- leaving in the middle of a frame ----

  /** Where a cancellation can strike inside the loop body, and whether the frame being sent has
      gone out by then. */
  datatype Cut =
    | InStart(sent: bool)          // send_start
    | InLastFlush(sent: bool)      // the flush of the end branch
    | InEnd(sent: bool)            // send_end of the end branch
    | InFlush(sent: bool)          // the flush of a full buffer

  function Sent(s: Stream, f: AsrFrame, sent: bool): Stream {
    if sent then s.(sent := s.sent + [f]) else s
  }

  /** The buffer after this frame, if the loop gets as far as buffering it. */
  function Buffered(mic: Mic, s: Stream, frame: Bytes): Stream {
    var (vad, event) := Hear(mic.limits, mic.isSpeech, s.vad, frame);
    var heard := s.(vad := vad);
    var begun :=
      if event == SpeechStart then
        heard.(sent := s.sent + [Start(SAMPLE_RATE)], segBuf := Flatten(s.preBuf), preBuf := [])
      else heard;
    begun.(segBuf := begun.segBuf + frame)
  }

  /** Does this frame reach that point? */
  predicate Reaches(mic: Mic, s: Stream, frame: Bytes, cut: Cut) {
    var (vad, event) := Hear(mic.limits, mic.isSpeech, s.vad, frame);
    && !s.paused
    && match cut
       case InStart(_) => event == SpeechStart
       case InLastFlush(_) => event == SpeechEnd && s.segBuf != []
       case InEnd(_) => event == SpeechEnd
       case InFlush(_) => event != SpeechEnd && vad.speaking && |Buffered(mic, s, frame).segBuf| >= CHUNK
  }

  /** The loop's state when it is left there: what follows the send has not happened. */
  function CutShort(mic: Mic, s: Stream, frame: Bytes, cut: Cut): Stream {
    var heard := s.(vad := Hear(mic.limits, mic.isSpeech, s.vad, frame).0);
    match cut
    case InStart(sent) => Sent(heard, Start(SAMPLE_RATE), sent)
    case InLastFlush(sent) => Sent(heard, Audio(s.segBuf), sent)
    case InEnd(sent) => Sent(Flush(heard), End, sent)
    case InFlush(sent) =>
      var b := Buffered(mic, s, frame);
      Sent(b, Audio(b.segBuf), sent)
  }

  lemma LeftSilent(s: Stream)
    requires !s.vad.speaking
    ensures Leave(s).sent == s.sent
  {
  }

  lemma LeftSpeaking(s: Stream)
    requires s.vad.speaking
    ensures ShapeOf(s.sent) == Inside ==> Balanced(Leave(s).sent)
    ensures ShapeOf(s.sent) != Inside && s.segBuf == [] ==> !Balanced(Leave(s).sent)
  {
    var f := Flush(s);
    if s.segBuf != [] {
      ShapeAppend(s.sent, Audio(s.segBuf));
    }
    ShapeAppend(f.sent, End);
  }

  /** What the events say about the detector before and after. */
  lemma HearTurns(th: Thresholds, isSpeech: Bytes -> bool, c: Counters, frame: Bytes)
    ensures var (after, event) := Hear(th, isSpeech, c, frame);
      && (event == SpeechStart ==> !c.speaking && after.speaking)
      && (event == SpeechEnd ==> c.speaking && !after.speaking)
      && (event == Nothing ==> after.speaking == c.speaking)
  {
  }

  lemma CutInStart(mic: Mic, s: Stream, frame: Bytes, sent: bool)
    requires InShape(s) && Reaches(mic, s, frame, InStart(sent))
    ensures Balanced(Leave(CutShort(mic, s, frame, InStart(sent))).sent) <==> sent
  {
    HearTurns(mic.limits, mic.isSpeech, s.vad, frame);
    ShapeAppend(s.sent, Start(SAMPLE_RATE));
    LeftSpeaking(CutShort(mic, s, frame, InStart(sent)));
  }

  lemma CutInLastFlush(mic: Mic, s: Stream, frame: Bytes, sent: bool)
    requires InShape(s) && Reaches(mic, s, frame, InLastFlush(sent))
    ensures !Balanced(Leave(CutShort(mic, s, frame, InLastFlush(sent))).sent)
  {
    HearTurns(mic.limits, mic.isSpeech, s.vad, frame);
    ShapeAppend(s.sent, Audio(s.segBuf));
    LeftSilent(CutShort(mic, s, frame, InLastFlush(sent)));
  }

  lemma CutInEnd(mic: Mic, s: Stream, frame: Bytes, sent: bool)
    requires InShape(s) && Reaches(mic, s, frame, InEnd(sent))
    ensures Balanced(Leave(CutShort(mic, s, frame, InEnd(sent))).sent) <==> sent
  {
    HearTurns(mic.limits, mic.isSpeech, s.vad, frame);
    ShapeAppend(s.sent, Audio(s.segBuf));
    ShapeAppend(Flush(s).sent, End);
    LeftSilent(CutShort(mic, s, frame, InEnd(sent)));
  }

  lemma CutInFlush(mic: Mic, s: Stream, frame: Bytes, sent: bool)
    requires InShape(s) && Reaches(mic, s, frame, InFlush(sent))
    ensures Balanced(Leave(CutShort(mic, s, frame, InFlush(sent))).sent)
  {
    HearTurns(mic.limits, mic.isSpeech, s.vad, frame);
    var b, t := Buffered(mic, s, frame), CutShort(mic, s, frame, InFlush(sent));
    ShapeAppend(s.sent, Start(SAMPLE_RATE));
    assert ShapeOf(b.sent) == Inside;
    ShapeAppend(b.sent, Audio(b.segBuf));
    assert ShapeOf(t.sent) == Inside && t.vad.speaking;
    LeftSpeaking(t);
  }

  /** The loop is cancelled while it handles one more frame.  The uplink it leaves is balanced
      exactly if the cancellation did not strike in the last flush, nor before a start or an end
      had gone out. */
  lemma BalancedWhenCutIff(mic: Mic, frames: seq<Bytes>, frame: Bytes, cut: Cut)
    requires Positive(mic.limits) && Blocks(frames)
    requires Reaches(mic, TakeAll(mic, frames), frame, cut)
    ensures Balanced(Leave(CutShort(mic, TakeAll(mic, frames), frame, cut)).sent) <==>
      cut.InFlush? || (!cut.InLastFlush? && cut.sent)
  {
    var s := TakeAll(mic, frames);
    ShapeOfLoop(mic, frames);
    match cut
    case InStart(sent) => CutInStart(mic, s, frame, sent);
    case InLastFlush(sent) => CutInLastFlush(mic, s, frame, sent);
    case InEnd(sent) => CutInEnd(mic, s, frame, sent);
    case InFlush(sent) => CutInFlush(mic, s, frame, sent);
  }

  // ---- audio sent twice ----

  /** All audio of an uplink. */
  function AudioIn(trace: seq<AsrFrame>): Bytes {
    if trace == [] then []
    else
      var last, before := trace[|trace| - 1], AudioIn(trace[..|trace| - 1]);
      if last.Audio? then before + last.bytes else before
  }

  lemma AudioAppend(trace: seq<AsrFrame>, f: AsrFrame)
    ensures AudioIn(trace + [f]) == if f.Audio? then AudioIn(trace) + f.bytes else AudioIn(trace)
  {
    assert (trace + [f])[..|trace|] == trace;
  }

  lemma FlushAudio(s: Stream)
    ensures AudioIn(Flush(s).sent) == AudioIn(s.sent) + s.segBuf
  {
    AudioAppend(s.sent, Audio(s.segBuf));
    if s.segBuf == [] {
      assert AudioIn(s.sent) + s.segBuf == AudioIn(s.sent);
    }
  }

  lemma LeaveAudio(s: Stream)
    ensures AudioIn(Leave(s).sent) == if s.vad.speaking then AudioIn(s.sent) + s.segBuf else AudioIn(s.sent)
  {
    FlushAudio(s);
    AudioAppend(Flush(s).sent, End);
  }

  /** The audio buffered when the cancellation strikes. */
  function Pending(mic: Mic, s: Stream, frame: Bytes, cut: Cut): Bytes {
    if cut.InFlush? then Buffered(mic, s, frame).segBuf else s.segBuf
  }

  lemma AudioWhenCutInFlush(mic: Mic, s: Stream, frame: Bytes, sent: bool)
    requires Reaches(mic, s, frame, InFlush(sent))
    ensures var pending := Buffered(mic, s, frame).segBuf;
      AudioIn(Leave(CutShort(mic, s, frame, InFlush(sent))).sent) ==
        AudioIn(s.sent) + if sent then pending + pending else pending
  {
    var b := Buffered(mic, s, frame);
    var pending := b.segBuf;
    AudioAppend(s.sent, Start(SAMPLE_RATE));
    assert AudioIn(b.sent) == AudioIn(s.sent);
    AudioAppend(b.sent, Audio(pending));
    LeaveAudio(CutShort(mic, s, frame, InFlush(sent)));
    assert AudioIn(s.sent) + pending + pending == AudioIn(s.sent) + (pending + pending);
  }

  lemma AudioWhenCutAtEnd(mic: Mic, s: Stream, frame: Bytes, cut: Cut)
    requires Reaches(mic, s, frame, cut) && (cut.InLastFlush? || cut.InEnd?)
    ensures AudioIn(Leave(CutShort(mic, s, frame, cut)).sent) ==
      AudioIn(s.sent) + if cut == InLastFlush(false) then [] else s.segBuf
  {
    var t := CutShort(mic, s, frame, cut);
    HearTurns(mic.limits, mic.isSpeech, s.vad, frame);
    LeftSilent(t);
    if cut.InLastFlush? {
      AudioAppend(s.sent, Audio(s.segBuf));
      assert AudioIn(s.sent) + [] == AudioIn(s.sent);
    } else {
      FlushAudio(s.(vad := t.vad));
      AudioAppend(Flush(s.(vad := t.vad)).sent, End);
    }
  }

  lemma AudioWhenCutInStart(mic: Mic, s: Stream, frame: Bytes, sent: bool)
    requires Reaches(mic, s, frame, InStart(sent))
    ensures AudioIn(Leave(CutShort(mic, s, frame, InStart(sent))).sent) == AudioIn(s.sent) + s.segBuf
  {
    HearTurns(mic.limits, mic.isSpeech, s.vad, frame);
    AudioAppend(s.sent, Start(SAMPLE_RATE));
    LeaveAudio(CutShort(mic, s, frame, InStart(sent)));
  }

  /** What has gone out in the end: the buffered audio twice, once, or not at all. */
  lemma AudioWhenCut(mic: Mic, s: Stream, frame: Bytes, cut: Cut)
    requires Reaches(mic, s, frame, cut)
    ensures var pending := Pending(mic, s, frame, cut);
      AudioIn(Leave(CutShort(mic, s, frame, cut)).sent) == AudioIn(s.sent) +
        if cut == InFlush(true) then pending + pending
        else if cut == InLastFlush(false) then []
        else pending
  {
    match cut
    case InStart(sent) => AudioWhenCutInStart(mic, s, frame, sent);
    case InFlush(sent) => AudioWhenCutInFlush(mic, s, frame, sent);
    case _ => AudioWhenCutAtEnd(mic, s, frame, cut);
  }

  /** A cancelled loop sends audio beyond what it had buffered exactly if it was cancelled after a
      full buffer had gone out and before it was emptied: then that buffer goes out twice. */
  lemma RepeatsWhenCutIff(mic: Mic, frames: seq<Bytes>, frame: Bytes, cut: Cut)
    requires Reaches(mic, TakeAll(mic, frames), frame, cut)
    ensures var s := TakeAll(mic, frames);
      AudioIn(Leave(CutShort(mic, s, frame, cut)).sent) <= AudioIn(s.sent) + Pending(mic, s, frame, cut)
      <==> cut != InFlush(true)
  {
    AudioWhenCut(mic, TakeAll(mic, frames), frame, cut);
  }

  /** A stream that gets there: speech from the first frame on fills the buffer at the twentieth. */
  lemma FillsBuffer() returns (mic: Mic, frames: seq<Bytes>, frame: Bytes)
    ensures Positive(mic.limits) && Blocks(frames) && |frame| == FRAME_BYTES
    ensures Reaches(mic, TakeAll(mic, frames), frame, InFlush(true))
  {
    mic := Mic(Thresholds(1, 1), _ => true);
    frame := seq(FRAME_BYTES, _ => 0);
    frames := seq(19, _ => frame);
    SpeechFills(mic, frames);
  }

  lemma {:induction false} SpeechFills(mic: Mic, frames: seq<Bytes>)
    requires mic.limits == Thresholds(1, 1) && 0 < |frames| < 20
    requires forall i | 0 <= i < |frames| :: |frames[i]| == FRAME_BYTES && mic.isSpeech(frames[i])
    ensures var s := TakeAll(mic, frames);
      s.vad == Counters(true, 0, 0) && !s.paused && |s.segBuf| == FRAME_BYTES * |frames|
    decreases |frames|
  {
    var n := |frames| - 1;
    if n > 0 {
      SpeechFills(mic, frames[..n]);
    } else {
      assert frames[..n] == [];
    }
  }
}
