// The streaming ASR endpoint (asr_stream in model/asr_server/app.py): its segment machine
// and its stride loop.  The model's cache is a function of the decoder calls made since the
// cache was cleared, so the recogniser is a function of those calls.
module AsrService {
  import opened Wire
  import opened Chunks

  const SAMPLE_RATE := 16000
  const SAMPLE_WIDTH := 2

  datatype Call = Call(pcm: Bytes, final: bool)

  /** Text recognised by the last of these calls. */
  type Recogniser = seq<Call> -> string

  datatype Service = Service(
    alive: bool,                   // false once the endpoint has failed and closed the connection
    inSegment: bool,
    calls: seq<Call>,              // since the cache was cleared
    buffer: Bytes,
    text: string,
    events: seq<AsrEvent>,         // sent to the client
    segments: seq<seq<Call>>,      // history: decoder calls of each segment closed by an end
    ignoredEnds: nat,              // history: ends outside a segment
    implicitStarts: nat)           // history: segments opened by audio

  const CONNECTED := Service(true, false, [], [], "", [Ready], [], 0, 0)

  function Emit(s: Service, e: AsrEvent): Service {
    s.(events := s.events + [e])
  }

  function ResetSegment(s: Service): Service {
    s.(inSegment := false, calls := [], buffer := [], text := "")
  }

  function Decode(r: Recogniser, s: Service, pcm: Bytes, final: bool): Service {
    var calls := s.calls + [Call(pcm, final)];
    s.(calls := calls, text := s.text + r(calls))
  }

  /** One full stride: a non-final call, and a partial if it recognised anything. */
  function Stride(r: Recogniser, s: Service, piece: Bytes): Service {
    var d := Decode(r, s, piece, false);
    if r(d.calls) != "" then Emit(d, Partial(d.text)) else d
  }

  /** The inner loop. */
  function Drain(r: Recogniser, s: Service): (t: Service)
    ensures |t.buffer| < CHUNK
    decreases |s.buffer|
  {
    if |s.buffer| < CHUNK then s
    else Drain(r, Stride(r, s.(buffer := s.buffer[CHUNK..]), s.buffer[..CHUNK]))
  }

  /** Raw bytes are 16-bit samples; half a sample cannot be converted. */
  predicate WholeSamples(pcm: Bytes) {
    |pcm| % SAMPLE_WIDTH == 0
  }

  /** The handler around the loop: report, close, and hear nothing more. */
  function Fail(s: Service): Service {
    Emit(s, Error("internal_error")).(alive := false)
  }

  function Close(r: Recogniser, s: Service): Service
    requires WholeSamples(s.buffer)
  {
    var d := Decode(r, s, s.buffer, true);
    var f := if d.text != "" then Emit(d, Final(d.text)) else d;
    ResetSegment(Emit(f, Eos).(segments := s.segments + [d.calls]))
  }

  /** Audio outside a segment opens one. */
  function Begin(s: Service): Service {
    if s.inSegment then s else s.(inSegment := true, implicitStarts := s.implicitStarts + 1)
  }

  function Handle(r: Recogniser, s: Service, f: AsrFrame): Service {
    if !s.alive then s else
    match f
    case Start(rate) =>
      if rate != SAMPLE_RATE then Emit(s, Error("unsupported_sample_rate"))
      else ResetSegment(s).(inSegment := true)
    case End =>
      if !s.inSegment then s.(ignoredEnds := s.ignoredEnds + 1)
      else if WholeSamples(s.buffer) then Close(r, s)
      else Fail(s)
    case Audio(bytes) =>
      if bytes == [] then s
      else
        Drain(r, Begin(s).(buffer := s.buffer + bytes))
    case AsrPing => Emit(s, AsrPong)
    case OtherControl => s
    case BadJson => Emit(s, Error("invalid_control_json"))
    case Unreadable => Fail(s)
  }

  function HandleAll(r: Recogniser, s: Service, frames: seq<AsrFrame>): Service
    decreases |frames|
  {
    if frames == [] then s
    else Handle(r, HandleAll(r, s, frames[..|frames| - 1]), frames[|frames| - 1])
  }

  /** Frames that have no part in a segment: pings, frames the endpoint does not know, frames it
      cannot read as JSON, a start at another sample rate, empty audio. */
  predicate Idle(f: AsrFrame) {
    f == AsrPing || f == OtherControl || f == BadJson || f == Audio([]) || (f.Start? && f.sampleRate != 16000)
  }

  function ReplyTo(f: AsrFrame): seq<AsrEvent> {
    match f
    case AsrPing => [AsrPong]
    case BadJson => [Error("invalid_control_json")]
    case Start(rate) => if rate != 16000 then [Error("unsupported_sample_rate")] else []
    case _ => []
  }

  class AsrConnection {
    const recogniser: Recogniser
    var alive: bool
    var inSegment: bool
    var cache: seq<Call>
    var pcmBuffer: Bytes
    var accumulatedText: string
    var events: seq<AsrEvent>
    var segments: seq<seq<Call>>
    var ignoredEnds: nat
    var implicitStarts: nat

    ghost function Value(): Service
      reads this
    {
      Service(alive, inSegment, cache, pcmBuffer, accumulatedText, events, segments, ignoredEnds, implicitStarts)
    }

    constructor (recogniser: Recogniser)
      ensures Value() == CONNECTED && this.recogniser == recogniser
    {
      this.recogniser := recogniser;
      alive, inSegment, cache, pcmBuffer, accumulatedText := true, false, [], [], "";
      events, segments, ignoredEnds, implicitStarts := [Ready], [], 0, 0;
    }

    method RunStreamChunk(pcm: Bytes, final: bool) returns (text: string)
      modifies this`cache
      ensures cache == old(cache) + [Call(pcm, final)]
      ensures text == recogniser(cache)
    {
      cache := cache + [Call(pcm, final)];
      text := recogniser(cache);
    }

    method CloseSegment()
      requires WholeSamples(pcmBuffer)
      modifies this
      ensures Value() == Close(recogniser, old(Value()))
      ensures var calls := old(cache) + [Call(old(pcmBuffer), true)];
        var text := old(accumulatedText) + recogniser(calls);
        && segments == old(segments) + [calls]
        && events == old(events) + (if text != "" then [Final(text), Eos] else [Eos])
        && !inSegment && cache == [] && pcmBuffer == [] && accumulatedText == ""
    {
      var pcm := pcmBuffer;
      pcmBuffer := [];
      var segText := RunStreamChunk(pcm, true);
      if segText != "" {
        accumulatedText := accumulatedText + segText;
      } else {
        assert accumulatedText + segText == accumulatedText;
      }
      if accumulatedText != "" {
        events := events + [Final(accumulatedText)];
      }
      events := events + [Eos];
      segments := segments + [cache];
      inSegment, cache, accumulatedText := false, [], "";
    }

    method DecodeStride()
      requires |pcmBuffer| >= CHUNK
      modifies this
      ensures var s := old(Value());
        Value() == Stride(recogniser, s.(buffer := s.buffer[CHUNK..]), s.buffer[..CHUNK])
      ensures pcmBuffer == old(pcmBuffer)[CHUNK..]
      ensures cache == old(cache) + [Call(old(pcmBuffer)[..CHUNK], false)]
      ensures accumulatedText == old(accumulatedText) + recogniser(cache)
      ensures recogniser(cache) != "" ==> events == old(events) + [Partial(accumulatedText)]
      ensures recogniser(cache) == "" ==> events == old(events)
    {
      var chunk := pcmBuffer[..CHUNK];
      pcmBuffer := pcmBuffer[CHUNK..];
      var segText := RunStreamChunk(chunk, false);
      if segText != "" {
        accumulatedText := accumulatedText + segText;
        events := events + [Partial(accumulatedText)];
      } else {
        assert accumulatedText + segText == accumulatedText;
      }
    }

    method ReceiveAudio(bytes: Bytes)
      requires alive && bytes != []
      modifies this
      ensures Value() == Handle(recogniser, old(Value()), Audio(bytes))
    {
      if !inSegment {
        inSegment := true;
        implicitStarts := implicitStarts + 1;
      }
      pcmBuffer := pcmBuffer + bytes;
      ghost var before := Value();
      while |pcmBuffer| >= CHUNK
        invariant Drain(recogniser, Value()) == Drain(recogniser, before)
        decreases |pcmBuffer|
      {
        DecodeStride();
      }
    }

    method Receive(frame: AsrFrame)
      modifies this
      ensures Value() == Handle(recogniser, old(Value()), frame)
      ensures !old(alive) ==> Value() == old(Value())
      ensures old(alive) && Idle(frame) ==> Value() == old(Value()).(events := old(events) + ReplyTo(frame))
      ensures old(alive) && frame == Start(16000) ==>
        Value() == old(Value()).(inSegment := true, calls := [], buffer := [], text := "")
      ensures old(alive) && frame.End? && !old(inSegment) ==>
        Value() == old(Value()).(ignoredEnds := old(ignoredEnds) + 1)
      ensures old(alive) && (frame.Unreadable? || (frame.End? && old(inSegment) && |old(pcmBuffer)| % 2 != 0)) ==>
        Value() == old(Value()).(alive := false, events := old(events) + [Error("internal_error")])
    {
      if !alive {
        return;
      }
      match frame
      case Start(rate) =>
        if rate != SAMPLE_RATE {
          events := events + [Error("unsupported_sample_rate")];
        } else {
          cache, pcmBuffer, accumulatedText := [], [], "";
          inSegment := true;
        }
      case End =>
        if !inSegment {
          ignoredEnds := ignoredEnds + 1;
        } else if |pcmBuffer| % SAMPLE_WIDTH != 0 {
          events := events + [Error("internal_error")];
          alive := false;
        } else {
          CloseSegment();
        }
      case Audio(bytes) =>
        if bytes != [] {
          ReceiveAudio(bytes);
        }
      case AsrPing =>
        events := events + [AsrPong];
      case OtherControl =>
      case BadJson =>
        events := events + [Error("invalid_control_json")];
      case Unreadable =>
        events := events + [Error("internal_error")];
        alive := false;
    }

    method Serve(frames: seq<AsrFrame>)
      modifies this
      ensures Value() == HandleAll(recogniser, old(Value()), frames)
    {
      for i := 0 to |frames|
        invariant Value() == HandleAll(recogniser, old(Value()), frames[..i])
      {
        assert frames[..i + 1][..i] == frames[..i];
        Receive(frames[i]);
      }
      assert frames[..|frames|] == frames;
    }
  }

  // ---- the stride loop does not see packet boundaries ----

  /** Feeding the pieces of a stream one by one. */
  function Strides(r: Recogniser, s: Service, pieces: seq<Bytes>): Service
    decreases |pieces|
  {
    if pieces == [] then s
    else Stride(r, Strides(r, s, pieces[..|pieces| - 1]), pieces[|pieces| - 1])
  }

  lemma StridesFirst(r: Recogniser, s: Service, first: Bytes, rest: seq<Bytes>)
    ensures Strides(r, s, [first] + rest) == Strides(r, Stride(r, s, first), rest)
    decreases |rest|
  {
    if rest == [] {
      assert [first] + rest == [first];
      assert [first][..0] == [];
    } else {
      var pieces := [first] + rest;
      assert pieces[..|pieces| - 1] == [first] + rest[..|rest| - 1];
      StridesFirst(r, s, first, rest[..|rest| - 1]);
    }
  }

  lemma {:induction false} StridesConcat(r: Recogniser, s: Service, a: seq<Bytes>, b: seq<Bytes>)
    ensures Strides(r, s, a + b) == Strides(r, Strides(r, s, a), b)
    decreases |b|
  {
    if b == [] {
      assert a + b == a;
    } else {
      assert (a + b)[..|a + b| - 1] == a + b[..|b| - 1];
      StridesConcat(r, s, a, b[..|b| - 1]);
    }
  }

  lemma {:induction false} StridesIgnoreBuffer(r: Recogniser, s: Service, buffer: Bytes, pieces: seq<Bytes>)
    ensures Strides(r, s.(buffer := buffer), pieces) == Strides(r, s, pieces).(buffer := buffer)
    decreases |pieces|
  {
    if pieces != [] {
      StridesIgnoreBuffer(r, s, buffer, pieces[..|pieces| - 1]);
    }
  }

  /** Draining the buffer decodes its full pieces and keeps the rest. */
  lemma {:induction false} DrainIsPieces(r: Recogniser, s: Service)
    ensures Drain(r, s) == Strides(r, s, Pieces(s.buffer)).(buffer := Rest(s.buffer))
    decreases |s.buffer|
  {
    if |s.buffer| >= CHUNK {
      var head, tail := s.buffer[..CHUNK], s.buffer[CHUNK..];
      var next := Stride(r, s.(buffer := tail), head);
      DrainIsPieces(r, next);
      StridesFirst(r, s, head, Pieces(tail));
      StridesIgnoreBuffer(r, Stride(r, s, head), tail, Pieces(tail));
      assert next == Stride(r, s, head).(buffer := tail);
    }
  }

  /** One more packet after a stream has been cut. */
  lemma OnePacket(r: Recogniser, s: Service, stream: Bytes, packet: Bytes)
    requires s.alive && s.inSegment
    ensures var before := Strides(r, s, Pieces(stream)).(buffer := Rest(stream));
      Handle(r, before, Audio(packet)) == Strides(r, s, Pieces(stream + packet)).(buffer := Rest(stream + packet))
  {
    var mid := Strides(r, s, Pieces(stream));
    var fed := Rest(stream) + packet;
    StridesKeep(r, s, Pieces(stream));
    if packet == [] {
      assert stream + packet == stream;
    } else {
      PiecesResume(stream, packet);
      DrainIsPieces(r, mid.(buffer := fed));
      StridesIgnoreBuffer(r, mid, fed, Pieces(fed));
      StridesConcat(r, s, Pieces(stream), Pieces(fed));
    }
  }

  /** Inside a segment, any packets with the same bytes have the same effect: the decoder is
      called on the full pieces of the whole stream, and the rest is buffered. */
  lemma {:induction false} PacketsDoNotMatter(r: Recogniser, s: Service, packets: seq<Bytes>)
    requires s.alive && s.inSegment && |s.buffer| < CHUNK
    ensures var stream := s.buffer + Flatten(packets);
      HandleAll(r, s, Audios(packets)) == Strides(r, s, Pieces(stream)).(buffer := Rest(stream))
    decreases |packets|
  {
    if packets == [] {
      assert s.buffer + Flatten(packets) == s.buffer;
    } else {
      var n := |packets| - 1;
      PacketsDoNotMatter(r, s, packets[..n]);
      assert Audios(packets)[..n] == Audios(packets[..n]);
      var stream := s.buffer + Flatten(packets[..n]);
      assert s.buffer + Flatten(packets) == stream + packets[n];
      OnePacket(r, s, stream, packets[n]);
    }
  }

  lemma {:induction false} StridesKeep(r: Recogniser, s: Service, pieces: seq<Bytes>)
    ensures var t := Strides(r, s, pieces);
      && t.alive == s.alive && t.inSegment == s.inSegment && t.buffer == s.buffer && t.segments == s.segments
      && t.ignoredEnds == s.ignoredEnds && t.implicitStarts == s.implicitStarts
    decreases |pieces|
  {
    if pieces != [] {
      StridesKeep(r, s, pieces[..|pieces| - 1]);
    }
  }

  // ---- frames without a part in a segment ----

  /** The same but for the events sent. */
  predicate Alike(a: Service, b: Service) {
    a.(events := []) == b.(events := [])
  }

  lemma {:induction false} DrainAlike(r: Recogniser, a: Service, b: Service)
    requires Alike(a, b)
    ensures Alike(Drain(r, a), Drain(r, b))
    decreases |a.buffer|
  {
    if |a.buffer| >= CHUNK {
      DrainAlike(
        r, Stride(r, a.(buffer := a.buffer[CHUNK..]), a.buffer[..CHUNK]),
        Stride(r, b.(buffer := b.buffer[CHUNK..]), b.buffer[..CHUNK]));
    }
  }

  lemma HandleAlike(r: Recogniser, a: Service, b: Service, f: AsrFrame)
    requires Alike(a, b)
    ensures Alike(Handle(r, a, f), Handle(r, b, f))
  {
    if f.Audio? && f.bytes != [] && a.alive {
      var begun, same := Begin(a), Begin(b);
      DrainAlike(r, begun.(buffer := a.buffer + f.bytes), same.(buffer := b.buffer + f.bytes));
    }
  }

  function WithoutIdle(frames: seq<AsrFrame>): seq<AsrFrame> {
    if frames == [] then []
    else
      var last := frames[|frames| - 1];
      WithoutIdle(frames[..|frames| - 1]) + if Idle(last) then [] else [last]
  }

  /** Pings, unknown or malformed frames and refused starts, anywhere in a stream, change nothing
      but the events: same decoder calls, same text, same segments. */
  lemma {:induction false} IdleFramesDoNothing(r: Recogniser, s: Service, frames: seq<AsrFrame>)
    ensures Alike(HandleAll(r, s, frames), HandleAll(r, s, WithoutIdle(frames)))
    decreases |frames|
  {
    if frames != [] {
      var front, last := frames[..|frames| - 1], frames[|frames| - 1];
      IdleFramesDoNothing(r, s, front);
      if Idle(last) {
        assert WithoutIdle(frames) == WithoutIdle(front);
      } else {
        HandleAlike(r, HandleAll(r, s, front), HandleAll(r, s, WithoutIdle(front)), last);
        assert WithoutIdle(frames)[..|WithoutIdle(front)|] == WithoutIdle(front);
      }
    }
  }
}
