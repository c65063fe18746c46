// From the microphone to the decoder: what the ASR service computes from what the furniture
// sends, carried through the Server and the Worker.
module VoicePath {
  import opened Wire
  import opened Vad
  import opened Chunks
  import opened Uplink
  import opened UplinkWindows
  import opened AsrService
  import Pcm
  import Worker
  import Protocol
  import ProtocolTransport

  // ---- packetisation ----

  lemma {:induction false} EmptyPacketsDoNothing(r: Recogniser, s: Service, packets: seq<Bytes>)
    requires Flatten(packets) == []
    ensures HandleAll(r, s, Audios(packets)) == s
    decreases |packets|
  {
    if packets != [] {
      var n := |packets| - 1;
      assert Audios(packets)[..n] == Audios(packets[..n]);
      assert Flatten(packets) == Flatten(packets[..n]) + packets[n];
      EmptyPacketsDoNothing(r, s, packets[..n]);
    }
  }

  /** Audio outside a segment opens one, at its first non-empty packet. */
  lemma {:induction false} AudioOpensSegment(r: Recogniser, s: Service, packets: seq<Bytes>)
    requires s.alive && !s.inSegment && Flatten(packets) != []
    ensures var begun := s.(inSegment := true, implicitStarts := s.implicitStarts + 1);
      HandleAll(r, s, Audios(packets)) == HandleAll(r, begun, Audios(packets))
    decreases |packets|
  {
    var begun := s.(inSegment := true, implicitStarts := s.implicitStarts + 1);
    var n := |packets| - 1;
    assert Audios(packets)[..n] == Audios(packets[..n]);
    if Flatten(packets[..n]) == [] {
      EmptyPacketsDoNothing(r, s, packets[..n]);
      EmptyPacketsDoNothing(r, begun, packets[..n]);
    } else {
      AudioOpensSegment(r, s, packets[..n]);
    }
  }

  lemma {:induction false} ClosedHearsNothing(r: Recogniser, s: Service, frames: seq<AsrFrame>)
    requires !s.alive
    ensures HandleAll(r, s, frames) == s
    decreases |frames|
  {
    if frames != [] {
      ClosedHearsNothing(r, s, frames[..|frames| - 1]);
    }
  }

  /** Two ways to packetise the same bytes lead to the same service state: the same decoder
      calls, the same text, the same events.  It holds inside a segment, outside one, and after
      the endpoint has failed. */
  lemma PacketisationInvariance(r: Recogniser, s: Service, a: seq<Bytes>, b: seq<Bytes>)
    requires |s.buffer| < CHUNK && Flatten(a) == Flatten(b)
    ensures HandleAll(r, s, Audios(a)) == HandleAll(r, s, Audios(b))
  {
    if !s.alive {
      ClosedHearsNothing(r, s, Audios(a));
      ClosedHearsNothing(r, s, Audios(b));
      return;
    }
    var begun := if s.inSegment then s else s.(inSegment := true, implicitStarts := s.implicitStarts + 1);
    PacketsDoNotMatter(r, begun, a);
    PacketsDoNotMatter(r, begun, b);
    if !s.inSegment {
      if Flatten(a) == [] {
        EmptyPacketsDoNothing(r, s, a);
        EmptyPacketsDoNothing(r, s, b);
      } else {
        AudioOpensSegment(r, s, a);
        AudioOpensSegment(r, s, b);
      }
    }
  }

  // ---- one segment ----

  function StrideCalls(pieces: seq<Bytes>): (calls: seq<Call>)
    ensures |calls| == |pieces|
  {
    seq(|pieces|, i requires 0 <= i < |pieces| => Call(pieces[i], false))
  }

  /** The decoder calls of a payload: floor(n / 19200) strides, then one final call. */
  function DecoderCalls(payload: Bytes): seq<Call> {
    StrideCalls(Pieces(payload)) + [Call(Rest(payload), true)]
  }

  /** Everything recognised by a series of calls. */
  function Recognised(r: Recogniser, calls: seq<Call>): string {
    if calls == [] then "" else Recognised(r, calls[..|calls| - 1]) + r(calls)
  }

  lemma {:induction false} StridesDecode(r: Recogniser, s: Service, pieces: seq<Bytes>)
    requires s.calls == [] && s.text == ""
    ensures Strides(r, s, pieces).calls == StrideCalls(pieces)
    ensures Strides(r, s, pieces).text == Recognised(r, StrideCalls(pieces))
    decreases |pieces|
  {
    if pieces != [] {
      var n := |pieces| - 1;
      StridesDecode(r, s, pieces[..n]);
      assert StrideCalls(pieces) == StrideCalls(pieces[..n]) + [Call(pieces[n], false)];
      assert StrideCalls(pieces)[..n] == StrideCalls(pieces[..n]);
    }
  }

  /** The partials of a series of calls, in order: one for each call that recognised anything,
      with everything recognised up to it. */
  function PartialsOf(r: Recogniser, calls: seq<Call>): seq<AsrEvent> {
    if calls == [] then []
    else
      PartialsOf(r, calls[..|calls| - 1]) +
        if r(calls) != "" then [Partial(Recognised(r, calls))] else []
  }

  /** The strides send exactly these partials. */
  lemma {:induction false} StridesReport(r: Recogniser, s: Service, pieces: seq<Bytes>)
    requires s.calls == [] && s.text == ""
    ensures Strides(r, s, pieces).events == s.events + PartialsOf(r, StrideCalls(pieces))
    decreases |pieces|
  {
    if pieces != [] {
      var n := |pieces| - 1;
      StridesReport(r, s, pieces[..n]);
      StridesDecode(r, s, pieces[..n]);
      StridesDecode(r, s, pieces);
      assert StrideCalls(pieces)[..n] == StrideCalls(pieces[..n]);
    }
  }

  /** How many partials there are up to each call, and which one a call sends. */
  lemma {:induction false} PartialsMeaning(r: Recogniser, calls: seq<Call>, i: nat)
    requires i < |calls|
    ensures PartialsOf(r, calls[..i]) <= PartialsOf(r, calls[..i + 1]) <= PartialsOf(r, calls)
    ensures r(calls[..i + 1]) == "" ==> PartialsOf(r, calls[..i + 1]) == PartialsOf(r, calls[..i])
    ensures r(calls[..i + 1]) != "" ==>
      && |PartialsOf(r, calls[..i + 1])| == |PartialsOf(r, calls[..i])| + 1
      && PartialsOf(r, calls)[|PartialsOf(r, calls[..i])|] == Partial(Recognised(r, calls[..i + 1]))
    decreases |calls|
  {
    assert calls[..i + 1][..i] == calls[..i];
    var n := |calls| - 1;
    if i < n {
      PartialsMeaning(r, calls[..n], i);
      assert calls[..n][..i] == calls[..i] && calls[..n][..i + 1] == calls[..i + 1];
    } else {
      assert calls[..n + 1] == calls;
    }
  }

  predicate Chain(events: seq<AsrEvent>, from: nat, text: string) {
    && (forall i | from <= i < |events| :: events[i].Partial? && events[i].text <= text)
    && (forall i, j | from <= i < j < |events| :: events[i].Partial? && events[j].Partial? && events[i].text <= events[j].text)
  }

  /** Strides send partials only, each extending the one before, all prefixes of the text. */
  lemma {:induction false} StridesChain(r: Recogniser, s: Service, pieces: seq<Bytes>)
    ensures var t := Strides(r, s, pieces);
      s.events <= t.events && s.text <= t.text && Chain(t.events, |s.events|, t.text)
    decreases |pieces|
  {
    if pieces != [] {
      StridesChain(r, s, pieces[..|pieces| - 1]);
    }
  }

  function EosCount(events: seq<AsrEvent>): nat {
    if events == [] then 0
    else EosCount(events[..|events| - 1]) + (if events[|events| - 1] == Eos then 1 else 0)
  }

  lemma {:induction false} ChainHasNoEos(events: seq<AsrEvent>, from: nat, text: string)
    requires from <= |events| && Chain(events, from, text)
    ensures EosCount(events) == EosCount(events[..from])
    decreases |events|
  {
    if from == |events| {
      assert events[..from] == events;
    } else {
      var front := events[..|events| - 1];
      assert forall i | from <= i < |front| :: front[i] == events[i];
      ChainHasNoEos(front, from, text);
      assert front[..from] == events[..from];
    }
  }

  lemma EosAppend(events: seq<AsrEvent>, e: AsrEvent)
    ensures EosCount(events + [e]) == EosCount(events) + (if e == Eos then 1 else 0)
  {
    assert (events + [e])[..|events|] == events;
  }

  /** Between segments. */
  predicate Resting(s: Service) {
    s.alive && !s.inSegment && s.calls == [] && s.buffer == [] && s.text == ""
  }

  /** What a decoded segment sends: a partial for each stride that recognised anything, then the
      final if there is any text, then eos. */
  function Report(r: Recogniser, payload: Bytes): seq<AsrEvent> {
    PartialsOf(r, StrideCalls(Pieces(payload))) + Closing(Recognised(r, DecoderCalls(payload)))
  }

  /** One whole segment: the decoder saw exactly the 19200-byte slices and the remainder. */
  ghost predicate Decoded(r: Recogniser, s: Service, t: Service, payload: Bytes) {
    && Resting(t)
    && t.segments == s.segments + [DecoderCalls(payload)]
    && t.ignoredEnds == s.ignoredEnds && t.implicitStarts == s.implicitStarts
    && EosCount(t.events) == EosCount(s.events) + 1
    && t.events == s.events + Report(r, payload)
  }

  function Closing(full: string): seq<AsrEvent> {
    if full == "" then [Eos] else [Final(full), Eos]
  }

  lemma CloseCounts(before: seq<AsrEvent>, partials: seq<AsrEvent>, text: string, full: string)
    requires before <= partials && Chain(partials, |before|, text)
    ensures EosCount(partials + Closing(full)) == EosCount(before) + 1
  {
    ChainHasNoEos(partials, |before|, text);
    assert partials[..|before|] == before;
    if full == "" {
      EosAppend(partials, Eos);
    } else {
      EosAppend(partials, Final(full));
      EosAppend(partials + [Final(full)], Eos);
      assert partials + [Final(full)] + [Eos] == partials + Closing(full);
    }
  }

  lemma {:induction false} RestIsWhole(payload: Bytes)
    ensures WholeSamples(Rest(payload)) <==> WholeSamples(payload)
    decreases |payload|
  {
    if |payload| >= CHUNK {
      RestIsWhole(payload[CHUNK..]);
    }
  }

  /** What an end does to a segment of whole samples. */
  lemma EndCloses(r: Recogniser, d: Service)
    requires d.alive && d.inSegment && WholeSamples(d.buffer)
    ensures var t, calls := Handle(r, d, End), d.calls + [Call(d.buffer, true)];
      && Resting(t) && t.segments == d.segments + [calls]
      && t.ignoredEnds == d.ignoredEnds && t.implicitStarts == d.implicitStarts
      && t.events == d.events + Closing(d.text + r(calls))
  {
  }

  lemma CloseSegment(r: Recogniser, s: Service, d: Service, payload: Bytes)
    requires s.events <= d.events && WholeSamples(payload)
    requires d.alive && d.inSegment && d.buffer == Rest(payload) && d.segments == s.segments
    requires d.ignoredEnds == s.ignoredEnds && d.implicitStarts == s.implicitStarts
    requires d.calls == StrideCalls(Pieces(payload)) && d.text == Recognised(r, d.calls)
    requires Chain(d.events, |s.events|, d.text)
    requires d.events == s.events + PartialsOf(r, d.calls)
    ensures Decoded(r, s, Handle(r, d, End), payload)
  {
    var calls := DecoderCalls(payload);
    assert calls[..|calls| - 1] == d.calls;
    var full := Recognised(r, calls);
    assert full == d.text + r(calls);
    RestIsWhole(payload);
    EndCloses(r, d);
    CloseCounts(s.events, d.events, d.text, full);
    assert d.events + Closing(full) == s.events + Report(r, payload);
  }

  lemma HandleConcat(r: Recogniser, s: Service, a: seq<AsrFrame>, b: seq<AsrFrame>)
    ensures HandleAll(r, s, a + b) == HandleAll(r, HandleAll(r, s, a), b)
    decreases |b|
  {
    if b == [] {
      assert a + b == a;
    } else {
      assert (a + b)[..|a + b| - 1] == a + b[..|b| - 1];
      HandleConcat(r, s, a, b[..|b| - 1]);
    }
  }

  lemma HandleOne(r: Recogniser, s: Service, f: AsrFrame)
    ensures HandleAll(r, s, [f]) == Handle(r, s, f)
  {
    assert [f][..0] == [];
  }

  /** An odd number of bytes: after the partials the endpoint reports an error, sends no eos and
      closes. */
  ghost predicate Failed(r: Recogniser, s: Service, t: Service, payload: Bytes) {
    && !t.alive
    && t.segments == s.segments
    && EosCount(t.events) == EosCount(s.events)
    && t.events == s.events + PartialsOf(r, StrideCalls(Pieces(payload))) + [Error("internal_error")]
  }

  lemma OddSegmentFails(r: Recogniser, s: Service, d: Service, payload: Bytes)
    requires s.events <= d.events && !WholeSamples(payload)
    requires d.alive && d.inSegment && d.buffer == Rest(payload) && d.segments == s.segments
    requires Chain(d.events, |s.events|, d.text)
    requires d.events == s.events + PartialsOf(r, StrideCalls(Pieces(payload)))
    ensures Failed(r, s, Handle(r, d, End), payload)
  {
    RestIsWhole(payload);
    ChainHasNoEos(d.events, |s.events|, d.text);
    assert d.events[..|s.events|] == s.events;
    EosAppend(d.events, Error("internal_error"));
  }

  /** A segment sent in any packets, whatever was pending before it: it is decoded exactly when
      its bytes are whole samples; otherwise the connection is lost. */
  lemma SegmentIsDecoded(r: Recogniser, s: Service, packets: seq<Bytes>)
    requires s.alive
    ensures var t := HandleAll(r, s, [Start(16000)] + Audios(packets) + [End]);
      if WholeSamples(Flatten(packets)) then Decoded(r, s, t, Flatten(packets)) else Failed(r, s, t, Flatten(packets))
  {
    var payload := Flatten(packets);
    var begun := Handle(r, s, Start(16000));
    HandleOne(r, s, Start(16000));
    HandleConcat(r, s, [Start(16000)], Audios(packets));
    PacketsDoNotMatter(r, begun, packets);
    assert [] + payload == payload;
    StridesDecode(r, begun, Pieces(payload));
    StridesReport(r, begun, Pieces(payload));
    StridesChain(r, begun, Pieces(payload));
    StridesKeep(r, begun, Pieces(payload));
    var d := HandleAll(r, begun, Audios(packets));
    HandleConcat(r, s, [Start(16000)] + Audios(packets), [End]);
    HandleOne(r, d, End);
    if WholeSamples(payload) {
      CloseSegment(r, s, d, payload);
    } else {
      OddSegmentFails(r, s, d, payload);
    }
  }

  // ---- the whole uplink ----

  function AllCalls(payloads: seq<Bytes>): (calls: seq<seq<Call>>)
    ensures |calls| == |payloads|
  {
    seq(|payloads|, i requires 0 <= i < |payloads| => DecoderCalls(payloads[i]))
  }

  function ReportAll(r: Recogniser, payloads: seq<Bytes>): seq<AsrEvent> {
    if payloads == [] then []
    else ReportAll(r, payloads[..|payloads| - 1]) + Report(r, payloads[|payloads| - 1])
  }

  /** So far everything was decoded and reported, and nothing else happened. */
  ghost predicate AllDecoded(r: Recogniser, t: Service, payloads: seq<Bytes>) {
    && Resting(t)
    && t.segments == AllCalls(payloads)
    && t.events == [Ready] + ReportAll(r, payloads)
    && EosCount(t.events) == |payloads|
    && t.ignoredEnds == 0 && t.implicitStarts == 0
  }

  lemma CallsMore(payloads: seq<Bytes>)
    requires payloads != []
    ensures AllCalls(payloads) == AllCalls(payloads[..|payloads| - 1]) + [DecoderCalls(payloads[|payloads| - 1])]
  {
  }

  lemma ReportMore(r: Recogniser, payloads: seq<Bytes>)
    requires payloads != []
    ensures [Ready] + ReportAll(r, payloads) ==
      ([Ready] + ReportAll(r, payloads[..|payloads| - 1])) + Report(r, payloads[|payloads| - 1])
  {
    var front, last := ReportAll(r, payloads[..|payloads| - 1]), Report(r, payloads[|payloads| - 1]);
    assert [Ready] + (front + last) == ([Ready] + front) + last;
  }

  lemma DecodedNext(r: Recogniser, s: Service, t: Service, payloads: seq<Bytes>)
    requires payloads != [] && AllDecoded(r, s, payloads[..|payloads| - 1])
    requires Decoded(r, s, t, payloads[|payloads| - 1])
    ensures AllDecoded(r, t, payloads)
  {
    CallsMore(payloads);
    ReportMore(r, payloads);
  }

  lemma OneMore(r: Recogniser, s: Service, payload: Bytes)
    requires s.alive && WholeSamples(payload)
    ensures Decoded(r, s, HandleAll(r, s, Render(payload)), payload)
  {
    SegmentIsDecoded(r, s, Packets(payload));
    PacketSizes(payload);
  }

  lemma DecodedFirst(r: Recogniser)
    ensures AllDecoded(r, CONNECTED, [])
  {
    EosAppend([], Ready);
    assert [] + [Ready] == [Ready];
  }

  /** The service after these segments, one after the other. */
  function Served(r: Recogniser, payloads: seq<Bytes>): Service {
    if payloads == [] then CONNECTED
    else HandleAll(r, Served(r, payloads[..|payloads| - 1]), Render(payloads[|payloads| - 1]))
  }

  lemma {:induction false} ServedIsRendered(r: Recogniser, payloads: seq<Bytes>)
    ensures HandleAll(r, CONNECTED, RenderAll(payloads)) == Served(r, payloads)
    decreases |payloads|
  {
    if payloads != [] {
      var front, last := payloads[..|payloads| - 1], payloads[|payloads| - 1];
      ServedIsRendered(r, front);
      HandleConcat(r, CONNECTED, RenderAll(front), Render(last));
    }
  }

  lemma {:induction false} ServedIsDecoded(r: Recogniser, payloads: seq<Bytes>)
    requires forall i | 0 <= i < |payloads| :: WholeSamples(payloads[i])
    ensures AllDecoded(r, Served(r, payloads), payloads)
    decreases |payloads|
  {
    if payloads == [] {
      DecodedFirst(r);
    } else {
      var front, last := payloads[..|payloads| - 1], payloads[|payloads| - 1];
      ServedIsDecoded(r, front);
      OneMore(r, Served(r, front), last);
      DecodedNext(r, Served(r, front), Served(r, payloads), payloads);
    }
  }

  /** Rendered segments are decoded one by one: one report and one eos per end, no end ignored,
      no segment opened by audio, and the decoder calls of each are those of its payload. */
  lemma RenderedIsDecoded(r: Recogniser, payloads: seq<Bytes>)
    requires forall i | 0 <= i < |payloads| :: WholeSamples(payloads[i])
    ensures AllDecoded(r, HandleAll(r, CONNECTED, RenderAll(payloads)), payloads)
  {
    ServedIsRendered(r, payloads);
    ServedIsDecoded(r, payloads);
  }

  lemma EvenBlocks(n: nat)
    ensures (FRAME_BYTES * n) % SAMPLE_WIDTH == 0
  {
    assert FRAME_BYTES * n == 2 * (480 * n);
  }

  /** End to end, for every microphone stream and every detector verdict: a session in which
      the client's audio frames are the furniture's uplink, once the connection to the Worker
      is drained, leaves the ASR service with one report and one eos per window, in order, no end
      ignored and no implicit segment, and the decoder inputs of segment i are the 19200-byte slices of
      exactly the audio of window i. */
  lemma MicrophoneToDecoder(
    r: Recogniser, mic: Mic, frames: seq<Bytes>,
    cfg: Worker.Config, pushed: Option<DeviceContext>, states: seq<Protocol.State>, steps: seq<Protocol.Step>)
    requires Positive(mic.limits) && Blocks(frames)
    requires Protocol.IsRun(cfg, pushed, states, steps)
    requires ProtocolTransport.MediaOf(ProtocolTransport.ClientFrames(steps)) == Leave(TakeAll(mic, frames)).sent
    requires states[|steps|].downRead == |states[|steps|].down|
    ensures var ws := Windows(mic.limits, Verdicts(mic, frames));
      var asr := HandleAll(r, CONNECTED, states[|steps|].asrIn);
      && Fits(ws, |frames|)
      && asr.segments == AllCalls(Payloads(frames, ws))
      && asr.events == [Ready] + ReportAll(r, Payloads(frames, ws))
      && EosCount(asr.events) == |ws| == Leave(TakeAll(mic, frames)).ends
      && asr.ignoredEnds == 0 && asr.implicitStarts == 0
  {
    UplinkIsRenderedWindows(mic, frames);
    var ws := Windows(mic.limits, Verdicts(mic, frames));
    forall i | 0 <= i < |ws| ensures WholeSamples(Payloads(frames, ws)[i]) {
      FlattenSize(frames[ws[i].from..ws[i].end], FRAME_BYTES);
      EvenBlocks(ws[i].end - ws[i].from);
    }
    ProtocolTransport.DrainedMedia(cfg, pushed, states, steps);
    RenderedIsDecoded(r, Payloads(frames, ws));
  }

  // ---- samples ----

  /** The samples a decoder call is given. */
  function Samples(call: Call): seq<real>
    requires WholeSamples(call.pcm)
  {
    Pcm.Decode(call.pcm).value
  }

  function AllSamples(calls: seq<Call>): seq<real>
    requires forall i | 0 <= i < |calls| :: WholeSamples(calls[i].pcm)
  {
    if calls == [] then [] else Samples(calls[0]) + AllSamples(calls[1..])
  }

  lemma {:induction false} StrideSamples(pieces: seq<Bytes>, last: Call)
    requires forall i | 0 <= i < |pieces| :: WholeSamples(pieces[i])
    requires WholeSamples(last.pcm)
    ensures AllSamples(StrideCalls(pieces) + [last]) == Pcm.DecodeAll(pieces) + Samples(last)
    decreases |pieces|
  {
    var calls := StrideCalls(pieces) + [last];
    if pieces == [] {
      assert calls == [last] && calls[1..] == [];
      assert Samples(last) + [] == [] + Samples(last);
    } else {
      StrideSamples(pieces[1..], last);
      assert calls[1..] == StrideCalls(pieces[1..]) + [last];
      assert Samples(calls[0]) + (Pcm.DecodeAll(pieces[1..]) + Samples(last)) == Pcm.DecodeAll(pieces) + Samples(last);
    }
  }

  lemma CallsCarrySegment(payload: Bytes)
    requires WholeSamples(payload)
    ensures forall i | 0 <= i < |DecoderCalls(payload)| :: WholeSamples(DecoderCalls(payload)[i].pcm)
    ensures Pcm.Decode(payload) == Some(AllSamples(DecoderCalls(payload)))
  {
    Pcm.StridesDecodeSegment(payload);
    StrideSamples(Pieces(payload), Call(Rest(payload), true));
  }

  /** What the recogniser is fed for a window, call after call, is what the microphone picked up
      in that window: as many samples, each within 2/32768 of the clipped original. */
  lemma RecogniserHearsWindow(blocks: seq<seq<real>>, w: Window)
    requires w.from <= w.end <= |blocks|
    ensures var calls := DecoderCalls(Payload(Pcm.Frames(blocks), w));
      && (forall i | 0 <= i < |calls| :: WholeSamples(calls[i].pcm))
      && Pcm.Near(AllSamples(calls), Pcm.Join(blocks[w.from..w.end]))
  {
    var window := blocks[w.from..w.end];
    assert Pcm.Frames(blocks)[w.from..w.end] == Pcm.Frames(window);
    Pcm.FramesInARow(window);
    Pcm.HearsWhatWasSaid(Pcm.Join(window));
    CallsCarrySegment(Pcm.Encode(Pcm.Join(window)));
  }
}
