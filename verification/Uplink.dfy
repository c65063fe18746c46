// The furniture's microphone loop (stream_live in furniture/mock_furniture.py): look-back,
// segment buffer, pause and resume, and the frames it sends.
module Uplink {
  import opened Wire
  import opened Vad
  import opened Chunks

  const SAMPLE_RATE := 16000
  const LOOKBACK := 10

  datatype Mic = Mic(limits: Thresholds, isSpeech: Bytes -> bool)

  datatype Stream = Stream(
    vad: Counters, paused: bool, segBuf: Bytes, preBuf: seq<Bytes>, sent: seq<AsrFrame>, ends: nat)

  const SILENT := Stream(RESET, false, [], [], [], 0)

  /** flush_segment_buf */
  function Flush(s: Stream): Stream {
    if s.segBuf == [] then s else s.(sent := s.sent + [Audio(s.segBuf)], segBuf := [])
  }

  function Finish(s: Stream): Stream {
    var f := Flush(s);
    f.(sent := f.sent + [End], ends := f.ends + 1)
  }

  function Extend(s: Stream, frame: Bytes): Stream {
    var e := s.(segBuf := s.segBuf + frame);
    if |e.segBuf| >= CHUNK then Flush(e) else e
  }

  /** A deque of bounded length. */
  function Remember(pre: seq<Bytes>, frame: Bytes): seq<Bytes> {
    var grown := pre + [frame];
    if |grown| > LOOKBACK then grown[|grown| - LOOKBACK..] else grown
  }

  /** One frame taken from the microphone queue.  While paused, the frame only wakes the loop
      up and is dropped. */
  function Take(mic: Mic, s: Stream, frame: Bytes): Stream {
    if s.paused then
      s.(paused := false, vad := RESET)
    else
      var (vad, event) := Hear(mic.limits, mic.isSpeech, s.vad, frame);
      var heard := s.(vad := vad);
      match event
      case SpeechStart =>
        Extend(heard.(sent := s.sent + [Start(SAMPLE_RATE)], segBuf := Flatten(s.preBuf), preBuf := []), frame)
      case SpeechEnd => Finish(heard).(paused := true)
      case Nothing =>
        if vad.speaking then Extend(heard, frame) else heard.(preBuf := Remember(s.preBuf, frame))
  }

  function TakeAll(mic: Mic, frames: seq<Bytes>): Stream {
    if frames == [] then SILENT
    else Take(mic, TakeAll(mic, frames[..|frames| - 1]), frames[|frames| - 1])
  }

  /** Leaving the loop closes a segment that is still open. */
  function Leave(s: Stream): Stream {
    if s.vad.speaking then Finish(s) else s
  }

  class LiveStream {
    const vad: VadSegmenter
    var vadPaused: bool
    var segBuf: Bytes
    var preBuf: seq<Bytes>
    var sent: seq<AsrFrame>
    var endCount: nat

    ghost function Value(): Stream
      reads this, vad
    {
      Stream(vad.Value(), vadPaused, segBuf, preBuf, sent, endCount)
    }

    ghost function Microphone(): Mic {
      Mic(vad.Limits(), vad.isSpeech)
    }

    constructor (vad: VadSegmenter)
      requires vad.Value() == RESET
      ensures Value() == SILENT && this.vad == vad
    {
      this.vad := vad;
      vadPaused, segBuf, preBuf, sent, endCount := false, [], [], [], 0;
    }

    method FlushSegmentBuf()
      modifies this
      ensures Value() == Flush(old(Value()))
      ensures segBuf == [] && sent == old(sent) + (if old(segBuf) == [] then [] else [Audio(old(segBuf))])
    {
      if segBuf != [] {
        sent := sent + [Audio(segBuf)];
        segBuf := [];
      }
    }

    method SendEnd()
      modifies this
      ensures Value() == Finish(old(Value()))
    {
      FlushSegmentBuf();
      sent := sent + [End];
      endCount := endCount + 1;
    }

    method FillFromLookback()
      requires segBuf == []
      modifies this
      ensures Value() == old(Value()).(segBuf := Flatten(old(preBuf)), preBuf := [])
    {
      var pre := preBuf;
      for i := 0 to |pre|
        invariant Value() == old(Value()).(segBuf := Flatten(pre[..i]))
      {
        assert pre[..i + 1] == pre[..i] + [pre[i]];
        FlattenAppend(pre[..i], pre[i]);
        segBuf := segBuf + pre[i];
      }
      assert pre[..|pre|] == pre;
      preBuf := [];
    }

    method TakeFrame(frame: Bytes)
      modifies this, vad
      ensures Value() == Take(Microphone(), old(Value()), frame)
      ensures old(vadPaused) ==> Value() == old(Value()).(paused := false, vad := RESET)
      ensures !old(vadPaused) && |frame| != 960 ==> vad.Value() == old(vad.Value()) && endCount == old(endCount)
      ensures !old(vadPaused) && |frame| != 960 && !old(vad.speaking) ==>
        sent == old(sent) && segBuf == old(segBuf) && preBuf == Remember(old(preBuf), frame)
      ensures !old(vadPaused) && |frame| != 960 && old(vad.speaking) ==>
        var full := |old(segBuf) + frame| >= 19200;
        && preBuf == old(preBuf)
        && sent == old(sent) + (if full then [Audio(old(segBuf) + frame)] else [])
        && segBuf == (if full then [] else old(segBuf) + frame)
    {
      if vadPaused {
        vadPaused := false;
        vad.Reset();
        return;
      }
      var event := vad.Feed(frame);
      if event == SpeechStart {
        sent := sent + [Start(SAMPLE_RATE)];
        segBuf := [];
        FillFromLookback();
      } else if event == SpeechEnd {
        SendEnd();
        vadPaused := true;
        return;
      }
      if vad.speaking {
        segBuf := segBuf + frame;
        if |segBuf| >= CHUNK {
          FlushSegmentBuf();
        }
      } else {
        preBuf := preBuf + [frame];
        if |preBuf| > LOOKBACK {
          preBuf := preBuf[|preBuf| - LOOKBACK..];
        }
      }
    }

    /** The whole loop, over the frames it takes before it is left. */
    method StreamLive(frames: seq<Bytes>) returns (ends: nat)
      requires Value() == SILENT
      modifies this, vad
      ensures Value() == Leave(TakeAll(Microphone(), frames))
      ensures ends == endCount
    {
      for i := 0 to |frames|
        invariant Value() == TakeAll(Microphone(), frames[..i])
      {
        assert frames[..i + 1][..i] == frames[..i];
        TakeFrame(frames[i]);
      }
      assert frames[..|frames|] == frames;
      if vad.speaking {
        SendEnd();
      }
      ends := endCount;
    }
  }
}
