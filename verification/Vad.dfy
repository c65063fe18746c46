// The furniture's end-point detector (VadSegmenter in furniture/mock_furniture.py): two
// counters with hysteresis, and the window condition they implement.
module Vad {
  import opened Wire

  const FRAME_MS := 30
  const FRAME_BYTES := 960

  datatype Event = Nothing | SpeechStart | SpeechEnd

  /** Frames needed in a row; the constructor of the detector keeps both positive. */
  datatype Thresholds = Thresholds(toStart: nat, toEnd: nat)

  predicate Positive(th: Thresholds) { th.toStart > 0 && th.toEnd > 0 }

  datatype Counters = Counters(speaking: bool, silenceRun: nat, speechRun: nat)

  const RESET := Counters(false, 0, 0)

  function Judge(th: Thresholds, c: Counters, speech: bool): (Counters, Event) {
    if c.speaking then
      if speech then (c.(silenceRun := 0), Nothing)
      else if c.silenceRun + 1 >= th.toEnd then (RESET, SpeechEnd)
      else (c.(silenceRun := c.silenceRun + 1), Nothing)
    else
      if !speech then (c.(speechRun := 0), Nothing)
      else if c.speechRun + 1 >= th.toStart then (Counters(true, 0, 0), SpeechStart)
      else (c.(speechRun := c.speechRun + 1), Nothing)
  }

  /** A frame of the wrong size is ignored. */
  function Hear(th: Thresholds, isSpeech: Bytes -> bool, c: Counters, frame: Bytes): (Counters, Event) {
    if |frame| != FRAME_BYTES then (c, Nothing) else Judge(th, c, isSpeech(frame))
  }

  class VadSegmenter {
    const isSpeech: Bytes -> bool
    const silenceFramesToEnd: nat
    const speechFramesToStart: nat
    var speaking: bool
    var silenceRun: nat
    var speechRun: nat

    ghost function Value(): Counters
      reads this
    {
      Counters(speaking, silenceRun, speechRun)
    }

    function Limits(): Thresholds {
      Thresholds(speechFramesToStart, silenceFramesToEnd)
    }

    constructor (isSpeech: Bytes -> bool, silenceMs: int, minSpeechMs: int)
      ensures Value() == RESET && this.isSpeech == isSpeech
      ensures Positive(Limits())
      ensures silenceMs >= FRAME_MS ==>
        Limits().toEnd * FRAME_MS <= silenceMs < (Limits().toEnd + 1) * FRAME_MS
      ensures minSpeechMs >= FRAME_MS ==>
        Limits().toStart * FRAME_MS <= minSpeechMs < (Limits().toStart + 1) * FRAME_MS
      ensures silenceMs < FRAME_MS ==> Limits().toEnd == 1
      ensures minSpeechMs < FRAME_MS ==> Limits().toStart == 1
    {
      this.isSpeech := isSpeech;
      silenceFramesToEnd := if silenceMs / FRAME_MS > 1 then silenceMs / FRAME_MS else 1;
      speechFramesToStart := if minSpeechMs / FRAME_MS > 1 then minSpeechMs / FRAME_MS else 1;
      speaking, silenceRun, speechRun := false, 0, 0;
    }

    method Reset()
      modifies this
      ensures Value() == RESET
    {
      speaking, silenceRun, speechRun := false, 0, 0;
    }

    method Feed(frame: Bytes) returns (event: Event)
      modifies this
      ensures (Value(), event) == Hear(Limits(), isSpeech, old(Value()), frame)
      ensures |frame| != 960 ==> Value() == old(Value()) && event == Nothing
      ensures event == SpeechStart ==> !old(speaking) && speaking
      ensures event == SpeechEnd ==> old(speaking) && !speaking
      ensures event == Nothing ==> speaking == old(speaking)
    {
      if |frame| != FRAME_BYTES {
        return Nothing;
      }
      var speech := isSpeech(frame);
      if speaking {
        if speech {
          silenceRun := 0;
        } else {
          silenceRun := silenceRun + 1;
          if silenceRun >= silenceFramesToEnd {
            speaking, silenceRun, speechRun := false, 0, 0;
            return SpeechEnd;
          }
        }
      } else {
        if speech {
          speechRun := speechRun + 1;
          if speechRun >= speechFramesToStart {
            speaking, silenceRun, speechRun := true, 0, 0;
            return SpeechStart;
          }
        } else {
          speechRun := 0;
        }
      }
      return Nothing;
    }
  }

  // ---- runs from a reset, over a history of verdicts ----

  function After(th: Thresholds, h: seq<bool>): Counters {
    if h == [] then RESET else Judge(th, After(th, h[..|h| - 1]), h[|h| - 1]).0
  }

  function Events(th: Thresholds, h: seq<bool>): (events: seq<Event>)
    ensures |events| == |h|
  {
    if h == [] then []
    else
      var front := h[..|h| - 1];
      Events(th, front) + [Judge(th, After(th, front), h[|h| - 1]).1]
  }

  // ---- the window condition ----

  /** Position just after the last start or end; 0 if there has been none. */
  function Mark(past: seq<Event>): (m: nat)
    ensures m <= |past|
    ensures m > 0 ==> past[m - 1] != Nothing
    ensures forall i | m <= i < |past| :: past[i] == Nothing
  {
    if past == [] then 0
    else if past[|past| - 1] != Nothing then |past|
    else Mark(past[..|past| - 1])
  }

  predicate Speaking(past: seq<Event>) {
    Mark(past) > 0 && past[Mark(past) - 1] == SpeechStart
  }

  /** The last n verdicts since position m are all `speech`. */
  predicate LastAre(h: seq<bool>, m: nat, n: nat, speech: bool) {
    m + n <= |h| && forall i | |h| - n <= i < |h| :: h[i] == speech
  }

  /** What the detector promises about the last verdict of h, given its earlier events. */
  function WindowEvent(th: Thresholds, h: seq<bool>, past: seq<Event>): Event {
    if Speaking(past) then
      if LastAre(h, Mark(past), th.toEnd, false) then SpeechEnd else Nothing
    else
      if LastAre(h, Mark(past), th.toStart, true) then SpeechStart else Nothing
  }

  /** Length of the run of `speech` verdicts at the end of h, going back to m at most. */
  function Trail(h: seq<bool>, m: nat, speech: bool): (n: nat)
    ensures n <= |h|
    ensures m <= |h| ==> n <= |h| - m
  {
    if |h| <= m || h[|h| - 1] != speech then 0 else 1 + Trail(h[..|h| - 1], m, speech)
  }

  lemma {:induction false} TrailIsWindow(h: seq<bool>, m: nat, n: nat, speech: bool)
    requires n > 0
    ensures Trail(h, m, speech) >= n <==> LastAre(h, m, n, speech)
    decreases |h|
  {
    if |h| > m && h[|h| - 1] == speech && n > 1 {
      var front := h[..|h| - 1];
      TrailIsWindow(front, m, n - 1, speech);
      if LastAre(front, m, n - 1, speech) {
        forall i | |h| - n <= i < |h| ensures h[i] == speech {
          if i < |h| - 1 { assert h[i] == front[i]; }
        }
      }
      if LastAre(h, m, n, speech) {
        forall i | |front| - (n - 1) <= i < |front| ensures front[i] == speech { assert front[i] == h[i]; }
      }
    }
  }

  /** The counters are run lengths since the last event, and stay below their thresholds. */
  ghost predicate CountersMean(th: Thresholds, h: seq<bool>) {
    var c := After(th, h);
    var past := Events(th, h);
    && c.speaking == Speaking(past)
    && c.speechRun == (if c.speaking then 0 else Trail(h, Mark(past), true))
    && c.silenceRun == (if c.speaking then Trail(h, Mark(past), false) else 0)
    && c.speechRun < th.toStart && c.silenceRun < th.toEnd
  }

  lemma MarkAppend(past: seq<Event>, e: Event)
    ensures Mark(past + [e]) == if e == Nothing then Mark(past) else |past| + 1
    ensures Speaking(past + [e]) == if e == Nothing then Speaking(past) else e == SpeechStart
  {
    assert (past + [e])[..|past|] == past;
  }

  /** One verdict, with the counters read as run lengths since position m. */
  lemma JudgeRuns(th: Thresholds, c: Counters, h: seq<bool>, m: nat)
    requires Positive(th) && h != [] && m < |h|
    requires c.speechRun == if c.speaking then 0 else Trail(h[..|h| - 1], m, true)
    requires c.silenceRun == if c.speaking then Trail(h[..|h| - 1], m, false) else 0
    ensures var (after, e) := Judge(th, c, h[|h| - 1]);
      && e == (if c.speaking then (if LastAre(h, m, th.toEnd, false) then SpeechEnd else Nothing)
               else (if LastAre(h, m, th.toStart, true) then SpeechStart else Nothing))
      && (e == Nothing ==> after == Counters(c.speaking, if c.speaking then Trail(h, m, false) else 0,
                                             if c.speaking then 0 else Trail(h, m, true)))
      && (e != Nothing ==> after == Counters(e == SpeechStart, 0, 0))
      && (c.speechRun < th.toStart && c.silenceRun < th.toEnd ==> after.speechRun < th.toStart && after.silenceRun < th.toEnd)
  {
    TrailIsWindow(h, m, th.toStart, true);
    TrailIsWindow(h, m, th.toEnd, false);
  }

  lemma {:induction false} CountersAreRuns(th: Thresholds, h: seq<bool>)
    requires Positive(th)
    ensures CountersMean(th, h)
    ensures h != [] ==>
      Events(th, h)[|h| - 1] == WindowEvent(th, h, Events(th, h[..|h| - 1]))
    decreases |h|
  {
    if h != [] {
      var front := h[..|h| - 1];
      CountersAreRuns(th, front);
      var past := Events(th, front);
      JudgeRuns(th, After(th, front), h, Mark(past));
      MarkAppend(past, Judge(th, After(th, front), h[|h| - 1]).1);
    }
  }

  /** The detector meets its window condition at every frame of every history. */
  lemma DetectorMeetsWindow(th: Thresholds, h: seq<bool>, n: nat)
    requires Positive(th) && n < |h|
    ensures Events(th, h)[n] == WindowEvent(th, h[..n + 1], Events(th, h)[..n])
    ensures CountersMean(th, h[..n])
  {
    EventsPrefix(th, h, n + 1);
    EventsPrefix(th, h, n);
    CountersAreRuns(th, h[..n + 1]);
    CountersAreRuns(th, h[..n]);
    assert h[..n + 1][..n] == h[..n];
    assert Events(th, h)[..n + 1][n] == Events(th, h)[n];
  }

  lemma {:induction false} EventsPrefix(th: Thresholds, h: seq<bool>, n: nat)
    requires n <= |h|
    ensures Events(th, h[..n]) == Events(th, h)[..n]
    decreases |h|
  {
    if n < |h| {
      var front := h[..|h| - 1];
      EventsPrefix(th, front, n);
      assert front[..n] == h[..n];
    } else {
      assert h[..n] == h;
    }
  }

  /** Starts and ends alternate, beginning with a start. */
  lemma EventsAlternate(th: Thresholds, h: seq<bool>, n: nat)
    requires Positive(th) && n < |h|
    ensures Events(th, h)[n] == SpeechStart ==> !Speaking(Events(th, h)[..n])
    ensures Events(th, h)[n] == SpeechEnd ==> Speaking(Events(th, h)[..n])
  {
    DetectorMeetsWindow(th, h, n);
  }
}
