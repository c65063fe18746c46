// What the two connections carry through: the context every LLM call sees, the audio
// frames that reach the ASR service, and the frames that reach the furniture.
module ProtocolTransport {
  import opened Wire
  import opened Worker
  import opened Protocol

  // ---- context before use ----

  ghost predicate NothingFinal(events: seq<AsrEvent>) {
    forall i | 0 <= i < |events| :: !events[i].Final?
  }

  ghost predicate NoCommands(written: seq<UpFrame>) {
    forall i | 0 <= i < |written| :: !written[i].DeviceCommand?
  }

  /** Until the first frame from the Server is read, nothing can start an LLM call. */
  ghost predicate Untouched(s: State) {
    s.asrIn == [] && s.asrInRead == 0 && NothingFinal(s.asrOut) && s.tasks == [] && NoCommands(s.session.written)
  }

  /** The context after a frame has been read. */
  function ContextAfter(before: Option<DeviceContext>, f: DownFrame): Option<DeviceContext> {
    if f.DeviceInfo? && f.info.Some? then f.info else before
  }

  /** The context after all these frames: the last one that parses. */
  function ContextOf(frames: seq<DownFrame>): Option<DeviceContext> {
    if frames == [] then None
    else ContextAfter(ContextOf(frames[..|frames| - 1]), frames[|frames| - 1])
  }

  /** Some prefix of the frames, not the empty one, ends in this context. */
  ghost predicate Announced(c: Option<DeviceContext>, frames: seq<DownFrame>, from: nat) {
    exists n :: from <= n <= |frames| && c == ContextOf(frames[..n])
  }

  ghost predicate ContextFirst(s: State) {
    && s.downRead <= |s.down|
    && s.session.context == ContextOf(s.down[..s.downRead])
    && (s.downRead == 0 ==> Untouched(s) && s.snapshots == [])
    && forall i | 0 <= i < |s.snapshots| :: Announced(s.snapshots[i], s.down[..s.downRead], 1)
  }

  lemma AnnouncedGrows(c: Option<DeviceContext>, frames: seq<DownFrame>, more: seq<DownFrame>, from: nat)
    requires Announced(c, frames, from) && frames <= more
    ensures Announced(c, more, from)
  {
    var n :| from <= n <= |frames| && c == ContextOf(frames[..n]);
    assert more[..n] == frames[..n];
  }

  /** New snapshots are of the context at that moment. */
  lemma SnapshotStep(cfg: Config, s: State, t: State, step: Step)
    requires Enabled(s, step) && t == Apply(cfg, s, step)
    ensures s.snapshots <= t.snapshots && |t.snapshots| <= |s.snapshots| + 1
    ensures |t.snapshots| > |s.snapshots| ==> t.snapshots[|s.snapshots|] == s.session.context == t.session.context
    ensures s.down <= t.down && s.downRead <= t.downRead <= s.downRead + 1
    ensures !step.WorkerReads? ==> t.session.context == s.session.context && t.downRead == s.downRead
    ensures step.WorkerReads? ==>
      t.session.context == ContextAfter(s.session.context, s.down[s.downRead]) && t.downRead == s.downRead + 1
  {
  }

  lemma UntouchedStep(cfg: Config, s: State, t: State, step: Step)
    requires Untouched(s) && Enabled(s, step) && !step.WorkerReads? && t == Apply(cfg, s, step)
    ensures Untouched(t) && t.snapshots == s.snapshots
  {
    if step.WorkerReadsAsr? { assert !s.asrOut[s.asrOutRead].Final?; }
  }

  lemma ContextStep(cfg: Config, s: State, t: State, step: Step)
    requires ContextFirst(s) && Enabled(s, step) && t == Apply(cfg, s, step)
    ensures ContextFirst(t)
  {
    SnapshotStep(cfg, s, t, step);
    var before, after := s.down[..s.downRead], t.down[..t.downRead];
    if step.WorkerReads? {
      assert after == before + [s.down[s.downRead]];
      assert after[..|after| - 1] == before;
    } else {
      assert after == before;
      if s.downRead == 0 {
        UntouchedStep(cfg, s, t, step);
      }
    }
    forall i | 0 <= i < |t.snapshots| ensures Announced(t.snapshots[i], after, 1) {
      if i < |s.snapshots| {
        AnnouncedGrows(s.snapshots[i], before, after, 1);
      } else {
        assert after[..|after|] == after;
      }
    }
  }

  lemma {:induction false} RunContexts(
    cfg: Config, pushed: Option<DeviceContext>, states: seq<State>, steps: seq<Step>, k: nat)
    requires IsRun(cfg, pushed, states, steps) && k < |states|
    ensures ContextFirst(states[k])
    ensures Init(pushed).down <= states[k].down
  {
    if k > 0 {
      RunContexts(cfg, pushed, states, steps, k - 1);
      ContextStep(cfg, states[k - 1], states[k], steps[k - 1]);
      SnapshotStep(cfg, states[k - 1], states[k], steps[k - 1]);
    } else {
      assert Init(pushed).down[..0] == [];
    }
  }

  lemma {:induction false} ContextsOnceSet(frames: seq<DownFrame>, n: nat, m: nat)
    requires n <= m <= |frames| && ContextOf(frames[..n]).Some?
    ensures ContextOf(frames[..m]).Some?
    ensures (forall i | n <= i < m :: !frames[i].DeviceInfo?) ==> ContextOf(frames[..m]) == ContextOf(frames[..n])
    decreases m
  {
    if n < m {
      ContextsOnceSet(frames, n, m - 1);
      assert frames[..m][..m - 1] == frames[..m - 1];
    }
  }

  lemma {:induction false} NoContexts(frames: seq<DownFrame>, m: nat)
    requires m <= |frames| && forall i | 0 <= i < m :: !frames[i].DeviceInfo?
    ensures ContextOf(frames[..m]) == None
    decreases m
  {
    if m > 0 {
      NoContexts(frames, m - 1);
      assert frames[..m][..m - 1] == frames[..m - 1];
    }
  }

  /** Every LLM call of a session, first or second round, triggered by text or through the ASR
      service, sees the context last announced before it, never the initial empty one if the
      push succeeded.  The Server passes on a device_info a client sends; if no client sends one,
      every call sees exactly what the Server pushed. */
  lemma EveryLlmCallSeesThePush(
    cfg: Config, pushed: Option<DeviceContext>, states: seq<State>, steps: seq<Step>, k: nat, i: nat)
    requires IsRun(cfg, pushed, states, steps) && k < |states| && i < |states[k].snapshots|
    ensures Announced(states[k].snapshots[i], states[k].down, 1)
    ensures pushed.Some? ==> states[k].snapshots[i].Some?
    ensures (forall j | |Init(pushed).down| <= j < |states[k].down| :: !states[k].down[j].DeviceInfo?) ==>
      states[k].snapshots[i] == pushed
  {
    RunContexts(cfg, pushed, states, steps, k);
    var s := states[k];
    AnnouncedGrows(s.snapshots[i], s.down[..s.downRead], s.down, 1);
    var n :| 1 <= n <= |s.down| && s.snapshots[i] == ContextOf(s.down[..n]);
    if pushed.Some? {
      assert s.down[0] == DeviceInfo(pushed);
      assert s.down[..1] == [DeviceInfo(pushed)] && [DeviceInfo(pushed)][..0] == [];
      ContextsOnceSet(s.down, 1, n);
    } else if forall j | 0 <= j < |s.down| :: !s.down[j].DeviceInfo? {
      NoContexts(s.down, n);
    }
  }

  // ---- pass-through ----

  /** The audio frames among the frames sent to the Worker, in order. */
  function MediaOf(frames: seq<DownFrame>): seq<AsrFrame> {
    if frames == [] then []
    else
      var f := frames[|frames| - 1];
      var rest := MediaOf(frames[..|frames| - 1]);
      if f.Media? then rest + [f.frame] else rest
  }

  /** What the Server passes on to the furniture. */
  function ForwardedOf(frames: seq<UpFrame>): seq<UpFrame> {
    if frames == [] then []
    else
      var f := frames[|frames| - 1];
      var rest := ForwardedOf(frames[..|frames| - 1]);
      if f.DeviceCommand? then rest else rest + [f]
  }

  lemma MediaAppend(frames: seq<DownFrame>, f: DownFrame)
    ensures MediaOf(frames + [f]) == if f.Media? then MediaOf(frames) + [f.frame] else MediaOf(frames)
  {
    assert (frames + [f])[..|frames|] == frames;
  }

  ghost predicate Forwarding(s: State) {
    && s.downRead <= |s.down| && s.upRead <= |s.session.written| && s.asrInRead <= |s.asrIn|
    && s.asrIn == MediaOf(s.down[..s.downRead])
    && s.client == ForwardedOf(s.session.written[..s.upRead])
  }

  lemma TracesGrow(cfg: Config, s: State, t: State, step: Step)
    requires Enabled(s, step) && t == Apply(cfg, s, step)
    ensures s.session.written <= t.session.written && s.down <= t.down
  {
  }

  lemma ForwardingWhenRead(cfg: Config, s: State)
    requires Forwarding(s) && Enabled(s, WorkerReads)
    ensures Forwarding(WorkerRead(cfg, s))
  {
    var t := WorkerRead(cfg, s);
    var f := s.down[s.downRead];
    assert t.down[..t.downRead] == s.down[..s.downRead] + [f];
    MediaAppend(s.down[..s.downRead], f);
    assert t.session.written[..t.upRead] == s.session.written[..s.upRead];
  }

  lemma ForwardingWhenPassed(s: State)
    requires Forwarding(s) && Enabled(s, ServerReads)
    ensures Forwarding(ServerRead(s))
  {
    var t := ServerRead(s);
    var f := s.session.written[s.upRead];
    var before := s.session.written[..s.upRead];
    assert t.session.written[..t.upRead] == before + [f];
    assert (before + [f])[..|before|] == before;
  }

  lemma ForwardingStep(cfg: Config, s: State, t: State, step: Step)
    requires Forwarding(s) && Enabled(s, step) && t == Apply(cfg, s, step)
    ensures Forwarding(t)
  {
    match step
    case WorkerReads => ForwardingWhenRead(cfg, s);
    case ServerReads => ForwardingWhenPassed(s);
    case _ =>
      TracesGrow(cfg, s, t, step);
      assert t.down[..s.downRead] == s.down[..s.downRead];
      assert t.session.written[..s.upRead] == s.session.written[..s.upRead];
  }

  /** The ASR service is sent exactly the audio frames read so far, in order, whatever other
      frames the Server mixes in; the furniture is sent everything but device commands. */
  lemma {:induction false} RunForwards(
    cfg: Config, pushed: Option<DeviceContext>, states: seq<State>, steps: seq<Step>, k: nat)
    requires IsRun(cfg, pushed, states, steps) && k < |states|
    ensures Forwarding(states[k])
  {
    if k == 0 {
    } else {
      RunForwards(cfg, pushed, states, steps, k - 1);
      ForwardingStep(cfg, states[k - 1], states[k], steps[k - 1]);
    }
  }

  /** The frames a client sends in a run, in order. */
  function ClientFrames(steps: seq<Step>): seq<DownFrame> {
    if steps == [] then []
    else
      var last := steps[|steps| - 1];
      var rest := ClientFrames(steps[..|steps| - 1]);
      if last.ClientSends? then rest + [last.frame] else rest
  }

  /** Frames the Server adds of its own are never audio. */
  lemma MediaStep(cfg: Config, s: State, t: State, step: Step)
    requires Enabled(s, step) && t == Apply(cfg, s, step)
    ensures MediaOf(t.down) ==
      if step.ClientSends? && step.frame.Media? then MediaOf(s.down) + [step.frame.frame] else MediaOf(s.down)
  {
    if |t.down| > |s.down| {
      MediaAppend(s.down, t.down[|s.down|]);
    }
  }

  lemma ClientAppend(steps: seq<Step>, step: Step)
    ensures MediaOf(ClientFrames(steps + [step])) ==
      var rest := MediaOf(ClientFrames(steps));
      if step.ClientSends? && step.frame.Media? then rest + [step.frame.frame] else rest
  {
    assert (steps + [step])[..|steps|] == steps;
    if step.ClientSends? {
      MediaAppend(ClientFrames(steps), step.frame);
    }
  }

  lemma {:induction false} SentMedia(
    cfg: Config, pushed: Option<DeviceContext>, states: seq<State>, steps: seq<Step>, k: nat)
    requires IsRun(cfg, pushed, states, steps) && k < |states|
    ensures MediaOf(states[k].down) == MediaOf(ClientFrames(steps[..k]))
  {
    if k > 0 {
      var step := steps[k - 1];
      SentMedia(cfg, pushed, states, steps, k - 1);
      MediaStep(cfg, states[k - 1], states[k], step);
      assert steps[..k] == steps[..k - 1] + [step];
      ClientAppend(steps[..k - 1], step);
    }
  }

  /** Once the connection to the Worker is drained, the ASR service has been sent exactly the
      client's audio frames. */
  lemma DrainedMedia(cfg: Config, pushed: Option<DeviceContext>, states: seq<State>, steps: seq<Step>)
    requires IsRun(cfg, pushed, states, steps)
    requires states[|steps|].downRead == |states[|steps|].down|
    ensures states[|steps|].asrIn == MediaOf(ClientFrames(steps))
  {
    var s := states[|steps|];
    RunForwards(cfg, pushed, states, steps, |steps|);
    SentMedia(cfg, pushed, states, steps, |steps|);
    assert steps[..|steps|] == steps;
    assert s.down[..s.downRead] == s.down;
  }
}
