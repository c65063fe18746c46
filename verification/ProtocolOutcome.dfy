// What a second round is told about its command, and which replies and which audio the
// answers of a session lead to: every result traced back to the execution it comes from, every
// frame to the step that wrote it.
module ProtocolOutcome {
  import opened Wire
  import opened Worker
  import opened Protocol
  import opened ProtocolAccounting
  import opened ProtocolSafety
  import opened ProtocolTransport
  import opened ProtocolTrace
  import opened Sums
  import Pairing = ProtocolPairing

  // ---- from a result frame to its second round ----

  /** What the LLM is told of a command: one of three texts. */
  predicate Tells(content: string, success: bool, message: string) {
    && (!success ==> content == "执行失败: " + message)
    && (success && message != "" ==> content == message)
    && (success && message == "" ==> content == "执行成功")
  }

  /** A result frame with this content has been read. */
  predicate Received(s: State, toolId: string, success: bool, message: string, origin: Option<CallRef>)
    requires s.downRead <= |s.down|
  {
    CommandResult(toolId, success, message, origin) in FramesRead(s)
  }

  ghost predicate ToldBy(s: State, e: SecondRound)
    requires s.downRead <= |s.down|
  {
    exists success, message ::
      Received(s, e.request.toolId, success, message, e.origin) && Tells(e.request.content, success, message)
  }

  ghost predicate ResultsOk(s: State) {
    && Bounded(s)
    && (forall g | g in s.tasks && g.HandleResult? :: Received(s, g.toolId, g.success, g.message, g.origin))
    && forall e | e in s.seconds :: ToldBy(s, e)
  }

  lemma BornHandlers(cfg: Config, s: State, t: State, step: Step)
    requires Bounded(s) && Enabled(s, step) && t == Apply(cfg, s, step) && Bounded(t)
    ensures forall g | g in Born(cfg, s, step) && g.HandleResult? :: Received(t, g.toolId, g.success, g.message, g.origin)
  {
    ReadsStep(cfg, s, t, step);
    if step.WorkerReads? {
      assert s.down[s.downRead] in FramesRead(t);
    }
  }

  lemma HandlersStep(cfg: Config, s: State, t: State, step: Step)
    requires ResultsOk(s) && Enabled(s, step) && t == Apply(cfg, s, step)
    ensures Bounded(t) && FramesRead(s) <= FramesRead(t)
    ensures forall g | g in t.tasks && g.HandleResult? :: Received(t, g.toolId, g.success, g.message, g.origin)
  {
    ReadsStep(cfg, s, t, step);
    BornHandlers(cfg, s, t, step);
    TasksStep(cfg, s, t, step);
    forall g | g in t.tasks && g.HandleResult? ensures Received(t, g.toolId, g.success, g.message, g.origin) {
      if g !in Born(cfg, s, step) {
        var k :| 0 <= k < |t.tasks| && t.tasks[k] == g;
        var j :| 0 <= j < |s.tasks| && j != Acting(step) && t.tasks[k] == s.tasks[j];
        assert Received(s, g.toolId, g.success, g.message, g.origin);
      }
    }
  }

  /** The second round a step records is that of the handler it pops: its id and origin, the
      context of that moment, and a content that tells its outcome. */
  lemma PopsStep(cfg: Config, s: State, t: State, step: Step)
    requires Enabled(s, step) && t == Apply(cfg, s, step)
    ensures !step.Pops? ==> t.seconds == s.seconds
    ensures step.Pops? ==>
      && |t.seconds| == |s.seconds| + 1 && t.seconds[..|s.seconds|] == s.seconds
      && var e, g := t.seconds[|s.seconds|], s.tasks[step.task];
         && e.origin == g.origin && e.request.toolId == g.toolId
         && e.request.context == s.session.context
         && Tells(e.request.content, g.success, g.message)
         && t.tasks == Become(s.tasks, step.task, [SecondCall(e.request, e.origin)])
  {
  }

  lemma ToldStep(cfg: Config, s: State, t: State, step: Step)
    requires ResultsOk(s) && Enabled(s, step) && t == Apply(cfg, s, step)
    requires Bounded(t) && FramesRead(s) <= FramesRead(t)
    ensures forall e | e in t.seconds :: ToldBy(t, e)
  {
    PopsStep(cfg, s, t, step);
    forall e | e in t.seconds ensures ToldBy(t, e) {
      if e in s.seconds {
        var success, message :|
          Received(s, e.request.toolId, success, message, e.origin) && Tells(e.request.content, success, message);
        assert Received(t, e.request.toolId, success, message, e.origin);
      } else {
        var g := s.tasks[step.task];
        assert e == t.seconds[|s.seconds|];
        assert Received(s, g.toolId, g.success, g.message, g.origin);
        assert Received(t, g.toolId, g.success, g.message, g.origin);
      }
    }
  }

  /** Every handler and every second round, of a call or stray, comes from a result frame that
      has been read, and the second round is told what that frame says. */
  lemma {:induction false} RunTold(
    cfg: Config, pushed: Option<DeviceContext>, states: seq<State>, steps: seq<Step>, k: nat)
    requires IsRun(cfg, pushed, states, steps) && k < |states|
    ensures ResultsOk(states[k])
  {
    if k > 0 {
      RunTold(cfg, pushed, states, steps, k - 1);
      HandlersStep(cfg, states[k - 1], states[k], steps[k - 1]);
      ToldStep(cfg, states[k - 1], states[k], steps[k - 1]);
    }
  }

  // ---- from an execution to its result frame ----

  /** Step i executes this call, with this outcome. */
  predicate ExecutedAt(
    states: seq<State>, steps: seq<Step>, i: nat, ref: CallRef, success: bool, message: string)
    requires |states| == |steps| + 1 && i < |steps|
  {
    && steps[i].Executes? && steps[i].success == success && steps[i].message == message
    && steps[i].task < |states[i].tasks|
    && states[i].tasks[steps[i].task].Execute? && states[i].tasks[steps[i].task].ref == ref
  }

  ghost predicate WasExecuted(
    states: seq<State>, steps: seq<Step>, k: nat, ref: CallRef, success: bool, message: string)
    requires |states| == |steps| + 1 && k <= |steps|
  {
    exists i :: 0 <= i < k && ExecutedAt(states, steps, i, ref, success, message)
  }

  lemma WasExecutedGrows(
    states: seq<State>, steps: seq<Step>, k: nat, ref: CallRef, success: bool, message: string)
    requires |states| == |steps| + 1 && 0 < k <= |steps|
    ensures WasExecuted(states, steps, k, ref, success, message) <==>
      || WasExecuted(states, steps, k - 1, ref, success, message)
      || ExecutedAt(states, steps, k - 1, ref, success, message)
  {
  }

  /** The Server's frame for an execution carries its outcome and its call. */
  lemma SentDown(cfg: Config, s: State, t: State, step: Step)
    requires Enabled(s, step) && t == Apply(cfg, s, step)
    ensures t.down == s.down +
      match step
      case ClientSends(f) => [f]
      case Executes(i, success, message) =>
        [CommandResult(s.tasks[i].call.id, success, message, Some(s.tasks[i].ref))]
      case _ => []
  {
  }

  /** A result frame of the Server's own comes from the execution of its call. */
  lemma {:induction false} ResultsAreExecuted(
    cfg: Config, pushed: Option<DeviceContext>, states: seq<State>, steps: seq<Step>, k: nat, f: DownFrame)
    requires IsRun(cfg, pushed, states, steps) && k < |states|
    requires f in states[k].down && f.CommandResult? && f.origin.Some?
    ensures WasExecuted(states, steps, k, f.origin.value, f.success, f.message)
  {
    if k > 0 {
      var s := states[k - 1];
      SentDown(cfg, s, states[k], steps[k - 1]);
      WasExecutedGrows(states, steps, k, f.origin.value, f.success, f.message);
      if f in s.down {
        ResultsAreExecuted(cfg, pushed, states, steps, k - 1, f);
      }
    }
  }

  // ---- no call is executed twice ----

  /** Where an outcome is after its execution. */
  ghost predicate OnItsWay(s: State, ref: CallRef, success: bool, message: string) {
    exists i :: s.downRead <= i < |s.down| && s.down[i].CommandResult? && s.down[i].origin == Some(ref)
                && s.down[i].success == success && s.down[i].message == message
  }

  ghost predicate InHandler(s: State, ref: CallRef, success: bool, message: string) {
    exists i :: 0 <= i < |s.tasks| && s.tasks[i].HandleResult? && s.tasks[i].origin == Some(ref)
                && s.tasks[i].success == success && s.tasks[i].message == message
  }

  ghost predicate IsTold(s: State, ref: CallRef, success: bool, message: string) {
    exists i :: 0 <= i < |s.seconds| && s.seconds[i].origin == Some(ref)
                && Tells(s.seconds[i].request.content, success, message)
  }

  ghost predicate Carried(s: State, ref: CallRef, success: bool, message: string) {
    OnItsWay(s, ref, success, message) || InHandler(s, ref, success, message) || IsTold(s, ref, success, message)
  }

  lemma WayStep(cfg: Config, s: State, t: State, step: Step, ref: CallRef, success: bool, message: string)
    requires Enabled(s, step) && t == Apply(cfg, s, step) && OnItsWay(s, ref, success, message)
    ensures OnItsWay(t, ref, success, message) || InHandler(t, ref, success, message)
  {
    var i :| s.downRead <= i < |s.down| && s.down[i].CommandResult? && s.down[i].origin == Some(ref)
             && s.down[i].success == success && s.down[i].message == message;
    SentDown(cfg, s, t, step);
    SnapshotStep(cfg, s, t, step);
    assert t.down[i] == s.down[i];
    if step.WorkerReads? && i == s.downRead {
      assert t.tasks[|s.tasks|] == HandleResult(s.down[i].toolId, success, message, Some(ref));
    }
  }

  lemma HandlerStep(cfg: Config, s: State, t: State, step: Step, ref: CallRef, success: bool, message: string)
    requires Enabled(s, step) && t == Apply(cfg, s, step) && InHandler(s, ref, success, message)
    ensures InHandler(t, ref, success, message) || IsTold(t, ref, success, message)
  {
    var i :| 0 <= i < |s.tasks| && s.tasks[i].HandleResult? && s.tasks[i].origin == Some(ref)
             && s.tasks[i].success == success && s.tasks[i].message == message;
    PopsStep(cfg, s, t, step);
    TasksParts(cfg, s, t, step);
    if Acting(step) != i {
      TaskStays(s.tasks, t.tasks, Acting(step), Born(cfg, s, step), i);
    } else {
      assert step.Pops?;
      assert t.seconds[|s.seconds|].origin == Some(ref);
    }
  }

  /** A goroutine that does not act is still there. */
  lemma TaskStays(before: seq<Goroutine>, after: seq<Goroutine>, acting: int, born: seq<Goroutine>, i: nat)
    requires i < |before| && i != acting && acting < |before|
    requires after == if acting >= 0 then Become(before, acting, born) else before + born
    ensures before[i] in after
  {
    if acting < 0 || i < acting {
      assert after[i] == before[i];
    } else {
      assert after[i - 1 + |born|] == before[i];
    }
  }

  lemma CarriedStep(cfg: Config, s: State, t: State, step: Step, ref: CallRef, success: bool, message: string)
    requires Enabled(s, step) && t == Apply(cfg, s, step) && Carried(s, ref, success, message)
    ensures Carried(t, ref, success, message)
  {
    if OnItsWay(s, ref, success, message) {
      WayStep(cfg, s, t, step, ref, success, message);
    } else if InHandler(s, ref, success, message) {
      HandlerStep(cfg, s, t, step, ref, success, message);
    } else {
      var i :| 0 <= i < |s.seconds| && s.seconds[i].origin == Some(ref)
               && Tells(s.seconds[i].request.content, success, message);
      PopsStep(cfg, s, t, step);
      assert t.seconds[i] == s.seconds[i];
    }
  }

  /** An executed call's outcome is on its way back, with its handler, or told to its second
      round, in every later state. */
  lemma {:induction false} OutcomeIsCarried(
    cfg: Config, pushed: Option<DeviceContext>, states: seq<State>, steps: seq<Step>, k: nat, i: nat,
    ref: CallRef, success: bool, message: string)
    requires IsRun(cfg, pushed, states, steps) && i < k < |states|
    requires ExecutedAt(states, steps, i, ref, success, message)
    ensures Carried(states[k], ref, success, message)
    decreases k
  {
    if i < k - 1 {
      OutcomeIsCarried(cfg, pushed, states, steps, k - 1, i, ref, success, message);
      CarriedStep(cfg, states[k - 1], states[k], steps[k - 1], ref, success, message);
    } else {
      var s, t := states[i], states[k];
      SentDown(cfg, s, t, steps[i]);
      SnapshotStep(cfg, s, t, steps[i]);
      RunSound(cfg, pushed, states, steps, i);
      assert t.down[|s.down|].origin == Some(ref);
    }
  }

  /** Second rounds of calls are past. */
  ghost predicate SecondsPast(s: State) {
    forall i | 0 <= i < |s.seconds| && s.seconds[i].origin.Some? :: Pairing.PastAt(s, s.seconds[i].origin.value)
  }

  lemma {:induction false} RunSecondsPast(
    cfg: Config, pushed: Option<DeviceContext>, states: seq<State>, steps: seq<Step>, k: nat)
    requires IsRun(cfg, pushed, states, steps) && k < |states|
    ensures SecondsPast(states[k])
  {
    if k > 0 {
      var s, t, step := states[k - 1], states[k], steps[k - 1];
      RunSecondsPast(cfg, pushed, states, steps, k - 1);
      RunSound(cfg, pushed, states, steps, k - 1);
      PopsStep(cfg, s, t, step);
      forall i | 0 <= i < |t.seconds| && t.seconds[i].origin.Some?
        ensures Pairing.PastAt(t, t.seconds[i].origin.value)
      {
        if i < |s.seconds| { assert t.seconds[i] == s.seconds[i]; }
        Pairing.PastStep(cfg, s, t, step, t.seconds[i].origin.value);
      }
    }
  }

  lemma WayWeighs(s: State, ref: CallRef, success: bool, message: string)
    requires OnItsWay(s, ref, success, message)
    ensures Sum(InFlight(s.down, s.downRead), ResultFor(Is(ForCall(ref)))) >= 1
  {
    var i :| s.downRead <= i < |s.down| && s.down[i].CommandResult? && s.down[i].origin == Some(ref)
             && s.down[i].success == success && s.down[i].message == message;
    assert InFlight(s.down, s.downRead)[i - s.downRead] == s.down[i];
    SumAtLeast(InFlight(s.down, s.downRead), i - s.downRead, ResultFor(Is(ForCall(ref))));
  }

  lemma ExecutingWeighs(s: State, j: nat, ref: CallRef, success: bool, message: string)
    requires j < |s.tasks| && s.tasks[j].Execute? && s.tasks[j].ref == ref
    ensures Sum(s.tasks, HeldBy(Is(ForCall(ref)))) >= if InHandler(s, ref, success, message) then 2 else 1
  {
    var w := HeldBy(Is(ForCall(ref)));
    SumAtLeast(s.tasks, j, w);
    assert w(s.tasks[j]) == 1;
    if InHandler(s, ref, success, message) {
      var i :| 0 <= i < |s.tasks| && s.tasks[i].HandleResult? && s.tasks[i].origin == Some(ref)
               && s.tasks[i].success == success && s.tasks[i].message == message;
      SumAtLeastTwo(s.tasks, if i < j then i else j, if i < j then j else i, w);
    }
  }

  lemma ToldIsPast(s: State, ref: CallRef, success: bool, message: string)
    requires SecondsPast(s) && IsTold(s, ref, success, message)
    ensures Pairing.PastAt(s, ref)
  {
  }

  /** A call whose outcome is carried is not executing any more. */
  lemma CarriedIsOver(cfg: Config, s: State, j: nat, ref: CallRef, success: bool, message: string)
    requires Sound(cfg, s) && SecondsPast(s) && Carried(s, ref, success, message)
    requires j < |s.tasks|
    ensures !(s.tasks[j].Execute? && s.tasks[j].ref == ref)
  {
    assert Balanced(s, Is(ForCall(ref)));
    SlotsAreUnique(s.turns, ForCall(ref));
    if OnItsWay(s, ref, success, message) {
      WayWeighs(s, ref, success, message);
    }
    if IsTold(s, ref, success, message) {
      ToldIsPast(s, ref, success, message);
    }
    if s.tasks[j].Execute? && s.tasks[j].ref == ref {
      ExecutingWeighs(s, j, ref, success, message);
    }
  }

  /** No call is executed twice. */
  lemma ExecutedOnce(
    cfg: Config, pushed: Option<DeviceContext>, states: seq<State>, steps: seq<Step>, i: nat, j: nat,
    ref: CallRef, ok1: bool, m1: string, ok2: bool, m2: string)
    requires IsRun(cfg, pushed, states, steps) && i < |steps| && j < |steps|
    requires ExecutedAt(states, steps, i, ref, ok1, m1) && ExecutedAt(states, steps, j, ref, ok2, m2)
    ensures i == j
  {
    if i < j {
      NotTwice(cfg, pushed, states, steps, i, j, ref, ok1, m1);
    } else if j < i {
      NotTwice(cfg, pushed, states, steps, j, i, ref, ok2, m2);
    }
  }

  lemma NotTwice(
    cfg: Config, pushed: Option<DeviceContext>, states: seq<State>, steps: seq<Step>, i: nat, j: nat,
    ref: CallRef, success: bool, message: string)
    requires IsRun(cfg, pushed, states, steps) && i < j < |steps|
    requires ExecutedAt(states, steps, i, ref, success, message)
    ensures forall ok, m :: !ExecutedAt(states, steps, j, ref, ok, m)
  {
    OutcomeIsCarried(cfg, pushed, states, steps, j, i, ref, success, message);
    RunSound(cfg, pushed, states, steps, j);
    RunSecondsPast(cfg, pushed, states, steps, j);
    if steps[j].Executes? {
      CarriedIsOver(cfg, states[j], steps[j].task, ref, success, message);
    }
  }

  /** What a second round of a call is told: the call has been executed, exactly once, and the
      content is "执行失败: " and the message if it failed, the message if it succeeded with
      one, and "执行成功" if it succeeded without. */
  lemma SecondRoundIsTold(
    cfg: Config, pushed: Option<DeviceContext>, states: seq<State>, steps: seq<Step>, k: nat, n: nat)
    requires IsRun(cfg, pushed, states, steps) && k < |states|
    requires n < |states[k].seconds| && states[k].seconds[n].origin.Some?
    ensures var e := states[k].seconds[n];
      && (exists success, message :: WasExecuted(states, steps, k, e.origin.value, success, message))
      && forall success, message | WasExecuted(states, steps, |steps|, e.origin.value, success, message) ::
           && (!success ==> e.request.content == "执行失败: " + message)
           && (success && message != "" ==> e.request.content == message)
           && (success && message == "" ==> e.request.content == "执行成功")
  {
    var s, e := states[k], states[k].seconds[n];
    var ref := e.origin.value;
    RunTold(cfg, pushed, states, steps, k);
    assert ToldBy(s, e);
    var ok, m :| Received(s, e.request.toolId, ok, m, e.origin) && Tells(e.request.content, ok, m);
    ResultsAreExecuted(cfg, pushed, states, steps, k, CommandResult(e.request.toolId, ok, m, e.origin));
    var i :| 0 <= i < k && ExecutedAt(states, steps, i, ref, ok, m);
    forall success, message | WasExecuted(states, steps, |steps|, ref, success, message)
      ensures success == ok && message == m
    {
      var j :| 0 <= j < |steps| && ExecutedAt(states, steps, j, ref, success, message);
      ExecutedOnce(cfg, pushed, states, steps, i, j, ref, ok, m, success, message);
    }
  }

  /** Once nothing runs and nothing is in flight, every outcome has been told. */
  lemma EveryOutcomeIsTold(
    cfg: Config, pushed: Option<DeviceContext>, states: seq<State>, steps: seq<Step>, k: nat,
    ref: CallRef, success: bool, message: string)
    requires IsRun(cfg, pushed, states, steps) && k < |states| && Quiescent(states[k])
    requires WasExecuted(states, steps, k, ref, success, message)
    ensures IsTold(states[k], ref, success, message)
  {
    var i :| 0 <= i < k && ExecutedAt(states, steps, i, ref, success, message);
    OutcomeIsCarried(cfg, pushed, states, steps, k, i, ref, success, message);
  }

  // ---- the context of a second round ----

  /** Step i begins second round n. */
  ghost predicate BeginsAt(states: seq<State>, steps: seq<Step>, i: nat, n: nat, e: SecondRound)
    requires |states| == |steps| + 1 && i < |steps|
  {
    && steps[i].Pops? && |states[i].seconds| == n
    && steps[i].task < |states[i].tasks|
    && var g := states[i].tasks[steps[i].task];
       && g.HandleResult? && g.toolId == e.request.toolId && g.origin == e.origin
       && states[i].downRead <= |states[i].down|
       && e.request.context == ContextOf(states[i].down[..states[i].downRead])
       && states[i + 1].tasks == Become(states[i].tasks, steps[i].task, [SecondCall(e.request, e.origin)])
  }

  /** A second round is sent with the context of the last device_info that had been read and
      parsed when its handler began it, and its LLM call carries that request. */
  lemma {:induction false} SecondRoundSeesContext(
    cfg: Config, pushed: Option<DeviceContext>, states: seq<State>, steps: seq<Step>, k: nat, n: nat)
    requires IsRun(cfg, pushed, states, steps) && k < |states| && n < |states[k].seconds|
    ensures exists i :: 0 <= i < k && BeginsAt(states, steps, i, n, states[k].seconds[n])
    decreases k
  {
    if k > 0 {
      var s := states[k - 1];
      PopsStep(cfg, s, states[k], steps[k - 1]);
      if n < |s.seconds| {
        assert states[k].seconds[n] == s.seconds[n];
        SecondRoundSeesContext(cfg, pushed, states, steps, k - 1, n);
      } else {
        RunContexts(cfg, pushed, states, steps, k - 1);
        assert BeginsAt(states, steps, k - 1, n, states[k].seconds[n]);
      }
    }
  }

  // ---- the text of a first call ----

  ghost predicate CarryTexts(s: State) {
    forall g | g in s.tasks && g.FirstCall? :: g.turn < |s.turns| && s.turns[g.turn].text == g.text
  }

  lemma BornCalls(cfg: Config, s: State, t: State, step: Step)
    requires Enabled(s, step) && t == Apply(cfg, s, step)
    ensures |s.turns| <= |t.turns| && forall i | 0 <= i < |s.turns| :: t.turns[i].text == s.turns[i].text
    ensures forall g | g in Born(cfg, s, step) && g.FirstCall? :: g.turn < |t.turns| && t.turns[g.turn].text == g.text
  {
    TurnsStep(cfg, s, t, step);
  }

  /** A waiting first call asks with the text of its own turn. */
  lemma {:induction false} FirstCallsCarryTexts(
    cfg: Config, pushed: Option<DeviceContext>, states: seq<State>, steps: seq<Step>, k: nat)
    requires IsRun(cfg, pushed, states, steps) && k < |states|
    ensures CarryTexts(states[k])
  {
    if k > 0 {
      var s, t, step := states[k - 1], states[k], steps[k - 1];
      FirstCallsCarryTexts(cfg, pushed, states, steps, k - 1);
      BornCalls(cfg, s, t, step);
      TasksStep(cfg, s, t, step);
      forall g | g in t.tasks && g.FirstCall? ensures g.turn < |t.turns| && t.turns[g.turn].text == g.text {
        if g !in Born(cfg, s, step) {
          var n :| 0 <= n < |t.tasks| && t.tasks[n] == g;
          var j :| 0 <= j < |s.tasks| && j != Acting(step) && t.tasks[n] == s.tasks[j];
        }
      }
    }
  }

  // ---- replies and audio ----

  ghost predicate SaidAt(cfg: Config, states: seq<State>, steps: seq<Step>, i: nat, f: UpFrame)
    requires |states| == |steps| + 1 && i < |steps| && Enabled(states[i], steps[i])
  {
    f in Says(cfg, states[i], steps[i])
  }

  /** A frame has been written exactly if some step says it. */
  lemma {:induction false} WrittenIffSaid(
    cfg: Config, pushed: Option<DeviceContext>, states: seq<State>, steps: seq<Step>, k: nat, f: UpFrame)
    requires IsRun(cfg, pushed, states, steps) && k < |states|
    ensures f in states[k].session.written <==> exists i :: 0 <= i < k && SaidAt(cfg, states, steps, i, f)
  {
    if k > 0 {
      WrittenIffSaid(cfg, pushed, states, steps, k - 1, f);
      SaysStep(cfg, states[k - 1], states[k], steps[k - 1]);
      if f in Says(cfg, states[k - 1], steps[k - 1]) {
        assert SaidAt(cfg, states, steps, k - 1, f);
      }
    }
  }

  predicate HasSlot(f: UpFrame, x: Slot) {
    (f.LlmResult? || f.LlmError?) && f.slot == Some(x)
  }

  /** The reply of a turn's first round, if it has one. */
  predicate Answers(turns: seq<Turn>, turn: nat, f: UpFrame) {
    && turn < |turns| && turns[turn].answer.Some?
    && match turns[turn].answer.value
       case Failed(message) => f == LlmError(message, Some(FirstRound(turn)))
       case NoChoices => f == LlmResult("", Some(FirstRound(turn)))
       case Plain(text) => f == LlmResult(text, Some(FirstRound(turn)))
       case Calls(_) => false
  }

  lemma FirstSaid(cfg: Config, s: State, step: Step, turn: nat, f: UpFrame)
    requires Enabled(s, step)
    ensures HasSlot(f, FirstRound(turn)) && f in Says(cfg, s, step) <==>
      step.FirstAnswers? && s.tasks[step.task].turn == turn && f in FirstReply(turn, step.answer)
  {
  }

  lemma AnswersStep(cfg: Config, s: State, t: State, step: Step, turn: nat, f: UpFrame)
    requires Typed(cfg, s) && Enabled(s, step) && t == Apply(cfg, s, step)
    ensures Answers(t.turns, turn, f) <==>
      Answers(s.turns, turn, f) || (HasSlot(f, FirstRound(turn)) && f in Says(cfg, s, step))
  {
    TurnsStep(cfg, s, t, step);
    FirstSaid(cfg, s, step, turn, f);
    if step.FirstAnswers? {
      assert TaskOk(s.turns, s.session.written, s.tasks[step.task]);
    }
  }

  /** The first-round reply of a turn is in the trace exactly if the turn has been answered
      without calls, with the text or error of that answer. */
  lemma {:induction false} FirstReplyIff(
    cfg: Config, pushed: Option<DeviceContext>, states: seq<State>, steps: seq<Step>, k: nat, turn: nat, f: UpFrame)
    requires IsRun(cfg, pushed, states, steps) && k < |states|
    ensures HasSlot(f, FirstRound(turn)) && f in states[k].session.written <==> Answers(states[k].turns, turn, f)
  {
    if k > 0 {
      FirstReplyIff(cfg, pushed, states, steps, k - 1, turn, f);
      RunSound(cfg, pushed, states, steps, k - 1);
      SaysStep(cfg, states[k - 1], states[k], steps[k - 1]);
      AnswersStep(cfg, states[k - 1], states[k], steps[k - 1], turn, f);
    }
  }

  /** Step i answers the second round of this call with this frame. */
  predicate SecondAnswerAt(states: seq<State>, steps: seq<Step>, i: nat, ref: CallRef, f: UpFrame)
    requires |states| == |steps| + 1 && i < |steps|
  {
    && steps[i].SecondAnswers? && steps[i].task < |states[i].tasks|
    && states[i].tasks[steps[i].task].SecondCall? && states[i].tasks[steps[i].task].origin == Some(ref)
    && f == match steps[i].reply
            case Response(text) => LlmResult(text, Some(ForCall(ref)))
            case Failure(message) => LlmError(message, Some(ForCall(ref)))
  }

  lemma SecondSaid(cfg: Config, states: seq<State>, steps: seq<Step>, i: nat, ref: CallRef, f: UpFrame)
    requires |states| == |steps| + 1 && i < |steps| && Enabled(states[i], steps[i])
    ensures HasSlot(f, ForCall(ref)) && SaidAt(cfg, states, steps, i, f) <==> SecondAnswerAt(states, steps, i, ref, f)
  {
  }

  /** A reply to a call is in the trace exactly if its second round has been answered so. */
  lemma SecondReplyIff(
    cfg: Config, pushed: Option<DeviceContext>, states: seq<State>, steps: seq<Step>, k: nat, ref: CallRef, f: UpFrame)
    requires IsRun(cfg, pushed, states, steps) && k < |states|
    ensures HasSlot(f, ForCall(ref)) && f in states[k].session.written <==>
      exists i :: 0 <= i < k && SecondAnswerAt(states, steps, i, ref, f)
  {
    WrittenIffSaid(cfg, pushed, states, steps, k, f);
    forall i | 0 <= i < k
      ensures HasSlot(f, ForCall(ref)) && SaidAt(cfg, states, steps, i, f) <==> SecondAnswerAt(states, steps, i, ref, f)
    {
      SecondSaid(cfg, states, steps, i, ref, f);
    }
  }

  /** Step i ends the synthesis of the reply at this position. */
  predicate SpokenAt(states: seq<State>, steps: seq<Step>, i: nat, text: string, at: nat)
    requires |states| == |steps| + 1 && i < |steps|
  {
    steps[i].Speaks? && steps[i].task < |states[i].tasks| && states[i].tasks[steps[i].task] == Speak(text, at)
  }

  lemma AudioSaid(cfg: Config, states: seq<State>, steps: seq<Step>, i: nat, text: string, at: nat)
    requires |states| == |steps| + 1 && i < |steps| && Enabled(states[i], steps[i])
    ensures SaidAt(cfg, states, steps, i, TtsAudio(text, at)) <==>
      SpokenAt(states, steps, i, text, at) && steps[i].ok && cfg.tts && text != ""
  {
  }

  /** Audio is in the trace exactly if speech is configured, the text is not empty, and its
      synthesis has succeeded. */
  lemma AudioIff(
    cfg: Config, pushed: Option<DeviceContext>, states: seq<State>, steps: seq<Step>, k: nat, text: string, at: nat)
    requires IsRun(cfg, pushed, states, steps) && k < |states|
    ensures TtsAudio(text, at) in states[k].session.written <==>
      cfg.tts && text != "" && exists i :: 0 <= i < k && SpokenAt(states, steps, i, text, at) && steps[i].ok
  {
    WrittenIffSaid(cfg, pushed, states, steps, k, TtsAudio(text, at));
    forall i | 0 <= i < k
      ensures SaidAt(cfg, states, steps, i, TtsAudio(text, at)) <==>
        SpokenAt(states, steps, i, text, at) && steps[i].ok && cfg.tts && text != ""
    {
      AudioSaid(cfg, states, steps, i, text, at);
    }
  }

  ghost predicate SpokenOrWaiting(states: seq<State>, steps: seq<Step>, k: nat, text: string, at: nat)
    requires |states| == |steps| + 1 && k <= |steps|
  {
    Speak(text, at) in states[k].tasks || exists i :: 0 <= i < k && SpokenAt(states, steps, i, text, at)
  }

  /** A reply with a text is all its step says, and starts its own synthesis. */
  lemma SpeechSaid(cfg: Config, s: State, step: Step, n: nat)
    requires Enabled(s, step) && n < |Says(cfg, s, step)|
    requires Says(cfg, s, step)[n].LlmResult? && Says(cfg, s, step)[n].text != ""
    ensures n == 0 && Born(cfg, s, step) == [Speak(Says(cfg, s, step)[0].text, |s.session.written|)]
    ensures Acting(step) >= 0
  {
  }

  lemma ReplyStartsSpeech(cfg: Config, s: State, t: State, step: Step, at: nat)
    requires Enabled(s, step) && t == Apply(cfg, s, step)
    requires t.session.written == s.session.written + Says(cfg, s, step)
    requires |s.session.written| <= at < |t.session.written|
    requires t.session.written[at].LlmResult? && t.session.written[at].text != ""
    ensures Speak(t.session.written[at].text, at) in t.tasks
  {
    var n := at - |s.session.written|;
    assert t.session.written[at] == Says(cfg, s, step)[n];
    SpeechSaid(cfg, s, step, n);
    TasksParts(cfg, s, t, step);
    assert t.tasks[step.task] == Born(cfg, s, step)[0];
  }

  /** Every reply with a text is handed to speech synthesis. */
  lemma {:induction false} EveryReplyIsSpoken(
    cfg: Config, pushed: Option<DeviceContext>, states: seq<State>, steps: seq<Step>, k: nat, at: nat)
    requires IsRun(cfg, pushed, states, steps) && k < |states| && at < |states[k].session.written|
    requires states[k].session.written[at].LlmResult? && states[k].session.written[at].text != ""
    ensures SpokenOrWaiting(states, steps, k, states[k].session.written[at].text, at)
    decreases k
  {
    if k > 0 {
      var s, t, step := states[k - 1], states[k], steps[k - 1];
      var text := t.session.written[at].text;
      SaysStep(cfg, s, t, step);
      if at >= |s.session.written| {
        ReplyStartsSpeech(cfg, s, t, step, at);
      } else {
        EveryReplyIsSpoken(cfg, pushed, states, steps, k - 1, at);
        if Speak(text, at) in s.tasks {
          var j :| 0 <= j < |s.tasks| && s.tasks[j] == Speak(text, at);
          TasksParts(cfg, s, t, step);
          if j == Acting(step) {
            assert SpokenAt(states, steps, k - 1, text, at);
          } else {
            TaskStays(s.tasks, t.tasks, Acting(step), Born(cfg, s, step), j);
          }
        } else {
          var i :| 0 <= i < k - 1 && SpokenAt(states, steps, i, text, at);
          assert SpokenAt(states, steps, i, text, at);
        }
      }
    }
  }
}
