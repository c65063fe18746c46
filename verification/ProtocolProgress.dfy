// A session comes to rest: once the client sends nothing and the ASR service does nothing, every
// schedule of the remaining steps, with any answers of the LLM, is finite and ends quiescent,
// with all the ASR service has said read.
module ProtocolProgress {
  import opened Wire
  import opened Worker
  import opened Protocol
  import opened ProtocolAccounting
  import opened ProtocolSafety
  import opened Sums

  /** All steps of the Worker, the Server and their goroutines. */
  predicate Internal(step: Step) {
    !step.ClientSends? && !step.AsrConsumes?
  }

  // ---- work still to be done ----

  /** First rounds still to be answered, or to be started by a text or a final in flight.  An answer may
      bring any number of calls, so they are counted apart. */
  function FirstInTask(g: Goroutine): nat { if g.FirstCall? then 1 else 0 }

  function FirstInDown(f: DownFrame): nat { if f.TextInput? then 1 else 0 }

  function FirstInEvent(e: AsrEvent): nat { if e.Final? then 1 else 0 }

  function WorkInEvent(e: AsrEvent): nat { 3 }

  function WorkInTask(g: Goroutine): nat {
    match g
    case FirstCall(_, _, _) => 0
    case Emit(_, calls, next, remembered) =>
      if next < |calls| then 10 * (|calls| - next) - (if remembered then 1 else 0) else 0
    case Execute(_, _) => 7
    case HandleResult(_, _, _, _) => 5
    case SecondCall(_, _) => 4
    case Speak(_, _) => 2
  }

  function WorkInUp(f: UpFrame): nat { if f.DeviceCommand? then 8 else 1 }

  function WorkInDown(f: DownFrame): nat {
    match f
    case CommandResult(_, _, _, _) => 6
    case TextInput(_) => 3
    case Ping => 2
    case _ => 1
  }

  ghost function FirstTask(): Goroutine -> nat { g => FirstInTask(g) }
  ghost function FirstDown(): DownFrame -> nat { f => FirstInDown(f) }
  ghost function TaskWork(): Goroutine -> nat { g => WorkInTask(g) }
  ghost function FirstEvent(): AsrEvent -> nat { e => FirstInEvent(e) }
  ghost function EventWork(): AsrEvent -> nat { e => WorkInEvent(e) }
  ghost function UpWork(): UpFrame -> nat { f => WorkInUp(f) }
  ghost function DownWork(): DownFrame -> nat { f => WorkInDown(f) }

  ghost function FirstRounds(s: State): nat {
    Sum(s.tasks, FirstTask()) + Sum(InFlight(s.down, s.downRead), FirstDown())
    + Sum(InFlight(s.asrOut, s.asrOutRead), FirstEvent())
  }

  ghost function Work(s: State): nat {
    Sum(s.tasks, TaskWork()) + Sum(InFlight(s.down, s.downRead), DownWork())
    + Sum(InFlight(s.session.written, s.upRead), UpWork()) + Sum(InFlight(s.asrOut, s.asrOutRead), EventWork())
  }

  /** Lexicographic order on first rounds, then work. */
  ghost predicate Less(t: State, s: State) {
    FirstRounds(t) < FirstRounds(s) || (FirstRounds(t) == FirstRounds(s) && Work(t) < Work(s))
  }

  // ---- every internal step decreases it ----

  lemma BecomeSums(tasks: seq<Goroutine>, i: nat, next: seq<Goroutine>)
    requires i < |tasks| && |next| <= 1
    ensures var after := Become(tasks, i, next);
      && Sum(after, FirstTask()) + FirstInTask(tasks[i]) == Sum(tasks, FirstTask()) + OfNext(next, FirstTask())
      && Sum(after, TaskWork()) + WorkInTask(tasks[i]) == Sum(tasks, TaskWork()) + OfNext(next, TaskWork())
  {
    SumReplace(tasks, i, next, FirstTask());
    SumReplace(tasks, i, next, TaskWork());
    if next != [] {
      assert next == [next[0]];
      SumOne(next[0], FirstTask());
      SumOne(next[0], TaskWork());
    }
  }

  lemma SpawnSums(tasks: seq<Goroutine>, born: seq<Goroutine>)
    requires |born| <= 1
    ensures Sum(tasks + born, FirstTask()) == Sum(tasks, FirstTask()) + OfNext(born, FirstTask())
    ensures Sum(tasks + born, TaskWork()) == Sum(tasks, TaskWork()) + OfNext(born, TaskWork())
  {
    if born == [] {
      assert tasks + born == tasks;
    } else {
      assert born == [born[0]];
      SumAppend(tasks, born[0], FirstTask());
      SumAppend(tasks, born[0], TaskWork());
    }
  }

  /** At most two frames are written by one reading step. */
  lemma WritesSums(before: seq<UpFrame>, after: seq<UpFrame>, read: nat)
    requires read <= |before| && before <= after && |after| <= |before| + 2
    requires forall i | |before| <= i < |after| :: !after[i].DeviceCommand?
    ensures Sum(after[read..], UpWork()) == Sum(before[read..], UpWork()) + |after| - |before|
  {
    if |after| == |before| {
      assert after == before;
    } else {
      var one := after[..|before| + 1];
      assert one == before + [after[|before|]];
      SumEnqueue(before, read, after[|before|], UpWork());
      if |after| == |before| + 2 {
        assert after == one + [after[|before| + 1]];
        SumEnqueue(one, read, after[|before| + 1], UpWork());
      } else {
        assert after == one;
      }
    }
  }

  /** What a reaction of the Worker adds to the work. */
  lemma AbsorbSums(s: State, r: Reaction)
    requires Pointers(s) && |r.spawned| <= 1
    requires s.session.written <= r.session.written && |r.session.written| <= |s.session.written| + 2
    requires forall i | |s.session.written| <= i < |r.session.written| :: !r.session.written[i].DeviceCommand?
    ensures FirstRounds(Absorb(s, r)) == FirstRounds(s) + OfNext(r.spawned, FirstTask())
    ensures Work(Absorb(s, r)) ==
      Work(s) + OfNext(r.spawned, TaskWork()) + |r.session.written| - |s.session.written|
  {
    SpawnSums(s.tasks, r.spawned);
    WritesSums(s.session.written, r.session.written, s.upRead);
  }

  lemma DequeueDown(s: State)
    requires Pointers(s) && s.downRead < |s.down|
    ensures FirstRounds(s) == FirstRounds(s.(downRead := s.downRead + 1)) + FirstInDown(s.down[s.downRead])
    ensures Work(s) == Work(s.(downRead := s.downRead + 1)) + WorkInDown(s.down[s.downRead])
  {
    SumDequeue(s.down, s.downRead, FirstDown());
    SumDequeue(s.down, s.downRead, DownWork());
  }

  lemma DequeueAsr(s: State)
    requires Pointers(s) && s.asrOutRead < |s.asrOut|
    ensures FirstRounds(s) == FirstRounds(s.(asrOutRead := s.asrOutRead + 1)) + FirstInEvent(s.asrOut[s.asrOutRead])
    ensures Work(s) == Work(s.(asrOutRead := s.asrOutRead + 1)) + WorkInEvent(s.asrOut[s.asrOutRead])
  {
    SumDequeue(s.asrOut, s.asrOutRead, FirstEvent());
    SumDequeue(s.asrOut, s.asrOutRead, EventWork());
  }

  /** A reaction costs less than the frame it answers. */
  lemma ReactionIsLight(cfg: Config, s: Session, f: DownFrame, turn: nat)
    ensures var r := React(cfg, s, f, turn);
      && |r.spawned| <= 1
      && s.written <= r.session.written && |r.session.written| <= |s.written| + 2
      && (forall i | |s.written| <= i < |r.session.written| :: !r.session.written[i].DeviceCommand?)
      && OfNext(r.spawned, FirstTask()) <= FirstInDown(f)
      && OfNext(r.spawned, TaskWork()) + |r.session.written| - |s.written| < WorkInDown(f)
  {
  }

  lemma ReadDecreases(cfg: Config, s: State)
    requires Pointers(s) && Enabled(s, WorkerReads)
    ensures Less(WorkerRead(cfg, s), s)
  {
    var f := s.down[s.downRead];
    var r := React(cfg, s.session, f, |s.turns|);
    DequeueDown(s);
    var s1 := s.(downRead := s.downRead + 1);
    ReactionIsLight(cfg, s.session, f, |s.turns|);
    AbsorbSums(s1, r);
    assert WorkerRead(cfg, s) == Absorb(s1, r);
  }

  lemma ReadAsrDecreases(cfg: Config, s: State)
    requires Pointers(s) && Enabled(s, WorkerReadsAsr)
    ensures Less(WorkerReadAsr(cfg, s), s)
  {
    var r := ReactToAsr(cfg, s.session, s.asrOut[s.asrOutRead], |s.turns|);
    DequeueAsr(s);
    var s1 := s.(asrOutRead := s.asrOutRead + 1);
    AbsorbSums(s1, r);
    assert WorkerReadAsr(cfg, s) == Absorb(s1, r);
  }

  lemma DequeueUp(s: State)
    requires Pointers(s) && s.upRead < |s.session.written|
    ensures FirstRounds(s) == FirstRounds(s.(upRead := s.upRead + 1))
    ensures Work(s) == Work(s.(upRead := s.upRead + 1)) + WorkInUp(s.session.written[s.upRead])
  {
    SumDequeue(s.session.written, s.upRead, UpWork());
  }

  /** A new goroutine, or a frame passed on to the client. */
  lemma SpawnWork(s: State, born: seq<Goroutine>, client: seq<UpFrame>)
    requires |born| <= 1
    ensures var t := s.(tasks := s.tasks + born, client := client);
      && FirstRounds(t) == FirstRounds(s) + OfNext(born, FirstTask())
      && Work(t) == Work(s) + OfNext(born, TaskWork())
  {
    SpawnSums(s.tasks, born);
  }

  lemma PassDecreases(s: State)
    requires Pointers(s) && Enabled(s, ServerReads)
    ensures Less(ServerRead(s), s)
  {
    var f := s.session.written[s.upRead];
    var born := if f.DeviceCommand? then [Execute(f.call, f.ref)] else [];
    DequeueUp(s);
    SpawnWork(s.(upRead := s.upRead + 1), born, ServerRead(s).client);
    assert s.tasks + [] == s.tasks;
  }

  lemma FinishSums(s: State, i: nat, f: UpFrame, next: seq<Goroutine>)
    requires Pointers(s) && i < |s.tasks| && |next| <= 1 && !f.DeviceCommand?
    ensures var t := Finish(s, i, f, next);
      && FirstRounds(t) + FirstInTask(s.tasks[i]) == FirstRounds(s) + OfNext(next, FirstTask())
      && Work(t) + WorkInTask(s.tasks[i]) == Work(s) + OfNext(next, TaskWork()) + 1
  {
    BecomeSums(s.tasks, i, next);
    SumEnqueue(s.session.written, s.upRead, f, UpWork());
  }

  lemma FirstDecreases(s: State, i: nat, a: FirstAnswer)
    requires Pointers(s) && Enabled(s, FirstAnswers(i, a))
    ensures Less(ApplyFirst(s, i, a), s)
  {
    var turn := s.tasks[i].turn;
    var slot := Some(FirstRound(turn));
    var s1 := s.(turns := s.turns[turn := s.turns[turn].(answer := Some(a))]);
    match a
    case Failed(m) => FinishSums(s1, i, LlmError(m, slot), []);
    case NoChoices => FinishSums(s1, i, LlmResult("", slot), []);
    case Plain(text) => FinishSums(s1, i, LlmResult(text, slot), [Speak(text, |s.session.written|)]);
    case Calls(calls) => BecomeSums(s.tasks, i, [Emit(turn, calls, 0, false)]);
  }

  lemma RememberDecreases(s: State, i: nat)
    requires Enabled(s, Remembers(i))
    ensures Less(RememberOne(s, i), s)
  {
    BecomeSums(s.tasks, i, [s.tasks[i].(remembered := true)]);
  }

  lemma SendDecreases(cfg: Config, s: State, i: nat)
    requires Pointers(s) && Enabled(s, Sends(i))
    ensures Less(SendOne(cfg, s, i), s)
  {
    var g := s.tasks[i];
    BecomeSums(s.tasks, i, AfterSend(g));
    if cfg.validJson(g.calls[g.next].arguments) {
      SumEnqueue(s.session.written, s.upRead, DeviceCommand(g.calls[g.next], CallRef(g.turn, g.next)), UpWork());
    }
  }

  lemma ExecuteDecreases(s: State, i: nat, success: bool, message: string)
    requires Pointers(s) && Enabled(s, Executes(i, success, message))
    ensures Less(ExecuteOne(s, i, success, message), s)
  {
    var g := s.tasks[i];
    var f := CommandResult(g.call.id, success, message, Some(g.ref));
    BecomeSums(s.tasks, i, []);
    SumEnqueue(s.down, s.downRead, f, FirstDown());
    SumEnqueue(s.down, s.downRead, f, DownWork());
  }

  lemma PopDecreases(s: State, i: nat)
    requires Enabled(s, Pops(i))
    ensures Less(PopOne(s, i), s)
  {
    var g := s.tasks[i];
    BecomeSums(s.tasks, i, [SecondCall(PopForRequest(s.session, g.toolId, g.success, g.message).1, g.origin)]);
  }

  /** A frame written in the end of a goroutine that was worth more. */
  lemma FinishDecreases(s: State, i: nat, f: UpFrame, next: seq<Goroutine>)
    requires Pointers(s) && i < |s.tasks| && |next| <= 1 && !f.DeviceCommand? && !s.tasks[i].FirstCall?
    requires OfNext(next, FirstTask()) == 0 && OfNext(next, TaskWork()) + 1 < WorkInTask(s.tasks[i])
    ensures Less(Finish(s, i, f, next), s)
  {
    FinishSums(s, i, f, next);
  }

  lemma SecondDecreases(s: State, i: nat, reply: Answer<string>)
    requires Pointers(s) && Enabled(s, SecondAnswers(i, reply))
    ensures Less(AnswerSecond(s, i, reply), s)
  {
    var slot := SlotOf(s.tasks[i].origin);
    match reply
    case Failure(m) => FinishDecreases(s, i, LlmError(m, slot), []);
    case Response(text) => FinishDecreases(s, i, LlmResult(text, slot), [Speak(text, |s.session.written|)]);
  }

  lemma SpeakDecreases(cfg: Config, s: State, i: nat, ok: bool)
    requires Pointers(s) && Enabled(s, Speaks(i, ok))
    ensures Less(SpeakOne(cfg, s, i, ok), s)
  {
    var g := s.tasks[i];
    BecomeSums(s.tasks, i, []);
    FinishSums(s, i, TtsAudio(g.text, g.speaks), []);
  }

  /** Whatever the LLM answers and whatever is scheduled, an internal step makes progress. */
  lemma InternalStepsProgress(cfg: Config, s: State, t: State, step: Step)
    requires Pointers(s) && Enabled(s, step) && Internal(step) && t == Apply(cfg, s, step)
    ensures Less(t, s)
  {
    match step
    case WorkerReads => ReadDecreases(cfg, s);
    case WorkerReadsAsr => ReadAsrDecreases(cfg, s);
    case ServerReads => PassDecreases(s);
    case FirstAnswers(i, a) => FirstDecreases(s, i, a);
    case Remembers(i) => RememberDecreases(s, i);
    case Sends(i) => SendDecreases(cfg, s, i);
    case Executes(i, success, message) => ExecuteDecreases(s, i, success, message);
    case Pops(i) => PopDecreases(s, i);
    case SecondAnswers(i, reply) => SecondDecreases(s, i, reply);
    case Speaks(i, ok) => SpeakDecreases(cfg, s, i, ok);
  }

  // ---- and one is enabled unless the session is at rest ----

  /** Nothing running, nothing in flight, and nothing of the ASR service unread. */
  predicate AtRest(s: State) {
    Quiescent(s) && s.asrOutRead == |s.asrOut|
  }

  /** A step the goroutine in front can take, with any answer it may wait for. */
  function NextStep(s: State, answer: FirstAnswer, reply: Answer<string>, success: bool, message: string): Step
    requires s.tasks != []
  {
    match s.tasks[0]
    case FirstCall(_, _, _) => FirstAnswers(0, answer)
    case Emit(_, _, _, remembered) => if remembered then Sends(0) else Remembers(0)
    case Execute(_, _) => Executes(0, success, message)
    case HandleResult(_, _, _, _) => Pops(0)
    case SecondCall(_, _) => SecondAnswers(0, reply)
    case Speak(_, _) => Speaks(0, success)
  }

  lemma NotAtRestCanStep(cfg: Config, s: State, answer: FirstAnswer, reply: Answer<string>) returns (step: Step)
    requires Typed(cfg, s) && !AtRest(s) && (answer.Calls? ==> answer.calls != [])
    ensures Enabled(s, step) && Internal(step)
  {
    if s.upRead < |s.session.written| {
      step := ServerReads;
    } else if s.downRead < |s.down| {
      step := WorkerReads;
    } else if s.asrOutRead < |s.asrOut| {
      step := WorkerReadsAsr;
    } else {
      assert TaskOk(s.turns, s.session.written, s.tasks[0]);
      step := NextStep(s, answer, reply, true, "");
    }
  }

  /** From every reachable state the session can come to rest by internal steps alone, whatever
      the LLM keeps answering; with the lemma above, it cannot avoid it. */
  lemma {:induction false} ComesToRest(
    cfg: Config, pushed: Option<DeviceContext>, states: seq<State>, steps: seq<Step>,
    answer: FirstAnswer, reply: Answer<string>)
    returns (longer: seq<State>, more: seq<Step>)
    requires IsRun(cfg, pushed, states, steps) && (answer.Calls? ==> answer.calls != [])
    ensures IsRun(cfg, pushed, longer, more) && states <= longer && steps <= more
    ensures forall i | |steps| <= i < |more| :: Internal(more[i])
    ensures AtRest(longer[|more|])
    decreases FirstRounds(states[|steps|]), Work(states[|steps|])
  {
    var s := states[|steps|];
    if AtRest(s) {
      return states, steps;
    }
    RunSound(cfg, pushed, states, steps, |steps|);
    var step := NotAtRestCanStep(cfg, s, answer, reply);
    var t := Apply(cfg, s, step);
    InternalStepsProgress(cfg, s, t, step);
    var states1, steps1 := states + [t], steps + [step];
    assert IsRun(cfg, pushed, states1, steps1);
    longer, more := ComesToRest(cfg, pushed, states1, steps1, answer, reply);
    assert more[|steps|] == steps1[|steps|] == step;
  }
}
