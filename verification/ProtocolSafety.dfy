// Invariants of every reachable state of a voice session, and what follows from them:
// each slot is in exactly one place, every reply is accounted for, the pending map holds
// exactly the outstanding calls, and every second round replays its own first round.
module ProtocolSafety {
  import opened Wire
  import opened Worker
  import opened Protocol
  import opened ProtocolAccounting
  import opened Sums

  // ---- how many slots there are ----

  lemma {:induction false} RangeOfSlot(x: Slot, turn: nat, from: nat, to: nat)
    ensures Range(Is(x), turn, from, to) == Bit(x.ForCall? && x.ref.turn == turn && from <= x.ref.index < to)
    decreases if from < to then to - from else 0
  {
    if from < to {
      RangeOfSlot(x, turn, from + 1, to);
    }
  }

  predicate SlotExists(turns: seq<Turn>, x: Slot) {
    match x
    case FirstRound(t) => t < |turns| && !(turns[t].answer.Some? && turns[t].answer.value.Calls?)
    case ForCall(ref) => ValidRef(turns, ref)
  }

  lemma {:induction false} SlotsAreUnique(turns: seq<Turn>, x: Slot)
    ensures AllSlots(Is(x), turns) == Bit(SlotExists(turns, x))
    decreases |turns|
  {
    if turns != [] {
      var n := |turns| - 1;
      SlotsAreUnique(turns[..n], x);
      if turns[n].answer.Some? && turns[n].answer.value.Calls? {
        RangeOfSlot(x, n, 0, |turns[n].answer.value.calls|);
      }
    }
  }

  // ---- the structural invariant ----

  /** A result with an origin carries the id of the call it comes from. */
  predicate OriginOk(turns: seq<Turn>, origin: Option<CallRef>, id: string) {
    origin.Some? ==> ValidRef(turns, origin.value) && CallOf(turns, origin.value).id == id
  }

  ghost predicate TaskOk(turns: seq<Turn>, written: seq<UpFrame>, g: Goroutine) {
    match g
    case FirstCall(turn, _, _) => turn < |turns| && turns[turn].answer.None?
    case Emit(turn, calls, next, _) =>
      ValidRef(turns, CallRef(turn, next)) && turns[turn].answer.value.calls == calls
    case HandleResult(id, _, _, origin) => OriginOk(turns, origin, id)
    case SecondCall(_, origin) => origin.Some? ==> ValidRef(turns, origin.value)
    case Execute(call, ref) => ValidRef(turns, ref) && CallOf(turns, ref) == call
    case Speak(text, at) => at < |written| && written[at].LlmResult? && written[at].text == text
  }

  ghost predicate UpOk(turns: seq<Turn>, written: seq<UpFrame>, i: nat)
    requires i < |written|
  {
    match written[i]
    case DeviceCommand(call, ref) => ValidRef(turns, ref) && CallOf(turns, ref) == call
    case TtsAudio(text, at) => at < i && written[at].LlmResult? && written[at].text == text && text != ""
    case _ => true
  }

  ghost predicate DownOk(turns: seq<Turn>, f: DownFrame) {
    f.CommandResult? ==> OriginOk(turns, f.origin, f.toolId)
  }

  ghost predicate Typed(cfg: Config, s: State) {
    && Pointers(s)
    && (forall i | 0 <= i < |s.tasks| :: TaskOk(s.turns, s.session.written, s.tasks[i]))
    && (forall i | 0 <= i < |s.session.written| :: UpOk(s.turns, s.session.written, i))
    && (forall i | 0 <= i < |s.down| :: DownOk(s.turns, s.down[i]))
    && (forall i | 0 <= i < |s.leaked| ::
          ValidRef(s.turns, s.leaked[i]) && !cfg.validJson(CallOf(s.turns, s.leaked[i]).arguments))
  }

  ghost predicate Conserved(s: State) {
    forall x: Slot :: Balanced(s, Is(x))
  }

  ghost predicate Extends(before: seq<Turn>, after: seq<Turn>) {
    && |before| <= |after|
    && forall i | 0 <= i < |before| && before[i].answer.Some? :: after[i] == before[i]
  }

  /** Two goroutines never wait for the same first answer. */
  lemma FirstCallsDiffer(s: State, i: nat, j: nat)
    requires Conserved(s) && i < |s.tasks| && j < |s.tasks| && i != j
    requires s.tasks[i].FirstCall? && s.tasks[j].FirstCall?
    ensures s.tasks[i].turn != s.tasks[j].turn
  {
    if s.tasks[i].turn == s.tasks[j].turn {
      var x := FirstRound(s.tasks[i].turn);
      assert Balanced(s, Is(x));
      SlotsAreUnique(s.turns, x);
      SumAtLeastTwo(s.tasks, if i < j then i else j, if i < j then j else i, PlannedBy(Is(x)));
    }
  }

  /** Facts about goroutines and frames survive when turns and the written trace grow. */
  lemma TypedGrows(cfg: Config, s: State, turns: seq<Turn>, written: seq<UpFrame>)
    requires Typed(cfg, s) && Extends(s.turns, turns) && s.session.written <= written
    ensures forall i | 0 <= i < |s.tasks| && !s.tasks[i].FirstCall? :: TaskOk(turns, written, s.tasks[i])
    ensures forall i | 0 <= i < |s.session.written| :: UpOk(turns, written, i)
    ensures forall i | 0 <= i < |s.down| :: DownOk(turns, s.down[i])
    ensures forall i | 0 <= i < |s.leaked| ::
      ValidRef(turns, s.leaked[i]) && !cfg.validJson(CallOf(turns, s.leaked[i]).arguments)
  {
    forall i | 0 <= i < |s.session.written| ensures UpOk(turns, written, i) {
      assert UpOk(s.turns, s.session.written, i);
    }
    forall i | 0 <= i < |s.down| ensures DownOk(turns, s.down[i]) {
      assert DownOk(s.turns, s.down[i]);
    }
  }

  lemma TurnsExtend(cfg: Config, s: State, t: State, step: Step)
    requires Typed(cfg, s) && Enabled(s, step) && t == Apply(cfg, s, step)
    ensures Extends(s.turns, t.turns)
  {
    TurnsStep(cfg, s, t, step);
    if step.FirstAnswers? {
      assert TaskOk(s.turns, s.session.written, s.tasks[step.task]);
    }
  }

  /** The goroutines after a step: old ones that did not act, and at most one new one. */
  ghost predicate NextTasks(before: seq<Goroutine>, after: seq<Goroutine>, acting: int, born: seq<Goroutine>) {
    forall k | 0 <= k < |after| ::
      after[k] in born || exists j :: 0 <= j < |before| && j != acting && after[k] == before[j]
  }

  lemma BecomeTasks(tasks: seq<Goroutine>, i: nat, next: seq<Goroutine>)
    requires i < |tasks|
    ensures NextTasks(tasks, Become(tasks, i, next), i, next)
  {
    var after := Become(tasks, i, next);
    forall k | 0 <= k < |after|
      ensures after[k] in next || exists j :: 0 <= j < |tasks| && j != i && after[k] == tasks[j]
    {
      if k < i {
        assert after[k] == tasks[k];
      } else if k < i + |next| {
        assert after[k] == next[k - i];
      } else {
        assert after[k] == tasks[k - |next| + 1];
      }
    }
  }

  lemma SpawnTasks(tasks: seq<Goroutine>, born: seq<Goroutine>)
    ensures NextTasks(tasks, tasks + born, -1, born)
  {
    forall k | 0 <= k < |tasks + born|
      ensures (tasks + born)[k] in born || exists j :: 0 <= j < |tasks| && j != -1 && (tasks + born)[k] == tasks[j]
    {
      if k < |tasks| { assert (tasks + born)[k] == tasks[k]; } else { assert (tasks + born)[k] == born[k - |tasks|]; }
    }
  }

  function Acting(step: Step): int {
    match step
    case FirstAnswers(i, _) => i
    case Remembers(i) => i
    case Sends(i) => i
    case Executes(i, _, _) => i
    case Pops(i) => i
    case SecondAnswers(i, _) => i
    case Speaks(i, _) => i
    case _ => -1
  }

  /** The goroutine a step starts or continues as. */
  ghost function Born(cfg: Config, s: State, step: Step): seq<Goroutine>
    requires Enabled(s, step)
  {
    match step
    case WorkerReads => React(cfg, s.session, s.down[s.downRead], |s.turns|).spawned
    case WorkerReadsAsr => ReactToAsr(cfg, s.session, s.asrOut[s.asrOutRead], |s.turns|).spawned
    case ServerReads =>
      var f := s.session.written[s.upRead];
      if f.DeviceCommand? then [Execute(f.call, f.ref)] else []
    case FirstAnswers(i, a) =>
      (match a
       case Plain(text) => [Speak(text, |s.session.written|)]
       case Calls(calls) => [Emit(s.tasks[i].turn, calls, 0, false)]
       case _ => [])
    case Remembers(i) => [s.tasks[i].(remembered := true)]
    case Sends(i) => AfterSend(s.tasks[i])
    case Pops(i) =>
      var g := s.tasks[i];
      [SecondCall(PopForRequest(s.session, g.toolId, g.success, g.message).1, g.origin)]
    case SecondAnswers(i, reply) => if reply.Response? then [Speak(reply.value, |s.session.written|)] else []
    case _ => []
  }

  lemma TasksParts(cfg: Config, s: State, t: State, step: Step)
    requires Enabled(s, step) && t == Apply(cfg, s, step)
    ensures t.tasks ==
      if Acting(step) >= 0 then Become(s.tasks, step.task, Born(cfg, s, step)) else s.tasks + Born(cfg, s, step)
  {
    if Acting(step) < 0 {
      assert s.tasks + [] == s.tasks;
    }
  }

  lemma TasksStep(cfg: Config, s: State, t: State, step: Step)
    requires Enabled(s, step) && t == Apply(cfg, s, step)
    ensures NextTasks(s.tasks, t.tasks, Acting(step), Born(cfg, s, step))
  {
    TasksParts(cfg, s, t, step);
    if Acting(step) >= 0 {
      BecomeTasks(s.tasks, step.task, Born(cfg, s, step));
    } else {
      SpawnTasks(s.tasks, Born(cfg, s, step));
    }
  }

  /** The written trace only grows, by frames that fit. */
  lemma WrittenStep(cfg: Config, s: State, t: State, step: Step)
    requires Typed(cfg, s) && Enabled(s, step) && t == Apply(cfg, s, step)
    ensures s.session.written <= t.session.written
    ensures forall i | |s.session.written| <= i < |t.session.written| :: UpOk(t.turns, t.session.written, i)
  {
    TurnsStep(cfg, s, t, step);
    if Acting(step) >= 0 {
      assert TaskOk(s.turns, s.session.written, s.tasks[step.task]);
    }
  }

  lemma DownStep(cfg: Config, s: State, t: State, step: Step)
    requires Typed(cfg, s) && Enabled(s, step) && t == Apply(cfg, s, step)
    ensures s.down <= t.down
    ensures forall i | |s.down| <= i < |t.down| :: DownOk(t.turns, t.down[i])
  {
    TurnsStep(cfg, s, t, step);
    if step.Executes? {
      assert TaskOk(s.turns, s.session.written, s.tasks[step.task]);
    }
  }

  lemma BornOk(cfg: Config, s: State, t: State, step: Step)
    requires Typed(cfg, s) && Enabled(s, step) && t == Apply(cfg, s, step)
    ensures forall g | g in Born(cfg, s, step) :: TaskOk(t.turns, t.session.written, g)
  {
    TurnsStep(cfg, s, t, step);
    if Acting(step) >= 0 {
      assert TaskOk(s.turns, s.session.written, s.tasks[step.task]);
    }
    match step
    case WorkerReads => assert DownOk(s.turns, s.down[s.downRead]);
    case ServerReads => assert UpOk(s.turns, s.session.written, s.upRead);
    case _ =>
  }

  lemma TasksOk(cfg: Config, s: State, t: State, step: Step)
    requires Typed(cfg, s) && Conserved(s) && Enabled(s, step) && t == Apply(cfg, s, step)
    requires Extends(s.turns, t.turns) && s.session.written <= t.session.written
    requires forall g | g in Born(cfg, s, step) :: TaskOk(t.turns, t.session.written, g)
    ensures forall k | 0 <= k < |t.tasks| :: TaskOk(t.turns, t.session.written, t.tasks[k])
  {
    TasksStep(cfg, s, t, step);
    TypedGrows(cfg, s, t.turns, t.session.written);
    TurnsStep(cfg, s, t, step);
    forall k | 0 <= k < |t.tasks| ensures TaskOk(t.turns, t.session.written, t.tasks[k]) {
      var g := t.tasks[k];
      if g !in Born(cfg, s, step) {
        var j :| 0 <= j < |s.tasks| && j != Acting(step) && g == s.tasks[j];
        assert TaskOk(s.turns, s.session.written, s.tasks[j]);
        if g.FirstCall? && step.FirstAnswers? {
          FirstCallsDiffer(s, step.task, j);
        }
      }
    }
  }

  lemma LeaksOk(cfg: Config, s: State, t: State, step: Step)
    requires Typed(cfg, s) && Enabled(s, step) && t == Apply(cfg, s, step) && Extends(s.turns, t.turns)
    ensures forall i | 0 <= i < |t.leaked| ::
      ValidRef(t.turns, t.leaked[i]) && !cfg.validJson(CallOf(t.turns, t.leaked[i]).arguments)
  {
    TypedGrows(cfg, s, t.turns, s.session.written);
    if step.Sends? {
      assert TaskOk(s.turns, s.session.written, s.tasks[step.task]);
    }
  }

  lemma TypedStep(cfg: Config, s: State, t: State, step: Step)
    requires Typed(cfg, s) && Conserved(s) && Enabled(s, step) && t == Apply(cfg, s, step)
    ensures Typed(cfg, t)
  {
    TurnsExtend(cfg, s, t, step);
    WrittenStep(cfg, s, t, step);
    DownStep(cfg, s, t, step);
    TypedGrows(cfg, s, t.turns, t.session.written);
    BornOk(cfg, s, t, step);
    TasksOk(cfg, s, t, step);
    LeaksOk(cfg, s, t, step);
    PointersStep(cfg, s, t, step);
  }

  lemma PointersStep(cfg: Config, s: State, t: State, step: Step)
    requires Pointers(s) && Enabled(s, step) && t == Apply(cfg, s, step)
    ensures Pointers(t)
  {
  }

  lemma TypedWaiting(cfg: Config, s: State)
    requires Typed(cfg, s)
    ensures Waiting(s)
  {
    forall i | 0 <= i < |s.tasks| && s.tasks[i].FirstCall?
      ensures s.tasks[i].turn < |s.turns| && s.turns[s.tasks[i].turn].answer.None?
    {
      assert TaskOk(s.turns, s.session.written, s.tasks[i]);
    }
  }

  lemma BalancedNext(cfg: Config, s: State, t: State, step: Step, P: Query)
    requires Typed(cfg, s) && Balanced(s, P) && Enabled(s, step) && t == Apply(cfg, s, step)
    ensures Balanced(t, P)
  {
    TypedWaiting(cfg, s);
    BalancedStep(cfg, s, t, step, P);
  }

  lemma ConservedStep(cfg: Config, s: State, t: State, step: Step)
    requires Typed(cfg, s) && Conserved(s) && Enabled(s, step) && t == Apply(cfg, s, step)
    ensures Conserved(t)
  {
    forall x: Slot ensures Balanced(t, Is(x)) {
      assert Balanced(s, Is(x));
      BalancedNext(cfg, s, t, step, Is(x));
    }
  }

  lemma InitBalanced(pushed: Option<DeviceContext>, P: Query)
    ensures Balanced(Init(pushed), P)
  {
    if pushed.Some? {
      SumOne(DeviceInfo(pushed), ResultFor(P));
    }
  }

  ghost predicate Sound(cfg: Config, s: State) {
    Typed(cfg, s) && Conserved(s)
  }

  /** Every reachable state is well typed and conserves every slot. */
  lemma {:induction false} RunSound(
    cfg: Config, pushed: Option<DeviceContext>, states: seq<State>, steps: seq<Step>, k: nat)
    requires IsRun(cfg, pushed, states, steps) && k < |states|
    ensures Sound(cfg, states[k])
  {
    if k == 0 {
      forall x: Slot ensures Balanced(states[0], Is(x)) {
        InitBalanced(pushed, Is(x));
      }
    } else {
      RunSound(cfg, pushed, states, steps, k - 1);
      TypedStep(cfg, states[k - 1], states[k], steps[k - 1]);
      ConservedStep(cfg, states[k - 1], states[k], steps[k - 1]);
    }
  }

  // ---- main results: conservation and reply accounting ----

  /** In every reachable state, every slot is in exactly one place. */
  lemma EverySlotInExactlyOnePlace(
    cfg: Config, pushed: Option<DeviceContext>, states: seq<State>, steps: seq<Step>, k: nat, x: Slot)
    requires IsRun(cfg, pushed, states, steps) && k < |states|
    ensures var s := states[k];
      Planned(s, Is(x)) + Held(s, Is(x)) + Answering(s, Is(x)) + Replied(s, Is(x)) == Bit(SlotExists(s.turns, x))
  {
    RunSound(cfg, pushed, states, steps, k);
    assert Balanced(states[k], Is(x));
    SlotsAreUnique(states[k].turns, x);
  }

  /** Replies a turn is worth: one while unanswered or answered directly, else one per call. */
  function Worth(turn: Turn): nat {
    if turn.answer.Some? && turn.answer.value.Calls? then
      (if |turn.answer.value.calls| > 1 then |turn.answer.value.calls| else 1)
    else 1
  }

  function TotalWorth(turns: seq<Turn>): nat {
    if turns == [] then 0 else TotalWorth(turns[..|turns| - 1]) + Worth(turns[|turns| - 1])
  }

  lemma {:induction false} RangeOfTurn(t: nat, turn: nat, from: nat, to: nat)
    requires from <= to
    ensures Range(OfTurn(t), turn, from, to) == if t == turn then to - from else 0
    ensures Range(Any(), turn, from, to) == to - from
    decreases if from < to then to - from else 0
  {
    if from < to {
      RangeOfTurn(t, turn, from + 1, to);
    }
  }

  /** No turn of a run is answered with an empty list of calls. */
  ghost predicate NonEmptyCalls(turns: seq<Turn>) {
    forall t | 0 <= t < |turns| && turns[t].answer.Some? && turns[t].answer.value.Calls? ::
      turns[t].answer.value.calls != []
  }

  lemma {:induction false} SlotsOfTurn(turns: seq<Turn>, t: nat)
    requires NonEmptyCalls(turns)
    ensures AllSlots(OfTurn(t), turns) == if t < |turns| then Worth(turns[t]) else 0
    ensures AllSlots(Any(), turns) == TotalWorth(turns)
    decreases |turns|
  {
    if turns != [] {
      var n := |turns| - 1;
      SlotsOfTurn(turns[..n], t);
      if turns[n].answer.Some? && turns[n].answer.value.Calls? {
        RangeOfTurn(t, n, 0, |turns[n].answer.value.calls|);
      }
    }
  }

  lemma {:induction false} RunBalanced(
    cfg: Config, pushed: Option<DeviceContext>, states: seq<State>, steps: seq<Step>, k: nat, P: Query)
    requires IsRun(cfg, pushed, states, steps) && k < |states|
    ensures Balanced(states[k], P)
  {
    if k == 0 {
      InitBalanced(pushed, P);
    } else {
      RunSound(cfg, pushed, states, steps, k - 1);
      RunBalanced(cfg, pushed, states, steps, k - 1, P);
      BalancedNext(cfg, states[k - 1], states[k], steps[k - 1], P);
    }
  }

  lemma {:induction false} RunNonEmptyCalls(
    cfg: Config, pushed: Option<DeviceContext>, states: seq<State>, steps: seq<Step>, k: nat)
    requires IsRun(cfg, pushed, states, steps) && k < |states|
    ensures NonEmptyCalls(states[k].turns)
  {
    if k > 0 {
      RunNonEmptyCalls(cfg, pushed, states, steps, k - 1);
      TurnsStep(cfg, states[k - 1], states[k], steps[k - 1]);
    }
  }

  /** Replies still owed, over all goroutines and frames in flight. */
  ghost function Owed(s: State, P: Query): nat
  {
    Sum(s.tasks, PlannedBy(P)) + Sum(s.tasks, HeldBy(P)) + Sum(s.tasks, OwedBy(P))
    + Sum(InFlight(s.session.written, s.upRead), CommandFor(P)) + Sum(InFlight(s.down, s.downRead), ResultFor(P))
  }

  /** Reply accounting in every reachable state, whatever the tool ids: per turn and in total,
      replies sent, replies owed and calls that could not be sent add up to max(1, k) per
      answered turn with k calls, and to one per turn that still waits. */
  lemma ReplyAccounting(
    cfg: Config, pushed: Option<DeviceContext>, states: seq<State>, steps: seq<Step>, k: nat, turn: nat)
    requires IsRun(cfg, pushed, states, steps) && k < |states|
    ensures var s := states[k];
      && Replied(s, OfTurn(turn)) + Owed(s, OfTurn(turn)) + Leaked(s, OfTurn(turn))
           == (if turn < |s.turns| then Worth(s.turns[turn]) else 0)
      && Replied(s, Any()) + Owed(s, Any()) + |s.leaked| == TotalWorth(s.turns)
  {
    RunBalanced(cfg, pushed, states, steps, k, OfTurn(turn));
    RunBalanced(cfg, pushed, states, steps, k, Any());
    RunNonEmptyCalls(cfg, pushed, states, steps, k);
    SlotsOfTurn(states[k].turns, turn);
    LeaksAll(states[k].leaked);
  }

  lemma {:induction false} LeaksAll(leaked: seq<CallRef>)
    ensures Sum(leaked, LeakFor(Any())) == |leaked|
    decreases |leaked|
  {
    if leaked != [] {
      LeaksAll(leaked[..|leaked| - 1]);
      var last := leaked[|leaked| - 1];
      assert Any()(ForCall(last));
      assert LeakFor(Any())(last) == Bit(Any()(ForCall(last)));
    }
  }

  /** Every tts_audio frame comes after an llm_result frame with the text it speaks. */
  lemma AudioFollowsItsReply(
    cfg: Config, pushed: Option<DeviceContext>, states: seq<State>, steps: seq<Step>, k: nat, i: nat)
    requires IsRun(cfg, pushed, states, steps) && k < |states|
    requires i < |states[k].session.written| && states[k].session.written[i].TtsAudio?
    ensures var w := states[k].session.written;
      && w[i].speaks < i && w[w[i].speaks].LlmResult?
      && w[w[i].speaks].text == w[i].text && w[i].text != ""
  {
    RunSound(cfg, pushed, states, steps, k);
    assert UpOk(states[k].turns, states[k].session.written, i);
  }
}
