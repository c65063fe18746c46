// Which replies of a session never come: exactly those of the tool calls whose arguments are
// not JSON.
module ProtocolReplies {
  import opened Wire
  import opened Worker
  import opened Protocol
  import opened ProtocolAccounting
  import opened ProtocolSafety
  import opened ProtocolPairing
  import opened Sums

  /** A call whose frame can be encoded. */
  predicate Encodable(cfg: Config, turns: seq<Turn>, ref: CallRef) {
    ValidRef(turns, ref) && cfg.validJson(CallOf(turns, ref).arguments)
  }

  predicate OriginEncodable(cfg: Config, turns: seq<Turn>, origin: Option<CallRef>) {
    origin.Some? ==> Encodable(cfg, turns, origin.value)
  }

  predicate SlotEncodable(cfg: Config, turns: seq<Turn>, slot: Option<Slot>) {
    slot.Some? && slot.value.ForCall? ==> Encodable(cfg, turns, slot.value.ref)
  }

  predicate TaskEncodable(cfg: Config, turns: seq<Turn>, g: Goroutine) {
    match g
    case Execute(_, ref) => Encodable(cfg, turns, ref)
    case HandleResult(_, _, _, origin) => OriginEncodable(cfg, turns, origin)
    case SecondCall(_, origin) => OriginEncodable(cfg, turns, origin)
    case _ => true
  }

  predicate UpEncodable(cfg: Config, turns: seq<Turn>, f: UpFrame) {
    match f
    case DeviceCommand(_, ref) => Encodable(cfg, turns, ref)
    case LlmResult(_, slot) => SlotEncodable(cfg, turns, slot)
    case LlmError(_, slot) => SlotEncodable(cfg, turns, slot)
    case _ => true
  }

  predicate DownEncodable(cfg: Config, turns: seq<Turn>, f: DownFrame) {
    f.CommandResult? ==> OriginEncodable(cfg, turns, f.origin)
  }

  /** Everything sent, executing, returned, handled or replied belongs to an encodable call. */
  ghost predicate OnlyEncodable(cfg: Config, s: State) {
    && (forall i | 0 <= i < |s.tasks| :: TaskEncodable(cfg, s.turns, s.tasks[i]))
    && (forall i | 0 <= i < |s.session.written| :: UpEncodable(cfg, s.turns, s.session.written[i]))
    && (forall i | 0 <= i < |s.down| :: DownEncodable(cfg, s.turns, s.down[i]))
  }

  lemma EncodableStays(cfg: Config, before: seq<Turn>, after: seq<Turn>)
    requires Extends(before, after)
    ensures forall ref | Encodable(cfg, before, ref) :: Encodable(cfg, after, ref)
  {
  }

  lemma BornEncodable(cfg: Config, s: State, t: State, step: Step)
    requires Typed(cfg, s) && OnlyEncodable(cfg, s) && Enabled(s, step) && t == Apply(cfg, s, step)
    requires Extends(s.turns, t.turns)
    ensures forall g | g in Born(cfg, s, step) :: TaskEncodable(cfg, t.turns, g)
  {
    EncodableStays(cfg, s.turns, t.turns);
    if Acting(step) >= 0 {
      assert TaskEncodable(cfg, s.turns, s.tasks[step.task]);
    } else if step.WorkerReads? {
      assert DownEncodable(cfg, s.turns, s.down[s.downRead]);
    } else if step.ServerReads? {
      assert UpEncodable(cfg, s.turns, s.session.written[s.upRead]);
    }
  }

  lemma TasksStayEncodable(cfg: Config, s: State, t: State, born: seq<Goroutine>, acting: int)
    requires OnlyEncodable(cfg, s) && Extends(s.turns, t.turns) && NextTasks(s.tasks, t.tasks, acting, born)
    requires forall g | g in born :: TaskEncodable(cfg, t.turns, g)
    ensures forall k | 0 <= k < |t.tasks| :: TaskEncodable(cfg, t.turns, t.tasks[k])
  {
    EncodableStays(cfg, s.turns, t.turns);
    forall k | 0 <= k < |t.tasks| ensures TaskEncodable(cfg, t.turns, t.tasks[k]) {
      if t.tasks[k] !in born {
        var j :| 0 <= j < |s.tasks| && j != acting && t.tasks[k] == s.tasks[j];
        assert TaskEncodable(cfg, s.turns, s.tasks[j]);
      }
    }
  }

  /** Frames a goroutine writes for a call belong to a call that has come so far. */
  lemma NewFramesEncodable(cfg: Config, s: State, t: State, step: Step)
    requires Typed(cfg, s) && OnlyEncodable(cfg, s) && Enabled(s, step) && t == Apply(cfg, s, step)
    requires Extends(s.turns, t.turns)
    ensures forall i | |s.session.written| <= i < |t.session.written| :: UpEncodable(cfg, t.turns, t.session.written[i])
  {
    if step.Sends? || step.SecondAnswers? {
      EncodableStays(cfg, s.turns, t.turns);
      assert TaskEncodable(cfg, s.turns, s.tasks[step.task]);
      assert TaskOk(s.turns, s.session.written, s.tasks[step.task]);
    }
  }

  lemma WrittenStaysEncodable(cfg: Config, s: State, t: State)
    requires OnlyEncodable(cfg, s) && Extends(s.turns, t.turns) && s.session.written <= t.session.written
    requires forall i | |s.session.written| <= i < |t.session.written| :: UpEncodable(cfg, t.turns, t.session.written[i])
    ensures forall i | 0 <= i < |t.session.written| :: UpEncodable(cfg, t.turns, t.session.written[i])
  {
    EncodableStays(cfg, s.turns, t.turns);
    forall i | 0 <= i < |s.session.written| ensures UpEncodable(cfg, t.turns, t.session.written[i]) {
      assert UpEncodable(cfg, s.turns, s.session.written[i]);
    }
  }

  lemma DownStaysEncodable(cfg: Config, s: State, t: State, step: Step)
    requires OnlyEncodable(cfg, s) && Enabled(s, step) && t == Apply(cfg, s, step)
    requires Extends(s.turns, t.turns)
    ensures forall i | 0 <= i < |t.down| :: DownEncodable(cfg, t.turns, t.down[i])
  {
    EncodableStays(cfg, s.turns, t.turns);
    if step.Executes? {
      assert TaskEncodable(cfg, s.turns, s.tasks[step.task]);
    }
    forall i | 0 <= i < |s.down| ensures DownEncodable(cfg, t.turns, s.down[i]) {
      assert DownEncodable(cfg, s.turns, s.down[i]);
    }
  }

  lemma {:induction false} RunEncodable(
    cfg: Config, pushed: Option<DeviceContext>, states: seq<State>, steps: seq<Step>, k: nat)
    requires IsRun(cfg, pushed, states, steps) && k < |states|
    ensures OnlyEncodable(cfg, states[k])
  {
    if k > 0 {
      var s, t, step := states[k - 1], states[k], steps[k - 1];
      RunSound(cfg, pushed, states, steps, k - 1);
      RunEncodable(cfg, pushed, states, steps, k - 1);
      TurnsExtend(cfg, s, t, step);
      WrittenStep(cfg, s, t, step);
      TasksStep(cfg, s, t, step);
      BornEncodable(cfg, s, t, step);
      TasksStayEncodable(cfg, s, t, Born(cfg, s, step), Acting(step));
      NewFramesEncodable(cfg, s, t, step);
      WrittenStaysEncodable(cfg, s, t);
      DownStaysEncodable(cfg, s, t, step);
    }
  }

  // ---- one call ----

  /** When nothing runs and nothing is in flight, a call has had its one reply exactly if its
      arguments are JSON, and is leaked exactly if they are not. */
  lemma CallIsAnsweredIff(
    cfg: Config, pushed: Option<DeviceContext>, states: seq<State>, steps: seq<Step>, k: nat, ref: CallRef)
    requires IsRun(cfg, pushed, states, steps) && k < |states|
    requires Quiescent(states[k]) && ValidRef(states[k].turns, ref)
    ensures var s := states[k];
      var answered := cfg.validJson(CallOf(s.turns, ref).arguments);
      Replied(s, Is(ForCall(ref))) == Bit(answered) && Leaked(s, Is(ForCall(ref))) == Bit(!answered)
  {
    var s := states[k];
    var P := Is(ForCall(ref));
    EverySlotInExactlyOnePlace(cfg, pushed, states, steps, k, ForCall(ref));
    RunSound(cfg, pushed, states, steps, k);
    RunEncodable(cfg, pushed, states, steps, k);
    assert InFlight(s.session.written, s.upRead) == [] && InFlight(s.down, s.downRead) == [];
    if Leaked(s, P) > 0 {
      var i := SumWitness(s.leaked, LeakFor(P));
      assert P(ForCall(s.leaked[i])) && s.leaked[i] == ref;
    }
    if Replied(s, P) > 0 {
      var i := SumWitness(s.session.written, ReplyFor(P));
      assert UpEncodable(cfg, s.turns, s.session.written[i]);
      assert ReplyIn(P, s.session.written[i]) > 0;
    }
  }

  lemma LeakedIff(
    cfg: Config, pushed: Option<DeviceContext>, states: seq<State>, steps: seq<Step>, k: nat, ref: CallRef)
    requires IsRun(cfg, pushed, states, steps) && k < |states| && Quiescent(states[k])
    ensures var s := states[k];
      ref in s.leaked <==> ValidRef(s.turns, ref) && !cfg.validJson(CallOf(s.turns, ref).arguments)
  {
    var s := states[k];
    RunSound(cfg, pushed, states, steps, k);
    if ValidRef(s.turns, ref) {
      CallIsAnsweredIff(cfg, pushed, states, steps, k, ref);
      QuietHeldIsLeaked(s, ref);
      assert InFlight(s.session.written, s.upRead) == [] && InFlight(s.down, s.downRead) == [];
      assert Held(s, Is(ForCall(ref))) == Leaked(s, Is(ForCall(ref)));
    }
  }

  // ---- one turn ----

  /** Calls among the first n whose arguments are not JSON. */
  function Unencodable(cfg: Config, calls: seq<ToolCall>, n: nat): nat
    requires n <= |calls|
  {
    if n == 0 then 0
    else Unencodable(cfg, calls, n - 1) + (if cfg.validJson(calls[n - 1].arguments) then 0 else 1)
  }

  lemma {:induction false} NoneUnencodable(cfg: Config, calls: seq<ToolCall>, n: nat)
    requires n <= |calls|
    ensures Unencodable(cfg, calls, n) == 0 <==> forall i | 0 <= i < n :: cfg.validJson(calls[i].arguments)
  {
    if n > 0 {
      NoneUnencodable(cfg, calls, n - 1);
    }
  }

  /** Leaks of the calls 0..n of a turn, counted call by call. */
  ghost function LeaksIn(leaked: seq<CallRef>, turn: nat, n: nat): nat {
    if n == 0 then 0 else LeaksIn(leaked, turn, n - 1) + Sum(leaked, LeakFor(Is(ForCall(CallRef(turn, n - 1)))))
  }

  lemma {:induction false} LeaksInEmpty(turn: nat, n: nat)
    ensures LeaksIn([], turn, n) == 0
  {
    if n > 0 {
      LeaksInEmpty(turn, n - 1);
    }
  }

  lemma {:induction false} LeaksInAppend(leaked: seq<CallRef>, ref: CallRef, turn: nat, n: nat)
    ensures LeaksIn(leaked + [ref], turn, n) == LeaksIn(leaked, turn, n) + Bit(ref.turn == turn && ref.index < n)
  {
    if n > 0 {
      LeaksInAppend(leaked, ref, turn, n - 1);
      var P := Is(ForCall(CallRef(turn, n - 1)));
      SumAppend(leaked, ref, LeakFor(P));
      assert P(ForCall(ref)) <==> ref == CallRef(turn, n - 1);
    }
  }

  /** All leaks of a turn are leaks of its calls. */
  lemma {:induction false} TurnLeaks(leaked: seq<CallRef>, turn: nat, n: nat)
    requires forall i | 0 <= i < |leaked| && leaked[i].turn == turn :: leaked[i].index < n
    ensures Sum(leaked, LeakFor(OfTurn(turn))) == LeaksIn(leaked, turn, n)
    decreases |leaked|
  {
    if leaked == [] {
      LeaksInEmpty(turn, n);
    } else {
      var front, last := leaked[..|leaked| - 1], leaked[|leaked| - 1];
      TurnLeaks(front, turn, n);
      assert leaked == front + [last];
      LeaksInAppend(front, last, turn, n);
      SumAppend(front, last, LeakFor(OfTurn(turn)));
    }
  }

  lemma {:induction false} LeaksAreUnencodable(
    cfg: Config, pushed: Option<DeviceContext>, states: seq<State>, steps: seq<Step>, k: nat, turn: nat, n: nat)
    requires IsRun(cfg, pushed, states, steps) && k < |states| && Quiescent(states[k]) && turn < |states[k].turns|
    requires var a := states[k].turns[turn].answer; a.Some? && a.value.Calls? && n <= |a.value.calls|
    ensures LeaksIn(states[k].leaked, turn, n) == Unencodable(cfg, states[k].turns[turn].answer.value.calls, n)
  {
    if n > 0 {
      LeaksAreUnencodable(cfg, pushed, states, steps, k, turn, n - 1);
      CallIsAnsweredIff(cfg, pushed, states, steps, k, CallRef(turn, n - 1));
    }
  }

  /** Replies a turn is owed and never gets. */
  function Lost(cfg: Config, turn: Turn): nat {
    if turn.answer.Some? && turn.answer.value.Calls? then
      Unencodable(cfg, turn.answer.value.calls, |turn.answer.value.calls|)
    else 0
  }

  predicate AllEncodable(cfg: Config, turn: Turn) {
    turn.answer.Some? && turn.answer.value.Calls? ==>
      forall i | 0 <= i < |turn.answer.value.calls| :: cfg.validJson(turn.answer.value.calls[i].arguments)
  }

  /** Once nothing runs and nothing is in flight, a turn with k tool calls has produced max(1, k)
      terminal frames, less one for each call whose arguments are not JSON; so it has produced all
      of them exactly when all its calls have JSON arguments. */
  lemma QuiescentReplies(
    cfg: Config, pushed: Option<DeviceContext>, states: seq<State>, steps: seq<Step>, k: nat, turn: nat)
    requires IsRun(cfg, pushed, states, steps) && k < |states|
    requires Quiescent(states[k]) && turn < |states[k].turns|
    ensures var s := states[k];
      && Replied(s, OfTurn(turn)) + Lost(cfg, s.turns[turn]) == Worth(s.turns[turn])
      && (Replied(s, OfTurn(turn)) == Worth(s.turns[turn]) <==> AllEncodable(cfg, s.turns[turn]))
  {
    var s := states[k];
    ReplyAccounting(cfg, pushed, states, steps, k, turn);
    RunSound(cfg, pushed, states, steps, k);
    assert InFlight(s.session.written, s.upRead) == [] && InFlight(s.down, s.downRead) == [];
    assert Owed(s, OfTurn(turn)) == 0;
    var a := s.turns[turn].answer;
    var n := if a.Some? && a.value.Calls? then |a.value.calls| else 0;
    forall i | 0 <= i < |s.leaked| && s.leaked[i].turn == turn ensures s.leaked[i].index < n {
      assert ValidRef(s.turns, s.leaked[i]);
    }
    TurnLeaks(s.leaked, turn, n);
    if n > 0 {
      LeaksAreUnencodable(cfg, pushed, states, steps, k, turn, n);
      NoneUnencodable(cfg, a.value.calls, n);
    } else {
      assert LeaksIn(s.leaked, turn, 0) == 0;
    }
  }

  /** When nothing runs and nothing is in flight, an id is still cached exactly when some call
      with this id has arguments that are not JSON, and no stray result took its entry. */
  lemma OnlyUnencodableRemain(
    cfg: Config, pushed: Option<DeviceContext>, states: seq<State>, steps: seq<Step>, k: nat, id: string)
    requires IsDistinctRun(cfg, pushed, states, steps) && k < |states| && Quiescent(states[k])
    ensures id in states[k].session.toolCalls <==>
      exists ref :: LostCall(cfg, states[k].turns, ref, id) && !WasStolen(states, steps, k, ref)
  {
    OnlyLeaksRemain(cfg, pushed, states, steps, k, id);
    var s := states[k];
    if ref :| LeaksId(s, ref, id) && !WasStolen(states, steps, k, ref) {
      LeakedIff(cfg, pushed, states, steps, k, ref);
      assert LostCall(cfg, s.turns, ref, id);
    }
    if ref :| LostCall(cfg, s.turns, ref, id) && !WasStolen(states, steps, k, ref) {
      LeakedIff(cfg, pushed, states, steps, k, ref);
      assert LeaksId(s, ref, id);
    }
  }

  predicate LostCall(cfg: Config, turns: seq<Turn>, ref: CallRef, id: string) {
    ValidRef(turns, ref) && CallOf(turns, ref).id == id && !cfg.validJson(CallOf(turns, ref).arguments)
  }

  // ---- a reply that never comes ----

  lemma Extend(cfg: Config, states: seq<State>, steps: seq<Step>, step: Step)
    returns (longer: seq<State>, more: seq<Step>)
    requires IsRun(cfg, None, states, steps) && Enabled(states[|steps|], step)
    ensures IsRun(cfg, None, longer, more)
    ensures longer[|more|] == Apply(cfg, states[|steps|], step)
  {
    longer, more := states + [Apply(cfg, states[|steps|], step)], steps + [step];
  }

  /** A text whose one tool call has arguments that are not JSON: everything comes to rest with
      the text echoed, no reply, and the call still cached. */
  lemma LostReply(cfg: Config, call: ToolCall) returns (states: seq<State>, steps: seq<Step>)
    requires cfg.providers && !cfg.validJson(call.arguments)
    ensures IsRun(cfg, None, states, steps) && Quiescent(states[|steps|])
    ensures states[|steps|].turns == [Turn("hi", Some(Calls([call])))]
    ensures states[|steps|].client == [AsrFinal("hi")]
    ensures states[|steps|].session.toolCalls == map[call.id := Pending(call.name, call.arguments)]
  {
    states, steps := [Init(None)], [];
    states, steps := Extend(cfg, states, steps, ClientSends(TextInput("hi")));
    states, steps := Extend(cfg, states, steps, WorkerReads);
    states, steps := Extend(cfg, states, steps, ServerReads);
    states, steps := Extend(cfg, states, steps, FirstAnswers(0, Calls([call])));
    states, steps := Extend(cfg, states, steps, Remembers(0));
    states, steps := Extend(cfg, states, steps, Sends(0));
  }

  lemma ExtendDistinct(cfg: Config, states: seq<State>, steps: seq<Step>, step: Step)
    returns (longer: seq<State>, more: seq<Step>)
    requires IsDistinctRun(cfg, None, states, steps) && Enabled(states[|steps|], step) && FreshIds(states[|steps|], step)
    ensures IsDistinctRun(cfg, None, longer, more)
    ensures longer[|more|] == Apply(cfg, states[|steps|], step)
  {
    longer, more := states + [Apply(cfg, states[|steps|], step)], steps + [step];
  }

  /** One call with JSON arguments, as far as its command waits for the Server. */
  lemma CommandSent(cfg: Config, call: ToolCall) returns (states: seq<State>, steps: seq<Step>)
    requires cfg.providers && cfg.validJson(call.arguments)
    ensures IsDistinctRun(cfg, None, states, steps)
    ensures var s := states[|steps|];
      && s.tasks == [] && s.seconds == [] && s.downRead == |s.down| && s.upRead == |s.session.written| - 1
      && s.session.written[s.upRead] == DeviceCommand(call, CallRef(0, 0))
      && s.session.toolCalls == map[call.id := Pending(call.name, call.arguments)]
  {
    states, steps := [Init(None)], [];
    states, steps := ExtendDistinct(cfg, states, steps, ClientSends(TextInput("hi")));
    states, steps := ExtendDistinct(cfg, states, steps, WorkerReads);
    states, steps := ExtendDistinct(cfg, states, steps, ServerReads);
    states, steps := ExtendDistinct(cfg, states, steps, FirstAnswers(0, Calls([call])));
    states, steps := ExtendDistinct(cfg, states, steps, Remembers(0));
    states, steps := ExtendDistinct(cfg, states, steps, Sends(0));
  }

  /** A result of the client's own under the call's id takes the entry. */
  lemma EntryTaken(cfg: Config, call: ToolCall) returns (states: seq<State>, steps: seq<Step>)
    requires cfg.providers && cfg.validJson(call.arguments)
    ensures IsDistinctRun(cfg, None, states, steps)
    ensures var s := states[|steps|];
      && |s.tasks| == 1 && s.downRead == |s.down| && s.upRead == |s.session.written| - 1
      && s.session.written[s.upRead] == DeviceCommand(call, CallRef(0, 0))
      && s.session.toolCalls == map[]
      && |s.seconds| == 1 && s.seconds[0].origin == None && s.seconds[0].found
  {
    states, steps := CommandSent(cfg, call);
    states, steps := ExtendDistinct(cfg, states, steps, ClientSends(CommandResult(call.id, true, "", None)));
    states, steps := ExtendDistinct(cfg, states, steps, WorkerReads);
    assert states[|steps|].tasks == [HandleResult(call.id, true, "", None)];
    states, steps := ExtendDistinct(cfg, states, steps, Pops(0));
  }

  /** The Server's result then finds none: its second round falls back to the defaults. */
  lemma StolenEntry(cfg: Config, call: ToolCall) returns (states: seq<State>, steps: seq<Step>)
    requires cfg.providers && cfg.validJson(call.arguments)
    ensures IsDistinctRun(cfg, None, states, steps)
    ensures var s := states[|steps|];
      && |s.seconds| == 2 && s.seconds[0].origin == None && s.seconds[0].found
      && s.seconds[1].origin == Some(CallRef(0, 0)) && !s.seconds[1].found
      && s.seconds[1].request.name == CONTROL_DEVICE && s.seconds[1].request.arguments == EMPTY_ARGUMENTS
      && WasStolen(states, steps, |steps|, CallRef(0, 0))
  {
    states, steps := EntryTaken(cfg, call);
    states, steps := ExtendDistinct(cfg, states, steps, ServerReads);
    states, steps := ExtendDistinct(cfg, states, steps, Executes(1, true, ""));
    states, steps := ExtendDistinct(cfg, states, steps, WorkerReads);
    assert states[|steps|].tasks[1] == HandleResult(call.id, true, "", Some(CallRef(0, 0)));
    states, steps := ExtendDistinct(cfg, states, steps, Pops(1));
    SecondRoundsReplayTheirFirst(cfg, None, states, steps, |steps|, 1);
  }
}
