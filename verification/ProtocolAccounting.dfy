// Where every call and every reply of a session is, in every reachable state.
//
// A slot is one reply the session owes: the first-round reply of a turn, or the second-round
// reply of one tool call.  A slot is `planned` until its call is remembered, `held` while its
// call is in the pending map's care, `past` afterwards.  A query selects slots.
module ProtocolAccounting {
  import opened Wire
  import opened Worker
  import opened Protocol
  import opened Sums

  type Query = Slot -> bool

  ghost function Is(x: Slot): Query { s => s == x }

  ghost function OfTurn(t: nat): Query { (s: Slot) => (if s.FirstRound? then s.turn else s.ref.turn) == t }

  ghost function Any(): Query { _ => true }

  /** Slots of the calls from..to of a turn that the query selects. */
  ghost function Range(P: Query, turn: nat, from: nat, to: nat): nat
    decreases to - from
  {
    if from >= to then 0 else Bit(P(ForCall(CallRef(turn, from)))) + Range(P, turn, from + 1, to)
  }

  ghost function PlannedIn(P: Query, t: Goroutine): nat {
    match t
    case FirstCall(turn, _, _) => Bit(P(FirstRound(turn)))
    case Emit(turn, calls, next, remembered) => Range(P, turn, if remembered then next + 1 else next, |calls|)
    case _ => 0
  }

  /** A result nobody asked for has no slot. */
  ghost function RefBit(P: Query, origin: Option<CallRef>): nat {
    if origin.Some? then Bit(P(ForCall(origin.value))) else 0
  }

  ghost function HeldIn(P: Query, t: Goroutine): nat {
    match t
    case Emit(turn, _, next, remembered) => if remembered then Bit(P(ForCall(CallRef(turn, next)))) else 0
    case Execute(_, ref) => Bit(P(ForCall(ref)))
    case HandleResult(_, _, _, origin) => RefBit(P, origin)
    case _ => 0
  }

  ghost function OwedIn(P: Query, t: Goroutine): nat {
    match t case SecondCall(_, origin) => RefBit(P, origin) case _ => 0
  }

  ghost function CommandIn(P: Query, f: UpFrame): nat {
    match f case DeviceCommand(_, ref) => Bit(P(ForCall(ref))) case _ => 0
  }

  ghost function ResultIn(P: Query, f: DownFrame): nat {
    match f case CommandResult(_, _, _, origin) => RefBit(P, origin) case _ => 0
  }

  /** Terminal frames: the replies themselves. */
  ghost function ReplyIn(P: Query, f: UpFrame): nat {
    match f
    case LlmResult(_, Some(slot)) => Bit(P(slot))
    case LlmError(_, Some(slot)) => Bit(P(slot))
    case _ => 0
  }

  ghost function PlannedBy(P: Query): Goroutine -> nat { t => PlannedIn(P, t) }
  ghost function HeldBy(P: Query): Goroutine -> nat { t => HeldIn(P, t) }
  ghost function OwedBy(P: Query): Goroutine -> nat { t => OwedIn(P, t) }
  ghost function CommandFor(P: Query): UpFrame -> nat { f => CommandIn(P, f) }
  ghost function ResultFor(P: Query): DownFrame -> nat { f => ResultIn(P, f) }
  ghost function ReplyFor(P: Query): UpFrame -> nat { f => ReplyIn(P, f) }
  ghost function LeakFor(P: Query): CallRef -> nat { ref => Bit(P(ForCall(ref))) }

  ghost function Planned(s: State, P: Query): nat { Sum(s.tasks, PlannedBy(P)) }

  ghost function Leaked(s: State, P: Query): nat { Sum(s.leaked, LeakFor(P)) }

  function InFlight<T>(sent: seq<T>, read: nat): seq<T> {
    if read <= |sent| then sent[read..] else []
  }

  /** Remembered and unsent, in flight as a command, executing, in flight as a result,
      in an unpopped handler, or leaked. */
  ghost function Held(s: State, P: Query): nat {
    Sum(s.tasks, HeldBy(P)) + Sum(InFlight(s.session.written, s.upRead), CommandFor(P))
    + Sum(InFlight(s.down, s.downRead), ResultFor(P)) + Leaked(s, P)
  }

  ghost function Answering(s: State, P: Query): nat { Sum(s.tasks, OwedBy(P)) }

  ghost function Replied(s: State, P: Query): nat { Sum(s.session.written, ReplyFor(P)) }

  ghost function Past(s: State, P: Query): nat { Answering(s, P) + Replied(s, P) }

  /** Slots a turn consists of: one, or one per tool call. */
  ghost function TurnSlots(P: Query, t: nat, turn: Turn): nat {
    if turn.answer.Some? && turn.answer.value.Calls? then Range(P, t, 0, |turn.answer.value.calls|)
    else Bit(P(FirstRound(t)))
  }

  ghost function AllSlots(P: Query, turns: seq<Turn>): nat {
    if turns == [] then 0
    else AllSlots(P, turns[..|turns| - 1]) + TurnSlots(P, |turns| - 1, turns[|turns| - 1])
  }

  ghost predicate Pointers(s: State) {
    && s.upRead <= |s.session.written| && s.downRead <= |s.down|
    && s.asrInRead <= |s.asrIn| && s.asrOutRead <= |s.asrOut|
  }

  // ---- sums over turns ----

  lemma {:induction false} AllSlotsUpdate(P: Query, turns: seq<Turn>, t: nat, turn: Turn)
    requires t < |turns|
    ensures AllSlots(P, turns[t := turn]) + TurnSlots(P, t, turns[t]) == AllSlots(P, turns) + TurnSlots(P, t, turn)
    decreases |turns|
  {
    var n := |turns| - 1;
    if t == n {
      assert turns[t := turn][..n] == turns[..n];
    } else {
      assert turns[t := turn][..n] == turns[..n][t := turn];
      AllSlotsUpdate(P, turns[..n], t, turn);
    }
  }

  lemma AllSlotsAppend(P: Query, turns: seq<Turn>, turn: Turn)
    ensures AllSlots(P, turns + [turn]) == AllSlots(P, turns) + TurnSlots(P, |turns|, turn)
  {
    assert (turns + [turn])[..|turns|] == turns;
  }

  // ---- how one step moves slots ----

  ghost predicate SameTally(s: State, t: State, P: Query) {
    Planned(t, P) == Planned(s, P) && Held(t, P) == Held(s, P) && Past(t, P) == Past(s, P)
  }

  /** Weight of at most one goroutine. */
  ghost function OfNext(next: seq<Goroutine>, w: Goroutine -> nat): nat {
    if next == [] then 0 else w(next[0])
  }

  /** One goroutine is replaced by at most one other. */
  lemma BecomeTally(tasks: seq<Goroutine>, i: nat, next: seq<Goroutine>, P: Query)
    requires i < |tasks| && |next| <= 1
    ensures var after := Become(tasks, i, next);
      && Sum(after, PlannedBy(P)) + PlannedIn(P, tasks[i]) == Sum(tasks, PlannedBy(P)) + OfNext(next, PlannedBy(P))
      && Sum(after, HeldBy(P)) + HeldIn(P, tasks[i]) == Sum(tasks, HeldBy(P)) + OfNext(next, HeldBy(P))
      && Sum(after, OwedBy(P)) + OwedIn(P, tasks[i]) == Sum(tasks, OwedBy(P)) + OfNext(next, OwedBy(P))
  {
    SumReplace(tasks, i, next, PlannedBy(P));
    SumReplace(tasks, i, next, HeldBy(P));
    SumReplace(tasks, i, next, OwedBy(P));
    if next != [] {
      assert next == [next[0]];
      SumOne(next[0], PlannedBy(P));
      SumOne(next[0], HeldBy(P));
      SumOne(next[0], OwedBy(P));
    }
  }

  lemma SpawnTally(tasks: seq<Goroutine>, t: Goroutine, P: Query)
    ensures Sum(tasks + [t], PlannedBy(P)) == Sum(tasks, PlannedBy(P)) + PlannedIn(P, t)
    ensures Sum(tasks + [t], HeldBy(P)) == Sum(tasks, HeldBy(P)) + HeldIn(P, t)
    ensures Sum(tasks + [t], OwedBy(P)) == Sum(tasks, OwedBy(P)) + OwedIn(P, t)
  {
    SumAppend(tasks, t, PlannedBy(P));
    SumAppend(tasks, t, HeldBy(P));
    SumAppend(tasks, t, OwedBy(P));
  }

  lemma WriteTally(written: seq<UpFrame>, read: nat, f: UpFrame, P: Query)
    requires read <= |written|
    ensures Sum((written + [f])[read..], CommandFor(P)) == Sum(written[read..], CommandFor(P)) + CommandIn(P, f)
    ensures Sum(written + [f], ReplyFor(P)) == Sum(written, ReplyFor(P)) + ReplyIn(P, f)
  {
    SumEnqueue(written, read, f, CommandFor(P));
    SumAppend(written, f, ReplyFor(P));
  }

  /** What a reaction of the Worker adds: at most one goroutine, and frames without slots. */
  ghost predicate Modest(s: State, r: Reaction) {
    && |r.spawned| <= 1
    && r.session.toolCalls == s.session.toolCalls
    && s.session.written <= r.session.written
    && (forall i | |s.session.written| <= i < |r.session.written| ::
          var f := r.session.written[i];
          !f.DeviceCommand? && (f.LlmResult? ==> f.slot.None?) && (f.LlmError? ==> f.slot.None?))
    && (r.spawned != [] && r.spawned[0].FirstCall? ==> r.spawned[0].turn == |s.turns|)
  }

  lemma {:induction false} WritesTally(before: seq<UpFrame>, after: seq<UpFrame>, read: nat, P: Query)
    requires read <= |before| && before <= after
    requires forall i | |before| <= i < |after| :: CommandIn(P, after[i]) == 0 && ReplyIn(P, after[i]) == 0
    ensures Sum(after[read..], CommandFor(P)) == Sum(before[read..], CommandFor(P))
    ensures Sum(after, ReplyFor(P)) == Sum(before, ReplyFor(P))
    decreases |after|
  {
    if |after| == |before| {
      assert after == before;
    } else {
      var front := after[..|after| - 1];
      WritesTally(before, front, read, P);
      assert after == front + [after[|after| - 1]];
      WriteTally(front, read, after[|after| - 1], P);
    }
  }

  lemma AbsorbTally(s: State, r: Reaction, P: Query)
    requires Pointers(s) && Modest(s, r)
    ensures var t := Absorb(s, r);
      && Planned(t, P) == Planned(s, P) + (if r.spawned == [] then 0 else PlannedIn(P, r.spawned[0]))
      && Held(t, P) == Held(s, P) + (if r.spawned == [] then 0 else HeldIn(P, r.spawned[0]))
      && Past(t, P) == Past(s, P) + (if r.spawned == [] then 0 else OwedIn(P, r.spawned[0]))
  {
    WritesTally(s.session.written, r.session.written, s.upRead, P);
    if r.spawned == [] {
      assert s.tasks + r.spawned == s.tasks;
    } else {
      assert r.spawned == [r.spawned[0]];
      SpawnTally(s.tasks, r.spawned[0], P);
    }
  }

  /** The turn a reading step opens, if any. */
  ghost function Opened(s: State, t: State, P: Query): nat {
    if |t.turns| > |s.turns| then Bit(P(FirstRound(|s.turns|))) else 0
  }

  /** Reading from the Server: a result frame becomes a handler, a text opens a turn. */
  lemma WorkerReadsTally(cfg: Config, s: State, t: State, P: Query)
    requires Pointers(s) && Enabled(s, WorkerReads) && t == WorkerRead(cfg, s)
    ensures
      && Held(t, P) == Held(s, P) && Past(t, P) == Past(s, P)
      && Planned(t, P) == Planned(s, P) + Opened(s, t, P)
  {
    SumDequeue(s.down, s.downRead, ResultFor(P));
    AbsorbTally(s, React(cfg, s.session, s.down[s.downRead], |s.turns|), P);
  }

  lemma WorkerReadsAsrTally(cfg: Config, s: State, t: State, P: Query)
    requires Pointers(s) && Enabled(s, WorkerReadsAsr) && t == WorkerReadAsr(cfg, s)
    ensures
      && Held(t, P) == Held(s, P) && Past(t, P) == Past(s, P)
      && Planned(t, P) == Planned(s, P) + Opened(s, t, P)
  {
    AbsorbTally(s, ReactToAsr(cfg, s.session, s.asrOut[s.asrOutRead], |s.turns|), P);
  }

  lemma ServerReadsTally(cfg: Config, s: State, t: State, P: Query)
    requires Pointers(s) && Enabled(s, ServerReads) && t == ServerRead(s)
    ensures SameTally(s, t, P)
  {
    var f := s.session.written[s.upRead];
    SumDequeue(s.session.written, s.upRead, CommandFor(P));
    if f.DeviceCommand? {
      SpawnTally(s.tasks, Execute(f.call, f.ref), P);
    }
  }

  lemma FinishTally(s: State, i: nat, f: UpFrame, next: seq<Goroutine>, P: Query)
    requires Pointers(s) && i < |s.tasks| && !f.DeviceCommand?
    requires |next| <= 1 && (next != [] ==> next[0].Speak?)
    ensures var t := Finish(s, i, f, next);
      && Planned(t, P) + PlannedIn(P, s.tasks[i]) == Planned(s, P)
      && Held(t, P) + HeldIn(P, s.tasks[i]) == Held(s, P)
      && Past(t, P) + OwedIn(P, s.tasks[i]) == Past(s, P) + ReplyIn(P, f)
  {
    BecomeTally(s.tasks, i, next, P);
    WriteTally(s.session.written, s.upRead, f, P);
  }

  /** A waiting first call that ends in a reply of its own turn. */
  lemma FirstReplyTally(s: State, turns: seq<Turn>, i: nat, f: UpFrame, next: seq<Goroutine>, P: Query)
    requires Pointers(s) && i < |s.tasks| && s.tasks[i].FirstCall?
    requires |next| <= 1 && (next != [] ==> next[0].Speak?)
    requires (f.LlmResult? || f.LlmError?) && f.slot == Some(FirstRound(s.tasks[i].turn))
    ensures var t := Finish(s.(turns := turns), i, f, next);
      var own := Bit(P(FirstRound(s.tasks[i].turn)));
      Held(t, P) == Held(s, P) && Planned(t, P) + own == Planned(s, P) && Past(t, P) == Past(s, P) + own
  {
    FinishTally(s.(turns := turns), i, f, next, P);
  }

  /** The first answer: one reply at once, or one planned slot per tool call. */
  lemma FirstAnswersTally(cfg: Config, s: State, t: State, i: nat, a: FirstAnswer, P: Query)
    requires Pointers(s) && Enabled(s, FirstAnswers(i, a)) && t == ApplyFirst(s, i, a)
    ensures
      var turn := s.tasks[i].turn;
      var own := Bit(P(FirstRound(turn)));
      && Held(t, P) == Held(s, P)
      && Planned(t, P) + own == Planned(s, P) + (if a.Calls? then Range(P, turn, 0, |a.calls|) else 0)
      && Past(t, P) == Past(s, P) + (if a.Calls? then 0 else own)
  {
    var slot := Some(FirstRound(s.tasks[i].turn));
    match a
    case Failed(m) => FirstReplyTally(s, t.turns, i, LlmError(m, slot), [], P);
    case NoChoices => FirstReplyTally(s, t.turns, i, LlmResult("", slot), [], P);
    case Plain(text) => FirstReplyTally(s, t.turns, i, LlmResult(text, slot), [Speak(text, |s.session.written|)], P);
    case Calls(calls) => BecomeTally(s.tasks, i, [Emit(s.tasks[i].turn, calls, 0, false)], P);
  }

  /** Remembering moves exactly one slot from planned to held. */
  lemma RemembersTally(cfg: Config, s: State, t: State, i: nat, P: Query)
    requires Pointers(s) && Enabled(s, Remembers(i)) && t == RememberOne(s, i)
    ensures
      var x := Bit(P(ForCall(CallRef(s.tasks[i].turn, s.tasks[i].next))));
      Planned(t, P) + x == Planned(s, P) && Held(t, P) == Held(s, P) + x && Past(t, P) == Past(s, P)
  {
    var g := s.tasks[i];
    BecomeTally(s.tasks, i, [g.(remembered := true)], P);
    assert PlannedIn(P, g) == Range(P, g.turn, g.next, |g.calls|);
  }

  lemma AfterSendTally(t: Goroutine, P: Query)
    requires t.Emit? && t.remembered && t.next < |t.calls|
    ensures |AfterSend(t)| <= 1
    ensures OfNext(AfterSend(t), PlannedBy(P)) == PlannedIn(P, t)
    ensures OfNext(AfterSend(t), HeldBy(P)) == 0 && OfNext(AfterSend(t), OwedBy(P)) == 0
    ensures HeldIn(P, t) == Bit(P(ForCall(CallRef(t.turn, t.next)))) && OwedIn(P, t) == 0
  {
  }

  /** The frame of a call is either in flight or leaked. */
  lemma SendCommandTally(cfg: Config, s: State, call: ToolCall, ref: CallRef, leaked: seq<CallRef>, P: Query)
    requires Pointers(s)
    requires leaked == if cfg.validJson(call.arguments) then s.leaked else s.leaked + [ref]
    ensures var w := SendCommand(cfg, s.session, call, ref).written;
      && s.upRead <= |w|
      && Sum(InFlight(w, s.upRead), CommandFor(P)) + Sum(leaked, LeakFor(P))
           == Sum(InFlight(s.session.written, s.upRead), CommandFor(P)) + Sum(s.leaked, LeakFor(P)) + Bit(P(ForCall(ref)))
      && Sum(w, ReplyFor(P)) == Sum(s.session.written, ReplyFor(P))
  {
    if cfg.validJson(call.arguments) {
      WriteTally(s.session.written, s.upRead, DeviceCommand(call, ref), P);
    } else {
      SumAppend(s.leaked, ref, LeakFor(P));
    }
  }

  /** What sending does to the parts that hold slots. */
  ghost predicate SendParts(cfg: Config, s: State, t: State, i: nat)
    requires Enabled(s, Sends(i))
  {
    var g := s.tasks[i];
    && t.tasks == Become(s.tasks, i, AfterSend(g))
    && t.session.written == SendCommand(cfg, s.session, g.calls[g.next], CallRef(g.turn, g.next)).written
    && t.leaked == (if cfg.validJson(g.calls[g.next].arguments) then s.leaked else s.leaked + [CallRef(g.turn, g.next)])
    && t.down == s.down && t.downRead == s.downRead && t.upRead == s.upRead
  }

  lemma SendSums(cfg: Config, s: State, t: State, i: nat, P: Query)
    requires Pointers(s) && Enabled(s, Sends(i)) && SendParts(cfg, s, t, i)
    ensures SameTally(s, t, P)
  {
    var g := s.tasks[i];
    AfterSendTally(g, P);
    BecomeTally(s.tasks, i, AfterSend(g), P);
    SendCommandTally(cfg, s, g.calls[g.next], CallRef(g.turn, g.next), t.leaked, P);
  }

  lemma SendsTally(cfg: Config, s: State, t: State, i: nat, P: Query)
    requires Pointers(s) && Enabled(s, Sends(i)) && t == SendOne(cfg, s, i)
    ensures SameTally(s, t, P)
  {
    assert SendParts(cfg, s, t, i);
    SendSums(cfg, s, t, i, P);
  }

  lemma ExecutesTally(cfg: Config, s: State, t: State, i: nat, success: bool, message: string, P: Query)
    requires Pointers(s) && Enabled(s, Executes(i, success, message)) && t == ExecuteOne(s, i, success, message)
    ensures SameTally(s, t, P)
  {
    var g := s.tasks[i];
    BecomeTally(s.tasks, i, [], P);
    SumEnqueue(s.down, s.downRead, CommandResult(g.call.id, success, message, Some(g.ref)), ResultFor(P));
  }

  /** Popping moves exactly the slot of the result, if it has one, from held to past. */
  lemma PopsTally(cfg: Config, s: State, t: State, i: nat, P: Query)
    requires Pointers(s) && Enabled(s, Pops(i)) && t == PopOne(s, i)
    ensures
      var x := RefBit(P, s.tasks[i].origin);
      Planned(t, P) == Planned(s, P) && Held(t, P) + x == Held(s, P) && Past(t, P) == Past(s, P) + x
  {
    var g := s.tasks[i];
    BecomeTally(s.tasks, i, [SecondCall(PopForRequest(s.session, g.toolId, g.success, g.message).1, g.origin)], P);
  }

  lemma SecondAnswersTally(cfg: Config, s: State, t: State, i: nat, reply: Answer<string>, P: Query)
    requires Pointers(s) && Enabled(s, SecondAnswers(i, reply)) && t == AnswerSecond(s, i, reply)
    ensures SameTally(s, t, P)
  {
    var slot := SlotOf(s.tasks[i].origin);
    match reply
    case Failure(m) => FinishTally(s, i, LlmError(m, slot), [], P);
    case Response(text) => FinishTally(s, i, LlmResult(text, slot), [Speak(text, |s.session.written|)], P);
  }

  lemma SpeaksTally(cfg: Config, s: State, t: State, i: nat, ok: bool, P: Query)
    requires Pointers(s) && Enabled(s, Speaks(i, ok)) && t == SpeakOne(cfg, s, i, ok)
    ensures SameTally(s, t, P)
  {
    var g := s.tasks[i];
    BecomeTally(s.tasks, i, [], P);
    FinishTally(s, i, TtsAudio(g.text, g.speaks), [], P);
  }

  /** Every other step leaves all tallies alone. */
  predicate Moves(step: Step) {
    step.WorkerReads? || step.WorkerReadsAsr? || step.FirstAnswers? || step.Remembers? || step.Pops?
  }

  lemma QuietTally(cfg: Config, s: State, t: State, step: Step, P: Query)
    requires Pointers(s) && Enabled(s, step) && t == Apply(cfg, s, step) && !Moves(step)
    ensures SameTally(s, t, P) && |t.turns| == |s.turns|
  {
    match step
    case ClientSends(f) => SumEnqueue(s.down, s.downRead, f, ResultFor(P));
    case AsrConsumes(_) =>
    case ServerReads => ServerReadsTally(cfg, s, t, P);
    case Sends(i) => SendsTally(cfg, s, t, i, P);
    case Executes(i, ok, m) => ExecutesTally(cfg, s, t, i, ok, m, P);
    case SecondAnswers(i, r) => SecondAnswersTally(cfg, s, t, i, r, P);
    case Speaks(i, ok) => SpeaksTally(cfg, s, t, i, ok, P);
  }

  /** The call a step remembers or pops; popping a stray result concerns none. */
  function Subject(s: State, step: Step): Option<CallRef>
    requires Enabled(s, step) && (step.Remembers? || step.Pops?)
  {
    if step.Remembers? then Some(CallRef(s.tasks[step.task].turn, s.tasks[step.task].next)) else s.tasks[step.task].origin
  }

  /** Slots a step moves: from planned to held, from held to past, and, for a first answer,
      from planned to past or from one slot to one per call. */
  ghost function Remembered(s: State, step: Step, P: Query): nat
    requires Enabled(s, step)
  {
    if step.Remembers? then RefBit(P, Subject(s, step)) else 0
  }

  ghost function Popped(s: State, step: Step, P: Query): nat
    requires Enabled(s, step)
  {
    if step.Pops? then RefBit(P, Subject(s, step)) else 0
  }

  ghost function Answered(s: State, step: Step, P: Query): nat
    requires Enabled(s, step)
  {
    if step.FirstAnswers? then Bit(P(FirstRound(s.tasks[step.task].turn))) else 0
  }

  ghost function Asked(s: State, step: Step, P: Query): nat
    requires Enabled(s, step)
  {
    if step.FirstAnswers? && step.answer.Calls? then Range(P, s.tasks[step.task].turn, 0, |step.answer.calls|) else 0
  }

  ghost predicate Tallied(s: State, t: State, step: Step, P: Query)
    requires Enabled(s, step)
  {
    && Planned(t, P) + Remembered(s, step, P) + Answered(s, step, P) == Planned(s, P) + Opened(s, t, P) + Asked(s, step, P)
    && Held(t, P) + Popped(s, step, P) == Held(s, P) + Remembered(s, step, P)
    && Past(t, P) == Past(s, P) + Popped(s, step, P)
         + (if step.FirstAnswers? && !step.answer.Calls? then Answered(s, step, P) else 0)
  }

  lemma AnsweredTally(cfg: Config, s: State, t: State, i: nat, a: FirstAnswer, P: Query)
    requires Pointers(s) && Enabled(s, FirstAnswers(i, a)) && t == ApplyFirst(s, i, a)
    ensures Tallied(s, t, FirstAnswers(i, a), P)
  {
    FirstAnswersTally(cfg, s, t, i, a, P);
    assert |t.turns| == |s.turns|;
  }

  lemma ReadIsTallied(s: State, t: State, step: Step, P: Query)
    requires Enabled(s, step) && (step.WorkerReads? || step.WorkerReadsAsr?)
    requires Held(t, P) == Held(s, P) && Past(t, P) == Past(s, P)
    requires Planned(t, P) == Planned(s, P) + Opened(s, t, P)
    ensures Tallied(s, t, step, P)
  {
  }

  lemma RememberedTally(cfg: Config, s: State, t: State, i: nat, P: Query)
    requires Pointers(s) && Enabled(s, Remembers(i)) && t == RememberOne(s, i)
    ensures Tallied(s, t, Remembers(i), P)
  {
    RemembersTally(cfg, s, t, i, P);
  }

  lemma PoppedTally(cfg: Config, s: State, t: State, i: nat, P: Query)
    requires Pointers(s) && Enabled(s, Pops(i)) && t == PopOne(s, i)
    ensures Tallied(s, t, Pops(i), P)
  {
    PopsTally(cfg, s, t, i, P);
  }

  lemma SameIsTallied(s: State, t: State, step: Step, P: Query)
    requires Enabled(s, step) && !Moves(step) && SameTally(s, t, P) && |t.turns| == |s.turns|
    ensures Tallied(s, t, step, P)
  {
  }

  /** The whole effect of any step on any query. */
  lemma StepTally(cfg: Config, s: State, t: State, step: Step, P: Query)
    requires Pointers(s) && Enabled(s, step) && t == Apply(cfg, s, step)
    ensures Tallied(s, t, step, P)
  {
    if step.WorkerReads? {
      WorkerReadsTally(cfg, s, t, P);
      ReadIsTallied(s, t, step, P);
    } else if step.WorkerReadsAsr? {
      WorkerReadsAsrTally(cfg, s, t, P);
      ReadIsTallied(s, t, step, P);
    } else if step.FirstAnswers? {
      AnsweredTally(cfg, s, t, step.task, step.answer, P);
    } else if step.Remembers? {
      RememberedTally(cfg, s, t, step.task, P);
    } else if step.Pops? {
      PoppedTally(cfg, s, t, step.task, P);
    } else {
      QuietTally(cfg, s, t, step, P);
      SameIsTallied(s, t, step, P);
    }
  }

  // ---- conservation ----

  ghost predicate Balanced(s: State, P: Query) {
    Planned(s, P) + Held(s, P) + Past(s, P) == AllSlots(P, s.turns)
  }

  /** A goroutine waiting for a first answer belongs to an unanswered turn. */
  ghost predicate Waiting(s: State) {
    forall i | 0 <= i < |s.tasks| && s.tasks[i].FirstCall? ::
      s.tasks[i].turn < |s.turns| && s.turns[s.tasks[i].turn].answer.None?
  }

  /** How a step changes the list of turns. */
  lemma TurnsStep(cfg: Config, s: State, t: State, step: Step)
    requires Enabled(s, step) && t == Apply(cfg, s, step)
    ensures step.WorkerReads? || step.WorkerReadsAsr? ==>
      t.turns == s.turns || (|t.turns| == |s.turns| + 1 && t.turns == s.turns + [Turn(t.turns[|s.turns|].text, None)])
    ensures step.FirstAnswers? ==>
      var turn := s.tasks[step.task].turn; t.turns == s.turns[turn := s.turns[turn].(answer := Some(step.answer))]
    ensures !step.WorkerReads? && !step.WorkerReadsAsr? && !step.FirstAnswers? ==> t.turns == s.turns
  {
  }

  lemma OpenedSlots(s: State, t: State, P: Query)
    requires t.turns == s.turns || (|t.turns| == |s.turns| + 1 && t.turns == s.turns + [Turn(t.turns[|s.turns|].text, None)])
    ensures AllSlots(P, t.turns) == AllSlots(P, s.turns) + Opened(s, t, P)
  {
    if t.turns != s.turns {
      AllSlotsAppend(P, s.turns, t.turns[|s.turns|]);
    }
  }

  lemma BalancedStep(cfg: Config, s: State, t: State, step: Step, P: Query)
    requires Pointers(s) && Waiting(s) && Enabled(s, step) && t == Apply(cfg, s, step) && Balanced(s, P)
    ensures Balanced(t, P)
  {
    StepTally(cfg, s, t, step, P);
    TurnsStep(cfg, s, t, step);
    if step.FirstAnswers? {
      var turn := s.tasks[step.task].turn;
      AllSlotsUpdate(P, s.turns, turn, s.turns[turn].(answer := Some(step.answer)));
    } else {
      OpenedSlots(s, t, P);
    }
  }
}
