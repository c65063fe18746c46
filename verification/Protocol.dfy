// One voice session as a state machine: the Worker's and the Server's goroutines, the two
// FIFO connections between them and the ASR service, with every interleaving.  The LLM,
// the ASR service, command execution and speech synthesis are oracles.  One iteration of a
// reading loop is one step, and so is a handler's pop with the snapshot that follows it.
module Protocol {
  import opened Wire
  import opened Worker

  datatype FirstAnswer =
    | Failed(message: string)
    | NoChoices
    | Plain(text: string)
    | Calls(calls: seq<ToolCall>)

  /** History of one trigger: its text and, once given, the first-round answer.  Enabled asks
      that a waiting goroutine's turn exists, which it always does. */
  datatype Turn = Turn(text: string, answer: Option<FirstAnswer>)

  /** History of one second round: what was replayed, and whether an entry was found. */
  datatype SecondRound = SecondRound(origin: Option<CallRef>, request: Request, found: bool)

  datatype State = State(
    session: Session,                         // session.written is the Worker to Server connection
    upRead: nat,                              // how much of it the Server has read
    down: seq<DownFrame>, downRead: nat,      // Server to Worker
    asrIn: seq<AsrFrame>, asrInRead: nat,     // Worker to ASR
    asrOut: seq<AsrEvent>, asrOutRead: nat,   // ASR to Worker
    client: seq<UpFrame>,                     // Server to furniture
    tasks: seq<Goroutine>,                    // running goroutines of both processes
    turns: seq<Turn>,
    seconds: seq<SecondRound>,
    snapshots: seq<Option<DeviceContext>>,    // every context handed to an LLM call
    leaked: seq<CallRef>)                     // calls whose frame could not be encoded

  datatype Step =
    | ClientSends(frame: DownFrame)
    | WorkerReads
    | AsrConsumes(events: seq<AsrEvent>)
    | WorkerReadsAsr
    | ServerReads
    | FirstAnswers(task: nat, answer: FirstAnswer)
    | Remembers(task: nat)
    | Sends(task: nat)
    | Executes(task: nat, success: bool, message: string)
    | Pops(task: nat)
    | SecondAnswers(task: nat, reply: Answer<string>)
    | Speaks(task: nat, ok: bool)

  /** The session as pump starts: the context push has been written, or has failed. */
  function Init(pushed: Option<DeviceContext>): State {
    State(Session(None, map[], []), 0,
          if pushed.Some? then [DeviceInfo(pushed)] else [], 0,
          [], 0, [Ready], 0, [], [], [], [], [], [])
  }

  /** The Server passes on whatever the client sends; a result of the client's own is nobody's. */
  predicate Enabled(s: State, step: Step) {
    match step
    case ClientSends(f) => f.CommandResult? ==> f.origin.None?
    case WorkerReads => s.downRead < |s.down|
    case AsrConsumes(_) => s.asrInRead < |s.asrIn|
    case WorkerReadsAsr => s.asrOutRead < |s.asrOut|
    case ServerReads => s.upRead < |s.session.written|
    case FirstAnswers(i, a) =>
      i < |s.tasks| && s.tasks[i].FirstCall? && s.tasks[i].turn < |s.turns| && (a.Calls? ==> a.calls != [])
    case Remembers(i) =>
      i < |s.tasks| && s.tasks[i].Emit? && !s.tasks[i].remembered && s.tasks[i].next < |s.tasks[i].calls|
    case Sends(i) =>
      i < |s.tasks| && s.tasks[i].Emit? && s.tasks[i].remembered && s.tasks[i].next < |s.tasks[i].calls|
    case Executes(i, _, _) => i < |s.tasks| && s.tasks[i].Execute?
    case Pops(i) => i < |s.tasks| && s.tasks[i].HandleResult?
    case SecondAnswers(i, _) => i < |s.tasks| && s.tasks[i].SecondCall?
    case Speaks(i, _) => i < |s.tasks| && s.tasks[i].Speak?
  }

  function Become(tasks: seq<Goroutine>, i: nat, next: seq<Goroutine>): seq<Goroutine>
    requires i < |tasks|
  {
    tasks[..i] + next + tasks[i + 1..]
  }

  /** A reaction starts at most one goroutine; starting a first call opens a turn. */
  function Absorb(s: State, r: Reaction): State {
    var triggered := r.spawned != [] && r.spawned[0].FirstCall?;
    s.(session := r.session,
       tasks := s.tasks + r.spawned,
       asrIn := s.asrIn + r.forwarded,
       turns := if triggered then s.turns + [Turn(r.spawned[0].text, None)] else s.turns,
       snapshots := if triggered then s.snapshots + [r.spawned[0].context] else s.snapshots)
  }

  function Finish(s: State, i: nat, f: UpFrame, next: seq<Goroutine>): State
    requires i < |s.tasks|
  {
    s.(session := Write(s.session, f), tasks := Become(s.tasks, i, next))
  }

  /** handleLLMWithTools on its answer, up to the tool-call loop. */
  function ApplyFirst(s: State, i: nat, a: FirstAnswer): State
    requires Enabled(s, FirstAnswers(i, a))
  {
    var turn := s.tasks[i].turn;
    var s1 := s.(turns := s.turns[turn := s.turns[turn].(answer := Some(a))]);
    var slot := Some(FirstRound(turn));
    match a
    case Failed(m) => Finish(s1, i, LlmError(m, slot), [])
    case NoChoices => Finish(s1, i, LlmResult("", slot), [])
    case Plain(text) => Finish(s1, i, LlmResult(text, slot), [Speak(text, |s.session.written|)])
    case Calls(calls) => s1.(tasks := Become(s.tasks, i, [Emit(turn, calls, 0, false)]))
  }

  function WorkerRead(cfg: Config, s: State): State
    requires Enabled(s, WorkerReads)
  {
    Absorb(s, React(cfg, s.session, s.down[s.downRead], |s.turns|)).(downRead := s.downRead + 1)
  }

  function WorkerReadAsr(cfg: Config, s: State): State
    requires Enabled(s, WorkerReadsAsr)
  {
    Absorb(s, ReactToAsr(cfg, s.session, s.asrOut[s.asrOutRead], |s.turns|)).(asrOutRead := s.asrOutRead + 1)
  }

  /** The Server keeps device commands for itself and passes everything else on. */
  function ServerRead(s: State): State
    requires Enabled(s, ServerReads)
  {
    var f := s.session.written[s.upRead];
    if f.DeviceCommand? then
      s.(upRead := s.upRead + 1, tasks := s.tasks + [Execute(f.call, f.ref)])
    else
      s.(upRead := s.upRead + 1, client := s.client + [f])
  }

  function RememberOne(s: State, i: nat): State
    requires Enabled(s, Remembers(i))
  {
    var g := s.tasks[i];
    s.(session := s.session.(toolCalls := Remember(s.session.toolCalls, g.calls[g.next])),
       tasks := Become(s.tasks, i, [g.(remembered := true)]))
  }

  /** What the emitting goroutine becomes once the frame of its current call is dealt with. */
  function AfterSend(g: Goroutine): seq<Goroutine>
    requires g.Emit?
  {
    if g.next + 1 == |g.calls| then [] else [Emit(g.turn, g.calls, g.next + 1, false)]
  }

  function SendOne(cfg: Config, s: State, i: nat): State
    requires Enabled(s, Sends(i))
  {
    var g := s.tasks[i];
    var ref := CallRef(g.turn, g.next);
    s.(session := SendCommand(cfg, s.session, g.calls[g.next], ref),
       tasks := Become(s.tasks, i, AfterSend(g)),
       leaked := if cfg.validJson(g.calls[g.next].arguments) then s.leaked else s.leaked + [ref])
  }

  /** handleDeviceCommand, as far as the Worker sees it. */
  function ExecuteOne(s: State, i: nat, success: bool, message: string): State
    requires Enabled(s, Executes(i, success, message))
  {
    var g := s.tasks[i];
    s.(down := s.down + [CommandResult(g.call.id, success, message, Some(g.ref))],
       tasks := Become(s.tasks, i, []))
  }

  function PopOne(s: State, i: nat): State
    requires Enabled(s, Pops(i))
  {
    var g := s.tasks[i];
    var (session, request) := PopForRequest(s.session, g.toolId, g.success, g.message);
    s.(session := session,
       tasks := Become(s.tasks, i, [SecondCall(request, g.origin)]),
       snapshots := s.snapshots + [s.session.context],
       seconds := s.seconds + [SecondRound(g.origin, request, g.toolId in s.session.toolCalls)])
  }

  /** The slot a result's second round answers; a stray result has none. */
  function SlotOf(origin: Option<CallRef>): Option<Slot> {
    if origin.Some? then Some(ForCall(origin.value)) else None
  }

  /** handleCommandResult on its answer. */
  function AnswerSecond(s: State, i: nat, reply: Answer<string>): State
    requires Enabled(s, SecondAnswers(i, reply))
  {
    var slot := SlotOf(s.tasks[i].origin);
    match reply
    case Failure(m) => Finish(s, i, LlmError(m, slot), [])
    case Response(text) => Finish(s, i, LlmResult(text, slot), [Speak(text, |s.session.written|)])
  }

  /** synthesizeAndSendTTS: failures and empty texts are silent. */
  function SpeakOne(cfg: Config, s: State, i: nat, ok: bool): State
    requires Enabled(s, Speaks(i, ok))
  {
    var g := s.tasks[i];
    if cfg.tts && g.text != "" && ok then Finish(s, i, TtsAudio(g.text, g.speaks), [])
    else s.(tasks := Become(s.tasks, i, []))
  }

  function Apply(cfg: Config, s: State, step: Step): State
    requires Enabled(s, step)
  {
    match step
    case ClientSends(f) => s.(down := s.down + [f])
    case WorkerReads => WorkerRead(cfg, s)
    case AsrConsumes(events) => s.(asrInRead := s.asrInRead + 1, asrOut := s.asrOut + events)
    case WorkerReadsAsr => WorkerReadAsr(cfg, s)
    case ServerReads => ServerRead(s)
    case FirstAnswers(i, a) => ApplyFirst(s, i, a)
    case Remembers(i) => RememberOne(s, i)
    case Sends(i) => SendOne(cfg, s, i)
    case Executes(i, success, message) => ExecuteOne(s, i, success, message)
    case Pops(i) => PopOne(s, i)
    case SecondAnswers(i, reply) => AnswerSecond(s, i, reply)
    case Speaks(i, ok) => SpeakOne(cfg, s, i, ok)
  }

  /** A run of the session: its states and the steps between them. */
  ghost predicate IsRun(cfg: Config, pushed: Option<DeviceContext>, states: seq<State>, steps: seq<Step>) {
    && |states| == |steps| + 1
    && states[0] == Init(pushed)
    && forall i | 0 <= i < |steps| ::
         Enabled(states[i], steps[i]) && states[i + 1] == Apply(cfg, states[i], steps[i])
  }

  /** Nothing running, nothing in flight. */
  predicate Quiescent(s: State) {
    && s.tasks == []
    && s.upRead == |s.session.written|
    && s.downRead == |s.down|
  }

  // ---- the calls an LLM asked for ----

  predicate ValidRef(turns: seq<Turn>, ref: CallRef) {
    && ref.turn < |turns|
    && turns[ref.turn].answer.Some?
    && turns[ref.turn].answer.value.Calls?
    && ref.index < |turns[ref.turn].answer.value.calls|
  }

  /** The tool call a reference stands for. */
  function CallOf(turns: seq<Turn>, ref: CallRef): ToolCall
    requires ValidRef(turns, ref)
  {
    turns[ref.turn].answer.value.calls[ref.index]
  }
}
