// The Worker's half of a session (worker/internal/handler/session.go and the sequential
// parts of orchestrate.go and llm.go): values first, then the objects that update them.
module Worker {
  import opened Wire

  /** `validJson` stands for encoding/json's opinion of an argument string. */
  datatype Config = Config(providers: bool, tts: bool, validJson: string -> bool)

  datatype Goroutine =
    | FirstCall(turn: nat, text: string, context: Option<DeviceContext>)          // waits for the first LLM answer
    | Emit(turn: nat, calls: seq<ToolCall>, next: nat, remembered: bool)          // loops over the tool calls
    | HandleResult(toolId: string, success: bool, message: string, origin: Option<CallRef>)  // has not popped its entry yet
    | SecondCall(request: Request, origin: Option<CallRef>)                                  // waits for the second LLM answer
    | Speak(text: string, speaks: nat)                                            // waits for the synthesised audio
    | Execute(call: ToolCall, ref: CallRef)                                       // Server: one device_command handler

  /** The replayed history of a second round, as far as it depends on the session. */
  datatype Request = Request(
    context: Option<DeviceContext>, toolId: string, name: string, arguments: string, content: string)

  /** The session fields, plus everything written to the upstream connection so far. */
  datatype Session = Session(
    context: Option<DeviceContext>, toolCalls: map<string, Pending>, written: seq<UpFrame>)

  /** Effect of one frame read from the Server. */
  datatype Reaction = Reaction(session: Session, spawned: seq<Goroutine>, forwarded: seq<AsrFrame>)

  function Write(s: Session, f: UpFrame): Session {
    s.(written := s.written + [f])
  }

  function Remember(m: map<string, Pending>, call: ToolCall): map<string, Pending> {
    m[call.id := Pending(call.name, call.arguments)]
  }

  /** The cached call, or the safe default when there is none. */
  function Lookup(m: map<string, Pending>, toolId: string): Pending {
    if toolId in m then m[toolId] else Pending(CONTROL_DEVICE, EMPTY_ARGUMENTS)
  }

  function ReplayName(p: Pending): string {
    if p.name == "" then CONTROL_DEVICE else p.name
  }

  function ReplayArguments(p: Pending): string {
    if p.arguments == "" then EMPTY_ARGUMENTS else p.arguments
  }

  function ResultContent(success: bool, message: string): string {
    if !success then "执行失败: " + message
    else if message != "" then message
    else "执行成功"
  }

  function Translate(e: AsrEvent): UpFrame {
    match e
    case Partial(text) => AsrPartial(text)
    case Final(text) => AsrFinal(text)
    case _ => AsrRaw(e)
  }

  /** handleUpstreamControl, and the pass-through of everything it does not consume. */
  function React(cfg: Config, s: Session, f: DownFrame, turn: nat): Reaction {
    match f
    case Ping => Reaction(Write(s, Pong), [], [])
    case DeviceInfo(info) => Reaction(if info.Some? then s.(context := info) else s, [], [])
    case BadResult => Reaction(s, [], [])
    case CommandResult(toolId, success, message, origin) =>
      Reaction(s, [HandleResult(toolId, success, message, origin)], [])
    case TextInput(text) =>
      if text == "" then
        Reaction(Write(s, LlmResult("", None)), [], [])
      else
        var echoed := Write(s, AsrFinal(text));
        if cfg.providers then
          Reaction(echoed, [FirstCall(turn, text, s.context)], [])
        else
          Reaction(Write(echoed, LlmError("LLM 未配置", None)), [], [])
    case Media(frame) => Reaction(s, [], [frame])
  }

  /** pumpASRToUpstream on one event, with maybeTriggerLLM. */
  function ReactToAsr(cfg: Config, s: Session, e: AsrEvent, turn: nat): Reaction {
    var echoed := Write(s, Translate(e));
    if !cfg.providers || !e.Final? then
      Reaction(echoed, [], [])
    else if e.text == "" then
      Reaction(Write(echoed, LlmResult("", None)), [], [])
    else
      Reaction(echoed, [FirstCall(turn, e.text, s.context)], [])
  }

  /** A tool call whose arguments are not JSON is remembered, but its frame cannot be encoded. */
  function SendCommand(cfg: Config, s: Session, call: ToolCall, ref: CallRef): Session {
    if cfg.validJson(call.arguments) then Write(s, DeviceCommand(call, ref)) else s
  }

  /** Popping the cached call and building the second-round request. */
  function PopForRequest(s: Session, toolId: string, success: bool, message: string): (Session, Request) {
    var pending := Lookup(s.toolCalls, toolId);
    (s.(toolCalls := s.toolCalls - {toolId}),
     Request(s.context, toolId, ReplayName(pending), ReplayArguments(pending), ResultContent(success, message)))
  }

  /** The whole tool-call loop of one first round, with nothing interleaved. */
  function EmitAll(cfg: Config, s: Session, turn: nat, calls: seq<ToolCall>): Session {
    if calls == [] then s
    else
      var n := |calls| - 1;
      var before := EmitAll(cfg, s, turn, calls[..n]);
      SendCommand(cfg, before.(toolCalls := Remember(before.toolCalls, calls[n])), calls[n], CallRef(turn, n))
  }

  predicate Names(calls: seq<ToolCall>, id: string) {
    exists i :: 0 <= i < |calls| && calls[i].id == id
  }

  /** Every call of the round ends in the pending map, under the last call with its id;
      the other entries and the context are untouched. */
  lemma {:induction false} EmitAllCaches(cfg: Config, s: Session, turn: nat, calls: seq<ToolCall>, id: string)
    ensures EmitAll(cfg, s, turn, calls).context == s.context
    ensures var m := EmitAll(cfg, s, turn, calls).toolCalls;
      if Names(calls, id) then
        && id in m
        && exists i :: && 0 <= i < |calls| && calls[i].id == id && !Names(calls[i + 1..], id)
                       && m[id] == Pending(calls[i].name, calls[i].arguments)
      else
        && (id in m <==> id in s.toolCalls)
        && (id in m ==> m[id] == s.toolCalls[id])
  {
    if calls != [] {
      var n := |calls| - 1;
      var front := calls[..n];
      EmitAllCaches(cfg, s, turn, front, id);
      var m0 := EmitAll(cfg, s, turn, front).toolCalls;
      var m := EmitAll(cfg, s, turn, calls).toolCalls;
      assert m == Remember(m0, calls[n]);
      if calls[n].id == id {
        assert calls[n + 1..] == [];
      } else if Names(front, id) {
        var i :| && 0 <= i < n && front[i].id == id && !Names(front[i + 1..], id)
                 && m0[id] == Pending(front[i].name, front[i].arguments);
        assert calls[i].id == id;
        var rest := calls[i + 1..];
        forall j | 0 <= j < |rest| ensures rest[j].id != id {
          if j < n - i - 1 { assert front[i + 1..][j] == rest[j]; }
        }
      } else {
        forall i | 0 <= i < |calls| ensures calls[i].id != id {
          if i < n { assert front[i] == calls[i]; }
        }
      }
    }
  }

  /** A frame sent for one of these calls, tagged with its position. */
  predicate IsCallFrame(cfg: Config, turn: nat, calls: seq<ToolCall>, f: UpFrame) {
    && f.DeviceCommand? && f.ref.turn == turn && f.ref.index < |calls|
    && f.call == calls[f.ref.index] && cfg.validJson(f.call.arguments)
  }

  ghost predicate OnlyCalls(cfg: Config, turn: nat, calls: seq<ToolCall>, frames: seq<UpFrame>) {
    forall i | 0 <= i < |frames| :: IsCallFrame(cfg, turn, calls, frames[i])
  }

  ghost predicate AllCalls(cfg: Config, turn: nat, calls: seq<ToolCall>, frames: seq<UpFrame>) {
    forall i | 0 <= i < |calls| && cfg.validJson(calls[i].arguments) :: DeviceCommand(calls[i], CallRef(turn, i)) in frames
  }

  ghost predicate Ascending(frames: seq<UpFrame>) {
    && (forall i | 0 <= i < |frames| :: frames[i].DeviceCommand?)
    && forall i, j | 0 <= i < j < |frames| :: frames[i].ref.index < frames[j].ref.index
  }

  /** The frames of a round: exactly the encodable calls, each once, in order. */
  ghost predicate SendsOf(cfg: Config, turn: nat, calls: seq<ToolCall>, frames: seq<UpFrame>) {
    OnlyCalls(cfg, turn, calls, frames) && AllCalls(cfg, turn, calls, frames) && Ascending(frames)
  }

  function WithLast(cfg: Config, turn: nat, calls: seq<ToolCall>, frames: seq<UpFrame>): seq<UpFrame>
    requires calls != []
  {
    var n := |calls| - 1;
    if cfg.validJson(calls[n].arguments) then frames + [DeviceCommand(calls[n], CallRef(turn, n))] else frames
  }

  lemma OnlyCallsGrows(cfg: Config, turn: nat, calls: seq<ToolCall>, frames: seq<UpFrame>)
    requires calls != [] && OnlyCalls(cfg, turn, calls[..|calls| - 1], frames)
    ensures OnlyCalls(cfg, turn, calls, WithLast(cfg, turn, calls, frames))
  {
    forall i | 0 <= i < |frames| ensures IsCallFrame(cfg, turn, calls, frames[i]) {
      assert IsCallFrame(cfg, turn, calls[..|calls| - 1], frames[i]);
    }
  }

  lemma AllCallsGrows(cfg: Config, turn: nat, calls: seq<ToolCall>, frames: seq<UpFrame>)
    requires calls != [] && AllCalls(cfg, turn, calls[..|calls| - 1], frames)
    ensures AllCalls(cfg, turn, calls, WithLast(cfg, turn, calls, frames))
  {
    var n := |calls| - 1;
    forall i | 0 <= i < |calls| && cfg.validJson(calls[i].arguments)
      ensures DeviceCommand(calls[i], CallRef(turn, i)) in WithLast(cfg, turn, calls, frames)
    {
      if i < n { assert calls[..n][i] == calls[i]; }
    }
  }

  lemma AscendingGrows(cfg: Config, turn: nat, calls: seq<ToolCall>, frames: seq<UpFrame>)
    requires calls != [] && Ascending(frames) && OnlyCalls(cfg, turn, calls[..|calls| - 1], frames)
    ensures Ascending(WithLast(cfg, turn, calls, frames))
  {
    forall i | 0 <= i < |frames| ensures frames[i].DeviceCommand? && frames[i].ref.index < |calls| - 1 {
      assert IsCallFrame(cfg, turn, calls[..|calls| - 1], frames[i]);
    }
  }

  lemma {:induction false} EmitAllSends(cfg: Config, s: Session, turn: nat, calls: seq<ToolCall>)
    ensures var w := EmitAll(cfg, s, turn, calls).written;
      s.written <= w && SendsOf(cfg, turn, calls, w[|s.written|..])
  {
    if calls != [] {
      var n := |calls| - 1;
      EmitAllSends(cfg, s, turn, calls[..n]);
      var before := EmitAll(cfg, s, turn, calls[..n]).written;
      var w := EmitAll(cfg, s, turn, calls).written;
      var frames := before[|s.written|..];
      assert w[|s.written|..] == WithLast(cfg, turn, calls, frames);
      OnlyCallsGrows(cfg, turn, calls, frames);
      AllCallsGrows(cfg, turn, calls, frames);
      AscendingGrows(cfg, turn, calls, frames);
    }
  }

  /** Session of session.go.  Each method is one critical section of the original. */
  class SessionObject {
    var context: Option<DeviceContext>
    var toolCalls: map<string, Pending>
    var written: seq<UpFrame>

    ghost function Value(): Session
      reads this
    {
      Session(context, toolCalls, written)
    }

    constructor ()
      ensures Value() == Session(None, map[], [])
    {
      context, toolCalls, written := None, map[], [];
    }

    method WriteFrame(f: UpFrame)
      modifies this`written
      ensures written == old(written) + [f]
    {
      written := written + [f];
    }

    /** None when the frame does not parse: the old context stays. */
    method SetDeviceContext(info: Option<DeviceContext>)
      modifies this`context
      ensures context == if info.Some? then info else old(context)
    {
      if info.None? {
        return;
      }
      context := info;
    }

    method RememberToolCall(call: ToolCall)
      modifies this`toolCalls
      ensures call.id in toolCalls && toolCalls[call.id] == Pending(call.name, call.arguments)
      ensures toolCalls.Keys == old(toolCalls.Keys) + {call.id}
      ensures forall k | k in old(toolCalls) && k != call.id :: toolCalls[k] == old(toolCalls)[k]
    {
      toolCalls := toolCalls[call.id := Pending(call.name, call.arguments)];
    }

    /** None when nothing is cached under this id: stray or repeated results. */
    method PopToolCall(toolId: string) returns (popped: Option<Pending>)
      modifies this`toolCalls
      ensures popped == if toolId in old(toolCalls) then Some(old(toolCalls)[toolId]) else None
      ensures toolCalls == old(toolCalls) - {toolId}
    {
      if toolId in toolCalls {
        popped := Some(toolCalls[toolId]);
        toolCalls := map k | k in toolCalls && k != toolId :: toolCalls[k];
      } else {
        popped := None;
        assert toolCalls - {toolId} == toolCalls;
      }
    }

    /** One iteration of pumpUpstreamToASR. */
    method HandleUpstream(cfg: Config, f: DownFrame, turn: nat)
      returns (spawned: seq<Goroutine>, forwarded: seq<AsrFrame>)
      modifies this
      ensures Reaction(Value(), spawned, forwarded) == React(cfg, old(Value()), f, turn)
      ensures toolCalls == old(toolCalls)
      ensures context == if f.DeviceInfo? && f.info.Some? then f.info else old(context)
      ensures forwarded == if f.Media? then [f.frame] else []
      ensures f.CommandResult? ==> spawned == [HandleResult(f.toolId, f.success, f.message, f.origin)]
      ensures f.TextInput? && f.text != "" && cfg.providers ==> spawned == [FirstCall(turn, f.text, old(context))]
      ensures !f.CommandResult? && !(f.TextInput? && f.text != "" && cfg.providers) ==> spawned == []
      ensures f.Ping? ==> written == old(written) + [Pong]
      ensures f == TextInput("") ==> written == old(written) + [LlmResult("", None)]
      ensures f.TextInput? && f.text != "" && cfg.providers ==> written == old(written) + [AsrFinal(f.text)]
      ensures f.TextInput? && f.text != "" && !cfg.providers ==>
        written == old(written) + [AsrFinal(f.text), LlmError("LLM 未配置", None)]
      ensures !f.Ping? && !f.TextInput? ==> written == old(written)
    {
      spawned, forwarded := [], [];
      match f
      case Ping =>
        WriteFrame(Pong);
      case DeviceInfo(info) =>
        SetDeviceContext(info);
      case BadResult =>
      case CommandResult(toolId, success, message, origin) =>
        spawned := [HandleResult(toolId, success, message, origin)];
      case TextInput(text) =>
        if text == "" {
          WriteFrame(LlmResult("", None));
          return;
        }
        WriteFrame(AsrFinal(text));
        if cfg.providers {
          spawned := [FirstCall(turn, text, context)];
        } else {
          WriteFrame(LlmError("LLM 未配置", None));
        }
      case Media(frame) =>
        forwarded := [frame];
    }

    /** One iteration of pumpASRToUpstream. */
    method HandleAsrEvent(cfg: Config, e: AsrEvent, turn: nat) returns (spawned: seq<Goroutine>)
      modifies this
      ensures Reaction(Value(), spawned, []) == ReactToAsr(cfg, old(Value()), e, turn)
      ensures toolCalls == old(toolCalls) && context == old(context)
      ensures spawned ==
        if cfg.providers && e.Final? && e.text != "" then [FirstCall(turn, e.text, old(context))] else []
      ensures e.Partial? ==> written == old(written) + [AsrPartial(e.text)]
      ensures e.Final? && !(cfg.providers && e.text == "") ==> written == old(written) + [AsrFinal(e.text)]
      ensures e.Final? && cfg.providers && e.text == "" ==>
        written == old(written) + [AsrFinal(""), LlmResult("", None)]
      ensures !e.Partial? && !e.Final? ==> written == old(written) + [AsrRaw(e)]
    {
      spawned := [];
      WriteFrame(Translate(e));
      if cfg.providers && e.Final? {
        if e.text == "" {
          WriteFrame(LlmResult("", None));
        } else {
          spawned := [FirstCall(turn, e.text, context)];
        }
      }
    }

    /** The tool-call loop of handleLLMWithTools. */
    method EmitToolCalls(cfg: Config, turn: nat, calls: seq<ToolCall>)
      modifies this
      ensures Value() == EmitAll(cfg, old(Value()), turn, calls)
    {
      for i := 0 to |calls|
        invariant Value() == EmitAll(cfg, old(Value()), turn, calls[..i])
      {
        assert calls[..i + 1][..i] == calls[..i];
        RememberToolCall(calls[i]);
        assert toolCalls == Remember(EmitAll(cfg, old(Value()), turn, calls[..i]).toolCalls, calls[i]);
        if cfg.validJson(calls[i].arguments) {
          WriteFrame(DeviceCommand(calls[i], CallRef(turn, i)));
        }
      }
      assert calls[..|calls|] == calls;
    }

    /** handleCommandResult up to the second LLM call. */
    method BeginSecondRound(toolId: string, success: bool, message: string) returns (request: Request)
      modifies this
      ensures (Value(), request) == PopForRequest(old(Value()), toolId, success, message)
      ensures toolCalls == old(toolCalls) - {toolId} && context == old(context) && written == old(written)
      ensures request.toolId == toolId && request.context == old(context)
      ensures toolId in old(toolCalls) && old(toolCalls)[toolId].name != "" ==>
        request.name == old(toolCalls)[toolId].name
      ensures toolId !in old(toolCalls) || old(toolCalls)[toolId].name == "" ==> request.name == "control_device"
      ensures toolId in old(toolCalls) && old(toolCalls)[toolId].arguments != "" ==>
        request.arguments == old(toolCalls)[toolId].arguments
      ensures toolId !in old(toolCalls) || old(toolCalls)[toolId].arguments == "" ==> request.arguments == "{}"
      ensures !success ==> request.content == "执行失败: " + message
      ensures success && message != "" ==> request.content == message
      ensures success && message == "" ==> request.content == "执行成功"
    {
      var popped := PopToolCall(toolId);
      var pending := if popped.Some? then popped.value else Pending(CONTROL_DEVICE, EMPTY_ARGUMENTS);
      var content := "执行成功";
      if !success {
        content := "执行失败: " + message;
      } else if message != "" {
        content := message;
      }
      var arguments := if pending.arguments == "" then EMPTY_ARGUMENTS else pending.arguments;
      var name := if pending.name == "" then CONTROL_DEVICE else pending.name;
      request := Request(context, toolId, name, arguments, content);
    }
  }

  // ---- postLLMWithFallback ----

  /** One provider's answer: a response or an error text. */
  datatype Answer<+R> = Response(value: R) | Failure(error: string)

  const NO_PROVIDER := "no llm provider configured"

  /** The first provider that answers wins; otherwise the last error is reported. */
  method PostWithFallback<R>(answers: seq<Answer<R>>) returns (result: Answer<R>, asked: nat)
    ensures asked <= |answers|
    ensures result.Response? ==> asked > 0 && answers[asked - 1] == result
    ensures result.Response? ==> forall i | 0 <= i < asked - 1 :: answers[i].Failure?
    ensures result.Failure? ==> asked == |answers| && forall i | 0 <= i < |answers| :: answers[i].Failure?
    ensures result.Failure? && answers == [] ==> result.error == NO_PROVIDER
    ensures result.Failure? && answers != [] ==>
      result.error == "all llm providers failed: " + answers[|answers| - 1].error
  {
    if answers == [] {
      return Failure(NO_PROVIDER), 0;
    }
    var lastError := "";
    for i := 0 to |answers|
      invariant forall j | 0 <= j < i :: answers[j].Failure?
      invariant i > 0 ==> lastError == answers[i - 1].error
    {
      match answers[i]
      case Response(_) => return answers[i], i + 1;
      case Failure(error) => lastError := error;
    }
    return Failure("all llm providers failed: " + lastError), |answers|;
  }
}
