// What a session says and starts, stated without the functions that decide it: which texts
// start an LLM call, which frames are written, and which answers they carry.
module ProtocolTrace {
  import opened Wire
  import opened Worker
  import opened Protocol
  import opened ProtocolTransport

  // ---- one step at a time ----

  const NOT_CONFIGURED := "LLM 未配置"

  /** The name under which an event is passed on. */
  function Renamed(e: AsrEvent): UpFrame {
    match e
    case Ready => AsrRaw(Ready)
    case Partial(text) => AsrPartial(text)
    case Final(text) => AsrFinal(text)
    case Eos => AsrRaw(Eos)
    case AsrPong => AsrRaw(AsrPong)
    case Error(message) => AsrRaw(Error(message))
  }

  /** What the Worker passes on or answers itself. */
  function EchoOf(f: DownFrame): seq<UpFrame> {
    match f
    case Ping => [Pong]
    case TextInput(text) => if text == "" then [] else [AsrFinal(text)]
    case _ => []
  }

  /** The immediate replies: to an empty text, and to any text without a provider. */
  function InstantToText(cfg: Config, f: DownFrame): seq<UpFrame> {
    match f
    case TextInput(text) =>
      if text == "" then [LlmResult("", None)] else if cfg.providers then [] else [LlmError(NOT_CONFIGURED, None)]
    case _ => []
  }

  function InstantToFinal(cfg: Config, e: AsrEvent): seq<UpFrame> {
    if cfg.providers && e == Final("") then [LlmResult("", None)] else []
  }

  function InstantTexts(cfg: Config): DownFrame -> seq<UpFrame> { f => InstantToText(cfg, f) }
  function InstantFinals(cfg: Config): AsrEvent -> seq<UpFrame> { e => InstantToFinal(cfg, e) }

  function FirstReply(turn: nat, a: FirstAnswer): seq<UpFrame> {
    match a
    case Failed(message) => [LlmError(message, Some(FirstRound(turn)))]
    case NoChoices => [LlmResult("", Some(FirstRound(turn)))]
    case Plain(text) => [LlmResult(text, Some(FirstRound(turn)))]
    case Calls(_) => []
  }

  function SecondReply(slot: Option<Slot>, reply: Answer<string>): UpFrame {
    match reply
    case Response(text) => LlmResult(text, slot)
    case Failure(message) => LlmError(message, slot)
  }

  /** Everything one step writes, in order. */
  function Says(cfg: Config, s: State, step: Step): seq<UpFrame>
    requires Enabled(s, step)
  {
    match step
    case WorkerReads => EchoOf(s.down[s.downRead]) + InstantToText(cfg, s.down[s.downRead])
    case WorkerReadsAsr => [Renamed(s.asrOut[s.asrOutRead])] + InstantToFinal(cfg, s.asrOut[s.asrOutRead])
    case FirstAnswers(i, a) => FirstReply(s.tasks[i].turn, a)
    case Sends(i) =>
      var g := s.tasks[i];
      if cfg.validJson(g.calls[g.next].arguments) then [DeviceCommand(g.calls[g.next], CallRef(g.turn, g.next))] else []
    case SecondAnswers(i, reply) =>
      var origin := s.tasks[i].origin;
      [SecondReply(if origin.Some? then Some(ForCall(origin.value)) else None, reply)]
    case Speaks(i, ok) =>
      var g := s.tasks[i];
      if ok && cfg.tts && g.text != "" then [TtsAudio(g.text, g.speaks)] else []
    case _ => []
  }

  /** The text a step starts an LLM call with. */
  function Starts(cfg: Config, s: State, step: Step): seq<string>
    requires Enabled(s, step)
  {
    if !cfg.providers then []
    else
      match step
      case WorkerReads => (match s.down[s.downRead] case TextInput(text) => NonEmpty(text) case _ => [])
      case WorkerReadsAsr => (match s.asrOut[s.asrOutRead] case Final(text) => NonEmpty(text) case _ => [])
      case _ => []
  }

  function NonEmpty(text: string): seq<string> {
    if text == "" then [] else [text]
  }

  lemma ReadingSays(cfg: Config, s: Session, f: DownFrame, e: AsrEvent, turn: nat)
    ensures React(cfg, s, f, turn).session.written == s.written + (EchoOf(f) + InstantToText(cfg, f))
    ensures ReactToAsr(cfg, s, e, turn).session.written == s.written + ([Renamed(e)] + InstantToFinal(cfg, e))
  {
  }

  lemma SaysStep(cfg: Config, s: State, t: State, step: Step)
    requires Enabled(s, step) && t == Apply(cfg, s, step)
    ensures t.session.written == s.session.written + Says(cfg, s, step)
  {
    match step
    case WorkerReads => ReadingSays(cfg, s.session, s.down[s.downRead], Ready, |s.turns|);
    case WorkerReadsAsr => ReadingSays(cfg, s.session, Ping, s.asrOut[s.asrOutRead], |s.turns|);
    case FirstAnswers(i, a) =>
    case SecondAnswers(i, reply) =>
    case _ =>
  }

  function TurnTexts(turns: seq<Turn>): seq<string> {
    seq(|turns|, i requires 0 <= i < |turns| => turns[i].text)
  }

  lemma StartsStep(cfg: Config, s: State, t: State, step: Step)
    requires Enabled(s, step) && t == Apply(cfg, s, step)
    ensures TurnTexts(t.turns) == TurnTexts(s.turns) + Starts(cfg, s, step)
  {
  }

  /** Everything the steps of a run say, in order. */
  ghost function Story(cfg: Config, states: seq<State>, steps: seq<Step>, k: nat): seq<UpFrame>
    requires |states| == |steps| + 1 && k <= |steps|
    requires forall i | 0 <= i < |steps| :: Enabled(states[i], steps[i])
  {
    if k == 0 then [] else Story(cfg, states, steps, k - 1) + Says(cfg, states[k - 1], steps[k - 1])
  }

  /** The frames written to the Server are exactly what the steps say, in order. */
  lemma {:induction false} WrittenIsStory(
    cfg: Config, pushed: Option<DeviceContext>, states: seq<State>, steps: seq<Step>, k: nat)
    requires IsRun(cfg, pushed, states, steps) && k < |states|
    ensures states[k].session.written == Story(cfg, states, steps, k)
  {
    if k > 0 {
      WrittenIsStory(cfg, pushed, states, steps, k - 1);
      SaysStep(cfg, states[k - 1], states[k], steps[k - 1]);
    }
  }

  /** A step that starts a call opens the next turn, with the session's context. */
  lemma CallStep(cfg: Config, s: State, t: State, step: Step)
    requires Enabled(s, step) && t == Apply(cfg, s, step) && Starts(cfg, s, step) != []
    ensures var text := Starts(cfg, s, step)[0];
      && t.turns == s.turns + [Turn(text, None)]
      && t.tasks == s.tasks + [FirstCall(|s.turns|, text, s.session.context)]
      && t.snapshots == s.snapshots + [s.session.context]
  {
  }

  /** A trigger starts one LLM call, for its text and with the context last announced. */
  lemma TriggerStartsCall(
    cfg: Config, pushed: Option<DeviceContext>, states: seq<State>, steps: seq<Step>, k: nat)
    requires IsRun(cfg, pushed, states, steps) && k < |steps| && Starts(cfg, states[k], steps[k]) != []
    ensures var s, t := states[k], states[k + 1];
      var text := Starts(cfg, s, steps[k])[0];
      && s.downRead <= |s.down|
      && t.turns == s.turns + [Turn(text, None)]
      && t.tasks == s.tasks + [FirstCall(|s.turns|, text, ContextOf(s.down[..s.downRead]))]
  {
    RunContexts(cfg, pushed, states, steps, k);
    CallStep(cfg, states[k], states[k + 1], steps[k]);
  }

  /** What the ASR service has emitted, after its greeting. */
  function Emitted(steps: seq<Step>): seq<AsrEvent> {
    if steps == [] then [Ready]
    else
      var step := steps[|steps| - 1];
      Emitted(steps[..|steps| - 1]) + if step.AsrConsumes? then step.events else []
  }

  lemma EmittedStep(cfg: Config, s: State, t: State, step: Step)
    requires Enabled(s, step) && t == Apply(cfg, s, step)
    ensures t.asrOut == s.asrOut + if step.AsrConsumes? then step.events else []
  {
  }

  /** Everything the ASR service emits is there for the Worker to read, in order. */
  lemma {:induction false} EventsArrive(
    cfg: Config, pushed: Option<DeviceContext>, states: seq<State>, steps: seq<Step>, k: nat)
    requires IsRun(cfg, pushed, states, steps) && k < |states|
    ensures states[k].asrOut == Emitted(steps[..k])
  {
    if k > 0 {
      EventsArrive(cfg, pushed, states, steps, k - 1);
      EmittedStep(cfg, states[k - 1], states[k], steps[k - 1]);
      assert steps[..k][..k - 1] == steps[..k - 1];
    }
  }

  // ---- what has been read ----

  /** Each frame read becomes these frames. */
  function Each<T, U>(xs: seq<T>, image: T -> seq<U>): multiset<U> {
    if xs == [] then multiset{} else Each(xs[..|xs| - 1], image) + multiset(image(xs[|xs| - 1]))
  }

  lemma EachAppend<T, U>(xs: seq<T>, x: T, image: T -> seq<U>)
    ensures Each(xs + [x], image) == Each(xs, image) + multiset(image(x))
  {
    assert (xs + [x])[..|xs|] == xs;
  }

  lemma {:induction false} EachConcat<T, U>(xs: seq<T>, ys: seq<T>, image: T -> seq<U>)
    ensures Each(xs + ys, image) == Each(xs, image) + Each(ys, image)
    decreases |ys|
  {
    if ys == [] {
      assert xs + ys == xs;
    } else {
      var n := |ys| - 1;
      EachConcat(xs, ys[..n], image);
      assert xs + ys == (xs + ys[..n]) + [ys[n]];
      EachAppend(xs + ys[..n], ys[n], image);
    }
  }

  lemma EachOne<T, U>(x: T, image: T -> seq<U>)
    ensures Each([x], image) == multiset(image(x))
  {
    assert [x][..0] == [];
  }

  lemma EachShort<T, U>(xs: seq<T>, image: T -> seq<U>)
    requires |xs| <= 2
    ensures xs == [] ==> Each(xs, image) == multiset{}
    ensures |xs| == 1 ==> Each(xs, image) == multiset(image(xs[0]))
    ensures |xs| == 2 ==> Each(xs, image) == multiset(image(xs[0])) + multiset(image(xs[1]))
  {
    if |xs| == 1 {
      assert xs == [xs[0]];
      EachOne(xs[0], image);
    } else if |xs| == 2 {
      assert xs == [xs[0]] + [xs[1]];
      EachAppend([xs[0]], xs[1], image);
      EachOne(xs[0], image);
    }
  }

  lemma Rearranged<U>(w: multiset<U>, said: multiset<U>, a: multiset<U>, a1: multiset<U>, b: multiset<U>, b1: multiset<U>,
                      strays: multiset<U>, more: multiset<U>)
    requires w == a + b + strays && said == a1 + b1 + more
    ensures w + said == (a + a1) + (b + b1) + (strays + more)
  {
  }

  /** Reading more, and saying exactly what it becomes and `more`. */
  lemma EachGrows<W, U>(
    written: seq<W>, said: seq<W>, sort: W -> seq<U>,
    texts: seq<DownFrame>, text: seq<DownFrame>, ofText: DownFrame -> seq<U>,
    events: seq<AsrEvent>, event: seq<AsrEvent>, ofEvent: AsrEvent -> seq<U>,
    strays: multiset<U>, more: multiset<U>)
    requires Each(written, sort) == Each(texts, ofText) + Each(events, ofEvent) + strays
    requires Each(said, sort) == if text != [] then Each(text, ofText) else if event != [] then Each(event, ofEvent) else more
    requires if text != [] then event == [] && more == multiset{} else event == [] || more == multiset{}
    ensures Each(written + said, sort) == Each(texts + text, ofText) + Each(events + event, ofEvent) + (strays + more)
  {
    EachConcat(written, said, sort);
    EachConcat(texts, text, ofText);
    EachConcat(events, event, ofEvent);
    Rearranged(Each(written, sort), Each(said, sort), Each(texts, ofText), Each(text, ofText),
               Each(events, ofEvent), Each(event, ofEvent), strays, more);
  }

  lemma EachGrowsAlone<W, U>(
    written: seq<W>, said: seq<W>, sort: W -> seq<U>,
    texts: seq<DownFrame>, text: seq<DownFrame>, ofText: DownFrame -> seq<U>,
    events: seq<AsrEvent>, event: seq<AsrEvent>, ofEvent: AsrEvent -> seq<U>)
    requires Each(written, sort) == Each(texts, ofText) + Each(events, ofEvent)
    requires Each(said, sort) ==
      if text != [] then Each(text, ofText) else if event != [] then Each(event, ofEvent) else multiset{}
    requires text == [] || event == []
    ensures Each(written + said, sort) == Each(texts + text, ofText) + Each(events + event, ofEvent)
  {
    var none: multiset<U> := multiset{};
    EachGrows(written, said, sort, texts, text, ofText, events, event, ofEvent, none, none);
  }

  function FramesRead(s: State): seq<DownFrame>
    requires s.downRead <= |s.down|
  {
    s.down[..s.downRead]
  }

  function EventsRead(s: State): seq<AsrEvent>
    requires s.asrOutRead <= |s.asrOut|
  {
    s.asrOut[..s.asrOutRead]
  }

  predicate Bounded(s: State) {
    s.downRead <= |s.down| && s.asrOutRead <= |s.asrOut|
  }

  /** Reading moves one frame to those that have been read; nothing else does. */
  lemma ReadsStep(cfg: Config, s: State, t: State, step: Step)
    requires Bounded(s) && Enabled(s, step) && t == Apply(cfg, s, step)
    ensures Bounded(t)
    ensures FramesRead(t) == if step.WorkerReads? then FramesRead(s) + [s.down[s.downRead]] else FramesRead(s)
    ensures EventsRead(t) == if step.WorkerReadsAsr? then EventsRead(s) + [s.asrOut[s.asrOutRead]] else EventsRead(s)
  {
  }

  function TextRead(s: State, step: Step): seq<DownFrame>
    requires Enabled(s, step)
  {
    if step.WorkerReads? then [s.down[s.downRead]] else []
  }

  function EventRead(s: State, step: Step): seq<AsrEvent>
    requires Enabled(s, step)
  {
    if step.WorkerReadsAsr? then [s.asrOut[s.asrOutRead]] else []
  }

  /** What a step says, starts and reads. */
  ghost predicate Effect(cfg: Config, s: State, t: State, step: Step)
    requires Enabled(s, step) && Bounded(s)
  {
    && Bounded(t)
    && t.session.written == s.session.written + Says(cfg, s, step)
    && TurnTexts(t.turns) == TurnTexts(s.turns) + Starts(cfg, s, step)
    && FramesRead(t) == FramesRead(s) + TextRead(s, step)
    && EventsRead(t) == EventsRead(s) + EventRead(s, step)
  }

  lemma EffectStep(cfg: Config, s: State, t: State, step: Step)
    requires Bounded(s) && Enabled(s, step) && t == Apply(cfg, s, step)
    ensures Effect(cfg, s, t, step)
  {
    SaysStep(cfg, s, t, step);
    StartsStep(cfg, s, t, step);
    ReadsStep(cfg, s, t, step);
  }

  // ---- which texts start an LLM call ----

  function TextTrigger(f: DownFrame): seq<string> {
    match f case TextInput(text) => NonEmpty(text) case _ => []
  }

  function FinalTrigger(e: AsrEvent): seq<string> {
    match e case Final(text) => NonEmpty(text) case _ => []
  }

  ghost predicate TriggersOk(cfg: Config, s: State) {
    && Bounded(s)
    && multiset(TurnTexts(s.turns)) ==
         if cfg.providers then Each(FramesRead(s), TextTrigger) + Each(EventsRead(s), FinalTrigger) else multiset{}
  }

  function One<T>(x: T): seq<T> { [x] }

  lemma {:induction false} EachIsAll<T>(xs: seq<T>)
    ensures Each(xs, One) == multiset(xs)
    decreases |xs|
  {
    if xs != [] {
      var n := |xs| - 1;
      EachIsAll(xs[..n]);
      assert xs == xs[..n] + [xs[n]];
    }
  }

  lemma StartsRead(cfg: Config, s: State, step: Step)
    requires Enabled(s, step) && cfg.providers
    ensures multiset(Starts(cfg, s, step)) ==
      if step.WorkerReads? then Each(TextRead(s, step), TextTrigger)
      else if step.WorkerReadsAsr? then Each(EventRead(s, step), FinalTrigger)
      else multiset{}
  {
    match step
    case WorkerReads => EachOne(s.down[s.downRead], TextTrigger);
    case WorkerReadsAsr => EachOne(s.asrOut[s.asrOutRead], FinalTrigger);
    case _ =>
  }

  lemma TriggersRead(texts: seq<DownFrame>, text: seq<DownFrame>, events: seq<AsrEvent>, event: seq<AsrEvent>,
                     asked: seq<string>, starts: seq<string>)
    requires multiset(asked) == Each(texts, TextTrigger) + Each(events, FinalTrigger)
    requires multiset(starts) ==
      if text != [] then Each(text, TextTrigger) else if event != [] then Each(event, FinalTrigger) else multiset{}
    requires text == [] || event == []
    ensures multiset(asked + starts) == Each(texts + text, TextTrigger) + Each(events + event, FinalTrigger)
  {
    EachIsAll(asked);
    EachIsAll(starts);
    EachIsAll(asked + starts);
    EachGrowsAlone(asked, starts, One, texts, text, TextTrigger, events, event, FinalTrigger);
  }

  lemma TriggersStep(cfg: Config, s: State, t: State, step: Step)
    requires TriggersOk(cfg, s) && Enabled(s, step) && Effect(cfg, s, t, step)
    ensures TriggersOk(cfg, t)
  {
    var asked, starts := TurnTexts(s.turns), Starts(cfg, s, step);
    if cfg.providers {
      StartsRead(cfg, s, step);
      TriggersRead(FramesRead(s), TextRead(s, step), EventsRead(s), EventRead(s, step), asked, starts);
    } else {
      assert asked + [] == asked;
    }
  }

  /** With a provider, the LLM calls started are exactly those for the non-empty texts read from
      the Server and the non-empty finals read from the ASR service, one each; without one there
      are none. */
  lemma {:induction false} EveryTriggerStartsATurn(
    cfg: Config, pushed: Option<DeviceContext>, states: seq<State>, steps: seq<Step>, k: nat)
    requires IsRun(cfg, pushed, states, steps) && k < |states|
    ensures TriggersOk(cfg, states[k])
    ensures cfg.providers ==>
      multiset(TurnTexts(states[k].turns)) ==
        Each(FramesRead(states[k]), TextTrigger) + Each(EventsRead(states[k]), FinalTrigger)
    ensures !cfg.providers ==> states[k].turns == []
  {
    if k > 0 {
      EveryTriggerStartsATurn(cfg, pushed, states, steps, k - 1);
      EffectStep(cfg, states[k - 1], states[k], steps[k - 1]);
      TriggersStep(cfg, states[k - 1], states[k], steps[k - 1]);
    } else {
      assert FramesRead(states[0]) == [] && EventsRead(states[0]) == [];
    }
  }

  // ---- which frames are passed on ----

  function IfEcho(f: UpFrame): seq<UpFrame> {
    if f.Pong? || f.AsrPartial? || f.AsrFinal? || f.AsrRaw? then [f] else []
  }

  function EchoOfEvent(e: AsrEvent): seq<UpFrame> {
    [Renamed(e)]
  }

  function IfLoose(f: UpFrame): seq<UpFrame> {
    if (f.LlmResult? || f.LlmError?) && f.slot.None? then [f] else []
  }

  lemma SortPair(a: seq<UpFrame>, b: seq<UpFrame>, image: UpFrame -> seq<UpFrame>)
    requires |a| <= 1 && |b| <= 1
    requires a != [] ==> image(a[0]) == [a[0]]
    requires b != [] ==> image(b[0]) == []
    ensures Each(a + b, image) == Each(b + a, image) == multiset(a)
  {
    EachShort(a, image);
    EachShort(b, image);
    EachConcat(a, b, image);
    EachConcat(b, a, image);
    if a != [] { assert a == [a[0]]; }
  }

  lemma TextFrames(cfg: Config, f: DownFrame)
    ensures |EchoOf(f)| <= 1 && |InstantToText(cfg, f)| <= 1
    ensures EchoOf(f) != [] ==> IfEcho(EchoOf(f)[0]) == [EchoOf(f)[0]] && IfLoose(EchoOf(f)[0]) == []
    ensures InstantToText(cfg, f) != [] ==>
      IfEcho(InstantToText(cfg, f)[0]) == [] && IfLoose(InstantToText(cfg, f)[0]) == [InstantToText(cfg, f)[0]]
  {
  }

  lemma TextSorted(cfg: Config, f: DownFrame)
    ensures Each(EchoOf(f) + InstantToText(cfg, f), IfEcho) == Each([f], EchoOf)
    ensures Each(EchoOf(f) + InstantToText(cfg, f), IfLoose) == Each([f], InstantTexts(cfg))
  {
    TextFrames(cfg, f);
    var echo, instant := EchoOf(f), InstantToText(cfg, f);
    SortPair(echo, instant, IfEcho);
    SortPair(instant, echo, IfLoose);
    EachOne(f, EchoOf);
    EachOne(f, InstantTexts(cfg));
  }

  lemma EventFrames(cfg: Config, e: AsrEvent)
    ensures IfEcho(Renamed(e)) == [Renamed(e)] && IfLoose(Renamed(e)) == []
    ensures |InstantToFinal(cfg, e)| <= 1
    ensures InstantToFinal(cfg, e) != [] ==>
      IfEcho(InstantToFinal(cfg, e)[0]) == [] && IfLoose(InstantToFinal(cfg, e)[0]) == [InstantToFinal(cfg, e)[0]]
  {
  }

  lemma EventSorted(cfg: Config, e: AsrEvent)
    ensures Each([Renamed(e)] + InstantToFinal(cfg, e), IfEcho) == Each([e], EchoOfEvent)
    ensures Each([Renamed(e)] + InstantToFinal(cfg, e), IfLoose) == Each([e], InstantFinals(cfg))
  {
    EventFrames(cfg, e);
    var echo, instant := [Renamed(e)], InstantToFinal(cfg, e);
    SortPair(echo, instant, IfEcho);
    SortPair(instant, echo, IfLoose);
    EachOne(e, EchoOfEvent);
    EachOne(e, InstantFinals(cfg));
  }

  /** Every other step writes at most one frame, no echo. */
  lemma OthersSay(cfg: Config, s: State, step: Step)
    requires Enabled(s, step) && !step.WorkerReads? && !step.WorkerReadsAsr?
    ensures |Says(cfg, s, step)| <= 1
    ensures forall f | f in Says(cfg, s, step) :: IfEcho(f) == []
    ensures !step.SecondAnswers? ==> forall f | f in Says(cfg, s, step) :: IfLoose(f) == []
  {
  }

  /** The echoes among what one step writes. */
  lemma EchoesSaid(cfg: Config, s: State, step: Step)
    requires Enabled(s, step)
    ensures Each(Says(cfg, s, step), IfEcho) ==
      if step.WorkerReads? then Each(TextRead(s, step), EchoOf)
      else if step.WorkerReadsAsr? then Each(EventRead(s, step), EchoOfEvent)
      else multiset{}
  {
    match step
    case WorkerReads => TextSorted(cfg, s.down[s.downRead]);
    case WorkerReadsAsr => EventSorted(cfg, s.asrOut[s.asrOutRead]);
    case _ =>
      OthersSay(cfg, s, step);
      EachShort(Says(cfg, s, step), IfEcho);
  }

  /** The answers to results of the client's own. */
  function Strays(s: State, step: Step): multiset<UpFrame>
    requires Enabled(s, step)
  {
    if step.SecondAnswers? && s.tasks[step.task].origin.None? then multiset{SecondReply(None, step.reply)} else multiset{}
  }

  lemma StraySaid(cfg: Config, s: State, step: Step)
    requires Enabled(s, step) && step.SecondAnswers?
    ensures Each(Says(cfg, s, step), IfLoose) == Strays(s, step)
  {
    var said := Says(cfg, s, step);
    EachShort(said, IfLoose);
    assert IfLoose(said[0]) == if s.tasks[step.task].origin.None? then [SecondReply(None, step.reply)] else [];
  }

  /** The replies without a turn among them. */
  lemma LooseSaid(cfg: Config, s: State, step: Step)
    requires Enabled(s, step)
    ensures Each(Says(cfg, s, step), IfLoose) ==
      if step.WorkerReads? then Each(TextRead(s, step), InstantTexts(cfg))
      else if step.WorkerReadsAsr? then Each(EventRead(s, step), InstantFinals(cfg))
      else Strays(s, step)
  {
    match step
    case WorkerReads => TextSorted(cfg, s.down[s.downRead]);
    case WorkerReadsAsr => EventSorted(cfg, s.asrOut[s.asrOutRead]);
    case SecondAnswers(i, reply) => StraySaid(cfg, s, step);
    case _ =>
      OthersSay(cfg, s, step);
      EachShort(Says(cfg, s, step), IfLoose);
  }

  ghost predicate EchoesOk(s: State) {
    && Bounded(s)
    && Each(s.session.written, IfEcho) == Each(FramesRead(s), EchoOf) + Each(EventsRead(s), EchoOfEvent)
  }

  lemma EchoesStep(cfg: Config, s: State, t: State, step: Step)
    requires EchoesOk(s) && Enabled(s, step) && Effect(cfg, s, t, step)
    ensures EchoesOk(t)
  {
    EchoesSaid(cfg, s, step);
    EachGrowsAlone(
      s.session.written, Says(cfg, s, step), IfEcho, FramesRead(s), TextRead(s, step), EchoOf,
      EventsRead(s), EventRead(s, step), EchoOfEvent);
  }

  /** Every event read is passed on once under its new name, every ping is answered once, every
      non-empty text is echoed once as a final; no other such frame is written. */
  lemma {:induction false} EveryEventIsPassedOn(
    cfg: Config, pushed: Option<DeviceContext>, states: seq<State>, steps: seq<Step>, k: nat)
    requires IsRun(cfg, pushed, states, steps) && k < |states|
    ensures EchoesOk(states[k])
  {
    if k > 0 {
      EveryEventIsPassedOn(cfg, pushed, states, steps, k - 1);
      EffectStep(cfg, states[k - 1], states[k], steps[k - 1]);
      EchoesStep(cfg, states[k - 1], states[k], steps[k - 1]);
    } else {
      assert FramesRead(states[0]) == [] && EventsRead(states[0]) == [];
    }
  }

  // ---- replies that belong to no slot ----

  /** The answers to results of the client's own, over a run. */
  ghost function StrayReplies(states: seq<State>, steps: seq<Step>, k: nat): multiset<UpFrame>
    requires |states| == |steps| + 1 && k <= |steps|
    requires forall i | 0 <= i < |steps| :: Enabled(states[i], steps[i])
  {
    if k == 0 then multiset{} else StrayReplies(states, steps, k - 1) + Strays(states[k - 1], steps[k - 1])
  }

  ghost predicate LooseOk(cfg: Config, s: State, strays: multiset<UpFrame>) {
    && Bounded(s)
    && Each(s.session.written, IfLoose) ==
         Each(FramesRead(s), InstantTexts(cfg)) + Each(EventsRead(s), InstantFinals(cfg)) + strays
  }

  lemma LooseStep(cfg: Config, s: State, t: State, step: Step, strays: multiset<UpFrame>)
    requires LooseOk(cfg, s, strays) && Enabled(s, step) && Effect(cfg, s, t, step)
    ensures LooseOk(cfg, t, strays + Strays(s, step))
  {
    LooseSaid(cfg, s, step);
    EachGrows(
      s.session.written, Says(cfg, s, step), IfLoose, FramesRead(s), TextRead(s, step), InstantTexts(cfg),
      EventsRead(s), EventRead(s, step), InstantFinals(cfg), strays, Strays(s, step));
  }

  /** An empty text, an empty final, and a text without a provider are answered at once, each
      once; the only other replies without a turn answer results of the client's own. */
  lemma {:induction false} EveryEmptyTextIsAnswered(
    cfg: Config, pushed: Option<DeviceContext>, states: seq<State>, steps: seq<Step>, k: nat)
    requires IsRun(cfg, pushed, states, steps) && k < |states|
    ensures LooseOk(cfg, states[k], StrayReplies(states, steps, k))
  {
    if k > 0 {
      EveryEmptyTextIsAnswered(cfg, pushed, states, steps, k - 1);
      EffectStep(cfg, states[k - 1], states[k], steps[k - 1]);
      LooseStep(cfg, states[k - 1], states[k], steps[k - 1], StrayReplies(states, steps, k - 1));
    } else {
      assert FramesRead(states[0]) == [] && EventsRead(states[0]) == [];
    }
  }
}
