// With ids distinct while outstanding, the pending map is exact and every second round
// replays the call its own first round asked for, in whatever order results return, except
// for calls whose entry a client's own result has taken.
module ProtocolPairing {
  import opened Wire
  import opened Worker
  import opened Protocol
  import opened ProtocolAccounting
  import opened ProtocolSafety
  import opened Sums

  /** Asked for and not yet remembered. */
  ghost predicate PlannedAt(s: State, ref: CallRef) { Planned(s, Is(ForCall(ref))) > 0 }

  /** Remembered-unsent, in flight, executing, in an unpopped handler, or leaked. */
  ghost predicate HeldAt(s: State, ref: CallRef) { Held(s, Is(ForCall(ref))) > 0 }

  ghost predicate Outstanding(s: State, ref: CallRef) {
    ValidRef(s.turns, ref) && (PlannedAt(s, ref) || HeldAt(s, ref))
  }

  /** The ids an LLM answer brings are new among themselves and among the outstanding ones. */
  ghost predicate FreshIds(s: State, step: Step) {
    step.FirstAnswers? && step.answer.Calls? ==>
      var calls := step.answer.calls;
      && (forall i, j | 0 <= i < j < |calls| :: calls[i].id != calls[j].id)
      && (forall i, ref | 0 <= i < |calls| && Outstanding(s, ref) :: CallOf(s.turns, ref).id != calls[i].id)
  }

  ghost predicate IsDistinctRun(cfg: Config, pushed: Option<DeviceContext>, states: seq<State>, steps: seq<Step>) {
    && IsRun(cfg, pushed, states, steps)
    && forall i | 0 <= i < |steps| :: FreshIds(states[i], steps[i])
  }

  ghost predicate HeldAreCached(s: State) {
    forall ref | ValidRef(s.turns, ref) && HeldAt(s, ref) :: CachedAt(s, ref)
  }

  ghost predicate HoldsId(s: State, ref: CallRef, id: string) {
    ValidRef(s.turns, ref) && HeldAt(s, ref) && CallOf(s.turns, ref).id == id
  }

  ghost predicate CachedAreHeld(s: State) {
    forall id | id in s.session.toolCalls :: exists ref :: HoldsId(s, ref, id)
  }

  ghost predicate DistinctIds(s: State) {
    forall r1, r2 | Outstanding(s, r1) && Outstanding(s, r2) && r1 != r2 ::
      CallOf(s.turns, r1).id != CallOf(s.turns, r2).id
  }

  ghost predicate Replays(turns: seq<Turn>, e: SecondRound) {
    && e.found
    && e.origin.Some? && ValidRef(turns, e.origin.value)
    && var call := CallOf(turns, e.origin.value);
       && e.request.toolId == call.id
       && e.request.name == (if call.name == "" then CONTROL_DEVICE else call.name)
       && e.request.arguments == (if call.arguments == "" then EMPTY_ARGUMENTS else call.arguments)
  }

  predicate Concerns(s: State, step: Step, ref: CallRef)
    requires Enabled(s, step)
  {
    (step.Remembers? || step.Pops?) && Subject(s, step) == Some(ref)
  }

  /** A step that pops a stray result. */
  predicate Strays(s: State, step: Step)
    requires Enabled(s, step)
  {
    step.Pops? && s.tasks[step.task].origin.None?
  }

  /** A stray result takes the entry of this outstanding call. */
  ghost predicate StealsAt(s: State, step: Step, ref: CallRef) {
    && Enabled(s, step) && Strays(s, step)
    && s.tasks[step.task].toolId in s.session.toolCalls && HoldsId(s, ref, s.tasks[step.task].toolId)
  }

  /** The entry of this call has been taken by a stray result before state k. */
  ghost predicate WasStolen(states: seq<State>, steps: seq<Step>, k: nat, ref: CallRef)
    requires |states| == |steps| + 1 && k <= |steps|
  {
    exists i :: 0 <= i < k && StealsAt(states[i], steps[i], ref)
  }

  /** Outstanding calls are cached, each as itself, but for the stolen ones, whose id is gone. */
  ghost predicate HeldButStolen(s: State, stolen: iset<CallRef>) {
    forall ref | ValidRef(s.turns, ref) && HeldAt(s, ref) ::
      if ref in stolen then CallOf(s.turns, ref).id !in s.session.toolCalls else CachedAt(s, ref)
  }

  /** A call whose second round has begun. */
  ghost predicate PastAt(s: State, ref: CallRef) { Past(s, Is(ForCall(ref))) > 0 }

  /** A second round of a call replays it exactly if its entry was not stolen. */
  ghost predicate ReplaysUnlessStolen(s: State, e: SecondRound, stolen: iset<CallRef>) {
    e.origin.Some? ==>
      && ValidRef(s.turns, e.origin.value) && PastAt(s, e.origin.value)
      && (Replays(s.turns, e) <==> e.origin.value !in stolen)
  }

  ghost predicate Paired(s: State, stolen: iset<CallRef>) {
    && HeldButStolen(s, stolen) && CachedAreHeld(s) && DistinctIds(s)
    && (forall ref | ref in stolen :: ValidRef(s.turns, ref) && !PlannedAt(s, ref))
    && forall i | 0 <= i < |s.seconds| :: ReplaysUnlessStolen(s, s.seconds[i], stolen)
  }

  ghost predicate Asks(s: State, step: Step, ref: CallRef)
    requires Enabled(s, step)
  {
    step.FirstAnswers? && step.answer.Calls? && ref.turn == s.tasks[step.task].turn && ref.index < |step.answer.calls|
  }

  /** How one step moves one call. */
  ghost predicate Moved(s: State, t: State, step: Step, ref: CallRef)
    requires Enabled(s, step)
  {
    && (PlannedAt(t, ref) <==>
          (PlannedAt(s, ref) && !(step.Remembers? && Concerns(s, step, ref))) || Asks(s, step, ref))
    && (HeldAt(t, ref) <==>
          (HeldAt(s, ref) && !(step.Pops? && Concerns(s, step, ref))) || (step.Remembers? && Concerns(s, step, ref)))
    && (step.Pops? && Concerns(s, step, ref) ==> HeldAt(s, ref) && ValidRef(s.turns, ref))
    && (step.Remembers? && Concerns(s, step, ref) ==> PlannedAt(s, ref) && ValidRef(s.turns, ref))
  }

  lemma PlaceStep(cfg: Config, s: State, t: State, step: Step, ref: CallRef)
    requires Sound(cfg, s) && Enabled(s, step) && t == Apply(cfg, s, step)
    ensures Moved(s, t, step, ref)
  {
    var x := ForCall(ref);
    StepTally(cfg, s, t, step, Is(x));
    assert Balanced(s, Is(x));
    SlotsAreUnique(s.turns, x);
    if step.Remembers? || step.Pops? {
      assert TaskOk(s.turns, s.session.written, s.tasks[step.task]);
    }
    if step.FirstAnswers? && step.answer.Calls? {
      RangeOfSlot(x, s.tasks[step.task].turn, 0, |step.answer.calls|);
    }
  }

  /** A call already asked for keeps its meaning. */
  lemma CallKept(cfg: Config, s: State, t: State, step: Step, ref: CallRef)
    requires Sound(cfg, s) && Enabled(s, step) && t == Apply(cfg, s, step)
    ensures ValidRef(s.turns, ref) ==> ValidRef(t.turns, ref) && CallOf(t.turns, ref) == CallOf(s.turns, ref)
    ensures ValidRef(t.turns, ref) && !ValidRef(s.turns, ref) ==>
      Asks(s, step, ref) && CallOf(t.turns, ref) == step.answer.calls[ref.index]
    ensures Asks(s, step, ref) ==> !ValidRef(s.turns, ref)
  {
    TurnsStep(cfg, s, t, step);
    TurnsExtend(cfg, s, t, step);
    if step.FirstAnswers? {
      assert TaskOk(s.turns, s.session.written, s.tasks[step.task]);
    }
  }

  lemma DistinctStep(cfg: Config, s: State, t: State, step: Step)
    requires Sound(cfg, s) && Enabled(s, step) && t == Apply(cfg, s, step)
    requires DistinctIds(s) && FreshIds(s, step)
    ensures DistinctIds(t)
  {
    forall r1, r2 | Outstanding(t, r1) && Outstanding(t, r2) && r1 != r2
      ensures CallOf(t.turns, r1).id != CallOf(t.turns, r2).id
    {
      PlaceStep(cfg, s, t, step, r1);
      PlaceStep(cfg, s, t, step, r2);
      CallKept(cfg, s, t, step, r1);
      CallKept(cfg, s, t, step, r2);
      assert Asks(s, step, r1) || Outstanding(s, r1);
      assert Asks(s, step, r2) || Outstanding(s, r2);
    }
  }

  /** How a step changes the pending map. */
  ghost predicate MapMoved(s: State, t: State, step: Step)
    requires Enabled(s, step)
  {
    if step.Remembers? then
      && ValidRef(s.turns, Subject(s, step).value)
      && t.session.toolCalls == Remember(s.session.toolCalls, CallOf(s.turns, Subject(s, step).value))
    else if step.Pops? && !Strays(s, step) then
      && ValidRef(s.turns, Subject(s, step).value)
      && t.session.toolCalls == s.session.toolCalls - {CallOf(s.turns, Subject(s, step).value).id}
    else if step.Pops? then
      t.session.toolCalls == s.session.toolCalls - {s.tasks[step.task].toolId}
    else
      t.session.toolCalls == s.session.toolCalls
  }

  lemma MapStep(cfg: Config, s: State, t: State, step: Step)
    requires Typed(cfg, s) && Enabled(s, step) && t == Apply(cfg, s, step)
    ensures MapMoved(s, t, step)
  {
    if step.Remembers? || step.Pops? {
      assert TaskOk(s.turns, s.session.written, s.tasks[step.task]);
    }
  }

  ghost predicate CachedAt(s: State, ref: CallRef)
    requires ValidRef(s.turns, ref)
  {
    var call := CallOf(s.turns, ref);
    call.id in s.session.toolCalls && s.session.toolCalls[call.id] == Pending(call.name, call.arguments)
  }

  /** A reference to nothing is nowhere, and a slot is in one place. */
  lemma OnePlace(cfg: Config, s: State, ref: CallRef)
    requires Sound(cfg, s)
    ensures !ValidRef(s.turns, ref) ==> !HeldAt(s, ref) && !PlannedAt(s, ref)
    ensures PastAt(s, ref) ==> !HeldAt(s, ref) && !PlannedAt(s, ref)
    ensures HeldAt(s, ref) ==> !PlannedAt(s, ref)
  {
    assert Balanced(s, Is(ForCall(ref)));
    SlotsAreUnique(s.turns, ForCall(ref));
  }

  /** The calls stolen by one step join the stolen ones. */
  ghost predicate Joined(s: State, step: Step, stolen: iset<CallRef>, more: iset<CallRef>) {
    forall ref :: ref in more <==> ref in stolen || StealsAt(s, step, ref)
  }

  lemma HeldOne(s: State, t: State, step: Step, ref: CallRef, stolen: iset<CallRef>, more: iset<CallRef>)
    requires Enabled(s, step) && HeldButStolen(s, stolen) && DistinctIds(s) && Joined(s, step, stolen, more)
    requires Moved(s, t, step, ref) && MapMoved(s, t, step)
    requires (step.Remembers? || step.Pops?) && !Strays(s, step) ==> Moved(s, t, step, Subject(s, step).value)
    requires ValidRef(s.turns, ref) && ValidRef(t.turns, ref) && CallOf(t.turns, ref) == CallOf(s.turns, ref)
    requires HeldAt(t, ref) && (PlannedAt(s, ref) ==> ref !in stolen && !HeldAt(s, ref))
    ensures if ref in more then CallOf(t.turns, ref).id !in t.session.toolCalls else CachedAt(t, ref)
  {
    if (step.Remembers? || step.Pops?) && !Strays(s, step) {
      var subject := Subject(s, step).value;
      if ref != subject {
        assert Outstanding(s, ref) && Outstanding(s, subject);
        assert CallOf(s.turns, ref).id != CallOf(s.turns, subject).id;
      }
    }
  }

  lemma HeldStep(cfg: Config, s: State, t: State, step: Step, stolen: iset<CallRef>, more: iset<CallRef>)
    requires Sound(cfg, s) && Paired(s, stolen) && Joined(s, step, stolen, more)
    requires Enabled(s, step) && t == Apply(cfg, s, step)
    ensures HeldButStolen(t, more)
  {
    MapStep(cfg, s, t, step);
    if (step.Remembers? || step.Pops?) && !Strays(s, step) {
      PlaceStep(cfg, s, t, step, Subject(s, step).value);
    }
    forall ref | ValidRef(t.turns, ref) && HeldAt(t, ref)
      ensures if ref in more then CallOf(t.turns, ref).id !in t.session.toolCalls else CachedAt(t, ref)
    {
      PlaceStep(cfg, s, t, step, ref);
      CallKept(cfg, s, t, step, ref);
      OnePlace(cfg, s, ref);
      HeldOne(s, t, step, ref, stolen, more);
    }
  }

  lemma CachedHeldStep(cfg: Config, s: State, t: State, step: Step, stolen: iset<CallRef>)
    requires Sound(cfg, s) && Paired(s, stolen) && Enabled(s, step) && t == Apply(cfg, s, step)
    ensures CachedAreHeld(t)
  {
    MapStep(cfg, s, t, step);
    forall id | id in t.session.toolCalls ensures exists ref :: HoldsId(t, ref, id) {
      var ref: CallRef;
      if step.Remembers? && id == CallOf(s.turns, Subject(s, step).value).id {
        ref := Subject(s, step).value;
      } else {
        ref :| HoldsId(s, ref, id);
      }
      PlaceStep(cfg, s, t, step, ref);
      CallKept(cfg, s, t, step, ref);
      assert HoldsId(t, ref, id);
    }
  }

  lemma StolenStep(cfg: Config, s: State, t: State, step: Step, stolen: iset<CallRef>, more: iset<CallRef>)
    requires Sound(cfg, s) && Paired(s, stolen) && Joined(s, step, stolen, more)
    requires Enabled(s, step) && t == Apply(cfg, s, step)
    ensures forall ref | ref in more :: ValidRef(t.turns, ref) && !PlannedAt(t, ref)
  {
    forall ref | ref in more ensures ValidRef(t.turns, ref) && !PlannedAt(t, ref) {
      PlaceStep(cfg, s, t, step, ref);
      CallKept(cfg, s, t, step, ref);
      OnePlace(cfg, s, ref);
    }
  }

  /** Only popping records a second round, with the request it built. */
  lemma RecordStep(cfg: Config, s: State, t: State, step: Step)
    requires Enabled(s, step) && t == Apply(cfg, s, step)
    ensures !step.Pops? ==> t.seconds == s.seconds
    ensures step.Pops? ==>
      var g := s.tasks[step.task];
      t.seconds == s.seconds + [SecondRound(g.origin, PopForRequest(s.session, g.toolId, g.success, g.message).1,
                                            g.toolId in s.session.toolCalls)]
  {
  }

  /** The request built from a cached call replays that call; without an entry it does not. */
  lemma PopReplays(cfg: Config, s: State, g: Goroutine, stolen: iset<CallRef>)
    requires Sound(cfg, s) && HeldButStolen(s, stolen) && g in s.tasks && g.HandleResult?
    requires g.origin.Some? && HeldAt(s, g.origin.value)
    ensures var e := SecondRound(g.origin, PopForRequest(s.session, g.toolId, g.success, g.message).1,
                                 g.toolId in s.session.toolCalls);
      ValidRef(s.turns, g.origin.value) && (Replays(s.turns, e) <==> g.origin.value !in stolen)
  {
    assert TaskOk(s.turns, s.session.written, g);
  }

  /** Once past, a slot stays past; popping makes it so. */
  lemma PastStep(cfg: Config, s: State, t: State, step: Step, ref: CallRef)
    requires Sound(cfg, s) && Enabled(s, step) && t == Apply(cfg, s, step)
    ensures PastAt(s, ref) || (step.Pops? && Concerns(s, step, ref)) ==> PastAt(t, ref)
  {
    StepTally(cfg, s, t, step, Is(ForCall(ref)));
    if step.Pops? && Concerns(s, step, ref) {
      assert Is(ForCall(ref))(ForCall(ref));
    }
  }

  /** An earlier second round keeps its standing: its call can no longer be stolen. */
  lemma OldSecond(
    cfg: Config, s: State, t: State, step: Step, e: SecondRound, stolen: iset<CallRef>, more: iset<CallRef>)
    requires Sound(cfg, s) && Joined(s, step, stolen, more) && ReplaysUnlessStolen(s, e, stolen)
    requires Enabled(s, step) && t == Apply(cfg, s, step)
    ensures ReplaysUnlessStolen(t, e, more)
  {
    if e.origin.Some? {
      var ref := e.origin.value;
      PastStep(cfg, s, t, step, ref);
      OnePlace(cfg, s, ref);
      CallKept(cfg, s, t, step, ref);
    }
  }

  lemma NewSecond(cfg: Config, s: State, t: State, step: Step, stolen: iset<CallRef>, more: iset<CallRef>)
    requires Sound(cfg, s) && Paired(s, stolen) && Joined(s, step, stolen, more)
    requires Enabled(s, step) && step.Pops? && t == Apply(cfg, s, step)
    ensures |t.seconds| == |s.seconds| + 1 && ReplaysUnlessStolen(t, t.seconds[|s.seconds|], more)
  {
    RecordStep(cfg, s, t, step);
    if !Strays(s, step) {
      var ref := Subject(s, step).value;
      PlaceStep(cfg, s, t, step, ref);
      PastStep(cfg, s, t, step, ref);
      PopReplays(cfg, s, s.tasks[step.task], stolen);
      CallKept(cfg, s, t, step, ref);
      assert ref in more <==> ref in stolen;
    }
  }

  lemma SecondsStep(cfg: Config, s: State, t: State, step: Step, stolen: iset<CallRef>, more: iset<CallRef>)
    requires Sound(cfg, s) && Paired(s, stolen) && Joined(s, step, stolen, more)
    requires Enabled(s, step) && t == Apply(cfg, s, step)
    ensures forall i | 0 <= i < |t.seconds| :: ReplaysUnlessStolen(t, t.seconds[i], more)
  {
    RecordStep(cfg, s, t, step);
    if step.Pops? {
      NewSecond(cfg, s, t, step, stolen, more);
    }
    forall i | 0 <= i < |s.seconds| ensures ReplaysUnlessStolen(t, t.seconds[i], more) {
      assert t.seconds[i] == s.seconds[i];
      OldSecond(cfg, s, t, step, s.seconds[i], stolen, more);
    }
  }

  ghost function Stolen(states: seq<State>, steps: seq<Step>, k: nat): iset<CallRef>
    requires |states| == |steps| + 1 && k <= |steps|
  {
    iset ref | WasStolen(states, steps, k, ref)
  }

  lemma WasStolenGrows(states: seq<State>, steps: seq<Step>, k: nat, ref: CallRef)
    requires |states| == |steps| + 1 && 0 < k <= |steps|
    ensures WasStolen(states, steps, k, ref) <==>
      WasStolen(states, steps, k - 1, ref) || StealsAt(states[k - 1], steps[k - 1], ref)
  {
  }

  lemma StolenGrows(states: seq<State>, steps: seq<Step>, k: nat)
    requires |states| == |steps| + 1 && 0 < k <= |steps|
    ensures Joined(states[k - 1], steps[k - 1], Stolen(states, steps, k - 1), Stolen(states, steps, k))
  {
    forall ref ensures WasStolen(states, steps, k, ref) <==>
      WasStolen(states, steps, k - 1, ref) || StealsAt(states[k - 1], steps[k - 1], ref)
    {
      WasStolenGrows(states, steps, k, ref);
    }
  }

  lemma PairedStep(cfg: Config, s: State, t: State, step: Step, stolen: iset<CallRef>, more: iset<CallRef>)
    requires Sound(cfg, s) && Paired(s, stolen) && Joined(s, step, stolen, more) && FreshIds(s, step)
    requires Enabled(s, step) && t == Apply(cfg, s, step)
    ensures Paired(t, more)
  {
    HeldStep(cfg, s, t, step, stolen, more);
    CachedHeldStep(cfg, s, t, step, stolen);
    DistinctStep(cfg, s, t, step);
    StolenStep(cfg, s, t, step, stolen, more);
    SecondsStep(cfg, s, t, step, stolen, more);
  }

  /** In a run with distinct outstanding ids every state is paired, but for the stolen calls. */
  lemma {:induction false} RunPaired(
    cfg: Config, pushed: Option<DeviceContext>, states: seq<State>, steps: seq<Step>, k: nat)
    requires IsDistinctRun(cfg, pushed, states, steps) && k < |states|
    ensures Paired(states[k], Stolen(states, steps, k))
  {
    if k > 0 {
      RunSound(cfg, pushed, states, steps, k - 1);
      RunPaired(cfg, pushed, states, steps, k - 1);
      StolenGrows(states, steps, k);
      PairedStep(cfg, states[k - 1], states[k], steps[k - 1], Stolen(states, steps, k - 1), Stolen(states, steps, k));
    }
  }

  /** The pending map holds exactly the ids of the calls that are remembered-unsent, in flight
      as a command, executing, in flight as a result, in an unpopped handler, or leaked, each with
      its own name and arguments; not those whose entry was stolen: the Server passes on a
      device_command_result of a client's own, and such a result may find an entry. */
  lemma PendingMapIsExact(
    cfg: Config, pushed: Option<DeviceContext>, states: seq<State>, steps: seq<Step>, k: nat, id: string)
    requires IsDistinctRun(cfg, pushed, states, steps) && k < |states|
    ensures id in states[k].session.toolCalls <==>
      exists ref :: HoldsId(states[k], ref, id) && !WasStolen(states, steps, k, ref)
    ensures forall ref | HoldsId(states[k], ref, id) && !WasStolen(states, steps, k, ref) ::
      var call := CallOf(states[k].turns, ref);
      states[k].session.toolCalls[id] == Pending(call.name, call.arguments)
  {
    RunPaired(cfg, pushed, states, steps, k);
    var s := states[k];
    if id in s.session.toolCalls {
      var ref :| HoldsId(s, ref, id);
      assert ref !in Stolen(states, steps, k);
    }
  }

  /** A second round finds its entry and replays the id, the name and the arguments of the call
      its own first round asked for, exactly if no stray result had taken that entry. */
  lemma SecondRoundsReplayTheirFirst(
    cfg: Config, pushed: Option<DeviceContext>, states: seq<State>, steps: seq<Step>, k: nat, i: nat)
    requires IsDistinctRun(cfg, pushed, states, steps) && k < |states|
    requires i < |states[k].seconds| && states[k].seconds[i].origin.Some?
    ensures Replays(states[k].turns, states[k].seconds[i]) <==>
      !WasStolen(states, steps, k, states[k].seconds[i].origin.value)
  {
    RunPaired(cfg, pushed, states, steps, k);
    assert ReplaysUnlessStolen(states[k], states[k].seconds[i], Stolen(states, steps, k));
  }

  // ---- when nothing is stolen ----

  /** No stray result has found an entry. */
  predicate NoTheft(s: State) {
    forall i | 0 <= i < |s.seconds| :: s.seconds[i].origin.None? ==> !s.seconds[i].found
  }

  ghost predicate Thieves(s: State, step: Step) {
    exists ref :: StealsAt(s, step, ref)
  }

  lemma TheftStep(cfg: Config, s: State, t: State, step: Step)
    requires CachedAreHeld(s) && Enabled(s, step) && t == Apply(cfg, s, step)
    ensures NoTheft(t) <==> NoTheft(s) && !Thieves(s, step)
  {
    RecordStep(cfg, s, t, step);
    if step.Pops? {
      var last := t.seconds[|s.seconds|];
      if last.origin.None? && last.found {
        var ref :| HoldsId(s, ref, s.tasks[step.task].toolId);
        assert StealsAt(s, step, ref);
      }
    }
    assert t.seconds[..|s.seconds|] == s.seconds;
  }

  /** Nothing is stolen exactly as long as no stray result finds an entry. */
  lemma {:induction false} NothingStolenIff(
    cfg: Config, pushed: Option<DeviceContext>, states: seq<State>, steps: seq<Step>, k: nat)
    requires IsDistinctRun(cfg, pushed, states, steps) && k < |states|
    ensures NoTheft(states[k]) <==> forall ref :: !WasStolen(states, steps, k, ref)
  {
    if k > 0 {
      NothingStolenIff(cfg, pushed, states, steps, k - 1);
      RunPaired(cfg, pushed, states, steps, k - 1);
      var s, step := states[k - 1], steps[k - 1];
      TheftStep(cfg, s, states[k], step);
      if NoTheft(states[k]) {
        forall ref ensures !WasStolen(states, steps, k, ref) {
          WasStolenGrows(states, steps, k, ref);
        }
      } else if NoTheft(s) {
        var ref :| StealsAt(s, step, ref);
        WasStolenGrows(states, steps, k, ref);
      } else {
        var ref :| WasStolen(states, steps, k - 1, ref);
        WasStolenGrows(states, steps, k, ref);
      }
    }
  }

  /** A stolen call is still outstanding right after the theft, without an entry. */
  lemma TheftShows(cfg: Config, s: State, t: State, step: Step, ref: CallRef)
    requires Sound(cfg, s) && StealsAt(s, step, ref) && t == Apply(cfg, s, step)
    ensures !HeldAreCached(t)
  {
    PlaceStep(cfg, s, t, step, ref);
    CallKept(cfg, s, t, step, ref);
    MapStep(cfg, s, t, step);
    assert !CachedAt(t, ref);
  }

  /** The map has been exact in every state so far, in the plain sense that it holds the
      outstanding calls and nothing else, exactly if no stray result has found an entry. */
  lemma MapExactIff(cfg: Config, pushed: Option<DeviceContext>, states: seq<State>, steps: seq<Step>, k: nat)
    requires IsDistinctRun(cfg, pushed, states, steps) && k < |states|
    ensures (forall j | 0 <= j <= k :: HeldAreCached(states[j]) && CachedAreHeld(states[j])) <==> NoTheft(states[k])
  {
    NothingStolenIff(cfg, pushed, states, steps, k);
    if NoTheft(states[k]) {
      forall j | 0 <= j <= k ensures HeldAreCached(states[j]) && CachedAreHeld(states[j]) {
        RunPaired(cfg, pushed, states, steps, j);
        NotYetStolen(states, steps, j, k);
      }
    } else {
      var ref :| WasStolen(states, steps, k, ref);
      var i :| 0 <= i < k && StealsAt(states[i], steps[i], ref);
      RunSound(cfg, pushed, states, steps, i);
      TheftShows(cfg, states[i], states[i + 1], steps[i], ref);
    }
  }

  lemma NotYetStolen(states: seq<State>, steps: seq<Step>, j: nat, k: nat)
    requires |states| == |steps| + 1 && j <= k <= |steps|
    requires forall ref :: !WasStolen(states, steps, k, ref)
    ensures forall ref :: !WasStolen(states, steps, j, ref)
  {
    forall ref ensures !WasStolen(states, steps, j, ref) {
      if WasStolen(states, steps, j, ref) {
        var i :| 0 <= i < j && StealsAt(states[i], steps[i], ref);
        assert WasStolen(states, steps, k, ref);
      }
    }
  }

  /** The Server's own results always have an origin. */
  ghost predicate OwnFrames(down: seq<DownFrame>) {
    forall i | 0 <= i < |down| && down[i].CommandResult? :: down[i].origin.Some?
  }

  ghost predicate OwnHandlers(tasks: seq<Goroutine>) {
    forall i | 0 <= i < |tasks| && tasks[i].HandleResult? :: tasks[i].origin.Some?
  }

  predicate SendsResult(step: Step) {
    step.ClientSends? && step.frame.CommandResult?
  }

  lemma OwnFramesStep(cfg: Config, s: State, t: State, step: Step)
    requires OwnFrames(s.down) && Enabled(s, step) && t == Apply(cfg, s, step) && !SendsResult(step)
    ensures OwnFrames(t.down)
  {
  }

  lemma BornOwn(cfg: Config, s: State, step: Step)
    requires OwnFrames(s.down) && Enabled(s, step)
    ensures forall g | g in Born(cfg, s, step) && g.HandleResult? :: g.origin.Some?
  {
  }

  lemma OwnHandlersStep(cfg: Config, s: State, t: State, step: Step)
    requires OwnFrames(s.down) && OwnHandlers(s.tasks) && Enabled(s, step) && t == Apply(cfg, s, step)
    ensures OwnHandlers(t.tasks)
  {
    TasksStep(cfg, s, t, step);
    BornOwn(cfg, s, step);
    forall k | 0 <= k < |t.tasks| && t.tasks[k].HandleResult? ensures t.tasks[k].origin.Some? {
      if t.tasks[k] !in Born(cfg, s, step) {
        var j :| 0 <= j < |s.tasks| && j != Acting(step) && t.tasks[k] == s.tasks[j];
      }
    }
  }

  /** As long as clients send no device_command_result of their own, no result is a stray one,
      and nothing is stolen. */
  lemma {:induction false} NothingStolenWithoutClientResults(
    cfg: Config, pushed: Option<DeviceContext>, states: seq<State>, steps: seq<Step>, k: nat)
    requires IsRun(cfg, pushed, states, steps) && k < |states|
    requires forall i | 0 <= i < k :: !SendsResult(steps[i])
    ensures OwnFrames(states[k].down) && OwnHandlers(states[k].tasks)
    ensures forall ref :: !WasStolen(states, steps, k, ref)
  {
    if k > 0 {
      var s, t, step := states[k - 1], states[k], steps[k - 1];
      NothingStolenWithoutClientResults(cfg, pushed, states, steps, k - 1);
      OwnFramesStep(cfg, s, t, step);
      OwnHandlersStep(cfg, s, t, step);
      forall ref ensures !WasStolen(states, steps, k, ref) {
        WasStolenGrows(states, steps, k, ref);
      }
    }
  }

  lemma QuietHeldIsLeaked(s: State, ref: CallRef)
    requires Quiescent(s)
    ensures HeldAt(s, ref) <==> ref in s.leaked
  {
    var P := Is(ForCall(ref));
    assert InFlight(s.session.written, s.upRead) == [] && InFlight(s.down, s.downRead) == [];
    assert Held(s, P) == Sum(s.leaked, LeakFor(P));
    if HeldAt(s, ref) {
      var i := SumWitness(s.leaked, LeakFor(P));
      assert P(ForCall(s.leaked[i]));
      assert s.leaked[i] == ref;
    }
    if ref in s.leaked {
      var i :| 0 <= i < |s.leaked| && s.leaked[i] == ref;
      assert P(ForCall(s.leaked[i]));
      SumAtLeast(s.leaked, i, LeakFor(P));
    }
  }

  ghost predicate LeaksId(s: State, ref: CallRef, id: string) {
    ref in s.leaked && ValidRef(s.turns, ref) && CallOf(s.turns, ref).id == id
  }

  /** When nothing runs and nothing is in flight, exactly the leaked calls are still cached, but
      for those whose entry was stolen. */
  lemma OnlyLeaksRemain(
    cfg: Config, pushed: Option<DeviceContext>, states: seq<State>, steps: seq<Step>, k: nat, id: string)
    requires IsDistinctRun(cfg, pushed, states, steps) && k < |states| && Quiescent(states[k])
    ensures id in states[k].session.toolCalls <==>
      exists ref :: LeaksId(states[k], ref, id) && !WasStolen(states, steps, k, ref)
  {
    var s := states[k];
    PendingMapIsExact(cfg, pushed, states, steps, k, id);
    if id in s.session.toolCalls {
      var ref :| HoldsId(s, ref, id) && !WasStolen(states, steps, k, ref);
      QuietHeldIsLeaked(s, ref);
      assert LeaksId(s, ref, id);
    }
    if ref :| LeaksId(s, ref, id) && !WasStolen(states, steps, k, ref) {
      QuietHeldIsLeaked(s, ref);
      assert HoldsId(s, ref, id);
    }
  }
}
