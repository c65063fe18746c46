// The Server's copy and the device as replicas connected by two MQTT queues: commands one way,
// status reports the other.
module Twin {
  import opened Wire
  import opened Devices
  import opened Simulator

  /** The device's type, and which states the Server's table accepts. */
  datatype Setting = Setting(kind: DeviceType, storable: DeviceState -> bool)

  datatype Twin = Twin(server: DeviceState, commands: seq<Command>, sim: DeviceState, statuses: seq<Status>)

  /** `again` models a redelivery: the message is handled but stays in its queue. */
  datatype Step =
    | Controls(params: Params)
    | DeviceTakes(again: bool)
    | ServerSyncs(again: bool)
    | DeviceReconnects

  /** A control counts once it has been stored: then it is published. */
  predicate Enabled(setting: Setting, t: Twin, step: Step) {
    match step
    case Controls(p) => ApplyAction(t.server, p).Changed? && setting.storable(ApplyAction(t.server, p).state)
    case DeviceTakes(_) => t.commands != []
    case ServerSyncs(_) => t.statuses != []
    case DeviceReconnects => true
  }

  /** A report that the table does not accept is logged and lost. */
  function Synced(setting: Setting, server: DeviceState, status: Status): DeviceState {
    var merged := Sync(server, status);
    if setting.storable(merged) then merged else server
  }

  function Apply(setting: Setting, t: Twin, step: Step): Twin
    requires Enabled(setting, t, step)
  {
    match step
    case Controls(p) =>
      t.(server := ApplyAction(t.server, p).state, commands := t.commands + [Published(p)])
    case DeviceTakes(again) =>
      var sim := SimApply(setting.kind, t.sim, t.commands[0]).0;
      t.(sim := sim, commands := if again then t.commands else t.commands[1..], statuses := t.statuses + [Report(sim)])
    case ServerSyncs(again) =>
      t.(server := Synced(setting, t.server, t.statuses[0]), statuses := if again then t.statuses else t.statuses[1..])
    case DeviceReconnects =>
      t.(statuses := t.statuses + [Report(t.sim)])
  }

  /** From any two states, the Server's a stored one, as the device connects and reports itself. */
  ghost predicate IsRun(setting: Setting, server: DeviceState, sim: DeviceState, states: seq<Twin>, steps: seq<Step>) {
    && |states| == |steps| + 1
    && setting.storable(server)
    && states[0] == Twin(server, [], sim, [Report(sim)])
    && forall i | 0 <= i < |steps| ::
         Enabled(setting, states[i], steps[i]) && states[i + 1] == Apply(setting, states[i], steps[i])
  }

  /** The Server has the device's power, and its value of every attribute it reports. */
  predicate Converged(server: DeviceState, sim: DeviceState) {
    && server.power == sim.power
    && (sim.brightness.Some? ==> server.brightness == sim.brightness)
    && (sim.temperature.Some? ==> server.temperature == sim.temperature)
    && (sim.mode.Some? && sim.mode.value != "" ==> server.mode == sim.mode)
    && (sim.position.Some? ==> server.position == sim.position)
  }

  /** The device reports its whole present state after every command it takes, redelivered or
      not, and after every connect; reports are read in the order they were sent. */
  lemma EveryTakeIsReported(setting: Setting, t: Twin, step: Step)
    requires Enabled(setting, t, step)
    ensures var next := Apply(setting, t, step);
      var report := Status(
        Some(next.sim.power), next.sim.brightness, next.sim.temperature,
        if next.sim.mode.Some? then next.sim.mode.value else "", next.sim.position);
      && (step.DeviceTakes? || step.DeviceReconnects? ==> next.statuses == t.statuses + [report])
      && (step.Controls? ==> next.statuses == t.statuses)
      && (step.ServerSyncs? ==> next.statuses == if step.again then t.statuses else t.statuses[1..])
      && (!step.DeviceTakes? ==> next.sim == t.sim)
  {
  }

  /** Would the table accept the device's present report? */
  predicate Acceptable(setting: Setting, t: Twin) {
    setting.storable(Sync(t.server, Report(t.sim)))
  }

  /** A report still to be read is the device's latest; with nothing to read or to take, the
      two have converged exactly if the latest report is acceptable. */
  predicate Coherent(setting: Setting, t: Twin) {
    && setting.storable(t.server)
    && (t.statuses != [] ==> t.statuses[|t.statuses| - 1] == Report(t.sim))
    && (t.statuses == [] && t.commands == [] ==> (Converged(t.server, t.sim) <==> Acceptable(setting, t)))
  }

  /** Converged means that the report has nothing to change. */
  lemma ConvergedIsSynced(server: DeviceState, sim: DeviceState)
    ensures Converged(server, sim) <==> Sync(server, Report(sim)) == server
    ensures Converged(Sync(server, Report(sim)), sim)
  {
  }

  lemma CoherentStep(setting: Setting, t: Twin, step: Step)
    requires Enabled(setting, t, step) && Coherent(setting, t)
    ensures Coherent(setting, Apply(setting, t, step))
  {
    var next := Apply(setting, t, step);
    ConvergedIsSynced(t.server, t.sim);
    ConvergedIsSynced(next.server, next.sim);
  }

  /** Whenever both queues are empty the Server's state has converged to the device's exactly if
      the table accepts the device's report, however differently the two sides applied the
      commands on the way, from any initial states, and with any redeliveries and reconnects. */
  lemma {:induction false} QuietTwinsConverge(
    setting: Setting, server: DeviceState, sim: DeviceState, states: seq<Twin>, steps: seq<Step>, k: nat)
    requires IsRun(setting, server, sim, states, steps) && k < |states|
    ensures Coherent(setting, states[k])
    ensures states[k].commands == [] && states[k].statuses == [] ==>
      (Converged(states[k].server, states[k].sim) <==> Acceptable(setting, states[k]))
  {
    if k > 0 {
      QuietTwinsConverge(setting, server, sim, states, steps, k - 1);
      CoherentStep(setting, states[k - 1], steps[k - 1]);
    }
  }

  /** Letting the device take every command, then the Server read every report. */
  function Settle(setting: Setting, t: Twin): (q: Twin)
    ensures q.commands == [] && q.statuses == []
    decreases |t.commands|, |t.statuses|
  {
    if t.commands != [] then Settle(setting, Apply(setting, t, DeviceTakes(false)))
    else if t.statuses != [] then Settle(setting, Apply(setting, t, ServerSyncs(false)))
    else t
  }

  /** From every reachable state, delivering what is in flight is enough: the device has then
      applied the queued commands in order, and the Server agrees with the outcome exactly if the
      table accepts it. */
  lemma {:induction false} DeliveryConverges(setting: Setting, t: Twin)
    requires Coherent(setting, t)
    ensures var q := Settle(setting, t);
      && (Converged(q.server, q.sim) <==> Acceptable(setting, q))
      && q.sim == TakeAll(setting.kind, t.sim, t.commands)
    decreases |t.commands|, |t.statuses|
  {
    if t.commands != [] {
      CoherentStep(setting, t, DeviceTakes(false));
      DeliveryConverges(setting, Apply(setting, t, DeviceTakes(false)));
    } else if t.statuses != [] {
      CoherentStep(setting, t, ServerSyncs(false));
      DeliveryConverges(setting, Apply(setting, t, ServerSyncs(false)));
    }
  }

  function TakeAll(kind: DeviceType, sim: DeviceState, commands: seq<Command>): DeviceState
    decreases |commands|
  {
    if commands == [] then sim else TakeAll(kind, SimApply(kind, sim, commands[0]).0, commands[1..])
  }

  /** The HTTP path writes the Server's copy without publishing.  At rest it keeps convergence
      exactly when it assigns nothing that differs from what the device reports. */
  lemma UnpublishedPutDiverges(setting: Setting, t: Twin, r: PutRequest)
    requires t.commands == [] && t.statuses == [] && Coherent(setting, t) && Acceptable(setting, t)
    ensures Converged(Put(t.server, r), t.sim) <==>
      && (r.power.Some? ==> r.power.value == t.sim.power)
      && (r.brightness.Some? && t.sim.brightness.Some? ==> r.brightness == t.sim.brightness)
      && (r.temperature.Some? && t.sim.temperature.Some? ==> r.temperature == t.sim.temperature)
      && (r.mode.Some? && t.sim.mode.Some? && t.sim.mode.value != "" ==> r.mode == t.sim.mode)
      && (r.position.Some? && t.sim.position.Some? ==> r.position == t.sim.position)
  {
  }

  // ---- where a device ends ----

  /** The controls of a run, in order. */
  function ControlsOf(steps: seq<Step>): seq<Params> {
    if steps == [] then []
    else
      var n := |steps| - 1;
      if steps[n].Controls? then ControlsOf(steps[..n]) + [steps[n].params] else ControlsOf(steps[..n])
  }

  lemma ControlsGrow(steps: seq<Step>, k: nat)
    requires 0 < k <= |steps|
    ensures ControlsOf(steps[..k]) ==
      if steps[k - 1].Controls? then ControlsOf(steps[..k - 1]) + [steps[k - 1].params] else ControlsOf(steps[..k - 1])
  {
    assert steps[..k][..k - 1] == steps[..k - 1];
  }

  /** A device that takes each published control once. */
  function Fold(kind: DeviceType, sim: DeviceState, controls: seq<Params>): DeviceState {
    if controls == [] then sim
    else SimApply(kind, Fold(kind, sim, controls[..|controls| - 1]), Published(controls[|controls| - 1])).0
  }

  lemma FoldGrows(kind: DeviceType, sim: DeviceState, controls: seq<Params>, p: Params)
    ensures Fold(kind, sim, controls + [p]) == SimApply(kind, Fold(kind, sim, controls), Published(p)).0
  {
    assert (controls + [p])[..|controls|] == controls;
  }

  lemma {:induction false} TakeAllAppend(kind: DeviceType, sim: DeviceState, commands: seq<Command>, c: Command)
    ensures TakeAll(kind, sim, commands + [c]) == SimApply(kind, TakeAll(kind, sim, commands), c).0
    decreases |commands|
  {
    if commands == [] {
      assert [c][1..] == [];
    } else {
      assert (commands + [c])[1..] == commands[1..] + [c];
      TakeAllAppend(kind, SimApply(kind, sim, commands[0]).0, commands[1..], c);
    }
  }

  /** Taking a command again changes nothing. */
  lemma TakingTwice(kind: DeviceType, sim: DeviceState, c: Command)
    ensures SimApply(kind, SimApply(kind, sim, c).0, c).0 == SimApply(kind, sim, c).0
  {
  }

  lemma EndStep(setting: Setting, t: Twin, step: Step)
    requires Enabled(setting, t, step)
    ensures var next := Apply(setting, t, step);
      TakeAll(setting.kind, next.sim, next.commands) ==
        var end := TakeAll(setting.kind, t.sim, t.commands);
        if step.Controls? then SimApply(setting.kind, end, Published(step.params)).0 else end
  {
    match step
    case Controls(p) => TakeAllAppend(setting.kind, t.sim, t.commands, Published(p));
    case DeviceTakes(again) => TakingTwice(setting.kind, t.sim, t.commands[0]);
    case _ =>
  }

  /** With what is in flight taken, the device is where the published controls lead, each taken
      once and in order, whatever was redelivered. */
  lemma {:induction false} DeviceFollowsControls(
    setting: Setting, server: DeviceState, sim: DeviceState, states: seq<Twin>, steps: seq<Step>, k: nat)
    requires IsRun(setting, server, sim, states, steps) && k < |states|
    ensures TakeAll(setting.kind, states[k].sim, states[k].commands) == Fold(setting.kind, sim, ControlsOf(steps[..k]))
  {
    if k > 0 {
      DeviceFollowsControls(setting, server, sim, states, steps, k - 1);
      EndStep(setting, states[k - 1], steps[k - 1]);
      ControlsGrow(steps, k);
      if steps[k - 1].Controls? {
        FoldGrows(setting.kind, sim, ControlsOf(steps[..k - 1]), steps[k - 1].params);
      }
    }
  }

  // ---- the columns of the table ----

  /** An INT column holds 32 bits. */
  predicate Fits(value: Option<int>) {
    value.Some? ==> -0x8000_0000 <= value.value < 0x8000_0000
  }

  predicate ModeFits(mode: Option<string>, modes: set<string>) {
    mode.Some? ==> mode.value in modes
  }

  /** Three INT columns and an ENUM, each of which may be NULL. */
  ghost predicate HasColumns(setting: Setting, modes: set<string>) {
    forall s :: setting.storable(s) <==>
      Fits(s.brightness) && Fits(s.temperature) && Fits(s.position) && ModeFits(s.mode, modes)
  }

  /** Of a device's attributes, these always fit; of brightness nothing is said. */
  predicate OthersFit(s: DeviceState, modes: set<string>) {
    Fits(s.temperature) && Fits(s.position) && (s.mode == Some("") || ModeFits(s.mode, modes))
  }

  /** A control that has been stored leaves them fitting on the device too. */
  lemma OthersFitStep(setting: Setting, server: DeviceState, sim: DeviceState, p: Params, modes: set<string>)
    requires HasColumns(setting, modes) && OthersFit(sim, modes)
    requires ApplyAction(server, p).Changed? && setting.storable(ApplyAction(server, p).state)
    ensures OthersFit(SimApply(setting.kind, sim, Published(p)).0, modes)
  {
    NamesUnderstood(setting.kind, p.action);
    var stored := ApplyAction(server, p).state;
    assert Fits(stored.temperature) && Fits(stored.position) && ModeFits(stored.mode, modes);
  }

  lemma {:induction false} OthersFitRun(
    setting: Setting, server: DeviceState, sim: DeviceState, states: seq<Twin>, steps: seq<Step>, k: nat,
    modes: set<string>)
    requires IsRun(setting, server, sim, states, steps) && k < |states|
    requires HasColumns(setting, modes) && OthersFit(sim, modes)
    ensures OthersFit(Fold(setting.kind, sim, ControlsOf(steps[..k])), modes)
  {
    if k > 0 {
      OthersFitRun(setting, server, sim, states, steps, k - 1, modes);
      ControlsGrow(steps, k);
      if steps[k - 1].Controls? {
        var before, p := ControlsOf(steps[..k - 1]), steps[k - 1].params;
        FoldGrows(setting.kind, sim, before, p);
        OthersFitStep(setting, states[k - 1].server, Fold(setting.kind, sim, before), p, modes);
      }
    }
  }

  /** The brightness a list of controls leaves on a device: a light takes it from set_brightness
      and, unlike the Server, from turn_on. */
  function BrightnessAfter(kind: DeviceType, start: Option<int>, controls: seq<Params>): Option<int> {
    if controls == [] then start
    else
      var p := controls[|controls| - 1];
      if kind == Light && (p.action == SetBrightness || (p.action == TurnOn && p.brightness.Some?)) then p.brightness
      else BrightnessAfter(kind, start, controls[..|controls| - 1])
  }

  /** What is true of every control that has been accepted and stored. */
  predicate Accepted(p: Params) {
    !p.action.Unknown? && (p.action == SetBrightness ==> p.brightness.Some?)
  }

  predicate AcceptedFits(p: Params) {
    Accepted(p) && (p.action == SetBrightness ==> Fits(p.brightness))
  }

  lemma {:induction false} FoldBrightness(kind: DeviceType, sim: DeviceState, controls: seq<Params>)
    requires forall i | 0 <= i < |controls| :: AcceptedFits(controls[i])
    ensures Fold(kind, sim, controls).brightness == BrightnessAfter(kind, sim.brightness, controls)
    decreases |controls|
  {
    if controls != [] {
      var n := |controls| - 1;
      FoldBrightness(kind, sim, controls[..n]);
      NamesUnderstood(kind, controls[n].action);
    }
  }

  lemma StoredFits(setting: Setting, server: DeviceState, p: Params, modes: set<string>)
    requires HasColumns(setting, modes)
    requires ApplyAction(server, p).Changed? && setting.storable(ApplyAction(server, p).state)
    ensures AcceptedFits(p)
  {
    assert Fits(ApplyAction(server, p).state.brightness);
  }

  lemma {:induction false} ControlsAccepted(
    setting: Setting, server: DeviceState, sim: DeviceState, states: seq<Twin>, steps: seq<Step>, k: nat,
    modes: set<string>)
    requires IsRun(setting, server, sim, states, steps) && k < |states| && HasColumns(setting, modes)
    ensures forall i | 0 <= i < |ControlsOf(steps[..k])| :: AcceptedFits(ControlsOf(steps[..k])[i])
  {
    if k > 0 {
      ControlsAccepted(setting, server, sim, states, steps, k - 1, modes);
      ControlsGrow(steps, k);
      if steps[k - 1].Controls? {
        StoredFits(setting, states[k - 1].server, steps[k - 1].params, modes);
      }
    }
  }

  predicate Quiet(t: Twin) {
    t.commands == [] && t.statuses == []
  }

  /** With the columns of the table, and a device that starts with a mode the table knows and
      integers that fit: whenever both queues are empty the two have converged exactly if the
      brightness that the controls leave on the device fits its column. */
  lemma ConvergedIff(
    setting: Setting, server: DeviceState, sim: DeviceState, states: seq<Twin>, steps: seq<Step>, k: nat,
    modes: set<string>)
    requires IsRun(setting, server, sim, states, steps) && k < |states| && Quiet(states[k])
    requires HasColumns(setting, modes) && OthersFit(sim, modes)
    ensures Converged(states[k].server, states[k].sim) <==>
      Fits(BrightnessAfter(setting.kind, sim.brightness, ControlsOf(steps[..k])))
  {
    QuietTwinsConverge(setting, server, sim, states, steps, k);
    DeviceFollowsControls(setting, server, sim, states, steps, k);
    OthersFitRun(setting, server, sim, states, steps, k, modes);
    ControlsAccepted(setting, server, sim, states, steps, k, modes);
    FoldBrightness(setting.kind, sim, ControlsOf(steps[..k]));
    var t := states[k];
    AcceptableIff(setting, t, modes);
  }

  lemma AcceptableIff(setting: Setting, t: Twin, modes: set<string>)
    requires HasColumns(setting, modes) && setting.storable(t.server) && OthersFit(t.sim, modes)
    ensures Acceptable(setting, t) <==> Fits(t.sim.brightness)
  {
    var merged := Sync(t.server, Report(t.sim));
    assert Fits(merged.temperature) && Fits(merged.position) && ModeFits(merged.mode, modes);
  }

  /** What a caller can see to: give turn_on no brightness, or one that fits. */
  predicate Careful(kind: DeviceType, p: Params) {
    kind == Light && p.action == TurnOn ==> Fits(p.brightness)
  }

  lemma {:induction false} CarefulFits(kind: DeviceType, start: Option<int>, controls: seq<Params>)
    requires Fits(start)
    requires forall i | 0 <= i < |controls| :: Careful(kind, controls[i]) && AcceptedFits(controls[i])
    ensures Fits(BrightnessAfter(kind, start, controls))
    decreases |controls|
  {
    if controls != [] {
      CarefulFits(kind, start, controls[..|controls| - 1]);
    }
  }

  lemma CarefulCallersConverge(
    setting: Setting, server: DeviceState, sim: DeviceState, states: seq<Twin>, steps: seq<Step>, k: nat,
    modes: set<string>)
    requires IsRun(setting, server, sim, states, steps) && k < |states| && Quiet(states[k])
    requires HasColumns(setting, modes) && OthersFit(sim, modes) && Fits(sim.brightness)
    requires forall i | 0 <= i < |ControlsOf(steps[..k])| :: Careful(setting.kind, ControlsOf(steps[..k])[i])
    ensures Converged(states[k].server, states[k].sim)
  {
    ConvergedIff(setting, server, sim, states, steps, k, modes);
    ControlsAccepted(setting, server, sim, states, steps, k, modes);
    CarefulFits(setting.kind, sim.brightness, ControlsOf(steps[..k]));
  }

  // ---- a light that differs for good ----

  lemma Extend(setting: Setting, server: DeviceState, sim: DeviceState, states: seq<Twin>, steps: seq<Step>, step: Step)
    returns (longer: seq<Twin>, more: seq<Step>)
    requires IsRun(setting, server, sim, states, steps) && Enabled(setting, states[|steps|], step)
    ensures IsRun(setting, server, sim, longer, more)
    ensures longer[|more|] == Apply(setting, states[|steps|], step)
  {
    longer, more := states + [Apply(setting, states[|steps|], step)], steps + [step];
  }

  /** turn_on with a brightness of three thousand million: the Server ignores the brightness and
      publishes it, the light takes it, and its report is refused as a whole. */
  lemma LightDiverges(setting: Setting, modes: set<string>) returns (states: seq<Twin>, steps: seq<Step>)
    requires setting.kind == Light && HasColumns(setting, modes)
    ensures var off := DeviceState(false, Some(80), None, None, None);
      IsRun(setting, off, off, states, steps)
    ensures Quiet(states[|steps|]) && !Converged(states[|steps|].server, states[|steps|].sim)
  {
    var off := DeviceState(false, Some(80), None, None, None);
    var bright := Params("lamp", TurnOn, Some(3_000_000_000), None, "", None);
    NamesUnderstood(Light, TurnOn);
    states, steps := [Twin(off, [], off, [Report(off)])], [];
    states, steps := Extend(setting, off, off, states, steps, ServerSyncs(false));
    states, steps := Extend(setting, off, off, states, steps, Controls(bright));
    states, steps := Extend(setting, off, off, states, steps, DeviceTakes(false));
    states, steps := Extend(setting, off, off, states, steps, ServerSyncs(false));
  }
}
