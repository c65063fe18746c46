// The Server's copy of a device (server/internal/service/voice_command.go, scene.go,
// mqtt_handlers.go, device.go and the merge in server/internal/handler/device.go).
module Devices {
  import opened Wire

  datatype DeviceState = DeviceState(
    power: bool, brightness: Option<int>, temperature: Option<int>, mode: Option<string>, position: Option<int>)

  datatype Action = TurnOn | TurnOff | SetBrightness | SetTemperature | SetMode | SetPosition | Unknown(name: string)

  /** ControlDeviceParams; an empty mode stands for an absent one. */
  datatype Params = Params(
    deviceId: string, action: Action,
    brightness: Option<int>, temperature: Option<int>, mode: string, position: Option<int>)

  datatype Applied = Changed(state: DeviceState) | Rejected(message: string)

  function ApplyAction(s: DeviceState, p: Params): Applied {
    match p.action
    case TurnOn => Changed(s.(power := true))
    case TurnOff => Changed(s.(power := false))
    case SetBrightness =>
      if p.brightness.None? then Rejected("缺少 brightness 参数") else Changed(s.(power := true, brightness := p.brightness))
    case SetTemperature =>
      if p.temperature.None? then Rejected("缺少 temperature 参数") else Changed(s.(power := true, temperature := p.temperature))
    case SetMode =>
      if p.mode == "" then Rejected("缺少 mode 参数") else Changed(s.(power := true, mode := Some(p.mode)))
    case SetPosition =>
      if p.position.None? then Rejected("缺少 position 参数") else Changed(s.(power := true, position := p.position))
    case Unknown(name) => Rejected("未知的 action: " + name)
  }

  /** An action on the wire. */
  function ActionName(action: Action): string {
    match action
    case TurnOn => "turn_on"
    case TurnOff => "turn_off"
    case SetBrightness => "set_brightness"
    case SetTemperature => "set_temperature"
    case SetMode => "set_mode"
    case SetPosition => "set_position"
    case Unknown(name) => name
  }

  /** What goes out over MQTT: the action and the parameters that are present. */
  datatype Command = Command(
    action: string, brightness: Option<int>, temperature: Option<int>, mode: Option<string>, position: Option<int>)

  function Published(p: Params): Command {
    Command(ActionName(p.action), p.brightness, p.temperature, if p.mode == "" then None else Some(p.mode), p.position)
  }

  /** A device's report; an empty mode stands for an absent one. */
  datatype Status = Status(
    power: Option<bool>, brightness: Option<int>, temperature: Option<int>, mode: string, position: Option<int>)

  function Or<T>(update: Option<T>, current: Option<T>): Option<T> {
    if update.Some? then update else current
  }

  /** SyncStateFromDevice */
  function Sync(s: DeviceState, r: Status): DeviceState {
    DeviceState(
      if r.power.Some? then r.power.value else s.power,
      Or(r.brightness, s.brightness), Or(r.temperature, s.temperature),
      if r.mode != "" then Some(r.mode) else s.mode,
      Or(r.position, s.position))
  }

  datatype PutRequest = PutRequest(
    power: Option<bool>, brightness: Option<int>, temperature: Option<int>, mode: Option<string>, position: Option<int>)

  /** UpdateDeviceState over HTTP: here an empty mode is a value like any other. */
  function Put(s: DeviceState, r: PutRequest): DeviceState {
    DeviceState(
      if r.power.Some? then r.power.value else s.power,
      Or(r.brightness, s.brightness), Or(r.temperature, s.temperature), Or(r.mode, s.mode), Or(r.position, s.position))
  }

  datatype Device = Device(owner: Option<int>, name: string, room: string)

  datatype DeviceCommandResult = DeviceCommandResult(success: bool, message: string)

  /** Two tables, and the commands handed to the broker. */
  datatype Store = Store(
    devices: map<string, Device>, states: map<string, DeviceState>, published: seq<(string, Command)>)

  /** Is a publisher attached, and which states does the table accept?  The mode column is an
      enumeration and the others are bounded, so an upsert can fail after every other check. */
  datatype Site = Site(broker: bool, storable: DeviceState -> bool)

  /** ExecuteControlDevice; None stands for parameters that do not parse. */
  function Execute(site: Site, s: Store, raw: Option<Params>): (Store, bool) {
    if raw.None? || raw.value.deviceId == "" then (s, false)
    else
      var p := raw.value;
      var id := p.deviceId;
      if id !in s.devices || id !in s.states then (s, false)
      else
        match ApplyAction(s.states[id], p)
        case Rejected(_) => (s, false)
        case Changed(next) =>
          if s.devices[id].owner.None? || !site.storable(next) then (s, false)
          else (s.(states := s.states[id := next],
                   published := if site.broker then s.published + [(id, Published(p))] else s.published), true)
  }

  function ExecuteAll(site: Site, s: Store, commands: seq<Option<Params>>): (r: (Store, seq<bool>))
    ensures |r.1| == |commands|
  {
    if commands == [] then (s, [])
    else
      var (before, results) := ExecuteAll(site, s, commands[..|commands| - 1]);
      var (after, ok) := Execute(site, before, commands[|commands| - 1]);
      (after, results + [ok])
  }

  function Outcomes(results: seq<DeviceCommandResult>): (flags: seq<bool>)
    ensures |flags| == |results|
  {
    seq(|results|, i requires 0 <= i < |results| => results[i].success)
  }

  /** What a successful command assigns, field by field. */
  datatype Patch = Patch(
    power: Option<bool>, brightness: Option<Option<int>>, temperature: Option<Option<int>>,
    mode: Option<Option<string>>, position: Option<Option<int>>)

  const NO_PATCH := Patch(None, None, None, None, None)

  function Assigns(p: Params): Patch {
    match p.action
    case TurnOn => NO_PATCH.(power := Some(true))
    case TurnOff => NO_PATCH.(power := Some(false))
    case SetBrightness => NO_PATCH.(power := Some(true), brightness := Some(p.brightness))
    case SetTemperature => NO_PATCH.(power := Some(true), temperature := Some(p.temperature))
    case SetMode => NO_PATCH.(power := Some(true), mode := Some(Some(p.mode)))
    case SetPosition => NO_PATCH.(power := Some(true), position := Some(p.position))
    case Unknown(_) => NO_PATCH
  }

  function Patched(s: DeviceState, p: Patch): DeviceState {
    DeviceState(
      if p.power.Some? then p.power.value else s.power,
      if p.brightness.Some? then p.brightness.value else s.brightness,
      if p.temperature.Some? then p.temperature.value else s.temperature,
      if p.mode.Some? then p.mode.value else s.mode,
      if p.position.Some? then p.position.value else s.position)
  }

  /** The action is one of the six, and its own parameter is there. */
  predicate Complete(p: Params) {
    || p.action == TurnOn
    || p.action == TurnOff
    || (p.action == SetBrightness && p.brightness.Some?)
    || (p.action == SetTemperature && p.temperature.Some?)
    || (p.action == SetMode && p.mode != "")
    || (p.action == SetPosition && p.position.Some?)
  }

  /** Everything a command needs: it names a device with a row, a state and an owner, its action
      is complete, and the table takes the state with exactly the assigned fields changed. */
  predicate Succeeds(site: Site, s: Store, raw: Option<Params>) {
    && raw.Some? && raw.value.deviceId != ""
    && raw.value.deviceId in s.devices && raw.value.deviceId in s.states
    && s.devices[raw.value.deviceId].owner.Some?
    && Complete(raw.value)
    && site.storable(Patched(s.states[raw.value.deviceId], Assigns(raw.value)))
  }

  /** The store after a command that succeeds. */
  function Done(site: Site, s: Store, p: Params): Store
    requires p.deviceId in s.states
  {
    Store(
      s.devices,
      s.states[p.deviceId := Patched(s.states[p.deviceId], Assigns(p))],
      if site.broker then s.published + [(p.deviceId, Published(p))] else s.published)
  }

  lemma ApplyIsPatch(s: DeviceState, p: Params)
    ensures ApplyAction(s, p).Changed? <==> Complete(p)
    ensures Complete(p) ==> ApplyAction(s, p) == Changed(Patched(s, Assigns(p)))
  {
  }

  /** A command succeeds exactly if it has everything it needs; then it assigns exactly its fields
      and publishes once, and otherwise the whole store stays. */
  lemma SucceedsIff(site: Site, s: Store, raw: Option<Params>)
    ensures Execute(site, s, raw) == if Succeeds(site, s, raw) then (Done(site, s, raw.value), true) else (s, false)
  {
    if raw.Some? && raw.value.deviceId in s.states {
      ApplyIsPatch(s.states[raw.value.deviceId], raw.value);
    }
  }

  class DeviceService {
    var devices: map<string, Device>
    var states: map<string, DeviceState>
    var published: seq<(string, Command)>
    var scenes: map<int, Option<seq<Option<Params>>>>   // None: the stored list does not parse
    var sceneService: bool                              // attached after construction
    const site: Site

    ghost function Value(): Store
      reads this
    {
      Store(devices, states, published)
    }

    constructor (site: Site)
      ensures Value() == Store(map[], map[], []) && scenes == map[] && !sceneService && this.site == site
    {
      devices, states, published, scenes := map[], map[], [], map[];
      sceneService := false;
      this.site := site;
    }

    method AttachSceneService()
      modifies this`sceneService
      ensures sceneService
    {
      sceneService := true;
    }

    /** Writes the state only for the device's owner, and only if the table accepts it. */
    method UpdateDeviceState(userId: int, id: string, state: DeviceState) returns (ok: bool)
      modifies this`states
      ensures ok <==> id in devices && devices[id].owner == Some(userId) && site.storable(state)
      ensures states == if ok then old(states)[id := state] else old(states)
    {
      ok := id in devices && devices[id].owner == Some(userId) && site.storable(state);
      if ok {
        states := states[id := state];
      }
    }

    method PublishCommandBestEffort(p: Params)
      modifies this`published
      ensures published == if site.broker then old(published) + [(p.deviceId, Published(p))] else old(published)
      ensures site.broker ==>
        && |published| == |old(published)| + 1
        && var c := published[|old(published)|].1;
           && c.action == ActionName(p.action) && c.brightness == p.brightness && c.temperature == p.temperature
           && c.mode == (if p.mode == "" then None else Some(p.mode)) && c.position == p.position
    {
      if site.broker {
        var mode := if p.mode != "" then Some(p.mode) else None;
        published := published + [(p.deviceId, Command(ActionName(p.action), p.brightness, p.temperature, mode, p.position))];
      }
    }

    method ExecuteControlDevice(raw: Option<Params>) returns (result: DeviceCommandResult)
      modifies this`states, this`published
      ensures (Value(), result.success) == Execute(site, old(Value()), raw)
      ensures result.success <==> Succeeds(site, old(Value()), raw)
      ensures result.success ==> Value() == Done(site, old(Value()), raw.value)
      ensures !result.success ==> Value() == old(Value())
      ensures raw.None? ==> result.message == "参数解析失败"
      ensures raw.Some? && raw.value.deviceId == "" ==> result.message == "缺少 device_id 参数"
      ensures raw.Some? && raw.value.deviceId != "" && raw.value.deviceId !in devices ==>
        result.message == "设备不存在: " + raw.value.deviceId
      ensures result.success ==>
        result.message == devices[raw.value.deviceId].room + devices[raw.value.deviceId].name
    {
      SucceedsIff(site, Value(), raw);
      if raw.None? {
        return DeviceCommandResult(false, "参数解析失败");
      }
      var p := raw.value;
      if p.deviceId == "" {
        return DeviceCommandResult(false, "缺少 device_id 参数");
      }
      if p.deviceId !in devices {
        return DeviceCommandResult(false, "设备不存在: " + p.deviceId);
      }
      if p.deviceId !in states {
        return DeviceCommandResult(false, "获取设备状态失败");
      }
      var device := devices[p.deviceId];
      var applied := ApplyAction(states[p.deviceId], p);
      if applied.Rejected? {
        return DeviceCommandResult(false, applied.message);
      }
      if device.owner.None? {
        return DeviceCommandResult(false, "该设备尚未绑定到任何用户，请先在 App 中绑定");
      }
      var ok := UpdateDeviceState(device.owner.value, p.deviceId, applied.state);
      if !ok {
        return DeviceCommandResult(false, "状态更新失败");
      }
      PublishCommandBestEffort(p);
      return DeviceCommandResult(true, device.room + device.name);
    }

    /** SceneService.Trigger with ExecuteControlDevice as its executor; None is an error. */
    method Trigger(sceneId: int) returns (results: Option<seq<DeviceCommandResult>>)
      modifies this`states, this`published
      ensures results.Some? <==> sceneId in scenes && scenes[sceneId].Some?
      ensures results.None? ==> Value() == old(Value())
      ensures results.Some? ==>
        && |results.value| == |scenes[sceneId].value|
        && (Value(), Outcomes(results.value)) == ExecuteAll(site, old(Value()), scenes[sceneId].value)
    {
      if sceneId !in scenes || scenes[sceneId].None? {
        return None;
      }
      var commands := scenes[sceneId].value;
      var out: seq<DeviceCommandResult> := [];
      ghost var flags: seq<bool> := [];
      for i := 0 to |commands|
        invariant |out| == |flags| == i && forall j | 0 <= j < i :: out[j].success == flags[j]
        invariant (Value(), flags) == ExecuteAll(site, old(Value()), commands[..i])
      {
        assert commands[..i + 1][..i] == commands[..i];
        var result := ExecuteControlDevice(commands[i]);
        out := out + [result];
        flags := flags + [result.success];
      }
      assert commands[..|commands|] == commands;
      assert Outcomes(out) == flags;
      return Some(out);
    }

    /** ExecuteActivateScene: always successful once the scene parses; failures are counted in the
        message. */
    method ExecuteActivateScene(sceneId: Option<int>) returns (result: DeviceCommandResult)
      modifies this`states, this`published
      ensures result.success <==>
        sceneService && sceneId.Some? && sceneId.value > 0 && sceneId.value in scenes && scenes[sceneId.value].Some?
      ensures !result.success ==> Value() == old(Value())
      ensures !sceneService ==> result.message == "场景功能未启用"
      ensures result.success ==>
        var (store, results) := ExecuteAll(site, old(Value()), scenes[sceneId.value].value);
        && Value() == store
        && (Failures(results) > 0 ==>
              result.message ==
                "场景执行完成，" + Decimal(Failures(results)) + "/" + Decimal(|results|) + " 条指令失败")
        && (Failures(results) == 0 ==> result.message == "场景执行完成，全部 " + Decimal(|results|) + " 条指令成功")
    {
      if !sceneService {
        return DeviceCommandResult(false, "场景功能未启用");
      }
      if sceneId.None? || sceneId.value <= 0 {
        return DeviceCommandResult(false, "缺少有效的 scene_id 参数");
      }
      var results := Trigger(sceneId.value);
      if results.None? {
        return DeviceCommandResult(false, "场景执行失败");
      }
      var failed := 0;
      ghost var flags := Outcomes(results.value);
      for i := 0 to |results.value|
        invariant failed == Failures(flags[..i])
      {
        assert flags[..i + 1][..i] == flags[..i];
        if !results.value[i].success {
          failed := failed + 1;
        }
      }
      assert flags[..|results.value|] == flags;
      if failed > 0 {
        return DeviceCommandResult(
          true, "场景执行完成，" + Decimal(failed) + "/" + Decimal(|results.value|) + " 条指令失败");
      }
      return DeviceCommandResult(true, "场景执行完成，全部 " + Decimal(|results.value|) + " 条指令成功");
    }

    /** SyncStateFromDevice */
    method SyncStateFromDevice(id: string, r: Status) returns (ok: bool)
      modifies this`states
      ensures ok <==> id in old(states) && site.storable(Sync(old(states)[id], r))
      ensures states == if ok then old(states)[id := Sync(old(states)[id], r)] else old(states)
      ensures ok ==>
        && (states[id].power == if r.power.Some? then r.power.value else old(states)[id].power)
        && (states[id].brightness == if r.brightness.Some? then r.brightness else old(states)[id].brightness)
        && (states[id].temperature == if r.temperature.Some? then r.temperature else old(states)[id].temperature)
        && (states[id].mode == if r.mode != "" then Some(r.mode) else old(states)[id].mode)
        && (states[id].position == if r.position.Some? then r.position else old(states)[id].position)
    {
      if id !in states {
        return false;
      }
      var current := states[id];
      if r.power.Some? {
        current := current.(power := r.power.value);
      }
      if r.brightness.Some? {
        current := current.(brightness := r.brightness);
      }
      if r.temperature.Some? {
        current := current.(temperature := r.temperature);
      }
      if r.mode != "" {
        current := current.(mode := Some(r.mode));
      }
      if r.position.Some? {
        current := current.(position := r.position);
      }
      if !site.storable(current) {
        return false;
      }
      states := states[id := current];
      return true;
    }

    /** The PUT handler: merge, then the owner check, then the event to broadcast. */
    method PutDeviceState(userId: int, id: string, r: PutRequest) returns (event: Option<DeviceState>)
      modifies this`states
      ensures event.Some? <==>
        && id != "" && id in old(states) && id in devices && devices[id].owner == Some(userId)
        && site.storable(Put(old(states)[id], r))
      ensures states == if event.Some? then old(states)[id := event.value] else old(states)
      ensures event.Some? ==> event.value == Put(old(states)[id], r)
      ensures event.Some? ==>
        && (event.value.power == if r.power.Some? then r.power.value else old(states)[id].power)
        && (event.value.brightness == if r.brightness.Some? then r.brightness else old(states)[id].brightness)
        && (event.value.temperature == if r.temperature.Some? then r.temperature else old(states)[id].temperature)
        && (event.value.mode == if r.mode.Some? then r.mode else old(states)[id].mode)
        && (event.value.position == if r.position.Some? then r.position else old(states)[id].position)
    {
      if id == "" || id !in states {
        return None;
      }
      var current := states[id];
      if r.power.Some? {
        current := current.(power := r.power.value);
      }
      if r.brightness.Some? {
        current := current.(brightness := r.brightness);
      }
      if r.temperature.Some? {
        current := current.(temperature := r.temperature);
      }
      if r.mode.Some? {
        current := current.(mode := r.mode);
      }
      if r.position.Some? {
        current := current.(position := r.position);
      }
      var ok := UpdateDeviceState(userId, id, current);
      return if ok then Some(current) else None;
    }
  }

  function Decimal(n: nat): string {
    if n < 10 then [(n as char) + '0'] else Decimal(n / 10) + [(n % 10) as char + '0']
  }

  function ValueOf(digits: string): nat {
    if digits == "" then 0
    else 10 * ValueOf(digits[..|digits| - 1]) + DigitOf(digits[|digits| - 1])
  }

  function DigitOf(c: char): nat {
    if '0' <= c <= '9' then (c - '0') as nat else 0
  }

  /** The canonical decimal of a number: digits only, read back as that number, no leading zero. */
  lemma {:induction false} DecimalIsCanonical(n: nat)
    ensures var d := Decimal(n);
      && d != "" && (forall i | 0 <= i < |d| :: '0' <= d[i] <= '9')
      && ValueOf(d) == n
      && (n > 0 ==> d[0] != '0') && (n == 0 ==> d == "0")
  {
    if n >= 10 {
      DecimalIsCanonical(n / 10);
      var d := Decimal(n);
      assert d[..|d| - 1] == Decimal(n / 10);
    } else {
      assert Decimal(n)[..0] == "";
    }
  }

  function Failures(results: seq<bool>): nat {
    if results == [] then 0
    else Failures(results[..|results| - 1]) + (if results[|results| - 1] then 0 else 1)
  }

  function Successes(results: seq<bool>): nat {
    if results == [] then 0
    else Successes(results[..|results| - 1]) + (if results[|results| - 1] then 1 else 0)
  }

  // ---- scenes ----

  /** A failed command leaves the whole store unchanged; a successful one changes the state of
      its own owned device only, and publishes exactly its action and parameters. */
  lemma ExecuteIsLocal(site: Site, s: Store, raw: Option<Params>)
    ensures var (t, ok) := Execute(site, s, raw);
      && (!ok ==> t == s)
      && (ok ==>
            && raw.Some? && raw.value.deviceId in s.states && raw.value.deviceId in s.devices
            && s.devices[raw.value.deviceId].owner.Some?
            && site.storable(t.states[raw.value.deviceId])
            && t.devices == s.devices && t.states.Keys == s.states.Keys
            && (forall id | id in s.states && id != raw.value.deviceId :: t.states[id] == s.states[id])
            && t.states[raw.value.deviceId] == Patched(s.states[raw.value.deviceId], Assigns(raw.value))
            && (t.published ==
                  if site.broker then s.published + [(raw.value.deviceId, Published(raw.value))] else s.published))
  {
    SucceedsIff(site, s, raw);
  }

  lemma {:induction false} ScenesConcat(site: Site, s: Store, a: seq<Option<Params>>, b: seq<Option<Params>>)
    ensures var (mid, ra) := ExecuteAll(site, s, a);
      var (t, rb) := ExecuteAll(site, mid, b);
      ExecuteAll(site, s, a + b) == (t, ra + rb)
    decreases |b|
  {
    var (mid, ra) := ExecuteAll(site, s, a);
    if b == [] {
      assert a + b == a && ra + [] == ra;
    } else {
      var n := |b| - 1;
      ScenesConcat(site, s, a, b[..n]);
      assert (a + b)[..|a + b| - 1] == a + b[..n];
      var (before, rb) := ExecuteAll(site, mid, b[..n]);
      var ok := Execute(site, before, b[n]).1;
      assert (ra + rb) + [ok] == ra + (rb + [ok]);
    }
  }

  lemma SceneOne(site: Site, s: Store, command: Option<Params>)
    ensures ExecuteAll(site, s, [command]) ==
      if Succeeds(site, s, command) then (Done(site, s, command.value), [true]) else (s, [false])
  {
    assert [command][..0] == [];
    SucceedsIff(site, s, command);
    var ok := Execute(site, s, command).1;
    assert [] + [ok] == [ok];
  }

  /** Every command of a scene is executed, whatever became of the ones before it: its result is
      true exactly if it has everything it needs in the store its predecessors leave, and its
      successors start from the store it leaves. */
  lemma SceneResultIff(site: Site, s: Store, commands: seq<Option<Params>>, i: nat)
    requires i < |commands|
    ensures var before := ExecuteAll(site, s, commands[..i]).0;
      && (ExecuteAll(site, s, commands).1[i] <==> Succeeds(site, before, commands[i]))
      && (ExecuteAll(site, s, commands[..i + 1]).0 ==
            if Succeeds(site, before, commands[i]) then Done(site, before, commands[i].value) else before)
  {
    var (before, rb) := ExecuteAll(site, s, commands[..i]);
    SceneOne(site, before, commands[i]);
    ScenesConcat(site, s, commands[..i], [commands[i]]);
    assert commands[..i + 1] == commands[..i] + [commands[i]];
    ScenesConcat(site, s, commands[..i + 1], commands[i + 1..]);
    assert commands == commands[..i + 1] + commands[i + 1..];
  }

  /** Taking a failed command out of a scene changes neither the final store nor the other
      results. */
  lemma FailuresDoNothing(site: Site, s: Store, commands: seq<Option<Params>>, i: nat)
    requires i < |commands| && !ExecuteAll(site, s, commands).1[i]
    ensures var (t, results) := ExecuteAll(site, s, commands);
      ExecuteAll(site, s, commands[..i] + commands[i + 1..]) == (t, results[..i] + results[i + 1..])
  {
    var front, back := commands[..i], commands[i + 1..];
    var (before, rb) := ExecuteAll(site, s, front);
    SceneResultIff(site, s, commands, i);
    SceneOne(site, before, commands[i]);
    ScenesConcat(site, s, front, [commands[i]]);
    assert commands[..i + 1] == front + [commands[i]];
    ScenesConcat(site, s, commands[..i + 1], back);
    assert commands == commands[..i + 1] + back;
    ScenesConcat(site, s, front, back);
    var results := ExecuteAll(site, s, commands).1;
    assert results == (rb + [false]) + ExecuteAll(site, before, back).1;
    assert results[..i] == rb && results[i + 1..] == ExecuteAll(site, before, back).1;
  }

  /** The assignments a list of commands makes to one device. */
  function Patches(commands: seq<Option<Params>>, results: seq<bool>, id: string): (ps: seq<Patch>)
    requires |results| == |commands|
    ensures |ps| == |commands|
  {
    seq(|commands|, i requires 0 <= i < |commands| => PatchOf(commands[i], results[i], id))
  }

  /** The value assigned last, if any. */
  function Latest<T>(updates: seq<Option<T>>, initial: T): T {
    if updates == [] then initial
    else if updates[|updates| - 1].Some? then updates[|updates| - 1].value
    else Latest(updates[..|updates| - 1], initial)
  }

  lemma {:induction false} LatestMeaning<T>(updates: seq<Option<T>>, initial: T)
    ensures (forall i | 0 <= i < |updates| :: updates[i].None?) ==> Latest(updates, initial) == initial
    ensures forall i | 0 <= i < |updates| && updates[i].Some? && (forall j | i < j < |updates| :: updates[j].None?) ::
      Latest(updates, initial) == updates[i].value
    decreases |updates|
  {
    if updates != [] && updates[|updates| - 1].None? {
      var front := updates[..|updates| - 1];
      LatestMeaning(front, initial);
      forall i | 0 <= i < |updates| && updates[i].Some? && (forall j | i < j < |updates| :: updates[j].None?)
        ensures Latest(updates, initial) == updates[i].value
      {
        assert front[i] == updates[i];
        assert forall j | i < j < |front| :: front[j] == updates[j];
      }
    }
  }

  function Powers(ps: seq<Patch>): seq<Option<bool>> { seq(|ps|, i requires 0 <= i < |ps| => ps[i].power) }
  function Brightnesses(ps: seq<Patch>): seq<Option<Option<int>>> { seq(|ps|, i requires 0 <= i < |ps| => ps[i].brightness) }
  function Temperatures(ps: seq<Patch>): seq<Option<Option<int>>> { seq(|ps|, i requires 0 <= i < |ps| => ps[i].temperature) }
  function Modes(ps: seq<Patch>): seq<Option<Option<string>>> { seq(|ps|, i requires 0 <= i < |ps| => ps[i].mode) }
  function Positions(ps: seq<Patch>): seq<Option<Option<int>>> { seq(|ps|, i requires 0 <= i < |ps| => ps[i].position) }

  ghost predicate EndsAtLatest(before: DeviceState, after: DeviceState, ps: seq<Patch>) {
    && after.power == Latest(Powers(ps), before.power)
    && after.brightness == Latest(Brightnesses(ps), before.brightness)
    && after.temperature == Latest(Temperatures(ps), before.temperature)
    && after.mode == Latest(Modes(ps), before.mode)
    && after.position == Latest(Positions(ps), before.position)
  }

  lemma LatestAppend(before: DeviceState, mid: DeviceState, ps: seq<Patch>, p: Patch)
    requires EndsAtLatest(before, mid, ps)
    ensures EndsAtLatest(before, Patched(mid, p), ps + [p])
  {
    var n := |ps|;
    assert Powers(ps + [p])[..n] == Powers(ps);
    assert Brightnesses(ps + [p])[..n] == Brightnesses(ps);
    assert Temperatures(ps + [p])[..n] == Temperatures(ps);
    assert Modes(ps + [p])[..n] == Modes(ps);
    assert Positions(ps + [p])[..n] == Positions(ps);
  }

  lemma CountAppend(results: seq<bool>, ok: bool)
    ensures Successes(results + [ok]) == Successes(results) + (if ok then 1 else 0)
    ensures Failures(results + [ok]) == Failures(results) + (if ok then 0 else 1)
  {
    assert (results + [ok])[..|results|] == results;
  }

  /** A scene trigger: results match the commands one to one, publishes match successes, and
      the device table and the set of devices stay. */
  lemma {:induction false} SceneKeeps(site: Site, s: Store, commands: seq<Option<Params>>)
    ensures var (t, results) := ExecuteAll(site, s, commands);
      && |results| == |commands|
      && t.devices == s.devices && t.states.Keys == s.states.Keys
      && |t.published| == |s.published| + (if site.broker then Successes(results) else 0)
      && Successes(results) + Failures(results) == |commands|
    decreases |commands|
  {
    if commands != [] {
      var n := |commands| - 1;
      SceneKeeps(site, s, commands[..n]);
      var (mid, results) := ExecuteAll(site, s, commands[..n]);
      ExecuteIsLocal(site, mid, commands[n]);
      var (after, ok) := Execute(site, mid, commands[n]);
      assert ExecuteAll(site, s, commands) == (after, results + [ok]);
      CountAppend(results, ok);
    }
  }

  /** The assignment one command of a list makes to a device. */
  function PatchOf(command: Option<Params>, ok: bool, id: string): Patch {
    if ok && command.Some? && command.value.deviceId == id then Assigns(command.value) else NO_PATCH
  }

  lemma ExecuteIsPatch(site: Site, s: Store, command: Option<Params>, id: string)
    requires id in s.states
    ensures var (t, ok) := Execute(site, s, command);
      id in t.states && t.states[id] == Patched(s.states[id], PatchOf(command, ok, id))
  {
    ExecuteIsLocal(site, s, command);
  }

  /** Every field of every device ends at the value of the last successful command of the
      scene that assigns it, and keeps its value if none does. */
  lemma {:induction false} SceneEndsAtLatest(site: Site, s: Store, commands: seq<Option<Params>>, id: string)
    requires id in s.states
    ensures var (t, results) := ExecuteAll(site, s, commands);
      id in t.states && EndsAtLatest(s.states[id], t.states[id], Patches(commands, results, id))
    decreases |commands|
  {
    if commands != [] {
      var n := |commands| - 1;
      SceneEndsAtLatest(site, s, commands[..n], id);
      var (mid, results) := ExecuteAll(site, s, commands[..n]);
      var ok := Execute(site, mid, commands[n]).1;
      ExecuteIsPatch(site, mid, commands[n], id);
      var ps := Patches(commands[..n], results, id);
      assert Patches(commands, results + [ok], id) == ps + [PatchOf(commands[n], ok, id)];
      LatestAppend(s.states[id], mid.states[id], ps, PatchOf(commands[n], ok, id));
    }
  }
}
