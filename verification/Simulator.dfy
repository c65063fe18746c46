// The simulated devices (DeviceSimulator in furniture/mock_devices.py) and how far one
// command keeps the Server's copy and the device in agreement.
module Simulator {
  import opened Wire
  import opened Devices

  datatype DeviceType = Light | Aircon | Curtain | OtherType

  function Else<T>(o: Option<T>, default: T): T {
    if o.Some? then o.value else default
  }

  function LowerChar(c: char): char {
    if 'A' <= c <= 'Z' then c - 'A' + 'a' else c
  }

  function Lower(s: string): string {
    seq(|s|, i requires 0 <= i < |s| => LowerChar(s[i]))
  }

  /** The action a device reads in a name: any case, and a few short forms. */
  function Understood(kind: DeviceType, name: string): Action {
    var action := Lower(name);
    if action == "turn_on" || action == "on" || (kind == Curtain && action == "open") then TurnOn
    else if action == "turn_off" || action == "off" || (kind == Curtain && action == "close") then TurnOff
    else if action == "set_brightness" then SetBrightness
    else if action == "set_temperature" then SetTemperature
    else if action == "set_mode" then SetMode
    else if action == "set_position" then SetPosition
    else Unknown(name)
  }

  predicate LowerCase(s: string) {
    forall i | 0 <= i < |s| :: !('A' <= s[i] <= 'Z')
  }

  lemma LowerKeeps(s: string)
    requires LowerCase(s)
    ensures Lower(s) == s
  {
  }

  /** Only the case of letters is dropped. */
  lemma LowerDropsCase(s: string)
    ensures |Lower(s)| == |s| && LowerCase(Lower(s))
    ensures forall i | 0 <= i < |s| ::
      Lower(s)[i] == s[i] || ('A' <= s[i] <= 'Z' && Lower(s)[i] as int == s[i] as int + 32)
  {
  }

  /** The names a type of device acts on, in lower case. */
  predicate Supports(kind: DeviceType, action: string) {
    match kind
    case Light => action in ["turn_on", "on", "turn_off", "off", "set_brightness"]
    case Aircon => action in ["turn_on", "on", "turn_off", "off", "set_temperature", "set_mode"]
    case Curtain => action in ["turn_on", "on", "open", "turn_off", "off", "close", "set_position"]
    case OtherType => false
  }

  /** What the Server publishes is understood as what it meant. */
  lemma NamesUnderstood(kind: DeviceType, action: Action)
    requires !action.Unknown?
    ensures Understood(kind, ActionName(action)) == action
  {
    LowerKeeps(ActionName(action));
  }

  /** apply_command; the flag is "ok". */
  function SimApply(kind: DeviceType, s: DeviceState, c: Command): (DeviceState, bool) {
    match (kind, Understood(kind, c.action))
    case (Light, TurnOn) => (s.(power := true, brightness := Or(c.brightness, s.brightness)), true)
    case (Light, TurnOff) => (s.(power := false), true)
    case (Light, SetBrightness) => (s.(power := true, brightness := Some(Else(c.brightness, 100))), true)
    case (Aircon, TurnOn) => (s.(power := true), true)
    case (Aircon, TurnOff) => (s.(power := false), true)
    case (Aircon, SetTemperature) => (s.(power := true, temperature := Some(Else(c.temperature, 26))), true)
    case (Aircon, SetMode) => (s.(power := true, mode := Some(Else(c.mode, "cool"))), true)
    case (Curtain, TurnOn) => (s.(position := Some(100)), true)
    case (Curtain, TurnOff) => (s.(position := Some(0)), true)
    case (Curtain, SetPosition) => (s.(position := Some(Else(c.position, 0))), true)
    case _ => (s, false)
  }

  /** status_payload: only the attributes that are set. */
  function Report(s: DeviceState): Status {
    Status(Some(s.power), s.brightness, s.temperature, Else(s.mode, ""), s.position)
  }

  class DeviceSimulator {
    const kind: DeviceType
    var power: bool
    var brightness: Option<int>
    var temperature: Option<int>
    var mode: Option<string>
    var position: Option<int>

    ghost function Value(): DeviceState
      reads this
    {
      DeviceState(power, brightness, temperature, mode, position)
    }

    constructor (kind: DeviceType)
      ensures this.kind == kind
      ensures Value() == match kind
        case Light => DeviceState(false, Some(80), None, None, None)
        case Aircon => DeviceState(false, None, Some(26), Some("cool"), None)
        case Curtain => DeviceState(false, None, None, None, Some(0))
        case OtherType => DeviceState(false, None, None, None, None)
    {
      this.kind := kind;
      power := false;
      brightness := if kind == Light then Some(80) else None;
      temperature := if kind == Aircon then Some(26) else None;
      mode := if kind == Aircon then Some("cool") else None;
      position := if kind == Curtain then Some(0) else None;
    }

    method ApplyCommand(c: Command) returns (ok: bool)
      modifies this
      ensures (Value(), ok) == SimApply(kind, old(Value()), c)
      ensures ok <==> Supports(kind, Lower(c.action))
      ensures !ok ==> Value() == old(Value())
    {
      var action := Lower(c.action);
      match kind
      case Light => ok := ApplyLight(action, c);
      case Aircon => ok := ApplyAircon(action, c);
      case Curtain => ok := ApplyCurtain(action, c);
      case OtherType => ok := false;
    }

    method ApplyLight(action: string, c: Command) returns (ok: bool)
      requires kind == Light && action == Lower(c.action)
      modifies this
      ensures (Value(), ok) == SimApply(kind, old(Value()), c)
      ensures ok <==> Supports(Light, action)
      ensures action == "turn_on" || action == "on" ==>
        Value() == old(Value()).(power := true, brightness := if c.brightness.Some? then c.brightness else old(brightness))
      ensures action == "turn_off" || action == "off" ==> Value() == old(Value()).(power := false)
      ensures action == "set_brightness" ==>
        Value() == old(Value()).(power := true, brightness := Some(if c.brightness.Some? then c.brightness.value else 100))
      ensures !ok ==> Value() == old(Value())
    {
      if action == "turn_on" || action == "on" {
        power := true;
        if c.brightness.Some? {
          brightness := c.brightness;
        }
      } else if action == "turn_off" || action == "off" {
        power := false;
      } else if action == "set_brightness" {
        brightness := Some(Else(c.brightness, 100));
        power := true;
      } else {
        return false;
      }
      return true;
    }

    method ApplyAircon(action: string, c: Command) returns (ok: bool)
      requires kind == Aircon && action == Lower(c.action)
      modifies this
      ensures (Value(), ok) == SimApply(kind, old(Value()), c)
      ensures ok <==> Supports(Aircon, action)
      ensures action == "turn_on" || action == "on" ==> Value() == old(Value()).(power := true)
      ensures action == "turn_off" || action == "off" ==> Value() == old(Value()).(power := false)
      ensures action == "set_temperature" ==>
        Value() == old(Value()).(power := true, temperature := Some(if c.temperature.Some? then c.temperature.value else 26))
      ensures action == "set_mode" ==>
        Value() == old(Value()).(power := true, mode := Some(if c.mode.Some? then c.mode.value else "cool"))
      ensures !ok ==> Value() == old(Value())
    {
      if action == "turn_on" || action == "on" {
        power := true;
      } else if action == "turn_off" || action == "off" {
        power := false;
      } else if action == "set_temperature" {
        temperature := Some(Else(c.temperature, 26));
        power := true;
      } else if action == "set_mode" {
        mode := Some(Else(c.mode, "cool"));
        power := true;
      } else {
        return false;
      }
      return true;
    }

    method ApplyCurtain(action: string, c: Command) returns (ok: bool)
      requires kind == Curtain && action == Lower(c.action)
      modifies this
      ensures (Value(), ok) == SimApply(kind, old(Value()), c)
      ensures ok <==> Supports(Curtain, action)
      ensures action == "open" || action == "turn_on" || action == "on" ==> Value() == old(Value()).(position := Some(100))
      ensures action == "close" || action == "turn_off" || action == "off" ==> Value() == old(Value()).(position := Some(0))
      ensures action == "set_position" ==>
        Value() == old(Value()).(position := Some(if c.position.Some? then c.position.value else 0))
      ensures !ok ==> Value() == old(Value())
    {
      if action == "open" || action == "turn_on" || action == "on" {
        position := Some(100);
      } else if action == "close" || action == "turn_off" || action == "off" {
        position := Some(0);
      } else if action == "set_position" {
        position := Some(Else(c.position, 0));
      } else {
        return false;
      }
      return true;
    }

    /** The device's side of on_message: apply, then report. */
    method OnMessage(c: Command) returns (status: Status, ok: bool)
      modifies this
      ensures (Value(), ok) == SimApply(kind, old(Value()), c)
      ensures status == Report(Value())
      ensures ok <==> Supports(kind, Lower(c.action))
      ensures status.power == Some(power) && status.brightness == brightness && status.temperature == temperature
      ensures status.mode == (if mode.Some? then mode.value else "") && status.position == position
    {
      ok := ApplyCommand(c);
      status := Status(Some(power), brightness, temperature, if mode.Some? then mode.value else "", position);
    }
  }

  // ---- one command on both sides ----

  /** Agreement on power and on the attributes of the device's type. */
  predicate Agree(kind: DeviceType, server: DeviceState, sim: DeviceState) {
    && server.power == sim.power
    && (kind == Light ==> server.brightness == sim.brightness)
    && (kind == Aircon ==> server.temperature == sim.temperature && server.mode == sim.mode)
    && (kind == Curtain ==> server.position == sim.position)
  }

  /** When the two sides mean the same by a command the Server accepts.  For lights and air
      conditioners it fails on an explicit brightness in turn_on, and on actions the type does
      not have, which only the Server turns into "on".  A curtain never changes its power. */
  predicate SameMeaning(kind: DeviceType, sim: DeviceState, p: Params) {
    match (kind, p.action)
    case (Light, TurnOn) => p.brightness.None? || p.brightness == sim.brightness
    case (Light, TurnOff) => true
    case (Light, SetBrightness) => true
    case (Aircon, TurnOn) => true
    case (Aircon, TurnOff) => true
    case (Aircon, SetTemperature) => true
    case (Aircon, SetMode) => true
    case (Curtain, TurnOn) => sim.power && sim.position == Some(100)
    case (Curtain, TurnOff) => !sim.power && sim.position == Some(0)
    case (_, TurnOff) => !sim.power
    case _ => sim.power
  }

  /** The square commutes exactly for the commands both sides give the same meaning. */
  lemma SquareCommutesIff(kind: DeviceType, server: DeviceState, sim: DeviceState, p: Params)
    requires Agree(kind, server, sim) && ApplyAction(server, p).Changed?
    ensures Agree(kind, ApplyAction(server, p).state, SimApply(kind, sim, Published(p)).0) <==> SameMeaning(kind, sim, p)
  {
    NamesUnderstood(kind, p.action);
  }

  /** The commands of a light and of an air conditioner. */
  predicate Native(kind: DeviceType, p: Params) {
    match kind
    case Light => (p.action == TurnOn && p.brightness.None?) || p.action == TurnOff || p.action == SetBrightness
    case Aircon => p.action == TurnOn || p.action == TurnOff || p.action == SetTemperature || p.action == SetMode
    case _ => false
  }

  /** Both sides over a list of commands; what the Server rejects is not published. */
  function Both(kind: DeviceType, server: DeviceState, sim: DeviceState, ps: seq<Params>): (DeviceState, DeviceState) {
    if ps == [] then (server, sim)
    else
      var (a, b) := Both(kind, server, sim, ps[..|ps| - 1]);
      var p := ps[|ps| - 1];
      match ApplyAction(a, p)
      case Rejected(_) => (a, b)
      case Changed(next) => (next, SimApply(kind, b, Published(p)).0)
  }

  /** Over any list of native commands, agreeing sides stay in agreement. */
  lemma {:induction false} NativeCommandsKeepAgreement(kind: DeviceType, server: DeviceState, sim: DeviceState, ps: seq<Params>)
    requires Agree(kind, server, sim)
    requires forall i | 0 <= i < |ps| :: Native(kind, ps[i])
    ensures var (a, b) := Both(kind, server, sim, ps); Agree(kind, a, b)
    decreases |ps|
  {
    if ps != [] {
      var n := |ps| - 1;
      NativeCommandsKeepAgreement(kind, server, sim, ps[..n]);
      var (a, b) := Both(kind, server, sim, ps[..n]);
      if ApplyAction(a, ps[n]).Changed? {
        SquareCommutesIff(kind, a, b, ps[n]);
      }
    }
  }
}
