// The app's device cards (DeviceListViewModel.kt and the event parsing in
// RealtimeWebSocket.kt) as an overlay on the Server's states.
module Overlay {
  import opened Wire
  import opened Devices

  /** A device_state_changed event after parsing: a blank mode reads as absent. */
  datatype Event = Event(
    power: Option<bool>, brightness: Option<int>, temperature: Option<int>, mode: Option<string>, position: Option<int>)

  /** `blank` stands for Kotlin's notion of a blank string. */
  function Parse(blank: string -> bool, s: DeviceState): Event {
    Event(Some(s.power), s.brightness, s.temperature,
          if s.mode.Some? && blank(s.mode.value) then None else s.mode, s.position)
  }

  /** The null-keeps-old merge. */
  function Merge(card: Option<DeviceState>, e: Event): DeviceState {
    var base := if card.Some? then card.value else DeviceState(e.power == Some(true), None, None, None, None);
    DeviceState(
      if e.power.Some? then e.power.value else base.power,
      Or(e.brightness, base.brightness), Or(e.temperature, base.temperature),
      Or(e.mode, base.mode), Or(e.position, base.position))
  }

  /** Each attribute the event carries is taken, each other one stays; on a card without a state
      they are unset, and the power is off unless the event says on. */
  predicate TakesOver(before: Option<DeviceState>, e: Event, after: DeviceState) {
    && (e.power.Some? ==> after.power == e.power.value)
    && (e.power.None? ==> after.power == (before.Some? && before.value.power))
    && (e.brightness.Some? ==> after.brightness == e.brightness)
    && (e.brightness.None? ==> after.brightness == if before.Some? then before.value.brightness else None)
    && (e.temperature.Some? ==> after.temperature == e.temperature)
    && (e.temperature.None? ==> after.temperature == if before.Some? then before.value.temperature else None)
    && (e.mode.Some? ==> after.mode == e.mode)
    && (e.mode.None? ==> after.mode == if before.Some? then before.value.mode else None)
    && (e.position.Some? ==> after.position == e.position)
    && (e.position.None? ==> after.position == if before.Some? then before.value.position else None)
  }

  /** optimistic: only the power of a card changes. */
  function Toggle(card: Option<DeviceState>, power: bool): DeviceState {
    if card.Some? then card.value.(power := power) else DeviceState(power, None, None, None, None)
  }

  /** The card shows this power; its other attributes are what they were, or unset. */
  predicate Switched(before: Option<DeviceState>, power: bool, after: Option<DeviceState>) {
    && after.Some? && after.value.power == power
    && after.value.brightness == (if before.Some? then before.value.brightness else None)
    && after.value.temperature == (if before.Some? then before.value.temperature else None)
    && after.value.mode == (if before.Some? then before.value.mode else None)
    && after.value.position == (if before.Some? then before.value.position else None)
  }

  datatype Card = Card(deviceId: string, online: bool, state: Option<DeviceState>)

  datatype ApiResult<+T> = Success(value: T) | Failure(httpCode: int)

  predicate Unauthorized<T>(res: ApiResult<T>) {
    res.Failure? && res.httpCode == 401
  }

  /** A list that could not be fetched counts as empty. */
  function OrEmpty<T>(res: ApiResult<seq<T>>): seq<T> {
    if res.Success? then res.value else []
  }

  /** The state of a device in a list; of several, the last one. */
  function StateIn(states: seq<(string, DeviceState)>, id: string): Option<DeviceState> {
    if states == [] then None
    else
      var (key, state) := states[|states| - 1];
      if key == id then Some(state) else StateIn(states[..|states| - 1], id)
  }

  predicate Lists(states: seq<(string, DeviceState)>, from: nat, id: string) {
    exists j :: from <= j < |states| && states[j].0 == id
  }

  /** The state of the last entry with this id, or none if there is no such entry. */
  ghost predicate IsLastState(states: seq<(string, DeviceState)>, id: string, state: Option<DeviceState>) {
    match state
    case None => !Lists(states, 0, id)
    case Some(s) => exists j :: 0 <= j < |states| && states[j] == (id, s) && !Lists(states, j + 1, id)
  }

  lemma {:induction false} StateInMeaning(states: seq<(string, DeviceState)>, id: string)
    ensures IsLastState(states, id, StateIn(states, id))
    decreases |states|
  {
    if states != [] {
      var n := |states| - 1;
      var front := states[..n];
      if states[n].0 == id {
        assert states[n] == (id, states[n].1) && !Lists(states, n + 1, id);
      } else {
        StateInMeaning(front, id);
        assert forall j | 0 <= j < n :: states[j] == front[j];
        if StateIn(front, id).Some? {
          var j :| 0 <= j < n && front[j] == (id, StateIn(front, id).value) && !Lists(front, j + 1, id);
          assert states[j] == front[j] && !Lists(states, j + 1, id);
        }
      }
    }
  }

  class DeviceListViewModel {
    var cards: seq<Card>
    var pending: set<string>
    var unauthorized: bool

    constructor ()
      ensures cards == [] && pending == {} && !unauthorized
    {
      cards, pending, unauthorized := [], {}, false;
    }

    method SetStates(deviceId: string, update: Option<DeviceState> -> DeviceState)
      modifies this`cards
      ensures |cards| == |old(cards)|
      ensures forall i | 0 <= i < |cards| ::
        cards[i] == if old(cards)[i].deviceId == deviceId
                    then old(cards)[i].(state := Some(update(old(cards)[i].state))) else old(cards)[i]
    {
      var out: seq<Card> := [];
      for i := 0 to |cards|
        invariant |out| == i && cards == old(cards)
        invariant forall j | 0 <= j < i ::
          out[j] == if cards[j].deviceId == deviceId then cards[j].(state := Some(update(cards[j].state))) else cards[j]
      {
        var c := cards[i];
        out := out + [if c.deviceId == deviceId then c.(state := Some(update(c.state))) else c];
      }
      cards := out;
    }

    /** Only the cards of the event's device change, and only by the merge. */
    method OnRealtimeEvent(deviceId: string, e: Event)
      modifies this`cards
      ensures |cards| == |old(cards)|
      ensures forall i | 0 <= i < |cards| ::
        cards[i] == if old(cards)[i].deviceId == deviceId
                    then old(cards)[i].(state := Some(Merge(old(cards)[i].state, e))) else old(cards)[i]
      ensures forall i | 0 <= i < |cards| && cards[i].deviceId == deviceId ::
        cards[i].state.Some? && TakesOver(old(cards)[i].state, e, cards[i].state.value)
    {
      SetStates(deviceId, c => Merge(c, e));
    }

    /** The optimistic half of togglePower; None when the device is offline. */
    method TogglePower(card: Card) returns (target: Option<bool>)
      modifies this
      ensures target == if card.online then Some(!(card.state.Some? && card.state.value.power)) else None
      ensures unauthorized == old(unauthorized)
      ensures target.None? ==> cards == old(cards) && pending == old(pending)
      ensures target.Some? ==>
        && pending == old(pending) + {card.deviceId}
        && |cards| == |old(cards)|
        && forall i | 0 <= i < |cards| ::
             cards[i] == if old(cards)[i].deviceId == card.deviceId
                         then old(cards)[i].(state := Some(Toggle(old(cards)[i].state, target.value))) else old(cards)[i]
      ensures target.Some? ==> forall i | 0 <= i < |cards| && cards[i].deviceId == card.deviceId ::
        Switched(old(cards)[i].state, target.value, cards[i].state)
    {
      if !card.online {
        return None;
      }
      var power := !(card.state.Some? && card.state.value.power);
      pending := pending + {card.deviceId};
      SetStates(card.deviceId, c => Toggle(c, power));
      return Some(power);
    }

    /** The answer to a toggle: a failure other than 401 puts the old power back. */
    method ToggleAnswered(deviceId: string, target: bool, res: ApiResult<()>)
      modifies this
      ensures pending == old(pending) - {deviceId}
      ensures unauthorized == (old(unauthorized) || (res.Failure? && res.httpCode == 401))
      ensures |cards| == |old(cards)|
      ensures forall i | 0 <= i < |cards| ::
        cards[i] == if old(cards)[i].deviceId == deviceId && res.Failure? && res.httpCode != 401
                    then old(cards)[i].(state := Some(Toggle(old(cards)[i].state, !target))) else old(cards)[i]
      ensures res.Failure? && res.httpCode != 401 ==> forall i | 0 <= i < |cards| && cards[i].deviceId == deviceId ::
        Switched(old(cards)[i].state, !target, cards[i].state)
      ensures res.Success? || res.httpCode == 401 ==> cards == old(cards)
    {
      pending := pending - {deviceId};
      if res.Failure? {
        if res.httpCode == 401 {
          unauthorized := true;
          return;
        }
        SetStates(deviceId, c => Toggle(c, !target));
      }
    }

    /** refresh: after a 401 the cards stay; otherwise one card per listed device, with its state
        if one was fetched. */
    method Refresh(devicesRes: ApiResult<seq<(string, bool)>>, statesRes: ApiResult<seq<(string, DeviceState)>>)
      modifies this`cards, this`unauthorized
      ensures var refused :=
          (devicesRes.Failure? && devicesRes.httpCode == 401) || (statesRes.Failure? && statesRes.httpCode == 401);
        && unauthorized == (old(unauthorized) || refused)
        && (refused ==> cards == old(cards))
        && (!refused ==>
              var devices := if devicesRes.Success? then devicesRes.value else [];
              var states := if statesRes.Success? then statesRes.value else [];
              && |cards| == |devices|
              && forall i | 0 <= i < |devices| ::
                   && cards[i].deviceId == devices[i].0 && cards[i].online == devices[i].1
                   && IsLastState(states, devices[i].0, cards[i].state))
    {
      if Unauthorized(devicesRes) || Unauthorized(statesRes) {
        unauthorized := true;
        return;
      }
      var devices, states := OrEmpty(devicesRes), OrEmpty(statesRes);
      var out: seq<Card> := [];
      for i := 0 to |devices|
        invariant |out| == i && unauthorized == old(unauthorized)
        invariant forall j | 0 <= j < i ::
          && out[j].deviceId == devices[j].0 && out[j].online == devices[j].1
          && IsLastState(states, devices[j].0, out[j].state)
      {
        var (id, online) := devices[i];
        StateInMeaning(states, id);
        out := out + [Card(id, online, StateIn(states, id))];
      }
      cards := out;
    }
  }

  // ---- the Server never unsets an attribute ----

  /** Every attribute set in a is set in b. */
  predicate Covered(a: DeviceState, b: DeviceState) {
    && (a.brightness.Some? ==> b.brightness.Some?)
    && (a.temperature.Some? ==> b.temperature.Some?)
    && (a.mode.Some? ==> b.mode.Some?)
    && (a.position.Some? ==> b.position.Some?)
  }

  /** The three ways the Server writes a device state; a write that fails is no update. */
  datatype Update = Control(params: Params) | FromDevice(status: Status) | FromApp(request: PutRequest)

  function Updated(s: DeviceState, u: Update): DeviceState {
    match u
    case Control(p) => (match ApplyAction(s, p) case Changed(t) => t case Rejected(_) => s)
    case FromDevice(r) => Sync(s, r)
    case FromApp(r) => Put(s, r)
  }

  lemma UpdatesNeverUnset(s: DeviceState, u: Update)
    ensures Covered(s, Updated(s, u))
  {
  }

  /** The Server's successive states of one device. */
  ghost predicate IsHistory(states: seq<DeviceState>, updates: seq<Update>) {
    && |states| == |updates| + 1
    && forall i | 0 <= i < |updates| :: states[i + 1] == Updated(states[i], updates[i])
  }

  lemma {:induction false} HistoryCovers(states: seq<DeviceState>, updates: seq<Update>, i: nat, j: nat)
    requires IsHistory(states, updates) && i <= j < |states|
    ensures Covered(states[i], states[j])
    decreases j - i
  {
    if i < j {
      HistoryCovers(states, updates, i, j - 1);
      UpdatesNeverUnset(states[j - 1], updates[j - 1]);
    }
  }

  // ---- the card over a run ----

  /** What happens to a card: an event of some Server state arrives, the user toggles (or a
      toggle is rolled back), the card is loaded from some Server state, or a list without a
      state for the device is loaded. */
  datatype Happening = Arrives(at: nat) | Toggled(power: bool) | Loaded(at: nat) | Emptied

  predicate FromServer(h: Happening) {
    h.Arrives? || h.Loaded?
  }

  predicate Known(happenings: seq<Happening>, bound: nat) {
    forall i | 0 <= i < |happenings| && FromServer(happenings[i]) :: happenings[i].at < bound
  }

  function Happens(
    blank: string -> bool, states: seq<DeviceState>, card: Option<DeviceState>, h: Happening): Option<DeviceState>
    requires FromServer(h) ==> h.at < |states|
  {
    match h
    case Arrives(at) => Some(Merge(card, Parse(blank, states[at])))
    case Toggled(power) => Some(Toggle(card, power))
    case Loaded(at) => Some(states[at])
    case Emptied => None
  }

  function CardAfter(
    blank: string -> bool, states: seq<DeviceState>, card: Option<DeviceState>, happenings: seq<Happening>)
    : Option<DeviceState>
    requires Known(happenings, |states|)
  {
    if happenings == [] then card
    else
      var n := |happenings| - 1;
      Happens(blank, states, CardAfter(blank, states, card, happenings[..n]), happenings[n])
  }

  predicate OnlyToggles(happenings: seq<Happening>) {
    forall i | 0 <= i < |happenings| :: happenings[i].Toggled?
  }

  /** Toggles and rollbacks change nothing but the power; a card that is switched and rolled back
      to the power it had is the card it was. */
  lemma {:induction false} TogglesOnlySwitch(
    blank: string -> bool, states: seq<DeviceState>, card: DeviceState, happenings: seq<Happening>)
    requires OnlyToggles(happenings)
    ensures var after := CardAfter(blank, states, Some(card), happenings);
      && after.Some?
      && after == Some(card.(power := after.value.power))
      && (happenings != [] ==> after.value.power == happenings[|happenings| - 1].power)
      && (happenings != [] && happenings[|happenings| - 1].power == card.power ==> after == Some(card))
    decreases |happenings|
  {
    if happenings != [] {
      TogglesOnlySwitch(blank, states, card, happenings[..|happenings| - 1]);
    }
  }

  /** A merge shows the event's full state exactly when the card has nothing set that the event
      lacks, a blank mode counting as lacking unless the card already shows it. */
  lemma MergeShowsEventIff(blank: string -> bool, card: DeviceState, s: DeviceState)
    ensures Merge(Some(card), Parse(blank, s)) == s <==>
      && (s.brightness.None? ==> card.brightness.None?)
      && (s.temperature.None? ==> card.temperature.None?)
      && (s.position.None? ==> card.position.None?)
      && (s.mode.None? || blank(s.mode.value) ==> card.mode == s.mode)
  {
  }

  ghost predicate NoBlankModes(blank: string -> bool, states: seq<DeviceState>) {
    forall i | 0 <= i < |states| && states[i].mode.Some? :: !blank(states[i].mode.value)
  }

  /** A card sets no attribute that is unset in a Server state at least as new as all it heard. */
  lemma {:induction false} CardStaysCovered(
    blank: string -> bool, states: seq<DeviceState>, updates: seq<Update>, happenings: seq<Happening>, newest: nat)
    requires IsHistory(states, updates) && NoBlankModes(blank, states)
    requires newest < |states| && Known(happenings, newest + 1)
    ensures var c := CardAfter(blank, states, None, happenings); c.Some? ==> Covered(c.value, states[newest])
    decreases |happenings|
  {
    if happenings != [] {
      var n := |happenings| - 1;
      CardStaysCovered(blank, states, updates, happenings[..n], newest);
      if FromServer(happenings[n]) {
        HistoryCovers(states, updates, happenings[n].at, newest);
      }
    }
  }

  /** An event that arrives leaves the card showing exactly the Server state the event carries,
      if nothing the card has heard before is newer: whatever toggles, rollbacks and loads came
      between, in whatever order the older ones came, and however many were lost. */
  lemma DeliveredEventsShowFullState(
    blank: string -> bool, states: seq<DeviceState>, updates: seq<Update>, happenings: seq<Happening>, at: nat)
    requires IsHistory(states, updates) && NoBlankModes(blank, states)
    requires at < |states| && Known(happenings, at + 1)
    ensures CardAfter(blank, states, None, happenings + [Arrives(at)]) == Some(states[at])
  {
    var all := happenings + [Arrives(at)];
    assert all[..|happenings|] == happenings;
    CardStaysCovered(blank, states, updates, happenings, at);
  }

  /** Without the order it fails: a card loaded from a newer state keeps what an older event
      lacks, and then shows a state the Server never had. */
  lemma StaleEventMixesStates(blank: string -> bool) returns (states: seq<DeviceState>, updates: seq<Update>)
    ensures IsHistory(states, updates) && |states| == 3 && NoBlankModes(blank, states)
    ensures CardAfter(blank, states, None, [Loaded(2), Arrives(1)]).Some?
    ensures CardAfter(blank, states, None, [Loaded(2), Arrives(1)]).value !in states
  {
    var off := DeviceState(false, None, None, None, None);
    var p := Params("d", SetBrightness, Some(40), None, "", None);
    updates := [FromApp(PutRequest(Some(false), None, None, None, None)), Control(p)];
    states := [off, off, DeviceState(true, Some(40), None, None, None)];
    var hs := [Loaded(2), Arrives(1)];
    assert hs[..1] == [Loaded(2)] && hs[..1][..0] == [];
    assert CardAfter(blank, states, None, hs[..1]) == Some(states[2]);
    assert CardAfter(blank, states, None, hs) == Some(DeviceState(false, Some(40), None, None, None));
  }
}
