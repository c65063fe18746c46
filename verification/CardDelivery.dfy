// From the push hub to the cards of the app: one connection carries the frames of all devices
// of a user, and frames dropped by a full queue leave no card with a mixture of states.
module CardDelivery {
  import opened Wire
  import opened Devices
  import opened Overlay
  import opened PushHub

  // ---- the frames of one device ----

  /** A frame of this device carries the Server state it names. */
  predicate Truthful(f: Frame, device: string, states: seq<DeviceState>) {
    f.deviceId == device ==> f.at < |states| && f.state == states[f.at]
  }

  predicate Ordered(f: Frame, g: Frame, device: string) {
    f.deviceId == device && g.deviceId == device ==> f.at <= g.at
  }

  /** The frames of one device are truthful and in state order; other devices' frames are free. */
  ghost predicate InStateOrder(frames: seq<Frame>, device: string, states: seq<DeviceState>) {
    && (forall i | 0 <= i < |frames| :: Truthful(frames[i], device, states))
    && forall i, j | 0 <= i < j < |frames| :: Ordered(frames[i], frames[j], device)
  }

  lemma {:induction false} SubsequenceElements(a: seq<Frame>, b: seq<Frame>)
    requires Subsequence(a, b)
    ensures forall i | 0 <= i < |a| :: a[i] in b
    decreases |b|
  {
    if a != [] {
      var front, rest := b[..|b| - 1], a[..|a| - 1];
      if Subsequence(a, front) {
        SubsequenceElements(a, front);
      } else {
        SubsequenceElements(rest, front);
        forall i | 0 <= i < |a| ensures a[i] in b {
          if i < |rest| { assert a[i] == rest[i]; }
        }
      }
    }
  }

  lemma {:induction false} SubsequenceKeepsOrder(a: seq<Frame>, b: seq<Frame>, device: string, states: seq<DeviceState>)
    requires Subsequence(a, b) && InStateOrder(b, device, states)
    ensures InStateOrder(a, device, states)
    decreases |b|
  {
    SubsequenceElements(a, b);
    if a != [] {
      var front, rest := b[..|b| - 1], a[..|a| - 1];
      if Subsequence(a, front) {
        SubsequenceKeepsOrder(a, front, device, states);
      } else {
        SubsequenceKeepsOrder(rest, front, device, states);
        SubsequenceElements(rest, front);
        forall i, j | 0 <= i < j < |a| ensures Ordered(a[i], a[j], device) {
          assert a[i] == rest[i];
          if j < |rest| {
            assert a[j] == rest[j];
          } else {
            var m :| 0 <= m < |front| && front[m] == rest[i];
            assert Ordered(b[m], b[|b| - 1], device);
          }
        }
      }
    }
  }

  // ---- what the app does with a connection ----

  datatype AppStep =
    | Receives(frame: Frame)
    | Toggles(power: bool)                       // of this card, or its rollback
    | Loads(state: DeviceState, at: nat)         // refresh; `at` is history
    | Empties                                    // a refresh that lists the device without a state
    | Unlists                                    // a refresh that does not list the device

  function Received(app: seq<AppStep>): seq<Frame> {
    if app == [] then []
    else
      var n := |app| - 1;
      if app[n].Receives? then Received(app[..n]) + [app[n].frame] else Received(app[..n])
  }

  /** Only a refresh brings a card, or takes it away. */
  datatype Shown = NoCard | Shown(state: Option<DeviceState>)

  /** One step, seen from the card of one device: frames of other devices pass it by. */
  function StepCard(blank: string -> bool, device: string, card: Shown, step: AppStep): Shown {
    match step
    case Receives(f) =>
      if card.Shown? && f.deviceId == device then Shown(Some(Merge(card.state, Parse(blank, f.state)))) else card
    case Toggles(power) => if card.Shown? then Shown(Some(Toggle(card.state, power))) else card
    case Loads(state, _) => Shown(Some(state))
    case Empties => Shown(None)
    case Unlists => NoCard
  }

  function CardOf(blank: string -> bool, device: string, app: seq<AppStep>): Shown {
    if app == [] then NoCard
    else StepCard(blank, device, CardOf(blank, device, app[..|app| - 1]), app[|app| - 1])
  }

  /** What one step means for the card. */
  function Meaning(device: string, step: AppStep): seq<Happening> {
    match step
    case Receives(f) => if f.deviceId == device then [Arrives(f.at)] else []
    case Toggles(power) => [Toggled(power)]
    case Loads(_, at) => [Loaded(at)]
    case Empties => [Emptied]
    case Unlists => [Emptied]
  }

  function Story(device: string, app: seq<AppStep>): seq<Happening> {
    if app == [] then [] else Story(device, app[..|app| - 1]) + Meaning(device, app[|app| - 1])
  }

  predicate StepTruthful(step: AppStep, device: string, states: seq<DeviceState>, newest: nat) {
    match step
    case Receives(f) => Truthful(f, device, states) && (f.deviceId == device ==> f.at <= newest)
    case Loads(state, at) => at < |states| && state == states[at] && at <= newest
    case _ => true
  }

  lemma MeaningIsStep(
    blank: string -> bool, device: string, story: seq<Happening>, step: AppStep, states: seq<DeviceState>, newest: nat)
    requires newest < |states| && Known(story, newest + 1) && StepTruthful(step, device, states, newest)
    ensures Known(story + Meaning(device, step), newest + 1)
    ensures forall card: Shown | card.Shown? ==> card.state == CardAfter(blank, states, None, story) ::
      var next := StepCard(blank, device, card, step);
      next.Shown? ==> next.state == CardAfter(blank, states, None, story + Meaning(device, step))
  {
    var last := Meaning(device, step);
    if last == [] {
      assert story + last == story;
    } else {
      assert (story + last)[..|story|] == story;
    }
  }

  lemma {:induction false} StoryIsCard(
    blank: string -> bool, device: string, app: seq<AppStep>, states: seq<DeviceState>, newest: nat)
    requires newest < |states|
    requires forall i | 0 <= i < |app| :: StepTruthful(app[i], device, states, newest)
    ensures Known(Story(device, app), newest + 1)
    ensures CardOf(blank, device, app).Shown? ==>
      CardOf(blank, device, app).state == CardAfter(blank, states, None, Story(device, app))
    decreases |app|
  {
    if app != [] {
      var n := |app| - 1;
      StoryIsCard(blank, device, app[..n], states, newest);
      MeaningIsStep(blank, device, Story(device, app[..n]), app[n], states, newest);
    }
  }

  lemma {:induction false} ReceivedIn(app: seq<AppStep>, i: nat)
    requires i < |app| && app[i].Receives?
    ensures app[i].frame in Received(app)
    decreases |app|
  {
    if i < |app| - 1 {
      ReceivedIn(app[..|app| - 1], i);
    }
  }

  /** Loads are truthful, and none is newer than the frame that arrives last. */
  predicate LoadsUpTo(app: seq<AppStep>, states: seq<DeviceState>, newest: nat) {
    forall i | 0 <= i < |app| && app[i].Loads? ::
      app[i].at < |states| && app[i].state == states[app[i].at] && app[i].at <= newest
  }

  /** For every client in every reachable state of the hub: the connection delivers the frames
      written, of all the user's devices; the app interleaves them with toggles, rollbacks and
      loads.  If the broadcasts about one device were truthful and in state order, then a frame
      of that device which is at least as new as every load leaves the device's card, if there is
      one, showing exactly the state the frame carries, whichever frames were dropped. */
  lemma CardShowsLastFrame(
    hub: seq<State>, steps: seq<Step>, k: nat, id: nat,
    blank: string -> bool, device: string, states: seq<DeviceState>, updates: seq<Update>,
    app: seq<AppStep>, last: Frame)
    requires IsRun(hub, steps) && k < |hub| && id in hub[k].conns
    requires IsHistory(states, updates) && NoBlankModes(blank, states)
    requires InStateOrder(hub[k].conns[id].seen, device, states)
    requires Received(app) + [last] <= hub[k].conns[id].written
    requires last.deviceId == device && LoadsUpTo(app, states, last.at)
    ensures CardOf(blank, device, app + [Receives(last)]) ==
      if CardOf(blank, device, app).Shown? then Shown(Some(last.state)) else NoCard
    ensures last.at < |states| && last.state == states[last.at]
  {
    DeliveryIsInOrder(hub, steps, k);
    var c := hub[k].conns[id];
    var all, got := c.written + c.queue, Received(app);
    SubsequenceKeepsOrder(all, c.seen, device, states);
    assert all[|got|] == last && Truthful(all[|got|], device, states);
    forall i | 0 <= i < |app| ensures StepTruthful(app[i], device, states, last.at) {
      if app[i].Receives? {
        ReceivedIn(app, i);
        var m :| 0 <= m < |got| && got[m] == app[i].frame;
        assert all[m] == got[m] && Ordered(all[m], all[|got|], device);
      }
    }
    StoryIsCard(blank, device, app, states, last.at);
    DeliveredEventsShowFullState(blank, states, updates, Story(device, app), last.at);
    assert (app + [Receives(last)])[..|app|] == app;
    var story := Story(device, app);
    assert (story + [Arrives(last.at)])[..|story|] == story;
  }
}
