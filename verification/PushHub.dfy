// The push hub (server/internal/hub/hub.go): clients per user, bounded queues, and what a
// client receives.  A broadcast is one step.
module PushHub {
  import Devices

  /** A device_state_changed frame.  `at` is history: how many updates of that device the Server
      had made when it took this state. */
  datatype Frame = Frame(deviceId: string, state: Devices.DeviceState, at: nat)

  const SEND_BUFFER := 32

  /** One connection.  `seen`, `kept`, `dropped` and `failed` are history. */
  datatype Client = Client(
    user: int, queue: seq<Frame>, written: seq<Frame>, open: bool, pumping: bool,
    seen: seq<Frame>,      // broadcast to the user while the client was open
    kept: seq<Frame>,      // those of them that found fewer than 32 frames queued
    dropped: nat,          // refused by a full queue
    failed: nat)           // taken from the queue, but the write failed

  datatype State = State(clients: map<int, set<nat>>, conns: map<nat, Client>)

  function Members(s: State, user: int): set<nat> {
    if user in s.clients then s.clients[user] else {}
  }

  /** select with default: a full queue drops the frame. */
  function Offer(c: Client, event: Frame): Client {
    if |c.queue| < SEND_BUFFER then c.(queue := c.queue + [event]) else c.(dropped := c.dropped + 1)
  }

  /** History: every open client of the user was there to hear this event, and some had room. */
  function Witness(c: Client, user: int, event: Frame): Client {
    if c.open && c.user == user then
      c.(seen := c.seen + [event], kept := if |c.queue| < 32 then c.kept + [event] else c.kept)
    else c
  }

  function Registered(s: State, id: nat, user: int): State {
    State(s.clients[user := Members(s, user) + {id}],
          s.conns[id := Client(user, [], [], true, true, [], [], 0, 0)])
  }

  /** once.Do: the first Close unlinks the client and drops an empty user key. */
  function Closed(s: State, id: nat): State
    requires id in s.conns
  {
    var c := s.conns[id];
    if !c.open then s
    else
      var rest := Members(s, c.user) - {id};
      State(if c.user !in s.clients then s.clients
            else if rest == {} then s.clients - {c.user}
            else s.clients[c.user := rest],
            s.conns[id := c.(open := false)])
  }

  function Broadcast(s: State, user: int, event: Frame): State {
    s.(conns := map id | id in s.conns ::
      var c := Witness(s.conns[id], user, event);
      if id in Members(s, user) then Offer(c, event) else c)
  }

  /** A linked client with room queues the frame behind the others, a full one misses it, and the
      others are not concerned. */
  predicate Offered(before: Client, after: Client, linked: bool, event: Frame) {
    && after.user == before.user && after.open == before.open && after.pumping == before.pumping
    && after.written == before.written && after.failed == before.failed
    && after.queue == (if linked && |before.queue| < 32 then before.queue + [event] else before.queue)
    && after.dropped == before.dropped + (if linked && |before.queue| >= 32 then 1 else 0)
  }

  lemma BroadcastOffers(s: State, user: int, event: Frame)
    ensures forall id | id in s.conns ::
      Offered(s.conns[id], Broadcast(s, user, event).conns[id], user in s.clients && id in s.clients[user], event)
  {
  }

  /** writePump takes one frame; after a failed write it stops. */
  function Pump(s: State, id: nat, ok: bool): State
    requires id in s.conns && s.conns[id].pumping && s.conns[id].queue != []
  {
    var c := s.conns[id].(queue := s.conns[id].queue[1..]);
    s.(conns := s.conns[id :=
      if ok then c.(written := c.written + [s.conns[id].queue[0]]) else c.(pumping := false, failed := c.failed + 1)])
  }

  /** writePump ends without taking a frame: the reader stopped, or a ping failed. */
  function PumpStopped(s: State, id: nat): State
    requires id in s.conns
  {
    s.(conns := s.conns[id := s.conns[id].(pumping := false)])
  }

  class Hub {
    var clients: map<int, set<nat>>
    var conns: map<nat, Client>

    ghost function Value(): State
      reads this
    {
      State(clients, conns)
    }

    constructor ()
      ensures Value() == State(map[], map[])
    {
      clients, conns := map[], map[];
    }

    method Register(user: int, id: nat)
      requires id !in conns
      modifies this
      ensures Value() == Registered(old(Value()), id, user)
      ensures conns[id] == Client(user, [], [], true, true, [], [], 0, 0)
      ensures user in clients && id in clients[user]
    {
      conns := conns[id := Client(user, [], [], true, true, [], [], 0, 0)];
      if user !in clients {
        clients := clients[user := {}];
      }
      clients := clients[user := clients[user] + {id}];
      assert clients == Registered(old(Value()), id, user).clients;
    }

    method Close(id: nat)
      requires id in conns
      modifies this
      ensures Value() == Closed(old(Value()), id)
    {
      var c := conns[id];
      if !c.open {
        return;
      }
      if c.user in clients {
        var rest := clients[c.user] - {id};
        if rest == {} {
          clients := map u | u in clients && u != c.user :: clients[u];
        } else {
          clients := clients[c.user := rest];
        }
      }
      conns := conns[id := c.(open := false)];
    }

    method BroadcastToUser(user: int, event: Frame)
      requires forall u | u in clients :: clients[u] <= conns.Keys
      modifies this`conns
      ensures Value() == Broadcast(old(Value()), user, event)
      ensures conns.Keys == old(conns.Keys)
      ensures forall id | id in conns ::
        Offered(old(conns)[id], conns[id], user in clients && id in clients[user], event)
    {
      var targets := if user in clients then clients[user] else {};
      conns := map id | id in conns :: Witness(conns[id], user, event);
      ghost var heard := conns;
      var todo := targets;
      while todo != {}
        invariant todo <= targets <= conns.Keys == heard.Keys
        invariant forall id | id in conns :: conns[id] == if id in targets - todo then Offer(heard[id], event) else heard[id]
        decreases |todo|
      {
        var id :| id in todo;
        conns := conns[id := Offer(conns[id], event)];
        todo := todo - {id};
      }
      assert conns == Broadcast(old(Value()), user, event).conns;
      BroadcastOffers(old(Value()), user, event);
    }

    /** One frame taken by writePump; a failed write ends it. */
    method WriteNext(id: nat, ok: bool)
      requires id in conns && conns[id].pumping && conns[id].queue != []
      modifies this`conns
      ensures Value() == Pump(old(Value()), id, ok)
      ensures conns == old(conns)[id := conns[id]]
      ensures var before := old(conns)[id];
        && conns[id].queue == before.queue[1..]
        && conns[id].written == (if ok then before.written + [before.queue[0]] else before.written)
        && conns[id].pumping == ok
        && conns[id].failed == before.failed + (if ok then 0 else 1)
    {
      var c := conns[id];
      var data := c.queue[0];
      c := c.(queue := c.queue[1..]);
      if ok {
        c := c.(written := c.written + [data]);
      } else {
        c := c.(pumping := false, failed := c.failed + 1);
      }
      conns := conns[id := c];
    }
  }

  // ---- in-order subsequences ----

  predicate Subsequence(a: seq<Frame>, b: seq<Frame>) {
    if a == [] then true
    else if b == [] then false
    else
      || (a[|a| - 1] == b[|b| - 1] && Subsequence(a[..|a| - 1], b[..|b| - 1]))
      || Subsequence(a, b[..|b| - 1])
  }

  lemma SubsequenceGrows(a: seq<Frame>, b: seq<Frame>, e: Frame)
    requires Subsequence(a, b)
    ensures Subsequence(a, b + [e]) && Subsequence(a + [e], b + [e])
  {
    assert (b + [e])[..|b|] == b;
    assert (a + [e])[..|a|] == a;
  }

  lemma {:induction false} SubsequenceDrops(a: seq<Frame>, x: Frame, c: seq<Frame>, b: seq<Frame>)
    requires Subsequence(a + [x] + c, b)
    ensures Subsequence(a + c, b)
    decreases |b|
  {
    var w := a + [x] + c;
    if b == [] {
    } else {
      var front := b[..|b| - 1];
      if Subsequence(w, front) {
        SubsequenceDrops(a, x, c, front);
        assert Subsequence(a + c, front);
      } else {
        assert Subsequence(w[..|w| - 1], front);
        if c == [] {
          assert w[..|w| - 1] == a && a + c == a;
        } else {
          var d := c[..|c| - 1];
          assert w[..|w| - 1] == a + [x] + d;
          SubsequenceDrops(a, x, d, front);
          assert (a + c)[..|a + c| - 1] == a + d;
        }
      }
    }
  }

  lemma {:induction false} SubsequenceIsNotLonger(a: seq<Frame>, b: seq<Frame>)
    requires Subsequence(a, b)
    ensures |a| <= |b|
    ensures |a| == |b| ==> a == b
    decreases |b|
  {
    if a != [] {
      if Subsequence(a, b[..|b| - 1]) {
        SubsequenceIsNotLonger(a, b[..|b| - 1]);
      } else {
        SubsequenceIsNotLonger(a[..|a| - 1], b[..|b| - 1]);
        assert a == a[..|a| - 1] + [a[|a| - 1]];
        assert b == b[..|b| - 1] + [b[|b| - 1]];
      }
    }
  }

  // ---- runs ----

  datatype Step =
    | Registers(id: nat, user: int)
    | Closes(id: nat)
    | Broadcasts(user: int, event: Frame)
    | Pumps(id: nat, ok: bool)
    | StopsPump(id: nat)

  predicate Enabled(s: State, step: Step) {
    match step
    case Registers(id, _) => id !in s.conns
    case Closes(id) => id in s.conns
    case Broadcasts(_, _) => true
    case Pumps(id, _) => id in s.conns && s.conns[id].pumping && s.conns[id].queue != []
    case StopsPump(id) => id in s.conns && s.conns[id].pumping
  }

  function Apply(s: State, step: Step): State
    requires Enabled(s, step)
  {
    match step
    case Registers(id, user) => Registered(s, id, user)
    case Closes(id) => Closed(s, id)
    case Broadcasts(user, event) => Broadcast(s, user, event)
    case Pumps(id, ok) => Pump(s, id, ok)
    case StopsPump(id) => PumpStopped(s, id)
  }

  ghost predicate IsRun(states: seq<State>, steps: seq<Step>) {
    && |states| == |steps| + 1
    && states[0] == State(map[], map[])
    && forall i | 0 <= i < |steps| :: Enabled(states[i], steps[i]) && states[i + 1] == Apply(states[i], steps[i])
  }

  /** The table lists exactly the open clients, under their own users, and no empty set. */
  ghost predicate Linked(s: State) {
    && (forall u | u in s.clients :: s.clients[u] != {})
    && (forall u, id | u in s.clients && id in s.clients[u] :: id in s.conns && s.conns[id].open && s.conns[id].user == u)
    && (forall id | id in s.conns && s.conns[id].open :: s.conns[id].user in s.clients && id in s.clients[s.conns[id].user])
  }

  /** What became of the frames that found room: written, then lost to the one failed write that
      ends the pump, then queued. */
  predicate Accounted(c: Client) {
    && c.failed <= 1
    && (c.failed == 0 ==> c.kept == c.written + c.queue)
    && (c.failed == 1 ==>
          && !c.pumping
          && |c.kept| == |c.written| + 1 + |c.queue|
          && c.kept == c.written + [c.kept[|c.written|]] + c.queue)
  }

  /** What a client got, and how many frames it missed. */
  predicate Delivered(c: Client) {
    && |c.queue| <= SEND_BUFFER
    && Accounted(c)
    && Subsequence(c.kept, c.seen)
    && |c.seen| == |c.kept| + c.dropped
  }

  ghost predicate Inv(s: State) {
    Linked(s) && forall id | id in s.conns :: Delivered(s.conns[id])
  }

  lemma LinkedStep(s: State, step: Step)
    requires Linked(s) && Enabled(s, step)
    ensures Linked(Apply(s, step))
  {
    match step
    case Registers(id, user) =>
    case Closes(id) =>
      var t := Closed(s, id);
      forall other | other in t.conns && t.conns[other].open
        ensures t.conns[other].user in t.clients && other in t.clients[t.conns[other].user]
      {
        assert other in s.conns && s.conns[other].open;
        if s.conns[id].open && s.conns[other].user == s.conns[id].user {
          assert other in Members(s, s.conns[id].user) - {id};
        }
      }
    case Broadcasts(user, event) =>
    case Pumps(id, ok) =>
    case StopsPump(id) =>
  }

  lemma OfferAccounted(c: Client, event: Frame)
    requires Accounted(c)
    ensures Accounted(c.(queue := c.queue + [event], kept := c.kept + [event]))
  {
    if c.failed == 1 {
      var x := c.kept[|c.written|];
      assert c.written + [x] + c.queue + [event] == c.written + [x] + (c.queue + [event]);
    }
  }

  lemma OfferDelivered(c: Client, user: int, event: Frame)
    requires Delivered(c) && c.open && c.user == user
    ensures Delivered(Offer(Witness(c, user, event), event))
  {
    SubsequenceGrows(c.kept, c.seen, event);
    OfferAccounted(c, event);
  }

  lemma PumpDelivered(c: Client)
    requires Delivered(c) && c.pumping && c.queue != []
    ensures Delivered(c.(queue := c.queue[1..], written := c.written + [c.queue[0]]))
    ensures Delivered(c.(queue := c.queue[1..], pumping := false, failed := c.failed + 1))
  {
    var x, rest := c.queue[0], c.queue[1..];
    assert c.queue == [x] + rest;
    assert c.kept == (c.written + [x]) + rest;
  }

  lemma InvStep(s: State, step: Step)
    requires Inv(s) && Enabled(s, step)
    ensures Inv(Apply(s, step))
  {
    LinkedStep(s, step);
    var t := Apply(s, step);
    forall id | id in t.conns ensures Delivered(t.conns[id]) {
      if id in s.conns {
        var c := s.conns[id];
        assert Delivered(c);
        if step.Broadcasts? && c.open && c.user == step.user {
          assert id in Members(s, step.user);
          OfferDelivered(c, step.user, step.event);
        }
        if step.Pumps? && step.id == id {
          PumpDelivered(c);
        }
      }
    }
  }

  lemma GotInOrder(c: Client)
    requires Delivered(c)
    ensures Subsequence(c.written + c.queue, c.seen)
  {
    if c.failed == 1 {
      SubsequenceDrops(c.written, c.kept[|c.written|], c.queue, c.seen);
    }
  }

  /** For every client in every reachable state: frames written, then frames queued, are an
      in-order subsequence of the broadcasts to its own user between registration and close;
      a user has an entry exactly while it has an open client. */
  lemma {:induction false} DeliveryIsInOrder(states: seq<State>, steps: seq<Step>, k: nat)
    requires IsRun(states, steps) && k < |states|
    ensures Inv(states[k])
    ensures forall id | id in states[k].conns ::
      var c := states[k].conns[id]; Subsequence(c.written + c.queue, c.seen) && |c.queue| <= 32
    ensures forall u :: u in states[k].clients <==>
      exists id :: id in states[k].conns && states[k].conns[id].open && states[k].conns[id].user == u
  {
    if k > 0 {
      DeliveryIsInOrder(states, steps, k - 1);
      InvStep(states[k - 1], steps[k - 1]);
    }
    var s := states[k];
    assert Linked(s);
    forall id | id in s.conns ensures Subsequence(s.conns[id].written + s.conns[id].queue, s.conns[id].seen) {
      GotInOrder(s.conns[id]);
    }
    forall u | u in s.clients
      ensures exists id :: id in s.conns && s.conns[id].open && s.conns[id].user == u
    {
      var id :| id in s.clients[u];
      assert id in s.conns && s.conns[id].open && s.conns[id].user == u;
    }
  }

  /** A broadcast is kept exactly if it finds fewer than 32 frames queued, and what is kept is
      written or still queued, in order, but for the one frame of a failed write, which ends the
      pump. */
  lemma KeptIsDelivered(states: seq<State>, steps: seq<Step>, k: nat, id: nat)
    requires IsRun(states, steps) && k < |states| && id in states[k].conns
    ensures var c := states[k].conns[id];
      && c.failed <= 1
      && (c.failed == 0 ==> c.written + c.queue == c.kept)
      && (c.failed == 1 ==> !c.pumping && exists lost :: c.written + [lost] + c.queue == c.kept)
      && |c.seen| == |c.kept| + c.dropped
  {
    DeliveryIsInOrder(states, steps, k);
    assert Delivered(states[k].conns[id]);
  }

  /** What one step adds to the frames a client keeps, loses and misses. */
  lemma KeptStep(s: State, step: Step, id: nat)
    requires Linked(s) && Enabled(s, step) && id in s.conns
    ensures var c, d := s.conns[id], Apply(s, step).conns[id];
      && d.kept == (if Hears(c, step) && |c.queue| < 32 then c.kept + [step.event] else c.kept)
      && d.dropped == c.dropped + (if Hears(c, step) && |c.queue| >= 32 then 1 else 0)
      && d.seen == (if Hears(c, step) then c.seen + [step.event] else c.seen)
      && d.failed == c.failed + (if step == Pumps(id, false) then 1 else 0)
      && d.written == (if step == Pumps(id, true) then c.written + [c.queue[0]] else c.written)
      && d.open == (c.open && step != Closes(id))
      && d.pumping == (c.pumping && step != Pumps(id, false) && step != StopsPump(id))
  {
  }

  predicate Hears(c: Client, step: Step) {
    step.Broadcasts? && step.user == c.user && c.open
  }

  /** A client whose queue was never full at a broadcast, and whose writes all succeeded, has
      been written or still has queued every broadcast, in order. */
  lemma NothingLostUnlessFull(states: seq<State>, steps: seq<Step>, k: nat, id: nat)
    requires IsRun(states, steps) && k < |states| && id in states[k].conns
    requires states[k].conns[id].dropped == 0 && states[k].conns[id].failed == 0
    ensures states[k].conns[id].written + states[k].conns[id].queue == states[k].conns[id].seen
  {
    DeliveryIsInOrder(states, steps, k);
    assert Delivered(states[k].conns[id]);
    SubsequenceIsNotLonger(states[k].conns[id].kept, states[k].conns[id].seen);
  }

  /** A frame is dropped only at a broadcast that finds 32 frames queued. */
  lemma DropsNeedFullQueue(s: State, step: Step, id: nat)
    requires Linked(s) && Enabled(s, step) && id in s.conns && id in Apply(s, step).conns
    ensures Apply(s, step).conns[id].dropped > s.conns[id].dropped ==>
      step.Broadcasts? && step.user == s.conns[id].user && s.conns[id].open && |s.conns[id].queue| >= SEND_BUFFER
    ensures !s.conns[id].open ==>
      Apply(s, step).conns[id].seen == s.conns[id].seen && Apply(s, step).conns[id].dropped == s.conns[id].dropped
  {
  }

  /** What may still happen to a closed client: queued frames are written, or lost. */
  predicate OnlyDrains(before: Client, after: Client) {
    && !after.open
    && after.seen == before.seen && after.dropped == before.dropped
    && before.written <= after.written
    && |after.written| + |after.queue| <= |before.written| + |before.queue|
  }

  lemma ClosedStep(s: State, step: Step, id: nat)
    requires Linked(s) && Enabled(s, step) && id in s.conns && !s.conns[id].open
    ensures id in Apply(s, step).conns && OnlyDrains(s.conns[id], Apply(s, step).conns[id])
    ensures step == Closes(id) ==> Apply(s, step) == s
  {
  }

  /** Once closed, a client stays closed: it is sent no further broadcast, only what was queued
      can still be written, and closing it again changes nothing. */
  lemma {:induction false} ClosedForEver(states: seq<State>, steps: seq<Step>, i: nat, k: nat, id: nat)
    requires IsRun(states, steps) && i <= k < |states| && id in states[i].conns && !states[i].conns[id].open
    ensures id in states[k].conns && OnlyDrains(states[i].conns[id], states[k].conns[id])
    ensures k < |steps| && steps[k] == Closes(id) ==> states[k + 1] == states[k]
    decreases k
  {
    if i < k {
      ClosedForEver(states, steps, i, k - 1, id);
      DeliveryIsInOrder(states, steps, k - 1);
      ClosedStep(states[k - 1], steps[k - 1], id);
    }
  }
}
