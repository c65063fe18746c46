// The command log of a voice session (server/internal/handler/voice_session.go) under
// concurrent command handlers (handleDeviceCommand, server/internal/handler/voice.go).
// Every database call and every mutex section is one step.
module CommandLog {
  import Wire

  datatype Result = Pending | Success | Failure

  function Outcome(success: bool): Result {
    if success then Success else Failure
  }

  /** History: where the row's id is.  No branch reads it. */
  datatype Place =
    | Fresh(owner: nat)     // inserted by this handler, not yet in the map
    | Mapped             // in cmdByToolID
    | Displaced          // its map entry was overwritten
    | Held(owner: nat)      // taken from the map by this handler, not yet updated
    | Unsaved            // the update failed
    | Settled

  /** A device_command: its parameters as they came, and the device and action read from them
      (both empty if they do not parse). */
  datatype Order = Order(tool: string, deviceId: string, action: string, params: string)

  datatype Row = Row(message: nat, order: Order, result: Result, place: Place)

  datatype Message = Message(conversation: nat, fromUser: bool)

  /** What the session keeps and the rows it has inserted. */
  datatype Log = Log(last: nat, cmd: map<string, nat>, rows: map<nat, Row>)

  function SetPlace(rows: map<nat, Row>, id: nat, place: Place): map<nat, Row> {
    if id in rows then rows[id := rows[id].(place := place)] else rows
  }

  function Inserted(l: Log, id: nat, message: nat, order: Order, owner: nat): Log {
    l.(rows := l.rows[id := Row(message, order, Pending, Fresh(owner))])
  }

  /** cmdByToolID[tool] = id: an older id under the same key is gone. */
  function Recorded(l: Log, tool: string, id: nat): Log {
    var rows := if tool in l.cmd then SetPlace(l.rows, l.cmd[tool], Displaced) else l.rows;
    l.(cmd := l.cmd[tool := id], rows := SetPlace(rows, id, Mapped))
  }

  /** The zero value of a missing key. */
  function Entry(l: Log, tool: string): nat {
    if tool in l.cmd then l.cmd[tool] else 0
  }

  function Taken(l: Log, tool: string, owner: nat): Log {
    l.(cmd := l.cmd - {tool}, rows := SetPlace(l.rows, Entry(l, tool), Held(owner)))
  }

  /** UPDATE commands SET result ...; id 0 is skipped, a failing update only warns. */
  function Updated(l: Log, id: nat, success: bool, ok: bool): Log {
    if id !in l.rows then l
    else if ok then l.(rows := l.rows[id := l.rows[id].(result := Outcome(success), place := Settled)])
    else l.(rows := SetPlace(l.rows, id, Unsaved))
  }

  // ---- one call at a time, on the session object ----

  class VoiceSession {
    var lastUserMessageId: nat
    var cmdByToolId: map<string, nat>
    var rows: map<nat, Row>

    ghost function Value(): Log
      reads this
    {
      Log(lastUserMessageId, cmdByToolId, rows)
    }

    constructor ()
      ensures Value() == Log(0, map[], map[])
    {
      lastUserMessageId, cmdByToolId, rows := 0, map[], map[];
    }

    /** `inserted` is the id AppendUserMessage returned, None when it failed. */
    method AppendUser(inserted: Wire.Option<nat>)
      modifies this
      ensures Value() == if inserted.Some? then old(Value()).(last := inserted.value) else old(Value())
    {
      if inserted.None? {
        return;
      }
      lastUserMessageId := inserted.value;
    }

    /** `insert` is the id AppendCommand would return, None when it fails. */
    method RecordCommand(order: Order, insert: Wire.Option<nat>, owner: nat) returns (id: nat)
      modifies this
      ensures old(lastUserMessageId) == 0 || insert.None? ==> id == 0 && Value() == old(Value())
      ensures old(lastUserMessageId) != 0 && insert.Some? ==>
        id == insert.value &&
        Value() == Recorded(Inserted(old(Value()), id, old(lastUserMessageId), order, owner), order.tool, id)
      ensures old(lastUserMessageId) != 0 && insert.Some? ==>
        && id in rows && rows[id] == Row(old(lastUserMessageId), order, Pending, Mapped)
        && cmdByToolId == old(cmdByToolId)[order.tool := id]
    {
      var message := lastUserMessageId;
      if message == 0 {
        return 0;
      }
      if insert.None? {
        return 0;
      }
      id := insert.value;
      rows := rows[id := Row(message, order, Pending, Fresh(owner))];
      if order.tool in cmdByToolId {
        rows := SetPlace(rows, cmdByToolId[order.tool], Displaced);
      }
      cmdByToolId := cmdByToolId[order.tool := id];
      rows := SetPlace(rows, id, Mapped);
    }

    method MarkCommandResult(tool: string, success: bool, ok: bool, owner: nat)
      modifies this
      ensures Value() == Updated(Taken(old(Value()), tool, owner), Entry(old(Value()), tool), success, ok)
      ensures cmdByToolId == old(cmdByToolId) - {tool} && lastUserMessageId == old(lastUserMessageId)
      ensures tool in old(cmdByToolId) && old(cmdByToolId)[tool] in old(rows) ==>
        var id := old(cmdByToolId)[tool];
        && id in rows
        && rows[id].result == (if !ok then old(rows)[id].result else if success then Success else Failure)
        && rows[id].order == old(rows)[id].order && rows[id].message == old(rows)[id].message
      ensures forall id | id in old(rows) && id != Entry(old(Value()), tool) :: id in rows && rows[id] == old(rows)[id]
    {
      var id := if tool in cmdByToolId then cmdByToolId[tool] else 0;
      cmdByToolId := cmdByToolId - {tool};
      rows := SetPlace(rows, id, Held(owner));
      if id !in rows {
        return;
      }
      if ok {
        rows := rows[id := rows[id].(result := Outcome(success), place := Settled)];
      } else {
        rows := SetPlace(rows, id, Unsaved);
      }
    }
  }

  // ---- all interleavings ----

  /** `row` is the handler's own row, 0 when it recorded nothing. */
  datatype Phase =
    | Received
    | Read(message: nat)
    | HasRow(row: nat)
    | Ready(row: nat)
    | Ran(row: nat, success: bool)
    | Holding(row: nat, success: bool, taken: nat)
    | Done(row: nat, success: bool)

  datatype Handler = Handler(order: Order, phase: Phase)

  datatype State = State(
    log: Log,
    conversation: nat,              // 0 when the conversation was not started
    messages: map<nat, Message>,
    appended: set<nat>,             // user messages inserted, id not yet published
    handlers: map<nat, Handler>)

  datatype Step =
    | HearsFinal(id: nat)
    | Publishes(id: nat)
    | OtherMessage(id: nat, message: Message)
    | Arrives(h: nat, order: Order)
    | ReadsLast(h: nat)
    | Inserts(h: nat, insert: Wire.Option<nat>)
    | Records(h: nat)
    | Executes(h: nat, success: bool)
    | Takes(h: nat)
    | Updates(h: nat, ok: bool)

  ghost predicate Init(s: State) {
    && s.log == Log(0, map[], map[])
    && s.messages == map[] && s.appended == {} && s.handlers == map[]
  }

  /** Ids are AUTO_INCREMENT keys: never 0, never used before. */
  predicate Enabled(s: State, step: Step) {
    match step
    case HearsFinal(id) => s.conversation != 0 && id != 0 && id !in s.messages
    case Publishes(id) => id in s.appended
    case OtherMessage(id, message) => id != 0 && id !in s.messages
    case Arrives(h, order) => h !in s.handlers
    case ReadsLast(h) => h in s.handlers && s.handlers[h].phase.Received?
    case Inserts(h, insert) =>
      && h in s.handlers && s.handlers[h].phase.Read?
      && (insert.Some? ==> insert.value != 0 && insert.value !in s.log.rows)
    case Records(h) => h in s.handlers && s.handlers[h].phase.HasRow?
    case Executes(h, success) => h in s.handlers && s.handlers[h].phase.Ready?
    case Takes(h) => h in s.handlers && s.handlers[h].phase.Ran?
    case Updates(h, ok) => h in s.handlers && s.handlers[h].phase.Holding?
  }

  function Move(s: State, h: nat, phase: Phase): State
    requires h in s.handlers
  {
    s.(handlers := s.handlers[h := s.handlers[h].(phase := phase)])
  }

  function Apply(s: State, step: Step): State
    requires Enabled(s, step)
  {
    match step
    case HearsFinal(id) =>
      s.(messages := s.messages[id := Message(s.conversation, true)], appended := s.appended + {id})
    case Publishes(id) => s.(log := s.log.(last := id), appended := s.appended - {id})
    case OtherMessage(id, message) => s.(messages := s.messages[id := message])
    case Arrives(h, order) => s.(handlers := s.handlers[h := Handler(order, Received)])
    case ReadsLast(h) => Move(s, h, if s.log.last == 0 then Ready(0) else Read(s.log.last))
    case Inserts(h, insert) =>
      if insert.None? then Move(s, h, Ready(0))
      else
        var handler := s.handlers[h];
        Move(s.(log := Inserted(s.log, insert.value, handler.phase.message, handler.order, h)), h, HasRow(insert.value))
    case Records(h) =>
      var row := s.handlers[h].phase.row;
      Move(s.(log := Recorded(s.log, s.handlers[h].order.tool, row)), h, Ready(row))
    case Executes(h, success) => Move(s, h, Ran(s.handlers[h].phase.row, success))
    case Takes(h) =>
      var tool, p := s.handlers[h].order.tool, s.handlers[h].phase;
      Move(s.(log := Taken(s.log, tool, h)), h, Holding(p.row, p.success, Entry(s.log, tool)))
    case Updates(h, ok) =>
      var p := s.handlers[h].phase;
      Move(s.(log := Updated(s.log, p.taken, p.success, ok)), h, Done(p.row, p.success))
  }

  ghost predicate IsRun(states: seq<State>, steps: seq<Step>) {
    && |states| == |steps| + 1
    && Init(states[0])
    && forall i | 0 <= i < |steps| :: Enabled(states[i], steps[i]) && states[i + 1] == Apply(states[i], steps[i])
  }

  // ---- whatever the tool ids ----

  predicate IsOurs(s: State, id: nat) {
    id in s.messages && s.messages[id] == Message(s.conversation, true)
  }

  ghost predicate MessagesOurs(s: State) {
    && (s.log.last != 0 ==> IsOurs(s, s.log.last))
    && (forall id | id in s.appended :: IsOurs(s, id))
    && (forall h | h in s.handlers && s.handlers[h].phase.Read? :: IsOurs(s, s.handlers[h].phase.message))
    && (forall row | row in s.log.rows :: IsOurs(s, s.log.rows[row].message))
  }

  lemma MessagesStep(s: State, step: Step)
    requires MessagesOurs(s) && Enabled(s, step)
    ensures MessagesOurs(Apply(s, step))
  {
  }

  predicate AwaitsTake(p: Phase) {
    p.Ready? || p.Ran?
  }

  /** Each row is in exactly the place its tag names. */
  ghost predicate Placed(s: State) {
    && 0 !in s.log.rows
    && (forall row | row in s.log.rows :: PlacedRow(s, row, s.log.rows[row]))
    && (forall h | h in s.handlers && s.handlers[h].phase.HasRow? ::
          var row := s.handlers[h].phase.row;
          row in s.log.rows && s.log.rows[row].place == Fresh(h))
    && (forall tool | tool in s.log.cmd ::
          var row := s.log.cmd[tool];
          row in s.log.rows && s.log.rows[row].order.tool == tool && s.log.rows[row].place == Mapped)
    && (forall h | h in s.handlers && s.handlers[h].phase.Holding? && s.handlers[h].phase.taken != 0 ::
          var row := s.handlers[h].phase.taken;
          row in s.log.rows && s.log.rows[row].place == Held(h))
  }

  ghost predicate PlacedRow(s: State, row: nat, r: Row) {
    && (r.result != Pending <==> r.place.Settled?)
    && match r.place
       case Fresh(h) => h in s.handlers && s.handlers[h] == Handler(r.order, HasRow(row))
       case Mapped => r.order.tool in s.log.cmd && s.log.cmd[r.order.tool] == row
       case Held(h) => h in s.handlers && s.handlers[h].phase.Holding? && s.handlers[h].phase.taken == row
       case _ => true
  }

  lemma PlacedWhenInserted(s: State, h: nat, id: nat)
    requires Placed(s) && Enabled(s, Inserts(h, Wire.Some(id)))
    ensures Placed(Apply(s, Inserts(h, Wire.Some(id))))
  {
    var t := Apply(s, Inserts(h, Wire.Some(id)));
    forall row | row in t.log.rows ensures PlacedRow(t, row, t.log.rows[row]) {
      if row != id {
        assert PlacedRow(s, row, s.log.rows[row]);
      }
    }
  }

  lemma PlacedWhenRecorded(s: State, h: nat)
    requires Placed(s) && Enabled(s, Records(h))
    ensures Placed(Apply(s, Records(h)))
  {
    var t := Apply(s, Records(h));
    var tool, own := s.handlers[h].order.tool, s.handlers[h].phase.row;
    assert PlacedRow(s, own, s.log.rows[own]);
    forall row | row in t.log.rows ensures PlacedRow(t, row, t.log.rows[row]) {
      assert PlacedRow(s, row, s.log.rows[row]);
    }
    forall other | other in t.log.cmd
      ensures var row := t.log.cmd[other];
        row in t.log.rows && t.log.rows[row].order.tool == other && t.log.rows[row].place == Mapped
    {
      if other != tool {
        assert other in s.log.cmd;
      }
    }
  }

  lemma PlacedWhenTaken(s: State, h: nat)
    requires Placed(s) && Enabled(s, Takes(h))
    ensures Placed(Apply(s, Takes(h)))
  {
    var t := Apply(s, Takes(h));
    forall row | row in t.log.rows ensures PlacedRow(t, row, t.log.rows[row]) {
      assert PlacedRow(s, row, s.log.rows[row]);
    }
    forall other | other in t.log.cmd
      ensures var row := t.log.cmd[other];
        row in t.log.rows && t.log.rows[row].order.tool == other && t.log.rows[row].place == Mapped
    {
      assert other in s.log.cmd;
    }
  }

  lemma PlacedWhenUpdated(s: State, h: nat, ok: bool)
    requires Placed(s) && Enabled(s, Updates(h, ok))
    ensures Placed(Apply(s, Updates(h, ok)))
  {
    var t := Apply(s, Updates(h, ok));
    var taken := s.handlers[h].phase.taken;
    forall row | row in t.log.rows ensures PlacedRow(t, row, t.log.rows[row]) {
      assert PlacedRow(s, row, s.log.rows[row]);
    }
    forall other | other in t.log.cmd
      ensures var row := t.log.cmd[other];
        row in t.log.rows && t.log.rows[row].order.tool == other && t.log.rows[row].place == Mapped
    {
      assert other in s.log.cmd;
    }
  }

  lemma PlacedOtherwise(s: State, step: Step)
    requires Placed(s) && Enabled(s, step)
    requires !step.Records? && !step.Takes? && !step.Updates? && !(step.Inserts? && step.insert.Some?)
    ensures Placed(Apply(s, step)) && Apply(s, step).log.rows == s.log.rows
  {
    var t := Apply(s, step);
    forall row | row in t.log.rows ensures PlacedRow(t, row, t.log.rows[row]) {
      assert PlacedRow(s, row, s.log.rows[row]);
    }
  }

  lemma PlacedStep(s: State, step: Step)
    requires Placed(s) && Enabled(s, step)
    ensures Placed(Apply(s, step))
  {
    if step.Inserts? && step.insert.Some? {
      PlacedWhenInserted(s, step.h, step.insert.value);
    } else if step.Records? {
      PlacedWhenRecorded(s, step.h);
    } else if step.Takes? {
      PlacedWhenTaken(s, step.h);
    } else if step.Updates? {
      PlacedWhenUpdated(s, step.h, step.ok);
    } else {
      PlacedOtherwise(s, step);
    }
  }

  /** A key in the map was put there by a handler that has yet to take it. */
  ghost predicate Attended(s: State) {
    forall tool | tool in s.log.cmd ::
      exists h :: h in s.handlers && s.handlers[h].order.tool == tool && AwaitsTake(s.handlers[h].phase)
  }

  lemma AttendedStep(s: State, step: Step)
    requires Attended(s) && Enabled(s, step)
    ensures Attended(Apply(s, step))
  {
    var t := Apply(s, step);
    forall tool | tool in t.log.cmd
      ensures exists h :: h in t.handlers && t.handlers[h].order.tool == tool && AwaitsTake(t.handlers[h].phase)
    {
      if step.Records? && s.handlers[step.h].order.tool == tool {
        assert AwaitsTake(t.handlers[step.h].phase);
      } else {
        var h :| h in s.handlers && s.handlers[h].order.tool == tool && AwaitsTake(s.handlers[h].phase);
        assert h in t.handlers && t.handlers[h].order.tool == tool && AwaitsTake(t.handlers[h].phase);
      }
    }
  }

  lemma {:induction false} Sound(states: seq<State>, steps: seq<Step>, k: nat)
    requires IsRun(states, steps) && k < |states|
    ensures MessagesOurs(states[k]) && Placed(states[k]) && Attended(states[k])
  {
    if k > 0 {
      Sound(states, steps, k - 1);
      MessagesStep(states[k - 1], steps[k - 1]);
      PlacedStep(states[k - 1], steps[k - 1]);
      AttendedStep(states[k - 1], steps[k - 1]);
    }
  }

  /** Every recorded command hangs under a user message of this session's conversation. */
  lemma RowsBelongToConversation(states: seq<State>, steps: seq<Step>, k: nat, row: nat)
    requires IsRun(states, steps) && k < |states| && row in states[k].log.rows
    ensures states[k].log.rows[row].message in states[k].messages
    ensures states[k].messages[states[k].log.rows[row].message] == Message(states[k].conversation, true)
  {
    Sound(states, steps, k);
    assert IsOurs(states[k], states[k].log.rows[row].message);
  }

  ghost predicate Quiescent(s: State) {
    forall h | h in s.handlers :: s.handlers[h].phase.Done?
  }

  /** Some handler recorded its own row while this one was still in the map under its tool id. */
  ghost predicate WasDisplaced(states: seq<State>, steps: seq<Step>, k: nat, row: nat)
    requires |states| == |steps| + 1 && k <= |steps|
  {
    exists i :: 0 <= i < k && DisplacesAt(states[i], steps[i], row)
  }

  predicate DisplacesAt(s: State, step: Step, row: nat) {
    step.Records? && step.h in s.handlers && Entry(s.log, s.handlers[step.h].order.tool) == row
  }

  ghost predicate UpdateFailed(states: seq<State>, steps: seq<Step>, k: nat, row: nat)
    requires |states| == |steps| + 1 && k <= |steps|
  {
    exists i :: 0 <= i < k && FailsAt(states[i], steps[i], row)
  }

  predicate FailsAt(s: State, step: Step, row: nat) {
    && step.Updates? && !step.ok && step.h in s.handlers
    && s.handlers[step.h].phase.Holding? && s.handlers[step.h].phase.taken == row
  }

  lemma TagStep(s: State, step: Step, row: nat)
    requires Placed(s) && Enabled(s, step) && row in s.log.rows
    ensures row in Apply(s, step).log.rows
    ensures Apply(s, step).log.rows[row].place.Displaced? <==> s.log.rows[row].place.Displaced? || DisplacesAt(s, step, row)
    ensures Apply(s, step).log.rows[row].place.Unsaved? <==> s.log.rows[row].place.Unsaved? || FailsAt(s, step, row)
    ensures s.log.rows[row].result != Pending ==> Apply(s, step).log.rows[row].result == s.log.rows[row].result
    ensures Apply(s, step).log.rows[row].order == s.log.rows[row].order
    ensures Apply(s, step).log.rows[row].message == s.log.rows[row].message
  {
    assert PlacedRow(s, row, s.log.rows[row]);
  }

  lemma NewRow(s: State, step: Step, row: nat)
    requires Placed(s) && Enabled(s, step) && row !in s.log.rows && row != 0
    ensures !DisplacesAt(s, step, row) && !FailsAt(s, step, row)
    ensures row in Apply(s, step).log.rows ==> Apply(s, step).log.rows[row].place.Fresh?
  {
  }

  lemma HistoryGrows(states: seq<State>, steps: seq<Step>, k: nat, row: nat)
    requires |states| == |steps| + 1 && 0 < k <= |steps|
    ensures WasDisplaced(states, steps, k, row) <==>
      WasDisplaced(states, steps, k - 1, row) || DisplacesAt(states[k - 1], steps[k - 1], row)
    ensures UpdateFailed(states, steps, k, row) <==>
      UpdateFailed(states, steps, k - 1, row) || FailsAt(states[k - 1], steps[k - 1], row)
  {
  }

  lemma {:induction false} TagsAreHistory(states: seq<State>, steps: seq<Step>, k: nat, row: nat)
    requires IsRun(states, steps) && k <= |steps| && row != 0
    ensures (row in states[k].log.rows && states[k].log.rows[row].place.Displaced?) <==> WasDisplaced(states, steps, k, row)
    ensures (row in states[k].log.rows && states[k].log.rows[row].place.Unsaved?) <==> UpdateFailed(states, steps, k, row)
  {
    if k > 0 {
      var s, step := states[k - 1], steps[k - 1];
      Sound(states, steps, k - 1);
      TagsAreHistory(states, steps, k - 1, row);
      assert states[k] == Apply(s, step);
      if row in s.log.rows {
        TagStep(s, step, row);
      } else {
        NewRow(s, step, row);
      }
      HistoryGrows(states, steps, k, row);
    }
  }

  /** Once every handler is done the map is empty, and a row is still pending exactly when a
      later command with its tool id displaced it, or its own update failed. */
  lemma PendingAtQuiescence(states: seq<State>, steps: seq<Step>, row: nat)
    requires IsRun(states, steps) && Quiescent(states[|steps|]) && row in states[|steps|].log.rows
    ensures states[|steps|].log.cmd == map[]
    ensures states[|steps|].log.rows[row].result == Pending <==>
      WasDisplaced(states, steps, |steps|, row) || UpdateFailed(states, steps, |steps|, row)
  {
    var s := states[|steps|];
    Sound(states, steps, |steps|);
    TagsAreHistory(states, steps, |steps|, row);
    forall tool ensures tool !in s.log.cmd {
    }
    assert PlacedRow(s, row, s.log.rows[row]);
  }

  /** A row leaves pending at most once: a result once set never changes. */
  lemma {:induction false} ResultIsFinal(states: seq<State>, steps: seq<Step>, i: nat, k: nat, row: nat)
    requires IsRun(states, steps) && i <= k < |states|
    requires row in states[i].log.rows && states[i].log.rows[row].result != Pending
    ensures row in states[k].log.rows && states[k].log.rows[row].result == states[i].log.rows[row].result
    decreases k
  {
    if i < k {
      ResultIsFinal(states, steps, i, k - 1, row);
      Sound(states, steps, k - 1);
      TagStep(states[k - 1], steps[k - 1], row);
    }
  }

  // ---- tool ids distinct among handlers that have not taken their entry ----

  predicate Live(p: Phase) {
    !p.Holding? && !p.Done?
  }

  ghost predicate FreshArrival(s: State, step: Step) {
    step.Arrives? ==> forall h | h in s.handlers && Live(s.handlers[h].phase) :: s.handlers[h].order.tool != step.order.tool
  }

  ghost predicate IsDistinctRun(states: seq<State>, steps: seq<Step>) {
    IsRun(states, steps) && forall i | 0 <= i < |steps| :: FreshArrival(states[i], steps[i])
  }

  ghost predicate LiveDistinct(s: State) {
    forall a, b | a in s.handlers && b in s.handlers && Live(s.handlers[a].phase) && Live(s.handlers[b].phase) ::
      s.handlers[a].order.tool == s.handlers[b].order.tool ==> a == b
  }

  predicate Waits(s: State, h: nat, row: nat) {
    h in s.handlers && AwaitsTake(s.handlers[h].phase) && s.handlers[h].phase.row == row && row != 0
  }

  /** The row of this handler carries this handler's own outcome, unless its update failed. */
  predicate OwnOutcome(s: State, p: Phase)
    requires p.Done?
  {
    p.row != 0 ==>
      p.row in s.log.rows &&
      (s.log.rows[p.row].place.Unsaved? || s.log.rows[p.row].result == Outcome(p.success))
  }

  ghost predicate WaitersMapped(s: State) {
    forall h, row | Waits(s, h, row) :: Entry(s.log, s.handlers[h].order.tool) == row
  }

  ghost predicate MappedWait(s: State) {
    forall tool | tool in s.log.cmd :: exists h :: Waits(s, h, s.log.cmd[tool]) && s.handlers[h].order.tool == tool
  }

  ghost predicate TakenIsOwn(s: State) {
    forall h | h in s.handlers && s.handlers[h].phase.Holding? :: s.handlers[h].phase.taken == s.handlers[h].phase.row
  }

  ghost predicate OutcomesOwn(s: State) {
    forall h | h in s.handlers && s.handlers[h].phase.Done? :: OwnOutcome(s, s.handlers[h].phase)
  }

  ghost predicate Own(s: State) {
    LiveDistinct(s) && WaitersMapped(s) && MappedWait(s) && TakenIsOwn(s) && OutcomesOwn(s)
  }

  lemma DistinctStep(s: State, step: Step)
    requires LiveDistinct(s) && Enabled(s, step) && FreshArrival(s, step)
    ensures LiveDistinct(Apply(s, step))
  {
  }

  lemma WaitersMappedStep(s: State, step: Step)
    requires Placed(s) && LiveDistinct(s) && WaitersMapped(s) && Enabled(s, step)
    ensures WaitersMapped(Apply(s, step))
  {
    var t := Apply(s, step);
    forall h, row | Waits(t, h, row) ensures Entry(t.log, t.handlers[h].order.tool) == row {
      if Waits(s, h, row) {
        assert Live(s.handlers[h].phase) && Entry(s.log, s.handlers[h].order.tool) == row;
      } else {
        assert step == Records(h);
      }
    }
  }

  lemma WaitsStays(s: State, step: Step, h: nat, row: nat)
    requires Enabled(s, step) && Waits(s, h, row) && step != Takes(h)
    ensures Waits(Apply(s, step), h, row) && Apply(s, step).handlers[h].order == s.handlers[h].order
  {
  }

  /** How a step changes the map. */
  lemma MapStep(s: State, step: Step)
    requires Enabled(s, step)
    ensures Apply(s, step).log.cmd ==
      if step.Records? then s.log.cmd[s.handlers[step.h].order.tool := s.handlers[step.h].phase.row]
      else if step.Takes? then s.log.cmd - {s.handlers[step.h].order.tool}
      else s.log.cmd
  {
  }

  lemma MappedWaitStep(s: State, step: Step)
    requires MappedWait(s) && Placed(s) && Enabled(s, step)
    ensures MappedWait(Apply(s, step))
  {
    var t := Apply(s, step);
    MapStep(s, step);
    forall tool | tool in t.log.cmd
      ensures exists h :: Waits(t, h, t.log.cmd[tool]) && t.handlers[h].order.tool == tool
    {
      if step.Records? && s.handlers[step.h].order.tool == tool {
        assert Waits(t, step.h, t.log.cmd[tool]);
      } else {
        var h :| Waits(s, h, s.log.cmd[tool]) && s.handlers[h].order.tool == tool;
        WaitsStays(s, step, h, s.log.cmd[tool]);
      }
    }
  }

  lemma TakenIsOwnStep(s: State, step: Step)
    requires LiveDistinct(s) && WaitersMapped(s) && MappedWait(s) && TakenIsOwn(s) && Enabled(s, step)
    ensures TakenIsOwn(Apply(s, step))
  {
    if step.Takes? {
      var tool, own := s.handlers[step.h].order.tool, s.handlers[step.h].phase.row;
      if own != 0 {
        assert Waits(s, step.h, own);
      }
    }
  }

  lemma OutcomesOwnStep(s: State, step: Step)
    requires Placed(s) && TakenIsOwn(s) && OutcomesOwn(s) && Enabled(s, step)
    ensures OutcomesOwn(Apply(s, step))
  {
    var t := Apply(s, step);
    forall h | h in t.handlers && t.handlers[h].phase.Done? ensures OwnOutcome(t, t.handlers[h].phase) {
      if h in s.handlers && s.handlers[h].phase.Done? {
        var p := s.handlers[h].phase;
        assert OwnOutcome(s, p);
        if p.row != 0 {
          assert PlacedRow(s, p.row, s.log.rows[p.row]);
          TagStep(s, step, p.row);
        }
      }
    }
  }

  lemma OwnStep(s: State, step: Step)
    requires Placed(s) && Own(s) && Enabled(s, step) && FreshArrival(s, step)
    ensures Own(Apply(s, step))
  {
    DistinctStep(s, step);
    WaitersMappedStep(s, step);
    MappedWaitStep(s, step);
    TakenIsOwnStep(s, step);
    OutcomesOwnStep(s, step);
  }

  lemma {:induction false} OwnRun(states: seq<State>, steps: seq<Step>, k: nat)
    requires IsDistinctRun(states, steps) && k < |states|
    ensures Own(states[k])
  {
    if k > 0 {
      OwnRun(states, steps, k - 1);
      Sound(states, steps, k - 1);
      OwnStep(states[k - 1], steps[k - 1]);
    }
  }

  /** With distinct live tool ids, in every reachable state, cmdByToolID holds exactly the rows
      whose handler has recorded them and not taken them yet, each under its own tool id. */
  lemma MapIsExact(states: seq<State>, steps: seq<Step>, k: nat, tool: string, row: nat)
    requires IsDistinctRun(states, steps) && k < |states|
    ensures (tool in states[k].log.cmd && states[k].log.cmd[tool] == row) <==>
      exists h :: Waits(states[k], h, row) && states[k].handlers[h].order.tool == tool
  {
    OwnRun(states, steps, k);
    Sound(states, steps, k);
  }

  lemma NeverDisplacesHere(s: State, step: Step, row: nat)
    requires Own(s) && Enabled(s, step) && row != 0
    ensures !DisplacesAt(s, step, row)
  {
  }

  /** The handler inserted this row, for its own command. */
  predicate Owns(s: State, h: nat, row: nat)
    requires row in s.log.rows
  {
    && h in s.handlers
    && !s.handlers[h].phase.Received? && !s.handlers[h].phase.Read?
    && s.handlers[h].phase.row == row
    && s.handlers[h].order == s.log.rows[row].order
  }

  lemma OwnsStays(s: State, step: Step, h: nat, row: nat)
    requires Placed(s) && Enabled(s, step) && row in s.log.rows && Owns(s, h, row)
    ensures row in Apply(s, step).log.rows && Owns(Apply(s, step), h, row)
  {
    TagStep(s, step, row);
  }

  lemma {:induction false} EveryRowHasHandler(states: seq<State>, steps: seq<Step>, k: nat, row: nat)
    requires IsRun(states, steps) && k < |states| && row in states[k].log.rows
    ensures exists h :: Owns(states[k], h, row)
  {
    if k > 0 {
      var s, step, t := states[k - 1], steps[k - 1], states[k];
      assert t == Apply(s, step);
      if row in s.log.rows {
        Sound(states, steps, k - 1);
        EveryRowHasHandler(states, steps, k - 1, row);
        var h :| Owns(s, h, row);
        OwnsStays(s, step, h, row);
      } else {
        assert Owns(t, step.h, row);
      }
    }
  }

  // ---- where a row's message and outcome come from ----

  /** The handler read this id as the session's last user message. */
  ghost predicate ReadLast(states: seq<State>, steps: seq<Step>, k: nat, h: nat, message: nat)
    requires |states| == |steps| + 1 && k <= |steps|
  {
    exists i :: 0 <= i < k && steps[i] == ReadsLast(h) && states[i].log.last == message
  }

  lemma {:induction false} ReadersHaveRead(states: seq<State>, steps: seq<Step>, k: nat, h: nat)
    requires IsRun(states, steps) && k < |states| && h in states[k].handlers && states[k].handlers[h].phase.Read?
    ensures ReadLast(states, steps, k, h, states[k].handlers[h].phase.message)
  {
    if k > 0 {
      var s, step := states[k - 1], steps[k - 1];
      if step == ReadsLast(h) {
        assert s.log.last == states[k].handlers[h].phase.message;
      } else {
        ReadersHaveRead(states, steps, k - 1, h);
        var i :| 0 <= i < k - 1 && steps[i] == ReadsLast(h) && states[i].log.last == s.handlers[h].phase.message;
      }
    }
  }

  lemma InsertedBy(s: State, step: Step, row: nat)
    requires Enabled(s, step) && row !in s.log.rows && row in Apply(s, step).log.rows
    ensures step.Inserts? && s.handlers[step.h].phase == Read(Apply(s, step).log.rows[row].message)
    ensures Apply(s, step).log.rows[row].order == s.handlers[step.h].order
  {
  }

  lemma OrdersStay(s: State, step: Step, h: nat)
    requires Enabled(s, step) && h in s.handlers
    ensures h in Apply(s, step).handlers && Apply(s, step).handlers[h].order == s.handlers[h].order
  {
  }

  lemma ReadLastGrows(states: seq<State>, steps: seq<Step>, k: nat, h: nat, message: nat)
    requires |states| == |steps| + 1 && k < |steps| && ReadLast(states, steps, k, h, message)
    ensures ReadLast(states, steps, k + 1, h, message)
  {
  }

  /** This handler's command is the row's, and it read the row's message as the last one. */
  ghost predicate HangsBy(states: seq<State>, steps: seq<Step>, k: nat, row: nat, h: nat)
    requires |states| == |steps| + 1 && k <= |steps| && row in states[k].log.rows
  {
    && h in states[k].handlers && states[k].handlers[h].order == states[k].log.rows[row].order
    && ReadLast(states, steps, k, h, states[k].log.rows[row].message)
  }

  /** A row hangs under the message that was the session's last user message when the handler
      of that very command read it. */
  lemma {:induction false} RowsHangUnderLast(states: seq<State>, steps: seq<Step>, k: nat, row: nat)
    requires IsRun(states, steps) && k < |states| && row in states[k].log.rows
    ensures exists h :: HangsBy(states, steps, k, row, h)
  {
    if k > 0 {
      var s, step := states[k - 1], steps[k - 1];
      var h: nat;
      if row in s.log.rows {
        RowsHangUnderLast(states, steps, k - 1, row);
        Sound(states, steps, k - 1);
        TagStep(s, step, row);
        h :| HangsBy(states, steps, k - 1, row, h);
      } else {
        InsertedBy(s, step, row);
        h := step.h;
        ReadersHaveRead(states, steps, k - 1, h);
      }
      OrdersStay(s, step, h);
      ReadLastGrows(states, steps, k - 1, h, states[k].log.rows[row].message);
      assert HangsBy(states, steps, k, row, h);
    }
  }

  /** The message published last, 0 before the first. */
  function LastPublished(steps: seq<Step>): nat {
    if steps == [] then 0
    else
      var step := steps[|steps| - 1];
      if step.Publishes? then step.id else LastPublished(steps[..|steps| - 1])
  }

  lemma {:induction false} LastIsPublished(states: seq<State>, steps: seq<Step>, k: nat)
    requires IsRun(states, steps) && k < |states|
    ensures states[k].log.last == LastPublished(steps[..k])
  {
    if k > 0 {
      LastIsPublished(states, steps, k - 1);
      assert steps[..k][..k - 1] == steps[..k - 1];
    }
  }

  /** The handler's command has been executed with this outcome. */
  ghost predicate WasExecuted(steps: seq<Step>, k: nat, h: nat, success: bool)
    requires k <= |steps|
  {
    exists i :: 0 <= i < k && steps[i] == Executes(h, success)
  }

  lemma {:induction false} OutcomesWereExecuted(states: seq<State>, steps: seq<Step>, k: nat, h: nat)
    requires IsRun(states, steps) && k < |states| && h in states[k].handlers
    requires var p := states[k].handlers[h].phase; p.Ran? || p.Holding? || p.Done?
    ensures WasExecuted(steps, k, h, states[k].handlers[h].phase.success)
  {
    if k > 0 {
      var step := steps[k - 1];
      if !(step.Executes? && step.h == h) {
        OutcomesWereExecuted(states, steps, k - 1, h);
        var i :| 0 <= i < k - 1 && steps[i] == Executes(h, states[k - 1].handlers[h].phase.success);
      } else {
        assert steps[k - 1] == Executes(h, states[k].handlers[h].phase.success);
      }
    }
  }

  /** With distinct live tool ids nothing is displaced: once every handler is done, every row
      whose update worked carries the outcome with which its own command was executed. */
  lemma RowsCarryOwnOutcome(states: seq<State>, steps: seq<Step>, row: nat)
    requires IsDistinctRun(states, steps) && Quiescent(states[|steps|])
    requires row in states[|steps|].log.rows && !UpdateFailed(states, steps, |steps|, row)
    ensures !WasDisplaced(states, steps, |steps|, row)
    ensures var s := states[|steps|];
      exists h, success ::
        && h in s.handlers && s.handlers[h] == Handler(s.log.rows[row].order, Done(row, success))
        && WasExecuted(steps, |steps|, h, success)
        && (success ==> s.log.rows[row].result == Success)
        && (!success ==> s.log.rows[row].result == Failure)
  {
    var s := states[|steps|];
    Sound(states, steps, |steps|);
    OwnRun(states, steps, |steps|);
    EveryRowHasHandler(states, steps, |steps|, row);
    TagsAreHistory(states, steps, |steps|, row);
    var h :| Owns(s, h, row);
    assert OwnOutcome(s, s.handlers[h].phase);
    OutcomesWereExecuted(states, steps, |steps|, h);
    forall i | 0 <= i < |steps| ensures !DisplacesAt(states[i], steps[i], row) {
      OwnRun(states, steps, i);
      NeverDisplacesHere(states[i], steps[i], row);
    }
  }

  // ---- two live commands with one tool id ----

  ghost predicate UpdatesWork(steps: seq<Step>) {
    forall i | 0 <= i < |steps| && steps[i].Updates? :: steps[i].ok
  }

  lemma Extend(states: seq<State>, steps: seq<Step>, step: Step) returns (longer: seq<State>, more: seq<Step>)
    requires IsRun(states, steps) && UpdatesWork(steps) && Enabled(states[|steps|], step)
    requires step.Updates? ==> step.ok
    ensures IsRun(longer, more) && UpdatesWork(more)
    ensures longer[|more|] == Apply(states[|steps|], step)
  {
    longer, more := states + [Apply(states[|steps|], step)], steps + [step];
  }

  lemma RunsToRecorded(states: seq<State>, steps: seq<Step>, h: nat, order: Order, id: nat)
    returns (longer: seq<State>, more: seq<Step>)
    requires IsRun(states, steps) && UpdatesWork(steps)
    requires var s := states[|steps|]; h !in s.handlers && s.log.last != 0 && id != 0 && id !in s.log.rows
    ensures IsRun(longer, more) && UpdatesWork(more)
    ensures var s := states[|steps|];
      longer[|more|] == s.(
        log := Recorded(Inserted(s.log, id, s.log.last, order, h), order.tool, id),
        handlers := s.handlers[h := Handler(order, Ready(id))])
  {
    longer, more := Extend(states, steps, Arrives(h, order));
    longer, more := Extend(longer, more, ReadsLast(h));
    longer, more := Extend(longer, more, Inserts(h, Wire.Some(id)));
    longer, more := Extend(longer, more, Records(h));
  }

  lemma RunsToDone(states: seq<State>, steps: seq<Step>, h: nat, success: bool)
    returns (longer: seq<State>, more: seq<Step>)
    requires IsRun(states, steps) && UpdatesWork(steps)
    requires var s := states[|steps|]; h in s.handlers && s.handlers[h].phase.Ready?
    ensures IsRun(longer, more) && UpdatesWork(more)
    ensures var s := states[|steps|]; var tool := s.handlers[h].order.tool;
      longer[|more|] == s.(
        log := Updated(Taken(s.log, tool, h), Entry(s.log, tool), success, true),
        handlers := s.handlers[h := Handler(s.handlers[h].order, Done(s.handlers[h].phase.row, success))])
  {
    longer, more := Extend(states, steps, Executes(h, success));
    longer, more := Extend(longer, more, Takes(h));
    longer, more := Extend(longer, more, Updates(h, true));
  }

  /** Two commands under one tool id, both recorded: the second row has displaced the first. */
  lemma BothRecorded(order: Order) returns (states: seq<State>, steps: seq<Step>)
    ensures IsRun(states, steps) && UpdatesWork(steps)
    ensures var s := states[|steps|];
      && s.handlers == map[0 := Handler(order, Ready(1)), 1 := Handler(order, Ready(2))]
      && s.log == Log(5, map[order.tool := 2], map[1 := Row(5, order, Pending, Displaced), 2 := Row(5, order, Pending, Mapped)])
  {
    states, steps := [State(Log(0, map[], map[]), 7, map[], {}, map[])], [];
    states, steps := Extend(states, steps, HearsFinal(5));
    states, steps := Extend(states, steps, Publishes(5));
    states, steps := RunsToRecorded(states, steps, 0, order, 1);
    states, steps := RunsToRecorded(states, steps, 1, order, 2);
  }

  /** Both handlers record, then each finishes: handler 0 succeeds, handler 1 fails.  Row 1
      stays pending for ever and row 2, of the failed command, says success. */
  lemma RepeatedIdLosesRow() returns (states: seq<State>, steps: seq<Step>)
    ensures IsRun(states, steps) && UpdatesWork(steps) && Quiescent(states[|steps|])
    ensures var s := states[|steps|];
      && s.handlers.Keys == {0, 1}
      && s.handlers[0].phase == Done(1, true) && s.handlers[1].phase == Done(2, false)
      && s.log.rows.Keys == {1, 2}
      && s.log.rows[1].result == Pending && s.log.rows[2].result == Success
  {
    var order := Order("t", "lamp", "turn_on", "{}");
    states, steps := BothRecorded(order);
    states, steps := RunsToDone(states, steps, 0, true);
    states, steps := RunsToDone(states, steps, 1, false);
  }
}
