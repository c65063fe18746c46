// Device ownership: the conditional updates of server/internal/repository/device.go, the
// read-then-write operations of server/internal/service/device.go, and all their interleavings.
module Binding {
  import opened Wire

  datatype Status = Unregistered | WaitingBind | Online | Offline | Faulty

  datatype Row = Row(owner: Option<int>, name: string, room: string, status: Status, bindCode: string)

  type Rows = map<string, Row>

  /** How the database compares a stored bind code with a given one. */
  type Collation = (string, string) -> bool

  /** No code but the empty one matches the empty code. */
  ghost predicate NoEmptyMatch(same: Collation) {
    forall code :: code != "" ==> !same("", code)
  }

  // ---- the statements, as values ----

  /** UPDATE ... WHERE device_id = ? AND bind_code = ? AND owner_id IS NULL; the flag says
      whether a row was affected. */
  function AfterBind(
    same: Collation, rows: Rows, id: string, code: string, user: int, name: string, room: string): (Rows, bool)
  {
    if id in rows && same(rows[id].bindCode, code) && rows[id].owner.None? then
      (rows[id := Row(Some(user), name, room, Online, "")], true)
    else (rows, false)
  }

  /** A row is affected only if it changes: the connection does not ask for the rows found. */
  function AfterRename(rows: Rows, id: string, user: int, name: string, room: string): (Rows, bool) {
    if id in rows && rows[id].owner == Some(user) then
      (rows[id := rows[id].(name := name, room := room)], rows[id].name != name || rows[id].room != room)
    else (rows, false)
  }

  function AfterHeartbeat(rows: Rows, id: string): Rows {
    if id in rows then rows[id := rows[id].(status := Online)] else rows
  }

  function AfterDelete(rows: Rows, id: string): Rows {
    rows - {id}
  }

  /** Deleting a user clears the owner of the user's devices (ON DELETE SET NULL). */
  function AfterUserDeleted(rows: Rows, user: int): Rows {
    map id | id in rows :: if rows[id].owner == Some(user) then rows[id].(owner := None) else rows[id]
  }

  /** Unowned rows that still wait to be bound. */
  function Listed(rows: Rows): set<string> {
    set id | id in rows && rows[id].owner.None? && rows[id].status == WaitingBind
  }

  class DeviceRepo {
    const same: Collation
    var rows: Rows

    constructor (same: Collation, rows: Rows)
      ensures this.rows == rows && this.same == same
    {
      this.same := same;
      this.rows := rows;
    }

    method BindToOwner(id: string, code: string, user: int, name: string, room: string) returns (ok: bool)
      modifies this
      ensures (rows, ok) == AfterBind(same, old(rows), id, code, user, name, room)
      ensures ok <==> id in old(rows) && same(old(rows)[id].bindCode, code) && old(rows)[id].owner.None?
      ensures rows == if ok then old(rows)[id := Row(Some(user), name, room, Online, "")] else old(rows)
    {
      ok := false;
      if id in rows {
        var row := rows[id];
        if same(row.bindCode, code) && row.owner == None {
          rows := rows[id := row.(owner := Some(user), name := name, room := room, status := Online, bindCode := "")];
          ok := true;
        }
      }
    }

    method Rename(id: string, user: int, name: string, room: string) returns (ok: bool)
      modifies this
      ensures (rows, ok) == AfterRename(old(rows), id, user, name, room)
      ensures ok <==>
        && id in old(rows) && old(rows)[id].owner == Some(user)
        && (old(rows)[id].name != name || old(rows)[id].room != room)
      ensures rows == if ok then old(rows)[id := old(rows)[id].(name := name, room := room)] else old(rows)
    {
      ok := false;
      if id in rows && rows[id].owner == Some(user) {
        var row := rows[id].(name := name, room := room);
        ok := row != rows[id];
        rows := rows[id := row];
      }
    }

    method UpdateLastSeen(id: string)
      modifies this
      ensures rows == AfterHeartbeat(old(rows), id)
      ensures rows == if id in old(rows) then old(rows)[id := old(rows)[id].(status := Online)] else old(rows)
    {
      if id in rows {
        rows := rows[id := rows[id].(status := Online)];
      }
    }

    method Delete(id: string)
      modifies this
      ensures rows == old(rows) - {id}
    {
      rows := map k | k in rows && k != id :: rows[k];
    }

    method ListBindable() returns (ids: set<string>)
      ensures ids == Listed(rows)
      ensures forall id :: id in ids <==> id in rows && rows[id].owner.None? && rows[id].status == WaitingBind
    {
      ids := {};
      var todo := rows.Keys;
      while todo != {}
        invariant todo <= rows.Keys
        invariant ids == set id | id in rows.Keys - todo && rows[id].owner.None? && rows[id].status == WaitingBind
        decreases |todo|
      {
        var id :| id in todo;
        if rows[id].owner == None && rows[id].status == WaitingBind {
          ids := ids + {id};
        }
        todo := todo - {id};
      }
    }

    /** BindDevice of the service, uninterrupted: None is ErrInvalidBindCode. */
    method BindDevice(user: int, id: string, code: string, name: string, room: string) returns (bound: Option<Row>)
      modifies this
      ensures bound.Some? <==>
        id != "" && code != "" && id in old(rows) && same(old(rows)[id].bindCode, code) && old(rows)[id].owner.None?
      ensures bound.None? ==> rows == old(rows)
      ensures bound.Some? ==>
        && bound.value == Row(Some(user), if name == "" then old(rows)[id].name else name, room, Online, "")
        && rows == old(rows)[id := bound.value]
    {
      if id == "" || code == "" || id !in rows {
        return None;
      }
      var original := rows[id];
      var ok := BindToOwner(id, code, user, if name == "" then original.name else name, room);
      return if ok then Some(rows[id]) else None;
    }

    /** RenameDevice of the service, uninterrupted.  An owner who gives the present name and room
        is answered like somebody who is not the owner. */
    method RenameDevice(user: int, id: string, name: string, room: string) returns (ok: bool)
      modifies this
      ensures ok <==>
        && id != "" && id in old(rows) && old(rows)[id].owner == Some(user)
        && (old(rows)[id].name != name || old(rows)[id].room != room)
      ensures rows == if ok then old(rows)[id := old(rows)[id].(name := name, room := room)] else old(rows)
    {
      if id == "" || id !in rows || rows[id].owner != Some(user) {
        return false;
      }
      ok := Rename(id, user, name, room);
    }

    method UnbindDevice(user: int, id: string) returns (ok: bool)
      modifies this
      ensures ok <==> id != "" && id in old(rows) && old(rows)[id].owner == Some(user)
      ensures rows == if ok then old(rows) - {id} else old(rows)
    {
      if id == "" || id !in rows || rows[id].owner != Some(user) {
        return false;
      }
      Delete(id);
      return true;
    }
  }

  // ---- interleavings ----

  /** An operation between its read and its write. */
  datatype Pending =
    | BindReady(user: int, id: string, code: string, asked: string, name: string, room: string)
    | RenameReady(user: int, id: string, newName: string, newRoom: string)
    | UnbindReady(user: int, id: string)

  datatype State = State(
    rows: Rows,
    pending: seq<Pending>,
    used: set<string>,              // history: ids that ever had a row
    binds: seq<string>)             // history: ids bound successfully, in order

  datatype Step =
    | BindReads(user: int, id: string, code: string, asked: string, room: string)
    | RenameReads(user: int, id: string, name: string, room: string)
    | UnbindReads(user: int, id: string)
    | Commits(at: nat)
    | Heartbeat(id: string)
    | UserDeleted(user: int)
    | Created(id: string, row: Row)

  /** A row enters the table under a new id; an owned one has no bind code. */
  predicate Enabled(s: State, step: Step) {
    match step
    case Commits(i) => i < |s.pending|
    case Created(id, row) => id !in s.used && (row.owner.Some? ==> row.bindCode == "")
    case _ => true
  }

  function Without(pending: seq<Pending>, i: nat): seq<Pending>
    requires i < |pending|
  {
    pending[..i] + pending[i + 1..]
  }

  function Commit(same: Collation, s: State, i: nat): State
    requires i < |s.pending|
  {
    var rest := s.(pending := Without(s.pending, i));
    match s.pending[i]
    case BindReady(user, id, code, _, name, room) =>
      var (rows, ok) := AfterBind(same, s.rows, id, code, user, name, room);
      rest.(rows := rows, binds := if ok then s.binds + [id] else s.binds)
    case RenameReady(user, id, name, room) => rest.(rows := AfterRename(s.rows, id, user, name, room).0)
    case UnbindReady(_, id) => rest.(rows := AfterDelete(s.rows, id))
  }

  function Apply(same: Collation, s: State, step: Step): State
    requires Enabled(s, step)
  {
    match step
    case BindReads(user, id, code, asked, room) =>
      if id == "" || code == "" || id !in s.rows then s
      else
        var name := if asked == "" then s.rows[id].name else asked;
        s.(pending := s.pending + [BindReady(user, id, code, asked, name, room)])
    case RenameReads(user, id, name, room) =>
      if id == "" || id !in s.rows || s.rows[id].owner != Some(user) then s
      else s.(pending := s.pending + [RenameReady(user, id, name, room)])
    case UnbindReads(user, id) =>
      if id == "" || id !in s.rows || s.rows[id].owner != Some(user) then s
      else s.(pending := s.pending + [UnbindReady(user, id)])
    case Commits(i) => Commit(same, s, i)
    case Heartbeat(id) => s.(rows := AfterHeartbeat(s.rows, id))
    case UserDeleted(user) => s.(rows := AfterUserDeleted(s.rows, user))
    case Created(id, row) => s.(rows := s.rows[id := row], used := s.used + {id})
  }

  ghost predicate IsRun(same: Collation, states: seq<State>, steps: seq<Step>) {
    && |states| == |steps| + 1
    && states[0] == State(map[], [], {}, [])
    && forall i | 0 <= i < |steps| :: Enabled(states[i], steps[i]) && states[i + 1] == Apply(same, states[i], steps[i])
  }

  /** The row can still be bound by somebody who knows its code. */
  predicate Bindable(row: Row) { row.owner.None? && row.bindCode != "" }

  ghost predicate NoRepeats(binds: seq<string>) {
    forall i, j | 0 <= i < j < |binds| :: binds[i] != binds[j]
  }

  ghost predicate PendingOk(s: State, p: Pending) {
    && p.id in s.used
    && (p.BindReady? ==>
          && p.code != ""
          && (p.asked != "" ==> p.name == p.asked)
          && (p.asked == "" && p.id in s.rows && Bindable(s.rows[p.id]) ==> p.name == s.rows[p.id].name))
  }

  ghost predicate Inv(s: State) {
    && s.rows.Keys <= s.used
    && (forall id | id in s.rows && s.rows[id].owner.Some? :: s.rows[id].bindCode == "")
    && (forall i | 0 <= i < |s.binds| :: s.binds[i] in s.used && (s.binds[i] in s.rows ==> s.rows[s.binds[i]].bindCode == ""))
    && NoRepeats(s.binds)
    && (forall i | 0 <= i < |s.pending| :: PendingOk(s, s.pending[i]))
  }

  /** How the row of one device may change in one step. */
  ghost predicate RowStep(s: State, t: State, id: string) {
    id in s.rows && id in t.rows ==>
      var a, b := s.rows[id], t.rows[id];
      && (Bindable(a) && Bindable(b) ==> b.name == a.name)
      && (a.bindCode == "" ==> b.bindCode == "")
      && (a.owner.Some? ==> b.owner == a.owner || b.owner.None?)
      && (a.bindCode == "" && a.owner.None? ==> b.owner.None?)
  }

  lemma RowStepHolds(same: Collation, s: State, step: Step, id: string)
    requires NoEmptyMatch(same) && Inv(s) && Enabled(s, step)
    ensures RowStep(s, Apply(same, s, step), id)
    ensures id in s.used && id !in s.rows ==> id !in Apply(same, s, step).rows
    ensures s.used <= Apply(same, s, step).used
  {
    if step.Commits? {
      assert PendingOk(s, s.pending[step.at]);
    }
  }

  lemma PendingStep(same: Collation, s: State, step: Step)
    requires NoEmptyMatch(same) && Inv(s) && Enabled(s, step)
    ensures var t := Apply(same, s, step); forall i | 0 <= i < |t.pending| :: PendingOk(t, t.pending[i])
  {
    var t := Apply(same, s, step);
    forall i | 0 <= i < |t.pending| ensures PendingOk(t, t.pending[i]) {
      var p := t.pending[i];
      if p in s.pending {
        var j :| 0 <= j < |s.pending| && s.pending[j] == p;
        assert PendingOk(s, s.pending[j]);
      }
      RowStepHolds(same, s, step, p.id);
    }
  }

  lemma InvStep(same: Collation, s: State, step: Step)
    requires NoEmptyMatch(same) && Inv(s) && Enabled(s, step)
    ensures Inv(Apply(same, s, step))
  {
    var t := Apply(same, s, step);
    PendingStep(same, s, step);
    forall id | id in t.rows ensures id in t.used && (t.rows[id].owner.Some? ==> t.rows[id].bindCode == "") {
      if step.Commits? { assert PendingOk(s, s.pending[step.at]); }
    }
    forall i | 0 <= i < |t.binds|
      ensures t.binds[i] in t.used && (t.binds[i] in t.rows ==> t.rows[t.binds[i]].bindCode == "")
    {
      RowStepHolds(same, s, step, t.binds[i]);
      if step.Commits? { assert PendingOk(s, s.pending[step.at]); }
    }
    if step.Commits? && |t.binds| > |s.binds| {
      assert PendingOk(s, s.pending[step.at]);
    }
  }

  lemma {:induction false} RunInv(same: Collation, states: seq<State>, steps: seq<Step>, k: nat)
    requires NoEmptyMatch(same) && IsRun(same, states, steps) && k < |states|
    ensures Inv(states[k])
  {
    if k > 0 {
      RunInv(same, states, steps, k - 1);
      InvStep(same, states[k - 1], steps[k - 1]);
    }
  }

  // ---- main results ----

  /** Over all interleavings a device id is bound successfully at most once in its life, and a
      device with an owner has no bind code. */
  lemma BoundAtMostOnce(same: Collation, states: seq<State>, steps: seq<Step>, k: nat)
    requires NoEmptyMatch(same) && IsRun(same, states, steps) && k < |states|
    ensures NoRepeats(states[k].binds)
    ensures forall id | id in states[k].rows && states[k].rows[id].owner.Some? :: states[k].rows[id].bindCode == ""
  {
    RunInv(same, states, steps, k);
  }

  /** A device has at most one owner in its whole life: after it has been seen with an owner,
      it has that owner, or none, or no row, for ever. */
  lemma {:induction false} OneOwnerForLife(same: Collation, states: seq<State>, steps: seq<Step>, j: nat, k: nat, id: string)
    requires NoEmptyMatch(same) && IsRun(same, states, steps) && j <= k < |states|
    requires id in states[j].rows && states[j].rows[id].owner.Some?
    ensures id in states[k].used
    ensures id in states[k].rows ==>
      && states[k].rows[id].bindCode == ""
      && (states[k].rows[id].owner.None? || states[k].rows[id].owner == states[j].rows[id].owner)
    decreases k - j
  {
    RunInv(same, states, steps, j);
    if j < k {
      OneOwnerForLife(same, states, steps, j, k - 1, id);
      RunInv(same, states, steps, k - 1);
      RowStepHolds(same, states[k - 1], steps[k - 1], id);
    }
  }

  /** A bind without a name of its own keeps the name the row has when it is written, although
      the name was read earlier and anything may have happened in between. */
  lemma EmptyNameKeepsCurrentName(same: Collation, states: seq<State>, steps: seq<Step>, k: nat)
    requires NoEmptyMatch(same) && IsRun(same, states, steps) && k < |steps| && steps[k].Commits?
    requires var p := states[k].pending[steps[k].at]; p.BindReady? && p.asked == ""
    requires |states[k + 1].binds| > |states[k].binds|
    ensures var p := states[k].pending[steps[k].at];
      && p.id in states[k].rows && p.id in states[k + 1].rows
      && states[k + 1].rows[p.id] == Row(Some(p.user), states[k].rows[p.id].name, p.room, Online, "")
  {
    RunInv(same, states, steps, k);
    assert PendingOk(states[k], states[k].pending[steps[k].at]);
  }

  lemma Extend(same: Collation, states: seq<State>, steps: seq<Step>, step: Step)
    returns (longer: seq<State>, more: seq<Step>)
    requires IsRun(same, states, steps) && Enabled(states[|steps|], step)
    ensures IsRun(same, longer, more) && states <= longer && more == steps + [step]
    ensures longer[|more|] == Apply(same, states[|steps|], step)
  {
    longer, more := states + [Apply(same, states[|steps|], step)], steps + [step];
  }

  /** No owner is ever followed by another. */
  ghost predicate KeepsOwners(states: seq<State>) {
    forall j, k, id | 0 <= j <= k < |states| && id in states[j].rows && id in states[k].rows ::
      states[j].rows[id].owner.Some? && states[k].rows[id].owner.Some? ==> states[j].rows[id].owner == states[k].rows[id].owner
  }

  /** This step binds a device without a name of its own. */
  predicate BindsNameless(s: State, step: Step, t: State) {
    && step.Commits? && step.at < |s.pending| && s.pending[step.at].BindReady? && s.pending[step.at].asked == ""
    && |t.binds| > |s.binds|
  }

  predicate SameName(s: State, t: State, id: string) {
    id in s.rows && id in t.rows && s.rows[id].name == t.rows[id].name
  }

  ghost predicate KeepsNames(states: seq<State>, steps: seq<Step>)
    requires |states| == |steps| + 1
  {
    forall k | 0 <= k < |steps| && BindsNameless(states[k], steps[k], states[k + 1]) ::
      SameName(states[k], states[k + 1], states[k].pending[steps[k].at].id)
  }

  /** All three promises, for one run. */
  ghost predicate Promised(same: Collation, states: seq<State>, steps: seq<Step>)
    requires IsRun(same, states, steps)
  {
    NoRepeats(states[|steps|].binds) && KeepsOwners(states) && KeepsNames(states, steps)
  }

  /** Two users hold the code of a waiting device.  The second binds it and is deleted; if the
      code matches the empty one, the first then binds it again, with the name it once read. */
  lemma BoundTwice(same: Collation, code: string) returns (states: seq<State>, steps: seq<Step>)
    requires code != "" && same(code, code) && same("", code)
    ensures IsRun(same, states, steps) && |steps| == 6
    ensures states[6].binds == ["d", "d"]
    ensures "d" in states[4].rows && states[4].rows["d"].owner == Some(2)
    ensures "d" in states[6].rows && states[6].rows["d"].owner == Some(1)
    ensures BindsNameless(states[5], steps[5], states[6]) && states[5].pending[steps[5].at].id == "d"
    ensures "d" in states[5].rows && states[5].rows["d"].name == "other" && states[6].rows["d"].name == "lamp"
  {
    states, steps := [State(map[], [], {}, [])], [];
    states, steps := Extend(same, states, steps, Created("d", Row(None, "lamp", "hall", WaitingBind, code)));
    states, steps := Extend(same, states, steps, BindReads(1, "d", code, "", "hall"));
    states, steps := Extend(same, states, steps, BindReads(2, "d", code, "other", "hall"));
    states, steps := Extend(same, states, steps, Commits(1));
    states, steps := Extend(same, states, steps, UserDeleted(2));
    states, steps := Extend(same, states, steps, Commits(0));
  }

  lemma PromisesKept(same: Collation, states: seq<State>, steps: seq<Step>)
    requires NoEmptyMatch(same) && IsRun(same, states, steps)
    ensures Promised(same, states, steps)
  {
    BoundAtMostOnce(same, states, steps, |steps|);
    forall j, k, id | 0 <= j <= k < |states| && id in states[j].rows && id in states[k].rows
      && states[j].rows[id].owner.Some? && states[k].rows[id].owner.Some?
      ensures states[j].rows[id].owner == states[k].rows[id].owner
    {
      OneOwnerForLife(same, states, steps, j, k, id);
    }
    forall k | 0 <= k < |steps| && BindsNameless(states[k], steps[k], states[k + 1])
      ensures SameName(states[k], states[k + 1], states[k].pending[steps[k].at].id)
    {
      EmptyNameKeepsCurrentName(same, states, steps, k);
    }
  }

  /** Each of the three promises holds in all runs exactly if the database's comparison, under
      which every code matches itself, matches the empty code with nothing else. */
  lemma PromisesKeptIff(same: Collation)
    requires forall code :: same(code, code)
    ensures (forall states: seq<State>, steps: seq<Step> | IsRun(same, states, steps) :: NoRepeats(states[|steps|].binds)) <==> NoEmptyMatch(same)
    ensures (forall states: seq<State>, steps: seq<Step> | IsRun(same, states, steps) :: KeepsOwners(states)) <==> NoEmptyMatch(same)
    ensures (forall states: seq<State>, steps: seq<Step> | IsRun(same, states, steps) :: KeepsNames(states, steps)) <==> NoEmptyMatch(same)
  {
    if NoEmptyMatch(same) {
      forall states: seq<State>, steps: seq<Step> | IsRun(same, states, steps) ensures Promised(same, states, steps) {
        PromisesKept(same, states, steps);
      }
    } else {
      var code :| code != "" && same("", code);
      var states, steps := BoundTwice(same, code);
      assert states[6].binds[0] == states[6].binds[1];
      assert !KeepsOwners(states);
      assert !SameName(states[5], states[6], "d");
    }
  }

  // ---- what may change a row ----

  /** The one row a step can change, and how: a heartbeat its status, the deletion of its owner
      its owner, and a commit what its own statement says; nothing else changes any row. */
  function RowAfter(same: Collation, s: State, step: Step, id: string): Row
    requires id in s.rows && Enabled(s, step)
  {
    var row := s.rows[id];
    match step
    case Heartbeat(d) => if d == id then row.(status := Online) else row
    case UserDeleted(user) => if row.owner == Some(user) then row.(owner := None) else row
    case Commits(at) =>
      (match s.pending[at]
       case BindReady(user, d, code, _, name, room) =>
         if d == id && row.owner.None? && same(row.bindCode, code) then Row(Some(user), name, room, Online, "") else row
       case RenameReady(user, d, name, room) =>
         if d == id && row.owner == Some(user) then row.(name := name, room := room) else row
       case UnbindReady(_, _) => row)
    case _ => row
  }

  predicate Removes(s: State, step: Step, id: string) {
    step.Commits? && step.at < |s.pending| && s.pending[step.at].UnbindReady? && s.pending[step.at].id == id
  }

  lemma RowChanges(same: Collation, s: State, step: Step, id: string)
    requires Enabled(s, step) && s.rows.Keys <= s.used && id in s.rows
    ensures id in Apply(same, s, step).rows <==> !Removes(s, step, id)
    ensures !Removes(s, step, id) ==> Apply(same, s, step).rows[id] == RowAfter(same, s, step, id)
  {
  }

  /** Who waits to remove a device is its owner, if it has one. */
  ghost predicate UnbindsOk(s: State) {
    forall i | 0 <= i < |s.pending| && s.pending[i].UnbindReady? ::
      var p := s.pending[i];
      && p.id in s.used
      && (p.id in s.rows ==>
            s.rows[p.id].bindCode == "" && (s.rows[p.id].owner.None? || s.rows[p.id].owner == Some(p.user)))
  }

  lemma {:induction false} RunUnbindsOk(same: Collation, states: seq<State>, steps: seq<Step>, k: nat)
    requires NoEmptyMatch(same) && IsRun(same, states, steps) && k < |states|
    ensures UnbindsOk(states[k])
  {
    if k > 0 {
      var s, step, t := states[k - 1], steps[k - 1], states[k];
      RunUnbindsOk(same, states, steps, k - 1);
      RunInv(same, states, steps, k - 1);
      forall i | 0 <= i < |t.pending| && t.pending[i].UnbindReady?
        ensures var p := t.pending[i];
          && p.id in t.used
          && (p.id in t.rows ==>
                t.rows[p.id].bindCode == "" && (t.rows[p.id].owner.None? || t.rows[p.id].owner == Some(p.user)))
      {
        var p := t.pending[i];
        if p in s.pending {
          var j :| 0 <= j < |s.pending| && s.pending[j] == p;
          RowStepHolds(same, s, step, p.id);
        }
      }
    }
  }

  /** A device with an owner is taken away from it, renamed or removed only by the owner's own
      request or the deletion of the owner's account; other users' requests and accounts leave it
      exactly as it is, but for heartbeats. */
  lemma OnlyItsOwner(same: Collation, states: seq<State>, steps: seq<Step>, k: nat, id: string)
    requires NoEmptyMatch(same) && IsRun(same, states, steps) && k < |steps|
    requires id in states[k].rows && states[k].rows[id].owner.Some?
    ensures var s, t, step := states[k], states[k + 1], steps[k];
      var row, owner := s.rows[id], s.rows[id].owner.value;
      && (id !in t.rows <==> step.Commits? && s.pending[step.at] == UnbindReady(owner, id))
      && (id in t.rows ==>
            t.rows[id] ==
              if step == Heartbeat(id) then row.(status := Online)
              else if step == UserDeleted(owner) then row.(owner := None)
              else if step.Commits? && s.pending[step.at].RenameReady? && s.pending[step.at].id == id
                      && s.pending[step.at].user == owner
              then row.(name := s.pending[step.at].newName, room := s.pending[step.at].newRoom)
              else row)
  {
    RunInv(same, states, steps, k);
    RunUnbindsOk(same, states, steps, k);
    RowChanges(same, states[k], steps[k], id);
  }

  /** The row a request leaves when nothing comes between its read and its write; None is a row
      removed. */
  function AtOnce(same: Collation, row: Row, request: Step): Option<Row> {
    match request
    case BindReads(user, _, code, asked, room) =>
      if code != "" && row.owner.None? && same(row.bindCode, code) then
        Some(Row(Some(user), if asked == "" then row.name else asked, room, Online, ""))
      else Some(row)
    case RenameReads(user, _, name, room) =>
      Some(if row.owner == Some(user) then row.(name := name, room := room) else row)
    case UnbindReads(user, _) => if row.owner == Some(user) then None else Some(row)
    case _ => Some(row)
  }

  /** A request read and written without interruption does what the service's operation does. */
  lemma Uninterrupted(same: Collation, s: State, request: Step, id: string)
    requires Enabled(s, request) && id in s.rows && id != ""
    requires (request.BindReads? || request.RenameReads? || request.UnbindReads?) && request.id == id
    ensures var read := Apply(same, s, request);
      var written := if |read.pending| > |s.pending| then Apply(same, read, Commits(|s.pending|)) else read;
      && written.rows == (match AtOnce(same, s.rows[id], request)
                          case None => s.rows - {id}
                          case Some(row) => s.rows[id := row])
      && written.pending == s.pending
  {
    var read := Apply(same, s, request);
    if |read.pending| > |s.pending| {
      assert Without(read.pending, |s.pending|) == s.pending;
    }
  }

  // ---- the list of bindable devices ----

  /** The status of a device once bound is never again that of a waiting one. */
  ghost predicate BoundNotWaiting(s: State) {
    forall i | 0 <= i < |s.binds| && s.binds[i] in s.rows :: s.rows[s.binds[i]].status != WaitingBind
  }

  lemma BoundNotWaitingStep(same: Collation, s: State, step: Step)
    requires NoEmptyMatch(same) && Inv(s) && BoundNotWaiting(s) && Enabled(s, step)
    ensures BoundNotWaiting(Apply(same, s, step))
  {
  }

  /** In every reachable state a listed device has never been bound; if it has a code, that code
      binds it, and it is on the list no more. */
  lemma {:induction false} ListedWasNeverBound(same: Collation, states: seq<State>, steps: seq<Step>, k: nat)
    requires NoEmptyMatch(same) && IsRun(same, states, steps) && k < |states|
    ensures BoundNotWaiting(states[k])
    ensures forall id | id in Listed(states[k].rows) :: id !in states[k].binds
    ensures forall id, user, name, room |
      id in Listed(states[k].rows) && same(states[k].rows[id].bindCode, states[k].rows[id].bindCode) ::
      var (rows, ok) := AfterBind(same, states[k].rows, id, states[k].rows[id].bindCode, user, name, room);
      ok && Listed(rows) == Listed(states[k].rows) - {id}
  {
    if k > 0 {
      ListedWasNeverBound(same, states, steps, k - 1);
      RunInv(same, states, steps, k - 1);
      BoundNotWaitingStep(same, states[k - 1], steps[k - 1]);
    }
  }

  /** The device was created waiting, and no heartbeat has reached it since. */
  ghost predicate Silent(steps: seq<Step>, k: nat, id: string)
    requires k <= |steps|
  {
    exists i :: 0 <= i < k && CreatesWaiting(steps[i], id) && forall j | i < j < k :: steps[j] != Heartbeat(id)
  }

  predicate CreatesWaiting(step: Step, id: string) {
    step.Created? && step.id == id && step.row.status == WaitingBind
  }

  lemma SilentStep(steps: seq<Step>, k: nat, id: string)
    requires 0 < k <= |steps|
    ensures Silent(steps, k, id) <==>
      CreatesWaiting(steps[k - 1], id) || (Silent(steps, k - 1, id) && steps[k - 1] != Heartbeat(id))
  {
    if Silent(steps, k - 1, id) && steps[k - 1] != Heartbeat(id) {
      var i :| 0 <= i < k - 1 && CreatesWaiting(steps[i], id) && forall j | i < j < k - 1 :: steps[j] != Heartbeat(id);
      assert forall j | i < j < k :: steps[j] != Heartbeat(id);
    }
  }

  lemma {:induction false} NeverCreated(same: Collation, states: seq<State>, steps: seq<Step>, k: nat, id: string)
    requires IsRun(same, states, steps) && k < |states| && id !in states[k].used
    ensures !Silent(steps, k, id)
  {
    if k > 0 {
      NeverCreated(same, states, steps, k - 1, id);
      SilentStep(steps, k, id);
    }
  }

  /** In every reachable state a device that can be bound, because it has a code and no owner, is
      on the list exactly if it was created waiting and has sent no heartbeat since: the first
      heartbeat hides it from the list although its code still binds. */
  lemma {:induction false} BindableIsListedIff(same: Collation, states: seq<State>, steps: seq<Step>, k: nat, id: string)
    requires NoEmptyMatch(same) && IsRun(same, states, steps) && k < |states|
    requires id in states[k].rows && Bindable(states[k].rows[id])
    ensures id in Listed(states[k].rows) <==> Silent(steps, k, id)
  {
    if k > 0 {
      var s, step := states[k - 1], steps[k - 1];
      RunInv(same, states, steps, k - 1);
      SilentStep(steps, k, id);
      if step.Commits? {
        assert PendingOk(s, s.pending[step.at]);
      }
      if id in s.rows {
        RowStepHolds(same, s, step, id);
        BindableIsListedIff(same, states, steps, k - 1, id);
      } else {
        NeverCreated(same, states, steps, k - 1, id);
      }
    }
  }
}
