/**
 The life of one session read off the calls alone: a table of what each call permits and what it
 leaves, kept apart from the manager, which follows it for every session over every history.
 */
module SessionTransitions {
  import opened Prelude
  import opened SessionLifecycle
  import opened SessionHistory

  // One session as its calls tell it: its record, once it exists, and the latest grant of control
  // that nothing has released.
  datatype Life = Life(record: Option<Record>, control: Option<Lease>)

  predicate InControl(control: Option<Lease>, token: LeaseToken, mono: int) {
    control.Some? && control.value.token == token && mono < control.value.expiresAt
  }

  // What a session in `status` lets the caller do.
  predicate Permits(op: Op, status: Status, control: Option<Lease>, mono: int) {
    match op
    case Start(_) => status in {Created, Detached}
    case Attach(_, _) => status !in {Exited, Terminated} && (control.None? || control.value.expiresAt <= mono)
    case Detach(_, token) => InControl(control, token, mono)
    case Pause(_, token) => status == Running && InControl(control, token, mono)
    case Resume(_, token) => status == Paused && InControl(control, token, mono)
    case Terminate(_, token) => InControl(control, token, mono)
    case _ => true
  }

  // The table: the status after a permitted call.
  function StatusAfter(op: Op, status: Status): Status {
    match op
    case Start(_) => Running
    case Attach(_, _) => if status == Created then Running else status
    case Detach(_, _) => if status == Running then Detached else status
    case Pause(_, _) => Paused
    case Resume(_, _) => Running
    case Terminate(_, _) => Terminated
    case Complete(_, _) => Exited
    case _ => status
  }

  // A record is stamped when its status moves or might have moved, and when it is renamed.
  predicate Stamps(op: Op, status: Status) {
    match op
    case Attach(_, _) => status == Created
    case Detach(_, _) => status == Running
    case _ => true
  }

  function RecordBecomes(c: Call, r: Record): Record {
    Record(r.id,
           if c.op.Rename? then c.op.name else r.name,
           r.cwd,
           StatusAfter(c.op, r.status),
           r.createdAt,
           if Stamps(c.op, r.status) then c.wall else r.updatedAt,
           if c.op.Complete? then c.op.exitCode else r.exitCode)
  }

  function ControlBecomes(c: Call, control: Option<Lease>, leaseSeconds: nat): Option<Lease> {
    match c.op
    case Attach(_, token) => Some(Lease(token, c.granted + leaseSeconds))
    case Detach(_, _) => None
    case Terminate(_, _) => None
    case Complete(_, _) => None
    case _ => control
  }

  // The call is carried out on the session it names.
  predicate Carried(life: Life, c: Call) {
    c.op.Create? || (life.record.Some? && Permits(c.op, life.record.value.status, life.control, c.mono))
  }

  // One call in the life of `id`; calls on other sessions and calls that are not permitted do nothing.
  function Advance(life: Life, c: Call, id: Id, leaseSeconds: nat): Life
    requires !c.op.Reload?
  {
    if c.op.id != id || !Carried(life, c) then life
    else if c.op.Create? then life.(record := Some(Record(id, c.op.name, c.op.cwd, Created, c.wall, c.wall, None)))
    else Life(Some(RecordBecomes(c, life.record.value)), ControlBecomes(c, life.control, leaseSeconds))
  }

  function Find(s: Sessions, id: Id): Option<Record> {
    if id in s.records then Some(s.records[id]) else None
  }

  // The life of `id` over a history. A restart brings back what was written last and no control.
  function LifeOf(m: Manager, calls: seq<Call>, id: Id): Life
    requires WellKept(m.sessions) && AllSound(calls)
  {
    if calls == [] then Life(Find(m.sessions, id), None)
    else
      var init, c := calls[..|calls| - 1], calls[|calls| - 1];
      if c.op.Reload? then Life(if m.persistent then Find(LastWritten(m, init), id) else None, None)
      else Advance(LifeOf(m, init, id), c, id, m.leaseSeconds)
  }

  // The manager's record and lease are those of the life, up to a lease dropped because it expired by `t`.
  predicate Follows(m: Manager, id: Id, life: Life, t: int) {
    Find(m.sessions, id) == life.record && Agrees(m.leases, id, life.control, t)
  }

  // What the manager decides on the session a call names.
  lemma DecidesByTable(m: Manager, c: Call, life: Life)
    requires WellKept(m.sessions) && Sound(c) && !c.op.Reload? && Follows(m, c.op.id, life, c.mono)
    ensures var change := Decide(m, c);
            && (change.accepted <==> Carried(life, c))
            && RecordAfter(m, change, c.op.id) == Advance(life, c, c.op.id, m.leaseSeconds).record
            && Agrees(change.leases, c.op.id, Advance(life, c, c.op.id, m.leaseSeconds).control, c.mono)
  {
  }

  // And on every other one.
  lemma DecidesNothingElse(m: Manager, c: Call, id: Id, life: Life)
    requires WellKept(m.sessions) && Sound(c) && !c.op.Reload? && Follows(m, id, life, c.mono) && id != c.op.id
    ensures RecordAfter(m, Decide(m, c), id) == life.record && Agrees(Decide(m, c).leases, id, life.control, c.mono)
  {
  }

  lemma CallFollows(m: Manager, c: Call, id: Id, life: Life)
    requires WellKept(m.sessions) && Sound(c) && !c.op.Reload? && Follows(m, id, life, c.mono)
    ensures Follows(Next(m, c), id, Advance(life, c, id, m.leaseSeconds), c.mono)
  {
    CommitShape(m, Decide(m, c), c.saves, id);
    if c.op.id == id {
      DecidesByTable(m, c, life);
    } else {
      DecidesNothingElse(m, c, id, life);
    }
  }

  /**
   Over every history, with restarts and writes that fail, every session's record and holder are
   what the table makes of the calls.
   */
  lemma {:induction false} SessionsFollowTheTable(m: Manager, calls: seq<Call>, id: Id, t: int)
    requires WellKept(m.sessions) && AllSound(calls) && m.leases == map[] && m.InSync() && ClockRuns(calls)
    requires forall k :: 0 <= k < |calls| ==> calls[k].mono <= t
    ensures Follows(After(m, calls), id, LifeOf(m, calls, id), t)
  {
    if calls != [] {
      var init, c := calls[..|calls| - 1], calls[|calls| - 1];
      SessionsFollowTheTable(m, init, id, c.mono);
      SettingsStay(m, init);
      if c.op.Reload? {
        if m.persistent {
          ManifestIsLastWritten(m, init);
        }
      } else {
        CallFollows(After(m, init), c, id, LifeOf(m, init, id));
      }
    }
  }

  /** A call is refused exactly when the table does not permit it after the calls before. */
  lemma {:induction false} RefusedExactlyByTable(m: Manager, calls: seq<Call>, c: Call)
    requires WellKept(m.sessions) && AllSound(calls) && m.leases == map[] && m.InSync() && ClockRuns(calls + [c])
    requires Sound(c) && !c.op.Reload?
    ensures Ended(After(m, calls), c).Rejected? <==> !Carried(LifeOf(m, calls, c.op.id), c)
  {
    var all := calls + [c];
    assert all[|calls|] == c;
    forall k | 0 <= k < |calls| ensures calls[k].mono <= c.mono {
      assert all[k] == calls[k];
    }
    assert ClockRuns(calls) by {
      assert forall k :: 0 <= k < |calls| ==> all[k] == calls[k];
    }
    SessionsFollowTheTable(m, calls, c.op.id, c.mono);
    DecidesByTable(After(m, calls), c, LifeOf(m, calls, c.op.id));
  }

  // The last item of a manifest under a well-formed id.
  function LastItem(items: seq<Record>, id: Id): Option<Record> {
    if items == [] || !ValidId(id) then None
    else if items[|items| - 1].id == id then Some(items[|items| - 1])
    else LastItem(items[..|items| - 1], id)
  }

  /** Of any manifest, edited by hand or not, a session is loaded as its last item, and under no malformed id. */
  lemma {:induction false} LoadsLastItem(items: seq<Record>, id: Id)
    ensures Find(Load(items), id) == LastItem(items, id)
  {
    if items != [] {
      LoadsLastItem(items[..|items| - 1], id);
    } else {
      assert Load(items) == NoSessions;
    }
  }

  lemma DecisionKeepsTheRest(m: Manager, c: Call, id: Id)
    requires WellKept(m.sessions) && Sound(c) && !c.op.Reload?
    requires id in m.sessions.records && !(c.op.Create? && c.op.id == id)
    ensures var was, r := m.sessions.records[id], RecordAfter(m, Decide(m, c), id);
            && r.Some? && r.value.cwd == was.cwd && r.value.createdAt == was.createdAt
            && (r.value.name != was.name ==> c.op.Rename? && c.op.id == id && r.value.name == c.op.name)
            && (r.value.exitCode != was.exitCode ==>
                  c.op.Complete? && c.op.id == id && r.value.exitCode == c.op.exitCode)
  {
  }

  /** Only a rename changes a session's name, only completion its exit code, and nothing its directory or birth. */
  lemma {:induction false} OnlyRenameRenames(m: Manager, c: Call, id: Id)
    requires WellKept(m.sessions) && Sound(c) && !c.op.Reload?
    requires id in m.sessions.records && !(c.op.Create? && c.op.id == id)
    ensures id in Next(m, c).sessions.records
    ensures var was, r := m.sessions.records[id], Next(m, c).sessions.records[id];
            && r.cwd == was.cwd && r.createdAt == was.createdAt
            && (r.name != was.name ==> c.op.Rename? && c.op.id == id && r.name == c.op.name)
            && (r.exitCode != was.exitCode ==> c.op.Complete? && c.op.id == id && r.exitCode == c.op.exitCode)
  {
    CommitShape(m, Decide(m, c), c.saves, id);
    DecisionKeepsTheRest(m, c, id);
  }
}
