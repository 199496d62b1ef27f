/**
 What the session manager keeps over whole histories of operations: control leases, the manifest,
 and the two final states.
 */
module SessionHistory {
  import opened Prelude
  import opened SessionLifecycle

  datatype Op =
    | Create(id: Id, name: string, cwd: string)
    | Rename(id: Id, name: string)
    | Start(id: Id)
    | Attach(id: Id, token: LeaseToken)
    | Detach(id: Id, token: LeaseToken)
    | Pause(id: Id, token: LeaseToken)
    | Resume(id: Id, token: LeaseToken)
    | Terminate(id: Id, token: LeaseToken)
    | Complete(id: Id, exitCode: Option<int>)
    | Reload

  // One call: the monotonic clock as it reads it first, and again when an attach grants a lease; the
  // wall clock; and whether a manifest write succeeds.
  datatype Call = Call(op: Op, mono: int, granted: int, wall: int, saves: bool)

  ghost predicate Sound(c: Call) {
    c.op.Create? ==> ValidId(c.op.id)
  }

  ghost predicate AllSound(calls: seq<Call>) {
    forall k :: 0 <= k < |calls| ==> Sound(calls[k])
  }

  // What the manager decides about a call other than a restart.
  function Decide(m: Manager, c: Call): (change: Change)
    requires WellKept(m.sessions) && Sound(c) && !c.op.Reload?
    ensures Fits(change)
  {
    match c.op
    case Create(id, name, cwd) => m.Create(id, name, cwd, c.wall)
    case Rename(id, name) => m.Rename(id, name, c.wall)
    case Start(id) => m.Start(id, c.wall)
    case Attach(id, token) => m.Attach(id, token, c.mono, c.granted, c.wall)
    case Detach(id, token) => m.Detach(id, token, c.mono, c.wall)
    case Pause(id, token) => m.Switch(id, token, Running, Paused, c.mono, c.wall)
    case Resume(id, token) => m.Switch(id, token, Paused, Running, c.mono, c.wall)
    case Terminate(id, token) => m.Terminate(id, token, c.mono, c.wall)
    case Complete(id, exitCode) => m.Complete(id, exitCode, c.wall)
  }

  lemma {:induction false} LoadKeeps(items: seq<Record>)
    ensures WellKept(Load(items))
  {
    if items != [] {
      var n := |items| - 1;
      LoadKeeps(items[..n]);
      if ValidId(items[n].id) {
        PutKeeps(Load(items[..n]), items[n]);
      }
    }
  }

  lemma ReloadKeeps(m: Manager)
    ensures WellKept(m.Reload().sessions)
  {
    LoadKeeps(if m.file.Some? then m.file.value else []);
  }

  // The manager after one call.
  function Next(m: Manager, c: Call): (r: Manager)
    requires WellKept(m.sessions) && Sound(c)
    ensures WellKept(r.sessions)
  {
    if c.op.Reload? then
      ReloadKeeps(m);
      m.Reload()
    else
      m.Commit(Decide(m, c), c.saves).0
  }

  // How the call ended.
  function Ended(m: Manager, c: Call): Outcome
    requires WellKept(m.sessions) && Sound(c)
  {
    if c.op.Reload? then Done else m.Commit(Decide(m, c), c.saves).1
  }

  // The record a change leaves for `id`.
  function RecordAfter(m: Manager, change: Change, id: Id): Option<Record> {
    if change.record.Some? && change.record.value.id == id then change.record
    else if id in m.sessions.records then Some(m.sessions.records[id])
    else None
  }

  lemma CommitShape(m: Manager, change: Change, saves: bool, id: Id)
    requires WellKept(m.sessions) && Fits(change)
    ensures var r := m.Commit(change, saves).0;
            && r.leases == change.leases && r.leaseSeconds == m.leaseSeconds && r.persistent == m.persistent
            && (id in r.sessions.records <==> RecordAfter(m, change, id).Some?)
            && (id in r.sessions.records ==> RecordAfter(m, change, id) == Some(r.sessions.records[id]))
  {
    assert m.Commit(change, saves).0.sessions
        == if change.record.Some? then m.sessions.Put(change.record.value) else m.sessions;
  }

  // The manager after a history of calls.
  function After(m: Manager, calls: seq<Call>): (r: Manager)
    requires WellKept(m.sessions) && AllSound(calls)
    ensures WellKept(r.sessions)
  {
    if calls == [] then m
    else Next(After(m, calls[..|calls| - 1]), calls[|calls| - 1])
  }

  lemma {:induction false} SettingsStay(m: Manager, calls: seq<Call>)
    requires WellKept(m.sessions) && AllSound(calls)
    ensures After(m, calls).leaseSeconds == m.leaseSeconds && After(m, calls).persistent == m.persistent
  {
    if calls != [] {
      SettingsStay(m, calls[..|calls| - 1]);
    }
  }

  // ---------------------------------------------------------------------------------------------
  // Control leases
  // ---------------------------------------------------------------------------------------------

  // The call hands out control of `id`.
  predicate Grants(m: Manager, c: Call, id: Id)
    requires WellKept(m.sessions) && Sound(c)
  {
    c.op.Attach? && c.op.id == id && !Ended(m, c).Rejected?
  }

  // The call ends whatever control of `id` there was.
  predicate Releases(m: Manager, c: Call, id: Id)
    requires WellKept(m.sessions) && Sound(c)
  {
    c.op.Reload? || ((c.op.Detach? || c.op.Terminate? || c.op.Complete?) && c.op.id == id && !Ended(m, c).Rejected?)
  }

  // The holder after a call, given the one before.
  function HolderAfter(m: Manager, c: Call, id: Id, holder: Option<Lease>): Option<Lease>
    requires WellKept(m.sessions) && Sound(c)
  {
    if Grants(m, c, id) then Some(Lease(c.op.token, c.granted + m.leaseSeconds))
    else if Releases(m, c, id) then None
    else holder
  }

  // The latest grant of `id` that nothing has released, read off the history alone.
  function Holder(m: Manager, calls: seq<Call>, id: Id): Option<Lease>
    requires WellKept(m.sessions) && AllSound(calls)
  {
    if calls == [] then None
    else
      var init, c := calls[..|calls| - 1], calls[|calls| - 1];
      HolderAfter(After(m, init), c, id, Holder(m, init, id))
  }

  ghost predicate ClockRuns(calls: seq<Call>) {
    && (forall i :: 0 <= i < |calls| ==> calls[i].mono <= calls[i].granted)
    && (forall i, j :: 0 <= i < j < |calls| ==> calls[i].granted <= calls[j].mono)
  }

  // Leases belong to known sessions that are not over.
  ghost predicate OnlyLiveLeased(m: Manager) {
    forall id :: id in m.leases ==> m.Knows(id) && !m.sessions.records[id].status.Final()
  }

  lemma DecideLive(m: Manager, c: Call, id: Id)
    requires WellKept(m.sessions) && Sound(c) && !c.op.Reload? && OnlyLiveLeased(m)
    requires id in Decide(m, c).leases
    ensures ValidId(id)
    ensures RecordAfter(m, Decide(m, c), id).Some? && !RecordAfter(m, Decide(m, c), id).value.status.Final()
  {
  }

  lemma LiveLeasedStep(m: Manager, c: Call)
    requires WellKept(m.sessions) && Sound(c) && OnlyLiveLeased(m)
    ensures OnlyLiveLeased(Next(m, c))
  {
    if !c.op.Reload? {
      var r := Next(m, c);
      forall id | id in r.leases
        ensures r.Knows(id) && !r.sessions.records[id].status.Final()
      {
        CommitShape(m, Decide(m, c), c.saves, id);
        DecideLive(m, c, id);
      }
    }
  }

  // No session in a final state ever holds a lease.
  lemma {:induction false} NoLeaseOnFinal(m: Manager, calls: seq<Call>)
    requires WellKept(m.sessions) && AllSound(calls) && OnlyLiveLeased(m)
    ensures OnlyLiveLeased(After(m, calls))
  {
    if calls != [] {
      NoLeaseOnFinal(m, calls[..|calls| - 1]);
      LiveLeasedStep(After(m, calls[..|calls| - 1]), calls[|calls| - 1]);
    }
  }

  // The lease table agrees with the history's `holder`, up to a lease dropped because it expired by `t`.
  predicate Agrees(leases: map<Id, Lease>, id: Id, holder: Option<Lease>, t: int) {
    if id in leases then holder == Some(leases[id])
    else holder.None? || holder.value.expiresAt <= t
  }

  lemma DecideAgrees(m: Manager, c: Call, id: Id, holder: Option<Lease>)
    requires WellKept(m.sessions) && Sound(c) && !c.op.Reload? && OnlyLiveLeased(m)
    requires Agrees(m.leases, id, holder, c.mono)
    ensures var change := Decide(m, c);
            Agrees(change.leases, id,
                   if !change.accepted || c.op.id != id then holder
                   else if c.op.Attach? then Some(Lease(c.op.token, c.granted + m.leaseSeconds))
                   else if c.op.Detach? || c.op.Terminate? || c.op.Complete? then None
                   else holder, c.mono)
  {
  }

  lemma AgreesStep(m: Manager, c: Call, id: Id, holder: Option<Lease>)
    requires WellKept(m.sessions) && Sound(c) && OnlyLiveLeased(m) && Agrees(m.leases, id, holder, c.mono)
    ensures Agrees(Next(m, c).leases, id, HolderAfter(m, c, id, holder), c.mono)
  {
    if !c.op.Reload? {
      DecideAgrees(m, c, id, holder);
      CommitShape(m, Decide(m, c), c.saves, id);
      assert Ended(m, c).Rejected? <==> !Decide(m, c).accepted;
    }
  }

  lemma {:induction false} HolderAgrees(m: Manager, calls: seq<Call>, id: Id, t: int)
    requires WellKept(m.sessions) && AllSound(calls) && m.leases == map[] && ClockRuns(calls)
    requires forall k :: 0 <= k < |calls| ==> calls[k].mono <= t
    ensures Agrees(After(m, calls).leases, id, Holder(m, calls, id), t)
  {
    if calls != [] {
      var init, c := calls[..|calls| - 1], calls[|calls| - 1];
      HolderAgrees(m, init, id, c.mono);
      NoLeaseOnFinal(m, init);
      SettingsStay(m, init);
      AgreesStep(After(m, init), c, id, Holder(m, init, id));
    }
  }

  // A token is accepted exactly when it is that of the latest grant still in force, lazily expired
  // leases notwithstanding.
  lemma {:induction false} AcceptedExactlyWhenHeld(m: Manager, calls: seq<Call>, id: Id, token: LeaseToken, t: int)
    requires WellKept(m.sessions) && AllSound(calls) && m.leases == map[] && ClockRuns(calls)
    requires forall k :: 0 <= k < |calls| ==> calls[k].mono <= t
    ensures After(m, calls).Accepts(id, token, t)
       <==> var h := Holder(m, calls, id); h.Some? && h.value.token == token && t < h.value.expiresAt
  {
    HolderAgrees(m, calls, id, t);
    NoLeaseOnFinal(m, calls);
  }

  // Who may attach: a known session that is not over and that nobody controls.
  lemma {:induction false} AttachExactlyWhenFree(m: Manager, c: Call)
    requires WellKept(m.sessions) && OnlyLiveLeased(m) && c.op.Attach?
    ensures !Ended(m, c).Rejected?
       <==> && m.Knows(c.op.id) && !m.sessions.records[c.op.id].status.Final()
            && forall token :: !m.Accepts(c.op.id, token, c.mono)
  {
    if c.op.id in m.leases {
      var token := m.leases[c.op.id].token;
      assert m.Accepts(c.op.id, token, c.mono) <==> c.mono < m.leases[c.op.id].expiresAt;
    }
  }

  // Some call after the `i`th released `id`.
  predicate ReleasedSince(m: Manager, calls: seq<Call>, i: nat, id: Id)
    requires WellKept(m.sessions) && AllSound(calls)
  {
    |calls| > i + 1 &&
    var init := calls[..|calls| - 1];
    (Releases(After(m, init), calls[|calls| - 1], id) || ReleasedSince(m, init, i, id))
  }

  lemma {:induction false} HeldSince(m: Manager, calls: seq<Call>, i: nat, id: Id)
    requires WellKept(m.sessions) && AllSound(calls) && ClockRuns(calls)
    requires i < |calls| && Grants(After(m, calls[..i]), calls[i], id) && !ReleasedSince(m, calls, i, id)
    ensures var h := Holder(m, calls, id);
            h.Some? && h.value.expiresAt >= calls[i].granted + m.leaseSeconds
    decreases |calls|
  {
    var init := calls[..|calls| - 1];
    SettingsStay(m, init);
    if i < |init| {
      assert init[..i] == calls[..i];
      HeldSince(m, init, i, id);
    }
  }

  // Two controllers never overlap: between two grants the first lease ran out or was given up.
  lemma {:induction false} ControlIsDisjoint(m: Manager, calls: seq<Call>, i: nat, j: nat, id: Id)
    requires WellKept(m.sessions) && AllSound(calls) && m.leases == map[] && ClockRuns(calls)
    requires i < j < |calls| && Grants(After(m, calls[..i]), calls[i], id) && Grants(After(m, calls[..j]), calls[j], id)
    ensures calls[i].granted + m.leaseSeconds <= calls[j].mono || ReleasedSince(m, calls[..j], i, id)
  {
    var past := calls[..j];
    if !ReleasedSince(m, past, i, id) {
      assert past[..i] == calls[..i];
      HeldSince(m, past, i, id);
      NoLeaseOnFinal(m, past);
      AcceptedExactlyWhenHeld(m, past, id, Holder(m, past, id).value.token, calls[j].mono);
      AttachExactlyWhenFree(After(m, past), calls[j]);
    }
  }

  // ---------------------------------------------------------------------------------------------
  // The manifest
  // ---------------------------------------------------------------------------------------------

  lemma LoadAppends(items: seq<Record>, r: Record)
    ensures Load(items + [r]) == if ValidId(r.id) then Load(items).Put(r) else Load(items)
  {
    assert (items + [r])[..|items|] == items;
  }

  lemma DumpAppends(s: Sessions, r: Record)
    requires WellKept(s) && ValidId(r.id) && r.id !in s.records
    ensures WellKept(s.Put(r)) && Dump(s.Put(r)) == Dump(s) + [r]
  {
    PutKeeps(s, r);
    ListsExactly(s.order, s.records.Keys);
  }

  // Loading what was dumped gives the sessions back, dictionary order included.
  lemma {:induction false} RoundTrip(s: Sessions)
    requires WellKept(s)
    ensures Load(Dump(s)) == s
    decreases |s.order|
  {
    if s.order == [] {
      assert s.records == map[];
    } else {
      var init, last := WithoutLast(s);
      RoundTrip(init);
      DumpAppends(init, last);
      LoadAppends(Dump(init), last);
    }
  }

  lemma WithoutLast(s: Sessions) returns (init: Sessions, last: Record)
    requires WellKept(s) && s.order != []
    ensures WellKept(init) && |init.order| < |s.order|
    ensures ValidId(last.id) && last.id !in init.records && s == init.Put(last)
  {
    var n := |s.order| - 1;
    var id := s.order[n];
    last := s.records[id];
    init := Sessions(s.order[..n], s.records - {id});
    assert init.records.Keys == s.records.Keys - {id};
    assert s.order == init.order + [id];
    assert init.records[id := last] == s.records;
  }

  // The call writes the manifest.
  predicate Writes(m: Manager, c: Call)
    requires WellKept(m.sessions) && Sound(c)
  {
    && Ended(m, c).Done?
    && match c.op
       case Reload => false
       case Attach(id, _) => m.sessions.records[id].status.Created?
       case Detach(id, _) => m.sessions.records[id].status.Running?
       case _ => true
  }

  // The sessions as they were when the manifest was last written.
  function LastWritten(m: Manager, calls: seq<Call>): Sessions
    requires WellKept(m.sessions) && AllSound(calls)
  {
    if calls == [] then m.sessions
    else
      var init, c := calls[..|calls| - 1], calls[|calls| - 1];
      if Writes(After(m, init), c) then After(m, calls).sessions else LastWritten(m, init)
  }

  lemma CommitWrites(m: Manager, change: Change, saves: bool)
    requires WellKept(m.sessions) && Fits(change) && m.persistent
    ensures var r := m.Commit(change, saves).0;
            LoadFile(r.file) == if saves && change.record.Some? then r.sessions else LoadFile(m.file)
  {
    RoundTrip(m.Commit(change, saves).0.sessions);
  }

  lemma WriteStep(m: Manager, c: Call)
    requires WellKept(m.sessions) && Sound(c) && m.persistent
    ensures LoadFile(Next(m, c).file) == if Writes(m, c) then Next(m, c).sessions else LoadFile(m.file)
  {
    if !c.op.Reload? {
      CommitWrites(m, Decide(m, c), c.saves);
      assert Writes(m, c) <==> c.saves && Decide(m, c).record.Some?;
    }
  }

  // Whatever happens in memory, the manifest loads as the sessions at its last successful write.
  lemma {:induction false} ManifestIsLastWritten(m: Manager, calls: seq<Call>)
    requires WellKept(m.sessions) && AllSound(calls) && m.persistent && m.InSync()
    ensures LoadFile(After(m, calls).file) == LastWritten(m, calls)
  {
    if calls != [] {
      var init := calls[..|calls| - 1];
      ManifestIsLastWritten(m, init);
      SettingsStay(m, init);
      WriteStep(After(m, init), calls[|calls| - 1]);
    }
  }

  // The call would change the sessions in memory.
  predicate Alters(m: Manager, c: Call)
    requires WellKept(m.sessions) && Sound(c)
  {
    var records := m.sessions.records;
    match c.op
    case Create(id, name, cwd) => id !in records || records[id] != Record(id, name, cwd, Created, c.wall, c.wall, None)
    case Rename(id, name) => m.Knows(id) && (records[id].name != name || records[id].updatedAt != c.wall)
    case Start(id) => m.Knows(id) && (records[id].status.Created? || records[id].status.Detached?)
    case Attach(id, _) =>
      m.Knows(id) && records[id].status.Created? && (id in m.leases ==> m.leases[id].expiresAt <= c.mono)
    case Detach(id, token) => m.Accepts(id, token, c.mono) && records[id].status.Running?
    case Pause(id, token) => m.Accepts(id, token, c.mono) && records[id].status.Running?
    case Resume(id, token) => m.Accepts(id, token, c.mono) && records[id].status.Paused?
    case Terminate(id, token) => m.Accepts(id, token, c.mono)
    case Complete(id, exitCode) =>
      m.Knows(id) &&
      !(records[id].status.Exited? && records[id].exitCode == exitCode && records[id].updatedAt == c.wall)
    case Reload => false
  }

  // What `Alters` says of the record a call would leave.
  lemma DecideAlters(m: Manager, c: Call)
    requires WellKept(m.sessions) && Sound(c) && !c.op.Reload? && OnlyLiveLeased(m)
    ensures Alters(m, c)
       <==> var r := Decide(m, c).record;
            r.Some? && (r.value.id !in m.sessions.records || m.sessions.records[r.value.id] != r.value)
  {
  }

  lemma PutChanges(s: Sessions, r: Record)
    ensures s.Put(r) == s <==> r.id in s.records && s.records[r.id] == r
  {
    if r.id in s.records && s.records[r.id] == r {
      assert s.records[r.id := r] == s.records;
    } else {
      assert s.Put(r).records[r.id] == r;
    }
  }

  lemma InSyncStep(m: Manager, c: Call)
    requires WellKept(m.sessions) && Sound(c) && m.persistent && m.InSync()
    ensures Next(m, c).InSync() <==> !Ended(m, c).SaveFailed? || Next(m, c).sessions == m.sessions
  {
    WriteStep(m, c);
  }

  // One call keeps memory and manifest equal exactly when its write would succeed or there is
  // nothing for it to write.
  lemma {:induction false} InSyncExactly(m: Manager, c: Call)
    requires WellKept(m.sessions) && Sound(c) && m.persistent && m.InSync() && OnlyLiveLeased(m)
    ensures Next(m, c).InSync() <==> c.saves || !Alters(m, c)
  {
    InSyncStep(m, c);
    if !c.op.Reload? {
      var change := Decide(m, c);
      DecideAlters(m, c);
      if change.record.Some? {
        PutChanges(m.sessions, change.record.value);
        assert Ended(m, c) == if c.saves then Done else SaveFailed;
        assert Next(m, c).sessions == m.sessions.Put(change.record.value);
      }
    }
  }

  lemma {:induction false} InSyncWhileWritable(m: Manager, calls: seq<Call>)
    requires WellKept(m.sessions) && AllSound(calls) && m.InSync()
    requires forall k :: 0 <= k < |calls| ==> calls[k].saves
    ensures After(m, calls).InSync()
  {
    if calls != [] && m.persistent {
      var init := calls[..|calls| - 1];
      InSyncWhileWritable(m, init);
      SettingsStay(m, init);
      InSyncStep(After(m, init), calls[|calls| - 1]);
    } else {
      SettingsStay(m, calls);
    }
  }

  // ---------------------------------------------------------------------------------------------
  // Final states
  // ---------------------------------------------------------------------------------------------

  // The session is there and has ended.
  predicate Over(s: Sessions, id: Id) {
    id in s.records && s.records[id].status.Final()
  }

  // The session is there and has not ended.
  predicate Live(s: Sessions, id: Id) {
    id in s.records && !s.records[id].status.Final()
  }

  // `id` is over in memory and on disk.
  predicate Settled(m: Manager, id: Id) {
    Over(m.sessions, id) && m.persistent && Over(LoadFile(m.file), id)
  }

  // Neither memory nor manifest has `id` as a live session.
  predicate Gone(m: Manager, id: Id) {
    !Live(m.sessions, id) && (m.persistent ==> !Live(LoadFile(m.file), id))
  }

  // The history does not draw `id` again as a new random id.
  ghost predicate NeverDrawn(calls: seq<Call>, id: Id) {
    forall k :: 0 <= k < |calls| ==> !(calls[k].op.Create? && calls[k].op.id == id)
  }

  lemma SettledStep(m: Manager, c: Call, id: Id)
    requires WellKept(m.sessions) && Sound(c) && OnlyLiveLeased(m) && Settled(m, id)
    requires !(c.op.Create? && c.op.id == id)
    ensures Settled(Next(m, c), id)
  {
    WriteStep(m, c);
    if !c.op.Reload? {
      FinalStep(m, c, id);
      CommitShape(m, Decide(m, c), c.saves, id);
    }
  }

  lemma {:induction false} SettledStays(m: Manager, calls: seq<Call>, id: Id)
    requires WellKept(m.sessions) && AllSound(calls) && OnlyLiveLeased(m) && Settled(m, id) && NeverDrawn(calls, id)
    ensures Settled(After(m, calls), id)
  {
    if calls != [] {
      var init := calls[..|calls| - 1];
      SettledStays(m, init, id);
      NoLeaseOnFinal(m, init);
      SettledStep(After(m, init), calls[|calls| - 1], id);
    }
  }

  const Restarted := [Call(Reload, 0, 0, 0, true)]

  lemma RestartShows(m: Manager, id: Id)
    requires WellKept(m.sessions)
    ensures AllSound([]) && NeverDrawn([], id) && After(m, []) == m
    ensures AllSound(Restarted) && NeverDrawn(Restarted, id)
    ensures After(m, Restarted).sessions == if m.persistent then LoadFile(m.file) else NoSessions
  {
    assert Restarted[..0] == [];
  }

  // A session stays exited or terminated over every history with restarts and failed writes exactly
  // when it is so in memory and in a manifest.
  lemma {:induction false} FinalForeverExactlyWhenSettled(m: Manager, id: Id)
    requires WellKept(m.sessions) && OnlyLiveLeased(m)
    ensures Settled(m, id)
       <==> forall calls: seq<Call> ::
              AllSound(calls) && NeverDrawn(calls, id) ==> Over(After(m, calls).sessions, id)
  {
    if Settled(m, id) {
      forall calls: seq<Call> | AllSound(calls) && NeverDrawn(calls, id)
        ensures Over(After(m, calls).sessions, id)
      {
        SettledStays(m, calls, id);
      }
    } else {
      RestartShows(m, id);
    }
  }

  lemma GoneStep(m: Manager, c: Call, id: Id)
    requires WellKept(m.sessions) && Sound(c) && OnlyLiveLeased(m) && Gone(m, id)
    requires !(c.op.Create? && c.op.id == id)
    ensures Gone(Next(m, c), id)
  {
    if m.persistent {
      WriteStep(m, c);
    }
    if !c.op.Reload? {
      CommitShape(m, Decide(m, c), c.saves, id);
      if id in m.sessions.records {
        DecideFinal(m, c, id);
      }
    }
  }

  lemma {:induction false} GoneStays(m: Manager, calls: seq<Call>, id: Id)
    requires WellKept(m.sessions) && AllSound(calls) && OnlyLiveLeased(m) && Gone(m, id) && NeverDrawn(calls, id)
    ensures Gone(After(m, calls), id)
  {
    if calls != [] {
      var init := calls[..|calls| - 1];
      GoneStays(m, init, id);
      NoLeaseOnFinal(m, init);
      GoneStep(After(m, init), calls[|calls| - 1], id);
    }
  }

  // A session is never live again, though it may vanish, exactly when neither memory nor manifest
  // has it live.
  lemma {:induction false} NeverLiveExactlyWhenGone(m: Manager, id: Id)
    requires WellKept(m.sessions) && OnlyLiveLeased(m)
    ensures Gone(m, id)
       <==> forall calls: seq<Call> ::
              AllSound(calls) && NeverDrawn(calls, id) ==> !Live(After(m, calls).sessions, id)
  {
    if Gone(m, id) {
      forall calls: seq<Call> | AllSound(calls) && NeverDrawn(calls, id)
        ensures !Live(After(m, calls).sessions, id)
      {
        GoneStays(m, calls, id);
      }
    } else {
      RestartShows(m, id);
    }
  }

  predicate Completes(calls: seq<Call>, id: Id) {
    calls != [] && var c := calls[|calls| - 1];
    (c.op.Complete? && c.op.id == id) || Completes(calls[..|calls| - 1], id)
  }

  lemma DecideFinal(m: Manager, c: Call, id: Id)
    requires WellKept(m.sessions) && Sound(c) && !c.op.Reload? && OnlyLiveLeased(m)
    requires m.Knows(id) && m.sessions.records[id].status.Final() && !(c.op.Create? && c.op.id == id)
    ensures var r := RecordAfter(m, Decide(m, c), id);
            r.Some? && r.value.status == if c.op.Complete? && c.op.id == id then Exited
              else m.sessions.records[id].status
  {
  }

  // Within one process a session that is over stays over, and nothing but `complete` changes how:
  // it has no state check, so `terminated` is not terminal.
  lemma {:induction false} OnlyCompletionMovesFinal(m: Manager, calls: seq<Call>, id: Id)
    requires WellKept(m.sessions) && AllSound(calls) && OnlyLiveLeased(m) && NeverDrawn(calls, id)
    requires m.Knows(id) && m.sessions.records[id].status.Final()
    requires forall k :: 0 <= k < |calls| ==> !calls[k].op.Reload?
    ensures After(m, calls).Knows(id)
    ensures After(m, calls).sessions.records[id].status
         == if Completes(calls, id) then Exited else m.sessions.records[id].status
  {
    if calls != [] {
      var init, c := calls[..|calls| - 1], calls[|calls| - 1];
      OnlyCompletionMovesFinal(m, init, id);
      NoLeaseOnFinal(m, init);
      FinalStep(After(m, init), c, id);
    }
  }

  lemma FinalStep(m: Manager, c: Call, id: Id)
    requires WellKept(m.sessions) && Sound(c) && !c.op.Reload? && OnlyLiveLeased(m)
    requires m.Knows(id) && m.sessions.records[id].status.Final() && !(c.op.Create? && c.op.id == id)
    ensures Next(m, c).Knows(id)
    ensures Next(m, c).sessions.records[id].status
         == if c.op.Complete? && c.op.id == id then Exited else m.sessions.records[id].status
  {
    CommitShape(m, Decide(m, c), c.saves, id);
    DecideFinal(m, c, id);
  }
}
