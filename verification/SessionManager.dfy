/** The agent's session manager: records and leases updated in place, and the manifest they are saved to. */
module SessionManager {
  import opened Prelude
  import opened SessionLifecycle

  class SessionRecord {
    const id: Id
    const cwd: string
    const createdAt: int
    var name: string
    var status: Status
    var updatedAt: int
    var exitCode: Option<int>

    constructor (r: Record)
      ensures Value() == r
    {
      id, cwd, createdAt := r.id, r.cwd, r.createdAt;
      name, status, updatedAt, exitCode := r.name, r.status, r.updatedAt, r.exitCode;
    }

    function Value(): Record
      reads this
    {
      Record(id, name, cwd, status, createdAt, updatedAt, exitCode)
    }
  }

  class SessionManager {
    const persistent: bool
    const leaseSeconds: nat
    var sessions: map<Id, SessionRecord>
    var order: seq<Id>
    var leases: map<Id, Lease>
    var file: Option<seq<Record>>
    ghost var kept: Sessions
    ghost var Repr: set<SessionRecord>

    ghost function View(): Manager
      reads this
    {
      Manager(kept, leases, file, persistent, leaseSeconds)
    }

    ghost predicate Valid()
      reads this, Repr
    {
      && order == kept.order && sessions.Keys == kept.records.Keys && WellKept(kept)
      && (forall id :: id in sessions ==> sessions[id] in Repr && Stands(id))
    }

    // The object filed under `id` is ours and holds that record.
    ghost predicate Stands(id: Id)
      requires id in sessions && id in kept.records && sessions[id] in Repr
      reads this, Repr
    {
      sessions[id].id == id && sessions[id].Value() == kept.records[id]
    }

    constructor (file: Option<seq<Record>>, persistent: bool, leaseSeconds: nat)
      ensures Valid() && fresh(Repr)
      ensures View() == Manager(if persistent then LoadFile(file) else NoSessions, map[], file, persistent,
                                leaseSeconds)
    {
      this.persistent, this.leaseSeconds := persistent, leaseSeconds;
      sessions, order, leases, this.file, kept, Repr := map[], [], map[], file, NoSessions, {};
      new;
      if persistent && file.Some? {
        LoadItems(file.value);
      }
    }

    method Put(r: Record)
      requires Valid() && ValidId(r.id)
      modifies this`order, this`sessions, this`kept, this`Repr
      ensures Valid() && fresh(Repr - old(Repr)) && kept == old(kept).Put(r)
    {
      var record := new SessionRecord(r);
      Insert(record);
    }

    // `self._sessions[record.session_id] = record`
    method Insert(record: SessionRecord)
      requires Valid() && ValidId(record.id)
      modifies this`order, this`sessions, this`kept, this`Repr
      ensures Valid() && Repr == old(Repr) + {record} && kept == old(kept).Put(record.Value())
    {
      PutKeeps(kept, record.Value());
      if record.id !in sessions {
        order := order + [record.id];
      }
      sessions := sessions[record.id := record];
      kept := kept.Put(record.Value());
      Repr := Repr + {record};
    }

    // `_load`
    method LoadItems(items: seq<Record>)
      requires Valid() && kept == NoSessions
      modifies this`order, this`sessions, this`kept, this`Repr
      ensures Valid() && fresh(Repr - old(Repr)) && kept == Load(items)
    {
      var i := 0;
      while i < |items|
        invariant 0 <= i <= |items|
        invariant Valid() && fresh(Repr - old(Repr)) && kept == Load(items[..i])
      {
        assert items[..i + 1][..i] == items[..i];
        if ValidId(items[i].id) {
          Put(items[i]);
        }
        i := i + 1;
      }
      assert items[..|items|] == items;
    }

    // `_save`, as one step; `ManifestFile` looks inside it.
    method Save(saves: bool) returns (outcome: Outcome)
      requires Valid()
      modifies this`file
      ensures Valid() && (View(), outcome) == old(View()).Save(saves)
    {
      if !persistent {
        return Done;
      }
      if !saves {
        return SaveFailed;
      }
      var items := Listed();
      file := Some(items);
      outcome := Done;
    }

    // `[asdict(item) for item in self._sessions.values()]`
    method Listed() returns (items: seq<Record>)
      requires Valid()
      ensures items == Dump(View().sessions)
    {
      ListsExactly(order, kept.records.Keys);
      items := [];
      var i := 0;
      while i < |order|
        invariant 0 <= i <= |order| && |items| == i
        invariant forall k :: 0 <= k < i ==> items[k] == kept.records[order[k]]
      {
        assert order[i] in sessions;
        items := items + [sessions[order[i]].Value()];
        i := i + 1;
      }
    }

    // The record of `id` was changed in place; `self._save()` comes next.
    method Resave(id: Id, saves: bool) returns (outcome: Outcome)
      requires id in sessions && order == kept.order && sessions.Keys == kept.records.Keys && WellKept(kept)
      requires sessions[id] in Repr && sessions[id].id == id
      requires forall k :: k in sessions && k != id ==> sessions[k] in Repr && Stands(k)
      modifies this`kept, this`file
      ensures Valid() && ValidId(id) && (View(), outcome) == old(View()).Update(sessions[id].Value(), saves)
    {
      PutKeeps(kept, sessions[id].Value());
      kept := kept.Put(sessions[id].Value());
      outcome := Save(saves);
    }

    method Create(id: Id, name: string, cwd: string, wall: int, saves: bool) returns (outcome: Outcome)
      requires Valid() && ValidId(id)
      modifies this
      ensures Valid() && fresh(Repr - old(Repr))
      ensures (View(), outcome) == old(View()).Commit(old(View()).Create(id, name, cwd, wall), saves)
    {
      Put(Record(id, name, cwd, Created, wall, wall, None));
      outcome := Save(saves);
    }

    method Rename(id: Id, name: string, wall: int, saves: bool) returns (outcome: Outcome)
      requires Valid()
      modifies this, Repr
      ensures Valid() && Repr == old(Repr)
      ensures (View(), outcome) == old(View()).Commit(old(View()).Rename(id, name, wall), saves)
    {
      if id !in sessions || !ValidId(id) {
        return Rejected;
      }
      sessions[id].name := name;
      sessions[id].updatedAt := wall;
      outcome := Resave(id, saves);
    }

    // `record.state = ...; record.updated_at = ...; self._save()`
    method Mark(id: Id, status: Status, wall: int, saves: bool) returns (outcome: Outcome)
      requires Valid() && id in sessions
      modifies this`kept, this`file, {sessions[id]}
      ensures Valid()
      ensures (View(), outcome) == old(View()).Update(old(View()).sessions.records[id].(status := status,
          updatedAt := wall), saves)
    {
      sessions[id].status := status;
      sessions[id].updatedAt := wall;
      outcome := Resave(id, saves);
    }

    method Start(id: Id, wall: int, saves: bool) returns (outcome: Outcome)
      requires Valid()
      modifies this`kept, this`file, Repr
      ensures Valid()
      ensures (View(), outcome) == old(View()).Commit(old(View()).Start(id, wall), saves)
    {
      if id !in sessions || !ValidId(id) || !(sessions[id].status.Created? || sessions[id].status.Detached?) {
        return Rejected;
      }
      outcome := Mark(id, Running, wall, saves);
    }

    method ExpireLease(id: Id, mono: int)
      requires Valid()
      modifies this`leases
      ensures Valid() && leases == old(View()).Expired(id, mono)
    {
      if id in leases && leases[id].expiresAt <= mono {
        leases := leases - {id};
      }
    }

    method RequireLease(id: Id, token: LeaseToken, mono: int) returns (ok: bool)
      requires Valid() && View().Knows(id)
      modifies this`leases
      ensures Valid() && ok == old(View()).Accepts(id, token, mono)
      ensures leases == old(View()).Expired(id, mono)
      ensures ok ==> leases == old(leases)
    {
      ExpireLease(id, mono);
      ok := id in leases && leases[id].token == token;
    }

    method Attach(id: Id, token: LeaseToken, mono: int, granted: int, wall: int, saves: bool) returns (outcome: Outcome)
      requires Valid()
      modifies this`leases, this`kept, this`file, Repr
      ensures Valid()
      ensures (View(), outcome) == old(View()).Commit(old(View()).Attach(id, token, mono, granted, wall), saves)
    {
      if id !in sessions || !ValidId(id) {
        return Rejected;
      }
      ExpireLease(id, mono);
      if sessions[id].status.Final() || id in leases {
        return Rejected;
      }
      outcome := Grant(id, token, granted, wall, saves);
    }

    method Grant(id: Id, token: LeaseToken, granted: int, wall: int, saves: bool) returns (outcome: Outcome)
      requires Valid() && id in sessions
      modifies this`leases, this`kept, this`file, {sessions[id]}
      ensures Valid()
      ensures var m := old(View()).(leases := old(View()).leases[id := Lease(token, granted + leaseSeconds)]);
              var r := m.sessions.records[id];
              (View(), outcome) == if r.status.Created? then m.Update(r.(status := Running, updatedAt := wall), saves)
                else (m, Done)
    {
      leases := leases[id := Lease(token, granted + leaseSeconds)];
      if sessions[id].status.Created? {
        outcome := Mark(id, Running, wall, saves);
      } else {
        outcome := Done;
      }
    }

    method Detach(id: Id, token: LeaseToken, mono: int, wall: int, saves: bool) returns (outcome: Outcome)
      requires Valid()
      modifies this`leases, this`kept, this`file, Repr
      ensures Valid()
      ensures (View(), outcome) == old(View()).Commit(old(View()).Detach(id, token, mono, wall), saves)
    {
      if id !in sessions || !ValidId(id) {
        return Rejected;
      }
      var ok := RequireLease(id, token, mono);
      if !ok {
        return Rejected;
      }
      leases := leases - {id};
      if sessions[id].status.Running? {
        outcome := Mark(id, Detached, wall, saves);
      } else {
        outcome := Done;
      }
    }

    method Switch(id: Id, token: LeaseToken, from: Status, to: Status, mono: int, wall: int, saves: bool)
      returns (outcome: Outcome)
      requires Valid()
      modifies this`leases, this`kept, this`file, Repr
      ensures Valid()
      ensures (View(), outcome) == old(View()).Commit(old(View()).Switch(id, token, from, to, mono, wall), saves)
    {
      if id !in sessions || !ValidId(id) {
        return Rejected;
      }
      var ok := RequireLease(id, token, mono);
      if !ok {
        return Rejected;
      }
      outcome := Move(id, from, to, wall, saves);
    }

    method Move(id: Id, from: Status, to: Status, wall: int, saves: bool) returns (outcome: Outcome)
      requires Valid() && id in sessions
      modifies this`kept, this`file, {sessions[id]}
      ensures Valid()
      ensures var r := old(View()).sessions.records[id];
              (View(), outcome) == if r.status != from then (old(View()), Rejected)
                                   else old(View()).Update(r.(status := to, updatedAt := wall), saves)
    {
      if sessions[id].status != from {
        return Rejected;
      }
      outcome := Mark(id, to, wall, saves);
    }

    method Pause(id: Id, token: LeaseToken, mono: int, wall: int, saves: bool) returns (outcome: Outcome)
      requires Valid()
      modifies this`leases, this`kept, this`file, Repr
      ensures Valid()
      ensures (View(), outcome) == old(View()).Commit(old(View()).Switch(id, token, Running, Paused, mono, wall), saves)
    {
      outcome := Switch(id, token, Running, Paused, mono, wall, saves);
    }

    method Resume(id: Id, token: LeaseToken, mono: int, wall: int, saves: bool) returns (outcome: Outcome)
      requires Valid()
      modifies this`leases, this`kept, this`file, Repr
      ensures Valid()
      ensures (View(), outcome) == old(View()).Commit(old(View()).Switch(id, token, Paused, Running, mono, wall), saves)
    {
      outcome := Switch(id, token, Paused, Running, mono, wall, saves);
    }

    method Terminate(id: Id, token: LeaseToken, mono: int, wall: int, saves: bool) returns (outcome: Outcome)
      requires Valid()
      modifies this`leases, this`kept, this`file, Repr
      ensures Valid()
      ensures (View(), outcome) == old(View()).Commit(old(View()).Terminate(id, token, mono, wall), saves)
    {
      if id !in sessions || !ValidId(id) {
        return Rejected;
      }
      var ok := RequireLease(id, token, mono);
      if !ok {
        return Rejected;
      }
      leases := leases - {id};
      outcome := Mark(id, Terminated, wall, saves);
    }

    method Complete(id: Id, exitCode: Option<int>, wall: int, saves: bool) returns (outcome: Outcome)
      requires Valid()
      modifies this`leases, this`kept, this`file, Repr
      ensures Valid()
      ensures (View(), outcome) == old(View()).Commit(old(View()).Complete(id, exitCode, wall), saves)
    {
      if id !in sessions || !ValidId(id) {
        return Rejected;
      }
      sessions[id].status := Exited;
      sessions[id].exitCode := exitCode;
      sessions[id].updatedAt := wall;
      leases := leases - {id};
      outcome := Resave(id, saves);
    }
  }
}
