/**
 The agent's terminal sessions as a value: records in insertion order, control leases that expire
 lazily, and the manifest on disk. `SessionManager` is the object that behaves this way.

 Two clocks appear: `mono` for leases and `wall` for time stamps. `saves` tells whether writing the
 manifest would succeed; when it does not, the operation raises after having changed memory.
 */
module SessionLifecycle {
  import opened Prelude

  // Dictionary keys: strings `ts-` plus 32 lower-case hexadecimal digits, read as the number they
  // spell, and all other strings, which only a hand-edited manifest contains.
  datatype Id = SessionId(number: nat) | Other(text: string)
  type LeaseToken = string

  datatype Status = Created | Running | Detached | Paused | Exited | Terminated {
    predicate Final() {
      Exited? || Terminated?
    }
  }

  datatype Record = Record(
    id: Id,
    name: string,
    cwd: string,
    status: Status,
    createdAt: int,
    updatedAt: int,
    exitCode: Option<int>)

  datatype Lease = Lease(token: LeaseToken, expiresAt: int)

  // `SaveFailed`: memory changed, the manifest did not, and the exception reached the caller.
  datatype Outcome = Done | Rejected | SaveFailed

  predicate ValidId(id: Id) {
    id.SessionId?
  }

  // A Python dictionary of records: distinct keys in insertion order.
  datatype Sessions = Sessions(order: seq<Id>, records: map<Id, Record>) {
    function Put(r: Record): Sessions {
      Sessions(if r.id in records then order else order + [r.id], records[r.id := r])
    }
  }

  const NoSessions := Sessions([], map[])

  // `order` lists `ids`, each once.
  predicate Lists(order: seq<Id>, ids: set<Id>) {
    if order == [] then ids == {}
    else order[|order| - 1] in ids && Lists(order[..|order| - 1], ids - {order[|order| - 1]})
  }

  lemma {:induction false} ListsExactly(order: seq<Id>, ids: set<Id>)
    requires Lists(order, ids)
    ensures forall id :: id in order <==> id in ids
    ensures forall i, j :: 0 <= i < j < |order| ==> order[i] != order[j]
  {
    if order != [] {
      var n := |order| - 1;
      ListsExactly(order[..n], ids - {order[n]});
      assert order == order[..n] + [order[n]];
    }
  }

  ghost predicate WellKept(s: Sessions) {
    && Lists(s.order, s.records.Keys)
    && (forall id :: id in s.records ==> ValidId(id) && s.records[id].id == id)
  }

  lemma PutKeeps(s: Sessions, r: Record)
    requires WellKept(s) && ValidId(r.id)
    ensures WellKept(s.Put(r))
  {
    var after := s.Put(r);
    if r.id in s.records {
      assert after.records.Keys == s.records.Keys;
    } else {
      assert after.order[..|s.order|] == s.order;
      assert after.records.Keys - {r.id} == s.records.Keys;
    }
  }

  // `json.dump` of the records in dictionary order.
  function Dump(s: Sessions): seq<Record>
    requires Lists(s.order, s.records.Keys)
  {
    ListsExactly(s.order, s.records.Keys);
    seq(|s.order|, i requires 0 <= i < |s.order| => s.records[s.order[i]])
  }

  // `_load`: items with an id of the wrong form are skipped, later items replace earlier ones.
  function Load(items: seq<Record>): Sessions {
    if items == [] then NoSessions
    else
      var s, r := Load(items[..|items| - 1]), items[|items| - 1];
      if ValidId(r.id) then s.Put(r) else s
  }

  // A missing or unreadable file loads as no sessions.
  function LoadFile(file: Option<seq<Record>>): Sessions {
    if file.None? then NoSessions else Load(file.value)
  }

  // What an operation decided: refused or not, the leases it leaves, and the record it updates and
  // then saves, if any.
  datatype Change = Change(accepted: bool, leases: map<Id, Lease>, record: Option<Record>)

  ghost predicate Fits(change: Change) {
    change.record.Some? ==> change.accepted && ValidId(change.record.value.id)
  }

  datatype Manager = Manager(
    sessions: Sessions,
    leases: map<Id, Lease>,
    file: Option<seq<Record>>,
    persistent: bool,
    leaseSeconds: nat)
  {
    predicate Knows(id: Id) {
      id in sessions.records && ValidId(id)
    }

    predicate InSync() {
      persistent ==> LoadFile(file) == sessions
    }

    // `_save`
    function Save(saves: bool): (Manager, Outcome)
      requires WellKept(sessions)
    {
      if !persistent then (this, Done)
      else if saves then (this.(file := Some(Dump(sessions))), Done)
      else (this, SaveFailed)
    }

    // A record is updated in place and the manifest rewritten.
    function Update(r: Record, saves: bool): (after: (Manager, Outcome))
      requires WellKept(sessions) && ValidId(r.id)
      ensures WellKept(after.0.sessions)
    {
      PutKeeps(sessions, r);
      this.(sessions := sessions.Put(r)).Save(saves)
    }

    // The operation that decided on `change`.
    function Commit(change: Change, saves: bool): (after: (Manager, Outcome))
      requires WellKept(sessions) && Fits(change)
      ensures WellKept(after.0.sessions)
    {
      var m := this.(leases := change.leases);
      if !change.accepted then (m, Rejected)
      else if change.record.None? then (m, Done)
      else m.Update(change.record.value, saves)
    }

    function Create(id: Id, name: string, cwd: string, wall: int): (change: Change)
      requires ValidId(id)
      ensures Fits(change)
    {
      Change(true, leases, Some(Record(id, name, cwd, Created, wall, wall, None)))
    }

    function Rename(id: Id, name: string, wall: int): (change: Change)
      requires WellKept(sessions)
      ensures Fits(change)
    {
      if !Knows(id) then Change(false, leases, None)
      else Change(true, leases, Some(sessions.records[id].(name := name, updatedAt := wall)))
    }

    function Start(id: Id, wall: int): (change: Change)
      requires WellKept(sessions)
      ensures Fits(change)
    {
      if !Knows(id) || !(sessions.records[id].status.Created? || sessions.records[id].status.Detached?)
      then Change(false, leases, None)
      else Change(true, leases, Some(sessions.records[id].(status := Running, updatedAt := wall)))
    }

    // `_expire_lease`
    function Expired(id: Id, mono: int): map<Id, Lease> {
      if id in leases && leases[id].expiresAt <= mono then leases - {id} else leases
    }

    // The monotonic clock is read twice: `mono` for the expiry check, `granted` for the new lease.
    function Attach(id: Id, token: LeaseToken, mono: int, granted: int, wall: int): (change: Change)
      requires WellKept(sessions)
      ensures Fits(change)
    {
      if !Knows(id) then Change(false, leases, None)
      else
        var live, r := Expired(id, mono), sessions.records[id];
        if r.status.Final() || id in live then Change(false, live, None)
        else
          Change(true, live[id := Lease(token, granted + leaseSeconds)],
                 if r.status.Created? then Some(r.(status := Running, updatedAt := wall)) else None)
    }

    // `_require_lease` passes.
    predicate Accepts(id: Id, token: LeaseToken, mono: int) {
      Knows(id) && id in leases && mono < leases[id].expiresAt && leases[id].token == token
    }

    function Detach(id: Id, token: LeaseToken, mono: int, wall: int): (change: Change)
      requires WellKept(sessions)
      ensures Fits(change)
    {
      if !Knows(id) then Change(false, leases, None)
      else if !Accepts(id, token, mono) then Change(false, Expired(id, mono), None)
      else
        var r := sessions.records[id];
        Change(true, leases - {id}, if r.status.Running? then Some(r.(status := Detached, updatedAt := wall)) else None)
    }

    // pause and resume: the holder moves the session from one state to another.
    function Switch(id: Id, token: LeaseToken, from: Status, to: Status, mono: int, wall: int): (change: Change)
      requires WellKept(sessions)
      ensures Fits(change)
    {
      if !Knows(id) then Change(false, leases, None)
      else if !Accepts(id, token, mono) then Change(false, Expired(id, mono), None)
      else if sessions.records[id].status != from then Change(false, leases, None)
      else Change(true, leases, Some(sessions.records[id].(status := to, updatedAt := wall)))
    }

    function Terminate(id: Id, token: LeaseToken, mono: int, wall: int): (change: Change)
      requires WellKept(sessions)
      ensures Fits(change)
    {
      if !Knows(id) then Change(false, leases, None)
      else if !Accepts(id, token, mono) then Change(false, Expired(id, mono), None)
      else Change(true, leases - {id}, Some(sessions.records[id].(status := Terminated, updatedAt := wall)))
    }

    // No state check: a terminated session becomes exited.
    function Complete(id: Id, exitCode: Option<int>, wall: int): (change: Change)
      requires WellKept(sessions)
      ensures Fits(change)
    {
      if !Knows(id) then Change(false, leases, None)
      else Change(true, leases - {id},
                  Some(sessions.records[id].(status := Exited, exitCode := exitCode, updatedAt := wall)))
    }

    // A new manager on the same manifest.
    function Reload(): Manager {
      Manager(if persistent then LoadFile(file) else NoSessions, map[], file, persistent, leaseSeconds)
    }
  }
}
