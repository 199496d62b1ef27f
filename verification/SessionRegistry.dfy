/** The mutable routing table. Its slots are objects that a handler may keep a reference to. */
module SessionRegistry {
  import opened Prelude
  import opened RoutingTable

  class SessionSlot {
    const ref: nat  // stands for the object's identity
    ghost const sid: SessionId
    var agent: Option<Ws>
    var client: Option<Ws>
    var phase: Phase

    constructor (ref: nat, ghost sid: SessionId)
      ensures Value() == Slot(ref, None, None, Pairing) && this.sid == sid
    {
      this.ref, this.sid := ref, sid;
      agent, client, phase := None, None, Pairing;
    }

    ghost function Value(): Slot
      reads this
    {
      Slot(ref, agent, client, phase)
    }

    function Get(role: Role): (ws: Option<Ws>)
      reads this
      ensures ws == Value().Get(role)
    {
      if role == Agent then agent else client
    }

    method Set(role: Role, ws: Option<Ws>)
      modifies this`agent, this`client
      ensures Value() == old(Value()).Set(role, ws)
    {
      if role == Agent {
        agent := ws;
      } else {
        client := ws;
      }
    }
  }

  class SessionRegistry {
    var sessions: map<SessionId, SessionSlot>
    var devices: map<DeviceId, SessionId>
    var made: nat                     // numbers the slot objects
    ghost var View: Table             // the registry as a value
    ghost var Repr: set<SessionSlot>  // every slot object it has ever made

    ghost predicate Valid()
      reads this, Repr
    {
      && devices == View.devices && made == View.next
      && sessions.Keys == View.slots.Keys
      && (forall s :: s in sessions ==> sessions[s] in Repr && Filed(s))
      && (forall o :: o in Repr ==> Kept(o))
      && (forall r :: r in View.dropped ==> r < View.next)
      && (forall a, b :: a in View.slots && b in View.slots && a != b ==> View.slots[a].ref != View.slots[b].ref)
    }

    ghost predicate Filed(s: SessionId)
      requires s in sessions && s in View.slots
      reads this, sessions[s]
    {
      var o := sessions[s];
      o.sid == s && o.ref !in View.dropped && o.Value() == View.slots[s]
    }

    ghost predicate Kept(o: SessionSlot)
      reads this, o
    {
      && o.ref < View.next
      && if o.ref in View.dropped then View.dropped[o.ref] == o.Value() else o.sid in sessions && sessions[o.sid] == o
    }

    constructor ()
      ensures Valid() && View == EmptyTable && Repr == {}
    {
      sessions, devices, made, View, Repr := map[], map[], 0, EmptyTable, {};
    }

    method SetDefault(sid: SessionId) returns (slot: SessionSlot)
      requires Valid()
      modifies this
      ensures Valid() && fresh(Repr - old(Repr))
      ensures View == old(View).SetDefault(sid)
      ensures sid in sessions && sessions[sid] == slot
    {
      if sid in sessions {
        slot := sessions[sid];
      } else {
        slot := new SessionSlot(made, sid);
        made := made + 1;
        sessions := sessions[sid := slot];
        Repr := Repr + {slot};
        View := View.SetDefault(sid);
        forall o | o in Repr ensures Kept(o) {
          assert o != slot ==> old(Kept(o));
        }
        forall s | s in sessions ensures sessions[s] in Repr && Filed(s) {
          assert s != sid ==> old(Filed(s));
        }
        forall s | s in View.slots && s != sid ensures View.slots[s].ref < View.slots[sid].ref {
          assert old(Filed(s)) && old(Kept(sessions[s]));
        }
      }
    }

    // `slot.set(role, ws)` on a filed slot.
    method Fill(sid: SessionId, role: Role, ws: Option<Ws>)
      requires Valid() && sid in sessions
      modifies this`View, {sessions[sid]}`agent, {sessions[sid]}`client
      ensures Valid()
      ensures View == old(View).(slots := old(View).slots[sid := old(View).slots[sid].Set(role, ws)])
    {
      sessions[sid].Set(role, ws);
      View := View.(slots := View.slots[sid := View.slots[sid].Set(role, ws)]);
    }

    method Attach(sid: SessionId, role: Role, ws: Ws) returns (slot: SessionSlot, ok: bool)
      requires Valid()
      modifies this, Repr`agent, Repr`client
      ensures Valid() && fresh(Repr - old(Repr))
      ensures View == old(View).Attach(sid, role, ws)
      ensures ok == !old(View).Conflicts(sid, role, ws)
      ensures sid in sessions && sessions[sid] == slot
    {
      slot := SetDefault(sid);
      var existing := slot.Get(role);
      if existing.Some? && existing != Some(ws) {
        return slot, false;
      }
      Fill(sid, role, Some(ws));
      ok := true;
    }

    method SetPhase(slot: SessionSlot, phase: Phase)
      requires Valid() && slot.sid in sessions && sessions[slot.sid] == slot
      modifies this`View, slot`phase
      ensures Valid()
      ensures View == old(View).SetPhase(slot.sid, phase)
    {
      slot.phase := phase;
      View := View.SetPhase(slot.sid, phase);
    }

    method GetPeer(sid: SessionId, role: Role) returns (peer: Option<Ws>)
      requires Valid()
      ensures peer == View.Peer(sid, role)
    {
      if sid !in sessions {
        return None;
      }
      peer := sessions[sid].Get(role.Other());
    }

    // `del self._sessions[session_id]`: the entry goes, the object stays reachable to its holders.
    method Bury(sid: SessionId)
      requires Valid() && sid in sessions
      modifies this`sessions, this`View
      ensures Valid() && View == old(View).Bury(sid)
    {
      ghost var slot := sessions[sid];
      assert Kept(slot) && slot.ref == View.slots[sid].ref;
      sessions := sessions - {sid};
      View := View.Bury(sid);
      forall o | o in Repr ensures Kept(o) {
        assert old(Kept(o));
        if o != slot && o.ref !in old(View).dropped {
          assert old(Filed(o.sid));
        }
      }
      forall s | s in sessions ensures Filed(s) {
        assert old(Filed(s));
      }
    }

    method Detach(sid: SessionId, role: Role)
      requires Valid()
      modifies this`sessions, this`View, Repr`agent, Repr`client
      ensures Valid() && View == old(View).Detach(sid, role)
    {
      if sid !in sessions {
        return;
      }
      var slot := sessions[sid];
      Fill(sid, role, None);
      if slot.agent == None && slot.client == None {
        Bury(sid);
      }
    }

    method Remove(sid: SessionId)
      requires Valid()
      modifies this`sessions, this`devices, this`View
      ensures Valid() && View == old(View).Remove(sid)
    {
      if sid in sessions {
        Bury(sid);
      }
      Forget(sid);
    }

    // The loop over `list(self._devices.items())`.
    method Forget(sid: SessionId)
      requires Valid()
      modifies this`devices, this`View
      ensures Valid()
      ensures View == old(View).(devices := map d | d in old(View).devices
                                 && old(View).devices[d] != sid :: old(View).devices[d])
    {
      ghost var before := devices;
      var pending := devices.Keys;
      while pending != {}
        invariant pending <= devices.Keys <= before.Keys
        invariant forall d :: d in devices ==> devices[d] == before[d]
        invariant forall d :: d in before && d !in pending ==> (d in devices <==> before[d] != sid)
        modifies this`devices
      {
        var d :| d in pending;
        if devices[d] == sid {
          devices := devices - {d};
        }
        pending := pending - {d};
      }
      View := View.(devices := devices);
    }

    method RegisterDevice(device: DeviceId, sid: SessionId) returns (ok: bool)
      requires Valid()
      modifies this`devices, this`View
      ensures Valid() && View == old(View).RegisterDevice(device, sid)
      ensures ok == !old(View).DeviceTaken(device, sid)
    {
      if device in devices && devices[device] != sid {
        return false;
      }
      devices := devices[device := sid];
      View := View.(devices := devices);
      ok := true;
    }
  }
}
