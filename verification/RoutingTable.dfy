/**
 The relay's in-process routing table as a value: which socket is the agent and which is the
 client of each session, and which session a saved device is waiting in.
 `SessionRegistry` is the mutable object that behaves this way.
 */
module RoutingTable {
  import opened Prelude

  type Ws = nat
  type SessionId = string
  type DeviceId = string

  datatype Phase = Pairing | WaitingResume | Resuming | Established

  // `ref` is the identity of the slot object, which outlives its entry in the table.
  datatype Slot = Slot(ref: nat, agent: Option<Ws>, client: Option<Ws>, phase: Phase) {
    function Get(role: Role): Option<Ws> {
      if role == Agent then agent else client
    }

    function Set(role: Role, ws: Option<Ws>): Slot {
      if role == Agent then this.(agent := ws) else this.(client := ws)
    }

    predicate IsEmpty() {
      agent == None && client == None
    }
  }

  // `dropped` keeps the last value of every slot object that left the table.
  datatype Table = Table(
    slots: map<SessionId, Slot>,
    dropped: map<nat, Slot>,
    devices: map<DeviceId, SessionId>,
    next: nat)
  {
    function SetDefault(sid: SessionId): Table {
      if sid in slots then this
      else this.(slots := slots[sid := Slot(next, None, None, Pairing)], next := next + 1)
    }

    // `attach` raises: another socket already plays this role.
    predicate Conflicts(sid: SessionId, role: Role, ws: Ws) {
      sid in slots && slots[sid].Get(role).Some? && slots[sid].Get(role) != Some(ws)
    }

    function Attach(sid: SessionId, role: Role, ws: Ws): Table {
      if Conflicts(sid, role, ws) then this
      else
        var t := SetDefault(sid);
        t.(slots := t.slots[sid := t.slots[sid].Set(role, Some(ws))])
    }

    function SetPhase(sid: SessionId, phase: Phase): Table {
      if sid in slots then this.(slots := slots[sid := slots[sid].(phase := phase)]) else this
    }

    function Peer(sid: SessionId, role: Role): Option<Ws> {
      if sid in slots then slots[sid].Get(role.Other()) else None
    }

    // Drop the entry; the slot object keeps its fields for whoever still holds it.
    function Bury(sid: SessionId): Table {
      if sid in slots then this.(slots := slots - {sid}, dropped := dropped[slots[sid].ref := slots[sid]])
      else this
    }

    function Detach(sid: SessionId, role: Role): Table {
      if sid !in slots then this
      else
        var t := this.(slots := slots[sid := slots[sid].Set(role, None)]);
        if t.slots[sid].IsEmpty() then t.Bury(sid) else t
    }

    function Remove(sid: SessionId): Table {
      Bury(sid).(devices := map d | d in devices && devices[d] != sid :: devices[d])
    }

    // `register_device` raises: the device is filed under another session.
    predicate DeviceTaken(device: DeviceId, sid: SessionId) {
      device in devices && devices[device] != sid
    }

    function RegisterDevice(device: DeviceId, sid: SessionId): Table {
      if DeviceTaken(device, sid) then this else this.(devices := devices[device := sid])
    }

    /** The current value of the slot object `ref`: filed under `sid`, or dropped since. */
    function SlotByRef(sid: SessionId, ref: nat): Option<Slot> {
      if sid in slots && slots[sid].ref == ref then Some(slots[sid])
      else if ref in dropped then Some(dropped[ref])
      else None
    }
  }

  const EmptyTable := Table(map[], map[], map[], 0)
}
