/**
 Where the relay sends what. In a fresh run every envelope that a handler sends to another socket,
 handshake or traffic, goes to the other end of the handler's own session, even when the agent was
 read from a slot object that has left the table.
 */
module RelayAddressing {
  import opened Prelude
  import opened RoutingTable
  import opened Pairing
  import opened Router
  import opened Relay
  import opened RelayPlacement
  import opened RelayRouting
  import opened RelayTraffic

  // ----- slot objects

  // Every slot object has its own number, in the table or out of it.
  ghost predicate RefsOk(t: Table) {
    && (forall sid :: sid in t.slots ==> t.slots[sid].ref < t.next && t.slots[sid].ref !in t.dropped)
    && (forall r :: r in t.dropped ==> r < t.next)
    && (forall a, b :: a in t.slots && b in t.slots && a != b ==> t.slots[a].ref != t.slots[b].ref)
  }

  // A slot object leaves the table with its agent, or after that agent's detach.
  ghost predicate DroppedFrom(t: Table, r: nat, slot: Slot) {
    exists sid :: sid in t.slots && t.slots[sid].ref == r && (slot.agent == None || slot.agent == t.slots[sid].agent)
  }

  // What a segment does to slot objects: it keeps the filed ones under their ids, numbers new ones
  // upwards, and never changes one that was dropped before.
  ghost predicate Evolves(t: Table, t1: Table) {
    && t.next <= t1.next
    && (forall sid :: sid in t1.slots ==>
          t1.slots[sid].ref >= t.next || (sid in t.slots && t1.slots[sid].ref == t.slots[sid].ref))
    && (forall r :: r in t1.dropped ==>
          r >= t.next || (r in t.dropped && t1.dropped[r] == t.dropped[r]) || DroppedFrom(t, r, t1.dropped[r]))
  }

  lemma SetPhaseEvolves(t: Table, sid: SessionId, phase: Phase)
    requires RefsOk(t)
    ensures RefsOk(t.SetPhase(sid, phase)) && Evolves(t, t.SetPhase(sid, phase))
  {
  }

  lemma NewSlotEvolves(t: Table, sid: SessionId)
    requires RefsOk(t)
    ensures var t1 := t.SetDefault(sid); RefsOk(t1) && Evolves(t, t1) && t1.dropped == t.dropped
    ensures sid in t.slots ==> t.SetDefault(sid) == t
    ensures sid !in t.slots ==> t.SetDefault(sid).slots[sid].ref == t.next
  {
  }

  lemma FillEvolves(t: Table, sid: SessionId, slot: Slot)
    requires RefsOk(t) && sid in t.slots && slot.ref == t.slots[sid].ref
    ensures RefsOk(t.(slots := t.slots[sid := slot]))
  {
  }

  lemma AttachEvolves(t: Table, sid: SessionId, role: Role, w: Ws)
    requires RefsOk(t)
    ensures RefsOk(t.Attach(sid, role, w)) && Evolves(t, t.Attach(sid, role, w))
    ensures t.Attach(sid, role, w).dropped == t.dropped
  {
    if !t.Conflicts(sid, role, w) {
      var t1 := t.SetDefault(sid);
      NewSlotEvolves(t, sid);
      FillEvolves(t1, sid, t1.slots[sid].Set(role, Some(w)));
    }
  }

  lemma BuryEvolves(t: Table, sid: SessionId)
    requires RefsOk(t)
    ensures RefsOk(t.Bury(sid)) && Evolves(t, t.Bury(sid))
  {
    if sid in t.slots {
      assert DroppedFrom(t, t.slots[sid].ref, t.slots[sid]);
    }
  }

  lemma DetachEvolves(t: Table, sid: SessionId, role: Role)
    requires RefsOk(t)
    ensures RefsOk(t.Detach(sid, role)) && Evolves(t, t.Detach(sid, role))
  {
    if sid in t.slots {
      assert DroppedFrom(t, t.slots[sid].ref, t.slots[sid].Set(role, None));
    }
  }

  lemma LeaveEvolves(t: Table, sid: SessionId, role: Role)
    requires RefsOk(t)
    ensures RefsOk(t.Detach(sid, role).Remove(sid)) && Evolves(t, t.Detach(sid, role).Remove(sid))
  {
    DetachEvolves(t, sid, role);
    BuryEvolves(t.Detach(sid, role), sid);
    if sid in t.slots {
      assert DroppedFrom(t, t.slots[sid].ref, t.slots[sid].Set(role, None));
    }
  }

  lemma SeatEvolves(t: Table, sid: SessionId, role: Role, w: Ws, phase: Phase)
    requires RefsOk(t)
    ensures var t1 := t.Attach(sid, role, w).SetPhase(sid, phase);
            RefsOk(t1) && Evolves(t, t1) && t1.dropped == t.dropped
  {
    AttachEvolves(t, sid, role, w);
    SetPhaseEvolves(t.Attach(sid, role, w), sid, phase);
  }

  // Detaching the agent drops at most this slot object, without an agent.
  lemma AgentDetached(t: Table, sid: SessionId)
    ensures var t1 := t.Detach(sid, Agent);
            && t1.next == t.next
            && (forall other :: other in t1.slots ==> other in t.slots && t1.slots[other].ref == t.slots[other].ref)
            && (forall r :: r in t1.dropped ==>
                  || (r in t.dropped && t1.dropped[r] == t.dropped[r])
                  || (sid in t.slots && r == t.slots[sid].ref && t1.dropped[r].agent == None))
  {
  }

  // resume_init that seats its agent and takes it back.
  lemma RetractEvolves(t: Table, sid: SessionId, w: Ws, phase: Phase)
    requires RefsOk(t)
    ensures var t1 := t.Attach(sid, Agent, w).SetPhase(sid, phase).Detach(sid, Agent); RefsOk(t1) && Evolves(t, t1)
  {
    var t1 := t.Attach(sid, Agent, w).SetPhase(sid, phase);
    var t2 := t1.Detach(sid, Agent);
    SeatEvolves(t, sid, Agent, w, phase);
    DetachEvolves(t1, sid, Agent);
    AgentDetached(t1, sid);
    forall r | r in t2.dropped && r < t.next && r !in t.dropped ensures DroppedFrom(t, r, t2.dropped[r]) {
      assert sid in t.slots && t.slots[sid].ref == r;
    }
  }

  lemma EnvelopeEvolves(t: Table, c: Conn, n: nat, m: Message, now: int, cfg: Config)
    requires RefsOk(t) && c.ctl.Receiving? && Shaped(c.ws, c)
    ensures var t1 := OnEnvelope(t, c, n, m, now, cfg).table; RefsOk(t1) && Evolves(t, t1)
  {
    if !ClaimsSession(c, n, m) {
      EnvelopeStays(t, c, n, m, now, cfg);
      if c.session.Some? {
        SetPhaseEvolves(t, c.session.value, Established);
      }
    } else if m.PairInit? {
      SeatEvolves(t, m.sid, Agent, c.ws, Pairing);
    } else {
      SeatEvolves(t, m.sid, Agent, c.ws, WaitingResume);
      RetractEvolves(t, m.sid, c.ws, WaitingResume);
      DetachEvolves(t, m.sid, Agent);
      ResumeInitTables(t, c.(lastSeq := n), m);
    }
  }

  // The tables that resume_init can leave, up to the device index.
  lemma ResumeInitTables(t: Table, c: Conn, m: Message)
    requires m.ResumeInit? && c.role == Agent && c.session.None? && m.fieldsOk
    ensures var t1 := OnResumeInit(t, c, m).table;
            var seated := t.Attach(m.sid, Agent, c.ws).SetPhase(m.sid, WaitingResume);
            || t1 == t.Detach(m.sid, Agent)
            || t1 == seated.Detach(m.sid, Agent)
            || t1 == seated.RegisterDevice(m.device, m.sid)
  {
  }

  lemma ResumeEvolves(t: Table, c: Conn, now: int, cfg: Config)
    requires RefsOk(t) && c.ctl.Resumed? && Shaped(c.ws, c)
    ensures var t1 := Resume(t, c, c.ctl.next, c.ctl.reply, now, cfg).table; RefsOk(t1) && Evolves(t, t1)
  {
    if !Moves(c.ctl.next, c.ctl.reply) {
      ResumeStays(t, c, now, cfg);
      if c.session.Some? {
        SetPhaseEvolves(t, c.session.value, Established);
      }
    } else {
      MoveEvolves(t, c, now, cfg);
    }
  }

  lemma MoveEvolves(t: Table, c: Conn, now: int, cfg: Config)
    requires RefsOk(t) && c.ctl.Resumed? && Moves(c.ctl.next, c.ctl.reply)
    ensures var t1 := Resume(t, c, c.ctl.next, c.ctl.reply, now, cfg).table; RefsOk(t1) && Evolves(t, t1)
  {
    match c.ctl.next
    case InitLimited(sid, _) => DetachEvolves(t, sid, Agent);
    case InitIssued(sid, _) => DetachEvolves(t, sid, Agent);
    case InitUndone(sid) => DetachEvolves(t, sid, Agent);
    case RequestConsumed => PairBindEvolves(t, c, now, cfg);
    case ResumeTokenLimited(device) => ResumeBindEvolves(t, c, device, now, cfg);
    case CloseRouted(sid) => BuryEvolves(t, sid);
    case Notified(sid) => BuryEvolves(t, sid);
    case Finishing =>
  }

  lemma PairBindEvolves(t: Table, c: Conn, now: int, cfg: Config)
    requires RefsOk(t) && c.ctl.Resumed?
    ensures var t1 := AfterRequestConsumed(t, c, c.ctl.reply, now, cfg).table; RefsOk(t1) && Evolves(t, t1)
  {
    if c.ctl.reply.Granted? {
      AttachEvolves(t, c.ctl.reply.sid, Client, c.ws);
    }
  }

  lemma ResumeBindEvolves(t: Table, c: Conn, device: DeviceId, now: int, cfg: Config)
    requires RefsOk(t) && c.ctl.Resumed?
    ensures var t1 := AfterResumeTokenLimited(t, c, device, c.ctl.reply, now, cfg).table; RefsOk(t1) && Evolves(t, t1)
  {
    if device in t.devices {
      SeatEvolves(t, t.devices[device], Client, c.ws, Resuming);
    }
  }

  lemma SegmentEvolves(s: State, a: Action)
    requires Enabled(s, a) && IsSegment(a) && Placed(s.table, s.conns) && RefsOk(s.table)
    ensures RefsOk(SegmentOf(s, a).table) && Evolves(s.table, SegmentOf(s, a).table)
  {
    var c := s.conns[a.ws];
    assert Shaped(a.ws, c);
    match a
    case Deliver(_, n, m) => EnvelopeEvolves(s.table, c, n, m, s.now, s.cfg);
    case Run(_, peerOpen) =>
      if !c.ctl.Unwinding? {
        ResumeEvolves(s.table, c, s.now, s.cfg);
      } else if c.session.Some? {
        DetachEvolves(s.table, c.session.value, c.role);
        LeaveEvolves(s.table, c.session.value, c.role);
      }
    case _ =>
  }

  // ----- the slot that a suspended pair_request refers to

  predicate HoldsSlot(c: Conn) {
    (c.ctl.Awaiting? || c.ctl.Resumed?) && (c.ctl.next.RequestRecorded? || c.ctl.next.RequestChallenged?)
  }

  // It is the slot of the session alone, and has had no agent but the session's own.
  ghost predicate HeldOk(t: Table, h: History, c: Conn) {
    HoldsSlot(c) ==>
      var sid, r := c.ctl.next.sid, c.ctl.next.slot;
      && sid in h && r < t.next
      && (forall other :: other in t.slots && t.slots[other].ref == r ==> other == sid)
      && (r in t.dropped && t.dropped[r].agent.Some? ==> t.dropped[r].agent.value == h[sid].owner)
  }

  ghost predicate SlotsOwned(t: Table, h: History) {
    forall sid :: sid in t.slots && t.slots[sid].agent.Some? ==> sid in h && h[sid].owner == t.slots[sid].agent.value
  }

  ghost predicate OwnersStay(h: History, h1: History) {
    forall sid :: sid in h ==> sid in h1 && h1[sid].owner == h[sid].owner
  }

  lemma GoodOwns(t: Table, conns: map<Ws, Conn>, tokens: map<Token, TokenEntry>, h: History)
    requires Good(t, conns, tokens, h)
    ensures SlotsOwned(t, h)
  {
    forall sid | sid in t.slots && t.slots[sid].agent.Some?
      ensures sid in h && h[sid].owner == t.slots[sid].agent.value
    {
      var w := t.slots[sid].agent.value;
      assert SlotSeated(conns, sid, t.slots[sid]);
      assert ConnOk(t, h, w, conns[w]);
    }
  }

  lemma HeldStays(t: Table, t1: Table, h: History, h1: History, c: Conn)
    requires HeldOk(t, h, c) && Evolves(t, t1) && SlotsOwned(t, h) && OwnersStay(h, h1)
    ensures HeldOk(t1, h1, c)
  {
    if HoldsSlot(c) {
      var sid, r := c.ctl.next.sid, c.ctl.next.slot;
      if r in t1.dropped && t1.dropped[r].agent.Some? && DroppedFrom(t, r, t1.dropped[r]) {
        var from :| from in t.slots && t.slots[from].ref == r
                    && (t1.dropped[r].agent == None || t1.dropped[r].agent == t.slots[from].agent);
        assert from == sid;
      }
    }
  }

  // ----- who is written to

  ghost predicate OtherEnd(conns: map<Ws, Conn>, h: History, sid: SessionId, role: Role, to: Ws) {
    && sid in h
    && if role == Client then to == h[sid].owner
       else to in conns && conns[to].role == Client && conns[to].session == Some(sid)
  }

  ghost predicate Addressed(conns: map<Ws, Conn>, h: History, c: Conn) {
    c.ctl.Awaiting? && c.ctl.op.Send? && c.ctl.op.ws != c.ws ==>
      c.session.Some? && OtherEnd(conns, h, c.session.value, c.role, c.ctl.op.ws)
  }

  lemma PeerIsOtherEnd(t: Table, conns: map<Ws, Conn>, tokens: map<Token, TokenEntry>, h: History, sid: SessionId,
                       role: Role)
    requires Good(t, conns, tokens, h) && t.Peer(sid, role).Some?
    ensures OtherEnd(conns, h, sid, role, t.Peer(sid, role).value)
  {
    var w := t.Peer(sid, role).value;
    assert SlotSeated(conns, sid, t.slots[sid]);
    assert ConnOk(t, h, w, conns[w]) && SlotOk(h, sid, t.slots[sid]);
  }

  // The segment ends in a send to the connection's peer, or writes to nobody but itself.
  ghost predicate WritesToPeer(t: Table, c: Conn, o: Outcome) {
    o.conn.ctl.Awaiting? && o.conn.ctl.op.Send? && o.conn.ctl.op.ws != c.ws ==>
      o.conn.session.Some? && t.Peer(o.conn.session.value, c.role) == Some(o.conn.ctl.op.ws)
  }

  lemma EnvelopeWrites(t: Table, c: Conn, n: nat, m: Message, now: int, cfg: Config)
    ensures WritesToPeer(t, c, OnEnvelope(t, c, n, m, now, cfg))
  {
  }

  lemma UnwindWrites(t: Table, c: Conn, peerOpen: bool)
    ensures WritesToPeer(t, c, Unwind(t, c, peerOpen))
  {
  }

  lemma ResumeWrites(t: Table, c: Conn, now: int, cfg: Config)
    requires c.ctl.Resumed? && !c.ctl.next.RequestChallenged? && Shaped(c.ws, c)
    ensures WritesToPeer(t, c, Resume(t, c, c.ctl.next, c.ctl.reply, now, cfg))
  {
  }

  // The agent found in the held slot object is the session's own.
  lemma ChallengeWrites(t: Table, conns: map<Ws, Conn>, tokens: map<Token, TokenEntry>, h: History, c: Conn)
    requires Good(t, conns, tokens, h) && HeldOk(t, h, c) && Shaped(c.ws, c)
    requires c.ctl.Resumed? && c.ctl.next.RequestChallenged?
    ensures Addressed(conns, h, AfterRequestChallenged(t, c, c.ctl.next.sid, c.ctl.next.slot, c.ctl.reply).conn)
  {
    var sid, r := c.ctl.next.sid, c.ctl.next.slot;
    GoodOwns(t, conns, tokens, h);
    var held := t.SlotByRef(sid, r);
    if held.Some? && held.value.agent.Some? {
      assert held.value.agent.value == h[sid].owner;
    }
  }

  lemma SegmentWrites(s: State, a: Action)
    requires Enabled(s, a) && IsSegment(a) && GoodState(s) && HeldOk(s.table, s.hist, s.conns[a.ws])
    ensures Addressed(s.conns, s.hist, SegmentOf(s, a).conn)
  {
    var c := s.conns[a.ws];
    assert Shaped(a.ws, c);
    SegmentSocket(s, a);
    var o := SegmentOf(s, a);
    if a.Run? && c.ctl.Resumed? && c.ctl.next.RequestChallenged? {
      ChallengeWrites(s.table, s.conns, s.store.tokens, s.hist, c);
    } else {
      match a {
        case Deliver(_, n, m) => EnvelopeWrites(s.table, c, n, m, s.now, s.cfg);
        case Run(_, peerOpen) =>
          if c.ctl.Unwinding? {
            UnwindWrites(s.table, c, peerOpen);
          } else {
            ResumeWrites(s.table, c, s.now, s.cfg);
          }
        case _ =>
      }
      assert WritesToPeer(s.table, c, o);
      if o.conn.session.Some? && s.table.Peer(o.conn.session.value, c.role).Some? {
        PeerIsOtherEnd(s.table, s.conns, s.store.tokens, s.hist, o.conn.session.value, c.role);
      }
    }
  }

  lemma EnvelopeHoldsNone(t: Table, c: Conn, n: nat, m: Message, now: int, cfg: Config)
    ensures !HoldsSlot(OnEnvelope(t, c, n, m, now, cfg).conn)
  {
  }

  // A slot is held from the moment the client takes its seat there.
  lemma ResumeHolds(t: Table, c: Conn, now: int, cfg: Config)
    requires c.ctl.Resumed?
    ensures var k, k1 := c.ctl.next, Resume(t, c, c.ctl.next, c.ctl.reply, now, cfg).conn.ctl;
            k1.Awaiting? && (k1.next.RequestRecorded? || k1.next.RequestChallenged?) ==>
              || (k.RequestConsumed? && c.ctl.reply.Granted? && c.ctl.reply.sid in t.slots
                  && k1.next == RequestRecorded(c.ctl.reply.sid, t.slots[c.ctl.reply.sid].ref))
              || (k.RequestRecorded? && k1.next == RequestChallenged(k.sid, k.slot))
    ensures !Resume(t, c, c.ctl.next, c.ctl.reply, now, cfg).conn.ctl.Resumed?
  {
  }

  lemma SegmentHolds(s: State, a: Action)
    requires Enabled(s, a) && IsSegment(a) && GoodState(s) && RefsOk(s.table)
    requires HeldOk(s.table, s.hist, s.conns[a.ws]) && OwnersStay(s.hist, Apply(s, a).hist)
    ensures HeldOk(SegmentOf(s, a).table, Apply(s, a).hist, SegmentOf(s, a).conn)
  {
    var c, o := s.conns[a.ws], SegmentOf(s, a);
    if a.Deliver? {
      EnvelopeHoldsNone(s.table, c, a.n, a.msg, s.now, s.cfg);
    } else if a.Run? && c.ctl.Resumed? {
      ResumeHolds(s.table, c, s.now, s.cfg);
      if HoldsSlot(o.conn) {
        GoodOwns(s.table, s.conns, s.store.tokens, s.hist);
        SegmentEvolves(s, a);
        if c.ctl.next.RequestConsumed? {
          assert SlotOk(s.hist, c.ctl.reply.sid, s.table.slots[c.ctl.reply.sid]);
          SeatIsHeld(s.table, o.table, s.hist, Apply(s, a).hist, c.ctl.reply.sid, o.conn);
        } else {
          HeldStays(s.table, o.table, s.hist, Apply(s, a).hist, c);
        }
      }
    }
  }

  lemma SeatIsHeld(t: Table, t1: Table, h: History, h1: History, sid: SessionId, c1: Conn)
    requires RefsOk(t) && RefsOk(t1) && Evolves(t, t1) && OwnersStay(h, h1) && SlotsOwned(t, h) && sid in t.slots
    requires sid in h
    requires c1.ctl.Awaiting? && c1.ctl.next == RequestRecorded(sid, t.slots[sid].ref)
    ensures HeldOk(t1, h1, c1)
  {
    var r := t.slots[sid].ref;
    if r in t1.dropped && t1.dropped[r].agent.Some? {
      var from :| from in t.slots && t.slots[from].ref == r
                  && (t1.dropped[r].agent == None || t1.dropped[r].agent == t.slots[from].agent);
      assert from == sid;
    }
  }

  // ----- the invariant

  ghost predicate WellAddressed(s: State) {
    && RefsOk(s.table)
    && (forall w :: w in s.conns ==> HeldOk(s.table, s.hist, s.conns[w]) && Addressed(s.conns, s.hist, s.conns[w]))
  }

  lemma StepKeepsOwners(s: State, a: Action)
    requires Enabled(s, a) && Fresh(s, a) && GoodState(s)
    ensures OwnersStay(s.hist, Apply(s, a).hist)
  {
    StepLogs(s, a);
    StepExplained(s, a);
    var events := EventsOfStep(s, a);
    if events != [] {
      assert events == [events[0]] && Explained(s, a, events[0]);
      NoteOne(s.hist, events[0]);
    } else {
      assert NoteAll(s.hist, []) == s.hist;
    }
  }

  // A client stays bound to its session for good.
  lemma StepKeepsClients(s: State, a: Action, w: Ws)
    requires Enabled(s, a) && Placed(s.table, s.conns) && w in s.conns
    requires s.conns[w].role == Client && s.conns[w].session.Some?
    ensures w in Apply(s, a).conns && Apply(s, a).conns[w].role == Client
    ensures Apply(s, a).conns[w].session == s.conns[w].session
  {
    PlacedIsNamed(s.table, s.conns);
    StepFrame(s, a);
    if !a.Tick? && a.ws == w && IsSegment(a) {
      SegmentKeepsClient(s, a);
    }
  }

  lemma SegmentKeepsClient(s: State, a: Action)
    requires Enabled(s, a) && IsSegment(a) && Placed(s.table, s.conns)
    requires s.conns[a.ws].role == Client && s.conns[a.ws].session.Some?
    ensures SegmentOf(s, a).conn.role == Client && SegmentOf(s, a).conn.session == s.conns[a.ws].session
  {
    var c := s.conns[a.ws];
    assert Shaped(a.ws, c);
    if a.Deliver? {
      EnvelopeStays(s.table, c, a.n, a.msg, s.now, s.cfg);
    } else if a.Run? && c.ctl.Resumed? && !Moves(c.ctl.next, c.ctl.reply) {
      ResumeStays(s.table, c, s.now, s.cfg);
    }
  }

  lemma AddressedStays(s: State, a: Action, c: Conn)
    requires Enabled(s, a) && Placed(s.table, s.conns) && OwnersStay(s.hist, Apply(s, a).hist)
    requires Addressed(s.conns, s.hist, c)
    ensures Addressed(Apply(s, a).conns, Apply(s, a).hist, c)
  {
    if c.ctl.Awaiting? && c.ctl.op.Send? && c.ctl.op.ws != c.ws && c.role == Agent {
      StepKeepsClients(s, a, c.ctl.op.ws);
    }
  }

  lemma StepKeepsAddressed(s: State, a: Action)
    requires Enabled(s, a) && Fresh(s, a) && GoodState(s) && WellAddressed(s)
    ensures WellAddressed(Apply(s, a))
  {
    var s1 := Apply(s, a);
    PlacedIsNamed(s.table, s.conns);
    StepFrame(s, a);
    StepKeepsOwners(s, a);
    GoodOwns(s.table, s.conns, s.store.tokens, s.hist);
    if IsSegment(a) {
      SegmentEvolves(s, a);
      SegmentWrites(s, a);
      SegmentHolds(s, a);
      AddressedStays(s, a, SegmentOf(s, a).conn);
    }
    forall w | w in s1.conns
      ensures HeldOk(s1.table, s1.hist, s1.conns[w]) && Addressed(s1.conns, s1.hist, s1.conns[w])
    {
      if w in s.conns && (a.Tick? || w != a.ws) {
        HeldStays(s.table, s1.table, s.hist, s1.hist, s.conns[w]);
        AddressedStays(s, a, s.conns[w]);
      }
    }
  }

  lemma {:induction false} RunKeepsAddressed(s: State, acts: seq<Action>)
    requires Runs(s, acts) && FreshRun(s, acts) && GoodState(s) && WellAddressed(s)
    ensures WellAddressed(After(s, acts)) && GoodState(After(s, acts))
    decreases |acts|
  {
    if acts != [] {
      StepKeepsGood(s, acts[0]);
      StepKeepsAddressed(s, acts[0]);
      RunKeepsAddressed(Apply(s, acts[0]), acts[1..]);
    }
  }

  /**
   Every send of every fresh run: to the connection itself, or from a session's agent to a client
   bound to that session, or from a bound client to the agent that owns the session. When the
   session was paired by token, that client is the one that redeemed it.
   */
  lemma {:induction false} SendsStayInSession(cfg: Config, start: int, acts: seq<Action>, w: Ws)
    requires Runs(Init(cfg, start), acts) && FreshRun(Init(cfg, start), acts)
    requires var s := After(Init(cfg, start), acts);
             w in s.conns && s.conns[w].ctl.Awaiting? && s.conns[w].ctl.op.Send? && s.conns[w].ctl.op.ws != w
    ensures var s := After(Init(cfg, start), acts);
            var c, to := s.conns[w], s.conns[w].ctl.op.ws;
            && c.session.Some? && c.session.value in s.hist
            && var claim := s.hist[c.session.value];
               if c.role == Client then to == claim.owner && (claim.device.None? ==> claim.redeemed == Some(w))
               else w == claim.owner && to in s.conns && s.conns[to].role == Client
                    && s.conns[to].session == c.session && (claim.device.None? ==> claim.redeemed == Some(to))
  {
    RunKeepsAddressed(Init(cfg, start), acts);
    var s := After(Init(cfg, start), acts);
    assert Shaped(w, s.conns[w]);
    assert ConnOk(s.table, s.hist, w, s.conns[w]);
    if s.conns[w].role == Agent {
      assert ConnOk(s.table, s.hist, s.conns[w].ctl.op.ws, s.conns[s.conns[w].ctl.op.ws]);
    }
  }
}
