/**
 Handshake deadlines, in runs where handlers take no time and a due receive timeout fires before
 time moves on. A receive keeps the timeout it started with.
 */
module RelayTiming {
  import opened Prelude
  import opened RoutingTable
  import opened Pairing
  import opened Router
  import opened Relay
  import opened RelayPlacement
  import opened RelayRouting
  import opened RelayTraffic

  predicate Idle(c: Conn, until: int) {
    c.ctl.Finished? || (c.ctl.Receiving? && (c.ctl.expiry.Some? ==> until <= c.ctl.expiry.value))
  }

  predicate Prompt(s: State, a: Action) {
    a.Tick? ==> forall w :: w in s.conns ==> Idle(s.conns[w], a.now)
  }

  predicate PromptRun(s: State, acts: seq<Action>)
    requires Runs(s, acts)
    decreases |acts|
  {
    acts == [] || (Prompt(s, acts[0]) && PromptRun(Apply(s, acts[0]), acts[1..]))
  }

  // The client took part in a completed handshake.
  ghost predicate Reached(log: seq<Event>, w: Ws) {
    exists e :: e in log && e.Completed? && e.client == w
  }

  function Limit(born: int, c: Conn, cfg: Config): int {
    born + if c.session.None? then cfg.handshakeTimeout else 2 * cfg.handshakeTimeout
  }

  // Where an unauthenticated client stands against its limit.
  ghost predicate OnTime(c: Conn, born: int, now: int, cfg: Config) {
    && now <= Limit(born, c, cfg)
    && (c.deadline.Some? ==> c.deadline.value <= Limit(born, c, cfg))
    && (c.deadline.None? ==> c.session.None? && now == born && c.ctl == Resumed(Loop, Ok))
    && (c.ctl.Receiving? ==> c.ctl.expiry.Some? && now <= c.ctl.expiry.value <= Limit(born, c, cfg))
  }

  ghost predicate ClientOnTime(s: State, w: Ws)
    requires w in s.conns
  {
    && w in s.born
    && (s.conns[w].role == Client && !s.conns[w].ctl.Finished? && !Reached(s.log, w)
        ==> OnTime(s.conns[w], s.born[w], s.now, s.cfg))
  }

  ghost predicate ClientsOnTime(s: State) {
    forall w :: w in s.conns ==> ClientOnTime(s, w)
  }

  lemma LatestIsLogged(log: seq<Event>, sid: SessionId)
    ensures LatestComplete(log, sid).Some? ==>
              Completed(sid, LatestComplete(log, sid).value.0, LatestComplete(log, sid).value.1) in log
  {
  }

  // Only a completed handshake exempts a client's receive from the deadline.
  lemma ExemptReached(s: State, w: Ws)
    requires GoodState(s) && FaithfulLog(s) && w in s.conns && s.conns[w].role == Client && s.conns[w].Live()
    ensures Exempt(s.table, s.conns[w]) ==> Reached(s.log, w)
  {
    var c := s.conns[w];
    assert ConnOk(s.table, s.hist, w, c);
    if Exempt(s.table, c) {
      var sid := c.session.value;
      assert SlotOk(s.hist, sid, s.table.slots[sid]) && MatchesAt(s.hist, s.log, sid);
      LatestIsLogged(s.log, sid);
      assert Completed(sid, s.hist[sid].completed.value.0, w) in s.log;
    }
  }

  lemma EnvelopeOnTime(t: Table, c: Conn, n: nat, m: Message, born: int, now: int, cfg: Config)
    requires c.ctl.Receiving? && c.role == Client && OnTime(c, born, now, cfg)
    ensures OnTime(OnEnvelope(t, c, n, m, now, cfg).conn, born, now, cfg)
  {
  }

  lemma ResumeOnTime(t: Table, c: Conn, born: int, now: int, cfg: Config)
    requires c.ctl.Resumed? && c.role == Client && Shaped(c.ws, c) && OnTime(c, born, now, cfg)
    requires (c.Live() ==> !Exempt(t, c))
    ensures var c1 := Resume(t, c, c.ctl.next, c.ctl.reply, now, cfg).conn;
            c1.ctl.Finished? || OnTime(c1, born, now, cfg)
  {
  }

  lemma UnwindOnTime(t: Table, c: Conn, peerOpen: bool, born: int, now: int, cfg: Config)
    requires c.ctl.Unwinding? && OnTime(c, born, now, cfg)
    ensures var c1 := Unwind(t, c, peerOpen).conn;
            c1.ctl.Finished? || OnTime(c1, born, now, cfg)
  {
  }

  lemma SegmentOnTime(s: State, a: Action)
    requires Enabled(s, a) && IsSegment(a) && GoodState(s) && FaithfulLog(s) && ClientsOnTime(s)
    requires s.conns[a.ws].role == Client && !Reached(s.log, a.ws)
    ensures a.ws in s.born
    ensures var c1 := SegmentOf(s, a).conn; c1.ctl.Finished? || OnTime(c1, s.born[a.ws], s.now, s.cfg)
  {
    var c := s.conns[a.ws];
    assert Shaped(a.ws, c) && ClientOnTime(s, a.ws);
    match a
    case Deliver(_, n, m) => EnvelopeOnTime(s.table, c, n, m, s.born[a.ws], s.now, s.cfg);
    case Run(_, peerOpen) =>
      if c.ctl.Unwinding? {
        UnwindOnTime(s.table, c, peerOpen, s.born[a.ws], s.now, s.cfg);
      } else {
        if c.Live() {
          ExemptReached(s, a.ws);
        }
        ResumeOnTime(s.table, c, s.born[a.ws], s.now, s.cfg);
      }
    case _ =>
  }

  lemma ReachedExtends(log: seq<Event>, events: seq<Event>, w: Ws)
    ensures Reached(log, w) ==> Reached(log + events, w)
  {
    if Reached(log, w) {
      var e :| e in log && e.Completed? && e.client == w;
      assert e in log + events;
    }
  }

  lemma ClientStep(s: State, a: Action, w: Ws)
    requires Enabled(s, a) && Prompt(s, a) && GoodState(s) && FaithfulLog(s) && ClientsOnTime(s)
    requires w in s.conns && w in Apply(s, a).conns
    ensures ClientOnTime(Apply(s, a), w)
  {
    PlacedIsNamed(s.table, s.conns);
    StepFrame(s, a);
    StepLogs(s, a);
    StepBirths(s, a);
    assert ClientOnTime(s, w);
    var s1 := Apply(s, a);
    ReachedExtends(s.log, EventsOfStep(s, a), w);
    if s1.conns[w].role == Client && !s1.conns[w].ctl.Finished? && !Reached(s1.log, w) {
      if a.Tick? {
        assert Idle(s.conns[w], a.now);
      } else if a.ws == w && IsSegment(a) {
        SegmentSocket(s, a);
        SegmentOnTime(s, a);
      } else if a.ws == w {
        EffectOnTime(s, w, a.fault);
      }
    }
  }

  lemma EffectOnTime(s: State, w: Ws, fault: Fault)
    requires Enabled(s, Effect(w, fault)) && w in s.born && OnTime(s.conns[w], s.born[w], s.now, s.cfg)
    ensures OnTime(Perform(s, w, fault).conns[w], s.born[w], s.now, s.cfg)
    ensures Perform(s, w, fault).conns[w].role == s.conns[w].role
  {
  }

  lemma StepBirths(s: State, a: Action)
    requires Enabled(s, a)
    ensures Apply(s, a).born == if a.Connect? then s.born[a.ws := s.now] else s.born
    ensures a.Connect? ==> Apply(s, a).conns[a.ws] == Conn(a.ws, a.role, None, 0, None, Resumed(Loop, Ok))
    ensures a.Effect? ==> Apply(s, a) == Perform(s, a.ws, a.fault)
  {
  }

  lemma StepKeepsOnTime(s: State, a: Action)
    requires Enabled(s, a) && Prompt(s, a) && GoodState(s) && FaithfulLog(s) && ClientsOnTime(s)
    ensures ClientsOnTime(Apply(s, a))
  {
    PlacedIsNamed(s.table, s.conns);
    StepFrame(s, a);
    StepBirths(s, a);
    forall w | w in Apply(s, a).conns ensures ClientOnTime(Apply(s, a), w) {
      if w in s.conns {
        ClientStep(s, a, w);
      }
    }
  }

  lemma {:induction false} RunKeepsOnTime(s: State, acts: seq<Action>)
    requires Runs(s, acts) && FreshRun(s, acts) && PromptRun(s, acts)
    requires GoodState(s) && FaithfulLog(s) && ClientsOnTime(s)
    ensures ClientsOnTime(After(s, acts)) && After(s, acts).cfg == s.cfg
    decreases |acts|
  {
    if acts != [] {
      StepKeepsGood(s, acts[0]);
      StepKeepsLog(s, acts[0]);
      StepKeepsOnTime(s, acts[0]);
      RunKeepsOnTime(Apply(s, acts[0]), acts[1..]);
    }
  }

  /** Whatever it sends, a client that completes no handshake has ended 2 * handshakeTimeout after connecting. */
  lemma {:induction false} UnauthenticatedClientEnds(cfg: Config, start: int, acts: seq<Action>, w: Ws)
    requires var s := Init(cfg, start); Runs(s, acts) && FreshRun(s, acts) && PromptRun(s, acts)
    requires var s := After(Init(cfg, start), acts);
             w in s.conns && s.conns[w].role == Client && !s.conns[w].ctl.Finished? && !Reached(s.log, w)
    ensures var s := After(Init(cfg, start), acts); w in s.born && s.now <= s.born[w] + 2 * cfg.handshakeTimeout
  {
    RunKeepsOnTime(Init(cfg, start), acts);
    assert ClientOnTime(After(Init(cfg, start), acts), w);
  }

  // ----- the agent's side of a resume, in any run

  // An agent waiting for its owner waits without a timeout.
  ghost predicate Waits(s: State) {
    forall sid :: WaitsAt(s.table, s.conns, sid)
  }

  // An agent other than `w` waits in the slot for its owner.
  predicate WaitsFor(slot: Slot, w: Ws) {
    slot.phase == WaitingResume && slot.agent.Some? && slot.agent != Some(w)
  }

  // What a segment of `c` does to the sessions that wait for a resume.
  ghost predicate WaitsAfter(t: Table, c: Conn, o: Outcome) {
    && (o.conn.ctl.Receiving? ==> o.table == t && (Exempt(t, o.conn) ==> o.conn.ctl.expiry.None?))
    && (forall sid :: sid in o.table.slots && WaitsFor(o.table.slots[sid], c.ws) ==>
          sid in t.slots && t.slots[sid].phase == WaitingResume && t.slots[sid].agent == o.table.slots[sid].agent)
  }

  lemma StaysWaits(t: Table, c: Conn, o: Outcome)
    requires Stays(t, c, o) && !o.conn.ctl.Receiving?
    ensures WaitsAfter(t, c, o)
  {
  }

  lemma EnvelopeNotReceiving(t: Table, c: Conn, n: nat, m: Message, now: int, cfg: Config)
    ensures !OnEnvelope(t, c, n, m, now, cfg).conn.ctl.Receiving?
  {
  }

  lemma EnvelopeWaits(t: Table, c: Conn, n: nat, m: Message, now: int, cfg: Config)
    requires c.ctl.Receiving? && Shaped(c.ws, c)
    ensures WaitsAfter(t, c, OnEnvelope(t, c, n, m, now, cfg))
  {
    EnvelopeNotReceiving(t, c, n, m, now, cfg);
    if !ClaimsSession(c, n, m) {
      EnvelopeStays(t, c, n, m, now, cfg);
      StaysWaits(t, c, OnEnvelope(t, c, n, m, now, cfg));
    } else if m.PairInit? {
      PairInitWaits(t, c.(lastSeq := n), m);
    } else {
      ResumeInitWaits(t, c.(lastSeq := n), m);
    }
  }

  lemma PairInitWaits(t: Table, c: Conn, m: Message)
    requires m.PairInit? && c.ctl.Receiving?
    ensures WaitsAfter(t, c, OnPairInit(t, c, m))
  {
  }

  lemma ResumeInitWaits(t: Table, c: Conn, m: Message)
    requires m.ResumeInit? && c.ctl.Receiving?
    ensures WaitsAfter(t, c, OnResumeInit(t, c, m))
  {
    ResumeInitSlots(t, c, m, OnResumeInit(t, c, m).table);
  }

  // The only slot that may differ is that of `sid`.
  ghost predicate OnlySlot(t: Table, t1: Table, sid: SessionId) {
    forall other :: other in t1.slots && other != sid ==> other in t.slots && t1.slots[other] == t.slots[other]
  }

  lemma DetachOnlySlot(t: Table, sid: SessionId)
    ensures OnlySlot(t, t.Detach(sid, Agent), sid)
    ensures sid in t.Detach(sid, Agent).slots ==> t.Detach(sid, Agent).slots[sid].agent == None
  {
  }

  lemma AttachOnlySlot(t: Table, sid: SessionId, w: Ws)
    requires !t.Conflicts(sid, Agent, w)
    ensures var t1 := t.Attach(sid, Agent, w).SetPhase(sid, WaitingResume);
            OnlySlot(t, t1, sid) && sid in t1.slots && t1.slots[sid].agent == Some(w)
  {
  }

  // resume_init touches one slot, and leaves there no agent but its own.
  lemma ResumeInitSlots(t: Table, c: Conn, m: Message, t1: Table)
    requires m.ResumeInit? && t1 == OnResumeInit(t, c, m).table
    ensures t1 == t || (
              && OnlySlot(t, t1, m.sid)
              && (m.sid in t1.slots ==> t1.slots[m.sid].agent == None || t1.slots[m.sid].agent == Some(c.ws)))
  {
    if t1 != t {
      if t.Conflicts(m.sid, Agent, c.ws) {
        DetachOnlySlot(t, m.sid);
      } else {
        var t2 := t.Attach(m.sid, Agent, c.ws).SetPhase(m.sid, WaitingResume);
        AttachOnlySlot(t, m.sid, c.ws);
        DetachOnlySlot(t2, m.sid);
        assert t1.slots == if t2.DeviceTaken(m.device, m.sid) then t2.Detach(m.sid, Agent).slots else t2.slots;
      }
    }
  }

  lemma ListenWaits(t: Table, c: Conn, now: int, cfg: Config)
    ensures WaitsAfter(t, c, Listen(t, c, now, cfg))
  {
  }

  lemma MoveWaits(t: Table, c: Conn, now: int, cfg: Config)
    requires c.ctl.Resumed? && Moves(c.ctl.next, c.ctl.reply)
    ensures WaitsAfter(t, c, Resume(t, c, c.ctl.next, c.ctl.reply, now, cfg))
  {
    match c.ctl.next
    case RequestConsumed => BindWaits(t, c, now, cfg);
    case ResumeTokenLimited(_) => BindWaits(t, c, now, cfg);
    case _ =>
  }

  lemma BindWaits(t: Table, c: Conn, now: int, cfg: Config)
    requires c.ctl.Resumed? && (c.ctl.next.RequestConsumed? || c.ctl.next.ResumeTokenLimited?)
    ensures WaitsAfter(t, c, Resume(t, c, c.ctl.next, c.ctl.reply, now, cfg))
  {
  }

  lemma ResumeWaits(t: Table, c: Conn, now: int, cfg: Config)
    requires c.ctl.Resumed? && Shaped(c.ws, c)
    ensures WaitsAfter(t, c, Resume(t, c, c.ctl.next, c.ctl.reply, now, cfg))
  {
    var o := Resume(t, c, c.ctl.next, c.ctl.reply, now, cfg);
    if o.conn.ctl.Receiving? {
      ListenWaits(t, c, now, cfg);
    } else if Moves(c.ctl.next, c.ctl.reply) {
      MoveWaits(t, c, now, cfg);
    } else {
      ResumeStays(t, c, now, cfg);
      StaysWaits(t, c, o);
    }
  }

  lemma UnwindWaits(t: Table, c: Conn, peerOpen: bool)
    ensures WaitsAfter(t, c, Unwind(t, c, peerOpen))
  {
  }

  lemma SegmentWaits(s: State, a: Action)
    requires Enabled(s, a) && IsSegment(a) && Placed(s.table, s.conns)
    ensures WaitsAfter(s.table, s.conns[a.ws], SegmentOf(s, a))
  {
    var c := s.conns[a.ws];
    assert Shaped(a.ws, c);
    match a
    case Deliver(_, n, m) => EnvelopeWaits(s.table, c, n, m, s.now, s.cfg);
    case Run(_, peerOpen) =>
      if c.ctl.Unwinding? {
        UnwindWaits(s.table, c, peerOpen);
      } else {
        ResumeWaits(s.table, c, s.now, s.cfg);
      }
    case _ =>
  }

  // The waiting agent of `sid` does not time out.
  ghost predicate WaitsAt(t: Table, conns: map<Ws, Conn>, sid: SessionId) {
    sid in t.slots && t.slots[sid].phase == WaitingResume && t.slots[sid].agent.Some?
    && t.slots[sid].agent.value in conns && conns[t.slots[sid].agent.value].ctl.Receiving? ==>
      conns[t.slots[sid].agent.value].ctl.expiry.None?
  }

  lemma SegmentKeepsWaits(t: Table, conns: map<Ws, Conn>, c: Conn, o: Outcome, sid: SessionId)
    requires Placed(t, conns) && c.ws in conns && conns[c.ws] == c && WaitsAt(t, conns, sid)
    requires WaitsAfter(t, c, o) && Keeps(conns, c, o)
    ensures WaitsAt(o.table, conns[c.ws := o.conn], sid)
  {
    assert sid in o.table.slots ==> SlotSeated(conns[c.ws := o.conn], sid, o.table.slots[sid]);
  }

  lemma StepKeepsWaits(s: State, a: Action)
    requires Enabled(s, a) && Placed(s.table, s.conns) && Waits(s)
    ensures Waits(Apply(s, a))
  {
    PlacedIsNamed(s.table, s.conns);
    StepFrame(s, a);
    var s1 := Apply(s, a);
    if IsSegment(a) {
      SegmentWaits(s, a);
      SegmentKeeps(s, a);
    } else {
      StepBirths(s, a);
    }
    forall sid ensures WaitsAt(s1.table, s1.conns, sid) {
      assert WaitsAt(s.table, s.conns, sid);
      if IsSegment(a) {
        SegmentKeepsWaits(s.table, s.conns, s.conns[a.ws], SegmentOf(s, a), sid);
      }
    }
  }

  lemma {:induction false} RunKeepsWaits(s: State, acts: seq<Action>)
    requires Runs(s, acts) && Placed(s.table, s.conns) && Waits(s)
    ensures Waits(After(s, acts)) && Placed(After(s, acts).table, After(s, acts).conns) && After(s, acts).cfg == s.cfg
    decreases |acts|
  {
    if acts != [] {
      StepKeepsPlaced(s, acts[0]);
      StepKeepsWaits(s, acts[0]);
      RunKeepsWaits(Apply(s, acts[0]), acts[1..]);
    }
  }

  // The connection `w` takes no step of its own.
  predicate Silent(acts: seq<Action>, w: Ws) {
    forall i :: 0 <= i < |acts| ==> acts[i].Tick? || acts[i].ws != w
  }

  lemma {:induction false} SilentKeeps(s: State, acts: seq<Action>, w: Ws)
    requires Runs(s, acts) && Silent(acts, w) && Placed(s.table, s.conns) && w in s.conns
    ensures Placed(After(s, acts).table, After(s, acts).conns) && After(s, acts).cfg == s.cfg
    ensures w in After(s, acts).conns && After(s, acts).conns[w] == s.conns[w]
    decreases |acts|
  {
    if acts != [] {
      assert acts[0].Tick? || acts[0].ws != w;
      StepKeepsPlaced(s, acts[0]);
      PlacedIsNamed(s.table, s.conns);
      StepFrame(s, acts[0]);
      assert Silent(acts[1..], w);
      SilentKeeps(Apply(s, acts[0]), acts[1..], w);
    }
  }

  // A bound agent whose deadline and pending timeout, if any, lie at or after `until`.
  ghost predicate Shielded(c: Conn, until: int) {
    && c.role == Agent && c.session.Some? && !InPairInit(c)
    && c.deadline.Some? && until <= c.deadline.value
    && (c.ctl.Receiving? && c.ctl.expiry.Some? ==> until <= c.ctl.expiry.value)
  }

  lemma EnvelopeShields(t: Table, c: Conn, n: nat, m: Message, now: int, cfg: Config, until: int)
    requires c.ctl.Receiving? && Shielded(c, until) && until <= now + cfg.handshakeTimeout
    ensures Shielded(OnEnvelope(t, c, n, m, now, cfg).conn, until)
  {
  }

  lemma ResumeShields(t: Table, c: Conn, now: int, cfg: Config, until: int)
    requires c.ctl.Resumed? && Shaped(c.ws, c) && Shielded(c, until)
    ensures Shielded(Resume(t, c, c.ctl.next, c.ctl.reply, now, cfg).conn, until)
  {
  }

  lemma UnwindShields(t: Table, c: Conn, peerOpen: bool, until: int)
    requires Shielded(c, until)
    ensures Shielded(Unwind(t, c, peerOpen).conn, until)
  {
  }

  lemma StepShields(s: State, a: Action, w: Ws, until: int)
    requires Enabled(s, a) && Placed(s.table, s.conns) && w in s.conns
    requires Shielded(s.conns[w], until) && until <= s.now + s.cfg.handshakeTimeout
    ensures w in Apply(s, a).conns && Shielded(Apply(s, a).conns[w], until)
    ensures until <= Apply(s, a).now + Apply(s, a).cfg.handshakeTimeout
  {
    PlacedIsNamed(s.table, s.conns);
    StepFrame(s, a);
    if !a.Tick? && a.ws == w {
      var c := s.conns[w];
      assert Shaped(w, c);
      match a
      case Deliver(_, n, m) => EnvelopeShields(s.table, c, n, m, s.now, s.cfg, until);
      case Run(_, peerOpen) =>
        if c.ctl.Unwinding? {
          UnwindShields(s.table, c, peerOpen, until);
        } else {
          ResumeShields(s.table, c, s.now, s.cfg, until);
        }
      case _ =>
    }
  }

  lemma {:induction false} ShieldHolds(s: State, acts: seq<Action>, w: Ws, until: int)
    requires Runs(s, acts) && Placed(s.table, s.conns) && w in s.conns
    requires Shielded(s.conns[w], until) && until <= s.now + s.cfg.handshakeTimeout
    ensures w in After(s, acts).conns && Shielded(After(s, acts).conns[w], until)
    decreases |acts|
  {
    if acts != [] {
      StepKeepsPlaced(s, acts[0]);
      StepShields(s, acts[0], w, until);
      ShieldHolds(Apply(s, acts[0]), acts[1..], w, until);
    }
  }

  ghost predicate AcceptedChallenge(s: State, w: Ws, n: nat, m: Message) {
    && w in s.conns && s.conns[w].role == Agent && s.conns[w].session.Some? && n > s.conns[w].lastSeq
    && m.ResumeChallenge? && m.fieldsOk && m.to == s.conns[w].session
    && s.table.Peer(s.conns[w].session.value, Agent).Some?
  }

  /** An agent receiving in `waiting_resume` cannot be timed out before it speaks, whatever others do. */
  lemma {:induction false} WaitingAgentIsNotTimedOut(cfg: Config, start: int, acts: seq<Action>, sid: SessionId, w: Ws,
                                                     wait: seq<Action>)
    requires Runs(Init(cfg, start), acts)
    requires var s := After(Init(cfg, start), acts);
             && sid in s.table.slots && s.table.slots[sid].phase == WaitingResume && s.table.slots[sid].agent == Some(w)
             && w in s.conns && s.conns[w].ctl.Receiving? && Silent(wait, w) && Runs(s, wait)
    ensures var s1 := After(After(Init(cfg, start), acts), wait);
            w in s1.conns && s1.conns[w].ctl == Receiving(None) && !Enabled(s1, Timeout(w))
  {
    RunKeepsWaits(Init(cfg, start), acts);
    var s := After(Init(cfg, start), acts);
    assert WaitsAt(s.table, s.conns, sid);
    SilentKeeps(s, wait, w);
  }

  /** Once it has challenged its client, it is not timed out before the handshake timeout has passed. */
  lemma {:induction false} AgentHasItsWindow(cfg: Config, start: int, acts: seq<Action>, sid: SessionId, w: Ws,
                                             wait: seq<Action>, n: nat, m: Message, rest: seq<Action>)
    requires Runs(Init(cfg, start), acts)
    requires var s := After(Init(cfg, start), acts);
             && sid in s.table.slots && s.table.slots[sid].phase == WaitingResume && s.table.slots[sid].agent == Some(w)
             && w in s.conns && s.conns[w].ctl.Receiving?
             && Silent(wait, w) && Runs(s, wait)
             && var s1 := After(s, wait);
                Enabled(s1, Deliver(w, n, m)) && AcceptedChallenge(s1, w, n, m)
                  && Runs(Apply(s1, Deliver(w, n, m)), rest)
    ensures var s1 := After(After(Init(cfg, start), acts), wait);
            var s2 := After(Apply(s1, Deliver(w, n, m)), rest);
            && !Enabled(s1, Timeout(w))
            && (Enabled(s2, Timeout(w)) ==> s1.now + cfg.handshakeTimeout <= s2.now)
  {
    RunKeepsWaits(Init(cfg, start), acts);
    var s := After(Init(cfg, start), acts);
    assert WaitsAt(s.table, s.conns, sid);
    SilentKeeps(s, wait, w);
    var s1 := After(s, wait);
    assert s1.conns[w].ctl == Receiving(None);
    var s2 := Apply(s1, Deliver(w, n, m));
    StepKeepsPlaced(s1, Deliver(w, n, m));
    ChallengeShields(s1, w, n, m);
    ShieldHolds(s2, rest, w, s1.now + cfg.handshakeTimeout);
  }

  lemma ChallengeShields(s: State, w: Ws, n: nat, m: Message)
    requires Enabled(s, Deliver(w, n, m)) && Placed(s.table, s.conns) && AcceptedChallenge(s, w, n, m)
    ensures var s1 := Apply(s, Deliver(w, n, m));
            w in s1.conns && Shielded(s1.conns[w], s.now + s.cfg.handshakeTimeout) && s1.now == s.now && s1.cfg == s.cfg
  {
    PlacedIsNamed(s.table, s.conns);
    StepFrame(s, Deliver(w, n, m));
  }

  // The connection `w` delivers nothing.
  predicate Unheard(acts: seq<Action>, w: Ws) {
    forall i :: 0 <= i < |acts| ==> !(acts[i].Deliver? && acts[i].ws == w)
  }

  lemma UnheardShields(s: State, a: Action, w: Ws, until: int)
    requires Enabled(s, a) && Placed(s.table, s.conns) && w in s.conns && !(a.Deliver? && a.ws == w)
    requires Shielded(s.conns[w], until)
    ensures w in Apply(s, a).conns && Shielded(Apply(s, a).conns[w], until)
  {
    PlacedIsNamed(s.table, s.conns);
    StepFrame(s, a);
    if !a.Tick? && a.ws == w {
      var c := s.conns[w];
      assert Shaped(w, c);
      if a.Run? && c.ctl.Unwinding? {
        UnwindShields(s.table, c, a.peerOpen, until);
      } else if a.Run? {
        ResumeShields(s.table, c, s.now, s.cfg, until);
      }
    }
  }

  lemma {:induction false} UnheardHolds(s: State, acts: seq<Action>, w: Ws, until: int)
    requires Runs(s, acts) && Placed(s.table, s.conns) && w in s.conns && Unheard(acts, w)
    requires Shielded(s.conns[w], until)
    ensures w in After(s, acts).conns && Shielded(After(s, acts).conns[w], until)
    decreases |acts|
  {
    if acts != [] {
      assert !(acts[0].Deliver? && acts[0].ws == w);
      StepKeepsPlaced(s, acts[0]);
      UnheardShields(s, acts[0], w, until);
      UnheardHolds(Apply(s, acts[0]), acts[1..], w, until);
    }
  }

  // The step makes the agent `w` wait for its `pair_init_ack` to be sent.
  predicate Acknowledges(s: State, a: Action, w: Ws) {
    && a.Run? && a.ws == w && Enabled(s, a) && w in Apply(s, a).conns
    && Apply(s, a).conns[w].ctl.Awaiting? && Apply(s, a).conns[w].ctl.op == Send(w, PairInitAck)
  }

  lemma AcknowledgedIsShielded(s: State, a: Action, w: Ws)
    requires Placed(s.table, s.conns) && Acknowledges(s, a, w)
    ensures Shielded(Apply(s, a).conns[w], s.now + s.cfg.tokenTtl)
  {
    PlacedIsNamed(s.table, s.conns);
    StepFrame(s, a);
    assert Shaped(w, s.conns[w]);
  }

  /** An agent told that its token is issued is not timed out, before it speaks again, for as long as a token lasts. */
  lemma {:induction false} PairingAgentOutlastsItsToken(cfg: Config, start: int, acts: seq<Action>, a: Action, w: Ws,
                                                        rest: seq<Action>)
    requires Runs(Init(cfg, start), acts) && Acknowledges(After(Init(cfg, start), acts), a, w)
    requires Runs(Apply(After(Init(cfg, start), acts), a), rest) && Unheard(rest, w)
    ensures var s := After(Init(cfg, start), acts);
            var s1 := After(Apply(s, a), rest);
            Enabled(s1, Timeout(w)) ==> s.now + s.cfg.tokenTtl <= s1.now
  {
    RunKeepsPlaced(Init(cfg, start), acts);
    var s := After(Init(cfg, start), acts);
    StepKeepsPlaced(s, a);
    AcknowledgedIsShielded(s, a, w);
    UnheardHolds(Apply(s, a), rest, w, s.now + s.cfg.tokenTtl);
  }

  // ----- no timeout comes early

  function Grace(cfg: Config): nat {
    if cfg.handshakeTimeout < cfg.tokenTtl then cfg.handshakeTimeout else cfg.tokenTtl
  }

  // Deadline and pending timeout, if any, lie at or after `until`.
  predicate NotBefore(c: Conn, until: int) {
    && (c.deadline.Some? ==> until <= c.deadline.value)
    && (c.ctl.Receiving? && c.ctl.expiry.Some? ==> until <= c.ctl.expiry.value)
  }

  ghost predicate NoneEarly(s: State) {
    forall w :: w in s.conns ==> w in s.born && s.born[w] <= s.now && NotBefore(s.conns[w], s.born[w] + Grace(s.cfg))
  }

  lemma EnvelopeNotEarly(t: Table, c: Conn, n: nat, m: Message, now: int, cfg: Config, born: int)
    requires c.ctl.Receiving? && born <= now && NotBefore(c, born + Grace(cfg))
    ensures NotBefore(OnEnvelope(t, c, n, m, now, cfg).conn, born + Grace(cfg))
  {
  }

  lemma ResumeNotEarly(t: Table, c: Conn, now: int, cfg: Config, born: int)
    requires c.ctl.Resumed? && born <= now && NotBefore(c, born + Grace(cfg))
    ensures NotBefore(Resume(t, c, c.ctl.next, c.ctl.reply, now, cfg).conn, born + Grace(cfg))
  {
  }

  lemma UnwindNotEarly(t: Table, c: Conn, peerOpen: bool, until: int)
    requires NotBefore(c, until)
    ensures NotBefore(Unwind(t, c, peerOpen).conn, until)
  {
  }

  lemma StepNotEarly(s: State, a: Action)
    requires Enabled(s, a) && Named(s.conns) && NoneEarly(s)
    ensures NoneEarly(Apply(s, a))
  {
    StepFrame(s, a);
    StepBirths(s, a);
    if !a.Tick? && a.ws in s.conns {
      var c, born := s.conns[a.ws], s.born[a.ws];
      match a
      case Deliver(_, n, m) => EnvelopeNotEarly(s.table, c, n, m, s.now, s.cfg, born);
      case Run(_, peerOpen) =>
        if c.ctl.Unwinding? {
          UnwindNotEarly(s.table, c, peerOpen, born + Grace(s.cfg));
        } else {
          ResumeNotEarly(s.table, c, s.now, s.cfg, born);
        }
      case _ =>
    }
  }

  lemma {:induction false} RunNotEarly(s: State, acts: seq<Action>)
    requires Runs(s, acts) && Named(s.conns) && NoneEarly(s)
    ensures NoneEarly(After(s, acts)) && After(s, acts).cfg == s.cfg
    decreases |acts|
  {
    if acts != [] {
      StepFrame(s, acts[0]);
      StepNotEarly(s, acts[0]);
      RunNotEarly(Apply(s, acts[0]), acts[1..]);
    }
  }

  /** Nobody is timed out before the handshake timeout, or a token's life if that is shorter, has passed. */
  lemma {:induction false} NobodyIsTimedOutEarly(cfg: Config, start: int, acts: seq<Action>, w: Ws)
    requires Runs(Init(cfg, start), acts) && Enabled(After(Init(cfg, start), acts), Timeout(w))
    ensures var s := After(Init(cfg, start), acts);
            w in s.born && (s.born[w] + cfg.handshakeTimeout <= s.now || s.born[w] + cfg.tokenTtl <= s.now)
  {
    RunNotEarly(Init(cfg, start), acts);
  }

  // The session the connection is bound to is open for traffic, or waits for a saved device's client.
  predicate MayIdle(t: Table, c: Conn) {
    c.session.Some? && c.session.value in t.slots && t.slots[c.session.value].phase in {Established, WaitingResume}
  }

  /**
   A receive that begins has no timeout exactly when the session may idle; otherwise it lasts until
   the connection's deadline.
   */
  lemma {:induction false} IdleExactly(cfg: Config, start: int, acts: seq<Action>, w: Ws, peerOpen: bool)
    requires Runs(Init(cfg, start), acts) && Enabled(After(Init(cfg, start), acts), Run(w, peerOpen))
    requires var s1 := Apply(After(Init(cfg, start), acts), Run(w, peerOpen));
             w in s1.conns && s1.conns[w].ctl.Receiving?
    ensures var s := After(Init(cfg, start), acts);
            var c := Apply(s, Run(w, peerOpen)).conns[w];
            && (c.ctl.expiry.None? <==> MayIdle(s.table, s.conns[w]))
            && c.deadline == Some(if s.conns[w].deadline.Some? then s.conns[w].deadline.value
                                  else s.now + cfg.handshakeTimeout)
            && (c.ctl.expiry.Some? ==>
                  c.ctl.expiry.value == if c.deadline.value < s.now then s.now else c.deadline.value)
  {
    RunKeepsPlaced(Init(cfg, start), acts);
    RunNotEarly(Init(cfg, start), acts);
    var s := After(Init(cfg, start), acts);
    PlacedIsNamed(s.table, s.conns);
    StepFrame(s, Run(w, peerOpen));
    ListensExactly(s.table, s.conns[w], s.now, s.cfg);
  }

  lemma ListensExactly(t: Table, c: Conn, now: int, cfg: Config)
    requires c.ctl.Resumed? && Resume(t, c, c.ctl.next, c.ctl.reply, now, cfg).conn.ctl.Receiving?
    ensures Resume(t, c, c.ctl.next, c.ctl.reply, now, cfg) == Listen(t, c, now, cfg)
  {
  }
}
