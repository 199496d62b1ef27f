/**
 What every interleaving keeps, whatever session ids the agents choose: a socket in the routing
 table belongs to a live connection of that role bound to that session, so it sits in one place.
 */
module RelayPlacement {
  import opened Prelude
  import opened RoutingTable
  import opened Pairing
  import opened Router
  import opened Relay

  // The local variables of a suspended handler agree with its context.
  ghost predicate ContFits(c: Conn, k: Cont) {
    match k
    case Loop => true
    case InitLimited(sid, _) => c.role == Agent && c.session == Some(sid)
    case InitIssued(sid, _) => c.role == Agent && c.session == Some(sid)
    case InitRecorded(sid, _) => c.role == Agent && c.session == Some(sid)
    case InitExpiring(sid, _) => c.role == Agent && c.session == Some(sid)
    case InitUndone(sid) => c.role == Agent && c.session == Some(sid)
    case RequestLimited(_) => c.role == Client && c.session == None
    case RequestTokenLimited(_) => c.role == Client && c.session == None
    case RequestConsumed => c.role == Client && c.session == None
    case RequestRecorded(sid, _) => c.role == Client && c.session == Some(sid)
    case RequestChallenged(sid, _) => c.role == Client && c.session == Some(sid)
    case CompleteSent(sid) => c.role == Agent && c.session == Some(sid)
    case CompleteMarked(sid) => c.role == Agent && c.session == Some(sid)
    case ResumeLimited(_) => c.role == Client && c.session == None
    case ResumeTokenLimited(_) => c.role == Client && c.session == None
    case CloseRouted(sid) => c.session == Some(sid)
    case Notified(sid) => c.session == Some(sid)
    case Finishing => c.session.Some?
  }

  // What a handler can be waiting for before it goes on at `k`.
  ghost predicate OpFits(c: Conn, op: Op, k: Cont) {
    match k
    case Loop => op.Send?
      || (c.session.Some? && (op == PersistRecord(c.session.value) || op == DeleteRecord(c.session.value)))
    case InitLimited(_, _) => op == IpLimit
    case InitIssued(sid, token) => op == IssueToken(token, sid)
    case InitRecorded(sid, _) => op == SetRecord(sid)
    case InitExpiring(sid, _) => op == ExpireRecord(sid)
    case InitUndone(_) => op.DropToken?
    case RequestLimited(_) => op == IpLimit
    case RequestTokenLimited(_) => op.TokenLimit?
    case RequestConsumed => op.ConsumeToken?
    case RequestRecorded(sid, _) => op == SetRecord(sid)
    case RequestChallenged(_, _) => op.Send?
    case CompleteSent(_) => op.Send?
    case CompleteMarked(sid) => op == SetRecord(sid)
    case ResumeLimited(_) => op == IpLimit
    case ResumeTokenLimited(_) => op.TokenLimit?
    case CloseRouted(_) => op.Send?
    case Notified(_) => op.Send?
    case Finishing => c.session.Some? && op == DeleteRecord(c.session.value)
  }

  ghost predicate Shaped(w: Ws, c: Conn) {
    c.ws == w &&
    match c.ctl
    case Awaiting(op, k) => ContFits(c, k) && OpFits(c, op, k)
    case Resumed(k, _) => ContFits(c, k)
    case Finished => true
    case _ => true
  }

  ghost predicate Seated(conns: map<Ws, Conn>, sid: SessionId, role: Role, w: Ws) {
    w in conns && conns[w].role == role && conns[w].session == Some(sid) && conns[w].Live()
  }

  ghost predicate SlotSeated(conns: map<Ws, Conn>, sid: SessionId, slot: Slot) {
    (slot.agent.Some? ==> Seated(conns, sid, Agent, slot.agent.value)) &&
    (slot.client.Some? ==> Seated(conns, sid, Client, slot.client.value))
  }

  ghost predicate Placed(t: Table, conns: map<Ws, Conn>) {
    (forall w :: w in conns ==> Shaped(w, conns[w])) &&
    (forall sid :: sid in t.slots ==> SlotSeated(conns, sid, t.slots[sid]))
  }

  // `o`, a segment of the connection `c`, leaves its binding and every seat alone.
  ghost predicate Stays(t: Table, c: Conn, o: Outcome) {
    && o.conn.role == c.role && o.conn.session == c.session && Shaped(c.ws, o.conn)
    && (c.Live() ==> o.conn.Live())
    && (o.table == t || (c.session.Some? && o.table == t.SetPhase(c.session.value, Established)))
  }

  ghost predicate ClaimsSession(c: Conn, n: nat, m: Message) {
    n > c.lastSeq && c.role == Agent && c.session.None? && (m.PairInit? || m.ResumeInit?) && m.fieldsOk
  }

  // Segments that may seat, unseat or bind.
  ghost predicate Moves(k: Cont, reply: Reply) {
    match k
    case InitLimited(_, _) => true
    case InitIssued(_, _) => reply == Failed || reply == Duplicate
    case InitUndone(_) => true
    case RequestConsumed => true
    case ResumeTokenLimited(_) => true
    case CloseRouted(_) => reply != Failed
    case Notified(_) => true
    case Finishing => true
    case _ => false
  }

  lemma CompleteStays(t: Table, c: Conn, n: nat, m: Message, sid: SessionId, next: Cont)
    requires c.session == Some(sid) && c.ctl.Receiving? && Shaped(c.ws, c)
    requires (next == Loop || next == CompleteSent(sid))
    requires c.role == Agent
    ensures Stays(t, c, Complete(t, c, n, m, sid, next))
  {
  }

  lemma EnvelopeStays(t: Table, c: Conn, n: nat, m: Message, now: int, cfg: Config)
    requires Shaped(c.ws, c) && c.ctl.Receiving? && !ClaimsSession(c, n, m)
    ensures Stays(t, c, OnEnvelope(t, c, n, m, now, cfg))
  {
    if n > c.lastSeq {
      var c1 := c.(lastSeq := n);
      if c.role == Agent && c.session.Some? && (m.PairComplete? || m.ResumeComplete?) {
        CompleteStays(t, c1, n, m, c.session.value, if m.PairComplete? then CompleteSent(c.session.value) else Loop);
      }
    }
  }

  lemma ResumeStays(t: Table, c: Conn, now: int, cfg: Config)
    requires Shaped(c.ws, c) && c.ctl.Resumed? && !Moves(c.ctl.next, c.ctl.reply)
    ensures Stays(t, c, Resume(t, c, c.ctl.next, c.ctl.reply, now, cfg))
  {
  }

  ghost predicate Keeps(conns: map<Ws, Conn>, c: Conn, o: Outcome) {
    o.conn.ws == c.ws && o.conn.role == c.role && Placed(o.table, conns[c.ws := o.conn])
  }

  lemma StaysKeeps(t: Table, conns: map<Ws, Conn>, c: Conn, o: Outcome)
    requires Placed(t, conns) && c.ws in conns && conns[c.ws] == c && Stays(t, c, o)
    ensures Keeps(conns, c, o)
  {
  }

  lemma PairInitKeeps(t: Table, conns: map<Ws, Conn>, c: Conn, m: Message)
    requires Placed(t, conns) && c.ws in conns && conns[c.ws].(ctl := c.ctl, lastSeq := c.lastSeq) == c
    requires c.ctl.Receiving?
    requires m.PairInit?
    ensures Keeps(conns, c, OnPairInit(t, c, m))
  {
  }

  lemma ResumeInitKeeps(t: Table, conns: map<Ws, Conn>, c: Conn, m: Message)
    requires Placed(t, conns) && c.ws in conns && conns[c.ws].(ctl := c.ctl, lastSeq := c.lastSeq) == c
    requires c.ctl.Receiving?
    requires m.ResumeInit?
    ensures Keeps(conns, c, OnResumeInit(t, c, m))
  {
  }

  lemma EnvelopeKeeps(t: Table, conns: map<Ws, Conn>, c: Conn, n: nat, m: Message, now: int, cfg: Config)
    requires Placed(t, conns) && c.ws in conns && conns[c.ws] == c && c.ctl.Receiving?
    ensures Keeps(conns, c, OnEnvelope(t, c, n, m, now, cfg))
  {
    if ClaimsSession(c, n, m) {
      var c1 := c.(lastSeq := n);
      if m.PairInit? {
        PairInitKeeps(t, conns, c1, m);
      } else {
        ResumeInitKeeps(t, conns, c1, m);
      }
    } else {
      EnvelopeStays(t, c, n, m, now, cfg);
      StaysKeeps(t, conns, c, OnEnvelope(t, c, n, m, now, cfg));
    }
  }

  lemma UndoInitKeeps(t: Table, conns: map<Ws, Conn>, c: Conn, sid: SessionId)
    requires Placed(t, conns) && c.ws in conns && conns[c.ws] == c && c.role == Agent && c.session == Some(sid)
    ensures var (t1, c1) := UndoInit(t, c, sid); Keeps(conns, c, Raise(t1, c1)) && Keeps(conns, c, Refuse(t1, c1))
  {
  }

  lemma BindClientKeeps(t: Table, conns: map<Ws, Conn>, c: Conn, now: int, cfg: Config)
    requires Placed(t, conns) && c.ws in conns && conns[c.ws] == c && c.ctl.Resumed?
    requires c.ctl.next.RequestConsumed? || c.ctl.next.ResumeTokenLimited?
    ensures Keeps(conns, c, Resume(t, c, c.ctl.next, c.ctl.reply, now, cfg))
  {
  }

  lemma TeardownKeeps(t: Table, conns: map<Ws, Conn>, c: Conn, sid: SessionId, k: Cont)
    requires Placed(t, conns) && c.ws in conns && conns[c.ws] == c && c.session == Some(sid)
    requires k == Loop || (k == Finishing && !c.Live())
    ensures Keeps(conns, c, Teardown(t, c, sid, k))
  {
  }

  lemma ResumeKeeps(t: Table, conns: map<Ws, Conn>, c: Conn, now: int, cfg: Config)
    requires Placed(t, conns) && c.ws in conns && conns[c.ws] == c && c.ctl.Resumed?
    ensures Keeps(conns, c, Resume(t, c, c.ctl.next, c.ctl.reply, now, cfg))
  {
    var k := c.ctl.next;
    if !Moves(k, c.ctl.reply) || (k.InitLimited? && Stays(t, c, Resume(t, c, k, c.ctl.reply, now, cfg))) {
      if !Moves(k, c.ctl.reply) {
        ResumeStays(t, c, now, cfg);
      }
      StaysKeeps(t, conns, c, Resume(t, c, k, c.ctl.reply, now, cfg));
    } else if k.InitLimited? || k.InitIssued? || k.InitUndone? {
      UndoInitKeeps(t, conns, c, k.sid);
    } else if k.RequestConsumed? || k.ResumeTokenLimited? {
      BindClientKeeps(t, conns, c, now, cfg);
    } else if k.CloseRouted? {
      TeardownKeeps(t, conns, c, k.sid, Loop);
    } else if k.Notified? {
      TeardownKeeps(t, conns, c, k.sid, Finishing);
    }
  }

  lemma UnwindKeeps(t: Table, conns: map<Ws, Conn>, c: Conn, peerOpen: bool)
    requires Placed(t, conns) && c.ws in conns && conns[c.ws] == c && c.ctl.Unwinding?
    ensures Keeps(conns, c, Unwind(t, c, peerOpen))
  {
  }

  // ----- what one step leaves alone

  // A segment stays with its socket and role, and never lowers the sequence number.
  ghost predicate SameSocket(c: Conn, o: Outcome) {
    o.conn.ws == c.ws && o.conn.role == c.role && o.conn.lastSeq >= c.lastSeq && |o.events| <= 1
  }

  lemma EnvelopeSocket(t: Table, c: Conn, n: nat, m: Message, now: int, cfg: Config)
    ensures SameSocket(c, OnEnvelope(t, c, n, m, now, cfg))
    ensures n > c.lastSeq ==> OnEnvelope(t, c, n, m, now, cfg).conn.lastSeq == n
  {
  }

  lemma ResumeSocket(t: Table, c: Conn, k: Cont, reply: Reply, now: int, cfg: Config)
    ensures SameSocket(c, Resume(t, c, k, reply, now, cfg))
  {
  }

  lemma UnwindSocket(t: Table, c: Conn, peerOpen: bool)
    ensures SameSocket(c, Unwind(t, c, peerOpen))
  {
  }

  // The segment that a step runs, if it runs one.
  function SegmentOf(s: State, a: Action): Outcome
    requires Enabled(s, a) && IsSegment(a)
  {
    var c := s.conns[a.ws];
    match a
    case Deliver(_, n, m) => OnEnvelope(s.table, c, n, m, s.now, s.cfg)
    case Run(_, peerOpen) =>
      if c.ctl.Unwinding? then Unwind(s.table, c, peerOpen)
        else Resume(s.table, c, c.ctl.next, c.ctl.reply, s.now, s.cfg)
    case _ => Raise(s.table, c)
  }

  predicate IsSegment(a: Action) {
    !a.Connect? && !a.Effect? && !a.Tick?
  }

  lemma StepIsCommit(s: State, a: Action)
    requires Enabled(s, a) && IsSegment(a)
    ensures Apply(s, a) == Commit(s, SegmentOf(s, a))
  {
  }

  lemma SegmentSocket(s: State, a: Action)
    requires Enabled(s, a) && IsSegment(a)
    ensures SameSocket(s.conns[a.ws], SegmentOf(s, a))
    ensures a.Deliver? && a.n > s.conns[a.ws].lastSeq ==> SegmentOf(s, a).conn.lastSeq == a.n
  {
    var c := s.conns[a.ws];
    match a
    case Deliver(_, n, m) => EnvelopeSocket(s.table, c, n, m, s.now, s.cfg);
    case Run(_, peerOpen) =>
      if c.ctl.Unwinding? {
        UnwindSocket(s.table, c, peerOpen);
      } else {
        ResumeSocket(s.table, c, c.ctl.next, c.ctl.reply, s.now, s.cfg);
      }
    case _ =>
  }

  ghost predicate Named(conns: map<Ws, Conn>) {
    forall w :: w in conns ==> conns[w].ws == w
  }

  // Only the acting connection changes; time and configuration stay unless the clock ticks.
  lemma StepFrame(s: State, a: Action)
    requires Enabled(s, a) && Named(s.conns)
    ensures Named(Apply(s, a).conns) && Apply(s, a).cfg == s.cfg
    ensures a.Tick? ==> Apply(s, a) == s.(now := a.now)
    ensures !a.Tick? ==> Apply(s, a).now == s.now && a.ws in Apply(s, a).conns
    ensures !a.Tick? ==> Apply(s, a).conns == s.conns[a.ws := Apply(s, a).conns[a.ws]]
    ensures IsSegment(a) ==>
              && Apply(s, a).conns[a.ws] == SegmentOf(s, a).conn && Apply(s, a).table == SegmentOf(s, a).table
              && Apply(s, a).store == s.store
    ensures !IsSegment(a) ==> Apply(s, a).table == s.table
  {
    if IsSegment(a) {
      StepIsCommit(s, a);
      SegmentSocket(s, a);
    }
  }

  lemma SegmentKeeps(s: State, a: Action)
    requires Enabled(s, a) && IsSegment(a) && Placed(s.table, s.conns)
    ensures Keeps(s.conns, s.conns[a.ws], SegmentOf(s, a))
  {
    var c := s.conns[a.ws];
    assert Shaped(a.ws, c);
    match a
    case Deliver(_, n, m) => EnvelopeKeeps(s.table, s.conns, c, n, m, s.now, s.cfg);
    case Run(_, peerOpen) =>
      if c.ctl.Unwinding? {
        UnwindKeeps(s.table, s.conns, c, peerOpen);
      } else {
        ResumeKeeps(s.table, s.conns, c, s.now, s.cfg);
      }
    case _ => StaysKeeps(s.table, s.conns, c, Raise(s.table, c));
  }

  lemma PlacedIsNamed(t: Table, conns: map<Ws, Conn>)
    requires Placed(t, conns)
    ensures Named(conns)
  {
    assert forall w :: w in conns ==> Shaped(w, conns[w]);
  }

  lemma OtherKeepsPlaced(s: State, a: Action)
    requires Enabled(s, a) && !IsSegment(a) && Placed(s.table, s.conns)
    ensures Placed(Apply(s, a).table, Apply(s, a).conns)
  {
    if a.Effect? {
      var c := s.conns[a.ws];
      assert Shaped(a.ws, c);
      var c1 := c.(ctl := Resumed(c.ctl.next, ReplyTo(s, c.ctl.op, a.fault)));
      StaysKeeps(s.table, s.conns, c, Outcome(s.table, c1, []));
    }
  }

  lemma {:induction false} StepKeepsPlaced(s: State, a: Action)
    requires Enabled(s, a) && Placed(s.table, s.conns)
    ensures Placed(Apply(s, a).table, Apply(s, a).conns)
  {
    PlacedIsNamed(s.table, s.conns);
    StepFrame(s, a);
    if IsSegment(a) {
      SegmentKeeps(s, a);
    } else {
      OtherKeepsPlaced(s, a);
    }
  }

  lemma {:induction false} RunKeepsPlaced(s: State, acts: seq<Action>)
    requires Runs(s, acts) && Placed(s.table, s.conns)
    ensures Placed(After(s, acts).table, After(s, acts).conns)
    decreases |acts|
  {
    if acts != [] {
      StepKeepsPlaced(s, acts[0]);
      RunKeepsPlaced(Apply(s, acts[0]), acts[1..]);
    }
  }

  /** In every reachable state a socket has at most one seat, held by the live connection bound there. */
  lemma {:induction false} OneSeatPerSocket(cfg: Config, start: int, acts: seq<Action>, sid: SessionId, role: Role)
    requires Runs(Init(cfg, start), acts)
    ensures var s := After(Init(cfg, start), acts);
            sid in s.table.slots && s.table.slots[sid].Get(role).Some? ==>
              var w := s.table.slots[sid].Get(role).value;
              && Seated(s.conns, sid, role, w)
              && forall sid', role' ::
                   sid' in s.table.slots && s.table.slots[sid'].Get(role') == Some(w) ==> sid' == sid && role' == role
  {
    var s := After(Init(cfg, start), acts);
    RunKeepsPlaced(Init(cfg, start), acts);
    if sid in s.table.slots && s.table.slots[sid].Get(role).Some? {
      var w := s.table.slots[sid].Get(role).value;
      forall sid', role' | sid' in s.table.slots && s.table.slots[sid'].Get(role') == Some(w)
        ensures sid' == sid && role' == role
      {
        assert SlotSeated(s.conns, sid', s.table.slots[sid']);
        assert SlotSeated(s.conns, sid, s.table.slots[sid]);
      }
    }
  }
}
