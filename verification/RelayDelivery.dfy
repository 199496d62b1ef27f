/**
 What the relay passes on and when: the log's forwards are sends of the very envelope delivered, every
 awaited relay carries the envelope its connection delivered last, and which envelopes are passed
 on is told by the state before.
 */
module RelayDelivery {
  import opened Prelude
  import opened RoutingTable
  import opened Pairing
  import opened Router
  import opened Relay
  import opened RelayPlacement
  import opened RelayRouting
  import opened RelayTraffic
  import opened RelayAddressing
  import opened RelayScript

  predicate WaitsToSend(s: State, w: Ws, to: Ws, out: Out) {
    w in s.conns && s.conns[w].ctl.Awaiting? && s.conns[w].ctl.op == Send(to, out)
  }

  lemma EnvelopeForwards(t: Table, c: Conn, n: nat, m: Message, now: int, cfg: Config, e: Event)
    requires c.ctl.Receiving? && e in OnEnvelope(t, c, n, m, now, cfg).events && e.Forwarded?
    ensures m.Routable? && e.from == c.ws && e.n == n
    ensures var ctl := OnEnvelope(t, c, n, m, now, cfg).conn.ctl;
            ctl.Awaiting? && ctl.op == Send(e.to, Relayed(n, m))
  {
  }

  /** A forward in the log is a routable envelope just delivered, now on its way to the socket named. */
  lemma {:induction false} ForwardsAreSent(cfg: Config, start: int, acts: seq<Action>, a: Action, e: Event)
    requires Runs(Init(cfg, start), acts) && Enabled(After(Init(cfg, start), acts), a)
    requires e.Forwarded? && e in EventsOfStep(After(Init(cfg, start), acts), a)
    ensures a.Deliver? && a.ws == e.from && a.n == e.n && a.msg.Routable?
    ensures WaitsToSend(Apply(After(Init(cfg, start), acts), a), e.from, e.to, Relayed(e.n, a.msg))
  {
    RunKeepsPlaced(Init(cfg, start), acts);
    var s := After(Init(cfg, start), acts);
    PlacedIsNamed(s.table, s.conns);
    StepFrame(s, a);
    StepExplained(s, a);
    assert Explained(s, a, e);
    EnvelopeForwards(s.table, s.conns[a.ws], a.n, a.msg, s.now, s.cfg, e);
  }

  /** Every awaited relay carries the number and the message that its connection delivered last. */
  lemma {:induction false} RelaysWhatItHeard(cfg: Config, start: int, acts: seq<Action>, w: Ws, to: Ws, n: nat,
                                             m: Message)
    requires Runs(Init(cfg, start), acts) && WaitsToSend(After(Init(cfg, start), acts), w, to, Relayed(n, m))
    ensures PastOf(Init(cfg, start), acts, w, Nothing) == Past(Some(Heard(n, m)), [])
  {
    EveryWaitIsScripted(cfg, start, acts, w);
  }

  // ----- which envelopes are passed on

  // Who sends the kinds of session traffic.
  predicate SentBy(kind: Kind, role: Role) {
    match kind
    case PtyInput => role == Client
    case SessionOpen => role == Client
    case SessionResize => role == Client
    case PortForwardRequest => role == Client
    case PtyData => role == Agent
    case DeviceCredential => role == Agent
    case SessionList => role == Agent
    case IdleAlert => role == Agent
    case SessionClose => true
    case PortForwardData => true
    case PortForwardClose => true
  }

  // Messages meant for the other end, from the right end and well-formed.
  predicate ForThePeer(m: Message, role: Role) {
    match m
    case PairComplete(_, fieldsOk) => role == Agent && fieldsOk
    case ResumeChallenge(_, fieldsOk) => role == Agent && fieldsOk
    case ResumeComplete(_, fieldsOk) => role == Agent && fieldsOk
    case ResumeProof(_, fieldsOk) => role == Client && fieldsOk
    case Routable(kind, _) => SentBy(kind, role)
    case _ => false
  }

  // The session a message names, if it names one.
  function SessionNamed(m: Message): Option<SessionId> {
    match m
    case PairComplete(to, _) => to
    case ResumeChallenge(to, _) => to
    case ResumeComplete(to, _) => to
    case ResumeProof(to, _) => to
    case Routable(_, to) => to
    case _ => None
  }

  // `to` sits at the other end of the session that `c` is bound to and the message names.
  predicate Reaches(t: Table, c: Conn, m: Message, to: Ws) {
    && c.session.Some? && SessionNamed(m) == c.session && c.session.value in t.slots
    && var slot := t.slots[c.session.value];
       && (if c.role == Agent then slot.client == Some(to) else slot.agent == Some(to))
       && (m.Routable? ==> slot.phase == Established)
  }

  lemma EnvelopePasses(t: Table, c: Conn, n: nat, m: Message, now: int, cfg: Config, to: Ws)
    requires c.ctl.Receiving?
    ensures var ctl := OnEnvelope(t, c, n, m, now, cfg).conn.ctl;
            && (ctl.Awaiting? && ctl.op == Send(to, Relayed(n, m))
                <==> n > c.lastSeq && ForThePeer(m, c.role) && Reaches(t, c, m, to))
  {
  }

  /**
   An envelope is passed on to a socket exactly when its number is new, its sender may send it to
   the other end, and that socket sits there; session traffic, once the session is established.
   */
  lemma {:induction false} PassedOnExactly(cfg: Config, start: int, acts: seq<Action>, w: Ws, n: nat, m: Message,
                                           to: Ws)
    requires Runs(Init(cfg, start), acts) && Enabled(After(Init(cfg, start), acts), Deliver(w, n, m))
    ensures var s := After(Init(cfg, start), acts);
            WaitsToSend(Apply(s, Deliver(w, n, m)), w, to, Relayed(n, m))
            <==> n > s.conns[w].lastSeq && ForThePeer(m, s.conns[w].role) && Reaches(s.table, s.conns[w], m, to)
  {
    RunKeepsPlaced(Init(cfg, start), acts);
    var s := After(Init(cfg, start), acts);
    PlacedIsNamed(s.table, s.conns);
    StepFrame(s, Deliver(w, n, m));
    EnvelopePasses(s.table, s.conns[w], n, m, s.now, s.cfg, to);
  }

  lemma EnvelopeLogsForward(t: Table, c: Conn, n: nat, m: Message, now: int, cfg: Config, sid: SessionId, to: Ws)
    requires c.ctl.Receiving?
    ensures Forwarded(sid, c.ws, to, n) in OnEnvelope(t, c, n, m, now, cfg).events
       <==> && n > c.lastSeq && m.Routable? && ForThePeer(m, c.role) && Reaches(t, c, m, to)
            && c.session == Some(sid)
  {
  }

  /** And a forward is logged for exactly the session traffic that is passed on. */
  lemma {:induction false} ForwardedExactly(cfg: Config, start: int, acts: seq<Action>, w: Ws, n: nat, m: Message,
                                            sid: SessionId, to: Ws)
    requires Runs(Init(cfg, start), acts) && Enabled(After(Init(cfg, start), acts), Deliver(w, n, m))
    ensures var s := After(Init(cfg, start), acts);
            Forwarded(sid, w, to, n) in EventsOfStep(s, Deliver(w, n, m))
            <==> && n > s.conns[w].lastSeq && m.Routable? && ForThePeer(m, s.conns[w].role)
                 && Reaches(s.table, s.conns[w], m, to) && s.conns[w].session == Some(sid)
  {
    RunKeepsPlaced(Init(cfg, start), acts);
    var s := After(Init(cfg, start), acts);
    PlacedIsNamed(s.table, s.conns);
    EnvelopeLogsForward(s.table, s.conns[w], n, m, s.now, s.cfg, sid, to);
  }

  // ----- which openings are taken up

  // Unbound, in the right role, well-formed, and for an agent with its seat free: the limiter is asked next.
  predicate Opens(t: Table, c: Conn, m: Message, cfg: Config) {
    && c.session.None?
    && match m
       case PairInit(_, sid, fieldsOk) =>
         && c.role == Agent && fieldsOk
         && (sid in t.slots ==> t.slots[sid].agent.None? || t.slots[sid].agent == Some(c.ws))
       case PairRequest(token, fieldsOk) =>
         c.role == Client && fieldsOk && ValidToken(token, cfg.tokenMin, cfg.tokenMax)
       case ResumeRequest(_, fieldsOk) => c.role == Client && fieldsOk
       case _ => false
  }

  lemma EnvelopeOpens(t: Table, c: Conn, n: nat, m: Message, now: int, cfg: Config)
    requires c.ctl.Receiving?
    ensures var ctl := OnEnvelope(t, c, n, m, now, cfg).conn.ctl;
            ctl.Awaiting? && ctl.op == IpLimit <==> n > c.lastSeq && Opens(t, c, m, cfg)
  {
  }

  /** The address limiter is asked for exactly the requests that the state before allows. */
  lemma {:induction false} OpenedExactly(cfg: Config, start: int, acts: seq<Action>, w: Ws, n: nat, m: Message)
    requires Runs(Init(cfg, start), acts) && Enabled(After(Init(cfg, start), acts), Deliver(w, n, m))
    ensures var s := After(Init(cfg, start), acts);
            var s1 := Apply(s, Deliver(w, n, m));
            (w in s1.conns && s1.conns[w].ctl.Awaiting? && s1.conns[w].ctl.op == IpLimit)
            <==> n > s.conns[w].lastSeq && Opens(s.table, s.conns[w], m, cfg)
  {
    RunStaysOnScript(Init(cfg, start), acts, w, Nothing);
    var s := After(Init(cfg, start), acts);
    PlacedIsNamed(s.table, s.conns);
    StepFrame(s, Deliver(w, n, m));
    EnvelopeOpens(s.table, s.conns[w], n, m, s.now, s.cfg);
  }

  // The session has an agent and its client's seat is free.
  predicate HasRoom(t: Table, sid: SessionId, w: Ws) {
    && sid in t.slots && t.slots[sid].agent.Some?
    && (t.slots[sid].client.None? || t.slots[sid].client == Some(w))
  }

  // What a seated client's request asks for next: its session's record, or its agent to challenge it.
  predicate Proceeds(t: Table, m: Message, sid: SessionId, ctl: Control) {
    ctl.Awaiting? && sid in t.slots && t.slots[sid].agent.Some?
    && ctl.op == if m.ResumeRequest? then Send(t.slots[sid].agent.value, ResumeAsked) else SetRecord(sid)
  }

  lemma ResumeSeatsExactly(t: Table, c: Conn, now: int, cfg: Config, past: Past, sid: SessionId)
    requires c.ctl.Resumed? && Shaped(c.ws, c) && OnScript(cfg, c, past) && c.role == Client && c.session.None?
    ensures var c1 := Resume(t, c, c.ctl.next, c.ctl.reply, now, cfg).conn;
            && (c1.session == Some(sid) <==> EarnedSeat(past, t.devices, sid) && HasRoom(t, sid, c.ws))
            && (c1.session == Some(sid) ==> Proceeds(t, past.heard.value.msg, sid, c1.ctl))
  {
  }

  /** A client goes on to a seat exactly when it earned it, the agent is there, and no other client is. */
  lemma {:induction false} SeatedExactly(cfg: Config, start: int, acts: seq<Action>, w: Ws, peerOpen: bool,
                                         sid: SessionId)
    requires Runs(Init(cfg, start), acts) && Enabled(After(Init(cfg, start), acts), Run(w, peerOpen))
    requires var s := After(Init(cfg, start), acts);
             s.conns[w].ctl.Resumed? && s.conns[w].role == Client && s.conns[w].session.None?
    ensures var s, past := After(Init(cfg, start), acts), PastOf(Init(cfg, start), acts, w, Nothing);
            var s1 := Apply(s, Run(w, peerOpen));
            && w in s1.conns
            && (s1.conns[w].session == Some(sid)
                <==> EarnedSeat(past, s.table.devices, sid) && HasRoom(s.table, sid, w))
            && (s1.conns[w].session == Some(sid) ==>
                  Proceeds(s.table, past.heard.value.msg, sid, s1.conns[w].ctl))
  {
    RunStaysOnScript(Init(cfg, start), acts, w, Nothing);
    var s := After(Init(cfg, start), acts);
    assert Shaped(w, s.conns[w]);
    PlacedIsNamed(s.table, s.conns);
    StepFrame(s, Run(w, peerOpen));
    ResumeSeatsExactly(s.table, s.conns[w], s.now, s.cfg, PastOf(Init(cfg, start), acts, w, Nothing), sid);
  }

  // After five answers a pairing's handler stands before the agent's challenge, which the held slot addresses.
  lemma ChallengeGoesToOwner(t: Table, h: History, c: Conn, now: int, cfg: Config, past: Past)
    requires c.ctl.Resumed? && c.Live() && Shaped(c.ws, c) && OnScript(cfg, c, past)
    requires past.heard.Some? && past.heard.value.msg.PairRequest? && |past.answers| == 5
    requires SlotsOwned(t, h) && HeldOk(t, h, c)
    ensures var c1 := Resume(t, c, c.ctl.next, c.ctl.reply, now, cfg).conn;
            c1.ctl.Awaiting? ==>
              && c1.session.Some? && c1.session.value in h
              && c1.ctl.op == Send(h[c1.session.value].owner, PairChallenge)
  {
    assert c.ctl.next.RequestChallenged?;
    var held := t.SlotByRef(c.ctl.next.sid, c.ctl.next.slot);
    if held.Some? && held.value.agent.Some? {
      assert held.value.agent.value == h[c.ctl.next.sid].owner;
    }
  }

  /** In a fresh run the second challenge of a pairing goes to the agent that claimed the session. */
  lemma {:induction false} ChallengeReachesOwner(cfg: Config, start: int, acts: seq<Action>, w: Ws, peerOpen: bool)
    requires Runs(Init(cfg, start), acts) && FreshRun(Init(cfg, start), acts)
    requires Enabled(After(Init(cfg, start), acts), Run(w, peerOpen))
    requires var s, past := After(Init(cfg, start), acts), PastOf(Init(cfg, start), acts, w, Nothing);
             && s.conns[w].ctl.Resumed? && s.conns[w].Live()
             && past.heard.Some? && past.heard.value.msg.PairRequest? && |past.answers| == 5
    ensures var s := After(Init(cfg, start), acts);
            var c1 := Apply(s, Run(w, peerOpen)).conns[w];
            c1.ctl.Awaiting? ==>
              && c1.session.Some? && c1.session.value in s.hist
              && c1.ctl.op == Send(s.hist[c1.session.value].owner, PairChallenge)
  {
    RunKeepsAddressed(Init(cfg, start), acts);
    RunStaysOnScript(Init(cfg, start), acts, w, Nothing);
    var s := After(Init(cfg, start), acts);
    assert Shaped(w, s.conns[w]);
    assert HeldOk(s.table, s.hist, s.conns[w]);
    PlacedIsNamed(s.table, s.conns);
    StepFrame(s, Run(w, peerOpen));
    GoodOwns(s.table, s.conns, s.store.tokens, s.hist);
    ChallengeGoesToOwner(s.table, s.hist, s.conns[w], s.now, s.cfg, PastOf(Init(cfg, start), acts, w, Nothing));
  }

  // ----- an agent's seat

  // An unbound agent may claim the session it names: nobody else sits there and its device, if it
  // names one, is not filed elsewhere.
  predicate MayClaim(t: Table, c: Conn, m: Message) {
    && c.role == Agent && c.session.None? && (m.PairInit? || m.ResumeInit?) && m.fieldsOk
    && (m.sid in t.slots ==> t.slots[m.sid].agent.None? || t.slots[m.sid].agent == Some(c.ws))
    && (m.ResumeInit? && m.device in t.devices ==> t.devices[m.device] == m.sid)
  }

  // The claim is in the table: the seat, the phase, and the device under which a client finds it.
  predicate Filed(t: Table, c: Conn, m: Message) {
    && (m.PairInit? || m.ResumeInit?) && c.session == Some(m.sid)
    && m.sid in t.slots && t.slots[m.sid].agent == Some(c.ws)
    && t.slots[m.sid].phase == (if m.PairInit? then Phase.Pairing else WaitingResume)
    && (m.ResumeInit? ==> m.device in t.devices && t.devices[m.device] == m.sid)
  }

  lemma EnvelopeClaims(t: Table, c: Conn, n: nat, m: Message, now: int, cfg: Config)
    requires c.ctl.Receiving? && c.session.None?
    ensures var o := OnEnvelope(t, c, n, m, now, cfg);
            && (o.conn.session.Some? <==> n > c.lastSeq && MayClaim(t, c, m))
            && (o.conn.session.Some? ==> Filed(o.table, o.conn, m))
  {
  }

  /** An unbound connection's envelope binds it exactly when it may claim its session, which then is filed. */
  lemma {:induction false} ClaimedExactly(cfg: Config, start: int, acts: seq<Action>, w: Ws, n: nat, m: Message)
    requires Runs(Init(cfg, start), acts) && Enabled(After(Init(cfg, start), acts), Deliver(w, n, m))
    requires After(Init(cfg, start), acts).conns[w].session.None?
    ensures var s := After(Init(cfg, start), acts);
            var s1 := Apply(s, Deliver(w, n, m));
            && w in s1.conns
            && (s1.conns[w].session.Some? <==> n > s.conns[w].lastSeq && MayClaim(s.table, s.conns[w], m))
            && (s1.conns[w].session.Some? ==> Filed(s1.table, s1.conns[w], m))
  {
    RunKeepsPlaced(Init(cfg, start), acts);
    var s := After(Init(cfg, start), acts);
    PlacedIsNamed(s.table, s.conns);
    StepFrame(s, Deliver(w, n, m));
    EnvelopeClaims(s.table, s.conns[w], n, m, s.now, s.cfg);
  }

  // ----- a session opens to traffic

  predicate IsOpen(t: Table, sid: SessionId) {
    sid in t.slots && t.slots[sid].phase == Established
  }

  // The agent of `sid` completes the handshake with the client that sits there.
  predicate CompletesWith(t: Table, c: Conn, n: nat, m: Message, sid: SessionId) {
    && (m.PairComplete? || m.ResumeComplete?) && n > c.lastSeq && ForThePeer(m, c.role)
    && c.session == Some(sid) && SessionNamed(m) == Some(sid) && sid in t.slots && t.slots[sid].client.Some?
  }

  lemma EnvelopeEstablishes(t: Table, c: Conn, n: nat, m: Message, now: int, cfg: Config, sid: SessionId)
    requires c.ctl.Receiving? && !IsOpen(t, sid)
    ensures IsOpen(OnEnvelope(t, c, n, m, now, cfg).table, sid) <==> CompletesWith(t, c, n, m, sid)
  {
    if m.PairInit? || m.ResumeInit? {
      ClaimEstablishesNothing(t, c, n, m, now, cfg, sid);
    }
  }

  lemma ClaimEstablishesNothing(t: Table, c: Conn, n: nat, m: Message, now: int, cfg: Config, sid: SessionId)
    requires c.ctl.Receiving? && !IsOpen(t, sid) && (m.PairInit? || m.ResumeInit?)
    ensures !IsOpen(OnEnvelope(t, c, n, m, now, cfg).table, sid)
  {
  }

  lemma ResumeEstablishesNothing(t: Table, c: Conn, now: int, cfg: Config, sid: SessionId)
    requires c.ctl.Resumed? && !IsOpen(t, sid)
    ensures !IsOpen(Resume(t, c, c.ctl.next, c.ctl.reply, now, cfg).table, sid)
  {
  }

  lemma UnwindEstablishesNothing(t: Table, c: Conn, peerOpen: bool, sid: SessionId)
    requires !IsOpen(t, sid)
    ensures !IsOpen(Unwind(t, c, peerOpen).table, sid)
  {
  }

  /** A session opens to traffic exactly when its agent delivers a completion with its client seated. */
  lemma {:induction false} OpensOnlyByCompletion(cfg: Config, start: int, acts: seq<Action>, a: Action, sid: SessionId)
    requires Runs(Init(cfg, start), acts) && Enabled(After(Init(cfg, start), acts), a)
    requires !IsOpen(After(Init(cfg, start), acts).table, sid)
    ensures var s := After(Init(cfg, start), acts);
            IsOpen(Apply(s, a).table, sid) <==> a.Deliver? && CompletesWith(s.table, s.conns[a.ws], a.n, a.msg, sid)
  {
    RunKeepsPlaced(Init(cfg, start), acts);
    var s := After(Init(cfg, start), acts);
    PlacedIsNamed(s.table, s.conns);
    StepFrame(s, a);
    if a.Deliver? {
      EnvelopeEstablishes(s.table, s.conns[a.ws], a.n, a.msg, s.now, s.cfg, sid);
    } else if a.Run? && s.conns[a.ws].ctl.Unwinding? {
      UnwindEstablishesNothing(s.table, s.conns[a.ws], a.peerOpen, sid);
    } else if a.Run? {
      ResumeEstablishesNothing(s.table, s.conns[a.ws], s.now, s.cfg, sid);
    }
  }

  // ----- parting

  // Who sits at the other end of the session of `c`.
  predicate OtherSeat(t: Table, c: Conn, to: Ws) {
    && c.session.Some? && c.session.value in t.slots
    && var slot := t.slots[c.session.value];
       if c.role == Agent then slot.client == Some(to) else slot.agent == Some(to)
  }

  /** When a connection ends, its peer is told exactly if it sits there with its socket open. */
  lemma {:induction false} PeerIsToldExactly(cfg: Config, start: int, acts: seq<Action>, w: Ws, peerOpen: bool, to: Ws)
    requires Runs(Init(cfg, start), acts) && Enabled(After(Init(cfg, start), acts), Run(w, peerOpen))
    requires After(Init(cfg, start), acts).conns[w].ctl.Unwinding?
    ensures var s := After(Init(cfg, start), acts);
            WaitsToSend(Apply(s, Run(w, peerOpen)), w, to, PeerGone)
            <==> OtherSeat(s.table, s.conns[w], to) && peerOpen
  {
    RunKeepsPlaced(Init(cfg, start), acts);
    var s := After(Init(cfg, start), acts);
    PlacedIsNamed(s.table, s.conns);
    StepFrame(s, Run(w, peerOpen));
  }

  // Nothing in the table leads to the session.
  predicate Vanished(t: Table, sid: SessionId) {
    sid !in t.slots && forall d :: d in t.devices ==> t.devices[d] != sid
  }

  /** Whoever comes to delete a session's record has just taken the session out of the table. */
  lemma {:induction false} DeletionFollowsTeardown(cfg: Config, start: int, acts: seq<Action>, a: Action, w: Ws,
                                                   sid: SessionId)
    requires Runs(Init(cfg, start), acts) && Enabled(After(Init(cfg, start), acts), a)
    requires IsSegment(a) && a.ws == w
    requires var s1 := Apply(After(Init(cfg, start), acts), a);
             w in s1.conns && s1.conns[w].ctl.Awaiting? && s1.conns[w].ctl.op == DeleteRecord(sid)
    ensures Vanished(Apply(After(Init(cfg, start), acts), a).table, sid)
  {
    RunKeepsPlaced(Init(cfg, start), acts);
    var s := After(Init(cfg, start), acts);
    PlacedIsNamed(s.table, s.conns);
    StepFrame(s, a);
    SegmentVanishes(s, a, sid);
  }

  lemma SegmentVanishes(s: State, a: Action, sid: SessionId)
    requires Enabled(s, a) && IsSegment(a)
    requires SegmentOf(s, a).conn.ctl.Awaiting? && SegmentOf(s, a).conn.ctl.op == DeleteRecord(sid)
    ensures Vanished(SegmentOf(s, a).table, sid)
  {
  }
}
