/**
 The handlers themselves, working on the connection's context and the registry object. Each method
 is one segment between two awaits: it updates the fields in place and returns what the coroutine
 awaits next, and is proved to do exactly what the function of the same segment in `Router` says.
 */
module RelayHandlers {
  import opened Prelude
  import opened RoutingTable
  import opened SessionRegistry
  import opened Pairing
  import opened Router

  class ConnectionContext {
    const ws: Ws
    const role: Role
    var sessionId: Option<SessionId>
    var lastSeq: nat
    var deadline: Option<int>

    constructor (ws: Ws, role: Role)
      ensures View(Resumed(Loop, Ok)) == Conn(ws, role, None, 0, None, Resumed(Loop, Ok))
    {
      this.ws, this.role := ws, role;
      sessionId, lastSeq, deadline := None, 0, None;
    }

    // The connection as a value, standing at `ctl`.
    ghost function View(ctl: Control): Conn
      reads this
    {
      Conn(ws, role, sessionId, lastSeq, deadline, ctl)
    }
  }

  // What a segment leaves: the registry, the context and the next await, with the events it caused.
  ghost function Left(registry: SessionRegistry, ctx: ConnectionContext, next: Control, events: seq<Event>): Outcome
    reads registry, ctx
  {
    Outcome(registry.View, ctx.View(next), events)
  }

  method SendError(ctx: ConnectionContext) returns (next: Control)
    ensures next == Awaiting(Send(ctx.ws, Error), Loop)
  {
    next := Awaiting(Send(ctx.ws, Error), Loop);
  }

  // `attach` as the agent of a session, and its phase.
  method SeatAgent(registry: SessionRegistry, sid: SessionId, ws: Ws, phase: Phase) returns (ok: bool)
    requires registry.Valid()
    modifies registry, registry.Repr
    ensures registry.Valid() && fresh(registry.Repr - old(registry.Repr))
    ensures ok == !old(registry.View).Conflicts(sid, Agent, ws)
    ensures registry.View == if ok then old(registry.View).Attach(sid, Agent, ws).SetPhase(sid, phase)
            else old(registry.View)
  {
    var slot;
    slot, ok := registry.Attach(sid, Agent, ws);
    if ok {
      registry.SetPhase(slot, phase);
    }
  }

  method HandlePairInit(ctx: ConnectionContext, registry: SessionRegistry, m: Message)
    returns (next: Control, ghost events: seq<Event>)
    requires registry.Valid() && m.PairInit?
    modifies ctx, registry, registry.Repr
    ensures registry.Valid() && fresh(registry.Repr - old(registry.Repr))
    ensures Left(registry, ctx, next, events) == OnPairInit(old(registry.View), old(ctx.View(Unwinding)), m)
  {
    events := [];
    if ctx.role != Agent || ctx.sessionId.Some? || !m.fieldsOk {
      next := SendError(ctx);
      return;
    }
    events := [Claimed(m.sid, ctx.ws, None)];
    var ok := SeatAgent(registry, m.sid, ctx.ws, Pairing);
    if !ok {
      next := SendError(ctx);
      return;
    }
    ctx.sessionId := Some(m.sid);
    next := Awaiting(IpLimit, InitLimited(m.sid, m.token));
  }

  method UndoPairInit(ctx: ConnectionContext, registry: SessionRegistry, sid: SessionId)
    requires registry.Valid()
    modifies ctx, registry`sessions, registry`View, registry.Repr`agent, registry.Repr`client
    ensures registry.Valid()
    ensures forall ctl :: (registry.View, ctx.View(ctl)) == UndoInit(old(registry.View), old(ctx.View(ctl)), sid)
  {
    registry.Detach(sid, Agent);
    ctx.sessionId := None;
  }

  // `registry.get(session_id)` with its agent present.
  method FindAgent(registry: SessionRegistry, sid: SessionId) returns (agent: Option<Ws>)
    requires registry.Valid()
    ensures agent == registry.View.Peer(sid, Client)
  {
    if sid !in registry.sessions {
      return None;
    }
    agent := registry.sessions[sid].agent;
  }

  // `attach` as the client of an existing slot, and the binding of the context that follows it.
  method SeatClient(ctx: ConnectionContext, registry: SessionRegistry, sid: SessionId, now: int, cfg: Config)
    returns (slot: SessionSlot, ok: bool)
    requires registry.Valid() && sid in registry.View.slots
    modifies ctx, registry, registry.Repr
    ensures registry.Valid() && fresh(registry.Repr - old(registry.Repr))
    ensures ok == !old(registry.View).Conflicts(sid, Client, ctx.ws)
    ensures registry.View == old(registry.View).Attach(sid, Client, ctx.ws)
    ensures slot in registry.Repr && slot.sid == sid && sid in registry.sessions && registry.sessions[sid] == slot
    ensures slot.ref == old(registry.View).slots[sid].ref
    ensures forall ctl :: ctx.View(ctl) ==
              if ok then old(ctx.View(ctl)).(session := Some(sid), deadline := Some(now + cfg.handshakeTimeout))
                else old(ctx.View(ctl))
  {
    slot, ok := registry.Attach(sid, Client, ctx.ws);
    assert registry.Filed(sid);
    if ok {
      ctx.sessionId := Some(sid);
      ctx.deadline := Some(now + cfg.handshakeTimeout);
    }
  }

  // The slot lookup and the attach together; no slot means that the client is refused.
  method FindSeat(ctx: ConnectionContext, registry: SessionRegistry, sid: SessionId, now: int, cfg: Config)
    returns (agent: Option<Ws>, slot: SessionSlot?)
    requires registry.Valid()
    modifies ctx, registry, registry.Repr
    ensures registry.Valid() && fresh(registry.Repr - old(registry.Repr))
    ensures agent == old(registry.View).Peer(sid, Client)
    ensures slot != null <==> agent.Some? && !old(registry.View).Conflicts(sid, Client, ctx.ws)
    ensures registry.View == if slot != null then old(registry.View).Attach(sid, Client, ctx.ws) else old(registry.View)
    ensures slot != null ==> slot in registry.Repr && slot.sid == sid
    ensures slot != null ==> sid in registry.sessions && registry.sessions[sid] == slot
    ensures slot != null ==> slot.ref == old(registry.View).slots[sid].ref
    ensures forall ctl :: ctx.View(ctl) ==
              if slot != null then old(ctx.View(ctl)).(session := Some(sid),
                                                       deadline := Some(now + cfg.handshakeTimeout))
                                                         else old(ctx.View(ctl))
  {
    slot := null;
    agent := FindAgent(registry, sid);
    if agent.Some? {
      var seat, ok := SeatClient(ctx, registry, sid, now, cfg);
      slot := if ok then seat else null;
    }
  }

  // pair_request, once the token is consumed.
  method BindClient(ctx: ConnectionContext, registry: SessionRegistry, reply: Reply, now: int, cfg: Config)
    returns (next: Control, slot: SessionSlot?, ghost events: seq<Event>)
    requires registry.Valid()
    modifies ctx, registry, registry.Repr
    ensures registry.Valid() && fresh(registry.Repr - old(registry.Repr))
    ensures Left(registry, ctx, next, events) == AfterRequestConsumed(old(registry.View), old(ctx.View(Unwinding)),
        reply, now, cfg)
    ensures slot != null <==> events != []
    ensures slot != null ==> slot in registry.Repr
    ensures slot != null ==> next == Awaiting(SetRecord(slot.sid), RequestRecorded(slot.sid, slot.ref))
  {
    events, slot := [], null;
    if reply == Failed {
      next := Unwinding;
      return;
    }
    if !reply.Granted? {
      next := SendError(ctx);
      return;
    }
    next, slot, events := SeatAtSession(ctx, registry, reply.sid, reply.serial, now, cfg);
  }

  method SeatAtSession(ctx: ConnectionContext, registry: SessionRegistry, sid: SessionId, ghost serial: nat, now: int,
                       cfg: Config)
    returns (next: Control, slot: SessionSlot?, ghost events: seq<Event>)
    requires registry.Valid()
    modifies ctx, registry, registry.Repr
    ensures registry.Valid() && fresh(registry.Repr - old(registry.Repr))
    ensures Left(registry, ctx, next, events) == AfterRequestConsumed(old(registry.View), old(ctx.View(Unwinding)),
        Granted(sid, serial), now, cfg)
    ensures slot != null <==> events != []
    ensures slot != null ==> slot in registry.Repr
    ensures slot != null ==> next == Awaiting(SetRecord(slot.sid), RequestRecorded(slot.sid, slot.ref))
  {
    var agent;
    events := [];
    agent, slot := FindSeat(ctx, registry, sid, now, cfg);
    if slot == null {
      next := SendError(ctx);
      return;
    }
    next := Awaiting(SetRecord(sid), RequestRecorded(sid, slot.ref));
    events := [Bound(sid, serial, agent.value, ctx.ws)];
  }

  // pair_request, before its second challenge: the slot object fetched earlier is read again.
  method NotifyAgent(ctx: ConnectionContext, registry: SessionRegistry, slot: SessionSlot, sid: SessionId, reply: Reply)
    returns (next: Control)
    requires registry.Valid() && slot in registry.Repr && slot.sid == sid
    ensures Left(registry, ctx, next, []) == AfterRequestChallenged(registry.View, ctx.View(Unwinding), sid, slot.ref,
        reply)
  {
    assert registry.Kept(slot);
    assert sid in registry.sessions ==> registry.Filed(sid);
    if reply == Failed || slot.agent.None? {
      next := Unwinding;
    } else {
      next := Awaiting(Send(slot.agent.value, PairChallenge), Loop);
    }
  }

  // The common tail of pair_complete and resume_complete: with a peer present, open the session.
  method OpenSession(registry: SessionRegistry, sid: SessionId, role: Role) returns (peer: Option<Ws>)
    requires registry.Valid()
    modifies registry`View, registry.Repr`phase
    ensures registry.Valid()
    ensures peer == old(registry.View).Peer(sid, role)
    ensures registry.View == if peer.Some? then old(registry.View).SetPhase(sid, Established) else old(registry.View)
  {
    peer := registry.GetPeer(sid, role);
    if peer.Some? && sid in registry.sessions {
      assert registry.Filed(sid);
      registry.SetPhase(registry.sessions[sid], Established);
    }
  }

  method HandlePairComplete(ctx: ConnectionContext, registry: SessionRegistry, n: nat, m: Message)
    returns (next: Control, ghost events: seq<Event>)
    requires registry.Valid() && m.PairComplete?
    modifies registry`View, registry.Repr`phase
    ensures registry.Valid()
    ensures Left(registry, ctx, next, events) == OnPairComplete(old(registry.View), old(ctx.View(Unwinding)), n, m)
  {
    events := [];
    if ctx.sessionId.None? || ctx.role != Agent || m.to != ctx.sessionId || !m.fieldsOk {
      next := SendError(ctx);
      return;
    }
    var sid := ctx.sessionId.value;
    var peer := OpenSession(registry, sid, ctx.role);
    if peer.None? {
      next := SendError(ctx);
      return;
    }
    next := Awaiting(Send(peer.value, Relayed(n, m)), CompleteSent(sid));
    events := [Completed(sid, ctx.ws, peer.value)];
  }

  method HandleResumeComplete(ctx: ConnectionContext, registry: SessionRegistry, n: nat, m: Message)
    returns (next: Control, ghost events: seq<Event>)
    requires registry.Valid() && m.ResumeComplete?
    modifies registry`View, registry.Repr`phase
    ensures registry.Valid()
    ensures Left(registry, ctx, next, events) == OnResumeComplete(old(registry.View), old(ctx.View(Unwinding)), n, m)
  {
    events := [];
    if ctx.role != Agent || ctx.sessionId.None? || m.to != ctx.sessionId || !m.fieldsOk {
      next := SendError(ctx);
      return;
    }
    var sid := ctx.sessionId.value;
    var peer := OpenSession(registry, sid, ctx.role);
    if peer.None? {
      next := SendError(ctx);
      return;
    }
    next := Awaiting(Send(peer.value, Relayed(n, m)), Loop);
    events := [Completed(sid, ctx.ws, peer.value)];
  }

  method HandleResumeInit(ctx: ConnectionContext, registry: SessionRegistry, m: Message)
    returns (next: Control, ghost events: seq<Event>)
    requires registry.Valid() && m.ResumeInit?
    modifies ctx, registry, registry.Repr
    ensures registry.Valid() && fresh(registry.Repr - old(registry.Repr))
    ensures Left(registry, ctx, next, events) == OnResumeInit(old(registry.View), old(ctx.View(Unwinding)), m)
  {
    events := [];
    if ctx.role != Agent || ctx.sessionId.Some? || !m.fieldsOk {
      next := SendError(ctx);
      return;
    }
    events := [Claimed(m.sid, ctx.ws, Some(m.device))];
    var registered := AnnounceDevice(registry, m.sid, m.device, ctx.ws);
    if !registered {
      registry.Detach(m.sid, Agent);
      next := SendError(ctx);
      return;
    }
    ctx.sessionId := Some(m.sid);
    next := Awaiting(Send(ctx.ws, ResumeInitAck), Loop);
  }

  // The `try` block of resume_init; false stands for its ValueError.
  method AnnounceDevice(registry: SessionRegistry, sid: SessionId, device: DeviceId, ws: Ws) returns (ok: bool)
    requires registry.Valid()
    modifies registry, registry.Repr
    ensures registry.Valid() && fresh(registry.Repr - old(registry.Repr))
    ensures var t := old(registry.View);
            var t1 := t.Attach(sid, Agent, ws).SetPhase(sid, WaitingResume);
            if t.Conflicts(sid, Agent, ws) then !ok && registry.View == t
            else ok == !t1.DeviceTaken(device, sid) && registry.View == t1.RegisterDevice(device, sid)
  {
    ok := SeatAgent(registry, sid, ws, WaitingResume);
    if ok {
      ok := registry.RegisterDevice(device, sid);
    }
  }

  // resume_request, once both limiters have passed.
  method BindResumingClient(ctx: ConnectionContext, registry: SessionRegistry, device: DeviceId, reply: Reply, now: int,
                            cfg: Config)
    returns (next: Control)
    requires registry.Valid()
    modifies ctx, registry, registry.Repr
    ensures registry.Valid() && fresh(registry.Repr - old(registry.Repr))
    ensures Left(registry, ctx, next, []) == AfterResumeTokenLimited(old(registry.View), old(ctx.View(Unwinding)),
        device, reply, now, cfg)
  {
    next := AfterLimiter(ctx, reply, Unwinding);
    if reply != Failed && reply != Blocked {
      next := SeatAtDevice(ctx, registry, device, now, cfg);
    }
  }

  method SeatAtDevice(ctx: ConnectionContext, registry: SessionRegistry, device: DeviceId, now: int, cfg: Config)
    returns (next: Control)
    requires registry.Valid()
    modifies ctx, registry, registry.Repr
    ensures registry.Valid() && fresh(registry.Repr - old(registry.Repr))
    ensures Left(registry, ctx, next, []) == AfterResumeTokenLimited(old(registry.View), old(ctx.View(Unwinding)),
        device, Ok, now, cfg)
  {
    if device !in registry.devices {
      next := SendError(ctx);
      return;
    }
    var agent, ok := FindResumeSeat(ctx, registry, registry.devices[device], now, cfg);
    if !ok {
      next := SendError(ctx);
      return;
    }
    next := Awaiting(Send(agent.value, ResumeAsked), Loop);
  }

  method FindResumeSeat(ctx: ConnectionContext, registry: SessionRegistry, sid: SessionId, now: int, cfg: Config)
    returns (agent: Option<Ws>, ok: bool)
    requires registry.Valid()
    modifies ctx, registry, registry.Repr
    ensures registry.Valid() && fresh(registry.Repr - old(registry.Repr))
    ensures agent == old(registry.View).Peer(sid, Client)
    ensures ok <==> agent.Some? && !old(registry.View).Conflicts(sid, Client, ctx.ws)
    ensures registry.View == if ok then old(registry.View).Attach(sid, Client, ctx.ws).SetPhase(sid, Resuming)
            else old(registry.View)
    ensures forall ctl :: ctx.View(ctl) ==
              if ok then old(ctx.View(ctl)).(session := Some(sid), deadline := Some(now + cfg.handshakeTimeout))
                else old(ctx.View(ctl))
  {
    var slot;
    agent, slot := FindSeat(ctx, registry, sid, now, cfg);
    ok := slot != null;
    if slot != null {
      registry.SetPhase(slot, Resuming);
    }
  }

  method HandleResumeProof(ctx: ConnectionContext, registry: SessionRegistry, n: nat, m: Message)
    returns (next: Control)
    requires registry.Valid() && m.ResumeProof?
    ensures Left(registry, ctx, next, []) == OnResumeProof(registry.View, ctx.View(Unwinding), n, m)
  {
    if ctx.role != Client || ctx.sessionId.None? || m.to != ctx.sessionId || !m.fieldsOk {
      next := SendError(ctx);
      return;
    }
    var peer := registry.GetPeer(ctx.sessionId.value, Client);
    if peer.None? {
      next := SendError(ctx);
      return;
    }
    next := Awaiting(Send(peer.value, Relayed(n, m)), Loop);
  }

  method HandleResumeChallenge(ctx: ConnectionContext, registry: SessionRegistry, n: nat, m: Message, now: int,
                               cfg: Config)
    returns (next: Control)
    requires registry.Valid() && m.ResumeChallenge?
    modifies ctx
    ensures registry.Valid()
    ensures Left(registry, ctx, next, []) == OnResumeChallenge(registry.View, old(ctx.View(Unwinding)), n, m, now, cfg)
  {
    if ctx.role != Agent || ctx.sessionId.None? || m.to != ctx.sessionId || !m.fieldsOk {
      next := SendError(ctx);
      return;
    }
    var peer := registry.GetPeer(ctx.sessionId.value, Agent);
    if peer.None? {
      next := SendError(ctx);
      return;
    }
    ctx.deadline := Some(now + cfg.handshakeTimeout);
    next := Awaiting(Send(peer.value, Relayed(n, m)), Loop);
  }

  method HandleRoutable(ctx: ConnectionContext, registry: SessionRegistry, n: nat, m: Message)
    returns (next: Control, ghost events: seq<Event>)
    requires registry.Valid() && m.Routable?
    ensures Left(registry, ctx, next, events) == OnRoutable(registry.View, ctx.View(Unwinding), n, m)
  {
    events := [];
    if ctx.sessionId.None? || m.to != ctx.sessionId {
      next := SendError(ctx);
      return;
    }
    var sid := ctx.sessionId.value;
    assert sid in registry.sessions ==> registry.Filed(sid);
    if sid !in registry.sessions || registry.sessions[sid].phase != Established {
      next := SendError(ctx);
      return;
    }
    var peer := registry.GetPeer(sid, ctx.role);
    if peer.None? {
      next := SendError(ctx);
      return;
    }
    next := Awaiting(Send(peer.value, Relayed(n, m)), if m.kind == SessionClose then CloseRouted(sid) else Loop);
    events := [Forwarded(sid, ctx.ws, peer.value, n)];
  }

  method TeardownSession(ctx: ConnectionContext, registry: SessionRegistry, sid: SessionId, cont: Cont)
    returns (next: Control, ghost events: seq<Event>)
    requires registry.Valid()
    modifies registry`sessions, registry`devices, registry`View
    ensures registry.Valid()
    ensures Left(registry, ctx, next, events) == Teardown(old(registry.View), old(ctx.View(Unwinding)), sid, cont)
  {
    registry.Remove(sid);
    next := Awaiting(DeleteRecord(sid), cont);
    events := [Removed(sid)];
  }

  // `_handle_disconnect`, up to its first await.
  method HandleDisconnect(ctx: ConnectionContext, registry: SessionRegistry, peerOpen: bool)
    returns (next: Control, ghost events: seq<Event>)
    requires registry.Valid()
    modifies registry`sessions, registry`devices, registry`View, registry.Repr`agent, registry.Repr`client
    ensures registry.Valid()
    ensures Left(registry, ctx, next, events) == Unwind(old(registry.View), old(ctx.View(Unwinding)), peerOpen)
  {
    events := [];
    if ctx.sessionId.None? {
      next := Finished;
      return;
    }
    var sid := ctx.sessionId.value;
    var peer := registry.GetPeer(sid, ctx.role);
    registry.Detach(sid, ctx.role);
    if peer.Some? && peerOpen {
      next := Awaiting(Send(peer.value, PeerGone), Notified(sid));
    } else {
      next, events := TeardownSession(ctx, registry, sid, Finishing);
    }
  }

  // The top of the receive loop.
  method StartReceive(ctx: ConnectionContext, registry: SessionRegistry, now: int, cfg: Config) returns (next: Control)
    requires registry.Valid()
    modifies ctx
    ensures registry.Valid()
    ensures Left(registry, ctx, next, []) == Listen(registry.View, old(ctx.View(Unwinding)), now, cfg)
  {
    if ctx.deadline.None? {
      ctx.deadline := Some(now + cfg.handshakeTimeout);
    }
    var expiry := Some(if ctx.deadline.value < now then now else ctx.deadline.value);
    if ctx.sessionId.Some? && ctx.sessionId.value in registry.sessions {
      assert registry.Filed(ctx.sessionId.value);
      var phase := registry.sessions[ctx.sessionId.value].phase;
      if phase == Established || phase == WaitingResume {
        expiry := None;
      }
    }
    next := Receiving(expiry);
  }

  // A parsed envelope: the sequence check, then the dispatch.
  method HandleEnvelope(ctx: ConnectionContext, registry: SessionRegistry, n: nat, m: Message, now: int, cfg: Config)
    returns (next: Control, ghost events: seq<Event>)
    requires registry.Valid()
    modifies ctx, registry, registry.Repr
    ensures registry.Valid() && fresh(registry.Repr - old(registry.Repr))
    ensures Left(registry, ctx, next, events) == OnEnvelope(old(registry.View), old(ctx.View(Unwinding)), n, m, now,
        cfg)
  {
    events := [];
    if n <= ctx.lastSeq {
      next := Unwinding;
      return;
    }
    ctx.lastSeq := n;
    next, events := DispatchEnvelope(ctx, registry, n, m, now, cfg);
  }

  method DispatchEnvelope(ctx: ConnectionContext, registry: SessionRegistry, n: nat, m: Message, now: int, cfg: Config)
    returns (next: Control, ghost events: seq<Event>)
    requires registry.Valid()
    modifies ctx, registry, registry.Repr
    ensures registry.Valid() && fresh(registry.Repr - old(registry.Repr))
    ensures Left(registry, ctx, next, events) == Dispatch(old(registry.View), old(ctx.View(Unwinding)), n, m, now, cfg)
  {
    events := [];
    if !RoleSends(ctx.role, m) {
      next := SendError(ctx);
      return;
    }
    match m {
      case PairInit(_, _, _) => next, events := HandlePairInit(ctx, registry, m);
      case PairRequest(token, fieldsOk) =>
        if ctx.role != Client || ctx.sessionId.Some? || !fieldsOk || !ValidToken(token, cfg.tokenMin, cfg.tokenMax) {
          next := SendError(ctx);
        } else {
          next := Awaiting(IpLimit, RequestLimited(token));
        }
      case PairComplete(_, _) => next, events := HandlePairComplete(ctx, registry, n, m);
      case ResumeInit(_, _, _) => next, events := HandleResumeInit(ctx, registry, m);
      case ResumeRequest(device, fieldsOk) =>
        if ctx.role != Client || ctx.sessionId.Some? || !fieldsOk {
          next := SendError(ctx);
        } else {
          next := Awaiting(IpLimit, ResumeLimited(device));
        }
      case ResumeChallenge(_, _) => next := HandleResumeChallenge(ctx, registry, n, m, now, cfg);
      case ResumeProof(_, _) => next := HandleResumeProof(ctx, registry, n, m);
      case ResumeComplete(_, _) => next, events := HandleResumeComplete(ctx, registry, n, m);
      case Routable(_, _) => next, events := HandleRoutable(ctx, registry, n, m);
      case Unknown => next := SendError(ctx);
    }
  }

  // The segment of pair_init after the await at `k`.
  method ContinuePairInit(ctx: ConnectionContext, registry: SessionRegistry, k: Cont, reply: Reply, now: int,
                          cfg: Config)
    returns (next: Control)
    requires registry.Valid()
    requires k.InitLimited? || k.InitIssued? || k.InitRecorded? || k.InitExpiring? || k.InitUndone?
    modifies ctx, registry`sessions, registry`View, registry.Repr`agent, registry.Repr`client
    ensures registry.Valid()
    ensures Left(registry, ctx, next, []) == Resume(old(registry.View), old(ctx.View(Unwinding)), k, reply, now, cfg)
  {
    match k {
      case InitLimited(sid, token) =>
        if reply == Failed || reply == Blocked || !ValidToken(token, cfg.tokenMin, cfg.tokenMax) {
          next := AbortPairInit(ctx, registry, sid, reply != Failed);
        } else {
          next := Awaiting(IssueToken(token, sid), InitIssued(sid, token));
        }
      case InitIssued(sid, token) =>
        if reply == Failed || reply == Duplicate {
          next := AbortPairInit(ctx, registry, sid, reply != Failed);
        } else {
          next := Awaiting(SetRecord(sid), InitRecorded(sid, token));
        }
      case InitRecorded(sid, token) =>
        next := if reply == Failed then Awaiting(DropToken(token), InitUndone(sid))
          else Awaiting(ExpireRecord(sid), InitExpiring(sid, token));
      case InitExpiring(sid, token) =>
        if reply == Failed {
          next := Awaiting(DropToken(token), InitUndone(sid));
        } else {
          ctx.deadline := Some(now + cfg.tokenTtl);
          next := Awaiting(Send(ctx.ws, PairInitAck), Loop);
        }
      case InitUndone(sid) =>
        next := AbortPairInit(ctx, registry, sid, false);
    }
  }

  // A relay error is reported to the agent; any other exception ends the connection.
  method AbortPairInit(ctx: ConnectionContext, registry: SessionRegistry, sid: SessionId, report: bool)
    returns (next: Control)
    requires registry.Valid()
    modifies ctx, registry`sessions, registry`View, registry.Repr`agent, registry.Repr`client
    ensures registry.Valid()
    ensures var (t1, c1) := UndoInit(old(registry.View), old(ctx.View(Unwinding)), sid);
            Left(registry, ctx, next, []) == if report then Refuse(t1, c1) else Raise(t1, c1)
  {
    UndoPairInit(ctx, registry, sid);
    if report {
      next := SendError(ctx);
    } else {
      next := Unwinding;
    }
  }

  // A limiter's answer inside pair_request or resume_request.
  method AfterLimiter(ctx: ConnectionContext, reply: Reply, passed: Control) returns (next: Control)
    ensures next == if reply == Failed then Unwinding else if reply == Blocked then Awaiting(Send(ctx.ws, Error), Loop)
            else passed
  {
    if reply == Failed {
      next := Unwinding;
    } else if reply == Blocked {
      next := SendError(ctx);
    } else {
      next := passed;
    }
  }

  // The segments that only decide what to await next.
  method GoOn(ctx: ConnectionContext, registry: SessionRegistry, k: Cont, reply: Reply, now: int, cfg: Config)
    returns (next: Control)
    requires k.RequestLimited? || k.RequestTokenLimited? || k.ResumeLimited? || k.RequestRecorded? || k.CompleteSent?
          || k.CompleteMarked? || k.Finishing?
    ensures Left(registry, ctx, next, []) == Resume(registry.View, ctx.View(Unwinding), k, reply, now, cfg)
  {
    match k {
      case RequestLimited(token) => next := AfterLimiter(ctx, reply,
                                                         Awaiting(TokenLimit(token), RequestTokenLimited(token)));
      case RequestTokenLimited(token) => next := AfterLimiter(ctx, reply,
          Awaiting(ConsumeToken(token), RequestConsumed));
      case ResumeLimited(device) =>
        next := AfterLimiter(ctx, reply, Awaiting(TokenLimit("resume-" + device), ResumeTokenLimited(device)));
      case RequestRecorded(sid, s) =>
        next := if reply == Failed then Unwinding else Awaiting(Send(ctx.ws, PairChallenge), RequestChallenged(sid, s));
      case CompleteSent(sid) => next := if reply == Failed then Unwinding
        else Awaiting(SetRecord(sid), CompleteMarked(sid));
      case CompleteMarked(sid) => next := if reply == Failed then Unwinding else Awaiting(PersistRecord(sid), Loop);
      case Finishing => next := Finished;
    }
  }

  /** The segment after any await; `held` is the slot object that a suspended pair_request still refers to. */
  method ResumeHandler(ctx: ConnectionContext, registry: SessionRegistry, held: SessionSlot?, k: Cont, reply: Reply,
                       now: int, cfg: Config)
    returns (next: Control, slot: SessionSlot?, ghost events: seq<Event>)
    requires registry.Valid()
    requires k.RequestChallenged? ==> held != null && held in registry.Repr && held.sid == k.sid && held.ref == k.slot
    modifies ctx, registry, registry.Repr
    ensures registry.Valid() && fresh(registry.Repr - old(registry.Repr))
    ensures Left(registry, ctx, next, events) == Resume(old(registry.View), old(ctx.View(Unwinding)), k, reply, now,
                                                        cfg)
  {
    events, slot := [], held;
    match k {
      case RequestConsumed => next, slot, events := BindClient(ctx, registry, reply, now, cfg);
      case ResumeTokenLimited(device) => next := BindResumingClient(ctx, registry, device, reply, now, cfg);
      case RequestChallenged(sid, _) => next := NotifyAgent(ctx, registry, held, sid, reply);
      case CloseRouted(sid) =>
        if reply == Failed {
          next := Unwinding;
        } else {
          next, events := TeardownSession(ctx, registry, sid, Loop);
        }
      case Notified(sid) => next, events := TeardownSession(ctx, registry, sid, Finishing);
      case Loop =>
        if reply == Failed {
          next := Unwinding;
        } else {
          next := StartReceive(ctx, registry, now, cfg);
        }
      case InitLimited(_, _) => next := ContinuePairInit(ctx, registry, k, reply, now, cfg);
      case InitIssued(_, _) => next := ContinuePairInit(ctx, registry, k, reply, now, cfg);
      case InitRecorded(_, _) => next := ContinuePairInit(ctx, registry, k, reply, now, cfg);
      case InitExpiring(_, _) => next := ContinuePairInit(ctx, registry, k, reply, now, cfg);
      case InitUndone(_) => next := ContinuePairInit(ctx, registry, k, reply, now, cfg);
      case _ => next := GoOn(ctx, registry, k, reply, now, cfg);
    }
  }
}
