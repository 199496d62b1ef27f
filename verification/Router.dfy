/**
 The relay's message handlers, cut at every `await`.

 A connection's coroutine is a `Conn`: the fields of its context plus `ctl`, where it stands.
 Between two awaits a handler runs without interruption; each such segment is one function here
 from the routing table and the connection to their next values and the events it caused.
 */
module Router {
  import opened Prelude
  import opened RoutingTable
  import opened Pairing

  // Times are instants of one clock. The defaults and bounds are the environment's business.
  datatype Config = Config(handshakeTimeout: nat, tokenTtl: nat, pendingTtl: nat, tokenMin: nat, tokenMax: nat)

  datatype Kind =
    | SessionList | SessionOpen | SessionResize | SessionClose | IdleAlert
    | PtyData | PtyInput | DeviceCredential
    | PortForwardRequest | PortForwardData | PortForwardClose

  // `fieldsOk`: the payload passes the handler's own shape checks (base64 sizes, id patterns, hostname).
  datatype Message =
    | PairInit(token: Token, sid: SessionId, fieldsOk: bool)
    | PairRequest(token: Token, fieldsOk: bool)
    | PairComplete(to: Option<SessionId>, fieldsOk: bool)
    | ResumeInit(sid: SessionId, device: DeviceId, fieldsOk: bool)
    | ResumeRequest(device: DeviceId, fieldsOk: bool)
    | ResumeChallenge(to: Option<SessionId>, fieldsOk: bool)
    | ResumeProof(to: Option<SessionId>, fieldsOk: bool)
    | ResumeComplete(to: Option<SessionId>, fieldsOk: bool)
    | Routable(kind: Kind, to: Option<SessionId>)
    | Unknown

  datatype Out =
    | Error | PairInitAck | PairChallenge | ResumeInitAck | ResumeAsked | PeerGone
    | Relayed(n: nat, msg: Message)

  datatype Op =
    | Send(ws: Ws, out: Out)
    | IpLimit
    | TokenLimit(key: string)
    | IssueToken(token: Token, sid: SessionId)
    | ConsumeToken(token: Token)
    | DropToken(token: Token)
    | SetRecord(sid: SessionId)
    | ExpireRecord(sid: SessionId)
    | PersistRecord(sid: SessionId)
    | DeleteRecord(sid: SessionId)

  // Where a coroutine goes on after an await, with the local variables it still needs.
  datatype Cont =
    | Loop
    | InitLimited(sid: SessionId, token: Token)
    | InitIssued(sid: SessionId, token: Token)
    | InitRecorded(sid: SessionId, token: Token)
    | InitExpiring(sid: SessionId, token: Token)
    | InitUndone(sid: SessionId)
    | RequestLimited(token: Token)
    | RequestTokenLimited(token: Token)
    | RequestConsumed
    | RequestRecorded(sid: SessionId, slot: nat)
    | RequestChallenged(sid: SessionId, slot: nat)
    | CompleteSent(sid: SessionId)
    | CompleteMarked(sid: SessionId)
    | ResumeLimited(device: DeviceId)
    | ResumeTokenLimited(device: DeviceId)
    | CloseRouted(sid: SessionId)
    | Notified(sid: SessionId)
    | Finishing

  datatype Control =
    | Receiving(expiry: Option<int>)
    | Awaiting(op: Op, next: Cont)
    | Resumed(next: Cont, reply: Reply)
    | Unwinding   // an exception or a return left the loop; the `finally` block is next
    | Finished

  datatype Conn = Conn(
    ws: Ws,
    role: Role,
    session: Option<SessionId>,
    lastSeq: nat,
    deadline: Option<int>,
    ctl: Control)
  {
    // The coroutine has not yet run the detach of its `finally` block.
    predicate Live() {
      match ctl
      case Awaiting(_, k) => !k.Notified? && !k.Finishing?
      case Resumed(k, _) => !k.Notified? && !k.Finishing?
      case Finished => false
      case _ => true
    }
  }

  datatype Event =
    | Claimed(sid: SessionId, agent: Ws, device: Option<DeviceId>)
    | Issued(sid: SessionId, token: Token, serial: nat, at: int)
    | Consumed(sid: SessionId, serial: nat, ws: Ws, at: int)
    | Bound(sid: SessionId, serial: nat, agent: Ws, client: Ws)
    | Completed(sid: SessionId, agent: Ws, client: Ws)
    | Forwarded(sid: SessionId, from: Ws, to: Ws, n: nat)
    | Removed(sid: SessionId)

  datatype Outcome = Outcome(table: Table, conn: Conn, events: seq<Event>)

  function Wait(t: Table, c: Conn, op: Op, next: Cont): Outcome {
    Outcome(t, c.(ctl := Awaiting(op, next)), [])
  }

  // `_send_error`, after which every handler returns to the loop.
  function Refuse(t: Table, c: Conn): Outcome {
    Wait(t, c, Send(c.ws, Error), Loop)
  }

  function Raise(t: Table, c: Conn): Outcome {
    Outcome(t, c.(ctl := Unwinding), [])
  }

  // ----- pair_init

  function OnPairInit(t: Table, c: Conn, m: Message): Outcome
    requires m.PairInit?
  {
    if c.role != Agent || c.session.Some? || !m.fieldsOk then Refuse(t, c)
    else
      var claim := [Claimed(m.sid, c.ws, None)];
      if t.Conflicts(m.sid, Agent, c.ws) then Refuse(t, c).(events := claim)
      else
        var t1 := t.Attach(m.sid, Agent, c.ws).SetPhase(m.sid, Pairing);
        Wait(t1, c.(session := Some(m.sid)), IpLimit, InitLimited(m.sid, m.token)).(events := claim)
  }

  // `except Exception: detach; session_id = None; raise`
  function UndoInit(t: Table, c: Conn, sid: SessionId): (Table, Conn) {
    (t.Detach(sid, Agent), c.(session := None))
  }

  function AfterInitLimited(t: Table, c: Conn, sid: SessionId, token: Token, reply: Reply, cfg: Config): Outcome {
    var (t1, c1) := UndoInit(t, c, sid);
    if reply == Failed then Raise(t1, c1)
    else if reply == Blocked || !ValidToken(token, cfg.tokenMin, cfg.tokenMax) then Refuse(t1, c1)
    else Wait(t, c, IssueToken(token, sid), InitIssued(sid, token))
  }

  function AfterInitIssued(t: Table, c: Conn, sid: SessionId, token: Token, reply: Reply): Outcome {
    var (t1, c1) := UndoInit(t, c, sid);
    if reply == Failed then Raise(t1, c1)
    else if reply == Duplicate then Refuse(t1, c1)
    else Wait(t, c, SetRecord(sid), InitRecorded(sid, token))
  }

  function AfterInitRecorded(t: Table, c: Conn, sid: SessionId, token: Token, reply: Reply): Outcome {
    if reply == Failed then Wait(t, c, DropToken(token), InitUndone(sid))
    else Wait(t, c, ExpireRecord(sid), InitExpiring(sid, token))
  }

  function AfterInitExpiring(t: Table, c: Conn, sid: SessionId, token: Token, reply: Reply, now: int,
                             cfg: Config): Outcome {
    if reply == Failed then Wait(t, c, DropToken(token), InitUndone(sid))
    else Wait(t, c.(deadline := Some(now + cfg.tokenTtl)), Send(c.ws, PairInitAck), Loop)
  }

  function AfterInitUndone(t: Table, c: Conn, sid: SessionId): Outcome {
    var (t1, c1) := UndoInit(t, c, sid);
    Raise(t1, c1)
  }

  // ----- pair_request

  function OnPairRequest(t: Table, c: Conn, m: Message, cfg: Config): Outcome
    requires m.PairRequest?
  {
    if c.role != Client || c.session.Some? || !m.fieldsOk then Refuse(t, c)
    else if !ValidToken(m.token, cfg.tokenMin, cfg.tokenMax) then Refuse(t, c)
    else Wait(t, c, IpLimit, RequestLimited(m.token))
  }

  function AfterRequestLimited(t: Table, c: Conn, token: Token, reply: Reply): Outcome {
    if reply == Failed then Raise(t, c)
    else if reply == Blocked then Refuse(t, c)
    else Wait(t, c, TokenLimit(token), RequestTokenLimited(token))
  }

  function AfterRequestTokenLimited(t: Table, c: Conn, token: Token, reply: Reply): Outcome {
    if reply == Failed then Raise(t, c)
    else if reply == Blocked then Refuse(t, c)
    else Wait(t, c, ConsumeToken(token), RequestConsumed)
  }

  function AfterRequestConsumed(t: Table, c: Conn, reply: Reply, now: int, cfg: Config): Outcome {
    if reply == Failed then Raise(t, c)
    else if !reply.Granted? then Refuse(t, c)
    else
      var sid := reply.sid;
      if sid !in t.slots || t.slots[sid].agent.None? then Refuse(t, c)
      else if t.Conflicts(sid, Client, c.ws) then Refuse(t, c)
      else
        var c1 := c.(session := Some(sid), deadline := Some(now + cfg.handshakeTimeout));
        Wait(t.Attach(sid, Client, c.ws), c1, SetRecord(sid), RequestRecorded(sid, t.slots[sid].ref))
        .(events := [Bound(sid, reply.serial, t.slots[sid].agent.value, c.ws)])
  }

  function AfterRequestRecorded(t: Table, c: Conn, sid: SessionId, slot: nat, reply: Reply): Outcome {
    if reply == Failed then Raise(t, c)
    else Wait(t, c, Send(c.ws, PairChallenge), RequestChallenged(sid, slot))
  }

  // `slot.agent` is read again from the slot object fetched two awaits ago; None has no `send_text`.
  function AfterRequestChallenged(t: Table, c: Conn, sid: SessionId, slot: nat, reply: Reply): Outcome {
    if reply == Failed then Raise(t, c)
    else
      var held := t.SlotByRef(sid, slot);
      if held.None? || held.value.agent.None? then Raise(t, c)
      else Wait(t, c, Send(held.value.agent.value, PairChallenge), Loop)
  }

  // ----- pair_complete and resume_complete

  // Both checks the peer, opens the session to routable traffic and passes the message on.
  function Complete(t: Table, c: Conn, n: nat, m: Message, sid: SessionId, next: Cont): Outcome {
    var peer := t.Peer(sid, c.role);
    if peer.None? then Refuse(t, c)
    else
      Wait(t.SetPhase(sid, Established), c, Send(peer.value, Relayed(n, m)), next)
      .(events := [Completed(sid, c.ws, peer.value)])
  }

  function OnPairComplete(t: Table, c: Conn, n: nat, m: Message): Outcome
    requires m.PairComplete?
  {
    if c.session.None? || c.role != Agent || m.to != c.session || !m.fieldsOk then Refuse(t, c)
    else Complete(t, c, n, m, c.session.value, CompleteSent(c.session.value))
  }

  function AfterCompleteSent(t: Table, c: Conn, sid: SessionId, reply: Reply): Outcome {
    if reply == Failed then Raise(t, c) else Wait(t, c, SetRecord(sid), CompleteMarked(sid))
  }

  function AfterCompleteMarked(t: Table, c: Conn, sid: SessionId, reply: Reply): Outcome {
    if reply == Failed then Raise(t, c) else Wait(t, c, PersistRecord(sid), Loop)
  }

  function OnResumeComplete(t: Table, c: Conn, n: nat, m: Message): Outcome
    requires m.ResumeComplete?
  {
    if c.role != Agent || c.session.None? || m.to != c.session || !m.fieldsOk then Refuse(t, c)
    else Complete(t, c, n, m, c.session.value, Loop)
  }

  // ----- resume_init, resume_request, resume_proof, resume_challenge

  function OnResumeInit(t: Table, c: Conn, m: Message): Outcome
    requires m.ResumeInit?
  {
    if c.role != Agent || c.session.Some? || !m.fieldsOk then Refuse(t, c)
    else
      var claim := [Claimed(m.sid, c.ws, Some(m.device))];
      if t.Conflicts(m.sid, Agent, c.ws) then Refuse(t.Detach(m.sid, Agent), c).(events := claim)
      else
        var t1 := t.Attach(m.sid, Agent, c.ws).SetPhase(m.sid, WaitingResume);
        if t1.DeviceTaken(m.device, m.sid) then Refuse(t1.Detach(m.sid, Agent), c).(events := claim)
        else
          Wait(t1.RegisterDevice(m.device, m.sid), c.(session := Some(m.sid)), Send(c.ws, ResumeInitAck), Loop)
          .(events := claim)
  }

  function OnResumeRequest(t: Table, c: Conn, m: Message): Outcome
    requires m.ResumeRequest?
  {
    if c.role != Client || c.session.Some? || !m.fieldsOk then Refuse(t, c)
    else Wait(t, c, IpLimit, ResumeLimited(m.device))
  }

  function AfterResumeLimited(t: Table, c: Conn, device: DeviceId, reply: Reply): Outcome {
    if reply == Failed then Raise(t, c)
    else if reply == Blocked then Refuse(t, c)
    else Wait(t, c, TokenLimit("resume-" + device), ResumeTokenLimited(device))
  }

  function AfterResumeTokenLimited(t: Table, c: Conn, device: DeviceId, reply: Reply, now: int, cfg: Config): Outcome {
    if reply == Failed then Raise(t, c)
    else if reply == Blocked then Refuse(t, c)
    else if device !in t.devices then Refuse(t, c)
    else
      var sid := t.devices[device];
      if sid !in t.slots || t.slots[sid].agent.None? then Refuse(t, c)
      else if t.Conflicts(sid, Client, c.ws) then Refuse(t, c)
      else
        var c1 := c.(session := Some(sid), deadline := Some(now + cfg.handshakeTimeout));
        Wait(t.Attach(sid, Client, c.ws).SetPhase(sid, Resuming), c1, Send(t.slots[sid].agent.value, ResumeAsked), Loop)
  }

  function OnResumeProof(t: Table, c: Conn, n: nat, m: Message): Outcome
    requires m.ResumeProof?
  {
    if c.role != Client || c.session.None? || m.to != c.session || !m.fieldsOk then Refuse(t, c)
    else
      var peer := t.Peer(c.session.value, Client);
      if peer.None? then Refuse(t, c) else Wait(t, c, Send(peer.value, Relayed(n, m)), Loop)
  }

  function OnResumeChallenge(t: Table, c: Conn, n: nat, m: Message, now: int, cfg: Config): Outcome
    requires m.ResumeChallenge?
  {
    if c.role != Agent || c.session.None? || m.to != c.session || !m.fieldsOk then Refuse(t, c)
    else
      var peer := t.Peer(c.session.value, Agent);
      if peer.None? then Refuse(t, c)
      else Wait(t, c.(deadline := Some(now + cfg.handshakeTimeout)), Send(peer.value, Relayed(n, m)), Loop)
  }

  // ----- session traffic

  function OnRoutable(t: Table, c: Conn, n: nat, m: Message): Outcome
    requires m.Routable?
  {
    if c.session.None? || m.to != c.session then Refuse(t, c)
    else
      var sid := c.session.value;
      if sid !in t.slots || t.slots[sid].phase != Established then Refuse(t, c)
      else
        var peer := t.Peer(sid, c.role);
        if peer.None? then Refuse(t, c)
        else
          Wait(t, c, Send(peer.value, Relayed(n, m)), if m.kind == SessionClose then CloseRouted(sid) else Loop)
          .(events := [Forwarded(sid, c.ws, peer.value, n)])
  }

  // teardown_session
  function Teardown(t: Table, c: Conn, sid: SessionId, next: Cont): Outcome {
    Wait(t.Remove(sid), c, DeleteRecord(sid), next).(events := [Removed(sid)])
  }

  function AfterCloseRouted(t: Table, c: Conn, sid: SessionId, reply: Reply): Outcome {
    if reply == Failed then Raise(t, c) else Teardown(t, c, sid, Loop)
  }

  // ----- dispatch and the receive loop

  predicate RoleSends(role: Role, m: Message) {
    match m
    case PairInit(_, _, _) => role == Agent
    case PairComplete(_, _) => role == Agent
    case ResumeInit(_, _, _) => role == Agent
    case ResumeChallenge(_, _) => role == Agent
    case ResumeComplete(_, _) => role == Agent
    case PairRequest(_, _) => role == Client
    case ResumeRequest(_, _) => role == Client
    case ResumeProof(_, _) => role == Client
    case Routable(kind, _) =>
      if role == Agent then
        kind in {DeviceCredential, PtyData, SessionList, SessionClose, IdleAlert, PortForwardData, PortForwardClose}
      else
        kind in {PtyInput, SessionOpen, SessionResize, SessionClose, PortForwardRequest, PortForwardData,
                 PortForwardClose}
    case Unknown => false
  }

  function Dispatch(t: Table, c: Conn, n: nat, m: Message, now: int, cfg: Config): Outcome {
    if !RoleSends(c.role, m) then Refuse(t, c)
    else
      match m
      case PairInit(_, _, _) => OnPairInit(t, c, m)
      case PairRequest(_, _) => OnPairRequest(t, c, m, cfg)
      case PairComplete(_, _) => OnPairComplete(t, c, n, m)
      case ResumeInit(_, _, _) => OnResumeInit(t, c, m)
      case ResumeRequest(_, _) => OnResumeRequest(t, c, m)
      case ResumeChallenge(_, _) => OnResumeChallenge(t, c, n, m, now, cfg)
      case ResumeProof(_, _) => OnResumeProof(t, c, n, m)
      case ResumeComplete(_, _) => OnResumeComplete(t, c, n, m)
      case Routable(_, _) => OnRoutable(t, c, n, m)
      case Unknown => Refuse(t, c)
  }

  // A parsed envelope: the sequence check, then dispatch.
  function OnEnvelope(t: Table, c: Conn, n: nat, m: Message, now: int, cfg: Config): Outcome {
    if n <= c.lastSeq then Raise(t, c) else Dispatch(t, c.(lastSeq := n), n, m, now, cfg)
  }

  predicate Exempt(t: Table, c: Conn) {
    c.session.Some? && c.session.value in t.slots &&
    (t.slots[c.session.value].phase == Established || t.slots[c.session.value].phase == WaitingResume)
  }

  // The top of the loop: the receive starts now, and its timeout is fixed now.
  function Listen(t: Table, c: Conn, now: int, cfg: Config): Outcome {
    var deadline := if c.deadline.Some? then c.deadline.value else now + cfg.handshakeTimeout;
    var expiry := if Exempt(t, c) then None else Some(if deadline < now then now else deadline);
    Outcome(t, c.(deadline := Some(deadline), ctl := Receiving(expiry)), [])
  }

  // `_handle_disconnect`, up to its first await.
  function Unwind(t: Table, c: Conn, peerOpen: bool): Outcome {
    if c.session.None? then Outcome(t, c.(ctl := Finished), [])
    else
      var sid := c.session.value;
      var peer := t.Peer(sid, c.role);
      var t1 := t.Detach(sid, c.role);
      if peer.Some? && peerOpen then Wait(t1, c, Send(peer.value, PeerGone), Notified(sid))
      else Teardown(t1, c, sid, Finishing)
  }

  // The segment that follows an await which gave `reply`.
  function Resume(t: Table, c: Conn, k: Cont, reply: Reply, now: int, cfg: Config): Outcome {
    match k
    case Loop => if reply == Failed then Raise(t, c) else Listen(t, c, now, cfg)
    case InitLimited(sid, token) => AfterInitLimited(t, c, sid, token, reply, cfg)
    case InitIssued(sid, token) => AfterInitIssued(t, c, sid, token, reply)
    case InitRecorded(sid, token) => AfterInitRecorded(t, c, sid, token, reply)
    case InitExpiring(sid, token) => AfterInitExpiring(t, c, sid, token, reply, now, cfg)
    case InitUndone(sid) => AfterInitUndone(t, c, sid)
    case RequestLimited(token) => AfterRequestLimited(t, c, token, reply)
    case RequestTokenLimited(token) => AfterRequestTokenLimited(t, c, token, reply)
    case RequestConsumed => AfterRequestConsumed(t, c, reply, now, cfg)
    case RequestRecorded(sid, slot) => AfterRequestRecorded(t, c, sid, slot, reply)
    case RequestChallenged(sid, slot) => AfterRequestChallenged(t, c, sid, slot, reply)
    case CompleteSent(sid) => AfterCompleteSent(t, c, sid, reply)
    case CompleteMarked(sid) => AfterCompleteMarked(t, c, sid, reply)
    case ResumeLimited(device) => AfterResumeLimited(t, c, device, reply)
    case ResumeTokenLimited(device) => AfterResumeTokenLimited(t, c, device, reply, now, cfg)
    case CloseRouted(sid) => AfterCloseRouted(t, c, sid, reply)
    case Notified(sid) => Teardown(t, c, sid, Finishing)
    case Finishing => Outcome(t, c.(ctl := Finished), [])
  }
}
