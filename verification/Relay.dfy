/**
 The whole relay as a state machine: every interleaving of connections, Redis commands that may
 fail with or without effect, sends that may fail, timeouts, and the passage of time.

 `hist`, `log` and `born` are history: no step reads them to decide what the relay does.
 */
module Relay {
  import opened Prelude
  import opened RoutingTable
  import opened Pairing
  import opened Router

  // What happened to a session id since it was claimed.
  datatype Claim = Claim(
    owner: Ws,
    device: Option<DeviceId>,
    token: Option<Token>,
    redeemed: Option<Ws>,
    completed: Option<(Ws, Ws)>,
    removed: bool)

  type History = map<SessionId, Claim>

  datatype State = State(
    cfg: Config,
    table: Table,
    conns: map<Ws, Conn>,
    store: Store,
    now: int,
    hist: History,
    log: seq<Event>,
    born: map<Ws, int>)

  // `Lost`: the command or send raised, after taking effect or before. `Limited`: over the rate limit.
  datatype Fault = Fine | Limited | Lost(applied: bool)

  datatype Action =
    | Connect(ws: Ws, role: Role)
    | Deliver(ws: Ws, n: nat, msg: Message)
    | Reject(ws: Ws)                   // an envelope that is too large, malformed or of another version
    | Drop(ws: Ws)                     // the socket closes during the receive
    | Timeout(ws: Ws)
    | Effect(ws: Ws, fault: Fault)     // what the coroutine awaits takes effect
    | Run(ws: Ws, peerOpen: bool)      // the coroutine goes on
    | Tick(now: int)

  function Note(h: History, e: Event): History {
    match e
    case Claimed(sid, agent, device) => h[sid := Claim(agent, device, None, None, None, false)]
    case Issued(sid, token, _, _) => if sid in h then h[sid := h[sid].(token := Some(token))] else h
    case Consumed(sid, _, ws, _) => if sid in h then h[sid := h[sid].(redeemed := Some(ws))] else h
    case Completed(sid, a, c) => if sid in h then h[sid := h[sid].(completed := Some((a, c)))] else h
    case Removed(sid) => if sid in h then h[sid := h[sid].(removed := true)] else h
    case Bound(_, _, _, _) => h
    case Forwarded(_, _, _, _) => h
  }

  function NoteAll(h: History, es: seq<Event>): History {
    if es == [] then h else Note(NoteAll(h, es[..|es| - 1]), es[|es| - 1])
  }

  function Init(cfg: Config, now: int): State {
    State(cfg, EmptyTable, map[], EmptyStore, now, map[], [], map[])
  }

  // ----- one step

  predicate Enabled(s: State, a: Action) {
    match a
    case Connect(w, _) => w !in s.conns
    case Deliver(w, _, _) => w in s.conns && s.conns[w].ctl.Receiving?
    case Reject(w) => w in s.conns && s.conns[w].ctl.Receiving?
    case Drop(w) => w in s.conns && s.conns[w].ctl.Receiving?
    case Timeout(w) =>
      w in s.conns && s.conns[w].ctl.Receiving? && s.conns[w].ctl.expiry.Some? && s.conns[w].ctl.expiry.value <= s.now
    case Effect(w, _) => w in s.conns && s.conns[w].ctl.Awaiting?
    case Run(w, _) => w in s.conns && (s.conns[w].ctl.Resumed? || s.conns[w].ctl.Unwinding?)
    case Tick(now) => s.now <= now
  }

  function Commit(s: State, o: Outcome): State {
    s.(table := o.table,
       conns := s.conns[o.conn.ws := o.conn],
       hist := NoteAll(s.hist, o.events),
       log := s.log + o.events)
  }

  function ReplyTo(s: State, op: Op, fault: Fault): Reply {
    if fault.Lost? then Failed
    else
      match op
      case IpLimit => if fault.Limited? then Blocked else Ok
      case TokenLimit(_) => if fault.Limited? then Blocked else Ok
      case IssueToken(token, _) => s.store.IssueReply(token, s.now)
      case ConsumeToken(token) => s.store.ConsumeReply(token, s.now)
      case _ => Ok
  }

  function StoreAfter(s: State, w: Ws, op: Op): Store {
    match op
    case IssueToken(token, sid) => s.store.Issue(token, sid, s.now, s.cfg.tokenTtl)
    case ConsumeToken(token) => s.store.Consume(token, s.now)
    case DropToken(token) => s.store.DropToken(token)
    case SetRecord(sid) => s.store.SetRecord(sid, w, s.now)
    case ExpireRecord(sid) => s.store.ExpireRecord(sid, s.now, s.cfg.pendingTtl)
    case PersistRecord(sid) => s.store.PersistRecord(sid, s.now)
    case DeleteRecord(sid) => s.store.DeleteRecord(sid)
    case _ => s.store
  }

  function EventsOf(s: State, w: Ws, op: Op): seq<Event> {
    match op
    case IssueToken(token, sid) =>
      if s.store.IssueReply(token, s.now) == Ok then [Issued(sid, token, s.store.issued, s.now)] else []
    case ConsumeToken(token) =>
      var reply := s.store.ConsumeReply(token, s.now);
      if reply.Granted? then [Consumed(reply.sid, reply.serial, w, s.now)] else []
    case _ => []
  }

  function Perform(s: State, w: Ws, fault: Fault): State
    requires Enabled(s, Effect(w, fault))
  {
    var c := s.conns[w];
    var op := c.ctl.op;
    var c1 := c.(ctl := Resumed(c.ctl.next, ReplyTo(s, op, fault)));
    if fault == Lost(false) then s.(conns := s.conns[w := c1])
    else
      var events := EventsOf(s, w, op);
      s.(conns := s.conns[w := c1],
         store := StoreAfter(s, w, op),
         hist := NoteAll(s.hist, events),
         log := s.log + events)
  }

  function Apply(s: State, a: Action): State
    requires Enabled(s, a)
  {
    match a
    case Connect(w, role) =>
      s.(conns := s.conns[w := Conn(w, role, None, 0, None, Resumed(Loop, Ok))], born := s.born[w := s.now])
    case Deliver(w, n, msg) => Commit(s, OnEnvelope(s.table, s.conns[w], n, msg, s.now, s.cfg))
    case Reject(w) => Commit(s, Raise(s.table, s.conns[w]))
    case Drop(w) => Commit(s, Raise(s.table, s.conns[w]))
    case Timeout(w) => Commit(s, Raise(s.table, s.conns[w]))
    case Effect(w, fault) => Perform(s, w, fault)
    case Run(w, peerOpen) =>
      var c := s.conns[w];
      if c.ctl.Unwinding? then Commit(s, Unwind(s.table, c, peerOpen))
      else Commit(s, Resume(s.table, c, c.ctl.next, c.ctl.reply, s.now, s.cfg))
    case Tick(now) => s.(now := now)
  }

  // ----- runs

  predicate Runs(s: State, acts: seq<Action>)
    decreases |acts|
  {
    acts == [] || (Enabled(s, acts[0]) && Runs(Apply(s, acts[0]), acts[1..]))
  }

  function After(s: State, acts: seq<Action>): State
    requires Runs(s, acts)
    decreases |acts|
  {
    if acts == [] then s else After(Apply(s, acts[0]), acts[1..])
  }

  // The session id that this action makes an agent claim, if it gets as far as the routing table.
  function ClaimOf(s: State, a: Action): Option<SessionId> {
    if a.Deliver? && a.ws in s.conns && s.conns[a.ws].role == Agent && s.conns[a.ws].session.None?
       && a.n > s.conns[a.ws].lastSeq && (a.msg.PairInit? || a.msg.ResumeInit?) && a.msg.fieldsOk
    then Some(a.msg.sid)
    else None
  }

  // Agents draw session ids at random; a run is fresh when no drawn id was claimed before.
  predicate Fresh(s: State, a: Action) {
    ClaimOf(s, a).Some? ==> ClaimOf(s, a).value !in s.hist
  }

  predicate FreshRun(s: State, acts: seq<Action>)
    requires Runs(s, acts)
    decreases |acts|
  {
    acts == [] || (Fresh(s, acts[0]) && FreshRun(Apply(s, acts[0]), acts[1..]))
  }
}
