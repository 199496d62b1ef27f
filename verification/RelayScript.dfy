/**
 What the relay asks for on behalf of each connection, and in which order: the commands and sends
 that follow a delivered envelope, as a script read off the envelope and the answers given since.
 The limiters come before any token is issued or redeemed and before any client is seated.
 */
module RelayScript {
  import opened Prelude
  import opened RoutingTable
  import opened Pairing
  import opened Router
  import opened Relay
  import opened RelayPlacement

  // ----- what a run tells of one connection

  datatype Answer = Answer(op: Op, reply: Reply)

  datatype Heard = Heard(n: nat, msg: Message)

  // The envelope delivered last, and what was awaited and answered since.
  datatype Past = Past(heard: Option<Heard>, answers: seq<Answer>)

  const Nothing := Past(None, [])

  function PastAfter(s: State, a: Action, w: Ws, past: Past): Past
    requires Enabled(s, a)
  {
    match a
    case Deliver(v, n, msg) => if v == w then Past(Some(Heard(n, msg)), []) else past
    case Effect(v, fault) =>
      if v == w then
        var op := s.conns[w].ctl.op;
        past.(answers := past.answers + [Answer(op, ReplyTo(s, op, fault))])
      else past
    case _ => past
  }

  function PastOf(s: State, acts: seq<Action>, w: Ws, past: Past): Past
    requires Runs(s, acts)
    decreases |acts|
  {
    if acts == [] then past else PastOf(Apply(s, acts[0]), acts[1..], w, PastAfter(s, acts[0], w, past))
  }

  // ----- the script

  function Done(op: Op): Answer {
    Answer(op, Ok)
  }

  predicate Passes(op: Op, n: nat, m: Message) {
    op.Send? && op.out == Relayed(n, m)
  }

  // The answers are those of one send that passed the envelope on.
  predicate PassedOn(answers: seq<Answer>, n: nat, m: Message) {
    |answers| == 1 && Passes(answers[0].op, n, m) && answers[0].reply == Ok
  }

  predicate AsksPairInit(cfg: Config, self: Ws, token: Token, sid: SessionId, answers: seq<Answer>, op: Op) {
    var limited, issued, recorded := Done(IpLimit), Done(IssueToken(token, sid)), Done(SetRecord(sid));
    match op
    case IpLimit => answers == []
    case IssueToken(_, _) =>
      op == IssueToken(token, sid) && answers == [limited] && ValidToken(token, cfg.tokenMin, cfg.tokenMax)
    case SetRecord(_) => op == SetRecord(sid) && answers == [limited, issued]
    case ExpireRecord(_) => op == ExpireRecord(sid) && answers == [limited, issued, recorded]
    case DropToken(_) =>
      op == DropToken(token) && (answers == [limited, issued, Answer(SetRecord(sid), Failed)]
                                 || answers == [limited, issued, recorded, Answer(ExpireRecord(sid), Failed)])
    case Send(to, out) =>
      to == self && if out == PairInitAck then answers == [limited, issued, recorded, Done(ExpireRecord(sid))]
                    else out == Error && (answers == [] || answers == [Answer(IpLimit, Blocked)]
                           || answers == [limited, Answer(IssueToken(token, sid), Duplicate)]
                           || (answers == [limited] && !ValidToken(token, cfg.tokenMin, cfg.tokenMax)))
    case _ => false
  }

  // The token was redeemed after both limiters let the attempt through.
  predicate Redeemed(token: Token, answers: seq<Answer>) {
    |answers| >= 3 && answers[..2] == [Done(IpLimit), Done(TokenLimit(token))] && answers[2].op == ConsumeToken(token)
  }

  // Redeemed and answered with the session `sid`.
  predicate Admitted(token: Token, answers: seq<Answer>, sid: SessionId) {
    Redeemed(token, answers) && answers[2].reply.Granted? && answers[2].reply.sid == sid
  }

  predicate AsksPairRequest(cfg: Config, self: Ws, token: Token, answers: seq<Answer>, op: Op) {
    match op
    case IpLimit => answers == [] && ValidToken(token, cfg.tokenMin, cfg.tokenMax)
    case TokenLimit(key) => key == token && answers == [Done(IpLimit)]
    case ConsumeToken(t) => t == token && answers == [Done(IpLimit), Done(TokenLimit(token))]
    case SetRecord(sid) => |answers| == 3 && Admitted(token, answers, sid)
    case Send(to, out) =>
      if out == PairChallenge then
        && |answers| >= 4 && Redeemed(token, answers) && answers[2].reply.Granted?
        && answers[3] == Done(SetRecord(answers[2].reply.sid))
        && (if |answers| == 4 then to == self else answers[4..] == [Done(Send(self, PairChallenge))])
      else
        && to == self && out == Error
        && (answers == [] || answers == [Answer(IpLimit, Blocked)]
            || answers == [Done(IpLimit), Answer(TokenLimit(token), Blocked)]
            || (|answers| == 3 && Redeemed(token, answers)))
    case _ => false
  }

  predicate AsksResumeRequest(self: Ws, device: DeviceId, answers: seq<Answer>, op: Op) {
    var key := "resume-" + device;
    match op
    case IpLimit => answers == []
    case TokenLimit(k) => k == key && answers == [Done(IpLimit)]
    case Send(to, out) =>
      if out == ResumeAsked then answers == [Done(IpLimit), Done(TokenLimit(key))]
      else
        && to == self && out == Error
        && (answers == [] || answers == [Answer(IpLimit, Blocked)]
            || answers == [Done(IpLimit), Answer(TokenLimit(key), Blocked)]
            || answers == [Done(IpLimit), Done(TokenLimit(key))])
    case _ => false
  }

  predicate AsksPairComplete(self: Ws, n: nat, m: Message, answers: seq<Answer>, op: Op)
    requires m.PairComplete?
  {
    match op
    case Send(to, out) => answers == [] && (out == Relayed(n, m) || (to == self && out == Error))
    case SetRecord(sid) => m.to == Some(sid) && PassedOn(answers, n, m)
    case PersistRecord(sid) =>
      m.to == Some(sid) && |answers| == 2 && PassedOn(answers[..1], n, m) && answers[1] == Done(SetRecord(sid))
    case _ => false
  }

  predicate AsksRoutable(self: Ws, n: nat, m: Message, answers: seq<Answer>, op: Op)
    requires m.Routable?
  {
    match op
    case Send(to, out) => answers == [] && (out == Relayed(n, m) || (to == self && out == Error))
    case DeleteRecord(sid) => m.kind == SessionClose && m.to == Some(sid) && PassedOn(answers, n, m)
    case _ => false
  }

  // What a connection may be waiting for, given the envelope it delivered last and the answers since.
  predicate Asks(cfg: Config, self: Ws, past: Past, op: Op) {
    past.heard.Some? &&
    var n, m, answers := past.heard.value.n, past.heard.value.msg, past.answers;
    match m
    case PairInit(token, sid, _) => AsksPairInit(cfg, self, token, sid, answers, op)
    case PairRequest(token, _) => AsksPairRequest(cfg, self, token, answers, op)
    case ResumeRequest(device, _) => AsksResumeRequest(self, device, answers, op)
    case PairComplete(_, _) => AsksPairComplete(self, n, m, answers, op)
    case ResumeInit(_, _, _) => answers == [] && (op == Send(self, ResumeInitAck) || op == Send(self, Error))
    case ResumeChallenge(_, _) => answers == [] && (Passes(op, n, m) || op == Send(self, Error))
    case ResumeProof(_, _) => answers == [] && (Passes(op, n, m) || op == Send(self, Error))
    case ResumeComplete(_, _) => answers == [] && (Passes(op, n, m) || op == Send(self, Error))
    case Routable(_, _) => AsksRoutable(self, n, m, answers, op)
    case Unknown => answers == [] && op == Send(self, Error)
  }

  // `op` is the last thing the envelope asks for, `before` having been answered.
  predicate Concludes(op: Op, before: nat) {
    match op
    case Send(_, out) =>
      (match out
       case PeerGone => false
       case PairChallenge => before == 5
       case Relayed(_, m) => !m.PairComplete? && !(m.Routable? && m.kind == SessionClose)
       case _ => true)
    case PersistRecord(_) => true
    case DeleteRecord(_) => true
    case _ => false
  }

  // ----- every connection follows it

  // Where a handler stands tells which envelope it handles.
  ghost predicate Handles(k: Cont, m: Message, answers: seq<Answer>, op: Op) {
    match k
    case Loop => Concludes(op, |answers|)
    case InitLimited(sid, token) => m == PairInit(token, sid, true)
    case InitIssued(sid, token) => m == PairInit(token, sid, true)
    case InitRecorded(sid, token) => m == PairInit(token, sid, true)
    case InitExpiring(sid, token) => m == PairInit(token, sid, true)
    case InitUndone(sid) => m.PairInit?
    case RequestLimited(token) => m == PairRequest(token, true)
    case RequestTokenLimited(token) => m == PairRequest(token, true)
    case RequestConsumed => m.PairRequest?
    case RequestRecorded(sid, _) => m.PairRequest? && Admitted(m.token, answers, sid)
    case RequestChallenged(sid, _) => m.PairRequest? && |answers| == 4 && Admitted(m.token, answers, sid)
    case CompleteSent(sid) => m.PairComplete? && m.to == Some(sid) && op.Send? && op.out.Relayed?
    case CompleteMarked(sid) => m.PairComplete? && m.to == Some(sid)
    case ResumeLimited(device) => m == ResumeRequest(device, true)
    case ResumeTokenLimited(device) => m == ResumeRequest(device, true)
    case CloseRouted(sid) => m.Routable? && m.to == Some(sid) && m.kind == SessionClose && op.Send? && op.out.Relayed?
    case Notified(_) => true
    case Finishing => true
  }

  // A handler waiting for `op`, to go on at `k`.
  ghost predicate Expects(cfg: Config, c: Conn, past: Past, op: Op, k: Cont) {
    && Asks(cfg, c.ws, past, op) && OpFits(c, op, k)
    && Handles(k, past.heard.value.msg, past.answers, op)
  }

  // What a command or send can be answered with.
  predicate CanAnswer(op: Op, reply: Reply) {
    reply == Failed ||
    match op
    case IpLimit => reply == Ok || reply == Blocked
    case TokenLimit(_) => reply == Ok || reply == Blocked
    case IssueToken(_, _) => reply == Ok || reply == Duplicate
    case ConsumeToken(_) => reply == NotFound || reply == AlreadyUsed || reply.Granted?
    case _ => reply == Ok
  }

  // What the `finally` block waits for.
  predicate Farewell(c: Conn, op: Op) {
    (op.Send? && op.out == PeerGone) || (c.session.Some? && op == DeleteRecord(c.session.value))
  }

  ghost predicate Parts(c: Conn, op: Op, k: Cont) {
    Farewell(c, op) && (k.Notified? ==> op.Send?) && (k.Finishing? ==> op.DeleteRecord?)
  }

  ghost predicate OnScript(cfg: Config, c: Conn, past: Past) {
    match c.ctl
    case Awaiting(op, k) => if c.Live() then Expects(cfg, c, past, op, k) else Parts(c, op, k)
    case Resumed(k, reply) =>
      !(k.Loop? && past == Nothing && reply == Ok) ==>
        && past.answers != []
        && var last, before := past.answers[|past.answers| - 1], past.answers[..|past.answers| - 1];
           && last.reply == reply && CanAnswer(last.op, reply)
           && if c.Live() then Expects(cfg, c, past.(answers := before), last.op, k) else Parts(c, last.op, k)
    case _ => true
  }

  lemma OpeningOnScript(t: Table, c: Conn, n: nat, m: Message, now: int, cfg: Config)
    requires c.ctl.Receiving? && (m.PairInit? || m.PairRequest? || m.ResumeInit? || m.ResumeRequest?)
    ensures OnScript(cfg, OnEnvelope(t, c, n, m, now, cfg).conn, Past(Some(Heard(n, m)), []))
  {
  }

  lemma PassingOnScript(t: Table, c: Conn, n: nat, m: Message, now: int, cfg: Config)
    requires c.ctl.Receiving? && !(m.PairInit? || m.PairRequest? || m.ResumeInit? || m.ResumeRequest?)
    ensures OnScript(cfg, OnEnvelope(t, c, n, m, now, cfg).conn, Past(Some(Heard(n, m)), []))
  {
  }

  lemma EnvelopeOnScript(t: Table, c: Conn, n: nat, m: Message, now: int, cfg: Config)
    requires c.ctl.Receiving?
    ensures OnScript(cfg, OnEnvelope(t, c, n, m, now, cfg).conn, Past(Some(Heard(n, m)), []))
  {
    if m.PairInit? || m.PairRequest? || m.ResumeInit? || m.ResumeRequest? {
      OpeningOnScript(t, c, n, m, now, cfg);
    } else {
      PassingOnScript(t, c, n, m, now, cfg);
    }
  }

  lemma InitOnScript(t: Table, c: Conn, now: int, cfg: Config, past: Past)
    requires c.ctl.Resumed? && Shaped(c.ws, c) && OnScript(cfg, c, past)
    requires var k := c.ctl.next; k.InitLimited? || k.InitIssued? || k.InitRecorded? || k.InitExpiring? || k.InitUndone?
    ensures OnScript(cfg, Resume(t, c, c.ctl.next, c.ctl.reply, now, cfg).conn, past)
  {
  }

  lemma RequestOnScript(t: Table, c: Conn, now: int, cfg: Config, past: Past)
    requires c.ctl.Resumed? && Shaped(c.ws, c) && OnScript(cfg, c, past)
    requires c.ctl.next.RequestLimited? || c.ctl.next.RequestTokenLimited?
    ensures OnScript(cfg, Resume(t, c, c.ctl.next, c.ctl.reply, now, cfg).conn, past)
  {
  }

  lemma RedemptionOnScript(t: Table, c: Conn, now: int, cfg: Config, past: Past)
    requires c.ctl.Resumed? && Shaped(c.ws, c) && OnScript(cfg, c, past) && c.ctl.next.RequestConsumed?
    ensures OnScript(cfg, Resume(t, c, c.ctl.next, c.ctl.reply, now, cfg).conn, past)
  {
  }

  lemma ChallengeOnScript(t: Table, c: Conn, now: int, cfg: Config, past: Past)
    requires c.ctl.Resumed? && Shaped(c.ws, c) && OnScript(cfg, c, past)
    requires c.ctl.next.RequestRecorded? || c.ctl.next.RequestChallenged?
    ensures OnScript(cfg, Resume(t, c, c.ctl.next, c.ctl.reply, now, cfg).conn, past)
  {
  }

  lemma RestOnScript(t: Table, c: Conn, now: int, cfg: Config, past: Past)
    requires c.ctl.Resumed? && Shaped(c.ws, c) && OnScript(cfg, c, past)
    requires var k := c.ctl.next;
             k.Loop? || k.CompleteSent? || k.CompleteMarked? || k.CloseRouted? || k.Notified? || k.Finishing?
    ensures OnScript(cfg, Resume(t, c, c.ctl.next, c.ctl.reply, now, cfg).conn, past)
  {
  }

  lemma ResumeLimitOnScript(t: Table, c: Conn, now: int, cfg: Config, past: Past)
    requires c.ctl.Resumed? && Shaped(c.ws, c) && OnScript(cfg, c, past) && c.ctl.next.ResumeLimited?
    ensures OnScript(cfg, Resume(t, c, c.ctl.next, c.ctl.reply, now, cfg).conn, past)
  {
  }

  lemma ResumeSeatOnScript(t: Table, c: Conn, now: int, cfg: Config, past: Past)
    requires c.ctl.Resumed? && Shaped(c.ws, c) && OnScript(cfg, c, past) && c.ctl.next.ResumeTokenLimited?
    ensures OnScript(cfg, Resume(t, c, c.ctl.next, c.ctl.reply, now, cfg).conn, past)
  {
  }

  lemma ResumeOnScript(t: Table, c: Conn, now: int, cfg: Config, past: Past)
    requires c.ctl.Resumed? && Shaped(c.ws, c) && OnScript(cfg, c, past)
    ensures OnScript(cfg, Resume(t, c, c.ctl.next, c.ctl.reply, now, cfg).conn, past)
  {
    var k := c.ctl.next;
    if k.InitLimited? || k.InitIssued? || k.InitRecorded? || k.InitExpiring? || k.InitUndone? {
      InitOnScript(t, c, now, cfg, past);
    } else if k.RequestLimited? || k.RequestTokenLimited? {
      RequestOnScript(t, c, now, cfg, past);
    } else if k.RequestConsumed? {
      RedemptionOnScript(t, c, now, cfg, past);
    } else if k.RequestRecorded? || k.RequestChallenged? {
      ChallengeOnScript(t, c, now, cfg, past);
    } else if k.ResumeLimited? {
      ResumeLimitOnScript(t, c, now, cfg, past);
    } else if k.ResumeTokenLimited? {
      ResumeSeatOnScript(t, c, now, cfg, past);
    } else {
      RestOnScript(t, c, now, cfg, past);
    }
  }

  lemma UnwindOnScript(t: Table, c: Conn, peerOpen: bool, cfg: Config, past: Past)
    ensures OnScript(cfg, Unwind(t, c, peerOpen).conn, past)
  {
  }

  lemma AnswerOnScript(s: State, w: Ws, fault: Fault, past: Past)
    requires Enabled(s, Effect(w, fault)) && s.conns[w].ws == w && OnScript(s.cfg, s.conns[w], past)
    ensures w in Perform(s, w, fault).conns
    ensures OnScript(s.cfg, Perform(s, w, fault).conns[w], PastAfter(s, Effect(w, fault), w, past))
  {
    var c, op := s.conns[w], s.conns[w].ctl.op;
    var reply := ReplyTo(s, op, fault);
    assert CanAnswer(op, reply);
    assert Perform(s, w, fault).conns[w] == c.(ctl := Resumed(c.ctl.next, reply));
    AnswerFits(s.cfg, c, op, reply, past);
  }

  lemma AnswerFits(cfg: Config, c: Conn, op: Op, reply: Reply, past: Past)
    requires c.ctl.Awaiting? && c.ctl.op == op && OnScript(cfg, c, past) && CanAnswer(op, reply)
    ensures OnScript(cfg, c.(ctl := Resumed(c.ctl.next, reply)), past.(answers := past.answers + [Answer(op, reply)]))
  {
    var answers := past.answers + [Answer(op, reply)];
    assert answers[..|answers| - 1] == past.answers;
    assert past.(answers := answers).(answers := past.answers) == past;
    var c1 := c.(ctl := Resumed(c.ctl.next, reply));
    if c1.Live() {
      assert Expects(cfg, c, past, op, c.ctl.next);
      assert OpFits(c1, op, c.ctl.next) == OpFits(c, op, c.ctl.next);
      assert Expects(cfg, c1, past, op, c.ctl.next);
    }
  }

  // The acting connection after a step.
  lemma StepOnScript(s: State, a: Action, past: Past)
    requires Enabled(s, a) && Placed(s.table, s.conns) && !a.Tick?
    requires if a.ws in s.conns then OnScript(s.cfg, s.conns[a.ws], past) else past == Nothing
    ensures a.ws in Apply(s, a).conns && OnScript(s.cfg, Apply(s, a).conns[a.ws], PastAfter(s, a, a.ws, past))
  {
    PlacedIsNamed(s.table, s.conns);
    StepFrame(s, a);
    if a.ws in s.conns {
      var c := s.conns[a.ws];
      assert Shaped(a.ws, c);
      match a
      case Deliver(w, n, m) => EnvelopeOnScript(s.table, c, n, m, s.now, s.cfg);
      case Effect(w, fault) => AnswerOnScript(s, w, fault, past);
      case Run(w, peerOpen) =>
        if c.ctl.Unwinding? {
          UnwindOnScript(s.table, c, peerOpen, s.cfg, past);
        } else {
          ResumeOnScript(s.table, c, s.now, s.cfg, past);
        }
      case _ =>
    }
  }

  lemma {:induction false} RunStaysOnScript(s: State, acts: seq<Action>, w: Ws, past: Past)
    requires Runs(s, acts) && Placed(s.table, s.conns)
    requires if w in s.conns then OnScript(s.cfg, s.conns[w], past) else past == Nothing
    ensures w in After(s, acts).conns ==> OnScript(s.cfg, After(s, acts).conns[w], PastOf(s, acts, w, past))
    ensures Placed(After(s, acts).table, After(s, acts).conns) && After(s, acts).cfg == s.cfg
    decreases |acts|
  {
    if acts != [] {
      var a := acts[0];
      PlacedIsNamed(s.table, s.conns);
      StepFrame(s, a);
      StepKeepsPlaced(s, a);
      if !a.Tick? && a.ws == w {
        StepOnScript(s, a, past);
      }
      RunStaysOnScript(Apply(s, a), acts[1..], w, PastAfter(s, a, w, past));
    }
  }

  /**
   In every run, what a connection waits for is what the script asks after the envelope it delivered
   last and the answers it got since or, once it unwinds, the farewell.
   */
  lemma {:induction false} EveryWaitIsScripted(cfg: Config, start: int, acts: seq<Action>, w: Ws)
    requires Runs(Init(cfg, start), acts)
    requires var s := After(Init(cfg, start), acts); w in s.conns && s.conns[w].ctl.Awaiting?
    ensures var s := After(Init(cfg, start), acts);
            if s.conns[w].Live() then Asks(cfg, w, PastOf(Init(cfg, start), acts, w, Nothing), s.conns[w].ctl.op)
            else Farewell(s.conns[w], s.conns[w].ctl.op)
  {
    RunStaysOnScript(Init(cfg, start), acts, w, Nothing);
    var s := After(Init(cfg, start), acts);
    assert Shaped(w, s.conns[w]);
  }

  lemma ResumeGoesOn(t: Table, c: Conn, now: int, cfg: Config, past: Past)
    requires c.ctl.Resumed? && Shaped(c.ws, c) && OnScript(cfg, c, past) && c.Live() && past.answers != []
    ensures var ctl, last := Resume(t, c, c.ctl.next, c.ctl.reply, now, cfg).conn.ctl, past.answers[|past.answers| - 1];
            && (ctl.Receiving? ==> last.reply == Ok && Concludes(last.op, |past.answers| - 1))
            && (ctl.Unwinding? ==>
                  last.reply == Failed || last.op.DropToken? || last == Answer(Send(c.ws, PairChallenge), Ok))
            && (ctl.Receiving? || ctl.Unwinding? || ctl.Awaiting?)
  {
  }

  /**
   No handler stops half-way: it goes back to listening only when the script has nothing more to ask,
   and gives up only after a failed command or send or, having challenged the client, without its agent.
   */
  lemma {:induction false} HandlersRunToTheEnd(cfg: Config, start: int, acts: seq<Action>, w: Ws, peerOpen: bool)
    requires Runs(Init(cfg, start), acts) && Enabled(After(Init(cfg, start), acts), Run(w, peerOpen))
    requires var s := After(Init(cfg, start), acts); s.conns[w].ctl.Resumed? && s.conns[w].Live()
    requires PastOf(Init(cfg, start), acts, w, Nothing).answers != []
    ensures var answers := PastOf(Init(cfg, start), acts, w, Nothing).answers;
            var s1, last := Apply(After(Init(cfg, start), acts), Run(w, peerOpen)), answers[|answers| - 1];
            && w in s1.conns
            && (s1.conns[w].ctl.Receiving? ==> last.reply == Ok && Concludes(last.op, |answers| - 1))
            && (s1.conns[w].ctl.Unwinding? ==>
                  last.reply == Failed || last.op.DropToken? || last == Answer(Send(w, PairChallenge), Ok))
            && (s1.conns[w].ctl.Receiving? || s1.conns[w].ctl.Unwinding? || s1.conns[w].ctl.Awaiting?)
  {
    RunStaysOnScript(Init(cfg, start), acts, w, Nothing);
    var s := After(Init(cfg, start), acts);
    assert Shaped(w, s.conns[w]);
    PlacedIsNamed(s.table, s.conns);
    StepFrame(s, Run(w, peerOpen));
    ResumeGoesOn(s.table, s.conns[w], s.now, s.cfg, PastOf(Init(cfg, start), acts, w, Nothing));
  }

  /**
   A connection that ends goes on until the deletion of its session's record, if it has a session,
   has been tried, and finishes then.
   */
  lemma {:induction false} FinishesAfterDeletion(cfg: Config, start: int, acts: seq<Action>, w: Ws, peerOpen: bool)
    requires Runs(Init(cfg, start), acts) && Enabled(After(Init(cfg, start), acts), Run(w, peerOpen))
    requires var s := After(Init(cfg, start), acts); s.conns[w].ctl.Unwinding? || !s.conns[w].Live()
    ensures var s, answers := After(Init(cfg, start), acts), PastOf(Init(cfg, start), acts, w, Nothing).answers;
            var c, s1 := s.conns[w], Apply(s, Run(w, peerOpen));
            && w in s1.conns && !s1.conns[w].Live() && (s1.conns[w].ctl.Finished? || s1.conns[w].ctl.Awaiting?)
            && (s1.conns[w].ctl.Finished?
                <==> (c.session.Some? ==>
                        c.ctl.Resumed? && answers != [] && answers[|answers| - 1].op == DeleteRecord(c.session.value)))
  {
    RunStaysOnScript(Init(cfg, start), acts, w, Nothing);
    var s := After(Init(cfg, start), acts);
    assert Shaped(w, s.conns[w]);
    PlacedIsNamed(s.table, s.conns);
    StepFrame(s, Run(w, peerOpen));
  }

  /**
   A token is redeemed only for a connection that asked for it and that both limiters, the address
   limiter first, let through since.
   */
  lemma {:induction false} RedeemsOnlyWithinLimits(cfg: Config, start: int, acts: seq<Action>, w: Ws, token: Token)
    requires Runs(Init(cfg, start), acts)
    requires var s := After(Init(cfg, start), acts);
             w in s.conns && s.conns[w].ctl.Awaiting? && s.conns[w].ctl.op == ConsumeToken(token)
    ensures var past := PastOf(Init(cfg, start), acts, w, Nothing);
            && past.heard.Some? && past.heard.value.msg.PairRequest? && past.heard.value.msg.token == token
            && past.answers == [Answer(IpLimit, Ok), Answer(TokenLimit(token), Ok)]
  {
    EveryWaitIsScripted(cfg, start, acts, w);
  }

  /** A token is issued only to a connection that presented it well-formed and that its address limiter let through. */
  lemma {:induction false} IssuesOnlyWithinLimit(cfg: Config, start: int, acts: seq<Action>, w: Ws, token: Token,
                                                 sid: SessionId)
    requires Runs(Init(cfg, start), acts)
    requires var s := After(Init(cfg, start), acts);
             w in s.conns && s.conns[w].ctl.Awaiting? && s.conns[w].ctl.op == IssueToken(token, sid)
    ensures var past := PastOf(Init(cfg, start), acts, w, Nothing);
            && past.heard.Some? && past.heard.value.msg.PairInit?
            && past.heard.value.msg.token == token && past.heard.value.msg.sid == sid
            && ValidToken(token, cfg.tokenMin, cfg.tokenMax) && past.answers == [Answer(IpLimit, Ok)]
  {
    EveryWaitIsScripted(cfg, start, acts, w);
  }

  // Why a client is bound to `sid`: it redeemed a token for it, or resumed a device waiting there,
  // and both limiters let it through first.
  predicate EarnedSeat(past: Past, devices: map<DeviceId, SessionId>, sid: SessionId) {
    past.heard.Some? &&
    match past.heard.value.msg
    case PairRequest(token, _) =>
      && |past.answers| == 3 && past.answers[..2] == [Answer(IpLimit, Ok), Answer(TokenLimit(token), Ok)]
      && past.answers[2].op == ConsumeToken(token) && past.answers[2].reply.Granted? && past.answers[2].reply.sid == sid
    case ResumeRequest(device, _) =>
      && past.answers == [Answer(IpLimit, Ok), Answer(TokenLimit("resume-" + device), Ok)]
      && device in devices && devices[device] == sid
    case _ => false
  }

  lemma ResumeSeats(t: Table, c: Conn, now: int, cfg: Config, past: Past)
    requires c.ctl.Resumed? && Shaped(c.ws, c) && OnScript(cfg, c, past) && c.role == Client && c.session.None?
    ensures var c1 := Resume(t, c, c.ctl.next, c.ctl.reply, now, cfg).conn;
            c1.session.Some? ==> EarnedSeat(past, t.devices, c1.session.value)
  {
    if !Moves(c.ctl.next, c.ctl.reply) {
      ResumeStays(t, c, now, cfg);
    }
  }

  /** Over every run, no client takes a seat in a session before the limiters let its request through. */
  lemma {:induction false} SeatsAreEarned(cfg: Config, start: int, acts: seq<Action>, a: Action, w: Ws)
    requires Runs(Init(cfg, start), acts) && Enabled(After(Init(cfg, start), acts), a)
    requires var s := After(Init(cfg, start), acts);
             && w in s.conns && s.conns[w].role == Client && s.conns[w].session.None?
             && w in Apply(s, a).conns && Apply(s, a).conns[w].session.Some?
    ensures var s := After(Init(cfg, start), acts);
            EarnedSeat(PastOf(Init(cfg, start), acts, w, Nothing), s.table.devices, Apply(s, a).conns[w].session.value)
  {
    RunStaysOnScript(Init(cfg, start), acts, w, Nothing);
    var s := After(Init(cfg, start), acts);
    var c := s.conns[w];
    assert Shaped(w, c);
    PlacedIsNamed(s.table, s.conns);
    StepFrame(s, a);
    if a.Deliver? {
      EnvelopeStays(s.table, c, a.n, a.msg, s.now, s.cfg);
    } else if a.Run? && c.ctl.Resumed? {
      ResumeSeats(s.table, c, s.now, s.cfg, PastOf(Init(cfg, start), acts, w, Nothing));
    }
  }
}
