/**
 Pairing tokens over whole runs, with no assumption on session ids: each issuance is consumed at
 most once, while unexpired, and binds at most one client, which then sits opposite an agent.
 */
module RelayTokens {
  import opened Prelude
  import opened RoutingTable
  import opened Pairing
  import opened Router
  import opened Relay
  import opened RelayPlacement
  import opened RelayRouting
  import opened RelayTraffic

  ghost predicate WasConsumed(log: seq<Event>, sid: SessionId, serial: nat, w: Ws) {
    exists at :: Consumed(sid, serial, w, at) in log
  }

  // A consumption finds its issuance, unexpired; a binding finds its consumption.
  ghost predicate Justified(log: seq<Event>, i: nat, ttl: int)
    requires i < |log|
  {
    match log[i]
    case Consumed(sid, serial, _, at) =>
      exists token, issuedAt :: Issued(sid, token, serial, issuedAt) in log[..i] && issuedAt <= at < issuedAt + ttl
    case Bound(sid, serial, _, client) => WasConsumed(log[..i], sid, serial, client)
    case _ => true
  }

  // Two entries that would spend the same issuance twice.
  ghost predicate Repeats(e: Event, f: Event) {
    || (e.Issued? && f.Issued? && e.serial == f.serial)
    || (e.Consumed? && f.Consumed? && e.serial == f.serial)
    || (e.Bound? && f.Bound? && e.serial == f.serial)
  }

  ghost predicate NoRepeats(log: seq<Event>) {
    forall i, j :: 0 <= i < j < |log| ==> !Repeats(log[i], log[j])
  }

  ghost predicate SerialBelow(e: Event, n: nat) {
    e.Issued? || e.Consumed? || e.Bound? ==> e.serial < n
  }

  ghost predicate Unspent(log: seq<Event>, serial: nat) {
    forall e :: e in log ==> !(e.Consumed? && e.serial == serial)
  }

  ghost predicate Unbound(log: seq<Event>, serial: nat) {
    forall e :: e in log ==> !(e.Bound? && e.serial == serial)
  }

  ghost predicate EntryOk(log: seq<Event>, token: Token, e: TokenEntry, ttl: int, now: int) {
    && (exists issuedAt ::
          Issued(e.sid, token, e.serial, issuedAt) in log && e.expiresAt == issuedAt + ttl && issuedAt <= now)
    && (!e.consumed ==> Unspent(log, e.serial))
  }

  ghost predicate GrantOk(log: seq<Event>, c: Conn) {
    HoldsGrant(c) ==> WasConsumed(log, c.ctl.reply.sid, c.ctl.reply.serial, c.ws) && Unbound(log, c.ctl.reply.serial)
  }

  ghost predicate TokensOk(s: State) {
    && (forall token :: token in s.store.tokens ==> EntryOk(s.log, token, s.store.tokens[token], s.cfg.tokenTtl, s.now))
    && (forall w :: w in s.conns ==> s.conns[w].ws == w && GrantOk(s.log, s.conns[w]))
    && (forall e :: e in s.log ==> SerialBelow(e, s.store.issued))
    && NoRepeats(s.log)
    && (forall i :: 0 <= i < |s.log| ==> Justified(s.log, i, s.cfg.tokenTtl))
  }

  lemma AppendJustified(log: seq<Event>, e: Event, ttl: int)
    requires forall i :: 0 <= i < |log| ==> Justified(log, i, ttl)
    requires Justified(log + [e], |log|, ttl)
    ensures forall i :: 0 <= i < |log + [e]| ==> Justified(log + [e], i, ttl)
  {
    forall i | 0 <= i < |log + [e]| ensures Justified(log + [e], i, ttl) {
      if i < |log| {
        assert Justified(log, i, ttl) && (log + [e])[..i] == log[..i] && (log + [e])[i] == log[i];
      }
    }
  }

  lemma AppendFresh(log: seq<Event>, e: Event)
    requires NoRepeats(log) && forall f :: f in log ==> !Repeats(f, e)
    ensures NoRepeats(log + [e])
  {
  }

  // A longer log keeps what the entries and the grants need, unless it spends or binds.
  lemma ExtendEntry(log: seq<Event>, e: Event, token: Token, entry: TokenEntry, ttl: int, now: int)
    requires EntryOk(log, token, entry, ttl, now) && !(e.Consumed? && e.serial == entry.serial)
    ensures EntryOk(log + [e], token, entry, ttl, now)
  {
    var at :| Issued(entry.sid, token, entry.serial, at) in log && entry.expiresAt == at + ttl && at <= now;
    assert Issued(entry.sid, token, entry.serial, at) in log + [e];
  }

  lemma ExtendGrant(log: seq<Event>, e: Event, c: Conn)
    requires GrantOk(log, c) && !(HoldsGrant(c) && e.Bound? && e.serial == c.ctl.reply.serial)
    ensures GrantOk(log + [e], c)
  {
    if HoldsGrant(c) {
      var at :| Consumed(c.ctl.reply.sid, c.ctl.reply.serial, c.ws, at) in log;
      assert Consumed(c.ctl.reply.sid, c.ctl.reply.serial, c.ws, at) in log + [e];
    }
  }

  lemma SegmentGrantsNothing(s: State, a: Action)
    requires Enabled(s, a) && IsSegment(a)
    ensures !HoldsGrant(SegmentOf(s, a).conn)
  {
    if a.Deliver? {
      EnvelopeGrantsNothing(s.table, s.conns[a.ws], a.n, a.msg, s.now, s.cfg);
    } else if a.Run? && s.conns[a.ws].ctl.Resumed? {
      ResumeGrantsNothing(s.table, s.conns[a.ws], s.now, s.cfg);
    }
  }

  lemma EnvelopeGrantsNothing(t: Table, c: Conn, n: nat, m: Message, now: int, cfg: Config)
    requires c.ctl.Receiving?
    ensures !HoldsGrant(OnEnvelope(t, c, n, m, now, cfg).conn)
  {
  }

  lemma ResumeGrantsNothing(t: Table, c: Conn, now: int, cfg: Config)
    requires c.ctl.Resumed?
    ensures !HoldsGrant(Resume(t, c, c.ctl.next, c.ctl.reply, now, cfg).conn)
  {
  }

  lemma QuietKeepsTokens(s: State, a: Action)
    requires Enabled(s, a) && Placed(s.table, s.conns) && TokensOk(s) && !a.Effect? && EventsOfStep(s, a) == []
    ensures TokensOk(Apply(s, a))
  {
    PlacedIsNamed(s.table, s.conns);
    StepFrame(s, a);
    StepLogs(s, a);
    assert Apply(s, a).log == s.log;
    if IsSegment(a) {
      SegmentGrantsNothing(s, a);
    }
    forall token | token in s.store.tokens ensures EntryOk(s.log, token, s.store.tokens[token], s.cfg.tokenTtl,
                                                           Apply(s, a).now) {
      assert EntryOk(s.log, token, s.store.tokens[token], s.cfg.tokenTtl, s.now);
    }
  }

  lemma SegmentKeepsTokens(s: State, a: Action)
    requires Enabled(s, a) && Placed(s.table, s.conns) && TokensOk(s) && IsSegment(a) && EventsOfStep(s, a) != []
    ensures TokensOk(Apply(s, a))
  {
    PlacedIsNamed(s.table, s.conns);
    StepFrame(s, a);
    StepLogs(s, a);
    StepExplained(s, a);
    SegmentGrantsNothing(s, a);
    var e := EventsOfStep(s, a)[0];
    assert EventsOfStep(s, a) == [e] && Explained(s, a, e);
    ExtendTokens(s, a, Apply(s, a), e);
  }

  lemma ExtendTokens(s: State, a: Action, s1: State, e: Event)
    requires Enabled(s, a) && IsSegment(a) && TokensOk(s) && Explained(s, a, e)
    requires s1.store == s.store && s1.cfg == s.cfg && s1.now == s.now && s1.log == s.log + [e]
    requires a.ws in s1.conns && s1.conns == s.conns[a.ws := s1.conns[a.ws]] && s1.conns[a.ws].ws == a.ws
    requires !HoldsGrant(s1.conns[a.ws])
    ensures TokensOk(s1)
  {
    forall token | token in s1.store.tokens ensures EntryOk(s1.log, token, s1.store.tokens[token], s1.cfg.tokenTtl,
        s1.now) {
      ExtendEntry(s.log, e, token, s.store.tokens[token], s.cfg.tokenTtl, s.now);
    }
    if e.Bound? {
      BindSpends(s, a, e);
    }
    forall w | w in s1.conns ensures s1.conns[w].ws == w && GrantOk(s1.log, s1.conns[w]) {
      if w != a.ws {
        ExtendGrant(s.log, e, s.conns[w]);
      }
    }
    assert s1.log[..|s.log|] == s.log;
    AppendJustified(s.log, e, s.cfg.tokenTtl);
    AppendFresh(s.log, e);
  }

  lemma SameEntry(log: seq<Event>, e: Event, f: Event)
    requires NoRepeats(log) && e in log && f in log && Repeats(e, f)
    ensures e == f
  {
    var i :| 0 <= i < |log| && log[i] == e;
    var j :| 0 <= j < |log| && log[j] == f;
  }

  lemma BindSpends(s: State, a: Action, e: Event)
    requires TokensOk(s) && a.Run? && a.ws in s.conns && HoldsGrant(s.conns[a.ws]) && e.Bound?
    requires e.serial == s.conns[a.ws].ctl.reply.serial && e.sid == s.conns[a.ws].ctl.reply.sid && e.client == a.ws
    ensures WasConsumed(s.log, e.sid, e.serial, e.client) && e.serial < s.store.issued
    ensures forall f :: f in s.log ==> !Repeats(f, e)
    ensures forall w :: w in s.conns && w != a.ws && HoldsGrant(s.conns[w]) ==> s.conns[w].ctl.reply.serial != e.serial
  {
    assert GrantOk(s.log, s.conns[a.ws]);
    var at :| Consumed(e.sid, e.serial, e.client, at) in s.log;
    var c := Consumed(e.sid, e.serial, e.client, at);
    assert SerialBelow(c, s.store.issued);
    forall w | w in s.conns && w != a.ws && HoldsGrant(s.conns[w]) ensures s.conns[w].ctl.reply.serial != e.serial {
      assert GrantOk(s.log, s.conns[w]);
      var r := s.conns[w].ctl.reply;
      var at' :| Consumed(r.sid, r.serial, w, at') in s.log;
      if r.serial == e.serial {
        SameEntry(s.log, c, Consumed(r.sid, r.serial, w, at'));
        assert false;
      }
    }
  }

  lemma EffectKeepsTokens(s: State, w: Ws, fault: Fault)
    requires Enabled(s, Effect(w, fault)) && TokensOk(s)
    ensures TokensOk(Perform(s, w, fault))
  {
    if fault == Lost(false) || EventsOf(s, w, s.conns[w].ctl.op) == [] {
      SilentEffectKeepsTokens(s, w, fault);
    } else if s.conns[w].ctl.op.IssueToken? {
      IssueKeepsTokens(s, w, fault);
    } else {
      ConsumeKeepsTokens(s, w, fault);
    }
  }

  lemma SilentEffectKeepsTokens(s: State, w: Ws, fault: Fault)
    requires Enabled(s, Effect(w, fault)) && TokensOk(s)
    requires fault == Lost(false) || EventsOf(s, w, s.conns[w].ctl.op) == []
    ensures TokensOk(Perform(s, w, fault))
  {
    var s1 := Perform(s, w, fault);
    assert s1.log == s.log;
    forall token | token in s1.store.tokens ensures EntryOk(s1.log, token, s1.store.tokens[token], s1.cfg.tokenTtl,
        s1.now) {
      assert EntryOk(s.log, token, s.store.tokens[token], s.cfg.tokenTtl, s.now);
    }
  }

  lemma IssueKeepsTokens(s: State, w: Ws, fault: Fault)
    requires Enabled(s, Effect(w, fault)) && TokensOk(s) && s.conns[w].ctl.op.IssueToken?
    requires fault != Lost(false) && EventsOf(s, w, s.conns[w].ctl.op) != []
    ensures TokensOk(Perform(s, w, fault))
  {
    var s1 := Perform(s, w, fault);
    var op := s.conns[w].ctl.op;
    var e := Issued(op.sid, op.token, s.store.issued, s.now);
    assert s1.log == s.log + [e];
    forall token | token in s1.store.tokens ensures EntryOk(s1.log, token, s1.store.tokens[token], s1.cfg.tokenTtl,
        s1.now) {
      if token == op.token {
        assert e in s1.log;
        forall f | f in s1.log ensures !(f.Consumed? && f.serial == s.store.issued) {
          assert f in s.log ==> SerialBelow(f, s.store.issued);
        }
      } else {
        ExtendEntry(s.log, e, token, s.store.tokens[token], s.cfg.tokenTtl, s.now);
      }
    }
    forall v | v in s1.conns ensures GrantOk(s1.log, s1.conns[v]) && s1.conns[v].ws == v {
      if v != w {
        ExtendGrant(s.log, e, s.conns[v]);
      }
    }
    forall f | f in s.log ensures !Repeats(f, e) {
      assert SerialBelow(f, s.store.issued);
    }
    AppendFresh(s.log, e);
    AppendJustified(s.log, e, s.cfg.tokenTtl);
  }

  lemma ConsumeKeepsTokens(s: State, w: Ws, fault: Fault)
    requires Enabled(s, Effect(w, fault)) && TokensOk(s) && s.conns[w].ctl.op.ConsumeToken?
    requires fault != Lost(false) && EventsOf(s, w, s.conns[w].ctl.op) != []
    ensures TokensOk(Perform(s, w, fault))
  {
    var s1 := Perform(s, w, fault);
    var token := s.conns[w].ctl.op.token;
    var entry := s.store.tokens[token];
    var e := Consumed(entry.sid, entry.serial, w, s.now);
    assert s1.log == s.log + [e];
    var at := IssuanceOf(s, token);
    assert (s.log + [e])[..|s.log|] == s.log && Issued(entry.sid, token, entry.serial, at) in s.log;
    assert Justified(s.log + [e], |s.log|, s.cfg.tokenTtl);
    SerialsDiffer(s, token);
    forall t | t in s1.store.tokens ensures EntryOk(s1.log, t, s1.store.tokens[t], s1.cfg.tokenTtl, s1.now) {
      if t == token {
        assert Issued(entry.sid, token, entry.serial, at) in s1.log;
      } else {
        ExtendEntry(s.log, e, t, s.store.tokens[t], s.cfg.tokenTtl, s.now);
      }
    }
    forall v | v in s1.conns ensures GrantOk(s1.log, s1.conns[v]) && s1.conns[v].ws == v {
      if v != w {
        ExtendGrant(s.log, e, s.conns[v]);
      } else if HoldsGrant(s1.conns[w]) {
        assert e in s1.log;
        NeverBound(s, token);
      }
    }
    AppendFresh(s.log, e);
    AppendJustified(s.log, e, s.cfg.tokenTtl);
    forall f | f in s1.log ensures SerialBelow(f, s1.store.issued) {
      assert f in s.log || f == e;
      assert SerialBelow(Issued(entry.sid, token, entry.serial, at), s.store.issued);
    }
  }

  lemma IssuanceOf(s: State, token: Token) returns (at: int)
    requires TokensOk(s) && token in s.store.tokens
    ensures var e := s.store.tokens[token];
            Issued(e.sid, token, e.serial, at) in s.log && e.expiresAt == at + s.cfg.tokenTtl && at <= s.now
  {
    var e := s.store.tokens[token];
    assert EntryOk(s.log, token, e, s.cfg.tokenTtl, s.now);
    at :| Issued(e.sid, token, e.serial, at) in s.log && e.expiresAt == at + s.cfg.tokenTtl && at <= s.now;
  }

  // Two tokens never share an issuance.
  lemma SerialsDiffer(s: State, token: Token)
    requires TokensOk(s) && token in s.store.tokens
    ensures forall t :: t in s.store.tokens && t != token ==> s.store.tokens[t].serial != s.store.tokens[token].serial
  {
    forall t | t in s.store.tokens && t != token ensures s.store.tokens[t].serial != s.store.tokens[token].serial {
      var at := IssuanceOf(s, token);
      var at' := IssuanceOf(s, t);
      var e, f := s.store.tokens[token], s.store.tokens[t];
      if e.serial == f.serial {
        SameEntry(s.log, Issued(e.sid, token, e.serial, at), Issued(f.sid, t, f.serial, at'));
        assert false;
      }
    }
  }

  // An unspent issuance was never bound: a binding would have found a consumption.
  lemma NeverBound(s: State, token: Token)
    requires TokensOk(s) && token in s.store.tokens && !s.store.tokens[token].consumed
    ensures Unbound(s.log, s.store.tokens[token].serial)
  {
    var serial := s.store.tokens[token].serial;
    assert EntryOk(s.log, token, s.store.tokens[token], s.cfg.tokenTtl, s.now);
    forall e | e in s.log && e.Bound? ensures e.serial != serial {
      var at := ConsumptionOf(s, e);
    }
  }

  lemma ConsumptionOf(s: State, e: Event) returns (at: int)
    requires TokensOk(s) && e in s.log && e.Bound?
    ensures Consumed(e.sid, e.serial, e.client, at) in s.log
  {
    var i :| 0 <= i < |s.log| && s.log[i] == e;
    assert Justified(s.log, i, s.cfg.tokenTtl);
    at :| Consumed(e.sid, e.serial, e.client, at) in s.log[..i];
  }

  lemma {:induction false} RunKeepsTokens(s: State, acts: seq<Action>)
    requires Runs(s, acts) && Placed(s.table, s.conns) && TokensOk(s)
    ensures TokensOk(After(s, acts))
    decreases |acts|
  {
    if acts != [] {
      StepKeepsPlaced(s, acts[0]);
      if acts[0].Effect? {
        EffectKeepsTokens(s, acts[0].ws, acts[0].fault);
      } else if EventsOfStep(s, acts[0]) == [] {
        QuietKeepsTokens(s, acts[0]);
      } else {
        SegmentKeepsTokens(s, acts[0]);
      }
      RunKeepsTokens(Apply(s, acts[0]), acts[1..]);
    }
  }

  /** Over any run: one consumption and one binding per issuance, each after and because of the other. */
  lemma {:induction false} IssuancesAreSpentOnce(cfg: Config, start: int, acts: seq<Action>)
    requires Runs(Init(cfg, start), acts)
    ensures NoRepeats(After(Init(cfg, start), acts).log)
    ensures var log := After(Init(cfg, start), acts).log; forall i :: 0 <= i < |log| ==> Justified(log, i, cfg.tokenTtl)
  {
    RunKeepsTokens(Init(cfg, start), acts);
    RunKeepsCfg(Init(cfg, start), acts);
  }

  lemma {:induction false} RunKeepsCfg(s: State, acts: seq<Action>)
    requires Runs(s, acts)
    ensures After(s, acts).cfg == s.cfg
    decreases |acts|
  {
    if acts != [] {
      RunKeepsCfg(Apply(s, acts[0]), acts[1..]);
    }
  }

  /** The binding instant: both sockets are seated, and in a fresh run the agent is the session's own. */
  lemma {:induction false} BindingMeetsItsAgent(cfg: Config, start: int, acts: seq<Action>, a: Action)
    requires var s := Init(cfg, start); Runs(s, acts) && Enabled(After(s, acts), a)
    requires var s := After(Init(cfg, start), acts); |EventsOfStep(s, a)| == 1 && EventsOfStep(s, a)[0].Bound?
    ensures var s := After(Init(cfg, start), acts);
            var e, s1 := EventsOfStep(s, a)[0], Apply(s, a);
            && e.client == a.ws && s1.conns[a.ws].session == Some(e.sid)
            && e.sid in s1.table.slots && s1.table.slots[e.sid].agent == Some(e.agent)
              && s1.table.slots[e.sid].client == Some(e.client)
            && Seated(s1.conns, e.sid, Agent, e.agent)
            && (FreshRun(Init(cfg, start), acts) ==> e.sid in s.hist && s.hist[e.sid].owner == e.agent)
  {
    var s := After(Init(cfg, start), acts);
    RunKeepsPlaced(Init(cfg, start), acts);
    StepKeepsPlaced(s, a);
    BindStep(s, a);
    if FreshRun(Init(cfg, start), acts) {
      RunKeepsLog(Init(cfg, start), acts);
      var e := EventsOfStep(s, a)[0];
      assert ConnOk(s.table, s.hist, e.agent, s.conns[e.agent]);
    }
  }

  lemma BindStep(s: State, a: Action)
    requires Enabled(s, a) && Placed(s.table, s.conns) && |EventsOfStep(s, a)| == 1 && EventsOfStep(s, a)[0].Bound?
    ensures var e, s1 := EventsOfStep(s, a)[0], Apply(s, a);
            && a.Run? && e.client == a.ws && s1.conns[a.ws].session == Some(e.sid)
            && e.sid in s1.table.slots && s1.table.slots[e.sid].agent == Some(e.agent)
              && s1.table.slots[e.sid].client == Some(e.client)
            && e.sid in s.table.slots && Seated(s.conns, e.sid, Agent, e.agent) && e.agent != a.ws
            && Seated(s1.conns, e.sid, Agent, e.agent)
  {
    StepExplained(s, a);
    var e := EventsOfStep(s, a)[0];
    assert Explained(s, a, e);
    assert SlotSeated(s.conns, e.sid, s.table.slots[e.sid]);
  }
}
