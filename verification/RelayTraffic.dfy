/**
 What the log of a run says. With fresh session ids, routable envelopes pass only between the two
 sockets of the session's latest completed handshake and never after its teardown; a saved device
 is filed under one session whose agent is there. With or without freshness, what one socket gets
 forwarded carries strictly increasing sequence numbers.
 */
module RelayTraffic {
  import opened Prelude
  import opened RoutingTable
  import opened Pairing
  import opened Router
  import opened Relay
  import opened RelayPlacement
  import opened RelayRouting

  function LatestComplete(log: seq<Event>, sid: SessionId): Option<(Ws, Ws)> {
    if log == [] then None
    else
      var e := log[|log| - 1];
      if e.Completed? && e.sid == sid then Some((e.agent, e.client)) else LatestComplete(log[..|log| - 1], sid)
  }

  // Entry `i`, if it forwards, stays within the pair that completed last, before any teardown.
  ghost predicate FaithfulEntry(log: seq<Event>, i: nat)
    requires i < |log|
  {
    log[i].Forwarded? ==>
      var e, pair := log[i], LatestComplete(log[..i], log[i].sid);
      && pair.Some? && ((e.from, e.to) == pair.value || (e.to, e.from) == pair.value)
      && Removed(e.sid) !in log[..i]
  }

  ghost predicate Matches(h: History, log: seq<Event>) {
    forall sid :: MatchesAt(h, log, sid)
  }

  ghost predicate MatchesAt(h: History, log: seq<Event>, sid: SessionId) {
    if sid in h then h[sid].completed == LatestComplete(log, sid) && (h[sid].removed <==> Removed(sid) in log)
    else LatestComplete(log, sid).None? && Removed(sid) !in log
  }

  ghost predicate FaithfulLog(s: State) {
    Matches(s.hist, s.log) && forall i :: 0 <= i < |s.log| ==> FaithfulEntry(s.log, i)
  }

  lemma NoteMatches(h: History, log: seq<Event>, e: Event)
    requires Matches(h, log)
    requires e.Claimed? ==> e.sid !in h
    requires e.Completed? || e.Removed? ==> e.sid in h
    ensures Matches(Note(h, e), log + [e])
  {
    forall sid ensures MatchesAt(Note(h, e), log + [e], sid) {
      assert MatchesAt(h, log, sid);
      assert (log + [e])[..|log|] == log;
    }
  }

  lemma AppendEntry(log: seq<Event>, e: Event)
    requires forall i :: 0 <= i < |log| ==> FaithfulEntry(log, i)
    requires FaithfulEntry(log + [e], |log|)
    ensures forall i :: 0 <= i < |log + [e]| ==> FaithfulEntry(log + [e], i)
  {
    forall i | 0 <= i < |log + [e]| ensures FaithfulEntry(log + [e], i) {
      if i < |log| {
        assert FaithfulEntry(log, i) && (log + [e])[..i] == log[..i];
      }
    }
  }

  // What a step writes to the log.
  function EventsOfStep(s: State, a: Action): seq<Event>
    requires Enabled(s, a)
  {
    if IsSegment(a) then SegmentOf(s, a).events
    else if a.Effect? && a.fault != Lost(false) then EventsOf(s, a.ws, s.conns[a.ws].ctl.op)
    else []
  }

  lemma StepLogs(s: State, a: Action)
    requires Enabled(s, a)
    ensures Apply(s, a).log == s.log + EventsOfStep(s, a)
    ensures Apply(s, a).hist == NoteAll(s.hist, EventsOfStep(s, a))
    ensures |EventsOfStep(s, a)| <= 1
  {
    assert s.log + [] == s.log && NoteAll(s.hist, []) == s.hist;
    if IsSegment(a) {
      StepIsCommit(s, a);
      SegmentSocket(s, a);
    }
  }

  // Which events a received envelope can cause.
  lemma EnvelopeEvents(t: Table, c: Conn, n: nat, m: Message, now: int, cfg: Config)
    requires c.ctl.Receiving?
    ensures var events := OnEnvelope(t, c, n, m, now, cfg).events;
            events == [] || (|events| == 1 &&
              match events[0]
              case Claimed(sid, agent, _) => ClaimsSession(c, n, m) && sid == m.sid && agent == c.ws
              case Completed(sid, agent, client) =>
                n > c.lastSeq && c.role == Agent && c.session == Some(sid) && agent == c.ws
                  && t.Peer(sid, Agent) == Some(client)
              case Forwarded(sid, from, to, number) =>
                n > c.lastSeq && number == n && c.session == Some(sid) && from == c.ws
                  && t.Peer(sid, c.role) == Some(to)
                && t.slots[sid].phase == Established
              case _ => false)
  {
  }

  // Which events a resumed handler can cause.
  lemma ResumeEvents(t: Table, c: Conn, now: int, cfg: Config)
    requires c.ctl.Resumed? && Shaped(c.ws, c)
    ensures var events := Resume(t, c, c.ctl.next, c.ctl.reply, now, cfg).events;
            events == [] || (|events| == 1 &&
              match events[0]
              case Bound(sid, serial, agent, client) =>
                HoldsGrant(c) && c.ctl.reply == Granted(sid, serial) && client == c.ws
                  && t.Peer(sid, Client) == Some(agent)
              case Removed(sid) => c.session == Some(sid)
              case _ => false)
  {
  }

  lemma UnwindEvents(t: Table, c: Conn, peerOpen: bool)
    ensures var events := Unwind(t, c, peerOpen).events;
            events == [] || (c.session.Some? && events == [Removed(c.session.value)])
  {
  }

  ghost predicate Explained(s: State, a: Action, e: Event)
    requires Enabled(s, a)
  {
    match e
    case Claimed(sid, agent, _) => ClaimOf(s, a) == Some(sid) && agent == a.ws
    case Completed(sid, agent, client) =>
      a.Deliver? && s.conns[a.ws].role == Agent && s.conns[a.ws].session == Some(sid) && agent == a.ws
        && s.table.Peer(sid, Agent) == Some(client)
    case Forwarded(sid, from, to, n) =>
      && a.Deliver? && a.n == n && n > s.conns[a.ws].lastSeq && from == a.ws
      && s.conns[a.ws].session == Some(sid) && s.table.Peer(sid, s.conns[a.ws].role) == Some(to)
        && s.table.slots[sid].phase == Established
    case Bound(sid, serial, agent, client) =>
      && a.Run? && HoldsGrant(s.conns[a.ws]) && s.conns[a.ws].ctl.reply == Granted(sid, serial) && client == a.ws
      && s.table.Peer(sid, Client) == Some(agent)
    case Removed(sid) => a.Run? && s.conns[a.ws].session == Some(sid)
    case Issued(_, _, _, _) => a.Effect?
    case Consumed(_, _, _, _) => a.Effect?
  }

  lemma StepExplained(s: State, a: Action)
    requires Enabled(s, a) && forall w :: w in s.conns ==> Shaped(w, s.conns[w])
    ensures forall e :: e in EventsOfStep(s, a) ==> Explained(s, a, e)
  {
    if a.Deliver? {
      EnvelopeEvents(s.table, s.conns[a.ws], a.n, a.msg, s.now, s.cfg);
    } else if a.Run? && s.conns[a.ws].ctl.Resumed? {
      ResumeEvents(s.table, s.conns[a.ws], s.now, s.cfg);
    } else if a.Run? {
      UnwindEvents(s.table, s.conns[a.ws], a.peerOpen);
    }
  }

  // A forwarded envelope goes from one side of the latest completed pair to the other.
  lemma ForwardIsFaithful(s: State, a: Action, e: Event)
    requires Enabled(s, a) && GoodState(s) && e.Forwarded? && Explained(s, a, e)
    ensures && e.sid in s.hist && !s.hist[e.sid].removed && s.hist[e.sid].completed.Some?
            && ((e.from, e.to) == s.hist[e.sid].completed.value || (e.to, e.from) == s.hist[e.sid].completed.value)
  {
    var c := s.conns[a.ws];
    assert ConnOk(s.table, s.hist, a.ws, c) && SlotOk(s.hist, e.sid, s.table.slots[e.sid]);
  }

  lemma StepKeepsLog(s: State, a: Action)
    requires Enabled(s, a) && Fresh(s, a) && GoodState(s) && FaithfulLog(s)
    ensures FaithfulLog(Apply(s, a))
  {
    StepLogs(s, a);
    var events := EventsOfStep(s, a);
    if events == [] {
      assert s.log + [] == s.log && NoteAll(s.hist, []) == s.hist;
    } else {
      var e := events[0];
      assert events == [e];
      NoteOne(s.hist, e);
      StepExplained(s, a);
      assert Explained(s, a, e);
      assert e.Completed? || e.Removed? ==> ConnOk(s.table, s.hist, a.ws, s.conns[a.ws]);
      NoteMatches(s.hist, s.log, e);
      if e.Forwarded? {
        ForwardIsFaithful(s, a, e);
        assert MatchesAt(s.hist, s.log, e.sid);
      }
      assert (s.log + [e])[..|s.log|] == s.log;
      AppendEntry(s.log, e);
    }
  }

  lemma {:induction false} RunKeepsLog(s: State, acts: seq<Action>)
    requires Runs(s, acts) && FreshRun(s, acts) && GoodState(s) && FaithfulLog(s)
    ensures FaithfulLog(After(s, acts)) && GoodState(After(s, acts))
    decreases |acts|
  {
    if acts != [] {
      StepKeepsGood(s, acts[0]);
      StepKeepsLog(s, acts[0]);
      RunKeepsLog(Apply(s, acts[0]), acts[1..]);
    }
  }

  /** Every forwarded envelope of every fresh run. */
  lemma {:induction false} RoutingIsFaithful(cfg: Config, start: int, acts: seq<Action>, i: nat)
    requires Runs(Init(cfg, start), acts) && FreshRun(Init(cfg, start), acts)
    requires i < |After(Init(cfg, start), acts).log|
    ensures FaithfulEntry(After(Init(cfg, start), acts).log, i)
  {
    RunKeepsLog(Init(cfg, start), acts);
  }

  /** A completion names the two sockets seated in the session at that moment. */
  lemma {:induction false} CompletionNamesSeated(cfg: Config, start: int, acts: seq<Action>, a: Action)
    requires var s := Init(cfg, start); Runs(s, acts) && FreshRun(s, acts) && Enabled(After(s, acts), a)
    requires var s := After(Init(cfg, start), acts); |EventsOfStep(s, a)| == 1 && EventsOfStep(s, a)[0].Completed?
    ensures var s := After(Init(cfg, start), acts);
            var e := EventsOfStep(s, a)[0];
            && e.sid in s.table.slots && s.table.slots[e.sid].agent == Some(e.agent)
              && s.table.slots[e.sid].client == Some(e.client)
            && e.sid in s.hist && s.hist[e.sid].owner == e.agent
  {
    RunKeepsLog(Init(cfg, start), acts);
    CompletionStep(After(Init(cfg, start), acts), a);
  }

  lemma CompletionStep(s: State, a: Action)
    requires Enabled(s, a) && GoodState(s) && |EventsOfStep(s, a)| == 1 && EventsOfStep(s, a)[0].Completed?
    ensures var e := EventsOfStep(s, a)[0];
            && e.sid in s.table.slots && s.table.slots[e.sid].agent == Some(e.agent)
              && s.table.slots[e.sid].client == Some(e.client)
            && e.sid in s.hist && s.hist[e.sid].owner == e.agent
  {
    StepExplained(s, a);
    assert Explained(s, a, EventsOfStep(s, a)[0]);
    assert ConnOk(s.table, s.hist, a.ws, s.conns[a.ws]);
  }

  /** The device index of every fresh run. */
  lemma {:induction false} DeviceIndexIsExact(cfg: Config, start: int, acts: seq<Action>, d: DeviceId, d': DeviceId)
    requires Runs(Init(cfg, start), acts) && FreshRun(Init(cfg, start), acts)
    requires d in After(Init(cfg, start), acts).table.devices
    ensures var s := After(Init(cfg, start), acts);
            var sid := s.table.devices[d];
            && (d' in s.table.devices && s.table.devices[d'] == sid ==> d' == d)
            && sid in s.hist
            && ((sid in s.table.slots && s.table.slots[sid].agent.Some?)
                || BetweenDetachAndRemove(s.conns, sid, s.hist[sid].owner))
  {
    RunKeepsLog(Init(cfg, start), acts);
    var s := After(Init(cfg, start), acts);
    assert DeviceOk(s.table, s.hist, s.conns, d, s.table.devices[d]);
    assert d' in s.table.devices ==> DeviceOk(s.table, s.hist, s.conns, d', s.table.devices[d']);
  }

  // ----- rejected resume_init

  predicate SameEntries(t: Table, t1: Table) {
    t1.slots == t.slots && t1.devices == t.devices
  }

  // A rejected resume_init leaves the table alone exactly when its id is new, or names a session
  // that has lost its agent while waiting: `detach` runs even when it was the attach that failed.
  lemma {:induction false} RejectedResumeInitExactly(t: Table, c: Conn, m: Message)
    requires c.role == Agent && c.session.None? && m.ResumeInit? && m.fieldsOk
    requires OnResumeInit(t, c, m).conn.session.None?
    ensures SameEntries(t, OnResumeInit(t, c, m).table)
       <==> || m.sid !in t.slots
            || (t.slots[m.sid].agent.None? && t.slots[m.sid].client.Some? && t.slots[m.sid].phase == WaitingResume)
  {
    var t1 := OnResumeInit(t, c, m).table;
    if m.sid !in t.slots {
      assert t1.slots == t.slots;
    } else if t.Conflicts(m.sid, Agent, c.ws) {
      assert m.sid in t1.slots ==> t1.slots[m.sid].agent.None?;
    } else if t.slots[m.sid].agent.None? && t.slots[m.sid].client.Some? {
      assert t1.slots == t.slots[m.sid := t.slots[m.sid].(phase := WaitingResume)];
    }
  }

  /** With a new id, in a fresh run, being rejected changes nothing. */
  lemma {:induction false} FreshRejectionIsClean(cfg: Config, start: int, acts: seq<Action>, a: Action)
    requires Runs(Init(cfg, start), acts) && FreshRun(Init(cfg, start), acts)
    requires var s := After(Init(cfg, start), acts);
             && Enabled(s, a) && Fresh(s, a) && ClaimOf(s, a).Some? && a.msg.ResumeInit?
             && Apply(s, a).conns[a.ws].session.None?
    ensures var s := After(Init(cfg, start), acts);
            SameEntries(s.table, Apply(s, a).table)
  {
    var s := After(Init(cfg, start), acts);
    RunKeepsLog(Init(cfg, start), acts);
    assert a.msg.sid in s.table.slots ==> SlotOk(s.hist, a.msg.sid, s.table.slots[a.msg.sid]);
    PlacedIsNamed(s.table, s.conns);
    StepFrame(s, a);
    RejectedResumeInitExactly(s.table, s.conns[a.ws].(lastSeq := a.n), a.msg);
  }

  // ----- sequence numbers, in any run

  predicate FromOneSocket(e: Event, f: Event) {
    e.Forwarded? && f.Forwarded? && e.from == f.from
  }

  ghost predicate Ascending(s: State) {
    && Placed(s.table, s.conns)
    && (forall i :: 0 <= i < |s.log| && s.log[i].Forwarded? ==>
          s.log[i].from in s.conns && 0 < s.log[i].n <= s.conns[s.log[i].from].lastSeq)
    && (forall i, j :: 0 <= i < j < |s.log| && FromOneSocket(s.log[i], s.log[j]) ==> s.log[i].n < s.log[j].n)
  }

  lemma StepConns(s: State, a: Action)
    requires Enabled(s, a) && Named(s.conns)
    ensures forall w :: w in s.conns ==> w in Apply(s, a).conns && Apply(s, a).conns[w].lastSeq >= s.conns[w].lastSeq
    ensures a.Deliver? && a.n > s.conns[a.ws].lastSeq ==> Apply(s, a).conns[a.ws].lastSeq == a.n
  {
    StepFrame(s, a);
    if IsSegment(a) {
      SegmentSocket(s, a);
    }
  }

  lemma AppendAscending(s: State, s1: State, events: seq<Event>)
    requires Ascending(s) && s1.log == s.log + events && |events| <= 1 && Placed(s1.table, s1.conns)
    requires forall w :: w in s.conns ==> w in s1.conns && s1.conns[w].lastSeq >= s.conns[w].lastSeq
    requires |events| == 1 && events[0].Forwarded? ==>
               && events[0].from in s.conns
                 && s.conns[events[0].from].lastSeq < events[0].n == s1.conns[events[0].from].lastSeq
    ensures Ascending(s1)
  {
  }

  lemma StepKeepsAscending(s: State, a: Action)
    requires Enabled(s, a) && Ascending(s)
    ensures Ascending(Apply(s, a))
  {
    PlacedIsNamed(s.table, s.conns);
    StepKeepsPlaced(s, a);
    StepLogs(s, a);
    StepConns(s, a);
    StepExplained(s, a);
    assert EventsOfStep(s, a) != [] ==> Explained(s, a, EventsOfStep(s, a)[0]);
    AppendAscending(s, Apply(s, a), EventsOfStep(s, a));
  }

  /** A socket's forwarded envelopes keep the order of their sequence numbers. */
  lemma {:induction false} ForwardsAscend(s: State, acts: seq<Action>)
    requires Runs(s, acts) && Ascending(s)
    ensures Ascending(After(s, acts))
    decreases |acts|
  {
    if acts != [] {
      StepKeepsAscending(s, acts[0]);
      ForwardsAscend(Apply(s, acts[0]), acts[1..]);
    }
  }
}
