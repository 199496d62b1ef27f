/**
 Concrete runs that show which premises matter: without fresh session ids a socket left over from
 a closed session is routed into the next one, and one failed Redis command leaks a record.
 */
module RelayCounterexamples {
  import opened Prelude
  import opened RoutingTable
  import opened Pairing
  import opened Router
  import opened Relay
  import opened RelayPlacement
  import opened RelayRouting
  import opened RelayTraffic
  import opened RelayRuns

  // An arrived agent announces a saved device under a session id that is not in use.
  lemma Announce(s: State, acts: seq<Action>, w: Ws, sid: SessionId, device: DeviceId) returns (acts1: seq<Action>)
    requires Runs(s, acts) && w in After(s, acts).conns
    requires sid !in After(s, acts).table.slots && device !in After(s, acts).table.devices
    requires var t := After(s, acts); t.conns[w] == Idler(t, w, Agent)
    ensures Runs(s, acts1)
    ensures var t, t1 := After(s, acts), After(s, acts1);
            var c := Idler(t, w, Agent).(session := Some(sid), lastSeq := 1, ctl := Receiving(None));
            && Moved(t, t1, w, t1.table, c, [Claimed(sid, w, Some(device))])
            && t1.table.slots == t.table.slots[sid := Slot(t.table.next, Some(w), None, WaitingResume)]
            && t1.table.devices == t.table.devices[device := sid]
  {
    acts1 := StartAnnouncing(s, acts, w, sid, device);
    acts1 := BackToLoop(s, acts1, w);
  }

  lemma StartAnnouncing(s: State, acts: seq<Action>, w: Ws, sid: SessionId, device: DeviceId)
    returns (acts1: seq<Action>)
    requires Runs(s, acts) && w in After(s, acts).conns
    requires sid !in After(s, acts).table.slots && device !in After(s, acts).table.devices
    requires var t := After(s, acts); t.conns[w] == Idler(t, w, Agent)
    ensures Runs(s, acts1)
    ensures var t, t1 := After(s, acts), After(s, acts1);
            var c := Idler(t, w, Agent).(session := Some(sid), lastSeq := 1,
                                         ctl := Awaiting(Send(w, ResumeInitAck), Loop));
            && Moved(t, t1, w, t1.table, c, [Claimed(sid, w, Some(device))])
            && t1.table.slots == t.table.slots[sid := Slot(t.table.next, Some(w), None, WaitingResume)]
            && t1.table.devices == t.table.devices[device := sid]
  {
    var t := After(s, acts);
    var m := ResumeInit(sid, device, true);
    var o := OnResumeInit(t.table, t.conns[w].(lastSeq := 1), m);
    acts1 := Step(s, acts, Deliver(w, 1, m), o.table, o.conn, o.events);
  }

  lemma Request(s: State, acts: seq<Action>, w: Ws, device: DeviceId) returns (acts1: seq<Action>)
    requires Runs(s, acts) && w in After(s, acts).conns && var t := After(s, acts); t.conns[w] == Idler(t, w, Client)
    ensures Runs(s, acts1)
    ensures var t := After(s, acts);
            Moved(t, After(s, acts1), w, t.table,
                  Idler(t, w, Client).(lastSeq := 1, ctl := Resumed(ResumeLimited(device), Ok)), [])
  {
    var t := After(s, acts);
    var c := t.conns[w].(lastSeq := 1);
    acts1 := Step(s, acts, Deliver(w, 1, ResumeRequest(device, true)), t.table,
                  c.(ctl := Awaiting(IpLimit, ResumeLimited(device))), []);
    acts1 := Answered(s, acts1, w);
  }

  // An arrived client asks for the device and passes both limiters.
  lemma Ask(s: State, acts: seq<Action>, w: Ws, device: DeviceId) returns (acts1: seq<Action>)
    requires Runs(s, acts) && w in After(s, acts).conns && var t := After(s, acts); t.conns[w] == Idler(t, w, Client)
    ensures Runs(s, acts1)
    ensures var t := After(s, acts);
            Moved(t, After(s, acts1), w, t.table,
                  Idler(t, w, Client).(lastSeq := 1, ctl := Resumed(ResumeTokenLimited(device), Ok)), [])
  {
    var t := After(s, acts);
    var c := t.conns[w].(lastSeq := 1);
    acts1 := Request(s, acts, w, device);
    acts1 := Step(s, acts1, Run(w, true), t.table,
                  c.(ctl := Awaiting(TokenLimit("resume-" + device), ResumeTokenLimited(device))), []);
    acts1 := Answered(s, acts1, w);
  }

  // It is then seated opposite the device's agent.
  lemma Sit(s: State, acts: seq<Action>, w: Ws, device: DeviceId, sid: SessionId) returns (acts1: seq<Action>)
    requires Runs(s, acts) && w in After(s, acts).conns
    requires var t := After(s, acts); t.conns[w] == Idler(t, w, Client).(lastSeq := 1,
        ctl := Resumed(ResumeTokenLimited(device), Ok))
    requires var t := After(s, acts).table;
             device in t.devices && t.devices[device] == sid && sid in t.slots && t.slots[sid].agent.Some?
               && t.slots[sid].client.None?
    ensures Runs(s, acts1)
    ensures var t, t1 := After(s, acts), After(s, acts1);
            && Moved(t, t1, w, t1.table, Idler(t, w, Client).(session := Some(sid), lastSeq := 1), [])
            && t1.table.slots == t.table.slots[sid := t.table.slots[sid].(client := Some(w), phase := Resuming)]
            && t1.table.devices == t.table.devices
  {
    acts1 := SitDown(s, acts, w, device, sid);
    acts1 := BackToLoop(s, acts1, w);
  }

  lemma SitDown(s: State, acts: seq<Action>, w: Ws, device: DeviceId, sid: SessionId) returns (acts1: seq<Action>)
    requires Runs(s, acts) && w in After(s, acts).conns
    requires var t := After(s, acts); t.conns[w] == Idler(t, w, Client).(lastSeq := 1,
        ctl := Resumed(ResumeTokenLimited(device), Ok))
    requires var t := After(s, acts).table;
             device in t.devices && t.devices[device] == sid && sid in t.slots && t.slots[sid].agent.Some?
               && t.slots[sid].client.None?
    ensures Runs(s, acts1)
    ensures var t, t1 := After(s, acts), After(s, acts1);
            && Moved(t, t1, w, t.table.Attach(sid, Client, w).SetPhase(sid, Resuming),
                Idler(t, w, Client).(session := Some(sid), lastSeq := 1,
                                     ctl := Awaiting(Send(t.table.slots[sid].agent.value, ResumeAsked), Loop)), [])
  {
    var t := After(s, acts);
    var o := AfterResumeTokenLimited(t.table, t.conns[w], device, Ok, t.now, t.cfg);
    acts1 := Step(s, acts, Run(w, true), o.table, o.conn, []);
  }

  // The agent's resume_complete opens the session.
  lemma Finish(s: State, acts: seq<Action>, w: Ws, sid: SessionId) returns (acts1: seq<Action>)
    requires Runs(s, acts) && w in After(s, acts).conns && sid in After(s, acts).table.slots
    requires After(s, acts).table.slots[sid].client.Some?
    requires var c := After(s, acts).conns[w];
             c.ws == w && c.role == Agent && c.session == Some(sid) && c.lastSeq == 1 && c.ctl.Receiving?
    ensures Runs(s, acts1)
    ensures var t, t1 := After(s, acts), After(s, acts1);
            && w in t1.conns
            && Moved(t, t1, w, t1.table, t1.conns[w], [Completed(sid, w, t.table.slots[sid].client.value)])
            && t1.table.slots == t.table.slots[sid := t.table.slots[sid].(phase := Established)]
            && t1.table.devices == t.table.devices
  {
    var t := After(s, acts);
    var m := ResumeComplete(Some(sid), true);
    var o := OnResumeComplete(t.table, t.conns[w].(lastSeq := 2), 2, m);
    acts1 := Step(s, acts, Deliver(w, 2, m), o.table, o.conn, o.events);
  }

  // The client closes the session and goes on listening, still bound to it.
  lemma Close(s: State, acts: seq<Action>, w: Ws, sid: SessionId) returns (acts1: seq<Action>)
    requires Runs(s, acts) && w in After(s, acts).conns && sid in After(s, acts).table.slots
    requires var slot := After(s, acts).table.slots[sid]; slot.phase == Established && slot.agent.Some?
    requires var t := After(s, acts); t.conns[w] == Idler(t, w, Client).(session := Some(sid), lastSeq := 1)
    ensures Runs(s, acts1)
    ensures var t, t1 := After(s, acts), After(s, acts1);
            && Moved(t, t1, w, t.table.Remove(sid), Idler(t, w, Client).(session := Some(sid), lastSeq := 2),
                [Forwarded(sid, w, t.table.slots[sid].agent.value, 2), Removed(sid)])
  {
    var t := After(s, acts);
    var forwarded := [Forwarded(sid, w, t.table.slots[sid].agent.value, 2)];
    acts1 := SendClose(s, acts, w, sid);
    var t1 := After(s, acts1);
    acts1 := EndClose(s, acts1, w, sid);
    MovedOn(t, t1, After(s, acts1), w, t.table, t1.conns[w], forwarded,
            t.table.Remove(sid), After(s, acts1).conns[w], [Removed(sid)]);
    assert forwarded + [Removed(sid)] == [Forwarded(sid, w, t.table.slots[sid].agent.value, 2), Removed(sid)];
  }

  lemma EndClose(s: State, acts: seq<Action>, w: Ws, sid: SessionId) returns (acts1: seq<Action>)
    requires Runs(s, acts) && w in After(s, acts).conns
    requires var c := After(s, acts).conns[w];
             c.ws == w && c.session == Some(sid) && c.ctl == Resumed(CloseRouted(sid), Ok)
    ensures Runs(s, acts1)
    ensures var t := After(s, acts);
            var gone := t.(table := t.table.Remove(sid));
            Moved(t, After(s, acts1), w, gone.table, Listening(gone, t.conns[w]), [Removed(sid)])
  {
    var t := After(s, acts);
    acts1 := Step(s, acts, Run(w, true), t.table.Remove(sid), t.conns[w].(ctl := Awaiting(DeleteRecord(sid), Loop)),
                  [Removed(sid)]);
    acts1 := BackToLoop(s, acts1, w);
  }

  lemma SendClose(s: State, acts: seq<Action>, w: Ws, sid: SessionId) returns (acts1: seq<Action>)
    requires Runs(s, acts) && w in After(s, acts).conns && sid in After(s, acts).table.slots
    requires var slot := After(s, acts).table.slots[sid]; slot.phase == Established && slot.agent.Some?
    requires var t := After(s, acts); t.conns[w] == Idler(t, w, Client).(session := Some(sid), lastSeq := 1)
    ensures Runs(s, acts1)
    ensures var t := After(s, acts);
            Moved(t, After(s, acts1), w, t.table, t.conns[w].(lastSeq := 2, ctl := Resumed(CloseRouted(sid), Ok)),
              [Forwarded(sid, w, t.table.slots[sid].agent.value, 2)])
  {
    var t := After(s, acts);
    var m := Routable(SessionClose, Some(sid));
    var o := OnRoutable(t.table, t.conns[w].(lastSeq := 2), 2, m);
    acts1 := Step(s, acts, Deliver(w, 2, m), o.table, o.conn, o.events);
    acts1 := Answered(s, acts1, w);
  }

  // One whole resumed session: agent `a` and client `c` arrive, announce, ask and complete.
  lemma Session(s: State, acts: seq<Action>, a: Ws, c: Ws, sid: SessionId, device: DeviceId)
    returns (acts1: seq<Action>)
    requires Runs(s, acts) && a != c && a !in After(s, acts).conns && c !in After(s, acts).conns
    requires After(s, acts).table.slots == map[] && device !in After(s, acts).table.devices
    ensures Runs(s, acts1)
    ensures var t, t1 := After(s, acts), After(s, acts1);
            && t1.table.slots.Keys == {sid} && t1.table.slots[sid].phase == Established
              && t1.table.slots[sid].agent == Some(a)
            && t1.table.devices == t.table.devices[device := sid]
            && t1.conns.Keys == t.conns.Keys + {a, c}
              && t1.conns[c] == Idler(t1, c, Client).(session := Some(sid), lastSeq := 1)
            && (forall v :: v in t.conns ==> t1.conns[v] == t.conns[v])
            && t1.log == t.log + [Claimed(sid, a, Some(device)), Completed(sid, a, c)] && t1.now == t.now
              && t1.cfg == t.cfg
  {
    acts1 := ResumedPair(s, acts, a, c, sid, device);
    acts1 := Finish(s, acts1, a, sid);
  }

  lemma ResumedPair(s: State, acts: seq<Action>, a: Ws, c: Ws, sid: SessionId, device: DeviceId)
    returns (acts1: seq<Action>)
    requires Runs(s, acts) && a != c && a !in After(s, acts).conns && c !in After(s, acts).conns
    requires After(s, acts).table.slots == map[] && device !in After(s, acts).table.devices
    ensures Runs(s, acts1)
    ensures var t, t1 := After(s, acts), After(s, acts1);
            && t1.table.slots.Keys == {sid} && t1.table.slots[sid].agent == Some(a)
              && t1.table.slots[sid].client == Some(c)
            && t1.table.devices == t.table.devices[device := sid]
            && t1.conns.Keys == t.conns.Keys + {a, c}
              && t1.conns[c] == Idler(t1, c, Client).(session := Some(sid), lastSeq := 1)
            && t1.conns[a] == Idler(t1, a, Agent).(session := Some(sid), lastSeq := 1, ctl := Receiving(None))
            && (forall v :: v in t.conns ==> t1.conns[v] == t.conns[v])
            && t1.log == t.log + [Claimed(sid, a, Some(device))] && t1.now == t.now && t1.cfg == t.cfg
  {
    var t := After(s, acts);
    acts1 := Waiting(s, acts, a, sid, device);
    var t1 := After(s, acts1);
    acts1 := Seating(s, acts1, c, device, sid);
    var t2 := After(s, acts1);
    BothMoved(t, t1, t2, a, c, t1.table, t1.conns[a], [Claimed(sid, a, Some(device))], t2.table, t2.conns[c]);
  }

  lemma Seating(s: State, acts: seq<Action>, c: Ws, device: DeviceId, sid: SessionId) returns (acts1: seq<Action>)
    requires Runs(s, acts) && c !in After(s, acts).conns
    requires var t := After(s, acts).table;
             device in t.devices && t.devices[device] == sid && sid in t.slots && t.slots[sid].agent.Some?
               && t.slots[sid].client.None?
    ensures Runs(s, acts1)
    ensures var t, t1 := After(s, acts), After(s, acts1);
            && Moved(t, t1, c, t1.table, Idler(t, c, Client).(session := Some(sid), lastSeq := 1), [])
            && t1.table.slots == t.table.slots[sid := t.table.slots[sid].(client := Some(c), phase := Resuming)]
            && t1.table.devices == t.table.devices
  {
    acts1 := Asking(s, acts, c, device);
    acts1 := Sit(s, acts1, c, device, sid);
  }

  lemma Waiting(s: State, acts: seq<Action>, a: Ws, sid: SessionId, device: DeviceId) returns (acts1: seq<Action>)
    requires Runs(s, acts) && a !in After(s, acts).conns && sid !in After(s, acts).table.slots
    requires device !in After(s, acts).table.devices
    ensures Runs(s, acts1)
    ensures var t, t1 := After(s, acts), After(s, acts1);
            && Moved(t, t1, a, t1.table,
                     Idler(t, a, Agent).(session := Some(sid), lastSeq := 1, ctl := Receiving(None)),
                       [Claimed(sid, a, Some(device))])
            && t1.table.slots == t.table.slots[sid := Slot(t.table.next, Some(a), None, WaitingResume)]
            && t1.table.devices == t.table.devices[device := sid]
  {
    acts1 := Arrive(s, acts, a, Agent);
    acts1 := Announce(s, acts1, a, sid, device);
  }

  lemma Asking(s: State, acts: seq<Action>, c: Ws, device: DeviceId) returns (acts1: seq<Action>)
    requires Runs(s, acts) && c !in After(s, acts).conns
    ensures Runs(s, acts1)
    ensures var t := After(s, acts);
            Moved(t, After(s, acts1), c, t.table,
                  Idler(t, c, Client).(lastSeq := 1, ctl := Resumed(ResumeTokenLimited(device), Ok)), [])
  {
    acts1 := Arrive(s, acts, c, Client);
    acts1 := Ask(s, acts1, c, device);
  }

  /**
   An agent that reuses a closed session's id: the client left over from the first session is
   routed to the second session's agent, although that agent completed with another client.
   */
  lemma {:induction false} StaleIdsMisroute(cfg: Config, start: int) returns (acts: seq<Action>, i: nat)
    ensures Runs(Init(cfg, start), acts) && i < |After(Init(cfg, start), acts).log|
    ensures !FaithfulEntry(After(Init(cfg, start), acts).log, i)
  {
    var s := Init(cfg, start);
    acts := ClosedSession(s, "sess-a", "dev-a");
    acts := Session(s, acts, 3, 4, "sess-a", "dev-a");
    acts, i := Misroute(s, acts, 2, 3, "sess-a");
  }

  lemma ClosedSession(s: State, sid: SessionId, device: DeviceId) returns (acts: seq<Action>)
    requires s == Init(s.cfg, s.now)
    ensures Runs(s, acts)
    ensures var t := After(s, acts);
            && t.table.slots == map[] && device !in t.table.devices && t.conns.Keys == {1, 2}
            && t.conns[2] == Idler(t, 2, Client).(session := Some(sid), lastSeq := 2)
  {
    acts := Session(s, [], 1, 2, sid, device);
    var t := After(s, acts);
    acts := Close(s, acts, 2, sid);
    assert t.table.Remove(sid).slots == map[];
  }

  lemma Misroute(s: State, acts: seq<Action>, stale: Ws, agent: Ws, sid: SessionId) returns (acts1: seq<Action>, i: nat)
    requires Runs(s, acts) && stale in After(s, acts).conns && sid in After(s, acts).table.slots
    requires var t := After(s, acts);
             && t.table.slots[sid].phase == Established && t.table.slots[sid].agent == Some(agent)
             && t.conns[stale] == Idler(t, stale, Client).(session := Some(sid), lastSeq := 2)
             && |t.log| > 0 && t.log[|t.log| - 1].Completed? && t.log[|t.log| - 1].sid == sid
             && t.log[|t.log| - 1].client != stale && t.log[|t.log| - 1].agent != stale
    ensures Runs(s, acts1) && i < |After(s, acts1).log| && !FaithfulEntry(After(s, acts1).log, i)
  {
    var t := After(s, acts);
    var m := Routable(PtyInput, Some(sid));
    var o := OnRoutable(t.table, t.conns[stale].(lastSeq := 3), 3, m);
    acts1 := Step(s, acts, Deliver(stale, 3, m), o.table, o.conn, o.events);
    i := |t.log|;
    assert After(s, acts1).log[..i] == t.log;
  }

  // ----- a rejected resume_init

  /**
   A second agent sends resume_init under the id of an agent that waits: it is refused, and the
   waiting agent loses its seat although its connection is alive and bound to the session.
   */
  lemma {:induction false} RejectedResumeUnseats(cfg: Config, start: int) returns (acts: seq<Action>, a: Action)
    ensures Runs(Init(cfg, start), acts) && Enabled(After(Init(cfg, start), acts), a)
    ensures a == Deliver(2, 1, ResumeInit("sess-a", "dev-b", true))
    ensures var t, t1 := After(Init(cfg, start), acts), Apply(After(Init(cfg, start), acts), a);
            && "sess-a" in t.table.slots && t.table.slots["sess-a"].agent == Some(1) && "sess-a" !in t1.table.slots
            && 1 in t1.conns && t1.conns[1].session == Some("sess-a") && t1.conns[1].ctl.Receiving?
            && 2 in t1.conns && t1.conns[2].session == None && t1.conns[2].ctl == Awaiting(Send(2, Error), Loop)
  {
    var s := Init(cfg, start);
    acts := Waiting(s, [], 1, "sess-a", "dev-a");
    acts := Arrive(s, acts, 2, Agent);
    var t := After(s, acts);
    a := Deliver(2, 1, ResumeInit("sess-a", "dev-b", true));
    assert OnResumeInit(t.table, t.conns[2].(lastSeq := 1), a.msg).table == t.table.Detach("sess-a", Agent);
    StepIsCommit(t, a);
  }

  // ----- a record that nobody will delete

  /**
   pair_init writes the record, then loses the command that would give it an expiry: the agent's
   connection ends and the record stays for good.
   */
  lemma {:induction false} LostExpireLeaks(cfg: Config, start: int, token: Token) returns (acts: seq<Action>)
    requires ValidToken(token, cfg.tokenMin, cfg.tokenMax)
    ensures Runs(Init(cfg, start), acts)
    ensures var s := After(Init(cfg, start), acts);
            && (forall w :: w in s.conns ==> s.conns[w].ctl.Finished?)
            && forall later :: s.store.HasRecord("sess-a", later)
  {
    var s := Init(cfg, start);
    var sid := "sess-a";
    acts := Registered(s, token, sid);
    acts := Abandon(s, acts, 1, token, sid);
    var t := After(s, acts);
    acts := Step(s, acts, Run(1, true), t.table, t.conns[1].(ctl := Finished), []);
  }

  lemma Abandon(s: State, acts: seq<Action>, w: Ws, token: Token, sid: SessionId) returns (acts1: seq<Action>)
    requires Runs(s, acts) && w in After(s, acts).conns
    requires var c := After(s, acts).conns[w];
             c.ws == w && c.role == Agent && c.ctl == Awaiting(ExpireRecord(sid), InitExpiring(sid, token))
    ensures Runs(s, acts1)
    ensures var t, t1 := After(s, acts), After(s, acts1);
            && t1.conns.Keys == t.conns.Keys && t1.conns[w] == t.conns[w].(session := None, ctl := Unwinding)
            && t1.store.records == t.store.records
  {
    acts1 := LoseExpire(s, acts, w, token, sid);
    var t := After(s, acts1);
    var c := t.conns[w];
    acts1 := Commanded(s, acts1, w, Fine);
    acts1 := Step(s, acts1, Run(w, true), t.table.Detach(sid, Agent), c.(session := None, ctl := Unwinding), []);
  }

  lemma LoseExpire(s: State, acts: seq<Action>, w: Ws, token: Token, sid: SessionId) returns (acts1: seq<Action>)
    requires Runs(s, acts) && w in After(s, acts).conns
    requires var c := After(s, acts).conns[w];
             c.ws == w && c.ctl == Awaiting(ExpireRecord(sid), InitExpiring(sid, token))
    ensures Runs(s, acts1)
    ensures var t, t1 := After(s, acts), After(s, acts1);
            && t1.conns.Keys == t.conns.Keys
              && t1.conns[w] == t.conns[w].(ctl := Awaiting(DropToken(token), InitUndone(sid)))
            && t1.store == t.store
  {
    var t := After(s, acts);
    acts1 := Commanded(s, acts, w, Lost(false));
    acts1 := Step(s, acts1, Run(w, true), t.table, t.conns[w].(ctl := Awaiting(DropToken(token), InitUndone(sid))), []);
  }

  // The table when the agent 1 has claimed `sid` for pairing.
  function Claimed1(sid: SessionId): Table {
    Table(map[sid := Slot(0, Some(1), None, Pairing)], map[], map[], 1)
  }

  // That agent inside its pair_init.
  function Pairer(s: State, sid: SessionId, ctl: Control): Conn {
    Idler(s, 1, Agent).(session := Some(sid), lastSeq := 1, ctl := ctl)
  }

  // An agent whose pair_init has passed the limiter and waits for its token to be issued.
  lemma Claimant(s: State, token: Token, sid: SessionId) returns (acts: seq<Action>)
    requires s == Init(s.cfg, s.now) && ValidToken(token, s.cfg.tokenMin, s.cfg.tokenMax)
    ensures Runs(s, acts)
    ensures var t := After(s, acts);
            && t.conns.Keys == {1}
              && t.conns[1] == Pairer(s, sid, Awaiting(IssueToken(token, sid), InitIssued(sid, token)))
            && t.table == Claimed1(sid) && t.store == EmptyStore && t.cfg == s.cfg && t.now == s.now
  {
    acts := Arrive(s, [], 1, Agent);
    var m := PairInit(token, sid, true);
    acts := Speak(s, acts, 1, 1, m, Claimed1(sid), Pairer(s, sid, Awaiting(IpLimit, InitLimited(sid, token))),
                  [Claimed(sid, 1, None)]);
    acts := Proceed(s, acts, 1, Claimed1(sid), Pairer(s, sid, Awaiting(IssueToken(token, sid), InitIssued(sid, token))),
                    []);
  }

  // Its token is issued and its record comes next.
  lemma Issuer(s: State, token: Token, sid: SessionId) returns (acts: seq<Action>)
    requires s == Init(s.cfg, s.now) && ValidToken(token, s.cfg.tokenMin, s.cfg.tokenMax)
    ensures Runs(s, acts)
    ensures var t := After(s, acts);
            && t.conns.Keys == {1} && t.conns[1] == Pairer(s, sid, Awaiting(SetRecord(sid), InitRecorded(sid, token)))
            && t.table == Claimed1(sid) && t.cfg == s.cfg && t.now == s.now
            && t.store == Store(map[token := TokenEntry(sid, 0, false, s.now + s.cfg.tokenTtl)], map[], 1)
  {
    acts := Claimant(s, token, sid);
    acts := Proceed(s, acts, 1, Claimed1(sid), Pairer(s, sid, Awaiting(SetRecord(sid), InitRecorded(sid, token))), []);
  }

  // An agent whose pair_init has written its record and waits for the expiry to be set.
  lemma Registered(s: State, token: Token, sid: SessionId) returns (acts: seq<Action>)
    requires s == Init(s.cfg, s.now) && ValidToken(token, s.cfg.tokenMin, s.cfg.tokenMax)
    ensures Runs(s, acts)
    ensures var t := After(s, acts);
            && t.conns.Keys == {1}
              && t.conns[1] == Pairer(s, sid, Awaiting(ExpireRecord(sid), InitExpiring(sid, token)))
            && t.table == Claimed1(sid) && t.cfg == s.cfg && t.now == s.now
            && t.store.tokens == map[token := TokenEntry(sid, 0, false, s.now + s.cfg.tokenTtl)]
            && sid in t.store.records && t.store.records[sid].expiresAt == None
  {
    acts := Issuer(s, token, sid);
    acts := Proceed(s, acts, 1, Claimed1(sid), Pairer(s, sid, Awaiting(ExpireRecord(sid), InitExpiring(sid, token))),
                    []);
  }
}
