/**
 A write that comes late. An agent and a client pair; the client drops while the agent's
 pair_complete is still being passed on; its teardown deletes the session record; then the agent's
 handler goes on and writes the record again.
 */
module RelayLateWrite {
  import opened Prelude
  import opened RoutingTable
  import opened Pairing
  import opened Router
  import opened Relay
  import opened RelayPlacement
  import opened RelayRuns
  import opened RelayCounterexamples

  // The agent 1 has offered `token` for `sid` and listens; nothing else has happened.
  ghost predicate Offered(t: State, token: Token, sid: SessionId) {
    && t.conns.Keys == {1} && AgentListens(t, sid) && t.table == Claimed1(sid)
    && t.store.tokens == map[token := TokenEntry(sid, 0, false, t.now + t.cfg.tokenTtl)]
    && ValidToken(token, t.cfg.tokenMin, t.cfg.tokenMax) && t.cfg.tokenTtl > 0
  }

  ghost predicate AgentListens(t: State, sid: SessionId) {
    && 1 in t.conns && t.conns[1].ws == 1 && t.conns[1].role == Agent && t.conns[1].session == Some(sid)
    && t.conns[1].lastSeq == 1 && t.conns[1].ctl.Receiving?
  }

  lemma Offer(s: State, token: Token, sid: SessionId) returns (acts: seq<Action>)
    requires s == Init(s.cfg, s.now) && ValidToken(token, s.cfg.tokenMin, s.cfg.tokenMax) && s.cfg.tokenTtl > 0
    ensures Runs(s, acts) && Offered(After(s, acts), token, sid)
  {
    acts := Registered(s, token, sid);
    var c := Pairer(s, sid, Awaiting(Send(1, PairInitAck), Loop)).(deadline := Some(s.now + s.cfg.tokenTtl));
    acts := Proceed(s, acts, 1, Claimed1(sid), c, []);
    acts := Proceed(s, acts, 1, Claimed1(sid), Listening(After(s, acts), c), []);
  }

  // The client 2 inside its pair_request, before and after it is seated.
  function Asker(t: State, ctl: Control): Conn {
    Idler(t, 2, Client).(lastSeq := 1, ctl := ctl)
  }

  // It asks for the token and waits for the first limiter.
  lemma StartAsking(s: State, acts: seq<Action>, token: Token, sid: SessionId) returns (acts1: seq<Action>)
    requires Runs(s, acts) && Offered(After(s, acts), token, sid)
    ensures Runs(s, acts1)
    ensures var t := After(s, acts);
            Went(t, After(s, acts1), 2, t.table, Asker(t, Awaiting(IpLimit, RequestLimited(token))), t.store, [])
  {
    var t := After(s, acts);
    acts1 := Arrive(s, acts, 2, Client);
    acts1 := Speak(s, acts1, 2, 1, PairRequest(token, true), t.table,
                   Asker(t, Awaiting(IpLimit, RequestLimited(token))), []);
  }

  // It passes both limiters.
  lemma AskForToken(s: State, acts: seq<Action>, token: Token, sid: SessionId) returns (acts1: seq<Action>)
    requires Runs(s, acts) && Offered(After(s, acts), token, sid)
    ensures Runs(s, acts1)
    ensures var t := After(s, acts);
            Went(t, After(s, acts1), 2, t.table, Asker(t, Awaiting(ConsumeToken(token), RequestConsumed)), t.store, [])
  {
    var t := After(s, acts);
    acts1 := StartAsking(s, acts, token, sid);
    acts1 := Proceed(s, acts1, 2, t.table, Asker(t, Awaiting(TokenLimit(token), RequestTokenLimited(token))), []);
    acts1 := Proceed(s, acts1, 2, t.table, Asker(t, Awaiting(ConsumeToken(token), RequestConsumed)), []);
  }

  // The table with both seated.
  function Seats(sid: SessionId, phase: Phase): Table {
    Table(map[sid := Slot(0, Some(1), Some(2), phase)], map[], map[], 1)
  }

  function Guest(t: State, sid: SessionId, ctl: Control): Conn {
    Asker(t, ctl).(session := Some(sid))
  }

  ghost predicate SameClock(t: State, t1: State) {
    t1.now == t.now && t1.cfg == t.cfg
  }

  // The token is consumed and the client takes its seat.
  lemma TakeSeat(s: State, acts: seq<Action>, token: Token, sid: SessionId) returns (acts1: seq<Action>)
    requires Runs(s, acts) && Offered(After(s, acts), token, sid)
    ensures Runs(s, acts1)
    ensures Sits(After(s, acts), After(s, acts1), sid, Awaiting(SetRecord(sid), RequestRecorded(sid, 0)))
  {
    var t := After(s, acts);
    acts1 := AskForToken(s, acts, token, sid);
    var c := Guest(t, sid, Awaiting(SetRecord(sid), RequestRecorded(sid, 0)));
    assert Replied(After(s, acts1), 2) == Granted(sid, 0);
    assert t.table.Attach(sid, Client, 2) == Seats(sid, Pairing);
    acts1 := Proceed(s, acts1, 2, Seats(sid, Pairing), c, [Bound(sid, 0, 1, 2)]);
  }

  // The client is sitting while its handler is at `ctl`.
  ghost predicate Sits(t: State, t1: State, sid: SessionId, ctl: Control) {
    && t1.conns.Keys == {1, 2} && 1 in t.conns && t1.conns[1] == t.conns[1] && SameClock(t, t1)
    && t1.conns[2] == Guest(t, sid, ctl) && t1.table == Seats(sid, Pairing)
  }

  lemma SitOn(s: State, acts: seq<Action>, t: State, sid: SessionId, ctl: Control, ctl1: Control)
    returns (acts1: seq<Action>)
    requires Runs(s, acts) && Sits(t, After(s, acts), sid, ctl) && ctl.Awaiting?
    requires Continues(After(s, acts), 2) == Outcome(Seats(sid, Pairing), Guest(t, sid, ctl1), [])
    ensures Runs(s, acts1) && Sits(t, After(s, acts1), sid, ctl1)
  {
    acts1 := Proceed(s, acts, 2, Seats(sid, Pairing), Guest(t, sid, ctl1), []);
  }

  // Both challenges are sent and the client listens.
  lemma GetChallenged(s: State, acts: seq<Action>, token: Token, sid: SessionId) returns (acts1: seq<Action>)
    requires Runs(s, acts) && Offered(After(s, acts), token, sid)
    ensures Runs(s, acts1) && Sits(After(s, acts), After(s, acts1), sid, Awaiting(Send(1, PairChallenge), Loop))
  {
    var t := After(s, acts);
    var recording, challenged := Awaiting(SetRecord(sid), RequestRecorded(sid, 0)),
      Awaiting(Send(2, PairChallenge), RequestChallenged(sid, 0));
    acts1 := TakeSeat(s, acts, token, sid);
    acts1 := SitOn(s, acts1, t, sid, recording, challenged);
    acts1 := SitOn(s, acts1, t, sid, challenged, Awaiting(Send(1, PairChallenge), Loop));
  }

  // Agent and client are seated and listen.
  ghost predicate Paired(t: State, sid: SessionId) {
    && t.conns.Keys == {1, 2} && AgentListens(t, sid) && t.table == Seats(sid, Pairing)
    && t.conns[2].ws == 2 && t.conns[2].role == Client && t.conns[2].session == Some(sid) && t.conns[2].ctl.Receiving?
  }

  lemma Pair(s: State, token: Token, sid: SessionId) returns (acts: seq<Action>)
    requires s == Init(s.cfg, s.now) && ValidToken(token, s.cfg.tokenMin, s.cfg.tokenMax) && s.cfg.tokenTtl > 0
    ensures Runs(s, acts) && Paired(After(s, acts), sid)
  {
    acts := Offer(s, token, sid);
    acts := GetChallenged(s, acts, token, sid);
    var t := After(s, acts);
    acts := Proceed(s, acts, 2, t.table, Listening(t, t.conns[2]), []);
  }

  // The agent's pair_complete is being passed on when the client drops.
  lemma DropDuringCompletion(s: State, acts: seq<Action>, sid: SessionId) returns (acts1: seq<Action>)
    requires Runs(s, acts) && Paired(After(s, acts), sid)
    ensures Runs(s, acts1)
    ensures var t, t1 := After(s, acts), After(s, acts1);
            && t1.conns.Keys == {1, 2} && t1.table == Seats(sid, Established)
            && t1.conns[1].ws == 1 && t1.conns[1].role == Agent && t1.conns[1].session == Some(sid)
            && t1.conns[1].ctl == Awaiting(Send(2, Relayed(2, PairComplete(Some(sid), true))), CompleteSent(sid))
            && t1.conns[2] == t.conns[2].(ctl := Unwinding)
  {
    var t, m := After(s, acts), PairComplete(Some(sid), true);
    var c := t.conns[1].(lastSeq := 2, ctl := Awaiting(Send(2, Relayed(2, m)), CompleteSent(sid)));
    acts1 := Speak(s, acts, 1, 2, m, Seats(sid, Established), c, [Completed(sid, 1, 2)]);
    acts1 := Step(s, acts1, Drop(2), Seats(sid, Established), t.conns[2].(ctl := Unwinding), []);
  }

  // The agent's handler is in the middle of passing on pair_complete.
  ghost predicate Completing(t: State, sid: SessionId) {
    && 1 in t.conns && t.conns[1].ws == 1 && t.conns[1].role == Agent && t.conns[1].session == Some(sid)
    && t.conns[1].ctl == Awaiting(Send(2, Relayed(2, PairComplete(Some(sid), true))), CompleteSent(sid))
  }

  // The client's handler has detached it and tells the agent.
  lemma LeaveSeat(s: State, acts: seq<Action>, sid: SessionId) returns (acts1: seq<Action>)
    requires Runs(s, acts) && Completing(After(s, acts), sid) && 2 in After(s, acts).conns
    requires var t := After(s, acts);
             && t.table == Seats(sid, Established) && t.conns[2].ws == 2 && t.conns[2].role == Client
             && t.conns[2].session == Some(sid) && t.conns[2].ctl == Unwinding
    ensures Runs(s, acts1)
    ensures var t, t1 := After(s, acts), After(s, acts1);
            && Completing(t1, sid) && 2 in t1.conns && t1.table == t.table.Detach(sid, Client)
            && t1.conns[2] == t.conns[2].(ctl := Awaiting(Send(1, PeerGone), Notified(sid)))
  {
    var t := After(s, acts);
    var c := t.conns[2].(ctl := Awaiting(Send(1, PeerGone), Notified(sid)));
    acts1 := Step(s, acts, Run(2, true), t.table.Detach(sid, Client), c, []);
  }

  // The disconnect is announced and the session torn down; the delete comes next.
  lemma TearDown(s: State, acts: seq<Action>, sid: SessionId) returns (acts1: seq<Action>)
    requires Runs(s, acts) && Completing(After(s, acts), sid) && 2 in After(s, acts).conns
    requires var c := After(s, acts).conns[2];
             c.ws == 2 && c.session == Some(sid) && c.ctl == Awaiting(Send(1, PeerGone), Notified(sid))
    ensures Runs(s, acts1) && Deleting(After(s, acts1), sid)
  {
    var t := After(s, acts);
    var c := t.conns[2].(ctl := Awaiting(DeleteRecord(sid), Finishing));
    acts1 := Proceed(s, acts, 2, t.table.Remove(sid), c, [Removed(sid)]);
    var log := After(s, acts1).log;
    assert log[|log| - 1] == Removed(sid);
  }

  ghost predicate Deleting(t: State, sid: SessionId) {
    && Completing(t, sid) && sid !in t.table.slots && Removed(sid) in t.log
    && 2 in t.conns && t.conns[2].ctl == Awaiting(DeleteRecord(sid), Finishing)
  }

  // The record is deleted, then the agent's handler reaches its own write.
  lemma DeleteThenGoOn(s: State, acts: seq<Action>, sid: SessionId) returns (acts1: seq<Action>)
    requires Runs(s, acts) && Deleting(After(s, acts), sid)
    ensures Runs(s, acts1)
    ensures var t := After(s, acts1);
            && Removed(sid) in t.log && sid !in t.table.slots && sid !in t.store.records
            && 1 in t.conns && t.conns[1].ctl == Awaiting(SetRecord(sid), CompleteMarked(sid))
  {
    acts1 := Effected(s, acts, 2);
    var t := After(s, acts1);
    acts1 := Proceed(s, acts1, 1, t.table, t.conns[1].(ctl := Awaiting(SetRecord(sid), CompleteMarked(sid))), []);
  }

  /**
   The agent's late `hset`: just before it the session is torn down and its record deleted; after it
   there is a record again, and one that never expires by itself.
   */
  lemma {:induction false} LateWriteRecreates(cfg: Config, start: int, token: Token, sid: SessionId)
    returns (acts: seq<Action>)
    requires ValidToken(token, cfg.tokenMin, cfg.tokenMax) && cfg.tokenTtl > 0
    ensures Runs(Init(cfg, start), acts) && Enabled(After(Init(cfg, start), acts), Effect(1, Fine))
    ensures var t := After(Init(cfg, start), acts);
            Removed(sid) in t.log && sid !in t.table.slots && sid !in t.store.records
    ensures var t1 := Apply(After(Init(cfg, start), acts), Effect(1, Fine));
            forall later :: t1.store.HasRecord(sid, later)
  {
    var s := Init(cfg, start);
    acts := PairAndLose(s, token, sid);
    acts := TearDown(s, acts, sid);
    acts := DeleteThenGoOn(s, acts, sid);
  }

  lemma PairAndLose(s: State, token: Token, sid: SessionId) returns (acts: seq<Action>)
    requires s == Init(s.cfg, s.now) && ValidToken(token, s.cfg.tokenMin, s.cfg.tokenMax) && s.cfg.tokenTtl > 0
    ensures Runs(s, acts)
    ensures Completing(After(s, acts), sid) && 2 in After(s, acts).conns
    ensures var c := After(s, acts).conns[2];
            c.ws == 2 && c.session == Some(sid) && c.ctl == Awaiting(Send(1, PeerGone), Notified(sid))
  {
    acts := Pair(s, token, sid);
    acts := DropDuringCompletion(s, acts, sid);
    acts := LeaveSeat(s, acts, sid);
  }
}
