/**
 Runs in which every claimed session id is new. Then a session belongs to one agent for good, its
 pairing token binds one client, and routable traffic stays between the two that completed.
 */
module RelayRouting {
  import opened Prelude
  import opened RoutingTable
  import opened Pairing
  import opened Router
  import opened Relay
  import opened RelayPlacement

  // The handler of pair_init for `sid` has not issued its token.
  ghost predicate BeforeIssue(c: Conn, sid: SessionId) {
    match c.ctl
    case Awaiting(_, k) => (k.InitLimited? || k.InitIssued?) && k.sid == sid
    case Resumed(k, _) => k.InitLimited? && k.sid == sid
    case _ => false
  }

  ghost predicate InInit(k: Cont) {
    k.InitLimited? || k.InitIssued? || k.InitRecorded? || k.InitExpiring? || k.InitUndone?
  }

  ghost predicate InPairInit(c: Conn) {
    (c.ctl.Awaiting? || c.ctl.Resumed?) && InInit(c.ctl.next)
  }

  ghost predicate HoldsGrant(c: Conn) {
    c.ctl.Resumed? && c.ctl.next.RequestConsumed? && c.ctl.reply.Granted?
  }

  ghost predicate ConnOk(t: Table, h: History, w: Ws, c: Conn) {
    && (c.session.Some? ==>
          && c.session.value in h
          && (c.role == Agent ==> h[c.session.value].owner == w)
          && (c.role == Client && h[c.session.value].device.None? ==> h[c.session.value].redeemed == Some(w))
          && (c.Live() && c.session.value in t.slots ==> t.slots[c.session.value].Get(c.role) == Some(w))
          && (BeforeIssue(c, c.session.value) ==> h[c.session.value].token.None?)
          && (InPairInit(c) ==> h[c.session.value].device.None?))
    && (HoldsGrant(c) ==>
          c.ctl.reply.sid in h && h[c.ctl.reply.sid].device.None? && h[c.ctl.reply.sid].redeemed == Some(w))
  }

  ghost predicate SlotOk(h: History, sid: SessionId, slot: Slot) {
    && sid in h && !h[sid].removed
    && (slot.phase == Established ==>
          && h[sid].completed.Some?
          && (slot.agent.Some? ==> slot.agent.value == h[sid].completed.value.0)
          && (slot.client.Some? ==> slot.client.value == h[sid].completed.value.1))
    && (slot.phase == WaitingResume ==> slot.client.None? && h[sid].device.Some?)
  }

  ghost predicate TokenOk(h: History, token: Token, e: TokenEntry) {
    e.sid in h && h[e.sid].device.None? && h[e.sid].token == Some(token) && (!e.consumed ==> h[e.sid].redeemed.None?)
  }

  ghost predicate ClaimOk(h: History, conns: map<Ws, Conn>, sid: SessionId)
    requires sid in h
  {
    && (h[sid].redeemed.Some? ==> h[sid].token.Some?)
    && (h[sid].completed.Some? && h[sid].device.None? ==>
          var client := h[sid].completed.value.1;
          h[sid].redeemed == Some(client) && client in conns && conns[client].session == Some(sid)
            && conns[client].role == Client)
  }

  // The agent of `sid` has detached and will remove the session next.
  ghost predicate BetweenDetachAndRemove(conns: map<Ws, Conn>, sid: SessionId, w: Ws) {
    w in conns && conns[w].session == Some(sid) && conns[w].role == Agent &&
    (conns[w].ctl.Awaiting? || conns[w].ctl.Resumed?) && conns[w].ctl.next.Notified?
  }

  ghost predicate DeviceOk(t: Table, h: History, conns: map<Ws, Conn>, device: DeviceId, sid: SessionId) {
    && sid in h && h[sid].device == Some(device)
    && ((sid in t.slots && t.slots[sid].agent.Some?) || BetweenDetachAndRemove(conns, sid, h[sid].owner))
  }

  ghost predicate Faithful(t: Table, conns: map<Ws, Conn>, tokens: map<Token, TokenEntry>, h: History) {
    && (forall w :: w in conns ==> ConnOk(t, h, w, conns[w]))
    && (forall sid :: sid in t.slots ==> SlotOk(h, sid, t.slots[sid]))
    && (forall token :: token in tokens ==> TokenOk(h, token, tokens[token]))
    && (forall sid :: sid in h ==> ClaimOk(h, conns, sid))
    && (forall d :: d in t.devices ==> DeviceOk(t, h, conns, d, t.devices[d]))
  }

  ghost predicate Good(t: Table, conns: map<Ws, Conn>, tokens: map<Token, TokenEntry>, h: History) {
    Placed(t, conns) && Faithful(t, conns, tokens, h)
  }

  ghost predicate KeepsFaith(conns: map<Ws, Conn>, tokens: map<Token, TokenEntry>, h: History, c: Conn, o: Outcome) {
    Faithful(o.table, conns[c.ws := o.conn], tokens, NoteAll(h, o.events))
  }

  // A segment that changes neither table, binding nor history, and starts nothing with obligations.
  ghost predicate Quiet(t: Table, h: History, c: Conn, o: Outcome) {
    && o.table == t && o.conn.role == c.role && o.conn.session == c.session
    && (c.Live() ==> o.conn.Live()) && (o.conn.Live() ==> c.Live())
    && (o.events == [] || (|o.events| == 1 && o.events[0].Forwarded?))
    && (c.session.Some? && BeforeIssue(o.conn, c.session.value) ==> BeforeIssue(c, c.session.value))
    && (InPairInit(o.conn) ==> InPairInit(c))
    && !HoldsGrant(o.conn) && !o.conn.ctl.Finished?
    && (o.conn.ctl.Awaiting? || o.conn.ctl.Resumed? ==> !o.conn.ctl.next.Notified?)
    && (c.ctl.Awaiting? || c.ctl.Resumed? ==> !c.ctl.next.Notified?)
  }

  // The only entries that differ are those of `sid`.
  ghost predicate Touches(t: Table, h: History, t1: Table, h1: History, sid: SessionId) {
    && (forall s :: s != sid ==> (s in t.slots <==> s in t1.slots))
    && (forall s :: s != sid && s in t.slots ==> t1.slots[s] == t.slots[s])
    && (forall s :: s != sid ==> (s in h <==> s in h1))
    && (forall s :: s != sid && s in h ==> h1[s] == h[s])
    && (forall d :: d in t1.devices && t1.devices[d] != sid ==> d in t.devices && t.devices[d] == t1.devices[d])
  }

  ghost predicate Concerns(c: Conn, sid: SessionId) {
    c.session == Some(sid) || (HoldsGrant(c) && c.ctl.reply.sid == sid)
  }

  // What a change at `sid` by the connection `c` owes; everything else keeps by `FrameKeeps`.
  ghost predicate Settled(t1: Table, conns: map<Ws, Conn>, tokens: map<Token, TokenEntry>, h1: History, c1: Conn,
                          sid: SessionId) {
    && ConnOk(t1, h1, c1.ws, c1)
    && (forall w :: w in conns && w != c1.ws && Concerns(conns[w], sid) ==> ConnOk(t1, h1, w, conns[w]))
    && (sid in t1.slots ==> SlotOk(h1, sid, t1.slots[sid]))
    && (forall token :: token in tokens && tokens[token].sid == sid ==> TokenOk(h1, token, tokens[token]))
    && sid in h1 && ClaimOk(h1, conns[c1.ws := c1], sid)
    && (forall d :: d in t1.devices && t1.devices[d] == sid ==> DeviceOk(t1, h1, conns[c1.ws := c1], d, sid))
  }

  lemma FrameKeeps(
    t: Table, conns: map<Ws, Conn>, tokens: map<Token, TokenEntry>, h: History,
    t1: Table, tokens1: map<Token, TokenEntry>, h1: History, c1: Conn, sid: SessionId)
    requires Faithful(t, conns, tokens, h) && c1.ws in conns
    requires conns[c1.ws].session == None || conns[c1.ws].session == Some(sid)
    requires Touches(t, h, t1, h1, sid) && Settled(t1, conns, tokens1, h1, c1, sid)
    requires forall token :: token in tokens1 && tokens1[token].sid != sid ==>
               token in tokens && tokens[token] == tokens1[token]
    ensures Faithful(t1, conns[c1.ws := c1], tokens1, h1)
  {
    var conns1 := conns[c1.ws := c1];
    forall w | w in conns1 ensures ConnOk(t1, h1, w, conns1[w]) {
      assert w != c1.ws ==> ConnOk(t, h, w, conns[w]);
    }
    forall d | d in t1.devices ensures DeviceOk(t1, h1, conns1, d, t1.devices[d]) {
      assert t1.devices[d] != sid ==> DeviceOk(t, h, conns, d, t.devices[d]);
    }
    forall s | s in h1 ensures ClaimOk(h1, conns1, s) {
      assert s != sid ==> ClaimOk(h, conns, s);
    }
    forall token | token in tokens1 ensures TokenOk(h1, token, tokens1[token]) {
      assert tokens1[token].sid != sid ==> TokenOk(h, token, tokens[token]);
    }
  }

  lemma NoteOne(h: History, e: Event)
    ensures NoteAll(h, [e]) == Note(h, e) && NoteAll(h, []) == h
  {
    assert [e][..0] == [];
  }

  lemma QuietKeeps(t: Table, conns: map<Ws, Conn>, tokens: map<Token, TokenEntry>, h: History, c: Conn, o: Outcome)
    requires Good(t, conns, tokens, h) && c.ws in conns && conns[c.ws] == c && Quiet(t, h, c, o)
    ensures KeepsFaith(conns, tokens, h, c, o)
  {
    if o.events != [] {
      NoteOne(h, o.events[0]);
      assert o.events == [o.events[0]];
    }
  }

  // An envelope that claims nothing is quiet unless it completes a handshake.
  lemma EnvelopeShape(t: Table, h: History, c: Conn, n: nat, m: Message, now: int, cfg: Config)
    requires Shaped(c.ws, c) && c.ctl.Receiving? && !ClaimsSession(c, n, m)
    ensures var o := OnEnvelope(t, c, n, m, now, cfg);
            Quiet(t, h, c, o) || Completes(t, c.(lastSeq := n), o)
  {
  }

  ghost predicate Completes(t: Table, c: Conn, o: Outcome) {
    && c.role == Agent && c.session.Some? && t.Peer(c.session.value, Agent).Some?
    && o.table == t.SetPhase(c.session.value, Established)
    && o.events == [Completed(c.session.value, c.ws, t.Peer(c.session.value, Agent).value)]
    && o.conn == c.(ctl := o.conn.ctl) && o.conn.ctl.Awaiting?
      && (o.conn.ctl.next == Loop || o.conn.ctl.next.CompleteSent?)
  }

  lemma ResumeQuiet(t: Table, h: History, c: Conn, now: int, cfg: Config)
    requires Shaped(c.ws, c) && c.ctl.Resumed? && !Moves(c.ctl.next, c.ctl.reply)
    ensures Quiet(t, h, c, Resume(t, c, c.ctl.next, c.ctl.reply, now, cfg))
  {
  }

  lemma CompleteKeeps(t: Table, conns: map<Ws, Conn>, tokens: map<Token, TokenEntry>, h: History, c: Conn, o: Outcome)
    requires Good(t, conns, tokens, h) && c.ws in conns && conns[c.ws].(lastSeq := c.lastSeq) == c && c.ctl.Receiving?
    requires Completes(t, c, o)
    ensures KeepsFaith(conns, tokens, h, c, o)
  {
    var sid, client := c.session.value, o.events[0].client;
    var h1 := Note(h, o.events[0]);
    NoteOne(h, o.events[0]);
    assert ConnOk(t, h, c.ws, conns[c.ws]) && SlotSeated(conns, sid, t.slots[sid]) && SlotOk(h, sid, t.slots[sid]);
    assert ConnOk(t, h, client, conns[client]) && ClaimOk(h, conns, sid);
    forall w | w in conns && w != c.ws && Concerns(conns[w], sid) ensures ConnOk(o.table, h1, w, conns[w]) {
      assert ConnOk(t, h, w, conns[w]);
    }
    forall d | d in t.devices && t.devices[d] == sid ensures DeviceOk(o.table, h1, conns[c.ws := o.conn], d, sid) {
      assert DeviceOk(t, h, conns, d, sid);
    }
    FrameKeeps(t, conns, tokens, h, o.table, tokens, h1, o.conn, sid);
  }

  // A fresh session id: nothing in the relay mentions it.
  lemma FreshIsUnused(t: Table, conns: map<Ws, Conn>, tokens: map<Token, TokenEntry>, h: History, sid: SessionId)
    requires Faithful(t, conns, tokens, h) && sid !in h
    ensures sid !in t.slots
    ensures forall w :: w in conns ==> !Concerns(conns[w], sid)
    ensures forall token :: token in tokens ==> tokens[token].sid != sid
    ensures forall d :: d in t.devices ==> t.devices[d] != sid
  {
    assert sid in t.slots ==> SlotOk(h, sid, t.slots[sid]);
    forall w | w in conns ensures !Concerns(conns[w], sid) {
      assert ConnOk(t, h, w, conns[w]);
    }
    forall token | token in tokens ensures tokens[token].sid != sid {
      assert TokenOk(h, token, tokens[token]);
    }
    forall d | d in t.devices ensures t.devices[d] != sid {
      assert DeviceOk(t, h, conns, d, t.devices[d]);
    }
  }

  // Claiming an unused id seats the agent in a new slot, or changes no entry when the device is taken.
  lemma ClaimShape(t: Table, c: Conn, m: Message, o: Outcome)
    requires c.role == Agent && c.session.None? && (m.PairInit? || m.ResumeInit?) && m.fieldsOk && m.sid !in t.slots
    requires o == if m.PairInit? then OnPairInit(t, c, m) else OnResumeInit(t, c, m)
    ensures o.conn == c.(session := o.conn.session, ctl := o.conn.ctl) && o.conn.ctl.Awaiting?
    ensures o.conn.session.None? ==> o.table.slots == t.slots && o.table.devices == t.devices && o.conn.ctl.next == Loop
    ensures o.conn.session.Some? ==>
              && o.conn.session.value == m.sid
                && (o.conn.ctl.next == Loop || (m.PairInit? && o.conn.ctl.next.InitLimited?))
              && o.table.slots == t.slots[m.sid := Slot(t.next, Some(c.ws), None, if m.PairInit? then Pairing
                                                        else WaitingResume)]
              && o.table.devices == if m.PairInit? then t.devices else t.devices[m.device := m.sid]
  {
    if m.ResumeInit? {
      var t1 := t.Attach(m.sid, Agent, c.ws).SetPhase(m.sid, WaitingResume);
      assert t1.slots == t.slots[m.sid := Slot(t.next, Some(c.ws), None, WaitingResume)];
      assert t1.slots - {m.sid} == t.slots;
    }
  }

  lemma ClaimSettles(
    t: Table, conns: map<Ws, Conn>, tokens: map<Token, TokenEntry>, h: History,
    t1: Table, h1: History, c1: Conn, sid: SessionId, device: Option<DeviceId>)
    requires sid !in t.slots && c1.role == Agent && c1.ctl.Awaiting?
    requires forall w :: w in conns ==> !Concerns(conns[w], sid)
    requires forall token :: token in tokens ==> tokens[token].sid != sid
    requires forall d :: d in t.devices ==> t.devices[d] != sid
    requires h1 == h[sid := Claim(c1.ws, device, None, None, None, false)]
    requires c1.ctl.next == Loop || (device.None? && c1.ctl.next.InitLimited?)
    requires (c1.session.None? && t1.slots == t.slots && t1.devices == t.devices)
             || (&& c1.session == Some(sid)
                 && t1.slots == t.slots[sid := Slot(t.next, Some(c1.ws), None, if device.None? then Pairing
                                                    else WaitingResume)]
                 && t1.devices == if device.None? then t.devices else t.devices[device.value := sid])
    ensures Touches(t, h, t1, h1, sid) && Settled(t1, conns, tokens, h1, c1, sid)
  {
  }

  lemma ClaimKeeps(t: Table, conns: map<Ws, Conn>, tokens: map<Token, TokenEntry>, h: History, c: Conn, n: nat,
                   m: Message, now: int, cfg: Config)
    requires Good(t, conns, tokens, h) && c.ws in conns && conns[c.ws] == c && c.ctl.Receiving?
    requires ClaimsSession(c, n, m) && m.sid !in h
    ensures KeepsFaith(conns, tokens, h, c, OnEnvelope(t, c, n, m, now, cfg))
  {
    var o := OnEnvelope(t, c, n, m, now, cfg);
    var device := if m.PairInit? then None else Some(m.device);
    FreshIsUnused(t, conns, tokens, h, m.sid);
    assert o.events == [Claimed(m.sid, c.ws, device)];
    NoteOne(h, o.events[0]);
    ClaimShape(t, c.(lastSeq := n), m, o);
    ClaimSettles(t, conns, tokens, h, o.table, Note(h, o.events[0]), o.conn, m.sid, device);
    FrameKeeps(t, conns, tokens, h, o.table, tokens, Note(h, o.events[0]), o.conn, m.sid);
  }

  lemma UndoInitKeepsFaith(t: Table, conns: map<Ws, Conn>, tokens: map<Token, TokenEntry>, h: History, c: Conn,
                           o: Outcome, sid: SessionId)
    requires Good(t, conns, tokens, h) && c.ws in conns && conns[c.ws] == c && c.role == Agent && c.session == Some(sid)
    requires InPairInit(c)
    requires var (t1, c1) := UndoInit(t, c, sid); o == Raise(t1, c1) || o == Refuse(t1, c1)
    ensures KeepsFaith(conns, tokens, h, c, o)
  {
    assert NoteAll(h, o.events) == h;
    assert ConnOk(t, h, c.ws, c) && ClaimOk(h, conns, sid);
    forall w | w in conns && w != c.ws && Concerns(conns[w], sid) ensures ConnOk(o.table, h, w, conns[w]) {
      assert ConnOk(t, h, w, conns[w]);
    }
    forall d | d in t.devices ensures t.devices[d] != sid {
      assert DeviceOk(t, h, conns, d, t.devices[d]);
    }
    FrameKeeps(t, conns, tokens, h, o.table, tokens, h, o.conn, sid);
  }

  // Seating the unbound client `c` at `sid` in an unfinished handshake.
  lemma BindKeeps(t: Table, conns: map<Ws, Conn>, tokens: map<Token, TokenEntry>, h: History, c: Conn, o: Outcome,
                  sid: SessionId)
    requires Good(t, conns, tokens, h) && c.ws in conns && conns[c.ws] == c && c.ctl.Resumed? && c.role == Client
    requires c.session == None
    requires sid in t.slots && t.slots[sid].client.None? && sid in h
    requires h[sid].device.None? ==> h[sid].redeemed == Some(c.ws)
    requires o.conn.ws == c.ws && o.conn.role == c.role && o.conn.session == Some(sid)
    requires o.conn.ctl.Awaiting? && (o.conn.ctl.next.Loop? || o.conn.ctl.next.RequestRecorded?)
    requires o.table.devices == t.devices && NoteAll(h, o.events) == h
    requires sid in o.table.slots && o.table.slots == t.slots[sid := o.table.slots[sid]]
    requires o.table.slots[sid].client == Some(c.ws) && o.table.slots[sid].agent == t.slots[sid].agent
    requires o.table.slots[sid].phase != Established && o.table.slots[sid].phase != WaitingResume
    ensures KeepsFaith(conns, tokens, h, c, o)
  {
    assert SlotOk(h, sid, t.slots[sid]) && ClaimOk(h, conns, sid);
    forall w | w in conns && w != c.ws && Concerns(conns[w], sid) ensures ConnOk(o.table, h, w, conns[w]) {
      assert ConnOk(t, h, w, conns[w]);
    }
    forall d | d in t.devices && t.devices[d] == sid ensures DeviceOk(o.table, h, conns[c.ws := o.conn], d, sid) {
      assert DeviceOk(t, h, conns, d, sid);
    }
    FrameKeeps(t, conns, tokens, h, o.table, tokens, h, o.conn, sid);
  }

  lemma RequestBindKeeps(t: Table, conns: map<Ws, Conn>, tokens: map<Token, TokenEntry>, h: History, c: Conn, now: int,
                         cfg: Config)
    requires Good(t, conns, tokens, h) && c.ws in conns && conns[c.ws] == c && c.ctl.Resumed?
    requires c.ctl.next.RequestConsumed?
    ensures KeepsFaith(conns, tokens, h, c, AfterRequestConsumed(t, c, c.ctl.reply, now, cfg))
  {
    var o := AfterRequestConsumed(t, c, c.ctl.reply, now, cfg);
    if o.events == [] {
      QuietKeeps(t, conns, tokens, h, c, o);
    } else {
      NoteOne(h, o.events[0]);
      var sid := c.ctl.reply.sid;
      assert Shaped(c.ws, c) && ConnOk(t, h, c.ws, c) && ClaimOk(h, conns, sid);
      assert SlotOk(h, sid, t.slots[sid]) && SlotSeated(conns, sid, t.slots[sid]);
      BindKeeps(t, conns, tokens, h, c, o, sid);
    }
  }

  lemma ResumeBindKeeps(t: Table, conns: map<Ws, Conn>, tokens: map<Token, TokenEntry>, h: History, c: Conn, now: int,
                        cfg: Config)
    requires Good(t, conns, tokens, h) && c.ws in conns && conns[c.ws] == c && c.ctl.Resumed?
    requires c.ctl.next.ResumeTokenLimited?
    ensures KeepsFaith(conns, tokens, h, c, AfterResumeTokenLimited(t, c, c.ctl.next.device, c.ctl.reply, now, cfg))
  {
    var o := AfterResumeTokenLimited(t, c, c.ctl.next.device, c.ctl.reply, now, cfg);
    assert Shaped(c.ws, c);
    if o.conn.session == None {
      QuietKeeps(t, conns, tokens, h, c, o);
    } else {
      var sid := t.devices[c.ctl.next.device];
      assert DeviceOk(t, h, conns, c.ctl.next.device, sid) && SlotSeated(conns, sid, t.slots[sid]);
      BindKeeps(t, conns, tokens, h, c, o, sid);
    }
  }

  lemma TeardownKeepsFaith(t: Table, conns: map<Ws, Conn>, tokens: map<Token, TokenEntry>, h: History, c: Conn,
                           sid: SessionId, k: Cont)
    requires Faithful(t, conns, tokens, h) && c.ws in conns && conns[c.ws] == c && c.session == Some(sid)
    requires k == Loop || k == Finishing
    ensures KeepsFaith(conns, tokens, h, c, Teardown(t, c, sid, k))
  {
    var o := Teardown(t, c, sid, k);
    var h1 := Note(h, Removed(sid));
    NoteOne(h, Removed(sid));
    assert ConnOk(t, h, c.ws, c) && ClaimOk(h, conns, sid);
    forall w | w in conns && w != c.ws && Concerns(conns[w], sid) ensures ConnOk(o.table, h1, w, conns[w]) {
      assert ConnOk(t, h, w, conns[w]);
    }
    FrameKeeps(t, conns, tokens, h, o.table, tokens, h1, o.conn, sid);
  }

  lemma DetachKeepsFaith(t: Table, conns: map<Ws, Conn>, tokens: map<Token, TokenEntry>, h: History, c: Conn,
                         o: Outcome, sid: SessionId)
    requires Good(t, conns, tokens, h) && c.ws in conns && conns[c.ws] == c && c.ctl.Unwinding?
    requires c.session == Some(sid)
    requires o.table == t.Detach(sid, c.role) && o.events == []
    requires o.conn == c.(ctl := o.conn.ctl) && o.conn.ctl.Awaiting? && o.conn.ctl.next == Notified(sid)
    ensures KeepsFaith(conns, tokens, h, c, o)
  {
    assert NoteAll(h, o.events) == h;
    DetachSettles(t, conns, tokens, h, c, o.conn, sid);
    FrameKeeps(t, conns, tokens, h, o.table, tokens, h, o.conn, sid);
  }

  lemma DetachSettles(t: Table, conns: map<Ws, Conn>, tokens: map<Token, TokenEntry>, h: History, c: Conn, c1: Conn,
                      sid: SessionId)
    requires Good(t, conns, tokens, h) && c.ws in conns && conns[c.ws] == c && c.ctl.Unwinding?
    requires c.session == Some(sid)
    requires c1 == c.(ctl := c1.ctl) && c1.ctl.Awaiting? && c1.ctl.next == Notified(sid)
    ensures Settled(t.Detach(sid, c.role), conns, tokens, h, c1, sid)
  {
    var t1 := t.Detach(sid, c.role);
    assert ConnOk(t, h, c.ws, c) && ClaimOk(h, conns, sid);
    assert sid in t.slots ==> SlotOk(h, sid, t.slots[sid]);
    DetachFrees(t, conns, tokens, h, c, sid);
    forall d | d in t.devices && t.devices[d] == sid ensures DeviceOk(t1, h, conns[c.ws := c1], d, sid) {
      assert DeviceOk(t, h, conns, d, sid);
    }
  }

  // Detaching frees no seat but the connection's own.
  lemma DetachFrees(t: Table, conns: map<Ws, Conn>, tokens: map<Token, TokenEntry>, h: History, c: Conn, sid: SessionId)
    requires Good(t, conns, tokens, h) && c.ws in conns && conns[c.ws] == c && c.Live() && c.session == Some(sid)
    ensures forall w :: w in conns && w != c.ws && Concerns(conns[w], sid) ==>
              ConnOk(t.Detach(sid, c.role), h, w, conns[w])
  {
    assert ConnOk(t, h, c.ws, c);
    forall w | w in conns && w != c.ws
      && Concerns(conns[w], sid) ensures ConnOk(t.Detach(sid, c.role), h, w, conns[w]) {
      assert ConnOk(t, h, w, conns[w]);
    }
  }

  lemma UnwindKeepsFaith(t: Table, conns: map<Ws, Conn>, tokens: map<Token, TokenEntry>, h: History, c: Conn,
                         peerOpen: bool)
    requires Good(t, conns, tokens, h) && c.ws in conns && conns[c.ws] == c && c.ctl.Unwinding? && c.session.Some?
    ensures KeepsFaith(conns, tokens, h, c, Unwind(t, c, peerOpen))
  {
    var o := Unwind(t, c, peerOpen);
    var sid := c.session.value;
    if o.events == [] {
      DetachKeepsFaith(t, conns, tokens, h, c, o, sid);
    } else {
      var notifying := Wait(t.Detach(sid, c.role), c, Send(c.ws, PeerGone), Notified(sid));
      DetachKeepsFaith(t, conns, tokens, h, c, notifying, sid);
      assert NoteAll(h, []) == h;
      TeardownKeepsFaith(notifying.table, conns[c.ws := notifying.conn], tokens, h, notifying.conn, sid, Finishing);
      assert conns[c.ws := notifying.conn][c.ws := o.conn] == conns[c.ws := o.conn];
    }
  }

  // A connection that never bound just ends.
  lemma EndKeepsFaith(t: Table, conns: map<Ws, Conn>, tokens: map<Token, TokenEntry>, h: History, c: Conn, o: Outcome)
    requires Good(t, conns, tokens, h) && c.ws in conns && conns[c.ws] == c
    requires o == Outcome(t, c.(ctl := Finished), [])
    requires !(c.session.Some? && (c.ctl.Awaiting? || c.ctl.Resumed?) && c.ctl.next.Notified?)
    ensures KeepsFaith(conns, tokens, h, c, o)
  {
    assert NoteAll(h, o.events) == h;
    assert ConnOk(t, h, c.ws, c);
    forall d | d in t.devices ensures DeviceOk(t, h, conns[c.ws := o.conn], d, t.devices[d]) {
      assert DeviceOk(t, h, conns, d, t.devices[d]);
    }
  }

  // ----- awaited commands

  // A command that leaves the history alone; it may delete tokens.
  lemma AnswerKeeps(t: Table, conns: map<Ws, Conn>, tokens: map<Token, TokenEntry>, h: History, c: Conn, reply: Reply,
                    tokens1: map<Token, TokenEntry>)
    requires Good(t, conns, tokens, h) && c.ws in conns && conns[c.ws] == c && c.ctl.Awaiting? && !reply.Granted?
    requires forall token :: token in tokens1 ==> token in tokens && tokens1[token] == tokens[token]
    ensures Faithful(t, conns[c.ws := c.(ctl := Resumed(c.ctl.next, reply))], tokens1, h)
  {
    var conns1 := conns[c.ws := c.(ctl := Resumed(c.ctl.next, reply))];
    assert ConnOk(t, h, c.ws, c);
    forall d | d in t.devices ensures DeviceOk(t, h, conns1, d, t.devices[d]) {
      assert DeviceOk(t, h, conns, d, t.devices[d]);
    }
    forall token | token in tokens1 ensures TokenOk(h, token, tokens1[token]) {
      assert TokenOk(h, token, tokens[token]);
    }
  }

  lemma IssueKeeps(t: Table, conns: map<Ws, Conn>, tokens: map<Token, TokenEntry>, h: History, c: Conn, reply: Reply,
                   token: Token, e: TokenEntry, sid: SessionId)
    requires Good(t, conns, tokens, h) && c.ws in conns && conns[c.ws] == c
    requires c.ctl == Awaiting(IssueToken(token, sid), InitIssued(sid, token))
    requires e.sid == sid && !e.consumed && !reply.Granted?
    ensures sid in h
    ensures Faithful(t, conns[c.ws := c.(ctl := Resumed(c.ctl.next, reply))], tokens[token := e],
                     h[sid := h[sid].(token := Some(token))])
  {
    var c1 := c.(ctl := Resumed(c.ctl.next, reply));
    assert Shaped(c.ws, c) && ConnOk(t, h, c.ws, c) && ClaimOk(h, conns, sid);
    var h1 := h[sid := h[sid].(token := Some(token))];
    forall other | other in tokens && other != token ensures tokens[other].sid != sid {
      assert TokenOk(h, other, tokens[other]);
    }
    forall w | w in conns && w != c.ws && Concerns(conns[w], sid) ensures ConnOk(t, h1, w, conns[w]) {
      assert ConnOk(t, h, w, conns[w]);
    }
    forall d | d in t.devices ensures t.devices[d] != sid {
      assert DeviceOk(t, h, conns, d, t.devices[d]);
    }
    FrameKeeps(t, conns, tokens, h, t, tokens[token := e], h1, c1, sid);
  }

  lemma ConsumeKeeps(t: Table, conns: map<Ws, Conn>, tokens: map<Token, TokenEntry>, h: History, c: Conn, reply: Reply,
                     token: Token)
    requires Good(t, conns, tokens, h) && c.ws in conns && conns[c.ws] == c
    requires c.ctl == Awaiting(ConsumeToken(token), RequestConsumed)
    requires token in tokens && !tokens[token].consumed
    requires reply == Failed || reply == Granted(tokens[token].sid, tokens[token].serial)
    ensures tokens[token].sid in h
    ensures var sid := tokens[token].sid;
            Faithful(t, conns[c.ws := c.(ctl := Resumed(RequestConsumed, reply))],
              tokens[token := tokens[token].(consumed := true)], h[sid := h[sid].(redeemed := Some(c.ws))])
  {
    var sid := tokens[token].sid;
    var c1 := c.(ctl := Resumed(RequestConsumed, reply));
    assert Shaped(c.ws, c) && ConnOk(t, h, c.ws, c) && TokenOk(h, token, tokens[token]) && ClaimOk(h, conns, sid);
    var h1 := h[sid := h[sid].(redeemed := Some(c.ws))];
    var tokens1 := tokens[token := tokens[token].(consumed := true)];
    forall other | other in tokens && other != token ensures tokens[other].sid != sid {
      assert TokenOk(h, other, tokens[other]);
    }
    forall w | w in conns && w != c.ws && Concerns(conns[w], sid) ensures ConnOk(t, h1, w, conns[w]) {
      assert ConnOk(t, h, w, conns[w]);
    }
    forall d | d in t.devices ensures t.devices[d] != sid {
      assert DeviceOk(t, h, conns, d, t.devices[d]);
    }
    FrameKeeps(t, conns, tokens, h, t, tokens1, h1, c1, sid);
  }

  ghost predicate GoodState(s: State) {
    Good(s.table, s.conns, s.store.tokens, s.hist)
  }

  lemma EffectKeepsFaith(s: State, w: Ws, fault: Fault)
    requires Enabled(s, Effect(w, fault)) && GoodState(s)
    ensures var s1 := Perform(s, w, fault); Faithful(s1.table, s1.conns, s1.store.tokens, s1.hist)
  {
    var c := s.conns[w];
    assert Shaped(w, c);
    if fault == Lost(false) || EventsOf(s, w, c.ctl.op) == [] {
      assert NoteAll(s.hist, []) == s.hist;
      AnswerKeeps(s.table, s.conns, s.store.tokens, s.hist, c, ReplyTo(s, c.ctl.op, fault),
                  Perform(s, w, fault).store.tokens);
    } else if c.ctl.op.IssueToken? {
      IssueEffectKeeps(s, w, fault);
    } else {
      ConsumeEffectKeeps(s, w, fault);
    }
  }

  lemma IssueEffectKeeps(s: State, w: Ws, fault: Fault)
    requires Enabled(s, Effect(w, fault)) && GoodState(s) && fault != Lost(false)
    requires s.conns[w].ctl.op.IssueToken? && EventsOf(s, w, s.conns[w].ctl.op) != []
    ensures var s1 := Perform(s, w, fault); Faithful(s1.table, s1.conns, s1.store.tokens, s1.hist)
  {
    var c := s.conns[w];
    var op := c.ctl.op;
    assert Shaped(w, c);
    NoteOne(s.hist, Issued(op.sid, op.token, s.store.issued, s.now));
    var e := TokenEntry(op.sid, s.store.issued, false, s.now + s.cfg.tokenTtl);
    IssueKeeps(s.table, s.conns, s.store.tokens, s.hist, c, ReplyTo(s, op, fault), op.token, e, op.sid);
  }

  lemma ConsumeEffectKeeps(s: State, w: Ws, fault: Fault)
    requires Enabled(s, Effect(w, fault)) && GoodState(s) && fault != Lost(false)
    requires s.conns[w].ctl.op.ConsumeToken? && EventsOf(s, w, s.conns[w].ctl.op) != []
    ensures var s1 := Perform(s, w, fault); Faithful(s1.table, s1.conns, s1.store.tokens, s1.hist)
  {
    var c := s.conns[w];
    var op := c.ctl.op;
    assert Shaped(w, c);
    var e := s.store.tokens[op.token];
    NoteOne(s.hist, Consumed(e.sid, e.serial, w, s.now));
    ConsumeKeeps(s.table, s.conns, s.store.tokens, s.hist, c, ReplyTo(s, op, fault), op.token);
  }

  // pair_init gives up, or goes on to issue its token.
  lemma InitStepKeeps(t: Table, conns: map<Ws, Conn>, tokens: map<Token, TokenEntry>, h: History, c: Conn, now: int,
                      cfg: Config)
    requires Good(t, conns, tokens, h) && c.ws in conns && conns[c.ws] == c && c.ctl.Resumed?
    requires Moves(c.ctl.next, c.ctl.reply)
    requires c.ctl.next.InitLimited? || c.ctl.next.InitIssued? || c.ctl.next.InitUndone?
    ensures KeepsFaith(conns, tokens, h, c, Resume(t, c, c.ctl.next, c.ctl.reply, now, cfg))
  {
    var o := Resume(t, c, c.ctl.next, c.ctl.reply, now, cfg);
    assert Shaped(c.ws, c);
    if o.conn.session == c.session {
      QuietKeeps(t, conns, tokens, h, c, o);
    } else {
      UndoInitKeepsFaith(t, conns, tokens, h, c, o, c.ctl.next.sid);
    }
  }

  lemma ResumeKeepsFaith(t: Table, conns: map<Ws, Conn>, tokens: map<Token, TokenEntry>, h: History, c: Conn, now: int,
                         cfg: Config)
    requires Good(t, conns, tokens, h) && c.ws in conns && conns[c.ws] == c && c.ctl.Resumed?
    ensures KeepsFaith(conns, tokens, h, c, Resume(t, c, c.ctl.next, c.ctl.reply, now, cfg))
  {
    var k := c.ctl.next;
    assert Shaped(c.ws, c);
    if !Moves(k, c.ctl.reply) {
      ResumeQuiet(t, h, c, now, cfg);
      QuietKeeps(t, conns, tokens, h, c, Resume(t, c, k, c.ctl.reply, now, cfg));
    } else {
      match k
      case RequestConsumed => RequestBindKeeps(t, conns, tokens, h, c, now, cfg);
      case ResumeTokenLimited(_) => ResumeBindKeeps(t, conns, tokens, h, c, now, cfg);
      case CloseRouted(sid) => TeardownKeepsFaith(t, conns, tokens, h, c, sid, Loop);
      case Notified(sid) => TeardownKeepsFaith(t, conns, tokens, h, c, sid, Finishing);
      case Finishing => EndKeepsFaith(t, conns, tokens, h, c, Outcome(t, c.(ctl := Finished), []));
      case _ => InitStepKeeps(t, conns, tokens, h, c, now, cfg);
    }
  }

  lemma EnvelopeKeepsFaith(t: Table, conns: map<Ws, Conn>, tokens: map<Token, TokenEntry>, h: History, c: Conn, n: nat,
                           m: Message, now: int, cfg: Config)
    requires Good(t, conns, tokens, h) && c.ws in conns && conns[c.ws] == c && c.ctl.Receiving?
    requires ClaimsSession(c, n, m) ==> m.sid !in h
    ensures KeepsFaith(conns, tokens, h, c, OnEnvelope(t, c, n, m, now, cfg))
  {
    var o := OnEnvelope(t, c, n, m, now, cfg);
    assert Shaped(c.ws, c);
    if ClaimsSession(c, n, m) {
      ClaimKeeps(t, conns, tokens, h, c, n, m, now, cfg);
    } else {
      EnvelopeShape(t, h, c, n, m, now, cfg);
      if Quiet(t, h, c, o) {
        QuietKeeps(t, conns, tokens, h, c, o);
      } else {
        CompleteKeeps(t, conns, tokens, h, c.(lastSeq := n), o);
      }
    }
  }

  lemma UnwindingKeepsFaith(t: Table, conns: map<Ws, Conn>, tokens: map<Token, TokenEntry>, h: History, c: Conn,
                            peerOpen: bool)
    requires Good(t, conns, tokens, h) && c.ws in conns && conns[c.ws] == c && c.ctl.Unwinding?
    ensures KeepsFaith(conns, tokens, h, c, Unwind(t, c, peerOpen))
  {
    if c.session.Some? {
      UnwindKeepsFaith(t, conns, tokens, h, c, peerOpen);
    } else {
      EndKeepsFaith(t, conns, tokens, h, c, Outcome(t, c.(ctl := Finished), []));
    }
  }

  lemma SegmentKeepsFaith(s: State, a: Action)
    requires Enabled(s, a) && IsSegment(a) && Fresh(s, a) && GoodState(s)
    ensures KeepsFaith(s.conns, s.store.tokens, s.hist, s.conns[a.ws], SegmentOf(s, a))
  {
    var c := s.conns[a.ws];
    assert Shaped(a.ws, c);
    match a
    case Deliver(w, n, m) => EnvelopeKeepsFaith(s.table, s.conns, s.store.tokens, s.hist, c, n, m, s.now, s.cfg);
    case Run(w, peerOpen) =>
      if c.ctl.Unwinding? {
        UnwindingKeepsFaith(s.table, s.conns, s.store.tokens, s.hist, c, peerOpen);
      } else {
        ResumeKeepsFaith(s.table, s.conns, s.store.tokens, s.hist, c, s.now, s.cfg);
      }
    case _ => QuietKeeps(s.table, s.conns, s.store.tokens, s.hist, c, Raise(s.table, c));
  }

  lemma {:induction false} StepKeepsGood(s: State, a: Action)
    requires Enabled(s, a) && Fresh(s, a) && GoodState(s)
    ensures GoodState(Apply(s, a))
  {
    StepKeepsPlaced(s, a);
    if IsSegment(a) {
      StepIsCommit(s, a);
      SegmentKeepsFaith(s, a);
      PlacedIsNamed(s.table, s.conns);
      SegmentSocket(s, a);
    } else if a.Effect? {
      EffectKeepsFaith(s, a.ws, a.fault);
    } else if a.Connect? {
      ConnectKeeps(s, a.ws, a.role);
    }
  }

  lemma ConnectKeeps(s: State, w: Ws, role: Role)
    requires Enabled(s, Connect(w, role)) && GoodState(s)
    ensures var s1 := Apply(s, Connect(w, role)); Faithful(s1.table, s1.conns, s1.store.tokens, s1.hist)
  {
    var s1 := Apply(s, Connect(w, role));
    forall d | d in s1.table.devices ensures DeviceOk(s1.table, s1.hist, s1.conns, d, s1.table.devices[d]) {
      assert DeviceOk(s.table, s.hist, s.conns, d, s.table.devices[d]);
    }
    forall sid | sid in s1.hist ensures ClaimOk(s1.hist, s1.conns, sid) {
      assert ClaimOk(s.hist, s.conns, sid);
    }
  }

  lemma {:induction false} RunKeepsGood(s: State, acts: seq<Action>)
    requires Runs(s, acts) && FreshRun(s, acts) && GoodState(s)
    ensures GoodState(After(s, acts))
    decreases |acts|
  {
    if acts != [] {
      StepKeepsGood(s, acts[0]);
      RunKeepsGood(Apply(s, acts[0]), acts[1..]);
    }
  }
}
