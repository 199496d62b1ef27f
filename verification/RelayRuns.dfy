/** Building blocks for concrete runs: one action at a time, and what it leaves. */
module RelayRuns {
  import opened Prelude
  import opened RoutingTable
  import opened Pairing
  import opened Router
  import opened Relay
  import opened RelayPlacement

  lemma {:induction false} Join(s: State, acts: seq<Action>, more: seq<Action>)
    requires Runs(s, acts) && Runs(After(s, acts), more)
    ensures Runs(s, acts + more) && After(s, acts + more) == After(After(s, acts), more)
    decreases |acts|
  {
    if acts == [] {
      assert acts + more == more;
    } else {
      Join(Apply(s, acts[0]), acts[1..], more);
      assert (acts + more)[0] == acts[0] && (acts + more)[1..] == acts[1..] + more;
    }
  }

  lemma One(s: State, a: Action)
    requires Enabled(s, a)
    ensures Runs(s, [a]) && After(s, [a]) == Apply(s, a)
  {
    assert Runs(Apply(s, a), []);
  }

  lemma Then(s: State, acts: seq<Action>, a: Action)
    requires Runs(s, acts) && Enabled(After(s, acts), a)
    ensures Runs(s, acts + [a]) && After(s, acts + [a]) == Apply(After(s, acts), a)
  {
    One(After(s, acts), a);
    Join(s, acts, [a]);
  }

  // From `t` to `t1` only the connection `w` moved, to `c1`, and the log grew by `events`.
  ghost predicate Moved(t: State, t1: State, w: Ws, table1: Table, c1: Conn, events: seq<Event>) {
    && t1.table == table1 && t1.log == t.log + events && t1.now == t.now && t1.cfg == t.cfg
    && w in t1.conns && t1.conns[w] == c1
    && t1.conns.Keys == t.conns.Keys + {w}
    && forall v :: v in t.conns && v != w ==> t1.conns[v] == t.conns[v]
  }

  lemma Step(s: State, acts: seq<Action>, a: Action, t1: Table, c1: Conn, events: seq<Event>)
    returns (acts1: seq<Action>)
    requires Runs(s, acts) && Enabled(After(s, acts), a) && IsSegment(a) && c1.ws == a.ws
    requires SegmentOf(After(s, acts), a) == Outcome(t1, c1, events)
    ensures Runs(s, acts1) && Moved(After(s, acts), After(s, acts1), a.ws, t1, c1, events)
    ensures After(s, acts1).store == After(s, acts).store
  {
    Then(s, acts, a);
    acts1 := acts + [a];
    StepIsCommit(After(s, acts), a);
  }

  // A send, a limiter check or a delete that succeeds.
  lemma Answered(s: State, acts: seq<Action>, w: Ws) returns (acts1: seq<Action>)
    requires Runs(s, acts) && w in After(s, acts).conns && After(s, acts).conns[w].ctl.Awaiting?
    requires var op := After(s, acts).conns[w].ctl.op; op.Send? || op.IpLimit? || op.TokenLimit? || op.DeleteRecord?
    ensures Runs(s, acts1)
    ensures var t := After(s, acts);
            && Moved(t, After(s, acts1), w, t.table, t.conns[w].(ctl := Resumed(t.conns[w].ctl.next, Ok)), [])
            && (!t.conns[w].ctl.op.DeleteRecord? ==> After(s, acts1).store == t.store)
  {
    Then(s, acts, Effect(w, Fine));
    acts1 := acts + [Effect(w, Fine)];
  }

  function Listening(t: State, c: Conn): Conn {
    Listen(t.table, c, t.now, t.cfg).conn
  }

  // The awaited command succeeds and the connection listens again.
  lemma BackToLoop(s: State, acts: seq<Action>, w: Ws) returns (acts1: seq<Action>)
    requires Runs(s, acts) && w in After(s, acts).conns && After(s, acts).conns[w].ws == w
    requires After(s, acts).conns[w].ctl.Awaiting?
    requires var ctl := After(s, acts).conns[w].ctl; (ctl.op.Send? || ctl.op.DeleteRecord?) && ctl.next == Loop
    ensures Runs(s, acts1)
    ensures var t := After(s, acts); Moved(t, After(s, acts1), w, t.table, Listening(t, t.conns[w]), [])
  {
    var t := After(s, acts);
    acts1 := Answered(s, acts, w);
    acts1 := Step(s, acts1, Run(w, true), t.table, Listening(t, t.conns[w]), []);
  }

  // A connection that has just arrived and listens.
  function Idler(t: State, w: Ws, role: Role): Conn {
    Conn(w, role, None, 0, Some(t.now + t.cfg.handshakeTimeout), Receiving(Some(t.now + t.cfg.handshakeTimeout)))
  }

  lemma Arrive(s: State, acts: seq<Action>, w: Ws, role: Role) returns (acts1: seq<Action>)
    requires Runs(s, acts) && w !in After(s, acts).conns
    ensures Runs(s, acts1)
    ensures Moved(After(s, acts), After(s, acts1), w, After(s, acts).table, Idler(After(s, acts), w, role), [])
    ensures After(s, acts1).store == After(s, acts).store
  {
    var t := After(s, acts);
    Then(s, acts, Connect(w, role));
    acts1 := Step(s, acts + [Connect(w, role)], Run(w, true), t.table, Idler(t, w, role), []);
  }

  // Any command whose outcome the model does not leave open, succeeding or lost.
  lemma Commanded(s: State, acts: seq<Action>, w: Ws, fault: Fault) returns (acts1: seq<Action>)
    requires Runs(s, acts) && w in After(s, acts).conns && After(s, acts).conns[w].ctl.Awaiting?
    ensures Runs(s, acts1) && After(s, acts1) == Perform(After(s, acts), w, fault)
  {
    Then(s, acts, Effect(w, fault));
    acts1 := acts + [Effect(w, fault)];
  }

  // The connection `w` went from `t` to `t1` alone, leaving this table, connection, store and events.
  ghost predicate Went(t: State, t1: State, w: Ws, table1: Table, c1: Conn, store1: Store, events: seq<Event>) {
    Moved(t, t1, w, table1, c1, events) && t1.store == store1
  }

  function Replied(t: State, w: Ws): Reply
    requires w in t.conns && t.conns[w].ctl.Awaiting?
  {
    ReplyTo(t, t.conns[w].ctl.op, Fine)
  }

  // What the connection does once the command it awaits has succeeded.
  function Continues(t: State, w: Ws): Outcome
    requires w in t.conns && t.conns[w].ctl.Awaiting?
  {
    var c := t.conns[w];
    Resume(t.table, c.(ctl := Resumed(c.ctl.next, Replied(t, w))), c.ctl.next, Replied(t, w), t.now, t.cfg)
  }

  lemma MovedOn(t: State, t1: State, t2: State, w: Ws, table1: Table, c1: Conn, events1: seq<Event>,
                table2: Table, c2: Conn, events2: seq<Event>)
    requires Moved(t, t1, w, table1, c1, events1) && Moved(t1, t2, w, table2, c2, events2)
    ensures Moved(t, t2, w, table2, c2, events1 + events2)
  {
    assert t.log + events1 + events2 == t.log + (events1 + events2);
  }

  // Two connections move, one after the other.
  lemma BothMoved(t: State, t1: State, t2: State, v: Ws, w: Ws, table1: Table, c1: Conn, events1: seq<Event>,
                  table2: Table, c2: Conn)
    requires v != w && v !in t.conns && w !in t.conns
    requires Moved(t, t1, v, table1, c1, events1) && Moved(t1, t2, w, table2, c2, [])
    ensures t2.conns.Keys == t.conns.Keys + {v, w} && t2.conns[v] == c1 && t2.conns[w] == c2 && t2.table == table2
    ensures (forall u :: u in t.conns ==> t2.conns[u] == t.conns[u]) && t2.log == t.log + events1
    ensures t2.now == t.now && t2.cfg == t.cfg
  {
  }

  lemma WentOn(t: State, t1: State, t2: State, w: Ws, table1: Table, c1: Conn, store1: Store, events1: seq<Event>,
               table2: Table, c2: Conn, store2: Store, events2: seq<Event>)
    requires Went(t, t1, w, table1, c1, store1, events1) && Went(t1, t2, w, table2, c2, store2, events2)
    ensures Went(t, t2, w, table2, c2, store2, events1 + events2)
  {
    assert t.log + events1 + events2 == t.log + (events1 + events2);
  }

  lemma Effected(s: State, acts: seq<Action>, w: Ws) returns (acts1: seq<Action>)
    requires Runs(s, acts) && w in After(s, acts).conns && After(s, acts).conns[w].ctl.Awaiting?
    ensures Runs(s, acts1)
    ensures var t := After(s, acts);
            var c := t.conns[w];
            Went(t, After(s, acts1), w, t.table, c.(ctl := Resumed(c.ctl.next, Replied(t, w))),
                 StoreAfter(t, w, c.ctl.op), EventsOf(t, w, c.ctl.op))
  {
    acts1 := Commanded(s, acts, w, Fine);
  }

  // The awaited command succeeds and the handler runs up to its next await.
  lemma Proceed(s: State, acts: seq<Action>, w: Ws, table1: Table, c1: Conn, events: seq<Event>)
    returns (acts1: seq<Action>)
    requires Runs(s, acts) && w in After(s, acts).conns && c1.ws == w && After(s, acts).conns[w].ctl.Awaiting?
    requires Continues(After(s, acts), w) == Outcome(table1, c1, events)
    ensures Runs(s, acts1)
    ensures var t := After(s, acts);
            var op := t.conns[w].ctl.op;
            Went(t, After(s, acts1), w, table1, c1, StoreAfter(t, w, op), EventsOf(t, w, op) + events)
  {
    var t := After(s, acts);
    var c, op := t.conns[w], t.conns[w].ctl.op;
    acts1 := Effected(s, acts, w);
    var t1 := After(s, acts1);
    acts1 := Step(s, acts1, Run(w, true), table1, c1, events);
    WentOn(t, t1, After(s, acts1), w, t.table, c.(ctl := Resumed(c.ctl.next, Replied(t, w))), StoreAfter(t, w, op),
           EventsOf(t, w, op), table1, c1, StoreAfter(t, w, op), events);
  }

  // An arrived connection delivers its first envelope.
  lemma Speak(s: State, acts: seq<Action>, w: Ws, n: nat, m: Message, table1: Table, c1: Conn, events: seq<Event>)
      returns (acts1: seq<Action>)
    requires Runs(s, acts) && w in After(s, acts).conns && c1.ws == w && After(s, acts).conns[w].ctl.Receiving?
    requires var t := After(s, acts);
             OnEnvelope(t.table, t.conns[w], n, m, t.now, t.cfg) == Outcome(table1, c1, events)
    ensures Runs(s, acts1) && Went(After(s, acts), After(s, acts1), w, table1, c1, After(s, acts).store, events)
  {
    acts1 := Step(s, acts, Deliver(w, n, m), table1, c1, events);
  }
}
