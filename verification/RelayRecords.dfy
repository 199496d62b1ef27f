/**
 Session records in Redis. Unless one of three commands is lost in the way that matters, a record
 never outlives the connections bound to its session, whatever else fails and whatever ids agents choose.
 `RelayCounterexamples` has a late write that brings a deleted record back, and a failed command
 that leaks one for good.
 */
module RelayRecords {
  import opened Prelude
  import opened RoutingTable
  import opened Pairing
  import opened Router
  import opened Relay
  import opened RelayPlacement

  // The coroutine has run its own delete, its last command.
  ghost predicate PastDelete(c: Conn) {
    c.ctl.Finished? || (c.ctl.Resumed? && c.ctl.next.Finishing?)
  }

  // pair_init has not created the record, or is being undone without having done so.
  ghost predicate BeforeRecord(c: Conn) {
    || (c.ctl.Awaiting? && InitWithoutRecord(c.ctl.next))
    || (c.ctl.Resumed? && InitWithoutRecord(c.ctl.next) && (c.ctl.next.InitRecorded? ==> c.ctl.reply == Failed))
  }

  predicate InitWithoutRecord(k: Cont) {
    k.InitLimited? || k.InitIssued? || k.InitRecorded? || k.InitUndone?
  }

  ghost predicate RecordOwned(s: State, sid: SessionId)
    requires sid in s.store.records
  {
    var w := s.store.records[sid].writer;
    w in s.conns && s.conns[w].session == Some(sid) && !PastDelete(s.conns[w]) && !BeforeRecord(s.conns[w])
  }

  // The command that sets the new record's expiry has not failed.
  ghost predicate Unfailed(c: Conn) {
    c.ctl.Resumed? && c.ctl.next.InitExpiring? ==> c.ctl.reply != Failed
  }

  ghost predicate RecordsOwned(s: State) {
    && Placed(s.table, s.conns)
    && (forall w :: w in s.conns ==> Unfailed(s.conns[w]))
    && (forall sid :: sid in s.store.records ==> RecordOwned(s, sid))
  }

  // The losses that leave a record behind: its creation took effect but seemed to fail, the command
  // that gives it an expiry seemed to fail, or the delete at the end did nothing.
  predicate LeavesRecord(k: Cont, fault: Fault) {
    || (k.InitRecorded? && fault == Lost(true))
    || (k.InitExpiring? && fault.Lost?)
    || (k.Finishing? && fault == Lost(false))
  }

  predicate RedisAnswers(s: State, a: Action) {
    a.Effect? && a.ws in s.conns && s.conns[a.ws].ctl.Awaiting? ==> !LeavesRecord(s.conns[a.ws].ctl.next, a.fault)
  }

  predicate RedisAlwaysAnswers(s: State, acts: seq<Action>)
    requires Runs(s, acts)
    decreases |acts|
  {
    acts == [] || (RedisAnswers(s, acts[0]) && RedisAlwaysAnswers(Apply(s, acts[0]), acts[1..]))
  }

  ghost predicate KeepsRecord(c: Conn, c1: Conn) {
    && Unfailed(c1)
    && (!BeforeRecord(c) && c.session.Some? && !PastDelete(c) ==>
          c1.session == c.session && !PastDelete(c1) && !BeforeRecord(c1))
  }

  lemma EnvelopeKeepsRecord(t: Table, c: Conn, n: nat, m: Message, now: int, cfg: Config)
    requires c.ctl.Receiving?
    ensures KeepsRecord(c, OnEnvelope(t, c, n, m, now, cfg).conn)
  {
  }

  lemma ResumeKeepsRecord(t: Table, c: Conn, now: int, cfg: Config)
    requires c.ctl.Resumed? && Unfailed(c) && Shaped(c.ws, c)
    ensures KeepsRecord(c, Resume(t, c, c.ctl.next, c.ctl.reply, now, cfg).conn)
  {
  }

  lemma UnwindKeepsRecord(t: Table, c: Conn, peerOpen: bool)
    requires c.ctl.Unwinding?
    ensures KeepsRecord(c, Unwind(t, c, peerOpen).conn)
  {
  }

  lemma SegmentKeepsRecord(s: State, a: Action)
    requires Enabled(s, a) && IsSegment(a) && RecordsOwned(s)
    ensures KeepsRecord(s.conns[a.ws], SegmentOf(s, a).conn)
  {
    var c := s.conns[a.ws];
    assert Shaped(a.ws, c);
    match a
    case Deliver(_, n, m) => EnvelopeKeepsRecord(s.table, c, n, m, s.now, s.cfg);
    case Run(_, peerOpen) =>
      if c.ctl.Unwinding? {
        UnwindKeepsRecord(s.table, c, peerOpen);
      } else {
        ResumeKeepsRecord(s.table, c, s.now, s.cfg);
      }
    case _ =>
  }

  lemma StepKeepsRecords(s: State, a: Action)
    requires Enabled(s, a) && RecordsOwned(s) && !a.Effect?
    ensures RecordsOwned(Apply(s, a))
  {
    PlacedIsNamed(s.table, s.conns);
    StepKeepsPlaced(s, a);
    StepFrame(s, a);
    if IsSegment(a) {
      SegmentKeepsRecord(s, a);
    }
    var s1 := Apply(s, a);
    assert s1.store == s.store;
    forall sid | sid in s1.store.records ensures RecordOwned(s1, sid) {
      assert RecordOwned(s, sid);
    }
  }

  // What an answered command does to the records.
  lemma CommandKeepsRecords(s: State, w: Ws, reply: Reply, sid: SessionId)
    requires RecordsOwned(s) && w in s.conns && s.conns[w].ctl.Awaiting?
    requires sid in StoreAfter(s, w, s.conns[w].ctl.op).records
    ensures var c := s.conns[w];
            var c1 := c.(ctl := Resumed(c.ctl.next, reply));
            var v := StoreAfter(s, w, c.ctl.op).records[sid].writer;
            && v in s.conns && (v == w ==> c1.session == Some(sid))
            && (v == w && !c.ctl.next.Finishing? ==> !PastDelete(c1))
            && (v == w && (c.ctl.next.InitRecorded? ==> reply != Failed) ==> !BeforeRecord(c1))
            && (v != w ==> s.conns[v].session == Some(sid) && !PastDelete(s.conns[v]) && !BeforeRecord(s.conns[v]))
  {
    assert Shaped(w, s.conns[w]);
    assert sid in s.store.records ==> RecordOwned(s, sid);
  }

  lemma EffectKeepsRecords(s: State, w: Ws, fault: Fault)
    requires Enabled(s, Effect(w, fault)) && RecordsOwned(s) && RedisAnswers(s, Effect(w, fault))
    ensures RecordsOwned(Perform(s, w, fault))
  {
    StepKeepsPlaced(s, Effect(w, fault));
    var c := s.conns[w];
    assert Shaped(w, c);
    var s1 := Perform(s, w, fault);
    assert s1.store.records == if fault == Lost(false) then s.store.records else StoreAfter(s, w, c.ctl.op).records;
    forall sid | sid in s1.store.records ensures RecordOwned(s1, sid) {
      assert sid in s.store.records ==> RecordOwned(s, sid);
      if fault != Lost(false) {
        CommandKeepsRecords(s, w, ReplyTo(s, c.ctl.op, fault), sid);
      }
    }
  }

  lemma {:induction false} RunKeepsRecords(s: State, acts: seq<Action>)
    requires Runs(s, acts) && RedisAlwaysAnswers(s, acts) && RecordsOwned(s)
    ensures RecordsOwned(After(s, acts))
    decreases |acts|
  {
    if acts != [] {
      if acts[0].Effect? {
        EffectKeepsRecords(s, acts[0].ws, acts[0].fault);
      } else {
        StepKeepsRecords(s, acts[0]);
      }
      RunKeepsRecords(Apply(s, acts[0]), acts[1..]);
    }
  }

  /** Once every connection bound to a session has finished, its record is gone. */
  lemma {:induction false} NoRecordOutlivesItsSession(cfg: Config, start: int, acts: seq<Action>, sid: SessionId)
    requires Runs(Init(cfg, start), acts) && RedisAlwaysAnswers(Init(cfg, start), acts)
    requires var s := After(Init(cfg, start), acts);
             forall w :: w in s.conns && s.conns[w].session == Some(sid) ==> s.conns[w].ctl.Finished?
    ensures sid !in After(Init(cfg, start), acts).store.records
  {
    RunKeepsRecords(Init(cfg, start), acts);
    var s := After(Init(cfg, start), acts);
    assert sid in s.store.records ==> RecordOwned(s, sid);
  }
}
