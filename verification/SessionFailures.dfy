/**
 What a failing manifest write leads to: a lease that nobody holds, a manifest that differs from
 memory, and a session that comes back after it ended.
 */
module SessionFailures {
  import opened Prelude
  import opened SessionLifecycle
  import opened SessionHistory

  // ----- a lease without a holder

  // The attach starts a session whose record cannot be saved: the exception takes the token with it.
  predicate LosesToken(m: Manager, c: Call) {
    && c.op.Attach? && m.persistent && !c.saves
    && m.Knows(c.op.id) && m.sessions.records[c.op.id].status.Created?
    && (c.op.id in m.leases ==> m.leases[c.op.id].expiresAt <= c.mono)
  }

  // An attach that does not return its token has it accepted from then on exactly in this case.
  lemma {:induction false} TokenLostExactly(m: Manager, c: Call)
    requires WellKept(m.sessions) && OnlyLiveLeased(m) && c.op.Attach? && m.leaseSeconds > 0 && c.mono <= c.granted
    ensures LosesToken(m, c)
       <==> && !Ended(m, c).Done? && !m.Accepts(c.op.id, c.op.token, c.mono)
            && Next(m, c).Accepts(c.op.id, c.op.token, c.granted)
  {
    CommitShape(m, Decide(m, c), c.saves, c.op.id);
  }

  // Nothing that a caller without the token can do but completing the session or restarting the agent.
  predicate LeavesAlone(c: Call, id: Id, token: LeaseToken) {
    && !c.op.Reload?
    && !(c.op.Complete? && c.op.id == id)
    && !((c.op.Detach? || c.op.Terminate?) && c.op.id == id && c.op.token == token)
  }

  // All of them leave it alone before `end`.
  predicate AllLeaveAlone(calls: seq<Call>, id: Id, token: LeaseToken, end: int) {
    calls == [] ||
    var c := calls[|calls| - 1];
    (LeavesAlone(c, id, token) && c.mono < end && AllLeaveAlone(calls[..|calls| - 1], id, token, end))
  }

  // A call that leaves the session alone changes nothing about a lease still in force.
  lemma HolderStays(m: Manager, c: Call, id: Id, holder: Option<Lease>, token: LeaseToken)
    requires WellKept(m.sessions) && Sound(c) && LeavesAlone(c, id, token) && m.Accepts(id, token, c.mono)
    ensures HolderAfter(m, c, id, holder) == holder
  {
    assert Ended(m, c).Rejected? <==> !Decide(m, c).accepted;
  }

  lemma LeaseStaysStep(m: Manager, calls: seq<Call>, c: Call, id: Id, lease: Lease)
    requires WellKept(m.sessions) && AllSound(calls) && Sound(c) && m.leases == map[] && ClockRuns(calls + [c])
    requires LeavesAlone(c, id, lease.token) && c.mono < lease.expiresAt && Holder(m, calls, id) == Some(lease)
    ensures AllSound(calls + [c]) && Holder(m, calls + [c], id) == Some(lease)
  {
    var all := calls + [c];
    assert all[|calls|] == c;
    assert forall k :: 0 <= k < |calls| ==> all[k] == calls[k];
    HolderThen(m, calls, c, id);
    AcceptedExactlyWhenHeld(m, calls, id, lease.token, c.mono);
    HolderStays(After(m, calls), c, id, Some(lease), lease.token);
  }

  lemma LeaseStarts(m: Manager, past: seq<Call>, c: Call, id: Id)
    requires WellKept(m.sessions) && AllSound(past) && Sound(c) && Grants(After(m, past), c, id)
    ensures AllSound(past + [c]) && Holder(m, past + [c], id) == Some(Lease(c.op.token, c.granted + m.leaseSeconds))
  {
    SettingsStay(m, past);
    HolderThen(m, past, c, id);
  }

  lemma HolderThen(m: Manager, calls: seq<Call>, c: Call, id: Id)
    requires WellKept(m.sessions) && AllSound(calls) && Sound(c)
    ensures AllSound(calls + [c])
    ensures Holder(m, calls + [c], id) == HolderAfter(After(m, calls), c, id, Holder(m, calls, id))
  {
    var all := calls + [c];
    assert all[..|calls|] == calls && all[|calls|] == c;
  }

  lemma Prefixes(calls: seq<Call>, c: Call)
    requires AllSound(calls + [c]) && ClockRuns(calls + [c])
    ensures AllSound(calls) && Sound(c) && ClockRuns(calls)
  {
    var all := calls + [c];
    assert all[|calls|] == c;
    assert forall k :: 0 <= k < |calls| ==> all[k] == calls[k];
  }

  // The lease granted by `c` stays the session's until it runs out.
  lemma {:induction false} LeaseStays(m: Manager, past: seq<Call>, c: Call, between: seq<Call>, id: Id)
    requires WellKept(m.sessions) && AllSound(past + [c] + between) && m.leases == map[]
    requires ClockRuns(past + [c] + between)
    requires AllSound(past) && Sound(c) && Grants(After(m, past), c, id)
    requires AllLeaveAlone(between, id, c.op.token, c.granted + m.leaseSeconds)
    ensures Holder(m, past + [c] + between, id) == Some(Lease(c.op.token, c.granted + m.leaseSeconds))
  {
    if between == [] {
      assert past + [c] + between == past + [c];
      LeaseStarts(m, past, c, id);
    } else {
      var n := |between| - 1;
      var init, last := past + [c] + between[..n], between[n];
      assert between == between[..n] + [last];
      assert past + [c] + between == init + [last];
      Prefixes(init, last);
      LeaseStays(m, past, c, between[..n], id);
      LeaseStaysStep(m, init, last, id, Lease(c.op.token, c.granted + m.leaseSeconds));
    }
  }

  // Over any history: after an attach that lost its token every attach is refused for the lease
  // time, unless the session is completed, the agent restarts, or somebody presents that token.
  lemma {:induction false} LostTokenLocks(m: Manager, past: seq<Call>, c: Call, between: seq<Call>, later: Call)
    requires WellKept(m.sessions) && AllSound(past + [c] + between) && m.leases == map[] && m.leaseSeconds > 0
    requires ClockRuns(past + [c] + between + [later])
    requires AllSound(past) && LosesToken(After(m, past), c)
    requires AllLeaveAlone(between, c.op.id, c.op.token, c.granted + m.leaseSeconds)
    requires later.op.Attach? && later.op.id == c.op.id && later.mono < c.granted + m.leaseSeconds
    ensures Ended(After(m, past), c).SaveFailed?
    ensures Ended(After(m, past + [c] + between), later).Rejected?
  {
    var all := past + [c] + between;
    assert (all + [later])[|past|] == c && (all + [later])[|all|] == later;
    assert forall k :: 0 <= k < |all| ==> (all + [later])[k] == all[k];
    SettingsStay(m, past);
    NoLeaseOnFinal(m, past);
    TokenLostExactly(After(m, past), c);
    LeaseStays(m, past, c, between, c.op.id);
    AcceptedExactlyWhenHeld(m, all, c.op.id, c.op.token, later.mono);
    NoLeaseOnFinal(m, all);
    AttachExactlyWhenFree(After(m, all), later);
  }

  // ----- histories that fail

  // An agent started for the first time.
  function FirstStart(leaseSeconds: nat): Manager {
    Manager(NoSessions, map[], None, true, leaseSeconds)
  }

  lemma Then(m: Manager, calls: seq<Call>, c: Call)
    requires WellKept(m.sessions) && AllSound(calls) && Sound(c)
    ensures AllSound(calls + [c]) && After(m, calls + [c]) == Next(After(m, calls), c)
  {
    assert (calls + [c])[..|calls|] == calls;
  }

  const FirstCreate := Call(Create(SessionId(0), "build", "/"), 0, 0, 0, true)
  const FirstRecord := Record(SessionId(0), "build", "/", Status.Created, 0, 0, None)

  // The first session, created and saved.
  lemma CreatedFirst(leaseSeconds: nat)
    ensures var m := FirstStart(leaseSeconds);
            && WellKept(m.sessions) && OnlyLiveLeased(m) && m.InSync()
            && SessionId(0) in Next(m, FirstCreate).sessions.records
            && Next(m, FirstCreate).sessions.records[SessionId(0)] == FirstRecord
            && Next(m, FirstCreate).leases == map[] && Next(m, FirstCreate).persistent
            && Next(m, FirstCreate).leaseSeconds == leaseSeconds
            && Next(m, FirstCreate).InSync()
  {
    var m := FirstStart(leaseSeconds);
    assert m.Create(SessionId(0), "build", "/", 0) == Change(true, map[], Some(FirstRecord));
    CommitShape(m, Decide(m, FirstCreate), true, SessionId(0));
    InSyncStep(m, FirstCreate);
  }

  // What the first two and three calls of a history lead to.
  lemma FirstCalls(leaseSeconds: nat, first: Call, second: Call, third: Call)
    requires Sound(first) && Sound(second) && Sound(third)
    ensures WellKept(NoSessions) && AllSound([first, second]) && AllSound([first, second, third])
    ensures var m := Next(FirstStart(leaseSeconds), first);
            && After(FirstStart(leaseSeconds), [first, second]) == Next(m, second)
            && After(FirstStart(leaseSeconds), [first, second, third]) == Next(Next(m, second), third)
  {
    var m := FirstStart(leaseSeconds);
    Then(m, [], first);
    assert [] + [first] == [first];
    Then(m, [first], second);
    assert [first] + [second] == [first, second];
    Then(m, [first, second], third);
    assert [first, second] + [third] == [first, second, third];
  }

  const UnsavedStart := Call(Start(SessionId(0)), 1, 1, 1, false)
  const UnsavedEnd := Call(Complete(SessionId(0), Some(0)), 1, 1, 1, false)
  const Restart := Call(Reload, 2, 2, 2, true)

  lemma UnsavedStartMoves(m: Manager)
    requires WellKept(m.sessions) && OnlyLiveLeased(m) && m.persistent && m.InSync()
    requires m.Knows(SessionId(0)) && m.sessions.records[SessionId(0)].status.Created?
    ensures !Next(m, UnsavedStart).InSync()
  {
    InSyncExactly(m, UnsavedStart);
  }

  // Starting a session whose record cannot be saved leaves memory and manifest apart.
  lemma {:induction false} UnsavedStartDiffers(leaseSeconds: nat)
    ensures WellKept(NoSessions) && AllSound([FirstCreate, UnsavedStart])
    ensures !After(FirstStart(leaseSeconds), [FirstCreate, UnsavedStart]).InSync()
  {
    CreatedFirst(leaseSeconds);
    FirstCalls(leaseSeconds, FirstCreate, UnsavedStart, Restart);
    UnsavedStartMoves(Next(FirstStart(leaseSeconds), FirstCreate));
  }

  // A session that ended while its record could not be saved is back after a restart.
  lemma {:induction false} EndedSessionReturns(leaseSeconds: nat)
    ensures WellKept(NoSessions) && AllSound([FirstCreate, UnsavedEnd]) && AllSound([FirstCreate, UnsavedEnd, Restart])
    ensures var ended := After(FirstStart(leaseSeconds), [FirstCreate, UnsavedEnd]).sessions.records;
            SessionId(0) in ended && ended[SessionId(0)].status.Exited?
    ensures var back := After(FirstStart(leaseSeconds), [FirstCreate, UnsavedEnd, Restart]).sessions.records;
            SessionId(0) in back && back[SessionId(0)] == FirstRecord
  {
    CreatedFirst(leaseSeconds);
    FirstCalls(leaseSeconds, FirstCreate, UnsavedEnd, Restart);
    var m := Next(FirstStart(leaseSeconds), FirstCreate);
    CommitShape(m, Decide(m, UnsavedEnd), false, SessionId(0));
    WriteStep(m, UnsavedEnd);
  }

  const UnsavedCreate := Call(Create(SessionId(0), "build", "/"), 0, 0, 0, false)

  // The first session, created but not saved.
  lemma CreatedUnsaved(leaseSeconds: nat)
    ensures var m := FirstStart(leaseSeconds);
            && WellKept(m.sessions) && Next(m, UnsavedCreate).persistent && Next(m, UnsavedCreate).file == None
            && SessionId(0) in Next(m, UnsavedCreate).sessions.records
  {
    var m := FirstStart(leaseSeconds);
    assert m.Create(SessionId(0), "build", "/", 0) == Change(true, map[], Some(FirstRecord));
    CommitShape(m, Decide(m, UnsavedCreate), false, SessionId(0));
  }

  // A session that the manifest never mentioned is over and then vanishes at a restart.
  lemma {:induction false} EndedSessionVanishes(leaseSeconds: nat)
    ensures WellKept(NoSessions) && AllSound([UnsavedCreate, UnsavedEnd])
    ensures AllSound([UnsavedCreate, UnsavedEnd, Restart])
    ensures Over(After(FirstStart(leaseSeconds), [UnsavedCreate, UnsavedEnd]).sessions, SessionId(0))
    ensures SessionId(0) !in After(FirstStart(leaseSeconds), [UnsavedCreate, UnsavedEnd, Restart]).sessions.records
  {
    CreatedUnsaved(leaseSeconds);
    FirstCalls(leaseSeconds, UnsavedCreate, UnsavedEnd, Restart);
    var m := Next(FirstStart(leaseSeconds), UnsavedCreate);
    CommitShape(m, Decide(m, UnsavedEnd), false, SessionId(0));
    WriteStep(m, UnsavedEnd);
  }

  const UnsavedAttach := Call(Attach(SessionId(0), "t"), 1, 1, 1, false)
  const Retry := Call(Attach(SessionId(0), "u"), 2, 2, 2, true)

  // The first attach raises, and the session is locked although nobody was given a token.
  lemma {:induction false} FailedAttachLocksOut(leaseSeconds: nat)
    requires leaseSeconds >= 2
    ensures WellKept(NoSessions) && AllSound([FirstCreate]) && AllSound([FirstCreate, UnsavedAttach])
    ensures Ended(After(FirstStart(leaseSeconds), [FirstCreate]), UnsavedAttach).SaveFailed?
    ensures Ended(After(FirstStart(leaseSeconds), [FirstCreate, UnsavedAttach]), Retry).Rejected?
  {
    CreatedFirst(leaseSeconds);
    FirstCalls(leaseSeconds, FirstCreate, UnsavedAttach, Retry);
    Then(FirstStart(leaseSeconds), [], FirstCreate);
    assert [] + [FirstCreate] == [FirstCreate];
    NextAttachRefused(Next(FirstStart(leaseSeconds), FirstCreate), UnsavedAttach, Retry);
  }

  lemma NextAttachRefused(m: Manager, c: Call, later: Call)
    requires WellKept(m.sessions) && LosesToken(m, c) && later.op.Attach? && later.op.id == c.op.id
    requires later.mono < c.granted + m.leaseSeconds
    ensures Ended(m, c).SaveFailed? && Ended(Next(m, c), later).Rejected?
  {
    CommitShape(m, Decide(m, c), c.saves, c.op.id);
  }
}
