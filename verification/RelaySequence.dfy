/**
 Sequence numbers across the relay: a sender that counts upwards is never refused by the relay, and
 what the relay forwards passes the replay check of the agent that receives it.
 */
module RelaySequence {
  import opened Prelude
  import opened RoutingTable
  import opened Pairing
  import opened Router
  import opened Relay
  import opened RelayPlacement
  import opened RelayRouting
  import opened RelayTraffic
  import Channel
  import AgentState

  // ----- from a sender to the relay

  // The numbers that `w` delivers grow, from `after` on.
  ghost predicate CountsUp(acts: seq<Action>, w: Ws, after: nat) {
    && (forall i :: 0 <= i < |acts| && DeliveredBy(acts[i], w) ==> acts[i].n > after)
    && (forall i, j :: 0 <= i < j < |acts| && DeliveredBy(acts[i], w) && DeliveredBy(acts[j], w) ==>
          acts[i].n < acts[j].n)
  }

  predicate DeliveredBy(a: Action, w: Ws) {
    a.Deliver? && a.ws == w
  }

  lemma ResumeKeepsNumber(t: Table, c: Conn, now: int, cfg: Config)
    requires c.ctl.Resumed?
    ensures Resume(t, c, c.ctl.next, c.ctl.reply, now, cfg).conn.lastSeq == c.lastSeq
  {
  }

  // Only a delivered envelope moves the number a connection has reached.
  lemma StepNumber(s: State, a: Action, w: Ws)
    requires Enabled(s, a) && Named(s.conns) && w in s.conns
    ensures w in Apply(s, a).conns
    ensures !DeliveredBy(a, w) ==> Apply(s, a).conns[w].lastSeq == s.conns[w].lastSeq
    ensures DeliveredBy(a, w) && a.n > s.conns[w].lastSeq ==> Apply(s, a).conns[w].lastSeq == a.n
  {
    StepFrame(s, a);
    if IsSegment(a) {
      SegmentSocket(s, a);
      if a.Run? && s.conns[a.ws].ctl.Resumed? {
        ResumeKeepsNumber(s.table, s.conns[a.ws], s.now, s.cfg);
      }
    }
  }

  // Whatever the others do, a sender that counts upwards never meets the sequence check.
  lemma {:induction false} UpwardSenderIsNeverRefused(s: State, acts: seq<Action>, w: Ws, k: nat)
    requires Runs(s, acts) && Named(s.conns) && CountsUp(acts, w, if w in s.conns then s.conns[w].lastSeq else 0)
    requires k < |acts| && DeliveredBy(acts[k], w)
    ensures Runs(s, acts[..k]) && w in After(s, acts[..k]).conns && After(s, acts[..k]).conns[w].lastSeq < acts[k].n
    decreases |acts|
  {
    if k > 0 {
      var s1 := Apply(s, acts[0]);
      StepFrame(s, acts[0]);
      if w in s.conns {
        StepNumber(s, acts[0], w);
      }
      if DeliveredBy(acts[0], w) {
        assert forall j :: 0 < j < |acts| && DeliveredBy(acts[j], w) ==> acts[0].n < acts[j].n;
      }
      UpwardSenderIsNeverRefused(s1, acts[1..], w, k - 1);
      assert acts[..k][1..] == acts[1..][..k - 1];
    }
  }

  // ----- from the relay to a receiver

  // Both entries are forwards of one session to one socket, with no completion of it in between.
  ghost predicate SameStretch(log: seq<Event>, i: nat, j: nat) {
    && i < j < |log| && log[i].Forwarded? && log[j].Forwarded?
    && log[i].sid == log[j].sid && log[i].to == log[j].to
    && forall k :: i <= k < j ==> !(log[k].Completed? && log[k].sid == log[i].sid)
  }

  lemma {:induction false} LatestStays(log: seq<Event>, i: nat, j: nat, sid: SessionId)
    requires i <= j <= |log| && forall k :: i <= k < j ==> !(log[k].Completed? && log[k].sid == sid)
    ensures LatestComplete(log[..j], sid) == LatestComplete(log[..i], sid)
    decreases j
  {
    if i < j {
      assert log[..j][..j - 1] == log[..j - 1];
      LatestStays(log, i, j - 1, sid);
    }
  }

  // Within a stretch one socket sends, so the receiver sees numbers that grow.
  lemma {:induction false} ReceivedAscends(cfg: Config, start: int, acts: seq<Action>, i: nat, j: nat)
    requires Runs(Init(cfg, start), acts) && FreshRun(Init(cfg, start), acts)
    requires SameStretch(After(Init(cfg, start), acts).log, i, j)
    ensures var log := After(Init(cfg, start), acts).log;
            log[i].from == log[j].from && log[i].n < log[j].n
  {
    var s := After(Init(cfg, start), acts);
    RoutingIsFaithful(cfg, start, acts, i);
    RoutingIsFaithful(cfg, start, acts, j);
    assert FaithfulEntry(s.log, i) && FaithfulEntry(s.log, j);
    LatestStays(s.log, i, j, s.log[i].sid);
    ForwardsAscend(Init(cfg, start), acts);
  }

  // Entry `k` forwards the envelope numbered `n` to the agent of the session's latest completion.
  predicate ForwardsToAgent(log: seq<Event>, k: nat, sid: SessionId, n: nat) {
    k < |log| && log[k].Forwarded? && log[k].sid == sid && log[k].n == n &&
    var pair := LatestComplete(log[..k], sid);
    pair.Some? && log[k].to == pair.value.0
  }

  /**
   From the client's socket to the terminal. Whatever else reaches the agent, the inputs that the
   relay forwarded to its socket within one stretch of its session pass the replay check and are
   all written; the pump ends only with the session.
   */
  lemma {:induction false} ForwardedInputsAllArrive(
    cfg: Config, start: int, acts: seq<Action>, picks: seq<nat>,
    a: AgentState.Connection, t: AgentState.Terminal, inbox: seq<AgentState.Envelope>,
      plaintexts: seq<AgentState.Bytes>)
    requires Runs(Init(cfg, start), acts) && FreshRun(Init(cfg, start), acts)
    requires |picks| == |plaintexts| == |Channel.Inputs(inbox)|
    requires forall i :: 0 <= i < |picks| ==>
               ForwardsToAgent(After(Init(cfg, start), acts).log, picks[i], a.sessionId,
                               Channel.Inputs(inbox)[i].number)
    requires forall i, j :: 0 <= i < j < |picks| ==> SameStretch(After(Init(cfg, start), acts).log, picks[i], picks[j])
    requires a.transcript.Some? && a.lastPeer == 0
    requires forall i :: 0 <= i < |picks| ==> Channel.SealedInput(a, Channel.Inputs(inbox)[i], plaintexts[i])
    ensures var r := AgentState.Pump(a, t, inbox);
            && r.1.written == t.written + plaintexts
            && r.2 == if Channel.HasClose(inbox) then AgentState.Closed else AgentState.Open
  {
    var log, inputs := After(Init(cfg, start), acts).log, Channel.Inputs(inbox);
    ForwardsAscend(Init(cfg, start), acts);
    assert forall i :: 0 <= i < |picks| ==> ForwardsToAgent(log, picks[i], a.sessionId, inputs[i].number);
    forall i, j | 0 <= i < j < |picks| ensures inputs[i].number < inputs[j].number {
      ReceivedAscends(cfg, start, acts, picks[i], picks[j]);
    }
    Channel.OrderedInputsAllArrive(a, t, inbox, plaintexts);
  }
}
