/**
 End to end, with a relay that may drop, repeat, reorder and alter everything: what reaches the
 terminal is what the client sent, and a completed handshake is with the client that was invited.
 */
module Channel {
  import opened Prelude
  import opened Crypto
  import opened AgentState

  // What the browser encrypted, in order.
  datatype ClientMessage = ClientMessage(kind: string, sessionId: string, number: nat, plaintext: Bytes)

  // Ideal authenticated encryption: under the client's traffic key nothing exists but what the client sealed.
  ghost predicate OnlyClientSeals(inbox: seq<Envelope>, key: Key, log: seq<ClientMessage>) {
    forall i :: 0 <= i < |inbox| ==> SealedByClient(inbox[i], key, log)
  }

  ghost predicate SealedByClient(e: Envelope, key: Key, log: seq<ClientMessage>) {
    e.payload.ciphertext.Some? && e.payload.ciphertext.value.Aead? && e.payload.ciphertext.value.key == key ==>
      exists k :: 0 <= k < |log| && Seals(log[k], e.payload.ciphertext.value)
  }

  predicate Seals(m: ClientMessage, c: Cipher)
    requires c.Aead?
  {
    c.plaintext == m.plaintext && c.aad == MessageAad(m.kind, m.sessionId, m.number, ClientToAgent)
  }

  // No line break on one of the two sides: agents draw session ids without any, and clients that
  // follow the envelope format have none in their types.
  ghost predicate Unmistakable(a: Connection, log: seq<ClientMessage>) {
    OneLine(a.sessionId) || forall k :: 0 <= k < |log| ==> OneLine(log[k].kind)
  }

  // `picks` says which client message each write came from.
  ghost predicate Accounts(written: seq<Bytes>, picks: seq<nat>, log: seq<ClientMessage>, sessionId: string, after: nat,
                           upTo: nat) {
    && |picks| == |written|
    && (forall i :: 0 <= i < |picks| ==>
          && picks[i] < |log| && log[picks[i]].kind == "pty_input" && log[picks[i]].sessionId == sessionId
          && log[picks[i]].plaintext == written[i] && after < log[picks[i]].number <= upTo)
    && (forall i, j :: 0 <= i < j < |picks| ==> log[picks[i]].number < log[picks[j]].number)
  }

  // A decrypted input is one the client sealed, for this session, as input, under this number.
  lemma {:induction false} DecryptedIsSent(a: Connection, e: Envelope, log: seq<ClientMessage>) returns (k: nat)
    requires a.transcript.Some? && a.Decrypt(e).Some? && OneLine(e.kind) && Unmistakable(a, log)
    requires SealedByClient(e, a.SessionKey(ClientTraffic), log)
    ensures k < |log| && log[k] == ClientMessage(e.kind, a.sessionId, e.number, a.Decrypt(e).value)
  {
    k :| 0 <= k < |log| && Seals(log[k], e.payload.ciphertext.value);
    if OneLine(a.sessionId) {
      OneLineAadIsUnique(e.kind, a.sessionId, e.number, ClientToAgent, log[k].kind, log[k].sessionId, log[k].number,
                         ClientToAgent);
    } else {
      MessageAadInjective(log[k].kind, log[k].sessionId, log[k].number, ClientToAgent, e.kind, a.sessionId, e.number,
                          ClientToAgent);
    }
  }

  lemma AccountForOneMore(written: seq<Bytes>, picks: seq<nat>, log: seq<ClientMessage>, sessionId: string, after: nat,
                          upTo: nat, k: nat, number: nat)
    requires Accounts(written, picks, log, sessionId, after, upTo) && after <= upTo < number
    requires k < |log| && log[k].kind == "pty_input" && log[k].sessionId == sessionId && log[k].number == number
    ensures Accounts(written + [log[k].plaintext], picks + [k], log, sessionId, after, number)
  {
  }

  // The terminal gets client inputs only, each once, in the order of their numbers, whatever the relay does.
  lemma {:induction false} WritesAreClientInputs(a: Connection, t: Terminal, inbox: seq<Envelope>,
                                                 log: seq<ClientMessage>)
      returns (picks: seq<nat>)
    requires a.transcript.Some? && OnlyClientSeals(inbox, a.SessionKey(ClientTraffic), log) && Unmistakable(a, log)
    ensures var r := Pump(a, t, inbox);
            && t.written <= r.1.written
            && Accounts(r.1.written[|t.written|..], picks, log, a.sessionId, a.lastPeer, r.0.lastPeer)
    ensures Pump(a, t, inbox).0 == a.(lastPeer := Pump(a, t, inbox).0.lastPeer)
    ensures Pump(a, t, inbox).0.lastPeer >= a.lastPeer
  {
    if inbox == [] {
      picks := [];
    } else {
      var init, e := inbox[..|inbox| - 1], inbox[|inbox| - 1];
      picks := WritesAreClientInputs(a, t, init, log);
      var r := Pump(a, t, init);
      if r.2.Open? && e.kind == "pty_input" && r.0.Decrypt(e).Some? {
        assert SealedByClient(e, a.SessionKey(ClientTraffic), log);
        var k := DecryptedIsSent(r.0, e, log);
        var written := r.1.written[|t.written|..];
        AccountForOneMore(written, picks, log, a.sessionId, a.lastPeer, r.0.lastPeer, k, e.number);
        assert Pump(a, t, inbox).1.written[|t.written|..] == written + [log[k].plaintext];
        picks := picks + [k];
      }
    }
  }

  ghost predicate StrictlyNumbered(log: seq<ClientMessage>) {
    forall i, j :: 0 <= i < j < |log| ==> log[i].number < log[j].number
  }

  // With a client that numbers its messages upwards: an in-order subsequence, without duplicates.
  lemma {:induction false} WritesAreSubsequence(a: Connection, t: Terminal, inbox: seq<Envelope>,
                                                log: seq<ClientMessage>) returns (picks: seq<nat>)
    requires a.transcript.Some? && OnlyClientSeals(inbox, a.SessionKey(ClientTraffic), log)
    requires Unmistakable(a, log) && StrictlyNumbered(log)
    ensures var written := Pump(a, t, inbox).1.written;
            && t.written <= written && |picks| == |written| - |t.written|
            && (forall i :: 0 <= i < |picks| ==>
                  picks[i] < |log| && log[picks[i]].kind == "pty_input"
                    && log[picks[i]].plaintext == written[|t.written| + i])
    ensures forall i, j :: 0 <= i < j < |picks| ==> picks[i] < picks[j]
  {
    picks := WritesAreClientInputs(a, t, inbox, log);
    forall i, j | 0 <= i < j < |picks| ensures picks[i] < picks[j] {
      assert log[picks[i]].number < log[picks[j]].number;
    }
  }

  // ----- nothing is refused when the relay is honest

  predicate HasClose(inbox: seq<Envelope>) {
    inbox != [] && (inbox[|inbox| - 1].kind == "session_close" || HasClose(inbox[..|inbox| - 1]))
  }

  // The inputs that arrive before the session is closed, among envelopes of every other kind.
  function Inputs(inbox: seq<Envelope>): seq<Envelope> {
    if inbox == [] then []
    else
      var init, e := inbox[..|inbox| - 1], inbox[|inbox| - 1];
      if e.kind == "pty_input" && !HasClose(init) then Inputs(init) + [e] else Inputs(init)
  }

  // The client of this session sealed `plaintext` into the input `e`.
  predicate SealedInput(a: Connection, e: Envelope, plaintext: Bytes)
    requires a.transcript.Some?
  {
    && e.kind == "pty_input" && e.sessionId == Some(a.sessionId) && e.payload.nonce.Some?
    && e.payload.ciphertext == Some(Aead(a.SessionKey(ClientTraffic), e.payload.nonce.value,
                                         MessageAad("pty_input", a.sessionId, e.number, ClientToAgent), plaintext))
  }

  // The inputs are sealed and numbered upwards from `after`.
  ghost predicate InputsInOrder(a: Connection, inputs: seq<Envelope>, plaintexts: seq<Bytes>, after: nat)
    requires a.transcript.Some?
  {
    && |inputs| == |plaintexts|
    && (forall i :: 0 <= i < |inputs| ==> inputs[i].number > after && SealedInput(a, inputs[i], plaintexts[i]))
    && (forall i, j :: 0 <= i < j < |inputs| ==> inputs[i].number < inputs[j].number)
  }

  function LastNumber(inputs: seq<Envelope>, before: nat): nat {
    if inputs == [] then before else inputs[|inputs| - 1].number
  }

  lemma InputIsWritten(a: Connection, t: Terminal, e: Envelope, plaintext: Bytes)
    requires a.transcript.Some? && SealedInput(a, e, plaintext) && e.number > a.lastPeer
    ensures Turn(a, t, e) == (a.(lastPeer := e.number), t.(written := t.written + [plaintext]), Open)
  {
  }

  lemma OthersWriteNothing(a: Connection, t: Terminal, e: Envelope)
    requires a.transcript.Some? && e.kind != "pty_input"
    ensures var r := Turn(a, t, e);
            r.0 == a && r.1.written == t.written && r.2 == if e.kind == "session_close" then Closed else Open
  {
  }

  lemma InOrderSplits(a: Connection, inputs: seq<Envelope>, e: Envelope, plaintexts: seq<Bytes>, after: nat)
    requires a.transcript.Some? && InputsInOrder(a, inputs + [e], plaintexts, after)
    ensures InputsInOrder(a, inputs, plaintexts[..|inputs|], after)
    ensures SealedInput(a, e, plaintexts[|inputs|]) && e.number > LastNumber(inputs, after)
  {
    var all := inputs + [e];
    assert forall i :: 0 <= i < |inputs| ==> all[i] == inputs[i];
    assert all[|inputs|] == e;
  }

  // Whatever else arrives, inputs numbered upwards are all written and none ends the pump: it stays
  // open until the session is closed.
  lemma {:induction false} OrderedInputsAllArrive(a: Connection, t: Terminal, inbox: seq<Envelope>,
                                                  plaintexts: seq<Bytes>)
    requires a.transcript.Some? && InputsInOrder(a, Inputs(inbox), plaintexts, a.lastPeer)
    ensures var r := Pump(a, t, inbox);
            && r.1.written == t.written + plaintexts
            && r.2 == (if HasClose(inbox) then Closed else Open)
            && r.0 == a.(lastPeer := LastNumber(Inputs(inbox), a.lastPeer))
  {
    if inbox == [] {
      assert t.written + [] == t.written;
    } else {
      var init, e := inbox[..|inbox| - 1], inbox[|inbox| - 1];
      if e.kind == "pty_input" && !HasClose(init) {
        var n := |Inputs(init)|;
        InOrderSplits(a, Inputs(init), e, plaintexts, a.lastPeer);
        OrderedInputsAllArrive(a, t, init, plaintexts[..n]);
        var r := Pump(a, t, init);
        InputIsWritten(r.0, r.1, e, plaintexts[n]);
        assert t.written + plaintexts == t.written + plaintexts[..n] + [plaintexts[n]];
      } else {
        OrderedInputsAllArrive(a, t, init, plaintexts);
        if e.kind != "pty_input" {
          OthersWriteNothing(Pump(a, t, init).0, Pump(a, t, init).1, e);
        }
      }
    }
  }

  // Sealed for this agent by whoever holds the client's traffic key, under the envelope's own type and number.
  predicate SealedForAgent(a: Connection, e: Envelope, plaintext: Bytes)
    requires a.transcript.Some?
  {
    && e.sessionId == Some(a.sessionId) && e.payload.nonce.Some?
    && e.payload.ciphertext == Some(Aead(Derived(a.secret, a.transcript.value, ClientTraffic), e.payload.nonce.value,
                                         ClientAad(e.kind, a.sessionId, e.number), plaintext))
  }

  // The agent opens exactly what is sealed for it and numbered above everything it opened before.
  lemma {:induction false} OpensExactly(a: Connection, e: Envelope, plaintext: Bytes)
    requires a.transcript.Some?
    ensures a.Decrypt(e) == Some(plaintext) <==> SealedForAgent(a, e, plaintext) && e.number > a.lastPeer
  {
    AadWrittenOut(e.kind, a.sessionId, e.number);
  }

  // The number of the last input that arrived.
  function LastInput(inbox: seq<Envelope>, before: nat): nat {
    if inbox == [] then before
    else if inbox[|inbox| - 1].kind == "pty_input" then inbox[|inbox| - 1].number
    else LastInput(inbox[..|inbox| - 1], before)
  }

  // The `i`th envelope is an input that is not sealed for the agent or not numbered above the one before.
  ghost predicate BadInput(a: Connection, inbox: seq<Envelope>, i: nat)
    requires a.transcript.Some? && i < |inbox|
  {
    && inbox[i].kind == "pty_input"
    && !(exists plaintext :: SealedForAgent(a, inbox[i], plaintext)
                             && inbox[i].number > LastInput(inbox[..i], a.lastPeer))
  }

  // Some bad input arrives before the session is closed.
  ghost predicate MeetsBadInput(a: Connection, inbox: seq<Envelope>)
    requires a.transcript.Some?
  {
    exists i: nat :: i < |inbox| && BadInput(a, inbox, i) && !HasClose(inbox[..i])
  }

  lemma MeetsOneMore(a: Connection, inbox: seq<Envelope>)
    requires a.transcript.Some? && inbox != []
    ensures var n := |inbox| - 1;
            MeetsBadInput(a, inbox)
            <==> MeetsBadInput(a, inbox[..n]) || (BadInput(a, inbox, n) && !HasClose(inbox[..n]))
  {
    var n := |inbox| - 1;
    var init := inbox[..n];
    forall i: nat | i < n ensures init[..i] == inbox[..i] && init[i] == inbox[i] {
    }
    if i: nat :| i < |init| && BadInput(a, init, i) && !HasClose(init[..i]) {
      assert BadInput(a, inbox, i) && !HasClose(inbox[..i]);
    }
    if i: nat :| i < |inbox| && BadInput(a, inbox, i) && !HasClose(inbox[..i]) {
      assert i < n ==> BadInput(a, init, i) && !HasClose(init[..i]);
    }
  }

  // The pump ends by an exception exactly when a bad input arrives before the close, and otherwise
  // with the close or not at all.
  lemma {:induction false} RaisesExactly(a: Connection, t: Terminal, inbox: seq<Envelope>)
    requires a.transcript.Some?
    ensures var r := Pump(a, t, inbox);
            && (r.2 == Raised <==> MeetsBadInput(a, inbox))
            && (r.2 == Open <==> !MeetsBadInput(a, inbox) && !HasClose(inbox))
            && (r.2 == Open ==> r.0 == a.(lastPeer := LastInput(inbox, a.lastPeer)))
  {
    if inbox != [] {
      var n := |inbox| - 1;
      var init, e := inbox[..n], inbox[n];
      RaisesExactly(a, t, init);
      MeetsOneMore(a, inbox);
      var r := Pump(a, t, init);
      if r.2 == Open && e.kind == "pty_input" {
        if r.0.Decrypt(e).Some? {
          OpensExactly(r.0, e, r.0.Decrypt(e).value);
          assert SealedForAgent(a, e, r.0.Decrypt(e).value);
        } else {
          forall plaintext | SealedForAgent(a, e, plaintext) && e.number > r.0.lastPeer ensures false {
            OpensExactly(r.0, e, plaintext);
          }
        }
      }
    }
  }

  // The size last asked for before the session is closed; a size out of range asks for nothing.
  function SizeAsked(inbox: seq<Envelope>, before: Option<(int, int)>): Option<(int, int)> {
    if inbox == [] then before
    else
      var init, e := inbox[..|inbox| - 1], inbox[|inbox| - 1];
      if e.kind != "session_resize" || HasClose(init) then SizeAsked(init, before)
      else
        match (e.payload.rows, e.payload.cols)
        case (Some(rows), Some(cols)) =>
          if 0 < rows < 10000 && 0 < cols < 10000 then Some((rows, cols)) else SizeAsked(init, before)
        case _ => SizeAsked(init, before)
  }

  // With inputs in order, the terminal ends up with the size last asked for.
  lemma {:induction false} LastSizeIsSet(a: Connection, t: Terminal, inbox: seq<Envelope>, plaintexts: seq<Bytes>)
    requires a.transcript.Some? && InputsInOrder(a, Inputs(inbox), plaintexts, a.lastPeer)
    ensures Pump(a, t, inbox).1.size == SizeAsked(inbox, t.size)
  {
    if inbox != [] {
      var init, e := inbox[..|inbox| - 1], inbox[|inbox| - 1];
      if e.kind == "pty_input" && !HasClose(init) {
        InOrderSplits(a, Inputs(init), e, plaintexts, a.lastPeer);
        LastSizeIsSet(a, t, init, plaintexts[..|Inputs(init)|]);
        OrderedInputsAllArrive(a, t, init, plaintexts[..|Inputs(init)|]);
      } else {
        LastSizeIsSet(a, t, init, plaintexts);
        OrderedInputsAllArrive(a, t, init, plaintexts);
      }
    }
  }

  // ----- what the agent sends

  // Numbers are never reused: they grow along everything handed to the socket.
  ghost predicate NumbersAscend(a: Connection) {
    && (forall i :: 0 <= i < |a.sent| ==> 0 < a.sent[i].number <= a.number)
    && (forall i, j :: 0 <= i < j < |a.sent| ==> a.sent[i].number < a.sent[j].number)
  }

  // Everything that uses up a number or moves the replay counter.
  datatype Act =
    | Sends(kind: string, to: Option<string>, payload: Payload)
    | Encrypts(kind: string, plaintext: Bytes, nonce: nat)
    | Answers(key: PublicKey, proof: Mac, answer: string)
    | Receives(e: Envelope, t: Terminal)

  // Without session keys nothing is encrypted or decrypted: the assertion at the top raises.
  function Do(a: Connection, act: Act, socketUp: bool): Connection {
    match act
    case Sends(kind, to, payload) => a.Send(kind, to, payload, socketUp)
    case Encrypts(kind, plaintext, nonce) =>
      if a.transcript.None? then a else a.SendEncrypted(kind, plaintext, nonce, socketUp)
    case Answers(key, proof, answer) => a.Authenticate(key, proof, answer, socketUp).0
    case Receives(e, t) => if a.transcript.None? then a else Turn(a, t, e).0
  }

  function DoAll(a: Connection, acts: seq<(Act, bool)>): Connection {
    if acts == [] then a
    else
      var (act, socketUp) := acts[|acts| - 1];
      Do(DoAll(a, acts[..|acts| - 1]), act, socketUp)
  }

  lemma SendAscends(a: Connection, kind: string, to: Option<string>, payload: Payload, socketUp: bool)
    requires NumbersAscend(a)
    ensures NumbersAscend(a.Send(kind, to, payload, socketUp))
  {
    var b := a.Send(kind, to, payload, socketUp);
    assert forall i :: 0 <= i < |a.sent| ==> b.sent[i] == a.sent[i];
  }

  lemma AnswerAscends(a: Connection, key: PublicKey, proof: Mac, answer: string, socketUp: bool)
    requires NumbersAscend(a)
    ensures NumbersAscend(a.Authenticate(key, proof, answer, socketUp).0)
  {
    var t := a.TranscriptWith(key.text);
    var keyed := a.(transcript := Some(t));
    assert NumbersAscend(keyed);
    SendAscends(keyed, answer, Some(a.sessionId), EmptyPayload.(proof := Some(AgentsProof(a.secret, t))), socketUp);
  }

  // Whatever the agent sends, encrypts, answers and receives, and whichever sends raise: everything
  // its socket took carries positive, strictly increasing numbers.
  lemma {:induction false} SentNumbersAscend(a: Connection, acts: seq<(Act, bool)>)
    requires NumbersAscend(a)
    ensures NumbersAscend(DoAll(a, acts))
  {
    if acts != [] {
      SentNumbersAscend(a, acts[..|acts| - 1]);
      var b := DoAll(a, acts[..|acts| - 1]);
      var (act, socketUp) := acts[|acts| - 1];
      match act
      case Sends(kind, to, payload) => SendAscends(b, kind, to, payload, socketUp);
      case Encrypts(kind, plaintext, nonce) =>
        if b.transcript.Some? {
          SendAscends(b, kind, Some(b.sessionId), b.Sealed(kind, plaintext, nonce), socketUp);
        }
      case Answers(key, proof, answer) => AnswerAscends(b, key, proof, answer, socketUp);
      case Receives(e, t) =>
    }
  }

  // ----- the handshake

  // The fields of a handshake as one party sees them.
  datatype Handshake = Handshake(sessionId: string, token: string, agentKey: string, clientKey: string) {
    function Transcript(): string {
      HandshakeTranscript(sessionId, token, agentKey, clientKey)
    }
  }

  // Ideal HMAC under a secret only the two ends know: a proof was made by the client in a handshake
  // it took part in, or by an agent answering in its own role.
  ghost predicate ProofsAreGenuine(proof: Mac, secret: string, clientRuns: set<Handshake>) {
    proof.Hmac? && proof.key.secret == secret && proof.key.use == ProofUse ==>
      || (exists h :: h in clientRuns && proof == ClientsProof(secret, h.Transcript()))
      || (exists transcript :: proof == AgentsProof(secret, transcript))
  }

  function ClientsProof(secret: string, transcript: string): Mac {
    Hmac(Derived(secret, transcript, ProofUse), ProofInput(transcript, ClientProof))
  }

  function AgentsProof(secret: string, transcript: string): Mac {
    Hmac(Derived(secret, transcript, ProofUse), ProofInput(transcript, AgentProof))
  }

  // When the agent completes, some client run used the same session, token and both public keys:
  // the relay substituted none of them and did not reflect an agent's proof. What the relay handed
  // the client may be any text.
  lemma {:induction false} HandshakesAgree(a: Connection, key: PublicKey, proof: Mac, answer: string, socketUp: bool,
                                           clientRuns: set<Handshake>)
    requires ProofsAreGenuine(proof, a.secret, clientRuns)
    requires OneLine(a.sessionId) && OneLine(a.token) && OneLine(a.agentKey)
    requires a.Authenticate(key, proof, answer, socketUp).1
    ensures Handshake(a.sessionId, a.token, a.agentKey, key.text) in clientRuns
  {
    var mine := Handshake(a.sessionId, a.token, a.agentKey, key.text);
    var t := mine.Transcript();
    assert proof == ClientsProof(a.secret, t);
    assert key.Decodes() && OneLine(key.text);
    if transcript :| proof == AgentsProof(a.secret, transcript) {
      ProofInputInjective(t, ClientProof, transcript, AgentProof);
    } else {
      var h :| h in clientRuns && proof == ClientsProof(a.secret, h.Transcript());
      OneLineTranscriptIsUnique(mine.sessionId, mine.token, mine.agentKey, mine.clientKey, h.sessionId, h.token,
                                h.agentKey, h.clientKey);
    }
  }
}
