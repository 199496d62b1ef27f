/**
 What the agent puts on the socket, seen by the browser at the other end: a reader that holds the
 agent's traffic key opens every ciphertext to what was given to be sent, and nothing the agent
 sends is sealed under the client's.
 */
module AgentOutput {
  import opened Prelude
  import opened Crypto
  import opened AgentState
  import opened Channel

  // Opening an envelope from the agent: under the envelope's own type, session and number.
  function OpenFromAgent(key: Key, e: Envelope): Option<Bytes> {
    if e.sessionId.None? || e.payload.nonce.None? || e.payload.ciphertext.None? then None
    else
      match e.payload.ciphertext.value
      case Aead(sealedKey, nonce, aad, plaintext) =>
        if sealedKey == key && nonce == e.payload.nonce.value && aad == AgentAad(e.kind, e.sessionId.value, e.number)
          then Some(plaintext) else None
      case Noise(_) => None
  }

  // One thing handed to the socket, as the agent was told to send it.
  datatype Spoken =
    | InClear(kind: string, to: Option<string>, payload: Payload)
    | Secret(transcript: string, kind: string, plaintext: Bytes)
    | Proof(transcript: string, kind: string)

  // The handshake the keys in force come from: the last one whose client key decoded.
  function InForce(a: Connection, acts: seq<(Act, bool)>): Option<string> {
    if acts == [] then a.transcript
    else
      var init, act := acts[..|acts| - 1], acts[|acts| - 1].0;
      if act.Answers? && act.key.Decodes()
        then Some(HandshakeTranscript(a.sessionId, a.token, a.agentKey, act.key.text))
      else InForce(a, init)
  }

  // The client proved the pairing secret for this handshake.
  predicate Proves(a: Connection, act: Act)
    requires act.Answers?
  {
    var transcript := HandshakeTranscript(a.sessionId, a.token, a.agentKey, act.key.text);
    act.key.Decodes() && act.proof == Hmac(Derived(a.secret, transcript, ProofUse), transcript + "\nrole=client")
  }

  // What the history of acts gives the socket: whatever is sent while it is up.
  function SpokenIn(a: Connection, acts: seq<(Act, bool)>): seq<Spoken> {
    if acts == [] then []
    else
      var init := acts[..|acts| - 1];
      var (act, socketUp) := acts[|acts| - 1];
      if !socketUp then SpokenIn(a, init)
      else
        match act
        case Sends(kind, to, payload) => SpokenIn(a, init) + [InClear(kind, to, payload)]
        case Encrypts(kind, plaintext, _) =>
          var keys := InForce(a, init);
          if keys.None? then SpokenIn(a, init) else SpokenIn(a, init) + [Secret(keys.value, kind, plaintext)]
        case Answers(key, _, answer) =>
          if Proves(a, act)
            then SpokenIn(a, init) + [Proof(HandshakeTranscript(a.sessionId, a.token, a.agentKey, key.text), answer)]
          else SpokenIn(a, init)
        case Receives(_, _) => SpokenIn(a, init)
  }

  // How many numbers the history uses up, whether the socket is up or not.
  function NumbersUsed(a: Connection, acts: seq<(Act, bool)>): nat {
    if acts == [] then 0
    else
      var init, act := acts[..|acts| - 1], acts[|acts| - 1].0;
      NumbersUsed(a, init) +
      match act
      case Sends(_, _, _) => 1
      case Encrypts(_, _, _) => if InForce(a, init).Some? then 1 else 0
      case Answers(_, _, _) => if Proves(a, act) then 1 else 0
      case Receives(_, _) => 0
  }

  // What the envelope says to whoever shares the secret.
  predicate Conveys(a: Connection, e: Envelope, said: Spoken) {
    && e.kind == said.kind
    && match said
       case InClear(_, to, payload) => e.sessionId == to && e.payload == payload
       case Secret(transcript, _, plaintext) =>
         && e.sessionId == Some(a.sessionId)
         && OpenFromAgent(Derived(a.secret, transcript, AgentTraffic), e) == Some(plaintext)
       case Proof(transcript, _) =>
         && e.sessionId == Some(a.sessionId)
         && e.payload == EmptyPayload.(proof := Some(Hmac(Derived(a.secret, transcript, ProofUse),
                                                          transcript + "\nrole=agent")))
  }

  // What never changes, and what the acts have made of the rest.
  ghost predicate SaidSo(a: Connection, acts: seq<(Act, bool)>, b: Connection) {
    && b.sessionId == a.sessionId && b.token == a.token && b.secret == a.secret && b.agentKey == a.agentKey
    && b.transcript == InForce(a, acts)
    && |b.sent| == |a.sent| + |SpokenIn(a, acts)|
    && (forall i :: 0 <= i < |a.sent| ==> b.sent[i] == a.sent[i])
    && (forall i :: 0 <= i < |SpokenIn(a, acts)| ==> Conveys(a, b.sent[|a.sent| + i], SpokenIn(a, acts)[i]))
  }

  lemma SealedOpens(key: Key, e: Envelope, nonce: nat, aad: string, plaintext: Bytes)
    requires e.sessionId.Some? && aad == AgentAad(e.kind, e.sessionId.value, e.number)
    requires e.payload == EmptyPayload.(nonce := Some(nonce), ciphertext := Some(Aead(key, nonce, aad, plaintext)))
    ensures OpenFromAgent(key, e) == Some(plaintext)
  {
  }

  lemma SealedConveys(a: Connection, b: Connection, kind: string, plaintext: Bytes, nonce: nat)
    requires b.transcript.Some? && b.sessionId == a.sessionId && b.secret == a.secret
    ensures Conveys(a, Envelope(kind, Some(b.sessionId), b.number + 1, b.Sealed(kind, plaintext, nonce)),
                    Secret(b.transcript.value, kind, plaintext))
  {
    var e := Envelope(kind, Some(b.sessionId), b.number + 1, b.Sealed(kind, plaintext, nonce));
    var aad := MessageAad(kind, b.sessionId, b.number + 1, AgentToClient);
    assert aad == AgentAad(kind, b.sessionId, b.number + 1) by {
      AadWrittenOut(kind, b.sessionId, b.number + 1);
    }
    SealedOpens(Derived(b.secret, b.transcript.value, AgentTraffic), e, nonce, aad, plaintext);
  }

  lemma AnswerConveys(a: Connection, b: Connection, key: PublicKey, proof: Mac, answer: string, socketUp: bool)
    requires b.sessionId == a.sessionId && b.token == a.token && b.secret == a.secret && b.agentKey == a.agentKey
    ensures var r := b.Authenticate(key, proof, answer, socketUp).0;
            var transcript := HandshakeTranscript(a.sessionId, a.token, a.agentKey, key.text);
            && r.(transcript := b.transcript, sent := b.sent, number := b.number) == b
            && r.transcript == (if key.Decodes() then Some(transcript) else b.transcript)
            && r.number == b.number + (if Proves(a, Answers(key, proof, answer)) then 1 else 0)
            && (if socketUp && Proves(a, Answers(key, proof, answer))
                then |r.sent| == |b.sent| + 1 && r.sent[..|b.sent|] == b.sent
                     && Conveys(a, r.sent[|b.sent|], Proof(transcript, answer))
                else r.sent == b.sent)
  {
    RoleText(HandshakeTranscript(a.sessionId, a.token, a.agentKey, key.text));
  }

  /**
   Over every history of sending, encrypting, answering and receiving, the socket takes exactly what
   the agent was told to send, and each ciphertext opens under the agent's traffic key of the
   handshake then in force to exactly the plaintext given.
   */
  lemma {:induction false} SaysAsTold(a: Connection, acts: seq<(Act, bool)>)
    ensures SaidSo(a, acts, DoAll(a, acts))
  {
    if acts != [] {
      var init := acts[..|acts| - 1];
      SaysAsTold(a, init);
      var b := DoAll(a, init);
      var (act, socketUp) := acts[|acts| - 1];
      match act
      case Sends(_, _, _) =>
      case Encrypts(kind, plaintext, nonce) =>
        if b.transcript.Some? {
          SealedConveys(a, b, kind, plaintext, nonce);
        }
      case Answers(key, proof, answer) => AnswerConveys(a, b, key, proof, answer, socketUp);
      case Receives(e, t) =>
    }
  }

  /** Every attempt to send uses up one number, also when the socket raises. */
  lemma {:induction false} EveryAttemptTakesANumber(a: Connection, acts: seq<(Act, bool)>)
    ensures DoAll(a, acts).number == a.number + NumbersUsed(a, acts)
  {
    if acts != [] {
      var init := acts[..|acts| - 1];
      EveryAttemptTakesANumber(a, init);
      SaysAsTold(a, init);
      var b := DoAll(a, init);
      var (act, socketUp) := acts[|acts| - 1];
      if act.Answers? {
        AnswerConveys(a, b, act.key, act.proof, act.answer, socketUp);
      }
    }
  }

  // Ciphertexts leave through `send_encrypted` only.
  ghost predicate OnlyEncryptedSecrets(acts: seq<(Act, bool)>) {
    forall k :: 0 <= k < |acts| && acts[k].0.Sends? ==> acts[k].0.payload.ciphertext.None?
  }

  predicate Clear(said: Spoken) {
    said.InClear? ==> said.payload.ciphertext.None?
  }

  lemma {:induction false} ClearSpoken(a: Connection, acts: seq<(Act, bool)>)
    requires OnlyEncryptedSecrets(acts)
    ensures forall i :: 0 <= i < |SpokenIn(a, acts)| ==> Clear(SpokenIn(a, acts)[i])
  {
    if acts != [] {
      ClearSpoken(a, acts[..|acts| - 1]);
      assert acts[|acts| - 1].0.Sends? ==> acts[|acts| - 1].0.payload.ciphertext.None?;
    }
  }

  /** Nothing the agent sends is sealed under a client's key: every ciphertext is under one of the agent's own. */
  lemma {:induction false} NothingSealedAsClient(a: Connection, acts: seq<(Act, bool)>, i: nat)
    requires OnlyEncryptedSecrets(acts) && |a.sent| <= i < |DoAll(a, acts).sent|
    requires DoAll(a, acts).sent[i].payload.ciphertext.Some?
    ensures var c := DoAll(a, acts).sent[i].payload.ciphertext.value;
            c.Aead? && c.key.use == AgentTraffic && c.key.secret == a.secret
  {
    SaysAsTold(a, acts);
    ClearSpoken(a, acts);
    var said := SpokenIn(a, acts)[i - |a.sent|];
    assert Clear(said) && Conveys(a, DoAll(a, acts).sent[|a.sent| + (i - |a.sent|)], said);
  }
}
