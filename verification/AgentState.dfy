/**
 The agent's side of a connection as a value: its counters and keys, what it does with an envelope,
 and the loop that carries decrypted input to the terminal. `RelayClient` is the object that behaves
 this way.

 Cryptography is symbolic: a key is what it was derived from, and only the right key opens or makes
 a message.
 */
module AgentState {
  import opened Prelude
  import opened Crypto

  type Bytes = string

  datatype Use = AgentTraffic | ClientTraffic | ProofUse

  // HKDF output. The shared X25519 secret is that of the two public keys in the transcript.
  datatype Key = Derived(secret: string, transcript: string, use: Use)

  datatype Cipher = Aead(key: Key, nonce: nat, aad: string, plaintext: Bytes) | Noise(bits: Bytes)

  datatype Mac = Hmac(key: Key, input: string) | Forged(bits: Bytes)

  // A public key as text; `sized` when, read as base64, it stands for 32 bytes.
  datatype PublicKey = PublicKey(text: string, sized: bool) {
    // `decode_pubkey`: base64 with validation, so no other characters, then the length.
    predicate Decodes() {
      Base64Text(text) && sized
    }
  }

  predicate Base64Text(s: string) {
    forall i :: 0 <= i < |s| ==> Base64Char(s[i])
  }

  predicate Base64Char(c: char) {
    'A' <= c <= 'Z' || 'a' <= c <= 'z' || '0' <= c <= '9' || c == '+' || c == '/' || c == '='
  }

  // The keys of the payload dictionary that the agent looks up or fills in. A size that is no integer is None.
  datatype Payload = Payload(
    nonce: Option<nat>,
    ciphertext: Option<Cipher>,
    clientKey: Option<PublicKey>,
    proof: Option<Mac>,
    rows: Option<int>,
    cols: Option<int>)

  const EmptyPayload := Payload(None, None, None, None, None, None)

  datatype Envelope = Envelope(kind: string, sessionId: Option<string>, number: nat, payload: Payload)

  datatype Terminal = Terminal(written: seq<Bytes>, size: Option<(int, int)>)

  // How the pump stands: waiting for more, closed by the peer, or ended by an exception.
  datatype Pumping = Open | Closed | Raised

  // `transcript` is what the session keys were derived from; without keys it is None.
  datatype Connection = Connection(
    sessionId: string,
    token: string,
    secret: string,
    agentKey: string,
    number: nat,
    lastPeer: nat,
    transcript: Option<string>,
    sent: seq<Envelope>)
  {
    function SessionKey(use: Use): Key
      requires transcript.Some?
    {
      Derived(secret, transcript.value, use)
    }

    // ----- sending

    // `_send`: the number is used up even when the socket raises.
    function Send(kind: string, to: Option<string>, payload: Payload, socketUp: bool): Connection {
      var e := Envelope(kind, to, number + 1, payload);
      this.(number := number + 1, sent := if socketUp then sent + [e] else sent)
    }

    function Sealed(kind: string, plaintext: Bytes, nonce: nat): Payload
      requires transcript.Some?
    {
      var aad := MessageAad(kind, sessionId, number + 1, AgentToClient);
      EmptyPayload.(nonce := Some(nonce), ciphertext := Some(Aead(SessionKey(AgentTraffic), nonce, aad, plaintext)))
    }

    function SendEncrypted(kind: string, plaintext: Bytes, nonce: nat, socketUp: bool): Connection
      requires transcript.Some?
    {
      Send(kind, Some(sessionId), Sealed(kind, plaintext, nonce), socketUp)
    }

    // ----- the handshake

    function TranscriptWith(clientKey: string): string {
      HandshakeTranscript(sessionId, token, agentKey, clientKey)
    }

    predicate ProofAccepted(clientKey: string, proof: Mac) {
      var t := TranscriptWith(clientKey);
      proof == Hmac(Derived(secret, t, ProofUse), ProofInput(t, ClientProof))
    }

    // Derive the keys, check the client's proof, answer with the agent's. A key that does not decode
    // leaves no new keys; a proof that fails leaves the new ones in place.
    function Authenticate(key: PublicKey, proof: Mac, answer: string, socketUp: bool): (Connection, bool) {
      if !key.Decodes() then (this, false)
      else
        var t := TranscriptWith(key.text);
        var keyed := this.(transcript := Some(t));
        if !ProofAccepted(key.text, proof) then (keyed, false)
        else
          var mac := Hmac(Derived(secret, t, ProofUse), ProofInput(t, AgentProof));
          (keyed.Send(answer, Some(sessionId), EmptyPayload.(proof := Some(mac)), socketUp), socketUp)
    }

    // ----- receiving

    // `decrypt_payload`
    function Decrypt(e: Envelope): Option<Bytes>
      requires transcript.Some?
    {
      if e.sessionId != Some(sessionId) || e.number <= lastPeer || e.payload.nonce.None? || e.payload.ciphertext.None?
        then None
      else
        var aad := MessageAad(e.kind, sessionId, e.number, ClientToAgent);
        match e.payload.ciphertext.value
        case Aead(key, nonce, sealedAad, plaintext) =>
          if key == SessionKey(ClientTraffic) && nonce == e.payload.nonce.value && sealedAad == aad
            then Some(plaintext) else None
        case Noise(_) => None
    }
  }

  predicate ValidSize(rows: Option<int>, cols: Option<int>) {
    rows.Some? && cols.Some? && 1 <= rows.value <= 9999 && 1 <= cols.value <= 9999
  }

  // One turn of `_pump_relay_to_pty`.
  function Turn(a: Connection, t: Terminal, e: Envelope): (Connection, Terminal, Pumping)
    requires a.transcript.Some?
  {
    if e.kind == "pty_input" then
      var plaintext := a.Decrypt(e);
      if plaintext.None? then (a, t, Raised)
      else (a.(lastPeer := e.number), t.(written := t.written + [plaintext.value]), Open)
    else if e.kind == "session_resize" then
      if ValidSize(e.payload.rows, e.payload.cols)
      then (a, t.(size := Some((e.payload.rows.value, e.payload.cols.value))), Open)
      else (a, t, Open)
    else if e.kind == "session_close" then (a, t, Closed)
    else (a, t, Open)
  }

  // The pump after receiving `inbox`; nothing is received once it has ended.
  function Pump(a: Connection, t: Terminal, inbox: seq<Envelope>): (r: (Connection, Terminal, Pumping))
    requires a.transcript.Some?
    ensures r.0.transcript == a.transcript
  {
    if inbox == [] then (a, t, Open)
    else
      var (a1, t1, p) := Pump(a, t, inbox[..|inbox| - 1]);
      if p.Open? then Turn(a1, t1, inbox[|inbox| - 1]) else (a1, t1, p)
  }
}
