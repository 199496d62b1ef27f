/** The agent's connection and the pump loop, updating counters, keys and terminal in place. */
module RelayClient {
  import opened Prelude
  import opened Crypto
  import opened AgentState

  class RelayClient {
    const sessionId: string
    const token: string
    const secret: string
    const agentKey: string
    var number: nat
    var lastPeer: nat
    var transcript: Option<string>
    // What the socket took, in order.
    var sent: seq<Envelope>

    constructor (sessionId: string, token: string, secret: string, agentKey: string)
      ensures View() == Connection(sessionId, token, secret, agentKey, 0, 0, None, [])
    {
      this.sessionId, this.token, this.secret, this.agentKey := sessionId, token, secret, agentKey;
      number, lastPeer, transcript, sent := 0, 0, None, [];
    }

    function View(): Connection
      reads this
    {
      Connection(sessionId, token, secret, agentKey, number, lastPeer, transcript, sent)
    }

    method NextSeq() returns (n: nat)
      modifies this`number
      ensures n == number == old(number) + 1
    {
      number := number + 1;
      n := number;
    }

    // `seq` is taken already when the caller bound it into associated data.
    method Send(kind: string, to: Option<string>, payload: Payload, taken: Option<nat>, socketUp: bool)
      modifies this`number, this`sent
      ensures number == if taken.Some? then old(number) else old(number) + 1
      ensures sent == if !socketUp then old(sent)
                      else old(sent) + [Envelope(kind, to, if taken.Some? then taken.value else number, payload)]
    {
      var n;
      if taken.Some? {
        n := taken.value;
      } else {
        n := NextSeq();
      }
      if socketUp {
        sent := sent + [Envelope(kind, to, n, payload)];
      }
    }

    method SendEncrypted(kind: string, plaintext: Bytes, nonce: nat, socketUp: bool)
      requires transcript.Some?
      modifies this`number, this`sent
      ensures View() == old(View()).SendEncrypted(kind, plaintext, nonce, socketUp)
    {
      var n := NextSeq();
      var aad := MessageAad(kind, sessionId, n, AgentToClient);
      var cipher := Aead(Derived(secret, transcript.value, AgentTraffic), nonce, aad, plaintext);
      Send(kind, Some(sessionId), EmptyPayload.(nonce := Some(nonce), ciphertext := Some(cipher)), Some(n), socketUp);
    }

    // The common end of `await_pair_challenge_and_complete` and `await_resume_and_complete`.
    method Authenticate(key: PublicKey, proof: Mac, answer: string, socketUp: bool) returns (ok: bool)
      modifies this
      ensures (View(), ok) == old(View()).Authenticate(key, proof, answer, socketUp)
    {
      if !key.Decodes() {
        return false;
      }
      transcript := Some(HandshakeTranscript(sessionId, token, agentKey, key.text));
      var proofKey := Derived(secret, transcript.value, ProofUse);
      if proof != Hmac(proofKey, ProofInput(transcript.value, ClientProof)) {
        return false;
      }
      var mac := Hmac(proofKey, ProofInput(transcript.value, AgentProof));
      Send(answer, Some(sessionId), EmptyPayload.(proof := Some(mac)), None, socketUp);
      ok := socketUp;
    }

    method DecryptPayload(e: Envelope) returns (plaintext: Option<Bytes>)
      requires transcript.Some?
      modifies this`lastPeer
      ensures plaintext == old(View()).Decrypt(e)
      ensures lastPeer == if plaintext.Some? then e.number else old(lastPeer)
    {
      if e.sessionId != Some(sessionId) || e.number <= lastPeer {
        return None;
      }
      if e.payload.nonce.None? || e.payload.ciphertext.None? {
        return None;
      }
      var aad := MessageAad(e.kind, sessionId, e.number, ClientToAgent);
      var c := e.payload.ciphertext.value;
      if c.Noise? || c.key != Derived(secret, transcript.value, ClientTraffic) || c.nonce != e.payload.nonce.value
        || c.aad != aad {
        return None;
      }
      lastPeer := e.number;
      plaintext := Some(c.plaintext);
    }
  }

  class Backend {
    var written: seq<Bytes>
    var size: Option<(int, int)>

    function View(): Terminal
      reads this
    {
      Terminal(written, size)
    }

    method Write(data: Bytes)
      modifies this`written
      ensures written == old(written) + [data]
    {
      written := written + [data];
    }

    method Resize(rows: int, cols: int)
      modifies this`size
      ensures size == Some((rows, cols))
    {
      size := Some((rows, cols));
    }
  }

  // `_pump_relay_to_pty` on the envelopes that arrive, until it ends or they run out.
  method PumpRelayToPty(client: RelayClient, backend: Backend, inbox: seq<Envelope>) returns (status: Pumping)
    requires client.transcript.Some?
    modifies client`lastPeer, backend
    ensures (client.View(), backend.View(), status) == Pump(old(client.View()), old(backend.View()), inbox)
  {
    status := Open;
    var i := 0;
    while i < |inbox| && status == Open
      invariant 0 <= i <= |inbox|
      invariant (client.View(), backend.View(), status) == Pump(old(client.View()), old(backend.View()), inbox[..i])
    {
      var e := inbox[i];
      assert inbox[..i + 1][..i] == inbox[..i];
      i := i + 1;
      if e.kind == "pty_input" {
        var plaintext := client.DecryptPayload(e);
        if plaintext.Some? {
          backend.Write(plaintext.value);
        } else {
          status := Raised;
        }
      } else if e.kind == "session_resize" {
        if ValidSize(e.payload.rows, e.payload.cols) {
          backend.Resize(e.payload.rows.value, e.payload.cols.value);
        }
      } else if e.kind == "session_close" {
        status := Closed;
      }
    }
    if status == Open {
      assert inbox[..i] == inbox;
    } else {
      EndedStays(old(client.View()), old(backend.View()), inbox, i);
    }
  }

  lemma {:induction false} EndedStays(a: Connection, t: Terminal, inbox: seq<Envelope>, i: nat)
    requires a.transcript.Some? && i <= |inbox| && !Pump(a, t, inbox[..i]).2.Open?
    ensures Pump(a, t, inbox) == Pump(a, t, inbox[..i])
    decreases |inbox|
  {
    if i == |inbox| {
      assert inbox[..i] == inbox;
    } else {
      assert inbox[..|inbox| - 1][..i] == inbox[..i];
      EndedStays(a, t, inbox[..|inbox| - 1], i);
    }
  }
}
