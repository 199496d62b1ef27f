# TermHop, modelled and proved in Dafny

TermHop lets a browser drive a terminal on another machine: an agent next to the terminal and a
client in the browser meet at a relay, pair or resume, and exchange encrypted envelopes. This
project models the relay's session protocol, its rate limiters, the agent's encrypted channel and
session manager, and two of the agent's printers, and proves what holds over every run of them.

`dafny verify dfyconfig.toml` checks everything.

## How it is built

| part | values and specifications | mutable objects | theorems |
|---|---|---|---|
| relay protocol | `RoutingTable`, `Pairing`, `Router`, `Relay` | `SessionRegistry`, `PairingStore`, `RelayHandlers` | `RelayPlacement`, `RelayRouting`, `RelayTraffic`, `RelayTokens`, `RelayRecords`, `RelayTiming`, `RelaySequence`, `RelayAddressing`, `RelayScript`, `RelayDelivery`; runs that fail: `RelayRuns`, `RelayCounterexamples`, `RelayLateWrite` |
| rate limiters | `RateLimit` | `RateLimit` (`IpKey`, `TokenKeys`) | `RateLimitHistory`, `TokenLimitLaw` |
| encrypted channel | `Crypto`, `AgentState` | `RelayClient` | `Crypto`, `Channel`, `AgentOutput` |
| session manager | `SessionLifecycle` | `SessionManager`, `ManifestFile` over `AtomicFile` | `SessionHistory`, `SessionTransitions`; histories that fail: `SessionFailures` |
| printers | `AgentConfig`, `TerminalQr` | their `RenderConfig` and `Render` methods, `ConfigFile` over `AtomicFile` | the same modules |

Where the program updates something in place, a class or method does the same, and its contract
equates its new state with a function of the old one; the theorems are about those functions.

**The relay.** A handler runs without interruption between two `await`s, so `Router` cuts each
handler there: every segment is a function from routing table and connection to their next values.
`Relay` interleaves the segments of any number of connections with Redis commands and sends that
succeed, fail, or raise after taking effect, with timeouts, disconnects and the clock. A slot object
keeps an identity (`ref`) after it left the table, because `handle_pair_request` reads `slot.agent`
two awaits after fetching the slot. A receive keeps the timeout that was computed when it started.
`hist`, `log` and `born` in `Relay.State` are history that no step reads.

*Scripts.* `RelayScript.PastOf` reads off a run, for one connection, the envelope it delivered last
and what was awaited and answered since. `RelayScript.Asks` says from that alone what the connection
may wait for next; it does not mention the segments.

*Fresh ids.* Agents draw session ids at random. A run is fresh (`Relay.FreshRun`) when no id that an
agent claims was claimed before. Placement, token accounting, record cleanup, the agents'
time windows, the order of forwarded numbers, the scripts, and what is passed on and when hold in
every run; faithful routing, the destination of every send, the device index and the client's time
limit are proved for fresh runs. `RelayCounterexamples.StaleIdsMisroute` is a run in which a reused
id makes routing fail.

**The rate limiters.** Attempts are a history of times. The sorted set, the counter and the block
key with their expiries are computed step by step and then characterised by the history alone: for
an address by the trailing window, for a token by the attempts counted since the running count began
and those that overran it (`TokenLimitLaw`).

**The channel.** Cryptography is symbolic: a key is what it was derived from, a ciphertext opens
only under its key, nonce and associated data, an HMAC is the term it was computed from. About the
browser client two things are assumed where they are used: only it seals messages under its traffic
key (`Channel.OnlyClientSeals`), and proofs under the pairing secret come from it or from an agent
in its own role (`Channel.ProofsAreGenuine`). The relay may do anything. The agent's own session id,
token and public key are taken to be one line each, which is how it draws them.

**The session manager.** `Call` is an operation with the clock readings it makes (`attach` reads the
monotonic clock twice) and whether writing the manifest succeeds. A failed write raises after memory
has changed, as in the program. `AtomicFile` is the temporary file that replaces the old one, for
the manifest and for the configuration, with a failure or a crash at any step.

## What the proofs found

- A rejected `resume_init` can change the table: `detach` runs even when the `attach` failed and
  takes out the agent that was there (`RelayCounterexamples.RejectedResumeUnseats` is such a run).
  `RelayTraffic.RejectedResumeInitExactly` says exactly when nothing changes; with a new id nothing
  does (`RelayTraffic.FreshRejectionIsClean`).
- A session record survives for good when `expire` fails after `hset` in `create_session_record`
  (`RelayCounterexamples.LostExpireLeaks`). Only three losses can do this: that one, an `hset` before
  it that took effect but seemed to fail, and a final `delete` that did nothing
  (`RelayRecords.NoRecordOutlivesItsSession`).
- When a client drops while `pair_complete` is being passed on, the record is deleted and then
  written again without an expiry; it lasts as long as the agent's connection
  (`RelayLateWrite.LateWriteRecreates`).
- The token limiter admits at most `2 * max - 1` attempts in one ttl, one less than the obvious
  bound, and reaches that for every budget (`RateLimitHistory.DoubleIsNearlyReached`).
- A failed save leaves memory and manifest apart exactly when the operation alters a session, which
  `SessionHistory.Alters` reads off the state before it (`SessionHistory.InSyncExactly`;
  `SessionFailures.UnsavedStartDiffers` is a history).
- A session that ended with a failed save comes back after a restart
  (`SessionFailures.EndedSessionReturns`), or vanishes if it was never saved
  (`SessionFailures.EndedSessionVanishes`). It stays exited or terminated exactly when memory and a
  manifest both have it so (`SessionHistory.FinalForeverExactlyWhenSettled`), and it never comes back
  to life exactly when neither has it live (`SessionHistory.NeverLiveExactlyWhenGone`).
- An `attach` that starts a session whose record cannot be saved returns no token, yet the token is
  accepted (`SessionFailures.TokenLostExactly`), and nobody can attach for the lease time
  (`SessionFailures.LostTokenLocks`; `SessionFailures.FailedAttachLocksOut` is a history).
- `docs/SESSION_LIFECYCLE.md` calls `terminated` terminal; `complete` has no state check and turns
  it into `exited` (`SessionHistory.OnlyCompletionMovesFinal`). It also lets a detached session be
  paused; `pause` accepts running sessions only. The model follows the code.
- `$` in the token pattern accepts one final line feed (`Pairing.ValidTokensExactly`).

## Model

| member | source | states |
|---|---|---|
| RelayPlacement.OneSeatPerSocket | relay-server/relay/router.py:176-203 | In every reachable state, without any assumption on ids, a socket found in a slot belongs to a live connection of that role bound to that session, and sits in no other session or role. |
| RelayPlacement.StepKeepsPlaced | relay-server/relay/session_registry.py:50-79 | The placement invariant is kept by every step of every interleaving. |
| RelayTraffic.RoutingIsFaithful | relay-server/relay/router.py:533-570 | In every fresh run each routable envelope passes between exactly the two sockets of its session's latest completed handshake, and never after the session's teardown. |
| RelayAddressing.SendsStayInSession | relay-server/relay/router.py:285-306 | In every fresh run each send to another socket, handshake and traffic alike, goes from a session's agent to a client bound to that session or from a bound client to the agent that claimed it, also when the agent is read from a slot object that has left the table; for a token session that client is the one that redeemed it. |
| RelayScript.EveryWaitIsScripted | relay-server/relay/router.py:134-624 | In every run, what a connection waits for is what its last envelope and the answers since call for, in the order the handlers promise: limiters before tokens, tokens before records, the envelope itself to the peer; once it unwinds, only the notice to its peer and the deletion of its record. |
| RelayScript.HandlersRunToTheEnd | relay-server/relay/router.py:134-624 | In every run a handler goes back to listening only when its script has nothing more to ask, and gives up only after a failed command or send or, having challenged the client, without its agent. |
| RelayScript.RedeemsOnlyWithinLimits | relay-server/relay/router.py:261-264 | In every run a token is redeemed only for the connection whose last envelope asked for it, after the address limiter and then that token's limiter answered Ok. |
| RelayScript.IssuesOnlyWithinLimit | relay-server/relay/router.py:184-194 | In every run a token is issued only when well-formed, to the connection that presented it, after its address limiter answered Ok. |
| RelayScript.SeatsAreEarned | relay-server/relay/router.py:413-456 | In every run a client comes to be bound to a session only by redeeming a token for it, or by resuming the device waiting there after the address limiter and the limiter of `resume-` and its device id answered Ok. |
| RelayScript.FinishesAfterDeletion | relay-server/relay/ws_handlers.py:111-126 | In every run a connection that ends and has a session finishes exactly when the deletion of its record has been tried. |
| RelayDelivery.ForwardsAreSent | relay-server/relay/router.py:553-558 | In every run a logged forward is a routable envelope just delivered by its sender, which now waits for that very envelope to be sent to the named socket. |
| RelayDelivery.RelaysWhatItHeard | relay-server/relay/router.py:343-558 | In every run whatever a connection waits to have relayed has the number and the message it delivered last. |
| RelayDelivery.PassedOnExactly | relay-server/relay/router.py:459-624 | In every run an envelope goes to a socket if and only if its number is new, its kind is one that role sends to the other end, it is well-formed, it names the sender's session and that socket sits at the other end of it; session traffic, only when the session is established. |
| RelayDelivery.ForwardedExactly | relay-server/relay/router.py:533-558 | A forward is logged if and only if the envelope is session traffic that is passed on. |
| RelayDelivery.OpenedExactly | relay-server/relay/router.py:134-260 | The address limiter is asked if and only if the opening envelope has a new number, comes from an unbound connection of the right role, is well-formed, and for an agent finds its seat free. |
| RelayDelivery.ClaimedExactly | relay-server/relay/router.py:134-410 | An envelope binds an unbound connection if and only if it comes from an agent, is well-formed, has a new number, finds the agent's seat free and its device, if any, not filed elsewhere; the seat, the phase and the device entry are then in the table. |
| RelayDelivery.OpensOnlyByCompletion | relay-server/relay/router.py:334-530 | A session opens to traffic in a step if and only if its agent delivers a well-formed completion that names it while a client sits there. |
| RelayDelivery.SeatedExactly | relay-server/relay/router.py:264-285 | A client goes on to a seat if and only if it earned it, the agent is there and no other client is; then its session's record is written, or its agent asked to challenge it. |
| RelayDelivery.ChallengeReachesOwner | relay-server/relay/router.py:285-306 | In a fresh run the challenge to the agent goes to the one that claimed the session. |
| RelayDelivery.PeerIsToldExactly | relay-server/relay/ws_handlers.py:111-125 | When a connection ends, a socket gets the closing notice if and only if it sits at the other end of its session and is open. |
| RelayDelivery.DeletionFollowsTeardown | relay-server/relay/router.py:573-583 | Whoever comes to delete a session's record has just removed the session and every device filed under it from the table. |
| RelayTraffic.CompletionNamesSeated | relay-server/relay/router.py:315-348 | A completion names the two sockets seated in the session at that moment, and the agent is the one that claimed the id. |
| RelayRouting.StepKeepsGood | relay-server/relay/router.py:134-583 | With fresh ids every step keeps: a session belongs to one agent, its token to one client, an established slot to the pair that completed, a waiting slot has no client. |
| RelayTraffic.DeviceIndexIsExact | relay-server/relay/session_registry.py:67-88 | In fresh runs the device index is injective and names only sessions whose agent is there, or whose agent is between its detach and its remove. |
| RelayTraffic.ForwardsAscend | relay-server/relay/ws_handlers.py:93-103 | In every run what one socket gets forwarded carries positive, strictly increasing sequence numbers. |
| RelayTraffic.RejectedResumeInitExactly | relay-server/relay/router.py:386-396 | A rejected resume_init leaves slots and devices unchanged if and only if its id is unused, or its session waits for a resume, has a client and has lost its agent. |
| RelayTraffic.FreshRejectionIsClean | relay-server/relay/router.py:386-396 | In a fresh run a rejected resume_init with a new id changes nothing. |
| RelayCounterexamples.StaleIdsMisroute | relay-server/relay/router.py:573-577 | Without fresh ids routing fails: teardown leaves contexts bound, so a client of a closed session reaches the next agent that reuses its id. |
| RelayTokens.IssuancesAreSpentOnce | relay-server/relay/pairing.py:21-43 | Across issue, expiry, reissue and concurrent requests each issuance is consumed at most once and binds at most one client; a consumption follows its issuance before its expiry, a binding its own client's consumption. |
| RelayTokens.BindingMeetsItsAgent | relay-server/relay/router.py:264-283 | At the binding instant agent and client are both seated in the token's session, and in a fresh run the agent is the one that claimed it. |
| RelayCounterexamples.RejectedResumeUnseats | relay-server/relay/router.py:386-396 | A run in which a refused resume_init takes the seat of another agent that is alive and waiting under the same id. |
| RelayRecords.NoRecordOutlivesItsSession | relay-server/relay/pairing.py:110-140 | Unless a record creation takes effect but seems to fail, the expiry after it seems to fail, or a final delete does nothing, no record of a session is left once every connection bound to it has finished, whatever else fails. |
| RelayLateWrite.LateWriteRecreates | relay-server/relay/router.py:345-349 | A run of an ordinary pairing in which the client's teardown deletes the record and the agent's pending `hset` then recreates it, without an expiry. |
| RelayCounterexamples.LostExpireLeaks | relay-server/relay/pairing.py:110-119 | A failing `expire` leaves a record that exists at every later time although every connection has finished. |
| RelayTiming.UnauthenticatedClientEnds | relay-server/relay/ws_handlers.py:64-84 | With fresh ids and handlers that take no time, a client that completes no handshake has ended two handshake timeouts after connecting, whatever it sends. |
| RelayTiming.WaitingAgentIsNotTimedOut | relay-server/relay/ws_handlers.py:73-79 | In every run an agent receiving in `waiting_resume` cannot be timed out as long as it sends nothing, whatever others do to its session. |
| RelayTiming.AgentHasItsWindow | relay-server/relay/router.py:483-507 | After it has challenged its client it cannot be timed out before the handshake timeout has passed. |
| RelayTiming.PairingAgentOutlastsItsToken | relay-server/relay/router.py:204-225 | In every run an agent told that its token is issued is not timed out, until it speaks again, for as long as a token lasts. |
| RelayTiming.NobodyIsTimedOutEarly | relay-server/relay/ws_handlers.py:71-73 | In every run a timeout comes no earlier after connecting than the handshake timeout, or a token's life if that is shorter. |
| RelayTiming.IdleExactly | relay-server/relay/ws_handlers.py:71-79 | In every run a receive begins without a timeout if and only if the connection's session is established or waits for a resume; otherwise it lasts until a deadline that is set once. |
| RelaySequence.UpwardSenderIsNeverRefused | relay-server/relay/ws_handlers.py:93-102 | Whatever others do, a sender whose numbers increase passes the relay's sequence check at each of its envelopes. |
| RelaySequence.ReceivedAscends | relay-server/relay/router.py:553-558 | In a fresh run, between two completions of a session, everything forwarded to one socket comes from one sender with strictly increasing numbers. |
| RelaySequence.ForwardedInputsAllArrive | agent/common/relay_client.py:336-354 | Whatever else the agent receives, the inputs that the relay forwarded within one such stretch of its session to the agent side of the completed pair all pass the replay check and are all written to the terminal; the pump ends only when the session is closed. |
| RelayHandlers.HandlePairInit | relay-server/relay/router.py:134-182 | The new table, context and next await of the first segment: claim, conflict and phase. |
| RelayHandlers.ContinuePairInit | relay-server/relay/router.py:184-225 | The later segments of pair_init with each limiter, token and Redis outcome. |
| RelayHandlers.AbortPairInit | relay-server/relay/router.py:200-203 | Undoing pair_init after a failure: slot detached, context unbound, the exception passed on; a relay error is reported, any other ends the connection. |
| RelayHandlers.BindClient | relay-server/relay/router.py:264-285 | Whether and how a granted token seats its client, and the deadline it gets. |
| RelayHandlers.NotifyAgent | relay-server/relay/router.py:285-306 | `slot.agent` is read from the slot object fetched two awaits earlier, gone or not. |
| RelayHandlers.HandlePairComplete | relay-server/relay/router.py:315-348 | Completion needs a seated client; it establishes the session and relays the proof. |
| RelayHandlers.HandleResumeInit | relay-server/relay/router.py:358-410 | Claim, conflict with its detach, and registration of the device. |
| RelayHandlers.BindResumingClient | relay-server/relay/router.py:427-456 | Whether and how a resume request seats its client at the device's session. |
| RelayHandlers.HandleResumeProof | relay-server/relay/router.py:459-480 | The client's proof goes to the session's agent or is refused. |
| RelayHandlers.HandleResumeChallenge | relay-server/relay/router.py:483-507 | The agent's challenge goes to the client and renews the agent's deadline. |
| RelayHandlers.HandleResumeComplete | relay-server/relay/router.py:510-530 | Completion of a resume establishes the session. |
| RelayHandlers.HandleRoutable | relay-server/relay/router.py:533-570 | The delivered envelope is sent to the peer, only in an established session of the sender. |
| RelayHandlers.TeardownSession | relay-server/relay/router.py:573-583 | The slot and the device entries go; contexts stay bound. |
| RelayHandlers.DispatchEnvelope | relay-server/relay/router.py:598-624 | A role's envelope reaches its handler; any other is refused. |
| RelayHandlers.HandleEnvelope | relay-server/relay/ws_handlers.py:93-103 | An envelope whose number does not increase ends the connection. |
| RelayHandlers.StartReceive | relay-server/relay/ws_handlers.py:71-79 | The deadline is set once, the timeout is fixed when the receive starts, and two phases are exempt. |
| RelayHandlers.HandleDisconnect | relay-server/relay/ws_handlers.py:111-126 | Detach, then notify a connected peer, then tear down. |
| RelayHandlers.ResumeHandler | relay-server/relay/router.py:134-583 | Every continuation after an await behaves as its segment. |
| SessionRegistry.SessionRegistry.Attach | relay-server/relay/session_registry.py:50-56 | Fails exactly on a conflict; otherwise creates or fills the slot, keeping every slot object's identity. |
| SessionRegistry.SessionRegistry.Detach | relay-server/relay/session_registry.py:67-73 | Empties the role and drops the slot when both roles are empty; device entries stay. |
| SessionRegistry.SessionRegistry.Remove | relay-server/relay/session_registry.py:75-79 | Drops the slot and exactly the device entries of the session. |
| SessionRegistry.SessionRegistry.Forget | relay-server/relay/session_registry.py:77-79 | The loop deletes every device entry of the session and no other. |
| SessionRegistry.SessionRegistry.RegisterDevice | relay-server/relay/session_registry.py:81-85 | Fails exactly when the device is filed under another session. |
| SessionRegistry.SessionRegistry.GetPeer | relay-server/relay/session_registry.py:61-65 | The socket of the other role, if any. |
| PairingStore.PairingStore.Issue | relay-server/relay/pairing.py:21-29 | A live token is a duplicate; otherwise a new pending one with its expiry. |
| PairingStore.PairingStore.Consume | relay-server/relay/pairing.py:31-43 | Missing or expired, already used, or granted and marked in one step. |
| PairingStore.PairingStore.CreateSessionRecord | relay-server/relay/pairing.py:110-119 | Two commands: the hash without an expiry, then the expiry if the hash is still there. |
| PairingStore.PairingStore.MarkSessionEstablished | relay-server/relay/pairing.py:126-129 | The hash is written, created if it was gone, and its expiry removed. |
| Pairing.IssuedTokenGrantsOnce | relay-server/relay/pairing.py:21-43 | An issued token is a duplicate for exactly its time, grants its session to the first redemption in that time, and nothing to any other or once dropped. |
| Pairing.PendingRecordExpires | relay-server/relay/pairing.py:110-119 | A record made for a pairing is there for exactly its pending time. |
| Pairing.RewriteKeepsExpiry | relay-server/relay/pairing.py:110-129 | Writing a live record again leaves when it is there as it was. |
| Pairing.EstablishedRecordStays | relay-server/relay/pairing.py:126-140 | A record persisted while it is there is there at every time, and a deleted one at none. |
| RateLimit.IpKey.Attempt | relay-server/relay/ratelimit.py:15-29 | The script's new key and decision for any key, expired ones included. |
| RateLimit.TokenKeys.Attempt | relay-server/relay/ratelimit.py:31-48 | The script's new counter, block and decision. |
| RateLimitHistory.AdmitsExactlyTrailingWindow | relay-server/relay/ratelimit.py:15-29 | An attempt is admitted if and only if fewer than max attempts, admitted or refused, lie in the trailing window before it. |
| RateLimitHistory.AnyWindowHoldsMax | relay-server/relay/ratelimit.py:51-64 | No window of the configured length, wherever it starts, holds more than max admissions. |
| RateLimitHistory.ExpiryDropsNothingLive | relay-server/relay/ratelimit.py:21-23 | When the key has expired, no attempt is left in the window. |
| RateLimitHistory.SpanHoldsLessThanDouble | relay-server/relay/ratelimit.py:31-48 | Any span of one ttl admits at most 2 * max - 1 attempts on a token. |
| RateLimitHistory.DoubleIsNearlyReached | relay-server/relay/ratelimit.py:39-42 | That bound is attained for every max of at least 1 and ttl of at least 2. |
| TokenLimitLaw.AdmitsExactlyWithinBudget | relay-server/relay/ratelimit.py:31-48 | An attempt is admitted if and only if no attempt that overran its count lies within the last ttl and fewer than max attempts have been counted since the running count began, all defined on the times of the attempts. |
| TokenLimitLaw.QuietTtlReopens | relay-server/relay/ratelimit.py:36-48 | After one ttl without attempts the next one passes, whatever came before, for every max of at least 1. |
| Pairing.ValidTokensExactly | relay-server/relay/pairing.py:19-53 | A token is valid if and only if its length is in bounds and it is url-safe, or url-safe text with one line feed behind it. |
| RateLimitHistory.LifetimeHoldsMax | relay-server/relay/ratelimit.py:67-76 | A token that no attempt preceded admits at most max attempts over its life. |
| RateLimitHistory.BlockOutlastsToken | relay-server/relay/ratelimit.py:43-45 | A block set after issuance lasts until the token has expired, and every later attempt in its life is refused. |
| Crypto.MessageAadInjective | agent/common/crypto.py:112-121 | Type, session id, number and direction can be read back from the associated data, for one-line types and any session id and number. |
| Crypto.OneLineAadIsUnique | agent/common/crypto.py:112-121 | Associated data of a one-line type and session id belongs to no other type, session, number or direction, line breaks in them or not. |
| Crypto.TypesMustBeOneLine | agent/common/crypto.py:112-121 | With a line feed in the type two different messages share their associated data, for every number and direction. |
| Crypto.DecimalInjective | agent/common/crypto.py:120 | Numbers of any size print differently. |
| Crypto.HandshakeTranscriptInjective | agent/common/crypto.py:49-59 | The transcript determines session id, token and both keys when the first three are one line each. |
| Crypto.OneLineTranscriptIsUnique | agent/common/crypto.py:49-59 | A transcript of four one-line fields is made by no other fields, line breaks in them or not. |
| Crypto.ProofInputInjective | agent/common/crypto.py:101-105 | Proof inputs of the two roles never coincide, and each determines its transcript. |
| Crypto.AadWrittenOut | agent/common/crypto.py:112-121 | The associated data of each direction as one text: header, direction, type, session id and decimal number. |
| Crypto.TranscriptWrittenOut | agent/common/crypto.py:49-59 | The handshake transcript as one text: header, session id, token and both public keys, a line each. |
| Crypto.RoleText | agent/common/crypto.py:101-105 | The proof input of each role as one text. |
| RelayClient.RelayClient.SendEncrypted | agent/common/relay_client.py:294-313 | The number bound into the associated data is the one in the envelope, and it is used up even if the socket raises. |
| RelayClient.RelayClient.Authenticate | agent/common/relay_client.py:249-275 | A key that does not decode leaves no new session keys; otherwise they are derived and kept, the client's proof is checked, and the agent's is sent. |
| RelayClient.RelayClient.DecryptPayload | agent/common/relay_client.py:329-355 | What is accepted, and that the replay counter moves exactly on acceptance. |
| RelayClient.PumpRelayToPty | agent/common/session_pump.py:29-53 | The loop's effect on counter, terminal and status for every sequence of envelopes. |
| Channel.WritesAreClientInputs | agent/common/session_pump.py:29-34 | For any relay behaviour, what is written to the terminal are plaintexts the client sealed for this session as input, each once, in the order of their numbers. |
| Channel.WritesAreSubsequence | agent/common/session_pump.py:29-34 | If the client numbers upwards, the writes are an in-order, duplicate-free subsequence of its inputs. |
| Channel.DecryptedIsSent | agent/common/relay_client.py:342-355 | A decrypted input is one the client sealed with the same type, session id and number. |
| Channel.OrderedInputsAllArrive | agent/common/session_pump.py:29-53 | Among envelopes of every other kind, inputs numbered upwards are all written, none ends the pump, and the replay counter is the last input's number; the pump stays open until a session_close. |
| Channel.OpensExactly | agent/common/relay_client.py:329-355 | The agent opens an envelope to a plaintext if and only if it is sealed so under the client's traffic key for this session, its own type and number, and numbered above everything opened before. |
| Channel.RaisesExactly | agent/common/session_pump.py:29-53 | The pump ends by an exception if and only if an input that is not sealed for the agent, or not numbered above the input before it, arrives before the close; otherwise it ends with the close or not at all. |
| Channel.LastSizeIsSet | agent/common/session_pump.py:35-46 | With inputs in order, the terminal has the rows and columns last asked for before the close, sizes out of range ignored. |
| Channel.SentNumbersAscend | agent/common/relay_client.py:80-102 | Over any history of sends, encryptions, answers and receipts, some of which raise, everything the socket took carries positive, strictly increasing numbers. |
| AgentOutput.SaysAsTold | agent/common/relay_client.py:80-102 | Over any history of sends, encryptions, answers and receipts the socket takes exactly what the agent was told to send while it was up; a reader with the agent's traffic key of the handshake then in force opens each ciphertext, under the envelope's own type, session and number, to the plaintext given; an answer to a proved client carries the agent's proof of that handshake. |
| AgentOutput.EveryAttemptTakesANumber | agent/common/relay_client.py:80-102 | Over any such history each attempt to send uses up exactly one number, also when the socket raises. |
| AgentOutput.NothingSealedAsClient | agent/common/relay_client.py:294-313 | Every ciphertext the agent sends is under an agent's traffic key, never a client's. |
| Channel.HandshakesAgree | agent/common/relay_client.py:249-275 | A handshake the agent completes is one some client run took part in with the same session id, token and public keys, whatever texts the relay handed to the client; an agent's own proof cannot be reflected. |
| SessionManager.SessionManager.constructor | agent/common/session_manager.py:48-78 | A new manager holds what the manifest loads as, and no lease. |
| SessionManager.SessionManager.LoadItems | agent/common/session_manager.py:72-78 | Items with malformed ids are skipped, later items replace earlier ones, order is kept. |
| SessionManager.SessionManager.Save | agent/common/session_manager.py:80-103 | The manifest becomes the records in order, or stays and the exception is passed on. |
| SessionManager.SessionManager.Create | agent/common/session_manager.py:105-119 | A new record, saved. |
| SessionManager.SessionManager.Start | agent/common/session_manager.py:137-144 | Created or detached becomes running; every other state is refused. |
| SessionManager.SessionManager.Attach | agent/common/session_manager.py:146-159 | Expires lazily, refuses final and leased sessions, otherwise leases; a detached session stays detached. |
| SessionManager.SessionManager.Detach | agent/common/session_manager.py:161-169 | Only the holder; the lease goes, and a running session becomes detached. |
| SessionManager.SessionManager.Pause | agent/common/session_manager.py:171-179 | Only the holder of a running session. |
| SessionManager.SessionManager.Resume | agent/common/session_manager.py:181-189 | Only the holder of a paused session. |
| SessionManager.SessionManager.Terminate | agent/common/session_manager.py:191-198 | Only the holder; the lease goes. |
| SessionManager.SessionManager.Complete | agent/common/session_manager.py:200-207 | Any known session becomes exited and loses its lease. |
| SessionHistory.AcceptedExactlyWhenHeld | agent/common/session_manager.py:146-218 | After any history with a monotone clock, a token is accepted at a time if and only if it is that of the latest grant with no detach, terminate, complete or reload since, and the time is before the grant plus the lease time. |
| SessionHistory.AttachExactlyWhenFree | agent/common/session_manager.py:146-154 | An attach is not refused, though it may still raise on saving, if and only if the session is known, not over, and nobody's token is accepted. |
| SessionHistory.ControlIsDisjoint | agent/common/session_manager.py:146-218 | Between two grants of a session the first lease ran out or was given up. |
| SessionHistory.NoLeaseOnFinal | agent/common/session_manager.py:137-218 | No exited or terminated session ever holds a lease. |
| SessionTransitions.SessionsFollowTheTable | agent/common/session_manager.py:105-218 | Over every history, restarts and failed writes included, each session's record and holder are what a transition table makes of the calls that name it; calls on other sessions and refused calls change nothing. |
| SessionTransitions.RefusedExactlyByTable | agent/common/session_manager.py:128-218 | After any history a call is refused if and only if its session does not exist or the table does not permit it in that status to that caller. |
| SessionTransitions.LoadsLastItem | agent/common/session_manager.py:66-78 | Of any manifest, a session is loaded as its last item, and nothing under a malformed id. |
| SessionTransitions.OnlyRenameRenames | agent/common/session_manager.py:128-207 | Only a rename changes a session's name, only completion its exit code, and nothing its directory or time of creation. |
| SessionFailures.TokenLostExactly | agent/common/session_manager.py:146-159 | An attach that does not return its token has it accepted if and only if it starts a created, known, unleased session whose record cannot be saved. |
| SessionFailures.LostTokenLocks | agent/common/session_manager.py:146-159 | Over any history after such an attach, every attach before the lease runs out is refused, unless the session is completed, the agent restarts or the lost token is presented. |
| SessionFailures.FailedAttachLocksOut | agent/common/session_manager.py:146-159 | A first attach that cannot be saved raises, and the next one is refused. |
| SessionHistory.RoundTrip | agent/common/session_manager.py:66-103 | Loading what was dumped gives back the sessions, order included. |
| SessionHistory.ManifestIsLastWritten | agent/common/session_manager.py:66-207 | Over any history, failed saves and restarts included, the manifest loads as the sessions at the last write that succeeded. |
| SessionHistory.InSyncExactly | agent/common/session_manager.py:80-207 | An operation keeps manifest and memory equal if and only if the manifest can be written or the operation, judged on the state before it, alters no session. |
| SessionFailures.UnsavedStartDiffers | agent/common/session_manager.py:137-144 | A start that cannot be saved leaves memory and manifest apart. |
| SessionHistory.InSyncWhileWritable | agent/common/session_manager.py:66-207 | While saves succeed, loading always yields the sessions in memory, after refused operations too. |
| SessionHistory.FinalForeverExactlyWhenSettled | agent/common/session_manager.py:137-207 | A session is there and exited or terminated after every further history, failed saves and restarts included, if and only if it is so now in memory and in a manifest. |
| SessionHistory.NeverLiveExactlyWhenGone | agent/common/session_manager.py:66-207 | A session is not live after any further history, though it may be absent, if and only if neither memory nor manifest has it live. |
| SessionFailures.EndedSessionReturns | agent/common/session_manager.py:200-207 | A session whose completion could not be saved is back after a restart as it was before. |
| SessionFailures.EndedSessionVanishes | agent/common/session_manager.py:105-119 | A session whose creation and completion could not be saved is exited in memory and unknown after a restart. |
| SessionHistory.OnlyCompletionMovesFinal | agent/common/session_manager.py:137-207 | Within a process an exited or terminated session stays known and over, whether saves fail or not, and its state is changed by nothing but complete, which makes it exited. |
| AtomicFile.Save | agent/common/session_manager.py:84-103 | For a failure at any step: every state on the way shows the old directory beside the temporary file, a failed save restores it, a good one replaces the file in one step. |
| ManifestFile.SaveSessions | agent/common/session_manager.py:80-103 | A crash at any point leaves a manifest that loads as the old sessions or the new ones. |
| AgentConfig.ReplacesAreEscape | agent/common/config.py:61 | The two successive replaces are one escape of each character. |
| AgentConfig.RenderConfig | agent/common/config.py:59-71 | The lines that are built and joined are the file text. |
| ConfigFile.SaveConfig | agent/common/config.py:72-90 | A crash or failure at any point leaves a file that loads as the old configuration or the new one. |
| AgentConfig.EscapeReadsBack | agent/common/config.py:61-62 | A basic string reads an escaped value back, and refuses exactly those with control characters other than tab. |
| AgentConfig.SaveThenLoad | agent/common/config.py:43-73 | Loading after saving gives the configuration up to empty fields and half-set devices if the URL has no control characters, and fails otherwise. |
| AgentConfig.UrlSafeSaveThenLoad | agent/common/config.py:43-73 | With url-safe id and secret, loading after saving gives the configuration back if and only if the URL has no control characters. |
| TerminalQr.Render | agent/common/terminal_qr.py:24-39 | The nested loops compute the packed lines of any matrix. |
| TerminalQr.RenderReadsBack | agent/common/terminal_qr.py:24-39 | Given the height, the text unpacks to exactly the original rows, odd heights included. |
| TerminalQr.SplitsCleanly | agent/common/terminal_qr.py:38-39 | The text splits into exactly the packed lines. |
| TerminalQr.RenderInjective | agent/common/terminal_qr.py:24-39 | Two codes print the same text if and only if they are equal or differ by one blank row under an odd height. |

## Left out

- Payload checks: base64 sizes, id patterns and hostnames are one boolean `fieldsOk` per message; JSON and pydantic parsing are library work.
- X25519, HKDF, HMAC and XChaCha20-Poly1305 are symbolic; probabilities, key sizes and nonce collisions are not modelled, nor is base64 around keys and ciphertexts.
- The browser client is not in this repository; only the two assumptions named above are made about it.
- Inside relay runs the limiters answer freely; what they answer is proved separately in `RateLimitHistory`.
- Redis fields that the router never reads back (`state`, `created_at`, public keys, hostnames); a record is its existence, its expiry and its last writer.
- Accepting a socket, the origin check, `ConnectionLimiter`, `_client_ip`, close codes and log events: they do not touch sessions.
- Cancellation of a handler inside an await; a send that raises covers its effect on the table.
- RelayTiming.UnauthenticatedClientEnds: time passes only while every connection waits for an envelope or has ended, since handler and Redis time is unbounded in the program.
- RelayTraffic.RoutingIsFaithful: says where envelopes go, not that a send arrives; delivery by the WebSocket library is outside the model.
- RelaySequence.ForwardedInputsAllArrive: inputs of one stretch, received by an agent that has accepted none before; a further completion may bring another client whose numbers start again.
- RelaySequence.ReceivedAscends: for a stretch without a further completion, because a second client may resume while the first one's disconnect is still being announced, and a new completion then starts a new stretch.
- The upper bound of sequence numbers in the envelope schema; the model's numbers are unbounded.
- `_validate_text` on labels and directories, and the bounds on `lease_seconds`: plain input checks; the model takes any label and any lease time.
- Type errors inside a hand-edited manifest: an item is a well-typed record, or the whole file does not parse.
- Records that `SessionManager` hands to its callers, who could change them; the model returns outcomes only.
- AgentConfig.SaveThenLoad: device id and secret are printed without escaping, so it asks for text without quotes, backslashes and control characters, which url-safe text is; the reader covers standard tables, bare keys and basic strings without Unicode escapes.
- Newline translation on Windows.
- The QR matrix itself, PTY backends, shells, the command line and installers.
