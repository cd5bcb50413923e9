# Broadcast intake handler of the ordering service

This project models the broadcast handler of the ordering service (`orderer/common/broadcast/broadcast.go`).
The handler serves one client connection. It receives envelopes one at a time. For each one it:

1. asks the channel-support registrar to route it;
2. waits on the consenter's readiness gate;
3. processes it as a normal message and hands it to `Order`, or processes it as a config update and hands the rewritten config to `Configure`;
4. acknowledges it with SUCCESS, or sends one rejection and ends the session.

It also models `ClassifyError`, which maps an error's root cause to a wire status.

The collaborators (the registrar, the message processor, the consenter and the stream itself) are not modelled as code. Each received envelope carries a `Script`: the outcome every collaborator call would have for that envelope, including the result of the one `Send`. The handler calls each operation at most once per envelope. So a script per envelope covers every collaborator's return values, including those of stateful collaborators.

`Handle` is a pure function over the sequence of receive results. It returns:

- the trace of every call made, receives and sends included;
- how the session ended: the handler returned nil or an error, or the input ran out while the loop waits in its next receive.

Modules:

- `Wire`: envelopes, statuses, responses, errors with their root cause, and `Result` and `Outcome` returns.
- `Collaborators`: scripts, receive results, and the alphabet of calls.
- `Taxonomy`: `ClassifyError`, the four stages of serving an envelope, the first failing stage, and the status each stage's failure earns.
- `Broadcast`: `Serve` (one loop iteration) and `Handle` (the session), with the lemmas describing whole sessions.
- `Protocol`: a call-order automaton written independently of the handler. It comes with two proofs: every session the handler produces is accepted by it, and every trace it accepts is produced by the handler under some collaborator script.
- `Session`: lemmas that place one message after any number of accepted ones and state everything the session does from there.

## Model

| member | source | states |
|---|---|---|
| Taxonomy.ClassifyError | orderer/common/broadcast/broadcast.go:168-178 | Total. A channel-does-not-exist cause gives NOT_FOUND, a permission-denied cause gives FORBIDDEN, and every other cause gives BAD_REQUEST (each is an if-and-only-if). It never answers SUCCESS or SERVICE_UNAVAILABLE |
| Taxonomy.CauseOf | orderer/common/broadcast/broadcast.go:168-178 | Every status the classifier can answer (NOT_FOUND, FORBIDDEN, BAD_REQUEST) is its answer for some root cause, with any error text |
| Taxonomy.RejectionStatus | orderer/common/broadcast/broadcast.go:103-155 | A rejection is never SUCCESS. It is SERVICE_UNAVAILABLE exactly when the readiness gate or the submission failed. A routing failure is always BAD_REQUEST. A normal-message or config-update processing failure gets ClassifyError of its error; only such a failure is passed to ClassifyError |
| Broadcast.Serve | orderer/common/broadcast/broadcast.go:100-160 | The reply is SUCCESS with empty info when no stage fails. Otherwise it is the first failing stage's status with that error's text. One call is made per stage, in the order route, gate, process, submit, stopping at the failing stage. Processing gets the received message. Order gets the message and the sequence number normal processing returned. Configure gets the rewritten config and its sequence number. Normal processing and Order happen only on the normal branch; config processing and Configure happen only on the config branch |
| Broadcast.ContinuesOnSuccess | orderer/common/broadcast/broadcast.go:157-164 | The loop goes round again exactly when the reply is SUCCESS and its send returns nil |
| Broadcast.IterationShape | orderer/common/broadcast/broadcast.go:87-164 | An iteration that received a message makes one receive, routes that message once, and sends exactly one response: its reply, as its last call |
| Broadcast.Handle | orderer/common/broadcast/broadcast.go:83-166 | The session loop. Its contract is stated by the lemmas about it: HandleShape (ending, reads, routing in receipt order, one reply per envelope, rejection last), Protocol.HandleIsLegal and Protocol.LegalExactly (its traces are exactly those of the call-order automaton), and Session.AcceptedPrefix (no state carried between iterations). HandleCons only unfolds one loop step for these proofs |
| Broadcast.HandleShape | orderer/common/broadcast/broadcast.go:83-166 | The first item that does not continue the loop decides the ending: nil on end of stream, the receive error, or the last send's result. Without such an item the loop waits in its next receive. The items read are a prefix of the input. The envelopes routed are exactly the delivered envelopes of that prefix, in receipt order. There is one response per routed envelope, and a non-SUCCESS response is the session's last call |
| Protocol.IterationLegal | orderer/common/broadcast/broadcast.go:87-164 | One iteration takes the call-order automaton from idle back to idle when the reply is SUCCESS, and to closed when it is a rejection |
| Protocol.HandleIsLegal | orderer/common/broadcast/broadcast.go:83-166 | Every session's trace is accepted by the automaton. So a call only follows the calls the protocol allows before it: no readiness wait after a routing failure, no processing after a gate failure, no submission after a processing failure, no Order after config processing and no Configure after normal processing. Each rejection carries its stage's status, nothing follows a rejection, and a session waiting for input stands between iterations |
| Protocol.ParseIteration | orderer/common/broadcast/broadcast.go:87-164 | A legal trace longer than a bare receive starts with one whole iteration: a receive, routing, and one send at most four calls later. That iteration is exactly what the handler does under a script read off its calls |
| Protocol.WitnessProduces | orderer/common/broadcast/broadcast.go:83-166 | Every trace the automaton accepts is the trace of the handler's session on inputs built from it: the automaton allows nothing the handler cannot do |
| Protocol.LegalExactly | orderer/common/broadcast/broadcast.go:83-166 | A call sequence is accepted by the automaton if and only if some input makes the handler produce exactly that sequence |
| Session.AcceptedPrefix | orderer/common/broadcast/broadcast.go:87-165 | After any number of accepted messages the session goes on exactly as a fresh session on the remaining input: no state is carried between iterations |
| Session.MessageInSession | orderer/common/broadcast/broadcast.go:87-165 | A message after accepted ones adds its iteration's calls. The session then goes on if the message is accepted and the SUCCESS send returns nil, and otherwise returns that send's result |
| Session.EndOfStreamReturnsNil | orderer/common/broadcast/broadcast.go:90-94 | End of stream makes the handler return nil, with no response sent and nothing further read |
| Session.ReceiveErrorReturned | orderer/common/broadcast/broadcast.go:95-98 | Any other receive error is returned unchanged, with no response sent |
| Session.ChannelSupportFailure | orderer/common/broadcast/broadcast.go:103-111 | A routing failure yields exactly one BAD_REQUEST response with the error text, whatever the error's cause. The session returns that send's result. No readiness wait, processing or submission happens |
| Session.WaitReadyFailure | orderer/common/broadcast/broadcast.go:115-118 | A readiness failure yields exactly one SERVICE_UNAVAILABLE response with the error text, and the session ends with that send's result. No processing or submission happens |
| Session.NormalProcessingFailure | orderer/common/broadcast/broadcast.go:121-130 | A normal-message processing failure yields one response whose status is ClassifyError of the error, with its text. The session ends, and Order is never called |
| Session.OrderFailure | orderer/common/broadcast/broadcast.go:126-137 | Order is called with the received message and the processing's sequence number. If it fails, one SERVICE_UNAVAILABLE response is sent and the session ends |
| Session.ConfigProcessingFailure | orderer/common/broadcast/broadcast.go:138-147 | A config-update processing failure yields one response whose status is ClassifyError of the error. The session ends, and Configure is never called |
| Session.ConfigureFailure | orderer/common/broadcast/broadcast.go:143-154 | Configure is called with the rewritten config and its sequence number. If it fails, one SERVICE_UNAVAILABLE response is sent and the session ends |
| Session.NormalAccepted | orderer/common/broadcast/broadcast.go:121-164 | A normal message passing every step is ordered and acknowledged with one SUCCESS response with empty info. The session then reads on, or returns the send error if that send fails. Configure is never called |
| Session.ConfigAccepted | orderer/common/broadcast/broadcast.go:138-164 | A config update passing every step is submitted as the rewritten config with its sequence number and acknowledged with one SUCCESS response with empty info. The session reads on, or returns the send error. Order is never called |

A routing failure always gets BAD_REQUEST, whatever its cause: it never goes through `ClassifyError` (broadcast.go:110). So a routing error whose cause is "channel does not exist" gets BAD_REQUEST, not NOT_FOUND. `Session.ChannelSupportFailure` and `Taxonomy.RejectionStatus` state this.

## Left out

- The gRPC stream plumbing, the remote-address lookup and all logging are left out. The `<malformed_header>` fallback for the channel id (broadcast.go:105-108) only changes a log line. The channel header is kept in `Resolution`, but the model does not read it.
- The internals of the message processor, the consenter and consensus chains, and the channel-support registrar are not part of this model. They appear only as scripted outcomes.
- Blocking and cancellation in `WaitReady` and `Recv` are modelled only by what the call returns. Concurrency across sessions is left out too: each session is independent.
- Error wrapping is replaced by a root-cause enum (`ChannelDoesNotExist`, `PermissionDenied`, `Other`) and the error's text. The end-of-stream check compares the error value itself, not its cause, so end of stream is its own receive result.
- Envelopes are modelled as values, so the collaborators are assumed not to modify the envelope they are given. The handler passes one envelope pointer to the registrar, to processing and to `Order` (broadcast.go:103, 126, 133, 143). A processor that changed it in place would change what `Order` receives; the model does not cover that.
- Nil results on success are not modelled. A successful routing is assumed to return a channel header and a channel support, and successful config processing a config envelope. The code does not check for nil. A nil support would panic in `WaitReady` (broadcast.go:115). A nil header would panic where its channel id is read for logging (broadcast.go:116, 123, 140, 157). A nil config would be passed to `Configure` as is (broadcast.go:150).
- `NewHandlerImpl` and the `Handler` interface are left out: they only construct the handler.
- A session is modelled over a finite input. Input that runs out before the session ends is the `AwaitingRecv` ending, meaning the loop is blocked in its next receive. An infinite session is the limit of its finite prefixes.
