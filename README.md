# Signaling state machine of a peer-to-peer data channel

This project is a Dafny model of the signaling core of a connection that sets
up a direct peer-to-peer data channel using an ICE engine (libjuice). Before
a direct path exists, the two peers exchange session descriptions and
candidates over an out-of-band signaling channel. The model covers the
following parts of the source, together with the properties that follow from
them:

- `Connection::connect` in `src/conn.cpp`: the coroutine that installs the
  signaling handlers, starts the signaling backend, exchanges session
  descriptions in a role-dependent order, starts candidate gathering and
  waits for the engine to report a completed connection;
- `push_signaling_data`: dispatches inbound signaling packets through the
  parser's handler table;
- `send_data`: translates the engine's send result codes into `SendResult`;
- the state-changed and candidate callbacks the engine invokes;
- the packet catalog of `src/protocol.hpp`.

Modules:

- `Protocol` (protocol.dfy): the five packet kinds, their wire values
  0x00–0x04 and their payload fields. Only SessionDescription and Candidate
  carry a field, a single string `desc`.
- `Juice` (juice.dfy): the engine result codes and agent states the core
  reads. `juice.h` is not part of this model. The code values are libjuice's
  (`JUICE_ERR_SUCCESS` 0, `JUICE_ERR_AGAIN` -5, `JUICE_ERR_TOO_LARGE` -6, …),
  and the proofs use only the fact that they are distinct.
- `DataPlane` (dataplane.dfy): `send_data` as a total mapping from engine
  codes to `SendResult`.
- `Signaling` (signaling.dfy): the pure transitions. It holds:
  - `ConnState`, which contains the handler table `parser.callbacks.by_type`,
    `remote_desc`, the `session_desc_set`, `remote_gathering_done` and
    `connected` events, the role, the step `connect` has reached, and a log
    of engine commands and packets sent;
  - `Connect`, the synchronous part of `connect` up to its first suspension;
  - `Resume`, one guarded step of `connect`;
  - the three handlers, `Invoke` and `Push`;
  - `OnStateChanged` and `OnCandidate`.

  Every foreign result is an input of the transition. This covers the
  backend start, every `juice_*` return code, the awaited Success response,
  parsing, payload decoding and each send. The waits on `session_desc_set`
  and `connected` are preconditions (`Awaits`).
- `Ordering` (ordering.dfy): runs of events that interleave `connect`'s
  resumptions with inbound packets and engine callbacks. The invariant `Inv`
  says that the commands the current `connect` call has issued are a prefix
  of a fixed script for its role:
  - controlled: create, start backend, set remote, get local, send local,
    gather;
  - controlling: create, start backend, get local, send local, set remote,
    gather.

  The step reached fixes the length of the prefix, except after a failure,
  where the prefix ends at the failing step. The role asymmetry,
  "backend first", "the first failure aborts" and the fate of each handler
  are proved from `Inv`.
- `Handshake` (handshake.dfy): a complete successful run for each role,
  from a fresh connection to `connect` returning true.
- `Conn` (connection.dfy): the class `Connection`. Its fields are those of
  `ConnState`. `Connect` runs `connect` up to its first guarded step, and
  each further step method runs one `coop_ensure`-guarded step of `connect`.
  Only four steps are suspensions in the source: `StartingBackend`,
  `AwaitingRemoteDescription`, `AwaitingSuccess` and `AwaitingConnected`.
  `FetchingLocalDescription` and `GatheringCandidates` are steps of the
  model only (see "Left out"). Each step method is proved to change the
  fields exactly as the matching transition does, and to keep `Inv`. `PushSignalingData`, `OnStateChanged`
  and `OnCandidate` are proved to match their transitions and to keep `Inv`
  too. The handler methods and `Invoke` are proved equal to their transitions
  only. They carry no `Inv` obligation of their own, because
  `PushSignalingData` is the only caller and it keeps `Inv`. Each handler
  runs as a whole: a handler that sends a reply contains a suspension in the
  source, and the model does not split the handler there (see "Left out").

Two behaviours are modelled as written:

- `push_signaling_data` skips the Error reply when the request's header *id*,
  not its type, equals `Error::pt` (src/conn.cpp:62).
- The GatheringDone handler erases the *SessionDescription* entry, not its
  own (src/conn.cpp:125). `Ordering.GatheringDoneBlocksControlled` shows the
  consequence. Suppose a controlled peer receives GatheringDone while it
  waits for the remote description, before that description has arrived,
  and the handler's Success reply is sent. Then until `connect` is called
  again `session_desc_set` is never notified and `connect` never leaves that
  wait. If the reply fails, the handler returns before the erase
  (src/conn.cpp:124) and the entry stays.

## Model

| member | source | states |
|---|---|---|
| Protocol.TypeOf | src/protocol.hpp:4-30 | each packet kind has its own wire value: Success 0x00, Error 0x01, SessionDescription 0x02, Candidate 0x03, GatheringDone 0x04, and a value identifies its kind |
| Protocol.TypesDistinct | src/protocol.hpp:5-29 | the five type values are pairwise distinct, so a table keyed by type has one slot per kind |
| Protocol.PayloadShapes | src/protocol.hpp:4-30 | SessionDescription and Candidate declare exactly the field `desc`; Success, Error and GatheringDone declare none |
| Protocol.Fields | src/protocol.hpp:12-26 | a packet has exactly as many field values as its kind declares fields, and a description-carrying packet's one value is its `desc` |
| Protocol.FromFields | src/protocol.hpp:4-30 | a packet is rebuilt from a type and field values exactly when the type is one of the five and the number of values matches, and the result has that type and those values |
| Protocol.FieldsRoundTrip | src/protocol.hpp:12-26 | every packet is recovered from its type and field values |
| DataPlane.SendData | src/conn.cpp:69-80 | JUICE_ERR_SUCCESS gives Success, JUICE_ERR_AGAIN gives WouldBlock, JUICE_ERR_TOO_LARGE gives MessageTooLarge, and every other code gives UnknownError (each one an if-and-only-if) |
| DataPlane.SendDataOnto | src/conn.hpp:17-22 | every `SendResult` value is produced by some engine code |
| DataPlane.OtherCodesUnknown | src/conn.cpp:77-78 | the remaining engine error codes are all reported as UnknownError |
| Signaling.Connect | src/conn.cpp:82-129 | connect installs the SessionDescription, Candidate and GatheringDone handlers and keeps other entries, resets the remote description and its events, creates the engine without a gathering-done callback, then starts the backend |
| Signaling.Resume | src/conn.cpp:129-158 | a failed guarded step makes connect return false at once; otherwise the next step is fixed by the role; the remote description applied is the one the handler stored; the local description sent is the engine's; only successful gathering erases the GatheringDone entry; connect returns true only from the wait on `connected` |
| Signaling.SessionDescriptionHandler | src/conn.cpp:105-113 | on a decodable payload it stores the description, sets `session_desc_set` and replies Success with the request's id; it succeeds and erases its own entry only when that reply is sent; an undecodable payload changes nothing and fails |
| Signaling.CandidateHandler | src/conn.cpp:114-119 | it hands the decoded candidate to the engine, sends no reply, never changes the table, and fails exactly when decoding or `juice_add_remote_candidate` fails |
| Signaling.GatheringDoneHandler | src/conn.cpp:120-127 | it notifies `remote_gathering_done`, replies Success with the request's id, and once that reply is sent erases the SessionDescription entry (as written) |
| Signaling.Invoke | src/conn.cpp:62 | in a well-keyed table, a SessionDescription, Candidate or GatheringDone packet runs exactly its own handler and reports that handler's result; a type with no registered handler is not handled and changes nothing; handlers touch neither the step nor `connected`, only append replies and engine candidate commands to the log, and at most remove the SessionDescription entry |
| Signaling.Push | src/conn.cpp:60-67 | unparseable input changes nothing and returns true; an Error reply carrying the request's id is sent exactly when no handler took the packet and its id differs from `Error::pt`; the result is false exactly when that reply fails to send |
| Signaling.ReactionTo | src/conn.cpp:16-25 | COMPLETED, and only COMPLETED, notifies `connected`; FAILED, and only FAILED, invokes `on_disconnected`; other states do nothing |
| Signaling.OnStateChanged | src/conn.cpp:12-26 | `connected` becomes set exactly when it was set or the state is COMPLETED; `on_disconnected` is logged exactly for FAILED; nothing else changes |
| Signaling.OnCandidate | src/conn.cpp:28-37 | a discovered candidate is sent as a Candidate packet, and `on_disconnected` follows exactly when that send fails; nothing else changes |
| Ordering.ConnectPreservesInv | src/conn.cpp:99-129 | after the synchronous start of connect, its commands so far are exactly "create engine, start backend" |
| Ordering.ResumePreservesInv | src/conn.cpp:129-158 | each resumption of connect extends its commands along its role's script, or ends them on failure |
| Ordering.PushPreservesInv | src/conn.cpp:60-67 | dispatching an inbound packet keeps the invariant and adds nothing to connect's commands |
| Ordering.ApplyPreservesInv | src/conn.cpp:12-159 | every event, whether connect, an inbound packet or an engine callback, keeps the invariant |
| Ordering.RunPreservesInv | src/conn.cpp:12-159 | every run of events keeps the invariant |
| Ordering.Reachable | src/conn.cpp:82-159 | every state reachable from a fresh connection satisfies the invariant |
| Ordering.RoleOrdering | src/conn.cpp:129-149 | a controlled peer applies the remote description before it sends its own; a controlling peer sends its own first; on both sides the backend is started before either happens |
| Ordering.SuccessfulConnect | src/conn.cpp:151-158 | a connect that returned true issued its role's whole script, saw `connected` notified, and left no GatheringDone entry |
| Ordering.ReturnIsFinal | src/conn.cpp:129-158 | once connect has returned (in particular after the first failing guarded step), no later step's command occurs and the result does not change until connect is called again |
| Ordering.CandidateHandlerPersists | src/conn.cpp:114-119 | after the first connect call the Candidate entry stays registered whatever packets and callbacks follow |
| Ordering.SessionDescriptionStaysRemoved | src/conn.cpp:105-127 | once the SessionDescription entry is gone, nothing but a new connect call restores it |
| Ordering.SessionDescriptionOneShot | src/conn.cpp:105-113 | after a SessionDescription is handled and acknowledged, a later one reaches no handler, leaves the stored description untouched, and is answered with Error unless its id equals `Error::pt` |
| Ordering.CandidateDispatched | src/conn.cpp:60-67 | once connect has been called, a Candidate packet reaches the Candidate handler: a decodable candidate goes to the engine, and an Error reply follows exactly when decoding or the engine fails and the id differs from `Error::pt`; nothing else changes |
| Ordering.GatheringDoneBlocksControlled | src/conn.cpp:120-136 | a GatheringDone received by a controlled peer while it waits for the remote description, before that description has arrived, whose Success reply is sent, removes the SessionDescription entry; after that `connect` stays at that wait until it is called again |
| Handshake.ControlledHandshake | src/conn.cpp:129-158 | a controlled peer's successful run stores and acknowledges the peer's description, applies it, then sends its own, gathers and returns true, leaving only the Candidate handler |
| Handshake.ControllingHandshake | src/conn.cpp:129-158 | a controlling peer's successful run sends its description, gets it acknowledged, then receives and applies the peer's, gathers and returns true, leaving only the Candidate handler |
| Conn.Connection.constructor | src/conn.hpp:24-30 | a new connection has an empty handler table, has done nothing and satisfies the invariant |
| Conn.Connection.Connect | src/conn.cpp:82-129 | updates the fields exactly as `Signaling.Connect` and keeps the invariant |
| Conn.Connection.BackendStarted | src/conn.cpp:129-131 | updates the fields as resuming with the backend's result and keeps the invariant |
| Conn.Connection.ApplyRemoteDescription | src/conn.cpp:131-136 | only once `session_desc_set` is notified, updates the fields as resuming with the engine's code and keeps the invariant |
| Conn.Connection.PublishLocalDescription | src/conn.cpp:138-142 | updates the fields as resuming with the engine's local description and keeps the invariant |
| Conn.Connection.LocalDescriptionAnswered | src/conn.cpp:142-149 | updates the fields as resuming with the response and keeps the invariant |
| Conn.Connection.StartGathering | src/conn.cpp:151-156 | updates the fields as resuming with the gathering code and keeps the invariant |
| Conn.Connection.Finish | src/conn.cpp:157-158 | only once `connected` is notified, makes connect return true and keeps the invariant |
| Conn.Connection.OnSessionDescriptionPacket | src/conn.cpp:105-113 | changes the fields and answers exactly as `Signaling.SessionDescriptionHandler` |
| Conn.Connection.OnCandidatePacket | src/conn.cpp:114-119 | changes the fields and answers exactly as `Signaling.CandidateHandler` |
| Conn.Connection.OnGatheringDonePacket | src/conn.cpp:120-127 | changes the fields and answers exactly as `Signaling.GatheringDoneHandler` |
| Conn.Connection.Invoke | src/conn.cpp:62 | changes the fields and answers exactly as `Signaling.Invoke` |
| Conn.Connection.PushSignalingData | src/conn.cpp:60-67 | changes the fields and answers exactly as `Signaling.Push` and keeps the invariant |
| Conn.Connection.OnStateChanged | src/conn.cpp:12-26 | changes the fields exactly as `Signaling.OnStateChanged` and keeps the invariant |
| Conn.Connection.OnCandidate | src/conn.cpp:28-37 | changes the fields exactly as `Signaling.OnCandidate` and keeps the invariant |

## Left out

- The libjuice engine: creating and destroying the agent, candidate gathering, connectivity checks and the internals of `juice_send`. Their results are inputs.
- Engine configuration (src/conn.cpp:85-98): the STUN host and port, the TURN server list, the bind address and the user pointer. Only the gathering-done callback slot is recorded.
- Cross-thread delivery in the callbacks (src/conn.cpp:28-48): `is_main_thread`, `runner.await` and `injector->inject_task`, and the `injector` and `main_thread_id` assignments (src/conn.cpp:100-101). `on_candidate` is modelled only as "send a Candidate; a failed send invokes `on_disconnected`".
- `on_gathering_done` (src/conn.cpp:39-48): `ignore_gathering_done` is true, so the engine is never given this callback.
- The `co_await remote_gathering_done` branch (src/conn.cpp:152-153): the constant `ignore_gathering_done` (src/conn.cpp:83) disables it. The GatheringDone handler itself is modelled, because it is registered regardless.
- Signaling.Push, Signaling.Invoke and the three handlers (src/conn.cpp:60-67, 105-127) each run in one atomic step. In the source, `push_signaling_data` suspends at `callbacks.invoke` (line 62), and the SessionDescription and GatheringDone handlers suspend at their Success reply (lines 110, 124). Two interleavings are therefore not captured. First, a second SessionDescription pushed while the first handler waits for its reply still reaches the handler, because the erase at line 111 comes after that wait; `Ordering.SessionDescriptionOneShot` holds only for pushes that run one after another. Second, `connect` can resume after `session_desc_set.notify()` (line 109) and apply the remote description before the Success reply is sent; `Handshake.ControlledHandshake` fixes one order of the two.
- Connect's guarded steps that do not suspend. The model lets packets and callbacks run at four points where the source runs on without suspending: after `start_backend` on the controlling side (src/conn.cpp:129 to 139), after `set_remote_description` on the controlled side (135 to 139), after the Success response on the controlled side (142 to 151), and after `set_remote_description` on the controlling side (148 to 151). `push_signaling_data` runs on the same cooperative thread, so the source cannot interleave there. The model's runs therefore include orders the source cannot produce, such as an `AddRemoteCandidate` between `SetRemoteDescription` and `GetLocalDescription`. The safety lemmas in `Ordering` still hold for the source's runs, since those are a subset.
- Coroutine and event machinery. Each suspension of `connect` becomes a step (the other suspensions are covered by the two previous lines), and each wait is a precondition of the method that resumes. The coroutine library's event semantics are not part of this model.
- Ordering.SuccessfulConnect: `connected` is a flag that stays set once notified, and neither `Connect` nor the wait at src/conn.cpp:157 clears it. So a second `connect` after a successful one passes that wait without a new COMPLETED, and "saw `connected` notified" may refer to an earlier attempt. Whether awaiting a `coop::ThreadEvent` consumes its notification is not part of this model.
- Lifetimes. The handlers capture `remote_desc`, `session_desc_set` and `remote_gathering_done` by reference, and these are local variables of `connect`. The model keeps them as connection fields. It does not capture that a handler left registered after `connect` returns (for example after a failed backend start) refers to destroyed locals.
- The packet parser and the serialization format (`parse_received`, `send_packet`, `receive_response`, `callbacks.invoke`) are not part of this model. Parsing, payload decoding and sends are inputs. `invoke` is taken to report failure when no handler is registered for the type. The ids the parser chooses for outgoing requests are not modelled.
- C-string truncation at the first NUL. This covers the local description's fixed-size buffer (src/conn.cpp:138-140), where the engine's description string is an input. It also covers the remote description passed as `remote_desc.data()` (src/conn.cpp:135, 148) and the remote candidate passed as `request.desc.data()` (src/conn.cpp:117). An embedded NUL shortens what the engine sees, while `SetRemoteDescription` and `AddRemoteCandidate` log the whole string.
- `on_recv` passthrough, the `std::bit_cast` recovery of the connection from the user pointer, `JuiceAgentDeleter`, and logging.
- tests/test.cpp: its end-to-end run against a real STUN server is not modelled. The `Handshake` lemmas give the two successful handshakes as runs of the model.
- Only the send-result translation of `send_data` is modelled: the call to `juice_send` on the current agent is an input code.
