# Per-call-leg bookkeeping of the conference ASR server

This project models the call-leg state machine in `conference-asr-per-call-leg.js`. The server puts PSTN callers into a named conference. It then attaches one WebSocket "streaming" leg to each caller, so that an external processor can hear that caller.

The server keeps two process-wide dictionaries, both keyed by the uuid of a PSTN leg:

- `uuidToConfNumber` holds the conference digits the caller keyed.
- `uuidToWsUuid` holds the uuid of the caller's paired WebSocket leg.

These are `LegRegistry.Registry(confOf, wsOf)`. The four helpers that mutate them are `AddConfNumber`, `RemoveConfNumber`, `AddWsUuid` and `RemoveWsUuid`.

Each webhook handler is a pure function in module `CallFlow`. The handlers that read or change state take the registry; `OnAnswer` and `OnWsAnswer` take only request fields and return a bare `Reply`. Every case of `Step` returns an `Outcome`: the new registry, the HTTP reply and the list of commands sent to the voice API. A reply is an NCCO, a text body, or nothing for an internal continuation. The commands are `CreateWsLeg`, `Hangup` and `CreatePstnCall`.

Creating a WebSocket leg is asynchronous. Its `.then` continuation is the separate event `WsCreated(peer, wsUuid)`, and its `.catch` continuation is `WsCreateFailed(peer)`. Because of this, racing callbacks can be written as different event orders.

- `CallFlow.Step` dispatches one event.
- `Traces.Run` folds `Step` over a sequence of events.
- The lemmas in `Traces` state what holds across such sequences, including the race the code does not prevent.

Modules:

- `Optional`: `Option`, where `None` stands for JavaScript `undefined`.
- `LegRegistry`: the two dictionaries and their helpers.
- `SpokenDigits`: the digit read-back text.
- `CallFlow`: the handlers and `Step`.
- `Traces`: event sequences.

Two places where the inbound and outbound handlers differ are modelled as written:

- The inbound `/event` handler creates a WebSocket leg only when the stored conference number is truthy. That excludes a missing binding, and also a stored empty digit string.
- The outbound `/event_2` handler creates one unconditionally. When there is no binding, its answer URL carries the text `undefined`.

Both `completed` handlers hang up whatever `uuidToWsUuid[uuid]` holds, which may be `undefined`. They then delete both bindings.

Nothing in the handlers ties a peer binding to a conference binding, and the `.then` continuation (conference-asr-per-call-leg.js:276) does not check that the leg is still bound. If `completed` is handled before that continuation, the continuation records a peer for a leg that is already gone. Handling these two events issues no hangup of the new WebSocket leg, which is left bound to a finished PSTN leg; only a later `completed` for the same leg would hang it up. `Traces.CompletedBeforeWsCreatedLeavesPeer` exhibits this order and `Traces.RepeatedCompletedHangsUpLateLeg` the later `completed`.

## Model

| member | source | states |
|---|---|---|
| LegRegistry.AddConfNumber | conference-asr-per-call-leg.js:81-86 | afterwards leg `u` reads the new conference number, replacing any old one; every other key and the peer dictionary are unchanged |
| LegRegistry.RemoveConfNumber | conference-asr-per-call-leg.js:90-95 | afterwards `u` reads as undefined; every other key and the peer dictionary are unchanged; removing an absent key changes nothing |
| LegRegistry.AddWsUuid | conference-asr-per-call-leg.js:103-108 | afterwards `u` reads the new WebSocket uuid, replacing any old one; other keys and the conference dictionary are unchanged; no other peer value appears |
| LegRegistry.RemoveWsUuid | conference-asr-per-call-leg.js:112-117 | afterwards `u` reads as undefined; other keys and the conference dictionary are unchanged; removing an absent key changes nothing |
| LegRegistry.RemoveTwiceIsRemoveOnce | conference-asr-per-call-leg.js:90-117 | a second delete of the same key is a no-op, in either dictionary |
| LegRegistry.RemoveUndoesAdd | conference-asr-per-call-leg.js:81-117 | adding a binding and then deleting it leaves the same registry as deleting it alone |
| SpokenDigits.ReadBack | conference-asr-per-call-leg.js:211 | the read-back of n digits has length 2n-1 (0 for none); even positions hold the digits in order, odd positions hold a single space |
| SpokenDigits.RemoveSpacesUndoesReadBack | conference-asr-per-call-leg.js:211 | dropping the spaces from the read-back gives back the digit string, for any string without spaces |
| SpokenDigits.ReadBackOf1234 | conference-asr-per-call-leg.js:464 | "1234" is read back as "1 2 3 4" |
| CallFlow.OnAnswer | conference-asr-per-call-leg.js:166-184 | the answer NCCO is a barge-in prompt, then DTMF input of at most 6 digits with a 7-second timeout that submits on `#`; inbound results go to `/dtmf` and outbound ones to `/dtmf2` (lines 419-437) |
| CallFlow.OnDtmf | conference-asr-per-call-leg.js:192-232 | a timed-out result gives only the farewell talk and leaves the registry alone; otherwise the digits are stored verbatim under the leg, no other key changes, and the reply confirms the read-back and joins room `conf_` + digits; no command either way |
| CallFlow.QueryOf | conference-asr-per-call-leg.js:269 | the answer URL of a WebSocket leg carries the peer uuid and the conference number, with a missing number rendered as "undefined" |
| CallFlow.OnStatus | conference-asr-per-call-leg.js:236-302 | exactly one creation on `transfer` when outbound or when the stored number is truthy, else none; exactly one hangup, of the recorded peer or undefined, on `completed`; no other command; `completed` unbinds the leg in both dictionaries; nothing else changes |
| CallFlow.OnWsCreated | conference-asr-per-call-leg.js:274-277 | the creation continuation pairs the leg with the uuid the API returned; other keys and the conference dictionary are unchanged; no command |
| CallFlow.OnWsAnswer | conference-asr-per-call-leg.js:306-319 | the WebSocket leg joins `conf_` + its `conf_number` parameter, can hear only its `peer_uuid`, and starts the conference on entry |
| CallFlow.OnCall | conference-asr-per-call-leg.js:335-371 | a missing `number` is answered with the error text and places no call; otherwise "Ok" and one outbound PSTN call to that number; the registry is untouched |
| CallFlow.Step | conference-asr-per-call-leg.js:236-302 | an event changes the bindings of at most the leg it names; a peer value can only come from a creation continuation; every hangup names a peer that was recorded; the reply is the kind the webhook gives ("Ok" for status webhooks, an NCCO for answer and DTMF webhooks, none for continuations) |
| Traces.RepliesFitEvents | conference-asr-per-call-leg.js:236-238 | in any run, the i-th reply answers the i-th event: status webhooks (lines 238, 325, 491, 575) are acknowledged with "Ok" whatever they change, answer, DTMF and WebSocket-answer webhooks reply with an NCCO, `/call` with a text body, and creation continuations with nothing |
| Traces.OtherLegsUntouched | conference-asr-per-call-leg.js:81-117 | across any event sequence that does not name leg `u`, both bindings of `u` are unchanged |
| Traces.NoConfBindingWithoutDigits | conference-asr-per-call-leg.js:196-226 | a leg gets a conference binding only from a DTMF result that did not time out, so a leg whose collections all timed out is never bound |
| Traces.NoPeerBindingWithoutCreation | conference-asr-per-call-leg.js:274-278 | a leg gets a peer binding only from a successful creation continuation; a failed creation records nothing |
| Traces.HangupsTargetKnownLegs | conference-asr-per-call-leg.js:286-291 | over any event sequence, every hangup and every surviving peer binding names a WebSocket leg that was recorded at the start or whose creation was confirmed |
| Traces.HangupsFromStartTargetCreatedLegs | conference-asr-per-call-leg.js:535-540 | from a fresh process, no hangup ever names a WebSocket leg that was never created |
| Traces.CompletedLeavesNoBinding | conference-asr-per-call-leg.js:286-299 | after any history, `completed` leaves the leg in neither dictionary, and its last command hangs up the peer recorded just before it |
| Traces.DuplicateCompleted | conference-asr-per-call-leg.js:535-548 | a duplicated `completed` issues a second hangup of undefined, whose failure is swallowed, and leaves the registry as the first one did |
| Traces.CompletedBeforeWsCreatedLeavesPeer | conference-asr-per-call-leg.js:274-298 | when `completed` overtakes the creation continuation, the leg ends up with a peer binding and no conference binding, and handling these two events issues no hangup of the new leg; only a later `completed` for the same leg would hang it up |
| Traces.RepeatedCompletedHangsUpLateLeg | conference-asr-per-call-leg.js:286-298 | if `completed` is delivered again after that late continuation, its last command hangs up the left-behind WebSocket leg and the leg is unbound in both dictionaries |
| Traces.WsCreatedBeforeCompletedCleansUp | conference-asr-per-call-leg.js:274-298 | in the other order both bindings are gone and the single hangup names exactly the created leg |
| Traces.WsLegJoinsCallerRoom | conference-asr-per-call-leg.js:247-319 | after non-empty digits, `transfer` requests exactly one WebSocket leg for that leg and number, and that leg joins the caller's own room, hearing only the caller |
| Traces.EmptyDigitsSplitDirections | conference-asr-per-call-leg.js:247-253 | an empty digit string is stored but is falsy: inbound `transfer` then creates nothing, while outbound (line 504) creates a leg carrying "" |
| Traces.OutboundTransferWithoutBinding | conference-asr-per-call-leg.js:500-531 | an outbound `transfer` for an unbound leg still creates a WebSocket leg; its number is undefined, so it joins room "conf_undefined" |
| Traces.InboundCallScenario | conference-asr-per-call-leg.js:192-300 | answered, "77" keyed, transfer, created, completed: one binding of "77", one creation carrying "77", one peer binding, then exactly one hangup of that leg and an empty registry |

## Left out

- Express setup, CORS headers, `listen`, `/results` and `/_/health`. These are HTTP plumbing with no state.
- Loading the environment, constructing the Vonage clients, and JWT generation. These are configuration and a foreign SDK.
- The leg-recording `request.post` in `/answer` and `/answer_2`. It is fire-and-forget and its result is only logged. Its switch is `RECORD_CALLS`.
- The unused `wsUri` built in `/answer_2`. It is dead code.
- `/rtc` recording and transcription downloads. These are file I/O through the SDK.
- `/ws_event_1` and `/ws_event_2` only acknowledge the request. They are the event `WsStatus`, with no effect.
- The network calls `createOutboundCall` and `hangupCall`. They are emitted command values, and a creation's result arrives as a later event.
- The outcome of a hangup is not modelled, because the handler swallows it. The model assumes the SDK's `hangupCall(undefined)` rejects asynchronously rather than throwing, so the deletes that follow it still run.
- `console.log` output.
- Host names, the processor server, the WebSocket content type, and the remaining URL text. `CreatePstnCall` also omits the `from: servicePhoneNumber` and `length_timer: maxCallDuration` fields of the outbound call (lines 356-360), which are configuration. Only the `peer_uuid` and `conf_number` parameters are modelled.
- `CallFlow.QueryOf`: URL encoding and query parsing are not modelled. The parameter values are assumed to reach `/ws_answer_*` unchanged. That holds for uuids and DTMF digits, but not for values containing `&` or `=`.
- Concurrency and locking. Handlers are serialised into an event sequence, and racing callbacks are alternative orders.
- JavaScript object details. Prototype-inherited keys such as `constructor` are not modelled, because leg uuids are never such names.
- The crash paths of `/dtmf` and `/dtmf2` are not modelled, because the voice API always sends `dtmf.digits` as a string. A body without `dtmf` would throw at line 196 (449). A result that did not time out but lacks `digits` would throw at `toString()` on line 211 (464), before anything is stored or replied.
- Loose-equality coercions are not modelled. `timed_out == true` is taken as a boolean, and `type`/`status` as optional strings.
- `SpokenDigits.ReadBack` splits into Unicode scalar values, while JavaScript's `split('')` splits into UTF-16 code units. The two differ only outside the Basic Multilingual Plane, which DTMF digits never reach.
