# Realtime voice call session — Dafny model

This project models the client-side call-session bookkeeping of a browser
voice-chat page (`public/main.js`) that talks to a speech-capable AI agent
over a WebRTC connection with a JSON control channel (`oai-events`). It
models:

- the **cost estimator** `calculateCost` over the `COST_RATES` table, in exact
  real arithmetic (module `CostEstimate`);
- the **usage accumulator**: the zero reset of `sessionUsage` when a call
  starts and the field-by-field `+=` merge of each `response.done` usage block
  (module `Usage`, method `Session.MergeUsage`);
- the **control-channel dispatcher** `handleDataChannelMessage`, with inbound
  messages as a datatype whose `Malformed` constructor stands for a message that
  `JSON.parse` rejects (module `Protocol`, method `Session.HandleMessage`);
- the **silence detector** `checkSilence`: one tick averages the analyser's
  frequency bytes, opens, keeps or clears the silence window, and ends the call
  after more than 1000 ms of silence (module `Silence`, method
  `Session.CheckSilence`);
- the **session lifecycle**: `startCall`'s resets and failure path,
  the data channel's `open` handler, `updateSession` and the greeting
  timer, the save button, the call button toggle, the 10 s fail-safe, and the
  teardown in `stopCall`/`endCall` (module `CallSession`);
- the **settings rules**: the `{ ...current, ...saved }` merge in
  `loadSettings` and the microphone restore rule of `getMicrophones` (module
  `CallSettings`).

The page's globals are the fields of one `Session` object. The connection,
channel, audio context and capture stream are small classes whose observable
state (closed or not, what was sent, each track's `enabled` and live flags) the
teardown changes in place. Clock readings, analyser bytes, inbound messages,
the server's settings document, the exchange rate and the negotiation outcome
are parameters. Timers and animation frames are explicit method calls:
`GreetingTimerFires`, `FailSafeFires`, and one `CheckSilence` per frame.
Chat lines are appended as `Message` records, not rendered text.

`handleDataChannelMessage` calls `checkSilence` synchronously when a
`response.done` arrives while a disconnect is pending. `HandleMessage` returns
`true` in that case. `OnChannelMessage` then runs the handler and that first
tick together, in the source's order.

Behaviours of `public/main.js` that the model keeps:

- `stopCall` by itself is not idempotent: each call appends two summary lines.
  A double stop is avoided only because both termination paths check
  `isCallActive` first. `FailSafeFires` and `CheckSilence` state this guard, and
  `SilenceThenFailSafe` and `FailSafeThenSilence` show either order ending with
  exactly one summary.
- The cost is not monotone in the cached-token count when the input count is
  held fixed. While the cached count stays at or below the input count, a
  cached token replaces a non-cached one at the lower rate, so more cached
  tokens make the call cheaper (`CachingLowersCost`). It is monotone in input
  and output tokens.
- A greeting request follows every `updateSession`. This includes the one a
  mid-call settings save triggers, not only the first one after connect.
- The fail-safe timer checks only `isCallActive`, not which call armed it.
- Two listeners handle a click on the save button: the one registered at
  lines 71-78 also copies the greeting field, and each of them posts the
  settings, so every save sends two identical `POST /settings` requests.

## Model

| member | source | states |
|---|---|---|
| Usage.Counts | public/main.js:504-519 | a block contributes each present field, 0 for an absent field, nothing to the nested counters when a details block is absent; a non-negative block contributes nothing negative |
| Usage.AccumulatedAddsTotal | public/main.js:504-519 | merging blocks one by one in arrival order adds exactly their field-wise sum to the starting counters |
| Usage.AccumulatedFromResetIsTotal | public/main.js:292-298 | after the reset to zero, N merges equal the field-wise sum of the N blocks |
| Usage.TotalDependsOnlyOnMultiset | public/main.js:506-518 | two sequences holding the same blocks, in any order, have the same field-wise sum |
| Usage.AccumulationOrderIrrelevant | public/main.js:506-518 | merging the same blocks in any order (equal multisets) gives the same counters |
| Usage.AccumulatedNeverDecreases | public/main.js:506-518 | merging non-negative blocks never lowers any of the eight counters |
| CostEstimate.RateFor | public/main.js:383 | the row of a listed model is its own row; any other model gets the default model's row; every row is non-negative |
| CostEstimate.NonCachedInput | public/main.js:390-392 | non-cached input is input minus cached input, clamped below at 0 |
| CostEstimate.CalculateCost | public/main.js:382-402 | without a usage object the cost is 0 |
| CostEstimate.CostNonNegative | public/main.js:395-399 | with non-negative counts and rates the priced usage is never negative |
| CostEstimate.CalculateCostNonNegative | public/main.js:382-402 | for non-negative counts the cost is never negative, for every model id |
| CostEstimate.CostZeroWithoutUsage | public/main.js:385-399 | no usage object, or zero input, cached and output counts, cost exactly 0 |
| CostEstimate.ResetCountersCostNothing | public/main.js:429 | the counters as reset at call start cost 0 under every model |
| CostEstimate.UnknownModelPricedAsDefault | public/main.js:383 | an unlisted model is priced exactly as the default model |
| CostEstimate.CostMonotoneInOutput | public/main.js:393-399 | raising the output-token count never lowers the cost |
| CostEstimate.CostMonotoneInInput | public/main.js:390-399 | raising the input-token count, cached count fixed, never lowers the cost |
| CostEstimate.CachingLowersCost | public/main.js:391-398 | moving 100 of 1000 input tokens to cached lowers the cost on the default row |
| CostEstimate.WorkedExample | public/main.js:382-402 | 1000 input of which 200 cached and 500 output tokens on the default row cost exactly 0.0577 |
| Silence.QuietIsAverageBelowThreshold | public/main.js:575-581 | the integer test `sum < 10 * n` holds exactly when the reading is non-empty and its average is below 10 |
| Silence.MeasureQuiet | public/main.js:571-581 | the summing loop decides exactly whether the reading is quiet |
| Silence.SilenceStep | public/main.js:564-594 | a tick halts exactly when not armed; it ends the call exactly when armed, quiet and the open window began more than 1000 ms ago; a loud reading clears the window; a quiet one opens it at `now` or keeps it |
| Silence.WindowIsQuietRun | public/main.js:581-591 | from no window, the window after a run of ticks is open exactly when the latest readings are quiet, and began at the first of that quiet run |
| Silence.StopIffSustainedSilence | public/main.js:581-588 | a tick ends the call if and only if its reading is quiet, the quiet run began at an earlier tick, and more than 1000 ms lie between them |
| Silence.SustainedSilenceStops | public/main.js:581-588 | a quiet run lasting more than 1000 ms ends the call at its last tick at the latest |
| CallSettings.Merge | public/main.js:153 | every key of the saved document overrides the current value; every key it lacks keeps its value |
| CallSettings.ToDocument | public/main.js:172 | the posted document has exactly the five settings keys, each with its current value |
| CallSettings.SavedSettingsRoundTrip | public/main.js:150-153 | loading a document that was saved restores exactly the saved settings |
| CallSettings.EmptyDocumentKeepsSettings | public/main.js:150-153 | an empty document (nothing saved) keeps every current setting |
| CallSettings.EffectiveGreeting | public/main.js:270 | the greeting is never empty; a non-empty configured greeting is used as is, and an empty one gives the default greeting |
| CallSettings.AudioInputs | public/main.js:183 | a device is kept exactly when it is an enumerated device of kind `audioinput` |
| CallSettings.AnyHasId | public/main.js:195 | true exactly when some listed device carries the id |
| CallSettings.RestoredMicrophone | public/main.js:185-197 | the menu value is always one of its options; it is the saved id exactly when that id is empty or some `audioinput` device has it, and otherwise the default entry |
| Protocol.KindOf | public/main.js:479-543 | each of the four event type strings selects its own case; every other type is ignored |
| Protocol.ShownTranscript | public/main.js:495-497 | a transcript is shown exactly when present and non-empty, and unchanged |
| Protocol.SessionUpdateEvent | public/main.js:247-264 | `session.update` carries the current instructions and voice, exactly one tool, of type `function` and named `end_call`, and tool choice `auto` |
| Protocol.GreetingRequestQuotesGreeting | public/main.js:270-276 | the greeting request asks for audio and text and quotes exactly the effective greeting, which can be recovered from its instructions |
| Protocol.AnnouncedToolEndsCall | public/main.js:480-484 | any `response.function_call_arguments.done` event naming the tool that `session.update` announces is a request to end the call |
| CallSession.TranscriptLine | public/main.js:495-497 | at most one chat line, and one exactly when the transcript is present and non-empty; that line carries the role and the transcript unchanged |
| CallSession.MediaStream.constructor | public/main.js:348 | the captured stream holds the given number of enabled, live audio tracks |
| CallSession.MediaStream.MuteAudio | public/main.js:487 | every audio track is disabled in place and nothing else about any track changes |
| CallSession.MediaStream.StopTracks | public/main.js:454 | every track is stopped in place and nothing else about it changes |
| CallSession.Session.constructor | public/main.js:16-32 | the page starts with no handles, no call, no window, no pending disconnect and default settings, with the zero `sessionUsage` of public/main.js:116-129 and the `exchangeRate` of 150 at public/main.js:405; a window is open only while a disconnect is pending |
| CallSession.Session.LoadSettings | public/main.js:147-164 | a fetched document is merged over the settings; a failed fetch changes nothing |
| CallSession.Session.ApplyExchangeRate | public/main.js:410-423 | a reported non-zero rate replaces the rate; otherwise nothing changes |
| CallSession.Session.UpdateSession | public/main.js:246-266 | sends one `session.update` for the current settings on the open channel and appends one notice; nothing else changes |
| CallSession.Session.GreetingTimerFires | public/main.js:269-282 | sends the greeting request for the current settings only when the channel is still open; otherwise the channel is unchanged |
| CallSession.Session.SaveSettings | public/main.js:71-78 | both save listeners, in registration order (the second at public/main.js:230-236, up to its `await`): the four form values replace those settings and a present greeting field replaces the greeting, and the same settings document is posted twice; nothing else changes |
| CallSession.Session.SaveCompleted | public/main.js:236-242 | once the later listener's POST completes, judged at that moment: during an active call on an open channel the channel stays open and the current settings are sent and noted; otherwise nothing changes |
| CallSession.Session.EndCall | public/main.js:443-465 | the call is inactive and every handle is closed and set to null, each one only if it was held; nothing else changes; on a torn-down session nothing changes at all, so a second call is a no-op |
| CallSession.Session.StopCall | public/main.js:427-441 | appends exactly the usage line and the cost line priced for the current model and rate, then the state `EndCall` leaves |
| CallSession.Session.ResetForCall | public/main.js:292-301 | usage back to zero, no pending disconnect, no completed response, no silence window; nothing else changes |
| CallSession.Session.CreateConnection | public/main.js:321-335 | a fresh open connection and a fresh connecting channel with nothing sent become the session's handles; nothing else changes |
| CallSession.Session.CaptureMicrophone | public/main.js:345-349 | a fresh stream of the granted number of enabled, live audio tracks becomes the local stream; nothing else changes |
| CallSession.Session.StartCall | public/main.js:286-380 | after the resets, a failed negotiation leaves the session torn down, with the connection, channel and capture tracks it created closed or stopped and the earlier handles `endCall` still reaches released; handles it overwrote are left untouched; a completed one holds a fresh open connection, a connecting channel with nothing sent and a fresh stream of live audio tracks, and leaves every earlier handle untouched |
| CallSession.Session.RemoteTrackArrived | public/main.js:328-332 | the inbound track gets a fresh open audio context and an analyser; nothing else changes |
| CallSession.Session.ChannelOpened | public/main.js:337-342 | the channel is open, the call is active, and one `session.update` is sent and noted |
| CallSession.Session.ClickCallButton | public/main.js:467-473 | on an active call the button stops it (summary, then teardown); otherwise it starts a call with reset counters, which on failure ends torn down with what it created released, and on success holds the fresh handles |
| CallSession.Session.MergeUsage | public/main.js:504-519 | the counters become the old counters plus the block's contribution; nothing else changes |
| CallSession.Session.HandleMessage | public/main.js:475-547 | a malformed or unrecognised message changes nothing; `end_call` sets the pending disconnect, disables every local audio track and appends one notice; any other function name changes nothing; transcripts append their line; `response.done` merges its usage and, only with a pending disconnect, marks the response done and starts termination; when an `end_call` arms the termination sequence on a session where the window invariant holds, no silence window is open |
| CallSession.Session.BeginEnding | public/main.js:483-488 | a disconnect is pending, every local audio track is disabled in place and one ending notice is appended; nothing else changes |
| CallSession.Session.OnChannelMessage | public/main.js:522-534 | the fail-safe is armed and a first tick runs exactly for a `response.done` with a disconnect pending; that tick acts as `SilenceStep` says; a stopping tick leaves the session torn down |
| CallSession.Session.CheckSilence | public/main.js:564-594 | the tick's action and window are those of `SilenceStep`; a stopping tick is `StopCall`; any other tick changes only the window |
| CallSession.Session.FailSafeFires | public/main.js:528-533 | stops the call exactly when it is still active; otherwise nothing changes |
| CallSession.Session.SilenceThenFailSafe | public/main.js:523-534 | when silence ends the call first, the later fail-safe adds nothing: exactly one summary is appended |
| CallSession.Session.FailSafeThenSilence | public/main.js:564-565 | when the fail-safe ends the call first, the next silence tick halts: exactly one summary is appended |

## Left out

- `server.js` as a whole: HTTP routing, the settings file, environment variables and the upstream calls. The settings document and the exchange rate enter as parameters.
- The WebRTC negotiation inside `startCall`: the credential fetch, peer connection set-up, data channel creation, `getUserMedia`, offer/answer and the SDP exchange. `StartOutcome` says only which step failed, if any.
- Web Audio set-up failures in `setupAudioAnalysis`: `RemoteTrackArrived` always succeeds. The analyser bytes are a parameter of each tick, and the code reads 128 of them because `fftSize` is 256.
- Scheduling by `requestAnimationFrame` and `setTimeout`: timers and frames are explicit calls with a caller-supplied clock. Nothing ties a timer to the call that armed it, as in the source.
- DOM and UI work: message rendering, button classes and `disabled` flags, the modal, `alert`, option labels. The cost line keeps the exact dollar amount and its yen product. The locale formatting and `Math.round` of the yen amount are not modelled.
- The function declarations in the duplicated fragment at the top of `public/main.js` (lines 34-108): its `loadSettings` and `updateSession` are superseded by the later declarations. Its two listeners stay registered. The settings-button listener (lines 58-68) only fills the form, which is DOM work. The save listener (lines 71-78) is part of `SaveSettings`. The lines it elides after its `saveSettings` call are not modelled.
- JSON encoding and decoding: inbound and outbound events are records. Values of the wrong JSON type are not modelled: non-string names, transcripts or settings, and non-numeric token counts. Neither are settings keys other than the five known ones.
- JavaScript number semantics: token counts are unbounded integers and costs are exact rationals, with no double rounding.
- Lookups in `COST_RATES` only match its own two keys. Inherited object properties are not modelled.
- A clock reading of exactly 0 is falsy in the source and would leave the window unset. The model treats the window as absent or present.
- CallSession.Session.ClickCallButton: when it starts a call, the contract does not repeat which earlier handles are released or left untouched; `StartCall` states that.
- CallSession.Session.OnChannelMessage: states the arming, the first tick's action and the teardown on a stop, not the whole new state; `HandleMessage` and `CheckSilence` state that.
