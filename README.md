# Revolt voice relay: the per-client session state machine

The relay in `server.js` pairs each browser WebSocket with one upstream
connection to the Gemini Live API. For every browser connection the gateway
creates a `GeminiLiveClient`. On `start_session` that client checks the API key
and opens the upstream socket. When the socket opens, it sends one setup frame.
From then on it forwards each chunk of browser audio as one complete user turn.
It translates every upstream frame into browser notifications (`ready`,
`audio`, `turn_complete`, `interrupted`, `error`). Transport errors are
classified by substring tests. An abnormal close is retried up to three times
before it is reported.

The model has two layers.

- Pure modules hold the decisions as functions, with lemmas about them:
  - `Text`: substring search and decimal rendering;
  - `Protocol`: the frames;
  - `Policy`: the key check, error classification and reconnect policy;
  - `Translate`: upstream frame to notifications.
- Classes hold the state the code changes in place:
  - `Sockets.ClientSocket` and `Sockets.UpstreamSocket` record every `send` and `close` call made on them;
  - `LiveClient.GeminiLiveClient` has the fields of `server.js:39-45`;
  - `Gateway.ClientConnection` is the per-connection closure of `server.js:275-332`.

Each handler is a method. It is proved against the pure function that defines
its output. `Scenarios` drives whole sessions through these methods on fresh
objects and states what the two sockets end up holding.

Inputs that come from outside the process are parameters:

- the environment (`GEMINI_API_KEY`, `GEMINI_MODEL`) is an `Env` passed to every connect, because the code re-reads it each time;
- whether `ws.send` throws is a boolean;
- the upstream socket's events are method calls;
- a close event arrives with its code;
- a payload `JSON.parse` rejects is `None`.

The reconnect timer of `server.js:114` is the counter `pendingReconnects`.
`FireReconnect` is the timer firing.

Some of the code's behaviour is easy to misread; the model follows the code as
written:

- A close with code 1000 is not silent. It falls into the `else` branch and reports `Connection closed: 1000 <reason>` (`Policy.CloseOutcomeOf`, `Scenarios.NormalClosureScenario`).
- `disconnect` is not idempotent. It never clears `ws`, so a second call closes the same socket again (`Scenarios.EndSessionScenario`).
- A scheduled reconnect is never cancelled. `end_session` or a browser close leaves it pending, and when it fires it opens a new upstream socket (`Scenarios.EndSessionScenario`).
- A second `start_session`, or a reconnect, replaces `ws` without closing the previous socket. At most one open upstream socket per session is not guaranteed.
- The setup frame does not always come before audio. `connect` never touches `isConnected`, so after a second `start_session` the flag is still true while `ws` is a new socket that has not opened. The `sendAudio` guard lets the next chunk through, and its audio turn goes onto that socket with no setup frame before it (`Scenarios.SecondStartScenario`). In the running program only the `ws` library, which throws on `send` while a socket is still connecting, stops this; that library is not part of this model.
- The limit of three means the close handler reports nothing for the first three abnormal closes and schedules a reconnect for each. The fourth consecutive abnormal close is the one it reports (`Policy.FourAbnormalCloses`, `Scenarios.ReconnectLimitScenario`).
- Audio sent before any `start_session` produces no error. `sendError` stays silent while `clientWs` is still null (`Scenarios.ControlMessagesScenario`).
- On the first `start_session` with a bad key, the browser gets only the gateway's `Server error: …`. Once a client handle is stored, it also gets `Connection error: …` first (`Scenarios.BadKeyScenario`).

## Model

| member | source | states |
|---|---|---|
| Text.ContainsIff | server.js:92-99 | `includes` is true exactly when the substring occurs at some index |
| Text.SkipPrefix | server.js:92-99 | text before the first possible start of a pattern does not change whether the pattern occurs |
| Text.NatToString | server.js:116 | the rendering of a close code is a non-empty run of digits with no leading zero |
| Text.ParseNatToString | server.js:116 | reading the rendered code back gives the code |
| Protocol.ModelOrDefault | server.js:60 | a non-empty `GEMINI_MODEL` is used as is; otherwise the default model; never empty |
| Protocol.BuildSetup | server.js:128-149 | the setup frame names `models/<model>`, asks for audio replies in the fixed voice with a 1024-token limit |
| Protocol.BuildSetupInjective | server.js:128-149 | two setup frames are equal exactly when their models are |
| Protocol.BuildAudioTurn | server.js:231-244 | the audio turn carries the chunk unchanged |
| Protocol.TurnAudioInverse | server.js:231-244 | a frame is one complete user turn with one `audio/webm` part carrying `audio` exactly when it is the frame built for `audio` |
| Policy.KeyProblem | server.js:49-56 | the key is accepted exactly when present and starting with "AI"; missing exactly when absent or empty; otherwise the bad-format message |
| Policy.FirstMatchWinner | server.js:91-100 | a rule decides exactly when it matches and no earlier rule does |
| Policy.FirstMatchNone | server.js:90-101 | with no rule matching, the fallback is reported |
| Policy.TransportErrorMessage | server.js:90-101 | an error is reported as an invalid key exactly when its message contains `401` or `Unauthorized`, and as the generic failure exactly when it has no message or contains none of the five patterns |
| Policy.TransportErrorByTable | server.js:90-101 | the if/else chain equals the rule table read in order (401/Unauthorized, 403, 429, 500) with the generic fallback |
| Policy.TransportErrorMessageRange | server.js:90-101 | the message is one of the five fixed texts, and the generic one when the error has no message |
| Policy.Handshake401Example | server.js:92-93 | a rejected handshake with status 401 is reported as an invalid key |
| Policy.StatusAfterPlainText | server.js:92-100 | a message ending in one of the four statuses after text that cannot start a pattern gets that status's text |
| Policy.NoStatusFallsBack | server.js:90-101 | a message that cannot contain any pattern gets the generic text |
| Policy.FirstRuleWinsOverPosition | server.js:94-99 | a message that names both 500 and 403 is classified by the earlier rule (403), not by position in the text |
| Policy.ClosedMessage | server.js:116 | the terminal close error starts with `Connection closed: ` |
| Policy.ClosedMessageNamesCode | server.js:116 | the close code, the space after it and the reason can be read back from the terminal error text |
| Policy.ClosedMessageInjective | server.js:116 | two terminal close errors have the same text only when they had the same code and the same reason |
| Policy.CloseOutcomeOf | server.js:111-117 | a reconnect is chosen exactly when the code is not 1000 and fewer than 3 attempts were made; code 1000 always reports |
| Policy.CloseRunBounded | server.js:106-118 | over any run of closes each close gives one reconnect or one report, and the counter never exceeds 3 |
| Policy.AbnormalCloseRun | server.js:111-117 | consecutive abnormal closes first reconnect, with no report from the close handler, up to the limit; then each reports its own code and reason |
| Policy.FourAbnormalCloses | server.js:106-118 | from a fresh open, four 1006 closes give three reconnects and exactly one error `Connection closed: 1006 <reason>` |
| Translate.ErrorIfOpen | server.js:257-264 | `sendError` sends one error exactly when the client socket is open |
| Translate.AudioParts | server.js:177-187 | the loop sends only audio notifications, at most one per part |
| Translate.AudioPartsAppend | server.js:178-186 | parts are handled one after another: the loop over `a + b` is the loop over `a`, then, unless it threw, the loop over `b` |
| Translate.AudioPartsThrew | server.js:179-180 | the loop throws exactly when some `audio/pcm` part lacks its data |
| Translate.AudioPartsCount | server.js:178-186 | a loop that runs to the end sends one notification per `audio/pcm` part |
| Translate.AudioPartsCarry | server.js:179-184 | a loop that runs to the end sends a chunk exactly when some `audio/pcm` part carries it, unchanged |
| Translate.FrameNotifications | server.js:162-216 | a setup acknowledgement gives `ready` regardless of the other fields, and `ready` comes only from one |
| Translate.ContentFrameFlags | server.js:173-210 | a content frame sends its audio first, then one `turn_complete` if flagged and one `interrupted` if flagged, each on its own and `turn_complete` first, then at most the API error; its length is exactly that count, no error follows the audio unless the frame has one and the client is open, and never `ready` |
| Translate.ApiErrorText | server.js:209 | the text is `AI Error: ` followed by the error's message when it is non-empty, and by `Unknown error` otherwise |
| Translate.ContentNotifications | server.js:173-204 | the content block sends the parts loop's audio first, throws exactly when the loop does, and adds at most two notifications after the audio |
| Translate.ContentFlagsSent | server.js:189-203 | `turn_complete` and `interrupted` are sent exactly when flagged and the parts loop did not throw |
| Translate.ErrorOnlyFrame | server.js:206-210 | a frame with no setup acknowledgement and no `server_content` sends exactly the one `AI Error: …` when it has an error and the client is open, and nothing otherwise |
| Translate.ErrorFrameReported | server.js:206-210 | an API error is reported once, last, as `AI Error: …` when the client is open |
| Translate.ThrowingFrame | server.js:177-215 | a part without data stops the frame: the audio before it, then at most `Failed to process AI response`, no flag |
| Translate.FrameExamples | server.js:164-210 | an interruption alone gives only `interrupted`; a setup acknowledgement beside other fields gives only `ready`; an error without text reports `Unknown error` |
| LiveClient.GeminiLiveClient.constructor | server.js:39-45 | a new session has no sockets, is not connected, and has zero attempts and no pending timer |
| LiveClient.GeminiLiveClient.SendError | server.js:257-264 | the client log grows by one error exactly when a client handle exists and is open |
| LiveClient.GeminiLiveClient.Connect | server.js:47-125 | a rejected key throws its message, creates no socket, and leaves `ws`, `clientWs` and the model as they were; it reports `Connection error: …` only through `sendError`. Otherwise a fresh upstream socket holds `ws` and the client handle is stored. The counter and `isConnected` are untouched |
| LiveClient.GeminiLiveClient.SetupSession | server.js:127-160 | exactly one setup frame for the model, or, when `send` throws, `Failed to setup AI session` and nothing sent |
| LiveClient.GeminiLiveClient.OnOpen | server.js:69-74 | connected, counter reset to 0, and one setup frame naming the captured model |
| LiveClient.GeminiLiveClient.ForwardAudioParts | server.js:177-187 | the loop's sends are exactly `AudioParts` of the parts, and it throws exactly when that says so |
| LiveClient.GeminiLiveClient.ForwardContent | server.js:173-204 | the content block sends exactly `ContentNotifications` of it |
| LiveClient.GeminiLiveClient.HandleGeminiMessage | server.js:162-216 | the client receives exactly `FrameNotifications` of the frame |
| LiveClient.GeminiLiveClient.OnMessage | server.js:76-85 | a parsed frame is translated; an unparsable one gives `Failed to parse AI response` if the client is open |
| LiveClient.GeminiLiveClient.OnError | server.js:87-104 | exactly one classified error per transport error event, if the client is open |
| LiveClient.GeminiLiveClient.OnClose | server.js:106-118 | always disconnected; either one more attempt and one more pending reconnect with nothing sent, or the counter kept and, if the client is open, one `Connection closed: <code> <reason>` error |
| LiveClient.GeminiLiveClient.FireReconnect | server.js:114 | the timer is consumed and `connect` runs again for the stored client handle, with the same outcome as `Connect` |
| LiveClient.GeminiLiveClient.SendAudio | server.js:218-255 | guards in order: not connected or no socket gives `Not connected to AI service`; empty data gives `No audio data received`; otherwise exactly one audio turn is sent, or `Failed to send audio to AI` when `send` throws |
| LiveClient.GeminiLiveClient.Disconnect | server.js:266-271 | `close()` is called once more on whatever `ws` holds, which is kept; disconnected; pending reconnects untouched |
| Gateway.ClientConnection.constructor | server.js:275-278 | one fresh session per browser connection |
| Gateway.ClientConnection.OnMessage | server.js:280-322 | `start_session` connects, and a rejected key is answered `Server error: <msg>`. `audio_data` without audio gets an error and never reaches `sendAudio`. Audio goes through `sendAudio`. `end_session` disconnects. `ping` answers `pong` and leaves the session untouched. Unknown types change nothing. A message that throws gets `Server error: <msg>`. Only `end_session` closes the upstream socket, and only `audio_data` sends on it. `end_session` keeps the client handle, model, counter and pending timers |
| Gateway.ClientConnection.OnClose | server.js:324-327 | a browser close marks the socket closed and disconnects the session: `close()` once more on the kept `ws`, nothing sent, and the client handle, model, counter and pending timers kept |
| Scenarios.ConversationScenario | server.js:66-249 | start, open, acknowledgement, one chunk up and one reply back give `ready`, `audio`, `turn_complete`; the upstream gets the setup frame for the default model and one audio turn |
| Scenarios.InterruptionScenario | server.js:177-204 | a non-audio part is skipped and an interruption frame gives `interrupted` |
| Scenarios.ReconnectLimitScenario | server.js:106-118 | an upstream that keeps closing with 1006 is retried three times and the close handler reports nothing for them; the fourth close gives one error, and no timer is left |
| Scenarios.NormalClosureScenario | server.js:111-117 | a close with 1000 reports `Connection closed: 1000 bye` and schedules nothing |
| Scenarios.EndSessionScenario | server.js:266-271 | two `end_session` messages close the same socket twice; a timer scheduled earlier still opens a new socket |
| Scenarios.SecondStartScenario | server.js:219-244 | after a second `start_session` the session still counts as connected, and the next chunk is sent as an audio turn on the new, never-opened socket with no setup frame; the first socket keeps its setup frame and is not closed |
| Scenarios.BadKeyScenario | server.js:49-124 | the first bad-key start gives only `Server error: …`; with a stored client handle, `Connection error: …` comes first |
| Scenarios.ControlMessagesScenario | server.js:285-321 | audio before a session is silently dropped; `ping` gives `pong`; unknown types give nothing; missing audio and a throwing message give their errors |
| Scenarios.NotConnectedScenario | server.js:218-264 | audio before the upstream opens is refused without a send; after the browser closes, upstream errors are not delivered and the socket has been closed once |

## Left out

- `test-api.js`: a one-off connectivity script made only of network I/O, timeouts and `process.exit`.
- HTTP and process plumbing (`server.js:1-36`, `server.js:334-421`): Express setup, the `/health`, `/debug` and `/` routes, the error middleware, `startServer`, the `SIGINT` handler, `dotenv`, and the system instruction text.
- Logging: every `console.log` and `console.error`.
- JSON: frames and messages are datatypes, not text. `JSON.parse` failing is an input. `JSON.stringify` is not modelled. Two inputs the datatypes cannot express are left out:
  - an upstream payload that parses to `null`: reading `setup_complete` at `server.js:164` throws, and the catch sends `Failed to process AI response`;
  - a truthy `audio` that is not a string (a number, an object with a `length`): it passes the check at `server.js:293` and is sent upstream as is.
- The `ws` library: what `send` does with a call on a socket that is not open, the close handshake, and which close code follows a local `close()`. The model records calls; close codes are inputs.
- The two-second `setTimeout` delay: a timer is only counted as pending until `FireReconnect`. Timer ordering against other events is the caller's choice.
- Which upstream socket raised an event: the handlers act on the current `this.ws`, so events are not tagged with their source socket. One exception: the 'open' handler uses the `model` that its own `connect` call read (`server.js:60`, `server.js:73`). The model keeps only the model of the latest successful connect, so an older socket opening after `GEMINI_MODEL` changed would send the newer model here.
- The browser socket's `error` handler (`server.js:329-331`): it only logs.
- Protocol.BuildSetup: leaves out `temperature: 0.7` (floating point) and the `system_instruction` text. The setup frame depends only on the model.
- Translate.AudioParts: `model_turn.parts` that is present but not iterable, or a `null` part, would also throw. Parts are modelled as a well-formed list.
- Gateway.ClientConnection.OnMessage: a message that throws is the `Malformed` case carrying the error text. The model does not work out which payloads make `JSON.parse` or a field access throw.
- LiveClient.GeminiLiveClient.FireReconnect: the promise of the reconnect at `server.js:114` is dropped, and `server.js` installs no `unhandledRejection` handler. A reconnect that rejects therefore ends the whole Node.js process (the default since Node 15). The model returns the rejection and keeps going; it does not model the process exit.
