# Call tables, SDP placeholder and webhook rules of an AI voice assistant, in Dafny

This project models the parts of the voice-assistant service that carry behaviour of
their own, and proves properties of them with Dafny 4.11:

- **The active-call table** (`CallHandler`, app/handlers/call_handler.py): a dictionary
  from Twilio call SID to call record. `start_call` inserts or silently overwrites,
  `end_call` finishes the record (end time, final status, duration), removes it and
  returns it, and the two getters only read. Modelled as the class
  `CallHandling.CallHandler` over a `map<string, CallRecord>` field, with the invariant
  that every stored record sits under its own SID and is still active.
- **The SIP call table** (`SIPHandler`, app/handlers/sip_handler.py): the same kind of
  table keyed by call id, a `registered` flag set by a simulated registration, a default
  STUN server, and the module-level singleton `_sip_handler`. Modelled as the classes
  `SipHandling.SipHandler` and `SipHandling.SipRegistry`. Call ids and URIs are a
  string or null (`Option<string>`), because the only caller passes `data.get(...)` of the
  request body straight through, which is `None` for a missing key.
- **The placeholder SDP answer** (`_generate_sdp_answer`): a fixed template filled with
  `uuid4().hex` tokens; module `Sdp`. One answer draws 34 of them: one for the ufrag, one
  for the password, and a fresh one in every iteration of the fingerprint comprehension,
  whose field `k` is the upper-cased slice `[2k:2k+2]` of draw `k`. Since each draw has 32
  characters, draws 0-15 give one hex pair each and draws 16-31 give 16 empty fields; the
  model states this rather than changing it.
- **Settings** (app/config/settings.py): the declared fields and their defaults, and the
  `postgres_url` property; module `Config`.
- **The rules inside app/main.py**: "Unknown" defaults of the voice webhook, the terminal
  statuses and the all-digits gate of the status webhook, readiness, the provider check of
  `lifespan`, and the two SIP endpoints; module `App`.

Inputs the program takes from its environment are parameters: the clock
(`datetime.utcnow()`) is an integer `now` in seconds, the random hex tokens are an
`SdpTokens` value (or the message of the exception drawing them raised), request bodies
are `map<string, string>` (`None` when parsing raised; for the status callback a
`Failure` carrying the exception's message, which its error reply echoes), and whether startup created
the Twilio telephony server is a boolean.

`Text` holds the Python string operations the model needs (`str(int)`, ASCII
`isdigit`, reading a digit string, ASCII `upper`, clamped slicing, `join`, `split`), with
the round trips between them proved: reading `str(n)` back gives `n`, and `split` undoes
`join` when no field holds the separator. `Wrappers` holds `Option` and `Result`.

The model follows the code: `end_call` accepts any status string, not only the four
terminal ones; the duration is `end - start` with no promise that it is non-negative (the
model proves `>= 0` only for a clock that does not run backwards); and main.py imports
`CallHandler` but never calls it.

## Model

| member | source | states |
|---|---|---|
| `CallHandling.CallHandler.constructor` | app/handlers/call_handler.py:15-16 | a new handler has an empty table |
| `CallHandling.CallHandler.StartCall` | app/handlers/call_handler.py:18-41 | the returned record has the given SID, numbers, start time `now`, status "active" and no end; it is stored under the SID, replacing any earlier record; no other entry changes; the count grows by one exactly when the SID was new |
| `CallHandling.CallHandler.EndCall` | app/handlers/call_handler.py:43-70 | for a known SID returns the record finished with the status (default "completed"), end time `now` and duration `now - start`, and removes exactly that key so the count drops by one; for an unknown SID returns None and leaves the table unchanged |
| `CallHandling.CallHandler.GetCallInfo` | app/handlers/call_handler.py:72-82 | returns a record exactly when the SID is present, and then an active, unfinished record under that SID; reads only |
| `CallHandling.CallHandler.GetActiveCallsCount` | app/handlers/call_handler.py:84-86 | the count is the number of SIDs in the table; reads only |
| `CallHandling.Finished` | app/handlers/call_handler.py:55-61 | the finished record keeps SID, numbers and start, and has the final status, end time `now` and duration equal to end minus start |
| `CallHandling.StartKeepsWellFormed` | app/handlers/call_handler.py:30-38 | storing a started record keeps every record under its own SID and active; the key set gains the SID; the size grows by one exactly when the SID was new |
| `CallHandling.EndShrinksByOne` | app/handlers/call_handler.py:54-66 | deleting a present SID keeps the table well formed, removes exactly that key and lowers the size by one |
| `CallHandling.StartThenEndRestores` | app/handlers/call_handler.py:38-66 | a call started under a new SID and then ended leaves the table exactly as before |
| `CallHandling.DurationNonNegative` | app/handlers/call_handler.py:60 | with a clock that does not run backwards, the duration is not negative |
| `SipHandling.SipHandler.constructor` | app/handlers/sip_handler.py:24-45 | a new handler keeps the given settings, has no calls, is not registered, and uses "stun:stun.l.google.com:19302" unless a non-empty STUN server is given |
| `SipHandling.StunServerOf` | app/handlers/sip_handler.py:41 | a missing or empty STUN server falls back to the default; any other is kept |
| `SipHandling.SipHandler.Register` | app/handlers/sip_handler.py:49-62 | the simulated registration sets `registered` and returns true |
| `SipHandling.SipHandler.HandleIncomingCall` | app/handlers/sip_handler.py:69-119 | stores an active record with the given id, URIs and start time under the id, replacing any earlier one, and returns the result for that id; the record stays stored when drawing the tokens fails |
| `SipHandling.IncomingCallResult` | app/handlers/sip_handler.py:104-119 | the result always echoes the call id; it is "success" with the SDP answer and "Call accepted" exactly when the tokens were drawn, and otherwise "error" with the exception's message |
| `SipHandling.AcceptedAnswerIsNonEmpty` | app/handlers/sip_handler.py:104-111 | an accepted call's answer is non-empty and starts with the line "v=0" |
| `SipHandling.Completed` | app/handlers/sip_handler.py:155-161 | the completed record keeps id, URIs and start, and has status "completed", end time `now` and duration end minus start |
| `SipHandling.SipHandler.EndCall` | app/handlers/sip_handler.py:151-167 | answers true exactly when the id is present; then the record is completed and the key deleted; otherwise nothing changes |
| `SipHandling.SipHandler.GetActiveCalls` | app/handlers/sip_handler.py:169-173 | returns the table, whose records sit under their own ids |
| `SipHandling.SipRegistry.constructor` | app/handlers/sip_handler.py:177 | before initialisation there is no handler |
| `SipHandling.SipRegistry.Initialize` | app/handlers/sip_handler.py:180-186 | a new handler built from the arguments, with the handler's defaults for those omitted, replaces any earlier one and is returned |
| `SipHandling.SipRegistry.Get` | app/handlers/sip_handler.py:189-193 | returns the current handler, or null before initialisation |
| `Sdp.FingerprintFields` | app/handlers/sip_handler.py:147 | there are 32 fields, one per draw; field `k` is the upper-cased two characters at `2k` of draw `k`, or empty when that draw has no character at `2k` |
| `Sdp.FingerprintFieldsOfDraws` | app/handlers/sip_handler.py:147 | for 32-character hex draws, fields 0-15 are upper-case hex pairs, field `k` taken from `2k` of draw `k`, and fields 16-31 are empty |
| `Sdp.FingerprintIgnoresLateDraws` | app/handlers/sip_handler.py:147 | draws 16-31 do not affect the fingerprint: two sets of hex draws that agree on draws 0-15 give the same fingerprint |
| `Sdp.FingerprintShape` | app/handlers/sip_handler.py:147 | the fingerprint is the 16 pairs joined by ':' followed by 16 ':', 63 characters, and splits at ':' into exactly the 32 fields |
| `Sdp.SdpAnswerLines` | app/handlers/sip_handler.py:128-149 | the answer is exactly the template's 15 lines, each ended by a line break; line one is "v=0", the ufrag is the first 8 characters of the first token, the password the whole second token, the fingerprint line carries the fingerprint of the 32 draws |
| `Sdp.SdpAnswer` | app/handlers/sip_handler.py:121-149 | whatever the tokens, the answer begins with the line "v=0" and its line break |
| `Sdp.SdpAnswerIgnoresOffer` | app/handlers/sip_handler.py:121-149 | two offers give the same answer for the same tokens |
| `Config.WithDefaults` | app/config/settings.py:12-58 | unset fields take their defaults: environment "development", debug off, port 8080, model "gpt-4", database port 5432, every optional field None, hence no database URL |
| `Config.Truthy` | app/config/settings.py:70 | an optional string is truthy exactly when it is present and not the empty string |
| `Config.HasPostgresFields` | app/config/settings.py:70 | the database fields are complete exactly when each of host, database, user and password is truthy, as `all([...])` over the four |
| `Config.PostgresUrl` | app/config/settings.py:67-72 | a URL exists exactly when host, database, user and password are all non-empty, and then it starts with "postgresql+asyncpg://" |
| `Config.PostgresUrlNeedsEveryField` | app/config/settings.py:70-72 | any one of the four fields missing or empty gives None |
| `Config.PostgresUrlDefaultPort` | app/config/settings.py:45-71 | with the default port the URL ends in ":5432/" and the database name |
| `Config.ParsePostgresUrlRoundTrip` | app/config/settings.py:71 | reading the URL back gives user, password, host, port and database, when no component holds a separator and the port is not negative |
| `App.FieldOr` | app/main.py:189-191 | a key's value when the body holds it, and otherwise the given default |
| `App.Field` | app/main.py:278-281 | present exactly when the body holds the key, and then that key's value |
| `App.VoiceCallFields` | app/main.py:188-193 | the From, To and CallSid written to the log line are the form's values when present and "Unknown" when missing |
| `App.VoiceWebhook` | app/main.py:177-221 | the call details are logged exactly when the form parses; the raw request is handed to the telephony server exactly when the form parses, the server exists and it does not raise; otherwise the "unavailable" apology without a server and the "error" apology on an exception |
| `App.IsTerminal` | app/main.py:236 | a status is terminal exactly when it is "completed", "failed", "busy" or "no-answer" |
| `App.StatusCallback` | app/main.py:224-247 | a parsed form is always answered "ok" and a failed one with its error; a duration is observed exactly for a terminal status whose CallDuration (default "0") is all digits, and it is that number |
| `App.MissingDurationObservesZero` | app/main.py:237-241 | a terminal update without CallDuration observes 0 |
| `App.NonTerminalObservesNothing` | app/main.py:236-243 | a non-terminal or missing status observes nothing and is answered "ok" |
| `App.WrittenDurationIsObserved` | app/main.py:237-241 | a duration written as the decimal of `n` is observed as exactly `n` |
| `App.Readiness` | app/main.py:149-165 | each check is true exactly when its key is non-empty (Twilio needs both SID and token), and the status is "ready" exactly when all pass, "not_ready" otherwise |
| `App.ReadProviderAsWritten` | app/main.py:56 | the attribute lookup of `settings.telephony_provider`: when it succeeds it gives the provider; `App.ProviderAsWrittenAlwaysFails` shows it never succeeds, since `Settings` does not declare the field |
| `App.ProviderAsWrittenAlwaysFails` | app/main.py:56 | as written, startup raises AttributeError whatever the provider |
| `App.StartupProvider` | app/main.py:63-115 | "twilio" and "sip" are accepted and each is recognised as itself; any other provider is rejected with "Invalid telephony_provider: " and its name |
| `App.Lifespan` | app/main.py:51-118 | the outcome is the provider check; for "sip" a fresh, registered, empty handler built from the settings becomes the global one; otherwise the global handler is unchanged |
| `App.HandleSipWebrtc` | app/main.py:265-302 | a non-SIP provider gets 400 and nothing is stored; an unparsable body or a missing handler gets 500 and nothing is stored; otherwise the call is stored under the body's call_id and its result returned; the handler's settings and registration flag never change |
| `App.GetSipStatus` | app/main.py:305-325 | disabled for a non-SIP provider, not initialised without a handler, otherwise server, user, and the active call ids with their count |
| `Text.DigitsValueOfNatToString` | app/main.py:240-241 | the value read from a decimal string written for `n` is `n` |
| `Text.SplitJoin` | app/handlers/sip_handler.py:147 | splitting a join at its separator gives back the fields when none holds the separator |

## Left out

- Vocode's `TelephonyServer`, the agent, transcriber and synthesizer configurations and `RedisConfigManager` (app/main.py:58-89, 199): calls into a library whose behaviour is not visible; `App.Lifespan` does not model creating them, and the voice webhook takes "the server exists" and "the server raised" as inputs.
- Twilio `VoiceResponse` TwiML: `App.VoiceWebhook` returns the apology text, not the XML, and the logged call details as a value, not the log text.
- Prometheus counters and histogram, `/metrics`, logging, FastAPI routing and uvicorn: I/O; `App.StatusCallback` gives the observed duration as a natural number instead of calling `observe(float(...))`.
- The `/`, `/health` and `/config` endpoints: they return constant or copied values with no rule of their own.
- `async`/`await` and concurrent access to the tables: all operations are sequential.
- `datetime.utcnow()` and `total_seconds()`: time is an integer number of seconds passed in, so durations are whole seconds.
- `uuid.uuid4()`: the 34 tokens of one answer are parameters; the properties assume 32 lower-case hex characters each.
- pydantic environment and `.env` loading and the validation error for a missing required field: `Config.Settings` is a plain record.
- Real SIP registration and WebRTC negotiation: absent from the Python code, which marks both as TODO.
- App.StatusCallback: `str.isdigit()` is modelled as ASCII '0'-'9'; Python also accepts other Unicode digits, on which `float(...)` may then raise.
- Text.UpperChar: `str.upper()` is modelled for ASCII letters only; the SDP tokens are ASCII hex.
- CallHandling.CallHandler.EndCall: records are values, so the aliasing of the Python dictionaries is not captured (the dictionary `start_call` returns is the one `end_call` later updates in place).
- SipHandling.SipHandler.HandleIncomingCall: request bodies are maps from string to string, so the error path where storing the record itself fails is not modelled (a list or object `call_id` is unhashable: the insert raises TypeError, nothing is stored, and an error result is returned).
- SipHandling.SipHandler.GetActiveCalls: returns the table as a value; `get_active_calls` hands out the handler's own dictionary, which a caller could then change.
- SipHandling.SipHandler.Register: the exception branch that resets the flag is not modelled; nothing in the simulated registration can raise.
- App.GetSipStatus: the call ids are a set, so the order of `list(active_calls.keys())` is not captured; the count equals the number of ids.
- App.HandleSipWebrtc: the detail of the 500 error is the text of the caught exception, produced by the web framework, and is left unspecified.

## Findings

| source | as written | input that shows it | evidently intended | confidence | as-written member | corrected member |
|---|---|---|---|---|---|---|
| app/main.py:56 | `lifespan` (and `handle_sip_webrtc`, `get_sip_status`) read `settings.telephony_provider` and `settings.sip_*`, fields that `Settings` in app/config/settings.py does not declare; with `extra="ignore"` the lookup raises AttributeError | any environment, e.g. TELEPHONY_PROVIDER=twilio with every required key set: startup raises AttributeError at line 56 before the provider check | the provider and SIP settings declared on `Settings`, so that "twilio" and "sip" start and other values raise ValueError | not executed; high | `App.ProviderAsWrittenAlwaysFails` | `App.StartupProvider` |
