/**
 * The decision logic of app/main.py: the webhook field defaults, the terminal-status rule
 * and the duration gate of the status callback, the readiness aggregation, the provider
 * check at startup and the two SIP endpoints. Request bodies are maps from field name to
 * string; `None` stands for a body whose parsing raised. Metrics, logging, TwiML rendering
 * and the external voice pipeline are left out.
 */
module App {
  import opened Wrappers
  import opened Text
  import opened Config
  import opened Sdp
  import opened SipHandling

  /** A parsed form or JSON body. */
  type Body = map<string, string>

  /** `body.get(key, default)`. */
  function FieldOr(body: Body, key: string, default: string): (v: string)
    ensures key in body ==> v == body[key]
    ensures key !in body ==> v == default
  {
    if key in body then body[key] else default
  }

  /** `body.get(key)`: the value, or `None` when absent. */
  function Field(body: Body, key: string): (v: Value)
    ensures v.Some? <==> key in body
    ensures key in body ==> v.value == body[key]
  {
    if key in body then Some(body[key]) else None
  }

  const Unknown := "Unknown"

  // ---------------------------------------------------------------- voice webhook

  datatype VoiceFields = VoiceFields(fromNumber: string, toNumber: string, callSid: string)

  /**
   * The caller, callee and call SID the voice webhook writes to its log line, each "Unknown"
   * when missing. They go nowhere else: the telephony server is handed the raw request.
   */
  function VoiceCallFields(form: Body): (f: VoiceFields)
    ensures f.fromNumber == (if "From" in form then form["From"] else Unknown)
    ensures f.toNumber == (if "To" in form then form["To"] else Unknown)
    ensures f.callSid == (if "CallSid" in form then form["CallSid"] else Unknown)
  {
    VoiceFields(FieldOr(form, "From", Unknown), FieldOr(form, "To", Unknown), FieldOr(form, "CallSid", Unknown))
  }

  /** The voice webhook's answer: the raw request handed to the telephony server, or a spoken apology. */
  datatype VoiceReply = HandedToPipeline | SpokenFallback(message: string)

  /** What one voice webhook call produces: the logged call details, if it got that far, and the answer. */
  datatype VoiceOutcome = VoiceOutcome(logged: Option<VoiceFields>, reply: VoiceReply)

  const UnavailableMessage := "Mi dispiace, il servizio non è al momento disponibile. Riprova più tardi."
  const ErrorMessage := "Si è verificato un errore. Per favore riprova più tardi."

  /**
   * `handle_twilio_voice`. `form` is `None` when reading the form raised; `serverReady` says
   * whether startup created the telephony server; `pipelineFailed` whether the server's
   * `handle_inbound_call` raised. The call details are logged as soon as the form is read,
   * whatever follows. A call is handed on only when all three go well; a missing server gives
   * the "unavailable" apology and any exception the "error" apology.
   */
  function VoiceWebhook(form: Option<Body>, serverReady: bool, pipelineFailed: bool): (r: VoiceOutcome)
    ensures r.logged.Some? <==> form.Some?
    ensures r.logged.Some? ==> r.logged.value == VoiceCallFields(form.value)
    ensures r.reply == HandedToPipeline <==> form.Some? && serverReady && !pipelineFailed
    ensures r.reply == SpokenFallback(UnavailableMessage) <==> form.Some? && !serverReady
    ensures r.reply == SpokenFallback(ErrorMessage) <==> form == None || (serverReady && pipelineFailed)
  {
    match form
    case None => VoiceOutcome(None, SpokenFallback(ErrorMessage))
    case Some(f) =>
      var logged := Some(VoiceCallFields(f));
      if !serverReady then VoiceOutcome(logged, SpokenFallback(UnavailableMessage))
      else if pipelineFailed then VoiceOutcome(logged, SpokenFallback(ErrorMessage))
      else VoiceOutcome(logged, HandedToPipeline)
  }

  // ---------------------------------------------------------------- status webhook

  const TerminalStatuses: seq<string> := ["completed", "failed", "busy", "no-answer"]

  /**
   * `call_status in ["completed", "failed", "busy", "no-answer"]`: exactly those four are
   * terminal, so "Unknown" (a missing status) and "active" are not.
   */
  predicate IsTerminal(status: string)
    ensures IsTerminal(status) <==>
      status == "completed" || status == "failed" || status == "busy" || status == "no-answer"
  {
    status in TerminalStatuses
  }

  datatype StatusResponse = StatusOk | StatusError(message: string)

  /** What the status callback answers and the duration, in seconds, it hands to the histogram. */
  datatype StatusOutcome = StatusOutcome(response: StatusResponse, observed: Option<nat>)

  /**
   * `handle_twilio_status`. `form` is `Failure(msg)` when reading the form raised. A duration
   * is observed only for a terminal status whose `CallDuration` (default "0") is all digits
   * (ASCII digits: `str.isdigit()` also accepts other Unicode digits).
   */
  function StatusCallback(form: Result<Body, string>): (r: StatusOutcome)
    ensures form.Success? ==> r.response == StatusOk
    ensures form.Failure? ==> r == StatusOutcome(StatusError(form.error), None)
    ensures r.observed.Some? <==>
      form.Success? && IsTerminal(FieldOr(form.value, "CallStatus", Unknown))
      && IsDigits(FieldOr(form.value, "CallDuration", "0"))
    ensures r.observed.Some? ==> r.observed.value == DigitsValue(FieldOr(form.value, "CallDuration", "0"))
  {
    match form
    case Failure(e) => StatusOutcome(StatusError(e), None)
    case Success(f) =>
      var status := FieldOr(f, "CallStatus", Unknown);
      var duration := FieldOr(f, "CallDuration", "0");
      if IsTerminal(status) && duration != "" && IsDigits(duration) then
        StatusOutcome(StatusOk, Some(DigitsValue(duration)))
      else StatusOutcome(StatusOk, None)
  }

  /** A terminal update without `CallDuration` observes a duration of 0. */
  lemma MissingDurationObservesZero(form: Body)
    requires IsTerminal(FieldOr(form, "CallStatus", Unknown)) && "CallDuration" !in form
    ensures StatusCallback(Success(form)).observed == Some(0)
  {
  }

  /** A non-terminal update (or one with no status at all) observes nothing, and is still answered "ok". */
  lemma NonTerminalObservesNothing(form: Body)
    requires !IsTerminal(FieldOr(form, "CallStatus", Unknown))
    ensures StatusCallback(Success(form)) == StatusOutcome(StatusOk, None)
  {
  }

  /** A terminal update whose duration Twilio wrote as `str(n)` observes exactly `n` seconds. */
  lemma WrittenDurationIsObserved(form: Body, n: nat)
    requires IsTerminal(FieldOr(form, "CallStatus", Unknown))
    requires "CallDuration" in form && form["CallDuration"] == NatToString(n)
    ensures StatusCallback(Success(form)).observed == Some(n)
  {
    DigitsValueOfNatToString(n);
  }

  // ---------------------------------------------------------------- readiness

  datatype ReadinessChecks = ReadinessChecks(openai: bool, deepgram: bool, elevenlabs: bool, twilio: bool)
  datatype ReadinessReport = ReadinessReport(status: string, checks: ReadinessChecks)

  /** `readiness_check`: "ready" exactly when all four credential checks pass. */
  function Readiness(s: Settings): (r: ReadinessReport)
    ensures r.checks.openai <==> s.openaiApiKey != ""
    ensures r.checks.deepgram <==> s.deepgramApiKey != ""
    ensures r.checks.elevenlabs <==> s.elevenlabsApiKey != ""
    ensures r.checks.twilio <==> s.twilioAccountSid != "" && s.twilioAuthToken != ""
    ensures r.status == "ready" || r.status == "not_ready"
    ensures r.status == "ready" <==>
      s.openaiApiKey != "" && s.deepgramApiKey != "" && s.elevenlabsApiKey != ""
      && s.twilioAccountSid != "" && s.twilioAuthToken != ""
  {
    var checks := ReadinessChecks(
      s.openaiApiKey != "", s.deepgramApiKey != "", s.elevenlabsApiKey != "",
      s.twilioAccountSid != "" && s.twilioAuthToken != "");
    var allReady := checks.openai && checks.deepgram && checks.elevenlabs && checks.twilio;
    ReadinessReport(if allReady then "ready" else "not_ready", checks)
  }

  // ---------------------------------------------------------------- provider selection

  /**
   * The telephony settings main.py reads: `telephony_provider` and the `sip_*` fields,
   * which settings.py does not declare (see `ReadProviderAsWritten`).
   */
  datatype Telephony = Telephony(
    provider: string,
    sipServer: string,
    sipUsername: string,
    sipPassword: string,
    sipDomain: string,
    sipPort: int,
    sipTransport: string,
    sipStunServer: Option<string>,
    sipTurnServer: Option<string>)

  /** The field names `Settings` declares; reading any other attribute raises `AttributeError`. */
  const SettingsFieldNames: set<string> := {
    "environment", "debug", "base_url", "port", "twilio_account_sid", "twilio_auth_token",
    "twilio_phone_number", "openai_api_key", "openai_model", "deepgram_api_key",
    "elevenlabs_api_key", "elevenlabs_voice_id", "vocode_api_key", "redis_url", "redis_password",
    "postgres_host", "postgres_port", "postgres_db", "postgres_user", "postgres_password",
    "initial_message", "system_prompt", "log_level" }

  const ProviderAttributeError := "'Settings' object has no attribute 'telephony_provider'"

  /**
   * `settings.telephony_provider` as written: an attribute lookup on `Settings`, which fails
   * because the field is not declared, whatever the environment says.
   */
  function ReadProviderAsWritten(t: Telephony): (r: Result<string, string>)
    ensures r.Success? ==> r.value == t.provider
  {
    if "telephony_provider" in SettingsFieldNames then Success(t.provider)
    else Failure(ProviderAttributeError)
  }

  /** As written, startup fails even for a correctly configured "twilio" or "sip" provider. */
  lemma ProviderAsWrittenAlwaysFails(t: Telephony)
    ensures ReadProviderAsWritten(t) == Failure(ProviderAttributeError)
  {
  }

  datatype Provider = Twilio | Sip

  /** The provider check of `lifespan`: only "twilio" and "sip" start; anything else raises `ValueError`. */
  function StartupProvider(provider: string): (r: Result<Provider, string>)
    ensures r == Success(Twilio) <==> provider == "twilio"
    ensures r == Success(Sip) <==> provider == "sip"
    ensures r.Failure? <==> provider != "twilio" && provider != "sip"
    ensures r.Failure? ==> r.error == "Invalid telephony_provider: " + provider
  {
    if provider == "twilio" then Success(Twilio)
    else if provider == "sip" then Success(Sip)
    else Failure("Invalid telephony_provider: " + provider)
  }

  /**
   * `lifespan` up to `yield`, with the provider read from `t` (the corrected reading). For
   * "sip" it initialises the global SIP handler from the settings and registers it; for
   * "twilio" the telephony server is created (outside this model) and the registry is left
   * alone; any other provider fails and leaves it alone too.
   */
  method Lifespan(t: Telephony, registry: SipRegistry) returns (r: Result<Provider, string>)
    modifies registry
    ensures r == StartupProvider(t.provider)
    ensures r != Success(Sip) ==> registry.current == old(registry.current)
    ensures r == Success(Sip) ==>
      (registry.current != null && fresh(registry.current) && registry.current.Valid()
       && registry.current.registered && registry.current.activeCalls == map[]
       && registry.current.sipServer == t.sipServer && registry.current.sipUsername == t.sipUsername
       && registry.current.sipPassword == t.sipPassword && registry.current.sipDomain == t.sipDomain
       && registry.current.sipPort == t.sipPort && registry.current.sipTransport == t.sipTransport
       && registry.current.stunServer == StunServerOf(t.sipStunServer)
       && registry.current.turnServer == t.sipTurnServer)
  {
    r := StartupProvider(t.provider);
    if r == Success(Sip) {
      var h := registry.Initialize(t.sipServer, t.sipUsername, t.sipPassword, t.sipDomain,
                                   t.sipPort, t.sipTransport, t.sipStunServer, t.sipTurnServer);
      var ok := h.Register();
    }
  }

  // ---------------------------------------------------------------- SIP endpoints

  /** An HTTP error raised by an endpoint, or a JSON body it returns. */
  datatype WebrtcReply = HttpError(code: int, detail: Option<string>) | JsonReply(result: CallResult)

  const SipNotConfigured := "SIP provider not configured"

  /** The registry's handler as a frame: itself when initialised, nothing otherwise. */
  function CurrentHandler(registry: SipRegistry): set<SipHandler>
    reads registry
  {
    if registry.current != null then {registry.current} else {}
  }

  /**
   * `handle_sip_webrtc`. A non-SIP provider is rejected with 400 before anything is read or
   * stored. Otherwise a body that fails to parse, or a missing handler, is a 500; with a
   * handler the call is stored under the body's `call_id` and its result returned.
   */
  method HandleSipWebrtc(t: Telephony, registry: SipRegistry, body: Option<Body>, now: int,
                         tokens: Result<SdpTokens, string>)
    returns (reply: WebrtcReply)
    requires registry.current != null ==> registry.current.Valid()
    modifies CurrentHandler(registry)`activeCalls
    ensures registry.current == old(registry.current)
    ensures registry.current != null ==> registry.current.Valid()
    ensures t.provider != "sip" ==> reply == HttpError(400, Some(SipNotConfigured))
    ensures t.provider == "sip" && (body == None || registry.current == null) ==> reply == HttpError(500, None)
    ensures (t.provider != "sip" || body == None || registry.current == null) && registry.current != null ==>
      registry.current.activeCalls == old(registry.current.activeCalls)
    ensures t.provider == "sip" && body.Some? && registry.current != null ==>
      var id := Field(body.value, "call_id");
      reply == JsonReply(IncomingCallResult(id, Field(body.value, "sdp"), tokens))
      && registry.current.activeCalls == old(registry.current.activeCalls)[id :=
           SipCall(id, Field(body.value, "from"), Field(body.value, "to"), now, "active", None, None)]
  {
    if t.provider != "sip" {
      return HttpError(400, Some(SipNotConfigured));
    }
    if body == None {
      return HttpError(500, None);
    }
    var data := body.value;
    var h := registry.Get();
    if h == null {
      return HttpError(500, None);
    }
    var result := h.HandleIncomingCall(Field(data, "call_id"), Field(data, "from"), Field(data, "to"),
                                       Field(data, "sdp"), now, tokens);
    reply := JsonReply(result);
  }

  /** The report of `get_sip_status`. */
  datatype SipStatusReport =
    | SipDisabled(provider: string)
    | SipNotInitialized
    | SipConnected(sipServer: string, sipUsername: string, activeCallCount: nat, calls: set<Value>)

  /**
   * `get_sip_status`: disabled for a non-SIP provider, "not initialised" without a handler,
   * and otherwise the server, the user and the active calls, counted and listed by id.
   */
  method GetSipStatus(t: Telephony, registry: SipRegistry) returns (r: SipStatusReport)
    requires registry.current != null ==> registry.current.Valid()
    ensures t.provider != "sip" ==> r == SipDisabled(t.provider)
    ensures t.provider == "sip" && registry.current == null ==> r == SipNotInitialized
    ensures t.provider == "sip" && registry.current != null ==>
      r == SipConnected(t.sipServer, t.sipUsername, |registry.current.activeCalls|, registry.current.activeCalls.Keys)
    ensures r.SipConnected? ==> r.activeCallCount == |r.calls|
  {
    if t.provider != "sip" {
      return SipDisabled(t.provider);
    }
    var h := registry.Get();
    if h == null {
      return SipNotInitialized;
    }
    var calls := h.GetActiveCalls();
    r := SipConnected(t.sipServer, t.sipUsername, |calls|, calls.Keys);
  }
}
