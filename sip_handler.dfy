/**
 * The SIP call table of app/handlers/sip_handler.py and its module-level singleton.
 * Registration is simulated and always succeeds; there is no SIP or WebRTC negotiation.
 * Call identifiers and URIs are a string or null, because the only caller passes
 * `data.get(...)` of the request body straight through, which is `None` for a missing key.
 */
module SipHandling {
  import opened Wrappers
  import opened Sdp

  /** A string, or `None` for a key missing from the request body. */
  type Value = Option<string>

  /** One SIP call's record; `endTime` and `duration` appear only once the call is ended. */
  datatype SipCall = SipCall(
    callId: Value,
    fromUri: Value,
    toUri: Value,
    startTime: int,
    status: string,
    endTime: Option<int>,
    duration: Option<int>)

  /** The dictionary `handle_incoming_call` returns. */
  datatype CallResult =
    | Accepted(callId: Value, sdpAnswer: string, message: string)
    | Rejected(callId: Value, error: string)
  {
    /** The `"status"` key. */
    function Status(): string {
      if Accepted? then "success" else "error"
    }
  }

  const DefaultStunServer := "stun:stun.l.google.com:19302"
  const DefaultSipPort := 5060
  const DefaultSipTransport := "udp"
  const AcceptedMessage := "Call accepted"

  /** `stun_server or DEFAULT`: the given server unless it is missing or empty. */
  function StunServerOf(stun: Option<string>): (s: string)
    ensures stun.Some? && stun.value != "" ==> s == stun.value
    ensures stun == None || stun == Some("") ==> s == DefaultStunServer
  {
    if stun.Some? && stun.value != "" then stun.value else DefaultStunServer
  }

  /** Every record is stored under its own call id and is still active. */
  predicate WellFormed(calls: map<Value, SipCall>) {
    forall id :: id in calls ==>
      calls[id].callId == id && calls[id].status == "active"
      && calls[id].endTime == None && calls[id].duration == None
  }

  /** The record `end_call` finishes before deleting it. */
  function Completed(c: SipCall, now: int): (f: SipCall)
    ensures f.callId == c.callId && f.fromUri == c.fromUri && f.toUri == c.toUri && f.startTime == c.startTime
    ensures f.status == "completed" && f.endTime == Some(now) && f.duration == Some(now - c.startTime)
  {
    c.(status := "completed", endTime := Some(now), duration := Some(now - c.startTime))
  }

  /**
   * The result of handling a call once the record is stored: the answer built from the
   * random tokens, or the message of the exception drawing them raised. Either way the
   * result names the call id it was given.
   */
  function IncomingCallResult(callId: Value, sdpOffer: Value, tokens: Result<SdpTokens, string>): (r: CallResult)
    ensures r.callId == callId
    ensures tokens.Success? <==> r.Status() == "success"
    ensures tokens.Success? ==> r == Accepted(callId, SdpAnswer(sdpOffer, tokens.value), AcceptedMessage)
    ensures tokens.Failure? ==> r.Rejected? && r.error == tokens.error
  {
    match tokens
    case Success(t) => Accepted(callId, SdpAnswer(sdpOffer, t), AcceptedMessage)
    case Failure(e) => Rejected(callId, e)
  }

  /** An accepted call's answer starts with "v=0" and has a non-empty body. */
  lemma AcceptedAnswerIsNonEmpty(callId: Value, sdpOffer: Value, tokens: SdpTokens)
    ensures var r := IncomingCallResult(callId, sdpOffer, Success(tokens));
      r.Accepted? && |r.sdpAnswer| >= 4 && r.sdpAnswer[..4] == "v=0\n"
  {
  }

  /** `SIPHandler`: account settings, a registration flag and the table of active SIP calls. */
  class SipHandler {
    var sipServer: string
    var sipUsername: string
    var sipPassword: string
    var sipDomain: string
    var sipPort: int
    var sipTransport: string
    var stunServer: string
    var turnServer: Option<string>
    var activeCalls: map<Value, SipCall>
    var registered: bool

    ghost predicate Valid()
      reads this
    {
      WellFormed(activeCalls)
    }

    /** A new handler: the given settings, the default STUN server when none is given, no calls, not registered. */
    constructor (sipServer: string, sipUsername: string, sipPassword: string, sipDomain: string,
                 sipPort: int := DefaultSipPort, sipTransport: string := DefaultSipTransport,
                 stunServer: Option<string> := None, turnServer: Option<string> := None)
      ensures Valid()
      ensures this.sipServer == sipServer && this.sipUsername == sipUsername
      ensures this.sipPassword == sipPassword && this.sipDomain == sipDomain
      ensures this.sipPort == sipPort && this.sipTransport == sipTransport
      ensures this.stunServer == StunServerOf(stunServer) && this.turnServer == turnServer
      ensures activeCalls == map[] && !registered
    {
      this.sipServer := sipServer;
      this.sipUsername := sipUsername;
      this.sipPassword := sipPassword;
      this.sipDomain := sipDomain;
      this.sipPort := sipPort;
      this.sipTransport := sipTransport;
      this.stunServer := StunServerOf(stunServer);
      this.turnServer := turnServer;
      activeCalls := map[];
      registered := false;
    }

    /** `register`: the registration is simulated; it always succeeds and sets the flag. */
    method Register() returns (ok: bool)
      modifies this`registered
      ensures ok && registered
    {
      registered := true;
      ok := true;
    }

    /**
     * `handle_incoming_call`: stores an active record under `callId` (replacing any record
     * there) and answers with the placeholder SDP answer. The record is stored before the
     * tokens are drawn, so it stays in the table when drawing them fails.
     */
    method HandleIncomingCall(callId: Value, fromUri: Value, toUri: Value, sdpOffer: Value,
                              now: int, tokens: Result<SdpTokens, string>)
      returns (result: CallResult)
      requires Valid()
      modifies this`activeCalls
      ensures Valid()
      ensures activeCalls == old(activeCalls)[callId := SipCall(callId, fromUri, toUri, now, "active", None, None)]
      ensures result == IncomingCallResult(callId, sdpOffer, tokens)
      ensures result.callId == callId
    {
      var info := SipCall(callId, fromUri, toUri, now, "active", None, None);
      activeCalls := activeCalls[callId := info];
      result := IncomingCallResult(callId, sdpOffer, tokens);
    }

    /**
     * `end_call`: for a known id, completes the record at time `now`, deletes it and answers
     * true; for an unknown id answers false and changes nothing. The completed record is only
     * logged by `end_call`, never returned; `completed` shows what it holds.
     */
    method EndCall(callId: Value, now: int) returns (found: bool, ghost completed: Option<SipCall>)
      requires Valid()
      modifies this`activeCalls
      ensures Valid()
      ensures found <==> callId in old(activeCalls)
      ensures found ==>
        (activeCalls == old(activeCalls) - {callId} && completed == Some(Completed(old(activeCalls)[callId], now)))
      ensures !found ==> activeCalls == old(activeCalls) && completed == None
    {
      if callId in activeCalls {
        completed := Some(Completed(activeCalls[callId], now));
        activeCalls := activeCalls - {callId};
        found := true;
      } else {
        completed := None;
        found := false;
      }
    }

    /** `get_active_calls`: the table itself. */
    method GetActiveCalls() returns (calls: map<Value, SipCall>)
      requires Valid()
      ensures calls == activeCalls && WellFormed(calls)
    {
      calls := activeCalls;
    }
  }

  /** The module global `_sip_handler`: empty until `initialize_sip_handler` fills it. */
  class SipRegistry {
    var current: SipHandler?

    constructor ()
      ensures current == null
    {
      current := null;
    }

    /**
     * `initialize_sip_handler(**kwargs)`: a new handler replaces whatever was there and is
     * returned; omitted arguments take the handler's own defaults.
     */
    method Initialize(sipServer: string, sipUsername: string, sipPassword: string, sipDomain: string,
                      sipPort: int := DefaultSipPort, sipTransport: string := DefaultSipTransport,
                      stunServer: Option<string> := None, turnServer: Option<string> := None)
      returns (h: SipHandler)
      modifies this
      ensures fresh(h) && current == h && h.Valid()
      ensures h.sipServer == sipServer && h.sipUsername == sipUsername
      ensures h.sipPassword == sipPassword && h.sipDomain == sipDomain
      ensures h.sipPort == sipPort && h.sipTransport == sipTransport
      ensures h.stunServer == StunServerOf(stunServer) && h.turnServer == turnServer
      ensures h.activeCalls == map[] && !h.registered
    {
      h := new SipHandler(sipServer, sipUsername, sipPassword, sipDomain, sipPort, sipTransport, stunServer, turnServer);
      current := h;
    }

    /** `get_sip_handler`: the current handler, or null before initialisation. */
    method Get() returns (h: SipHandler?)
      ensures h == current
    {
      h := current;
    }
  }
}
