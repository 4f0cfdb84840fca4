/**
 * The active-call table of app/handlers/call_handler.py: a dictionary from Twilio call SID
 * to call record, filled by `start_call` and emptied by `end_call`. The clock
 * (`datetime.utcnow()`) is an integer `now` supplied by the caller, in seconds.
 */
module CallHandling {
  import opened Wrappers

  /**
   * One call's record. `endTime` and `duration` are the keys `end_call` adds; a record in
   * the table has neither.
   */
  datatype CallRecord = CallRecord(
    callSid: string,
    fromNumber: string,
    toNumber: string,
    startTime: int,
    status: string,
    endTime: Option<int>,
    duration: Option<int>)

  const ActiveStatus := "active"
  const DefaultEndStatus := "completed"

  /** A record as `start_call` creates it. */
  predicate IsStarted(r: CallRecord, sid: string, fromNumber: string, toNumber: string, now: int) {
    r == CallRecord(sid, fromNumber, toNumber, now, ActiveStatus, None, None)
  }

  /**
   * The record `end_call(..., status)` returns at time `now`: the stored record with end
   * time, final status and the elapsed time since its start.
   */
  function Finished(r: CallRecord, status: string, now: int): (f: CallRecord)
    ensures f.callSid == r.callSid && f.fromNumber == r.fromNumber && f.toNumber == r.toNumber
    ensures f.startTime == r.startTime && f.status == status
    ensures f.endTime == Some(now) && f.duration == Some(f.endTime.value - f.startTime)
  {
    r.(status := status, endTime := Some(now), duration := Some(now - r.startTime))
  }

  /** What the table always holds: each record under its own SID, active, not yet ended. */
  predicate WellFormed(calls: map<string, CallRecord>) {
    forall sid :: sid in calls ==>
      calls[sid].callSid == sid && calls[sid].status == ActiveStatus
      && calls[sid].endTime == None && calls[sid].duration == None
  }

  /** `start_call` keeps the table well formed, adds the SID when new and otherwise replaces its record. */
  lemma StartKeepsWellFormed(calls: map<string, CallRecord>, sid: string, fromNumber: string, toNumber: string, now: int)
    requires WellFormed(calls)
    ensures var r := CallRecord(sid, fromNumber, toNumber, now, ActiveStatus, None, None);
      var after := calls[sid := r];
      WellFormed(after) && after.Keys == calls.Keys + {sid}
      && |after| == if sid in calls then |calls| else |calls| + 1
  {
  }

  /** `end_call` on a present SID removes exactly that key: one fewer call, still well formed. */
  lemma EndShrinksByOne(calls: map<string, CallRecord>, sid: string)
    requires WellFormed(calls) && sid in calls
    ensures WellFormed(calls - {sid}) && (calls - {sid}).Keys == calls.Keys - {sid}
    ensures |calls - {sid}| == |calls| - 1
  {
  }

  /** A call started under a new SID and then ended leaves the table as it was. */
  lemma StartThenEndRestores(calls: map<string, CallRecord>, sid: string, r: CallRecord)
    requires sid !in calls
    ensures calls[sid := r] - {sid} == calls
  {
  }

  /** With a clock that does not run backwards, a finished call has a non-negative duration. */
  lemma DurationNonNegative(r: CallRecord, status: string, now: int)
    requires r.startTime <= now
    ensures Finished(r, status, now).duration.value >= 0
  {
  }

  /** `CallHandler`: the table of active calls keyed by call SID. */
  class CallHandler {
    var activeCalls: map<string, CallRecord>

    ghost predicate Valid()
      reads this
    {
      WellFormed(activeCalls)
    }

    /** A new handler has no calls. */
    constructor ()
      ensures Valid() && activeCalls == map[]
    {
      activeCalls := map[];
    }

    /**
     * `start_call`: stores a fresh active record under `callSid`, silently replacing any record
     * already there, and returns it. No other entry changes.
     */
    method StartCall(callSid: string, fromNumber: string, toNumber: string, now: int) returns (info: CallRecord)
      requires Valid()
      modifies this
      ensures Valid()
      ensures IsStarted(info, callSid, fromNumber, toNumber, now)
      ensures activeCalls == old(activeCalls)[callSid := info]
      ensures |activeCalls| == if callSid in old(activeCalls) then old(|activeCalls|) else old(|activeCalls|) + 1
    {
      info := CallRecord(callSid, fromNumber, toNumber, now, ActiveStatus, None, None);
      StartKeepsWellFormed(activeCalls, callSid, fromNumber, toNumber, now);
      activeCalls := activeCalls[callSid := info];
    }

    /**
     * `end_call`: for a known SID, finishes its record with `status` at time `now`, removes it
     * from the table and returns it; for an unknown SID returns `None` and changes nothing.
     */
    method EndCall(callSid: string, now: int, status: string := DefaultEndStatus) returns (ended: Option<CallRecord>)
      requires Valid()
      modifies this
      ensures Valid()
      ensures callSid !in old(activeCalls) ==> ended == None && activeCalls == old(activeCalls)
      ensures callSid in old(activeCalls) ==>
        ended == Some(Finished(old(activeCalls)[callSid], status, now))
        && activeCalls == old(activeCalls) - {callSid}
        && |activeCalls| == old(|activeCalls|) - 1
      ensures ended.Some? ==>
        (ended.value.callSid == callSid && ended.value.status == status && ended.value.endTime == Some(now))
    {
      if callSid in activeCalls {
        var info := activeCalls[callSid];
        var finished := Finished(info, status, now);
        EndShrinksByOne(activeCalls, callSid);
        activeCalls := activeCalls - {callSid};
        ended := Some(finished);
      } else {
        ended := None;
      }
    }

    /** `get_call_info`: the active record for `callSid`, if any; the table is only read. */
    method GetCallInfo(callSid: string) returns (info: Option<CallRecord>)
      requires Valid()
      ensures info.Some? <==> callSid in activeCalls
      ensures info.Some? ==>
        (info.value == activeCalls[callSid] && info.value.callSid == callSid
         && info.value.status == ActiveStatus && info.value.endTime == None)
    {
      info := if callSid in activeCalls then Some(activeCalls[callSid]) else None;
    }

    /** `get_active_calls_count`: the number of SIDs in the table. */
    method GetActiveCallsCount() returns (n: nat)
      ensures n == |activeCalls.Keys|
    {
      n := |activeCalls|;
    }
  }
}
