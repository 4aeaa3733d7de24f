/**
 * The provider's webhooks: `/handle_call` (the callee answered),
 * `/handle_response` (the callee spoke) and `/call_status` (a status or
 * recording event).  Only their effects on the call tables and the
 * conversation memory and the shape of their answer are modelled; the
 * TwiML and JSON bodies and the database writes are not.
 */
module Routes {
  import opened Wrappers
  import opened Text
  import opened Leads
  import opened Conversation
  import opened Calls

  /** What a handler answers when it does not answer TwiML: a 400 or a 500, each with its error text. */
  datatype Response =
    | BadRequest(error: string)
    | ServerError(error: string)

  /** What `str(e)` says when the handlers call the method `AILogic` does not define. */
  const MissingStoreAiResponse := "'AILogic' object has no attribute 'store_ai_response'"

  /**
   * What `str(e)` says when `/call_status` calls `save_call_record`: the
   * function lives in the application module and the route module neither
   * imports it nor receives it.
   */
  const MissingSaveCallRecord := "name 'save_call_record' is not defined"

  // ---------------------------------------------------------------------
  // Status mapping

  /** `status_mapping` of `handle_call_status`. */
  const StatusMapping := map[
    "initiated" := "initiated",
    "ringing" := "ringing",
    "answered" := "active",
    "completed" := "completed",
    "busy" := "busy",
    "failed" := "failed",
    "no-answer" := "no-answer",
    "canceled" := "canceled",
    "in-progress" := "active"]

  /**
   * `status_mapping.get(call_status, call_status)`: the two in-call
   * statuses become `active`, every other status, listed or not, is kept.
   */
  function MapStatus(status: string): (m: string)
    ensures (status == "answered" || status == "in-progress") ==> m == "active"
    ensures (status != "answered" && status != "in-progress") ==> m == status
  {
    if status in StatusMapping then StatusMapping[status] else status
  }

  /** Mapping a mapped status again changes nothing, and mapping never makes a status terminal or not. */
  lemma MapStatusProperties(status: string)
    ensures MapStatus(MapStatus(status)) == MapStatus(status)
    ensures IsTerminal(MapStatus(status)) <==> IsTerminal(status)
    ensures MapStatus(status) == "active" <==> status in ["answered", "in-progress", "active"]
  {
  }

  // ---------------------------------------------------------------------
  // Correlating an event with a call

  /**
   * The call id an event is filed under: the URL's `call_id`; failing that,
   * for a non-empty `CallSid`, the first call of the history with that SID;
   * failing that, the call id persisted for that SID.  `None` when all
   * three come up empty.
   */
  function Resolve(t: Tables, urlCallId: string, callSid: string, persisted: map<string, string>): (r: Option<string>)
    requires forall k :: k in t.order ==> k in t.history
    ensures r.Some? ==> r.value != ""
    ensures urlCallId != "" ==> r == Some(urlCallId)
    ensures urlCallId == "" && callSid != "" && FirstWithSid(t, callSid, 0).Some? && FirstWithSid(t, callSid, 0).value != ""
      ==> r == FirstWithSid(t, callSid, 0)
    ensures urlCallId == "" && (callSid == "" || FirstWithSid(t, callSid, 0).GetOr("") == "") ==>
      r == (if callSid in persisted && persisted[callSid] != "" then Some(persisted[callSid]) else None)
  {
    var fromHistory := if urlCallId == "" && callSid != "" then FirstWithSid(t, callSid, 0).GetOr("") else urlCallId;
    var fromStore := if fromHistory == "" then (if callSid in persisted then persisted[callSid] else "") else fromHistory;
    if fromStore == "" then None else Some(fromStore)
  }

  // ---------------------------------------------------------------------
  // Recording id

  const RecordingsMarker := "/Recordings/"

  /**
   * An explicit `RecordingSid` is kept; otherwise it is read off a
   * recording URL that contains `/Recordings/`: the text after the last
   * piece boundary up to the next `/`.  Otherwise it stays empty.
   */
  function RecordingSidOf(recordingUrl: string, recordingSid: string): (sid: string)
    ensures recordingSid != "" ==> sid == recordingSid
    ensures recordingSid == "" && !Contains(recordingUrl, RecordingsMarker) ==> sid == ""
  {
    if recordingUrl != "" && recordingSid == "" && Contains(recordingUrl, RecordingsMarker) then
      var parts := Split(recordingUrl, RecordingsMarker);
      Split(parts[|parts| - 1], "/")[0]
    else recordingSid
  }

  /**
   * The id read off a URL holds no `/`; it begins the text `tail` that ends
   * the URL right after the marker, `tail` holds no further marker, and the
   * id is all of `tail` or is followed in it by a `/`.
   */
  lemma RecordingSidFromUrl(url: string)
    requires Contains(url, RecordingsMarker)
    ensures var sid := RecordingSidOf(url, "");
      !Contains(sid, "/")
      && exists tail :: |RecordingsMarker| + |tail| <= |url|
           && url[|url| - |tail| - |RecordingsMarker|..] == RecordingsMarker + tail
           && !Contains(tail, RecordingsMarker)
           && StartsWith(tail, sid)
           && (tail == sid || StartsWith(tail, sid + "/"))
  {
    var i :| 0 <= i <= |url| && MatchAt(url, RecordingsMarker, i);
    var parts := Split(url, RecordingsMarker);
    var tail := parts[|parts| - 1];
    assert RecordingSidOf(url, "") == Split(tail, "/")[0];
    FirstOfLast(url, RecordingsMarker, "/");
  }

  // ---------------------------------------------------------------------
  // The handlers

  /**
   * `/call_status`: correlate the event, overwrite the status of a call in
   * the history (dropping it from the active calls on a terminal status),
   * and work out the recording id; an event no call id can be found for is
   * refused and changes nothing.  A correlated event is then answered with a
   * 500: the call to the undefined `save_call_record` raises before the
   * database update and the success answer, and the in-memory update stays.
   */
  method HandleCallStatus(tables: CallTables, urlCallId: string, callSid: string, callStatus: string,
                          recordingUrl: string, recordingSid: string, persisted: map<string, string>)
    returns (r: Response)
    requires tables.Valid()
    modifies tables
    ensures tables.Valid()
    ensures var id := Resolve(old(tables.State()), urlCallId, callSid, persisted);
      (id.None? ==> r == BadRequest("Call ID not found") && tables.State() == old(tables.State()))
      && (id.Some? ==>
            r == ServerError(MissingSaveCallRecord)
            && tables.State() == ApplyStatus(old(tables.State()), id.value, MapStatus(callStatus)))
  {
    var callId := urlCallId;
    if callId == "" && callSid != "" {
      callId := tables.FindBySid(callSid);
    }
    if callId == "" {
      if callSid in persisted {
        callId := persisted[callSid];
      }
    }
    if callId == "" {
      return BadRequest("Call ID not found");
    }
    var mapped := MapStatus(callStatus);
    tables.SetStatus(callId, mapped);
    var sid := recordingSid;
    if recordingUrl != "" && recordingSid == "" {
      if Contains(recordingUrl, RecordingsMarker) {
        var parts := Split(recordingUrl, RecordingsMarker);
        sid := Split(parts[|parts| - 1], "/")[0];
      }
    }
    assert sid == RecordingSidOf(recordingUrl, recordingSid);
    // `save_call_record(call_id, ..., {'recording_url': sid or '', ...})` raises here.
    return ServerError(MissingSaveCallRecord);
  }

  /** The entry `/handle_call` files for a call it has not seen. */
  function FirstSeen(callId: string, leadId: string, now: string): CallInfo {
    CallInfo(callId, None, Some(leadId), None, now, "initiated")
  }

  /** The tables after `/handle_call` registered `callId`: unchanged when the call is known. */
  function Registered(t: Tables, callId: string, leadId: string, now: string): (u: Tables)
    ensures callId in u.history
    ensures callId in t.history ==> u == t
    ensures callId !in t.history ==> u.history[callId].status == "initiated" && u.history[callId].leadId == Some(leadId)
    ensures u.active == t.active
    ensures forall k :: k in t.history ==> k in u.history && u.history[k] == t.history[k]
  {
    if callId in t.history then t else StoreEntry(t, callId, FirstSeen(callId, leadId, now))
  }

  /**
   * `/handle_call`: an empty call id is refused with no change.  Otherwise
   * an unknown call is filed as `initiated` with the URL's lead id (a known
   * call is left as it is), the opening reply is generated for the call's
   * lead, and the handler then fails on the undefined `store_ai_response`.
   */
  method HandleCall(tables: CallTables, ai: AiLogic, callId: string, leadId: string, now: string,
                    generate: seq<Message> -> Option<string>) returns (r: Response)
    requires tables.Valid()
    modifies tables, ai
    ensures tables.Valid()
    ensures callId == "" ==>
      r == BadRequest("Call ID required") && tables.State() == old(tables.State()) && ai.memory == old(ai.memory)
    ensures callId != "" ==>
      var u := Registered(old(tables.State()), callId, leadId, now);
      tables.State() == u
      && ai.memory == Generated(ai.settings, old(ai.memory), u.history[callId].leadInfo, "", callId, generate, now).memory
      && r == ServerError(MissingStoreAiResponse)
  {
    if callId == "" {
      return BadRequest("Call ID required");
    }
    if callId !in tables.history {
      tables.Store(callId, FirstSeen(callId, leadId, now));
    }
    var leadInfo := tables.history[callId].leadInfo;
    ghost var u := Registered(old(tables.State()), callId, leadId, now);
    assert tables.State() == u && leadInfo == u.history[callId].leadInfo;
    assert ai.memory == old(ai.memory);
    var reply := ai.GenerateResponse(leadInfo, "", callId, generate, now);
    return ServerError(MissingStoreAiResponse);
  }

  const NoSpeechPlaceholder := "User spoke but no text was captured"

  /** An empty speech result is replaced by the placeholder. */
  function SpeechText(speech: string): (text: string)
    ensures text != ""
    ensures speech != "" ==> text == speech
  {
    if speech == "" then NoSpeechPlaceholder else speech
  }

  /** The memory `/handle_response` leaves: the caller's words stored, then the reply to them. */
  function AfterResponse(s: AgentSettings, memory: map<string, seq<Turn>>, callId: string, lead: Option<Lead>,
                         speech: string, now: string, generate: seq<Message> -> Option<string>): map<string, seq<Turn>>
  {
    var text := SpeechText(speech);
    var stored := Appended(memory, callId, Turn(Caller, text, now));
    Generated(s, stored, lead, text, callId, generate, now).memory
  }

  /**
   * After a response, whatever the model answered, the call's history is
   * the old one, then exactly one caller turn with the (placeholder-filled)
   * speech, then at most one agent turn; other calls are untouched.
   */
  lemma AfterResponseTurns(s: AgentSettings, memory: map<string, seq<Turn>>, callId: string,
                           speech: string, answer: Option<string>, now: string, other: string)
    requires callId != ""
    ensures var stored := Appended(memory, callId, Turn(Caller, SpeechText(speech), now));
      var h := HistoryIn(Respond(s, stored, callId, answer, now).memory, callId);
      var before := HistoryIn(memory, callId) + [Turn(Caller, SpeechText(speech), now)];
      |before| <= |h| <= |before| + 1 && h[..|before|] == before
      && (|h| == |before| + 1 ==> h[|before|] == Turn(s.agentName, Strip(answer.value), now))
    ensures var stored := Appended(memory, callId, Turn(Caller, SpeechText(speech), now));
      other != callId ==> HistoryIn(Respond(s, stored, callId, answer, now).memory, other) == HistoryIn(memory, other)
  {
    var text := SpeechText(speech);
    var stored := Appended(memory, callId, Turn(Caller, text, now));
    AppendedEffect(memory, callId, Turn(Caller, text, now), other);
    RespondEffect(s, stored, callId, answer, now, other);
    var before := HistoryIn(memory, callId) + [Turn(Caller, text, now)];
    var h := HistoryIn(Respond(s, stored, callId, answer, now).memory, callId);
    if answer.Some? {
      assert h == before + [Turn(s.agentName, Strip(answer.value), now)];
      assert h[..|before|] == before;
    } else {
      assert h == before;
    }
  }

  /**
   * `/handle_response`: an empty call id is refused with no change;
   * otherwise the speech is stored as a caller turn, a reply is generated
   * with the speech as context, and the handler then fails on the
   * undefined `store_ai_response`.
   */
  method HandleCallResponse(tables: CallTables, ai: AiLogic, callId: string, speech: string, now: string,
                            generate: seq<Message> -> Option<string>) returns (r: Response)
    modifies ai
    ensures callId == "" ==> r == BadRequest("Call ID required") && ai.memory == old(ai.memory)
    ensures callId != "" ==>
      var lead := if callId in tables.history then tables.history[callId].leadInfo else None;
      ai.memory == AfterResponse(ai.settings, old(ai.memory), callId, lead, speech, now, generate)
      && r == ServerError(MissingStoreAiResponse)
  {
    if callId == "" {
      return BadRequest("Call ID required");
    }
    var userResponse := SpeechText(speech);
    ai.StoreUserResponse(callId, userResponse, now);
    ghost var stored := Appended(old(ai.memory), callId, Turn(Caller, userResponse, now));
    assert ai.memory == stored;
    var leadInfo := if callId in tables.history then tables.history[callId].leadInfo else None;
    var reply := ai.GenerateResponse(leadInfo, userResponse, callId, generate, now);
    assert ai.memory == Generated(ai.settings, stored, leadInfo, userResponse, callId, generate, now).memory;
    return ServerError(MissingStoreAiResponse);
  }
}
