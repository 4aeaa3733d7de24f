/**
 * The string-building side of the telephony integration: phone-number
 * formatting, the two callback URLs handed to the provider when dialling,
 * the three return shapes of `make_call`, and the recording URLs.  The
 * provider's REST client is the `dial` parameter: it answers a request with
 * the new call's SID, or `None` when it raises.
 */
module Twilio {
  import opened Wrappers
  import opened Text
  import opened Leads

  /**
   * Credentials, sender number and webhook base, each `None` when the key is
   * absent from the configuration or `null`.
   */
  datatype TwilioSettings = TwilioSettings(
    accountSid: Option<string>,
    authToken: Option<string>,
    phoneNumber: Option<string>,
    webhookBaseUrl: Option<string>)

  /** Python truthiness of an optional text: set and non-empty. */
  predicate Truthy(o: Option<string>) {
    o.Some? && o.value != ""
  }

  /** An optional text inside an f-string: `None` is printed as `None`. */
  function Shown(o: Option<string>): string {
    o.GetOr("None")
  }

  /** A client object is created only when both credentials are set. */
  predicate HasClient(s: TwilioSettings) {
    Truthy(s.accountSid) && Truthy(s.authToken)
  }

  /** `is_configured`: SID, token and sender number are all non-empty. */
  predicate IsConfigured(s: TwilioSettings) {
    Truthy(s.accountSid) && Truthy(s.authToken) && Truthy(s.phoneNumber)
  }

  lemma ConfiguredHasClient(s: TwilioSettings)
    ensures IsConfigured(s) ==> HasClient(s)
    ensures HasClient(s) && !Truthy(s.phoneNumber) ==> !IsConfigured(s)
  {
  }

  const CountryPrefix := "+1"

  /** A number not already starting with `+1` gets `+1` in front; nothing else changes. */
  function FormatPhone(phone: string): (r: string)
    ensures StartsWith(r, CountryPrefix)
    ensures StartsWith(phone, CountryPrefix) ==> r == phone
    ensures !StartsWith(phone, CountryPrefix) ==> r == CountryPrefix + phone
  {
    if StartsWith(phone, CountryPrefix) then phone else CountryPrefix + phone
  }

  /** Formatting a formatted number changes nothing. */
  lemma FormatPhoneIdempotent(phone: string)
    ensures FormatPhone(FormatPhone(phone)) == FormatPhone(phone)
  {
    var r := FormatPhone(phone);
    assert StartsWith(r, CountryPrefix);
  }

  /**
   * The URL the provider fetches when the callee answers.  A lead without an
   * `id` key gets an empty `lead_id`, a `null` one the text `None`.
   */
  function WebhookUrl(base: Option<string>, callId: string, leadId: Field): string {
    Shown(base) + "/handle_call?call_id=" + callId + "&lead_id=" + Rendered(leadId, "")
  }

  /** The URL the provider posts status and recording events to. */
  function StatusCallbackUrl(base: Option<string>, callId: string): string {
    Shown(base) + "/call_status?call_id=" + callId
  }

  const HandleCallPath := "/handle_call?call_id="
  const LeadIdParam := "&lead_id="

  /** The webhook URL is the base, the call id and the lead id, each where it belongs. */
  lemma WebhookUrlParts(base: Option<string>, callId: string, leadId: Field)
    ensures var u := WebhookUrl(base, callId, leadId);
      StartsWith(u, Shown(base) + HandleCallPath + callId + LeadIdParam)
    ensures base.None? ==> StartsWith(WebhookUrl(base, callId, leadId), "None" + HandleCallPath)
    ensures leadId.Absent? ==> WebhookUrl(base, callId, leadId) == Shown(base) + HandleCallPath + callId + LeadIdParam
    ensures leadId.Null? ==> WebhookUrl(base, callId, leadId) == Shown(base) + HandleCallPath + callId + LeadIdParam + "None"
    ensures leadId.Str? ==> WebhookUrl(base, callId, leadId) == Shown(base) + HandleCallPath + callId + LeadIdParam + leadId.text
  {
    var u := WebhookUrl(base, callId, leadId);
    var p := Shown(base) + HandleCallPath + callId + LeadIdParam;
    assert u == p + Rendered(leadId, "");
    assert u[..|p|] == p;
    if base.None? {
      assert p == "None" + HandleCallPath + (callId + LeadIdParam);
      assert u[..|"None" + HandleCallPath|] == p[..|"None" + HandleCallPath|];
    }
  }

  /** The parameters passed to `client.calls.create`. */
  datatype DialRequest = DialRequest(
    to: string,
    from: Option<string>,
    url: string,
    record: bool,
    recordingStatusCallback: string,
    statusCallback: string,
    statusCallbackEvents: seq<string>,
    timeoutSeconds: int)

  /** The three shapes `make_call` returns: bare `False`, `(True, sid)` and `(False, None)`. */
  datatype DialResult = NoClient | Placed(sid: string) | DialRaised

  /**
   * The request for one lead under one call id, or `None` when building it
   * raises: a `null` phone has no `startswith`.  A lead without a phone is
   * dialled at `+1`.
   */
  function DialRequestFor(s: TwilioSettings, lead: Lead, callId: string): (req: Option<DialRequest>)
    ensures req.None? <==> lead.phone.Null?
    ensures req.Some? ==> req.value.to == FormatPhone(Rendered(lead.phone, ""))
    ensures lead.phone.Absent? ==> req.Some? && req.value.to == CountryPrefix
    ensures req.Some? ==> req.value.from == s.phoneNumber
    ensures req.Some? ==> req.value.url == WebhookUrl(s.webhookBaseUrl, callId, lead.id)
    ensures req.Some? ==> req.value.statusCallback == StatusCallbackUrl(s.webhookBaseUrl, callId)
    ensures req.Some? ==> req.value.recordingStatusCallback == req.value.statusCallback
    ensures req.Some? ==> req.value.record && req.value.timeoutSeconds == 30
    ensures req.Some? ==> req.value.statusCallbackEvents == ["initiated", "ringing", "answered", "completed"]
  {
    if lead.phone.Null? then None
    else
      var to := FormatPhone(Rendered(lead.phone, ""));
      assert lead.phone.Absent? ==> to == CountryPrefix + "";
      Some(DialRequest(to, s.phoneNumber, WebhookUrl(s.webhookBaseUrl, callId, lead.id),
                       true, StatusCallbackUrl(s.webhookBaseUrl, callId), StatusCallbackUrl(s.webhookBaseUrl, callId),
                       ["initiated", "ringing", "answered", "completed"], 30))
  }

  /**
   * `make_call(lead, call_id)`: without a client nothing is dialled; an
   * empty call id is replaced by `freshId` (a UUID in the source); then the
   * provider either returns the new call's SID or raises.
   */
  function MakeCall(s: TwilioSettings, lead: Lead, callId: string, freshId: string,
                    dial: DialRequest -> Option<string>): (r: DialResult)
    ensures r.NoClient? <==> !HasClient(s)
    ensures HasClient(s) ==>
      var req := DialRequestFor(s, lead, if callId != "" then callId else freshId);
      (r.Placed? <==> req.Some? && dial(req.value).Some?)
      && (r.Placed? ==> r.sid == dial(req.value).value)
      && (r.DialRaised? <==> req.None? || dial(req.value).None?)
  {
    if !HasClient(s) then NoClient
    else
      var id := if callId != "" then callId else freshId;
      match DialRequestFor(s, lead, id)
      case None => DialRaised
      case Some(req) =>
        match dial(req)
        case Some(sid) => Placed(sid)
        case None => DialRaised
  }

  /** The dict `get_recording_url` returns. */
  datatype RecordingLinks = RecordingLinks(url: string, directUrl: string, recordingSid: string, accountSid: string)

  const ApiAccounts := "api.twilio.com/2010-04-01/Accounts/"

  /** The media URL of a recording, without credentials. */
  function RecordingMediaUrl(accountSid: string, recordingSid: string): string {
    "https://" + ApiAccounts + accountSid + "/Recordings/" + recordingSid + "/Media"
  }

  /** `get_recording_url`: `None` unless both credentials are set. */
  function GetRecordingUrl(s: TwilioSettings, recordingSid: string): (r: Option<RecordingLinks>)
    ensures r.None? <==> (!Truthy(s.accountSid) || !Truthy(s.authToken))
    ensures r.Some? ==> r.value.directUrl == RecordingMediaUrl(s.accountSid.value, recordingSid)
    ensures r.Some? ==> r.value.recordingSid == recordingSid && r.value.accountSid == s.accountSid.value
    ensures r.Some? ==>
      r.value.url == "https://" + s.accountSid.value + ":" + s.authToken.value + "@" + ApiAccounts
                     + s.accountSid.value + "/Recordings/" + recordingSid + "/Media"
  {
    if !Truthy(s.accountSid) || !Truthy(s.authToken) then None
    else
      var sid := s.accountSid.value;
      Some(RecordingLinks(
        "https://" + sid + ":" + s.authToken.value + "@" + ApiAccounts + sid + "/Recordings/" + recordingSid + "/Media",
        RecordingMediaUrl(sid, recordingSid),
        recordingSid,
        sid))
  }
}
