/**
 * Call placement and the lead monitor: the call id built from the clock and
 * the lead, the insertion of a placed call into both call tables, one tick of
 * the monitor loop (fetch, filter, call the first available lead) and the
 * lead name written with a call record.
 */
module App {
  import opened Wrappers
  import opened Leads
  import opened Text
  import Twilio
  import opened Calls
  import Conversation

  // ---------------------------------------------------------------------
  // The call id

  /** `f"call_{int(time.time())}_{lead.get('id', 'unknown')}"` for a clock reading `now`. */
  function CallId(now: nat, leadId: Field): string {
    "call_" + NatToString(now) + "_" + Rendered(leadId, "unknown")
  }

  /** In `c + "_" + d` with no `'_'` in `c`, the first `'_'` is the one after `c`. */
  lemma FirstUnderscore(c: string, d: string)
    ensures (c + "_" + d)[|c|] == '_'
    ensures '_' !in c ==> forall i :: 0 <= i < |c| ==> (c + "_" + d)[i] != '_'
  {
  }

  /** Of two texts each followed by `'_'`, one without `'_'` cannot be the longer. */
  lemma UnderscoreNotEarlier(a: string, b: string, c: string, d: string)
    requires '_' !in c
    requires a + "_" + b == c + "_" + d
    ensures |c| <= |a|
  {
    FirstUnderscore(a, b);
    FirstUnderscore(c, d);
  }

  /** Two texts without `'_'`, each followed by `'_'`, split the same way only when they are equal. */
  lemma SplitAtUnderscore(a: string, b: string, c: string, d: string)
    requires '_' !in a && '_' !in c
    requires a + "_" + b == c + "_" + d
    ensures a == c && b == d
  {
    UnderscoreNotEarlier(a, b, c, d);
    UnderscoreNotEarlier(c, d, a, b);
    var s := a + "_" + b;
    assert a == s[..|a|] && c == s[..|c|];
    assert b == s[|a| + 1..] && d == s[|c| + 1..];
  }

  /** The call id determines the clock second and the lead id text it was made from. */
  lemma CallIdInjective(now1: nat, id1: Field, now2: nat, id2: Field)
    requires CallId(now1, id1) == CallId(now2, id2)
    ensures now1 == now2 && Rendered(id1, "unknown") == Rendered(id2, "unknown")
  {
    var p := "call_";
    var t1, t2 := Rendered(id1, "unknown"), Rendered(id2, "unknown");
    var x := NatToString(now1) + "_" + t1;
    var y := NatToString(now2) + "_" + t2;
    assert CallId(now1, id1) == p + x && CallId(now2, id2) == p + y;
    assert x == (p + x)[|p|..] && y == (p + y)[|p|..];
    assert '_' !in NatToString(now1) && '_' !in NatToString(now2);
    SplitAtUnderscore(NatToString(now1), t1, NatToString(now2), t2);
    NatToStringInjective(now1, now2);
  }

  /**
   * Within one clock second, call ids differ exactly when the rendered lead
   * ids differ: a lead without an `id` key collides with a lead whose id is
   * the text `unknown`, and a `null` id with the text `None`.
   */
  lemma CallIdCollisions(now: nat)
    ensures CallId(now, Absent) == CallId(now, Str("unknown"))
    ensures CallId(now, Null) == CallId(now, Str("None"))
    ensures CallId(now, Absent) != CallId(now, Null)
  {
    assert |CallId(now, Absent)| == |CallId(now, Null)| + 3;
  }

  /** A call id starts with `call_` and the digits of the clock, and ends with `_` and the lead id text. */
  lemma CallIdShape(now: nat, leadId: Field)
    ensures var r := CallId(now, leadId);
      var t := Rendered(leadId, "unknown");
      |r| > 6 + |t| && r[..5] == "call_" && '0' <= r[5] <= '9'
      && r[|r| - |t| - 1..] == "_" + t
      && (leadId.Absent? ==> r[|r| - 8..] == "_unknown")
      && (leadId.Null? ==> r[|r| - 5..] == "_None")
      && (leadId.Str? ==> t == leadId.text)
  {
    var r := CallId(now, leadId);
    var t := Rendered(leadId, "unknown");
    assert r == "call_" + NatToString(now) + ("_" + t);
    assert r[5] == NatToString(now)[0];
  }

  // ---------------------------------------------------------------------
  // make_call

  /** The info dict of a call the provider has accepted. */
  function PlacedInfo(callId: string, callSid: string, lead: Lead, startedAt: string): (info: CallInfo)
    ensures info.callId == callId && info.callSid == Some(callSid) && info.leadInfo == Some(lead)
    ensures info.status == "initiated" && info.leadId.None?
  {
    CallInfo(callId, Some(callSid), None, Some(lead), startedAt, "initiated")
  }

  /**
   * The tables after `make_call`: the accepted call under its id in both
   * dictionaries; unchanged when there is no client (the bare `False` fails
   * to unpack and is caught) or the dial raised.
   */
  function AfterDial(t: Tables, s: Twilio.TwilioSettings, lead: Lead, now: nat, startedAt: string,
                     dial: Twilio.DialRequest -> Option<string>): Tables
  {
    var callId := CallId(now, lead.id);
    match Twilio.MakeCall(s, lead, callId, "", dial)
    case Placed(sid) => OpenEntry(t, callId, PlacedInfo(callId, sid, lead, startedAt))
    case _ => t
  }

  /**
   * A placed call appears in both dictionaries as the same info with status
   * `initiated`, the returned SID and the lead; every other call is as it
   * was; a call that was not placed changes nothing.
   */
  lemma AfterDialEffect(t: Tables, s: Twilio.TwilioSettings, lead: Lead, now: nat, startedAt: string,
                        dial: Twilio.DialRequest -> Option<string>, other: string)
    requires WellFormed(t)
    ensures var u := AfterDial(t, s, lead, now, startedAt, dial);
      var callId := CallId(now, lead.id);
      var req := Twilio.DialRequestFor(s, lead, callId);
      var placed := Twilio.HasClient(s) && req.Some? && dial(req.value).Some?;
      WellFormed(u)
      && (placed ==>
            callId in u.history && callId in u.active && u.history[callId] == u.active[callId]
            && u.history[callId] == PlacedInfo(callId, dial(req.value).value, lead, startedAt)
            && (other != callId && other in t.history ==> other in u.history && u.history[other] == t.history[other])
            && (other != callId ==> (other in u.active <==> other in t.active)))
      && (!placed ==> u == t)
  {
    var callId := CallId(now, lead.id);
    match Twilio.MakeCall(s, lead, callId, "", dial)
    case Placed(sid) => OpenKeepsWellFormed(t, callId, PlacedInfo(callId, sid, lead, startedAt));
    case _ =>
  }

  /**
   * `make_call`: the tables are updated as `AfterDial` says and `False` is
   * returned on every path, because after the insertion the lead-marking
   * step calls a method the CRM integration does not define and the
   * resulting error is caught.
   */
  method MakeCall(tables: CallTables, s: Twilio.TwilioSettings, lead: Lead, now: nat, startedAt: string,
                  dial: Twilio.DialRequest -> Option<string>) returns (success: bool)
    requires tables.Valid()
    modifies tables
    ensures tables.Valid()
    ensures !success
    ensures tables.State() == AfterDial(old(tables.State()), s, lead, now, startedAt, dial)
  {
    var callId := CallId(now, lead.id);
    var result := Twilio.MakeCall(s, lead, callId, "", dial);
    match result {
      case Placed(sid) =>
        tables.Open(callId, PlacedInfo(callId, sid, lead, startedAt));
        // The call record is saved to the database here; then marking the
        // lead as called raises and the handler returns False.
        success := false;
      case _ =>
        success := false;
    }
  }

  // ---------------------------------------------------------------------
  // One tick of the monitor

  /** The lead a tick calls: the head of the available leads, if any. */
  function PickLead(leads: seq<Lead>, called: seq<Option<string>>): Option<Lead> {
    var available := FilterAvailable(leads, called);
    if available == [] then None else Some(available[0])
  }

  /** The picked lead is the first available one in fetched order, and none is picked only when none is available. */
  lemma PickLeadFirst(leads: seq<Lead>, called: seq<Option<string>>)
    ensures PickLead(leads, called).None? <==> forall i :: 0 <= i < |leads| ==> !Available(leads[i], called)
    ensures PickLead(leads, called).Some? ==>
      exists i :: 0 <= i < |leads| && leads[i] == PickLead(leads, called).value
        && Available(leads[i], called) && forall j :: 0 <= j < i ==> !Available(leads[j], called)
  {
    FirstAvailable(leads, called);
  }

  /** With nothing called yet, a tick calls the first fetched lead. */
  lemma PickLeadNothingCalled(leads: seq<Lead>)
    ensures leads != [] ==> PickLead(leads, []) == Some(leads[0])
    ensures leads == [] ==> PickLead(leads, []).None?
  {
    FilterNothingCalled(leads);
  }

  /**
   * One pass of the monitor loop: fetch the leads, filter them against the
   * called ids read from the database, and dial the first available lead.
   * `clock` is the CRM cut-off's clock in seconds, `now` the epoch second
   * of the call id.  The tables change only through that one dial.
   */
  method MonitorTick(tables: CallTables, ghl: GhlSettings, dummy: seq<Lead>, fetch: Fetch, clock: int,
                     parse: string -> Option<ParsedTime>, called: seq<Option<string>>,
                     s: Twilio.TwilioSettings, now: nat, startedAt: string,
                     dial: Twilio.DialRequest -> Option<string>) returns (picked: Option<Lead>)
    requires tables.Valid()
    modifies tables
    ensures tables.Valid()
    ensures picked == PickLead(LeadsFetched(ghl, dummy, fetch, clock, parse), called)
    ensures picked.None? ==> tables.State() == old(tables.State())
    ensures picked.Some? ==> tables.State() == AfterDial(old(tables.State()), s, picked.value, now, startedAt, dial)
  {
    var leads := GetLeads(ghl, dummy, fetch, clock, parse);
    var available := FilterAvailable(leads, called);
    if available != [] {
      var lead := available[0];
      var success := MakeCall(tables, s, lead, now, startedAt, dial);
      picked := Some(lead);
    } else {
      picked := None;
    }
  }

  // ---------------------------------------------------------------------
  // save_call_record

  /** The `lead_name` column: the lead's display name, `""` for a call without lead info. */
  function RecordLeadName(info: CallInfo): (name: string)
    ensures info.leadInfo.None? ==> name == ""
    ensures info.leadInfo.Some? ==> name == DisplayName(info.leadInfo.value.firstName, info.leadInfo.value.lastName)
  {
    Conversation.LeadName(info.leadInfo)
  }

  /**
   * Names without surrounding blanks are recorded as first, one space, last;
   * a lead without names records `""`; a `null` first name with no last name
   * records `None`.
   */
  lemma RecordLeadNameCases(info: CallInfo, first: string, last: string)
    requires info.leadInfo.Some?
    ensures var l := info.leadInfo.value;
      ((l.firstName == Str(first) && l.lastName == Str(last) && first != [] && last != []
        && !IsSpace(first[0]) && !IsSpace(last[|last| - 1]))
         ==> RecordLeadName(info) == first + " " + last)
      && ((l.firstName == Str("") || l.firstName.Absent?) && (l.lastName == Str("") || l.lastName.Absent?)
         ==> RecordLeadName(info) == "")
      && (l.firstName.Null? && l.lastName.Absent? ==> RecordLeadName(info) == "None")
  {
    var l := info.leadInfo.value;
    if l.firstName == Str(first) && l.lastName == Str(last) && first != [] && last != []
       && !IsSpace(first[0]) && !IsSpace(last[|last| - 1]) {
      DisplayNameOfTrimmed(first, last);
    }
    DisplayNameOfNothing();
    DisplayNameOfNull();
  }
}
