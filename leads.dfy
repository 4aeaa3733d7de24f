/**
 * Lead intake from the CRM (GoHighLevel): the contact-to-lead mapping with
 * its recency cut-off, the fallback to the configured dummy leads, and the
 * filter that drops leads already called.  The HTTP request itself is an
 * input (`Fetch`), as are the clock and the ISO-8601 parser.
 */
module Leads {
  import opened Wrappers
  import opened Text

  /**
   * The value under one key of a JSON object as `.get` sees it: the key is
   * absent, holds `null`, or holds a text.
   */
  datatype Field = Absent | Null | Str(text: string)

  /** `d.get(key)`: Python's `None` for an absent key and for `null` alike. */
  function Got(f: Field): Option<string> {
    if f.Str? then Some(f.text) else None
  }

  /** `f"{d.get(key, default)}"`: the default for an absent key, `None` printed for `null`, else the text. */
  function Rendered(f: Field, default: string): string {
    match f
    case Absent => default
    case Null => "None"
    case Str(t) => t
  }

  /**
   * A lead dict.  A lead built from a CRM contact has every key
   * (ghl_integration.py:76-87); a configured dummy lead may lack any of them.
   */
  datatype Lead = Lead(
    id: Field,
    firstName: Field,
    lastName: Field,
    email: Field,
    phone: Field,
    companyName: Field,
    source: Field,
    createdAt: Option<string>,
    updatedAt: Option<string>)

  /** A CRM contact; `createdAt` and `updatedAt` are `None` when absent or `null`. */
  datatype Contact = Contact(
    id: Field,
    firstName: Field,
    lastName: Field,
    email: Field,
    phone: Field,
    companyName: Field,
    createdAt: Option<string>,
    updatedAt: Option<string>)

  /**
   * What `datetime.fromisoformat` makes of a timestamp: a naive time, or an
   * offset-aware one (any text carrying `Z` or `+hh:mm`).  Times are whole
   * seconds.
   */
  datatype ParsedTime = Naive(seconds: int) | Aware(seconds: int)

  /** The outcome of the contacts request. */
  datatype Fetch =
    | Raised                                   // requests.get or .json() raised
    | Answered(status: int, contacts: seq<Contact>)

  datatype GhlSettings = GhlSettings(apiKey: string, locationId: string, checkIntervalMinutes: int)

  /** The CRM credentials are set: both the API key and the location id are non-empty. */
  predicate IsConfigured(s: GhlSettings) {
    s.apiKey != "" && s.locationId != ""
  }

  /** `f"{d.get('firstName', '')} {d.get('lastName', '')}".strip()`, the display name used for a lead. */
  function DisplayName(first: Field, last: Field): string {
    Strip(Rendered(first, "") + " " + Rendered(last, ""))
  }

  /** Trimmed non-empty names are joined by exactly one space. */
  lemma DisplayNameOfTrimmed(first: string, last: string)
    requires first != [] && last != []
    requires !IsSpace(first[0]) && !IsSpace(last[|last| - 1])
    ensures DisplayName(Str(first), Str(last)) == first + " " + last
  {
    var s := first + " " + last;
    assert s[|s| - 1] == last[|last| - 1];
    assert RStrip(s) == s;
    assert s[0] == first[0];
    assert LStrip(s) == s;
  }

  /** A lead with neither name part, absent or empty, has the empty display name. */
  lemma DisplayNameOfNothing()
    ensures DisplayName(Absent, Absent) == "" && DisplayName(Str(""), Str("")) == ""
  {
    assert IsSpace(" "[0]);
    assert RStrip(" ") == RStrip("");
  }

  /** A `null` first name with no last name shows as `None`. */
  lemma DisplayNameOfNull()
    ensures DisplayName(Null, Absent) == "None"
  {
    var s := Rendered(Null, "") + " " + Rendered(Absent, "");
    assert s == "None ";
    assert !IsSpace(s[3]) && IsSpace(s[4]);
    assert SpaceRunStart(s, 4) == 4;
    assert SpaceRunStart(s, 5) == 4;
    assert s[..4] == "None";
    assert RStrip(s) == "None";
    assert !IsSpace("None"[0]);
    assert SpaceRunEnd("None", 0) == 0;
    assert LStrip("None") == "None"[0..];
  }

  /** `d.get(key, '')` copied into the lead: an absent key becomes `""`, anything else, `null` included, is kept. */
  predicate CopiedOrEmpty(copy: Field, original: Field) {
    !copy.Absent? && (original.Absent? ==> copy == Str("")) && (!original.Absent? ==> copy == original)
  }

  /** The per-contact mapping: every key is present, `id` is `null` unless the contact has a text id, the source is `"ghl"`. */
  function ToLead(c: Contact): (l: Lead)
    ensures l.source == Str("ghl")
    ensures !l.id.Absent? && Got(l.id) == Got(c.id)
    ensures CopiedOrEmpty(l.firstName, c.firstName) && CopiedOrEmpty(l.lastName, c.lastName)
    ensures CopiedOrEmpty(l.email, c.email) && CopiedOrEmpty(l.phone, c.phone)
    ensures CopiedOrEmpty(l.companyName, c.companyName)
    ensures l.createdAt == c.createdAt && l.updatedAt == c.updatedAt
  {
    var orEmpty := (f: Field) => if f.Absent? then Str("") else f;
    Lead(if c.id.Str? then c.id else Null, orEmpty(c.firstName), orEmpty(c.lastName), orEmpty(c.email),
         orEmpty(c.phone), orEmpty(c.companyName), Str("ghl"), c.createdAt, c.updatedAt)
  }

  /**
   * Whether a contact is skipped as too old.  Only a non-empty `createdAt`
   * that parses to a naive time earlier than the cut-off is skipped.  A
   * time with an offset cannot be compared with the naive `datetime.now()`;
   * the comparison raises and the bare `except` keeps the contact.
   */
  predicate TooOld(c: Contact, cutoff: int, parse: string -> Option<ParsedTime>) {
    c.createdAt.Some? && c.createdAt.value != "" &&
    match parse(c.createdAt.value)
    case Some(Naive(t)) => t < cutoff
    case _ => false
  }

  /** The leads built from the contacts that are not too old, in response order. */
  function RecentLeads(contacts: seq<Contact>, cutoff: int, parse: string -> Option<ParsedTime>): seq<Lead> {
    if contacts == [] then []
    else
      var rest := RecentLeads(contacts[1..], cutoff, parse);
      if TooOld(contacts[0], cutoff, parse) then rest else [ToLead(contacts[0])] + rest
  }

  /** The leads built from a list of contacts grow contact by contact. */
  lemma {:induction false} RecentLeadsSnoc(contacts: seq<Contact>, c: Contact, cutoff: int, parse: string -> Option<ParsedTime>)
    ensures RecentLeads(contacts + [c], cutoff, parse)
         == RecentLeads(contacts, cutoff, parse) + (if TooOld(c, cutoff, parse) then [] else [ToLead(c)])
    decreases |contacts|
  {
    if contacts == [] {
      assert [c][1..] == [];
    } else {
      assert (contacts + [c])[1..] == contacts[1..] + [c];
      RecentLeadsSnoc(contacts[1..], c, cutoff, parse);
    }
  }

  /** A lead comes out of the recency filter exactly when some contact that is not too old maps to it. */
  lemma {:induction false} RecentLeadsExact(contacts: seq<Contact>, cutoff: int, parse: string -> Option<ParsedTime>, l: Lead)
    ensures l in RecentLeads(contacts, cutoff, parse)
        <==> exists c :: c in contacts && !TooOld(c, cutoff, parse) && l == ToLead(c)
    ensures l in RecentLeads(contacts, cutoff, parse) ==> l.source == Str("ghl")
  {
    if contacts != [] {
      RecentLeadsExact(contacts[1..], cutoff, parse, l);
      var rest := contacts[1..];
      if exists c :: c in contacts && !TooOld(c, cutoff, parse) && l == ToLead(c) {
        var c :| c in contacts && !TooOld(c, cutoff, parse) && l == ToLead(c);
        if c != contacts[0] { assert c in rest; }
      }
    }
  }

  /** The cut-off of the recency filter: `check_interval` minutes before now, in seconds. */
  function Cutoff(now: int, checkIntervalMinutes: int): int {
    now - checkIntervalMinutes * 60
  }

  /**
   * What `get_leads` returns: the dummy leads when the credentials are
   * missing, the request raised or did not answer 200; otherwise the recent
   * contacts mapped to leads.
   */
  function LeadsFetched(settings: GhlSettings, dummy: seq<Lead>, fetch: Fetch, now: int,
                        parse: string -> Option<ParsedTime>): seq<Lead>
  {
    if !IsConfigured(settings) then dummy
    else match fetch
      case Raised => dummy
      case Answered(status, contacts) =>
        if status == 200 then RecentLeads(contacts, Cutoff(now, settings.checkIntervalMinutes), parse)
        else dummy
  }

  /** The dummy leads are the answer exactly when the CRM path cannot produce one. */
  lemma DummyFallback(settings: GhlSettings, dummy: seq<Lead>, fetch: Fetch, now: int,
                      parse: string -> Option<ParsedTime>)
    ensures (!IsConfigured(settings) || fetch.Raised? || fetch.status != 200)
        ==> LeadsFetched(settings, dummy, fetch, now, parse) == dummy
    ensures (IsConfigured(settings) && fetch.Answered? && fetch.status == 200)
        ==> forall l :: l in LeadsFetched(settings, dummy, fetch, now, parse) ==> l.source == Str("ghl")
  {
    if IsConfigured(settings) && fetch.Answered? && fetch.status == 200 {
      forall l | l in LeadsFetched(settings, dummy, fetch, now, parse) ensures l.source == Str("ghl") {
        RecentLeadsExact(fetch.contacts, Cutoff(now, settings.checkIntervalMinutes), parse, l);
      }
    }
  }

  /** `get_leads`: the contact loop appends one lead per contact that is not too old. */
  method GetLeads(settings: GhlSettings, dummy: seq<Lead>, fetch: Fetch, now: int,
                  parse: string -> Option<ParsedTime>) returns (leads: seq<Lead>)
    ensures leads == LeadsFetched(settings, dummy, fetch, now, parse)
  {
    if !IsConfigured(settings) {
      return dummy;
    }
    if fetch.Raised? || fetch.status != 200 {
      return dummy;
    }
    var contacts := fetch.contacts;
    var cutoff := Cutoff(now, settings.checkIntervalMinutes);
    leads := [];
    var i := 0;
    while i < |contacts|
      invariant 0 <= i <= |contacts|
      invariant leads == RecentLeads(contacts[..i], cutoff, parse)
    {
      var contact := contacts[i];
      assert contacts[..i + 1] == contacts[..i] + [contact];
      RecentLeadsSnoc(contacts[..i], contact, cutoff, parse);
      if TooOld(contact, cutoff, parse) {
        i := i + 1;
        continue;
      }
      leads := leads + [ToLead(contact)];
      i := i + 1;
    }
    assert contacts[..i] == contacts;
  }

  // ---------------------------------------------------------------------
  // filter_available_leads

  /**
   * `lead.get('id') not in called_lead_ids`.  The called ids are the rows of
   * the `called_leads` table, `None` for a `NULL`; a lead without a text id
   * looks up `None`.
   */
  predicate Available(l: Lead, called: seq<Option<string>>) {
    Got(l.id) !in called
  }

  function FilterAvailable(leads: seq<Lead>, called: seq<Option<string>>): (r: seq<Lead>)
    ensures |r| <= |leads|
    ensures forall l :: l in r ==> l in leads && Available(l, called)
    ensures forall l :: l in leads && Available(l, called) ==> l in r
  {
    if leads == [] then []
    else
      var rest := FilterAvailable(leads[1..], called);
      if Available(leads[0], called) then [leads[0]] + rest else rest
  }

  /** `s` is `t` with some elements left out, the rest in the same relative order. */
  ghost predicate IsSubsequence<T>(s: seq<T>, t: seq<T>) {
    if s == [] then true
    else if t == [] then false
    else (s[0] == t[0] && IsSubsequence(s[1..], t[1..])) || IsSubsequence(s, t[1..])
  }

  /** Filtering keeps the relative order of the leads it keeps. */
  lemma {:induction false} FilterIsSubsequence(leads: seq<Lead>, called: seq<Option<string>>)
    ensures IsSubsequence(FilterAvailable(leads, called), leads)
  {
    if leads != [] {
      FilterIsSubsequence(leads[1..], called);
      var r := FilterAvailable(leads, called);
      if Available(leads[0], called) {
        assert r[1..] == FilterAvailable(leads[1..], called);
      }
    }
  }

  /** Filtering keeps every copy of an available lead and no copy of the others. */
  lemma {:induction false} FilterCounts(leads: seq<Lead>, called: seq<Option<string>>, l: Lead)
    ensures multiset(FilterAvailable(leads, called))[l] == if Available(l, called) then multiset(leads)[l] else 0
  {
    if leads != [] {
      FilterCounts(leads[1..], called, l);
      assert leads == [leads[0]] + leads[1..];
    }
  }

  /** Filtering a concatenation filters each part. */
  lemma {:induction false} FilterAppend(a: seq<Lead>, b: seq<Lead>, called: seq<Option<string>>)
    ensures FilterAvailable(a + b, called) == FilterAvailable(a, called) + FilterAvailable(b, called)
  {
    if a == [] {
      assert a + b == b;
    } else {
      assert (a + b)[0] == a[0];
      assert (a + b)[1..] == a[1..] + b;
      FilterAppend(a[1..], b, called);
    }
  }

  /** Filtering twice with the same called set is filtering once. */
  lemma {:induction false} FilterIdempotent(leads: seq<Lead>, called: seq<Option<string>>)
    ensures FilterAvailable(FilterAvailable(leads, called), called) == FilterAvailable(leads, called)
  {
    if leads != [] {
      FilterIdempotent(leads[1..], called);
    }
  }

  /** With nobody called yet, every lead is available. */
  lemma {:induction false} FilterNothingCalled(leads: seq<Lead>)
    ensures FilterAvailable(leads, []) == leads
  {
    if leads != [] {
      FilterNothingCalled(leads[1..]);
    }
  }

  /** The head of the filtered list is the first available lead in fetched order. */
  lemma {:induction false} FirstAvailable(leads: seq<Lead>, called: seq<Option<string>>)
    ensures FilterAvailable(leads, called) == [] <==> forall i :: 0 <= i < |leads| ==> !Available(leads[i], called)
    ensures FilterAvailable(leads, called) != [] ==>
      exists i :: 0 <= i < |leads| && FilterAvailable(leads, called)[0] == leads[i]
        && Available(leads[i], called) && forall j :: 0 <= j < i ==> !Available(leads[j], called)
  {
    if leads != [] {
      FirstAvailable(leads[1..], called);
      if !Available(leads[0], called) && FilterAvailable(leads, called) != [] {
        var i :| 0 <= i < |leads| - 1 && FilterAvailable(leads[1..], called)[0] == leads[1..][i]
          && Available(leads[1..][i], called) && forall j :: 0 <= j < i ==> !Available(leads[1..][j], called);
        assert FilterAvailable(leads, called)[0] == leads[i + 1];
        forall j | 0 <= j < i + 1 ensures !Available(leads[j], called) {
          if j > 0 { assert leads[j] == leads[1..][j - 1]; }
        }
      }
    }
  }
}
