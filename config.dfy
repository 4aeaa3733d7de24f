/**
 * Configuration loading: the settings read from `config.json` are merged
 * with the environment, field by field, with the environment taking
 * priority, then the literal default; the five credentials are then
 * required.  Also the dotted-path lookup of one setting and the webhook URL
 * helper.  Reading the file and the process environment is left to the
 * caller: the parsed file and the environment are parameters, and so are
 * Python's `int()` and `float()` on strings.
 */
module Config {
  import opened Wrappers
  import opened Text

  /**
   * A JSON value as `json.load` returns it.  A float is kept as the text
   * `str()` prints for it, which is all this module ever does with one.
   */
  datatype Json =
    | JNull
    | JBool(b: bool)
    | JInt(i: int)
    | JFloat(repr: string)
    | JStr(s: string)
    | JList(items: seq<Json>)
    | JObj(fields: map<string, Json>)

  /** Python's `int()` and `float()` on a string; `None` is the `ValueError`. A parsed float is given by its `str()`. */
  datatype Parsers = Parsers(toInt: string -> Option<int>, toFloat: string -> Option<string>)

  /** `int(str(n)) == n`, as Python's `int()` does on the decimal form of an integer. */
  ghost predicate ReadsDecimals(p: Parsers) {
    forall n: int {:trigger IntText(n)} :: p.toInt(IntText(n)) == Some(n)
  }

  /** Why loading fails: a section on a field's path is not a dict, a number does not parse, or credentials are missing. */
  datatype LoadError = NotADict | NotANumber(env: string) | MissingKeys(entries: seq<string>)

  // ---------------------------------------------------------------------
  // Walking a dotted path

  /** The value at `path`, walking dicts only; `None` as soon as a key is missing or the value is not a dict. */
  function Lookup(j: Json, path: seq<string>): Option<Json>
    decreases |path|
  {
    if path == [] then Some(j)
    else match j
      case JObj(m) => if path[0] in m then Lookup(m[path[0]], path[1..]) else None
      case _ => None
  }

  /**
   * The walk of `get_config_value` and `_validate_required_keys`: step
   * through the segments while the current value is a dict holding the
   * next one.
   */
  method Walk(config: Json, keys: seq<string>) returns (value: Option<Json>)
    ensures value == Lookup(config, keys)
  {
    var current := config;
    var i := 0;
    while i < |keys|
      invariant 0 <= i <= |keys|
      invariant Lookup(config, keys) == Lookup(current, keys[i..])
    {
      assert keys[i..][1..] == keys[i + 1..];
      if current.JObj? && keys[i] in current.fields {
        current := current.fields[keys[i]];
      } else {
        return None;
      }
      i := i + 1;
    }
    return Some(current);
  }

  /** Looking up a path in two steps is looking up the joined path. */
  lemma {:induction false} LookupAppend(j: Json, p: seq<string>, q: seq<string>)
    ensures Lookup(j, p + q) == match Lookup(j, p) case Some(v) => Lookup(v, q) case None => None
    decreases |p|
  {
    if p == [] {
      assert p + q == q;
    } else {
      assert (p + q)[0] == p[0] && (p + q)[1..] == p[1..] + q;
      if j.JObj? && p[0] in j.fields {
        LookupAppend(j.fields[p[0]], p[1..], q);
      }
    }
  }

  // ---------------------------------------------------------------------
  // One merged field

  /** How the chosen value is stored: as it is, through `int()`, as `.lower() == "true"`, through `float()`. */
  datatype Kind = AsIs | ToInt | ToBool | ToFloat

  /** One assignment of `_merge_with_env_vars`: where it writes, which variable overrides it, and its default. */
  datatype Field = Field(path: seq<string>, env: string, kind: Kind, default: Json)

  /**
   * `str(v)` for a value that `int()`, `float()` or the comparison with
   * `"true"` could accept; `None` for a list or a dict, whose bracketed
   * printed form none of them accepts.
   */
  function StrOf(j: Json): Option<string> {
    match j
    case JNull => Some("None")
    case JBool(b) => Some(if b then "True" else "False")
    case JInt(n) => Some(IntText(n))
    case JFloat(r) => Some(r)
    case JStr(s) => Some(s)
    case _ => None
  }

  /** `os.getenv(env, existing-or-default)`: the variable when it is set, even to `""`. */
  function Chosen(f: Field, env: map<string, string>, existing: Option<Json>): (v: Json)
    ensures f.env in env ==> v == JStr(env[f.env])
    ensures f.env !in env && existing.Some? ==> v == existing.value
    ensures f.env !in env && existing.None? ==> v == f.default
  {
    if f.env in env then JStr(env[f.env]) else existing.GetOr(f.default)
  }

  /** The value stored for a field, given what the path held before. */
  function Converted(f: Field, env: map<string, string>, existing: Option<Json>, p: Parsers): Result<Json, LoadError> {
    var v := Chosen(f, env, existing);
    match f.kind
    case AsIs => Ok(v)
    case ToBool => Ok(JBool(StrOf(v).Some? && Lower(StrOf(v).value) == "true"))
    case ToInt =>
      if StrOf(v).Some? && p.toInt(StrOf(v).value).Some? then Ok(JInt(p.toInt(StrOf(v).value).value))
      else Err(NotANumber(f.env))
    case ToFloat =>
      if StrOf(v).Some? && p.toFloat(StrOf(v).value).Some? then Ok(JFloat(p.toFloat(StrOf(v).value).value))
      else Err(NotANumber(f.env))
  }

  /**
   * The assignment of one field at `rest` below `j`: each section on the way
   * is created as `{}` when it is absent, and one that is not a dict makes
   * the `.get` raise.
   */
  function MergeAt(j: Json, rest: seq<string>, f: Field, env: map<string, string>, p: Parsers): Result<Json, LoadError>
    requires |rest| >= 1
    decreases |rest|
  {
    if !j.JObj? then Err(NotADict)
    else
      var m := j.fields;
      if |rest| == 1 then
        (match Converted(f, env, if rest[0] in m then Some(m[rest[0]]) else None, p)
         case Ok(v) => Ok(JObj(m[rest[0] := v]))
         case Err(e) => Err(e))
      else
        var section := if rest[0] in m then m[rest[0]] else JObj(map[]);
        (match MergeAt(section, rest[1..], f, env, p)
         case Ok(s) => Ok(JObj(m[rest[0] := s]))
         case Err(e) => Err(e))
  }

  /** Every section along `path` is absent or a dict, starting with `j` itself. */
  ghost predicate Opens(j: Json, path: seq<string>)
    decreases |path|
  {
    j.JObj? && (|path| > 1 ==> path[0] !in j.fields || Opens(j.fields[path[0]], path[1..]))
  }

  /** Neither path is a prefix of the other. */
  predicate Apart(a: seq<string>, b: seq<string>) {
    exists k :: 0 <= k < |a| && k < |b| && a[k] != b[k]
  }

  /** Merging one field succeeds exactly when the sections on the way open and the value converts, and then stores that value. */
  lemma {:induction false} MergeAtStores(j: Json, rest: seq<string>, f: Field, env: map<string, string>, p: Parsers)
    requires |rest| >= 1
    decreases |rest|
    ensures MergeAt(j, rest, f, env, p).Ok? <==> Opens(j, rest) && Converted(f, env, Lookup(j, rest), p).Ok?
    ensures MergeAt(j, rest, f, env, p).Ok? ==>
      Lookup(MergeAt(j, rest, f, env, p).value, rest) == Some(Converted(f, env, Lookup(j, rest), p).value)
  {
    if j.JObj? && |rest| > 1 {
      var m := j.fields;
      var section := if rest[0] in m then m[rest[0]] else JObj(map[]);
      assert Lookup(JObj(map[]), rest[1..]) == None;
      MergeAtStores(section, rest[1..], f, env, p);
    }
  }

  /** Merging one field leaves every path apart from its own as it was. */
  lemma {:induction false} MergeAtFrame(j: Json, rest: seq<string>, f: Field, env: map<string, string>, p: Parsers, q: seq<string>)
    requires |rest| >= 1
    decreases |rest|
    ensures MergeAt(j, rest, f, env, p).Ok? && Apart(rest, q) ==>
      Lookup(MergeAt(j, rest, f, env, p).value, q) == Lookup(j, q)
    ensures MergeAt(j, rest, f, env, p).Ok? && Apart(rest, q) ==>
      (Opens(MergeAt(j, rest, f, env, p).value, q) <==> Opens(j, q))
  {
    if j.JObj? && MergeAt(j, rest, f, env, p).Ok? && Apart(rest, q) {
      var m := j.fields;
      if |rest| > 1 {
        var section := if rest[0] in m then m[rest[0]] else JObj(map[]);
        var empty := JObj(map[]);
        var k :| 0 <= k < |rest| && k < |q| && rest[k] != q[k];
        if q[0] == rest[0] {
          assert 0 < k && rest[1..][k - 1] != q[1..][k - 1];
          assert Apart(rest[1..], q[1..]);
          MergeAtFrame(section, rest[1..], f, env, p, q[1..]);
          if rest[0] !in m {
            assert Lookup(empty, q[1..]) == None;
            assert Opens(empty, q[1..]);
          }
        }
      } else {
        assert q[0] != rest[0];
      }
    }
  }

  // ---------------------------------------------------------------------
  // Merging a list of fields

  /** The assignments one after the other; the first failure is the result. */
  function MergeAll(j: Json, fields: seq<Field>, env: map<string, string>, p: Parsers): Result<Json, LoadError>
    requires forall i :: 0 <= i < |fields| ==> |fields[i].path| >= 1
    decreases |fields|
  {
    if fields == [] then Ok(j)
    else match MergeAt(j, fields[0].path, fields[0], env, p)
      case Ok(j1) => MergeAll(j1, fields[1..], env, p)
      case Err(e) => Err(e)
  }

  /** Every field's path is non-empty and apart from every later field's path. */
  ghost predicate ApartList(fields: seq<Field>) {
    (forall i :: 0 <= i < |fields| ==> |fields[i].path| >= 1)
    && forall i, k :: 0 <= i < k < |fields| ==> Apart(fields[i].path, fields[k].path)
  }

  /** Merging fields whose paths are all apart from `q` leaves the value at `q`, and whether `q` opens, as they were. */
  lemma {:induction false} MergeAllFrame(j: Json, fields: seq<Field>, env: map<string, string>, p: Parsers, q: seq<string>)
    requires forall i :: 0 <= i < |fields| ==> |fields[i].path| >= 1 && Apart(fields[i].path, q)
    requires MergeAll(j, fields, env, p).Ok?
    ensures Lookup(MergeAll(j, fields, env, p).value, q) == Lookup(j, q)
    decreases |fields|
  {
    if fields != [] {
      MergeAtStores(j, fields[0].path, fields[0], env, p);
      MergeAtFrame(j, fields[0].path, fields[0], env, p, q);
      var j1 := MergeAt(j, fields[0].path, fields[0], env, p).value;
      MergeAllFrame(j1, fields[1..], env, p, q);
    }
  }

  /**
   * For fields whose paths are apart, the merge succeeds exactly when every
   * section on every path is absent or a dict and every value converts; it
   * then stores at each path the converted value of what the ORIGINAL
   * configuration held there: the variable if set, else the file's value,
   * else the default.
   */
  lemma {:induction false} MergeAllEffect(j: Json, fields: seq<Field>, env: map<string, string>, p: Parsers)
    requires ApartList(fields)
    decreases |fields|
    ensures MergeAll(j, fields, env, p).Ok? <==>
      forall i :: 0 <= i < |fields| ==>
        Opens(j, fields[i].path) && Converted(fields[i], env, Lookup(j, fields[i].path), p).Ok?
    ensures MergeAll(j, fields, env, p).Ok? ==>
      forall i :: 0 <= i < |fields| ==>
        Lookup(MergeAll(j, fields, env, p).value, fields[i].path)
          == Some(Converted(fields[i], env, Lookup(j, fields[i].path), p).value)
  {
    if fields != [] {
      var f := fields[0];
      var rest := fields[1..];
      MergeAtStores(j, f.path, f, env, p);
      if MergeAt(j, f.path, f, env, p).Ok? {
        var j1 := MergeAt(j, f.path, f, env, p).value;
        forall i | 1 <= i < |fields|
          ensures Lookup(j1, fields[i].path) == Lookup(j, fields[i].path)
          ensures Opens(j1, fields[i].path) <==> Opens(j, fields[i].path)
        {
          MergeAtFrame(j, f.path, f, env, p, fields[i].path);
        }
        assert ApartList(rest) by {
          forall i, k | 0 <= i < k < |rest| ensures Apart(rest[i].path, rest[k].path) {
            assert rest[i] == fields[i + 1] && rest[k] == fields[k + 1];
          }
        }
        MergeAllEffect(j1, rest, env, p);
        if MergeAll(j, fields, env, p).Ok? {
          forall i | 1 <= i < |fields| ensures Apart(fields[i].path, f.path) {
            var k :| 0 <= k < |f.path| && k < |fields[i].path| && f.path[k] != fields[i].path[k];
          }
          MergeAllFrame(j1, rest, env, p, f.path);
          forall i | 0 <= i < |fields|
            ensures Lookup(MergeAll(j, fields, env, p).value, fields[i].path)
              == Some(Converted(fields[i], env, Lookup(j, fields[i].path), p).value)
          {
            if i > 0 {
              assert fields[i] == rest[i - 1];
            }
          }
        } else {
          var i :| 0 <= i < |rest| && !(Opens(j1, rest[i].path) && Converted(rest[i], env, Lookup(j1, rest[i].path), p).Ok?);
          assert rest[i] == fields[i + 1];
        }
      }
    }
  }

  // ---------------------------------------------------------------------
  // The fields of the source, section by section

  /** One assignment within a section: key, overriding variable, conversion and default. */
  datatype Setting = Setting(key: string, env: string, kind: Kind, default: Json)

  /** A dict of the configuration (`[]` is the top level) and the settings assigned in it, in order. */
  datatype Section = Section(path: seq<string>, settings: seq<Setting>)

  function FieldOf(path: seq<string>, s: Setting): Field {
    Field(path + [s.key], s.env, s.kind, s.default)
  }

  function FieldsOf(sec: Section): (fields: seq<Field>)
    ensures |fields| == |sec.settings|
    ensures forall i :: 0 <= i < |fields| ==> fields[i] == FieldOf(sec.path, sec.settings[i])
  {
    seq(|sec.settings|, i requires 0 <= i < |sec.settings| => FieldOf(sec.path, sec.settings[i]))
  }

  function Flatten(sections: seq<Section>): (fields: seq<Field>)
    ensures forall i :: 0 <= i < |fields| ==> |fields[i].path| >= 1
  {
    if sections == [] then [] else FieldsOf(sections[0]) + Flatten(sections[1..])
  }

  const GhlSettings := [
    Setting("api_key", "GHL_API_KEY", AsIs, JStr("")),
    Setting("location_id", "GHL_LOCATION_ID", AsIs, JStr("")),
    Setting("check_interval_minutes", "LEAD_CHECK_INTERVAL_MINUTES", ToInt, JInt(10)),
    Setting("auto_call_enabled", "AUTO_CALL_ENABLED", ToBool, JBool(true)),
    Setting("leads_hours_limit", "LEADS_HOURS_LIMIT", ToInt, JInt(24))
  ]

  const OpenAiSettings := [
    Setting("api_key", "OPENAI_API_KEY", AsIs, JStr(""))
  ]

  const TwilioSettings := [
    Setting("account_sid", "TWILIO_ACCOUNT_SID", AsIs, JStr("")),
    Setting("auth_token", "TWILIO_AUTH_TOKEN", AsIs, JStr("")),
    Setting("phone_number", "TWILIO_PHONE_NUMBER", AsIs, JStr(""))
  ]

  const TopSettings := [
    Setting("webhook_base_url", "WEBHOOK_BASE_URL", AsIs, JStr("http://localhost:5000"))
  ]

  const CallSettings := [
    Setting("max_call_duration", "MAX_CALL_DURATION", ToInt, JInt(300)),
    Setting("retry_attempts", "RETRY_ATTEMPTS", ToInt, JInt(2)),
    Setting("call_delay_minutes", "CALL_DELAY_MINUTES", ToInt, JInt(5)),
    Setting("lead_check_interval_minutes", "LEAD_CHECK_INTERVAL_MINUTES", ToInt, JInt(10))
  ]

  const BusinessHoursSettings := [
    Setting("start", "BUSINESS_HOURS_START", AsIs, JStr("00:00")),
    Setting("end", "BUSINESS_HOURS_END", AsIs, JStr("23:59")),
    Setting("timezone", "BUSINESS_HOURS_TIMEZONE", AsIs, JStr("America/New_York"))
  ]

  const VoiceSettings := [
    Setting("voice", "VOICE_TYPE", AsIs, JStr("en-US-Neural2-F")),
    Setting("speech_rate", "SPEECH_RATE", AsIs, JStr("1.0")),
    Setting("pitch", "VOICE_PITCH", AsIs, JStr("1.0")),
    Setting("volume", "VOICE_VOLUME", AsIs, JStr("1.0")),
    Setting("gender", "VOICE_GENDER", AsIs, JStr("female"))
  ]

  const ConversationSettings := [
    Setting("speech_timeout", "SPEECH_TIMEOUT", AsIs, JStr("auto")),
    Setting("gather_timeout", "GATHER_TIMEOUT", ToInt, JInt(5)),
    Setting("language", "CONVERSATION_LANGUAGE", AsIs, JStr("en-US")),
    Setting("speech_model", "SPEECH_MODEL", AsIs, JStr("phone_call")),
    Setting("interruption_threshold", "INTERRUPTION_THRESHOLD", ToFloat, JFloat("0.5")),
    Setting("speech_timeout_seconds", "SPEECH_TIMEOUT_SECONDS", ToFloat, JFloat("1.5"))
  ]

  const AiSettings := [
    Setting("model", "AI_MODEL", AsIs, JStr("gpt-4")),
    Setting("max_tokens", "AI_MAX_TOKENS", ToInt, JInt(150)),
    Setting("temperature", "AI_TEMPERATURE", ToFloat, JFloat("0.7")),
    Setting("conversation_memory_turns", "AI_CONVERSATION_MEMORY_TURNS", ToInt, JInt(5)),
    Setting("personality", "AI_PERSONALITY", AsIs, JStr("professional_friendly")),
    Setting("agent_name", "AI_AGENT_NAME", AsIs, JStr("Maayaa")),
    Setting("company_name", "AI_COMPANY_NAME", AsIs, JStr("LoanCater")),
    Setting("contact_person", "AI_CONTACT_PERSON", AsIs, JStr("Ryan")),
    Setting("contact_email", "AI_CONTACT_EMAIL", AsIs, JStr("ryan@loancater.com"))
  ]

  /** The sections in the order `_merge_with_env_vars` fills them. */
  const Sections := [
    Section(["ghl"], GhlSettings),
    Section(["openai"], OpenAiSettings),
    Section(["twilio"], TwilioSettings),
    Section([], TopSettings),
    Section(["call_settings"], CallSettings),
    Section(["call_settings", "business_hours"], BusinessHoursSettings),
    Section(["call_settings", "voice_settings"], VoiceSettings),
    Section(["call_settings", "conversation_settings"], ConversationSettings),
    Section(["ai_settings"], AiSettings)
  ]

  /** Every assignment of `_merge_with_env_vars`, in order. */
  function Fields(): (fields: seq<Field>)
    ensures forall i :: 0 <= i < |fields| ==> |fields[i].path| >= 1
  {
    Flatten(Sections)
  }

  // ---------------------------------------------------------------------
  // The paths of the fields do not overlap

  /** The keys of a section are pairwise different. */
  ghost predicate KeysDistinct(sec: Section) {
    forall i, k :: 0 <= i < k < |sec.settings| ==> sec.settings[i].key != sec.settings[k].key
  }

  /** No setting of `sec` is called `name`. */
  ghost predicate NoKey(sec: Section, name: string) {
    forall i :: 0 <= i < |sec.settings| ==> sec.settings[i].key != name
  }

  predicate DifferAt(a: seq<string>, b: seq<string>, k: nat) {
    k < |a| && k < |b| && a[k] != b[k]
  }

  /**
   * The fields of `s` cannot overlap those of `t`: the section paths differ
   * in one of their first two segments, or one is a dict enclosing the
   * other without a setting of the name of the next segment towards it.
   */
  ghost predicate SectionsApart(s: Section, t: Section) {
    DifferAt(s.path, t.path, 0) || DifferAt(s.path, t.path, 1)
    || (|s.path| < |t.path| && t.path[..|s.path|] == s.path && NoKey(s, t.path[|s.path|]))
    || (|t.path| < |s.path| && s.path[..|t.path|] == t.path && NoKey(t, s.path[|t.path|]))
  }

  lemma SectionFieldsApart(sec: Section)
    requires KeysDistinct(sec)
    ensures ApartList(FieldsOf(sec))
  {
    var fields := FieldsOf(sec);
    forall i, k | 0 <= i < k < |fields| ensures Apart(fields[i].path, fields[k].path) {
      var n := |sec.path|;
      assert fields[i].path[n] == sec.settings[i].key && fields[k].path[n] == sec.settings[k].key;
    }
  }

  lemma CrossSectionsApart(s: Section, t: Section)
    requires SectionsApart(s, t)
    ensures forall a, b :: a in FieldsOf(s) && b in FieldsOf(t) ==> Apart(a.path, b.path)
  {
    forall a, b | a in FieldsOf(s) && b in FieldsOf(t) ensures Apart(a.path, b.path) {
      var i :| 0 <= i < |s.settings| && a == FieldOf(s.path, s.settings[i]);
      var k :| 0 <= k < |t.settings| && b == FieldOf(t.path, t.settings[k]);
      if DifferAt(s.path, t.path, 0) {
        assert a.path[0] == s.path[0] && b.path[0] == t.path[0];
      } else if DifferAt(s.path, t.path, 1) {
        assert a.path[1] == s.path[1] && b.path[1] == t.path[1];
      } else if |s.path| < |t.path| && t.path[..|s.path|] == s.path && NoKey(s, t.path[|s.path|]) {
        var n := |s.path|;
        assert a.path[n] == s.settings[i].key && b.path[n] == t.path[n];
      } else {
        var n := |t.path|;
        assert b.path[n] == t.settings[k].key && a.path[n] == s.path[n];
      }
    }
  }

  /** A flattened field comes from one of the sections. */
  lemma {:induction false} InFlatten(sections: seq<Section>, f: Field)
    requires f in Flatten(sections)
    ensures exists m :: 0 <= m < |sections| && f in FieldsOf(sections[m])
  {
    if f !in FieldsOf(sections[0]) {
      InFlatten(sections[1..], f);
      var m :| 0 <= m < |sections| - 1 && f in FieldsOf(sections[1..][m]);
      assert sections[1..][m] == sections[m + 1];
    }
  }

  lemma ApartListAppend(a: seq<Field>, b: seq<Field>)
    requires ApartList(a) && ApartList(b)
    requires forall x, y :: x in a && y in b ==> Apart(x.path, y.path)
    ensures ApartList(a + b)
  {
    var c := a + b;
    forall i, k | 0 <= i < k < |c| ensures Apart(c[i].path, c[k].path) {
      if k < |a| {
        assert c[i] == a[i] && c[k] == a[k];
      } else if i < |a| {
        assert c[i] == a[i] && c[k] == b[k - |a|];
      } else {
        assert c[i] == b[i - |a|] && c[k] == b[k - |a|];
      }
    }
  }

  /** Sections with distinct keys that are pairwise apart give fields whose paths are pairwise apart. */
  lemma {:induction false} FlattenApart(sections: seq<Section>)
    requires forall i :: 0 <= i < |sections| ==> KeysDistinct(sections[i])
    requires forall i, k :: 0 <= i < k < |sections| ==> SectionsApart(sections[i], sections[k])
    ensures ApartList(Flatten(sections))
  {
    if sections != [] {
      var rest := sections[1..];
      forall i, k | 0 <= i < k < |rest| ensures SectionsApart(rest[i], rest[k]) {
        assert rest[i] == sections[i + 1] && rest[k] == sections[k + 1];
      }
      FlattenApart(rest);
      SectionFieldsApart(sections[0]);
      forall x, y | x in FieldsOf(sections[0]) && y in Flatten(rest) ensures Apart(x.path, y.path) {
        InFlatten(rest, y);
        var m :| 0 <= m < |rest| && y in FieldsOf(rest[m]);
        assert rest[m] == sections[m + 1];
        CrossSectionsApart(sections[0], sections[m + 1]);
      }
      ApartListAppend(FieldsOf(sections[0]), Flatten(rest));
    }
  }

  lemma GhlKeysDistinct()
    ensures KeysDistinct(Section(["ghl"], GhlSettings))
  {
  }

  lemma TwilioKeysDistinct()
    ensures KeysDistinct(Section(["twilio"], TwilioSettings))
  {
  }

  lemma CallKeysDistinct()
    ensures KeysDistinct(Section(["call_settings"], CallSettings))
  {
  }

  lemma BusinessHoursKeysDistinct()
    ensures KeysDistinct(Section(["call_settings", "business_hours"], BusinessHoursSettings))
  {
  }

  lemma VoiceKeysDistinct()
    ensures KeysDistinct(Section(["call_settings", "voice_settings"], VoiceSettings))
  {
  }

  lemma ConversationKeysDistinct()
    ensures KeysDistinct(Section(["call_settings", "conversation_settings"], ConversationSettings))
  {
  }

  lemma AiKeysDistinct()
    ensures KeysDistinct(Section(["ai_settings"], AiSettings))
  {
  }

  lemma SectionKeysDistinct()
    ensures forall i :: 0 <= i < |Sections| ==> KeysDistinct(Sections[i])
  {
    GhlKeysDistinct();
    TwilioKeysDistinct();
    CallKeysDistinct();
    BusinessHoursKeysDistinct();
    VoiceKeysDistinct();
    ConversationKeysDistinct();
    AiKeysDistinct();
  }

  /** The top level has no setting named after a section, and `call_settings` none named after its inner dicts. */
  lemma NoKeyClashes()
    ensures forall name :: name in ["ghl", "openai", "twilio", "call_settings", "ai_settings"] ==> NoKey(Section([], TopSettings), name)
    ensures forall name :: name in ["business_hours", "voice_settings", "conversation_settings"] ==> NoKey(Section(["call_settings"], CallSettings), name)
  {
  }

  lemma SectionsPairwiseApart()
    ensures forall i, k :: 0 <= i < k < |Sections| ==> SectionsApart(Sections[i], Sections[k])
  {
    NoKeyClashes();
  }

  /** No two assignments of `_merge_with_env_vars` write overlapping paths. */
  lemma FieldsApart()
    ensures ApartList(Fields())
  {
    SectionKeysDistinct();
    SectionsPairwiseApart();
    FlattenApart(Sections);
  }

  /** A field of one of the sections is one of the flattened fields. */
  lemma {:induction false} FlattenHas(sections: seq<Section>, m: nat, f: Field)
    requires m < |sections| && f in FieldsOf(sections[m])
    ensures f in Flatten(sections)
  {
    if m > 0 {
      assert sections[1..][m - 1] == sections[m];
      FlattenHas(sections[1..], m - 1, f);
    }
  }

  // ---------------------------------------------------------------------
  // _merge_with_env_vars

  /** `_merge_with_env_vars`: the assignments in order; the first one that raises ends the merge. */
  method MergeWithEnvVars(config: Json, env: map<string, string>, p: Parsers) returns (r: Result<Json, LoadError>)
    ensures r == MergeAll(config, Fields(), env, p)
  {
    FieldsApart();
    var fields := Fields();
    var current := config;
    var i := 0;
    while i < |fields|
      invariant 0 <= i <= |fields|
      invariant MergeAll(config, fields, env, p) == MergeAll(current, fields[i..], env, p)
    {
      assert fields[i..][0] == fields[i] && fields[i..][1..] == fields[i + 1..];
      var next := MergeAt(current, fields[i].path, fields[i], env, p);
      if next.Err? {
        return next;
      }
      current := next.value;
      i := i + 1;
    }
    return Ok(current);
  }

  /**
   * The merge of the source's fields: it succeeds exactly when every section
   * on the way is absent or a dict and every value converts, and then each
   * field holds the environment variable when it is set, else the file's
   * value, else the default, converted as the field says; so every section
   * and every key exists afterwards.
   */
  lemma MergeEffect(config: Json, env: map<string, string>, p: Parsers)
    ensures MergeAll(config, Fields(), env, p).Ok? <==>
      forall f :: f in Fields() ==> Opens(config, f.path) && Converted(f, env, Lookup(config, f.path), p).Ok?
    ensures MergeAll(config, Fields(), env, p).Ok? ==>
      forall f :: f in Fields() ==>
        Lookup(MergeAll(config, Fields(), env, p).value, f.path) == Some(Converted(f, env, Lookup(config, f.path), p).value)
  {
    FieldsApart();
    MergeAllEffect(config, Fields(), env, p);
  }

  /** The setting `i` of section `m` is one of the merged fields. */
  lemma SettingIsField(m: nat, i: nat)
    requires m < |Sections| && i < |Sections[m].settings|
    ensures FieldOf(Sections[m].path, Sections[m].settings[i]) in Fields()
  {
    assert FieldOf(Sections[m].path, Sections[m].settings[i]) == FieldsOf(Sections[m])[i];
    FlattenHas(Sections, m, FieldsOf(Sections[m])[i]);
  }

  /** A field of an apart list, after a successful merge, holds its converted value. */
  lemma FieldMerged(config: Json, fields: seq<Field>, env: map<string, string>, p: Parsers, f: Field)
    requires ApartList(fields) && f in fields
    requires MergeAll(config, fields, env, p).Ok?
    ensures Converted(f, env, Lookup(config, f.path), p).Ok?
    ensures Lookup(MergeAll(config, fields, env, p).value, f.path) == Some(Converted(f, env, Lookup(config, f.path), p).value)
  {
    MergeAllEffect(config, fields, env, p);
    var i :| 0 <= i < |fields| && fields[i] == f;
  }

  /** The two assignments read from `LEAD_CHECK_INTERVAL_MINUTES`. */
  lemma CheckIntervalFields()
    ensures GhlInterval in Fields() && CallInterval in Fields()
  {
    SettingIsField(0, 2);
    SettingIsField(4, 3);
    assert FieldOf(Sections[0].path, Sections[0].settings[2]) == GhlInterval;
    assert FieldOf(Sections[4].path, Sections[4].settings[3]) == CallInterval;
  }

  const GhlInterval := Field(["ghl", "check_interval_minutes"], "LEAD_CHECK_INTERVAL_MINUTES", ToInt, JInt(10))
  const CallInterval := Field(["call_settings", "lead_check_interval_minutes"], "LEAD_CHECK_INTERVAL_MINUTES", ToInt, JInt(10))

  /** Two fields read from one variable both hold its parsed value after a successful merge. */
  lemma SharedVariable(config: Json, fields: seq<Field>, env: map<string, string>, p: Parsers, f: Field, g: Field)
    requires ApartList(fields) && f in fields && g in fields
    requires f.kind == ToInt && g.kind == ToInt && f.env == g.env && f.env in env
    requires MergeAll(config, fields, env, p).Ok?
    ensures var c := MergeAll(config, fields, env, p).value;
      var n := p.toInt(env[f.env]);
      n.Some? && Lookup(c, f.path) == Some(JInt(n.value)) && Lookup(c, g.path) == Some(JInt(n.value))
  {
    FieldMerged(config, fields, env, p, f);
    FieldMerged(config, fields, env, p, g);
  }

  /** `LEAD_CHECK_INTERVAL_MINUTES` sets both the CRM polling interval and the call settings' copy of it. */
  lemma LeadCheckIntervalFeedsBoth(config: Json, env: map<string, string>, p: Parsers)
    requires "LEAD_CHECK_INTERVAL_MINUTES" in env
    requires MergeAll(config, Fields(), env, p).Ok?
    ensures var c := MergeAll(config, Fields(), env, p).value;
      var n := p.toInt(env["LEAD_CHECK_INTERVAL_MINUTES"]);
      n.Some?
      && Lookup(c, ["ghl", "check_interval_minutes"]) == Some(JInt(n.value))
      && Lookup(c, ["call_settings", "lead_check_interval_minutes"]) == Some(JInt(n.value))
  {
    CheckIntervalFields();
    FieldsApart();
    SharedVariable(config, Fields(), env, p, GhlInterval, CallInterval);
  }

  const AutoCall := Field(["ghl", "auto_call_enabled"], "AUTO_CALL_ENABLED", ToBool, JBool(true))

  lemma AutoCallField()
    ensures AutoCall in Fields()
  {
    SettingIsField(0, 3);
    assert FieldOf(Sections[0].path, Sections[0].settings[3]) == AutoCall;
  }

  /** A flag field holds whether the chosen value's text, lower-cased, is `"true"`. */
  lemma FlagMerged(config: Json, fields: seq<Field>, env: map<string, string>, p: Parsers, f: Field)
    requires ApartList(fields) && f in fields && f.kind == ToBool
    requires MergeAll(config, fields, env, p).Ok?
    ensures var c := MergeAll(config, fields, env, p).value;
      var chosen := if f.env in env then JStr(env[f.env]) else Lookup(config, f.path).GetOr(f.default);
      Lookup(c, f.path) == Some(JBool(StrOf(chosen).Some? && Lower(StrOf(chosen).value) == "true"))
  {
    FieldMerged(config, fields, env, p, f);
  }

  /** `auto_call_enabled` is true exactly when the chosen text, lower-cased, is `"true"`. */
  lemma AutoCallRule(config: Json, env: map<string, string>, p: Parsers)
    requires MergeAll(config, Fields(), env, p).Ok?
    ensures var c := MergeAll(config, Fields(), env, p).value;
      var path := ["ghl", "auto_call_enabled"];
      var chosen := if "AUTO_CALL_ENABLED" in env then JStr(env["AUTO_CALL_ENABLED"]) else Lookup(config, path).GetOr(JBool(true));
      Lookup(c, path) == Some(JBool(StrOf(chosen).Some? && Lower(StrOf(chosen).value) == "true"))
  {
    AutoCallField();
    FieldsApart();
    FlagMerged(config, Fields(), env, p, AutoCall);
  }

  /** With neither the variable nor a file value, the default `True` prints as `"True"` and turns auto-calling on. */
  lemma AutoCallDefault(config: Json, env: map<string, string>, p: Parsers)
    requires MergeAll(config, Fields(), env, p).Ok?
    requires "AUTO_CALL_ENABLED" !in env && Lookup(config, ["ghl", "auto_call_enabled"]).None?
    ensures Lookup(MergeAll(config, Fields(), env, p).value, ["ghl", "auto_call_enabled"]) == Some(JBool(true))
  {
    AutoCallRule(config, env, p);
    LowerTrue();
  }

  lemma LowerTrue()
    ensures Lower("True") == "true" && Lower("False") != "true"
  {
    assert Lower("True") == "true";
    assert Lower("False")[0] == 'f';
  }

  /** The conversions the defaults need: decimals through `int()` and the three default floats through `float()`. */
  ghost predicate HandlesDefaults(p: Parsers) {
    ReadsDecimals(p) && forall r :: r in ["0.5", "1.5", "0.7"] ==> p.toFloat(r) == Some(r)
  }

  /** A default of the kind its conversion turns it back into. */
  ghost predicate DefaultFits(kind: Kind, default: Json) {
    match kind
    case AsIs => true
    case ToInt => default.JInt?
    case ToBool => default.JBool?
    case ToFloat => default.JFloat? && default.repr in ["0.5", "1.5", "0.7"]
  }

  ghost predicate DefaultsFit(sec: Section) {
    forall i :: 0 <= i < |sec.settings| ==> DefaultFits(sec.settings[i].kind, sec.settings[i].default)
  }

  lemma SectionDefaultsFit()
    ensures forall m :: 0 <= m < |Sections| ==> DefaultsFit(Sections[m])
  {
    assert DefaultsFit(Section(["ghl"], GhlSettings));
    assert DefaultsFit(Section(["call_settings"], CallSettings));
    assert DefaultsFit(Section(["call_settings", "conversation_settings"], ConversationSettings));
    assert DefaultsFit(Section(["ai_settings"], AiSettings));
  }

  /** Every default of the source is of the kind its conversion produces. */
  lemma FieldDefaultsFit()
    ensures forall f :: f in Fields() ==> DefaultFits(f.kind, f.default)
  {
    SectionDefaultsFit();
    forall f | f in Fields() ensures DefaultFits(f.kind, f.default) {
      InFlatten(Sections, f);
      var m :| 0 <= m < |Sections| && f in FieldsOf(Sections[m]);
      var i :| 0 <= i < |Sections[m].settings| && f == FieldOf(Sections[m].path, Sections[m].settings[i]);
    }
  }

  /** With no variable and no file value, a fitting default converts back to itself. */
  lemma DefaultConverts(f: Field, p: Parsers)
    requires HandlesDefaults(p) && DefaultFits(f.kind, f.default)
    ensures Converted(f, map[], None, p) == Ok(f.default)
  {
    match f.kind
    case ToBool =>
      LowerTrue();
    case ToInt =>
      assert p.toInt(IntText(f.default.i)) == Some(f.default.i);
    case _ =>
  }

  /** Every path opens in the empty dict and holds nothing there. */
  lemma EmptyOpens(path: seq<string>)
    ensures Opens(JObj(map[]), path) && Lookup(JObj(map[]), path).None? == (|path| >= 1)
  {
  }

  /** Merging apart fields with fitting defaults into `{}` without variables stores every default. */
  lemma DefaultsMerged(fields: seq<Field>, p: Parsers)
    requires HandlesDefaults(p) && ApartList(fields)
    requires forall f :: f in fields ==> DefaultFits(f.kind, f.default)
    ensures MergeAll(JObj(map[]), fields, map[], p).Ok?
    ensures forall f :: f in fields ==> Lookup(MergeAll(JObj(map[]), fields, map[], p).value, f.path) == Some(f.default)
  {
    var empty := JObj(map[]);
    forall i | 0 <= i < |fields|
      ensures Opens(empty, fields[i].path) && Converted(fields[i], map[], Lookup(empty, fields[i].path), p) == Ok(fields[i].default)
    {
      EmptyOpens(fields[i].path);
      DefaultConverts(fields[i], p);
    }
    MergeAllEffect(empty, fields, map[], p);
  }

  /** Without a file and without any variable set, every field gets its literal default. */
  lemma DefaultsWithoutFileOrEnv(p: Parsers)
    requires HandlesDefaults(p)
    ensures MergeAll(JObj(map[]), Fields(), map[], p).Ok?
    ensures forall f :: f in Fields() ==> Lookup(MergeAll(JObj(map[]), Fields(), map[], p).value, f.path) == Some(f.default)
  {
    FieldsApart();
    FieldDefaultsFit();
    DefaultsMerged(Fields(), p);
  }

  // ---------------------------------------------------------------------
  // _validate_required_keys

  /** Python's truth value of a JSON value: `None`, `False`, zero, and empty texts, lists and dicts are false. */
  predicate Falsy(j: Json) {
    match j
    case JNull => true
    case JBool(b) => !b
    case JInt(n) => n == 0
    case JFloat(r) => r == "0.0" || r == "-0.0"
    case JStr(t) => t == ""
    case JList(items) => items == []
    case JObj(m) => m == map[]
  }

  /** A required credential: the segments of its dotted path and the variable the message tells the user to set. */
  datatype Required = Required(segments: seq<string>, env: string)

  /** The dotted path of a credential, as the source writes it (`"ghl.api_key"`). */
  function PathText(r: Required): string {
    Join(r.segments, ".")
  }

  /** The credentials in the order they are checked and reported. */
  const RequiredKeys := [
    Required(["ghl", "api_key"], "GHL_API_KEY"),
    Required(["ghl", "location_id"], "GHL_LOCATION_ID"),
    Required(["openai", "api_key"], "OPENAI_API_KEY"),
    Required(["twilio", "account_sid"], "TWILIO_ACCOUNT_SID"),
    Required(["twilio", "auth_token"], "TWILIO_AUTH_TOKEN")
  ]

  /** A credential is missing when its path cannot be walked or the value there is false. */
  predicate IsMissing(config: Json, path: string) {
    var v := Lookup(config, Split(path, "."));
    v.None? || Falsy(v.value)
  }

  /** The line reported for a missing credential. */
  function MissingEntry(r: Required): string {
    r.env + " (config path: " + PathText(r) + ")"
  }

  /** The entries of the keys that `missing` selects, in the order of `keys`. */
  function Collect(keys: seq<Required>, missing: Required -> bool): (entries: seq<string>)
    ensures |entries| <= |keys|
  {
    if keys == [] then []
    else (if missing(keys[0]) then [MissingEntry(keys[0])] else []) + Collect(keys[1..], missing)
  }

  /** The entries for the missing credentials among `keys`, in the order of `keys`. */
  function MissingEntries(config: Json, keys: seq<Required>): (entries: seq<string>) {
    Collect(keys, r => IsMissing(config, PathText(r)))
  }

  /** The report of a list of keys is the reports of its parts, one after the other. */
  lemma {:induction false} CollectAppend(a: seq<Required>, b: seq<Required>, missing: Required -> bool)
    ensures Collect(a + b, missing) == Collect(a, missing) + Collect(b, missing)
    decreases |a|
  {
    if a == [] {
      assert a + b == b;
    } else {
      assert (a + b)[0] == a[0] && (a + b)[1..] == a[1..] + b;
      CollectAppend(a[1..], b, missing);
    }
  }

  /**
   * An entry is reported exactly for each selected key, and nothing is
   * reported exactly when no key is selected.
   */
  lemma {:induction false} CollectExact(keys: seq<Required>, missing: Required -> bool)
    ensures forall e :: e in Collect(keys, missing) <==>
      exists i :: 0 <= i < |keys| && missing(keys[i]) && e == MissingEntry(keys[i])
    ensures Collect(keys, missing) == [] <==> forall i :: 0 <= i < |keys| ==> !missing(keys[i])
    decreases |keys|
  {
    if keys != [] {
      var rest := keys[1..];
      CollectExact(rest, missing);
      forall e | e in Collect(keys, missing)
        ensures exists i :: 0 <= i < |keys| && missing(keys[i]) && e == MissingEntry(keys[i])
      {
        if !(missing(keys[0]) && e == MissingEntry(keys[0])) {
          var i :| 0 <= i < |rest| && missing(rest[i]) && e == MissingEntry(rest[i]);
          assert keys[i + 1] == rest[i];
        }
      }
      forall i | 0 <= i < |keys| && missing(keys[i]) ensures MissingEntry(keys[i]) in Collect(keys, missing) {
        if i > 0 {
          assert keys[i] == rest[i - 1];
        }
      }
      if forall i :: 0 <= i < |keys| ==> !missing(keys[i]) {
        forall i | 0 <= i < |rest| ensures !missing(rest[i]) {
          assert rest[i] == keys[i + 1];
        }
      }
    }
  }

  /** The report lists exactly the missing credentials, and is empty exactly when none is missing. */
  lemma MissingEntriesExact(config: Json, keys: seq<Required>)
    ensures forall e :: e in MissingEntries(config, keys) <==>
      exists i :: 0 <= i < |keys| && IsMissing(config, PathText(keys[i])) && e == MissingEntry(keys[i])
    ensures MissingEntries(config, keys) == [] <==> forall i :: 0 <= i < |keys| ==> !IsMissing(config, PathText(keys[i]))
  {
    CollectExact(keys, r => IsMissing(config, PathText(r)));
  }

  /** The report of a list of credentials is the reports of its parts; one credential is reported when it is missing. */
  lemma MissingEntriesAppend(config: Json, a: seq<Required>, r: Required)
    ensures MissingEntries(config, a + [r]) ==
      MissingEntries(config, a) + (if IsMissing(config, PathText(r)) then [MissingEntry(r)] else [])
  {
    CollectAppend(a, [r], r => IsMissing(config, PathText(r)));
  }

  /**
   * `_validate_required_keys` up to the raise, over its list of credentials
   * (`RequiredKeys`): walk each credential's path and collect the entries of
   * the missing ones.
   */
  method ValidateRequiredKeys(config: Json, keys: seq<Required>) returns (missing: seq<string>)
    ensures missing == MissingEntries(config, keys)
  {
    missing := [];
    var i := 0;
    while i < |keys|
      invariant 0 <= i <= |keys|
      invariant missing == MissingEntries(config, keys[..i])
    {
      var r := keys[i];
      var value := Walk(config, Split(PathText(r), "."));
      MissingEntriesAppend(config, keys[..i], r);
      assert keys[..i + 1] == keys[..i] + [r];
      if value.None? || Falsy(value.value) {
        missing := missing + [MissingEntry(r)];
      }
      i := i + 1;
    }
    assert keys[..i] == keys;
  }

  const MissingHeader := "\U{274C} Missing required API keys:"
  const MissingFooter := "\n\nPlease set these environment variables or add them to your .env file.\nSee .env.example for reference."

  /** One line per missing entry. */
  function Bullets(entries: seq<string>): (lines: seq<string>)
    ensures |lines| == |entries|
    ensures forall k :: 0 <= k < |entries| ==> lines[k] == "  - " + entries[k]
  {
    seq(|entries|, k requires 0 <= k < |entries| => "  - " + entries[k])
  }

  /** The text of the `RuntimeError` raised for missing credentials. */
  function MissingMessage(entries: seq<string>): string {
    MissingHeader + "\n" + Join(Bullets(entries), "\n") + MissingFooter
  }

  /** The message starts with the header and lists every entry on a line of its own. */
  lemma MissingMessageLists(entries: seq<string>, k: nat)
    requires k < |entries|
    ensures StartsWith(MissingMessage(entries), MissingHeader)
    ensures Contains(MissingMessage(entries), "\n  - " + entries[k])
  {
    var body := "\n" + Join(Bullets(entries), "\n");
    assert MissingMessage(entries) == MissingHeader + body + MissingFooter;
    assert MissingMessage(entries) == MissingHeader + (body + MissingFooter);
    StartsWithAppended(MissingHeader, body + MissingFooter);
    JoinContains(Bullets(entries), "\n", k);
    assert "\n" + Bullets(entries)[k] == "\n  - " + entries[k];
    ContainsAppend(body, MissingFooter, "\n  - " + entries[k]);
    ContainsAppend(MissingHeader, body + MissingFooter, "\n  - " + entries[k]);
  }

  // ---------------------------------------------------------------------
  // The credentials after the merge

  /** Splitting the dotted path of a credential gives back its segments. */
  lemma RequiredSplits(r: Required)
    requires |r.segments| >= 1 && forall k :: 0 <= k < |r.segments| ==> '.' !in r.segments[k]
    ensures Split(PathText(r), ".") == r.segments
  {
    JoinSplit(r.segments, '.');
  }

  /** The merged field a credential is read from. */
  function CredentialField(r: Required): Field {
    Field(r.segments, r.env, AsIs, JStr(""))
  }

  /** Each credential's dotted path splits back into its segments. */
  lemma CredentialSplits(i: nat)
    requires i < |RequiredKeys|
    ensures Split(PathText(RequiredKeys[i]), ".") == RequiredKeys[i].segments
  {
    RequiredSplits(RequiredKeys[i]);
  }

  /** Each credential is read from one of the merged fields. */
  lemma CredentialIsField(i: nat)
    requires i < |RequiredKeys|
    ensures CredentialField(RequiredKeys[i]) in Fields()
  {
    var m := if i < 2 then 0 else if i == 2 then 1 else 2;
    var k := if i == 1 || i == 4 then 1 else 0;
    SettingIsField(m, k);
    assert FieldOf(Sections[m].path, Sections[m].settings[k]) == CredentialField(RequiredKeys[i]);
  }

  /** A field stored as it is holds the chosen value after a successful merge. */
  lemma AsIsMerged(config: Json, fields: seq<Field>, env: map<string, string>, p: Parsers, f: Field)
    requires ApartList(fields) && f in fields && f.kind == AsIs
    requires MergeAll(config, fields, env, p).Ok?
    ensures Lookup(MergeAll(config, fields, env, p).value, f.path) == Some(Chosen(f, env, Lookup(config, f.path)))
  {
    FieldMerged(config, fields, env, p, f);
  }

  /** A credential whose field is merged is missing exactly when the chosen value is false. */
  lemma RequiredMissing(config: Json, fields: seq<Field>, env: map<string, string>, p: Parsers, r: Required)
    requires ApartList(fields) && CredentialField(r) in fields
    requires Split(PathText(r), ".") == r.segments
    requires MergeAll(config, fields, env, p).Ok?
    ensures var chosen := if r.env in env then JStr(env[r.env]) else Lookup(config, r.segments).GetOr(JStr(""));
      IsMissing(MergeAll(config, fields, env, p).value, PathText(r)) <==> Falsy(chosen)
  {
    AsIsMerged(config, fields, env, p, CredentialField(r));
  }

  /**
   * After a successful merge a credential is reported missing exactly when
   * the value chosen for it is false: its variable is set to `""`, or it is
   * unset and the file holds a false value or nothing.
   */
  lemma CredentialMissing(config: Json, env: map<string, string>, p: Parsers, i: nat)
    requires i < |RequiredKeys|
    requires MergeAll(config, Fields(), env, p).Ok?
    ensures var r := RequiredKeys[i];
      var chosen := if r.env in env then JStr(env[r.env]) else Lookup(config, r.segments).GetOr(JStr(""));
      IsMissing(MergeAll(config, Fields(), env, p).value, PathText(r)) <==> Falsy(chosen)
  {
    CredentialIsField(i);
    CredentialSplits(i);
    FieldsApart();
    RequiredMissing(config, Fields(), env, p, RequiredKeys[i]);
  }

  /** With every credential's variable set to a non-empty text, a successful merge reports nothing missing. */
  lemma CredentialsFromEnv(config: Json, env: map<string, string>, p: Parsers)
    requires MergeAll(config, Fields(), env, p).Ok?
    requires forall i :: 0 <= i < |RequiredKeys| ==> RequiredKeys[i].env in env && env[RequiredKeys[i].env] != ""
    ensures MissingEntries(MergeAll(config, Fields(), env, p).value, RequiredKeys) == []
  {
    var c := MergeAll(config, Fields(), env, p).value;
    forall i | 0 <= i < |RequiredKeys| ensures !IsMissing(c, PathText(RequiredKeys[i])) {
      CredentialMissing(config, env, p, i);
    }
    MissingEntriesExact(c, RequiredKeys);
  }

  // ---------------------------------------------------------------------
  // load_config

  /**
   * `load_config` on the parsed `config.json` (`None` when there is no file
   * or it does not parse, which starts from `{}`): merge, then require the
   * credentials.  It succeeds exactly when the merge does and no credential
   * is missing, and then every credential is present and true.
   */
  method LoadConfig(file: Option<Json>, env: map<string, string>, p: Parsers) returns (r: Result<Json, LoadError>)
    ensures var merged := MergeAll(file.GetOr(JObj(map[])), Fields(), env, p);
      (merged.Err? ==> r == Err(merged.error))
      && (merged.Ok? && MissingEntries(merged.value, RequiredKeys) != [] ==>
            r == Err(MissingKeys(MissingEntries(merged.value, RequiredKeys))))
      && (r.Ok? <==> merged.Ok? && MissingEntries(merged.value, RequiredKeys) == [])
      && (r.Ok? ==> r.value == merged.value)
    ensures r.Ok? ==> forall i :: 0 <= i < |RequiredKeys| ==> !IsMissing(r.value, PathText(RequiredKeys[i]))
  {
    var config := if file.Some? then file.value else JObj(map[]);
    var merged := MergeWithEnvVars(config, env, p);
    if merged.Err? {
      return Err(merged.error);
    }
    var missing := ValidateRequiredKeys(merged.value, RequiredKeys);
    if missing != [] {
      return Err(MissingKeys(missing));
    }
    MissingEntriesExact(merged.value, RequiredKeys);
    return Ok(merged.value);
  }

  // ---------------------------------------------------------------------
  // get_config_value

  /**
   * `get_config_value` on the outcome of `load_config`: the default when
   * loading failed, else the walk of the dotted key, with the default as
   * soon as a segment is missing or the value reached is not a dict.
   */
  method GetConfigValue(loaded: Result<Json, LoadError>, key: string, default: Json) returns (value: Json)
    ensures loaded.Err? ==> value == default
    ensures loaded.Ok? ==> value == Lookup(loaded.value, Split(key, ".")).GetOr(default)
  {
    if loaded.Err? {
      return default;
    }
    var found := Walk(loaded.value, Split(key, "."));
    value := if found.Some? then found.value else default;
  }

  /** Walking a path stops, for good, at the first segment that is missing or reached through a non-dict. */
  lemma LookupStops(j: Json, path: seq<string>, k: nat)
    requires k < |path| && Lookup(j, path[..k]).Some?
    ensures var v := Lookup(j, path[..k]).value;
      Lookup(j, path) == (if v.JObj? && path[k] in v.fields then Lookup(v.fields[path[k]], path[k + 1..]) else None)
  {
    assert path == path[..k] + path[k..];
    LookupAppend(j, path[..k], path[k..]);
    assert path[k..][0] == path[k] && path[k..][1..] == path[k + 1..];
  }

  /** A dotted key made of dot-free segments is looked up segment by segment. */
  lemma ConfigValueSegments(c: Json, segments: seq<string>, default: Json)
    requires |segments| >= 1 && forall k :: 0 <= k < |segments| ==> '.' !in segments[k]
    ensures Lookup(c, Split(Join(segments, "."), ".")).GetOr(default) == Lookup(c, segments).GetOr(default)
  {
    JoinSplit(segments, '.');
  }

  // ---------------------------------------------------------------------
  // get_webhook_url

  const LocalBase := "http://localhost:5000"

  /**
   * `get_webhook_url`: the public tunnel URL, or the local server when it is
   * empty (or loading failed), then `/` and the endpoint, with every trailing
   * `/` removed.
   */
  function WebhookUrl(ngrokUrl: string, endpoint: string): (url: string)
    ensures url == [] || url[|url| - 1] != '/'
  {
    RStripChar((if ngrokUrl == "" then LocalBase else ngrokUrl) + "/" + endpoint, '/')
  }

  /**
   * An endpoint not ending in `/` is appended after one `/`; with no
   * endpoint the base URL is returned without its trailing slashes, so the
   * local server is `http://localhost:5000` itself.
   */
  lemma WebhookUrlShape(ngrokUrl: string, endpoint: string)
    ensures var base := if ngrokUrl == "" then LocalBase else ngrokUrl;
      (endpoint != "" && endpoint[|endpoint| - 1] != '/' ==> WebhookUrl(ngrokUrl, endpoint) == base + "/" + endpoint)
      && (endpoint == "" ==> WebhookUrl(ngrokUrl, endpoint) == RStripChar(base, '/'))
    ensures ngrokUrl == "" && endpoint == "" ==> WebhookUrl(ngrokUrl, endpoint) == LocalBase
    ensures StartsWith((if ngrokUrl == "" then LocalBase else ngrokUrl) + "/" + endpoint, WebhookUrl(ngrokUrl, endpoint))
  {
    var base := if ngrokUrl == "" then LocalBase else ngrokUrl;
    var s := base + "/" + endpoint;
    if endpoint != "" && endpoint[|endpoint| - 1] != '/' {
      RStripCharNone(s, '/');
    }
    if endpoint == "" {
      assert s == base + ['/'];
      RStripCharSnoc(base, '/');
      if ngrokUrl == "" {
        assert LocalBase[|LocalBase| - 1] == '0';
        RStripCharNone(LocalBase, '/');
      }
    }
  }
}
