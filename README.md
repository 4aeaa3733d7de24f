# Setter.AI outbound call bot — a Dafny model

Setter.AI polls a CRM (GoHighLevel) for fresh leads and dials the first lead
nobody has called yet through Twilio. While the call runs, Twilio posts to the
bot's webhooks. `/handle_call` opens the conversation. `/handle_response`
stores what the caller said and generates the agent's next line with a chat
model. `/call_status` finds the call a status or recording event belongs to
and updates its status. After the call, the conversation can be classified as
`positive_meeting`, `positive`, `negative` or `neutral`, and a meeting time
can be read off it. The configuration is `config.json` merged with
environment variables, and it must contain the five API credentials.

This project models that core as Dafny and proves properties about it:

- `Text`: the string functions the core relies on. These are
  `.lower()` and `.strip()` (ASCII only), substring search,
  `str.split`/`str.join`, `str.rstrip('/')` and the decimal rendering of a
  number.
- `Conversation` (`core/ai_logic.py`): the per-call conversation memory as
  the class `AiLogic`.
  - The stage-dependent system prompt, the context window and the message
    list sent to the model.
  - `generate_response` with the model as a parameter.
  - The keyword analysis of the outcome and the meeting-time extraction. The
    extraction is a method with the two source loops.
- `Calls`: `call_history` and `active_calls` as the class `CallTables`.
  - The history's iteration order is a field, because the CallSid scan
    depends on it.
  - The active calls share their info dicts with the history, so a status
    change shows up in both.
- `Routes` (`web/routes.py`): the three Twilio webhooks.
- `Leads` (`integrations/ghl_integration.py`): `get_leads` (the method with
  the contact loop and the recency cut-off) and `filter_available_leads`.
- `Twilio` (`integrations/twilio_integration.py`): phone formatting, the
  dial request, `make_call` and `get_recording_url`.
- `Config` (`utils/config.py`): every assignment of
  `_merge_with_env_vars`, `load_config`, `get_config_value`,
  `_validate_required_keys` and `get_webhook_url`.
- `App` (`web/app.py`): the call id, `make_call`, one tick of the lead
  monitor and the lead name of a call record.
- `VoiceTest`: the scripted conversation of
  `tests/test_voice_conversation.py`, replayed through the analysis and the
  extraction.

The outside world enters as parameters:

- the chat model, as a function from the message list to an answer, or
  `None` when the call raises;
- Twilio's `calls.create`, as a function from the dial request to a SID, or
  `None`;
- the CRM response, as a value;
- clocks and timestamps, as numbers and texts;
- `int()`, `float()` and `datetime.fromisoformat`, as functions;
- the environment, as a map;
- the parsed `config.json`, as an optional JSON value;
- the database rows the handlers read, as maps and lists.

## Behaviour of the code that the model keeps

- **A scheduling call's meeting time.** Take a call in which the caller
  asks for "equipment financing", asks for about $50,000 and says "tomorrow
  at 3 PM would work", and the agent then confirms "...for 3 p.m.
  tomorrow". The extracted meeting time is `3:00 PM MST`, not the caller's
  phrase, for two reasons.
  - "equipment" contains "pm", so the caller's first turn is already the one
    picked as naming a time (`ai_logic.py:234-239`).
  - An agent turn that confirms and mentions "3 p.m." overrides the
    caller's pick with `3:00 PM MST` (`ai_logic.py:242-250`).

  `Conversation.SchedulingCallExample` proves this.
- **The apology on a failed model call.** The apology is returned and
  nothing is stored (`ai_logic.py:81-83`). An empty answer is stored and
  returned like any other.
- **Settings.** `web/app.py:36-38` passes each component the sub-dict of its
  own section. Each component then looks up a nested key of that same name
  again (`ai_logic.py:20`, `ghl_integration.py:20`,
  `twilio_integration.py:23`), which is absent, so every component falls
  back to its defaults. The Twilio integration also reads
  `webhook_base_url` from that sub-dict (`twilio_integration.py:27`), where
  it is normally absent, so its URLs begin with `None`. The model therefore
  takes each component's settings as a parameter, with an unset value as
  `None`.
- **Absent and `null` keys.** `d.get(key, default)` gives the default only
  for an absent key; a `null` stays `None`, which an f-string prints as
  `None`. So a lead without an `id` key gets the call id `call_<t>_unknown`
  (`app.py:110`) and an empty `lead_id` in the webhook URL
  (`twilio_integration.py:53`), while a `null` id gives `_None` and
  `lead_id=None`. A `null` phone makes `startswith` raise
  (`twilio_integration.py:49`), so the dial fails. The model keeps all three
  cases apart (`Leads.Field`).
- **The webhooks and lead marking end in an error.**
  - `store_ai_response` is not defined on `AILogic`, so `/handle_call` and
    `/handle_response` answer 500 after their effects on state.
  - `save_call_record` is defined in `web/app.py:152` but neither imported
    into `web/routes.py` (lines 8-12) nor passed to `register_routes`
    (lines 16-17). So `/call_status` raises at line 399 and answers 500
    for every event it finds a call for. The in-memory status update
    (lines 377-382) has happened by then; the database `UPDATE` (lines
    402-411) never runs.
  - `mark_lead_as_called` is not defined on the CRM integration, so
    `make_call` returns `False` after the call has been placed and
    recorded.

## Model

| member | source | states |
|---|---|---|
| Conversation.StageFor | src/setter_ai/core/ai_logic.py:85-129 | the stage is opening for an empty history, qualification for one or two stored turns, scheduling from three on |
| Conversation.PromptIntroduces | src/setter_ai/core/ai_logic.py:85-129 | every stage's system prompt begins with that stage's introduction of the agent |
| Conversation.PromptOpening | src/setter_ai/core/ai_logic.py:87-97 | the opening prompt introduces the agent as calling on behalf of the contact person; the later ones as being from the company |
| Conversation.OpeningPromptDiffers | src/setter_ai/core/ai_logic.py:87-115 | the opening prompt and any later prompt differ right after the agent's name (comma vs. space) |
| Conversation.SchedulingNamesLead | src/setter_ai/core/ai_logic.py:117-129 | the scheduling prompt contains "<lead name> is interested." |
| Conversation.SliceStart | src/setter_ai/core/ai_logic.py:136 | where Python's `h[x:]` starts, for negative, zero and positive `x` |
| Conversation.ContextWindow | src/setter_ai/core/ai_logic.py:136 | the window is a suffix of the history: the last 2·memory_turns turns for a positive setting, everything for 0, the history minus its first -2·memory_turns turns for a negative one |
| Conversation.RoleOf | src/setter_ai/core/ai_logic.py:137 | a stored turn is sent as the assistant's exactly when the agent spoke it, and never as a system message |
| Conversation.BuildMessages | src/setter_ai/core/ai_logic.py:131-144 | the system prompt first, then each window turn in order with its role and text, then the context as a user message, present exactly when the context is non-empty |
| Conversation.OneSystemMessage | src/setter_ai/core/ai_logic.py:131-144 | only the first message has the system role |
| Conversation.RequestFor | src/setter_ai/core/ai_logic.py:47-55 | the request starts with the system prompt for the lead's stripped name and the stage the stored history length selects |
| Conversation.RespondEffect | src/setter_ai/core/ai_logic.py:62-83 | a successful answer for a non-empty call id adds exactly one agent turn with the returned text and touches no other call; a failure returns the apology and changes nothing; an empty call id stores nothing |
| Conversation.RespondText | src/setter_ai/core/ai_logic.py:65 | the returned text is the model's answer with its surrounding whitespace removed: a contiguous piece of it, surrounded in it only by whitespace and with no whitespace at either end |
| Conversation.SaidAnyAppend | src/setter_ai/core/ai_logic.py:182-197 | a keyword is said by a speaker in a concatenation exactly when it is said in one of the parts |
| Conversation.Classify | src/setter_ai/core/ai_logic.py:200-207 | the precedence: positive_meeting iff positive and meeting; positive iff positive without meeting; negative iff negative without positive; neutral iff neither |
| Conversation.Analyze | src/setter_ai/core/ai_logic.py:158-215 | positive_meeting exactly when both the positive and the meeting flags hold; negative only with the negative flag and without the positive one; an empty conversation is neutral with every flag false and length 0 |
| Conversation.NotInterestedIsPositive | src/setter_ai/core/ai_logic.py:164-192 | a caller who says "not interested" has said the positive keyword "interested", so the conversation is never negative |
| Conversation.OtherSpeakersIgnored | src/setter_ai/core/ai_logic.py:182-197 | a turn by neither caller nor agent changes no flag and not the outcome |
| Conversation.AnalysisGrows | src/setter_ai/core/ai_logic.py:182-207 | more turns never retract a flag; a positive meeting stays one |
| Conversation.FirstSaying | src/setter_ai/core/ai_logic.py:234-250 | the index found is the first from the start position whose speaker says a keyword; none means no such turn |
| Conversation.MeetingFromCaller | src/setter_ai/core/ai_logic.py:234-239 | without a confirming agent turn, a time is extracted exactly when some caller turn names one, and it is the text of the first such turn |
| Conversation.MeetingAgentOverrides | src/setter_ai/core/ai_logic.py:242-250 | the first confirming agent turn decides: "3 p.m."/"3 pm" gives 3:00 PM MST, otherwise "tomorrow" gives Tomorrow (Time TBD), otherwise the caller's pick stands |
| Conversation.MeetingTimeSource | src/setter_ai/core/ai_logic.py:227-256 | an extracted time is one of the two fixed phrases or the text of a caller turn that names a time |
| Conversation.NoMeetingTime | src/setter_ai/core/ai_logic.py:227-256 | with no caller turn naming a time and no agent turn mentioning 3 pm or tomorrow, nothing is extracted |
| Conversation.SchedulingCallExample | src/setter_ai/core/ai_logic.py:158-256 | a four-turn scheduling call is a positive meeting at 3:00 PM MST |
| Conversation.AiLogic.constructor | src/setter_ai/core/ai_logic.py:17-42 | the object starts with the given settings and an empty memory |
| Conversation.AiLogic.ConversationHistory | src/setter_ai/core/ai_logic.py:258-260 | the stored turns of the call, empty for an unknown call |
| Conversation.AiLogic.GenerateResponse | src/setter_ai/core/ai_logic.py:44-83 | the reply and the new memory are those of the model's answer to the request for the stored history |
| Conversation.AiLogic.TakeAnswer | src/setter_ai/core/ai_logic.py:62-83 | stripping and storing the answer, or the apology on failure, exactly as `Respond` specifies |
| Conversation.AiLogic.StoreUserResponse | src/setter_ai/core/ai_logic.py:146-156 | one caller turn is appended for a non-empty call id; the memory is unchanged otherwise |
| Conversation.AiLogic.ClearConversation | src/setter_ai/core/ai_logic.py:262-265 | the call's history is dropped and no other call's |
| Conversation.AiLogic.AnalyzeConversationOutcome | src/setter_ai/core/ai_logic.py:158-225 | the length reported is the number of stored turns; a call with nothing stored is neutral |
| Conversation.AiLogic.ExtractMeetingDetails | src/setter_ai/core/ai_logic.py:227-256 | the two scans return exactly the meeting time of the stored conversation |
| Calls.StoreKeepsWellFormed | src/setter_ai/web/routes.py:257-264 | filing a new call keeps the order listing every history key once and the active calls sharing their history entries; the keys grow by the new id |
| Calls.OpenKeepsWellFormed | src/setter_ai/web/app.py:125-126 | putting one info into both dictionaries keeps them well formed and stores the info under the id in both |
| Calls.ApplyStatusIdempotent | src/setter_ai/web/routes.py:377-382 | repeating a status event changes nothing more |
| Calls.LastStatusWins | src/setter_ai/web/routes.py:377-382 | after two events for one call the history holds the later status |
| Calls.FirstWithSid | src/setter_ai/web/routes.py:340-344 | the id found is the first in iteration order whose call has the SID; none means no call has it |
| Calls.CallTables.Store | src/setter_ai/web/routes.py:264 | the history gains the entry, appended to the iteration order when new |
| Calls.CallTables.Open | src/setter_ai/web/app.py:125-126 | the same info is filed under the id in both dictionaries |
| Calls.CallTables.SetStatus | src/setter_ai/web/routes.py:377-382 | the status is overwritten in the history and, through the shared dict, in the active calls; a terminal status removes the call from the active calls |
| Calls.CallTables.FindBySid | src/setter_ai/web/routes.py:340-344 | the loop returns the first matching id in iteration order, or "" |
| Routes.MapStatus | src/setter_ai/web/routes.py:362-374 | answered and in-progress become active; every other status, listed or not, is kept |
| Routes.Resolve | src/setter_ai/web/routes.py:339-359 | the URL's call id wins; otherwise the first history call with the SID; otherwise the persisted id for the SID; a resolved id is never empty |
| Routes.RecordingSidOf | src/setter_ai/web/routes.py:385-388 | an explicit RecordingSid is kept; without one and without "/Recordings/" in the URL the id stays empty |
| Routes.RecordingSidFromUrl | src/setter_ai/web/routes.py:387-388 | the id read off the URL holds no "/" and begins the text after the last "/Recordings/", ending at the next "/" |
| Routes.HandleCallStatus | src/setter_ai/web/routes.py:329-419 | an event with no resolvable call id is refused with 400 and nothing changed; otherwise the resolved call gets the mapped status, and the handler answers 500 with the NameError of the undefined save_call_record |
| Routes.Registered | src/setter_ai/web/routes.py:257-264 | an unknown call is filed as initiated with the URL's lead id; a known call and the active calls are left as they were |
| Routes.HandleCall | src/setter_ai/web/routes.py:246-287 | an empty call id is refused with no change; otherwise the call is registered, the opening reply is generated for its lead, and the handler answers 500 for the missing store_ai_response |
| Routes.SpeechText | src/setter_ai/web/routes.py:299-301 | the stored speech is never empty and is the caller's words when there are any |
| Routes.AfterResponseTurns | src/setter_ai/web/routes.py:299-311 | the call's history becomes the old one, one caller turn, then at most one agent turn holding the stripped answer; other calls are untouched |
| Routes.HandleCallResponse | src/setter_ai/web/routes.py:289-327 | an empty call id is refused with no change; otherwise the memory is the speech stored then answered, and the handler answers 500 |
| Leads.DisplayNameOfTrimmed | src/setter_ai/core/ai_logic.py:47 | names without surrounding blanks are joined by one space |
| Leads.DisplayNameOfNothing | src/setter_ai/web/app.py:158 | a lead whose name parts are absent or empty has the empty display name |
| Leads.DisplayNameOfNull | src/setter_ai/web/app.py:158 | a null first name with no last name is displayed as "None" |
| Leads.ToLead | src/setter_ai/integrations/ghl_integration.py:76-87 | every key is present in the lead; each text field of the contact is copied, null included, an absent one becoming ""; the id is the contact's text id or null; the source is "ghl" |
| Leads.RecentLeadsSnoc | src/setter_ai/integrations/ghl_integration.py:63-88 | one more contact adds its lead at the end exactly when it is not too old |
| Leads.RecentLeadsExact | src/setter_ai/integrations/ghl_integration.py:63-88 | a lead is returned exactly when some contact that is not too old maps to it |
| Leads.DummyFallback | src/setter_ai/integrations/ghl_integration.py:29-98 | the dummy leads are returned exactly when the credentials are missing, the request raised, or the status is not 200 |
| Leads.GetLeads | src/setter_ai/integrations/ghl_integration.py:29-98 | the loop over the contacts returns exactly the specified leads |
| Leads.FilterAvailable | src/setter_ai/integrations/ghl_integration.py:104-108 | the kept leads are exactly the fetched leads whose id, None for an absent or null one, is not among the called ids |
| Leads.FilterIsSubsequence | src/setter_ai/integrations/ghl_integration.py:104-108 | filtering keeps the fetched order |
| Leads.FilterCounts | src/setter_ai/integrations/ghl_integration.py:104-108 | every copy of an available lead is kept and no copy of another |
| Leads.FilterAppend | src/setter_ai/integrations/ghl_integration.py:104-108 | filtering a concatenation filters each part |
| Leads.FilterIdempotent | src/setter_ai/integrations/ghl_integration.py:104-108 | filtering twice is filtering once |
| Leads.FilterNothingCalled | src/setter_ai/integrations/ghl_integration.py:104-108 | with no called ids every lead is available |
| Leads.FirstAvailable | src/setter_ai/integrations/ghl_integration.py:104-108 | the head of the filtered list is the first available lead in fetched order |
| Twilio.FormatPhone | src/setter_ai/integrations/twilio_integration.py:46-50 | the number dialled always starts with +1; a number already starting with it is unchanged, any other gets +1 in front |
| Twilio.FormatPhoneIdempotent | src/setter_ai/integrations/twilio_integration.py:46-50 | formatting a formatted number changes nothing |
| Twilio.WebhookUrlParts | src/setter_ai/integrations/twilio_integration.py:53 | the answer URL is the base (None when unset), the call id and the lead id: empty for an absent id, None for a null one |
| Twilio.DialRequestFor | src/setter_ai/integrations/twilio_integration.py:46-70 | building the request raises exactly for a null phone; otherwise it dials the formatted number (+1 for an absent phone) from the configured one, with the answer and status webhooks of the call id, recording on, the four status events and a 30-second timeout |
| Twilio.MakeCall | src/setter_ai/integrations/twilio_integration.py:36-77 | no client exactly when a credential is unset or empty; otherwise the request uses the given call id or the fresh one, a placed call carries the provider's SID, and a null phone or a raising provider gives the failure pair |
| Twilio.GetRecordingUrl | src/setter_ai/integrations/twilio_integration.py:100-121 | nothing exactly when a credential is unset or empty; otherwise the credential-carrying URL, the direct media URL, the recording id and the account SID |
| App.CallIdInjective | src/setter_ai/web/app.py:110 | equal call ids come from the same clock second and the same lead id text |
| App.CallIdCollisions | src/setter_ai/web/app.py:110 | a lead without an id shares its call id with a lead whose id is "unknown", a null id with the id "None"; absent and null ids differ |
| App.CallIdShape | src/setter_ai/web/app.py:110 | a call id starts with "call_" and a digit and ends with "_" and the lead id text: "_unknown" for an absent id, "_None" for a null one |
| App.AfterDialEffect | src/setter_ai/web/app.py:113-126 | a placed call is in both dictionaries as the same initiated info with its SID and lead, other calls as they were; a call not placed changes nothing |
| App.MakeCall | src/setter_ai/web/app.py:105-150 | the dictionaries change as a placed call requires, and the result is False on every path |
| App.PickLeadFirst | src/setter_ai/web/app.py:69-75 | the lead called is the first available one in fetched order; none only when none is available |
| App.PickLeadNothingCalled | src/setter_ai/web/app.py:69-75 | with nothing called yet the first fetched lead is called |
| App.MonitorTick | src/setter_ai/web/app.py:56-92 | one pass dials exactly the picked lead and changes nothing when no lead is available |
| App.RecordLeadName | src/setter_ai/web/app.py:158-159 | the lead_name column is "" without lead info and the stripped "first last" otherwise |
| App.RecordLeadNameCases | src/setter_ai/web/app.py:158-159 | trimmed names are recorded as first, space, last; absent or empty names record ""; a null first name alone records "None" |
| Config.Walk | src/setter_ai/utils/config.py:160-169 | the segment loop reaches exactly the value at the path, or nothing |
| Config.LookupAppend | src/setter_ai/utils/config.py:160-169 | looking up a joined path is looking up its parts one after the other |
| Config.Chosen | src/setter_ai/utils/config.py:53-137 | the environment variable wins when set, even to ""; else the file's value; else the default |
| Config.MergeAtStores | src/setter_ai/utils/config.py:49-58 | one assignment succeeds exactly when every section on its path is absent or a dict and the value converts, and then stores it at the path |
| Config.MergeAtFrame | src/setter_ai/utils/config.py:49-58 | one assignment leaves every path apart from its own, and whether it opens, as it was |
| Config.MergeAllFrame | src/setter_ai/utils/config.py:46-139 | a run of assignments apart from a path leaves the value there as it was |
| Config.MergeAllEffect | src/setter_ai/utils/config.py:46-139 | for assignments with pairwise apart paths, the merge succeeds exactly when every section opens and every value converts, and then each path holds the converted choice made from the original file |
| Config.FieldsApart | src/setter_ai/utils/config.py:46-139 | no two assignments of the merge write overlapping paths |
| Config.MergeWithEnvVars | src/setter_ai/utils/config.py:46-139 | the assignments are applied in order and the first that raises ends the merge |
| Config.MergeEffect | src/setter_ai/utils/config.py:46-139 | the merge succeeds exactly when every section opens and every value converts; then every field holds its converted choice |
| Config.FieldMerged | src/setter_ai/utils/config.py:46-139 | after a successful merge any one field holds its converted value |
| Config.LeadCheckIntervalFeedsBoth | src/setter_ai/utils/config.py:55-89 | LEAD_CHECK_INTERVAL_MINUTES sets both the CRM interval and the call settings' copy to the same parsed number |
| Config.AutoCallRule | src/setter_ai/utils/config.py:57-58 | auto_call_enabled is true exactly when the chosen text, lower-cased, is "true" |
| Config.AutoCallDefault | src/setter_ai/utils/config.py:57-58 | with neither variable nor file value, the default True turns auto-calling on |
| Config.DefaultsWithoutFileOrEnv | src/setter_ai/utils/config.py:46-139 | without a file and without variables every field gets its literal default |
| Config.MissingEntriesExact | src/setter_ai/utils/config.py:185-198 | the report lists exactly the missing credentials, and is empty exactly when none is missing |
| Config.MissingEntriesAppend | src/setter_ai/utils/config.py:185-198 | the report of a list is the reports of its parts; one credential is reported exactly when missing |
| Config.ValidateRequiredKeys | src/setter_ai/utils/config.py:174-198 | the loop collects exactly the entries of the missing credentials, in order |
| Config.MissingMessageLists | src/setter_ai/utils/config.py:200-205 | the error message starts with its header and lists every missing entry on a line of its own |
| Config.CredentialSplits | src/setter_ai/utils/config.py:176-187 | each credential's dotted path splits back into its segments |
| Config.CredentialIsField | src/setter_ai/utils/config.py:176-182 | each credential is written by one of the merge's assignments |
| Config.CredentialMissing | src/setter_ai/utils/config.py:185-198 | after a successful merge a credential is missing exactly when the value chosen for it is false |
| Config.CredentialsFromEnv | src/setter_ai/utils/config.py:174-198 | with every credential variable set to a non-empty text nothing is reported missing |
| Config.LoadConfig | src/setter_ai/utils/config.py:17-44 | loading succeeds exactly when the merge does and no credential is missing, and then every credential is present and true |
| Config.GetConfigValue | src/setter_ai/utils/config.py:156-172 | the default when loading failed; else the walk of the dotted key, the default once a segment is missing |
| Config.LookupStops | src/setter_ai/utils/config.py:164-169 | the walk stops for good at the first missing segment or non-dict value |
| Config.ConfigValueSegments | src/setter_ai/utils/config.py:160-162 | a dotted key of dot-free segments is looked up segment by segment |
| Config.WebhookUrl | src/setter_ai/utils/config.py:141-154 | the URL never ends in "/" |
| Config.WebhookUrlShape | src/setter_ai/utils/config.py:141-154 | the URL is a prefix of the tunnel URL (or the local server when unset), "/" and the endpoint; it is exactly that text for an endpoint not ending in "/", and the base without its trailing slashes for an empty endpoint |
| VoiceTest.ClosingNamesTomorrowOnly | tests/test_voice_conversation.py:178 | the closing line says "tomorrow" but neither "3 p.m." nor "3 pm" |
| VoiceTest.QuestionsUnconfirmed | tests/test_voice_conversation.py:170-176 | none of the agent's four earlier lines says a confirming word |
| VoiceTest.ScriptMeeting | src/setter_ai/core/ai_logic.py:227-256 | in a nine-turn alternating call whose only confirming agent line says tomorrow without 3 pm, the meeting time is Tomorrow (Time TBD) |
| VoiceTest.ScriptOutcome | src/setter_ai/core/ai_logic.py:182-207 | an interested caller and an agent line saying tomorrow make the outcome positive_meeting |
| VoiceTest.VoiceTestMeeting | tests/test_voice_conversation.py:169-179 | the test's conversation yields the meeting time Tomorrow (Time TBD): the closing line is the first confirming agent line, it says "tomorrow" and its "3:00 PM" is neither "3 p.m." nor "3 pm", so it overrides the caller's pick |
| VoiceTest.VoiceTestOutcome | tests/test_voice_conversation.py:169-179 | the test's conversation is classified positive_meeting |

## Left out

- HTTP, TwiML and JSON rendering: the handlers' answers are an abstract `Response`, and the XML bodies are not modelled.
- SQLite: `save_call_record` and the tables are not modelled; the `UPDATE` in `/call_status` is never reached. The rows the code reads are parameters: the persisted call id per SID, and the called lead ids.
- Threads and `time.sleep`: the monitor is modelled as one pass of its loop; the ten-minute and one-minute waits are not modelled.
- The OpenAI, Twilio and HTTP clients, which are parameters; a raised exception is `None`.
- Logging.
- `int()`, `float()` and `datetime.fromisoformat`, which are parameters. A float is kept as its printed text.
- `uuid.uuid4()`, `time.time()` and `datetime.now()`, which are parameters.
- `.lower()` and `.strip()` handle ASCII only; Unicode case mapping and Unicode whitespace are not modelled.
- Conversation.Analyze: the `unknown` outcome of the `except` branch (`ai_logic.py:217-225`) is not modelled, because nothing in the analysis can raise.
- Routes.HandleCallResponse: both turns get the one timestamp `now`, where the source reads the clock twice.
- `get_config_info` of `AILogic` (`ai_logic.py:271-279`) and of the CRM integration (`ghl_integration.py:183-190`): these only report settings for display.
- `is_configured` of the three integrations is modelled as predicates only (`Conversation.AiLogic.IsConfigured`, `Leads.IsConfigured`, `Twilio.IsConfigured`); they carry no property beyond their definition.
- The dashboard, health, configuration and debug routes, `serve_recording_media`, `check_call_status`, `create_voice_response`, `test_connection`, `get_account_info`, `update_lead_status`, `get_lead_by_id` and `get_environment_help`: these fall outside the call flow modelled here. `utils/database.py` is not part of this model.
- Config.GetConfigValue: it takes the outcome of `load_config` as a parameter rather than loading it again.
- Config.WebhookUrl: it takes the tunnel URL (`ngrok.public_url`) as a parameter rather than reading it from a fresh `load_config`.
- Config.LoadConfig: a missing or unparsable `config.json` is `None`. The `Failed to load configuration:` wrapper is not modelled, and neither is the exact text of a Python exception: the reasons are abstract.
- Config.ValidateRequiredKeys: the list of credentials is a parameter; `Config.RequiredKeys` holds the source's five.
- Routes.HandleCall and Routes.HandleCallResponse: the answer's text after `store_ai_response` fails is Python's attribute error message, as a constant; so is the name error of Routes.HandleCallStatus.
- Leads.Field: a JSON value that is neither a text nor `null` (a number as an id, say) is not modelled; `createdAt` and `updatedAt` keep one `None` for absent and `null`, as `.get` without a default does.
- App.MakeCall: the database insert of `save_call_record`, and the failure of `mark_lead_as_called` that follows it, are reduced to the result `False`.
