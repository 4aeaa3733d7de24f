/**
 * The conversation side of the bot (`AILogic`): per-call memory of turns,
 * the stage-dependent system prompt, the message list handed to the
 * language model, the keyword outcome classifier and the meeting-time
 * extractor.  The model call itself is the `generate` parameter: it answers
 * a message list with some text, or `None` when the call raises.
 */
module Conversation {
  import opened Wrappers
  import opened Text
  import opened Leads

  /** One stored turn: who spoke, what was said, and when (an ISO timestamp). */
  datatype Turn = Turn(speaker: string, content: string, timestamp: string)

  datatype Role = System | Assistant | User

  /** One entry of the `messages` list sent to the chat model. */
  datatype Message = Message(role: Role, content: string)

  /** The three conversation stages of the system prompt. */
  datatype Stage = Opening | Qualification | Scheduling

  /**
   * The agent settings `AILogic` reads.  The source reads them from a
   * nested `ai_settings` key that the caller never provides, so in practice
   * they are the defaults of `DefaultAgentSettings`.
   */
  datatype AgentSettings = AgentSettings(
    agentName: string,
    companyName: string,
    contactPerson: string,
    contactEmail: string,
    memoryTurns: int,
    openAiKey: string)

  function DefaultAgentSettings(openAiKey: string): AgentSettings {
    AgentSettings("Maayaa", "LoanCater", "Ryan", "ryan@loancater.com", 5, openAiKey)
  }

  /** The speaker name under which caller turns are stored. */
  const Caller := "Caller"

  const Apology := "I apologize, but I'm having trouble processing that right now. Could you please repeat?"

  // ---------------------------------------------------------------------
  // Conversation memory as a value

  /** `conversation_memory.get(call_id, [])`. */
  function HistoryIn(memory: map<string, seq<Turn>>, callId: string): seq<Turn> {
    if callId in memory then memory[callId] else []
  }

  /** The memory after appending `t` to the list of `callId`, creating the list if needed. */
  function Appended(memory: map<string, seq<Turn>>, callId: string, t: Turn): map<string, seq<Turn>> {
    memory[callId := HistoryIn(memory, callId) + [t]]
  }

  /** Appending grows the list of that call by exactly `t`; every other call keeps its list. */
  lemma AppendedEffect(memory: map<string, seq<Turn>>, callId: string, t: Turn, other: string)
    ensures HistoryIn(Appended(memory, callId, t), callId) == HistoryIn(memory, callId) + [t]
    ensures other != callId ==> HistoryIn(Appended(memory, callId, t), other) == HistoryIn(memory, other)
    ensures |HistoryIn(Appended(memory, callId, t), callId)| == |HistoryIn(memory, callId)| + 1
    ensures other != callId ==> (other in Appended(memory, callId, t) <==> other in memory)
  {
  }

  /** Clearing a call forgets its history and nothing else. */
  lemma ClearedEffect(memory: map<string, seq<Turn>>, callId: string, other: string)
    ensures HistoryIn(memory - {callId}, callId) == []
    ensures other != callId ==> HistoryIn(memory - {callId}, other) == HistoryIn(memory, other)
  {
  }

  // ---------------------------------------------------------------------
  // Stage and system prompt

  /** The stage is chosen from the number of stored turns alone. */
  function StageFor(length: nat): (st: Stage)
    ensures st == Opening <==> length == 0
    ensures st == Qualification <==> 1 <= length <= 2
    ensures st == Scheduling <==> length >= 3
  {
    if length == 0 then Opening
    else if length <= 2 then Qualification
    else Scheduling
  }

  /** The stage never moves backwards as the conversation grows. */
  lemma StageMonotone(m: nat, n: nat)
    requires m <= n
    ensures StageFor(m) == Scheduling ==> StageFor(n) == Scheduling
    ensures StageFor(n) == Opening ==> StageFor(m) == Opening
  {
  }

  /** The indentation of the continuation lines of the prompt templates. */
  const Indent := "            "

  /** The line break inside a prompt: a newline followed by the template's indentation. */
  const LineBreak := "\n" + Indent

  /** The first line of the prompt template of a stage. */
  function PromptHead(s: AgentSettings, leadName: string, stage: Stage): string {
    match stage
    case Opening => "You are " + s.agentName + ", calling on behalf of " + s.contactPerson + " from " + s.companyName + "."
    case Qualification => "You are " + s.agentName + " from " + s.companyName + ". " + "Keep responses short and conversational."
    case Scheduling => "You are " + s.agentName + " from " + s.companyName + ". " + leadName + " is interested."
  }

  /** The remaining lines of the prompt template of a stage, without their indentation. */
  function PromptBody(s: AgentSettings, leadName: string, stage: Stage): seq<string> {
    match stage
    case Opening => [
      "",
      "Start with a brief, warm introduction: \"Hi " + leadName + ", this is " + s.agentName
        + " calling on behalf of " + s.contactPerson + " from " + s.companyName + ".\"",
      "Then ask if they have a quick moment to discuss business financing.",
      "",
      "Keep it short and natural - like a real person talking.",
      "Don't give long speeches. Just introduce yourself and ask for their time.",
      "Speak quickly and efficiently - no gaps or delays.",
      "Respond immediately without hesitation."]
    case Qualification => [
      "",
      "Ask ONE question at a time:",
      "- \"What type of financing are you looking for?\"",
      "- \"What's the purpose of the loan?\"",
      "- \"What amount are you considering?\"",
      "",
      "Listen to their response and ask follow-up questions naturally.",
      "If they ask about " + s.companyName + ", give brief, helpful answers:",
      "- \"We offer business loans from $5K to $500K\"",
      "- \"Rates start at 8%\"",
      "- \"Approval in 24-48 hours\"",
      "",
      "Be conversational, not scripted. Speak quickly and efficiently.",
      "Respond immediately without delays."]
    case Scheduling => [
      "",
      "Move to scheduling naturally:",
      "- \"When would be a good time for " + s.contactPerson + " to call you?\"",
      "- Don't ask for email - use the email from their lead profile",
      "- Schedule the meeting and say " + s.contactPerson + " will send calendar invite",
      "",
      "Keep it simple and direct.",
      "Don't over-explain.",
      "Speak quickly and efficiently.",
      "Respond immediately without delays."]
  }

  /** Each line on a new line with the template's indentation. */
  function Continuation(lines: seq<string>): string {
    if lines == [] then "" else LineBreak + lines[0] + Continuation(lines[1..])
  }

  /** `_build_system_prompt`: the template of the stage, one line after another. */
  function SystemPrompt(s: AgentSettings, leadName: string, stage: Stage): string {
    PromptHead(s, leadName, stage) + Continuation(PromptBody(s, leadName, stage))
  }

  /** How the first line of a stage's prompt introduces the agent. */
  function Introduction(s: AgentSettings, stage: Stage): string {
    if stage == Opening then "You are " + s.agentName + ", calling on behalf of " + s.contactPerson
    else "You are " + s.agentName + " from " + s.companyName + ". "
  }

  lemma HeadIntroduces(s: AgentSettings, leadName: string, stage: Stage)
    ensures StartsWith(PromptHead(s, leadName, stage), Introduction(s, stage))
  {
    var pre := Introduction(s, stage);
    match stage
    case Opening =>
      StartsWithAppended(pre, " from ");
      StartsWithAppend(pre + " from ", s.companyName, pre);
      StartsWithAppend(pre + " from " + s.companyName, ".", pre);
    case Qualification =>
      StartsWithAppended(pre, "Keep responses short and conversational.");
    case Scheduling =>
      StartsWithAppended(pre, leadName);
      StartsWithAppend(pre + leadName, " is interested.", pre);
  }

  /** Every prompt starts with the introduction of its stage. */
  lemma PromptIntroduces(s: AgentSettings, leadName: string, stage: Stage)
    ensures StartsWith(SystemPrompt(s, leadName, stage), Introduction(s, stage))
  {
    HeadIntroduces(s, leadName, stage);
    StartsWithAppend(PromptHead(s, leadName, stage), Continuation(PromptBody(s, leadName, stage)), Introduction(s, stage));
  }

  /** The opening introduces the agent as calling on behalf of the contact person; the later stages as being from the company. */
  lemma PromptOpening(s: AgentSettings, leadName: string, stage: Stage)
    ensures stage == Opening ==>
      StartsWith(SystemPrompt(s, leadName, stage), "You are " + s.agentName + ", calling on behalf of " + s.contactPerson)
    ensures stage != Opening ==>
      StartsWith(SystemPrompt(s, leadName, stage), "You are " + s.agentName + " from " + s.companyName + ". ")
  {
    PromptIntroduces(s, leadName, stage);
  }

  /**
   * Right after the agent's name the opening prompt has a comma and the
   * later prompts a space, so the opening prompt differs from both.
   */
  lemma OpeningPromptDiffers(s: AgentSettings, leadName: string, stage: Stage)
    requires stage != Opening
    ensures var k := |"You are " + s.agentName|;
      k < |SystemPrompt(s, leadName, Opening)| && k < |SystemPrompt(s, leadName, stage)|
      && SystemPrompt(s, leadName, Opening)[k] == ',' && SystemPrompt(s, leadName, stage)[k] == ' '
    ensures SystemPrompt(s, leadName, Opening) != SystemPrompt(s, leadName, stage)
  {
    IntroductionsDiffer(s, stage);
    var k := |"You are " + s.agentName|;
    PromptCharAt(s, leadName, Opening, k);
    PromptCharAt(s, leadName, stage, k);
  }

  /** A prompt has the characters of its introduction. */
  lemma PromptCharAt(s: AgentSettings, leadName: string, stage: Stage, k: nat)
    requires k < |Introduction(s, stage)|
    ensures k < |SystemPrompt(s, leadName, stage)| && SystemPrompt(s, leadName, stage)[k] == Introduction(s, stage)[k]
  {
    PromptIntroduces(s, leadName, stage);
    StartsWithAt(SystemPrompt(s, leadName, stage), Introduction(s, stage), k);
  }

  lemma IntroductionsDiffer(s: AgentSettings, stage: Stage)
    requires stage != Opening
    ensures var k := |"You are " + s.agentName|;
      k < |Introduction(s, Opening)| && k < |Introduction(s, stage)|
      && Introduction(s, Opening)[k] == ',' && Introduction(s, stage)[k] == ' '
  {
  }

  /** The scheduling prompt names the lead. */
  lemma SchedulingNamesLead(s: AgentSettings, leadName: string)
    ensures Contains(SystemPrompt(s, leadName, Scheduling), leadName + " is interested.")
  {
    var pre := "You are " + s.agentName + " from " + s.companyName + ". ";
    var sub := leadName + " is interested.";
    var p := SystemPrompt(s, leadName, Scheduling);
    assert p == pre + sub + Continuation(PromptBody(s, leadName, Scheduling));
    assert p[|pre|..|pre| + |sub|] == sub;
    assert MatchAt(p, sub, |pre|);
  }

  // ---------------------------------------------------------------------
  // The message list

  function Min(a: int, b: int): int {
    if a <= b then a else b
  }

  /** Where Python's slice `h[x:]` starts in a list of length `n`. */
  function SliceStart(n: nat, x: int): (start: nat)
    ensures start <= n
    ensures x < 0 ==> start == if n + x < 0 then 0 else n + x
    ensures x >= 0 ==> start == Min(x, n)
  {
    if x < 0 then (if n + x < 0 then 0 else n + x)
    else if x < n then x else n
  }

  /**
   * `history[-memory_turns * 2:]`.  A positive setting keeps the last
   * `2 * memory_turns` turns (all of them when there are fewer); zero
   * keeps the whole history (`h[-0:]` is `h[0:]`); a negative setting drops
   * the first `-2 * memory_turns` turns.
   */
  function ContextWindow(history: seq<Turn>, memoryTurns: int): (w: seq<Turn>)
    ensures |w| <= |history| && w == history[|history| - |w|..]
    ensures memoryTurns > 0 ==> |w| == Min(|history|, 2 * memoryTurns)
    ensures memoryTurns == 0 ==> w == history
    ensures memoryTurns < 0 ==> |w| == |history| - Min(|history|, -2 * memoryTurns)
  {
    history[SliceStart(|history|, -memoryTurns * 2)..]
  }

  /** A history turn is the assistant's exactly when the agent spoke it. */
  function RoleOf(t: Turn, agentName: string): (r: Role)
    ensures r == Assistant <==> t.speaker == agentName
    ensures r != System
  {
    if t.speaker == agentName then Assistant else User
  }

  /**
   * `_build_messages`: the system prompt, the turns of the context window
   * in order with their roles, and the context as a final user message
   * only when it is non-empty.
   */
  function BuildMessages(prompt: string, context: string, history: seq<Turn>, agentName: string, memoryTurns: int): (ms: seq<Message>)
    ensures var w := ContextWindow(history, memoryTurns);
      |ms| == 1 + |w| + (if context != "" then 1 else 0)
      && ms[0] == Message(System, prompt)
      && (forall i :: 0 <= i < |w| ==> ms[1 + i] == Message(RoleOf(w[i], agentName), w[i].content))
      && (context != "" ==> ms[|ms| - 1] == Message(User, "Context: " + context))
  {
    var w := ContextWindow(history, memoryTurns);
    [Message(System, prompt)]
      + seq(|w|, i requires 0 <= i < |w| => Message(RoleOf(w[i], agentName), w[i].content))
      + (if context != "" then [Message(User, "Context: " + context)] else [])
  }

  /** Only the first message is a system message. */
  lemma OneSystemMessage(prompt: string, context: string, history: seq<Turn>, agentName: string, memoryTurns: int)
    ensures var ms := BuildMessages(prompt, context, history, agentName, memoryTurns);
      forall i :: 0 <= i < |ms| ==> (ms[i].role == System <==> i == 0)
  {
    var ms := BuildMessages(prompt, context, history, agentName, memoryTurns);
    var w := ContextWindow(history, memoryTurns);
    forall i | 0 < i < |ms| ensures ms[i].role != System {
      if i <= |w| {
        assert ms[1 + (i - 1)] == Message(RoleOf(w[i - 1], agentName), w[i - 1].content);
      }
    }
  }

  /** With a memory at least as long as the history every stored turn is sent. */
  lemma WholeHistorySent(history: seq<Turn>, memoryTurns: int)
    requires memoryTurns == 0 || 2 * memoryTurns >= |history|
    ensures ContextWindow(history, memoryTurns) == history
  {
  }

  // ---------------------------------------------------------------------
  // One reply

  /** `f"{firstName} {lastName}".strip()` of the lead, `""` when there is no lead. */
  function LeadName(lead: Option<Lead>): string {
    match lead
    case Some(l) => DisplayName(l.firstName, l.lastName)
    case None => ""
  }

  /** The message list for a reply to `lead` after `history`: the prompt of the stage `|history|` selects. */
  function RequestFor(s: AgentSettings, lead: Option<Lead>, context: string, history: seq<Turn>): (ms: seq<Message>)
    ensures |ms| >= 1 && ms[0] == Message(System, SystemPrompt(s, LeadName(lead), StageFor(|history|)))
  {
    BuildMessages(SystemPrompt(s, LeadName(lead), StageFor(|history|)), context, history, s.agentName, s.memoryTurns)
  }

  /** What the model answers to the request for a reply to `lead` in call `callId`. */
  function Answer(s: AgentSettings, memory: map<string, seq<Turn>>, lead: Option<Lead>, context: string,
                  callId: string, generate: seq<Message> -> Option<string>): Option<string>
  {
    generate(RequestFor(s, lead, context, HistoryIn(memory, callId)))
  }

  /** The text `generate_response` returns and the conversation memory it leaves. */
  datatype Reply = Reply(text: string, memory: map<string, seq<Turn>>)

  /**
   * `generate_response` once the model has answered: the text stripped,
   * stored as one agent turn when the call id is non-empty; the apology,
   * stored nowhere, when the model call failed.
   */
  function Respond(s: AgentSettings, memory: map<string, seq<Turn>>, callId: string,
                   answer: Option<string>, now: string): Reply
  {
    match answer
    case None => Reply(Apology, memory)
    case Some(text) =>
      var reply := Strip(text);
      Reply(reply, if callId != "" then Appended(memory, callId, Turn(s.agentName, reply, now)) else memory)
  }

  /** What `generate_response` returns and the memory it leaves, from the memory it starts with. */
  function Generated(s: AgentSettings, memory: map<string, seq<Turn>>, lead: Option<Lead>, context: string,
                     callId: string, generate: seq<Message> -> Option<string>, now: string): Reply
  {
    Respond(s, memory, callId, Answer(s, memory, lead, context, callId, generate), now)
  }

  /**
   * A successful reply to a non-empty call id adds exactly one agent turn
   * holding the returned text to that call and touches no other call; a
   * failed one returns the apology and changes nothing; an empty call id
   * stores nothing.
   */
  lemma RespondEffect(s: AgentSettings, memory: map<string, seq<Turn>>, callId: string,
                      answer: Option<string>, now: string, other: string)
    ensures var r := Respond(s, memory, callId, answer, now);
      (answer.None? ==> r.text == Apology && r.memory == memory)
      && (answer.Some? ==> r.text == Strip(answer.value))
      && (callId == "" ==> r.memory == memory)
      && (answer.Some? && callId != "" ==>
            HistoryIn(r.memory, callId) == HistoryIn(memory, callId) + [Turn(s.agentName, r.text, now)])
      && (other != callId ==> HistoryIn(r.memory, other) == HistoryIn(memory, other))
  {
    var r := Respond(s, memory, callId, answer, now);
    if callId != "" && answer.Some? {
      AppendedEffect(memory, callId, Turn(s.agentName, r.text, now), other);
    }
  }

  /** A model answer is passed on with its surrounding whitespace removed and nothing else changed. */
  lemma RespondText(s: AgentSettings, memory: map<string, seq<Turn>>, callId: string,
                    text: string, now: string)
    ensures var r := Respond(s, memory, callId, Some(text), now).text;
      (r == [] || (!IsSpace(r[0]) && !IsSpace(r[|r| - 1])))
      && exists k :: 0 <= k && k + |r| <= |text| && text[k..k + |r|] == r
           && AllSpace(text[..k]) && AllSpace(text[k + |r|..])
  {
    StripShape(text);
    var r := Strip(text);
    var k := |RStrip(text)| - |r|;
    assert text[k..k + |r|] == r;
  }

  // ---------------------------------------------------------------------
  // Outcome analysis

  const PositiveKeywords := [
    "interested", "yes", "sure", "okay", "good", "great", "perfect",
    "meeting", "schedule", "tomorrow", "call back", "definitely",
    "absolutely", "of course", "sounds good", "that works"]

  const NegativeKeywords := [
    "not interested", "no thanks", "busy", "not now", "later",
    "not available", "don't call", "stop calling", "not interested",
    "no time", "too busy", "maybe later"]

  const MeetingKeywords := [
    "meeting", "schedule", "tomorrow", "3 p.m.", "3 pm", "appointment",
    "call back", "follow up", "set up", "book"]

  /** The words that mark a caller turn as naming a time. */
  const TimeWords := ["pm", "am", "o'clock", "hour", "tomorrow", "today", "week", "3 p.m.", "3 pm", "3:00"]

  /** The words that mark an agent turn as confirming a meeting. */
  const ConfirmWords := ["tomorrow", "3 p.m.", "3 pm", "schedule", "meeting"]

  /** A turn by `speaker` whose lower-cased text contains one of the keywords. */
  predicate Says(t: Turn, speaker: string, keywords: seq<string>) {
    t.speaker == speaker && ContainsAny(Lower(t.content), keywords)
  }

  /** Some turn of the conversation `Says` one of the keywords. */
  predicate SaidAny(turns: seq<Turn>, speaker: string, keywords: seq<string>) {
    exists i | 0 <= i < |turns| :: Says(turns[i], speaker, keywords)
  }

  /** A keyword said in either part of a conversation is said in the whole, and only then. */
  lemma SaidAnyAppend(a: seq<Turn>, b: seq<Turn>, speaker: string, keywords: seq<string>)
    ensures SaidAny(a + b, speaker, keywords) <==> SaidAny(a, speaker, keywords) || SaidAny(b, speaker, keywords)
  {
    if SaidAny(a + b, speaker, keywords) {
      var i :| 0 <= i < |a + b| && Says((a + b)[i], speaker, keywords);
      if i < |a| {
        assert Says(a[i], speaker, keywords);
      } else {
        assert Says(b[i - |a|], speaker, keywords);
      }
    }
    if SaidAny(a, speaker, keywords) {
      var i :| 0 <= i < |a| && Says(a[i], speaker, keywords);
      assert (a + b)[i] == a[i];
    }
    if SaidAny(b, speaker, keywords) {
      var i :| 0 <= i < |b| && Says(b[i], speaker, keywords);
      assert (a + b)[|a| + i] == b[i];
    }
  }

  datatype Outcome = PositiveMeeting | Positive | Negative | Neutral

  /** The dict `analyze_conversation_outcome` returns. */
  datatype Analysis = Analysis(
    outcome: Outcome,
    positiveResponse: bool,
    negativeResponse: bool,
    meetingScheduled: bool,
    conversationLength: nat)

  /** The outcome precedence: a positive caller with a meeting, then positive, then negative, else neutral. */
  function Classify(positive: bool, negative: bool, meeting: bool): (o: Outcome)
    ensures o == PositiveMeeting <==> positive && meeting
    ensures o == Positive <==> positive && !meeting
    ensures o == Negative <==> !positive && negative
    ensures o == Neutral <==> !positive && !negative
  {
    if positive && meeting then PositiveMeeting
    else if positive then Positive
    else if negative then Negative
    else Neutral
  }

  /**
   * `analyze_conversation_outcome` on one conversation: positive and
   * negative words are looked for in caller turns, meeting words in agent
   * turns, all in lower case.
   */
  function Analyze(conversation: seq<Turn>, agentName: string): (a: Analysis)
    ensures a.conversationLength == |conversation|
    ensures a.outcome == PositiveMeeting <==> a.positiveResponse && a.meetingScheduled
    ensures a.outcome == Negative ==> a.negativeResponse && !a.positiveResponse
    ensures conversation == [] ==> a == Analysis(Neutral, false, false, false, 0)
  {
    var positive := SaidAny(conversation, Caller, PositiveKeywords);
    var negative := SaidAny(conversation, Caller, NegativeKeywords);
    var meeting := SaidAny(conversation, agentName, MeetingKeywords);
    Analysis(Classify(positive, negative, meeting), positive, negative, meeting, |conversation|)
  }

  /**
   * A caller who says "not interested" has also said "interested", a
   * positive keyword, so that conversation is never classified negative.
   */
  lemma NotInterestedIsPositive(conversation: seq<Turn>, agentName: string, i: nat)
    requires i < |conversation| && conversation[i].speaker == Caller
    requires Contains(Lower(conversation[i].content), "not interested")
    ensures Analyze(conversation, agentName).positiveResponse
    ensures Analyze(conversation, agentName).outcome != Negative
  {
    var c := Lower(conversation[i].content);
    assert "not interested"[4..14] == "interested";
    ContainsTransitive(c, "not interested", "interested", 4);
    assert PositiveKeywords[0] == "interested";
    assert Says(conversation[i], Caller, PositiveKeywords);
  }

  /** Turns by anyone other than the caller and the agent never change the analysis flags or outcome. */
  lemma OtherSpeakersIgnored(conversation: seq<Turn>, t: Turn, agentName: string)
    requires t.speaker != Caller && t.speaker != agentName
    ensures var before := Analyze(conversation, agentName);
      var after := Analyze(conversation + [t], agentName);
      after.outcome == before.outcome && after.positiveResponse == before.positiveResponse
      && after.negativeResponse == before.negativeResponse && after.meetingScheduled == before.meetingScheduled
  {
    SaidAnyAppend(conversation, [t], Caller, PositiveKeywords);
    SaidAnyAppend(conversation, [t], Caller, NegativeKeywords);
    SaidAnyAppend(conversation, [t], agentName, MeetingKeywords);
  }

  /** More turns never retract a flag, so a positive meeting stays a positive meeting. */
  lemma AnalysisGrows(conversation: seq<Turn>, more: seq<Turn>, agentName: string)
    ensures var before := Analyze(conversation, agentName);
      var after := Analyze(conversation + more, agentName);
      (before.positiveResponse ==> after.positiveResponse)
      && (before.negativeResponse ==> after.negativeResponse)
      && (before.meetingScheduled ==> after.meetingScheduled)
      && (before.outcome == PositiveMeeting ==> after.outcome == PositiveMeeting)
  {
    SaidAnyAppend(conversation, more, Caller, PositiveKeywords);
    SaidAnyAppend(conversation, more, Caller, NegativeKeywords);
    SaidAnyAppend(conversation, more, agentName, MeetingKeywords);
  }

  // ---------------------------------------------------------------------
  // Meeting extraction

  /** The index of the first turn from `i` on that `Says` one of the keywords. */
  function FirstSaying(turns: seq<Turn>, speaker: string, keywords: seq<string>, i: nat): (r: Option<nat>)
    decreases |turns| - i
    ensures r.Some? ==> i <= r.value < |turns| && Says(turns[r.value], speaker, keywords)
    ensures r.Some? ==> forall j :: i <= j < r.value ==> !Says(turns[j], speaker, keywords)
    ensures r.None? ==> forall j :: i <= j < |turns| ==> !Says(turns[j], speaker, keywords)
  {
    if i >= |turns| then None
    else if Says(turns[i], speaker, keywords) then Some(i)
    else FirstSaying(turns, speaker, keywords, i + 1)
  }

  /** What the agent's confirming turn `content` (lower-cased) makes of the meeting time, given the caller's pick. */
  function Confirmed(content: string, callerPick: Option<string>): Option<string> {
    if Contains(content, "3 p.m.") || Contains(content, "3 pm") then Some("3:00 PM MST")
    else if Contains(content, "tomorrow") then Some("Tomorrow (Time TBD)")
    else callerPick
  }

  /**
   * `extract_meeting_details` on one conversation: the original text of the
   * first caller turn naming a time, overridden by the first agent turn
   * that confirms a meeting when that turn names 3 pm or tomorrow.
   */
  function MeetingTime(conversation: seq<Turn>, agentName: string): Option<string> {
    var callerPick :=
      match FirstSaying(conversation, Caller, TimeWords, 0)
      case Some(i) => Some(conversation[i].content)
      case None => None;
    match FirstSaying(conversation, agentName, ConfirmWords, 0)
    case Some(j) => Confirmed(Lower(conversation[j].content), callerPick)
    case None => callerPick
  }

  /** Without a confirming agent turn, the meeting time is the first caller turn that names a time, as spoken. */
  lemma MeetingFromCaller(conversation: seq<Turn>, agentName: string)
    requires !SaidAny(conversation, agentName, ConfirmWords)
    ensures MeetingTime(conversation, agentName).None? <==> !SaidAny(conversation, Caller, TimeWords)
    ensures MeetingTime(conversation, agentName).Some? ==>
      exists i :: 0 <= i < |conversation| && Says(conversation[i], Caller, TimeWords)
        && MeetingTime(conversation, agentName).value == conversation[i].content
        && forall j :: 0 <= j < i ==> !Says(conversation[j], Caller, TimeWords)
  {
    if SaidAny(conversation, Caller, TimeWords) {
      var i :| 0 <= i < |conversation| && Says(conversation[i], Caller, TimeWords);
      assert FirstSaying(conversation, Caller, TimeWords, 0).Some?;
    }
  }

  /** A first confirming agent turn naming 3 pm fixes the time, whatever the caller said. */
  lemma MeetingAgentOverrides(conversation: seq<Turn>, agentName: string, j: nat)
    requires j < |conversation| && Says(conversation[j], agentName, ConfirmWords)
    requires forall k :: 0 <= k < j ==> !Says(conversation[k], agentName, ConfirmWords)
    ensures var c := Lower(conversation[j].content);
      (Contains(c, "3 p.m.") || Contains(c, "3 pm")) ==> MeetingTime(conversation, agentName) == Some("3:00 PM MST")
    ensures var c := Lower(conversation[j].content);
      (!Contains(c, "3 p.m.") && !Contains(c, "3 pm") && Contains(c, "tomorrow"))
        ==> MeetingTime(conversation, agentName) == Some("Tomorrow (Time TBD)")
  {
    assert FirstSaying(conversation, agentName, ConfirmWords, 0) == Some(j);
  }

  /** A meeting time is one of the two fixed phrases or the words of a caller turn that names a time. */
  lemma MeetingTimeSource(conversation: seq<Turn>, agentName: string)
    ensures var m := MeetingTime(conversation, agentName);
      m.Some? ==> (m.value == "3:00 PM MST" || m.value == "Tomorrow (Time TBD)"
        || exists i :: 0 <= i < |conversation| && Says(conversation[i], Caller, TimeWords) && m.value == conversation[i].content)
  {
    var f := FirstSaying(conversation, Caller, TimeWords, 0);
    if f.Some? {
      assert Says(conversation[f.value], Caller, TimeWords);
    }
  }

  /** No time is extracted when no caller turn names a time and no agent turn mentions 3 pm or tomorrow. */
  lemma NoMeetingTime(conversation: seq<Turn>, agentName: string)
    requires !SaidAny(conversation, Caller, TimeWords)
    requires forall j :: 0 <= j < |conversation| && conversation[j].speaker == agentName ==>
      var c := Lower(conversation[j].content);
      !Contains(c, "3 p.m.") && !Contains(c, "3 pm") && !Contains(c, "tomorrow")
    ensures MeetingTime(conversation, agentName) == None
  {
    var g := FirstSaying(conversation, agentName, ConfirmWords, 0);
    if g.Some? {
      assert conversation[g.value].speaker == agentName;
    }
  }

  /** A keyword found at a known index makes a turn `Say` it. */
  lemma SaysAt(t: Turn, speaker: string, keywords: seq<string>, k: nat, i: nat)
    requires t.speaker == speaker && k < |keywords| && MatchAt(Lower(t.content), keywords[k], i)
    ensures Says(t, speaker, keywords)
  {
    assert Contains(Lower(t.content), keywords[k]);
  }

  // The three example turns, written around the keyword each is found by.
  const ExampleFirst := "I need equi" + "pm" + "ent financing"
  const ExampleAgreement := "tomorrow" + " at 3 PM would work"
  const ExampleConfirmation := "I've scheduled your " + "meeting" + (" for " + "3 p.m." + " tomorrow")

  lemma FirstNamesPm()
    ensures MatchAt(Lower(ExampleFirst), "pm", 11)
  {
    LowerMatchBetween("I need equi", "pm", "ent financing");
  }

  lemma AgreementSaysTomorrow()
    ensures MatchAt(Lower(ExampleAgreement), "tomorrow", 0)
  {
    LowerMatchAtStart("tomorrow", " at 3 PM would work");
  }

  lemma ConfirmationSaysMeeting()
    ensures MatchAt(Lower(ExampleConfirmation), "meeting", 20)
  {
    LowerMatchBetween("I've scheduled your ", "meeting", " for " + "3 p.m." + " tomorrow");
  }

  lemma ConfirmationSaysThreePm()
    ensures MatchAt(Lower(ExampleConfirmation), "3 p.m.", 32)
  {
    var a, b, c, d, e := "I've scheduled your ", "meeting", " for ", "3 p.m.", " tomorrow";
    AppendRegroup(a, b, c, d, e);
    LowerMatchBetween(a + b + c, d, e);
  }

  /**
   * A short scheduling call: the caller asks for equipment financing
   * ("equipment" contains "pm", so that first turn already counts as naming
   * a time) and agrees to tomorrow at 3 PM; the agent confirms "3 p.m.
   * tomorrow".  The outcome is a positive meeting at 3:00 PM MST.
   */
  lemma SchedulingCallExample(agentName: string, ts: string)
    requires agentName != Caller
    ensures var conversation := [
        Turn(Caller, ExampleFirst, ts),
        Turn(Caller, "around $50,000 for kitchen equipment", ts),
        Turn(Caller, ExampleAgreement, ts),
        Turn(agentName, ExampleConfirmation, ts)];
      MeetingTime(conversation, agentName) == Some("3:00 PM MST")
      && Analyze(conversation, agentName).outcome == PositiveMeeting
  {
    var conversation := [
        Turn(Caller, ExampleFirst, ts),
        Turn(Caller, "around $50,000 for kitchen equipment", ts),
        Turn(Caller, ExampleAgreement, ts),
        Turn(agentName, ExampleConfirmation, ts)];
    FirstNamesPm();
    AgreementSaysTomorrow();
    ConfirmationSaysMeeting();
    ConfirmationSaysThreePm();
    SaysAt(conversation[2], Caller, PositiveKeywords, 9, 0);
    SaysAt(conversation[3], agentName, MeetingKeywords, 0, 20);
    assert SaidAny(conversation, Caller, PositiveKeywords);
    assert SaidAny(conversation, agentName, MeetingKeywords);
    SaysAt(conversation[3], agentName, ConfirmWords, 4, 20);
    assert Contains(Lower(conversation[3].content), "3 p.m.");
    MeetingAgentOverrides(conversation, agentName, 3);
  }

  // ---------------------------------------------------------------------
  // The AILogic object

  class AiLogic {
    const settings: AgentSettings
    /** `conversation_memory`: the turns of every call, by call id. */
    var memory: map<string, seq<Turn>>

    constructor (settings: AgentSettings)
      ensures this.settings == settings && memory == map[]
    {
      this.settings := settings;
      memory := map[];
    }

    /** `get_conversation_history`: the stored turns of a call, `[]` for an unknown call. */
    function ConversationHistory(callId: string): (h: seq<Turn>)
      reads this
      ensures callId !in memory ==> h == []
      ensures callId in memory ==> h == memory[callId]
    {
      HistoryIn(memory, callId)
    }

    /** `is_configured`: an OpenAI key is set. */
    predicate IsConfigured() {
      settings.openAiKey != ""
    }

    /** `generate_response`: the reply and the new memory are those of `Respond`. */
    method GenerateResponse(lead: Option<Lead>, context: string, callId: string,
                            generate: seq<Message> -> Option<string>, now: string) returns (reply: string)
      modifies this
      ensures var r := Generated(settings, old(memory), lead, context, callId, generate, now);
        reply == r.text && memory == r.memory
    {
      // The messages built from the call's stored history go to the model.
      var answer := Answer(settings, memory, lead, context, callId, generate);
      reply := TakeAnswer(callId, answer, now);
    }

    /** The part of `generate_response` after the model call: strip and store the answer, or apologise. */
    method TakeAnswer(callId: string, answer: Option<string>, now: string) returns (reply: string)
      modifies this
      ensures var r := Respond(settings, old(memory), callId, answer, now);
        reply == r.text && memory == r.memory
    {
      if answer.None? {
        return Apology;
      }
      reply := Strip(answer.value);
      if callId != "" {
        memory := Appended(memory, callId, Turn(settings.agentName, reply, now));
      }
    }

    /** `store_user_response`: one caller turn for a non-empty call id, nothing otherwise. */
    method StoreUserResponse(callId: string, userResponse: string, now: string)
      modifies this
      ensures callId != "" ==> memory == Appended(old(memory), callId, Turn(Caller, userResponse, now))
      ensures callId == "" ==> memory == old(memory)
    {
      if callId != "" {
        memory := Appended(memory, callId, Turn(Caller, userResponse, now));
      }
    }

    /** `clear_conversation`: the call's history is dropped. */
    method ClearConversation(callId: string)
      modifies this
      ensures memory == old(memory) - {callId}
    {
      if callId in memory {
        memory := memory - {callId};
      }
    }

    /** `analyze_conversation_outcome` for a stored call. */
    function AnalyzeConversationOutcome(callId: string): (a: Analysis)
      reads this
      ensures a.conversationLength == |ConversationHistory(callId)|
      ensures callId !in memory ==> a.outcome == Neutral
    {
      Analyze(ConversationHistory(callId), settings.agentName)
    }

    /** `extract_meeting_details`: two scans over the stored turns, each stopping at its first match. */
    method ExtractMeetingDetails(callId: string) returns (meetingTime: Option<string>)
      ensures meetingTime == MeetingTime(ConversationHistory(callId), settings.agentName)
    {
      var conversation := ConversationHistory(callId);
      meetingTime := None;
      var i := 0;
      while i < |conversation|
        invariant 0 <= i <= |conversation|
        invariant FirstSaying(conversation, Caller, TimeWords, 0) == FirstSaying(conversation, Caller, TimeWords, i)
        invariant meetingTime == None
      {
        if conversation[i].speaker == Caller {
          var content := Lower(conversation[i].content);
          if ContainsAny(content, TimeWords) {
            meetingTime := Some(conversation[i].content);
            break;
          }
        }
        i := i + 1;
      }
      ghost var callerPick := meetingTime;
      assert callerPick == match FirstSaying(conversation, Caller, TimeWords, 0)
        case Some(k) => Some(conversation[k].content) case None => None;
      var j := 0;
      while j < |conversation|
        invariant 0 <= j <= |conversation|
        invariant FirstSaying(conversation, settings.agentName, ConfirmWords, 0)
               == FirstSaying(conversation, settings.agentName, ConfirmWords, j)
        invariant meetingTime == callerPick
      {
        if conversation[j].speaker == settings.agentName {
          var content := Lower(conversation[j].content);
          if ContainsAny(content, ConfirmWords) {
            if Contains(content, "3 p.m.") || Contains(content, "3 pm") {
              meetingTime := Some("3:00 PM MST");
            } else if Contains(content, "tomorrow") {
              meetingTime := Some("Tomorrow (Time TBD)");
            }
            assert meetingTime == Confirmed(content, callerPick);
            break;
          }
        }
        j := j + 1;
      }
    }
  }
}
