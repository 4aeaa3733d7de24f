/**
 * The scripted call of the voice-conversation test, replayed through the
 * outcome analysis and the meeting extraction.  Its four agent questions
 * mention neither a time nor a meeting; its closing line names "3:00 PM",
 * which is neither "3 p.m." nor "3 pm", and "tomorrow"; so the extracted
 * meeting time is the "tomorrow" phrase, not the caller's words.
 *
 * The proofs of absence work piece by piece: each piece of an agent line
 * lacks, in either case, some letter of each confirm word and the digit 3,
 * and each piece but the last ends in a character that no confirm word has,
 * so no occurrence can straddle two pieces.
 */
module VoiceTest {
  import opened Wrappers
  import opened Text
  import opened Conversation

  /** No `'3'`, and none of the spelled-out confirm words once lower-cased. */
  predicate Unconfirming(p: string) {
    '3' !in p && !Contains(Lower(p), "tomorrow") && !Contains(Lower(p), "schedule") && !Contains(Lower(p), "meeting")
  }

  /** A piece is unconfirming when its lower-cased text avoids `'3'` and a letter of each confirm word. */
  lemma PieceUnconfirming(p: string, cs: string, t: nat, s: nat, m: nat)
    requires Avoids(Lower(p), cs) && '3' in cs
    requires t < 8 && "tomorrow"[t] in cs && s < 8 && "schedule"[s] in cs && m < 7 && "meeting"[m] in cs
    ensures Unconfirming(p)
  {
    AvoidsMisses(Lower(p), cs, "tomorrow", t);
    AvoidsMisses(Lower(p), cs, "schedule", s);
    AvoidsMisses(Lower(p), cs, "meeting", m);
    forall i | 0 <= i < |p| ensures p[i] != '3' {
      assert Lower(p)[i] !in cs;
    }
  }

  /** Unconfirming pieces, each but the last ending outside the confirm words' letters, join into an unconfirming text. */
  lemma {:induction false} JoinUnconfirming(parts: seq<string>)
    requires forall i | 0 <= i < |parts| :: Unconfirming(parts[i])
    requires forall i | 0 <= i < |parts| - 1 ::
      parts[i] != [] && LowerChar(parts[i][|parts[i]| - 1]) !in "tomorrowschedulemeeting"
    ensures Unconfirming(Join(parts, ""))
  {
    JoinLacks(parts, '3');
    JoinAvoids(parts, "tomorrow");
    JoinAvoids(parts, "schedule");
    JoinAvoids(parts, "meeting");
  }

  /** An unconfirming text contains none of the confirm words. */
  lemma UnconfirmingSaysNothing(p: string)
    requires Unconfirming(p)
    ensures !ContainsAny(Lower(p), ConfirmWords)
  {
    LowerLacks(p, '3');
    forall j | 0 <= j < |ConfirmWords| ensures !Contains(Lower(p), ConfirmWords[j]) {
      if j == 1 {
        AbsentChar(Lower(p), "3 p.m.", 0);
      } else if j == 2 {
        AbsentChar(Lower(p), "3 pm", 0);
      }
    }
  }

  /** The agent's greeting, in the pieces its proof works on. */
  const Greeting := [
    "Hi John, this is Maayaa ",
    "calling on behalf of Rya",
    "n from LoanCater. Do you ",
    "have a quick moment to ",
    "discuss business fina",
    "ncing?"]

  /** The agent's question about the kind of financing, in the pieces its proof works on. */
  const TypeQuestion := [
    "Great! What type of fina",
    "ncing are you looking f",
    "or?"]

  /** The agent's question about the amount, in the pieces its proof works on. */
  const AmountQuestion := [
    "Equipment fina",
    "ncing might b",
    "e perfect for you. What a",
    "mount are you ",
    "considering?"]

  /** The agent's question about a time for the call back, in the pieces its proof works on. */
  const TimeQuestion := [
    "That's a good amount. ",
    "When would be a good ",
    "time for Ryan to call y",
    "ou to discuss the deta",
    "ils?"]

  /** The agent's closing line, written around its only `'3'` and its "tomorrow". */
  const ClosingBefore := "Perfect! I've scheduled " + "your meeting with Ryan " + "for "
  const ClosingTime := "00 PM MST "
  const ClosingAfter := ". You'll receive a calen" + "dar invite shortly."
  const Closing := ClosingBefore + "3:" + (ClosingTime + "tomorrow" + ClosingAfter)

  /** A call of alternating turns, the agent speaking first, with the given lines. */
  function Script(agentName: string, ts: string, lines: seq<string>): (c: seq<Turn>)
    ensures |c| == |lines|
    ensures forall k | 0 <= k < |lines| :: c[k].content == lines[k] && c[k].timestamp == ts
    ensures forall k | 0 <= k < |lines| :: c[k].speaker == if k % 2 == 0 then agentName else Caller
  {
    seq(|lines|, k requires 0 <= k < |lines| => Turn(if k % 2 == 0 then agentName else Caller, lines[k], ts))
  }

  /** The lines of the test's conversation: its "AI" lines are the agent's, its "User" lines the caller's. */
  const TestLines := [
    Join(Greeting, ""),
    "Yes, I'm " + "interested" + " in a business loan.",
    Join(TypeQuestion, ""),
    "I need equipment financing for my restaurant.",
    Join(AmountQuestion, ""),
    "Around $50,000 for kitchen equipment.",
    Join(TimeQuestion, ""),
    "Tomorrow at 3 PM would work.",
    Closing]

  /** The pieces without any of `3rce` once lower-cased. */
  lemma PiecesAvoiding3rce()
    ensures Unconfirming("Hi John, this is Maayaa ")
    ensures Unconfirming("That's a good amount. ")
  {
    PieceUnconfirming("Hi John, this is Maayaa ", "3rce", 4, 1, 1);
    PieceUnconfirming("That's a good amount. ", "3rce", 4, 1, 1);
  }

  /** The pieces without any of `3tsm` once lower-cased. */
  lemma PiecesAvoiding3tsm()
    ensures Unconfirming("calling on behalf of Rya")
    ensures Unconfirming("ncing?")
    ensures Unconfirming("ncing are you looking f")
    ensures Unconfirming("or?")
    ensures Unconfirming("When would be a good ")
  {
    PieceUnconfirming("calling on behalf of Rya", "3tsm", 0, 0, 0);
    PieceUnconfirming("ncing?", "3tsm", 0, 0, 0);
    PieceUnconfirming("ncing are you looking f", "3tsm", 0, 0, 0);
    PieceUnconfirming("or?", "3tsm", 0, 0, 0);
    PieceUnconfirming("When would be a good ", "3tsm", 0, 0, 0);
  }

  /** The pieces without any of `3wsi` once lower-cased. */
  lemma PiecesAvoiding3wsi()
    ensures Unconfirming("n from LoanCater. Do you ")
    ensures Unconfirming("mount are you ")
  {
    PieceUnconfirming("n from LoanCater. Do you ", "3wsi", 7, 0, 4);
    PieceUnconfirming("mount are you ", "3wsi", 7, 0, 4);
  }

  /** The piece without any of `3rsg` once lower-cased. */
  lemma PiecesAvoiding3rsg()
    ensures Unconfirming("have a quick moment to ")
  {
    PieceUnconfirming("have a quick moment to ", "3rsg", 4, 0, 6);
  }

  /** The pieces without any of `3thm` once lower-cased. */
  lemma PiecesAvoiding3thm()
    ensures Unconfirming("discuss business fina")
    ensures Unconfirming("considering?")
  {
    PieceUnconfirming("discuss business fina", "3thm", 0, 2, 0);
    PieceUnconfirming("considering?", "3thm", 0, 2, 0);
  }

  /** The pieces without any of `3ms` once lower-cased. */
  lemma PiecesAvoiding3ms()
    ensures Unconfirming("Great! What type of fina")
    ensures Unconfirming("e perfect for you. What a")
  {
    PieceUnconfirming("Great! What type of fina", "3ms", 2, 0, 0);
    PieceUnconfirming("e perfect for you. What a", "3ms", 2, 0, 0);
  }

  /** The piece without any of `3osg` once lower-cased. */
  lemma PiecesAvoiding3osg()
    ensures Unconfirming("Equipment fina")
  {
    PieceUnconfirming("Equipment fina", "3osg", 1, 0, 6);
  }

  /** The piece without any of `3ose` once lower-cased. */
  lemma PiecesAvoiding3ose()
    ensures Unconfirming("ncing might b")
  {
    PieceUnconfirming("ncing might b", "3ose", 1, 0, 1);
  }

  /** The piece without any of `3wsg` once lower-cased. */
  lemma PiecesAvoiding3wsg()
    ensures Unconfirming("time for Ryan to call y")
  {
    PieceUnconfirming("time for Ryan to call y", "3wsg", 7, 0, 6);
  }

  /** The piece without any of `3ml` once lower-cased. */
  lemma PiecesAvoiding3ml()
    ensures Unconfirming("ou to discuss the deta")
  {
    PieceUnconfirming("ou to discuss the deta", "3ml", 2, 6, 0);
  }

  /** The piece without any of `3tcm` once lower-cased. */
  lemma PiecesAvoiding3tcm()
    ensures Unconfirming("ils?")
  {
    PieceUnconfirming("ils?", "3tcm", 0, 1, 0);
  }

  lemma GreetingUnconfirmed()
    ensures !ContainsAny(Lower(Join(Greeting, "")), ConfirmWords)
  {
    PiecesAvoiding3rce(); PiecesAvoiding3tsm(); PiecesAvoiding3wsi(); PiecesAvoiding3rsg(); PiecesAvoiding3thm();
    JoinUnconfirming(Greeting);
    UnconfirmingSaysNothing(Join(Greeting, ""));
  }

  lemma TypeQuestionUnconfirmed()
    ensures !ContainsAny(Lower(Join(TypeQuestion, "")), ConfirmWords)
  {
    PiecesAvoiding3ms(); PiecesAvoiding3tsm();
    JoinUnconfirming(TypeQuestion);
    UnconfirmingSaysNothing(Join(TypeQuestion, ""));
  }

  lemma AmountQuestionUnconfirmed()
    ensures !ContainsAny(Lower(Join(AmountQuestion, "")), ConfirmWords)
  {
    PiecesAvoiding3osg(); PiecesAvoiding3ose(); PiecesAvoiding3ms(); PiecesAvoiding3wsi(); PiecesAvoiding3thm();
    JoinUnconfirming(AmountQuestion);
    UnconfirmingSaysNothing(Join(AmountQuestion, ""));
  }

  lemma TimeQuestionUnconfirmed()
    ensures !ContainsAny(Lower(Join(TimeQuestion, "")), ConfirmWords)
  {
    PiecesAvoiding3rce(); PiecesAvoiding3tsm(); PiecesAvoiding3wsg(); PiecesAvoiding3ml(); PiecesAvoiding3tcm();
    JoinUnconfirming(TimeQuestion);
    UnconfirmingSaysNothing(Join(TimeQuestion, ""));
  }

  /** The closing line says "tomorrow" but neither "3 p.m." nor "3 pm": its one `'3'` is followed by `':'`. */
  lemma ClosingNamesTomorrowOnly()
    ensures Contains(Lower(Closing), "tomorrow")
    ensures !Contains(Lower(Closing), "3 p.m.") && !Contains(Lower(Closing), "3 pm")
  {
    var rest := ClosingTime + "tomorrow" + ClosingAfter;
    assert '3' !in ClosingBefore && '3' !in rest;
    LowerLacks(ClosingBefore, '3');
    LowerLacks(rest, '3');
    LowerAppend(ClosingBefore + "3:", rest);
    LowerAppend(ClosingBefore, "3:");
    assert Lower("3:") == ['3', ':'];
    SingleStartNoMatch(Lower(ClosingBefore), '3', ':', Lower(rest), "3 p.m.");
    SingleStartNoMatch(Lower(ClosingBefore), '3', ':', Lower(rest), "3 pm");
    LowerMatchBetween(ClosingTime, "tomorrow", ClosingAfter);
    ContainsAt(Lower(rest), "tomorrow", |ClosingTime|);
    ContainsAppend(Lower(ClosingBefore) + "3:", Lower(rest), "tomorrow");
  }

  /**
   * In a nine-turn script whose first four agent lines confirm nothing and
   * whose closing line says "tomorrow" without "3 p.m." or "3 pm", the
   * meeting time is "Tomorrow (Time TBD)", whatever the caller said.
   */
  lemma ScriptMeeting(agentName: string, ts: string, lines: seq<string>)
    requires |lines| == 9 && agentName != Caller
    requires forall k | 0 <= k < 4 :: !ContainsAny(Lower(lines[2 * k]), ConfirmWords)
    requires Contains(Lower(lines[8]), "tomorrow")
    requires !Contains(Lower(lines[8]), "3 p.m.") && !Contains(Lower(lines[8]), "3 pm")
    ensures MeetingTime(Script(agentName, ts, lines), agentName) == Some("Tomorrow (Time TBD)")
  {
    var c := Script(agentName, ts, lines);
    forall k | 0 <= k < 8 ensures !Says(c[k], agentName, ConfirmWords) {
      if k % 2 == 0 {
        assert lines[2 * (k / 2)] == lines[k];
      }
    }
    assert ConfirmWords[0] == "tomorrow";
    assert Says(c[8], agentName, ConfirmWords);
    MeetingAgentOverrides(c, agentName, 8);
  }

  /** A script whose caller says "interested" in its second line and whose agent says "tomorrow" at the end is a positive meeting. */
  lemma ScriptOutcome(agentName: string, ts: string, lines: seq<string>)
    requires |lines| == 9
    requires Contains(Lower(lines[1]), "interested") && Contains(Lower(lines[8]), "tomorrow")
    ensures Analyze(Script(agentName, ts, lines), agentName).outcome == PositiveMeeting
  {
    var c := Script(agentName, ts, lines);
    assert PositiveKeywords[0] == "interested" && MeetingKeywords[2] == "tomorrow";
    assert Says(c[1], Caller, PositiveKeywords);
    assert Says(c[8], agentName, MeetingKeywords);
  }

  /** The test's agent questions confirm nothing. */
  lemma QuestionsUnconfirmed()
    ensures forall k | 0 <= k < 4 :: !ContainsAny(Lower(TestLines[2 * k]), ConfirmWords)
  {
    forall k | 0 <= k < 4 ensures !ContainsAny(Lower(TestLines[2 * k]), ConfirmWords) {
      if k == 0 {
        GreetingUnconfirmed();
      } else if k == 1 {
        TypeQuestionUnconfirmed();
      } else if k == 2 {
        AmountQuestionUnconfirmed();
      } else {
        TimeQuestionUnconfirmed();
      }
    }
  }

  /** Replayed, the test's conversation yields the meeting time "Tomorrow (Time TBD)". */
  lemma VoiceTestMeeting(agentName: string, ts: string)
    requires agentName != Caller
    ensures MeetingTime(Script(agentName, ts, TestLines), agentName) == Some("Tomorrow (Time TBD)")
  {
    QuestionsUnconfirmed();
    ClosingNamesTomorrowOnly();
    ScriptMeeting(agentName, ts, TestLines);
  }

  /** The caller's "interested" and the agent's "tomorrow" make the test's outcome "positive_meeting". */
  lemma VoiceTestOutcome(agentName: string, ts: string)
    ensures Analyze(Script(agentName, ts, TestLines), agentName).outcome == PositiveMeeting
  {
    ClosingNamesTomorrowOnly();
    LowerMatchBetween("Yes, I'm ", "interested", " in a business loan.");
    ContainsAt(Lower(TestLines[1]), "interested", 9);
    ScriptOutcome(agentName, ts, TestLines);
  }
}
