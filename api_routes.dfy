/**
 * The session state machine behind the two session endpoints: a store of
 * sessions keyed by id, `StartSession` to open one, and `Message` to add a
 * patient turn, finalise on a closing phrase, and apply the red-flag overlay
 * to the extracted report.
 *
 * The session id generator, the clock and the extraction backend are passed in.
 */
module ApiRoutes {
  import opened Wrappers
  import opened Text
  import opened Schemas
  import opened Utils
  import opened SymptomChain

  const Greeting: string := "Hello, what brings you today?"
  const PlaceholderQuestion: string := "Can you tell me when the symptoms started?"
  /** The closing phrases, compared with the trimmed, lower-cased message. */
  const FinalPhrases: seq<string> := ["done", "finish", "that's all", "i'm done"]
  const Emergency: string := "emergency"
  const GoToEmergency: string := "go-to-emergency"

  /** A session's lifecycle status. */
  datatype Status = InProgress | Completed {
    /**
     * The value stored under "status": one of two fixed strings, "completed"
     * exactly for a completed session.
     */
    function Label(): (l: string)
      ensures l == "in_progress" || l == "completed"
      ensures l == "completed" <==> this == Completed
    {
      match this
      case InProgress => "in_progress"
      case Completed => "completed"
    }
  }

  /** One session record; `structured` is absent until the session is finalised. */
  datatype Session = Session(
    patientId: Option<string>,
    chatHistory: string,
    createdAt: string,
    status: Status,
    structured: Option<StructuredReport>)

  /** What `message` answers: 404, a raised extraction, the final report, or the next question. */
  datatype MessageReply =
    | NotFound
    | ExtractionFailed(error: ExtractionError)
    | Finished(structured: StructuredReport)
    | Asked(botMessage: string)

  /** The message closes the session: trimmed and lower-cased, it is exactly one of the closing phrases. */
  predicate IsFinalMessage(text: string)
    ensures IsFinalMessage(text) ==> 4 <= |Strip(text)| <= 10
  {
    Lower(Strip(text)) in FinalPhrases
  }

  /**
   * What every message appends to the history before anything else happens:
   * the message, verbatim, between the speaker labels.
   */
  function PatientTurn(text: string): (turn: string)
    ensures Contains(turn, text)
    ensures |turn| == |text| + 16
  {
    ContainsMiddle("\nPatient: ", text, "\nBot: ");
    "\nPatient: " + text + "\nBot: "
  }

  /** A flagged report carries the emergency urgency and next action. */
  predicate OverlayHolds(r: StructuredReport) {
    HasRedFlag(r) ==> r.urgency == Some(Emergency) && r.recommendedNextAction == Some(GoToEmergency)
  }

  /**
   * The safety overlay: on a flagged report, urgency and next action are
   * overwritten with the emergency values whatever the model said; an
   * unflagged report keeps both. No other field changes.
   */
  function SafetyOverlay(r: StructuredReport): (o: StructuredReport)
    ensures OverlayHolds(o)
    ensures HasRedFlag(r) ==> o.urgency == Some(Emergency) && o.recommendedNextAction == Some(GoToEmergency)
    ensures !HasRedFlag(r) ==> o.urgency == r.urgency && o.recommendedNextAction == r.recommendedNextAction
    ensures o.(urgency := r.urgency, recommendedNextAction := r.recommendedNextAction) == r
  {
    if HasRedFlag(r) then
      var o := r.(urgency := Some(Emergency), recommendedNextAction := Some(GoToEmergency));
      assert SymptomsOf(o) == SymptomsOf(r) && SnippetsOf(o) == SnippetsOf(r);
      o
    else r
  }

  /** Applying the overlay again changes nothing: an override is never reverted. */
  lemma OverlayIdempotent(r: StructuredReport)
    ensures SafetyOverlay(SafetyOverlay(r)) == SafetyOverlay(r)
  {
    var o := SafetyOverlay(r);
    assert SymptomsOf(o) == SymptomsOf(r) && SnippetsOf(o) == SnippetsOf(r);
  }

  /** The record invariant: completed exactly when a report is stored, and a stored report obeys the overlay. */
  predicate SessionOk(s: Session) {
    && (s.status == Completed <==> s.structured.Some?)
    && (s.structured.Some? ==> OverlayHolds(s.structured.value))
  }

  /**
   * One `message` call on an existing session. The patient turn is appended
   * first. A closing phrase runs the extraction on the extended history: on
   * success the overlaid report is stored and the session completes; on failure
   * only the appended turn remains. Any other message appends the placeholder
   * question and leaves status and report alone.
   */
  function MessageStep(s: Session, text: string, b: Backend, now: string): (res: (Session, MessageReply))
    ensures s.chatHistory + PatientTurn(text) <= res.0.chatHistory
    ensures res.0.patientId == s.patientId && res.0.createdAt == s.createdAt
    ensures !res.1.NotFound?
    ensures s.status == Completed ==> res.0.status == Completed
    ensures SessionOk(s) ==> SessionOk(res.0)
    ensures res.1.Finished?
        <==> IsFinalMessage(text) && Extraction(s.chatHistory + PatientTurn(text), b, now).outcome.Success?
    ensures res.1.Finished? ==>
      && res.0.status == Completed
      && res.0.structured == Some(res.1.structured)
      && res.1.structured == SafetyOverlay(Extraction(s.chatHistory + PatientTurn(text), b, now).outcome.value)
    ensures !res.1.Finished? ==> res.0.status == s.status && res.0.structured == s.structured
    ensures IsFinalMessage(text) ==> res.0.chatHistory == s.chatHistory + PatientTurn(text)
    ensures res.1.ExtractionFailed? ==> res.0.chatHistory == s.chatHistory + PatientTurn(text)
    ensures IsFinalMessage(text) && Extraction(s.chatHistory + PatientTurn(text), b, now).outcome.Failure? ==>
      res.1 == ExtractionFailed(Extraction(s.chatHistory + PatientTurn(text), b, now).outcome.error)
    ensures !IsFinalMessage(text) ==>
      res.1 == Asked(PlaceholderQuestion)
      && res.0.chatHistory == s.chatHistory + PatientTurn(text) + PlaceholderQuestion
  {
    var history := s.chatHistory + PatientTurn(text);
    if IsFinalMessage(text) then
      match Extraction(history, b, now).outcome
      case Failure(e) => (s.(chatHistory := history), ExtractionFailed(e))
      case Success(parsed) =>
        var report := SafetyOverlay(parsed);
        (s.(chatHistory := history, structured := Some(report), status := Completed), Finished(report))
    else
      (s.(chatHistory := history + PlaceholderQuestion), Asked(PlaceholderQuestion))
  }

  /** The in-memory session store. */
  class SessionStore {
    var sessions: map<string, Session>

    ghost predicate Valid()
      reads this
    {
      forall id | id in sessions :: SessionOk(sessions[id])
    }

    constructor ()
      ensures Valid() && sessions == map[]
    {
      sessions := map[];
    }

    /**
     * `start_session`: stores a session under `freshId`, in progress, whose
     * history is the initial text or, when that is empty, the greeting; the
     * reply repeats that history.
     */
    method StartSession(patientId: Option<string>, initialText: string, freshId: string, now: string)
      returns (sessionId: string, botMessage: string)
      requires Valid()
      modifies this
      ensures Valid()
      ensures sessionId == freshId
      ensures botMessage == if initialText != "" then initialText else Greeting
      ensures sessions == old(sessions)[freshId := Session(patientId, botMessage, now, InProgress, None)]
    {
      sessionId := freshId;
      var history := if initialText != "" then initialText else Greeting;
      sessions := sessions[sessionId := Session(patientId, history, now, InProgress, None)];
      botMessage := sessions[sessionId].chatHistory;
    }

    /**
     * `message`: an unknown id is answered with `NotFound` and nothing changes;
     * otherwise the session takes one `MessageStep` and no other session changes.
     */
    method Message(sessionId: string, text: string, b: Backend, now: string) returns (reply: MessageReply)
      requires Valid()
      modifies this
      ensures Valid()
      ensures sessionId !in old(sessions) ==> reply == NotFound && sessions == old(sessions)
      ensures sessionId in old(sessions) ==>
        && sessions == old(sessions)[sessionId := MessageStep(old(sessions)[sessionId], text, b, now).0]
        && reply == MessageStep(old(sessions)[sessionId], text, b, now).1
    {
      if sessionId !in sessions {
        return NotFound;
      }
      var session;
      session, reply := HandleMessage(sessions[sessionId], text, b, now);
      sessions := sessions[sessionId := session];
    }
  }

  /**
   * The body of `message` once the session is found: append the patient turn,
   * then either run the extraction and overlay (closing phrase) or ask the
   * placeholder question.
   */
  method HandleMessage(s: Session, text: string, b: Backend, now: string)
    returns (next: Session, reply: MessageReply)
    ensures next == MessageStep(s, text, b, now).0
    ensures reply == MessageStep(s, text, b, now).1
  {
    next := s.(chatHistory := s.chatHistory + PatientTurn(text));
    if Lower(Strip(text)) in FinalPhrases {
      var extracted, prompts := RunExtraction(next.chatHistory, b, now);
      if extracted.Failure? {
        return next, ExtractionFailed(extracted.error);
      }
      var parsed := extracted.value;
      var flagged := DetectRedFlags(parsed);
      if flagged {
        parsed := parsed.(urgency := Some(Emergency), recommendedNextAction := Some(GoToEmergency));
      }
      assert parsed == SafetyOverlay(extracted.value);
      next := next.(structured := Some(parsed), status := Completed);
      return next, Finished(parsed);
    }
    var botQuestion := PlaceholderQuestion;
    next := next.(chatHistory := next.chatHistory + botQuestion);
    reply := Asked(botQuestion);
  }

  /** The session after a series of messages, each with its own text and clock reading. */
  function Replay(s: Session, turns: seq<(string, string)>, b: Backend): Session
    decreases |turns|
  {
    if |turns| == 0 then s
    else Replay(MessageStep(s, turns[0].0, b, turns[0].1).0, turns[1..], b)
  }

  /**
   * Over any series of messages the history is only extended, a completed
   * session stays completed, and the record invariant is kept.
   */
  lemma {:induction false} ReplayMonotone(s: Session, turns: seq<(string, string)>, b: Backend)
    ensures s.chatHistory <= Replay(s, turns, b).chatHistory
    ensures s.status == Completed ==> Replay(s, turns, b).status == Completed
    ensures SessionOk(s) ==> SessionOk(Replay(s, turns, b))
    decreases |turns|
  {
    if |turns| > 0 {
      var next := MessageStep(s, turns[0].0, b, turns[0].1).0;
      ReplayMonotone(next, turns[1..], b);
      assert s.chatHistory <= next.chatHistory;
    }
  }

  /** The trigger is an exact match up to letter case on the trimmed message. */
  lemma FinalIffPhraseUpToCase(text: string)
    ensures IsFinalMessage(text) <==> exists k | 0 <= k < |FinalPhrases| :: SameUpToCase(Strip(text), FinalPhrases[k])
  {
    forall k | 0 <= k < |FinalPhrases|
      ensures SameUpToCase(Strip(text), FinalPhrases[k]) <==> Lower(Strip(text)) == FinalPhrases[k]
    {
      LowerOfLowercase(FinalPhrases[k]);
      SameUpToCaseIffSameLower(Strip(text), FinalPhrases[k]);
    }
  }

  /** Whitespace around a message never changes whether it closes the session. */
  lemma FinalIgnoresPadding(w1: string, text: string, w2: string)
    requires AllSpace(w1) && AllSpace(w2)
    ensures IsFinalMessage(w1 + text + w2) == IsFinalMessage(text)
  {
    StripPadded(w1, text, w2);
  }

  /** "done", exactly, closes the session. */
  lemma DoneIsFinal()
    ensures IsFinalMessage("done")
  {
    StripUnpadded("done");
    assert Lower("done") == "done";
  }

  /** "  Done\n" closes the session. */
  lemma PaddedDoneIsFinal()
    ensures IsFinalMessage("  Done\n")
  {
    assert "  Done\n" == "  " + "Done" + "\n";
    FinalIgnoresPadding("  ", "Done", "\n");
    StripUnpadded("Done");
    assert Lower("Done") == "done";
  }

  /** A sentence that merely contains a closing phrase does not close the session. */
  lemma SentenceWithPhraseIsNotFinal()
    ensures !IsFinalMessage("I'm done with breakfast" + " but my cough continues")
  {
    var t := "I'm done with breakfast" + " but my cough continues";
    assert |t| == 46;
    assert t[0] == 'I' && t[45] == 's';
    StripUnpadded(t);
    assert |Lower(t)| == 46;
  }

  /**
   * The scenario "chest pain and can't breathe" then "done": when the model's
   * report lists that symptom, the finished report is an emergency, whatever
   * urgency the model gave.
   */
  lemma ChestPainThenDone(s: Session, b: Backend, now: string, raw: string, parsed: StructuredReport)
    requires b.llm(PrimaryPrompt(s.chatHistory + PatientTurn("done"), b.formatInstructions)) == Reply(raw)
    requires b.parse(raw) == Some(parsed)
    requires |SymptomsOf(parsed)| > 0 && SymptomsOf(parsed)[0].name == Some("chest pain and can't breathe")
    ensures MessageStep(s, "done", b, now).1.Finished?
    ensures MessageStep(s, "done", b, now).1.structured.urgency == Some(Emergency)
    ensures MessageStep(s, "done", b, now).1.structured.recommendedNextAction == Some(GoToEmergency)
  {
    DoneIsFinal();
    FirstReplyParses(s.chatHistory + PatientTurn("done"), b, now, raw, parsed);
    StampedChestPainIsFlagged(parsed, now);
  }

  lemma StampedChestPainIsFlagged(parsed: StructuredReport, now: string)
    requires |SymptomsOf(parsed)| > 0 && SymptomsOf(parsed)[0].name == Some("chest pain and can't breathe")
    ensures HasRedFlag(Stamp(parsed, now))
  {
    ChestPainNameFlagged();
    var stamped := Stamp(parsed, now);
    assert SymptomsOf(stamped) == SymptomsOf(parsed);
    assert NameText(SymptomsOf(stamped)[0]) == "chest pain and can't breathe";
    assert SymptomFlagged(SymptomsOf(stamped)[0]);
  }

  lemma ChestPainNameFlagged()
    ensures Flagged("chest pain and can't breathe")
  {
    FlaggedBySubstring("", 0, " and can't breathe");
    assert "" + RedFlags[0] + " and can't breathe" == "chest pain and can't breathe";
  }

  /**
   * A completed session is finalised again by another closing phrase: the
   * model is asked anew and the stored report replaced; `message` does not
   * look at the status.
   */
  lemma CompletedSessionIsFinalisedAgain(s: Session, b: Backend, now: string, raw: string, parsed: StructuredReport)
    requires s.status == Completed
    requires b.llm(PrimaryPrompt(s.chatHistory + PatientTurn("done"), b.formatInstructions)) == Reply(raw)
    requires b.parse(raw) == Some(parsed)
    ensures MessageStep(s, "done", b, now).1 == Finished(SafetyOverlay(Stamp(parsed, now)))
    ensures MessageStep(s, "done", b, now).0.structured == Some(SafetyOverlay(Stamp(parsed, now)))
  {
    DoneIsFinal();
    FirstReplyParses(s.chatHistory + PatientTurn("done"), b, now, raw, parsed);
  }
}
