/**
 * The patient triage flow: a disclaimer, the intake form, one or two
 * rounds of multiple-choice questions and the final report. Each reply
 * of the triage assistant is an input; the flow decides from its shape
 * which screen comes next, saves the record when the report needs no
 * clarification, and builds the answer text for each round of questions.
 */
module TriageView {
  import opened Wrappers
  import opened Text
  import opened Types

  datatype AppState = Idle | Intake | AnalyzingIntake | MCQEntry | AnalyzingMCQ | Results | Error

  /** How `processAIResponse` handles a reply. */
  datatype Dispatch =
    | ShowMCQ(mcq: MCQStepResponse)
    | ShowReport(report: TriageResponse)
    | ReturnToIntake
    | Ignore

  /** The reply's shape, tested in a fixed order: a multiple-choice step
    * first, then a report, then a request to fix the intake. */
  function DispatchOf(response: AIResponse): (d: Dispatch)
    ensures d.ShowMCQ? <==> response.screen == Some("symptom_mcq")
    ensures d.ShowMCQ? ==> d.mcq.questions == response.questions
    ensures d.ShowReport? <==> response.screen != Some("symptom_mcq") && response.report.Some?
    ensures d.ShowReport? ==> d.report == response.report.value
    ensures d.ReturnToIntake? <==> response.screen == Some("patient_intake") && response.report.None?
  {
    if response.screen == Some("symptom_mcq") then ShowMCQ(MCQStepResponse(response.questions))
    else if response.report.Some? then ShowReport(response.report.value)
    else if response.screen == Some("patient_intake") then ReturnToIntake
    else Ignore
  }

  /** A report is saved when it needs no clarification and the handler
    * sees intake data. */
  predicate ShouldSave(report: TriageResponse, seenIntake: Option<IntakeData>) {
    report.clarifyingQuestionsNeeded == "NO" && seenIntake.Some?
  }

  /** The data slots of the flow. */
  datatype Slots = Slots(
    appState: AppState,
    intakeData: Option<IntakeData>,
    mcqData: Option<MCQStepResponse>,
    finalReport: Option<TriageResponse>)

  /** The slots after `processAIResponse(response)`. */
  function AfterResponse(s: Slots, response: AIResponse): (t: Slots)
    ensures t.intakeData == s.intakeData
    ensures DispatchOf(response).ShowMCQ? ==>
      t == s.(appState := MCQEntry, mcqData := Some(MCQStepResponse(response.questions)))
    ensures DispatchOf(response).ShowReport? ==>
      t == s.(appState := Results, finalReport := response.report)
    ensures DispatchOf(response).ReturnToIntake? ==> t == s.(appState := Intake)
    ensures DispatchOf(response).Ignore? ==> t == s
  {
    match DispatchOf(response)
    case ShowMCQ(m) => s.(appState := MCQEntry, mcqData := Some(m))
    case ShowReport(r) => s.(appState := Results, finalReport := Some(r))
    case ReturnToIntake => s.(appState := Intake)
    case Ignore => s
  }

  /** The `onSaveRecord` calls `processAIResponse(response)` makes, when
    * its closure sees `seenIntake` as the intake data. */
  function SavesFor(response: AIResponse, seenIntake: Option<IntakeData>): seq<(IntakeData, TriageResponse)> {
    match DispatchOf(response)
    case ShowReport(r) => if ShouldSave(r, seenIntake) then [(seenIntake.value, r)] else []
    case _ => []
  }

  /** A reply saves at most one record, and saves exactly when it is a
    * report that needs no clarification and intake data is seen; the
    * record carries that intake and the report. */
  lemma SaveRule(response: AIResponse, seenIntake: Option<IntakeData>)
    ensures |SavesFor(response, seenIntake)| <= 1
    ensures |SavesFor(response, seenIntake)| == 1 <==>
      && response.screen != Some("symptom_mcq")
      && response.report.Some?
      && response.report.value.clarifyingQuestionsNeeded == "NO"
      && seenIntake.Some?
    ensures |SavesFor(response, seenIntake)| == 1 ==>
      SavesFor(response, seenIntake)[0] == (seenIntake.value, response.report.value)
  {
  }

  const AnswerHeader := "USER SYMPTOM ANSWERS:\n"
  const ClarificationNote :=
    "\n\nSYSTEM NOTE: User response to clarification. Do NOT ask further questions. Generate final Triage Response."

  /** The round being answered is the clarification round: the screen
    * before submitting showed a report that asked for clarification. */
  predicate IsClarificationPhase(state: AppState, report: Option<TriageResponse>) {
    state == Results && report.Some? && report.value.clarifyingQuestionsNeeded == "YES"
  }

  /** The questions the answers are matched against. */
  function QuestionsToMap(state: AppState, report: Option<TriageResponse>, mcq: Option<MCQStepResponse>): seq<Question> {
    if IsClarificationPhase(state, report) then report.value.questions
    else if mcq.Some? then mcq.value.questions
    else []
  }

  /** `q.options[id]`, where a missing option joins as the empty text. */
  function OptionText(q: Question, id: string): string {
    if id in q.options then q.options[id] else ""
  }

  /** The selected option ids of question `q`; none when it was not answered. */
  function SelectedIds(q: Question, answers: map<string, seq<string>>): seq<string> {
    if q.id in answers then answers[q.id] else []
  }

  /** The texts of the selected options, joined by ", ". */
  function SelectedTexts(q: Question, answers: map<string, seq<string>>): string {
    var ids := SelectedIds(q, answers);
    Join(seq(|ids|, i requires 0 <= i < |ids| => OptionText(q, ids[i])), ", ")
  }

  function AnswerBlock(q: Question, answers: map<string, seq<string>>): string {
    "Question: " + q.question + "\nAnswer: " + SelectedTexts(q, answers) + "\n\n"
  }

  /** One answer block per question, in question order. */
  function AnswerBlockList(qs: seq<Question>, answers: map<string, seq<string>>): (r: seq<string>)
    ensures |r| == |qs|
  {
    seq(|qs|, i requires 0 <= i < |qs| => AnswerBlock(qs[i], answers))
  }

  function AnswerBlocks(qs: seq<Question>, answers: map<string, seq<string>>): string {
    Concat(AnswerBlockList(qs, answers))
  }

  /** The text sent to the assistant when a round of questions is submitted. */
  function AnswerString(state: AppState, report: Option<TriageResponse>, mcq: Option<MCQStepResponse>,
                        answers: map<string, seq<string>>): string
  {
    AnswerHeader + AnswerBlocks(QuestionsToMap(state, report, mcq), answers)
    + (if IsClarificationPhase(state, report) then ClarificationNote else "")
  }

  /** The blocks of two lists of questions are the blocks of the first
    * followed by those of the second. */
  lemma AnswerBlocksAppend(a: seq<Question>, b: seq<Question>, answers: map<string, seq<string>>)
    ensures AnswerBlocks(a + b, answers) == AnswerBlocks(a, answers) + AnswerBlocks(b, answers)
  {
    assert AnswerBlockList(a + b, answers) == AnswerBlockList(a, answers) + AnswerBlockList(b, answers);
    ConcatAppend(AnswerBlockList(a, answers), AnswerBlockList(b, answers));
  }

  /** The answer text starts with the header and, in the clarification
    * round, ends with the note that no more questions are to be asked. */
  lemma AnswerStringShape(state: AppState, report: Option<TriageResponse>, mcq: Option<MCQStepResponse>,
                          answers: map<string, seq<string>>)
    ensures var s := AnswerString(state, report, mcq, answers);
      |s| >= |AnswerHeader| && s[..|AnswerHeader|] == AnswerHeader
    ensures var s := AnswerString(state, report, mcq, answers);
      IsClarificationPhase(state, report) ==>
        |s| >= |ClarificationNote| && s[|s| - |ClarificationNote|..] == ClarificationNote
  {
    var blocks := AnswerBlocks(QuestionsToMap(state, report, mcq), answers);
    var s := AnswerString(state, report, mcq, answers);
    if IsClarificationPhase(state, report) {
      assert s == (AnswerHeader + blocks) + ClarificationNote;
    } else {
      assert s == AnswerHeader + blocks;
    }
  }

  /** A single question gives a single block. */
  lemma SingleQuestionBlock(q: Question, answers: map<string, seq<string>>)
    ensures AnswerBlocks([q], answers) == AnswerBlock(q, answers)
  {
    var b := AnswerBlock(q, answers);
    assert AnswerBlockList([q], answers) == [b];
    assert [b][..0] == [];
    assert Concat([b]) == Concat([]) + b;
  }

  /** An unanswered question gets an empty answer; a question answered
    * with one option gets that option's text, and one answered with two
    * gets both texts in the order they were selected, separated by ", ". */
  lemma AnswerOfQuestion(q: Question, answers: map<string, seq<string>>)
    ensures q.id !in answers ==> AnswerBlock(q, answers) == "Question: " + q.question + "\nAnswer: \n\n"
    ensures q.id in answers && |answers[q.id]| == 1 && answers[q.id][0] in q.options ==>
      SelectedTexts(q, answers) == q.options[answers[q.id][0]]
    ensures q.id in answers && |answers[q.id]| == 2 && answers[q.id][0] in q.options && answers[q.id][1] in q.options ==>
      SelectedTexts(q, answers) == q.options[answers[q.id][0]] + ", " + q.options[answers[q.id][1]]
  {
    if q.id in answers && |answers[q.id]| == 2 {
      var ids := answers[q.id];
      var texts := seq(|ids|, i requires 0 <= i < |ids| => OptionText(q, ids[i]));
      assert texts == [texts[0]] + [texts[1]];
      JoinSnoc([texts[0]], texts[1], ", ");
    }
  }

  /** The `forEach` over the questions of a round: appends one answer
    * block per question to `prefix`. */
  method AppendAnswerBlocks(prefix: string, questions: seq<Question>, answers: map<string, seq<string>>)
    returns (text: string)
    ensures text == prefix + AnswerBlocks(questions, answers)
  {
    ghost var blocks := AnswerBlockList(questions, answers);
    text := prefix;
    var i := 0;
    while i < |questions|
      invariant 0 <= i <= |questions|
      invariant text == prefix + Concat(blocks[..i])
    {
      assert blocks[..i + 1][..i] == blocks[..i];
      var block := AnswerBlock(questions[i], answers);
      assert Concat(blocks[..i + 1]) == Concat(blocks[..i]) + block;
      text := text + block;
      i := i + 1;
    }
    assert blocks[..i] == blocks;
  }

  /** What the flow renders. */
  datatype Screen =
    | DisclaimerScreen
    | IntakeFormScreen
    | AnalyzingIntakeScreen
    | Questionnaire(questions: seq<Question>)
    | AnalyzingMCQScreen
    | ReportScreen(report: TriageResponse)
    | ClarificationScreen(questions: seq<Question>)
    | ErrorScreen
    | Blank

  /** The screen for given state: a report that does not say "NO" is shown
    * as a clarification questionnaire. */
  function ScreenOf(accepted: bool, s: Slots): Screen {
    if !accepted then DisclaimerScreen
    else match s.appState
      case Intake => IntakeFormScreen
      case AnalyzingIntake => AnalyzingIntakeScreen
      case MCQEntry => if s.mcqData.Some? then Questionnaire(s.mcqData.value.questions) else Blank
      case AnalyzingMCQ => AnalyzingMCQScreen
      case Results =>
        if s.finalReport.None? then Blank
        else if s.finalReport.value.clarifyingQuestionsNeeded == "NO" then ReportScreen(s.finalReport.value)
        else ClarificationScreen(s.finalReport.value.questions)
      case Error => ErrorScreen
      case Idle => Blank
  }

  /** The questions a patient answers are the ones the answers are matched
    * against, in the first round and in a "YES" clarification round. */
  lemma AnsweredQuestionsAreShown(s: Slots)
    ensures ScreenOf(true, s).Questionnaire? ==>
      ScreenOf(true, s).questions == QuestionsToMap(s.appState, s.finalReport, s.mcqData)
    ensures ScreenOf(true, s).ClarificationScreen? && s.finalReport.value.clarifyingQuestionsNeeded == "YES" ==>
      ScreenOf(true, s).questions == QuestionsToMap(s.appState, s.finalReport, s.mcqData)
  {
  }

  /** A submit counts as a clarification round exactly when the follow-up
    * questionnaire of a "YES" report is on screen, and then its answers
    * are matched against the questions shown there. A shown report or a
    * first-round questionnaire is never a clarification round. */
  lemma ClarificationRoundIsShown(s: Slots)
    ensures IsClarificationPhase(s.appState, s.finalReport) <==>
      ScreenOf(true, s).ClarificationScreen? && s.finalReport.value.clarifyingQuestionsNeeded == "YES"
    ensures IsClarificationPhase(s.appState, s.finalReport) ==>
      ScreenOf(true, s) == ClarificationScreen(QuestionsToMap(s.appState, s.finalReport, s.mcqData))
    ensures ScreenOf(true, s).ReportScreen? || ScreenOf(true, s).Questionnaire? ==>
      !IsClarificationPhase(s.appState, s.finalReport)
  {
  }

  /** The "Start New Triage" bar, drawn once the disclaimer is accepted. */
  predicate ShowsStartNewTriage(accepted: bool, s: Slots) {
    accepted && s.appState == Results && s.finalReport.Some? && s.finalReport.value.clarifyingQuestionsNeeded == "NO"
  }

  /** The bar to start a new triage is drawn exactly with a final report. */
  lemma StartNewTriageWithReport(accepted: bool, s: Slots)
    ensures ShowsStartNewTriage(accepted, s) <==> ScreenOf(accepted, s).ReportScreen?
  {
  }

  /** A reply that saves a record leaves the flow showing that record's
    * report, with the bar to start a new triage. */
  lemma SavedReportIsShown(s: Slots, response: AIResponse, seenIntake: Option<IntakeData>)
    requires SavesFor(response, seenIntake) != []
    ensures ScreenOf(true, AfterResponse(s, response)) == ReportScreen(SavesFor(response, seenIntake)[0].1)
    ensures ShowsStartNewTriage(true, AfterResponse(s, response))
  {
  }

  /** The flow's state: the `appState`, `intakeData`, `mcqData`,
    * `finalReport` and `hasAcceptedDisclaimer` slots, and the
    * `onSaveRecord` calls made so far. */
  class TriageSession {
    var hasAcceptedDisclaimer: bool
    var appState: AppState
    var intakeData: Option<IntakeData>
    var mcqData: Option<MCQStepResponse>
    var finalReport: Option<TriageResponse>
    var saved: seq<(IntakeData, TriageResponse)>

    function Current(): Slots
      reads this
    {
      Slots(appState, intakeData, mcqData, finalReport)
    }

    function Shown(): Screen
      reads this
    {
      ScreenOf(hasAcceptedDisclaimer, Current())
    }

    constructor ()
      ensures !hasAcceptedDisclaimer && Current() == Slots(Idle, None, None, None) && saved == []
    {
      hasAcceptedDisclaimer := false;
      appState := Idle;
      intakeData, mcqData, finalReport := None, None, None;
      saved := [];
    }

    /** The effect that runs on every change of `appState`: Idle is
      * replaced by Intake; every other state stays. */
    method SettleIdle()
      modifies this
      ensures appState == if old(appState) == Idle then Intake else old(appState)
      ensures appState != Idle
      ensures Current() == old(Current()).(appState := appState)
      ensures hasAcceptedDisclaimer == old(hasAcceptedDisclaimer) && saved == old(saved)
    {
      if appState == Idle {
        appState := Intake;
      }
    }

    /** `handleDisclaimerAccept`. */
    method AcceptDisclaimer()
      modifies this
      ensures hasAcceptedDisclaimer && appState == Intake
      ensures Current() == old(Current()).(appState := Intake) && saved == old(saved)
      ensures Shown() == IntakeFormScreen
    {
      hasAcceptedDisclaimer := true;
      appState := Intake;
    }

    /** `processAIResponse(response)`, where the handler's closure sees
      * `seenIntake` as the intake data. */
    method ProcessAIResponse(response: AIResponse, seenIntake: Option<IntakeData>)
      modifies this
      ensures Current() == AfterResponse(old(Current()), response)
      ensures saved == old(saved) + SavesFor(response, seenIntake)
      ensures hasAcceptedDisclaimer == old(hasAcceptedDisclaimer)
      ensures hasAcceptedDisclaimer && SavesFor(response, seenIntake) != [] ==>
        Shown() == ReportScreen(SavesFor(response, seenIntake)[0].1)
    {
      if response.screen == Some("symptom_mcq") {
        mcqData := Some(MCQStepResponse(response.questions));
        appState := MCQEntry;
        return;
      }
      if response.report.Some? {
        var report := response.report.value;
        finalReport := Some(report);
        appState := Results;
        if report.clarifyingQuestionsNeeded == "NO" && seenIntake.Some? {
          saved := saved + [(seenIntake.value, report)];
        }
        return;
      }
      if response.screen == Some("patient_intake") {
        appState := Intake;
      }
    }

    /** `handleIntakeSubmit(data)`: the data is stored and the flow waits
      * for the assistant; `reply` is its parsed answer, or `None` when the
      * send fails. The reply is processed with the submitted data. */
    method IntakeSubmit(data: IntakeData, reply: Option<AIResponse>)
      modifies this
      ensures var waiting := old(Current()).(appState := AnalyzingIntake, intakeData := Some(data));
        && (reply.None? ==> Current() == waiting.(appState := Error) && saved == old(saved))
        && (reply.Some? ==> Current() == AfterResponse(waiting, reply.value)
                            && saved == old(saved) + SavesFor(reply.value, Some(data)))
      ensures hasAcceptedDisclaimer == old(hasAcceptedDisclaimer)
    {
      intakeData := Some(data);
      appState := AnalyzingIntake;
      match reply {
        case None => appState := Error;
        case Some(response) => ProcessAIResponse(response, Some(data));
      }
    }

    /** `handleIntakeSubmit(data)` as written: `processAIResponse` is the
      * one of the render the handler belongs to, so it sees the intake
      * data from before this submission. */
    method IntakeSubmitAsWritten(data: IntakeData, reply: Option<AIResponse>)
      modifies this
      ensures var waiting := old(Current()).(appState := AnalyzingIntake, intakeData := Some(data));
        && (reply.None? ==> Current() == waiting.(appState := Error) && saved == old(saved))
        && (reply.Some? ==> Current() == AfterResponse(waiting, reply.value)
                            && saved == old(saved) + SavesFor(reply.value, old(intakeData)))
      ensures hasAcceptedDisclaimer == old(hasAcceptedDisclaimer)
    {
      var seen := intakeData;
      intakeData := Some(data);
      appState := AnalyzingIntake;
      match reply {
        case None => appState := Error;
        case Some(response) => ProcessAIResponse(response, seen);
      }
    }

    /** `handleMCQSubmit(answers)`: builds the answer text from the state
      * before submitting, sends it (`reply` is the parsed answer, or `None`
      * when the send fails) and processes the reply. */
    method MCQSubmit(answers: map<string, seq<string>>, reply: Option<AIResponse>) returns (message: string)
      modifies this
      ensures message == AnswerString(old(appState), old(finalReport), old(mcqData), answers)
      ensures var waiting := old(Current()).(appState := AnalyzingMCQ);
        && (reply.None? ==> Current() == waiting.(appState := Error) && saved == old(saved))
        && (reply.Some? ==> Current() == AfterResponse(waiting, reply.value)
                            && saved == old(saved) + SavesFor(reply.value, old(intakeData)))
      ensures hasAcceptedDisclaimer == old(hasAcceptedDisclaimer)
    {
      var isClarification := appState == Results && finalReport.Some?
        && finalReport.value.clarifyingQuestionsNeeded == "YES";
      var questions := if isClarification then finalReport.value.questions
        else if mcqData.Some? then mcqData.value.questions else [];
      appState := AnalyzingMCQ;
      message := AppendAnswerBlocks(AnswerHeader, questions, answers);
      if isClarification {
        message := message + ClarificationNote;
      }
      match reply {
        case None => appState := Error;
        case Some(response) => ProcessAIResponse(response, intakeData);
      }
    }

    /** The Reset button of the error screen: back to Idle, which the
      * effect then replaces by Intake. */
    method RetryAfterError()
      modifies this
      ensures Current() == old(Current()).(appState := Idle)
      ensures hasAcceptedDisclaimer == old(hasAcceptedDisclaimer) && saved == old(saved)
    {
      appState := Idle;
    }

    /** `handleReset`: intake data, questions and report are cleared and a
      * new intake begins. */
    method Reset()
      modifies this
      ensures Current() == Slots(Intake, None, None, None)
      ensures hasAcceptedDisclaimer == old(hasAcceptedDisclaimer) && saved == old(saved)
      ensures hasAcceptedDisclaimer ==> Shown() == IntakeFormScreen
    {
      intakeData := None;
      mcqData := None;
      finalReport := None;
      appState := Intake;
    }
  }

  /** A sample report that needs no clarification. */
  function FinalReport(): TriageResponse {
    TriageResponse("Mild fever", "NO", [], [], [], "General Medicine")
  }

  /** The first intake of a session, answered directly with a final
    * report: as written nothing is saved, as intended the record is. */
  method DirectReportWitness(data: IntakeData) returns (savedAsWritten: seq<(IntakeData, TriageResponse)>,
                                                        savedCorrected: seq<(IntakeData, TriageResponse)>)
    ensures savedAsWritten == []
    ensures savedCorrected == [(data, FinalReport())]
  {
    var reply := AIResponse(None, [], Some(FinalReport()));
    var asWritten := new TriageSession();
    asWritten.AcceptDisclaimer();
    asWritten.IntakeSubmitAsWritten(data, Some(reply));
    savedAsWritten := asWritten.saved;
    var corrected := new TriageSession();
    corrected.AcceptDisclaimer();
    corrected.IntakeSubmit(data, Some(reply));
    savedCorrected := corrected.saved;
  }
}
