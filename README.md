# DreamS hospital triage: a Dafny model

DreamS is a browser application for a hospital front desk. A patient
accepts a disclaimer and fills in an intake form, either by typing or by
dictating it; the form is then sent to a triage assistant (a large
language model). The assistant answers with multiple-choice questions
about the symptoms, and after those with a triage report. The report
lists probable conditions, red flags and a recommended department. When
the report needs no clarification it is saved as a patient record with a
status of Critical, Urgent or Stable. Staff browse and search all records
in a doctor portal. A patient who identifies by email sees their own
history ("digital twin"), newest first.

This project models the deterministic code around the assistant. Every
reply of the assistant is an input value. The model has one Dafny module
per application file:

| module | file | form |
|---|---|---|
| `TriageView` | components/PatientTriageView.tsx | class `TriageSession` over the flow's state slots; the answer-text loop as a method |
| `Records` | App.tsx | status rule and record building as functions; class `RecordStore` over the record list |
| `IntakeForm` | components/PatientIntakeForm.tsx | merge rules as functions; class `IntakeFormState` over the form and its two voice flags |
| `DigitalTwin` | components/DigitalTwin.tsx | functions and lemmas |
| `DoctorPortal` | components/DoctorPortal.tsx | search and colour as functions; class `PortalState` over selection and search term |
| `GeminiService` | services/geminiService.ts | reply cleaning as a function; class `ChatService` over the module-level session |
| `PatientIdentification` | components/PatientIdentification.tsx | functions and lemmas |

Four shared modules support them:

- `Wrappers` defines `Option`.
- `Text` has the JavaScript string operations the application uses: `trim` over ECMAScript whitespace, `toLowerCase` for ASCII letters, `includes`, global `replace` of a literal by the empty string, `join`, and decimal rendering.
- `Seqs` has `filter` and subsequences.
- `Types` rebuilds the application's record types from how the code uses them. For example, a reply is told apart by its `screen` and `symptom_summary` keys, and a question's `options` map option ids to texts.

## Model

| member | source | states |
|---|---|---|
| `Text.Trim` | services/geminiService.ts:197 | `trim()` is the slice of the input left after removing whitespace only, at both ends, and that slice has no surrounding ECMAScript whitespace |
| `Text.TrimUnique` | services/geminiService.ts:197 | any slice that has no surrounding whitespace and is framed only by whitespace is the trim |
| `Text.TrimAt` | services/geminiService.ts:197 | the trim is the slice between the first and one past the last non-whitespace character |
| `Text.TrimPadLeft` | components/DigitalTwin.tsx:13 | leading whitespace added to a text does not change its trim |
| `Text.TrimPadRight` | components/DigitalTwin.tsx:13 | trailing whitespace added to a text does not change its trim |
| `Text.TrimPadded` | components/DigitalTwin.tsx:13 | whitespace added at both ends does not change the trim |
| `Text.TrimLower` | components/DigitalTwin.tsx:13 | trimming and lower-casing can be done in either order |
| `Text.TrimEmptyIffAllSpace` | components/PatientIdentification.tsx:14 | the trimmed text is empty exactly when the input is all whitespace, so `if (email.trim())` fails exactly on blank input |
| `Text.TrimOfTrimmed` | components/DigitalTwin.tsx:13 | a text with no surrounding whitespace is its own trim |
| `Text.Lower` | components/DoctorPortal.tsx:16-17 | `toLowerCase()` keeps the length and maps each character to its lower case |
| `Text.LowerProperties` | components/PatientIdentification.tsx:15 | a lower-cased text has no capitals, and lower-casing keeps both emptiness and the absence of surrounding whitespace |
| `Text.LowerIdempotent` | components/DoctorPortal.tsx:16-17 | lower-casing twice is lower-casing once |
| `Text.LowerOfNoUpper` | components/DigitalTwin.tsx:13 | a text without capitals is its own lower case |
| `Text.Includes` | components/DoctorPortal.tsx:16-17 | `s.includes(t)` holds exactly when `t` occurs in `s` at some index |
| `Text.IncludesEmpty` | components/DoctorPortal.tsx:16-17 | every text includes the empty text |
| `Text.RemoveAllAbsent` | services/geminiService.ts:197 | a global `replace` of a pattern that does not occur changes nothing |
| `Text.RemoveAll` | services/geminiService.ts:197 | a global `replace` by "" never lengthens the text; `RemoveAllAbsent`, `RemoveAllFront`, `RemoveAllKeepsTickFree` and `RemoveFenceLeavesNone` state what it keeps and what it drops |
| `Text.RemoveAllFront` | services/geminiService.ts:197 | an occurrence at the front is dropped and the scan resumes right after it |
| `Text.RemoveAllKeepsTickFree` | services/geminiService.ts:197 | text without a backtick survives the removal of a backtick-led pattern unchanged, whatever follows it |
| `Text.RemoveFenceLeavesNone` | services/geminiService.ts:197 | after every "```" is removed, no "```" remains, including none formed across a removed one |
| `Text.Join` | components/PatientTriageView.tsx:112 | joining one text gives that text; joining none gives "" |
| `Text.JoinSnoc` | components/PatientTriageView.tsx:112 | joining a non-empty list with one more text appends the separator and that text, so the join puts the separator between every two neighbours |
| `Text.ConcatAppend` | components/PatientTriageView.tsx:110-114 | the text of two lists of blocks is the text of the first followed by that of the second |
| `Text.DecimalString` | App.tsx:45 | a template string renders a non-negative integer as a non-empty run of digits with no leading zero |
| `Text.DecimalRoundTrip` | App.tsx:45 | reading back the decimal digits of `n` gives `n` |
| `GeminiService.CleanResponse` | services/geminiService.ts:197 | cleaned reply text contains no "```" and has no surrounding whitespace; `CleanFenced` states that the text between the fences survives |
| `GeminiService.CleanFenced` | services/geminiService.ts:197 | a reply wrapped as "```json" + body + "```", with no backtick in the body, is cleaned to the trimmed body |
| `GeminiService.CleanOfClean` | services/geminiService.ts:197 | text without "```" and surrounding whitespace is returned unchanged |
| `GeminiService.CleanPassesThrough` | services/geminiService.ts:197 | text with no backtick and no surrounding whitespace passes through unchanged |
| `GeminiService.CleanIdempotent` | services/geminiService.ts:197 | cleaning twice is cleaning once |
| `GeminiService.ChatService.constructor` | services/geminiService.ts:163 | the application starts with no chat session |
| `GeminiService.ChatService.InitializeChat` | services/geminiService.ts:165-182 | a new session for the given language, "English" when none is given, replaces any current one |
| `GeminiService.ChatService.SendMessageToTriage` | services/geminiService.ts:184-205 | a session is created only when there is none, with the caller's language or "English" when none is given; an existing one is reused; the message goes to the current session; the result is the cleaned reply, or a failure when the call fails |
| `GeminiService.ChatService.ResetSession` | services/geminiService.ts:207-209 | after a reset there is no session, so the next send creates a fresh one |
| `GeminiService.ParsePatientVoiceInput` | services/geminiService.ts:244-251 | a failed call, an empty reply or unparsable text gives the extraction with no fields; otherwise the parsed fields |
| `Records.AnyHigh` | App.tsx:42 | `some(c => c.probability === 'High')` holds exactly when some condition is rated exactly "High" |
| `Records.StatusOf` | App.tsx:41-47 | status is Critical exactly when there is a red flag; Urgent exactly when there is none but some condition is rated "High"; Stable exactly otherwise; one of the three is always assigned |
| `Records.IdNumber` | App.tsx:45 | `Math.floor(u * 100000)` for a draw `u` in [0, 1) is below 100000 |
| `Records.RecordId` | App.tsx:45 | the id template `JCJH-${n}`; `RecordIdShape` states its shape and that the number reads back |
| `Records.RecordIdShape` | App.tsx:45 | a record id is "JCJH-" followed by the decimal digits of a number in 0..99999, which read back to that number |
| `Records.NewRecord` | App.tsx:44-50 | the new record carries the given intake and report unchanged, the given timestamp, the status rule's status and a "JCJH-" id |
| `Records.LoadRecords` | App.tsx:21-29 | missing, empty, unreadable or unparsable storage gives the empty list; otherwise the parsed list |
| `Records.RecordStore.constructor` | App.tsx:21-29 | the record list starts as the loaded list |
| `Records.RecordStore.SaveRecord` | App.tsx:40-53 | the new record goes in front, all earlier records follow in their order, and the list grows by one |
| `IntakeForm.InitialForm` | components/PatientIntakeForm.tsx:13-30 | the form's initial record; `InitialFormValues` states each field's value |
| `IntakeForm.SetField` | components/PatientIntakeForm.tsx:35-38 | `{ ...prev, [name]: value }`; `SetFieldOnlyNamed` states that only the named field changes |
| `IntakeForm.Spread` | components/PatientIntakeForm.tsx:74-76 | `{ ...prev, ...extracted }`; `VoiceMergeOverwrites` states that a mentioned field overwrites and an absent one is kept |
| `IntakeForm.VoiceMerge` | components/PatientIntakeForm.tsx:74-81 | the merge of a voice extraction into the form; `GetVoiceMerge`, `VoiceMergeAppends`, `VoiceMergeOverwrites` and `VoiceMergeEmpty` state it field by field |
| `IntakeForm.PregnancyVisible` | components/PatientIntakeForm.tsx:282 | the pregnancy selector's condition; `PregnancyVisibility` states when it holds |
| `IntakeForm.VoiceButtonDisabled` | components/PatientIntakeForm.tsx:123 | the voice button is disabled while listening or processing; `VoiceButtonConsistent` ties it to the label |
| `IntakeForm.VoiceButtonLabel` | components/PatientIntakeForm.tsx:140 | processing, then listening, then the invitation; `VoiceButtonConsistent` ties it to the disabled state |
| `IntakeForm.InitialFormValues` | components/PatientIntakeForm.tsx:13-30 | the initial form has every text field empty, smoking and alcohol "No" and pregnancy "N/A" |
| `IntakeForm.SetFieldOnlyNamed` | components/PatientIntakeForm.tsx:35-38 | an edit sets the named field and leaves every other field unchanged |
| `IntakeForm.AppendValue` | components/PatientIntakeForm.tsx:77-80 | an absent or empty extracted value keeps the previous one; an empty previous value gives way; otherwise previous, separator and extracted are joined |
| `IntakeForm.GetVoiceMerge` | components/PatientIntakeForm.tsx:74-81 | each field of the merged form appends for the four list fields and overwrites for the others |
| `IntakeForm.VoiceMergeAppends` | components/PatientIntakeForm.tsx:77-80 | symptoms follow the three append cases with ". "; conditions, medications and allergies with ", " |
| `IntakeForm.VoiceMergeOverwrites` | components/PatientIntakeForm.tsx:74-76 | any other field the extraction has overwrites the form value, even with ""; absent fields keep theirs |
| `IntakeForm.VoiceMergeEmpty` | components/PatientIntakeForm.tsx:71-81 | merging the extraction with no fields leaves the form unchanged |
| `IntakeForm.PregnancyVisibility` | components/PatientIntakeForm.tsx:282 | the selector starts hidden, appears when sex becomes "Female", and once pregnancy is not "N/A" no edit of another field hides it |
| `IntakeForm.VoiceButtonConsistent` | components/PatientIntakeForm.tsx:123-140 | the voice button is disabled exactly when its label is not "Auto-fill with Voice"; "Processing..." wins over "Listening..." |
| `IntakeForm.IntakeFormState.constructor` | components/PatientIntakeForm.tsx:13-33 | the form starts with the initial values, neither listening nor processing |
| `IntakeForm.IntakeFormState.HandleChange` | components/PatientIntakeForm.tsx:35-38 | the edited field takes the new value; nothing else changes |
| `IntakeForm.IntakeFormState.StartVoiceAssistant` | components/PatientIntakeForm.tsx:45-58 | without browser support nothing changes; otherwise listening starts, and the recognizer's callbacks keep the listening flag of that moment |
| `IntakeForm.IntakeFormState.OnResult` | components/PatientIntakeForm.tsx:64-68 | a transcript stops listening and starts processing |
| `IntakeForm.IntakeFormState.OnExtracted` | components/PatientIntakeForm.tsx:70-87 | the extraction is merged into the form and processing ends |
| `IntakeForm.IntakeFormState.OnError` | components/PatientIntakeForm.tsx:90-94 | an error clears both flags |
| `IntakeForm.IntakeFormState.OnEndAsWritten` | components/PatientIntakeForm.tsx:96-99 | the end handler clears listening only if its captured flag was set |
| `IntakeForm.IntakeFormState.OnEnd` | components/PatientIntakeForm.tsx:96-99 | recording that ends without a result stops listening |
| `IntakeForm.UnmatchedSpeechWitness` | components/PatientIntakeForm.tsx:96-99 | after a recording that ends with neither a result nor an error the button stays disabled as written and is enabled again as intended |
| `DigitalTwin.Normalize` | components/DigitalTwin.tsx:13 | a missing string becomes ""; a present one becomes the lower case of its trim, so it has no surrounding whitespace and no capitals |
| `DigitalTwin.NormalizeIgnoresCase` | components/DigitalTwin.tsx:13 | an email and its lower-case form normalise alike |
| `DigitalTwin.NormalizeIgnoresPadding` | components/DigitalTwin.tsx:13 | an email with whitespace around it normalises like the bare email |
| `DigitalTwin.NormalizeIdempotent` | components/DigitalTwin.tsx:13 | normalising twice is normalising once |
| `DigitalTwin.IsIdentified` | components/DigitalTwin.tsx:15 | the truthiness test on `currentEmail`; `UserRecords` and `View` state what follows from it |
| `DigitalTwin.BelongsTo` | components/DigitalTwin.tsx:16 | the filter's test; `NormalizeIgnoresCase`, `NormalizeIgnoresPadding` and `UserRecordsIgnoresCaseAndPadding` state what it ignores |
| `DigitalTwin.UserRecords` | components/DigitalTwin.tsx:15-17 | without a current email there are none; otherwise exactly the records whose normalised email equals the normalised current email, every copy of each, in their original order |
| `DigitalTwin.UserRecordsIgnoresCaseAndPadding` | components/DigitalTwin.tsx:13-17 | a signed-in patient's history is the same whatever the case of their email and whatever whitespace surrounds it |
| `DigitalTwin.Insert` | components/DigitalTwin.tsx:20 | inserting adds exactly one copy of the record |
| `DigitalTwin.InsertKeepsOrder` | components/DigitalTwin.tsx:20 | inserting into a newest-first list keeps it newest first |
| `DigitalTwin.SortNewestFirst` | components/DigitalTwin.tsx:20 | the sorted copy is a permutation of the user's records with non-increasing timestamps |
| `DigitalTwin.LatestIsNewest` | components/DigitalTwin.tsx:20-21 | the latest record is one of the user's records and no record of theirs is newer |
| `DigitalTwin.View` | components/DigitalTwin.tsx:23-46 | the identification prompt shows exactly without an email; "No Records Found" exactly when nothing matches; otherwise the twin shows the newest matching record and the sorted history |
| `DigitalTwin.RedFlagBadge` | components/DigitalTwin.tsx:161-165 | the badge appears exactly when a record has red flags, and shows their number |
| `DoctorPortal.Matches` | components/DoctorPortal.tsx:16-17 | the search test on name and id; `FilteredRecords`, `EmptySearchKeepsAll` and `SearchIgnoresCase` state its consequences |
| `DoctorPortal.StatusColor` | components/DoctorPortal.tsx:20-26 | `getStatusColor`; `SavedRecordColor` ties each colour to the report that produced the status |
| `DoctorPortal.FilteredRecords` | components/DoctorPortal.tsx:15-18 | the queue keeps a record exactly when its lower-cased name or id includes the lower-cased term, every copy of it, in the original order |
| `DoctorPortal.EmptySearchKeepsAll` | components/DoctorPortal.tsx:15-18 | an empty search keeps every record |
| `DoctorPortal.SearchIgnoresCase` | components/DoctorPortal.tsx:15-18 | a term and its lower-case form find the same records |
| `DoctorPortal.QueueCount` | components/DoctorPortal.tsx:82 | the count in the queue header; `QueueCountAgrees` bounds it and gives its value with no term |
| `DoctorPortal.ShowsNoRecords` | components/DoctorPortal.tsx:85 | the condition of "No records found."; `QueueCountAgrees` states it holds exactly when no record matches |
| `DoctorPortal.QueueCountAgrees` | components/DoctorPortal.tsx:82-88 | "No records found." shows exactly when no record matches the search; the count never exceeds the records, and equals them with no term |
| `DoctorPortal.SavedRecordColor` | components/DoctorPortal.tsx:20-26 | a saved record's badge is rose exactly with a red flag, amber exactly with none but a "High" condition, and emerald otherwise |
| `DoctorPortal.PortalState.constructor` | components/DoctorPortal.tsx:12-13 | nothing is selected and the search term is empty |
| `DoctorPortal.PortalState.SetSearchTerm` | components/DoctorPortal.tsx:62 | typing sets the search term and keeps the selection |
| `DoctorPortal.PortalState.Highlighted` | components/DoctorPortal.tsx:96 | a queue entry is highlighted when its id is the selected record's; `SelectRecord` and `CloseDetail` state when that holds |
| `DoctorPortal.PortalState.SelectRecord` | components/DoctorPortal.tsx:93-96 | clicking a record selects it, and it is highlighted |
| `DoctorPortal.PortalState.CloseDetail` | components/DoctorPortal.tsx:138 | closing clears the selection, so no entry is highlighted |
| `PatientIdentification.HandleSubmit` | components/PatientIdentification.tsx:12-17 | blank input submits nothing; anything else submits the trimmed, lower-cased input, which is non-empty, without surrounding whitespace and without capitals |
| `PatientIdentification.SubmittedIsNormalized` | components/PatientIdentification.tsx:14-15 | a submitted email is a fixed point of the history view's normalisation and identifies the patient there |
| `Seqs.Filter` | components/DoctorPortal.tsx:15-18 | `filter` keeps exactly the elements that satisfy the test; `FilterCounts` states that every copy is kept, `FilterIsSubsequence` that the order is |
| `Seqs.FilterCounts` | components/DigitalTwin.tsx:16 | filtering keeps every copy of a kept element and none of a dropped one |
| `Seqs.FilterIsSubsequence` | components/DoctorPortal.tsx:15-18 | filtering keeps the relative order of what it keeps |
| `TriageView.DispatchOf` | components/PatientTriageView.tsx:43-66 | a "symptom_mcq" screen wins over everything; then a report; then a "patient_intake" screen; anything else is ignored |
| `TriageView.AfterResponse` | components/PatientTriageView.tsx:43-66 | questions are stored and shown, a report is stored and shown, an intake request returns to the form, any other reply changes nothing; intake data is never touched |
| `TriageView.ShouldSave` | components/PatientTriageView.tsx:56 | the auto-save condition; `SaveRule` states it on the reply |
| `TriageView.SavesFor` | components/PatientTriageView.tsx:50-59 | the saves one reply makes; `SaveRule` states there is at most one, exactly when, and with what |
| `TriageView.SaveRule` | components/PatientTriageView.tsx:50-59 | a reply saves at most one record, exactly when it is a report saying "NO" and intake data is present, and the record holds that intake and report |
| `TriageView.SavedReportIsShown` | components/PatientTriageView.tsx:50-59 | a reply that saves a record leaves the flow showing that report, with the button to start a new triage |
| `TriageView.IsClarificationPhase` | components/PatientTriageView.tsx:107 | the clarification test of the submit handler; `ClarificationRoundIsShown` ties it to the screen |
| `TriageView.QuestionsToMap` | components/PatientTriageView.tsx:108 | the questions answered; `ClarificationRoundIsShown` and `AnsweredQuestionsAreShown` tie them to the questions on screen |
| `TriageView.ScreenOf` | components/PatientTriageView.tsx:137-199 | what is rendered for a state; `StartNewTriageWithReport`, `SavedReportIsShown`, `ClarificationRoundIsShown` and `AnsweredQuestionsAreShown` state it |
| `TriageView.ShowsStartNewTriage` | components/PatientTriageView.tsx:203 | the condition of the "Start New Triage" bar; `StartNewTriageWithReport` ties it to the report screen |
| `TriageView.AnswerString` | components/PatientTriageView.tsx:106-118 | the text a submit sends; `AnswerStringShape`, `AnswerOfQuestion` and `AppendAnswerBlocks` state its parts |
| `TriageView.ClarificationRoundIsShown` | components/PatientTriageView.tsx:107-108 | a submit is a clarification round exactly when the follow-up questionnaire of a "YES" report is on screen, and its answers are then matched against the questions shown; a shown report or first-round questionnaire never is |
| `TriageView.OptionText` | components/PatientTriageView.tsx:112 | `q.options[id]`, which joins as "" when the option is missing; `AnswerOfQuestion` states the answers it produces |
| `TriageView.SelectedIds` | components/PatientTriageView.tsx:111 | the ids selected for the question, or none when it was not answered; `AnswerOfQuestion` states the unanswered case |
| `TriageView.SelectedTexts` | components/PatientTriageView.tsx:112 | the selected texts joined by ", "; `AnswerOfQuestion` states the one- and two-option cases, and `JoinSnoc` every longer list |
| `TriageView.AnswerBlock` | components/PatientTriageView.tsx:113 | one "Question:/Answer:" block; `AnswerOfQuestion` and `SingleQuestionBlock` state it |
| `TriageView.AnswerBlocks` | components/PatientTriageView.tsx:110-114 | the blocks of all questions, in order; `AppendAnswerBlocks` proves the loop builds them and `AnswerBlocksAppend` splits them |
| `TriageView.AnswerOfQuestion` | components/PatientTriageView.tsx:111-113 | an unanswered question gets an empty answer; a single selected option gives that option's text; two give both texts in selection order, separated by ", " |
| `TriageView.AnswerBlocksAppend` | components/PatientTriageView.tsx:110-114 | the answer blocks follow question order: the blocks of two question lists are those of the first then those of the second |
| `TriageView.SingleQuestionBlock` | components/PatientTriageView.tsx:110-113 | one question gives one block |
| `TriageView.AnswerStringShape` | components/PatientTriageView.tsx:106-118 | the answer text starts with "USER SYMPTOM ANSWERS:\n" and, in the clarification round, ends with the note not to ask further questions |
| `TriageView.AppendAnswerBlocks` | components/PatientTriageView.tsx:110-114 | the `forEach` appends one "Question:/Answer:" block per question, in order |
| `TriageView.AnsweredQuestionsAreShown` | components/PatientTriageView.tsx:163-190 | the questions on screen are the ones the answers are matched against, in the first round and in a "YES" clarification round |
| `TriageView.StartNewTriageWithReport` | components/PatientTriageView.tsx:178-203 | the "Start New Triage" bar is drawn exactly when the final report is shown |
| `TriageView.TriageSession.Shown` | components/PatientTriageView.tsx:137-199 | the screen rendered for the session's state, by `ScreenOf`; `AcceptDisclaimer`, `ProcessAIResponse` and `Reset` state what it becomes |
| `TriageView.TriageSession.constructor` | components/PatientTriageView.tsx:15-21 | the flow starts Idle, disclaimer not accepted, with no data and nothing saved |
| `TriageView.TriageSession.SettleIdle` | components/PatientTriageView.tsx:25-30 | Idle is always replaced by Intake; every other state stays |
| `TriageView.TriageSession.AcceptDisclaimer` | components/PatientTriageView.tsx:38-41 | accepting sets the flag and lands in Intake, so the intake form is shown |
| `TriageView.TriageSession.ProcessAIResponse` | components/PatientTriageView.tsx:43-66 | the new slots are the dispatch of the reply, and the records saved are exactly those of the save rule; a reply that saves leaves its report on screen |
| `TriageView.TriageSession.IntakeSubmit` | components/PatientTriageView.tsx:68-101 | the submitted data is stored and the flow waits; a failed call ends in Error; otherwise the reply is processed, and a final report is saved with the submitted data |
| `TriageView.TriageSession.IntakeSubmitAsWritten` | components/PatientTriageView.tsx:68-101 | as written, a final report is saved with the intake data from before this submission |
| `TriageView.TriageSession.MCQSubmit` | components/PatientTriageView.tsx:103-127 | the text sent is the answer text of the pre-submit state; a failed call ends in Error; otherwise the reply is processed |
| `TriageView.TriageSession.RetryAfterError` | components/PatientTriageView.tsx:197 | the error screen's button returns to Idle and keeps all data |
| `TriageView.TriageSession.Reset` | components/PatientTriageView.tsx:129-135 | reset clears intake, question data and report, and returns to Intake, showing the intake form |
| `TriageView.DirectReportWitness` | components/PatientTriageView.tsx:56-57 | a first intake answered directly by a final report saves nothing as written, and saves the record as intended |

## Left out

- The triage assistant, its system instruction and the prompt texts are left out. Each reply is an input: `Option<AIResponse>`, where `None` means the call or the JSON parse threw. The intake prompt is therefore not built.
- JSON parsing is left out. Parsed values are inputs, for stored records and for voice extractions alike.
- Browser storage and the save effect (App.tsx:32-38) are left out. The load is modelled as "missing, unreadable, or a text with its parse outcome".
- Export of the records as a file is left out.
- `Math.random` and `Date.now` are parameters. `Records.IdNumber` takes the draw as an exact real in [0, 1), so floating-point rounding of `u * 100000` is not modelled.
- Speech recognition itself, `alert`, `console` and scrolling are left out. The recognizer's callbacks are methods the environment calls.
- React's effect scheduling is not modelled beyond the Idle-to-Intake rule. The effect at components/PatientTriageView.tsx:26 also resets the chat session on every change of `appState`. A transition therefore clears the session, and each message of a round starts a fresh conversation. The model keeps the chat service separate from the flow and does not record this.
- `TriageView.TriageSession.MCQSubmit`: a clarification report without a `questions` key would make `forEach` throw before the call. The model gives every report a question list, possibly empty.
- The clarification screen (components/PatientTriageView.tsx:180) is shown for any value other than "NO", but the submit handler treats only "YES" as clarification. For any other value the answers would be matched against the earlier question data. `TriageView.AnsweredQuestionsAreShown` states the agreement only for "YES".
- `DigitalTwin.SortNewestFirst` does not state that records with equal timestamps keep their order. JavaScript's sort is stable, and the insertion sort is too, but that is not proved. Sorting works on a copy, so `records` is never reordered.
- `DigitalTwin.UserRecords`: `currentEmail` must be present and non-empty. A whitespace-only email passes that test and then matches records whose email is missing or blank. This is why `DigitalTwin.UserRecordsIgnoresCaseAndPadding` asks for a non-empty email: padding an empty one would sign the patient in.
- `Text.Lower` covers ASCII letters only. Unicode case mapping is not modelled.
- The BMI display, date formatting and all markup and class strings are left out. The one exception is the three status colours.
- App.tsx:79-81 and App.tsx:88 pass props the components do not declare, such as `currentPhone` where the history view reads `currentEmail`. Each component is modelled on its own declared inputs.
- The "Failed to initialize chat session." branch of `sendMessageToTriage` cannot be reached, because the preceding call always creates a session.
- The initial form has no `email` entry. The model's intake form stores an absent email as "", and the history view normalises both to "".

## Findings

| source | as written | input that shows it | evidently intended | confidence | as-written member | corrected member |
|---|---|---|---|---|---|---|
| components/PatientTriageView.tsx:56-57, 96 | `handleIntakeSubmit` calls the `processAIResponse` of the render it belongs to. That closure still sees the `intakeData` from before `setIntakeData(data)`. | A first intake, after the disclaimer, whose reply is directly a report with `clarifying_questions_needed: "NO"`. Nothing is saved, because the closure sees no intake data. After an Error retry, the report is saved with the previous intake instead. | The report is saved with the intake just submitted. | not executed | `TriageView.TriageSession.IntakeSubmitAsWritten`, `TriageView.DirectReportWitness` | `TriageView.TriageSession.IntakeSubmit` |
| components/PatientIntakeForm.tsx:96-99 | `onend` tests the `isListening` captured when recording started. That value is always false, because the button is disabled while listening. | Start a recording and say something the recognizer cannot match. It signals `nomatch` and then `end`, with no `result` and no `error` event, so only `onend` runs and the button stays disabled on "Listening...". | A recording that ends without a result stops listening. | not executed | `IntakeForm.IntakeFormState.OnEndAsWritten`, `IntakeForm.UnmatchedSpeechWitness` | `IntakeForm.IntakeFormState.OnEnd` |
