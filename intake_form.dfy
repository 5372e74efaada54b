/**
 * The patient intake form: its initial values, single-field edits, the
 * merge of fields extracted from a voice transcript, the visibility of
 * the pregnancy selector and the state of the voice button.
 */
module IntakeForm {
  import opened Wrappers
  import opened Types

  /** The form's initial values: every text field empty, smoking and
    * alcohol "No", pregnancy "N/A". */
  function InitialForm(): IntakeData {
    IntakeData("", "", "", "", "", "", "", "", "", "", "No", "No", "N/A", "", "", "", "")
  }

  lemma InitialFormValues(f: Field)
    ensures f == Smoking || f == Alcohol ==> Get(InitialForm(), f) == "No"
    ensures f == Pregnancy ==> Get(InitialForm(), f) == "N/A"
    ensures f != Smoking && f != Alcohol && f != Pregnancy ==> Get(InitialForm(), f) == ""
  {
  }

  /** `{ ...prev, [name]: value }`: field `f` becomes `v`, every other
    * field keeps its value. */
  function SetField(d: IntakeData, f: Field, v: string): IntakeData {
    match f
    case FullName => d.(fullName := v)
    case Age => d.(age := v)
    case Sex => d.(sex := v)
    case BloodGroup => d.(bloodGroup := v)
    case Weight => d.(weight := v)
    case Height => d.(height := v)
    case CurrentSymptoms => d.(currentSymptoms := v)
    case Conditions => d.(conditions := v)
    case Medications => d.(medications := v)
    case Allergies => d.(allergies := v)
    case Smoking => d.(smoking := v)
    case Alcohol => d.(alcohol := v)
    case Pregnancy => d.(pregnancy := v)
    case Surgeries => d.(surgeries := v)
    case LabResults => d.(labResults := v)
    case Vitals => d.(vitals := v)
    case Email => d.(email := v)
  }

  /** An edit sets the named field and no other. */
  lemma SetFieldOnlyNamed(d: IntakeData, f: Field, v: string, g: Field)
    ensures Get(SetField(d, f, v), g) == if g == f then v else Get(d, g)
  {
  }

  /** The four fields a voice extraction appends to rather than overwrites. */
  predicate IsListField(f: Field) {
    f == CurrentSymptoms || f == Conditions || f == Medications || f == Allergies
  }

  /** The separator an appended value follows: a sentence break for the
    * symptoms, a list comma for the other three. */
  function Separator(f: Field): string {
    if f == CurrentSymptoms then ". " else ", "
  }

  /** One appended field: an absent or empty extracted value keeps the
    * previous one; an empty previous value gives way to the extracted
    * one; otherwise the two are joined by `sep`. */
  function AppendValue(prev: string, extracted: Option<string>, sep: string): (r: string)
    ensures extracted.None? || extracted == Some("") ==> r == prev
    ensures extracted.Some? && extracted.value != "" && prev == "" ==> r == extracted.value
    ensures extracted.Some? && extracted.value != "" && prev != "" ==> r == prev + sep + extracted.value
  {
    match extracted
    case None => prev
    case Some(x) =>
      if x == "" then prev
      else if prev == "" then x
      else prev + sep + x
  }

  /** The value field `f` takes when extraction `e` is merged into `prev`. */
  function MergedValue(prev: IntakeData, e: Extraction, f: Field): string {
    if IsListField(f) then AppendValue(Get(prev, f), Lookup(e, f), Separator(f))
    else Lookup(e, f).GetOr(Get(prev, f))
  }

  /** `{ ...prev, ...extracted }`: every field the extraction mentions
    * overwrites the form's value. */
  function Spread(prev: IntakeData, e: Extraction): IntakeData {
    IntakeData(
      e.fullName.GetOr(prev.fullName), e.age.GetOr(prev.age), e.sex.GetOr(prev.sex),
      e.bloodGroup.GetOr(prev.bloodGroup), e.weight.GetOr(prev.weight), e.height.GetOr(prev.height),
      e.currentSymptoms.GetOr(prev.currentSymptoms), e.conditions.GetOr(prev.conditions),
      e.medications.GetOr(prev.medications), e.allergies.GetOr(prev.allergies),
      e.smoking.GetOr(prev.smoking), e.alcohol.GetOr(prev.alcohol), e.pregnancy.GetOr(prev.pregnancy),
      e.surgeries.GetOr(prev.surgeries), e.labResults.GetOr(prev.labResults), e.vitals.GetOr(prev.vitals),
      e.email.GetOr(prev.email))
  }

  /** The voice merge: the spread, with the four list fields appended to
    * instead. */
  function VoiceMerge(prev: IntakeData, e: Extraction): IntakeData {
    Spread(prev, e).(
      currentSymptoms := AppendValue(prev.currentSymptoms, e.currentSymptoms, Separator(CurrentSymptoms)),
      conditions := AppendValue(prev.conditions, e.conditions, Separator(Conditions)),
      medications := AppendValue(prev.medications, e.medications, Separator(Medications)),
      allergies := AppendValue(prev.allergies, e.allergies, Separator(Allergies)))
  }

  lemma GetVoiceMerge(prev: IntakeData, e: Extraction, f: Field)
    ensures Get(VoiceMerge(prev, e), f) == MergedValue(prev, e, f)
  {
  }

  /** Symptoms follow the three cases with the separator ". ", and the
    * other list fields with ", ". */
  lemma VoiceMergeAppends(prev: IntakeData, e: Extraction, f: Field)
    requires IsListField(f)
    ensures Lookup(e, f).None? || Lookup(e, f) == Some("") ==> Get(VoiceMerge(prev, e), f) == Get(prev, f)
    ensures Lookup(e, f).Some? && Lookup(e, f).value != "" && Get(prev, f) == "" ==>
      Get(VoiceMerge(prev, e), f) == Lookup(e, f).value
    ensures Lookup(e, f).Some? && Lookup(e, f).value != "" && Get(prev, f) != "" ==>
      Get(VoiceMerge(prev, e), f) == Get(prev, f) + Separator(f) + Lookup(e, f).value
  {
    GetVoiceMerge(prev, e, f);
  }

  /** Every other field the extraction mentions overwrites the form's
    * value, even with an empty text; fields it does not mention keep
    * theirs. */
  lemma VoiceMergeOverwrites(prev: IntakeData, e: Extraction, f: Field)
    requires !IsListField(f)
    ensures Lookup(e, f).Some? ==> Get(VoiceMerge(prev, e), f) == Lookup(e, f).value
    ensures Lookup(e, f).None? ==> Get(VoiceMerge(prev, e), f) == Get(prev, f)
  {
    GetVoiceMerge(prev, e, f);
  }

  /** Merging an extraction with no fields (the `{}` of a failed
    * extraction) leaves the form as it was. */
  lemma VoiceMergeEmpty(prev: IntakeData)
    ensures VoiceMerge(prev, NoFields) == prev
  {
    forall f ensures Get(VoiceMerge(prev, NoFields), f) == Get(prev, f) {
      GetVoiceMerge(prev, NoFields, f);
    }
    IntakeExtensional(VoiceMerge(prev, NoFields), prev);
  }

  /** The pregnancy selector is shown for a female patient, and whenever
    * a pregnancy status other than "N/A" has been chosen. */
  predicate PregnancyVisible(d: IntakeData) {
    d.sex == "Female" || d.pregnancy != "N/A"
  }

  /** The selector starts hidden, appears when "Female" is chosen, and once
    * it holds a status other than "N/A" no edit of another field hides it. */
  lemma PregnancyVisibility(d: IntakeData, f: Field, v: string)
    ensures !PregnancyVisible(InitialForm())
    ensures PregnancyVisible(SetField(d, Sex, "Female"))
    ensures d.pregnancy != "N/A" && f != Pregnancy ==> PregnancyVisible(SetField(d, f, v))
  {
    SetFieldOnlyNamed(d, Sex, "Female", Sex);
    SetFieldOnlyNamed(d, f, v, Pregnancy);
  }

  /** The voice button is disabled while listening or processing. */
  function VoiceButtonDisabled(isListening: bool, isProcessingVoice: bool): bool {
    isListening || isProcessingVoice
  }

  /** The voice button's label: processing wins over listening. */
  function VoiceButtonLabel(isListening: bool, isProcessingVoice: bool): string {
    if isProcessingVoice then "Processing..."
    else if isListening then "Listening..."
    else "Auto-fill with Voice"
  }

  /** The button invites a recording exactly when it can be pressed. */
  lemma VoiceButtonConsistent(isListening: bool, isProcessingVoice: bool)
    ensures VoiceButtonDisabled(isListening, isProcessingVoice)
      <==> VoiceButtonLabel(isListening, isProcessingVoice) != "Auto-fill with Voice"
    ensures isProcessingVoice ==> VoiceButtonLabel(isListening, isProcessingVoice) == "Processing..."
  {
  }

  /** The form component's state. `listeningSeenByRecognizer` is the value
    * of `isListening` that the recognizer's callbacks were created with:
    * they close over the render in which recording was started. */
  class IntakeFormState {
    var formData: IntakeData
    var isListening: bool
    var isProcessingVoice: bool
    var listeningSeenByRecognizer: bool

    constructor ()
      ensures formData == InitialForm()
      ensures !isListening && !isProcessingVoice && !listeningSeenByRecognizer
    {
      formData := InitialForm();
      isListening, isProcessingVoice := false, false;
      listeningSeenByRecognizer := false;
    }

    /** `handleChange`: the edited field takes the input's value. */
    method HandleChange(f: Field, v: string)
      modifies this
      ensures formData == SetField(old(formData), f, v)
      ensures isListening == old(isListening) && isProcessingVoice == old(isProcessingVoice)
      ensures listeningSeenByRecognizer == old(listeningSeenByRecognizer)
    {
      formData := SetField(formData, f, v);
    }

    /** `startVoiceAssistant`: without browser support nothing changes;
      * otherwise recording starts. */
    method StartVoiceAssistant(supported: bool)
      modifies this
      ensures formData == old(formData) && isProcessingVoice == old(isProcessingVoice)
      ensures !supported ==>
        isListening == old(isListening) && listeningSeenByRecognizer == old(listeningSeenByRecognizer)
      ensures supported ==> isListening && listeningSeenByRecognizer == old(isListening)
    {
      if !supported {
        return;
      }
      listeningSeenByRecognizer := isListening;
      isListening := true;
    }

    /** `recognition.onresult`, before the extraction returns. */
    method OnResult()
      modifies this
      ensures !isListening && isProcessingVoice
      ensures formData == old(formData) && listeningSeenByRecognizer == old(listeningSeenByRecognizer)
    {
      isListening := false;
      isProcessingVoice := true;
    }

    /** `recognition.onresult`, once the extraction `e` has returned: the
      * merge, then processing ends. */
    method OnExtracted(e: Extraction)
      modifies this
      ensures formData == VoiceMerge(old(formData), e)
      ensures !isProcessingVoice && isListening == old(isListening)
      ensures listeningSeenByRecognizer == old(listeningSeenByRecognizer)
    {
      var merged := VoiceMerge(formData, e);
      formData := merged;
      isProcessingVoice := false;
    }

    /** `recognition.onerror`. */
    method OnError()
      modifies this
      ensures !isListening && !isProcessingVoice
      ensures formData == old(formData) && listeningSeenByRecognizer == old(listeningSeenByRecognizer)
    {
      isListening, isProcessingVoice := false, false;
    }

    /** `recognition.onend` as written: it tests the `isListening` its
      * closure captured, which was false when recording started. */
    method OnEndAsWritten()
      modifies this
      ensures isListening == (old(isListening) && !listeningSeenByRecognizer)
      ensures formData == old(formData) && isProcessingVoice == old(isProcessingVoice)
      ensures listeningSeenByRecognizer == old(listeningSeenByRecognizer)
    {
      if listeningSeenByRecognizer {
        isListening := false;
      }
    }

    /** `recognition.onend` as intended: recording that ends without a
      * result stops listening. */
    method OnEnd()
      modifies this
      ensures !isListening
      ensures formData == old(formData) && isProcessingVoice == old(isProcessingVoice)
      ensures listeningSeenByRecognizer == old(listeningSeenByRecognizer)
    {
      isListening := false;
    }
  }

  /** A recording that ends with neither a result nor an error event (the
    * recognizer heard speech it could not match, and signalled only
    * `nomatch` before `end`): as written the button stays disabled on
    * "Listening..."; as intended it is enabled again. */
  method UnmatchedSpeechWitness() returns (disabledAsWritten: bool, disabledCorrected: bool)
    ensures disabledAsWritten && !disabledCorrected
  {
    var asWritten := new IntakeFormState();
    asWritten.StartVoiceAssistant(true);
    asWritten.OnEndAsWritten();
    disabledAsWritten := VoiceButtonDisabled(asWritten.isListening, asWritten.isProcessingVoice);
    var corrected := new IntakeFormState();
    corrected.StartVoiceAssistant(true);
    corrected.OnEnd();
    disabledCorrected := VoiceButtonDisabled(corrected.isListening, corrected.isProcessingVoice);
  }
}
