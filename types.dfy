/**
 * The application's record types, rebuilt from how the components use
 * them: the intake form's fields, the two shapes of reply the triage
 * assistant gives (a multiple-choice step and a triage report), and the
 * saved patient record.
 */
module Types {
  import opened Wrappers

  /** The named fields of the intake record. */
  datatype Field =
    | FullName | Age | Sex | BloodGroup | Weight | Height
    | CurrentSymptoms | Conditions | Medications | Allergies
    | Smoking | Alcohol | Pregnancy | Surgeries | LabResults | Vitals
    | Email

  /** Demographic and history data entered before triage. Every value is
    * text, as the form's inputs hold it. An email the record does not
    * carry is the empty string. */
  datatype IntakeData = IntakeData(
    fullName: string, age: string, sex: string, bloodGroup: string,
    weight: string, height: string, currentSymptoms: string,
    conditions: string, medications: string, allergies: string,
    smoking: string, alcohol: string, pregnancy: string,
    surgeries: string, labResults: string, vitals: string,
    email: string)

  /** The value of field `f` of `d` (`d[f]`). */
  function Get(d: IntakeData, f: Field): string {
    match f
    case FullName => d.fullName
    case Age => d.age
    case Sex => d.sex
    case BloodGroup => d.bloodGroup
    case Weight => d.weight
    case Height => d.height
    case CurrentSymptoms => d.currentSymptoms
    case Conditions => d.conditions
    case Medications => d.medications
    case Allergies => d.allergies
    case Smoking => d.smoking
    case Alcohol => d.alcohol
    case Pregnancy => d.pregnancy
    case Surgeries => d.surgeries
    case LabResults => d.labResults
    case Vitals => d.vitals
    case Email => d.email
  }

  /** Two intake records with the same field values are the same record. */
  lemma IntakeExtensional(d: IntakeData, e: IntakeData)
    requires forall f :: Get(d, f) == Get(e, f)
    ensures d == e
  {
    assert Get(d, FullName) == Get(e, FullName) && Get(d, Age) == Get(e, Age);
    assert Get(d, Sex) == Get(e, Sex) && Get(d, BloodGroup) == Get(e, BloodGroup);
    assert Get(d, Weight) == Get(e, Weight) && Get(d, Height) == Get(e, Height);
    assert Get(d, CurrentSymptoms) == Get(e, CurrentSymptoms) && Get(d, Conditions) == Get(e, Conditions);
    assert Get(d, Medications) == Get(e, Medications) && Get(d, Allergies) == Get(e, Allergies);
    assert Get(d, Smoking) == Get(e, Smoking) && Get(d, Alcohol) == Get(e, Alcohol);
    assert Get(d, Pregnancy) == Get(e, Pregnancy) && Get(d, Surgeries) == Get(e, Surgeries);
    assert Get(d, LabResults) == Get(e, LabResults) && Get(d, Vitals) == Get(e, Vitals);
    assert Get(d, Email) == Get(e, Email);
  }

  /** A partial intake record, as extracted from a voice transcript: each
    * field is either mentioned, with its value, or absent. */
  datatype Extraction = Extraction(
    fullName: Option<string>, age: Option<string>, sex: Option<string>,
    bloodGroup: Option<string>, weight: Option<string>, height: Option<string>,
    currentSymptoms: Option<string>, conditions: Option<string>,
    medications: Option<string>, allergies: Option<string>,
    smoking: Option<string>, alcohol: Option<string>, pregnancy: Option<string>,
    surgeries: Option<string>, labResults: Option<string>, vitals: Option<string>,
    email: Option<string>)

  /** The extraction that mentions no field: `{}`. */
  const NoFields := Extraction(None, None, None, None, None, None, None, None, None,
    None, None, None, None, None, None, None, None)

  /** The value field `f` has in extraction `e`, if `e` mentions it. */
  function Lookup(e: Extraction, f: Field): Option<string> {
    match f
    case FullName => e.fullName
    case Age => e.age
    case Sex => e.sex
    case BloodGroup => e.bloodGroup
    case Weight => e.weight
    case Height => e.height
    case CurrentSymptoms => e.currentSymptoms
    case Conditions => e.conditions
    case Medications => e.medications
    case Allergies => e.allergies
    case Smoking => e.smoking
    case Alcohol => e.alcohol
    case Pregnancy => e.pregnancy
    case Surgeries => e.surgeries
    case LabResults => e.labResults
    case Vitals => e.vitals
    case Email => e.email
  }

  /** One multiple-choice question; `options` maps an option id to its text. */
  datatype Question = Question(id: string, question: string, options: map<string, string>)

  datatype ProbableCondition = ProbableCondition(name: string, probability: string)

  /** A triage report. `clarifyingQuestionsNeeded` is "YES" or "NO" as the
    * assistant writes it; `questions` are the clarification questions. */
  datatype TriageResponse = TriageResponse(
    symptomSummary: string,
    clarifyingQuestionsNeeded: string,
    questions: seq<Question>,
    probableConditions: seq<ProbableCondition>,
    redFlags: seq<string>,
    recommendedDepartment: string)

  /** A multiple-choice step. */
  datatype MCQStepResponse = MCQStepResponse(questions: seq<Question>)

  /** A parsed reply of the assistant: the value of its `screen` key if it
    * has one, its `questions` list, and the report it carries when it has
    * a `symptom_summary` key. */
  datatype AIResponse = AIResponse(
    screen: Option<string>,
    questions: seq<Question>,
    report: Option<TriageResponse>)

  /** A saved triage. `status` is text because stored records are read
    * back from browser storage as they were written. */
  datatype PatientRecord = PatientRecord(
    id: string,
    timestamp: int,
    status: string,
    intake: IntakeData,
    triage: TriageResponse)
}
