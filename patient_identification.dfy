/**
 * The email prompt that identifies a patient: blank input is ignored,
 * anything else is submitted trimmed and lower-cased.
 */
module PatientIdentification {
  import opened Wrappers
  import opened Text
  import DigitalTwin

  /** `handleSubmit`: the email passed to `onSubmit`, or `None` when the
    * input is blank and nothing is submitted. */
  function HandleSubmit(email: string): (submitted: Option<string>)
    ensures submitted.None? <==> AllSpace(email)
    ensures submitted.Some? ==> submitted.value == Lower(Trim(email))
    ensures submitted.Some? ==> submitted.value != "" && Trimmed(submitted.value) && NoUpper(submitted.value)
  {
    TrimEmptyIffAllSpace(email);
    LowerProperties(Trim(email));
    if Trim(email) != "" then Some(Lower(Trim(email))) else None
  }

  /** A submitted email is already in the form the history view compares:
    * normalising it changes nothing, and it identifies the patient. */
  lemma SubmittedIsNormalized(email: string)
    requires HandleSubmit(email).Some?
    ensures DigitalTwin.Normalize(Some(HandleSubmit(email).value)) == HandleSubmit(email).value
    ensures DigitalTwin.IsIdentified(HandleSubmit(email))
  {
    var v := HandleSubmit(email).value;
    TrimOfTrimmed(v);
    LowerOfNoUpper(v);
  }
}
