/**
 * The application shell's record store: loading the saved list, the
 * status rule for a finished triage, and saving a new record in front
 * of the others.
 */
module Records {
  import opened Wrappers
  import opened Text
  import opened Types

  const IdPrefix := "JCJH-"
  /** Record numbers are drawn from 0 up to, not including, this bound. */
  const IdRange := 100000

  /** `conditions.some(c => c.probability === 'High')`. */
  function AnyHigh(conditions: seq<ProbableCondition>): (b: bool)
    ensures b <==> exists i :: 0 <= i < |conditions| && conditions[i].probability == "High"
  {
    if conditions == [] then false
    else conditions[0].probability == "High" || AnyHigh(conditions[1..])
  }

  /** The status a saved record gets: Critical when the report lists a red
    * flag; otherwise Urgent when some probable condition is rated exactly
    * "High"; otherwise Stable. */
  function StatusOf(triage: TriageResponse): (s: string)
    ensures s == "Critical" || s == "Urgent" || s == "Stable"
    ensures s == "Critical" <==> |triage.redFlags| > 0
    ensures s == "Urgent" <==> (|triage.redFlags| == 0 &&
      exists i :: 0 <= i < |triage.probableConditions| && triage.probableConditions[i].probability == "High")
    ensures s == "Stable" <==> (|triage.redFlags| == 0 &&
      forall i :: 0 <= i < |triage.probableConditions| ==> triage.probableConditions[i].probability != "High")
  {
    var isCritical := |triage.redFlags| > 0;
    var isUrgent := AnyHigh(triage.probableConditions) && !isCritical;
    if isCritical then "Critical" else if isUrgent then "Urgent" else "Stable"
  }

  /** `Math.floor(u * 100000)` for a draw `u` of `Math.random()`. */
  function IdNumber(u: real): (n: nat)
    requires 0.0 <= u < 1.0
    ensures n < IdRange
  {
    (u * IdRange as real).Floor
  }

  /** `JCJH-${n}`. */
  function RecordId(n: nat): string {
    IdPrefix + DecimalString(n)
  }

  /** A record id is the prefix followed by the decimal digits of a number
    * below the range bound, which can be read back from it. */
  lemma RecordIdShape(u: real)
    requires 0.0 <= u < 1.0
    ensures var id := RecordId(IdNumber(u));
      |id| > |IdPrefix| && id[..|IdPrefix|] == IdPrefix &&
      AllDigits(id[|IdPrefix|..]) &&
      DecimalValue(id[|IdPrefix|..]) == IdNumber(u) < IdRange
  {
    var id := RecordId(IdNumber(u));
    assert id[|IdPrefix|..] == DecimalString(IdNumber(u));
    DecimalRoundTrip(IdNumber(u));
  }

  /** The record `handleSaveRecord` builds; `u` is the draw of
    * `Math.random()` and `now` the value of `Date.now()`. */
  function NewRecord(intake: IntakeData, triage: TriageResponse, u: real, now: int): (r: PatientRecord)
    requires 0.0 <= u < 1.0
    ensures r.intake == intake && r.triage == triage && r.timestamp == now
    ensures r.status == StatusOf(triage)
    ensures r.id == RecordId(IdNumber(u))
  {
    PatientRecord(RecordId(IdNumber(u)), now, StatusOf(triage), intake, triage)
  }

  /** What browser storage holds under the records key: nothing, an error
    * on reading, or a text together with the outcome of parsing it. */
  datatype Stored = Missing | Unreadable | Saved(raw: string, parsed: Option<seq<PatientRecord>>)

  /** The initial record list: the parsed list when there is a non-empty
    * text that parses, and the empty list otherwise. */
  function LoadRecords(stored: Stored): (records: seq<PatientRecord>)
    ensures stored.Missing? || stored.Unreadable? ==> records == []
    ensures stored.Saved? && (stored.raw == "" || stored.parsed.None?) ==> records == []
    ensures stored.Saved? && stored.raw != "" && stored.parsed.Some? ==> records == stored.parsed.value
  {
    match stored
    case Missing => []
    case Unreadable => []
    case Saved(raw, parsed) =>
      if raw == "" then [] else parsed.GetOr([])
  }

  /** The `records` state of the application shell. */
  class RecordStore {
    var records: seq<PatientRecord>

    constructor (stored: Stored)
      ensures records == LoadRecords(stored)
    {
      records := LoadRecords(stored);
    }

    /** `handleSaveRecord(intake, triage)`: the new record goes in front,
      * the earlier ones follow in their order. */
    method SaveRecord(intake: IntakeData, triage: TriageResponse, u: real, now: int)
      requires 0.0 <= u < 1.0
      modifies this
      ensures |records| == |old(records)| + 1
      ensures records[0] == NewRecord(intake, triage, u, now)
      ensures records[1..] == old(records)
    {
      var record := NewRecord(intake, triage, u, now);
      records := [record] + records;
    }
  }
}
