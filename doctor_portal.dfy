/**
 * The staff view over all records: the search over patient name and
 * record id, the colour of a status badge, and the selected record.
 */
module DoctorPortal {
  import opened Wrappers
  import opened Text
  import opened Types
  import opened Seqs
  import Records

  /** The search keeps `r` when its lower-cased name or lower-cased id
    * contains the lower-cased term. */
  predicate Matches(r: PatientRecord, term: string) {
    Includes(Lower(r.intake.fullName), Lower(term)) || Includes(Lower(r.id), Lower(term))
  }

  /** `filteredRecords`: the matching records, in the order of `records`. */
  function FilteredRecords(records: seq<PatientRecord>, term: string): (rs: seq<PatientRecord>)
    ensures IsSubsequence(rs, records)
    ensures forall r :: r in rs <==> r in records && Matches(r, term)
    ensures forall r :: multiset(rs)[r] == if Matches(r, term) then multiset(records)[r] else 0
  {
    var p := (r: PatientRecord) => Matches(r, term);
    FilterIsSubsequence(records, p);
    FilterCounts(records, p);
    Filter(records, p)
  }

  /** An empty search keeps every record. */
  lemma EmptySearchKeepsAll(records: seq<PatientRecord>)
    ensures FilteredRecords(records, "") == records
  {
    forall i | 0 <= i < |records| ensures Matches(records[i], "") {
      IncludesEmpty(Lower(records[i].intake.fullName));
    }
    FilterKeepsAll(records, (r: PatientRecord) => Matches(r, ""));
  }

  /** The search ignores case: a term and its lower-case form find the
    * same records. */
  lemma SearchIgnoresCase(records: seq<PatientRecord>, term: string)
    ensures FilteredRecords(records, Lower(term)) == FilteredRecords(records, term)
  {
    LowerIdempotent(term);
    FilterCongruent(records, (r: PatientRecord) => Matches(r, Lower(term)), (r: PatientRecord) => Matches(r, term));
  }

  /** The queue header's count, and whether "No records found." is shown. */
  function QueueCount(records: seq<PatientRecord>, term: string): nat {
    |FilteredRecords(records, term)|
  }

  predicate ShowsNoRecords(records: seq<PatientRecord>, term: string) {
    FilteredRecords(records, term) == []
  }

  /** The empty-queue message appears exactly when no record matches the
    * search; the count never exceeds the number of records, and with no
    * search term it is that number. */
  lemma QueueCountAgrees(records: seq<PatientRecord>, term: string)
    ensures ShowsNoRecords(records, term) <==> forall i :: 0 <= i < |records| ==> !Matches(records[i], term)
    ensures QueueCount(records, term) <= |records|
    ensures term == "" ==> QueueCount(records, term) == |records|
  {
    var rs := FilteredRecords(records, term);
    if rs != [] {
      assert rs[0] in rs;
    } else {
      forall i | 0 <= i < |records| ensures !Matches(records[i], term) {
        assert records[i] in records;
      }
    }
    if term == "" {
      EmptySearchKeepsAll(records);
    }
  }

  const CriticalColor := "bg-rose-100 text-rose-700 border-rose-200"
  const UrgentColor := "bg-amber-100 text-amber-700 border-amber-200"
  const StableColor := "bg-emerald-100 text-emerald-700 border-emerald-200"

  /** `getStatusColor`: rose for Critical, amber for Urgent, emerald for
    * any other text. */
  function StatusColor(status: string): string {
    match status
    case "Critical" => CriticalColor
    case "Urgent" => UrgentColor
    case _ => StableColor
  }

  /** A saved record is shown rose exactly when its report has a red flag,
    * amber exactly when it has none but a condition rated "High", and
    * emerald otherwise. */
  lemma SavedRecordColor(triage: TriageResponse)
    ensures StatusColor(Records.StatusOf(triage)) == CriticalColor <==> |triage.redFlags| > 0
    ensures StatusColor(Records.StatusOf(triage)) == UrgentColor <==>
      (|triage.redFlags| == 0 && Records.AnyHigh(triage.probableConditions))
    ensures StatusColor(Records.StatusOf(triage)) == StableColor <==>
      (|triage.redFlags| == 0 && !Records.AnyHigh(triage.probableConditions))
  {
  }

  /** The portal's own state: the record whose detail is open and the
    * search term. */
  class PortalState {
    var selectedRecord: Option<PatientRecord>
    var searchTerm: string

    constructor ()
      ensures selectedRecord == None && searchTerm == ""
    {
      selectedRecord := None;
      searchTerm := "";
    }

    /** A queue entry is highlighted when it has the selected record's id. */
    predicate Highlighted(r: PatientRecord)
      reads this
    {
      selectedRecord.Some? && selectedRecord.value.id == r.id
    }

    /** Typing in the search box. */
    method SetSearchTerm(term: string)
      modifies this
      ensures searchTerm == term && selectedRecord == old(selectedRecord)
    {
      searchTerm := term;
    }

    /** Clicking a queue entry opens its detail. */
    method SelectRecord(r: PatientRecord)
      modifies this
      ensures selectedRecord == Some(r) && Highlighted(r)
      ensures searchTerm == old(searchTerm)
    {
      selectedRecord := Some(r);
    }

    /** The close button of the detail panel. */
    method CloseDetail()
      modifies this
      ensures selectedRecord == None && searchTerm == old(searchTerm)
      ensures forall r :: !Highlighted(r)
    {
      selectedRecord := None;
    }
  }
}
