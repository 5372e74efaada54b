/**
 * The per-patient history view: records are matched to the signed-in
 * patient by normalised email, listed newest first, and the newest one
 * is shown as the patient's current profile.
 */
module DigitalTwin {
  import opened Wrappers
  import opened Text
  import opened Types
  import opened Seqs

  /** `str?.trim().toLowerCase() || ''`: a missing string becomes "". */
  function Normalize(s: Option<string>): (r: string)
    ensures s.None? ==> r == ""
    ensures s.Some? ==> r == Lower(Trim(s.value))
    ensures Trimmed(r) && NoUpper(r)
  {
    match s
    case None => ""
    case Some(x) =>
      LowerProperties(Trim(x));
      Lower(Trim(x))
  }

  /** A normalised string normalises to itself. */
  lemma NormalizeIdempotent(s: Option<string>)
    ensures Normalize(Some(Normalize(s))) == Normalize(s)
  {
    var n := Normalize(s);
    TrimOfTrimmed(n);
    LowerOfNoUpper(n);
  }

  /** Normalising ignores letter case. */
  lemma NormalizeIgnoresCase(e: string)
    ensures Normalize(Some(Lower(e))) == Normalize(Some(e))
  {
    TrimLower(e);
    LowerIdempotent(Trim(e));
  }

  /** Normalising ignores surrounding whitespace. */
  lemma NormalizeIgnoresPadding(w: string, e: string, w': string)
    requires AllSpace(w) && AllSpace(w')
    ensures Normalize(Some(w + e + w')) == Normalize(Some(e))
  {
    TrimPadded(w, e, w');
  }

  /** `currentEmail` is truthy: present and not the empty string. */
  predicate IsIdentified(currentEmail: Option<string>) {
    currentEmail.Some? && currentEmail.value != ""
  }

  /** Record `r` belongs to the patient with email `email`. */
  predicate BelongsTo(r: PatientRecord, email: string) {
    Normalize(Some(r.intake.email)) == Normalize(Some(email))
  }

  /** `userRecords`: without an email, nothing; otherwise the records whose
    * normalised email equals the normalised current email, in the order of
    * `records`. */
  function UserRecords(records: seq<PatientRecord>, currentEmail: Option<string>): (rs: seq<PatientRecord>)
    ensures !IsIdentified(currentEmail) ==> rs == []
    ensures IsIdentified(currentEmail) ==> IsSubsequence(rs, records)
    ensures IsIdentified(currentEmail) ==>
      forall r :: r in rs <==> r in records && BelongsTo(r, currentEmail.value)
    ensures IsIdentified(currentEmail) ==>
      forall r :: multiset(rs)[r] == if BelongsTo(r, currentEmail.value) then multiset(records)[r] else 0
  {
    if IsIdentified(currentEmail) then
      var p := (r: PatientRecord) => BelongsTo(r, currentEmail.value);
      FilterIsSubsequence(records, p);
      FilterCounts(records, p);
      Filter(records, p)
    else []
  }

  /** The history of a signed-in patient does not depend on the case of
    * their email, nor on whitespace around it. (An empty email is not
    * signed in, while whitespace alone is.) */
  lemma UserRecordsIgnoresCaseAndPadding(records: seq<PatientRecord>, w: string, e: string, w': string)
    requires AllSpace(w) && AllSpace(w') && e != ""
    ensures UserRecords(records, Some(w + Lower(e) + w')) == UserRecords(records, Some(e))
  {
    var e' := w + Lower(e) + w';
    NormalizeIgnoresPadding(w, Lower(e), w');
    NormalizeIgnoresCase(e);
    LowerProperties(e);
    assert |e'| >= |Lower(e)| == |e| > 0;
    FilterCongruent(records, (r: PatientRecord) => BelongsTo(r, e'), (r: PatientRecord) => BelongsTo(r, e));
  }

  /** Newest first: timestamps never increase along the list. */
  predicate NewestFirst(rs: seq<PatientRecord>) {
    forall i, j :: 0 <= i < j < |rs| ==> rs[i].timestamp >= rs[j].timestamp
  }

  /** Insert `r` before the first record that is not newer than it. */
  function Insert(r: PatientRecord, sorted: seq<PatientRecord>): (s: seq<PatientRecord>)
    ensures multiset(s) == multiset(sorted) + multiset{r}
  {
    if sorted == [] || r.timestamp >= sorted[0].timestamp then
      [r] + sorted
    else
      assert sorted == [sorted[0]] + sorted[1..];
      [sorted[0]] + Insert(r, sorted[1..])
  }

  /** No record of `rs` is newer than `t`. */
  predicate NotNewerThan(rs: seq<PatientRecord>, t: int) {
    forall k :: 0 <= k < |rs| ==> rs[k].timestamp <= t
  }

  lemma NewestFirstCons(x: PatientRecord, rs: seq<PatientRecord>)
    requires NewestFirst(rs) && NotNewerThan(rs, x.timestamp)
    ensures NewestFirst([x] + rs)
  {
    var s := [x] + rs;
    forall i, j | 0 <= i < j < |s| ensures s[i].timestamp >= s[j].timestamp {
      assert s[j] == rs[j - 1];
      if i > 0 { assert s[i] == rs[i - 1]; }
    }
  }

  lemma {:induction false} InsertNotNewer(r: PatientRecord, sorted: seq<PatientRecord>, t: int)
    requires NotNewerThan(sorted, t) && r.timestamp <= t
    ensures NotNewerThan(Insert(r, sorted), t)
  {
    if sorted != [] && r.timestamp < sorted[0].timestamp {
      InsertNotNewer(r, sorted[1..], t);
    }
  }

  lemma {:induction false} InsertKeepsOrder(r: PatientRecord, sorted: seq<PatientRecord>)
    requires NewestFirst(sorted)
    ensures NewestFirst(Insert(r, sorted))
  {
    if sorted == [] || r.timestamp >= sorted[0].timestamp {
      NewestFirstCons(r, sorted);
    } else {
      InsertKeepsOrder(r, sorted[1..]);
      InsertNotNewer(r, sorted[1..], sorted[0].timestamp);
      NewestFirstCons(sorted[0], Insert(r, sorted[1..]));
    }
  }

  /** `[...userRecords].sort((a, b) => b.timestamp - a.timestamp)`, as an
    * insertion sort that works on a copy. */
  function SortNewestFirst(rs: seq<PatientRecord>): (s: seq<PatientRecord>)
    ensures NewestFirst(s)
    ensures multiset(s) == multiset(rs)
  {
    if rs == [] then []
    else
      assert rs == [rs[0]] + rs[1..];
      InsertKeepsOrder(rs[0], SortNewestFirst(rs[1..]));
      Insert(rs[0], SortNewestFirst(rs[1..]))
  }

  /** The first record of a newest-first list is at least as new as any
    * record of the list it was sorted from. */
  lemma LatestIsNewest(rs: seq<PatientRecord>)
    requires rs != []
    ensures SortNewestFirst(rs) != []
    ensures SortNewestFirst(rs)[0] in rs
    ensures forall r :: r in rs ==> r.timestamp <= SortNewestFirst(rs)[0].timestamp
  {
    var s := SortNewestFirst(rs);
    assert rs[0] in multiset(s);
    assert s[0] in multiset(rs);
    forall r | r in rs ensures r.timestamp <= s[0].timestamp {
      assert r in multiset(s);
      var k :| 0 <= k < |s| && s[k] == r;
    }
  }

  /** What the view shows. */
  datatype TwinView =
    | IdentificationRequired
    | NoRecordsFound
    | Twin(latest: PatientRecord, history: seq<PatientRecord>)

  /** The view for `records` and the signed-in email. */
  function View(records: seq<PatientRecord>, currentEmail: Option<string>): (v: TwinView)
    ensures v.IdentificationRequired? <==> !IsIdentified(currentEmail)
    ensures v.NoRecordsFound? <==> IsIdentified(currentEmail) && UserRecords(records, currentEmail) == []
    ensures v.Twin? ==>
      && v.history == SortNewestFirst(UserRecords(records, currentEmail))
      && v.latest == v.history[0]
      && v.latest in records && BelongsTo(v.latest, currentEmail.value)
      && forall r :: r in UserRecords(records, currentEmail) ==> r.timestamp <= v.latest.timestamp
  {
    var user := UserRecords(records, currentEmail);
    var sorted := SortNewestFirst(user);
    if !IsIdentified(currentEmail) then IdentificationRequired
    else if sorted == [] then
      assert multiset(user) == multiset{};
      NoRecordsFound
    else
      LatestIsNewest(user);
      Twin(sorted[0], sorted)
  }

  /** The red-flag badge of a history entry: the number of red flags,
    * shown only when there is at least one. */
  function RedFlagBadge(r: PatientRecord): (badge: Option<nat>)
    ensures badge.Some? <==> |r.triage.redFlags| > 0
    ensures badge.Some? ==> badge.value == |r.triage.redFlags|
  {
    if |r.triage.redFlags| > 0 then Some(|r.triage.redFlags|) else None
  }
}
