/** The report list of `ReportProvider` (src/context/ReportContext.tsx), with the
    `Report` record that file declares. Each callback is the function from the previous
    list to the next one that it hands to `setReports`. */
module ReportContext {
  import opened Wrappers
  import opened Seqs
  import opened Text

  datatype Location = Location(latitude: real, longitude: real)

  datatype ReportKind = Robbery | Assault | Suspicious | Other

  /** `timestamp` is the ISO-8601 text of the creation time. */
  datatype Report = Report(
    id: string,
    kind: ReportKind,
    title: string,
    description: string,
    location: Location,
    timestamp: string,
    verified: bool)

  /** What `addReport` is handed: the fields of `Omit<Report, 'id' | 'timestamp' |
      'verified'>`, and whatever `id`, `timestamp` or `verified` the object carries
      besides, since the type does not stop a caller from passing them. */
  datatype Draft = Draft(
    kind: ReportKind,
    title: string,
    description: string,
    location: Location,
    id: Option<string>,
    timestamp: Option<string>,
    verified: Option<bool>)

  /** `Partial<Report>`. */
  datatype ReportPatch = ReportPatch(
    id: Option<string>,
    kind: Option<ReportKind>,
    title: Option<string>,
    description: Option<string>,
    location: Option<Location>,
    timestamp: Option<string>,
    verified: Option<bool>)

  /** `{ ...draft, id: Date.now().toString(), timestamp: new Date().toISOString(),
      verified: false }`: the generated properties come last, so they win over whatever
      the draft carries. `now` is one clock reading in milliseconds and `isoNow` the ISO
      text of a second one. */
  function NewReport(draft: Draft, now: nat, isoNow: string): (r: Report)
    ensures r.id == NatToString(now) && r.timestamp == isoNow && !r.verified
    ensures r.kind == draft.kind && r.title == draft.title
    ensures r.description == draft.description && r.location == draft.location
  {
    Report(NatToString(now), draft.kind, draft.title, draft.description, draft.location, isoNow, false)
  }

  /** `{ ...report, ...updated }`. */
  function Merge(report: Report, updated: ReportPatch): (r: Report)
    ensures r.id == updated.id.GetOr(report.id)
    ensures r.kind == updated.kind.GetOr(report.kind)
    ensures r.title == updated.title.GetOr(report.title)
    ensures r.description == updated.description.GetOr(report.description)
    ensures r.location == updated.location.GetOr(report.location)
    ensures r.timestamp == updated.timestamp.GetOr(report.timestamp)
    ensures r.verified == updated.verified.GetOr(report.verified)
  {
    Report(
      updated.id.GetOr(report.id),
      updated.kind.GetOr(report.kind),
      updated.title.GetOr(report.title),
      updated.description.GetOr(report.description),
      updated.location.GetOr(report.location),
      updated.timestamp.GetOr(report.timestamp),
      updated.verified.GetOr(report.verified))
  }

  function IdIs(id: string): Report -> bool {
    (r: Report) => r.id == id
  }

  function MergeWith(updated: ReportPatch): Report -> Report {
    (r: Report) => Merge(r, updated)
  }

  // ---------------------------------------------------------------------------
  // The callbacks

  /** `addReport`: the new report goes at the end, unverified. */
  function AddReport(reports: seq<Report>, draft: Draft, now: nat, isoNow: string): (r: seq<Report>)
    ensures |r| == |reports| + 1
    ensures r[..|reports|] == reports
    ensures r[|reports|] == NewReport(draft, now, isoNow) && !r[|reports|].verified
  {
    reports + [NewReport(draft, now, isoNow)]
  }

  /** `updateReport`. */
  function UpdateReport(reports: seq<Report>, id: string, updated: ReportPatch): (r: seq<Report>)
    ensures |r| == |reports|
    ensures forall i :: 0 <= i < |reports| ==>
      r[i] == if reports[i].id == id then Merge(reports[i], updated) else reports[i]
  {
    MapWhere(reports, IdIs(id), MergeWith(updated))
  }

  /** `deleteReport`. */
  function DeleteReport(reports: seq<Report>, id: string): (r: seq<Report>)
    ensures |r| <= |reports|
    ensures forall x :: multiset(r)[x] == if x.id == id then 0 else multiset(reports)[x]
  {
    FilterMultiplicities(reports, Not(IdIs(id)));
    Filter(reports, Not(IdIs(id)))
  }

  // ---------------------------------------------------------------------------
  // Properties

  /** Whatever `id`, `timestamp` or `verified` the draft carries, the stored report has
      the generated ones: two drafts that differ only there give the same report. */
  lemma GeneratedFieldsWin(draft: Draft, id: Option<string>, timestamp: Option<string>, verified: Option<bool>,
                           now: nat, isoNow: string)
    ensures NewReport(draft.(id := id, timestamp := timestamp, verified := verified), now, isoNow)
         == NewReport(draft, now, isoNow)
  {
  }

  /** Reports added at different clock readings have different ids. */
  lemma NewReportIdsDiffer(a: Draft, b: Draft, m: nat, n: nat, isoM: string, isoN: string)
    requires m != n
    ensures NewReport(a, m, isoM).id != NewReport(b, n, isoN).id
  {
    if NatToString(m) == NatToString(n) {
      NatToStringInjective(m, n);
    }
  }

  /** Deleting keeps exactly the reports with other ids and drops as
      many as have the id. */
  lemma DeleteKeepsTheRest(reports: seq<Report>, id: string, x: Report)
    ensures x in DeleteReport(reports, id) <==> x in reports && x.id != id
    ensures |DeleteReport(reports, id)| + |Filter(reports, IdIs(id))| == |reports|
  {
    FilterMembers(reports, Not(IdIs(id)), x);
    FilterComplement(reports, Not(IdIs(id)));
    FilterAgree(reports, Not(Not(IdIs(id))), IdIs(id));
  }

  /** Deleting keeps the survivors in their order: it maps the empty list to itself, keeps
      or drops a single report by its id, and distributes over concatenation. */
  lemma DeleteKeepsOrder(a: seq<Report>, b: seq<Report>, x: Report, id: string)
    ensures DeleteReport([], id) == []
    ensures DeleteReport([x], id) == if x.id == id then [] else [x]
    ensures DeleteReport(a + b, id) == DeleteReport(a, id) + DeleteReport(b, id)
  {
    FilterSingleton(x, Not(IdIs(id)));
    FilterConcat(a, b, Not(IdIs(id)));
  }

  /** Updating or deleting an id that no report has leaves the list as it is. */
  lemma AbsentIdChangesNothing(reports: seq<Report>, id: string, updated: ReportPatch)
    requires forall i :: 0 <= i < |reports| ==> reports[i].id != id
    ensures UpdateReport(reports, id, updated) == reports
    ensures DeleteReport(reports, id) == reports
  {
    MapWhereNone(reports, IdIs(id), MergeWith(updated));
    FilterKeepsAll(reports, Not(IdIs(id)));
  }

  /** Deleting the report just added removes it again, and only it, when no other report
      had its id. */
  lemma DeleteUndoesAdd(reports: seq<Report>, draft: Draft, now: nat, isoNow: string)
    requires forall i :: 0 <= i < |reports| ==> reports[i].id != NatToString(now)
    ensures DeleteReport(AddReport(reports, draft, now, isoNow), NatToString(now)) == reports
  {
    var p := Not(IdIs(NatToString(now)));
    FilterConcat(reports, [NewReport(draft, now, isoNow)], p);
    FilterKeepsAll(reports, p);
    assert Filter([NewReport(draft, now, isoNow)], p) == [];
  }
}
