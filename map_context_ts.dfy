/** The report list of the typed `MapProvider` (src/context/MapContext.tsx) with the
    `Report` record of src/types/index.ts. Each callback hands `setReports` a new list
    computed from the previous one; here each is that function from old list to new. */
module MapContextTs {
  import opened Wrappers
  import opened Seqs

  datatype Location = Location(latitude: real, longitude: real)

  datatype ReportKind = Police | Accident | Traffic | Construction | Flood | Danger | Event

  datatype Report = Report(
    user_id: string,
    id: string,
    title: string,
    description: string,
    location: Location,
    kind: ReportKind,
    timestamp: int,
    userId: string,
    verified: bool,
    verifications: int)

  /** `Partial<Report>`: the properties an update carries. */
  datatype ReportPatch = ReportPatch(
    user_id: Option<string>,
    id: Option<string>,
    title: Option<string>,
    description: Option<string>,
    location: Option<Location>,
    kind: Option<ReportKind>,
    timestamp: Option<int>,
    userId: Option<string>,
    verified: Option<bool>,
    verifications: Option<int>)

  /** `{ ...report, ...updates }`: every property the patch carries wins. */
  function Merge(report: Report, updates: ReportPatch): (r: Report)
    ensures r.id == updates.id.GetOr(report.id)
    ensures r.title == updates.title.GetOr(report.title)
    ensures r.description == updates.description.GetOr(report.description)
    ensures r.location == updates.location.GetOr(report.location)
    ensures r.kind == updates.kind.GetOr(report.kind)
    ensures r.timestamp == updates.timestamp.GetOr(report.timestamp)
    ensures r.user_id == updates.user_id.GetOr(report.user_id)
    ensures r.userId == updates.userId.GetOr(report.userId)
    ensures r.verified == updates.verified.GetOr(report.verified)
    ensures r.verifications == updates.verifications.GetOr(report.verifications)
  {
    Report(
      updates.user_id.GetOr(report.user_id),
      updates.id.GetOr(report.id),
      updates.title.GetOr(report.title),
      updates.description.GetOr(report.description),
      updates.location.GetOr(report.location),
      updates.kind.GetOr(report.kind),
      updates.timestamp.GetOr(report.timestamp),
      updates.userId.GetOr(report.userId),
      updates.verified.GetOr(report.verified),
      updates.verifications.GetOr(report.verifications))
  }

  /** `report.id === reportId`. */
  function IdIs(reportId: string): Report -> bool {
    (r: Report) => r.id == reportId
  }

  /** `{ ...report, verified: true, verifications: (report.verifications || 0) + 1 }`;
      for a number, `(v || 0) + 1` is `v + 1`. */
  function Verified(report: Report): (r: Report)
    ensures r.verified && r.verifications == report.verifications + 1
    ensures r.(verified := report.verified, verifications := report.verifications) == report
  {
    report.(verified := true, verifications := report.verifications + 1)
  }

  function MergeWith(updates: ReportPatch): Report -> Report {
    (r: Report) => Merge(r, updates)
  }

  function VerifiedFn(): Report -> Report {
    (r: Report) => Verified(r)
  }

  // ---------------------------------------------------------------------------
  // The callbacks

  /** `addReport`: the report goes at the end. */
  function AddReport(reports: seq<Report>, report: Report): (r: seq<Report>)
    ensures |r| == |reports| + 1
    ensures r[..|reports|] == reports && r[|reports|] == report
  {
    reports + [report]
  }

  /** `updateReport`: the reports with that id take the updates; the rest stay. */
  function UpdateReport(reports: seq<Report>, reportId: string, updates: ReportPatch): (r: seq<Report>)
    ensures |r| == |reports|
    ensures forall i :: 0 <= i < |reports| ==>
      r[i] == if reports[i].id == reportId then Merge(reports[i], updates) else reports[i]
  {
    MapWhere(reports, IdIs(reportId), MergeWith(updates))
  }

  /** `deleteReport`: every report with the id goes, every other report stays as often
      as it was there. */
  function DeleteReport(reports: seq<Report>, reportId: string): (r: seq<Report>)
    ensures |r| <= |reports|
    ensures forall x :: multiset(r)[x] == if x.id == reportId then 0 else multiset(reports)[x]
  {
    FilterMultiplicities(reports, Not(IdIs(reportId)));
    Filter(reports, Not(IdIs(reportId)))
  }

  /** `verifyReport`. */
  function VerifyReport(reports: seq<Report>, reportId: string): (r: seq<Report>)
    ensures |r| == |reports|
    ensures forall i :: 0 <= i < |reports| ==>
      r[i] == if reports[i].id == reportId then Verified(reports[i]) else reports[i]
  {
    MapWhere(reports, IdIs(reportId), VerifiedFn())
  }

  // ---------------------------------------------------------------------------
  // Properties

  /** No report has the id. */
  predicate Absent(reports: seq<Report>, reportId: string) {
    forall i :: 0 <= i < |reports| ==> reports[i].id != reportId
  }

  /** Deleting keeps the survivors in their order: it maps the empty list to itself, keeps
      or drops a single report by its id, and distributes over concatenation. */
  lemma DeleteKeepsOrder(a: seq<Report>, b: seq<Report>, x: Report, reportId: string)
    ensures DeleteReport([], reportId) == []
    ensures DeleteReport([x], reportId) == if x.id == reportId then [] else [x]
    ensures DeleteReport(a + b, reportId) == DeleteReport(a, reportId) + DeleteReport(b, reportId)
  {
    FilterSingleton(x, Not(IdIs(reportId)));
    FilterConcat(a, b, Not(IdIs(reportId)));
  }

  /** Updating, deleting or verifying an id that no report has leaves the list as it is. */
  lemma AbsentIdChangesNothing(reports: seq<Report>, reportId: string, updates: ReportPatch)
    requires Absent(reports, reportId)
    ensures UpdateReport(reports, reportId, updates) == reports
    ensures DeleteReport(reports, reportId) == reports
    ensures VerifyReport(reports, reportId) == reports
  {
    MapWhereNone(reports, IdIs(reportId), MergeWith(updates));
    MapWhereNone(reports, IdIs(reportId), VerifiedFn());
    FilterKeepsAll(reports, Not(IdIs(reportId)));
  }

  /** Deleting keeps exactly the reports with other ids and drops as
      many as have the id. */
  lemma DeleteKeepsTheRest(reports: seq<Report>, reportId: string, x: Report)
    ensures x in DeleteReport(reports, reportId) <==> x in reports && x.id != reportId
    ensures |DeleteReport(reports, reportId)| + |Filter(reports, IdIs(reportId))| == |reports|
  {
    FilterMembers(reports, Not(IdIs(reportId)), x);
    FilterComplement(reports, Not(IdIs(reportId)));
    FilterAgree(reports, Not(Not(IdIs(reportId))), IdIs(reportId));
  }

  /** Deleting after adding a report with another id is adding it after deleting. */
  lemma DeleteAfterAdd(reports: seq<Report>, report: Report, reportId: string)
    requires report.id != reportId
    ensures DeleteReport(AddReport(reports, report), reportId) == AddReport(DeleteReport(reports, reportId), report)
  {
    FilterConcat(reports, [report], Not(IdIs(reportId)));
  }

  /** An update that does not change the id can be applied twice with the effect of once. */
  lemma UpdateIdempotent(reports: seq<Report>, reportId: string, updates: ReportPatch)
    requires updates.id.None? || updates.id == Some(reportId)
    ensures UpdateReport(UpdateReport(reports, reportId, updates), reportId, updates)
         == UpdateReport(reports, reportId, updates)
  {
    MapWhereIdempotent(reports, IdIs(reportId), MergeWith(updates));
  }

  /** Each verification adds one to the count of every report with the id. */
  lemma VerifyTwice(reports: seq<Report>, reportId: string)
    ensures forall i :: 0 <= i < |reports| && reports[i].id == reportId ==>
      VerifyReport(VerifyReport(reports, reportId), reportId)[i].verifications == reports[i].verifications + 2
  {
  }
}
