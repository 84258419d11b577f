/** The state behind `MapProvider` in src/context/MapContext.js: the reports, the chat
    messages of each report, the user's contributions and the points they earn. Reports,
    messages and contributions are plain objects. Each callback takes effect at once and
    in order; the clock is the parameter `now`, in milliseconds. */
module MapContextJs {
  import opened Wrappers
  import opened Seqs
  import opened Text
  import opened Json
  import AIService

  /** Reports older than this many milliseconds are swept away. */
  const REPORT_LIFETIME_MS: int := 1000 * 60 * 120

  /** `{ id: Date.now().toString(), timestamp: Date.now(), ...fields }`: the fields are
      spread last, so an `id` or `timestamp` of their own replaces the generated one. */
  function Stamp(fields: Object, now: nat): (r: Object)
    ensures r.Keys == fields.Keys + {"id", "timestamp"}
    ensures r["id"] == if "id" in fields then fields["id"] else Str(NatToString(now))
    ensures r["timestamp"] == if "timestamp" in fields then fields["timestamp"] else Num(now)
    ensures forall k :: k in fields ==> r[k] == fields[k]
  {
    Spread(map["id" := Str(NatToString(now)), "timestamp" := Num(now)], fields)
  }

  /** The contribution `addReport` records for the report with id `reportId`. */
  function ReportContribution(reportId: Value, now: int): Object {
    map["type" := Str("report"), "timestamp" := Num(now), "reportId" := reportId]
  }

  /** The contribution `verifyReport` records. */
  function VerificationContribution(reportId: Value, now: int): Object {
    map["type" := Str("verification"), "timestamp" := Num(now), "reportId" := reportId]
  }

  /** The contribution `addChatMessage` records for a helpful message. */
  function ChatContribution(messageId: Value, reportId: string, now: int): Object {
    map["type" := Str("chat"), "timestamp" := Num(now), "messageId" := messageId,
        "reportId" := Str(reportId), "helpful" := Bool(true)]
  }

  /** `(v || 0) + 1` in JavaScript: a falsy count starts at 1, a number goes up by one,
      `true` counts as 1, and a non-empty string gets `"1"` appended. An array turns
      into its text before the `+`; that case is represented by `Null`. */
  function CountUp(v: Option<Value>): (r: Value)
    ensures !Truthy(v) ==> r == Num(1)
    ensures v.Some? && v.value.Num? ==> r == Num(v.value.n + 1)
  {
    if !Truthy(v) then Num(1)
    else match v.value
      case Num(n) => Num(n + 1)
      case Bool(_) => Num(2)
      case Str(s) => Str(s + "1")
      case Obj(_) => Str("[object Object]1")
      case _ => Null
  }

  /** `{ ...report, verified: true, verifications: (report.verifications || 0) + 1 }`. */
  function Verified(report: Object): (r: Object)
    ensures r.Keys == report.Keys + {"verified", "verifications"}
    ensures Has(r, "verified", Bool(true))
    ensures r["verifications"] == CountUp(Get(report, "verifications"))
    ensures forall k :: k in report && k != "verified" && k != "verifications" ==> r[k] == report[k]
  {
    Spread(report, map["verified" := Bool(true), "verifications" := CountUp(Get(report, "verifications"))])
  }

  /** `report.id === reportId`. */
  function IdIs(reportId: Value): Object -> bool {
    (r: Object) => Get(r, "id") == Some(reportId)
  }

  /** `prev.map(r => r.id === reportId ? Verified(r) : r)`. */
  function VerifyMatching(reports: seq<Object>, reportId: Value): (r: seq<Object>)
    ensures |r| == |reports|
    ensures forall i :: 0 <= i < |reports| ==>
      r[i] == if IdIs(reportId)(reports[i]) then Verified(reports[i]) else reports[i]
  {
    seq(|reports|, i requires 0 <= i < |reports| =>
      if IdIs(reportId)(reports[i]) then Verified(reports[i]) else reports[i])
  }

  /** `report.timestamp > twoHoursAgo`, with JavaScript's number conversion. */
  function Fresh(now: int): Object -> bool {
    (r: Object) => GreaterThan(r, "timestamp", now - REPORT_LIFETIME_MS)
  }

  /** The chat messages after `newMessage` is added to the list of `reportId`. */
  function WithMessage(chats: map<string, seq<Object>>, reportId: string, newMessage: Object): (r: map<string, seq<Object>>)
    ensures r.Keys == chats.Keys + {reportId}
    ensures r[reportId] == (if reportId in chats then chats[reportId] else []) + [newMessage]
    ensures forall k :: k in chats && k != reportId ==> r[k] == chats[k]
  {
    chats[reportId := (if reportId in chats then chats[reportId] else []) + [newMessage]]
  }

  // ---------------------------------------------------------------------------
  // Properties of the pure parts

  /** Verifying touches only the reports with that id; an id that no report has changes
      nothing. */
  lemma VerifyOthersUnchanged(reports: seq<Object>, reportId: Value)
    ensures forall i :: 0 <= i < |reports| && !IdIs(reportId)(reports[i]) ==>
      VerifyMatching(reports, reportId)[i] == reports[i]
    ensures (forall i :: 0 <= i < |reports| ==> !IdIs(reportId)(reports[i])) ==>
      VerifyMatching(reports, reportId) == reports
  {
  }

  /** The sweep keeps exactly the reports stamped within the last two hours, each as often
      as it occurs. */
  lemma ExpiryKeepsFresh(reports: seq<Object>, now: int, r: Object)
    ensures r in Filter(reports, Fresh(now)) <==> r in reports && GreaterThan(r, "timestamp", now - REPORT_LIFETIME_MS)
    ensures multiset(Filter(reports, Fresh(now)))[r]
         == if GreaterThan(r, "timestamp", now - REPORT_LIFETIME_MS) then multiset(reports)[r] else 0
  {
    FilterMembers(reports, Fresh(now), r);
    FilterMultiplicity(reports, Fresh(now), r);
  }

  /** The sweep keeps the fresh reports in their order: it maps the empty list to itself,
      keeps or drops a single report by its timestamp, and distributes over concatenation. */
  lemma ExpiryKeepsOrder(a: seq<Object>, b: seq<Object>, r: Object, now: int)
    ensures Filter([], Fresh(now)) == []
    ensures Filter([r], Fresh(now)) == if GreaterThan(r, "timestamp", now - REPORT_LIFETIME_MS) then [r] else []
    ensures Filter(a + b, Fresh(now)) == Filter(a, Fresh(now)) + Filter(b, Fresh(now))
  {
    FilterSingleton(r, Fresh(now));
    FilterConcat(a, b, Fresh(now));
  }

  /** Sweeping twice at the same time is sweeping once. */
  lemma ExpiryIdempotent(reports: seq<Object>, now: int)
    ensures Filter(Filter(reports, Fresh(now)), Fresh(now)) == Filter(reports, Fresh(now))
  {
    var kept := Filter(reports, Fresh(now));
    forall i | 0 <= i < |kept| ensures Fresh(now)(kept[i]) {
      FilterMembers(reports, Fresh(now), kept[i]);
    }
    FilterKeepsAll(kept, Fresh(now));
  }

  // ---------------------------------------------------------------------------
  // The provider's state

  datatype State = State(
    reports: seq<Object>,
    chatMessages: map<string, seq<Object>>,
    userContributions: seq<Object>,
    userPoints: nat)

  class MapStore {
    var reports: seq<Object>
    var chatMessages: map<string, seq<Object>>
    var userContributions: seq<Object>
    var userPoints: nat

    function Snapshot(): State
      reads this
    {
      State(reports, chatMessages, userContributions, userPoints)
    }

    /** The points shown are those of the recorded contributions. */
    ghost predicate PointsCurrent()
      reads this
    {
      userPoints == AIService.Points(userContributions)
    }

    /** The initial state: nothing recorded, no points. */
    constructor()
      ensures Snapshot() == State([], map[], [], 0)
      ensures PointsCurrent()
    {
      reports, chatMessages, userContributions, userPoints := [], map[], [], 0;
    }

    /** `addContribution`: records `c` after the others and recomputes the points. */
    method AddContribution(c: Object)
      modifies this
      ensures userContributions == old(userContributions) + [c]
      ensures userPoints == AIService.Points(old(userContributions)) + AIService.ContributionPoints(c)
      ensures Snapshot() == old(Snapshot()).(userContributions := userContributions, userPoints := userPoints)
      ensures PointsCurrent()
    {
      var newPoints := AIService.CalculateUserPoints(userContributions + [c]);
      userContributions := userContributions + [c];
      userPoints := newPoints;
      AIService.PointsMonotone(old(userContributions), c);
    }

    /** `addReport` without the spoken safety alert: the stamped report goes in front and
        a `report` contribution naming its id is recorded. */
    method AddReport(report: Object, now: nat) returns (newReport: Object)
      modifies this
      ensures newReport == Stamp(report, now)
      ensures reports == [newReport] + old(reports)
      ensures userContributions == old(userContributions) + [ReportContribution(newReport["id"], now)]
      ensures chatMessages == old(chatMessages)
      ensures PointsCurrent()
    {
      newReport := Stamp(report, now);
      reports := [newReport] + reports;
      AddContribution(ReportContribution(newReport["id"], now));
    }

    /** `verifyReport`: marks the reports with that id verified and records a
        `verification` contribution, whether or not any report had the id. */
    method VerifyReport(reportId: Value, now: int)
      modifies this
      ensures reports == VerifyMatching(old(reports), reportId)
      ensures userContributions == old(userContributions) + [VerificationContribution(reportId, now)]
      ensures chatMessages == old(chatMessages)
      ensures PointsCurrent()
    {
      reports := VerifyMatching(reports, reportId);
      AddContribution(VerificationContribution(reportId, now));
    }

    /** `addChatMessage`: appends the stamped message to the list of `reportId` only, and
        records a `chat` contribution exactly when the message is marked helpful. */
    method AddChatMessage(reportId: string, message: Object, now: nat) returns (newMessage: Object)
      modifies this
      ensures newMessage == Stamp(message, now)
      ensures chatMessages == WithMessage(old(chatMessages), reportId, newMessage)
      ensures reports == old(reports)
      ensures Truthy(Get(message, "helpful")) ==>
        userContributions == old(userContributions) + [ChatContribution(newMessage["id"], reportId, now)]
        && PointsCurrent()
      ensures !Truthy(Get(message, "helpful")) ==>
        userContributions == old(userContributions) && userPoints == old(userPoints)
    {
      newMessage := Stamp(message, now);
      chatMessages := WithMessage(chatMessages, reportId, newMessage);
      if Truthy(Get(message, "helpful")) {
        AddContribution(ChatContribution(newMessage["id"], reportId, now));
      }
    }

    /** The periodic sweep: keeps the reports stamped after two hours before `now`. */
    method ExpireReports(now: int)
      modifies this
      ensures Snapshot() == old(Snapshot()).(reports := Filter(old(reports), Fresh(now)))
    {
      reports := Filter(reports, Fresh(now));
    }
  }
}
