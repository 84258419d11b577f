/** The two pieces of plain logic in `AIService` (src/services/AIService.js): the
    contribution score `calculateUserPoints` and the line parser `processAIResponse`
    that turns a model reply into alternative routes. The calls to the language model
    and to text-to-speech are not part of this model. */
module AIService {
  import opened Seqs
  import opened Text
  import opened Json
  import opened Wrappers

  // ---------------------------------------------------------------------------
  // Contribution points

  const REPORT_POINTS: nat := 10
  const VERIFIED_REPORT_BONUS: nat := 5
  const VERIFICATION_POINTS: nat := 5
  const HELPFUL_CHAT_POINTS: nat := 3
  const ROUTE_SHARING_POINTS: nat := 8
  const USED_ROUTE_BONUS: nat := 5
  /** Listed in the points table but never awarded by any branch. */
  const CONSECUTIVE_POINTS: nat := 2

  /** `contribution.type === kind`. */
  function IsKind(kind: string): Object -> bool {
    (c: Object) => Has(c, "type", Str(kind))
  }

  /** `contribution[flag]` is truthy. */
  function IsSet(flag: string): Object -> bool {
    (c: Object) => Truthy(Get(c, flag))
  }

  /** What one contribution adds to the total: the `switch` on its `type`. Each possible
      amount identifies the kind of contribution that earns it. */
  function ContributionPoints(c: Object): (p: nat)
    ensures p == 15 <==> IsKind("report")(c) && IsSet("verified")(c)
    ensures p == 13 <==> IsKind("route")(c) && IsSet("used")(c)
    ensures p == 10 <==> IsKind("report")(c) && !IsSet("verified")(c)
    ensures p == 8 <==> IsKind("route")(c) && !IsSet("used")(c)
    ensures p == 5 <==> IsKind("verification")(c)
    ensures p == 3 <==> IsKind("chat")(c) && IsSet("helpful")(c)
    ensures p == 0 <==> !IsKind("report")(c) && !IsKind("route")(c) && !IsKind("verification")(c)
                        && !(IsKind("chat")(c) && IsSet("helpful")(c))
    ensures p != CONSECUTIVE_POINTS
  {
    match Get(c, "type")
    case Some(Str(kind)) =>
      if kind == "report" then
        REPORT_POINTS + (if Truthy(Get(c, "verified")) then VERIFIED_REPORT_BONUS else 0)
      else if kind == "verification" then VERIFICATION_POINTS
      else if kind == "chat" then (if Truthy(Get(c, "helpful")) then HELPFUL_CHAT_POINTS else 0)
      else if kind == "route" then
        ROUTE_SHARING_POINTS + (if Truthy(Get(c, "used")) then USED_ROUTE_BONUS else 0)
      else 0
    case _ => 0
  }

  /** The total over a list of contributions. */
  function Points(cs: seq<Object>): nat {
    if cs == [] then 0 else ContributionPoints(cs[0]) + Points(cs[1..])
  }

  /** The total of a concatenation is the sum of the totals. */
  lemma {:induction false} PointsAdditive(a: seq<Object>, b: seq<Object>)
    ensures Points(a + b) == Points(a) + Points(b)
  {
    if a == [] {
      assert a + b == b;
    } else {
      assert (a + b)[0] == a[0];
      assert (a + b)[1..] == a[1..] + b;
      PointsAdditive(a[1..], b);
    }
  }

  /** Recording one more contribution never lowers the total. */
  lemma PointsMonotone(cs: seq<Object>, c: Object)
    ensures Points(cs + [c]) >= Points(cs)
    ensures Points(cs + [c]) == Points(cs) + ContributionPoints(c)
  {
    PointsAdditive(cs, [c]);
    assert [c][1..] == [];
  }

  /** The total counted by kind: 10 per report and 5 more per verified one, 5 per
      verification, 3 per helpful chat message, 8 per shared route and 5 more per used
      one; nothing for anything else. */
  lemma {:induction false} PointsByKind(cs: seq<Object>)
    ensures Points(cs) ==
        REPORT_POINTS * |Filter(cs, IsKind("report"))|
      + VERIFIED_REPORT_BONUS * |Filter(cs, Both(IsKind("report"), IsSet("verified")))|
      + VERIFICATION_POINTS * |Filter(cs, IsKind("verification"))|
      + HELPFUL_CHAT_POINTS * |Filter(cs, Both(IsKind("chat"), IsSet("helpful")))|
      + ROUTE_SHARING_POINTS * |Filter(cs, IsKind("route"))|
      + USED_ROUTE_BONUS * |Filter(cs, Both(IsKind("route"), IsSet("used")))|
  {
    if cs != [] {
      PointsByKind(cs[1..]);
      ContributionByKind(cs[0]);
      FilterCount(cs, IsKind("report"));
      FilterCount(cs, Both(IsKind("report"), IsSet("verified")));
      FilterCount(cs, IsKind("verification"));
      FilterCount(cs, Both(IsKind("chat"), IsSet("helpful")));
      FilterCount(cs, IsKind("route"));
      FilterCount(cs, Both(IsKind("route"), IsSet("used")));
    }
  }

  /** One contribution's points, counted by kind. */
  lemma ContributionByKind(c: Object)
    ensures ContributionPoints(c) ==
        REPORT_POINTS * OneIf(IsKind("report")(c))
      + VERIFIED_REPORT_BONUS * OneIf(Both(IsKind("report"), IsSet("verified"))(c))
      + VERIFICATION_POINTS * OneIf(IsKind("verification")(c))
      + HELPFUL_CHAT_POINTS * OneIf(Both(IsKind("chat"), IsSet("helpful"))(c))
      + ROUTE_SHARING_POINTS * OneIf(IsKind("route")(c))
      + USED_ROUTE_BONUS * OneIf(Both(IsKind("route"), IsSet("used"))(c))
  {
  }

  /** `calculateUserPoints`: adds up the points of the contributions in order. */
  method CalculateUserPoints(contributions: seq<Object>) returns (points: nat)
    ensures points == Points(contributions)
    ensures contributions == [] ==> points == 0
  {
    points := 0;
    for i := 0 to |contributions|
      invariant points == Points(contributions[..i])
    {
      var c := contributions[i];
      assert contributions[..i + 1] == contributions[..i] + [c];
      PointsMonotone(contributions[..i], c);
      points := points + ContributionPoints(c);
    }
    assert contributions[..|contributions|] == contributions;
  }

  // ---------------------------------------------------------------------------
  // Route parsing
  //
  // The parser is defined for any header test `h`; the reply format fixes `h` to
  // `IsHeaderLine()`, the lines that contain `ROUTE_HEADER`.

  const ROUTE_HEADER: string := "Ruta alternativa"

  datatype Route = Route(name: string, steps: seq<string>, estimatedTime: string, trafficLevel: string)

  /** `line.includes('Ruta alternativa')`: a line that opens a new route. */
  predicate IsHeader(line: string) {
    Includes(line, ROUTE_HEADER)
  }

  function IsHeaderLine(): string -> bool {
    (line: string) => IsHeader(line)
  }

  /** The number of lines before the next header (all of them if none follows). */
  function BodyLength(lines: seq<string>, h: string -> bool): (n: nat)
    ensures n <= |lines|
    ensures forall k :: 0 <= k < n ==> !h(lines[k])
    ensures n < |lines| ==> h(lines[n])
  {
    if lines == [] || h(lines[0]) then 0 else 1 + BodyLength(lines[1..], h)
  }

  /** The step one body line contributes: the line trimmed, or none when it is blank. */
  function LineSteps(line: string): seq<string> {
    if Trim(line) != "" then [Trim(line)] else []
  }

  /** The steps a route's body contributes: each non-blank line, trimmed. */
  function StepsOf(body: seq<string>): seq<string> {
    if body == [] then [] else LineSteps(body[0]) + StepsOf(body[1..])
  }

  /** The routes of lines that start at a header (or are exhausted): one per header,
      named by the header line and carrying the steps of the lines up to the next one. */
  function RoutesFrom(lines: seq<string>, h: string -> bool): seq<Route>
    requires lines == [] || h(lines[0])
    decreases |lines|
  {
    if lines == [] then []
    else
      var n := BodyLength(lines[1..], h);
      [Route(lines[0], StepsOf(lines[1..1 + n]), "", "")] + RoutesFrom(lines[1 + n..], h)
  }

  /** The routes of a reply's lines; the lines before the first header belong to no route. */
  function RoutesOf(lines: seq<string>, h: string -> bool): seq<Route> {
    RoutesFrom(lines[BodyLength(lines, h)..], h)
  }

  /** The routes still to come when the loop has `current` open and `rest` unread. */
  function Pending(current: Option<Route>, rest: seq<string>, h: string -> bool): seq<Route> {
    match current
    case None => RoutesOf(rest, h)
    case Some(r) =>
      var n := BodyLength(rest, h);
      [WithSteps(r, StepsOf(rest[..n]))] + RoutesFrom(rest[n..], h)
  }

  /** The route with `extra` appended to its steps. */
  function WithSteps(r: Route, extra: seq<string>): Route {
    r.(steps := r.steps + extra)
  }

  lemma WithStepsTwice(r: Route, a: seq<string>, b: seq<string>)
    ensures WithSteps(WithSteps(r, a), b) == WithSteps(r, a + b)
  {
    assert (r.steps + a) + b == r.steps + (a + b);
  }

  lemma StepsOfCons(line: string, body: seq<string>)
    ensures StepsOf([line] + body) == LineSteps(line) + StepsOf(body)
  {
    assert ([line] + body)[1..] == body;
  }

  /** Reading a header line closes the open route, if any, and opens a new one. */
  lemma PendingHeader(current: Option<Route>, rest: seq<string>, h: string -> bool)
    requires rest != [] && h(rest[0])
    ensures Pending(current, rest, h)
         == (if current.Some? then [current.value] else []) + Pending(Some(Route(rest[0], [], "", "")), rest[1..], h)
  {
    var line, tail := rest[0], rest[1..];
    var n := BodyLength(tail, h);
    var first := Route(line, StepsOf(tail[..n]), "", "");
    assert rest[1..1 + n] == tail[..n];
    assert rest[1 + n..] == tail[n..];
    assert RoutesFrom(rest, h) == [first] + RoutesFrom(tail[n..], h);
    assert Pending(Some(Route(line, [], "", "")), tail, h) == [first] + RoutesFrom(tail[n..], h) by {
      assert [] + StepsOf(tail[..n]) == StepsOf(tail[..n]);
    }
    assert rest[0..] == rest;
    assert rest[..0] == [];
    if current.Some? {
      var r := current.value;
      assert r.steps + StepsOf([]) == r.steps;
      assert Pending(current, rest, h) == [r] + RoutesFrom(rest, h);
    } else {
      assert Pending(current, rest, h) == RoutesFrom(rest, h);
    }
  }

  /** Reading any other line adds it, trimmed, to the open route when there is one and
      the line is not blank, and otherwise skips it. */
  lemma PendingBody(current: Option<Route>, rest: seq<string>, h: string -> bool)
    requires rest != [] && !h(rest[0])
    ensures current.Some? && Trim(rest[0]) != "" ==>
      Pending(current, rest, h)
        == Pending(Some(current.value.(steps := current.value.steps + [Trim(rest[0])])), rest[1..], h)
    ensures current.None? || Trim(rest[0]) == "" ==>
      Pending(current, rest, h) == Pending(current, rest[1..], h)
  {
    BodyLengthCons(rest, h);
    if current.Some? {
      var r := current.value;
      PendingOpenLine(r, rest, h);
      if Trim(rest[0]) == "" {
        assert WithSteps(r, LineSteps(rest[0])) == r by {
          assert r.steps + [] == r.steps;
        }
      }
    }
  }

  /** A line that is no header belongs to the body before the next header. */
  lemma BodyLengthCons(rest: seq<string>, h: string -> bool)
    requires rest != [] && !h(rest[0])
    ensures BodyLength(rest, h) == 1 + BodyLength(rest[1..], h)
    ensures rest[BodyLength(rest, h)..] == rest[1..][BodyLength(rest[1..], h)..]
  {
  }

  /** With a route open, such a line's steps go to that route. */
  lemma PendingOpenLine(r: Route, rest: seq<string>, h: string -> bool)
    requires rest != [] && !h(rest[0])
    ensures Pending(Some(r), rest, h) == Pending(Some(WithSteps(r, LineSteps(rest[0]))), rest[1..], h)
  {
    var tail := rest[1..];
    BodyLengthCons(rest, h);
    StepsOfBody(rest, h);
    WithStepsTwice(r, LineSteps(rest[0]), StepsOf(tail[..BodyLength(tail, h)]));
  }

  /** The body that starts at such a line is that line followed by the body after it. */
  lemma StepsOfBody(rest: seq<string>, h: string -> bool)
    requires rest != [] && !h(rest[0])
    ensures StepsOf(rest[..BodyLength(rest, h)]) == LineSteps(rest[0]) + StepsOf(rest[1..][..BodyLength(rest[1..], h)])
  {
    var tail, body := rest[1..], rest[..BodyLength(rest, h)];
    BodyLengthCons(rest, h);
    assert body[0] == rest[0];
    assert body[1..] == tail[..BodyLength(tail, h)];
  }

  /** With nothing left to read, the open route (if any) is the last one. */
  lemma PendingDone(current: Option<Route>, h: string -> bool)
    ensures Pending(current, [], h) == (if current.Some? then [current.value] else [])
  {
    if current.Some? {
      assert current.value.steps + StepsOf([]) == current.value.steps;
    }
  }

  /** The loop state after reading `lines[..i]`: the routes closed so far, followed by
      what the open route and the unread lines still give, are all the routes. */
  ghost predicate ParseState(lines: seq<string>, i: nat, routes: seq<Route>, current: Option<Route>, h: string -> bool) {
    i <= |lines| && routes + Pending(current, lines[i..], h) == RoutesOf(lines, h)
  }

  lemma ReadStart(lines: seq<string>, h: string -> bool)
    ensures ParseState(lines, 0, [], None, h)
  {
    assert lines[0..] == lines;
  }

  lemma ReadLine(lines: seq<string>, i: nat) returns (rest: seq<string>)
    requires i < |lines|
    ensures rest == lines[i + 1..] && rest == lines[i..][1..] && lines[i..][0] == lines[i]
    ensures lines[i..] != []
  {
    rest := lines[i + 1..];
  }

  lemma ReadHeader(lines: seq<string>, i: nat, routes: seq<Route>, current: Option<Route>, h: string -> bool)
    requires i < |lines| && h(lines[i])
    requires ParseState(lines, i, routes, current, h)
    ensures current.Some? ==> ParseState(lines, i + 1, routes + [current.value], Some(Route(lines[i], [], "", "")), h)
    ensures current.None? ==> ParseState(lines, i + 1, routes, Some(Route(lines[i], [], "", "")), h)
  {
    var rest := ReadLine(lines, i);
    PendingHeader(current, lines[i..], h);
    var next := Route(lines[i], [], "", "");
    if current.Some? {
      var closed := [current.value];
      assert routes + (closed + Pending(Some(next), rest, h)) == (routes + closed) + Pending(Some(next), rest, h);
    } else {
      assert [] + Pending(Some(next), rest, h) == Pending(Some(next), rest, h);
    }
  }

  lemma ReadStep(lines: seq<string>, i: nat, routes: seq<Route>, current: Option<Route>, h: string -> bool)
    requires i < |lines| && !h(lines[i]) && current.Some? && Trim(lines[i]) != ""
    requires ParseState(lines, i, routes, current, h)
    ensures ParseState(lines, i + 1, routes,
                       Some(current.value.(steps := current.value.steps + [Trim(lines[i])])), h)
  {
    var rest := ReadLine(lines, i);
    PendingBody(current, lines[i..], h);
  }

  lemma ReadOther(lines: seq<string>, i: nat, routes: seq<Route>, current: Option<Route>, h: string -> bool)
    requires i < |lines| && !h(lines[i]) && (current.None? || Trim(lines[i]) == "")
    requires ParseState(lines, i, routes, current, h)
    ensures ParseState(lines, i + 1, routes, current, h)
  {
    var rest := ReadLine(lines, i);
    PendingBody(current, lines[i..], h);
  }

  lemma ReadDone(lines: seq<string>, routes: seq<Route>, current: Option<Route>, h: string -> bool)
    requires ParseState(lines, |lines|, routes, current, h)
    ensures current.Some? ==> routes + [current.value] == RoutesOf(lines, h)
    ensures current.None? ==> routes == RoutesOf(lines, h)
  {
    PendingDone(current, h);
    assert lines[|lines|..] == [];
    if current.None? {
      assert routes + [] == routes;
    }
  }

  /** `processAIResponse`: splits the reply at line breaks, opens a route at every header
      line, and adds to the open route each later non-blank line, trimmed. */
  method ProcessAIResponse(response: string) returns (routes: seq<Route>)
    ensures routes == RoutesOf(Split(response, '\n'), IsHeaderLine())
    ensures Names(routes) == Filter(Split(response, '\n'), IsHeaderLine())
    ensures forall k :: 0 <= k < |routes| ==>
      routes[k].estimatedTime == "" && routes[k].trafficLevel == "" && GoodSteps(routes[k].steps)
  {
    var lines := Split(response, '\n');
    var h := IsHeaderLine();
    routes := [];
    var current: Option<Route> := None;
    ReadStart(lines, h);
    for i := 0 to |lines|
      invariant ParseState(lines, i, routes, current, h)
    {
      var line := lines[i];
      if h(line) {
        ReadHeader(lines, i, routes, current, h);
        if current.Some? {
          routes := routes + [current.value];
        }
        current := Some(Route(line, [], "", ""));
      } else if current.Some? && Trim(line) != "" {
        ReadStep(lines, i, routes, current, h);
        current := Some(current.value.(steps := current.value.steps + [Trim(line)]));
      } else {
        ReadOther(lines, i, routes, current, h);
      }
    }
    ReadDone(lines, routes, current, h);
    if current.Some? {
      routes := routes + [current.value];
    }
    RouteNames(lines, h);
    RouteFields(lines, h);
  }

  // ---------------------------------------------------------------------------
  // Properties of the parsed routes

  function Names(routes: seq<Route>): seq<string> {
    if routes == [] then [] else [routes[0].name] + Names(routes[1..])
  }

  /** Filtering skips a prefix that the filter drops entirely. */
  lemma {:induction false} FilterSkip(s: seq<string>, n: nat, h: string -> bool)
    requires n <= |s|
    requires forall k :: 0 <= k < n ==> !h(s[k])
    ensures Filter(s, h) == Filter(s[n..], h)
  {
    if n > 0 {
      var tail := s[1..];
      assert Filter(s, h) == Filter(tail, h);
      forall k | 0 <= k < n - 1 ensures !h(tail[k]) {
        assert tail[k] == s[k + 1];
      }
      FilterSkip(tail, n - 1, h);
      assert tail[n - 1..] == s[n..];
    } else {
      assert s[0..] == s;
    }
  }

  lemma {:induction false} RoutesFromNames(lines: seq<string>, h: string -> bool)
    requires lines == [] || h(lines[0])
    ensures Names(RoutesFrom(lines, h)) == Filter(lines, h)
    decreases |lines|
  {
    if lines != [] {
      var tail := lines[1..];
      var n := BodyLength(tail, h);
      var after := tail[n..];
      assert after == lines[1 + n..];
      RoutesFromNames(after, h);
      assert Filter(lines, h) == [lines[0]] + Filter(tail, h);
      FilterSkip(tail, n, h);
      var rs := RoutesFrom(lines, h);
      assert rs == [Route(lines[0], StepsOf(lines[1..1 + n]), "", "")] + RoutesFrom(after, h);
      assert rs[1..] == RoutesFrom(after, h);
    }
  }

  /** There is one route per header line, in the order of the lines, named by the header
      line as it stands. */
  lemma RouteNames(lines: seq<string>, h: string -> bool)
    ensures Names(RoutesOf(lines, h)) == Filter(lines, h)
  {
    var n := BodyLength(lines, h);
    RoutesFromNames(lines[n..], h);
    FilterSkip(lines, n, h);
  }

  lemma {:induction false} NamesLength(routes: seq<Route>)
    ensures |Names(routes)| == |routes|
  {
    if routes != [] {
      NamesLength(routes[1..]);
    }
  }

  /** A reply yields no routes exactly when none of its lines is a header. */
  lemma NoHeaderNoRoutes(lines: seq<string>, h: string -> bool)
    ensures RoutesOf(lines, h) == [] <==> forall k :: 0 <= k < |lines| ==> !h(lines[k])
  {
    RouteNames(lines, h);
    NamesLength(RoutesOf(lines, h));
    if forall k :: 0 <= k < |lines| ==> !h(lines[k]) {
      FilterKeepsNone(lines, h);
    } else {
      var k :| 0 <= k < |lines| && h(lines[k]);
      FilterMembers(lines, h, lines[k]);
    }
  }

  lemma {:induction false} BodyLengthPast(lead: seq<string>, lines: seq<string>, h: string -> bool)
    requires forall k :: 0 <= k < |lead| ==> !h(lead[k])
    requires lines == [] || h(lines[0])
    ensures BodyLength(lead + lines, h) == |lead|
  {
    if lead == [] {
      assert lead + lines == lines;
    } else {
      assert (lead + lines)[1..] == lead[1..] + lines;
      BodyLengthPast(lead[1..], lines, h);
    }
  }

  /** Lines ahead of the first header are ignored. */
  lemma LeadingLinesDropped(lead: seq<string>, lines: seq<string>, h: string -> bool)
    requires forall k :: 0 <= k < |lead| ==> !h(lead[k])
    requires lines == [] || h(lines[0])
    ensures RoutesOf(lead + lines, h) == RoutesFrom(lines, h)
  {
    BodyLengthPast(lead, lines, h);
    assert (lead + lines)[|lead|..] == lines;
  }

  /** Every step is a non-blank line trimmed: it is not empty and trimming it again
      changes nothing. */
  predicate GoodSteps(steps: seq<string>) {
    forall k :: 0 <= k < |steps| ==> steps[k] != "" && Trim(steps[k]) == steps[k]
  }

  lemma {:induction false} StepsOfGood(body: seq<string>)
    ensures GoodSteps(StepsOf(body))
    ensures |StepsOf(body)| <= |body|
  {
    if body != [] {
      StepsOfGood(body[1..]);
      TrimIdempotent(body[0]);
    }
  }

  lemma {:induction false} RoutesFromFields(lines: seq<string>, h: string -> bool)
    requires lines == [] || h(lines[0])
    ensures forall k :: 0 <= k < |RoutesFrom(lines, h)| ==>
      var r := RoutesFrom(lines, h)[k];
      r.estimatedTime == "" && r.trafficLevel == "" && h(r.name) && GoodSteps(r.steps)
    decreases |lines|
  {
    if lines != [] {
      var n := BodyLength(lines[1..], h);
      RoutesFromFields(lines[1 + n..], h);
      StepsOfGood(lines[1..1 + n]);
    }
  }

  /** Every route has an empty `estimatedTime` and `trafficLevel`, a header line as its
      name, and trimmed, non-blank steps. */
  lemma RouteFields(lines: seq<string>, h: string -> bool)
    ensures forall k :: 0 <= k < |RoutesOf(lines, h)| ==>
      var r := RoutesOf(lines, h)[k];
      r.estimatedTime == "" && r.trafficLevel == "" && h(r.name) && GoodSteps(r.steps)
  {
    RoutesFromFields(lines[BodyLength(lines, h)..], h);
  }
}
