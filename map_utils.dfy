/** Danger-zone clustering (src/utils/mapUtils.ts): incidents are walked newest first;
    each incident not yet absorbed seeds a zone made of every still-unabsorbed incident
    within `MAX_ZONE_RADIUS` of it. The great-circle distance is a parameter `dist` of
    which only `DistanceLaws` is assumed, and the clock reading used by the zone
    description is the parameter `now` (milliseconds). Coordinates and distances are
    exact reals. */
module MapUtils {
  import opened Seqs
  import opened Text

  const MIN_ZONE_RADIUS: real := 100.0
  const MAX_ZONE_RADIUS: real := 1000.0
  /** Margin added to the farthest member's distance from the centre. */
  const RADIUS_MARGIN: real := 50.0
  const HIGH_THRESHOLD: nat := 5
  const MEDIUM_THRESHOLD: nat := 3
  const LOW_THRESHOLD: nat := 1
  /** 24 hours in milliseconds: the window of the "recent incidents" count. */
  const RECENT_WINDOW_MS: int := 24 * 60 * 60 * 1000

  /** `[latitude, longitude]` in degrees. */
  datatype Position = Position(lat: real, lon: real)

  datatype IncidentKind = Robbery | Assault | Suspicious | Other

  datatype Incident = Incident(
    id: string,
    position: Position,
    kind: IncidentKind,
    timestamp: int,
    description: string,
    verified: bool)

  datatype ZoneType = High | Medium | Low

  datatype DangerZone = DangerZone(
    id: string,
    center: Position,
    radius: real,
    zoneType: ZoneType,
    description: string,
    reports: nat)

  /** A distance in metres between two positions (Haversine in the source). */
  type Distance = (Position, Position) -> real

  /** What the clustering relies on of the distance: a point is at distance 0 from
      itself, and no distance is negative. */
  ghost predicate DistanceLaws(dist: Distance) {
    (forall p :: dist(p, p) == 0.0) && (forall p, q :: dist(p, q) >= 0.0)
  }

  // ---------------------------------------------------------------------------
  // Risk tier and description

  /** `getZoneType`: five or more incidents are `high`, three or four `medium`, and
      anything less `low`. */
  function GetZoneType(count: int): (t: ZoneType)
    ensures t == High <==> count >= HIGH_THRESHOLD
    ensures t == Medium <==> MEDIUM_THRESHOLD <= count < HIGH_THRESHOLD
    ensures t == Low <==> count < MEDIUM_THRESHOLD
  {
    if count >= HIGH_THRESHOLD then High
    else if count >= MEDIUM_THRESHOLD then Medium
    else Low
  }

  function TypeText(t: ZoneType): string {
    match t
    case High => "Alta concentración"
    case Medium => "Concentración moderada"
    case Low => "Baja concentración"
  }

  /** An incident younger than 24 hours at time `now`. */
  function IsRecent(now: int): Incident -> bool {
    (inc: Incident) => now - inc.timestamp < RECENT_WINDOW_MS
  }

  /** The number of members reported in the last 24 hours; never more than the members. */
  function RecentCount(group: seq<Incident>, now: int): (n: nat)
    ensures n <= |group|
  {
    |Filter(group, IsRecent(now))|
  }

  /** The recent count reaches the member count exactly when every member is recent. */
  lemma RecentCountAll(group: seq<Incident>, now: int)
    ensures RecentCount(group, now) == |group| <==> forall i :: 0 <= i < |group| ==> IsRecent(now)(group[i])
  {
    FilterComplement(group, IsRecent(now));
    if forall i :: 0 <= i < |group| ==> IsRecent(now)(group[i]) {
      FilterKeepsAll(group, IsRecent(now));
    } else {
      var i :| 0 <= i < |group| && !IsRecent(now)(group[i]);
      FilterMembers(group, Not(IsRecent(now)), group[i]);
    }
  }

  /** `generateZoneDescription`. */
  function GenerateZoneDescription(count: nat, group: seq<Incident>, t: ZoneType, now: int): string {
    TypeText(t) + " de incidentes en esta zona.\n"
    + NatToString(count) + " incidentes totales.\n"
    + NatToString(RecentCount(group, now)) + " en las últimas 24 horas."
  }

  // ---------------------------------------------------------------------------
  // Centre and radius

  function SumLat(g: seq<Incident>): real {
    if g == [] then 0.0 else g[0].position.lat + SumLat(g[1..])
  }

  function SumLon(g: seq<Incident>): real {
    if g == [] then 0.0 else g[0].position.lon + SumLon(g[1..])
  }

  /** The plain average of the members' latitudes and longitudes. */
  function Center(g: seq<Incident>): Position
    requires |g| >= 1
  {
    Position(SumLat(g) / |g| as real, SumLon(g) / |g| as real)
  }

  /** `Math.max(...g.map(inc => dist(c, inc.position)))`: the distance from `c` to the
      farthest member. */
  function MaxDistance(c: Position, g: seq<Incident>, dist: Distance): (m: real)
    requires |g| >= 1
    ensures forall i :: 0 <= i < |g| ==> dist(c, g[i].position) <= m
    ensures exists i :: 0 <= i < |g| && m == dist(c, g[i].position)
  {
    if |g| == 1 then dist(c, g[0].position)
    else
      var rest := MaxDistance(c, g[1..], dist);
      assert forall i :: 1 <= i < |g| ==> g[i] == g[1..][i - 1];
      if dist(c, g[0].position) >= rest then dist(c, g[0].position) else rest
  }

  /** The zone radius: farthest distance from the centre plus the margin, at most
      `MAX_ZONE_RADIUS`, then at least `MIN_ZONE_RADIUS`. */
  function ZoneRadius(g: seq<Incident>, dist: Distance): (r: real)
    requires |g| >= 1
    ensures MIN_ZONE_RADIUS <= r <= MAX_ZONE_RADIUS
    ensures var span := MaxDistance(Center(g), g, dist) + RADIUS_MARGIN;
      && (MIN_ZONE_RADIUS <= span <= MAX_ZONE_RADIUS ==> r == span)
      && (span >= MAX_ZONE_RADIUS ==> r == MAX_ZONE_RADIUS)
      && (span <= MIN_ZONE_RADIUS ==> r == MIN_ZONE_RADIUS)
  {
    var span := MaxDistance(Center(g), g, dist) + RADIUS_MARGIN;
    var capped := if span < MAX_ZONE_RADIUS then span else MAX_ZONE_RADIUS;
    if capped > MIN_ZONE_RADIUS then capped else MIN_ZONE_RADIUS
  }

  /** The zone built from the members `g`, numbered `number` (1-based). */
  function MakeZone(g: seq<Incident>, number: nat, dist: Distance, now: int): (z: DangerZone)
    requires |g| >= 1
    ensures z.id == "zone-" + NatToString(number)
    ensures z.reports == |g| >= 1
    ensures z.zoneType == GetZoneType(|g|)
    ensures MIN_ZONE_RADIUS <= z.radius <= MAX_ZONE_RADIUS
    ensures z.center == Center(g)
  {
    var t := GetZoneType(|g|);
    DangerZone("zone-" + NatToString(number), Center(g), ZoneRadius(g, dist), t,
               GenerateZoneDescription(|g|, g, t, now), |g|)
  }

  // ---------------------------------------------------------------------------
  // Grouping

  /** An incident whose id is not in `processed`. */
  function Unprocessed(processed: set<string>): Incident -> bool {
    (inc: Incident) => inc.id !in processed
  }

  /** An incident within `MAX_ZONE_RADIUS` of the seed. */
  function WithinReach(seed: Incident, dist: Distance): Incident -> bool {
    (inc: Incident) => dist(seed.position, inc.position) <= MAX_ZONE_RADIUS
  }

  /** `nearbyIncidents`: the incidents of the original input, in input order, that are
      not processed and lie within reach of the seed. */
  function Nearby(all: seq<Incident>, processed: set<string>, seed: Incident, dist: Distance): seq<Incident> {
    Filter(all, Both(Unprocessed(processed), WithinReach(seed, dist)))
  }

  function IdsOf(g: seq<Incident>): set<string> {
    set i | 0 <= i < |g| :: g[i].id
  }

  /** The members of the zones formed while the loop visits `seeds` with the ids in
      `processed` already absorbed, in creation order. */
  function Groups(seeds: seq<Incident>, all: seq<Incident>, processed: set<string>, dist: Distance): (gs: seq<seq<Incident>>)
    ensures forall k :: 0 <= k < |gs| ==> |gs[k]| >= LOW_THRESHOLD
    decreases |seeds|
  {
    if seeds == [] then []
    else if seeds[0].id in processed then Groups(seeds[1..], all, processed, dist)
    else
      var g := Nearby(all, processed, seeds[0], dist);
      if |g| >= LOW_THRESHOLD then [g] + Groups(seeds[1..], all, processed + IdsOf(g), dist)
      else Groups(seeds[1..], all, processed, dist)
  }

  function Timestamp(inc: Incident): int { inc.timestamp }

  /** The members of each zone `calculateDangerZones` creates, in creation order. */
  function ZoneMembers(incidents: seq<Incident>, dist: Distance): (gs: seq<seq<Incident>>)
    ensures forall k :: 0 <= k < |gs| ==> |gs[k]| >= 1
  {
    Groups(SortDescBy(incidents, Timestamp), incidents, {}, dist)
  }

  /** The zones for the member groups `gs`, numbered from 1 in order. */
  function ZonesOf(gs: seq<seq<Incident>>, dist: Distance, now: int): (zs: seq<DangerZone>)
    requires forall k :: 0 <= k < |gs| ==> |gs[k]| >= 1
    ensures |zs| == |gs|
  {
    if gs == [] then []
    else ZonesOf(gs[..|gs| - 1], dist, now) + [MakeZone(gs[|gs| - 1], |gs|, dist, now)]
  }

  /** Zone `k` is built from group `k` and numbered `k + 1`. */
  lemma {:induction false} ZonesOfAt(gs: seq<seq<Incident>>, dist: Distance, now: int, k: nat)
    requires forall k :: 0 <= k < |gs| ==> |gs[k]| >= 1
    requires k < |gs|
    ensures ZonesOf(gs, dist, now)[k] == MakeZone(gs[k], k + 1, dist, now)
  {
    if k < |gs| - 1 {
      ZonesOfAt(gs[..|gs| - 1], dist, now, k);
    }
  }

  /** What `calculateDangerZones(incidents)` returns. */
  function DangerZones(incidents: seq<Incident>, dist: Distance, now: int): seq<DangerZone> {
    if |incidents| == 0 then [] else ZonesOf(ZoneMembers(incidents, dist), dist, now)
  }

  lemma IdsOfSnoc(g: seq<Incident>, j: nat)
    requires j < |g|
    ensures IdsOf(g[..j + 1]) == IdsOf(g[..j]) + {g[j].id}
  {
    var a, b := g[..j + 1], g[..j];
    assert forall i :: 0 <= i < j ==> a[i] == b[i];
    assert a[j] == g[j];
    assert forall x :: x in IdsOf(a) ==> x in IdsOf(b) + {g[j].id};
  }

  lemma GroupsStep(seeds: seq<Incident>, i: nat, all: seq<Incident>, processed: set<string>, dist: Distance)
    requires i < |seeds|
    ensures seeds[i].id in processed ==>
      Groups(seeds[i..], all, processed, dist) == Groups(seeds[i + 1..], all, processed, dist)
    ensures var g := Nearby(all, processed, seeds[i], dist);
      seeds[i].id !in processed && |g| >= LOW_THRESHOLD ==>
      Groups(seeds[i..], all, processed, dist) == [g] + Groups(seeds[i + 1..], all, processed + IdsOf(g), dist)
    ensures var g := Nearby(all, processed, seeds[i], dist);
      seeds[i].id !in processed && |g| < LOW_THRESHOLD ==>
      Groups(seeds[i..], all, processed, dist) == Groups(seeds[i + 1..], all, processed, dist)
  {
    assert seeds[i..][0] == seeds[i];
    assert seeds[i..][1..] == seeds[i + 1..];
  }

  lemma ZonesOfSnoc(gs: seq<seq<Incident>>, g: seq<Incident>, dist: Distance, now: int)
    requires forall k :: 0 <= k < |gs| ==> |gs[k]| >= 1
    requires |g| >= 1
    ensures ZonesOf(gs + [g], dist, now) == ZonesOf(gs, dist, now) + [MakeZone(g, |gs| + 1, dist, now)]
  {
    assert (gs + [g])[..|gs|] == gs;
  }

  /** The loop state after visiting `seeds[..i]`: the groups formed so far, followed by
      the groups the remaining seeds form, are all the groups; `zones` are their zones. */
  ghost predicate LoopState(incidents: seq<Incident>, seeds: seq<Incident>, i: nat, processed: set<string>,
                            groups: seq<seq<Incident>>, zones: seq<DangerZone>, dist: Distance, now: int)
  {
    && i <= |seeds|
    && (forall k :: 0 <= k < |groups| ==> |groups[k]| >= 1)
    && groups + Groups(seeds[i..], incidents, processed, dist) == ZoneMembers(incidents, dist)
    && zones == ZonesOf(groups, dist, now)
  }

  /** Visiting a seed that does not form a zone leaves the state as it is. */
  lemma SkipSeed(incidents: seq<Incident>, seeds: seq<Incident>, i: nat, processed: set<string>,
                 groups: seq<seq<Incident>>, zones: seq<DangerZone>, dist: Distance, now: int)
    requires i < |seeds|
    requires LoopState(incidents, seeds, i, processed, groups, zones, dist, now)
    requires seeds[i].id in processed || |Nearby(incidents, processed, seeds[i], dist)| < LOW_THRESHOLD
    ensures LoopState(incidents, seeds, i + 1, processed, groups, zones, dist, now)
  {
    GroupsStep(seeds, i, incidents, processed, dist);
  }

  /** Visiting a seed that forms a zone appends the group and its zone, and absorbs its members. */
  lemma TakeSeed(incidents: seq<Incident>, seeds: seq<Incident>, i: nat, processed: set<string>,
                 groups: seq<seq<Incident>>, zones: seq<DangerZone>, dist: Distance, now: int)
    requires i < |seeds|
    requires LoopState(incidents, seeds, i, processed, groups, zones, dist, now)
    requires seeds[i].id !in processed
    requires |Nearby(incidents, processed, seeds[i], dist)| >= LOW_THRESHOLD
    ensures var g := Nearby(incidents, processed, seeds[i], dist);
      LoopState(incidents, seeds, i + 1, processed + IdsOf(g), groups + [g],
                zones + [MakeZone(g, |zones| + 1, dist, now)], dist, now)
  {
    var g := Nearby(incidents, processed, seeds[i], dist);
    GroupsTake(incidents, seeds, i, processed, groups, dist);
    ZonesOfSnoc(groups, g, dist, now);
  }

  lemma GroupsTake(incidents: seq<Incident>, seeds: seq<Incident>, i: nat, processed: set<string>,
                   groups: seq<seq<Incident>>, dist: Distance)
    requires i < |seeds|
    requires seeds[i].id !in processed
    requires |Nearby(incidents, processed, seeds[i], dist)| >= LOW_THRESHOLD
    requires groups + Groups(seeds[i..], incidents, processed, dist) == ZoneMembers(incidents, dist)
    ensures var g := Nearby(incidents, processed, seeds[i], dist);
      (groups + [g]) + Groups(seeds[i + 1..], incidents, processed + IdsOf(g), dist) == ZoneMembers(incidents, dist)
  {
    var g := Nearby(incidents, processed, seeds[i], dist);
    GroupsStep(seeds, i, incidents, processed, dist);
    var rest := Groups(seeds[i + 1..], incidents, processed + IdsOf(g), dist);
    assert groups + ([g] + rest) == (groups + [g]) + rest;
  }

  /** Before the first seed nothing is formed and every group is still to come. */
  lemma LoopStart(incidents: seq<Incident>, sorted: seq<Incident>, dist: Distance, now: int)
    requires sorted == SortDescBy(incidents, Timestamp)
    ensures LoopState(incidents, sorted, 0, {}, [], [], dist, now)
  {
    assert sorted[0..] == sorted;
  }

  /** After the last seed the groups formed are all the groups. */
  lemma LoopDone(incidents: seq<Incident>, seeds: seq<Incident>, processed: set<string>,
                 groups: seq<seq<Incident>>, zones: seq<DangerZone>, dist: Distance, now: int)
    requires |incidents| > 0
    requires LoopState(incidents, seeds, |seeds|, processed, groups, zones, dist, now)
    ensures zones == DangerZones(incidents, dist, now)
  {
    var e := seeds[|seeds|..];
    assert e == [];
    assert Groups(e, incidents, processed, dist) == [];
    assert groups + [] == groups;
  }

  /** `processed + IdsOf(g)`, one member at a time. */
  method Absorb(processed: set<string>, g: seq<Incident>) returns (p: set<string>)
    ensures p == processed + IdsOf(g)
  {
    p := processed;
    for j := 0 to |g|
      invariant p == processed + IdsOf(g[..j])
    {
      IdsOfSnoc(g, j);
      p := p + {g[j].id};
    }
    assert g[..|g|] == g;
  }

  /** One turn of the loop of `calculateDangerZones`: a seed already absorbed, or with
      too few unabsorbed incidents around it, is passed over; otherwise its neighbourhood
      becomes the next zone and is absorbed. */
  method VisitSeed(incidents: seq<Incident>, seeds: seq<Incident>, i: nat, processed: set<string>,
                   ghost groups: seq<seq<Incident>>, zones: seq<DangerZone>, dist: Distance, now: int)
    returns (nextProcessed: set<string>, ghost nextGroups: seq<seq<Incident>>, nextZones: seq<DangerZone>)
    requires i < |seeds|
    requires LoopState(incidents, seeds, i, processed, groups, zones, dist, now)
    ensures LoopState(incidents, seeds, i + 1, nextProcessed, nextGroups, nextZones, dist, now)
  {
    var incident := seeds[i];
    nextProcessed, nextZones := processed, zones;
    nextGroups := groups;
    if incident.id in processed {
      SkipSeed(incidents, seeds, i, processed, groups, zones, dist, now);
    } else {
      var nearby := Nearby(incidents, processed, incident, dist);
      if |nearby| >= LOW_THRESHOLD {
        TakeSeed(incidents, seeds, i, processed, groups, zones, dist, now);
        var zone := MakeZone(nearby, |zones| + 1, dist, now);
        nextZones := zones + [zone];
        nextGroups := groups + [nearby];
        nextProcessed := Absorb(processed, nearby);
      } else {
        SkipSeed(incidents, seeds, i, processed, groups, zones, dist, now);
      }
    }
  }

  /** `calculateDangerZones`: sorts a copy newest first, then visits every incident
      as a potential seed, skipping the ones already absorbed. */
  method CalculateDangerZones(incidents: seq<Incident>, dist: Distance, now: int) returns (zones: seq<DangerZone>)
    ensures zones == DangerZones(incidents, dist, now)
  {
    if |incidents| == 0 {
      return [];
    }
    zones := [];
    var processed: set<string> := {};
    var sorted := SortDescBy(incidents, Timestamp);
    ghost var groups: seq<seq<Incident>> := [];
    LoopStart(incidents, sorted, dist, now);
    for i := 0 to |sorted|
      invariant LoopState(incidents, sorted, i, processed, groups, zones, dist, now)
    {
      processed, groups, zones := VisitSeed(incidents, sorted, i, processed, groups, zones, dist, now);
    }
    LoopDone(incidents, sorted, processed, groups, zones, dist, now);
  }

  // ---------------------------------------------------------------------------
  // Properties of the zones

  /** Zone `k` is called `zone-(k + 1)`, has at least one report, carries the tier of
      its report count and a radius within the clamp; no input gives no zones. */
  lemma DangerZoneFields(incidents: seq<Incident>, dist: Distance, now: int)
    ensures incidents == [] ==> DangerZones(incidents, dist, now) == []
    ensures var zs := DangerZones(incidents, dist, now);
      forall k :: 0 <= k < |zs| ==>
        && zs[k].id == "zone-" + NatToString(k + 1)
        && zs[k].reports >= 1
        && zs[k].zoneType == GetZoneType(zs[k].reports)
        && MIN_ZONE_RADIUS <= zs[k].radius <= MAX_ZONE_RADIUS
  {
    if |incidents| > 0 {
      var gs := ZoneMembers(incidents, dist);
      forall k | 0 <= k < |gs|
        ensures ZonesOf(gs, dist, now)[k] == MakeZone(gs[k], k + 1, dist, now)
      {
        ZonesOfAt(gs, dist, now, k);
      }
    }
  }

  /** No two zones share an id. */
  lemma ZoneIdsDistinct(incidents: seq<Incident>, dist: Distance, now: int, i: nat, j: nat)
    requires i < j < |DangerZones(incidents, dist, now)|
    ensures DangerZones(incidents, dist, now)[i].id != DangerZones(incidents, dist, now)[j].id
  {
    DangerZoneFields(incidents, dist, now);
    var zs := DangerZones(incidents, dist, now);
    if zs[i].id == zs[j].id {
      PrefixedNumberInjective("zone-", i + 1, j + 1);
    }
  }

  /** An unprocessed seed taken from the input lies within reach of itself, so its
      neighbourhood contains it and the `LOW_THRESHOLD` gate always passes. */
  lemma GateAlwaysPasses(all: seq<Incident>, processed: set<string>, seed: Incident, dist: Distance)
    requires DistanceLaws(dist)
    requires seed in all && seed.id !in processed
    ensures seed in Nearby(all, processed, seed, dist)
    ensures |Nearby(all, processed, seed, dist)| >= LOW_THRESHOLD
  {
    assert dist(seed.position, seed.position) == 0.0;
    FilterMembers(all, Both(Unprocessed(processed), WithinReach(seed, dist)), seed);
  }

  /** The neighbourhood of a seed holds exactly the input incidents not yet processed
      that lie within `MAX_ZONE_RADIUS` of it. */
  lemma NearbyMembers(all: seq<Incident>, processed: set<string>, seed: Incident, dist: Distance, x: Incident)
    ensures x in Nearby(all, processed, seed, dist)
        <==> x in all && x.id !in processed && dist(seed.position, x.position) <= MAX_ZONE_RADIUS
  {
    FilterMembers(all, Both(Unprocessed(processed), WithinReach(seed, dist)), x);
  }

  /** Since the first seed always forms a zone, any non-empty input gives at least one. */
  lemma NonEmptyInputGivesZones(incidents: seq<Incident>, dist: Distance, now: int)
    requires DistanceLaws(dist)
    requires incidents != []
    ensures |DangerZones(incidents, dist, now)| >= 1
  {
    var sorted := SortDescBy(incidents, Timestamp);
    assert sorted[0] in multiset(sorted);
    GateAlwaysPasses(incidents, {}, sorted[0], dist);
  }

  /** A member of a group has its id among the group's ids. */
  lemma InIdsOf(g: seq<Incident>, x: Incident)
    requires x in g
    ensures x.id in IdsOf(g)
  {
    var k :| 0 <= k < |g| && g[k] == x;
  }

  lemma FlattenCons<T>(g: seq<T>, rest: seq<seq<T>>)
    ensures Flatten([g] + rest) == g + Flatten(rest)
  {
    assert ([g] + rest)[1..] == rest;
  }

  /** Whatever the distance and the ids, the groups formed from unprocessed incidents
      take each of them at most once: their members, as a multiset, lie within the
      unprocessed incidents. */
  lemma {:induction false} GroupsWithinUnprocessed(seeds: seq<Incident>, all: seq<Incident>, processed: set<string>, dist: Distance)
    ensures multiset(Flatten(Groups(seeds, all, processed, dist))) <= multiset(Filter(all, Unprocessed(processed)))
    decreases |seeds|
  {
    if seeds == [] {
    } else if seeds[0].id in processed {
      GroupsWithinUnprocessed(seeds[1..], all, processed, dist);
    } else {
      var reach := WithinReach(seeds[0], dist);
      var g := Nearby(all, processed, seeds[0], dist);
      if |g| >= LOW_THRESHOLD {
        var after := processed + IdsOf(g);
        var rest := Groups(seeds[1..], all, after, dist);
        GroupsWithinUnprocessed(seeds[1..], all, after, dist);
        FlattenCons(g, rest);
        FilterSplit(all, Unprocessed(processed), reach);
        forall i | 0 <= i < |all| && Unprocessed(after)(all[i])
          ensures ButNot(Unprocessed(processed), reach)(all[i])
        {
          if reach(all[i]) {
            FilterMembers(all, Both(Unprocessed(processed), reach), all[i]);
            InIdsOf(g, all[i]);
          }
        }
        FilterMonotone(all, Unprocessed(after), ButNot(Unprocessed(processed), reach));
      } else {
        GroupsWithinUnprocessed(seeds[1..], all, processed, dist);
        FilterMonotone(all, Both(Unprocessed(processed), reach), Unprocessed(processed));
      }
    }
  }

  /** No incident is counted in more zones than it occurs in the input. */
  lemma ZonesNeverOvercount(incidents: seq<Incident>, dist: Distance)
    ensures multiset(Flatten(ZoneMembers(incidents, dist))) <= multiset(incidents)
  {
    GroupsWithinUnprocessed(SortDescBy(incidents, Timestamp), incidents, {}, dist);
    FilterKeepsAll(incidents, Unprocessed({}));
  }

  /** Incidents with the same id are the same incident (in particular: distinct ids). */
  ghost predicate IdsDetermine(all: seq<Incident>) {
    forall i, j :: 0 <= i < |all| && 0 <= j < |all| && all[i].id == all[j].id ==> all[i] == all[j]
  }

  /** When every unprocessed incident is still to be visited as a seed, every seed comes
      from the input, and ids identify incidents, the groups take every unprocessed
      incident exactly once. */
  lemma {:induction false} GroupsCoverUnprocessed(seeds: seq<Incident>, all: seq<Incident>, processed: set<string>, dist: Distance)
    requires DistanceLaws(dist)
    requires IdsDetermine(all)
    requires forall i :: 0 <= i < |seeds| ==> seeds[i] in all
    requires forall i :: 0 <= i < |all| && all[i].id !in processed ==> all[i] in seeds
    ensures multiset(Flatten(Groups(seeds, all, processed, dist))) == multiset(Filter(all, Unprocessed(processed)))
    decreases |seeds|
  {
    if seeds == [] {
      FilterKeepsNone(all, Unprocessed(processed));
    } else if seeds[0].id in processed {
      forall i | 0 <= i < |all| && all[i].id !in processed
        ensures all[i] in seeds[1..]
      {
        assert all[i] in seeds && all[i] != seeds[0];
        assert seeds == [seeds[0]] + seeds[1..];
      }
      GroupsCoverUnprocessed(seeds[1..], all, processed, dist);
    } else {
      var seed := seeds[0];
      var reach := WithinReach(seed, dist);
      var g := Nearby(all, processed, seed, dist);
      GateAlwaysPasses(all, processed, seed, dist);
      InIdsOf(g, seed);
      var after := processed + IdsOf(g);
      forall i | 0 <= i < |all| && all[i].id !in after
        ensures all[i] in seeds[1..]
      {
        assert all[i] in seeds && all[i] != seed;
        assert seeds == [seed] + seeds[1..];
      }
      var rest := Groups(seeds[1..], all, after, dist);
      GroupsCoverUnprocessed(seeds[1..], all, after, dist);
      FlattenCons(g, rest);
      FilterSplit(all, Unprocessed(processed), reach);
      forall i | 0 <= i < |all|
        ensures ButNot(Unprocessed(processed), reach)(all[i]) == Unprocessed(after)(all[i])
      {
        var y := all[i];
        if y.id !in processed && y.id in IdsOf(g) {
          var k :| 0 <= k < |g| && g[k].id == y.id;
          FilterMembers(all, Both(Unprocessed(processed), reach), g[k]);
          var j :| 0 <= j < |all| && all[j] == g[k];
          assert all[j] == y;
        }
        if y.id !in processed && reach(y) {
          FilterMembers(all, Both(Unprocessed(processed), reach), y);
          InIdsOf(g, y);
        }
      }
      FilterAgree(all, ButNot(Unprocessed(processed), reach), Unprocessed(after));
    }
  }

  /** With ids that identify incidents, the zones partition the input: every incident
      is a member of exactly one zone. */
  lemma ZonesPartition(incidents: seq<Incident>, dist: Distance)
    requires DistanceLaws(dist)
    requires IdsDetermine(incidents)
    ensures multiset(Flatten(ZoneMembers(incidents, dist))) == multiset(incidents)
  {
    var sorted := SortDescBy(incidents, Timestamp);
    forall i | 0 <= i < |sorted|
      ensures sorted[i] in incidents
    {
      assert sorted[i] in multiset(sorted);
    }
    forall i | 0 <= i < |incidents|
      ensures incidents[i] in sorted
    {
      assert incidents[i] in multiset(incidents);
    }
    GroupsCoverUnprocessed(sorted, incidents, {}, dist);
    FilterKeepsAll(incidents, Unprocessed({}));
  }

  /** The sum of the zones' `reports`. */
  function TotalReports(zs: seq<DangerZone>): nat {
    if zs == [] then 0 else TotalReports(zs[..|zs| - 1]) + zs[|zs| - 1].reports
  }

  /** The reports of the zones of `gs` add up to the number of members. */
  lemma {:induction false} TotalReportsOfZones(gs: seq<seq<Incident>>, dist: Distance, now: int)
    requires forall k :: 0 <= k < |gs| ==> |gs[k]| >= 1
    ensures TotalReports(ZonesOf(gs, dist, now)) == |Flatten(gs)|
  {
    if gs != [] {
      var front, last := gs[..|gs| - 1], gs[|gs| - 1];
      assert gs == front + [last];
      ZonesOfSnoc(front, last, dist, now);
      TotalReportsSnoc(ZonesOf(front, dist, now), MakeZone(last, |gs|, dist, now));
      TotalReportsOfZones(front, dist, now);
      FlattenConcat(front, [last]);
      FlattenCons(last, []);
    }
  }

  lemma TotalReportsSnoc(zs: seq<DangerZone>, z: DangerZone)
    ensures TotalReports(zs + [z]) == TotalReports(zs) + z.reports
  {
    assert (zs + [z])[..|zs|] == zs;
  }

  /** However the distance behaves and whatever the ids, the zones report at most as many
      incidents as there are. */
  lemma ReportsAtMostIncidents(incidents: seq<Incident>, dist: Distance, now: int)
    ensures TotalReports(DangerZones(incidents, dist, now)) <= |incidents|
  {
    if |incidents| > 0 {
      var gs := ZoneMembers(incidents, dist);
      TotalReportsOfZones(gs, dist, now);
      ZonesNeverOvercount(incidents, dist);
      SubMultisetSize(multiset(Flatten(gs)), multiset(incidents));
    }
  }

  /** With ids that identify incidents, the zones' reports add up to the number of
      incidents. */
  lemma ReportsCountIncidents(incidents: seq<Incident>, dist: Distance, now: int)
    requires DistanceLaws(dist)
    requires IdsDetermine(incidents)
    ensures TotalReports(DangerZones(incidents, dist, now)) == |incidents|
  {
    if |incidents| > 0 {
      var gs := ZoneMembers(incidents, dist);
      TotalReportsOfZones(gs, dist, now);
      ZonesPartition(incidents, dist);
      assert |multiset(Flatten(gs))| == |multiset(incidents)|;
    }
  }

  /** A single incident forms one low-tier zone centred on it, with the minimum radius. */
  lemma SingleIncidentZone(x: Incident, dist: Distance, now: int)
    requires DistanceLaws(dist)
    ensures DangerZones([x], dist, now)
         == [DangerZone("zone-" + NatToString(1), x.position, MIN_ZONE_RADIUS, Low,
                        GenerateZoneDescription(1, [x], Low, now), 1)]
  {
    assert SortDescBy([x], Timestamp) == [x];
    assert dist(x.position, x.position) == 0.0;
    assert Nearby([x], {}, x, dist) == [x];
    assert [x][1..] == [];
    assert Groups([x], [x], {}, dist) == [[x]];
    SingleCenter(x);
    assert MaxDistance(x.position, [x], dist) == 0.0;
  }

  /** A zone of one incident is centred on it. */
  lemma SingleCenter(x: Incident)
    ensures Center([x]) == x.position
  {
    assert [x][1..] == [];
    assert SumLat([x]) == x.position.lat;
    assert SumLon([x]) == x.position.lon;
  }
}
