/** The in-memory health and alert store `DatabaseService` (database/db-service.js).
    Records are plain objects; a table is a sequence of them. A timestamp that the
    service writes with `new Date().toISOString()` is kept as its value in milliseconds,
    and the clock reading is the parameter `now`. Ids are the numbers the service
    assigns, compared with `===`. */
module DbService {
  import opened Wrappers
  import opened Seqs
  import opened Json

  const DAY_MS: int := 24 * 60 * 60 * 1000
  const HEART_RATE_LIMIT: int := 100
  const BATTERY_LIMIT: int := 20
  /** Minutes credited for every reading that is not `'Inactive'`. */
  const ACTIVE_MINUTES_PER_READING: nat := 15

  /** The contents of all tables and the `initialized` flag. */
  datatype Tables = Tables(
    users: seq<Object>,
    medicalHistory: seq<Object>,
    devices: seq<Object>,
    alerts: seq<Object>,
    healthReadings: seq<Object>,
    emergencyContacts: seq<Object>,
    initialized: bool)

  /** The demo records that `init` installs; they depend on the clock and on
      `Math.random`, so they are given. */
  datatype MockData = MockData(
    users: seq<Object>,
    devices: seq<Object>,
    healthReadings: seq<Object>,
    alerts: seq<Object>,
    emergencyContacts: seq<Object>)

  // ---------------------------------------------------------------------------
  // Records

  /** `{ id, ...fields }`: the given fields override the generated id. */
  function WithId(id: int, fields: Object): Object
  {
    Spread(map["id" := Num(id)], fields)
  }

  /** `{ id, ...fields, [key]: Num(at) }`: the id yields to the fields, the stamp wins over them. */
  function Stamped(id: int, fields: Object, key: string, at: int): (r: Object)
    ensures r.Keys == fields.Keys + {"id", key}
    ensures r[key] == Num(at)
    ensures key != "id" ==> r["id"] == if "id" in fields then fields["id"] else Num(id)
    ensures forall k :: k in fields && k != key ==> r[k] == fields[k]
  {
    Spread(WithId(id, fields), map[key := Num(at)])
  }

  /** The record `createUser` stores for `userData` as the `n + 1`-th user. */
  function NewUser(n: nat, userData: Object, now: int): Object {
    Stamped(n + 1, userData, "createdAt", now)
  }

  /** The record `saveHealthReading` stores for `reading` as the `n + 1`-th reading. */
  function NewReading(n: nat, reading: Object, now: int): Object {
    Stamped(n + 1, reading, "timestamp", now)
  }

  /** The record `createAlert` stores for `alert` as the `n + 1`-th alert: unread,
      stamped `now`, whatever the argument says about either. */
  function NewAlert(n: nat, alert: Object, now: int): Object
  {
    Spread(WithId(n + 1, alert), map["is_read" := Bool(false), "timestamp" := Num(now)])
  }

  /** What that record holds: every property of the argument except the two that are
      overwritten, an id unless the argument has one, and nothing else. */
  lemma NewAlertFields(n: nat, alert: Object, now: int)
    ensures var r := NewAlert(n, alert, now);
      && r.Keys == alert.Keys + {"id", "is_read", "timestamp"}
      && Has(r, "is_read", Bool(false))
      && Has(r, "timestamp", Num(now))
      && r["id"] == (if "id" in alert then alert["id"] else Num(n + 1))
      && forall k :: k in alert && k != "is_read" && k != "timestamp" ==> r[k] == alert[k]
  {
  }

  /** `o[key] === v`. */
  function FieldIs(key: string, v: Value): Object -> bool {
    (o: Object) => Get(o, key) == Some(v)
  }

  /** `s.findIndex(o => o[key] === v)`: the first position whose `key` is `v`, or -1. */
  function FindIndex(s: seq<Object>, key: string, v: Value): (i: int)
    ensures -1 <= i < |s|
    ensures i >= 0 ==> FieldIs(key, v)(s[i]) && forall k :: 0 <= k < i ==> !FieldIs(key, v)(s[k])
    ensures i == -1 <==> forall k :: 0 <= k < |s| ==> !FieldIs(key, v)(s[k])
  {
    if s == [] then -1
    else if FieldIs(key, v)(s[0]) then 0
    else
      var j := FindIndex(s[1..], key, v);
      assert forall k :: 1 <= k < |s| ==> s[k] == s[1..][k - 1];
      if j == -1 then -1 else j + 1
  }

  /** `s.find(o => o[key] === v)`. */
  function Find(s: seq<Object>, key: string, v: Value): (r: Option<Object>)
    ensures r.None? <==> forall k :: 0 <= k < |s| ==> !FieldIs(key, v)(s[k])
    ensures r.Some? ==> r.value == s[FindIndex(s, key, v)] && FieldIs(key, v)(r.value)
  {
    var i := FindIndex(s, key, v);
    if i == -1 then None else Some(s[i])
  }

  /** The `Date` value of `o.timestamp` in milliseconds; `None` when it is not a date
      (an `Invalid Date`, against which every comparison is false). */
  function TimeOf(o: Object): Option<int> {
    match Get(o, "timestamp")
    case Some(Num(ms)) => Some(ms)
    case _ => None
  }

  /** The sort key of `(a, b) => new Date(b.timestamp) - new Date(a.timestamp)`. */
  function Millis(o: Object): int {
    TimeOf(o).GetOr(0)
  }

  /** A reading of `userId` taken at or after `start`. */
  function InWindow(userId: Value, start: int): Object -> bool {
    (r: Object) => FieldIs("userId", userId)(r) && TimeOf(r).Some? && TimeOf(r).value >= start
  }

  /** `!a.is_read`. */
  function IsUnread(): Object -> bool {
    (a: Object) => !Truthy(Get(a, "is_read"))
  }

  // ---------------------------------------------------------------------------
  // Health-alert rules

  /** `{ userId: reading.userId, ...rest }` (an undefined `userId` is left out). */
  function AlertFor(reading: Object, kind: string, message: string, priority: string): (a: Object)
    ensures Get(a, "userId") == Get(reading, "userId")
    ensures Has(a, "type", Str(kind)) && Has(a, "priority", Str(priority))
  {
    var user: Object := if "userId" in reading then map["userId" := reading["userId"]] else map[];
    user + map["type" := Str(kind), "message" := Str(message), "priority" := Str(priority)]
  }

  const HEART_RATE_MESSAGE: string := "Ritmo cardíaco elevado detectado"
  const BATTERY_MESSAGE: string := "Batería baja en dispositivo"

  function HeartRateAlert(reading: Object): Object {
    AlertFor(reading, "heart_rate", HEART_RATE_MESSAGE, "high")
  }

  function BatteryAlert(reading: Object): Object {
    AlertFor(reading, "battery", BATTERY_MESSAGE, "medium")
  }

  /** The heart-rate rule: an alert when `reading.heart_rate > 100`. */
  function HeartRateRule(reading: Object): seq<Object> {
    if GreaterThan(reading, "heart_rate", HEART_RATE_LIMIT) then [HeartRateAlert(reading)] else []
  }

  /** The battery rule: an alert when `reading.battery_level < 20`. */
  function BatteryRule(reading: Object): seq<Object> {
    if LessThan(reading, "battery_level", BATTERY_LIMIT) then [BatteryAlert(reading)] else []
  }

  /** The alert payloads `checkHealthAlerts` raises for `reading`, in order. */
  function HealthAlertRequests(reading: Object): (r: seq<Object>)
    ensures |r| <= 2
  {
    HeartRateRule(reading) + BatteryRule(reading)
  }

  /** Some raised alert has type `kind` and priority `priority`. */
  ghost predicate Raises(reqs: seq<Object>, kind: string, priority: string) {
    exists k :: 0 <= k < |reqs| && Has(reqs[k], "type", Str(kind)) && Has(reqs[k], "priority", Str(priority))
  }

  /** A high `heart_rate` alert is raised exactly when the heart rate exceeds 100, and a
      medium `battery` alert exactly when the battery level is below 20; every alert
      carries the reading's `userId`. */
  lemma HealthAlertRules(reading: Object)
    ensures Raises(HealthAlertRequests(reading), "heart_rate", "high") <==> GreaterThan(reading, "heart_rate", HEART_RATE_LIMIT)
    ensures Raises(HealthAlertRequests(reading), "battery", "medium") <==> LessThan(reading, "battery_level", BATTERY_LIMIT)
    ensures forall k :: 0 <= k < |HealthAlertRequests(reading)| ==> Get(HealthAlertRequests(reading)[k], "userId") == Get(reading, "userId")
  {
    var reqs := HealthAlertRequests(reading);
    if GreaterThan(reading, "heart_rate", HEART_RATE_LIMIT) {
      assert Has(reqs[0], "type", Str("heart_rate"));
    }
    if LessThan(reading, "battery_level", BATTERY_LIMIT) {
      assert Has(reqs[|reqs| - 1], "type", Str("battery"));
    }
    if Raises(reqs, "heart_rate", "high") {
      var k :| 0 <= k < |reqs| && Has(reqs[k], "type", Str("heart_rate")) && Has(reqs[k], "priority", Str("high"));
    }
    if Raises(reqs, "battery", "medium") {
      var k :| 0 <= k < |reqs| && Has(reqs[k], "type", Str("battery")) && Has(reqs[k], "priority", Str("medium"));
    }
  }

  /** The thresholds are strict: a heart rate of exactly 100 and a battery level of
      exactly 20 raise nothing. */
  lemma HealthAlertBoundaries(reading: Object)
    requires Get(reading, "heart_rate") == Some(Num(HEART_RATE_LIMIT))
    requires Get(reading, "battery_level") == Some(Num(BATTERY_LIMIT))
    ensures HealthAlertRequests(reading) == []
  {
  }

  /** The alerts `createAlert` stores for `reqs`, raised one after another on top of `n`
      existing alerts. */
  function NewAlerts(n: nat, reqs: seq<Object>, now: int): seq<Object> {
    Numbered(n, reqs, AlertMaker(now))
  }

  function AlertMaker(now: int): (nat, Object) -> Object {
    (k: nat, alert: Object) => NewAlert(k, alert, now)
  }

  /** One record per request, the `k`-th that of the `k`-th request, numbered `n + k + 1`. */
  lemma NewAlertsIndex(n: nat, reqs: seq<Object>, now: int, k: nat)
    requires k < |reqs|
    ensures |NewAlerts(n, reqs, now)| == |reqs|
    ensures NewAlerts(n, reqs, now)[k] == NewAlert(n + k, reqs[k], now)
  {
    NumberedIndex(n, reqs, AlertMaker(now), k);
  }

  /** Raising one more alert after `reqs` adds its record, numbered after theirs. */
  lemma NewAlertsSnoc(n: nat, reqs: seq<Object>, x: Object, now: int)
    ensures NewAlerts(n, reqs + [x], now) == NewAlerts(n, reqs, now) + [NewAlert(n + |reqs|, x, now)]
  {
    NumberedSnoc(n, reqs, x, AlertMaker(now));
  }

  /** A high heart rate raises one alert, numbered after the `n` there are. */
  lemma HeartRateRaised(n: nat, reading: Object, now: int)
    requires GreaterThan(reading, "heart_rate", HEART_RATE_LIMIT)
    ensures NewAlerts(n, HeartRateRule(reading), now) == [NewAlert(n, HeartRateAlert(reading), now)]
  {
    NewAlertsSnoc(n, [], HeartRateAlert(reading), now);
    assert [] + [HeartRateAlert(reading)] == HeartRateRule(reading);
  }

  /** Otherwise it raises none. */
  lemma HeartRateFine(n: nat, reading: Object, now: int)
    requires !GreaterThan(reading, "heart_rate", HEART_RATE_LIMIT)
    ensures NewAlerts(n, HeartRateRule(reading), now) == []
  {
  }

  /** With a low battery, the alerts raised on top of `n` alerts are those of the
      heart-rate rule followed by the battery alert. */
  lemma HealthAlertsLowBattery(n: nat, reading: Object, now: int)
    requires LessThan(reading, "battery_level", BATTERY_LIMIT)
    ensures NewAlerts(n, HealthAlertRequests(reading), now)
      == NewAlerts(n, HeartRateRule(reading), now) + [NewAlert(n + |HeartRateRule(reading)|, BatteryAlert(reading), now)]
  {
    BatteryRuleLow(reading);
    NewAlertsSnoc(n, HeartRateRule(reading), BatteryAlert(reading), now);
  }

  lemma BatteryRuleLow(reading: Object)
    requires LessThan(reading, "battery_level", BATTERY_LIMIT)
    ensures HealthAlertRequests(reading) == HeartRateRule(reading) + [BatteryAlert(reading)]
  {
  }

  /** Otherwise they are those of the heart-rate rule alone. */
  lemma HealthAlertsBatteryFine(n: nat, reading: Object, now: int)
    requires !LessThan(reading, "battery_level", BATTERY_LIMIT)
    ensures NewAlerts(n, HealthAlertRequests(reading), now) == NewAlerts(n, HeartRateRule(reading), now)
  {
    assert HealthAlertRequests(reading) == HeartRateRule(reading);
  }

  // ---------------------------------------------------------------------------
  // Statistics

  datatype Stats = Stats(totalSteps: Option<int>, activeMinutes: nat)

  /** `sum + r.steps`, with JavaScript's conversion of a `null` or boolean step count to
      0 or 1; `None` stands for a sum that is not a number (`NaN`, or the text that `+`
      makes of a string, an array or an object). */
  function AddSteps(sum: Option<int>, r: Object): Option<int> {
    match (sum, ToNumber(Get(r, "steps")))
    case (Some(total), Some(n)) => Some(total + n)
    case _ => None
  }

  /** What `+` makes of a step count: a number is added, `null` and `false` add 0, `true`
      adds 1, and a missing count makes the sum `NaN`, which stays `NaN`. */
  lemma AddStepsConverts(total: int, r: Object)
    ensures Get(r, "steps").Some? && Get(r, "steps").value.Num? ==>
      AddSteps(Some(total), r) == Some(total + Get(r, "steps").value.n)
    ensures Get(r, "steps") == Some(Null) || Get(r, "steps") == Some(Bool(false)) ==>
      AddSteps(Some(total), r) == Some(total)
    ensures Get(r, "steps") == Some(Bool(true)) ==> AddSteps(Some(total), r) == Some(total + 1)
    ensures Get(r, "steps").None? ==> AddSteps(Some(total), r).None?
    ensures AddSteps(None, r).None?
  {
  }

  /** `readings.reduce((sum, r) => sum + r.steps, 0)`, folding from the left. */
  function TotalSteps(readings: seq<Object>): Option<int> {
    if readings == [] then Some(0) else AddSteps(TotalSteps(readings[..|readings| - 1]), readings[|readings| - 1])
  }

  /** The same sum, gathered from the right; the order of the readings does not matter. */
  function StepsSum(readings: seq<Object>): Option<int> {
    if readings == [] then Some(0) else AddSteps(StepsSum(readings[1..]), readings[0])
  }

  lemma AddStepsCommute(sum: Option<int>, a: Object, b: Object)
    ensures AddSteps(AddSteps(sum, a), b) == AddSteps(AddSteps(sum, b), a)
  {
  }

  lemma {:induction false} StepsSumSnoc(readings: seq<Object>, r: Object)
    ensures StepsSum(readings + [r]) == AddSteps(StepsSum(readings), r)
  {
    if readings == [] {
      assert readings + [r] == [r];
    } else {
      assert (readings + [r])[1..] == readings[1..] + [r];
      StepsSumSnoc(readings[1..], r);
      AddStepsCommute(StepsSum(readings[1..]), r, readings[0]);
    }
  }

  /** Folding from the left and from the right agree. */
  lemma {:induction false} TotalStepsIsStepsSum(readings: seq<Object>)
    ensures TotalSteps(readings) == StepsSum(readings)
  {
    if readings != [] {
      var front, last := readings[..|readings| - 1], readings[|readings| - 1];
      TotalStepsIsStepsSum(front);
      assert readings == front + [last];
      StepsSumSnoc(front, last);
    }
  }

  lemma {:induction false} StepsSumInsert(x: Object, s: seq<Object>, key: Object -> int)
    ensures StepsSum(InsertDesc(x, s, key)) == AddSteps(StepsSum(s), x)
    decreases |s|
  {
    if s == [] || key(s[0]) <= key(x) {
      assert ([x] + s)[1..] == s;
    } else {
      var rest := InsertDesc(x, s[1..], key);
      assert InsertDesc(x, s, key) == [s[0]] + rest;
      assert ([s[0]] + rest)[1..] == rest;
      StepsSumInsert(x, s[1..], key);
      AddStepsCommute(StepsSum(s[1..]), x, s[0]);
    }
  }

  /** Sorting the readings does not change their step total. */
  lemma {:induction false} StepsSumSorted(s: seq<Object>, key: Object -> int)
    ensures StepsSum(SortDescBy(s, key)) == StepsSum(s)
  {
    if s != [] {
      StepsSumSorted(s[1..], key);
      StepsSumInsert(s[0], SortDescBy(s[1..], key), key);
    }
  }

  /** `r.activity_level !== 'Inactive'`. */
  function IsActive(): Object -> bool {
    (r: Object) => Get(r, "activity_level") != Some(Str("Inactive"))
  }

  // ---------------------------------------------------------------------------
  // The service

  class DatabaseService {
    var users: seq<Object>
    var medicalHistory: seq<Object>
    var devices: seq<Object>
    var alerts: seq<Object>
    var healthReadings: seq<Object>
    var emergencyContacts: seq<Object>
    var initialized: bool

    /** Every field at once, to say what an operation leaves alone. */
    function Snapshot(): Tables
      reads this
    {
      Tables(users, medicalHistory, devices, alerts, healthReadings, emergencyContacts, initialized)
    }

    /** Empty tables, not initialised. */
    constructor()
      ensures Snapshot() == Tables([], [], [], [], [], [], false)
    {
      users, medicalHistory, devices, alerts, healthReadings, emergencyContacts := [], [], [], [], [], [];
      initialized := false;
    }

    /** `init`: installs the demo records once; later calls do nothing. */
    method Init(mock: MockData)
      modifies this
      ensures old(initialized) ==> Snapshot() == old(Snapshot())
      ensures !old(initialized) ==>
        Snapshot() == Tables(mock.users, old(medicalHistory), mock.devices, mock.alerts,
                             mock.healthReadings, mock.emergencyContacts, true)
    {
      if initialized {
        return;
      }
      users := mock.users;
      devices := mock.devices;
      healthReadings := mock.healthReadings;
      alerts := mock.alerts;
      emergencyContacts := mock.emergencyContacts;
      initialized := true;
    }

    /** `createUser`: appends one user numbered after the existing ones. */
    method CreateUser(userData: Object, now: int) returns (user: Object)
      modifies this
      ensures user == NewUser(|old(users)|, userData, now)
      ensures users == old(users) + [user]
      ensures Snapshot() == old(Snapshot()).(users := users)
    {
      user := NewUser(|users|, userData, now);
      users := users + [user];
    }

    /** `getUserProfile`: the first user with that id. */
    function GetUserProfile(userId: Value): (r: Option<Object>)
      reads this
      ensures r.None? <==> forall k :: 0 <= k < |users| ==> !FieldIs("id", userId)(users[k])
      ensures r.Some? ==> r.value in users && Has(r.value, "id", userId)
      ensures r.Some? ==> r.value == users[FindIndex(users, "id", userId)]
    {
      Find(users, "id", userId)
    }

    /** `updateUserProfile`: merges `userData` into the first user with that id, or
        returns `null` and changes nothing when there is none. */
    method UpdateUserProfile(userId: Value, userData: Object) returns (r: Option<Object>)
      modifies this
      ensures var i := FindIndex(old(users), "id", userId);
        && (i == -1 ==> r.None? && users == old(users))
        && (i >= 0 ==> r == Some(Spread(old(users)[i], userData))
                       && users == old(users)[i := Spread(old(users)[i], userData)])
      ensures Snapshot() == old(Snapshot()).(users := users)
    {
      var index := FindIndex(users, "id", userId);
      if index != -1 {
        users := users[index := Spread(users[index], userData)];
        return Some(users[index]);
      }
      return None;
    }

    /** `saveHealthReading`: puts the new reading in front, then applies the health-alert
        rules to it. */
    method SaveHealthReading(reading: Object, now: int) returns (newReading: Object)
      modifies this
      ensures newReading == NewReading(|old(healthReadings)|, reading, now)
      ensures healthReadings == [newReading] + old(healthReadings)
      ensures alerts == Reverse(NewAlerts(|old(alerts)|, HealthAlertRequests(newReading), now)) + old(alerts)
      ensures Snapshot() == old(Snapshot()).(healthReadings := healthReadings, alerts := alerts)
    {
      newReading := NewReading(|healthReadings|, reading, now);
      healthReadings := [newReading] + healthReadings;
      var _ := CheckHealthAlerts(newReading, now);
    }

    /** `getHealthReadings`: the readings of `userId` from the last `days` days, newest
        first (a day is taken as 24 hours). */
    function GetHealthReadings(userId: Value, days: int, now: int): (r: seq<Object>)
      reads this
      ensures SortedDesc(r, Millis)
      ensures multiset(r) == multiset(Filter(healthReadings, InWindow(userId, now - days * DAY_MS)))
    {
      SortDescBy(Filter(healthReadings, InWindow(userId, now - days * DAY_MS)), Millis)
    }

    /** `createAlert`: puts the new alert, unread and numbered after the existing ones, in front. */
    method CreateAlert(alert: Object, now: int) returns (newAlert: Object)
      modifies this
      ensures newAlert == NewAlert(|old(alerts)|, alert, now)
      ensures alerts == [newAlert] + old(alerts)
      ensures Snapshot() == old(Snapshot()).(alerts := alerts)
    {
      newAlert := NewAlert(|alerts|, alert, now);
      alerts := [newAlert] + alerts;
    }

    /** `getAllAlerts`: the alerts of `userId`, newest first. */
    function GetAllAlerts(userId: Value): (r: seq<Object>)
      reads this
      ensures SortedDesc(r, Millis)
      ensures multiset(r) == multiset(Filter(alerts, FieldIs("userId", userId)))
    {
      SortDescBy(Filter(alerts, FieldIs("userId", userId)), Millis)
    }

    /** `getUnreadAlerts`: the unread alerts of `userId`, newest first. */
    function GetUnreadAlerts(userId: Value): (r: seq<Object>)
      reads this
      ensures SortedDesc(r, Millis)
      ensures multiset(r) == multiset(Filter(alerts, Both(FieldIs("userId", userId), IsUnread())))
    {
      SortDescBy(Filter(alerts, Both(FieldIs("userId", userId), IsUnread())), Millis)
    }

    /** `getAlertsByPriority`: the alerts of `userId` with that priority, newest first. */
    function GetAlertsByPriority(userId: Value, priority: Value): (r: seq<Object>)
      reads this
      ensures SortedDesc(r, Millis)
      ensures multiset(r) == multiset(Filter(alerts, Both(FieldIs("userId", userId), FieldIs("priority", priority))))
    {
      SortDescBy(Filter(alerts, Both(FieldIs("userId", userId), FieldIs("priority", priority))), Millis)
    }

    /** An alert is unread for `userId` exactly when it is one of theirs and not read,
        and the unread alerts are among all of theirs. */
    lemma UnreadAlertsWithinAll(userId: Value, a: Object)
      ensures a in GetUnreadAlerts(userId) <==> a in alerts && FieldIs("userId", userId)(a) && IsUnread()(a)
      ensures multiset(GetUnreadAlerts(userId)) <= multiset(GetAllAlerts(userId))
    {
      var mine := FieldIs("userId", userId);
      var unread := Both(mine, IsUnread());
      assert a in GetUnreadAlerts(userId) <==> a in multiset(Filter(alerts, unread));
      FilterMembers(alerts, unread, a);
      FilterMonotone(alerts, unread, mine);
    }

    /** `markAlertAsRead`: marks the first alert with that id as read; reports whether
        there was one. */
    method MarkAlertAsRead(alertId: Value) returns (found: bool)
      modifies this
      ensures found <==> exists k :: 0 <= k < |old(alerts)| && FieldIs("id", alertId)(old(alerts)[k])
      ensures var i := FindIndex(old(alerts), "id", alertId);
        && (i == -1 ==> alerts == old(alerts))
        && (i >= 0 ==> alerts == old(alerts)[i := old(alerts)[i]["is_read" := Bool(true)]])
      ensures Snapshot() == old(Snapshot()).(alerts := alerts)
    {
      var i := FindIndex(alerts, "id", alertId);
      if i != -1 {
        alerts := alerts[i := alerts[i]["is_read" := Bool(true)]];
        return true;
      }
      return false;
    }

    /** `getUserDevices`. */
    function GetUserDevices(userId: Value): (r: seq<Object>)
      reads this
      ensures forall d :: d in r <==> d in devices && FieldIs("userId", userId)(d)
    {
      var r := Filter(devices, FieldIs("userId", userId));
      assert forall d :: d in r <==> d in devices && FieldIs("userId", userId)(d) by {
        forall d { FilterMembers(devices, FieldIs("userId", userId), d); }
      }
      r
    }

    /** `updateDeviceStatus`: merges `status` and a fresh `lastSync` into the first device
        with that id, or returns `null` when there is none. */
    method UpdateDeviceStatus(deviceId: Value, status: Object, now: int) returns (r: Option<Object>)
      modifies this
      ensures var i := FindIndex(old(devices), "id", deviceId);
        && (i == -1 ==> r.None? && devices == old(devices))
        && (i >= 0 ==> var updated := Spread(Spread(old(devices)[i], status), map["lastSync" := Num(now)]);
                       r == Some(updated) && devices == old(devices)[i := updated])
      ensures Snapshot() == old(Snapshot()).(devices := devices)
    {
      var i := FindIndex(devices, "id", deviceId);
      if i != -1 {
        devices := devices[i := Spread(Spread(devices[i], status), map["lastSync" := Num(now)])];
        return Some(devices[i]);
      }
      return None;
    }

    /** `getEmergencyContacts`. */
    function GetEmergencyContacts(userId: Value): (r: seq<Object>)
      reads this
      ensures forall c :: c in r <==> c in emergencyContacts && FieldIs("userId", userId)(c)
    {
      var r := Filter(emergencyContacts, FieldIs("userId", userId));
      assert forall c :: c in r <==> c in emergencyContacts && FieldIs("userId", userId)(c) by {
        forall c { FilterMembers(emergencyContacts, FieldIs("userId", userId), c); }
      }
      r
    }

    /** `addEmergencyContact`: appends one contact numbered after the existing ones. */
    method AddEmergencyContact(contact: Object) returns (newContact: Object)
      modifies this
      ensures newContact == WithId(|old(emergencyContacts)| + 1, contact)
      ensures emergencyContacts == old(emergencyContacts) + [newContact]
      ensures Snapshot() == old(Snapshot()).(emergencyContacts := emergencyContacts)
    {
      newContact := WithId(|emergencyContacts| + 1, contact);
      emergencyContacts := emergencyContacts + [newContact];
    }

    /** `checkHealthAlerts`: raises the alerts of the rules, each through `createAlert`,
        and returns them in the order raised. */
    method CheckHealthAlerts(reading: Object, now: int) returns (created: seq<Object>)
      modifies this
      ensures created == NewAlerts(|old(alerts)|, HealthAlertRequests(reading), now)
      ensures alerts == Reverse(created) + old(alerts)
      ensures Snapshot() == old(Snapshot()).(alerts := alerts)
    {
      ghost var n, heart := |old(alerts)|, HeartRateRule(reading);
      created := [];
      assert alerts == Reverse(created) + old(alerts);
      if GreaterThan(reading, "heart_rate", HEART_RATE_LIMIT) {
        HeartRateRaised(n, reading, now);
        created := RaiseAlert(HeartRateAlert(reading), now, created, old(alerts), n);
      } else {
        HeartRateFine(n, reading, now);
      }
      NumberedLength(n, heart, AlertMaker(now));
      if LessThan(reading, "battery_level", BATTERY_LIMIT) {
        HealthAlertsLowBattery(n, reading, now);
        created := RaiseAlert(BatteryAlert(reading), now, created, old(alerts), n + |heart|);
      } else {
        HealthAlertsBatteryFine(n, reading, now);
      }
    }

    /** `createAlert` on behalf of `checkHealthAlerts`, which keeps the alerts it made
        (`created`, oldest first) in front of the alerts it found (`before`). */
    method RaiseAlert(alert: Object, now: int, created: seq<Object>, ghost before: seq<Object>, ghost count: nat)
      returns (more: seq<Object>)
      modifies this
      requires alerts == Reverse(created) + before
      requires count == |before| + |created|
      ensures more == created + [NewAlert(count, alert, now)]
      ensures alerts == Reverse(more) + before
      ensures Snapshot() == old(Snapshot()).(alerts := alerts)
    {
      var a := CreateAlert(alert, now);
      PushFront(created, a, before);
      more := created + [a];
    }

    /** `getUserStats` without the floating-point `calories` and `distance`: the step
        total and 15 minutes per active reading over the last day. */
    function GetUserStats(userId: Value, now: int): (s: Stats)
      reads this
      ensures s.activeMinutes % ACTIVE_MINUTES_PER_READING == 0
      ensures s.activeMinutes <= ACTIVE_MINUTES_PER_READING * |GetHealthReadings(userId, 1, now)|
    {
      var readings := GetHealthReadings(userId, 1, now);
      var active := |Filter(readings, IsActive())|;
      Stats(TotalSteps(readings), active * ACTIVE_MINUTES_PER_READING)
    }

    /** The statistics do not depend on the order of the readings: they are the step
        total and the active count of the user's readings of the last day, as stored. */
    lemma UserStatsOfWindow(userId: Value, now: int)
      ensures var window := Filter(healthReadings, InWindow(userId, now - DAY_MS));
        GetUserStats(userId, now) == Stats(StepsSum(window), |Filter(window, IsActive())| * ACTIVE_MINUTES_PER_READING)
    {
      var window := Filter(healthReadings, InWindow(userId, now - DAY_MS));
      var sorted := SortDescBy(window, Millis);
      TotalStepsIsStepsSum(sorted);
      StepsSumSorted(window, Millis);
      SortDescByFilter(window, Millis, IsActive());
      assert |multiset(Filter(sorted, IsActive()))| == |multiset(Filter(window, IsActive()))|;
    }
  }
}
