# Incident reporting app: the verified core

This project models the parts of the incident-reporting app that hold sequential logic, and proves properties about them:

- **Danger-zone clustering** (`calculateDangerZones` in `src/utils/mapUtils.ts`). Module `MapUtils`. Incidents are visited newest first. Each one not yet absorbed seeds a zone made of every still-unabsorbed incident within 1000 m. The zone gets a centre, a clamped radius, a risk tier and the id `zone-n`.
- **Contribution points and the route parser** of `AIService` (`src/services/AIService.js`). Module `AIService`.
- **The in-memory health and alert store** `DatabaseService` (`database/db-service.js`). Module `DbService`, with the class `DatabaseService` whose `seq` fields are the tables.
- **The SQL statement builders** (`src/database/dbUtils.ts`). Module `DbUtils`.
- **The React context providers**, one module each:
  - `NotificationContext` (`src/context/NotificationContext.tsx`);
  - `MapContextJs` (`src/context/MapContext.js`);
  - `MapContextTs` (`src/context/MapContext.tsx`);
  - `ReportContext` (`src/context/ReportContext.tsx`);
  - `SettingsContext` (`src/context/SettingsContext.tsx`).

  A provider whose callbacks replace several state fields in sequence is a class whose methods state their whole new state. A provider whose callbacks only map an old list to a new one is a set of functions from old list to new.

Shared modules:

- `Json`: JavaScript values and plain objects, with object spread as map union, truthiness and the number conversion of `<` and `>`.
- `Text`: `split`, `join`, `trim`, `includes` and decimal number text.
- `Seqs`: filters, a stable descending sort, reversal and numbering.
- `Wrappers`: `Option` and `Outcome`.

The distance between positions is a function parameter. Only two laws are assumed of it: a point is at distance 0 from itself, and no distance is negative (`MapUtils.DistanceLaws`). Clock readings are parameters named `now`, in milliseconds. In `DatabaseService` an ISO timestamp written by `toISOString` is kept as its millisecond value. `ReportContext` reads the clock twice, for the id and for the ISO `timestamp` text; that text is the separate parameter `isoNow`. Storage reads and writes, and `JSON.parse`, are parameters that say what they returned or whether they succeeded.

Two consequences of the clustering code's constants are worth knowing:

- Three incidents around one seed form a `medium` zone, because `getZoneType` gives `medium` from 3 members on (`MapUtils.GetZoneType`).
- The `>= 1` gate in the clustering loop never rejects a seed, because a seed is at distance 0 from itself (`MapUtils.GateAlwaysPasses`). So a non-empty input always gives at least one zone (`MapUtils.NonEmptyInputGivesZones`).

## Model

| member | source | states |
|---|---|---|
| MapUtils.GetZoneType | src/utils/mapUtils.ts:36-40 | `high` exactly when the count is at least 5, `medium` exactly for 3 or 4, `low` exactly below 3 |
| MapUtils.RecentCount | src/utils/mapUtils.ts:48-51 | the number of members younger than 24 hours never exceeds the number of members |
| MapUtils.RecentCountAll | src/utils/mapUtils.ts:48-51 | the recent count equals the member count exactly when every member is younger than 24 hours |
| MapUtils.MaxDistance | src/utils/mapUtils.ts:97-99 | the result is at least every member's distance from the centre and equal to one of them |
| MapUtils.ZoneRadius | src/utils/mapUtils.ts:95-102 | the radius always lies in [100, 1000]; it is the farthest distance plus 50 when that is within the bounds, 1000 above them and 100 below them (the floor is applied at line 110) |
| MapUtils.MakeZone | src/utils/mapUtils.ts:104-114 | a zone gets the id `zone-` and its number, the member count as `reports` (at least 1), the tier of that count, a radius within [100, 1000] and the members' average position as centre |
| MapUtils.ZonesOfAt | src/utils/mapUtils.ts:107-108 | zone k is built from the k-th group formed and is numbered k + 1 |
| MapUtils.SkipSeed | src/utils/mapUtils.ts:73 | an incident already absorbed, or one whose neighbourhood misses the gate, leaves the loop state as it is |
| MapUtils.TakeSeed | src/utils/mapUtils.ts:87-117 | a seed whose neighbourhood passes the gate appends that group and its zone, numbered after the existing zones, and adds the members' ids to the processed set |
| MapUtils.Absorb | src/utils/mapUtils.ts:117 | adding the members one at a time leaves the processed set equal to the old set plus all the members' ids |
| MapUtils.VisitSeed | src/utils/mapUtils.ts:72-118 | one loop turn moves the loop state from seed i to seed i + 1: the zones so far and the zones still to come are always all the zones |
| MapUtils.CalculateDangerZones | src/utils/mapUtils.ts:63-122 | the loop over the newest-first copy returns the zones of the recursive definition `DangerZones`: no zones for no input, otherwise one zone per group formed, in order |
| Seqs.SortDescBy | src/utils/mapUtils.ts:70 | the sorted copy is in descending timestamp order and is a permutation of the input |
| Seqs.SortDescByStable | src/utils/mapUtils.ts:70 | incidents with equal timestamps keep their input order, as `Array.prototype.sort` does |
| MapUtils.DangerZoneFields | src/utils/mapUtils.ts:63-114 | no input gives no zones; zone k is called `zone-(k+1)`, has at least one report, carries the tier of its report count and a radius within [100, 1000] |
| MapUtils.ZoneIdsDistinct | src/utils/mapUtils.ts:108 | no two zones share an id |
| MapUtils.NearbyMembers | src/utils/mapUtils.ts:76-85 | an incident is in a seed's neighbourhood exactly when it is in the input, not processed, and within 1000 m of the seed |
| MapUtils.GateAlwaysPasses | src/utils/mapUtils.ts:76-87 | an unprocessed seed from the input is in its own neighbourhood, so the `>= 1` gate always passes |
| MapUtils.NonEmptyInputGivesZones | src/utils/mapUtils.ts:72-87 | a non-empty input always gives at least one zone |
| MapUtils.GroupsWithinUnprocessed | src/utils/mapUtils.ts:72-118 | whatever the distance and the ids, the groups formed take each unprocessed incident at most once (as a multiset they lie within the unprocessed incidents) |
| MapUtils.ZonesNeverOvercount | src/utils/mapUtils.ts:72-118 | no incident is counted in more zones than it occurs in the input |
| MapUtils.GroupsCoverUnprocessed | src/utils/mapUtils.ts:72-118 | when ids identify incidents, the groups take every unprocessed incident exactly once |
| MapUtils.ZonesPartition | src/utils/mapUtils.ts:63-122 | when ids identify incidents, the zones' members are exactly the input incidents, each in one zone |
| MapUtils.TotalReportsOfZones | src/utils/mapUtils.ts:107-114 | the zones' `reports` add up to the number of members of the groups |
| MapUtils.ReportsAtMostIncidents | src/utils/mapUtils.ts:63-122 | for any distance and any ids, the sum of `reports` never exceeds the number of incidents |
| MapUtils.ReportsCountIncidents | src/utils/mapUtils.ts:63-122 | when ids identify incidents, the sum of `reports` equals the number of incidents |
| MapUtils.SingleCenter | src/utils/mapUtils.ts:89-92 | the centre of a single incident is its position |
| MapUtils.SingleIncidentZone | src/utils/mapUtils.ts:63-122 | one incident gives exactly one zone, `zone-1`, of tier `low` with one report, centred on it, with radius 100 |
| AIService.ContributionPoints | src/services/AIService.js:144-165 | a contribution earns 15 exactly when it is a verified report, 13 exactly when it is a used route, 10 for an unverified report, 8 for an unused route, 5 for a verification, 3 for a helpful chat and 0 otherwise; never the `consecutive` 2 |
| AIService.ContributionByKind | src/services/AIService.js:135-165 | one contribution's points are the table's amounts times the kinds it has |
| AIService.PointsByKind | src/services/AIService.js:135-166 | the total is 10 per report, 5 more per verified report, 5 per verification, 3 per helpful chat, 8 per route and 5 more per used route |
| AIService.PointsAdditive | src/services/AIService.js:143-166 | the points of a concatenation are the sum of both parts' points |
| AIService.PointsMonotone | src/services/AIService.js:143-166 | recording one more contribution adds its points and never lowers the total |
| AIService.CalculateUserPoints | src/services/AIService.js:131-169 | the loop returns the total of the recursive definition `Points`; no contributions give 0 |
| AIService.PendingHeader | src/services/AIService.js:85-94 | reading a header line closes the open route, if there is one, and opens a new route named by the line with no steps |
| AIService.PendingBody | src/services/AIService.js:95-97 | reading any other line appends it, trimmed, to the open route when there is one and the line is not blank, and otherwise changes nothing |
| AIService.PendingDone | src/services/AIService.js:100-102 | at the end the open route, if any, is the last route |
| AIService.ProcessAIResponse | src/services/AIService.js:77-105 | the loop returns the routes of the recursive definition `RoutesOf`; their names are exactly the header lines in order; every route has empty `estimatedTime` and `trafficLevel` and trimmed, non-blank steps |
| AIService.RouteNames | src/services/AIService.js:84-94 | one route per line containing `Ruta alternativa`, in line order, named by that line unchanged |
| AIService.NoHeaderNoRoutes | src/services/AIService.js:80-104 | the reply yields no routes exactly when none of its lines is a header |
| AIService.LeadingLinesDropped | src/services/AIService.js:83-97 | lines ahead of the first header contribute nothing |
| AIService.StepsOfGood | src/services/AIService.js:95-96 | every step is non-empty and already trimmed, and there are at most as many steps as body lines |
| AIService.RouteFields | src/services/AIService.js:89-97 | every route has empty `estimatedTime` and `trafficLevel`, a header line as its name, and trimmed, non-blank steps |
| Text.Split | src/services/AIService.js:81 | `split('\n')` gives at least one piece and no piece contains a line break |
| Text.JoinSplit | src/services/AIService.js:81 | joining the pieces with the separator gives back the reply |
| Text.Trim | src/services/AIService.js:95 | `trim()` yields the text between the leading and the trailing white space, neither end being white space |
| Text.TrimIdempotent | src/services/AIService.js:96 | trimming a trimmed line changes nothing |
| Json.ToNumber | database/db-service.js:213 | the relational operators compare a number as itself, `null` and `false` as 0, `true` as 1 and `undefined` as `NaN` |
| Json.SpreadFields | database/db-service.js:115 | an object spread has the keys of both objects, the later object's values winning |
| Json.SpreadIdempotent | database/db-service.js:115 | spreading the same properties twice is spreading them once |
| Json.SpreadAssociative | database/db-service.js:115 | spreading `b` and then `c` is spreading `b` overridden by `c` |
| DbService.DatabaseService.constructor | database/db-service.js:2-10 | all tables empty, not initialised |
| DbService.DatabaseService.Init | database/db-service.js:12-95 | a second call changes nothing; the first installs the demo tables and sets `initialized` |
| DbService.Stamped | database/db-service.js:99-103 | the stored record has the argument's properties; the generated id yields to the argument's own `id`; the timestamp overrides the argument |
| DbService.DatabaseService.CreateUser | database/db-service.js:98-106 | exactly one user is appended, numbered `length + 1`; the other users and the other tables are unchanged |
| DbService.FindIndex | database/db-service.js:113 | -1 exactly when no record matches, otherwise the first matching position |
| DbService.Find | database/db-service.js:109 | no result exactly when no record matches, otherwise the first match |
| DbService.DatabaseService.GetUserProfile | database/db-service.js:108-110 | the result is absent exactly when no user has the id, and is otherwise the first user with that id |
| DbService.DatabaseService.UpdateUserProfile | database/db-service.js:112-119 | with no user of that id it returns `null` and changes nothing; otherwise only that first user changes, to itself overridden by the supplied fields |
| DbService.DatabaseService.SaveHealthReading | database/db-service.js:122-131 | the new reading, numbered `length + 1`, goes in front, and the alerts of the health rules go in front of the old alerts |
| DbService.DatabaseService.GetHealthReadings | database/db-service.js:133-139 | the result is newest first and a permutation of the user's readings taken in the window |
| DbService.DatabaseService.CreateAlert | database/db-service.js:142-151 | the new alert goes at index 0, numbered `length + 1`; nothing else changes |
| DbService.NewAlertFields | database/db-service.js:143-148 | the stored alert is unread and stamped `now` whatever the argument says, keeps the argument's other properties, and takes the generated id only when the argument has none |
| DbService.DatabaseService.GetAllAlerts | database/db-service.js:153-157 | newest first, a permutation of the user's alerts |
| DbService.DatabaseService.GetUnreadAlerts | database/db-service.js:159-163 | newest first, a permutation of the user's unread alerts |
| DbService.DatabaseService.GetAlertsByPriority | database/db-service.js:165-169 | newest first, a permutation of the user's alerts of that priority |
| DbService.DatabaseService.UnreadAlertsWithinAll | database/db-service.js:153-163 | an alert is among the unread ones exactly when it belongs to the user and is not read, and the unread alerts are among all of the user's alerts |
| DbService.DatabaseService.MarkAlertAsRead | database/db-service.js:171-178 | returns true exactly when some alert has the id; then only the first such alert changes, to read; otherwise nothing changes |
| DbService.DatabaseService.GetUserDevices | database/db-service.js:181-183 | a device is listed exactly when it belongs to the user |
| DbService.DatabaseService.UpdateDeviceStatus | database/db-service.js:185-192 | with no device of that id it returns `null` and changes nothing; otherwise only the first such device takes the status and a fresh `lastSync` |
| DbService.DatabaseService.GetEmergencyContacts | database/db-service.js:195-197 | a contact is listed exactly when it belongs to the user |
| DbService.DatabaseService.AddEmergencyContact | database/db-service.js:199-206 | exactly one contact is appended, numbered `length + 1`; nothing else changes |
| DbService.AlertFor | database/db-service.js:214-229 | an alert payload carries the reading's `userId`, its type and its priority |
| DbService.HealthAlertRequests | database/db-service.js:209-233 | a reading raises at most two alerts |
| DbService.HealthAlertRules | database/db-service.js:213-230 | a high `heart_rate` alert is raised exactly when the heart rate exceeds 100; a medium `battery` alert exactly when the battery level is below 20; each carries the reading's user |
| DbService.HealthAlertBoundaries | database/db-service.js:213-223 | a heart rate of exactly 100 with a battery of exactly 20 raises nothing |
| DbService.NewAlertsIndex | database/db-service.js:209-233 | the k-th alert raised is the k-th request's record, numbered after the alerts already there and the ones raised before it |
| DbService.NewAlertsSnoc | database/db-service.js:223-230 | raising one more alert adds its record, numbered after the earlier ones |
| DbService.HeartRateRaised | database/db-service.js:213-220 | a heart rate above 100 raises exactly one alert, numbered after the existing ones |
| DbService.HeartRateFine | database/db-service.js:213 | otherwise the heart-rate rule raises nothing |
| DbService.BatteryRuleLow | database/db-service.js:223-230 | with a battery below 20 the requests are the heart-rate ones followed by the battery alert |
| DbService.HealthAlertsLowBattery | database/db-service.js:223-230 | with a battery below 20 the battery alert comes after the heart-rate alert, numbered after it |
| DbService.HealthAlertsBatteryFine | database/db-service.js:223 | otherwise only the heart-rate rule's alerts are raised |
| DbService.DatabaseService.CheckHealthAlerts | database/db-service.js:209-233 | the alerts returned are those of the rules, numbered in order; they sit newest first in front of the old alerts; no other table changes |
| DbService.DatabaseService.RaiseAlert | database/db-service.js:214-229 | one `createAlert` call appends the new record to the returned list and puts it in front of the alert table |
| DbService.DatabaseService.GetUserStats | database/db-service.js:236-246 | `activeMinutes` is a multiple of 15 and at most 15 times the number of readings in the window |
| DbService.AddStepsConverts | database/db-service.js:241 | `sum + r.steps` adds a numeric count, adds 0 for `null` or `false` and 1 for `true`, and is not a number when the count is missing |
| DbService.TotalStepsIsStepsSum | database/db-service.js:241 | the left fold of `reduce` equals the sum gathered from the right |
| DbService.StepsSumSorted | database/db-service.js:238-241 | sorting the readings does not change their step total |
| DbService.DatabaseService.UserStatsOfWindow | database/db-service.js:236-243 | `totalSteps` is the step sum of the user's readings of the last day, where numeric, `null` and boolean counts are converted as `+` converts them (`AddStepsConverts`), and `activeMinutes` is 15 times the count of those not `Inactive`; for such counts neither depends on the order of the readings |
| DbUtils.Columns | src/database/dbUtils.ts:21 | one column per key, in key order |
| DbUtils.Values | src/database/dbUtils.ts:23 | one value per key, in key order |
| DbUtils.Marks | src/database/dbUtils.ts:22 | one `?` per key |
| DbUtils.Assignments | src/database/dbUtils.ts:35 | `k = ?` for each key, in key order |
| DbUtils.InsertRecord | src/database/dbUtils.ts:20-27 | one parameter per key, and the i-th column and the i-th parameter are the record's i-th entry |
| DbUtils.ColumnListCount | src/database/dbUtils.ts:21 | the column list has no placeholder when no column name contains one |
| DbUtils.MarkListCount | src/database/dbUtils.ts:22 | the placeholder list has exactly one `?` per key |
| DbUtils.InsertTextCount | src/database/dbUtils.ts:21-25 | the insert text has one `?` per column when the table and column names contain none |
| DbUtils.InsertPlaceholders | src/database/dbUtils.ts:20-27 | an insert binds exactly as many values as its text has placeholders |
| DbUtils.UpdateRecord | src/database/dbUtils.ts:29-40 | the parameters are the record's values in key order followed by `whereParams`: as many as keys plus `whereParams` |
| DbUtils.UpdatePlaceholders | src/database/dbUtils.ts:35-38 | an update binds exactly as many values as its text has placeholders when the clause has one per where-parameter |
| DbUtils.UpdateExtendsInsert | src/database/dbUtils.ts:36 | an update binds the insert's values of the same record, then the where-parameters |
| DbUtils.DeleteRecord | src/database/dbUtils.ts:42-45 | the text is `DELETE FROM t WHERE clause` and `whereParams` pass unchanged |
| DbUtils.DeletePlaceholders | src/database/dbUtils.ts:42-44 | a delete binds as many values as its text has placeholders when its clause does |
| DbUtils.DeleteAlwaysFiltered | src/database/dbUtils.ts:43 | every delete statement contains ` WHERE ` |
| DbUtils.GetRecords | src/database/dbUtils.ts:47-51 | `whereParams` pass unchanged |
| DbUtils.GetRecordsFilter | src/database/dbUtils.ts:48 | an absent or empty clause gives `SELECT * FROM t`; otherwise ` WHERE ` and the clause follow it |
| NotificationContext.DefaultSettings | src/context/NotificationContext.tsx:22-33 | the ten default settings, enabled and without quiet hours |
| NotificationContext.LoadedSettings | src/context/NotificationContext.tsx:52-55 | loaded settings are the defaults overridden by every saved key |
| NotificationContext.MarkedAsRead | src/context/NotificationContext.tsx:114-118 | the length is unchanged; entries with the id become read; the others are unchanged |
| NotificationContext.MarkAsReadIdempotent | src/context/NotificationContext.tsx:112-118 | marking as read twice is marking once |
| NotificationContext.MarkAsReadKeepsContent | src/context/NotificationContext.tsx:114-118 | only `read` changes, and an entry is read afterwards exactly when it was read or has the id |
| NotificationContext.UnreadAfterMarkAsRead | src/context/NotificationContext.tsx:112-118 | the unread count drops by exactly the unread entries with that id |
| NotificationContext.AllRead | src/context/NotificationContext.tsx:126 | the length is unchanged and every entry is read, otherwise equal |
| NotificationContext.NoneUnreadAfterAllRead | src/context/NotificationContext.tsx:124-127 | after `markAllAsRead` the unread count is 0 |
| NotificationContext.WithoutNotification | src/context/NotificationContext.tsx:134 | deleting never lengthens the list; an entry with the id no longer occurs, and every other entry occurs as often as before |
| NotificationContext.DeleteKeepsOrder | src/context/NotificationContext.tsx:132-134 | the survivors keep their order: deleting keeps or drops a single entry by its id and distributes over concatenation |
| NotificationContext.DeleteKeepsTheRest | src/context/NotificationContext.tsx:132-134 | an entry survives exactly when it has another id; as many entries go as have the id (their order is stated by `DeleteKeepsOrder`) |
| NotificationContext.DeleteAbsent | src/context/NotificationContext.tsx:132-134 | deleting an id no entry has changes nothing |
| NotificationContext.UnreadCount | src/context/NotificationContext.tsx:148 | the unread count is at most the length |
| NotificationContext.UnreadCountSplits | src/context/NotificationContext.tsx:148 | unread and read entries together are all the entries |
| NotificationContext.NotificationStore.constructor | src/context/NotificationContext.tsx:38-42 | no notifications, the default settings, no error |
| NotificationContext.NotificationStore.Unread | src/context/NotificationContext.tsx:148 | `unreadCount` is the length minus the read entries, and at most the length |
| NotificationContext.NotificationStore.LoadNotificationSettings | src/context/NotificationContext.tsx:50-59 | a failed read or unparsable text records the load error; nothing stored, or empty text, changes nothing; parsed text makes the settings the defaults overridden by it |
| NotificationContext.NotificationStore.UpdateNotificationSettings | src/context/NotificationContext.tsx:102-110 | the settings become the old ones overridden by the patch; a successful write stores them, a failed one keeps them and records the update error |
| NotificationContext.NotificationStore.MarkAsRead | src/context/NotificationContext.tsx:112-122 | the list becomes the marked list; nothing else changes |
| NotificationContext.NotificationStore.MarkAllAsRead | src/context/NotificationContext.tsx:124-130 | the list becomes the all-read list; nothing else changes |
| NotificationContext.NotificationStore.DeleteNotification | src/context/NotificationContext.tsx:132-138 | the list loses the entries with the id; nothing else changes |
| NotificationContext.NotificationStore.ClearAllNotifications | src/context/NotificationContext.tsx:140-146 | the list becomes empty; nothing else changes |
| MapContextJs.Stamp | src/context/MapContext.js:53-57 | the new record keeps all the caller's properties, so a caller-supplied `id` or `timestamp` wins over the generated one |
| MapContextJs.CountUp | src/context/MapContext.js:84 | a falsy count becomes 1 and a number goes up by 1 |
| MapContextJs.Verified | src/context/MapContext.js:84 | the report becomes verified with the counted-up `verifications`; every other property is kept |
| MapContextJs.VerifyMatching | src/context/MapContext.js:81-87 | the length is unchanged; reports with the id are verified; the others are unchanged |
| MapContextJs.VerifyOthersUnchanged | src/context/MapContext.js:81-87 | reports with another id are unchanged, and an id no report has changes nothing |
| MapContextJs.WithMessage | src/context/MapContext.js:104-107 | the message is appended to the list of that report (an empty list when there was none); other reports' lists are unchanged |
| MapContextJs.ExpiryKeepsFresh | src/context/MapContext.js:173-174 | the sweep keeps a report exactly when its timestamp is after two hours before now, and keeps it as often as it occurs |
| MapContextJs.ExpiryKeepsOrder | src/context/MapContext.js:171-175 | the fresh reports keep their order: the sweep keeps or drops a single report by its timestamp and distributes over concatenation |
| MapContextJs.ExpiryIdempotent | src/context/MapContext.js:174 | sweeping twice at the same time is sweeping once |
| MapContextJs.MapStore.constructor | src/context/MapContext.js:10-16 | no reports, messages or contributions, no points, and the points match the contributions |
| MapContextJs.MapStore.AddContribution | src/context/MapContext.js:150-156 | the contribution is appended and the points become those of the new list: the old total plus its points |
| MapContextJs.MapStore.AddReport | src/context/MapContext.js:52-66 | the stamped report goes in front, one `report` contribution naming its id is appended, and the points stay current |
| MapContextJs.MapStore.VerifyReport | src/context/MapContext.js:80-95 | the matching reports are verified, one `verification` contribution is appended, and the points stay current |
| MapContextJs.MapStore.AddChatMessage | src/context/MapContext.js:97-121 | the stamped message goes to that report's list only; a `chat` contribution is recorded exactly when the message is helpful, and otherwise contributions and points are unchanged |
| MapContextJs.MapStore.ExpireReports | src/context/MapContext.js:171-175 | the reports become the fresh ones in order; nothing else changes |
| MapContextTs.Merge | src/context/MapContext.tsx:15 | every property the patch carries wins; the others keep the report's values |
| MapContextTs.Verified | src/context/MapContext.tsx:26-30 | verified becomes true and `verifications` goes up by one; nothing else changes |
| MapContextTs.AddReport | src/context/MapContext.tsx:9-11 | the report is appended at the end and the old reports are kept |
| MapContextTs.UpdateReport | src/context/MapContext.tsx:13-17 | the length is unchanged; reports with the id take the updates; the others are unchanged |
| MapContextTs.DeleteReport | src/context/MapContext.tsx:19-21 | deleting never lengthens the list; a report with the id no longer occurs, and every other report occurs as often as before |
| MapContextTs.DeleteKeepsOrder | src/context/MapContext.tsx:19-21 | the survivors keep their order: deleting keeps or drops a single report by its id and distributes over concatenation |
| MapContextTs.VerifyReport | src/context/MapContext.tsx:23-33 | the length is unchanged; reports with the id are verified; the others are unchanged |
| MapContextTs.AbsentIdChangesNothing | src/context/MapContext.tsx:13-33 | update, delete or verify with an id no report has leave the list unchanged |
| MapContextTs.DeleteKeepsTheRest | src/context/MapContext.tsx:19-21 | a report survives exactly when it has another id; as many go as have the id (their order is stated by `DeleteKeepsOrder`) |
| MapContextTs.DeleteAfterAdd | src/context/MapContext.tsx:9-21 | deleting another id after adding a report is adding it after deleting |
| MapContextTs.UpdateIdempotent | src/context/MapContext.tsx:13-17 | an update that keeps the id, applied twice, is applied once |
| MapContextTs.VerifyTwice | src/context/MapContext.tsx:23-33 | each verification adds one to the count of every report with the id |
| ReportContext.NewReport | src/context/ReportContext.tsx:34-39 | the new report has the generated id and timestamp, is unverified, and keeps the draft's other fields |
| ReportContext.GeneratedFieldsWin | src/context/ReportContext.tsx:34-39 | whatever `id`, `timestamp` or `verified` the draft carries, the stored report is the same |
| ReportContext.NewReportIdsDiffer | src/context/ReportContext.tsx:36 | reports added at different clock readings have different ids |
| ReportContext.AddReport | src/context/ReportContext.tsx:33-41 | exactly one unverified report is appended at the end; the old ones are kept |
| ReportContext.Merge | src/context/ReportContext.tsx:46 | every property the patch carries wins; the others keep the report's values |
| ReportContext.UpdateReport | src/context/ReportContext.tsx:43-49 | the length is unchanged; reports with the id are merged; the others are unchanged |
| ReportContext.DeleteReport | src/context/ReportContext.tsx:51-53 | deleting never lengthens the list; a report with the id no longer occurs, and every other report occurs as often as before |
| ReportContext.DeleteKeepsOrder | src/context/ReportContext.tsx:51-53 | the survivors keep their order: deleting keeps or drops a single report by its id and distributes over concatenation |
| ReportContext.DeleteKeepsTheRest | src/context/ReportContext.tsx:51-53 | a report survives exactly when it has another id; as many go as have the id (their order is stated by `DeleteKeepsOrder`) |
| ReportContext.AbsentIdChangesNothing | src/context/ReportContext.tsx:43-53 | update or delete with an id no report has leave the list unchanged |
| ReportContext.DeleteUndoesAdd | src/context/ReportContext.tsx:33-53 | deleting the report just added gives back the old list when no other report had its id |
| SettingsContext.DefaultSettings | src/context/SettingsContext.tsx:33-53 | theme `system`, language `es`, and the three groups as nested objects |
| SettingsContext.Updated | src/context/SettingsContext.tsx:82-85 | top-level keys in the patch take its values; the others keep theirs |
| SettingsContext.GroupsReplacedWhole | src/context/SettingsContext.tsx:82-85 | a nested group in the patch replaces the whole group: the switches it leaves out are gone |
| SettingsContext.UpdateIdempotent | src/context/SettingsContext.tsx:82-85 | the same patch twice is the patch once |
| SettingsContext.UpdatesCompose | src/context/SettingsContext.tsx:82-85 | two patches in a row are one patch with the later values winning |
| SettingsContext.SettingsStore.constructor | src/context/SettingsContext.tsx:60-61 | the defaults, still loading |
| SettingsContext.SettingsStore.LoadSettings | src/context/SettingsContext.tsx:67-78 | a stored, parsable, non-empty value replaces the settings as it is, without the defaults; otherwise they stay; loading ends in every case |
| SettingsContext.SettingsStore.UpdateSettings | src/context/SettingsContext.tsx:80-92 | after a successful write the merged settings are stored and become the state; a failed write changes nothing and fails with `Failed to save settings` |
| SettingsContext.SettingsStore.ResetSettings | src/context/SettingsContext.tsx:94-102 | after a successful write the defaults are stored and become the state; a failed write changes nothing and fails with `Failed to reset settings` |

## Left out

- Great-circle distance (`getDistance`, `calculateDistance`): floating-point trigonometry. It is the parameter `dist`, of which only `DistanceLaws` is assumed.
- MapUtils.Center: the averages are exact real division. They are not compared with floating-point results.
- MapUtils.GenerateZoneDescription: the text is built as in the source, with the recent count over the parameter `now`. Its wording gets no lemma beyond the bound on that count.
- Clock readings `Date.now()` and `new Date()`: they are parameters. A "day" in `getHealthReadings` is taken as 24 hours, so a daylight-saving change is not modelled.
- DbService.DatabaseService.Init: the demo records depend on the clock and `Math.random`, so they are given as the parameter `mock`.
- `exportMedicalHistory` is not part of this model. `getUserStats`'s floating-point `calories` and `distance` are not either.
- DbService.Millis: a timestamp that is no date (`Invalid Date`) is sorted as 0. In JavaScript its comparisons give `NaN`, and the outcome of `sort` then depends on the engine.
- Json.ToNumber: strings, arrays and objects convert to `NaN` here. JavaScript would parse numeric strings.
- DbService.AddSteps: in JavaScript `sum + r.steps` with a string, array or object count concatenates text (`0 + "5"` is `"05"`), and every later `+` appends again, so the total is text that depends on the order of the readings. The model gives `None` (not a number) for such a sum instead, so the step total's independence of order (`StepsSumSorted`, `UserStatsOfWindow`) covers numeric, `null` and boolean counts only.
- Numbers in JSON values are integers. Fractional sensor values are not modelled.
- MapContextJs.CountUp: an array count is left unspecified (`Null`), because JavaScript first turns it into its text.
- MapContextTs.Verified: the type makes `verifications` a number, so the `|| 0` default for a missing count has no case here.
- Storage (`AsyncStorage`), `JSON.parse` and `JSON.stringify`: reads and writes are parameters; a written object is kept as the object.
- Settings objects: they are plain objects. A `Partial` patch that sets a field to `undefined` is a missing key here.
- MapContextTs.Merge: a patch field is an `Option`, and `None` keeps the old value. A `Partial` update that spreads an explicit `undefined` would set that field to `undefined`; that case is not modelled.
- ReportContext.Merge: the same holds. An explicit `undefined` in the patch keeps the old value here, where the spread would clear it.
- MapContextJs.Stamp: `addReport` and `addChatMessage` read `Date.now()` separately for the `id`, the `timestamp` and the contribution's `timestamp`. The model takes one reading `now` for all of them, so it makes `id` the text of `timestamp`, which JavaScript does not guarantee.
- DbService.DatabaseService.MarkAlertAsRead: records are values here. `alert.is_read = true` changes the object that earlier getter results (`getAllAlerts`, say) still hold. That aliasing is not modelled, so such an earlier result keeps its old contents.
- DbService.DatabaseService.UpdateDeviceStatus: likewise, `Object.assign` changes the device object in place, which an earlier `getUserDevices` result still holds; the model replaces the table entry instead.
- DbService.DatabaseService.GetHealthReadings: the default `days = 7` is not modelled; every caller passes the window length.
- SettingsContext.SettingsStore.LoadSettings: a parsed value that is no object (a number, say) is not modelled.
- React's asynchronous `setState` is not modelled. Stale closures are not either: `markAsRead` reads `notifications` rather than `prev`, and `addContribution` reads the old `userContributions`. Every callback takes effect at once, in program order.
- Timers (`setInterval` for the expiry sweep) are out of scope; the sweep is the method `ExpireReports`.
- OpenAI calls, text-to-speech, `addReport`'s spoken nearby-report alert and `findAlternativeRoutes`: foreign services. So are push notifications and SQLite (`executeQuery`). Only the statement text and parameters, which the builders produce, are modelled.
- Screens, navigation, components and the API client services are user interface or pass-throughs, and are not part of this model.
