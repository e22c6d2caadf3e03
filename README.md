# geoprobe core, modelled in Dafny

geoprobe is an uptime monitor. Each monitor names a URL and a set of probe
locations from a fixed catalogue. Every five minutes a cron job checks every
active monitor by running an HTTP measurement on the Globalping network: it
creates the measurement, polls it with a growing delay, and stores one
measurement row per probe result. An alert engine turns the newest
measurements into `down`, `up` and `latency_spike` alerts. The alerts are
debounced over five minutes and posted to a Discord webhook. The server
derives uptime percentages and up/down/unknown statuses for the dashboards
and the public status page. A browser store keeps the live events it
receives over server-sent events and reconnects after errors.

The model has one module per source file:

| module | file | source |
|---|---|---|
| `Alerts` | alerts.dfy | src/lib/server/alerts.ts |
| `Globalping` | globalping.dfy | src/lib/server/globalping.ts |
| `Checker` | checker.dfy | src/lib/server/checker.ts |
| `Cron` | cron.dfy | src/lib/server/cron.ts |
| `Monitors` | monitors.dfy | src/lib/server/monitors.ts |
| `StatusPage` | status_page.dfy | src/routes/status/+page.server.ts |
| `Locations` | locations.dfy | src/lib/data/locations.ts |
| `Realtime` | realtime.dfy | src/lib/stores/realtime.svelte.ts |

`Schema` holds the records of src/lib/server/schema.ts. `Wrappers`, `Seqs`
and `Text` hold the option/result types, sequence filtering and counting,
and the JavaScript string operations the code uses.

The database, `fetch`, timers and JSON are not part of the model. Each
becomes a value or a function parameter:
- A table is a sequence of rows, newest first where the query orders by
  time.
- The provider's replies are the oracles `post` and `poll`.
- `JSON.parse` of a monitor's locations is `parse`, and `JSON.stringify`
  is `stringify`.
- Zod's URL check is `isUrl`.
- The clock is a `now` argument.

The imperative parts keep their form, and each is proved against a
specification function or predicate:
- the polling loop of `pollMeasurement`;
- the failure-count loop;
- the cron loop over the active monitors;
- the cron job handle;
- the measurements and monitors tables;
- the realtime store.

Where the code and the documented design differ, the model follows the
code:
- The cron job runs every active monitor every five minutes; there is no
  per-monitor schedule or "due" test.
- `createMeasurement` makes one attempt, with no retry.
- `checkMonitor` stores measurements but does not call the alert engine.
- It sends `options: { timeout: 10000 }` and passes the monitor's URL and
  parsed locations through unchanged.
- The uptime of an empty window is 0.

Two stateful parts run the corrected programs of "## Findings" rather than
the code as written:
- `Monitors.MonitorTable` stores the validated webhook on create and update
  (`NewRow`, `UpdatedRow`). The code writes no webhook; `NewRowAsWritten`
  and `UpdatedRowAsWritten` model that.
- `Realtime.RealtimeStore` clears the reconnect handle when its timer fires
  (`FireCorrected`). The code leaves the handle set; `FireAsWritten` models
  that.

## Model

| member | source | states |
|---|---|---|
| Alerts.LeadingFailures | src/lib/server/alerts.ts:190-202 | the failure streak is the longest all-failed prefix: every counted entry failed, the next one did not, and the whole list counts iff every entry failed |
| Alerts.CountConsecutiveFailures | src/lib/server/alerts.ts:190-202 | the counting loop with its early `break` returns exactly that streak length |
| Alerts.RecentAlerts | src/lib/server/alerts.ts:171-179 | the window holds exactly the monitor's alerts created at or after now − 300000 ms |
| Alerts.RecentMeasurements | src/lib/server/alerts.ts:181-188 | the first `limit` of the monitor's stored measurements, in stored order: min(limit, their number) rows, the i-th being the monitor's i-th |
| Alerts.MonitorRows | src/lib/server/alerts.ts:182-185 | exactly the stored measurements of the monitor, in stored order |
| Alerts.DebounceBoundary | src/lib/server/alerts.ts:171-179 | the cutoff is inclusive: an alert exactly five minutes old still suppresses, an older one is outside the window |
| Alerts.RecentAlertFound | src/lib/server/alerts.ts:171-179 | any stored alert of the monitor inside the window is seen as a recent alert of its type |
| Alerts.AlertEmoji | src/lib/server/alerts.ts:204-217 | the emoji is one of the red circle, green circle, warning sign, scroll and bell |
| Alerts.AlertEmojiDistinguishesKnownTypes | src/lib/server/alerts.ts:204-217 | the bell is chosen iff the type is not one of the four known ones, and the known types get four different emoji |
| Alerts.AlertTitleShape | src/lib/server/alerts.ts:124-125 | the title is the emoji, a space, and the type upper-cased character by character with only its first `_` turned into a space |
| Alerts.LatencySpikeTitle | src/lib/server/alerts.ts:124-125 | the `latency_spike` title is the warning sign followed by " LATENCY SPIKE" |
| Alerts.TwoWordTitle | src/lib/server/alerts.ts:124-125 | a type `a_b` (no underscore in `a`) is titled with `a` and `b` upper-cased and a space between them |
| Alerts.SendDiscordAlert | src/lib/server/alerts.ts:119-136 | the webhook POST goes to the webhook URL and carries one embed with the title, the alert's message, the colour and the creation time |
| Alerts.HandleFailure | src/lib/server/alerts.ts:37-54 | at most one decision; a `down` with the red colour and the streak in its message exactly when the streak is at least 3 and no `down` alert is recent |
| Alerts.HandleSuccess | src/lib/server/alerts.ts:56-79 | at most one decision; an `up` with the green colour exactly when the previous measurement and every one up to three back failed and no `up` alert is recent |
| Alerts.HandleLatencySpike | src/lib/server/alerts.ts:81-95 | at most one decision; a `latency_spike` with the amber colour exactly when the latency exceeds 1000 ms and no such alert is recent |
| Alerts.CreateAndSendAlert | src/lib/server/alerts.ts:97-117 | the stored alert belongs to the monitor, has the decision's type and message, is unacknowledged and stamped `now`; a POST is made iff a webhook is set, and it carries that alert |
| Alerts.DecideRules | src/lib/server/alerts.ts:21-95 | `down`, `up` and `latency_spike` are each decided iff the webhook is set and that handler's condition holds; there are at most two decisions, no type repeats, and each has its type's colour |
| Alerts.Dispatches | src/lib/server/alerts.ts:97-117 | one stored alert, with its POST, per decision, in decision order and with the same types |
| Alerts.CheckAndAlert | src/lib/server/alerts.ts:21-117 | nothing without a webhook; every alert belongs to the monitor, is unacknowledged, is stamped `now` and is posted to the monitor's webhook |
| Alerts.CheckAndAlertRules | src/lib/server/alerts.ts:21-117 | the rules of `checkAndAlert` over the five newest measurements and the debounce window: nothing without a webhook; each type iff its condition holds; at most two alerts with distinct types; every alert is unacknowledged, belongs to the monitor, is stamped `now` and is posted with its type's colour |
| Alerts.FailureRaisesOnlyDown | src/lib/server/alerts.ts:29-34 | a failed measurement can only raise `down` |
| Alerts.DownIsDebounced | src/lib/server/alerts.ts:21-54 | once a `down` alert is stored, no evaluation of that monitor within the next five minutes raises another, whatever it measures |
| Globalping.Error.Message | src/lib/server/globalping.ts:5-45 | the three error messages: the API error with status and body text, the failed poll with its status, and the timeout with the id and the attempt count |
| Globalping.TimeoutMessage | src/lib/server/globalping.ts:44 | the timeout message reads "Measurement <id> timed out after 20 polls" |
| Globalping.CreateMeasurement | src/lib/server/globalping.ts:5-19 | the result is Ok iff the POST succeeded; Ok carries the new measurement's id; otherwise the error is the API error with status and text |
| Globalping.Delay | src/lib/server/globalping.ts:22-41 | every wait before a poll lies in [1000, 5000] ms |
| Globalping.NextDelay | src/lib/server/globalping.ts:41 | a delay within the cap grows but never beyond 5000 ms |
| Globalping.DelayRecurrence | src/lib/server/globalping.ts:22-41 | the schedule 1000, 1500, 2250, 3375, then 5000 ms starts at the initial delay and each wait is the capped 1.5-fold growth of the one before, as the loop computes it |
| Globalping.DelayMonotone | src/lib/server/globalping.ts:41 | the waits never shrink |
| Globalping.TotalDelayClosedForm | src/lib/server/globalping.ts:26-42 | from four polls on, the total wait is 8125 + 5000·(n − 4) ms |
| Globalping.TotalDelayBound | src/lib/server/globalping.ts:26-42 | at most 20 polls wait at most 88125 ms in all |
| Globalping.TotalDelayGrows | src/lib/server/globalping.ts:26-42 | more polls never wait less in total |
| Globalping.PollMeasurement | src/lib/server/globalping.ts:21-45 | the loop polls 1 to 20 times, each after its scheduled delay, stops at the first terminal reply, and returns that reply's data or failure, or the timeout after 20 in-progress replies |
| Globalping.PolledDeterminate | src/lib/server/globalping.ts:21-45 | the polling specification admits exactly one result and one poll log per reply sequence |
| Globalping.PollOutcome | src/lib/server/globalping.ts:30-44 | a timeout iff all 20 replies were in progress; a success is the last reply's data and is not in progress; a poll failure carries the last reply's status |
| Globalping.PollSleepBound | src/lib/server/globalping.ts:22-41 | the waits of a run add up to the total delay of its poll count, at most 88125 ms |
| Globalping.WaitedIsTotal | src/lib/server/globalping.ts:26-29 | the waits logged for n polls add up to the total delay of n polls |
| Globalping.PolledMatchesReference | src/lib/server/globalping.ts:21-45 | the loop's result equals the recursive reference definition of polling |
| Globalping.SkipInProgress | src/lib/server/globalping.ts:36-41 | in-progress replies only move polling on to the next attempt |
| Globalping.PollFrom | src/lib/server/globalping.ts:26-44 | a polled result is never in progress, and a polling error is a failed poll or the timeout of that id after 20 polls |
| Globalping.RunResult | src/lib/server/globalping.ts:47-50 | a refused POST is an API error; a result is never in progress; a timeout is that of the id the POST returned |
| Globalping.RunMeasurement | src/lib/server/globalping.ts:47-50 | exactly one POST of the request; a refused POST is the API error with no poll; otherwise the created id is polled as specified |
| Checker.MeasurementTable.Insert | src/lib/server/checker.ts:37-40 | one insert appends the whole batch |
| Checker.CheckRequest | src/lib/server/checker.ts:12-17 | the request is an HTTP check of the monitor's URL from the parsed locations with a 10000 ms timeout |
| Checker.NetworkType | src/lib/server/checker.ts:30 | residential iff the probe's tags include "residential", datacenter otherwise |
| Checker.ToMeasurement | src/lib/server/checker.ts:25-34 | the row carries the monitor id, "city, country", status code, total timing (0 when absent), raw error, and success iff the probe finished |
| Checker.MapResults | src/lib/server/checker.ts:24-35 | one row per probe result in order, none without results; every row belongs to the monitor and is a success or a failure |
| Checker.MapResultsConcat | src/lib/server/checker.ts:24-35 | the rows of the probe results are independent of one another: mapping distributes over concatenation |
| Checker.Check | src/lib/server/checker.ts:7-41 | at most one batch; nothing stored when the check throws; every stored batch is non-empty and holds only rows of this monitor, each a success or a failure |
| Checker.CheckRules | src/lib/server/checker.ts:7-41 | unparsable locations and a failed run are thrown and store nothing; a failed job stores nothing; otherwise at most one batch, exactly the mapped rows when there are any |
| Checker.CheckMonitor | src/lib/server/checker.ts:7-41 | the check's steps against the table: the result and the appended batches are those of the specification |
| Cron.ActiveMonitors | src/lib/server/cron.ts:14 | exactly the active monitors, in table order |
| Cron.RunAllChecks | src/lib/server/cron.ts:9-38 | a failed load is fatal and stores nothing; otherwise every active monitor is checked once in order, the counts are the successes and the failures, and the table gets each check's batches in turn |
| Cron.CheckOne | src/lib/server/cron.ts:22-28 | one caught check extends the checked ids, the success count and the stored batches by that monitor's check |
| Cron.ReportCounts | src/lib/server/cron.ts:18-29 | the success count of a run is the number of active monitors whose check completes and the error count the number whose check throws; together they are the number checked |
| Cron.SuccessesCount | src/lib/server/cron.ts:21-27 | the successes counted check by check are the monitors whose check completes |
| Cron.AllSucceed | src/lib/server/cron.ts:21-29 | the success count equals the number of active monitors iff every check completes |
| Cron.InactiveIgnored | src/lib/server/cron.ts:14 | adding an inactive monitor does not change the run |
| Cron.ScheduledTask.Stop | src/lib/server/cron.ts:53 | a stopped job no longer runs |
| Cron.Scheduler.InitializeCron | src/lib/server/cron.ts:40-49 | initialising keeps an existing job and otherwise schedules a fresh, running five-minute job |
| Cron.Scheduler.StopCron | src/lib/server/cron.ts:51-57 | stopping stops the job and clears the handle; with no job it does nothing |
| Cron.StopThenInitialize | src/lib/server/cron.ts:40-57 | stop then initialise gives a fresh job, and a second initialise keeps it |
| Locations.TableShape | src/lib/data/locations.ts:7-71 | 6 continents, 22 countries and 21 cities, in that order, with their id lengths |
| Locations.IdsUnique | src/lib/data/locations.ts:7-71 | no two catalogue entries share an id |
| Locations.CountryParents | src/lib/data/locations.ts:7-71 | every country's parent id is a continent's id |
| Locations.CityParents | src/lib/data/locations.ts:7-71 | every city's parent id is a country's id |
| Locations.Find | src/lib/data/locations.ts:73-75 | the first entry with the id, None iff no entry has it |
| Locations.GetLocationByIdFinds | src/lib/data/locations.ts:73-75 | looking up any entry's id finds that entry; an unknown id finds nothing |
| Locations.GetLocationById | src/lib/data/locations.ts:73-75 | None iff no entry has the id; otherwise a catalogue entry with that id |
| Locations.GetChildLocations | src/lib/data/locations.ts:77-79 | the result holds every catalogue entry whose parent id is the argument and no other, in table order |
| Locations.GetRootLocations | src/lib/data/locations.ts:81-83 | only continent entries of the catalogue, in table order |
| Locations.RootsAreContinents | src/lib/data/locations.ts:81-83 | the roots are exactly the six continents, in order |
| Locations.CountriesResolve | src/lib/data/locations.ts:7-71 | every country's parent resolves to a continent |
| Locations.CitiesResolve | src/lib/data/locations.ts:7-71 | every city's parent resolves to a country |
| Locations.RegionalIndicator | src/lib/data/locations.ts:95-118 | each code letter becomes its regional indicator symbol |
| Locations.FlagCodesWellFormed | src/lib/data/locations.ts:95-118 | every flag key is two upper-case letters |
| Locations.EveryCountryHasAFlag | src/lib/data/locations.ts:95-118 | every country code of the catalogue has a flag |
| Locations.ContinentEmojis | src/lib/data/locations.ts:85-122 | every continent shows a globe turned towards it, never the default globe |
| Locations.CountryEmojis | src/lib/data/locations.ts:124-126 | every country shows the flag spelled by its code |
| Locations.CityEmojis | src/lib/data/locations.ts:128-131 | every city shows its country's flag |
| Locations.GetLocationEmoji | src/lib/data/locations.ts:85-134 | a continent shows a continent globe or the default globe, a country a flag or the white flag, a city a flag or the pushpin |
| Locations.EmojiFallbacks | src/lib/data/locations.ts:120-134 | an unknown continent shows the default globe, an unknown country the white flag, and a city without a country parent the pushpin |
| Locations.SearchLocations | src/lib/data/locations.ts:136-146 | a blank query finds nothing; otherwise exactly the entries whose lower-cased name, code or an ISP contains the trimmed lower-cased query, in table order |
| Locations.NormalizeQuery | src/lib/data/locations.ts:137 | the normalised query is no longer than the query, has no upper-case letter, and neither starts nor ends with whitespace |
| Locations.BlankQuery | src/lib/data/locations.ts:137-138 | the normalised query is empty iff the query is only whitespace |
| Locations.SearchIgnoresCase | src/lib/data/locations.ts:137-145 | an upper-cased query finds the same entries |
| Monitors.Issues | src/lib/server/monitors.ts:22-28 | each field is reported iff its rule fails, each at most once |
| Monitors.ValidateForm | src/lib/server/monitors.ts:22-28 | the form is accepted iff the name, URL, interval, locations and webhook are all valid; otherwise the failing fields are returned |
| Monitors.IntervalRule | src/lib/server/monitors.ts:25 | a whole number of seconds is accepted iff it is in [60, 3600], and a fraction is never accepted |
| Monitors.IntervalOptionsValid | src/lib/types/monitor-form.ts:27-36 | every offered interval and the default pass the interval rule |
| Monitors.CalculateUptime | src/lib/server/monitors.ts:46-51 | 0 for no measurements; otherwise the success percentage rounded half up, never above 100 |
| Monitors.RoundedPercentage | src/lib/server/monitors.ts:50 | the rounded percentage is within half a point of the exact one and at most 100 |
| Monitors.UptimeExtremes | src/lib/server/monitors.ts:46-51 | all successes give 100 and none give 0 |
| Monitors.PercentageExtremes | src/lib/server/monitors.ts:50 | the whole rounds to 100 percent and nothing to 0 percent |
| Monitors.LatestStatus | src/lib/server/monitors.ts:80-85 | unknown iff the window is empty, up iff its newest measurement succeeded, down otherwise |
| Monitors.Window | src/lib/server/monitors.ts:72-78 | exactly the monitor's measurements at or after the cutoff, in stored order |
| Monitors.WindowNewestFirst | src/lib/server/monitors.ts:72-80 | a window of a newest-first table is newest first, so its head is its latest measurement |
| Monitors.AverageLatency | src/lib/server/monitors.ts:136-138 | 0 for no measurements, otherwise the mean latency rounded half up |
| Monitors.GetMonitors | src/lib/server/monitors.ts:65-98 | every monitor in order, with the status and uptime of its 24-hour window |
| Monitors.GetPublicMonitors | src/lib/server/monitors.ts:100-144 | one entry per public row, the i-th entry for the i-th public row in table order, each with that monitor's 24-hour status, uptime and mean latency and its 30-day uptime |
| Monitors.PublicRows | src/lib/server/monitors.ts:101 | exactly the public rows, in table order |
| Monitors.GetMonitorById | src/lib/server/monitors.ts:146-174 | None iff no monitor has the id; otherwise the first row with that id, its 24-hour measurements, and the uptimes of its 24-hour and 30-day windows |
| Monitors.IndexOf | src/lib/server/monitors.ts:224-228 | the first row with the id, None iff no row has it |
| Monitors.NewRowAsWritten | src/lib/server/monitors.ts:179-188 | the inserted row has the form's fields, is active and private, and has no webhook |
| Monitors.NewRow | src/lib/server/monitors.ts:179-188 | the corrected inserted row: the row as written with the form's webhook stored |
| Monitors.UpdatedRowAsWritten | src/lib/server/monitors.ts:200-210 | an update leaves the stored webhook as it was |
| Monitors.UpdatedRow | src/lib/server/monitors.ts:200-210 | an update sets the form's fields and webhook and keeps the id, flags and creation time |
| Monitors.MonitorTable.CreateMonitor | src/lib/server/monitors.ts:176-195 | an invalid form is rejected with its issues and changes nothing; a valid one appends one new row, the corrected `NewRow` that also stores the form's webhook (the code stores none); ids stay unique |
| Monitors.MonitorTable.UpdateMonitor | src/lib/server/monitors.ts:197-217 | an invalid form is rejected; an unknown id is "Monitor not found"; otherwise only that row changes, to the corrected `UpdatedRow` that also sets the form's webhook (the code leaves the stored one) |
| Monitors.MonitorTable.ToggleMonitorActive | src/lib/server/monitors.ts:223-244 | an unknown id is "Monitor not found"; otherwise only that row changes, with `active` negated and `updatedAt` stamped |
| Monitors.ToggleChangesOnlyActive | src/lib/server/monitors.ts:230-236 | a toggle differs from the old row only in `active` and `updatedAt`, and two toggles restore `active` |
| Monitors.CreatedMonitorNeverAlerts | src/lib/server/monitors.ts:179-187 | as written, a created or updated monitor has no webhook, so the alert engine never raises anything for it |
| Monitors.CreatedMonitorAlerts | src/lib/server/monitors.ts:179-187 | with the webhook stored, a monitor has a webhook iff its form gave a non-empty one, and three failures then raise `down` |
| StatusPage.AllUp | src/routes/status/+page.server.ts:9 | true iff every monitor is up |
| StatusPage.Overall | src/routes/status/+page.server.ts:7-11 | operational with no monitors; operational iff every monitor is up; degraded iff some monitor is down or unknown |
| StatusPage.OrderIrrelevant | src/routes/status/+page.server.ts:9 | the verdict does not depend on the order of the monitors |
| StatusPage.OneMonitorDecides | src/routes/status/+page.server.ts:9-11 | one monitor that is not up makes the page degraded; one that is up keeps the verdict |
| Realtime.PushNewest | src/lib/stores/realtime.svelte.ts:46-51 | the new event is first, the earlier list follows, and the list is at most 100 long |
| Realtime.PushAll | src/lib/stores/realtime.svelte.ts:46-51 | after a run of events the newest event is first, and a list of at most 100 grows by their number up to 100 |
| Realtime.PushAllKeepsNewest | src/lib/stores/realtime.svelte.ts:46-51 | a run of events leaves the newest 100 of them and of the earlier list, newest first |
| Realtime.ConnectStep | src/lib/stores/realtime.svelte.ts:31-38 | connect is a no-op while a source exists, and otherwise opens a new source |
| Realtime.OpenStep | src/lib/stores/realtime.svelte.ts:59-66 | open sets connected and clears any reconnect timer |
| Realtime.ErrorStep | src/lib/stores/realtime.svelte.ts:68-80 | an error disconnects, drops the source, and schedules a reconnect only if no handle is set |
| Realtime.FireAsWritten | src/lib/stores/realtime.svelte.ts:75-78 | as written, the fired timer reconnects but leaves its handle set |
| Realtime.FireCorrected | src/lib/stores/realtime.svelte.ts:75-78 | the corrected timer clears its handle and reconnects |
| Realtime.DisconnectStep | src/lib/stores/realtime.svelte.ts:83-94 | disconnect leaves no source, no timer, and the store not connected |
| Realtime.FailedReconnectStalls | src/lib/stores/realtime.svelte.ts:68-80 | as written, connect, error, timer, error leaves no source and no pending reconnect |
| Realtime.CorrectedErrorRecovers | src/lib/stores/realtime.svelte.ts:68-80 | without a stale handle, every error leaves a reconnect pending |
| Realtime.CorrectedStepsKeepHandleFresh | src/lib/stores/realtime.svelte.ts:59-94 | the corrected steps never leave a stale handle |
| Realtime.DisconnectIdempotent | src/lib/stores/realtime.svelte.ts:83-94 | disconnecting twice is disconnecting once |
| Realtime.RealtimeStore.Connect | src/lib/stores/realtime.svelte.ts:31-38 | the store moves by the connect step; the maps are unchanged |
| Realtime.RealtimeStore.OnOpen | src/lib/stores/realtime.svelte.ts:59-66 | the store moves by the open step and no timer stays armed |
| Realtime.RealtimeStore.OnError | src/lib/stores/realtime.svelte.ts:68-80 | the store moves by the error step; exactly one reconnect timer is armed afterwards, because the store fires its timer by the corrected step |
| Realtime.RealtimeStore.OnReconnectTimer | src/lib/stores/realtime.svelte.ts:75-78 | the store moves by the corrected timer step, which clears the handle and reconnects (the code leaves the handle set) |
| Realtime.RealtimeStore.Disconnect | src/lib/stores/realtime.svelte.ts:83-94 | the store returns to the initial connection state with no timer armed |
| Realtime.RealtimeStore.OnMonitorUpdate | src/lib/stores/realtime.svelte.ts:40-44 | the update replaces that monitor's entry; the last write wins and nothing else changes |
| Realtime.RealtimeStore.OnMeasurementNew | src/lib/stores/realtime.svelte.ts:46-51 | the event is pushed onto that monitor's list; the other monitors' lists are unchanged |
| Realtime.RealtimeStore.OnStatusChange | src/lib/stores/realtime.svelte.ts:53-57 | the change replaces that monitor's entry; the last write wins and nothing else changes |
| Realtime.RealtimeStore.GetMonitorUpdate | src/lib/stores/realtime.svelte.ts:96-98 | the stored update, None iff the monitor has none |
| Realtime.RealtimeStore.GetMeasurements | src/lib/stores/realtime.svelte.ts:100-102 | the kept list, empty for an unseen monitor |
| Realtime.RealtimeStore.GetStatusChange | src/lib/stores/realtime.svelte.ts:104-106 | the stored change, None iff the monitor has none |
| Realtime.TwoMeasurements | src/lib/stores/realtime.svelte.ts:46-51 | after two events the newer is first and the older second; other monitors are untouched |
| Realtime.ErrorThenReconnect | src/lib/stores/realtime.svelte.ts:68-80 | an error followed by its timer always leaves a fresh source and no timer armed |

## Left out

- Storage, HTTP, timers, `node-cron`, `EventSource` and console logging are not modelled. Tables are sequences, the provider's replies are oracle functions, and events are method calls.
- The uuid and timestamp defaults of the database are `id` and `now` arguments. Monitors.MonitorTable.CreateMonitor requires the generated id to be new.
- The "Failed to create monitor" and "Failed to update monitor" branches are not modelled: an insert or update that succeeds always returns its row.
- `deleteMonitor` and the cascade delete of measurements and alerts are not modelled: they are a single storage call.
- The `getAlerts`, `getUnacknowledgedAlerts` and `acknowledgeAlert` queries are not modelled: they are storage calls with no logic of their own.
- Timestamps are integers (milliseconds), not ISO strings, so "at or after the cutoff" is integer comparison.
- Latency is a whole number of milliseconds, not a floating-point value.
- Monitors.CalculateUptime: rounds half up over exact rationals; floating-point `Math.round` can differ at exact .5 ties.
- Monitors.AverageLatency: averages whole milliseconds with exact rounding; the code averages floats.
- Realtime.MonitorUpdate: `uptime24h` is a whole percentage.
- Text.Lower and Text.Upper map ASCII letters only, and string lengths count characters, not UTF-16 code units.
- Zod's URL check, `JSON.parse` and `JSON.stringify` are the parameters `isUrl`, `parse` and `stringify`.
- A malformed JSON value inside a parsed location list is passed through as parsed.
- Locations.GetLocationEmoji: the emoji literals in src/lib/data/locations.ts are mis-encoded in the text and cannot be told apart. The continent globes are a reconstruction: Asia and Oceania 🌏, Europe and Africa 🌍, the Americas 🌎, default 🌐. Flags are the regional-indicator pairs of their codes.
- The alert emoji are the characters the tests expect: 🔴 🟢 ⚠️ 📜 🔔.
- The SSE endpoint, src/lib/server/events.ts, the route handlers, chart configuration and build configuration are not part of this model.
- The webhook POST's outcome is not modelled; the code only logs it.
- Monitors.MonitorTable.CreateMonitor / UpdateMonitor: store the form's webhook through the corrected `NewRow` and `UpdatedRow` of the second finding. The code at src/lib/server/monitors.ts:181-187 and :202-208 writes no webhook; `NewRowAsWritten` and `UpdatedRowAsWritten` model that.
- UpdateMonitor: replaces the stored webhook with the form's, where the code leaves the stored webhook unchanged.
- Realtime.RealtimeStore.OnReconnectTimer: fires by the corrected `FireCorrected` of the first finding, which clears the handle; the code leaves it set, as `FireAsWritten` models.
- Realtime.RealtimeStore.OnError: its guarantee that one reconnect timer is armed holds for the corrected store only; with the code as written, `FailedReconnectStalls` shows a second error arming none.
- Cron.RunAllChecks: does not model run timing or the logged duration.
- `checkMonitor` is assumed to run to completion; a process crash part-way through a run is not modelled.

## Findings

| source | as written | input that shows it | evidently intended | confidence | as-written member | corrected member |
|---|---|---|---|---|---|---|
| src/lib/stores/realtime.svelte.ts:75-78 | the reconnect timer's callback calls `connect()` but never sets `reconnectTimeout` back to null | connect; the source errors, so a timer is armed; the timer fires and reconnects; the new source errors before it opens. `reconnectTimeout` still holds the fired handle, so no timer is armed, and the store never reconnects | the callback clears `reconnectTimeout` before reconnecting, so every error arms a reconnect | high, not executed | Realtime.FailedReconnectStalls | Realtime.FireCorrected |
| src/lib/server/monitors.ts:179-187 | `createMonitor` and `updateMonitor` validate `discordWebhook` but never write it, and nothing else sets the column | any valid form with `discordWebhook` set to a URL: the stored monitor has no webhook, and `checkAndAlert` returns at once for it | the webhook is stored with the other form fields, so alerts reach it | high, not executed | Monitors.CreatedMonitorNeverAlerts | Monitors.NewRow |
