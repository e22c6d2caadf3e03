/**
 * Monitor rules: the form schema that creation and update validate
 * against, the uptime percentage, the up/down/unknown status of a monitor,
 * the per-monitor summaries the pages read, and the record updates of
 * create, update and pause/resume on the monitors table.
 */
module Monitors {
  import opened Wrappers
  import opened Schema
  import Seqs
  import Locations
  import Alerts

  // ---------------------------------------------------------------------
  // The form schema

  /** `SelectedLocation`: a catalogue location with the network filter, ISP and chart colour picked for it. */
  datatype SelectedLocation = SelectedLocation(location: Locations.Location, networkType: string, isp: Option<string>, color: string)

  /** The submitted form; `interval` is a JavaScript number, so it may carry a fraction. */
  datatype MonitorForm = MonitorForm(
    name: string,
    url: string,
    interval: real,
    locations: seq<SelectedLocation>,
    discordWebhook: Option<string>)

  /** The fields of the form, in the order the schema declares them. */
  datatype Field = Name | Url | Interval | LocationList | DiscordWebhook

  const MIN_NAME_LENGTH := 2
  const MAX_NAME_LENGTH := 100
  const MIN_INTERVAL := 60
  const MAX_INTERVAL := 3600

  /** `INTERVAL_OPTIONS` offered by the form, and `DEFAULT_INTERVAL`, in seconds. */
  const INTERVAL_OPTIONS: seq<int> := [60, 120, 300, 600, 1800, 3600]
  const DEFAULT_INTERVAL := 300

  /** `z.string().min(2).max(100)` */
  predicate NameValid(name: string) {
    MIN_NAME_LENGTH <= |name| <= MAX_NAME_LENGTH
  }

  /** `z.number().int().min(60).max(3600)` */
  predicate IntervalValid(interval: real) {
    interval == interval.Floor as real && MIN_INTERVAL as real <= interval <= MAX_INTERVAL as real
  }

  /** `locationSchema`: the network filter is one of the three the form offers (the location's own fields are typed). */
  predicate SelectionValid(s: SelectedLocation) {
    s.networkType in {"residential", "datacenter", "any"}
  }

  /** `z.array(locationSchema).min(1)` */
  predicate LocationsValid(locations: seq<SelectedLocation>) {
    |locations| >= 1 && forall i | 0 <= i < |locations| :: SelectionValid(locations[i])
  }

  /** `z.string().url().optional().or(z.literal(''))`, where `isUrl` is zod's URL check. */
  predicate WebhookValid(webhook: Option<string>, isUrl: string -> bool) {
    webhook.None? || webhook.value == "" || isUrl(webhook.value)
  }

  /** The fields that fail validation, in schema order. */
  function Issues(form: MonitorForm, isUrl: string -> bool): (fields: seq<Field>)
    ensures Name in fields <==> !NameValid(form.name)
    ensures Url in fields <==> !isUrl(form.url)
    ensures Interval in fields <==> !IntervalValid(form.interval)
    ensures LocationList in fields <==> !LocationsValid(form.locations)
    ensures DiscordWebhook in fields <==> !WebhookValid(form.discordWebhook, isUrl)
    ensures Distinct(fields)
  {
    FailedFields(NameValid(form.name), isUrl(form.url), IntervalValid(form.interval),
                 LocationsValid(form.locations), WebhookValid(form.discordWebhook, isUrl))
  }

  /** The fields whose check did not pass, in schema order. */
  function FailedFields(name: bool, url: bool, interval: bool, locations: bool, webhook: bool): (fields: seq<Field>)
    ensures Name in fields <==> !name
    ensures Url in fields <==> !url
    ensures Interval in fields <==> !interval
    ensures LocationList in fields <==> !locations
    ensures DiscordWebhook in fields <==> !webhook
    ensures Distinct(fields)
  {
    var a := Flag([], name, Name);
    assert Url !in a && Interval !in a && LocationList !in a && DiscordWebhook !in a;
    var b := Flag(a, url, Url);
    assert Interval !in b && LocationList !in b && DiscordWebhook !in b;
    var c := Flag(b, interval, Interval);
    assert LocationList !in c && DiscordWebhook !in c;
    var d := Flag(c, locations, LocationList);
    Flag(d, webhook, DiscordWebhook)
  }

  predicate Distinct(fields: seq<Field>) {
    forall i, j | 0 <= i < j < |fields| :: fields[i] != fields[j]
  }

  /** `issues` with `field` appended when its check failed. */
  function Flag(issues: seq<Field>, passed: bool, field: Field): (r: seq<Field>)
    requires field !in issues && Distinct(issues)
    ensures forall f :: f in r <==> f in issues || (!passed && f == field)
    ensures Distinct(r)
  {
    if passed then issues else issues + [field]
  }

  /** `monitorFormSchema.parse(data)`: the form itself when every field is valid, the failing fields otherwise. */
  function ValidateForm(form: MonitorForm, isUrl: string -> bool): (r: Result<MonitorForm, seq<Field>>)
    ensures r.Ok? <==>
      NameValid(form.name) && isUrl(form.url) && IntervalValid(form.interval)
      && LocationsValid(form.locations) && WebhookValid(form.discordWebhook, isUrl)
    ensures r.Ok? ==> r.value == form
    ensures r.Err? ==> r.error == Issues(form, isUrl) && |r.error| > 0
  {
    var issues := Issues(form, isUrl);
    if issues == [] then Ok(form) else Err(issues)
  }

  /** A whole number of seconds passes the interval rule exactly when it lies in [60, 3600]; a fraction never does. */
  lemma IntervalRule(seconds: int, x: real)
    ensures IntervalValid(seconds as real) <==> MIN_INTERVAL <= seconds <= MAX_INTERVAL
    ensures x != x.Floor as real ==> !IntervalValid(x)
  {
  }

  /** Every interval the form offers, and the default, passes the rule. */
  lemma IntervalOptionsValid()
    ensures forall i | 0 <= i < |INTERVAL_OPTIONS| :: IntervalValid(INTERVAL_OPTIONS[i] as real)
    ensures IntervalValid(DEFAULT_INTERVAL as real) && DEFAULT_INTERVAL in INTERVAL_OPTIONS
  {
    forall i | 0 <= i < |INTERVAL_OPTIONS| ensures IntervalValid(INTERVAL_OPTIONS[i] as real) {
      IntervalRule(INTERVAL_OPTIONS[i], 0.0);
    }
    IntervalRule(DEFAULT_INTERVAL, 0.0);
  }

  // ---------------------------------------------------------------------
  // Uptime and status

  function Successful(ms: seq<Measurement>): (n: nat)
    ensures n <= |ms|
  {
    Seqs.Count(ms, (m: Measurement) => m.status == SUCCESS)
  }

  /**
   * `calculateUptime(measurements)`: 0 without measurements, otherwise the
   * success percentage rounded half up, which is what `Math.round` does.
   */
  function CalculateUptime(ms: seq<Measurement>): (u: nat)
    ensures |ms| == 0 ==> u == 0
    ensures |ms| > 0 ==> 2 * |ms| * u - |ms| <= 200 * Successful(ms) < 2 * |ms| * u + |ms|
    ensures u <= 100
  {
    if |ms| == 0 then 0 else RoundedPercentage(Successful(ms), |ms|)
  }

  /** round(100 * part / whole) with halves rounded up, over exact rationals. */
  function RoundedPercentage(part: nat, whole: nat): (u: nat)
    requires 0 < whole && part <= whole
    ensures 2 * whole * u - whole <= 200 * part < 2 * whole * u + whole
    ensures u <= 100
  {
    var u := (200 * part + whole) / (2 * whole);
    var rest := (200 * part + whole) % (2 * whole);
    assert 200 * part + whole == 2 * whole * u + rest && 0 <= rest < 2 * whole;
    assert whole * (2 * u) < whole * 202 by {
      assert 2 * whole * u <= 201 * whole;
    }
    Cancel(whole, 2 * u, 202);
    u
  }

  /** Multiplying by a positive number keeps the order. */
  lemma Cancel(w: int, a: int, b: int)
    requires w > 0
    ensures w * a <= w * b <==> a <= b
    ensures w * a < w * b <==> a < b
  {
    assert w * b - w * a == w * (b - a);
  }

  /** All successes give 100, none gives 0. */
  lemma UptimeExtremes(ms: seq<Measurement>)
    requires |ms| > 0
    ensures (forall i | 0 <= i < |ms| :: ms[i].status == SUCCESS) ==> CalculateUptime(ms) == 100
    ensures (forall i | 0 <= i < |ms| :: ms[i].status != SUCCESS) ==> CalculateUptime(ms) == 0
  {
    if forall i | 0 <= i < |ms| :: ms[i].status == SUCCESS {
      assert Successful(ms) == |ms|;
      PercentageExtremes(|ms|);
    }
    if forall i | 0 <= i < |ms| :: ms[i].status != SUCCESS {
      assert Successful(ms) == 0;
      PercentageExtremes(|ms|);
    }
  }

  /** The whole is 100 percent, nothing is 0 percent. */
  lemma PercentageExtremes(whole: nat)
    requires whole > 0
    ensures RoundedPercentage(whole, whole) == 100 && RoundedPercentage(0, whole) == 0
  {
    var w: int := whole;
    var full: int := RoundedPercentage(whole, whole);
    var none: int := RoundedPercentage(0, whole);
    assert 2 * w * full - w == w * (2 * full - 1) && 2 * w * full + w == w * (2 * full + 1);
    Cancel(w, 2 * full - 1, 200);
    Cancel(w, 200, 2 * full + 1);
    assert 2 * w * none - w == w * (2 * none - 1);
    Cancel(w, 2 * none - 1, 0);
  }

  /** `latestStatus`: unknown without measurements, otherwise from the newest one. */
  datatype Status = Up | Down | Unknown

  function LatestStatus(window: seq<Measurement>): (s: Status)
    ensures s == Unknown <==> window == []
    ensures s == Up <==> window != [] && window[0].status == SUCCESS
    ensures s == Down <==> window != [] && window[0].status != SUCCESS
  {
    if window == [] then Unknown else if window[0].status == SUCCESS then Up else Down
  }

  function Timestamp(m: Measurement): int {
    m.timestamp
  }

  /** Measurements ordered newest first, as `orderBy(desc(measurements.timestamp))` returns them. */
  predicate NewestFirst(ms: seq<Measurement>) {
    Seqs.Descending(ms, Timestamp)
  }

  /** The measurements of one monitor taken at or after `cutoff`, in the order of `log`. */
  function Window(log: seq<Measurement>, monitorId: string, cutoff: int): (w: seq<Measurement>)
    ensures forall i | 0 <= i < |w| :: w[i] in log && w[i].monitorId == monitorId && w[i].timestamp >= cutoff
    ensures forall i | 0 <= i < |log| && log[i].monitorId == monitorId && log[i].timestamp >= cutoff :: log[i] in w
    ensures Seqs.IsSubsequence(w, log)
  {
    Seqs.Filter(log, (m: Measurement) => m.monitorId == monitorId && m.timestamp >= cutoff)
  }

  /** A window of a newest-first log is newest first, so its head is the latest measurement of that monitor in it. */
  lemma WindowNewestFirst(log: seq<Measurement>, monitorId: string, cutoff: int)
    requires NewestFirst(log)
    ensures NewestFirst(Window(log, monitorId, cutoff))
    ensures var w := Window(log, monitorId, cutoff);
      w != [] ==> forall i | 0 <= i < |w| :: w[0].timestamp >= w[i].timestamp
  {
    Seqs.FilterDescending(log, (m: Measurement) => m.monitorId == monitorId && m.timestamp >= cutoff, Timestamp);
    var w := Window(log, monitorId, cutoff);
    forall i | 0 <= i < |w| ensures w[0].timestamp >= w[i].timestamp {
      if i > 0 {
        assert Timestamp(w[0]) >= Timestamp(w[i]);
      }
    }
  }

  /** `MonitorWithStatus`: the monitor row with its status, uptimes and mean latency. */
  datatype MonitorWithStatus = MonitorWithStatus(
    monitor: Monitor,
    latestStatus: Status,
    uptime24h: nat,
    uptime30d: Option<nat>,
    avgLatency: Option<int>)

  /** `Math.round(sum / n)` of the latencies, 0 without measurements; halves round up. */
  function AverageLatency(ms: seq<Measurement>): (avg: int)
    ensures |ms| == 0 ==> avg == 0
    ensures |ms| > 0 ==> 2 * |ms| * avg - |ms| <= 2 * LatencySum(ms) < 2 * |ms| * avg + |ms|
  {
    if |ms| == 0 then 0
    else
      var n := |ms|;
      var avg := (2 * LatencySum(ms) + n) / (2 * n);
      var rest := (2 * LatencySum(ms) + n) % (2 * n);
      assert 2 * LatencySum(ms) + n == 2 * n * avg + rest && 0 <= rest < 2 * n;
      avg
  }

  function LatencySum(ms: seq<Measurement>): int {
    if ms == [] then 0 else ms[0].latency + LatencySum(ms[1..])
  }

  /**
   * `getMonitors()`: every monitor, in table order, with the status and
   * uptime of its last 24 hours; `log` is the measurements table newest first.
   */
  function GetMonitors(all: seq<Monitor>, log: seq<Measurement>, cutoff24h: int): (r: seq<MonitorWithStatus>)
    ensures |r| == |all|
    ensures forall i | 0 <= i < |r| ::
      var w := Window(log, all[i].id, cutoff24h);
      r[i] == MonitorWithStatus(all[i], LatestStatus(w), CalculateUptime(w), None, None)
  {
    seq(|all|, i requires 0 <= i < |all| =>
      var w := Window(log, all[i].id, cutoff24h);
      MonitorWithStatus(all[i], LatestStatus(w), CalculateUptime(w), None, None))
  }

  function PublicSummary(monitor: Monitor, log: seq<Measurement>, cutoff24h: int, cutoff30d: int): MonitorWithStatus {
    var w := Window(log, monitor.id, cutoff24h);
    MonitorWithStatus(monitor, LatestStatus(w), CalculateUptime(w),
                      Some(CalculateUptime(Window(log, monitor.id, cutoff30d))), Some(AverageLatency(w)))
  }

  /**
   * `getPublicMonitors()`: the public monitors only, in table order, each
   * with its 24-hour status, uptime and mean latency and its 30-day uptime.
   */
  function GetPublicMonitors(all: seq<Monitor>, log: seq<Measurement>, cutoff24h: int, cutoff30d: int): (r: seq<MonitorWithStatus>)
    ensures forall i | 0 <= i < |r| :: r[i].monitor.public && r[i].monitor in all
    ensures forall i | 0 <= i < |r| :: r[i] == PublicSummary(r[i].monitor, log, cutoff24h, cutoff30d)
    ensures |r| == |PublicRows(all)| && forall i | 0 <= i < |r| :: r[i].monitor == PublicRows(all)[i]
  {
    var pub := PublicRows(all);
    seq(|pub|, i requires 0 <= i < |pub| => PublicSummary(pub[i], log, cutoff24h, cutoff30d))
  }

  /** `where(eq(monitors.public, true))`: the public rows, in table order, each as often as in the table. */
  function PublicRows(all: seq<Monitor>): (pub: seq<Monitor>)
    ensures forall i | 0 <= i < |pub| :: pub[i].public && pub[i] in all
    ensures forall i | 0 <= i < |all| && all[i].public :: all[i] in pub
    ensures Seqs.IsSubsequence(pub, all)
  {
    Seqs.Filter(all, (m: Monitor) => m.public)
  }

  /** `MonitorWithMeasurements` */
  datatype MonitorWithMeasurements = MonitorWithMeasurements(monitor: Monitor, measurements: seq<Measurement>, uptime24h: nat, uptime30d: nat)

  /** `getMonitorById(id)`: None when no row has that id. */
  function GetMonitorById(all: seq<Monitor>, id: string, log: seq<Measurement>, cutoff24h: int, cutoff30d: int): (r: Option<MonitorWithMeasurements>)
    ensures r.None? <==> forall i | 0 <= i < |all| :: all[i].id != id
    ensures r.Some? ==> r.value.monitor.id == id && r.value.monitor in all
    ensures r.Some? ==> IndexOf(all, id).Some? && r.value.monitor == all[IndexOf(all, id).value]
    ensures r.Some? ==> r.value.measurements == Window(log, id, cutoff24h)
    ensures r.Some? ==> r.value.uptime24h == CalculateUptime(Window(log, id, cutoff24h))
    ensures r.Some? ==> r.value.uptime30d == CalculateUptime(Window(log, id, cutoff30d))
  {
    match IndexOf(all, id)
    case None => None
    case Some(k) =>
      var w := Window(log, id, cutoff24h);
      Some(MonitorWithMeasurements(all[k], w, CalculateUptime(w), CalculateUptime(Window(log, id, cutoff30d))))
  }

  /** The position of the first row with this id: `where(eq(monitors.id, id)).limit(1)`. */
  function IndexOf(rows: seq<Monitor>, id: string): (k: Option<nat>)
    ensures k.None? <==> forall i | 0 <= i < |rows| :: rows[i].id != id
    ensures k.Some? ==> k.value < |rows| && rows[k.value].id == id && forall i | 0 <= i < k.value :: rows[i].id != id
  {
    if rows == [] then None
    else if rows[0].id == id then Some(0)
    else match IndexOf(rows[1..], id)
      case None => None
      case Some(k) => Some(k + 1)
  }

  // ---------------------------------------------------------------------
  // The monitors table

  const NOT_FOUND := "Monitor not found"

  /** What create, update and toggle throw: the schema's issues, or "Monitor not found". */
  datatype MonitorError =
    | ValidationFailed(fields: seq<Field>)
    | NotFound

  /**
   * The row `createMonitor` inserts, as written: the validated fields,
   * active, private, and no webhook, because the insert leaves
   * `discord_webhook` out.
   */
  function NewRowAsWritten(form: MonitorForm, id: string, locationsJson: string, now: string): (m: Monitor)
    requires IntervalValid(form.interval)
    ensures m.id == id && m.name == form.name && m.url == form.url && m.interval as real == form.interval
    ensures m.locations == locationsJson && m.active && !m.public
    ensures m.discordWebhook.None? && m.lastCheckedAt.None? && m.createdAt == now && m.updatedAt == now
  {
    Monitor(id, form.name, form.url, form.interval.Floor, locationsJson, None, true, false, None, now, now)
  }

  /** The row `createMonitor` inserts once the validated webhook is stored with the other fields. */
  function NewRow(form: MonitorForm, id: string, locationsJson: string, now: string): (m: Monitor)
    requires IntervalValid(form.interval)
    ensures m.id == id && m.name == form.name && m.url == form.url && m.interval as real == form.interval
    ensures m.locations == locationsJson && m.active && !m.public
    ensures m.discordWebhook == form.discordWebhook
    ensures m.lastCheckedAt.None? && m.createdAt == now && m.updatedAt == now
    ensures m == NewRowAsWritten(form, id, locationsJson, now).(discordWebhook := form.discordWebhook)
  {
    Monitor(id, form.name, form.url, form.interval.Floor, locationsJson, form.discordWebhook, true, false, None, now, now)
  }

  /** The row `updateMonitor` writes back, as written: the webhook it validated is not among the fields it sets. */
  function UpdatedRowAsWritten(row: Monitor, form: MonitorForm, locationsJson: string, now: string): (m: Monitor)
    requires IntervalValid(form.interval)
    ensures m.discordWebhook == row.discordWebhook
    ensures m == row.(name := form.name, url := form.url, interval := m.interval, locations := locationsJson, updatedAt := now)
    ensures m.interval as real == form.interval
  {
    row.(name := form.name, url := form.url, interval := form.interval.Floor, locations := locationsJson, updatedAt := now)
  }

  /** The row `updateMonitor` writes back once the webhook is set with the other form fields. */
  function UpdatedRow(row: Monitor, form: MonitorForm, locationsJson: string, now: string): (m: Monitor)
    requires IntervalValid(form.interval)
    ensures m.discordWebhook == form.discordWebhook && m.interval as real == form.interval
    ensures m.id == row.id && m.active == row.active && m.public == row.public
    ensures m.lastCheckedAt == row.lastCheckedAt && m.createdAt == row.createdAt
    ensures m == UpdatedRowAsWritten(row, form, locationsJson, now).(discordWebhook := form.discordWebhook)
  {
    row.(name := form.name, url := form.url, interval := form.interval.Floor, locations := locationsJson,
         discordWebhook := form.discordWebhook, updatedAt := now)
  }

  /**
   * The `monitors` table, in insertion order, with unique ids. `stringify`
   * is `JSON.stringify` of the selected locations; `now` the ISO timestamp
   * of the call.
   */
  class MonitorTable {
    var rows: seq<Monitor>

    predicate Valid()
      reads this
    {
      forall i, j | 0 <= i < j < |rows| :: rows[i].id != rows[j].id
    }

    constructor ()
      ensures rows == [] && Valid()
    {
      rows := [];
    }

    /**
     * `createMonitor(data)`: validate, then insert one new active, private
     * row carrying the form's fields and webhook. `id` is the key the
     * database generates for the row, so no row has it yet.
     */
    method CreateMonitor(form: MonitorForm, isUrl: string -> bool, stringify: seq<SelectedLocation> -> string,
                         id: string, now: string)
      returns (r: Result<Monitor, MonitorError>)
      requires Valid() && IndexOf(rows, id).None?
      modifies this
      ensures Valid()
      ensures ValidateForm(form, isUrl).Err? ==> r == Err(ValidationFailed(Issues(form, isUrl))) && rows == old(rows)
      ensures ValidateForm(form, isUrl).Ok? ==>
        r == Ok(NewRow(form, id, stringify(form.locations), now)) && rows == old(rows) + [r.value]
    {
      var validated := ValidateForm(form, isUrl);
      if validated.Err? {
        return Err(ValidationFailed(validated.error));
      }
      var row := NewRow(validated.value, id, stringify(validated.value.locations), now);
      rows := rows + [row];
      r := Ok(row);
    }

    /**
     * `updateMonitor(id, data)`: validate, then overwrite the name, URL,
     * interval, locations, webhook and update time of the row; nothing else
     * changes.
     */
    method UpdateMonitor(id: string, form: MonitorForm, isUrl: string -> bool, stringify: seq<SelectedLocation> -> string,
                         now: string)
      returns (r: Result<Monitor, MonitorError>)
      requires Valid()
      modifies this
      ensures Valid()
      ensures ValidateForm(form, isUrl).Err? ==> r == Err(ValidationFailed(Issues(form, isUrl))) && rows == old(rows)
      ensures ValidateForm(form, isUrl).Ok? && IndexOf(old(rows), id).None? ==> r == Err(NotFound) && rows == old(rows)
      ensures ValidateForm(form, isUrl).Ok? && IndexOf(old(rows), id).Some? ==>
        var k := IndexOf(old(rows), id).value;
        && r == Ok(UpdatedRow(old(rows)[k], form, stringify(form.locations), now))
        && rows == old(rows)[k := r.value]
    {
      var validated := ValidateForm(form, isUrl);
      if validated.Err? {
        return Err(ValidationFailed(validated.error));
      }
      var k := IndexOf(rows, id);
      if k.None? {
        return Err(NotFound);
      }
      var row := UpdatedRow(rows[k.value], validated.value, stringify(validated.value.locations), now);
      rows := rows[k.value := row];
      r := Ok(row);
    }

    /** `toggleMonitorActive(id)`: negate `active` and stamp `updatedAt`; nothing else changes. */
    method ToggleMonitorActive(id: string, now: string) returns (r: Result<Monitor, MonitorError>)
      requires Valid()
      modifies this
      ensures Valid()
      ensures IndexOf(old(rows), id).None? ==> r == Err(NotFound) && rows == old(rows)
      ensures IndexOf(old(rows), id).Some? ==>
        var k := IndexOf(old(rows), id).value;
        && r == Ok(old(rows)[k].(active := !old(rows)[k].active, updatedAt := now))
        && rows == old(rows)[k := r.value]
    {
      var k := IndexOf(rows, id);
      if k.None? {
        return Err(NotFound);
      }
      var row := rows[k.value].(active := !rows[k.value].active, updatedAt := now);
      rows := rows[k.value := row];
      r := Ok(row);
    }
  }

  /** The row a toggle returns differs from the old one in `active` and `updatedAt` only; toggling twice restores `active`. */
  lemma ToggleChangesOnlyActive(m: Monitor, now: string, later: string)
    ensures var t := m.(active := !m.active, updatedAt := now);
      t.active != m.active && t.(active := m.active, updatedAt := m.updatedAt) == m
      && t.(active := !t.active, updatedAt := later).active == m.active
  {
  }

  /**
   * As written, the webhook a form carries is validated but not stored: a
   * monitor created through the form has none, so the alert engine never
   * raises an alert for it, and an update never gives it one.
   */
  lemma CreatedMonitorNeverAlerts(form: MonitorForm, id: string, locationsJson: string, now: string,
                                  m: Measurement, history: seq<Measurement>, alertLog: seq<Alert>, at: int, later: string)
    requires IntervalValid(form.interval)
    ensures !Alerts.HasWebhook(NewRowAsWritten(form, id, locationsJson, now))
    ensures !Alerts.HasWebhook(UpdatedRowAsWritten(NewRowAsWritten(form, id, locationsJson, now), form, locationsJson, later))
    ensures Alerts.CheckAndAlert(NewRowAsWritten(form, id, locationsJson, now), m, history, alertLog, at) == []
  {
    Alerts.CheckAndAlertRules(NewRowAsWritten(form, id, locationsJson, now), m, history, alertLog, at);
  }

  /**
   * With the webhook stored, a monitor alerts exactly when its form gave a
   * non-empty webhook: three failures in a row, outside the debounce window,
   * then raise `down`.
   */
  lemma CreatedMonitorAlerts(form: MonitorForm, id: string, locationsJson: string, now: string,
                             m: Measurement, history: seq<Measurement>, alertLog: seq<Alert>, at: int)
    requires IntervalValid(form.interval)
    ensures Alerts.HasWebhook(NewRow(form, id, locationsJson, now)) <==>
      form.discordWebhook.Some? && form.discordWebhook.value != ""
    ensures var row := NewRow(form, id, locationsJson, now);
      && Alerts.HasWebhook(row) && m.status == FAILED
      && Alerts.LeadingFailures(Alerts.RecentMeasurements(history, id, Alerts.RECENT_MEASUREMENTS_LIMIT))
           >= Alerts.CONSECUTIVE_FAILURES_THRESHOLD
      && !Alerts.HasRecentAlert(Alerts.RecentAlerts(alertLog, id, at), Alerts.DOWN)
      ==> Alerts.DOWN in Alerts.Kinds(Alerts.CheckAndAlert(row, m, history, alertLog, at))
  {
    Alerts.CheckAndAlertRules(NewRow(form, id, locationsJson, now), m, history, alertLog, at);
  }
}
