/**
 * The alert decision engine: from a monitor's newest measurements and its
 * alerts inside the debounce window, decide which of `down`, `up` and
 * `latency_spike` to raise, and build the Discord webhook request for each.
 * Storage reads become inputs (the monitor's measurement history, newest
 * first, and its alert log); inserts and POSTs become the returned list of
 * dispatches.
 */
module Alerts {
  import opened Wrappers
  import opened Schema
  import opened Text
  import Seqs

  const ALERT_DEBOUNCE_MS: int := 5 * 60 * 1000
  const CONSECUTIVE_FAILURES_THRESHOLD: nat := 3
  const LATENCY_THRESHOLD_MS: int := 1000
  /** How many measurements `checkAndAlert` loads. */
  const RECENT_MEASUREMENTS_LIMIT: nat := 5

  const DOWN: string := "down"
  const UP: string := "up"
  const LATENCY_SPIKE: string := "latency_spike"
  const CERT_EXPIRING: string := "cert_expiring"

  const DOWN_COLOR: int := 0xef4444
  const UP_COLOR: int := 0x10b981
  const LATENCY_SPIKE_COLOR: int := 0xf59e0b

  const RED_CIRCLE: string := "\U{1F534}"
  const GREEN_CIRCLE: string := "\U{1F7E2}"
  const WARNING_SIGN: string := "\U{26A0}\U{FE0F}"
  const SCROLL: string := "\U{1F4DC}"
  const BELL: string := "\U{1F514}"

  // ---------------------------------------------------------------------
  // Counting the current failure streak

  /** Length of the longest prefix of `ms` whose entries all failed. */
  function LeadingFailures(ms: seq<Measurement>): (n: nat)
    ensures n <= |ms|
    ensures forall i | 0 <= i < n :: ms[i].status == FAILED
    ensures n < |ms| ==> ms[n].status != FAILED
    ensures n == |ms| <==> forall i | 0 <= i < |ms| :: ms[i].status == FAILED
  {
    if ms == [] || ms[0].status != FAILED then 0 else 1 + LeadingFailures(ms[1..])
  }

  /** `countConsecutiveFailures`: count failures from the front, stopping at the first other status. */
  method CountConsecutiveFailures(ms: seq<Measurement>) returns (count: nat)
    ensures count == LeadingFailures(ms)
  {
    count := 0;
    var i := 0;
    while i < |ms|
      invariant count == i <= |ms|
      invariant forall k | 0 <= k < i :: ms[k].status == FAILED
    {
      if ms[i].status == FAILED {
        count := count + 1;
      } else {
        break;
      }
      i := i + 1;
    }
  }

  // ---------------------------------------------------------------------
  // Storage windows

  /** `getRecentAlerts(monitorId, ALERT_DEBOUNCE_MS)`: the monitor's alerts created at or after the cutoff. */
  function RecentAlerts(log: seq<Alert>, monitorId: string, now: int): (r: seq<Alert>)
    ensures forall i | 0 <= i < |r| ::
      (r[i] in log && r[i].monitorId == monitorId && r[i].createdAt >= now - ALERT_DEBOUNCE_MS)
    ensures forall a | a in log && a.monitorId == monitorId && a.createdAt >= now - ALERT_DEBOUNCE_MS :: a in r
  {
    Seqs.Filter(log, (a: Alert) => a.monitorId == monitorId && a.createdAt >= now - ALERT_DEBOUNCE_MS)
  }

  /**
   * `getRecentMeasurements(monitorId, limit)`, given the stored measurements
   * newest first: the first `limit` that belong to the monitor.
   */
  function RecentMeasurements(history: seq<Measurement>, monitorId: string, limit: nat): (r: seq<Measurement>)
    ensures |r| <= limit
    ensures forall i | 0 <= i < |r| :: r[i] in history && r[i].monitorId == monitorId
    ensures |r| == Seqs.Min(limit, |MonitorRows(history, monitorId)|)
    ensures forall i | 0 <= i < |r| :: r[i] == MonitorRows(history, monitorId)[i]
  {
    Seqs.Take(MonitorRows(history, monitorId), limit)
  }

  /** `where(eq(measurements.monitorId, monitorId))`: that monitor's rows, in stored order. */
  function MonitorRows(history: seq<Measurement>, monitorId: string): (rows: seq<Measurement>)
    ensures forall i | 0 <= i < |rows| :: rows[i] in history && rows[i].monitorId == monitorId
    ensures forall i | 0 <= i < |history| && history[i].monitorId == monitorId :: history[i] in rows
    ensures Seqs.IsSubsequence(rows, history)
  {
    Seqs.Filter(history, (m: Measurement) => m.monitorId == monitorId)
  }

  predicate HasRecentAlert(recentAlerts: seq<Alert>, kind: string) {
    exists i | 0 <= i < |recentAlerts| :: recentAlerts[i].kind == kind
  }

  /** The debounce cutoff is inclusive: an alert exactly ALERT_DEBOUNCE_MS old still suppresses. */
  lemma DebounceBoundary(a: Alert, now: int)
    ensures a.createdAt == now - ALERT_DEBOUNCE_MS ==> HasRecentAlert(RecentAlerts([a], a.monitorId, now), a.kind)
    ensures a.createdAt < now - ALERT_DEBOUNCE_MS ==> RecentAlerts([a], a.monitorId, now) == []
  {
    var r := RecentAlerts([a], a.monitorId, now);
    if a.createdAt == now - ALERT_DEBOUNCE_MS {
      assert a in r;
    }
  }

  // ---------------------------------------------------------------------
  // Messages, emoji and the webhook payload

  function DownMessage(monitor: Monitor, m: Measurement, failures: nat): string {
    "Monitor \"" + monitor.name + "\" is DOWN\nURL: " + monitor.url + "\nLocation: " + m.location
    + "\nError: " + m.errorMessage.GetOr("Unknown error") + "\nConsecutive failures: " + NatToString(failures)
  }

  function UpMessage(monitor: Monitor, m: Measurement): string {
    "Monitor \"" + monitor.name + "\" is BACK UP\nURL: " + monitor.url + "\nLocation: " + m.location
    + "\nLatency: " + IntToString(m.latency) + "ms"
  }

  function LatencyMessage(monitor: Monitor, m: Measurement): string {
    "High latency detected for \"" + monitor.name + "\"\nURL: " + monitor.url + "\nLocation: " + m.location
    + "\nLatency: " + IntToString(m.latency) + "ms (threshold: " + IntToString(LATENCY_THRESHOLD_MS) + "ms)"
  }

  /** `getAlertEmoji` */
  function AlertEmoji(kind: string): (e: string)
    ensures e in {RED_CIRCLE, GREEN_CIRCLE, WARNING_SIGN, SCROLL, BELL}
  {
    if kind == DOWN then RED_CIRCLE
    else if kind == UP then GREEN_CIRCLE
    else if kind == LATENCY_SPIKE then WARNING_SIGN
    else if kind == CERT_EXPIRING then SCROLL
    else BELL
  }

  /** The four known types get four different emoji; everything else, "" included, gets the bell. */
  lemma AlertEmojiDistinguishesKnownTypes(a: string, b: string)
    ensures AlertEmoji(a) == BELL <==> a !in {DOWN, UP, LATENCY_SPIKE, CERT_EXPIRING}
    ensures a in {DOWN, UP, LATENCY_SPIKE, CERT_EXPIRING} && AlertEmoji(a) == AlertEmoji(b) ==> a == b
  {
  }

  /** Title: the emoji, a space, then the type upper-cased with its first `_` turned into a space. */
  function AlertTitle(kind: string): string {
    AlertEmoji(kind) + " " + ReplaceFirst(Upper(kind), '_', ' ')
  }

  lemma {:induction false} UpperKeepsFirstUnderscore(s: string)
    ensures FirstIndexOf(Upper(s), '_') == FirstIndexOf(s, '_')
  {
    if s != [] {
      assert Upper(s)[1..] == Upper(s[1..]);
      UpperKeepsFirstUnderscore(s[1..]);
    }
  }

  /**
   * Character by character, the title after "emoji " is the upper-cased type,
   * except that its first underscore (and only that one) became a space.
   */
  lemma AlertTitleShape(kind: string)
    ensures var e := AlertEmoji(kind);
      && |AlertTitle(kind)| == |e| + 1 + |kind|
      && AlertTitle(kind)[..|e| + 1] == e + " "
      && forall i | 0 <= i < |kind| ::
           AlertTitle(kind)[|e| + 1 + i] == (if i == FirstIndexOf(kind, '_') then ' ' else UpperChar(kind[i]))
  {
    UpperKeepsFirstUnderscore(kind);
  }

  lemma LatencySpikeTitle()
    ensures AlertTitle(LATENCY_SPIKE) == WARNING_SIGN + " " + "LATENCY" + " " + "SPIKE"
  {
    assert LATENCY_SPIKE == "latency" + "_" + "spike";
    TwoWordTitle("latency", "spike", "LATENCY", "SPIKE");
  }

  lemma TitleExample(kind: string, shown: string)
    requires |shown| == |kind|
    requires forall i | 0 <= i < |kind| :: shown[i] == (if i == FirstIndexOf(kind, '_') then ' ' else UpperChar(kind[i]))
    ensures AlertTitle(kind) == AlertEmoji(kind) + " " + shown
  {
    UpperKeepsFirstUnderscore(kind);
    assert ReplaceFirst(Upper(kind), '_', ' ') == shown;
  }

  /** A type made of two words joined by `_` is shown as the two words upper-cased, with a space between them. */
  lemma TwoWordTitle(a: string, b: string, upperA: string, upperB: string)
    requires '_' !in a
    requires |upperA| == |a| && forall i | 0 <= i < |a| :: upperA[i] == UpperChar(a[i])
    requires |upperB| == |b| && forall i | 0 <= i < |b| :: upperB[i] == UpperChar(b[i])
    ensures AlertTitle(a + "_" + b) == AlertEmoji(a + "_" + b) + " " + upperA + " " + upperB
  {
    var kind := a + "_" + b;
    var shown := upperA + " " + upperB;
    assert kind[|a|] == '_' && forall i | 0 <= i < |a| :: kind[i] == a[i];
    assert FirstIndexOf(kind, '_') == |a|;
    forall i | 0 <= i < |kind|
      ensures shown[i] == (if i == FirstIndexOf(kind, '_') then ' ' else UpperChar(kind[i]))
    {
      if i > |a| {
        assert kind[i] == b[i - |a| - 1] && shown[i] == upperB[i - |a| - 1];
      }
    }
    TitleExample(kind, shown);
  }

  datatype Embed = Embed(title: string, description: string, color: int, timestamp: int)
  datatype DiscordPayload = DiscordPayload(embeds: seq<Embed>)
  /** The POST that `sendDiscordAlert` issues; its delivery result is logged and dropped. */
  datatype WebhookPost = WebhookPost(url: string, payload: DiscordPayload)

  /** `sendDiscordAlert`: one embed carrying the title, the message, the colour and the creation time. */
  function SendDiscordAlert(webhookUrl: string, alert: Alert, color: int): (p: WebhookPost)
    ensures p.url == webhookUrl && |p.payload.embeds| == 1
    ensures p.payload.embeds[0] == Embed(AlertTitle(alert.kind), alert.message, color, alert.createdAt)
  {
    WebhookPost(webhookUrl, DiscordPayload([Embed(AlertTitle(alert.kind), alert.message, color, alert.createdAt)]))
  }

  // ---------------------------------------------------------------------
  // The decision rules

  datatype Draft = Draft(kind: string, message: string, color: int)

  /** `!monitor.discordWebhook` is false: a webhook is set and is not "". */
  predicate HasWebhook(monitor: Monitor) {
    monitor.discordWebhook.Some? && monitor.discordWebhook.value != ""
  }

  /** `handleFailure` */
  function HandleFailure(monitor: Monitor, m: Measurement, recent: seq<Measurement>, recentAlerts: seq<Alert>): (r: seq<Draft>)
    ensures |r| <= 1
    ensures r != [] <==> LeadingFailures(recent) >= CONSECUTIVE_FAILURES_THRESHOLD && !HasRecentAlert(recentAlerts, DOWN)
    ensures r != [] ==> r[0] == Draft(DOWN, DownMessage(monitor, m, LeadingFailures(recent)), DOWN_COLOR)
  {
    var failures := LeadingFailures(recent);
    if failures >= CONSECUTIVE_FAILURES_THRESHOLD && !HasRecentAlert(recentAlerts, DOWN) then
      [Draft(DOWN, DownMessage(monitor, m, failures), DOWN_COLOR)]
    else []
  }

  /** The recovery pattern: entry 1 failed and every entry of `slice(1, 4)` failed. */
  predicate WasDown(recent: seq<Measurement>) {
    && |recent| > 1
    && recent[1].status == FAILED
    && forall i | 1 <= i < Seqs.Min(|recent|, CONSECUTIVE_FAILURES_THRESHOLD + 1) :: recent[i].status == FAILED
  }

  /** `handleSuccess` */
  function HandleSuccess(monitor: Monitor, m: Measurement, recent: seq<Measurement>, recentAlerts: seq<Alert>): (r: seq<Draft>)
    ensures |r| <= 1
    ensures r != [] <==> WasDown(recent) && !HasRecentAlert(recentAlerts, UP)
    ensures r != [] ==> r[0] == Draft(UP, UpMessage(monitor, m), UP_COLOR)
  {
    if WasDown(recent) && !HasRecentAlert(recentAlerts, UP) then
      [Draft(UP, UpMessage(monitor, m), UP_COLOR)]
    else []
  }

  /** `handleLatencySpike` */
  function HandleLatencySpike(monitor: Monitor, m: Measurement, recentAlerts: seq<Alert>): (r: seq<Draft>)
    ensures |r| <= 1
    ensures r != [] <==> m.latency > LATENCY_THRESHOLD_MS && !HasRecentAlert(recentAlerts, LATENCY_SPIKE)
    ensures r != [] ==> r[0] == Draft(LATENCY_SPIKE, LatencyMessage(monitor, m), LATENCY_SPIKE_COLOR)
  {
    if m.latency > LATENCY_THRESHOLD_MS && !HasRecentAlert(recentAlerts, LATENCY_SPIKE) then
      [Draft(LATENCY_SPIKE, LatencyMessage(monitor, m), LATENCY_SPIKE_COLOR)]
    else []
  }

  /** What `createAndSendAlert` does with one decision: the inserted row and the webhook POST. */
  datatype Dispatch = Dispatch(alert: Alert, post: Option<WebhookPost>)

  function CreateAndSendAlert(monitor: Monitor, d: Draft, now: int): (out: Dispatch)
    ensures out.alert.monitorId == monitor.id && out.alert.kind == d.kind && out.alert.message == d.message
    ensures !out.alert.acknowledged && out.alert.createdAt == now
    ensures out.post.Some? <==> HasWebhook(monitor)
    ensures out.post.Some? ==> out.post.value == SendDiscordAlert(monitor.discordWebhook.value, out.alert, d.color)
  {
    var alert := Alert(monitor.id, d.kind, d.message, false, now);
    Dispatch(alert, if HasWebhook(monitor) then Some(SendDiscordAlert(monitor.discordWebhook.value, alert, d.color)) else None)
  }

  function Kinds(out: seq<Dispatch>): (ks: seq<string>)
    ensures |ks| == |out| && forall i | 0 <= i < |out| :: ks[i] == out[i].alert.kind
  {
    seq(|out|, i requires 0 <= i < |out| => out[i].alert.kind)
  }

  function DraftKinds(drafts: seq<Draft>): (ks: seq<string>)
    ensures |ks| == |drafts| && forall i | 0 <= i < |drafts| :: ks[i] == drafts[i].kind
  {
    seq(|drafts|, i requires 0 <= i < |drafts| => drafts[i].kind)
  }

  /** The decisions of `checkAndAlert`, before anything is stored or sent. */
  function Decide(monitor: Monitor, m: Measurement, recent: seq<Measurement>, recentAlerts: seq<Alert>): seq<Draft> {
    if !HasWebhook(monitor) then []
    else if m.status == FAILED then HandleFailure(monitor, m, recent, recentAlerts)
    else if m.status == SUCCESS then HandleSuccess(monitor, m, recent, recentAlerts) + HandleLatencySpike(monitor, m, recentAlerts)
    else []
  }

  /**
   * The three rules, each as an if-and-only-if; at most one decision of each
   * type, at most two in all, each with the colour of its type.
   */
  lemma DecideRules(monitor: Monitor, m: Measurement, recent: seq<Measurement>, recentAlerts: seq<Alert>)
    ensures
      var drafts := Decide(monitor, m, recent, recentAlerts);
      && (DOWN in DraftKinds(drafts) <==>
            HasWebhook(monitor) && m.status == FAILED
            && LeadingFailures(recent) >= CONSECUTIVE_FAILURES_THRESHOLD && !HasRecentAlert(recentAlerts, DOWN))
      && (UP in DraftKinds(drafts) <==>
            HasWebhook(monitor) && m.status == SUCCESS && WasDown(recent) && !HasRecentAlert(recentAlerts, UP))
      && (LATENCY_SPIKE in DraftKinds(drafts) <==>
            HasWebhook(monitor) && m.status == SUCCESS && m.latency > LATENCY_THRESHOLD_MS
            && !HasRecentAlert(recentAlerts, LATENCY_SPIKE))
      && |drafts| <= 2
      && (forall i | 0 <= i < |drafts| :: drafts[i].kind in {DOWN, UP, LATENCY_SPIKE} && drafts[i].color == ColorOf(drafts[i].kind))
      && (forall i, j | 0 <= i < j < |drafts| :: drafts[i].kind != drafts[j].kind)
  {
    var drafts := Decide(monitor, m, recent, recentAlerts);
    var ks := DraftKinds(drafts);
    KindsDiffer();
    if HasWebhook(monitor) && m.status == SUCCESS {
      SuccessRules(monitor, m, recent, recentAlerts);
    } else if HasWebhook(monitor) && m.status == FAILED {
      assert ks == if LeadingFailures(recent) >= CONSECUTIVE_FAILURES_THRESHOLD && !HasRecentAlert(recentAlerts, DOWN) then [DOWN] else [];
    }
  }

  /** The alert types, and the two measurement statuses, are different strings. */
  lemma KindsDiffer()
    ensures DOWN != UP && DOWN != LATENCY_SPIKE && UP != LATENCY_SPIKE && SUCCESS != FAILED
  {
  }

  /** After a successful check: an `up` decision, a `latency_spike` decision, both or none. */
  lemma SuccessRules(monitor: Monitor, m: Measurement, recent: seq<Measurement>, recentAlerts: seq<Alert>)
    requires HasWebhook(monitor) && m.status == SUCCESS
    ensures
      var drafts := Decide(monitor, m, recent, recentAlerts);
      && DraftKinds(drafts)
         == (if WasDown(recent) && !HasRecentAlert(recentAlerts, UP) then [UP] else [])
          + (if m.latency > LATENCY_THRESHOLD_MS && !HasRecentAlert(recentAlerts, LATENCY_SPIKE) then [LATENCY_SPIKE] else [])
      && forall i | 0 <= i < |drafts| :: drafts[i].color == ColorOf(drafts[i].kind)
  {
    var drafts := Decide(monitor, m, recent, recentAlerts);
    var su := HandleSuccess(monitor, m, recent, recentAlerts);
    var la := HandleLatencySpike(monitor, m, recentAlerts);
    assert DraftKinds(su) == if WasDown(recent) && !HasRecentAlert(recentAlerts, UP) then [UP] else [];
    assert DraftKinds(la) == if m.latency > LATENCY_THRESHOLD_MS && !HasRecentAlert(recentAlerts, LATENCY_SPIKE) then [LATENCY_SPIKE] else [];
    assert drafts == su + la;
    assert DraftKinds(drafts) == DraftKinds(su) + DraftKinds(la);
  }

  /** One inserted alert, with its webhook POST, per decision, in order. */
  function Dispatches(monitor: Monitor, drafts: seq<Draft>, now: int): (out: seq<Dispatch>)
    ensures |out| == |drafts|
    ensures forall i | 0 <= i < |out| :: out[i] == CreateAndSendAlert(monitor, drafts[i], now)
    ensures Kinds(out) == DraftKinds(drafts)
  {
    seq(|drafts|, i requires 0 <= i < |drafts| => CreateAndSendAlert(monitor, drafts[i], now))
  }

  /**
   * `checkAndAlert(monitor, measurement)` at time `now`, where `history` is
   * the stored measurements newest first and `alertLog` the stored alerts.
   */
  function CheckAndAlert(monitor: Monitor, m: Measurement, history: seq<Measurement>, alertLog: seq<Alert>, now: int): (out: seq<Dispatch>)
    ensures !HasWebhook(monitor) ==> out == []
    ensures forall i | 0 <= i < |out| ::
      && out[i].alert.monitorId == monitor.id && !out[i].alert.acknowledged && out[i].alert.createdAt == now
      && out[i].post.Some? && out[i].post.value.url == monitor.discordWebhook.value
  {
    Dispatches(monitor, Decide(monitor, m, RecentMeasurements(history, monitor.id, RECENT_MEASUREMENTS_LIMIT),
                               RecentAlerts(alertLog, monitor.id, now)), now)
  }

  /**
   * The rules of `checkAndAlert` over the five newest measurements and the
   * alerts inside the debounce window: each type if and only if its
   * condition holds, at most one of each and two in all; nothing without a
   * webhook; every alert unacknowledged, stamped `now`, and posted to the
   * webhook with the colour of its type.
   */
  lemma CheckAndAlertRules(monitor: Monitor, m: Measurement, history: seq<Measurement>, alertLog: seq<Alert>, now: int)
    ensures
      var out := CheckAndAlert(monitor, m, history, alertLog, now);
      var recent := RecentMeasurements(history, monitor.id, RECENT_MEASUREMENTS_LIMIT);
      var recentAlerts := RecentAlerts(alertLog, monitor.id, now);
      && (!HasWebhook(monitor) ==> out == [])
      && (DOWN in Kinds(out) <==>
            HasWebhook(monitor) && m.status == FAILED
            && LeadingFailures(recent) >= CONSECUTIVE_FAILURES_THRESHOLD && !HasRecentAlert(recentAlerts, DOWN))
      && (UP in Kinds(out) <==>
            HasWebhook(monitor) && m.status == SUCCESS && WasDown(recent) && !HasRecentAlert(recentAlerts, UP))
      && (LATENCY_SPIKE in Kinds(out) <==>
            HasWebhook(monitor) && m.status == SUCCESS && m.latency > LATENCY_THRESHOLD_MS
            && !HasRecentAlert(recentAlerts, LATENCY_SPIKE))
      && |out| <= 2
      && (forall i | 0 <= i < |out| :: out[i].alert.kind in {DOWN, UP, LATENCY_SPIKE})
      && (forall i, j | 0 <= i < j < |out| :: out[i].alert.kind != out[j].alert.kind)
      && (forall i | 0 <= i < |out| ::
            && out[i].alert.monitorId == monitor.id
            && !out[i].alert.acknowledged
            && out[i].alert.createdAt == now
            && out[i].post == Some(SendDiscordAlert(monitor.discordWebhook.value, out[i].alert, ColorOf(out[i].alert.kind))))
  {
    var recent := RecentMeasurements(history, monitor.id, RECENT_MEASUREMENTS_LIMIT);
    var recentAlerts := RecentAlerts(alertLog, monitor.id, now);
    var drafts := Decide(monitor, m, recent, recentAlerts);
    DecideRules(monitor, m, recent, recentAlerts);
    var out := Dispatches(monitor, drafts, now);
    assert out == CheckAndAlert(monitor, m, history, alertLog, now);
    assert Kinds(out) == DraftKinds(drafts);
  }

  /** The colour each alert type is sent with. */
  function ColorOf(kind: string): int {
    if kind == DOWN then DOWN_COLOR
    else if kind == UP then UP_COLOR
    else LATENCY_SPIKE_COLOR
  }

  /** A failed measurement never produces `up` or `latency_spike`. */
  lemma FailureRaisesOnlyDown(monitor: Monitor, m: Measurement, history: seq<Measurement>, alertLog: seq<Alert>, now: int)
    requires m.status == FAILED
    ensures forall i | 0 <= i < |CheckAndAlert(monitor, m, history, alertLog, now)| ::
      CheckAndAlert(monitor, m, history, alertLog, now)[i].alert.kind == DOWN
  {
    var out := CheckAndAlert(monitor, m, history, alertLog, now);
    forall i | 0 <= i < |out| ensures out[i].alert.kind == DOWN {
      assert out[i].alert.kind == Kinds(out)[i];
    }
  }

  function StoredAlerts(out: seq<Dispatch>): (r: seq<Alert>)
    ensures |r| == |out| && forall i | 0 <= i < |out| :: r[i] == out[i].alert
  {
    seq(|out|, i requires 0 <= i < |out| => out[i].alert)
  }

  /**
   * Debounce: once the `down` alert of one evaluation at time `now` is
   * stored, any evaluation of the same monitor up to ALERT_DEBOUNCE_MS later
   * raises no second `down` alert, whatever it measures.
   */
  lemma DownIsDebounced(monitor: Monitor, m: Measurement, history: seq<Measurement>, alertLog: seq<Alert>, now: int,
                        m': Measurement, history': seq<Measurement>, later: int)
    requires DOWN in Kinds(CheckAndAlert(monitor, m, history, alertLog, now))
    requires now <= later <= now + ALERT_DEBOUNCE_MS
    ensures DOWN !in Kinds(CheckAndAlert(monitor, m', history',
                                         alertLog + StoredAlerts(CheckAndAlert(monitor, m, history, alertLog, now)), later))
  {
    var out := CheckAndAlert(monitor, m, history, alertLog, now);
    CheckAndAlertRules(monitor, m, history, alertLog, now);
    var i :| 0 <= i < |out| && Kinds(out)[i] == DOWN;
    var stored := alertLog + StoredAlerts(out);
    assert stored[|alertLog| + i] == out[i].alert;
    RecentAlertFound(stored, |alertLog| + i, monitor.id, later);
    CheckAndAlertRules(monitor, m', history', stored, later);
  }

  /** An alert of the log that is inside the window is reported as recent. */
  lemma RecentAlertFound(log: seq<Alert>, k: nat, monitorId: string, now: int)
    requires k < |log| && log[k].monitorId == monitorId && log[k].createdAt >= now - ALERT_DEBOUNCE_MS
    ensures HasRecentAlert(RecentAlerts(log, monitorId, now), log[k].kind)
  {
    var r := RecentAlerts(log, monitorId, now);
    assert log[k] in r;
    var j :| 0 <= j < |r| && r[j] == log[k];
  }
}
