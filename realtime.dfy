/**
 * The browser-side realtime store: three maps fed by server-sent events,
 * and the connection life cycle (connect, open, error, timed reconnect,
 * disconnect) over one event source and one reconnect timer.
 */
module Realtime {
  import opened Wrappers
  import Seqs
  import Monitors

  /** `MonitorUpdate`; `uptime24h` is a whole percentage here. */
  datatype MonitorUpdate = MonitorUpdate(id: string, name: string, url: string, status: Monitors.Status, uptime24h: int)

  /** `MeasurementNew` */
  datatype MeasurementNew = MeasurementNew(monitorId: string, location: string, status: string, latency: int, timestamp: string)

  /** The direction of a `StatusChange`: only 'up' or 'down'. */
  datatype Direction = WentUp | WentDown

  /** `StatusChange` */
  datatype StatusChange = StatusChange(monitorId: string, status: Direction)

  /** How many measurements are kept per monitor. */
  const MAX_MEASUREMENTS := 100

  /** `[data, ...existing].slice(0, 100)`: the newest first, the oldest dropped past 100. */
  function PushNewest(existing: seq<MeasurementNew>, e: MeasurementNew): (r: seq<MeasurementNew>)
    ensures |r| == Seqs.Min(|existing| + 1, MAX_MEASUREMENTS)
    ensures r[0] == e
    ensures forall i | 1 <= i < |r| :: r[i] == existing[i - 1]
  {
    Seqs.Take([e] + existing, MAX_MEASUREMENTS)
  }

  /** The list after the events `es` arrive for the same monitor, in order. */
  function PushAll(existing: seq<MeasurementNew>, es: seq<MeasurementNew>): (r: seq<MeasurementNew>)
    ensures |existing| <= MAX_MEASUREMENTS ==> |r| == Seqs.Min(|existing| + |es|, MAX_MEASUREMENTS)
    ensures es != [] ==> |r| > 0 && r[0] == es[|es| - 1]
    decreases |es|
  {
    if es == [] then existing else PushAll(PushNewest(existing, es[0]), es[1..])
  }

  function Reverse<T>(s: seq<T>): (r: seq<T>)
    ensures |r| == |s| && forall i | 0 <= i < |s| :: r[i] == s[|s| - 1 - i]
  {
    if s == [] then [] else Reverse(s[1..]) + [s[0]]
  }

  /** A run of events leaves the newest 100 of them and of the earlier list, newest first. */
  lemma {:induction false} PushAllKeepsNewest(existing: seq<MeasurementNew>, es: seq<MeasurementNew>)
    requires |existing| <= MAX_MEASUREMENTS
    ensures PushAll(existing, es) == Seqs.Take(Reverse(es) + existing, MAX_MEASUREMENTS)
    decreases |es|
  {
    if es == [] {
      assert Reverse(es) + existing == existing;
    } else {
      var once := PushNewest(existing, es[0]);
      PushAllKeepsNewest(once, es[1..]);
      var front := Reverse(es[1..]);
      var lhs := Seqs.Take(front + once, MAX_MEASUREMENTS);
      var rhs := Seqs.Take(Reverse(es) + existing, MAX_MEASUREMENTS);
      assert Reverse(es) == front + [es[0]];
      assert |lhs| == |rhs|;
      forall i | 0 <= i < |lhs| ensures lhs[i] == rhs[i] {
        if i < |front| {
        } else if i == |front| {
          assert once[0] == es[0];
        } else {
          assert once[i - |front|] == existing[i - |front| - 1];
        }
      }
      assert lhs == rhs;
      assert PushAll(existing, es) == PushAll(once, es[1..]);
    }
  }

  // ---------------------------------------------------------------------
  // The connection life cycle

  /**
   * `reconnectTimeout`: no handle, the handle of a timer that has not fired
   * yet, or the handle of a timer that has already fired but was never
   * cleared.
   */
  datatype Timer = NoTimer | Pending | Fired

  /** The closure variables `connected`, `eventSource` (present or null) and `reconnectTimeout`. */
  datatype Connection = Connection(connected: bool, hasSource: bool, timer: Timer)

  const INITIAL := Connection(false, false, NoTimer)

  /** `connect()`: a no-op while a source exists, otherwise a new, not yet open source. */
  function ConnectStep(c: Connection): (d: Connection)
    ensures c.hasSource ==> d == c
    ensures !c.hasSource ==> d == c.(hasSource := true)
  {
    if c.hasSource then c else c.(hasSource := true)
  }

  /** `onopen`: connected, and any reconnect timer cleared. */
  function OpenStep(c: Connection): (d: Connection)
    requires c.hasSource
    ensures d.connected && d.hasSource && d.timer == NoTimer
  {
    c.(connected := true, timer := NoTimer)
  }

  /** `onerror`: disconnected, the source closed and dropped, and a reconnect scheduled unless a handle is already set. */
  function ErrorStep(c: Connection): (d: Connection)
    requires c.hasSource
    ensures !d.connected && !d.hasSource
    ensures c.timer == NoTimer ==> d.timer == Pending
    ensures c.timer != NoTimer ==> d.timer == c.timer
  {
    Connection(false, false, if c.timer == NoTimer then Pending else c.timer)
  }

  /** The timer callback as written: it calls `connect()` but leaves its own handle in `reconnectTimeout`. */
  function FireAsWritten(c: Connection): (d: Connection)
    requires c.timer == Pending
    ensures d.timer == Fired && d.hasSource && d.connected == c.connected
  {
    ConnectStep(c.(timer := Fired))
  }

  /** The timer callback with `reconnectTimeout = null` before `connect()`. */
  function FireCorrected(c: Connection): (d: Connection)
    requires c.timer == Pending
    ensures d.timer == NoTimer && d.hasSource && d.connected == c.connected
  {
    ConnectStep(c.(timer := NoTimer))
  }

  /** `disconnect()`: no timer, no source, not connected. */
  function DisconnectStep(c: Connection): (d: Connection)
    ensures d == INITIAL
  {
    Connection(false, false, NoTimer)
  }

  /** The store keeps trying to reach the server: it has a source, or a reconnect is pending. */
  predicate Recovering(c: Connection) {
    c.hasSource || c.timer == Pending
  }

  /**
   * As written, a reconnect attempt that fails before it opens leaves the
   * store with no source and a stale handle: the second error schedules no
   * timer, and no event other than a new `connect()` by the page can ever
   * change the state again.
   */
  lemma FailedReconnectStalls()
    ensures var attempt := FireAsWritten(ErrorStep(ConnectStep(INITIAL)));
      var c := ErrorStep(attempt);
      && !c.connected && !Recovering(c) && c.timer == Fired
  {
  }

  /** With the handle cleared in the callback, every error leaves a reconnect pending. */
  lemma CorrectedErrorRecovers(c: Connection)
    requires c.hasSource && c.timer != Fired
    ensures Recovering(ErrorStep(c)) && ErrorStep(c).timer == Pending
  {
  }

  /**
   * The corrected machine never holds a stale handle: `NoTimer` and
   * `Pending` are the only timer states it reaches, from the initial state
   * and through every step.
   */
  predicate NoStaleHandle(c: Connection) {
    c.timer != Fired
  }

  lemma CorrectedStepsKeepHandleFresh(c: Connection)
    requires NoStaleHandle(c)
    ensures NoStaleHandle(ConnectStep(c)) && NoStaleHandle(DisconnectStep(c))
    ensures c.hasSource ==> NoStaleHandle(OpenStep(c)) && NoStaleHandle(ErrorStep(c))
    ensures c.timer == Pending ==> NoStaleHandle(FireCorrected(c))
  {
  }

  /** `disconnect` always ends in the initial state, so calling it twice is calling it once. */
  lemma DisconnectIdempotent(c: Connection)
    ensures DisconnectStep(DisconnectStep(c)) == DisconnectStep(c) == INITIAL
  {
  }

  // ---------------------------------------------------------------------
  // The store

  /**
   * `createRealtimeStore()`, with the timer callback corrected to clear its
   * handle. `source` stands for `eventSource !== null`; `reconnectPending`
   * for a set `reconnectTimeout`; `armedTimers` counts the reconnect timers
   * scheduled and neither fired nor cleared.
   */
  class RealtimeStore {
    var connected: bool
    var source: bool
    var reconnectPending: bool
    var armedTimers: nat
    var monitorUpdates: map<string, MonitorUpdate>
    var latestMeasurements: map<string, seq<MeasurementNew>>
    var statusChanges: map<string, StatusChange>

    /** At most one reconnect timer is ever armed, and only while its handle is kept; every kept list is bounded. */
    predicate Valid()
      reads this
    {
      && armedTimers == (if reconnectPending then 1 else 0)
      && forall id | id in latestMeasurements :: |latestMeasurements[id]| <= MAX_MEASUREMENTS
    }

    function State(): Connection
      reads this
    {
      Connection(connected, source, if reconnectPending then Pending else NoTimer)
    }

    constructor ()
      ensures Valid() && State() == INITIAL
      ensures monitorUpdates == map[] && latestMeasurements == map[] && statusChanges == map[]
    {
      connected := false;
      source := false;
      reconnectPending := false;
      armedTimers := 0;
      monitorUpdates := map[];
      latestMeasurements := map[];
      statusChanges := map[];
    }

    /** `connect()` */
    method Connect()
      requires Valid()
      modifies this
      ensures Valid() && State() == ConnectStep(old(State()))
      ensures armedTimers == old(armedTimers)
      ensures monitorUpdates == old(monitorUpdates) && latestMeasurements == old(latestMeasurements)
      ensures statusChanges == old(statusChanges)
    {
      if source {
        return;
      }
      source := true;
    }

    /** `eventSource.onopen` */
    method OnOpen()
      requires Valid() && source
      modifies this
      ensures Valid() && State() == OpenStep(old(State())) && armedTimers == 0
      ensures monitorUpdates == old(monitorUpdates) && latestMeasurements == old(latestMeasurements)
      ensures statusChanges == old(statusChanges)
    {
      connected := true;
      if reconnectPending {
        armedTimers := armedTimers - 1;
        reconnectPending := false;
      }
    }

    /** `eventSource.onerror`: after it a reconnect is always pending, and never more than one. */
    method OnError()
      requires Valid() && source
      modifies this
      ensures Valid() && State() == ErrorStep(old(State()))
      ensures reconnectPending && armedTimers == 1 && Recovering(State())
      ensures monitorUpdates == old(monitorUpdates) && latestMeasurements == old(latestMeasurements)
      ensures statusChanges == old(statusChanges)
    {
      connected := false;
      source := false;
      if !reconnectPending {
        reconnectPending := true;
        armedTimers := armedTimers + 1;
      }
    }

    /** The reconnect timer fires: its handle is cleared, then `connect()` runs. */
    method OnReconnectTimer()
      requires Valid() && reconnectPending
      modifies this
      ensures Valid() && State() == FireCorrected(old(State())) && armedTimers == 0
      ensures monitorUpdates == old(monitorUpdates) && latestMeasurements == old(latestMeasurements)
      ensures statusChanges == old(statusChanges)
    {
      armedTimers := armedTimers - 1;
      reconnectPending := false;
      Connect();
    }

    /** `disconnect()` */
    method Disconnect()
      requires Valid()
      modifies this
      ensures Valid() && State() == INITIAL && armedTimers == 0
      ensures monitorUpdates == old(monitorUpdates) && latestMeasurements == old(latestMeasurements)
      ensures statusChanges == old(statusChanges)
    {
      if reconnectPending {
        armedTimers := armedTimers - 1;
        reconnectPending := false;
      }
      if source {
        source := false;
      }
      connected := false;
    }

    /** A `monitor-update` event: the last update per monitor wins. */
    method OnMonitorUpdate(data: MonitorUpdate)
      requires Valid()
      modifies this
      ensures Valid() && State() == old(State())
      ensures monitorUpdates == old(monitorUpdates)[data.id := data]
      ensures latestMeasurements == old(latestMeasurements) && statusChanges == old(statusChanges)
    {
      monitorUpdates := monitorUpdates[data.id := data];
    }

    /** A `measurement-new` event: prepended to its monitor's list, which keeps the newest 100; other lists are untouched. */
    method OnMeasurementNew(data: MeasurementNew)
      requires Valid()
      modifies this
      ensures Valid() && State() == old(State())
      ensures latestMeasurements == old(latestMeasurements)[data.monitorId := PushNewest(old(GetMeasurements(data.monitorId)), data)]
      ensures monitorUpdates == old(monitorUpdates) && statusChanges == old(statusChanges)
    {
      var existing := GetMeasurements(data.monitorId);
      latestMeasurements := latestMeasurements[data.monitorId := PushNewest(existing, data)];
    }

    /** A `status-change` event: the last change per monitor wins. */
    method OnStatusChange(data: StatusChange)
      requires Valid()
      modifies this
      ensures Valid() && State() == old(State())
      ensures statusChanges == old(statusChanges)[data.monitorId := data]
      ensures monitorUpdates == old(monitorUpdates) && latestMeasurements == old(latestMeasurements)
    {
      statusChanges := statusChanges[data.monitorId := data];
    }

    /** `getMonitorUpdate(id)` */
    function GetMonitorUpdate(monitorId: string): (r: Option<MonitorUpdate>)
      reads this
      ensures r.None? <==> monitorId !in monitorUpdates
      ensures r.Some? ==> r.value == monitorUpdates[monitorId]
    {
      if monitorId in monitorUpdates then Some(monitorUpdates[monitorId]) else None
    }

    /** `getMeasurements(id)`: the kept list, empty for a monitor never seen. */
    function GetMeasurements(monitorId: string): (r: seq<MeasurementNew>)
      reads this
      ensures monitorId !in latestMeasurements ==> r == []
      ensures monitorId in latestMeasurements ==> r == latestMeasurements[monitorId]
    {
      if monitorId in latestMeasurements then latestMeasurements[monitorId] else []
    }

    /** `getStatusChange(id)` */
    function GetStatusChange(monitorId: string): (r: Option<StatusChange>)
      reads this
      ensures r.None? <==> monitorId !in statusChanges
      ensures r.Some? ==> r.value == statusChanges[monitorId]
    {
      if monitorId in statusChanges then Some(statusChanges[monitorId]) else None
    }
  }

  /**
   * Measurements of one monitor: after two events the newer is first and
   * the older second, and the lists of other monitors are as they were.
   */
  method TwoMeasurements(store: RealtimeStore, a: MeasurementNew, b: MeasurementNew, other: string)
    requires store.Valid() && a.monitorId == b.monitorId && other != a.monitorId
    modifies store
    ensures store.Valid()
    ensures |store.GetMeasurements(a.monitorId)| >= 2
    ensures store.GetMeasurements(a.monitorId)[0] == b && store.GetMeasurements(a.monitorId)[1] == a
    ensures store.GetMeasurements(other) == old(store.GetMeasurements(other))
  {
    store.OnMeasurementNew(a);
    store.OnMeasurementNew(b);
  }

  /** The store always comes back after an error: an error, then the timer, leave a fresh source. */
  method ErrorThenReconnect(store: RealtimeStore)
    requires store.Valid() && store.source
    modifies store
    ensures store.Valid() && store.source && !store.reconnectPending && store.armedTimers == 0
  {
    store.OnError();
    store.OnReconnectTimer();
  }
}
