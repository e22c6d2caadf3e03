/**
 * The check executor: run one Globalping measurement for a monitor and
 * store one measurement row per probe result, in a single batch insert.
 */
module Checker {
  import opened Wrappers
  import opened Schema
  import Globalping

  const FINISHED := "finished"
  const RESIDENTIAL := "residential"
  const DATACENTER := "datacenter"
  const CHECK_TIMEOUT := 10000

  /** The `measurements` table, seen as the batches inserted into it, oldest first. */
  class MeasurementTable {
    var batches: seq<seq<NewMeasurement>>

    constructor ()
      ensures batches == []
    {
      batches := [];
    }

    /** `db.insert(measurements).values(batch)`: one insert of the whole batch. */
    method Insert(batch: seq<NewMeasurement>)
      modifies this
      ensures batches == old(batches) + [batch]
    {
      batches := batches + [batch];
    }
  }

  /** Why `checkMonitor` throws: the monitor's locations are not valid JSON, or the measurement failed to run. */
  datatype CheckError = LocationsUnparsable | MeasurementError(error: Globalping.Error)

  /** The request `checkMonitor` sends: an HTTP check of the monitor's URL from its locations, with a 10 s timeout. */
  function CheckRequest(monitor: Monitor, locations: seq<Globalping.LocationFilter>): (req: Globalping.Request)
    ensures req.kind == "http" && req.target == monitor.url && req.locations == locations
    ensures req.timeout == Some(CHECK_TIMEOUT)
  {
    Globalping.Request("http", monitor.url, locations, Some(CHECK_TIMEOUT))
  }

  /** A probe counts as residential exactly when its tags include "residential". */
  function NetworkType(tags: seq<string>): (t: string)
    ensures t == RESIDENTIAL <==> RESIDENTIAL in tags
    ensures t == DATACENTER <==> RESIDENTIAL !in tags
  {
    if RESIDENTIAL in tags then RESIDENTIAL else DATACENTER
  }

  /** The row built from one probe result. */
  function ToMeasurement(monitorId: string, r: Globalping.ProbeResult): (m: NewMeasurement)
    ensures m.monitorId == monitorId
    ensures m.location == r.probe.city + ", " + r.probe.country
    ensures m.country == Some(r.probe.country) && m.city == Some(r.probe.city)
    ensures m.networkType == Some(NetworkType(r.probe.tags))
    ensures m.status == SUCCESS <==> r.result.status == FINISHED
    ensures m.status == FAILED <==> r.result.status != FINISHED
    ensures m.statusCode == r.result.statusCode && m.errorMessage == r.result.rawError
    ensures r.result.timings.None? ==> m.latency == 0
    ensures r.result.timings.Some? ==> m.latency == r.result.timings.value.total
  {
    NewMeasurement(
      monitorId,
      r.probe.city + ", " + r.probe.country,
      Some(r.probe.country),
      Some(r.probe.city),
      Some(NetworkType(r.probe.tags)),
      r.result.statusCode,
      if r.result.timings.Some? then r.result.timings.value.total else 0,
      if r.result.status == FINISHED then SUCCESS else FAILED,
      r.result.rawError)
  }

  /** `response.results?.map(...) ?? []`: one row per probe result, in order; none without results. */
  function MapResults(monitorId: string, response: Globalping.Response): (ms: seq<NewMeasurement>)
    ensures response.results.None? ==> ms == []
    ensures response.results.Some? ==> |ms| == |response.results.value|
    ensures response.results.Some? ==>
      forall i | 0 <= i < |ms| :: ms[i] == ToMeasurement(monitorId, response.results.value[i])
    ensures forall i | 0 <= i < |ms| :: ms[i].monitorId == monitorId && ms[i].status in {SUCCESS, FAILED}
  {
    match response.results
    case None => []
    case Some(results) => seq(|results|, i requires 0 <= i < |results| => ToMeasurement(monitorId, results[i]))
  }

  /** The rows of the i-th probe are the same whichever other probes answered: mapping distributes over concatenation. */
  lemma MapResultsConcat(monitorId: string, response: Globalping.Response, a: seq<Globalping.ProbeResult>, b: seq<Globalping.ProbeResult>)
    requires response.results == Some(a + b)
    ensures MapResults(monitorId, response) ==
            MapResults(monitorId, response.(results := Some(a))) + MapResults(monitorId, response.(results := Some(b)))
  {
  }

  /**
   * Everything `checkMonitor` consults outside itself: `parse` is `JSON.parse`
   * of the monitor's locations (None when it throws); `post` and `poll`
   * answer the provider's HTTP calls.
   */
  datatype Env = Env(
    parse: string -> Option<seq<Globalping.LocationFilter>>,
    post: Globalping.Request -> Globalping.PostReply,
    poll: string -> nat -> Globalping.PollReply)

  /** What one check returns (or throws) and the batches it inserts. */
  datatype CheckOutcome = CheckOutcome(result: Result<(), CheckError>, inserted: seq<seq<NewMeasurement>>)

  /** A stored batch: at least one row, every row of the monitor and a success or a failure. */
  predicate BatchOf(rows: seq<NewMeasurement>, monitorId: string) {
    && rows != []
    && forall i | 0 <= i < |rows| :: rows[i].monitorId == monitorId && rows[i].status in {SUCCESS, FAILED}
  }

  function Check(monitor: Monitor, env: Env): (c: CheckOutcome)
    ensures |c.inserted| <= 1
    ensures c.result.Err? ==> c.inserted == []
    ensures c.inserted != [] ==> BatchOf(c.inserted[0], monitor.id)
  {
    match env.parse(monitor.locations)
    case None => CheckOutcome(Err(LocationsUnparsable), [])
    case Some(locations) =>
      match Globalping.RunResult(CheckRequest(monitor, locations), env.post, env.poll)
      case Err(e) => CheckOutcome(Err(MeasurementError(e)), [])
      case Ok(response) =>
        if response.status == Globalping.JOB_FAILED then CheckOutcome(Ok(()), [])
        else
          var rows := MapResults(monitor.id, response);
          CheckOutcome(Ok(()), if |rows| > 0 then [rows] else [])
  }

  /**
   * The rules of `checkMonitor`: an unparsable location list or a failed
   * run is thrown and stores nothing; a measurement whose job failed
   * returns normally and stores nothing; otherwise at most one batch is
   * inserted, holding one row of this monitor per probe result, and only
   * when there is at least one.
   */
  lemma CheckRules(monitor: Monitor, env: Env)
    ensures var c := Check(monitor, env);
      && |c.inserted| <= 1
      && (c.result.Err? ==> c.inserted == [])
      && (env.parse(monitor.locations).None? <==> c.result == Err(LocationsUnparsable))
      && (env.parse(monitor.locations).Some? ==>
            var run := Globalping.RunResult(CheckRequest(monitor, env.parse(monitor.locations).value), env.post, env.poll);
            && (run.Err? <==> c.result.Err?)
            && (run.Err? ==> c.result == Err(MeasurementError(run.error)))
            && (run.Ok? && run.value.status == Globalping.JOB_FAILED ==> c.inserted == [])
            && (run.Ok? && run.value.status != Globalping.JOB_FAILED ==>
                  (c.inserted == [] <==> MapResults(monitor.id, run.value) == [])
                  && (c.inserted != [] ==> c.inserted == [MapResults(monitor.id, run.value)])))
      && (forall k, i | 0 <= k < |c.inserted| && 0 <= i < |c.inserted[k]| :: c.inserted[k][i].monitorId == monitor.id)
  {
  }

  /** `checkMonitor(monitor)`: the steps in order, against the measurements table. */
  method CheckMonitor(monitor: Monitor, env: Env, table: MeasurementTable) returns (r: Result<(), CheckError>)
    modifies table
    ensures r == Check(monitor, env).result
    ensures table.batches == old(table.batches) + Check(monitor, env).inserted
  {
    var locations := env.parse(monitor.locations);
    if locations.None? {
      return Err(LocationsUnparsable);
    }
    var response, posts, log := Globalping.RunMeasurement(CheckRequest(monitor, locations.value), env.post, env.poll);
    if response.Err? {
      return Err(MeasurementError(response.error));
    }
    if response.value.status == Globalping.JOB_FAILED {
      return Ok(());
    }
    var results := MapResults(monitor.id, response.value);
    if |results| > 0 {
      table.Insert(results);
    }
    r := Ok(());
  }
}
