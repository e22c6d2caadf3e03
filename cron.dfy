/**
 * The cron runner: every five minutes, check every active monitor in turn,
 * isolating the failure of one check from the others, and a module-level
 * job handle that `initializeCron` and `stopCron` set and clear.
 */
module Cron {
  import opened Schema
  import Seqs
  import Checker

  const EVERY_FIVE_MINUTES := "*/5 * * * *"

  /** `db.select().from(monitors).where(eq(monitors.active, true))`, in table order. */
  function ActiveMonitors(all: seq<Monitor>): (active: seq<Monitor>)
    ensures forall i | 0 <= i < |active| :: active[i].active && active[i] in all
    ensures forall i | 0 <= i < |all| && all[i].active :: all[i] in active
  {
    Seqs.Filter(all, (m: Monitor) => m.active)
  }

  function Ids(ms: seq<Monitor>): (ids: seq<string>)
    ensures |ids| == |ms| && forall i | 0 <= i < |ms| :: ids[i] == ms[i].id
  {
    seq(|ms|, i requires 0 <= i < |ms| => ms[i].id)
  }

  /** How many of `ms` a check completes for, without throwing. */
  function Successes(ms: seq<Monitor>, env: Checker.Env): (n: nat)
    ensures n <= |ms|
  {
    if ms == [] then 0
    else Successes(ms[..|ms| - 1], env) + (if Checker.Check(ms[|ms| - 1], env).result.Ok? then 1 else 0)
  }

  /** The batches the checks of `ms` insert, one check after the other. */
  function Inserted(ms: seq<Monitor>, env: Checker.Env): seq<seq<NewMeasurement>> {
    if ms == [] then [] else Inserted(ms[..|ms| - 1], env) + Checker.Check(ms[|ms| - 1], env).inserted
  }

  /** Extending the checked prefix by one monitor adds that monitor's check. */
  lemma RunStep(ms: seq<Monitor>, i: nat, env: Checker.Env)
    requires i < |ms|
    ensures Ids(ms[..i + 1]) == Ids(ms[..i]) + [ms[i].id]
    ensures Successes(ms[..i + 1], env) == Successes(ms[..i], env) + (if Checker.Check(ms[i], env).result.Ok? then 1 else 0)
    ensures Inserted(ms[..i + 1], env) == Inserted(ms[..i], env) + Checker.Check(ms[i], env).inserted
  {
    assert ms[..i + 1][..i] == ms[..i];
  }

  /** What a run logs: loading the monitors threw, or the counts of one pass. */
  datatype RunReport = Fatal | Completed(checked: seq<string>, successCount: nat, errorCount: nat)

  /**
   * `runAllChecks()`. `monitors` is the monitors table, None when the query
   * throws; the error is caught and the run ends. Otherwise each active
   * monitor is checked exactly once, in table order, each check finishing
   * before the next starts; a throwing check counts as an error and does
   * not stop the loop.
   */
  method RunAllChecks(monitors: Wrappers.Option<seq<Monitor>>, env: Checker.Env, table: Checker.MeasurementTable)
    returns (report: RunReport)
    modifies table
    ensures monitors.None? ==> report == Fatal && table.batches == old(table.batches)
    ensures monitors.Some? ==>
      var active := ActiveMonitors(monitors.value);
      && report == Completed(Ids(active), Successes(active, env), |active| - Successes(active, env))
      && table.batches == old(table.batches) + Inserted(active, env)
  {
    if monitors.None? {
      return Fatal;
    }
    var active := ActiveMonitors(monitors.value);
    var checked := [];
    var successCount := 0;
    var errorCount := 0;
    for i := 0 to |active|
      invariant checked == Ids(active[..i])
      invariant successCount == Successes(active[..i], env)
      invariant errorCount == i - successCount
      invariant table.batches == old(table.batches) + Inserted(active[..i], env)
    {
      var ok := CheckOne(active, i, env, table);
      assert table.batches == old(table.batches) + (Inserted(active[..i], env) + Checker.Check(active[i], env).inserted);
      checked := checked + [active[i].id];
      if ok {
        successCount := successCount + 1;
      } else {
        errorCount := errorCount + 1;
      }
    }
    assert active[..|active|] == active;
    report := Completed(checked, successCount, errorCount);
  }

  /** The body of the loop: `try { await checkMonitor(monitor) } catch`, reporting whether the check completed. */
  method CheckOne(active: seq<Monitor>, i: nat, env: Checker.Env, table: Checker.MeasurementTable) returns (ok: bool)
    requires i < |active|
    modifies table
    ensures Ids(active[..i + 1]) == Ids(active[..i]) + [active[i].id]
    ensures Successes(active[..i + 1], env) == Successes(active[..i], env) + (if ok then 1 else 0)
    ensures table.batches == old(table.batches) + Checker.Check(active[i], env).inserted
    ensures Inserted(active[..i + 1], env) == Inserted(active[..i], env) + Checker.Check(active[i], env).inserted
  {
    RunStep(active, i, env);
    var r := Checker.CheckMonitor(active[i], env, table);
    ok := r.Ok?;
  }

  /** The monitors a check completes for without throwing. */
  function Completes(env: Checker.Env): Monitor -> bool {
    (m: Monitor) => Checker.Check(m, env).result.Ok?
  }

  /** The monitors a check throws for. */
  function Throws(env: Checker.Env): Monitor -> bool {
    (m: Monitor) => Checker.Check(m, env).result.Err?
  }

  /**
   * The counts of a completed run: `successCount` is the number of active
   * monitors whose check completes and `errorCount` the number whose check
   * throws, so each checked monitor is counted once, on one side.
   */
  lemma ReportCounts(all: seq<Monitor>, env: Checker.Env)
    ensures var active := ActiveMonitors(all);
      && Successes(active, env) == Seqs.Count(active, Completes(env))
      && |active| - Successes(active, env) == Seqs.Count(active, Throws(env))
      && |Ids(active)| == Seqs.Count(active, Completes(env)) + Seqs.Count(active, Throws(env))
  {
    var active := ActiveMonitors(all);
    SuccessesCount(active, env);
    Seqs.CountComplement(active, Completes(env), Throws(env));
  }

  lemma {:induction false} SuccessesCount(ms: seq<Monitor>, env: Checker.Env)
    ensures Successes(ms, env) == Seqs.Count(ms, Completes(env))
  {
    if ms != [] {
      SuccessesCount(ms[..|ms| - 1], env);
      Seqs.CountLast(ms, Completes(env));
    }
  }

  /** Monitors whose check always completes are all counted as successes, and only then. */
  lemma {:induction false} AllSucceed(ms: seq<Monitor>, env: Checker.Env)
    ensures Successes(ms, env) == |ms| <==> forall i | 0 <= i < |ms| :: Checker.Check(ms[i], env).result.Ok?
  {
    if ms != [] {
      var init := ms[..|ms| - 1];
      AllSucceed(init, env);
      assert forall i | 0 <= i < |init| :: init[i] == ms[i];
    }
  }

  /** Inactive monitors are never checked: the run depends only on the active ones. */
  lemma InactiveIgnored(all: seq<Monitor>, m: Monitor)
    requires !m.active
    ensures ActiveMonitors(all + [m]) == ActiveMonitors(all)
  {
    Seqs.FilterConcat(all, [m], (x: Monitor) => x.active);
  }

  /** A node-cron job: its schedule and whether it still fires. */
  class ScheduledTask {
    const expression: string
    var running: bool

    constructor (expression: string)
      ensures this.expression == expression && running
    {
      this.expression := expression;
      running := true;
    }

    /** `task.stop()` */
    method Stop()
      modifies this
      ensures !running
    {
      running := false;
    }
  }

  /** The module-level `cronJob` handle. */
  class Scheduler {
    var cronJob: ScheduledTask?

    constructor ()
      ensures cronJob == null
    {
      cronJob := null;
    }

    /** A scheduled job fires every five minutes. */
    predicate Valid()
      reads this, cronJob
    {
      cronJob != null ==> cronJob.running && cronJob.expression == EVERY_FIVE_MINUTES
    }

    /** `initializeCron()`: idempotent; a job that exists is left as it is. */
    method InitializeCron()
      modifies this
      ensures old(cronJob) != null ==> cronJob == old(cronJob)
      ensures old(cronJob) == null ==>
        cronJob != null && fresh(cronJob) && cronJob.expression == EVERY_FIVE_MINUTES && cronJob.running
      ensures old(Valid()) ==> Valid()
    {
      if cronJob != null {
        return;
      }
      cronJob := new ScheduledTask(EVERY_FIVE_MINUTES);
    }

    /** `stopCron()`: stops and clears the job; nothing happens without one. */
    method StopCron()
      modifies this, cronJob
      ensures cronJob == null && Valid()
      ensures old(cronJob) != null ==> !old(cronJob).running
    {
      if cronJob != null {
        cronJob.Stop();
        cronJob := null;
      }
    }
  }

  /** Stopping and initialising again schedules a fresh job; initialising twice schedules one. */
  method StopThenInitialize(s: Scheduler)
    modifies s, s.cronJob
    ensures s.cronJob != null && fresh(s.cronJob) && s.Valid()
  {
    s.StopCron();
    s.InitializeCron();
    var job := s.cronJob;
    s.InitializeCron();
    assert s.cronJob == job;
  }
}
