/** The public status page's overall verdict over the public monitors. */
module StatusPage {
  import Monitors

  datatype OverallStatus = Operational | Degraded

  /** `monitors.every((m) => m.latestStatus === 'up')` */
  function AllUp(ms: seq<Monitors.MonitorWithStatus>): (b: bool)
    ensures b <==> forall i | 0 <= i < |ms| :: ms[i].latestStatus == Monitors.Up
  {
    if ms == [] then true
    else ms[0].latestStatus == Monitors.Up && AllUp(ms[1..])
  }

  /** `overallStatus`: operational without monitors or when every monitor is up, degraded otherwise. */
  function Overall(ms: seq<Monitors.MonitorWithStatus>): (o: OverallStatus)
    ensures ms == [] ==> o == Operational
    ensures o == Operational <==> forall i | 0 <= i < |ms| :: ms[i].latestStatus == Monitors.Up
    ensures o == Degraded <==> exists i | 0 <= i < |ms| :: ms[i].latestStatus in {Monitors.Down, Monitors.Unknown}
  {
    if |ms| == 0 then Operational
    else if AllUp(ms) then Operational
    else Degraded
  }

  /** The verdict depends on which monitors are listed, not on their order or on how they are split. */
  lemma OrderIrrelevant(a: seq<Monitors.MonitorWithStatus>, b: seq<Monitors.MonitorWithStatus>)
    requires multiset(a) == multiset(b)
    ensures Overall(a) == Overall(b)
  {
    if Overall(a) == Operational {
      forall i | 0 <= i < |b| ensures b[i].latestStatus == Monitors.Up {
        assert b[i] in multiset(a);
      }
    } else {
      var i :| 0 <= i < |a| && a[i].latestStatus != Monitors.Up;
      assert a[i] in multiset(b);
    }
  }

  /** Adding a monitor that is not up turns the page degraded; adding one that is up keeps the verdict. */
  lemma OneMonitorDecides(ms: seq<Monitors.MonitorWithStatus>, m: Monitors.MonitorWithStatus)
    ensures m.latestStatus != Monitors.Up ==> Overall(ms + [m]) == Degraded
    ensures m.latestStatus == Monitors.Up ==> Overall(ms + [m]) == Overall(ms)
  {
    var s := ms + [m];
    if m.latestStatus != Monitors.Up {
      assert s[|ms|] == m;
    } else {
      assert forall i | 0 <= i < |ms| :: s[i] == ms[i];
    }
  }
}
