/** The 30-day usage aggregate of one tool: the number of usage-log rows with
    `tool_id = id` and `session_date >= since`, and the mean of their minutes rounded
    by `Math.round`. Dates are whole days. */
module UsageAggregate {

  datatype UsageLog = UsageLog(toolId: int, sessionDate: int, usageMinutes: int)

  /** `usage_metrics.last_30_days` */
  datatype Usage = Usage(totalSessions: nat, avgSessionMinutes: int)

  const WindowDays := 30

  /** The aggregate's `where` clause: the tool's rows dated on or after `since`. There is
      no upper bound: a row dated after today is counted too. Dates are whole days, so a
      row on the day `since` falls on counts whatever its time of day. */
  predicate InWindow(log: UsageLog, toolId: int, since: int)
  {
    log.toolId == toolId && log.sessionDate >= since
  }

  /** `_count._all` */
  function SessionCount(logs: seq<UsageLog>, toolId: int, since: int): nat
  {
    if |logs| == 0 then 0
    else
      SessionCount(logs[..|logs| - 1], toolId, since)
      + (if InWindow(logs[|logs| - 1], toolId, since) then 1 else 0)
  }

  /** The sum behind `_avg.usage_minutes` */
  function MinutesTotal(logs: seq<UsageLog>, toolId: int, since: int): int
  {
    if |logs| == 0 then 0
    else
      MinutesTotal(logs[..|logs| - 1], toolId, since)
      + (if InWindow(logs[|logs| - 1], toolId, since) then logs[|logs| - 1].usageMinutes else 0)
  }

  /** `Math.round(total / count)`, and 0 when there is nothing to average (the aggregate's
      null average replaced by `?? 0`): the integer nearest to the mean, a half rounded up. */
  function RoundedMean(total: int, count: nat): (r: int)
    ensures count == 0 ==> r == 0
    ensures count > 0 ==> 2 * count * r <= 2 * total + count < 2 * count * r + 2 * count
  {
    if count == 0 then 0 else (2 * total + count) / (2 * count)
  }

  /** The metrics `getToolById` reports for `toolId` on day `today`. */
  function Last30Days(logs: seq<UsageLog>, toolId: int, today: int): (u: Usage)
    ensures u.totalSessions == 0 ==> u.avgSessionMinutes == 0
  {
    var since := today - WindowDays;
    var count := SessionCount(logs, toolId, since);
    Usage(count, RoundedMean(MinutesTotal(logs, toolId, since), count))
  }

  /** The positions of the rows the aggregate takes in. */
  function WindowIndices(logs: seq<UsageLog>, toolId: int, since: int): set<int>
  {
    set i | 0 <= i < |logs| && InWindow(logs[i], toolId, since)
  }

  /** The session count is exactly the number of rows in the window. */
  lemma {:induction false} SessionCountIsCardinality(logs: seq<UsageLog>, toolId: int, since: int)
    ensures SessionCount(logs, toolId, since) == |WindowIndices(logs, toolId, since)|
  {
    if |logs| > 0 {
      var n := |logs| - 1;
      var prefix := logs[..n];
      SessionCountIsCardinality(prefix, toolId, since);
      var before := WindowIndices(prefix, toolId, since);
      var after := WindowIndices(logs, toolId, since);
      if InWindow(logs[n], toolId, since) {
        assert after == before + {n};
      } else {
        assert after == before;
      }
    }
  }

  /** With no row in the window there is nothing to add up. */
  lemma {:induction false} NoSessionsNoMinutes(logs: seq<UsageLog>, toolId: int, since: int)
    requires SessionCount(logs, toolId, since) == 0
    ensures MinutesTotal(logs, toolId, since) == 0
  {
    if |logs| > 0 {
      NoSessionsNoMinutes(logs[..|logs| - 1], toolId, since);
    }
  }

  /** A tool without usage-log rows has `{ total_sessions: 0, avg_session_minutes: 0 }`. */
  lemma {:induction false} NoLogsNoUsage(logs: seq<UsageLog>, toolId: int, today: int)
    requires forall i :: 0 <= i < |logs| ==> logs[i].toolId != toolId
    ensures Last30Days(logs, toolId, today) == Usage(0, 0)
  {
    var since := today - WindowDays;
    SessionCountIsCardinality(logs, toolId, since);
    assert WindowIndices(logs, toolId, since) == {};
  }

  /** A row dated after today still counts: the window has no upper bound. */
  lemma FutureRowCounts(logs: seq<UsageLog>, log: UsageLog, today: int)
    requires log.sessionDate > today
    ensures SessionCount(logs + [log], log.toolId, today - WindowDays)
         == SessionCount(logs, log.toolId, today - WindowDays) + 1
  {
    assert (logs + [log])[..|logs|] == logs;
  }

  lemma MulStrictCancel(c: int, a: int, b: int)
    requires c > 0 && c * a < c * b
    ensures a < b
  {
  }

  /** If every counted row lasted between lo and hi minutes, so did their total on
      average: count * lo <= total <= count * hi. */
  lemma {:induction false} TotalWithin(logs: seq<UsageLog>, toolId: int, since: int, lo: int, hi: int)
    requires forall i :: 0 <= i < |logs| && InWindow(logs[i], toolId, since) ==> lo <= logs[i].usageMinutes <= hi
    ensures var c := SessionCount(logs, toolId, since);
            var t := MinutesTotal(logs, toolId, since);
            c * lo <= t <= c * hi
  {
    if |logs| > 0 {
      var n := |logs| - 1;
      TotalWithin(logs[..n], toolId, since, lo, hi);
      var c := SessionCount(logs[..n], toolId, since);
      if InWindow(logs[n], toolId, since) {
        assert (c + 1) * lo == c * lo + lo;
        assert (c + 1) * hi == c * hi + hi;
      }
    }
  }

  /** Rounding the mean of values between lo and hi stays between lo and hi. */
  lemma RoundedMeanWithin(t: int, c: nat, lo: int, hi: int)
    requires c > 0 && c * lo <= t <= c * hi
    ensures lo <= RoundedMean(t, c) <= hi
  {
    var r := RoundedMean(t, c);
    assert 2 * c * lo + c <= 2 * t + c <= 2 * c * hi + c;
    assert 2 * c * lo < 2 * c * (r + 1);
    MulStrictCancel(2 * c, lo, r + 1);
    assert 2 * c * r < 2 * c * (hi + 1);
    MulStrictCancel(2 * c, r, hi + 1);
  }

  /** The rounded mean lies between the shortest and the longest counted session. */
  lemma MeanWithinBounds(logs: seq<UsageLog>, toolId: int, today: int, lo: int, hi: int)
    requires forall i :: 0 <= i < |logs| && InWindow(logs[i], toolId, today - WindowDays) ==>
               lo <= logs[i].usageMinutes <= hi
    requires Last30Days(logs, toolId, today).totalSessions > 0
    ensures lo <= Last30Days(logs, toolId, today).avgSessionMinutes <= hi
  {
    var since := today - WindowDays;
    TotalWithin(logs, toolId, since, lo, hi);
    RoundedMeanWithin(MinutesTotal(logs, toolId, since), SessionCount(logs, toolId, since), lo, hi);
  }

  /** Sessions of 10, 20 and 30 minutes: three sessions, 20 minutes on average. */
  lemma ThreeSessionsExample(toolId: int, today: int)
    ensures Last30Days([UsageLog(toolId, today, 10), UsageLog(toolId, today - 1, 20),
                        UsageLog(toolId, today - 29, 30)], toolId, today) == Usage(3, 20)
  {
    var logs := [UsageLog(toolId, today, 10), UsageLog(toolId, today - 1, 20),
                 UsageLog(toolId, today - 29, 30)];
    var since := today - WindowDays;
    assert logs[..2][..1] == logs[..1] && logs[..1][..0] == [];
    assert SessionCount(logs[..1], toolId, since) == 1 && MinutesTotal(logs[..1], toolId, since) == 10;
    assert SessionCount(logs[..2], toolId, since) == 2 && MinutesTotal(logs[..2], toolId, since) == 30;
    assert SessionCount(logs, toolId, since) == 3 && MinutesTotal(logs, toolId, since) == 60;
  }
}
