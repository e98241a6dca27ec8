/** The repair-verifier lambda: the wait before checking, the configuration
    and functionality checks, and the before/after metric comparison. */
module RepairVerifier {
  import opened Wrappers
  import DataCollector

  type MetricDataResult = DataCollector.MetricDataResult

  /** How long after the repair the checks start (ms). */
  const VerificationDelay := 60000
  /** The pre-repair window covers the 10 minutes before the repair (ms). */
  const PreWindowMillis := 10 * 60 * 1000
  /** The post-repair window starts 2 minutes after the repair (ms). */
  const PostWindowOffset := 2 * 60 * 1000
  const RequiredMessage := "functionName and repairTimestamp are required"

  // ------------------------------------------------------------------ wait

  /** The `setTimeout` delay for a repair `elapsed` milliseconds ago. */
  function WaitMillis(elapsed: int): int {
    if elapsed < VerificationDelay then VerificationDelay - elapsed else 0
  }

  /** After the wait, at least one minute has passed since the repair, and no
      wait happens once it has. */
  lemma WaitReachesDelay(elapsed: int)
    ensures WaitMillis(elapsed) >= 0
    ensures elapsed + WaitMillis(elapsed) >= VerificationDelay
    ensures elapsed >= VerificationDelay ==> WaitMillis(elapsed) == 0
    ensures elapsed < VerificationDelay ==> elapsed + WaitMillis(elapsed) == VerificationDelay
  {
  }

  // --------------------------------------------------------------- windows

  datatype Window = Window(start: int, end: int)

  function PreWindow(repairTime: int): Window {
    Window(repairTime - PreWindowMillis, repairTime)
  }

  function PostWindow(repairTime: int, now: int): Window {
    Window(repairTime + PostWindowOffset, now)
  }

  /** The two windows never overlap: two minutes separate them. */
  lemma WindowsAreDisjoint(repairTime: int, now: int)
    ensures PreWindow(repairTime).end + PostWindowOffset == PostWindow(repairTime, now).start
    ensures PreWindow(repairTime).end < PostWindow(repairTime, now).start
    ensures PreWindow(repairTime).end - PreWindow(repairTime).start == PreWindowMillis
  {
  }

  /** Checked right after the repair, the one-minute wait ends before the
      post-repair window begins: that window ends before it starts. */
  lemma FreshRepairHasInvertedPostWindow(repairTime: int, elapsed: int)
    requires 0 <= elapsed < VerificationDelay
    ensures var w := PostWindow(repairTime, repairTime + elapsed + WaitMillis(elapsed));
            w.end < w.start
  {
  }

  // ----------------------------------------------------------- getMetrics

  datatype PeriodMetrics = PeriodMetrics(avgDuration: real, errors: real)

  const NoMetrics := PeriodMetrics(0.0, 0.0)

  /** The query `getMetrics` sends: mean `Duration` and summed `Errors`. */
  datatype PeriodQuery = PeriodQuery(functionName: string, window: Window)

  function Mean(xs: seq<real>): real {
    if |xs| == 0 then 0.0 else DataCollector.Sum(xs) / |xs| as real
  }

  /** One step of the `forEach`; `None` when a matching result has no values
      (reading `Values.length` throws). */
  function Absorb(acc: PeriodMetrics, m: MetricDataResult): Option<PeriodMetrics> {
    if m.id == "duration" && m.values.None? then None
    else if m.id == "errors" && m.values.None? then None
    else if m.id == "duration" && |m.values.value| > 0 then Some(acc.(avgDuration := Mean(m.values.value)))
    else if m.id == "errors" && |m.values.value| > 0 then Some(acc.(errors := DataCollector.Sum(m.values.value)))
    else Some(acc)
  }

  /** The `forEach` over the results, from zeroes; `None` when it throws. */
  function Aggregate(results: seq<MetricDataResult>): Option<PeriodMetrics> {
    if results == [] then Some(NoMetrics)
    else match Aggregate(results[..|results| - 1])
      case None => None
      case Some(acc) => Absorb(acc, results[|results| - 1])
  }

  /** A duration or error result without values aborts the whole aggregation,
      wherever it stands. */
  lemma {:induction false} MissingValuesAbort(results: seq<MetricDataResult>, k: int)
    requires 0 <= k < |results|
    requires results[k].id == "duration" || results[k].id == "errors"
    requires results[k].values.None?
    ensures Aggregate(results).None?
  {
    if k < |results| - 1 {
      MissingValuesAbort(results[..|results| - 1], k);
    }
  }

  /** A later non-empty series of the same id replaces the earlier figure:
      the mean for durations, the sum for errors. */
  lemma LastSeriesWins(results: seq<MetricDataResult>, m: MetricDataResult)
    requires Aggregate(results).Some?
    requires m.values.Some? && |m.values.value| > 0
    ensures m.id == "duration" ==>
              Aggregate(results + [m]) == Some(Aggregate(results).value.(avgDuration := Mean(m.values.value)))
    ensures m.id == "errors" ==>
              Aggregate(results + [m]) == Some(Aggregate(results).value.(errors := DataCollector.Sum(m.values.value)))
  {
    assert (results + [m])[..|results|] == results;
  }

  /** The verifier's mean duration is the average the data collector reports
      for the same series. */
  lemma MeanAgreesWithCollector(r: MetricDataResult)
    requires r.values.Some?
    ensures Mean(r.values.value) == DataCollector.SeriesOf(r).average
  {
  }

  /** `getMetrics`; a failed fetch or an aborted aggregation gives zeroes. */
  method GetMetrics(query: PeriodQuery, source: PeriodQuery -> Result<seq<MetricDataResult>, string>)
    returns (metrics: PeriodMetrics)
    ensures source(query).Failure? ==> metrics == NoMetrics
    ensures source(query).Success? ==> metrics == Aggregate(source(query).value).GetOr(NoMetrics)
  {
    var fetched := source(query);
    if fetched.Failure? {
      return NoMetrics;
    }
    var results := fetched.value;
    var avgDuration := 0.0;
    var errors := 0.0;
    var i := 0;
    while i < |results|
      invariant 0 <= i <= |results|
      invariant Aggregate(results[..i]) == Some(PeriodMetrics(avgDuration, errors))
    {
      var metric := results[i];
      assert results[..i + 1][..i] == results[..i];
      if (metric.id == "duration" || metric.id == "errors") && metric.values.None? {
        assert Aggregate(results[..i + 1]).None?;
        MissingValuesAbort(results, i);
        return NoMetrics;
      }
      if metric.id == "duration" && |metric.values.value| > 0 {
        avgDuration := DataCollector.Sum(metric.values.value) / |metric.values.value| as real;
      }
      if metric.id == "errors" && |metric.values.value| > 0 {
        errors := DataCollector.Sum(metric.values.value);
      }
      i := i + 1;
    }
    assert results[..i] == results;
    metrics := PeriodMetrics(avgDuration, errors);
  }

  // --------------------------------------------------------- verifyMetrics

  datatype MetricsMessage =
    | ComparisonCompleted   // "Metrics comparison completed"
    | ShowsImprovement      // "Performance metrics show improvement"
    | ErrorRateToZero       // "Error rate improved to zero"

  datatype MetricsVerification = MetricsVerification(
    improved: bool, pre: PeriodMetrics, post: PeriodMetrics, message: MetricsMessage)

  /** The repair helped: durations fell by more than 10 %, or errors fell. */
  predicate Improved(pre: PeriodMetrics, post: PeriodMetrics) {
    post.avgDuration < pre.avgDuration * 0.9 || post.errors < pre.errors
  }

  /** `verifyMetrics`: the two fetches and the comparison. `timing` is the repair
      time and the clock after the wait, `None` when the timestamp is not a date,
      in which case both fetches fail and the figures are zeroes. */
  method VerifyMetrics(functionName: string, timing: Option<(int, int)>,
                       source: PeriodQuery -> Result<seq<MetricDataResult>, string>)
    returns (result: MetricsVerification)
    ensures result.improved <==> Improved(result.pre, result.post)
    ensures result.message == (if result.improved then ShowsImprovement else ComparisonCompleted)
    ensures timing.None? ==> result.pre == NoMetrics && result.post == NoMetrics && !result.improved
    ensures timing.Some? ==>
              var (repairTime, now) := timing.value;
              && result.pre == Period(PeriodQuery(functionName, PreWindow(repairTime)), source)
              && result.post == Period(PeriodQuery(functionName, PostWindow(repairTime, now)), source)
  {
    var pre, post := NoMetrics, NoMetrics;
    if timing.Some? {
      var (repairTime, now) := timing.value;
      pre := GetMetrics(PeriodQuery(functionName, PreWindow(repairTime)), source);
      post := GetMetrics(PeriodQuery(functionName, PostWindow(repairTime, now)), source);
    }
    result := MetricsVerification(false, pre, post, ComparisonCompleted);
    if post.avgDuration < pre.avgDuration * 0.9 || post.errors < pre.errors {
      result := result.(improved := true, message := ShowsImprovement);
    } else if post.errors == 0.0 && pre.errors > 0.0 {
      result := result.(improved := true, message := ErrorRateToZero);
    }
  }

  /** What `getMetrics` returns for one window. */
  function Period(query: PeriodQuery, source: PeriodQuery -> Result<seq<MetricDataResult>, string>): PeriodMetrics {
    match source(query)
    case Failure(_) => NoMetrics
    case Success(results) => Aggregate(results).GetOr(NoMetrics)
  }

  /** With no data after the repair, any activity before it reads as an improvement. */
  lemma EmptyPostWindowReadsAsImprovement(pre: PeriodMetrics)
    requires pre.avgDuration > 0.0 || pre.errors > 0.0
    ensures Improved(pre, NoMetrics)
  {
  }

  // --------------------------------------------------------------- handler

  datatype VerifyRequest = VerifyRequest(
    functionName: string,
    repairTimestamp: string,
    originalMemory: Option<int>,
    newMemory: Option<int>)

  /** The outcome of a configuration or functionality check. */
  datatype CheckResult = CheckResult(success: bool, message: string)

  /** `verifyConfiguration` as written: it reports success without asking anything. */
  function VerifyConfiguration(functionName: string, expectedMemory: Option<int>): CheckResult {
    CheckResult(true, "Configuration verification completed")
  }

  /** `verifyFunctionality` as written: it reports success without invoking the function. */
  function VerifyFunctionality(functionName: string): CheckResult {
    CheckResult(true, "Function responds normally")
  }

  datatype VerificationStatus = Verified | NotVerified | Errored

  datatype VerificationResult = VerificationResult(
    functionName: string,
    repairTimestamp: string,
    configurationVerified: bool,
    functionalityVerified: bool,
    metricsImproved: bool,
    status: VerificationStatus,
    metrics: Option<MetricsVerification>,
    error: Option<string>)

  /** The overall status: success iff both checks succeeded; metrics do not count. */
  function StatusOf(configuration: CheckResult, functionality: CheckResult): VerificationStatus {
    if configuration.success && functionality.success then Verified else NotVerified
  }

  /** The repair-verifier lambda's handler. `now` is the clock at entry,
      `parseTime` reads the repair timestamp, and `waited` is the delay it
      sleeps; the clock after the wait is `now + waited`. It never throws. */
  method Handler(event: VerifyRequest, now: int, parseTime: string -> Option<int>,
                 source: PeriodQuery -> Result<seq<MetricDataResult>, string>)
    returns (r: VerificationResult, waited: int)
    ensures event.functionName == "" || event.repairTimestamp == "" ==>
              r.status == Errored && r.error == Some(RequiredMessage) && r.functionName == event.functionName
              && waited == 0
    ensures event.functionName != "" && event.repairTimestamp != "" ==>
              && r.status == Verified
              && r.functionName == event.functionName && r.repairTimestamp == event.repairTimestamp
              && r.configurationVerified && r.functionalityVerified
              && r.metrics.Some? && r.metricsImproved == r.metrics.value.improved
              && r.error.None?
              && (parseTime(event.repairTimestamp).None? ==> waited == 0 && !r.metricsImproved)
              && (parseTime(event.repairTimestamp).Some? ==>
                    var repairTime := parseTime(event.repairTimestamp).value;
                    && waited == WaitMillis(now - repairTime)
                    && r.metrics.value.pre == Period(PeriodQuery(event.functionName, PreWindow(repairTime)), source)
                    && r.metrics.value.post
                       == Period(PeriodQuery(event.functionName, PostWindow(repairTime, now + waited)), source))
  {
    if event.functionName == "" || event.repairTimestamp == "" {
      r := VerificationResult(event.functionName, event.repairTimestamp, false, false, false, Errored, None,
                              Some(RequiredMessage));
      return r, 0;
    }
    waited := 0;
    var repairTime := parseTime(event.repairTimestamp);
    var timing: Option<(int, int)> := None;
    if repairTime.Some? {
      var timeSinceRepair := now - repairTime.value;
      if timeSinceRepair < VerificationDelay {
        waited := VerificationDelay - timeSinceRepair;
      }
      timing := Some((repairTime.value, now + waited));
    }
    var configVerification := VerifyConfiguration(event.functionName, event.newMemory);
    var functionalVerification := VerifyFunctionality(event.functionName);
    var metricsVerification := VerifyMetrics(event.functionName, timing, source);
    r := VerificationResult(event.functionName, event.repairTimestamp, configVerification.success,
                            functionalVerification.success, metricsVerification.improved, NotVerified,
                            Some(metricsVerification), None);
    r := r.(status := StatusOf(configVerification, functionalVerification));
  }
}
