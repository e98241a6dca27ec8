/** The data collector: the 30-minute observation window, metric aggregation
    per query id, the log summary counts and the memory-usage summary parsed
    from the platform's `REPORT` log lines. */
module DataCollector {
  import opened Wrappers
  import opened Text

  /** Length of the observation window, in milliseconds. */
  const WindowMillis := 30 * 60 * 1000
  /** Maximum number of log events requested. */
  const LogLimit := 100
  const LogFilterPattern := "ERROR Exception \"Task timed out\" \"Max Memory Used\" REPORT"
  const LogGroupPrefix := "/aws/lambda/"
  /** Aggregation period of every metric query, in seconds. */
  const MetricPeriod := 300
  /** The largest distance from the epoch, in milliseconds, that a JavaScript
      `Date` can hold; `toISOString` throws beyond it. */
  const MaxTimeMillis := 8_640_000_000_000_000
  /** The message of the error `toISOString` throws on an invalid date. */
  const InvalidTimeValue := "Invalid time value"

  // ---------------------------------------------------------------- inputs

  /** The event the coordinator sends; `timestamp` is the alarm's time stamp text. */
  datatype CollectRequest = CollectRequest(functionName: string, alarmName: string, timestamp: string)

  datatype MetricStat = MetricStat(id: string, metricName: string, stat: string)

  /** The query sent to the metrics source. */
  datatype MetricQuery = MetricQuery(functionName: string, startTime: int, endTime: int, period: nat, stats: seq<MetricStat>)

  /** One entry of `MetricDataResults`; `Values`/`Timestamps` may be absent. */
  datatype MetricDataResult = MetricDataResult(id: string, values: Option<seq<real>>, timestamps: Option<seq<int>>)

  /** The filter query sent to the log source. */
  datatype LogQuery = LogQuery(logGroupName: string, startTime: int, endTime: int, limit: nat, filterPattern: string)

  datatype LogEvent = LogEvent(timestamp: int, message: string, logStreamName: string)

  const CollectorStats: seq<MetricStat> := [
    MetricStat("duration", "Duration", "Average"),
    MetricStat("errors", "Errors", "Sum"),
    MetricStat("throttles", "Throttles", "Sum")
  ]

  // --------------------------------------------------------------- outputs

  /** `processedMetrics[id]`. Note that `count` is the number of data points. */
  datatype MetricSeries = MetricSeries(values: seq<real>, timestamps: seq<int>, average: real, max: real, count: nat)

  datatype MemorySample = MemorySample(timestamp: int, memorySize: nat, maxMemoryUsed: nat, memoryUtilization: int)

  datatype MemoryInfo = MemoryInfo(
    currentMemorySize: nat,
    averageUtilization: int,
    maxUtilization: int,
    samples: nat,
    recentSamples: seq<MemorySample>)

  /** The log `summary`: counts, or the text that replaces them when the logs
      could not be read. */
  datatype LogSummary =
    | Counts(totalEvents: nat, errorCount: nat, timeoutCount: nat, memoryReports: nat)
    | Note(text: string)

  datatype Logs = Logs(events: seq<LogEvent>, summary: LogSummary, memoryInfo: Option<MemoryInfo>, error: Option<string>)

  datatype DataCollection = DataCollection(
    functionName: string,
    alarmName: string,
    timestamp: int,
    metrics: map<string, MetricSeries>,
    logs: Logs)

  // ------------------------------------------------------ numeric helpers

  function Sum(xs: seq<real>): real {
    if xs == [] then 0.0 else Sum(xs[..|xs| - 1]) + xs[|xs| - 1]
  }

  /** `Math.max(...xs)` of a non-empty list. */
  function Max(xs: seq<real>): (m: real)
    requires xs != []
    ensures forall i :: 0 <= i < |xs| ==> xs[i] <= m
    ensures exists i :: 0 <= i < |xs| && xs[i] == m
  {
    if |xs| == 1 then xs[0]
    else
      var m' := Max(xs[..|xs| - 1]);
      assert forall i :: 0 <= i < |xs| - 1 ==> xs[..|xs| - 1][i] == xs[i];
      if xs[|xs| - 1] > m' then xs[|xs| - 1] else m'
  }

  lemma {:induction false} SumAtMostCountTimesBound(xs: seq<real>, b: real)
    requires forall i :: 0 <= i < |xs| ==> xs[i] <= b
    ensures Sum(xs) <= |xs| as real * b
  {
    if xs != [] {
      SumAtMostCountTimesBound(xs[..|xs| - 1], b);
    }
  }

  lemma QuotientAtMost(s: real, n: real, b: real)
    requires n > 0.0 && s <= n * b
    ensures s / n <= b
  {
    var q := s / n;
    assert q * n == s;
    if q > b {
      assert q * n > b * n;
    }
  }

  lemma MeanAtMostBound(xs: seq<real>, b: real)
    requires xs != []
    requires forall i :: 0 <= i < |xs| ==> xs[i] <= b
    ensures Sum(xs) / |xs| as real <= b
  {
    SumAtMostCountTimesBound(xs, b);
    QuotientAtMost(Sum(xs), |xs| as real, b);
  }

  lemma QuotientTimesDivisor(s: real, n: real)
    requires n > 0.0
    ensures (s / n) * n == s
  {
  }

  lemma MulMonotone(a: nat, x: int, y: int)
    requires x <= y
    ensures a * x <= a * y
  {
  }

  /** Floor division by a positive divisor brackets the dividend. */
  lemma DivBounds(n: int, d: int)
    requires d > 0
    ensures d * (n / d) <= n < d * (n / d) + d
  {
  }

  // ------------------------------------------------------ metric aggregation

  /** One entry of `processedMetrics`. */
  function SeriesOf(r: MetricDataResult): MetricSeries {
    var vs := r.values.GetOr([]);
    MetricSeries(
      vs,
      r.timestamps.GetOr([]),
      if |vs| > 0 then Sum(vs) / |vs| as real else 0.0,
      if |vs| > 0 then Max(vs) else 0.0,
      |vs|)
  }

  /** The series summary: the mean and maximum of the values (zero when there
      are none) and the number of data points. */
  lemma SeriesSummarizesValues(r: MetricDataResult)
    ensures var s := SeriesOf(r);
      && s.count == |s.values|
      && (s.values == [] ==> s.average == 0.0 && s.max == 0.0)
      && (s.values != [] ==>
            && s.average * s.count as real == Sum(s.values)
            && s.average <= s.max
            && forall i :: 0 <= i < s.count ==> s.values[i] <= s.max)
  {
    var vs := r.values.GetOr([]);
    if vs != [] {
      var m := Max(vs);
      MeanAtMostBound(vs, m);
      QuotientTimesDivisor(Sum(vs), |vs| as real);
    }
  }

  /** `processedMetrics` after the `forEach` over `results`: a later result
      with the same id replaces an earlier one. */
  function Processed(results: seq<MetricDataResult>): map<string, MetricSeries> {
    if results == [] then map[]
    else Processed(results[..|results| - 1])[results[|results| - 1].id := SeriesOf(results[|results| - 1])]
  }

  predicate IsLastWithId(results: seq<MetricDataResult>, k: int)
    requires 0 <= k < |results|
  {
    forall j :: k < j < |results| ==> results[j].id != results[k].id
  }

  /** The keys of `processedMetrics` are exactly the ids of the results. */
  lemma {:induction false} ProcessedKeys(results: seq<MetricDataResult>)
    ensures Processed(results).Keys == set r | r in results :: r.id
  {
    if results != [] {
      var init := results[..|results| - 1];
      ProcessedKeys(init);
      assert results == init + [results[|results| - 1]];
    }
  }

  /** Each id holds the series of the last result with that id. */
  lemma {:induction false} ProcessedKeepsLastResultPerId(results: seq<MetricDataResult>, k: int)
    requires 0 <= k < |results| && IsLastWithId(results, k)
    ensures results[k].id in Processed(results)
    ensures Processed(results)[results[k].id] == SeriesOf(results[k])
  {
    var n := |results|;
    if k < n - 1 {
      var init := results[..n - 1];
      assert IsLastWithId(init, k) by {
        forall j | k < j < |init| ensures init[j].id != init[k].id {
          assert init[j] == results[j];
        }
      }
      ProcessedKeepsLastResultPerId(init, k);
      assert init[k] == results[k];
      assert results[n - 1].id != results[k].id;
    }
  }

  /** `collectMetrics`: a failed fetch yields the empty object. */
  method CollectMetrics(functionName: string, startTime: int, endTime: int,
                        metricSource: MetricQuery -> Result<seq<MetricDataResult>, string>)
    returns (metrics: map<string, MetricSeries>)
    ensures metricSource(MetricQuery(functionName, startTime, endTime, MetricPeriod, CollectorStats)).Failure? ==> metrics == map[]
    ensures metricSource(MetricQuery(functionName, startTime, endTime, MetricPeriod, CollectorStats)).Success? ==>
      metrics == Processed(metricSource(MetricQuery(functionName, startTime, endTime, MetricPeriod, CollectorStats)).value)
  {
    var fetched := metricSource(MetricQuery(functionName, startTime, endTime, MetricPeriod, CollectorStats));
    if fetched.Failure? {
      return map[];
    }
    var results := fetched.value;
    metrics := map[];
    var i := 0;
    while i < |results|
      invariant 0 <= i <= |results|
      invariant metrics == Processed(results[..i])
    {
      assert results[..i + 1][..i] == results[..i];
      metrics := metrics[results[i].id := SeriesOf(results[i])];
      i := i + 1;
    }
    assert results[..|results|] == results;
  }

  // ------------------------------------------------------------ log summary

  /** `events.filter(e => e.message.includes(p)).length` */
  function CountContaining(events: seq<LogEvent>, p: string): (n: nat)
    ensures n <= |events|
    ensures n > 0 <==> exists i :: 0 <= i < |events| && Contains(events[i].message, p)
    ensures n == |events| <==> forall i :: 0 <= i < |events| ==> Contains(events[i].message, p)
  {
    if events == [] then 0
    else
      var init := events[..|events| - 1];
      assert forall i :: 0 <= i < |init| ==> init[i] == events[i];
      CountContaining(init, p) + (if Contains(events[|events| - 1].message, p) then 1 else 0)
  }

  function SummaryOf(events: seq<LogEvent>): (s: LogSummary)
    ensures s.Counts? && s.totalEvents == |events|
    ensures s.errorCount <= s.totalEvents && s.timeoutCount <= s.totalEvents && s.memoryReports <= s.totalEvents
    ensures s.errorCount > 0 <==> exists i :: 0 <= i < |events| && Contains(events[i].message, "ERROR")
    ensures s.timeoutCount > 0 <==> exists i :: 0 <= i < |events| && Contains(events[i].message, "Task timed out")
    ensures s.memoryReports > 0 <==> exists i :: 0 <= i < |events| && Contains(events[i].message, "Max Memory Used")
  {
    Counts(|events|,
           CountContaining(events, "ERROR"),
           CountContaining(events, "Task timed out"),
           CountContaining(events, "Max Memory Used"))
  }

  // ------------------------------------------------------- memory reports

  /** The first match of `key\s*(\d+)\s*MB` at the very start of `s`. */
  function NumberAt(s: string, key: string): Option<nat> {
    if !StartsWith(s, key) then None
    else
      var r := s[|key|..];
      var r1 := r[SpaceRun(r)..];
      var d := DigitRun(r1);
      if d == 0 then None
      else
        var r2 := r1[d..];
        if StartsWith(r2[SpaceRun(r2)..], "MB") then Some(DecimalValue(r1[..d])) else None
  }

  /** `message.match(/key\s*(\d+)\s*MB/)`, parsed: the leftmost match wins. */
  function FindNumber(s: string, key: string): Option<nat>
    decreases |s|
  {
    if NumberAt(s, key).Some? then NumberAt(s, key)
    else if s == [] then None
    else FindNumber(s[1..], key)
  }

  predicate IsMemoryReport(e: LogEvent) {
    Contains(e.message, "REPORT") && Contains(e.message, "Max Memory Used")
  }

  /** `Math.round(maxMemoryUsed / memorySize * 100)` for a positive size. */
  function Utilization(memorySize: nat, maxMemoryUsed: nat): int {
    if memorySize == 0 then 0 else (200 * maxMemoryUsed + memorySize) / (2 * memorySize)
  }

  /** The utilisation is the percentage rounded half up: `u - 1/2 <= 100 * used / size < u + 1/2`,
      multiplied out by `2 * size`. */
  lemma UtilizationIsRoundedPercentage(memorySize: nat, maxMemoryUsed: nat)
    requires memorySize > 0
    ensures var u := Utilization(memorySize, maxMemoryUsed);
      2 * memorySize * u - memorySize <= 200 * maxMemoryUsed < 2 * memorySize * u + memorySize
  {
    DivBounds(200 * maxMemoryUsed + memorySize, 2 * memorySize);
  }

  /** The sample a memory report yields, if it shows both numbers. */
  function SampleOf(e: LogEvent): Option<MemorySample> {
    var size := FindNumber(e.message, "Memory Size:");
    var used := FindNumber(e.message, "Max Memory Used:");
    if size.Some? && used.Some?
    then Some(MemorySample(e.timestamp, size.value, used.value, Utilization(size.value, used.value)))
    else None
  }

  function MemoryReports(events: seq<LogEvent>): (rs: seq<LogEvent>)
    ensures |rs| <= |events|
    ensures forall i :: 0 <= i < |rs| ==> IsMemoryReport(rs[i])
    ensures forall e :: e in rs <==> e in events && IsMemoryReport(e)
  {
    if events == [] then []
    else
      var last := events[|events| - 1];
      assert events == events[..|events| - 1] + [last];
      MemoryReports(events[..|events| - 1]) + (if IsMemoryReport(last) then [last] else [])
  }

  /** `memoryData`: the samples of the reports that show both numbers, in order. */
  function Samples(reports: seq<LogEvent>): (ss: seq<MemorySample>)
    ensures |ss| <= |reports|
    ensures forall s :: s in ss <==> exists e :: e in reports && SampleOf(e) == Some(s)
  {
    if reports == [] then []
    else
      var last := reports[|reports| - 1];
      var s := SampleOf(last);
      Samples(reports[..|reports| - 1]) + (if s.Some? then [s.value] else [])
  }

  function UtilizationSum(ss: seq<MemorySample>): int {
    if ss == [] then 0 else UtilizationSum(ss[..|ss| - 1]) + ss[|ss| - 1].memoryUtilization
  }

  function MaxUtilization(ss: seq<MemorySample>): (m: int)
    requires ss != []
    ensures forall i :: 0 <= i < |ss| ==> ss[i].memoryUtilization <= m
    ensures exists i :: 0 <= i < |ss| && ss[i].memoryUtilization == m
  {
    if |ss| == 1 then ss[0].memoryUtilization
    else
      var m' := MaxUtilization(ss[..|ss| - 1]);
      assert forall i :: 0 <= i < |ss| - 1 ==> ss[..|ss| - 1][i] == ss[i];
      if ss[|ss| - 1].memoryUtilization > m' then ss[|ss| - 1].memoryUtilization else m'
  }

  lemma {:induction false} UtilizationSumBound(ss: seq<MemorySample>, b: int)
    requires forall i :: 0 <= i < |ss| ==> ss[i].memoryUtilization <= b
    ensures UtilizationSum(ss) <= |ss| * b
  {
    if ss != [] {
      UtilizationSumBound(ss[..|ss| - 1], b);
    }
  }

  /** `Math.round(total / n)`. */
  function RoundedMean(total: int, n: nat): int
    requires n > 0
  {
    (2 * total + n) / (2 * n)
  }

  lemma RoundedMeanAtMostBound(total: int, n: nat, b: int)
    requires n > 0 && total <= n * b
    ensures RoundedMean(total, n) <= b
  {
    var q := RoundedMean(total, n);
    DivBounds(2 * total + n, 2 * n);
    if q > b {
      MulMonotone(2 * n, b + 1, q);
    }
  }

  /** The summary built from the samples, `null` when there are none. The
      average is `Math.round` of the mean. */
  function Summarize(ss: seq<MemorySample>): Option<MemoryInfo> {
    if ss == [] then None
    else
      var n := |ss|;
      Some(MemoryInfo(
        ss[n - 1].memorySize,
        RoundedMean(UtilizationSum(ss), n),
        MaxUtilization(ss),
        n,
        ss[if n >= 3 then n - 3 else 0..]))
  }

  /** The promises of `extractMemoryInfo` about the summary it builds. */
  lemma SummaryProperties(ss: seq<MemorySample>)
    ensures Summarize(ss).None? <==> ss == []
    ensures Summarize(ss).Some? ==>
      var info := Summarize(ss).value;
      && info.samples == |ss|
      && info.currentMemorySize == ss[|ss| - 1].memorySize
      && (forall i :: 0 <= i < |ss| ==> ss[i].memoryUtilization <= info.maxUtilization)
      && (exists i :: 0 <= i < |ss| && ss[i].memoryUtilization == info.maxUtilization)
      && info.averageUtilization <= info.maxUtilization
      && |info.recentSamples| == (if |ss| < 3 then |ss| else 3)
      && info.recentSamples == ss[|ss| - |info.recentSamples|..]
  {
    if ss != [] {
      var n := |ss|;
      var m := MaxUtilization(ss);
      UtilizationSumBound(ss, m);
      RoundedMeanAtMostBound(UtilizationSum(ss), n, m);
    }
  }

  lemma SamplesOfLonger(reports: seq<LogEvent>, i: int)
    requires 0 <= i < |reports|
    ensures Samples(reports[..i + 1])
            == Samples(reports[..i]) + (if SampleOf(reports[i]).Some? then [SampleOf(reports[i]).value] else [])
  {
    assert reports[..i + 1][..i] == reports[..i];
  }

  /** The `forEach` over the memory reports that fills `memoryData`. */
  method ParseSamples(memoryReports: seq<LogEvent>) returns (memoryData: seq<MemorySample>)
    ensures memoryData == Samples(memoryReports)
  {
    memoryData := [];
    var i := 0;
    while i < |memoryReports|
      invariant 0 <= i <= |memoryReports|
      invariant memoryData == Samples(memoryReports[..i])
    {
      var sample := SampleOf(memoryReports[i]);
      SamplesOfLonger(memoryReports, i);
      if sample.Some? {
        memoryData := memoryData + [sample.value];
      }
      i := i + 1;
    }
    assert memoryReports[..|memoryReports|] == memoryReports;
  }

  /** `extractMemoryInfo`. */
  method ExtractMemoryInfo(events: seq<LogEvent>) returns (info: Option<MemoryInfo>)
    ensures info == Summarize(Samples(MemoryReports(events)))
    ensures info.Some? ==> info.value.samples <= |events|
  {
    var memoryReports := MemoryReports(events);
    if |memoryReports| == 0 {
      return None;
    }
    var memoryData := ParseSamples(memoryReports);
    if |memoryData| == 0 {
      return None;
    }
    info := Summarize(memoryData);
  }

  lemma SampleIsKept(reports: seq<LogEvent>, e: LogEvent)
    requires e in reports && SampleOf(e).Some?
    ensures SampleOf(e).value in Samples(reports)
  {
    var sample := SampleOf(e);
    assert e in reports && SampleOf(e) == Some(sample.value);
  }

  /** A sample comes from a report among `events`. */
  lemma ReportOfSample(events: seq<LogEvent>, reports: seq<LogEvent>, sample: MemorySample)
    requires forall e :: e in reports ==> e in events && IsMemoryReport(e)
    requires sample in Samples(reports)
    ensures exists i :: 0 <= i < |events| && IsMemoryReport(events[i]) && SampleOf(events[i]) == Some(sample)
  {
    var e :| e in reports && SampleOf(e) == Some(sample);
    var i :| 0 <= i < |events| && events[i] == e;
  }

  /** `extractMemoryInfo` gives `null` exactly when no event is a memory
      report that shows both the memory size and the memory used. */
  lemma NoMemoryInfoIff(events: seq<LogEvent>)
    ensures Summarize(Samples(MemoryReports(events))).None?
            <==> forall i :: 0 <= i < |events| ==> !(IsMemoryReport(events[i]) && SampleOf(events[i]).Some?)
  {
    var ss := Samples(MemoryReports(events));
    assert Summarize(ss).None? <==> ss == [];
    if ss != [] {
      ReportOfSample(events, MemoryReports(events), ss[0]);
    }
    if exists i :: 0 <= i < |events| && IsMemoryReport(events[i]) && SampleOf(events[i]).Some? {
      var i :| 0 <= i < |events| && IsMemoryReport(events[i]) && SampleOf(events[i]).Some?;
      SampleIsKept(MemoryReports(events), events[i]);
    }
  }

  /** A valid JavaScript `Date`: one whose `toISOString` does not throw. */
  predicate ValidTime(t: int) {
    -MaxTimeMillis <= t <= MaxTimeMillis
  }

  /** What `collectLogs` returns. An inaccessible log group, a failed fetch and
      an event whose time stamp is not a valid date (its `toISOString` throws
      inside the `try`) each give an empty event list with a text summary. */
  function LogsOf(functionName: string, startTime: int, endTime: int,
                  describeSucceeds: string -> bool,
                  logSource: LogQuery -> Result<seq<LogEvent>, string>): Logs
  {
    var group := LogGroupPrefix + functionName;
    if !describeSucceeds(group) then Logs([], Note("Log group not accessible"), None, None)
    else match logSource(LogQuery(group, startTime, endTime, LogLimit, LogFilterPattern))
      case Failure(e) => Logs([], Note("Error collecting logs"), None, Some(e))
      case Success(events) =>
        if exists i :: 0 <= i < |events| && !ValidTime(events[i].timestamp)
        then Logs([], Note("Error collecting logs"), None, Some(InvalidTimeValue))
        else Logs(events, SummaryOf(events), Summarize(Samples(MemoryReports(events))), None)
  }

  /** The collected logs carry memory information exactly when the fetch
      succeeds, every time stamp is a valid date, and some event is a memory
      report showing both numbers. */
  lemma CollectedMemoryInfoIff(functionName: string, startTime: int, endTime: int,
                               describeSucceeds: string -> bool,
                               logSource: LogQuery -> Result<seq<LogEvent>, string>)
    ensures var group := LogGroupPrefix + functionName;
            var fetched := logSource(LogQuery(group, startTime, endTime, LogLimit, LogFilterPattern));
            LogsOf(functionName, startTime, endTime, describeSucceeds, logSource).memoryInfo.Some?
            <==> (&& describeSucceeds(group)
                  && fetched.Success?
                  && (forall i :: 0 <= i < |fetched.value| ==> ValidTime(fetched.value[i].timestamp))
                  && exists i :: 0 <= i < |fetched.value|
                                 && IsMemoryReport(fetched.value[i]) && SampleOf(fetched.value[i]).Some?)
  {
    var group := LogGroupPrefix + functionName;
    var fetched := logSource(LogQuery(group, startTime, endTime, LogLimit, LogFilterPattern));
    if describeSucceeds(group) && fetched.Success? {
      NoMemoryInfoIff(fetched.value);
    }
  }

  /** `collectLogs`: it never fails. The `map` over the events is the loop
      that checks each time stamp. */
  method CollectLogs(functionName: string, startTime: int, endTime: int,
                     describeSucceeds: string -> bool,
                     logSource: LogQuery -> Result<seq<LogEvent>, string>)
    returns (logs: Logs)
    ensures logs == LogsOf(functionName, startTime, endTime, describeSucceeds, logSource)
    ensures var group := LogGroupPrefix + functionName;
            var fetched := logSource(LogQuery(group, startTime, endTime, LogLimit, LogFilterPattern));
      && (!describeSucceeds(group) ==> logs == Logs([], Note("Log group not accessible"), None, None))
      && (describeSucceeds(group) && fetched.Failure? ==>
            logs == Logs([], Note("Error collecting logs"), None, Some(fetched.error)))
      && (describeSucceeds(group) && fetched.Success? && (exists i :: 0 <= i < |fetched.value| && !ValidTime(fetched.value[i].timestamp)) ==>
            logs == Logs([], Note("Error collecting logs"), None, Some(InvalidTimeValue)))
      && (describeSucceeds(group) && fetched.Success? && (forall i :: 0 <= i < |fetched.value| ==> ValidTime(fetched.value[i].timestamp)) ==>
            var events := fetched.value;
            && logs.events == events
            && logs.summary == SummaryOf(events)
            && logs.error.None?
            && (logs.memoryInfo.None? <==> forall i :: 0 <= i < |events| ==> !(IsMemoryReport(events[i]) && SampleOf(events[i]).Some?)))
  {
    var logGroupName := LogGroupPrefix + functionName;
    if !describeSucceeds(logGroupName) {
      return Logs([], Note("Log group not accessible"), None, None);
    }
    var fetched := logSource(LogQuery(logGroupName, startTime, endTime, LogLimit, LogFilterPattern));
    if fetched.Failure? {
      return Logs([], Note("Error collecting logs"), None, Some(fetched.error));
    }
    var events := fetched.value;
    var i := 0;
    while i < |events|
      invariant 0 <= i <= |events|
      invariant forall j :: 0 <= j < i ==> ValidTime(events[j].timestamp)
    {
      if !ValidTime(events[i].timestamp) {
        return Logs([], Note("Error collecting logs"), None, Some(InvalidTimeValue));
      }
      i := i + 1;
    }
    var memoryInfo := ExtractMemoryInfo(events);
    NoMemoryInfoIff(events);
    logs := Logs(events, SummaryOf(events), memoryInfo, None);
  }

  /** The collection window `[end - 30 min, end]`; `end` is the alarm time, or
      the current time when the event carries none. `None` stands for an
      invalid date, on which the source throws: a time stamp that does not
      parse, or one whose window start or end is not a valid date. */
  function Window(timestamp: string, now: int, parseTime: string -> Option<int>): (w: Option<(int, int)>)
    ensures w.Some? ==> w.value.1 - w.value.0 == WindowMillis
    ensures timestamp == "" ==> w == Some((now - WindowMillis, now))
    ensures timestamp != "" ==>
      (w.Some? <==> (&& parseTime(timestamp).Some?
                     && ValidTime(parseTime(timestamp).value)
                     && ValidTime(parseTime(timestamp).value - WindowMillis)))
    ensures timestamp != "" && w.Some? ==> w.value.1 == parseTime(timestamp).value
  {
    if timestamp == "" then Some((now - WindowMillis, now))
    else match parseTime(timestamp)
      case None => None
      case Some(end) =>
        if ValidTime(end) && ValidTime(end - WindowMillis) then Some((end - WindowMillis, end)) else None
  }

  /** The data collector's `handler`. Metrics and logs are fetched
      independently; neither failure makes the handler fail. */
  method Handler(event: CollectRequest, now: int, parseTime: string -> Option<int>,
                 metricSource: MetricQuery -> Result<seq<MetricDataResult>, string>,
                 describeSucceeds: string -> bool,
                 logSource: LogQuery -> Result<seq<LogEvent>, string>)
    returns (r: Result<DataCollection, string>)
    ensures event.functionName == "" ==> r == Failure("functionName is required")
    ensures event.functionName != "" && Window(event.timestamp, now, parseTime).None? ==> r == Failure(InvalidTimeValue)
    ensures r.Success? <==> event.functionName != "" && Window(event.timestamp, now, parseTime).Some?
    ensures r.Success? ==>
      var (startTime, endTime) := Window(event.timestamp, now, parseTime).value;
      && r.value.functionName == event.functionName
      && r.value.alarmName == event.alarmName
      && r.value.timestamp == endTime
      && r.value.metrics == (match metricSource(MetricQuery(event.functionName, startTime, endTime, MetricPeriod, CollectorStats))
                             case Failure(_) => map[]
                             case Success(results) => Processed(results))
      && r.value.logs == LogsOf(event.functionName, startTime, endTime, describeSucceeds, logSource)
  {
    if event.functionName == "" {
      return Failure("functionName is required");
    }
    var window := Window(event.timestamp, now, parseTime);
    if window.None? {
      return Failure(InvalidTimeValue);
    }
    var (startTime, endTime) := window.value;
    var metrics := CollectMetrics(event.functionName, startTime, endTime, metricSource);
    var logs := CollectLogs(event.functionName, startTime, endTime, describeSucceeds, logSource);
    r := Success(DataCollection(event.functionName, event.alarmName, endTime, metrics, logs));
  }
}
