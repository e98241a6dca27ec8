/** The diagnosis lambda: an AI-assisted path (prompt, model call, extraction
    and normalisation of its JSON reply) and the deterministic rule-based
    scorer the handler falls back to whenever the AI path fails. */
module Diagnosis {
  import opened Wrappers
  import opened Text
  import DataCollector

  type DataCollection = DataCollector.DataCollection
  type LogEvent = DataCollector.LogEvent

  datatype EvidenceKind =
    | AlarmType
    | Metrics
    | LogEntries
    | MemoryAnalysis
    | ErrorPattern(pattern: string)
    | Reported(kind: string)   // a point as the AI reply states it

  /** One evidence point; `weight` is the amount it adds to the score. */
  datatype EvidencePoint = EvidencePoint(kind: EvidenceKind, weight: real)

  /** `recommendedAction`, one alternative per text the lambda produces. */
  datatype Action =
    | IncreaseMemory(mb: int)
    | InvestigateMemoryIssue        // "Manual investigation required - memory issue detected but ..."
    | InvestigateNotMemoryRelated   // "Manual investigation required - issue does not appear to be memory-related"
    | NoActionRequired

  /** The diagnosis record; `diagnosisMethod` is set by the AI path only. */
  datatype Diagnosis = Diagnosis(
    functionName: string,
    alarmName: string,
    isMemoryIssue: bool,
    confidence: real,
    recommendedAction: Action,
    recommendedMemoryIncrease: int,
    evidencePoints: seq<EvidencePoint>,
    diagnosisMethod: Option<string>)

  const ErrorPatterns: seq<string> := [
    "JavaScript heap out of memory",
    "Cannot allocate memory",
    "OutOfMemoryError",
    "Runtime exited with error: signal: killed"
  ]

  /** Confidence at or above which the score alone marks a memory issue. */
  const Threshold := 0.6
  /** Average duration above which the duration metric counts as evidence (ms). */
  const SlowDurationMillis := 25000.0
  /** Memory increase used when no current size is known (MB). */
  const DefaultIncrease := 256

  // ------------------------------------------------------------ arithmetic

  /** JavaScript's `Math.round`: halves round up. */
  function Round(x: real): int {
    (x + 0.5).Floor
  }

  /** `Math.round` is the nearest integer, halves rounding up. */
  lemma RoundIsNearest(x: real)
    ensures x - 0.5 < Round(x) as real <= x + 0.5
  {
  }

  /** `Math.ceil(x / 64) * 64`. */
  function Ceil64(x: int): int {
    ((x + 63) / 64) * 64
  }

  lemma Ceil64IsLeastMultipleAbove(x: int)
    ensures Ceil64(x) % 64 == 0
    ensures x <= Ceil64(x) < x + 64
  {
  }

  function MaxInt(a: int, b: int): int {
    if a >= b then a else b
  }

  function MinReal(a: real, b: real): real {
    if a <= b then a else b
  }

  // ------------------------------------------------------------- evidence

  function WeightSum(points: seq<EvidencePoint>): real {
    if points == [] then 0.0 else WeightSum(points[..|points| - 1]) + points[|points| - 1].weight
  }

  lemma WeightSumAppend(points: seq<EvidencePoint>, p: EvidencePoint)
    ensures WeightSum(points + [p]) == WeightSum(points) + p.weight
  {
    assert (points + [p])[..|points|] == points;
  }

  lemma {:induction false} WeightSumConcat(a: seq<EvidencePoint>, b: seq<EvidencePoint>)
    ensures WeightSum(a + b) == WeightSum(a) + WeightSum(b)
  {
    if b != [] {
      var b' := b[..|b| - 1];
      WeightSumConcat(a, b');
      assert a + b == (a + b') + [b[|b| - 1]];
      WeightSumAppend(a + b', b[|b| - 1]);
    } else {
      assert a + b == a;
    }
  }

  /** Step 1: the alarm name mentions errors (0.3) or duration (0.2). */
  function AlarmEvidence(alarmName: string): seq<EvidencePoint> {
    (if Contains(alarmName, "error") || Contains(alarmName, "Error") then [EvidencePoint(AlarmType, 0.3)] else [])
    + (if Contains(alarmName, "duration") || Contains(alarmName, "Duration") then [EvidencePoint(AlarmType, 0.2)] else [])
  }

  /** Step 2: any error data point (0.4); a mean duration above 25 s (0.3). */
  function MetricEvidence(metrics: map<string, DataCollector.MetricSeries>): seq<EvidencePoint> {
    (if "errors" in metrics && metrics["errors"].count > 0 then [EvidencePoint(Metrics, 0.4)] else [])
    + (if "duration" in metrics && metrics["duration"].average > 0.0 && metrics["duration"].average > SlowDurationMillis
       then [EvidencePoint(Metrics, 0.3)] else [])
  }

  /** Step 3: error log entries (0.2); timeouts (0.3). A text summary has no counts. */
  function LogEvidence(summary: DataCollector.LogSummary): seq<EvidencePoint> {
    match summary
    case Note(_) => []
    case Counts(_, errorCount, timeoutCount, _) =>
      (if errorCount > 0 then [EvidencePoint(LogEntries, 0.2)] else [])
      + (if timeoutCount > 0 then [EvidencePoint(LogEntries, 0.3)] else [])
  }

  /** Step 4: peak utilisation of at least 95 % (0.5), else at least 85 % (0.3). */
  function MemoryEvidence(info: Option<DataCollector.MemoryInfo>): seq<EvidencePoint> {
    if info.None? then []
    else if info.value.maxUtilization >= 95 then [EvidencePoint(MemoryAnalysis, 0.5)]
    else if info.value.maxUtilization >= 85 then [EvidencePoint(MemoryAnalysis, 0.3)]
    else []
  }

  /** The first of `patterns` that `message` contains. */
  function FirstPatternIn(message: string, patterns: seq<string>): Option<string>
    decreases |patterns|
  {
    if patterns == [] then None
    else if Contains(message, patterns[0]) then Some(patterns[0])
    else FirstPatternIn(message, patterns[1..])
  }

  /** The out-of-memory phrase found by the scan: events in order, and for each
      event the phrases in order; the scan stops at the first hit. */
  function FirstErrorPattern(events: seq<LogEvent>): Option<string>
    decreases |events|
  {
    if events == [] then None
    else if FirstPatternIn(events[0].message, ErrorPatterns).Some? then FirstPatternIn(events[0].message, ErrorPatterns)
    else FirstErrorPattern(events[1..])
  }

  /** Step 5: at most one point, for the first phrase found (0.6). */
  function PatternEvidence(events: seq<LogEvent>): seq<EvidencePoint> {
    match FirstErrorPattern(events)
    case None => []
    case Some(p) => [EvidencePoint(ErrorPattern(p), 0.6)]
  }

  function Evidence(alarmName: string, data: DataCollection): seq<EvidencePoint> {
    AlarmEvidence(alarmName) + MetricEvidence(data.metrics) + LogEvidence(data.logs.summary)
    + MemoryEvidence(data.logs.memoryInfo) + PatternEvidence(data.logs.events)
  }

  /** What each step adds to `memoryIssueScore`. */
  function AlarmScore(alarmName: string): real {
    (if Contains(alarmName, "error") || Contains(alarmName, "Error") then 0.3 else 0.0)
    + (if Contains(alarmName, "duration") || Contains(alarmName, "Duration") then 0.2 else 0.0)
  }

  function MetricScore(metrics: map<string, DataCollector.MetricSeries>): real {
    (if "errors" in metrics && metrics["errors"].count > 0 then 0.4 else 0.0)
    + (if "duration" in metrics && metrics["duration"].average > SlowDurationMillis then 0.3 else 0.0)
  }

  function LogScore(summary: DataCollector.LogSummary): real {
    (if summary.Counts? && summary.errorCount > 0 then 0.2 else 0.0)
    + (if summary.Counts? && summary.timeoutCount > 0 then 0.3 else 0.0)
  }

  function MemoryScore(info: Option<DataCollector.MemoryInfo>): real {
    if info.Some? && info.value.maxUtilization >= 95 then 0.5
    else if info.Some? && info.value.maxUtilization >= 85 then 0.3
    else 0.0
  }

  function PatternScore(events: seq<LogEvent>): real {
    if FirstErrorPattern(events).Some? then 0.6 else 0.0
  }

  /** `memoryIssueScore` once all five steps have run. */
  function Score(alarmName: string, data: DataCollection): real {
    AlarmScore(alarmName) + MetricScore(data.metrics) + LogScore(data.logs.summary)
    + MemoryScore(data.logs.memoryInfo) + PatternScore(data.logs.events)
  }

  /** The score is exactly the total weight of the evidence points reported with it. */
  lemma ScoreIsEvidenceWeight(alarmName: string, data: DataCollection)
    ensures Score(alarmName, data) == WeightSum(Evidence(alarmName, data))
  {
    var a, m, l, u, p := AlarmEvidence(alarmName), MetricEvidence(data.metrics), LogEvidence(data.logs.summary),
                         MemoryEvidence(data.logs.memoryInfo), PatternEvidence(data.logs.events);
    WeightSumConcat(a, m);
    WeightSumConcat(a + m, l);
    WeightSumConcat(a + m + l, u);
    WeightSumConcat(a + m + l + u, p);
    FamilyWeights(alarmName, data);
  }

  lemma FamilyWeights(alarmName: string, data: DataCollection)
    ensures WeightSum(AlarmEvidence(alarmName)) == AlarmScore(alarmName)
    ensures WeightSum(MetricEvidence(data.metrics)) == MetricScore(data.metrics)
    ensures WeightSum(LogEvidence(data.logs.summary)) == LogScore(data.logs.summary)
    ensures WeightSum(MemoryEvidence(data.logs.memoryInfo)) == MemoryScore(data.logs.memoryInfo)
    ensures WeightSum(PatternEvidence(data.logs.events)) == PatternScore(data.logs.events)
  {
    SignalWeights(alarmName, data.metrics, data.logs.summary);
    PairWeight(MemoryEvidence(data.logs.memoryInfo));
    PairWeight(PatternEvidence(data.logs.events));
  }

  lemma SignalWeights(alarmName: string, metrics: map<string, DataCollector.MetricSeries>,
                      summary: DataCollector.LogSummary)
    ensures WeightSum(AlarmEvidence(alarmName)) == AlarmScore(alarmName)
    ensures WeightSum(MetricEvidence(metrics)) == MetricScore(metrics)
    ensures WeightSum(LogEvidence(summary)) == LogScore(summary)
  {
    AlarmWeight(alarmName);
    MetricWeight(metrics);
    LogWeight(summary);
  }

  lemma AlarmWeight(alarmName: string)
    ensures WeightSum(AlarmEvidence(alarmName)) == AlarmScore(alarmName)
  {
    PairWeight(AlarmEvidence(alarmName));
  }

  lemma MetricWeight(metrics: map<string, DataCollector.MetricSeries>)
    ensures WeightSum(MetricEvidence(metrics)) == MetricScore(metrics)
  {
    PairWeight(MetricEvidence(metrics));
  }

  lemma LogWeight(summary: DataCollector.LogSummary)
    ensures WeightSum(LogEvidence(summary)) == LogScore(summary)
  {
    PairWeight(LogEvidence(summary));
  }

  /** The weight of a list of at most two points. */
  lemma PairWeight(points: seq<EvidencePoint>)
    requires |points| <= 2
    ensures points == [] ==> WeightSum(points) == 0.0
    ensures |points| == 1 ==> WeightSum(points) == points[0].weight
    ensures |points| == 2 ==> WeightSum(points) == points[0].weight + points[1].weight
  {
    if |points| == 2 {
      assert points[..1] == [points[0]];
    }
  }

  /** `totalScore`: each of the three signal families adds its slot (0.3, 0.4, 0.3)
      whether or not it produced evidence. */
  const TotalScore: real := 0.3 + 0.4 + 0.3

  function Confidence(score: real): real {
    if TotalScore > 0.0 then MinReal(score / TotalScore, 1.0) else 0.0
  }

  // ---------------------------------------------------------------- sizing

  /** The increase the utilisation tiers recommend, before rounding to 64 MB. */
  function TierIncrease(currentMemorySize: int, maxUtilization: int): int {
    if maxUtilization >= 95 then MaxInt(Round(currentMemorySize as real * 0.5), 256)
    else if maxUtilization >= 90 then MaxInt(Round(currentMemorySize as real * 0.3), 128)
    else MaxInt(Round(currentMemorySize as real * 0.2), 128)
  }

  /** `diagnosis.recommendedMemoryIncrease` after step 4: set only for a peak
      utilisation of at least 85 %. */
  function UtilizationIncrease(info: Option<DataCollector.MemoryInfo>): int {
    if info.Some? && info.value.maxUtilization >= 85
    then Ceil64(TierIncrease(info.value.currentMemorySize, info.value.maxUtilization))
    else 0
  }

  /** Step 10: the default increase for a memory issue without a utilisation figure. */
  function DefaultMemoryIncrease(info: Option<DataCollector.MemoryInfo>): int {
    if info.Some? && info.value.currentMemorySize != 0
    then Ceil64(MaxInt(Round(info.value.currentMemorySize as real * 0.5), 256))
    else DefaultIncrease
  }

  /** Step 9, decided before the default increase of step 10 is filled in. */
  function ActionFor(isMemoryIssue: bool, increase: int): Action {
    if isMemoryIssue && increase > 0 then IncreaseMemory(increase)
    else if isMemoryIssue then InvestigateMemoryIssue
    else InvestigateNotMemoryRelated
  }

  /** The diagnosis `performRuleBasedDiagnosis` returns. */
  function RuleBased(functionName: string, alarmName: string, data: DataCollection): Diagnosis {
    var confidence := Confidence(Score(alarmName, data));
    var isMemoryIssue := confidence >= Threshold || FirstErrorPattern(data.logs.events).Some?;
    var increase := UtilizationIncrease(data.logs.memoryInfo);
    Diagnosis(
      functionName, alarmName, isMemoryIssue,
      Round(confidence * 100.0) as real / 100.0,
      ActionFor(isMemoryIssue, increase),
      if isMemoryIssue && increase == 0 then DefaultMemoryIncrease(data.logs.memoryInfo) else increase,
      Evidence(alarmName, data),
      None)
  }

  // ------------------------------------------------ properties of the verdict

  /** The stored confidence lies in [0, 1]: the ratio is capped at 1 and the
      score never goes negative. */
  lemma ConfidenceInUnitInterval(functionName: string, alarmName: string, data: DataCollection)
    ensures 0.0 <= RuleBased(functionName, alarmName, data).confidence <= 1.0
  {
    var c := Confidence(Score(alarmName, data));
    assert 0.0 <= c <= 1.0;
    assert 0 <= Round(c * 100.0) <= 100;
  }

  /** A memory issue is declared exactly when the score reaches 0.6 or a log
      line carries one of the out-of-memory phrases. */
  lemma MemoryIssueIff(functionName: string, alarmName: string, data: DataCollection)
    ensures RuleBased(functionName, alarmName, data).isMemoryIssue
            <==> Score(alarmName, data) >= Threshold || FirstErrorPattern(data.logs.events).Some?
  {
    assert TotalScore == 1.0;
  }

  /** Only the last evidence point can be an error-pattern point, and it names
      the first phrase the scan met. */
  lemma AtMostOneErrorPatternPoint(alarmName: string, data: DataCollection)
    ensures var ev := Evidence(alarmName, data);
            forall i :: 0 <= i < |ev| && ev[i].kind.ErrorPattern? ==>
              i == |ev| - 1 && FirstErrorPattern(data.logs.events) == Some(ev[i].kind.pattern)
  {
    var prefix := AlarmEvidence(alarmName) + MetricEvidence(data.metrics) + LogEvidence(data.logs.summary)
                  + MemoryEvidence(data.logs.memoryInfo);
    assert forall i :: 0 <= i < |prefix| ==> !prefix[i].kind.ErrorPattern?;
    assert Evidence(alarmName, data) == prefix + PatternEvidence(data.logs.events);
  }

  /** A recommended increase is a whole number of 64 MB blocks, and a memory
      issue always comes with at least 128 MB. */
  lemma IncreaseIsWholeBlocks(functionName: string, alarmName: string, data: DataCollection)
    ensures var d := RuleBased(functionName, alarmName, data);
            d.recommendedMemoryIncrease >= 0 && d.recommendedMemoryIncrease % 64 == 0
            && (d.isMemoryIssue ==> d.recommendedMemoryIncrease >= 128)
  {
    var info := data.logs.memoryInfo;
    if info.Some? {
      Ceil64IsLeastMultipleAbove(TierIncrease(info.value.currentMemorySize, info.value.maxUtilization));
      Ceil64IsLeastMultipleAbove(MaxInt(Round(info.value.currentMemorySize as real * 0.5), 256));
    }
  }

  /** The action follows the verdict, and is decided before the default
      increase is filled in: a memory issue without a utilisation figure asks
      for manual investigation even though an increase is then reported. */
  lemma ActionFollowsVerdict(functionName: string, alarmName: string, data: DataCollection)
    ensures var d := RuleBased(functionName, alarmName, data);
            var tiered := UtilizationIncrease(data.logs.memoryInfo);
            && d.recommendedAction != NoActionRequired
            && (!d.isMemoryIssue <==> d.recommendedAction == InvestigateNotMemoryRelated)
            && (d.recommendedAction.IncreaseMemory? <==> d.isMemoryIssue && tiered > 0)
            && (d.recommendedAction.IncreaseMemory? ==> d.recommendedAction.mb == d.recommendedMemoryIncrease)
            && (d.recommendedAction == InvestigateMemoryIssue ==>
                  d.recommendedMemoryIncrease == DefaultMemoryIncrease(data.logs.memoryInfo) >= 256)
            && (!d.isMemoryIssue ==> d.recommendedMemoryIncrease == tiered)
  {
    var info := data.logs.memoryInfo;
    if info.Some? {
      Ceil64IsLeastMultipleAbove(TierIncrease(info.value.currentMemorySize, info.value.maxUtilization));
      Ceil64IsLeastMultipleAbove(MaxInt(Round(info.value.currentMemorySize as real * 0.5), 256));
    }
  }

  lemma RoundMonotone(x: real, y: real)
    requires x <= y
    ensures Round(x) <= Round(y)
  {
  }

  lemma Ceil64Monotone(x: int, y: int)
    requires x <= y
    ensures Ceil64(x) <= Ceil64(y)
  {
    var p, q := (x + 63) / 64, (y + 63) / 64;
    assert p <= q;
    DataCollector.MulMonotone(64, p, q);
  }

  /** A higher utilisation tier never recommends less memory. */
  lemma TierIncreaseMonotone(currentMemorySize: nat, lower: int, higher: int)
    requires 85 <= lower <= higher
    ensures Ceil64(TierIncrease(currentMemorySize, lower)) <= Ceil64(TierIncrease(currentMemorySize, higher))
  {
    var m := currentMemorySize as real;
    RoundMonotone(m * 0.2, m * 0.3);
    RoundMonotone(m * 0.3, m * 0.5);
    Ceil64Monotone(TierIncrease(currentMemorySize, lower), TierIncrease(currentMemorySize, higher));
  }

  /** The three tiers on a 512 MB function. */
  lemma TierExamples512()
    ensures Ceil64(TierIncrease(512, 96)) == 256
    ensures Ceil64(TierIncrease(512, 92)) == 192
    ensures Ceil64(TierIncrease(512, 87)) == 128
  {
    assert Round(153.6) == 154;
    assert Round(102.4) == 102;
  }

  /** The three tiers on a 1024 MB function. */
  lemma TierExamples1024()
    ensures Ceil64(TierIncrease(1024, 96)) == 512
    ensures Ceil64(TierIncrease(1024, 92)) == 320
    ensures Ceil64(TierIncrease(1024, 87)) == 256
  {
    assert Round(307.2) == 307;
    assert Round(204.8) == 205;
  }

  /** An error alarm on a 512 MB function whose peak utilisation is 95 % or
      more is a memory issue with a 256 MB increase. */
  lemma HighUtilizationErrorAlarm(functionName: string, alarmName: string, data: DataCollection)
    requires Contains(alarmName, "error")
    requires data.logs.memoryInfo.Some?
    requires data.logs.memoryInfo.value.maxUtilization >= 95
    requires data.logs.memoryInfo.value.currentMemorySize == 512
    ensures var d := RuleBased(functionName, alarmName, data);
            d.isMemoryIssue && d.recommendedAction == IncreaseMemory(256) && d.recommendedMemoryIncrease == 256
  {
    assert Score(alarmName, data) >= 0.8;
    MemoryIssueIff(functionName, alarmName, data);
  }

  /** One out-of-memory phrase in the logs suffices on its own; without a
      utilisation figure the action is manual investigation and the reported
      increase is the 256 MB default. */
  lemma PhraseAloneDecides(functionName: string, alarmName: string, data: DataCollection)
    requires |data.logs.events| > 0 && Contains(data.logs.events[0].message, ErrorPatterns[0])
    requires data.logs.memoryInfo.None?
    ensures var d := RuleBased(functionName, alarmName, data);
            && d.isMemoryIssue
            && d.recommendedAction == InvestigateMemoryIssue
            && d.recommendedMemoryIncrease == 256
            && d.evidencePoints[|d.evidencePoints| - 1] == EvidencePoint(ErrorPattern(ErrorPatterns[0]), 0.6)
  {
    assert FirstErrorPattern(data.logs.events) == Some(ErrorPatterns[0]);
  }

  /** Without any signal the verdict is "not memory-related" with confidence 0. */
  lemma NoSignalIsNotMemory(functionName: string, alarmName: string, data: DataCollection)
    requires !Contains(alarmName, "error") && !Contains(alarmName, "Error")
    requires !Contains(alarmName, "duration") && !Contains(alarmName, "Duration")
    requires data.metrics == map[]
    requires data.logs.summary.Counts? && data.logs.summary.errorCount == 0 && data.logs.summary.timeoutCount == 0
    requires data.logs.memoryInfo.None?
    requires FirstErrorPattern(data.logs.events).None?
    ensures var d := RuleBased(functionName, alarmName, data);
            && !d.isMemoryIssue && d.confidence == 0.0
            && d.recommendedAction == InvestigateNotMemoryRelated
            && d.recommendedMemoryIncrease == 0 && d.evidencePoints == []
  {
    assert Round(0.0) == 0;
  }

  /** The error metric counts data points, not errors: a series of zeros
      still adds 0.4 to the score. */
  lemma ZeroErrorSeriesCounts(metrics: map<string, DataCollector.MetricSeries>, ts: seq<int>)
    requires "errors" in metrics
    requires metrics["errors"] == DataCollector.SeriesOf(DataCollector.MetricDataResult("errors", Some([0.0, 0.0]), Some(ts)))
    ensures MetricEvidence(metrics)[0] == EvidencePoint(Metrics, 0.4)
    ensures MetricScore(metrics) >= 0.4
  {
  }

  // -------------------------------------------------------- the scorer code

  /** The nested scan over events and phrases, with its two `break`s. */
  method ScanForMemoryErrors(events: seq<LogEvent>) returns (found: Option<string>)
    ensures found == FirstErrorPattern(events)
    ensures found.Some? ==>
              found.value in ErrorPatterns && exists i :: 0 <= i < |events| && Contains(events[i].message, found.value)
  {
    found := None;
    var i := 0;
    while i < |events|
      invariant 0 <= i <= |events|
      invariant found.None?
      invariant FirstErrorPattern(events) == FirstErrorPattern(events[i..])
    {
      var message := events[i].message;
      var j := 0;
      while j < |ErrorPatterns|
        invariant 0 <= j <= |ErrorPatterns|
        invariant found.None?
        invariant FirstPatternIn(message, ErrorPatterns) == FirstPatternIn(message, ErrorPatterns[j..])
      {
        if Contains(message, ErrorPatterns[j]) {
          found := Some(ErrorPatterns[j]);
          break;
        }
        assert ErrorPatterns[j..][1..] == ErrorPatterns[j + 1..];
        j := j + 1;
      }
      if found.Some? {
        assert found == FirstPatternIn(events[i..][0].message, ErrorPatterns);
        assert Contains(events[i].message, found.value);
        return;
      }
      assert FirstPatternIn(message, ErrorPatterns[j..]) == None;
      assert events[i..][1..] == events[i + 1..];
      i := i + 1;
    }
    assert events[i..] == [];
  }

  /** Step 1 of the scorer: the alarm name. */
  method AlarmTypeStep(alarmName: string, points: seq<EvidencePoint>, score: real)
    returns (points': seq<EvidencePoint>, score': real)
    ensures points' == points + AlarmEvidence(alarmName)
    ensures score' == score + AlarmScore(alarmName)
  {
    points', score' := points, score;
    if Contains(alarmName, "error") || Contains(alarmName, "Error") {
      points' := points' + [EvidencePoint(AlarmType, 0.3)];
      score' := score' + 0.3;
    }
    if Contains(alarmName, "duration") || Contains(alarmName, "Duration") {
      points' := points' + [EvidencePoint(AlarmType, 0.2)];
      score' := score' + 0.2;
    }
  }

  /** Step 2 of the scorer: the error and duration metrics. */
  method MetricStep(metrics: map<string, DataCollector.MetricSeries>, points: seq<EvidencePoint>, score: real)
    returns (points': seq<EvidencePoint>, score': real)
    ensures points' == points + MetricEvidence(metrics)
    ensures score' == score + MetricScore(metrics)
  {
    points', score' := points, score;
    if "errors" in metrics && metrics["errors"].count > 0 {
      points' := points' + [EvidencePoint(Metrics, 0.4)];
      score' := score' + 0.4;
    }
    if "duration" in metrics && metrics["duration"].average > 0.0 {
      if metrics["duration"].average > SlowDurationMillis {
        points' := points' + [EvidencePoint(Metrics, 0.3)];
        score' := score' + 0.3;
      }
    }
  }

  /** Step 3 of the scorer: the log summary counts. */
  method LogStep(summary: DataCollector.LogSummary, points: seq<EvidencePoint>, score: real)
    returns (points': seq<EvidencePoint>, score': real)
    ensures points' == points + LogEvidence(summary)
    ensures score' == score + LogScore(summary)
  {
    points', score' := points, score;
    if summary.Counts? {
      if summary.errorCount > 0 {
        points' := points' + [EvidencePoint(LogEntries, 0.2)];
        score' := score' + 0.2;
      }
      if summary.timeoutCount > 0 {
        points' := points' + [EvidencePoint(LogEntries, 0.3)];
        score' := score' + 0.3;
      }
    }
  }

  /** Step 4 of the scorer: peak utilisation, and the tiered memory increase. */
  method MemoryStep(memoryInfo: Option<DataCollector.MemoryInfo>, points: seq<EvidencePoint>, score: real)
    returns (points': seq<EvidencePoint>, score': real, increase: int)
    ensures points' == points + MemoryEvidence(memoryInfo)
    ensures score' == score + MemoryScore(memoryInfo)
    ensures increase == UtilizationIncrease(memoryInfo)
  {
    points', score', increase := points, score, 0;
    if memoryInfo.Some? {
      var info := memoryInfo.value;
      if info.maxUtilization >= 95 {
        points' := points' + [EvidencePoint(MemoryAnalysis, 0.5)];
        score' := score' + 0.5;
      } else if info.maxUtilization >= 85 {
        points' := points' + [EvidencePoint(MemoryAnalysis, 0.3)];
        score' := score' + 0.3;
      }
      if info.maxUtilization >= 85 {
        var recommendedIncrease := 0;
        if info.maxUtilization >= 95 {
          recommendedIncrease := MaxInt(Round(info.currentMemorySize as real * 0.5), 256);
        } else if info.maxUtilization >= 90 {
          recommendedIncrease := MaxInt(Round(info.currentMemorySize as real * 0.3), 128);
        } else {
          recommendedIncrease := MaxInt(Round(info.currentMemorySize as real * 0.2), 128);
        }
        increase := Ceil64(recommendedIncrease);
      }
    }
  }

  /** Step 5 of the scorer: the first out-of-memory phrase in the logs. */
  method PatternStep(events: seq<LogEvent>, points: seq<EvidencePoint>, score: real)
    returns (points': seq<EvidencePoint>, score': real, found: bool)
    ensures points' == points + PatternEvidence(events)
    ensures score' == score + PatternScore(events)
    ensures found <==> FirstErrorPattern(events).Some?
  {
    points', score', found := points, score, false;
    var hit := ScanForMemoryErrors(events);
    if hit.Some? {
      points' := points' + [EvidencePoint(ErrorPattern(hit.value), 0.6)];
      score' := score' + 0.6;
      found := true;
    }
  }

  /** Steps 9 and 10: the action is chosen before the default increase is
      filled in. */
  method ActionStep(isMemoryIssue: bool, increase: int, memoryInfo: Option<DataCollector.MemoryInfo>)
    returns (action: Action, increase': int)
    ensures action == ActionFor(isMemoryIssue, increase)
    ensures increase' == if isMemoryIssue && increase == 0 then DefaultMemoryIncrease(memoryInfo) else increase
  {
    action := NoActionRequired;
    if isMemoryIssue && increase > 0 {
      action := IncreaseMemory(increase);
    } else if isMemoryIssue {
      action := InvestigateMemoryIssue;
    } else {
      action := InvestigateNotMemoryRelated;
    }

    increase' := increase;
    if isMemoryIssue && increase == 0 {
      if memoryInfo.Some? && memoryInfo.value.currentMemorySize != 0 {
        var currentMemory := memoryInfo.value.currentMemorySize;
        var defaultIncrease := MaxInt(Round(currentMemory as real * 0.5), 256);
        increase' := Ceil64(defaultIncrease);
      } else {
        increase' := DefaultIncrease;
      }
    }
  }

  /** The diagnosis assembled from the outcomes of the steps. */
  lemma RuleBasedFromSteps(functionName: string, alarmName: string, data: DataCollection,
                           confidence: real, isMemoryIssue: bool, action: Action, increase: int)
    requires confidence == Confidence(Score(alarmName, data))
    requires isMemoryIssue == (confidence >= Threshold || FirstErrorPattern(data.logs.events).Some?)
    requires action == ActionFor(isMemoryIssue, UtilizationIncrease(data.logs.memoryInfo))
    requires increase == if isMemoryIssue && UtilizationIncrease(data.logs.memoryInfo) == 0
                         then DefaultMemoryIncrease(data.logs.memoryInfo)
                         else UtilizationIncrease(data.logs.memoryInfo)
    ensures RuleBased(functionName, alarmName, data)
            == Diagnosis(functionName, alarmName, isMemoryIssue, Round(confidence * 100.0) as real / 100.0,
                         action, increase, Evidence(alarmName, data), None)
  {
  }

  /** `performRuleBasedDiagnosis`: the five scoring steps, then the verdict,
      the action and the default increase. */
  method RuleBasedDiagnosis(functionName: string, alarmName: string, data: DataCollection)
    returns (d: Diagnosis)
    ensures d == RuleBased(functionName, alarmName, data)
  {
    var logs := data.logs;
    var evidencePoints: seq<EvidencePoint> := [];
    var memoryIssueScore := 0.0;
    var totalScore := 0.0;
    var recommendedMemoryIncrease := 0;

    evidencePoints, memoryIssueScore := AlarmTypeStep(alarmName, evidencePoints, memoryIssueScore);
    assert evidencePoints == AlarmEvidence(alarmName);
    totalScore := totalScore + 0.3;
    evidencePoints, memoryIssueScore := MetricStep(data.metrics, evidencePoints, memoryIssueScore);
    totalScore := totalScore + 0.4;
    evidencePoints, memoryIssueScore := LogStep(logs.summary, evidencePoints, memoryIssueScore);
    evidencePoints, memoryIssueScore, recommendedMemoryIncrease := MemoryStep(logs.memoryInfo, evidencePoints, memoryIssueScore);
    totalScore := totalScore + 0.3;

    var memoryErrorFound;
    evidencePoints, memoryIssueScore, memoryErrorFound := PatternStep(logs.events, evidencePoints, memoryIssueScore);
    assert evidencePoints == Evidence(alarmName, data);
    assert memoryIssueScore == Score(alarmName, data);
    assert totalScore == TotalScore;
    assert memoryErrorFound <==> FirstErrorPattern(logs.events).Some?;

    // steps 6 and 7: confidence and verdict
    var confidence := if totalScore > 0.0 then MinReal(memoryIssueScore / totalScore, 1.0) else 0.0;
    var isMemoryIssue := confidence >= Threshold || memoryErrorFound;

    var recommendedAction;
    recommendedAction, recommendedMemoryIncrease := ActionStep(isMemoryIssue, recommendedMemoryIncrease, logs.memoryInfo);

    d := Diagnosis(functionName, alarmName, isMemoryIssue, Round(confidence * 100.0) as real / 100.0,
                   recommendedAction, recommendedMemoryIncrease, evidencePoints, None);
    RuleBasedFromSteps(functionName, alarmName, data, confidence, isMemoryIssue, recommendedAction,
                       recommendedMemoryIncrease);
  }
}

// AI-assisted path of the diagnosis lambda
module ModelDiagnosis {
  import opened Wrappers
  import DataCollector
  import opened Diagnosis

  /** One log line quoted in the prompt. */
  datatype Excerpt = Excerpt(timestamp: int, message: string)

  /** The prompt sent to the model: the alarm, the collected data and at most
      five log excerpts; its wording is not part of this model. */
  datatype Prompt = Prompt(
    functionName: string,
    alarmName: string,
    alarmReason: string,
    data: DataCollection,
    recentEvents: seq<Excerpt>)

  /** The decoded body of the model's answer: its list of content blocks. */
  datatype ContentBlock = ContentBlock(text: Option<string>)
  datatype ModelResponse = ModelResponse(content: seq<ContentBlock>)

  /** The fields of the JSON object the model is asked for; a field the
      object lacks is `None`. */
  datatype AiReply = AiReply(
    isMemoryIssue: Option<bool>,
    confidence: Option<real>,
    recommendedMemoryIncrease: Option<int>,
    evidencePoints: Option<seq<EvidencePoint>>)

  const MaxExcerpts := 5
  const MaxExcerptLength := 200
  const ParseFailure := "Failed to parse Bedrock diagnosis response"
  const AiMethod := "bedrock-ai"
  const RequiredFields := "functionName and dataCollection are required"

  function Truncate(s: string, n: nat): string {
    if |s| <= n then s else s[..n]
  }

  /** `logs.events.slice(0, 5)`, each message cut to 200 characters. */
  function RecentEvents(events: seq<LogEvent>): seq<Excerpt> {
    var n := if |events| < MaxExcerpts then |events| else MaxExcerpts;
    seq(n, k requires 0 <= k < n => Excerpt(events[k].timestamp, Truncate(events[k].message, MaxExcerptLength)))
  }

  lemma RecentEventsAreBoundedPrefixes(events: seq<LogEvent>)
    ensures |RecentEvents(events)| <= MaxExcerpts
    ensures |RecentEvents(events)| == |events| || |RecentEvents(events)| == MaxExcerpts
    ensures forall k :: 0 <= k < |RecentEvents(events)| ==>
              RecentEvents(events)[k].timestamp == events[k].timestamp
              && |RecentEvents(events)[k].message| <= MaxExcerptLength
              && RecentEvents(events)[k].message <= events[k].message
    ensures forall k :: 0 <= k < |RecentEvents(events)| && |events[k].message| <= MaxExcerptLength ==>
              RecentEvents(events)[k].message == events[k].message
  {
  }

  /** `buildDiagnosisPrompt`: the loop over the first five events. */
  method BuildDiagnosisPrompt(functionName: string, alarmName: string, alarmReason: string, data: DataCollection)
    returns (prompt: Prompt)
    ensures prompt == Prompt(functionName, alarmName, alarmReason, data, RecentEvents(data.logs.events))
  {
    var events := data.logs.events;
    var excerpts: seq<Excerpt> := [];
    if |events| > 0 {
      var shown := if |events| < MaxExcerpts then events else events[..MaxExcerpts];
      var i := 0;
      while i < |shown|
        invariant 0 <= i <= |shown|
        invariant excerpts == RecentEvents(events)[..i]
      {
        var event := shown[i];
        var message := if |event.message| <= MaxExcerptLength then event.message else event.message[..MaxExcerptLength];
        excerpts := excerpts + [Excerpt(event.timestamp, message)];
        i := i + 1;
      }
    }
    prompt := Prompt(functionName, alarmName, alarmReason, data, excerpts);
  }

  // ------------------------------------------------------- JSON extraction

  function FirstIndexOf(s: string, c: char): (r: Option<nat>)
    ensures r.Some? ==> r.value < |s| && s[r.value] == c && forall k :: 0 <= k < r.value ==> s[k] != c
    ensures r.None? ==> forall k :: 0 <= k < |s| ==> s[k] != c
  {
    if s == [] then None
    else if s[0] == c then Some(0)
    else match FirstIndexOf(s[1..], c)
      case None => None
      case Some(i) => Some(i + 1)
  }

  function LastIndexOf(s: string, c: char): (r: Option<nat>)
    ensures r.Some? ==> r.value < |s| && s[r.value] == c && forall k :: r.value < k < |s| ==> s[k] != c
    ensures r.None? ==> forall k :: 0 <= k < |s| ==> s[k] != c
  {
    if s == [] then None
    else if s[|s| - 1] == c then Some(|s| - 1)
    else LastIndexOf(s[..|s| - 1], c)
  }

  lemma {:induction false} FirstIndexIs(s: string, c: char, i: nat)
    requires i < |s| && s[i] == c
    requires forall k :: 0 <= k < i ==> s[k] != c
    ensures FirstIndexOf(s, c) == Some(i)
  {
    if i > 0 {
      FirstIndexIs(s[1..], c, i - 1);
    }
  }

  lemma {:induction false} LastIndexIs(s: string, c: char, j: nat)
    requires j < |s| && s[j] == c
    requires forall k :: j < k < |s| ==> s[k] != c
    ensures LastIndexOf(s, c) == Some(j)
  {
    if j < |s| - 1 {
      LastIndexIs(s[..|s| - 1], c, j);
    }
  }

  /** `text[i..j + 1]` runs from the first `{` of `text` to its last `}`. */
  predicate IsGreedyBraceSpan(text: string, i: int, j: int) {
    0 <= i < j < |text| && text[i] == '{' && text[j] == '}'
    && (forall k :: 0 <= k < i ==> text[k] != '{')
    && (forall k :: j < k < |text| ==> text[k] != '}')
  }

  /** The match of the greedy pattern `\{[\s\S]*\}`: from the first `{` to
      the last `}` after it, whether or not the braces between balance. */
  function ExtractJson(text: string): (r: Option<string>)
    ensures r.Some? <==> exists i, j :: 0 <= i < j < |text| && text[i] == '{' && text[j] == '}'
    ensures r.Some? ==> exists i, j :: IsGreedyBraceSpan(text, i, j) && r.value == text[i..j + 1]
  {
    match FirstIndexOf(text, '{')
    case None => None
    case Some(i) =>
      match LastIndexOf(text, '}')
      case None => None
      case Some(j) => if i < j then assert IsGreedyBraceSpan(text, i, j); Some(text[i..j + 1]) else None
  }

  lemma GreedySpanIsExtracted(text: string, i: int, j: int)
    requires IsGreedyBraceSpan(text, i, j)
    ensures ExtractJson(text) == Some(text[i..j + 1])
  {
    FirstIndexIs(text, '{', i);
    LastIndexIs(text, '}', j);
  }

  /** Two separate objects in one answer are extracted together, with the
      text between them. */
  lemma ExtractJsonIsGreedy(text: string)
    requires text == "a {x} b {y} c"
    ensures ExtractJson(text) == Some("{x} b {y}")
  {
    GreedySpanIsExtracted(text, 2, 10);
    assert text[2..11] == "{x} b {y}";
  }

  // -------------------------------------------------------- normalisation

  /** The increase the action text quotes: a missing or zero figure reads as 256. */
  function QuotedIncrease(reply: AiReply): int {
    if reply.recommendedMemoryIncrease.Some? && reply.recommendedMemoryIncrease.value != 0
    then reply.recommendedMemoryIncrease.value
    else DefaultIncrease
  }

  /** `parseBedrockResponse` once JSON decoding of the extracted block is
      given as `decode`; every failure maps to one message. */
  function ParseModelReply(response: ModelResponse, functionName: string, alarmName: string,
                           decode: string -> Option<AiReply>): Result<Diagnosis, string>
  {
    if |response.content| == 0 || response.content[0].text.None? then Failure(ParseFailure)
    else match ExtractJson(response.content[0].text.value)
      case None => Failure(ParseFailure)
      case Some(json) =>
        match decode(json)
        case None => Failure(ParseFailure)
        case Some(reply) =>
          var isMemoryIssue := reply.isMemoryIssue.GetOr(false);
          Success(Diagnosis(
            functionName, alarmName, isMemoryIssue,
            Round(reply.confidence.GetOr(0.0) * 100.0) as real / 100.0,
            if isMemoryIssue then IncreaseMemory(QuotedIncrease(reply)) else NoActionRequired,
            reply.recommendedMemoryIncrease.GetOr(0),
            reply.evidencePoints.GetOr([]),
            Some(AiMethod)))
  }

  /** What a successfully parsed reply becomes: the reply's verdict, its
      confidence rounded to hundredths but not clamped, its increase as given
      (not rounded to 64 MB), and an action that follows the verdict alone. */
  lemma ModelReplyNormalisation(response: ModelResponse, functionName: string, alarmName: string,
                                decode: string -> Option<AiReply>)
    requires ParseModelReply(response, functionName, alarmName, decode).Success?
    ensures var d := ParseModelReply(response, functionName, alarmName, decode).value;
            && |response.content| > 0 && response.content[0].text.Some?
            && ExtractJson(response.content[0].text.value).Some?
            && decode(ExtractJson(response.content[0].text.value).value).Some?
            && var reply := decode(ExtractJson(response.content[0].text.value).value).value;
            && d.diagnosisMethod == Some(AiMethod)
            && d.functionName == functionName && d.alarmName == alarmName
            && (d.isMemoryIssue <==> reply.isMemoryIssue == Some(true))
            && (d.recommendedAction.IncreaseMemory? <==> d.isMemoryIssue)
            && (d.recommendedAction == NoActionRequired <==> !d.isMemoryIssue)
            && (reply.recommendedMemoryIncrease.None? ==> d.recommendedMemoryIncrease == 0)
            && (reply.recommendedMemoryIncrease.Some? ==> d.recommendedMemoryIncrease == reply.recommendedMemoryIncrease.value)
            && (reply.confidence.None? ==> d.confidence == 0.0)
            && (reply.confidence.Some? ==>
                  && d.confidence == Round(reply.confidence.value * 100.0) as real / 100.0
                  && reply.confidence.value - 0.005 < d.confidence <= reply.confidence.value + 0.005)
            && (d.isMemoryIssue ==> d.recommendedAction == IncreaseMemory(QuotedIncrease(reply)))
            && d.evidencePoints == reply.evidencePoints.GetOr([])
  {
    var reply := decode(ExtractJson(response.content[0].text.value).value).value;
    if reply.confidence.Some? {
      RoundIsNearest(reply.confidence.value * 100.0);
    }
  }

  /** A reply that calls the issue a memory issue but names no increase
      quotes 256 MB in its action and still reports an increase of 0. */
  lemma ActionCanQuoteUnreportedIncrease(functionName: string, alarmName: string, decode: string -> Option<AiReply>)
    requires decode("{}") == Some(AiReply(Some(true), Some(0.9), None, None))
    ensures var d := ParseModelReply(ModelResponse([ContentBlock(Some("{}"))]), functionName, alarmName, decode);
            d.Success? && d.value.recommendedAction == IncreaseMemory(256) && d.value.recommendedMemoryIncrease == 0
  {
    var text := "{}";
    GreedySpanIsExtracted(text, 0, 1);
    assert text[0..2] == text;
  }

  /** A confidence above 1 from the model is passed on: the model path does
      not keep the confidence within [0, 1]. */
  lemma ModelConfidenceIsNotClamped(functionName: string, alarmName: string, decode: string -> Option<AiReply>)
    requires decode("{}") == Some(AiReply(Some(true), Some(1.5), Some(256), None))
    ensures var d := ParseModelReply(ModelResponse([ContentBlock(Some("{}"))]), functionName, alarmName, decode);
            d.Success? && d.value.confidence == 1.5 && d.value.confidence > 1.0
  {
    var text := "{}";
    GreedySpanIsExtracted(text, 0, 1);
    assert text[0..2] == text;
    assert Round(1.5 * 100.0) == 150;
  }

  /** An increase taken from the reply is not rounded to 64 MB. */
  lemma ModelIncreaseIsNotRounded(functionName: string, alarmName: string, decode: string -> Option<AiReply>)
    requires decode("{}") == Some(AiReply(Some(true), Some(0.8), Some(100), None))
    ensures var d := ParseModelReply(ModelResponse([ContentBlock(Some("{}"))]), functionName, alarmName, decode);
            d.Success? && d.value.recommendedMemoryIncrease == 100 && d.value.recommendedMemoryIncrease % 64 != 0
  {
    var text := "{}";
    GreedySpanIsExtracted(text, 0, 1);
    assert text[0..2] == text;
  }

  // -------------------------------------------------------------- handler

  /** `performBedrockDiagnosis` as a value: the model call, then parsing. */
  function AiDiagnosis(functionName: string, alarmName: string, alarmReason: string, data: DataCollection,
                       invoke: Prompt -> Result<ModelResponse, string>,
                       decode: string -> Option<AiReply>): Result<Diagnosis, string>
  {
    match invoke(Prompt(functionName, alarmName, alarmReason, data, RecentEvents(data.logs.events)))
    case Failure(e) => Failure(e)
    case Success(response) => ParseModelReply(response, functionName, alarmName, decode)
  }

  method PerformModelDiagnosis(functionName: string, alarmName: string, alarmReason: string, data: DataCollection,
                               invoke: Prompt -> Result<ModelResponse, string>,
                               decode: string -> Option<AiReply>)
    returns (r: Result<Diagnosis, string>)
    ensures r == AiDiagnosis(functionName, alarmName, alarmReason, data, invoke, decode)
  {
    var prompt := BuildDiagnosisPrompt(functionName, alarmName, alarmReason, data);
    var response := invoke(prompt);
    if response.Failure? {
      return Failure(response.error);
    }
    r := ParseModelReply(response.value, functionName, alarmName, decode);
  }

  /** The input of the diagnosis lambda. */
  datatype DiagnosisRequest = DiagnosisRequest(
    functionName: string,
    alarmName: string,
    alarmReason: string,
    dataCollection: Option<DataCollection>)

  /** The diagnosis the lambda returns for a well-formed request. */
  function Diagnose(event: DiagnosisRequest, invoke: Prompt -> Result<ModelResponse, string>,
                    decode: string -> Option<AiReply>): Diagnosis
    requires event.dataCollection.Some?
  {
    match AiDiagnosis(event.functionName, event.alarmName, event.alarmReason, event.dataCollection.value, invoke, decode)
    case Success(d) => d
    case Failure(_) => RuleBased(event.functionName, event.alarmName, event.dataCollection.value)
  }

  /** The diagnosis lambda's handler: the AI path first, the rule-based
      scorer whenever the AI path fails for any reason. */
  method Handler(event: DiagnosisRequest, invoke: Prompt -> Result<ModelResponse, string>,
                 decode: string -> Option<AiReply>)
    returns (r: Result<Diagnosis, string>)
    ensures r.Failure? <==> event.functionName == "" || event.dataCollection.None?
    ensures r.Failure? ==> r.error == RequiredFields
    ensures r.Success? ==> r.value == Diagnose(event, invoke, decode)
    ensures r.Success? ==> r.value.functionName == event.functionName && r.value.alarmName == event.alarmName
  {
    if event.functionName == "" || event.dataCollection.None? {
      return Failure(RequiredFields);
    }
    var data := event.dataCollection.value;
    var diagnosis := PerformModelDiagnosis(event.functionName, event.alarmName, event.alarmReason, data, invoke, decode);
    if diagnosis.Failure? {
      var fallback := RuleBasedDiagnosis(event.functionName, event.alarmName, data);
      return Success(fallback);
    }
    r := Success(diagnosis.value);
  }

  /** When the model cannot be reached, the lambda still answers, with the
      rule-based diagnosis. */
  lemma UnreachableModelFallsBack(event: DiagnosisRequest, invoke: Prompt -> Result<ModelResponse, string>,
                                  decode: string -> Option<AiReply>)
    requires event.dataCollection.Some?
    requires forall p :: invoke(p).Failure?
    ensures Diagnose(event, invoke, decode)
            == RuleBased(event.functionName, event.alarmName, event.dataCollection.value)
    ensures Diagnose(event, invoke, decode).diagnosisMethod.None?
  {
  }
}
