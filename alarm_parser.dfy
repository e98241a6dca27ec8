/** The alarm-name parser `parseAlarmEvent`, shared word for word by the
    coordinator and the Step Functions adapter: an envelope filter followed by
    an ordered list of anchored, case-insensitive naming patterns of which the
    first that matches yields the function name. */
module AlarmParser {
  import opened Wrappers
  import opened Text

  /** `detail.state` of a CloudWatch alarm state change. */
  datatype AlarmState = AlarmState(value: string, reason: string, timestamp: string)

  /** `detail`; a missing `alarmName` or `state` makes the source throw. */
  datatype AlarmDetail = AlarmDetail(alarmName: Option<string>, state: Option<AlarmState>)

  /** The EventBridge envelope: `source`, `detail-type` and `detail`. */
  datatype Envelope = Envelope(source: string, detailType: string, detail: Option<AlarmDetail>)

  datatype Alarm = Alarm(alarmName: string, functionName: string, state: string, reason: string, timestamp: string)

  /** An anchored pattern `^prefix(.+)(suffix1|suffix2|...)$` with the `i` flag.
      The suffixes are listed shortest first: the greedy capture backtracks from
      the longest candidate, so the shortest suffix that fits is the one taken. */
  datatype NamePattern = NamePattern(prefix: string, suffixes: seq<string>)

  /** `/^(.+)-(duration|errors|throttles)-alarm$/i`, `/^lambda-(.+)-(duration|errors|throttles)$/i`
      and `/^(.+)-(alarm)$/i`, in the order they are tried. */
  const Patterns: seq<NamePattern> := [
    NamePattern("", ["-errors-alarm", "-duration-alarm", "-throttles-alarm"]),
    NamePattern("lambda-", ["-errors", "-duration", "-throttles"]),
    NamePattern("", ["-alarm"])
  ]

  const CloudWatchSource := "aws.cloudwatch"
  const StateChangeType := "CloudWatch Alarm State Change"
  const AlarmValue := "ALARM"

  /** The capture of `^prefix(.+)suffix$` on `name`, if that matches. */
  function Affixed(name: string, prefix: string, suffix: string): Option<string> {
    if |prefix| + |suffix| < |name|
       && StartsWithIgnoringCase(name, prefix)
       && EndsWithIgnoringCase(name, suffix)
       && IsDotPlus(name[|prefix|..|name| - |suffix|])
    then Some(name[|prefix|..|name| - |suffix|])
    else None
  }

  /** The capture of the alternation over `suffixes`, shortest suffix first. */
  function FirstAffixed(name: string, prefix: string, suffixes: seq<string>): Option<string>
    decreases |suffixes|
  {
    if suffixes == [] then None
    else if Affixed(name, prefix, suffixes[0]).Some? then Affixed(name, prefix, suffixes[0])
    else FirstAffixed(name, prefix, suffixes[1..])
  }

  function Match(p: NamePattern, name: string): Option<string> {
    FirstAffixed(name, p.prefix, p.suffixes)
  }

  /** The first capture of the patterns `ps`, tried in order. */
  function FirstMatch(name: string, ps: seq<NamePattern>): Option<string>
    decreases |ps|
  {
    if ps == [] then None
    else if Match(ps[0], name).Some? then Match(ps[0], name)
    else FirstMatch(name, ps[1..])
  }

  /** The function name that `parseAlarmEvent` extracts from an alarm name. */
  function FunctionNameOf(alarmName: string): Option<string> {
    FirstMatch(alarmName, Patterns)
  }

  /** The envelope filter: a CloudWatch alarm state change whose state is ALARM. */
  predicate IsAlarmStateChange(event: Envelope) {
    && event.source == CloudWatchSource
    && event.detailType == StateChangeType
    && event.detail.Some?
    && event.detail.value.state.Some?
    && event.detail.value.state.value.value == AlarmValue
  }

  /** What `parseAlarmEvent` returns; every thrown error inside it becomes `None`. */
  function ParsedAlarm(event: Envelope): Option<Alarm> {
    if !IsAlarmStateChange(event) || event.detail.value.alarmName.None? then None
    else
      var name := event.detail.value.alarmName.value;
      var st := event.detail.value.state.value;
      match FunctionNameOf(name)
      case None => None
      case Some(fn) => Some(Alarm(name, fn, st.value, st.reason, st.timestamp))
  }

  /** The loop over `patterns` that stops at the first match. */
  method ExtractFunctionName(alarmName: string) returns (functionName: Option<string>)
    ensures functionName == FunctionNameOf(alarmName)
    ensures functionName.Some? <==> exists k :: 0 <= k < |Patterns| && Match(Patterns[k], alarmName).Some?
    ensures functionName.Some? ==>
      exists k :: 0 <= k < |Patterns| && Match(Patterns[k], alarmName) == functionName
        && forall j :: 0 <= j < k ==> Match(Patterns[j], alarmName).None?
  {
    functionName := None;
    var i := 0;
    while i < |Patterns|
      invariant 0 <= i <= |Patterns|
      invariant forall j :: 0 <= j < i ==> Match(Patterns[j], alarmName).None?
      invariant FunctionNameOf(alarmName) == FirstMatch(alarmName, Patterns[i..])
    {
      var m := Match(Patterns[i], alarmName);
      if m.Some? {
        functionName := m;
        break;
      }
      i := i + 1;
    }
  }

  /** `parseAlarmEvent`. */
  method ParseAlarmEvent(event: Envelope) returns (alarm: Option<Alarm>)
    ensures alarm == ParsedAlarm(event)
    ensures alarm.Some? <==>
      IsAlarmStateChange(event) && event.detail.value.alarmName.Some?
      && FunctionNameOf(event.detail.value.alarmName.value).Some?
    ensures alarm.Some? ==>
      && alarm.value.alarmName == event.detail.value.alarmName.value
      && alarm.value.state == AlarmValue
      && alarm.value.reason == event.detail.value.state.value.reason
      && alarm.value.timestamp == event.detail.value.state.value.timestamp
      && Some(alarm.value.functionName) == FunctionNameOf(alarm.value.alarmName)
  {
    if event.source != CloudWatchSource || event.detailType != StateChangeType {
      return None;
    }
    if event.detail.None? || event.detail.value.state.None? {
      return None;  // reading `detail.state.value` throws
    }
    var detail := event.detail.value;
    if detail.state.value.value != AlarmValue {
      return None;
    }
    if detail.alarmName.None? {
      return None;  // `alarmName.match` throws
    }
    var alarmName := detail.alarmName.value;
    var functionName := ExtractFunctionName(alarmName);
    if functionName.None? {
      return None;
    }
    alarm := Some(Alarm(alarmName, functionName.value, detail.state.value.value,
                        detail.state.value.reason, detail.state.value.timestamp));
  }

  lemma {:induction false} AffixedIsNonEmpty(name: string, prefix: string, suffixes: seq<string>)
    requires FirstAffixed(name, prefix, suffixes).Some?
    ensures IsDotPlus(FirstAffixed(name, prefix, suffixes).value)
    decreases |suffixes|
  {
    if Affixed(name, prefix, suffixes[0]).None? {
      AffixedIsNonEmpty(name, prefix, suffixes[1..]);
    }
  }

  lemma {:induction false} MatchIsNonEmpty(name: string, ps: seq<NamePattern>)
    requires FirstMatch(name, ps).Some?
    ensures IsDotPlus(FirstMatch(name, ps).value)
    decreases |ps|
  {
    if Match(ps[0], name).Some? {
      AffixedIsNonEmpty(name, ps[0].prefix, ps[0].suffixes);
    } else {
      MatchIsNonEmpty(name, ps[1..]);
    }
  }

  /** An extracted function name is never empty and stays on one line. */
  lemma FunctionNameIsNonEmpty(alarmName: string)
    requires FunctionNameOf(alarmName).Some?
    ensures FunctionNameOf(alarmName).value != ""
    ensures forall i :: 0 <= i < |FunctionNameOf(alarmName).value| ==> !IsLineTerminator(FunctionNameOf(alarmName).value[i])
  {
    MatchIsNonEmpty(alarmName, Patterns);
  }

  /** `c` is what `^prefix(.+)suffix$` captures on `name`. */
  predicate IsCapture(name: string, prefix: string, suffix: string, c: string) {
    && |prefix| + |c| + |suffix| == |name|
    && EqualsIgnoringCase(name[..|prefix|], prefix)
    && name[|prefix|..|prefix| + |c|] == c
    && EqualsIgnoringCase(name[|prefix| + |c|..], suffix)
    && IsDotPlus(c)
  }

  /** Whatever the alternation captures is the alarm name with the prefix and
      one of the suffixes (each matched ignoring case) cut off. */
  lemma {:induction false} CaptureIsStrippedName(name: string, prefix: string, suffixes: seq<string>)
    requires FirstAffixed(name, prefix, suffixes).Some?
    ensures exists k :: (0 <= k < |suffixes|
                         && IsCapture(name, prefix, suffixes[k], FirstAffixed(name, prefix, suffixes).value))
  {
    if Affixed(name, prefix, suffixes[0]).Some? {
      assert IsCapture(name, prefix, suffixes[0], FirstAffixed(name, prefix, suffixes).value);
    } else {
      CaptureIsStrippedName(name, prefix, suffixes[1..]);
      var k :| 0 <= k < |suffixes[1..]|
        && IsCapture(name, prefix, suffixes[1..][k], FirstAffixed(name, prefix, suffixes[1..]).value);
      assert IsCapture(name, prefix, suffixes[k + 1], FirstAffixed(name, prefix, suffixes).value);
    }
  }

  lemma DurationAlarmIsNoErrorsAlarm(name: string)
    requires name == "my-func-duration-alarm"
    ensures Affixed(name, "", "-errors-alarm").None?
  {
    NotEqualIgnoringCaseAt(name[9..], "-errors-alarm", 0);
  }

  lemma DurationAlarmCapture(name: string)
    requires name == "my-func-duration-alarm"
    ensures Affixed(name, "", "-duration-alarm") == Some("my-func")
  {
    assert name[7..] == "-duration-alarm";
    SameIsEqualIgnoringCase(name[7..], "-duration-alarm");
    assert name[0..7] == "my-func";
  }

  lemma ExampleDurationAlarm()
    ensures FunctionNameOf("my-func-duration-alarm") == Some("my-func")
  {
    DurationAlarmIsNoErrorsAlarm("my-func-duration-alarm");
    DurationAlarmCapture("my-func-duration-alarm");
  }

  /** `lambda-foo-errors` ends in none of the first pattern's suffixes. */
  lemma LambdaErrorsSkipsFirstPattern(name: string)
    requires name == "lambda-foo-errors"
    ensures Match(Patterns[0], name).None?
  {
    assert Affixed(name, "", "-errors-alarm").None? by {
      NotEqualIgnoringCaseAt(name[4..], "-errors-alarm", 12);
    }
    assert Affixed(name, "", "-duration-alarm").None? by {
      NotEqualIgnoringCaseAt(name[2..], "-duration-alarm", 14);
    }
    assert Affixed(name, "", "-throttles-alarm").None? by {
      NotEqualIgnoringCaseAt(name[1..], "-throttles-alarm", 15);
    }
  }

  lemma LambdaErrorsCapture(name: string)
    requires name == "lambda-foo-errors"
    ensures Affixed(name, "lambda-", "-errors") == Some("foo")
  {
    assert name[..7] == "lambda-" && name[10..] == "-errors" && name[7..10] == "foo";
    SameIsEqualIgnoringCase(name[..7], "lambda-");
    SameIsEqualIgnoringCase(name[10..], "-errors");
  }

  lemma ExampleLambdaErrors(name: string)
    requires name == "lambda-foo-errors"
    ensures FunctionNameOf(name) == Some("foo")
  {
    LambdaErrorsSkipsFirstPattern(name);
    LambdaErrorsCapture(name);
    assert Match(Patterns[1], name) == Some("foo");
  }

  lemma ExampleLambdaErrorsAlarm()
    ensures FunctionNameOf("lambda-foo-errors-alarm") == Some("lambda-foo")
  {
    var name := "lambda-foo-errors-alarm";
    assert name[10..] == "-errors-alarm";
    SameIsEqualIgnoringCase(name[10..], "-errors-alarm");
    assert name[0..10] == "lambda-foo";
    assert Affixed(name, "", "-errors-alarm") == Some("lambda-foo");
  }
}
