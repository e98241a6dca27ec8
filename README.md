# Lambda auto-repair: a Dafny model

This project models the six lambdas of a Lambda auto-repair pipeline.

- A CloudWatch alarm on a Lambda function reaches the **coordinator**, or the **Step Functions adapter**. Both parse the alarm and extract the function's name.
- The coordinator then calls four lambdas in turn:
  - the **data collector** fetches 30 minutes of metrics and logs;
  - **diagnosis** asks a language model for a verdict and falls back to a rule-based score;
  - when the verdict is a memory issue, the **repair executor** raises the memory size in whole 64 MB blocks, up to a cap;
  - the **repair verifier** waits one minute and compares metrics before and after the repair.
- Finally the coordinator publishes one notification.

One module per lambda:

| file | module |
|---|---|
| `alarm_parser.dfy` | `AlarmParser` (`parseAlarmEvent`, shared by the coordinator and the adapter) |
| `data_collector.dfy` | `DataCollector` |
| `diagnosis.dfy` | `Diagnosis` (rule-based path), `ModelDiagnosis` (prompt, reply parsing, handler) |
| `repair_executor.dfy` | `RepairExecutor` |
| `repair_verifier.dfy` | `RepairVerifier` |
| `coordinator.dfy` | `Coordinator` |
| `stepfunctions_adapter.dfy` | `StepFunctionsAdapter` |
| `wrappers.dfy`, `text.dfy` | `Option`/`Result`, and string helpers (case-insensitive comparison, digit runs) |

Every call to AWS or to another lambda is a parameter of function type. This covers CloudWatch metrics and logs, the Bedrock model, Lambda configuration, DynamoDB, SNS and Lambda `Invoke`. A thrown error becomes the `Failure` alternative of a `Result`.

Two parts of the source change state in place, and they are classes:

- the Lambda configuration service, whose memory sizes the executor updates;
- the audit table, which the executor appends to.

The step-by-step procedures are methods whose loops carry invariants tying them to a specification function:

- the pattern loop of `parseAlarmEvent`;
- the `forEach` loops of the collector and the verifier;
- the out-of-memory scan;
- the prompt excerpt loop;
- the rule-based diagnosis.

Numbers are exact: scores and metric values are `real`, sizes are `int`. JavaScript's `Math.round(x)` is `floor(x + 0.5)`. `Math.ceil(x / 64) * 64` is `((x + 63) / 64) * 64` with floor division.

A JavaScript `Date` holds at most 8.64 × 10^15 ms either side of the epoch. Beyond that, `toISOString` throws "Invalid time value". The data collector checks this range wherever the source formats a time stamp: the window's start and end, and every log event.

Where the code and the intended behaviour differ, the model follows the code:

- the rule-based diagnosis carries no `diagnosisMethod` field;
- its non-memory action is "manual investigation, not memory-related", never "no action required";
- the model path neither clamps the confidence nor rounds the increase to 64 MB.
- sizing is idempotent (`NewMemory` of its own result with no increase is that result), but the handler never shows it: a re-run with an increase of 0 is rejected as missing input before the size is read, so it never reaches the "skipped" result.

## Model

| member | source | states |
|---|---|---|
| AlarmParser.ExtractFunctionName | lambda-functions/coordinator.js:110-123 | the pattern loop returns the capture of the first of the three patterns that matches, and none when no pattern matches |
| AlarmParser.ParseAlarmEvent | lambda-functions/coordinator.js:93-142 | an alarm is returned iff the event is an `aws.cloudwatch` state change to `ALARM` whose name yields a function name; it copies name, state, reason and time stamp; every thrown error (missing detail or name) yields none |
| AlarmParser.FunctionNameIsNonEmpty | lambda-functions/coordinator.js:111-123 | an extracted function name is never empty and has no line terminator (`(.+)` needs one non-terminator character) |
| AlarmParser.CaptureIsStrippedName | lambda-functions/coordinator.js:112-120 | the capture is the alarm name with the prefix and one of the alternation's suffixes removed, each compared ignoring case |
| AlarmParser.ExampleDurationAlarm | lambda-functions/coordinator.js:112 | `my-func-duration-alarm` names `my-func` |
| AlarmParser.ExampleLambdaErrors | lambda-functions/coordinator.js:113 | `lambda-foo-errors` fails the first pattern and names `foo` by the second |
| AlarmParser.ExampleLambdaErrorsAlarm | lambda-functions/coordinator.js:112 | `lambda-foo-errors-alarm` matches the first pattern, so the `lambda-` prefix stays in the name |
| DataCollector.Max | lambda-functions/data-collector.js:111 | `Math.max` of a non-empty series is an upper bound that occurs in the series |
| DataCollector.SeriesSummarizesValues | lambda-functions/data-collector.js:106-113 | a series' average times its count is the sum of its values; average ≤ max ≥ every value; all are zero for a missing or empty series |
| DataCollector.ProcessedKeys | lambda-functions/data-collector.js:104-114 | the processed metrics hold exactly one entry per result id |
| DataCollector.ProcessedKeepsLastResultPerId | lambda-functions/data-collector.js:105-106 | for an id that occurs twice, the later result overwrites the earlier one |
| DataCollector.CollectMetrics | lambda-functions/data-collector.js:54-123 | a failed fetch gives the empty map; otherwise the `forEach` loop builds exactly the processed map of the results |
| DataCollector.CountContaining | lambda-functions/data-collector.js:160-162 | a filter count never exceeds the number of events; it is positive iff some message contains the text, and equals the event count iff every message does |
| DataCollector.SummaryOf | lambda-functions/data-collector.js:158-163 | the log summary counts all events; each substring count is at most that total, and positive iff some message contains `ERROR`, `Task timed out` or `Max Memory Used` respectively |
| DataCollector.UtilizationIsRoundedPercentage | lambda-functions/data-collector.js:209 | the utilisation is 100 × used / size rounded half up: within one half of the exact percentage |
| DataCollector.MemoryReports | lambda-functions/data-collector.js:182-184 | an event is kept iff it contains both `REPORT` and `Max Memory Used`; at most all events |
| DataCollector.Samples | lambda-functions/data-collector.js:192-213 | at most one sample per report; a sample is kept iff some report shows both numbers and yields it |
| DataCollector.MaxUtilization | lambda-functions/data-collector.js:221 | the maximum utilisation bounds every sample's and occurs among them |
| DataCollector.SummaryProperties | lambda-functions/data-collector.js:215-230 | no samples gives null. Otherwise: sample count; the last sample's size; the maximum over samples; a rounded average ≤ that maximum; the last three samples (all when fewer) |
| DataCollector.ExtractMemoryInfo | lambda-functions/data-collector.js:181-231 | computes exactly the summary of the parsed samples, with no more samples than events |
| DataCollector.ParseSamples | lambda-functions/data-collector.js:190-213 | the `forEach` over the reports collects exactly their samples, in order |
| DataCollector.NoMemoryInfoIff | lambda-functions/data-collector.js:182-217 | the memory information is null iff no event is a memory report showing both the memory size and the memory used |
| DataCollector.CollectLogs | lambda-functions/data-collector.js:125-179 | an inaccessible log group, a failed fetch and an event time stamp that is not a valid date each give an empty list with their text summary (the latter two with the error); otherwise the events, their summary, no error, and memory info that is null iff no event is a report showing both numbers; it never fails |
| DataCollector.CollectedMemoryInfoIff | lambda-functions/data-collector.js:125-179 | the collected logs carry memory information iff the log group is accessible, the fetch succeeds, every time stamp is a valid date, and some event is a report showing both numbers |
| DataCollector.Window | lambda-functions/data-collector.js:23-28 | the window is 30 minutes ending at the current time when the event has no time stamp; otherwise it exists iff the time stamp parses and the window's start and end are valid dates, and then it ends at the parsed time |
| DataCollector.Handler | lambda-functions/data-collector.js:13-52 | fails iff the name is missing or the window is not a valid date, each with its message; otherwise it carries name, alarm, window end, the metrics of `collectMetrics` and the logs of `collectLogs`, and neither fetch can fail it |
| Diagnosis.Ceil64IsLeastMultipleAbove | lambda-functions/diagnosis.js:318 | rounding up to 64 MB gives the least multiple of 64 not below the input |
| Diagnosis.ScoreIsEvidenceWeight | lambda-functions/diagnosis.js:215-351 | the memory-issue score equals the total weight of the evidence points recorded |
| Diagnosis.ConfidenceInUnitInterval | lambda-functions/diagnosis.js:354 | the confidence `min(score / total, 1)`, rounded to hundredths, lies in [0, 1] |
| Diagnosis.MemoryIssueIff | lambda-functions/diagnosis.js:357 | a memory issue is declared iff the score reaches 0.6 or a log line holds an out-of-memory phrase |
| Diagnosis.AtMostOneErrorPatternPoint | lambda-functions/diagnosis.js:327-351 | the scan stops at its first hit: only the last evidence point can be an error-pattern point, and it names the first phrase met |
| Diagnosis.IncreaseIsWholeBlocks | lambda-functions/diagnosis.js:303-321 | the recommended increase is a non-negative multiple of 64, at least 128 MB when a memory issue is declared |
| Diagnosis.ActionFollowsVerdict | lambda-functions/diagnosis.js:374-394 | not memory-related iff the action says so. `IncreaseMemory` iff a memory issue with a tiered increase, quoting the reported amount. Otherwise manual investigation with the default (≥ 256 MB) filled in after the action is chosen |
| Diagnosis.RoundMonotone | lambda-functions/diagnosis.js:306-315 | `Math.round` is monotone |
| Diagnosis.Ceil64Monotone | lambda-functions/diagnosis.js:318 | rounding up to 64 MB is monotone |
| Diagnosis.TierIncreaseMonotone | lambda-functions/diagnosis.js:303-321 | a higher peak utilisation never yields a smaller recommended increase |
| Diagnosis.TierExamples512 | lambda-functions/diagnosis.js:306-318 | at 512 MB the three tiers (≥95 %, ≥90 %, ≥85 %) give 256, 192 and 128 MB |
| Diagnosis.TierExamples1024 | lambda-functions/diagnosis.js:306-318 | at 1024 MB they give 512, 320 and 256 MB |
| Diagnosis.HighUtilizationErrorAlarm | lambda-functions/diagnosis.js:215-357 | an `error` alarm on a 512 MB function at ≥95 % peak is a memory issue with `IncreaseMemory(256)` |
| Diagnosis.PhraseAloneDecides | lambda-functions/diagnosis.js:327-394 | one out-of-memory phrase suffices; without memory info the action is manual investigation, 256 MB is reported, and the last point is that phrase with weight 0.6 |
| Diagnosis.NoSignalIsNotMemory | lambda-functions/diagnosis.js:354-401 | without any signal: not a memory issue, confidence 0, no evidence, increase 0 |
| Diagnosis.ZeroErrorSeriesCounts | lambda-functions/diagnosis.js:236-243 | an errors series of zeros still adds the 0.4 metric point: the check counts data points, not errors |
| Diagnosis.ScanForMemoryErrors | lambda-functions/diagnosis.js:327-351 | the nested scan returns the first phrase found in the first event holding any phrase, or none when no event holds one |
| Diagnosis.AlarmTypeStep | lambda-functions/diagnosis.js:215-233 | the alarm-name step appends the alarm evidence and adds its weight to the score |
| Diagnosis.MetricStep | lambda-functions/diagnosis.js:236-257 | the metric step appends the metric evidence and adds its weight |
| Diagnosis.LogStep | lambda-functions/diagnosis.js:260-280 | the log step appends the log evidence and adds its weight |
| Diagnosis.MemoryStep | lambda-functions/diagnosis.js:283-324 | the memory step appends the memory evidence, adds its weight and yields the tiered increase |
| Diagnosis.PatternStep | lambda-functions/diagnosis.js:327-351 | the phrase step adds one 0.6 point iff some event holds an out-of-memory phrase, and reports whether it found one |
| Diagnosis.ActionStep | lambda-functions/diagnosis.js:374-394 | the action is chosen from the verdict and the tiered increase; only afterwards is a missing increase replaced by the default |
| Diagnosis.RuleBasedDiagnosis | lambda-functions/diagnosis.js:194-404 | the step-by-step procedure computes exactly the rule-based diagnosis, so every lemma about it applies |
| ModelDiagnosis.RecentEventsAreBoundedPrefixes | lambda-functions/diagnosis.js:125-130 | the prompt quotes the first five events (all when fewer), each message cut to its first 200 characters |
| ModelDiagnosis.BuildDiagnosisPrompt | lambda-functions/diagnosis.js:83-156 | the excerpt loop builds the prompt over those excerpts |
| ModelDiagnosis.FirstIndexOf | lambda-functions/diagnosis.js:164 | the first occurrence of a character, or none when absent |
| ModelDiagnosis.LastIndexOf | lambda-functions/diagnosis.js:164 | the last occurrence of a character, or none when absent |
| ModelDiagnosis.ExtractJson | lambda-functions/diagnosis.js:164-169 | `/\{[\s\S]*\}/` matches iff some `{` precedes some `}`, and the match runs from the first `{` to the last `}` |
| ModelDiagnosis.GreedySpanIsExtracted | lambda-functions/diagnosis.js:164 | any span from the first `{` to the last `}` is exactly what is extracted |
| ModelDiagnosis.ExtractJsonIsGreedy | lambda-functions/diagnosis.js:164 | on `a {x} b {y} c` the match is `{x} b {y}`, not the first object |
| ModelDiagnosis.ModelReplyNormalisation | lambda-functions/diagnosis.js:159-191 | a parsed reply keeps the verdict iff it is `true`; a given confidence becomes `Math.round(c * 100) / 100`, within 0.005 of `c` and not clamped, and a missing one 0; the increase is the reply's or 0, not rounded; a memory issue quotes the reply's increase, or 256 when it is missing or 0, otherwise no action; the evidence is the reply's or empty; the method tag is set |
| ModelDiagnosis.ActionCanQuoteUnreportedIncrease | lambda-functions/diagnosis.js:178-181 | a memory-issue reply without an increase quotes 256 MB in its action yet reports 0 |
| ModelDiagnosis.ModelIncreaseIsNotRounded | lambda-functions/diagnosis.js:181 | an increase from the model is passed on without rounding to 64 MB |
| ModelDiagnosis.ModelConfidenceIsNotClamped | lambda-functions/diagnosis.js:176 | a reply with confidence 1.5 gives a diagnosis with confidence 1.5, outside [0, 1] |
| ModelDiagnosis.PerformModelDiagnosis | lambda-functions/diagnosis.js:46-80 | the model call with the built prompt, then reply parsing; a failed call or an unparsable reply is a failure |
| ModelDiagnosis.Handler | lambda-functions/diagnosis.js:12-43 | fails iff the name or the collected data is missing, with the required-fields message; otherwise the model's diagnosis, or the rule-based one when that fails, for the same function and alarm |
| ModelDiagnosis.UnreachableModelFallsBack | lambda-functions/diagnosis.js:28-34 | when every model call fails, the result is exactly the rule-based diagnosis, which carries no method tag |
| RepairExecutor.NewMemoryIsWholeBlocks | lambda-functions/repair-executor.js:35-42 | the new size is the least multiple of 64 at or above `min(original + increase, max)` |
| RepairExecutor.NewMemoryIsIdempotent | lambda-functions/repair-executor.js:36-42 | sizing the new size again with no increase under the same cap gives the same size |
| RepairExecutor.NewMemoryWithinBlockCap | lambda-functions/repair-executor.js:39-42 | a cap that is a multiple of 64 (the default 3008) is never exceeded |
| RepairExecutor.UnalignedCapIsExceeded | lambda-functions/repair-executor.js:39-42 | a cap that is not a multiple of 64 can be exceeded: 2990 + 64 under a 3000 cap becomes 3008 |
| RepairExecutor.NewMemoryNotBelowOriginal | lambda-functions/repair-executor.js:35-42 | a function within the cap never shrinks under a non-negative increase |
| RepairExecutor.AboveCapShrinks | lambda-functions/repair-executor.js:20 | a 4096 MB function is cut to 3008 MB: the reported increase is negative |
| RepairExecutor.LambdaService.constructor | lambda-functions/repair-executor.js:30-33 | the service starts from the given sizes and update responder |
| RepairExecutor.LambdaService.GetMemorySize | lambda-functions/repair-executor.js:30-35 | the configured size of a known function; "Function not found" otherwise |
| RepairExecutor.LambdaService.UpdateMemorySize | lambda-functions/repair-executor.js:73-77 | the service's reply; on success the function's size becomes the size the reply reports, and nothing else changes |
| RepairExecutor.AuditTable.constructor | lambda-functions/repair-executor.js:129-133 | an empty table |
| RepairExecutor.AuditTable.Put | lambda-functions/repair-executor.js:129-133 | every write is attempted, and the row is stored iff the table is available |
| RepairExecutor.RecordExpiresAfterRetention | lambda-functions/repair-executor.js:126 | the row expires 90 days after it is written, to the second |
| RepairExecutor.RecordRepairAction | lambda-functions/repair-executor.js:113-141 | one write of the row built from the result; a failed write is swallowed |
| RepairExecutor.Handler | lambda-functions/repair-executor.js:15-111 | each branch's exact result and state: invalid input and unknown function fail with nothing changed. Unchanged sizes skip, dry runs report only. An update failure or size mismatch fails. Success records one audit row and adds `lastModified`. It never throws |
| RepairExecutor.ZeroIncreaseIsRejected | lambda-functions/repair-executor.js:20-24 | a request with an increase of 0 fails the input check, since 0 is falsy |
| RepairExecutor.RerunWithoutIncrease | lambda-functions/repair-executor.js:20-24 | a re-run with no further increase ends in the missing-input failure and changes neither the service nor the table |
| RepairVerifier.WaitReachesDelay | lambda-functions/repair-verifier.js:28-36 | after the wait at least 60 s have passed since the repair, exactly 60 s when it waited; no wait once 60 s have passed |
| RepairVerifier.WindowsAreDisjoint | lambda-functions/repair-verifier.js:140-146 | the pre-repair window is the 10 minutes before the repair, and a 2-minute gap separates it from the post-repair window |
| RepairVerifier.FreshRepairHasInvertedPostWindow | lambda-functions/repair-verifier.js:28-36 | verified within a minute of the repair, the post-repair window (from repair + 2 min to the check, at repair + 1 min) ends before it starts |
| RepairVerifier.MissingValuesAbort | lambda-functions/repair-verifier.js:219-224 | a `duration` or `errors` result without values throws, and the whole query reads as zero |
| RepairVerifier.LastSeriesWins | lambda-functions/repair-verifier.js:219-226 | a later non-empty `duration` series sets the mean, a later `errors` series sets the sum |
| RepairVerifier.MeanAgreesWithCollector | lambda-functions/repair-verifier.js:221 | the verifier's mean duration equals the collector's series average |
| RepairVerifier.GetMetrics | lambda-functions/repair-verifier.js:179-234 | the `forEach` loop computes the aggregate of the results; a failed fetch or a missing series gives zeros |
| RepairVerifier.VerifyMetrics | lambda-functions/repair-verifier.js:138-177 | improved iff the mean duration fell by more than 10 % or errors fell. Its message follows, and the "Error rate improved to zero" branch is never taken. The pre window ends at the repair, the post window at the clock |
| RepairVerifier.EmptyPostWindowReadsAsImprovement | lambda-functions/repair-verifier.js:158-161 | a post window without data reads as zero and counts as an improvement over any non-zero pre window |
| RepairVerifier.Handler | lambda-functions/repair-verifier.js:13-81 | a missing name or time stamp gives the error result. Otherwise both checks pass, so the status is success. The metric comparison uses the windows at the post-wait clock |
| Coordinator.Unwrap | lambda-functions/coordinator.js:159-161 | a returned payload passes through; a function error becomes the step's prefix plus its message (or "Unknown error"); a failed call rethrows its own message |
| Coordinator.VerificationOf | lambda-functions/coordinator.js:224-249 | verification never fails: a returned payload passes through unchanged; a function error becomes `verification_failed` with the payload's error message, and a failed call `verification_failed` with the call's message |
| Coordinator.CollectData | lambda-functions/coordinator.js:144-168 | the collector call with the alarm's name, alarm and time stamp, unwrapped with "Data collection failed: " |
| Coordinator.DiagnoseIssue | lambda-functions/coordinator.js:170-195 | the diagnosis call with name, alarm, reason and data, unwrapped with "Diagnosis failed: " |
| Coordinator.ExecuteRepair | lambda-functions/coordinator.js:197-222 | the repair call with the recommended increase, cap 3008 and no dry run, unwrapped with "Repair execution failed: " |
| Coordinator.VerifyRepair | lambda-functions/coordinator.js:224-250 | the verifier call with the repair's time stamp and sizes, never failing |
| Coordinator.Handler | lambda-functions/coordinator.js:13-91 | the handler's response and its sequence of outgoing calls are those of the coordinated run; an event that does not parse is ignored with no call |
| Coordinator.Process | lambda-functions/coordinator.js:25-77 | once the alarm has parsed, the steps make the calls of the run, in order, and return its response |
| Coordinator.NotificationsOfFinalPublish | lambda-functions/coordinator.js:45-87 | calls ending in their only publish carry exactly that one notification |
| Coordinator.DispatchNotifiesOnce | lambda-functions/coordinator.js:29-90 | a parsed alarm leads to exactly one notification, sent last. It is an error report with the rethrown message on failure, a repair report after a repair, and a no-action report otherwise |
| Coordinator.ExactlyOneNotification | lambda-functions/coordinator.js:19-90 | an event is ignored iff it does not parse, and then no call is made at all. Otherwise exactly one notification is sent, as the last call; on failure it is an error report carrying the rethrown message |
| Coordinator.RepairIffMemoryIssue | lambda-functions/coordinator.js:36-38 | the executor is called iff collection and diagnosis return a memory issue with a non-zero increase; the request names the alarm's function, carries the diagnosis's recommended increase, cap 3008 and no dry run |
| Coordinator.VerifyFollowsRepair | lambda-functions/coordinator.js:38-61 | a returned repair is followed by the verifier call with its time stamp, and the run succeeds; a failed repair call ends the run with a failure and its notification |
| Coordinator.SuccessIgnoresRepairStatus | lambda-functions/coordinator.js:54-61 | a repair that returns a `failed` result still yields "Auto-repair completed successfully" with its sizes |
| Coordinator.PublishOutcomeIsIgnored | lambda-functions/coordinator.js:252-272 | a failed publish never changes the response or the calls |
| Coordinator.RepairRequestIsValid | lambda-functions/coordinator.js:199-206 | every repair request the coordinator sends passes the executor's input check |
| StepFunctionsAdapter.Handler | lambda-functions/stepfunctions-adapter.js:6-28 | fails with "Invalid CloudWatch alarm event" iff the event does not parse; otherwise the workflow input carries the parsed name, alarm, reason, time stamp and the event itself |
| StepFunctionsAdapter.AdapterAgreesWithCoordinator | lambda-functions/stepfunctions-adapter.js:12-15 | the adapter rejects exactly the events the coordinator ignores, and the coordinator's first call is for the alarm the adapter passes on |

## Left out

- Console logging, the prompt's prose wording, the rule-based reasoning text and notification subjects are not modelled. The rule-based reasoning strings are not modelled either.
- AWS clients, JSON encoding and decoding, ISO 8601 formatting, `Date.now()` and `new Date()` are parameters: responder functions, a `decode` function, a `parseTime` function, and `now`/`isoNow` values. The verifier's clock after the wait is modelled as `now + waited`. The repair executor uses one clock reading per invocation, where the source reads the clock separately for the result and for the audit row.
- `setTimeout`: only the delay it is given is modelled, not the wait itself. `Promise.all` is modelled as the two fetches in sequence; they are independent.
- The random part of the audit row's id (`Math.random`), and the `timestamp` and `collectedAt` fields that only echo the clock, are not modelled. The table name and the SNS topic are configuration and are not modelled.
- Floating point: scores, means, weights and metric values are exact reals, not IEEE doubles. The score weights are tenths, and the threshold 0.6 and the total 1.0 are compared exactly.
- ModelDiagnosis.RecentEventsAreBoundedPrefixes: a message is cut at 200 characters, where a character is a Unicode scalar value. `substring(0, 200)` counts UTF-16 code units, so the source cuts a message holding characters outside the Basic Multilingual Plane earlier and can split a surrogate pair. Strings here are sequences of characters, not of UTF-16 code units.
- DataCollector.UtilizationIsRoundedPercentage: a report with `Memory Size: 0 MB` gives `Infinity` or `NaN` in the source; the model gives 0.
- The `Duration:` figure of a memory report is parsed by the source but used nowhere, and is not modelled.
- JSON values of the wrong type are not modelled. This covers a non-boolean `isMemoryIssue` from the model, a non-number `maxMemory` and a string `dryRun`. Each field is typed as its intended type or absent.
- ModelDiagnosis.ParseModelReply: the reply's own evidence list is passed through as typed evidence points, not as raw JSON.
- RepairVerifier.VerifyMetrics: the catch branch is not modelled, since every failure inside it is already absorbed by `getMetrics`. An invalid repair time stamp is modelled as no fetch and zero metrics.
- RepairVerifier.Handler: `verifyConfiguration` and `verifyFunctionality` report success without calling anything, and are modelled as constant successes. The configuration they would read is not part of this model.
- RepairExecutor.LambdaService.GetMemorySize: the service's not-found error is the fixed "Function not found" message; other service failures are not modelled.
- Process environment variables are configuration and are not modelled. These are the target lambda names, the repair table and the topic; the one that matters is the cap, which the coordinator fixes at 3008 MB.
- `test-case/memory-exhaustion-function.js` is a workload, not part of the pipeline, and is not part of this model.
