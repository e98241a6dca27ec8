/** The coordinator lambda: it turns a CloudWatch alarm event into the
    collect, diagnose, repair and verify calls, and reports the run in one
    notification. */
module Coordinator {
  import opened Wrappers
  import AlarmParser
  import DataCollector
  import Diagnosis
  import ModelDiagnosis
  import RepairExecutor
  import RepairVerifier

  type Envelope = AlarmParser.Envelope
  type Alarm = AlarmParser.Alarm

  /** The outcome of a synchronous Lambda `Invoke`. */
  datatype Invocation<T> =
    | Returned(payload: T)                          // the callee returned a payload
    | FunctionError(errorMessage: Option<string>)   // the callee threw; its error payload
    | Threw(message: string)                        // the call itself failed

  /** What `verifyRepair` hands back: the verifier's result, or the
      `verification_failed` stand-in. */
  datatype VerificationOutcome =
    | Verification(result: RepairVerifier.VerificationResult)
    | VerificationFailed(error: Option<string>)

  datatype Notification =
    | RepairCompleted(functionName: string, alarmName: string, diagnosis: Diagnosis.Diagnosis,
                      repair: RepairExecutor.RepairResult, verification: VerificationOutcome)
    | NoActionRequired(functionName: string, alarmName: string, diagnosis: Diagnosis.Diagnosis)
    | ErrorReport(error: string, event: Envelope)

  /** `verificationStatus` in the success response. */
  datatype VerificationStatus =
    | Reported(status: RepairVerifier.VerificationStatus)
    | VerificationFailedStatus

  /** The handler's return value; each alternative has status code 200. */
  datatype Response =
    | Ignored                                         // "Event ignored"
    | AutoRepairCompleted(functionName: string, originalMemory: int, newMemory: int,
                          verificationStatus: VerificationStatus)   // "Auto-repair completed successfully"
    | NoAction(functionName: string, diagnosis: Diagnosis.Diagnosis)  // "No action required"

  /** The collaborators: four lambdas and the notification topic (`true` when
      a publish succeeds). */
  datatype Services = Services(
    collect: DataCollector.CollectRequest -> Invocation<DataCollector.DataCollection>,
    diagnose: ModelDiagnosis.DiagnosisRequest -> Invocation<Diagnosis.Diagnosis>,
    repair: RepairExecutor.RepairRequest -> Invocation<RepairExecutor.RepairResult>,
    verify: RepairVerifier.VerifyRequest -> Invocation<RepairVerifier.VerificationResult>,
    publish: Notification -> bool)

  /** One outgoing call, in the order the handler makes them. */
  datatype Call =
    | Collect(collectRequest: DataCollector.CollectRequest)
    | Diagnose(diagnosisRequest: ModelDiagnosis.DiagnosisRequest)
    | Repair(repairRequest: RepairExecutor.RepairRequest)
    | Verify(verifyRequest: RepairVerifier.VerifyRequest)
    | Publish(notification: Notification)

  const CollectFailed := "Data collection failed: "
  const DiagnosisFailed := "Diagnosis failed: "
  const RepairFailed := "Repair execution failed: "
  const UnknownError := "Unknown error"
  /** The memory cap the coordinator always asks for (MB). */
  const RepairMaxMemory := 3008

  // ------------------------------------------------------ the four requests

  function CollectRequestFor(alarm: Alarm): DataCollector.CollectRequest {
    DataCollector.CollectRequest(alarm.functionName, alarm.alarmName, alarm.timestamp)
  }

  function DiagnosisRequestFor(alarm: Alarm, data: DataCollector.DataCollection): ModelDiagnosis.DiagnosisRequest {
    ModelDiagnosis.DiagnosisRequest(alarm.functionName, alarm.alarmName, alarm.reason, Some(data))
  }

  function RepairRequestFor(functionName: string, d: Diagnosis.Diagnosis): RepairExecutor.RepairRequest {
    RepairExecutor.RepairRequest(functionName, Some(d.recommendedMemoryIncrease), Some(RepairMaxMemory), Some(false))
  }

  function VerifyRequestFor(functionName: string, r: RepairExecutor.RepairResult): RepairVerifier.VerifyRequest {
    RepairVerifier.VerifyRequest(functionName, r.timestamp, Some(r.originalMemory), Some(r.newMemory))
  }

  // ---------------------------------------------------------- error mapping

  /** `payload.errorMessage || 'Unknown error'`. */
  function ErrorText(errorMessage: Option<string>): string {
    if errorMessage.Some? && errorMessage.value != "" then errorMessage.value else UnknownError
  }

  /** `collectData`, `diagnoseIssue` and `executeRepair`: a function error
      becomes a thrown error with the step's prefix; a failed call rethrows
      as it is. */
  function Unwrap<T>(outcome: Invocation<T>, prefix: string): (r: Result<T, string>)
    ensures r.Success? <==> outcome.Returned?
    ensures outcome.Returned? ==> r == Success(outcome.payload)
    ensures outcome.FunctionError? ==> r.error == prefix + ErrorText(outcome.errorMessage)
    ensures outcome.Threw? ==> r.error == outcome.message
  {
    match outcome
    case Returned(p) => Success(p)
    case FunctionError(m) => Failure(prefix + ErrorText(m))
    case Threw(m) => Failure(m)
  }

  /** `verifyRepair`: it never fails. */
  function VerificationOf(outcome: Invocation<RepairVerifier.VerificationResult>): (v: VerificationOutcome)
    ensures v.Verification? <==> outcome.Returned?
    ensures outcome.Returned? ==> v == Verification(outcome.payload)
    ensures outcome.FunctionError? ==> v == VerificationFailed(outcome.errorMessage)
    ensures outcome.Threw? ==> v == VerificationFailed(Some(outcome.message))
  {
    match outcome
    case Returned(p) => Verification(p)
    case FunctionError(m) => VerificationFailed(m)
    case Threw(m) => VerificationFailed(Some(m))
  }

  function StatusOf(v: VerificationOutcome): VerificationStatus {
    match v
    case Verification(result) => Reported(result.status)
    case VerificationFailed(_) => VerificationFailedStatus
  }

  /** The branch condition `isMemoryIssue && recommendedMemoryIncrease`. */
  predicate CallsForRepair(d: Diagnosis.Diagnosis) {
    d.isMemoryIssue && d.recommendedMemoryIncrease != 0
  }

  // -------------------------------------------------------------- the run

  /** A run of the handler: its response (`Failure` when it rethrows) and
      its outgoing calls in order. */
  datatype Run = Run(response: Result<Response, string>, calls: seq<Call>)

  function Coordinate(event: Envelope, s: Services): Run {
    match AlarmParser.ParsedAlarm(event)
    case None => Run(Success(Ignored), [])
    case Some(alarm) => Dispatch(alarm, event, s)
  }

  /** The run for an event that parsed to `alarm`. */
  function Dispatch(alarm: Alarm, event: Envelope, s: Services): Run {
      var collectRequest := CollectRequestFor(alarm);
      match Unwrap(s.collect(collectRequest), CollectFailed)
      case Failure(e) => Run(Failure(e), [Collect(collectRequest), Publish(ErrorReport(e, event))])
      case Success(data) =>
        var diagnosisRequest := DiagnosisRequestFor(alarm, data);
        var before := [Collect(collectRequest), Diagnose(diagnosisRequest)];
        match Unwrap(s.diagnose(diagnosisRequest), DiagnosisFailed)
        case Failure(e) => Run(Failure(e), before + [Publish(ErrorReport(e, event))])
        case Success(d) =>
          if CallsForRepair(d) then
            var repairRequest := RepairRequestFor(alarm.functionName, d);
            match Unwrap(s.repair(repairRequest), RepairFailed)
            case Failure(e) => Run(Failure(e), before + [Repair(repairRequest), Publish(ErrorReport(e, event))])
            case Success(repair) =>
              var verifyRequest := VerifyRequestFor(alarm.functionName, repair);
              var verification := VerificationOf(s.verify(verifyRequest));
              Run(Success(AutoRepairCompleted(alarm.functionName, repair.originalMemory, repair.newMemory,
                                              StatusOf(verification))),
                  before + [Repair(repairRequest), Verify(verifyRequest),
                            Publish(RepairCompleted(alarm.functionName, alarm.alarmName, d, repair, verification))])
          else
            Run(Success(NoAction(alarm.functionName, d)),
                before + [Publish(NoActionRequired(alarm.functionName, alarm.alarmName, d))])
  }

  // ------------------------------------------------------------ the handler

  method CollectData(alarm: Alarm, s: Services) returns (r: Result<DataCollector.DataCollection, string>)
    ensures r == Unwrap(s.collect(CollectRequestFor(alarm)), CollectFailed)
  {
    var result := s.collect(CollectRequestFor(alarm));
    if result.FunctionError? {
      return Failure(CollectFailed + ErrorText(result.errorMessage));
    }
    if result.Threw? {
      return Failure(result.message);
    }
    r := Success(result.payload);
  }

  method DiagnoseIssue(alarm: Alarm, data: DataCollector.DataCollection, s: Services)
    returns (r: Result<Diagnosis.Diagnosis, string>)
    ensures r == Unwrap(s.diagnose(DiagnosisRequestFor(alarm, data)), DiagnosisFailed)
  {
    var result := s.diagnose(DiagnosisRequestFor(alarm, data));
    if result.FunctionError? {
      return Failure(DiagnosisFailed + ErrorText(result.errorMessage));
    }
    if result.Threw? {
      return Failure(result.message);
    }
    r := Success(result.payload);
  }

  method ExecuteRepair(functionName: string, d: Diagnosis.Diagnosis, s: Services)
    returns (r: Result<RepairExecutor.RepairResult, string>)
    ensures r == Unwrap(s.repair(RepairRequestFor(functionName, d)), RepairFailed)
  {
    var result := s.repair(RepairRequestFor(functionName, d));
    if result.FunctionError? {
      return Failure(RepairFailed + ErrorText(result.errorMessage));
    }
    if result.Threw? {
      return Failure(result.message);
    }
    r := Success(result.payload);
  }

  method VerifyRepair(functionName: string, repair: RepairExecutor.RepairResult, s: Services)
    returns (v: VerificationOutcome)
    ensures v == VerificationOf(s.verify(VerifyRequestFor(functionName, repair)))
  {
    var result := s.verify(VerifyRequestFor(functionName, repair));
    if result.FunctionError? {
      return VerificationFailed(result.errorMessage);
    }
    if result.Threw? {
      return VerificationFailed(Some(result.message));
    }
    v := Verification(result.payload);
  }

  /** `sendNotification`: a failed publish is logged and swallowed. */
  method SendNotification(n: Notification, s: Services) {
    var delivered := s.publish(n);
  }

  /** The coordinator lambda's handler; `calls` records every outgoing call. */
  method Handler(event: Envelope, s: Services) returns (r: Result<Response, string>, ghost calls: seq<Call>)
    ensures r == Coordinate(event, s).response
    ensures calls == Coordinate(event, s).calls
  {
    var alarmEvent := AlarmParser.ParseAlarmEvent(event);
    if alarmEvent.None? {
      return Success(Ignored), [];
    }
    r, calls := Process(alarmEvent.value, event, s);
  }

  /** The handler's steps once the event has parsed to `alarm`. */
  method Process(alarm: Alarm, event: Envelope, s: Services) returns (r: Result<Response, string>, ghost calls: seq<Call>)
    ensures r == Dispatch(alarm, event, s).response
    ensures calls == Dispatch(alarm, event, s).calls
  {
    calls := [Collect(CollectRequestFor(alarm))];
    var dataCollectionResult := CollectData(alarm, s);
    if dataCollectionResult.Failure? {
      var notice := ErrorReport(dataCollectionResult.error, event);
      SendNotification(notice, s);
      calls := calls + [Publish(notice)];
      return Failure(dataCollectionResult.error), calls;
    }

    calls := calls + [Diagnose(DiagnosisRequestFor(alarm, dataCollectionResult.value))];
    var diagnosisResult := DiagnoseIssue(alarm, dataCollectionResult.value, s);
    if diagnosisResult.Failure? {
      var notice := ErrorReport(diagnosisResult.error, event);
      SendNotification(notice, s);
      calls := calls + [Publish(notice)];
      return Failure(diagnosisResult.error), calls;
    }
    var diagnosis := diagnosisResult.value;

    if diagnosis.isMemoryIssue && diagnosis.recommendedMemoryIncrease != 0 {
      calls := calls + [Repair(RepairRequestFor(alarm.functionName, diagnosis))];
      var repairResult := ExecuteRepair(alarm.functionName, diagnosis, s);
      if repairResult.Failure? {
        var notice := ErrorReport(repairResult.error, event);
        SendNotification(notice, s);
        calls := calls + [Publish(notice)];
        return Failure(repairResult.error), calls;
      }
      var repair := repairResult.value;
      calls := calls + [Verify(VerifyRequestFor(alarm.functionName, repair))];
      var verificationResult := VerifyRepair(alarm.functionName, repair, s);
      var notice := RepairCompleted(alarm.functionName, alarm.alarmName, diagnosis, repair, verificationResult);
      SendNotification(notice, s);
      calls := calls + [Publish(notice)];
      r := Success(AutoRepairCompleted(alarm.functionName, repair.originalMemory, repair.newMemory,
                                       StatusOf(verificationResult)));
    } else {
      var notice := NoActionRequired(alarm.functionName, alarm.alarmName, diagnosis);
      SendNotification(notice, s);
      calls := calls + [Publish(notice)];
      r := Success(NoAction(alarm.functionName, diagnosis));
    }
  }

  // ------------------------------------------------------------ properties

  function Notifications(calls: seq<Call>): seq<Notification> {
    if calls == [] then []
    else Notifications(calls[..|calls| - 1])
         + (if calls[|calls| - 1].Publish? then [calls[|calls| - 1].notification] else [])
  }

  lemma {:induction false} NotificationsOfPlainCalls(calls: seq<Call>)
    requires forall i :: 0 <= i < |calls| ==> !calls[i].Publish?
    ensures Notifications(calls) == []
  {
    if calls != [] {
      NotificationsOfPlainCalls(calls[..|calls| - 1]);
    }
  }

  lemma NotificationsOfFinalPublish(calls: seq<Call>, n: Notification)
    requires forall i :: 0 <= i < |calls| ==> !calls[i].Publish?
    ensures Notifications(calls + [Publish(n)]) == [n]
  {
    assert (calls + [Publish(n)])[..|calls|] == calls;
    NotificationsOfPlainCalls(calls);
  }

  /** A parsed alarm leads to exactly one notification, sent as the last
      call, and it reports the run's outcome. */
  lemma DispatchNotifiesOnce(alarm: Alarm, event: Envelope, s: Services)
    ensures var run := Dispatch(alarm, event, s);
            && run.response != Success(Ignored)
            && |Notifications(run.calls)| == 1
            && run.calls[|run.calls| - 1] == Publish(Notifications(run.calls)[0])
            && (run.response.Failure? ==> Notifications(run.calls)[0] == ErrorReport(run.response.error, event))
            && (run.response.Success? && run.response.value.AutoRepairCompleted? ==>
                  Notifications(run.calls)[0].RepairCompleted?)
            && (run.response.Success? && run.response.value.NoAction? ==>
                  Notifications(run.calls)[0].NoActionRequired?)
  {
    var run := Dispatch(alarm, event, s);
    var k := |run.calls| - 1;
    assert run.calls == run.calls[..k] + [run.calls[k]];
    assert forall i :: 0 <= i < k ==> !run.calls[i].Publish?;
    NotificationsOfFinalPublish(run.calls[..k], run.calls[k].notification);
  }

  /** An ignored event causes no call at all; any other run sends exactly one
      notification, as its last call, and it reports the run's outcome. */
  lemma ExactlyOneNotification(event: Envelope, s: Services)
    ensures var run := Coordinate(event, s);
            && (run.response == Success(Ignored) <==> AlarmParser.ParsedAlarm(event).None?)
            && (run.response == Success(Ignored) ==> run.calls == [])
            && (run.response != Success(Ignored) ==>
                  && |Notifications(run.calls)| == 1
                  && run.calls[|run.calls| - 1] == Publish(Notifications(run.calls)[0])
                  && (run.response.Failure? ==>
                        Notifications(run.calls)[0] == ErrorReport(run.response.error, event)))
  {
    match AlarmParser.ParsedAlarm(event)
    case None =>
    case Some(alarm) => DispatchNotifiesOnce(alarm, event, s);
  }

  /** The position of the repair call, if the run made one. */
  predicate RepairedAt(run: Run, i: int) {
    0 <= i < |run.calls| && run.calls[i].Repair?
  }

  /** The repair lambda is called iff collection and diagnosis return a
      diagnosis of a memory issue with a non-zero increase; the request names
      the alarm's function and carries that increase, the 3008 MB cap and no
      dry run. */
  lemma RepairIffMemoryIssue(alarm: Alarm, event: Envelope, s: Services)
    ensures var run := Dispatch(alarm, event, s);
            (exists i :: RepairedAt(run, i))
            <==> (&& s.collect(CollectRequestFor(alarm)).Returned?
                  && var data := s.collect(CollectRequestFor(alarm)).payload;
                  && s.diagnose(DiagnosisRequestFor(alarm, data)).Returned?
                  && CallsForRepair(s.diagnose(DiagnosisRequestFor(alarm, data)).payload))
    ensures var run := Dispatch(alarm, event, s);
            forall i :: RepairedAt(run, i) ==>
              && run.calls[i].repairRequest.functionName == alarm.functionName
              && run.calls[i].repairRequest.maxMemory == Some(RepairMaxMemory)
              && run.calls[i].repairRequest.dryRun == Some(false)
              && run.calls[i].repairRequest.memoryIncrease.Some?
              && run.calls[i].repairRequest.memoryIncrease.value != 0
              && var data := s.collect(CollectRequestFor(alarm)).payload;
              && run.calls[i].repairRequest.memoryIncrease
                 == Some(s.diagnose(DiagnosisRequestFor(alarm, data)).payload.recommendedMemoryIncrease)
  {
    var run := Dispatch(alarm, event, s);
    var collectRequest := CollectRequestFor(alarm);
    if s.collect(collectRequest).Returned? {
      var data := s.collect(collectRequest).payload;
      var diagnosisRequest := DiagnosisRequestFor(alarm, data);
      if s.diagnose(diagnosisRequest).Returned? && CallsForRepair(s.diagnose(diagnosisRequest).payload) {
        assert RepairedAt(run, 2);
      }
    }
  }

  /** A repair that returns is always followed by the verification call, and
      whatever verification does, the run then succeeds. */
  lemma VerifyFollowsRepair(alarm: Alarm, event: Envelope, s: Services, i: int)
    requires RepairedAt(Dispatch(alarm, event, s), i)
    ensures var run := Dispatch(alarm, event, s);
            var repaired := s.repair(run.calls[i].repairRequest);
            && (repaired.Returned? ==>
                  && i + 1 < |run.calls| && run.calls[i + 1].Verify?
                  && run.calls[i + 1].verifyRequest.repairTimestamp == repaired.payload.timestamp
                  && run.response.Success? && run.response.value.AutoRepairCompleted?)
            && (!repaired.Returned? ==> run.response.Failure? && |run.calls| == i + 2)
  {
  }

  /** The success message does not look at the repair's own status: a repair
      lambda that returns a failed result still yields "Auto-repair completed
      successfully", with the sizes it reports. */
  lemma SuccessIgnoresRepairStatus(alarm: Alarm, event: Envelope, s: Services, i: int)
    requires RepairedAt(Dispatch(alarm, event, s), i)
    requires s.repair(Dispatch(alarm, event, s).calls[i].repairRequest).Returned?
    requires s.repair(Dispatch(alarm, event, s).calls[i].repairRequest).payload.status == RepairExecutor.Failed
    ensures Dispatch(alarm, event, s).response.Success?
    ensures Dispatch(alarm, event, s).response.value.AutoRepairCompleted?
    ensures Dispatch(alarm, event, s).response.value.originalMemory
            == s.repair(Dispatch(alarm, event, s).calls[i].repairRequest).payload.originalMemory
  {
  }

  /** Whether notifications get through never changes what the handler does. */
  lemma PublishOutcomeIsIgnored(event: Envelope, s: Services, publish: Notification -> bool)
    ensures Coordinate(event, s) == Coordinate(event, s.(publish := publish))
  {
  }

  /** Every repair request the coordinator sends passes the executor's input
      check: the extracted name is never empty and the increase is non-zero. */
  lemma RepairRequestIsValid(event: Envelope, s: Services, i: int)
    requires AlarmParser.ParsedAlarm(event).Some?
    requires RepairedAt(Coordinate(event, s), i)
    ensures RepairExecutor.IsValid(Coordinate(event, s).calls[i].repairRequest)
  {
    var alarm := AlarmParser.ParsedAlarm(event).value;
    AlarmParser.FunctionNameIsNonEmpty(alarm.alarmName);
    RepairIffMemoryIssue(alarm, event, s);
  }
}
