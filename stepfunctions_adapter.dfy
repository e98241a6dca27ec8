/** The Step Functions adapter: it reshapes an EventBridge alarm event into
    the workflow's input, or fails the execution on any other event. */
module StepFunctionsAdapter {
  import opened Wrappers
  import AlarmParser
  import Coordinator

  type Envelope = AlarmParser.Envelope

  const InvalidEvent := "Invalid CloudWatch alarm event"

  /** The workflow's input document. */
  datatype WorkflowInput = WorkflowInput(
    functionName: string,
    alarmName: string,
    alarmReason: string,
    timestamp: string,
    originalEvent: Envelope)

  /** The adapter's handler: `Failure` stands for the rethrown error. */
  method Handler(event: Envelope) returns (r: Result<WorkflowInput, string>)
    ensures r.Failure? <==> AlarmParser.ParsedAlarm(event).None?
    ensures r.Failure? ==> r.error == InvalidEvent
    ensures r.Success? ==>
      var alarm := AlarmParser.ParsedAlarm(event).value;
      && r.value.functionName == alarm.functionName
      && r.value.alarmName == alarm.alarmName
      && r.value.alarmName == event.detail.value.alarmName.value
      && r.value.alarmReason == event.detail.value.state.value.reason
      && r.value.timestamp == event.detail.value.state.value.timestamp
      && r.value.originalEvent == event
  {
    var alarmEvent := AlarmParser.ParseAlarmEvent(event);
    if alarmEvent.None? {
      return Failure(InvalidEvent);
    }
    var alarm := alarmEvent.value;
    r := Success(WorkflowInput(alarm.functionName, alarm.alarmName, alarm.reason, alarm.timestamp, event));
  }

  /** The adapter and the coordinator accept the same events: the adapter
      fails exactly on the events the coordinator ignores, and both report
      the same function name. */
  lemma AdapterAgreesWithCoordinator(event: Envelope, s: Coordinator.Services)
    ensures Coordinator.Coordinate(event, s).response == Success(Coordinator.Ignored)
            <==> AlarmParser.ParsedAlarm(event).None?
    ensures AlarmParser.ParsedAlarm(event).Some? && Coordinator.Coordinate(event, s).calls != [] ==>
              Coordinator.Coordinate(event, s).calls[0]
              == Coordinator.Collect(Coordinator.CollectRequestFor(AlarmParser.ParsedAlarm(event).value))
  {
    Coordinator.ExactlyOneNotification(event, s);
  }
}
