/** The repair-executor lambda: new memory size, the skipped / dry-run /
    success / failed outcome, the configuration update and its audit record. */
module RepairExecutor {
  import opened Wrappers
  import Diagnosis
  import DataCollector

  /** Largest memory size the executor raises a function to unless told otherwise (MB). */
  const DefaultMaxMemory := 3008
  /** How long an audit record is kept: 90 days, in seconds. */
  const AuditRetentionSeconds := 90 * 24 * 60 * 60
  const SkippedReason := "No memory increase needed or already at maximum"
  const DryRunReason := "Dry run mode - no actual changes made"
  /** What the configuration service answers for an unknown function. */
  const FunctionNotFound := "Function not found"

  /** The lambda's input; `None` is a field the caller left out. */
  datatype RepairRequest = RepairRequest(
    functionName: string,
    memoryIncrease: Option<int>,
    maxMemory: Option<int>,
    dryRun: Option<bool>)

  datatype RepairStatus = Succeeded | Skipped | DryRun | Failed

  /** Why a repair failed; `UpdateMismatch` is the "Memory update verification
      failed. Expected: …, Got: …" error. */
  datatype RepairError =
    | MissingInput      // "functionName and memoryIncrease are required"
    | ServiceError(message: string)
    | UpdateMismatch(expected: int, got: int)

  /** The result object; the failed result carries only the name, zeroes and the error. */
  datatype RepairResult = RepairResult(
    functionName: string,
    originalMemory: int,
    newMemory: int,
    memoryIncrease: Option<int>,
    status: RepairStatus,
    reason: Option<string>,
    dryRun: Option<bool>,
    error: Option<RepairError>,
    lastModified: Option<string>,
    timestamp: string)

  function FailedResult(functionName: string, error: RepairError, timestamp: string): RepairResult {
    RepairResult(functionName, 0, 0, None, Failed, None, None, Some(error), None, timestamp)
  }

  /** The configuration the update call reports back. */
  datatype UpdateReply = UpdateReply(memorySize: int, lastModified: string)

  /** One row of the audit table (the random id and the ISO time are left out). */
  datatype RepairRecord = RepairRecord(
    functionName: string,
    originalMemory: int,
    newMemory: int,
    memoryIncrease: int,
    status: RepairStatus,
    dryRun: bool,
    ttl: int)

  // ---------------------------------------------------------------- sizing

  function MinInt(a: int, b: int): int {
    if a <= b then a else b
  }

  /** `Math.ceil(Math.min(original + increase, maxMemory) / 64) * 64`. */
  function NewMemory(originalMemory: int, memoryIncrease: int, maxMemory: int): int {
    Diagnosis.Ceil64(MinInt(originalMemory + memoryIncrease, maxMemory))
  }

  /** The new size is the capped target rounded up to the next 64 MB block. */
  lemma NewMemoryIsWholeBlocks(originalMemory: int, memoryIncrease: int, maxMemory: int)
    ensures var target := MinInt(originalMemory + memoryIncrease, maxMemory);
            var n := NewMemory(originalMemory, memoryIncrease, maxMemory);
            n % 64 == 0 && target <= n < target + 64
  {
    Diagnosis.Ceil64IsLeastMultipleAbove(MinInt(originalMemory + memoryIncrease, maxMemory));
  }

  /** A cap that is itself a whole number of blocks (the default 3008 = 47 * 64) is never exceeded. */
  lemma NewMemoryWithinBlockCap(originalMemory: int, memoryIncrease: int, maxMemory: int)
    requires maxMemory % 64 == 0
    ensures NewMemory(originalMemory, memoryIncrease, maxMemory) <= maxMemory
  {
    var target := MinInt(originalMemory + memoryIncrease, maxMemory);
    NewMemoryIsWholeBlocks(originalMemory, memoryIncrease, maxMemory);
    var n := NewMemory(originalMemory, memoryIncrease, maxMemory);
    assert n == ((target + 63) / 64) * 64;
    assert (target + 63) / 64 <= maxMemory / 64;
    DataCollector.MulMonotone(64, (target + 63) / 64, maxMemory / 64);
  }

  /** A cap that is not a whole number of blocks can be exceeded by the rounding. */
  lemma UnalignedCapIsExceeded()
    ensures NewMemory(2990, 64, 3000) == 3008
  {
  }

  /** A function within the cap never shrinks under a non-negative increase. */
  lemma NewMemoryNotBelowOriginal(originalMemory: int, memoryIncrease: int, maxMemory: int)
    requires originalMemory <= maxMemory && memoryIncrease >= 0
    ensures NewMemory(originalMemory, memoryIncrease, maxMemory) >= originalMemory
  {
    NewMemoryIsWholeBlocks(originalMemory, memoryIncrease, maxMemory);
  }

  /** Sizing is idempotent: sizing its own result again with no increase
      under the same cap changes nothing. */
  lemma NewMemoryIsIdempotent(originalMemory: int, memoryIncrease: int, maxMemory: int)
    ensures var n := NewMemory(originalMemory, memoryIncrease, maxMemory);
            NewMemory(n, 0, maxMemory) == n
  {
    var n := NewMemory(originalMemory, memoryIncrease, maxMemory);
    NewMemoryIsWholeBlocks(originalMemory, memoryIncrease, maxMemory);
    Diagnosis.Ceil64IsLeastMultipleAbove(MinInt(originalMemory + memoryIncrease, maxMemory));
    Diagnosis.Ceil64IsLeastMultipleAbove(MinInt(n, maxMemory));
  }

  /** A function already above the cap is shrunk to it: the reported increase is negative. */
  lemma AboveCapShrinks()
    ensures NewMemory(4096, 256, DefaultMaxMemory) == 3008
    ensures NewMemory(4096, 256, DefaultMaxMemory) - 4096 < 0
  {
  }

  // -------------------------------------------------------------- services

  /** The Lambda configuration service: the live `MemorySize` of each function,
      and how it answers an update. */
  class LambdaService {
    var memorySizes: map<string, int>
    const respond: (string, int) -> Result<UpdateReply, string>

    constructor (memorySizes: map<string, int>, respond: (string, int) -> Result<UpdateReply, string>)
      ensures this.memorySizes == memorySizes && this.respond == respond
    {
      this.memorySizes := memorySizes;
      this.respond := respond;
    }

    /** `GetFunctionConfiguration`: the function's current memory size. */
    method GetMemorySize(functionName: string) returns (r: Result<int, string>)
      ensures functionName in memorySizes ==> r == Success(memorySizes[functionName])
      ensures functionName !in memorySizes ==> r == Failure(FunctionNotFound)
    {
      if functionName in memorySizes {
        r := Success(memorySizes[functionName]);
      } else {
        r := Failure(FunctionNotFound);
      }
    }

    /** `UpdateFunctionConfiguration`: the live size becomes the one the service reports. */
    method UpdateMemorySize(functionName: string, memorySize: int) returns (r: Result<UpdateReply, string>)
      modifies this
      ensures r == respond(functionName, memorySize)
      ensures r.Success? ==> memorySizes == old(memorySizes)[functionName := r.value.memorySize]
      ensures r.Failure? ==> memorySizes == old(memorySizes)
    {
      r := respond(functionName, memorySize);
      if r.Success? {
        memorySizes := memorySizes[functionName := r.value.memorySize];
      }
    }
  }

  /** The repairs audit table: every write attempted, and the rows stored. */
  class AuditTable {
    var attempts: seq<RepairRecord>
    var records: seq<RepairRecord>
    const available: bool

    constructor (available: bool)
      ensures attempts == [] && records == [] && this.available == available
    {
      attempts := [];
      records := [];
      this.available := available;
    }

    /** A `PutCommand`: stored only while the table is available. */
    method Put(record: RepairRecord) returns (stored: bool)
      modifies this
      ensures stored == available
      ensures attempts == old(attempts) + [record]
      ensures records == old(records) + (if available then [record] else [])
    {
      attempts := attempts + [record];
      stored := available;
      if available {
        records := records + [record];
      }
    }
  }

  // ----------------------------------------------------------- audit record

  /** The record written for a result at `now` (milliseconds since the epoch). */
  function RecordOf(result: RepairResult, now: nat): RepairRecord {
    RepairRecord(result.functionName, result.originalMemory, result.newMemory, result.memoryIncrease.GetOr(0),
                 result.status, result.dryRun.GetOr(false), now / 1000 + AuditRetentionSeconds)
  }

  /** The record expires 90 days after it is written, to the second. */
  lemma RecordExpiresAfterRetention(result: RepairResult, now: nat)
    ensures var start := RecordOf(result, now).ttl - AuditRetentionSeconds;
            start * 1000 <= now < (start + 1) * 1000
  {
  }

  /** `recordRepairAction`: one write attempt; a failed write is swallowed. */
  method RecordRepairAction(result: RepairResult, table: AuditTable, now: nat)
    modifies table
    ensures table.attempts == old(table.attempts) + [RecordOf(result, now)]
    ensures table.records == old(table.records) + (if table.available then [RecordOf(result, now)] else [])
  {
    var record := RecordOf(result, now);
    var _ := table.Put(record);
  }

  // --------------------------------------------------------------- handler

  /** The request is rejected when the name is empty or the increase is missing or zero. */
  predicate IsValid(event: RepairRequest) {
    event.functionName != "" && event.memoryIncrease.Some? && event.memoryIncrease.value != 0
  }

  /** A re-run with no further increase never reaches the sizing: an increase
      of 0 is falsy, so the request is rejected as missing input. */
  lemma ZeroIncreaseIsRejected(functionName: string, maxMemory: Option<int>, dryRun: Option<bool>)
    ensures !IsValid(RepairRequest(functionName, Some(0), maxMemory, dryRun))
  {
  }

  function MaxMemoryOf(event: RepairRequest): int {
    event.maxMemory.GetOr(DefaultMaxMemory)
  }

  function DryRunOf(event: RepairRequest): bool {
    event.dryRun.GetOr(false)
  }

  /** The result object before any update, for a function now at `originalMemory`. */
  function Planned(event: RepairRequest, originalMemory: int, timestamp: string): RepairResult
    requires event.memoryIncrease.Some?
  {
    var n := NewMemory(originalMemory, event.memoryIncrease.value, MaxMemoryOf(event));
    RepairResult(event.functionName, originalMemory, n, Some(n - originalMemory), Succeeded, None,
                 Some(DryRunOf(event)), None, None, timestamp)
  }

  /** The repair-executor lambda's handler. It never throws: every error
      becomes a failed result. `now` is the clock in milliseconds and
      `isoNow` the same instant as an ISO 8601 string. */
  method Handler(event: RepairRequest, lambda: LambdaService, audit: AuditTable, now: nat, isoNow: string)
    returns (r: RepairResult)
    modifies lambda, audit
    ensures !IsValid(event) ==>
              r == FailedResult(event.functionName, MissingInput, isoNow) && unchanged(lambda, audit)
    ensures IsValid(event) && event.functionName !in old(lambda.memorySizes) ==>
              r == FailedResult(event.functionName, ServiceError(FunctionNotFound), isoNow) && unchanged(lambda, audit)
    ensures IsValid(event) && event.functionName in old(lambda.memorySizes) ==>
              var original := old(lambda.memorySizes)[event.functionName];
              var plan := Planned(event, original, isoNow);
              if plan.newMemory == original then
                r == plan.(status := Skipped, reason := Some(SkippedReason)) && unchanged(lambda, audit)
              else if DryRunOf(event) then
                r == plan.(status := DryRun, reason := Some(DryRunReason)) && unchanged(lambda, audit)
              else
                match lambda.respond(event.functionName, plan.newMemory)
                case Failure(e) =>
                  r == FailedResult(event.functionName, ServiceError(e), isoNow)
                  && lambda.memorySizes == old(lambda.memorySizes) && unchanged(audit)
                case Success(reply) =>
                  && lambda.memorySizes == old(lambda.memorySizes)[event.functionName := reply.memorySize]
                  && if reply.memorySize != plan.newMemory then
                       r == FailedResult(event.functionName, UpdateMismatch(plan.newMemory, reply.memorySize), isoNow)
                       && unchanged(audit)
                     else
                       r == plan.(lastModified := Some(reply.lastModified))
                       && audit.attempts == old(audit.attempts) + [RecordOf(plan, now)]
                       && audit.records == old(audit.records) + (if audit.available then [RecordOf(plan, now)] else [])
  {
    if !IsValid(event) {
      return FailedResult(event.functionName, MissingInput, isoNow);
    }
    var memoryIncrease := event.memoryIncrease.value;
    var maxMemory := MaxMemoryOf(event);
    var dryRun := DryRunOf(event);

    var currentConfig := lambda.GetMemorySize(event.functionName);
    if currentConfig.Failure? {
      return FailedResult(event.functionName, ServiceError(currentConfig.error), isoNow);
    }
    var originalMemory := currentConfig.value;
    var newMemory := originalMemory + memoryIncrease;
    newMemory := MinInt(newMemory, maxMemory);
    newMemory := Diagnosis.Ceil64(newMemory);

    var repairResult := RepairResult(event.functionName, originalMemory, newMemory, Some(newMemory - originalMemory),
                                     Succeeded, None, Some(dryRun), None, None, isoNow);
    if newMemory == originalMemory {
      repairResult := repairResult.(status := Skipped, reason := Some(SkippedReason));
      return repairResult;
    }
    if dryRun {
      repairResult := repairResult.(status := DryRun, reason := Some(DryRunReason));
      return repairResult;
    }

    var updateResult := lambda.UpdateMemorySize(event.functionName, newMemory);
    if updateResult.Failure? {
      assert lambda.memorySizes == old(lambda.memorySizes);
      return FailedResult(event.functionName, ServiceError(updateResult.error), isoNow);
    }
    if updateResult.value.memorySize != newMemory {
      return FailedResult(event.functionName, UpdateMismatch(newMemory, updateResult.value.memorySize), isoNow);
    }
    RecordRepairAction(repairResult, audit, now);
    repairResult := repairResult.(lastModified := Some(updateResult.value.lastModified));
    r := repairResult;
  }

  /** Re-running the repair on an already repaired function with no further
      increase ends in the missing-input failure, not in a skipped result,
      and touches neither the service nor the table. */
  method RerunWithoutIncrease(functionName: string, maxMemory: Option<int>, dryRun: Option<bool>,
                              lambda: LambdaService, audit: AuditTable, now: nat, isoNow: string)
    returns (r: RepairResult)
    modifies lambda, audit
    ensures r == FailedResult(functionName, MissingInput, isoNow)
    ensures unchanged(lambda, audit)
  {
    ZeroIncreaseIsRejected(functionName, maxMemory, dryRun);
    r := Handler(RepairRequest(functionName, Some(0), maxMemory, dryRun), lambda, audit, now, isoNow);
  }
}
