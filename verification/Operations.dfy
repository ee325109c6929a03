/**
 The value layer of the durable Operation store: one snapshot, the nine ways its
 status can change, restart recovery, pruning, creation and event paging.
 Every function here is what the class in OperationStore.dfy is proved to do.
 */
module Operations {
  import opened Basics

  // "any other text" stands for a status the state machine does not know.
  datatype Status =
    | Received | Resolving | ApprovalWait | Queued | Starting | Running | Cancelling
    | Succeeded | Failed | Cancelled | Denied | Expired | OutcomeUnknown
    | Unrecognised(text: string)

  predicate Terminal(s: Status) {
    s.Succeeded? || s.Failed? || s.Cancelled? || s.Denied? || s.Expired? || s.OutcomeUnknown?
  }

  predicate ValidTransition(from: Status, to: Status) {
    match from
    case Received => to.Resolving? || to.ApprovalWait? || to.Queued?
    case Resolving => to.ApprovalWait? || to.Queued? || to.Failed?
    case ApprovalWait => to.Queued? || to.Denied? || to.Expired?
    case Queued => to.Starting?
    case Starting => to.Running? || to.OutcomeUnknown?
    case Running => to.Succeeded? || to.Failed? || to.Cancelling? || to.OutcomeUnknown?
    case Cancelling => to.Cancelled? || to.Succeeded? || to.Failed? || to.OutcomeUnknown?
    case _ => false
  }

  // The statuses that restart recovery reports as "failed before process start".
  predicate BeforeProcessStart(s: Status) {
    s.Received? || s.Resolving? || s.ApprovalWait? || s.Queued? || s.Starting?
  }

  // The statuses from which a cancellation is effective at once.
  predicate CancelsBeforeStart(s: Status) {
    s.Received? || s.Resolving? || s.ApprovalWait? || s.Queued?
  }

  datatype Phase =
    | Lifecycle(status: Status) | Progress | CancelAsked | LateEvidence | ProcessExit

  datatype Detail = LateSuccess | LateFailure | Text(text: string)

  datatype Event = Event(sequence: nat, timestamp: int, phase: Phase, detail: Detail)

  datatype OpError = OpError(code: string, message: string, retryable: bool)

  // The error document a backend hands over; every part may be missing.
  datatype BackendError = BackendError(code: Option<string>, message: Option<string>, retryable: Option<bool>)

  datatype Outcome = Success(value: string) | Failure(error: BackendError)

  datatype ProcessStart = ProcessStart(processId: nat, creationTime: nat, jobId: string, executable: string)

  datatype ProcessEnd = ProcessEnd(exitCode: Option<nat>, termination: string, stdoutBytes: nat, stderrBytes: nat,
      limitExceeded: bool)

  // What never changes after creation.
  datatype Invocation = Invocation(
    command: string, correlationId: string, toolId: string, descriptorHash: string, argumentsHash: string,
    permissionActions: set<string>, goalId: Option<string>, runId: Option<string>, stageId: Option<string>,
    provenance: Option<string>, cancellable: bool)

  datatype Operation = Operation(
    id: string, invocation: Invocation, status: Status, acceptedAt: int, updatedAt: int,
    startedAt: Option<int>, finishedAt: Option<int>, expiresAt: Option<int>,
    cancelRequested: bool, cancelEffective: bool, result: Option<string>, error: Option<OpError>,
    process: Option<ProcessStart>, exit: Option<ProcessEnd>, latestSequence: nat, events: seq<Event>)

  datatype StoreError = Corrupt | TransitionRefused | IdempotencyConflict | Io

  // `Updated` is written to disk, `Unchanged` is only returned, `Refused` is an error.
  datatype Change = Updated(op: Operation) | Unchanged(kept: Operation) | Refused(error: StoreError)

  const TERMINAL_RETENTION: int := 24 * 60 * 60 * 1000

  function AppendEvent(op: Operation, phase: Phase, detail: Detail, now: int): Operation {
    op.(latestSequence := op.latestSequence + 1, updatedAt := now,
        events := op.events + [Event(op.latestSequence + 1, now, phase, detail)])
  }

  // The closing write: final status, finish time and the start of the retention period.
  function Closed(op: Operation, status: Status, result: Option<string>, error: Option<OpError>, now: int): Operation {
    op.(status := status, finishedAt := Some(now), expiresAt := Some(now + TERMINAL_RETENTION),
        result := result, error := error)
  }

  function Cancellation(op: Operation, effective: bool): Operation {
    op.(cancelEffective := effective)
  }

  function CancelNoted(op: Operation): Operation {
    op.(cancelRequested := true)
  }

  function RecoverOp(op: Operation, now: int): Operation {
    if Terminal(op.status) then op
    else if BeforeProcessStart(op.status) then
      AppendEvent(Closed(op, Failed, op.result, Some(RECOVERED_BEFORE_START), now),
        Lifecycle(Failed), Text("controller_recovered_before_process_start"), now)
    else
      AppendEvent(Closed(op, OutcomeUnknown, op.result, Some(RECOVERED_AFTER_START), now),
        Lifecycle(OutcomeUnknown), Text("controller_recovered_after_process_start"), now)
  }

  const RECOVERED_BEFORE_START := OpError("STATE_CONTROLLER_RECOVERED_BEFORE_PROCESS_START",
    "Controller recovered an Operation before external process creation.", false)
  const RECOVERED_AFTER_START := OpError("TOOL_OUTCOME_UNKNOWN",
    "Controller restarted after process creation and cannot prove the external outcome.", false)
  const CANCELLED_BEFORE_START := OpError("TOOL_CANCELLED",
    "The Operation was cancelled before process start.", false)
  const SHUTDOWN_AFTER_START := OpError("TOOL_OUTCOME_UNKNOWN",
    "Controller shutdown terminated the process before a final outcome was durable.", false)
  const SHUTDOWN_BEFORE_START := OpError("TOOL_CANCELLED",
    "Controller shutdown cancelled the Operation before process start.", false)

  function Moved(op: Operation, next: Status, now: int): Operation {
    op.(status := next, startedAt := if next.Running? && op.startedAt.None? then Some(now) else op.startedAt)
  }

  function TransitionOp(op: Operation, next: Status, detail: string, now: int): Change {
    if Terminal(op.status) || !ValidTransition(op.status, next) then Refused(TransitionRefused)
    else
      var moved := if Terminal(next) then Closed(op, next, op.result, op.error, now) else Moved(op, next, now);
      Updated(AppendEvent(moved, Lifecycle(next), Text(detail), now))
  }

  predicate IsCancellation(outcome: Outcome) {
    outcome.Failure? && outcome.error.code == Some("TOOL_CANCELLED")
  }

  function CompletionStatus(outcome: Outcome): Status {
    if IsCancellation(outcome) then Cancelled else if outcome.Success? then Succeeded else Failed
  }

  function NormalizedError(error: BackendError): OpError {
    OpError(
      if error.code.Some? then error.code.value else "INTERNAL_INVARIANT_BROKEN",
      if error.message.Some? then error.message.value
        else "The Operation failed without a safe normalized message.",
      error.retryable.Some? && error.retryable.value)
  }

  function LateDetail(outcome: Outcome): Detail {
    if outcome.Success? then LateSuccess else LateFailure
  }

  predicate HasLate(events: seq<Event>, detail: Detail) {
    exists i :: 0 <= i < |events| && events[i].phase == LateEvidence && events[i].detail == detail
  }

  function CompleteOp(op: Operation, outcome: Outcome, now: int): Change {
    if Terminal(op.status) then
      if HasLate(op.events, LateDetail(outcome)) then Unchanged(op)
      else Updated(AppendEvent(op, LateEvidence, LateDetail(outcome), now))
    else
      var closed := match outcome
        case Success(value) => Closed(op, CompletionStatus(outcome), Some(value), op.error, now)
        case Failure(error) => Closed(op, CompletionStatus(outcome), op.result, Some(NormalizedError(error)), now);
      Updated(AppendEvent(Cancellation(closed, IsCancellation(outcome)),
        Lifecycle(CompletionStatus(outcome)), Text("backend_finished"), now))
  }

  function RequestCancelOp(op: Operation, reason: string, now: int): Change {
    if Terminal(op.status) || op.cancelRequested then Unchanged(op)
    else
      var asked := CancelNoted(op);
      var next :=
        if !op.invocation.cancellable then asked
        else if CancelsBeforeStart(op.status) then
          Cancellation(Closed(asked, Cancelled, op.result, Some(CANCELLED_BEFORE_START), now), true)
        else Moved(asked, Cancelling, now);
      Updated(AppendEvent(next, CancelAsked, Text(reason), now))
  }

  function ForcedShutdownOp(op: Operation, now: int): Change {
    if Terminal(op.status) then Unchanged(op)
    else if op.process.Some? then
      Updated(AppendEvent(
        Closed(CancelNoted(op), OutcomeUnknown, op.result, Some(SHUTDOWN_AFTER_START), now),
        Lifecycle(OutcomeUnknown), Text("controller_shutdown_forced_after_drain"), now))
    else
      Updated(AppendEvent(
        Cancellation(Closed(CancelNoted(op), Cancelled, op.result, Some(SHUTDOWN_BEFORE_START), now), true),
        Lifecycle(Cancelled), Text("controller_shutdown_before_process_start"), now))
  }

  function ProgressOp(op: Operation, detail: string, now: int): Change {
    if Terminal(op.status) then Refused(TransitionRefused)
    else Updated(AppendEvent(op, Progress, Text(detail), now))
  }

  function WithProcess(op: Operation, evidence: ProcessStart, now: int): Operation {
    op.(status := if op.cancelRequested then Cancelling else Running, startedAt := Some(now), process := Some(evidence))
  }

  function ProcessStartedOp(op: Operation, evidence: ProcessStart, now: int): Change {
    if !(op.status.Starting? || op.status.Cancelling?) then Refused(TransitionRefused)
    else
      Updated(AppendEvent(WithProcess(op, evidence, now),
        Lifecycle(Running), Text("process_created:suspended_job_assigned"), now))
  }

  function WithExit(op: Operation, evidence: ProcessEnd): Operation {
    op.(exit := Some(evidence))
  }

  function ProcessFinishedOp(op: Operation, evidence: ProcessEnd, now: int): Change {
    if op.exit.Some? then Unchanged(op)
    else Updated(AppendEvent(WithExit(op, evidence), ProcessExit, Text(evidence.termination), now))
  }

  // One call on an existing operation.
  datatype Mutation =
    | Transition(next: Status, detail: string)
    | Complete(outcome: Outcome)
    | RequestCancel(reason: string)
    | ForcedShutdown
    | RecordProgress(progress: string)
    | ProcessStarted(start: ProcessStart)
    | ProcessFinished(end: ProcessEnd)

  function MutateOp(op: Operation, m: Mutation, now: int): Change {
    match m
    case Transition(next, detail) => TransitionOp(op, next, detail, now)
    case Complete(outcome) => CompleteOp(op, outcome, now)
    case RequestCancel(reason) => RequestCancelOp(op, reason, now)
    case ForcedShutdown => ForcedShutdownOp(op, now)
    case RecordProgress(detail) => ProgressOp(op, detail, now)
    case ProcessStarted(start) => ProcessStartedOp(op, start, now)
    case ProcessFinished(end) => ProcessFinishedOp(op, end, now)
  }

  /* The file. */

  datatype IdempotencyRecord = IdempotencyRecord(operationId: string, invocationHash: string)

  datatype OperationFile = OperationFile(operations: map<string, Operation>, idempotency: map<string,
      IdempotencyRecord>)

  const EmptyFile := OperationFile(map[], map[])

  function Recover(file: OperationFile, now: int): OperationFile {
    file.(operations := map id | id in file.operations :: RecoverOp(file.operations[id], now))
  }

  predicate IsExpired(op: Operation, now: int) {
    op.expiresAt.Some? && op.expiresAt.value <= now
  }

  function Prune(file: OperationFile, now: int): OperationFile {
    var expired := set id | id in file.operations && IsExpired(file.operations[id], now);
    OperationFile(
      map id | id in file.operations && id !in expired :: file.operations[id],
      map key | key in file.idempotency && file.idempotency[key].operationId !in expired :: file.idempotency[key])
  }

  datatype CreateRequest = CreateRequest(invocation: Invocation, idempotencyKey: Option<string>, invocationHash: string)

  function NewOperation(id: string, invocation: Invocation, now: int): Operation {
    AppendEvent(
      Operation(id, invocation, Received, now, now, None, None, None, false, false, None, None, None, None, 0, []),
      Lifecycle(Received), Text("invocation_accepted"), now)
  }

  datatype Reply = Reply(file: OperationFile, change: Change)

  function Create(file: OperationFile, request: CreateRequest, freshId: string, now: int): Reply {
    var kept := Prune(file, now);
    if request.idempotencyKey.Some? && request.idempotencyKey.value in kept.idempotency then
      var existing := kept.idempotency[request.idempotencyKey.value];
      if existing.invocationHash != request.invocationHash then Reply(kept, Refused(IdempotencyConflict))
      else if existing.operationId in kept.operations then Reply(kept, Unchanged(kept.operations[existing.operationId]))
      else Reply(kept, Refused(Corrupt))
    else
      var op := NewOperation(freshId, request.invocation, now);
      var idempotency :=
        if request.idempotencyKey.Some? then
          kept.idempotency[request.idempotencyKey.value := IdempotencyRecord(freshId, request.invocationHash)]
        else kept.idempotency;
      Reply(OperationFile(kept.operations[freshId := op], idempotency), Updated(op))
  }

  function Mutate(file: OperationFile, id: string, m: Mutation, now: int): Reply {
    if id !in file.operations then Reply(file, Refused(if m.RecordProgress? then TransitionRefused else Corrupt))
    else
      var change := MutateOp(file.operations[id], m, now);
      match change
      case Updated(op) => Reply(file.(operations := file.operations[id := op]), change)
      case _ => Reply(file, change)
  }

  /* Event paging. */

  const PAGE: nat := 256

  function Later(events: seq<Event>, after: nat): seq<Event> {
    if events == [] then []
    else if events[0].sequence > after then [events[0]] + Later(events[1..], after)
    else Later(events[1..], after)
  }

  function Page(events: seq<Event>, after: nat): seq<Event> {
    var later := Later(events, after);
    if |later| <= PAGE then later else later[..PAGE]
  }

  function EventsAfter(op: Operation, after: nat): seq<Event> {
    Page(op.events, after)
  }
}
