/** The durable Operation store as the Controller holds it: a file in memory and its last committed copy. */
module OperationStore {
  import opened Basics
  import opened Operations

  // Restart recovery of a whole table, one entry at a time, as the loop over the entries does it.
  method RecoverAll(table: map<string, Operation>, now: int) returns (recovered: map<string, Operation>, changed: bool)
    ensures recovered == map id | id in table :: RecoverOp(table[id], now)
    ensures changed <==> exists id :: id in table && !Terminal(table[id].status)
  {
    recovered, changed := table, false;
    var pending := table.Keys;
    while pending != {}
      invariant pending <= table.Keys && recovered.Keys == table.Keys
      invariant forall id :: id in table ==>
        recovered[id] == if id in pending then table[id] else RecoverOp(table[id], now)
      invariant changed <==> exists id :: id in table && id !in pending && !Terminal(table[id].status)
      decreases |pending|
    {
      var id :| id in pending;
      if !Terminal(table[id].status) {
        recovered := recovered[id := RecoverOp(table[id], now)];
        changed := true;
      }
      pending := pending - {id};
    }
  }

  datatype Answer = Ok(op: Operation) | Err(error: StoreError)

  // What the caller hears: a change is only reported as done once it is committed.
  function Answered(change: Change, ioOk: bool): Answer {
    match change
    case Updated(op) => if ioOk then Ok(op) else Err(Io)
    case Unchanged(op) => Ok(op)
    case Refused(error) => Err(error)
  }

  function Committed(reply: Reply, disk: OperationFile, ioOk: bool): OperationFile {
    if reply.change.Updated? && ioOk then reply.file else disk
  }

  class Store {
    var file: OperationFile
    var disk: OperationFile

    constructor ()
      ensures file == disk == EmptyFile
    {
      file, disk := EmptyFile, EmptyFile;
    }

    // The whole file replaces the committed copy at once, or not at all.
    method Persist(ioOk: bool)
      modifies this`disk
      ensures disk == if ioOk then file else old(disk)
    {
      if ioOk {
        disk := file;
      }
    }

    // Start-up: read the committed file, close every live operation, write back when one was closed.
    method Load(now: int, ioOk: bool) returns (loaded: bool)
      modifies this
      ensures loaded <==> ioOk || Recover(old(disk), now) == old(disk)
      ensures loaded ==> file == disk == Recover(old(disk), now)
      ensures !loaded ==> disk == old(disk)
    {
      var table, changed := RecoverAll(disk.operations, now);
      file := disk.(operations := table);
      if changed {
        Persist(ioOk);
        loaded := ioOk;
      } else {
        loaded := true;
      }
    }

    method PruneExpired(now: int)
      modifies this`file
      ensures file == Prune(old(file), now)
    {
      var expired := set id | id in file.operations && IsExpired(file.operations[id], now);
      file := OperationFile(
        map id | id in file.operations && id !in expired :: file.operations[id],
        map key | key in file.idempotency && file.idempotency[key].operationId !in expired :: file.idempotency[key]);
    }

    // The end of every mutator: the changed snapshot goes back into the file and is committed.
    method Save(id: string, operation: Operation, ioOk: bool) returns (answer: Answer)
      modifies this
      ensures file == old(file).(operations := old(file).operations[id := operation])
      ensures disk == if ioOk then file else old(disk)
      ensures answer == if ioOk then Ok(operation) else Err(Io)
    {
      file := file.(operations := file.operations[id := operation]);
      Persist(ioOk);
      answer := if ioOk then Ok(operation) else Err(Io);
    }

    method Create(request: CreateRequest, freshId: string, now: int, ioOk: bool) returns (answer: Answer)
      modifies this
      ensures file == Operations.Create(old(file), request, freshId, now).file
      ensures disk == Committed(Operations.Create(old(file), request, freshId, now), old(disk), ioOk)
      ensures answer == Answered(Operations.Create(old(file), request, freshId, now).change, ioOk)
    {
      PruneExpired(now);
      if request.idempotencyKey.Some? && request.idempotencyKey.value in file.idempotency {
        var existing := file.idempotency[request.idempotencyKey.value];
        if existing.invocationHash != request.invocationHash {
          return Err(IdempotencyConflict);
        }
        return if existing.operationId in file.operations then Ok(file.operations[existing.operationId])
          else Err(Corrupt);
      }
      var operation := Operation(freshId, request.invocation, Received, now, now, None, None, None,
                                 false, false, None, None, None, None, 0, []);
      operation := AppendEvent(operation, Lifecycle(Received), Text("invocation_accepted"), now);
      file := file.(operations := file.operations[freshId := operation]);
      if request.idempotencyKey.Some? {
        file := file.(idempotency :=
          file.idempotency[request.idempotencyKey.value := IdempotencyRecord(freshId, request.invocationHash)]);
      }
      Persist(ioOk);
      answer := if ioOk then Ok(operation) else Err(Io);
    }

    method Transition(id: string, next: Status, detail: string, now: int, ioOk: bool) returns (answer: Answer)
      modifies this
      ensures file == Mutate(old(file), id, Operations.Transition(next, detail), now).file
      ensures disk == Committed(Mutate(old(file), id, Operations.Transition(next, detail), now), old(disk), ioOk)
      ensures answer == Answered(Mutate(old(file), id, Operations.Transition(next, detail), now).change, ioOk)
    {
      if id !in file.operations {
        return Err(Corrupt);
      }
      var operation := file.operations[id];
      if Terminal(operation.status) || !ValidTransition(operation.status, next) {
        return Err(TransitionRefused);
      }
      operation := operation.(status := next);
      if next == Running && operation.startedAt.None? {
        operation := operation.(startedAt := Some(now));
      }
      if Terminal(next) {
        operation := operation.(finishedAt := Some(now));
        operation := operation.(expiresAt := Some(now + TERMINAL_RETENTION));
      }
      operation := AppendEvent(operation, Lifecycle(next), Text(detail), now);
      answer := Save(id, operation, ioOk);
    }

    method Complete(id: string, outcome: Outcome, now: int, ioOk: bool) returns (answer: Answer)
      modifies this
      ensures file == Mutate(old(file), id, Operations.Complete(outcome), now).file
      ensures disk == Committed(Mutate(old(file), id, Operations.Complete(outcome), now), old(disk), ioOk)
      ensures answer == Answered(Mutate(old(file), id, Operations.Complete(outcome), now).change, ioOk)
    {
      if id !in file.operations {
        return Err(Corrupt);
      }
      var operation := file.operations[id];
      var cancellation := outcome.Failure? && outcome.error.code == Some("TOOL_CANCELLED");
      var terminal := if cancellation then Cancelled else if outcome.Success? then Succeeded else Failed;
      if Terminal(operation.status) {
        var detail := if outcome.Success? then LateSuccess else LateFailure;
        if HasLate(operation.events, detail) {
          return Ok(operation);
        }
        operation := AppendEvent(operation, LateEvidence, detail, now);
        answer := Save(id, operation, ioOk);
        return;
      }
      operation := operation.(status := terminal);
      operation := operation.(finishedAt := Some(now));
      operation := operation.(expiresAt := Some(now + TERMINAL_RETENTION));
      operation := operation.(cancelEffective := cancellation);
      match outcome {
        case Success(value) => operation := operation.(result := Some(value));
        case Failure(error) => operation := operation.(error := Some(NormalizedError(error)));
      }
      operation := AppendEvent(operation, Lifecycle(terminal), Text("backend_finished"), now);
      answer := Save(id, operation, ioOk);
    }

    method RequestCancel(id: string, reason: string, now: int, ioOk: bool) returns (answer: Answer)
      modifies this
      ensures file == Mutate(old(file), id, Operations.RequestCancel(reason), now).file
      ensures disk == Committed(Mutate(old(file), id, Operations.RequestCancel(reason), now), old(disk), ioOk)
      ensures answer == Answered(Mutate(old(file), id, Operations.RequestCancel(reason), now).change, ioOk)
    {
      if id !in file.operations {
        return Err(Corrupt);
      }
      var operation := file.operations[id];
      if Terminal(operation.status) || operation.cancelRequested {
        return Ok(operation);
      }
      operation := operation.(cancelRequested := true);
      if operation.invocation.cancellable {
        if CancelsBeforeStart(operation.status) {
          operation := operation.(status := Cancelled);
          operation := operation.(cancelEffective := true);
          operation := operation.(finishedAt := Some(now));
          operation := operation.(expiresAt := Some(now + TERMINAL_RETENTION));
          operation := operation.(error := Some(CANCELLED_BEFORE_START));
        } else {
          operation := operation.(status := Cancelling);
        }
      }
      operation := AppendEvent(operation, CancelAsked, Text(reason), now);
      answer := Save(id, operation, ioOk);
    }

    method RecordForcedShutdown(id: string, now: int, ioOk: bool) returns (answer: Answer)
      modifies this
      ensures file == Mutate(old(file), id, Operations.ForcedShutdown, now).file
      ensures disk == Committed(Mutate(old(file), id, Operations.ForcedShutdown, now), old(disk), ioOk)
      ensures answer == Answered(Mutate(old(file), id, Operations.ForcedShutdown, now).change, ioOk)
    {
      if id !in file.operations {
        return Err(Corrupt);
      }
      var operation := file.operations[id];
      if Terminal(operation.status) {
        return Ok(operation);
      }
      operation := operation.(cancelRequested := true);
      operation := operation.(finishedAt := Some(now));
      operation := operation.(expiresAt := Some(now + TERMINAL_RETENTION));
      if operation.process.Some? {
        operation := operation.(status := OutcomeUnknown);
        operation := operation.(error := Some(SHUTDOWN_AFTER_START));
        operation := AppendEvent(operation, Lifecycle(OutcomeUnknown),
          Text("controller_shutdown_forced_after_drain"), now);
      } else {
        operation := operation.(status := Cancelled);
        operation := operation.(cancelEffective := true);
        operation := operation.(error := Some(SHUTDOWN_BEFORE_START));
        operation := AppendEvent(operation, Lifecycle(Cancelled),
          Text("controller_shutdown_before_process_start"), now);
      }
      answer := Save(id, operation, ioOk);
    }

    method RecordProgress(id: string, detail: string, now: int, ioOk: bool) returns (answer: Answer)
      modifies this
      ensures file == Mutate(old(file), id, Operations.RecordProgress(detail), now).file
      ensures disk == Committed(Mutate(old(file), id, Operations.RecordProgress(detail), now), old(disk), ioOk)
      ensures answer == Answered(Mutate(old(file), id, Operations.RecordProgress(detail), now).change, ioOk)
    {
      if id !in file.operations {
        return Err(TransitionRefused);
      }
      var operation := file.operations[id];
      if Terminal(operation.status) {
        return Err(TransitionRefused);
      }
      operation := AppendEvent(operation, Progress, Text(detail), now);
      answer := Save(id, operation, ioOk);
    }

    method RecordProcessStarted(id: string, evidence: ProcessStart, now: int, ioOk: bool) returns (answer: Answer)
      modifies this
      ensures file == Mutate(old(file), id, Operations.ProcessStarted(evidence), now).file
      ensures disk == Committed(Mutate(old(file), id, Operations.ProcessStarted(evidence), now), old(disk), ioOk)
      ensures answer == Answered(Mutate(old(file), id, Operations.ProcessStarted(evidence), now).change, ioOk)
    {
      if id !in file.operations {
        return Err(Corrupt);
      }
      var operation := file.operations[id];
      if Terminal(operation.status) || !(operation.status == Starting || operation.status == Cancelling) {
        return Err(TransitionRefused);
      }
      operation := operation.(status := if operation.cancelRequested then Cancelling else Running);
      operation := operation.(startedAt := Some(now));
      operation := operation.(process := Some(evidence));
      operation := AppendEvent(operation, Lifecycle(Running), Text("process_created:suspended_job_assigned"), now);
      answer := Save(id, operation, ioOk);
    }

    method RecordProcessFinished(id: string, evidence: ProcessEnd, now: int, ioOk: bool) returns (answer: Answer)
      modifies this
      ensures file == Mutate(old(file), id, Operations.ProcessFinished(evidence), now).file
      ensures disk == Committed(Mutate(old(file), id, Operations.ProcessFinished(evidence), now), old(disk), ioOk)
      ensures answer == Answered(Mutate(old(file), id, Operations.ProcessFinished(evidence), now).change, ioOk)
    {
      if id !in file.operations {
        return Err(Corrupt);
      }
      var operation := file.operations[id];
      if operation.exit.Some? {
        return Ok(operation);
      }
      operation := operation.(exit := Some(evidence));
      operation := AppendEvent(operation, ProcessExit, Text(evidence.termination), now);
      answer := Save(id, operation, ioOk);
    }
  }
}
