/**
 What each call makes of an Operation, field by field, and what a repeated create answers over whole runs.
 */
module OperationEffects {
  import opened Basics
  import opened Operations
  import opened OperationFacts

  /* One call, field by field. */

  // Where a transition may lead, as the frozen state machine lists it.
  function Successors(from: Status): set<Status> {
    if from == Received then {Resolving, ApprovalWait, Queued}
    else if from == Resolving then {ApprovalWait, Queued, Failed}
    else if from == ApprovalWait then {Queued, Denied, Expired}
    else if from == Queued then {Starting}
    else if from == Starting then {Running, OutcomeUnknown}
    else if from == Running then {Succeeded, Failed, Cancelling, OutcomeUnknown}
    else if from == Cancelling then {Cancelled, Succeeded, Failed, OutcomeUnknown}
    else {}
  }

  const CLOSING: set<Status> := {Succeeded, Failed, Cancelled, Denied, Expired, OutcomeUnknown}

  // The fields every call leaves alone, and the one event it appends.
  ghost predicate OneEvent(a: Operation, b: Operation, phase: Phase, detail: Detail, now: int) {
    && b.id == a.id && b.invocation == a.invocation && b.acceptedAt == a.acceptedAt
    && b.updatedAt == now && b.latestSequence == a.latestSequence + 1
    && b.events == a.events + [Event(a.latestSequence + 1, now, phase, detail)]
  }

  ghost predicate SameProcess(a: Operation, b: Operation) {
    b.startedAt == a.startedAt && b.process == a.process && b.exit == a.exit
  }

  ghost predicate SameOutcome(a: Operation, b: Operation) {
    b.result == a.result && b.error == a.error && b.finishedAt == a.finishedAt && b.expiresAt == a.expiresAt
  }

  ghost predicate SameCancellation(a: Operation, b: Operation) {
    b.cancelRequested == a.cancelRequested && b.cancelEffective == a.cancelEffective
  }

  // Finished now, kept for a day.
  ghost predicate EndsNow(b: Operation, now: int) {
    b.finishedAt == Some(now) && b.expiresAt == Some(now + 86_400_000)
  }

  lemma TransitionsAreTheListedOnes(from: Status, to: Status)
    ensures !Terminal(from) && ValidTransition(from, to) <==> to in Successors(from)
    ensures Terminal(from) <==> from in CLOSING
  {}

  lemma TransitionEffect(op: Operation, next: Status, detail: string, now: int)
    ensures var change := TransitionOp(op, next, detail, now);
      && (change.Updated? <==> next in Successors(op.status))
      && (!change.Updated? ==> change == Refused(TransitionRefused))
      && (change.Updated? ==>
            var b := change.op;
            && OneEvent(op, b, Lifecycle(next), Text(detail), now) && b.status == next
            && b.result == op.result && b.error == op.error && SameCancellation(op, b)
            && b.process == op.process && b.exit == op.exit
            && b.startedAt == (if next == Running && op.startedAt == None then Some(now) else op.startedAt)
            && (if next in CLOSING then EndsNow(b, now)
              else b.finishedAt == op.finishedAt && b.expiresAt == op.expiresAt))
  {
    TransitionsAreTheListedOnes(op.status, next);
    TransitionsAreTheListedOnes(next, op.status);
    hide ValidTransition, Terminal, Successors;
  }

  // A live Operation is closed by the outcome: a value succeeds ...
  lemma CompleteSuccessEffect(op: Operation, value: string, now: int)
    requires op.status !in CLOSING
    ensures var change := CompleteOp(op, Success(value), now);
      && change.Updated?
      && var b := change.op;
         && OneEvent(op, b, Lifecycle(Succeeded), Text("backend_finished"), now)
         && EndsNow(b, now) && SameProcess(op, b) && b.cancelRequested == op.cancelRequested
         && b.status == Succeeded && b.result == Some(value) && b.error == op.error && !b.cancelEffective
  {}

  // ... the error TOOL_CANCELLED cancels, and any other error fails; ...
  lemma CompleteFailureEffect(op: Operation, e: BackendError, now: int)
    requires op.status !in CLOSING
    ensures var change := CompleteOp(op, Failure(e), now);
      && change.Updated?
      && var b := change.op;
         var cancelled := e.code == Some("TOOL_CANCELLED");
         && OneEvent(op, b, Lifecycle(b.status), Text("backend_finished"), now)
         && EndsNow(b, now) && SameProcess(op, b) && b.cancelRequested == op.cancelRequested
         && b.status == (if cancelled then Cancelled else Failed) && b.cancelEffective == cancelled
         && b.result == op.result && b.error == Some(NormalizedError(e))
  {
    hide NormalizedError;
  }

  // ... what the backend left out of its error is filled in.
  lemma NormalizedErrorEffect(e: BackendError)
    ensures var n := NormalizedError(e);
      && (e.code.Some? ==> n.code == e.code.value)
      && (e.code.None? ==> n.code == "INTERNAL_INVARIANT_BROKEN")
      && (e.message.Some? ==> n.message == e.message.value)
      && (e.message.None? ==> n.message == "The Operation failed without a safe normalized message.")
      && (n.retryable <==> e.retryable == Some(true))
  {}

  // On a closed Operation the outcome is filed as late evidence, once for success and once for failure.
  lemma LateCompleteEffect(op: Operation, outcome: Outcome, now: int)
    requires op.status in CLOSING
    ensures var late := if outcome.Success? then LateSuccess else LateFailure;
      var change := CompleteOp(op, outcome, now);
      && (change.Unchanged? <==> FiledAs(op.events, late))
      && (change.Unchanged? ==> change.kept == op)
      && (!change.Unchanged? ==>
            && change.Updated? && OneEvent(op, change.op, LateEvidence, late, now)
            && change.op.status == op.status && SameProcess(op, change.op) && SameOutcome(op, change.op)
            && SameCancellation(op, change.op))
  {
    var late := if outcome.Success? then LateSuccess else LateFailure;
    assert late == LateDetail(outcome);
    FiledExactly(op.events, late);
    hide HasLate, FiledAs;
  }

  ghost predicate FiledAs(events: seq<Event>, late: Detail) {
    exists i :: 0 <= i < |events| && events[i].phase == LateEvidence && events[i].detail == late
  }

  lemma FiledExactly(events: seq<Event>, late: Detail)
    ensures HasLate(events, late) <==> FiledAs(events, late)
  {}

  lemma RequestCancelEffect(op: Operation, reason: string, now: int)
    ensures var change := RequestCancelOp(op, reason, now);
      && (change.Unchanged? <==> op.status in CLOSING || op.cancelRequested)
      && (change.Unchanged? ==> change.kept == op)
      && (!change.Unchanged? ==>
            && change.Updated?
            && var b := change.op;
               && OneEvent(op, b, CancelAsked, Text(reason), now) && SameProcess(op, b) && b.result == op.result
               && b.cancelRequested
               && (!op.invocation.cancellable ==>
                     b.status == op.status && SameOutcome(op, b) && b.cancelEffective == op.cancelEffective)
               && (op.invocation.cancellable && op.status in {Received, Resolving, ApprovalWait, Queued} ==>
                     && b.status == Cancelled && b.cancelEffective && EndsNow(b, now)
                     && b.error == Some(OpError("TOOL_CANCELLED",
                       "The Operation was cancelled before process start.", false)))
               && (op.invocation.cancellable && op.status !in {Received, Resolving, ApprovalWait, Queued} ==>
                     b.status == Cancelling && SameOutcome(op, b) && b.cancelEffective == op.cancelEffective))
  {}

  lemma ForcedShutdownEffect(op: Operation, now: int)
    ensures var change := ForcedShutdownOp(op, now);
      && (change.Unchanged? <==> op.status in CLOSING)
      && (change.Unchanged? ==> change.kept == op)
      && (!change.Unchanged? ==>
            && change.Updated?
            && var b := change.op;
               && b.cancelRequested && EndsNow(b, now) && SameProcess(op, b) && b.result == op.result
               && (op.process.Some? ==>
                     && b.status == OutcomeUnknown && b.cancelEffective == op.cancelEffective
                     && b.error.Some? && b.error.value.code == "TOOL_OUTCOME_UNKNOWN" && !b.error.value.retryable
                     && OneEvent(op, b, Lifecycle(OutcomeUnknown), Text("controller_shutdown_forced_after_drain"), now))
               && (op.process.None? ==>
                     && b.status == Cancelled && b.cancelEffective
                     && b.error.Some? && b.error.value.code == "TOOL_CANCELLED" && !b.error.value.retryable
                     && OneEvent(op, b, Lifecycle(Cancelled), Text("controller_shutdown_before_process_start"), now)))
  {}

  lemma ProgressEffect(op: Operation, detail: string, now: int)
    ensures var change := ProgressOp(op, detail, now);
      && (change == Refused(TransitionRefused) <==> op.status in CLOSING)
      && (op.status !in CLOSING ==>
            && change.Updated? && OneEvent(op, change.op, Progress, Text(detail), now)
            && change.op.status == op.status && SameProcess(op, change.op) && SameOutcome(op, change.op)
            && SameCancellation(op, change.op))
  {}

  lemma ProcessStartedEffect(op: Operation, evidence: ProcessStart, now: int)
    ensures var change := ProcessStartedOp(op, evidence, now);
      && (change.Updated? <==> op.status in {Starting, Cancelling})
      && (!change.Updated? ==> change == Refused(TransitionRefused))
      && (change.Updated? ==>
            var b := change.op;
            && OneEvent(op, b, Lifecycle(Running), Text("process_created:suspended_job_assigned"), now)
            && b.status == (if op.cancelRequested then Cancelling else Running)
            && b.startedAt == Some(now) && b.process == Some(evidence) && b.exit == op.exit
            && SameOutcome(op, b) && SameCancellation(op, b))
  {}

  lemma ProcessFinishedEffect(op: Operation, evidence: ProcessEnd, now: int)
    ensures var change := ProcessFinishedOp(op, evidence, now);
      && (change.Unchanged? <==> op.exit.Some?)
      && (change.Unchanged? ==> change.kept == op)
      && (!change.Unchanged? ==>
            && change.Updated? && OneEvent(op, change.op, ProcessExit, Text(evidence.termination), now)
            && change.op.exit == Some(evidence)
            && change.op.status == op.status && change.op.startedAt == op.startedAt && change.op.process == op.process
            && SameOutcome(op, change.op) && SameCancellation(op, change.op))
  {}

  lemma RecoveryEffect(op: Operation, now: int)
    ensures var b := RecoverOp(op, now);
      && (op.status in CLOSING ==> b == op)
      && (op.status !in CLOSING ==>
            && EndsNow(b, now) && SameProcess(op, b) && b.result == op.result && SameCancellation(op, b)
            && (op.status in {Received, Resolving, ApprovalWait, Queued, Starting} ==>
                  && b.status == Failed && b.error.Some? && !b.error.value.retryable
                  && b.error.value.code == "STATE_CONTROLLER_RECOVERED_BEFORE_PROCESS_START"
                  && OneEvent(op, b, Lifecycle(Failed), Text("controller_recovered_before_process_start"), now))
            && (op.status !in {Received, Resolving, ApprovalWait, Queued, Starting} ==>
                  && b.status == OutcomeUnknown && b.error.Some? && !b.error.value.retryable
                  && b.error.value.code == "TOOL_OUTCOME_UNKNOWN"
                  && OneEvent(op, b, Lifecycle(OutcomeUnknown), Text("controller_recovered_after_process_start"), now)))
  {}

  // A call on an unknown id changes nothing; a call on a known one changes that entry only.
  lemma MutateTouchesOneEntry(f: OperationFile, id: string, m: Mutation, now: int)
    ensures var reply := Mutate(f, id, m, now);
      && (id !in f.operations ==> reply == Reply(f, Refused(if m.RecordProgress? then TransitionRefused else Corrupt)))
      && reply.file.idempotency == f.idempotency && reply.file.operations.Keys == f.operations.Keys
      && (forall other :: other in f.operations && other != id ==> reply.file.operations[other] == f.operations[other])
      && (id in f.operations ==>
            && reply.change == MutateOp(f.operations[id], m, now)
            && reply.file.operations[id] == (if reply.change.Updated? then reply.change.op else f.operations[id]))
  {}

  // After a restart that comes up nothing is live, in memory or on disk: what was closed is as it was, and what
  // was live is closed now. It fails to come up exactly where something was live and could not be written.
  lemma RestartLeavesNothingLive(s: System, at: int, writeOk: bool)
    ensures var next := Advance(s, Restart(at, writeOk));
      && (next.memory.None? <==>
        !writeOk && exists id :: id in s.disk.operations && s.disk.operations[id].status !in CLOSING)
      && (next.memory.None? ==> next.disk == s.disk)
      && (next.memory.Some? ==>
            && next.memory == Some(next.disk) && next.disk.idempotency == s.disk.idempotency
            && next.disk.operations.Keys == s.disk.operations.Keys
            && forall id :: id in s.disk.operations ==>
              && next.disk.operations[id].status in CLOSING
              && (s.disk.operations[id].status in CLOSING ==> next.disk.operations[id] == s.disk.operations[id])
              && (s.disk.operations[id].status !in CLOSING ==> EndsNow(next.disk.operations[id], at)))
  {
    var recovered := Recover(s.disk, at);
    forall id | id in s.disk.operations
      ensures recovered.operations[id] == RecoverOp(s.disk.operations[id], at)
      ensures s.disk.operations[id].status in CLOSING ==> recovered.operations[id] == s.disk.operations[id]
      ensures s.disk.operations[id].status !in CLOSING ==>
        EndsNow(recovered.operations[id], at) && recovered.operations[id].status in CLOSING
        && recovered.operations[id].status != s.disk.operations[id].status
    {
      RecoveryEffect(s.disk.operations[id], at);
    }
    hide RecoverOp, EndsNow;
    if forall id :: id in s.disk.operations ==> s.disk.operations[id].status in CLOSING {
      assert recovered.operations == s.disk.operations;
    }
  }

  /* Creating, and creating again. */

  ghost predicate IsNew(b: Operation, id: string, invocation: Invocation, now: int) {
    && b.id == id && b.invocation == invocation && b.status == Received
    && b.acceptedAt == now && b.updatedAt == now && b.latestSequence == 1
    && b.events == [Event(1, now, Lifecycle(Received), Text("invocation_accepted"))]
    && b.startedAt.None? && b.finishedAt.None? && b.expiresAt.None? && b.result.None? && b.error.None?
    && b.process.None? && b.exit.None? && !b.cancelRequested && !b.cancelEffective
  }

  // A new key, or none: one Operation is added, received and logged, and the key names it.
  lemma CreateEffect(f: OperationFile, request: CreateRequest, freshId: string, now: int)
    requires FileInv(f) && freshId !in f.operations
    requires request.idempotencyKey.Some? ==> request.idempotencyKey.value !in Prune(f, now).idempotency
    ensures var reply := Create(f, request, freshId, now);
      && reply.change.Updated?
      && reply.file.operations == Prune(f, now).operations[freshId := reply.change.op]
      && IsNew(reply.change.op, freshId, request.invocation, now)
      && (request.idempotencyKey.None? ==> reply.file.idempotency == Prune(f, now).idempotency)
      && (request.idempotencyKey.Some? ==>
            reply.file.idempotency ==
              Prune(f, now).idempotency[request.idempotencyKey.value :=
                IdempotencyRecord(freshId, request.invocationHash)])
  {
    hide FileInv, Prune;
    assert [] + [Event(1, now, Lifecycle(Received), Text("invocation_accepted"))]
      == [Event(1, now, Lifecycle(Received), Text("invocation_accepted"))];
  }

  // Kept: not yet past the end of its retention.
  ghost predicate StillKept(f: OperationFile, id: string, now: int) {
    id in f.operations && (f.operations[id].expiresAt.Some? ==> now < f.operations[id].expiresAt.value)
  }

  lemma RepeatedKey(f: OperationFile, id: string, hash: string, again: CreateRequest, otherId: string, now: int)
    requires FileInv(f) && StillKept(f, id, now)
    requires again.idempotencyKey.Some? && again.idempotencyKey.value in f.idempotency
    requires f.idempotency[again.idempotencyKey.value] == IdempotencyRecord(id, hash)
    ensures var reply := Create(f, again, otherId, now);
      && reply.change == (if again.invocationHash == hash then Unchanged(f.operations[id])
        else Refused(IdempotencyConflict))
      && (forall other :: other in reply.file.operations ==>
            other in f.operations && reply.file.operations[other] == f.operations[other])
  {
    PruneDropsExactlyTheExpired(f, now);
    hide OpInv;
  }

  // After an accepted and written create, in any run, and as long as its Operation is kept: the same key
  // with the same invocation is answered with that Operation as it is now, the same key with another
  // invocation is refused as a conflict, and neither adds or changes an entry.
  lemma RepeatedCreateFindsItsOperation(before: seq<Step>, request: CreateRequest, freshId: string, now: int,
      after: seq<Step>, again: CreateRequest, otherId: string, later: int)
    requires request.idempotencyKey.Some? && again.idempotencyKey == request.idempotencyKey
    requires var s := Run(Blank, before);
      s.memory.Some? && freshId !in s.issued && Create(s.memory.value, request, freshId, now).change.Updated?
    requires var t := Run(Advance(Run(Blank, before), Invoke(NewOp(request, freshId), now, true)), after);
      t.memory.Some? && StillKept(t.memory.value, freshId, later)
    ensures var t := Run(Advance(Run(Blank, before), Invoke(NewOp(request, freshId), now, true)), after);
      var reply := Create(t.memory.value, again, otherId, later);
      && (again.invocationHash == request.invocationHash ==>
        reply.change == Unchanged(t.memory.value.operations[freshId]))
      && (again.invocationHash != request.invocationHash ==> reply.change == Refused(IdempotencyConflict))
      && (forall other :: other in reply.file.operations ==>
            other in t.memory.value.operations && reply.file.operations[other] == t.memory.value.operations[other])
  {
    RunKeeps(EmptyFile, Blank, before);
    var s := Run(Blank, before);
    var e := Invoke(NewOp(request, freshId), now, true);
    AdvanceKeeps(EmptyFile, s, e);
    var created := Advance(s, e);
    CreatedKey(s.memory.value, request, freshId, now);
    assert created.memory == Some(created.disk);
    hide FileInv, OpInv, Create, Evolves;
    FollowsSelf(created.disk);
    RunKeeps(created.disk, created, after);
    var t := Run(created, after);
    KeyStays(created.disk, t.memory.value, request.idempotencyKey.value);
    RepeatedKey(t.memory.value, freshId, request.invocationHash, again, otherId, later);
  }

  lemma CreatedKey(f: OperationFile, request: CreateRequest, freshId: string, now: int)
    requires FileInv(f) && request.idempotencyKey.Some? && Create(f, request, freshId, now).change.Updated?
    ensures var g := Create(f, request, freshId, now).file;
      && request.idempotencyKey.value in g.idempotency
      && g.idempotency[request.idempotencyKey.value] == IdempotencyRecord(freshId, request.invocationHash)
  {
    hide FileInv, Prune;
  }

  lemma KeyStays(base: OperationFile, f: OperationFile, key: string)
    requires Follows(base, f) && key in base.idempotency && base.idempotency[key].operationId in f.operations
    ensures key in f.idempotency && f.idempotency[key] == base.idempotency[key]
  {}
}
