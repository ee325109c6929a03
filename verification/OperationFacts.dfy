/** What every call, crash and restart keeps of the durable Operations. */
module OperationFacts {
  import opened Basics
  import opened Operations

  /* One snapshot. */

  ghost predicate Sequenced(events: seq<Event>) {
    forall i :: 0 <= i < |events| ==> events[i].sequence == i + 1
  }

  ghost predicate SeenRunning(events: seq<Event>) {
    exists i :: 0 <= i < |events| && events[i].phase == Lifecycle(Running)
  }

  ghost predicate Started(op: Operation) {
    op.process.Some? || SeenRunning(op.events)
  }

  ghost predicate OpInv(op: Operation) {
    && op.latestSequence == |op.events| > 0
    && Sequenced(op.events)
    && (Terminal(op.status) <==> op.expiresAt.Some?)
    && (Terminal(op.status) <==> op.finishedAt.Some?)
    && (op.result.Some? ==> op.status.Succeeded?)
    && (op.error.Some? ==> op.status.Failed? || op.status.Cancelled? || op.status.OutcomeUnknown?)
    && (Started(op) ==> !BeforeProcessStart(op.status))
    && DayOfRetention(op) && CancellationUnderWay(op)
  }

  // A closed Operation is kept for twenty-four hours after it finished.
  ghost predicate DayOfRetention(op: Operation) {
    Terminal(op.status) && op.finishedAt.Some? ==> op.expiresAt == Some(op.finishedAt.value + 86_400_000)
  }

  // A live Operation that can be cancelled and was asked to be is on its way to it.
  ghost predicate CancellationUnderWay(op: Operation) {
    op.cancelRequested && op.invocation.cancellable && !Terminal(op.status) ==> op.status == Cancelling
  }

  // How many different pieces of evidence can still be filed after the end.
  ghost function EvidenceLeft(op: Operation): nat {
    (if HasLate(op.events, LateSuccess) then 0 else 1)
    + (if HasLate(op.events, LateFailure) then 0 else 1)
    + (if op.exit.Some? then 0 else 1)
  }

  // `b` is a later version of `a`.
  ghost predicate Evolves(a: Operation, b: Operation) {
    && b.id == a.id && b.invocation == a.invocation && b.acceptedAt == a.acceptedAt
    && a.events <= b.events
    && (a.process.Some? ==> b.process.Some?)
    && (a.cancelRequested ==> b.cancelRequested)
    && (a.exit.Some? ==> b.exit == a.exit)
    && (!BeforeProcessStart(a.status) ==> !BeforeProcessStart(b.status))
    && (Terminal(a.status) ==>
          && b.status == a.status && b.result == a.result && b.error == a.error
          && b.finishedAt == a.finishedAt && b.expiresAt == a.expiresAt
          && b.cancelEffective == a.cancelEffective && b.process == a.process
          && |b.events| + EvidenceLeft(b) == |a.events| + EvidenceLeft(a))
  }

  lemma AppendFacts(op: Operation, phase: Phase, detail: Detail, now: int)
    requires op.latestSequence == |op.events| && Sequenced(op.events)
    ensures var next := AppendEvent(op, phase, detail, now);
      && next.latestSequence == |next.events| == |op.events| + 1 && Sequenced(next.events)
      && op.events <= next.events
      && (SeenRunning(next.events) <==> SeenRunning(op.events) || phase == Lifecycle(Running))
      && (forall d :: HasLate(next.events, d) <==> HasLate(op.events, d) || (phase == LateEvidence && detail == d))
  {
    var next := AppendEvent(op, phase, detail, now);
    var last := |op.events|;
    assert next.events[last].phase == phase && next.events[last].detail == detail;
    if SeenRunning(op.events) {
      var i :| 0 <= i < |op.events| && op.events[i].phase == Lifecycle(Running);
      assert next.events[i].phase == Lifecycle(Running);
    }
    forall d | HasLate(op.events, d)
      ensures HasLate(next.events, d)
    {
      var i :| 0 <= i < |op.events| && op.events[i].phase == LateEvidence && op.events[i].detail == d;
      assert next.events[i].phase == LateEvidence && next.events[i].detail == d;
    }
  }

  // What the fields of a live snapshot may become in one call, before the event is appended.
  ghost predicate LiveStep(op: Operation, mid: Operation) {
    && mid.id == op.id && mid.invocation == op.invocation && mid.acceptedAt == op.acceptedAt
    && mid.events == op.events && mid.latestSequence == op.latestSequence && mid.exit == op.exit
    && (op.process.Some? ==> mid.process.Some?)
    && (op.cancelRequested ==> mid.cancelRequested)
    && (Terminal(mid.status) <==> mid.expiresAt.Some?)
    && (Terminal(mid.status) <==> mid.finishedAt.Some?)
    && (mid.result.Some? ==> mid.status.Succeeded?)
    && (mid.error.Some? ==> mid.status.Failed? || mid.status.Cancelled? || mid.status.OutcomeUnknown?)
    && (!BeforeProcessStart(op.status) ==> !BeforeProcessStart(mid.status))
    && DayOfRetention(mid) && CancellationUnderWay(mid)
  }

  lemma LiveChange(op: Operation, mid: Operation, phase: Phase, detail: Detail, now: int)
    requires OpInv(op) && !Terminal(op.status) && LiveStep(op, mid)
    requires phase == Lifecycle(Running) || mid.process != op.process ==> !BeforeProcessStart(mid.status)
    ensures OpInv(AppendEvent(mid, phase, detail, now)) && Evolves(op, AppendEvent(mid, phase, detail, now))
  {
    AppendFacts(mid, phase, detail, now);
  }

  lemma RecoverKeeps(op: Operation, now: int)
    requires OpInv(op)
    ensures OpInv(RecoverOp(op, now)) && Evolves(op, RecoverOp(op, now))
    ensures Terminal(RecoverOp(op, now).status)
    ensures Started(op) && !Terminal(op.status) ==> RecoverOp(op, now).status == OutcomeUnknown
  {
    if !Terminal(op.status) {
      var early := BeforeProcessStart(op.status);
      var status := if early then Failed else OutcomeUnknown;
      LiveChange(op, Closed(op, status, op.result,
        Some(if early then RECOVERED_BEFORE_START else RECOVERED_AFTER_START), now),
        Lifecycle(status),
        Text(if early then "controller_recovered_before_process_start"
          else "controller_recovered_after_process_start"), now);
    }
  }

  ghost predicate Kept(op: Operation, change: Change) {
    && (change.Updated? ==> OpInv(change.op) && Evolves(op, change.op))
    && (change.Unchanged? ==> change.kept == op)
  }

  // Every call keeps the snapshot invariant and only moves the snapshot forward.
  lemma MutationKeeps(op: Operation, m: Mutation, now: int)
    requires OpInv(op)
    ensures Kept(op, MutateOp(op, m, now))
  {
    match m
    case Transition(next, detail) => TransitionKeeps(op, next, detail, now);
    case Complete(outcome) => CompleteKeeps(op, outcome, now);
    case RequestCancel(reason) => CancelKeeps(op, reason, now);
    case ForcedShutdown => ShutdownKeeps(op, now);
    case RecordProgress(detail) =>
      if !Terminal(op.status) { LiveChange(op, op, Progress, Text(detail), now); }
    case ProcessStarted(start) => ProcessStartKeeps(op, start, now);
    case ProcessFinished(end) => ProcessExitKeeps(op, end, now);
  }

  lemma TransitionIsLive(op: Operation, next: Status, now: int)
    requires OpInv(op) && !Terminal(op.status) && ValidTransition(op.status, next)
    ensures LiveStep(op, if Terminal(next) then Closed(op, next, op.result, op.error, now) else Moved(op, next, now))
    ensures next == Running ==> !BeforeProcessStart(next)
  {
    hide Sequenced, SeenRunning;
  }

  lemma TransitionKeeps(op: Operation, next: Status, detail: string, now: int)
    requires OpInv(op)
    ensures Kept(op, TransitionOp(op, next, detail, now))
  {
    hide OpInv, Evolves, AppendEvent, LiveStep;
    if !Terminal(op.status) && ValidTransition(op.status, next) {
      var moved := if Terminal(next) then Closed(op, next, op.result, op.error, now) else Moved(op, next, now);
      TransitionIsLive(op, next, now);
      LiveChange(op, moved, Lifecycle(next), Text(detail), now);
    }
  }

  lemma LateEvidenceKeeps(op: Operation, detail: Detail, now: int)
    requires OpInv(op) && Terminal(op.status) && (detail.LateSuccess? || detail.LateFailure?)
      && !HasLate(op.events, detail)
    ensures Kept(op, Updated(AppendEvent(op, LateEvidence, detail, now)))
  {
    AppendFacts(op, LateEvidence, detail, now);
    hide HasLate, SeenRunning, Sequenced;
  }

  function CompletedFields(op: Operation, outcome: Outcome, now: int): Operation {
    var closed := match outcome
      case Success(value) => Closed(op, CompletionStatus(outcome), Some(value), op.error, now)
      case Failure(error) => Closed(op, CompletionStatus(outcome), op.result, Some(NormalizedError(error)), now);
    Cancellation(closed, IsCancellation(outcome))
  }

  lemma CompletedFieldsStep(op: Operation, outcome: Outcome, now: int)
    requires OpInv(op) && !Terminal(op.status)
    ensures LiveStep(op, CompletedFields(op, outcome, now)) && CompletedFields(op, outcome, now).process == op.process
  {
    hide NormalizedError, SeenRunning, Sequenced, HasLate;
  }

  lemma CompleteKeeps(op: Operation, outcome: Outcome, now: int)
    requires OpInv(op)
    ensures Kept(op, CompleteOp(op, outcome, now))
  {
    hide OpInv, Evolves, LiveStep, HasLate, AppendEvent;
    if Terminal(op.status) {
      if !HasLate(op.events, LateDetail(outcome)) { LateEvidenceKeeps(op, LateDetail(outcome), now); }
    } else {
      CompletedFieldsStep(op, outcome, now);
      LiveChange(op, CompletedFields(op, outcome, now), Lifecycle(CompletionStatus(outcome)),
        Text("backend_finished"), now);
    }
  }

  lemma CancelKeeps(op: Operation, reason: string, now: int)
    requires OpInv(op)
    ensures Kept(op, RequestCancelOp(op, reason, now))
  {
    if !Terminal(op.status) && !op.cancelRequested {
      var asked := CancelNoted(op);
      var next :=
        if !op.invocation.cancellable then asked
        else if CancelsBeforeStart(op.status) then
          Cancellation(Closed(asked, Cancelled, op.result, Some(CANCELLED_BEFORE_START), now), true)
        else Moved(asked, Cancelling, now);
      LiveChange(op, next, CancelAsked, Text(reason), now);
    }
  }

  lemma ShutdownKeeps(op: Operation, now: int)
    requires OpInv(op)
    ensures Kept(op, ForcedShutdownOp(op, now))
  {
    if !Terminal(op.status) {
      if op.process.Some? {
        LiveChange(op, Closed(CancelNoted(op), OutcomeUnknown, op.result, Some(SHUTDOWN_AFTER_START), now),
          Lifecycle(OutcomeUnknown), Text("controller_shutdown_forced_after_drain"), now);
      } else {
        LiveChange(op, Cancellation(Closed(CancelNoted(op), Cancelled, op.result, Some(SHUTDOWN_BEFORE_START),
          now), true),
          Lifecycle(Cancelled), Text("controller_shutdown_before_process_start"), now);
      }
    }
  }

  lemma ProcessStartKeeps(op: Operation, start: ProcessStart, now: int)
    requires OpInv(op)
    ensures Kept(op, ProcessStartedOp(op, start, now))
  {
    if op.status.Starting? || op.status.Cancelling? {
      LiveChange(op, WithProcess(op, start, now), Lifecycle(Running),
        Text("process_created:suspended_job_assigned"), now);
    }
  }

  lemma ProcessExitKeeps(op: Operation, end: ProcessEnd, now: int)
    requires OpInv(op)
    ensures Kept(op, ProcessFinishedOp(op, end, now))
  {
    AppendFacts(WithExit(op, end), ProcessExit, Text(end.termination), now);
  }

  /* Restart recovery and cancellation tell the truth about whether the process started. */

  // A live Operation is closed as "failed before start" exactly when it never started a process
  // and is still in a pre-start status; cancelling answers "not started" only in that case too.
  lemma RecoveryNeverDeniesAStart(op: Operation, reason: string, now: int)
    requires OpInv(op) && !Terminal(op.status)
    ensures RecoverOp(op, now).status == (if BeforeProcessStart(op.status) then Failed else OutcomeUnknown)
    ensures Started(op) ==> RecoverOp(op, now).status == OutcomeUnknown
    ensures Started(op) ==>
      var change := RequestCancelOp(op, reason, now);
      && !(change.Updated? && change.op.status == Cancelled)
      && (op.invocation.cancellable && !op.cancelRequested ==> change.Updated? && change.op.status == Cancelling)
  {
    RecoverKeeps(op, now);
  }

  // Forced shutdown decides by the process id alone: it calls a started Operation "cancelled before
  // start" exactly when no process id was recorded.
  lemma ForcedShutdownTrustsTheProcessId(op: Operation, now: int)
    requires OpInv(op) && !Terminal(op.status)
    ensures var change := ForcedShutdownOp(op, now);
      && change.Updated?
      && (change.op.status == Cancelled <==> op.process.None?)
      && (change.op.error == Some(SHUTDOWN_BEFORE_START) <==> op.process.None?)
  {}

  // ... and such an Operation exists: moved to running by a transition, no process id.
  lemma ForcedShutdownCanDenyAStart(now: int)
    ensures exists op :: (
      && OpInv(op) && Started(op) && op.status == Running
      && ForcedShutdownOp(op, now).Updated? && ForcedShutdownOp(op, now).op.status == Cancelled)
  {
    var invocation := Invocation("c", "r", "t", "d", "a", {}, None, None, None, None, true);
    var o0 := NewOperation("op", invocation, 0);
    var o1 := TransitionOp(o0, Queued, "", 0).op;
    var o2 := TransitionOp(o1, Starting, "", 0).op;
    var o3 := TransitionOp(o2, Running, "", 0).op;
    NewKeeps("op", invocation, 0);
    TransitionKeeps(o0, Queued, "", 0);
    TransitionKeeps(o1, Starting, "", 0);
    TransitionKeeps(o2, Running, "", 0);
    assert o3.events[3].phase == Lifecycle(Running);
    assert OpInv(o3) && Started(o3);
  }

  lemma NewKeeps(id: string, invocation: Invocation, now: int)
    ensures OpInv(NewOperation(id, invocation, now))
    ensures !SeenRunning(NewOperation(id, invocation, now).events)
  {}

  /* The file. */

  ghost predicate FileInv(f: OperationFile) {
    && (forall id :: id in f.operations ==> f.operations[id].id == id && OpInv(f.operations[id]))
    && (forall key :: key in f.idempotency ==> f.idempotency[key].operationId in f.operations)
    && (forall k1, k2 :: k1 in f.idempotency && k2 in f.idempotency && k1 != k2 ==>
          f.idempotency[k1].operationId != f.idempotency[k2].operationId)
  }

  // `f` is a later version of `base`: entries still there only moved forward, and an idempotency
  // key keeps naming its Operation for as long as that Operation is kept.
  ghost predicate Follows(base: OperationFile, f: OperationFile) {
    && (forall id :: id in base.operations && id in f.operations ==> Evolves(base.operations[id], f.operations[id]))
    && (forall key :: key in base.idempotency && base.idempotency[key].operationId in f.operations ==>
          key in f.idempotency && f.idempotency[key] == base.idempotency[key])
  }

  lemma EvolvedId(a: Operation, b: Operation)
    requires Evolves(a, b)
    ensures b.id == a.id
  {}

  lemma EvolvesTransitive(a: Operation, b: Operation, c: Operation)
    requires Evolves(a, b) && Evolves(b, c)
    ensures Evolves(a, c)
  {
    hide HasLate;
  }

  // Pruning drops exactly the closed Operations whose retention is over, and their keys.
  lemma PruneDropsExactlyTheExpired(f: OperationFile, now: int)
    requires FileInv(f)
    ensures FileInv(Prune(f, now))
    ensures forall id :: id in Prune(f, now).operations <==>
      id in f.operations && !(Terminal(f.operations[id].status) && f.operations[id].expiresAt.value <= now)
    ensures forall id :: id in Prune(f, now).operations ==> Prune(f, now).operations[id] == f.operations[id]
    ensures forall key :: key in Prune(f, now).idempotency <==>
      key in f.idempotency && f.idempotency[key].operationId in Prune(f, now).operations
    ensures forall key :: key in Prune(f, now).idempotency ==> Prune(f, now).idempotency[key] == f.idempotency[key]
  {}

  lemma RecoverFileKeeps(base: OperationFile, f: OperationFile, now: int)
    requires FileInv(f) && Follows(base, f)
    ensures FileInv(Recover(f, now)) && Follows(base, Recover(f, now))
    ensures forall id :: id in Recover(f, now).operations ==> Terminal(Recover(f, now).operations[id].status)
  {
    forall id | id in f.operations
      ensures OpInv(RecoverOp(f.operations[id], now)) && Terminal(RecoverOp(f.operations[id], now).status)
      ensures Evolves(f.operations[id], RecoverOp(f.operations[id], now))
      ensures id in base.operations ==> Evolves(base.operations[id], RecoverOp(f.operations[id], now))
    {
      RecoverKeeps(f.operations[id], now);
    }
  }

  // Loading twice changes nothing more.
  lemma RecoverIsIdempotent(f: OperationFile, t1: int, t2: int)
    ensures Recover(Recover(f, t1), t2) == Recover(f, t1)
  {
    forall id | id in f.operations
      ensures Recover(Recover(f, t1), t2).operations[id] == Recover(f, t1).operations[id]
    {
      assert Terminal(RecoverOp(f.operations[id], t1).status);
    }
  }

  lemma MutateFileKeeps(base: OperationFile, f: OperationFile, id: string, m: Mutation, now: int)
    requires FileInv(f) && Follows(base, f)
    ensures FileInv(Mutate(f, id, m, now).file) && Follows(base, Mutate(f, id, m, now).file)
    ensures Mutate(f, id, m, now).file.operations.Keys == f.operations.Keys
  {
    hide OpInv, Evolves, MutateOp;
    if id in f.operations {
      MutationKeeps(f.operations[id], m, now);
      if MutateOp(f.operations[id], m, now).Updated? {
        EvolvedId(f.operations[id], MutateOp(f.operations[id], m, now).op);
      }
      if id in base.operations && MutateOp(f.operations[id], m, now).Updated? {
        EvolvesTransitive(base.operations[id], f.operations[id], MutateOp(f.operations[id], m, now).op);
      }
    }
  }

  lemma InsertKeeps(base: OperationFile, f: OperationFile, op: Operation, key: Option<string>, hash: string)
    requires FileInv(f) && Follows(base, f) && OpInv(op)
    requires op.id !in f.operations && op.id !in base.operations
    requires key.Some? ==> key.value !in f.idempotency
    requires forall k :: k in base.idempotency ==> base.idempotency[k].operationId in base.operations
    ensures var entries := if key.Some? then f.idempotency[key.value := IdempotencyRecord(op.id, hash)]
      else f.idempotency;
      var next := OperationFile(f.operations[op.id := op], entries);
      FileInv(next) && Follows(base, next)
  {}

  lemma CreateFileKeeps(base: OperationFile, f: OperationFile, request: CreateRequest, freshId: string, now: int)
    requires FileInv(f) && Follows(base, f)
    requires freshId !in f.operations && freshId !in base.operations
    requires forall key :: key in base.idempotency ==> base.idempotency[key].operationId in base.operations
    ensures FileInv(Create(f, request, freshId, now).file) && Follows(base, Create(f, request, freshId, now).file)
    ensures Create(f, request, freshId, now).file.operations.Keys <= f.operations.Keys + {freshId}
  {
    PruneDropsExactlyTheExpired(f, now);
    var kept := Prune(f, now);
    assert Follows(base, kept);
    if !(request.idempotencyKey.Some? && request.idempotencyKey.value in kept.idempotency) {
      NewKeeps(freshId, request.invocation, now);
      InsertKeeps(base, kept, NewOperation(freshId, request.invocation, now), request.idempotencyKey,
        request.invocationHash);
    }
  }

  // The lookup of an idempotency key never finds a dangling entry.
  lemma CreateIsNeverCorrupt(f: OperationFile, request: CreateRequest, freshId: string, now: int)
    requires FileInv(f)
    ensures Create(f, request, freshId, now).change != Refused(Corrupt)
  {
    PruneDropsExactlyTheExpired(f, now);
  }

  /* Whole runs: calls whose write may fail, crashes, and restarts that may fail to come up. */

  datatype Call = NewOp(request: CreateRequest, freshId: string) | On(id: string, m: Mutation)

  datatype Step = Invoke(call: Call, now: int, ioOk: bool) | Restart(at: int, writeOk: bool)

  // `memory` is absent while the Controller is down; `issued` are the ids ever generated.
  datatype System = System(memory: Option<OperationFile>, disk: OperationFile, issued: set<string>)

  const Blank := System(Some(EmptyFile), EmptyFile, {})

  function Apply(f: OperationFile, call: Call, now: int): Reply {
    match call
    case NewOp(request, freshId) => Create(f, request, freshId, now)
    case On(id, m) => Mutate(f, id, m, now)
  }

  // A generated id is never an old one; a step that says otherwise does nothing.
  function Advance(s: System, step: Step): System {
    match step
    case Invoke(call, now, ioOk) =>
      if s.memory.None? || (call.NewOp? && call.freshId in s.issued) then s
      else
        var reply := Apply(s.memory.value, call, now);
        System(Some(reply.file), if reply.change.Updated? && ioOk then reply.file else s.disk,
          if call.NewOp? then s.issued + {call.freshId} else s.issued)
    case Restart(at, writeOk) =>
      var recovered := Recover(s.disk, at);
      if writeOk || recovered == s.disk then System(Some(recovered), recovered, s.issued)
      else System(None, s.disk, s.issued)
  }

  function Run(s: System, steps: seq<Step>): System
    decreases |steps|
  {
    if steps == [] then s else Run(Advance(s, steps[0]), steps[1..])
  }

  ghost predicate SystemInv(s: System) {
    && FileInv(s.disk) && s.disk.operations.Keys <= s.issued
    && (s.memory.Some? ==>
          FileInv(s.memory.value) && s.memory.value.operations.Keys <= s.issued && Follows(s.disk, s.memory.value))
  }

  // Both copies descend from `base`, whose ids were all issued.
  ghost predicate Descends(base: OperationFile, s: System) {
    && FileInv(base) && base.operations.Keys <= s.issued
    && Follows(base, s.disk)
    && (s.memory.Some? ==> Follows(base, s.memory.value))
  }

  lemma FollowsSelf(f: OperationFile)
    ensures Follows(f, f)
  {}

  lemma AdvanceKeeps(base: OperationFile, s: System, step: Step)
    requires SystemInv(s) && Descends(base, s)
    ensures SystemInv(Advance(s, step)) && Descends(base, Advance(s, step))
  {
    hide OpInv, Evolves, Create, Mutate, RecoverOp;
    match step
    case Invoke(call, now, ioOk) =>
      if s.memory.Some? && !(call.NewOp? && call.freshId in s.issued) {
        var f := s.memory.value;
        match call {
          case NewOp(request, freshId) =>
            CreateFileKeeps(base, f, request, freshId, now);
            CreateFileKeeps(s.disk, f, request, freshId, now);
          case On(id, m) =>
            MutateFileKeeps(base, f, id, m, now);
            MutateFileKeeps(s.disk, f, id, m, now);
        }
        FollowsSelf(Apply(f, call, now).file);
      }
    case Restart(at, writeOk) =>
      FollowsSelf(s.disk);
      RecoverFileKeeps(base, s.disk, at);
      RecoverFileKeeps(s.disk, s.disk, at);
      FollowsSelf(Recover(s.disk, at));
  }

  lemma {:induction false} RunKeeps(base: OperationFile, s: System, steps: seq<Step>)
    requires SystemInv(s) && Descends(base, s)
    ensures SystemInv(Run(s, steps)) && Descends(base, Run(s, steps))
    decreases |steps|
  {
    if steps != [] {
      AdvanceKeeps(base, s, steps[0]);
      RunKeeps(base, Advance(s, steps[0]), steps[1..]);
    }
  }

  // Every store reachable from the empty one is sound, in memory and on disk, and no lookup of an
  // idempotency key in it can come out corrupt.
  lemma ReachableStoresAreSound(steps: seq<Step>, request: CreateRequest, freshId: string, now: int)
    ensures SystemInv(Run(Blank, steps))
    ensures var s := Run(Blank, steps);
      s.memory.Some? ==> Create(s.memory.value, request, freshId, now).change != Refused(Corrupt)
  {
    RunKeeps(EmptyFile, Blank, steps);
    var s := Run(Blank, steps);
    if s.memory.Some? {
      CreateIsNeverCorrupt(s.memory.value, request, freshId, now);
    }
  }

  // What was committed at one point of a run is only ever moved forward by the rest of it, whatever
  // calls, failed writes and restarts follow.
  lemma CommittedOperationsOnlyMoveForward(before: seq<Step>, after: seq<Step>, id: string)
    requires id in Run(Blank, before).disk.operations
    requires id in Run(Run(Blank, before), after).disk.operations
    ensures Evolves(Run(Blank, before).disk.operations[id], Run(Run(Blank, before), after).disk.operations[id])
  {
    RunKeeps(EmptyFile, Blank, before);
    var s := Run(Blank, before);
    FollowsSelf(s.disk);
    RunKeeps(s.disk, s, after);
  }

  // A closed Operation never changes its answer, and at most three more events are filed on it.
  lemma ClosedOperationsAreImmutableUpToEvidence(before: seq<Step>, after: seq<Step>, id: string)
    requires id in Run(Blank, before).disk.operations && Terminal(Run(Blank, before).disk.operations[id].status)
    requires id in Run(Run(Blank, before), after).disk.operations
    ensures var a := Run(Blank, before).disk.operations[id];
      var b := Run(Run(Blank, before), after).disk.operations[id];
      && b.status == a.status && b.result == a.result && b.error == a.error
      && !(b.result.Some? && b.error.Some?)
      && a.events <= b.events && |b.events| <= |a.events| + 3
  {
    CommittedOperationsOnlyMoveForward(before, after, id);
    ReachableStoresAreSound(before, CreateRequest(Run(Blank, before).disk.operations[id].invocation, None, ""), "", 0);
  }

  // Once a committed log shows the process running, no later call, crash or restart reports the
  // Operation in a status from before the start, nor closes it as failed-before-start.
  lemma AStartIsNeverDenied(before: seq<Step>, after: seq<Step>, id: string, at: int)
    requires id in Run(Blank, before).disk.operations && Started(Run(Blank, before).disk.operations[id])
    requires id in Run(Run(Blank, before), after).disk.operations
    ensures var b := Run(Run(Blank, before), after).disk.operations[id];
      && Started(b) && !BeforeProcessStart(b.status)
      && (!Terminal(b.status) ==> RecoverOp(b, at).status == OutcomeUnknown)
  {
    CommittedOperationsOnlyMoveForward(before, after, id);
    var a := Run(Blank, before).disk.operations[id];
    var b := Run(Run(Blank, before), after).disk.operations[id];
    if SeenRunning(a.events) {
      var i :| 0 <= i < |a.events| && a.events[i].phase == Lifecycle(Running);
      assert b.events[i].phase == Lifecycle(Running);
    }
    RunKeeps(EmptyFile, Blank, before);
    FollowsSelf(EmptyFile);
    RunKeeps(EmptyFile, Run(Blank, before), after);
    RecoverKeeps(b, at);
  }

  /* Event paging. */

  lemma {:induction false} LaterIsADrop(events: seq<Event>, first: nat, after: nat)
    requires forall i :: 0 <= i < |events| ==> events[i].sequence == first + i + 1
    ensures Later(events, after) ==
      if after <= first then events else if after - first <= |events| then events[after - first..] else []
    decreases |events|
  {
    if events != [] {
      forall i | 0 <= i < |events[1..]|
        ensures events[1..][i].sequence == first + 1 + i + 1
      {
        assert events[1..][i] == events[i + 1];
      }
      LaterIsADrop(events[1..], first + 1, after);
    }
  }

  ghost function Min(a: int, b: int): int {
    if a <= b then a else b
  }

  // One page is the next 256 events in order, with nothing skipped or repeated.
  lemma PageIsTheNextSlice(log: seq<Event>, after: nat)
    requires Sequenced(log) && after <= |log|
    ensures Page(log, after) == log[after..Min(after + PAGE, |log|)]
  {
    LaterIsADrop(log, 0, after);
  }

  // A reader asks for what follows the last sequence number it has seen, each time from the log as it
  // is at that moment; the log may have grown in between.
  ghost function ReadPages(logs: seq<seq<Event>>, after: nat): seq<Event>
    decreases |logs|
  {
    if logs == [] then []
    else
      var page := Page(logs[0], after);
      page + ReadPages(logs[1..], if page == [] then after else page[|page| - 1].sequence)
  }

  ghost predicate Growing(logs: seq<seq<Event>>) {
    forall i, j :: 0 <= i <= j < |logs| ==> Sequenced(logs[i]) && logs[i] <= logs[j]
  }

  // `piece` is the part of `log` that starts at `from`.
  ghost predicate Slice(piece: seq<Event>, log: seq<Event>, from: nat) {
    from + |piece| <= |log| && piece == log[from..from + |piece|]
  }

  lemma Glue(log: seq<Event>, a: nat, b: nat, more: seq<Event>)
    requires a <= b <= |log| && Slice(more, log, b)
    ensures Slice(log[a..b] + more, log, a)
  {}

  // Reading page after page gives the log itself in order, from where the reader was, as a contiguous
  // piece of the final log; it stops short of what the first log held only after |logs| full pages.
  lemma {:induction false} PagingIsLossless(logs: seq<seq<Event>>, after: nat)
    requires |logs| > 0 && Growing(logs) && after <= |logs[0]|
    ensures Slice(ReadPages(logs, after), logs[|logs| - 1], after)
    ensures after + |ReadPages(logs, after)| < |logs[0]| ==> |ReadPages(logs, after)| == 256 * |logs|
    decreases |logs|
  {
    var log := logs[|logs| - 1];
    var rest := logs[1..];
    var next := Min(after + PAGE, |logs[0]|);
    FirstPage(logs, after);
    if rest == [] {
      assert ReadPages(rest, next) == [];
      Glue(log, after, next, []);
    } else {
      GrowingRest(logs);
      PagingIsLossless(rest, next);
      Glue(log, after, next, ReadPages(rest, next));
    }
  }

  lemma FirstPage(logs: seq<seq<Event>>, after: nat)
    requires |logs| > 0 && Growing(logs) && after <= |logs[0]|
    ensures var next := Min(after + PAGE, |logs[0]|);
      && next <= |logs[|logs| - 1]|
      && ReadPages(logs, after) == logs[|logs| - 1][after..next] + ReadPages(logs[1..], next)
  {
    hide Page;
    var log := logs[|logs| - 1];
    var next := Min(after + PAGE, |logs[0]|);
    PageIsTheNextSlice(logs[0], after);
    var page := Page(logs[0], after);
    assert logs[0] <= log;
    assert page == log[after..next];
    assert page != [] ==> page[|page| - 1] == logs[0][next - 1];
  }

  lemma GrowingRest(logs: seq<seq<Event>>)
    requires |logs| > 1 && Growing(logs)
    ensures Growing(logs[1..]) && logs[0] <= logs[1..][0] && logs[1..][|logs| - 2] == logs[|logs| - 1]
  {
    var rest := logs[1..];
    forall i, j | 0 <= i <= j < |rest|
      ensures Sequenced(rest[i]) && rest[i] <= rest[j]
    {
      assert rest[i] == logs[i + 1] && rest[j] == logs[j + 1];
    }
    assert rest[0] == logs[1];
  }

  // On a log that does not grow, ceil(n / 256) pages read all of it, each but the last one full, and
  // the page after that is empty.
  lemma EnoughPagesReadEverything(op: Operation, pages: nat)
    requires OpInv(op) && PAGE * pages >= |op.events|
    ensures ReadPages(seq(pages, i => op.events), 0) == op.events
    ensures EventsAfter(op, |op.events|) == []
  {
    PagingIsLossless(seq(pages, i => op.events), 0);
    PageIsTheNextSlice(op.events, |op.events|);
    assert op.events[0..|op.events|] == op.events;
  }
}
