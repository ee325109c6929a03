/**
 The commands of one Codex execution in their own form: an object that edits its records, its registry
 entry and the Operation store in place. Run to its end without a crash, each command does exactly the
 steps of module `CodexProtocol`, one input of the environment a step.
 */
module CodexControllers {
  import opened Basics
  import opened CodexRecords
  import opened CodexProtocol
  import Ops = Operations
  import Facts = OperationFacts
  import OperationStore

  // What the environment gives a step: the time, whether its write succeeds, and the App Server's answer.
  datatype Input = Input(now: nat, ioOk: bool, answer: Answer)

  function Stepped(w: World, i: Input): World {
    Next(w, Proceed(i.now, i.ioOk, i.answer))
  }

  function Continue(w: World, inputs: seq<Input>): World
    decreases |inputs|
  {
    if inputs == [] then w else Continue(Stepped(w, inputs[0]), inputs[1..])
  }

  lemma {:induction false} IdleStays(w: World, inputs: seq<Input>)
    requires w.job.Idle?
    ensures Continue(w, inputs) == w
    decreases |inputs|
  {
    if inputs != [] { IdleStays(w, inputs[1..]); }
  }

  lemma ReconcilingStep(w: World, r: Exec, i: Input)
    requires w.job == Reconciling(r) && w.store.memory.Some?
    ensures Stepped(w, i) == WithStore(w, Reconciled(w, r, i.now, i.ioOk), Idle)
  {
    hide Reconciled;
  }

  class CodexController {
    const opId: string
    const operations: OperationStore.Store
    var execs: seq<Stored>
    var receipt: Option<Receipt>
    var active: Option<Exec>
    ghost var issued: set<string>
    ghost var turnsIssued: nat
    ghost var turnRefused: bool
    ghost var successSeen: bool

    ghost function System(): Facts.System
      reads this, operations
    {
      Facts.System(Some(operations.file), operations.disk, issued)
    }

    ghost function Value(job: Job): World
      reads this, operations
    {
      World(opId, System(), execs, receipt, active, job, turnsIssued, turnRefused, successSeen)
    }

    constructor (opId: string)
      ensures Value(Idle) == Start(opId) && this.opId == opId
      ensures fresh(operations)
    {
      this.opId := opId;
      operations := new OperationStore.Store();
      execs, receipt, active := [], None, None;
      issued, turnsIssued, turnRefused, successSeen := {}, 0, false, false;
    }

    /* Single writes. */

    method PublishExecution(doc: Exec, i: Input) returns (ok: bool)
      modifies this`execs
      ensures PutResult(ok, execs) == PutExec(old(execs), doc, i.now, i.ioOk)
    {
      if !i.ioOk { return false; }
      var existing := AtRevision(execs, doc.revision);
      if existing.Some? { return existing.value == Stored(doc, i.now); }
      execs := execs + [Stored(doc, i.now)];
      ok := true;
    }

    method MoveOperation(to: Ops.Status, detail: string, i: Input) returns (ok: bool)
      modifies operations
      ensures System() == OnOperation(old(System()), opId, Ops.Transition(to, detail), i.now, i.ioOk)
      ensures ok == CallSucceeds(old(System()), opId, Ops.Transition(to, detail), i.now, i.ioOk)
    {
      hide Ops.Mutate;
      var answer := operations.Transition(opId, to, detail, i.now, i.ioOk);
      ok := answer.Ok?;
    }

    method CompleteOperation(outcome: Ops.Outcome, i: Input) returns (ok: bool)
      modifies operations
      ensures System() == OnOperation(old(System()), opId, Ops.Complete(outcome), i.now, i.ioOk)
      ensures ok == CallSucceeds(old(System()), opId, Ops.Complete(outcome), i.now, i.ioOk)
    {
      hide Ops.Mutate;
      var answer := operations.Complete(opId, outcome, i.now, i.ioOk);
      ok := answer.Ok?;
    }

    // `mark_operation_outcome_unknown`: what goes wrong in it is ignored.
    method MarkOperationOutcomeUnknown(i: Input)
      modifies operations
      ensures Value(Idle) == Stepped(old(Value(Marking)), i)
    {
      hide Ops.Mutate;
      if opId !in operations.file.operations { return; }
      var status := operations.file.operations[opId].status;
      if status.Running? || status.Cancelling? {
        var _ := MoveOperation(Ops.OutcomeUnknown, "codex_outcome_unknown", i);
      } else if !Ops.Terminal(status) {
        var _ := CompleteOperation(FailureReport("TOOL_OUTCOME_UNKNOWN",
          "The Codex operation outcome could not be reconciled."), i);
      }
    }

    method ReconcileTerminalOperation(r: Exec, i: Input) returns (ok: bool)
      modifies operations
      ensures Value(Idle) == Stepped(old(Value(Reconciling(r))), i)
      ensures ok == ReconcileSucceeds(old(Value(Reconciling(r))), r, i.now, i.ioOk)
    {
      ReconcilingStep(Value(Reconciling(r)), r, i);
      hide Next, Stepped, OnOperation, CallSucceeds, ReconcilePlan;
      if opId !in operations.file.operations { return false; }
      ok := CloseAsRecorded(r, i);
    }

    method CloseAsRecorded(r: Exec, i: Input) returns (ok: bool)
      requires opId in operations.file.operations
      modifies operations
      ensures Did(ReconcilePlan(old(operations.file).operations[opId].status, r), old(System()), i, System(), ok)
    {
      hide OnOperation, CallSucceeds, UnknownPlan, FailureReport, System;
      match r.state {
        case Completed => ok := CompleteOperation(Ops.Success("codex_execution"), i);
        case Failed =>
          var code := if r.ending.errorCode.Some? then r.ending.errorCode.value else "CODEX_NOT_READY";
          ok := CompleteOperation(FailureReport(code,
            "The Codex turn reached a verified failed terminal state."), i);
        case Interrupted =>
          ok := CompleteOperation(FailureReport("TOOL_CANCELLED",
            "The Codex turn was interrupted and its partial effect was retained."), i);
        case OutcomeUnknown => ok := CloseAsUnknown(i);
        case RecoveryRequired => ok := CloseAsUnknown(i);
        case _ => ok := false;
      }
    }

    method CloseAsUnknown(i: Input) returns (ok: bool)
      requires opId in operations.file.operations
      modifies operations
      ensures Did(UnknownPlan(old(operations.file).operations[opId].status), old(System()), i, System(), ok)
    {
      hide OnOperation, CallSucceeds;
      var status := operations.file.operations[opId].status;
      if status.Starting? || status.Running? || status.Cancelling? {
        ok := MoveOperation(Ops.OutcomeUnknown, "codex_execution_outcome_unknown", i);
      } else {
        ok := status.Succeeded? || status.Failed? || status.Cancelled? || status.OutcomeUnknown?;
      }
    }

    // The plan was carried out, with this answer.
    ghost predicate Did(plan: Plan, before: Facts.System, i: Input, after: Facts.System, ok: bool) {
      match plan
      case CallStore(m) => after == OnOperation(before, opId, m, i.now, i.ioOk)
        && ok == CallSucceeds(before, opId, m, i.now, i.ioOk)
      case AlreadyClosed => after == before && ok
      case Mismatch => after == before && !ok
    }

    /* Finalization. */

    method LoadOrPublishTerminalReceipt(r: Exec, effect: EffectState, event: string, started: bool, i: Input)
      returns (decided: Option<Receipt>)
      modifies this`receipt
      ensures var given := if old(receipt).Some? then old(receipt).value
        else NewReceipt(r, effect, event, i.now, started);
        && (decided.Some? <==> ReceiptMatches(given, r) && (old(receipt).Some? || i.ioOk))
        && (decided.Some? ==> decided == receipt == Some(given))
        && (decided.None? ==> receipt == old(receipt))
    {
      if receipt.Some? {
        return if ReceiptMatches(receipt.value, r) then receipt else None;
      }
      var made := NewReceipt(r, effect, event, i.now, started);
      if !ReceiptMatches(made, r) || !i.ioOk { return None; }
      receipt := Some(made);
      decided := receipt;
    }

    // The receipt, the terminal record, the Operation: each write only after the one before it.
    method FinalizeWithEffectStarted(r: Exec, wanted: ExecState, event: string, started: bool,
        inputs: seq<Input>) returns (ok: bool)
      requires |inputs| >= 3
      modifies this`receipt, this`execs, operations
      ensures Value(Idle) == Continue(old(Value(FinReceipt(r, wanted, event, started))), inputs)
    {
      hide Ops.Mutate, ReceiptMatches, ShapeOk, Concluded, PutExec, Reconciled;
      var requested := RequestedEffect(wanted);
      ghost var w0 := Value(FinReceipt(r, wanted, event, started));
      assert Stepped(w0, inputs[0]) == FinReceiptStep(w0, r, wanted, event, started, inputs[0].now, inputs[0].ioOk);
      if requested.None? {
        IdleStays(Stepped(w0, inputs[0]), inputs[1..]);
        return false;
      }
      var decided := LoadOrPublishTerminalReceipt(r, requested.value, event, started, inputs[0]);
      if decided.None? {
        IdleStays(Stepped(w0, inputs[0]), inputs[1..]);
        return false;
      }
      var terminal := Concluded(r, decided.value);
      if !ShapeOk(terminal) {
        IdleStays(Stepped(w0, inputs[0]), inputs[1..]);
        return false;
      }
      assert Value(FinExec(terminal)) == Stepped(w0, inputs[0]);
      ok := PublishTerminal(terminal, inputs[1..]);
    }

    method PublishTerminal(r: Exec, inputs: seq<Input>) returns (ok: bool)
      requires |inputs| >= 2
      modifies this`execs, operations
      ensures Value(Idle) == Continue(old(Value(FinExec(r))), inputs)
    {
      hide Ops.Mutate, PutExec, Reconciled;
      ghost var w0 := Value(FinExec(r));
      assert Stepped(w0, inputs[0]) == Publish(w0, r, inputs[0].now, inputs[0].ioOk, Reconciling(r), Idle);
      ok := PublishExecution(r, inputs[0]);
      if !ok {
        assert Value(Idle) == Stepped(w0, inputs[0]);
        IdleStays(Value(Idle), inputs[1..]);
        return;
      }
      assert Value(Reconciling(r)) == Stepped(w0, inputs[0]);
      ok := ReconcileTerminalOperation(r, inputs[1]);
      IdleStays(Value(Idle), inputs[1..][1..]);
    }

    // One step of `mark_operation_outcome_unknown` and nothing more.
    method MarkAndStop(inputs: seq<Input>)
      requires |inputs| >= 1
      modifies operations
      ensures Value(Idle) == Continue(old(Value(Marking)), inputs)
    {
      hide Next;
      MarkOperationOutcomeUnknown(inputs[0]);
      IdleStays(Value(Idle), inputs[1..]);
    }

    /* Launch: each part does one step and goes on with the next. */

    method Launch(binding: string, startedAt: nat, inputs: seq<Input>)
      requires |inputs| >= 13
      modifies this, operations
      ensures Value(Idle) == Continue(old(LaunchCommand(Value(Idle), binding, startedAt)), inputs)
    {
      hide Next, Stepped, Continue, Latest, Launchable;
      IdleStays(Value(Idle), inputs);
      if opId !in operations.file.operations || !Launchable(operations.file.operations[opId].status) { return; }
      var existing := Latest(execs);
      if existing.None? {
        FirstPart(FirstRecord(Identity(opId, binding, startedAt)), inputs);
        return;
      }
      var record := existing.value;
      if record.identity.binding != binding { return; }
      if TerminalState(record.state) {
        ReconcileAndStop(record, inputs);
      } else if active.None? {
        var _ := FinalizeWithEffectStarted(record, CodexRecords.OutcomeUnknown, "launch_retry_requires_reconciliation",
          MayHaveStarted(record), inputs);
      }
    }

    method ReconcileAndStop(r: Exec, inputs: seq<Input>)
      requires |inputs| >= 1
      modifies operations
      ensures Value(Idle) == Continue(old(Value(Reconciling(r))), inputs)
    {
      hide Next, Stepped;
      var _ := ReconcileTerminalOperation(r, inputs[0]);
      IdleStays(Value(Idle), inputs[1..]);
    }

    method FirstPart(r: Exec, inputs: seq<Input>)
      requires |inputs| >= 13
      modifies this, operations
      ensures Value(Idle) == Continue(old(Value(PublishFirst(r))), inputs)
    {
      hide PutExec;
      ghost var w0 := Value(PublishFirst(r));
      assert Stepped(w0, inputs[0]) == Publish(w0, r, inputs[0].now, inputs[0].ioOk, AtQueue(r), Idle);
      var ok := PublishExecution(r, inputs[0]);
      assert Value(if ok then AtQueue(r) else Idle) == Stepped(w0, inputs[0]);
      if ok { QueuePart(r, inputs[1..]); } else { IdleStays(Value(Idle), inputs[1..]); }
    }

    method QueuePart(r: Exec, inputs: seq<Input>)
      requires |inputs| >= 12
      modifies this, operations
      ensures Value(Idle) == Continue(old(Value(AtQueue(r))), inputs)
    {
      hide OnOperation, CallSucceeds;
      ghost var w0 := Value(AtQueue(r));
      assert Stepped(w0, inputs[0]) == QueueStep(w0, r, inputs[0].now, inputs[0].ioOk);
      var ok := MoveOperation(Ops.Queued, "codex_execution_approved", inputs[0]);
      if ok {
        assert Value(AtStart(r)) == Stepped(w0, inputs[0]);
        StartPart(r, inputs[1..]);
      } else {
        assert Value(FinReceipt(r, Failed, "operation_queue_failed", false)) == Stepped(w0, inputs[0]);
        var _ := FinalizeWithEffectStarted(r, Failed, "operation_queue_failed", false, inputs[1..]);
      }
    }

    method StartPart(r: Exec, inputs: seq<Input>)
      requires |inputs| >= 11
      modifies this, operations
      ensures Value(Idle) == Continue(old(Value(AtStart(r))), inputs)
    {
      hide OnOperation, CallSucceeds;
      ghost var w0 := Value(AtStart(r));
      assert Stepped(w0, inputs[0]) == StartStep(w0, r, inputs[0].now, inputs[0].ioOk);
      var ok := MoveOperation(Ops.Starting, "codex_app_server_starting", inputs[0]);
      if ok {
        assert Value(AtConnect(r)) == Stepped(w0, inputs[0]);
        ConnectPart(r, inputs[1..]);
      } else {
        assert Value(FinReceipt(r, Failed, "operation_start_failed", false)) == Stepped(w0, inputs[0]);
        var _ := FinalizeWithEffectStarted(r, Failed, "operation_start_failed", false, inputs[1..]);
      }
    }

    method ConnectPart(r: Exec, inputs: seq<Input>)
      requires |inputs| >= 10
      modifies this, operations
      ensures Value(Idle) == Continue(old(Value(AtConnect(r))), inputs)
    {
      hide ShapeOk, WithThread;
      ghost var w0 := Value(AtConnect(r));
      assert Stepped(w0, inputs[0]) == ConnectStep(w0, r, inputs[0].now, inputs[0].answer);
      match inputs[0].answer {
        case Rejected =>
          var _ := FinalizeWithEffectStarted(r, Failed, "thread_request_failed", false, inputs[1..]);
        case Lost =>
          var _ := FinalizeWithEffectStarted(r, CodexRecords.OutcomeUnknown, "thread_request_failed", false,
            inputs[1..]);
        case Accepted(thread) =>
          var record := WithThread(r, thread, inputs[0].now);
          if ShapeOk(record) { ThreadPart(record, inputs[1..]); } else { IdleStays(Value(Idle), inputs[1..]); }
      }
    }

    method ThreadPart(r: Exec, inputs: seq<Input>)
      requires |inputs| >= 9
      modifies this, operations
      ensures Value(Idle) == Continue(old(Value(PublishThread(r))), inputs)
    {
      hide PutExec;
      ghost var w0 := Value(PublishThread(r));
      assert Stepped(w0, inputs[0]) == Publish(w0, r, inputs[0].now, inputs[0].ioOk, AtRunning(r), Marking);
      var ok := PublishExecution(r, inputs[0]);
      assert Value(if ok then AtRunning(r) else Marking) == Stepped(w0, inputs[0]);
      if ok { RunningPart(r, inputs[1..]); } else { MarkAndStop(inputs[1..]); }
    }

    method RunningPart(r: Exec, inputs: seq<Input>)
      requires |inputs| >= 8
      modifies this, operations
      ensures Value(Idle) == Continue(old(Value(AtRunning(r))), inputs)
    {
      hide OnOperation, CallSucceeds, ShapeOk, WithTurnRequested;
      ghost var w0 := Value(AtRunning(r));
      assert Stepped(w0, inputs[0]) == RunningStep(w0, r, inputs[0].now, inputs[0].ioOk);
      var ok := MoveOperation(Ops.Running, "codex_turn_start_requested", inputs[0]);
      if !ok {
        assert Value(FinReceipt(r, Failed, "operation_running_transition_failed", false)) == Stepped(w0, inputs[0]);
        var _ := FinalizeWithEffectStarted(r, Failed, "operation_running_transition_failed", false, inputs[1..]);
        return;
      }
      var record := WithTurnRequested(r, inputs[0].now);
      if ShapeOk(record) {
        assert Value(PublishRequest(record)) == Stepped(w0, inputs[0]);
        RequestPart(record, inputs[1..]);
      } else {
        assert Value(Idle) == Stepped(w0, inputs[0]);
        IdleStays(Value(Idle), inputs[1..]);
      }
    }

    method RequestPart(r: Exec, inputs: seq<Input>)
      requires |inputs| >= 7
      modifies this, operations
      ensures Value(Idle) == Continue(old(Value(PublishRequest(r))), inputs)
    {
      hide PutExec;
      ghost var w0 := Value(PublishRequest(r));
      assert Stepped(w0, inputs[0]) == Publish(w0, r, inputs[0].now, inputs[0].ioOk, AtTurn(r), Marking);
      var ok := PublishExecution(r, inputs[0]);
      assert Value(if ok then AtTurn(r) else Marking) == Stepped(w0, inputs[0]);
      if ok { TurnPart(r, inputs[1..]); } else { MarkAndStop(inputs[1..]); }
    }

    // The turn is asked for, and its answer awaited.
    method TurnPart(r: Exec, inputs: seq<Input>)
      requires |inputs| >= 6
      modifies this, operations
      ensures Value(Idle) == Continue(old(Value(AtTurn(r))), inputs)
    {
      ghost var w0 := Value(AtTurn(r));
      assert Stepped(w0, inputs[0]) == TurnSent(w0, AwaitTurn(r));
      turnsIssued := turnsIssued + 1;
      AnswerPart(r, inputs[1..]);
    }

    method AnswerPart(r: Exec, inputs: seq<Input>)
      requires |inputs| >= 5
      modifies this, operations
      ensures Value(Idle) == Continue(old(Value(AwaitTurn(r))), inputs)
    {
      hide ShapeOk, WithTurn;
      ghost var w0 := Value(AwaitTurn(r));
      assert Stepped(w0, inputs[0]) == TurnAnswered(w0, r, inputs[0].now, inputs[0].answer);
      match inputs[0].answer {
        case Rejected =>
          turnRefused := true;
          var _ := FinalizeWithEffectStarted(r, Failed, "turn_start_failed", false, inputs[1..]);
        case Lost =>
          var _ := FinalizeWithEffectStarted(r, CodexRecords.OutcomeUnknown, "turn_start_failed", true, inputs[1..]);
        case Accepted(turn) =>
          var record := WithTurn(r, turn, inputs[0].now);
          if ShapeOk(record) { TurnRecordPart(record, inputs[1..]); } else { MarkAndStop(inputs[1..]); }
      }
    }

    // `Lost` stands for a registry that can no longer be locked.
    method TurnRecordPart(r: Exec, inputs: seq<Input>)
      requires |inputs| >= 4
      modifies this, operations
      ensures Value(Idle) == Continue(old(Value(PublishTurn(r))), inputs)
    {
      hide PutExec;
      ghost var w0 := Value(PublishTurn(r));
      assert Stepped(w0, inputs[0]) == PublishTurnStep(w0, r, inputs[0].now, inputs[0].ioOk, inputs[0].answer);
      var ok := PublishExecution(r, inputs[0]);
      if !ok {
        assert Value(Marking) == Stepped(w0, inputs[0]);
        MarkAndStop(inputs[1..]);
      } else if inputs[0].answer.Lost? {
        assert Value(FinReceipt(r, CodexRecords.OutcomeUnknown, "active_registry_unavailable", true)) ==
          Stepped(w0, inputs[0]);
        var _ := FinalizeWithEffectStarted(r, CodexRecords.OutcomeUnknown, "active_registry_unavailable", true,
          inputs[1..]);
      } else {
        active := Some(r);
        assert Value(Idle) == Stepped(w0, inputs[0]);
        IdleStays(Value(Idle), inputs[1..]);
      }
    }

    /* Status. */

    method Status(notice: Notice, lockPoisoned: bool, now: nat, inputs: seq<Input>)
      requires |inputs| >= 4
      modifies this, operations
      ensures Value(Idle) == Continue(old(StatusCommand(Value(Idle), notice, lockPoisoned, now)), inputs)
    {
      hide Next, Stepped, Continue, Latest, ActiveStatus;
      IdleStays(Value(Idle), inputs);
      var latest := Latest(execs);
      if latest.None? { return; }
      var persisted := latest.value;
      if TerminalState(persisted.state) {
        active := None;
        ReconcileAndStop(persisted, inputs);
      } else if active.None? {
        var _ := FinalizeWithEffectStarted(persisted, CodexRecords.OutcomeUnknown,
          "controller_restarted_outcome_unknown", MayHaveStarted(persisted), inputs);
      } else {
        StatusOfActive(persisted, active.value, notice, lockPoisoned, now, inputs);
      }
    }

    method StatusOfActive(persisted: Exec, record: Exec, notice: Notice, lockPoisoned: bool, now: nat,
        inputs: seq<Input>)
      requires |inputs| >= 4 && active == Some(record)
      modifies this, operations
      ensures Value(Idle) == Continue(
        old(ActiveStatus(Value(Idle), persisted, record, notice, lockPoisoned, now)), inputs)
    {
      hide Next, Stepped, Continue, WithNotification, ShapeOk;
      if lockPoisoned {
        active := None;
        var _ := FinalizeWithEffectStarted(persisted, CodexRecords.OutcomeUnknown,
          "active_execution_lock_outcome_unknown", true, inputs);
        return;
      }
      if record != persisted {
        active := None;
        var _ := FinalizeWithEffectStarted(persisted, CodexRecords.OutcomeUnknown, "active_registry_state_mismatch",
          true, inputs);
        return;
      }
      successSeen := successSeen || notice == TurnEnded(EndCompleted);
      match notice {
        case Timeout => IdleStays(Value(Idle), inputs);
        case ConnectionLost =>
          active := None;
          var _ := FinalizeWithEffectStarted(record, CodexRecords.OutcomeUnknown, "app_server_lost_outcome_unknown",
            true, inputs);
        case TurnEnded(end) =>
          active := None;
          var _ := FinalizeWithEffectStarted(record, StateOfEnd(end), "turn_completed", true, inputs);
        case OtherNotice(text) =>
          var next := WithNotification(record, text, now);
          if ShapeOk(next) {
            EventPart(next, "event_publication_outcome_unknown", inputs);
          } else {
            active := None;
            var _ := FinalizeWithEffectStarted(record, CodexRecords.OutcomeUnknown, "protocol_event_outcome_unknown",
              true, inputs);
          }
      }
    }

    method EventPart(r: Exec, effectEvent: string, inputs: seq<Input>)
      requires |inputs| >= 4 && active.Some?
      modifies this, operations
      ensures Value(Idle) == Continue(old(Value(PublishEvent(r, effectEvent))), inputs)
    {
      hide PutExec;
      ghost var w0 := Value(PublishEvent(r, effectEvent));
      assert Stepped(w0, inputs[0]) == PublishEventStep(w0, r, effectEvent, inputs[0].now, inputs[0].ioOk);
      AppendOnlyOnSuccess(execs, r, inputs[0]);
      var ok := PublishExecution(r, inputs[0]);
      if ok {
        active := Some(r);
        assert Value(Idle) == Stepped(w0, inputs[0]);
        IdleStays(Value(Idle), inputs[1..]);
      } else {
        var record := active.value;
        active := None;
        assert Value(FinReceipt(record, CodexRecords.OutcomeUnknown, effectEvent, true)) == Stepped(w0, inputs[0]);
        var _ := FinalizeWithEffectStarted(record, CodexRecords.OutcomeUnknown, effectEvent, true, inputs[1..]);
      }
    }

    /* Interrupt. */

    method Interrupt(lockPoisoned: bool, inputs: seq<Input>)
      requires |inputs| >= 4
      modifies this, operations
      ensures Value(Idle) == Continue(old(InterruptCommand(Value(Idle), lockPoisoned)), inputs)
    {
      hide Next, Stepped, Continue, Latest;
      IdleStays(Value(Idle), inputs);
      var latest := Latest(execs);
      if latest.None? { return; }
      var persisted := latest.value;
      if TerminalState(persisted.state) {
        ReconcileAndStop(persisted, inputs);
      } else if active.None? {
        var _ := FinalizeWithEffectStarted(persisted, CodexRecords.OutcomeUnknown, "interrupt_after_controller_restart",
          MayHaveStarted(persisted), inputs);
      } else if lockPoisoned {
        active := None;
        var _ := FinalizeWithEffectStarted(persisted, CodexRecords.OutcomeUnknown, "interrupt_lock_outcome_unknown",
          true, inputs);
      } else if active.value != persisted {
        active := None;
        var _ := FinalizeWithEffectStarted(persisted, CodexRecords.OutcomeUnknown, "interrupt_state_mismatch",
          true, inputs);
      } else if active.value.thread.Some? && active.value.turn.Some? {
        CancellingPart(inputs);
      }
    }

    method CancellingPart(inputs: seq<Input>)
      requires |inputs| >= 4 && active.Some?
      modifies this, operations
      ensures Value(Idle) == Continue(old(Value(AtCancelling)), inputs)
    {
      hide OnOperation, CallSucceeds;
      ghost var w0 := Value(AtCancelling);
      assert Stepped(w0, inputs[0]) ==
        Move(w0, Ops.Cancelling, "codex_interrupt_requested", inputs[0].now, inputs[0].ioOk, SendInterrupt, Idle);
      var ok := MoveOperation(Ops.Cancelling, "codex_interrupt_requested", inputs[0]);
      assert Value(if ok then SendInterrupt else Idle) == Stepped(w0, inputs[0]);
      if ok { SendPart(inputs[1..]); } else { IdleStays(Value(Idle), inputs[1..]); }
    }

    method SendPart(inputs: seq<Input>)
      requires |inputs| >= 3 && active.Some?
      modifies this, operations
      ensures Value(Idle) == Continue(old(Value(SendInterrupt)), inputs)
    {
      hide ShapeOk, WithInterrupt;
      ghost var w0 := Value(SendInterrupt);
      assert Stepped(w0, inputs[0]) == SendInterruptStep(w0, inputs[0].now, inputs[0].answer);
      if !inputs[0].answer.Accepted? {
        MarkAndStop(inputs[1..]);
        return;
      }
      var record := WithInterrupt(active.value, inputs[0].now);
      if ShapeOk(record) { InterruptRecordPart(record, inputs[1..]); } else { IdleStays(Value(Idle), inputs[1..]); }
    }

    method InterruptRecordPart(r: Exec, inputs: seq<Input>)
      requires |inputs| >= 2
      modifies this, operations
      ensures Value(Idle) == Continue(old(Value(PublishInterrupt(r))), inputs)
    {
      hide PutExec;
      ghost var w0 := Value(PublishInterrupt(r));
      assert Stepped(w0, inputs[0]) == Register(w0, PutExec(w0.execs, r, inputs[0].now, inputs[0].ioOk), r, Marking);
      var ok := PublishExecution(r, inputs[0]);
      if ok {
        active := Some(r);
        assert Value(Idle) == Stepped(w0, inputs[0]);
        IdleStays(Value(Idle), inputs[1..]);
      } else {
        assert Value(Marking) == Stepped(w0, inputs[0]);
        MarkAndStop(inputs[1..]);
      }
    }
  }

  // A failed publication leaves the records as they were.
  lemma AppendOnlyOnSuccess(execs: seq<Stored>, doc: Exec, i: Input)
    ensures !PutExec(execs, doc, i.now, i.ioOk).ok ==> PutExec(execs, doc, i.now, i.ioOk).store == execs
  {}

  function Proceeds(inputs: seq<Input>): seq<Event> {
    seq(|inputs|, k requires 0 <= k < |inputs| => Proceed(inputs[k].now, inputs[k].ioOk, inputs[k].answer))
  }

  lemma {:induction false} ContinueIsARun(w: World, inputs: seq<Input>)
    ensures Continue(w, inputs) == Run(w, Proceeds(inputs))
    decreases |inputs|
  {
    hide Next;
    if inputs != [] {
      var i := inputs[0];
      assert Proceeds(inputs)[0] == Proceed(i.now, i.ioOk, i.answer) && Proceeds(inputs)[1..] == Proceeds(inputs[1..]);
      ContinueIsARun(Stepped(w, i), inputs[1..]);
    }
  }

  // What the commands leave is what the state machine leaves after the same command and inputs, so every
  // theorem about its runs holds of the object between its commands.
  lemma CommandsAreRuns(w: World, binding: string, startedAt: nat, notice: Notice, lockPoisoned: bool, now: nat,
      inputs: seq<Input>)
    requires w.job.Idle?
    ensures Continue(LaunchCommand(w, binding, startedAt), inputs) ==
      Run(w, [Launch(binding, startedAt)] + Proceeds(inputs))
    ensures Continue(StatusCommand(w, notice, lockPoisoned, now), inputs) ==
      Run(w, [Status(notice, lockPoisoned, now)] + Proceeds(inputs))
    ensures Continue(InterruptCommand(w, lockPoisoned), inputs) == Run(w, [Interrupt(lockPoisoned)] + Proceeds(inputs))
  {
    CommandIsARun(w, Launch(binding, startedAt), inputs);
    CommandIsARun(w, Status(notice, lockPoisoned, now), inputs);
    CommandIsARun(w, Interrupt(lockPoisoned), inputs);
    hide LaunchCommand, StatusCommand, InterruptCommand, Continue, Run;
  }

  lemma CommandIsARun(w: World, e: Event, inputs: seq<Input>)
    ensures Continue(Next(w, e), inputs) == Run(w, [e] + Proceeds(inputs))
  {
    hide Next;
    var events := [e] + Proceeds(inputs);
    assert events[0] == e && events[1..] == Proceeds(inputs);
    ContinueIsARun(Next(w, e), inputs);
  }
}
