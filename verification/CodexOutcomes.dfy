/**
 How the commands of an execution end: the successful launch record by record, and a table of what each
 ending of a turn, and each failure of a launch, makes of receipt, record and Operation.
 */
module CodexOutcomes {
  import opened Basics
  import opened CodexRecords
  import opened CodexProtocol
  import opened CodexFacts
  import opened CodexTheorems
  import opened CodexControllers
  import Ops = Operations
  import Facts = OperationFacts
  import OperationEffects

  /* Steps, one input each. */

  function Steps(w: World, inputs: seq<Input>, k: nat): World
    requires k <= |inputs|
  {
    if k == 0 then w else Stepped(Steps(w, inputs, k - 1), inputs[k - 1])
  }

  lemma {:induction false} ContinueAfter(w: World, inputs: seq<Input>, k: nat)
    requires k <= |inputs|
    ensures Continue(w, inputs) == Continue(Steps(w, inputs, k), inputs[k..])
    decreases k
  {
    hide Stepped;
    if k == 0 {
      assert inputs[0..] == inputs;
    } else {
      ContinueAfter(w, inputs, k - 1);
      assert inputs[k - 1..][0] == inputs[k - 1] && inputs[k - 1..][1..] == inputs[k..];
    }
  }

  lemma EndsAfter(w: World, inputs: seq<Input>, k: nat)
    requires k <= |inputs| && Steps(w, inputs, k).job.Idle?
    ensures Continue(w, inputs) == Steps(w, inputs, k)
  {
    ContinueAfter(w, inputs, k);
    IdleStays(Steps(w, inputs, k), inputs[k..]);
  }

  /* The table of endings. */

  // What a wanted state makes of a closable Operation's execution: receipt, record, Operation.
  ghost predicate Table(wanted: ExecState, effect: EffectState, record: ExecState, op: Ops.Status) {
    || (wanted == Completed && effect == EffectSucceeded && record == Completed && op == Ops.Succeeded)
    || (wanted == Failed && effect == EffectFailed && record == Failed && op == Ops.Failed)
    || (wanted == Interrupted && effect == EffectPartial && record == Interrupted && op == Ops.Cancelled)
    || (wanted == OutcomeUnknown && effect == EffectUnknown && record == OutcomeUnknown && op == Ops.OutcomeUnknown)
  }

  ghost predicate Answers(wanted: ExecState, effect: EffectState) {
    || (wanted == Completed && effect == EffectSucceeded) || (wanted == Failed && effect == EffectFailed)
    || (wanted == Interrupted && effect == EffectPartial) || (wanted == OutcomeUnknown && effect == EffectUnknown)
  }

  ghost predicate Closes(record: ExecState, op: Ops.Status) {
    || (record == Completed && op == Ops.Succeeded) || (record == Failed && op == Ops.Failed)
    || (record == Interrupted && op == Ops.Cancelled) || (record == OutcomeUnknown && op == Ops.OutcomeUnknown)
  }

  lemma TableHolds(wanted: ExecState, effect: EffectState, record: ExecState, op: Ops.Status)
    requires Answers(wanted, effect) && Answers(record, effect) && Closes(record, op)
    ensures Table(wanted, effect, record, op) && record == wanted
  {}

  lemma AnswersOnce(wanted: ExecState, record: ExecState, effect: EffectState)
    requires Answers(wanted, effect) && Answers(record, effect)
    ensures record == wanted && wanted in {Completed, Failed, Interrupted, OutcomeUnknown}
  {}

  // The settled execution: one receipt, filed at `now`, one record after the one it is about, one status.
  ghost predicate EndedAs(w: World, r: Exec, wanted: ExecState, event: string, started: bool, now: nat) {
    var seen := now - now % 1_000_000;
    && w.job.Idle? && w.active.None? && w.execs != [] && w.receipt.Some? && Present(w)
    && Table(wanted, w.receipt.value.state, Last(w).state, CurrentStatus(w))
    && Filed(w.receipt.value, r, event, started, seen)
    && Last(w).revision == r.revision + 1 && Last(w).identity == r.identity
    && Last(w).thread == r.thread && Last(w).turn == r.turn && Last(w).sequence == r.sequence + 1
    && Last(w).updatedAt == seen && Last(w).finishedAt == Some(seen) && Last(w).receiptRef == w.receipt
    && Explained(Last(w))
  }

  ghost predicate Filed(receipt: Receipt, r: Exec, event: string, started: bool, seen: nat) {
    && receipt.subject == r && receipt.event == event && receipt.sourceEffectStarted == started
    && receipt.observedAt == seen
    && (receipt.state == EffectSucceeded ==> receipt.limitations == [])
    && (receipt.state == EffectFailed ==> receipt.limitations == ["codex_turn_failed"])
    && (receipt.state == EffectPartial ==> receipt.limitations == ["codex_turn_interrupted"])
    && (receipt.state == EffectUnknown ==> receipt.limitations == ["codex_turn_outcome_unknown"])
  }

  ghost predicate Explained(r: Exec) {
    && (r.state == Completed ==>
          r.lastEvent == TurnCompleted && r.ending == Ending(Some("Codex turn completed."), None, None, false, None))
    && (r.state == Failed ==>
          r.lastEvent == TurnFailed && r.ending == Ending(None, Some("CODEX_NOT_READY"),
            Some("Codex App Server reported a failed turn."), false, Some("inspect_failure_evidence")))
    && (r.state == Interrupted ==>
          r.lastEvent == TurnInterrupted && r.ending == Ending(None, None, None, false, Some("resume_or_reconcile")))
    && (r.state == OutcomeUnknown ==>
          r.lastEvent == UnknownOutcome && r.ending == Ending(None, None, None, true, Some("reconcile_before_retry")))
  }

  // The Operation is live, and under way where an unknown outcome is to be written to it.
  ghost predicate Closable(s: Ops.Status, wanted: ExecState) {
    s !in OperationEffects.CLOSING &&
    (wanted == OutcomeUnknown ==> s in {Ops.Starting, Ops.Running, Ops.Cancelling})
  }

  // The next `n` writes succeed, the first of them in a millisecond not before the start.
  ghost predicate Written(inputs: seq<Input>, from: nat, n: nat) {
    from + n <= |inputs| && forall k :: from <= k < from + n ==> inputs[k].ioOk
  }

  ghost predicate InTime(inputs: seq<Input>, k: nat, r: Exec) {
    k < |inputs| && r.identity.startedAt <= inputs[k].now - inputs[k].now % 1_000_000
  }

  // A call that updates the Operation, written.
  lemma CallMakes(w: World, m: Ops.Mutation, now: nat)
    requires Present(w) && Ops.MutateOp(w.store.memory.value.operations[w.opId], m, now).Updated?
    ensures var after := OnOperation(w.store, w.opId, m, now, true);
      && after.memory.Some? && w.opId in after.memory.value.operations
      && after.memory.value.operations[w.opId] ==
        Ops.MutateOp(w.store.memory.value.operations[w.opId], m, now).op
  {
    hide Ops.MutateOp;
  }

  lemma OperationEndsAs(w: World, r: Exec, now: nat)
    requires Present(w) && Closable(CurrentStatus(w), r.state) && Explained(r)
    requires r.state in {Completed, Failed, Interrupted, OutcomeUnknown}
    ensures var done := WithStore(w, Reconciled(w, r, now, true), Idle);
      Present(done) && Closes(r.state, CurrentStatus(done))
  {
    var op := w.store.memory.value.operations[w.opId];
    var plan := ReconcilePlan(op.status, r);
    PlanEndsAs(op, r, now);
    hide ReconcilePlan, Ops.MutateOp, OnOperation, Closable, Explained;
    CallMakes(w, plan.m, now);
  }

  lemma PlanEndsAs(op: Ops.Operation, r: Exec, now: nat)
    requires Closable(op.status, r.state) && Explained(r)
    requires r.state in {Completed, Failed, Interrupted, OutcomeUnknown}
    ensures var plan := ReconcilePlan(op.status, r);
      && plan.CallStore? && Ops.MutateOp(op, plan.m, now).Updated?
      && Closes(r.state, Ops.MutateOp(op, plan.m, now).op.status)
  {
    hide Ops.TransitionOp, Ops.CompleteOp;
    match ReconcilePlan(op.status, r).m
    case Transition(next, detail) => OperationEffects.TransitionEffect(op, next, detail, now);
    case Complete(Success(value)) => OperationEffects.CompleteSuccessEffect(op, value, now);
    case Complete(Failure(e)) => OperationEffects.CompleteFailureEffect(op, e, now);
  }

  lemma ConcludedAs(r: Exec, receipt: Receipt)
    ensures var done := Concluded(r, receipt);
      && Explained(done) && done.revision == r.revision + 1 && done.identity == r.identity && done.thread == r.thread
      && done.turn == r.turn && done.sequence == r.sequence + 1 && done.updatedAt == receipt.observedAt
      && done.finishedAt == Some(receipt.observedAt) && done.receiptRef == Some(receipt)
      && Answers(done.state, receipt.state)
  {}

  lemma FiledAs(r: Exec, effect: EffectState, event: string, now: nat, started: bool)
    ensures var receipt := NewReceipt(r, effect, event, now, started);
      Filed(receipt, r, event, started, now - now % 1_000_000) && receipt.state == effect
  {}

  // Receipt and terminal record are written; what is left is the Operation.
  ghost predicate AboutToClose(w: World, last: Exec, receipt: Receipt) {
    w.job == Reconciling(last) && w.execs != [] && Last(w) == last && w.receipt == Some(receipt) && w.active.None?
  }

  lemma RecordsWritten(w: World, r: Exec, wanted: ExecState, effect: EffectState, event: string, started: bool,
      i: Input, j: Input)
    requires Good(w) && w.job == FinReceipt(r, wanted, event, started) && w.receipt.None? && w.store.memory.Some?
    requires Answers(wanted, effect) && i.ioOk && j.ioOk && r.identity.startedAt <= i.now - i.now % 1_000_000
    ensures var receipt := NewReceipt(r, effect, event, i.now, started);
      var settled := Stepped(Stepped(w, i), j);
      AboutToClose(settled, Concluded(r, receipt), receipt) && settled.store == w.store && settled.opId == w.opId
  {
    FinReceiptTaken(w, r, wanted, effect, event, started, i);
    hide Good, NewReceipt, Concluded, Stepped;
    var receipt := NewReceipt(r, effect, event, i.now, started);
    FinExecTaken(Stepped(w, i), Concluded(r, receipt), j);
  }

  lemma ClosedAs(w: World, r: Exec, wanted: ExecState, effect: EffectState, event: string, started: bool, now: nat,
      k: Input)
    requires Answers(wanted, effect) && Present(w) && Closable(CurrentStatus(w), wanted) && k.ioOk
    requires var receipt := NewReceipt(r, effect, event, now, started);
      AboutToClose(w, Concluded(r, receipt), receipt)
    ensures EndedAs(Stepped(w, k), r, wanted, event, started, now)
  {
    hide NewReceipt, Concluded, Stepped, Filed, Explained, Closable, Closes, Answers, Table, Reconciled, EndedAs;
    var receipt := NewReceipt(r, effect, event, now, started);
    var last := Concluded(r, receipt);
    FiledAs(r, effect, event, now, started);
    ConcludedAs(r, receipt);
    AnswersOnce(wanted, last.state, effect);
    OperationEndsAs(w, last, k.now);
    ReconcilingStep(w, last, k);
    CloseUp(Stepped(w, k), r, receipt, wanted, effect, event, started, now);
  }

  lemma CloseUp(w: World, r: Exec, receipt: Receipt, wanted: ExecState, effect: EffectState, event: string,
      started: bool, now: nat)
    requires w.job.Idle? && w.active.None? && w.execs != [] && w.receipt == Some(receipt) && Present(w)
    requires Last(w) == Concluded(r, receipt) && receipt == NewReceipt(r, effect, event, now, started)
    requires Answers(wanted, effect) && Closes(Last(w).state, CurrentStatus(w))
    ensures EndedAs(w, r, wanted, event, started, now)
  {
    hide NewReceipt, Concluded, Filed, Explained, Closes, Answers, Table;
    FiledAs(r, effect, event, now, started);
    ConcludedAs(r, receipt);
    TableHolds(wanted, effect, Last(w).state, CurrentStatus(w));
  }

  // A finalization whose writes succeed, of an Operation that can be closed.
  lemma FinalizedAs(w: World, r: Exec, wanted: ExecState, effect: EffectState, event: string, started: bool,
      inputs: seq<Input>)
    requires Good(w) && w.job == FinReceipt(r, wanted, event, started) && w.receipt.None?
    requires Present(w) && Closable(CurrentStatus(w), wanted) && Answers(wanted, effect)
    requires Written(inputs, 0, 3) && InTime(inputs, 0, r)
    ensures EndedAs(Continue(w, inputs), r, wanted, event, started, inputs[0].now)
  {
    hide Good, NewReceipt, Concluded, Stepped, Continue, Closable, AboutToClose, EndedAs;
    RecordsWritten(w, r, wanted, effect, event, started, inputs[0], inputs[1]);
    ClosedAs(Stepped(Stepped(w, inputs[0]), inputs[1]), r, wanted, effect, event, started, inputs[0].now, inputs[2]);
    EndedIsIdle(Stepped(Stepped(Stepped(w, inputs[0]), inputs[1]), inputs[2]), r, wanted, event, started,
      inputs[0].now);
    ThirdStep(w, inputs);
  }

  lemma EndedIsIdle(w: World, r: Exec, wanted: ExecState, event: string, started: bool, now: nat)
    requires EndedAs(w, r, wanted, event, started, now)
    ensures w.job.Idle?
  {}

  lemma ThirdStep(w: World, inputs: seq<Input>)
    requires |inputs| >= 3
    requires Stepped(Stepped(Stepped(w, inputs[0]), inputs[1]), inputs[2]).job.Idle?
    ensures Continue(w, inputs) == Stepped(Stepped(Stepped(w, inputs[0]), inputs[1]), inputs[2])
  {
    hide Stepped;
    assert Steps(w, inputs, 1) == Stepped(Steps(w, inputs, 0), inputs[0]);
    assert Steps(w, inputs, 2) == Stepped(Steps(w, inputs, 1), inputs[1]);
    EndsAfter(w, inputs, 3);
  }

  lemma FinReceiptTaken(w: World, r: Exec, wanted: ExecState, effect: EffectState, event: string, started: bool,
      i: Input)
    requires Good(w) && w.job == FinReceipt(r, wanted, event, started) && w.receipt.None? && w.store.memory.Some?
    requires RequestedEffect(wanted) == Some(effect) && i.ioOk && r.identity.startedAt <= i.now - i.now % 1_000_000
    ensures var receipt := NewReceipt(r, effect, event, i.now, started);
      var filed := Stepped(w, i);
      && Good(filed) && filed.receipt == Some(receipt) && filed.job == FinExec(Concluded(r, receipt))
      && filed.store == w.store && filed.opId == w.opId && filed.active.None? && filed.execs == w.execs
  {
    assert w.active.None?;
    hide Good, After, FinReceiptStep, Concluded, NewReceipt, Next, Millis;
    NextKeeps(w, Proceed(i.now, i.ioOk, i.answer));
    FinReceiptCalled(w, r, wanted, event, started, i);
    ReceiptStepDecides(w, r, wanted, effect, event, started, i.now);
    SeenAt(r, effect, event, i.now, started);
  }

  lemma SeenAt(r: Exec, effect: EffectState, event: string, now: nat, started: bool)
    ensures NewReceipt(r, effect, event, now, started).observedAt == now - now % 1_000_000
  {}

  lemma FinReceiptCalled(w: World, r: Exec, wanted: ExecState, event: string, started: bool, i: Input)
    requires w.job == FinReceipt(r, wanted, event, started) && w.store.memory.Some?
    ensures Stepped(w, i) == FinReceiptStep(w, r, wanted, event, started, i.now, i.ioOk)
  {
    hide FinReceiptStep;
  }

  lemma FinExecTaken(w: World, r: Exec, i: Input)
    requires Good(w) && w.job == FinExec(r) && w.active.None? && w.store.memory.Some? && i.ioOk
    ensures var done := Stepped(w, i);
      && Good(done) && done.job == Reconciling(r) && done.execs != [] && Last(done) == r && done.receipt == w.receipt
      && done.store == w.store && done.opId == w.opId && done.active.None?
  {
    hide Good, After, PutExec;
    NextKeeps(w, Proceed(i.now, i.ioOk, i.answer));
    ConclusionStepSettles(w, r, i.now);
  }

  // A receipt or a terminal record that cannot be written stops the finalization where it is.
  lemma FailedWritesStop(w: World, inputs: seq<Input>)
    requires Good(w) && w.store.memory.Some? && |inputs| >= 1 && !inputs[0].ioOk
    requires w.job.FinExec? || (w.job.FinReceipt? && w.receipt.None?)
    ensures Continue(w, inputs) == ToJob(w, Idle)
  {
    assert ExecsInv(w) && (w.job.FinExec? ==> w.job.r.revision == |w.execs| + 1);
    hide Good, ExecsInv, Continue, ReceiptMatches, NewReceipt, PutExec, Concluded;
    var i := inputs[0];
    if w.job.FinReceipt? {
      assert Stepped(w, i) == ToJob(w, Idle);
    } else {
      PutAppends(w, w.job.r, i.now, false);
      assert Stepped(w, i) == ToJob(w, Idle);
    }
    FirstStep(w, inputs);
  }

  /* Status calls on a registered execution. */

  ghost predicate Registered(w: World, record: Exec) {
    Good(w) && w.job.Idle? && w.active == Some(record) && Present(w)
  }

  lemma RegisteredIsLatest(w: World, record: Exec)
    requires Registered(w, record)
    ensures w.receipt.None? && Latest(w.execs) == Some(record) && !TerminalState(record.state)
  {
    LatestIsLast(w);
  }

  // The command goes straight to finalization.
  ghost predicate GivesUp(w: World, next: World, r: Exec, wanted: ExecState, event: string, started: bool) {
    && next.job == FinReceipt(r, wanted, event, started)
    && next.store == w.store && next.opId == w.opId && next.receipt == w.receipt
  }

  lemma UnknownCloses(s: Ops.Status)
    requires s in {Ops.Starting, Ops.Running, Ops.Cancelling}
    ensures Closable(s, OutcomeUnknown) && Answers(OutcomeUnknown, EffectUnknown)
  {}

  lemma GivenUpAs(w: World, command: Event, r: Exec, wanted: ExecState, effect: EffectState, event: string,
      started: bool, inputs: seq<Input>)
    requires Good(w) && Present(w) && w.receipt.None? && Closable(CurrentStatus(w), wanted) && Answers(wanted, effect)
    requires GivesUp(w, Next(w, command), r, wanted, event, started)
    requires Written(inputs, 0, 3) && InTime(inputs, 0, r)
    ensures EndedAs(Continue(Next(w, command), inputs), r, wanted, event, started, inputs[0].now)
  {
    hide Good, After, Next, EndedAs, Continue, Closable, Answers;
    NextKeeps(w, command);
    FinalizedAs(Next(w, command), r, wanted, effect, event, started, inputs);
  }

  // The notice that the turn has ended: each ending gives its own receipt, record and Operation.
  lemma TurnEndsAs(w: World, record: Exec, end: TurnEnd, now: nat, inputs: seq<Input>)
    requires Registered(w, record) && Written(inputs, 0, 3) && InTime(inputs, 0, record)
    requires CurrentStatus(w) !in OperationEffects.CLOSING
    requires end == EndOther ==> CurrentStatus(w) in {Ops.Starting, Ops.Running, Ops.Cancelling}
    ensures var done := Continue(StatusCommand(w, TurnEnded(end), false, now), inputs);
      && (end == EndCompleted ==> EndedAs(done, record, Completed, "turn_completed", true, inputs[0].now))
      && (end == EndFailed ==> EndedAs(done, record, Failed, "turn_completed", true, inputs[0].now))
      && (end == EndInterrupted ==> EndedAs(done, record, Interrupted, "turn_completed", true, inputs[0].now))
      && (end == EndOther ==> EndedAs(done, record, OutcomeUnknown, "turn_completed", true, inputs[0].now))
  {
    hide Good, EndedAs, Continue, Next, StatusCommand, GivesUp;
    var command := Status(TurnEnded(end), false, now);
    RegisteredIsLatest(w, record);
    TurnEndCommand(w, record, end, now);
    match end
    case EndCompleted => GivenUpAs(w, command, record, Completed, EffectSucceeded, "turn_completed", true, inputs);
    case EndFailed => GivenUpAs(w, command, record, Failed, EffectFailed, "turn_completed", true, inputs);
    case EndInterrupted => GivenUpAs(w, command, record, Interrupted, EffectPartial, "turn_completed", true, inputs);
    case EndOther => GivenUpAs(w, command, record, OutcomeUnknown, EffectUnknown, "turn_completed", true, inputs);
  }

  lemma TurnEndCommand(w: World, record: Exec, end: TurnEnd, now: nat)
    requires Registered(w, record)
    ensures var next := Next(w, Status(TurnEnded(end), false, now));
      && next == StatusCommand(w, TurnEnded(end), false, now)
      && (end == EndCompleted ==> GivesUp(w, next, record, Completed, "turn_completed", true))
      && (end == EndFailed ==> GivesUp(w, next, record, Failed, "turn_completed", true))
      && (end == EndInterrupted ==> GivesUp(w, next, record, Interrupted, "turn_completed", true))
      && (end == EndOther ==> GivesUp(w, next, record, OutcomeUnknown, "turn_completed", true))
  {
    RegisteredIsLatest(w, record);
    hide Good, Latest;
  }

  // A name the App Server may report: letters, digits and four marks, at most 128 of them.
  ghost predicate Reportable(text: string) {
    && 0 < |text| <= 128
    && forall i :: 0 <= i < |text| ==>
      'a' <= text[i] <= 'z' || 'A' <= text[i] <= 'Z' || '0' <= text[i] <= '9' || text[i] in {'-', '_', '.', '/'}
  }

  lemma NotificationSeals(w: World, record: Exec, text: string, now: nat)
    requires Registered(w, record)
    ensures ShapeOk(WithNotification(record, text, now)) <==> record.identity.startedAt <= now && Reportable(text)
  {
    assert record.state.Running? || record.state.InterruptRequested?;
    assert BoundedToken(text, 128) <==> Reportable(text);
  }

  // A poisoned registry, a lost connection, or a report that cannot be recorded: the outcome is unknown.
  lemma StatusGivesUpAs(w: World, record: Exec, notice: Notice, lockPoisoned: bool, now: nat, inputs: seq<Input>)
    requires Registered(w, record) && Written(inputs, 0, 3) && InTime(inputs, 0, record)
    requires CurrentStatus(w) in {Ops.Starting, Ops.Running, Ops.Cancelling}
    requires || lockPoisoned || notice == ConnectionLost
             || (notice.OtherNotice? && !(record.identity.startedAt <= now && Reportable(notice.text)))
    ensures EndedAs(Continue(StatusCommand(w, notice, lockPoisoned, now), inputs), record, OutcomeUnknown,
      if lockPoisoned then "active_execution_lock_outcome_unknown"
      else if notice == ConnectionLost then "app_server_lost_outcome_unknown"
      else "protocol_event_outcome_unknown", true, inputs[0].now)
  {
    var event := if lockPoisoned then "active_execution_lock_outcome_unknown"
      else if notice == ConnectionLost then "app_server_lost_outcome_unknown" else "protocol_event_outcome_unknown";
    var command := Status(notice, lockPoisoned, now);
    hide Good, EndedAs, Continue, Next, StatusCommand, GivesUp, Latest, Closable, Answers, Written, InTime, Reportable;
    StatusGivesUp(w, record, notice, lockPoisoned, now, event);
    RegisteredIsLatest(w, record);
    UnknownCloses(CurrentStatus(w));
    GivenUpAs(w, command, record, OutcomeUnknown, EffectUnknown, event, true, inputs);
  }

  lemma StatusGivesUp(w: World, record: Exec, notice: Notice, lockPoisoned: bool, now: nat, event: string)
    requires Registered(w, record)
    requires || lockPoisoned || notice == ConnectionLost
             || (notice.OtherNotice? && !(record.identity.startedAt <= now && Reportable(notice.text)))
    requires event == if lockPoisoned then "active_execution_lock_outcome_unknown"
      else if notice == ConnectionLost then "app_server_lost_outcome_unknown" else "protocol_event_outcome_unknown"
    ensures var next := Next(w, Status(notice, lockPoisoned, now));
      next == StatusCommand(w, notice, lockPoisoned, now) && GivesUp(w, next, record, OutcomeUnknown, event, true)
  {
    hide Good, Latest, ShapeOk, WithNotification, Reportable;
    RegisteredIsLatest(w, record);
    if notice.OtherNotice? { NotificationSeals(w, record, notice.text, now); }
  }

  // Nothing to report: nothing changes.
  lemma TimeoutChangesNothing(w: World, record: Exec, now: nat, inputs: seq<Input>)
    requires Registered(w, record)
    ensures Continue(StatusCommand(w, Timeout, false, now), inputs) == w
  {
    RegisteredIsLatest(w, record);
    assert StatusCommand(w, Timeout, false, now) == w by { hide Good, Latest; }
    IdleStays(w, inputs);
  }

  // The next record of a registered execution is written and registered.
  ghost predicate Recorded(w: World, done: World, record: Exec, state: ExecState, event: EventKind, now: nat) {
    && done.job.Idle? && done.receipt.None? && |done.execs| == |w.execs| + 1 && w.execs <= done.execs
    && done.active == Some(Last(done)) && NextRecord(record, Last(done), state, record.thread, record.turn, event, now)
  }

  ghost predicate NextRecord(a: Exec, b: Exec, state: ExecState, thread: Option<string>, turn: Option<string>,
      event: EventKind, now: nat) {
    && b.identity == a.identity && b.revision == a.revision + 1 && b.sequence == a.sequence + 1
    && b.state == state && b.thread == thread && b.turn == turn && b.lastEvent == event && b.updatedAt == now
    && b.finishedAt.None? && b.receiptRef.None? && b.ending == a.ending
  }

  lemma RegisteredRecord(w: World, record: Exec)
    requires Registered(w, record)
    ensures record.finishedAt.None? && record.receiptRef.None?
    ensures record.revision == |w.execs| && ExecsInv(w) && Contiguous(w.execs) && w.execs != []
  {}

  lemma NotificationIsRecorded(w: World, record: Exec, text: string, now: nat, inputs: seq<Input>)
    requires Registered(w, record) && record.identity.startedAt <= now && Reportable(text) && Written(inputs, 0, 1)
    ensures var done := Continue(StatusCommand(w, OtherNotice(text), false, now), inputs);
      Recorded(w, done, record, record.state, Notified(text), now) && done.store == w.store
  {
    hide Good, Latest, ShapeOk, Reportable, ExecsInv, StatusCommand, Stepped, Continue, PutExec;
    RegisteredIsLatest(w, record);
    RegisteredRecord(w, record);
    NotificationTold(w, record, text, now);
    var next := WithNotification(record, text, now);
    var told := ToJob(w, PublishEvent(next, "event_publication_outcome_unknown"));
    EventStep(told, next, inputs[0]);
    PutAppends(w, next, inputs[0].now, true);
    FirstStep(told, inputs);
  }

  lemma NotificationTold(w: World, record: Exec, text: string, now: nat)
    requires Registered(w, record) && record.identity.startedAt <= now && Reportable(text)
    ensures var told := StatusCommand(w, OtherNotice(text), false, now);
      && told == ToJob(w, PublishEvent(WithNotification(record, text, now), "event_publication_outcome_unknown"))
      && told == Next(w, Status(OtherNotice(text), false, now))
  {
    hide Good, Latest, ShapeOk, Reportable;
    RegisteredIsLatest(w, record);
    NotificationSeals(w, record, text, now);
  }

  lemma EventStep(w: World, r: Exec, i: Input)
    requires w.job == PublishEvent(r, "event_publication_outcome_unknown") && w.store.memory.Some?
    ensures Stepped(w, i) == PublishEventStep(w, r, "event_publication_outcome_unknown", i.now, i.ioOk)
  {
    hide PublishEventStep;
  }

  lemma FirstStep(w: World, inputs: seq<Input>)
    requires |inputs| >= 1 && Stepped(w, inputs[0]).job.Idle?
    ensures Continue(w, inputs) == Stepped(w, inputs[0])
  {
    hide Stepped;
    assert Steps(w, inputs, 1) == Stepped(Steps(w, inputs, 0), inputs[0]);
    EndsAfter(w, inputs, 1);
  }

  lemma LostNotificationEndsAs(w: World, record: Exec, text: string, now: nat, inputs: seq<Input>)
    requires Registered(w, record) && record.identity.startedAt <= now && Reportable(text)
    requires CurrentStatus(w) in {Ops.Starting, Ops.Running, Ops.Cancelling}
    requires |inputs| >= 4 && !inputs[0].ioOk && Written(inputs, 1, 3) && InTime(inputs, 1, record)
    ensures EndedAs(Continue(StatusCommand(w, OtherNotice(text), false, now), inputs), record, OutcomeUnknown,
      "event_publication_outcome_unknown", true, inputs[1].now)
  {
    hide Good, EndedAs, Continue, Next, Stepped, StatusCommand, Closable, Answers, Reportable, Advances;
    var told := StatusCommand(w, OtherNotice(text), false, now);
    var lost := Stepped(told, inputs[0]);
    NotificationLost(w, record, text, now, inputs[0]);
    UnknownCloses(CurrentStatus(w));
    assert Written(inputs[1..], 0, 3) && InTime(inputs[1..], 0, record);
    FinalizedAs(lost, record, OutcomeUnknown, EffectUnknown, "event_publication_outcome_unknown", true, inputs[1..]);
    OneStep(told, inputs);
  }

  lemma NotificationLost(w: World, record: Exec, text: string, now: nat, i: Input)
    requires Registered(w, record) && record.identity.startedAt <= now && Reportable(text) && !i.ioOk
    ensures var lost := Stepped(StatusCommand(w, OtherNotice(text), false, now), i);
      && Good(lost) && lost.job == FinReceipt(record, OutcomeUnknown, "event_publication_outcome_unknown", true)
      && lost.store == w.store && lost.opId == w.opId && lost.receipt.None?
  {
    hide Good, Latest, ShapeOk, Reportable, ExecsInv, After, Next, StatusCommand, PutExec;
    RegisteredIsLatest(w, record);
    RegisteredRecord(w, record);
    NotificationTold(w, record, text, now);
    var next := WithNotification(record, text, now);
    var command := Status(OtherNotice(text), false, now);
    var told := Next(w, command);
    NextKeeps(w, command);
    NextKeeps(told, Proceed(i.now, false, i.answer));
    PutAppends(w, next, i.now, false);
    EventStep(told, next, i);
  }

  lemma OneStep(w: World, inputs: seq<Input>)
    requires |inputs| >= 1
    ensures Continue(w, inputs) == Continue(Stepped(w, inputs[0]), inputs[1..])
  {
    hide Stepped;
  }

  /* Commands on an execution no handle is registered for. */

  ghost predicate Abandoned(w: World) {
    Good(w) && w.job.Idle? && w.execs != [] && !Settled(w) && w.active.None? && w.receipt.None? && Present(w)
  }

  // Whichever command finds it first ends it as unknown, and says whether the turn may have started.
  lemma AbandonedEndsAs(w: World, startedAt: nat, notice: Notice, lockPoisoned: bool, now: nat, inputs: seq<Input>)
    requires Abandoned(w) && Written(inputs, 0, 3) && InTime(inputs, 0, Last(w))
    requires CurrentStatus(w) in {Ops.Starting, Ops.Running, Ops.Cancelling}
    ensures var started := Last(w).turn.Some? || Last(w).lastEvent == TurnStartRequested;
      var binding := Last(w).identity.binding;
      && EndedAs(Continue(StatusCommand(w, notice, lockPoisoned, now), inputs), Last(w), OutcomeUnknown,
           "controller_restarted_outcome_unknown", started, inputs[0].now)
      && EndedAs(Continue(InterruptCommand(w, lockPoisoned), inputs), Last(w), OutcomeUnknown,
           "interrupt_after_controller_restart", started, inputs[0].now)
      && EndedAs(Continue(LaunchCommand(w, binding, startedAt), inputs), Last(w), OutcomeUnknown,
           "launch_retry_requires_reconciliation", started, inputs[0].now)
  {
    hide Good, EndedAs, Continue, Next, StatusCommand, InterruptCommand, LaunchCommand, GivesUp, Closable, Answers,
      Written, InTime;
    var r := Last(w);
    var started := r.turn.Some? || r.lastEvent == TurnStartRequested;
    AbandonedCommands(w, startedAt, notice, lockPoisoned, now);
    UnknownCloses(CurrentStatus(w));
    GivenUpAs(w, Status(notice, lockPoisoned, now), r, OutcomeUnknown, EffectUnknown,
      "controller_restarted_outcome_unknown", started, inputs);
    GivenUpAs(w, Interrupt(lockPoisoned), r, OutcomeUnknown, EffectUnknown, "interrupt_after_controller_restart",
      started, inputs);
    GivenUpAs(w, Launch(r.identity.binding, startedAt), r, OutcomeUnknown, EffectUnknown,
      "launch_retry_requires_reconciliation", started, inputs);
  }

  lemma AbandonedCommands(w: World, startedAt: nat, notice: Notice, lockPoisoned: bool, now: nat)
    requires Abandoned(w) && CurrentStatus(w) in {Ops.Starting, Ops.Running, Ops.Cancelling}
    ensures var started := Last(w).turn.Some? || Last(w).lastEvent == TurnStartRequested;
      var status := Next(w, Status(notice, lockPoisoned, now));
      var interrupt := Next(w, Interrupt(lockPoisoned));
      var launch := Next(w, Launch(Last(w).identity.binding, startedAt));
      && status == StatusCommand(w, notice, lockPoisoned, now) && interrupt == InterruptCommand(w, lockPoisoned)
      && launch == LaunchCommand(w, Last(w).identity.binding, startedAt)
      && GivesUp(w, status, Last(w), OutcomeUnknown, "controller_restarted_outcome_unknown", started)
      && GivesUp(w, interrupt, Last(w), OutcomeUnknown, "interrupt_after_controller_restart", started)
      && GivesUp(w, launch, Last(w), OutcomeUnknown, "launch_retry_requires_reconciliation", started)
  {
    assert ExecsInv(w);
    hide Good, Latest, ExecsInv, StatusCommand, InterruptCommand, LaunchCommand, MayHaveStarted, GivesUp, Next;
    CommandsAreTaken(w, Last(w).identity.binding, startedAt, notice, lockPoisoned, now);
    LatestIsLast(w);
    AbandonedStatus(w, notice, lockPoisoned, now);
    AbandonedInterrupt(w, lockPoisoned);
    AbandonedLaunch(w, startedAt);
    assert MayHaveStarted(Last(w)) == (Last(w).turn.Some? || Last(w).lastEvent == TurnStartRequested) by {
      MarkedIs(Last(w));
    }
  }

  lemma CommandsAreTaken(w: World, binding: string, startedAt: nat, notice: Notice, lockPoisoned: bool, now: nat)
    requires w.job.Idle?
    ensures Next(w, Status(notice, lockPoisoned, now)) == StatusCommand(w, notice, lockPoisoned, now)
    ensures Next(w, Interrupt(lockPoisoned)) == InterruptCommand(w, lockPoisoned)
    ensures Next(w, Launch(binding, startedAt)) == LaunchCommand(w, binding, startedAt)
  {
    hide StatusCommand, InterruptCommand, LaunchCommand, ProceedStep;
  }

  lemma MarkedIs(r: Exec)
    ensures MayHaveStarted(r) == (r.turn.Some? || r.lastEvent == TurnStartRequested)
  {}

  lemma AbandonedStatus(w: World, notice: Notice, lockPoisoned: bool, now: nat)
    requires Abandoned(w) && Latest(w.execs) == Some(Last(w))
    ensures GivesUp(w, StatusCommand(w, notice, lockPoisoned, now), Last(w), OutcomeUnknown,
      "controller_restarted_outcome_unknown", MayHaveStarted(Last(w)))
  {
    hide Good, Latest, MayHaveStarted;
  }

  lemma AbandonedInterrupt(w: World, lockPoisoned: bool)
    requires Abandoned(w) && Latest(w.execs) == Some(Last(w))
    ensures GivesUp(w, InterruptCommand(w, lockPoisoned), Last(w), OutcomeUnknown,
      "interrupt_after_controller_restart", MayHaveStarted(Last(w)))
  {
    hide Good, Latest, MayHaveStarted;
  }

  lemma AbandonedLaunch(w: World, startedAt: nat)
    requires Abandoned(w) && Latest(w.execs) == Some(Last(w))
    requires CurrentStatus(w) in {Ops.Starting, Ops.Running, Ops.Cancelling}
    ensures GivesUp(w, LaunchCommand(w, Last(w).identity.binding, startedAt), Last(w), OutcomeUnknown,
      "launch_retry_requires_reconciliation", MayHaveStarted(Last(w)))
  {
    hide Good, Latest, MayHaveStarted;
  }

  // A launch is refused, and nothing changes, where the approval is no longer good, the scope is another
  // one, or the execution is registered.
  lemma RefusedLaunchChangesNothing(w: World, binding: string, startedAt: nat, inputs: seq<Input>)
    requires Good(w) && w.job.Idle?
    requires || !Present(w)
             || CurrentStatus(w) in {Ops.Received, Ops.Resolving, Ops.Denied, Ops.Expired}
             || (w.execs != [] && Last(w).identity.binding != binding)
             || w.active.Some?
    ensures Continue(LaunchCommand(w, binding, startedAt), inputs) == w
  {
    hide Good, Continue, LaunchCommand;
    LaunchRefused(w, binding, startedAt);
    IdleStays(w, inputs);
  }

  lemma LaunchRefused(w: World, binding: string, startedAt: nat)
    requires Good(w)
    requires || !Present(w)
             || CurrentStatus(w) in {Ops.Received, Ops.Resolving, Ops.Denied, Ops.Expired}
             || (w.execs != [] && Last(w).identity.binding != binding)
             || w.active.Some?
    ensures LaunchCommand(w, binding, startedAt) == w
  {
    hide ReceiptInv, ActiveInv, TurnInv, StoreInv, JobInv, Latest, ExecsInv, FirstRecord, ToFinalize;
    ActiveIsNewest(w);
    hide Good, Settled;
    LatestIsLast(w);
  }

  // Any command on a settled execution closes its Operation as the terminal record says, and no more.
  lemma SettledIsReconciled(w: World, startedAt: nat, notice: Notice, lockPoisoned: bool, now: nat, inputs: seq<Input>)
    requires Good(w) && w.job.Idle? && Settled(w) && Present(w) && Written(inputs, 0, 1)
    requires Closable(CurrentStatus(w), Last(w).state)
    ensures forall done | || done == Continue(StatusCommand(w, notice, lockPoisoned, now), inputs)
        || done == Continue(InterruptCommand(w, lockPoisoned), inputs)
        || (CurrentStatus(w) in {Ops.ApprovalWait, Ops.Queued, Ops.Starting, Ops.Running, Ops.Cancelling}
            && done == Continue(LaunchCommand(w, Last(w).identity.binding, startedAt), inputs)) ::
      && done.job.Idle? && done.execs == w.execs && done.receipt == w.receipt && done.active.None?
      && Present(done) && Closes(Last(w).state, CurrentStatus(done))
  {
    hide Good, Latest, Closable, Closes, Explained, Reconciled, Stepped, Continue, StatusCommand, InterruptCommand,
      LaunchCommand;
    var r := Last(w);
    var asked := ToJob(w, Reconciling(r));
    SettledCommands(w, startedAt, notice, lockPoisoned, now);
    SettledRecord(w);
    ReconcilingStep(asked, r, inputs[0]);
    OperationEndsAs(asked, r, inputs[0].now);
    FirstStep(asked, inputs);
  }

  lemma SettledCommands(w: World, startedAt: nat, notice: Notice, lockPoisoned: bool, now: nat)
    requires Good(w) && w.job.Idle? && Settled(w) && Present(w)
    ensures var asked := ToJob(w, Reconciling(Last(w)));
      && StatusCommand(w, notice, lockPoisoned, now) == asked && InterruptCommand(w, lockPoisoned) == asked
      && (CurrentStatus(w) in {Ops.ApprovalWait, Ops.Queued, Ops.Starting, Ops.Running, Ops.Cancelling} ==>
            LaunchCommand(w, Last(w).identity.binding, startedAt) == asked)
  {
    LatestIsLast(w);
    SettledRecord(w);
    hide Good, Latest, Explained;
  }

  lemma SettledRecord(w: World)
    requires Good(w) && Settled(w)
    ensures Explained(Last(w)) && Last(w).state in {Completed, Failed, Interrupted, OutcomeUnknown} && w.active.None?
  {
    ConcludedAs(w.receipt.value.subject, w.receipt.value);
  }

  // A crash leaves the documents and forgets the handle and the command in progress.
  lemma CrashForgets(w: World, at: int, writeOk: bool)
    ensures var after := Next(w, Crash(at, writeOk));
      after.job == Idle && after.active == None && after.execs == w.execs && after.receipt == w.receipt
  {}

  /* Interrupt. */

  // The Operation moves, where it may.
  lemma MoveTakes(w: World, to: Ops.Status, detail: string, next: Job, otherwise: Job, i: Input)
    requires Present(w)
    ensures var moved := Move(w, to, detail, i.now, i.ioOk, next, otherwise);
      var may := to in OperationEffects.Successors(CurrentStatus(w));
      && Present(moved) && CurrentStatus(moved) == (if may then to else CurrentStatus(w))
      && moved.job == (if may && i.ioOk then next else otherwise)
  {
    OperationEffects.TransitionEffect(w.store.memory.value.operations[w.opId], to, detail, i.now);
    hide Ops.TransitionOp, OperationEffects.Successors, OperationEffects.OneEvent;
  }

  // What `mark_operation_outcome_unknown` makes of the Operation.
  ghost predicate MarkedAs(before: Ops.Status, after: Ops.Status) {
    after ==
      if before in {Ops.Running, Ops.Cancelling} then Ops.OutcomeUnknown
      else if before in OperationEffects.CLOSING then before
      else Ops.Failed
  }

  lemma MarkTakes(w: World, i: Input)
    requires Present(w) && w.job.Marking? && i.ioOk
    ensures var done := Stepped(w, i);
      && done.job.Idle? && done.execs == w.execs && done.active == w.active && done.receipt == w.receipt
      && Present(done) && MarkedAs(CurrentStatus(w), CurrentStatus(done))
      && (CurrentStatus(done) == Ops.Failed && CurrentStatus(w) != Ops.Failed ==>
            done.store.memory.value.operations[w.opId].error ==
              Some(Ops.OpError("TOOL_OUTCOME_UNKNOWN", "The Codex operation outcome could not be reconciled.", false)))
  {
    var op := w.store.memory.value.operations[w.opId];
    var report := FailureReport("TOOL_OUTCOME_UNKNOWN", "The Codex operation outcome could not be reconciled.");
    assert Stepped(w, i) == WithStore(w, Marked(w, i.now, i.ioOk), Idle);
    hide Stepped, Ops.TransitionOp, Ops.CompleteOp, OnOperation, OperationEffects.OneEvent, Ops.NormalizedError;
    if op.status in {Ops.Running, Ops.Cancelling} {
      OperationEffects.TransitionEffect(op, Ops.OutcomeUnknown, "codex_outcome_unknown", i.now);
      CallMakes(w, Ops.Transition(Ops.OutcomeUnknown, "codex_outcome_unknown"), i.now);
    } else if op.status !in OperationEffects.CLOSING {
      OperationEffects.CompleteFailureEffect(op, report.error, i.now);
      OperationEffects.NormalizedErrorEffect(report.error);
      CallMakes(w, Ops.Complete(report), i.now);
    }
  }

  // A registered execution whose Operation is running is interrupted: the Operation is cancelling, and the
  // record says that an interrupt was asked for.
  lemma InterruptIsRecorded(w: World, record: Exec, id: string, inputs: seq<Input>)
    requires Registered(w, record) && CurrentStatus(w) == Ops.Running && Written(inputs, 0, 3)
    requires inputs[1].answer == Accepted(id) && record.identity.startedAt <= inputs[1].now
    ensures var done := Continue(InterruptCommand(w, false), inputs);
      && Recorded(w, done, record, InterruptRequested, InterruptAsked, inputs[1].now)
      && Present(done) && CurrentStatus(done) == Ops.Cancelling
  {
    hide Good, Latest, ShapeOk, Next, ExecsInv, Stepped, Continue, InterruptCommand, Move;
    var asked := InterruptCommand(w, false);
    CancellingTaken(w, record, inputs[0]);
    var sending := Stepped(asked, inputs[0]);
    SendTaken(sending, record, inputs[1]);
    var next := WithInterrupt(record, inputs[1].now);
    RegisteredRecord(w, record);
    PublishTaken(Stepped(sending, inputs[1]), next, inputs[2]);
    ThirdStep(asked, inputs);
  }

  lemma CancellingTaken(w: World, record: Exec, i: Input)
    requires Registered(w, record) && CurrentStatus(w) == Ops.Running && i.ioOk
    ensures var moved := Stepped(InterruptCommand(w, false), i);
      && moved.job == SendInterrupt && moved.execs == w.execs && moved.active == w.active && moved.receipt == w.receipt
      && moved.opId == w.opId && Present(moved) && CurrentStatus(moved) == Ops.Cancelling
      && moved.receipt.None? && record.thread.Some? && record.turn.Some?
      && (record.state == Running || record.state == InterruptRequested) && ShapeOk(record)
  {
    hide Next, Stepped, Move, InterruptCommand, CallSucceeds, OnOperation;
    CancellingCommand(w, record);
    var asked := ToJob(w, AtCancelling);
    CancellingStep(asked, i);
    hide Good, ShapeOk;
    MoveTakes(asked, Ops.Cancelling, "codex_interrupt_requested", SendInterrupt, Idle, i);
    MoveKeepsDocuments(asked, Ops.Cancelling, "codex_interrupt_requested", SendInterrupt, Idle, i);
  }

  lemma CancellingCommand(w: World, record: Exec)
    requires Registered(w, record)
    ensures InterruptCommand(w, false) == ToJob(w, AtCancelling) && w.receipt.None?
    ensures record.thread.Some? && record.turn.Some? && ShapeOk(record)
    ensures record.state == Running || record.state == InterruptRequested
  {
    RegisteredIsLatest(w, record);
    hide Latest, ReceiptInv, TurnInv, StoreInv;
  }

  lemma CancellingStep(w: World, i: Input)
    requires w.job == AtCancelling && w.store.memory.Some?
    ensures Stepped(w, i) ==
      Move(w, Ops.Cancelling, "codex_interrupt_requested", i.now, i.ioOk, SendInterrupt, Idle)
  {
    hide Move;
  }

  lemma MoveKeepsDocuments(w: World, to: Ops.Status, detail: string, next: Job, otherwise: Job, i: Input)
    ensures var moved := Move(w, to, detail, i.now, i.ioOk, next, otherwise);
      moved.execs == w.execs && moved.active == w.active && moved.receipt == w.receipt && moved.opId == w.opId
  {
    hide OnOperation, CallSucceeds;
  }

  lemma SendTaken(w: World, record: Exec, i: Input)
    requires w.job == SendInterrupt && w.active == Some(record) && w.store.memory.Some?
    requires record.state == Running || record.state == InterruptRequested
    requires ShapeOk(record) && i.answer.Accepted? && record.identity.startedAt <= i.now
    ensures Stepped(w, i) == ToJob(w, PublishInterrupt(WithInterrupt(record, i.now)))
  {}

  lemma PublishTaken(w: World, r: Exec, i: Input)
    requires w.job == PublishInterrupt(r) && w.store.memory.Some? && i.ioOk
    requires Contiguous(w.execs) && r.revision == |w.execs| + 1
    ensures var done := Stepped(w, i);
      && done.job.Idle? && done.execs == w.execs + [Stored(r, i.now)] && done.active == Some(r)
      && done.store == w.store && done.opId == w.opId && done.receipt == w.receipt
  {
    ContiguousStore(w.execs, r.revision);
  }

  lemma CancellingOnlyFromRunning(s: Ops.Status)
    ensures Ops.Cancelling in OperationEffects.Successors(s) <==> s == Ops.Running
  {}

  // An interrupt goes nowhere where its Operation is not running or cannot be written.
  lemma InterruptStops(w: World, record: Exec, inputs: seq<Input>)
    requires Registered(w, record) && |inputs| >= 1
    requires CurrentStatus(w) != Ops.Running || !inputs[0].ioOk
    ensures var done := Continue(InterruptCommand(w, false), inputs);
      && done.job.Idle? && done.execs == w.execs && done.active == w.active && done.receipt == w.receipt
      && Present(done)
      && CurrentStatus(done) == (if CurrentStatus(w) == Ops.Running then Ops.Cancelling else CurrentStatus(w))
  {
    hide Next, Stepped, Move, InterruptCommand, CallSucceeds, OnOperation, Continue, Good, ShapeOk,
      OperationEffects.Successors;
    CancellingCommand(w, record);
    CancellingOnlyFromRunning(CurrentStatus(w));
    var asked := ToJob(w, AtCancelling);
    CancellingStep(asked, inputs[0]);
    MoveTakes(asked, Ops.Cancelling, "codex_interrupt_requested", SendInterrupt, Idle, inputs[0]);
    MoveKeepsDocuments(asked, Ops.Cancelling, "codex_interrupt_requested", SendInterrupt, Idle, inputs[0]);
    FirstStep(asked, inputs);
  }

  // An interrupt the App Server does not accept leaves the execution as it is, its Operation unknown.
  lemma RefusedInterruptMarksTheOperation(w: World, record: Exec, inputs: seq<Input>)
    requires Registered(w, record) && CurrentStatus(w) == Ops.Running && Written(inputs, 0, 3)
    requires !inputs[1].answer.Accepted?
    ensures var done := Continue(InterruptCommand(w, false), inputs);
      && done.job.Idle? && done.execs == w.execs && done.active == w.active && done.receipt == w.receipt
      && Present(done) && CurrentStatus(done) == Ops.OutcomeUnknown
  {
    hide Good, Latest, ShapeOk, Next, ExecsInv, Stepped, Continue, InterruptCommand, Move;
    var asked := InterruptCommand(w, false);
    CancellingTaken(w, record, inputs[0]);
    var sending := Stepped(asked, inputs[0]);
    RefusedTaken(sending, inputs[1]);
    MarkTakes(Stepped(sending, inputs[1]), inputs[2]);
    ThirdStep(asked, inputs);
  }

  lemma RefusedTaken(w: World, i: Input)
    requires w.job == SendInterrupt && w.active.Some? && w.store.memory.Some? && !i.answer.Accepted?
    ensures Stepped(w, i) == ToJob(w, Marking)
  {}
}
