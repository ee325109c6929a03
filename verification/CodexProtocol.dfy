/**
 Launch, status, interrupt and finalization of one Codex execution as steps over three durable
 stores: the versioned execution records, the one effect receipt, and the Operation file. Every step
 makes at most one durable write or one call to the App Server, so a crash can fall between any two.
 Commands on the execution are serialised; calls on other Operations, and cancellations or failure
 reports on this one, may fall between any two steps.
 */
module CodexProtocol {
  import opened Basics
  import opened CodexRecords
  import Ops = Operations
  import Facts = OperationFacts

  // The command in progress. It lives in memory only.
  datatype Job =
    | Idle
    | PublishFirst(r: Exec) | AtQueue(r: Exec) | AtStart(r: Exec) | AtConnect(r: Exec)
    | PublishThread(r: Exec) | AtRunning(r: Exec)
    | PublishRequest(r: Exec) | AtTurn(r: Exec) | AwaitTurn(r: Exec) | PublishTurn(r: Exec)
    | PublishEvent(r: Exec, effectEvent: string)
    | AtCancelling | SendInterrupt | PublishInterrupt(r: Exec)
    | Marking
    | FinReceipt(r: Exec, wanted: ExecState, event: string, effect: bool)
    | FinExec(r: Exec)
    | Reconciling(r: Exec)

  // `turnsIssued`, `turnRefused` and `successSeen` record what the App Server was asked and answered.
  datatype World = World(opId: string, store: Facts.System, execs: seq<Stored>, receipt: Option<Receipt>,
    active: Option<Exec>, job: Job, turnsIssued: nat, turnRefused: bool, successSeen: bool)

  function Start(opId: string): World {
    World(opId, Facts.Blank, [], None, None, Idle, 0, false, false)
  }

  // What the App Server answers: `Rejected` is a definite refusal, `Lost` any unknown outcome.
  datatype Answer = Accepted(id: string) | Rejected | Lost

  datatype TurnEnd = EndCompleted | EndInterrupted | EndFailed | EndOther

  datatype Notice = Timeout | ConnectionLost | TurnEnded(end: TurnEnd) | OtherNotice(text: string)

  datatype Event =
    | Crash(at: int, writeOk: bool)
    | Foreign(call: Facts.Call, calledAt: int, callOk: bool)
    | Launch(binding: string, startedAt: nat)
    | Status(notice: Notice, lockPoisoned: bool, seenAt: nat)
    | Interrupt(lockPoisoned: bool)
    | Proceed(now: nat, ioOk: bool, answer: Answer)

  /* Calls on this Operation. */

  function OnOperation(s: Facts.System, id: string, m: Ops.Mutation, now: int, ioOk: bool): Facts.System {
    Facts.Advance(s, Facts.Invoke(Facts.On(id, m), now, ioOk))
  }

  predicate CallSucceeds(s: Facts.System, id: string, m: Ops.Mutation, now: int, ioOk: bool) {
    s.memory.Some? &&
    var change := Ops.Mutate(s.memory.value, id, m, now).change;
    (change.Updated? && ioOk) || change.Unchanged?
  }

  predicate Present(w: World) {
    w.store.memory.Some? && w.opId in w.store.memory.value.operations
  }

  function CurrentStatus(w: World): Ops.Status
    requires Present(w)
  {
    w.store.memory.value.operations[w.opId].status
  }

  // Whoever else touches the Operation never reports its success.
  predicate Harmless(opId: string, call: Facts.Call) {
    call.On? && call.id == opId ==>
      !(call.m.Complete? && call.m.outcome.Success?) && !(call.m.Transition? && call.m.next.Succeeded?)
  }

  // An approval is still good for launching: its Operation is in one of these statuses.
  predicate Launchable(s: Ops.Status) {
    s.ApprovalWait? || s.Queued? || s.Starting? || s.Running? || s.Cancelling?
    || s.Succeeded? || s.Failed? || s.Cancelled? || s.OutcomeUnknown?
  }

  function FailureReport(code: string, message: string): Ops.Outcome {
    Ops.Failure(Ops.BackendError(Some(code), Some(message), Some(false)))
  }

  // `mark_operation_outcome_unknown`: its own failures are ignored.
  function Marked(w: World, now: int, ioOk: bool): Facts.System {
    if !Present(w) then w.store
    else if CurrentStatus(w).Running? || CurrentStatus(w).Cancelling? then
      OnOperation(w.store, w.opId, Ops.Transition(Ops.OutcomeUnknown, "codex_outcome_unknown"), now, ioOk)
    else if Ops.Terminal(CurrentStatus(w)) then w.store
    else
      OnOperation(w.store, w.opId, Ops.Complete(FailureReport("TOOL_OUTCOME_UNKNOWN",
        "The Codex operation outcome could not be reconciled.")), now, ioOk)
  }

  datatype Plan = CallStore(m: Ops.Mutation) | AlreadyClosed | Mismatch

  function ReconcilePlan(status: Ops.Status, r: Exec): Plan {
    match r.state
    case Completed => CallStore(Ops.Complete(Ops.Success("codex_execution")))
    case Failed => CallStore(Ops.Complete(FailureReport(
      if r.ending.errorCode.Some? then r.ending.errorCode.value else "CODEX_NOT_READY",
      "The Codex turn reached a verified failed terminal state.")))
    case Interrupted => CallStore(Ops.Complete(FailureReport("TOOL_CANCELLED",
      "The Codex turn was interrupted and its partial effect was retained.")))
    case OutcomeUnknown => UnknownPlan(status)
    case RecoveryRequired => UnknownPlan(status)
    case _ => Mismatch
  }

  function UnknownPlan(status: Ops.Status): Plan {
    if status.Starting? || status.Running? || status.Cancelling? then
      CallStore(Ops.Transition(Ops.OutcomeUnknown, "codex_execution_outcome_unknown"))
    else if status.Succeeded? || status.Failed? || status.Cancelled? || status.OutcomeUnknown? then AlreadyClosed
    else Mismatch
  }

  function Reconciled(w: World, r: Exec, now: int, ioOk: bool): Facts.System {
    if !Present(w) then w.store
    else match ReconcilePlan(CurrentStatus(w), r)
      case CallStore(m) => OnOperation(w.store, w.opId, m, now, ioOk)
      case _ => w.store
  }

  predicate ReconcileSucceeds(w: World, r: Exec, now: int, ioOk: bool) {
    Present(w) &&
    match ReconcilePlan(CurrentStatus(w), r)
      case CallStore(m) => CallSucceeds(w.store, w.opId, m, now, ioOk)
      case AlreadyClosed => true
      case Mismatch => false
  }

  /* Commands. */

  function ToFinalize(w: World, r: Exec, wanted: ExecState, event: string, effect: bool): World {
    w.(active := None, job := FinReceipt(r, wanted, event, effect))
  }

  function ToJob(w: World, job: Job): World {
    w.(job := job)
  }

  function ToReconcile(w: World, r: Exec): World {
    w.(active := None, job := Reconciling(r))
  }

  // `launch`, from the lookup of an existing record on.
  function LaunchCommand(w: World, binding: string, startedAt: nat): World {
    if !(Present(w) && Launchable(CurrentStatus(w))) then w
    else
      var existing := Latest(w.execs);
      if existing.None? then ToJob(w, PublishFirst(FirstRecord(Identity(w.opId, binding, startedAt))))
      else if existing.value.identity.binding != binding then w
      else if TerminalState(existing.value.state) then ToJob(w, Reconciling(existing.value))
      else if w.active.Some? then w
      else ToFinalize(w, existing.value, OutcomeUnknown, "launch_retry_requires_reconciliation",
        MayHaveStarted(existing.value))
  }

  function StateOfEnd(end: TurnEnd): ExecState {
    match end
    case EndCompleted => Completed
    case EndInterrupted => Interrupted
    case EndFailed => Failed
    case EndOther => OutcomeUnknown
  }

  function Heard(w: World, notice: Notice): World {
    w.(successSeen := w.successSeen || notice == TurnEnded(EndCompleted))
  }

  function StatusCommand(w: World, notice: Notice, lockPoisoned: bool, now: nat): World {
    var latest := Latest(w.execs);
    if w.store.memory.None? || latest.None? then w
    else if TerminalState(latest.value.state) then ToReconcile(w, latest.value)
    else if w.active.None? then
      ToFinalize(w, latest.value, OutcomeUnknown, "controller_restarted_outcome_unknown", MayHaveStarted(latest.value))
    else ActiveStatus(w, latest.value, w.active.value, notice, lockPoisoned, now)
  }

  function ActiveStatus(w: World, persisted: Exec, active: Exec, notice: Notice, lockPoisoned: bool, now: nat): World {
    if lockPoisoned then ToFinalize(w, persisted, OutcomeUnknown, "active_execution_lock_outcome_unknown", true)
    else if active != persisted then ToFinalize(w, persisted, OutcomeUnknown, "active_registry_state_mismatch", true)
    else OnNotice(Heard(w, notice), active, notice, now)
  }

  function OnNotice(w: World, record: Exec, notice: Notice, now: nat): World {
    match notice
    case Timeout => w
    case ConnectionLost => ToFinalize(w, record, OutcomeUnknown, "app_server_lost_outcome_unknown", true)
    case TurnEnded(end) => ToFinalize(w, record, StateOfEnd(end), "turn_completed", true)
    case OtherNotice(text) =>
      var next := WithNotification(record, text, now);
      if ShapeOk(next) then ToJob(w, PublishEvent(next, "event_publication_outcome_unknown"))
      else ToFinalize(w, record, OutcomeUnknown, "protocol_event_outcome_unknown", true)
  }

  function InterruptCommand(w: World, lockPoisoned: bool): World {
    var latest := Latest(w.execs);
    if w.store.memory.None? || latest.None? then w
    else if TerminalState(latest.value.state) then ToJob(w, Reconciling(latest.value))
    else if w.active.None? then
      ToFinalize(w, latest.value, OutcomeUnknown, "interrupt_after_controller_restart", MayHaveStarted(latest.value))
    else ActiveInterrupt(w, latest.value, w.active.value, lockPoisoned)
  }

  function ActiveInterrupt(w: World, persisted: Exec, active: Exec, lockPoisoned: bool): World {
    if lockPoisoned then ToFinalize(w, persisted, OutcomeUnknown, "interrupt_lock_outcome_unknown", true)
    else if active != persisted then ToFinalize(w, persisted, OutcomeUnknown, "interrupt_state_mismatch", true)
    else if active.thread.None? || active.turn.None? then w
    else ToJob(w, AtCancelling)
  }

  /* One step of the command in progress. */

  function WithStore(w: World, store: Facts.System, job: Job): World {
    w.(store := store, job := job)
  }

  function WithExecs(w: World, execs: seq<Stored>, job: Job): World {
    w.(execs := execs, job := job)
  }

  // Publishes `doc`, then goes on to `next`, or to `otherwise` when the write fails.
  function Publish(w: World, doc: Exec, now: nat, ioOk: bool, next: Job, otherwise: Job): World {
    var put := PutExec(w.execs, doc, now, ioOk);
    WithExecs(w, put.store, if put.ok then next else otherwise)
  }

  function Move(w: World, to: Ops.Status, detail: string, now: nat, ioOk: bool, next: Job, otherwise: Job): World {
    var m := Ops.Transition(to, detail);
    WithStore(w, OnOperation(w.store, w.opId, m, now, ioOk),
      if CallSucceeds(w.store, w.opId, m, now, ioOk) then next else otherwise)
  }

  function SealedOr(doc: Exec, next: Job, otherwise: Job): Job {
    if ShapeOk(doc) then next else otherwise
  }

  function Register(w: World, put: PutResult, record: Exec, otherwise: Job): World {
    w.(execs := put.store, active := if put.ok then Some(record) else w.active,
       job := if put.ok then Idle else otherwise)
  }

  function TurnSent(w: World, job: Job): World {
    w.(turnsIssued := w.turnsIssued + 1, job := job)
  }

  function TurnTurnedDown(w: World, job: Job): World {
    w.(turnRefused := true, job := job)
  }

  function ReceiptFiled(w: World, receipt: Receipt, job: Job): World {
    w.(receipt := Some(receipt), job := job)
  }

  // `load_or_publish_terminal_receipt` and the sealing of the terminal record that follows it.
  function ReceiptStep(w: World, r: Exec, effect: EffectState, event: string, started: bool, now: nat,
      ioOk: bool): World {
    if w.receipt.Some? then
      if !ReceiptMatches(w.receipt.value, r) then ToJob(w, Idle)
      else ToJob(w, SealedOr(Concluded(r, w.receipt.value), FinExec(Concluded(r, w.receipt.value)), Idle))
    else
      var receipt := NewReceipt(r, effect, event, now, started);
      if !ReceiptMatches(receipt, r) || !ioOk then ToJob(w, Idle)
      else ReceiptFiled(w, receipt, SealedOr(Concluded(r, receipt), FinExec(Concluded(r, receipt)), Idle))
  }

  function QueueStep(w: World, r: Exec, now: nat, ioOk: bool): World {
    Move(w, Ops.Queued, "codex_execution_approved", now, ioOk, AtStart(r),
      FinReceipt(r, Failed, "operation_queue_failed", false))
  }

  function StartStep(w: World, r: Exec, now: nat, ioOk: bool): World {
    Move(w, Ops.Starting, "codex_app_server_starting", now, ioOk, AtConnect(r),
      FinReceipt(r, Failed, "operation_start_failed", false))
  }

  // Spawn, initialize and thread request: none of them writes anything durable.
  function ConnectStep(w: World, r: Exec, now: nat, answer: Answer): World {
    match answer
    case Rejected => ToJob(w, FinReceipt(r, Failed, "thread_request_failed", false))
    case Lost => ToJob(w, FinReceipt(r, OutcomeUnknown, "thread_request_failed", false))
    case Accepted(thread) => ToJob(w,
      SealedOr(WithThread(r, thread, now), PublishThread(WithThread(r, thread, now)), Idle))
  }

  function RunningStep(w: World, r: Exec, now: nat, ioOk: bool): World {
    Move(w, Ops.Running, "codex_turn_start_requested", now, ioOk,
      SealedOr(WithTurnRequested(r, now), PublishRequest(WithTurnRequested(r, now)), Idle),
      FinReceipt(r, Failed, "operation_running_transition_failed", false))
  }

  function TurnAnswered(w: World, r: Exec, now: nat, answer: Answer): World {
    match answer
    case Rejected => TurnTurnedDown(w, FinReceipt(r, Failed, "turn_start_failed", false))
    case Lost => ToJob(w, FinReceipt(r, OutcomeUnknown, "turn_start_failed", true))
    case Accepted(turn) => ToJob(w, SealedOr(WithTurn(r, turn, now), PublishTurn(WithTurn(r, turn, now)), Marking))
  }

  // `Lost` stands for a registry that can no longer be locked.
  function PublishTurnStep(w: World, r: Exec, now: nat, ioOk: bool, answer: Answer): World {
    if answer.Lost? then
      Publish(w, r, now, ioOk, FinReceipt(r, OutcomeUnknown, "active_registry_unavailable", true), Marking)
    else Register(w, PutExec(w.execs, r, now, ioOk), r, Marking)
  }

  function PublishEventStep(w: World, r: Exec, effectEvent: string, now: nat, ioOk: bool): World {
    var put := PutExec(w.execs, r, now, ioOk);
    if put.ok || w.active.None? then Register(w, put, r, Idle)
    else ToFinalize(w, w.active.value, OutcomeUnknown, effectEvent, true)
  }

  function SendInterruptStep(w: World, now: nat, answer: Answer): World {
    if w.active.None? then ToJob(w, Idle)
    else if !answer.Accepted? then ToJob(w, Marking)
    else
      ToJob(w, SealedOr(WithInterrupt(w.active.value, now), PublishInterrupt(WithInterrupt(w.active.value, now)), Idle))
  }

  function FinReceiptStep(w: World, r: Exec, wanted: ExecState, event: string, started: bool, now: nat,
      ioOk: bool): World {
    if RequestedEffect(wanted).None? then ToJob(w, Idle)
    else ReceiptStep(w, r, RequestedEffect(wanted).value, event, started, now, ioOk)
  }

  function ProceedStep(w: World, now: nat, ioOk: bool, answer: Answer): World {
    match w.job
    case Idle => w
    case PublishFirst(r) => Publish(w, r, now, ioOk, AtQueue(r), Idle)
    case AtQueue(r) => QueueStep(w, r, now, ioOk)
    case AtStart(r) => StartStep(w, r, now, ioOk)
    case AtConnect(r) => ConnectStep(w, r, now, answer)
    case PublishThread(r) => Publish(w, r, now, ioOk, AtRunning(r), Marking)
    case AtRunning(r) => RunningStep(w, r, now, ioOk)
    case PublishRequest(r) => Publish(w, r, now, ioOk, AtTurn(r), Marking)
    case AtTurn(r) => TurnSent(w, AwaitTurn(r))
    case AwaitTurn(r) => TurnAnswered(w, r, now, answer)
    case PublishTurn(r) => PublishTurnStep(w, r, now, ioOk, answer)
    case PublishEvent(r, effectEvent) => PublishEventStep(w, r, effectEvent, now, ioOk)
    case AtCancelling => Move(w, Ops.Cancelling, "codex_interrupt_requested", now, ioOk, SendInterrupt, Idle)
    case SendInterrupt => SendInterruptStep(w, now, answer)
    case PublishInterrupt(r) => Register(w, PutExec(w.execs, r, now, ioOk), r, Marking)
    case Marking => WithStore(w, Marked(w, now, ioOk), Idle)
    case FinReceipt(r, wanted, event, started) => FinReceiptStep(w, r, wanted, event, started, now, ioOk)
    case FinExec(r) => Publish(w, r, now, ioOk, Reconciling(r), Idle)
    case Reconciling(r) => WithStore(w, Reconciled(w, r, now, ioOk), Idle)
  }

  function Crashed(w: World, at: int, writeOk: bool): World {
    w.(store := Facts.Advance(w.store, Facts.Restart(at, writeOk)), active := None, job := Idle)
  }

  function Next(w: World, e: Event): World {
    match e
    case Crash(at, writeOk) => Crashed(w, at, writeOk)
    case Foreign(call, calledAt, callOk) =>
      if Harmless(w.opId, call) then
        WithStore(w, Facts.Advance(w.store, Facts.Invoke(call, calledAt, callOk)), w.job) else w
    case Launch(binding, startedAt) => if w.job.Idle? then LaunchCommand(w, binding, startedAt) else w
    case Status(notice, lockPoisoned, seenAt) =>
      if w.job.Idle? then StatusCommand(w, notice, lockPoisoned, seenAt) else w
    case Interrupt(lockPoisoned) => if w.job.Idle? then InterruptCommand(w, lockPoisoned) else w
    case Proceed(now, ioOk, answer) => if w.store.memory.None? then w else ProceedStep(w, now, ioOk, answer)
  }

  function Run(w: World, events: seq<Event>): World
    decreases |events|
  {
    if events == [] then w else Run(Next(w, events[0]), events[1..])
  }
}
