/**
 The documents of one Codex execution: its versioned record, the one immutable effect receipt,
 and the pure rules that tie them together. A fingerprint is modelled as the content it digests,
 so two fingerprints are equal exactly when the contents are.
 Times are nanoseconds; a receipt keeps only whole milliseconds of its own time.
 */
module CodexRecords {
  import opened Basics

  datatype ExecState =
    | Initializing | ThreadReady | Running | InterruptRequested
    | Interrupted | Completed | Failed | OutcomeUnknown | RecoveryRequired

  predicate TerminalState(s: ExecState) {
    s.Interrupted? || s.Completed? || s.Failed? || s.OutcomeUnknown? || s.RecoveryRequired?
  }

  datatype EffectState = EffectSucceeded | EffectFailed | EffectPartial | EffectUnknown

  datatype EventKind =
    | InitializingEvent | ThreadReadyEvent | TurnStartRequested | TurnStarted | InterruptAsked
    | TurnCompleted | TurnFailed | TurnInterrupted | UnknownOutcome | InvalidTerminal
    | Notified(text: string)

  // What an execution is bound to; `binding` stands for the exact approved scope.
  datatype Identity = Identity(operationId: string, binding: string, startedAt: nat)

  datatype Ending = Ending(summary: Option<string>, errorCode: Option<string>, redactedError: Option<string>,
    outcomeUnknown: bool, recovery: Option<string>)

  datatype Exec = Exec(identity: Identity, revision: nat, state: ExecState, thread: Option<string>,
      turn: Option<string>,
    sequence: nat, lastEvent: EventKind, updatedAt: nat, finishedAt: Option<nat>, ending: Ending,
      receiptRef: Option<Receipt>)

  datatype Receipt = Receipt(subject: Exec, observedAt: nat, state: EffectState, sourceEffectStarted: bool,
    event: string, limitations: seq<string>)

  const OPEN_ENDING := Ending(None, None, None, false, None)

  const MILLISECOND: nat := 1_000_000

  function Millis(t: nat): nat {
    t - t % MILLISECOND
  }

  predicate TokenChar(c: char) {
    'a' <= c <= 'z' || 'A' <= c <= 'Z' || '0' <= c <= '9' || c == '-' || c == '_' || c == '.' || c == '/'
  }

  predicate BoundedToken(s: string, max: nat) {
    0 < |s| <= max && forall i :: 0 <= i < |s| ==> TokenChar(s[i])
  }

  predicate EventBounded(e: EventKind) {
    e.Notified? ==> BoundedToken(e.text, 128)
  }

  predicate StateShape(r: Exec) {
    match r.state
    case Initializing => r.thread.None? && r.turn.None? && r.sequence == 0
    case ThreadReady =>
      r.thread.Some? && r.turn.None? && (r.lastEvent.ThreadReadyEvent? || r.lastEvent.TurnStartRequested?)
        && r.sequence > 0
    case Running => r.thread.Some? && r.turn.Some? && r.sequence > 0
    case InterruptRequested => r.thread.Some? && r.turn.Some? && r.sequence > 0
    case Completed =>
      r.thread.Some? && r.turn.Some? && r.ending.summary.Some? && r.ending.errorCode.None?
      && !r.ending.outcomeUnknown && r.lastEvent.TurnCompleted?
    case Failed =>
      r.ending.errorCode.Some? && r.ending.redactedError.Some? && !r.ending.outcomeUnknown && r.lastEvent.TurnFailed?
    case OutcomeUnknown => r.ending.outcomeUnknown && r.ending.recovery.Some? && r.lastEvent.UnknownOutcome?
    case Interrupted => r.ending.recovery.Some? && r.lastEvent.TurnInterrupted?
    case RecoveryRequired => r.ending.recovery.Some? && r.lastEvent.UnknownOutcome?
  }

  // Whether sealing a record succeeds.
  predicate ShapeOk(r: Exec) {
    && r.revision > 0
    && r.identity.startedAt <= r.updatedAt
    && (r.finishedAt.Some? ==> r.updatedAt <= r.finishedAt.value)
    && (TerminalState(r.state) <==> r.finishedAt.Some?)
    && (TerminalState(r.state) <==> r.receiptRef.Some?)
    && (r.turn.Some? ==> r.thread.Some?)
    && EventBounded(r.lastEvent)
    && StateShape(r)
  }

  predicate MayHaveStarted(r: Exec) {
    r.turn.Some? || r.lastEvent.TurnStartRequested?
  }

  function FirstRecord(identity: Identity): Exec {
    Exec(identity, 1, Initializing, None, None, 0, InitializingEvent, identity.startedAt, None, OPEN_ENDING, None)
  }

  function WithThread(r: Exec, thread: string, now: nat): Exec {
    r.(revision := r.revision + 1, state := ThreadReady, thread := Some(thread), sequence := r.sequence + 1,
       lastEvent := ThreadReadyEvent, updatedAt := now)
  }

  function WithTurnRequested(r: Exec, now: nat): Exec {
    r.(revision := r.revision + 1, sequence := r.sequence + 1, lastEvent := TurnStartRequested, updatedAt := now)
  }

  function WithTurn(r: Exec, turn: string, now: nat): Exec {
    r.(revision := r.revision + 1, state := Running, turn := Some(turn), sequence := r.sequence + 1,
       lastEvent := TurnStarted, updatedAt := now)
  }

  function WithNotification(r: Exec, text: string, now: nat): Exec {
    r.(revision := r.revision + 1, sequence := r.sequence + 1, lastEvent := Notified(text), updatedAt := now)
  }

  function WithInterrupt(r: Exec, now: nat): Exec {
    r.(revision := r.revision + 1, state := InterruptRequested, sequence := r.sequence + 1,
       lastEvent := InterruptAsked, updatedAt := now)
  }

  /* Receipts. */

  function RequestedEffect(s: ExecState): Option<EffectState> {
    match s
    case Completed => Some(EffectSucceeded)
    case Failed => Some(EffectFailed)
    case Interrupted => Some(EffectPartial)
    case OutcomeUnknown => Some(EffectUnknown)
    case RecoveryRequired => Some(EffectUnknown)
    case _ => None
  }

  function TerminalExecutionState(s: EffectState): ExecState {
    match s
    case EffectSucceeded => Completed
    case EffectFailed => Failed
    case EffectPartial => Interrupted
    case EffectUnknown => OutcomeUnknown
  }

  function CanonicalTerminalEvent(s: ExecState): EventKind {
    match s
    case Completed => TurnCompleted
    case Failed => TurnFailed
    case Interrupted => TurnInterrupted
    case OutcomeUnknown => UnknownOutcome
    case RecoveryRequired => UnknownOutcome
    case _ => InvalidTerminal
  }

  function ExpectedLimitations(s: EffectState): seq<string> {
    match s
    case EffectSucceeded => []
    case EffectFailed => ["codex_turn_failed"]
    case EffectPartial => ["codex_turn_interrupted"]
    case EffectUnknown => ["codex_turn_outcome_unknown"]
  }

  function NewReceipt(record: Exec, effect: EffectState, event: string, now: nat, sourceEffectStarted: bool): Receipt {
    Receipt(record, Millis(now), effect, sourceEffectStarted, event, ExpectedLimitations(effect))
  }

  // Whether sealing a receipt succeeds; its start time is written in whole milliseconds too.
  predicate ReceiptShapeOk(r: Receipt) {
    && Millis(r.subject.identity.startedAt) <= r.observedAt
    && (r.state.EffectSucceeded? ==> r.sourceEffectStarted)
  }

  predicate ReceiptMatches(r: Receipt, record: Exec) {
    ReceiptShapeOk(r) && r.subject == record && r.limitations == ExpectedLimitations(r.state)
  }

  function EndingOf(s: ExecState): Ending {
    match s
    case Completed => Ending(Some("Codex turn completed."), None, None, false, None)
    case Failed => Ending(None, Some("CODEX_NOT_READY"), Some("Codex App Server reported a failed turn."), false,
                          Some("inspect_failure_evidence"))
    case Interrupted => Ending(None, None, None, false, Some("resume_or_reconcile"))
    case _ => Ending(None, None, None, true, Some("reconcile_before_retry"))
  }

  // The terminal record: everything in it comes from the receipt and the record the receipt is about.
  function Concluded(record: Exec, receipt: Receipt): Exec {
    var state := TerminalExecutionState(receipt.state);
    record.(revision := record.revision + 1, state := state, sequence := record.sequence + 1,
      lastEvent := CanonicalTerminalEvent(state), updatedAt := receipt.observedAt,
      finishedAt := Some(receipt.observedAt),
      ending := EndingOf(state), receiptRef := Some(receipt))
  }

  // Sealing the terminal record succeeds exactly when the receipt's millisecond is not before the
  // start of the execution, and success is only claimed of an execution with a turn.
  lemma ConclusionSealsExactlyWhen(record: Exec, receipt: Receipt)
    requires ShapeOk(record) && !TerminalState(record.state) && ReceiptMatches(receipt, record)
    ensures ShapeOk(Concluded(record, receipt)) <==>
      && record.identity.startedAt <= receipt.observedAt
      && (receipt.state.EffectSucceeded? ==> record.turn.Some?)
  {}

  /* The append-only document store: one entry per revision, identical content accepted again. */

  datatype Stored = Stored(doc: Exec, createdAt: nat)

  function AtRevision(store: seq<Stored>, revision: nat): Option<Stored> {
    if store == [] then None
    else if store[|store| - 1].doc.revision == revision then Some(store[|store| - 1])
    else AtRevision(store[..|store| - 1], revision)
  }

  // The entry with the highest revision.
  function Latest(store: seq<Stored>): Option<Exec> {
    if store == [] then None
    else
      var last := store[|store| - 1].doc;
      var rest := Latest(store[..|store| - 1]);
      if rest.Some? && rest.value.revision >= last.revision then rest else Some(last)
  }

  datatype PutResult = PutResult(ok: bool, store: seq<Stored>)

  // Content includes the creation time, as the stored row does.
  function PutExec(store: seq<Stored>, doc: Exec, now: nat, ioOk: bool): PutResult {
    var existing := AtRevision(store, doc.revision);
    if !ioOk then PutResult(false, store)
    else if existing.Some? then PutResult(existing.value == Stored(doc, now), store)
    else PutResult(true, store + [Stored(doc, now)])
  }

  // A stored document is accepted again exactly if it is published with the creation time it was stored
  // with; another time is refused like other content, and nothing is ever written by it.
  lemma RepublishedExactlyWhen(store: seq<Stored>, doc: Exec, first: nat, again: nat, ioOk: bool)
    requires PutExec(store, doc, first, true).ok
    ensures var stored := PutExec(store, doc, first, true).store;
      PutExec(stored, doc, again, ioOk) == PutResult(ioOk && again == first, stored)
  {}

  ghost predicate Contiguous(store: seq<Stored>) {
    forall i :: 0 <= i < |store| ==> store[i].doc.revision == i + 1
  }

  lemma {:induction false} ContiguousStore(store: seq<Stored>, revision: nat)
    requires Contiguous(store)
    ensures Latest(store) == if store == [] then None else Some(store[|store| - 1].doc)
    ensures AtRevision(store, revision) == if 1 <= revision <= |store| then Some(store[revision - 1]) else None
    decreases |store|
  {
    if store != [] {
      var rest := store[..|store| - 1];
      assert forall i :: 0 <= i < |rest| ==> rest[i] == store[i];
      ContiguousStore(rest, revision);
    }
  }
}
