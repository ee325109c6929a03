/** What every step, crash and restart keeps of a Codex execution, and what follows for whole runs. */
module CodexFacts {
  import opened Basics
  import opened CodexRecords
  import opened CodexProtocol
  import Ops = Operations
  import Facts = OperationFacts

  /* The invariant, one store at a time. */

  ghost function Last(w: World): Exec
    requires w.execs != []
  {
    w.execs[|w.execs| - 1].doc
  }

  ghost predicate Settled(w: World) {
    w.execs != [] && TerminalState(Last(w).state)
  }

  ghost predicate ExecsInv(w: World) {
    && Contiguous(w.execs)
    && (forall i :: 0 <= i < |w.execs| ==>
      ShapeOk(w.execs[i].doc) && w.execs[i].doc.identity == w.execs[0].doc.identity)
    && (forall i :: 0 <= i < |w.execs| - 1 ==> !TerminalState(w.execs[i].doc.state))
    && (w.execs != [] ==> w.execs[0].doc.identity.operationId == w.opId)
  }

  ghost predicate ReceiptInv(w: World) {
    && (Settled(w) ==> w.receipt.Some?)
    && (w.receipt.Some? ==>
          && w.execs != []
          && ReceiptMatches(w.receipt.value, w.receipt.value.subject)
          && (w.receipt.value.state.EffectSucceeded? ==> w.successSeen && w.receipt.value.subject.turn.Some?)
          && (if Settled(w) then |w.execs| > 1 && w.receipt.value.subject == w.execs[|w.execs| - 2].doc
                 && Last(w) == Concluded(w.receipt.value.subject, w.receipt.value)
              else w.receipt.value.subject == Last(w)))
  }

  ghost predicate ActiveInv(w: World) {
    w.active.Some? ==>
      && w.execs != [] && w.active.value == Last(w) && !Settled(w)
      && w.active.value.thread.Some? && w.active.value.turn.Some?
      && w.receipt.None? && w.turnsIssued == 1
  }

  ghost predicate TurnInv(w: World) {
    && w.turnsIssued <= 1
    && (w.turnsIssued == 0 ==> !w.turnRefused && !w.successSeen)
    && (w.turnsIssued == 1 ==>
          && w.execs != []
          && (!Settled(w) ==> MayHaveStarted(Last(w)))
          && (w.receipt.Some? ==> MayHaveStarted(w.receipt.value.subject))
          && (w.receipt.Some? && !w.turnRefused ==> w.receipt.value.sourceEffectStarted))
  }

  ghost predicate Succeeded(s: Facts.System, id: string) {
    || (s.memory.Some? && id in s.memory.value.operations && s.memory.value.operations[id].status.Succeeded?)
    || (id in s.disk.operations && s.disk.operations[id].status.Succeeded?)
  }

  ghost predicate StoreInv(w: World) {
    && Facts.SystemInv(w.store)
    && (Succeeded(w.store, w.opId) ==> w.execs != [] && Last(w).state.Completed?)
  }

  // `doc` may be appended as the next, still open, revision.
  ghost predicate Appendable(w: World, doc: Exec) {
    && w.execs != [] && !Settled(w)
    && doc.revision == |w.execs| + 1 && doc.identity == Last(w).identity
    && ShapeOk(doc) && !TerminalState(doc.state)
  }

  ghost predicate Newest(w: World, doc: Exec) {
    w.execs != [] && doc == Last(w) && !Settled(w)
  }

  // Nothing was asked of the App Server yet.
  ghost predicate Untouched(w: World) {
    w.receipt.None? && w.active.None? && w.turnsIssued == 0
  }

  ghost predicate JobInv(w: World) {
    match w.job
    case Idle => true
    case Marking => true
    case PublishFirst(r) =>
      Untouched(w) && w.execs == [] && r == FirstRecord(r.identity) && r.identity.operationId == w.opId
    case AtQueue(r) => Untouched(w) && Newest(w, r) && r.state.Initializing?
    case AtStart(r) => Untouched(w) && Newest(w, r) && r.state.Initializing?
    case AtConnect(r) => Untouched(w) && Newest(w, r) && r.state.Initializing?
    case PublishThread(r) => Untouched(w) && Appendable(w, r) && r.state.ThreadReady?
    case AtRunning(r) => Untouched(w) && Newest(w, r) && r.state.ThreadReady?
    case PublishRequest(r) => Untouched(w) && Appendable(w, r) && r.state.ThreadReady? && MayHaveStarted(r)
    case AtTurn(r) => Untouched(w) && Newest(w, r) && r.state.ThreadReady? && MayHaveStarted(r)
    case AwaitTurn(r) =>
      w.receipt.None? && w.active.None? && w.turnsIssued == 1 && !w.turnRefused && Newest(w, r) && r.state.ThreadReady?
    case PublishTurn(r) =>
      w.receipt.None? && w.active.None? && w.turnsIssued == 1 && Appendable(w, r) && r.state.Running?
    case PublishEvent(r, event) => w.active.Some? && Appendable(w, r) && r.thread.Some? && r.turn.Some?
    case AtCancelling => w.active.Some?
    case SendInterrupt => w.active.Some?
    case PublishInterrupt(r) => w.active.Some? && Appendable(w, r) && r.thread.Some? && r.turn.Some?
    case FinReceipt(r, wanted, event, started) =>
      && w.active.None? && Newest(w, r)
      && (wanted.Completed? ==> started && r.turn.Some? && w.successSeen)
      && (w.turnsIssued == 1 && !w.turnRefused ==> started)
    case FinExec(r) =>
      && w.active.None? && w.execs != [] && !Settled(w) && w.receipt.Some?
      && r == Concluded(Last(w), w.receipt.value) && ShapeOk(r)
    case Reconciling(r) => Settled(w) && r == Last(w)
  }

  ghost predicate Good(w: World) {
    ExecsInv(w) && ReceiptInv(w) && ActiveInv(w) && TurnInv(w) && StoreInv(w) && JobInv(w)
  }

  // `b` is a later world: documents are only appended, the receipt stays, and after the receipt the
  // only record that can still be appended is the one it determines.
  ghost predicate After(a: World, b: World) {
    && b.opId == a.opId
    && a.execs <= b.execs
    && (a.receipt.Some? ==> b.receipt == a.receipt)
    && (a.receipt.Some? && a.execs != [] && |b.execs| > |a.execs| ==>
          !Settled(a) && |b.execs| == |a.execs| + 1 && b.execs[|a.execs|].doc == Concluded(Last(a), a.receipt.value))
    && a.turnsIssued <= b.turnsIssued
    && (a.turnRefused ==> b.turnRefused)
    && (a.successSeen ==> b.successSeen)
  }

  // Documents and receipt untouched.
  ghost predicate SameDocuments(a: World, b: World) {
    b.opId == a.opId && b.execs == a.execs && b.receipt == a.receipt
  }

  /* The Operation store. */

  lemma HarmlessCallsNeverSucceed(s: Facts.System, call: Facts.Call, now: int, ioOk: bool, id: string)
    requires Facts.SystemInv(s) && Harmless(id, call)
    ensures var next := Facts.Advance(s, Facts.Invoke(call, now, ioOk));
      Facts.SystemInv(next) && (Succeeded(next, id) ==> Succeeded(s, id))
  {
    StoreKeeps(s, Facts.Invoke(call, now, ioOk));
    if s.memory.Some? && !(call.NewOp? && call.freshId in s.issued) {
      MemoryInv(s);
      hide Facts.SystemInv, Harmless, Facts.Apply;
      ApplyNeverSucceeds(s.memory.value, call, now, id);
    }
  }

  lemma MemoryInv(s: Facts.System)
    requires Facts.SystemInv(s) && s.memory.Some?
    ensures Facts.FileInv(s.memory.value)
  {}

  lemma ApplyNeverSucceeds(f: Ops.OperationFile, call: Facts.Call, now: int, id: string)
    requires Facts.FileInv(f) && Harmless(id, call)
    ensures var g := Facts.Apply(f, call, now).file;
      id in g.operations && g.operations[id].status.Succeeded? ==>
        id in f.operations && f.operations[id].status.Succeeded?
  {
    hide Ops.MutateOp, Ops.Prune;
    match call {
      case NewOp(request, freshId) =>
        Facts.PruneDropsExactlyTheExpired(f, now);
        hide Facts.FileInv;
      case On(target, m) =>
        if target == id && id in f.operations {
          HarmlessMutation(f.operations[id], m, now);
        }
        hide Facts.FileInv;
    }
  }

  lemma HarmlessMutation(op: Ops.Operation, m: Ops.Mutation, now: int)
    requires !(m.Complete? && m.outcome.Success?) && !(m.Transition? && m.next.Succeeded?)
    ensures var change := Ops.MutateOp(op, m, now);
      change.Updated? && change.op.status.Succeeded? ==> op.status.Succeeded?
  {}

  lemma StoreKeeps(s: Facts.System, step: Facts.Step)
    requires Facts.SystemInv(s)
    ensures Facts.SystemInv(Facts.Advance(s, step))
  {
    Facts.FollowsSelf(s.disk);
    Facts.AdvanceKeeps(s.disk, s, step);
  }

  lemma RestartNeverSucceeds(s: Facts.System, at: int, writeOk: bool, id: string)
    requires Facts.SystemInv(s)
    ensures var next := Facts.Advance(s, Facts.Restart(at, writeOk));
      Facts.SystemInv(next) && (Succeeded(next, id) ==> Succeeded(s, id))
  {
    StoreKeeps(s, Facts.Restart(at, writeOk));
  }

  /* The building blocks of a step. */

  ghost predicate Core(w: World) {
    ExecsInv(w) && ReceiptInv(w) && ActiveInv(w) && TurnInv(w) && StoreInv(w)
  }

  lemma JobChange(w: World, job: Job)
    requires Core(w)
    ensures Core(ToJob(w, job)) && After(w, ToJob(w, job))
  {}

  lemma FinalizeChange(w: World, r: Exec, wanted: ExecState, event: string, effect: bool)
    requires Core(w)
    ensures Core(ToFinalize(w, r, wanted, event, effect)) && After(w, ToFinalize(w, r, wanted, event, effect))
  {}

  lemma StoreChange(w: World, store: Facts.System, job: Job)
    requires Core(w) && Facts.SystemInv(store)
    requires Succeeded(store, w.opId) ==> Succeeded(w.store, w.opId) || (w.execs != [] && Last(w).state.Completed?)
    ensures Core(WithStore(w, store, job)) && After(w, WithStore(w, store, job))
    ensures SameDocuments(w, WithStore(w, store, job))
  {}

  lemma PutAppends(w: World, doc: Exec, now: nat, ioOk: bool)
    requires ExecsInv(w) && doc.revision == |w.execs| + 1
    ensures PutExec(w.execs, doc, now, ioOk) == PutResult(ioOk, if ioOk then w.execs + [Stored(doc, now)] else w.execs)
  {
    ContiguousStore(w.execs, doc.revision);
  }

  lemma LatestIsLast(w: World)
    requires ExecsInv(w)
    ensures Latest(w.execs) == if w.execs == [] then None else Some(Last(w))
  {
    ContiguousStore(w.execs, 0);
  }

  lemma AppendKeepsExecs(w: World, stored: Stored, w': World)
    requires ExecsInv(w) && !Settled(w) && stored.doc.revision == |w.execs| + 1 && ShapeOk(stored.doc)
    requires w.execs != [] ==> stored.doc.identity == Last(w).identity
    requires w.execs == [] ==> stored.doc.identity.operationId == w.opId
    requires w'.opId == w.opId && w'.execs == w.execs + [stored]
    ensures ExecsInv(w')
  {
    forall i | 0 <= i < |w'.execs|
      ensures w'.execs[i].doc.revision == i + 1 && ShapeOk(w'.execs[i].doc)
        && w'.execs[i].doc.identity == w'.execs[0].doc.identity
    {
      if i < |w.execs| {
        assert w'.execs[i] == w.execs[i];
      }
    }
    forall i | 0 <= i < |w'.execs| - 1
      ensures !TerminalState(w'.execs[i].doc.state)
    {
      assert w'.execs[i] == w.execs[i];
    }
  }

  // Publishing the next open revision, while no App Server handle is registered.
  lemma PublishKeeps(w: World, doc: Exec, now: nat, ioOk: bool, next: Job, otherwise: Job)
    requires Core(w) && w.active.None? && w.receipt.None?
    requires Appendable(w, doc) || (w.execs == [] && doc.revision == 1 && doc.identity.operationId == w.opId
                                    && ShapeOk(doc) && !TerminalState(doc.state))
    requires w.turnsIssued == 1 ==> MayHaveStarted(doc)
    ensures var w' := Publish(w, doc, now, ioOk, next, otherwise);
      && Core(w') && After(w, w')
      && w'.job == (if ioOk then next else otherwise)
      && (ioOk ==> Newest(w', doc)) && (!ioOk ==> SameDocuments(w, w'))
      && w'.receipt.None? && w'.active.None? && w'.turnsIssued == w.turnsIssued && w'.turnRefused == w.turnRefused
  {
    PutAppends(w, doc, now, ioOk);
    var w' := Publish(w, doc, now, ioOk, next, otherwise);
    if ioOk {
      AppendKeepsExecs(w, Stored(doc, now), w');
    }
  }

  // Publishing the next open revision together with the App Server handle that goes with it.
  lemma RegisterKeeps(w: World, doc: Exec, now: nat, ioOk: bool, otherwise: Job)
    requires Core(w) && w.receipt.None? && w.turnsIssued == 1
    requires Appendable(w, doc) && doc.thread.Some? && doc.turn.Some?
    ensures var w' := Register(w, PutExec(w.execs, doc, now, ioOk), doc, otherwise);
      && Core(w') && After(w, w')
      && w'.job == (if ioOk then Idle else otherwise)
  {
    PutAppends(w, doc, now, ioOk);
    var w' := Register(w, PutExec(w.execs, doc, now, ioOk), doc, otherwise);
    if ioOk {
      AppendKeepsExecs(w, Stored(doc, now), w');
    }
  }

  lemma MoveKeeps(w: World, to: Ops.Status, detail: string, now: nat, ioOk: bool, next: Job, otherwise: Job)
    requires Core(w) && !to.Succeeded?
    ensures var w' := Move(w, to, detail, now, ioOk, next, otherwise);
      && Core(w') && After(w, w') && SameDocuments(w, w')
      && (w'.job == next || w'.job == otherwise)
      && w'.active == w.active && w'.turnsIssued == w.turnsIssued && w'.turnRefused == w.turnRefused
      && w'.successSeen == w.successSeen
  {
    var m := Ops.Transition(to, detail);
    HarmlessCallsNeverSucceed(w.store, Facts.On(w.opId, m), now, ioOk, w.opId);
    var w' := Move(w, to, detail, now, ioOk, next, otherwise);
    StoreChange(w, w'.store, w'.job);
  }

  /* The steps. */

  ghost predicate Advances(w: World, w': World) {
    Good(w') && After(w, w')
  }

  lemma FirstKeeps(w: World, r: Exec, now: nat, ioOk: bool)
    requires Good(w) && w.job == PublishFirst(r)
    ensures Advances(w, Publish(w, r, now, ioOk, AtQueue(r), Idle))
  {
    PublishKeeps(w, r, now, ioOk, AtQueue(r), Idle);
  }

  lemma QueueKeeps(w: World, r: Exec, now: nat, ioOk: bool)
    requires Good(w) && w.job == AtQueue(r)
    ensures Advances(w, QueueStep(w, r, now, ioOk))
  {
    MoveKeeps(w, Ops.Queued, "codex_execution_approved", now, ioOk, AtStart(r),
      FinReceipt(r, Failed, "operation_queue_failed", false));
  }

  lemma StartKeeps(w: World, r: Exec, now: nat, ioOk: bool)
    requires Good(w) && w.job == AtStart(r)
    ensures Advances(w, StartStep(w, r, now, ioOk))
  {
    MoveKeeps(w, Ops.Starting, "codex_app_server_starting", now, ioOk, AtConnect(r),
      FinReceipt(r, Failed, "operation_start_failed", false));
  }

  lemma ConnectKeeps(w: World, r: Exec, now: nat, answer: Answer)
    requires Good(w) && w.job == AtConnect(r)
    ensures Advances(w, ConnectStep(w, r, now, answer))
  {
    JobChange(w, ConnectStep(w, r, now, answer).job);
  }

  lemma ThreadKeeps(w: World, r: Exec, now: nat, ioOk: bool)
    requires Good(w) && w.job == PublishThread(r)
    ensures Advances(w, Publish(w, r, now, ioOk, AtRunning(r), Marking))
  {
    PublishKeeps(w, r, now, ioOk, AtRunning(r), Marking);
  }

  lemma RunningKeeps(w: World, r: Exec, now: nat, ioOk: bool)
    requires Good(w) && w.job == AtRunning(r)
    ensures Advances(w, RunningStep(w, r, now, ioOk))
  {
    MoveKeeps(w, Ops.Running, "codex_turn_start_requested", now, ioOk,
      SealedOr(WithTurnRequested(r, now), PublishRequest(WithTurnRequested(r, now)), Idle),
      FinReceipt(r, Failed, "operation_running_transition_failed", false));
  }

  lemma RequestKeeps(w: World, r: Exec, now: nat, ioOk: bool)
    requires Good(w) && w.job == PublishRequest(r)
    ensures Advances(w, Publish(w, r, now, ioOk, AtTurn(r), Marking))
  {
    PublishKeeps(w, r, now, ioOk, AtTurn(r), Marking);
  }

  lemma TurnSentKeeps(w: World, r: Exec)
    requires Good(w) && w.job == AtTurn(r)
    ensures Advances(w, TurnSent(w, AwaitTurn(r)))
  {}

  lemma AnswerKeeps(w: World, r: Exec, now: nat, answer: Answer)
    requires Good(w) && w.job == AwaitTurn(r)
    ensures Advances(w, TurnAnswered(w, r, now, answer))
  {
    if !answer.Rejected? {
      JobChange(w, TurnAnswered(w, r, now, answer).job);
    }
  }

  lemma TurnKeeps(w: World, r: Exec, now: nat, ioOk: bool, answer: Answer)
    requires Good(w) && w.job == PublishTurn(r)
    ensures Advances(w, PublishTurnStep(w, r, now, ioOk, answer))
  {
    if answer.Lost? {
      PublishKeeps(w, r, now, ioOk, FinReceipt(r, OutcomeUnknown, "active_registry_unavailable", true), Marking);
    } else {
      RegisterKeeps(w, r, now, ioOk, Marking);
    }
  }

  lemma EventKeeps(w: World, r: Exec, event: string, now: nat, ioOk: bool)
    requires Good(w) && w.job == PublishEvent(r, event)
    ensures Advances(w, PublishEventStep(w, r, event, now, ioOk))
  {
    PutAppends(w, r, now, ioOk);
    if ioOk {
      RegisterKeeps(w, r, now, ioOk, Idle);
    } else {
      FinalizeChange(w, w.active.value, OutcomeUnknown, event, true);
    }
  }

  lemma CancellingKeeps(w: World, now: nat, ioOk: bool)
    requires Good(w) && w.job == AtCancelling
    ensures Advances(w, Move(w, Ops.Cancelling, "codex_interrupt_requested", now, ioOk, SendInterrupt, Idle))
  {
    MoveKeeps(w, Ops.Cancelling, "codex_interrupt_requested", now, ioOk, SendInterrupt, Idle);
  }

  lemma InterruptAppendable(w: World, now: nat)
    requires Core(w) && w.active.Some? && ShapeOk(WithInterrupt(w.active.value, now))
    ensures var r := WithInterrupt(w.active.value, now);
      Appendable(w, r) && r.thread.Some? && r.turn.Some?
  {}

  lemma SendKeeps(w: World, now: nat, answer: Answer)
    requires Good(w) && w.job == SendInterrupt
    ensures Advances(w, SendInterruptStep(w, now, answer))
  {
    hide ExecsInv, ReceiptInv, TurnInv, StoreInv;
    var job := SendInterruptStep(w, now, answer).job;
    if job.PublishInterrupt? { InterruptAppendable(w, now); }
    hide ActiveInv, ShapeOk, WithInterrupt;
    JobChange(w, job);
  }

  lemma InterruptRecordKeeps(w: World, r: Exec, now: nat, ioOk: bool)
    requires Good(w) && w.job == PublishInterrupt(r)
    ensures Advances(w, Register(w, PutExec(w.execs, r, now, ioOk), r, Marking))
  {
    RegisterKeeps(w, r, now, ioOk, Marking);
  }

  lemma MarkKeeps(w: World, now: nat, ioOk: bool)
    requires Good(w)
    ensures Advances(w, WithStore(w, Marked(w, now, ioOk), Idle))
  {
    if Present(w) {
      HarmlessCallsNeverSucceed(w.store, Facts.On(w.opId, Ops.Transition(Ops.OutcomeUnknown, "codex_outcome_unknown")),
        now, ioOk, w.opId);
      HarmlessCallsNeverSucceed(w.store, Facts.On(w.opId, Ops.Complete(FailureReport("TOOL_OUTCOME_UNKNOWN",
        "The Codex operation outcome could not be reconciled."))), now, ioOk, w.opId);
    }
    StoreChange(w, Marked(w, now, ioOk), Idle);
  }

  // Filing the receipt: the invariant of the receipt starts to hold of it.
  lemma FilingKeeps(w: World, receipt: Receipt, job: Job)
    requires Core(w) && w.receipt.None? && w.active.None? && Newest(w, receipt.subject)
      && ReceiptMatches(receipt, receipt.subject)
    requires receipt.state.EffectSucceeded? ==> w.successSeen && receipt.subject.turn.Some?
    requires w.turnsIssued == 1 && !w.turnRefused ==> receipt.sourceEffectStarted
    ensures Core(ReceiptFiled(w, receipt, job)) && After(w, ReceiptFiled(w, receipt, job))
  {}

  lemma FinReceiptKeeps(w: World, r: Exec, wanted: ExecState, event: string, started: bool, now: nat, ioOk: bool)
    requires Good(w) && w.job == FinReceipt(r, wanted, event, started)
    ensures Advances(w, FinReceiptStep(w, r, wanted, event, started, now, ioOk))
  {
    if RequestedEffect(wanted).None? {
      JobChange(w, Idle);
    } else if w.receipt.Some? {
      StoredReceiptKeeps(w, r, wanted, event, started);
    } else {
      FreshReceiptKeeps(w, r, wanted, RequestedEffect(wanted).value, event, started, now, ioOk);
    }
    hide Good, Advances, ReceiptStep;
  }

  lemma StoredReceiptKeeps(w: World, r: Exec, wanted: ExecState, event: string, started: bool)
    requires Good(w) && w.job == FinReceipt(r, wanted, event, started) && w.receipt.Some?
    ensures var concluded := Concluded(r, w.receipt.value);
      Advances(w, ToJob(w, Idle)) && Advances(w, ToJob(w, SealedOr(concluded, FinExec(concluded), Idle)))
  {
    hide ShapeOk, Concluded, ReceiptMatches, ExecsInv, ReceiptInv, ActiveInv, TurnInv, StoreInv, MayHaveStarted;
    JobChange(w, Idle);
    JobChange(w, SealedOr(Concluded(r, w.receipt.value), FinExec(Concluded(r, w.receipt.value)), Idle));
  }

  lemma FreshReceiptKeeps(w: World, r: Exec, wanted: ExecState, effect: EffectState, event: string, started: bool,
      now: nat, ioOk: bool)
    requires Good(w) && w.job == FinReceipt(r, wanted, event, started) && w.receipt.None?
    requires RequestedEffect(wanted) == Some(effect)
    ensures Advances(w, ReceiptStep(w, r, effect, event, started, now, ioOk))
  {
    var receipt := NewReceipt(r, effect, event, now, started);
    assert receipt.state == effect && receipt.subject == r && receipt.sourceEffectStarted == started;
    assert effect.EffectSucceeded? ==> wanted.Completed?;
    hide NewReceipt, RequestedEffect, ReceiptMatches, Advances;
    if ReceiptMatches(receipt, r) && ioOk {
      FiledKeeps(w, r, wanted, event, started, receipt);
    } else {
      NothingFiled(w);
    }
    hide Good;
  }

  lemma NothingFiled(w: World)
    requires Good(w)
    ensures Advances(w, ToJob(w, Idle))
  {
    hide ExecsInv, ReceiptInv, ActiveInv, TurnInv, StoreInv;
    JobChange(w, Idle);
  }

  lemma FiledKeeps(w: World, r: Exec, wanted: ExecState, event: string, started: bool, receipt: Receipt)
    requires Good(w) && w.job == FinReceipt(r, wanted, event, started) && w.receipt.None?
    requires ReceiptMatches(receipt, r) && receipt.subject == r && receipt.sourceEffectStarted == started
    requires receipt.state.EffectSucceeded? ==> wanted.Completed?
    ensures Advances(w, ReceiptFiled(w, receipt, SealedOr(Concluded(r, receipt), FinExec(Concluded(r, receipt)), Idle)))
  {
    hide ShapeOk, Concluded, ReceiptMatches, ExecsInv, ReceiptInv, ActiveInv, TurnInv, StoreInv;
    FilingKeeps(w, receipt, SealedOr(Concluded(r, receipt), FinExec(Concluded(r, receipt)), Idle));
  }

  lemma ConclusionKeeps(w: World, r: Exec, now: nat, ioOk: bool)
    requires Good(w) && w.job == FinExec(r)
    ensures Advances(w, Publish(w, r, now, ioOk, Reconciling(r), Idle))
  {
    PutAppends(w, r, now, ioOk);
    var w' := Publish(w, r, now, ioOk, Reconciling(r), Idle);
    if ioOk {
      AppendKeepsExecs(w, Stored(r, now), w');
      assert w'.execs[|w'.execs| - 2] == w.execs[|w.execs| - 1];
    }
  }

  lemma ReconcileKeeps(w: World, r: Exec, now: nat, ioOk: bool)
    requires Good(w) && w.job == Reconciling(r)
    ensures Advances(w, WithStore(w, Reconciled(w, r, now, ioOk), Idle))
  {
    ReconciledStore(w, r, now, ioOk);
    StoreChange(w, Reconciled(w, r, now, ioOk), Idle);
  }

  lemma ReconciledStore(w: World, r: Exec, now: nat, ioOk: bool)
    requires Facts.SystemInv(w.store)
    ensures Facts.SystemInv(Reconciled(w, r, now, ioOk))
    ensures Succeeded(Reconciled(w, r, now, ioOk), w.opId) ==> Succeeded(w.store, w.opId) || r.state.Completed?
  {
    if Present(w) {
      match ReconcilePlan(CurrentStatus(w), r)
      case CallStore(m) =>
        if r.state.Completed? {
          StoreKeeps(w.store, Facts.Invoke(Facts.On(w.opId, m), now, ioOk));
        } else {
          HarmlessCallsNeverSucceed(w.store, Facts.On(w.opId, m), now, ioOk, w.opId);
        }
      case _ =>
    }
  }

  // Handing the newest open record to finalization with an unknown outcome is always right when the
  // effect flag is at least what the record itself says.
  lemma GiveUpKeeps(w: World, r: Exec, event: string, effect: bool)
    requires Core(w) && Newest(w, r)
    requires MayHaveStarted(r) ==> effect
    ensures Advances(w, ToFinalize(w, r, OutcomeUnknown, event, effect))
  {
    FinalizeChange(w, r, OutcomeUnknown, event, effect);
  }

  lemma ReconcileCommandKeeps(w: World, r: Exec)
    requires Core(w) && Settled(w) && r == Last(w)
    ensures Advances(w, ToJob(w, Reconciling(r))) && Advances(w, ToReconcile(w, r))
  {
    JobChange(w, Reconciling(r));
    assert w.active.None?;
  }

  lemma LaunchKeeps(w: World, binding: string, startedAt: nat)
    requires Good(w) && w.job == Idle
    ensures Advances(w, LaunchCommand(w, binding, startedAt))
  {
    LatestIsLast(w);
    if Present(w) && Launchable(CurrentStatus(w)) {
      if w.execs == [] {
        JobChange(w, PublishFirst(FirstRecord(Identity(w.opId, binding, startedAt))));
      } else if Last(w).identity.binding == binding {
        if Settled(w) {
          ReconcileCommandKeeps(w, Last(w));
        } else if w.active.None? {
          GiveUpKeeps(w, Last(w), "launch_retry_requires_reconciliation", MayHaveStarted(Last(w)));
        }
      }
    }
  }

  lemma HeardKeeps(w: World, notice: Notice)
    requires Good(w) && w.job == Idle && w.active.Some?
    ensures Advances(w, Heard(w, notice))
  {}

  lemma EndKeeps(w: World, end: TurnEnd)
    requires Good(w) && w.job == Idle && w.active.Some? && (end.EndCompleted? ==> w.successSeen)
    ensures Advances(w, ToFinalize(w, w.active.value, StateOfEnd(end), "turn_completed", true))
  {
    FinalizeChange(w, w.active.value, StateOfEnd(end), "turn_completed", true);
  }

  lemma EventCommandKeeps(w: World, text: string, now: nat)
    requires Good(w) && w.job == Idle && w.active.Some?
    requires ShapeOk(WithNotification(w.active.value, text, now))
    ensures Advances(w, ToJob(w,
      PublishEvent(WithNotification(w.active.value, text, now), "event_publication_outcome_unknown")))
  {
    JobChange(w, PublishEvent(WithNotification(w.active.value, text, now), "event_publication_outcome_unknown"));
  }

  lemma NoticeKeeps(w: World, notice: Notice, now: nat)
    requires Good(w) && w.job == Idle && w.active.Some? && (notice == TurnEnded(EndCompleted) ==> w.successSeen)
    ensures Advances(w, OnNotice(w, w.active.value, notice, now))
  {
    match notice
    case Timeout =>
    case ConnectionLost => GiveUpKeeps(w, w.active.value, "app_server_lost_outcome_unknown", true);
    case TurnEnded(end) => EndKeeps(w, end);
    case OtherNotice(text) =>
      if ShapeOk(WithNotification(w.active.value, text, now)) {
        EventCommandKeeps(w, text, now);
      } else {
        GiveUpKeeps(w, w.active.value, "protocol_event_outcome_unknown", true);
      }
  }

  lemma AfterTransitive(a: World, b: World, c: World)
    requires Good(a) && Good(b) && Good(c) && After(a, b) && After(b, c)
    ensures After(a, c)
  {
    if a.receipt.Some? && |c.execs| > |a.execs| {
      if |b.execs| > |a.execs| {
        assert c.execs[|a.execs|] == b.execs[|a.execs|];
        assert Settled(b);
      }
    }
  }

  lemma ActiveStatusKeeps(w: World, notice: Notice, lockPoisoned: bool, now: nat)
    requires Good(w) && w.job == Idle && w.active.Some?
    ensures Advances(w, ActiveStatus(w, Last(w), w.active.value, notice, lockPoisoned, now))
  {
    if lockPoisoned {
      GiveUpKeeps(w, Last(w), "active_execution_lock_outcome_unknown", true);
    } else {
      HeardKeeps(w, notice);
      NoticeKeeps(Heard(w, notice), notice, now);
      AfterTransitive(w, Heard(w, notice), OnNotice(Heard(w, notice), w.active.value, notice, now));
    }
  }

  lemma ActiveIsNewest(w: World)
    requires Good(w)
    ensures w.active.Some? ==> w.execs != [] && !Settled(w) && w.active.value == Last(w)
  {}

  lemma StatusKeeps(w: World, notice: Notice, lockPoisoned: bool, now: nat)
    requires Good(w) && w.job == Idle
    ensures Advances(w, StatusCommand(w, notice, lockPoisoned, now))
  {
    LatestIsLast(w);
    AdvancesSelf(w);
    ActiveIsNewest(w);
    hide Good, Advances, ActiveStatus, ToFinalize, ToReconcile;
    if w.store.memory.Some? && w.execs != [] {
      if Settled(w) {
        ReconcileCommandKeeps(w, Last(w));
      } else if w.active.None? {
        GiveUpKeeps(w, Last(w), "controller_restarted_outcome_unknown", MayHaveStarted(Last(w)));
      } else {
        ActiveStatusKeeps(w, notice, lockPoisoned, now);
      }
    }
  }

  lemma ActiveInterruptKeeps(w: World, lockPoisoned: bool)
    requires Good(w) && w.job == Idle && w.active.Some?
    ensures Advances(w, ActiveInterrupt(w, Last(w), w.active.value, lockPoisoned))
  {
    if lockPoisoned {
      GiveUpKeeps(w, Last(w), "interrupt_lock_outcome_unknown", true);
    } else {
      JobChange(w, AtCancelling);
    }
  }

  lemma InterruptKeeps(w: World, lockPoisoned: bool)
    requires Good(w) && w.job == Idle
    ensures Advances(w, InterruptCommand(w, lockPoisoned))
  {
    LatestIsLast(w);
    AdvancesSelf(w);
    ActiveIsNewest(w);
    hide Good, Advances, ActiveInterrupt, ToFinalize, ToReconcile;
    if w.store.memory.Some? && w.execs != [] {
      if Settled(w) {
        ReconcileCommandKeeps(w, Last(w));
      } else if w.active.None? {
        GiveUpKeeps(w, Last(w), "interrupt_after_controller_restart", MayHaveStarted(Last(w)));
      } else {
        ActiveInterruptKeeps(w, lockPoisoned);
      }
    }
  }

  lemma CrashKeeps(w: World, at: int, writeOk: bool)
    requires Good(w)
    ensures Advances(w, Crashed(w, at, writeOk))
  {
    RestartNeverSucceeds(w.store, at, writeOk, w.opId);
  }

  lemma ForeignKeeps(w: World, call: Facts.Call, calledAt: int, callOk: bool)
    requires Good(w) && Harmless(w.opId, call)
    ensures Advances(w, WithStore(w, Facts.Advance(w.store, Facts.Invoke(call, calledAt, callOk)), w.job))
  {
    hide ExecsInv, ReceiptInv, ActiveInv, TurnInv, Facts.SystemInv, Harmless, Facts.Advance, Succeeded;
    HarmlessCallsNeverSucceed(w.store, call, calledAt, callOk, w.opId);
    StoreChange(w, Facts.Advance(w.store, Facts.Invoke(call, calledAt, callOk)), w.job);
  }

  lemma LaunchStepKeeps(w: World, now: nat, ioOk: bool, answer: Answer)
    requires Good(w)
    requires w.job.PublishFirst? || w.job.AtQueue? || w.job.AtStart? || w.job.AtConnect? || w.job.PublishThread?
      || w.job.AtRunning?
    ensures Advances(w, ProceedStep(w, now, ioOk, answer))
  {
    hide Good, Advances, Publish, QueueStep, StartStep, ConnectStep, RunningStep;
    match w.job
    case PublishFirst(r) => FirstKeeps(w, r, now, ioOk);
    case AtQueue(r) => QueueKeeps(w, r, now, ioOk);
    case AtStart(r) => StartKeeps(w, r, now, ioOk);
    case AtConnect(r) => ConnectKeeps(w, r, now, answer);
    case PublishThread(r) => ThreadKeeps(w, r, now, ioOk);
    case AtRunning(r) => RunningKeeps(w, r, now, ioOk);
  }

  lemma TurnStepKeeps(w: World, now: nat, ioOk: bool, answer: Answer)
    requires Good(w)
    requires w.job.PublishRequest? || w.job.AtTurn? || w.job.AwaitTurn? || w.job.PublishTurn? || w.job.PublishEvent?
    ensures Advances(w, ProceedStep(w, now, ioOk, answer))
  {
    hide Good, Advances, Publish, TurnAnswered, PublishTurnStep, PublishEventStep;
    match w.job
    case PublishRequest(r) => RequestKeeps(w, r, now, ioOk);
    case AtTurn(r) => TurnSentKeeps(w, r);
    case AwaitTurn(r) => AnswerKeeps(w, r, now, answer);
    case PublishTurn(r) => TurnKeeps(w, r, now, ioOk, answer);
    case PublishEvent(r, event) => EventKeeps(w, r, event, now, ioOk);
  }

  lemma EndStepKeeps(w: World, now: nat, ioOk: bool, answer: Answer)
    requires Good(w)
    requires w.job.AtCancelling? || w.job.SendInterrupt? || w.job.PublishInterrupt? || w.job.Marking?
      || w.job.FinReceipt? || w.job.FinExec? || w.job.Reconciling?
    ensures Advances(w, ProceedStep(w, now, ioOk, answer))
  {
    hide Good, Advances, Publish, Move, SendInterruptStep, Register, PutExec, Marked, Reconciled, FinReceiptStep;
    match w.job
    case AtCancelling => CancellingKeeps(w, now, ioOk);
    case SendInterrupt => SendKeeps(w, now, answer);
    case PublishInterrupt(r) => InterruptRecordKeeps(w, r, now, ioOk);
    case Marking => MarkKeeps(w, now, ioOk);
    case FinReceipt(r, wanted, event, started) => FinReceiptKeeps(w, r, wanted, event, started, now, ioOk);
    case FinExec(r) => ConclusionKeeps(w, r, now, ioOk);
    case Reconciling(r) => ReconcileKeeps(w, r, now, ioOk);
  }

  lemma ProceedKeeps(w: World, now: nat, ioOk: bool, answer: Answer)
    requires Good(w)
    ensures Advances(w, ProceedStep(w, now, ioOk, answer))
  {
    AdvancesSelf(w);
    hide Good, Advances, Publish, QueueStep, StartStep, ConnectStep, RunningStep, TurnAnswered, PublishTurnStep,
      PublishEventStep, Move, SendInterruptStep, Register, PutExec, Marked, Reconciled, FinReceiptStep;
    if w.job.PublishFirst? || w.job.AtQueue? || w.job.AtStart? || w.job.AtConnect? || w.job.PublishThread?
      || w.job.AtRunning? {
      LaunchStepKeeps(w, now, ioOk, answer);
    } else if w.job.PublishRequest? || w.job.AtTurn? || w.job.AwaitTurn? || w.job.PublishTurn? || w.job.PublishEvent? {
      TurnStepKeeps(w, now, ioOk, answer);
    } else if !w.job.Idle? {
      EndStepKeeps(w, now, ioOk, answer);
    }
  }

  lemma AdvancesSelf(w: World)
    requires Good(w)
    ensures Advances(w, w)
  {}

  // Every event keeps the invariant and only adds to the documents.
  lemma NextKeeps(w: World, e: Event)
    requires Good(w)
    ensures Advances(w, Next(w, e))
  {
    AdvancesSelf(w);
    hide Good, Advances, ProceedStep, LaunchCommand, StatusCommand, InterruptCommand, Crashed, Harmless, WithStore;
    match e
    case Crash(at, writeOk) => CrashKeeps(w, at, writeOk);
    case Foreign(call, calledAt, callOk) => if Harmless(w.opId, call) { ForeignKeeps(w, call, calledAt, callOk); }
    case Launch(binding, startedAt) => if w.job.Idle? { LaunchKeeps(w, binding, startedAt); }
    case Status(notice, lockPoisoned, seenAt) => if w.job.Idle? { StatusKeeps(w, notice, lockPoisoned, seenAt); }
    case Interrupt(lockPoisoned) => if w.job.Idle? { InterruptKeeps(w, lockPoisoned); }
    case Proceed(now, ioOk, answer) => ProceedKeeps(w, now, ioOk, answer);
  }

  lemma {:induction false} RunKeeps(w: World, events: seq<Event>)
    requires Good(w)
    ensures Advances(w, Run(w, events))
    decreases |events|
  {
    if events != [] {
      var mid := Next(w, events[0]);
      NextKeeps(w, events[0]);
      RunKeeps(mid, events[1..]);
      AfterTransitive(w, mid, Run(mid, events[1..]));
    }
  }

  lemma StartIsGood(opId: string)
    ensures Good(Start(opId))
  {}
}
