/** What holds of a Codex execution over every run of commands, foreign calls, failed writes, crashes and restarts. */
module CodexTheorems {
  import opened Basics
  import opened CodexRecords
  import opened CodexProtocol
  import opened CodexFacts
  import Ops = Operations
  import Facts = OperationFacts

  ghost function Reached(opId: string, events: seq<Event>): (w: World)
    ensures Good(w) && w.opId == opId
  {
    StartIsGood(opId);
    RunKeeps(Start(opId), events);
    Run(Start(opId), events)
  }

  // Whatever is retried, asked, interrupted, crashed and restarted: one approved Operation gets at
  // most one turn, and none at all without a durable record that has the request marked in it.
  lemma AtMostOneTurn(opId: string, events: seq<Event>)
    ensures var w := Run(Start(opId), events);
      && w.turnsIssued <= 1
      && (w.turnsIssued == 1 ==> exists i :: 0 <= i < |w.execs| && MayHaveStarted(w.execs[i].doc))
  {
    var w := Reached(opId, events);
    if w.turnsIssued == 1 {
      var i := if Settled(w) then |w.execs| - 2 else |w.execs| - 1;
      assert MayHaveStarted(w.execs[i].doc);
    }
  }

  // The effect is marked before it can happen: at every crash point after the turn was asked for, the
  // newest open record (or, once a terminal record follows it, the record its receipt is about) says
  // that the effect may have started, and a receipt denies it only after a definite refusal.
  lemma EffectMarkingIsWriteAhead(opId: string, events: seq<Event>)
    ensures var w := Run(Start(opId), events);
      w.turnsIssued == 1 ==>
        && w.execs != []
        && (!Settled(w) ==> MayHaveStarted(Last(w)))
        && (w.receipt.Some? ==> MayHaveStarted(w.receipt.value.subject))
        && (w.receipt.Some? && !w.receipt.value.sourceEffectStarted ==> w.turnRefused)
  {
    var w := Reached(opId, events);
  }

  // The terminal record itself keeps the mark exactly when the turn's own reference was recorded ...
  lemma TerminalRecordKeepsTheMarkExactlyWhen(opId: string, events: seq<Event>)
    ensures var w := Run(Start(opId), events);
      Settled(w) ==> w.receipt.Some? && (MayHaveStarted(Last(w)) <==> w.receipt.value.subject.turn.Some?)
  {
    var w := Reached(opId, events);
  }

  // ... so whenever the answer to the turn request is lost, the receipt says the effect may have
  // started and the terminal record built from it does not.
  lemma LostTurnIsForgottenByTheTerminalRecord(w: World, r: Exec, t1: nat, t2: nat, t3: nat)
    requires Good(w) && w.job == AwaitTurn(r) && w.store.memory.Some?
    requires r.identity.startedAt <= Millis(t2)
    ensures var filed := Next(Next(w, Proceed(t1, true, Lost)), Proceed(t2, true, Lost));
      var done := Next(filed, Proceed(t3, true, Lost));
      && Settled(done) && done.receipt.Some? && done.receipt.value.sourceEffectStarted
      && done.turnsIssued == 1 && !MayHaveStarted(Last(done))
  {
    assert w.receipt.None? && w.turnsIssued == 1 && r.turn.None?;
    hide Good, After, Settled, Next, NewReceipt;
    var lost := Next(w, Proceed(t1, true, Lost));
    NextKeeps(w, Proceed(t1, true, Lost));
    TurnLost(w, r, t1);
    LostIsForgotten(r, t2);
    FinalizationSteps(lost, r, OutcomeUnknown, EffectUnknown, "turn_start_failed", true, t2, t3);
  }

  lemma TurnLost(w: World, r: Exec, now: nat)
    requires w.job == AwaitTurn(r) && w.store.memory.Some?
    ensures Next(w, Proceed(now, true, Lost)) ==
      ToJob(w, FinReceipt(r, OutcomeUnknown, "turn_start_failed", true))
  {}

  lemma LostIsForgotten(r: Exec, now: nat)
    requires r.turn.None?
    ensures var receipt := NewReceipt(r, EffectUnknown, "turn_start_failed", now, true);
      && !MayHaveStarted(Concluded(r, receipt)) && receipt.sourceEffectStarted && receipt.observedAt == Millis(now)
  {}

  // The receipt a finalization goes by: the stored one, else the one it is about to file.
  ghost function Deciding(w: World, r: Exec, effect: EffectState, event: string, now: nat, started: bool): Receipt {
    if w.receipt.Some? then w.receipt.value else NewReceipt(r, effect, event, now, started)
  }

  lemma MillisBelow(t: nat)
    ensures Millis(t) <= t
  {}

  // First write: with the receipt durable, the terminal record is ready to be published exactly when
  // the receipt's millisecond is not before the start of the execution.
  lemma ReceiptStepDecides(w: World, r: Exec, wanted: ExecState, effect: EffectState, event: string, started: bool,
      now: nat)
    requires Good(w) && w.job == FinReceipt(r, wanted, event, started) && RequestedEffect(wanted) == Some(effect)
    ensures var receipt := Deciding(w, r, effect, event, now, started);
      var filed := FinReceiptStep(w, r, wanted, event, started, now, true);
      && filed.execs == w.execs && filed.turnsIssued == w.turnsIssued && filed.store == w.store
        && filed.active == w.active && filed.opId == w.opId
      && (r.identity.startedAt <= receipt.observedAt ==>
            filed.receipt == Some(receipt) && filed.job == FinExec(Concluded(r, receipt)))
      && (receipt.observedAt < r.identity.startedAt ==> filed.job == Idle)
  {
    FinalizationIsReady(w, r, wanted, effect, event, started);
    hide Good, ShapeOk, Concluded, RequestedEffect;
    var receipt := Deciding(w, r, effect, event, now, started);
    MillisBelow(r.identity.startedAt);
    if ReceiptMatches(receipt, r) {
      ConclusionSealsExactlyWhen(r, receipt);
    }
  }

  lemma FinalizationIsReady(w: World, r: Exec, wanted: ExecState, effect: EffectState, event: string, started: bool)
    requires Good(w) && w.job == FinReceipt(r, wanted, event, started) && RequestedEffect(wanted) == Some(effect)
    ensures ShapeOk(r) && !TerminalState(r.state)
    ensures effect.EffectSucceeded? ==> started && r.turn.Some?
    ensures w.receipt.Some? ==> ReceiptMatches(w.receipt.value, r)
    ensures w.receipt.Some? && w.receipt.value.state.EffectSucceeded? ==> r.turn.Some?
  {
    assert effect.EffectSucceeded? ==> wanted.Completed?;
    hide ReceiptMatches, ShapeOk, ActiveInv, TurnInv, StoreInv;
  }

  // Second write: the terminal record.
  lemma ConclusionStepSettles(w: World, r: Exec, now: nat)
    requires Good(w) && w.job == FinExec(r)
    ensures var done := Publish(w, r, now, true, Reconciling(r), Idle);
      && Settled(done) && Last(done) == r && done.receipt == w.receipt && done.store == w.store
      && done.turnsIssued == w.turnsIssued && done.job == Reconciling(r) && done.opId == w.opId
  {
    PutAppends(w, r, now, true);
  }

  lemma NewestIsOpen(w: World, r: Exec, wanted: ExecState, event: string, started: bool)
    requires Good(w) && w.job == FinReceipt(r, wanted, event, started)
    ensures !Settled(w)
  {}

  lemma FinalizationSteps(w: World, r: Exec, wanted: ExecState, effect: EffectState, event: string, started: bool,
      t1: nat, t2: nat)
    requires Good(w) && w.job == FinReceipt(r, wanted, event, started) && w.store.memory.Some?
    requires RequestedEffect(wanted) == Some(effect)
    ensures var receipt := Deciding(w, r, effect, event, t1, started);
      var done := Next(Next(w, Proceed(t1, true, Lost)), Proceed(t2, true, Lost));
      && Good(done) && done.turnsIssued == w.turnsIssued && done.store == w.store && done.opId == w.opId
      && (Settled(done) <==> r.identity.startedAt <= receipt.observedAt)
      && (if Settled(done) then done.receipt == Some(receipt) && Last(done) == Concluded(r, receipt)
        && done.job == Reconciling(Last(done))
          else done.job == Idle)
  {
    hide Good, Deciding, Concluded, FinReceiptStep, Publish, After, Next, RequestedEffect;
    var receipt := Deciding(w, r, effect, event, t1, started);
    var filed := Next(w, Proceed(t1, true, Lost));
    NextKeeps(w, Proceed(t1, true, Lost));
    NextFinReceipt(w, r, wanted, event, started, t1);
    ReceiptStepDecides(w, r, wanted, effect, event, started, t1);
    NextKeeps(filed, Proceed(t2, true, Lost));
    NewestIsOpen(w, r, wanted, event, started);
    if r.identity.startedAt <= receipt.observedAt {
      NextFinExec(filed, Concluded(r, receipt), t2);
      ConclusionStepSettles(filed, Concluded(r, receipt), t2);
    } else {
      NextIdle(filed, t2);
    }
  }

  lemma NextFinReceipt(w: World, r: Exec, wanted: ExecState, event: string, started: bool, now: nat)
    requires w.job == FinReceipt(r, wanted, event, started) && w.store.memory.Some?
    ensures Next(w, Proceed(now, true, Lost)) == FinReceiptStep(w, r, wanted, event, started, now, true)
  {
    hide FinReceiptStep;
  }

  lemma NextFinExec(w: World, r: Exec, now: nat)
    requires w.job == FinExec(r) && w.store.memory.Some?
    ensures Next(w, Proceed(now, true, Lost)) == Publish(w, r, now, true, Reconciling(r), Idle)
  {
    hide Publish;
  }

  lemma NextIdle(w: World, now: nat)
    requires w.job.Idle?
    ensures Next(w, Proceed(now, true, Lost)) == w
  {}

  // The three stores never contradict each other: a succeeded Operation, in memory or on disk, has a
  // Completed record, which has a Succeeded receipt, which the App Server's own completion notice of
  // the one turn it was asked for stands behind.
  lemma StoresNeverContradict(opId: string, events: seq<Event>)
    ensures var w := Run(Start(opId), events);
      && (Succeeded(w.store, opId) ==> w.execs != [] && Last(w).state.Completed?)
      && (w.execs != [] && Last(w).state.Completed? ==>
            w.receipt.Some? && w.receipt.value.state.EffectSucceeded? && w.receipt.value.sourceEffectStarted)
      && (w.receipt.Some? && w.receipt.value.state.EffectSucceeded? ==> w.successSeen && w.turnsIssued == 1)
  {
    var w := Reached(opId, events);
  }

  // The first receipt decides: it is never replaced, at most one record follows the one it is about,
  // and that record is the one computed from the two, whatever later commands asked for.
  lemma FirstReceiptDecides(opId: string, before: seq<Event>, after: seq<Event>)
    ensures var w := Run(Start(opId), before);
      var later := Run(w, after);
      w.receipt.Some? ==>
        && later.receipt == w.receipt && later.execs != []
        && |later.execs| <= w.receipt.value.subject.revision + 1
        && (Settled(later) ==> Last(later) == Concluded(w.receipt.value.subject, w.receipt.value))
        && (!Settled(later) ==> Last(later) == w.receipt.value.subject)
  {
    var w := Reached(opId, before);
    RunKeeps(w, after);
  }

  // A record that is terminal at some point is the same record ever after.
  lemma TerminalRecordsAreFinal(opId: string, before: seq<Event>, after: seq<Event>)
    ensures var w := Run(Start(opId), before);
      Settled(w) ==> Run(w, after).execs == w.execs
  {
    var w := Reached(opId, before);
    RunKeeps(w, after);
    if Settled(w) {
      assert Run(w, after).execs[..|w.execs|] == w.execs;
    }
  }

  // What a status call does to an execution no handle is registered for, with all its writes done.
  ghost function StatusToTheEnd(w: World, t1: nat, t2: nat, t3: nat): World {
    Next(Next(Next(Next(w, Status(Timeout, false, 0)), Proceed(t1, true, Lost)), Proceed(t2, true, Lost)),
      Proceed(t3, true, Lost))
  }

  ghost predicate Orphaned(w: World) {
    w.job == Idle && w.store.memory.Some? && w.execs != [] && !Settled(w) && w.active.None?
  }

  // The Operation statuses an unknown outcome cannot be written to.
  predicate NotReconcilable(s: Ops.Status) {
    s.Received? || s.Resolving? || s.ApprovalWait? || s.Queued? || s.Unrecognised?
  }

  // What the planned call makes of the Operation.
  lemma PlanCloses(op: Ops.Operation, r: Exec, now: nat)
    requires r.state.Completed? || r.state.Failed? || r.state.Interrupted? || r.state.OutcomeUnknown?
    ensures var plan := ReconcilePlan(op.status, r);
      var after := if plan.CallStore? && Ops.MutateOp(op, plan.m, now).Updated? then
        Ops.MutateOp(op, plan.m, now).op else op;
      && (Ops.Terminal(after.status) <==> !(r.state.OutcomeUnknown? && NotReconcilable(op.status)))
      && (plan.CallStore? ==> Ops.Terminal(after.status))
      && (plan.AlreadyClosed? ==> Ops.Terminal(op.status))
  {}

  // What a written call leaves in the entry of the Operation.
  lemma WrittenCall(w: World, m: Ops.Mutation, now: nat)
    requires Present(w)
    ensures var op := w.store.memory.value.operations[w.opId];
      var after := OnOperation(w.store, w.opId, m, now, true);
      && after.memory.Some? && w.opId in after.memory.value.operations
      && after.memory.value.operations[w.opId] ==
        if Ops.MutateOp(op, m, now).Updated? then Ops.MutateOp(op, m, now).op else op
  {
    hide Ops.MutateOp;
  }

  lemma TerminalStates(w: World)
    requires Good(w) && Settled(w)
    ensures var s := Last(w).state;
      s.Completed? || s.Failed? || s.Interrupted? || s.OutcomeUnknown?
  {
    hide ExecsInv, TurnInv, StoreInv, JobInv, ReceiptMatches;
  }

  // Reconciliation with a written answer closes the Operation, except for an unknown outcome of one
  // that was never started; whenever it reports success the Operation is closed.
  lemma ReconciliationCloses(w: World, r: Exec, now: nat)
    requires Good(w) && w.job == Reconciling(r)
    ensures var done := WithStore(w, Reconciled(w, r, now, true), Idle);
      Present(w) ==>
        && Present(done)
        && (Ops.Terminal(CurrentStatus(done)) <==> !(r.state.OutcomeUnknown? && NotReconcilable(CurrentStatus(w))))
        && (ReconcileSucceeds(w, r, now, true) ==> Ops.Terminal(CurrentStatus(done)))
  {
    assert Settled(w) && r == Last(w);
    TerminalStates(w);
    hide Good, Ops.MutateOp, ReconcilePlan, NotReconcilable, Settled, OnOperation, CallSucceeds, Ops.Terminal;
    if Present(w) {
      PlanCloses(w.store.memory.value.operations[w.opId], r, now);
      var plan := ReconcilePlan(CurrentStatus(w), r);
      if plan.CallStore? { WrittenCall(w, plan.m, now); }
    }
  }

  // Finalization converges exactly when the clock lets it: an orphaned execution is brought to its
  // terminal record by one status call whose writes succeed if and only if the millisecond of the
  // receipt (the stored one, else the one being written) is not before the start of the execution.
  lemma OrphansAreFinalizedExactlyWhen(w: World, t1: nat, t2: nat, t3: nat)
    requires Good(w) && Orphaned(w)
    ensures var done := StatusToTheEnd(w, t1, t2, t3);
      var observed := if w.receipt.Some? then w.receipt.value.observedAt else Millis(t1);
      && (Settled(done) <==> Last(w).identity.startedAt <= observed)
      && (!Settled(done) ==> done.store == w.store)
  {
    var concluded := AskedAndConcluded(w, t1, t2);
    LastStep(concluded, t3);
  }

  // ... and then its Operation is closed too, unless the outcome is unknown and it was never started.
  lemma OrphansCloseTheirOperation(w: World, t1: nat, t2: nat, t3: nat)
    requires Good(w) && Orphaned(w) && Present(w)
    requires Settled(StatusToTheEnd(w, t1, t2, t3))
    ensures var done := StatusToTheEnd(w, t1, t2, t3);
      && Present(done)
      && (Ops.Terminal(CurrentStatus(done)) <==>
            !(Last(done).state.OutcomeUnknown? && NotReconcilable(CurrentStatus(w))))
  {
    hide Good, Next, Reconciled, ReconcileSucceeds;
    var concluded := AskedAndConcluded(w, t1, t2);
    LastStep(concluded, t3);
    ReconciliationCloses(concluded, Last(concluded), t3);
  }

  lemma OrphanAsked(w: World)
    requires Good(w) && Orphaned(w)
    ensures var r := Last(w);
      Next(w, Status(Timeout, false, 0)) ==
        ToFinalize(w, r, OutcomeUnknown, "controller_restarted_outcome_unknown", MayHaveStarted(r))
    ensures var asked := Next(w, Status(Timeout, false, 0));
      && asked.store == w.store && w.store.memory.Some? && asked.opId == w.opId && asked.receipt == w.receipt
      && asked.job == FinReceipt(Last(w), OutcomeUnknown, "controller_restarted_outcome_unknown",
        MayHaveStarted(Last(w)))
    ensures Good(Next(w, Status(Timeout, false, 0)))
  {
    LatestIsLast(w);
    NextKeeps(w, Status(Timeout, false, 0));
  }

  lemma LastStep(w: World, now: nat)
    requires w.job == Idle || w.job.Reconciling?
    ensures Next(w, Proceed(now, true, Lost)).execs == w.execs
    ensures w.job == Idle ==> Next(w, Proceed(now, true, Lost)) == w
    ensures w.job.Reconciling? && w.store.memory.Some? ==>
      Next(w, Proceed(now, true, Lost)) == WithStore(w, Reconciled(w, w.job.r, now, true), Idle)
  {}

  // The same world after the status call, the receipt and the terminal record.
  lemma AskedAndConcluded(w: World, t1: nat, t2: nat) returns (concluded: World)
    requires Good(w) && Orphaned(w)
    ensures concluded == Next(Next(Next(w, Status(Timeout, false, 0)), Proceed(t1, true, Lost)),
      Proceed(t2, true, Lost))
    ensures Good(concluded) && concluded.store == w.store && concluded.opId == w.opId
    ensures Settled(concluded) <==>
      Last(w).identity.startedAt <= (if w.receipt.Some? then w.receipt.value.observedAt else Millis(t1))
    ensures concluded.job == if Settled(concluded) then Reconciling(Last(concluded)) else Idle
    ensures Settled(concluded) && w.receipt.None? ==> Last(concluded).state.OutcomeUnknown?
  {
    hide Next, Good;
    var r := Last(w);
    var asked := Next(w, Status(Timeout, false, 0));
    OrphanAsked(w);
    FinalizationSteps(asked, r, OutcomeUnknown, EffectUnknown, "controller_restarted_outcome_unknown",
      MayHaveStarted(r), t1, t2);
    concluded := Next(Next(asked, Proceed(t1, true, Lost)), Proceed(t2, true, Lost));
  }

  // A receipt whose millisecond precedes the start of its execution can never be concluded: no
  // sequence of retries, status calls or restarts ever publishes a terminal record.
  lemma EarlyReceiptsAreNeverConcluded(opId: string, before: seq<Event>, after: seq<Event>)
    ensures var w := Run(Start(opId), before);
      w.receipt.Some? && w.receipt.value.observedAt < w.receipt.value.subject.identity.startedAt ==>
        !Settled(Run(w, after))
  {
    var w := Reached(opId, before);
    RunKeeps(w, after);
    FirstReceiptDecides(opId, before, after);
  }
}
