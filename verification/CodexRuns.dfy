/**
 Reachable runs on which natural claims about an execution fail: each lemma builds its run step by step
 from the start, with one Operation, one launch and at most two failed writes.
 */
module CodexRuns {
  import opened Basics
  import opened CodexRecords
  import opened CodexProtocol
  import opened CodexFacts
  import opened CodexTheorems
  import Ops = Operations
  import Facts = OperationFacts

  const REQUESTED := Ops.CreateRequest(
    Ops.Invocation("codex.start", "c", "t", "d", "a", {}, None, None, None, None, true), None, "h")

  // The launch begins in the middle of a millisecond; `LATER` is in a later one.
  const BEGUN: nat := 1_500_000
  const LATER: nat := 3_000_000

  const First := FirstRecord(Identity("op", "b", BEGUN))
  const Threaded := WithThread(First, "t", BEGUN)
  const Requested := WithTurnRequested(Threaded, BEGUN)

  function Waiting(): seq<Event> {
    [Foreign(Facts.NewOp(REQUESTED, "op"), 0, true),
     Foreign(Facts.On("op", Ops.Transition(Ops.ApprovalWait, "approval_required")), 0, true)]
  }

  function Step(ioOk: bool): Event {
    Proceed(BEGUN, ioOk, Lost)
  }

  ghost function At(events: seq<Event>): World {
    Run(Start("op"), events)
  }

  lemma {:induction false} RunOneMore(w: World, events: seq<Event>, e: Event)
    ensures Run(w, events + [e]) == Next(Run(w, events), e)
    decreases |events|
  {
    hide Next;
    var all := events + [e];
    if events == [] {
      assert all[0] == e && all[1..] == [];
      assert Run(w, all) == Run(Next(w, e), []);
    } else {
      assert all[0] == events[0] && all[1..] == events[1..] + [e];
      RunOneMore(Next(w, events[0]), events[1..], e);
    }
  }

  /* The stages of a launch. */

  // An execution on its way, with its Operation in this status and no receipt yet.
  ghost predicate Stage(w: World, status: Ops.Status, job: Job, records: seq<Stored>) {
    && Good(w) && w.opId == "op" && Present(w) && CurrentStatus(w) == status
    && w.job == job && w.execs == records && w.receipt.None? && w.active.None?
  }

  lemma Advance(events: seq<Event>, e: Event)
    ensures At(events + [e]) == Next(At(events), e) && Good(At(events + [e]))
  {
    RunOneMore(Start("op"), events, e);
    var _ := Reached("op", events + [e]);
  }

  lemma WaitingStage()
    ensures Stage(At(Waiting()), Ops.ApprovalWait, Idle, [])
  {
    var w := Start("op");
    var one := Next(w, Waiting()[0]);
    assert Present(one) && CurrentStatus(one).Received?;
    var two := Next(one, Waiting()[1]);
    assert Present(two) && CurrentStatus(two).ApprovalWait?;
    assert Waiting()[1..] == [Waiting()[1]] && Waiting()[1..][1..] == [];
    assert At(Waiting()) == Run(one, Waiting()[1..]) == Run(two, []);
    var _ := Reached("op", Waiting());
    hide Good;
  }

  lemma LaunchStage(events: seq<Event>)
    requires Stage(At(events), Ops.ApprovalWait, Idle, [])
    ensures Stage(At(events + [Launch("b", BEGUN)]), Ops.ApprovalWait, PublishFirst(First), [])
  {
    Advance(events, Launch("b", BEGUN));
    hide Good, Run, At, FirstRecord;
  }

  // A record is written.
  lemma PublishStage(events: seq<Event>, status: Ops.Status, job: Job, next: Job, otherwise: Job, doc: Exec,
      records: seq<Stored>)
    requires Stage(At(events), status, job, records) && doc.revision == |records| + 1
    requires Next(At(events), Step(true)) == Publish(At(events), doc, BEGUN, true, next, otherwise)
    ensures Stage(At(events + [Step(true)]), status, next, records + [Stored(doc, BEGUN)])
  {
    Advance(events, Step(true));
    PutAppends(At(events), doc, BEGUN, true);
    hide Good, Run, At, Next, PutExec;
  }

  // The Operation moves on, in memory even where its write fails.
  lemma MoveStage(events: seq<Event>, from: Ops.Status, to: Ops.Status, detail: string, ioOk: bool, job: Job, next: Job,
      otherwise: Job, records: seq<Stored>)
    requires Stage(At(events), from, job, records) && !Ops.Terminal(from) && Ops.ValidTransition(from, to)
    requires Next(At(events), Step(ioOk)) == Move(At(events), to, detail, BEGUN, ioOk, next, otherwise)
    ensures Stage(At(events + [Step(ioOk)]), to, if ioOk then next else otherwise, records)
  {
    Advance(events, Step(ioOk));
    hide Good, Run, At, Next, Ops.Terminal, Ops.ValidTransition;
  }

  // The step each stage takes.
  lemma PublishSteps(w: World, status: Ops.Status, job: Job, records: seq<Stored>)
    requires Stage(w, status, job, records)
    ensures job == PublishFirst(First) ==>
      Next(w, Step(true)) == Publish(w, First, BEGUN, true, AtQueue(First), Idle)
    ensures job == PublishThread(Threaded) ==>
      Next(w, Step(true)) == Publish(w, Threaded, BEGUN, true, AtRunning(Threaded), Marking)
    ensures job == PublishRequest(Requested) ==>
      Next(w, Step(true)) == Publish(w, Requested, BEGUN, true, AtTurn(Requested), Marking)
  {
    hide Good, Publish, WithThread, WithTurnRequested, FirstRecord;
  }

  lemma MoveSteps(w: World, status: Ops.Status, job: Job, records: seq<Stored>, ioOk: bool)
    requires Stage(w, status, job, records)
    ensures job == AtQueue(First) ==>
      Next(w, Step(ioOk)) == Move(w, Ops.Queued, "codex_execution_approved", BEGUN, ioOk, AtStart(First),
        FinReceipt(First, Failed, "operation_queue_failed", false))
    ensures job == AtStart(First) ==>
      Next(w, Step(ioOk)) == Move(w, Ops.Starting, "codex_app_server_starting", BEGUN, ioOk, AtConnect(First),
        FinReceipt(First, Failed, "operation_start_failed", false))
    ensures job == AtRunning(Threaded) ==>
      Next(w, Step(ioOk)) == Move(w, Ops.Running, "codex_turn_start_requested", BEGUN, ioOk, PublishRequest(Requested),
        FinReceipt(Threaded, Failed, "operation_running_transition_failed", false))
  {
    hide Good, Move, ShapeOk, WithThread, WithTurnRequested, FirstRecord, CurrentStatus;
    RequestedSeals();
  }

  lemma RequestedSeals()
    ensures ShapeOk(Threaded) && ShapeOk(Requested)
  {}

  lemma FirstWritten() returns (events: seq<Event>)
    ensures Stage(At(events), Ops.ApprovalWait, AtQueue(First), [Stored(First, BEGUN)])
  {
    hide Stage, Good, Next, Run, At, Publish, WithThread, FirstRecord;
    WaitingStage();
    LaunchStage(Waiting());
    events := Waiting() + [Launch("b", BEGUN)];
    PublishSteps(At(events), Ops.ApprovalWait, PublishFirst(First), []);
    FirstRevisions();
    PublishStage(events, Ops.ApprovalWait, PublishFirst(First), AtQueue(First), Idle, First, []);
    events := events + [Step(true)];
    assert [] + [Stored(First, BEGUN)] == [Stored(First, BEGUN)];
  }

  lemma FirstRevisions()
    ensures First.revision == 1 && Threaded.revision == 2 && Requested.revision == 3
  {}

  lemma QueueRefused() returns (events: seq<Event>)
    ensures Stage(At(events), Ops.Queued, FinReceipt(First, Failed, "operation_queue_failed", false),
      [Stored(First, BEGUN)])
  {
    hide Stage, Good, Next, Run, At, Move;
    events := FirstWritten();
    MoveSteps(At(events), Ops.ApprovalWait, AtQueue(First), [Stored(First, BEGUN)], false);
    MoveStage(events, Ops.ApprovalWait, Ops.Queued, "codex_execution_approved", false, AtQueue(First), AtStart(First),
      FinReceipt(First, Failed, "operation_queue_failed", false), [Stored(First, BEGUN)]);
    events := events + [Step(false)];
  }

  /* A receipt that is too early. */

  lemma ReceiptIsFiled(w: World)
    requires w.job == FinReceipt(First, Failed, "operation_queue_failed", false) && w.receipt.None?
    requires w.store.memory.Some?
    ensures Next(w, Step(true)).receipt == Some(NewReceipt(First, EffectFailed, "operation_queue_failed", BEGUN, false))
  {}

  // With one failed write the execution is never finalized: the receipt is filed within the millisecond
  // the launch began in, so its time lies before the start.
  lemma FinalizationCanBeStuck() returns (events: seq<Event>)
    ensures At(events).receipt.Some?
    ensures forall after: seq<Event> :: !Settled(Run(At(events), after))
  {
    var before := QueueRefused();
    events := before + [Step(true)];
    Advance(before, Step(true));
    hide Good, Settled, Next, Run;
    ReceiptIsFiled(At(before));
    forall after: seq<Event>
      ensures !Settled(Run(At(events), after))
    {
      EarlyReceiptsAreNeverConcluded("op", events, after);
    }
  }

  /* An execution settled, its Operation open. */

  lemma OrphanEndsUnknown(w: World)
    requires Good(w) && Orphaned(w) && w.receipt.None? && Last(w).identity.startedAt <= Millis(LATER)
    ensures var done := StatusToTheEnd(w, LATER, LATER, LATER);
      Settled(done) && Last(done).state.OutcomeUnknown?
  {
    hide Good, Next;
    var concluded := AskedAndConcluded(w, LATER, LATER);
    LastStep(concluded, LATER);
  }

  lemma StatusIsARun(events: seq<Event>) returns (more: seq<Event>)
    ensures At(more) == StatusToTheEnd(At(events), LATER, LATER, LATER)
  {
    hide Next;
    var later := Proceed(LATER, true, Lost);
    more := events + [Status(Timeout, false, 0)];
    RunOneMore(Start("op"), events, Status(Timeout, false, 0));
    RunOneMore(Start("op"), more, later);
    RunOneMore(Start("op"), more + [later], later);
    RunOneMore(Start("op"), more + [later] + [later], later);
    more := more + [later] + [later] + [later];
  }

  lemma ReceiptIsRefused(w: World)
    requires Stage(w, Ops.Queued, FinReceipt(First, Failed, "operation_queue_failed", false), [Stored(First, BEGUN)])
    ensures var after := Next(w, Step(false));
      && Orphaned(after) && Present(after) && CurrentStatus(after) == Ops.Queued
      && after.receipt.None? && Last(after) == First
  {
    hide Good, NewReceipt;
  }

  // Both writes after the first record fail, and a later status call, all of whose writes succeed, settles
  // the execution: its outcome is unknown, and its Operation stays queued.
  lemma ReconciliationCanLeaveTheOperationOpen() returns (events: seq<Event>)
    ensures Settled(At(events)) && Last(At(events)).state.OutcomeUnknown?
    ensures Present(At(events)) && !Ops.Terminal(CurrentStatus(At(events)))
  {
    hide Good, Next, Run, At, Settled;
    var before := QueueRefused();
    var orphaned := before + [Step(false)];
    Advance(before, Step(false));
    ReceiptIsRefused(At(before));
    OrphanEndsUnknown(At(orphaned));
    OrphansCloseTheirOperation(At(orphaned), LATER, LATER, LATER);
    events := StatusIsARun(orphaned);
  }

  /* A turn whose answer is lost. */

  lemma ThreadReady() returns (events: seq<Event>)
    ensures Stage(At(events), Ops.Starting, AtRunning(Threaded), [Stored(First, BEGUN), Stored(Threaded, BEGUN)])
  {
    hide Stage, Good, Next, Run, At, Move, Publish, WithThread, FirstRecord;
    FirstRevisions();
    var queue := FirstWritten();
    var records := [Stored(First, BEGUN)];
    MoveSteps(At(queue), Ops.ApprovalWait, AtQueue(First), records, true);
    MoveStage(queue, Ops.ApprovalWait, Ops.Queued, "codex_execution_approved", true, AtQueue(First), AtStart(First),
      FinReceipt(First, Failed, "operation_queue_failed", false), records);
    var start := queue + [Step(true)];
    MoveSteps(At(start), Ops.Queued, AtStart(First), records, true);
    MoveStage(start, Ops.Queued, Ops.Starting, "codex_app_server_starting", true, AtStart(First), AtConnect(First),
      FinReceipt(First, Failed, "operation_start_failed", false), records);
    var connect := start + [Step(true)];
    ConnectStage(connect, records);
    var publish := connect + [Proceed(BEGUN, true, Accepted("t"))];
    PublishSteps(At(publish), Ops.Starting, PublishThread(Threaded), records);
    PublishStage(publish, Ops.Starting, PublishThread(Threaded), AtRunning(Threaded), Marking, Threaded, records);
    events := publish + [Step(true)];
    assert records + [Stored(Threaded, BEGUN)] == [Stored(First, BEGUN), Stored(Threaded, BEGUN)];
  }

  lemma ConnectStage(events: seq<Event>, records: seq<Stored>)
    requires Stage(At(events), Ops.Starting, AtConnect(First), records)
    ensures Stage(At(events + [Proceed(BEGUN, true, Accepted("t"))]), Ops.Starting, PublishThread(Threaded), records)
  {
    var e := Proceed(BEGUN, true, Accepted("t"));
    Advance(events, e);
    Connected(At(events), records);
    hide Good, Next, Run, At, WithThread, FirstRecord;
  }

  lemma Connected(w: World, records: seq<Stored>)
    requires Stage(w, Ops.Starting, AtConnect(First), records)
    ensures Next(w, Proceed(BEGUN, true, Accepted("t"))) == ToJob(w, PublishThread(Threaded))
  {
    hide Good, ShapeOk;
    RequestedSeals();
  }

  lemma TurnAsked() returns (events: seq<Event>)
    ensures Good(At(events)) && At(events).job == AwaitTurn(Requested) && At(events).store.memory.Some?
  {
    hide Stage, Good, Next, Run, At, Move, Publish, WithThread, WithTurnRequested, FirstRecord;
    FirstRevisions();
    var ready := ThreadReady();
    var records := [Stored(First, BEGUN), Stored(Threaded, BEGUN)];
    MoveSteps(At(ready), Ops.Starting, AtRunning(Threaded), records, true);
    MoveStage(ready, Ops.Starting, Ops.Running, "codex_turn_start_requested", true, AtRunning(Threaded),
      PublishRequest(Requested), FinReceipt(Threaded, Failed, "operation_running_transition_failed", false), records);
    var request := ready + [Step(true)];
    PublishSteps(At(request), Ops.Running, PublishRequest(Requested), records);
    PublishStage(request, Ops.Running, PublishRequest(Requested), AtTurn(Requested), Marking, Requested, records);
    var turn := request + [Step(true)];
    Advance(turn, Step(true));
    Sent(At(turn), records + [Stored(Requested, BEGUN)]);
    events := turn + [Step(true)];
  }

  lemma Sent(w: World, records: seq<Stored>)
    requires Stage(w, Ops.Running, AtTurn(Requested), records)
    ensures Next(w, Step(true)) == TurnSent(w, AwaitTurn(Requested)) && Next(w, Step(true)).store.memory.Some?
  {
    hide Good;
  }

  // The answer to the turn request is lost, every write succeeds, and the execution is settled by a record
  // that denies what its receipt says: that the effect may have started.
  lemma LostTurnCanBeForgotten() returns (events: seq<Event>)
    ensures var w := At(events);
      && Settled(w) && w.turnsIssued == 1 && w.receipt.Some?
      && w.receipt.value.sourceEffectStarted && !MayHaveStarted(Last(w))
  {
    var asked := TurnAsked();
    var later := Proceed(LATER, true, Lost);
    assert Requested.identity.startedAt <= Millis(LATER);
    hide Good, Next, Settled, MayHaveStarted;
    LostTurnIsForgottenByTheTerminalRecord(At(asked), Requested, LATER, LATER, LATER);
    RunOneMore(Start("op"), asked, later);
    RunOneMore(Start("op"), asked + [later], later);
    RunOneMore(Start("op"), asked + [later] + [later], later);
    events := asked + [later] + [later] + [later];
  }
}
