/**
 A launch from an approved Operation, step by step: where it stands after each of its ten steps, what it
 leaves when all of them succeed, and what each failure on the way makes of the execution.
 */
module CodexLaunches {
  import opened Basics
  import opened CodexRecords
  import opened CodexProtocol
  import opened CodexFacts
  import opened CodexControllers
  import opened CodexOutcomes
  import Ops = Operations
  import OperationEffects

  // What a launch is given: its scope, the inputs of its steps, and the ids the App Server answers with.
  datatype Script = Script(identity: Identity, inputs: seq<Input>, thread: string, turn: string)

  // Everything goes well in the first `k` steps: the writes succeed, the clock does not run before the
  // start, and the App Server accepts both requests.
  ghost predicate GoesWell(s: Script, k: nat) {
    && k <= 10 <= |s.inputs|
    && (forall j :: 0 <= j < k && j !in {3, 7, 8} ==> s.inputs[j].ioOk)
    && (forall j :: 0 <= j < k && j in {3, 5, 8} ==> s.identity.startedAt <= s.inputs[j].now)
    && (k > 3 ==> s.inputs[3].answer == Accepted(s.thread))
    && (k > 8 ==> s.inputs[8].answer == Accepted(s.turn))
    && (k > 9 ==> !s.inputs[9].answer.Lost?)
  }

  // An approved Operation nothing was done for yet.
  ghost predicate Approved(s: Script, w: World) {
    && Good(w) && w.job.Idle? && w.execs == [] && Present(w) && CurrentStatus(w) == Ops.ApprovalWait
    && s.identity.operationId == w.opId
  }

  function Launched(s: Script, w: World): World {
    LaunchCommand(w, s.identity.binding, s.identity.startedAt)
  }

  /* Where a launch stands. */

  // The `n`-th record of the launch.
  function Doc(s: Script, n: nat): Exec
    requires |s.inputs| >= 10
  {
    if n <= 1 then FirstRecord(s.identity)
    else if n == 2 then WithThread(Doc(s, 1), s.thread, s.inputs[3].now)
    else if n == 3 then WithTurnRequested(Doc(s, 2), s.inputs[5].now)
    else WithTurn(Doc(s, 3), s.turn, s.inputs[8].now)
  }

  function JobAt(s: Script, k: nat): Job
    requires |s.inputs| >= 10
  {
    match k
    case 0 => PublishFirst(Doc(s, 1))
    case 1 => AtQueue(Doc(s, 1))
    case 2 => AtStart(Doc(s, 1))
    case 3 => AtConnect(Doc(s, 1))
    case 4 => PublishThread(Doc(s, 2))
    case 5 => AtRunning(Doc(s, 2))
    case 6 => PublishRequest(Doc(s, 3))
    case 7 => AtTurn(Doc(s, 3))
    case 8 => AwaitTurn(Doc(s, 3))
    case 9 => PublishTurn(Doc(s, 4))
    case _ => Idle
  }

  function StatusAt(k: nat): Ops.Status {
    if k < 2 then Ops.ApprovalWait else if k == 2 then Ops.Queued else if k < 6 then Ops.Starting else Ops.Running
  }

  function RecordsAt(k: nat): nat {
    if k < 1 then 0 else if k < 5 then 1 else if k < 7 then 2 else if k < 10 then 3 else 4
  }

  ghost predicate Holds(s: Script, execs: seq<Stored>, n: nat)
    requires |s.inputs| >= 10
  {
    |execs| == n && forall i :: 0 <= i < n ==> execs[i].doc == Doc(s, i + 1)
  }

  ghost predicate OnTheWay(s: Script, w: World, k: nat)
    requires |s.inputs| >= 10
  {
    && w.opId == s.identity.operationId && Present(w) && CurrentStatus(w) == StatusAt(k)
    && w.job == JobAt(s, k) && Holds(s, w.execs, RecordsAt(k))
    && w.receipt.None? && !w.turnRefused && w.turnsIssued == (if k < 8 then 0 else 1)
    && w.active == (if k < 10 then None else Some(Doc(s, 4)))
  }

  // The four records, field by field.
  lemma Docs(s: Script)
    requires |s.inputs| >= 10
    ensures Doc(s, 1) == Exec(s.identity, 1, Initializing, None, None, 0, InitializingEvent, s.identity.startedAt, None,
      Ending(None, None, None, false, None), None)
    ensures NextRecord(Doc(s, 1), Doc(s, 2), ThreadReady, Some(s.thread), None, ThreadReadyEvent, s.inputs[3].now)
    ensures NextRecord(Doc(s, 2), Doc(s, 3), ThreadReady, Some(s.thread), None, TurnStartRequested, s.inputs[5].now)
    ensures NextRecord(Doc(s, 3), Doc(s, 4), Running, Some(s.thread), Some(s.turn), TurnStarted, s.inputs[8].now)
    ensures s.identity.startedAt <= s.inputs[3].now ==> ShapeOk(Doc(s, 2))
    ensures s.identity.startedAt <= s.inputs[5].now ==> ShapeOk(Doc(s, 3))
    ensures s.identity.startedAt <= s.inputs[8].now ==> ShapeOk(Doc(s, 4))
  {}

  lemma Begins(s: Script, w: World)
    requires |s.inputs| >= 10 && Approved(s, w)
    ensures OnTheWay(s, Launched(s, w), 0)
  {
    LatestIsLast(w);
  }

  lemma Appended(s: Script, w: World, doc: Exec, n: nat, i: Input)
    requires |s.inputs| >= 10 && Holds(s, w.execs, n) && n < 4 && doc == Doc(s, n + 1)
    ensures PutExec(w.execs, doc, i.now, true) == PutResult(true, w.execs + [Stored(doc, i.now)])
    ensures Holds(s, w.execs + [Stored(doc, i.now)], n + 1)
  {
    Docs(s);
    hide ShapeOk, Doc;
    forall i | 0 <= i < n
      ensures w.execs[i].doc.revision == i + 1
    {
      assert i == 0 || i == 1 || i == 2;
    }
    ContiguousStore(w.execs, doc.revision);
  }

  lemma PublishesOn(s: Script, w: World, k: nat)
    requires |s.inputs| >= 10 && OnTheWay(s, w, k) && k in {0, 4, 6, 9} && s.inputs[k].ioOk
    requires k == 9 ==> !s.inputs[9].answer.Lost?
    ensures OnTheWay(s, Stepped(w, s.inputs[k]), k + 1)
  {
    hide PutExec, Doc, Holds;
    Appended(s, w, Doc(s, RecordsAt(k) + 1), RecordsAt(k), s.inputs[k]);
  }

  // The call of a step that moves the Operation.
  lemma MoveStepTaken(s: Script, w: World, k: nat, i: Input)
    requires |s.inputs| >= 10 && OnTheWay(s, w, k) && k in {1, 2, 5}
    ensures k == 1 ==> Stepped(w, i) == QueueStep(w, Doc(s, 1), i.now, i.ioOk)
    ensures k == 2 ==> Stepped(w, i) == StartStep(w, Doc(s, 1), i.now, i.ioOk)
    ensures k == 5 ==> Stepped(w, i) == RunningStep(w, Doc(s, 2), i.now, i.ioOk)
    ensures Present(w) && w.receipt.None? && CurrentStatus(w) == StatusAt(k)
  {
    hide Doc, Holds, QueueStep, StartStep, RunningStep;
  }

  lemma MovesOn(s: Script, w: World, k: nat)
    requires |s.inputs| >= 10 && OnTheWay(s, w, k) && k in {1, 2, 5} && s.inputs[k].ioOk
    requires k == 5 ==> s.identity.startedAt <= s.inputs[5].now
    ensures OnTheWay(s, Stepped(w, s.inputs[k]), k + 1)
  {
    hide ShapeOk, Move, Holds, Doc, Next, Stepped, OnTheWay, NextRecord;
    Docs(s);
    var i := s.inputs[k];
    MoveStepTaken(s, w, k, i);
    if k == 1 {
      Moves(s, w, 1, Ops.Queued, "codex_execution_approved",
        FinReceipt(Doc(s, 1), Failed, "operation_queue_failed", false), i);
    } else if k == 2 {
      Moves(s, w, 2, Ops.Starting, "codex_app_server_starting",
        FinReceipt(Doc(s, 1), Failed, "operation_start_failed", false), i);
    } else {
      assert WithTurnRequested(Doc(s, 2), i.now) == Doc(s, 3) by { ThirdDoc(s); }
      Moves(s, w, 5, Ops.Running, "codex_turn_start_requested",
        FinReceipt(Doc(s, 2), Failed, "operation_running_transition_failed", false), i);
    }
  }

  lemma ThirdDoc(s: Script)
    requires |s.inputs| >= 10
    ensures Doc(s, 3) == WithTurnRequested(Doc(s, 2), s.inputs[5].now)
  {}

  lemma Moves(s: Script, w: World, k: nat, to: Ops.Status, detail: string, otherwise: Job, i: Input)
    requires |s.inputs| >= 10 && OnTheWay(s, w, k) && k in {1, 2, 5} && to == StatusAt(k + 1) && i.ioOk
    ensures OnTheWay(s, Move(w, to, detail, i.now, true, JobAt(s, k + 1), otherwise), k + 1)
  {
    hide Doc, Holds, JobAt, OnOperation, CallSucceeds;
    MoveTakes(w, to, detail, JobAt(s, k + 1), otherwise, i);
  }

  lemma AnswersOn(s: Script, w: World, k: nat)
    requires GoesWell(s, k + 1) && OnTheWay(s, w, k) && k in {3, 7, 8}
    ensures OnTheWay(s, Stepped(w, s.inputs[k]), k + 1)
  {
    Docs(s);
    hide ShapeOk;
  }

  lemma {:induction false} StandsAt(s: Script, w: World, k: nat)
    requires Approved(s, w) && GoesWell(s, k)
    ensures OnTheWay(s, Steps(Launched(s, w), s.inputs, k), k)
    decreases k
  {
    hide Approved, Launched, Stepped, OnTheWay;
    if k == 0 {
      Begins(s, w);
    } else {
      StandsAt(s, w, k - 1);
      var before := Steps(Launched(s, w), s.inputs, k - 1);
      if k - 1 in {0, 4, 6, 9} {
        PublishesOn(s, before, k - 1);
      } else if k - 1 in {1, 2, 5} {
        MovesOn(s, before, k - 1);
      } else {
        AnswersOn(s, before, k - 1);
      }
    }
  }

  /* The launch that succeeds. */

  // Four records: begun, thread ready, turn asked for, running. The last is registered, the Operation runs,
  // and one turn was asked for.
  lemma LaunchReachesRunning(s: Script, w: World)
    requires Approved(s, w) && GoesWell(s, 10)
    ensures var done := Continue(Launched(s, w), s.inputs);
      && done.job.Idle? && |done.execs| == 4 && done.receipt.None?
      && done.execs[0].doc == Exec(s.identity, 1, Initializing, None, None, 0, InitializingEvent, s.identity.startedAt,
           None, Ending(None, None, None, false, None), None)
      && NextRecord(done.execs[0].doc, done.execs[1].doc, ThreadReady, Some(s.thread), None, ThreadReadyEvent,
           s.inputs[3].now)
      && NextRecord(done.execs[1].doc, done.execs[2].doc, ThreadReady, Some(s.thread), None, TurnStartRequested,
           s.inputs[5].now)
      && NextRecord(done.execs[2].doc, done.execs[3].doc, Running, Some(s.thread), Some(s.turn), TurnStarted,
           s.inputs[8].now)
      && done.active == Some(done.execs[3].doc)
      && Present(done) && CurrentStatus(done) == Ops.Running
      && done.turnsIssued == 1 && !done.turnRefused
  {
    hide Approved, Launched, Stepped, NextRecord, Doc, Continue;
    StandsAt(s, w, 10);
    Docs(s);
    EndsAfter(Launched(s, w), s.inputs, 10);
  }

  /* The launches that fail. */

  datatype Failure = Failure(wanted: ExecState, effect: EffectState, event: string, started: bool)

  // What goes wrong in step `k`, and what the execution is to end as.
  ghost predicate Fails(k: nat, i: Input, f: Failure) {
    || (k == 1 && !i.ioOk && f == Failure(Failed, EffectFailed, "operation_queue_failed", false))
    || (k == 2 && !i.ioOk && f == Failure(Failed, EffectFailed, "operation_start_failed", false))
    || (k == 3 && i.answer == Rejected && f == Failure(Failed, EffectFailed, "thread_request_failed", false))
    || (k == 3 && i.answer == Lost && f == Failure(OutcomeUnknown, EffectUnknown, "thread_request_failed", false))
    || (k == 5 && !i.ioOk && f == Failure(Failed, EffectFailed, "operation_running_transition_failed", false))
    || (k == 8 && i.answer == Rejected && f == Failure(Failed, EffectFailed, "turn_start_failed", false))
    || (k == 8 && i.answer == Lost && f == Failure(OutcomeUnknown, EffectUnknown, "turn_start_failed", true))
    || (k == 9 && i.ioOk && i.answer == Lost
          && f == Failure(OutcomeUnknown, EffectUnknown, "active_registry_unavailable", true))
  }

  // The record a launch failing in step `k` is ended from.
  function FailedRecord(k: nat): nat {
    if k < 5 then 1 else if k < 8 then 2 else if k < 9 then 3 else 4
  }

  lemma {:induction false} StepsKeep(w: World, inputs: seq<Input>, k: nat)
    requires Good(w) && k <= |inputs|
    ensures Good(Steps(w, inputs, k))
    decreases k
  {
    hide Good, Next, After;
    if k > 0 {
      StepsKeep(w, inputs, k - 1);
      var i := inputs[k - 1];
      NextKeeps(Steps(w, inputs, k - 1), Proceed(i.now, i.ioOk, i.answer));
    }
  }

  // The failing step hands the execution to finalization.
  ghost predicate HandedOver(s: Script, w: World, k: nat, f: Failure)
    requires |s.inputs| >= 10
  {
    && w.job == FinReceipt(Doc(s, FailedRecord(k)), f.wanted, f.event, f.started) && w.receipt.None?
    && Present(w) && Closable(CurrentStatus(w), f.wanted) && Answers(f.wanted, f.effect)
  }

  lemma MoveFails(s: Script, w: World, k: nat, f: Failure)
    requires |s.inputs| >= 10 && OnTheWay(s, w, k) && k in {1, 2, 5} && Fails(k, s.inputs[k], f)
    ensures HandedOver(s, Stepped(w, s.inputs[k]), k, f)
  {
    hide ShapeOk, Move, Holds, Doc, WithTurnRequested, SealedOr, Next, Stepped, JobAt, OnTheWay, Closable;
    var i := s.inputs[k];
    MoveStepTaken(s, w, k, i);
    assert !i.ioOk && f.wanted == Failed && f.effect == EffectFailed && !f.started;
    if k == 1 {
      FailedMove(w, Ops.Queued, "codex_execution_approved", AtStart(Doc(s, 1)), Doc(s, 1), f.event, i);
    } else if k == 2 {
      FailedMove(w, Ops.Starting, "codex_app_server_starting", AtConnect(Doc(s, 1)), Doc(s, 1), f.event, i);
    } else {
      var next := WithTurnRequested(Doc(s, 2), i.now);
      FailedMove(w, Ops.Running, "codex_turn_start_requested", SealedOr(next, PublishRequest(next), Idle), Doc(s, 2),
        f.event, i);
    }
  }

  lemma FailedMove(w: World, to: Ops.Status, detail: string, next: Job, r: Exec, event: string, i: Input)
    requires Present(w) && to in OperationEffects.Successors(CurrentStatus(w)) && !i.ioOk && w.receipt.None?
    requires to in {Ops.Queued, Ops.Starting, Ops.Running}
    ensures var moved := Move(w, to, detail, i.now, false, next, FinReceipt(r, Failed, event, false));
      && moved.job == FinReceipt(r, Failed, event, false) && moved.receipt.None? && Present(moved)
      && Closable(CurrentStatus(moved), Failed)
  {
    MoveTakes(w, to, detail, next, FinReceipt(r, Failed, event, false), i);
    hide OnOperation, CallSucceeds, OperationEffects.Successors;
  }

  lemma AnswerFails(s: Script, w: World, k: nat, f: Failure)
    requires |s.inputs| >= 10 && OnTheWay(s, w, k) && k in {3, 8} && Fails(k, s.inputs[k], f)
    ensures HandedOver(s, Stepped(w, s.inputs[k]), k, f)
  {
    hide Doc, Holds;
  }

  lemma RegistryFails(s: Script, w: World, f: Failure)
    requires |s.inputs| >= 10 && OnTheWay(s, w, 9) && Fails(9, s.inputs[9], f)
    ensures HandedOver(s, Stepped(w, s.inputs[9]), 9, f)
  {
    Appended(s, w, Doc(s, 4), 3, s.inputs[9]);
    hide Doc, Holds, PutExec;
  }

  // Whatever fails: receipt, terminal record and Operation agree, with the literal outcome of the table.
  lemma FailedLaunchEndsAs(s: Script, w: World, k: nat, f: Failure)
    requires Approved(s, w) && GoesWell(s, k) && k < |s.inputs| && Fails(k, s.inputs[k], f)
    requires Written(s.inputs, k + 1, 3)
      && s.identity.startedAt <= s.inputs[k + 1].now - s.inputs[k + 1].now % 1_000_000
    ensures EndedAs(Continue(Launched(s, w), s.inputs), Doc(s, FailedRecord(k)), f.wanted, f.event, f.started,
      s.inputs[k + 1].now)
  {
    hide Good, Approved, OnTheWay, Stepped, Continue, Doc, Closable, Answers, EndedAs, Next, After, Launched;
    var begun := Launched(s, w);
    BegunGood(s, w);
    StepsKeep(begun, s.inputs, k + 1);
    StandsAt(s, w, k);
    var failed := Steps(begun, s.inputs, k + 1);
    if k in {1, 2, 5} {
      MoveFails(s, Steps(begun, s.inputs, k), k, f);
    } else if k in {3, 8} {
      AnswerFails(s, Steps(begun, s.inputs, k), k, f);
    } else {
      RegistryFails(s, Steps(begun, s.inputs, k), f);
    }
    DocIdentity(s, FailedRecord(k));
    hide Fails;
    var rest := s.inputs[k + 1..];
    assert Written(rest, 0, 3);
    FinalizedAs(failed, Doc(s, FailedRecord(k)), f.wanted, f.effect, f.event, f.started, rest);
    ContinueAfter(begun, s.inputs, k + 1);
  }

  lemma BegunGood(s: Script, w: World)
    requires Approved(s, w)
    ensures Good(Launched(s, w))
  {
    NextKeeps(w, Launch(s.identity.binding, s.identity.startedAt));
    hide Good, LaunchCommand;
  }

  lemma DocIdentity(s: Script, n: nat)
    requires |s.inputs| >= 10
    ensures Doc(s, n).identity == s.identity
  {}

  // A launch whose first record cannot be written leaves nothing.
  lemma UnbegunLaunchLeavesNothing(s: Script, w: World)
    requires Approved(s, w) && |s.inputs| >= 10 && !s.inputs[0].ioOk
    ensures Continue(Launched(s, w), s.inputs) == w
  {
    Begins(s, w);
    var begun := Launched(s, w);
    assert Stepped(begun, s.inputs[0]) == w by { hide Good; }
    FirstStep(begun, s.inputs);
  }

  // A record that cannot be written, or a turn whose answer comes too early to be recorded: the execution stays
  // as it was and its Operation is marked, failed before its start and unknown after.
  lemma UnrecordedLaunchIsMarked(s: Script, w: World, k: nat)
    requires Approved(s, w) && GoesWell(s, k) && k + 1 < |s.inputs| && s.inputs[k + 1].ioOk
    requires || (k in {4, 6, 9} && !s.inputs[k].ioOk && !s.inputs[k].answer.Lost?)
             || (k == 8 && s.inputs[8].answer == Accepted(s.turn) && s.inputs[8].now < s.identity.startedAt)
    ensures var done := Continue(Launched(s, w), s.inputs);
      && done.job.Idle? && done.receipt.None? && done.active.None? && Holds(s, done.execs, RecordsAt(k))
      && Present(done) && CurrentStatus(done) == (if k == 4 then Ops.Failed else Ops.OutcomeUnknown)
  {
    hide Approved, Stepped, Continue, Launched, Holds;
    var begun := Launched(s, w);
    StandsAt(s, w, k);
    var before := Steps(begun, s.inputs, k);
    GoesToMarking(s, before, k);
    hide OnTheWay;
    MarkTakes(Stepped(before, s.inputs[k]), s.inputs[k + 1]);
    assert Steps(begun, s.inputs, k + 1) == Stepped(before, s.inputs[k]);
    assert Steps(begun, s.inputs, k + 2) == Stepped(Steps(begun, s.inputs, k + 1), s.inputs[k + 1]);
    EndsAfter(begun, s.inputs, k + 2);
  }

  lemma GoesToMarking(s: Script, w: World, k: nat)
    requires |s.inputs| >= 10 && OnTheWay(s, w, k)
    requires || (k in {4, 6, 9} && !s.inputs[k].ioOk && !s.inputs[k].answer.Lost?)
             || (k == 8 && s.inputs[8].answer == Accepted(s.turn) && s.inputs[8].now < s.identity.startedAt)
    ensures var next := Stepped(w, s.inputs[k]);
      && next.job == Marking && next.execs == w.execs && next.receipt.None? && next.active.None?
      && next.opId == w.opId && Present(next) && CurrentStatus(next) == (if k == 4 then Ops.Starting else Ops.Running)
  {
    Docs(s);
    hide Holds;
  }
}
