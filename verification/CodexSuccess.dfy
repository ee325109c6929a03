/** A reachable run that succeeds, from the creation of the Operation to its end. */
module CodexSuccess {
  import opened Basics
  import opened CodexRecords
  import opened CodexProtocol
  import opened CodexFacts
  import opened CodexTheorems
  import opened CodexControllers
  import opened CodexOutcomes
  import opened CodexLaunches
  import opened CodexRuns
  import Ops = Operations

  function Taken(id: string): Input {
    Input(BEGUN, true, Accepted(id))
  }

  function LaunchInputs(): seq<Input> {
    [Taken(""), Taken(""), Taken(""), Taken("t"), Taken(""), Taken(""), Taken(""), Taken(""), Taken("u"), Taken("")]
  }

  function TheScript(): Script {
    Script(Identity("op", "b", BEGUN), LaunchInputs(), "t", "u")
  }

  function EndingInputs(): seq<Input> {
    [Input(LATER, true, Lost), Input(LATER, true, Lost), Input(LATER, true, Lost)]
  }

  lemma {:induction false} RunAppends(w: World, before: seq<Event>, after: seq<Event>)
    ensures Run(w, before + after) == Run(Run(w, before), after)
    decreases |before|
  {
    hide Next;
    if before == [] {
      assert before + after == after;
    } else {
      assert (before + after)[0] == before[0] && (before + after)[1..] == before[1..] + after;
      RunAppends(Next(w, before[0]), before[1..], after);
    }
  }

  lemma ScriptGoesWell()
    ensures GoesWell(TheScript(), 10)
  {
    var inputs := LaunchInputs();
    assert |inputs| == 10;
    forall j | 0 <= j < 10
      ensures inputs[j].ioOk && inputs[j].now == BEGUN
    {}
  }

  lemma WaitingIsApproved()
    ensures Approved(TheScript(), At(Waiting())) && At(Waiting()).job.Idle?
  {
    WaitingStage();
    hide Good, Run, Waiting, LaunchInputs;
  }

  lemma RunningExecution() returns (events: seq<Event>)
    ensures var w := At(events);
      && Good(w) && w.job.Idle? && w.active.Some? && Present(w) && CurrentStatus(w) == Ops.Running
      && w.active.value.identity == Identity("op", "b", BEGUN) && w.active.value.revision == 4
      && w.active.value.thread == Some("t") && w.active.value.turn == Some("u")
  {
    hide Good, Next, Run, Stage, Waiting, Approved, GoesWell, Continue, LaunchCommand, StatusCommand, InterruptCommand,
      LaunchInputs, Proceeds;
    ScriptGoesWell();
    WaitingIsApproved();
    var w := At(Waiting());
    LaunchReachesRunning(TheScript(), w);
    CommandsAreRuns(w, "b", BEGUN, Timeout, false, 0, LaunchInputs());
    var more := [Launch("b", BEGUN)] + Proceeds(LaunchInputs());
    events := Waiting() + more;
    RunAppends(Start("op"), Waiting(), more);
    var _ := Reached("op", events);
  }

  lemma EndingInTime(r: Exec)
    requires r.identity.startedAt == BEGUN
    ensures Written(EndingInputs(), 0, 3) && InTime(EndingInputs(), 0, r) && EndingInputs()[0].now == LATER
  {}

  // A launch whose writes succeed and a turn that completes: a succeeded Operation, a succeeded receipt and a
  // completed record, of the one turn that was asked for.
  lemma ExecutionsCanSucceed() returns (events: seq<Event>)
    ensures var w := At(events);
      && Settled(w) && Last(w).state == Completed && Last(w).revision == 5
      && Last(w).thread == Some("t") && Last(w).turn == Some("u")
      && w.receipt.Some? && w.receipt.value.state == EffectSucceeded && w.receipt.value.sourceEffectStarted
      && Present(w) && CurrentStatus(w) == Ops.Succeeded && w.turnsIssued == 1
  {
    hide Good, Next, Run, Continue, LaunchCommand, StatusCommand, InterruptCommand, Proceeds, EndingInputs, Written,
      InTime;
    var running := RunningExecution();
    var w := At(running);
    EndingInTime(w.active.value);
    TurnEndsAs(w, w.active.value, EndCompleted, LATER, EndingInputs());
    CommandsAreRuns(w, "b", BEGUN, TurnEnded(EndCompleted), false, LATER, EndingInputs());
    var more := [Status(TurnEnded(EndCompleted), false, LATER)] + Proceeds(EndingInputs());
    events := running + more;
    RunAppends(Start("op"), running, more);
    StoresNeverContradict("op", events);
  }
}
