/** The goal store over whole runs: calls, failing writes and restarts in any order. */
module GoalTheorems {
  import opened Basics
  import opened Goals
  import opened GoalFacts
  import opened GraphFacts
  import opened GoalCompletion

  /* Runs. */

  datatype Ask =
    | Starting(request: StartRequest, freshId: string, now: int)
    | Calling(id: string, expected: nat, call: GoalCall, now: int)
    | Publishing(graph: Graph, expectedPrevious: Option<nat>)
    | Recording(result: StageResult, expectedGraph: nat, expectedStage: nat)
    | Finishing(id: string, expected: nat, graphId: string, evidence: DocRef, now: int)

  // A fresh goal id is one the store does not hold: a request with a used one is no request at all.
  function Serve(f: GoalFile, ask: Ask): Reply {
    match ask
    case Starting(request, freshId, now) =>
      if freshId in f.goals then Nothing(f, Fail(Invalid)) else Start(f, request, freshId, now)
    case Calling(id, expected, call, now) => CallGoal(f, id, expected, call, now)
    case Publishing(graph, expectedPrevious) => PublishGraph(f, graph, expectedPrevious)
    case Recording(result, expectedGraph, expectedStage) => RecordResult(f, result, expectedGraph, expectedStage)
    case Finishing(id, expected, graphId, evidence, now) => CompleteGoal(f, id, expected, graphId, evidence, now)
  }

  // `ioOk` says whether a write the call reaches succeeds.
  datatype Step = Request(ask: Ask, ioOk: bool) | Restart

  // The store in memory, if it is open, and the last file written.
  datatype System = System(mem: Option<GoalFile>, disk: GoalFile)

  const Fresh := System(None, EmptyGoals)

  ghost function Opened(s: System): Option<GoalFile> {
    if s.mem.Some? then s.mem
    else if Loadable(Migrate(s.disk)) then Some(Migrate(s.disk))
    else None
  }

  ghost function Next(s: System, step: Step): System {
    match step
    case Restart => System(None, s.disk)
    case Request(ask, ioOk) =>
      if Opened(s).None? then s
      else Served(s, Serve(Opened(s).value, ask), ioOk)
  }

  // A failing write leaves the new state in memory and the old one on disk.
  function Served(s: System, reply: Reply, ioOk: bool): System {
    System(Some(reply.file), if reply.commit && ioOk then reply.file else s.disk)
  }

  ghost function Run(s: System, steps: seq<Step>): System {
    if steps == [] then s else Next(Run(s, steps[..|steps| - 1]), steps[|steps| - 1])
  }

  lemma {:induction false} RunAppends(s: System, a: seq<Step>, b: seq<Step>)
    ensures Run(s, a + b) == Run(Run(s, a), b)
    decreases |b|
  {
    if b == [] {
      assert a + b == a;
    } else {
      assert (a + b)[..|a + b| - 1] == a + b[..|b| - 1];
      RunAppends(s, a, b[..|b| - 1]);
    }
  }

  /* What every call keeps. */

  ghost predicate Grows(a: GoalFile, b: GoalFile) {
    GoalsExtend(a, b) && GraphsExtend(a, b)
  }

  lemma GrowsTransitive(a: GoalFile, b: GoalFile, c: GoalFile)
    requires Grows(a, b) && Grows(b, c)
    ensures Grows(a, c)
  {
    hide GoalsExtend, GraphsExtend;
    GoalsExtendTransitive(a, b, c);
    GraphsExtendTransitive(a, b, c);
  }

  lemma GrowsSelf(f: GoalFile)
    ensures Grows(f, f)
  {}

  // Some revision of some graph of the goal had all stages completed, and one of its completion stages
  // carries a Completed result with exactly the evidence the goal was completed with.
  ghost predicate Justified(f: GoalFile, goal: Goal) {
    && goal.evidence.Some?
    && exists graphId, revision :: JustifiedBy(f, goal.id, goal.evidence.value, graphId, revision)
  }

  ghost predicate JustifiedBy(f: GoalFile, id: string, evidence: DocRef, graphId: string, revision: nat) {
    && graphId in f.history && revision in f.history[graphId]
    && var b := f.history[graphId][revision].body;
       && b.goalId == id && |b.stages| > 0
       && (forall i :: 0 <= i < |b.stages| ==> b.stages[i].body.state == StageCompleted)
       && exists i :: ProvenAt(f.results, b, evidence, i)
  }

  ghost predicate CompletedAreJustified(f: GoalFile) {
    forall id :: id in f.goals && f.goals[id].goal.status.Completed? ==> Justified(f, f.goals[id].goal)
  }

  lemma ProofStays(a: GoalFile, b: GoalFile, body: GraphBody, evidence: DocRef, i: int)
    requires ResultsExtend(a, b) && ProvenAt(a.results, body, evidence, i)
    ensures ProvenAt(b.results, body, evidence, i)
  {
    hide Completing;
  }

  lemma JustifiedGrows(a: GoalFile, b: GoalFile, goal: Goal)
    requires GraphsExtend(a, b) && Justified(a, goal)
    ensures Justified(b, goal)
  {
    hide ProvenAt, ResultsExtend;
    var graphId, revision :| JustifiedBy(a, goal.id, goal.evidence.value, graphId, revision);
    var i :| ProvenAt(a.results, a.history[graphId][revision].body, goal.evidence.value, i);
    ProofStays(a, b, a.history[graphId][revision].body, goal.evidence.value, i);
    assert JustifiedBy(b, goal.id, goal.evidence.value, graphId, revision);
  }

  // Goals completed before a call stay justified by it; new completions come from one call only.
  lemma CompletionsStayJustified(a: GoalFile, b: GoalFile)
    requires Grows(a, b) && CompletedAreJustified(a)
    requires forall id :: id in b.goals && b.goals[id].goal.status.Completed? ==>
      (id in a.goals && a.goals[id].goal.status.Completed?) || Justified(b, b.goals[id].goal)
    ensures CompletedAreJustified(b)
  {
    hide Justified, GraphsExtend;
    forall id | id in b.goals && b.goals[id].goal.status.Completed?
      ensures Justified(b, b.goals[id].goal)
    {
      if id in a.goals && a.goals[id].goal.status.Completed? {
        assert GoalEvolves(a.goals[id].goal, b.goals[id].goal);
        JustifiedGrows(a, b, a.goals[id].goal);
      }
    }
  }

  lemma EditNeverCompletes(r: GoalRecord, expected: nat, call: GoalCall, now: int)
    requires EarlyAnswer(r, call).None?
    ensures var changed := MutateGoal(r, expected, EditOf(r.goal, call, now), now);
      changed.Edited? ==> !changed.goal.status.Completed?
  {
    hide GoalShape;
  }

  lemma CallNeverCompletes(f: GoalFile, id: string, expected: nat, call: GoalCall, now: int, other: string)
    requires other in CallGoal(f, id, expected, call, now).file.goals
    requires CallGoal(f, id, expected, call, now).file.goals[other].goal.status.Completed?
    ensures other in f.goals && f.goals[other].goal.status.Completed?
  {
    hide MutateGoal, EditOf;
    if CallAcceptable(call) && id in f.goals && EarlyAnswer(f.goals[id], call).None? {
      EditNeverCompletes(f.goals[id], expected, call, now);
    }
  }

  lemma StartNeverCompletes(f: GoalFile, r: StartRequest, freshId: string, now: int, other: string)
    requires freshId !in f.goals
    requires other in Start(f, r, freshId, now).file.goals
    requires Start(f, r, freshId, now).file.goals[other].goal.status.Completed?
    ensures other in f.goals && f.goals[other].goal.status.Completed?
  {
    hide GoalShape, SealConfig, Trim;
  }

  lemma FinishIsJustified(f: GoalFile, id: string, expected: nat, graphId: string, evidence: DocRef, now: int,
      other: string)
    requires GoalPart(f) && CurrentInHistory(f)
    requires var after := CompleteGoal(f, id, expected, graphId, evidence, now).file;
      other in after.goals && after.goals[other].goal.status.Completed?
    ensures var after := CompleteGoal(f, id, expected, graphId, evidence, now).file;
      || (other in f.goals && f.goals[other].goal.status.Completed?)
      || Justified(after, after.goals[other].goal)
  {
    var reply := CompleteGoal(f, id, expected, graphId, evidence, now);
    CompletedExactlyWhen(f, id, expected, graphId, evidence, now);
    if reply.commit && other == id {
      StoredGoal(f, id);
      hide GoalPart, GoalShape, ProvenAt, CompleteGoal;
      assert JustifiedBy(reply.file, id, evidence, graphId, f.graphs[graphId].body.planRevision);
    }
    hide GoalPart, GoalShape, Justified, CompleteGoal;
  }

  // What holds of every file the store itself wrote, with no assumption on the graphs published to it.
  ghost predicate Kept(f: GoalFile) {
    GoalPart(f) && CurrentInHistory(f) && CompletedAreJustified(f)
  }

  lemma CallCases(f: GoalFile, id: string, expected: nat, call: GoalCall, now: int)
    ensures var reply := CallGoal(f, id, expected, call, now);
      || (reply.file == f && !reply.commit)
      || (id in f.goals && EarlyAnswer(f.goals[id], call).None?
          && reply == MutateFile(f, id, expected, EditOf(f.goals[id].goal, call, now), now))
  {
    hide EarlyAnswer, EditOf, MutateFile, CallAcceptable;
  }

  lemma MutateCases(f: GoalFile, id: string, expected: nat, edit: Edit, now: int)
    requires id in f.goals
    ensures var reply := MutateFile(f, id, expected, edit, now);
      var changed := MutateGoal(f.goals[id], expected, edit, now);
      if changed.Edited? then reply.commit && SameGraphs(f, reply.file)
        && reply.file.goals == f.goals[id := GoalRecord(changed.goal, Whole(changed.goal))]
      else reply.file == f && !reply.commit
  {
    hide MutateGoal;
  }

  lemma CallLeavesGraphs(f: GoalFile, id: string, expected: nat, call: GoalCall, now: int)
    ensures SameGraphs(f, CallGoal(f, id, expected, call, now).file)
  {
    hide CallGoal, EarlyAnswer, EditOf, MutateFile, MutateGoal;
    CallCases(f, id, expected, call, now);
    if id in f.goals { MutateCases(f, id, expected, EditOf(f.goals[id].goal, call, now), now); }
  }

  lemma FinishLeavesGraphs(f: GoalFile, id: string, expected: nat, graphId: string, evidence: DocRef, now: int)
    ensures SameGraphs(f, CompleteGoal(f, id, expected, graphId, evidence, now).file)
  {
    hide CompleteEdit, MutateFile, MutateGoal, EvidenceBound, AllCompleted, AllDone;
    if id in f.goals { MutateCases(f, id, expected, CompleteEdit(f.goals[id].goal, evidence), now); }
  }

  lemma StartLeavesGraphs(f: GoalFile, r: StartRequest, freshId: string, now: int)
    ensures SameGraphs(f, Start(f, r, freshId, now).file)
  {
    hide InputOf, NewGoal, Seal, SealConfig, Trim;
  }

  lemma GoalCallsLeaveGraphs(f: GoalFile, ask: Ask)
    requires ask.Starting? || ask.Calling? || ask.Finishing?
    ensures SameGraphs(f, Serve(f, ask).file) && GraphsExtend(f, Serve(f, ask).file)
  {
    hide Start, CallGoal, CompleteGoal;
    match ask
    case Starting(request, freshId, now) => StartLeavesGraphs(f, request, freshId, now);
    case Calling(id, expected, call, now) => CallLeavesGraphs(f, id, expected, call, now);
    case Finishing(id, expected, graphId, evidence, now) => FinishLeavesGraphs(f, id, expected, graphId, evidence, now);
  }

  lemma GraphCallsLeaveGoals(f: GoalFile, ask: Ask)
    requires ask.Publishing? || ask.Recording?
    ensures var after := Serve(f, ask).file;
      after.goals == f.goals && after.idempotency == f.idempotency && after.configs == f.configs
  {
    hide GraphVerified, ResultVerified, VerifiedAgainst, GraphShape, DependenciesCompleted, CarriesResult, NextGraph;
  }

  lemma ServeGrows(f: GoalFile, ask: Ask)
    requires GoalPart(f) && CurrentInHistory(f)
    ensures var after := Serve(f, ask).file;
      GoalPart(after) && CurrentInHistory(after) && Grows(f, after)
  {
    hide Start, CallGoal, CompleteGoal, PublishGraph, RecordResult, GoalPart, GoalsExtend, GraphsExtend;
    var after := Serve(f, ask).file;
    match ask
    case Starting(request, freshId, now) =>
      GoalCallsLeaveGraphs(f, ask);
      GrowsSelf(f);
      if freshId !in f.goals { StartKeeps(f, request, freshId, now); }
    case Calling(id, expected, call, now) =>
      GoalCallsLeaveGraphs(f, ask);
      CallKeeps(f, id, expected, call, now);
    case Finishing(id, expected, graphId, evidence, now) =>
      GoalCallsLeaveGraphs(f, ask);
      CompleteKeeps(f, id, expected, graphId, evidence, now);
    case Publishing(graph, expectedPrevious) =>
      GraphCallsLeaveGoals(f, ask);
      GoalPartOnly(f, after);
      hide CurrentInHistory;
      PublishOnlyAdds(f, graph, expectedPrevious);
      PublishKeepsCurrent(f, graph, expectedPrevious);
    case Recording(result, expectedGraph, expectedStage) =>
      GraphCallsLeaveGoals(f, ask);
      GoalPartOnly(f, after);
      hide CurrentInHistory;
      RecordOnlyAdds(f, result, expectedGraph, expectedStage);
      RecordKeepsCurrent(f, result, expectedGraph, expectedStage);
  }

  lemma GoalPartOnly(a: GoalFile, b: GoalFile)
    requires GoalPart(a) && b.goals == a.goals && b.idempotency == a.idempotency && b.configs == a.configs
    ensures GoalPart(b) && GoalsExtend(a, b)
  {
    hide GoalValid, StoreGoal, ConfigValid;
  }

  lemma ServeKeeps(f: GoalFile, ask: Ask)
    requires Kept(f)
    ensures Kept(Serve(f, ask).file) && Grows(f, Serve(f, ask).file)
  {
    hide GoalPart, Grows, CurrentInHistory, CompletedAreJustified, Justified, Start, CallGoal, PublishGraph,
      RecordResult, CompleteGoal;
    var after := Serve(f, ask).file;
    ServeGrows(f, ask);
    forall id | id in after.goals && after.goals[id].goal.status.Completed?
      ensures (id in f.goals && f.goals[id].goal.status.Completed?) || Justified(after, after.goals[id].goal)
    {
      match ask
      case Starting(request, freshId, now) =>
        if freshId !in f.goals { StartNeverCompletes(f, request, freshId, now, id); }
      case Calling(goalId, expected, call, now) => CallNeverCompletes(f, goalId, expected, call, now, id);
      case Finishing(goalId, expected, graphId, evidence, now) =>
        FinishIsJustified(f, goalId, expected, graphId, evidence, now, id);
      case Publishing(_, _) => GraphCallsLeaveGoals(f, ask);
      case Recording(_, _, _) => GraphCallsLeaveGoals(f, ask);
    }
    CompletionsStayJustified(f, after);
  }

  /* What every step keeps. */

  ghost predicate Invariant(s: System) {
    Kept(s.disk) && (s.mem.Some? ==> Kept(s.mem.value) && Grows(s.disk, s.mem.value))
  }

  lemma NextKeeps(s: System, step: Step)
    requires Invariant(s)
    ensures Invariant(Next(s, step)) && Grows(s.disk, Next(s, step).disk)
  {
    GrowsSelf(s.disk);
    if step.Request? && Opened(s).Some? {
      if s.mem.None? { MigrationIsIdentity(s.disk); }
      var f := Opened(s).value;
      hide Kept, Grows, Loadable, Serve;
      assert Kept(f) && Grows(s.disk, f);
      ServeKeeps(f, step.ask);
      GrowsTransitive(s.disk, f, Serve(f, step.ask).file);
      GrowsSelf(Serve(f, step.ask).file);
    }
  }

  lemma {:induction false} RunKeeps(s: System, steps: seq<Step>)
    requires Invariant(s)
    ensures Invariant(Run(s, steps)) && Grows(s.disk, Run(s, steps).disk)
    decreases |steps|
  {
    hide Invariant, Grows, Next;
    if steps == [] {
      GrowsSelf(s.disk);
    } else {
      var before := Run(s, steps[..|steps| - 1]);
      RunKeeps(s, steps[..|steps| - 1]);
      NextKeeps(before, steps[|steps| - 1]);
      GrowsTransitive(s.disk, before.disk, Run(s, steps).disk);
    }
  }

  lemma FreshIsKept()
    ensures Invariant(Fresh) && Loadable(EmptyGoals)
  {}

  /* The theorems. */

  // A later file of the same installation, over calls, failing writes and restarts alike.
  lemma DiskOnlyGrows(earlier: seq<Step>, later: seq<Step>)
    ensures Invariant(Run(Fresh, earlier)) && Invariant(Run(Fresh, earlier + later))
    ensures Grows(Run(Fresh, earlier).disk, Run(Fresh, earlier + later).disk)
  {
    hide Invariant, Grows;
    FreshIsKept();
    RunKeeps(Fresh, earlier);
    RunAppends(Fresh, earlier, later);
    RunKeeps(Run(Fresh, earlier), later);
  }

  // No call ever changes a stored (graph id, revision) entry or a stored stage result.
  lemma StoredRevisionsNeverChange(earlier: seq<Step>, later: seq<Step>, graphId: string, revision: nat)
    requires graphId in Run(Fresh, earlier).disk.history && revision in Run(Fresh, earlier).disk.history[graphId]
    ensures var after := Run(Fresh, earlier + later).disk;
      graphId in after.history && revision in after.history[graphId]
      && after.history[graphId][revision] == Run(Fresh, earlier).disk.history[graphId][revision]
  {
    hide Run, Invariant, GoalsExtend;
    DiskOnlyGrows(earlier, later);
  }

  // A goal completed at some moment is the same record ever after, and its justification is still in
  // the history, whatever was replanned since.
  lemma CompletedGoalsStayJustified(earlier: seq<Step>, later: seq<Step>, id: string)
    requires var before := Run(Fresh, earlier).disk;
      id in before.goals && before.goals[id].goal.status.Completed?
    ensures var after := Run(Fresh, earlier + later).disk;
      && id in after.goals && after.goals[id].goal == Run(Fresh, earlier).disk.goals[id].goal
      && Justified(after, after.goals[id].goal)
  {
    hide Run, Justified, GraphsExtend, CurrentInHistory, GoalPart;
    DiskOnlyGrows(earlier, later);
    assert GoalEvolves(Run(Fresh, earlier).disk.goals[id].goal, Run(Fresh, earlier + later).disk.goals[id].goal);
  }

  // Once a goal has a run its plan and run id are fixed and its attempt only grows; so a completed goal
  // had every item done at every moment since its first continue. A goal with an open question has no run.
  lemma RunningFreezesThePlan(earlier: seq<Step>, later: seq<Step>, id: string)
    requires id in Run(Fresh, earlier).disk.goals
    ensures id in Run(Fresh, earlier + later).disk.goals
    ensures var a := Run(Fresh, earlier).disk.goals[id].goal;
      var b := Run(Fresh, earlier + later).disk.goals[id].goal;
      && (Unanswered(a) ==> a.run.None?)
      && (a.run.Some? ==>
            && b.items == a.items && b.planRevision == a.planRevision
            && b.run.Some? && b.run.value.runId == a.run.value.runId && b.run.value.attempt >= a.run.value.attempt
            && (b.status.Completed? ==> AllDone(a.items)))
      && (Ended(a) ==> b == a)
  {
    hide Run, GraphsExtend, CurrentInHistory, CompletedAreJustified, GoalPart, GoalShape, StoreGoal;
    DiskOnlyGrows(earlier, later);
    var f, g := Run(Fresh, earlier).disk, Run(Fresh, earlier + later).disk;
    assert GoalEvolves(f.goals[id].goal, g.goals[id].goal);
    StoredGoal(f, id);
    StoredGoal(g, id);
    UnansweredHasNoRun(f.goals[id].goal);
    CompletedIsDone(g.goals[id].goal);
  }

  lemma UnansweredHasNoRun(g: Goal)
    requires StoreGoal(g)
    ensures Unanswered(g) ==> g.run.None?
  {}

  lemma CompletedIsDone(g: Goal)
    requires GoalShape(g)
    ensures g.status.Completed? ==> AllDone(g.items)
  {}

  /* Counting attempts. */

  function ServeAll(f: GoalFile, asks: seq<Ask>): GoalFile {
    if asks == [] then f else Serve(ServeAll(f, asks[..|asks| - 1]), asks[|asks| - 1]).file
  }

  predicate Continues(f: GoalFile, ask: Ask, id: string) {
    ask.Calling? && ask.call.Continuing? && ask.id == id && Serve(f, ask).commit
  }

  // How many of the calls continued the run of the goal.
  function Continued(f: GoalFile, asks: seq<Ask>, id: string): nat {
    if asks == [] then 0
    else
      var front := asks[..|asks| - 1];
      Continued(f, front, id) + if Continues(ServeAll(f, front), asks[|asks| - 1], id) then 1 else 0
  }

  function Attempts(g: Goal): nat {
    if g.run.Some? then g.run.value.attempt else 0
  }

  function Capped(n: nat): nat {
    if n < U32_MAX then n else U32_MAX
  }

  lemma EditAttempts(r: GoalRecord, expected: nat, call: GoalCall, now: int)
    requires GoalShape(r.goal) && StoreGoal(r.goal) && EarlyAnswer(r, call).None?
    ensures var changed := MutateGoal(r, expected, EditOf(r.goal, call, now), now);
      changed.Edited? ==>
        Attempts(changed.goal) == if call.Continuing? then SaturatingSucc(Attempts(r.goal), U32_MAX)
          else Attempts(r.goal)
  {}

  lemma CallAttempts(f: GoalFile, call: GoalCall, goalId: string, expected: nat, now: int, id: string)
    requires GoalPart(f) && id in f.goals
    ensures var reply := CallGoal(f, goalId, expected, call, now);
      && id in reply.file.goals
      && Attempts(reply.file.goals[id].goal) ==
         (if call.Continuing? && goalId == id && reply.commit then SaturatingSucc(Attempts(f.goals[id].goal), U32_MAX)
          else Attempts(f.goals[id].goal))
  {
    StoredGoal(f, id);
    hide GoalPart, GoalShape, StoreGoal, MutateGoal, EditOf, Attempts, CallGoal, MutateFile, EarlyAnswer;
    CallCases(f, goalId, expected, call, now);
    if goalId in f.goals {
      MutateCases(f, goalId, expected, EditOf(f.goals[goalId].goal, call, now), now);
      if goalId == id && EarlyAnswer(f.goals[id], call).None? {
        EditAttempts(f.goals[id], expected, call, now);
      }
    }
  }

  lemma FinishAttempts(f: GoalFile, goalId: string, expected: nat, graphId: string, evidence: DocRef, now: int,
      id: string)
    requires id in f.goals
    ensures var after := CompleteGoal(f, goalId, expected, graphId, evidence, now).file;
      id in after.goals && Attempts(after.goals[id].goal) == Attempts(f.goals[id].goal)
  {
    hide GoalShape, EvidenceBound, AllCompleted, AllDone;
  }

  lemma StartLeavesOthers(f: GoalFile, r: StartRequest, freshId: string, now: int, id: string)
    requires freshId !in f.goals && id in f.goals
    ensures var after := Start(f, r, freshId, now).file;
      id in after.goals && after.goals[id] == f.goals[id]
  {
    hide GoalShape, SealConfig, Trim;
  }

  lemma ServeAttempts(f: GoalFile, ask: Ask, id: string)
    requires GoalPart(f) && id in f.goals
    ensures var after := Serve(f, ask).file;
      && id in after.goals
      && Attempts(after.goals[id].goal) ==
         (if Continues(f, ask, id) then SaturatingSucc(Attempts(f.goals[id].goal), U32_MAX)
           else Attempts(f.goals[id].goal))
  {
    hide Start, CallGoal, CompleteGoal, PublishGraph, RecordResult, GoalPart, Attempts;
    match ask
    case Starting(request, freshId, now) =>
      if freshId !in f.goals { StartLeavesOthers(f, request, freshId, now, id); }
    case Calling(goalId, expected, call, now) => CallAttempts(f, call, goalId, expected, now, id);
    case Finishing(goalId, expected, graphId, evidence, now) =>
      FinishAttempts(f, goalId, expected, graphId, evidence, now, id);
    case Publishing(_, _) => GraphCallsLeaveGoals(f, ask);
    case Recording(_, _, _) => GraphCallsLeaveGoals(f, ask);
  }

  lemma OneMoreAsk(f: GoalFile, ask: Ask, id: string, n: nat)
    requires Kept(f) && id in f.goals && Attempts(f.goals[id].goal) == Capped(n)
    ensures var after := Serve(f, ask).file;
      && Kept(after) && id in after.goals
      && Attempts(after.goals[id].goal) == Capped(n + if Continues(f, ask, id) then 1 else 0)
  {
    hide Kept, GoalPart, Grows, Attempts, Serve, Continues;
    KeptGoals(f);
    ServeKeeps(f, ask);
    ServeAttempts(f, ask, id);
  }

  // Between two restarts the attempt of a goal counts its successful continues, up to the counter's limit.
  lemma {:induction false} AttemptsCountContinues(f: GoalFile, asks: seq<Ask>, id: string)
    requires Kept(f) && id in f.goals
    ensures Kept(ServeAll(f, asks)) && id in ServeAll(f, asks).goals
    ensures Attempts(ServeAll(f, asks).goals[id].goal) == Capped(Attempts(f.goals[id].goal) + Continued(f, asks, id))
    decreases |asks|
  {
    hide Kept, GoalPart, Attempts, Serve, Continues;
    if asks == [] {
      KeptGoals(f);
      AttemptsBounded(f, id);
    } else {
      var front := asks[..|asks| - 1];
      AttemptsCountContinues(f, front, id);
      OneMoreAsk(ServeAll(f, front), asks[|asks| - 1], id, Attempts(f.goals[id].goal) + Continued(f, front, id));
    }
  }

  ghost predicate ContinuesIn(s: System, step: Step, id: string) {
    step.Request? && Opened(s).Some? && Continues(Opened(s).value, step.ask, id)
  }

  // How many steps of the run continued the run of the goal.
  ghost function ContinuedIn(s: System, steps: seq<Step>, id: string): nat {
    if steps == [] then 0
    else
      var front := steps[..|steps| - 1];
      ContinuedIn(s, front, id) + if ContinuesIn(Run(s, front), steps[|steps| - 1], id) then 1 else 0
  }

  // Memory, where the store is open, and disk have this many attempts of the goal.
  ghost predicate Counted(s: System, id: string, n: nat) {
    && Invariant(s) && HasAttempts(s.disk, id, n)
    && (s.mem.Some? ==> HasAttempts(s.mem.value, id, n))
  }

  predicate HasAttempts(f: GoalFile, id: string, n: nat) {
    id in f.goals && Attempts(f.goals[id].goal) == Capped(n)
  }

  lemma ServedCounted(s: System, f: GoalFile, ask: Ask, id: string, n: nat)
    requires Kept(f) && HasAttempts(f, id, n) && HasAttempts(s.disk, id, n)
    ensures var t := Served(s, Serve(f, ask), true);
      var m := n + if Continues(f, ask, id) then 1 else 0;
      HasAttempts(t.disk, id, m) && HasAttempts(t.mem.value, id, m)
  {
    OneMoreAsk(f, ask, id, n);
    UncommittedIsUncounted(f, ask, id);
    hide Kept, Serve, Continues, Attempts, Capped;
  }

  lemma OneMoreStep(s: System, step: Step, id: string, n: nat)
    requires Counted(s, id, n) && (step.Request? ==> step.ioOk)
    ensures Counted(Next(s, step), id, n + if ContinuesIn(s, step, id) then 1 else 0)
  {
    NextKeeps(s, step);
    OpenedIsKept(s);
    hide Invariant, Opened, Serve, Continues, HasAttempts;
    if step.Request? && Opened(s).Some? {
      ServedCounted(s, Opened(s).value, step.ask, id, n);
    }
  }

  lemma OpenedIsKept(s: System)
    requires Invariant(s)
    ensures Opened(s).Some? ==> Kept(Opened(s).value) && Opened(s).value == if s.mem.Some? then s.mem.value else s.disk
  {
    if s.mem.None? { MigrationIsIdentity(s.disk); }
    hide GoalPart, CompletedAreJustified, CurrentInHistory, Loadable, Migrate, Grows;
  }

  lemma UncommittedIsUncounted(f: GoalFile, ask: Ask, id: string)
    ensures Continues(f, ask, id) ==> Serve(f, ask).commit
  {
    hide Serve;
  }

  // Across restarts too the attempt counts every continue, as long as every write succeeds.
  lemma {:induction false} AttemptsCountAcrossRestarts(s: System, steps: seq<Step>, id: string, n: nat)
    requires Counted(s, id, n)
    requires forall i :: 0 <= i < |steps| && steps[i].Request? ==> steps[i].ioOk
    ensures Counted(Run(s, steps), id, n + ContinuedIn(s, steps, id))
    decreases |steps|
  {
    hide Counted, Next, ContinuesIn;
    if steps != [] {
      var front := steps[..|steps| - 1];
      assert forall i :: 0 <= i < |front| ==> front[i] == steps[i];
      AttemptsCountAcrossRestarts(s, front, id, n);
      OneMoreStep(Run(s, front), steps[|steps| - 1], id, n + ContinuedIn(s, front, id));
    }
  }

  lemma AttemptsBounded(f: GoalFile, id: string)
    requires GoalPart(f) && id in f.goals
    ensures Attempts(f.goals[id].goal) <= U32_MAX
  {}

  lemma KeptGoals(f: GoalFile)
    requires Kept(f)
    ensures GoalPart(f)
  {}

  /* Starting again. */

  // A repeated start finds the goal of the first one, however the store has changed since.
  lemma RepeatedStartFindsItsGoal(f: GoalFile, r: StartRequest, freshId: string, now: int, later: GoalFile,
      freshId': string, now': int)
    requires GoalPart(f) && freshId !in f.goals && Start(f, r, freshId, now).answer.OkGoal?
    requires GoalsExtend(Start(f, r, freshId, now).file, later)
    ensures var id := Start(f, r, freshId, now).answer.record.goal.id;
      id in later.goals && Start(later, r, freshId', now') == Nothing(later, OkGoal(later.goals[id]))
  {
    StartIsRemembered(f, r, freshId, now);
    StartAccepts(f, r, freshId, now);
    hide GoalPart, GoalEvolves, InputOf, Trim, Seal, SealConfig;
    var file := Start(f, r, freshId, now).file;
    assert r.key in later.idempotency && later.idempotency[r.key] == file.idempotency[r.key];
  }

  lemma StartIsRemembered(f: GoalFile, r: StartRequest, freshId: string, now: int)
    requires GoalPart(f) && freshId !in f.goals && Start(f, r, freshId, now).answer.OkGoal?
    ensures var reply := Start(f, r, freshId, now);
      var id := reply.answer.record.goal.id;
      id in reply.file.goals && r.key in reply.file.idempotency
        && reply.file.idempotency[r.key] == Replay(id, InputOf(r))
  {
    hide GoalShape, SealConfig, Trim, InputOf;
    if r.key in f.idempotency {
      StoredGoal(f, f.idempotency[r.key].goalId);
    }
  }

  lemma StartAccepts(f: GoalFile, r: StartRequest, freshId: string, now: int)
    requires Start(f, r, freshId, now).answer.OkGoal?
    ensures var input := InputOf(r);
      !(input.objective == "" || |input.objective| > 4096 || Trim(r.key) == "" || |r.key| > 256)
  {
    hide GoalShape, SealConfig, Trim, InputOf;
  }

  /* Reloading. */

  // Published graphs name results the store holds. The store does not check this itself.
  ghost predicate RefsChecked(s: System, step: Step) {
    step.Request? && step.ask.Publishing? && Opened(s).Some? ==> RefsValid(Opened(s).value.results, step.ask.graph)
  }

  ghost predicate AllRefsChecked(s: System, steps: seq<Step>) {
    forall i :: 0 <= i < |steps| ==> RefsChecked(Run(s, steps[..i]), steps[i])
  }

  ghost predicate Reloads(s: System) {
    && Invariant(s) && GraphPart(s.disk)
    && (s.mem.Some? ==> GraphPart(s.mem.value))
  }

  lemma ServeReloads(f: GoalFile, ask: Ask)
    requires Kept(f) && GraphPart(f)
    requires ask.Publishing? ==> RefsValid(f.results, ask.graph)
    ensures GraphPart(Serve(f, ask).file)
  {
    hide GraphPart, GoalPart, CurrentInHistory, CompletedAreJustified, Start, CallGoal, CompleteGoal, PublishGraph,
      RecordResult, GraphsExtend, RefsValid;
    match ask
    case Starting(_, _, _) => GoalCallReloads(f, ask);
    case Calling(_, _, _, _) => GoalCallReloads(f, ask);
    case Finishing(_, _, _, _, _) => GoalCallReloads(f, ask);
    case Publishing(graph, expectedPrevious) => PublishReloadsExactlyWhen(f, graph, expectedPrevious);
    case Recording(result, expectedGraph, expectedStage) => RecordKeeps(f, result, expectedGraph, expectedStage);
  }

  lemma GoalCallReloads(f: GoalFile, ask: Ask)
    requires Kept(f) && GraphPart(f) && (ask.Starting? || ask.Calling? || ask.Finishing?)
    ensures GraphPart(Serve(f, ask).file)
  {
    hide GraphPart, GoalPart, CurrentInHistory, CompletedAreJustified, Serve, GraphsExtend, GoalEvolves;
    GoalCallsLeaveGraphs(f, ask);
    ServeKeeps(f, ask);
    assert f.goals.Keys <= Serve(f, ask).file.goals.Keys;
    GoalCallKeepsGraphs(f, Serve(f, ask).file);
  }

  lemma LoadableParts(f: GoalFile)
    requires Kept(f) && GraphPart(f)
    ensures Loadable(f) && Migrate(f) == f
  {
    hide GoalsOk, GraphsOk, ResultOk, StoreGoal, CompletedAreJustified;
    MigrationIsIdentity(f);
  }

  lemma NextReloads(s: System, step: Step)
    requires Reloads(s) && RefsChecked(s, step)
    ensures Reloads(Next(s, step))
  {
    NextKeeps(s, step);
    LoadableParts(s.disk);
    hide Kept, Grows, GraphPart, Loadable, Serve;
    if step.Request? {
      ServeReloads(Opened(s).value, step.ask);
    }
  }

  lemma {:induction false} RunReloads(s: System, steps: seq<Step>)
    requires Reloads(s) && AllRefsChecked(s, steps)
    ensures Reloads(Run(s, steps))
    decreases |steps|
  {
    hide Reloads, Next, RefsChecked;
    if steps != [] {
      var front := steps[..|steps| - 1];
      forall i | 0 <= i < |front|
        ensures RefsChecked(Run(s, front[..i]), front[i])
      {
        assert front[..i] == steps[..i];
      }
      RunReloads(s, front);
      NextReloads(Run(s, front), steps[|steps| - 1]);
    }
  }

  // Every reachable store loads again, in memory and on disk, and the migration of old files changes
  // nothing in it, provided published graphs name results the store holds.
  lemma EveryReachableStoreReloads(steps: seq<Step>)
    requires AllRefsChecked(Fresh, steps)
    ensures var s := Run(Fresh, steps);
      && Loadable(s.disk) && Migrate(s.disk) == s.disk
      && (s.mem.Some? ==> Loadable(s.mem.value) && Migrate(s.mem.value) == s.mem.value)
  {
    FreshIsKept();
    assert Reloads(Fresh);
    RunReloads(Fresh, steps);
    var s := Run(Fresh, steps);
    hide Run, Kept, Grows, GraphPart, Loadable;
    LoadableParts(s.disk);
    if s.mem.Some? { LoadableParts(s.mem.value); }
  }

  /* The provision is needed. */

  const STRAY := DocRef(RESULT_SCHEMA, "gone", 1, OfOther(0))

  const StrayStage := SealStage(StageBody("s", 1, "g", StageCompleted, Some(STRAY), [], [], [], false, false, ""))

  const StrayBody := GraphBody("graph", "g", 1, [StrayStage], [], None, None, None, true, "")

  const StrayGraph := Graph(StrayBody, OfGraph(StrayBody))

  const PlainStart := StartRequest("x", None, None, "k", [])

  lemma PlainGoalStarts()
    ensures var reply := Start(EmptyGoals, PlainStart, "g", 0);
      reply.commit && "g" in reply.file.goals && reply.file.graphs == map[] && reply.file.history == map[]
        && reply.file.results == map[]
  {
    assert Trim("x") == "x" && Trim("k") == "k";
    assert GoalShape(NewGoal("g", InputOf(PlainStart), 0));
  }

  lemma StrayGraphIsVerified()
    ensures GraphVerified(StrayGraph)
  {
    assert StageVerified(StrayStage);
  }

  // Two accepted, written calls after which no restart can open the store: a graph whose only stage
  // claims a result that was never recorded.
  lemma UncheckedRefsLockTheStore()
    ensures var started := Start(EmptyGoals, PlainStart, "g", 0);
      var published := PublishGraph(started.file, StrayGraph, None);
      started.commit && published.commit && published.answer == OkGraph(StrayGraph)
        && Opened(System(None, published.file)).None?
  {
    PlainGoalStarts();
    StrayGraphIsVerified();
    hide Start, GraphVerified, HistoryOk, GoalsOk;
    var f := PublishGraph(Start(EmptyGoals, PlainStart, "g", 0).file, StrayGraph, None).file;
    assert !StageRefValid(f.results, "g", StrayGraph.body.stages[0]);
    assert "graph" in Migrate(f).graphs && Migrate(f).graphs["graph"] == StrayGraph;
  }
}
