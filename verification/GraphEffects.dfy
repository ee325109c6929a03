/** What starting, publishing and recording answer and change, and what a loadable file holds. */
module GraphEffects {
  import opened Basics
  import opened Goals
  import opened GoalFacts
  import opened GraphFacts
  import opened GoalTheorems

  /* Starting a goal. */

  // Two requests ask for the same: after trimming, and with the same overrides in the same order.
  ghost predicate SameRequest(a: StartRequest, b: StartRequest) {
    && Trim(a.objective) == Trim(b.objective) && a.overrides == b.overrides
    && (a.question.Some? <==> b.question.Some?)
    && (a.question.Some? && b.question.Some? ==>
          && Trim(a.question.value.0) == Trim(b.question.value.0)
            && Trim(a.question.value.1) == Trim(b.question.value.1))
    && SameKey(a.projectKey, b.projectKey)
  }

  // A blank project key is as good as none.
  ghost predicate SameKey(a: Option<string>, b: Option<string>) {
    var blankA := a.None? || Trim(a.value) == "";
    var blankB := b.None? || Trim(b.value) == "";
    blankA == blankB && (!blankA && !blankB ==> Trim(a.value) == Trim(b.value))
  }

  lemma SameInputExactlyWhen(a: StartRequest, b: StartRequest)
    ensures InputOf(a) == InputOf(b) <==> SameRequest(a, b)
  {
    hide Trim;
  }

  // A used key is answered with its goal for the same request, and refused as a conflict for any other;
  // either way nothing changes, however the store has changed since the first start.
  lemma RepeatedKeyAnswers(f: GoalFile, r: StartRequest, freshId: string, now: int, later: GoalFile,
      again: StartRequest, freshId': string, now': int)
    requires GoalPart(f) && freshId !in f.goals && Start(f, r, freshId, now).commit
    requires GoalsExtend(Start(f, r, freshId, now).file, later)
    requires again.key == r.key && Trim(again.objective) != "" && |Trim(again.objective)| <= 4096
    ensures freshId in later.goals
    ensures Start(later, again, freshId', now') ==
      Reply(later, false, if SameRequest(r, again) then OkGoal(later.goals[freshId]) else Fail(IdempotencyConflict))
  {
    SameInputExactlyWhen(r, again);
    CommittedStart(f, r, freshId, now);
    hide SameRequest, InputOf, Trim, GoalShape, SealConfig, GoalPart, GoalEvolves;
    var file := Start(f, r, freshId, now).file;
    assert r.key in later.idempotency && later.idempotency[r.key] == file.idempotency[r.key];
    TrimmedObjective(again);
    hide Start;
    UsedKey(later, again, freshId', now', freshId, InputOf(r));
  }

  lemma TrimmedObjective(r: StartRequest)
    ensures InputOf(r).objective == Trim(r.objective)
  {
    hide Trim;
  }

  lemma UsedKey(f: GoalFile, r: StartRequest, freshId: string, now: int, goalId: string, input: StartInput)
    requires r.key in f.idempotency && f.idempotency[r.key] == Replay(goalId, input) && goalId in f.goals
    requires Trim(r.key) != "" && |r.key| <= 256 && InputOf(r).objective != "" && |InputOf(r).objective| <= 4096
    ensures Start(f, r, freshId, now) ==
      Reply(f, false, if InputOf(r) == input then OkGoal(f.goals[goalId]) else Fail(IdempotencyConflict))
  {
    hide InputOf, Trim, GoalShape, SealConfig;
  }

  lemma CommittedStart(f: GoalFile, r: StartRequest, freshId: string, now: int)
    requires Start(f, r, freshId, now).commit
    ensures var file := Start(f, r, freshId, now).file;
      && freshId in file.goals && r.key in file.idempotency
      && file.idempotency[r.key] == Replay(freshId, InputOf(r))
      && Trim(r.key) != "" && |r.key| <= 256
  {
    hide InputOf, NewGoal, Seal, SealConfig, Trim;
  }

  // What a written start adds: one goal at its first revision, without plan, run or evidence, waiting if
  // it came with a question; its key; and its overrides in order, if there are any.
  lemma StartEffect(f: GoalFile, r: StartRequest, freshId: string, now: int)
    requires Start(f, r, freshId, now).commit && freshId !in f.goals
    ensures var reply := Start(f, r, freshId, now);
      && reply.answer.OkGoal? && r.key !in f.idempotency
      && reply.file.goals == f.goals[freshId := reply.answer.record]
      && reply.file.idempotency == f.idempotency[r.key := Replay(freshId, InputOf(r))]
      && (r.overrides == [] ==> reply.file.configs == f.configs)
      && (r.overrides != [] ==>
            && freshId in reply.file.configs
            && reply.file.configs == f.configs[freshId := reply.file.configs[freshId]]
            && ConfigOf(reply.file.configs[freshId], freshId, r.overrides))
      && reply.file.graphs == f.graphs && reply.file.history == f.history && reply.file.results == f.results
      && IsNewGoal(reply.answer.record, r, freshId, now)
  {
    NewGoalFields(r, freshId, now);
    hide InputOf, NewGoal, GoalShape, IsNewGoal, ConfigOf, SealConfig, Trim;
    if r.overrides != [] { SealedConfigFields(freshId, r.overrides); }
  }

  ghost predicate IsNewGoal(record: GoalRecord, r: StartRequest, id: string, now: int) {
    var g := record.goal;
    && record.fingerprint == Whole(g) && g.id == id && g.revision == 1 && g.objective == Trim(r.objective)
    && g.planRevision == 0 && g.items == [] && g.run.None? && g.evidence.None? && g.createdAt == now
      && g.updatedAt == now
    && (r.question.None? ==> g.status == Active && g.question.None?)
    && (r.question.Some? ==>
          g.status == WaitingQuestion
            && g.question == Some(Question(Trim(r.question.value.0), Trim(r.question.value.1), None)))
    && (r.projectKey.None? ==> g.projectKey.None?)
    && (r.projectKey.Some? ==>
          g.projectKey == (if Trim(r.projectKey.value) == "" then None else Some(Trim(r.projectKey.value))))
  }

  lemma NewGoalFields(r: StartRequest, id: string, now: int)
    ensures var goal := NewGoal(id, InputOf(r), now); IsNewGoal(GoalRecord(goal, Whole(goal)), r, id, now)
  {
    hide Trim;
  }

  // The stored configuration: the requested overrides in strictly ascending order of their keys.
  ghost predicate ConfigOf(c: ConfigRecord, id: string, overrides: seq<ConfigOverride>) {
    && c.goalId == id && multiset(c.overrides) == multiset(overrides)
    && (forall i, j :: 0 <= i < j < |c.overrides| ==> c.overrides[i].key < c.overrides[j].key)
    && 1 <= |c.overrides| <= 128
  }

  lemma SealedConfigFields(id: string, overrides: seq<ConfigOverride>)
    ensures SealConfig(id, overrides).Some? ==> ConfigOf(SealConfig(id, overrides).value, id, overrides)
  {
    SealedConfigIsValid(id, overrides);
    if SealConfig(id, overrides).Some? {
      var sorted := SealConfig(id, overrides).value.overrides;
      forall i, j | 0 <= i < j < |sorted|
        ensures sorted[i].key < sorted[j].key
      {
        Ascending(sorted, i, j);
      }
    }
    hide SealConfig;
  }

  lemma {:induction false} Ascending(sorted: seq<ConfigOverride>, i: nat, j: nat)
    requires i < j < |sorted| && Increasing(sorted)
    ensures sorted[i].key < sorted[j].key
    decreases j
  {
    if i < j - 1 { Ascending(sorted, i, j - 1); }
  }

  /* Publishing a graph. */

  // The graph may be published: it starts its history, or it is the next revision of the current graph,
  // expected as such and chained to it.
  ghost predicate Publishable(f: GoalFile, g: Graph, expectedPrevious: Option<nat>) {
    && GraphVerified(g) && g.body.goalId in f.goals
    && if g.body.id !in f.graphs then expectedPrevious.None?
       else
         var current := f.graphs[g.body.id];
         && expectedPrevious == Some(current.body.planRevision)
         && g.body.planRevision == current.body.planRevision + 1
         && g.body.previous == Some(current.fingerprint)
  }

  lemma PublishedExactlyWhen(f: GoalFile, g: Graph, expectedPrevious: Option<nat>)
    requires GraphPart(f)
    ensures var reply := PublishGraph(f, g, expectedPrevious);
      var id := g.body.id;
      && (reply.commit <==> Publishable(f, g, expectedPrevious))
      && (!reply.commit ==> reply.file == f)
      && (!reply.commit && reply.answer.OkGraph? <==>
        GraphVerified(g) && g.body.goalId in f.goals && id in f.graphs && f.graphs[id] == g)
      && (reply.commit ==>
            && reply.answer == OkGraph(g)
            && reply.file.graphs == f.graphs[id := g] && id in reply.file.history
            && reply.file.history == f.history[id := reply.file.history[id]]
            && reply.file.history[id] == (if id in f.history then f.history[id] else map[])[g.body.planRevision := g]
            && reply.file.goals == f.goals && reply.file.results == f.results)
  {
    var id := g.body.id;
    hide HistoryOk, ResultOk, GraphVerified, RefsValid;
    if GraphVerified(g) { RevisionBound(g); }
    if id in f.graphs {
      CurrentIsLast(f, id);
      RevisionBound(f.graphs[id]);
      LastIsLast(f.history[id], f.graphs[id].body.planRevision, g.body.planRevision);
    }
  }

  lemma LastIsLast(h: map<nat, Graph>, last: nat, r: nat)
    requires IsLast(h, last)
    ensures r > last ==> r !in h
  {}

  /* Recording a stage result. */

  // The state each outcome ends a stage in.
  ghost predicate Ends(outcome: ResultOutcome, state: StageState) {
    || (outcome == OutcomeCompleted && state == StageCompleted)
    || (outcome == OutcomeFailed && state == StageFailed)
    || (outcome == OutcomeBlocked && state == StageBlocked)
    || (outcome == OutcomeUnknown && state == StageBlocked)
    || (outcome == OutcomeCancelled && state == StageCancelled)
  }

  // The `i`-th stage, the first with its id, has this id.
  ghost predicate FirstAt(stages: seq<Stage>, id: string, i: int) {
    && 0 <= i < |stages| && stages[i].body.id == id
    && forall j :: 0 <= j < i ==> stages[j].body.id != id
  }

  lemma FirstAtIsIndex(stages: seq<Stage>, id: string, i: int)
    ensures FirstAt(stages, id, i) <==> StageIndex(stages, id) == Some(i)
  {
    var found := StageIndex(stages, id);
    if FirstAt(stages, id, i) {
      assert HasStage(stages, id);
    }
  }

  ghost predicate DependencyDone(stages: seq<Stage>, id: string) {
    exists j :: FirstAt(stages, id, j) && stages[j].body.state == StageCompleted
  }

  // Every stage it depends on is in the graph and completed.
  ghost predicate DependenciesDone(stages: seq<Stage>, s: Stage) {
    forall k :: 0 <= k < |s.body.dependencies| ==> DependencyDone(stages, s.body.dependencies[k])
  }

  lemma DependencyDoneExactly(stages: seq<Stage>, id: string)
    ensures DependencyDone(stages, id) <==>
      StageIndex(stages, id).Some? && stages[StageIndex(stages, id).value].body.state.StageCompleted?
  {
    forall j
      ensures FirstAt(stages, id, j) <==> StageIndex(stages, id) == Some(j)
    {
      FirstAtIsIndex(stages, id, j);
    }
    hide FirstAt;
    if StageIndex(stages, id).Some? {
      assert FirstAt(stages, id, StageIndex(stages, id).value);
    }
  }

  lemma DependenciesDoneExactly(stages: seq<Stage>, s: Stage)
    ensures DependenciesCompleted(stages, s) <==> DependenciesDone(stages, s)
  {
    forall k | 0 <= k < |s.body.dependencies|
      ensures DependencyDone(stages, s.body.dependencies[k]) <==>
        StageIndex(stages, s.body.dependencies[k]).Some?
        && stages[StageIndex(stages, s.body.dependencies[k]).value].body.state.StageCompleted?
    {
      DependencyDoneExactly(stages, s.body.dependencies[k]);
    }
    hide DependencyDone;
  }

  // What the result must say of graph and stage, spelled out.
  ghost predicate Fits(r: ResultBody, g: Graph, s: Stage) {
    && r.goalId == g.body.goalId && s.body.goalId == g.body.goalId
    && r.graphRef == DocRef("star.stage-graph", g.body.id, g.body.planRevision, g.fingerprint)
    && r.stageRef == DocRef("star.stage-spec", s.body.id, s.body.revision, s.fingerprint)
    && s.body.state !in {StageBlocked, StageFailed, StageCancelled, StageCompleted, Superseded}
    && (r.outcome == OutcomeCompleted ==>
          && s.body.state in {Ready, StageRunning} && r.criteria == s.body.criteria
          && |r.evidence| == |s.body.projects|
          && forall i :: 0 <= i < |r.evidence| ==> r.evidence[i].projectId == s.body.projects[i])
    && (r.outcome != OutcomeCompleted ==>
          && (forall i :: 0 <= i < |r.criteria| ==> r.criteria[i] in s.body.criteria)
          && (forall i :: 0 <= i < |r.evidence| ==> r.evidence[i].projectId in s.body.projects))
    && (s.body.codex ==> r.hasExecution)
  }

  lemma FitsExactly(r: StageResult, g: Graph, s: Stage)
    requires ResultVerified(r) && GraphVerified(g) && StageVerified(s) && s in g.body.stages
    ensures VerifiedAgainst(r, g, s) <==> Fits(r.body, g, s)
  {
    hide ResultVerified, GraphVerified, StageVerified;
    var p := Projects(r.body.evidence);
    assert |p| == |r.body.evidence| && forall i :: 0 <= i < |p| ==> p[i] == r.body.evidence[i].projectId;
    if |r.body.evidence| == |s.body.projects| && (forall i :: 0 <= i < |p| ==> p[i] == s.body.projects[i]) {
      assert p == s.body.projects;
    }
  }

  // A new result may be recorded on the current graph.
  ghost predicate Recordable(f: GoalFile, r: StageResult, expectedGraph: nat, expectedStage: nat, i: int) {
    var id := r.body.graphRef.documentId;
    && ResultVerified(r) && r.body.id !in f.results && id in f.graphs
    && var g := f.graphs[id];
       && g.body.planRevision == expectedGraph < 0xFFFF_FFFF_FFFF_FFFF
       && FirstAt(g.body.stages, r.body.stageRef.documentId, i)
       && var s := g.body.stages[i];
          && s.body.revision == expectedStage < 0xFFFF_FFFF_FFFF_FFFF
          && Fits(r.body, g, s)
          && (r.body.outcome == OutcomeCompleted ==> DependenciesDone(g.body.stages, s))
          && !(s.body.codex && !s.body.plansBound)
  }

  // The next graph: the next revision, chained to the last one, with this one stage closed by the result.
  ghost predicate Closes(g: Graph, next: Graph, i: int, r: StageResult)
    requires 0 <= i < |g.body.stages|
  {
    && next.body.id == g.body.id && next.body.goalId == g.body.goalId
    && next.body.planRevision == g.body.planRevision + 1 && next.body.previous == Some(g.fingerprint)
    && next.body.replanReason == Some("stage_result:" + r.body.id)
    && next.body.restValid == g.body.restValid && next.body.rest == g.body.rest
    && next.fingerprint == OfGraph(next.body)
    && next.body.criticalPath == g.body.criticalPath && next.body.integration == g.body.integration
    && |next.body.stages| == |g.body.stages|
    && (forall j :: 0 <= j < |g.body.stages| && j != i ==> next.body.stages[j] == g.body.stages[j])
    && var was, now := g.body.stages[i].body, next.body.stages[i].body;
       && now.id == was.id && now.goalId == was.goalId && now.revision == was.revision + 1
       && Ends(r.body.outcome, now.state)
       && now.resultRef == Some(DocRef("star.stage-result", r.body.id, r.body.revision, r.fingerprint))
       && now.dependencies == was.dependencies && now.criteria == was.criteria && now.projects == was.projects
       && now.codex == was.codex && now.plansBound == was.plansBound && now.rest == was.rest
       && next.body.stages[i].fingerprint == OfStage(now)
  }

  lemma NextCloses(g: Graph, i: nat, r: StageResult)
    requires i < |g.body.stages|
    ensures Closes(g, NextGraph(g, i, r), i, r)
  {}

  lemma CurrentIsStored(f: GoalFile, id: string)
    requires GraphPart(f) && id in f.graphs
    ensures id in f.history && GraphVerified(f.graphs[id]) && f.graphs[id].body.planRevision + 1 !in f.history[id]
  {
    hide ResultOk, GraphVerified, RefsValid;
    CurrentIsLast(f, id);
    LastIsLast(f.history[id], f.graphs[id].body.planRevision, f.graphs[id].body.planRevision + 1);
  }

  lemma StagesAreVerified(g: Graph, i: nat)
    requires GraphVerified(g) && i < |g.body.stages|
    ensures StageVerified(g.body.stages[i]) && g.body.stages[i] in g.body.stages
  {}

  // The conditions once graph and stage are found, in the order they are looked at.
  ghost predicate RecordableAt(g: Graph, r: StageResult, expectedGraph: nat, expectedStage: nat, i: nat)
    requires i < |g.body.stages|
  {
    var s := g.body.stages[i];
    && g.body.planRevision == expectedGraph < 0xFFFF_FFFF_FFFF_FFFF
    && s.body.revision == expectedStage < 0xFFFF_FFFF_FFFF_FFFF
    && Fits(r.body, g, s)
    && (r.body.outcome == OutcomeCompleted ==> DependenciesDone(g.body.stages, s))
    && !(s.body.codex && !s.body.plansBound)
  }

  lemma SealsExactly(g: Graph, r: StageResult, i: nat)
    requires i < |g.body.stages| && GraphVerified(g) && ResultVerified(r) && Fits(r.body, g, g.body.stages[i])
    requires g.body.planRevision < 0xFFFF_FFFF_FFFF_FFFF && g.body.stages[i].body.revision < 0xFFFF_FFFF_FFFF_FFFF
    ensures GraphShape(NextGraph(g, i, r).body) <==> !(g.body.stages[i].body.codex && !g.body.stages[i].body.plansBound)
  {
    StagesAreVerified(g, i);
    FitsExactly(r, g, g.body.stages[i]);
    EndedGraphShape(g, i, r);
    hide GraphShape, NextBody;
  }

  lemma NewResultExactlyWhen(f: GoalFile, id: string, r: StageResult, expectedGraph: nat, expectedStage: nat, i: nat)
    requires id == r.body.graphRef.documentId && id in f.graphs && id in f.history && ResultVerified(r)
    requires GraphVerified(f.graphs[id]) && f.graphs[id].body.planRevision + 1 !in f.history[id]
    requires StageIndex(f.graphs[id].body.stages, r.body.stageRef.documentId) == Some(i)
    ensures var g := f.graphs[id];
      var reply := NewResult(f, g, r, expectedGraph, expectedStage);
      var next := NextGraph(g, i, r);
      if RecordableAt(g, r, expectedGraph, expectedStage, i) then
        reply == Reply(WithResult(f, id, r, next), true, OkResult(r, next))
      else reply.file == f && !reply.commit
  {
    hide GraphVerified, ResultVerified, StageVerified, VerifiedAgainst, DependenciesCompleted, DependenciesDone, Fits,
      GraphShape, NextGraph, WithResult, StageIndex;
    var g := f.graphs[id];
    var s := g.body.stages[i];
    StagesAreVerified(g, i);
    FitsExactly(r, g, s);
    DependenciesDoneExactly(g.body.stages, s);
    if Fits(r.body, g, s) && g.body.planRevision < U64_MAX && s.body.revision < U64_MAX { SealsExactly(g, r, i); }
    if Fits(r.body, g, s) { FitsBinds(r.body, g, s); }
    NextRevision(g, i, r);
  }

  lemma FitsBinds(r: ResultBody, g: Graph, s: Stage)
    requires Fits(r, g, s)
    ensures r.graphRef.revision == g.body.planRevision && r.graphRef.sha == g.fingerprint
    ensures r.outcome.OutcomeCompleted? ==> s.body.state.Ready? || s.body.state.StageRunning?
  {}

  lemma NewResultWithoutStage(f: GoalFile, g: Graph, r: StageResult, expectedGraph: nat, expectedStage: nat)
    requires StageIndex(g.body.stages, r.body.stageRef.documentId).None?
    ensures var reply := NewResult(f, g, r, expectedGraph, expectedStage); reply.file == f && !reply.commit
  {}

  lemma VerifiedSchema(r: StageResult)
    requires ResultVerified(r)
    ensures r.body.graphRef.schema == GRAPH_SCHEMA
  {}

  // A result is recorded exactly if it may be; then it is stored, and the graph in which it closes its
  // stage is the current one and the next of its history.
  lemma RecordedExactlyWhen(f: GoalFile, r: StageResult, expectedGraph: nat, expectedStage: nat)
    requires GraphPart(f)
    ensures var reply := RecordResult(f, r, expectedGraph, expectedStage);
      && (reply.commit <==> exists i :: Recordable(f, r, expectedGraph, expectedStage, i))
      && (!reply.commit ==> reply.file == f)
      && (reply.commit ==>
            && reply.answer.OkResult? && reply.answer.result == r
            && (exists i ::
                  Recordable(f, r, expectedGraph, expectedStage, i)
                  && RecordedAs(f, reply.file, r, i, reply.answer.after)))
  {
    var id := r.body.graphRef.documentId;
    hide GraphPart, ResultVerified, NewResult, CarriesResult, FirstAt, Fits, DependenciesDone, StageIndex, RecordedAs;
    if ResultVerified(r) && r.body.id !in f.results && id in f.graphs {
      VerifiedSchema(r);
      FoundGraphRecords(f, id, r, expectedGraph, expectedStage);
    }
  }

  lemma FoundGraphRecords(f: GoalFile, id: string, r: StageResult, expectedGraph: nat, expectedStage: nat)
    requires GraphPart(f) && id == r.body.graphRef.documentId && id in f.graphs
    requires ResultVerified(r) && r.body.id !in f.results
    ensures var reply := NewResult(f, f.graphs[id], r, expectedGraph, expectedStage);
      && (reply.commit <==> exists i :: Recordable(f, r, expectedGraph, expectedStage, i))
      && (!reply.commit ==> reply.file == f)
      && (reply.commit ==>
            && reply.answer.OkResult? && reply.answer.result == r
            && (exists i ::
                  Recordable(f, r, expectedGraph, expectedStage, i)
                  && RecordedAs(f, reply.file, r, i, reply.answer.after)))
  {
    var g := f.graphs[id];
    CurrentIsStored(f, id);
    var index := StageIndex(g.body.stages, r.body.stageRef.documentId);
    RecordableIs(f, id, r, expectedGraph, expectedStage);
    hide GraphPart, ResultVerified, GraphVerified, Recordable, RecordableAt, NextGraph, StageIndex, RecordedAs;
    if index.Some? {
      NewResultExactlyWhen(f, id, r, expectedGraph, expectedStage, index.value);
      StoredAs(f, id, r, index.value);
      hide NewResult, WithResult;
    } else {
      NewResultWithoutStage(f, g, r, expectedGraph, expectedStage);
      hide NewResult;
    }
  }

  lemma RecordableIs(f: GoalFile, id: string, r: StageResult, expectedGraph: nat, expectedStage: nat)
    requires id == r.body.graphRef.documentId && id in f.graphs && ResultVerified(r) && r.body.id !in f.results
    ensures var index := StageIndex(f.graphs[id].body.stages, r.body.stageRef.documentId);
      forall i :: Recordable(f, r, expectedGraph, expectedStage, i) <==>
        index == Some(i) && RecordableAt(f.graphs[id], r, expectedGraph, expectedStage, index.value)
  {
    var stages := f.graphs[id].body.stages;
    var index := StageIndex(stages, r.body.stageRef.documentId);
    forall i
      ensures Recordable(f, r, expectedGraph, expectedStage, i) <==>
        index == Some(i) && RecordableAt(f.graphs[id], r, expectedGraph, expectedStage, index.value)
    {
      FirstAtIsIndex(stages, r.body.stageRef.documentId, i);
      hide FirstAt, Fits, DependenciesDone, ResultVerified, StageIndex;
    }
  }

  lemma StoredAs(f: GoalFile, id: string, r: StageResult, i: nat)
    requires id == r.body.graphRef.documentId && id in f.graphs && id in f.history && i < |f.graphs[id].body.stages|
    ensures var next := NextGraph(f.graphs[id], i, r);
      RecordedAs(f, WithResult(f, id, r, next), r, i, next)
  {
    NextCloses(f.graphs[id], i, r);
    hide Closes, NextGraph;
  }

  ghost predicate RecordedAs(f: GoalFile, after: GoalFile, r: StageResult, i: int, next: Graph) {
    var id := r.body.graphRef.documentId;
    && id in f.graphs && id in f.history && 0 <= i < |f.graphs[id].body.stages|
    && Closes(f.graphs[id], next, i, r)
    && after.results == f.results[r.body.id := r]
    && after.graphs == f.graphs[id := next]
    && id in after.history && after.history == f.history[id := after.history[id]]
    && after.history[id] == f.history[id][next.body.planRevision := next]
    && after.goals == f.goals && after.idempotency == f.idempotency && after.configs == f.configs
  }

  // Some stage of the graph is the one the result is about, closed by exactly this result.
  ghost predicate ClosedBy(g: Graph, r: StageResult, i: int) {
    && 0 <= i < |g.body.stages|
    && g.body.stages[i].body.id == r.body.stageRef.documentId
    && g.body.stages[i].body.resultRef == Some(DocRef("star.stage-result", r.body.id, r.body.revision, r.fingerprint))
    && Ends(r.body.outcome, g.body.stages[i].body.state)
  }

  lemma CarriedExactly(g: Graph, r: StageResult)
    ensures CarriesResult(g, r) <==> exists i :: ClosedBy(g, r, i)
  {
    if CarriesResult(g, r) {
      var i :| 0 <= i < |g.body.stages|
        && g.body.stages[i].body.id == r.body.stageRef.documentId
        && g.body.stages[i].body.resultRef == Some(Reference(r))
        && g.body.stages[i].body.state == EndState(r.body.outcome);
      assert ClosedBy(g, r, i);
    }
    if i :| ClosedBy(g, r, i) {
      assert g.body.stages[i].body.state == EndState(r.body.outcome);
    }
  }

  // A result recorded before: the same one is answered with the current graph while a stage of it still
  // carries it, and a different one under its id is a conflict; nothing changes.
  lemma RepeatedResultAnswers(f: GoalFile, r: StageResult, expectedGraph: nat, expectedStage: nat)
    requires ResultVerified(r) && r.body.id in f.results
    ensures var reply := RecordResult(f, r, expectedGraph, expectedStage);
      var id := r.body.graphRef.documentId;
      && reply.file == f && !reply.commit
      && (f.results[r.body.id] != r ==> reply.answer == Fail(RevisionConflict))
      && (f.results[r.body.id] == r && id in f.graphs ==>
            if exists i :: ClosedBy(f.graphs[id], r, i) then reply.answer == OkResult(r, f.graphs[id])
            else reply.answer == Fail(CorruptState))
  {
    VerifiedSchema(r);
    var id := r.body.graphRef.documentId;
    if id in f.graphs { CarriedExactly(f.graphs[id], r); }
    hide ResultVerified, CarriesResult, ClosedBy;
  }

  /* What a loadable file holds. */

  // Every stored result was made for a stage of a stored revision, which it fits, and some stored revision
  // of that graph has the stage closed by it.
  lemma LoadedResultsAreAccountedFor(f: GoalFile, key: string)
    requires Loadable(f) && key in f.results
    ensures var r := f.results[key];
      var id := r.body.graphRef.documentId;
      && key == r.body.id && ResultVerified(r) && id in f.history
      && (exists revision, i :: MadeFor(f.history[id], revision, i, r))
      && (exists revision, i :: revision in f.history[id] && ClosedBy(f.history[id][revision], r, i))
  {
    var r := f.results[key];
    var id := r.body.graphRef.documentId;
    assert ResultOk(f, key);
    hide GoalsOk, GraphsOk, ResultVerified, CarriesResult, VerifiedAgainst, ClosedBy;
    var h := f.history[id];
    var i :| ResultAgrees(h[r.body.graphRef.revision], i, r);
    AgreesFits(h[r.body.graphRef.revision], i, r);
    assert MadeFor(h, r.body.graphRef.revision, i, r);
    var k :| k in h && CarriesResult(h[k], r);
    CarriedExactly(h[k], r);
    var j :| ClosedBy(h[k], r, j);
  }

  ghost predicate MadeFor(h: map<nat, Graph>, revision: nat, i: int, r: StageResult) {
    && revision in h && revision == r.body.graphRef.revision
    && FirstAt(h[revision].body.stages, r.body.stageRef.documentId, i)
    && Fits(r.body, h[revision], h[revision].body.stages[i])
  }

  lemma AgreesFits(g: Graph, i: int, r: StageResult)
    requires ResultAgrees(g, i, r)
    ensures FirstAt(g.body.stages, r.body.stageRef.documentId, i) && Fits(r.body, g, g.body.stages[i])
  {
    FirstAtIsIndex(g.body.stages, r.body.stageRef.documentId, i);
    AgreesVerified(r, g, g.body.stages[i]);
    FitsExactly(r, g, g.body.stages[i]);
    hide VerifiedAgainst, Fits;
  }

  lemma AgreesVerified(r: StageResult, g: Graph, s: Stage)
    requires VerifiedAgainst(r, g, s)
    ensures ResultVerified(r) && GraphVerified(g) && StageVerified(s) && s in g.body.stages
  {}

  // Every stored revision is a verified graph of a stored goal under its own id and revision, every stage
  // with a result names a stored one that closed it, and the current graph is the last revision.
  lemma LoadedRevisionsAreConsistent(f: GoalFile, id: string, revision: nat)
    requires Loadable(f) && id in f.history && revision in f.history[id]
    ensures var g := f.history[id][revision];
      && g.body.id == id && g.body.planRevision == revision && g.body.goalId in f.goals && GraphVerified(g)
      && id in f.graphs && revision <= f.graphs[id].body.planRevision
      && f.graphs[id].body.planRevision in f.history[id]
      && f.history[id][f.graphs[id].body.planRevision] == f.graphs[id]
      && (forall i :: 0 <= i < |g.body.stages| && g.body.stages[i].body.resultRef.Some? ==>
            var key := g.body.stages[i].body.resultRef.value.documentId;
            key in f.results && f.results[key].body.goalId == g.body.goalId && ClosedBy(g, f.results[key], i))
  {
    StoredEntry(f, id, revision);
    var g := f.history[id][revision];
    hide Loadable, GraphVerified, RefsValid, ClosedBy;
    RefsAreClosed(f.results, g);
  }

  lemma StoredEntry(f: GoalFile, id: string, revision: nat)
    requires Loadable(f) && id in f.history && revision in f.history[id]
    ensures var g := f.history[id][revision];
      && g.body.id == id && g.body.planRevision == revision && g.body.goalId in f.goals && GraphVerified(g)
      && RefsValid(f.results, g)
      && id in f.graphs && revision <= f.graphs[id].body.planRevision
      && f.graphs[id].body.planRevision in f.history[id]
      && f.history[id][f.graphs[id].body.planRevision] == f.graphs[id]
  {
    assert HistoryOk(f, id);
    hide GoalsOk, GraphsOk, ResultOk, GraphVerified, RefsValid, LinkedTo;
    CurrentIsLast(f, id);
    assert EntryOk(f, id, revision, f.history[id][revision]);
  }

  lemma RefsAreClosed(results: map<string, StageResult>, g: Graph)
    requires RefsValid(results, g)
    ensures forall i :: 0 <= i < |g.body.stages| && g.body.stages[i].body.resultRef.Some? ==>
      var key := g.body.stages[i].body.resultRef.value.documentId;
      key in results && results[key].body.goalId == g.body.goalId && ClosedBy(g, results[key], i)
  {
    forall i | 0 <= i < |g.body.stages| && g.body.stages[i].body.resultRef.Some?
      ensures var key := g.body.stages[i].body.resultRef.value.documentId;
        key in results && results[key].body.goalId == g.body.goalId && ClosedBy(g, results[key], i)
    {
      assert StageRefValid(results, g.body.goalId, g.body.stages[i]);
    }
  }

  // Every stored goal is valid under its own id, keys name stored goals, and configurations belong to
  // stored goals, with at most 128 overrides in strictly ascending order.
  lemma LoadedGoalsAreConsistent(f: GoalFile)
    requires Loadable(f)
    ensures forall id :: id in f.goals ==> f.goals[id].goal.id == id && GoalValid(f.goals[id])
    ensures forall key :: key in f.idempotency ==> f.idempotency[key].goalId in f.goals
    ensures forall id :: id in f.configs ==> id in f.goals && ConfigOf(f.configs[id], id, f.configs[id].overrides)
  {
    hide GraphsOk, ResultOk, GoalValid;
    forall id | id in f.configs
      ensures ConfigOf(f.configs[id], id, f.configs[id].overrides)
    {
      var sorted := f.configs[id].overrides;
      forall i, j | 0 <= i < j < |sorted|
        ensures sorted[i].key < sorted[j].key
      {
        Ascending(sorted, i, j);
      }
    }
  }
}
