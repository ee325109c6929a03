/** What every stored goal, published graph and recorded result looks like, and what text they may hold. */
module GoalDocuments {
  import opened Basics
  import opened Goals
  import opened GoalFacts
  import opened GraphFacts
  import opened GoalTheorems

  /* Text. */

  predicate Space(c: char) {
    c in {' ', '\t', '\n', '\r'}
  }

  // Trimming takes the blanks at both ends away and nothing else.
  lemma TrimIsTheCore(s: string) returns (i: nat, j: nat)
    ensures i <= j <= |s| && Trim(s) == s[i..j]
    ensures forall k :: 0 <= k < i || j <= k < |s| ==> Space(s[k])
    ensures i < j ==> !Space(s[i]) && !Space(s[j - 1])
  {
    i := FrontBlanks(s);
    var k := BackBlanks(s[i..]);
    j := i + k;
    assert s[i..][..k] == s[i..j];
    assert forall m :: j <= m < |s| ==> s[m] == s[i..][m - i];
    if i < j { assert s[i] == s[i..][0] && s[j - 1] == s[i..][k - 1]; }
  }

  lemma {:induction false} FrontBlanks(s: string) returns (i: nat)
    ensures i <= |s| && TrimStart(s) == s[i..]
    ensures forall k :: 0 <= k < i ==> Space(s[k])
    ensures i < |s| ==> !Space(s[i])
    decreases |s|
  {
    if s != [] && Blank(s[0]) {
      var rest := FrontBlanks(s[1..]);
      i := rest + 1;
      assert s[1..][rest..] == s[i..];
      assert forall k :: 1 <= k < |s| ==> s[k] == s[1..][k - 1];
    } else {
      i := 0;
    }
  }

  lemma {:induction false} BackBlanks(s: string) returns (j: nat)
    ensures j <= |s| && TrimEnd(s) == s[..j]
    ensures forall k :: j <= k < |s| ==> Space(s[k])
    ensures j > 0 ==> !Space(s[j - 1])
    decreases |s|
  {
    if s != [] && Blank(s[|s| - 1]) {
      j := BackBlanks(s[..|s| - 1]);
      assert s[..|s| - 1][..j] == s[..j];
    } else {
      j := |s|;
      assert s[..j] == s;
    }
  }

  // A bounded text has a character that is no blank, is not too long, and holds no NUL.
  ghost predicate Sound(s: string, max: nat) {
    (exists k :: 0 <= k < |s| && !Space(s[k])) && |s| <= max && forall k :: 0 <= k < |s| ==> s[k] != '\0'
  }

  lemma BoundedExactlyWhen(s: string, max: nat)
    ensures BoundedText(s, max) <==> Sound(s, max)
  {
    var i, j := TrimIsTheCore(s);
    hide Trim;
    if i == j {
      assert s[i..j] == "";
    } else {
      assert !Space(s[i]);
    }
  }

  /* Goals in reachable stores. */

  ghost predicate WellFormed(g: Goal) {
    && g.revision > 0 && g.createdAt <= g.updatedAt && Sound(g.objective, 4096)
    && (|g.items| == 0 <==> g.planRevision == 0)
    && (forall i, j :: 0 <= i < j < |g.items| ==> g.items[i].id != g.items[j].id)
    && (forall i, j :: 0 <= i < j < |g.items| ==> !(g.items[i].status == InProgress && g.items[j].status == InProgress))
    && (forall i :: 0 <= i < |g.items| ==> Sound(g.items[i].step, 4096))
    && (g.status == Blocked ==> exists i :: 0 <= i < |g.items| && g.items[i].status == Stuck)
    && (g.status == Completed ==>
          && (forall i :: 0 <= i < |g.items| ==> g.items[i].status == Done)
          && g.run.Some? && g.run.value.status == RunCompleted
          && g.evidence.Some? && g.evidence.value.schema == "star.evidence-bundle" && g.evidence.value.revision > 0)
    && (g.status != Completed ==> g.evidence.None?)
    && (g.status in {Active, WaitingQuestion, Blocked} ==>
          (g.status == WaitingQuestion <==> g.question.Some? && g.question.value.answer.None?))
    && (g.run.Some? ==> 0 < g.run.value.attempt <= 0xFFFF_FFFF && |g.items| > 0)
    && (g.run.Some? && g.status in {Active, Paused, Blocked} ==> g.run.value.status == RunRunning)
    && (g.run.Some? && g.status == Cancelled ==> g.run.value.status == RunCancelled)
  }

  lemma ShapeIsWellFormed(g: Goal)
    requires GoalShape(g) && StoreGoal(g)
    ensures WellFormed(g)
  {
    BoundedExactlyWhen(g.objective, 4096);
    forall i | 0 <= i < |g.items|
      ensures Sound(g.items[i].step, 4096)
    {
      BoundedExactlyWhen(g.items[i].step, 4096);
    }
    hide BoundedText, BoundedToken, Sound;
  }

  // In every run, whatever is called, fails to be written or is restarted, every goal of the store is well
  // formed, in memory and on disk.
  lemma ReachableGoalsAreWellFormed(steps: seq<Step>, id: string)
    ensures var s := Run(Fresh, steps);
      && (id in s.disk.goals ==> s.disk.goals[id].goal.id == id && WellFormed(s.disk.goals[id].goal))
      && (s.mem.Some? && id in s.mem.value.goals ==>
            s.mem.value.goals[id].goal.id == id && WellFormed(s.mem.value.goals[id].goal))
  {
    var s := Run(Fresh, steps);
    FreshIsKept();
    RunKeeps(Fresh, steps);
    hide GoalPart, CurrentInHistory, CompletedAreJustified, Grows, GoalShape, StoreGoal, WellFormed;
    if id in s.disk.goals {
      StoredGoal(s.disk, id);
      ShapeIsWellFormed(s.disk.goals[id].goal);
    }
    if s.mem.Some? && id in s.mem.value.goals {
      StoredGoal(s.mem.value, id);
      ShapeIsWellFormed(s.mem.value.goals[id].goal);
    }
  }

  /* Graphs and results the store takes. */

  ghost predicate StageOf(b: GraphBody, id: string) {
    exists i :: 0 <= i < |b.stages| && b.stages[i].body.id == id
  }

  ghost predicate WellFormedGraph(b: GraphBody) {
    && b.planRevision > 0 && |b.stages| > 0
    && (b.planRevision == 1 <==> b.previous.None?) && (b.planRevision == 1 <==> b.replanReason.None?)
    && (forall i, j :: 0 <= i < j < |b.stages| ==> b.stages[i].body.id != b.stages[j].body.id)
    && (forall i :: 0 <= i < |b.stages| ==> WellFormedStage(b.stages[i], b.goalId))
    && (b.integration.Some? ==> StageOf(b, b.integration.value))
    && (forall k :: 0 <= k < |b.criticalPath| ==> StageOf(b, b.criticalPath[k]))
  }

  // A stage belongs to the goal, does not wait for itself, and names a result exactly if it has ended; a
  // Codex stage leaves the draft only with its plans bound.
  ghost predicate WellFormedStage(s: Stage, goalId: string) {
    && s.fingerprint == OfStage(s.body) && s.body.revision > 0 && s.body.goalId == goalId
    && (forall k :: 0 <= k < |s.body.dependencies| ==> s.body.dependencies[k] != s.body.id)
    && (s.body.resultRef.Some? <==> s.body.state in {StageBlocked, StageFailed, StageCancelled, StageCompleted})
    && (s.body.resultRef.Some? ==>
          s.body.resultRef.value.schema == "star.stage-result" && s.body.resultRef.value.revision > 0)
    && (s.body.codex && s.body.state != Draft ==> s.body.plansBound)
  }

  ghost predicate WellFormedResult(b: ResultBody) {
    && b.revision > 0 && b.graphRef.schema == "star.stage-graph" && b.stageRef.schema == "star.stage-spec"
    && (forall i :: 0 <= i < |b.evidence| ==> b.evidence[i].bundle.schema == "star.evidence-bundle")
    && (b.outcome == OutcomeCompleted ==>
      |b.criteria| > 0 && |b.evidence| > 0 && b.failureCode.None? && b.recovery.None?)
    && (b.outcome != OutcomeCompleted ==> b.failureCode.Some?)
    && (b.outcome == OutcomeUnknown ==> b.effectMayHaveStarted && b.recovery.Some?)
  }

  // What the store takes is well formed, and so is the graph it makes of a result.
  lemma TakenDocumentsAreWellFormed(f: GoalFile, g: Graph, expectedPrevious: Option<nat>, r: StageResult,
      expectedGraph: nat, expectedStage: nat)
    ensures PublishGraph(f, g, expectedPrevious).commit ==> g.fingerprint == OfGraph(g.body) && WellFormedGraph(g.body)
    ensures var reply := RecordResult(f, r, expectedGraph, expectedStage);
      reply.commit ==>
        && r.fingerprint == OfResult(r.body) && WellFormedResult(r.body)
        && reply.answer.OkResult? && WellFormedGraph(reply.answer.after.body)
  {
    if PublishGraph(f, g, expectedPrevious).commit {
      assert GraphVerified(g) by { hide GraphShape; }
      GraphIsWellFormed(g.body);
    }
    var reply := RecordResult(f, r, expectedGraph, expectedStage);
    if reply.commit {
      assert ResultVerified(r) && reply.answer.OkResult? && GraphShape(reply.answer.after.body) by {
        hide ResultShape, GraphShape, VerifiedAgainst, DependenciesCompleted, CarriesResult, NextGraph;
      }
      GraphIsWellFormed(reply.answer.after.body);
    }
    hide PublishGraph, RecordResult, GraphShape, WellFormedGraph;
  }

  lemma GraphIsWellFormed(b: GraphBody)
    requires GraphShape(b)
    ensures WellFormedGraph(b)
  {
    forall i | 0 <= i < |b.stages|
      ensures WellFormedStage(b.stages[i], b.goalId)
    {
      assert StageVerified(b.stages[i]);
    }
    forall k | 0 <= k < |b.criticalPath|
      ensures StageOf(b, b.criticalPath[k])
    {
      assert HasStage(b.stages, b.criticalPath[k]);
    }
  }
}
