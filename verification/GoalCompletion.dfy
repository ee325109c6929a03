/** When a goal may be completed, told by the stages of its graph and the results they carry. */
module GoalCompletion {
  import opened Basics
  import opened Goals
  import opened GoalFacts

  // The stage that completes the goal: the integration stage, else the last of the critical path, else any.
  predicate Completing(b: GraphBody, id: string) {
    if b.integration.Some? then id == b.integration.value
    else if |b.criticalPath| > 0 then id == b.criticalPath[|b.criticalPath| - 1]
    else true
  }

  // The stage names a stored result by its exact reference, that result was completed, and it brought
  // this evidence.
  ghost predicate CarriesProof(results: map<string, StageResult>, s: Stage, evidence: DocRef) {
    && s.body.resultRef.Some?
    && var key := s.body.resultRef.value.documentId;
       && key in results
       && var r := results[key];
          && s.body.resultRef.value == DocRef("star.stage-result", r.body.id, r.body.revision, r.fingerprint)
          && r.body.outcome == OutcomeCompleted
          && exists k :: 0 <= k < |r.body.evidence| && r.body.evidence[k].bundle == evidence
  }

  // The `i`-th stage, the first with its id, is a completing one and carries the proof.
  ghost predicate ProvenAt(results: map<string, StageResult>, b: GraphBody, evidence: DocRef, i: int) {
    && 0 <= i < |b.stages|
    && (forall j :: 0 <= j < i ==> b.stages[j].body.id != b.stages[i].body.id)
    && Completing(b, b.stages[i].body.id)
    && CarriesProof(results, b.stages[i], evidence)
  }

  lemma ProofIsProof(results: map<string, StageResult>, s: Stage, evidence: DocRef)
    ensures StageProves(results, s, evidence) <==> CarriesProof(results, s, evidence)
  {}

  lemma FirstIsIndex(stages: seq<Stage>, i: int)
    requires 0 <= i < |stages| && forall j :: 0 <= j < i ==> stages[j].body.id != stages[i].body.id
    ensures StageIndex(stages, stages[i].body.id) == Some(i)
  {
    var found := StageIndex(stages, stages[i].body.id);
    assert HasStage(stages, stages[i].body.id);
  }

  lemma CompletionStagesAreTheCompletingOnes(b: GraphBody, id: string)
    requires HasStage(b.stages, id)
    ensures Completing(b, id) <==> exists k :: 0 <= k < |CompletionStages(b)| && CompletionStages(b)[k] == id
  {
    if b.integration.Some? {
      assert CompletionStages(b)[0] == b.integration.value;
    } else if b.criticalPath != [] {
      assert CompletionStages(b)[0] == b.criticalPath[|b.criticalPath| - 1];
    } else {
      var i :| 0 <= i < |b.stages| && b.stages[i].body.id == id;
      assert CompletionStages(b) == StageIds(b.stages) && StageIds(b.stages)[i] == id;
    }
  }

  // Evidence is bound exactly if a completing stage carries the proof.
  lemma BoundExactlyWhenProven(results: map<string, StageResult>, b: GraphBody, evidence: DocRef)
    ensures EvidenceBound(results, b, evidence) <==> exists i :: ProvenAt(results, b, evidence, i)
  {
    hide StageProves, CarriesProof, CompletionStages, Completing;
    if EvidenceBound(results, b, evidence) {
      var k :| 0 <= k < |CompletionStages(b)|
        && StageIndex(b.stages, CompletionStages(b)[k]).Some?
        && StageProves(results, b.stages[StageIndex(b.stages, CompletionStages(b)[k]).value], evidence);
      var i := StageIndex(b.stages, CompletionStages(b)[k]).value;
      CompletionStagesAreTheCompletingOnes(b, b.stages[i].body.id);
      ProofIsProof(results, b.stages[i], evidence);
      assert ProvenAt(results, b, evidence, i);
    }
    if i :| ProvenAt(results, b, evidence, i) {
      var id := b.stages[i].body.id;
      FirstIsIndex(b.stages, i);
      assert HasStage(b.stages, id);
      CompletionStagesAreTheCompletingOnes(b, id);
      ProofIsProof(results, b.stages[i], evidence);
    }
  }

  /* The completion of a goal. */

  // The current graph is the goal's own, all its stages are completed, and the evidence is proven.
  ghost predicate GraphAllows(f: GoalFile, id: string, graphId: string, evidence: DocRef) {
    && graphId in f.graphs
    && var b := f.graphs[graphId].body;
       && b.goalId == id && |b.stages| > 0
       && (forall i :: 0 <= i < |b.stages| ==> b.stages[i].body.state == StageCompleted)
       && exists i :: ProvenAt(f.results, b, evidence, i)
  }

  // The goal is at the expected revision, its plan is not empty and done, and its run is under way.
  ghost predicate GoalAllows(f: GoalFile, id: string, expected: nat) {
    && id in f.goals
    && var g := f.goals[id].goal;
       && g.revision == expected && |g.items| > 0
       && (forall i :: 0 <= i < |g.items| ==> g.items[i].status == Done)
       && g.run.Some? && g.run.value.status == RunRunning
  }

  predicate EvidenceRef(r: DocRef) {
    r.schema == "star.evidence-bundle" && r.documentId != "" && r.revision > 0
  }

  function CompletedGoal(g: Goal, evidence: DocRef, now: int): Goal
    requires g.run.Some?
  {
    Goal(g.id, if g.revision < 0xFFFF_FFFF_FFFF_FFFF then g.revision + 1 else 0xFFFF_FFFF_FFFF_FFFF, g.objective,
      g.projectKey, Completed, g.planRevision, g.items, g.question,
      Some(GoalRun(g.run.value.runId, g.run.value.attempt, RunCompleted, g.run.value.continuedAt)),
      Some(evidence), g.createdAt, now)
  }

  lemma CompletedGoalSeals(g: Goal, evidence: DocRef, now: int)
    requires GoalShape(g) && StoreGoal(g) && g.run.Some? && g.run.value.status == RunRunning && AllDone(g.items)
    ensures Resealed(CompleteEdit(g, evidence).goal, now) == CompletedGoal(g, evidence, now)
    ensures GoalShape(CompletedGoal(g, evidence, now)) <==> g.createdAt <= now && EvidenceRef(evidence)
  {
    hide BoundedText, BoundedToken, DistinctItems, AtMostOneInProgress;
  }

  lemma GraphAllowsExactly(f: GoalFile, id: string, graphId: string, evidence: DocRef)
    ensures GraphAllows(f, id, graphId, evidence) <==>
      && graphId in f.graphs && f.graphs[graphId].body.goalId == id && f.graphs[graphId].body.stages != []
      && AllCompleted(f.graphs[graphId].body.stages) && EvidenceBound(f.results, f.graphs[graphId].body, evidence)
  {
    hide ProvenAt, EvidenceBound;
    if graphId in f.graphs { BoundExactlyWhenProven(f.results, f.graphs[graphId].body, evidence); }
  }

  // A goal is completed exactly if its graph and the goal itself allow it, the reference is one of an
  // evidence bundle and the clock has not gone behind the goal's creation; then this goal, and no other
  // part of the file, is replaced by the completed one.
  lemma CompletedExactlyWhen(f: GoalFile, id: string, expected: nat, graphId: string, evidence: DocRef, now: int)
    requires GoalPart(f)
    ensures var reply := CompleteGoal(f, id, expected, graphId, evidence, now);
      && (reply.commit <==>
            && GraphAllows(f, id, graphId, evidence) && GoalAllows(f, id, expected)
            && EvidenceRef(evidence) && f.goals[id].goal.createdAt <= now)
      && (!reply.commit ==> reply.file == f && reply.answer.Fail?)
      && (reply.commit ==>
            var goal := CompletedGoal(f.goals[id].goal, evidence, now);
            && reply.file == f.(goals := f.goals[id := GoalRecord(goal, Whole(goal))])
            && reply.answer == OkGoal(GoalRecord(goal, Whole(goal))))
  {
    GraphAllowsExactly(f, id, graphId, evidence);
    if id in f.goals { StoredGoal(f, id); }
    hide GoalPart, GraphAllows, AllCompleted, EvidenceBound, GoalShape, StoreGoal, CompleteEdit, Resealed,
      CompletedGoal, EvidenceRef;
    if GoalAllows(f, id, expected) { CompletedGoalSeals(f.goals[id].goal, evidence, now); }
    assert id in f.goals && f.goals[id].goal.run.Some? ==> CompleteEdit(f.goals[id].goal, evidence).Edited? by {
      if id in f.goals && f.goals[id].goal.run.Some? { CompleteIsEdit(f.goals[id].goal, evidence); }
    }
  }

  lemma CompleteIsEdit(g: Goal, evidence: DocRef)
    requires g.run.Some?
    ensures CompleteEdit(g, evidence).Edited?
  {}
}
