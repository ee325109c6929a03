/**
 The goal store in its own form: an object that edits its file in place and writes it out as a whole.
 Every method is tied to the value-level call of module `Goals` that it carries out.
 */
module GoalStores {
  import opened Basics
  import opened Goals

  // What a call leaves in memory, on disk, and with its caller, given what the value-level call says.
  predicate Carried(reply: Reply, ioOk: bool, oldDisk: GoalFile, file: GoalFile, disk: GoalFile, answer: Answer) {
    && file == reply.file
    && disk == (if reply.commit && ioOk then reply.file else oldDisk)
    && answer == (if reply.commit && !ioOk then Fail(IoError) else reply.answer)
  }

  lemma {:induction false} SmallestKey(keys: set<nat>) returns (m: nat)
    requires keys != {}
    ensures m in keys && forall k :: k in keys ==> m <= k
    decreases |keys|
  {
    var k :| k in keys;
    if keys == {k} {
      m := k;
    } else {
      var rest := SmallestKey(keys - {k});
      m := if k < rest then k else rest;
      assert forall other :: other in keys && other != k ==> other in keys - {k};
    }
  }

  method FirstKey(keys: set<nat>) returns (m: nat)
    requires keys != {}
    ensures m in keys && forall k :: k in keys ==> m <= k
  {
    ghost var w := SmallestKey(keys);
    m :| m in keys && forall k :: k in keys ==> m <= k;
  }

  // The walk has seen the revisions of `h` not in `remaining`, up to `at`, and found nothing wrong.
  ghost predicate Walked(f: GoalFile, id: string, h: map<nat, Graph>, remaining: set<nat>, at: nat) {
    && at in h && at !in remaining
    && (forall k, r :: k in h && k !in remaining && r in remaining ==> k < r)
    && (forall k :: k in h && k !in remaining ==> k <= at && EntryOk(f, id, k, h[k]))
    && (forall p, r :: Adjacent(h, p, r) && r !in remaining ==> LinkedTo(h[r], h[p]))
  }

  lemma WalkOn(f: GoalFile, id: string, h: map<nat, Graph>, remaining: set<nat>, at: nat, r: nat)
    requires Walked(f, id, h, remaining, at) && remaining <= h.Keys
    requires r in remaining && forall k :: k in remaining ==> r <= k
    ensures Adjacent(h, at, r)
    ensures EntryOk(f, id, r, h[r]) && LinkedTo(h[r], h[at]) ==> Walked(f, id, h, remaining - {r}, r)
  {
    hide EntryOk, LinkedTo;
    if EntryOk(f, id, r, h[r]) && LinkedTo(h[r], h[at]) {
      forall p: nat, q: nat | Adjacent(h, p, q) && q !in remaining - {r}
        ensures LinkedTo(h[q], h[p])
      {
        if q == r {
          assert p !in remaining;
          assert p == at;
        }
      }
    }
  }

  lemma WalkBegins(f: GoalFile, id: string, h: map<nat, Graph>, r: nat)
    requires r in h && (forall k :: k in h ==> r <= k) && EntryOk(f, id, r, h[r])
    ensures Walked(f, id, h, h.Keys - {r}, r)
  {
    hide EntryOk, LinkedTo;
  }

  lemma WalkEnds(f: GoalFile, id: string, at: nat)
    requires id in f.graphs && id in f.history && Walked(f, id, f.history[id], {}, at)
    ensures HistoryOk(f, id) <==> f.history[id][at] == f.graphs[id]
  {
    hide EntryOk, LinkedTo;
    assert IsLast(f.history[id], at);
  }

  // One history: walks the revisions upwards, remembering the previous graph.
  method CheckHistory(f: GoalFile, id: string) returns (ok: bool)
    requires id in f.history
    ensures ok <==> HistoryOk(f, id)
  {
    var h := f.history[id];
    if id !in f.graphs || h == map[] { return false; }
    assert h.Keys != {};
    var first := FirstKey(h.Keys);
    if !EntryOk(f, id, first, h[first]) { return false; }
    WalkBegins(f, id, h, first);
    var remaining := h.Keys - {first};
    var previous := h[first];
    ghost var at := first;
    while remaining != {}
      invariant remaining <= h.Keys && Walked(f, id, h, remaining, at) && previous == h[at]
      decreases |remaining|
    {
      hide EntryOk, LinkedTo, Walked;
      var r := FirstKey(remaining);
      WalkOn(f, id, h, remaining, at, r);
      if !EntryOk(f, id, r, h[r]) || !LinkedTo(h[r], previous) { return false; }
      remaining := remaining - {r};
      previous := h[r];
      at := r;
    }
    WalkEnds(f, id, at);
    ok := previous == f.graphs[id];
  }

  method CheckResult(f: GoalFile, key: string) returns (ok: bool)
    requires key in f.results
    ensures ok <==> ResultOk(f, key)
  {
    var r := f.results[key];
    var graphId, revision := r.body.graphRef.documentId, r.body.graphRef.revision;
    hide ResultVerified, VerifiedAgainst, CarriesResult;
    if key != r.body.id || !ResultVerified(r) || graphId !in f.history
      || revision !in f.history[graphId] { return false; }
    var graph := f.history[graphId][revision];
    var index := StageIndex(graph.body.stages, r.body.stageRef.documentId);
    if index.None? { return false; }
    assert ResultAgrees(graph, index.value, r) <==> VerifiedAgainst(r, graph, graph.body.stages[index.value]);
    var history := f.history[graphId];
    ok := VerifiedAgainst(r, graph, graph.body.stages[index.value])
      && exists k :: k in history && CarriesResult(history[k], r);
  }

  // `history` on the way: the graphs in `remaining` are still to be looked at.
  ghost predicate Filling(f: GoalFile, history: map<string, map<nat, Graph>>, remaining: set<string>) {
    && remaining <= f.graphs.Keys
    && history.Keys == f.history.Keys + (f.graphs.Keys - remaining)
    && (forall id :: id in history ==> history[id] == if id in remaining then f.history[id] else FilledHistory(f, id))
  }

  method FillHistory(f: GoalFile, history: map<string, map<nat, Graph>>, remaining: set<string>, id: string)
    returns (filled: map<string, map<nat, Graph>>)
    requires Filling(f, history, remaining) && id in remaining
    ensures Filling(f, filled, remaining - {id})
  {
    var entries := if id in history then history[id] else map[];
    var revision := f.graphs[id].body.planRevision;
    if revision !in entries { entries := entries[revision := f.graphs[id]]; }
    assert entries == FilledHistory(f, id);
    hide FilledHistory;
    filled := history[id := entries];
  }

  lemma FilledIsMigrated(f: GoalFile, history: map<string, map<nat, Graph>>)
    requires Filling(f, history, {})
    ensures f.(history := history) == Migrate(f)
  {
    hide FilledHistory;
    assert history == Migrate(f).history;
  }

  lemma FillingBegins(f: GoalFile)
    ensures Filling(f, f.history, f.graphs.Keys)
  {}

  // Files from before histories existed: the current graph becomes the first known revision.
  method AddMissingHistory(f: GoalFile) returns (migrated: GoalFile)
    ensures migrated == Migrate(f)
  {
    hide Filling, FilledHistory, Migrate;
    FillingBegins(f);
    var history := f.history;
    var remaining := f.graphs.Keys;
    while remaining != {}
      invariant Filling(f, history, remaining)
      decreases |remaining|
    {
      var id :| id in remaining;
      history := FillHistory(f, history, remaining, id);
      remaining := remaining - {id};
    }
    FilledIsMigrated(f, history);
    migrated := f.(history := history);
  }

  method CheckHistories(f: GoalFile) returns (ok: bool)
    ensures ok <==> forall id :: id in f.history ==> HistoryOk(f, id)
  {
    hide HistoryOk;
    var histories := f.history.Keys;
    while histories != {}
      invariant histories <= f.history.Keys
      invariant forall id :: id in f.history && id !in histories ==> HistoryOk(f, id)
      decreases |histories|
    {
      var id :| id in histories;
      var good := CheckHistory(f, id);
      if !good { return false; }
      histories := histories - {id};
    }
    ok := true;
  }

  method CheckResults(f: GoalFile) returns (ok: bool)
    ensures ok <==> forall key :: key in f.results ==> ResultOk(f, key)
  {
    hide ResultOk;
    var results := f.results.Keys;
    while results != {}
      invariant results <= f.results.Keys
      invariant forall key :: key in f.results && key !in results ==> ResultOk(f, key)
      decreases |results|
    {
      var key :| key in results;
      var good := CheckResult(f, key);
      if !good { return false; }
      results := results - {key};
    }
    ok := true;
  }

  method CheckFile(f: GoalFile) returns (ok: bool)
    ensures ok <==> Loadable(f)
  {
    hide GoalsOk, CurrentOk, HistoryOk, ResultOk;
    if !GoalsOk(f) || f.history.Keys != f.graphs.Keys { return false; }
    if !(forall id :: id in f.graphs ==> CurrentOk(f, id)) { return false; }
    ok := CheckHistories(f);
    if ok { ok := CheckResults(f); }
  }

  // Trims and checks the items one by one, with a set of seen ids and a count of items in progress.
  method CheckItems(items: seq<PlanItem>) returns (checked: Option<seq<PlanItem>>)
    ensures checked == if ItemsAcceptable(TrimItems(items)) then Some(TrimItems(items)) else None
  {
    hide Trim;
    if items == [] || |items| > 256 { return None; }
    var trimmed: seq<PlanItem> := [];
    var ids: set<string> := {};
    var inProgress := 0;
    ghost var all := TrimItems(items);
    while |trimmed| < |items|
      invariant |trimmed| <= |items| && trimmed == all[..|trimmed|]
      invariant forall s :: s in ids <==> exists i :: 0 <= i < |trimmed| && all[i].id == s
      invariant forall i :: 0 <= i < |trimmed| ==> all[i].id != "" && all[i].step != "" && |all[i].step| <= 4096
      invariant forall i, j :: 0 <= i < j < |trimmed| ==> all[i].id != all[j].id
      invariant inProgress == CountInProgress(trimmed)
      decreases |items| - |trimmed|
    {
      var n := |trimmed|;
      var item := PlanItem(Trim(items[n].id), Trim(items[n].step), items[n].status);
      assert item == all[n];
      if item.id == "" || item.step == "" || |item.step| > 4096 || item.id in ids { return None; }
      ids := ids + {item.id};
      if item.status.InProgress? { inProgress := inProgress + 1; }
      assert (trimmed + [item])[..n] == trimmed;
      trimmed := trimmed + [item];
    }
    assert trimmed == all;
    CountedInProgress(all);
    checked := if inProgress > 1 then None else Some(trimmed);
  }

  class GoalStore {
    var file: GoalFile
    var disk: GoalFile

    constructor (file: GoalFile, disk: GoalFile)
      ensures this.file == file && this.disk == disk
    {
      this.file, this.disk := file, disk;
    }

    // A store opens exactly on the files that are loadable once migrated; a missing file is an empty one.
    static method Load(stored: Option<GoalFile>) returns (store: GoalStore?)
      ensures var content := if stored.Some? then stored.value else EmptyGoals;
        && (store != null <==> Loadable(Migrate(content)))
        && (store != null ==> fresh(store) && store.file == Migrate(content) && store.disk == content)
    {
      var content := if stored.Some? then stored.value else EmptyGoals;
      var migrated := AddMissingHistory(content);
      var ok := CheckFile(migrated);
      if ok { store := new GoalStore(migrated, content); } else { store := null; }
    }

    method Commit(ioOk: bool) returns (ok: bool)
      modifies this`disk
      ensures ok == ioOk && disk == if ioOk then file else old(disk)
    {
      if ioOk { disk := file; }
      ok := ioOk;
    }

    method Mutate(id: string, expected: nat, change: Goal -> Edit, now: int, ioOk: bool) returns (answer: Answer)
      requires id in file.goals
      modifies this
      ensures Carried(MutateFile(old(file), id, expected, change(old(file).goals[id].goal), now), ioOk, old(disk),
        file, disk, answer)
    {
      hide GoalShape;
      var goal := file.goals[id].goal;
      if goal.revision != expected { return Fail(RevisionConflict); }
      var edit := change(goal);
      if edit.Refused? { return Fail(edit.error); }
      goal := edit.goal;
      goal := goal.(revision := SaturatingSucc(goal.revision, U64_MAX), updatedAt := now);
      var sealed := Seal(goal);
      if sealed.None? { return Fail(Invalid); }
      file := WithGoal(file, id, sealed.value);
      var ok := Commit(ioOk);
      answer := if ok then OkGoal(sealed.value) else Fail(IoError);
    }

    method Answer(id: string, expected: nat, questionId: string, text: string, now: int,
        ioOk: bool) returns (answer: Answer)
      modifies this
      ensures Carried(CallGoal(old(file), id, expected, Answering(questionId, text), now), ioOk, old(disk), file,
        disk, answer)
    {
      hide MutateFile, AnswerEdit;
      if Trim(text) == "" || |text| > 16384 { return Fail(Invalid); }
      if id !in file.goals { return Fail(NotFound); }
      answer := Mutate(id, expected, g => AnswerEdit(g, questionId, text), now, ioOk);
    }

    method UpdatePlan(id: string, expected: nat, items: seq<PlanItem>, now: int, ioOk: bool) returns (answer: Answer)
      modifies this
      ensures Carried(CallGoal(old(file), id, expected, Planning(items), now), ioOk, old(disk), file, disk, answer)
    {
      hide MutateFile, PlanEdit, TrimItems, ItemsAcceptable;
      var trimmed := CheckItems(items);
      if trimmed.None? { return Fail(Invalid); }
      if id !in file.goals { return Fail(NotFound); }
      answer := Mutate(id, expected, g => PlanEdit(g, trimmed.value), now, ioOk);
    }

    method ContinueRun(id: string, expected: nat, freshRun: string, now: int, ioOk: bool) returns (answer: Answer)
      modifies this
      ensures Carried(CallGoal(old(file), id, expected, Continuing(freshRun), now), ioOk, old(disk), file, disk, answer)
    {
      hide MutateFile, ContinueEdit;
      if id !in file.goals { return Fail(NotFound); }
      answer := Mutate(id, expected, g => ContinueEdit(g, freshRun, now), now, ioOk);
    }

    method Pause(id: string, expected: nat, now: int, ioOk: bool) returns (answer: Answer)
      modifies this
      ensures Carried(CallGoal(old(file), id, expected, Pausing, now), ioOk, old(disk), file, disk, answer)
    {
      hide MutateFile, PauseEdit;
      if id !in file.goals { return Fail(NotFound); }
      if file.goals[id].goal.status.Paused? { return OkGoal(file.goals[id]); }
      answer := Mutate(id, expected, g => PauseEdit(g), now, ioOk);
    }

    method Resume(id: string, expected: nat, now: int, ioOk: bool) returns (answer: Answer)
      modifies this
      ensures Carried(CallGoal(old(file), id, expected, Resuming, now), ioOk, old(disk), file, disk, answer)
    {
      hide MutateFile, ResumeEdit;
      if id !in file.goals { return Fail(NotFound); }
      var current := file.goals[id];
      if !current.goal.status.Paused? {
        if current.goal.status.Active? || current.goal.status.WaitingQuestion? { return OkGoal(current); }
        return Fail(Lifecycle);
      }
      answer := Mutate(id, expected, g => ResumeEdit(g), now, ioOk);
    }

    method Cancel(id: string, expected: nat, now: int, ioOk: bool) returns (answer: Answer)
      modifies this
      ensures Carried(CallGoal(old(file), id, expected, Cancelling, now), ioOk, old(disk), file, disk, answer)
    {
      hide MutateFile, CancelEdit;
      if id !in file.goals { return Fail(NotFound); }
      if file.goals[id].goal.status.Cancelled? { return OkGoal(file.goals[id]); }
      answer := Mutate(id, expected, g => CancelEdit(g), now, ioOk);
    }

    method StartGoal(request: StartRequest, freshId: string, now: int, ioOk: bool) returns (answer: Answer)
      modifies this
      ensures Carried(Start(old(file), request, freshId, now), ioOk, old(disk), file, disk, answer)
    {
      hide GoalShape, SealConfig, Trim;
      var input := InputOf(request);
      if input.objective == "" || |input.objective| > 4096 || Trim(request.key) == "" || |request.key| > 256 {
        return Fail(Invalid);
      }
      if request.key in file.idempotency {
        var replay := file.idempotency[request.key];
        if replay.input != input { return Fail(IdempotencyConflict); }
        if replay.goalId !in file.goals { return Fail(CorruptState); }
        return OkGoal(file.goals[replay.goalId]);
      }
      var sealed := Seal(NewGoal(freshId, input, now));
      if sealed.None? { return Fail(Invalid); }
      file := WithGoal(file, freshId, sealed.value);
      if request.overrides != [] {
        var config := SealConfig(freshId, request.overrides);
        if config.None? { return Fail(Invalid); }
        file := WithConfig(file, freshId, config.value);
      }
      file := WithReplay(file, request.key, Replay(freshId, input));
      var ok := Commit(ioOk);
      answer := if ok then OkGoal(sealed.value) else Fail(IoError);
    }

    method PublishStageGraph(graph: Graph, expectedPrevious: Option<nat>, ioOk: bool) returns (answer: Answer)
      modifies this
      ensures Carried(PublishGraph(old(file), graph, expectedPrevious), ioOk, old(disk), file, disk, answer)
    {
      hide GraphVerified;
      var id := graph.body.id;
      if !GraphVerified(graph) { return Fail(Invalid); }
      if graph.body.goalId !in file.goals { return Fail(NotFound); }
      if id in file.graphs {
        var current := file.graphs[id];
        if current == graph { return OkGraph(current); }
        if expectedPrevious != Some(current.body.planRevision) { return Fail(RevisionConflict); }
        if graph.body.planRevision != SaturatingSucc(current.body.planRevision, U64_MAX)
           || graph.body.previous != Some(current.fingerprint) {
          return Fail(RevisionConflict);
        }
      } else if expectedPrevious.Some? {
        return Fail(NotFound);
      }
      var history := HistoryOf(file, id);
      if graph.body.planRevision in history
        && history[graph.body.planRevision] != graph { return Fail(RevisionConflict); }
      history := history[graph.body.planRevision := graph];
      file := file.(history := file.history[id := history]);
      file := file.(graphs := file.graphs[id := graph]);
      var ok := Commit(ioOk);
      answer := if ok then OkGraph(graph) else Fail(IoError);
    }

    method RecordStageResult(result: StageResult, expectedGraph: nat, expectedStage: nat,
        ioOk: bool) returns (answer: Answer)
      modifies this
      ensures Carried(RecordResult(old(file), result, expectedGraph, expectedStage), ioOk, old(disk), file,
        disk, answer)
    {
      hide ResultVerified, VerifiedAgainst, GraphShape, DependenciesCompleted, CarriesResult;
      if !ResultVerified(result) || result.body.graphRef.schema != GRAPH_SCHEMA { return Fail(Invalid); }
      var id := result.body.graphRef.documentId;
      if result.body.id in file.results {
        if file.results[result.body.id] != result { return Fail(RevisionConflict); }
        if id !in file.graphs { return Fail(NotFound); }
        if CarriesResult(file.graphs[id], result) { return OkResult(result, file.graphs[id]); }
        return Fail(CorruptState);
      }
      if id !in file.graphs { return Fail(NotFound); }
      var current := file.graphs[id];
      if current.body.planRevision != expectedGraph || result.body.graphRef.revision != current.body.planRevision
         || result.body.graphRef.sha != current.fingerprint {
        return Fail(RevisionConflict);
      }
      var index := StageIndex(current.body.stages, result.body.stageRef.documentId);
      if index.None? { return Fail(NotFound); }
      var stage := current.body.stages[index.value];
      if stage.body.revision != expectedStage { return Fail(RevisionConflict); }
      if !VerifiedAgainst(result, current, stage) { return Fail(Invalid); }
      if result.body.outcome.OutcomeCompleted?
         && (!(stage.body.state.Ready? || stage.body.state.StageRunning?)
           || !DependenciesCompleted(current.body.stages, stage)) {
        return Fail(Lifecycle);
      }
      if current.body.planRevision >= U64_MAX || stage.body.revision >= U64_MAX { return Fail(RevisionConflict); }
      var next := NextGraph(current, index.value, result);
      if !GraphShape(next.body) { return Fail(Invalid); }
      if id !in file.history { return Fail(CorruptState); }
      var history := file.history[id];
      if next.body.planRevision in history { return Fail(RevisionConflict); }
      history := history[next.body.planRevision := next];
      file := file.(history := file.history[id := history]);
      file := file.(results := file.results[result.body.id := result]);
      file := file.(graphs := file.graphs[id := next]);
      var ok := Commit(ioOk);
      answer := if ok then OkResult(result, next) else Fail(IoError);
    }

    method Complete(id: string, expected: nat, graphId: string, evidence: DocRef, now: int,
        ioOk: bool) returns (answer: Answer)
      modifies this
      ensures Carried(CompleteGoal(old(file), id, expected, graphId, evidence, now), ioOk, old(disk), file,
        disk, answer)
    {
      hide MutateFile, CompleteEdit, AllCompleted, AllDone, StageProves;
      if graphId !in file.graphs { return Fail(NotFound); }
      var b := file.graphs[graphId].body;
      if b.goalId != id || b.stages == [] || !AllCompleted(b.stages) { return Fail(Lifecycle); }
      var candidates := CompletionStages(b);
      var bound, i := false, 0;
      while i < |candidates|
        invariant 0 <= i <= |candidates| && file == old(file) && disk == old(disk)
        invariant bound <==> exists k :: 0 <= k < i && Proves(file.results, b, candidates[k], evidence)
      {
        if Proves(file.results, b, candidates[i], evidence) { bound := true; }
        i := i + 1;
      }
      BoundByCandidate(file.results, b, evidence);
      if !bound { return Fail(Invalid); }
      if id !in file.goals { return Fail(NotFound); }
      var current := file.goals[id].goal;
      if current.revision != expected || current.items == [] || !AllDone(current.items)
         || current.run.None? || !current.run.value.status.RunRunning? {
        return Fail(Lifecycle);
      }
      answer := Mutate(id, expected, g => CompleteEdit(g, evidence), now, ioOk);
    }
  }

  predicate Proves(results: map<string, StageResult>, b: GraphBody, stageId: string, evidence: DocRef) {
    StageIndex(b.stages, stageId).Some? && StageProves(results, b.stages[StageIndex(b.stages, stageId).value], evidence)
  }

  lemma BoundByCandidate(results: map<string, StageResult>, b: GraphBody, evidence: DocRef)
    ensures EvidenceBound(results, b, evidence) <==>
      exists k :: 0 <= k < |CompletionStages(b)| && Proves(results, b, CompletionStages(b)[k], evidence)
  {
    hide StageProves, CompletionStages;
  }

  function CountInProgress(items: seq<PlanItem>): nat {
    if items == [] then 0
    else CountInProgress(items[..|items| - 1]) + if items[|items| - 1].status.InProgress? then 1 else 0
  }

  lemma {:induction false} SomeInProgress(items: seq<PlanItem>)
    ensures CountInProgress(items) == 0 <==> forall i :: 0 <= i < |items| ==> !items[i].status.InProgress?
    decreases |items|
  {
    if items != [] { SomeInProgress(items[..|items| - 1]); }
  }

  lemma {:induction false} CountedInProgress(items: seq<PlanItem>)
    ensures CountInProgress(items) <= 1 <==> AtMostOneInProgress(items)
    decreases |items|
  {
    if items != [] {
      var front := items[..|items| - 1];
      CountedInProgress(front);
      SomeInProgress(front);
      if CountInProgress(items) > 1 && CountInProgress(front) <= 1 {
        assert items[|items| - 1].status.InProgress?;
        var i :| 0 <= i < |front| && front[i].status.InProgress?;
        assert items[i].status.InProgress?;
      } else if CountInProgress(front) > 1 {
        var i, j :| 0 <= i < j < |front| && front[i].status.InProgress? && front[j].status.InProgress?;
        assert items[i].status.InProgress? && items[j].status.InProgress?;
      } else {
        forall i, j | 0 <= i < j < |items|
          ensures !(items[i].status.InProgress? && items[j].status.InProgress?)
        {
          assert i < |front| && items[i] == front[i];
          if j < |front| { assert items[j] == front[j]; }
        }
      }
    }
  }
}
