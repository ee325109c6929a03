/** What the calls of the goal store do to goals: what each keeps, and how a goal may change. */
module GoalFacts {
  import opened Basics
  import opened Goals

  /* One goal. */

  ghost predicate Ended(g: Goal) {
    g.status.Completed? || g.status.Cancelled?
  }

  // `b` is a later version of `a`.
  ghost predicate GoalEvolves(a: Goal, b: Goal) {
    && b.revision >= a.revision
    && b.id == a.id && b.objective == a.objective && b.projectKey == a.projectKey && b.createdAt == a.createdAt
    && (a.question.Some? <==> b.question.Some?)
    && (Unanswered(b) ==> Unanswered(a))
    && (Ended(a) ==> b == a)
    && (a.run.Some? ==>
          && b.run.Some? && b.run.value.runId == a.run.value.runId && b.run.value.attempt >= a.run.value.attempt
          && b.items == a.items && b.planRevision == a.planRevision)
  }

  lemma GoalEvolvesTransitive(a: Goal, b: Goal, c: Goal)
    requires GoalEvolves(a, b) && GoalEvolves(b, c)
    ensures GoalEvolves(a, c)
  {}

  // What the store adds to the shape of a goal it wrote itself: a goal with a run is running exactly
  // until it ends, and an unanswered question keeps the goal from having a run or being blocked.
  ghost predicate StoreGoal(g: Goal) {
    && g.revision <= U64_MAX
    && (g.run.Some? ==>
          && g.items != [] && 0 < g.run.value.attempt <= U32_MAX
          && (if g.status.Completed? then g.run.value.status.RunCompleted?
              else if g.status.Cancelled? then g.run.value.status.RunCancelled?
              else g.run.value.status.RunRunning?))
    && (Unanswered(g) ==> g.run.None?)
  }

  lemma EditKeeps(r: GoalRecord, call: GoalCall, expected: nat, now: int)
    requires GoalShape(r.goal) && StoreGoal(r.goal) && EarlyAnswer(r, call).None?
    ensures var changed := MutateGoal(r, expected, EditOf(r.goal, call, now), now);
      changed.Edited? ==> GoalShape(changed.goal) && StoreGoal(changed.goal) && GoalEvolves(r.goal, changed.goal)
  {}

  lemma CompleteEditKeeps(r: GoalRecord, evidence: DocRef, expected: nat, now: int)
    requires GoalShape(r.goal) && StoreGoal(r.goal)
    requires r.goal.items != [] && r.goal.run.Some? && r.goal.run.value.status.RunRunning?
    ensures var changed := MutateGoal(r, expected, CompleteEdit(r.goal, evidence), now);
      changed.Edited? ==>
        GoalShape(changed.goal) && StoreGoal(changed.goal) && GoalEvolves(r.goal, changed.goal)
        && changed.goal.evidence == Some(evidence)
  {}

  /* The file. */

  // The goals, their configurations and the replay keys, as the store itself writes them.
  ghost predicate GoalPart(f: GoalFile) {
    GoalsOk(f) && forall id :: id in f.goals ==> StoreGoal(f.goals[id].goal)
  }

  ghost predicate GoalsExtend(a: GoalFile, b: GoalFile) {
    && (forall id :: id in a.goals ==> id in b.goals && GoalEvolves(a.goals[id].goal, b.goals[id].goal))
    && (forall key :: key in a.idempotency ==> key in b.idempotency && b.idempotency[key] == a.idempotency[key])
    && (forall id :: id in a.configs ==> id in b.configs && b.configs[id] == a.configs[id])
  }

  predicate SameGraphs(a: GoalFile, b: GoalFile) {
    b.graphs == a.graphs && b.history == a.history && b.results == a.results
  }

  lemma GoalsExtendTransitive(a: GoalFile, b: GoalFile, c: GoalFile)
    requires GoalsExtend(a, b) && GoalsExtend(b, c)
    ensures GoalsExtend(a, c)
  {
    forall id | id in a.goals
      ensures GoalEvolves(a.goals[id].goal, c.goals[id].goal)
    {
      GoalEvolvesTransitive(a.goals[id].goal, b.goals[id].goal, c.goals[id].goal);
    }
  }

  lemma MutateFileKeeps(f: GoalFile, id: string, expected: nat, edit: Edit, now: int)
    requires GoalPart(f) && id in f.goals
    requires var changed := MutateGoal(f.goals[id], expected, edit, now);
      changed.Edited? ==>
        GoalShape(changed.goal) && StoreGoal(changed.goal) && GoalEvolves(f.goals[id].goal, changed.goal)
    ensures var after := MutateFile(f, id, expected, edit, now).file;
      GoalPart(after) && GoalsExtend(f, after)
  {
    hide GoalShape, StoreGoal, MutateGoal, ConfigValid;
  }

  lemma CallKeeps(f: GoalFile, id: string, expected: nat, call: GoalCall, now: int)
    requires GoalPart(f)
    ensures GoalPart(CallGoal(f, id, expected, call, now).file)
      && GoalsExtend(f, CallGoal(f, id, expected, call, now).file)
  {
    hide GoalShape, StoreGoal, MutateGoal, EditOf;
    if CallAcceptable(call) && id in f.goals && EarlyAnswer(f.goals[id], call).None? {
      EditKeeps(f.goals[id], call, expected, now);
      MutateFileKeeps(f, id, expected, EditOf(f.goals[id].goal, call, now), now);
    }
  }

  lemma StoredGoal(f: GoalFile, id: string)
    requires GoalPart(f) && id in f.goals
    ensures f.goals[id].goal.id == id && GoalShape(f.goals[id].goal) && StoreGoal(f.goals[id].goal)
  {}

  lemma CompleteKeeps(f: GoalFile, id: string, expected: nat, graphId: string, evidence: DocRef, now: int)
    requires GoalPart(f)
    ensures var after := CompleteGoal(f, id, expected, graphId, evidence, now).file;
      GoalPart(after) && GoalsExtend(f, after)
  {
    assert GoalsExtend(f, f);
    CompleteCases(f, id, expected, graphId, evidence, now);
    hide CompleteGoal;
    if CompleteGoal(f, id, expected, graphId, evidence, now).file != f {
      StoredGoal(f, id);
      hide GoalPart, GoalsExtend, GoalShape, StoreGoal, MutateFile, MutateGoal, CompleteEdit;
      CompleteEditKeeps(f.goals[id], evidence, expected, now);
      MutateFileKeeps(f, id, expected, CompleteEdit(f.goals[id].goal, evidence), now);
    }
  }

  lemma CompleteCases(f: GoalFile, id: string, expected: nat, graphId: string, evidence: DocRef, now: int)
    ensures var reply := CompleteGoal(f, id, expected, graphId, evidence, now);
      || reply.file == f
      || (id in f.goals
          && f.goals[id].goal.items != [] && f.goals[id].goal.run.Some? && f.goals[id].goal.run.value.status.RunRunning?
          && reply == MutateFile(f, id, expected, CompleteEdit(f.goals[id].goal, evidence), now))
  {
    hide AllCompleted, EvidenceBound, AllDone, MutateFile, CompleteEdit;
  }

  /* Starting a goal. */

  lemma {:induction false} InsertHolds(o: ConfigOverride, sorted: seq<ConfigOverride>)
    ensures |Insert(o, sorted)| == |sorted| + 1
    ensures multiset(Insert(o, sorted)) == multiset(sorted) + multiset{o}
    decreases |sorted|
  {
    if sorted != [] {
      assert sorted == [sorted[0]] + sorted[1..];
      if !(o.key < sorted[0].key) { InsertHolds(o, sorted[1..]); }
    }
  }

  lemma {:induction false} InsertOrders(o: ConfigOverride, sorted: seq<ConfigOverride>)
    requires forall i :: 0 <= i < |sorted| - 1 ==> sorted[i].key <= sorted[i + 1].key
    ensures var r := Insert(o, sorted);
      && |r| > 0 && (r[0] == o || (sorted != [] && r[0] == sorted[0]))
      && (forall i :: 0 <= i < |r| - 1 ==> r[i].key <= r[i + 1].key)
    decreases |sorted|
  {
    if sorted != [] && !(o.key < sorted[0].key) {
      InsertOrders(o, sorted[1..]);
      var rest := Insert(o, sorted[1..]);
      var r := Insert(o, sorted);
      assert r == [sorted[0]] + rest;
      forall i | 0 <= i < |r| - 1
        ensures r[i].key <= r[i + 1].key
      {
        assert r[i + 1] == rest[i] && (i > 0 ==> r[i] == rest[i - 1]);
      }
    }
  }

  lemma InsertSorts(o: ConfigOverride, sorted: seq<ConfigOverride>)
    requires forall i :: 0 <= i < |sorted| - 1 ==> sorted[i].key <= sorted[i + 1].key
    ensures var r := Insert(o, sorted);
      && |r| == |sorted| + 1 && multiset(r) == multiset(sorted) + multiset{o}
      && (r[0] == o || (sorted != [] && r[0] == sorted[0]))
      && (forall i :: 0 <= i < |r| - 1 ==> r[i].key <= r[i + 1].key)
  {
    hide Insert;
    InsertHolds(o, sorted);
    InsertOrders(o, sorted);
  }

  lemma {:induction false} SortedByKeySorts(overrides: seq<ConfigOverride>)
    ensures var r := SortedByKey(overrides);
      && |r| == |overrides| && multiset(r) == multiset(overrides)
      && (forall i :: 0 <= i < |r| - 1 ==> r[i].key <= r[i + 1].key)
    decreases |overrides|
  {
    hide Insert;
    if overrides != [] {
      var front := overrides[..|overrides| - 1];
      SortedByKeySorts(front);
      InsertSorts(overrides[|overrides| - 1], SortedByKey(front));
      assert overrides == front + [overrides[|overrides| - 1]];
    }
  }

  // A sealed configuration is a valid one: strictly sorted, within bounds, a reordering of the request.
  lemma SealedConfigIsValid(goalId: string, overrides: seq<ConfigOverride>)
    ensures var c := SealConfig(goalId, overrides);
      c.Some? ==> ConfigValid(c.value) && c.value.goalId == goalId && multiset(c.value.overrides) == multiset(overrides)
  {
    SortedByKeySorts(overrides);
  }

  lemma WithGoalKeeps(f: GoalFile, id: string, r: GoalRecord)
    requires GoalPart(f) && id !in f.goals
    requires r.goal.id == id && GoalValid(r) && StoreGoal(r.goal)
    ensures GoalPart(WithGoal(f, id, r)) && GoalsExtend(f, WithGoal(f, id, r))
  {
    hide GoalValid, StoreGoal, ConfigValid;
  }

  lemma WithConfigKeeps(f: GoalFile, id: string, c: ConfigRecord)
    requires GoalPart(f) && id in f.goals && id !in f.configs
    requires c.goalId == id && ConfigValid(c)
    ensures GoalPart(WithConfig(f, id, c)) && GoalsExtend(f, WithConfig(f, id, c))
  {
    hide GoalValid, StoreGoal, ConfigValid;
  }

  lemma WithReplayKeeps(f: GoalFile, key: string, replay: Replay)
    requires GoalPart(f) && replay.goalId in f.goals && key !in f.idempotency
    ensures GoalPart(WithReplay(f, key, replay)) && GoalsExtend(f, WithReplay(f, key, replay))
  {
    hide GoalValid, StoreGoal, ConfigValid;
  }

  lemma StartKeeps(f: GoalFile, r: StartRequest, freshId: string, now: int)
    requires GoalPart(f) && freshId !in f.goals
    ensures GoalPart(Start(f, r, freshId, now).file) && GoalsExtend(f, Start(f, r, freshId, now).file)
  {
    assert GoalsExtend(f, f);
    NewGoalSealed(freshId, InputOf(r), now);
    StartCases(f, r, freshId, now);
    hide GoalPart, GoalsExtend, GoalShape, GoalValid, StoreGoal, SealConfig, Trim, NewGoal, InputOf, Seal, WithGoal,
      WithConfig, WithReplay, Start;
    var sealed := Seal(NewGoal(freshId, InputOf(r), now));
    if sealed.Some? && r.key !in f.idempotency {
      GoalAdded(f, freshId, sealed.value, r.key, InputOf(r));
      if SealConfig(freshId, r.overrides).Some? {
        ConfiguredGoalAdded(f, freshId, sealed.value, r.key, InputOf(r), r.overrides);
      }
    }
  }

  // The four files a start can leave.
  lemma StartCases(f: GoalFile, r: StartRequest, freshId: string, now: int)
    ensures var file := Start(f, r, freshId, now).file;
      var sealed := Seal(NewGoal(freshId, InputOf(r), now));
      || file == f
      || (sealed.Some? && r.key !in f.idempotency && file == WithGoal(f, freshId, sealed.value))
      || (sealed.Some? && r.key !in f.idempotency
          && file == WithReplay(WithGoal(f, freshId, sealed.value), r.key, Replay(freshId, InputOf(r))))
      || (sealed.Some? && r.key !in f.idempotency && SealConfig(freshId, r.overrides).Some?
          && file == WithReplay(WithConfig(WithGoal(f, freshId, sealed.value), freshId,
            SealConfig(freshId, r.overrides).value), r.key, Replay(freshId, InputOf(r))))
  {
    hide SealConfig, Trim, NewGoal, InputOf, Seal, WithGoal, WithConfig, WithReplay;
  }

  lemma NewGoalSealed(id: string, input: StartInput, now: int)
    ensures var sealed := Seal(NewGoal(id, input, now));
      sealed.Some? ==> sealed.value.goal.id == id && GoalValid(sealed.value) && StoreGoal(sealed.value.goal)
  {
    hide PlanShape, QuestionShape, BoundedText, BoundedToken;
  }

  lemma GoalAdded(f: GoalFile, id: string, record: GoalRecord, key: string, input: StartInput)
    requires GoalPart(f) && id !in f.goals && key !in f.idempotency
    requires record.goal.id == id && GoalValid(record) && StoreGoal(record.goal)
    ensures var with := WithGoal(f, id, record);
      var done := WithReplay(with, key, Replay(id, input));
      GoalPart(with) && GoalsExtend(f, with) && GoalPart(done) && GoalsExtend(f, done)
  {
    hide GoalPart, GoalsExtend, GoalValid, StoreGoal;
    var with := WithGoal(f, id, record);
    WithGoalKeeps(f, id, record);
    WithReplayKeeps(with, key, Replay(id, input));
    GoalsExtendTransitive(f, with, WithReplay(with, key, Replay(id, input)));
  }

  lemma ConfiguredGoalAdded(f: GoalFile, id: string, record: GoalRecord, key: string, input: StartInput,
      overrides: seq<ConfigOverride>)
    requires GoalPart(f) && id !in f.goals && key !in f.idempotency && SealConfig(id, overrides).Some?
    requires record.goal.id == id && GoalValid(record) && StoreGoal(record.goal)
    ensures var with := WithConfig(WithGoal(f, id, record), id, SealConfig(id, overrides).value);
      var done := WithReplay(with, key, Replay(id, input));
      GoalPart(done) && GoalsExtend(f, done)
  {
    NoConfigYet(f, id);
    SealedConfigIsValid(id, overrides);
    hide GoalPart, GoalsExtend, GoalValid, StoreGoal, SealConfig, ConfigValid;
    var plain := WithGoal(f, id, record);
    WithGoalKeeps(f, id, record);
    var with := WithConfig(plain, id, SealConfig(id, overrides).value);
    WithConfigKeeps(plain, id, SealConfig(id, overrides).value);
    WithReplayKeeps(with, key, Replay(id, input));
    GoalsExtendTransitive(f, plain, with);
    GoalsExtendTransitive(f, with, WithReplay(with, key, Replay(id, input)));
  }

  lemma NoConfigYet(f: GoalFile, id: string)
    requires GoalPart(f) && id !in f.goals
    ensures id !in f.configs
  {}

  // Starting fails without a trace except in one case: an invalid configuration, found after the goal
  // is already in the table. Then exactly that goal is left behind, with no key and no configuration.
  lemma StartFailsCleanlyExactlyWhen(f: GoalFile, r: StartRequest, freshId: string, now: int)
    requires freshId !in f.goals
    requires Start(f, r, freshId, now).answer.Fail?
    ensures var reply := Start(f, r, freshId, now);
      var goal := NewGoal(freshId, InputOf(r), now);
      var strays := GoalShape(goal) && r.key !in f.idempotency && Trim(r.key) != "" && |r.key| <= 256
        && r.overrides != [] && SealConfig(freshId, r.overrides).None?;
      && !reply.commit
      && reply.file == (if strays then WithGoal(f, freshId, GoalRecord(goal, Whole(goal))) else f)
      && (strays <==> reply.file != f)
  {
    assert Trim("") == "";
    hide SealConfig, Trim, PlanShape, StatusShape, QuestionShape;
    var goal := NewGoal(freshId, InputOf(r), now);
    assert freshId in WithGoal(f, freshId, GoalRecord(goal, Whole(goal))).goals;
  }

  const DOUBLED := StartRequest("x", None, None, "k", [ConfigOverride(1, "a"), ConfigOverride(1, "b")])

  // Two overrides of one key: the start is refused as invalid and the goal is in the table all the same,
  // with no key by which a repeated start would find it.
  lemma RefusedStartCanLeaveAGoal()
    ensures var reply := Start(EmptyGoals, DOUBLED, "g", 0);
      && reply.answer == Fail(Invalid) && !reply.commit
      && "g" in reply.file.goals && reply.file.idempotency == map[] && reply.file.configs == map[]
  {
    var overrides := DOUBLED.overrides;
    assert Trim("x") == "x" && Trim("k") == "k";
    assert GoalShape(NewGoal("g", InputOf(DOUBLED), 0));
    var single := overrides[..1];
    assert overrides[..|overrides| - 1] == single && single[..|single| - 1] == [];
    assert SortedByKey(single) == [overrides[0]];
    assert [overrides[0]][1..] == [] && Insert(overrides[1], []) == [overrides[1]];
    assert Insert(overrides[1], [overrides[0]]) == overrides;
    assert SealConfig("g", overrides).None?;
  }
}
