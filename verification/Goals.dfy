/**
 The value layer of the goal store: goal records with their lifecycle, hash-chained stage graphs,
 stage results, and the file that holds them. A fingerprint is modelled as the content it digests.
 */
module Goals {
  import opened Basics

  /* Text bounds. */

  predicate Blank(c: char) {
    c == ' ' || c == '\t' || c == '\n' || c == '\r'
  }

  function TrimStart(s: string): string {
    if s != [] && Blank(s[0]) then TrimStart(s[1..]) else s
  }

  function TrimEnd(s: string): string {
    if s != [] && Blank(s[|s| - 1]) then TrimEnd(s[..|s| - 1]) else s
  }

  function Trim(s: string): string {
    TrimEnd(TrimStart(s))
  }

  predicate BoundedText(s: string, max: nat) {
    Trim(s) != "" && |s| <= max && '\0' !in s
  }

  predicate TokenChar(c: char) {
    'a' <= c <= 'z' || 'A' <= c <= 'Z' || '0' <= c <= '9' || c == '-' || c == '_' || c == '.'
  }

  predicate BoundedToken(s: string, max: nat) {
    BoundedText(s, max) && forall i :: 0 <= i < |s| ==> TokenChar(s[i])
  }

  /* Documents. */

  datatype DocRef = DocRef(schema: string, documentId: string, revision: nat, sha: Digest)

  datatype Digest =
    | OfStage(stage: StageBody) | OfGraph(graph: GraphBody) | OfResult(result: ResultBody) | OfOther(n: nat)

  datatype StageState =
    | Draft | Ready | StageRunning | WaitingApproval | StagePaused | StageBlocked | StageFailed | StageCancelled
    | StageCompleted | Superseded

  datatype StageBody = StageBody(id: string, revision: nat, goalId: string, state: StageState,
      resultRef: Option<DocRef>,
    dependencies: seq<string>, criteria: seq<string>, projects: seq<string>, codex: bool, plansBound: bool,
      rest: string)

  datatype Stage = Stage(body: StageBody, fingerprint: Digest)

  datatype GraphBody = GraphBody(id: string, goalId: string, planRevision: nat, stages: seq<Stage>,
      criticalPath: seq<string>,
    integration: Option<string>, previous: Option<Digest>, replanReason: Option<string>, restValid: bool, rest: string)

  datatype Graph = Graph(body: GraphBody, fingerprint: Digest)

  datatype ResultOutcome = OutcomeCompleted | OutcomeFailed | OutcomeBlocked | OutcomeCancelled | OutcomeUnknown

  datatype ProjectEvidence = ProjectEvidence(projectId: string, bundle: DocRef)

  datatype ResultBody = ResultBody(id: string, revision: nat, goalId: string, graphRef: DocRef, stageRef: DocRef,
    outcome: ResultOutcome, criteria: seq<string>, evidence: seq<ProjectEvidence>, hasExecution: bool,
    failureCode: Option<string>, recovery: Option<string>, effectMayHaveStarted: bool, recordedAt: int)

  datatype StageResult = StageResult(body: ResultBody, fingerprint: Digest)

  const GRAPH_SCHEMA := "star.stage-graph"
  const STAGE_SCHEMA := "star.stage-spec"
  const RESULT_SCHEMA := "star.stage-result"
  const EVIDENCE_SCHEMA := "star.evidence-bundle"

  predicate RefOk(r: DocRef, schema: string) {
    r.schema == schema && r.documentId != "" && r.revision > 0
  }

  predicate NeedsResult(s: StageState) {
    s.StageBlocked? || s.StageFailed? || s.StageCancelled? || s.StageCompleted?
  }

  predicate StageShape(b: StageBody) {
    && 0 < b.revision <= U64_MAX
    && b.id !in b.dependencies
    && (b.resultRef.Some? ==> RefOk(b.resultRef.value, RESULT_SCHEMA))
    && !(b.codex && !b.state.Draft? && !b.plansBound)
    && (NeedsResult(b.state) <==> b.resultRef.Some?)
  }

  predicate StageVerified(s: Stage) {
    s.fingerprint == OfStage(s.body) && StageShape(s.body)
  }

  predicate HasStage(stages: seq<Stage>, id: string) {
    exists i :: 0 <= i < |stages| && stages[i].body.id == id
  }

  predicate DistinctStages(stages: seq<Stage>) {
    forall i, j :: 0 <= i < j < |stages| ==> stages[i].body.id != stages[j].body.id
  }

  // `restValid` stands for the checks on parts the store never edits: edges, cycles, parallel groups.
  predicate GraphShape(b: GraphBody) {
    && 0 < b.planRevision <= U64_MAX && b.stages != [] && b.restValid
    && (b.planRevision == 1 ==> b.previous.None? && b.replanReason.None?)
    && (b.planRevision > 1 ==> b.previous.Some? && b.replanReason.Some? && b.replanReason.value != "")
    && DistinctStages(b.stages)
    && (forall i :: 0 <= i < |b.stages| ==> StageVerified(b.stages[i]) && b.stages[i].body.goalId == b.goalId)
    && (b.integration.Some? ==> HasStage(b.stages, b.integration.value))
    && (forall k :: 0 <= k < |b.criticalPath| ==> HasStage(b.stages, b.criticalPath[k]))
  }

  predicate GraphVerified(g: Graph) {
    g.fingerprint == OfGraph(g.body) && GraphShape(g.body)
  }

  predicate ResultShape(b: ResultBody) {
    && b.id != "" && b.revision > 0
    && RefOk(b.graphRef, GRAPH_SCHEMA) && RefOk(b.stageRef, STAGE_SCHEMA)
    && (forall i :: 0 <= i < |b.evidence| ==> RefOk(b.evidence[i].bundle, EVIDENCE_SCHEMA))
    && (if b.outcome.OutcomeCompleted? then b.criteria != [] && b.evidence != [] && b.failureCode.None?
      && b.recovery.None?
        else b.failureCode.Some?)
    && (b.outcome.OutcomeUnknown? ==> b.effectMayHaveStarted && b.recovery.Some?)
  }

  predicate ResultVerified(r: StageResult) {
    r.fingerprint == OfResult(r.body) && ResultShape(r.body)
  }

  function Reference(r: StageResult): DocRef {
    DocRef(RESULT_SCHEMA, r.body.id, r.body.revision, r.fingerprint)
  }

  function EndState(outcome: ResultOutcome): StageState {
    match outcome
    case OutcomeCompleted => StageCompleted
    case OutcomeFailed => StageFailed
    case OutcomeBlocked => StageBlocked
    case OutcomeUnknown => StageBlocked
    case OutcomeCancelled => StageCancelled
  }

  function Projects(evidence: seq<ProjectEvidence>): seq<string> {
    seq(|evidence|, i requires 0 <= i < |evidence| => evidence[i].projectId)
  }

  predicate VerifiedAgainst(r: StageResult, g: Graph, s: Stage) {
    && ResultVerified(r) && GraphVerified(g) && StageVerified(s)
    && r.body.goalId == g.body.goalId && s.body.goalId == g.body.goalId
    && r.body.graphRef == DocRef(GRAPH_SCHEMA, g.body.id, g.body.planRevision, g.fingerprint)
    && r.body.stageRef == DocRef(STAGE_SCHEMA, s.body.id, s.body.revision, s.fingerprint)
    && s in g.body.stages
    && !NeedsResult(s.body.state) && !s.body.state.Superseded?
    && (if r.body.outcome.OutcomeCompleted? then
          && r.body.criteria == s.body.criteria && Projects(r.body.evidence) == s.body.projects
          && (s.body.state.Ready? || s.body.state.StageRunning?)
        else
          && (forall i :: 0 <= i < |r.body.criteria| ==> r.body.criteria[i] in s.body.criteria)
          && (forall i :: 0 <= i < |r.body.evidence| ==> r.body.evidence[i].projectId in s.body.projects))
    && (s.body.codex ==> r.body.hasExecution)
  }

  /* Goals. */

  datatype GoalStatus = Active | WaitingQuestion | Paused | Completed | Blocked | Cancelled

  datatype ItemStatus = Pending | InProgress | Done | Stuck

  datatype PlanItem = PlanItem(id: string, step: string, status: ItemStatus)

  datatype Question = Question(id: string, prompt: string, answer: Option<string>)

  datatype RunStatus = RunRunning | RunCompleted | RunFailed | RunCancelled

  datatype GoalRun = GoalRun(runId: string, attempt: nat, status: RunStatus, continuedAt: int)

  datatype Goal = Goal(id: string, revision: nat, objective: string, projectKey: Option<string>, status: GoalStatus,
    planRevision: nat, items: seq<PlanItem>, question: Option<Question>, run: Option<GoalRun>,
    evidence: Option<DocRef>, createdAt: int, updatedAt: int)

  // Records written before completion evidence existed carry a digest without that field.
  datatype GoalDigest = Whole(whole: Goal) | WithoutEvidence(partial: Goal)

  datatype GoalRecord = GoalRecord(goal: Goal, fingerprint: GoalDigest)

  predicate AllDone(items: seq<PlanItem>) {
    forall i :: 0 <= i < |items| ==> items[i].status.Done?
  }

  predicate SomeStuck(items: seq<PlanItem>) {
    exists i :: 0 <= i < |items| && items[i].status.Stuck?
  }

  predicate DistinctItems(items: seq<PlanItem>) {
    forall i, j :: 0 <= i < j < |items| ==> items[i].id != items[j].id
  }

  predicate AtMostOneInProgress(items: seq<PlanItem>) {
    forall i, j :: 0 <= i < j < |items| ==> !(items[i].status.InProgress? && items[j].status.InProgress?)
  }

  predicate Unanswered(g: Goal) {
    g.question.Some? && g.question.value.answer.None?
  }

  predicate PlanShape(g: Goal) {
    && (forall i :: 0 <= i < |g.items| ==> BoundedToken(g.items[i].id, 128) && BoundedText(g.items[i].step, 4096))
    && DistinctItems(g.items) && AtMostOneInProgress(g.items)
    && (g.items == [] <==> g.planRevision == 0)
  }

  predicate StatusShape(g: Goal) {
    && (g.status.Completed? ==>
          && AllDone(g.items) && g.run.Some? && g.run.value.status.RunCompleted?
          && g.evidence.Some? && RefOk(g.evidence.value, EVIDENCE_SCHEMA))
    && (g.status.Blocked? ==> SomeStuck(g.items))
    && (!g.status.Completed? ==> g.evidence.None?)
    && (g.status.Paused? || g.status.Cancelled? || (g.status.WaitingQuestion? <==> Unanswered(g)))
    && (g.run.Some? ==>
          && g.run.value.attempt > 0
          && (g.status.Cancelled? ==> g.run.value.status.RunCancelled?)
          && (g.status.Active? || g.status.WaitingQuestion? || g.status.Paused? ==> g.run.value.status.RunRunning?))
  }

  predicate QuestionShape(g: Goal) {
    g.question.Some? ==>
      && BoundedToken(g.question.value.id, 128) && BoundedText(g.question.value.prompt, 4096)
      && (g.question.value.answer.Some? ==> BoundedText(g.question.value.answer.value, 16384))
  }

  predicate GoalShape(g: Goal) {
    && g.revision > 0
    && BoundedText(g.objective, 4096) && (g.projectKey.Some? ==> BoundedToken(g.projectKey.value, 128))
    && g.createdAt <= g.updatedAt
    && PlanShape(g) && StatusShape(g) && QuestionShape(g)
  }

  predicate GoalValid(r: GoalRecord) {
    GoalShape(r.goal) && (r.fingerprint == Whole(r.goal)
      || (r.goal.evidence.None? && r.fingerprint == WithoutEvidence(r.goal)))
  }

  datatype GoalError = Invalid | NotFound | RevisionConflict | Lifecycle | IdempotencyConflict | CorruptState | IoError

  /* One edit of one goal: what the closure handed to `mutate` does. */

  datatype Edit = Edited(goal: Goal) | Refused(error: GoalError)

  function AnswerEdit(g: Goal, questionId: string, answer: string): Edit {
    if !g.status.WaitingQuestion? || g.question.None? then Refused(Lifecycle)
    else
      var q := g.question.value;
      if q.id != questionId || q.answer.Some? then Refused(Lifecycle)
      else Edited(g.(question := Some(Question(q.id, q.prompt, Some(Trim(answer)))), status := Active))
  }

  function PlanEdit(g: Goal, items: seq<PlanItem>): Edit {
    if g.status.WaitingQuestion? || g.status.Completed? || g.status.Cancelled?
       || (g.run.Some? && g.run.value.status.RunRunning?) then Refused(Lifecycle)
    else
      Edited(g.(planRevision := SaturatingSucc(g.planRevision, U64_MAX), items := items,
                status := if g.status.Blocked? && !SomeStuck(items) then Active else g.status))
  }

  function ContinueEdit(g: Goal, freshRun: string, now: int): Edit {
    if !g.status.Active? || g.items == [] || SomeStuck(g.items) then Refused(Lifecycle)
    else if g.run.Some? && g.run.value.status.RunRunning? then
      var run := g.run.value;
      Edited(g.(run := Some(GoalRun(run.runId, SaturatingSucc(run.attempt, U32_MAX), run.status, now))))
    else Edited(g.(run := Some(GoalRun(freshRun, 1, RunRunning, now))))
  }

  function PauseEdit(g: Goal): Edit {
    if g.status.Completed? || g.status.Cancelled? then Refused(Lifecycle) else Edited(g.(status := Paused))
  }

  function ResumeEdit(g: Goal): Edit {
    Edited(g.(status := if Unanswered(g) then WaitingQuestion else Active))
  }

  function RunWith(run: Option<GoalRun>, status: RunStatus): Option<GoalRun> {
    if run.Some? then Some(GoalRun(run.value.runId, run.value.attempt, status, run.value.continuedAt)) else None
  }

  function CancelEdit(g: Goal): Edit {
    if g.status.Completed? then Refused(Lifecycle)
    else Edited(g.(status := Cancelled, run := RunWith(g.run, RunCancelled)))
  }

  function CompleteEdit(g: Goal, evidence: DocRef): Edit {
    if g.run.None? then Refused(Lifecycle)
    else Edited(g.(status := Completed, run := RunWith(g.run, RunCompleted), evidence := Some(evidence)))
  }

  // The frame of every edit: next revision, new time, sealed again (which may fail).
  function Resealed(g: Goal, now: int): Goal {
    g.(revision := SaturatingSucc(g.revision, U64_MAX), updatedAt := now)
  }

  function Seal(g: Goal): Option<GoalRecord> {
    if GoalShape(g) then Some(GoalRecord(g, Whole(g))) else None
  }

  function MutateGoal(r: GoalRecord, expected: nat, edit: Edit, now: int): Edit {
    if r.goal.revision != expected then Refused(RevisionConflict)
    else if edit.Refused? then edit
    else if Seal(Resealed(edit.goal, now)).None? then Refused(Invalid)
    else Edited(Resealed(edit.goal, now))
  }

  /* The file. */

  datatype ConfigOverride = ConfigOverride(key: int, value: string)

  datatype StartInput = StartInput(objective: string, projectKey: Option<string>, question: Option<Question>,
      overrides: seq<ConfigOverride>)

  datatype Replay = Replay(goalId: string, input: StartInput)

  datatype ConfigRecord = ConfigRecord(goalId: string, overrides: seq<ConfigOverride>, digest: (string,
      seq<ConfigOverride>))

  datatype GoalFile = GoalFile(goals: map<string, GoalRecord>, idempotency: map<string, Replay>, configs: map<string,
      ConfigRecord>,
    graphs: map<string, Graph>, history: map<string, map<nat, Graph>>, results: map<string, StageResult>)

  const EmptyGoals := GoalFile(map[], map[], map[], map[], map[], map[])

  datatype Answer = OkGoal(record: GoalRecord) | OkGraph(graph: Graph) | OkResult(result: StageResult,
      after: Graph) | Fail(error: GoalError)

  // `commit` says whether the call reaches the write of the whole file.
  datatype Reply = Reply(file: GoalFile, commit: bool, answer: Answer)

  function Nothing(f: GoalFile, answer: Answer): Reply {
    Reply(f, false, answer)
  }

  /* Goal configuration. */

  function Insert(o: ConfigOverride, sorted: seq<ConfigOverride>): seq<ConfigOverride> {
    if sorted == [] || o.key < sorted[0].key then [o] + sorted else [sorted[0]] + Insert(o, sorted[1..])
  }

  function SortedByKey(overrides: seq<ConfigOverride>): seq<ConfigOverride> {
    if overrides == [] then [] else Insert(overrides[|overrides| - 1], SortedByKey(overrides[..|overrides| - 1]))
  }

  function Weight(overrides: seq<ConfigOverride>): nat {
    if overrides == [] then 0 else |overrides[0].value| + Weight(overrides[1..])
  }

  predicate Increasing(overrides: seq<ConfigOverride>) {
    forall i :: 0 <= i < |overrides| - 1 ==> overrides[i].key < overrides[i + 1].key
  }

  predicate AdjacentDiffer(overrides: seq<ConfigOverride>) {
    forall i :: 0 <= i < |overrides| - 1 ==> overrides[i].key != overrides[i + 1].key
  }

  predicate ConfigBounded(overrides: seq<ConfigOverride>) {
    overrides != [] && |overrides| <= 128 && Weight(overrides) <= 64 * 1024
  }

  function SealConfig(goalId: string, overrides: seq<ConfigOverride>): Option<ConfigRecord> {
    var sorted := SortedByKey(overrides);
    if ConfigBounded(sorted) && AdjacentDiffer(sorted) then Some(ConfigRecord(goalId, sorted, (goalId, sorted)))
      else None
  }

  predicate ConfigValid(c: ConfigRecord) {
    ConfigBounded(c.overrides) && Increasing(c.overrides) && c.digest == (c.goalId, c.overrides)
  }

  /* Start. */

  datatype StartRequest = StartRequest(objective: string, projectKey: Option<string>, question: Option<(string,
      string)>,
    key: string, overrides: seq<ConfigOverride>)

  function TrimmedKey(key: Option<string>): Option<string> {
    if key.Some? && Trim(key.value) != "" then Some(Trim(key.value)) else None
  }

  function InputOf(r: StartRequest): StartInput {
    StartInput(Trim(r.objective), TrimmedKey(r.projectKey),
      if r.question.Some? then Some(Question(Trim(r.question.value.0), Trim(r.question.value.1), None)) else None,
      r.overrides)
  }

  function NewGoal(id: string, input: StartInput, now: int): Goal {
    Goal(id, 1, input.objective, input.projectKey, if input.question.Some? then WaitingQuestion else Active,
      0, [], input.question, None, None, now, now)
  }

  function WithGoal(f: GoalFile, id: string, r: GoalRecord): GoalFile {
    f.(goals := f.goals[id := r])
  }

  function WithConfig(f: GoalFile, id: string, c: ConfigRecord): GoalFile {
    f.(configs := f.configs[id := c])
  }

  function WithReplay(f: GoalFile, key: string, r: Replay): GoalFile {
    f.(idempotency := f.idempotency[key := r])
  }

  function Start(f: GoalFile, r: StartRequest, freshId: string, now: int): Reply {
    var input := InputOf(r);
    if input.objective == "" || |input.objective| > 4096 || Trim(r.key) == "" || |r.key| > 256 then
      Nothing(f, Fail(Invalid))
    else if r.key in f.idempotency then
      var replay := f.idempotency[r.key];
      if replay.input != input then Nothing(f, Fail(IdempotencyConflict))
      else if replay.goalId in f.goals then Nothing(f, OkGoal(f.goals[replay.goalId]))
      else Nothing(f, Fail(CorruptState))
    else
      var sealed := Seal(NewGoal(freshId, input, now));
      if sealed.None? then Nothing(f, Fail(Invalid))
      else
        var with := WithGoal(f, freshId, sealed.value);
        if r.overrides == [] then
          Reply(WithReplay(with, r.key, Replay(freshId, input)), true, OkGoal(sealed.value))
        else
          var config := SealConfig(freshId, r.overrides);
          // The goal is already in the table when its configuration turns out to be invalid.
          if config.None? then Nothing(with, Fail(Invalid))
          else
            Reply(WithReplay(WithConfig(with, freshId, config.value), r.key, Replay(freshId, input)), true,
              OkGoal(sealed.value))
  }

  /* Edits of one goal in the file. */

  function MutateFile(f: GoalFile, id: string, expected: nat, edit: Edit, now: int): Reply
    requires id in f.goals
  {
    var changed := MutateGoal(f.goals[id], expected, edit, now);
    match changed
    case Refused(error) => Nothing(f, Fail(error))
    case Edited(goal) =>
      var record := GoalRecord(goal, Whole(goal));
      Reply(WithGoal(f, id, record), true, OkGoal(record))
  }

  function TrimItems(items: seq<PlanItem>): seq<PlanItem> {
    seq(|items|, i requires 0 <= i < |items| => PlanItem(Trim(items[i].id), Trim(items[i].step), items[i].status))
  }

  predicate ItemsAcceptable(items: seq<PlanItem>) {
    && 0 < |items| <= 256
    && (forall i :: 0 <= i < |items| ==> items[i].id != "" && items[i].step != "" && |items[i].step| <= 4096)
    && DistinctItems(items) && AtMostOneInProgress(items)
  }

  datatype GoalCall =
    | Answering(questionId: string, answer: string)
    | Planning(items: seq<PlanItem>)
    | Continuing(freshRun: string)
    | Pausing | Resuming | Cancelling

  // The answer given before any revision is looked at, if there is one.
  function EarlyAnswer(g: GoalRecord, call: GoalCall): Option<Answer> {
    match call
    case Answering(_, _) => None
    case Planning(_) => None
    case Continuing(_) => None
    case Pausing => if g.goal.status.Paused? then Some(OkGoal(g)) else None
    case Resuming =>
      if g.goal.status.Paused? then None
      else if g.goal.status.Active? || g.goal.status.WaitingQuestion? then Some(OkGoal(g)) else Some(Fail(Lifecycle))
    case Cancelling => if g.goal.status.Cancelled? then Some(OkGoal(g)) else None
  }

  predicate CallAcceptable(call: GoalCall) {
    match call
    case Answering(_, answer) => Trim(answer) != "" && |answer| <= 16384
    case Planning(items) => ItemsAcceptable(TrimItems(items))
    case _ => true
  }

  function EditOf(g: Goal, call: GoalCall, now: int): Edit {
    match call
    case Answering(questionId, answer) => AnswerEdit(g, questionId, answer)
    case Planning(items) => PlanEdit(g, TrimItems(items))
    case Continuing(freshRun) => ContinueEdit(g, freshRun, now)
    case Pausing => PauseEdit(g)
    case Resuming => ResumeEdit(g)
    case Cancelling => CancelEdit(g)
  }

  function CallGoal(f: GoalFile, id: string, expected: nat, call: GoalCall, now: int): Reply {
    if !CallAcceptable(call) then Nothing(f, Fail(Invalid))
    else if id !in f.goals then Nothing(f, Fail(NotFound))
    else if EarlyAnswer(f.goals[id], call).Some? then Nothing(f, EarlyAnswer(f.goals[id], call).value)
    else MutateFile(f, id, expected, EditOf(f.goals[id].goal, call, now), now)
  }

  /* Stage graphs and results. */

  function HistoryOf(f: GoalFile, id: string): map<nat, Graph> {
    if id in f.history then f.history[id] else map[]
  }

  function WithGraph(f: GoalFile, id: string, g: Graph): GoalFile {
    f.(graphs := f.graphs[id := g], history := f.history[id := HistoryOf(f, id)[g.body.planRevision := g]])
  }

  function PublishGraph(f: GoalFile, g: Graph, expectedPrevious: Option<nat>): Reply {
    var id := g.body.id;
    if !GraphVerified(g) then Nothing(f, Fail(Invalid))
    else if g.body.goalId !in f.goals then Nothing(f, Fail(NotFound))
    else if id in f.graphs && f.graphs[id] == g then Nothing(f, OkGraph(g))
    else if id in f.graphs && expectedPrevious != Some(f.graphs[id].body.planRevision) then
      Nothing(f, Fail(RevisionConflict))
    else if id in f.graphs
      && (g.body.planRevision != SaturatingSucc(f.graphs[id].body.planRevision, U64_MAX)
          || g.body.previous != Some(f.graphs[id].fingerprint)) then Nothing(f, Fail(RevisionConflict))
    else if id !in f.graphs && expectedPrevious.Some? then Nothing(f, Fail(NotFound))
    else if g.body.planRevision in HistoryOf(f, id) && HistoryOf(f, id)[g.body.planRevision] != g then
      Nothing(f, Fail(RevisionConflict))
    else Reply(WithGraph(f, id, g), true, OkGraph(g))
  }

  // The first stage with this id.
  function StageIndex(stages: seq<Stage>, id: string): (index: Option<nat>)
    ensures index.Some? ==> index.value < |stages| && stages[index.value].body.id == id
    ensures index.Some? ==> forall j :: 0 <= j < index.value ==> stages[j].body.id != id
    ensures index.None? ==> !HasStage(stages, id)
  {
    if stages == [] then None
    else if stages[0].body.id == id then Some(0)
    else
      var rest := StageIndex(stages[1..], id);
      if rest.Some? then Some(rest.value + 1) else None
  }

  // Some stage of the graph is the one the result is about and carries exactly this result.
  predicate CarriesResult(g: Graph, r: StageResult) {
    exists i :: 0 <= i < |g.body.stages|
      && g.body.stages[i].body.id == r.body.stageRef.documentId
      && g.body.stages[i].body.resultRef == Some(Reference(r))
      && g.body.stages[i].body.state == EndState(r.body.outcome)
  }

  predicate DependenciesCompleted(stages: seq<Stage>, s: Stage) {
    forall k :: 0 <= k < |s.body.dependencies| ==>
      StageIndex(stages, s.body.dependencies[k]).Some?
      && stages[StageIndex(stages, s.body.dependencies[k]).value].body.state.StageCompleted?
  }

  function SealStage(b: StageBody): Stage {
    Stage(b, OfStage(b))
  }

  function EndedStage(s: Stage, r: StageResult): Stage {
    var b := s.body;
    SealStage(b.(revision := b.revision + 1, state := EndState(r.body.outcome), resultRef := Some(Reference(r))))
  }

  function NextBody(g: Graph, index: nat, r: StageResult): GraphBody
    requires index < |g.body.stages|
  {
    var b := g.body;
    b.(planRevision := b.planRevision + 1, previous := Some(g.fingerprint),
       replanReason := Some("stage_result:" + r.body.id),
       stages := b.stages[index := EndedStage(b.stages[index], r)])
  }

  function NextGraph(g: Graph, index: nat, r: StageResult): Graph
    requires index < |g.body.stages|
  {
    Graph(NextBody(g, index, r), OfGraph(NextBody(g, index, r)))
  }

  function WithStoredResult(f: GoalFile, r: StageResult): GoalFile {
    f.(results := f.results[r.body.id := r])
  }

  function WithResult(f: GoalFile, id: string, r: StageResult, next: Graph): GoalFile {
    WithGraph(WithStoredResult(f, r), id, next)
  }

  function RepeatResult(f: GoalFile, r: StageResult): Reply
    requires r.body.id in f.results
  {
    var id := r.body.graphRef.documentId;
    if f.results[r.body.id] != r then Nothing(f, Fail(RevisionConflict))
    else if id !in f.graphs then Nothing(f, Fail(NotFound))
    else if CarriesResult(f.graphs[id], r) then Nothing(f, OkResult(r, f.graphs[id]))
    else Nothing(f, Fail(CorruptState))
  }

  function RecordResult(f: GoalFile, r: StageResult, expectedGraph: nat, expectedStage: nat): Reply {
    var id := r.body.graphRef.documentId;
    if !ResultVerified(r) || r.body.graphRef.schema != GRAPH_SCHEMA then Nothing(f, Fail(Invalid))
    else if r.body.id in f.results then RepeatResult(f, r)
    else if id !in f.graphs then Nothing(f, Fail(NotFound))
    else NewResult(f, f.graphs[id], r, expectedGraph, expectedStage)
  }

  function NewResult(f: GoalFile, current: Graph, r: StageResult, expectedGraph: nat, expectedStage: nat): Reply {
    var index := StageIndex(current.body.stages, r.body.stageRef.documentId);
    if current.body.planRevision != expectedGraph || r.body.graphRef.revision != current.body.planRevision
       || r.body.graphRef.sha != current.fingerprint then Nothing(f, Fail(RevisionConflict))
    else if index.None? then Nothing(f, Fail(NotFound))
    else
      var stage := current.body.stages[index.value];
      if stage.body.revision != expectedStage then Nothing(f, Fail(RevisionConflict))
      else if !VerifiedAgainst(r, current, stage) then Nothing(f, Fail(Invalid))
      else if r.body.outcome.OutcomeCompleted?
        && (!(stage.body.state.Ready? || stage.body.state.StageRunning?)
          || !DependenciesCompleted(current.body.stages, stage)) then
        Nothing(f, Fail(Lifecycle))
      else if current.body.planRevision >= U64_MAX || stage.body.revision >= U64_MAX then
        Nothing(f, Fail(RevisionConflict))
      else
        var next := NextGraph(current, index.value, r);
        if !GraphShape(next.body) then Nothing(f, Fail(Invalid))
        else if r.body.graphRef.documentId !in f.history then Nothing(f, Fail(CorruptState))
        else if next.body.planRevision in f.history[r.body.graphRef.documentId] then Nothing(f, Fail(RevisionConflict))
        else Reply(WithResult(f, r.body.graphRef.documentId, r, next), true, OkResult(r, next))
  }

  /* Completion. */

  function StageIds(stages: seq<Stage>): seq<string> {
    seq(|stages|, i requires 0 <= i < |stages| => stages[i].body.id)
  }

  function CompletionStages(b: GraphBody): seq<string> {
    if b.integration.Some? then [b.integration.value]
    else if b.criticalPath != [] then [b.criticalPath[|b.criticalPath| - 1]]
    else StageIds(b.stages)
  }

  // The stage carries a Completed result whose evidence includes `evidence`.
  predicate StageProves(results: map<string, StageResult>, s: Stage, evidence: DocRef) {
    && s.body.resultRef.Some?
    && s.body.resultRef.value.documentId in results
    && var r := results[s.body.resultRef.value.documentId];
       && s.body.resultRef.value == Reference(r)
       && r.body.outcome.OutcomeCompleted?
       && exists k :: 0 <= k < |r.body.evidence| && r.body.evidence[k].bundle == evidence
  }

  predicate AllCompleted(stages: seq<Stage>) {
    forall i :: 0 <= i < |stages| ==> stages[i].body.state.StageCompleted?
  }

  predicate EvidenceBound(results: map<string, StageResult>, b: GraphBody, evidence: DocRef) {
    exists k :: 0 <= k < |CompletionStages(b)|
      && StageIndex(b.stages, CompletionStages(b)[k]).Some?
      && StageProves(results, b.stages[StageIndex(b.stages, CompletionStages(b)[k]).value], evidence)
  }

  function CompleteGoal(f: GoalFile, id: string, expected: nat, graphId: string, evidence: DocRef, now: int): Reply {
    if graphId !in f.graphs then Nothing(f, Fail(NotFound))
    else
      var b := f.graphs[graphId].body;
      if b.goalId != id || b.stages == [] || !AllCompleted(b.stages) then Nothing(f, Fail(Lifecycle))
      else if !EvidenceBound(f.results, b, evidence) then Nothing(f, Fail(Invalid))
      else if id !in f.goals then Nothing(f, Fail(NotFound))
      else
        var g := f.goals[id].goal;
        if g.revision != expected || g.items == [] || !AllDone(g.items) || g.run.None?
          || !g.run.value.status.RunRunning? then
          Nothing(f, Fail(Lifecycle))
        else MutateFile(f, id, expected, CompleteEdit(g, evidence), now)
  }

  /* Loading. */

  // A stored result ref must name a stored result that agrees with the stage carrying it.
  predicate StageRefValid(results: map<string, StageResult>, goalId: string, s: Stage) {
    s.body.resultRef.Some? ==>
      && s.body.resultRef.value.documentId in results
      && var r := results[s.body.resultRef.value.documentId];
         && s.body.resultRef.value == Reference(r)
         && r.body.goalId == goalId
         && r.body.stageRef.documentId == s.body.id
         && s.body.state == EndState(r.body.outcome)
  }

  predicate RefsValid(results: map<string, StageResult>, g: Graph) {
    forall i :: 0 <= i < |g.body.stages| ==> StageRefValid(results, g.body.goalId, g.body.stages[i])
  }

  // The history with the current graph in it, where a file from before histories has none.
  function FilledHistory(f: GoalFile, id: string): map<nat, Graph> {
    if id !in f.graphs || f.graphs[id].body.planRevision in HistoryOf(f, id) then HistoryOf(f, id)
    else HistoryOf(f, id)[f.graphs[id].body.planRevision := f.graphs[id]]
  }

  function Migrate(f: GoalFile): GoalFile {
    f.(history := map id | id in f.history.Keys + f.graphs.Keys :: FilledHistory(f, id))
  }

  predicate EntryOk(f: GoalFile, id: string, revision: nat, g: Graph) {
    && revision == g.body.planRevision && g.body.id == id
    && g.body.goalId in f.goals && GraphVerified(g) && RefsValid(f.results, g)
  }

  predicate LinkedTo(g: Graph, previous: Graph) {
    g.body.planRevision == SaturatingSucc(previous.body.planRevision, U64_MAX)
      && g.body.previous == Some(previous.fingerprint)
  }

  // `p` and `r` are neighbours among the keys.
  predicate Adjacent(h: map<nat, Graph>, p: nat, r: nat) {
    p in h && r in h && p < r && forall k :: k in h ==> k <= p || r <= k
  }

  predicate IsLast(h: map<nat, Graph>, r: nat) {
    r in h && forall k :: k in h ==> k <= r
  }

  ghost predicate HistoryOk(f: GoalFile, id: string) {
    && id in f.graphs && id in f.history
    && (exists last :: IsLast(f.history[id], last) && f.history[id][last] == f.graphs[id])
    && (forall r :: r in f.history[id] ==> EntryOk(f, id, r, f.history[id][r]))
    && (forall p, r :: Adjacent(f.history[id], p, r) ==> LinkedTo(f.history[id][r], f.history[id][p]))
  }

  ghost predicate ResultOk(f: GoalFile, key: string) {
    key in f.results &&
    var r := f.results[key];
    && key == r.body.id && ResultVerified(r)
    && r.body.graphRef.documentId in f.history
    && r.body.graphRef.revision in f.history[r.body.graphRef.documentId]
    && (exists i :: ResultAgrees(f.history[r.body.graphRef.documentId][r.body.graphRef.revision], i, r))
    && (exists k ::
          k in f.history[r.body.graphRef.documentId] && CarriesResult(f.history[r.body.graphRef.documentId][k], r))
  }

  predicate ResultAgrees(g: Graph, i: int, r: StageResult) {
    0 <= i < |g.body.stages| && StageIndex(g.body.stages, r.body.stageRef.documentId) == Some(i)
    && VerifiedAgainst(r, g, g.body.stages[i])
  }

  predicate GoalsOk(f: GoalFile) {
    && (forall id :: id in f.goals ==> f.goals[id].goal.id == id && GoalValid(f.goals[id]))
    && (forall key :: key in f.idempotency ==> f.idempotency[key].goalId in f.goals)
    && (forall id :: id in f.configs ==> f.configs[id].goalId == id && id in f.goals && ConfigValid(f.configs[id]))
  }

  predicate CurrentOk(f: GoalFile, id: string) {
    && id in f.graphs && f.graphs[id].body.id == id && f.graphs[id].body.goalId in f.goals
    && GraphVerified(f.graphs[id]) && RefsValid(f.results, f.graphs[id])
  }

  ghost predicate GraphsOk(f: GoalFile) {
    && f.history.Keys == f.graphs.Keys
    && (forall id :: id in f.graphs ==> CurrentOk(f, id))
    && (forall id :: id in f.history ==> HistoryOk(f, id))
  }

  // What `load` accepts after migration.
  ghost predicate Loadable(f: GoalFile) {
    GoalsOk(f) && GraphsOk(f) && (forall key :: key in f.results ==> ResultOk(f, key))
  }
}
