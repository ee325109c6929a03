/** What each call on the goal store answers and changes, field by field, and what a loadable file holds. */
module GoalEffects {
  import opened Basics
  import opened Goals
  import opened GoalFacts
  import opened GraphFacts
  import opened GoalTheorems

  /* Edits of one goal. */

  function Up(n: nat, max: nat): nat {
    if n >= max then max else n + 1
  }

  // The goal after an edit: the next revision, the time, and the fields an edit may change.
  function Changed(g: Goal, now: int, status: GoalStatus, planRevision: nat, items: seq<PlanItem>,
      question: Option<Question>, run: Option<GoalRun>): Goal
  {
    Goal(g.id, Up(g.revision, 0xFFFF_FFFF_FFFF_FFFF), g.objective, g.projectKey, status, planRevision, items, question,
      run, g.evidence, g.createdAt, now)
  }

  // How an edit of a stored goal ends: a stale revision conflicts, a forbidden edit and one that makes an
  // invalid goal are refused, and any other is stored and written.
  function Ends(f: GoalFile, id: string, expected: nat, allowed: bool, goal: Goal): Reply
    requires id in f.goals
  {
    if f.goals[id].goal.revision != expected then Reply(f, false, Fail(RevisionConflict))
    else if !allowed then Reply(f, false, Fail(Lifecycle))
    else if !GoalShape(goal) then Reply(f, false, Fail(Invalid))
    else
      var record := GoalRecord(goal, Whole(goal));
      Reply(f.(goals := f.goals[id := record]), true, OkGoal(record))
  }

  lemma UnknownGoal(f: GoalFile, id: string, expected: nat, call: GoalCall, now: int)
    requires id !in f.goals
    ensures var reply := CallGoal(f, id, expected, call, now);
      reply.file == f && !reply.commit && (reply.answer == Fail(NotFound) || reply.answer == Fail(Invalid))
  {
    hide CallAcceptable;
  }

  lemma MutateEnds(f: GoalFile, id: string, expected: nat, edit: Edit, now: int, allowed: bool, goal: Goal)
    requires id in f.goals
    requires allowed ==> edit.Edited? && Resealed(edit.goal, now) == goal
    requires !allowed ==> edit == Refused(Lifecycle)
    ensures MutateFile(f, id, expected, edit, now) == Ends(f, id, expected, allowed, goal)
  {
    hide GoalShape, Resealed;
  }

  // An answer goes to the open question the goal is waiting on, trimmed, and makes the goal active.
  lemma AnswerEffect(f: GoalFile, id: string, expected: nat, questionId: string, text: string, now: int)
    requires id in f.goals
    ensures var g := f.goals[id].goal;
      var allowed := g.status == WaitingQuestion && g.question.Some?
        && g.question.value.id == questionId && g.question.value.answer.None?;
      var question := if allowed then Some(Question(questionId, g.question.value.prompt, Some(Trim(text)))) else None;
      CallGoal(f, id, expected, Answering(questionId, text), now) ==
        if Trim(text) == "" || |text| > 16384 then Reply(f, false, Fail(Invalid))
        else Ends(f, id, expected, allowed, Changed(g, now, Active, g.planRevision, g.items, question, g.run))
  {
    var g := f.goals[id].goal;
    hide GoalShape, Trim;
    var allowed := g.status == WaitingQuestion && g.question.Some?
      && g.question.value.id == questionId && g.question.value.answer.None?;
    var question := if allowed then Some(Question(questionId, g.question.value.prompt, Some(Trim(text)))) else None;
    MutateEnds(f, id, expected, AnswerEdit(g, questionId, text), now, allowed,
      Changed(g, now, Active, g.planRevision, g.items, question, g.run));
    hide MutateFile;
  }

  // A new plan replaces the old one unless a question is open, a run is under way, or the goal has ended; a
  // blocked goal becomes active when nothing in its plan is blocked any more.
  lemma PlanEffect(f: GoalFile, id: string, expected: nat, items: seq<PlanItem>, now: int)
    requires id in f.goals && ItemsAcceptable(TrimItems(items))
    ensures var g := f.goals[id].goal;
      var allowed := g.status in {Active, Paused, Blocked} && !(g.run.Some? && g.run.value.status == RunRunning);
      var stuck := exists i :: 0 <= i < |TrimItems(items)| && TrimItems(items)[i].status == Stuck;
      var status := if g.status == Blocked && !stuck then Active else g.status;
      CallGoal(f, id, expected, Planning(items), now) ==
        Ends(f, id, expected, allowed,
          Changed(g, now, status, Up(g.planRevision, 0xFFFF_FFFF_FFFF_FFFF), TrimItems(items), g.question, g.run))
  {
    var g := f.goals[id].goal;
    hide GoalShape, TrimItems, ItemsAcceptable;
    var allowed := g.status in {Active, Paused, Blocked} && !(g.run.Some? && g.run.value.status == RunRunning);
    var stuck := exists i :: 0 <= i < |TrimItems(items)| && TrimItems(items)[i].status == Stuck;
    var status := if g.status == Blocked && !stuck then Active else g.status;
    assert stuck <==> SomeStuck(TrimItems(items));
    hide SomeStuck;
    MutateEnds(f, id, expected, PlanEdit(g, TrimItems(items)), now, allowed,
      Changed(g, now, status, Up(g.planRevision, 0xFFFF_FFFF_FFFF_FFFF), TrimItems(items), g.question, g.run));
    hide MutateFile;
  }

  // A plan is refused before anything else if it is empty, too long, incomplete or ambiguous.
  lemma PlanRefused(f: GoalFile, id: string, expected: nat, items: seq<PlanItem>, now: int)
    requires !ItemsAcceptable(TrimItems(items))
    ensures CallGoal(f, id, expected, Planning(items), now) == Reply(f, false, Fail(Invalid))
  {
    hide ItemsAcceptable, TrimItems;
  }

  lemma AcceptableItems(items: seq<PlanItem>)
    ensures ItemsAcceptable(TrimItems(items)) <==>
      && 1 <= |items| <= 256
      && (forall i :: 0 <= i < |items| ==>
            Trim(items[i].id) != "" && Trim(items[i].step) != "" && |Trim(items[i].step)| <= 4096)
      && (forall i, j :: 0 <= i < j < |items| ==> Trim(items[i].id) != Trim(items[j].id))
      && (forall i, j :: 0 <= i < j < |items| ==> !(items[i].status == InProgress && items[j].status == InProgress))
  {
    hide Trim;
    var t := TrimItems(items);
    assert |t| == |items|;
    assert forall i :: 0 <= i < |items| ==> t[i] == PlanItem(Trim(items[i].id), Trim(items[i].step), items[i].status);
  }

  // An active goal with a plan in which nothing is blocked continues: its running run with one attempt
  // more, else a new run at its first attempt.
  lemma ContinueEffect(f: GoalFile, id: string, expected: nat, freshRun: string, now: int)
    requires id in f.goals
    ensures var g := f.goals[id].goal;
      var allowed := g.status == Active && |g.items| > 0 && forall i :: 0 <= i < |g.items| ==>
        g.items[i].status != Stuck;
      var run :=
        if g.run.Some? && g.run.value.status == RunRunning then
          GoalRun(g.run.value.runId, Up(g.run.value.attempt, 0xFFFF_FFFF), RunRunning, now)
        else GoalRun(freshRun, 1, RunRunning, now);
      CallGoal(f, id, expected, Continuing(freshRun), now) ==
        Ends(f, id, expected, allowed, Changed(g, now, Active, g.planRevision, g.items, g.question, Some(run)))
  {
    var g := f.goals[id].goal;
    hide GoalShape;
    var allowed := g.status == Active && |g.items| > 0 && forall i :: 0 <= i < |g.items| ==> g.items[i].status != Stuck;
    var run :=
      if g.run.Some? && g.run.value.status == RunRunning then
        GoalRun(g.run.value.runId, Up(g.run.value.attempt, 0xFFFF_FFFF), RunRunning, now)
      else GoalRun(freshRun, 1, RunRunning, now);
    MutateEnds(f, id, expected, ContinueEdit(g, freshRun, now), now, allowed,
      Changed(g, now, Active, g.planRevision, g.items, g.question, Some(run)));
    hide MutateFile;
  }

  // Pausing a paused goal changes nothing; an ended goal cannot be paused.
  lemma PauseEffect(f: GoalFile, id: string, expected: nat, now: int)
    requires id in f.goals
    ensures var g := f.goals[id].goal;
      CallGoal(f, id, expected, Pausing, now) ==
        if g.status == Paused then Reply(f, false, OkGoal(f.goals[id]))
        else
          Ends(f, id, expected, g.status != Completed && g.status != Cancelled,
            Changed(g, now, Paused, g.planRevision, g.items, g.question, g.run))
  {
    var g := f.goals[id].goal;
    hide GoalShape;
    MutateEnds(f, id, expected, PauseEdit(g), now, g.status != Completed && g.status != Cancelled,
      Changed(g, now, Paused, g.planRevision, g.items, g.question, g.run));
    hide MutateFile;
  }

  // A paused goal resumes to its open question if it has one; one that is not paused is left as it is.
  lemma ResumeEffect(f: GoalFile, id: string, expected: nat, now: int)
    requires id in f.goals
    ensures var g := f.goals[id].goal;
      var open := g.question.Some? && g.question.value.answer.None?;
      CallGoal(f, id, expected, Resuming, now) ==
        if g.status == Active || g.status == WaitingQuestion then Reply(f, false, OkGoal(f.goals[id]))
        else if g.status != Paused then Reply(f, false, Fail(Lifecycle))
        else
          Ends(f, id, expected, true,
            Changed(g, now, if open then WaitingQuestion else Active, g.planRevision, g.items, g.question, g.run))
  {
    var g := f.goals[id].goal;
    hide GoalShape;
    var open := g.question.Some? && g.question.value.answer.None?;
    MutateEnds(f, id, expected, ResumeEdit(g), now, true,
      Changed(g, now, if open then WaitingQuestion else Active, g.planRevision, g.items, g.question, g.run));
    hide MutateFile;
  }

  // Cancelling cancels the run with the goal; a completed goal cannot be cancelled, a cancelled one is left.
  lemma CancelEffect(f: GoalFile, id: string, expected: nat, now: int)
    requires id in f.goals
    ensures var g := f.goals[id].goal;
      var run :=
        if g.run.Some? then Some(GoalRun(g.run.value.runId, g.run.value.attempt, RunCancelled, g.run.value.continuedAt))
        else None;
      CallGoal(f, id, expected, Cancelling, now) ==
        if g.status == Cancelled then Reply(f, false, OkGoal(f.goals[id]))
        else
          Ends(f, id, expected, g.status != Completed,
            Changed(g, now, Cancelled, g.planRevision, g.items, g.question, run))
  {
    var g := f.goals[id].goal;
    hide GoalShape;
    var run :=
      if g.run.Some? then Some(GoalRun(g.run.value.runId, g.run.value.attempt, RunCancelled, g.run.value.continuedAt))
      else None;
    MutateEnds(f, id, expected, CancelEdit(g), now, g.status != Completed,
      Changed(g, now, Cancelled, g.planRevision, g.items, g.question, run));
    hide MutateFile;
  }

  /* Optimistic revisions. */

  // A call or completion that was written asked for the goal's own revision and made the next one.
  lemma WrittenAtItsRevision(f: GoalFile, ask: Ask)
    requires (ask.Calling? || ask.Finishing?) && Serve(f, ask).commit
    ensures ask.id in f.goals && ask.id in Serve(f, ask).file.goals
    ensures f.goals[ask.id].goal.revision == ask.expected
    ensures Serve(f, ask).file.goals[ask.id].goal.revision == Up(ask.expected, 0xFFFF_FFFF_FFFF_FFFF)
  {
    match ask
    case Calling(id, expected, call, now) =>
      CallCases(f, id, expected, call, now);
      hide CallGoal, EditOf, EarlyAnswer, CallAcceptable;
      if id in f.goals { WrittenEdit(f, id, expected, EditOf(f.goals[id].goal, call, now), now); }
    case Finishing(id, expected, graphId, evidence, now) =>
      hide AllCompleted, EvidenceBound, CompleteEdit, AllDone;
      if id in f.goals { WrittenEdit(f, id, expected, CompleteEdit(f.goals[id].goal, evidence), now); }
  }

  lemma WrittenEdit(f: GoalFile, id: string, expected: nat, edit: Edit, now: int)
    requires id in f.goals
    ensures var reply := MutateFile(f, id, expected, edit, now);
      reply.commit ==>
        && f.goals[id].goal.revision == expected && edit.Edited? && id in reply.file.goals
        && reply.file.goals[id].goal.revision == Up(edit.goal.revision, 0xFFFF_FFFF_FFFF_FFFF)
        && reply.file.goals[id].goal.updatedAt == now
  {
    hide GoalShape;
  }

  // No update is lost: of two requests for the same revision of the same goal, however many calls lie
  // between them, at most one is written.
  lemma NoUpdateIsLost(f: GoalFile, first: Ask, between: seq<Ask>, second: Ask)
    requires Kept(f)
    requires (first.Calling? || first.Finishing?) && (second.Calling? || second.Finishing?)
    requires first.id == second.id && first.expected == second.expected < 0xFFFF_FFFF_FFFF_FFFF
    requires Serve(f, first).commit
    ensures !Serve(ServeAll(Serve(f, first).file, between), second).commit
  {
    var g := Serve(f, first).file;
    ServeKeeps(f, first);
    ServeAllGrows(g, between);
    var h := ServeAll(g, between);
    WrittenAtItsRevision(f, first);
    RevisionGrows(g, h, first.id);
    hide Serve, Kept, Grows;
    if Serve(h, second).commit { WrittenAtItsRevision(h, second); }
  }

  lemma RevisionGrows(a: GoalFile, b: GoalFile, id: string)
    requires Grows(a, b) && id in a.goals
    ensures id in b.goals && b.goals[id].goal.revision >= a.goals[id].goal.revision
  {
    hide GraphsExtend;
  }

  lemma {:induction false} ServeAllGrows(f: GoalFile, asks: seq<Ask>)
    requires Kept(f)
    ensures Kept(ServeAll(f, asks)) && Grows(f, ServeAll(f, asks))
    decreases |asks|
  {
    hide Kept, Grows, Serve;
    GrowsSelf(f);
    if asks != [] {
      var front := asks[..|asks| - 1];
      ServeAllGrows(f, front);
      ServeKeeps(ServeAll(f, front), asks[|asks| - 1]);
      GrowsTransitive(f, ServeAll(f, front), ServeAll(f, asks));
    }
  }
}
