/** What every observation keeps, and when the Controller shuts down over whole runs of observations. */
module LifecycleFacts {
  import opened Basics
  import opened Lifecycles

  datatype Call =
    | Sessions(instanceId: string, taskId: string, pid: Option<nat>, now: int)
    | Prompts(instanceId: string, taskId: string, pid: Option<nat>, now: int)
    | Starts(taskId: string, activity: Activity, now: int)
    | Finishes(taskId: string, activity: Activity, now: int)
    | Stops(taskId: string, now: int)
    | Connects(connectionId: string, instanceId: string, forTask: Option<string>, pid: Option<nat>, now: int)
    | Ends(connectionId: string, now: int)
    | Exits(instanceId: string, now: int)
    | Doubts(instanceId: string, now: int)
    | Reconciles(live: set<nat>, now: int)
    | Decides(now: int)

  function Next(p: Projection, call: Call): Projection {
    match call
    case Sessions(instanceId, taskId, pid, now) => Session(p, instanceId, taskId, pid, now)
    case Prompts(instanceId, taskId, pid, now) => Prompt(p, instanceId, taskId, pid, now)
    case Starts(taskId, activity, now) => Started(p, taskId, activity, now)
    case Finishes(taskId, activity, now) => Finished(p, taskId, activity, now)
    case Stops(taskId, now) => RootStop(p, taskId, now)
    case Connects(id, instanceId, taskId, pid, now) => Connect(p, id, instanceId, taskId, pid, now)
    case Ends(id, now) => Eof(p, id, now)
    case Exits(id, now) => InstanceExited(p, id, now)
    case Doubts(id, now) => BecameUnknown(p, id, now)
    case Reconciles(live, now) => Reconcile(p, live, now)
    case Decides(now) => Decide(p, now).0
  }

  function Run(p: Projection, calls: seq<Call>): Projection {
    if calls == [] then p else Next(Run(p, calls[..|calls| - 1]), calls[|calls| - 1])
  }

  /* Invariants. */

  predicate Busy(t: Task) {
    t.tools > 0 || t.subagents > 0 || t.operations > 0
  }

  predicate TaskOk(t: Task) {
    && (Busy(t) ==> t.working)
    && (t.working ==> !t.rootStop || Busy(t))
    && t.tools <= U32_MAX && t.subagents <= U32_MAX && t.operations <= U32_MAX
  }

  // A task with running activity is working, a working task still has a reason to, and while any task
  // is working the idle period has not begun.
  ghost predicate Invariant(p: Projection) {
    && (forall id :: id in p.tasks ==> TaskOk(p.tasks[id]))
    && (SomeWorking(p) ==> p.idleSince.None?)
  }

  lemma TaskStepsKeep(t: Task, activity: Activity, now: int)
    requires TaskOk(t)
    ensures TaskOk(Incremented(t, activity, now)) && TaskOk(Prompted(t, now)) && TaskOk(Closed(t, now))
    ensures TaskOk(IfQuiet(Stopped(t, now), now)) && (IfQuiet(Stopped(t, now), now).working ==> t.working)
    ensures Count(t, activity) > 0 ==>
      TaskOk(Decremented(t, activity, now)) && (Decremented(t, activity, now).working ==> t.working)
  {}

  // One task changes, and does not start to work unless the idle period ends.
  lemma WithTaskKeeps(p: Projection, id: string, t: Task, since: Option<int>)
    requires Invariant(p) && TaskOk(t)
    requires since.None? || (since == p.idleSince && (t.working ==> id in p.tasks && p.tasks[id].working))
    ensures Invariant(WithIdle(WithTask(p, id, t), since))
  {
    hide TaskOk;
    var q := WithIdle(WithTask(p, id, t), since);
    if since.Some? {
      assert !SomeWorking(p);
      forall w | w in q.tasks
        ensures !q.tasks[w].working
      {
        assert w != id ==> q.tasks[w] == p.tasks[w];
      }
    }
  }

  lemma OtherPartsKeep(p: Projection, q: Projection)
    requires Invariant(p) && q.tasks == p.tasks && q.idleSince == p.idleSince
    ensures Invariant(q)
  {
    hide TaskOk;
  }

  lemma SessionKeeps(p: Projection, instanceId: string, taskId: string, pid: Option<nat>, now: int)
    requires Invariant(p)
    ensures Invariant(Session(p, instanceId, taskId, pid, now))
  {
    var q := Observe(p, instanceId, pid, now);
    OtherPartsKeep(p, q);
    var t := if taskId in p.tasks then p.tasks[taskId] else NewTask(instanceId, now);
    assert TaskOk(t) && TaskOk(Begun(t, instanceId, now));
    WithTaskKeeps(q, taskId, Begun(t, instanceId, now), q.idleSince);
    assert WithIdle(WithTask(q, taskId, Begun(t, instanceId, now)), q.idleSince) ==
      Session(p, instanceId, taskId, pid, now);
  }

  lemma PromptKeeps(p: Projection, instanceId: string, taskId: string, pid: Option<nat>, now: int)
    requires Invariant(p)
    ensures Invariant(Prompt(p, instanceId, taskId, pid, now))
  {
    SessionKeeps(p, instanceId, taskId, pid, now);
    var q := Session(p, instanceId, taskId, pid, now);
    TaskStepsKeep(q.tasks[taskId], Tool, now);
    WithTaskKeeps(q, taskId, Prompted(q.tasks[taskId], now), None);
  }

  lemma ActivityKeeps(p: Projection, taskId: string, activity: Activity, now: int)
    requires Invariant(p)
    ensures Invariant(Started(p, taskId, activity, now)) && Invariant(Finished(p, taskId, activity, now))
    ensures Invariant(RootStop(p, taskId, now))
  {
    if taskId in p.tasks {
      var t := p.tasks[taskId];
      TaskStepsKeep(t, activity, now);
      hide TaskOk, Incremented, Decremented, IfQuiet, Count;
      WithTaskKeeps(p, taskId, Incremented(t, activity, now), None);
      WithTaskKeeps(p, taskId, IfQuiet(Stopped(t, now), now), p.idleSince);
      if Count(t, activity) > 0 { WithTaskKeeps(p, taskId, Decremented(t, activity, now), p.idleSince); }
    }
  }

  lemma ExitKeeps(p: Projection, ids: set<string>, now: int)
    requires Invariant(p)
    ensures Invariant(Exit(p, ids, now))
  {
    var q := Exit(p, ids, now);
    forall id | id in q.tasks
      ensures TaskOk(q.tasks[id])
    {
      TaskStepsKeep(p.tasks[id], Tool, now);
    }
    if SomeWorking(q) {
      var w :| w in q.tasks && q.tasks[w].working;
      assert p.tasks[w].working;
    }
  }

  lemma NextKeeps(p: Projection, call: Call)
    requires Invariant(p)
    ensures Invariant(Next(p, call))
  {
    hide Invariant;
    match call
    case Sessions(instanceId, taskId, pid, now) => SessionKeeps(p, instanceId, taskId, pid, now);
    case Prompts(instanceId, taskId, pid, now) => PromptKeeps(p, instanceId, taskId, pid, now);
    case Starts(taskId, activity, now) => ActivityKeeps(p, taskId, activity, now);
    case Finishes(taskId, activity, now) => ActivityKeeps(p, taskId, activity, now);
    case Stops(taskId, now) => ActivityKeeps(p, taskId, Tool, now);
    case Connects(id, instanceId, taskId, pid, now) => OtherPartsKeep(p, Connect(p, id, instanceId, taskId, pid, now));
    case Ends(id, now) => OtherPartsKeep(p, Eof(p, id, now));
    case Exits(id, now) => ExitKeeps(p, {id}, now);
    case Doubts(id, now) => OtherPartsKeep(p, BecameUnknown(p, id, now));
    case Reconciles(live, now) => ExitKeeps(p, Missing(p, live), now);
    case Decides(now) => DecideKeeps(p, now);
  }

  lemma DecideKeeps(p: Projection, now: int)
    requires Invariant(p)
    ensures Invariant(Decide(p, now).0)
  {
    hide TaskOk;
  }

  lemma {:induction false} RunKeeps(calls: seq<Call>)
    ensures Invariant(Run(Nothing, calls))
    decreases |calls|
  {
    if calls != [] {
      RunKeeps(calls[..|calls| - 1]);
      NextKeeps(Run(Nothing, calls[..|calls| - 1]), calls[|calls| - 1]);
    }
  }

  // In every reachable projection.
  lemma WorkIsAccountedFor(calls: seq<Call>, taskId: string)
    requires taskId in Run(Nothing, calls).tasks
    ensures var p := Run(Nothing, calls);
      var t := p.tasks[taskId];
      && (Busy(t) ==> t.working)
      && (t.working ==> (!t.rootStop || Busy(t)) && p.idleSince.None?)
  {
    RunKeeps(calls);
  }

  /* The idle period. */

  // Work begins on a task: a prompt, or activity on a task already known.
  predicate Wakes(p: Projection, call: Call) {
    call.Prompts? || (call.Starts? && call.taskId in p.tasks)
  }

  // A decision that found the Controller not idle.
  predicate Interrupts(p: Projection, call: Call) {
    call.Decides? && (SomeUnknown(p) || SomeWorking(p) || AllExited(p))
  }

  // The `i`-th call is the decision that began the idle period still running at the end of `calls`.
  ghost predicate IdleFrom(calls: seq<Call>, i: int) {
    && 0 <= i < |calls| && calls[i].Decides?
    && Decide(Run(Nothing, calls[..i]), calls[i].now).1 == IdleUntil(calls[i].now + 30_000)
    && (forall j :: i < j < |calls| ==> Undisturbed(calls, j))
  }

  ghost predicate Undisturbed(calls: seq<Call>, j: int)
    requires 0 <= j < |calls|
  {
    var p := Run(Nothing, calls[..j]);
    !Wakes(p, calls[j]) && !Interrupts(p, calls[j])
  }

  lemma IdleSinceChanges(p: Projection, call: Call)
    requires Next(p, call).idleSince.Some?
    ensures !Wakes(p, call) && !Interrupts(p, call)
    ensures Next(p, call).idleSince == p.idleSince
      || (p.idleSince.None? && call.Decides? && Next(p, call).idleSince == Some(call.now)
          && Decide(p, call.now).1 == IdleUntil(call.now + 30_000))
  {}

  lemma {:induction false} IdleBegan(calls: seq<Call>) returns (i: int)
    requires Run(Nothing, calls).idleSince.Some?
    ensures IdleFrom(calls, i) && Run(Nothing, calls).idleSince == Some(calls[i].now)
    decreases |calls|
  {
    var front := calls[..|calls| - 1];
    var last := calls[|calls| - 1];
    var p := Run(Nothing, front);
    IdleSinceChanges(p, last);
    hide Next, Wakes, Interrupts, Decide;
    if p.idleSince.Some? && Next(p, last).idleSince == p.idleSince {
      i := IdleBegan(front);
      assert calls[..i] == front[..i];
      forall j | i < j < |calls|
        ensures Undisturbed(calls, j)
      {
        if j < |front| { assert Undisturbed(front, j) && front[..j] == calls[..j]; }
      }
    } else {
      i := |calls| - 1;
    }
  }

  // Shutting down while some Codex instance has not exited was announced: an earlier decision, at least
  // the grace period before, said `IdleUntil`; since then no prompt arrived, no activity started on a known
  // task, and no decision found the Controller busy. Nothing is working, and no instance is unknown.
  lemma ShutdownRespectsTheLease(calls: seq<Call>, now: int) returns (i: int)
    requires Decide(Run(Nothing, calls), now).1 == ShutdownNow && !AllExited(Run(Nothing, calls))
    ensures IdleFrom(calls, i) && calls[i].now + 30_000 <= now
    ensures !SomeWorking(Run(Nothing, calls)) && !SomeUnknown(Run(Nothing, calls))
  {
    i := IdleBegan(calls);
  }

  // A run with neither work, nor interruptions, after its first call, and with no instance in doubt at its end.
  ghost predicate StaysIdle(p: Projection, calls: seq<Call>) {
    forall j :: 0 <= j < |calls| ==> !Wakes(Run(p, calls[..j]), calls[j]) && !Interrupts(Run(p, calls[..j]), calls[j])
  }

  lemma IdleStays(p: Projection, call: Call)
    requires Invariant(p) && p.idleSince.Some? && !Wakes(p, call) && !Interrupts(p, call)
    ensures Next(p, call).idleSince == p.idleSince
  {}

  lemma {:induction false} IdleLasts(p: Projection, calls: seq<Call>)
    requires Invariant(p) && p.idleSince.Some? && StaysIdle(p, calls)
    ensures Run(p, calls).idleSince == p.idleSince && Invariant(Run(p, calls))
    decreases |calls|
  {
    hide Invariant, Next, Wakes, Interrupts;
    if calls != [] {
      var front := calls[..|calls| - 1];
      forall j | 0 <= j < |front|
        ensures !Wakes(Run(p, front[..j]), front[j]) && !Interrupts(Run(p, front[..j]), front[j])
      {
        assert front[..j] == calls[..j] && front[j] == calls[j];
      }
      IdleLasts(p, front);
      IdleStays(Run(p, front), calls[|calls| - 1]);
      NextKeeps(Run(p, front), calls[|calls| - 1]);
    }
  }

  // The announced deadline is kept: if nothing disturbs the idle period, a decision at or after the
  // deadline shuts down, and one before it repeats the deadline, unless an instance is unknown by then.
  lemma AnnouncedDeadlineIsKept(p: Projection, deadline: int, announced: int, calls: seq<Call>, now: int)
    requires Invariant(p) && Decide(p, announced).1 == IdleUntil(deadline)
    requires StaysIdle(Decide(p, announced).0, calls)
    ensures var decision := Decide(Run(Decide(p, announced).0, calls), now).1;
      || decision == BlockedByUnknownInstance
      || decision == (if now >= deadline then ShutdownNow else IdleUntil(deadline))
      || (AllExited(Run(Decide(p, announced).0, calls)) && decision == ShutdownNow)
  {
    DecideKeeps(p, announced);
    IdleLasts(Decide(p, announced).0, calls);
  }

  // An open connection never keeps the Controller alive: whatever connections there are, the decision is
  // that of the same projection without them.
  lemma ConnectionsDoNotMatter(p: Projection, connections: map<string, Connection>, now: int)
    ensures Decide(p.(connections := connections), now).1 == Decide(p, now).1
  {
    var q := p.(connections := connections);
    assert SomeUnknown(q) <==> SomeUnknown(p);
    assert SomeWorking(q) <==> SomeWorking(p);
    assert AllExited(q) <==> AllExited(p);
  }
}
