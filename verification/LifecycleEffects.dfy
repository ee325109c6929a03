/** What each observation makes of instances, tasks and idle time, field by field. */
module LifecycleEffects {
  import opened Basics
  import opened Lifecycles
  import opened LifecycleFacts

  // The process that owned the instance is known and gone, and the instance has not exited yet.
  predicate Abandoned(p: Projection, id: string, live: set<nat>) {
    && id in p.instances && p.instances[id].state != Exited
    && p.instances[id].ownerPid.Some? && p.instances[id].ownerPid.value !in live
  }

  ghost predicate Ended(t: Task, now: int) {
    !t.working && t.rootStop && t.tools == 0 && t.subagents == 0 && t.operations == 0 && t.observedAt == now
  }

  // Exactly the instances with an absent owner exit, with their tasks; one with a live owner, or with no
  // known owner, stays as it was.
  lemma ReconciliationExitsExactlyTheAbandoned(p: Projection, live: set<nat>, now: int)
    ensures var q := Reconcile(p, live, now);
      && q.instances.Keys == p.instances.Keys && q.tasks.Keys == p.tasks.Keys
      && q.connections == p.connections && q.idleSince == p.idleSince
      && (forall id :: id in p.instances ==>
            if Abandoned(p, id, live) then q.instances[id] == Instance(p.instances[id].ownerPid, Exited, now, Some(now))
            else q.instances[id] == p.instances[id])
      && (forall t :: t in p.tasks ==>
            if Abandoned(p, p.tasks[t].instanceId, live) then
              Ended(q.tasks[t], now) && q.tasks[t].instanceId == p.tasks[t].instanceId
            else q.tasks[t] == p.tasks[t])
  {
    forall id
      ensures id in Missing(p, live) <==> Abandoned(p, id, live)
    {}
    hide Missing, Abandoned;
  }

  lemma ExitEffect(p: Projection, id: string, now: int)
    requires id in p.instances
    ensures var q := InstanceExited(p, id, now);
      && q.instances == p.instances[id := Instance(p.instances[id].ownerPid, Exited, now, Some(now))]
      && q.tasks.Keys == p.tasks.Keys && q.connections == p.connections && q.idleSince == p.idleSince
      && (forall t :: t in p.tasks ==>
            if p.tasks[t].instanceId == id then Ended(q.tasks[t], now) && q.tasks[t].instanceId == id
            else q.tasks[t] == p.tasks[t])
  {
    hide Ended;
    var q := InstanceExited(p, id, now);
    assert q.instances == p.instances[id := Instance(p.instances[id].ownerPid, Exited, now, Some(now))];
    forall t | t in p.tasks && p.tasks[t].instanceId == id
      ensures Ended(q.tasks[t], now)
    {
      ClosedIsEnded(p.tasks[t], now);
    }
  }

  lemma ClosedIsEnded(t: Task, now: int)
    ensures Ended(Closed(t, now), now)
  {}

  // An exit is final: no observation brings an instance back.
  lemma {:induction false} ExitedStaysExited(p: Projection, calls: seq<Call>, id: string)
    requires id in p.instances && p.instances[id].state == Exited
    ensures id in Run(p, calls).instances && Run(p, calls).instances[id].state == Exited
    decreases |calls|
  {
    hide Next;
    if calls != [] {
      ExitedStaysExited(p, calls[..|calls| - 1], id);
      ExitedStep(Run(p, calls[..|calls| - 1]), calls[|calls| - 1], id);
    }
  }

  lemma ExitedStep(p: Projection, call: Call, id: string)
    requires id in p.instances && p.instances[id].state == Exited
    ensures id in Next(p, call).instances && Next(p, call).instances[id].state == Exited
  {
    hide Incremented, Decremented, IfQuiet, Prompted, Stopped, Closed, Count, Missing;
  }

  // An instance observed is known and active, unless it has exited; a known owner is kept where the
  // observation names none.
  lemma ObserveEffect(p: Projection, id: string, pid: Option<nat>, now: int)
    ensures var q := Observe(p, id, pid, now);
      && q.tasks == p.tasks && q.connections == p.connections && q.idleSince == p.idleSince
      && (id in p.instances && p.instances[id].state == Exited ==> q.instances == p.instances)
      && (!(id in p.instances && p.instances[id].state == Exited) ==>
            && q.instances.Keys == p.instances.Keys + {id}
            && q.instances[id].state == Active && q.instances[id].observedAt == now
            && q.instances[id].ownerPid ==
               (if pid.Some? then pid else if id in p.instances then p.instances[id].ownerPid else None)
            && (forall other :: other in p.instances && other != id ==> q.instances[other] == p.instances[other]))
  {
    var q := Observe(p, id, pid, now);
    if id in p.instances && p.instances[id].state == Exited {
      assert q.instances == p.instances;
    }
  }

  lemma DoubtEffect(p: Projection, id: string, now: int)
    ensures var q := BecameUnknown(p, id, now);
      && q.tasks == p.tasks && q.connections == p.connections && q.idleSince == p.idleSince
      && q.instances.Keys == p.instances.Keys
      && (forall other :: other in p.instances && (other != id || p.instances[other].state == Exited) ==>
            q.instances[other] == p.instances[other])
      && (id in p.instances && p.instances[id].state != Exited ==>
            q.instances[id].state == Unknown && q.instances[id].ownerPid == p.instances[id].ownerPid)
  {}

  // One task changes; what is said of it is about these fields.
  ghost predicate OnlyTask(p: Projection, q: Projection, taskId: string) {
    && taskId in q.tasks && q.tasks.Keys == p.tasks.Keys + {taskId}
    && (forall other :: other in p.tasks && other != taskId ==> q.tasks[other] == p.tasks[other])
  }

  ghost predicate Counters(t: Task, tools: nat, subagents: nat, operations: nat) {
    t.tools == tools && t.subagents == subagents && t.operations == operations
  }

  // A session makes a task known, at rest; one already known keeps its work.
  lemma SessionEffect(p: Projection, instanceId: string, taskId: string, pid: Option<nat>, now: int)
    ensures var q := Session(p, instanceId, taskId, pid, now);
      && OnlyTask(p, q, taskId) && q.idleSince == p.idleSince && q.connections == p.connections
      && q.instances == Observe(p, instanceId, pid, now).instances
      && var t := q.tasks[taskId];
         && t.instanceId == instanceId && t.observedAt == now
         && (taskId !in p.tasks ==> Counters(t, 0, 0, 0) && !t.working && !t.rootStop)
         && (taskId in p.tasks ==>
               var was := p.tasks[taskId];
               Counters(t, was.tools, was.subagents, was.operations) && t.working == was.working
                 && t.rootStop == was.rootStop)
  {
    hide Observed;
  }

  // A prompt puts the task to work, takes back its stop, and ends the idle period.
  lemma PromptEffect(p: Projection, instanceId: string, taskId: string, pid: Option<nat>, now: int)
    ensures var q := Prompt(p, instanceId, taskId, pid, now);
      && OnlyTask(p, q, taskId) && q.idleSince.None? && q.connections == p.connections
      && q.instances == Observe(p, instanceId, pid, now).instances
      && var t := q.tasks[taskId];
         && t.working && !t.rootStop && t.instanceId == instanceId && t.observedAt == now
         && (taskId !in p.tasks ==> Counters(t, 0, 0, 0))
         && (taskId in p.tasks ==> var was := p.tasks[taskId]; Counters(t, was.tools, was.subagents, was.operations))
  {
    hide Observed;
  }

  function Up(n: nat): nat {
    if n >= 0xFFFF_FFFF then 0xFFFF_FFFF else n + 1
  }

  // Activity that starts on a known task counts one up, of its own kind, and ends the idle period.
  lemma StartedEffect(p: Projection, taskId: string, activity: Activity, now: int)
    requires Invariant(p)
    ensures var q := Started(p, taskId, activity, now);
      && (taskId !in p.tasks ==> q == p)
      && (taskId in p.tasks ==>
            && OnlyTask(p, q, taskId) && q.idleSince.None? && q.instances == p.instances
              && q.connections == p.connections
            && var was, t := p.tasks[taskId], q.tasks[taskId];
               && t.working && t.rootStop == was.rootStop && t.instanceId == was.instanceId && t.observedAt == now
               && (activity == Tool ==> Counters(t, Up(was.tools), was.subagents, was.operations))
               && (activity == Subagent ==> Counters(t, was.tools, Up(was.subagents), was.operations))
               && (activity == Operation ==> Counters(t, was.tools, was.subagents, Up(was.operations))))
  {}

  // Activity that finishes counts one down; the task rests once it was stopped and nothing is left.
  lemma FinishedEffect(p: Projection, taskId: string, activity: Activity, now: int)
    ensures var q := Finished(p, taskId, activity, now);
      && q.idleSince == p.idleSince && q.instances == p.instances && q.connections == p.connections
      && (taskId !in p.tasks ==> q == p)
      && (taskId in p.tasks ==>
            && OnlyTask(p, q, taskId)
            && var was, t := p.tasks[taskId], q.tasks[taskId];
               && t.rootStop == was.rootStop && t.instanceId == was.instanceId
               && (activity == Tool && was.tools > 0 ==> Counters(t, was.tools - 1, was.subagents, was.operations))
               && (activity == Subagent && was.subagents > 0 ==>
                 Counters(t, was.tools, was.subagents - 1, was.operations))
               && (activity == Operation && was.operations > 0 ==>
                 Counters(t, was.tools, was.subagents, was.operations - 1))
               && (t != was ==> t.observedAt == now)
               && (t != was ==> t.working == (was.working && !(t.rootStop && Counters(t, 0, 0, 0)))))
  {}

  lemma RootStopEffect(p: Projection, taskId: string, now: int)
    ensures var q := RootStop(p, taskId, now);
      && q.idleSince == p.idleSince && q.instances == p.instances && q.connections == p.connections
      && (taskId !in p.tasks ==> q == p)
      && (taskId in p.tasks ==>
            && OnlyTask(p, q, taskId)
            && var was, t := p.tasks[taskId], q.tasks[taskId];
               && t.rootStop && t.observedAt == now && t.instanceId == was.instanceId
               && Counters(t, was.tools, was.subagents, was.operations)
               && t.working == (was.working && !Counters(t, 0, 0, 0)))
  {}

  // A connection is kept under its id with its task and instance, and is open until its end was seen.
  lemma ConnectionEffect(p: Projection, id: string, instanceId: string, taskId: Option<string>, pid: Option<nat>,
      now: int)
    ensures var q := Connect(p, id, instanceId, taskId, pid, now);
      && q == Observe(p, instanceId, pid, now).(connections := q.connections)
      && q.connections == p.connections[id := Connection(taskId, instanceId, true, now)]
    ensures var q := Eof(p, id, now);
      && q == p.(connections := q.connections)
      && (id !in p.connections ==> q == p)
      && (id in p.connections ==>
            q.connections ==
              p.connections[id := Connection(p.connections[id].taskId, p.connections[id].instanceId, false, now)])
  {
    hide Observed;
  }

  // The decision, told by the instances and tasks; the grace period is thirty seconds.
  lemma DecisionTable(p: Projection, now: int)
    ensures var d := Decide(p, now).1;
      var unknown := exists id :: id in p.instances && p.instances[id].state == Unknown;
      var working := exists id :: id in p.tasks && p.tasks[id].working;
      var gone := forall id :: id in p.instances ==> p.instances[id].state == Exited;
      && (d == BlockedByUnknownInstance <==> unknown)
      && (d == KeepAlive <==> !unknown && working)
      && (d == ShutdownNow <==>
            !unknown && !working && (gone || (p.idleSince.Some? && p.idleSince.value + 30_000 <= now)))
      && (d.IdleUntil? ==> d.deadline == (if p.idleSince.Some? then p.idleSince.value else now) + 30_000)
      && (Decide(p, now).0.idleSince ==
            if unknown || working || gone then None else if p.idleSince.Some? then p.idleSince else Some(now))
  {}

  /* Counting over runs. */

  predicate CountsUp(p: Projection, call: Call, taskId: string, activity: Activity) {
    call.Starts? && call.taskId == taskId && call.activity == activity && taskId in p.tasks
  }

  predicate CountsDown(p: Projection, call: Call, taskId: string, activity: Activity) {
    call.Finishes? && call.taskId == taskId && call.activity == activity && taskId in p.tasks
    && Count(p.tasks[taskId], activity) > 0
  }

  function BegunIn(p: Projection, calls: seq<Call>, taskId: string, activity: Activity): nat {
    if calls == [] then 0
    else
      var front := calls[..|calls| - 1];
      BegunIn(p, front, taskId, activity)
        + if CountsUp(Run(p, front), calls[|calls| - 1], taskId, activity) then 1 else 0
  }

  function Over(p: Projection, calls: seq<Call>, taskId: string, activity: Activity): nat {
    if calls == [] then 0
    else
      var front := calls[..|calls| - 1];
      Over(p, front, taskId, activity)
        + if CountsDown(Run(p, front), calls[|calls| - 1], taskId, activity) then 1 else 0
  }

  lemma CountStep(p: Projection, call: Call, taskId: string, activity: Activity)
    requires taskId in p.tasks && !call.Exits? && !call.Reconciles?
    ensures taskId in Next(p, call).tasks
    ensures var was, n := Count(p.tasks[taskId], activity), Count(Next(p, call).tasks[taskId], activity);
      && (CountsUp(p, call, taskId, activity) ==> n == if was < 0xFFFF_FFFF then was + 1 else 0xFFFF_FFFF)
      && (CountsDown(p, call, taskId, activity) ==> n == was - 1)
      && (!CountsUp(p, call, taskId, activity) && !CountsDown(p, call, taskId, activity) ==> n == was)
  {
    hide Observed;
  }

  // As long as no instance exits and the counter has room, what is running of an activity is what was
  // begun on the task less what is over, whatever else was observed in between.
  lemma {:induction false} RunningIsBegunLessOver(p: Projection, calls: seq<Call>, taskId: string, activity: Activity)
    requires taskId in p.tasks
    requires forall i :: 0 <= i < |calls| ==> !calls[i].Exits? && !calls[i].Reconciles?
    requires Count(p.tasks[taskId], activity) + BegunIn(p, calls, taskId, activity) <= 0xFFFF_FFFF
    ensures taskId in Run(p, calls).tasks
    ensures Count(Run(p, calls).tasks[taskId], activity) + Over(p, calls, taskId, activity) ==
      Count(p.tasks[taskId], activity) + BegunIn(p, calls, taskId, activity)
    decreases |calls|
  {
    hide Next, Count, CountsUp, CountsDown;
    if calls != [] {
      var front := calls[..|calls| - 1];
      assert forall i :: 0 <= i < |front| ==> front[i] == calls[i];
      RunningIsBegunLessOver(p, front, taskId, activity);
      CountStep(Run(p, front), calls[|calls| - 1], taskId, activity);
      UpOrDown(Run(p, front), calls[|calls| - 1], taskId, activity);
    }
  }

  lemma UpOrDown(p: Projection, call: Call, taskId: string, activity: Activity)
    ensures !(CountsUp(p, call, taskId, activity) && CountsDown(p, call, taskId, activity))
  {}
}
