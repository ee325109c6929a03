/**
 The projection of observed Codex activity that decides when the Controller may shut down: the value-level
 calls, and the object that carries them out in place. Times are milliseconds.
 */
module Lifecycles {
  import opened Basics

  const GRACE := 30000

  datatype InstanceState = Active | Unknown | Exited

  datatype Instance = Instance(ownerPid: Option<nat>, state: InstanceState, observedAt: int, exitedAt: Option<int>)

  datatype Task = Task(instanceId: string, observedAt: int, rootStop: bool, tools: nat, subagents: nat,
      operations: nat, working: bool)

  datatype Connection = Connection(taskId: Option<string>, instanceId: string, connected: bool, observedAt: int)

  datatype Activity = Tool | Subagent | Operation

  datatype Decision = KeepAlive | IdleUntil(deadline: int) | ShutdownNow | BlockedByUnknownInstance

  datatype Projection = Projection(instances: map<string, Instance>, tasks: map<string, Task>,
    connections: map<string, Connection>, idleSince: Option<int>)

  const Nothing := Projection(map[], map[], map[], None)

  /* One instance, one task. */

  function Observed(i: Instance, pid: Option<nat>, now: int): Instance {
    if i.state.Exited? then i else Instance(if pid.Some? then pid else i.ownerPid, Active, now, i.exitedAt)
  }

  function NewTask(instanceId: string, now: int): Task {
    Task(instanceId, now, false, 0, 0, 0, false)
  }

  function Begun(t: Task, instanceId: string, now: int): Task {
    t.(instanceId := instanceId, observedAt := now)
  }

  function Prompted(t: Task, now: int): Task {
    t.(rootStop := false, working := true, observedAt := now)
  }

  function Count(t: Task, activity: Activity): nat {
    match activity
    case Tool => t.tools
    case Subagent => t.subagents
    case Operation => t.operations
  }

  function WithCount(t: Task, activity: Activity, n: nat): Task {
    match activity
    case Tool => t.(tools := n)
    case Subagent => t.(subagents := n)
    case Operation => t.(operations := n)
  }

  function Awake(t: Task, now: int): Task {
    t.(working := true, observedAt := now)
  }

  function Touched(t: Task, now: int): Task {
    t.(observedAt := now)
  }

  predicate Quiet(t: Task) {
    t.rootStop && t.tools == 0 && t.subagents == 0 && t.operations == 0
  }

  function IfQuiet(t: Task, now: int): Task {
    if Quiet(t) then t.(working := false, observedAt := now) else t
  }

  function Incremented(t: Task, activity: Activity, now: int): Task {
    Awake(WithCount(t, activity, SaturatingSucc(Count(t, activity), U32_MAX)), now)
  }

  function Decremented(t: Task, activity: Activity, now: int): Task
    requires Count(t, activity) > 0
  {
    IfQuiet(Touched(WithCount(t, activity, Count(t, activity) - 1), now), now)
  }

  function Stopped(t: Task, now: int): Task {
    t.(rootStop := true, observedAt := now)
  }

  function Closed(t: Task, now: int): Task {
    Task(t.instanceId, now, true, 0, 0, 0, false)
  }

  function Gone(i: Instance, now: int): Instance {
    i.(state := Exited, observedAt := now, exitedAt := Some(now))
  }

  /* The projection. */

  function WithInstance(p: Projection, id: string, i: Instance): Projection {
    p.(instances := p.instances[id := i])
  }

  function WithTask(p: Projection, id: string, t: Task): Projection {
    p.(tasks := p.tasks[id := t])
  }

  function WithIdle(p: Projection, since: Option<int>): Projection {
    p.(idleSince := since)
  }

  function Observe(p: Projection, id: string, pid: Option<nat>, now: int): Projection {
    WithInstance(p, id, Observed(if id in p.instances then p.instances[id]
      else Instance(pid, Active, now, None), pid, now))
  }

  function Session(p: Projection, instanceId: string, taskId: string, pid: Option<nat>, now: int): Projection {
    WithTask(Observe(p, instanceId, pid, now), taskId,
      Begun(if taskId in p.tasks then p.tasks[taskId] else NewTask(instanceId, now), instanceId, now))
  }

  function Prompt(p: Projection, instanceId: string, taskId: string, pid: Option<nat>, now: int): Projection {
    var q := Session(p, instanceId, taskId, pid, now);
    WithIdle(WithTask(q, taskId, Prompted(q.tasks[taskId], now)), None)
  }

  function Started(p: Projection, taskId: string, activity: Activity, now: int): Projection {
    if taskId !in p.tasks then p
    else WithIdle(WithTask(p, taskId, Incremented(p.tasks[taskId], activity, now)), None)
  }

  function Finished(p: Projection, taskId: string, activity: Activity, now: int): Projection {
    if taskId !in p.tasks || Count(p.tasks[taskId], activity) == 0 then p
    else WithTask(p, taskId, Decremented(p.tasks[taskId], activity, now))
  }

  function RootStop(p: Projection, taskId: string, now: int): Projection {
    if taskId !in p.tasks then p else WithTask(p, taskId, IfQuiet(Stopped(p.tasks[taskId], now), now))
  }

  function WithConnection(p: Projection, id: string, c: Connection): Projection {
    p.(connections := p.connections[id := c])
  }

  function Connect(p: Projection, id: string, instanceId: string, taskId: Option<string>, pid: Option<nat>,
      now: int): Projection {
    WithConnection(Observe(p, instanceId, pid, now), id, Connection(taskId, instanceId, true, now))
  }

  function Eof(p: Projection, id: string, now: int): Projection {
    if id !in p.connections then p
    else WithConnection(p, id, Connection(p.connections[id].taskId, p.connections[id].instanceId, false, now))
  }

  function GoneInstances(instances: map<string, Instance>, ids: set<string>, now: int): map<string, Instance> {
    map id | id in instances :: if id in ids then Gone(instances[id], now) else instances[id]
  }

  function ClosedTasks(tasks: map<string, Task>, ids: set<string>, now: int): map<string, Task> {
    map id | id in tasks :: if tasks[id].instanceId in ids then Closed(tasks[id], now) else tasks[id]
  }

  // All of the instances exit, and every task of theirs is closed.
  function Exit(p: Projection, ids: set<string>, now: int): Projection {
    Projection(GoneInstances(p.instances, ids, now), ClosedTasks(p.tasks, ids, now), p.connections, p.idleSince)
  }

  function InstanceExited(p: Projection, id: string, now: int): Projection {
    if id in p.instances then Exit(p, {id}, now) else p
  }

  function Doubted(i: Instance, now: int): Instance {
    if i.state.Exited? then i else i.(state := Unknown, observedAt := now)
  }

  function BecameUnknown(p: Projection, id: string, now: int): Projection {
    if id in p.instances then WithInstance(p, id, Doubted(p.instances[id], now)) else p
  }

  // Instances whose attributed owner process is not among the live ones.
  function Missing(p: Projection, live: set<nat>): set<string> {
    set id | id in p.instances && !p.instances[id].state.Exited?
      && p.instances[id].ownerPid.Some? && p.instances[id].ownerPid.value !in live
  }

  function Reconcile(p: Projection, live: set<nat>, now: int): Projection {
    Exit(p, Missing(p, live), now)
  }

  predicate SomeUnknown(p: Projection) {
    exists id :: id in p.instances && p.instances[id].state.Unknown?
  }

  predicate SomeWorking(p: Projection) {
    exists id :: id in p.tasks && p.tasks[id].working
  }

  predicate AllExited(p: Projection) {
    forall id :: id in p.instances ==> p.instances[id].state.Exited?
  }

  function Decide(p: Projection, now: int): (Projection, Decision) {
    if SomeUnknown(p) then (WithIdle(p, None), BlockedByUnknownInstance)
    else if SomeWorking(p) then (WithIdle(p, None), KeepAlive)
    else if AllExited(p) then (WithIdle(p, None), ShutdownNow)
    else
      var since := if p.idleSince.Some? then p.idleSince.value else now;
      (WithIdle(p, Some(since)), if now >= since + GRACE then ShutdownNow else IdleUntil(since + GRACE))
  }

  /* The object. */

  class CodexLifecycle {
    var instances: map<string, Instance>
    var tasks: map<string, Task>
    var connections: map<string, Connection>
    var idleSince: Option<int>

    ghost function Value(): Projection
      reads this
    {
      Projection(instances, tasks, connections, idleSince)
    }

    constructor ()
      ensures Value() == Nothing
    {
      instances, tasks, connections, idleSince := map[], map[], map[], None;
    }

    method ObserveInstance(id: string, pid: Option<nat>, now: int)
      modifies this`instances
      ensures Value() == Observe(old(Value()), id, pid, now)
    {
      if id !in instances { instances := instances[id := Instance(pid, Active, now, None)]; }
      var instance := instances[id];
      if !instance.state.Exited? {
        if pid.Some? { instance := instance.(ownerPid := pid); }
        instance := instance.(state := Active);
        instance := instance.(observedAt := now);
      }
      instances := instances[id := instance];
    }

    method SessionStarted(instanceId: string, taskId: string, pid: Option<nat>, now: int)
      modifies this`instances, this`tasks
      ensures Value() == Session(old(Value()), instanceId, taskId, pid, now)
    {
      ObserveInstance(instanceId, pid, now);
      if taskId !in tasks { tasks := tasks[taskId := NewTask(instanceId, now)]; }
      var task := tasks[taskId];
      task := task.(instanceId := instanceId);
      task := task.(observedAt := now);
      tasks := tasks[taskId := task];
    }

    method UserPromptSubmitted(instanceId: string, taskId: string, pid: Option<nat>, now: int)
      modifies this
      ensures Value() == Prompt(old(Value()), instanceId, taskId, pid, now)
    {
      SessionStarted(instanceId, taskId, pid, now);
      var task := tasks[taskId];
      task := task.(rootStop := false);
      task := task.(working := true);
      task := task.(observedAt := now);
      tasks := tasks[taskId := task];
      idleSince := None;
    }

    method ActivityStarted(taskId: string, activity: Activity, now: int) returns (known: bool)
      modifies this`tasks, this`idleSince
      ensures Value() == Started(old(Value()), taskId, activity, now)
      ensures known <==> taskId in old(tasks)
    {
      if taskId !in tasks { return false; }
      var task := tasks[taskId];
      match activity {
        case Tool => task := task.(tools := SaturatingSucc(task.tools, U32_MAX));
        case Subagent => task := task.(subagents := SaturatingSucc(task.subagents, U32_MAX));
        case Operation => task := task.(operations := SaturatingSucc(task.operations, U32_MAX));
      }
      task := task.(working := true);
      task := task.(observedAt := now);
      tasks := tasks[taskId := task];
      idleSince := None;
      known := true;
    }

    method ActivityFinished(taskId: string, activity: Activity, now: int) returns (counted: bool)
      modifies this`tasks
      ensures Value() == Finished(old(Value()), taskId, activity, now)
      ensures counted <==> taskId in old(tasks) && Count(old(tasks)[taskId], activity) > 0
    {
      if taskId !in tasks || Count(tasks[taskId], activity) == 0 { return false; }
      var task := tasks[taskId];
      match activity {
        case Tool => task := task.(tools := task.tools - 1);
        case Subagent => task := task.(subagents := task.subagents - 1);
        case Operation => task := task.(operations := task.operations - 1);
      }
      task := task.(observedAt := now);
      tasks := tasks[taskId := task];
      FinishIfQuiet(taskId, now);
      counted := true;
    }

    method FinishIfQuiet(taskId: string, now: int)
      modifies this`tasks
      ensures tasks == if taskId in old(tasks) then old(tasks)[taskId := IfQuiet(old(tasks)[taskId], now)]
        else old(tasks)
    {
      if taskId !in tasks { return; }
      var task := tasks[taskId];
      if task.rootStop && task.tools == 0 && task.subagents == 0 && task.operations == 0 {
        task := task.(working := false);
        task := task.(observedAt := now);
        tasks := tasks[taskId := task];
      }
    }

    method RootStopped(taskId: string, now: int) returns (known: bool)
      modifies this`tasks
      ensures Value() == RootStop(old(Value()), taskId, now)
      ensures known <==> taskId in old(tasks)
    {
      if taskId !in tasks { return false; }
      var task := tasks[taskId];
      task := task.(rootStop := true);
      task := task.(observedAt := now);
      tasks := tasks[taskId := task];
      FinishIfQuiet(taskId, now);
      known := true;
    }

    method McpInitialized(id: string, instanceId: string, taskId: Option<string>, pid: Option<nat>, now: int)
      modifies this`instances, this`connections
      ensures Value() == Connect(old(Value()), id, instanceId, taskId, pid, now)
    {
      ObserveInstance(instanceId, pid, now);
      connections := connections[id := Connection(taskId, instanceId, true, now)];
    }

    method McpEof(id: string, now: int) returns (known: bool)
      modifies this`connections
      ensures Value() == Eof(old(Value()), id, now)
      ensures known <==> id in old(connections)
    {
      if id !in connections { return false; }
      connections := connections[id := Connection(connections[id].taskId, connections[id].instanceId, false, now)];
      known := true;
    }

    // Closes the tasks of the instance one by one.
    method CloseTasks(id: string, now: int)
      modifies this`tasks
      ensures tasks == ClosedTasks(old(tasks), {id}, now)
    {
      var pending := tasks.Keys;
      while pending != {}
        invariant pending <= tasks.Keys && Closing(old(tasks), tasks, pending, id, now)
        decreases |pending|
      {
        var t :| t in pending;
        if tasks[t].instanceId == id { tasks := tasks[t := Closed(tasks[t], now)]; }
        pending := pending - {t};
      }
    }

    method MarkExited(id: string, now: int) returns (known: bool)
      modifies this`instances, this`tasks
      ensures Value() == InstanceExited(old(Value()), id, now)
      ensures known <==> id in old(instances)
    {
      if id !in instances { return false; }
      instances := instances[id := Gone(instances[id], now)];
      assert instances == GoneInstances(old(instances), {id}, now);
      hide ClosedTasks, GoneInstances, Gone, Closed;
      CloseTasks(id, now);
      known := true;
    }

    method MarkUnknown(id: string, now: int) returns (known: bool)
      modifies this`instances
      ensures Value() == BecameUnknown(old(Value()), id, now)
      ensures known <==> id in old(instances)
    {
      if id !in instances { return false; }
      var instance := instances[id];
      if !instance.state.Exited? {
        instance := instance.(state := Unknown);
        instance := instance.(observedAt := now);
      }
      instances := instances[id := instance];
      known := true;
    }

    method OwnersMissing(live: set<nat>) returns (missing: set<string>)
      ensures missing == Missing(Value(), live) && missing <= instances.Keys
    {
      missing := set id | id in instances && !instances[id].state.Exited?
        && instances[id].ownerPid.Some? && instances[id].ownerPid.value !in live;
    }

    // Every instance whose owner is missing exits, one after the other.
    method ReconcileOwners(live: set<nat>, now: int) returns (changed: bool)
      modifies this`instances, this`tasks
      ensures Value() == Reconcile(old(Value()), live, now)
      ensures changed <==> Missing(old(Value()), live) != {}
    {
      hide Exit, Missing, InstanceExited;
      var missing := OwnersMissing(live);
      var pending := missing;
      changed := false;
      ghost var before := Value();
      ExitNobody(before, now);
      assert missing - pending == {};
      while pending != {}
        invariant pending <= missing
        invariant Value() == Exit(before, missing - pending, now)
        invariant changed <==> pending != missing
        decreases |pending|
      {
        var id :| id in pending;
        ExitStep(before, missing, pending, id, now);
        var known := MarkExited(id, now);
        changed := changed || known;
        pending := pending - {id};
      }
      assert missing - pending == missing;
    }

    method MakeDecision(now: int) returns (decision: Decision)
      modifies this`idleSince
      ensures (Value(), decision) == Decide(old(Value()), now)
    {
      if exists id :: id in instances && instances[id].state.Unknown? {
        idleSince := None;
        return BlockedByUnknownInstance;
      }
      if exists id :: id in tasks && tasks[id].working {
        idleSince := None;
        return KeepAlive;
      }
      if forall id :: id in instances ==> instances[id].state.Exited? {
        idleSince := None;
        return ShutdownNow;
      }
      if idleSince.None? { idleSince := Some(now); }
      var deadline := idleSince.value + GRACE;
      decision := if now >= deadline then ShutdownNow else IdleUntil(deadline);
    }
  }

  ghost predicate Closing(before: map<string, Task>, tasks: map<string, Task>, pending: set<string>, id: string,
      now: int) {
    && tasks.Keys == before.Keys
    && (forall t :: t in pending && t in before ==> tasks[t] == before[t])
    && (forall t :: t in before && t !in pending ==>
          tasks[t] == if before[t].instanceId == id then Closed(before[t], now) else before[t])
  }

  lemma ExitStep(p: Projection, missing: set<string>, pending: set<string>, id: string, now: int)
    requires id in pending && pending <= missing <= p.instances.Keys
    ensures id in Exit(p, missing - pending, now).instances
    ensures InstanceExited(Exit(p, missing - pending, now), id, now) == Exit(p, missing - (pending - {id}), now)
  {
    assert missing - pending + {id} == missing - (pending - {id});
    ExitOneMore(p, missing - pending, id, now);
  }

  lemma ExitNobody(p: Projection, now: int)
    ensures Exit(p, {}, now) == p
  {
    assert Exit(p, {}, now).instances == p.instances && Exit(p, {}, now).tasks == p.tasks;
  }

  lemma ExitOneMore(p: Projection, ids: set<string>, id: string, now: int)
    requires id in p.instances && id !in ids
    ensures InstanceExited(Exit(p, ids, now), id, now) == Exit(p, ids + {id}, now)
  {
    var a, b := InstanceExited(Exit(p, ids, now), id, now), Exit(p, ids + {id}, now);
    assert a.instances == b.instances;
    assert a.tasks == b.tasks;
  }
}
