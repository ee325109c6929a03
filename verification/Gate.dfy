/**
 The concurrency gate: all locks of a request and one place for its tool are taken together or not at all.
 The value-level steps, and the object that performs them in place.
 */
module Gates {
  import opened Basics

  type u16 = n: nat | n <= U16_MAX

  datatype Lock = Lock(scopeKind: string, projectId: Option<string>, toolId: string, lockHash: string)

  datatype Request = Request(tool: string, maxParallel: u16, locks: seq<Lock>)

  // A lease holds its locks sorted and without duplicates: a set.
  datatype Lease = Lease(tool: string, locks: set<Lock>)

  datatype Gate = Gate(active: map<string, nat>, held: set<Lock>)

  const OpenGate := Gate(map[], {})

  function Active(active: map<string, nat>, tool: string): nat {
    if tool in active then active[tool] else 0
  }

  function Limit(r: Request): nat {
    if r.maxParallel == 0 then 1 else r.maxParallel
  }

  function LeaseOf(r: Request): Lease {
    Lease(r.tool, set l | l in r.locks)
  }

  predicate Grantable(g: Gate, r: Request) {
    Active(g.active, r.tool) < Limit(r) && LeaseOf(r).locks !! g.held
  }

  function Granted(g: Gate, lease: Lease): Gate {
    Gate(g.active[lease.tool := Active(g.active, lease.tool) + 1], g.held + lease.locks)
  }

  function Without(active: map<string, nat>, tool: string): map<string, nat> {
    if tool !in active then active
    else if active[tool] <= 1 then active - {tool}
    else active[tool := active[tool] - 1]
  }

  function Released(g: Gate, lease: Lease): Gate {
    Gate(Without(g.active, lease.tool), g.held - lease.locks)
  }

  function Asked(g: Gate, r: Request): Gate {
    if Grantable(g, r) then Granted(g, LeaseOf(r)) else g
  }

  /* What other users of the gate do while one waiter sleeps. */

  datatype Move = Ask(request: Request) | Release(lease: Lease)

  function Moved(g: Gate, move: Move): Gate {
    match move
    case Ask(request) => Asked(g, request)
    case Release(lease) => Released(g, lease)
  }

  function AllMoved(g: Gate, moves: seq<Move>): Gate {
    if moves == [] then g else Moved(AllMoved(g, moves[..|moves| - 1]), moves[|moves| - 1])
  }

  // The gate after so many sleeps, if the waiter itself does nothing.
  function AfterSleeps(g: Gate, meanwhile: seq<seq<Move>>, sleeps: nat): Gate
    requires sleeps <= |meanwhile|
  {
    if sleeps == 0 then g else AllMoved(AfterSleeps(g, meanwhile, sleeps - 1), meanwhile[sleeps - 1])
  }

  class ConcurrencyGate {
    var active: map<string, nat>
    var held: set<Lock>

    ghost function Value(): Gate
      reads this
    {
      Gate(active, held)
    }

    // No counter is at the end of its 16 bits.
    ghost predicate Valid()
      reads this
    {
      forall tool :: tool in active ==> 0 < active[tool] <= U16_MAX
    }

    constructor ()
      ensures Value() == OpenGate && Valid()
    {
      active, held := map[], {};
    }

    // One look at the gate under its mutex. The counter cannot overflow: it is below the request's limit.
    method Poll(request: Request) returns (lease: Option<Lease>)
      requires Valid()
      modifies this
      ensures Valid()
      ensures lease == if Grantable(old(Value()), request) then Some(LeaseOf(request)) else None
      ensures Value() == if lease.Some? then Granted(old(Value()), lease.value) else old(Value())
      ensures lease.Some? <==>
        && Active(old(active), request.tool) < (if request.maxParallel >= 1 then request.maxParallel else 1)
        && forall l :: l in request.locks ==> l !in old(held)
      ensures lease.Some? ==> lease.value.tool == request.tool && forall l :: l in lease.value.locks <==>
        l in request.locks
      ensures lease.Some? ==> forall l :: l in held <==> l in old(held) || l in request.locks
    {
      var places := Active(active, request.tool);
      var free := true;
      var i := 0;
      while i < |request.locks|
        invariant 0 <= i <= |request.locks|
        invariant free <==> forall k :: 0 <= k < i ==> request.locks[k] !in held
      {
        if request.locks[i] in held { free := false; }
        i := i + 1;
      }
      assert free <==> LeaseOf(request).locks !! held;
      if places < Limit(request) && free {
        active := active[request.tool := places + 1];
        held := held + LeaseOf(request).locks;
        return Some(LeaseOf(request));
      }
      lease := None;
    }

    // Looks, and sleeps until it may look again, for as many sleeps as the time allows. The request is
    // granted at the first look that finds it grantable; a timeout leaves the gate to the others.
    method Acquire(request: Request, meanwhile: seq<seq<Move>>) returns (lease: Option<Lease>, sleeps: nat)
      requires Valid()
      modifies this
      ensures Valid() && sleeps <= |meanwhile|
      ensures forall k :: 0 <= k < sleeps ==> !Grantable(AfterSleeps(old(Value()), meanwhile, k), request)
      ensures lease == if Grantable(AfterSleeps(old(Value()), meanwhile, sleeps), request) then Some(LeaseOf(request))
        else None
      ensures lease.None? ==> sleeps == |meanwhile|
      ensures Value() == Asked(AfterSleeps(old(Value()), meanwhile, sleeps), request)
      ensures lease.Some? ==> lease.value.tool == request.tool && forall l :: l in lease.value.locks <==>
        l in request.locks
    {
      sleeps := 0;
      ghost var before := Value();
      while true
        invariant Valid() && sleeps <= |meanwhile| && Value() == AfterSleeps(before, meanwhile, sleeps)
        invariant forall k :: 0 <= k < sleeps ==> !Grantable(AfterSleeps(before, meanwhile, k), request)
        decreases |meanwhile| - sleeps
      {
        lease := Poll(request);
        if lease.Some? || sleeps == |meanwhile| { return; }
        OthersMove(meanwhile[sleeps]);
        sleeps := sleeps + 1;
      }
    }

    method OthersMove(moves: seq<Move>)
      requires Valid()
      modifies this
      ensures Valid() && Value() == AllMoved(old(Value()), moves)
    {
      var i := 0;
      ghost var before := Value();
      while i < |moves|
        invariant 0 <= i <= |moves| && Valid() && Value() == AllMoved(before, moves[..i])
      {
        assert moves[..i + 1][..i] == moves[..i];
        match moves[i] {
          case Ask(request) => var _ := Poll(request);
          case Release(lease) => Drop(lease);
        }
        i := i + 1;
      }
      assert moves[..i] == moves;
    }

    // The end of a lease: its locks are given back one by one, then its place.
    method Drop(lease: Lease)
      requires Valid()
      modifies this
      ensures Valid() && Value() == Released(old(Value()), lease)
    {
      var rest := lease.locks;
      while rest != {}
        invariant rest <= lease.locks && active == old(active)
        invariant held == old(held) - (lease.locks - rest)
        decreases |rest|
      {
        var l :| l in rest;
        held := held - {l};
        rest := rest - {l};
      }
      if lease.tool in active {
        if active[lease.tool] <= 1 {
          active := active - {lease.tool};
        } else {
          active := active[lease.tool := active[lease.tool] - 1];
        }
      }
    }
  }
}
