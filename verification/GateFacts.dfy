/** The gate's state is exactly the ledger of its live leases, over every run of grants and drops. */
module GateFacts {
  import opened Basics
  import opened Gates

  /* The ledger: the requests whose leases are live. */

  function Places(live: seq<Request>, tool: string): nat {
    if live == [] then 0 else (if live[0].tool == tool then 1 else 0) + Places(live[1..], tool)
  }

  function Held(live: seq<Request>): set<Lock> {
    set i, l | 0 <= i < |live| && l in live[i].locks :: l
  }

  // No lock was asked for by two of the live requests.
  predicate Disjoint(live: seq<Request>) {
    forall i, j, l :: 0 <= i < j < |live| && l in live[i].locks ==> l !in live[j].locks
  }

  ghost predicate Ledger(g: Gate, live: seq<Request>) {
    && g.held == Held(live) && Disjoint(live)
    && (forall tool :: Active(g.active, tool) == Places(live, tool) <= U16_MAX)
    && (forall tool :: tool in g.active ==> g.active[tool] > 0)
  }

  lemma {:induction false} PlacesAppend(a: seq<Request>, b: seq<Request>, tool: string)
    ensures Places(a + b, tool) == Places(a, tool) + Places(b, tool)
    decreases |a|
  {
    if a == [] {
      assert a + b == b;
    } else {
      assert (a + b)[1..] == a[1..] + b;
      PlacesAppend(a[1..], b, tool);
    }
  }

  function Dropped(live: seq<Request>, i: nat): seq<Request>
    requires i < |live|
  {
    live[..i] + live[i + 1..]
  }

  lemma PlacesDropped(live: seq<Request>, i: nat, tool: string)
    requires i < |live|
    ensures Places(live, tool) == Places(Dropped(live, i), tool) + if live[i].tool == tool then 1 else 0
  {
    PlacesAppend(live[..i], live[i + 1..], tool);
    PlacesAppend(live[..i], [live[i]] + live[i + 1..], tool);
    assert live == live[..i] + ([live[i]] + live[i + 1..]);
    assert ([live[i]] + live[i + 1..])[1..] == live[i + 1..];
  }

  /* Grants and drops. */

  // A lease is for the tool and exactly the locks of its request.
  lemma LeasesHoldWhatWasAsked(r: Request)
    ensures LeaseOf(r).tool == r.tool && forall l :: l in LeaseOf(r).locks <==> l in r.locks
  {}

  lemma HeldAppended(live: seq<Request>, r: Request)
    ensures Held(live + [r]) == Held(live) + LeaseOf(r).locks
  {
    LeasesHoldWhatWasAsked(r);
    hide LeaseOf;
    var all := live + [r];
    forall l
      ensures l in Held(all) <==> l in Held(live) + LeaseOf(r).locks
    {
      if l in r.locks { assert l in all[|live|].locks; }
      if l in Held(live) {
        var i :| 0 <= i < |live| && l in live[i].locks;
        assert l in all[i].locks;
      }
    }
  }

  lemma GrantKeepsLedger(g: Gate, live: seq<Request>, r: Request)
    requires Ledger(g, live) && Grantable(g, r)
    ensures Ledger(Granted(g, LeaseOf(r)), live + [r])
  {
    HeldAppended(live, r);
    LeasesHoldWhatWasAsked(r);
    hide LeaseOf;
    var all := live + [r];
    forall i, j, l | 0 <= i < j < |all| && l in all[i].locks
      ensures l !in all[j].locks
    {
      if j == |live| { assert l in Held(live); }
    }
    forall tool
      ensures Active(Granted(g, LeaseOf(r)).active, tool) == Places(all, tool) <= U16_MAX
    {
      PlacesAppend(live, [r], tool);
      assert [r][1..] == [];
      assert Active(g.active, tool) == Places(live, tool) <= U16_MAX;
    }
  }

  lemma HeldDropped(live: seq<Request>, i: nat)
    requires i < |live| && Disjoint(live)
    ensures Held(Dropped(live, i)) == Held(live) - LeaseOf(live[i]).locks
  {
    LeasesHoldWhatWasAsked(live[i]);
    hide LeaseOf;
    var rest := Dropped(live, i);
    forall l
      ensures l in Held(rest) <==> l in Held(live) - LeaseOf(live[i]).locks
    {
      if l in Held(rest) {
        var k :| 0 <= k < |rest| && l in rest[k].locks;
        var at := if k < i then k else k + 1;
        assert live[at] == rest[k];
      }
      if l in Held(live) && l !in live[i].locks {
        var k :| 0 <= k < |live| && l in live[k].locks;
        assert rest[if k < i then k else k - 1] == live[k];
      }
    }
  }

  lemma DropKeepsLedger(g: Gate, live: seq<Request>, i: nat)
    requires Ledger(g, live) && i < |live|
    ensures Ledger(Released(g, LeaseOf(live[i])), Dropped(live, i))
  {
    var rest := Dropped(live, i);
    HeldDropped(live, i);
    LeasesHoldWhatWasAsked(live[i]);
    hide LeaseOf;
    forall a, b, l | 0 <= a < b < |rest| && l in rest[a].locks
      ensures l !in rest[b].locks
    {
      assert rest[a] == live[if a < i then a else a + 1] && rest[b] == live[if b < i then b else b + 1];
    }
    var tool := live[i].tool;
    forall t
      ensures Active(Released(g, LeaseOf(live[i])).active, t) == Places(rest, t) <= U16_MAX
    {
      PlacesDropped(live, i, t);
      PlacesDropped(live, i, tool);
      assert Active(g.active, t) == Places(live, t) && Active(g.active, tool) == Places(live, tool);
    }
  }

  // With no lease left the gate is as it was made.
  lemma EmptyLedger(g: Gate)
    requires Ledger(g, [])
    ensures g == OpenGate
  {
    forall tool
      ensures tool !in g.active
    {
      assert Active(g.active, tool) == Places([], tool);
    }
    assert g.active == map[];
  }

  // How many places a request leaves to its tool: at least one.
  function Allowed(r: Request): nat {
    if r.maxParallel >= 1 then r.maxParallel else 1
  }

  // What a request needs, told by the live requests: fewer of its tool than it allows, and none that asked
  // for one of its locks. A waiter is in no ledger, so nothing but live leases can keep a request waiting.
  lemma GrantableExactlyWhen(g: Gate, live: seq<Request>, r: Request)
    requires Ledger(g, live)
    ensures Grantable(g, r) <==>
      && Places(live, r.tool) < Allowed(r)
      && forall i, l :: 0 <= i < |live| && l in live[i].locks ==> l !in r.locks
  {
    LeasesHoldWhatWasAsked(r);
    hide LeaseOf;
    assert Active(g.active, r.tool) == Places(live, r.tool);
    if Grantable(g, r) {
      forall i, l | 0 <= i < |live| && l in live[i].locks
        ensures l !in r.locks
      {
        assert l in Held(live);
      }
    }
  }

  /* Runs. */

  datatype Event = Asks(request: Request) | Drops(index: nat)

  datatype World = World(gate: Gate, live: seq<Request>)

  const Start := World(OpenGate, [])

  // A poll that is refused and a waiter that gives up change nothing; a drop of no lease is no event.
  function Next(w: World, e: Event): World {
    match e
    case Asks(r) => if Grantable(w.gate, r) then World(Granted(w.gate, LeaseOf(r)), w.live + [r]) else w
    case Drops(i) => if i < |w.live| then World(Released(w.gate, LeaseOf(w.live[i])), Dropped(w.live, i)) else w
  }

  function Run(w: World, events: seq<Event>): World {
    if events == [] then w else Next(Run(w, events[..|events| - 1]), events[|events| - 1])
  }

  // After every run the gate is the ledger of the live leases: the held locks are their disjoint union, each
  // counter counts the leases of its tool, and no counter overflows its 16 bits.
  lemma {:induction false} GateIsTheLedger(events: seq<Event>)
    ensures Ledger(Run(Start, events).gate, Run(Start, events).live)
    decreases |events|
  {
    if events != [] {
      var w := Run(Start, events[..|events| - 1]);
      GateIsTheLedger(events[..|events| - 1]);
      hide Ledger;
      match events[|events| - 1]
      case Asks(r) => if Grantable(w.gate, r) { GrantKeepsLedger(w.gate, w.live, r); }
      case Drops(i) => if i < |w.live| { DropKeepsLedger(w.gate, w.live, i); }
    }
  }

  // Requests of one tool that agree on a limit are never granted more places than that.
  lemma {:induction false} LimitIsKept(events: seq<Event>, tool: string, limit: nat)
    requires forall k :: 0 <= k < |events| && events[k].Asks? && events[k].request.tool == tool ==>
      Allowed(events[k].request) <= limit
    ensures Places(Run(Start, events).live, tool) <= limit
    decreases |events|
  {
    if events != [] {
      var front := events[..|events| - 1];
      var w := Run(Start, front);
      assert forall k :: 0 <= k < |front| ==> front[k] == events[k];
      LimitIsKept(front, tool, limit);
      GateIsTheLedger(front);
      match events[|events| - 1]
      case Asks(r) =>
        if Grantable(w.gate, r) {
          PlacesAppend(w.live, [r], tool);
          assert [r][1..] == [];
          assert Active(w.gate.active, tool) == Places(w.live, tool);
        }
      case Drops(i) => if i < |w.live| { PlacesDropped(w.live, i, tool); }
    }
  }

  // Mutual exclusion: over every run no lock is listed by the requests of two live leases, and every lock
  // they list is held.
  lemma NoTwoLiveRequestsShareALock(events: seq<Event>, i: nat, j: nat, l: Lock)
    requires var live := Run(Start, events).live;
      i < |live| && j < |live| && l in live[i].locks && l in live[j].locks
    ensures i == j && l in Run(Start, events).gate.held
  {
    GateIsTheLedger(events);
  }

  // Once no live request listed one of its locks and its tool has a place, a request is granted at its
  // next look, whoever else is waiting: a waiter holds nothing.
  lemma WaitersAreNeverInTheWay(events: seq<Event>, r: Request)
    requires var live := Run(Start, events).live;
      Places(live, r.tool) < Allowed(r) && forall i, l :: 0 <= i < |live| && l in live[i].locks ==> l !in r.locks
    ensures Next(Run(Start, events), Asks(r)).live == Run(Start, events).live + [r]
  {
    GateIsTheLedger(events);
    var w := Run(Start, events);
    GrantableExactlyWhen(w.gate, w.live, r);
  }

  // The drops of all leases, in any order: each drops one of those left.
  ghost predicate DropsAll(live: seq<Request>, drops: seq<nat>) {
    |drops| == |live| && forall k :: 0 <= k < |drops| ==> drops[k] < |live| - k
  }

  lemma {:induction false} DroppingShrinks(w: World, drops: seq<nat>)
    requires |drops| <= |w.live| && forall k :: 0 <= k < |drops| ==> drops[k] < |w.live| - k
    ensures |Run(w, seq(|drops|, k requires 0 <= k < |drops| => Drops(drops[k]))).live| == |w.live| - |drops|
    decreases |drops|
  {
    if drops != [] {
      var front := drops[..|drops| - 1];
      DroppingShrinks(w, front);
      var events := seq(|drops|, k requires 0 <= k < |drops| => Drops(drops[k]));
      assert events[..|events| - 1] == seq(|front|, k requires 0 <= k < |front| => Drops(front[k]));
    }
  }

  // Dropping all live leases, in whatever order, restores the gate as it was made.
  lemma DroppingAllRestores(events: seq<Event>, drops: seq<nat>)
    requires DropsAll(Run(Start, events).live, drops)
    ensures Run(Run(Start, events), seq(|drops|, k requires 0 <= k < |drops| => Drops(drops[k]))) == Start
  {
    var w := Run(Start, events);
    var more := seq(|drops|, k requires 0 <= k < |drops| => Drops(drops[k]));
    DroppingShrinks(w, drops);
    RunAppends(Start, events, more);
    GateIsTheLedger(events + more);
    assert Run(w, more).live == [];
    EmptyLedger(Run(w, more).gate);
  }

  lemma {:induction false} RunAppends(w: World, a: seq<Event>, b: seq<Event>)
    ensures Run(w, a + b) == Run(Run(w, a), b)
    decreases |b|
  {
    if b == [] {
      assert a + b == a;
    } else {
      assert (a + b)[..|a + b| - 1] == a + b[..|b| - 1];
      RunAppends(w, a, b[..|b| - 1]);
    }
  }
}
