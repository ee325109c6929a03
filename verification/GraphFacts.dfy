/** What the calls of the goal store do to stage graphs, their histories and stage results. */
module GraphFacts {
  import opened Basics
  import opened Goals

  /* A stage result closes its stage. */

  lemma EndedGraphShape(g: Graph, index: nat, r: StageResult)
    requires index < |g.body.stages| && VerifiedAgainst(r, g, g.body.stages[index])
    requires g.body.planRevision < U64_MAX && g.body.stages[index].body.revision < U64_MAX
    ensures GraphShape(NextBody(g, index, r)) <==>
      !(g.body.stages[index].body.codex && !g.body.stages[index].body.plansBound)
    ensures StageVerified(EndedStage(g.body.stages[index], r)) <==>
      !(g.body.stages[index].body.codex && !g.body.stages[index].body.plansBound)
  {
    var b := g.body;
    var n := NextBody(g, index, r);
    forall id | HasStage(b.stages, id)
      ensures HasStage(n.stages, id)
    {
      var i :| 0 <= i < |b.stages| && b.stages[i].body.id == id;
      assert n.stages[i].body.id == id;
    }
    assert n.stages[index] == EndedStage(b.stages[index], r);
    assert NeedsResult(EndState(r.body.outcome));
  }

  /* Growth of the file. */

  ghost predicate HistoryExtends(a: map<nat, Graph>, b: map<nat, Graph>) {
    forall r :: r in a ==> r in b && b[r] == a[r]
  }

  ghost predicate ResultsExtend(a: GoalFile, b: GoalFile) {
    forall key :: key in a.results ==> key in b.results && b.results[key] == a.results[key]
  }

  // No stored revision or result is changed or dropped from `a` to `b`.
  ghost predicate GraphsExtend(a: GoalFile, b: GoalFile) {
    && ResultsExtend(a, b)
    && (forall id :: id in a.history ==> id in b.history && HistoryExtends(a.history[id], b.history[id]))
  }

  lemma GraphsExtendTransitive(a: GoalFile, b: GoalFile, c: GoalFile)
    requires GraphsExtend(a, b) && GraphsExtend(b, c)
    ensures GraphsExtend(a, c)
  {}

  // Neither call ever changes or drops a stored revision or result, whatever the file holds and also
  // where the revision counter is saturated.
  lemma PublishOnlyAdds(f: GoalFile, g: Graph, expectedPrevious: Option<nat>)
    ensures GraphsExtend(f, PublishGraph(f, g, expectedPrevious).file)
  {
    hide GraphVerified;
  }

  lemma RecordOnlyAdds(f: GoalFile, r: StageResult, expectedGraph: nat, expectedStage: nat)
    ensures GraphsExtend(f, RecordResult(f, r, expectedGraph, expectedStage).file)
  {
    hide ResultVerified, VerifiedAgainst, GraphShape, DependenciesCompleted, CarriesResult, NextGraph;
  }

  // Every graph's current revision is in its history.
  ghost predicate CurrentInHistory(f: GoalFile) {
    forall id :: id in f.graphs ==>
      id in f.history && f.graphs[id].body.planRevision in f.history[id]
      && f.history[id][f.graphs[id].body.planRevision] == f.graphs[id]
  }

  lemma PublishKeepsCurrent(f: GoalFile, g: Graph, expectedPrevious: Option<nat>)
    requires CurrentInHistory(f)
    ensures CurrentInHistory(PublishGraph(f, g, expectedPrevious).file)
  {
    hide GraphVerified;
  }

  lemma RecordKeepsCurrent(f: GoalFile, r: StageResult, expectedGraph: nat, expectedStage: nat)
    requires CurrentInHistory(f)
    ensures CurrentInHistory(RecordResult(f, r, expectedGraph, expectedStage).file)
  {
    hide ResultVerified, VerifiedAgainst, GraphShape, DependenciesCompleted, CarriesResult, NextGraph;
  }

  // On such files the migration of `load` changes nothing.
  lemma MigrationIsIdentity(f: GoalFile)
    requires CurrentInHistory(f)
    ensures Migrate(f) == f
  {
    assert Migrate(f).history == f.history;
  }

  /* What `load` checks of graphs and results. */

  ghost predicate GraphPart(f: GoalFile) {
    GraphsOk(f) && forall key :: key in f.results ==> ResultOk(f, key)
  }

  // What a stored graph or result needs of the file survives every growth of the file.
  lemma EntryKeeps(a: GoalFile, b: GoalFile, id: string, revision: nat, g: Graph)
    requires EntryOk(a, id, revision, g) && a.goals.Keys <= b.goals.Keys && ResultsExtend(a, b)
    ensures EntryOk(b, id, revision, g)
  {
    hide GraphVerified;
    forall i | 0 <= i < |g.body.stages|
      ensures StageRefValid(b.results, g.body.goalId, g.body.stages[i])
    {
      assert StageRefValid(a.results, g.body.goalId, g.body.stages[i]);
    }
  }

  lemma HistoryKeeps(a: GoalFile, b: GoalFile, id: string)
    requires HistoryOk(a, id) && a.goals.Keys <= b.goals.Keys && ResultsExtend(a, b)
    requires id in b.graphs && b.graphs[id] == a.graphs[id]
    requires id in b.history && b.history[id] == a.history[id]
    ensures HistoryOk(b, id)
  {
    hide EntryOk, LinkedTo;
    forall r | r in b.history[id]
      ensures EntryOk(b, id, r, b.history[id][r])
    {
      EntryKeeps(a, b, id, r, b.history[id][r]);
    }
  }

  lemma ResultKeeps(a: GoalFile, b: GoalFile, key: string)
    requires ResultOk(a, key) && GraphsExtend(a, b)
    ensures ResultOk(b, key)
  {
    hide ResultVerified, ResultAgrees, CarriesResult;
  }

  // In a loadable file the current graph is the entry of the greatest revision.
  lemma CurrentIsLast(f: GoalFile, id: string)
    requires HistoryOk(f, id)
    ensures var r := f.graphs[id].body.planRevision;
      IsLast(f.history[id], r) && f.history[id][r] == f.graphs[id] && EntryOk(f, id, r, f.graphs[id])
  {
    hide EntryOk, LinkedTo;
    var last :| IsLast(f.history[id], last) && f.history[id][last] == f.graphs[id];
    assert EntryOk(f, id, last, f.history[id][last]);
    EntryRevision(f, id, last, f.history[id][last]);
  }

  lemma EntryRevision(f: GoalFile, id: string, revision: nat, g: Graph)
    requires EntryOk(f, id, revision, g)
    ensures revision == g.body.planRevision
  {}

  // Calls that touch goals only.
  lemma GoalCallKeepsGraphs(a: GoalFile, b: GoalFile)
    requires GraphPart(a) && b.graphs == a.graphs && b.history == a.history && b.results == a.results
    requires a.goals.Keys <= b.goals.Keys
    ensures GraphPart(b)
  {
    hide HistoryOk, ResultOk, GraphVerified, RefsValid;
    forall id | id in b.history
      ensures HistoryOk(b, id)
    {
      HistoryKeeps(a, b, id);
    }
    forall key | key in b.results
      ensures ResultOk(b, key)
    {
      ResultKeeps(a, b, key);
    }
  }

  // `g` starts its history, or follows the current graph of it.
  ghost predicate Follows(f: GoalFile, id: string, g: Graph) {
    if id in f.graphs then
      && HistoryOk(f, id) && LinkedTo(g, f.graphs[id])
      && f.graphs[id].body.planRevision < g.body.planRevision
    else id !in f.history
  }

  lemma AdjacentAfterAppend(h: map<nat, Graph>, last: nat, next: nat, g: Graph, p: nat, r: nat)
    requires IsLast(h, last) && last < next && Adjacent(h[next := g], p, r)
    ensures if r == next then p == last else Adjacent(h, p, r)
  {
    var appended := h[next := g];
    assert last in appended;
    if r != next {
      assert r <= last;
      forall k | k in h
        ensures k <= p || r <= k
      {
        assert k in appended;
      }
    }
  }

  lemma AppendedLinks(a: GoalFile, id: string, g: Graph, p: nat, r: nat)
    requires Follows(a, id, g)
    requires Adjacent(HistoryOf(a, id)[g.body.planRevision := g], p, r)
    ensures var h := HistoryOf(a, id)[g.body.planRevision := g];
      LinkedTo(h[r], h[p])
  {
    hide EntryOk, LinkedTo;
    if id in a.graphs {
      CurrentIsLast(a, id);
      AdjacentAfterAppend(a.history[id], a.graphs[id].body.planRevision, g.body.planRevision, g, p, r);
    }
  }

  lemma AppendedEntries(a: GoalFile, b: GoalFile, id: string, g: Graph, r: nat)
    requires Follows(a, id, g) && a.goals.Keys <= b.goals.Keys && ResultsExtend(a, b)
    requires EntryOk(b, id, g.body.planRevision, g)
    requires r in HistoryOf(a, id)[g.body.planRevision := g]
    ensures EntryOk(b, id, r, HistoryOf(a, id)[g.body.planRevision := g][r])
  {
    hide EntryOk, LinkedTo, ResultsExtend;
    if r != g.body.planRevision { EntryKeeps(a, b, id, r, a.history[id][r]); }
  }

  lemma AppendedIsLast(a: GoalFile, id: string, g: Graph)
    requires Follows(a, id, g)
    ensures IsLast(HistoryOf(a, id)[g.body.planRevision := g], g.body.planRevision)
  {
    hide EntryOk, LinkedTo;
    if id in a.graphs { CurrentIsLast(a, id); }
  }

  lemma AppendedHistory(a: GoalFile, b: GoalFile, id: string, g: Graph)
    requires Follows(a, id, g) && a.goals.Keys <= b.goals.Keys && ResultsExtend(a, b)
    requires id in b.graphs && b.graphs[id] == g
    requires id in b.history && b.history[id] == HistoryOf(a, id)[g.body.planRevision := g]
    requires EntryOk(b, id, g.body.planRevision, g)
    ensures HistoryOk(b, id)
  {
    hide EntryOk, LinkedTo, ResultsExtend, Follows, IsLast, HistoryOf;
    AppendedIsLast(a, id, g);
    var h := b.history[id];
    forall r | r in h
      ensures EntryOk(b, id, r, h[r])
    {
      AppendedEntries(a, b, id, g, r);
    }
    forall p: nat, r: nat | Adjacent(h, p, r)
      ensures LinkedTo(h[r], h[p])
    {
      AppendedLinks(a, id, g, p, r);
    }
    assert IsLast(h, g.body.planRevision) && h[g.body.planRevision] == b.graphs[id];
  }

  // The graph part after one graph is appended and results are added.
  lemma AppendKeeps(a: GoalFile, b: GoalFile, id: string, g: Graph)
    requires GraphsOk(a) && b.goals == a.goals && ResultsExtend(a, b)
    requires Follows(a, id, g) && EntryOk(b, id, g.body.planRevision, g)
    requires b.graphs == a.graphs[id := g] && b.history == a.history[id := HistoryOf(a, id)[g.body.planRevision := g]]
    ensures GraphsOk(b)
  {
    hide EntryOk, ResultsExtend, Follows, HistoryOk, GraphVerified, RefsValid, HistoryOf;
    AppendedHistory(a, b, id, g);
    forall other | other in b.history
      ensures HistoryOk(b, other)
    {
      if other != id { HistoryKeeps(a, b, other); }
    }
    forall other | other in b.graphs
      ensures CurrentOk(b, other)
    {
      CurrentIsLast(b, other);
      EntryParts(b, other, b.graphs[other].body.planRevision, b.graphs[other]);
    }
  }

  lemma EntryParts(f: GoalFile, id: string, revision: nat, g: Graph)
    requires EntryOk(f, id, revision, g)
    ensures g.body.id == id && g.body.goalId in f.goals && GraphVerified(g) && RefsValid(f.results, g)
  {}

  /* Publishing a graph. */

  lemma RevisionBound(g: Graph)
    requires GraphVerified(g)
    ensures 0 < g.body.planRevision <= U64_MAX
  {}

  lemma PublishedFollows(f: GoalFile, g: Graph, expectedPrevious: Option<nat>)
    requires GraphPart(f) && PublishGraph(f, g, expectedPrevious).commit
    ensures Follows(f, g.body.id, g) && GraphVerified(g) && g.body.goalId in f.goals
    ensures PublishGraph(f, g, expectedPrevious).file == WithGraph(f, g.body.id, g)
  {
    hide HistoryOk, GraphVerified, RefsValid, ResultOk;
    if g.body.id in f.graphs {
      CurrentIsLast(f, g.body.id);
      RevisionBound(f.graphs[g.body.id]);
    }
  }

  // A file extended by a published graph loads again exactly if every result ref of that graph names a
  // stored result agreeing with its stage. The call itself does not look at the refs.
  lemma PublishReloadsExactlyWhen(f: GoalFile, g: Graph, expectedPrevious: Option<nat>)
    requires GraphPart(f)
    ensures var reply := PublishGraph(f, g, expectedPrevious);
      if reply.commit then GraphPart(reply.file) <==> RefsValid(f.results, g) else reply.file == f
  {
    var reply := PublishGraph(f, g, expectedPrevious);
    hide HistoryOk, GraphVerified, RefsValid, ResultOk, Follows, EntryOk, GraphsExtend;
    if reply.commit {
      PublishedFollows(f, g, expectedPrevious);
      if RefsValid(f.results, g) {
        PublishedEntry(f, reply.file, g);
        hide GraphsOk;
        AppendKeeps(f, reply.file, g.body.id, g);
        PublishOnlyAdds(f, g, expectedPrevious);
        forall key | key in reply.file.results
          ensures ResultOk(reply.file, key)
        {
          ResultKeeps(f, reply.file, key);
        }
      } else {
        assert reply.file.graphs[g.body.id] == g && g.body.id in reply.file.graphs;
      }
    }
  }

  lemma PublishedEntry(f: GoalFile, after: GoalFile, g: Graph)
    requires after.goals == f.goals && after.results == f.results
    requires g.body.goalId in f.goals && GraphVerified(g) && RefsValid(f.results, g)
    ensures EntryOk(after, g.body.id, g.body.planRevision, g) && ResultsExtend(f, after)
  {}

  /* Recording a stage result. */

  // What a call that stores a new result has established.
  ghost predicate Recorded(f: GoalFile, r: StageResult, index: nat) {
    var id := r.body.graphRef.documentId;
    && r.body.id !in f.results && id in f.graphs && id in f.history
    && ResultVerified(r)
    && r.body.graphRef.revision == f.graphs[id].body.planRevision
    && index < |f.graphs[id].body.stages|
    && ResultAgrees(f.graphs[id], index, r)
    && f.graphs[id].body.planRevision < U64_MAX
    && GraphShape(NextBody(f.graphs[id], index, r))
  }

  lemma RecordedFacts(f: GoalFile, r: StageResult, expectedGraph: nat, expectedStage: nat) returns (index: nat)
    requires RecordResult(f, r, expectedGraph, expectedStage).commit
    ensures Recorded(f, r, index)
    ensures var id := r.body.graphRef.documentId;
      RecordResult(f, r, expectedGraph, expectedStage).file == WithResult(f, id, r, NextGraph(f.graphs[id], index, r))
  {
    hide ResultVerified, VerifiedAgainst, GraphShape, DependenciesCompleted, CarriesResult, NextBody;
    var current := f.graphs[r.body.graphRef.documentId];
    index := StageIndex(current.body.stages, r.body.stageRef.documentId).value;
    AgreedRevision(f, r, expectedGraph, expectedStage);
  }

  lemma AgreedRevision(f: GoalFile, r: StageResult, expectedGraph: nat, expectedStage: nat)
    requires RecordResult(f, r, expectedGraph, expectedStage).commit
    ensures r.body.graphRef.documentId in f.graphs
    ensures r.body.graphRef.revision == f.graphs[r.body.graphRef.documentId].body.planRevision < U64_MAX
  {
    hide ResultVerified, VerifiedAgainst, GraphShape, DependenciesCompleted, CarriesResult, NextGraph, NextBody;
  }

  // The next graph's refs: the closed stage names the new result, the others kept theirs.
  lemma NextRefsValid(f: GoalFile, after: GoalFile, r: StageResult, index: nat)
    requires Recorded(f, r, index) && RefsValid(f.results, f.graphs[r.body.graphRef.documentId])
    requires ResultsExtend(f, after) && r.body.id in after.results && after.results[r.body.id] == r
    ensures RefsValid(after.results, NextGraph(f.graphs[r.body.graphRef.documentId], index, r))
  {
    hide GraphShape, GraphVerified, ResultVerified, StageVerified;
    var g := f.graphs[r.body.graphRef.documentId];
    var next := NextGraph(g, index, r);
    forall i | 0 <= i < |next.body.stages|
      ensures StageRefValid(after.results, next.body.goalId, next.body.stages[i])
    {
      if i != index {
        assert next.body.stages[i] == g.body.stages[i];
        assert StageRefValid(f.results, g.body.goalId, g.body.stages[i]);
      }
    }
  }

  lemma NextCarriesResult(f: GoalFile, r: StageResult, index: nat)
    requires Recorded(f, r, index)
    ensures CarriesResult(NextGraph(f.graphs[r.body.graphRef.documentId], index, r), r)
  {
    hide GraphShape, GraphVerified, ResultVerified, StageVerified, VerifiedAgainst;
    var next := NextGraph(f.graphs[r.body.graphRef.documentId], index, r);
    assert next.body.stages[index].body.id == r.body.stageRef.documentId;
  }

  lemma NextFollows(f: GoalFile, after: GoalFile, r: StageResult, index: nat)
    requires GraphPart(f) && Recorded(f, r, index)
    requires after.goals == f.goals && ResultsExtend(f, after) && r.body.id in after.results
      && after.results[r.body.id] == r
    ensures var id := r.body.graphRef.documentId;
      var next := NextGraph(f.graphs[id], index, r);
      Follows(f, id, next) && EntryOk(after, id, next.body.planRevision, next)
  {
    var id := r.body.graphRef.documentId;
    hide HistoryOk, ResultOk, GraphShape, ResultVerified, VerifiedAgainst, RefsValid, ResultsExtend;
    NextRefsValid(f, after, r, index);
    CurrentIsLast(f, id);
  }

  lemma NewResultOk(f: GoalFile, after: GoalFile, r: StageResult, index: nat)
    requires GraphPart(f) && Recorded(f, r, index)
    requires after == WithResult(f, r.body.graphRef.documentId, r,
      NextGraph(f.graphs[r.body.graphRef.documentId], index, r))
    ensures ResultOk(after, r.body.id)
  {
    hide HistoryOk, GraphShape, ResultVerified, VerifiedAgainst, RefsValid, CarriesResult, NextGraph, ResultAgrees;
    var id := r.body.graphRef.documentId;
    var next := NextGraph(f.graphs[id], index, r);
    CurrentIsLast(f, id);
    NextCarriesResult(f, r, index);
    NextRevision(f.graphs[id], index, r);
    assert after.history[id][r.body.graphRef.revision] == f.graphs[id];
    assert next.body.planRevision in after.history[id];
  }

  lemma NextRevision(g: Graph, index: nat, r: StageResult)
    requires index < |g.body.stages|
    ensures NextGraph(g, index, r).body.planRevision == g.body.planRevision + 1
  {}

  lemma RecordKeeps(f: GoalFile, r: StageResult, expectedGraph: nat, expectedStage: nat)
    requires GraphPart(f)
    ensures GraphPart(RecordResult(f, r, expectedGraph, expectedStage).file)
  {
    hide GraphsOk, ResultOk, Follows, EntryOk, NextGraph, RecordResult, GraphsExtend;
    var after := RecordResult(f, r, expectedGraph, expectedStage).file;
    if RecordResult(f, r, expectedGraph, expectedStage).commit {
      var index := RecordedFacts(f, r, expectedGraph, expectedStage);
      var id := r.body.graphRef.documentId;
      assert id in f.graphs && index < |f.graphs[id].body.stages|;
      var next := NextGraph(f.graphs[id], index, r);
      RecordOnlyAdds(f, r, expectedGraph, expectedStage);
      NextFollows(f, after, r, index);
      AppendKeeps(f, after, id, next);
      NewResultOk(f, after, r, index);
      forall key | key in after.results
        ensures ResultOk(after, key)
      {
        if key != r.body.id { ResultKeeps(f, after, key); }
      }
    } else {
      RecordFails(f, r, expectedGraph, expectedStage);
    }
  }

  lemma RecordFails(f: GoalFile, r: StageResult, expectedGraph: nat, expectedStage: nat)
    requires !RecordResult(f, r, expectedGraph, expectedStage).commit
    ensures RecordResult(f, r, expectedGraph, expectedStage).file == f
  {
    hide ResultVerified, VerifiedAgainst, GraphShape, DependenciesCompleted, CarriesResult, NextGraph, NextBody;
  }

  /* The hash chain. */

  // `h` is a history as `load` accepts it: keys are plan revisions, fingerprints digest the content, and
  // neighbours are chained.
  ghost predicate Chained(h: map<nat, Graph>) {
    && (forall r :: r in h ==> h[r].body.planRevision == r && r <= U64_MAX && h[r].fingerprint == OfGraph(h[r].body))
    && (forall p, r :: Adjacent(h, p, r) ==> LinkedTo(h[r], h[p]))
  }

  lemma LoadedHistoriesAreChained(f: GoalFile, id: string)
    requires HistoryOk(f, id)
    ensures Chained(f.history[id])
  {
    hide LinkedTo, RefsValid;
    forall r | r in f.history[id]
      ensures f.history[id][r].body.planRevision == r && r <= U64_MAX
        && f.history[id][r].fingerprint == OfGraph(f.history[id][r].body)
    {
      assert EntryOk(f, id, r, f.history[id][r]);
    }
  }

  // Some key of `h` lies below `r`: then one is its left neighbour.
  lemma {:induction false} Predecessor(h: map<nat, Graph>, r: nat, p: nat) returns (q: nat)
    requires r in h && p in h && p < r
    ensures Adjacent(h, q, r) && p <= q
    decreases r - p
  {
    if k :| k in h && p < k < r {
      q := Predecessor(h, r, k);
    } else {
      q := p;
    }
  }

  // Revisions of a chained history are consecutive.
  lemma ChainIsContiguous(h: map<nat, Graph>, p: nat, r: nat)
    requires Chained(h) && p in h && r in h && p < r
    ensures r - 1 in h && Adjacent(h, r - 1, r)
  {
    var q := Predecessor(h, r, p);
    assert LinkedTo(h[r], h[q]);
  }

  // Two chained histories that agree at one revision agree at every earlier revision both have: the
  // current graph's fingerprint fixes the whole past.
  lemma {:induction false} HashChainFixesThePast(h1: map<nat, Graph>, h2: map<nat, Graph>, r: nat, p: nat)
    requires Chained(h1) && Chained(h2)
    requires r in h1 && r in h2 && h1[r] == h2[r]
    requires p in h1 && p in h2 && p <= r
    ensures h1[p] == h2[p]
    decreases r
  {
    if p < r {
      ChainIsContiguous(h1, p, r);
      ChainIsContiguous(h2, p, r);
      assert LinkedTo(h1[r], h1[r - 1]) && LinkedTo(h2[r], h2[r - 1]);
      HashChainFixesThePast(h1, h2, r - 1, p);
    }
  }
}
