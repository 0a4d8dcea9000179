/** The two topological sorts of the planner: cycle detection over the edge list with
    its duplicates, and the partition into layers over deduplicated dependencies. */
module PlanGraph {
  import opened Common

  type StepId = string

  datatype Edge = Edge(up: StepId, down: StepId)

  predicate Links(edges: seq<Edge>, ids: set<StepId>, u: StepId, v: StepId) {
    Edge(u, v) in edges && u in ids && v in ids
  }

  ghost predicate Hop(edges: seq<Edge>, ids: set<StepId>, w: seq<StepId>, i: nat)
    requires i + 1 < |w|
  {
    Links(edges, ids, w[i], w[i + 1])
  }

  ghost predicate Walk(edges: seq<Edge>, ids: set<StepId>, w: seq<StepId>) {
    forall i: nat | i + 1 < |w| :: Hop(edges, ids, w, i)
  }

  ghost predicate ClosedWalk(edges: seq<Edge>, ids: set<StepId>, w: seq<StepId>) {
    |w| >= 2 && w[0] == w[|w| - 1] && Walk(edges, ids, w)
  }

  ghost predicate Cyclic(edges: seq<Edge>, ids: set<StepId>) {
    exists w :: ClosedWalk(edges, ids, w)
  }

  // ---------------------------------------------------------------------
  // A rank rules cycles out; a set where everything has a predecessor holds one
  // ---------------------------------------------------------------------

  lemma {:induction false} RankRises(edges: seq<Edge>, ids: set<StepId>, rank: map<StepId, nat>, w: seq<StepId>, i: nat)
    requires forall u, v | Links(edges, ids, u, v) :: u in rank && v in rank && rank[u] < rank[v]
    requires ClosedWalk(edges, ids, w) && 0 < i < |w|
    ensures w[0] in rank && w[i] in rank && rank[w[0]] < rank[w[i]]
  {
    assert Hop(edges, ids, w, i - 1);
    if i > 1 { RankRises(edges, ids, rank, w, i - 1); }
  }

  lemma RankedIsAcyclic(edges: seq<Edge>, ids: set<StepId>, rank: map<StepId, nat>)
    requires forall u, v | Links(edges, ids, u, v) :: u in rank && v in rank && rank[u] < rank[v]
    ensures !Cyclic(edges, ids)
  {
    forall w ensures !ClosedWalk(edges, ids, w) {
      if ClosedWalk(edges, ids, w) { RankRises(edges, ids, rank, w, |w| - 1); }
    }
  }

  ghost predicate HasPredecessor(edges: seq<Edge>, ids: set<StepId>, rest: set<StepId>, v: StepId) {
    exists u | u in rest :: Links(edges, ids, u, v)
  }

  ghost predicate Rootless(edges: seq<Edge>, ids: set<StepId>, rest: set<StepId>) {
    forall v | v in rest :: HasPredecessor(edges, ids, rest, v)
  }

  lemma {:induction false} WalkBack(edges: seq<Edge>, ids: set<StepId>, rest: set<StepId>, n: nat) returns (w: seq<StepId>)
    requires rest != {} && Rootless(edges, ids, rest)
    ensures |w| == n + 1 && Elements(w) <= rest && Walk(edges, ids, w)
  {
    if n == 0 {
      var v :| v in rest;
      w := [v];
    } else {
      var tail := WalkBack(edges, ids, rest, n - 1);
      assert tail[0] in Elements(tail);
      assert HasPredecessor(edges, ids, rest, tail[0]);
      var u :| u in rest && Links(edges, ids, u, tail[0]);
      w := [u] + tail;
      Prepended(edges, ids, u, tail);
      assert Elements(w) == {u} + Elements(tail);
    }
  }

  lemma Prepended(edges: seq<Edge>, ids: set<StepId>, u: StepId, w: seq<StepId>)
    requires Walk(edges, ids, w) && w != [] && Links(edges, ids, u, w[0])
    ensures Walk(edges, ids, [u] + w)
  {
    forall i: nat | i + 1 < |[u] + w| ensures Hop(edges, ids, [u] + w, i) {
      if i > 0 { assert Hop(edges, ids, w, i - 1); }
    }
  }

  lemma Sliced(edges: seq<Edge>, ids: set<StepId>, w: seq<StepId>, i: nat, j: nat)
    requires Walk(edges, ids, w) && i < j < |w| && w[i] == w[j]
    ensures ClosedWalk(edges, ids, w[i..j + 1])
  {
    var loop := w[i..j + 1];
    forall k: nat | k + 1 < |loop| ensures Hop(edges, ids, loop, k) {
      assert Hop(edges, ids, w, i + k);
    }
  }

  lemma {:induction false} SubsetCount<T>(a: set<T>, b: set<T>)
    requires a <= b
    ensures |a| <= |b|
  {
    if x :| x in a { SubsetCount(a - {x}, b - {x}); }
  }

  lemma RootlessIsCyclic(edges: seq<Edge>, ids: set<StepId>, rest: set<StepId>)
    requires rest != {} && Rootless(edges, ids, rest)
    ensures Cyclic(edges, ids)
  {
    var w := WalkBack(edges, ids, rest, |rest|);
    var i, j := Repeats(w, rest);
    Sliced(edges, ids, w, i, j);
  }

  /** More entries than values: one of them comes twice. */
  lemma Repeats<T>(w: seq<T>, values: set<T>) returns (i: nat, j: nat)
    requires Elements(w) <= values && |w| > |values|
    ensures i < j < |w| && w[i] == w[j]
  {
    SubsetCount(Elements(w), values);
    if forall i, j | 0 <= i < j < |w| :: w[i] != w[j] {
      DistinctCount(w);
    }
    i, j :| 0 <= i < j < |w| && w[i] == w[j];
  }

  // ---------------------------------------------------------------------
  // Cycle detection
  // ---------------------------------------------------------------------

  /** How many edges, with duplicates, still lead to `v` from outside `done`. */
  ghost function Unmet(edges: seq<Edge>, ids: set<StepId>, v: StepId, done: set<StepId>): nat {
    if edges == [] then 0
    else
      var e := edges[|edges| - 1];
      Unmet(edges[..|edges| - 1], ids, v, done) + (if e.down == v && e.up in ids && v in ids && e.up !in done then 1 else 0)
  }

  /** The successors of `u`, one for each edge. */
  ghost function Downs(edges: seq<Edge>, ids: set<StepId>, u: StepId): seq<StepId> {
    if edges == [] then []
    else
      var e := edges[|edges| - 1];
      Downs(edges[..|edges| - 1], ids, u) + (if e.up == u && u in ids && e.down in ids then [e.down] else [])
  }

  lemma {:induction false} UnmetFalls(edges: seq<Edge>, ids: set<StepId>, v: StepId, done: set<StepId>, u: StepId)
    requires u !in done && v in ids && u in ids
    ensures Unmet(edges, ids, v, done) == Unmet(edges, ids, v, done + {u}) + multiset(Downs(edges, ids, u))[v]
  {
    if edges != [] { UnmetFalls(edges[..|edges| - 1], ids, v, done, u); }
  }

  lemma {:induction false} UnmetZero(edges: seq<Edge>, ids: set<StepId>, v: StepId, done: set<StepId>)
    ensures Unmet(edges, ids, v, done) == 0 <==> forall u | Links(edges, ids, u, v) :: u in done
  {
    if edges != [] {
      var init, e := edges[..|edges| - 1], edges[|edges| - 1];
      assert edges == init + [e];
      UnmetZero(init, ids, v, done);
      assert forall u :: Edge(u, v) in edges <==> Edge(u, v) in init || Edge(u, v) == e;
    }
  }

  lemma {:induction false} DownsAreIds(edges: seq<Edge>, ids: set<StepId>, u: StepId)
    ensures forall v | v in Downs(edges, ids, u) :: v in ids
  {
    if edges != [] { DownsAreIds(edges[..|edges| - 1], ids, u); }
  }

  /** The counts after the first `i` edges. */
  ghost predicate Counted(edges: seq<Edge>, ids: set<StepId>, i: nat, indeg: map<StepId, nat>, adj: map<StepId, seq<StepId>>)
    requires i <= |edges|
  {
    && indeg.Keys == adj.Keys == ids
    && forall v | v in ids :: indeg[v] == Unmet(edges[..i], ids, v, {}) && adj[v] == Downs(edges[..i], ids, v)
  }

  lemma CountOne(edges: seq<Edge>, ids: set<StepId>, i: nat, indeg: map<StepId, nat>, adj: map<StepId, seq<StepId>>)
    requires i < |edges| && Counted(edges, ids, i, indeg, adj)
    ensures var e := edges[i];
            if e.up in ids && e.down in ids then
              Counted(edges, ids, i + 1, indeg[e.down := indeg[e.down] + 1], adj[e.up := adj[e.up] + [e.down]])
            else Counted(edges, ids, i + 1, indeg, adj)
  {
    var more := edges[..i + 1];
    assert more[..|more| - 1] == edges[..i] && more[|more| - 1] == edges[i];
    forall v | v in ids
      ensures Unmet(more, ids, v, {}) == indeg[v] + (if edges[i].down == v && edges[i].up in ids then 1 else 0)
      ensures Downs(more, ids, v) == adj[v] + (if edges[i].up == v && edges[i].down in ids then [edges[i].down] else [])
    {
    }
    hide Unmet, Downs;
  }

  /** In-degrees and adjacency lists of the edges between known steps. */
  method CountEdges(edges: seq<Edge>, ids: set<StepId>) returns (indeg: map<StepId, nat>, adj: map<StepId, seq<StepId>>)
    ensures indeg.Keys == adj.Keys == ids
    ensures forall v | v in ids :: indeg[v] == Unmet(edges, ids, v, {}) && adj[v] == Downs(edges, ids, v)
  {
    indeg := map v | v in ids :: 0;
    adj := map v | v in ids :: [];
    for i := 0 to |edges|
      invariant indeg.Keys == adj.Keys == ids
      invariant Counted(edges, ids, i, indeg, adj)
    {
      CountOne(edges, ids, i, indeg, adj);
      hide Counted;
      var e := edges[i];
      if e.up in indeg && e.down in indeg {
        indeg := indeg[e.down := indeg[e.down] + 1];
        adj := adj[e.up := adj[e.up] + [e.down]];
      }
    }
    assert edges[..|edges|] == edges;
  }

  ghost predicate Distinct<T(!new)>(s: seq<T>) {
    forall i, j | 0 <= i < j < |s| :: s[i] != s[j]
  }

  /** In-degrees count what is unmet, plus the edges of the step being taken off that
      are still to be followed; the queue holds the steps that wait for nothing, each once. */
  ghost predicate Falling(edges: seq<Edge>, ids: set<StepId>, indeg: map<StepId, nat>, queue: seq<StepId>, done: set<StepId>,
                          pending: multiset<StepId>)
  {
    && indeg.Keys == ids && done <= ids
    && (forall v | v in ids :: indeg[v] == Unmet(edges, ids, v, done) + pending[v])
    && Distinct(queue) && (forall v | v in queue :: v in ids && v !in done)
    && (forall v | v in ids :: v in done || v in queue <==> indeg[v] == 0)
  }

  ghost predicate Frontier(edges: seq<Edge>, ids: set<StepId>, indeg: map<StepId, nat>, queue: seq<StepId>, done: set<StepId>) {
    Falling(edges, ids, indeg, queue, done, multiset{})
  }

  lemma PopDistinct<T(!new)>(queue: seq<T>, u: T)
    requires Distinct(queue + [u])
    ensures Distinct(queue) && u !in queue
  {
    var all := queue + [u];
    assert all[|queue|] == u;
    assert forall i | 0 <= i < |queue| :: all[i] == queue[i];
  }

  lemma PopFalls(edges: seq<Edge>, ids: set<StepId>, indeg: map<StepId, nat>, queue: seq<StepId>, u: StepId, done: set<StepId>)
    requires Frontier(edges, ids, indeg, queue + [u], done)
    ensures Falling(edges, ids, indeg, queue, done + {u}, multiset(Downs(edges, ids, u)))
  {
    PopDistinct(queue, u);
    assert forall v :: v in queue + [u] <==> v in queue || v == u;
    forall v | v in ids ensures indeg[v] == Unmet(edges, ids, v, done + {u}) + multiset(Downs(edges, ids, u))[v] {
      UnmetFalls(edges, ids, v, done, u);
    }
  }

  /** Follow one edge of the step being taken off. */
  method FollowEdge(ghost edges: seq<Edge>, ghost ids: set<StepId>, indeg0: map<StepId, nat>, queue0: seq<StepId>, v: StepId,
                    ghost done: set<StepId>, ghost pending: multiset<StepId>)
    returns (indeg: map<StepId, nat>, queue: seq<StepId>)
    requires v in ids && v in pending && Falling(edges, ids, indeg0, queue0, done, pending)
    ensures Falling(edges, ids, indeg, queue, done, pending - multiset{v})
  {
    hide Unmet;
    assert indeg0[v] == Unmet(edges, ids, v, done) + pending[v];
    indeg, queue := indeg0[v := indeg0[v] - 1], queue0;
    if indeg[v] == 0 {
      queue := queue + [v];
    }
  }

  /** Lower the in-degree of every successor of `u`, one edge at a time. */
  method TakeOff(ghost edges: seq<Edge>, ghost ids: set<StepId>, indeg0: map<StepId, nat>, queue0: seq<StepId>, u: StepId,
                 downs: seq<StepId>, ghost done: set<StepId>)
    returns (indeg: map<StepId, nat>, queue: seq<StepId>)
    requires Frontier(edges, ids, indeg0, queue0 + [u], done) && downs == Downs(edges, ids, u)
    ensures Frontier(edges, ids, indeg, queue, done + {u})
  {
    hide Falling, Downs;
    indeg, queue := indeg0, queue0;
    PopFalls(edges, ids, indeg, queue, u, done);
    DownsAreIds(edges, ids, u);
    assert downs[0..] == downs;
    for j := 0 to |downs|
      invariant Falling(edges, ids, indeg, queue, done + {u}, multiset(downs[j..]))
    {
      assert downs[j..] == [downs[j]] + downs[j + 1..];
      indeg, queue := FollowEdge(edges, ids, indeg, queue, downs[j], done + {u}, multiset(downs[j..]));
      assert multiset(downs[j..]) - multiset{downs[j]} == multiset(downs[j + 1..]);
    }
    assert multiset(downs[|downs|..]) == multiset{};
  }

  /** Steps taken off are ranked in the order they were, behind all their predecessors. */
  ghost predicate Ranked(edges: seq<Edge>, ids: set<StepId>, done: set<StepId>, rank: map<StepId, nat>, visited: nat) {
    && rank.Keys == done && (forall v | v in done :: rank[v] < visited)
    && (forall u, v | Links(edges, ids, u, v) && v in done :: u in done && rank[u] < rank[v])
  }

  lemma RankNext(edges: seq<Edge>, ids: set<StepId>, done: set<StepId>, rank: map<StepId, nat>, visited: nat, u: StepId)
    requires Ranked(edges, ids, done, rank, visited) && u !in done
    requires forall p | Links(edges, ids, p, u) :: p in done
    ensures Ranked(edges, ids, done + {u}, rank[u := visited], visited + 1)
  {
  }

  /** Kahn's algorithm with a stack: a cycle is exactly what keeps a step from being visited. */
  method HasCycle(edges: seq<Edge>, ids: set<StepId>) returns (cycle: bool)
    ensures cycle <==> Cyclic(edges, ids)
  {
    hide Frontier, Falling, Downs, Unmet, Ranked, Cyclic, Links;
    var indeg, adj := CountEdges(edges, ids);
    var queue := Sources(ids, indeg);
    var visited := 0;
    ghost var done: set<StepId> := {};
    ghost var rank: map<StepId, nat> := map[];
    NothingTaken(edges, ids, indeg, queue);
    while queue != []
      invariant Frontier(edges, ids, indeg, queue, done)
      invariant adj.Keys == ids && forall v | v in ids :: adj[v] == Downs(edges, ids, v)
      invariant visited == |done|
      invariant Ranked(edges, ids, done, rank, visited)
      invariant done <= ids
      decreases ids - done
    {
      var u := queue[|queue| - 1];
      ghost var before := queue;
      queue := queue[..|queue| - 1];
      assert queue + [u] == before;
      ReadyIsMet(edges, ids, indeg, queue + [u], done, u);
      indeg, queue := TakeOff(edges, ids, indeg, queue, u, adj[u], done);
      RankNext(edges, ids, done, rank, visited, u);
      rank := rank[u := visited];
      visited := visited + 1;
      done := done + {u};
    }
    VisitedDecides(edges, ids, indeg, done, rank, visited);
    cycle := visited != |ids|;
  }

  lemma SameCount<T>(a: set<T>, b: set<T>)
    requires a <= b
    ensures |a| == |b| <==> a == b
  {
    if a != b {
      var x :| x in b && x !in a;
      SubsetCount(a, b - {x});
    }
  }

  lemma ReadyIsMet(edges: seq<Edge>, ids: set<StepId>, indeg: map<StepId, nat>, queue: seq<StepId>, done: set<StepId>, u: StepId)
    requires Frontier(edges, ids, indeg, queue, done) && u in queue
    ensures done + {u} <= ids
    ensures u in ids && u !in done && forall p | Links(edges, ids, p, u) :: p in done
  {
    var i :| 0 <= i < |queue| && queue[i] == u;
    UnmetZero(edges, ids, u, done);
  }

  lemma Leftover<T>(all: set<T>, some: set<T>)
    requires some <= all && some != all
    ensures all - some != {}
  {
    assert all == some + (all - some);
  }

  /** At the end the visited steps are all there are exactly when there is no cycle. */
  lemma VisitedDecides(edges: seq<Edge>, ids: set<StepId>, indeg: map<StepId, nat>, done: set<StepId>, rank: map<StepId, nat>, visited: nat)
    requires Frontier(edges, ids, indeg, [], done) && Ranked(edges, ids, done, rank, visited) && done <= ids
    ensures |done| != |ids| <==> Cyclic(edges, ids)
  {
    hide Cyclic, Frontier, Links;
    SameCount(done, ids);
    if done == ids {
      assert forall u, v | Links(edges, ids, u, v) :: v in ids by { LinksAreKnown(edges, ids); }
      RankedIsAcyclic(edges, ids, rank);
    } else {
      StuckIsCyclic(edges, ids, indeg, done);
    }
  }

  lemma LinksAreKnown(edges: seq<Edge>, ids: set<StepId>)
    ensures forall u, v | Links(edges, ids, u, v) :: u in ids && v in ids
  {
  }

  lemma NothingTaken(edges: seq<Edge>, ids: set<StepId>, indeg: map<StepId, nat>, queue: seq<StepId>)
    requires indeg.Keys == ids && Distinct(queue) && forall v | v in queue :: v in ids
    requires forall v | v in ids :: indeg[v] == Unmet(edges, ids, v, {}) && (v in queue <==> indeg[v] == 0)
    ensures Frontier(edges, ids, indeg, queue, {}) && Ranked(edges, ids, {}, map[], 0)
  {
    hide Unmet;
  }

  lemma StuckIsCyclic(edges: seq<Edge>, ids: set<StepId>, indeg: map<StepId, nat>, done: set<StepId>)
    requires Frontier(edges, ids, indeg, [], done) && done != ids
    ensures Cyclic(edges, ids)
  {
    var rest := ids - done;
    forall v | v in rest ensures HasPredecessor(edges, ids, rest, v) {
      UnmetZero(edges, ids, v, done);
      var u :| Links(edges, ids, u, v) && u !in done;
    }
    assert rest != {} by { Leftover(ids, done); }
    RootlessIsCyclic(edges, ids, rest);
  }

  method Sources(ids: set<StepId>, indeg: map<StepId, nat>) returns (queue: seq<StepId>)
    requires indeg.Keys == ids
    ensures Distinct(queue) && forall v | v in queue :: v in ids
    ensures forall v | v in ids :: v in queue <==> indeg[v] == 0
  {
    queue := [];
    var rest := ids;
    while rest != {}
      invariant rest <= ids
      invariant Distinct(queue) && forall v | v in queue :: v in ids && v !in rest
      invariant forall v | v in ids && v !in rest :: v in queue <==> indeg[v] == 0
      decreases rest
    {
      var v :| v in rest;
      rest := rest - {v};
      if indeg[v] == 0 { queue := queue + [v]; }
    }
  }
}
