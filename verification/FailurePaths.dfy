/** The failure path write by write: what it leaves when it is cut after any number of writes. */
module FailurePaths {
  import opened Common
  import opened Policy
  import opened ControlPlane
  import opened Lifecycle
  import opened DataPlane
  import opened Stores
  import opened Ingestion
  import opened PlaneWrites
  import opened IngestionProgress
  import opened Restarts
  import opened Thinning

  /** The writes of the failure path: nothing about them can be refused. */
  predicate Plain(op: Op) {
    op.DropPoint? || op.DropParent? || op.Control?
  }

  ghost function Applied(w: World, q: Request, ops: seq<Op>): World
    decreases |ops|
  {
    if ops == [] then w else Applied(Effect(w, q, ops[0]), q, ops[1..])
  }

  lemma {:induction false} AppliedNext(w: World, q: Request, ops: seq<Op>, op: Op)
    ensures Applied(w, q, ops + [op]) == Effect(Applied(w, q, ops), q, op)
    decreases |ops|
  {
    hide Effect;
    if ops == [] {
      assert ops + [op] == [op];
      assert [op][1..] == [];
    } else {
      assert (ops + [op])[1..] == ops[1..] + [op];
      AppliedNext(Effect(w, q, ops[0]), q, ops[1..], op);
    }
  }

  /** Cut after `k` writes, exactly the first `k` have been made. */
  lemma {:induction false} RunPlain(w: World, q: Request, ops: seq<Op>, budget: Option<nat>, switched: bool)
    requires forall op | op in ops :: Plain(op)
    ensures RunOps(w, q, ops, budget, switched) ==
            if budget.None? then Completed(Applied(w, q, ops), None, switched)
            else if budget.value >= |ops| then Completed(Applied(w, q, ops), Some(budget.value - |ops|), switched)
            else Cut(Applied(w, q, ops[..budget.value]), switched)
    decreases |ops|
  {
    hide Effect;
    if ops != [] && budget != Some(0) {
      assert Plain(ops[0]) && Admits(w, q, ops[0]);
      RunPlain(Effect(w, q, ops[0]), q, ops[1..], Spend(budget), switched);
      if budget.Some? && budget.value < |ops| {
        var some := ops[..budget.value];
        assert some[0] == ops[0] && some[1..] == ops[1..][..budget.value - 1];
        assert Applied(w, q, some) == Applied(Effect(w, q, some[0]), q, some[1..]);
      }
    }
  }

  // ---------------------------------------------------------------------
  // The deletes
  // ---------------------------------------------------------------------

  predicate AmongChildren(q: Request, k: nat, id: ChunkId) {
    exists i :: 0 <= i < k && i < |q.children| && q.children[i].id == id
  }

  predicate AmongParents(q: Request, k: nat, id: ChunkId) {
    exists i :: 0 <= i < k && i < |q.parents| && q.parents[i].id == id
  }

  function Drops(q: Request): nat {
    |q.children| + |q.parents| + 1
  }

  /** After the first `k` deletes: points first, then parents, then all chunk rows at once. */
  ghost predicate DroppedAt(w: World, q: Request, k: nat, w': World) {
    && (forall id :: if AmongChildren(q, k, id) then id !in w'.points else Same(w'.points, w.points, id))
    && (forall id :: if AmongParents(q, k - Min(k, |q.children|), id) then id !in w'.parents else Same(w'.parents, w.parents, id))
    && w'.meta == if k >= Drops(q) then DeleteChunks(w.meta, q.key) else w.meta
  }

  function Min(a: nat, b: nat): nat {
    if a < b then a else b
  }

  lemma DropOpsAre(q: Request, k: nat)
    requires k < Drops(q)
    ensures |DropOps(q)| == Drops(q)
    ensures DropOps(q)[k] == if k < |q.children| then DropPoint(q.children[k].id)
                             else if k < |q.children| + |q.parents| then DropParent(q.parents[k - |q.children|].id)
                             else Control(DoDeleteChunks(q.key))
  {
  }

  lemma DroppedNext(w: World, q: Request, k: nat, w': World)
    requires k < Drops(q) && DroppedAt(w, q, k, w')
    ensures |DropOps(q)| == Drops(q) && DroppedAt(w, q, k + 1, Effect(w', q, DropOps(q)[k]))
  {
    DropOpsAre(q, k);
    hide DropOps;
    var w'' := Effect(w', q, DropOps(q)[k]);
    var c := |q.children|;
    MoreChildren(q, k);
    if k >= c { MoreParents(q, k - c); }
  }

  lemma MoreChildren(q: Request, k: nat)
    ensures forall id :: AmongChildren(q, k + 1, id) <==>
                         AmongChildren(q, k, id) || (k < |q.children| && id == q.children[k].id)
  {
    if k < |q.children| { assert AmongChildren(q, k + 1, q.children[k].id); }
  }

  lemma MoreParents(q: Request, k: nat)
    ensures forall id :: AmongParents(q, k + 1, id) <==>
                         AmongParents(q, k, id) || (k < |q.parents| && id == q.parents[k].id)
  {
    if k < |q.parents| { assert AmongParents(q, k + 1, q.parents[k].id); }
  }

  lemma {:induction false} DropsLeave(w: World, q: Request, k: nat)
    requires k <= Drops(q)
    ensures |DropOps(q)| == Drops(q) && DroppedAt(w, q, k, Applied(w, q, DropOps(q)[..k]))
  {
    DropOpsAre(q, 0);
    if k == 0 {
      assert DropOps(q)[..0] == [];
    } else {
      hide DropOps, Effect, DroppedAt;
      DropsLeave(w, q, k - 1);
      assert DropOps(q)[..k] == DropOps(q)[..k - 1] + [DropOps(q)[k - 1]];
      AppliedNext(w, q, DropOps(q)[..k - 1], DropOps(q)[k - 1]);
      DroppedNext(w, q, k - 1, Applied(w, q, DropOps(q)[..k - 1]));
    }
  }

  // ---------------------------------------------------------------------
  // The whole path
  // ---------------------------------------------------------------------

  lemma AllDropped(w: World, q: Request, w': World)
    requires DroppedAt(w, q, Drops(q), w')
    ensures w'.meta == DeleteChunks(w.meta, q.key)
    ensures w'.points == map id | id in w.points && id !in ChildIds(q) :: w.points[id]
    ensures w'.parents == map id | id in w.parents && id !in ParentIds(q) :: w.parents[id]
  {
    hide DeleteChunks;
    forall id ensures AmongChildren(q, Drops(q), id) <==> id in ChildIds(q) { }
    forall id ensures AmongParents(q, |q.parents| + 1, id) <==> id in ParentIds(q) { }
    assert Drops(q) - Min(Drops(q), |q.children|) == |q.parents| + 1;
    forall id ensures if id in ChildIds(q) then id !in w'.points else Same(w'.points, w.points, id) { }
    forall id ensures if id in ParentIds(q) then id !in w'.parents else Same(w'.parents, w.parents, id) { }
    SameEverywhere(w'.points, map id | id in w.points && id !in ChildIds(q) :: w.points[id]);
    SameEverywhere(w'.parents, map id | id in w.parents && id !in ParentIds(q) :: w.parents[id]);
  }

  function LastWrites(q: Request): seq<Op> {
    [Control(DoClearSteps(q.job)), Control(DoFail(q.key)), Control(DoTerminal(q.job, JobFailed))]
  }

  lemma {:induction false} AppliedConcat(w: World, q: Request, a: seq<Op>, b: seq<Op>)
    ensures Applied(w, q, a + b) == Applied(Applied(w, q, a), q, b)
    decreases |a|
  {
    hide Effect;
    if a == [] {
      assert a + b == b;
    } else {
      assert (a + b)[1..] == a[1..] + b;
      AppliedConcat(Effect(w, q, a[0]), q, a[1..], b);
    }
  }

  lemma LastLeave(w: World, q: Request, j: nat)
    requires j <= 2
    ensures var w' := Applied(Applied(w, q, DropOps(q)), q, LastWrites(q)[..j + 1]); w' == Undone(w, q, j)
  {
    hide DropOps, DeleteChunks, ClearSteps, MarkFailed, MarkTerminal;
    DropsLeave(w, q, Drops(q));
    var d := Applied(w, q, DropOps(q));
    assert DropOps(q)[..Drops(q)] == DropOps(q);
    AllDropped(w, q, d);
    LastSteps(d, q);
  }

  lemma LastSteps(d: World, q: Request)
    ensures var c := d.(meta := ClearSteps(d.meta, q.job));
            var f := c.(meta := MarkFailed(c.meta, q.key));
            && Applied(d, q, LastWrites(q)[..1]) == c && Applied(d, q, LastWrites(q)[..2]) == f
            && Applied(d, q, LastWrites(q)[..3]) == f.(meta := MarkTerminal(f.meta, q.job, JobFailed))
  {
    hide ClearSteps, MarkFailed, MarkTerminal;
    var l := LastWrites(q);
    assert l[..1] == [] + [l[0]] && l[..2] == l[..1] + [l[1]] && l[..3] == l[..2] + [l[2]];
    AppliedNext(d, q, [], l[0]);
    AppliedNext(d, q, l[..1], l[1]);
    AppliedNext(d, q, l[..2], l[2]);
  }

  /** The writes that were made: all of them, or as many as the budget allows. */
  function Made(budget: Option<nat>, total: nat): nat {
    if budget.None? then total else Min(budget.value, total)
  }

  lemma PathIsPlain(w: World, q: Request, g: nat, switched: bool)
    ensures forall op | op in FailureOps(w, q, g, switched) :: Plain(op)
  {
  }

  lemma PathIs(w: World, q: Request, g: nat, switched: bool)
    requires !switched && OwnsBuild(w.meta, q.key, q.job, g)
    ensures FailureOps(w, q, g, switched) == DropOps(q) + LastWrites(q)
  {
  }

  /** A compensating failure path after `k` of its writes. */
  lemma CompensatingPath(w: World, q: Request, g: nat, budget: Option<nat>)
    requires OwnsBuild(w.meta, q.key, q.job, g)
    ensures var k := Made(budget, Drops(q) + 3);
            var w' := FailurePath(w, q, g, false, budget).0;
            if k <= Drops(q) then DroppedAt(w, q, k, w') else w' == Undone(w, q, k - Drops(q) - 1)
  {
    hide DropOps, LastWrites, DroppedAt, Undone, OwnsBuild;
    var ops, k := FailureOps(w, q, g, false), Made(budget, Drops(q) + 3);
    var drops, last := DropOps(q), LastWrites(q);
    PathIsPlain(w, q, g, false);
    PathIs(w, q, g, false);
    DropOpsAre(q, 0);
    assert |last| == 3 by { assert |LastWrites(q)| == 3 by { LastThree(q); } }
    RunPlain(w, q, ops, budget, false);
    assert ops[..|ops|] == ops;
    assert FailurePath(w, q, g, false, budget).0 == Applied(w, q, ops[..k]);
    if k <= Drops(q) {
      assert ops[..k] == drops[..k];
      DropsLeave(w, q, k);
    } else {
      var j := k - Drops(q) - 1;
      assert ops[..k] == drops + last[..j + 1];
      AppliedConcat(w, q, drops, last[..j + 1]);
      LastLeave(w, q, j);
    }
  }

  lemma LastThree(q: Request)
    ensures |LastWrites(q)| == 3
  {
  }

  /** Without compensation only the job is failed. */
  lemma BarePath(w: World, q: Request, g: nat, switched: bool, budget: Option<nat>)
    requires switched || !OwnsBuild(w.meta, q.key, q.job, g)
    ensures FailurePath(w, q, g, switched, budget).0 ==
            if budget == Some(0) then w else w.(meta := MarkTerminal(w.meta, q.job, JobFailed))
  {
    hide MarkTerminal;
    var end := Control(DoTerminal(q.job, JobFailed));
    assert FailureOps(w, q, g, switched) == [end];
    RunFirst(w, q, end, [], budget, switched);
    assert [end] + [] == [end];
  }

  /** What is missing after some deletes is this build's own. */
  lemma DropsThin(q: Request, w: World, k: nat, w': World)
    requires DroppedAt(w, q, k, w')
    ensures Thinned(q, w, w')
  {
    forall id ensures Same(w'.points, w.points, id) || (id in ChildIds(q) && id !in w'.points) {
      assert AmongChildren(q, k, id) ==> id in ChildIds(q);
    }
    forall id ensures Same(w'.parents, w.parents, id) || (id in ParentIds(q) && id !in w'.parents) {
      assert AmongParents(q, k - Min(k, |q.children|), id) ==> id in ParentIds(q);
    }
  }

  lemma ThinnedTrans(q: Request, a: World, b: World, c: World)
    requires Thinned(q, a, b) && Thinned(q, b, c)
    ensures Thinned(q, a, c)
  {
    forall id ensures Same(c.points, a.points, id) || (id in ChildIds(q) && id !in c.points) {
      assert Same(c.points, b.points, id) || (id in ChildIds(q) && id !in c.points);
      assert Same(b.points, a.points, id) || (id in ChildIds(q) && id !in b.points);
    }
    forall id ensures Same(c.parents, a.parents, id) || (id in ParentIds(q) && id !in c.parents) {
      assert Same(c.parents, b.parents, id) || (id in ParentIds(q) && id !in c.parents);
      assert Same(b.parents, a.parents, id) || (id in ParentIds(q) && id !in b.parents);
    }
    ThinRowsTrans(a.meta.chunks, b.meta.chunks, c.meta.chunks, q.key);
  }

  lemma ThinRowsTrans(a: map<ChunkId, ChunkRow>, b: map<ChunkId, ChunkRow>, c: map<ChunkId, ChunkRow>, k: Key)
    requires ThinRows(a, b, k) && ThinRows(b, c, k)
    ensures ThinRows(a, c, k)
  {
    forall id ensures Same(c, a, id) || (id in a && a[id].key == k && id !in c) {
      assert Same(b, a, id) || (id in a && a[id].key == k && id !in b);
      if !Same(c, b, id) { assert id in b && b[id].key == k && id !in c; }
    }
  }

  /** What clearing leaves does not depend on which own entries were missing. */
  lemma UndoneThinned(q: Request, p: World, w: World, j: nat)
    requires Thinned(q, p, w)
    ensures Undone(w, q, j) == Undone(p, q, j)
  {
    hide MarkFailed, MarkTerminal;
    forall id ensures Same(Cleared(w, q).points, Cleared(p, q).points, id) {
      assert Same(w.points, p.points, id) || (id in ChildIds(q) && id !in w.points);
    }
    forall id ensures Same(Cleared(w, q).parents, Cleared(p, q).parents, id) {
      assert Same(w.parents, p.parents, id) || (id in ParentIds(q) && id !in w.parents);
    }
    SameEverywhere(Cleared(w, q).points, Cleared(p, q).points);
    SameEverywhere(Cleared(w, q).parents, Cleared(p, q).parents);
    DeletedThinned(q, p.meta.chunks, w.meta.chunks, p, w);
  }

  lemma DeletedThinned(q: Request, full: map<ChunkId, ChunkRow>, some: map<ChunkId, ChunkRow>, p: World, w: World)
    requires p.meta.chunks == full && w.meta == p.meta.(chunks := some) && ThinRows(full, some, q.key)
    ensures DeleteChunks(w.meta, q.key) == DeleteChunks(p.meta, q.key)
  {
    var a, b := DeleteChunks(w.meta, q.key).chunks, DeleteChunks(p.meta, q.key).chunks;
    forall id ensures Same(a, b, id) {
      assert Same(some, full, id) || (id in full && full[id].key == q.key && id !in some);
    }
    SameEverywhere(a, b);
  }
}
