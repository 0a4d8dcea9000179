/** Idempotent writes that carry three keyed tables from one content to another:
    every prefix stays between the two, and a covering sequence arrives. */
module PlaneWrites {
  import opened Common
  import opened Policy
  import opened ControlPlane
  import opened DataPlane
  import opened Stores
  import opened Ingestion

  datatype Planes = Planes(points: map<ChunkId, Point>, parents: map<ChunkId, Parent>, chunks: map<ChunkId, ChunkRow>)

  function PlanesOf(w: World): Planes {
    Planes(w.points, w.parents, w.meta.chunks)
  }

  ghost predicate Between<V>(a: map<ChunkId, V>, b: map<ChunkId, V>, m: map<ChunkId, V>) {
    forall id :: Same(m, a, id) || Same(m, b, id)
  }

  ghost predicate BetweenPlanes(a: Planes, b: Planes, p: Planes) {
    Between(a.points, b.points, p.points) && Between(a.parents, b.parents, p.parents) && Between(a.chunks, b.chunks, p.chunks)
  }

  predicate PlaneOp(op: Op) {
    op.PutPoint? || op.PutParent? || op.PromoteParent? || op.RetireParent? || (op.Control? && op.action.DoUpsertChunk?)
  }

  function Touch(p: Planes, op: Op): Planes
    requires PlaneOp(op)
  {
    match op
    case PutPoint(id, v) => p.(points := p.points[id := v])
    case PutParent(id, v) => p.(parents := p.parents[id := v])
    case PromoteParent(id) => p.(parents := ActivatedIn(p.parents, id))
    case RetireParent(id) => p.(parents := DeprecatedIn(p.parents, id))
    case Control(a) => p.(chunks := p.chunks[a.id := a.row])
  }

  /** The entry an operation touches already has its final content. */
  ghost predicate Hit(p: Planes, b: Planes, op: Op)
    requires PlaneOp(op)
  {
    match op
    case PutPoint(id, _) => Same(p.points, b.points, id)
    case PutParent(id, _) => Same(p.parents, b.parents, id)
    case PromoteParent(id) => Same(p.parents, b.parents, id)
    case RetireParent(id) => Same(p.parents, b.parents, id)
    case Control(a) => Same(p.chunks, b.chunks, a.id)
  }

  ghost predicate Advances(a: Planes, b: Planes, op: Op) {
    PlaneOp(op) && Hit(Touch(a, op), b, op) && Hit(Touch(b, op), b, op)
  }

  /** Entries already final stay final. */
  ghost predicate Keeps<V>(m: map<ChunkId, V>, m': map<ChunkId, V>, b: map<ChunkId, V>) {
    forall id | Same(m, b, id) :: Same(m', b, id)
  }

  ghost predicate KeepsHits(p: Planes, p': Planes, b: Planes) {
    Keeps(p.points, p'.points, b.points) && Keeps(p.parents, p'.parents, b.parents) && Keeps(p.chunks, p'.chunks, b.chunks)
  }

  /** One entry becomes final and nothing else moves. */
  lemma PutAdvances<V>(a: map<ChunkId, V>, b: map<ChunkId, V>, m: map<ChunkId, V>, m': map<ChunkId, V>, id: ChunkId)
    requires Between(a, b, m) && Same(m', b, id)
    requires forall o | o != id :: Same(m', m, o)
    ensures Between(a, b, m') && Keeps(m, m', b)
  {
    forall o ensures Same(m', a, o) || Same(m', b, o) {
      assert Same(m, a, o) || Same(m, b, o);
      assert o != id ==> Same(m', m, o);
    }
    forall o | Same(m, b, o) ensures Same(m', b, o) {
      assert o != id ==> Same(m', m, o);
    }
  }

  lemma TouchAdvances(a: Planes, b: Planes, p: Planes, op: Op)
    requires BetweenPlanes(a, b, p) && Advances(a, b, op)
    ensures BetweenPlanes(a, b, Touch(p, op)) && Hit(Touch(p, op), b, op) && KeepsHits(p, Touch(p, op), b)
  {
    hide Between, Keeps;
    var p' := Touch(p, op);
    KeepsRefl(p, b);
    if op.PutPoint? {
      PutAdvances(a.points, b.points, p.points, p'.points, op.id);
    } else if op.Control? {
      PutAdvances(a.chunks, b.chunks, p.chunks, p'.chunks, op.action.id);
    } else {
      PatchHits(a, b, p, op);
      PutAdvances(a.parents, b.parents, p.parents, p'.parents, op.id);
    }
  }

  lemma PatchHits(a: Planes, b: Planes, p: Planes, op: Op)
    requires Between(a.parents, b.parents, p.parents) && Advances(a, b, op)
    requires op.PutParent? || op.PromoteParent? || op.RetireParent?
    ensures Same(Touch(p, op).parents, b.parents, op.id)
  {
    assert Same(p.parents, a.parents, op.id) || Same(p.parents, b.parents, op.id);
  }

  lemma HitKept(p: Planes, p': Planes, b: Planes, op: Op)
    requires PlaneOp(op) && Hit(p, b, op) && KeepsHits(p, p', b)
    ensures Hit(p', b, op)
  {
  }

  lemma PlaneEffect(w: World, q: Request, op: Op)
    requires PlaneOp(op)
    ensures var w' := Effect(w, q, op);
            && PlanesOf(w') == Touch(PlanesOf(w), op) && w'.meta == w.meta.(chunks := w'.meta.chunks)
            && Admits(w, q, op)
  {
  }

  ghost predicate AllAdvance(a: Planes, b: Planes, ops: seq<Op>) {
    forall i | 0 <= i < |ops| :: Advances(a, b, ops[i])
  }

  /** However early the writes are cut, nothing raises, the control plane stands
      still, and the planes stay between `a` and `b`; run to the end, every entry
      they touch is final. */
  lemma {:induction false} OpsAdvance(a: Planes, b: Planes, w: World, q: Request, ops: seq<Op>, budget: Option<nat>, switched: bool)
    requires AllAdvance(a, b, ops) && BetweenPlanes(a, b, PlanesOf(w))
    ensures var r := RunOps(w, q, ops, budget, switched);
            && !r.Raised? && r.switched == switched
            && (budget.None? ==> r.Completed? && r.budget.None?)
            && r.world.meta == w.meta.(chunks := r.world.meta.chunks)
            && BetweenPlanes(a, b, PlanesOf(r.world)) && KeepsHits(PlanesOf(w), PlanesOf(r.world), b)
            && (r.Completed? ==> forall i | 0 <= i < |ops| :: Hit(PlanesOf(r.world), b, ops[i]))
    decreases |ops|
  {
    hide BetweenPlanes, KeepsHits, Advances, Effect, Admits, PlanesOf, Hit, Touch;
    var r := RunOps(w, q, ops, budget, switched);
    if ops == [] || budget == Some(0) {
      KeepsRefl(PlanesOf(w), b);
    } else {
      var w' := Effect(w, q, ops[0]);
      assert PlaneOp(ops[0]) by { AdvancesIsPlane(a, b, ops[0]); }
      PlaneEffect(w, q, ops[0]);
      TouchAdvances(a, b, PlanesOf(w), ops[0]);
      OpsAdvance(a, b, w', q, ops[1..], Spend(budget), switched);
      KeepsTrans(PlanesOf(w), PlanesOf(w'), PlanesOf(r.world), b);
      HitKept(PlanesOf(w'), PlanesOf(r.world), b, ops[0]);
      if r.Completed? {
        forall i | 0 <= i < |ops| ensures PlaneOp(ops[i]) && Hit(PlanesOf(r.world), b, ops[i]) {
          if i > 0 {
            assert ops[i] == ops[1..][i - 1];
            AdvancesIsPlane(a, b, ops[i]);
          }
        }
      }
    }
  }

  lemma AdvancesIsPlane(a: Planes, b: Planes, op: Op)
    requires Advances(a, b, op)
    ensures PlaneOp(op)
  {
  }

  lemma KeepsRefl(p: Planes, b: Planes)
    ensures KeepsHits(p, p, b)
  {
  }

  lemma KeepsTrans(p: Planes, p': Planes, p'': Planes, b: Planes)
    requires KeepsHits(p, p', b) && KeepsHits(p', p'', b)
    ensures KeepsHits(p, p'', b)
  {
  }

  predicate TouchesPoint(op: Op, id: ChunkId) {
    op.PutPoint? && op.id == id
  }

  predicate TouchesParent(op: Op, id: ChunkId) {
    (op.PutParent? || op.PromoteParent? || op.RetireParent?) && op.id == id
  }

  predicate TouchesChunk(op: Op, id: ChunkId) {
    op.Control? && op.action.DoUpsertChunk? && op.action.id == id
  }

  ghost predicate CoversPoints(a: Planes, b: Planes, ops: seq<Op>) {
    forall id | !Same(a.points, b.points, id) :: exists op | op in ops :: TouchesPoint(op, id)
  }

  ghost predicate CoversParents(a: Planes, b: Planes, ops: seq<Op>) {
    forall id | !Same(a.parents, b.parents, id) :: exists op | op in ops :: TouchesParent(op, id)
  }

  ghost predicate CoversChunks(a: Planes, b: Planes, ops: seq<Op>) {
    forall id | !Same(a.chunks, b.chunks, id) :: exists op | op in ops :: TouchesChunk(op, id)
  }

  /** Some operation touches every entry on which `a` and `b` differ. */
  ghost predicate Covers(a: Planes, b: Planes, ops: seq<Op>) {
    CoversPoints(a, b, ops) && CoversParents(a, b, ops) && CoversChunks(a, b, ops)
  }

  lemma CoversMore(a: Planes, b: Planes, some: seq<Op>, all: seq<Op>)
    requires forall op | op in some :: op in all
    ensures CoversPoints(a, b, some) ==> CoversPoints(a, b, all)
    ensures CoversParents(a, b, some) ==> CoversParents(a, b, all)
    ensures CoversChunks(a, b, some) ==> CoversChunks(a, b, all)
  {
  }

  lemma AllAdvanceConcat(a: Planes, b: Planes, x: seq<Op>, y: seq<Op>)
    requires AllAdvance(a, b, x) && AllAdvance(a, b, y)
    ensures AllAdvance(a, b, x + y)
  {
    hide Advances;
  }

  lemma CoveredArrives(a: Planes, b: Planes, p: Planes, ops: seq<Op>)
    requires BetweenPlanes(a, b, p) && Covers(a, b, ops)
    requires forall op | op in ops :: PlaneOp(op) && Hit(p, b, op)
    ensures p == b
  {
    forall id ensures Same(p.points, b.points, id) {
      if !Same(a.points, b.points, id) {
        var op :| op in ops && TouchesPoint(op, id);
        assert Hit(p, b, op);
      } else { assert Same(p.points, a.points, id) || Same(p.points, b.points, id); }
    }
    forall id ensures Same(p.parents, b.parents, id) {
      if !Same(a.parents, b.parents, id) {
        var op :| op in ops && TouchesParent(op, id);
        assert Hit(p, b, op);
      } else { assert Same(p.parents, a.parents, id) || Same(p.parents, b.parents, id); }
    }
    forall id ensures Same(p.chunks, b.chunks, id) {
      if !Same(a.chunks, b.chunks, id) {
        var op :| op in ops && TouchesChunk(op, id);
        assert Hit(p, b, op);
      } else { assert Same(p.chunks, a.chunks, id) || Same(p.chunks, b.chunks, id); }
    }
    SameEverywhere(p.points, b.points);
    SameEverywhere(p.parents, b.parents);
    SameEverywhere(p.chunks, b.chunks);
  }

  /** Running a concatenation is running its parts in turn. */
  lemma {:induction false} RunOpsConcat(w: World, q: Request, a: seq<Op>, b: seq<Op>, budget: Option<nat>, switched: bool)
    ensures RunOps(w, q, a + b, budget, switched) ==
            match RunOps(w, q, a, budget, switched) {
              case Completed(w', b', s') => RunOps(w', q, b, b', s')
              case other => other
            }
    decreases |a|
  {
    hide Effect, Admits;
    if a == [] {
      assert a + b == b;
    } else if budget != Some(0) && Admits(w, q, a[0]) {
      assert (a + b)[1..] == a[1..] + b;
      RunOpsConcat(Effect(w, q, a[0]), q, a[1..], b, Spend(budget), switched || a[0].SwitchVersion?);
    }
  }
}
