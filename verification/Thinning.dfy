/** Worlds in which some of a build's own entries are missing: a run on such a world
    takes the same steps as on the full one, except where verification notices. */
module Thinning {
  import opened Common
  import opened Policy
  import opened ControlPlane
  import opened Lifecycle
  import opened DataPlane
  import opened Stores
  import opened Ingestion
  import opened PlaneWrites
  import opened IngestionProgress

  ghost predicate Thin<V>(full: map<ChunkId, V>, some: map<ChunkId, V>, own: set<ChunkId>) {
    forall id :: Same(some, full, id) || (id in own && id !in some)
  }

  ghost predicate ThinRows(full: map<ChunkId, ChunkRow>, some: map<ChunkId, ChunkRow>, k: Key) {
    forall id :: Same(some, full, id) || (id in full && full[id].key == k && id !in some)
  }

  /** `w` is `p` but for entries of this build that are missing. */
  ghost predicate Thinned(q: Request, p: World, w: World) {
    && w.meta == p.meta.(chunks := w.meta.chunks)
    && Thin(p.points, w.points, ChildIds(q)) && Thin(p.parents, w.parents, ParentIds(q))
    && ThinRows(p.meta.chunks, w.meta.chunks, q.key)
  }

  lemma ThinnedSelf(q: Request, p: World)
    ensures Thinned(q, p, p)
  {
  }

  // ---------------------------------------------------------------------
  // The writes of a step
  // ---------------------------------------------------------------------

  /** The writes and guards of the steps, but for verification. */
  predicate Blind(op: Op) {
    match op
    case Control(a) => a.DoUpsertChunk? || a.DoMarkStep? || a.DoTerminal?
    case CheckPlanes => false
    case DropPoint(_) => false
    case DropParent(_) => false
    case _ => true
  }

  lemma BlindRow(q: Request, p: World, w: World, id: ChunkId, row: ChunkRow)
    requires ThinRows(p.meta.chunks, w.meta.chunks, q.key)
    ensures ThinRows(p.meta.chunks[id := row], w.meta.chunks[id := row], q.key)
  {
    var full, some := p.meta.chunks, w.meta.chunks;
    forall o | o != id
      ensures Same(some[id := row], full[id := row], o) || (o in full && full[o].key == q.key && o !in some)
    {
      assert Same(some, full, o) || (o in full && full[o].key == q.key && o !in some);
    }
  }

  lemma BlindSwitch(q: Request, p: World, w: World, expected: nat)
    requires w.meta == p.meta.(chunks := w.meta.chunks)
    ensures var (a, b) := (CommitActive(p.meta, q.key, expected), CommitActive(w.meta, q.key, expected));
            && a.1 == b.1 && b.0 == a.0.(chunks := w.meta.chunks) && a.0.chunks == p.meta.chunks
  {
    hide MaxRevision, ActiveVersion, SwitchActive;
  }

  lemma BlindAction(q: Request, p: World, w: World, a: Action)
    requires w.meta == p.meta.(chunks := w.meta.chunks) && ThinRows(p.meta.chunks, w.meta.chunks, q.key)
    requires a.DoUpsertChunk? || a.DoMarkStep? || a.DoTerminal?
    ensures var (a', b') := (Apply(p.meta, a), Apply(w.meta, a));
            b' == a'.(chunks := b'.chunks) && ThinRows(a'.chunks, b'.chunks, q.key)
  {
    hide ThinRows, MaxRevision, ActiveVersion, AcquireJob, RollbackActive, LogicalDelete, CommitActive;
    if a.DoUpsertChunk? { BlindRow(q, p, w, a.id, a.row); }
  }

  lemma BlindControl(q: Request, p: World, w: World, op: Op)
    requires Thinned(q, p, w) && Blind(op) && (op.Control? || op.SwitchVersion? || op.CheckOwner?)
    ensures Thinned(q, Effect(p, q, op), Effect(w, q, op)) && (Admits(p, q, op) <==> Admits(w, q, op))
  {
    hide CommitActive, ThinRows, Thin, Apply;
    if op.Control? {
      BlindAction(q, p, w, op.action);
    } else if op.SwitchVersion? {
      BlindSwitch(q, p, w, op.expected);
    }
  }

  lemma BlindPlane(q: Request, p: World, w: World, op: Op)
    requires Thinned(q, p, w) && Blind(op) && !(op.Control? || op.SwitchVersion? || op.CheckOwner?)
    ensures Thinned(q, Effect(p, q, op), Effect(w, q, op)) && Admits(p, q, op) && Admits(w, q, op)
  {
    hide WithStatus;
    var p', w' := Effect(p, q, op), Effect(w, q, op);
    forall id ensures Same(w'.points, p'.points, id) || (id in ChildIds(q) && id !in w'.points) {
      assert Same(w.points, p.points, id) || (id in ChildIds(q) && id !in w.points);
    }
    forall id ensures Same(w'.parents, p'.parents, id) || (id in ParentIds(q) && id !in w'.parents) {
      assert Same(w.parents, p.parents, id) || (id in ParentIds(q) && id !in w.parents);
    }
  }

  /** The same result, in thinned worlds. */
  ghost predicate Alike(q: Request, a: Outcome, b: Outcome) {
    && Thinned(q, a.world, b.world) && a.switched == b.switched
    && (a.Completed? <==> b.Completed?) && (a.Cut? <==> b.Cut?)
    && (a.Completed? ==> a.budget == b.budget)
    && (a.Raised? ==> a.budget == b.budget && a.op == b.op)
  }

  lemma {:induction false} RunThins(q: Request, p: World, w: World, ops: seq<Op>, budget: Option<nat>, switched: bool)
    requires Thinned(q, p, w) && forall op | op in ops :: Blind(op)
    ensures Alike(q, RunOps(p, q, ops, budget, switched), RunOps(w, q, ops, budget, switched))
    decreases |ops|
  {
    hide Thinned, Effect, Admits, Blind;
    if ops != [] && budget != Some(0) {
      var op := ops[0];
      if op.Control? || op.SwitchVersion? || op.CheckOwner? { BlindControl(q, p, w, op); } else { BlindPlane(q, p, w, op); }
      if Admits(p, q, op) {
        RunThins(q, Effect(p, q, op), Effect(w, q, op), ops[1..], Spend(budget), switched || op.SwitchVersion?);
      }
    }
  }

  // ---------------------------------------------------------------------
  // One step
  // ---------------------------------------------------------------------

  lemma ReplacedStand(q: Request, p: World, w: World, replaced: Option<Key>, parents: bool)
    requires ThinRows(p.meta.chunks, w.meta.chunks, q.key) && replaced != Some(q.key)
    ensures ReplacedIds(w.meta.chunks, replaced, parents) == ReplacedIds(p.meta.chunks, replaced, parents)
    ensures forall id | id in ReplacedIds(p.meta.chunks, replaced, parents) ::
              id in w.meta.chunks && w.meta.chunks[id] == p.meta.chunks[id]
  {
    var full, some := p.meta.chunks, w.meta.chunks;
    assert forall id | id in some :: Same(some, full, id);
    assert forall id | id in full && full[id].key != q.key :: Same(some, full, id);
  }

  lemma PublishStands(q: Request, p: World, w: World, g: nat)
    requires Thinned(q, p, w)
    ensures PublishOps(w, q, g) == PublishOps(p, q, g)
  {
    hide PointOps, PromoteOps, RetireParentOps, RetiredPoint, ReplacedIds, Thin, ThinRows;
    var replaced := Replaced(q, Recorded(p, q));
    assert Recorded(w, q) == Recorded(p, q);
    ReplacedStand(q, p, w, replaced, true);
    ReplacedStand(q, p, w, replaced, false);
    var ids := Enumerate(ReplacedIds(p.meta.chunks, replaced, false));
    assert RetirePointOps(q, w.meta.chunks, ids) == RetirePointOps(q, p.meta.chunks, ids);
  }

  lemma PublishIsBlind(q: Request, p: World, g: nat)
    ensures forall op | op in PublishOps(p, q, g) :: Blind(op) && !op.PutParent? && !op.Control?
  {
  }

  lemma StepStands(q: Request, p: World, w: World, g: nat, n: nat)
    requires Thinned(q, p, w) && n < |Steps|
    ensures StepOps(w, q, g, Steps[n]) == StepOps(p, q, g, Steps[n])
    ensures n != 5 ==> forall op | op in StepOps(p, q, g, Steps[n]) + [Control(DoMarkStep(q.job, Steps[n]))] :: Blind(op)
  {
    hide PublishOps, Thin, ThinRows;
    PublishStands(q, p, w, g);
    PublishIsBlind(q, p, g);
  }

  // ---------------------------------------------------------------------
  // What is there
  // ---------------------------------------------------------------------

  predicate PointsIn(q: Request, w: World) {
    forall i | 0 <= i < |q.children| :: q.children[i].id in w.points
  }

  predicate ParentsIn(q: Request, w: World) {
    forall i | 0 <= i < |q.parents| :: q.parents[i].id in w.parents
  }

  predicate RowsIn(q: Request, w: World) {
    && (forall i | 0 <= i < |q.children| :: q.children[i].id in w.meta.chunks)
    && (forall i | 0 <= i < |q.parents| :: q.parents[i].id in w.meta.chunks)
  }

  predicate Whole(q: Request, w: World) {
    PointsIn(q, w) && ParentsIn(q, w) && RowsIn(q, w)
  }

  ghost predicate PutsPoint(ops: seq<Op>, id: ChunkId) {
    exists op :: op in ops && op.PutPoint? && op.id == id
  }

  ghost predicate PutsParent(ops: seq<Op>, id: ChunkId) {
    exists op :: op in ops && op.PutParent? && op.id == id
  }

  ghost predicate PutsRow(ops: seq<Op>, id: ChunkId) {
    exists op :: op in ops && TouchesChunk(op, id)
  }

  lemma EffectPuts(w: World, q: Request, op: Op, id: ChunkId)
    requires Blind(op)
    ensures var w' := Effect(w, q, op);
            && (id in w'.points <==> id in w.points || (op.PutPoint? && op.id == id))
            && (id in w'.parents <==> id in w.parents || (op.PutParent? && op.id == id))
            && (id in w'.meta.chunks <==> id in w.meta.chunks || TouchesChunk(op, id))
  {
    hide MaxRevision, ActiveVersion, SwitchActive, WithStatus;
  }

  lemma {:induction false} RunPuts(w: World, q: Request, ops: seq<Op>, budget: Option<nat>, switched: bool, id: ChunkId)
    requires forall op | op in ops :: Blind(op)
    requires RunOps(w, q, ops, budget, switched).Completed?
    ensures var w' := RunOps(w, q, ops, budget, switched).world;
            && (id in w'.points <==> id in w.points || PutsPoint(ops, id))
            && (id in w'.parents <==> id in w.parents || PutsParent(ops, id))
            && (id in w'.meta.chunks <==> id in w.meta.chunks || PutsRow(ops, id))
    decreases |ops|
  {
    if ops != [] {
      hide Effect, Admits, Blind;
      var op, rest := ops[0], ops[1..];
      EffectPuts(w, q, op, id);
      RunPuts(Effect(w, q, op), q, rest, Spend(budget), switched || op.SwitchVersion?, id);
      assert forall o :: o in ops <==> o == op || o in rest;
    }
  }

  /** What a finished step adds: the parents, the points and rows, or the points again. */
  ghost predicate Added(q: Request, n: nat, w: World, w': World) {
    && (ParentsIn(q, w') <==> n == 3 || ParentsIn(q, w))
    && (RowsIn(q, w') <==> n == 4 || RowsIn(q, w))
    && (PointsIn(q, w') <==> n == 4 || n == 7 || PointsIn(q, w))
  }

  lemma StepPutsParents(q: Request, p: World, g: nat, n: nat)
    requires n < |Steps|
    ensures var ops := StepOps(p, q, g, Steps[n]) + [Control(DoMarkStep(q.job, Steps[n]))];
            && (n != 3 ==> forall id :: !PutsParent(ops, id))
            && (n == 3 ==> forall i | 0 <= i < |q.parents| :: PutsParent(ops, q.parents[i].id))
  {
    hide PublishOps;
    PublishIsBlind(q, p, g);
    var ops := StepOps(p, q, g, Steps[n]) + [Control(DoMarkStep(q.job, Steps[n]))];
    if n == 3 {
      forall i | 0 <= i < |q.parents| ensures PutsParent(ops, q.parents[i].id) {
        assert ops[i] in ops && ops[i].PutParent? && ops[i].id == q.parents[i].id;
      }
    }
  }

  lemma StepPutsPoints(q: Request, p: World, g: nat, n: nat)
    requires n < |Steps|
    ensures var ops := StepOps(p, q, g, Steps[n]) + [Control(DoMarkStep(q.job, Steps[n]))];
            && (n in {4, 7} ==> forall i | 0 <= i < |q.children| :: PutsPoint(ops, q.children[i].id))
            && (n !in {4, 7} ==> forall id :: !PutsPoint(ops, id))
  {
    hide RetiredPoint, PromoteOps, RetireParentOps, RetirePointOps, ChildRowOps, ParentRowOps;
    var ops := StepOps(p, q, g, Steps[n]) + [Control(DoMarkStep(q.job, Steps[n]))];
    if n in {4, 7} {
      var status := if n == 4 then "processing" else "active";
      forall i | 0 <= i < |q.children| ensures PutsPoint(ops, q.children[i].id) {
        var op := PointOps(q, status)[i];
        assert op in PointOps(q, status) && op in ops && op.PutPoint? && op.id == q.children[i].id;
      }
    }
  }

  lemma PointsTouchNoRow(q: Request)
    ensures forall op | op in PointOps(q, "processing") :: op.PutPoint?
  {
  }

  lemma StepPutsRows(q: Request, p: World, g: nat, n: nat)
    requires n < |Steps|
    ensures var ops := StepOps(p, q, g, Steps[n]) + [Control(DoMarkStep(q.job, Steps[n]))];
            && (n != 4 ==> forall id :: !PutsRow(ops, id))
            && (n == 4 ==> forall i | 0 <= i < |q.children| :: PutsRow(ops, q.children[i].id))
            && (n == 4 ==> forall i | 0 <= i < |q.parents| :: PutsRow(ops, q.parents[i].id))
  {
    hide PublishOps, PointOps;
    PublishIsBlind(q, p, g);
    PointsTouchNoRow(q);
    var ops := StepOps(p, q, g, Steps[n]) + [Control(DoMarkStep(q.job, Steps[n]))];
    if n == 4 {
      forall i | 0 <= i < |q.children| ensures PutsRow(ops, q.children[i].id) {
        var op := ChildRowOps(q)[i];
        assert op in ChildRowOps(q) && op in ops && TouchesChunk(op, q.children[i].id);
      }
      forall i | 0 <= i < |q.parents| ensures PutsRow(ops, q.parents[i].id) {
        var op := ParentRowOps(q)[i];
        assert op in ParentRowOps(q) && op in ops && TouchesChunk(op, q.parents[i].id);
      }
    }
  }

  lemma StepAdds(w: World, q: Request, g: nat, n: nat, budget: Option<nat>, switched: bool)
    requires n < |Steps| && n != 5 && RunStep(w, q, g, n, budget, switched).Completed?
    ensures Added(q, n, w, RunStep(w, q, g, n, budget, switched).world)
  {
    hide PublishOps, Blind, RunOps, PutsPoint, PutsParent, PutsRow, StepOps;
    var ops := StepOps(w, q, g, Steps[n]) + [Control(DoMarkStep(q.job, Steps[n]))];
    ThinnedSelf(q, w);
    StepStands(q, w, w, g, n);
    StepPutsParents(q, w, g, n);
    StepPutsPoints(q, w, g, n);
    StepPutsRows(q, w, g, n);
    forall id
      ensures var w' := RunStep(w, q, g, n, budget, switched).world;
              && (id in w'.points <==> id in w.points || PutsPoint(ops, id))
              && (id in w'.parents <==> id in w.parents || PutsParent(ops, id))
              && (id in w'.meta.chunks <==> id in w.meta.chunks || PutsRow(ops, id))
    {
      RunPuts(w, q, ops, budget, switched, id);
    }
  }

  // ---------------------------------------------------------------------
  // Verification
  // ---------------------------------------------------------------------

  lemma ThinRowsCount(q: Request, p: World, w: World)
    requires WellFormed(q) && ThinRows(p.meta.chunks, w.meta.chunks, q.key)
    requires ChunkIds(p.meta, q.key) == ParentIds(q) + ChildIds(q)
    ensures ChunkIds(w.meta, q.key) <= ChunkIds(p.meta, q.key)
    ensures RowsIn(q, w) <==> |ChunkIds(w.meta, q.key)| == |q.parents| + |q.children|
  {
    hide WellFormed;
    OwnIdsCount(q);
    var full, some := ChunkIds(p.meta, q.key), ChunkIds(w.meta, q.key);
    assert forall id | id in w.meta.chunks :: Same(w.meta.chunks, p.meta.chunks, id);
    assert forall i | 0 <= i < |q.children| :: q.children[i].id in full;
    assert forall i | 0 <= i < |q.parents| :: q.parents[i].id in full;
    if |some| == |full| {
      SameSize(some, full);
    }
    if RowsIn(q, w) {
      forall id | id in full ensures id in some {
        if id in ChildIds(q) { assert q.children[ChildAt(q, id)].id == id; } else { assert q.parents[ParentAt(q, id)].id == id; }
      }
      assert some == full;
    }
  }

  lemma SameSize<T>(a: set<T>, b: set<T>)
    requires a <= b && |a| == |b|
    ensures a == b
  {
    assert |b - a| == |b| - |a|;
  }

  /** On a built world verification passes exactly when nothing is missing. */
  lemma VerifyIff(s: World, q: Request, p: World, w: World)
    requires Startable(s, q) && PlanesOf(p) == Built(s, q) && p.meta.documents == ClaimedDocs(s, q) && Thinned(q, p, w)
    ensures PlanesComplete(w, q) <==> Whole(q, w)
  {
    hide Built, SoundDocuments, WellFormed, ParentIds, ChildIds, MaxRevision, ThinRows, ClaimedDocs;
    assert WellFormed(q) && OnlyOwnRows(s.meta.chunks, q);
    BuiltVerifies(s, q, p);
    BuiltHas(s, q);
    BuiltRowsAreOwn(s, q);
    assert ChunkIds(p.meta, q.key) == ParentIds(q) + ChildIds(q);
    ThinRowsCount(q, p, w);
    forall i | 0 <= i < |q.parents| ensures q.parents[i].id in w.parents ==> w.parents[q.parents[i].id].key == q.key {
      assert q.parents[i].id in w.parents ==> Same(w.parents, p.parents, q.parents[i].id);
    }
    forall i | 0 <= i < |q.children|
      ensures q.children[i].id in w.points ==> w.points[q.children[i].id] == p.points[q.children[i].id]
    {
      assert q.children[i].id in w.points ==> Same(w.points, p.points, q.children[i].id);
    }
  }

  // ---------------------------------------------------------------------
  // Whole runs
  // ---------------------------------------------------------------------

  /** What a build must still have to end well from its first `n` steps on. */
  predicate Intact(q: Request, n: nat, w: World) {
    && (n >= 4 ==> ParentsIn(q, w))
    && (n >= 5 ==> RowsIn(q, w))
    && (n == 5 || n >= 8 ==> PointsIn(q, w))
  }

  /** Step `n` on a thinned world. */
  ghost predicate ThinOutcome(s: World, q: Request, g: nat, n: nat, w: World, budget: Option<nat>, r: Outcome, p': World) {
    && Thinned(q, p', r.world) && p'.meta.builds == r.world.meta.builds
    && (r.Completed? ==> InRun(s, q, g, n + 1, p') && (Intact(q, n, w) <==> Intact(q, n + 1, r.world)))
    && (!r.Completed? ==> Progress(s, q, n, p') && p'.meta.builds[q.key].generation == g)
    && (r.Raised? ==> n == 5 && r.op == CheckPlanes && !Intact(q, n, w) && r.budget == budget)
    && (r.switched ==> r.world.meta.documents == FinalDocs(s, q))
    && (n == 5 && r.Completed? ==> Intact(q, n, w))
    && (budget.None? ==> !r.Cut? && (r.Completed? ==> r.budget.None?))
  }

  lemma ThinVerify(s: World, q: Request, g: nat, p: World, w: World, budget: Option<nat>, switched: bool) returns (p': World)
    requires Startable(s, q) && InRun(s, q, g, 5, p) && Thinned(q, p, w)
    requires switched ==> p.meta.documents == FinalDocs(s, q)
    ensures ThinOutcome(s, q, g, 5, w, budget, RunStep(w, q, g, 5, budget, switched), p')
  {
    hide Startable, PlanesComplete, Target, Prev, Base, FinalDocs, ClaimedDocs, RunOps, BetweenPlanes, Built, FinalPlanes,
         WellFormed, HasParents, SoundDocuments, MaxRevision, Thin, ThinRows, StepOutcome, RunStep, ParentsIn, PointsIn, RowsIn;
    var mark := [Control(DoMarkStep(q.job, Verify))];
    TargetsAre(s, q);
    AtTarget(Built(s, q), PlanesOf(p));
    VerifyIff(s, q, p, w);
    VerifyStep(s, q, g, p, budget, switched);
    VerifyRuns(p, q, g, budget, switched);
    VerifyRuns(w, q, g, budget, switched);
    BuiltVerifies(s, q, p);
    var r := RunStep(w, q, g, 5, budget, switched);
    p' := if r.Completed? then RunStep(p, q, g, 5, budget, switched).world else p;
    StepCompletes(s, q, g, 5, budget, RunStep(p, q, g, 5, budget, switched));
    if r.Completed? { SamePresence(q, w, r.world); }
  }

  lemma SamePresence(q: Request, w: World, w': World)
    requires PlanesOf(w) == PlanesOf(w')
    ensures PointsIn(q, w) <==> PointsIn(q, w')
    ensures ParentsIn(q, w) <==> ParentsIn(q, w')
    ensures RowsIn(q, w) <==> RowsIn(q, w')
  {
  }

  lemma StepCompletes(s: World, q: Request, g: nat, n: nat, budget: Option<nat>, r: Outcome)
    requires StepOutcome(s, q, g, n, budget, r)
    ensures r.Completed? ==> InRun(s, q, g, n + 1, r.world)
  {
  }

  lemma VerifyRuns(w: World, q: Request, g: nat, budget: Option<nat>, switched: bool)
    ensures RunStep(w, q, g, 5, budget, switched) ==
            if budget == Some(0) then Cut(w, switched)
            else if !PlanesComplete(w, q) then Raised(w, budget, switched, CheckPlanes)
            else if Spend(budget) == Some(0) then Cut(w, switched)
            else Completed(w.(meta := MarkStep(w.meta, q.job, Verify)), Spend(Spend(budget)), switched)
  {
    hide PlanesComplete, RunOps;
    var mark := [Control(DoMarkStep(q.job, Verify))];
    RunFirst(w, q, CheckPlanes, mark, budget, switched);
    if budget != Some(0) { RunMark(w, q, Verify, Spend(budget), switched); }
  }

  lemma ThinStep(s: World, q: Request, g: nat, n: nat, p: World, w: World, budget: Option<nat>, switched: bool)
    returns (p': World)
    requires Startable(s, q) && n < |Steps| && InRun(s, q, g, n, p) && Thinned(q, p, w)
    requires switched ==> p.meta.documents == FinalDocs(s, q)
    ensures ThinOutcome(s, q, g, n, w, budget, RunStep(w, q, g, n, budget, switched), p')
  {
    if n == 5 {
      p' := ThinVerify(s, q, g, p, w, budget, switched);
    } else {
      hide Startable, InRun, Progress, FinalDocs, RunOps, Blind, StepOps, Thinned, StepOutcome, ThinOutcome, Alike, Added;
      var ops := StepOps(p, q, g, Steps[n]) + [Control(DoMarkStep(q.job, Steps[n]))];
      StepStands(q, p, w, g, n);
      RunThins(q, p, w, ops, budget, switched);
      AnyStep(s, q, g, n, p, budget, switched);
      var a, r := RunStep(p, q, g, n, budget, switched), RunStep(w, q, g, n, budget, switched);
      p' := a.world;
      if r.Completed? { StepAdds(w, q, g, n, budget, switched); }
      AlikeOutcome(s, q, g, n, w, budget, a, r);
    }
  }

  lemma AlikeOutcome(s: World, q: Request, g: nat, n: nat, w: World, budget: Option<nat>, a: Outcome, r: Outcome)
    requires n != 5 && StepOutcome(s, q, g, n, budget, a) && Alike(q, a, r)
    requires r.Completed? ==> Added(q, n, w, r.world)
    ensures ThinOutcome(s, q, g, n, w, budget, r, a.world)
  {
    hide FinalDocs, Thin, ThinRows, HoldsJob, DocsAt, PlanesAt, Marked, StatusAt, ParentsIn, PointsIn, RowsIn;
  }

  /** Only the version switch raises the flag. */
  lemma {:induction false} RunFlag(w: World, q: Request, ops: seq<Op>, budget: Option<nat>, switched: bool)
    requires forall op | op in ops :: !op.SwitchVersion?
    ensures RunOps(w, q, ops, budget, switched).switched == switched
    decreases |ops|
  {
    hide Effect, Admits;
    if ops != [] && budget != Some(0) && Admits(w, q, ops[0]) {
      RunFlag(Effect(w, q, ops[0]), q, ops[1..], Spend(budget), switched);
    }
  }

  lemma EarlyFlag(w: World, q: Request, g: nat, n: nat, budget: Option<nat>, switched: bool)
    requires n < 6
    ensures RunStep(w, q, g, n, budget, switched).switched == switched
  {
    hide RunOps;
    RunFlag(w, q, StepOps(w, q, g, Steps[n]) + [Control(DoMarkStep(q.job, Steps[n]))], budget, switched);
  }

  /** Running the remaining steps on a thinned world, cut anywhere. Uncut, it ends when
      enough is there for verification, and ends whole when enough is there at all. */
  lemma {:induction false} ThinRun(s: World, q: Request, g: nat, i: nat, n: nat, p: World, w: World, budget: Option<nat>, switched: bool)
    returns (m: nat, p': World)
    requires Startable(s, q) && i <= n <= |Steps| && InRun(s, q, g, n, p) && Thinned(q, p, w)
    requires switched ==> p.meta.documents == FinalDocs(s, q)
    ensures var r := RunSteps(w, q, g, i, budget, switched);
            && Progress(s, q, m, p') && p'.meta.builds[q.key].generation == g && Thinned(q, p', r.world)
            && (r.Completed? <==> m == |Steps|)
            && (r.Raised? ==> n <= 5 && r.op == CheckPlanes && r.switched == switched)
            && (r.switched ==> r.world.meta.documents == FinalDocs(s, q))
            && (budget.None? ==> !r.Cut? && (r.Completed? <==> (n <= 5 ==> Intact(q, n, w))) && (r.Raised? ==> r.budget.None?))
            && (r.Completed? ==> (Intact(q, n, w) <==> Whole(q, r.world)))
    decreases |Steps| - i
  {
    hide Startable, HoldsJob, Target, DocsAt, PlanesAt, FinalDocs, StepOps, RunOps, StatusAt, Thin, ThinRows, ParentsIn, PointsIn,
         RowsIn;
    m, p' := n, p;
    if i < |Steps| {
      assert (q.job, Steps[i]) in w.meta.steps <==> i < n;
      if i < n {
        m, p' := ThinRun(s, q, g, i + 1, n, p, w, budget, switched);
      } else {
        p' := ThinStep(s, q, g, n, p, w, budget, switched);
        var r := RunStep(w, q, g, n, budget, switched);
        if n < 6 { EarlyFlag(w, q, g, n, budget, switched); }
        if r.Completed? {
          m, p' := ThinRun(s, q, g, i + 1, n + 1, p', r.world, r.budget, r.switched);
        }
      }
    }
  }

  /** At the end nothing is lost exactly when all own entries are there. */
  lemma WholeIsFinal(s: World, q: Request, p: World, w: World)
    requires Startable(s, q) && PlanesOf(p) == FinalPlanes(s, q) && Thinned(q, p, w)
    ensures PlanesOf(w) == FinalPlanes(s, q) <==> Whole(q, w)
  {
    hide SoundDocuments, MaxRevision, ActiveVersion, Startable, FinalPlanes, Thinned, ParentIds, ChildIds;
    FinalEntries(s, q);
    if Whole(q, w) {
      WholeIsFull(q, p, w);
    }
  }

  lemma WholeIsFull(q: Request, p: World, w: World)
    requires Thinned(q, p, w) && Whole(q, w)
    requires forall id | id in p.meta.chunks && p.meta.chunks[id].key == q.key :: id in ParentIds(q) + ChildIds(q)
    ensures PlanesOf(w) == PlanesOf(p)
  {
    forall id ensures Same(w.points, p.points, id) { }
    forall id ensures Same(w.parents, p.parents, id) { }
    forall id ensures Same(w.meta.chunks, p.meta.chunks, id) { }
    SameEverywhere(w.points, p.points);
    SameEverywhere(w.parents, p.parents);
    SameEverywhere(w.meta.chunks, p.meta.chunks);
  }

  lemma FinalEntries(s: World, q: Request)
    requires Startable(s, q)
    ensures var f := FinalPlanes(s, q);
            && HasPoints(f, q, "active") && HasParents(f, q) && HasRows(f, q)
            && forall id | id in f.chunks && f.chunks[id].key == q.key :: id in ParentIds(q) + ChildIds(q)
  {
    hide SoundDocuments, MaxRevision, ActiveVersion, Built, WellFormed, HasPoints, HasParents, HasRows, Prev, ParentIds, ChildIds;
    assert WellFormed(q) && OnlyOwnRows(s.meta.chunks, q);
    BuiltHas(s, q);
    BuiltRowsAreOwn(s, q);
    PublishedHas(Built(s, q), q, Replaced(q, Prev(s, q)));
    FinalRows(s, q);
  }

  lemma FinalRows(s: World, q: Request)
    ensures FinalPlanes(s, q).chunks == Built(s, q).chunks
    ensures HasRows(Built(s, q), q) ==> HasRows(FinalPlanes(s, q), q)
  {
    hide Built;
  }
}
