/** An attempt, however it is cut, changes nothing of other documents. */
module Elsewhere {
  import opened Common
  import opened Policy
  import opened ControlPlane
  import opened Lifecycle
  import opened DataPlane
  import opened Stores
  import opened Ingestion
  import opened PlaneWrites
  import opened IngestionProgress

  /** The ids under which points and parents of one document can lie. */
  datatype Region = Region(points: set<ChunkId>, parents: set<ChunkId>)

  /** Whatever lies in the region, and every chunk row of `d`, is of `d`. */
  ghost predicate Inside(w: World, d: DocId, r: Region) {
    && (forall id | id in w.points && id in r.points :: w.points[id].key.doc == d)
    && (forall id | id in w.parents && id in r.parents :: w.parents[id].key.doc == d)
    && (forall id | id in w.meta.chunks && w.meta.chunks[id].key.doc == d ::
          id in if w.meta.chunks[id].isParent then r.parents else r.points)
  }

  ghost predicate OwnInside(q: Request, r: Region) {
    ParentIds(q) <= r.parents && ChildIds(q) <= r.points
  }

  /** Outside the region, and in the rows of other documents, nothing has moved. */
  ghost predicate Stands(w: World, w': World, d: DocId, r: Region) {
    && (forall id | id !in r.points :: Same(w'.points, w.points, id))
    && (forall id | id !in r.parents :: Same(w'.parents, w.parents, id))
    && (forall k: Key | k.doc != d :: Same(w'.meta.documents, w.meta.documents, k))
  }

  /** A change that keeps to the region. */
  ghost predicate Keeps(w: World, w': World, d: DocId, r: Region) {
    Inside(w', d, r) && Stands(w, w', d, r)
  }

  lemma StandsTwice(w: World, w': World, w'': World, d: DocId, r: Region)
    requires Stands(w, w', d, r) && Stands(w', w'', d, r)
    ensures Stands(w, w'', d, r)
  {
    forall id | id !in r.points ensures Same(w''.points, w.points, id) {
      assert Same(w''.points, w'.points, id) && Same(w'.points, w.points, id);
    }
    forall id | id !in r.parents ensures Same(w''.parents, w.parents, id) {
      assert Same(w''.parents, w'.parents, id) && Same(w'.parents, w.parents, id);
    }
    forall k: Key | k.doc != d ensures Same(w''.meta.documents, w.meta.documents, k) {
      assert Same(w''.meta.documents, w'.meta.documents, k) && Same(w'.meta.documents, w.meta.documents, k);
    }
  }

  lemma StandsStill(w: World, d: DocId, r: Region)
    ensures Stands(w, w, d, r)
  {
  }

  // ---------------------------------------------------------------------
  // Single writes
  // ---------------------------------------------------------------------

  ghost predicate ActionInside(q: Request, r: Region, a: Action) {
    match a
    case DoMarkStep(_, _) => true
    case DoTerminal(_, _) => true
    case DoClearSteps(_) => true
    case DoFail(k) => k == q.key
    case DoDeleteChunks(_) => true
    case DoUpsertChunk(id, row) => id in if row.isParent then r.parents else r.points
    case _ => false
  }

  ghost predicate OpInside(q: Request, r: Region, op: Op) {
    match op
    case Control(a) => ActionInside(q, r, a)
    case PutPoint(id, p) => id in r.points && p.key.doc == q.key.doc
    case PutParent(id, p) => id in r.parents && p.key.doc == q.key.doc
    case PromoteParent(id) => id in r.parents
    case RetireParent(id) => id in r.parents
    case DropPoint(id) => id in r.points
    case DropParent(id) => id in r.parents
    case _ => true
  }

  lemma ActionKeeps(w: World, q: Request, r: Region, a: Action)
    requires Inside(w, q.key.doc, r) && ActionInside(q, r, a)
    ensures Keeps(w, w.(meta := Apply(w.meta, a)), q.key.doc, r)
  {
    hide AcquireJob, CommitActive, RollbackActive, LogicalDelete, UpdateAcl, PurgeDocument;
  }

  lemma SwitchKeeps(w: World, q: Request, r: Region, expected: nat)
    requires Inside(w, q.key.doc, r)
    ensures Keeps(w, w.(meta := CommitActive(w.meta, q.key, expected).0), q.key.doc, r)
  {
    hide MaxRevision, ActiveVersion;
  }

  lemma EffectKeeps(w: World, q: Request, r: Region, op: Op)
    requires Inside(w, q.key.doc, r) && OpInside(q, r, op)
    ensures Keeps(w, Effect(w, q, op), q.key.doc, r)
  {
    if op.Control? {
      hide Keeps, Inside, ActionInside;
      ActionKeeps(w, q, r, op.action);
    } else if op.SwitchVersion? {
      hide Keeps, Inside;
      SwitchKeeps(w, q, r, op.expected);
    } else {
      hide CommitActive, Apply;
    }
  }

  lemma {:induction false} RunKeeps(w: World, q: Request, r: Region, ops: seq<Op>, budget: Option<nat>, switched: bool)
    requires Inside(w, q.key.doc, r) && forall op | op in ops :: OpInside(q, r, op)
    ensures Keeps(w, RunOps(w, q, ops, budget, switched).world, q.key.doc, r)
    decreases |ops|
  {
    hide Effect, Admits, OpInside, Inside, Stands;
    StandsStill(w, q.key.doc, r);
    if ops != [] && budget != Some(0) && Admits(w, q, ops[0]) {
      EffectKeeps(w, q, r, ops[0]);
      var w' := Effect(w, q, ops[0]);
      RunKeeps(w', q, r, ops[1..], Spend(budget), switched || ops[0].SwitchVersion?);
      StandsTwice(w, w', RunOps(w', q, ops[1..], Spend(budget), switched || ops[0].SwitchVersion?).world, q.key.doc, r);
    }
  }

  // ---------------------------------------------------------------------
  // Steps, failure paths, attempts
  // ---------------------------------------------------------------------

  lemma OwnAre(q: Request)
    ensures forall i | 0 <= i < |q.parents| :: q.parents[i].id in ParentIds(q)
    ensures forall i | 0 <= i < |q.children| :: q.children[i].id in ChildIds(q)
  {
  }

  lemma ReplacedInside(w: World, q: Request, r: Region, parents: bool)
    requires Inside(w, q.key.doc, r)
    ensures var ids := ReplacedIds(w.meta.chunks, Replaced(q, Recorded(w, q)), parents);
            forall id | id in ids ::
              w.meta.chunks[id].key.doc == q.key.doc && id in if parents then r.parents else r.points
  {
  }

  lemma PublishInside(w: World, q: Request, g: nat, r: Region)
    requires Inside(w, q.key.doc, r) && OwnInside(q, r)
    ensures forall op | op in PublishOps(w, q, g) :: OpInside(q, r, op)
  {
    OwnAre(q);
    ReplacedInside(w, q, r, true);
    ReplacedInside(w, q, r, false);
    hide ParentIds, ChildIds, Inside, Recorded, Replaced, ReplacedIds, RetirePointOps, RetireParentOps;
    var replaced := Replaced(q, Recorded(w, q));
    RetireInside(q, r, w.meta.chunks, Enumerate(ReplacedIds(w.meta.chunks, replaced, true)),
                 Enumerate(ReplacedIds(w.meta.chunks, replaced, false)));
  }

  lemma RetireInside(q: Request, r: Region, chunks: map<ChunkId, ChunkRow>, parents: seq<ChunkId>, points: seq<ChunkId>)
    requires forall id | id in parents :: id in r.parents
    requires forall id | id in points :: id in chunks && chunks[id].key.doc == q.key.doc && id in r.points
    ensures forall op | op in RetireParentOps(parents) :: OpInside(q, r, op)
    ensures forall op | op in RetirePointOps(q, chunks, points) :: OpInside(q, r, op)
  {
  }

  lemma StepInside(w: World, q: Request, g: nat, step: Step, r: Region)
    requires Inside(w, q.key.doc, r) && OwnInside(q, r)
    ensures forall op | op in StepOps(w, q, g, step) + [Control(DoMarkStep(q.job, step))] :: OpInside(q, r, op)
  {
    hide ParentIds, ChildIds, Inside, PublishOps;
    PublishInside(w, q, g, r);
    OwnAre(q);
  }

  lemma {:induction false} StepsKeep(w: World, q: Request, g: nat, i: nat, r: Region, budget: Option<nat>, switched: bool)
    requires i <= |Steps| && Inside(w, q.key.doc, r) && OwnInside(q, r)
    ensures Keeps(w, RunSteps(w, q, g, i, budget, switched).world, q.key.doc, r)
    decreases |Steps| - i
  {
    hide StepOps, RunOps, OpInside, Inside, OwnInside, Stands;
    StandsStill(w, q.key.doc, r);
    if i < |Steps| {
      if (q.job, Steps[i]) in w.meta.steps {
        StepsKeep(w, q, g, i + 1, r, budget, switched);
      } else {
        var ops := StepOps(w, q, g, Steps[i]) + [Control(DoMarkStep(q.job, Steps[i]))];
        StepInside(w, q, g, Steps[i], r);
        RunKeeps(w, q, r, ops, budget, switched);
        var o := RunOps(w, q, ops, budget, switched);
        if o.Completed? {
          StepsKeep(o.world, q, g, i + 1, r, o.budget, o.switched);
          StandsTwice(w, o.world, RunSteps(o.world, q, g, i + 1, o.budget, o.switched).world, q.key.doc, r);
        }
      }
    }
  }

  lemma FailureKeeps(w: World, q: Request, g: nat, r: Region, switched: bool, budget: Option<nat>)
    requires Inside(w, q.key.doc, r) && OwnInside(q, r)
    ensures Keeps(w, FailurePath(w, q, g, switched, budget).0, q.key.doc, r)
  {
    var ops := FailureOps(w, q, g, switched);
    OwnAre(q);
    assert forall op | op in ops :: OpInside(q, r, op) by { hide ParentIds, ChildIds, Inside; }
    hide FailureOps, RunOps, Inside, Keeps;
    RunKeeps(w, q, r, ops, budget, switched);
  }

  lemma StopKeeps(w: World, q: Request, g: nat, r: Region, switched: bool, cutting: Cutting)
    requires Inside(w, q.key.doc, r) && OwnInside(q, r)
    ensures Keeps(w, Stopped(w, q, g, switched, cutting).0, q.key.doc, r)
  {
    hide FailurePath, Inside, Stands, OwnInside;
    StandsStill(w, q.key.doc, r);
    if cutting.Fault? { FailureKeeps(w, q, g, r, switched, cutting.recovery); }
  }

  lemma HeldKeeps(w: World, q: Request, g: nat, r: Region, budget: Option<nat>, cutting: Cutting, switched: bool)
    requires Inside(w, q.key.doc, r) && OwnInside(q, r)
    ensures Keeps(w, RunHeld(w, q, g, budget, cutting, switched).0, q.key.doc, r)
  {
    hide FailurePath, RunSteps, Stopped, Inside, Stands, OwnInside;
    StepsKeep(w, q, g, 1, r, budget, switched);
    var o := RunSteps(w, q, g, 1, budget, switched);
    if o.Cut? {
      StopKeeps(o.world, q, g, r, o.switched, cutting);
      StandsTwice(w, o.world, Stopped(o.world, q, g, o.switched, cutting).0, q.key.doc, r);
    }
    if o.Raised? {
      FailureKeeps(o.world, q, g, r, o.switched, o.budget);
      StandsTwice(w, o.world, FailurePath(o.world, q, g, o.switched, o.budget).0, q.key.doc, r);
    }
  }

  lemma ClaimKeeps(w: World, q: Request, attempt: string, recover: bool, r: Region)
    requires Inside(w, q.key.doc, r)
    ensures var m := AcquireJob(w.meta, AcquireFor(w, q, attempt, recover)).0;
            Keeps(w, w.(meta := m), q.key.doc, r) && Keeps(w, w.(meta := MarkStep(m, q.job, Acquire)), q.key.doc, r)
  {
    hide MaxRevision, ActiveVersion;
  }

  lemma DoneKeeps(w: World, q: Request, r: Region)
    requires Inside(w, q.key.doc, r)
    ensures Keeps(w, w.(meta := MarkTerminal(w.meta, q.job, Succeeded)), q.key.doc, r)
  {
    ActionKeeps(w, q, r, DoTerminal(q.job, Succeeded));
    hide Keeps, Inside;
  }

  /** However it is cut, an attempt keeps to its document. */
  lemma AttemptKeeps(w: World, q: Request, r: Region, attempt: string, recover: bool, budget: Option<nat>, cutting: Cutting)
    requires Inside(w, q.key.doc, r) && OwnInside(q, r)
    ensures Keeps(w, Attempt(w, q, attempt, recover, budget, cutting).0, q.key.doc, r)
  {
    hide Stopped, RunHeld, AcquireJob, MarkStep, MarkTerminal, Enter, Inside, Stands, OwnInside;
    StandsStill(w, q.key.doc, r);
    StopKeeps(w, q, 0, r, false, cutting);
    DoneKeeps(w, q, r);
    ClaimKeeps(w, q, attempt, recover, r);
    var (m, o) := AcquireJob(w.meta, AcquireFor(w, q, attempt, recover));
    var claimed, held := w.(meta := m), w.(meta := MarkStep(m, q.job, Acquire));
    StopKeeps(claimed, q, 0, r, false, cutting);
    StandsTwice(w, claimed, Stopped(claimed, q, 0, false, cutting).0, q.key.doc, r);
    if o.Acquired? && budget != Some(0) && Spend(budget) != Some(0) {
      HeldKeeps(held, q, o.generation, r, Spend(Spend(budget)), cutting, false);
      StandsTwice(w, held, RunHeld(held, q, o.generation, Spend(Spend(budget)), cutting, false).0, q.key.doc, r);
    }
  }

  // ---------------------------------------------------------------------
  // What other documents show
  // ---------------------------------------------------------------------

  lemma SameActive(docs: map<Key, DocRow>, docs': map<Key, DocRow>, d: DocId)
    requires AtMostOneActive(docs) && AtMostOneActive(docs') && forall k: Key | k.doc == d :: Same(docs', docs, k)
    ensures ActiveVersion(docs', d) == ActiveVersion(docs, d)
  {
    forall v: Version ensures IsActive(docs', Key(d, v)) <==> IsActive(docs, Key(d, v)) {
      assert Same(docs', docs, Key(d, v));
    }
    if ActiveVersion(docs, d).Some? { ActiveVersionIs(docs', Key(d, ActiveVersion(docs, d).value)); }
  }

  /** So another document shows what it showed. */
  lemma OthersShow(w: World, w': World, d: DocId, r: Region, other: DocId, ctx: SecurityContext)
    requires Inside(w, d, r) && Keeps(w, w', d, r) && other != d
    requires AtMostOneActive(w.meta.documents) && AtMostOneActive(w'.meta.documents)
    ensures Retrievable(w', ctx, other) == Retrievable(w, ctx, other)
  {
    hide PassesSearch, SameAcl, ResourcePassesFilter, AtMostOneActive, ActiveVersion;
    SameActive(w.meta.documents, w'.meta.documents, other);
    forall id ensures id in Retrievable(w', ctx, other) <==> id in Retrievable(w, ctx, other) {
      assert id !in r.points ==> Same(w'.points, w.points, id);
      if id !in r.points && id in w.points && w.points[id].key.doc == other {
        assert w.points[id].parent !in r.parents ==> Same(w'.parents, w.parents, w.points[id].parent);
      }
    }
  }
}
