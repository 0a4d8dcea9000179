/** Histories of one corpus: ingestion, deletion and repair, one after another. */
module Histories {
  import opened Common
  import opened Policy
  import opened ControlPlane
  import opened Lifecycle
  import opened DataPlane
  import opened Ingestion
  import opened PlaneWrites
  import opened IngestionProgress
  import opened LostParents
  import opened Restarts
  import opened IngestionVisibility
  import opened CrashRefinement
  import opened Reconciliation

  // ---------------------------------------------------------------------
  // Attempts run within the control plane's reachable states
  // ---------------------------------------------------------------------

  predicate OwnAction(q: Request, a: Action) {
    match a
    case DoMarkStep(j, _) => j == q.job
    case DoTerminal(j, _) => j == q.job
    case DoClearSteps(j) => j == q.job
    case DoFail(k) => k == q.key
    case DoDeleteChunks(k) => k == q.key
    case DoUpsertChunk(_, _) => true
    case _ => false
  }

  predicate OwnOp(q: Request, op: Op) {
    op.Control? ==> OwnAction(q, op.action)
  }

  /** The invariant of the control plane stands, and no other job or marker appears. */
  ghost predicate Confined(q: Request, m: State, m': State) {
    && (Inv(m) ==> Inv(m'))
    && (forall j | j in m'.jobs && j != q.job :: j in m.jobs)
    && (forall e | e in m'.steps && e.0 != q.job :: e in m.steps)
  }

  lemma ConfinedTwice(q: Request, m: State, m': State, m'': State)
    requires Confined(q, m, m') && Confined(q, m', m'')
    ensures Confined(q, m, m'')
  {
    hide Inv;
  }

  lemma ActionConfined(q: Request, m: State, a: Action)
    requires OwnAction(q, a)
    ensures Confined(q, m, Apply(m, a))
  {
    hide Inv;
    if Inv(m) { ApplyKeepsInv(m, a); }
  }

  lemma CommitConfined(q: Request, m: State, expected: nat)
    ensures Confined(q, m, CommitActive(m, q.key, expected).0)
  {
    hide Inv, MaxRevision, ActiveVersion, SwitchActive;
    if Inv(m) { ApplyKeepsInv(m, DoCommit(q.key, expected)); }
  }

  lemma EffectConfined(w: World, q: Request, op: Op)
    requires OwnOp(q, op)
    ensures Confined(q, w.meta, Effect(w, q, op).meta)
  {
    hide Inv, Apply, CommitActive;
    if op.Control? {
      ActionConfined(q, w.meta, op.action);
    } else if op.SwitchVersion? {
      CommitConfined(q, w.meta, op.expected);
    }
  }

  lemma {:induction false} RunConfined(w: World, q: Request, ops: seq<Op>, budget: Option<nat>, switched: bool)
    requires forall op | op in ops :: OwnOp(q, op)
    ensures Confined(q, w.meta, RunOps(w, q, ops, budget, switched).world.meta)
    decreases |ops|
  {
    hide Effect, Admits, OwnOp, Inv;
    if ops != [] && budget != Some(0) && Admits(w, q, ops[0]) {
      EffectConfined(w, q, ops[0]);
      var w' := Effect(w, q, ops[0]);
      RunConfined(w', q, ops[1..], Spend(budget), switched || ops[0].SwitchVersion?);
      ConfinedTwice(q, w.meta, w'.meta, RunOps(w', q, ops[1..], Spend(budget), switched || ops[0].SwitchVersion?).world.meta);
    }
  }

  lemma StepsAreOwn(w: World, q: Request, g: nat, step: Step)
    ensures forall op | op in StepOps(w, q, g, step) + [Control(DoMarkStep(q.job, step))] :: OwnOp(q, op)
  {
    hide ReplacedIds, Enumerate;
    assert forall op | op in PublishOps(w, q, g) :: !op.Control?;
  }

  lemma {:induction false} StepsConfined(w: World, q: Request, g: nat, i: nat, budget: Option<nat>, switched: bool)
    requires i <= |Steps|
    ensures Confined(q, w.meta, RunSteps(w, q, g, i, budget, switched).world.meta)
    decreases |Steps| - i
  {
    hide StepOps, RunOps, Inv, OwnOp;
    if i < |Steps| {
      if (q.job, Steps[i]) in w.meta.steps {
        StepsConfined(w, q, g, i + 1, budget, switched);
      } else {
        var ops := StepOps(w, q, g, Steps[i]) + [Control(DoMarkStep(q.job, Steps[i]))];
        StepsAreOwn(w, q, g, Steps[i]);
        RunConfined(w, q, ops, budget, switched);
        var r := RunOps(w, q, ops, budget, switched);
        if r.Completed? {
          StepsConfined(r.world, q, g, i + 1, r.budget, r.switched);
          ConfinedTwice(q, w.meta, r.world.meta, RunSteps(r.world, q, g, i + 1, r.budget, r.switched).world.meta);
        }
      }
    }
  }

  lemma FailureConfined(w: World, q: Request, g: nat, switched: bool, budget: Option<nat>)
    ensures Confined(q, w.meta, FailurePath(w, q, g, switched, budget).0.meta)
  {
    hide RunOps, Inv;
    var ops := FailureOps(w, q, g, switched);
    assert forall op | op in ops :: OwnOp(q, op);
    hide FailureOps;
    RunConfined(w, q, ops, budget, switched);
  }

  /** However it is cut, an attempt keeps the control plane's invariant and every other job's rows and markers. */
  lemma AttemptConfined(w: World, q: Request, attempt: string, recover: bool, budget: Option<nat>, cutting: Cutting)
    ensures Confined(q, w.meta, Attempt(w, q, attempt, recover, budget, cutting).0.meta)
  {
    hide Enter, AcquireJob, MarkTerminal, MarkStep, Stopped, RunHeld, Confined;
    var (m, o) := AcquireJob(w.meta, AcquireFor(w, q, attempt, recover));
    StopConfined(w, q, 0, false, cutting);
    DoneConfined(w, q);
    if o.Acquired? { ClaimedConfined(w, q, attempt, recover, budget, cutting); }
  }

  lemma DoneConfined(w: World, q: Request)
    ensures Confined(q, w.meta, w.meta) && Confined(q, w.meta, MarkTerminal(w.meta, q.job, Succeeded))
  {
    hide Inv, MarkTerminal;
    ActionConfined(q, w.meta, DoTerminal(q.job, Succeeded));
  }

  lemma ClaimedConfined(w: World, q: Request, attempt: string, recover: bool, budget: Option<nat>, cutting: Cutting)
    requires AcquireJob(w.meta, AcquireFor(w, q, attempt, recover)).1.Acquired?
    ensures var (m, o) := AcquireJob(w.meta, AcquireFor(w, q, attempt, recover));
            && Confined(q, w.meta, Stopped(w.(meta := m), q, 0, false, cutting).0.meta)
            && Confined(q, w.meta, RunHeld(w.(meta := MarkStep(m, q.job, Acquire)), q, o.generation,
                                           if budget.None? || budget.value < 2 then None else Some(budget.value - 2), cutting, false).0.meta)
  {
    hide AcquireJob, MarkStep, Stopped, RunHeld, Confined;
    var (m, o) := AcquireJob(w.meta, AcquireFor(w, q, attempt, recover));
    var left := if budget.None? || budget.value < 2 then None else Some(budget.value - 2);
    AcquireConfined(w.meta, q, AcquireFor(w, q, attempt, recover));
    StopConfined(w.(meta := m), q, 0, false, cutting);
    ConfinedTwice(q, w.meta, m, Stopped(w.(meta := m), q, 0, false, cutting).0.meta);
    ActionConfined(q, m, DoMarkStep(q.job, Acquire));
    var held := w.(meta := MarkStep(m, q.job, Acquire));
    ConfinedTwice(q, w.meta, m, held.meta);
    HeldConfined(held, q, o.generation, left, cutting);
    ConfinedTwice(q, w.meta, held.meta, RunHeld(held, q, o.generation, left, cutting, false).0.meta);
  }

  lemma AcquireConfined(m: State, q: Request, r: AcquireRequest)
    requires r.job == q.job
    ensures Confined(q, m, AcquireJob(m, r).0)
  {
    hide Inv, NextLease, UpsertBuild;
    if Inv(m) { AcquireKeepsInv(m, r); }
  }

  lemma StopConfined(w: World, q: Request, g: nat, switched: bool, cutting: Cutting)
    ensures Confined(q, w.meta, Stopped(w, q, g, switched, cutting).0.meta)
  {
    hide FailurePath, Inv;
    if cutting.Fault? { FailureConfined(w, q, g, switched, cutting.recovery); }
  }

  lemma HeldConfined(w: World, q: Request, g: nat, budget: Option<nat>, cutting: Cutting)
    ensures Confined(q, w.meta, RunHeld(w, q, g, budget, cutting, false).0.meta)
  {
    hide FailurePath, RunSteps, Inv, Stopped;
    StepsConfined(w, q, g, 1, budget, false);
    var r := RunSteps(w, q, g, 1, budget, false);
    if r.Cut? {
      StopConfined(r.world, q, g, r.switched, cutting);
      ConfinedTwice(q, w.meta, r.world.meta, Stopped(r.world, q, g, r.switched, cutting).0.meta);
    }
    if r.Raised? {
      FailureConfined(r.world, q, g, r.switched, r.budget);
      ConfinedTwice(q, w.meta, r.world.meta, FailurePath(r.world, q, g, r.switched, r.budget).0.meta);
    }
  }

  // ---------------------------------------------------------------------
  // Ingestion keeps ids apart
  // ---------------------------------------------------------------------

  /** No point, parent or row of another version has, or names, an id of this build. */
  ghost predicate FreshIds(w: World, q: Request) {
    && (forall id | id in w.points && id in ParentIds(q) + ChildIds(q) :: w.points[id].key == q.key)
    && (forall id | id in w.parents && id in ParentIds(q) :: w.parents[id].key == q.key)
    && (forall id | id in w.meta.chunks && id in ParentIds(q) + ChildIds(q) :: w.meta.chunks[id].key == q.key)
    && (forall id | id in w.meta.chunks && !w.meta.chunks[id].isParent && RowParent(w.meta.chunks[id]) in ParentIds(q) ::
          w.meta.chunks[id].key == q.key)
  }

  ghost function Ingested(w: World, q: Request, attempt: string): World {
    Attempt(w, q, attempt, true, None, Kill).0
  }

  lemma FinalRow(w: World, q: Request, id: ChunkId)
    ensures var rows := FinalPlanes(w, q).chunks;
            if id in ParentIds(q) + ChildIds(q) then id in rows && rows[id].key == q.key
            else Same(rows, w.meta.chunks, id)
  {
    hide RowEntries;
    RowsTogether(w, w, q) by { WrittenNear(w, q); }
    RowEntriesKeyed(q);
    assert Built(w, q).chunks == w.meta.chunks + RowEntries(q);
  }

  lemma OwnRow(q: Request, id: ChunkId)
    requires WellFormed(q) && id in RowEntries(q) && !RowEntries(q)[id].isParent
    ensures id in ChildIds(q) && id !in ParentIds(q) && RowParent(RowEntries(q)[id]) in ParentIds(q)
  {
    hide ParentAt, WellFormed;
    var i := ChildAt(q, id);
    ParentIsThere(q, i);
  }

  lemma ParentIsThere(q: Request, i: nat)
    requires WellFormed(q) && i < |q.children|
    ensures q.children[i].parent in ParentIds(q)
  {
    assert OwnParent(q, q.children[i].parent);
  }

  /** A child row at the end is one that was there, of ids not this build's, or this build's with a parent of its own. */
  lemma FinalChild(w: World, q: Request, id: ChunkId)
    requires WellFormed(q) && id in FinalPlanes(w, q).chunks && !FinalPlanes(w, q).chunks[id].isParent
    ensures var row := FinalPlanes(w, q).chunks[id];
            if id in ChildIds(q) then row.key == q.key && RowParent(row) in ParentIds(q)
            else id !in ParentIds(q) && id in w.meta.chunks && row == w.meta.chunks[id]
  {
    hide RowEntries, WellFormed, ParentIds, ChildIds;
    RowsTogether(w, w, q) by { WrittenNear(w, q); }
    RowEntriesKeyed(q);
    assert Built(w, q).chunks == w.meta.chunks + RowEntries(q);
    if id in RowEntries(q) { OwnRow(q, id); }
  }

  lemma FinalPointKey(w: World, q: Request, corpus: string, id: ChunkId)
    requires PointIds(w.points, w.meta, corpus) && FreshIds(w, q) && q.key.doc.corpus == corpus
    requires id in FinalPlanes(w, q).points
    ensures var f := FinalPlanes(w, q);
            f.points[id].key.doc.corpus == corpus && (id in f.chunks ==> f.points[id].key == f.chunks[id].key)
  {
    hide FinalPlanes, ParentIds, ChildIds, Built, Prev;
    FinalPoint(w, q, id);
    FinalRow(w, q, id);
    RowsTogether(w, w, q) by { WrittenNear(w, q); }
  }

  lemma FinalParentKey(w: World, q: Request, id: ChunkId)
    requires id in FinalPlanes(w, q).parents
    ensures var f := FinalPlanes(w, q);
            if id in ParentIds(q) then f.parents[id].key == q.key else id in w.parents && f.parents[id].key == w.parents[id].key
  {
    hide FinalPlanes, Built, Retired;
    FinalParent(w, q, id);
  }

  lemma FinalFamilies(w: World, q: Request, m: State)
    requires WellFormed(q) && IdsAgree(w, q.key.doc.corpus) && FreshIds(w, q) && m.chunks == FinalPlanes(w, q).chunks
    ensures ParentIdsOf(FinalPlanes(w, q).parents, m) && Families(m)
  {
    hide FinalPlanes, WellFormed, ParentIds, ChildIds, PointIds;
    var f := FinalPlanes(w, q);
    forall id | id in f.chunks && !f.chunks[id].isParent && RowParent(f.chunks[id]) in f.parents
      ensures f.parents[RowParent(f.chunks[id])].key == f.chunks[id].key
    {
      FinalChild(w, q, id);
      FinalParentKey(w, q, RowParent(f.chunks[id]));
    }
    forall a, b | a in f.chunks && b in f.chunks && !f.chunks[a].isParent && !f.chunks[b].isParent
                  && RowParent(f.chunks[a]) == RowParent(f.chunks[b]) != ""
      ensures f.chunks[a].key == f.chunks[b].key
    {
      FinalChild(w, q, a);
      FinalChild(w, q, b);
    }
  }

  /** Ingesting a version with fresh ids keeps the ids of all versions apart. */
  lemma IngestKeepsIds(w: World, q: Request, attempt: string)
    requires Startable(w, q) && IdsAgree(w, q.key.doc.corpus) && FreshIds(w, q)
    ensures IdsAgree(Ingested(w, q, attempt), q.key.doc.corpus)
  {
    hide Startable, Attempt, FinalPlanes, FinalDocs, FreshIds, ParentIdsOf, Families, WellFormed, ParentIds, ChildIds;
    PlainRun(w, q, attempt);
    StartWellFormed(w, q);
    var f, end := FinalPlanes(w, q), Ingested(w, q, attempt);
    FinalFamilies(w, q, end.meta);
    forall id | id in f.points
      ensures f.points[id].key.doc.corpus == q.key.doc.corpus && (id in f.chunks ==> f.points[id].key == f.chunks[id].key)
    {
      FinalPointKey(w, q, q.key.doc.corpus, id);
    }
  }

  // ---------------------------------------------------------------------
  // What an ingestion leaves of the other versions
  // ---------------------------------------------------------------------

  /** Outside its document an ingestion moves no row; a deleted version of it stays deleted. */
  lemma OtherRowsStand(w: World, q: Request, k: Key)
    requires Startable(w, q) && k != q.key
    requires k.doc != q.key.doc || (k in w.meta.documents && w.meta.documents[k].status == Deleted)
    ensures Same(FinalDocs(w, q), w.meta.documents, k)
  {
    hide MaxRevision, ActiveVersion, SoundDocuments, Startable;
    ClaimedFacts(w, q);
    assert Same(ClaimedDocs(w, q), w.meta.documents, k);
  }

  /** Every other version's point stays a point of it. */
  lemma OtherPointsStand(w: World, q: Request, k: Key)
    requires IdsAgree(w, q.key.doc.corpus) && FreshIds(w, q) && k != q.key && HasPoint(w, k)
    ensures exists id | id in FinalPlanes(w, q).points :: FinalPlanes(w, q).points[id].key == k
  {
    hide FinalPlanes, Built, Prev, Families, ParentIdsOf;
    var id :| id in w.points && w.points[id].key == k;
    FinalPoint(w, q, id);
    FinalRow(w, q, id);
    RowsTogether(w, w, q) by { WrittenNear(w, q); }
    assert id in FinalPlanes(w, q).points && FinalPlanes(w, q).points[id].key == k;
  }

  lemma OwnPointThere(w: World, q: Request)
    requires Startable(w, q) && q.children != []
    ensures exists id | id in FinalPlanes(w, q).points :: FinalPlanes(w, q).points[id].key == q.key
  {
    hide FinalPlanes, Startable;
    StartWellFormed(w, q);
    FinalHas(w, q);
    var id := q.children[0].id;
    assert id in FinalPlanes(w, q).points && FinalPlanes(w, q).points[id].key == q.key;
  }

  // ---------------------------------------------------------------------
  // One new build after another
  // ---------------------------------------------------------------------

  /** A build of which nothing is there yet. */
  ghost predicate New(w: World, q: Request) {
    && WellFormed(q) && q.key !in w.meta.documents && q.job !in w.meta.jobs && FreshIds(w, q)
    && (forall step :: (q.job, step) !in w.meta.steps)
    && (forall id | id in w.meta.chunks :: w.meta.chunks[id].key != q.key)
  }

  ghost predicate Disjoint(a: Request, b: Request) {
    a.key != b.key && a.job != b.job && (ParentIds(a) + ChildIds(a)) * (ParentIds(b) + ChildIds(b)) == {}
  }

  lemma NewStarts(w: World, q: Request)
    requires Inv(w.meta) && New(w, q)
    ensures Startable(w, q)
  {
    hide Inv, WellFormed, FreshIds, Startable;
    NewVersionCanStart(w, q);
  }

  lemma FinalKeys(w: World, q: Request)
    requires Startable(w, q)
    ensures FinalDocs(w, q).Keys == w.meta.documents.Keys + {q.key}
  {
    hide MaxRevision, ActiveVersion, SoundDocuments, Startable;
    ClaimedFacts(w, q);
  }

  lemma OthersId(q: Request, r: Request, id: ChunkId)
    requires Disjoint(q, r) && id in ParentIds(r) + ChildIds(r)
    ensures id !in ParentIds(q) && id !in ChildIds(q)
  {
    hide ParentIds, ChildIds;
    assert id in ParentIds(q) + ChildIds(q) ==> id in (ParentIds(q) + ChildIds(q)) * (ParentIds(r) + ChildIds(r));
  }

  lemma FinalFresh(w: World, q: Request, r: Request, end: World)
    requires WellFormed(q) && New(w, r) && Disjoint(q, r) && PlanesOf(end) == FinalPlanes(w, q)
    ensures FreshIds(end, r) && forall id | id in end.meta.chunks :: end.meta.chunks[id].key != r.key
  {
    hide FinalPlanes, ParentIds, ChildIds, WellFormed, Built, Prev;
    forall id ensures if id in ParentIds(q) + ChildIds(q) then id in end.meta.chunks && end.meta.chunks[id].key == q.key
                      else Same(end.meta.chunks, w.meta.chunks, id) { FinalRow(w, q, id); }
    RowsTogether(w, w, q) by { WrittenNear(w, q); }
    forall id | id in end.points && id in ParentIds(r) + ChildIds(r) ensures end.points[id].key == r.key {
      FinalPoint(w, q, id);
      OthersId(q, r, id);
      assert id in Retired(w, q, false) ==> id in w.meta.chunks;
    }
    forall id | id in end.meta.chunks && id in ParentIds(r) + ChildIds(r) ensures end.meta.chunks[id].key == r.key {
      OthersId(q, r, id);
      assert Same(end.meta.chunks, w.meta.chunks, id);
    }
    forall id | id in end.parents && id in ParentIds(r) ensures end.parents[id].key == r.key {
      FinalParentKey(w, q, id);
      OthersId(q, r, id);
    }
    forall id | id in end.meta.chunks && !end.meta.chunks[id].isParent && RowParent(end.meta.chunks[id]) in ParentIds(r)
      ensures end.meta.chunks[id].key == r.key
    {
      FinalChild(w, q, id);
      OthersId(q, r, RowParent(end.meta.chunks[id]));
    }
  }

  /** What is new stays new when another build is ingested. */
  lemma StaysNew(w: World, q: Request, r: Request, attempt: string)
    requires Inv(w.meta) && Startable(w, q) && New(w, r) && Disjoint(q, r)
    ensures Inv(Ingested(w, q, attempt).meta) && New(Ingested(w, q, attempt), r)
  {
    hide Startable, Attempt, FinalPlanes, FinalDocs, Inv, FreshIds, WellFormed, ParentIds, ChildIds;
    PlainRun(w, q, attempt);
    StartWellFormed(w, q);
    FinalKeys(w, q);
    FinalFresh(w, q, r, Ingested(w, q, attempt));
    AttemptConfined(w, q, attempt, true, None, Kill);
  }

  const Nothing := World(Empty, map[], map[])

  lemma NothingIsThere(q: Request)
    requires WellFormed(q)
    ensures Inv(Nothing.meta) && New(Nothing, q) && IdsAgree(Nothing, q.key.doc.corpus)
  {
    assert Inv(Empty) by { assert StateAt([], 0) == Empty; Reachable([], 0); }
    hide Inv, WellFormed;
  }

  // ---------------------------------------------------------------------
  // Deleted, indexed again, reconciled
  // ---------------------------------------------------------------------

  ghost function Removed(w: World, k: Key): World {
    w.(meta := LogicalDelete(w.meta, k))
  }

  /** An ingestion beside a deleted version of the same document leaves both, with the data of both. */
  lemma DeletedStaysBeside(w: World, q: Request, attempt: string, x: Key)
    requires Startable(w, q) && IdsAgree(w, q.key.doc.corpus) && FreshIds(w, q)
    requires x in DeletedIn(w, q.key.doc.corpus) && x.doc == q.key.doc && HasPoint(w, x)
    ensures var end := Ingested(w, q, attempt);
            q.key in ActiveIn(end, q.key.doc.corpus) && x in DeletedIn(end, q.key.doc.corpus) && HasPoint(end, x)
  {
    hide Startable, Attempt, FinalPlanes, FinalDocs, FreshIds, IdsAgree, SoundDocuments, ActiveVersion;
    PlainRun(w, q, attempt);
    FinalFacts(w, q);
    DeletedIsOther(w, q, x);
    OtherRowsStand(w, q, x);
    OtherPointsStand(w, q, x);
  }

  lemma DeletedIsOther(w: World, q: Request, x: Key)
    requires Startable(w, q) && x in w.meta.documents && w.meta.documents[x].status == Deleted
    ensures x != q.key
  {
    hide SoundDocuments, WellFormed, MaxRevision, OnlyOwnRows;
  }

  /** Whenever a deleted version still has a point when its document is indexed again, the next
      full run purges what has been indexed. */
  lemma ReindexedIsPurged(w: World, q: Request, attempt: string, x: Key,
                          o: Options, active: seq<Key>, deleted: seq<Key>, assemble: Assemble)
    requires !o.dryRun && o.rebuild && o.purge && q.key.doc.corpus == o.corpus
    requires Startable(w, q) && IdsAgree(w, o.corpus) && FreshIds(w, q)
    requires x in DeletedIn(w, o.corpus) && x.doc == q.key.doc && HasPoint(w, x)
    requires Orders(Ingested(w, q, attempt), o.corpus, active, deleted)
    ensures var end := Ingested(w, q, attempt);
            && q.key in ActiveIn(end, o.corpus) && !NoPurgeOfActive(end, o.corpus)
            && q.key !in ActiveIn(Reconciled(end, o, active, deleted, assemble), o.corpus)
  {
    hide Startable, Attempt, FreshIds, IdsAgree, Reconciled, Orders, WithStatusIn, HasPoint, Regained;
    DeletedStaysBeside(w, q, attempt, x);
    IngestKeepsIds(w, q, attempt);
    ActiveLeft(Ingested(w, q, attempt), o, active, deleted, assemble, q.key);
    assert Purged(Ingested(w, q, attempt), o.corpus, q.key.doc);
  }

  lemma RemovalDeletes(w: World, k: Key)
    requires IsActive(w.meta.documents, k)
    ensures k in DeletedIn(Removed(w, k), k.doc.corpus) && Removed(w, k).meta.documents.Keys == w.meta.documents.Keys
    ensures Removed(w, k).meta == w.meta.(documents := Removed(w, k).meta.documents)
  {
  }

  lemma DeletedInTheEnd(a: Request, b: Request) returns (r: World)
    requires WellFormed(a) && WellFormed(b) && a.key.doc == b.key.doc && Disjoint(a, b) && a.children != []
    ensures r == Removed(Ingested(Nothing, a, "1"), a.key) && Startable(r, b) && FreshIds(r, b) && IdsAgree(r, a.key.doc.corpus)
    ensures a.key in DeletedIn(r, a.key.doc.corpus) && HasPoint(r, a.key) && r.meta.documents.Keys == {a.key}
  {
    hide Startable, Attempt, IdsAgree, Inv, WellFormed, FreshIds, FinalDocs, FinalPlanes, WithStatusIn, ActiveVersion, SoundDocuments,
         LogicalDelete;
    NothingIsThere(a);
    NothingIsThere(b);
    NewStarts(Nothing, a);
    StaysNew(Nothing, a, b, "1");
    PlainRun(Nothing, a, "1");
    FinalFacts(Nothing, a);
    FinalKeys(Nothing, a);
    OwnPointThere(Nothing, a);
    IngestKeepsIds(Nothing, a, "1");
    var w := Ingested(Nothing, a, "1");
    r := Removed(w, a.key);
    RemovalDeletes(w, a.key);
    assert Inv(r.meta) by { ApplyKeepsInv(w.meta, DoDelete(a.key)); }
    SameIds(w, r, a.key.doc.corpus);
    SameFresh(w, r, b);
    NewStarts(r, b);
    assert HasPoint(r, a.key);
  }

  /** From the empty stores: any version is indexed and deleted, any other version of its document
      is indexed before a reconciler ran, and then the reconciler removes it. */
  lemma DeleteThenReindex(a: Request, b: Request, o: Options, active: seq<Key>, deleted: seq<Key>, assemble: Assemble)
    requires WellFormed(a) && WellFormed(b) && a.key.doc == b.key.doc && Disjoint(a, b) && a.children != []
    requires !o.dryRun && o.rebuild && o.purge && a.key.doc.corpus == o.corpus
    requires Elements(active) == {b.key} && Elements(deleted) == {a.key}
    ensures var end := Ingested(Removed(Ingested(Nothing, a, "1"), a.key), b, "2");
            && Orders(end, o.corpus, active, deleted) && IdsAgree(end, o.corpus) && !NoPurgeOfActive(end, o.corpus)
            && ActiveIn(end, o.corpus) == {b.key} && ActiveIn(Reconciled(end, o, active, deleted, assemble), o.corpus) == {}
  {
    hide Startable, Attempt, IdsAgree, Reconciled, WellFormed, FreshIds, FinalDocs, FinalPlanes, Removed, NoPurgeOfActive, Purged;
    var r := DeletedInTheEnd(a, b);
    var end := Ingested(r, b, "2");
    DeletedStaysBeside(r, b, "2", a.key);
    FinalKeys(r, b);
    PlainRun(r, b, "2");
    assert ActiveIn(end, o.corpus) == {b.key} && DeletedIn(end, o.corpus) == {a.key};
    hide WithStatusIn, Ingested;
    IngestKeepsIds(r, b, "2");
    ReindexedIsPurged(r, b, "2", a.key, o, active, deleted, assemble);
    forall k ensures k !in ActiveIn(Reconciled(end, o, active, deleted, assemble), o.corpus) {
      ActiveLeft(end, o, active, deleted, assemble, k);
    }
  }

  /** One document, one parent, one child. */
  function Single(tenant: string, version: Version, job: JobId, parent: ChunkId, child: ChunkId, acl: ResourceAcl): Request {
    Request(Key(DocId(tenant, "corpus", "doc"), version), "h", acl.(tenantId := tenant), job,
      [ParentSpec(parent, "text")], [ChildSpec(child, parent, "text")])
  }

  lemma SingleIs(q: Request, tenant: string, version: Version, job: JobId, parent: ChunkId, child: ChunkId, acl: ResourceAcl)
    requires q == Single(tenant, version, job, parent, child, acl) && parent != child
    ensures WellFormed(q) && ParentIds(q) == {parent} && ChildIds(q) == {child}
  {
    assert q.parents[0].id == parent && q.children[0].id == child;
  }

  /** Such a run: v1 is indexed and deleted, v2 is indexed, and the reconciler leaves no active version. */
  lemma ReindexedVersionIsLost(acl: ResourceAcl, assemble: Assemble)
    ensures var a, b := Single("t", "v1", "j1", "p1", "c1", acl), Single("t", "v2", "j2", "p2", "c2", acl);
            var end := Ingested(Removed(Ingested(Nothing, a, "1"), a.key), b, "2");
            && ActiveIn(end, "corpus") == {b.key}
            && ActiveIn(Reconciled(end, Options("corpus", false, true, true), [b.key], [a.key], assemble), "corpus") == {}
  {
    var a, b := Single("t", "v1", "j1", "p1", "c1", acl), Single("t", "v2", "j2", "p2", "c2", acl);
    SingleIs(a, "t", "v1", "j1", "p1", "c1", acl);
    SingleIs(b, "t", "v2", "j2", "p2", "c2", acl);
    hide WellFormed, ParentIds, ChildIds, Ingested, Removed, Reconciled, WithStatusIn, Single, NoPurgeOfActive;
    assert a.key.doc == b.key.doc && a.key != b.key && a.job != b.job && a.children != [] by { SinglesDiffer(acl); }
    assert Elements([b.key]) == {b.key} && Elements([a.key]) == {a.key};
    DeleteThenReindex(a, b, Options("corpus", false, true, true), [b.key], [a.key], assemble);
  }

  lemma SinglesDiffer(acl: ResourceAcl)
    ensures var a, b := Single("t", "v1", "j1", "p1", "c1", acl), Single("t", "v2", "j2", "p2", "c2", acl);
            && a.key.doc == b.key.doc && a.key.doc.corpus == "corpus" && a.key != b.key && a.job != b.job && a.children != []
  {
    assert "v1"[1] != "v2"[1] && "j1"[1] != "j2"[1];
  }

  lemma SameIds(w: World, r: World, corpus: string)
    requires r.points == w.points && r.parents == w.parents && r.meta.chunks == w.meta.chunks
    ensures IdsAgree(r, corpus) <==> IdsAgree(w, corpus)
  {
  }

  lemma SameFresh(w: World, r: World, q: Request)
    requires r.points == w.points && r.parents == w.parents && r.meta.chunks == w.meta.chunks
    ensures FreshIds(r, q) <==> FreshIds(w, q)
  {
    hide ParentIds, ChildIds;
  }

  // ---------------------------------------------------------------------
  // Two tenants, one document id
  // ---------------------------------------------------------------------

  /** From the empty stores: two tenants index the same document id and version of one corpus, and
      the process ends, and with it the parent store. Then no run makes the corpus agree, in whatever order it visits. */
  lemma TwoTenantsNeverAgree(a: Request, b: Request, o: Options, active: seq<Key>, assemble: Assemble)
    requires WellFormed(a) && WellFormed(b) && Disjoint(a, b) && SameGroup(a.key, b.key)
    requires a.children != [] && a.children[0].parent != "" && b.children != [] && b.children[0].parent != ""
    requires !o.dryRun && o.rebuild && o.purge && a.key.doc.corpus == o.corpus
    requires Elements(active) == {a.key, b.key}
    ensures var w := ParentsLost(Ingested(Ingested(Nothing, a, "1"), b, "2"));
            && Orders(w, o.corpus, active, []) && IdsAgree(w, o.corpus) && Rebuildable(w, o.corpus)
            && !Agrees(Reconciled(w, o, active, [], assemble), o.corpus)
  {
    hide Startable, Attempt, IdsAgree, Reconciled, Inv, WellFormed, FreshIds, FinalDocs, FinalPlanes, WithStatusIn, ActiveVersion,
         SoundDocuments, Agrees, New, HasFamily, Ingested, Present;
    var w1 := Ingested(Nothing, a, "1");
    var w2 := Ingested(w1, b, "2");
    var w := ParentsLost(w2);
    BothIndexed(a, b);
    assert IdsAgree(w, o.corpus) by { LostIds(w2, o.corpus); }
    BothActive(w2, a, b, o.corpus);
    assert ActiveIn(w, o.corpus) == {a.key, b.key} && DeletedIn(w, o.corpus) == {} by { SameRows(w2, w, o.corpus); }
    assert HasFamily(w.meta, a.key) && HasFamily(w.meta, b.key);
    assert Rebuildable(w, o.corpus);
    assert !HasParent(w, a.key);
    SharedIdsNeverAgree(w, o, active, [], assemble, a.key, b.key);
  }

  /** Such a corpus. */
  lemma SharedVersionNeverAgrees(acl: ResourceAcl, assemble: Assemble)
    ensures var a, b := Single("t1", "v", "j1", "p1", "c1", acl), Single("t2", "v", "j2", "p2", "c2", acl);
            var w := ParentsLost(Ingested(Ingested(Nothing, a, "1"), b, "2"));
            && ActiveIn(w, "corpus") == {a.key, b.key}
            && !Agrees(Reconciled(w, Options("corpus", false, true, true), [a.key, b.key], [], assemble), "corpus")
  {
    var a, b := Single("t1", "v", "j1", "p1", "c1", acl), Single("t2", "v", "j2", "p2", "c2", acl);
    SingleIs(a, "t1", "v", "j1", "p1", "c1", acl);
    SingleIs(b, "t2", "v", "j2", "p2", "c2", acl);
    hide WellFormed, ParentIds, ChildIds, Ingested, ParentsLost, Reconciled, WithStatusIn, IdsAgree, Rebuildable, Agrees;
    assert a.key.doc.tenant[1] != b.key.doc.tenant[1] && a.job[1] != b.job[1];
    assert Elements([a.key, b.key]) == {a.key, b.key};
    TwoTenantsNeverAgree(a, b, Options("corpus", false, true, true), [a.key, b.key], assemble);
  }

  lemma LostIds(w: World, corpus: string)
    requires IdsAgree(w, corpus)
    ensures IdsAgree(ParentsLost(w), corpus)
  {
  }

  lemma BothActive(w: World, a: Request, b: Request, corpus: string)
    requires w.meta.documents.Keys == {a.key, b.key} && IsActive(w.meta.documents, a.key) && IsActive(w.meta.documents, b.key)
    requires a.key.doc.corpus == b.key.doc.corpus == corpus
    ensures ActiveIn(w, corpus) == {a.key, b.key} && DeletedIn(w, corpus) == {}
  {
  }

  lemma FamilyThere(w: World, q: Request, m: State)
    requires WellFormed(q) && q.children != [] && q.children[0].parent != "" && m.chunks == FinalPlanes(w, q).chunks
    ensures HasFamily(m, q.key)
  {
    hide FinalPlanes, WellFormed;
    BuiltHas(w, q);
    RowsTogether(w, w, q) by { WrittenNear(w, q); }
    hide Built;
    var c := q.children[0];
    assert c.id in m.chunks && m.chunks[c.id] == ChildRow(q, c);
  }

  lemma FamilyStands(w: World, q: Request, k: Key, m: State)
    requires HasFamily(w.meta, k) && FreshIds(w, q) && k != q.key && m.chunks == FinalPlanes(w, q).chunks
    ensures HasFamily(m, k)
  {
    hide FinalPlanes;
    var id :| id in w.meta.chunks && ChildOf(w.meta.chunks[id], k) && RowParent(w.meta.chunks[id]) != "";
    FinalRow(w, q, id);
    assert id in m.chunks && ChildOf(m.chunks[id], k) && RowParent(m.chunks[id]) != "";
  }

  lemma BothIndexed(a: Request, b: Request)
    requires WellFormed(a) && WellFormed(b) && Disjoint(a, b) && SameGroup(a.key, b.key)
    requires a.children != [] && a.children[0].parent != "" && b.children != [] && b.children[0].parent != ""
    ensures var w := Ingested(Ingested(Nothing, a, "1"), b, "2");
            && IdsAgree(w, a.key.doc.corpus) && w.meta.documents.Keys == {a.key, b.key}
            && IsActive(w.meta.documents, a.key) && IsActive(w.meta.documents, b.key)
            && HasFamily(w.meta, a.key) && HasFamily(w.meta, b.key)
  {
    hide Startable, Attempt, IdsAgree, Inv, WellFormed, FreshIds, FinalDocs, FinalPlanes, ActiveVersion, SoundDocuments, HasFamily, ParentIds,
         ChildIds;
    NothingIsThere(a);
    NothingIsThere(b);
    NewStarts(Nothing, a);
    StaysNew(Nothing, a, b, "1");
    PlainRun(Nothing, a, "1");
    FinalFacts(Nothing, a);
    FinalKeys(Nothing, a);
    IngestKeepsIds(Nothing, a, "1");
    var w1 := Ingested(Nothing, a, "1");
    FamilyThere(Nothing, a, w1.meta);
    NewStarts(w1, b);
    PlainRun(w1, b, "2");
    FinalFacts(w1, b);
    FinalKeys(w1, b);
    IngestKeepsIds(w1, b, "2");
    var w2 := Ingested(w1, b, "2");
    OtherRowsStand(w1, b, a.key);
    FamilyThere(w1, b, w2.meta);
    FamilyStands(w1, b, a.key, w2.meta);
  }

  // ---------------------------------------------------------------------
  // A build taken over
  // ---------------------------------------------------------------------

  /** Behind the takeover, whatever chunks there are, job c's commit replaces v2 and its publish retires nothing. */
  lemma TakeoverRetiresNothing(w: World, q: Request, acl: ResourceAcl, parents: bool)
    requires w.meta == StateAt(TakeoverRun(acl), 5).(chunks := w.meta.chunks) && q.key == V1 && q.job == "c"
    ensures CommitActive(w.meta, q.key, BaseRevision(w, q)).1 == Switched(2, Some("v2"))
    ensures ReplacedIds(w.meta.chunks, Replaced(q, Recorded(w, q)), parents) == {}
  {
    TakeoverMisrecords(acl);
    hide StateAt, TakeoverRun, MaxRevision, ActiveVersion;
  }
}
