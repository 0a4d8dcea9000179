/** Crash refinement of ingestion: however often and wherever an attempt is cut,
    the next attempts end in the world an uninterrupted run ends in. */
module IngestionProgress {
  import opened Common
  import opened Policy
  import opened ControlPlane
  import opened Lifecycle
  import opened DataPlane
  import opened Stores
  import opened Ingestion
  import opened PlaneWrites

  // ---------------------------------------------------------------------
  // What a build is headed for, as a function of the world it starts from
  // ---------------------------------------------------------------------

  ghost function ParentIds(q: Request): set<ChunkId> {
    set i | 0 <= i < |q.parents| :: q.parents[i].id
  }

  ghost function ChildIds(q: Request): set<ChunkId> {
    set i | 0 <= i < |q.children| :: q.children[i].id
  }

  ghost function ParentAt(q: Request, id: ChunkId): (i: nat)
    requires id in ParentIds(q)
    ensures i < |q.parents| && q.parents[i].id == id
  {
    var i :| 0 <= i < |q.parents| && q.parents[i].id == id; i
  }

  ghost function ChildAt(q: Request, id: ChunkId): (i: nat)
    requires id in ChildIds(q)
    ensures i < |q.children| && q.children[i].id == id
  {
    var i :| 0 <= i < |q.children| && q.children[i].id == id; i
  }

  ghost function ParentEntries(q: Request): map<ChunkId, Parent> {
    map id | id in ParentIds(q) :: ParentValue(q, q.parents[ParentAt(q, id)])
  }

  ghost function PointEntries(q: Request, status: string): map<ChunkId, Point> {
    map id | id in ChildIds(q) :: PointValue(q, q.children[ChildAt(q, id)], status)
  }

  ghost function RowEntries(q: Request): map<ChunkId, ChunkRow> {
    (map id | id in ChildIds(q) :: ChildRow(q, q.children[ChildAt(q, id)]))
    + (map id | id in ParentIds(q) :: ParentRow(q, q.parents[ParentAt(q, id)]))
  }

  ghost function RetiredPoints(q: Request, chunks: map<ChunkId, ChunkRow>, replaced: Option<Key>): map<ChunkId, Point> {
    map id | id in ReplacedIds(chunks, replaced, false) :: RetiredPoint(q, chunks[id])
  }

  ghost function RetiredParents(p: Planes, replaced: Option<Key>): map<ChunkId, Parent> {
    map id | id in ReplacedIds(p.chunks, replaced, true) && id in p.parents :: WithStatus(p.parents[id], "inactive", true)
  }

  ghost function ParentsWritten(p: Planes, q: Request): Planes {
    p.(parents := p.parents + ParentEntries(q))
  }

  ghost function ChunksWritten(p: Planes, q: Request): Planes {
    p.(points := p.points + PointEntries(q, "processing"), chunks := p.chunks + RowEntries(q))
  }

  ghost function Published(p: Planes, q: Request, replaced: Option<Key>): Planes {
    p.(points := p.points + PointEntries(q, "active") + RetiredPoints(q, p.chunks, replaced),
       parents := p.parents + RetiredParents(p, replaced))
  }

  /** The version recorded as replaced at the first claim on the lease. */
  ghost function Prev(s: World, q: Request): Option<Version> {
    if q.key in s.meta.builds then s.meta.builds[q.key].previous else ActiveVersion(s.meta.documents, q.key.doc)
  }

  ghost function Base(s: World, q: Request): nat {
    if q.job in s.meta.jobs then s.meta.jobs[q.job].baseRevision else MaxRevision(s.meta.documents, q.key.doc)
  }

  ghost function Built(s: World, q: Request): Planes {
    ChunksWritten(ParentsWritten(PlanesOf(s), q), q)
  }

  ghost function FinalPlanes(s: World, q: Request): Planes {
    Published(Built(s, q), q, Replaced(q, Prev(s, q)))
  }

  ghost function ClaimedDocs(s: World, q: Request): (docs: map<Key, DocRow>)
    ensures q.key in docs
  {
    UpsertBuild(s.meta.documents, q.key, q.hash, q.acl)
  }

  ghost function FinalDocs(s: World, q: Request): map<Key, DocRow> {
    var docs := ClaimedDocs(s, q);
    if IsActive(docs, q.key) then docs
    else SwitchActive(docs, ActiveVersion(docs, q.key.doc), q.key, MaxRevision(docs, q.key.doc) + 1)
  }

  /** A build this job can start or start over: nothing of it in flight, its row
      absent, unpublished, or already its own, and no rows of another chunking. */
  ghost predicate Startable(s: World, q: Request) {
    var docs, builds, jobs := s.meta.documents, s.meta.builds, s.meta.jobs;
    && WellFormed(q) && SoundDocuments(docs)
    && (q.key in docs ==>
          && docs[q.key].hash == q.hash
          && (docs[q.key].status in {Processing, Failed}
              || (docs[q.key].status == Active && q.key in builds && builds[q.key].owner == q.job)))
    && (q.job in jobs ==>
          && jobs[q.job].key == q.key && jobs[q.job].rawHash == q.hash
          && (jobs[q.job].status == JobFailed
              || (jobs[q.job].status == Running && q.key in builds && builds[q.key].owner == q.job
                  && jobs[q.job].previous == builds[q.key].previous))
          && (IsActive(docs, q.key) || jobs[q.job].baseRevision == MaxRevision(docs, q.key.doc)))
    && (q.key in builds ==>
          && builds[q.key].generation >= 1
          && (if builds[q.key].owner == q.job then q.job in jobs else !InFlight(jobs, builds[q.key].owner)))
    && (forall step :: (q.job, step) !in s.meta.steps)
    && OnlyOwnRows(s.meta.chunks, q)
  }

  ghost predicate OnlyOwnRows(chunks: map<ChunkId, ChunkRow>, q: Request) {
    forall id | id in chunks && chunks[id].key == q.key :: id in ParentIds(q) + ChildIds(q)
  }

  // ---------------------------------------------------------------------
  // How far a build has come: the first `n` steps are marked done
  // ---------------------------------------------------------------------

  ghost predicate Marked(q: Request, n: nat, steps: set<(JobId, Step)>)
  {
    forall i | 0 <= i < |Steps| :: (q.job, Steps[i]) in steps <==> i < n
  }

  ghost predicate HoldsJob(s: World, q: Request, m: State) {
    && q.key in m.builds && m.builds[q.key].owner == q.job && m.builds[q.key].previous == Prev(s, q)
    && m.builds[q.key].generation >= 1
    && q.job in m.jobs && m.jobs[q.job].key == q.key && m.jobs[q.job].rawHash == q.hash
    && m.jobs[q.job].previous == Prev(s, q) && m.jobs[q.job].baseRevision == Base(s, q)
  }

  predicate StatusAt(n: nat, status: JobStatus) {
    if n < 8 then status in {Running, JobFailed}
    else if n == 8 then status in {Running, JobFailed, Succeeded}
    else status == Succeeded
  }

  ghost predicate DocsAt(s: World, q: Request, n: nat, docs: map<Key, DocRow>) {
    (n <= 6 && docs == ClaimedDocs(s, q)) || (n >= 6 && docs == FinalDocs(s, q))
  }

  /** The content of the planes once the first `n` steps are done. */
  ghost function Target(s: World, q: Request, n: nat): Planes {
    if n <= 3 then PlanesOf(s)
    else if n == 4 then ParentsWritten(PlanesOf(s), q)
    else if n <= 7 then Built(s, q)
    else FinalPlanes(s, q)
  }

  ghost predicate PlanesAt(s: World, q: Request, n: nat, p: Planes) {
    BetweenPlanes(Target(s, q, n), Target(s, q, n + 1), p)
  }

  ghost predicate Progress(s: World, q: Request, n: nat, w: World) {
    && 1 <= n <= |Steps| && Marked(q, n, w.meta.steps)
    && HoldsJob(s, q, w.meta) && StatusAt(n, w.meta.jobs[q.job].status)
    && DocsAt(s, q, n, w.meta.documents) && PlanesAt(s, q, n, PlanesOf(w))
  }

  /** An attempt under way: it holds generation `g` and its job is running. */
  ghost predicate InRun(s: World, q: Request, g: nat, n: nat, w: World) {
    && Progress(s, q, n, w) && w.meta.builds[q.key].generation == g
    && (n < |Steps| ==> w.meta.jobs[q.job].status == Running)
  }

  // ---------------------------------------------------------------------
  // The data-plane steps
  // ---------------------------------------------------------------------

  /** The new version's entries are all in `b`. */
  ghost predicate HasParents(b: Planes, q: Request) {
    forall i | 0 <= i < |q.parents| :: q.parents[i].id in b.parents && b.parents[q.parents[i].id] == ParentValue(q, q.parents[i])
  }

  ghost predicate HasPoints(b: Planes, q: Request, status: string) {
    forall i | 0 <= i < |q.children| ::
      q.children[i].id in b.points && b.points[q.children[i].id] == PointValue(q, q.children[i], status)
  }

  ghost predicate HasRows(b: Planes, q: Request) {
    && (forall i | 0 <= i < |q.children| ::
          q.children[i].id in b.chunks && b.chunks[q.children[i].id] == ChildRow(q, q.children[i]))
    && (forall i | 0 <= i < |q.parents| ::
          q.parents[i].id in b.chunks && b.chunks[q.parents[i].id] == ParentRow(q, q.parents[i]))
  }

  lemma ParentsHave(p: Planes, q: Request)
    requires WellFormed(q)
    ensures HasParents(ParentsWritten(p, q), q)
  {
    forall i | 0 <= i < |q.parents| ensures q.parents[i].id in ParentIds(q) && ParentAt(q, q.parents[i].id) == i {
    }
  }

  lemma PointsHave(p: Planes, q: Request, status: string)
    requires WellFormed(q)
    ensures HasPoints(p.(points := p.points + PointEntries(q, status)), q, status)
  {
    forall i | 0 <= i < |q.children| ensures q.children[i].id in ChildIds(q) && ChildAt(q, q.children[i].id) == i {
    }
  }

  lemma OwnIdsApart(q: Request, id: ChunkId)
    requires WellFormed(q) && id in ParentIds(q)
    ensures id !in ChildIds(q)
  {
    assert OwnParent(q, id);
    assert id in ChildIds(q) ==> OwnChild(q, id);
  }

  lemma RowsHave(p: Planes, q: Request)
    requires WellFormed(q)
    ensures HasRows(p.(chunks := p.chunks + RowEntries(q)), q)
  {
    forall i | 0 <= i < |q.parents| ensures q.parents[i].id in ParentIds(q) && ParentAt(q, q.parents[i].id) == i {
    }
    forall i | 0 <= i < |q.children|
      ensures q.children[i].id in ChildIds(q) && ChildAt(q, q.children[i].id) == i && q.children[i].id !in ParentIds(q)
    {
      var id := q.children[i].id;
      if id in ParentIds(q) { OwnIdsApart(q, id); }
    }
  }

  lemma PutsAdvance(a: Planes, b: Planes, q: Request, status: string)
    ensures HasParents(b, q) ==> AllAdvance(a, b, WriteParentsOps(q))
    ensures HasPoints(b, q, status) ==> AllAdvance(a, b, PointOps(q, status))
    ensures HasRows(b, q) ==> AllAdvance(a, b, ChildRowOps(q)) && AllAdvance(a, b, ParentRowOps(q))
  {
  }

  lemma WriteParentsAdvance(a: Planes, q: Request)
    requires WellFormed(q)
    ensures AllAdvance(a, ParentsWritten(a, q), WriteParentsOps(q)) && Covers(a, ParentsWritten(a, q), WriteParentsOps(q))
  {
    hide WellFormed, HasParents, HasPoints, HasRows, AllAdvance;
    var b, ops := ParentsWritten(a, q), WriteParentsOps(q);
    ParentsHave(a, q);
    PutsAdvance(a, b, q, "");
    forall id | !Same(a.parents, b.parents, id) ensures exists op | op in ops :: TouchesParent(op, id) {
      assert TouchesParent(ops[ParentAt(q, id)], id);
    }
  }

  lemma PointsCovered(a: Planes, b: Planes, q: Request, status: string)
    requires b.points == a.points + PointEntries(q, status)
    ensures CoversPoints(a, b, PointOps(q, status))
  {
    var ops := PointOps(q, status);
    forall id | !Same(a.points, b.points, id) ensures exists op | op in ops :: TouchesPoint(op, id) {
      assert TouchesPoint(ops[ChildAt(q, id)], id);
    }
  }

  lemma RowsCovered(a: Planes, b: Planes, q: Request)
    requires b.chunks == a.chunks + RowEntries(q)
    ensures CoversChunks(a, b, ChildRowOps(q) + ParentRowOps(q))
  {
    hide ChildRow, ParentRow;
    var ops := ChildRowOps(q) + ParentRowOps(q);
    forall id | !Same(a.chunks, b.chunks, id) ensures exists op | op in ops :: TouchesChunk(op, id) {
      if id in ParentIds(q) {
        assert TouchesChunk(ParentRowOps(q)[ParentAt(q, id)], id);
      } else {
        assert TouchesChunk(ChildRowOps(q)[ChildAt(q, id)], id);
      }
    }
  }

  ghost function WriteChunksOps(q: Request): seq<Op> {
    PointOps(q, "processing") + ChildRowOps(q) + ParentRowOps(q)
  }

  lemma WriteChunksAdvance(a: Planes, q: Request)
    requires WellFormed(q)
    ensures AllAdvance(a, ChunksWritten(a, q), WriteChunksOps(q)) && Covers(a, ChunksWritten(a, q), WriteChunksOps(q))
  {
    hide WellFormed, HasParents, HasPoints, HasRows, AllAdvance, PointEntries, RowEntries, PointOps, ChildRowOps,
         ParentRowOps, CoversPoints, CoversChunks;
    var b, puts, rows := ChunksWritten(a, q), PointOps(q, "processing"), ChildRowOps(q) + ParentRowOps(q);
    PointsHave(a.(chunks := b.chunks), q, "processing");
    RowsHave(a.(points := b.points), q);
    assert a.(chunks := b.chunks).(points := a.points + PointEntries(q, "processing")) == b;
    assert a.(points := b.points).(chunks := a.chunks + RowEntries(q)) == b;
    PutsAdvance(a, b, q, "processing");
    AllAdvanceConcat(a, b, puts, ChildRowOps(q));
    AllAdvanceConcat(a, b, puts + ChildRowOps(q), ParentRowOps(q));
    PointsCovered(a, b, q, "processing");
    RowsCovered(a, b, q);
    assert puts + rows == WriteChunksOps(q);
    CoversMore(a, b, puts, puts + rows);
    CoversMore(a, b, rows, puts + rows);
  }

  // ---------------------------------------------------------------------
  // Publish
  // ---------------------------------------------------------------------

  lemma PublishedHas(p: Planes, q: Request, replaced: Option<Key>)
    requires WellFormed(q) && HasParents(p, q) && HasRows(p, q) && replaced != Some(q.key)
    ensures HasPoints(Published(p, q, replaced), q, "active") && HasParents(Published(p, q, replaced), q)
  {
    hide PointEntries, RetiredPoint, PointValue, ParentValue;
    PointsHave(p, q, "active");
    forall i | 0 <= i < |q.parents| ensures q.parents[i].id !in ReplacedIds(p.chunks, replaced, true) {
      assert p.chunks[q.parents[i].id] == ParentRow(q, q.parents[i]);
    }
    forall i | 0 <= i < |q.children| ensures q.children[i].id !in ReplacedIds(p.chunks, replaced, false) {
      assert p.chunks[q.children[i].id] == ChildRow(q, q.children[i]);
    }
    assert RetiredPoints(q, p.chunks, replaced).Keys == ReplacedIds(p.chunks, replaced, false);
    assert RetiredParents(p, replaced).Keys <= ReplacedIds(p.chunks, replaced, true);
  }

  lemma PromotesAdvance(a: Planes, b: Planes, q: Request)
    requires HasParents(a, q) && HasParents(b, q)
    ensures AllAdvance(a, b, PromoteOps(q))
  {
  }

  lemma RetiresAdvance(p: Planes, q: Request, replaced: Option<Key>, ids: seq<ChunkId>)
    requires replaced != Some(q.key)
    ensures var b := Published(p, q, replaced);
            && ((forall id | id in ids :: id in ReplacedIds(p.chunks, replaced, true)) ==> AllAdvance(p, b, RetireParentOps(ids)))
            && ((forall id | id in ids :: id in ReplacedIds(p.chunks, replaced, false)) ==>
                  AllAdvance(p, b, RetirePointOps(q, p.chunks, ids)))
  {
    hide PointEntries, RetiredPoint;
  }

  lemma RetiredPointsCovered(p: Planes, q: Request, replaced: Option<Key>, ids: seq<ChunkId>, ops: seq<Op>)
    requires forall id :: id in ReplacedIds(p.chunks, replaced, false) <==> id in ids
    requires ops == PointOps(q, "active") + RetirePointOps(q, p.chunks, ids)
    ensures CoversPoints(p, Published(p, q, replaced), ops)
  {
    hide RetiredPoint, PointValue, ReplacedIds;
    var b := Published(p, q, replaced);
    forall id | !Same(p.points, b.points, id) ensures exists op | op in ops :: TouchesPoint(op, id) {
      if id in ChildIds(q) {
        assert TouchesPoint(PointOps(q, "active")[ChildAt(q, id)], id);
      } else {
        var i :| 0 <= i < |ids| && ids[i] == id;
        assert TouchesPoint(RetirePointOps(q, p.chunks, ids)[i], id);
      }
    }
  }

  lemma RetiredParentsCovered(p: Planes, q: Request, replaced: Option<Key>, ids: seq<ChunkId>)
    requires forall id :: id in ReplacedIds(p.chunks, replaced, true) <==> id in ids
    ensures CoversParents(p, Published(p, q, replaced), RetireParentOps(ids))
  {
    hide ReplacedIds;
    var b, ops := Published(p, q, replaced), RetireParentOps(ids);
    forall id | !Same(p.parents, b.parents, id) ensures exists op | op in ops :: TouchesParent(op, id) {
      var i :| 0 <= i < |ids| && ids[i] == id;
      assert TouchesParent(ops[i], id);
    }
  }

  lemma PublishedChunks(p: Planes, q: Request, replaced: Option<Key>, ops: seq<Op>)
    ensures Published(p, q, replaced).chunks == p.chunks && CoversChunks(p, Published(p, q, replaced), ops)
  {
  }

  ghost function PublishWrites(p: Planes, q: Request, replaced: Option<Key>): seq<Op> {
    PointOps(q, "active") + PromoteOps(q)
    + RetireParentOps(Enumerate(ReplacedIds(p.chunks, replaced, true)))
    + RetirePointOps(q, p.chunks, Enumerate(ReplacedIds(p.chunks, replaced, false)))
  }

  lemma PublishAdvances(p: Planes, q: Request, replaced: Option<Key>)
    requires WellFormed(q) && HasParents(p, q) && HasRows(p, q) && replaced != Some(q.key)
    ensures var b := Published(p, q, replaced);
            AllAdvance(p, b, PublishWrites(p, q, replaced)) && Covers(p, b, PublishWrites(p, q, replaced))
  {
    hide WellFormed, HasParents, HasPoints, HasRows, AllAdvance, Published, PointOps, PromoteOps, RetireParentOps,
         RetirePointOps, ReplacedIds, CoversPoints, CoversParents, CoversChunks;
    var b := Published(p, q, replaced);
    var parents, points := Enumerate(ReplacedIds(p.chunks, replaced, true)), Enumerate(ReplacedIds(p.chunks, replaced, false));
    var o1, o2, o3, o4 := PointOps(q, "active"), PromoteOps(q), RetireParentOps(parents), RetirePointOps(q, p.chunks, points);
    PublishedHas(p, q, replaced);
    PutsAdvance(p, b, q, "active");
    PromotesAdvance(p, b, q);
    RetiresAdvance(p, q, replaced, parents);
    RetiresAdvance(p, q, replaced, points);
    AllAdvanceConcat(p, b, o1, o2);
    AllAdvanceConcat(p, b, o1 + o2, o3);
    AllAdvanceConcat(p, b, o1 + o2 + o3, o4);
    RetiredPointsCovered(p, q, replaced, points, o1 + o4);
    RetiredParentsCovered(p, q, replaced, parents);
    PublishedChunks(p, q, replaced, o1 + o2 + o3 + o4);
    CoversMore(p, b, o1 + o4, o1 + o2 + o3 + o4);
    CoversMore(p, b, o3, o1 + o2 + o3 + o4);
  }

  // ---------------------------------------------------------------------
  // One step, cut anywhere
  // ---------------------------------------------------------------------

  lemma AtTarget(a: Planes, p: Planes)
    ensures BetweenPlanes(a, a, p) <==> p == a
  {
    if BetweenPlanes(a, a, p) {
      forall id ensures Same(p.points, a.points, id) && Same(p.parents, a.parents, id) && Same(p.chunks, a.chunks, id) {
        assert Same(p.points, a.points, id) || Same(p.points, a.points, id);
        assert Same(p.parents, a.parents, id) || Same(p.parents, a.parents, id);
        assert Same(p.chunks, a.chunks, id) || Same(p.chunks, a.chunks, id);
      }
      SameEverywhere(p.points, a.points);
      SameEverywhere(p.parents, a.parents);
      SameEverywhere(p.chunks, a.chunks);
    }
  }

  lemma BetweenSelf(a: Planes, b: Planes)
    ensures BetweenPlanes(a, b, a) && BetweenPlanes(a, b, b)
  {
  }

  /** Running a data-plane step with its marker: cut, it stays between the two
      contents; finished, it has arrived and the marker is set. */
  lemma PlaneStep(a: Planes, b: Planes, w: World, q: Request, ops: seq<Op>, step: Step, budget: Option<nat>, switched: bool)
    requires AllAdvance(a, b, ops) && Covers(a, b, ops) && BetweenPlanes(a, b, PlanesOf(w))
    ensures var r := RunOps(w, q, ops + [Control(DoMarkStep(q.job, step))], budget, switched);
            && !r.Raised? && r.switched == switched
            && (budget.None? ==> r.Completed? && r.budget.None?)
            && (r.Completed? ==>
                  PlanesOf(r.world) == b && r.world.meta == w.meta.(chunks := b.chunks, steps := w.meta.steps + {(q.job, step)}))
            && (r.Cut? ==>
                  BetweenPlanes(a, b, PlanesOf(r.world)) && r.world.meta == w.meta.(chunks := r.world.meta.chunks))
  {
    hide BetweenPlanes, AllAdvance, Covers, Hit;
    OpsAdvance(a, b, w, q, ops, budget, switched);
    var mark := [Control(DoMarkStep(q.job, step))];
    RunOpsConcat(w, q, ops, mark, budget, switched);
    var r := RunOps(w, q, ops, budget, switched);
    if r.Completed? {
      forall op | op in ops ensures PlaneOp(op) && Hit(PlanesOf(r.world), b, op) {
        var i :| 0 <= i < |ops| && ops[i] == op;
        AdvancesAt(a, b, ops, i);
      }
      CoveredArrives(a, b, PlanesOf(r.world), ops);
      assert mark[1..] == [];
    }
  }

  lemma AdvancesAt(a: Planes, b: Planes, ops: seq<Op>, i: nat)
    requires AllAdvance(a, b, ops) && i < |ops|
    ensures PlaneOp(ops[i])
  {
  }

  /** What running step `n` from a running attempt comes to. */
  ghost predicate StepOutcome(s: World, q: Request, g: nat, n: nat, budget: Option<nat>, r: Outcome) {
    && !r.Raised?
    && (r.Completed? ==> InRun(s, q, g, n + 1, r.world))
    && (r.Cut? ==> Progress(s, q, n, r.world) && r.world.meta.builds[q.key].generation == g)
    && (r.switched ==> r.world.meta.documents == FinalDocs(s, q))
    && (budget.None? ==> r.Completed? && r.budget.None?)
  }

  ghost function RunStep(w: World, q: Request, g: nat, n: nat, budget: Option<nat>, switched: bool): Outcome
    requires n < |Steps|
  {
    RunOps(w, q, StepOps(w, q, g, Steps[n]) + [Control(DoMarkStep(q.job, Steps[n]))], budget, switched)
  }

  /** A step made of data-plane writes carries the build from one target to the next. */
  lemma DataStep(s: World, q: Request, g: nat, n: nat, w: World, ops: seq<Op>, budget: Option<nat>, switched: bool)
    requires n in {1, 2, 3, 4, 7} && InRun(s, q, g, n, w) && (switched ==> w.meta.documents == FinalDocs(s, q))
    requires AllAdvance(Target(s, q, n), Target(s, q, n + 1), ops) && Covers(Target(s, q, n), Target(s, q, n + 1), ops)
    ensures StepOutcome(s, q, g, n, budget, RunOps(w, q, ops + [Control(DoMarkStep(q.job, Steps[n]))], budget, switched))
  {
    hide AllAdvance, Covers, BetweenPlanes, Target, Prev, Base, FinalDocs, ClaimedDocs, RunOps;
    var r := RunOps(w, q, ops + [Control(DoMarkStep(q.job, Steps[n]))], budget, switched);
    PlaneStep(Target(s, q, n), Target(s, q, n + 1), w, q, ops, Steps[n], budget, switched);
    BetweenSelf(Target(s, q, n + 1), Target(s, q, n + 2));
  }

  // ---------------------------------------------------------------------
  // Verify, commit, finalize
  // ---------------------------------------------------------------------

  lemma OwnIdsCount(q: Request)
    requires WellFormed(q)
    ensures |ParentIds(q) + ChildIds(q)| == |q.parents| + |q.children|
  {
    var parents := seq(|q.parents|, i requires 0 <= i < |q.parents| => q.parents[i].id);
    var children := seq(|q.children|, i requires 0 <= i < |q.children| => q.children[i].id);
    DistinctCount(parents);
    DistinctCount(children);
    forall id ensures id in ParentIds(q) <==> id in parents {
      if id in ParentIds(q) { assert parents[ParentAt(q, id)] == id; }
    }
    forall id ensures id in ChildIds(q) <==> id in children {
      if id in ChildIds(q) { assert children[ChildAt(q, id)] == id; }
    }
    assert ParentIds(q) == Elements(parents);
    assert ChildIds(q) == Elements(children);
    assert ParentIds(q) !! ChildIds(q) by {
      forall id | id in ParentIds(q) ensures id !in ChildIds(q) { OwnIdsApart(q, id); }
    }
  }

  lemma BuiltHas(s: World, q: Request)
    requires WellFormed(q)
    ensures HasParents(Built(s, q), q) && HasPoints(Built(s, q), q, "processing") && HasRows(Built(s, q), q)
  {
    hide WellFormed, PointEntries, ParentEntries, RowEntries, ParentValue, PointValue, ChildRow, ParentRow;
    var p := ParentsWritten(PlanesOf(s), q);
    var b := Built(s, q);
    ParentsHave(PlanesOf(s), q);
    PointsHave(p.(chunks := b.chunks), q, "processing");
    RowsHave(p.(points := b.points), q);
    assert p.(chunks := b.chunks).(points := p.points + PointEntries(q, "processing")) == b;
    assert p.(points := b.points).(chunks := p.chunks + RowEntries(q)) == b;
  }

  lemma BuiltRowsAreOwn(s: World, q: Request)
    requires WellFormed(q) && OnlyOwnRows(s.meta.chunks, q)
    ensures forall id :: id in Built(s, q).chunks && Built(s, q).chunks[id].key == q.key <==> id in ParentIds(q) + ChildIds(q)
  {
    hide ChildRow, ParentRow, ParentEntries, PointEntries;
    BuiltHas(s, q);
    assert Built(s, q).chunks == s.meta.chunks + RowEntries(q);
    RowEntriesKeyed(q);
  }

  lemma RowEntriesKeyed(q: Request)
    ensures RowEntries(q).Keys == ParentIds(q) + ChildIds(q)
    ensures forall id | id in RowEntries(q) :: RowEntries(q)[id].key == q.key
  {
  }

  /** Verification passes on what the write steps leave. */
  lemma BuiltVerifies(s: World, q: Request, w: World)
    requires Startable(s, q) && PlanesOf(w) == Built(s, q) && w.meta.documents == ClaimedDocs(s, q)
    ensures PlanesComplete(w, q)
  {
    hide Built, SoundDocuments, WellFormed, ParentIds, ChildIds, MaxRevision;
    BuiltHas(s, q);
    BuiltRowsAreOwn(s, q);
    OwnIdsCount(q);
    assert ChunkIds(w.meta, q.key) == ParentIds(q) + ChildIds(q);
  }

  lemma ClaimedFacts(s: World, q: Request)
    requires Startable(s, q)
    ensures var d := ClaimedDocs(s, q);
            && SoundDocuments(d) && MaxRevision(d, q.key.doc) == MaxRevision(s.meta.documents, q.key.doc)
            && ActiveVersion(d, q.key.doc) == ActiveVersion(s.meta.documents, q.key.doc)
            && d[q.key].hash == q.hash && d[q.key].status in {Processing, Active}
            && UpsertBuild(d, q.key, q.hash, q.acl) == d
            && (IsActive(d, q.key) <==> IsActive(s.meta.documents, q.key))
            && (!IsActive(d, q.key) ==> Base(s, q) == MaxRevision(d, q.key.doc))
  {
    hide MaxRevision, ActiveVersion, SoundDocuments;
    UpsertMoves(s.meta.documents, q.key, q.hash, q.acl, q.key.doc);
  }

  lemma FinalFacts(s: World, q: Request)
    requires Startable(s, q)
    ensures var d := FinalDocs(s, q);
            && SoundDocuments(d) && IsActive(d, q.key) && ActiveVersion(d, q.key.doc) == Some(q.key.version)
            && d[q.key].hash == q.hash && UpsertBuild(d, q.key, q.hash, q.acl) == d
  {
    hide MaxRevision, ActiveVersion, SoundDocuments, Startable;
    ClaimedFacts(s, q);
    var d := ClaimedDocs(s, q);
    if IsActive(d, q.key) {
      SoundActive(d, q.key);
    } else {
      SwitchMoves(d, q.key, MaxRevision(d, q.key.doc) + 1);
    }
  }

  lemma SoundActive(d: map<Key, DocRow>, k: Key)
    requires SoundDocuments(d) && IsActive(d, k)
    ensures ActiveVersion(d, k.doc) == Some(k.version)
  {
    ActiveVersionIs(d, k);
  }

  /** The commit goes through and leaves the final document rows, also when repeated. */
  lemma CommitLands(s: World, q: Request, m: State)
    requires Startable(s, q) && DocsAt(s, q, 6, m.documents)
    ensures var (m', o) := CommitActive(m, q.key, Base(s, q));
            (o.Switched? || o.AlreadyActive?) && m' == m.(documents := FinalDocs(s, q))
  {
    hide MaxRevision, ActiveVersion, SoundDocuments, Startable, SwitchActive, Base, ClaimedDocs;
    ClaimedFacts(s, q);
    FinalFacts(s, q);
    var d := ClaimedDocs(s, q);
    if IsActive(d, q.key) { SoundActive(d, q.key); }
  }

  /** Running a guard or control write in front of the rest. */
  lemma RunFirst(w: World, q: Request, op: Op, rest: seq<Op>, budget: Option<nat>, switched: bool)
    ensures RunOps(w, q, [op] + rest, budget, switched) ==
            if budget == Some(0) then Cut(w, switched)
            else if !Admits(w, q, op) then Raised(w, budget, switched, op)
            else RunOps(Effect(w, q, op), q, rest, Spend(budget), switched || op.SwitchVersion?)
  {
    hide Effect, Admits;
    assert ([op] + rest)[1..] == rest;
  }

  lemma RunMark(w: World, q: Request, step: Step, budget: Option<nat>, switched: bool)
    ensures RunOps(w, q, [Control(DoMarkStep(q.job, step))], budget, switched) ==
            if budget == Some(0) then Cut(w, switched)
            else Completed(w.(meta := MarkStep(w.meta, q.job, step)), Spend(budget), switched)
  {
    RunFirst(w, q, Control(DoMarkStep(q.job, step)), [], budget, switched);
    assert [Control(DoMarkStep(q.job, step))] + [] == [Control(DoMarkStep(q.job, step))];
  }

  lemma VerifyStep(s: World, q: Request, g: nat, w: World, budget: Option<nat>, switched: bool)
    requires Startable(s, q) && InRun(s, q, g, 5, w) && (switched ==> w.meta.documents == FinalDocs(s, q))
    ensures StepOutcome(s, q, g, 5, budget, RunStep(w, q, g, 5, budget, switched))
  {
    hide Startable, PlanesComplete, Target, Prev, Base, FinalDocs, ClaimedDocs, RunOps, BetweenPlanes, Built, FinalPlanes,
         WellFormed, HasParents, SoundDocuments, MaxRevision;
    var mark := [Control(DoMarkStep(q.job, Verify))];
    assert Target(s, q, 5) == Built(s, q) == Target(s, q, 6) == Target(s, q, 7) by { TargetsAre(s, q); }
    AtTarget(Built(s, q), PlanesOf(w));
    BuiltVerifies(s, q, w);
    RunFirst(w, q, CheckPlanes, mark, budget, switched);
    if budget != Some(0) { RunMark(w, q, Verify, Spend(budget), switched); }
  }

  lemma TargetsAre(s: World, q: Request)
    ensures Target(s, q, 1) == Target(s, q, 2) == Target(s, q, 3) == PlanesOf(s)
    ensures Target(s, q, 4) == ParentsWritten(PlanesOf(s), q)
    ensures Target(s, q, 5) == Target(s, q, 6) == Target(s, q, 7) == Built(s, q)
    ensures Target(s, q, 8) == Target(s, q, 9) == Target(s, q, 10) == FinalPlanes(s, q)
  {
  }

  lemma CommitStep(s: World, q: Request, g: nat, w: World, budget: Option<nat>, switched: bool)
    requires Startable(s, q) && InRun(s, q, g, 6, w) && (switched ==> w.meta.documents == FinalDocs(s, q))
    ensures StepOutcome(s, q, g, 6, budget, RunStep(w, q, g, 6, budget, switched))
  {
    hide Startable, Target, Prev, Base, FinalDocs, ClaimedDocs, RunOps, BetweenPlanes, CommitActive, WellFormed;
    var mark := [Control(DoMarkStep(q.job, Commit))];
    var switch := SwitchVersion(BaseRevision(w, q));
    CommitLands(s, q, w.meta);
    assert StepOps(w, q, g, Commit) + mark == [CheckOwner(g)] + ([switch] + mark);
    RunFirst(w, q, CheckOwner(g), [switch] + mark, budget, switched);
    if budget != Some(0) {
      RunFirst(w, q, switch, mark, Spend(budget), switched);
      if Spend(budget) != Some(0) {
        RunMark(Effect(w, q, switch), q, Commit, Spend(Spend(budget)), true);
      }
    }
    assert Target(s, q, 6) == Target(s, q, 7) by { TargetsAre(s, q); }
    AtTarget(Target(s, q, 6), PlanesOf(w));
    BetweenSelf(Target(s, q, 7), Target(s, q, 8));
  }

  lemma TerminalHolds(s: World, q: Request, m: State, status: JobStatus)
    requires HoldsJob(s, q, m) && status in {Succeeded, JobFailed}
    ensures var m' := MarkTerminal(m, q.job, status);
            HoldsJob(s, q, m') && m'.jobs[q.job].status == status && m'.builds[q.key].generation == m.builds[q.key].generation
  {
    hide Prev, Base;
  }

  lemma FinalizeStep(s: World, q: Request, g: nat, w: World, budget: Option<nat>, switched: bool)
    requires InRun(s, q, g, 8, w) && (switched ==> w.meta.documents == FinalDocs(s, q))
    ensures StepOutcome(s, q, g, 8, budget, RunStep(w, q, g, 8, budget, switched))
  {
    hide Target, FinalDocs, ClaimedDocs, RunOps, BetweenPlanes, MarkTerminal, HoldsJob;
    var mark := [Control(DoMarkStep(q.job, Finalize))];
    var end := Control(DoTerminal(q.job, Succeeded));
    RunFirst(w, q, end, mark, budget, switched);
    HeldRow(s, q, w.meta);
    TerminalHolds(s, q, w.meta, Succeeded);
    HeldRow(s, q, Effect(w, q, end).meta);
    if budget != Some(0) { RunMark(Effect(w, q, end), q, Finalize, Spend(budget), switched); }
    HoldsThroughMark(s, q, Effect(w, q, end).meta, Finalize);
    TargetsAre(s, q);
  }

  lemma HeldRow(s: World, q: Request, m: State)
    requires HoldsJob(s, q, m)
    ensures q.job in m.jobs && q.key in m.builds
  {
  }

  lemma HoldsThroughMark(s: World, q: Request, m: State, step: Step)
    requires HoldsJob(s, q, m)
    ensures HoldsJob(s, q, MarkStep(m, q.job, step))
  {
  }

  lemma PublishStep(s: World, q: Request, g: nat, w: World, budget: Option<nat>, switched: bool)
    requires Startable(s, q) && InRun(s, q, g, 7, w) && (switched ==> w.meta.documents == FinalDocs(s, q))
    ensures StepOutcome(s, q, g, 7, budget, RunStep(w, q, g, 7, budget, switched))
  {
    hide WellFormed, Target, Prev, Base, FinalDocs, ClaimedDocs, RunOps, BetweenPlanes, Built, Published,
         SoundDocuments, MaxRevision, AllAdvance, Covers, HasParents, HasPoints, HasRows;
    var mark := [Control(DoMarkStep(q.job, Publish))];
    var built, replaced := Built(s, q), Replaced(q, Prev(s, q));
    TargetsAre(s, q);
    BuiltHas(s, q);
    var ops := PublishWrites(built, q, replaced);
    PublishAdvances(built, q, replaced);
    assert w.meta.chunks == built.chunks by { PublishKeepsRows(s, q, PlanesOf(w)); }
    assert Recorded(w, q) == Prev(s, q);
    PublishFirst(w, q, g, built);
    hide PublishWrites, PublishOps;
    RunFirst(w, q, CheckOwner(g), ops + mark, budget, switched);
    if budget != Some(0) { DataStep(s, q, g, 7, w, ops, Spend(budget), switched); }
  }

  lemma PublishFirst(w: World, q: Request, g: nat, built: Planes)
    requires w.meta.chunks == built.chunks
    ensures var mark := [Control(DoMarkStep(q.job, Publish))];
            StepOps(w, q, g, Publish) + mark == [CheckOwner(g)] + (PublishWrites(built, q, Replaced(q, Recorded(w, q))) + mark)
  {
    hide PointOps, PromoteOps, RetireParentOps, RetirePointOps, ReplacedIds, Replaced;
  }

  lemma PublishKeepsRows(s: World, q: Request, p: Planes)
    requires BetweenPlanes(Built(s, q), FinalPlanes(s, q), p)
    ensures p.chunks == Built(s, q).chunks
  {
    hide Built, ReplacedIds;
    assert FinalPlanes(s, q).chunks == Built(s, q).chunks;
    forall id ensures Same(p.chunks, Built(s, q).chunks, id) {
      assert Same(p.chunks, Built(s, q).chunks, id) || Same(p.chunks, FinalPlanes(s, q).chunks, id);
    }
    SameEverywhere(p.chunks, Built(s, q).chunks);
  }

  lemma WriteStep(s: World, q: Request, g: nat, n: nat, w: World, budget: Option<nat>, switched: bool)
    requires Startable(s, q) && 1 <= n <= 4 && InRun(s, q, g, n, w) && (switched ==> w.meta.documents == FinalDocs(s, q))
    ensures StepOutcome(s, q, g, n, budget, RunStep(w, q, g, n, budget, switched))
  {
    hide WellFormed, Target, Prev, Base, FinalDocs, ClaimedDocs, RunOps, BetweenPlanes, ParentsWritten, ChunksWritten,
         SoundDocuments, MaxRevision, AllAdvance, Covers, PublishOps;
    TargetsAre(s, q);
    var ops := StepOps(w, q, g, Steps[n]);
    if n <= 2 { NothingAdvances(PlanesOf(s)); }
    else if n == 3 { WriteParentsAdvance(PlanesOf(s), q); }
    else { WriteChunksAdvance(ParentsWritten(PlanesOf(s), q), q); }
    DataStep(s, q, g, n, w, ops, budget, switched);
  }

  lemma NothingAdvances(a: Planes)
    ensures AllAdvance(a, a, []) && Covers(a, a, [])
  {
  }

  lemma AnyStep(s: World, q: Request, g: nat, n: nat, w: World, budget: Option<nat>, switched: bool)
    requires Startable(s, q) && n < |Steps| && InRun(s, q, g, n, w) && (switched ==> w.meta.documents == FinalDocs(s, q))
    ensures StepOutcome(s, q, g, n, budget, RunStep(w, q, g, n, budget, switched))
  {
    hide Startable, HoldsJob, Target, DocsAt, PlanesAt, Marked, FinalDocs, RunStep, StepOutcome;
    if n <= 4 { WriteStep(s, q, g, n, w, budget, switched); }
    else if n == 5 { VerifyStep(s, q, g, w, budget, switched); }
    else if n == 6 { CommitStep(s, q, g, w, budget, switched); }
    else if n == 7 { PublishStep(s, q, g, w, budget, switched); }
    else { FinalizeStep(s, q, g, w, budget, switched); }
  }

  /** Running the remaining steps, cut anywhere: nothing raises, and the build has
      progressed to some step `m`, to the end if it was not cut. */
  lemma {:induction false} RunStepsProgress(s: World, q: Request, g: nat, i: nat, n: nat, w: World, budget: Option<nat>, switched: bool)
    returns (m: nat)
    requires Startable(s, q) && i <= n <= |Steps| && InRun(s, q, g, n, w) && (switched ==> w.meta.documents == FinalDocs(s, q))
    ensures var r := RunSteps(w, q, g, i, budget, switched);
            && !r.Raised?
            && Progress(s, q, m, r.world) && r.world.meta.builds[q.key].generation == g
            && (r.Completed? <==> m == |Steps|)
            && (r.switched ==> r.world.meta.documents == FinalDocs(s, q))
            && (budget.None? ==> r.Completed?)
    decreases |Steps| - i
  {
    hide Startable, HoldsJob, Target, DocsAt, PlanesAt, FinalDocs, StepOps, RunOps, StatusAt;
    m := n;
    if i < |Steps| {
      assert (q.job, Steps[i]) in w.meta.steps <==> i < n;
      if i < n {
        m := RunStepsProgress(s, q, g, i + 1, n, w, budget, switched);
      } else {
        AnyStep(s, q, g, n, w, budget, switched);
        var r := RunStep(w, q, g, n, budget, switched);
        if r.Completed? {
          m := RunStepsProgress(s, q, g, i + 1, n + 1, r.world, r.budget, r.switched);
        }
      }
    }
  }

  // ---------------------------------------------------------------------
  // Entering an attempt
  // ---------------------------------------------------------------------

  lemma AcquireStarts(w: World, q: Request, attempt: string)
    requires Startable(w, q)
    ensures Enter(w, q) == Proceed
    ensures var (m, o) := AcquireJob(w.meta, AcquireFor(w, q, attempt, true));
            o.Acquired? && InRun(w, q, o.generation, 1, w.(meta := MarkStep(m, q.job, Acquire)))
  {
    hide MaxRevision, ActiveVersion, SoundDocuments, WellFormed, OnlyOwnRows, FinalPlanes, Built, BetweenPlanes, ParentsWritten;
    BetweenSelf(PlanesOf(w), PlanesOf(w));
  }

  lemma DocsStand(s: World, q: Request, n: nat, docs: map<Key, DocRow>)
    requires Startable(s, q) && DocsAt(s, q, n, docs)
    ensures q.key in docs && docs[q.key].hash == q.hash && UpsertBuild(docs, q.key, q.hash, q.acl) == docs
    ensures docs[q.key].status in {Processing, Active}
    ensures n >= 7 ==> docs[q.key].status == Active
  {
    hide Startable, FinalDocs, ClaimedDocs, SoundDocuments, MaxRevision, ActiveVersion, UpsertBuild;
    ClaimedFacts(s, q);
    FinalFacts(s, q);
  }

  /** A recovering attempt either finds the build published, or takes up where it was left. */
  lemma AcquireResumes(s: World, q: Request, n: nat, w: World, attempt: string)
    requires Startable(s, q) && Progress(s, q, n, w)
    ensures w.meta.jobs[q.job].status == Succeeded ==> Enter(w, q) == AlreadyIndexed
    ensures w.meta.jobs[q.job].status != Succeeded ==>
              Enter(w, q) == Proceed
              && var (m, o) := AcquireJob(w.meta, AcquireFor(w, q, attempt, true));
                 o.Acquired? && MarkStep(m, q.job, Acquire) == m && InRun(s, q, o.generation, n, w.(meta := m))
  {
    hide MaxRevision, ActiveVersion, SoundDocuments, Startable, FinalPlanes, Built, PlanesAt, DocsAt, Prev, Base, UpsertBuild;
    DocsStand(s, q, n, w.meta.documents);
    assert (q.job, Steps[0]) in w.meta.steps;
    assert w.meta.steps + {(q.job, Acquire)} == w.meta.steps;
  }

  lemma FinishedPlanes(s: World, q: Request, n: nat, w: World)
    requires Progress(s, q, n, w) && n >= 8
    ensures PlanesOf(w) == FinalPlanes(s, q)
  {
    hide FinalDocs, ClaimedDocs, FinalPlanes, Marked, BetweenPlanes, HoldsJob;
    TargetsAre(s, q);
    AtTarget(FinalPlanes(s, q), PlanesOf(w));
  }
}
