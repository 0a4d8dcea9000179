/** A failure path that got as far as clearing the markers: the build can start over, towards the same end. */
module Restarts {
  import opened Common
  import opened Policy
  import opened ControlPlane
  import opened Lifecycle
  import opened DataPlane
  import opened Stores
  import opened Ingestion
  import opened PlaneWrites
  import opened IngestionProgress

  ghost function Retired(s: World, q: Request, parents: bool): set<ChunkId> {
    ReplacedIds(Built(s, q).chunks, Replaced(q, Prev(s, q)), parents)
  }

  ghost predicate NearPoints(s: World, q: Request, p: Planes) {
    forall id | id !in ChildIds(q) && id !in Retired(s, q, false) :: Same(p.points, s.points, id)
  }

  ghost predicate NearParents(s: World, q: Request, p: Planes) {
    forall id | id !in ParentIds(q) ::
      if id in Retired(s, q, true) then SameRetired(p.parents, s.parents, id) else Same(p.parents, s.parents, id)
  }

  ghost predicate NearRows(s: World, q: Request, p: Planes) {
    forall id | id !in ParentIds(q) && id !in ChildIds(q) :: Same(p.chunks, s.meta.chunks, id)
  }

  ghost predicate SameRetired(a: map<ChunkId, Parent>, b: map<ChunkId, Parent>, id: ChunkId) {
    && (id in a <==> id in b)
    && (id in a ==> WithStatus(a[id], "inactive", true) == WithStatus(b[id], "inactive", true))
  }

  /** Up to this build's own entries, and up to entries publish retires anyway,
      the planes are those of `s`. */
  ghost predicate Near(s: World, q: Request, p: Planes) {
    NearPoints(s, q, p) && NearParents(s, q, p) && NearRows(s, q, p)
  }

  lemma ParentsWrittenNear(s: World, q: Request, p: Planes)
    requires Near(s, q, p)
    ensures Near(s, q, ParentsWritten(p, q))
  {
    hide Retired, ParentValue, WithStatus, ParentIds, ChildIds;
    assert ParentEntries(q).Keys == ParentIds(q);
  }

  lemma ChunksWrittenNear(s: World, q: Request, p: Planes)
    requires Near(s, q, p)
    ensures Near(s, q, ChunksWritten(p, q))
  {
    hide Retired, PointValue, RowEntries, WithStatus, ParentIds, ChildIds;
    assert PointEntries(q, "processing").Keys == ChildIds(q);
    RowEntriesKeyed(q);
  }

  lemma WrittenNear(s: World, q: Request)
    ensures Near(s, q, PlanesOf(s)) && Near(s, q, ParentsWritten(PlanesOf(s), q)) && Near(s, q, Built(s, q))
  {
    hide ParentsWritten, ChunksWritten, Retired;
    assert Near(s, q, PlanesOf(s));
    ParentsWrittenNear(s, q, PlanesOf(s));
    ChunksWrittenNear(s, q, ParentsWritten(PlanesOf(s), q));
  }

  lemma FinalNearPoints(s: World, q: Request)
    ensures NearPoints(s, q, FinalPlanes(s, q))
  {
    hide Built, ReplacedIds, Replaced, Prev, RetiredPoint, PointValue, ParentIds, ChildIds, NearParents, NearRows;
    WrittenNear(s, q);
    var b, f := Built(s, q), FinalPlanes(s, q);
    assert PointEntries(q, "active").Keys == ChildIds(q);
    forall id | id !in ChildIds(q) && id !in Retired(s, q, false) ensures Same(f.points, s.points, id) {
      assert Same(b.points, s.points, id);
    }
  }

  lemma FinalNearParents(s: World, q: Request)
    ensures NearParents(s, q, FinalPlanes(s, q)) && NearRows(s, q, FinalPlanes(s, q))
  {
    hide Built, ReplacedIds, Replaced, Prev, PointEntries, RetiredPoints, ParentIds, ChildIds, NearPoints;
    WrittenNear(s, q);
    var b, f := Built(s, q), FinalPlanes(s, q);
    assert f.chunks == b.chunks;
  }

  lemma FinalNear(s: World, q: Request)
    ensures Near(s, q, FinalPlanes(s, q))
  {
    FinalNearPoints(s, q);
    FinalNearParents(s, q);
    hide NearPoints, NearParents, NearRows, FinalPlanes;
  }

  lemma TargetNear(s: World, q: Request, n: nat)
    ensures Near(s, q, Target(s, q, n))
  {
    hide Near, FinalPlanes, Built, ParentsWritten;
    WrittenNear(s, q);
    FinalNear(s, q);
  }

  lemma ProgressNear(s: World, q: Request, n: nat, p: Planes)
    requires PlanesAt(s, q, n, p)
    ensures Near(s, q, p)
  {
    hide Target, Retired, ParentIds, ChildIds, WithStatus;
    TargetNear(s, q, n);
    TargetNear(s, q, n + 1);
    var a, b := Target(s, q, n), Target(s, q, n + 1);
    forall id | id !in ChildIds(q) && id !in Retired(s, q, false) ensures Same(p.points, s.points, id) {
      assert Same(p.points, a.points, id) || Same(p.points, b.points, id);
    }
    forall id | id !in ParentIds(q)
      ensures if id in Retired(s, q, true) then SameRetired(p.parents, s.parents, id) else Same(p.parents, s.parents, id)
    {
      assert Same(p.parents, a.parents, id) || Same(p.parents, b.parents, id);
    }
    forall id | id !in ParentIds(q) && id !in ChildIds(q) ensures Same(p.chunks, s.meta.chunks, id) {
      assert Same(p.chunks, a.chunks, id) || Same(p.chunks, b.chunks, id);
    }
  }

  /** Two starts that differ only in own and retired entries are headed for the same planes. */
  lemma NearTogether(s: World, s': World, q: Request)
    requires Near(s, q, PlanesOf(s')) && Prev(s', q) == Prev(s, q)
    ensures FinalPlanes(s', q) == FinalPlanes(s, q)
  {
    var f, f' := FinalPlanes(s, q), FinalPlanes(s', q);
    RowsTogether(s, s', q);
    forall id ensures Same(f'.points, f.points, id) { PointTogether(s, s', q, id); }
    forall id ensures Same(f'.parents, f.parents, id) { ParentTogether(s, s', q, id); }
    SameEverywhere(f'.points, f.points);
    SameEverywhere(f'.parents, f.parents);
  }

  lemma RowsTogether(s: World, s': World, q: Request)
    requires NearRows(s, q, PlanesOf(s'))
    ensures Built(s', q).chunks == Built(s, q).chunks == FinalPlanes(s, q).chunks
    ensures Built(s', q).chunks == FinalPlanes(s', q).chunks
  {
    hide RowEntries, ReplacedIds;
    RowEntriesKeyed(q);
    forall id ensures Same(Built(s', q).chunks, Built(s, q).chunks, id) {
      if id !in RowEntries(q) { assert Same(s'.meta.chunks, s.meta.chunks, id); }
    }
    SameEverywhere(Built(s', q).chunks, Built(s, q).chunks);
  }

  lemma FinalPoint(s: World, q: Request, id: ChunkId)
    ensures var f, points := FinalPlanes(s, q), FinalPlanes(s, q).points;
            if id in Retired(s, q, false) then id in points && points[id] == RetiredPoint(q, Built(s, q).chunks[id])
            else if id in ChildIds(q) then id in points && points[id] == PointEntries(q, "active")[id]
            else Same(points, s.points, id)
  {
    hide PointValue, RetiredPoint, ReplacedIds, Prev, Replaced;
    BuiltPoints(s, q);
    var b, replaced := Built(s, q), Replaced(q, Prev(s, q));
    hide Built;
    assert FinalPlanes(s, q).points == b.points + PointEntries(q, "active") + RetiredPoints(q, b.chunks, replaced);
    assert RetiredPoints(q, b.chunks, replaced).Keys == Retired(s, q, false);
    assert PointEntries(q, "active").Keys == ChildIds(q);
  }

  lemma BuiltPoints(s: World, q: Request)
    ensures Built(s, q).points == s.points + PointEntries(q, "processing")
    ensures PointEntries(q, "processing").Keys == ChildIds(q)
  {
  }

  lemma BuiltParents(s: World, q: Request)
    ensures Built(s, q).parents == ParentsWritten(PlanesOf(s), q).parents == s.parents + ParentEntries(q)
    ensures ParentEntries(q).Keys == ParentIds(q)
  {
  }

  lemma PointTogether(s: World, s': World, q: Request, id: ChunkId)
    requires NearPoints(s, q, PlanesOf(s')) && Prev(s', q) == Prev(s, q)
    requires Built(s', q).chunks == Built(s, q).chunks
    ensures Same(FinalPlanes(s', q).points, FinalPlanes(s, q).points, id)
  {
    hide PointEntries, FinalPlanes, RetiredPoint, ReplacedIds, Built, Prev, Replaced;
    FinalPoint(s, q, id);
    FinalPoint(s', q, id);
    if id !in ChildIds(q) && id !in Retired(s, q, false) { assert Same(s'.points, s.points, id); }
  }

  lemma FinalParent(s: World, q: Request, id: ChunkId)
    ensures var b, parents := ParentsWritten(PlanesOf(s), q).parents, FinalPlanes(s, q).parents;
            && (id in parents <==> id in b)
            && (id in parents ==> parents[id] == if id in Retired(s, q, true) then WithStatus(b[id], "inactive", true) else b[id])
  {
    hide ParentValue, ReplacedIds, Prev, Replaced, RowEntries, PointEntries, RetiredPoint;
    var b, replaced := Built(s, q), Replaced(q, Prev(s, q));
    assert b.parents == ParentsWritten(PlanesOf(s), q).parents;
    assert FinalPlanes(s, q).parents == b.parents + RetiredParents(b, replaced);
  }

  lemma ParentTogether(s: World, s': World, q: Request, id: ChunkId)
    requires NearParents(s, q, PlanesOf(s')) && Prev(s', q) == Prev(s, q)
    requires Built(s', q).chunks == Built(s, q).chunks
    ensures Same(FinalPlanes(s', q).parents, FinalPlanes(s, q).parents, id)
  {
    hide ParentValue, ReplacedIds, Built, FinalPlanes, Prev, Replaced;
    FinalParent(s, q, id);
    FinalParent(s', q, id);
    if id !in ParentIds(q) {
      if id in Retired(s, q, true) { assert SameRetired(s'.parents, s.parents, id); }
      else { assert Same(s'.parents, s.parents, id); }
    }
  }

  /** The artifacts and the markers of this build are gone. */
  ghost function Cleared(w: World, q: Request): World {
    World(
      ClearSteps(DeleteChunks(w.meta, q.key), q.job),
      map id | id in w.points && id !in ChildIds(q) :: w.points[id],
      map id | id in w.parents && id !in ParentIds(q) :: w.parents[id])
  }

  /** What the failure path leaves once the markers are cleared, with `j` of its two last writes done. */
  ghost function Undone(w: World, q: Request, j: nat): World {
    var c := Cleared(w, q);
    var f := c.(meta := MarkFailed(c.meta, q.key));
    if j == 0 then c else if j == 1 then f else f.(meta := MarkTerminal(f.meta, q.job, JobFailed))
  }

  lemma UndonePlanes(w: World, q: Request, j: nat)
    ensures PlanesOf(Undone(w, q, j)) == PlanesOf(Cleared(w, q))
  {
  }

  lemma ClearedNear(s: World, q: Request, w: World)
    requires Near(s, q, PlanesOf(w)) && OnlyOwnRows(s.meta.chunks, q)
    ensures Near(s, q, PlanesOf(Cleared(w, q)))
    ensures OnlyOwnRows(Cleared(w, q).meta.chunks, q)
  {
    hide Retired, WithStatus;
    var c := Cleared(w, q);
    assert c.meta.chunks == DeleteChunks(w.meta, q.key).chunks;
    forall id | id !in ParentIds(q) && id !in ChildIds(q) ensures Same(c.meta.chunks, s.meta.chunks, id) {
      assert Same(w.meta.chunks, s.meta.chunks, id);
    }
  }

  /** Whether failed or not, the row is claimed again as it was claimed before. */
  lemma UndoneReclaims(s: World, q: Request, docs: map<Key, DocRow>, m: State)
    requires Startable(s, q) && DocsAt(s, q, 6, docs)
    requires m.documents == docs || exists m0: State :: m0.documents == docs && m.documents == MarkFailed(m0, q.key).documents
    ensures var d := m.documents;
            && SoundDocuments(d) && q.key in d && d[q.key].hash == q.hash && d[q.key].status in {Processing, Failed, Active}
            && (IsActive(d, q.key) || Base(s, q) == MaxRevision(d, q.key.doc))
            && UpsertBuild(d, q.key, q.hash, q.acl) == (if IsActive(d, q.key) then FinalDocs(s, q) else ClaimedDocs(s, q))
            && (IsActive(d, q.key) ==> IsActive(UpsertBuild(d, q.key, q.hash, q.acl), q.key))
            && (IsActive(d, q.key) <==> IsActive(docs, q.key))
  {
    hide MaxRevision, ActiveVersion, SoundDocuments, Startable, Base, SwitchActive;
    ClaimedFacts(s, q);
    FinalFacts(s, q);
    if m.documents != docs {
      var m0: State :| m0.documents == docs && m.documents == MarkFailed(m0, q.key).documents;
      FailMoves(m0, q.key, q.key.doc);
    }
  }

  lemma UndoneDocs(w: World, q: Request, j: nat)
    ensures var d := Undone(w, q, j).meta.documents;
            d == w.meta.documents || exists m0: State :: m0.documents == w.meta.documents && d == MarkFailed(m0, q.key).documents
  {
    assert Cleared(w, q).meta.documents == w.meta.documents;
  }

  /** Once the markers are cleared the build can start over, towards the same end. */
  lemma FaultRestarts(s: World, q: Request, n: nat, w: World, j: nat)
    requires Startable(s, q) && Progress(s, q, n, w) && (j < 2 ==> w.meta.jobs[q.job].status != Succeeded)
    ensures var s' := Undone(w, q, j);
            Startable(s', q) && FinalDocs(s', q) == FinalDocs(s, q) && FinalPlanes(s', q) == FinalPlanes(s, q)
  {
    hide MaxRevision, ActiveVersion, SoundDocuments, Base, PlanesAt, Built, FinalPlanes, SwitchActive, UpsertBuild, Near, Retired;
    var s' := Undone(w, q, j);
    ProgressNear(s, q, n, PlanesOf(w));
    ClearedNear(s, q, w);
    UndonePlanes(w, q, j);
    UndoneDocs(w, q, j);
    UndoneReclaims(s, q, w.meta.documents, s'.meta);
    UndoneJob(s, q, w, j);
    NearTogether(s, s', q);
  }

  lemma UndoneJob(s: World, q: Request, w: World, j: nat)
    requires HoldsJob(s, q, w.meta)
    ensures var m := Undone(w, q, j).meta;
            && HoldsJob(s, q, m)
            && m.jobs[q.job].status == (if j < 2 then w.meta.jobs[q.job].status else JobFailed)
            && forall step :: (q.job, step) !in m.steps
  {
    hide Prev, Base;
  }
}
