/** What callers can retrieve of a document while one of its versions is being built. */
module IngestionVisibility {
  import opened Common
  import opened Policy
  import opened ControlPlane
  import opened Lifecycle
  import opened DataPlane
  import opened Stores
  import opened Ingestion
  import opened PlaneWrites
  import opened IngestionProgress
  import opened Restarts

  /** Chunk ids are injective in the version: this build's ids hold only its own
      entries, and its points have no others. */
  ghost predicate OwnIdsApply(w: World, q: Request) {
    && (forall id | id in w.points :: id in ChildIds(q) <==> w.points[id].key == q.key)
    && (forall id | id in w.parents && id in ParentIds(q) :: w.parents[id].key == q.key)
  }

  /** Outside this build's ids the stores are those of `s`. */
  ghost predicate OthersStand(s: World, q: Request, w: World) {
    && (forall id | id !in ChildIds(q) :: Same(w.points, s.points, id))
    && (forall id | id !in ParentIds(q) :: Same(w.parents, s.parents, id))
  }

  /** A build that is not active shows nowhere, whatever state its entries are in. */
  lemma UnseenBuild(s: World, q: Request, w: World, ctx: SecurityContext)
    requires OwnIdsApply(s, q) && OwnIdsApply(w, q) && OthersStand(s, q, w)
    requires ActiveVersion(w.meta.documents, q.key.doc) == ActiveVersion(s.meta.documents, q.key.doc) != Some(q.key.version)
    ensures Retrievable(w, ctx, q.key.doc) == Retrievable(s, ctx, q.key.doc)
  {
    hide ActiveVersion, LoadParent, PassesSearch;
    var d := q.key.doc;
    forall id ensures id in Retrievable(w, ctx, d) <==> id in Retrievable(s, ctx, d) {
      assert id !in ChildIds(q) ==> Same(w.points, s.points, id);
      if id !in ChildIds(q) && id in s.points && s.points[id].key.doc == d {
        ForeignParent(s, q, w, s.points[id], ctx);
      }
    }
  }

  /** Hits of another version load the same parent either way. */
  lemma ForeignParent(s: World, q: Request, w: World, hit: Point, ctx: SecurityContext)
    requires OwnIdsApply(s, q) && OwnIdsApply(w, q) && OthersStand(s, q, w) && hit.key != q.key
    ensures LoadParent(w.parents, hit, ctx).Ok? <==> LoadParent(s.parents, hit, ctx).Ok?
  {
    assert hit.parent !in ParentIds(q) ==> Same(w.parents, s.parents, hit.parent);
  }

  // ---------------------------------------------------------------------
  // Own ids stay own while the build progresses
  // ---------------------------------------------------------------------

  ghost predicate OwnIn(p: Planes, q: Request) {
    && (forall id | id in p.points :: id in ChildIds(q) <==> p.points[id].key == q.key)
    && (forall id | id in p.parents && id in ParentIds(q) :: p.parents[id].key == q.key)
  }

  lemma BuiltOwn(s: World, q: Request)
    requires OwnIdsApply(s, q)
    ensures OwnIn(ParentsWritten(PlanesOf(s), q), q) && OwnIn(Built(s, q), q)
  {
    hide RowEntries, ParentIds, ChildIds;
    BuiltPoints(s, q);
    BuiltParents(s, q);
  }

  lemma FinalOwn(s: World, q: Request)
    requires OwnIdsApply(s, q) && WellFormed(q)
    ensures OwnIn(FinalPlanes(s, q), q)
  {
    hide Prev, RowEntries, WellFormed, ParentIds, ChildIds, FinalPlanes;
    var f := FinalPlanes(s, q);
    BuiltOwn(s, q);
    forall id | id in f.points ensures id in ChildIds(q) <==> f.points[id].key == q.key { FinalPointOwn(s, q, id); }
    hide Built;
    forall id | id in f.parents && id in ParentIds(q) ensures f.parents[id].key == q.key {
      FinalParent(s, q, id);
    }
  }

  lemma FinalPointOwn(s: World, q: Request, id: ChunkId)
    requires OwnIdsApply(s, q) && WellFormed(q) && id in FinalPlanes(s, q).points
    ensures id in ChildIds(q) <==> FinalPlanes(s, q).points[id].key == q.key
  {
    hide Prev, RowEntries, WellFormed, ParentIds, ChildIds, FinalPlanes;
    BuiltHas(s, q);
    FinalPoint(s, q, id);
    if id in ChildIds(q) {
      assert Built(s, q).chunks[id] == ChildRow(q, q.children[ChildAt(q, id)]);
    }
  }

  lemma OwnIdsStay(s: World, q: Request, n: nat, w: World)
    requires OwnIdsApply(s, q) && WellFormed(q) && PlanesAt(s, q, n, PlanesOf(w))
    ensures OwnIdsApply(w, q)
  {
    hide Built, FinalPlanes, ParentsWritten, WellFormed, ParentIds, ChildIds;
    BuiltOwn(s, q);
    FinalOwn(s, q);
    var a, b, p := Target(s, q, n), Target(s, q, n + 1), PlanesOf(w);
    forall id | id in w.points ensures id in ChildIds(q) <==> w.points[id].key == q.key {
      assert Same(p.points, a.points, id) || Same(p.points, b.points, id);
    }
    forall id | id in w.parents && id in ParentIds(q) ensures w.parents[id].key == q.key {
      assert Same(p.parents, a.parents, id) || Same(p.parents, b.parents, id);
    }
  }

  /** Before the commit only own entries are written. */
  lemma BuildingStands(s: World, q: Request, n: nat, w: World)
    requires n <= 6 && PlanesAt(s, q, n, PlanesOf(w))
    ensures OthersStand(s, q, w)
  {
    hide ParentIds, ChildIds, RowEntries, ParentEntries, PointEntries, Built;
    BuiltPoints(s, q);
    BuiltParents(s, q);
    var a, b, p := Target(s, q, n), Target(s, q, n + 1), PlanesOf(w);
    forall id | id !in ChildIds(q) ensures Same(w.points, s.points, id) {
      assert Same(p.points, a.points, id) || Same(p.points, b.points, id);
    }
    forall id | id !in ParentIds(q) ensures Same(w.parents, s.parents, id) {
      assert Same(p.parents, a.parents, id) || Same(p.parents, b.parents, id);
    }
  }

  // ---------------------------------------------------------------------
  // Before the commit, after it, after publish
  // ---------------------------------------------------------------------

  ghost predicate SameView(s: World, w: World, d: DocId) {
    forall ctx :: Retrievable(w, ctx, d) == Retrievable(s, ctx, d)
  }

  lemma ClaimedView(s: World, q: Request)
    requires Startable(s, q) && !IsActive(ClaimedDocs(s, q), q.key)
    ensures ActiveVersion(ClaimedDocs(s, q), q.key.doc) == ActiveVersion(s.meta.documents, q.key.doc) != Some(q.key.version)
  {
    hide MaxRevision, ActiveVersion, SoundDocuments, WellFormed, OnlyOwnRows;
    ClaimedFacts(s, q);
  }

  /** After every step before the commit, the document shows exactly what it showed at the start. */
  lemma BuildingIsInvisible(s: World, q: Request, n: nat, w: World)
    requires Startable(s, q) && OwnIdsApply(s, q) && Progress(s, q, n, w) && !IsActive(w.meta.documents, q.key)
    ensures SameView(s, w, q.key.doc)
  {
    hide Startable, OwnIdsApply, OthersStand, PlanesAt, HoldsJob, Retrievable, ClaimedDocs, FinalDocs, ActiveVersion;
    assert WellFormed(q) by { StartWellFormed(s, q); }
    FinalFacts(s, q);
    assert w.meta.documents == ClaimedDocs(s, q);
    ClaimedView(s, q);
    OwnIdsStay(s, q, n, w);
    if n >= 7 { FinalAfterCommit(s, q, n, w.meta.documents); }
    BuildingStands(s, q, n, w);
    forall ctx ensures Retrievable(w, ctx, q.key.doc) == Retrievable(s, ctx, q.key.doc) { UnseenBuild(s, q, w, ctx); }
  }

  lemma StartWellFormed(s: World, q: Request)
    requires Startable(s, q)
    ensures WellFormed(q) && SoundDocuments(s.meta.documents) && OnlyOwnRows(s.meta.chunks, q)
  {
  }

  lemma FinalAfterCommit(s: World, q: Request, n: nat, docs: map<Key, DocRow>)
    requires DocsAt(s, q, n, docs) && n >= 7
    ensures docs == FinalDocs(s, q)
  {
  }

  /** What the failure path leaves hides the build just as well. */
  lemma CompensationIsInvisible(s: World, q: Request, n: nat, w: World, j: nat)
    requires Startable(s, q) && OwnIdsApply(s, q) && Progress(s, q, n, w)
    ensures OwnIdsApply(Undone(w, q, j), q)
    ensures !IsActive(w.meta.documents, q.key) ==> SameView(s, Undone(w, q, j), q.key.doc)
  {
    hide Startable, HoldsJob, PlanesAt, Retrievable, ClaimedDocs, FinalDocs, ActiveVersion, MaxRevision, SoundDocuments,
         Undone;
    StartWellFormed(s, q);
    OwnIdsStay(s, q, n, w);
    UndoneEntries(w, q, j);
    if !IsActive(w.meta.documents, q.key) {
      FinalFacts(s, q);
      ClaimedFacts(s, q);
      ClaimedView(s, q);
      assert n <= 6;
      BuildingStands(s, q, n, w);
      UndoneStands(s, q, w, j);
      UndoneActive(w, q, j);
      forall ctx ensures Retrievable(Undone(w, q, j), ctx, q.key.doc) == Retrievable(s, ctx, q.key.doc) {
        UnseenBuild(s, q, Undone(w, q, j), ctx);
      }
    }
  }

  lemma UndoneEntries(w: World, q: Request, j: nat)
    requires OwnIdsApply(w, q)
    ensures OwnIdsApply(Undone(w, q, j), q)
    ensures forall id | id in ChildIds(q) :: id !in Undone(w, q, j).points
  {
  }

  lemma UndoneActive(w: World, q: Request, j: nat)
    requires SoundDocuments(w.meta.documents)
    ensures ActiveVersion(Undone(w, q, j).meta.documents, q.key.doc) == ActiveVersion(w.meta.documents, q.key.doc)
    ensures SoundDocuments(Undone(w, q, j).meta.documents)
    ensures IsActive(Undone(w, q, j).meta.documents, q.key) <==> IsActive(w.meta.documents, q.key)
  {
    hide MaxRevision, ActiveVersion, SoundDocuments;
    var c := Cleared(w, q);
    assert c.meta.documents == w.meta.documents;
    FailMoves(c.meta, q.key, q.key.doc);
  }

  lemma UndoneStands(s: World, q: Request, w: World, j: nat)
    requires OthersStand(s, q, w)
    ensures OthersStand(s, q, Undone(w, q, j))
  {
    assert forall id | id !in ChildIds(q) :: Same(w.points, s.points, id);
    assert forall id | id !in ParentIds(q) :: Same(w.parents, s.parents, id);
  }

  /** Once its version is active, the document shows nothing but this build's chunks. */
  lemma CommittedShowsOwn(w: World, q: Request, ctx: SecurityContext)
    requires OwnIdsApply(w, q) && SoundDocuments(w.meta.documents) && IsActive(w.meta.documents, q.key)
    ensures Retrievable(w, ctx, q.key.doc) <= ChildIds(q)
  {
    hide ActiveVersion, LoadParent, PassesSearch, SoundDocuments;
    SoundActive(w.meta.documents, q.key);
    forall id | id in Retrievable(w, ctx, q.key.doc) ensures id in ChildIds(q) {
      assert w.points[id].key == q.key;
    }
  }

  /** On the final rows and planes it shows all of them to a caller the new ACL
      admits, and nothing to anyone else. */
  lemma ArrivedShowsAll(s: World, q: Request, w: World, ctx: SecurityContext)
    requires Startable(s, q) && OwnIdsApply(s, q)
    requires w.meta.documents == FinalDocs(s, q) && PlanesOf(w) == FinalPlanes(s, q)
    ensures Retrievable(w, ctx, q.key.doc) == if EvaluateAccess(ctx, q.acl) then ChildIds(q) else {}
  {
    hide Startable, FinalDocs, ActiveVersion, SoundDocuments, FinalPlanes, LoadParent, EvaluateAccess, WellFormed, HasPoints,
         HasParents, Retrievable;
    StartWellFormed(s, q);
    FinalFacts(s, q);
    FinalOwn(s, q);
    assert OwnIdsApply(w, q);
    hide OwnIdsApply;
    CommittedShowsOwn(w, q, ctx);
    FinalHas(s, q);
    forall id | id in ChildIds(q)
      ensures id in Retrievable(w, ctx, q.key.doc) <==> EvaluateAccess(ctx, q.acl)
    {
      OwnChildServed(w, q, ChildAt(q, id), ctx);
    }
  }

  /** So it does as soon as publish is marked done. */
  lemma PublishedShowsAll(s: World, q: Request, n: nat, w: World, ctx: SecurityContext)
    requires Startable(s, q) && OwnIdsApply(s, q) && Progress(s, q, n, w) && n >= 8
    ensures Retrievable(w, ctx, q.key.doc) == if EvaluateAccess(ctx, q.acl) then ChildIds(q) else {}
  {
    hide Startable, HoldsJob, PlanesAt, FinalDocs, FinalPlanes, OwnIdsApply, Retrievable, EvaluateAccess;
    FinalAfterCommit(s, q, n, w.meta.documents);
    FinishedPlanes(s, q, n, w);
    ArrivedShowsAll(s, q, w, ctx);
  }

  lemma FinalHas(s: World, q: Request)
    requires WellFormed(q)
    ensures HasPoints(FinalPlanes(s, q), q, "active") && HasParents(FinalPlanes(s, q), q)
  {
    hide Built, Published, WellFormed, HasPoints, HasParents, HasRows, Prev;
    BuiltHas(s, q);
    PublishedHas(Built(s, q), q, Replaced(q, Prev(s, q)));
  }

  lemma OwnChildServed(w: World, q: Request, i: nat, ctx: SecurityContext)
    requires WellFormed(q) && i < |q.children| && HasPoints(PlanesOf(w), q, "active") && HasParents(PlanesOf(w), q)
    requires ActiveVersion(w.meta.documents, q.key.doc) == Some(q.key.version)
    ensures q.children[i].id in Retrievable(w, ctx, q.key.doc) <==> EvaluateAccess(ctx, q.acl)
  {
    hide ActiveVersion, EvaluateAccess;
    var c := q.children[i];
    assert w.points[c.id] == PointValue(q, c, "active");
    assert OwnParent(q, c.parent);
    var j :| 0 <= j < |q.parents| && q.parents[j].id == c.parent;
    assert w.parents[c.parent] == ParentValue(q, q.parents[j]);
    AccessNeedsTenant(ctx, q.acl);
  }
}
