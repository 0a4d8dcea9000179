/** What one reconciliation leaves of each point and parent, field by field, and who can retrieve it. */
module RepairLaws {
  import opened Common
  import opened Policy
  import opened ControlPlane
  import opened Lifecycle
  import opened DataPlane
  import opened AccessLaws
  import opened Stores
  import opened Reconciliation
  import opened Completeness
  import opened Repairs

  // ---------------------------------------------------------------------
  // One point behind a run
  // ---------------------------------------------------------------------

  /** Identity, parent, text and ACL stay; only a lifecycle that is at odds with the version's is rewritten. */
  ghost predicate Kept(was: Point, p: Point, active: bool) {
    && p.key == was.key && p.parent == was.parent && p.text == was.text && p.acl == was.acl
    && (active ==> p.status == "active" && p.deprecated == (was.status == "active" && was.deprecated))
    && (!active && was.status == "active" ==> p.status == "deprecated" && p.deprecated)
    && (!active && was.status != "active" ==> p == was)
  }

  /** The point a child row is rebuilt into. */
  ghost predicate MadeFrom(row: ChunkRow, p: Point) {
    && p.key == row.key && p.parent == (if row.parent.Some? then row.parent.value else "")
    && p.text == row.content && p.status == "active" && !p.deprecated && p.acl == row.acl
  }

  ghost predicate KeptPoint(w: World, id: ChunkId, p: Point) {
    id in w.points && w.points[id].key in w.meta.documents && Kept(w.points[id], p, IsActive(w.meta.documents, w.points[id].key))
  }

  /** `id` is the child row of some active version's document id and version. */
  ghost predicate MadePoint(w: World, corpus: string, id: ChunkId, p: Point) {
    && id in w.meta.chunks && MadeFrom(w.meta.chunks[id], p)
    && exists k: Key :: k.doc.corpus == corpus && IsActive(w.meta.documents, k) && RowOf(w.meta.chunks[id], k)
  }

  lemma ScanKeeps(w: World, corpus: string, id: ChunkId)
    requires PointIds(w.points, w.meta, corpus)
    ensures id in ScannedPoints(w, corpus) ==> KeptPoint(w, id, ScannedPoints(w, corpus)[id])
    ensures id in w.points && w.points[id].key in w.meta.documents ==> id in ScannedPoints(w, corpus)
  {
    if id in w.points { ScanKeyOf(w, corpus, id); }
  }

  lemma RowMakes(row: ChunkRow)
    ensures MadeFrom(row, RowPoint(row))
  {
  }

  lemma TouchedIsMade(w: World, corpus: string, keys: set<Key>, id: ChunkId)
    requires keys <= ActiveIn(w, corpus) && TouchedRow(w.meta, keys, id)
    ensures MadePoint(w, corpus, id, RowPoint(w.meta.chunks[id]))
  {
    RowMakes(w.meta.chunks[id]);
    hide MadeFrom, RowPoint, RowOf;
    var k :| k in keys && RowOf(w.meta.chunks[id], k);
    assert k in ActiveIn(w, corpus);
  }

  /** The phases of a run, whichever callbacks it has. */
  lemma RunPoints(w: World, o: Options, active: seq<Key>, deleted: seq<Key>, assemble: Assemble) returns (keys: set<Key>, b: World)
    requires !o.dryRun && IdsAgree(w, o.corpus) && Orders(w, o.corpus, active, deleted)
    ensures keys <= ActiveIn(w, o.corpus) && (!o.rebuild ==> forall id :: !TouchedRow(w.meta, keys, id))
    ensures PointsRebuilt(w.(points := ScannedPoints(w, o.corpus)), b, keys)
    ensures forall id :: id in Reconciled(w, o, active, deleted, assemble).points ==>
              id in b.points && Reconciled(w, o, active, deleted, assemble).points[id] == b.points[id]
  {
    hide ScannedPoints, Rebuilt, PointsRebuilt, WithStatusIn, Present, NeedSpreads, PurgePhase, RebuildPhase, ParentsPhase, Needy;
    var s := w.(points := ScannedPoints(w, o.corpus));
    b := if o.rebuild then RebuildPhase(s, Present(w, o.corpus), active, assemble) else s;
    keys := {};
    if o.rebuild {
      assert forall k | k in active :: k in Elements(active);
      keys := RebuildPhaseIs(w, o.corpus, s, active, assemble);
    } else {
      NothingRebuilt(s);
    }
    RebuiltPoints(s, b, keys);
    if o.purge {
      DeletedKnown(w, o.corpus, deleted);
      var gone := PurgePhaseTakes(b, deleted);
      FewerPoints(b, PurgePhase(b, deleted), gone);
    }
  }

  lemma RebuiltPoints(s: World, b: World, keys: set<Key>)
    requires Rebuilt(s, b, keys)
    ensures PointsRebuilt(s, b, keys) && b.meta == s.meta
  {
  }

  lemma FewerPoints(b: World, p: World, gone: set<DocId>)
    requires Without(b, p, gone)
    ensures forall id | id in p.points :: id in b.points && p.points[id] == b.points[id]
  {
  }

  /** Behind a run, a point is either one that was there, of a known version, with nothing rewritten but a
      lifecycle at odds with its version's, or one rebuilt from a child row. */
  lemma PointsBehindRun(w: World, o: Options, active: seq<Key>, deleted: seq<Key>, assemble: Assemble, id: ChunkId)
    requires !o.dryRun && IdsAgree(w, o.corpus) && Orders(w, o.corpus, active, deleted)
    requires id in Reconciled(w, o, active, deleted, assemble).points
    ensures var p := Reconciled(w, o, active, deleted, assemble).points[id];
            KeptPoint(w, id, p) || (o.rebuild && MadePoint(w, o.corpus, id, p))
  {
    hide ScannedPoints, Reconciled, Orders, KeptPoint, MadePoint, TouchedRow, WithStatusIn;
    var keys, b := RunPoints(w, o, active, deleted, assemble);
    ScanKeeps(w, o.corpus, id);
    if TouchedRow(w.meta, keys, id) { TouchedIsMade(w, o.corpus, keys, id); }
    else { assert Same(b.points, ScannedPoints(w, o.corpus), id); }
  }

  // ---------------------------------------------------------------------
  // Who finds it
  // ---------------------------------------------------------------------

  ghost predicate Admitted(ctx: SecurityContext, acl: ResourceAcl, tenant: string) {
    EvaluateAccess(ctx, acl.(tenantId := tenant))
  }

  /** A patched point of an active version is found by exactly those its ACL admits; a point that was active
      already, by nobody if it was deprecated. */
  lemma ActivePointIsFoundIff(w: World, id: ChunkId, p: Point, ctx: SecurityContext)
    requires KeptPoint(w, id, p) && IsActive(w.meta.documents, p.key)
    ensures var was := w.points[id];
            PassesSearch(p, ctx, was.key.doc.corpus) <==>
            Admitted(ctx, was.acl, was.key.doc.tenant) && !(was.status == "active" && was.deprecated)
  {
    hide EvaluateAccess;
  }

  /** A point of a version that is not active is found by nobody, whatever corpus is searched. */
  lemma InactivePointIsHidden(w: World, id: ChunkId, p: Point, ctx: SecurityContext, corpus: string)
    requires KeptPoint(w, id, p) && !IsActive(w.meta.documents, p.key)
    ensures !PassesSearch(p, ctx, corpus)
  {
    hide EvaluateAccess;
    assert "deprecated"[0] != "active"[0];
  }

  lemma MadePointIsFoundIff(row: ChunkRow, p: Point, ctx: SecurityContext)
    requires MadeFrom(row, p)
    ensures PassesSearch(p, ctx, row.key.doc.corpus) <==> Admitted(ctx, row.acl, row.key.doc.tenant)
  {
    hide EvaluateAccess;
  }

  /** Behind the parent phase a parent of an active version is live and one of another version admits no hit. */
  lemma ParentsBehindRun(w: World, o: Options, active: seq<Key>, deleted: seq<Key>, assemble: Assemble,
                         id: ChunkId, hit: Point, ctx: SecurityContext)
    requires !o.dryRun && hit.parent == id && hit.key.doc.corpus == o.corpus
    requires id in Reconciled(w, o, active, deleted, assemble).parents
    ensures var parents := Reconciled(w, o, active, deleted, assemble).parents;
            var p := parents[id];
            && (p.key.doc.corpus == o.corpus ==> p.key in w.meta.documents)
            && (p.key.doc.corpus == o.corpus && IsActive(w.meta.documents, p.key) ==> p.status == "active" && !p.deprecated)
            && (LoadParent(parents, hit, ctx).Ok? ==> IsActive(w.meta.documents, p.key))
  {
    var b := ParentPhaseInput(w, o, active, deleted, assemble);
    hide Reconciled, StaleSibling, EvaluateAccess;
    LiveIsStale(b, id);
  }

  lemma LiveIsStale(parents: map<ChunkId, Parent>, id: ChunkId)
    ensures id in parents && ParentIsLive(parents[id]) ==> StaleSibling(parents, parents[id].key)
  {
  }

  ghost function ParentPhaseInput(w: World, o: Options, active: seq<Key>, deleted: seq<Key>, assemble: Assemble): (b: map<ChunkId, Parent>)
    requires !o.dryRun
    ensures Reconciled(w, o, active, deleted, assemble).parents ==
            ParentsPhase(b, o.corpus, Known(w.meta.documents, o.corpus), ActiveIn(w, o.corpus))
  {
    var scanned := w.(points := ScannedPoints(w, o.corpus));
    var rebuilt := if o.rebuild then RebuildPhase(scanned, Present(w, o.corpus), active, assemble) else scanned;
    (if o.purge then PurgePhase(rebuilt, deleted) else rebuilt).parents
  }

  // ---------------------------------------------------------------------
  // Who retrieves it
  // ---------------------------------------------------------------------

  /** Marked active and deprecated at once: the search filter drops it and the scan takes it as agreeing. */
  predicate Stuck(p: Point) {
    p.status == "active" && p.deprecated
  }

  /** What is there of a child row's point and parent shows the row's own parent id and ACL. */
  ghost predicate Mirrors(w: World, id: ChunkId)
    requires id in w.meta.chunks
  {
    var row := w.meta.chunks[id];
    && (id in w.points && w.points[id].key == row.key ==> w.points[id].parent == RowParent(row) && w.points[id].acl == row.acl)
    && (RowParent(row) in w.parents && w.parents[RowParent(row)].key == row.key ==> SameAcl(w.parents[RowParent(row)].acl, row.acl))
    && RowsHaveAcl(w.meta, RowParent(row), row.acl)
  }

  /** A parent behind the rebuild phase is as before, or has the ACL its rows share. */
  lemma {:induction false} RebuiltAcl(s: World, present: set<Key>, order: seq<Key>, assemble: Assemble, p: ChunkId, acl: ResourceAcl)
    requires KeepsAcl(assemble) && RowsHaveAcl(s.meta, p, acl)
    ensures var b := RebuildPhase(s, present, order, assemble);
            b.meta == s.meta && (Same(b.parents, s.parents, p) || (p in b.parents && b.parents[p].acl == acl))
  {
    hide Rebuild, KeepsAcl, RowsHaveAcl, TouchedParent, HasParent;
    if order != [] {
      var init, k := order[..|order| - 1], order[|order| - 1];
      RebuiltAcl(s, present, init, assemble, p, acl);
      var b := RebuildPhase(s, present, init, assemble);
      RebuildIs(b, k, assemble);
      if TouchedParent(s.meta, {k}, p) { ParentMade(b, k, assemble, p, acl); }
    }
  }

  /** A served row behind the run: its point is the scanned or the rebuilt one, its parent is live with the row's ACL. */
  lemma ServedAtEnd(w: World, o: Options, active: seq<Key>, deleted: seq<Key>, assemble: Assemble, k: Key, id: ChunkId)
    requires !o.dryRun && o.rebuild && o.purge && KeepsAcl(assemble)
    requires IdsAgree(w, o.corpus) && Rebuildable(w, o.corpus) && Orders(w, o.corpus, active, deleted) && Converges(w, o.corpus)
    requires k in ActiveIn(w, o.corpus) && !Purged(w, o.corpus, k.doc)
    requires id in w.meta.chunks && ChildOf(w.meta.chunks[id], k) && RowParent(w.meta.chunks[id]) != "" && Mirrors(w, id)
    requires var f := Reconciled(w, o, active, deleted, assemble); id in f.meta.chunks && f.meta.chunks[id] == w.meta.chunks[id] && RowServed(f, id)
    ensures var f, row := Reconciled(w, o, active, deleted, assemble), w.meta.chunks[id];
            && (if k in Needy(w, o.corpus) then MadeFrom(row, f.points[id]) else id in w.points && Kept(w.points[id], f.points[id], true))
            && var p := f.parents[RowParent(row)]; p.key == k && ParentIsLive(p) && SameAcl(p.acl, row.acl)
  {
    hide Rebuilt, NeedSpreads, Needy, WithStatusIn, ScannedPoints, Without, PurgePhase, RebuildPhase, Converges, Rebuildable, Purged,
         Known, TouchedRow, KeepsAcl, RowsHaveAcl, ParentsPhase, Reconciled, Orders, MadeFrom, Kept, GoneAre;
    var row := w.meta.chunks[id];
    var s, b, keys, gone := RunPhases(w, o, active, deleted, assemble);
    var f, p := Reconciled(w, o, active, deleted, assemble), PurgePhase(b, deleted);
    OwnNeedOnly(w, o.corpus, keys, k, id);
    FewerPoints(b, p, gone);
    FinishKeeps(w, p, o.corpus);
    RebuiltPoints(s, b, keys);
    RowMakes(row);
    ScanKeeps(w, o.corpus, id);
    if k !in Needy(w, o.corpus) {
      assert Same(b.points, s.points, id);
      KeptOfActive(w, id, f.points[id], k, o.corpus);
    }
    RebuiltAcl(s, Present(w, o.corpus), active, assemble, RowParent(row), row.acl);
    ParentOfActive(w, p, b, gone, o.corpus, RowParent(row), k);
  }

  lemma KeptOfActive(w: World, id: ChunkId, p: Point, k: Key, corpus: string)
    requires KeptPoint(w, id, p) && p.key == k && k in ActiveIn(w, corpus)
    ensures Kept(w.points[id], p, true)
  {
  }

  lemma ParentOfActive(w: World, p: World, b: World, gone: set<DocId>, corpus: string, id: ChunkId, k: Key)
    requires Without(b, p, gone) && k in ActiveIn(w, corpus)
    requires id in Finish(w, p, corpus).parents && Finish(w, p, corpus).parents[id].key == k
    ensures ParentIsLive(Finish(w, p, corpus).parents[id])
    ensures id in b.parents && b.parents[id].key == k && Finish(w, p, corpus).parents[id].acl == b.parents[id].acl
  {
    hide StaleSibling, RowsWithout;
    ActiveIsKnown(w, corpus, k);
  }

  /** The gate, for a point and a parent that show the row's parent id and ACL. */
  lemma GateIff(f: World, id: ChunkId, row: ChunkRow, ctx: SecurityContext)
    requires id in f.points && RowParent(row) in f.parents
    requires var p := f.points[id]; p.key == row.key && p.parent == RowParent(row) && p.acl == row.acl && p.status == "active"
    requires var r := f.parents[RowParent(row)]; r.key == row.key && ParentIsLive(r) && SameAcl(r.acl, row.acl)
    requires ActiveVersion(f.meta.documents, row.key.doc) == Some(row.key.version)
    ensures id in Retrievable(f, ctx, row.key.doc) <==> Admitted(ctx, row.acl, row.key.doc.tenant) && !f.points[id].deprecated
  {
    hide EvaluateAccess, ActiveVersion;
    var p, r := f.points[id], f.parents[RowParent(row)];
    RightsIff(r.acl, row.acl, row.key.doc.tenant);
    AccessNeedsTenant(ctx, row.acl.(tenantId := row.key.doc.tenant));
  }

  lemma RowStays(w: World, o: Options, active: seq<Key>, deleted: seq<Key>, assemble: Assemble, k: Key, id: ChunkId)
    requires !o.dryRun && o.rebuild && o.purge && IdsAgree(w, o.corpus) && Orders(w, o.corpus, active, deleted)
    requires AtMostOneActive(w.meta.documents) && k in ActiveIn(w, o.corpus) && !Purged(w, o.corpus, k.doc)
    requires id in w.meta.chunks && ChildOf(w.meta.chunks[id], k)
    ensures var f := Reconciled(w, o, active, deleted, assemble);
            && id in f.meta.chunks && f.meta.chunks[id] == w.meta.chunks[id]
            && ActiveVersion(f.meta.documents, k.doc) == Some(k.version)
  {
    hide Phased, PurgePhase, RebuildPhase, Reconciled, Orders, Purged, AtMostOneActive, ActiveVersion, ParentsPhase, IdsAgree;
    var s, b, keys, gone := RunPhases(w, o, active, deleted, assemble);
    PhasedCorpus(w, o.corpus, s, b, keys);
    RowsAtEnd(w, b, PurgePhase(b, deleted), gone, o.corpus, k);
    FinishKeeps(w, PurgePhase(b, deleted), o.corpus);
  }

  /** One full run over a converging corpus: a child row of an active version that ends whole is retrieved by
      exactly those its ACL admits, unless its point was stuck and the version in no need of a rebuild: then by nobody,
      since the scan takes such a point as agreeing. */
  lemma ShownBehindRunIff(w: World, o: Options, active: seq<Key>, deleted: seq<Key>, assemble: Assemble, k: Key, id: ChunkId, ctx: SecurityContext)
    requires !o.dryRun && o.rebuild && o.purge && KeepsAcl(assemble) && AtMostOneActive(w.meta.documents)
    requires IdsAgree(w, o.corpus) && Rebuildable(w, o.corpus) && Orders(w, o.corpus, active, deleted) && Converges(w, o.corpus)
    requires k in ActiveIn(w, o.corpus) && !Purged(w, o.corpus, k.doc) && Mendable(w, o.corpus, k)
    requires id in w.meta.chunks && ChildOf(w.meta.chunks[id], k) && RowParent(w.meta.chunks[id]) != "" && Mirrors(w, id)
    ensures id in Retrievable(Reconciled(w, o, active, deleted, assemble), ctx, k.doc) <==>
            && Admitted(ctx, w.meta.chunks[id].acl, k.doc.tenant)
            && (k in Needy(w, o.corpus) || (id in w.points && !Stuck(w.points[id])))
  {
    hide Needy, ActiveIn, Converges, Rebuildable, Purged, KeepsAcl, Reconciled, Orders, Mendable, IdsAgree, AtMostOneActive,
         Retrievable, ActiveVersion, Admitted, RowsHaveAcl;
    var f, row := Reconciled(w, o, active, deleted, assemble), w.meta.chunks[id];
    WholeIffMendable(w, o, active, deleted, assemble, k);
    RowStays(w, o, active, deleted, assemble, k, id);
    assert RowServed(f, id);
    ServedAtEnd(w, o, active, deleted, assemble, k, id);
    if k !in Needy(w, o.corpus) { ServedBefore(w, o.corpus, k, id); }
    GateIff(f, id, row, ctx);
  }

  lemma ServedBefore(w: World, corpus: string, k: Key, id: ChunkId)
    requires Mendable(w, corpus, k) && k !in Needy(w, corpus) && id in w.meta.chunks && ChildOf(w.meta.chunks[id], k)
    ensures id in w.points && w.points[id].key == k
  {
    hide Needy;
  }

  /** So in a world whose points are not stuck, every such row is retrieved by exactly those its ACL admits. */
  lemma CompleteShowsAll(w: World, o: Options, active: seq<Key>, deleted: seq<Key>, assemble: Assemble, k: Key, ctx: SecurityContext)
    requires !o.dryRun && o.rebuild && o.purge && KeepsAcl(assemble) && AtMostOneActive(w.meta.documents)
    requires IdsAgree(w, o.corpus) && Rebuildable(w, o.corpus) && Orders(w, o.corpus, active, deleted) && Converges(w, o.corpus)
    requires Complete(Reconciled(w, o, active, deleted, assemble), o.corpus)
    requires k in ActiveIn(Reconciled(w, o, active, deleted, assemble), o.corpus)
    requires forall id | id in w.meta.chunks && ChildOf(w.meta.chunks[id], k) ::
               RowParent(w.meta.chunks[id]) != "" && Mirrors(w, id) && (id in w.points ==> !Stuck(w.points[id]))
    ensures forall id | id in w.meta.chunks && ChildOf(w.meta.chunks[id], k) ::
              id in Retrievable(Reconciled(w, o, active, deleted, assemble), ctx, k.doc)
              <==> Admitted(ctx, w.meta.chunks[id].acl, k.doc.tenant)
  {
    hide Needy, ActiveIn, Converges, Rebuildable, Purged, KeepsAcl, Reconciled, Orders, IdsAgree, AtMostOneActive,
         Retrievable, ActiveVersion, Admitted, RowsHaveAcl, Mirrors, WholeVersion, Mendable;
    ActiveLeft(w, o, active, deleted, assemble, k);
    WholeIffMendable(w, o, active, deleted, assemble, k);
    forall id | id in w.meta.chunks && ChildOf(w.meta.chunks[id], k)
      ensures id in Retrievable(Reconciled(w, o, active, deleted, assemble), ctx, k.doc)
              <==> Admitted(ctx, w.meta.chunks[id].acl, k.doc.tenant)
    {
      ShownBehindRunIff(w, o, active, deleted, assemble, k, id, ctx);
      if k !in Needy(w, o.corpus) { ServedBefore(w, o.corpus, k, id); }
    }
  }
}
