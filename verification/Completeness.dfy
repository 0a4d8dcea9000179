/** The reconciler looks for versions without any point or any parent. What it takes for a run
    to leave every chunk of every active version in place. */
module Completeness {
  import opened Common
  import opened Policy
  import opened ControlPlane
  import opened Lifecycle
  import opened DataPlane
  import opened Stores
  import opened Reconciliation

  /** A child row has its point, and its parent if it names one. */
  predicate RowServed(w: World, id: ChunkId)
    requires id in w.meta.chunks
  {
    var row := w.meta.chunks[id];
    && id in w.points && w.points[id].key == row.key
    && (RowParent(row) != "" ==> RowParent(row) in w.parents && w.parents[RowParent(row)].key == row.key)
  }

  predicate WholeVersion(w: World, k: Key) {
    forall id | id in w.meta.chunks && ChildOf(w.meta.chunks[id], k) :: RowServed(w, id)
  }

  /** Every child row of every active version has its point and its parent. */
  predicate Complete(w: World, corpus: string) {
    forall k | k in ActiveIn(w, corpus) :: WholeVersion(w, k)
  }

  /** What the rebuild makes whole: a version that is whole, or that has no point or no parent. */
  predicate Mendable(w: World, corpus: string, k: Key) {
    WholeVersion(w, k) || k in Needy(w, corpus)
  }

  // ---------------------------------------------------------------------
  // The rebuild phase
  // ---------------------------------------------------------------------

  /** The rows of an active version in a converging world are rewritten exactly for its own need. */
  lemma OwnNeedOnly(w: World, corpus: string, keys: set<Key>, k: Key, id: ChunkId)
    requires NeedSpreads(w, corpus, keys) && Needy(w, corpus) <= keys && Converges(w, corpus) && k in ActiveIn(w, corpus)
    requires id in w.meta.chunks && ChildOf(w.meta.chunks[id], k)
    ensures TouchedRow(w.meta, keys, id) <==> k in Needy(w, corpus)
  {
    hide Needy, NeedSpreads, Purged, WithStatusIn, Known;
    TouchedIffNeedy(w, corpus, keys, id);
    if n :| n in Needy(w, corpus) && RowOf(w.meta.chunks[id], n) {
      assert n != k ==> Contested(w, corpus, n, k);
    }
    assert RowOf(w.meta.chunks[id], k);
  }

  /** Rebuilt rows are served. */
  lemma NeedyIsServed(w: World, corpus: string, s: World, b: World, keys: set<Key>, k: Key, id: ChunkId)
    requires Phased(w, corpus, s, b, keys) && Rebuildable(w, corpus) && Converges(w, corpus)
    requires k in Needy(w, corpus) && id in w.meta.chunks && ChildOf(w.meta.chunks[id], k)
    ensures b.meta == w.meta && RowServed(b, id)
  {
    hide PointsRebuilt, NeedSpreads, Needy, WithStatusIn, Purged, ScannedPoints, TouchedRow, TouchedParent, Known;
    NeedyIsActive(w, corpus, k);
    OwnNeedOnly(w, corpus, keys, k, id);
    TouchedHasPoint(w, s, b, keys, id);
    if RowParent(w.meta.chunks[id]) != "" {
      OwnerInGroup(w, corpus, s, b, keys, id);
      var o := b.parents[RowParent(w.meta.chunks[id])].key;
      if o != k { OthersContest(w, corpus, k, o); }
    }
  }

  lemma ParentUntouched(w: World, corpus: string, keys: set<Key>, k: Key, p: ChunkId)
    requires NeedSpreads(w, corpus, keys) && Needy(w, corpus) <= keys && ParentIdsOf(w.parents, w.meta) && Converges(w, corpus)
    requires k in ActiveIn(w, corpus) && k !in Needy(w, corpus) && p in w.parents && w.parents[p].key == k
    ensures !TouchedParent(w.meta, keys, p)
  {
    hide NeedSpreads, Needy, Purged, WithStatusIn, TouchedParent;
    if TouchedParent(w.meta, keys, p) { var n := TakenIsContested(w, corpus, keys, k, p); }
  }

  /** Other rows of active versions are served exactly as before. */
  lemma OthersAsBefore(w: World, corpus: string, s: World, b: World, keys: set<Key>, k: Key, id: ChunkId)
    requires Phased(w, corpus, s, b, keys) && Converges(w, corpus)
    requires k in ActiveIn(w, corpus) && k !in Needy(w, corpus) && id in w.meta.chunks && ChildOf(w.meta.chunks[id], k)
    ensures b.meta == w.meta && (RowServed(b, id) <==> RowServed(w, id))
  {
    hide NeedSpreads, Needy, WithStatusIn, Purged, ScannedPoints, TouchedRow, TouchedParent, OneOwner, Converges;
    OwnNeedOnly(w, corpus, keys, k, id);
    ScannedAre(w, corpus);
    ActiveIsKnown(w, corpus, k);
    assert Same(b.points, s.points, id);
    var p := RowParent(w.meta.chunks[id]);
    if p in w.parents && w.parents[p].key == k { ParentUntouched(w, corpus, keys, k, p); assert Same(b.parents, s.parents, p); }
    if p != "" && p in b.parents && b.parents[p].key == k {
      if TouchedParent(w.meta, keys, p) { RewrittenTogether(w, keys, id); }
      assert Same(b.parents, s.parents, p);
    }
  }

  /** A row's parent is rewritten only together with the row. */
  lemma RewrittenTogether(w: World, keys: set<Key>, id: ChunkId)
    requires Families(w.meta) && id in w.meta.chunks && !w.meta.chunks[id].isParent
    requires TouchedParent(w.meta, keys, RowParent(w.meta.chunks[id]))
    ensures TouchedRow(w.meta, keys, id)
  {
    var c := RowOfParent(w, keys, RowParent(w.meta.chunks[id]));
    var k :| k in keys && RowOf(w.meta.chunks[c], k);
    assert w.meta.chunks[c].key == w.meta.chunks[id].key;
    assert RowOf(w.meta.chunks[id], k);
  }

  // ---------------------------------------------------------------------
  // The later phases
  // ---------------------------------------------------------------------

  /** Purge and parent repair leave the rows of a version that is not purged, and what serves them. */
  lemma ServedToTheEnd(o: World, b: World, p: World, gone: set<DocId>, corpus: string, k: Key, id: ChunkId)
    requires b.meta == o.meta && Without(b, p, gone) && k in Known(o.meta.documents, corpus) && k.doc !in gone
    ensures var f := Finish(o, p, corpus);
            && (id in f.meta.chunks && ChildOf(f.meta.chunks[id], k) <==> id in o.meta.chunks && ChildOf(o.meta.chunks[id], k))
            && (id in o.meta.chunks && ChildOf(o.meta.chunks[id], k) ==> (RowServed(f, id) <==> RowServed(b, id)))
  {
    hide WithStatusIn, StaleSibling;
    KnownIs(o, corpus, k);
    if id in o.meta.chunks && ChildOf(o.meta.chunks[id], k) {
      assert id in p.meta.chunks && p.meta.chunks[id] == o.meta.chunks[id];
      FinishServes(o, p, corpus, k, RowParent(o.meta.chunks[id]));
    }
    hide ParentsPhase, Known;
  }

  lemma FinishServes(o: World, p: World, corpus: string, k: Key, id: ChunkId)
    requires k in Known(o.meta.documents, corpus)
    ensures var f := Finish(o, p, corpus);
            id in f.parents && f.parents[id].key == k <==> id in p.parents && p.parents[id].key == k
  {
    hide WithStatusIn, StaleSibling;
  }

  // ---------------------------------------------------------------------
  // Whole runs
  // ---------------------------------------------------------------------

  lemma RowServedIf(w: World, corpus: string, s: World, b: World, keys: set<Key>, k: Key, id: ChunkId)
    requires Phased(w, corpus, s, b, keys) && Rebuildable(w, corpus) && Converges(w, corpus) && k in ActiveIn(w, corpus)
    requires id in w.meta.chunks && ChildOf(w.meta.chunks[id], k)
    ensures b.meta == w.meta && (RowServed(b, id) <==> k in Needy(w, corpus) || RowServed(w, id))
  {
    hide Phased, Rebuildable, Converges, Needy, WithStatusIn, RowServed;
    if k in Needy(w, corpus) { NeedyIsServed(w, corpus, s, b, keys, k, id); } else { OthersAsBefore(w, corpus, s, b, keys, k, id); }
  }

  lemma ActiveAtEnd(w: World, b: World, p: World, gone: set<DocId>, corpus: string, k: Key)
    requires b.meta == w.meta && Without(b, p, gone)
    ensures k in ActiveIn(Finish(w, p, corpus), corpus) <==> k in ActiveIn(w, corpus) && k.doc !in gone
    ensures k in ActiveIn(w, corpus) ==> k in Known(w.meta.documents, corpus)
  {
    hide Finish, WithStatusIn, Known, Without;
    RowsLeft(w, b, p, gone, corpus, k);
    assert Finish(w, p, corpus).meta == p.meta by { FinishKeeps(w, p, corpus); }
    SameRows(p, Finish(w, p, corpus), corpus);
  }

  /** In a converging world, a run leaves a version that it does not purge whole exactly when it was whole,
      or had no point or no parent. */
  lemma WholeIffMendable(w: World, o: Options, active: seq<Key>, deleted: seq<Key>, assemble: Assemble, k: Key)
    requires !o.dryRun && o.rebuild && o.purge
    requires IdsAgree(w, o.corpus) && Rebuildable(w, o.corpus) && Orders(w, o.corpus, active, deleted) && Converges(w, o.corpus)
    requires k in ActiveIn(w, o.corpus) && !Purged(w, o.corpus, k.doc)
    ensures var f := Reconciled(w, o, active, deleted, assemble);
            && k in ActiveIn(f, o.corpus)
            && (WholeVersion(f, k) <==> Mendable(w, o.corpus, k))
  {
    hide Phased, WithStatusIn, Known, Without, PurgePhase, Reconciled, Finish, IdsAgree, Rebuildable, Converges, Orders, RowServed,
         Purged, Needy;
    var s, b, keys, gone := RunPhases(w, o, active, deleted, assemble);
    PhasedCorpus(w, o.corpus, s, b, keys);
    var p := PurgePhase(b, deleted);
    var f := Finish(w, p, o.corpus);
    ActiveAtEnd(w, b, p, gone, o.corpus, k);
    forall id ensures id in f.meta.chunks && ChildOf(f.meta.chunks[id], k) <==> id in w.meta.chunks && ChildOf(w.meta.chunks[id], k) {
      ServedToTheEnd(w, b, p, gone, o.corpus, k, id);
    }
    forall id | id in w.meta.chunks && ChildOf(w.meta.chunks[id], k)
      ensures id in f.meta.chunks && (RowServed(f, id) <==> k in Needy(w, o.corpus) || RowServed(w, id))
    {
      ServedToTheEnd(w, b, p, gone, o.corpus, k, id);
      RowServedIf(w, o.corpus, s, b, keys, k, id);
    }
  }

  /** One run with both callbacks leaves every chunk of every active version in place, and nothing stray, if the
      world converges and every active version that is not purged is whole, or has no point or no parent. */
  lemma OneRunCompletes(w: World, o: Options, active: seq<Key>, deleted: seq<Key>, assemble: Assemble)
    requires !o.dryRun && o.rebuild && o.purge
    requires IdsAgree(w, o.corpus) && Rebuildable(w, o.corpus) && Orders(w, o.corpus, active, deleted) && Converges(w, o.corpus)
    ensures var f := Reconciled(w, o, active, deleted, assemble);
            && Agrees(f, o.corpus)
            && (Complete(f, o.corpus) <==>
                forall k | k in ActiveIn(w, o.corpus) && !Purged(w, o.corpus, k.doc) :: Mendable(w, o.corpus, k))
  {
    hide Reconciled, IdsAgree, Rebuildable, Converges, Orders, Purged, Mendable, WholeVersion, ActiveIn, Agrees;
    OneRunAgrees(w, o, active, deleted, assemble);
    var f := Reconciled(w, o, active, deleted, assemble);
    forall k ensures k in ActiveIn(f, o.corpus) <==> k in ActiveIn(w, o.corpus) && !Purged(w, o.corpus, k.doc) {
      ActiveLeft(w, o, active, deleted, assemble, k);
    }
    forall k | k in ActiveIn(w, o.corpus) && !Purged(w, o.corpus, k.doc) ensures WholeVersion(f, k) <==> Mendable(w, o.corpus, k) {
      WholeIffMendable(w, o, active, deleted, assemble, k);
    }
  }

  /** Exactly: where every parent of an active version belongs to one of its child rows, and no document has both
      a deleted and an active row, one run leaves points and parents complete and nothing stray if and only if the
      world converges and every active version is whole, or has no point or no parent. */
  lemma OneRunCompletesIff(w: World, o: Options, active: seq<Key>, deleted: seq<Key>, assemble: Assemble)
    requires !o.dryRun && o.rebuild && o.purge
    requires IdsAgree(w, o.corpus) && Rebuildable(w, o.corpus) && Orders(w, o.corpus, active, deleted)
    requires ParentsBacked(w, o.corpus) && Unmixed(w, o.corpus)
    ensures var f := Reconciled(w, o, active, deleted, assemble);
            Agrees(f, o.corpus) && Complete(f, o.corpus)
            <==> Converges(w, o.corpus) && forall k | k in ActiveIn(w, o.corpus) :: Mendable(w, o.corpus, k)
  {
    hide Reconciled, IdsAgree, Rebuildable, Converges, Orders, Purged, Mendable, ActiveIn, Agrees, ParentsBacked, Unmixed, Complete;
    OneRunAgreesIff(w, o, active, deleted, assemble);
    if Converges(w, o.corpus) {
      OneRunCompletes(w, o, active, deleted, assemble);
      forall k | k in ActiveIn(w, o.corpus) ensures !Purged(w, o.corpus, k.doc) { ActiveNotPurged(w, o.corpus, k); }
    }
  }
}
