/** Reconciliation behind the end of the process: what a full run gives back of a version whose
    parents are all gone. */
module Repairs {
  import opened Common
  import opened Policy
  import opened ControlPlane
  import opened Lifecycle
  import opened DataPlane
  import opened Stores
  import opened Ingestion
  import opened PlaneWrites
  import opened IngestionProgress
  import opened LostParents
  import opened Restarts
  import opened IngestionVisibility
  import opened Thinning
  import opened FailurePaths
  import opened Interruptions
  import opened CrashRefinement
  import opened TornCompensation
  import opened ProcessEnds
  import opened Reconciliation
  import opened Completeness
  import opened Histories

  // ---------------------------------------------------------------------
  // Who owns the rebuilt parents
  // ---------------------------------------------------------------------

  /** The last version visited of those that share document id and version with `k`. */
  function LastInGroup(order: seq<Key>, k: Key): Option<Key> {
    if order == [] then None
    else
      var last := order[|order| - 1];
      if SameGroup(last, k) then Some(last) else LastInGroup(order[..|order| - 1], k)
  }

  lemma {:induction false} LastIs(order: seq<Key>, k: Key)
    ensures LastInGroup(order, k) == Some(k) <==>
            exists i :: 0 <= i < |order| && order[i] == k && forall j | i < j < |order| :: !SameGroup(order[j], k)
    ensures LastInGroup(order, k).Some? ==> LastInGroup(order, k).value in order && SameGroup(LastInGroup(order, k).value, k)
  {
    if order != [] {
      var init, n := order[..|order| - 1], |order| - 1;
      LastIs(init, k);
      assert order == init + [order[n]];
      if !SameGroup(order[n], k) && LastInGroup(init, k) == Some(k) {
        var i :| 0 <= i < |init| && init[i] == k && forall j | i < j < |init| :: !SameGroup(init[j], k);
        assert order[i] == k && forall j | i < j < |order| :: !SameGroup(order[j], k);
      }
    }
  }

  /** A parent some child row of the group names. */
  ghost predicate GroupParent(m: State, k: Key, p: ChunkId) {
    p != "" && exists id :: id in m.chunks && RowOf(m.chunks[id], k) && RowParent(m.chunks[id]) == p
  }

  ghost predicate RowsHaveAcl(m: State, p: ChunkId, acl: ResourceAcl) {
    forall id | id in m.chunks && !m.chunks[id].isParent && RowParent(m.chunks[id]) == p :: m.chunks[id].acl == acl
  }

  predicate AllHaveAcl(rows: map<ChunkId, ChunkRow>, acl: ResourceAcl) {
    forall id | id in rows :: rows[id].acl == acl
  }

  /** An assembled parent has the ACL its rows share. */
  ghost predicate KeepsAcl(assemble: Assemble) {
    forall rows: map<ChunkId, ChunkRow>, acl: ResourceAcl | rows != map[] && AllHaveAcl(rows, acl) :: assemble(rows).1 == acl
  }

  lemma GroupTouched(m: State, k: Key, k': Key, p: ChunkId)
    requires Families(m)
    ensures SameGroup(k', k) ==> (TouchedParent(m, {k'}, p) <==> GroupParent(m, k, p))
    ensures !SameGroup(k', k) ==> !(TouchedParent(m, {k'}, p) && GroupParent(m, k, p))
  {
    if TouchedParent(m, {k'}, p) {
      var id :| TouchedRow(m, {k'}, id) && RowParent(m.chunks[id]) == p;
      if SameGroup(k', k) { assert RowOf(m.chunks[id], k); }
      if GroupParent(m, k, p) {
        var c :| c in m.chunks && RowOf(m.chunks[c], k) && RowParent(m.chunks[c]) == p;
        assert m.chunks[c].key == m.chunks[id].key;
      }
    }
    if GroupParent(m, k, p) && SameGroup(k', k) {
      var c :| c in m.chunks && RowOf(m.chunks[c], k) && RowParent(m.chunks[c]) == p;
      assert k' in {k'} && TouchedRow(m, {k'}, c);
    }
  }

  /** The rebuilt parent itself. */
  lemma ParentMade(w: World, k: Key, assemble: Assemble, p: ChunkId, acl: ResourceAcl)
    requires TouchedParent(w.meta, {k}, p)
    ensures var r := Rebuild(w, k, assemble);
            && p in r.parents && r.parents[p].key == k && ParentIsLive(r.parents[p])
            && (KeepsAcl(assemble) && RowsHaveAcl(w.meta, p, acl) ==> r.parents[p].acl == acl)
  {
    hide RowPoint;
    var rows := map id | id in w.meta.chunks && RowOf(w.meta.chunks[id], k) :: w.meta.chunks[id];
    ParentsTouched(w.meta, k, rows);
    var mine := map id | id in rows && RowParent(rows[id]) == p :: rows[id];
    var c :| TouchedRow(w.meta, {k}, c) && RowParent(w.meta.chunks[c]) == p;
    assert c in mine;
    assert KeepsAcl(assemble) && RowsHaveAcl(w.meta, p, acl) ==> AllHaveAcl(mine, acl);
    assert Rebuild(w, k, assemble).parents[p] == Parent(k, assemble(mine).0, "active", false, assemble(mine).1);
  }

  /** Parents of the group, all of one owner. */
  ghost predicate OwnedBy(m: State, b: World, k: Key, owner: Option<Key>, acl: ResourceAcl) {
    && (forall p | GroupParent(m, k, p) ::
          if owner.None? then p !in b.parents
          else p in b.parents && b.parents[p].key == owner.value && ParentIsLive(b.parents[p])
               && (RowsHaveAcl(m, p, acl) ==> b.parents[p].acl == acl))
    && (forall p | p in b.parents && SameGroup(b.parents[p].key, k) ::
          GroupParent(m, k, p) && owner.Some? && b.parents[p].key == owner.value)
  }

  lemma OwnedNext(s: World, b: World, k: Key, owner: Option<Key>, k': Key, assemble: Assemble, acl: ResourceAcl)
    requires b.meta == s.meta && Families(s.meta) && KeepsAcl(assemble) && OwnedBy(s.meta, b, k, owner, acl)
    ensures OwnedBy(s.meta, Rebuild(b, k', assemble), k, if SameGroup(k', k) then Some(k') else owner, acl)
  {
    hide Rebuild, Families, KeepsAcl, RowsHaveAcl, GroupParent, TouchedParent;
    RebuildIs(b, k', assemble);
    var r := Rebuild(b, k', assemble);
    forall p ensures if TouchedParent(s.meta, {k'}, p) then p in r.parents && r.parents[p].key == k' && ParentIsLive(r.parents[p])
                                                            && (RowsHaveAcl(s.meta, p, acl) ==> r.parents[p].acl == acl)
                     else Same(r.parents, b.parents, p) {
      if TouchedParent(s.meta, {k'}, p) { ParentMade(b, k', assemble, p, acl); }
    }
    forall p ensures SameGroup(k', k) ==> (TouchedParent(s.meta, {k'}, p) <==> GroupParent(s.meta, k, p))
             ensures !SameGroup(k', k) ==> !(TouchedParent(s.meta, {k'}, p) && GroupParent(s.meta, k, p)) {
      GroupTouched(s.meta, k, k', p);
    }
  }

  /** With no parent left at the start, the rebuild phase gives all parents of a group to the last of its
      versions that it visits. */
  lemma {:induction false} GroupOwner(s: World, present: set<Key>, order: seq<Key>, k: Key, assemble: Assemble, acl: ResourceAcl)
    requires s.parents == map[] && Families(s.meta) && KeepsAcl(assemble)
    ensures RebuildPhase(s, present, order, assemble).meta == s.meta
    ensures OwnedBy(s.meta, RebuildPhase(s, present, order, assemble), k, LastInGroup(order, k), acl)
  {
    hide Rebuild, Families, KeepsAcl, RowsHaveAcl, GroupParent;
    if order != [] {
      var init, k' := order[..|order| - 1], order[|order| - 1];
      GroupOwner(s, present, init, k, assemble, acl);
      var b := RebuildPhase(s, present, init, assemble);
      OwnedNext(s, b, k, LastInGroup(init, k), k', assemble, acl);
      assert Rebuild(b, k', assemble).meta == b.meta by { RebuildIs(b, k', assemble); }
    }
  }

  // ---------------------------------------------------------------------
  // What is shown after the run
  // ---------------------------------------------------------------------

  /** The tables have all child rows of this build, and its version has no others and no other points. */
  ghost predicate RowsStand(e: World, q: Request) {
    && (forall i | 0 <= i < |q.children| :: q.children[i].id in e.meta.chunks && e.meta.chunks[q.children[i].id] == ChildRow(q, q.children[i]))
    && (forall id | id in e.meta.chunks && ChildOf(e.meta.chunks[id], q.key) :: id in ChildIds(q))
    && (forall id | id in e.points && e.points[id].key == q.key :: id in ChildIds(q))
  }

  lemma OwnRowsShareAcl(e: World, q: Request, i: nat)
    requires RowsStand(e, q) && Families(e.meta) && WellFormed(q) && i < |q.children| && q.children[i].parent != ""
    ensures GroupParent(e.meta, q.key, q.children[i].parent) && RowsHaveAcl(e.meta, q.children[i].parent, q.acl)
  {
    hide WellFormed;
    var c := q.children[i];
    assert RowOf(e.meta.chunks[c.id], q.key) && RowParent(e.meta.chunks[c.id]) == c.parent;
    forall id | id in e.meta.chunks && !e.meta.chunks[id].isParent && RowParent(e.meta.chunks[id]) == c.parent
      ensures e.meta.chunks[id].acl == q.acl
    {
      assert e.meta.chunks[id].key == e.meta.chunks[c.id].key == q.key;
      assert ChildOf(e.meta.chunks[id], q.key);
      var j := ChildAt(q, id);
      assert e.meta.chunks[q.children[j].id] == ChildRow(q, q.children[j]);
    }
  }

  /** Everything the gate asks of a child whose point is `PointValue` and whose parent has this key and ACL. */
  lemma LoadsIff(parents: map<ChunkId, Parent>, q: Request, c: ChildSpec, ctx: SecurityContext)
    requires c.parent in parents ==> SameGroup(parents[c.parent].key, q.key)
    requires c.parent in parents && parents[c.parent].key == q.key ==> ParentIsLive(parents[c.parent]) && parents[c.parent].acl == q.acl
    requires q.acl.tenantId == q.key.doc.tenant
    ensures PassesSearch(PointValue(q, c, "active"), ctx, q.key.doc.corpus) && LoadParent(parents, PointValue(q, c, "active"), ctx).Ok?
            <==> EvaluateAccess(ctx, q.acl) && c.parent in parents && parents[c.parent].key == q.key
  {
    AccessNeedsTenant(ctx, q.acl);
  }

  /** The document behind the run: its own rows, or none if it was purged. */
  lemma RowsAtEnd(e: World, b: World, p: World, gone: set<DocId>, corpus: string, k: Key)
    requires b.meta == e.meta && Without(b, p, gone) && IsActive(e.meta.documents, k) && AtMostOneActive(e.meta.documents)
    ensures ActiveVersion(p.meta.documents, k.doc) == if k.doc in gone then None else Some(k.version)
  {
    var docs := p.meta.documents;
    if k.doc in gone {
      assert forall v :: !IsActive(docs, Key(k.doc, v));
    } else {
      assert IsActive(docs, k) && AtMostOneActive(docs);
      ActiveVersionIs(docs, k);
    }
  }

  /** Points of the version are those of its children, as first published. */
  lemma PointsAtEnd(e: World, q: Request, corpus: string, s: World, b: World, keys: set<Key>, p: World, gone: set<DocId>)
    requires Phased(e, corpus, s, b, keys) && Without(b, p, gone) && RowsStand(e, q) && q.key in Needy(e, corpus) && q.key.doc !in gone
    ensures forall id | id in p.points && p.points[id].key == q.key :: id in ChildIds(q)
    ensures forall i | 0 <= i < |q.children| :: q.children[i].id in p.points && p.points[q.children[i].id] == PointValue(q, q.children[i], "active")
  {
    hide NeedSpreads, Needy, ScannedPoints, WithStatusIn, ParentsRebuilt, OneOwner, IdsAgree, ChildIds, RowsWithout, Known;
    forall id | id in p.points && p.points[id].key == q.key ensures id in ChildIds(q) {
      PhasedPoint(e, corpus, s, b, keys, id);
      if TouchedRow(e.meta, keys, id) { assert ChildOf(e.meta.chunks[id], q.key); }
    }
    forall i | 0 <= i < |q.children|
      ensures q.children[i].id in p.points && p.points[q.children[i].id] == PointValue(q, q.children[i], "active")
    {
      var c := q.children[i];
      assert RowOf(e.meta.chunks[c.id], q.key) && q.key in keys;
      assert TouchedRow(e.meta, keys, c.id);
      assert b.points[c.id] == RowPoint(e.meta.chunks[c.id]) == PointValue(q, c, "active");
    }
  }

  /** Parents of the group at the end are those of the owner, live, with the rows' ACL. */
  lemma ParentAtEnd(e: World, q: Request, corpus: string, b: World, p: World, gone: set<DocId>, owner: Key, pid: ChunkId)
    requires b.meta == e.meta && Without(b, p, gone) && q.key in ActiveIn(e, corpus) && q.key.doc !in gone
    requires SameGroup(owner, q.key) && pid in b.parents && b.parents[pid].key == owner && ParentIsLive(b.parents[pid])
    ensures var f := Finish(e, p, corpus);
            && (pid in f.parents ==> f.parents[pid].key == owner)
            && (owner == q.key ==> pid in f.parents && ParentIsLive(f.parents[pid]) && f.parents[pid].acl == b.parents[pid].acl)
  {
    hide StaleSibling, RowsWithout;
    assert q.key in Known(e.meta.documents, corpus);
  }

  /** A full run over a world without any parent: the version is shown again, to exactly those its ACL admits, if it
      is the last of its document id and version that the run visits, and its document is not purged; otherwise
      it shows nothing. */
  lemma RepairShowsIff(e: World, q: Request, o: Options, active: seq<Key>, deleted: seq<Key>, assemble: Assemble, ctx: SecurityContext)
    requires !o.dryRun && o.rebuild && o.purge && q.key.doc.corpus == o.corpus
    requires IdsAgree(e, o.corpus) && Orders(e, o.corpus, active, deleted) && KeepsAcl(assemble)
    requires e.parents == map[] && IsActive(e.meta.documents, q.key) && AtMostOneActive(e.meta.documents)
    requires WellFormed(q) && RowsStand(e, q) && "" !in ParentIds(q)
    ensures Retrievable(Reconciled(e, o, active, deleted, assemble), ctx, q.key.doc) ==
            if LastInGroup(active, q.key) == Some(q.key) && !Purged(e, o.corpus, q.key.doc) && EvaluateAccess(ctx, q.acl)
            then ChildIds(q) else {}
  {
    hide Phased, Purged, Known, PurgePhase, Reconciled, IdsAgree, Rebuild, RebuildPhase, AtMostOneActive, ActiveVersion, Without,
         Finish, RowsStand, KeepsAcl, Regained, Lingers, ScannedPoints, PassesSearch, LoadParent, EvaluateAccess, Needy;
    var s, b, keys, gone := RunPhases(e, o, active, deleted, assemble);
    PhasedCorpus(e, o.corpus, s, b, keys);
    var p := PurgePhase(b, deleted);
    var f := Finish(e, p, o.corpus);
    assert f.points == p.points && f.meta == p.meta by { FinishKeeps(e, p, o.corpus); }
    RowsAtEnd(e, b, p, gone, o.corpus, q.key);
    if q.key.doc !in gone {
      assert q.key in ActiveIn(e, o.corpus);
      NoParentsNeedy(e, o.corpus, q.key);
      PointsAtEnd(e, q, o.corpus, s, b, keys, p, gone);
      var owner := GroupOwnerIs(e, o.corpus, s, b, keys, active, deleted, q.key, assemble, q.acl);
      forall i | 0 <= i < |q.children|
        ensures q.children[i].id in Retrievable(f, ctx, q.key.doc) <==> EvaluateAccess(ctx, q.acl) && owner == q.key
      {
        ChildShown(e, q, o.corpus, s, b, keys, p, gone, owner, i, ctx);
      }
      ShownAreOwn(f, q, ctx);
      forall id ensures id in Retrievable(f, ctx, q.key.doc) <==> id in ChildIds(q) && EvaluateAccess(ctx, q.acl) && owner == q.key {
        if id in ChildIds(q) { assert q.children[ChildAt(q, id)].id == id; }
      }
    }
  }

  lemma ShownAreOwn(f: World, q: Request, ctx: SecurityContext)
    requires ActiveVersion(f.meta.documents, q.key.doc) == Some(q.key.version)
    requires forall id | id in f.points && f.points[id].key == q.key :: id in ChildIds(q)
    ensures Retrievable(f, ctx, q.key.doc) <= ChildIds(q)
  {
    hide PassesSearch, LoadParent, ChildIds, ActiveVersion;
  }

  lemma NoParentsNeedy(e: World, corpus: string, k: Key)
    requires e.parents == map[] && k in ActiveIn(e, corpus)
    ensures k in Needy(e, corpus)
  {
  }

  lemma GroupOwnerIs(e: World, corpus: string, s: World, b: World, keys: set<Key>, active: seq<Key>, deleted: seq<Key>, k: Key,
                     assemble: Assemble, acl: ResourceAcl) returns (owner: Key)
    requires Phased(e, corpus, s, b, keys) && e.parents == map[] && KeepsAcl(assemble)
    requires b == RebuildPhase(s, Present(e, corpus), active, assemble) && Orders(e, corpus, active, deleted) && k in ActiveIn(e, corpus)
    ensures LastInGroup(active, k) == Some(owner) && SameGroup(owner, k) && OwnedBy(e.meta, b, k, Some(owner), acl)
  {
    hide RebuildPhase, KeepsAcl, OwnedBy, Rebuilt, NeedSpreads, Needy, WithStatusIn, ScannedPoints, PointIds, ParentIdsOf, Families;
    GroupOwner(s, Present(e, corpus), active, k, assemble, acl);
    LastIs(active, k);
    assert k in Elements(active);
    SomeLast(active, k);
    owner := LastInGroup(active, k).value;
  }

  lemma {:induction false} SomeLast(order: seq<Key>, k: Key)
    requires k in order
    ensures LastInGroup(order, k).Some?
  {
    if !SameGroup(order[|order| - 1], k) {
      assert order == order[..|order| - 1] + [order[|order| - 1]];
      SomeLast(order[..|order| - 1], k);
    }
  }

  lemma ChildShown(e: World, q: Request, corpus: string, s: World, b: World, keys: set<Key>, p: World, gone: set<DocId>, owner: Key,
                   i: nat, ctx: SecurityContext)
    requires Phased(e, corpus, s, b, keys) && b.meta == e.meta && Without(b, p, gone) && q.key in ActiveIn(e, corpus) && q.key.doc !in gone
    requires WellFormed(q) && RowsStand(e, q) && "" !in ParentIds(q) && i < |q.children| && q.key.doc.corpus == corpus
    requires q.children[i].id in p.points && p.points[q.children[i].id] == PointValue(q, q.children[i], "active")
    requires SameGroup(owner, q.key) && OwnedBy(e.meta, b, q.key, Some(owner), q.acl)
    requires ActiveVersion(p.meta.documents, q.key.doc) == Some(q.key.version)
    ensures q.children[i].id in Retrievable(Finish(e, p, corpus), ctx, q.key.doc) <==> EvaluateAccess(ctx, q.acl) && owner == q.key
  {
    hide Rebuilt, NeedSpreads, Needy, WithStatusIn, ScannedPoints, PointIds, ParentIdsOf, ActiveVersion, PassesSearch, LoadParent,
         EvaluateAccess, Without, ParentsPhase, GroupParent, RowsHaveAcl, RowsStand;
    var c, f := q.children[i], Finish(e, p, corpus);
    assert c.parent in ParentIds(q) by { assert OwnParent(q, c.parent); }
    OwnRowsShareAcl(e, q, i);
    assert c.parent in b.parents && b.parents[c.parent].key == owner && ParentIsLive(b.parents[c.parent]) && b.parents[c.parent].acl == q.acl;
    ParentAtEnd(e, q, corpus, b, p, gone, owner, c.parent);
    LoadsIff(f.parents, q, c, ctx);
    assert f.points == p.points && f.meta == p.meta;
  }

  // ---------------------------------------------------------------------
  // The end of the process, a recovery, a run
  // ---------------------------------------------------------------------

  lemma ThinnedIds(q: Request, f: World, w: World, corpus: string)
    requires Thinned(q, f, w) && IdsAgree(f, corpus)
    ensures IdsAgree(w, corpus)
  {
    hide ChildIds, ParentIds;
    assert forall id | id in w.points :: Same(w.points, f.points, id);
    assert forall id | id in w.parents :: Same(w.parents, f.parents, id);
    assert forall id | id in w.meta.chunks :: Same(w.meta.chunks, f.meta.chunks, id);
  }

  lemma FinishedIds(o: World, q: Request, f: World)
    requires Startable(o, q) && IdsAgree(o, q.key.doc.corpus) && FreshIds(o, q) && PlanesOf(f) == FinalPlanes(o, q)
    ensures IdsAgree(f, q.key.doc.corpus)
  {
    hide Startable, IdsAgree, FreshIds, Attempt, FinalPlanes;
    IngestKeepsIds(o, q, "");
    PlainRun(o, q, "");
    SameIds(Ingested(o, q, ""), f, q.key.doc.corpus);
  }

  lemma OriginIds(w: World, q: Request, cuts: seq<Interruption>, corpus: string)
    requires IdsAgree(w, corpus) && FreshIds(w, q)
    ensures IdsAgree(Origin(w, q, cuts), corpus) && FreshIds(Origin(w, q, cuts), q)
  {
    hide ParentIds, ChildIds;
  }

  /** A finished build with its rows stands in the tables with nothing else of its version. */
  lemma FinishedRows(s: World, q: Request, f: World, w: World)
    requires Startable(s, q) && OwnIdsApply(w, q) && PlanesOf(f) == FinalPlanes(s, q) && Thinned(q, f, w) && RowsIn(q, w)
    ensures RowsStand(w, q)
  {
    hide Startable, FinalPlanes, ParentIds, ChildIds, HasPoints, HasParents;
    FinalEntries(s, q);
    forall i | 0 <= i < |q.children|
      ensures q.children[i].id in w.meta.chunks && w.meta.chunks[q.children[i].id] == ChildRow(q, q.children[i])
    {
      assert Same(w.meta.chunks, f.meta.chunks, q.children[i].id);
    }
    forall id | id in w.meta.chunks && ChildOf(w.meta.chunks[id], q.key) ensures id in ChildIds(q) {
      assert Same(w.meta.chunks, f.meta.chunks, id);
      assert id in ParentIds(q) ==> f.meta.chunks[id] == ParentRow(q, q.parents[ParentAt(q, id)]);
    }
  }

  /** What a recovery behind verification leaves of a build whose parents the process has taken. */
  lemma LeftWithoutParents(w: World, q: Request, cuts: seq<Interruption>, attempt: string)
    requires Startable(w, q) && OwnIdsApply(w, q) && IdsAgree(w, q.key.doc.corpus) && FreshIds(w, q) && q.parents != []
    requires var now := AfterCuts(w, q, cuts + [ProcessEnd]); !Unwritten(q, now) && !Unverified(q, now)
    ensures var end := Attempt(AfterCuts(w, q, cuts + [ProcessEnd]), q, attempt, true, None, Kill).0;
            && end.parents == map[] && IsActive(end.meta.documents, q.key) && AtMostOneActive(end.meta.documents)
            && IdsAgree(end, q.key.doc.corpus) && (RowsIn(q, end) ==> RowsStand(end, q))
  {
    hide Startable, Attempt, AfterCuts, Unverified, Unwritten, Reached, IdsAgree, FreshIds, OwnIdsApply, FinalDocs, FinalPlanes, Finished,
         Thinned, RowsStand, RowsIn, NoTrace, Origin, SoundDocuments, Restart, Sound, JobSucceeded, AtMostOneActive;
    var all := cuts + [ProcessEnd];
    var o, now := Origin(w, q, all), AfterCuts(w, q, all);
    ProcessEndDecides(w, q, cuts, attempt, "", "");
    CutsReached(w, q, all);
    OriginOwn(w, q, all);
    OriginIds(w, q, all, q.key.doc.corpus);
    var s := RecoveryFrom(o, q, now, attempt);
    var end := Attempt(now, q, attempt, true, None, Kill).0;
    var f :| Finished(s, q, f) && Thinned(q, f, end);
    FromRestart(o, q, s);
    OverShows(s, q, f, end);
    SoundOne(end.meta.documents);
    FinishedPlanesAre(s, q, f);
    FinishedIds(o, q, f);
    ThinnedIds(q, f, end, q.key.doc.corpus);
    if RowsIn(q, end) { FinishedRows(s, q, f, end); }
  }

  lemma FromRestart(o: World, q: Request, s: World)
    requires Restart(o, q, s) && OwnIdsApply(o, q)
    ensures Startable(s, q) && OwnIdsApply(s, q) && FinalPlanes(s, q) == FinalPlanes(o, q)
  {
    hide Startable, OwnIdsApply, FinalPlanes, FinalDocs, SameView;
  }

  lemma SoundOne(docs: map<Key, DocRow>)
    requires SoundDocuments(docs)
    ensures AtMostOneActive(docs)
  {
  }

  /** The process ends behind the verify marker, the build is recovered and shows nothing to anyone; then a full
      run of the reconciler. If the chunk rows are there, it shows the version again to exactly those its ACL
      admits, if and only if the version is the last of its document id and version in the run's order and
      its document is not purged. */
  lemma ProcessEndIsRepairedIff(w: World, q: Request, cuts: seq<Interruption>, attempt: string,
                                o: Options, active: seq<Key>, deleted: seq<Key>, assemble: Assemble, ctx: SecurityContext)
    requires Startable(w, q) && OwnIdsApply(w, q) && IdsAgree(w, q.key.doc.corpus) && FreshIds(w, q)
    requires q.parents != [] && "" !in ParentIds(q)
    requires var now := AfterCuts(w, q, cuts + [ProcessEnd]); !Unwritten(q, now) && !Unverified(q, now)
    requires !o.dryRun && o.rebuild && o.purge && q.key.doc.corpus == o.corpus && KeepsAcl(assemble)
    requires var end := Attempt(AfterCuts(w, q, cuts + [ProcessEnd]), q, attempt, true, None, Kill).0;
             RowsIn(q, end) && Orders(end, o.corpus, active, deleted)
    ensures var end := Attempt(AfterCuts(w, q, cuts + [ProcessEnd]), q, attempt, true, None, Kill).0;
            && Retrievable(end, ctx, q.key.doc) == {}
            && Retrievable(Reconciled(end, o, active, deleted, assemble), ctx, q.key.doc) ==
               if LastInGroup(active, q.key) == Some(q.key) && !Purged(end, o.corpus, q.key.doc) && EvaluateAccess(ctx, q.acl)
               then ChildIds(q) else {}
  {
    hide Startable, Attempt, AfterCuts, Unverified, Unwritten, IdsAgree, FreshIds, OwnIdsApply, RowsStand, RowsIn, Retrievable, Reconciled,
         Purged, Orders, KeepsAcl, AtMostOneActive;
    LeftWithoutParents(w, q, cuts, attempt);
    StartWellFormed(w, q);
    var end := Attempt(AfterCuts(w, q, cuts + [ProcessEnd]), q, attempt, true, None, Kill).0;
    NoParentsShowNothing(end, ctx, q.key.doc);
    RepairShowsIff(end, q, o, active, deleted, assemble, ctx);
  }

  lemma NoParentsShowNothing(w: World, ctx: SecurityContext, d: DocId)
    requires w.parents == map[]
    ensures Retrievable(w, ctx, d) == {}
  {
    hide PassesSearch, ActiveVersion;
  }

  /** Right after the end of the process one full run makes the whole corpus complete, or fails to, exactly as it
      converges: no version is left with part of its parents. */
  lemma ProcessEndCompletesIff(w: World, o: Options, active: seq<Key>, deleted: seq<Key>, assemble: Assemble)
    requires !o.dryRun && o.rebuild && o.purge
    requires var e := ParentsLost(w);
             IdsAgree(e, o.corpus) && Rebuildable(e, o.corpus) && Orders(e, o.corpus, active, deleted) && Unmixed(e, o.corpus)
    ensures var f := Reconciled(ParentsLost(w), o, active, deleted, assemble);
            Agrees(f, o.corpus) && Complete(f, o.corpus) <==> Converges(ParentsLost(w), o.corpus)
  {
    hide Reconciled, IdsAgree, Rebuildable, Converges, Orders, Agrees, Unmixed, Complete, WithStatusIn, Needy;
    var e := ParentsLost(w);
    forall k | k in ActiveIn(e, o.corpus) ensures Mendable(e, o.corpus, k) { NoParentsNeedy(e, o.corpus, k); }
    hide Mendable;
    OneRunCompletesIff(e, o, active, deleted, assemble);
  }

  // ---------------------------------------------------------------------
  // A partial loss, which no run repairs
  // ---------------------------------------------------------------------

  /** A failure path cut right behind its first parent delete, behind verification, and a recovery. */
  lemma OneParentLost(w: World, q: Request, attempt: string, again: string) returns (cuts: seq<Interruption>, f: World)
    requires Startable(w, q) && |q.parents| >= 2
    ensures |cuts| == 1 && cuts[0].Stop? && cuts[0].cutting == Fault(Some(|q.children| + 1))
    ensures var (end, status) := Attempt(AfterCuts(w, q, cuts), q, again, true, None, Kill);
            && status == Indexed && PointsIn(q, end) && RowsIn(q, end)
            && q.parents[0].id !in end.parents && q.parents[1].id in end.parents
            && Finished(w, q, f) && Thinned(q, f, end)
  {
    hide Startable, FailurePath, DroppedAt, Thinned, Progress, Attempt, Finished, FinalDocs, FinalPlanes, RowsIn, PointsIn, Intact;
    var writes, g: nat;
    var p: World;
    writes, g, p := StopBehindVerify(w, q, attempt);
    var drops := |q.children| + 1;
    cuts := [Stop(attempt, writes, Fault(Some(drops)))];
    var now := FailurePath(p, q, g, false, Some(drops)).0;
    assert AfterCuts(w, q, cuts) == now by { assert cuts[..0] == [] && AfterCuts(w, q, cuts[..0]) == w; }
    CompensatingPath(p, q, g, Some(drops));
    DropsThin(q, p, drops, now);
    StartWellFormed(w, q);
    ProgressIntact(w, q, 6, p);
    FirstDropped(q, p, now);
    RecoveryRewritesPoints(w, q, p, now, again);
    FromUnderWay(w, q, 6, p, now, again, None, Kill);
    LostParentStays(w, q, 6, p, now, again, q.parents[0].id);
    var end := Attempt(now, q, again, true, None, Kill).0;
    RowsMore(q, now, end);
    f :| Finished(w, q, f) && Thinned(q, f, end);
  }

  lemma RowsMore(q: Request, w: World, w': World)
    requires RowsIn(q, w) && w.meta.chunks.Keys <= w'.meta.chunks.Keys
    ensures RowsIn(q, w')
  {
  }

  lemma FirstDropped(q: Request, w: World, w': World)
    requires WellFormed(q) && |q.parents| >= 2 && DroppedAt(w, q, |q.children| + 1, w') && ParentsIn(q, w) && RowsIn(q, w)
    ensures q.parents[0].id !in w'.parents && q.parents[1].id in w'.parents && RowsIn(q, w')
  {
    assert AmongParents(q, 1, q.parents[0].id);
    assert !AmongParents(q, 1, q.parents[1].id);
    assert Same(w'.parents, w.parents, q.parents[1].id);
  }

  /** From the empty stores every point and parent of a finished build is its own, and live. */
  lemma AloneIsLive(q: Request, f: World, w: World)
    requires WellFormed(q) && Finished(Nothing, q, f) && Thinned(q, f, w)
    ensures forall id | id in w.points :: w.points[id].key == q.key && w.points[id].status == "active"
    ensures forall id | id in w.parents :: w.parents[id].key == q.key && ParentIsLive(w.parents[id])
    ensures w.meta.documents.Keys == {q.key} && IsActive(w.meta.documents, q.key)
  {
    hide WellFormed, FinalPlanes, ChildIds, ParentIds, Built;
    NothingIsThere(q);
    NewStarts(Nothing, q);
    FinalKeys(Nothing, q);
    FinalFacts(Nothing, q);
    NothingRetired(q);
    forall id | id in w.points ensures w.points[id].key == q.key && w.points[id].status == "active" {
      assert Same(w.points, f.points, id);
      FinalPoint(Nothing, q, id);
    }
    forall id | id in w.parents ensures w.parents[id].key == q.key && ParentIsLive(w.parents[id]) {
      assert Same(w.parents, f.parents, id);
      FinalParent(Nothing, q, id);
    }
  }

  lemma NothingRetired(q: Request)
    ensures forall parents :: Retired(Nothing, q, parents) == {}
  {
    assert ActiveVersion(Empty.documents, q.key.doc) == None;
    assert Prev(Nothing, q) == None && Replaced(q, None) == None;
    hide Built;
  }

  lemma AloneAgrees(q: Request, w: World)
    requires forall id | id in w.points :: w.points[id].key == q.key && w.points[id].status == "active"
    requires forall id | id in w.parents :: w.parents[id].key == q.key && ParentIsLive(w.parents[id])
    requires w.meta.documents.Keys == {q.key} && IsActive(w.meta.documents, q.key) && w.points != map[] && w.parents != map[]
    ensures ActiveIn(w, q.key.doc.corpus) == {q.key} && DeletedIn(w, q.key.doc.corpus) == {} && Agrees(w, q.key.doc.corpus)
  {
    var id :| id in w.points;
    var p :| p in w.parents;
    assert ScanKey(q.key.doc.corpus, w.points[id].key) == q.key;
  }

  /** From the empty stores, for every build of two parents or more: one of its parents is lost for good. The
      recovery reports success, the reconciler finds nothing amiss, and whatever its options and orders it
      changes nothing; yet the version is not complete. */
  lemma PartialLossStays(q: Request, attempt: string, again: string, o: Options, active: seq<Key>, assemble: Assemble)
    returns (cuts: seq<Interruption>)
    requires WellFormed(q) && |q.parents| >= 2 && q.children != [] && q.children[0].parent == q.parents[0].id != ""
    requires o.corpus == q.key.doc.corpus && Elements(active) == {q.key}
    ensures |cuts| == 1 && cuts[0].Stop? && cuts[0].cutting == Fault(Some(|q.children| + 1))
    ensures var (end, status) := Attempt(AfterCuts(Nothing, q, cuts), q, again, true, None, Kill);
            && status == Indexed && Orders(end, o.corpus, active, []) && Agrees(end, o.corpus)
            && Reconciled(end, o, active, [], assemble) == end && !Complete(end, o.corpus)
  {
    hide WellFormed, Startable, Finished, Thinned, Attempt, Reconciled, Agrees, ActiveIn, DeletedIn, AfterCuts, New, Inv;
    NothingIsThere(q);
    NewStarts(Nothing, q);
    var f: World;
    cuts, f := OneParentLost(Nothing, q, attempt, again);
    var end := Attempt(AfterCuts(Nothing, q, cuts), q, again, true, None, Kill).0;
    AloneIsLive(q, f, end);
    assert q.children[0].id in end.points;
    AloneAgrees(q, end);
    AgreementIsFixpoint(end, o, active, [], assemble);
    FirstRow(q, f, end);
    assert ChildOf(end.meta.chunks[q.children[0].id], q.key) && !RowServed(end, q.children[0].id);
  }

  lemma FirstRow(q: Request, f: World, w: World)
    requires Startable(Nothing, q) && Finished(Nothing, q, f) && Thinned(q, f, w) && RowsIn(q, w) && q.children != []
    ensures q.children[0].id in w.meta.chunks && w.meta.chunks[q.children[0].id] == ChildRow(q, q.children[0])
  {
    hide Startable, FinalPlanes, FinalDocs, HasPoints, HasParents;
    FinalEntries(Nothing, q);
    assert Same(w.meta.chunks, f.meta.chunks, q.children[0].id);
  }
}
