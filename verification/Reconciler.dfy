/** The reconciler over mutable stores, phase by phase, proved against Reconciliation. */
module Reconcilers {
  import opened Common
  import opened Policy
  import opened ControlPlane
  import opened Lifecycle
  import opened DataPlane
  import opened Stores
  import opened MetadataStores
  import opened Reconciliation
  import opened Completeness

  datatype Finding =
    | RegistryMismatch
    | OrphanPoint(id: ChunkId)
    | StalePoint(id: ChunkId)
    | MissingPoints(key: Key)
    | MissingParents(key: Key)
    | CleanupFailure(key: Key)
    | OrphanParent(id: ChunkId)
    | StaleParent(id: ChunkId)
    | DeadLetter(job: JobId)

  /** What a phase added to the report: nothing exactly when it was `quiet`, and
      mutations only outside a dry run. */
  ghost predicate Reported(f0: seq<Finding>, m0: bool, f: seq<Finding>, m: bool, quiet: bool, dryRun: bool) {
    && f0 <= f && (f == f0 <==> quiet) && (forall i | |f0| <= i < |f| :: !f[i].DeadLetter?)
    && (quiet ==> m == m0) && (m ==> m0 || !dryRun)
  }

  lemma ReportedMore(f0: seq<Finding>, m0: bool, f: seq<Finding>, m: bool, f': seq<Finding>, m': bool, q: bool, q': bool, dryRun: bool)
    requires Reported(f0, m0, f, m, q, dryRun) && Reported(f, m, f', m', q', dryRun)
    ensures Reported(f0, m0, f', m', q && q', dryRun)
  {
  }

  class Reconciler {
    const store: MetadataStore
    const vector: VectorStore
    const parents: ParentStore
    const options: Options
    const assemble: Assemble
    var registry: Registry
    var findings: seq<Finding>
    var mutated: bool

    constructor (store: MetadataStore, vector: VectorStore, parents: ParentStore, options: Options, assemble: Assemble, registry: Registry)
      ensures this.store == store && this.vector == vector && this.parents == parents && this.options == options
      ensures this.assemble == assemble && this.registry == registry && findings == [] && !mutated
    {
      this.store, this.vector, this.parents, this.options := store, vector, parents, options;
      this.assemble, this.registry := assemble, registry;
      findings, mutated := [], false;
    }

    ghost function Now(): World
      reads store, vector, parents
    {
      World(store.Tables(), vector.points, parents.entries)
    }

    method RealignRegistry()
      modifies this
      ensures registry == if options.dryRun then old(registry) else Realigned(old(registry), options.corpus)
      ensures Reported(old(findings), old(mutated), findings, mutated, Aligned(old(registry), options.corpus), options.dryRun)
    {
      if !Aligned(registry, options.corpus) {
        findings := findings + [RegistryMismatch];
        if !options.dryRun {
          registry := Realigned(registry, options.corpus);
          mutated := true;
        }
      }
    }

    /** What one scanned point becomes, if anything. */
    ghost function Scanned(points: map<ChunkId, Point>, id: ChunkId, known: set<Key>, active: set<Key>): Option<Point>
      requires id in points
    {
      var k := ScanKey(options.corpus, points[id].key);
      if k in known then Some(PatchedPoint(points[id], k in active)) else None
    }

    method ScanPoint(id: ChunkId, known: set<Key>, active: set<Key>)
      requires id in vector.points
      modifies this, vector
      ensures registry == old(registry)
      ensures var now := Scanned(old(vector.points), id, known, active);
              vector.points == if options.dryRun then old(vector.points)
                               else if now.Some? then old(vector.points)[id := now.value] else old(vector.points) - {id}
      ensures Reported(old(findings), old(mutated), findings, mutated,
                       Scanned(old(vector.points), id, known, active) == Some(old(vector.points)[id]), options.dryRun)
    {
      var p := vector.points[id];
      var k := ScanKey(options.corpus, p.key);
      if k !in known {
        findings := findings + [OrphanPoint(id)];
        if !options.dryRun {
          vector.Delete({id});
          mutated := true;
        }
      } else if k in active && p.status != "active" {
        findings := findings + [StalePoint(id)];
        if !options.dryRun {
          vector.UpdateStatus({id}, "active", false);
          mutated := true;
        }
      } else if k !in active && p.status == "active" {
        findings := findings + [StalePoint(id)];
        if !options.dryRun {
          vector.UpdateStatus({id}, "deprecated", true);
          mutated := true;
        }
      }
    }

    /** The collection when all points but those of `rest` have been scanned. */
    ghost function Swept(points: map<ChunkId, Point>, rest: set<ChunkId>, known: set<Key>, active: set<Key>): map<ChunkId, Point> {
      map id | id in points && (id in rest || Scanned(points, id, known, active).Some?) ::
        if id in rest then points[id] else Scanned(points, id, known, active).value
    }

    lemma SweepOneMore(points: map<ChunkId, Point>, rest: set<ChunkId>, known: set<Key>, active: set<Key>, id: ChunkId)
      requires id in rest && rest <= points.Keys
      ensures var swept, now := Swept(points, rest, known, active), Scanned(points, id, known, active);
              && id in swept && swept[id] == points[id]
              && Swept(points, rest - {id}, known, active) == if now.Some? then swept[id := now.value] else swept - {id}
    {
      hide Scanned;
    }

    lemma SweepEnds(points: map<ChunkId, Point>, known: set<Key>, active: set<Key>)
      ensures Swept(points, points.Keys, known, active) == points
    {
    }

    method ScanPoints(known: set<Key>, active: set<Key>)
      requires known == Known(store.documents, options.corpus) && active == ActiveIn(Now(), options.corpus)
      modifies this, vector
      ensures registry == old(registry)
      ensures vector.points == if options.dryRun then old(vector.points) else ScannedPoints(old(Now()), options.corpus)
      ensures Reported(old(findings), old(mutated), findings, mutated, PointsAgree(old(Now()), options.corpus), options.dryRun)
    {
      hide Scanned, Swept, Known, WithStatusIn, PointsAgree, ScannedPoints;
      ghost var before := vector.points;
      var rest := vector.points.Keys;
      SweepEnds(before, known, active);
      while rest != {}
        invariant rest <= before.Keys && registry == old(registry)
        invariant vector.points == if options.dryRun then before else Swept(before, rest, known, active)
        invariant Reported(old(findings), old(mutated), findings, mutated,
                           forall id | id in before && id !in rest :: Scanned(before, id, known, active) == Some(before[id]),
                           options.dryRun)
        decreases rest
      {
        var id :| id in rest;
        SweepOneMore(before, rest, known, active, id);
        SameScan(before, vector.points, id, known, active);
        ScanPoint(id, known, active);
        rest := rest - {id};
      }
      ScanQuiet(old(Now()), known, active);
    }

    lemma SameScan(a: map<ChunkId, Point>, b: map<ChunkId, Point>, id: ChunkId, known: set<Key>, active: set<Key>)
      requires id in a && id in b && a[id] == b[id]
      ensures Scanned(a, id, known, active) == Scanned(b, id, known, active)
    {
    }

    lemma ScanQuiet(w: World, known: set<Key>, active: set<Key>)
      requires known == Known(w.meta.documents, options.corpus) && active == ActiveIn(w, options.corpus)
      ensures (forall id | id in w.points :: Scanned(w.points, id, known, active) == Some(w.points[id]))
              <==> PointsAgree(w, options.corpus)
      ensures ScannedPoints(w, options.corpus) == Swept(w.points, {}, known, active)
    {
      hide Known, WithStatusIn;
    }

    // -------------------------------------------------------------------
    // Rebuild
    // -------------------------------------------------------------------

    method RebuildDocument(k: Key)
      modifies vector, parents
      ensures Now() == Rebuild(old(Now()), k, assemble)
    {
      hide Rebuild, RebuiltParent, ParentIdsIn, RowPoint, RowOf;
      var rows := map id | id in store.chunks && RowOf(store.chunks[id], k) :: store.chunks[id];
      vector.UpsertAll(map id | id in rows :: RowPoint(rows[id]));
      PutParents(k, rows);
      RebuildIs(old(Now()), k, rows);
    }

    lemma RebuildIs(w: World, k: Key, rows: map<ChunkId, ChunkRow>)
      requires rows == map id | id in w.meta.chunks && RowOf(w.meta.chunks[id], k) :: w.meta.chunks[id]
      ensures Rebuild(w, k, assemble) ==
              w.(points := w.points + map id | id in rows :: RowPoint(rows[id]),
                 parents := w.parents + map p | p in ParentIdsIn(rows) :: RebuiltParent(k, rows, p))
    {
      hide RowPoint, RowOf;
      assert ParentIdsIn(rows) == (set id | id in rows :: RowParent(rows[id])) - {""};
    }

    /** Children grouped by parent id; rows without one have no parent to recreate. */
    method PutParents(k: Key, rows: map<ChunkId, ChunkRow>)
      modifies parents
      ensures parents.entries == old(parents.entries) + map p | p in ParentIdsIn(rows) :: RebuiltParent(k, rows, p)
    {
      hide RebuiltParent, RowParent;
      var parentIds := ParentIdsIn(rows);
      while parentIds != {}
        invariant parentIds <= ParentIdsIn(rows)
        invariant parents.entries ==
                  old(parents.entries) + map p | p in ParentIdsIn(rows) && p !in parentIds :: RebuiltParent(k, rows, p)
        decreases parentIds
      {
        hide ParentIdsIn;
        var p :| p in parentIds;
        parentIds := parentIds - {p};
        parents.Put(p, RebuiltParent(k, rows, p));
      }
    }

    function ParentIdsIn(rows: map<ChunkId, ChunkRow>): set<ChunkId> {
      (set id | id in rows :: RowParent(rows[id])) - {""}
    }

    function RebuiltParent(k: Key, rows: map<ChunkId, ChunkRow>, p: ChunkId): Parent {
      var made := assemble(map id | id in rows && RowParent(rows[id]) == p :: rows[id]);
      Parent(k, made.0, "active", false, made.1)
    }

    /** An active version without points, or with points but no parents. */
    method RepairVersion(k: Key, present: bool)
      modifies this, vector, parents
      ensures registry == old(registry)
      ensures var served := present && HasParent(old(Now()), k);
              && Now() == (if options.dryRun || !options.rebuild || served then old(Now()) else Rebuild(old(Now()), k, assemble))
              && Reported(old(findings), old(mutated), findings, mutated, served, options.dryRun)
    {
      hide Rebuild;
      if !present {
        findings := findings + [MissingPoints(k)];
      } else {
        var ids := parents.ListParentIds(k);
        assert ids == {} <==> !HasParent(Now(), k);
        if ids != {} { return; }
        findings := findings + [MissingParents(k)];
      }
      if options.rebuild && !options.dryRun {
        RebuildDocument(k);
        mutated := true;
      }
    }

    ghost predicate AllServed(w: World, present: set<Key>, order: seq<Key>) {
      forall k | k in order :: k in present && HasParent(w, k)
    }

    lemma RebuildPhaseNext(w: World, present: set<Key>, order: seq<Key>, k: Key)
      ensures var b := RebuildPhase(w, present, order, assemble);
              RebuildPhase(w, present, order + [k], assemble) == if k in present && HasParent(b, k) then b else Rebuild(b, k, assemble)
      ensures AllServed(w, present, order + [k]) <==> AllServed(w, present, order) && k in present && HasParent(w, k)
    {
      hide HasParent, Rebuild;
      assert (order + [k])[..|order|] == order;
      assert forall o :: o in order + [k] <==> o in order || o == k;
    }

    method RepairMissing(present: set<Key>, active: set<Key>) returns (ghost order: seq<Key>)
      modifies this, vector, parents
      ensures registry == old(registry)
      ensures Elements(order) == active
      ensures Now() == if options.dryRun || !options.rebuild then old(Now()) else RebuildPhase(old(Now()), present, order, assemble)
      ensures Reported(old(findings), old(mutated), findings, mutated, AllServed(old(Now()), present, order), options.dryRun)
    {
      hide HasParent, Rebuild, Reported, AllServed, RebuildPhase;
      var rest := active;
      order := [];
      ghost var start := Now();
      NothingRebuiltYet(start, present, findings, mutated);
      while rest != {}
        invariant rest <= active && Elements(order) == active - rest && registry == old(registry)
        invariant Now() == if options.dryRun || !options.rebuild then start else RebuildPhase(start, present, order, assemble)
        invariant AllServed(start, present, order) ==> Now() == start
        invariant Reported(old(findings), old(mutated), findings, mutated, AllServed(start, present, order), options.dryRun)
        decreases rest
      {
        var k :| k in rest;
        ghost var f, m, here := findings, mutated, k in present && HasParent(Now(), k);
        RepairVersion(k, k in present);
        ReportedMore(old(findings), old(mutated), f, m, findings, mutated, AllServed(start, present, order), here, options.dryRun);
        RebuildPhaseNext(start, present, order, k);
        ElementsAppend(order, k);
        order := order + [k];
        rest := rest - {k};
      }
    }

    lemma NothingRebuiltYet(w: World, present: set<Key>, f: seq<Finding>, m: bool)
      ensures RebuildPhase(w, present, [], assemble) == w && AllServed(w, present, []) && Elements<Key>([]) == {}
      ensures Reported(f, m, f, m, AllServed(w, present, []), options.dryRun)
    {
    }

    // -------------------------------------------------------------------
    // Purge
    // -------------------------------------------------------------------

    method PurgeVersion(k: Key)
      requires store.Valid()
      modifies store, vector, parents
      ensures store.Valid() && store.Tables() == old(store.Tables()).(chunks := store.chunks)
      ensures store.chunks == map id | id in old(store.chunks) && old(store.chunks)[id].key != k :: old(store.chunks)[id]
      ensures vector.points == map id | id in old(vector.points) && old(vector.points)[id].key != k :: old(vector.points)[id]
      ensures parents.entries == map id | id in old(parents.entries) && old(parents.entries)[id].key != k :: old(parents.entries)[id]
    {
      hide Inv;
      var ids := vector.ListPointIds(k);
      vector.Delete(ids);
      parents.DeleteDocument(k);
      store.DeleteChunkRecords(k);
    }

    /** The stores without these versions' chunks. */
    ghost function Stripped(w: World, versions: set<Key>): World {
      World(
        w.meta.(chunks := map id | id in w.meta.chunks && w.meta.chunks[id].key !in versions :: w.meta.chunks[id]),
        map id | id in w.points && w.points[id].key !in versions :: w.points[id],
        map id | id in w.parents && w.parents[id].key !in versions :: w.parents[id])
    }

    method StripVersion(ghost start: World, ghost done: set<Key>, k: Key)
      requires store.Valid() && Now() == Stripped(start, done)
      modifies store, vector, parents
      ensures store.Valid() && Now() == Stripped(start, done + {k})
    {
      hide Inv;
      PurgeVersion(k);
      assert store.chunks == Stripped(start, done + {k}).meta.chunks;
      assert vector.points == Stripped(start, done + {k}).points;
      assert parents.entries == Stripped(start, done + {k}).parents;
    }

    method PurgeData(d: DocId)
      requires store.Valid()
      modifies store, vector, parents
      ensures store.Valid() && Now() == Purge(old(Now()), d)
    {
      hide Inv, PurgeDocument, Stripped;
      var versions := set k | k in store.documents && k.doc == d;
      ghost var start := Now();
      var rest := versions;
      StripNothing(start, versions);
      while rest != {}
        invariant rest <= versions && store.Valid()
        invariant Now() == Stripped(start, versions - rest)
        decreases rest
      {
        var k :| k in rest;
        StripVersion(start, versions - rest, k);
        assert versions - (rest - {k}) == versions - rest + {k};
        rest := rest - {k};
      }
      store.DeleteDocument(d);
      PurgeIs(start, d, versions);
    }

    lemma StripNothing(w: World, versions: set<Key>)
      ensures Stripped(w, versions - versions) == w
    {
      assert Stripped(w, {}).meta.chunks == w.meta.chunks;
    }

    lemma PurgeIs(w: World, d: DocId, versions: set<Key>)
      requires versions == set k | k in w.meta.documents && k.doc == d
      ensures var s := Stripped(w, versions - {}); Purge(w, d) == s.(meta := PurgeDocument(s.meta, d))
    {
    }

    ghost predicate NoneLingers(w: World, order: seq<Key>) {
      forall k | k in order :: !Lingers(w, k)
    }

    method PurgeLingering() returns (ghost order: seq<Key>)
      requires store.Valid()
      modifies this, store, vector, parents
      ensures store.Valid() && registry == old(registry)
      ensures Elements(order) == DeletedIn(old(Now()), options.corpus)
      ensures Now() == if options.dryRun || !options.purge then old(Now()) else PurgePhase(old(Now()), order)
      ensures Reported(old(findings), old(mutated), findings, mutated, DeletedGone(old(Now()), options.corpus), options.dryRun)
    {
      var deleted := WithStatusIn(store.documents, options.corpus, Deleted);
      hide WithStatusIn, Inv, Lingers, Purge, Reported, NoneLingers, PurgePhase;
      var rest := deleted;
      order := [];
      ghost var start := Now();
      NothingYet(start, findings, mutated);
      while rest != {}
        invariant rest <= deleted && Elements(order) == deleted - rest && registry == old(registry) && store.Valid()
        invariant Now() == if options.dryRun || !options.purge then start else PurgePhase(start, order)
        invariant NoneLingers(start, order) ==> Now() == start
        invariant Reported(old(findings), old(mutated), findings, mutated, NoneLingers(start, order), options.dryRun)
        decreases rest
      {
        var k :| k in rest;
        ghost var f, m, here := findings, mutated, !Lingers(Now(), k);
        PurgeVersionIfLingering(k);
        ReportedMore(old(findings), old(mutated), f, m, findings, mutated, NoneLingers(start, order), here, options.dryRun);
        ElementsAppend(order, k);
        order := order + [k];
        rest := rest - {k};
      }
    }

    lemma NothingYet(w: World, f: seq<Finding>, m: bool)
      ensures PurgePhase(w, []) == w && NoneLingers(w, []) && Elements<Key>([]) == {}
      ensures Reported(f, m, f, m, NoneLingers(w, []), options.dryRun)
    {
    }

    method PurgeVersionIfLingering(k: Key)
      requires store.Valid()
      modifies this, store, vector, parents
      ensures store.Valid() && registry == old(registry)
      ensures Now() == (if options.dryRun || !options.purge || !Lingers(old(Now()), k) then old(Now()) else Purge(old(Now()), k.doc))
              && Reported(old(findings), old(mutated), findings, mutated, !Lingers(old(Now()), k), options.dryRun)
    {
      hide Inv, Purge;
      var points := vector.ListPointIds(k);
      var parentIds := parents.ListParentIds(k);
      assert points == {} <==> !HasPoint(Now(), k);
      assert parentIds == {} <==> !HasParent(Now(), k);
      if points != {} || parentIds != {} {
        findings := findings + [CleanupFailure(k)];
        if options.purge && !options.dryRun {
          PurgeData(k.doc);
          mutated := true;
        }
      }
    }

    // -------------------------------------------------------------------
    // Parents
    // -------------------------------------------------------------------

    method VisitParent(id: ChunkId, known: set<Key>, active: set<Key>)
      modifies this, parents
      ensures registry == old(registry)
      ensures parents.entries == if options.dryRun then old(parents.entries)
                                 else Visit(old(parents.entries), id, options.corpus, known, active)
      ensures Reported(old(findings), old(mutated), findings, mutated,
                       id in old(parents.entries) ==> !Astray(old(parents.entries)[id], options.corpus, known, active), options.dryRun)
    {
      if id !in parents.entries || parents.entries[id].key.doc.corpus != options.corpus { return; }
      var p := parents.entries[id];
      if p.key !in known {
        findings := findings + [OrphanParent(id)];
        if !options.dryRun {
          parents.Delete(id);
          mutated := true;
        }
      } else if p.key in active {
        if p.status != "active" || p.deprecated {
          findings := findings + [StaleParent(id)];
          if !options.dryRun {
            parents.ActivateDocument(p.key);
            mutated := true;
          }
        }
      } else if p.status == "active" && !p.deprecated {
        findings := findings + [StaleParent(id)];
        if !options.dryRun {
          parents.DeprecateDocument(p.key);
          mutated := true;
        }
      }
    }

    ghost predicate NoneAstray(before: map<ChunkId, Parent>, order: seq<ChunkId>, known: set<Key>, active: set<Key>) {
      forall id | id in order && id in before :: !Astray(before[id], options.corpus, known, active)
    }

    lemma VisitsNext(before: map<ChunkId, Parent>, order: seq<ChunkId>, known: set<Key>, active: set<Key>, id: ChunkId)
      requires id in before
      ensures Visits(before, order + [id], options.corpus, known, active) ==
              Visit(Visits(before, order, options.corpus, known, active), id, options.corpus, known, active)
      ensures NoneAstray(before, order + [id], known, active) <==>
              NoneAstray(before, order, known, active) && !Astray(before[id], options.corpus, known, active)
    {
      hide Visit, Astray;
      assert (order + [id])[..|order|] == order;
      assert forall o :: o in order + [id] <==> o in order || o == id;
    }

    lemma NothingVisited(before: map<ChunkId, Parent>, known: set<Key>, active: set<Key>, f: seq<Finding>, m: bool)
      ensures Visits(before, [], options.corpus, known, active) == before && NoneAstray(before, [], known, active)
      ensures Elements<ChunkId>([]) == {}
      ensures Reported(f, m, f, m, NoneAstray(before, [], known, active), options.dryRun)
    {
    }

    /** Visits leave everything in place as long as nothing was astray. */
    lemma CalmVisit(entries: map<ChunkId, Parent>, id: ChunkId, known: set<Key>, active: set<Key>)
      ensures (id in entries ==> !Astray(entries[id], options.corpus, known, active)) ==>
                Visit(entries, id, options.corpus, known, active) == entries
    {
    }

    method VisitParents(known: set<Key>, active: set<Key>)
      requires active <= known
      modifies this, parents
      ensures registry == old(registry)
      ensures parents.entries == if options.dryRun then old(parents.entries)
                                 else ParentsPhase(old(parents.entries), options.corpus, known, active)
      ensures Reported(old(findings), old(mutated), findings, mutated,
                       forall id | id in old(parents.entries) :: !Astray(old(parents.entries)[id], options.corpus, known, active),
                       options.dryRun)
    {
      hide Visit, Astray, Visits, NoneAstray, ParentsPhase, Reported;
      ghost var before := parents.entries;
      ghost var order := [];
      var rest := parents.entries.Keys;
      NothingVisited(before, known, active, findings, mutated);
      while rest != {}
        invariant rest <= before.Keys && Elements(order) == before.Keys - rest && registry == old(registry)
        invariant parents.entries == if options.dryRun then before else Visits(before, order, options.corpus, known, active)
        invariant NoneAstray(before, order, known, active) ==> parents.entries == before
        invariant Reported(old(findings), old(mutated), findings, mutated, NoneAstray(before, order, known, active), options.dryRun)
        decreases rest
      {
        var id :| id in rest;
        ghost var f, m := findings, mutated;
        ghost var here := id in parents.entries ==> !Astray(parents.entries[id], options.corpus, known, active);
        CalmVisit(parents.entries, id, known, active);
        VisitParent(id, known, active);
        ReportedMore(old(findings), old(mutated), f, m, findings, mutated, NoneAstray(before, order, known, active), here, options.dryRun);
        VisitsNext(before, order, known, active, id);
        ElementsAppend(order, id);
        order := order + [id];
        rest := rest - {id};
      }
      VisitsInAnyOrder(before, order, options.corpus, known, active);
      NoneAstrayIs(before, order, known, active);
    }

    lemma NoneAstrayIs(before: map<ChunkId, Parent>, order: seq<ChunkId>, known: set<Key>, active: set<Key>)
      requires Elements(order) == before.Keys
      ensures NoneAstray(before, order, known, active) <==>
              forall id | id in before :: !Astray(before[id], options.corpus, known, active)
    {
      hide Astray;
      assert forall id :: id in order <==> id in Elements(order);
    }

    lemma NoneAstrayAgrees(w: World)
      ensures (forall id | id in w.parents ::
                 !Astray(w.parents[id], options.corpus, Known(w.meta.documents, options.corpus), ActiveIn(w, options.corpus)))
              <==> ParentsAgree(w, options.corpus)
    {
      hide WithStatusIn, Known;
    }

    // -------------------------------------------------------------------
    // The run
    // -------------------------------------------------------------------

    /** Failed jobs are reported on every run; nothing repairs them here. */
    method ReportDeadLetters()
      modifies this
      ensures registry == old(registry) && mutated == old(mutated) && old(findings) <= findings
      ensures forall i | |old(findings)| <= i < |findings| :: findings[i].DeadLetter?
      ensures forall j :: DeadLetter(j) in findings[|old(findings)|..] <==>
                j in store.jobs && store.jobs[j].key.doc.corpus == options.corpus && store.jobs[j].status == JobFailed
    {
      var rest := store.jobs.Keys;
      ghost var start := findings;
      while rest != {}
        invariant rest <= store.jobs.Keys && registry == old(registry) && mutated == old(mutated) && start <= findings
        invariant forall i | |start| <= i < |findings| :: findings[i].DeadLetter?
        invariant forall j :: DeadLetter(j) in findings[|start|..] <==>
                    j in store.jobs && j !in rest && store.jobs[j].key.doc.corpus == options.corpus && store.jobs[j].status == JobFailed
        decreases rest
      {
        var j :| j in rest;
        rest := rest - {j};
        if store.jobs[j].key.doc.corpus == options.corpus && store.jobs[j].status == JobFailed {
          assert (findings + [DeadLetter(j)])[|start|..] == findings[|start|..] + [DeadLetter(j)];
          findings := findings + [DeadLetter(j)];
        }
      }
    }

    /** The phases are quiet on the states they meet exactly when the first state agrees. */
    lemma QuietIsAgreement(w: World, scanned: World, rebuilt: World, purged: World, present: set<Key>, active: seq<Key>, deleted: seq<Key>)
      requires Orders(w, options.corpus, active, deleted) && present == Present(w, options.corpus)
      requires scanned == w.(points := if options.dryRun then w.points else ScannedPoints(w, options.corpus))
      requires rebuilt == if options.dryRun || !options.rebuild then scanned else RebuildPhase(scanned, present, active, assemble)
      requires purged == if options.dryRun || !options.purge then rebuilt else PurgePhase(rebuilt, deleted)
      ensures (PointsAgree(w, options.corpus) && AllServed(scanned, present, active) && DeletedGone(rebuilt, options.corpus)
               && (forall id | id in purged.parents ::
                     !Astray(purged.parents[id], options.corpus, Known(w.meta.documents, options.corpus), ActiveIn(w, options.corpus))))
              <==> Agrees(w, options.corpus)
    {
      hide ScannedPoints, RebuildPhase, PurgePhase, Present, HasParent, Lingers, WithStatusIn, Known, Astray, ParentsAgree, PointsAgree;
      assert forall k :: k in active <==> k in Elements(active);
      assert forall k :: k in deleted <==> k in Elements(deleted);
      NoneAstrayAgrees(w);
      if PointsAgree(w, options.corpus) {
        ScanKeeps(w);
        assert scanned == w;
        if AllServed(w, present, active) {
          NothingToRebuild(w, present, active, assemble);
          if DeletedGone(w, options.corpus) { NothingToPurge(w, deleted); }
        }
      }
    }

    lemma ScanKeeps(w: World)
      requires PointsAgree(w, options.corpus)
      ensures ScannedPoints(w, options.corpus) == w.points
    {
      hide WithStatusIn, Known;
    }

    /** The scan and the repair of missing data. */
    method RepairPoints(known: set<Key>, activeSet: set<Key>) returns (ghost active: seq<Key>, ghost scanned: World)
      requires known == Known(store.documents, options.corpus) && activeSet == ActiveIn(Now(), options.corpus)
      modifies this, vector, parents
      ensures registry == old(registry) && Elements(active) == activeSet
      ensures scanned == old(Now()).(points := if options.dryRun then old(vector.points) else ScannedPoints(old(Now()), options.corpus))
      ensures Now() == if options.dryRun || !options.rebuild then scanned
                       else RebuildPhase(scanned, Present(old(Now()), options.corpus), active, assemble)
      ensures Reported(old(findings), old(mutated), findings, mutated,
                       PointsAgree(old(Now()), options.corpus) && AllServed(scanned, Present(old(Now()), options.corpus), active),
                       options.dryRun)
    {
      hide ScannedPoints, RebuildPhase, WithStatusIn, Known, AllServed, PointsAgree, Reported, Present, PresentIn;
      ghost var w := Now();
      var present := PresentIn(vector.points);
      PresentIs(w);
      ScanPoints(known, activeSet);
      scanned := Now();
      ghost var f, m := findings, mutated;
      active := RepairMissing(present, activeSet);
      ReportedMore(old(findings), old(mutated), f, m, findings, mutated, PointsAgree(w, options.corpus),
                   AllServed(scanned, present, active), options.dryRun);
    }

    method Repair() returns (ghost active: seq<Key>, ghost deleted: seq<Key>)
      requires store.Valid()
      modifies this, store, vector, parents
      ensures store.Valid() && Orders(old(Now()), options.corpus, active, deleted) && registry == old(registry)
      ensures Now() == Reconciled(old(Now()), options, active, deleted, assemble)
      ensures Reported(old(findings), old(mutated), findings, mutated, Agrees(old(Now()), options.corpus), options.dryRun)
    {
      hide Inv, ScannedPoints, RebuildPhase, PurgePhase, ParentsPhase, Present, WithStatusIn, Known, Astray,
           AllServed, Agrees, PointsAgree, DeletedGone, Reported, ActiveServed, ParentsAgree;
      ghost var w, c := Now(), options.corpus;
      var known := Known(store.documents, options.corpus);
      var activeSet := WithStatusIn(store.documents, options.corpus, Active);
      ActiveAreKnown(w);
      ghost var scanned: World;
      active, scanned := RepairPoints(known, activeSet);
      ghost var rebuilt, f3, m3 := Now(), findings, mutated;
      ghost var quiet3 := PointsAgree(w, c) && AllServed(scanned, Present(w, c), active);
      MetaStands(w, scanned, rebuilt, Present(w, c), active);
      deleted := PurgeLingering();
      ghost var purged, f4, m4 := Now(), findings, mutated;
      ReportedMore(old(findings), old(mutated), f3, m3, f4, m4, quiet3, DeletedGone(rebuilt, c), options.dryRun);
      VisitParents(known, activeSet);
      ghost var calm := forall id | id in purged.parents :: !Astray(purged.parents[id], c, known, activeSet);
      ReportedMore(old(findings), old(mutated), f4, m4, findings, mutated, quiet3 && DeletedGone(rebuilt, c), calm, options.dryRun);
      QuietIsAgreement(w, scanned, rebuilt, purged, Present(w, c), active, deleted);
    }

    /** One run: repairs as specified; reports nothing but dead letters exactly when
        there was nothing to repair, and then changes nothing. */
    method Reconcile() returns (ghost active: seq<Key>, ghost deleted: seq<Key>)
      requires store.Valid()
      modifies this, store, vector, parents
      ensures store.Valid() && Orders(old(Now()), options.corpus, active, deleted)
      ensures Now() == Reconciled(old(Now()), options, active, deleted, assemble)
      ensures registry == if options.dryRun then old(registry) else Realigned(old(registry), options.corpus)
      ensures (forall i | 0 <= i < |findings| :: findings[i].DeadLetter?) <==>
              Agrees(old(Now()), options.corpus) && Aligned(old(registry), options.corpus)
      ensures (forall i | 0 <= i < |findings| :: findings[i].DeadLetter?) ==> !mutated
      ensures options.dryRun ==> !mutated
      ensures forall j :: DeadLetter(j) in findings <==>
                j in store.jobs && store.jobs[j].key.doc.corpus == options.corpus && store.jobs[j].status == JobFailed
    {
      hide Inv, Reconciled, Agrees, Realigned, Aligned, Reported, WithStatusIn;
      findings, mutated := [], false;
      RealignRegistry();
      ghost var f, m := findings, mutated;
      active, deleted := Repair();
      ghost var quiet := Aligned(old(registry), options.corpus) && Agrees(old(Now()), options.corpus);
      ReportedMore([], false, f, m, findings, mutated, Aligned(old(registry), options.corpus), Agrees(old(Now()), options.corpus),
                   options.dryRun);
      ghost var repairs := findings;
      ReportDeadLetters();
      assert findings == repairs + findings[|repairs|..];
      assert repairs != [] ==> findings[0] == repairs[0] && !findings[0].DeadLetter?;
    }

    /** Two runs with both callbacks, and none for failed jobs, over a converging corpus with a live registry entry:
        behind the first one the stores agree, and are complete exactly if every active version that is not purged
        was mendable; the second changes nothing and reports nothing but the failed jobs. */
    method ReconcileTwice() returns (ghost once: World)
      requires store.Valid() && !options.dryRun && options.rebuild && options.purge && options.corpus != ""
      requires IdsAgree(Now(), options.corpus) && Rebuildable(Now(), options.corpus) && Converges(Now(), options.corpus)
      requires registry.registered || Aligned(registry, options.corpus)
      modifies this, store, vector, parents
      ensures store.Valid() && Now() == once && Agrees(once, options.corpus) && !mutated && Aligned(registry, options.corpus)
      ensures Complete(once, options.corpus) <==>
              forall k | k in ActiveIn(old(Now()), options.corpus) && !Purged(old(Now()), options.corpus, k.doc) ::
                Mendable(old(Now()), options.corpus, k)
      ensures exists active, deleted :: Orders(old(Now()), options.corpus, active, deleted)
                && once == Reconciled(old(Now()), options, active, deleted, assemble)
      ensures forall i | 0 <= i < |findings| :: findings[i].DeadLetter?
      ensures forall j :: DeadLetter(j) in findings <==>
                j in store.jobs && store.jobs[j].key.doc.corpus == options.corpus && store.jobs[j].status == JobFailed
    {
      hide Inv, Reconciled, Agrees, Realigned, Aligned, IdsAgree, Rebuildable, Converges, Orders, Complete, Mendable, Purged, ActiveIn;
      ghost var w, r := Now(), registry;
      var active, deleted := Reconcile();
      once := Now();
      OneRunAgrees(w, options, active, deleted, assemble);
      OneRunCompletes(w, options, active, deleted, assemble);
      RealignedIffRegistered(r, options.corpus);
      var active', deleted' := Reconcile();
      AgreementIsFixpoint(once, options, active', deleted', assemble);
      AlignedStays(Realigned(r, options.corpus));
    }

    lemma AlignedStays(r: Registry)
      requires Aligned(r, options.corpus)
      ensures Realigned(r, options.corpus) == r
    {
    }

    function PresentIn(points: map<ChunkId, Point>): set<Key> {
      set id | id in points :: ScanKey(options.corpus, points[id].key)
    }

    lemma PresentIs(w: World)
      ensures PresentIn(w.points) == Present(w, options.corpus)
    {
    }

    lemma ActiveAreKnown(w: World)
      ensures ActiveIn(w, options.corpus) <= Known(w.meta.documents, options.corpus)
    {
    }

    lemma MetaStands(w: World, scanned: World, rebuilt: World, present: set<Key>, active: seq<Key>)
      requires scanned.meta == w.meta
      requires rebuilt == if options.dryRun || !options.rebuild then scanned else RebuildPhase(scanned, present, active, assemble)
      ensures rebuilt.meta == w.meta
    {
      RebuildKeepsMeta(scanned, present, active);
    }

    lemma {:induction false} RebuildKeepsMeta(w: World, present: set<Key>, active: seq<Key>)
      ensures RebuildPhase(w, present, active, assemble).meta == w.meta
    {
      hide HasParent;
      if active != [] { RebuildKeepsMeta(w, present, active[..|active| - 1]); }
    }

  }
}
