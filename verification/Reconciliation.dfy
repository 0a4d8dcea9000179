/** The reconciler's repair of one corpus as a function of the stores: control-plane
    rows are the truth, points and parents are driven towards them. */
module Reconciliation {
  import opened Common
  import opened Policy
  import opened ControlPlane
  import opened Lifecycle
  import opened DataPlane
  import opened Stores

  // ---------------------------------------------------------------------
  // The live registry pointer, a mirror of the persisted one
  // ---------------------------------------------------------------------

  datatype Registry = Registry(registered: bool, live: string, persisted: string)

  function Resolve(r: Registry, corpus: string): string {
    if r.registered && r.live != "" then r.live else corpus
  }

  function Effective(r: Registry, corpus: string): string {
    if r.persisted != "" then r.persisted else corpus
  }

  predicate Aligned(r: Registry, corpus: string) {
    Resolve(r, corpus) == Effective(r, corpus)
  }

  function Realigned(r: Registry, corpus: string): Registry {
    if Aligned(r, corpus) || !r.registered then r else r.(live := Effective(r, corpus))
  }

  /** A corpus missing from the live registry keeps a diverging pointer: the update
      is dropped, so every run reports the mismatch again. */
  lemma RealignedIffRegistered(r: Registry, corpus: string)
    requires corpus != ""
    ensures Aligned(Realigned(r, corpus), corpus) <==> r.registered || Aligned(r, corpus)
    ensures Resolve(Realigned(r, corpus), corpus) == if r.registered && r.persisted != "" then r.persisted else corpus
    ensures Realigned(r, corpus).(live := r.live) == r && (Aligned(r, corpus) || !r.registered ==> Realigned(r, corpus) == r)
  {
  }

  // ---------------------------------------------------------------------
  // Control-plane truth
  // ---------------------------------------------------------------------

  function Known(docs: map<Key, DocRow>, corpus: string): set<Key> {
    set k | k in docs && k.doc.corpus == corpus
  }

  function WithStatusIn(docs: map<Key, DocRow>, corpus: string, status: DocStatus): set<Key> {
    set k | k in docs && k.doc.corpus == corpus && docs[k].status == status
  }

  function ActiveIn(w: World, corpus: string): set<Key> {
    WithStatusIn(w.meta.documents, corpus, Active)
  }

  function DeletedIn(w: World, corpus: string): set<Key> {
    WithStatusIn(w.meta.documents, corpus, Deleted)
  }

  predicate HasPoint(w: World, k: Key) {
    exists id | id in w.points :: w.points[id].key == k
  }

  predicate HasParent(w: World, k: Key) {
    exists id | id in w.parents :: w.parents[id].key == k
  }

  predicate Lingers(w: World, k: Key) {
    HasPoint(w, k) || HasParent(w, k)
  }

  // ---------------------------------------------------------------------
  // Points: orphans go, stale statuses are patched
  // ---------------------------------------------------------------------

  /** Points carry no usable corpus of their own here: the scanned corpus is assumed. */
  function ScanKey(corpus: string, k: Key): Key {
    Key(DocId(k.doc.tenant, corpus, k.doc.document), k.version)
  }

  function PatchedPoint(p: Point, active: bool): Point {
    if active && p.status != "active" then p.(status := "active", deprecated := false)
    else if !active && p.status == "active" then p.(status := "deprecated", deprecated := true)
    else p
  }

  function ScannedPoints(w: World, corpus: string): map<ChunkId, Point> {
    map id | id in w.points && ScanKey(corpus, w.points[id].key) in Known(w.meta.documents, corpus) ::
      PatchedPoint(w.points[id], ScanKey(corpus, w.points[id].key) in ActiveIn(w, corpus))
  }

  function Present(w: World, corpus: string): set<Key> {
    set id | id in w.points :: ScanKey(corpus, w.points[id].key)
  }

  // ---------------------------------------------------------------------
  // Missing data: rebuilt from the child chunk rows
  // ---------------------------------------------------------------------

  /** The child rows a rebuild reads: by corpus, document and version, whatever the tenant. */
  predicate RowOf(row: ChunkRow, k: Key) {
    !row.isParent && row.key.doc.corpus == k.doc.corpus && row.key.doc.document == k.doc.document && row.key.version == k.version
  }

  function RowParent(row: ChunkRow): ChunkId {
    if row.parent.Some? then row.parent.value else ""
  }

  function RowPoint(row: ChunkRow): Point {
    Point(row.key, RowParent(row), row.content, "active", false, row.acl)
  }

  /** A rebuilt parent's text and ACL, as some function of its child rows. */
  type Assemble = map<ChunkId, ChunkRow> -> (string, ResourceAcl)

  function Rebuild(w: World, k: Key, assemble: Assemble): World {
    var rows := map id | id in w.meta.chunks && RowOf(w.meta.chunks[id], k) :: w.meta.chunks[id];
    var parentIds := (set id | id in rows :: RowParent(rows[id])) - {""};
    w.(points := w.points + map id | id in rows :: RowPoint(rows[id]),
       parents := w.parents + map p | p in parentIds ::
         var made := assemble(map id | id in rows && RowParent(rows[id]) == p :: rows[id]);
         Parent(k, made.0, "active", false, made.1))
  }

  function RebuildPhase(w: World, present: set<Key>, order: seq<Key>, assemble: Assemble): World {
    if order == [] then w
    else
      var k, before := order[|order| - 1], RebuildPhase(w, present, order[..|order| - 1], assemble);
      if k in present && HasParent(before, k) then before else Rebuild(before, k, assemble)
  }

  // ---------------------------------------------------------------------
  // Deleted documents whose data lingers: purged, every version
  // ---------------------------------------------------------------------

  function Purge(w: World, d: DocId): World {
    var versions := set k | k in w.meta.documents && k.doc == d;
    World(
      PurgeDocument(w.meta, d).(chunks := map id | id in w.meta.chunks && w.meta.chunks[id].key !in versions :: w.meta.chunks[id]),
      map id | id in w.points && w.points[id].key !in versions :: w.points[id],
      map id | id in w.parents && w.parents[id].key !in versions :: w.parents[id])
  }

  function PurgePhase(w: World, order: seq<Key>): World {
    if order == [] then w
    else
      var k, before := order[|order| - 1], PurgePhase(w, order[..|order| - 1]);
      if Lingers(before, k) then Purge(before, k.doc) else before
  }

  // ---------------------------------------------------------------------
  // Parents: orphans go, stale versions are patched as a whole
  // ---------------------------------------------------------------------

  predicate ParentIsLive(p: Parent) {
    p.status == "active" && !p.deprecated
  }

  predicate StaleSibling(parents: map<ChunkId, Parent>, k: Key) {
    exists id | id in parents :: parents[id].key == k && ParentIsLive(parents[id])
  }

  function ParentsPhase(parents: map<ChunkId, Parent>, corpus: string, known: set<Key>, active: set<Key>): map<ChunkId, Parent> {
    map id | id in parents && (parents[id].key.doc.corpus != corpus || parents[id].key in known) ::
      var p := parents[id];
      if p.key.doc.corpus != corpus then p
      else if p.key in active then WithStatus(p, "active", false)
      else if StaleSibling(parents, p.key) then WithStatus(p, "inactive", true)
      else p
  }

  // ---------------------------------------------------------------------
  // A whole run
  // ---------------------------------------------------------------------

  datatype Options = Options(corpus: string, dryRun: bool, rebuild: bool, purge: bool)

  /** What one run leaves, given the orders in which the active and the deleted versions are visited. */
  function Reconciled(w: World, o: Options, active: seq<Key>, deleted: seq<Key>, assemble: Assemble): World {
    if o.dryRun then w
    else
      var scanned := w.(points := ScannedPoints(w, o.corpus));
      var rebuilt := if o.rebuild then RebuildPhase(scanned, Present(w, o.corpus), active, assemble) else scanned;
      var purged := if o.purge then PurgePhase(rebuilt, deleted) else rebuilt;
      purged.(parents := ParentsPhase(purged.parents, o.corpus, Known(w.meta.documents, o.corpus), ActiveIn(w, o.corpus)))
  }

  predicate Orders(w: World, corpus: string, active: seq<Key>, deleted: seq<Key>) {
    Elements(active) == ActiveIn(w, corpus) && Elements(deleted) == DeletedIn(w, corpus)
  }

  // ---------------------------------------------------------------------
  // Agreement with the truth
  // ---------------------------------------------------------------------

  predicate PointsAgree(w: World, corpus: string) {
    forall id | id in w.points ::
      var k := ScanKey(corpus, w.points[id].key);
      k in Known(w.meta.documents, corpus) && (k in ActiveIn(w, corpus) <==> w.points[id].status == "active")
  }

  predicate ActiveServed(w: World, corpus: string) {
    forall k | k in ActiveIn(w, corpus) :: k in Present(w, corpus) && HasParent(w, k)
  }

  predicate DeletedGone(w: World, corpus: string) {
    forall k | k in DeletedIn(w, corpus) :: !Lingers(w, k)
  }

  predicate ParentsAgree(w: World, corpus: string) {
    forall id | id in w.parents && w.parents[id].key.doc.corpus == corpus ::
      var p := w.parents[id];
      p.key in Known(w.meta.documents, corpus) && (p.key in ActiveIn(w, corpus) <==> ParentIsLive(p))
  }

  /** What the reconciler checks: every point and parent belongs to a known version and has the status of that
      version, every active version has a point and a parent, and no deleted one has any. */
  predicate Agrees(w: World, corpus: string) {
    PointsAgree(w, corpus) && ActiveServed(w, corpus) && DeletedGone(w, corpus) && ParentsAgree(w, corpus)
  }

  // ---------------------------------------------------------------------
  // What is assumed of ids, and what a rebuild is needed for
  // ---------------------------------------------------------------------

  /** The collection holds this corpus only, and a chunk id belongs to one version. */
  ghost predicate PointIds(points: map<ChunkId, Point>, m: State, corpus: string) {
    && (forall id | id in points :: points[id].key.doc.corpus == corpus)
    && (forall id | id in points && id in m.chunks :: points[id].key == m.chunks[id].key)
  }

  /** A parent id belongs to one version. */
  ghost predicate ParentIdsOf(parents: map<ChunkId, Parent>, m: State) {
    forall id | id in m.chunks && !m.chunks[id].isParent && RowParent(m.chunks[id]) in parents ::
      parents[RowParent(m.chunks[id])].key == m.chunks[id].key
  }

  ghost predicate Families(m: State) {
    forall a, b | a in m.chunks && b in m.chunks && !m.chunks[a].isParent && !m.chunks[b].isParent
                  && RowParent(m.chunks[a]) == RowParent(m.chunks[b]) != "" ::
      m.chunks[a].key == m.chunks[b].key
  }

  ghost predicate IdsAgree(w: World, corpus: string) {
    PointIds(w.points, w.meta, corpus) && ParentIdsOf(w.parents, w.meta) && Families(w.meta)
  }

  predicate ChildOf(row: ChunkRow, k: Key) {
    !row.isParent && row.key == k
  }

  ghost predicate HasFamily(m: State, k: Key) {
    exists id | id in m.chunks :: ChildOf(m.chunks[id], k) && RowParent(m.chunks[id]) != ""
  }

  /** Every active version has child rows of its own with parent ids. */
  ghost predicate Rebuildable(w: World, corpus: string) {
    forall k | k in ActiveIn(w, corpus) :: HasFamily(w.meta, k)
  }

  /** Every parent of an active version is the parent of one of its child rows. */
  ghost predicate ParentsBacked(w: World, corpus: string) {
    forall p | p in w.parents && w.parents[p].key in ActiveIn(w, corpus) && p != "" ::
      exists id | id in w.meta.chunks :: ChildOf(w.meta.chunks[id], w.parents[p].key) && RowParent(w.meta.chunks[id]) == p
  }

  /** No parent has the empty id, and no document has both a deleted and an active row. */
  ghost predicate Unmixed(w: World, corpus: string) {
    && "" !in w.parents
    && forall x, a | x in DeletedIn(w, corpus) && a in ActiveIn(w, corpus) :: x.doc != a.doc
  }

  /** The active versions whose points or parents are missing. */
  function Needy(w: World, corpus: string): set<Key> {
    set k | k in ActiveIn(w, corpus) && (k !in Present(w, corpus) || !HasParent(w, k))
  }

  /** Rebuilding needy `k` also rewrites child rows of `k'`: the same document and version under another tenant. */
  ghost predicate Contested(w: World, corpus: string, k: Key, k': Key) {
    && k in Needy(w, corpus) && k' != k
    && exists id | id in w.meta.chunks :: ChildOf(w.meta.chunks[id], k') && RowOf(w.meta.chunks[id], k)
  }

  /** A rebuild brings back points of `x`. */
  ghost predicate Regained(w: World, corpus: string, x: Key) {
    exists k, id :: k in Needy(w, corpus) && id in w.meta.chunks && ChildOf(w.meta.chunks[id], x) && RowOf(w.meta.chunks[id], k)
  }

  /** The run purges document `d`: one of its deleted versions has data left, or gets some back. */
  ghost predicate Purged(w: World, corpus: string, d: DocId) {
    exists x :: x in DeletedIn(w, corpus) && x.doc == d && (Lingers(w, x) || Regained(w, corpus, x))
  }

  /** Whatever a rebuild rewrites besides its own version is purged in the same run. */
  ghost predicate Converges(w: World, corpus: string) {
    forall k, k' | Contested(w, corpus, k, k') ::
      k' in Known(w.meta.documents, corpus) && k' !in ActiveIn(w, corpus) && Purged(w, corpus, k'.doc)
  }

  /** No document the run purges has an active version. */
  ghost predicate NoPurgeOfActive(w: World, corpus: string) {
    forall a | a in ActiveIn(w, corpus) :: !Purged(w, corpus, a.doc)
  }

  // ---------------------------------------------------------------------
  // What the rebuild phase leaves
  // ---------------------------------------------------------------------

  ghost predicate TouchedRow(m: State, keys: set<Key>, id: ChunkId) {
    id in m.chunks && exists k :: k in keys && RowOf(m.chunks[id], k)
  }

  ghost predicate TouchedParent(m: State, keys: set<Key>, p: ChunkId) {
    p != "" && exists id :: TouchedRow(m, keys, id) && RowParent(m.chunks[id]) == p
  }

  /** The same document and version, whatever the tenant. */
  predicate SameGroup(a: Key, b: Key) {
    a.doc.corpus == b.doc.corpus && a.doc.document == b.doc.document && a.version == b.version
  }

  ghost predicate PointsRebuilt(s: World, b: World, keys: set<Key>) {
    forall id :: if TouchedRow(s.meta, keys, id) then id in b.points && b.points[id] == RowPoint(s.meta.chunks[id])
                 else Same(b.points, s.points, id)
  }

  ghost predicate ParentsRebuilt(s: World, b: World, keys: set<Key>) {
    forall p :: if TouchedParent(s.meta, keys, p) then p in b.parents && b.parents[p].key in keys
                else Same(b.parents, s.parents, p)
  }

  /** Two rewritten rows of one group, both with a parent. */
  ghost predicate Kin(m: State, keys: set<Key>, id: ChunkId, id': ChunkId) {
    && TouchedRow(m, keys, id) && TouchedRow(m, keys, id')
    && SameGroup(m.chunks[id].key, m.chunks[id'].key)
    && RowParent(m.chunks[id]) != "" && RowParent(m.chunks[id']) != ""
  }

  ghost predicate SharedOwner(m: State, parents: map<ChunkId, Parent>, id: ChunkId, id': ChunkId) {
    && id in m.chunks && id' in m.chunks
    && var p, p' := RowParent(m.chunks[id]), RowParent(m.chunks[id']);
       p in parents && p' in parents && parents[p].key == parents[p'].key && SameGroup(parents[p].key, m.chunks[id].key)
  }

  /** A touched parent belongs to a version of its row's group, the same for the whole group. */
  ghost predicate OneOwner(s: World, b: World, keys: set<Key>) {
    forall id, id' | Kin(s.meta, keys, id, id') :: SharedOwner(s.meta, b.parents, id, id')
  }

  ghost predicate Rebuilt(s: World, b: World, keys: set<Key>) {
    b.meta == s.meta && PointsRebuilt(s, b, keys) && ParentsRebuilt(s, b, keys) && OneOwner(s, b, keys)
  }

  lemma RebuildWrites(w: World, k: Key, assemble: Assemble)
    ensures var r := Rebuild(w, k, assemble);
            forall id :: if id in w.meta.chunks && RowOf(w.meta.chunks[id], k)
                         then id in r.points && r.points[id] == RowPoint(w.meta.chunks[id])
                         else Same(r.points, w.points, id)
  {
    hide RowOf, RowPoint;
  }

  lemma ParentsTouched(m: State, k: Key, rows: map<ChunkId, ChunkRow>)
    requires rows == map id | id in m.chunks && RowOf(m.chunks[id], k) :: m.chunks[id]
    ensures forall p :: p in (set id | id in rows :: RowParent(rows[id])) - {""} <==> TouchedParent(m, {k}, p)
  {
    hide RowOf, RowParent;
    var parentIds := (set id | id in rows :: RowParent(rows[id])) - {""};
    forall p ensures p in parentIds <==> TouchedParent(m, {k}, p) {
      if TouchedParent(m, {k}, p) {
        var id :| TouchedRow(m, {k}, id) && RowParent(m.chunks[id]) == p;
        assert id in rows;
      }
      if p in parentIds {
        var id :| id in rows && RowParent(rows[id]) == p;
        assert k in {k};
        assert TouchedRow(m, {k}, id);
      }
    }
  }

  lemma RebuildAdopts(w: World, k: Key, assemble: Assemble)
    ensures var r := Rebuild(w, k, assemble);
            forall p :: if TouchedParent(w.meta, {k}, p) then p in r.parents && r.parents[p].key == k
                        else Same(r.parents, w.parents, p)
  {
    hide RowOf, RowParent, RowPoint, TouchedParent;
    var rows := map id | id in w.meta.chunks && RowOf(w.meta.chunks[id], k) :: w.meta.chunks[id];
    ParentsTouched(w.meta, k, rows);
  }

  lemma RebuildIs(w: World, k: Key, assemble: Assemble)
    ensures var r := Rebuild(w, k, assemble);
            && r.meta == w.meta
            && (forall id :: if id in w.meta.chunks && RowOf(w.meta.chunks[id], k)
                             then id in r.points && r.points[id] == RowPoint(w.meta.chunks[id])
                             else Same(r.points, w.points, id))
            && (forall p :: if TouchedParent(w.meta, {k}, p) then p in r.parents && r.parents[p].key == k
                            else Same(r.parents, w.parents, p))
  {
    RebuildWrites(w, k, assemble);
    RebuildAdopts(w, k, assemble);
    assert Rebuild(w, k, assemble).meta == w.meta;
    hide Rebuild;
  }

  lemma TouchedMore(m: State, keys: set<Key>, k: Key)
    ensures forall id :: TouchedRow(m, keys + {k}, id) <==> TouchedRow(m, keys, id) || TouchedRow(m, {k}, id)
    ensures forall p :: TouchedParent(m, keys + {k}, p) <==> TouchedParent(m, keys, p) || TouchedParent(m, {k}, p)
  {
    forall id ensures TouchedRow(m, keys + {k}, id) <==> TouchedRow(m, keys, id) || TouchedRow(m, {k}, id) {
      if id in m.chunks && RowOf(m.chunks[id], k) { assert k in keys + {k} && k in {k}; }
      if TouchedRow(m, keys, id) {
        var o :| o in keys && RowOf(m.chunks[id], o);
        assert o in keys + {k};
      }
    }
  }

  /** A parent some rebuild of `k` touches belongs to rows of its group only. */
  lemma FamilyStays(m: State, k: Key, id: ChunkId)
    requires Families(m) && id in m.chunks && !m.chunks[id].isParent && TouchedParent(m, {k}, RowParent(m.chunks[id]))
    ensures RowOf(m.chunks[id], k)
  {
    var c :| TouchedRow(m, {k}, c) && RowParent(m.chunks[c]) == RowParent(m.chunks[id]);
    assert m.chunks[c].key == m.chunks[id].key;
  }

  lemma RebuildPoints(s: World, b: World, keys: set<Key>, k: Key, assemble: Assemble)
    requires Rebuilt(s, b, keys)
    ensures PointsRebuilt(s, Rebuild(b, k, assemble), keys + {k})
  {
    hide Rebuild, ParentsRebuilt, OneOwner, TouchedParent;
    RebuildIs(b, k, assemble);
    TouchedMore(s.meta, keys, k);
    var r := Rebuild(b, k, assemble);
    forall id
      ensures if TouchedRow(s.meta, keys + {k}, id) then id in r.points && r.points[id] == RowPoint(s.meta.chunks[id])
              else Same(r.points, s.points, id)
    {
      assert TouchedRow(s.meta, {k}, id) <==> id in s.meta.chunks && RowOf(s.meta.chunks[id], k);
    }
  }

  lemma RebuildParents(s: World, b: World, keys: set<Key>, k: Key, assemble: Assemble)
    requires Rebuilt(s, b, keys)
    ensures ParentsRebuilt(s, Rebuild(b, k, assemble), keys + {k})
  {
    hide Rebuild, PointsRebuilt, OneOwner, TouchedParent, RowOf;
    RebuildIs(b, k, assemble);
    TouchedMore(s.meta, keys, k);
  }

  lemma RebuildOwner(s: World, b: World, keys: set<Key>, k: Key, assemble: Assemble)
    requires Rebuilt(s, b, keys) && Families(s.meta)
    ensures OneOwner(s, Rebuild(b, k, assemble), keys + {k})
  {
    hide Rebuild, PointsRebuilt, ParentsRebuilt, TouchedParent, TouchedRow, RowOf, RowPoint;
    RebuildIs(b, k, assemble);
    TouchedMore(s.meta, keys, k);
    var r := Rebuild(b, k, assemble);
    forall id, id' | Kin(s.meta, keys + {k}, id, id') ensures SharedOwner(s.meta, r.parents, id, id') {
      KinAre(s.meta, keys + {k}, id, id');
      TouchedBy(s.meta, k, id);
      TouchedBy(s.meta, k, id');
      if !RowOf(s.meta.chunks[id], k) {
        assert Kin(s.meta, keys, id, id');
        assert Same(r.parents, b.parents, RowParent(s.meta.chunks[id]));
        assert Same(r.parents, b.parents, RowParent(s.meta.chunks[id']));
      }
    }
  }

  lemma KinAre(m: State, keys: set<Key>, id: ChunkId, id': ChunkId)
    requires Kin(m, keys, id, id')
    ensures id in m.chunks && !m.chunks[id].isParent && id' in m.chunks && !m.chunks[id'].isParent
  {
  }

  /** A child row is rewritten by rebuilding `k` exactly when its parent is. */
  lemma TouchedBy(m: State, k: Key, id: ChunkId)
    requires Families(m) && id in m.chunks && !m.chunks[id].isParent && RowParent(m.chunks[id]) != ""
    ensures TouchedRow(m, {k}, id) <==> RowOf(m.chunks[id], k)
    ensures TouchedParent(m, {k}, RowParent(m.chunks[id])) <==> RowOf(m.chunks[id], k)
    ensures RowOf(m.chunks[id], k) <==> SameGroup(m.chunks[id].key, k)
  {
    if TouchedParent(m, {k}, RowParent(m.chunks[id])) { FamilyStays(m, k, id); }
    if RowOf(m.chunks[id], k) { assert k in {k} && TouchedRow(m, {k}, id); }
  }

  lemma RebuildStep(s: World, b: World, keys: set<Key>, k: Key, assemble: Assemble)
    requires Rebuilt(s, b, keys) && Families(s.meta)
    ensures Rebuilt(s, Rebuild(b, k, assemble), keys + {k})
  {
    hide Rebuild, PointsRebuilt, ParentsRebuilt, OneOwner;
    assert Rebuild(b, k, assemble).meta == s.meta by { RebuildIs(b, k, assemble); }
    RebuildPoints(s, b, keys, k, assemble);
    RebuildParents(s, b, keys, k, assemble);
    RebuildOwner(s, b, keys, k, assemble);
  }

  /** Every key rebuilt belongs to the group of a needy one. */
  ghost predicate NeedSpreads(w: World, corpus: string, keys: set<Key>) {
    forall k | k in keys :: exists n :: n in Needy(w, corpus) && SameGroup(n, k)
  }

  lemma SpreadsOne(w: World, corpus: string, keys: set<Key>, k: Key, n: Key)
    requires NeedSpreads(w, corpus, keys) && n in Needy(w, corpus) && SameGroup(n, k)
    ensures NeedSpreads(w, corpus, keys + {k})
  {
  }

  lemma ParentChanged(s: World, b: World, k: Key, p: ChunkId)
    requires p in s.parents && s.parents[p].key == k && !HasParent(b, k)
    ensures !Same(b.parents, s.parents, p)
  {
  }

  /** A parent of `k` that is gone was taken by a rebuild in its group. */
  lemma TheftInGroup(w: World, s: World, b: World, keys: set<Key>, corpus: string, k: Key) returns (n: Key)
    requires Rebuilt(s, b, keys) && s.meta == w.meta && s.parents == w.parents && ParentIdsOf(w.parents, w.meta)
    requires NeedSpreads(w, corpus, keys) && HasParent(w, k) && !HasParent(b, k)
    ensures n in Needy(w, corpus) && SameGroup(n, k)
  {
    hide PointsRebuilt, OneOwner, Needy;
    var p :| p in w.parents && w.parents[p].key == k;
    ParentChanged(s, b, k, p);
    assert TouchedParent(s.meta, keys, p);
    var id :| TouchedRow(s.meta, keys, id) && RowParent(s.meta.chunks[id]) == p;
    var o :| o in keys && RowOf(s.meta.chunks[id], o);
    n :| n in Needy(w, corpus) && SameGroup(n, o);
  }

  /** No rebuild gives a version outside `keys` its parents. */
  lemma OnlyRebuiltGain(s: World, b: World, keys: set<Key>, k: Key)
    requires Rebuilt(s, b, keys) && k !in keys && HasParent(b, k)
    ensures HasParent(s, k)
  {
    hide PointsRebuilt, OneOwner, TouchedParent;
    var p :| p in b.parents && b.parents[p].key == k;
    assert !TouchedParent(s.meta, keys, p);
    assert Same(b.parents, s.parents, p);
  }

  /** Whatever the order, exactly the groups of needy versions are rebuilt. */
  lemma {:induction false} RebuildPhaseIs(w: World, corpus: string, s: World, order: seq<Key>, assemble: Assemble)
    returns (keys: set<Key>)
    requires s.meta == w.meta && s.parents == w.parents && ParentIdsOf(w.parents, w.meta) && Families(w.meta)
    requires forall k | k in order :: k in ActiveIn(w, corpus)
    ensures Rebuilt(s, RebuildPhase(s, Present(w, corpus), order, assemble), keys)
    ensures forall k | k in keys :: k in order
    ensures forall k | k in order && k in Needy(w, corpus) :: k in keys
    ensures NeedSpreads(w, corpus, keys)
  {
    hide Rebuilt, Rebuild, ActiveIn, Present, HasParent, Families, NeedSpreads;
    keys := {};
    if order == [] {
      assert Rebuilt(s, s, {}) by { NothingRebuilt(s); }
      assert NeedSpreads(w, corpus, {}) by { NothingSpreads(w, corpus); }
    } else {
      var init, k := order[..|order| - 1], order[|order| - 1];
      assert order == init + [k];
      keys := RebuildPhaseIs(w, corpus, s, init, assemble);
      var b := RebuildPhase(s, Present(w, corpus), init, assemble);
      if k in Present(w, corpus) && HasParent(b, k) {
        if k in Needy(w, corpus) && k !in keys {
          OnlyRebuiltGain(s, b, keys, k);
          SameParents(s, w, k);
          assert false;
        }
      } else {
        var n := k;
        if k !in Needy(w, corpus) { n := TheftInGroup(w, s, b, keys, corpus, k); }
        SpreadsOne(w, corpus, keys, k, n);
        RebuildStep(s, b, keys, k, assemble);
        keys := keys + {k};
      }
    }
  }

  lemma SameParents(s: World, w: World, k: Key)
    requires s.parents == w.parents
    ensures HasParent(s, k) <==> HasParent(w, k)
  {
  }

  lemma NothingRebuilt(s: World)
    ensures Rebuilt(s, s, {})
  {
  }

  lemma NothingSpreads(w: World, corpus: string)
    ensures NeedSpreads(w, corpus, {})
  {
  }

  // ---------------------------------------------------------------------
  // The purge
  // ---------------------------------------------------------------------

  /** `w` is `b` without every known version of the documents in `gone`. */
  ghost predicate Without(b: World, w: World, gone: set<DocId>) {
    && w.meta.documents == (map k | k in b.meta.documents && k.doc !in gone :: b.meta.documents[k])
    && RowsWithout(b.meta, w.meta, gone)
    && w.points == (map id | id in b.points && !(b.points[id].key in b.meta.documents && b.points[id].key.doc in gone) :: b.points[id])
    && w.parents == (map id | id in b.parents && !(b.parents[id].key in b.meta.documents && b.parents[id].key.doc in gone) :: b.parents[id])
  }

  ghost predicate RowsWithout(b: State, m: State, gone: set<DocId>) {
    m.chunks == map id | id in b.chunks && !(b.chunks[id].key in b.documents && b.chunks[id].key.doc in gone) :: b.chunks[id]
  }

  lemma PurgeTakesRows(b: World, w: World, gone: set<DocId>, d: DocId)
    requires Without(b, w, gone)
    ensures RowsWithout(b.meta, Purge(w, d).meta, gone + {d})
  {
    var p, gone' := Purge(w, d), gone + {d};
    assert p.meta.chunks ==
           map id | id in b.meta.chunks && !(b.meta.chunks[id].key in b.meta.documents && b.meta.chunks[id].key.doc in gone') :: b.meta.chunks[id];
  }

  lemma PurgeTakes(b: World, w: World, gone: set<DocId>, d: DocId)
    requires Without(b, w, gone)
    ensures Without(b, Purge(w, d), gone + {d})
  {
    PurgeTakesRows(b, w, gone, d);
    hide RowsWithout;
    var p := Purge(w, d);
    var gone' := gone + {d};
    assert p.meta.documents == map k | k in b.meta.documents && k.doc !in gone' :: b.meta.documents[k];
    assert p.points == map id | id in b.points && !(b.points[id].key in b.meta.documents && b.points[id].key.doc in gone') :: b.points[id];
    assert p.parents ==
           map id | id in b.parents && !(b.parents[id].key in b.meta.documents && b.parents[id].key.doc in gone') :: b.parents[id];
  }

  /** The phase purges exactly the documents of deleted versions that linger. */
  lemma {:induction false} PurgePhaseTakes(b: World, order: seq<Key>) returns (gone: set<DocId>)
    requires forall k | k in order :: k in b.meta.documents
    ensures Without(b, PurgePhase(b, order), gone)
    ensures forall k | k in order && Lingers(b, k) :: k.doc in gone
    ensures forall d | d in gone :: exists k :: k in order && Lingers(b, k) && k.doc == d
  {
    hide Purge;
    gone := {};
    if order != [] {
      var init, k := order[..|order| - 1], order[|order| - 1];
      assert order == init + [k];
      gone := PurgePhaseTakes(b, init);
      var w := PurgePhase(b, init);
      LingersWithout(b, w, gone, k);
      if Lingers(w, k) {
        PurgeTakes(b, w, gone, k.doc);
        gone := gone + {k.doc};
      }
    }
  }

  lemma LingersWithout(b: World, w: World, gone: set<DocId>, k: Key)
    requires Without(b, w, gone) && k in b.meta.documents
    ensures Lingers(w, k) <==> Lingers(b, k) && k.doc !in gone
  {
    if Lingers(b, k) && k.doc !in gone {
      if HasPoint(b, k) {
        var id :| id in b.points && b.points[id].key == k;
        assert id in w.points && w.points[id].key == k;
      } else {
        var id :| id in b.parents && b.parents[id].key == k;
        assert id in w.parents && w.parents[id].key == k;
      }
    }
  }

  // ---------------------------------------------------------------------
  // Convergence
  // ---------------------------------------------------------------------

  lemma ParentsPhaseAgrees(w: World, corpus: string, known: set<Key>, active: set<Key>)
    ensures var r := ParentsPhase(w.parents, corpus, known, active);
            && (forall id | id in r :: id in w.parents && r[id].key == w.parents[id].key)
            && (forall id | id in r && r[id].key.doc.corpus == corpus ::
                  r[id].key in known && (r[id].key in active <==> ParentIsLive(r[id])))
            && (forall id | id in w.parents && w.parents[id].key in known :: id in r)
  {
    forall id | id in w.parents && ParentIsLive(w.parents[id]) ensures StaleSibling(w.parents, w.parents[id].key) {
    }
  }

  lemma WithoutServed(b: World, w: World, gone: set<DocId>, k: Key)
    requires Without(b, w, gone) && k in b.meta.documents && k.doc !in gone
    ensures HasPoint(w, k) <==> HasPoint(b, k)
    ensures HasParent(w, k) <==> HasParent(b, k)
  {
    if HasPoint(b, k) {
      var id :| id in b.points && b.points[id].key == k;
      assert id in w.points && w.points[id].key == k;
    }
    if HasParent(b, k) {
      var id :| id in b.parents && b.parents[id].key == k;
      assert id in w.parents && w.parents[id].key == k;
    }
  }

  /** The last phases leave an agreeing world exactly when, outside the purged documents, the
      points agree, every active version is served, and no deleted version lingers. */
  ghost predicate AgreesOutside(o: World, b: World, gone: set<DocId>, corpus: string) {
    && (forall id | id in b.points ::
          var k := b.points[id].key;
          k in Known(o.meta.documents, corpus)
          && (k.doc in gone || (k in ActiveIn(o, corpus) <==> b.points[id].status == "active")))
    && (forall a | a in ActiveIn(o, corpus) && a.doc !in gone :: HasPoint(b, a) && HasParent(b, a))
  }

  ghost function Finish(o: World, p: World, corpus: string): World {
    p.(parents := ParentsPhase(p.parents, corpus, Known(o.meta.documents, corpus), ActiveIn(o, corpus)))
  }

  lemma FinishKeeps(o: World, p: World, corpus: string)
    ensures var f := Finish(o, p, corpus);
            && f.points == p.points && f.meta == p.meta
            && (forall k | k in Known(o.meta.documents, corpus) :: HasParent(f, k) <==> HasParent(p, k))
            && (forall k :: HasPoint(f, k) <==> HasPoint(p, k))
            && (forall k :: HasParent(f, k) ==> HasParent(p, k))
            && (forall id | id in f.parents && f.parents[id].key.doc.corpus == corpus ::
                  id in p.parents && f.parents[id].key == p.parents[id].key && f.parents[id].key in Known(o.meta.documents, corpus)
                  && (f.parents[id].key in ActiveIn(o, corpus) <==> ParentIsLive(f.parents[id])))
  {
    hide ParentsPhase, Known, WithStatusIn;
    var f := Finish(o, p, corpus);
    ParentsPhaseAgrees(p, corpus, Known(o.meta.documents, corpus), ActiveIn(o, corpus));
    forall k | k in Known(o.meta.documents, corpus) && HasParent(p, k) ensures HasParent(f, k) {
      var id :| id in p.parents && p.parents[id].key == k;
      assert id in f.parents && f.parents[id].key == k;
    }
    forall k | HasParent(f, k) ensures HasParent(p, k) {
      var id :| id in f.parents && f.parents[id].key == k;
      assert id in p.parents && p.parents[id].key == k;
    }
  }

  /** The rows that are left: those of documents not purged. */
  lemma RowsLeft(o: World, b: World, p: World, gone: set<DocId>, corpus: string, k: Key)
    requires b.meta == o.meta && Without(b, p, gone)
    ensures k in Known(p.meta.documents, corpus) <==> k in Known(o.meta.documents, corpus) && k.doc !in gone
    ensures k in ActiveIn(p, corpus) <==> k in ActiveIn(o, corpus) && k.doc !in gone
    ensures k in DeletedIn(p, corpus) <==> k in DeletedIn(o, corpus) && k.doc !in gone
    ensures k in ActiveIn(o, corpus) || k in DeletedIn(o, corpus) ==> k in Known(o.meta.documents, corpus)
  {
  }

  lemma PointsOutside(o: World, b: World, p: World, gone: set<DocId>, corpus: string)
    requires b.meta == o.meta && Without(b, p, gone)
    requires forall id | id in b.points :: b.points[id].key.doc.corpus == corpus
    ensures PointsAgree(p, corpus) <==>
            forall id | id in b.points ::
              var k := b.points[id].key;
              k in Known(o.meta.documents, corpus)
              && (k.doc in gone || (k in ActiveIn(o, corpus) <==> b.points[id].status == "active"))
  {
    hide Known, WithStatusIn;
    forall id | id in b.points
      ensures id in p.points <==> !(b.points[id].key in Known(o.meta.documents, corpus) && b.points[id].key.doc in gone)
      ensures ScanKey(corpus, b.points[id].key) == b.points[id].key
    {
      KnownIs(o, corpus, b.points[id].key);
    }
    forall k: Key ensures k in Known(p.meta.documents, corpus) <==> k in Known(o.meta.documents, corpus) && k.doc !in gone {
      RowsLeft(o, b, p, gone, corpus, k);
    }
    forall k: Key ensures k in ActiveIn(p, corpus) <==> k in ActiveIn(o, corpus) && k.doc !in gone {
      RowsLeft(o, b, p, gone, corpus, k);
    }
    PointsLeft(o, b, p, gone, corpus);
  }

  lemma KnownIs(o: World, corpus: string, k: Key)
    ensures k in Known(o.meta.documents, corpus) <==> k in o.meta.documents && k.doc.corpus == corpus
  {
  }

  lemma PointsLeft(o: World, b: World, p: World, gone: set<DocId>, corpus: string)
    requires forall id | id in b.points ::
               (id in p.points <==> !(b.points[id].key in Known(o.meta.documents, corpus) && b.points[id].key.doc in gone))
               && ScanKey(corpus, b.points[id].key) == b.points[id].key
    requires forall id | id in p.points :: id in b.points && p.points[id] == b.points[id]
    requires forall k: Key :: k in Known(p.meta.documents, corpus) <==> k in Known(o.meta.documents, corpus) && k.doc !in gone
    requires forall k: Key :: k in ActiveIn(p, corpus) <==> k in ActiveIn(o, corpus) && k.doc !in gone
    ensures PointsAgree(p, corpus) <==>
            forall id | id in b.points ::
              var k := b.points[id].key;
              k in Known(o.meta.documents, corpus)
              && (k.doc in gone || (k in ActiveIn(o, corpus) <==> b.points[id].status == "active"))
  {
    hide Known, ActiveIn, ScanKey;
    if PointsAgree(p, corpus) {
      forall id | id in b.points
        ensures var k := b.points[id].key;
                k in Known(o.meta.documents, corpus)
                && (k.doc in gone || (k in ActiveIn(o, corpus) <==> b.points[id].status == "active"))
      {
        if id in p.points { assert ScanKey(corpus, p.points[id].key) == b.points[id].key; }
      }
    }
  }

  lemma AgreesIff(o: World, b: World, p: World, gone: set<DocId>, corpus: string)
    requires b.meta == o.meta && Without(b, p, gone)
    requires forall id | id in b.points :: b.points[id].key.doc.corpus == corpus
    requires forall x | x in DeletedIn(o, corpus) && Lingers(b, x) :: x.doc in gone
    ensures Agrees(Finish(o, p, corpus), corpus) <==> AgreesOutside(o, b, gone, corpus)
  {
    hide Known, WithStatusIn, HasPoint, HasParent, Without, Finish, PointsAgree, ParentIsLive;
    var f := Finish(o, p, corpus);
    FinishKeeps(o, p, corpus);
    PointsOutside(o, b, p, gone, corpus);
    SamePoints(p, f, corpus);
    WithoutCorpus(b, p, gone, corpus);
    forall k: Key
      ensures k in Known(f.meta.documents, corpus) <==> k in Known(o.meta.documents, corpus) && k.doc !in gone
      ensures k in ActiveIn(f, corpus) <==> k in ActiveIn(o, corpus) && k.doc !in gone
      ensures k in DeletedIn(f, corpus) <==> k in DeletedIn(o, corpus) && k.doc !in gone
      ensures k in ActiveIn(o, corpus) || k in DeletedIn(o, corpus) ==> k in Known(o.meta.documents, corpus)
    {
      RowsLeft(o, b, p, gone, corpus, k);
      SameRows(p, f, corpus);
    }
    forall k | k in Known(o.meta.documents, corpus) && k.doc !in gone
      ensures (HasPoint(p, k) <==> HasPoint(b, k)) && (HasParent(p, k) <==> HasParent(b, k))
    {
      KnownIs(o, corpus, k);
      WithoutServed(b, p, gone, k);
    }
    assert ParentsAgree(f, corpus) by { ParentsStand(o, b, p, f, gone, corpus); }
    forall k | k in ActiveIn(f, corpus) ensures k in Present(f, corpus) <==> HasPoint(f, k) {
      PresentIs(f, corpus, k);
    }
    assert DeletedGone(f, corpus);
    assert ActiveServed(f, corpus) <==> forall a | a in ActiveIn(o, corpus) && a.doc !in gone :: HasPoint(b, a) && HasParent(b, a);
  }

  lemma SamePoints(p: World, f: World, corpus: string)
    requires f.points == p.points && f.meta == p.meta
    ensures PointsAgree(f, corpus) <==> PointsAgree(p, corpus)
  {
  }

  lemma SameRows(p: World, f: World, corpus: string)
    requires f.meta == p.meta
    ensures ActiveIn(f, corpus) == ActiveIn(p, corpus) && DeletedIn(f, corpus) == DeletedIn(p, corpus)
  {
  }

  lemma WithoutCorpus(b: World, p: World, gone: set<DocId>, corpus: string)
    requires Without(b, p, gone) && forall id | id in b.points :: b.points[id].key.doc.corpus == corpus
    ensures forall id | id in p.points :: p.points[id].key.doc.corpus == corpus
  {
  }

  lemma PresentIs(f: World, corpus: string, k: Key)
    requires forall id | id in f.points :: f.points[id].key.doc.corpus == corpus
    ensures k in Present(f, corpus) <==> HasPoint(f, k)
  {
    if HasPoint(f, k) {
      var id :| id in f.points && f.points[id].key == k;
      assert ScanKey(corpus, f.points[id].key) == k;
    }
    if k in Present(f, corpus) {
      var id :| id in f.points && ScanKey(corpus, f.points[id].key) == k;
      assert f.points[id].key == k;
    }
  }

  lemma ParentsStand(o: World, b: World, p: World, f: World, gone: set<DocId>, corpus: string)
    requires b.meta == o.meta && Without(b, p, gone) && f.meta == p.meta
    requires forall id | id in f.parents && f.parents[id].key.doc.corpus == corpus ::
               id in p.parents && f.parents[id].key == p.parents[id].key && f.parents[id].key in Known(o.meta.documents, corpus)
               && (f.parents[id].key in ActiveIn(o, corpus) <==> ParentIsLive(f.parents[id]))
    ensures ParentsAgree(f, corpus)
  {
    hide ParentIsLive;
    forall id | id in f.parents && f.parents[id].key.doc.corpus == corpus
      ensures f.parents[id].key in Known(f.meta.documents, corpus)
      ensures f.parents[id].key in ActiveIn(f, corpus) <==> ParentIsLive(f.parents[id])
    {
      RowsLeft(o, b, p, gone, corpus, f.parents[id].key);
      assert f.parents[id].key.doc !in gone;
    }
  }

  // ---------------------------------------------------------------------
  // The exact condition
  // ---------------------------------------------------------------------

  /** What the rebuild phase rewrites, in terms of the versions that needed it. */
  lemma TouchedIffNeedy(w: World, corpus: string, keys: set<Key>, id: ChunkId)
    requires NeedSpreads(w, corpus, keys) && Needy(w, corpus) <= keys && id in w.meta.chunks
    ensures TouchedRow(w.meta, keys, id) <==> exists n :: n in Needy(w, corpus) && RowOf(w.meta.chunks[id], n)
  {
    hide Needy, NeedSpreads, RowOf;
    if TouchedRow(w.meta, keys, id) {
      var k :| k in keys && RowOf(w.meta.chunks[id], k);
      var n := SpreadFrom(w, corpus, keys, k);
      SameRowOf(w.meta.chunks[id], k, n);
    }
  }

  lemma SpreadFrom(w: World, corpus: string, keys: set<Key>, k: Key) returns (n: Key)
    requires NeedSpreads(w, corpus, keys) && k in keys
    ensures n in Needy(w, corpus) && SameGroup(n, k)
  {
    hide Needy;
    n :| n in Needy(w, corpus) && SameGroup(n, k);
  }

  lemma SameRowOf(row: ChunkRow, k: Key, n: Key)
    requires RowOf(row, k) && SameGroup(n, k)
    ensures RowOf(row, n)
  {
  }

  /** The world before the purge: scanned points, rebuilt for `keys`. */
  ghost predicate Phased(w: World, corpus: string, s: World, b: World, keys: set<Key>) {
    && IdsAgree(w, corpus) && s == w.(points := ScannedPoints(w, corpus)) && Rebuilt(s, b, keys)
    && NeedSpreads(w, corpus, keys) && Needy(w, corpus) <= keys && keys <= ActiveIn(w, corpus)
  }

  lemma ScannedAre(w: World, corpus: string)
    requires PointIds(w.points, w.meta, corpus)
    ensures var s := ScannedPoints(w, corpus);
            && (forall id | id in s :: id in w.points && s[id].key == w.points[id].key)
            && (forall id | id in s :: s[id].key in Known(w.meta.documents, corpus)
                                       && (s[id].key in ActiveIn(w, corpus) <==> s[id].status == "active"))
            && (forall id | id in w.points && w.points[id].key in Known(w.meta.documents, corpus) :: id in s)
  {
    hide Known, WithStatusIn;
    forall id | id in w.points ensures ScanKey(corpus, w.points[id].key) == w.points[id].key { ScanKeyOf(w, corpus, id); }
  }

  lemma ScanKeyOf(w: World, corpus: string, id: ChunkId)
    requires PointIds(w.points, w.meta, corpus) && id in w.points
    ensures ScanKey(corpus, w.points[id].key) == w.points[id].key
  {
  }

  /** A point before the purge is a scanned one or the rewritten point of a touched row. */
  lemma PhasedPoint(w: World, corpus: string, s: World, b: World, keys: set<Key>, id: ChunkId)
    requires Phased(w, corpus, s, b, keys) && id in b.points
    ensures b.points[id].key.doc.corpus == corpus
    ensures TouchedRow(w.meta, keys, id) ==> b.points[id] == RowPoint(w.meta.chunks[id])
    ensures !TouchedRow(w.meta, keys, id) ==>
              id in w.points && b.points[id].key == w.points[id].key && b.points[id].key in Known(w.meta.documents, corpus)
              && (b.points[id].key in ActiveIn(w, corpus) <==> b.points[id].status == "active")
  {
    hide ParentsRebuilt, OneOwner, ScannedPoints, Known, WithStatusIn, NeedSpreads, Needy;
    ScannedAre(w, corpus);
    if TouchedRow(w.meta, keys, id) {
      var k :| k in keys && RowOf(w.meta.chunks[id], k);
      assert k in ActiveIn(w, corpus);
      ActiveIsKnown(w, corpus, k);
    } else {
      assert Same(b.points, s.points, id);
    }
  }

  lemma ActiveIsKnown(w: World, corpus: string, k: Key)
    requires k in ActiveIn(w, corpus)
    ensures k in Known(w.meta.documents, corpus) && k.doc.corpus == corpus
  {
  }

  ghost predicate Rewritten(m: State, keys: set<Key>, k: Key) {
    exists id :: TouchedRow(m, keys, id) && m.chunks[id].key == k
  }

  /** A known version keeps its points, and its touched rows have points. */
  lemma PhasedKeeps(w: World, corpus: string, s: World, b: World, keys: set<Key>, k: Key)
    requires Phased(w, corpus, s, b, keys) && k in Known(w.meta.documents, corpus)
    ensures HasPoint(b, k) <==> HasPoint(w, k) || Rewritten(w.meta, keys, k)
  {
    hide ParentsRebuilt, OneOwner, ScannedPoints, Known, WithStatusIn, NeedSpreads, Needy, TouchedRow;
    ScannedAre(w, corpus);
    if HasPoint(w, k) {
      var id :| id in w.points && w.points[id].key == k;
      assert id in s.points && s.points[id].key == k;
      if !TouchedRow(w.meta, keys, id) { assert Same(b.points, s.points, id); }
      else { RowsHaveKeys(w, keys, id); }
      assert id in b.points && b.points[id].key == k;
    }
    if Rewritten(w.meta, keys, k) {
      var id := RewrittenRow(w, keys, k);
      assert id in b.points && b.points[id].key == k;
    }
    if HasPoint(b, k) {
      var id :| id in b.points && b.points[id].key == k;
      PhasedPoint(w, corpus, s, b, keys, id);
      if TouchedRow(w.meta, keys, id) {
        RowsHaveKeys(w, keys, id);
        assert Rewritten(w.meta, keys, k);
      } else {
        assert id in w.points && w.points[id].key == k;
      }
    }
  }

  lemma RowsHaveKeys(w: World, keys: set<Key>, id: ChunkId)
    requires TouchedRow(w.meta, keys, id)
    ensures id in w.meta.chunks && !w.meta.chunks[id].isParent && RowPoint(w.meta.chunks[id]).key == w.meta.chunks[id].key
  {
  }

  lemma RewrittenRow(w: World, keys: set<Key>, k: Key) returns (id: ChunkId)
    requires Rewritten(w.meta, keys, k)
    ensures id in w.meta.chunks && TouchedRow(w.meta, keys, id) && RowPoint(w.meta.chunks[id]).key == k
  {
    id :| TouchedRow(w.meta, keys, id) && w.meta.chunks[id].key == k;
  }

  lemma RowOfParent(w: World, keys: set<Key>, p: ChunkId) returns (id: ChunkId)
    requires TouchedParent(w.meta, keys, p)
    ensures id in w.meta.chunks && TouchedRow(w.meta, keys, id) && RowParent(w.meta.chunks[id]) == p && !w.meta.chunks[id].isParent
  {
    id :| TouchedRow(w.meta, keys, id) && RowParent(w.meta.chunks[id]) == p;
  }

  lemma RegainedIff(w: World, corpus: string, keys: set<Key>, x: Key)
    requires NeedSpreads(w, corpus, keys) && Needy(w, corpus) <= keys
    ensures Regained(w, corpus, x) <==> Rewritten(w.meta, keys, x)
  {
    hide Needy, NeedSpreads;
    if Regained(w, corpus, x) {
      var k, id :| k in Needy(w, corpus) && id in w.meta.chunks && ChildOf(w.meta.chunks[id], x) && RowOf(w.meta.chunks[id], k);
      assert k in keys;
      assert TouchedRow(w.meta, keys, id);
    }
    if Rewritten(w.meta, keys, x) {
      var id :| TouchedRow(w.meta, keys, id) && w.meta.chunks[id].key == x;
      TouchedIffNeedy(w, corpus, keys, id);
      var n :| n in Needy(w, corpus) && RowOf(w.meta.chunks[id], n);
      assert ChildOf(w.meta.chunks[id], x);
    }
  }

  /** A deleted version lingers before the purge when it did, or when it got points back. */
  lemma LingersIff(w: World, corpus: string, s: World, b: World, keys: set<Key>, x: Key)
    requires Phased(w, corpus, s, b, keys) && x in DeletedIn(w, corpus)
    ensures Lingers(b, x) <==> Lingers(w, x) || Regained(w, corpus, x)
  {
    hide PointsRebuilt, OneOwner, ScannedPoints, NeedSpreads, Needy, HasPoint, Regained, TouchedRow;
    assert x in Known(w.meta.documents, corpus) && x !in ActiveIn(w, corpus);
    PhasedKeeps(w, corpus, s, b, keys, x);
    RegainedIff(w, corpus, keys, x);
    if HasParent(w, x) {
      var p :| p in w.parents && w.parents[p].key == x;
      if TouchedParent(w.meta, keys, p) {
        var id := RowOfParent(w, keys, p);
        assert Rewritten(w.meta, keys, x);
      } else {
        assert Same(b.parents, s.parents, p);
        assert p in b.parents && b.parents[p].key == x;
      }
    }
    if HasParent(b, x) {
      var p :| p in b.parents && b.parents[p].key == x;
      assert !TouchedParent(w.meta, keys, p);
      assert Same(b.parents, s.parents, p);
      assert p in w.parents && w.parents[p].key == x;
    }
  }

  ghost predicate GoneAre(w: World, corpus: string, gone: set<DocId>) {
    forall d: DocId :: d in gone <==> Purged(w, corpus, d)
  }

  /** The points are right outside the purged documents exactly when nothing foreign was rewritten that stays. */
  lemma PointsRightIff(w: World, corpus: string, s: World, b: World, keys: set<Key>, gone: set<DocId>, id: ChunkId)
    requires Phased(w, corpus, s, b, keys) && GoneAre(w, corpus, gone) && Converges(w, corpus) && id in b.points
    ensures var k := b.points[id].key;
            k in Known(w.meta.documents, corpus)
            && (k.doc in gone || (k in ActiveIn(w, corpus) <==> b.points[id].status == "active"))
  {
    hide Rebuilt, NeedSpreads, Needy, Purged, Known, WithStatusIn, IdsAgree;
    PhasedPoint(w, corpus, s, b, keys, id);
    if TouchedRow(w.meta, keys, id) {
      RowsHaveKeys(w, keys, id);
      TouchedIffNeedy(w, corpus, keys, id);
      var n :| n in Needy(w, corpus) && RowOf(w.meta.chunks[id], n);
      var k := w.meta.chunks[id].key;
      NeedyIsActive(w, corpus, n);
      if k != n {
        assert ChildOf(w.meta.chunks[id], k);
        assert Contested(w, corpus, n, k);
      }
    }
  }

  lemma NeedyIsActive(w: World, corpus: string, n: Key)
    requires n in Needy(w, corpus)
    ensures n in ActiveIn(w, corpus) && n in Known(w.meta.documents, corpus)
  {
  }

  /** In a converging world every active version is served before the purge. */
  lemma ServedIf(w: World, corpus: string, s: World, b: World, keys: set<Key>, a: Key)
    requires Phased(w, corpus, s, b, keys) && Rebuildable(w, corpus) && Converges(w, corpus) && a in ActiveIn(w, corpus)
    ensures HasPoint(b, a) && HasParent(b, a)
  {
    hide PointsRebuilt, NeedSpreads, Known, WithStatusIn, Purged, ScannedPoints;
    ActiveIsKnown(w, corpus, a);
    PhasedKeeps(w, corpus, s, b, keys, a);
    if a in Needy(w, corpus) {
      var id :| id in w.meta.chunks && ChildOf(w.meta.chunks[id], a) && RowParent(w.meta.chunks[id]) != "";
      var p := RowParent(w.meta.chunks[id]);
      assert RowOf(w.meta.chunks[id], a) && a in keys;
      assert TouchedRow(w.meta, keys, id);
      assert TouchedParent(w.meta, keys, p);
      OwnerInGroup(w, corpus, s, b, keys, id);
      var o := b.parents[p].key;
      if o != a { OthersContest(w, corpus, a, o); }
      assert p in b.parents && b.parents[p].key == a;
    } else {
      assert a in Present(w, corpus) && HasParent(w, a);
      assert HasPoint(w, a) by { PresentIs(w, corpus, a); }
      var p :| p in w.parents && w.parents[p].key == a;
      if TouchedParent(w.meta, keys, p) {
        var n := TakenIsContested(w, corpus, keys, a, p);
      }
      assert Same(b.parents, s.parents, p);
      assert p in b.parents && b.parents[p].key == a;
    }
  }

  /** A rewritten parent of a version without need is taken by a needy version that contests it. */
  lemma TakenIsContested(w: World, corpus: string, keys: set<Key>, a: Key, p: ChunkId) returns (n: Key)
    requires NeedSpreads(w, corpus, keys) && Needy(w, corpus) <= keys && ParentIdsOf(w.parents, w.meta)
    requires p in w.parents && w.parents[p].key == a && TouchedParent(w.meta, keys, p) && a !in Needy(w, corpus)
    ensures Contested(w, corpus, n, a)
  {
    hide NeedSpreads, Needy;
    var id :| TouchedRow(w.meta, keys, id) && RowParent(w.meta.chunks[id]) == p;
    RowsHaveKeys(w, keys, id);
    TouchedIffNeedy(w, corpus, keys, id);
    n :| n in Needy(w, corpus) && RowOf(w.meta.chunks[id], n);
    assert ChildOf(w.meta.chunks[id], a);
  }

  /** A touched parent belongs to an active version of its row's group. */
  lemma OwnerInGroup(w: World, corpus: string, s: World, b: World, keys: set<Key>, id: ChunkId)
    requires Phased(w, corpus, s, b, keys) && TouchedRow(w.meta, keys, id) && RowParent(w.meta.chunks[id]) != ""
    ensures var p := RowParent(w.meta.chunks[id]);
            p in b.parents && b.parents[p].key in ActiveIn(w, corpus) && SameGroup(b.parents[p].key, w.meta.chunks[id].key)
  {
    hide PointsRebuilt, NeedSpreads, Needy, ScannedPoints, WithStatusIn, TouchedRow;
    assert Kin(w.meta, keys, id, id);
    assert TouchedParent(w.meta, keys, RowParent(w.meta.chunks[id]));
  }

  /** Two active versions of a group, one of them needy, contest each other's rows. */
  lemma OthersContest(w: World, corpus: string, n: Key, a: Key)
    requires Rebuildable(w, corpus) && n in Needy(w, corpus) && a in ActiveIn(w, corpus) && a != n && SameGroup(n, a)
    ensures Contested(w, corpus, n, a)
  {
    hide Needy, WithStatusIn;
    var id :| id in w.meta.chunks && ChildOf(w.meta.chunks[id], a) && RowParent(w.meta.chunks[id]) != "";
    assert RowOf(w.meta.chunks[id], n);
  }

  /** Of two active versions that contest each other, at most one keeps its parents. */
  lemma OneKeepsParents(w: World, corpus: string, s: World, b: World, keys: set<Key>, n: Key, a: Key)
    requires Phased(w, corpus, s, b, keys) && ParentsBacked(w, corpus) && Unmixed(w, corpus)
    requires Contested(w, corpus, n, a) && a in ActiveIn(w, corpus)
    ensures !(HasParent(b, n) && HasParent(b, a))
  {
    hide PointsRebuilt, OneOwner, NeedSpreads, Needy, ScannedPoints, WithStatusIn;
    if HasParent(b, n) && HasParent(b, a) {
      var c :| c in w.meta.chunks && ChildOf(w.meta.chunks[c], a) && RowOf(w.meta.chunks[c], n);
      NeedyIsActive(w, corpus, n);
      assert SameGroup(n, a) && n in keys;
      var i := KeptFromRow(w, corpus, s, b, keys, n, n);
      var j := KeptFromRow(w, corpus, s, b, keys, n, a);
      KinShare(w, s, b, keys, i, j);
    }
  }

  lemma KinShare(w: World, s: World, b: World, keys: set<Key>, i: ChunkId, j: ChunkId)
    requires s.meta == w.meta && Rebuilt(s, b, keys)
    requires TouchedRow(w.meta, keys, i) && TouchedRow(w.meta, keys, j) && SameGroup(w.meta.chunks[i].key, w.meta.chunks[j].key)
    requires RowParent(w.meta.chunks[i]) != "" && RowParent(w.meta.chunks[i]) in b.parents
    requires RowParent(w.meta.chunks[j]) != "" && RowParent(w.meta.chunks[j]) in b.parents
    ensures b.parents[RowParent(w.meta.chunks[i])].key == b.parents[RowParent(w.meta.chunks[j])].key
  {
    hide PointsRebuilt, ParentsRebuilt, TouchedRow;
    assert Kin(s.meta, keys, i, j);
  }

  /** A parent that an active version of a rebuilt group has is the touched parent of a row of the group. */
  lemma KeptFromRow(w: World, corpus: string, s: World, b: World, keys: set<Key>, n: Key, a: Key) returns (id: ChunkId)
    requires Phased(w, corpus, s, b, keys) && ParentsBacked(w, corpus) && Unmixed(w, corpus)
    requires n in keys && a in ActiveIn(w, corpus) && SameGroup(n, a) && HasParent(b, a)
    ensures TouchedRow(w.meta, keys, id) && SameGroup(w.meta.chunks[id].key, a)
    ensures RowParent(w.meta.chunks[id]) != "" && RowParent(w.meta.chunks[id]) in b.parents
    ensures b.parents[RowParent(w.meta.chunks[id])].key == a
  {
    hide PointsRebuilt, NeedSpreads, Needy, ScannedPoints, WithStatusIn;
    var p :| p in b.parents && b.parents[p].key == a;
    KeptOrTouched(s, b, keys, p);
    if p in w.parents && w.parents[p].key == a { BackedIsTouched(w, corpus, keys, n, a, p); }
    id :| TouchedRow(w.meta, keys, id) && RowParent(w.meta.chunks[id]) == p;
    OwnerInGroup(w, corpus, s, b, keys, id);
  }

  lemma KeptOrTouched(s: World, b: World, keys: set<Key>, p: ChunkId)
    requires Rebuilt(s, b, keys) && p in b.parents
    ensures TouchedParent(s.meta, keys, p) || (p in s.parents && s.parents[p] == b.parents[p])
  {
    hide PointsRebuilt, OneOwner, TouchedParent;
    if !TouchedParent(s.meta, keys, p) { assert Same(b.parents, s.parents, p); }
  }

  lemma BackedIsTouched(w: World, corpus: string, keys: set<Key>, n: Key, a: Key, p: ChunkId)
    requires ParentsBacked(w, corpus) && Unmixed(w, corpus) && n in keys && a in ActiveIn(w, corpus) && SameGroup(n, a)
    requires p in w.parents && w.parents[p].key == a
    ensures TouchedParent(w.meta, keys, p)
  {
    hide WithStatusIn;
    var id :| id in w.meta.chunks && ChildOf(w.meta.chunks[id], a) && RowParent(w.meta.chunks[id]) == p;
    assert RowOf(w.meta.chunks[id], n);
    assert TouchedRow(w.meta, keys, id);
  }

  /** A contested version that the run does not purge keeps the world from agreeing. */
  lemma ContestedDisagrees(w: World, corpus: string, s: World, b: World, keys: set<Key>, gone: set<DocId>, n: Key, a: Key)
    requires Phased(w, corpus, s, b, keys) && GoneAre(w, corpus, gone) && ParentsBacked(w, corpus) && Unmixed(w, corpus)
    requires Contested(w, corpus, n, a)
    requires !(a in Known(w.meta.documents, corpus) && a !in ActiveIn(w, corpus) && Purged(w, corpus, a.doc))
    ensures !AgreesOutside(w, b, gone, corpus)
  {
    hide NeedSpreads, ScannedPoints, WithStatusIn, HasParent, HasPoint, Regained, Lingers, Rebuilt, Needy, Known, IdsAgree;
    var id :| id in w.meta.chunks && ChildOf(w.meta.chunks[id], a) && RowOf(w.meta.chunks[id], n);
    NeedyIsActive(w, corpus, n);
    TouchedIffNeedy(w, corpus, keys, id);
    TouchedHasPoint(w, s, b, keys, id);
    if a in ActiveIn(w, corpus) {
      OneKeepsParents(w, corpus, s, b, keys, n, a);
      ActiveNotPurged(w, corpus, n);
      ActiveNotPurged(w, corpus, a);
    }
  }

  lemma TouchedHasPoint(w: World, s: World, b: World, keys: set<Key>, id: ChunkId)
    requires s.meta == w.meta && Rebuilt(s, b, keys) && TouchedRow(w.meta, keys, id)
    ensures id in b.points && b.points[id].key == w.meta.chunks[id].key && b.points[id].status == "active"
  {
  }

  lemma ActiveNotPurged(w: World, corpus: string, a: Key)
    requires Unmixed(w, corpus) && a in ActiveIn(w, corpus)
    ensures !Purged(w, corpus, a.doc)
  {
  }

  // ---------------------------------------------------------------------
  // Whole runs
  // ---------------------------------------------------------------------

  /** The phases of a run with both callbacks. */
  lemma RunPhases(w: World, o: Options, active: seq<Key>, deleted: seq<Key>, assemble: Assemble)
    returns (s: World, b: World, keys: set<Key>, gone: set<DocId>)
    requires !o.dryRun && o.rebuild && o.purge && IdsAgree(w, o.corpus) && Orders(w, o.corpus, active, deleted)
    ensures Phased(w, o.corpus, s, b, keys) && GoneAre(w, o.corpus, gone) && Without(b, PurgePhase(b, deleted), gone)
    ensures Reconciled(w, o, active, deleted, assemble) == Finish(w, PurgePhase(b, deleted), o.corpus)
    ensures forall x | x in DeletedIn(w, o.corpus) && Lingers(b, x) :: x.doc in gone
    ensures b == RebuildPhase(s, Present(w, o.corpus), active, assemble)
  {
    hide ScannedPoints, Rebuilt, WithStatusIn, HasPoint, HasParent, Needy, Present, NeedSpreads, PurgePhase, ParentsPhase, Known;
    s := w.(points := ScannedPoints(w, o.corpus));
    b := RebuildPhase(s, Present(w, o.corpus), active, assemble);
    assert forall k | k in active :: k in Elements(active);
    keys := RebuildPhaseIs(w, o.corpus, s, active, assemble);
    forall k | k in Needy(w, o.corpus) ensures k in keys {
      NeedyIsActive(w, o.corpus, k);
      assert k in Elements(active);
    }
    assert b.meta == w.meta by { RebuiltMeta(s, b, keys); }
    assert forall k | k in deleted :: k in Elements(deleted);
    DeletedKnown(w, o.corpus, deleted);
    gone := PurgePhaseTakes(b, deleted);
    forall d: DocId ensures d in gone <==> Purged(w, o.corpus, d) {
      GoneIff(w, o.corpus, s, b, keys, deleted, gone, d);
    }
    assert forall x | x in DeletedIn(w, o.corpus) :: x in Elements(deleted);
  }

  lemma RebuiltMeta(s: World, b: World, keys: set<Key>)
    requires Rebuilt(s, b, keys)
    ensures b.meta == s.meta
  {
  }

  lemma DeletedKnown(w: World, corpus: string, deleted: seq<Key>)
    requires Elements(deleted) == DeletedIn(w, corpus)
    ensures forall k | k in deleted :: k in w.meta.documents
  {
    assert forall k | k in deleted :: k in Elements(deleted);
  }

  lemma GoneIff(w: World, corpus: string, s: World, b: World, keys: set<Key>, deleted: seq<Key>, gone: set<DocId>, d: DocId)
    requires Phased(w, corpus, s, b, keys) && Elements(deleted) == DeletedIn(w, corpus)
    requires forall k | k in deleted && Lingers(b, k) :: k.doc in gone
    requires forall d | d in gone :: exists k :: k in deleted && Lingers(b, k) && k.doc == d
    ensures d in gone <==> Purged(w, corpus, d)
  {
    hide Phased, Lingers, Regained, WithStatusIn;
    if d in gone {
      var k :| k in deleted && Lingers(b, k) && k.doc == d;
      assert k in Elements(deleted);
      LingersIff(w, corpus, s, b, keys, k);
    }
    if Purged(w, corpus, d) {
      var x :| x in DeletedIn(w, corpus) && x.doc == d && (Lingers(w, x) || Regained(w, corpus, x));
      assert x in Elements(deleted);
      LingersIff(w, corpus, s, b, keys, x);
    }
  }

  lemma PhasedCorpus(w: World, corpus: string, s: World, b: World, keys: set<Key>)
    requires Phased(w, corpus, s, b, keys)
    ensures b.meta == w.meta && forall id | id in b.points :: b.points[id].key.doc.corpus == corpus
  {
    hide Needy, NeedSpreads, ScannedPoints, WithStatusIn;
    forall id | id in b.points ensures b.points[id].key.doc.corpus == corpus { PhasedPoint(w, corpus, s, b, keys, id); }
  }

  /** Convergence: one run with both callbacks makes points and parents agree with the control
      plane, in whatever order it visits the versions, if whatever its rebuilds rewrite besides
      their own versions is purged in the same run. */
  lemma OneRunAgrees(w: World, o: Options, active: seq<Key>, deleted: seq<Key>, assemble: Assemble)
    requires !o.dryRun && o.rebuild && o.purge
    requires IdsAgree(w, o.corpus) && Rebuildable(w, o.corpus) && Orders(w, o.corpus, active, deleted)
    requires Converges(w, o.corpus)
    ensures Agrees(Reconciled(w, o, active, deleted, assemble), o.corpus)
  {
    hide Phased, Lingers, WithStatusIn, Known, HasPoint, HasParent, Without, PurgePhase, Reconciled, GoneAre, Finish, IdsAgree,
         Rebuildable, Converges, Orders, Agrees;
    var s, b, keys, gone := RunPhases(w, o, active, deleted, assemble);
    PhasedCorpus(w, o.corpus, s, b, keys);
    AgreesIff(w, b, PurgePhase(b, deleted), gone, o.corpus);
    forall id | id in b.points
      ensures var k := b.points[id].key;
              k in Known(w.meta.documents, o.corpus)
              && (k.doc in gone || (k in ActiveIn(w, o.corpus) <==> b.points[id].status == "active"))
    {
      PointsRightIff(w, o.corpus, s, b, keys, gone, id);
    }
    forall a | a in ActiveIn(w, o.corpus) && a.doc !in gone ensures HasPoint(b, a) && HasParent(b, a) {
      ServedIf(w, o.corpus, s, b, keys, a);
    }
  }

  /** And exactly then: where every parent of an active version belongs to one of its child rows, and
      no document has both a deleted and an active row, one run agrees if and only if the world converges. */
  lemma OneRunAgreesIff(w: World, o: Options, active: seq<Key>, deleted: seq<Key>, assemble: Assemble)
    requires !o.dryRun && o.rebuild && o.purge
    requires IdsAgree(w, o.corpus) && Rebuildable(w, o.corpus) && Orders(w, o.corpus, active, deleted)
    requires ParentsBacked(w, o.corpus) && Unmixed(w, o.corpus)
    ensures Agrees(Reconciled(w, o, active, deleted, assemble), o.corpus) <==> Converges(w, o.corpus)
  {
    hide Phased, Lingers, WithStatusIn, Known, HasPoint, HasParent, Without, PurgePhase, Reconciled, GoneAre, Finish, IdsAgree,
         Rebuildable, Orders, Agrees, Contested, Purged, ParentsBacked, Unmixed;
    if Converges(w, o.corpus) {
      OneRunAgrees(w, o, active, deleted, assemble);
    } else {
      var n, a :| Contested(w, o.corpus, n, a)
        && !(a in Known(w.meta.documents, o.corpus) && a !in ActiveIn(w, o.corpus) && Purged(w, o.corpus, a.doc));
      var s, b, keys, gone := RunPhases(w, o, active, deleted, assemble);
      PhasedCorpus(w, o.corpus, s, b, keys);
      AgreesIff(w, b, PurgePhase(b, deleted), gone, o.corpus);
      ContestedDisagrees(w, o.corpus, s, b, keys, gone, n, a);
    }
  }

  /** The active versions a run leaves are those of the documents it does not purge. */
  lemma ActiveLeft(w: World, o: Options, active: seq<Key>, deleted: seq<Key>, assemble: Assemble, k: Key)
    requires !o.dryRun && o.rebuild && o.purge && IdsAgree(w, o.corpus) && Orders(w, o.corpus, active, deleted)
    ensures k in ActiveIn(Reconciled(w, o, active, deleted, assemble), o.corpus)
            <==> k in ActiveIn(w, o.corpus) && !Purged(w, o.corpus, k.doc)
  {
    hide Phased, Lingers, HasPoint, HasParent, PurgePhase, Reconciled, IdsAgree, Orders, Purged, Regained;
    var s, b, keys, gone := RunPhases(w, o, active, deleted, assemble);
    PhasedCorpus(w, o.corpus, s, b, keys);
    RowsLeft(w, b, PurgePhase(b, deleted), gone, o.corpus, k);
    SameRows(PurgePhase(b, deleted), Reconciled(w, o, active, deleted, assemble), o.corpus);
  }

  /** The run keeps the active set exactly when no document it purges has an active version:
      the purge takes every version. */
  lemma ActiveKeptIff(w: World, o: Options, active: seq<Key>, deleted: seq<Key>, assemble: Assemble)
    requires !o.dryRun && o.rebuild && o.purge && IdsAgree(w, o.corpus) && Orders(w, o.corpus, active, deleted)
    ensures ActiveIn(Reconciled(w, o, active, deleted, assemble), o.corpus) == ActiveIn(w, o.corpus) <==> NoPurgeOfActive(w, o.corpus)
  {
    hide Reconciled, IdsAgree, Orders, Purged, ActiveIn;
    forall k ensures k in ActiveIn(Reconciled(w, o, active, deleted, assemble), o.corpus)
                     <==> k in ActiveIn(w, o.corpus) && !Purged(w, o.corpus, k.doc)
    {
      ActiveLeft(w, o, active, deleted, assemble, k);
    }
  }

  /** Two active versions under one document id and version, of different tenants, one of them needy:
      whatever the orders, no run makes the corpus agree. */
  lemma SharedIdsNeverAgree(w: World, o: Options, active: seq<Key>, deleted: seq<Key>, assemble: Assemble, n: Key, a: Key)
    requires !o.dryRun && o.rebuild && o.purge
    requires IdsAgree(w, o.corpus) && Rebuildable(w, o.corpus) && Orders(w, o.corpus, active, deleted)
    requires ParentsBacked(w, o.corpus) && Unmixed(w, o.corpus)
    requires n in Needy(w, o.corpus) && a in ActiveIn(w, o.corpus) && a != n && SameGroup(n, a)
    ensures !Agrees(Reconciled(w, o, active, deleted, assemble), o.corpus)
  {
    hide Reconciled, Agrees, IdsAgree, Rebuildable, ParentsBacked, Unmixed, Orders, Needy, ActiveIn, Contested, Purged;
    OthersContest(w, o.corpus, n, a);
    OneRunAgreesIff(w, o, active, deleted, assemble);
  }

  // ---------------------------------------------------------------------
  // The second run
  // ---------------------------------------------------------------------

  lemma {:induction false} NothingToRebuild(w: World, present: set<Key>, order: seq<Key>, assemble: Assemble)
    requires forall k | k in order :: k in present && HasParent(w, k)
    ensures RebuildPhase(w, present, order, assemble) == w
  {
    hide Rebuild, HasParent;
    if order != [] {
      assert order == order[..|order| - 1] + [order[|order| - 1]];
      NothingToRebuild(w, present, order[..|order| - 1], assemble);
    }
  }

  lemma {:induction false} NothingToPurge(w: World, order: seq<Key>)
    requires forall k | k in order :: !Lingers(w, k)
    ensures PurgePhase(w, order) == w
  {
    hide Purge, Lingers;
    if order != [] {
      assert order == order[..|order| - 1] + [order[|order| - 1]];
      NothingToPurge(w, order[..|order| - 1]);
    }
  }

  /** Agreement is a fixpoint of the run, with whatever callbacks. */
  lemma AgreementIsFixpoint(w: World, o: Options, active: seq<Key>, deleted: seq<Key>, assemble: Assemble)
    requires Agrees(w, o.corpus) && Orders(w, o.corpus, active, deleted)
    ensures Reconciled(w, o, active, deleted, assemble) == w
  {
    hide Known, WithStatusIn, HasParent, Lingers;
    assert ScannedPoints(w, o.corpus) == w.points;
    forall k | k in active ensures k in Present(w, o.corpus) && HasParent(w, k) { assert k in Elements(active); }
    forall k | k in deleted ensures !Lingers(w, k) { assert k in Elements(deleted); }
    NothingToRebuild(w, Present(w, o.corpus), active, assemble);
    NothingToPurge(w, deleted);
    assert ParentsPhase(w.parents, o.corpus, Known(w.meta.documents, o.corpus), ActiveIn(w, o.corpus)) == w.parents;
  }

  /** Whatever the orders, a second run changes nothing. */
  lemma SecondRunChangesNothing(w: World, o: Options, active: seq<Key>, deleted: seq<Key>,
      active': seq<Key>, deleted': seq<Key>, assemble: Assemble)
    requires !o.dryRun && o.rebuild && o.purge
    requires IdsAgree(w, o.corpus) && Rebuildable(w, o.corpus) && Orders(w, o.corpus, active, deleted)
    requires Converges(w, o.corpus)
    requires Orders(Reconciled(w, o, active, deleted, assemble), o.corpus, active', deleted')
    ensures var once := Reconciled(w, o, active, deleted, assemble);
            Reconciled(once, o, active', deleted', assemble) == once
  {
    hide Reconciled, Agrees, IdsAgree, Rebuildable, Orders, Converges;
    OneRunAgrees(w, o, active, deleted, assemble);
    AgreementIsFixpoint(Reconciled(w, o, active, deleted, assemble), o, active', deleted', assemble);
  }

  // ---------------------------------------------------------------------
  // The parents phase visits parents one by one, in no particular order
  // ---------------------------------------------------------------------

  predicate Astray(p: Parent, corpus: string, known: set<Key>, active: set<Key>) {
    p.key.doc.corpus == corpus && (p.key !in known || (p.key in active <==> !ParentIsLive(p)))
  }

  function PatchVersion(parents: map<ChunkId, Parent>, k: Key, status: string, deprecated: bool): map<ChunkId, Parent> {
    map id | id in parents :: if parents[id].key == k then WithStatus(parents[id], status, deprecated) else parents[id]
  }

  /** One visit: drop an orphan, or patch the whole version of a stale parent. */
  function Visit(parents: map<ChunkId, Parent>, id: ChunkId, corpus: string, known: set<Key>, active: set<Key>): map<ChunkId, Parent> {
    if id !in parents || !Astray(parents[id], corpus, known, active) then parents
    else if parents[id].key !in known then parents - {id}
    else if parents[id].key in active then PatchVersion(parents, parents[id].key, "active", false)
    else PatchVersion(parents, parents[id].key, "inactive", true)
  }

  function Visits(parents: map<ChunkId, Parent>, order: seq<ChunkId>, corpus: string, known: set<Key>, active: set<Key>)
    : map<ChunkId, Parent>
  {
    if order == [] then parents
    else Visit(Visits(parents, order[..|order| - 1], corpus, known, active), order[|order| - 1], corpus, known, active)
  }

  /** The parents when those of `done` have been visited and the versions `patched` patched. */
  ghost function Mended(before: map<ChunkId, Parent>, done: set<ChunkId>, corpus: string, known: set<Key>, active: set<Key>, patched: set<Key>)
    : map<ChunkId, Parent>
  {
    map id | id in before && !(id in done && before[id].key.doc.corpus == corpus && before[id].key !in known) ::
      if before[id].key !in patched then before[id]
      else if before[id].key in active then WithStatus(before[id], "active", false)
      else WithStatus(before[id], "inactive", true)
  }

  /** The patched versions are those of the stale parents visited. */
  ghost predicate PatchedFor(before: map<ChunkId, Parent>, done: set<ChunkId>, corpus: string, known: set<Key>, active: set<Key>, patched: set<Key>) {
    && (forall id | id in before && id in done && Astray(before[id], corpus, known, active) && before[id].key in known ::
          before[id].key in patched)
    && (forall k | k in patched :: k in known && k.doc.corpus == corpus
          && exists id | id in before && id in done :: before[id].key == k && Astray(before[id], corpus, known, active))
  }

  lemma VisitMends(before: map<ChunkId, Parent>, done: set<ChunkId>, corpus: string, known: set<Key>, active: set<Key>,
                   patched: set<Key>, id: ChunkId) returns (patched': set<Key>)
    requires id in before && active <= known && PatchedFor(before, done, corpus, known, active, patched)
    ensures PatchedFor(before, done + {id}, corpus, known, active, patched')
    ensures var now := Mended(before, done, corpus, known, active, patched);
            Visit(now, id, corpus, known, active) == Mended(before, done + {id}, corpus, known, active, patched')
  {
    var now, k := Mended(before, done, corpus, known, active, patched), before[id].key;
    patched' := if id in now && k in known && Astray(now[id], corpus, known, active) then patched + {k} else patched;
    VisitPatches(before, done, corpus, known, active, patched, id);
    hide Visit, Mended;
  }

  lemma VisitPatches(before: map<ChunkId, Parent>, done: set<ChunkId>, corpus: string, known: set<Key>, active: set<Key>,
                     patched: set<Key>, id: ChunkId)
    requires id in before && active <= known && PatchedFor(before, done, corpus, known, active, patched)
    ensures var now, k := Mended(before, done, corpus, known, active, patched), before[id].key;
            var stale := id in now && k in known && Astray(now[id], corpus, known, active);
            && (stale ==> k !in patched && now[id] == before[id])
            && (!stale && k in known && Astray(before[id], corpus, known, active) ==> k in patched)
            && Visit(now, id, corpus, known, active) ==
               Mended(before, done + {id}, corpus, known, active, if stale then patched + {k} else patched)
  {
  }

  lemma {:induction false} VisitsMend(before: map<ChunkId, Parent>, order: seq<ChunkId>, corpus: string, known: set<Key>, active: set<Key>)
    returns (patched: set<Key>)
    requires active <= known && forall id | id in order :: id in before
    ensures PatchedFor(before, Elements(order), corpus, known, active, patched)
    ensures Visits(before, order, corpus, known, active) == Mended(before, Elements(order), corpus, known, active, patched)
  {
    hide Visit, PatchedFor, Astray, Mended;
    patched := {};
    if order == [] {
      assert Elements(order) == {};
      NothingMended(before, corpus, known, active);
    } else {
      var init, id := order[..|order| - 1], order[|order| - 1];
      assert order == init + [id];
      patched := VisitsMend(before, init, corpus, known, active);
      patched := VisitMends(before, Elements(init), corpus, known, active, patched, id);
      ElementsAppend(init, id);
    }
  }

  lemma NothingMended(before: map<ChunkId, Parent>, corpus: string, known: set<Key>, active: set<Key>)
    ensures Mended(before, {}, corpus, known, active, {}) == before && PatchedFor(before, {}, corpus, known, active, {})
  {
  }

  /** Whatever the order, visiting every parent once comes to the same. */
  lemma VisitsInAnyOrder(before: map<ChunkId, Parent>, order: seq<ChunkId>, corpus: string, known: set<Key>, active: set<Key>)
    requires active <= known && Elements(order) == before.Keys
    ensures Visits(before, order, corpus, known, active) == ParentsPhase(before, corpus, known, active)
  {
    assert forall id | id in order :: id in Elements(order);
    var patched := VisitsMend(before, order, corpus, known, active);
    hide Mended, ParentsPhase, PatchedFor, Visits;
    var m, r := Mended(before, before.Keys, corpus, known, active, patched), ParentsPhase(before, corpus, known, active);
    forall id | id in r ensures m[id] == r[id] {
      MendedIs(before, corpus, known, active, patched, id);
    }
    assert m == r;
  }

  lemma MendedIs(before: map<ChunkId, Parent>, corpus: string, known: set<Key>, active: set<Key>, patched: set<Key>, id: ChunkId)
    requires PatchedFor(before, before.Keys, corpus, known, active, patched) && id in ParentsPhase(before, corpus, known, active)
    ensures Mended(before, before.Keys, corpus, known, active, patched)[id] == ParentsPhase(before, corpus, known, active)[id]
  {
    var k := before[id].key;
    if k.doc.corpus == corpus && k !in active {
      if StaleSibling(before, k) {
        var o :| o in before && before[o].key == k && ParentIsLive(before[o]);
        assert Astray(before[o], corpus, known, active);
      } else {
        assert k !in patched;
      }
    }
  }
}
