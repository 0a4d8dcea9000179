/** What a finished run leaves behind, field by field, in terms of its request and of the world it began in. */
module PublishLaws {
  import opened Common
  import opened Policy
  import opened ControlPlane
  import opened Lifecycle
  import opened MetadataLaws
  import opened DataPlane
  import opened Stores
  import opened Ingestion
  import opened PlaneWrites
  import opened IngestionProgress
  import opened Restarts
  import opened IngestionVisibility
  import opened Interruptions
  import opened CrashRefinement

  /** `v` is the version this build replaces: the one recorded with its lease, or the active one at the first claim. */
  ghost predicate Replaces(w: World, q: Request, v: Version) {
    && v != "" && v != q.key.version
    && (if q.key in w.meta.builds then w.meta.builds[q.key].previous == Some(v)
        else exists k :: k in w.meta.documents && k == Key(q.key.doc, v) && w.meta.documents[k].status == Active)
  }

  ghost predicate OwnId(q: Request, id: ChunkId) {
    OwnParent(q, id) || OwnChild(q, id)
  }

  /** A row of the replaced version that the new build does not overwrite. */
  ghost predicate Superseded(w: World, q: Request, id: ChunkId, isParent: bool) {
    && id in w.meta.chunks && !OwnId(q, id)
    && var row := w.meta.chunks[id];
       row.isParent == isParent && row.key.doc == q.key.doc && Replaces(w, q, row.key.version)
  }

  /** The new version's points are active under the new ACL; the replaced version's keep their row's key,
      parent and text, but are inactive; no other point moves. */
  ghost predicate PointsEnd(w: World, q: Request, points: map<ChunkId, Point>) {
    && (forall i | 0 <= i < |q.children| ::
          var c := q.children[i];
          c.id in points && points[c.id] == Point(q.key, c.parent, c.text, "active", false, q.acl))
    && (forall id | Superseded(w, q, id, false) ::
          && id in points && var row, p := w.meta.chunks[id], points[id];
          && p.key == row.key && (if row.parent.Some? then p.parent == row.parent.value else p.parent == "")
          && p.text == row.content && p.status == "inactive" && !p.deprecated && p.acl == q.acl)
    && (forall id | !OwnChild(q, id) && !Superseded(w, q, id, false) :: Same(points, w.points, id))
  }

  ghost predicate OwnParentsEnd(q: Request, parents: map<ChunkId, Parent>) {
    forall i | 0 <= i < |q.parents| ::
      var p := q.parents[i]; p.id in parents && parents[p.id] == Parent(q.key, p.text, "active", false, q.acl)
  }

  /** The replaced version's parents are inactive and deprecated, whatever else they are; no other parent moves. */
  ghost predicate OtherParentsEnd(w: World, q: Request, parents: map<ChunkId, Parent>) {
    && (forall id | Superseded(w, q, id, true) ::
          && (id in parents <==> id in w.parents)
          && (id in parents ==> parents[id] == w.parents[id].(status := "inactive", deprecated := true)))
    && (forall id | !OwnParent(q, id) && !Superseded(w, q, id, true) :: Same(parents, w.parents, id))
  }

  ghost predicate RowsEnd(w: World, q: Request, chunks: map<ChunkId, ChunkRow>) {
    && (forall i | 0 <= i < |q.children| ::
          var c := q.children[i];
          c.id in chunks && chunks[c.id] == ChunkRow(q.key, Some(c.parent), false, c.text, q.acl))
    && (forall i | 0 <= i < |q.parents| ::
          var p := q.parents[i]; p.id in chunks && chunks[p.id] == ChunkRow(q.key, None, true, p.text, q.acl))
    && (forall id | !OwnId(q, id) :: Same(chunks, w.meta.chunks, id))
  }

  /** The new row is active one revision up, and the row that was active before is deprecated at the same
      revision; a row already active stays as it is. */
  ghost predicate DocumentsEnd(w: World, q: Request, docs: map<Key, DocRow>) {
    var before, rev := w.meta.documents, MaxRevision(w.meta.documents, q.key.doc) + 1;
    if q.key in before && before[q.key].status == Active then docs == before
    else SwitchedRows(before, docs, q.key, DocRow(Active, false, rev, q.hash, q.acl), rev)
  }

  ghost predicate SwitchedRows(before: map<Key, DocRow>, docs: map<Key, DocRow>, key: Key, row: DocRow, rev: nat) {
    && key in docs && docs[key] == row
    && (forall k: Key | k != key :: k in docs <==> k in before)
    && (forall k: Key | k != key && k in docs ::
          if k.doc == key.doc && before[k].status == Active
          then docs[k] == DocRow(Deprecated, true, rev, before[k].hash, before[k].acl)
          else docs[k] == before[k])
  }

  // ---------------------------------------------------------------------
  // Proofs
  // ---------------------------------------------------------------------

  lemma OwnSets(q: Request, id: ChunkId)
    ensures OwnChild(q, id) <==> id in ChildIds(q)
    ensures OwnParent(q, id) <==> id in ParentIds(q)
  {
  }

  lemma ReplacesIff(w: World, q: Request, v: Version)
    requires Startable(w, q)
    ensures Replaces(w, q, v) <==> Replaced(q, Prev(w, q)) == Some(Key(q.key.doc, v))
  {
    hide ActiveVersion, MaxRevision, WellFormed, OnlyOwnRows;
    var k := Key(q.key.doc, v);
    if IsActive(w.meta.documents, k) { ActiveVersionIs(w.meta.documents, k); }
  }

  lemma RetiredIff(w: World, q: Request, isParent: bool, id: ChunkId)
    requires Startable(w, q)
    ensures id in Retired(w, q, isParent) <==> Superseded(w, q, id, isParent)
    ensures id in Retired(w, q, isParent) ==> id in Built(w, q).chunks && Built(w, q).chunks[id] == w.meta.chunks[id]
  {
    hide Startable, Prev, Replaces, RowEntries, OwnParent, OwnChild, ParentIds, ChildIds, Replaced, PointEntries, ParentEntries;
    OwnSets(q, id);
    RowEntriesKeyed(q);
    assert Built(w, q).chunks == w.meta.chunks + RowEntries(q);
    hide Built;
    NotReplaced(q, Prev(w, q));
    if id in w.meta.chunks { ReplacesIff(w, q, w.meta.chunks[id].key.version); }
    ReplacedDoc(q, Prev(w, q));
  }

  lemma NotReplaced(q: Request, recorded: Option<Version>)
    ensures Replaced(q, recorded) != Some(q.key)
  {
  }

  lemma ReplacedDoc(q: Request, recorded: Option<Version>)
    ensures forall k | Replaced(q, recorded) == Some(k) :: k == Key(q.key.doc, k.version)
  {
  }

  lemma PointsLeft(w: World, q: Request)
    requires Startable(w, q)
    ensures PointsEnd(w, q, FinalPlanes(w, q).points)
  {
    hide Startable, FinalPlanes, Built, Superseded, Retired, OwnChild, ChildIds, PointEntries;
    StartWellFormed(w, q);
    FinalHas(w, q);
    var points := FinalPlanes(w, q).points;
    forall id ensures Superseded(w, q, id, false) <==> id in Retired(w, q, false) { RetiredIff(w, q, false, id); }
    forall id | Superseded(w, q, id, false)
      ensures && id in points && id in w.meta.chunks && var row, p := w.meta.chunks[id], points[id];
              && p.key == row.key && (if row.parent.Some? then p.parent == row.parent.value else p.parent == "")
              && p.text == row.content && p.status == "inactive" && !p.deprecated && p.acl == q.acl
    {
      SupersededRow(w, q, id, false);
      RetiredIff(w, q, false, id);
      FinalPoint(w, q, id);
    }
    forall id | !OwnChild(q, id) && !Superseded(w, q, id, false) ensures Same(points, w.points, id) {
      OwnSets(q, id);
      FinalPoint(w, q, id);
    }
  }

  lemma SupersededRow(w: World, q: Request, id: ChunkId, isParent: bool)
    requires Superseded(w, q, id, isParent)
    ensures id in w.meta.chunks && !OwnParent(q, id) && !OwnChild(q, id)
  {
  }

  lemma ParentsLeft(w: World, q: Request)
    requires Startable(w, q)
    ensures OwnParentsEnd(q, FinalPlanes(w, q).parents) && OtherParentsEnd(w, q, FinalPlanes(w, q).parents)
  {
    hide Startable, FinalPlanes, Built, Superseded, Retired, OwnParent, ParentIds, ParentEntries;
    StartWellFormed(w, q);
    FinalHas(w, q);
    BuiltParents(w, q);
    var parents, b := FinalPlanes(w, q).parents, ParentsWritten(PlanesOf(w), q).parents;
    forall id ensures Superseded(w, q, id, true) <==> id in Retired(w, q, true) { RetiredIff(w, q, true, id); }
    forall id | Superseded(w, q, id, true)
      ensures && (id in parents <==> id in w.parents)
              && (id in parents ==> parents[id] == w.parents[id].(status := "inactive", deprecated := true))
    {
      SupersededRow(w, q, id, true);
      OwnSets(q, id);
      FinalParent(w, q, id);
    }
    forall id | !OwnParent(q, id) && !Superseded(w, q, id, true) ensures Same(parents, w.parents, id) {
      OwnSets(q, id);
      FinalParent(w, q, id);
    }
  }

  lemma RowsLeft(w: World, q: Request)
    requires Startable(w, q)
    ensures RowsEnd(w, q, FinalPlanes(w, q).chunks)
  {
    hide Startable, RowEntries, OwnParent, OwnChild, ParentIds, ChildIds, PointEntries, ParentEntries, Prev, Replaced;
    StartWellFormed(w, q);
    BuiltHas(w, q);
    RowEntriesKeyed(q);
    assert FinalPlanes(w, q).chunks == Built(w, q).chunks == w.meta.chunks + RowEntries(q);
    hide Built, FinalPlanes;
    forall id | !OwnId(q, id) ensures Same(FinalPlanes(w, q).chunks, w.meta.chunks, id) { OwnSets(q, id); }
  }

  lemma DocumentsLeft(w: World, q: Request)
    requires Startable(w, q)
    ensures DocumentsEnd(w, q, FinalDocs(w, q))
  {
    hide Startable, FinalDocs, ClaimedDocs, MaxRevision, SwitchedTo, SwitchedRows;
    StartRows(w, q);
    if !IsActive(w.meta.documents, q.key) {
      FinalIsSwitch(w, q);
      SwitchedFromClaimed(w.meta.documents, w.meta.(documents := ClaimedDocs(w, q)), w.meta.(documents := FinalDocs(w, q)), q.key);
    } else {
      ActiveStays(w, q);
    }
  }

  lemma ActiveStays(w: World, q: Request)
    requires IsActive(w.meta.documents, q.key)
    ensures FinalDocs(w, q) == w.meta.documents
  {
    hide MaxRevision, ActiveVersion, SwitchActive;
  }

  lemma FinalIsSwitch(w: World, q: Request)
    requires Startable(w, q) && !IsActive(w.meta.documents, q.key)
    ensures SwitchedTo(w.meta.(documents := ClaimedDocs(w, q)), w.meta.(documents := FinalDocs(w, q)), q.key)
  {
    hide Startable, MaxRevision, ActiveVersion, SwitchActive, SwitchedTo, SoundDocuments, UpsertBuild;
    StartRows(w, q);
    var claimed := ClaimedDocs(w, q);
    OneActive(claimed);
    InactiveIsOther(claimed, q.key);
    SwitchLeaves(w.meta.(documents := claimed), q.key);
  }

  lemma InactiveIsOther(docs: map<Key, DocRow>, k: Key)
    ensures !IsActive(docs, k) ==> ActiveVersion(docs, k.doc) != Some(k.version)
  {
    hide MaxRevision;
    assert k == Key(k.doc, k.version);
  }

  /** What a switch on the claimed rows leaves, against the rows before the claim. */
  lemma SwitchedFromClaimed(docs: map<Key, DocRow>, s: State, s': State, key: Key)
    requires SwitchedTo(s, s', key) && forall k | k != key :: Same(s.documents, docs, k)
    ensures var rev := MaxRevision(s.documents, key.doc) + 1;
            key in s.documents
            && SwitchedRows(docs, s'.documents, key, s.documents[key].(status := Active, deprecated := false, revision := rev), rev)
  {
    hide MaxRevision;
    forall k | k != key ensures (k in s'.documents <==> k in docs) && (k in docs ==> s.documents[k] == docs[k]) {
      assert Same(s.documents, docs, k);
      assert k in s'.documents.Keys <==> k in s.documents.Keys;
    }
  }

  lemma StartRows(w: World, q: Request)
    requires Startable(w, q)
    ensures SoundDocuments(w.meta.documents)
    ensures var docs, claimed := w.meta.documents, ClaimedDocs(w, q);
            && (forall k | k != q.key :: Same(claimed, docs, k))
            && (if IsActive(docs, q.key) then claimed == docs
                else claimed[q.key].status == Processing && claimed[q.key].hash == q.hash && claimed[q.key].acl == q.acl)
            && (IsActive(claimed, q.key) <==> IsActive(docs, q.key))
            && SoundDocuments(claimed) && MaxRevision(claimed, q.key.doc) == MaxRevision(docs, q.key.doc)
  {
    hide MaxRevision, ActiveVersion, SoundDocuments, WellFormed, OnlyOwnRows;
    UpsertMoves(w.meta.documents, q.key, q.hash, q.acl, q.key.doc);
  }

  /** The rows and stores of one uninterrupted run. */
  lemma RunEnds(w: World, q: Request, plain: string)
    requires Startable(w, q)
    ensures var (w', status) := Attempt(w, q, plain, true, None, Kill);
            && status == Indexed && PointsEnd(w, q, w'.points) && RowsEnd(w, q, w'.meta.chunks)
            && OwnParentsEnd(q, w'.parents) && OtherParentsEnd(w, q, w'.parents) && DocumentsEnd(w, q, w'.meta.documents)
  {
    hide Startable, Attempt, FinalPlanes, FinalDocs, PointsEnd, RowsEnd, OwnParentsEnd, OtherParentsEnd, DocumentsEnd;
    PlainRun(w, q, plain);
    PointsLeft(w, q);
    ParentsLeft(w, q);
    RowsLeft(w, q);
    DocumentsLeft(w, q);
  }

  /** However an attempt was interrupted: behind a recovery without trace the same holds, but for other
      builds' parents where the process has ended. */
  lemma RecoveryEnds(w: World, q: Request, lost: bool, plain: string, recovered: World, status: Status)
    requires Startable(w, q) && NoTrace(w, q, lost, plain, recovered, status)
    ensures PointsEnd(w, q, recovered.points) && RowsEnd(w, q, recovered.meta.chunks)
    ensures OwnParentsEnd(q, recovered.parents) && DocumentsEnd(w, q, recovered.meta.documents)
    ensures !lost ==> OtherParentsEnd(w, q, recovered.parents)
  {
    hide Startable, Attempt, PointsEnd, RowsEnd, OtherParentsEnd, DocumentsEnd, JobSucceeded, ParentIds;
    RunEnds(w, q, plain);
    forall i | 0 <= i < |q.parents| ensures q.parents[i].id in ParentIds(q) { IsOwnParent(q, i); }
  }

  lemma IsOwnParent(q: Request, i: nat)
    requires i < |q.parents|
    ensures q.parents[i].id in ParentIds(q)
  {
  }

  /** A replaced version's points are found by nobody, whatever corpus is searched. */
  lemma ReplacedIsHidden(w: World, q: Request, points: map<ChunkId, Point>, id: ChunkId, ctx: SecurityContext, corpus: string)
    requires PointsEnd(w, q, points) && Superseded(w, q, id, false)
    ensures id in points && !PassesSearch(points[id], ctx, corpus)
  {
    hide Superseded, EvaluateAccess;
    assert "inactive"[0] != "active"[0];
  }

  /** And its parents admit no hit. */
  lemma ReplacedParentIsHidden(w: World, q: Request, parents: map<ChunkId, Parent>, hit: Point, ctx: SecurityContext)
    requires OtherParentsEnd(w, q, parents) && Superseded(w, q, hit.parent, true)
    ensures LoadParent(parents, hit, ctx).Err?
  {
    hide Superseded, EvaluateAccess;
  }

  // ---------------------------------------------------------------------
  // What verification notices
  // ---------------------------------------------------------------------

  /** Of an own point, verification notices a changed identity, parent or lifecycle, and nothing else. */
  lemma TamperedPointIsNoticedIff(w: World, q: Request, i: nat, p: Point)
    requires WellFormed(q) && PlanesComplete(w, q) && i < |q.children|
    ensures var id := q.children[i].id;
            id in w.points && var was := w.points[id];
            PlanesComplete(w.(points := w.points[id := p]), q)
            <==> p.key == was.key && p.parent == was.parent && p.status == was.status && p.deprecated == was.deprecated
  {
    var id := q.children[i].id;
    var w' := w.(points := w.points[id := p]);
    forall j | 0 <= j < |q.children| && j != i ensures q.children[j].id != id { ChildrenApart(q, i, j); }
  }

  lemma ChildrenApart(q: Request, i: nat, j: nat)
    requires WellFormed(q) && i < |q.children| && j < |q.children| && i != j
    ensures q.children[i].id != q.children[j].id
  {
  }

  /** Of an own parent it notices a changed identity only. */
  lemma TamperedParentIsNoticedIff(w: World, q: Request, i: nat, p: Parent)
    requires WellFormed(q) && PlanesComplete(w, q) && i < |q.parents|
    ensures var id := q.parents[i].id;
            id in w.parents && (PlanesComplete(w.(parents := w.parents[id := p]), q) <==> p.key == w.parents[id].key)
  {
    var id := q.parents[i].id;
    var w' := w.(parents := w.parents[id := p]);
    forall j | 0 <= j < |q.parents| && j != i ensures q.parents[j].id != id { ParentsApart(q, i, j); }
  }

  lemma ParentsApart(q: Request, i: nat, j: nat)
    requires WellFormed(q) && i < |q.parents| && j < |q.parents| && i != j
    ensures q.parents[i].id != q.parents[j].id
  {
  }

  /** It notices every missing entry. */
  lemma LossIsNoticed(w: World, q: Request, id: ChunkId)
    requires OwnId(q, id)
    ensures OwnChild(q, id) ==> !PlanesComplete(w.(points := w.points - {id}), q)
    ensures OwnParent(q, id) ==> !PlanesComplete(w.(parents := w.parents - {id}), q)
  {
    hide ChunkIds;
  }

  /** It notices every chunk row too few or too many. */
  lemma MiscountIsNoticed(w: World, q: Request, id: ChunkId, row: ChunkRow)
    requires PlanesComplete(w, q)
    ensures id in w.meta.chunks && w.meta.chunks[id].key == q.key ==>
              !PlanesComplete(w.(meta := w.meta.(chunks := w.meta.chunks - {id})), q)
    ensures id !in w.meta.chunks && row.key == q.key ==>
              !PlanesComplete(w.(meta := w.meta.(chunks := w.meta.chunks[id := row])), q)
  {
    var ids, n := ChunkIds(w.meta, q.key), |q.parents| + |q.children|;
    assert PlanesComplete(w, q) ==> |ids| == n;
    var fewer := w.(meta := w.meta.(chunks := w.meta.chunks - {id}));
    var more := w.(meta := w.meta.(chunks := w.meta.chunks[id := row]));
    assert id in ids ==> ChunkIds(fewer.meta, q.key) == ids - {id};
    assert id !in w.meta.chunks && row.key == q.key ==> ChunkIds(more.meta, q.key) == ids + {id};
    RowCount(fewer, q);
    RowCount(more, q);
    hide PlanesComplete;
  }

  lemma RowCount(w: World, q: Request)
    ensures PlanesComplete(w, q) ==> |ChunkIds(w.meta, q.key)| == |q.parents| + |q.children|
  {
  }

  /** It notices a document row that is missing or cannot be committed. */
  lemma UncommittableIsNoticedIff(w: World, q: Request, status: DocStatus)
    requires PlanesComplete(w, q)
    ensures !PlanesComplete(w.(meta := w.meta.(documents := w.meta.documents - {q.key})), q)
    ensures q.key in w.meta.documents && var r := w.meta.documents[q.key].(status := status);
            PlanesComplete(w.(meta := w.meta.(documents := w.meta.documents[q.key := r])), q)
            <==> status != Discovered && status != Deprecated && status != Deleted
  {
    var r := w.meta.documents[q.key].(status := status);
    assert ChunkIds(w.meta.(documents := w.meta.documents[q.key := r]), q.key) == ChunkIds(w.meta, q.key);
  }

  // ---------------------------------------------------------------------
  // What an attempt turns away
  // ---------------------------------------------------------------------

  /** The job id or the version is known with another document or other content. */
  predicate Contradicts(w: World, q: Request) {
    || (q.job in w.meta.jobs && (w.meta.jobs[q.job].key != q.key || w.meta.jobs[q.job].rawHash != q.hash))
    || (q.key in w.meta.documents && w.meta.documents[q.key].hash != q.hash)
  }

  /** The version has been superseded, or is active and its build has succeeded. */
  predicate Settled(w: World, q: Request) {
    && q.key in w.meta.documents
    && match w.meta.documents[q.key].status
       case Deprecated => true
       case Active =>
         && q.key in w.meta.builds && w.meta.builds[q.key].owner in w.meta.jobs
         && w.meta.jobs[w.meta.builds[q.key].owner].status == Succeeded
       case _ => false
  }

  /** An attempt is rejected exactly when it contradicts what is known, and done already exactly when its
      version is settled; then stores, document rows, chunk rows and markers stay as they are. */
  lemma TurnedAwayIff(w: World, q: Request, attempt: string, recover: bool, budget: Option<nat>, cutting: Cutting, switched: bool)
    ensures var (w', status) := AttemptBy(w, q, attempt, recover, budget, cutting, switched);
            && (status == Rejected <==> Contradicts(w, q))
            && (status == AlreadyDone <==> !Contradicts(w, q) && Settled(w, q))
            && (status == Rejected ==> w' == w)
            && (status == AlreadyDone ==>
                  PlanesOf(w') == PlanesOf(w) && w'.meta.documents == w.meta.documents && w'.meta.steps == w.meta.steps)
  {
    hide AcquireJob, RunHeld, Stopped;
    EnterIs(w, q);
    hide Enter, Contradicts, Settled;
    if Enter(w, q).Proceed? {
      var (meta, acquired) := AcquireJob(w.meta, AcquireFor(w, q, attempt, recover));
      StoppedStatus(w, q, 0, switched, cutting);
      StoppedStatus(w.(meta := meta), q, 0, switched, cutting);
      if budget != Some(0) && acquired.Acquired? && Spend(budget) != Some(0) {
        HeldStatus(w.(meta := MarkStep(meta, q.job, Acquire)), q, acquired.generation, Spend(Spend(budget)), cutting, switched);
      }
    }
  }

  lemma EnterIs(w: World, q: Request)
    ensures Enter(w, q).IdentityRejected? || Enter(w, q).ContentRejected? <==> Contradicts(w, q)
    ensures Enter(w, q).AlreadyIndexed? <==> !Contradicts(w, q) && Settled(w, q)
  {
  }

  lemma StoppedStatus(w: World, q: Request, g: nat, switched: bool, cutting: Cutting)
    ensures Stopped(w, q, g, switched, cutting).1 in {Interrupted, FailedRun}
  {
    hide RunOps, FailureOps;
  }

  lemma HeldStatus(w: World, q: Request, g: nat, budget: Option<nat>, cutting: Cutting, switched: bool)
    ensures RunHeld(w, q, g, budget, cutting, switched).1 in {Indexed, Conflict, Interrupted, FailedRun}
  {
    hide RunOps, FailureOps, RunSteps;
  }
}
