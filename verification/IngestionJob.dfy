/** The ingestion job over mutable stores: every step is a method proved against the
    step's writes, and a whole run against an uncut attempt. */
module IngestionJobs {
  import opened Common
  import opened Policy
  import opened ControlPlane
  import opened Lifecycle
  import opened DataPlane
  import opened Stores
  import opened MetadataStores
  import opened Ingestion
  import opened PlaneWrites
  import opened IngestionProgress

  // ---------------------------------------------------------------------
  // Growing a run by one write
  // ---------------------------------------------------------------------

  /** Running these writes without a cut leaves `w'`. */
  ghost predicate Ran(w: World, q: Request, ops: seq<Op>, switched: bool, w': World) {
    RunOps(w, q, ops, None, switched) == Completed(w', None, switched)
  }

  lemma RanMore(w: World, q: Request, ops: seq<Op>, switched: bool, w': World, op: Op)
    requires Ran(w, q, ops, switched, w') && Admits(w', q, op) && !op.SwitchVersion?
    ensures Ran(w, q, ops + [op], switched, Effect(w', q, op))
  {
    hide Admits, Effect;
    RunOpsConcat(w, q, ops, [op], None, switched);
    RunFirst(w', q, op, [], None, switched);
    assert [op] + [] == [op];
  }

  lemma RanThen(w: World, q: Request, a: seq<Op>, b: seq<Op>, switched: bool, w': World, w'': World)
    requires Ran(w, q, a, switched, w') && Ran(w', q, b, switched, w'')
    ensures Ran(w, q, a + b, switched, w'')
  {
    RunOpsConcat(w, q, a, b, None, switched);
  }

  lemma RanArrives(w: World, q: Request, ops: seq<Op>, switched: bool, b: Planes)
    requires AllAdvance(PlanesOf(w), b, ops) && Covers(PlanesOf(w), b, ops)
    ensures Ran(w, q, ops, switched, World(w.meta.(chunks := b.chunks), b.points, b.parents))
  {
    hide BetweenPlanes, AllAdvance, Covers, Hit;
    BetweenSelf(PlanesOf(w), b);
    OpsAdvance(PlanesOf(w), b, w, q, ops, None, switched);
    var r := RunOps(w, q, ops, None, switched);
    forall op | op in ops ensures PlaneOp(op) && Hit(PlanesOf(r.world), b, op) {
      var i :| 0 <= i < |ops| && ops[i] == op;
      AdvancesAt(PlanesOf(w), b, ops, i);
    }
    CoveredArrives(PlanesOf(w), b, PlanesOf(r.world), ops);
  }

  // ---------------------------------------------------------------------
  // Rows come back in no particular order
  // ---------------------------------------------------------------------

  ghost function AllRetiredParents(p: Planes, ids: set<ChunkId>): Planes {
    p.(parents := map id | id in p.parents :: if id in ids then WithStatus(p.parents[id], "inactive", true) else p.parents[id])
  }

  ghost function AllRetiredPoints(p: Planes, q: Request, chunks: map<ChunkId, ChunkRow>, ids: set<ChunkId>): Planes
    requires ids <= chunks.Keys
  {
    p.(points := p.points + map id | id in ids :: RetiredPoint(q, chunks[id]))
  }

  lemma RetireParentsInAnyOrder(w: World, q: Request, ids: seq<ChunkId>, switched: bool)
    ensures var b := AllRetiredParents(PlanesOf(w), Elements(ids));
            Ran(w, q, RetireParentOps(ids), switched, w.(parents := b.parents))
  {
    var a := PlanesOf(w);
    var b, ops := AllRetiredParents(a, Elements(ids)), RetireParentOps(ids);
    assert AllAdvance(a, b, ops);
    forall id | !Same(a.parents, b.parents, id) ensures exists op | op in ops :: TouchesParent(op, id) {
      var i :| 0 <= i < |ids| && ids[i] == id;
      assert TouchesParent(ops[i], id);
    }
    assert Covers(a, b, ops);
    RanArrives(w, q, ops, switched, b);
  }

  lemma RetirePointsInAnyOrder(w: World, q: Request, chunks: map<ChunkId, ChunkRow>, ids: seq<ChunkId>, switched: bool)
    requires Elements(ids) <= chunks.Keys
    ensures forall id | id in ids :: id in chunks
    ensures var b := AllRetiredPoints(PlanesOf(w), q, chunks, Elements(ids));
            Ran(w, q, RetirePointOps(q, chunks, ids), switched, w.(points := b.points))
  {
    hide RetiredPoint;
    assert forall id | id in ids :: id in Elements(ids);
    var a := PlanesOf(w);
    var b, ops := AllRetiredPoints(a, q, chunks, Elements(ids)), RetirePointOps(q, chunks, ids);
    assert AllAdvance(a, b, ops);
    forall id | !Same(a.points, b.points, id) ensures exists op | op in ops :: TouchesPoint(op, id) {
      var i :| 0 <= i < |ids| && ids[i] == id;
      assert TouchesPoint(ops[i], id);
    }
    assert Covers(a, b, ops);
    RanArrives(w, q, ops, switched, b);
  }

  ghost function PointDrops(q: Request): seq<Op> {
    seq(|q.children|, i requires 0 <= i < |q.children| => DropPoint(q.children[i].id))
  }

  ghost function ParentDrops(q: Request): seq<Op> {
    seq(|q.parents|, i requires 0 <= i < |q.parents| => DropParent(q.parents[i].id))
  }

  ghost function RecordDrops(q: Request): seq<Op> {
    [Control(DoDeleteChunks(q.key)), Control(DoClearSteps(q.job)), Control(DoFail(q.key))]
  }

  lemma CompensationIs(q: Request)
    ensures CompensationOps(q) == PointDrops(q) + ParentDrops(q) + RecordDrops(q)
  {
  }

  datatype StepResult = Done | LostLease | Refused(op: Op)

  class IngestionJob {
    const request: Request
    const store: MetadataStore
    const vector: VectorStore
    const parents: ParentStore
    var leaseGeneration: nat
    var commitPerformed: bool

    constructor (request: Request, store: MetadataStore, vector: VectorStore, parents: ParentStore)
      ensures this.request == request && this.store == store && this.vector == vector && this.parents == parents
      ensures leaseGeneration == 0 && !commitPerformed
    {
      this.request, this.store, this.vector, this.parents := request, store, vector, parents;
      leaseGeneration, commitPerformed := 0, false;
    }

    ghost function Now(): World
      reads store, vector, parents
    {
      World(store.Tables(), vector.points, parents.entries)
    }

    /** What running `ops` from `w` comes to, as a result and the present world. */
    ghost predicate Runs(w: World, ops: seq<Op>, switched: bool, result: StepResult)
      reads this, store, vector, parents
    {
      RunOps(w, request, ops, None, switched) ==
      match result {
        case Done => Completed(Now(), None, commitPerformed)
        case LostLease => Raised(Now(), None, commitPerformed, CheckOwner(leaseGeneration))
        case Refused(op) => Raised(Now(), None, commitPerformed, op)
      }
    }

    // -------------------------------------------------------------------
    // Loops over the chunker's output
    // -------------------------------------------------------------------

    method PutParents()
      modifies parents
      ensures Ran(old(Now()), request, WriteParentsOps(request), commitPerformed, Now())
    {
      ghost var ops := WriteParentsOps(request);
      assert ops[..0] == [];
      var i := 0;
      while i < |request.parents|
        invariant i <= |request.parents|
        invariant Ran(old(Now()), request, ops[..i], commitPerformed, Now())
      {
        hide Ran, Effect;
        ghost var before := Now();
        var p := request.parents[i];
        parents.Put(p.id, ParentValue(request, p));
        Put(before, ops[i]);
        RanMore(old(Now()), request, ops[..i], commitPerformed, before, ops[i]);
        assert ops[..i + 1] == ops[..i] + [ops[i]];
        i := i + 1;
      }
      assert ops[..i] == ops;
    }

    /** What one write leaves, spelled out. */
    lemma Put(w: World, op: Op)
      ensures op.PutParent? ==> Effect(w, request, op) == w.(parents := w.parents[op.id := op.parent])
      ensures op.PutPoint? ==> Effect(w, request, op) == w.(points := w.points[op.id := op.point])
      ensures op.PromoteParent? ==> Effect(w, request, op) == w.(parents := ActivatedIn(w.parents, op.id))
      ensures op.Control? && op.action.DoUpsertChunk? ==>
                Effect(w, request, op) == w.(meta := UpsertChunk(w.meta, op.action.id, op.action.row))
      ensures op.DropPoint? ==> Effect(w, request, op) == w.(points := w.points - {op.id})
      ensures op.DropParent? ==> Effect(w, request, op) == w.(parents := w.parents - {op.id})
    {
    }

    method PutPoints(status: string)
      modifies vector
      ensures Ran(old(Now()), request, PointOps(request, status), commitPerformed, Now())
    {
      ghost var ops := PointOps(request, status);
      assert ops[..0] == [];
      var i := 0;
      while i < |request.children|
        invariant i <= |request.children|
        invariant Ran(old(Now()), request, ops[..i], commitPerformed, Now())
      {
        hide Ran, Effect;
        ghost var before := Now();
        var c := request.children[i];
        vector.Upsert(c.id, PointValue(request, c, status));
        Put(before, ops[i]);
        RanMore(old(Now()), request, ops[..i], commitPerformed, before, ops[i]);
        assert ops[..i + 1] == ops[..i] + [ops[i]];
        i := i + 1;
      }
      assert ops[..i] == ops;
    }

    method PromoteParents()
      modifies parents
      ensures Ran(old(Now()), request, PromoteOps(request), commitPerformed, Now())
    {
      ghost var ops := PromoteOps(request);
      assert ops[..0] == [];
      var i := 0;
      while i < |request.parents|
        invariant i <= |request.parents|
        invariant Ran(old(Now()), request, ops[..i], commitPerformed, Now())
      {
        hide Ran, Effect;
        ghost var before := Now();
        parents.Activate(request.parents[i].id);
        Put(before, ops[i]);
        RanMore(old(Now()), request, ops[..i], commitPerformed, before, ops[i]);
        assert ops[..i + 1] == ops[..i] + [ops[i]];
        i := i + 1;
      }
      assert ops[..i] == ops;
    }

    method RecordChildren()
      requires store.Valid()
      modifies store
      ensures store.Valid()
      ensures Ran(old(Now()), request, ChildRowOps(request), commitPerformed, Now())
    {
      ghost var ops := ChildRowOps(request);
      assert ops[..0] == [];
      var i := 0;
      while i < |request.children|
        invariant i <= |request.children| && store.Valid()
        invariant Ran(old(Now()), request, ops[..i], commitPerformed, Now())
      {
        hide Ran, Effect, Inv;
        ghost var before := Now();
        var c := request.children[i];
        store.UpsertChunkRecord(c.id, ChildRow(request, c));
        Put(before, ops[i]);
        RanMore(old(Now()), request, ops[..i], commitPerformed, before, ops[i]);
        assert ops[..i + 1] == ops[..i] + [ops[i]];
        i := i + 1;
      }
      assert ops[..i] == ops;
    }

    method RecordParents()
      requires store.Valid()
      modifies store
      ensures store.Valid()
      ensures Ran(old(Now()), request, ParentRowOps(request), commitPerformed, Now())
    {
      ghost var ops := ParentRowOps(request);
      assert ops[..0] == [];
      var i := 0;
      while i < |request.parents|
        invariant i <= |request.parents| && store.Valid()
        invariant Ran(old(Now()), request, ops[..i], commitPerformed, Now())
      {
        hide Ran, Effect, Inv;
        ghost var before := Now();
        var p := request.parents[i];
        store.UpsertChunkRecord(p.id, ParentRow(request, p));
        Put(before, ops[i]);
        RanMore(old(Now()), request, ops[..i], commitPerformed, before, ops[i]);
        assert ops[..i + 1] == ops[..i] + [ops[i]];
        i := i + 1;
      }
      assert ops[..i] == ops;
    }

    method StepWriteQdrant()
      requires store.Valid()
      modifies store, vector
      ensures store.Valid()
      ensures Ran(old(Now()), request, StepOps(old(Now()), request, leaseGeneration, WriteQdrant), commitPerformed, Now())
    {
      hide Ran, PointOps, ChildRowOps, ParentRowOps, Inv;
      PutPoints("processing");
      ghost var points := Now();
      RecordChildren();
      ghost var rows := Now();
      RecordParents();
      RanThen(old(Now()), request, PointOps(request, "processing"), ChildRowOps(request), commitPerformed, points, rows);
      RanThen(old(Now()), request, PointOps(request, "processing") + ChildRowOps(request), ParentRowOps(request),
              commitPerformed, rows, Now());
    }

    method StepVerify() returns (complete: bool)
      ensures complete <==> PlanesComplete(Now(), request)
    {
      hide RunOps;
      for i := 0 to |request.parents|
        invariant forall j | 0 <= j < i ::
                    var id := request.parents[j].id; id in parents.entries && parents.entries[id].key == request.key
      {
        var id := request.parents[i].id;
        if id !in parents.entries || parents.entries[id].key != request.key { return false; }
      }
      for i := 0 to |request.children|
        invariant forall j | 0 <= j < i ::
                    var c := request.children[j];
                    c.id in vector.points && var p := vector.points[c.id];
                    p.key == request.key && p.parent == c.parent && p.status == "processing" && !p.deprecated
      {
        var c := request.children[i];
        if c.id !in vector.points { return false; }
        var p := vector.points[c.id];
        if p.key != request.key || p.parent != c.parent || p.status != "processing" || p.deprecated { return false; }
      }
      var rows := store.ListChunkRecords(request.key);
      assert rows == ChunkIds(store.Tables(), request.key);
      complete := |rows| == |request.parents| + |request.children|
                  && request.key in store.documents
                  && store.documents[request.key].status in {Processing, Failed, Active};
    }

    method StepCommit() returns (result: StepResult)
      requires store.Valid()
      modifies store, this`commitPerformed
      ensures store.Valid()
      ensures Runs(old(Now()), StepOps(old(Now()), request, leaseGeneration, Commit), old(commitPerformed), result)
      ensures result.Refused? ==> !result.op.CheckOwner?
    {
      hide CommitActive, Inv;
      var base := if request.job in store.jobs then store.jobs[request.job].baseRevision else 0;
      var switch := SwitchVersion(base);
      ghost var start, flag := Now(), commitPerformed;
      assert StepOps(start, request, leaseGeneration, Commit) == [CheckOwner(leaseGeneration)] + ([switch] + []);
      RunFirst(start, request, CheckOwner(leaseGeneration), [switch] + [], None, flag);
      RunFirst(start, request, switch, [], None, flag);
      hide RunOps;
      var owns := store.OwnsLease(request.key, request.job, leaseGeneration);
      if !owns { return LostLease; }
      var outcome := store.CommitActiveVersion(request.key, base);
      if outcome.Switched? || outcome.AlreadyActive? {
        commitPerformed := true;
        RunNothing(Now(), None, commitPerformed);
        return Done;
      }
      assert Now() == start by { RefusedCommit(start.meta, base); }
      result := Refused(switch);
    }

    lemma RunNothing(w: World, budget: Option<nat>, switched: bool)
      ensures RunOps(w, request, [], budget, switched) == Completed(w, budget, switched)
    {
    }

    lemma RefusedCommit(m: State, base: nat)
      ensures var (m', o) := CommitActive(m, request.key, base); !o.Switched? ==> m' == m
    {
      hide MaxRevision, ActiveVersion, SwitchActive;
    }

    /** One row of the replaced version: a parent is deprecated at once, a child's point collected. */
    method RetireRow(id: ChunkId, points: map<ChunkId, Point>) returns (collected: map<ChunkId, Point>)
      requires id in store.chunks
      modifies parents
      ensures if store.chunks[id].isParent
              then parents.entries == DeprecatedIn(old(parents.entries), id) && collected == points
              else parents.entries == old(parents.entries) && collected == points[id := RetiredPoint(request, store.chunks[id])]
    {
      collected := points;
      if store.chunks[id].isParent {
        parents.Deprecate(id);
      } else {
        collected := collected[id := RetiredPoint(request, store.chunks[id])];
      }
    }

    /** The rows of `replaced` retired so far are those of `done`. */
    ghost predicate RetiredSoFar(p: Planes, chunks: map<ChunkId, ChunkRow>, done: set<ChunkId>,
                                 entries: map<ChunkId, Parent>, points: map<ChunkId, Point>)
      requires done <= chunks.Keys
    {
      && entries == AllRetiredParents(p, set id | id in done && chunks[id].isParent).parents
      && points == map id | id in done && !chunks[id].isParent :: RetiredPoint(request, chunks[id])
    }

    lemma RetireOneMore(p: Planes, chunks: map<ChunkId, ChunkRow>, done: set<ChunkId>, id: ChunkId,
                        entries: map<ChunkId, Parent>, points: map<ChunkId, Point>)
      requires done <= chunks.Keys && id in chunks && RetiredSoFar(p, chunks, done, entries, points)
      ensures if chunks[id].isParent
              then RetiredSoFar(p, chunks, done + {id}, DeprecatedIn(entries, id), points)
              else RetiredSoFar(p, chunks, done + {id}, entries, points[id := RetiredPoint(request, chunks[id])])
    {
      hide RetiredPoint;
      var parentsOf := set i | i in done && chunks[i].isParent;
      if chunks[id].isParent {
        assert (set i | i in done + {id} && chunks[i].isParent) == parentsOf + {id};
      } else {
        assert (set i | i in done + {id} && chunks[i].isParent) == parentsOf;
      }
    }

    /** Retire the replaced version's artifacts: parents as the rows come by, points collected and written at the end. */
    method RetireReplaced(replaced: Key)
      requires store.Valid()
      modifies vector, parents
      ensures parents.entries ==
              AllRetiredParents(PlanesOf(old(Now())), ReplacedIds(old(store.chunks), Some(replaced), true)).parents
      ensures vector.points ==
              AllRetiredPoints(PlanesOf(old(Now())), request, old(store.chunks), ReplacedIds(old(store.chunks), Some(replaced), false)).points
    {
      hide RetiredPoint;
      var rows := store.ListChunkRecords(replaced);
      var points: map<ChunkId, Point> := map[];
      var rest := rows;
      assert RetiredSoFar(PlanesOf(old(Now())), store.chunks, rows - rest, parents.entries, points);
      while rest != {}
        invariant rest <= rows
        invariant RetiredSoFar(PlanesOf(old(Now())), store.chunks, rows - rest, parents.entries, points)
        decreases rest
        modifies parents
      {
        hide RetiredSoFar;
        var id :| id in rest;
        RetireOneMore(PlanesOf(old(Now())), store.chunks, rows - rest, id, parents.entries, points);
        assert rows - (rest - {id}) == rows - rest + {id};
        rest := rest - {id};
        points := RetireRow(id, points);
      }
      RetiredAllRows(PlanesOf(old(Now())), store.chunks, rows, replaced, points);
      vector.UpsertAll(points);
    }

    lemma RetiredAllRows(p: Planes, chunks: map<ChunkId, ChunkRow>, rows: set<ChunkId>, replaced: Key, points: map<ChunkId, Point>)
      requires rows == set id | id in chunks && chunks[id].key == replaced
      requires points == map id | id in rows && !chunks[id].isParent :: RetiredPoint(request, chunks[id])
      ensures (set id | id in rows && chunks[id].isParent) == ReplacedIds(chunks, Some(replaced), true)
      ensures p.points + points == AllRetiredPoints(p, request, chunks, ReplacedIds(chunks, Some(replaced), false)).points
    {
      hide RetiredPoint;
    }

    method StepPublish() returns (result: StepResult)
      requires store.Valid()
      modifies vector, parents
      ensures Runs(old(Now()), StepOps(old(Now()), request, leaseGeneration, Publish), commitPerformed, result)
      ensures !result.Refused?
    {
      hide PointOps, PromoteOps, RetireParentOps, RetirePointOps, ReplacedIds, RunOps, AllRetiredParents, AllRetiredPoints, Inv, Ran;
      ghost var start := Now();
      ghost var recorded := Replaced(request, Recorded(start, request));
      ghost var ids3 := Enumerate(ReplacedIds(start.meta.chunks, recorded, true));
      ghost var ids4 := Enumerate(ReplacedIds(start.meta.chunks, recorded, false));
      ghost var o1, o2, o3, o4 := PointOps(request, "active"), PromoteOps(request), RetireParentOps(ids3),
                                  RetirePointOps(request, start.meta.chunks, ids4);
      assert StepOps(start, request, leaseGeneration, Publish) == [CheckOwner(leaseGeneration)] + (o1 + o2 + o3 + o4);
      RunFirst(start, request, CheckOwner(leaseGeneration), o1 + o2 + o3 + o4, None, commitPerformed);
      var owns := store.OwnsLease(request.key, request.job, leaseGeneration);
      if !owns { return LostLease; }
      PutPoints("active");
      ghost var w1 := Now();
      PromoteParents();
      ghost var w2 := Now();
      var previous := if request.job in store.jobs then store.jobs[request.job].previous else None;
      if previous.Some? && previous.value != "" && previous.value != request.key.version {
        RetireReplaced(Key(request.key.doc, previous.value));
      } else {
        NothingReplaced(start.meta.chunks, w2);
      }
      assert Elements(ids3) == ReplacedIds(start.meta.chunks, recorded, true);
      assert Elements(ids4) == ReplacedIds(start.meta.chunks, recorded, false);
      ghost var w3 := w2.(parents := AllRetiredParents(PlanesOf(w2), Elements(ids3)).parents);
      RetireParentsInAnyOrder(w2, request, ids3, commitPerformed);
      RetirePointsInAnyOrder(w3, request, start.meta.chunks, ids4, commitPerformed);
      RetiredApart(w2, w3, start.meta.chunks, Elements(ids4));
      RanThen(start, request, o1, o2, commitPerformed, w1, w2);
      RanThen(start, request, o1 + o2, o3, commitPerformed, w2, w3);
      RanThen(start, request, o1 + o2 + o3, o4, commitPerformed, w3, Now());
      result := Done;
    }

    lemma NothingReplaced(chunks: map<ChunkId, ChunkRow>, w: World)
      ensures ReplacedIds(chunks, None, true) == {} && ReplacedIds(chunks, None, false) == {}
      ensures AllRetiredParents(PlanesOf(w), {}).parents == w.parents
      ensures AllRetiredPoints(PlanesOf(w), request, chunks, {}).points == w.points
    {
    }

    lemma RetiredApart(w: World, w': World, chunks: map<ChunkId, ChunkRow>, ids: set<ChunkId>)
      requires ids <= chunks.Keys && w'.points == w.points
      ensures AllRetiredPoints(PlanesOf(w'), request, chunks, ids).points == AllRetiredPoints(PlanesOf(w), request, chunks, ids).points
    {
    }

    // -------------------------------------------------------------------
    // Compensation
    // -------------------------------------------------------------------

    method DropPoints()
      modifies vector
      ensures Ran(old(Now()), request, PointDrops(request), commitPerformed, Now())
    {
      ghost var ops := PointDrops(request);
      assert ops[..0] == [];
      var i := 0;
      while i < |request.children|
        invariant i <= |request.children|
        invariant Ran(old(Now()), request, ops[..i], commitPerformed, Now())
      {
        hide Ran, Effect;
        ghost var before := Now();
        vector.Delete({request.children[i].id});
        Put(before, ops[i]);
        RanMore(old(Now()), request, ops[..i], commitPerformed, before, ops[i]);
        assert ops[..i + 1] == ops[..i] + [ops[i]];
        i := i + 1;
      }
      assert ops[..i] == ops;
    }

    method DropParents()
      modifies parents
      ensures Ran(old(Now()), request, ParentDrops(request), commitPerformed, Now())
    {
      ghost var ops := ParentDrops(request);
      assert ops[..0] == [];
      var i := 0;
      while i < |request.parents|
        invariant i <= |request.parents|
        invariant Ran(old(Now()), request, ops[..i], commitPerformed, Now())
      {
        hide Ran, Effect;
        ghost var before := Now();
        parents.Delete(request.parents[i].id);
        Put(before, ops[i]);
        RanMore(old(Now()), request, ops[..i], commitPerformed, before, ops[i]);
        assert ops[..i + 1] == ops[..i] + [ops[i]];
        i := i + 1;
      }
      assert ops[..i] == ops;
    }

    /** The rows and markers go, in this order: chunk rows, step markers, then the document row to failed. */
    method DropRecords()
      requires store.Valid()
      modifies store
      ensures store.Valid()
      ensures Ran(old(Now()), request, RecordDrops(request), commitPerformed, Now())
    {
      hide Inv, DeleteChunks, ClearSteps, MarkFailed;
      ghost var w0, ops := Now(), RecordDrops(request);
      assert ops[..0] == [] && ops == ops[..0] + [ops[0]] + [ops[1]] + [ops[2]];
      store.DeleteChunkRecords(request.key);
      ghost var w1 := Now();
      store.ClearJobSteps(request.job);
      ghost var w2 := Now();
      store.MarkDocumentFailed(request.key);
      RecordWrites(w0, w1, w2, Now());
    }

    lemma RecordWrites(w0: World, w1: World, w2: World, w3: World)
      requires w1 == w0.(meta := DeleteChunks(w0.meta, request.key)) && w2 == w1.(meta := ClearSteps(w1.meta, request.job))
      requires w3 == w2.(meta := MarkFailed(w2.meta, request.key))
      ensures Ran(w0, request, RecordDrops(request), commitPerformed, w3)
    {
      hide DeleteChunks, ClearSteps, MarkFailed;
      var ops := RecordDrops(request);
      RunNothing(w0, None, commitPerformed);
      RanMore(w0, request, [], commitPerformed, w0, ops[0]);
      RanMore(w0, request, [] + [ops[0]], commitPerformed, w1, ops[1]);
      RanMore(w0, request, [] + [ops[0]] + [ops[1]], commitPerformed, w2, ops[2]);
      assert ops == [] + [ops[0]] + [ops[1]] + [ops[2]];
    }

    /** Undo this version's artifacts write by write, unless the lease was lost. */
    method Compensate()
      requires store.Valid()
      modifies store, vector, parents
      ensures store.Valid()
      ensures if OwnsBuild(old(store.Tables()), request.key, request.job, leaseGeneration)
              then Ran(old(Now()), request, CompensationOps(request), commitPerformed, Now())
              else Now() == old(Now())
    {
      hide Inv, Ran, PointDrops, ParentDrops, RecordDrops;
      var owns := store.OwnsLease(request.key, request.job, leaseGeneration);
      if !owns { return; }
      DropPoints();
      ghost var points := Now();
      DropParents();
      ghost var both := Now();
      DropRecords();
      RanThen(old(Now()), request, PointDrops(request), ParentDrops(request), commitPerformed, points, both);
      RanThen(old(Now()), request, PointDrops(request) + ParentDrops(request), RecordDrops(request), commitPerformed, both,
              Now());
      CompensationIs(request);
    }

    /** Compensate unless the switch was made here, then fail the job. */
    method HandleFault()
      requires store.Valid()
      modifies store, vector, parents
      ensures store.Valid()
      ensures Ran(old(Now()), request, FailureOps(old(Now()), request, leaseGeneration, commitPerformed), commitPerformed, Now())
    {
      hide Inv, Ran, CompensationOps, ControlPlane.MarkTerminal;
      ghost var start := Now();
      ghost var before: seq<Op> := [];
      NothingRan(start);
      if !commitPerformed {
        Compensate();
        if OwnsBuild(start.meta, request.key, request.job, leaseGeneration) {
          before := CompensationOps(request);
        }
      }
      ghost var middle := Now();
      store.MarkTerminal(request.job, JobFailed);
      EndRan(start, before, middle);
    }

    lemma NothingRan(w: World)
      ensures Ran(w, request, [], commitPerformed, w)
    {
    }

    lemma EndRan(w: World, ops: seq<Op>, w': World)
      requires Ran(w, request, ops, commitPerformed, w')
      ensures Ran(w, request, ops + [Control(DoTerminal(request.job, JobFailed))], commitPerformed,
                  w'.(meta := ControlPlane.MarkTerminal(w'.meta, request.job, JobFailed)))
    {
      hide Ran, ControlPlane.MarkTerminal;
      RanMore(w, request, ops, commitPerformed, w', Control(DoTerminal(request.job, JobFailed)));
    }

    // -------------------------------------------------------------------
    // The run
    // -------------------------------------------------------------------

    method RunStep(step: Step) returns (result: StepResult)
      requires store.Valid()
      modifies store, vector, parents, this`commitPerformed
      ensures store.Valid()
      ensures Runs(old(Now()), StepOps(old(Now()), request, leaseGeneration, step), old(commitPerformed), result)
      ensures result.Refused? ==> !result.op.CheckOwner?
    {
      hide RunOps, Inv, PlanesComplete, PublishOps, PointOps, WriteParentsOps, ChildRowOps, ParentRowOps;
      RunNothing(Now(), None, commitPerformed);
      result := Done;
      match step
      case WriteParents => PutParents();
      case WriteQdrant => StepWriteQdrant();
      case Verify =>
        RunFirst(Now(), request, CheckPlanes, [], None, commitPerformed);
        assert [CheckPlanes] + [] == [CheckPlanes];
        var complete := StepVerify();
        if !complete { result := Refused(CheckPlanes); }
      case Commit => result := StepCommit();
      case Publish => result := StepPublish();
      case Finalize =>
        var end := Control(DoTerminal(request.job, Succeeded));
        RunFirst(Now(), request, end, [], None, commitPerformed);
        assert [end] + [] == [end];
        store.MarkTerminal(request.job, Succeeded);
        RunNothing(Now(), None, commitPerformed);
      case _ =>
    }

    method CheckEntry() returns (entry: Entry)
      ensures entry == Enter(Now(), request)
    {
      var job, key := request.job, request.key;
      if job in store.jobs && (store.jobs[job].key != key || store.jobs[job].rawHash != request.hash) {
        return IdentityRejected;
      }
      if key in store.documents {
        var row := store.documents[key];
        if row.hash != request.hash { return ContentRejected; }
        if row.status == Active {
          if key in store.builds {
            var owner := store.builds[key].owner;
            if owner in store.jobs && store.jobs[owner].status == Succeeded { return AlreadyIndexed; }
          }
        } else if row.status == Deprecated {
          return AlreadyIndexed;
        }
      }
      return Proceed;
    }

    /** Resume behind the last marker; the first step that raises ends the run. */
    method RunPending() returns (result: StepResult)
      requires store.Valid()
      modifies store, vector, parents, this`commitPerformed
      ensures store.Valid()
      ensures RunSteps(old(Now()), request, leaseGeneration, 1, None, old(commitPerformed)) ==
              match result {
                case Done => Completed(Now(), None, commitPerformed)
                case LostLease => Raised(Now(), None, commitPerformed, CheckOwner(leaseGeneration))
                case Refused(op) => Raised(Now(), None, commitPerformed, op)
              }
      ensures result.Refused? ==> !result.op.CheckOwner?
    {
      var i := 1;
      while i < |Steps|
        invariant 1 <= i <= |Steps| && store.Valid()
        invariant RunSteps(old(Now()), request, leaseGeneration, 1, None, old(commitPerformed)) ==
                  RunSteps(Now(), request, leaseGeneration, i, None, commitPerformed)
      {
        hide RunOps, StepOps, Inv;
        var step := Steps[i];
        if (request.job, step) !in store.steps {
          ghost var start, flag := Now(), commitPerformed;
          result := RunStep(step);
          RunOpsConcat(start, request, StepOps(start, request, leaseGeneration, step),
                       [Control(DoMarkStep(request.job, step))], None, flag);
          RunMark(Now(), request, step, None, commitPerformed);
          if !result.Done? { return; }
          store.MarkStepDone(request.job, step);
        }
        i := i + 1;
      }
      result := Done;
    }

    /** A whole invocation. */
    method Run(attempt: string, recover: bool) returns (status: Status)
      requires store.Valid()
      modifies store, vector, parents, this`commitPerformed, this`leaseGeneration
      ensures store.Valid()
      ensures (Now(), status) == AttemptBy(old(Now()), request, attempt, recover, None, Kill, old(commitPerformed))
    {
      hide RunSteps, Inv, RunOps, FailureOps, ControlPlane.AcquireJob, ControlPlane.MarkTerminal;
      var entry := CheckEntry();
      match entry
      case IdentityRejected => return Rejected;
      case ContentRejected => return Rejected;
      case AlreadyIndexed =>
        if request.job in store.jobs { store.MarkTerminal(request.job, Succeeded); }
        return AlreadyDone;
      case Proceed =>
        var base := store.CurrentRevision(request.key.doc);
        var acquired := store.AcquireJob(
          AcquireRequest(request.job, request.key, request.hash, base, request.acl, attempt, recover));
        if !acquired.Acquired? { return Conflict; }
        leaseGeneration := acquired.generation;
        var result := RunPending();
        if result.Done? { return Indexed; }
        if result.LostLease? { return Conflict; }
        HandleFault();
        return FailedRun;
    }
  }
}
