/** One ingestion attempt as a sequence of single writes, so that it can be cut at
    any of them: a kill leaves what was written, a fault takes the exception path,
    whose writes can be cut in turn. */
module Ingestion {
  import opened Common
  import opened Policy
  import opened ControlPlane
  import opened Lifecycle
  import opened DataPlane
  import opened Stores

  datatype ParentSpec = ParentSpec(id: ChunkId, text: string)
  datatype ChildSpec = ChildSpec(id: ChunkId, parent: ChunkId, text: string)

  /** A request with the chunker's deterministic output for its content. */
  datatype Request = Request(
    key: Key, hash: string, acl: ResourceAcl, job: JobId, parents: seq<ParentSpec>, children: seq<ChildSpec>)

  ghost predicate OwnParent(q: Request, id: ChunkId) {
    exists i :: 0 <= i < |q.parents| && q.parents[i].id == id
  }

  ghost predicate OwnChild(q: Request, id: ChunkId) {
    exists i :: 0 <= i < |q.children| && q.children[i].id == id
  }

  /** Chunk ids are pairwise distinct, every child has its parent, and the ACL is the document's tenant's. */
  ghost predicate WellFormed(q: Request) {
    && q.acl.tenantId == q.key.doc.tenant
    && (forall i, j | 0 <= i < j < |q.parents| :: q.parents[i].id != q.parents[j].id)
    && (forall i, j | 0 <= i < j < |q.children| :: q.children[i].id != q.children[j].id)
    && (forall id | OwnParent(q, id) :: !OwnChild(q, id))
    && (forall i | 0 <= i < |q.children| :: OwnParent(q, q.children[i].parent))
  }

  // ---------------------------------------------------------------------
  // What each step writes
  // ---------------------------------------------------------------------

  function ParentValue(q: Request, p: ParentSpec): Parent {
    Parent(q.key, p.text, "active", false, q.acl)
  }

  function PointValue(q: Request, c: ChildSpec, status: string): Point {
    Point(q.key, c.parent, c.text, status, false, q.acl)
  }

  function ParentRow(q: Request, p: ParentSpec): ChunkRow {
    ChunkRow(q.key, None, true, p.text, q.acl)
  }

  function ChildRow(q: Request, c: ChildSpec): ChunkRow {
    ChunkRow(q.key, Some(c.parent), false, c.text, q.acl)
  }

  /** A replaced version's point is rewritten inactive, under the new request's ACL. */
  function RetiredPoint(q: Request, row: ChunkRow): Point {
    Point(row.key, if row.parent.Some? then row.parent.value else "", row.content, "inactive", false, q.acl)
  }

  datatype Op =
    | Control(action: Action)
    | PutPoint(id: ChunkId, point: Point)
    | PutParent(id: ChunkId, parent: Parent)
    | PromoteParent(id: ChunkId)
    | RetireParent(id: ChunkId)
    | DropPoint(id: ChunkId)
    | DropParent(id: ChunkId)
    | CheckOwner(generation: nat)
    | CheckPlanes
    | SwitchVersion(expected: nat)

  ghost function Effect(w: World, q: Request, op: Op): World {
    match op
    case Control(a) => w.(meta := Apply(w.meta, a))
    case PutPoint(id, p) => w.(points := w.points[id := p])
    case PutParent(id, p) => w.(parents := w.parents[id := p])
    case PromoteParent(id) => w.(parents := ActivatedIn(w.parents, id))
    case RetireParent(id) => w.(parents := DeprecatedIn(w.parents, id))
    case DropPoint(id) => w.(points := w.points - {id})
    case DropParent(id) => w.(parents := w.parents - {id})
    case CheckOwner(_) => w
    case CheckPlanes => w
    case SwitchVersion(e) => w.(meta := CommitActive(w.meta, q.key, e).0)
  }

  /** The data plane is complete for this version, and the version still committable. */
  ghost predicate PlanesComplete(w: World, q: Request) {
    && (forall i | 0 <= i < |q.parents| ::
          q.parents[i].id in w.parents && w.parents[q.parents[i].id].key == q.key)
    && (forall i | 0 <= i < |q.children| ::
          var c := q.children[i];
          c.id in w.points && var p := w.points[c.id];
          p.key == q.key && p.parent == c.parent && p.status == "processing" && !p.deprecated)
    && |ChunkIds(w.meta, q.key)| == |q.parents| + |q.children|
    && q.key in w.meta.documents && w.meta.documents[q.key].status in {Processing, Failed, Active}
  }

  function ChunkIds(s: State, k: Key): set<ChunkId> {
    set id | id in s.chunks && s.chunks[id].key == k
  }

  /** Whether a write goes through; a guard that does not hold raises instead. */
  ghost predicate Admits(w: World, q: Request, op: Op) {
    match op
    case CheckOwner(g) => OwnsBuild(w.meta, q.key, q.job, g)
    case CheckPlanes => PlanesComplete(w, q)
    case SwitchVersion(e) => var o := CommitActive(w.meta, q.key, e).1; o.Switched? || o.AlreadyActive?
    case _ => true
  }

  const Steps: seq<Step> := [Acquire, Parse, Chunk, WriteParents, WriteQdrant, Verify, Commit, Publish, Finalize]

  function BaseRevision(w: World, q: Request): nat {
    if q.job in w.meta.jobs then w.meta.jobs[q.job].baseRevision else 0
  }

  /** The version publish retires: the one recorded for the job, unless it is this one. */
  function Replaced(q: Request, recorded: Option<Version>): Option<Key> {
    if recorded.None? || recorded.value == "" || recorded.value == q.key.version then None
    else Some(Key(q.key.doc, recorded.value))
  }

  function Recorded(w: World, q: Request): Option<Version> {
    if q.job in w.meta.jobs then w.meta.jobs[q.job].previous else None
  }

  function ReplacedIds(chunks: map<ChunkId, ChunkRow>, replaced: Option<Key>, parents: bool): (ids: set<ChunkId>)
    ensures ids <= chunks.Keys
  {
    set id | id in chunks && Some(chunks[id].key) == replaced && chunks[id].isParent == parents
  }

  /** Some enumeration of a finite set: the order rows come back in is not specified. */
  ghost function Enumerate(s: set<ChunkId>): (e: seq<ChunkId>)
    ensures forall id :: id in s <==> id in e
    ensures |e| == |s|
  {
    if id :| id in s then [id] + Enumerate(s - {id}) else []
  }

  ghost function WriteParentsOps(q: Request): seq<Op> {
    seq(|q.parents|, i requires 0 <= i < |q.parents| => PutParent(q.parents[i].id, ParentValue(q, q.parents[i])))
  }

  ghost function PointOps(q: Request, status: string): seq<Op> {
    seq(|q.children|, i requires 0 <= i < |q.children| =>
      PutPoint(q.children[i].id, PointValue(q, q.children[i], status)))
  }

  ghost function ChildRowOps(q: Request): seq<Op> {
    seq(|q.children|, i requires 0 <= i < |q.children| =>
      Control(DoUpsertChunk(q.children[i].id, ChildRow(q, q.children[i]))))
  }

  ghost function ParentRowOps(q: Request): seq<Op> {
    seq(|q.parents|, i requires 0 <= i < |q.parents| =>
      Control(DoUpsertChunk(q.parents[i].id, ParentRow(q, q.parents[i]))))
  }

  ghost function PromoteOps(q: Request): seq<Op> {
    seq(|q.parents|, i requires 0 <= i < |q.parents| => PromoteParent(q.parents[i].id))
  }

  ghost function RetireParentOps(ids: seq<ChunkId>): seq<Op> {
    seq(|ids|, i requires 0 <= i < |ids| => RetireParent(ids[i]))
  }

  ghost function RetirePointOps(q: Request, chunks: map<ChunkId, ChunkRow>, ids: seq<ChunkId>): seq<Op>
    requires forall id | id in ids :: id in chunks
  {
    seq(|ids|, i requires 0 <= i < |ids| => PutPoint(ids[i], RetiredPoint(q, chunks[ids[i]])))
  }

  ghost function PublishOps(w: World, q: Request, g: nat): seq<Op> {
    var replaced := Replaced(q, Recorded(w, q));
    [CheckOwner(g)] + PointOps(q, "active") + PromoteOps(q)
    + RetireParentOps(Enumerate(ReplacedIds(w.meta.chunks, replaced, true)))
    + RetirePointOps(q, w.meta.chunks, Enumerate(ReplacedIds(w.meta.chunks, replaced, false)))
  }

  ghost function StepOps(w: World, q: Request, g: nat, step: Step): seq<Op> {
    match step
    case WriteParents => WriteParentsOps(q)
    case WriteQdrant => PointOps(q, "processing") + ChildRowOps(q) + ParentRowOps(q)
    case Verify => [CheckPlanes]
    case Commit => [CheckOwner(g), SwitchVersion(BaseRevision(w, q))]
    case Publish => PublishOps(w, q, g)
    case Finalize => [Control(DoTerminal(q.job, Succeeded))]
    case _ => []
  }

  // ---------------------------------------------------------------------
  // Running
  // ---------------------------------------------------------------------

  /** `budget` counts the writes left before the attempt is cut; `switched` says
      whether this attempt itself got through the version switch. */
  datatype Outcome =
    | Completed(world: World, budget: Option<nat>, switched: bool)
    | Cut(world: World, switched: bool)
    | Raised(world: World, budget: Option<nat>, switched: bool, op: Op)

  function Spend(budget: Option<nat>): Option<nat>
    requires budget != Some(0)
  {
    if budget.None? then None else Some(budget.value - 1)
  }

  ghost function RunOps(w: World, q: Request, ops: seq<Op>, budget: Option<nat>, switched: bool): Outcome
    decreases |ops|
  {
    if ops == [] then Completed(w, budget, switched)
    else if budget == Some(0) then Cut(w, switched)
    else if !Admits(w, q, ops[0]) then Raised(w, budget, switched, ops[0])
    else RunOps(Effect(w, q, ops[0]), q, ops[1..], Spend(budget), switched || ops[0].SwitchVersion?)
  }

  /** The steps from index `i` on, skipping those already marked done. */
  ghost function RunSteps(w: World, q: Request, g: nat, i: nat, budget: Option<nat>, switched: bool): Outcome
    requires i <= |Steps|
    decreases |Steps| - i
  {
    if i == |Steps| then Completed(w, budget, switched)
    else if (q.job, Steps[i]) in w.meta.steps then RunSteps(w, q, g, i + 1, budget, switched)
    else
      match RunOps(w, q, StepOps(w, q, g, Steps[i]) + [Control(DoMarkStep(q.job, Steps[i]))], budget, switched)
      case Completed(w', b', s') => RunSteps(w', q, g, i + 1, b', s')
      case other => other
  }

  ghost function AcquireFor(w: World, q: Request, attempt: string, recover: bool): AcquireRequest {
    AcquireRequest(q.job, q.key, q.hash, MaxRevision(w.meta.documents, q.key.doc), q.acl, attempt, recover)
  }

  datatype Entry = IdentityRejected | ContentRejected | AlreadyIndexed | Proceed

  /** The checks before the lease: job identity, content hash, and whether this version is already published. */
  function Enter(w: World, q: Request): Entry {
    var docs, jobs, builds := w.meta.documents, w.meta.jobs, w.meta.builds;
    if q.job in jobs && (jobs[q.job].key != q.key || jobs[q.job].rawHash != q.hash) then IdentityRejected
    else if q.key !in docs then Proceed
    else if docs[q.key].hash != q.hash then ContentRejected
    else if docs[q.key].status == Active then
      if q.key in builds && builds[q.key].owner in jobs && jobs[builds[q.key].owner].status == Succeeded
      then AlreadyIndexed else Proceed
    else if docs[q.key].status == Deprecated then AlreadyIndexed
    else Proceed
  }

  datatype Status = Indexed | AlreadyDone | Conflict | FailedRun | Rejected | Interrupted

  // ---------------------------------------------------------------------
  // The failure path
  // ---------------------------------------------------------------------

  ghost function DropOps(q: Request): seq<Op> {
    seq(|q.children|, i requires 0 <= i < |q.children| => DropPoint(q.children[i].id))
    + seq(|q.parents|, i requires 0 <= i < |q.parents| => DropParent(q.parents[i].id))
    + [Control(DoDeleteChunks(q.key))]
  }

  /** Remove this version's artifacts, then its markers; the row goes to failed unless it is committed. */
  ghost function CompensationOps(q: Request): seq<Op> {
    DropOps(q) + [Control(DoClearSteps(q.job)), Control(DoFail(q.key))]
  }

  /** Compensate unless this attempt switched the version or lost its lease, then fail the job. */
  ghost function FailureOps(w: World, q: Request, g: nat, switched: bool): seq<Op> {
    (if !switched && OwnsBuild(w.meta, q.key, q.job, g) then CompensationOps(q) else [])
    + [Control(DoTerminal(q.job, JobFailed))]
  }

  /** The failure path, cut after `budget` writes if that is given; a second fault inside it leaves what a kill leaves. */
  ghost function FailurePath(w: World, q: Request, g: nat, switched: bool, budget: Option<nat>): (World, Status) {
    match RunOps(w, q, FailureOps(w, q, g, switched), budget, switched)
    case Completed(w', _, _) => (w', FailedRun)
    case other => (other.world, Interrupted)
  }

  /** How an attempt is cut: by a kill, or by a fault whose failure path is given that many writes. */
  datatype Cutting = Kill | Fault(recovery: Option<nat>)

  /** One whole invocation by a fresh job object, cut after `budget` writes if that is given. */
  ghost function Attempt(w: World, q: Request, attempt: string, recover: bool, budget: Option<nat>, cutting: Cutting)
    : (World, Status)
  {
    AttemptBy(w, q, attempt, recover, budget, cutting, false)
  }

  /** An invocation by an object that remembers whether it switched the version before. */
  ghost function AttemptBy(
    w: World, q: Request, attempt: string, recover: bool, budget: Option<nat>, cutting: Cutting, switched: bool): (World, Status)
  {
    match Enter(w, q)
    case IdentityRejected => (w, Rejected)
    case ContentRejected => (w, Rejected)
    case AlreadyIndexed =>
      if q.job !in w.meta.jobs || budget == Some(0) then (w, AlreadyDone)
      else (w.(meta := MarkTerminal(w.meta, q.job, Succeeded)), AlreadyDone)
    case Proceed =>
      if budget == Some(0) then Stopped(w, q, 0, switched, cutting)
      else
        var (meta, acquired) := AcquireJob(w.meta, AcquireFor(w, q, attempt, recover));
        if !acquired.Acquired? then (w, Conflict)
        else if Spend(budget) == Some(0) then Stopped(w.(meta := meta), q, 0, switched, cutting)
        else RunHeld(w.(meta := MarkStep(meta, q.job, Acquire)), q, acquired.generation, Spend(Spend(budget)), cutting, switched)
  }

  /** The steps of an attempt that holds generation `g`. */
  ghost function RunHeld(w: World, q: Request, g: nat, budget: Option<nat>, cutting: Cutting, switched: bool): (World, Status) {
    match RunSteps(w, q, g, 1, budget, switched)
    case Completed(w', _, _) => (w', Indexed)
    case Cut(w', s') => Stopped(w', q, g, s', cutting)
    case Raised(w', b', s', op) =>
      if op.CheckOwner? then (w', Conflict) else FailurePath(w', q, g, s', b')
  }

  ghost function Stopped(w: World, q: Request, g: nat, switched: bool, cutting: Cutting): (World, Status) {
    match cutting
    case Kill => (w, Interrupted)
    case Fault(recovery) => FailurePath(w, q, g, switched, recovery)
  }
}
