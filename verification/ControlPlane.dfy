/** The control-plane tables as one value, and each transaction of the metadata
    store as a total function on them. A rejected transaction rolls back. */
module ControlPlane {
  import opened Common
  import opened Policy

  type Version = string
  type JobId = string
  type ChunkId = string

  datatype DocId = DocId(tenant: string, corpus: string, document: string)
  datatype Key = Key(doc: DocId, version: Version)

  datatype DocStatus = Discovered | Processing | Active | Failed | Deprecated | Deleted
  datatype DocRow = DocRow(status: DocStatus, deprecated: bool, revision: nat, hash: string, acl: ResourceAcl)

  datatype JobStatus = Queued | Running | Succeeded | JobFailed | Cancelling | Cancelled
  datatype JobRow = JobRow(key: Key, rawHash: string, status: JobStatus, baseRevision: nat, previous: Option<Version>)

  datatype LeaseStatus = LeaseRunning | LeaseDone | LeaseFailed
  datatype Lease = Lease(owner: JobId, status: LeaseStatus, generation: nat, previous: Option<Version>, attempt: string)

  datatype Step = Acquire | Parse | Chunk | WriteParents | WriteQdrant | Verify | Commit | Publish | Finalize

  datatype ChunkRow = ChunkRow(key: Key, parent: Option<ChunkId>, isParent: bool, content: string, acl: ResourceAcl)

  datatype State = State(
    documents: map<Key, DocRow>,
    builds: map<Key, Lease>,
    jobs: map<JobId, JobRow>,
    steps: set<(JobId, Step)>,
    chunks: map<ChunkId, ChunkRow>)

  const Empty := State(map[], map[], map[], {}, map[])

  // ---------------------------------------------------------------------
  // Reads
  // ---------------------------------------------------------------------

  /** SELECT MAX(lifecycle_revision) over every version of a document; 0 without rows. */
  ghost function MaxRevision(docs: map<Key, DocRow>, d: DocId): (m: nat)
    ensures forall k | k in docs && k.doc == d :: docs[k].revision <= m
    ensures m > 0 ==> exists k :: k in docs && k.doc == d && docs[k].revision == m
    decreases |docs|
  {
    if k :| k in docs && k.doc == d then
      var rest := docs - {k};
      var r := MaxRevision(rest, d);
      assert forall o | o in docs && o.doc == d :: o == k || o in rest;
      if r > 0 && docs[k].revision < r then
        var w :| w in rest && w.doc == d && rest[w].revision == r;
        assert w in docs && docs[w].revision == r;
        r
      else docs[k].revision
    else 0
  }

  ghost predicate IsActive(docs: map<Key, DocRow>, k: Key) {
    k in docs && docs[k].status == Active
  }

  ghost function ActiveVersion(docs: map<Key, DocRow>, d: DocId): (v: Option<Version>)
    ensures v.Some? ==> IsActive(docs, Key(d, v.value))
    ensures v.None? ==> forall w :: !IsActive(docs, Key(d, w))
  {
    if w: Version :| IsActive(docs, Key(d, w)) then Some(w) else None
  }

  /** The partial unique index on active rows. */
  ghost predicate AtMostOneActive(docs: map<Key, DocRow>) {
    forall a, b | IsActive(docs, a) && IsActive(docs, b) && a.doc == b.doc :: a == b
  }

  lemma ActiveVersionIs(docs: map<Key, DocRow>, k: Key)
    requires AtMostOneActive(docs) && IsActive(docs, k)
    ensures ActiveVersion(docs, k.doc) == Some(k.version)
  {
    var v := ActiveVersion(docs, k.doc);
    assert k == Key(k.doc, k.version);
  }

  // ---------------------------------------------------------------------
  // Transactions
  // ---------------------------------------------------------------------

  datatype AcquireRequest = AcquireRequest(
    job: JobId, key: Key, rawHash: string, baseRevision: nat, acl: ResourceAcl, attempt: string, recover: bool)

  datatype AcquireOutcome = Acquired(generation: nat) | BuildConflict | IdentityConflict

  predicate InFlight(jobs: map<JobId, JobRow>, j: JobId) {
    j in jobs && jobs[j].status in {Running, Queued, Cancelling}
  }

  predicate AcquireRefused(s: State, r: AcquireRequest) {
    && r.key in s.builds
    && var lease := s.builds[r.key];
       if lease.owner != r.job then InFlight(s.jobs, lease.owner)
       else lease.status == LeaseRunning && lease.attempt != r.attempt && !r.recover
  }

  predicate IdentityMismatch(s: State, r: AcquireRequest) {
    r.job in s.jobs && (s.jobs[r.job].key != r.key || s.jobs[r.job].rawHash != r.rawHash)
  }

  /** Insert the processing row, or refresh an uncommitted one; a committed,
      superseded or deleted row is never touched. */
  function UpsertBuild(docs: map<Key, DocRow>, k: Key, hash: string, acl: ResourceAcl): map<Key, DocRow> {
    if k !in docs then docs[k := DocRow(Processing, false, 0, hash, acl)]
    else if docs[k].status in {Processing, Failed} then docs[k := DocRow(Processing, false, docs[k].revision, hash, acl)]
    else docs
  }

  ghost function NextLease(s: State, r: AcquireRequest): Lease {
    if r.key in s.builds then
      Lease(r.job, LeaseRunning, s.builds[r.key].generation + 1, s.builds[r.key].previous, r.attempt)
    else
      Lease(r.job, LeaseRunning, 1, ActiveVersion(s.documents, r.key.doc), r.attempt)
  }

  function NextJob(s: State, r: AcquireRequest, previous: Option<Version>): JobRow {
    if r.job !in s.jobs then JobRow(r.key, r.rawHash, Running, r.baseRevision, previous)
    else if s.jobs[r.job].status != Running then s.jobs[r.job].(status := Running, previous := previous)
    else s.jobs[r.job]
  }

  ghost function AcquireJob(s: State, r: AcquireRequest): (State, AcquireOutcome) {
    if AcquireRefused(s, r) then (s, BuildConflict)
    else if IdentityMismatch(s, r) then (s, IdentityConflict)
    else
      var lease := NextLease(s, r);
      (s.(documents := UpsertBuild(s.documents, r.key, r.rawHash, r.acl),
          builds := s.builds[r.key := lease],
          jobs := s.jobs[r.job := NextJob(s, r, lease.previous)]),
       Acquired(lease.generation))
  }

  predicate Terminal(status: JobStatus) {
    status in {Succeeded, JobFailed, Cancelled}
  }

  /** Job row and owned leases move together; a cancelled job leaves its lease as it is. */
  function MarkTerminal(s: State, j: JobId, status: JobStatus): (s': State)
    requires Terminal(status)
    ensures s'.documents == s.documents && s'.steps == s.steps && s'.chunks == s.chunks
  {
    var jobs := if j in s.jobs then s.jobs[j := s.jobs[j].(status := status)] else s.jobs;
    if status == Cancelled then s.(jobs := jobs)
    else
      var leaseStatus := if status == Succeeded then LeaseDone else LeaseFailed;
      s.(jobs := jobs,
         builds := map k | k in s.builds ::
           if s.builds[k].owner == j then s.builds[k].(status := leaseStatus) else s.builds[k])
  }

  function MarkStep(s: State, j: JobId, step: Step): State {
    s.(steps := s.steps + {(j, step)})
  }

  function ClearSteps(s: State, j: JobId): (s': State)
    ensures s' == s.(steps := s'.steps)
  {
    s.(steps := set e | e in s.steps && e.0 != j)
  }

  datatype SwitchOutcome =
    | Switched(revision: nat, previous: Option<Version>)
    | AlreadyActive(revision: nat)
    | StaleRevision
    | NoTarget

  /** Retire the previous active row, if any, and activate `k`, both at revision `rev`. */
  function SwitchActive(docs: map<Key, DocRow>, previous: Option<Version>, k: Key, rev: nat): map<Key, DocRow>
    requires k in docs && (previous.Some? ==> Key(k.doc, previous.value) in docs)
  {
    var retired :=
      if previous.Some? then
        var p := Key(k.doc, previous.value);
        docs[p := docs[p].(status := Deprecated, deprecated := true, revision := rev)]
      else docs;
    retired[k := retired[k].(status := Active, deprecated := false, revision := rev)]
  }

  ghost function CommitActive(s: State, k: Key, expected: nat): (State, SwitchOutcome) {
    var current := MaxRevision(s.documents, k.doc);
    var previous := ActiveVersion(s.documents, k.doc);
    if previous == Some(k.version) then (s, AlreadyActive(current))
    else if current != expected then (s, StaleRevision)
    else if k !in s.documents then (s, NoTarget)
    else (s.(documents := SwitchActive(s.documents, previous, k, current + 1)), Switched(current + 1, previous))
  }

  /** Roll back to a chosen target; only a live document has something to roll back. */
  ghost function RollbackActive(s: State, k: Key, expected: Option<nat>): (State, SwitchOutcome) {
    var current := MaxRevision(s.documents, k.doc);
    var previous := ActiveVersion(s.documents, k.doc);
    if previous.None? || k !in s.documents || s.documents[k].status == Deleted then (s, NoTarget)
    else if previous == Some(k.version) then (s, AlreadyActive(current))
    else if expected.Some? && expected.value != current then (s, StaleRevision)
    else (s.(documents := SwitchActive(s.documents, previous, k, current + 1)), Switched(current + 1, previous))
  }

  /** The row a logical delete removes: the named row when active, the currently
      active one when the named row was superseded, none when it is gone already. */
  ghost function DeleteTarget(docs: map<Key, DocRow>, k: Key): Option<Key> {
    if k !in docs || docs[k].status == Deleted then None
    else if docs[k].status == Active then Some(k)
    else match ActiveVersion(docs, k.doc)
         case None => None
         case Some(v) => Some(Key(k.doc, v))
  }

  ghost function LogicalDelete(s: State, k: Key): State {
    match DeleteTarget(s.documents, k)
    case None => s
    case Some(t) =>
      assert t in s.documents;
      var row := s.documents[t];
      s.(documents := s.documents[t := row.(status := Deleted, deprecated := true, revision := row.revision + 1)])
  }

  function UpdateAcl(s: State, k: Key, acl: ResourceAcl): State {
    if k !in s.documents || s.documents[k].status != Active then s
    else s.(documents := s.documents[k := s.documents[k].(acl := acl, revision := s.documents[k].revision + 1)])
  }

  function MarkFailed(s: State, k: Key): State {
    if k in s.documents && s.documents[k].status in {Processing, Failed}
    then s.(documents := s.documents[k := s.documents[k].(status := Failed, deprecated := false)])
    else s
  }

  /** Physical purge of every row of a document, with its leases, jobs and markers. */
  function PurgeDocument(s: State, d: DocId): State {
    s.(documents := map k | k in s.documents && k.doc != d :: s.documents[k],
       builds := map k | k in s.builds && k.doc != d :: s.builds[k],
       jobs := map j | j in s.jobs && s.jobs[j].key.doc != d :: s.jobs[j],
       steps := set e | e in s.steps && !(e.0 in s.jobs && s.jobs[e.0].key.doc == d))
  }

  function UpsertChunk(s: State, id: ChunkId, row: ChunkRow): State {
    s.(chunks := s.chunks[id := row])
  }

  function DeleteChunks(s: State, k: Key): (s': State)
    ensures s' == s.(chunks := s'.chunks)
  {
    s.(chunks := map id | id in s.chunks && s.chunks[id].key != k :: s.chunks[id])
  }

  datatype Action =
    | DoAcquire(request: AcquireRequest)
    | DoTerminal(job: JobId, status: JobStatus)
    | DoMarkStep(job: JobId, step: Step)
    | DoClearSteps(job: JobId)
    | DoCommit(key: Key, expected: nat)
    | DoRollback(key: Key, expectedOpt: Option<nat>)
    | DoDelete(key: Key)
    | DoAcl(key: Key, acl: ResourceAcl)
    | DoFail(key: Key)
    | DoPurge(doc: DocId)
    | DoUpsertChunk(id: ChunkId, row: ChunkRow)
    | DoDeleteChunks(key: Key)

  ghost function Apply(s: State, a: Action): State {
    match a
    case DoAcquire(r) => AcquireJob(s, r).0
    case DoTerminal(j, status) => if Terminal(status) then MarkTerminal(s, j, status) else s
    case DoMarkStep(j, step) => MarkStep(s, j, step)
    case DoClearSteps(j) => ClearSteps(s, j)
    case DoCommit(k, e) => CommitActive(s, k, e).0
    case DoRollback(k, e) => RollbackActive(s, k, e).0
    case DoDelete(k) => LogicalDelete(s, k)
    case DoAcl(k, acl) => UpdateAcl(s, k, acl)
    case DoFail(k) => MarkFailed(s, k)
    case DoPurge(d) => PurgeDocument(s, d)
    case DoUpsertChunk(id, row) => UpsertChunk(s, id, row)
    case DoDeleteChunks(k) => DeleteChunks(s, k)
  }
}
