/** What the metadata transactions do and refuse, along runs and row by row. */
module MetadataLaws {
  import opened Common
  import opened Policy
  import opened ControlPlane
  import opened Lifecycle

  // ---------------------------------------------------------------------
  // Rolling back
  // ---------------------------------------------------------------------

  /** Another version of the document is active. */
  ghost predicate OtherActive(docs: map<Key, DocRow>, k: Key) {
    exists a :: a in docs && docs[a].status == Active && a.doc == k.doc && a != k
  }

  ghost predicate Restorable(docs: map<Key, DocRow>, k: Key) {
    k in docs && docs[k].status != Deleted && OtherActive(docs, k)
  }

  lemma OtherActiveIff(docs: map<Key, DocRow>, k: Key)
    requires AtMostOneActive(docs)
    ensures OtherActive(docs, k) <==> ActiveVersion(docs, k.doc).Some? && ActiveVersion(docs, k.doc) != Some(k.version)
    ensures IsActive(docs, k) <==> ActiveVersion(docs, k.doc) == Some(k.version)
  {
    hide ActiveVersion;
    var v := ActiveVersion(docs, k.doc);
    if v.Some? && v.value != k.version { assert IsActive(docs, Key(k.doc, v.value)); }
    if a :| a in docs && docs[a].status == Active && a.doc == k.doc && a != k { ActiveVersionIs(docs, a); }
    if IsActive(docs, k) { ActiveVersionIs(docs, k); }
  }

  /** Revision fencing of a rollback: once any lifecycle change lands behind the read of the expected
      revision, it changes no row, and it answers with a stale revision whenever it could have switched. */
  lemma RollbackIsFenced(run: seq<Action>, read: nat, change: nat, now: nat, k: Key, base: nat)
    requires read <= change < now <= |run| && Unpurged(run, read, now, k.doc)
    requires base == MaxRevision(StateAt(run, read).documents, k.doc)
    requires Effective(StateAt(run, change), run[change], k.doc)
    ensures var s := StateAt(run, now);
            var (s', outcome) := RollbackActive(s, k, Some(base));
            && s' == s && !outcome.Switched?
            && (outcome.AlreadyActive? ==> IsActive(s.documents, k))
            && (outcome.StaleRevision? <==> Restorable(s.documents, k))
  {
    hide StateAt, MaxRevision, ActiveVersion, Effective, SwitchActive;
    RevisionPassed(run, read, change, now, k.doc);
    Reachable(run, now);
    OtherActiveIff(StateAt(run, now).documents, k);
  }

  /** A rollback switches exactly when another version is active, its target is there and not deleted, and
      nothing effective happened since the expected revision, if one is given, was read. */
  lemma RollbackSwitchesIff(run: seq<Action>, read: nat, now: nat, k: Key, expected: Option<nat>)
    requires read <= now <= |run| && Unpurged(run, read, now, k.doc)
    requires expected.Some? ==> expected.value == MaxRevision(StateAt(run, read).documents, k.doc)
    ensures var s := StateAt(run, now);
            RollbackActive(s, k, expected).1.Switched? <==>
            && Restorable(s.documents, k)
            && (expected.None? || forall n | read <= n < now :: !Effective(StateAt(run, n), run[n], k.doc))
  {
    hide StateAt, MaxRevision, ActiveVersion, Effective, SwitchActive;
    Reachable(run, now);
    OtherActiveIff(StateAt(run, now).documents, k);
    if expected.Some? {
      if n :| read <= n < now && Effective(StateAt(run, n), run[n], k.doc) {
        RevisionPassed(run, read, n, now, k.doc);
      } else {
        UnchangedRevision(run, read, now, k.doc);
      }
    }
  }

  // ---------------------------------------------------------------------
  // What a switch leaves
  // ---------------------------------------------------------------------

  /** `k` is active one revision up, the version active before is deprecated at that revision, and
      nothing else moves. */
  ghost predicate SwitchedTo(s: State, s': State, k: Key) {
    var docs, docs', rev := s.documents, s'.documents, MaxRevision(s.documents, k.doc) + 1;
    && s' == s.(documents := docs') && docs'.Keys == docs.Keys
    && k in docs && docs'[k] == docs[k].(status := Active, deprecated := false, revision := rev)
    && forall o | o in docs && o != k ::
         docs'[o] == if o.doc == k.doc && docs[o].status == Active
                     then docs[o].(status := Deprecated, deprecated := true, revision := rev) else docs[o]
  }

  /** What a commit or a rollback reports is what it did. */
  ghost predicate Reports(s: State, s': State, k: Key, outcome: SwitchOutcome) {
    match outcome
    case Switched(revision, previous) =>
      && SwitchedTo(s, s', k) && revision == MaxRevision(s.documents, k.doc) + 1
      && (forall v :: previous == Some(v) <==> IsActive(s.documents, Key(k.doc, v)))
    case AlreadyActive(revision) => s' == s && IsActive(s.documents, k) && revision == MaxRevision(s.documents, k.doc)
    case StaleRevision => s' == s
    case NoTarget => s' == s
  }

  lemma SwitchReports(s: State, k: Key, expected: nat, expectedOpt: Option<nat>)
    requires SoundDocuments(s.documents)
    ensures var (s', o) := CommitActive(s, k, expected); Reports(s, s', k, o)
    ensures var (s', o) := RollbackActive(s, k, expectedOpt); Reports(s, s', k, o)
  {
    hide MaxRevision, ActiveVersion, SwitchActive, SwitchedTo;
    var docs, previous := s.documents, ActiveVersion(s.documents, k.doc);
    OneActive(docs);
    OtherActiveIff(docs, k);
    forall v ensures previous == Some(v) <==> IsActive(docs, Key(k.doc, v)) { OtherActiveIff(docs, Key(k.doc, v)); }
    if k in docs && previous != Some(k.version) {
      SwitchLeaves(s, k);
    }
  }

  lemma SwitchLeaves(s: State, k: Key)
    requires AtMostOneActive(s.documents) && k in s.documents && ActiveVersion(s.documents, k.doc) != Some(k.version)
    ensures var rev := MaxRevision(s.documents, k.doc) + 1;
            SwitchedTo(s, s.(documents := SwitchActive(s.documents, ActiveVersion(s.documents, k.doc), k, rev)), k)
  {
    hide MaxRevision, ActiveVersion;
    forall o | IsActive(s.documents, o) && o.doc == k.doc ensures ActiveVersion(s.documents, k.doc) == Some(o.version) {
      ActiveVersionIs(s.documents, o);
    }
  }

  // ---------------------------------------------------------------------
  // Claims
  // ---------------------------------------------------------------------

  /** The claim of `r` stands: its lease and its job are running under its attempt. */
  ghost predicate Stands(s: State, r: AcquireRequest) {
    && r.key in s.builds && r.job in s.jobs && s.jobs[r.job].key == r.key && s.jobs[r.job].status == Running
    && var lease := s.builds[r.key]; lease.owner == r.job && lease.status == LeaseRunning && lease.attempt == r.attempt
  }

  /** A step that neither ends the job, nor purges its document, nor recovers its build. */
  predicate LeavesClaim(a: Action, r: AcquireRequest) {
    match a
    case DoTerminal(j, _) => j != r.job
    case DoPurge(d) => d != r.key.doc
    case DoAcquire(other) => !(other.recover && other.job == r.job && other.key == r.key)
    case _ => true
  }

  lemma GrantStands(s: State, r: AcquireRequest)
    requires AcquireJob(s, r).1.Acquired?
    ensures Stands(AcquireJob(s, r).0, r)
  {
    hide MaxRevision, ActiveVersion, UpsertBuild;
  }

  lemma StandsOn(s: State, a: Action, r: AcquireRequest)
    requires Stands(s, r) && LeavesClaim(a, r)
    ensures Stands(Apply(s, a), r)
  {
    hide MaxRevision, ActiveVersion, UpsertBuild, SwitchActive, DeleteTarget, ClearSteps, DeleteChunks;
  }

  lemma StandingRefuses(s: State, r: AcquireRequest, other: AcquireRequest)
    requires Stands(s, r) && other.key == r.key
    requires other.job != r.job || (other.attempt != r.attempt && !other.recover)
    ensures AcquireJob(s, other) == (s, BuildConflict)
  {
    hide MaxRevision, ActiveVersion, UpsertBuild;
  }

  /** Mutual exclusion: a granted build is refused to every other job, and to every other attempt of its
      own job that does not recover, until the job ends, recovers the build, or the document is purged. */
  lemma {:induction false} HeldUntilEnded(run: seq<Action>, claim: nat, now: nat, r: AcquireRequest, other: AcquireRequest)
    requires claim < now <= |run| && run[claim] == DoAcquire(r) && AcquireJob(StateAt(run, claim), r).1.Acquired?
    requires forall n | claim < n < now :: LeavesClaim(run[n], r)
    requires other.key == r.key && (other.job != r.job || (other.attempt != r.attempt && !other.recover))
    ensures AcquireJob(StateAt(run, now), other) == (StateAt(run, now), BuildConflict)
  {
    hide AcquireJob, Stands, LeavesClaim;
    StandsUntil(run, claim, now, r);
    StandingRefuses(StateAt(run, now), r, other);
  }

  lemma {:induction false} StandsUntil(run: seq<Action>, claim: nat, now: nat, r: AcquireRequest)
    requires claim < now <= |run| && run[claim] == DoAcquire(r) && AcquireJob(StateAt(run, claim), r).1.Acquired?
    requires forall n | claim < n < now :: LeavesClaim(run[n], r)
    ensures Stands(StateAt(run, now), r)
  {
    hide AcquireJob, Stands, LeavesClaim;
    if now == claim + 1 {
      GrantStands(StateAt(run, claim), r);
      assert StateAt(run, now) == Apply(StateAt(run, claim), run[claim]);
    } else {
      StandsUntil(run, claim, now - 1, r);
      hide Apply;
      StandsOn(StateAt(run, now - 1), run[now - 1], r);
    }
  }

  /** Other content under a known job id is refused, whoever holds the build. */
  lemma ForeignIdentityIsRefused(s: State, r: AcquireRequest)
    requires r.job in s.jobs && (s.jobs[r.job].key != r.key || s.jobs[r.job].rawHash != r.rawHash)
    ensures AcquireJob(s, r).0 == s && !AcquireJob(s, r).1.Acquired?
  {
  }

  /** Everybody else is let in: a build without a lease, one whose owner's job has ended, and one's own
      build once its lease has ended, or to recover it. */
  lemma ClaimIsGranted(s: State, r: AcquireRequest)
    requires r.job in s.jobs ==> s.jobs[r.job].key == r.key && s.jobs[r.job].rawHash == r.rawHash
    requires r.key in s.builds ==>
               var lease := s.builds[r.key];
               if lease.owner == r.job then lease.status != LeaseRunning || lease.attempt == r.attempt || r.recover
               else lease.owner !in s.jobs || Terminal(s.jobs[lease.owner].status)
    ensures AcquireJob(s, r).1.Acquired?
  {
  }

  // ---------------------------------------------------------------------
  // Endings
  // ---------------------------------------------------------------------

  /** Job row and leases of an ended job, and nothing else. */
  lemma EndedTables(s: State, j: JobId, status: JobStatus)
    requires Terminal(status)
    ensures var s' := MarkTerminal(s, j, status);
            && s'.documents == s.documents && s'.steps == s.steps && s'.chunks == s.chunks
            && s'.jobs.Keys == s.jobs.Keys && s'.builds.Keys == s.builds.Keys
            && (forall o | o in s.jobs :: s'.jobs[o] == if o == j then s.jobs[o].(status := status) else s.jobs[o])
            && (forall k | k in s.builds && s.builds[k].owner != j :: s'.builds[k] == s.builds[k])
            && (forall k | k in s.builds && s.builds[k].owner == j ::
                  && s'.builds[k].(status := s.builds[k].status) == s.builds[k]
                  && s'.builds[k].status == if status == Succeeded then LeaseDone
                                            else if status == JobFailed then LeaseFailed else s.builds[k].status)
  {
  }

  /** An ended job's build is free again: any job may take it over, and its own next attempt too unless the
      job was cancelled. */
  lemma EndedIsFree(s: State, r: AcquireRequest, status: JobStatus, other: AcquireRequest)
    requires Stands(s, r) && Terminal(status) && other.key == r.key
    requires other.job in s.jobs ==> s.jobs[other.job].key == other.key && s.jobs[other.job].rawHash == other.rawHash
    ensures AcquireJob(MarkTerminal(s, r.job, status), other).1.Acquired?
            <==> (other.job == r.job && status == Cancelled ==> other.attempt == r.attempt || other.recover)
  {
    hide MaxRevision, ActiveVersion, UpsertBuild;
    EndedTables(s, r.job, status);
    hide MarkTerminal;
  }

  /** The transactions on one row: a claim refreshes a row that was never committed, a failure fails such a row, and a new
      ACL raises the revision of an active one; no other row is touched, and no row they do not concern. */
  lemma RowsWritten(docs: map<Key, DocRow>, s: State, k: Key, hash: string, acl: ResourceAcl)
    requires s.documents == docs
    ensures var claimed, failed, revised := UpsertBuild(docs, k, hash, acl), MarkFailed(s, k).documents, UpdateAcl(s, k, acl).documents;
            && (forall o | o != k :: Same(claimed, docs, o) && Same(failed, docs, o) && Same(revised, docs, o))
            && (k !in docs ==> k in claimed && claimed[k] == DocRow(Processing, false, 0, hash, acl) && k !in failed && k !in revised)
            && (k in docs ==> k in claimed && k in failed && k in revised)
            && (k in docs && (docs[k].status == Processing || docs[k].status == Failed) ==>
                  && claimed[k] == DocRow(Processing, false, docs[k].revision, hash, acl)
                  && failed[k] == DocRow(Failed, false, docs[k].revision, docs[k].hash, docs[k].acl))
            && (k in docs && docs[k].status != Processing && docs[k].status != Failed ==> claimed[k] == failed[k] == docs[k])
            && (k in docs ==>
                  revised[k] == if docs[k].status == Active
                                then docs[k].(acl := acl, revision := docs[k].revision + 1) else docs[k])
  {
  }

  /** A delete acts exactly when its row is there and not deleted and some version is active; it takes the
      active row one revision up to deleted, so that no version is active any more. */
  lemma DeleteLeaves(s: State, k: Key)
    requires SoundDocuments(s.documents)
    ensures var docs, s' := s.documents, LogicalDelete(s, k);
            if k in docs && docs[k].status != Deleted && (IsActive(docs, k) || OtherActive(docs, k)) then
              && s' == s.(documents := s'.documents) && s'.documents.Keys == docs.Keys
              && (forall o | o in docs ::
                    s'.documents[o] == if o.doc == k.doc && docs[o].status == Active
                                       then docs[o].(status := Deleted, deprecated := true, revision := docs[o].revision + 1)
                                       else docs[o])
              && ActiveVersion(s'.documents, k.doc).None?
            else s' == s
  {
    hide MaxRevision, ActiveVersion;
    OneActive(s.documents);
    OtherActiveIff(s.documents, k);
    var docs, s' := s.documents, LogicalDelete(s, k);
    forall o | IsActive(docs, o) && o.doc == k.doc ensures ActiveVersion(docs, k.doc) == Some(o.version) {
      ActiveVersionIs(docs, o);
    }
    var v := ActiveVersion(s'.documents, k.doc);
    assert v.Some? ==> IsActive(s'.documents, Key(k.doc, v.value));
  }

  /** A purge leaves nothing of its document in any table but the chunk rows, and everything of the others. */
  lemma PurgeLeaves(s: State, d: DocId)
    ensures var s' := PurgeDocument(s, d);
            && (forall k: Key | k.doc == d :: k !in s'.documents && k !in s'.builds)
            && (forall k: Key | k.doc != d :: Same(s'.documents, s.documents, k) && Same(s'.builds, s.builds, k))
            && (forall j | j in s.jobs && s.jobs[j].key.doc == d :: j !in s'.jobs && forall step :: (j, step) !in s'.steps)
            && (forall j | j !in s.jobs || s.jobs[j].key.doc != d ::
                  Same(s'.jobs, s.jobs, j) && forall step :: (j, step) in s'.steps <==> (j, step) in s.steps)
            && s'.chunks == s.chunks
  {
  }

  /** Markers and chunk rows are written and cleared by job and by version. */
  lemma MarkersAndRows(s: State, j: JobId, step: Step, k: Key, id: ChunkId, row: ChunkRow)
    ensures forall o, x :: (o, x) in MarkStep(s, j, step).steps <==> (o, x) in s.steps || (o == j && x == step)
    ensures forall o, x :: (o, x) in ClearSteps(s, j).steps <==> (o, x) in s.steps && o != j
    ensures forall o :: if o == id then o in UpsertChunk(s, id, row).chunks && UpsertChunk(s, id, row).chunks[o] == row
                        else Same(UpsertChunk(s, id, row).chunks, s.chunks, o)
    ensures forall o :: if o in s.chunks && s.chunks[o].key == k then o !in DeleteChunks(s, k).chunks
                        else Same(DeleteChunks(s, k).chunks, s.chunks, o)
  {
  }
}
