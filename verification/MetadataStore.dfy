/** The metadata store: the tables as fields, each transaction as a method that
    reads them row by row and rewrites them, proved against ControlPlane. */
module MetadataStores {
  import opened Common
  import opened Policy
  import opened ControlPlane
  import opened Lifecycle

  class MetadataStore {
    var documents: map<Key, DocRow>
    var builds: map<Key, Lease>
    var jobs: map<JobId, JobRow>
    var steps: set<(JobId, Step)>
    var chunks: map<ChunkId, ChunkRow>

    ghost function Tables(): State
      reads this
    {
      State(documents, builds, jobs, steps, chunks)
    }

    ghost predicate Valid()
      reads this
    {
      Inv(Tables())
    }

    constructor ()
      ensures Valid() && Tables() == Empty
    {
      documents, builds, jobs, steps, chunks := map[], map[], map[], {}, map[];
    }

    // -------------------------------------------------------------------
    // Reads
    // -------------------------------------------------------------------

    method CurrentRevision(d: DocId) returns (m: nat)
      ensures m == MaxRevision(documents, d)
    {
      hide MaxRevision;
      m := 0;
      var rest := documents.Keys;
      while rest != {}
        invariant rest <= documents.Keys
        invariant forall k | k in documents && k !in rest && k.doc == d :: documents[k].revision <= m
        invariant m > 0 ==> exists k :: k in documents && k.doc == d && documents[k].revision == m
        decreases rest
      {
        var k :| k in rest;
        rest := rest - {k};
        if k.doc == d && documents[k].revision > m {
          m := documents[k].revision;
        }
      }
    }

    method CurrentActive(d: DocId) returns (v: Option<Version>)
      requires AtMostOneActive(documents)
      ensures v == ActiveVersion(documents, d)
    {
      hide ActiveVersion;
      var rest := documents.Keys;
      while rest != {}
        invariant rest <= documents.Keys
        invariant forall k | k in documents && k !in rest && k.doc == d :: documents[k].status != Active
        decreases rest
      {
        var k :| k in rest;
        rest := rest - {k};
        if k.doc == d && documents[k].status == Active {
          ActiveVersionIs(documents, k);
          return Some(k.version);
        }
      }
      v := None;
    }

    /** The newest row that is neither active nor deleted, if there is one. */
    method RollbackCandidate(d: DocId) returns (v: Option<Version>)
      ensures v.None? <==> forall k | k in documents && k.doc == d :: documents[k].status in {Active, Deleted}
      ensures v.Some? ==>
                && Key(d, v.value) in documents
                && documents[Key(d, v.value)].status !in {Active, Deleted}
                && forall k | k in documents && k.doc == d && documents[k].status !in {Active, Deleted} ::
                     documents[k].revision <= documents[Key(d, v.value)].revision
    {
      v := None;
      var rest := documents.Keys;
      while rest != {}
        invariant rest <= documents.Keys
        invariant v.None? ==>
                    forall k | k in documents && k !in rest && k.doc == d :: documents[k].status in {Active, Deleted}
        invariant v.Some? ==>
                    && Key(d, v.value) in documents
                    && documents[Key(d, v.value)].status !in {Active, Deleted}
                    && forall k | k in documents && k !in rest && k.doc == d && documents[k].status !in {Active, Deleted} ::
                         documents[k].revision <= documents[Key(d, v.value)].revision
        decreases rest
      {
        var k :| k in rest;
        rest := rest - {k};
        if k.doc == d && documents[k].status !in {Active, Deleted} {
          if v.None? || documents[k].revision > documents[Key(d, v.value)].revision {
            assert k == Key(d, k.version);
            v := Some(k.version);
          }
        }
      }
    }

    method OwnsLease(k: Key, job: JobId, generation: nat) returns (owns: bool)
      ensures owns <==> OwnsBuild(Tables(), k, job, generation)
    {
      owns := k in builds && builds[k].owner == job && builds[k].generation == generation;
    }

    method ListChunkRecords(k: Key) returns (ids: set<ChunkId>)
      ensures ids == set id | id in chunks && chunks[id].key == k
    {
      ids := {};
      var rest := chunks.Keys;
      while rest != {}
        invariant rest <= chunks.Keys
        invariant forall id :: id in ids <==> id in chunks && id !in rest && chunks[id].key == k
        decreases rest
      {
        var id :| id in rest;
        rest := rest - {id};
        if chunks[id].key == k {
          ids := ids + {id};
        }
      }
    }

    // -------------------------------------------------------------------
    // Transactions
    // -------------------------------------------------------------------

    /** The transaction, then the marker of the acquire step on its own. */
    method AcquireJob(r: AcquireRequest) returns (outcome: AcquireOutcome)
      requires Valid()
      modifies this
      ensures Valid()
      ensures var (claimed, o) := ControlPlane.AcquireJob(old(Tables()), r);
              && outcome == o
              && Tables() == if o.Acquired? then MarkStep(claimed, r.job, Acquire) else old(Tables())
    {
      hide ControlPlane.AcquireJob, Inv;
      RejectedClaim(Tables(), r);
      outcome := ClaimLease(r);
      if outcome.Acquired? {
        MarkStepDone(r.job, Acquire);
      }
    }

    lemma RejectedClaim(m: State, r: AcquireRequest)
      ensures var (m', o) := ControlPlane.AcquireJob(m, r); !o.Acquired? ==> m' == m
    {
      hide MaxRevision, ActiveVersion;
    }

    method ClaimLease(r: AcquireRequest) returns (outcome: AcquireOutcome)
      requires Valid()
      modifies this
      ensures Valid()
      ensures (Tables(), outcome) == ControlPlane.AcquireJob(old(Tables()), r)
    {
      hide MaxRevision, ActiveVersion, SoundDocuments, SoundLeases, UpsertBuild;
      ghost var before := Tables();
      ValidMeansOne();
      var lease: Lease;
      if r.key !in builds {
        var active := CurrentActive(r.key.doc);
        lease := Lease(r.job, LeaseRunning, 1, active, r.attempt);
      } else {
        var held := builds[r.key];
        if held.owner != r.job {
          if held.owner in jobs && jobs[held.owner].status in {Running, Queued, Cancelling} {
            return BuildConflict;
          }
        } else if held.status == LeaseRunning && held.attempt != r.attempt && !r.recover {
          return BuildConflict;
        }
        lease := Lease(r.job, LeaseRunning, held.generation + 1, held.previous, r.attempt);
      }
      if r.job in jobs && (jobs[r.job].key != r.key || jobs[r.job].rawHash != r.rawHash) {
        return IdentityConflict;
      }
      UpsertDocumentBuild(r.key, r.rawHash, r.acl);
      assert documents == UpsertBuild(before.documents, r.key, r.rawHash, r.acl) by {
        UpsertIs(before.documents, documents, r.key, r.rawHash, r.acl);
      }
      builds := builds[r.key := lease];
      if r.job !in jobs {
        jobs := jobs[r.job := JobRow(r.key, r.rawHash, Running, r.baseRevision, lease.previous)];
      } else if jobs[r.job].status != Running {
        jobs := jobs[r.job := jobs[r.job].(status := Running, previous := lease.previous)];
      } else {
        assert jobs == jobs[r.job := jobs[r.job]];
      }
      AcquireKeepsInv(before, r);
      outcome := Acquired(lease.generation);
    }

    /** Only a row in processing or failed is refreshed, at its own revision. */
    method UpsertDocumentBuild(k: Key, hash: string, acl: ResourceAcl)
      modifies this`documents
      ensures UpsertedRows(old(documents), documents, k, hash, acl)
    {
      if k !in documents {
        documents := documents[k := DocRow(Processing, false, 0, hash, acl)];
      } else if documents[k].status in {Processing, Failed} {
        documents := documents[k := DocRow(Processing, false, documents[k].revision, hash, acl)];
      }
    }

    ghost predicate UpsertedRows(
      docs: map<Key, DocRow>, docs': map<Key, DocRow>, k: Key, hash: string, acl: ResourceAcl) {
      && docs'.Keys == docs.Keys + {k}
      && (forall o | o in docs && (o != k || docs[o].status !in {Processing, Failed}) :: docs'[o] == docs[o])
      && (k !in docs || docs[k].status in {Processing, Failed} ==>
            docs'[k] == DocRow(Processing, false, if k in docs then docs[k].revision else 0, hash, acl))
    }

    lemma UpsertIs(docs: map<Key, DocRow>, docs': map<Key, DocRow>, k: Key, hash: string, acl: ResourceAcl)
      requires UpsertedRows(docs, docs', k, hash, acl)
      ensures docs' == UpsertBuild(docs, k, hash, acl)
    {
    }

    /** Nothing moves but, at most, the row of `k`. */
    ghost predicate OnlyRow(m: State, m': State, k: Key) {
      && m'.(documents := m.documents) == m && m'.documents.Keys == m.documents.Keys
      && forall o | o in m.documents && o != k :: m'.documents[o] == m.documents[o]
    }

    lemma ValidMeansOne()
      requires Valid()
      ensures AtMostOneActive(documents)
    {
    }

    method MarkTerminal(job: JobId, status: JobStatus)
      requires Valid() && Terminal(status)
      modifies this
      ensures Valid() && Tables() == ControlPlane.MarkTerminal(old(Tables()), job, status)
    {
      hide MaxRevision, ActiveVersion, SoundDocuments, SoundLeases;
      ghost var before := Tables();
      if job in jobs {
        jobs := jobs[job := jobs[job].(status := status)];
      }
      if status == Succeeded || status == JobFailed {
        var leaseStatus := if status == Succeeded then LeaseDone else LeaseFailed;
        builds := map k | k in builds ::
          if builds[k].owner == job then builds[k].(status := leaseStatus) else builds[k];
      }
      assert Tables() == Apply(before, DoTerminal(job, status));
      ApplyKeepsInv(before, DoTerminal(job, status));
    }

    method CommitActiveVersion(k: Key, expected: nat) returns (outcome: SwitchOutcome)
      requires Valid()
      modifies this
      ensures Valid()
      ensures (Tables(), outcome) == CommitActive(old(Tables()), k, expected)
    {
      hide MaxRevision, ActiveVersion, SoundDocuments, SoundLeases;
      ghost var before := Tables();
      ApplyKeepsInv(before, DoCommit(k, expected));
      ValidMeansOne();
      var current := CurrentRevision(k.doc);
      var previous := CurrentActive(k.doc);
      if previous == Some(k.version) {
        return AlreadyActive(current);
      }
      if current != expected {
        return StaleRevision;
      }
      if k !in documents {
        return NoTarget;
      }
      SwitchTo(k, previous, current + 1);
      outcome := Switched(current + 1, previous);
    }

    /** The two UPDATE statements of a switch. */
    method SwitchTo(k: Key, previous: Option<Version>, revision: nat)
      requires k in documents && (previous.Some? ==> Key(k.doc, previous.value) in documents)
      modifies this`documents
      ensures documents == SwitchActive(old(documents), previous, k, revision)
    {
      if previous.Some? {
        var p := Key(k.doc, previous.value);
        documents := documents[p := documents[p].(status := Deprecated, deprecated := true, revision := revision)];
      }
      documents := documents[k := documents[k].(status := Active, deprecated := false, revision := revision)];
    }

    /** Roll back to a named version, or to the newest candidate when none is named. */
    method RollbackActiveVersion(d: DocId, to: Option<Version>, expected: Option<nat>)
      returns (outcome: SwitchOutcome, target: Option<Version>)
      requires Valid()
      modifies this
      ensures Valid()
      ensures target.Some? ==>
                (Tables(), outcome) == RollbackActive(old(Tables()), Key(d, target.value), expected)
      ensures to.Some? ==> target == to
      ensures target.None? ==> Tables() == old(Tables()) && outcome == NoTarget
      ensures to.None? && target.Some? ==>
                old(Key(d, target.value) in documents && documents[Key(d, target.value)].status !in {Active, Deleted})
      ensures to.None? && target.Some? ==>
                old(forall k | k in documents && k.doc == d && documents[k].status !in {Active, Deleted} ::
                      documents[k].revision <= documents[Key(d, target.value)].revision)
      ensures to.None? && target.None? ==>
                old(ActiveVersion(documents, d).None?
                    || forall k | k in documents && k.doc == d :: documents[k].status in {Active, Deleted})
    {
      hide MaxRevision, ActiveVersion, SoundDocuments, SoundLeases;
      ghost var before := Tables();
      ValidMeansOne();
      var current := CurrentRevision(d);
      var previous := CurrentActive(d);
      target := to;
      if previous.None? {
        return NoTarget, target;
      }
      if target.None? {
        target := RollbackCandidate(d);
        if target.None? {
          return NoTarget, None;
        }
      }
      var k := Key(d, target.value);
      ApplyKeepsInv(before, DoRollback(k, expected));
      if k !in documents || documents[k].status == Deleted {
        return NoTarget, target;
      }
      if target == previous {
        return AlreadyActive(current), target;
      }
      if expected.Some? && expected.value != current {
        return StaleRevision, target;
      }
      SwitchTo(k, previous, current + 1);
      outcome := Switched(current + 1, previous);
    }

    method LogicalDelete(k: Key)
      requires Valid()
      modifies this
      ensures Valid() && Tables() == ControlPlane.LogicalDelete(old(Tables()), k)
    {
      hide MaxRevision, ActiveVersion, SoundDocuments, SoundLeases;
      ghost var before := Tables();
      ApplyKeepsInv(before, DoDelete(k));
      ValidMeansOne();
      if k !in documents || documents[k].status == Deleted {
        return;
      }
      var t := k;
      if documents[k].status != Active {
        var active := CurrentActive(k.doc);
        if active.None? {
          return;
        }
        t := Key(k.doc, active.value);
      }
      documents := documents[t := documents[t].(status := Deleted, deprecated := true, revision := documents[t].revision + 1)];
    }

    method UpdateDocumentAcl(k: Key, acl: ResourceAcl)
      requires Valid()
      modifies this
      ensures Valid() && Tables() == UpdateAcl(old(Tables()), k, acl)
      ensures OnlyRow(old(Tables()), Tables(), k)
      ensures k in documents ==>
                var row := old(documents[k]);
                documents[k] == if row.status == Active then row.(acl := acl, revision := row.revision + 1) else row
    {
      hide MaxRevision, ActiveVersion, SoundDocuments, SoundLeases;
      ApplyKeepsInv(Tables(), DoAcl(k, acl));
      if k in documents && documents[k].status == Active {
        documents := documents[k := documents[k].(acl := acl, revision := documents[k].revision + 1)];
      }
    }

    method MarkDocumentFailed(k: Key)
      requires Valid()
      modifies this
      ensures Valid() && Tables() == MarkFailed(old(Tables()), k)
      ensures OnlyRow(old(Tables()), Tables(), k)
      ensures k in documents ==> documents[k].revision == old(documents[k].revision) && documents[k].hash == old(documents[k].hash)
      ensures k in documents && old(documents[k].status) !in {Processing, Failed} ==> documents[k] == old(documents[k])
      ensures k in documents && old(documents[k].status) in {Processing, Failed} ==> documents[k].status == Failed
    {
      hide MaxRevision, ActiveVersion, SoundDocuments, SoundLeases;
      ApplyKeepsInv(Tables(), DoFail(k));
      if k in documents && documents[k].status in {Processing, Failed} {
        documents := documents[k := documents[k].(status := Failed, deprecated := false)];
      }
    }

    method DeleteDocument(d: DocId)
      requires Valid()
      modifies this
      ensures Valid() && Tables() == PurgeDocument(old(Tables()), d)
    {
      hide MaxRevision, ActiveVersion, SoundDocuments, SoundLeases;
      ApplyKeepsInv(Tables(), DoPurge(d));
      builds := map k | k in builds && k.doc != d :: builds[k];
      steps := set e | e in steps && !(e.0 in jobs && jobs[e.0].key.doc == d);
      jobs := map j | j in jobs && jobs[j].key.doc != d :: jobs[j];
      documents := map k | k in documents && k.doc != d :: documents[k];
    }

    method MarkStepDone(job: JobId, step: Step)
      requires Valid()
      modifies this
      ensures Valid() && Tables() == MarkStep(old(Tables()), job, step)
    {
      hide MaxRevision, ActiveVersion, SoundDocuments, SoundLeases;
      ApplyKeepsInv(Tables(), DoMarkStep(job, step));
      steps := steps + {(job, step)};
    }

    method ClearJobSteps(job: JobId)
      requires Valid()
      modifies this
      ensures Valid() && Tables() == ClearSteps(old(Tables()), job)
    {
      hide MaxRevision, ActiveVersion, SoundDocuments, SoundLeases;
      ApplyKeepsInv(Tables(), DoClearSteps(job));
      steps := set e | e in steps && e.0 != job;
    }

    method UpsertChunkRecord(id: ChunkId, row: ChunkRow)
      requires Valid()
      modifies this
      ensures Valid() && Tables() == UpsertChunk(old(Tables()), id, row)
    {
      hide MaxRevision, ActiveVersion, SoundDocuments, SoundLeases;
      ApplyKeepsInv(Tables(), DoUpsertChunk(id, row));
      chunks := chunks[id := row];
    }

    method DeleteChunkRecords(k: Key)
      requires Valid()
      modifies this
      ensures Valid() && Tables() == DeleteChunks(old(Tables()), k)
    {
      hide MaxRevision, ActiveVersion, SoundDocuments, SoundLeases;
      ApplyKeepsInv(Tables(), DoDeleteChunks(k));
      chunks := map id | id in chunks && chunks[id].key != k :: chunks[id];
    }
  }
}
