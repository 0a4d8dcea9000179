/** Invariants of every reachable control-plane state, and what holds along whole
    runs: revision fencing, lease safety, and the version a commit replaces. */
module Lifecycle {
  import opened Common
  import opened Policy
  import opened ControlPlane

  // ---------------------------------------------------------------------
  // The inductive invariant
  // ---------------------------------------------------------------------

  /** The active row of a document carries the document's maximum revision. */
  ghost predicate ActiveRowIsNewest(docs: map<Key, DocRow>) {
    forall a, b | IsActive(docs, a) && b in docs && b.doc == a.doc :: docs[b].revision <= docs[a].revision
  }

  ghost predicate SoundDocuments(docs: map<Key, DocRow>) {
    AtMostOneActive(docs) && ActiveRowIsNewest(docs)
  }

  /** A running job owns the lease of its build and agrees with it on the version it replaces. */
  ghost predicate RunningOwnsLease(s: State) {
    forall j | j in s.jobs && s.jobs[j].status == Running ::
      && s.jobs[j].key in s.builds
      && s.builds[s.jobs[j].key].owner == j
      && s.builds[s.jobs[j].key].previous == s.jobs[j].previous
  }

  /** Rows reference one another: a lease names a job of its own build, a job
      has a lease and a document row. */
  ghost predicate Linked(s: State) {
    && (forall k | k in s.builds ::
          s.builds[k].owner in s.jobs && s.jobs[s.builds[k].owner].key == k && s.builds[k].generation >= 1)
    && (forall j | j in s.jobs :: s.jobs[j].key in s.builds && s.jobs[j].key in s.documents)
  }

  ghost predicate Inv(s: State) {
    SoundDocuments(s.documents) && SoundLeases(s)
  }

  // ---------------------------------------------------------------------
  // What one transaction does to the document table
  // ---------------------------------------------------------------------

  /** The rows of `d` keep their revisions and their active member; new ones start at 0. */
  ghost predicate Unmoved(docs: map<Key, DocRow>, docs': map<Key, DocRow>, d: DocId) {
    && (forall k | k in docs && k.doc == d :: k in docs' && docs'[k].revision == docs[k].revision)
    && (forall k | k in docs' && k.doc == d && k !in docs :: docs'[k].revision == 0)
    && (forall k: Key | k.doc == d :: IsActive(docs', k) <==> IsActive(docs, k))
  }

  lemma UnmovedKeeps(docs: map<Key, DocRow>, docs': map<Key, DocRow>, d: DocId)
    requires AtMostOneActive(docs) && Unmoved(docs, docs', d)
    ensures MaxRevision(docs', d) == MaxRevision(docs, d)
    ensures ActiveVersion(docs', d) == ActiveVersion(docs, d)
  {
    hide MaxRevision, ActiveVersion;
    var m := MaxRevision(docs, d);
    if m > 0 {
      var k :| k in docs && k.doc == d && docs[k].revision == m;
      assert k in docs';
    }
    var v, v' := ActiveVersion(docs, d), ActiveVersion(docs', d);
    assert v.Some? ==> IsActive(docs', Key(d, v.value));
    if v'.Some? {
      ActiveVersionIs(docs, Key(d, v'.value));
    }
  }

  lemma SwitchRows(docs: map<Key, DocRow>, k: Key, rev: nat)
    requires AtMostOneActive(docs) && k in docs && ActiveVersion(docs, k.doc) != Some(k.version)
    ensures var docs' := SwitchActive(docs, ActiveVersion(docs, k.doc), k, rev);
            && docs'.Keys == docs.Keys
            && docs'[k].status == Active && docs'[k].revision == rev
            && (forall o | o in docs && o.doc != k.doc :: docs'[o] == docs[o])
            && (forall o | o in docs && o.doc == k.doc && o != k ::
                  docs'[o].status != Active && (docs'[o].revision == rev || docs'[o].revision == docs[o].revision))
  {
    hide MaxRevision, ActiveVersion;
    var previous := ActiveVersion(docs, k.doc);
    forall o | o in docs && o.doc == k.doc && o != k
      ensures docs[o].status == Active ==> previous.Some? && o == Key(k.doc, previous.value)
    {
      if docs[o].status == Active { ActiveVersionIs(docs, o); }
    }
  }

  /** Switching keeps the table sound and moves its document as stated, and no other. */
  lemma SwitchMoves(docs: map<Key, DocRow>, k: Key, rev: nat)
    requires SoundDocuments(docs) && k in docs
    requires ActiveVersion(docs, k.doc) != Some(k.version) && rev == MaxRevision(docs, k.doc) + 1
    ensures var docs' := SwitchActive(docs, ActiveVersion(docs, k.doc), k, rev);
            && SoundDocuments(docs') && MaxRevision(docs', k.doc) == rev
            && ActiveVersion(docs', k.doc) == Some(k.version)
            && (forall d: DocId | d != k.doc :: Unmoved(docs, docs', d))
  {
    hide MaxRevision, ActiveVersion, SwitchActive;
    var docs' := SwitchActive(docs, ActiveVersion(docs, k.doc), k, rev);
    SwitchRows(docs, k, rev);
    assert IsActive(docs', k);
    ActiveVersionIs(docs', k);
  }

  /** What every transaction does to one document: the revision rises by one
      when it is effective there, and otherwise nothing moves. */
  ghost predicate Moves(docs: map<Key, DocRow>, docs': map<Key, DocRow>, d: DocId, effective: bool) {
    && SoundDocuments(docs')
    && MaxRevision(docs', d) == MaxRevision(docs, d) + (if effective then 1 else 0)
    && (!effective ==> ActiveVersion(docs', d) == ActiveVersion(docs, d))
  }

  /** Writing one row that is not active and keeps its revision moves nothing. */
  lemma RowMoves(docs: map<Key, DocRow>, k: Key, row: DocRow, d: DocId)
    requires SoundDocuments(docs) && row.status != Active
    requires if k in docs then docs[k].status != Active && row.revision == docs[k].revision else row.revision == 0
    ensures Moves(docs, docs[k := row], d, false)
  {
    hide MaxRevision, ActiveVersion;
    var docs' := docs[k := row];
    assert forall o :: IsActive(docs', o) <==> IsActive(docs, o);
    assert Unmoved(docs, docs', d);
    UnmovedKeeps(docs, docs', d);
  }

  lemma StandingMoves(docs: map<Key, DocRow>, d: DocId)
    requires SoundDocuments(docs)
    ensures Moves(docs, docs, d, false)
  {
    hide MaxRevision, ActiveVersion;
  }

  lemma UpsertMoves(docs: map<Key, DocRow>, k: Key, hash: string, acl: ResourceAcl, d: DocId)
    requires SoundDocuments(docs)
    ensures Moves(docs, UpsertBuild(docs, k, hash, acl), d, false)
  {
    hide Moves, SoundDocuments;
    if UpsertBuild(docs, k, hash, acl) == docs { StandingMoves(docs, d); }
    else { RowMoves(docs, k, UpsertBuild(docs, k, hash, acl)[k], d); }
  }

  lemma SwitchCounts(docs: map<Key, DocRow>, k: Key, d: DocId)
    requires SoundDocuments(docs) && k in docs && ActiveVersion(docs, k.doc) != Some(k.version)
    ensures Moves(docs, SwitchActive(docs, ActiveVersion(docs, k.doc), k, MaxRevision(docs, k.doc) + 1), d, k.doc == d)
  {
    hide MaxRevision, ActiveVersion, SwitchActive, Unmoved;
    SwitchMoves(docs, k, MaxRevision(docs, k.doc) + 1);
    if k.doc != d {
      UnmovedKeeps(docs, SwitchActive(docs, ActiveVersion(docs, k.doc), k, MaxRevision(docs, k.doc) + 1), d);
    }
  }

  lemma CommitMoves(s: State, k: Key, e: nat, d: DocId)
    requires SoundDocuments(s.documents)
    ensures Moves(s.documents, CommitActive(s, k, e).0.documents, d, Effective(s, DoCommit(k, e), d))
  {
    hide MaxRevision, ActiveVersion, SwitchActive, SoundDocuments;
    if CommitActive(s, k, e).1.Switched? { SwitchCounts(s.documents, k, d); }
  }

  lemma RollbackMoves(s: State, k: Key, e: Option<nat>, d: DocId)
    requires SoundDocuments(s.documents)
    ensures Moves(s.documents, RollbackActive(s, k, e).0.documents, d, Effective(s, DoRollback(k, e), d))
  {
    hide MaxRevision, ActiveVersion, SwitchActive, SoundDocuments;
    if RollbackActive(s, k, e).1.Switched? { SwitchCounts(s.documents, k, d); }
  }

  /** Moving an active row one revision up moves its document and no other. */
  lemma BumpMoves(docs: map<Key, DocRow>, k: Key, row: DocRow, d: DocId)
    requires SoundDocuments(docs) && IsActive(docs, k) && row.revision == docs[k].revision + 1
    ensures Moves(docs, docs[k := row], d, k.doc == d)
  {
    hide MaxRevision, ActiveVersion;
    if k.doc != d { UnmovedKeeps(docs, docs[k := row], d); }
  }

  lemma DeletedRow(docs: map<Key, DocRow>, k: Key)
    ensures DeleteTarget(docs, k).Some? ==>
      IsActive(docs, DeleteTarget(docs, k).value) && DeleteTarget(docs, k).value.doc == k.doc
  {
  }

  lemma DeleteMoves(s: State, k: Key, d: DocId)
    requires SoundDocuments(s.documents)
    ensures Moves(s.documents, LogicalDelete(s, k).documents, d, Effective(s, DoDelete(k), d))
  {
    hide MaxRevision, ActiveVersion, DeleteTarget, SoundDocuments, Moves;
    DeletedRow(s.documents, k);
    var t := DeleteTarget(s.documents, k);
    if t.Some? { BumpMoves(s.documents, t.value, LogicalDelete(s, k).documents[t.value], d); }
    else { StandingMoves(s.documents, d); }
  }

  lemma AclMoves(s: State, k: Key, acl: ResourceAcl, d: DocId)
    requires SoundDocuments(s.documents)
    ensures Moves(s.documents, UpdateAcl(s, k, acl).documents, d, Effective(s, DoAcl(k, acl), d))
  {
    hide MaxRevision, ActiveVersion, SoundDocuments, Moves;
    if IsActive(s.documents, k) { BumpMoves(s.documents, k, UpdateAcl(s, k, acl).documents[k], d); }
    else { StandingMoves(s.documents, d); }
  }

  lemma FailMoves(s: State, k: Key, d: DocId)
    requires SoundDocuments(s.documents)
    ensures Moves(s.documents, MarkFailed(s, k).documents, d, false)
  {
    hide Moves, SoundDocuments;
    if MarkFailed(s, k).documents == s.documents { StandingMoves(s.documents, d); }
    else { RowMoves(s.documents, k, MarkFailed(s, k).documents[k], d); }
  }

  lemma PurgeMoves(s: State, purged: DocId, d: DocId)
    requires SoundDocuments(s.documents)
    ensures SoundDocuments(PurgeDocument(s, purged).documents)
    ensures d != purged ==> Moves(s.documents, PurgeDocument(s, purged).documents, d, false)
  {
    PurgeSound(s, purged);
    hide MaxRevision, ActiveVersion, SoundDocuments;
    if d != purged {
      assert AtMostOneActive(s.documents) by { OneActive(s.documents); }
      UnmovedKeeps(s.documents, PurgeDocument(s, purged).documents, d);
    }
  }

  lemma OneActive(docs: map<Key, DocRow>)
    requires SoundDocuments(docs)
    ensures AtMostOneActive(docs)
  {
  }

  lemma PurgeSound(s: State, purged: DocId)
    requires SoundDocuments(s.documents)
    ensures SoundDocuments(PurgeDocument(s, purged).documents)
  {
    hide MaxRevision, ActiveVersion;
  }

  /** The transactions that move a document's lifecycle: an effective switch,
      delete, or ACL change. */
  ghost predicate Effective(s: State, a: Action, d: DocId) {
    match a
    case DoCommit(k, e) => k.doc == d && CommitActive(s, k, e).1.Switched?
    case DoRollback(k, e) => k.doc == d && RollbackActive(s, k, e).1.Switched?
    case DoDelete(k) => k.doc == d && DeleteTarget(s.documents, k).Some?
    case DoAcl(k, _) => k.doc == d && IsActive(s.documents, k)
    case _ => false
  }

  /** Between purges a transaction raises a document's revision by exactly one
      when it is effective on that document, and otherwise leaves revision and
      active version alone. */
  lemma RevisionCountsEffectiveSteps(s: State, a: Action, d: DocId)
    requires SoundDocuments(s.documents) && a != DoPurge(d)
    ensures Moves(s.documents, Apply(s, a).documents, d, Effective(s, a, d))
  {
    hide MaxRevision, ActiveVersion, SoundDocuments, Moves, UpsertBuild, NextLease, NextJob, CommitActive, RollbackActive,
         LogicalDelete, DeleteTarget, UpdateAcl, MarkFailed, PurgeDocument, MarkTerminal, ClearSteps, DeleteChunks;
    StandingMoves(s.documents, d);
    match a
    case DoAcquire(r) => UpsertMoves(s.documents, r.key, r.rawHash, r.acl, d);
    case DoCommit(k, e) => CommitMoves(s, k, e, d);
    case DoRollback(k, e) => RollbackMoves(s, k, e, d);
    case DoDelete(k) => DeleteMoves(s, k, d);
    case DoAcl(k, acl) => AclMoves(s, k, acl, d);
    case DoFail(k) => FailMoves(s, k, d);
    case DoPurge(p) => PurgeMoves(s, p, d);
    case _ =>
  }

  ghost predicate SoundLeases(s: State) {
    RunningOwnsLease(s) && Linked(s)
  }

  lemma AcquireKeepsLinks(s: State, r: AcquireRequest)
    requires SoundLeases(s)
    ensures Linked(AcquireJob(s, r).0)
  {
    hide MaxRevision, ActiveVersion, RunningOwnsLease;
  }

  lemma AcquireKeepsLeases(s: State, r: AcquireRequest)
    requires SoundLeases(s)
    ensures SoundLeases(AcquireJob(s, r).0)
  {
    AcquireKeepsLinks(s, r);
    hide *;
  }

  lemma TerminalKeepsOwners(s: State, j: JobId, status: JobStatus)
    requires SoundLeases(s) && Terminal(status)
    ensures RunningOwnsLease(MarkTerminal(s, j, status))
  {
  }

  lemma TerminalKeepsLeases(s: State, j: JobId, status: JobStatus)
    requires SoundLeases(s) && Terminal(status)
    ensures SoundLeases(MarkTerminal(s, j, status))
  {
    TerminalKeepsOwners(s, j, status);
    hide RunningOwnsLease;
  }

  lemma PurgeKeepsLeases(s: State, d: DocId)
    requires SoundLeases(s)
    ensures SoundLeases(PurgeDocument(s, d))
  {
  }

  /** The other transactions leave jobs and leases alone and drop no document row. */
  lemma OthersKeepLeases(s: State, s': State)
    requires SoundLeases(s) && s'.jobs == s.jobs && s'.builds == s.builds && s.documents.Keys <= s'.documents.Keys
    ensures SoundLeases(s')
  {
  }

  lemma ApplyKeepsLeases(s: State, a: Action)
    requires SoundLeases(s)
    ensures SoundLeases(Apply(s, a))
  {
    hide MaxRevision, ActiveVersion, SoundLeases, AcquireJob, MarkTerminal, PurgeDocument, ClearSteps, DeleteChunks,
         SwitchActive;
    match a
    case DoAcquire(r) => AcquireKeepsLeases(s, r);
    case DoTerminal(j, status) => if Terminal(status) { TerminalKeepsLeases(s, j, status); }
    case DoPurge(d) => PurgeKeepsLeases(s, d);
    case DoCommit(k, e) =>
      if CommitActive(s, k, e).1.Switched? { SwitchKeys(s.documents, ActiveVersion(s.documents, k.doc), k, MaxRevision(s.documents, k.doc) + 1); }
      OthersKeepLeases(s, Apply(s, a));
    case DoRollback(k, e) =>
      if RollbackActive(s, k, e).1.Switched? { SwitchKeys(s.documents, ActiveVersion(s.documents, k.doc), k, MaxRevision(s.documents, k.doc) + 1); }
      OthersKeepLeases(s, Apply(s, a));
    case _ => OthersKeepLeases(s, Apply(s, a));
  }

  lemma SwitchKeys(docs: map<Key, DocRow>, previous: Option<Version>, k: Key, rev: nat)
    requires k in docs && (previous.Some? ==> Key(k.doc, previous.value) in docs)
    ensures SwitchActive(docs, previous, k, rev).Keys == docs.Keys
  {
  }

  lemma ApplyKeepsInv(s: State, a: Action)
    requires Inv(s)
    ensures Inv(Apply(s, a))
  {
    hide MaxRevision, ActiveVersion, SoundDocuments, SoundLeases, AcquireJob, CommitActive,
         RollbackActive, LogicalDelete, UpdateAcl, MarkFailed, PurgeDocument, MarkTerminal;
    if a.DoPurge? {
      PurgeMoves(s, a.doc, a.doc);
    } else {
      RevisionCountsEffectiveSteps(s, a, DocId("", "", ""));
    }
    ApplyKeepsLeases(s, a);
  }

  lemma AcquireKeepsInv(s: State, r: AcquireRequest)
    requires Inv(s)
    ensures Inv(AcquireJob(s, r).0)
  {
    hide MaxRevision, ActiveVersion, SoundDocuments, SoundLeases, AcquireJob;
    ApplyKeepsInv(s, DoAcquire(r));
  }

  // ---------------------------------------------------------------------
  // Runs: any sequence of transactions from the empty store
  // ---------------------------------------------------------------------

  ghost function StateAt(run: seq<Action>, n: nat): State
    requires n <= |run|
  {
    if n == 0 then Empty else Apply(StateAt(run, n - 1), run[n - 1])
  }

  /** Every reachable state satisfies the invariant. */
  lemma {:induction false} Reachable(run: seq<Action>, n: nat)
    requires n <= |run|
    ensures Inv(StateAt(run, n))
  {
    hide Apply, MaxRevision, ActiveVersion;
    if n > 0 {
      Reachable(run, n - 1);
      ApplyKeepsInv(StateAt(run, n - 1), run[n - 1]);
    }
  }

  /** No purge of `d` among the steps from `i` up to `j`. */
  ghost predicate Unpurged(run: seq<Action>, i: nat, j: nat, d: DocId)
    requires i <= j <= |run|
  {
    forall n | i <= n < j :: run[n] != DoPurge(d)
  }

  // ---------------------------------------------------------------------
  // Revision fencing along a run
  // ---------------------------------------------------------------------

  /** The revision never falls between purges. */
  lemma {:induction false} RevisionMonotone(run: seq<Action>, i: nat, j: nat, d: DocId)
    requires i <= j <= |run| && Unpurged(run, i, j, d)
    ensures MaxRevision(StateAt(run, i).documents, d) <= MaxRevision(StateAt(run, j).documents, d)
  {
    hide Apply, MaxRevision, ActiveVersion, Effective, SoundDocuments, SoundLeases;
    if i < j {
      RevisionMonotone(run, i, j - 1, d);
      Reachable(run, j - 1);
      RevisionCountsEffectiveSteps(StateAt(run, j - 1), run[j - 1], d);
    }
  }

  /** While the revision stands still, so does the active version. */
  lemma {:induction false} StillRevisionStillActive(run: seq<Action>, i: nat, j: nat, d: DocId)
    requires i <= j <= |run| && Unpurged(run, i, j, d)
    requires MaxRevision(StateAt(run, i).documents, d) == MaxRevision(StateAt(run, j).documents, d)
    ensures ActiveVersion(StateAt(run, i).documents, d) == ActiveVersion(StateAt(run, j).documents, d)
  {
    hide Apply, MaxRevision, ActiveVersion, Effective, SoundDocuments, SoundLeases;
    if i < j {
      RevisionMonotone(run, i, j - 1, d);
      Reachable(run, j - 1);
      var s := StateAt(run, j - 1);
      RevisionCountsEffectiveSteps(s, run[j - 1], d);
      StillRevisionStillActive(run, i, j - 1, d);
    }
  }

  /** An effective step leaves every later revision above what was read before it. */
  lemma RevisionPassed(run: seq<Action>, read: nat, change: nat, now: nat, d: DocId)
    requires read <= change < now <= |run| && Unpurged(run, read, now, d)
    requires Effective(StateAt(run, change), run[change], d)
    ensures MaxRevision(StateAt(run, read).documents, d) < MaxRevision(StateAt(run, now).documents, d)
  {
    hide Apply, MaxRevision, ActiveVersion, Effective, SoundDocuments, SoundLeases;
    RevisionMonotone(run, read, change, d);
    Reachable(run, change);
    RevisionCountsEffectiveSteps(StateAt(run, change), run[change], d);
    RevisionMonotone(run, change + 1, now, d);
  }

  /** Revision fencing: once any lifecycle change lands after a job read its base
      revision, that job's commit changes no row, unless its version is active already. */
  lemma CommitIsFenced(run: seq<Action>, read: nat, change: nat, now: nat, k: Key, base: nat)
    requires read <= change < now <= |run| && Unpurged(run, read, now, k.doc)
    requires base == MaxRevision(StateAt(run, read).documents, k.doc)
    requires Effective(StateAt(run, change), run[change], k.doc)
    ensures var s := StateAt(run, now);
            && CommitActive(s, k, base).0 == s
            && (CommitActive(s, k, base).1 == StaleRevision || ActiveVersion(s.documents, k.doc) == Some(k.version))
  {
    hide StateAt, MaxRevision, ActiveVersion, Effective, SwitchActive;
    RevisionPassed(run, read, change, now, k.doc);
  }

  /** The other half: with no lifecycle change since the read, and its row still
      there, the commit does switch. */
  lemma {:induction false} UnchangedRevision(run: seq<Action>, i: nat, j: nat, d: DocId)
    requires i <= j <= |run| && Unpurged(run, i, j, d)
    requires forall n | i <= n < j :: !Effective(StateAt(run, n), run[n], d)
    ensures MaxRevision(StateAt(run, j).documents, d) == MaxRevision(StateAt(run, i).documents, d)
  {
    hide Apply, MaxRevision, ActiveVersion, Effective, SoundDocuments, SoundLeases;
    if i < j {
      UnchangedRevision(run, i, j - 1, d);
      Reachable(run, j - 1);
      RevisionCountsEffectiveSteps(StateAt(run, j - 1), run[j - 1], d);
    }
  }

  /** A commit against the base read at `read` switches exactly when nothing
      effective happened since and there is a row, not yet active, to activate. */
  lemma CommitSwitchesIffUnchanged(run: seq<Action>, read: nat, now: nat, k: Key, base: nat)
    requires read <= now <= |run| && Unpurged(run, read, now, k.doc)
    requires base == MaxRevision(StateAt(run, read).documents, k.doc)
    ensures var s := StateAt(run, now);
            CommitActive(s, k, base).1.Switched? <==>
            && (forall n | read <= n < now :: !Effective(StateAt(run, n), run[n], k.doc))
            && k in s.documents && !IsActive(s.documents, k)
  {
    var s := StateAt(run, now);
    Reachable(run, now);
    if IsActive(s.documents, k) {
      ActiveVersionIs(s.documents, k);
    }
    assert ActiveVersion(s.documents, k.doc) == Some(k.version) ==> IsActive(s.documents, k);
    if n :| read <= n < now && Effective(StateAt(run, n), run[n], k.doc) {
      CommitIsFenced(run, read, n, now, k, base);
    } else {
      UnchangedRevision(run, read, now, k.doc);
    }
  }

  lemma JobRowFrozen(s: State, a: Action, job: JobId)
    requires job in s.jobs && a != DoPurge(s.jobs[job].key.doc)
    ensures var jobs := Apply(s, a).jobs;
            job in jobs && jobs[job].key == s.jobs[job].key && jobs[job].baseRevision == s.jobs[job].baseRevision
  {
    hide MaxRevision, ActiveVersion, SwitchActive, UpsertBuild, DeleteTarget;
  }

  /** A job row keeps its identity and base revision for as long as it exists: a
      resume never refreshes what the commit is compared against. */
  lemma {:induction false} BaseRevisionFrozen(run: seq<Action>, i: nat, j: nat, job: JobId)
    requires i <= j <= |run| && job in StateAt(run, i).jobs
    requires Unpurged(run, i, j, StateAt(run, i).jobs[job].key.doc)
    ensures job in StateAt(run, j).jobs
    ensures StateAt(run, j).jobs[job].key == StateAt(run, i).jobs[job].key
    ensures StateAt(run, j).jobs[job].baseRevision == StateAt(run, i).jobs[job].baseRevision
  {
    hide Apply, MaxRevision, ActiveVersion;
    if i < j {
      BaseRevisionFrozen(run, i, j - 1, job);
      JobRowFrozen(StateAt(run, j - 1), run[j - 1], job);
    }
  }

  // ---------------------------------------------------------------------
  // Leases
  // ---------------------------------------------------------------------

  /** At most one running job per build, in every reachable state. */
  lemma OneRunningJobPerBuild(run: seq<Action>, n: nat, a: JobId, b: JobId)
    requires n <= |run|
    requires var s := StateAt(run, n);
             a in s.jobs && b in s.jobs && s.jobs[a].status == Running && s.jobs[b].status == Running
             && s.jobs[a].key == s.jobs[b].key
    ensures a == b
  {
    Reachable(run, n);
  }

  ghost predicate GrantsLease(s: State, a: Action, k: Key) {
    a.DoAcquire? && a.request.key == k && AcquireJob(s, a.request).1.Acquired?
  }

  lemma LeaseMovesOnlyByAcquire(s: State, a: Action, k: Key)
    requires k in s.builds && a != DoPurge(k.doc) && !GrantsLease(s, a, k)
    ensures var after := Apply(s, a);
            k in after.builds && after.builds[k].(status := s.builds[k].status) == s.builds[k]
  {
    hide MaxRevision, ActiveVersion, SwitchActive, UpsertBuild, DeleteTarget, ClearSteps, DeleteChunks, NextJob;
    if !a.DoAcquire? && !a.DoTerminal? && !a.DoPurge? {
      assert Apply(s, a).builds == s.builds;
    }
  }

  /** A lease changes hands only when its owner's job has ended. Every grant, and
      nothing else, moves the generation on by one; the recorded replaced
      version travels with the lease. */
  lemma TakeoverOnlyFromTerminalOwner(s: State, a: Action, k: Key)
    requires Inv(s) && k in s.builds && a != DoPurge(k.doc)
    ensures k in Apply(s, a).builds
    ensures var before, after := s.builds[k], Apply(s, a).builds[k];
            && after.previous == before.previous
            && after.generation == before.generation + (if GrantsLease(s, a, k) then 1 else 0)
            && (after.owner != before.owner ==>
                  GrantsLease(s, a, k) && a.request.job == after.owner && Terminal(s.jobs[before.owner].status))
  {
    hide MaxRevision, ActiveVersion, SoundDocuments, UpsertBuild;
    if GrantsLease(s, a, k) {
      assert Apply(s, a).builds[k] == NextLease(s, a.request);
    } else {
      LeaseMovesOnlyByAcquire(s, a, k);
    }
  }

  /** What a job presents before it writes: its id and the generation it was granted. */
  ghost predicate OwnsBuild(s: State, k: Key, job: JobId, generation: nat) {
    k in s.builds && s.builds[k].owner == job && s.builds[k].generation == generation
  }

  lemma {:induction false} GenerationMonotone(run: seq<Action>, i: nat, j: nat, k: Key)
    requires i <= j <= |run| && Unpurged(run, i, j, k.doc) && k in StateAt(run, i).builds
    ensures k in StateAt(run, j).builds
    ensures StateAt(run, i).builds[k].generation <= StateAt(run, j).builds[k].generation
    ensures StateAt(run, i).builds[k].previous == StateAt(run, j).builds[k].previous
  {
    hide Apply, MaxRevision, ActiveVersion, Effective, SoundDocuments, SoundLeases;
    if i < j {
      GenerationMonotone(run, i, j - 1, k);
      Reachable(run, j - 1);
      TakeoverOnlyFromTerminalOwner(StateAt(run, j - 1), run[j - 1], k);
    }
  }

  /** Fencing of stale owners: a holder that has lost the lease once never owns
      the build again until a purge, whatever else happens. */
  lemma StaleOwnerStaysFenced(run: seq<Action>, held: nat, lost: nat, now: nat, k: Key, job: JobId, generation: nat)
    requires held <= lost <= now <= |run| && Unpurged(run, held, now, k.doc)
    requires OwnsBuild(StateAt(run, held), k, job, generation)
    requires !OwnsBuild(StateAt(run, lost), k, job, generation)
    ensures !OwnsBuild(StateAt(run, now), k, job, generation)
  {
    GenerationMonotone(run, held, lost, k);
    if StateAt(run, lost).builds[k].generation == generation {
      SameGenerationSameOwner(run, held, lost, k);
    }
    GenerationMonotone(run, lost, now, k);
  }

  lemma {:induction false} SameGenerationSameOwner(run: seq<Action>, i: nat, j: nat, k: Key)
    requires i <= j <= |run| && Unpurged(run, i, j, k.doc) && k in StateAt(run, i).builds
    requires k in StateAt(run, j).builds
    requires StateAt(run, i).builds[k].generation == StateAt(run, j).builds[k].generation
    ensures StateAt(run, i).builds[k].owner == StateAt(run, j).builds[k].owner
  {
    hide Apply, MaxRevision, ActiveVersion, Effective, SoundDocuments, SoundLeases;
    if i < j {
      GenerationMonotone(run, i, j - 1, k);
      Reachable(run, j - 1);
      assert StateAt(run, j) == Apply(StateAt(run, j - 1), run[j - 1]);
      TakeoverOnlyFromTerminalOwner(StateAt(run, j - 1), run[j - 1], k);
      SameGenerationSameOwner(run, i, j - 1, k);
    }
  }

  // ---------------------------------------------------------------------
  // The version a commit replaces
  // ---------------------------------------------------------------------

  /** While a lease stands and its owner stays the same running job, the job keeps
      the replaced version recorded at the first claim. */
  lemma RunningJobRecordsLease(run: seq<Action>, claim: nat, now: nat, k: Key, job: JobId)
    requires claim <= now <= |run| && Unpurged(run, claim, now, k.doc)
    requires k in StateAt(run, claim).builds
    requires var s := StateAt(run, now); job in s.jobs && s.jobs[job].key == k && s.jobs[job].status == Running
    ensures StateAt(run, now).jobs[job].previous == StateAt(run, claim).builds[k].previous
  {
    hide Apply, MaxRevision, ActiveVersion, SoundDocuments;
    Reachable(run, now);
    GenerationMonotone(run, claim, now, k);
  }

  /** When the committing job made the first claim on the lease, the version its
      commit deactivates is the one recorded at that claim. */
  lemma ReplacedVersionIsRecorded(run: seq<Action>, read: nat, claim: nat, now: nat, r: AcquireRequest)
    requires read <= claim < now <= |run| && Unpurged(run, read, now, r.key.doc)
    requires r.baseRevision == MaxRevision(StateAt(run, read).documents, r.key.doc)
    requires run[claim] == DoAcquire(r) && r.key !in StateAt(run, claim).builds
    requires AcquireJob(StateAt(run, claim), r).1.Acquired?
    requires var s := StateAt(run, now); r.job in s.jobs && s.jobs[r.job].status == Running
    requires var s := StateAt(run, now); CommitActive(s, r.key, s.jobs[r.job].baseRevision).1.Switched?
    ensures var s := StateAt(run, now);
            CommitActive(s, r.key, s.jobs[r.job].baseRevision).1.previous == s.jobs[r.job].previous
  {
    hide MaxRevision, ActiveVersion, UpsertBuild, SwitchActive, SoundDocuments, SoundLeases;
    FirstClaim(run, claim, r);
    BaseRevisionFrozen(run, claim + 1, now, r.job);
    RunningJobRecordsLease(run, claim + 1, now, r.key, r.job);
    RevisionMonotone(run, read, claim, r.key.doc);
    RevisionMonotone(run, claim, now, r.key.doc);
    StillRevisionStillActive(run, claim, now, r.key.doc);
  }

  /** The first claim records the active version and writes a fresh job row. */
  lemma FirstClaim(run: seq<Action>, claim: nat, r: AcquireRequest)
    requires claim < |run| && run[claim] == DoAcquire(r) && r.key !in StateAt(run, claim).builds
    requires AcquireJob(StateAt(run, claim), r).1.Acquired?
    ensures var s, s' := StateAt(run, claim), StateAt(run, claim + 1);
            && r.key in s'.builds && s'.builds[r.key].previous == ActiveVersion(s.documents, r.key.doc)
            && r.job in s'.jobs && s'.jobs[r.job].key == r.key && s'.jobs[r.job].baseRevision == r.baseRevision
  {
    hide MaxRevision, ActiveVersion, UpsertBuild, SoundDocuments;
    Reachable(run, claim);
    var s := StateAt(run, claim);
    assert StateAt(run, claim + 1) == AcquireJob(s, r).0;
  }

  /** Whoever commits: the version recorded on the job is the one its commit replaces
      exactly when the active version at the first claim of the lease was still, or
      again, active when the job's base revision was read. */
  lemma RecordedIffActiveAtFirstClaim(run: seq<Action>, claim: nat, read: nat, now: nat, r: AcquireRequest, job: JobId)
    requires claim < now <= |run| && read <= now
    requires Unpurged(run, claim, now, r.key.doc) && Unpurged(run, read, now, r.key.doc)
    requires run[claim] == DoAcquire(r) && r.key !in StateAt(run, claim).builds
    requires AcquireJob(StateAt(run, claim), r).1.Acquired?
    requires var s := StateAt(run, now); job in s.jobs && s.jobs[job].key == r.key && s.jobs[job].status == Running
    requires StateAt(run, now).jobs[job].baseRevision == MaxRevision(StateAt(run, read).documents, r.key.doc)
    requires var s := StateAt(run, now); CommitActive(s, r.key, s.jobs[job].baseRevision).1.Switched?
    ensures var s := StateAt(run, now);
            CommitActive(s, r.key, s.jobs[job].baseRevision).1.previous == s.jobs[job].previous <==>
            ActiveVersion(StateAt(run, claim).documents, r.key.doc)
            == ActiveVersion(StateAt(run, read).documents, r.key.doc)
  {
    hide MaxRevision, ActiveVersion, StateAt, Apply, AcquireJob, SwitchActive;
    FirstClaim(run, claim, r);
    RunningJobRecordsLease(run, claim + 1, now, r.key, job);
    StillRevisionStillActive(run, read, now, r.key.doc);
  }

  // ---------------------------------------------------------------------
  // A takeover that records the wrong version
  // ---------------------------------------------------------------------

  const D := DocId("t", "c", "d")
  const V1 := Key(D, "v1")
  const V2 := Key(D, "v2")

  function Claim(job: JobId, k: Key, base: nat, acl: ResourceAcl): AcquireRequest {
    AcquireRequest(job, k, "h", base, acl, job, false)
  }

  /** Job a claims v1 and fails; job b publishes v2; job c takes v1 over. */
  function TakeoverRun(acl: ResourceAcl): seq<Action> {
    [DoAcquire(Claim("a", V1, 0, acl)), DoTerminal("a", JobFailed),
     DoAcquire(Claim("b", V2, 0, acl)), DoCommit(V2, 0),
     DoAcquire(Claim("c", V1, 1, acl))]
  }

  lemma ClaimedAndFailed(acl: ResourceAcl)
    ensures var s := StateAt(TakeoverRun(acl), 2);
            && s.documents == map[V1 := DocRow(Processing, false, 0, "h", acl)]
            && s.builds == map[V1 := Lease("a", LeaseFailed, 1, None, "a")]
            && s.jobs == map["a" := JobRow(V1, "h", JobFailed, 0, None)]
  {
    var run := TakeoverRun(acl);
    assert StateAt(run, 0) == Empty;
    assert ActiveVersion(Empty.documents, D).None?;
    var s1 := AcquireJob(Empty, Claim("a", V1, 0, acl)).0;
    assert StateAt(run, 1) == s1;
    assert s1.builds == map[V1 := Lease("a", LeaseRunning, 1, None, "a")];
    assert StateAt(run, 2) == MarkTerminal(s1, "a", JobFailed);
  }

  lemma OtherVersionClaimed(acl: ResourceAcl)
    ensures var s := StateAt(TakeoverRun(acl), 3);
            && s.documents
               == map[V1 := DocRow(Processing, false, 0, "h", acl), V2 := DocRow(Processing, false, 0, "h", acl)]
            && s.builds.Keys == {V1, V2} && s.builds[V1] == Lease("a", LeaseFailed, 1, None, "a")
            && s.jobs.Keys == {"a", "b"} && s.jobs["a"].status == JobFailed
  {
    hide MaxRevision, ActiveVersion;
    var run := TakeoverRun(acl);
    ClaimedAndFailed(acl);
    var s2 := StateAt(run, 2);
    assert StateAt(run, 3) == AcquireJob(s2, Claim("b", V2, 0, acl)).0;
    assert V2 !in s2.builds && "b" !in s2.jobs;
  }

  lemma OtherVersionPublished(acl: ResourceAcl)
    ensures var s := StateAt(TakeoverRun(acl), 4);
            && s.documents == map[V1 := DocRow(Processing, false, 0, "h", acl), V2 := DocRow(Active, false, 1, "h", acl)]
            && s.builds.Keys == {V1, V2} && s.builds[V1] == Lease("a", LeaseFailed, 1, None, "a")
            && s.jobs.Keys == {"a", "b"} && s.jobs["a"].status == JobFailed
  {
    var run := TakeoverRun(acl);
    OtherVersionClaimed(acl);
    assert StateAt(run, 4) == CommitActive(StateAt(run, 3), V2, 0).0;
    hide *;
  }

  lemma TakenOver(acl: ResourceAcl)
    ensures var s := StateAt(TakeoverRun(acl), 5);
            && s.documents == StateAt(TakeoverRun(acl), 4).documents
            && "c" in s.jobs && s.jobs["c"] == JobRow(V1, "h", Running, 1, None)
  {
    hide MaxRevision, ActiveVersion;
    var run := TakeoverRun(acl);
    OtherVersionPublished(acl);
    var s4 := StateAt(run, 4);
    assert StateAt(run, 5) == AcquireJob(s4, Claim("c", V1, 1, acl)).0;
    hide StateAt, TakeoverRun;
    assert "c" !in s4.jobs;
  }

  /** Job c then owns the lease with the version recorded by job a, none, and its commit replaces v2. */
  lemma TakeoverMisrecords(acl: ResourceAcl)
    ensures var s := StateAt(TakeoverRun(acl), 5);
            && "c" in s.jobs && s.jobs["c"].status == Running && s.jobs["c"].previous == None
            && CommitActive(s, V1, s.jobs["c"].baseRevision).1 == Switched(2, Some("v2"))
  {
    var run := TakeoverRun(acl);
    OtherVersionPublished(acl);
    TakenOver(acl);
    CommitReplacesPublished(StateAt(run, 5), acl);
    hide *;
  }

  lemma CommitReplacesPublished(s: State, acl: ResourceAcl)
    requires s.documents
             == map[V1 := DocRow(Processing, false, 0, "h", acl), V2 := DocRow(Active, false, 1, "h", acl)]
    ensures CommitActive(s, V1, 1).1 == Switched(2, Some("v2"))
  {
    hide MaxRevision, ActiveVersion, SwitchActive;
    var docs := s.documents;
    assert V2 in docs && docs[V2].revision == 1;
    ActiveVersionIs(docs, V2);
  }
}
