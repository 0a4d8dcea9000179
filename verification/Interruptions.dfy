/** Every world that attempts of one build can be left in, by kills, by faults, by failure
    paths that are themselves cut short, and by the end of the process. */
module Interruptions {
  import opened Common
  import opened Policy
  import opened ControlPlane
  import opened Lifecycle
  import opened DataPlane
  import opened Stores
  import opened Ingestion
  import opened PlaneWrites
  import opened IngestionProgress
  import opened Restarts
  import opened IngestionVisibility
  import opened Thinning
  import opened FailurePaths
  import opened LostParents

  /** `s` is where a build begun at `o` may start over: it is headed for the same
      end and, until its version is active, shows what `o` showed. */
  ghost predicate Restart(o: World, q: Request, s: World) {
    && Startable(s, q) && FinalDocs(s, q) == FinalDocs(o, q) && FinalPlanes(s, q) == FinalPlanes(o, q)
    && (IsActive(o.meta.documents, q.key) ==> IsActive(s.meta.documents, q.key))
    && (OwnIdsApply(o, q) ==> OwnIdsApply(s, q) && (IsActive(s.meta.documents, q.key) || SameView(o, s, q.key.doc)))
  }

  /** The build is over, whether or not its markers are still there. */
  ghost predicate Finished(s: World, q: Request, p: World) {
    && p.meta.documents == FinalDocs(s, q) && PlanesOf(p) == FinalPlanes(s, q)
    && HoldsJob(s, q, p.meta) && p.meta.jobs[q.job].status == Succeeded
  }

  ghost predicate UnderWay(o: World, q: Request, w: World, s: World, n: nat, p: World) {
    Restart(o, q, s) && Progress(s, q, n, p) && Thinned(q, p, w)
  }

  ghost predicate Over(o: World, q: Request, w: World, s: World, p: World) {
    Restart(o, q, s) && Finished(s, q, p) && Thinned(q, p, w)
  }

  /** A world that attempts of this build, begun at `o`, can be left in: at a start, under
      way, or over, the last two possibly with own entries missing. */
  ghost predicate Reached(o: World, q: Request, w: World) {
    || Restart(o, q, w)
    || (exists s, n, p :: UnderWay(o, q, w, s, n, p))
    || (exists s, p :: Over(o, q, w, s, p))
  }

  // ---------------------------------------------------------------------
  // Restarting
  // ---------------------------------------------------------------------

  lemma StartsAtItself(o: World, q: Request)
    requires Startable(o, q)
    ensures Restart(o, q, o)
  {
  }

  lemma RestartAgain(o: World, q: Request, s: World, s': World)
    requires Restart(o, q, s) && Restart(s, q, s')
    ensures Restart(o, q, s')
  {
    hide Startable, FinalDocs, FinalPlanes, OwnIdsApply;
  }

  lemma ReachedAgain(o: World, q: Request, s: World, w: World)
    requires Restart(o, q, s) && Reached(s, q, w)
    ensures Reached(o, q, w)
  {
    hide Restart, Progress, Thinned, Finished;
    if Restart(s, q, w) {
      RestartAgain(o, q, s, w);
    } else if exists s', n, p :: UnderWay(s, q, w, s', n, p) {
      var s', n, p :| UnderWay(s, q, w, s', n, p);
      RestartAgain(o, q, s, s');
      assert UnderWay(o, q, w, s', n, p);
    } else {
      var s', p :| Over(s, q, w, s', p);
      RestartAgain(o, q, s, s');
      assert Over(o, q, w, s', p);
    }
  }

  /** Jobs and leases play no part in what is shown. */
  lemma SameStores(w: World, w': World, q: Request)
    requires w'.points == w.points && w'.parents == w.parents && w'.meta.documents == w.meta.documents
    ensures OwnIdsApply(w', q) <==> OwnIdsApply(w, q)
    ensures SameView(w, w', q.key.doc)
  {
    hide LoadParent, PassesSearch, ActiveVersion;
    forall ctx, d ensures Retrievable(w', ctx, d) == Retrievable(w, ctx, d) {
      assert forall id :: Visible(w', ctx, d.corpus, id) <==> Visible(w, ctx, d.corpus, id);
    }
  }

  lemma ActiveStays(s: World, q: Request, n: nat, w: World)
    requires Startable(s, q) && Progress(s, q, n, w)
    ensures SoundDocuments(w.meta.documents)
    ensures IsActive(s.meta.documents, q.key) ==> IsActive(w.meta.documents, q.key)
  {
    hide Startable, FinalDocs, PlanesAt, HoldsJob, MaxRevision, ActiveVersion;
    ClaimedFacts(s, q);
    FinalFacts(s, q);
  }

  /** Once its markers are cleared, the build starts over. */
  lemma FaultRestart(s: World, q: Request, n: nat, w: World, j: nat)
    requires Startable(s, q) && Progress(s, q, n, w) && (j < 2 ==> w.meta.jobs[q.job].status != Succeeded)
    ensures Restart(s, q, Undone(w, q, j))
  {
    hide Startable, FinalDocs, FinalPlanes, PlanesAt, HoldsJob, Retrievable, OwnIdsApply, Undone, SoundDocuments;
    FaultRestarts(s, q, n, w, j);
    ActiveStays(s, q, n, w);
    UndoneActive(w, q, j);
    if OwnIdsApply(s, q) { CompensationIsInvisible(s, q, n, w, j); }
  }

  lemma SameBuilt(w: World, w': World, q: Request)
    requires PlanesOf(w') == PlanesOf(w)
    ensures Built(w', q) == Built(w, q)
  {
  }

  lemma FailedJobStartable(w: World, q: Request)
    requires Startable(w, q)
    ensures var w' := w.(meta := MarkTerminal(w.meta, q.job, JobFailed));
            Restart(w, q, w')
  {
    hide SoundDocuments, MaxRevision, ActiveVersion, WellFormed, Built, Published, OnlyOwnRows, SwitchActive, OwnIdsApply,
         SameView;
    var w' := w.(meta := MarkTerminal(w.meta, q.job, JobFailed));
    assert PlanesOf(w') == PlanesOf(w) && Prev(w', q) == Prev(w, q);
    SameBuilt(w, w', q);
    SameStores(w, w', q);
  }

  /** The lease is claimed, the marker of the acquire step not yet set. */
  lemma ClaimedRestarts(w: World, q: Request, attempt: string)
    requires Startable(w, q)
    ensures Restart(w, q, w.(meta := AcquireJob(w.meta, AcquireFor(w, q, attempt, true)).0))
  {
    hide SoundDocuments, MaxRevision, ActiveVersion, WellFormed, Built, Published, OnlyOwnRows, SwitchActive, OwnIdsApply,
         SameView, InRun, UpsertBuild, Startable, AcquireJob;
    var w' := w.(meta := AcquireJob(w.meta, AcquireFor(w, q, attempt, true)).0);
    ClaimIsStart(w, q, attempt);
    SameBuilt(w, w', q);
    ClaimedFacts(w, q);
    ClaimShows(w, w', q);
  }

  lemma ClaimIsStart(w: World, q: Request, attempt: string)
    requires Startable(w, q)
    ensures var w' := w.(meta := AcquireJob(w.meta, AcquireFor(w, q, attempt, true)).0);
            && Startable(w', q) && w'.meta.documents == ClaimedDocs(w, q) && PlanesOf(w') == PlanesOf(w) && Prev(w', q) == Prev(w, q)
  {
    hide MaxRevision, ActiveVersion, SoundDocuments, WellFormed, OnlyOwnRows, UpsertBuild;
    ClaimedFacts(w, q);
  }

  lemma ClaimShows(w: World, w': World, q: Request)
    requires w'.points == w.points && w'.parents == w.parents
    requires ActiveVersion(w'.meta.documents, q.key.doc) == ActiveVersion(w.meta.documents, q.key.doc)
    ensures OwnIdsApply(w, q) ==> OwnIdsApply(w', q)
    ensures SameView(w, w', q.key.doc)
  {
    hide LoadParent, PassesSearch, ActiveVersion;
    forall ctx ensures Retrievable(w', ctx, q.key.doc) == Retrievable(w, ctx, q.key.doc) {
      assert forall id | id in w.points && w.points[id].key.doc == q.key.doc ::
        (Visible(w', ctx, q.key.doc.corpus, id) <==> Visible(w, ctx, q.key.doc.corpus, id));
    }
  }

  // ---------------------------------------------------------------------
  // Where a failure path leaves a build
  // ---------------------------------------------------------------------

  lemma FailedJobProgress(s: World, q: Request, n: nat, w: World)
    requires Progress(s, q, n, w) && n < |Steps|
    ensures Progress(s, q, n, w.(meta := MarkTerminal(w.meta, q.job, JobFailed)))
  {
    hide PlanesAt, DocsAt, Marked, HoldsJob, MarkTerminal;
    HeldRow(s, q, w.meta);
    TerminalHolds(s, q, w.meta, JobFailed);
  }

  lemma TerminalThins(q: Request, p: World, w: World, status: JobStatus)
    requires Thinned(q, p, w) && status in {Succeeded, JobFailed}
    ensures Thinned(q, p.(meta := MarkTerminal(p.meta, q.job, status)), w.(meta := MarkTerminal(w.meta, q.job, status)))
  {
    hide Thin, ThinRows;
  }

  /** Cleared after it had succeeded: the build is over, without its data. */
  lemma UndoneFinished(s: World, q: Request, p: World, n: nat, j: nat) returns (p': World)
    requires Startable(s, q) && Progress(s, q, n, p) && p.meta.jobs[q.job].status == Succeeded && j < 2
    ensures Finished(s, q, p') && Thinned(q, p', Undone(p, q, j))
  {
    hide Startable, HoldsJob, FinalDocs, FinalPlanes, PlanesAt, MaxRevision, ActiveVersion, SoundDocuments;
    var w' := Undone(p, q, j);
    p' := World(w'.meta.(chunks := p.meta.chunks), p.points, p.parents);
    ProgressIndex(s, q, n, p);
    FinishedPlanes(s, q, n, p);
    FinalFacts(s, q);
    UndoneJob(s, q, p, j);
    assert w'.meta.documents == p.meta.documents by { FinalStays(p, q, j); }
    HeldElsewhere(s, q, w'.meta, p'.meta);
    hide Undone, MarkFailed, Finished;
    UndoneThins(q, p, j);
  }

  lemma HeldElsewhere(s: World, q: Request, m: State, m': State)
    requires HoldsJob(s, q, m) && m' == m.(chunks := m'.chunks)
    ensures HoldsJob(s, q, m')
  {
    hide Prev, Base;
  }

  lemma FinalStays(p: World, q: Request, j: nat)
    requires IsActive(p.meta.documents, q.key)
    ensures Undone(p, q, j).meta.documents == p.meta.documents
  {
  }

  lemma UndoneThins(q: Request, p: World, j: nat)
    ensures var w' := Undone(p, q, j); Thinned(q, World(w'.meta.(chunks := p.meta.chunks), p.points, p.parents), w')
  {
    hide MarkFailed, MarkTerminal;
    assert Undone(p, q, j).meta.chunks == DeleteChunks(p.meta, q.key).chunks by { UndoneChunks(p, q, j); }
    assert PlanesOf(Undone(p, q, j)) == PlanesOf(Cleared(p, q)) by { UndonePlanes(p, q, j); }
    hide Undone;
  }

  lemma UndoneChunks(p: World, q: Request, j: nat)
    ensures Undone(p, q, j).meta.chunks == DeleteChunks(p.meta, q.key).chunks
  {
  }

  lemma ProgressIndex(s: World, q: Request, n: nat, w: World)
    requires Progress(s, q, n, w)
    ensures 1 <= n <= |Steps| && q.job in w.meta.jobs && (w.meta.jobs[q.job].status != Succeeded ==> n < |Steps|)
    ensures w.meta.jobs[q.job].status == Succeeded ==> n >= 8
  {
    hide HoldsJob, PlanesAt, DocsAt, Marked;
    HeldRow(s, q, w.meta);
  }

  lemma FailureReached(s: World, q: Request, g: nat, n: nat, p: World, w: World, switched: bool, budget: Option<nat>)
    requires Startable(s, q) && Progress(s, q, n, p) && n < |Steps| && Thinned(q, p, w)
    ensures Reached(s, q, FailurePath(w, q, g, switched, budget).0)
  {
    hide Startable, Progress, Thinned, Restart, FailurePath, Undone, DroppedAt, MarkTerminal, Finished;
    StartsAtItself(s, q);
    ProgressIndex(s, q, n, p);
    var w' := FailurePath(w, q, g, switched, budget).0;
    if switched || !OwnsBuild(w.meta, q.key, q.job, g) {
      BarePath(w, q, g, switched, budget);
      FailedJobProgress(s, q, n, p);
      TerminalThins(q, p, w, JobFailed);
      assert UnderWay(s, q, w, s, n, p);
      var failed := p.(meta := MarkTerminal(p.meta, q.job, JobFailed));
      assert budget != Some(0) ==> UnderWay(s, q, w', s, n, failed);
    } else {
      CompensatingPath(w, q, g, budget);
      var k := Made(budget, Drops(q) + 3);
      if k <= Drops(q) {
        DropsThin(q, w, k, w');
        ThinnedTrans(q, p, w, w');
        assert UnderWay(s, q, w', s, n, p);
      } else {
        var j := k - Drops(q) - 1;
        UndoneThinned(q, p, w, j);
        if j < 2 && p.meta.jobs[q.job].status == Succeeded {
          var p' := UndoneFinished(s, q, p, n, j);
          assert Over(s, q, w', s, p');
        } else {
          FaultRestart(s, q, n, p, j);
        }
      }
    }
  }

  lemma StoppedReached(s: World, q: Request, g: nat, n: nat, p: World, w: World, switched: bool, cutting: Cutting)
    requires Startable(s, q) && Progress(s, q, n, p) && n < |Steps| && Thinned(q, p, w)
    ensures Reached(s, q, Stopped(w, q, g, switched, cutting).0)
  {
    hide Startable, Progress, Thinned, Restart, FailurePath, Reached;
    StartsAtItself(s, q);
    assert UnderWay(s, q, w, s, n, p);
    ReachedUnderWay(s, q, w, s, n, p);
    if cutting.Fault? { FailureReached(s, q, g, n, p, w, switched, cutting.recovery); }
  }

  lemma ReachedUnderWay(o: World, q: Request, w: World, s: World, n: nat, p: World)
    requires UnderWay(o, q, w, s, n, p)
    ensures Reached(o, q, w)
  {
    hide UnderWay, Restart, Over;
  }

  // ---------------------------------------------------------------------
  // One attempt
  // ---------------------------------------------------------------------

  /** What an uncut attempt comes to, `whole` saying that nothing is missing in the end. */
  ghost predicate Ends(s: World, q: Request, w': World, status: Status, whole: bool) {
    && status in {Indexed, AlreadyDone} && w'.meta.documents == FinalDocs(s, q)
    && q.job in w'.meta.jobs && w'.meta.jobs[q.job].status == Succeeded
    && (PlanesOf(w') == FinalPlanes(s, q) <==> whole)
    && (exists p :: Finished(s, q, p) && Thinned(q, p, w'))
  }

  /** Verification refused it, and it has been undone. */
  ghost predicate Undid(s: World, q: Request, w': World, status: Status) {
    status == FailedRun && Restart(s, q, w') && q.job in w'.meta.jobs && w'.meta.jobs[q.job].status == JobFailed
  }

  lemma FinishedAt(s: World, q: Request, p: World)
    requires Progress(s, q, |Steps|, p)
    ensures Finished(s, q, p)
  {
    hide FinalDocs, ClaimedDocs, FinalPlanes, Marked, PlanesAt;
    FinishedPlanes(s, q, |Steps|, p);
  }

  lemma FinishedEnds(s: World, q: Request, p: World, w: World, status: Status)
    requires Startable(s, q) && Finished(s, q, p) && Thinned(q, p, w) && status in {Indexed, AlreadyDone}
    ensures Ends(s, q, w, status, Whole(q, w))
  {
    hide FinalDocs, FinalPlanes, Whole, Startable, Thin, ThinRows;
    WholeIsFinal(s, q, p, w);
    HeldRow(s, q, p.meta);
  }

  lemma RefusedUndone(s: World, q: Request, g: nat, n: nat, p: World, w: World)
    requires Startable(s, q) && Progress(s, q, n, p) && p.meta.builds[q.key].generation == g && Thinned(q, p, w)
    ensures var (w', status) := FailurePath(w, q, g, false, None); Undid(s, q, w', status)
  {
    hide Startable, PlanesAt, DocsAt, Marked, Thin, ThinRows, FailurePath, Restart, Undone;
    CompensatingPath(w, q, g, None);
    UndoneThinned(q, p, w, 2);
    FaultRestart(s, q, n, p, 2);
    UndoneJob(s, q, p, 2);
    UncutPath(w, q, g, false);
    HeldRow(s, q, Undone(p, q, 2).meta);
  }

  lemma UncutPath(w: World, q: Request, g: nat, switched: bool)
    ensures FailurePath(w, q, g, switched, None).1 == FailedRun
  {
    PathIsPlain(w, q, g, switched);
    hide FailureOps, Effect;
    RunPlain(w, q, FailureOps(w, q, g, switched), None, switched);
  }

  /** An attempt that holds the lease, on a world with `n` steps done and possibly own entries missing. */
  lemma HeldRun(s: World, q: Request, g: nat, n: nat, p: World, w: World, budget: Option<nat>, cutting: Cutting)
    requires Startable(s, q) && InRun(s, q, g, n, p) && n < |Steps| && Thinned(q, p, w)
    ensures var (w', status) := RunHeld(w, q, g, budget, cutting, false);
            && Reached(s, q, w')
            && (budget.None? ==>
                  if n <= 5 && !Intact(q, n, w) then Undid(s, q, w', status)
                  else Ends(s, q, w', status, Intact(q, n, w)))
  {
    hide Startable, Progress, Thinned, Reached, RunSteps, Intact, Whole, FailurePath, Finished, FinalDocs, Ends, Undid;
    StartsAtItself(s, q);
    ProgressIndex(s, q, n, p);
    var r := RunSteps(w, q, g, 1, budget, false);
    var m, p' := ThinRun(s, q, g, 1, n, p, w, budget, false);
    ReachedUnderWay(s, q, r.world, s, m, p');
    if r.Completed? {
      FinishedAt(s, q, p');
      FinishedEnds(s, q, p', r.world, Indexed);
    } else {
      ProgressIndex(s, q, m, p');
      if r.Cut? { StoppedReached(s, q, g, m, p', r.world, r.switched, cutting); }
      else {
        FailureReached(s, q, g, m, p', r.world, r.switched, r.budget);
        if budget.None? { RefusedUndone(s, q, g, m, p', r.world); }
      }
    }
  }

  lemma FromStart(w: World, q: Request, attempt: string, budget: Option<nat>, cutting: Cutting)
    requires Startable(w, q)
    ensures var (w', status) := Attempt(w, q, attempt, true, budget, cutting);
            && Reached(w, q, w') && (budget.None? ==> Ends(w, q, w', status, true))
  {
    hide Startable, InRun, RunSteps, FinalDocs, FinalPlanes, AcquireJob, Enter, MarkTerminal, Restart, RunHeld, Ends, Undid,
         FailurePath, MarkStep, Thinned, UnderWay, Over;
    StartsAtItself(w, q);
    AcquireStarts(w, q, attempt);
    var (m, o) := AcquireJob(w.meta, AcquireFor(w, q, attempt, true));
    if budget == Some(0) {
      BareStop(w, q, cutting);
      StartGeneration(w, q);
    } else if Spend(budget) == Some(0) {
      ClaimedRestarts(w, q, attempt);
      var claimed := w.(meta := m);
      assert Startable(claimed, q) by { RestartStarts(w, q, claimed); }
      StartGeneration(claimed, q);
      BareStop(claimed, q, cutting);
      RestartAgain(w, q, claimed, claimed.(meta := MarkTerminal(m, q.job, JobFailed)));
    } else {
      var held := w.(meta := MarkStep(m, q.job, Acquire));
      ThinnedSelf(q, held);
      HeldRun(w, q, o.generation, 1, held, held, Spend(Spend(budget)), cutting);
      assert Intact(q, 1, held);
    }
  }

  lemma RestartStarts(o: World, q: Request, s: World)
    requires Restart(o, q, s)
    ensures Startable(s, q)
  {
  }

  lemma StartGeneration(w: World, q: Request)
    requires Startable(w, q)
    ensures !OwnsBuild(w.meta, q.key, q.job, 0)
    ensures Restart(w, q, w.(meta := MarkTerminal(w.meta, q.job, JobFailed)))
  {
    FailedJobStartable(w, q);
  }

  /** Stopped before it knows its generation, an attempt compensates nothing. */
  lemma BareStop(w: World, q: Request, cutting: Cutting)
    ensures var w' := Stopped(w, q, 0, false, cutting).0;
            !OwnsBuild(w.meta, q.key, q.job, 0) ==> w' == w || w' == w.(meta := MarkTerminal(w.meta, q.job, JobFailed))
  {
    hide FailurePath, MarkTerminal;
    if !OwnsBuild(w.meta, q.key, q.job, 0) && cutting.Fault? { BarePath(w, q, 0, false, cutting.recovery); }
  }

  // ---------------------------------------------------------------------
  // Attempts on thinned worlds
  // ---------------------------------------------------------------------

  lemma AcquireThinned(q: Request, p: World, w: World, attempt: string)
    requires Thinned(q, p, w)
    ensures Enter(w, q) == Enter(p, q)
    ensures var (a, b) := (AcquireJob(p.meta, AcquireFor(p, q, attempt, true)), AcquireJob(w.meta, AcquireFor(w, q, attempt, true)));
            a.1 == b.1 && Thinned(q, p.(meta := a.0), w.(meta := b.0))
  {
    hide MaxRevision, ActiveVersion, Thin, ThinRows, UpsertBuild;
  }

  lemma HeldGeneration(s: World, q: Request, n: nat, p: World, w: World)
    requires Progress(s, q, n, p) && Thinned(q, p, w)
    ensures !OwnsBuild(w.meta, q.key, q.job, 0)
  {
    hide PlanesAt, DocsAt, Marked;
  }

  lemma FinishedEnters(s: World, q: Request, p: World)
    requires Startable(s, q) && Finished(s, q, p)
    ensures Enter(p, q) == AlreadyIndexed && q.job in p.meta.jobs
    ensures Finished(s, q, p.(meta := MarkTerminal(p.meta, q.job, Succeeded)))
  {
    hide Startable, FinalDocs, FinalPlanes, MaxRevision, ActiveVersion, SoundDocuments, Prev, Base;
    FinalFacts(s, q);
  }

  lemma SucceededIsFinished(s: World, q: Request, n: nat, p: World)
    requires Progress(s, q, n, p) && p.meta.jobs[q.job].status == Succeeded
    ensures Finished(s, q, p)
  {
    hide FinalDocs, ClaimedDocs, FinalPlanes, Marked, PlanesAt;
    ProgressIndex(s, q, n, p);
    FinishedPlanes(s, q, n, p);
  }

  lemma FromFinished(s: World, q: Request, p: World, w: World, attempt: string, budget: Option<nat>, cutting: Cutting)
    requires Startable(s, q) && Finished(s, q, p) && Thinned(q, p, w)
    ensures var (w', status) := Attempt(w, q, attempt, true, budget, cutting);
            && Reached(s, q, w') && PlanesOf(w') == PlanesOf(w)
            && Ends(s, q, w', status, Whole(q, w)) && w'.meta.documents == w.meta.documents
  {
    hide Startable, Finished, Thinned, AcquireJob, Enter, MarkTerminal, Whole, Ends, RunHeld, FailurePath, Restart;
    StartsAtItself(s, q);
    AcquireThinned(q, p, w, attempt);
    FinishedEnters(s, q, p);
    TerminalThins(q, p, w, Succeeded);
    var w' := Attempt(w, q, attempt, true, budget, cutting).0;
    assert q.job in w.meta.jobs by { ThinnedJobs(q, p, w); }
    var p' := if budget == Some(0) then p else p.(meta := MarkTerminal(p.meta, q.job, Succeeded));
    FinishedEnds(s, q, p', w', AlreadyDone);
    SamePresence(q, w, w');
    assert Whole(q, w') <==> Whole(q, w) by { WholeAlike(q, w, w'); }
    assert Over(s, q, w', s, p');
  }

  lemma WholeAlike(q: Request, w: World, w': World)
    requires PlanesOf(w) == PlanesOf(w')
    ensures Whole(q, w) <==> Whole(q, w')
  {
    SamePresence(q, w, w');
  }

  lemma ThinnedJobs(q: Request, p: World, w: World)
    requires Thinned(q, p, w)
    ensures w.meta.jobs == p.meta.jobs && w.meta.steps == p.meta.steps && w.meta.builds == p.meta.builds
    ensures w.meta.documents == p.meta.documents
  {
  }

  /** An attempt on a build under way. */
  lemma FromUnderWay(s: World, q: Request, n: nat, p: World, w: World, attempt: string, budget: Option<nat>, cutting: Cutting)
    requires Startable(s, q) && Progress(s, q, n, p) && Thinned(q, p, w)
    ensures var (w', status) := Attempt(w, q, attempt, true, budget, cutting);
            && Reached(s, q, w')
            && (budget.None? ==>
                  if n <= 5 && !Intact(q, n, w) then Undid(s, q, w', status)
                  else Ends(s, q, w', status, Intact(q, n, w)))
  {
    hide Startable, Finished, Thinned, AcquireJob, Enter, MarkTerminal, Ends, Undid, RunHeld, FailurePath, Restart, Progress,
         InRun, PointsIn, ParentsIn, RowsIn;
    StartsAtItself(s, q);
    ProgressIndex(s, q, n, p);
    AcquireResumes(s, q, n, p, attempt);
    AcquireThinned(q, p, w, attempt);
    ThinnedJobs(q, p, w);
    if p.meta.jobs[q.job].status == Succeeded {
      SucceededIsFinished(s, q, n, p);
      FromFinished(s, q, p, w, attempt, budget, cutting);
      assert Whole(q, w) <==> Intact(q, n, w);
    } else {
      var held, heldP := w.(meta := AcquireJob(w.meta, AcquireFor(w, q, attempt, true)).0),
                         p.(meta := AcquireJob(p.meta, AcquireFor(p, q, attempt, true)).0);
      var g := AcquireJob(p.meta, AcquireFor(p, q, attempt, true)).1.generation;
      assert Progress(s, q, n, heldP) by { RunProgresses(s, q, g, n, heldP); }
      HeldGeneration(s, q, n, p, w);
      HeldGeneration(s, q, n, heldP, held);
      if budget == Some(0) {
        StoppedReached(s, q, 0, n, p, w, false, cutting);
      } else if Spend(budget) == Some(0) {
        StoppedReached(s, q, 0, n, heldP, held, false, cutting);
      } else {
        assert MarkStep(held.meta, q.job, Acquire) == held.meta by { ThinnedJobs(q, heldP, held); }
        HeldRun(s, q, g, n, heldP, held, Spend(Spend(budget)), cutting);
        ClaimKeepsPlanes(w, q, attempt);
        SamePresence(q, w, held);
      }
    }
  }

  lemma ClaimKeepsPlanes(w: World, q: Request, attempt: string)
    ensures AcquireJob(w.meta, AcquireFor(w, q, attempt, true)).0.chunks == w.meta.chunks
  {
    hide MaxRevision, ActiveVersion, UpsertBuild;
  }

  lemma RunProgresses(s: World, q: Request, g: nat, n: nat, w: World)
    requires InRun(s, q, g, n, w)
    ensures Progress(s, q, n, w)
  {
  }

  // ---------------------------------------------------------------------
  // The end of the process
  // ---------------------------------------------------------------------

  lemma LostNear(s: World, q: Request)
    requires OwnOnly(s, q) == s
    ensures Near(s, q, PlanesOf(ParentsLost(s)))
  {
    hide Retired, WithStatus, ParentIds, ChildIds;
  }

  lemma LostStartable(s: World, q: Request)
    requires Startable(s, q)
    ensures Startable(ParentsLost(s), q) && FinalDocs(ParentsLost(s), q) == FinalDocs(s, q)
  {
    hide SoundDocuments, MaxRevision, WellFormed, OnlyOwnRows, SwitchActive, UpsertBuild;
  }

  lemma LostView(s: World, q: Request, ctx: SecurityContext)
    requires Startable(s, q) && OwnOnly(s, q) == s && OwnIdsApply(s, q) && !IsActive(s.meta.documents, q.key)
    ensures OwnIdsApply(ParentsLost(s), q)
    ensures Retrievable(ParentsLost(s), ctx, q.key.doc) == Retrievable(s, ctx, q.key.doc)
  {
    hide ActiveVersion, Retrievable, Startable, SoundDocuments, ParentIds, ChildIds;
    StartWellFormed(s, q);
    ActiveVersionOther(s.meta.documents, q.key);
    UnseenBuild(s, q, ParentsLost(s), ctx);
  }

  lemma ActiveVersionOther(docs: map<Key, DocRow>, k: Key)
    requires !IsActive(docs, k)
    ensures ActiveVersion(docs, k.doc) != Some(k.version)
  {
  }

  /** Before its first step a build beside no foreign parents loses nothing it will not write again. */
  lemma LostRestart(s: World, q: Request)
    requires Startable(s, q) && OwnOnly(s, q) == s
    ensures Restart(s, q, ParentsLost(s))
  {
    hide Startable, Near, FinalPlanes, FinalDocs, Retrievable, OwnIdsApply, OwnOnly;
    LostStartable(s, q);
    LostNear(s, q);
    NearTogether(s, ParentsLost(s), q);
    if OwnIdsApply(s, q) {
      LostOwn(s, q);
      if !IsActive(s.meta.documents, q.key) {
        forall ctx ensures Retrievable(ParentsLost(s), ctx, q.key.doc) == Retrievable(s, ctx, q.key.doc) { LostView(s, q, ctx); }
      }
    }
  }

  lemma LostOwn(s: World, q: Request)
    requires OwnIdsApply(s, q)
    ensures OwnIdsApply(ParentsLost(s), q)
  {
  }

  /** What the end of the process takes from such a world is this build's own. */
  lemma LostThins(q: Request, w: World)
    requires OwnOnly(w, q) == w
    ensures Thinned(q, w, ParentsLost(w))
  {
  }

  lemma ProcessEndReached(o: World, q: Request, w: World)
    requires Startable(o, q) && Reached(o, q, w) && OwnOnly(w, q) == w
    ensures Reached(o, q, ParentsLost(w))
  {
    hide Startable, Progress, Thinned, Finished, Restart, FinalDocs, FinalPlanes, OwnOnly;
    var w' := ParentsLost(w);
    LostThins(q, w);
    if Restart(o, q, w) {
      RestartStarts(o, q, w);
      LostRestart(w, q);
      RestartAgain(o, q, w, w');
    } else if exists s, n, p :: UnderWay(o, q, w, s, n, p) {
      var s, n, p :| UnderWay(o, q, w, s, n, p);
      ThinnedTrans(q, p, w, w');
      assert UnderWay(o, q, w', s, n, p);
    } else {
      var s, p :| Over(o, q, w, s, p);
      ThinnedTrans(q, p, w, w');
      assert Over(o, q, w', s, p);
    }
  }

  // ---------------------------------------------------------------------
  // Any number of interruptions
  // ---------------------------------------------------------------------

  /** An attempt that is stopped after some writes, by a kill the process survives or by a fault;
      or the end of the process itself, which takes the parent store with it. */
  datatype Interruption = Stop(attempt: string, writes: nat, cutting: Cutting) | ProcessEnd

  ghost function AfterCuts(w: World, q: Request, cuts: seq<Interruption>): World {
    if cuts == [] then w
    else
      var before := AfterCuts(w, q, cuts[..|cuts| - 1]);
      match cuts[|cuts| - 1]
      case Stop(attempt, writes, cutting) => Attempt(before, q, attempt, true, Some(writes), cutting).0
      case ProcessEnd => ParentsLost(before)
  }

  /** The start as far as it matters: if the process ends, the parents of other builds do not. */
  ghost function Origin(w: World, q: Request, cuts: seq<Interruption>): World {
    if ProcessEnd in cuts then OwnOnly(w, q) else w
  }

  lemma OwnOnlyTwice(w: World, q: Request)
    ensures OwnOnly(OwnOnly(w, q), q) == OwnOnly(w, q)
    ensures OwnOnly(ParentsLost(w), q) == ParentsLost(w) == ParentsLost(OwnOnly(w, q))
  {
  }

  lemma {:induction false} CutsOwnOnly(w: World, q: Request, cuts: seq<Interruption>)
    ensures AfterCuts(OwnOnly(w, q), q, cuts) == OwnOnly(AfterCuts(w, q, cuts), q)
  {
    hide Attempt, OwnOnly;
    if cuts != [] {
      var before, last := AfterCuts(w, q, cuts[..|cuts| - 1]), cuts[|cuts| - 1];
      CutsOwnOnly(w, q, cuts[..|cuts| - 1]);
      OwnOnlyTwice(before, q);
      if last.Stop? { AttemptOwnOnly(before, q, last.attempt, true, Some(last.writes), last.cutting); }
    }
  }

  /** Once the process has ended, no parent of another build is there, and the run is one from `Origin`. */
  lemma {:induction false} FromOrigin(w: World, q: Request, cuts: seq<Interruption>)
    ensures AfterCuts(w, q, cuts) == AfterCuts(Origin(w, q, cuts), q, cuts)
    ensures ProcessEnd in cuts ==> OwnOnly(AfterCuts(w, q, cuts), q) == AfterCuts(w, q, cuts)
  {
    hide Attempt, OwnOnly;
    CutsOwnOnly(w, q, cuts);
    if cuts != [] {
      var init, last := cuts[..|cuts| - 1], cuts[|cuts| - 1];
      var before := AfterCuts(w, q, init);
      assert cuts == init + [last];
      FromOrigin(w, q, init);
      OwnOnlyTwice(before, q);
      if last.Stop? { AttemptOwnOnly(before, q, last.attempt, true, Some(last.writes), last.cutting); }
    }
  }

  lemma OriginStarts(w: World, q: Request, cuts: seq<Interruption>)
    requires Startable(w, q)
    ensures Startable(Origin(w, q, cuts), q)
    ensures FinalDocs(Origin(w, q, cuts), q) == FinalDocs(w, q)
  {
    hide SoundDocuments, MaxRevision, WellFormed, OnlyOwnRows, SwitchActive, UpsertBuild, OwnPart;
  }

  lemma AttemptReached(o: World, q: Request, w: World, attempt: string, budget: Option<nat>, cutting: Cutting)
    requires Startable(o, q) && Reached(o, q, w)
    ensures Reached(o, q, Attempt(w, q, attempt, true, budget, cutting).0)
  {
    hide Startable, Progress, Thinned, Finished, Attempt, Restart, Ends, Undid, FinalDocs, FinalPlanes;
    var w' := Attempt(w, q, attempt, true, budget, cutting).0;
    if Restart(o, q, w) {
      RestartStarts(o, q, w);
      FromStart(w, q, attempt, budget, cutting);
      hide Reached;
      ReachedAgain(o, q, w, w');
    } else if exists s, n, p :: UnderWay(o, q, w, s, n, p) {
      var s, n, p :| UnderWay(o, q, w, s, n, p);
      RestartStarts(o, q, s);
      FromUnderWay(s, q, n, p, w, attempt, budget, cutting);
      hide Reached;
      ReachedAgain(o, q, s, w');
    } else {
      var s, p :| Over(o, q, w, s, p);
      RestartStarts(o, q, s);
      FromFinished(s, q, p, w, attempt, budget, cutting);
      hide Reached;
      ReachedAgain(o, q, s, w');
    }
  }

  lemma {:induction false} CutsReachedFrom(o: World, q: Request, cuts: seq<Interruption>)
    requires Startable(o, q) && (ProcessEnd in cuts ==> OwnOnly(o, q) == o)
    ensures Reached(o, q, AfterCuts(o, q, cuts))
  {
    hide Startable, Attempt, OwnOnly, Reached, ParentsLost;
    if cuts == [] {
      ReachedStart(o, q);
    } else {
      var init, last := cuts[..|cuts| - 1], cuts[|cuts| - 1];
      assert forall c | c in init :: c in cuts;
      CutsReachedFrom(o, q, init);
      if last.Stop? {
        AttemptReached(o, q, AfterCuts(o, q, init), last.attempt, Some(last.writes), last.cutting);
      } else {
        assert last in cuts;
        CutsOwnOnly(o, q, init);
        ProcessEndReached(o, q, AfterCuts(o, q, init));
      }
    }
  }

  lemma ReachedStart(o: World, q: Request)
    requires Startable(o, q)
    ensures Reached(o, q, o)
  {
    hide Startable, UnderWay, Over;
    StartsAtItself(o, q);
    hide Restart;
  }

  /** All worlds that interruptions leave. */
  lemma CutsReached(w: World, q: Request, cuts: seq<Interruption>)
    requires Startable(w, q)
    ensures Startable(Origin(w, q, cuts), q) && Reached(Origin(w, q, cuts), q, AfterCuts(w, q, cuts))
  {
    hide Startable, Reached, AfterCuts, OwnOnly;
    OriginStarts(w, q, cuts);
    FromOrigin(w, q, cuts);
    OwnOnlyTwice(w, q);
    CutsReachedFrom(Origin(w, q, cuts), q, cuts);
  }
}
