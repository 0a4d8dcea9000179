/** The cut that recovery does not survive, for every build with a parent: a fault in the
    commit step whose failure path is killed before it clears the markers. */
module TornCompensation {
  import opened Common
  import opened Policy
  import opened ControlPlane
  import opened Lifecycle
  import opened DataPlane
  import opened Stores
  import opened Ingestion
  import opened PlaneWrites
  import opened IngestionProgress
  import opened Restarts
  import opened IngestionVisibility
  import opened Thinning
  import opened FailurePaths
  import opened LostParents
  import opened Interruptions
  import opened CrashRefinement

  // ---------------------------------------------------------------------
  // Stopping behind the verify marker
  // ---------------------------------------------------------------------

  /** Given exactly the writes it needs and `k` more, a run that completes uncut completes. */
  lemma {:induction false} RunAfforded(w: World, q: Request, ops: seq<Op>, k: nat, switched: bool)
    requires RunOps(w, q, ops, None, switched).Completed?
    ensures var r := RunOps(w, q, ops, None, switched);
            RunOps(w, q, ops, Some(|ops| + k), switched) == Completed(r.world, Some(k), r.switched)
    decreases |ops|
  {
    hide Effect, Admits;
    if ops != [] {
      RunAfforded(Effect(w, q, ops[0]), q, ops[1..], k, switched || ops[0].SwitchVersion?);
    }
  }

  /** Some number of writes ends an attempt right behind its verify marker. */
  lemma {:induction false} StopsVerified(s: World, q: Request, g: nat, i: nat, n: nat, w: World) returns (k: nat)
    requires Startable(s, q) && i <= n <= 6 && InRun(s, q, g, n, w)
    ensures var r := RunSteps(w, q, g, i, Some(k), false);
            && r.Cut? && !r.switched && Progress(s, q, 6, r.world) && r.world.meta.builds[q.key].generation == g
            && r.world.meta.jobs[q.job].status == Running
    decreases |Steps| - i
  {
    hide Startable, HoldsJob, Target, DocsAt, PlanesAt, FinalDocs, StepOps, RunOps, StatusAt;
    assert (q.job, Steps[i]) in w.meta.steps <==> i < n;
    if i < n {
      k := StopsVerified(s, q, g, i + 1, n, w);
    } else if n == 6 {
      k := 0;
      var ops := StepOps(w, q, g, Steps[6]) + [Control(DoMarkStep(q.job, Steps[6]))];
      assert RunOps(w, q, ops, Some(0), false) == Cut(w, false) by { CutHere(w, q, ops); }
    } else {
      var ops := StepOps(w, q, g, Steps[n]) + [Control(DoMarkStep(q.job, Steps[n]))];
      AnyStep(s, q, g, n, w, None, false);
      EarlyFlag(w, q, g, n, None, false);
      var r := RunStep(w, q, g, n, None, false);
      var rest := StopsVerified(s, q, g, i + 1, n + 1, r.world);
      RunAfforded(w, q, ops, rest, false);
      k := |ops| + rest;
    }
  }

  lemma CutHere(w: World, q: Request, ops: seq<Op>)
    requires ops != []
    ensures RunOps(w, q, ops, Some(0), false) == Cut(w, false)
  {
  }

  // ---------------------------------------------------------------------
  // Nothing puts the parents back
  // ---------------------------------------------------------------------

  lemma {:induction false} NoPutNoParent(w: World, q: Request, ops: seq<Op>, budget: Option<nat>, switched: bool, id: ChunkId)
    requires id !in w.parents && forall op | op in ops :: !op.PutParent?
    ensures id !in RunOps(w, q, ops, budget, switched).world.parents
    decreases |ops|
  {
    if ops != [] && budget != Some(0) && Admits(w, q, ops[0]) {
      assert id !in Effect(w, q, ops[0]).parents by { EffectPutsNone(w, q, ops[0], id); }
      hide Effect, Admits;
      NoPutNoParent(Effect(w, q, ops[0]), q, ops[1..], Spend(budget), switched || ops[0].SwitchVersion?, id);
    }
  }

  lemma EffectPutsNone(w: World, q: Request, op: Op, id: ChunkId)
    requires id !in w.parents && !op.PutParent?
    ensures id !in Effect(w, q, op).parents
  {
    hide Apply, CommitActive;
  }

  lemma {:induction false} LaterStepsPutNone(w: World, q: Request, g: nat, i: nat, budget: Option<nat>, switched: bool, id: ChunkId)
    requires 4 <= i <= |Steps| && id !in w.parents
    ensures id !in RunSteps(w, q, g, i, budget, switched).world.parents
    decreases |Steps| - i
  {
    if i < |Steps| {
      hide StepOps, RunOps;
      if (q.job, Steps[i]) in w.meta.steps {
        LaterStepsPutNone(w, q, g, i + 1, budget, switched, id);
      } else {
        var ops := StepOps(w, q, g, Steps[i]) + [Control(DoMarkStep(q.job, Steps[i]))];
        assert forall op | op in ops :: !op.PutParent? by { LaterOps(w, q, g, i); }
        NoPutNoParent(w, q, ops, budget, switched, id);
        var r := RunOps(w, q, ops, budget, switched);
        if r.Completed? { LaterStepsPutNone(r.world, q, g, i + 1, r.budget, r.switched, id); }
      }
    }
  }

  lemma LaterOps(w: World, q: Request, g: nat, i: nat)
    requires 4 <= i < |Steps|
    ensures forall op | op in StepOps(w, q, g, Steps[i]) :: !op.PutParent?
  {
    hide PublishOps;
    PublishIsBlind(q, w, g);
  }

  /** Once the write-parents marker is set, a missing parent stays missing for the whole attempt. */
  lemma LostParentStays(s: World, q: Request, n: nat, p: World, w: World, attempt: string, id: ChunkId)
    requires Startable(s, q) && Progress(s, q, n, p) && n >= 6 && Thinned(q, p, w) && id !in w.parents
    ensures id !in Attempt(w, q, attempt, true, None, Kill).0.parents
  {
    hide Startable, AcquireJob, Enter, RunSteps, PlanesAt, DocsAt, HoldsJob, Thin, ThinRows, MarkTerminal;
    ThinnedJobs(q, p, w);
    var (m, o) := AcquireJob(w.meta, AcquireFor(w, q, attempt, true));
    ClaimKeepsMarks(w, q, attempt);
    var held := w.(meta := MarkStep(m, q.job, Acquire));
    if o.Acquired? {
      SkipsMarked(held, q, o.generation, n, p);
      LaterStepsPutNone(held, q, o.generation, 4, None, false, id);
      var r := RunSteps(held, q, o.generation, 4, None, false);
      if r.Raised? {
        var ops := FailureOps(r.world, q, o.generation, r.switched);
        PathIsPlain(r.world, q, o.generation, r.switched);
        hide FailureOps, RunOps;
        NoPutNoParent(r.world, q, ops, r.budget, r.switched, id);
      }
    }
  }

  lemma ClaimKeepsMarks(w: World, q: Request, attempt: string)
    ensures AcquireJob(w.meta, AcquireFor(w, q, attempt, true)).0.steps == w.meta.steps
  {
    hide MaxRevision, ActiveVersion, UpsertBuild;
  }

  lemma SkipsMarked(w: World, q: Request, g: nat, n: nat, p: World)
    requires Marked(q, n, p.meta.steps) && n >= 6 && w.meta.steps == p.meta.steps + {(q.job, Acquire)}
    ensures RunSteps(w, q, g, 1, None, false) == RunSteps(w, q, g, 4, None, false)
  {
    hide StepOps, RunOps;
    assert (q.job, Steps[1]) in p.meta.steps;
    assert (q.job, Steps[2]) in p.meta.steps;
    assert (q.job, Steps[3]) in p.meta.steps;
    assert RunSteps(w, q, g, 1, None, false) == RunSteps(w, q, g, 2, None, false);
    assert RunSteps(w, q, g, 2, None, false) == RunSteps(w, q, g, 3, None, false);
  }

  // ---------------------------------------------------------------------
  // The lost version
  // ---------------------------------------------------------------------

  /** Some number of writes stops an attempt right behind its verify marker. */
  lemma StopBehindVerify(w: World, q: Request, attempt: string) returns (writes: nat, g: nat, p: World)
    requires Startable(w, q)
    ensures Progress(w, q, 6, p) && p.meta.jobs[q.job].status == Running && OwnsBuild(p.meta, q.key, q.job, g)
    ensures forall cutting ::
              Attempt(w, q, attempt, true, Some(writes), cutting).0 == Stopped(p, q, g, false, cutting).0
  {
    hide Startable, InRun, AcquireJob, Enter, RunSteps, Stopped, MarkStep, Progress;
    AcquireStarts(w, q, attempt);
    var (m, o) := AcquireJob(w.meta, AcquireFor(w, q, attempt, true));
    var held := w.(meta := MarkStep(m, q.job, Acquire));
    g := o.generation;
    var k := StopsVerified(w, q, g, 1, 1, held);
    p := RunSteps(held, q, g, 1, Some(k), false).world;
    writes := k + 2;
    assert Spend(Spend(Some(writes))) == Some(k);
    HeldOwns(w, q, 6, p);
  }

  /** Killed in the failure path of a fault in the commit step, behind its last parent delete. */
  lemma TornBehindParents(w: World, q: Request, attempt: string) returns (cuts: seq<Interruption>, p: World)
    requires Startable(w, q)
    ensures |cuts| == 1 && cuts[0].Stop? && cuts[0].cutting == Fault(Some(|q.children| + |q.parents|))
    ensures var now := AfterCuts(w, q, cuts);
            && Progress(w, q, 6, p) && Thinned(q, p, now) && p.meta.jobs[q.job].status == Running
            && forall id | id in ParentIds(q) :: id !in now.parents
  {
    hide Startable, FailurePath, DroppedAt, Thinned, Progress, Attempt;
    var writes, g: nat;
    writes, g, p := StopBehindVerify(w, q, attempt);
    var drops := |q.children| + |q.parents|;
    cuts := [Stop(attempt, writes, Fault(Some(drops)))];
    var now := FailurePath(p, q, g, false, Some(drops)).0;
    assert AfterCuts(w, q, cuts) == now by { assert cuts[..0] == [] && AfterCuts(w, q, cuts[..0]) == w; }
    CompensatingPath(p, q, g, Some(drops));
    DropsThin(q, p, drops, now);
    ParentsDropped(q, p, now);
  }

  lemma HeldOwns(s: World, q: Request, n: nat, w: World)
    requires Progress(s, q, n, w)
    ensures q.key in w.meta.builds && w.meta.builds[q.key].owner == q.job
  {
    hide PlanesAt, DocsAt, Marked;
  }

  lemma ParentsDropped(q: Request, w: World, w': World)
    requires DroppedAt(w, q, |q.children| + |q.parents|, w')
    ensures forall id | id in ParentIds(q) :: id !in w'.parents
  {
    forall id | id in ParentIds(q) ensures id !in w'.parents {
      assert AmongParents(q, |q.parents|, id) by { assert q.parents[ParentAt(q, id)].id == id; }
    }
  }

  /** Behind the verify marker with all its parents missing, the build is recovered to success without them:
      active, and shown to nobody. */
  lemma RecoveredWithoutParents(s: World, q: Request, p: World, now: World, again: string)
    requires Startable(s, q) && Progress(s, q, 6, p) && p.meta.jobs[q.job].status == Running && Thinned(q, p, now)
    requires q.parents != [] && forall id | id in ParentIds(q) :: id !in now.parents
    ensures var (end, status) := Attempt(now, q, again, true, None, Kill);
            && status == Indexed && JobSucceeded(q, end) && IsActive(end.meta.documents, q.key) && !Sound(q, now)
            && (forall id | id in ParentIds(q) :: id !in end.parents)
            && (OwnIdsApply(s, q) ==> forall ctx :: Retrievable(end, ctx, q.key.doc) == {})
  {
    hide Startable, Attempt, Progress, Thinned, FinalDocs, FinalPlanes, Retrievable, SoundDocuments, Sound, OwnIdsApply, PointsIn,
         RowsIn;
    var (end, status) := Attempt(now, q, again, true, None, Kill);
    assert q.parents[0].id in ParentIds(q);
    SoundUnderWay(s, q, 6, p, now);
    assert !Intact(q, 6, now);
    FromUnderWay(s, q, 6, p, now, again, None, Kill);
    NotYetDone(s, q, 6, p, now, again);
    forall id | id in ParentIds(q) ensures id !in end.parents { LostParentStays(s, q, 6, p, now, again, id); }
    var f :| Finished(s, q, f) && Thinned(q, f, end);
    FinishedActive(s, q, f, end);
    if OwnIdsApply(s, q) {
      OverShows(s, q, f, end);
      forall ctx ensures Retrievable(end, ctx, q.key.doc) == {} { OrphanedVersion(s, q, f, end, ctx); }
    }
  }

  lemma FinishedActive(s: World, q: Request, f: World, w: World)
    requires Startable(s, q) && Finished(s, q, f) && Thinned(q, f, w)
    ensures IsActive(w.meta.documents, q.key)
  {
    hide Startable, FinalDocs, FinalPlanes, Thin, ThinRows;
    FinalFacts(s, q);
  }

  /** Every build with a parent can be lost like this: the recovery reports success, the version is
      active, none of its parents is there, and the document shows nothing to anyone. */
  lemma TornCompensationLosesVersion(w: World, q: Request, attempt: string, again: string, plain: string)
    returns (cuts: seq<Interruption>)
    requires Startable(w, q) && OwnIdsApply(w, q) && q.parents != []
    ensures |cuts| == 1 && cuts[0].Stop? && cuts[0].cutting == Fault(Some(|q.children| + |q.parents|))
    ensures var (end, status) := Attempt(AfterCuts(w, q, cuts), q, again, true, None, Kill);
            && status == Indexed && JobSucceeded(q, end) && IsActive(end.meta.documents, q.key)
            && (forall id | id in ParentIds(q) :: id !in end.parents)
            && (forall ctx :: Retrievable(end, ctx, q.key.doc) == {})
            && !NoTrace(w, q, false, plain, end, status)
  {
    hide Startable, Attempt, Progress, Thinned, Retrievable, Sound, NoTrace, OwnIdsApply, AfterCuts;
    var p: World;
    cuts, p := TornBehindParents(w, q, attempt);
    RecoveredWithoutParents(w, q, p, AfterCuts(w, q, cuts), again);
    assert ProcessEnd !in cuts;
    RecoveryLeavesNoTraceIff(w, q, cuts, again, plain);
  }

  lemma NotYetDone(s: World, q: Request, n: nat, p: World, w: World, attempt: string)
    requires Startable(s, q) && Progress(s, q, n, p) && p.meta.jobs[q.job].status != Succeeded && Thinned(q, p, w)
    ensures Attempt(w, q, attempt, true, None, Kill).1 != AlreadyDone
  {
    hide Startable, AcquireJob, RunSteps, RunOps, FailureOps, InRun, Progress, Thinned;
    AcquireResumes(s, q, n, p, attempt);
    AcquireThinned(q, p, w, attempt);
  }

  /** Without its parents a finished version shows nothing. */
  lemma OrphanedVersion(s: World, q: Request, p: World, w: World, ctx: SecurityContext)
    requires Startable(s, q) && Finished(s, q, p) && Thinned(q, p, w)
    requires OwnIdsApply(w, q) && SoundDocuments(w.meta.documents) && IsActive(w.meta.documents, q.key)
    requires forall id | id in ParentIds(q) :: id !in w.parents
    ensures Retrievable(w, ctx, q.key.doc) == {}
  {
    hide Startable, FinalDocs, FinalPlanes, HoldsJob, OwnIdsApply, SoundDocuments, Retrievable, WellFormed;
    StartWellFormed(s, q);
    FinalHas(s, q);
    CommittedShowsOwn(w, q, ctx);
    forall id | id in Retrievable(w, ctx, q.key.doc) ensures false {
      ShownIsStored(w, ctx, q.key.doc);
      var i := ChildAt(q, id);
      assert Same(w.points, p.points, id);
      ParentIsOwn(q, i);
      OrphansAreInvisible(w, ctx, q.key.doc, id);
    }
  }

  lemma ParentIsOwn(q: Request, i: nat)
    requires WellFormed(q) && i < |q.children|
    ensures q.children[i].parent in ParentIds(q)
  {
    assert OwnParent(q, q.children[i].parent);
  }

  // ---------------------------------------------------------------------
  // What a recovery keeps and writes again
  // ---------------------------------------------------------------------

  ghost predicate KeepsEntries(w: World, w': World) {
    w.points.Keys <= w'.points.Keys && w.parents.Keys <= w'.parents.Keys && w.meta.chunks.Keys <= w'.meta.chunks.Keys
  }

  predicate Dropless(op: Op) {
    !op.DropPoint? && !op.DropParent? && (op.Control? ==> op.action.DoUpsertChunk? || op.action.DoMarkStep? || op.action.DoTerminal?)
  }

  lemma DroplessKeeps(w: World, q: Request, op: Op)
    requires Dropless(op)
    ensures KeepsEntries(w, Effect(w, q, op))
  {
    hide MaxRevision, ActiveVersion, SwitchActive, WithStatus;
  }

  lemma {:induction false} RunKeepsEntries(w: World, q: Request, ops: seq<Op>, budget: Option<nat>, switched: bool)
    requires forall op | op in ops :: Dropless(op)
    ensures KeepsEntries(w, RunOps(w, q, ops, budget, switched).world)
    decreases |ops|
  {
    hide Effect, Admits, Dropless;
    if ops != [] && budget != Some(0) && Admits(w, q, ops[0]) {
      DroplessKeeps(w, q, ops[0]);
      RunKeepsEntries(Effect(w, q, ops[0]), q, ops[1..], Spend(budget), switched || ops[0].SwitchVersion?);
    }
  }

  lemma StepsAreDropless(w: World, q: Request, g: nat, step: Step)
    ensures forall op | op in StepOps(w, q, g, step) + [Control(DoMarkStep(q.job, step))] :: Dropless(op)
  {
    hide PublishOps;
    PublishIsBlind(q, w, g);
  }

  lemma {:induction false} StepsKeepEntries(w: World, q: Request, g: nat, i: nat, budget: Option<nat>, switched: bool)
    requires i <= |Steps|
    ensures KeepsEntries(w, RunSteps(w, q, g, i, budget, switched).world)
    decreases |Steps| - i
  {
    hide StepOps, RunOps, Dropless;
    if i < |Steps| {
      if (q.job, Steps[i]) in w.meta.steps {
        StepsKeepEntries(w, q, g, i + 1, budget, switched);
      } else {
        StepsAreDropless(w, q, g, Steps[i]);
        var ops := StepOps(w, q, g, Steps[i]) + [Control(DoMarkStep(q.job, Steps[i]))];
        RunKeepsEntries(w, q, ops, budget, switched);
        var r := RunOps(w, q, ops, budget, switched);
        if r.Completed? { StepsKeepEntries(r.world, q, g, i + 1, r.budget, r.switched); }
      }
    }
  }

  /** A run that gets through publish has all points. */
  lemma {:induction false} EndsWithPoints(s: World, q: Request, g: nat, i: nat, n: nat, p: World, w: World, switched: bool)
    requires Startable(s, q) && i <= n <= 7 && InRun(s, q, g, n, p) && Thinned(q, p, w)
    requires switched ==> p.meta.documents == FinalDocs(s, q)
    ensures var r := RunSteps(w, q, g, i, None, switched); r.Completed? ==> PointsIn(q, r.world)
    decreases |Steps| - i
  {
    hide Startable, HoldsJob, Target, DocsAt, PlanesAt, FinalDocs, StepOps, RunOps, StatusAt, Thin, ThinRows, ParentsIn, RowsIn;
    assert (q.job, Steps[i]) in w.meta.steps <==> i < n;
    if i < n {
      EndsWithPoints(s, q, g, i + 1, n, p, w, switched);
    } else {
      var p' := ThinStep(s, q, g, n, p, w, None, switched);
      var r := RunStep(w, q, g, n, None, switched);
      if r.Completed? {
        if n == 7 {
          StepAdds(w, q, g, n, None, switched);
          StepsKeepEntries(r.world, q, g, i + 1, r.budget, r.switched);
        } else {
          EndsWithPoints(s, q, g, i + 1, n + 1, p', r.world, r.switched);
        }
      }
    }
  }

  /** Behind verification a recovery writes every point again, and keeps the parents and rows it finds. */
  lemma RecoveryRewritesPoints(s: World, q: Request, p: World, w: World, attempt: string)
    requires Startable(s, q) && Progress(s, q, 6, p) && p.meta.jobs[q.job].status == Running && Thinned(q, p, w)
    ensures var (end, status) := Attempt(w, q, attempt, true, None, Kill);
            && status == Indexed && PointsIn(q, end)
            && w.parents.Keys <= end.parents.Keys && w.meta.chunks.Keys <= end.meta.chunks.Keys
  {
    hide Startable, Finished, Thinned, AcquireJob, Enter, MarkTerminal, Ends, RunHeld, FailurePath, Progress, InRun, PointsIn, Intact,
         Restart;
    AcquireResumes(s, q, 6, p, attempt);
    AcquireThinned(q, p, w, attempt);
    ThinnedJobs(q, p, w);
    var held, heldP := w.(meta := AcquireJob(w.meta, AcquireFor(w, q, attempt, true)).0),
                       p.(meta := AcquireJob(p.meta, AcquireFor(p, q, attempt, true)).0);
    var g := AcquireJob(p.meta, AcquireFor(p, q, attempt, true)).1.generation;
    assert MarkStep(held.meta, q.job, Acquire) == held.meta by { ThinnedJobs(q, heldP, held); }
    ClaimKeepsPlanes(w, q, attempt);
    HeldRewritesPoints(s, q, g, heldP, held);
  }

  lemma HeldRewritesPoints(s: World, q: Request, g: nat, p: World, w: World)
    requires Startable(s, q) && InRun(s, q, g, 6, p) && Thinned(q, p, w)
    ensures var (end, status) := RunHeld(w, q, g, None, Kill, false);
            status == Indexed && PointsIn(q, end) && KeepsEntries(w, end)
  {
    hide Startable, Thinned, InRun, PointsIn, RunSteps, FailurePath, Intact, Progress;
    var m, p' := ThinRun(s, q, g, 1, 6, p, w, None, false);
    EndsWithPoints(s, q, g, 1, 6, p, w, false);
    StepsKeepEntries(w, q, g, 1, None, false);
  }
}
