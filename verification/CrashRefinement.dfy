/** The main results on interrupted ingestion: exactly when a recovered attempt leaves
    no trace of the interruptions, what is shown at any time, and what is lost otherwise. */
module CrashRefinement {
  import opened Common
  import opened Policy
  import opened ControlPlane
  import opened Lifecycle
  import opened DataPlane
  import opened Stores
  import opened Ingestion
  import opened PlaneWrites
  import opened IngestionProgress
  import opened Restarts
  import opened IngestionVisibility
  import opened Thinning
  import opened FailurePaths
  import opened LostParents
  import opened Interruptions

  // ---------------------------------------------------------------------
  // The condition
  // ---------------------------------------------------------------------

  predicate Done(q: Request, w: World, step: Step) {
    (q.job, step) in w.meta.steps
  }

  predicate JobSucceeded(q: Request, w: World) {
    q.job in w.meta.jobs && w.meta.jobs[q.job].status == Succeeded
  }

  /** What the markers say was written, and no later step will write again, is there. */
  predicate Sound(q: Request, w: World) {
    && (JobSucceeded(q, w) || Done(q, w, WriteParents) ==> ParentsIn(q, w))
    && (JobSucceeded(q, w) || Done(q, w, WriteQdrant) ==> RowsIn(q, w))
    && (JobSucceeded(q, w) || (Done(q, w, WriteQdrant) && (!Done(q, w, Verify) || Done(q, w, Publish))) ==> PointsIn(q, w))
  }

  /** Verification still lies ahead. */
  predicate Unverified(q: Request, w: World) {
    !JobSucceeded(q, w) && !Done(q, w, Verify)
  }

  lemma SoundUnderWay(s: World, q: Request, n: nat, p: World, w: World)
    requires Progress(s, q, n, p) && Thinned(q, p, w)
    ensures Sound(q, w) <==> Intact(q, n, w)
    ensures Unverified(q, w) <==> n <= 5
  {
    hide HoldsJob, PlanesAt, DocsAt, Thin, ThinRows, ParentsIn, PointsIn, RowsIn;
    ProgressIndex(s, q, n, p);
    assert Steps[3] == WriteParents && Steps[4] == WriteQdrant && Steps[5] == Verify && Steps[7] == Publish;
    assert (q.job, Steps[3]) in w.meta.steps <==> 3 < n;
    assert (q.job, Steps[4]) in w.meta.steps <==> 4 < n;
    assert (q.job, Steps[5]) in w.meta.steps <==> 5 < n;
    assert (q.job, Steps[7]) in w.meta.steps <==> 7 < n;
  }

  lemma SoundAtStart(q: Request, w: World)
    requires Startable(w, q)
    ensures Sound(q, w) && !JobSucceeded(q, w)
  {
    hide SoundDocuments, MaxRevision, WellFormed, OnlyOwnRows;
  }

  lemma SoundOver(s: World, q: Request, p: World, w: World)
    requires Finished(s, q, p) && Thinned(q, p, w)
    ensures (Sound(q, w) <==> Whole(q, w)) && !Unverified(q, w)
  {
    hide FinalDocs, FinalPlanes, Thin, ThinRows, ParentsIn, PointsIn, RowsIn, Prev, Base;
  }

  /** An uncut recovery from any world interruptions can leave. */
  lemma RecoveryFrom(o: World, q: Request, w: World, attempt: string) returns (s: World)
    requires Startable(o, q) && Reached(o, q, w)
    ensures var (w', status) := Attempt(w, q, attempt, true, None, Kill);
            && Restart(o, q, s)
            && if !Sound(q, w) && Unverified(q, w) then Undid(s, q, w', status) else Ends(s, q, w', status, Sound(q, w))
  {
    hide Startable, Progress, Thinned, Finished, Attempt, Restart, Ends, Undid, FinalDocs, FinalPlanes, Sound, Unverified, Intact,
         Whole;
    if Restart(o, q, w) {
      s := w;
      RestartStarts(o, q, w);
      FromStart(w, q, attempt, None, Kill);
      SoundAtStart(q, w);
    } else if exists s, n, p :: UnderWay(o, q, w, s, n, p) {
      var s0, n, p :| UnderWay(o, q, w, s0, n, p);
      s := s0;
      RestartStarts(o, q, s);
      FromUnderWay(s, q, n, p, w, attempt, None, Kill);
      SoundUnderWay(s, q, n, p, w);
    } else {
      var s0, p :| Over(o, q, w, s0, p);
      s := s0;
      RestartStarts(o, q, s);
      FromFinished(s, q, p, w, attempt, None, Kill);
      SoundOver(s, q, p, w);
    }
  }

  /** The rows and stores are those of one uninterrupted run, except that other builds' parents are
      `lost` if the process has ended. */
  ghost predicate NoTrace(w: World, q: Request, lost: bool, plain: string, recovered: World, status: Status) {
    var (uninterrupted, indexed) := Attempt(w, q, plain, true, None, Kill);
    && indexed == Indexed && status in {Indexed, AlreadyDone}
    && recovered.meta.documents == uninterrupted.meta.documents
    && recovered.points == uninterrupted.points
    && recovered.parents == (if lost then OwnPart(uninterrupted.parents, q) else uninterrupted.parents)
    && recovered.meta.chunks == uninterrupted.meta.chunks
    && JobSucceeded(q, recovered)
  }

  lemma NoTraceFromOrigin(w: World, q: Request, cuts: seq<Interruption>, plain: string, recovered: World, status: Status)
    ensures NoTrace(w, q, ProcessEnd in cuts, plain, recovered, status)
            <==> NoTrace(Origin(w, q, cuts), q, false, plain, recovered, status)
  {
    hide Attempt, OwnPart;
    AttemptOwnOnly(w, q, plain, true, None, Kill);
  }

  lemma PlainRun(w: World, q: Request, plain: string)
    requires Startable(w, q)
    ensures var (w', status) := Attempt(w, q, plain, true, None, Kill);
            status == Indexed && w'.meta.documents == FinalDocs(w, q) && PlanesOf(w') == FinalPlanes(w, q)
  {
    hide Startable, Attempt, FinalDocs, FinalPlanes, Finished, Thinned;
    FromStart(w, q, plain, None, Kill);
    StartIndexed(w, q, plain);
  }

  lemma StartIndexed(w: World, q: Request, plain: string)
    requires Startable(w, q)
    ensures Attempt(w, q, plain, true, None, Kill).1 != AlreadyDone
  {
    hide Startable, AcquireJob, RunSteps, RunOps, FailureOps, InRun;
    AcquireStarts(w, q, plain);
  }

  /** Crash refinement, exactly: with no other writer, however often attempts are killed, fault, or are
      cut within their failure paths, and however often the process ends, the next recovery ends with the
      document rows, points, chunk rows and own parents of one uninterrupted run (and with the other
      builds' parents unless the process has ended) if and only if everything the markers vouch for is
      still there. */
  lemma RecoveryLeavesNoTraceIff(w: World, q: Request, cuts: seq<Interruption>, attempt: string, plain: string)
    requires Startable(w, q)
    ensures var now := AfterCuts(w, q, cuts);
            var (recovered, status) := Attempt(now, q, attempt, true, None, Kill);
            NoTrace(w, q, ProcessEnd in cuts, plain, recovered, status) <==> Sound(q, now)
  {
    hide Startable, Attempt, FinalDocs, FinalPlanes, Finished, Thinned, Sound, Unverified, Origin;
    CutsReached(w, q, cuts);
    var o, now := Origin(w, q, cuts), AfterCuts(w, q, cuts);
    PlainRun(o, q, plain);
    var s := RecoveryFrom(o, q, now, attempt);
    var (recovered, status) := Attempt(now, q, attempt, true, None, Kill);
    NoTraceFromOrigin(w, q, cuts, plain, recovered, status);
    hide Reached, Startable, OwnIdsApply, SameView;
  }

  // ---------------------------------------------------------------------
  // When it fails: what becomes of the build
  // ---------------------------------------------------------------------

  /** Torn before verification, the loss is noticed: the recovery fails, and the one after it succeeds. */
  lemma TornBeforeVerificationHeals(w: World, q: Request, cuts: seq<Interruption>, attempt: string, again: string, plain: string)
    requires Startable(w, q)
    requires var now := AfterCuts(w, q, cuts); !Sound(q, now) && Unverified(q, now)
    ensures var (first, failed) := Attempt(AfterCuts(w, q, cuts), q, attempt, true, None, Kill);
            var (second, status) := Attempt(first, q, again, true, None, Kill);
            failed == FailedRun && NoTrace(w, q, ProcessEnd in cuts, plain, second, status)
  {
    hide Startable, Attempt, FinalDocs, FinalPlanes, Finished, Thinned, Sound, Unverified, OwnIdsApply, SameView, Origin;
    CutsReached(w, q, cuts);
    var o := Origin(w, q, cuts);
    PlainRun(o, q, plain);
    var s := RecoveryFrom(o, q, AfterCuts(w, q, cuts), attempt);
    var first := Attempt(AfterCuts(w, q, cuts), q, attempt, true, None, Kill).0;
    RestartAgain(o, q, s, first);
    FromStart(first, q, again, None, Kill);
    var (second, status) := Attempt(first, q, again, true, None, Kill);
    NoTraceFromOrigin(w, q, cuts, plain, second, status);
  }

  /** Torn after verification, no attempt restores the loss: the recovery reports success, and no
      later attempt, cut or not, changes the document, the points, the parents or the rows again. */
  lemma TornAfterVerificationIsFinal(
      w: World, q: Request, cuts: seq<Interruption>, attempt: string, later: string, budget: Option<nat>, cutting: Cutting)
    requires Startable(w, q)
    requires var now := AfterCuts(w, q, cuts); !Sound(q, now) && !Unverified(q, now)
    ensures var (first, status) := Attempt(AfterCuts(w, q, cuts), q, attempt, true, None, Kill);
            var (second, _) := Attempt(first, q, later, true, budget, cutting);
            && status in {Indexed, AlreadyDone} && JobSucceeded(q, first) && IsActive(first.meta.documents, q.key)
            && !Whole(q, first)
            && PlanesOf(second) == PlanesOf(first) && second.meta.documents == first.meta.documents
  {
    hide Startable, Attempt, FinalDocs, FinalPlanes, Finished, Thinned, Sound, Unverified, OwnIdsApply, SameView, Whole, Origin;
    CutsReached(w, q, cuts);
    var now, o := AfterCuts(w, q, cuts), Origin(w, q, cuts);
    var s := RecoveryFrom(o, q, now, attempt);
    var (first, status) := Attempt(now, q, attempt, true, None, Kill);
    var p :| Finished(s, q, p) && Thinned(q, p, first);
    RestartStarts(o, q, s);
    FinalFacts(s, q);
    FinishedPlanesAre(s, q, p);
    WholeIsFinal(s, q, p, first);
    FromFinished(s, q, p, first, later, budget, cutting);
  }

  lemma FinishedPlanesAre(s: World, q: Request, p: World)
    requires Finished(s, q, p)
    ensures PlanesOf(p) == FinalPlanes(s, q)
  {
  }

  /** A chunk whose parent is missing is shown to nobody. */
  lemma OrphansAreInvisible(w: World, ctx: SecurityContext, d: DocId, id: ChunkId)
    requires id in w.points && w.points[id].parent !in w.parents
    ensures id !in Retrievable(w, ctx, d)
  {
  }

  // ---------------------------------------------------------------------
  // Which cuts do it
  // ---------------------------------------------------------------------

  /** What is written by the first `n` steps is there. */
  lemma ProgressIntact(s: World, q: Request, n: nat, w: World)
    requires WellFormed(q) && Progress(s, q, n, w)
    ensures (n >= 4 ==> ParentsIn(q, w)) && (n >= 5 ==> PointsIn(q, w) && RowsIn(q, w))
  {
    hide Built, FinalPlanes, WellFormed, ParentsWritten, HoldsJob, DocsAt, Marked;
    BuiltHas(s, q);
    FinalHas(s, q);
    ParentsHave(PlanesOf(s), q);
    FinalRows(s, q);
    var a, b := Target(s, q, n), Target(s, q, n + 1);
    if n >= 4 {
      forall i | 0 <= i < |q.parents| ensures q.parents[i].id in w.parents {
        assert Same(w.parents, a.parents, q.parents[i].id) || Same(w.parents, b.parents, q.parents[i].id);
      }
    }
    if n >= 5 {
      forall i | 0 <= i < |q.children| ensures q.children[i].id in w.points && q.children[i].id in w.meta.chunks {
        var id := q.children[i].id;
        assert Same(w.points, a.points, id) || Same(w.points, b.points, id);
        assert Same(w.meta.chunks, a.chunks, id);
      }
      forall i | 0 <= i < |q.parents| ensures q.parents[i].id in w.meta.chunks {
        var id := q.parents[i].id;
        assert Same(w.meta.chunks, a.chunks, id);
      }
    }
  }

  /** A failure path given `writes` writes with `n` steps done: harmless when it clears the
      markers (and, had the job succeeded, fails it again), or deletes nothing that no later
      step writes again. */
  predicate Harmless(q: Request, n: nat, succeeded: bool, writes: nat) {
    || q.parents == []
    || (if succeeded then writes >= Drops(q) + 3 else writes > Drops(q))
    || (if n == 5 || n >= 8 then writes == 0 else n <= 3 || writes <= |q.children|)
  }

  lemma DroppedPresence(q: Request, w: World, k: nat, w': World)
    requires WellFormed(q) && DroppedAt(w, q, k, w') && k <= Drops(q)
    ensures ParentsIn(q, w) ==> (ParentsIn(q, w') <==> k <= |q.children| || q.parents == [])
    ensures PointsIn(q, w) ==> (PointsIn(q, w') <==> k == 0 || q.children == [])
    ensures k < Drops(q) ==> (RowsIn(q, w') <==> RowsIn(q, w))
  {
    var c := |q.children|;
    if k > c && q.parents != [] {
      assert AmongParents(q, k - c, q.parents[0].id);
    }
    if k > 0 && q.children != [] {
      assert AmongChildren(q, k, q.children[0].id);
    }
    var d := k - Min(k, c);
    assert d == 0 ==> forall id :: !AmongParents(q, d, id);
    assert k == 0 ==> forall id :: !AmongChildren(q, k, id);
  }

  lemma ChildrenNeedParents(q: Request)
    requires WellFormed(q) && q.parents == []
    ensures q.children == []
  {
    assert q.children != [] ==> OwnParent(q, q.children[0].parent);
  }

  /** A cut failure path is sound exactly when it is harmless. */
  lemma CutPathIsSoundIff(s: World, q: Request, g: nat, n: nat, w: World, writes: nat)
    requires Startable(s, q) && Progress(s, q, n, w) && n < |Steps| && w.meta.builds[q.key].generation == g
    ensures var after := FailurePath(w, q, g, false, Some(writes)).0;
            Sound(q, after) <==> Harmless(q, n, JobSucceeded(q, w), writes)
  {
    hide Startable, PlanesAt, DocsAt, Marked, FailurePath, DroppedAt, Undone, PointsIn, ParentsIn, RowsIn, Sound, WellFormed;
    StartWellFormed(s, q);
    ProgressIndex(s, q, n, w);
    CompensatingPath(w, q, g, Some(writes));
    var after, k := FailurePath(w, q, g, false, Some(writes)).0, Min(writes, Drops(q) + 3);
    if k <= Drops(q) {
      DropsThin(q, w, k, after);
      SoundUnderWay(s, q, n, w, after);
      CutIntact(s, q, n, w, k, after);
    } else {
      ClearedSound(s, q, n, w, k - Drops(q) - 1);
    }
  }

  lemma CutIntact(s: World, q: Request, n: nat, w: World, k: nat, after: World)
    requires WellFormed(q) && Progress(s, q, n, w) && DroppedAt(w, q, k, after) && k <= Drops(q)
    ensures Intact(q, n, after) <==>
            q.parents == [] || (if n == 5 || n >= 8 then k == 0 else n <= 3 || k <= |q.children|)
  {
    hide Progress, DroppedAt, WellFormed, PointsIn, ParentsIn, RowsIn;
    ProgressIntact(s, q, n, w);
    DroppedPresence(q, w, k, after);
    if q.parents == [] {
      ChildrenNeedParents(q);
      NothingToMiss(q, after);
    }
  }

  lemma NothingToMiss(q: Request, w: World)
    requires q.parents == [] && q.children == []
    ensures PointsIn(q, w) && ParentsIn(q, w) && RowsIn(q, w)
  {
  }

  lemma ClearedSound(s: World, q: Request, n: nat, w: World, j: nat)
    requires Startable(s, q) && Progress(s, q, n, w) && j <= 2
    ensures Sound(q, Undone(w, q, j)) <==> q.parents == [] || !JobSucceeded(q, w) || j == 2
  {
    hide Startable, PlanesAt, DocsAt, Marked, Undone;
    StartWellFormed(s, q);
    HeldRow(s, q, w.meta);
    UndoneJob(s, q, w, j);
    var after := Undone(w, q, j);
    HeldRow(s, q, after.meta);
    UndoneGone(w, q, j);
    if q.parents == [] {
      ChildrenNeedParents(q);
      NothingToMiss(q, after);
    } else {
      assert q.parents[0].id !in after.parents;
    }
  }

  lemma UndoneGone(w: World, q: Request, j: nat)
    ensures forall id | id in ParentIds(q) :: id !in Undone(w, q, j).parents
  {
  }

  // ---------------------------------------------------------------------
  // Kills, and faults whose failure paths run to their end
  // ---------------------------------------------------------------------

  /** The failure path, if there is one, is not itself cut. */
  predicate RunsToEnd(q: Request, cutting: Cutting) {
    cutting.Kill? || cutting.recovery.None? || cutting.recovery.value >= Drops(q) + 3
  }

  /** At a start or under way, with nothing missing. */
  ghost predicate HeadedFor(o: World, q: Request, w: World) {
    Restart(o, q, w) || exists s, n :: Restart(o, q, s) && Progress(s, q, n, w)
  }

  lemma HeadedAgain(o: World, q: Request, s: World, w: World)
    requires Restart(o, q, s) && HeadedFor(s, q, w)
    ensures HeadedFor(o, q, w)
  {
    hide Restart, Progress;
    if Restart(s, q, w) { RestartAgain(o, q, s, w); }
    else {
      var s', n :| Restart(s, q, s') && Progress(s', q, n, w);
      RestartAgain(o, q, s, s');
    }
  }

  lemma StoppedHeaded(s: World, q: Request, g: nat, n: nat, w: World, switched: bool, cutting: Cutting)
    requires Startable(s, q) && Progress(s, q, n, w) && n < |Steps| && RunsToEnd(q, cutting)
    ensures HeadedFor(s, q, Stopped(w, q, g, switched, cutting).0)
  {
    hide Startable, PlanesAt, DocsAt, Marked, MarkTerminal, FinalDocs, FinalPlanes, Restart, FailurePath, Undone;
    StartsAtItself(s, q);
    if cutting.Fault? {
      if switched || !OwnsBuild(w.meta, q.key, q.job, g) {
        BarePath(w, q, g, switched, cutting.recovery);
        FailedJobProgress(s, q, n, w);
      } else {
        CompensatingPath(w, q, g, cutting.recovery);
        FaultRestart(s, q, n, w, 2);
      }
    }
  }

  lemma HeldHeaded(s: World, q: Request, g: nat, n: nat, w: World, budget: Option<nat>, cutting: Cutting)
    requires Startable(s, q) && InRun(s, q, g, n, w) && n < |Steps| && RunsToEnd(q, cutting)
    ensures HeadedFor(s, q, RunHeld(w, q, g, budget, cutting, false).0)
  {
    hide Startable, Progress, RunSteps, FinalDocs, FinalPlanes, Stopped, Restart, FailurePath, RunsToEnd;
    StartsAtItself(s, q);
    ProgressIndex(s, q, n, w);
    var r := RunSteps(w, q, g, 1, budget, false);
    var m := RunStepsProgress(s, q, g, 1, n, w, budget, false);
    if r.Cut? {
      ProgressIndex(s, q, m, r.world);
      StoppedHeaded(s, q, g, m, r.world, r.switched, cutting);
    }
  }

  lemma StartHeaded(w: World, q: Request, attempt: string, budget: Option<nat>, cutting: Cutting)
    requires Startable(w, q) && RunsToEnd(q, cutting)
    ensures HeadedFor(w, q, Attempt(w, q, attempt, true, budget, cutting).0)
  {
    hide Startable, InRun, AcquireJob, Enter, MarkTerminal, Restart, RunHeld, FailurePath, MarkStep, RunsToEnd, Progress;
    StartsAtItself(w, q);
    AcquireStarts(w, q, attempt);
    var (m, o) := AcquireJob(w.meta, AcquireFor(w, q, attempt, true));
    if budget == Some(0) {
      BareStop(w, q, cutting);
      StartGeneration(w, q);
    } else if Spend(budget) == Some(0) {
      ClaimedRestarts(w, q, attempt);
      var claimed := w.(meta := m);
      RestartStarts(w, q, claimed);
      StartGeneration(claimed, q);
      BareStop(claimed, q, cutting);
      RestartAgain(w, q, claimed, claimed.(meta := MarkTerminal(m, q.job, JobFailed)));
    } else {
      HeldHeaded(w, q, o.generation, 1, w.(meta := MarkStep(m, q.job, Acquire)), Spend(Spend(budget)), cutting);
    }
  }

  lemma TerminalSucceeded(s: World, q: Request, n: nat, w: World)
    requires Progress(s, q, n, w) && w.meta.jobs[q.job].status == Succeeded
    ensures Progress(s, q, n, w.(meta := MarkTerminal(w.meta, q.job, Succeeded)))
  {
    hide PlanesAt, DocsAt, Marked, HoldsJob, MarkTerminal;
    HeldRow(s, q, w.meta);
    TerminalHolds(s, q, w.meta, Succeeded);
  }

  lemma ProgressHeaded(s: World, q: Request, n: nat, w: World, attempt: string, budget: Option<nat>, cutting: Cutting)
    requires Startable(s, q) && Progress(s, q, n, w) && RunsToEnd(q, cutting)
    ensures HeadedFor(s, q, Attempt(w, q, attempt, true, budget, cutting).0)
  {
    hide Startable, AcquireJob, Enter, MarkTerminal, Restart, RunHeld, FailurePath, Stopped, MarkStep, RunsToEnd, Progress,
         InRun;
    StartsAtItself(s, q);
    ProgressIndex(s, q, n, w);
    AcquireResumes(s, q, n, w, attempt);
    if w.meta.jobs[q.job].status == Succeeded {
      TerminalSucceeded(s, q, n, w);
    } else {
      var (m, o) := AcquireJob(w.meta, AcquireFor(w, q, attempt, true));
      var held := w.(meta := m);
      RunProgresses(s, q, o.generation, n, held);
      if budget == Some(0) { StoppedHeaded(s, q, 0, n, w, false, cutting); }
      else if Spend(budget) == Some(0) { StoppedHeaded(s, q, 0, n, held, false, cutting); }
      else { HeldHeaded(s, q, o.generation, n, held, Spend(Spend(budget)), cutting); }
    }
  }

  lemma {:induction false} CutsHeaded(w: World, q: Request, cuts: seq<Interruption>)
    requires Startable(w, q) && forall c | c in cuts :: c.Stop? && RunsToEnd(q, c.cutting)
    ensures HeadedFor(w, q, AfterCuts(w, q, cuts))
  {
    hide Startable, Restart, Attempt, Progress, RunsToEnd;
    if cuts == [] {
      StartsAtItself(w, q);
    } else {
      var before, last := AfterCuts(w, q, cuts[..|cuts| - 1]), cuts[|cuts| - 1];
      CutsHeaded(w, q, cuts[..|cuts| - 1]);
      var after := Attempt(before, q, last.attempt, true, Some(last.writes), last.cutting).0;
      if Restart(w, q, before) {
        RestartStarts(w, q, before);
        StartHeaded(before, q, last.attempt, Some(last.writes), last.cutting);
        HeadedAgain(w, q, before, after);
      } else {
        var s, n :| Restart(w, q, s) && Progress(s, q, n, before);
        RestartStarts(w, q, s);
        ProgressHeaded(s, q, n, before, last.attempt, Some(last.writes), last.cutting);
        HeadedAgain(w, q, s, after);
      }
    }
  }

  /** While the process lives, kills anywhere in the steps, and faults whose failure paths run to
      their end, never leave a trace. */
  lemma InterruptionsLeaveNoTrace(w: World, q: Request, cuts: seq<Interruption>, attempt: string, plain: string)
    requires Startable(w, q) && forall c | c in cuts :: c.Stop? && RunsToEnd(q, c.cutting)
    ensures var (recovered, status) := Attempt(AfterCuts(w, q, cuts), q, attempt, true, None, Kill);
            NoTrace(w, q, false, plain, recovered, status)
  {
    hide Startable, Restart, Attempt, Progress, RunsToEnd, NoTrace, Sound, WellFormed;
    var now := AfterCuts(w, q, cuts);
    CutsHeaded(w, q, cuts);
    if Restart(w, q, now) {
      RestartStarts(w, q, now);
      SoundAtStart(q, now);
    } else {
      var s, n :| Restart(w, q, s) && Progress(s, q, n, now);
      RestartStarts(w, q, s);
      StartWellFormed(s, q);
      ThinnedSelf(q, now);
      SoundUnderWay(s, q, n, now, now);
      ProgressIntact(s, q, n, now);
    }
    RecoveryLeavesNoTraceIff(w, q, cuts, attempt, plain);
  }

  // ---------------------------------------------------------------------
  // What is shown
  // ---------------------------------------------------------------------

  lemma ThinnedOwn(q: Request, p: World, w: World)
    requires OwnIdsApply(p, q) && Thinned(q, p, w)
    ensures OwnIdsApply(w, q)
  {
    forall id | id in w.points ensures id in ChildIds(q) <==> w.points[id].key == q.key {
      assert Same(w.points, p.points, id);
    }
    forall id | id in w.parents && id in ParentIds(q) ensures w.parents[id].key == q.key {
      assert Same(w.parents, p.parents, id);
    }
  }

  lemma ThinnedStands(s: World, q: Request, p: World, w: World)
    requires OthersStand(s, q, p) && Thinned(q, p, w)
    ensures OthersStand(s, q, w)
  {
    forall id | id !in ChildIds(q) ensures Same(w.points, s.points, id) {
      assert Same(w.points, p.points, id) && Same(p.points, s.points, id);
    }
    forall id | id !in ParentIds(q) ensures Same(w.parents, s.parents, id) {
      assert Same(w.parents, p.parents, id) && Same(p.parents, s.parents, id);
    }
  }

  lemma UnderWayShows(s: World, q: Request, n: nat, p: World, w: World, ctx: SecurityContext)
    requires Startable(s, q) && OwnIdsApply(s, q) && Progress(s, q, n, p) && Thinned(q, p, w)
    ensures OwnIdsApply(w, q) && SoundDocuments(w.meta.documents)
    ensures IsActive(s.meta.documents, q.key) ==> IsActive(w.meta.documents, q.key)
    ensures !IsActive(w.meta.documents, q.key) ==> Retrievable(w, ctx, q.key.doc) == Retrievable(s, ctx, q.key.doc)
  {
    hide Startable, OwnIdsApply, OthersStand, PlanesAt, HoldsJob, Retrievable, ClaimedDocs, FinalDocs, ActiveVersion, Thin,
         ThinRows, SoundDocuments;
    StartWellFormed(s, q);
    ActiveStays(s, q, n, p);
    OwnIdsStay(s, q, n, p);
    ThinnedOwn(q, p, w);
    if !IsActive(w.meta.documents, q.key) {
      FinalFacts(s, q);
      ClaimedView(s, q);
      if n >= 7 { FinalAfterCommit(s, q, n, p.meta.documents); }
      BuildingStands(s, q, n, p);
      ThinnedStands(s, q, p, w);
      UnseenBuild(s, q, w, ctx);
    }
  }

  lemma OverShows(s: World, q: Request, p: World, w: World)
    requires Startable(s, q) && OwnIdsApply(s, q) && Finished(s, q, p) && Thinned(q, p, w)
    ensures OwnIdsApply(w, q) && SoundDocuments(w.meta.documents) && IsActive(w.meta.documents, q.key)
  {
    hide Startable, FinalDocs, FinalPlanes, Thin, ThinRows, SoundDocuments;
    StartWellFormed(s, q);
    FinalFacts(s, q);
    FinalOwn(s, q);
    ThinnedOwn(q, p, w);
  }

  /** Beside no foreign parents, a document whose version is not this build's shows nothing. */
  lemma NothingWithoutParents(o: World, q: Request, ctx: SecurityContext)
    requires OwnOnly(o, q) == o && OwnIdsApply(o, q) && !IsActive(o.meta.documents, q.key)
    ensures Retrievable(o, ctx, q.key.doc) == {}
  {
    hide PassesSearch, ActiveVersion, ParentIds, ChildIds, SameAcl, EvaluateAccess;
    ActiveVersionOther(o.meta.documents, q.key);
    forall id | id in o.points && o.points[id].parent in o.parents ensures o.parents[o.points[id].parent].key == q.key {
      assert o.points[id].parent in ParentIds(q);
    }
  }

  lemma OriginOwn(w: World, q: Request, cuts: seq<Interruption>)
    requires OwnIdsApply(w, q)
    ensures OwnIdsApply(Origin(w, q, cuts), q)
    ensures Origin(w, q, cuts).meta == w.meta
    ensures ProcessEnd in cuts ==> OwnOnly(Origin(w, q, cuts), q) == Origin(w, q, cuts)
  {
    hide ParentIds, ChildIds;
  }

  /** Visibility over whole runs, at every cut, in the steps, in failure paths, or by the end of the
      process: until the switch a document shows exactly what it showed before the build, or nothing
      once the process has ended; from then on only the new version's chunks, and never a mixture. */
  lemma VisibilityOverRuns(w: World, q: Request, cuts: seq<Interruption>, ctx: SecurityContext)
    requires Startable(w, q) && OwnIdsApply(w, q)
    ensures var now := AfterCuts(w, q, cuts);
            if IsActive(now.meta.documents, q.key) then Retrievable(now, ctx, q.key.doc) <= ChildIds(q)
            else Retrievable(now, ctx, q.key.doc) == if ProcessEnd in cuts then {} else Retrievable(w, ctx, q.key.doc)
  {
    hide Startable, OwnIdsApply, Attempt, FinalDocs, FinalPlanes, Progress, Thinned, Finished, Retrievable, SoundDocuments;
    CutsReached(w, q, cuts);
    OriginOwn(w, q, cuts);
    var now, o := AfterCuts(w, q, cuts), Origin(w, q, cuts);
    ReachedShows(o, q, now, ctx);
    if IsActive(now.meta.documents, q.key) { CommittedShowsOwn(now, q, ctx); }
    else if ProcessEnd in cuts { NothingWithoutParents(o, q, ctx); }
  }

  lemma ReachedShows(o: World, q: Request, now: World, ctx: SecurityContext)
    requires Startable(o, q) && OwnIdsApply(o, q) && Reached(o, q, now)
    ensures OwnIdsApply(now, q) && SoundDocuments(now.meta.documents)
    ensures IsActive(o.meta.documents, q.key) ==> IsActive(now.meta.documents, q.key)
    ensures !IsActive(now.meta.documents, q.key) ==> Retrievable(now, ctx, q.key.doc) == Retrievable(o, ctx, q.key.doc)
  {
    hide Startable, OwnIdsApply, FinalDocs, FinalPlanes, Progress, Thinned, Finished, Retrievable, SoundDocuments;
    if Restart(o, q, now) {
      StartWellFormed(now, q);
    } else if exists s, n, p :: UnderWay(o, q, now, s, n, p) {
      var s, n, p :| UnderWay(o, q, now, s, n, p);
      UnderWayShows(s, q, n, p, now, ctx);
    } else {
      var s, p :| Over(o, q, now, s, p);
      OverShows(s, q, p, now);
    }
  }

  /** Recovered from a sound world, the document shows all of the new version to whoever its ACL admits. */
  lemma IndexedShowsAll(w: World, q: Request, cuts: seq<Interruption>, attempt: string, ctx: SecurityContext)
    requires Startable(w, q) && OwnIdsApply(w, q) && Sound(q, AfterCuts(w, q, cuts))
    ensures var end := Attempt(AfterCuts(w, q, cuts), q, attempt, true, None, Kill).0;
            Retrievable(end, ctx, q.key.doc) == if EvaluateAccess(ctx, q.acl) then ChildIds(q) else {}
  {
    hide Startable, OwnIdsApply, Attempt, FinalDocs, FinalPlanes, Retrievable, SoundDocuments, EvaluateAccess, Sound, Finished,
         Thinned, Reached, SameView, Origin;
    CutsReached(w, q, cuts);
    OriginOwn(w, q, cuts);
    var o := Origin(w, q, cuts);
    var end := Attempt(AfterCuts(w, q, cuts), q, attempt, true, None, Kill).0;
    var s := RecoveryFrom(o, q, AfterCuts(w, q, cuts), attempt);
    ArrivedShowsAll(s, q, end, ctx);
  }

  /** The hypothesis is met by every new version of every document in every reachable state. */
  lemma NewVersionCanStart(w: World, q: Request)
    requires Inv(w.meta) && WellFormed(q) && q.key !in w.meta.documents && q.job !in w.meta.jobs
    requires forall step :: (q.job, step) !in w.meta.steps
    requires forall id | id in w.meta.chunks :: w.meta.chunks[id].key != q.key
    ensures Startable(w, q)
  {
    hide MaxRevision, ActiveVersion;
  }

  /** While an attempt is running, a redelivery that does not claim to recover it changes nothing. */
  lemma RedeliveryIsRefused(s: World, q: Request, n: nat, w: World, attempt: string, budget: Option<nat>)
    requires Startable(s, q) && Progress(s, q, n, w) && w.meta.jobs[q.job].status != Succeeded && budget != Some(0)
    requires w.meta.builds[q.key].status == LeaseRunning && w.meta.builds[q.key].attempt != attempt
    ensures Attempt(w, q, attempt, false, budget, Kill) == (w, Conflict)
  {
    hide Startable, FinalDocs, PlanesAt, DocsAt, MaxRevision, ActiveVersion, UpsertBuild, RunSteps;
    AcquireResumes(s, q, n, w, attempt);
  }

  // ---------------------------------------------------------------------
  // The commit flag belongs to one attempt
  // ---------------------------------------------------------------------

  /** A fault after the commit keeps the published version's data exactly when the
      faulting attempt made the switch itself. An attempt that resumed behind the
      commit marker removes the data of the active version: the document then
      shows nothing at all until it is recovered. */
  lemma FaultKeepsDataIffSwitchedHere(s: World, q: Request, g: nat, n: nat, w: World, switched: bool)
    requires Startable(s, q) && OwnIdsApply(s, q) && q.children != []
    requires Progress(s, q, n, w) && 7 <= n < |Steps| && w.meta.builds[q.key].generation == g
    ensures var after := Stopped(w, q, g, switched, Fault(None)).0;
            && IsActive(after.meta.documents, q.key)
            && (PlanesOf(after) == PlanesOf(w) <==> switched)
            && (!switched ==> forall ctx :: Retrievable(after, ctx, q.key.doc) == {})
  {
    hide Startable, FinalDocs, FinalPlanes, PlanesAt, SoundDocuments, MaxRevision, ActiveVersion, Retrievable, OwnIdsApply,
         FailurePath, Undone, MarkTerminal, MarkFailed;
    StartWellFormed(s, q);
    FinalAfterCommit(s, q, n, w.meta.documents);
    FinalFacts(s, q);
    var after := Stopped(w, q, g, switched, Fault(None)).0;
    if switched {
      BarePath(w, q, g, switched, None);
      TerminalKeepsRows(w.meta, q.job);
    } else {
      CompensatingPath(w, q, g, None);
      OwnIdsStay(s, q, n, w);
      UndoneEntries(w, q, 2);
      UndoneActive(w, q, 2);
      OwnPointsThere(s, q, n, w);
      assert q.children[0].id in ChildIds(q);
      forall ctx ensures Retrievable(after, ctx, q.key.doc) == {} {
        CommittedShowsOwn(after, q, ctx);
        ShownIsStored(after, ctx, q.key.doc);
      }
    }
  }

  lemma TerminalKeepsRows(m: State, job: JobId)
    ensures var m' := MarkTerminal(m, job, JobFailed); m'.documents == m.documents && m'.chunks == m.chunks
  {
  }

  lemma ShownIsStored(w: World, ctx: SecurityContext, d: DocId)
    ensures forall id | id in Retrievable(w, ctx, d) :: id in w.points
  {
  }

  lemma OwnPointsThere(s: World, q: Request, n: nat, w: World)
    requires WellFormed(q) && PlanesAt(s, q, n, PlanesOf(w)) && n >= 7
    ensures forall id | id in ChildIds(q) :: id in w.points
  {
    hide Built, FinalPlanes, WellFormed, ParentsWritten;
    BuiltHas(s, q);
    FinalHas(s, q);
    forall id | id in ChildIds(q) ensures id in w.points {
      var a, b := Target(s, q, n), Target(s, q, n + 1);
      assert q.children[ChildAt(q, id)].id == id;
      assert Same(w.points, a.points, id) || Same(w.points, b.points, id);
    }
  }

  /** The family of runs on which this happens: killed between the commit marker and
      the end, recovered, and faulting before the recovery's first step is done. */
  lemma ResumedFaultHidesDocument(s: World, q: Request, n: nat, w: World, attempt: string, ctx: SecurityContext)
    requires Startable(s, q) && OwnIdsApply(s, q) && q.children != []
    requires Progress(s, q, n, w) && 7 <= n < |Steps| && w.meta.jobs[q.job].status != Succeeded
    ensures var after := Attempt(w, q, attempt, true, Some(2), Fault(None)).0;
            IsActive(after.meta.documents, q.key) && Retrievable(after, ctx, q.key.doc) == {}
  {
    hide Startable, FinalDocs, FinalPlanes, PlanesAt, DocsAt, Retrievable, OwnIdsApply, AcquireJob, HoldsJob, Stopped, StepOps;
    AcquireResumes(s, q, n, w, attempt);
    var (m, o) := AcquireJob(w.meta, AcquireFor(w, q, attempt, true));
    var held := w.(meta := m);
    HeldRow(s, q, m);
    CutAtOnce(s, q, o.generation, n, held);
    FaultKeepsDataIffSwitchedHere(s, q, o.generation, n, held, false);
  }

  lemma CutAtOnce(s: World, q: Request, g: nat, n: nat, w: World)
    requires Progress(s, q, n, w) && 7 <= n < |Steps|
    ensures RunSteps(w, q, g, 1, Some(0), false) == Cut(w, false)
  {
    hide StepOps, HoldsJob, PlanesAt, DocsAt;
    NextPending(s, q, g, n, w, 1);
  }

  lemma {:induction false} NextPending(s: World, q: Request, g: nat, n: nat, w: World, i: nat)
    requires Progress(s, q, n, w) && i <= n < |Steps|
    ensures RunSteps(w, q, g, i, Some(0), false) == Cut(w, false)
    decreases n - i
  {
    hide StepOps, HoldsJob, PlanesAt, DocsAt, StatusAt;
    assert (q.job, Steps[i]) in w.meta.steps <==> i < n;
    if i < n { NextPending(s, q, g, n, w, i + 1); }
  }
}
