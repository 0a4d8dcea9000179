/** What the end of the process does to a build and to its neighbours: the parent store is gone,
    the tables and the points are not. */
module ProcessEnds {
  import opened Common
  import opened Policy
  import opened ControlPlane
  import opened Lifecycle
  import opened DataPlane
  import opened Stores
  import opened Ingestion
  import opened PlaneWrites
  import opened IngestionProgress
  import opened LostParents
  import opened Elsewhere
  import opened Restarts
  import opened IngestionVisibility
  import opened Thinning
  import opened FailurePaths
  import opened Interruptions
  import opened CrashRefinement
  import opened TornCompensation

  lemma CutThenEnd(w: World, q: Request, cuts: seq<Interruption>)
    ensures AfterCuts(w, q, cuts + [ProcessEnd]) == ParentsLost(AfterCuts(w, q, cuts))
    ensures AfterCuts(w, q, cuts + [ProcessEnd]).parents == map[]
  {
    hide Attempt;
    assert (cuts + [ProcessEnd])[..|cuts|] == cuts;
  }

  // ---------------------------------------------------------------------
  // The build itself
  // ---------------------------------------------------------------------

  /** The step that writes the parents is not yet marked done. */
  predicate Unwritten(q: Request, w: World) {
    !JobSucceeded(q, w) && !Done(q, w, WriteParents)
  }

  lemma LostIsSoundIff(o: World, q: Request, now: World)
    requires Startable(o, q) && Reached(o, q, now) && now.parents == map[]
    ensures Sound(q, now) <==> q.parents == [] || Unwritten(q, now)
  {
    hide Startable, Restart, Progress, Thinned, Finished;
    if q.parents == [] {
      StartWellFormed(o, q);
      ChildrenNeedParents(q);
      NothingToMiss(q, now);
    } else {
      assert !ParentsIn(q, now) by { assert q.parents[0].id !in now.parents; }
      if Unwritten(q, now) {
        if Restart(o, q, now) {
          RestartStarts(o, q, now);
          SoundAtStart(q, now);
        } else if exists s, n, p :: UnderWay(o, q, now, s, n, p) {
          var s, n, p :| UnderWay(o, q, now, s, n, p);
          SoundUnderWay(s, q, n, p, now);
          EarlyIsIntact(s, q, n, p, now);
        } else {
          var s, p :| Over(o, q, now, s, p);
          OverSucceeded(s, q, p, now);
        }
      }
    }
  }

  lemma EarlyIsIntact(s: World, q: Request, n: nat, p: World, w: World)
    requires Progress(s, q, n, p) && Thinned(q, p, w) && !Done(q, w, WriteParents)
    ensures n <= 3
  {
    hide HoldsJob, PlanesAt, DocsAt, Thin, ThinRows;
    assert Steps[3] == WriteParents;
    assert (q.job, Steps[3]) in w.meta.steps <==> 3 < n;
  }

  lemma OverSucceeded(s: World, q: Request, p: World, w: World)
    requires Finished(s, q, p) && Thinned(q, p, w)
    ensures JobSucceeded(q, w)
  {
    hide FinalDocs, FinalPlanes, Thin, ThinRows, Prev, Base;
  }

  /** Behind the verify marker nothing puts the parents back. */
  lemma StaysWithoutParents(o: World, q: Request, now: World, attempt: string, id: ChunkId)
    requires Startable(o, q) && Reached(o, q, now) && now.parents == map[] && !Unwritten(q, now) && !Unverified(q, now)
    ensures id !in Attempt(now, q, attempt, true, None, Kill).0.parents
  {
    hide Startable, Restart, Progress, Thinned, Finished, Attempt, FinalDocs, FinalPlanes;
    if Restart(o, q, now) {
      RestartStarts(o, q, now);
      SoundAtStart(q, now);
      StartUnwritten(q, now);
    } else if exists s, n, p :: UnderWay(o, q, now, s, n, p) {
      var s, n, p :| UnderWay(o, q, now, s, n, p);
      RestartStarts(o, q, s);
      SoundUnderWay(s, q, n, p, now);
      LostParentStays(s, q, n, p, now, attempt, id);
    } else {
      var s, p :| Over(o, q, now, s, p);
      RestartStarts(o, q, s);
      FromFinished(s, q, p, now, attempt, None, Kill);
    }
  }

  lemma StartUnwritten(q: Request, w: World)
    requires Startable(w, q)
    ensures Unwritten(q, w)
  {
    hide SoundDocuments, MaxRevision, WellFormed, OnlyOwnRows;
  }

  /** The process ends after any interruptions, and the build is recovered. Exactly if it has no parents, or
      has not yet marked them written, nothing is lost of it. Up to verification the loss is noticed: the
      recovery fails, and the next one makes it good. Behind verification the recovery reports success on an
      active version without a single parent. */
  lemma ProcessEndDecides(w: World, q: Request, cuts: seq<Interruption>, attempt: string, again: string, plain: string)
    requires Startable(w, q)
    ensures var now := AfterCuts(w, q, cuts + [ProcessEnd]);
            var (first, status) := Attempt(now, q, attempt, true, None, Kill);
            var (second, status') := Attempt(first, q, again, true, None, Kill);
            && (NoTrace(w, q, true, plain, first, status) <==> q.parents == [] || Unwritten(q, now))
            && (q.parents != [] && !Unwritten(q, now) ==>
                  if Unverified(q, now) then status == FailedRun && NoTrace(w, q, true, plain, second, status')
                  else && status in {Indexed, AlreadyDone} && JobSucceeded(q, first) && IsActive(first.meta.documents, q.key)
                       && first.parents == map[])
  {
    hide Startable, Attempt, NoTrace, AfterCuts, Sound, Unverified, Unwritten, Reached, JobSucceeded, Whole;
    var all := cuts + [ProcessEnd];
    var now := AfterCuts(w, q, all);
    CutThenEnd(w, q, cuts);
    CutsReached(w, q, all);
    RecoveryLeavesNoTraceIff(w, q, all, attempt, plain);
    LostIsSoundIff(Origin(w, q, all), q, now);
    if q.parents != [] && !Unwritten(q, now) {
      if Unverified(q, now) {
        TornBeforeVerificationHeals(w, q, all, attempt, again, plain);
      } else {
        TornAfterVerificationIsFinal(w, q, all, attempt, again, None, Kill);
        forall id ensures id !in Attempt(now, q, attempt, true, None, Kill).0.parents {
          StaysWithoutParents(Origin(w, q, all), q, now, attempt, id);
        }
      }
    }
  }

  /** Every build with a parent can be lost by one kill behind the verify marker and the end of the process:
      the recovery reports success, and the document shows nothing to anyone. */
  lemma ProcessEndLosesVersion(w: World, q: Request, attempt: string, again: string) returns (cuts: seq<Interruption>)
    requires Startable(w, q) && OwnIdsApply(w, q) && q.parents != []
    ensures |cuts| == 2 && cuts[0].Stop? && cuts[0].cutting == Kill && cuts[1] == ProcessEnd
    ensures var (end, status) := Attempt(AfterCuts(w, q, cuts), q, again, true, None, Kill);
            && status == Indexed && JobSucceeded(q, end) && IsActive(end.meta.documents, q.key)
            && (forall id | id in ParentIds(q) :: id !in end.parents)
            && (forall ctx :: Retrievable(end, ctx, q.key.doc) == {})
  {
    hide Startable, Attempt, Progress, Thinned, Retrievable, OwnIdsApply, OwnOnly, Stopped, JobSucceeded;
    var o := OwnOnly(w, q);
    assert ProcessEnd in [ProcessEnd];
    OriginStarts(w, q, [ProcessEnd]);
    OriginOwn(w, q, [ProcessEnd]);
    var writes, g, p := StopBehindVerify(o, q, attempt);
    var stop := [Stop(attempt, writes, Kill)];
    cuts := stop + [ProcessEnd];
    OneKill(o, q, attempt, writes, g, p);
    CutsOwnOnly(w, q, stop);
    OwnOnlyTwice(AfterCuts(w, q, stop), q);
    LostThins(q, p);
    CutThenEnd(o, q, stop);
    FromOrigin(w, q, cuts);
    assert cuts[1] in cuts;
    RecoveredWithoutParents(o, q, p, AfterCuts(w, q, cuts), again);
  }

  lemma OneKill(o: World, q: Request, attempt: string, writes: nat, g: nat, p: World)
    requires Attempt(o, q, attempt, true, Some(writes), Kill).0 == Stopped(p, q, g, false, Kill).0
    ensures AfterCuts(o, q, [Stop(attempt, writes, Kill)]) == p
  {
    hide Attempt;
    var stop := [Stop(attempt, writes, Kill)];
    assert stop[..0] == [] && AfterCuts(o, q, stop[..0]) == o;
  }

  // ---------------------------------------------------------------------
  // Its neighbours
  // ---------------------------------------------------------------------

  /** A chunk id belongs to one version, in the tables and in the stores. */
  ghost predicate RowsAgree(w: World) {
    forall id | id in w.meta.chunks ::
      && (id in w.points ==> w.points[id].key == w.meta.chunks[id].key)
      && (id in w.parents ==> w.parents[id].key == w.meta.chunks[id].key)
  }

  /** The ids of this build and those of its document's rows. */
  ghost function Home(w: World, q: Request): Region {
    Region(ChildIds(q) + (set id | id in w.meta.chunks && w.meta.chunks[id].key.doc == q.key.doc && !w.meta.chunks[id].isParent),
           ParentIds(q) + (set id | id in w.meta.chunks && w.meta.chunks[id].key.doc == q.key.doc && w.meta.chunks[id].isParent))
  }

  lemma HomeIsInside(w: World, q: Request)
    requires OwnIdsApply(w, q) && RowsAgree(w)
    ensures Inside(w, q.key.doc, Home(w, q)) && OwnInside(q, Home(w, q))
  {
    hide ParentIds, ChildIds;
  }

  lemma LostKeeps(w: World, d: DocId, r: Region)
    requires Inside(w, d, r)
    ensures Inside(ParentsLost(w), d, r)
  {
  }

  lemma {:induction false} CutsKeep(w: World, q: Request, cuts: seq<Interruption>, r: Region)
    requires Inside(w, q.key.doc, r) && OwnInside(q, r)
    ensures var now := AfterCuts(w, q, cuts);
            && Inside(now, q.key.doc, r)
            && (ProcessEnd !in cuts ==> Stands(w, now, q.key.doc, r))
            && (ProcessEnd in cuts ==> now.parents.Keys <= r.parents)
  {
    hide Inside, Stands, OwnInside, Attempt;
    StandsStill(w, q.key.doc, r);
    if cuts != [] {
      var init, last := cuts[..|cuts| - 1], cuts[|cuts| - 1];
      assert cuts == init + [last];
      var before, now := AfterCuts(w, q, init), AfterCuts(w, q, cuts);
      CutsKeep(w, q, init, r);
      if last.Stop? {
        AttemptKeeps(before, q, r, last.attempt, true, Some(last.writes), last.cutting);
        if ProcessEnd in cuts { ParentsStayHome(before, now, q.key.doc, r); } else { StandsTwice(w, before, now, q.key.doc, r); }
      } else {
        LostKeeps(before, q.key.doc, r);
      }
    }
  }

  lemma ParentsStayHome(w: World, w': World, d: DocId, r: Region)
    requires Stands(w, w', d, r) && w.parents.Keys <= r.parents
    ensures w'.parents.Keys <= r.parents
  {
    forall id | id in w'.parents ensures id in r.parents {
      assert id !in r.parents ==> Same(w'.parents, w.parents, id);
    }
  }

  lemma NothingElsewhere(w: World, d: DocId, r: Region, other: DocId, ctx: SecurityContext)
    requires Inside(w, d, r) && w.parents.Keys <= r.parents && other != d
    ensures Retrievable(w, ctx, other) == {}
  {
    hide PassesSearch, ActiveVersion, SameAcl, ResourcePassesFilter;
    assert forall id | id in w.parents :: w.parents[id].key.doc == d;
  }

  /** Every other document shows what it showed, at every cut of every run, until the process ends; from
      then on, whatever attempts follow, it shows nothing. */
  lemma OtherDocumentsOverRuns(w: World, q: Request, cuts: seq<Interruption>, other: DocId, ctx: SecurityContext)
    requires Startable(w, q) && OwnIdsApply(w, q) && RowsAgree(w) && other != q.key.doc
    ensures Retrievable(AfterCuts(w, q, cuts), ctx, other) == if ProcessEnd in cuts then {} else Retrievable(w, ctx, other)
  {
    hide Startable, OwnIdsApply, RowsAgree, Inside, Stands, OwnInside, Retrievable, Home, Reached;
    var now, r, o := AfterCuts(w, q, cuts), Home(w, q), Origin(w, q, cuts);
    HomeIsInside(w, q);
    CutsKeep(w, q, cuts, r);
    if ProcessEnd in cuts {
      NothingElsewhere(now, q.key.doc, r, other, ctx);
    } else {
      CutsReached(w, q, cuts);
      ReachedShows(o, q, now, ctx);
      StartWellFormed(w, q);
      OthersShow(w, now, q.key.doc, r, other, ctx);
    }
  }
}
