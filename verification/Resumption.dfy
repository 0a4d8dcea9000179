/** Checkpoints of the gap-retrieval loop: what a checkpoint gives back, and exactly
    when a resumed run ends as the uninterrupted one. */
module Resumption {
  import opened Common
  import opened Iteration

  // ---------------------------------------------------------------------
  // Checkpoints
  // ---------------------------------------------------------------------

  /** What is persisted after a round; the stop policy's counter is not, and the
      trackers are rebuilt from the evidence. */
  datatype Checkpoint = Checkpoint(
    round: nat, evidence: seq<Snapshot>, prior: seq<string>, coverage: Option<Coverage>, gapRounds: nat, calls: nat,
    reason: string, report: Option<Report>, finalIds: seq<string>, conflictStop: bool, completed: bool)

  function Save(s: State, round: nat): Checkpoint {
    Checkpoint(round, s.evidence, s.prior, s.coverage, s.gapRounds, s.calls, s.reason, s.report,
               seq(|s.finalEvidence|, i requires 0 <= i < |s.finalEvidence| => s.finalEvidence[i].id), s.conflictStop, false)
  }

  /** The state rebuilt over the evidence that is still authorized. */
  function RebuildOver(ck: Checkpoint, surviving: seq<Snapshot>): State {
    var final :=
      if ck.completed && ck.finalIds == [] then []
      else if ck.finalIds == [] then surviving
      else Selected(surviving, Elements(ck.finalIds));
    State(surviving, HashesOf(surviving), DocVersionsOf(surviving), ck.prior, ck.coverage, ck.gapRounds, ck.calls,
          if ck.coverage.Some? then ck.coverage.value.covered else {}, ck.reason, ck.report, final, ck.conflictStop)
  }

  function Rebuild(ck: Checkpoint): State {
    RebuildOver(ck, ck.evidence)
  }

  predicate Dropped(ck: Checkpoint, authorized: set<string>) {
    exists e | e in ck.evidence :: e.id !in authorized
  }

  /** Verdict and report of a completed checkpoint do not survive a revocation. */
  function Reopened(ck: Checkpoint, s: State): State {
    if ck.completed then s.(coverage := None, report := None, finalEvidence := [], conflictStop := false, reason := "") else s
  }

  /** Resuming, given the ids that are still authorized: refuse without evidence; reassess if some was
      revoked; return a completed outcome as it is; go on otherwise, with the counter at zero. */
  function Resume(env: Env, ck: Checkpoint, authorized: set<string>): (End, State)
    requires ck.round > 0 ==> ck.coverage.Some?
  {
    var surviving := Selected(ck.evidence, authorized);
    var s := RebuildOver(ck, surviving);
    if surviving == [] then
      (Refused, s.(finalEvidence := [], report := None, coverage := Some(Abstain), reason := "all_evidence_revoked", conflictStop := false))
    else if Dropped(ck, authorized) then
      var report := env.stage(surviving);
      var kept := Selected(surviving, report.kept);
      var open := Reopened(ck, s).(report := Some(report), finalEvidence := kept);
      if kept == [] then (Refused, open.(coverage := Some(Abstain), reason := "temporal_no_evidence", conflictStop := false))
      else
        match env.judge(kept)
        case None => (Failed, open.(conflictStop := report.contradicted))
        case Some(cov) =>
          var judged := open.(conflictStop := report.contradicted,
                              coverage := Some(if report.contradicted then ContradictedCoverage else cov));
          if report.contradicted || cov.overall == "sufficient" then (Answered, judged) else RunLoop(env, judged, ck.round, 0)
    else if ck.completed then (if s.finalEvidence == [] then Refused else Answered, s)
    else RunLoop(env, s, ck.round, 0)
  }

  // ---------------------------------------------------------------------
  // The one field that is not restored does not matter
  // ---------------------------------------------------------------------

  /** Equal but for the field that every round overwrites before it reads it. */
  ghost predicate SameRun(s: State, t: State) {
    s == t.(prevCovered := s.prevCovered)
  }

  lemma {:induction false} AssessIgnoresPrevious(env: Env, s: State, t: State, round: nat, noGain: nat, newIds: set<string>, newContent: bool)
    requires SameRun(s, t)
    ensures var (a, s', n) := Assess(env, s, round, noGain, newIds, newContent);
            var (b, t', m) := Assess(env, t, round, noGain, newIds, newContent);
            a == b && n == m && SameRun(s', t')
  {
    hide Selected;
  }

  lemma {:induction false} TakeInIgnoresPrevious(s: State, x: set<string>, evs: seq<Snapshot>)
    ensures TakeIn(s.(prevCovered := x), evs) ==
            TakeIn(s, evs).(state := TakeIn(s, evs).state.(prevCovered := x))
  {
    hide IndexOf;
    if evs != [] { TakeInIgnoresPrevious(s, x, evs[..|evs| - 1]); }
  }

  lemma {:induction false} RoundIgnoresPrevious(env: Env, s: State, t: State, round: nat, noGain: nat)
    requires SameRun(s, t) && (round > 0 ==> s.coverage.Some?)
    ensures var (a, s', n) := RunRound(env, s, round, noGain);
            var (b, t', m) := RunRound(env, t, round, noGain);
            a == b && n == m && SameRun(s', t')
  {
    hide Assess, TakeIn, PlanQueries;
    if round == 0 {
      AssessIgnoresPrevious(env, s.(gapRounds := 1), t.(gapRounds := 1), 0, noGain, IdsOf(s.evidence), false);
    } else {
      var pending := PlanQueries(s.coverage.value.facts, Elements(s.prior));
      if pending != [] && env.retrieve(pending[0], round).Some? {
        var evs := env.retrieve(pending[0], round).value;
        var u := t.(gapRounds := round + 1, calls := t.calls + 1);
        assert s.(gapRounds := round + 1, calls := s.calls + 1) == u.(prevCovered := s.prevCovered);
        TakeInIgnoresPrevious(u, s.prevCovered, evs);
        var x, y := TakeIn(u.(prevCovered := s.prevCovered), evs), TakeIn(u, evs);
        TakeInKeeps(u, evs);
        AssessIgnoresPrevious(env, x.state.(prior := s.prior + [pending[0]]), y.state.(prior := t.prior + [pending[0]]),
                              round, noGain, x.newIds, x.newContent);
      }
    }
  }

  lemma {:induction false} LoopIgnoresPrevious(env: Env, s: State, t: State, round: nat, noGain: nat)
    requires SameRun(s, t) && (round > 0 ==> s.coverage.Some?)
    ensures RunLoop(env, s, round, noGain).0 == RunLoop(env, t, round, noGain).0
    ensures SameRun(RunLoop(env, s, round, noGain).1, RunLoop(env, t, round, noGain).1)
    decreases env.maxRounds - round
  {
    hide RunRound;
    if round < env.maxRounds {
      RoundIgnoresPrevious(env, s, t, round, noGain);
      var (a, s', n) := RunRound(env, s, round, noGain);
      var (b, t', m) := RunRound(env, t, round, noGain);
      if a == Continue && s'.coverage.Some? { LoopIgnoresPrevious(env, s', t', round + 1, n); }
    }
  }

  // ---------------------------------------------------------------------
  // What has been delivered
  // ---------------------------------------------------------------------

  function RoundDelivers(env: Env, s: State, round: nat): seq<Snapshot>
    requires round > 0 ==> s.coverage.Some?
  {
    if round == 0 then []
    else
      var pending := PlanQueries(s.coverage.value.facts, Elements(s.prior));
      if pending == [] then []
      else
        match env.retrieve(pending[0], round)
        case None => []
        case Some(evs) => if exists e | e in evs :: e.tenant != env.tenant || e.corpus != env.corpus then [] else evs
  }

  /** Everything the first `k` rounds took in. */
  function Delivered(env: Env, s: State, k: nat): seq<Snapshot> {
    if k == 0 then []
    else
      match After(env, s, k - 1)
      case None => []
      case Some((before, _)) =>
        if k - 1 > 0 && before.coverage.None? then [] else Delivered(env, s, k - 1) + RoundDelivers(env, before, k - 1)
  }

  ghost predicate UniqueIds(evs: seq<Snapshot>) {
    forall i, j | 0 <= i < j < |evs| :: evs[i].id != evs[j].id
  }

  /** The trackers record all deliveries; the evidence holds one of them for each id. */
  ghost predicate Records(s: State, ds: seq<Snapshot>) {
    && s.hashes == HashesOf(ds) && s.docVersions == DocVersionsOf(ds)
    && UniqueIds(s.evidence) && IdsOf(s.evidence) == IdsOf(ds) && forall e | e in s.evidence :: e in ds
  }

  lemma OneMore(ds: seq<Snapshot>, e: Snapshot)
    ensures HashesOf(ds + [e]) == HashesOf(ds) + {e.hash} && DocVersionsOf(ds + [e]) == DocVersionsOf(ds) + {(e.document, e.version)}
    ensures IdsOf(ds + [e]) == IdsOf(ds) + {e.id}
  {
    assert forall x :: x in ds + [e] <==> x in ds || x == e;
  }

  lemma PutKeepsUnique(evs: seq<Snapshot>, i: nat, e: Snapshot)
    requires i < |evs| && evs[i].id == e.id && UniqueIds(evs)
    ensures UniqueIds(evs[i := e]) && IdsOf(evs[i := e]) == IdsOf(evs)
    ensures forall x | x in evs[i := e] :: x == e || x in evs
  {
    var put := evs[i := e];
    forall x | x in IdsOf(evs) ensures x in IdsOf(put) {
      var j :| 0 <= j < |evs| && evs[j].id == x;
      assert put[j].id == x && put[j] in put;
    }
    forall x | x in IdsOf(put) ensures x in IdsOf(evs) {
      var j :| 0 <= j < |put| && put[j].id == x;
      assert evs[j].id == x && evs[j] in evs;
    }
  }

  lemma AddKeepsUnique(evs: seq<Snapshot>, e: Snapshot)
    requires UniqueIds(evs) && e.id !in IdsOf(evs)
    ensures UniqueIds(evs + [e])
  {
    forall i | 0 <= i < |evs| ensures evs[i].id != e.id {
      assert evs[i] in evs;
    }
  }

  lemma {:induction false} DeliverRecords(s: State, ds: seq<Snapshot>, e: Snapshot)
    requires Records(s, ds)
    ensures Records(Deliver(s, e), ds + [e])
  {
    hide HashesOf, DocVersionsOf, IdsOf, UniqueIds;
    OneMore(ds, e);
    if e.id in IdsOf(s.evidence) {
      var i := IndexOf(s.evidence, e.id);
      assert IdsOf(ds) + {e.id} == IdsOf(ds);
      PutKeepsUnique(s.evidence, i, e);
    } else {
      OneMore(s.evidence, e);
      AddKeepsUnique(s.evidence, e);
    }
  }

  lemma {:induction false} TakeInRecords(s: State, ds: seq<Snapshot>, evs: seq<Snapshot>)
    requires Records(s, ds)
    ensures Records(TakeIn(s, evs).state, ds + evs)
  {
    hide Deliver, NewContent, Records;
    if evs == [] {
      assert ds + evs == ds;
    } else {
      var init, last := evs[..|evs| - 1], evs[|evs| - 1];
      TakeInRecords(s, ds, init);
      DeliverRecords(TakeIn(s, init).state, ds + init, last);
      assert ds + init + [last] == ds + evs;
    }
  }

  lemma {:induction false} ByIdRecords(raw: seq<Snapshot>)
    ensures UniqueIds(ById(raw)) && IdsOf(ById(raw)) == IdsOf(raw) && forall e | e in ById(raw) :: e in raw
  {
    hide IdsOf, UniqueIds;
    if raw == [] {
      NoIds();
    } else {
      var init, last := raw[..|raw| - 1], raw[|raw| - 1];
      ByIdRecords(init);
      assert init + [last] == raw;
      OneMore(init, last);
      if last.id in IdsOf(ById(init)) {
        PutKeepsUnique(ById(init), IndexOf(ById(init), last.id), last);
        assert IdsOf(init) + {last.id} == IdsOf(init);
      } else {
        OneMore(ById(init), last);
        AddKeepsUnique(ById(init), last);
      }
    }
  }

  lemma NoIds()
    ensures UniqueIds([]) && IdsOf([]) == {}
  {
  }

  lemma {:induction false} RoundRecords(env: Env, s: State, ds: seq<Snapshot>, round: nat, noGain: nat)
    requires Records(s, ds) && (round > 0 ==> s.coverage.Some?)
    ensures Records(RunRound(env, s, round, noGain).1, ds + RoundDelivers(env, s, round))
  {
    hide Assess, TakeIn, PlanQueries, HashesOf, DocVersionsOf, IdsOf, UniqueIds;
    assert ds + [] == ds;
    if round == 0 {
      AssessKeeps(env, s.(gapRounds := 1), 0, noGain, IdsOf(s.evidence), false);
    } else {
      var pending := PlanQueries(s.coverage.value.facts, Elements(s.prior));
      if pending != [] && env.retrieve(pending[0], round).Some? {
        var begun, evs := s.(gapRounds := round + 1, calls := s.calls + 1), env.retrieve(pending[0], round).value;
        TakeInRecords(begun, ds, evs);
        var intake := TakeIn(begun, evs);
        AssessKeeps(env, intake.state.(prior := s.prior + [pending[0]]), round, noGain, intake.newIds, intake.newContent);
      }
    }
  }

  lemma {:induction false} AlongRecords(env: Env, s: State, ds: seq<Snapshot>, k: nat)
    requires After(env, s, k).Some? && Records(s, ds)
    ensures Records(After(env, s, k).value.0, ds + Delivered(env, s, k))
  {
    hide RunRound, RoundDelivers, Records;
    if k == 0 {
      assert ds + [] == ds;
    } else {
      AlongRecords(env, s, ds, k - 1);
      var (before, n) := After(env, s, k - 1).value;
      RoundRecords(env, before, ds + Delivered(env, s, k - 1), k - 1, n);
      assert ds + Delivered(env, s, k - 1) + RoundDelivers(env, before, k - 1) == ds + Delivered(env, s, k);
    }
  }

  /** Every delivered text and document version is still shown by some of the evidence. */
  predicate AllShown(ds: seq<Snapshot>, evs: seq<Snapshot>) {
    forall d | d in ds :: d.hash in HashesOf(evs) && (d.document, d.version) in DocVersionsOf(evs)
  }

  /** No id is delivered twice with different content. */
  ghost predicate Consistent(ds: seq<Snapshot>) {
    forall x, y | x in ds && y in ds && x.id == y.id :: x.hash == y.hash && x.document == y.document && x.version == y.version
  }

  lemma ConsistentIsShown(s: State, ds: seq<Snapshot>)
    requires Records(s, ds) && Consistent(ds)
    ensures AllShown(ds, s.evidence)
  {
    forall d | d in ds ensures d.hash in HashesOf(s.evidence) && (d.document, d.version) in DocVersionsOf(s.evidence) {
      assert d.id in IdsOf(s.evidence);
      var e :| e in s.evidence && e.id == d.id;
      assert e in ds;
    }
  }

  lemma ShownIffExact(s: State, ds: seq<Snapshot>)
    requires Records(s, ds)
    ensures AllShown(ds, s.evidence) <==> s.hashes == HashesOf(s.evidence) && s.docVersions == DocVersionsOf(s.evidence)
  {
    assert HashesOf(s.evidence) <= HashesOf(ds);
    assert DocVersionsOf(s.evidence) <= DocVersionsOf(ds);
    if s.hashes == HashesOf(s.evidence) && s.docVersions == DocVersionsOf(s.evidence) {
      forall d | d in ds ensures d.hash in HashesOf(s.evidence) && (d.document, d.version) in DocVersionsOf(s.evidence) {
        assert d.hash in HashesOf(ds) && (d.document, d.version) in DocVersionsOf(ds);
      }
    }
  }

  // ---------------------------------------------------------------------
  // What a checkpoint gives back
  // ---------------------------------------------------------------------

  lemma {:induction false} SelectedIs(evs: seq<Snapshot>, ids: set<string>)
    ensures forall e :: e in Selected(evs, ids) <==> e in evs && e.id in ids
  {
    if evs != [] {
      SelectedIs(evs[..|evs| - 1], ids);
      assert evs == evs[..|evs| - 1] + [evs[|evs| - 1]];
    }
  }

  lemma {:induction false} SelectedSame(evs: seq<Snapshot>, a: set<string>, b: set<string>)
    requires forall e | e in evs :: e.id in a <==> e.id in b
    ensures Selected(evs, a) == Selected(evs, b)
  {
    if evs != [] {
      assert evs == evs[..|evs| - 1] + [evs[|evs| - 1]];
      SelectedSame(evs[..|evs| - 1], a, b);
    }
  }

  lemma {:induction false} SelectedAll(evs: seq<Snapshot>, ids: set<string>)
    requires forall e | e in evs :: e.id in ids
    ensures Selected(evs, ids) == evs
  {
    if evs != [] {
      assert evs == evs[..|evs| - 1] + [evs[|evs| - 1]];
      SelectedAll(evs[..|evs| - 1], ids);
    }
  }

  /** The answer's evidence is a selection from what was gathered, and not an empty one. */
  ghost predicate Reseeds(s: State) {
    s.finalEvidence != [] && exists ids :: s.finalEvidence == Selected(s.evidence, ids)
  }

  lemma {:induction false} FinalRebuilt(s: State, round: nat, completed: bool)
    requires Reseeds(s) || (s.finalEvidence == [] && (completed || s.evidence == []))
    ensures Rebuild(Save(s, round).(completed := completed)).finalEvidence == s.finalEvidence
  {
    if Reseeds(s) {
      var ids :| s.finalEvidence == Selected(s.evidence, ids);
      var saved := Elements(Save(s, round).finalIds);
      SelectedIs(s.evidence, ids);
      forall e | e in s.evidence ensures e.id in saved <==> e.id in ids {
        if e.id in ids {
          var i :| 0 <= i < |s.finalEvidence| && s.finalEvidence[i] == e;
          assert Save(s, round).finalIds[i] == e.id;
        }
        if e.id in saved {
          var i :| 0 <= i < |s.finalEvidence| && Save(s, round).finalIds[i] == e.id;
          assert s.finalEvidence[i] in s.finalEvidence;
        }
      }
      SelectedSame(s.evidence, saved, ids);
    }
  }

  lemma {:induction false} RoundReseeds(env: Env, s: State, round: nat, noGain: nat)
    requires (round > 0 ==> s.coverage.Some? && Reseeds(s))
    ensures var (step, s', n) := RunRound(env, s, round, noGain);
            && (step == Continue || step == Break ==> Reseeds(s'))
            && (step == Terminal ==> s'.coverage == Some(Abstain) && s'.reason in {"no_evidence", "judge_fault"}
                                     && (s'.reason == "no_evidence" <==> s'.finalEvidence == [])
                                     && (s'.finalEvidence != [] ==> Reseeds(s')))
            && (step == Break ==> s'.coverage.Some? && s'.reason != "judge_fault")
  {
    hide TakeIn, PlanQueries, Assess, Selected;
    var begun := s.(gapRounds := round + 1);
    if round == 0 {
      AssessReseeds(env, begun, 0, noGain, IdsOf(s.evidence), false);
    } else {
      var pending := PlanQueries(s.coverage.value.facts, Elements(s.prior));
      if pending != [] && env.retrieve(pending[0], round).Some? {
        var intake := TakeIn(begun.(calls := s.calls + 1), env.retrieve(pending[0], round).value);
        AssessReseeds(env, intake.state.(prior := s.prior + [pending[0]]), round, noGain, intake.newIds, intake.newContent);
      }
    }
  }

  lemma {:induction false} AssessReseeds(env: Env, s: State, round: nat, noGain: nat, newIds: set<string>, newContent: bool)
    ensures var (step, s', n) := Assess(env, s, round, noGain, newIds, newContent);
            && (step == Continue || step == Break ==> Reseeds(s') && s'.coverage.Some? && s'.reason != "judge_fault")
            && (step == Terminal ==> s'.coverage == Some(Abstain) && s'.reason in {"no_evidence", "judge_fault"}
                                     && (s'.reason == "no_evidence" <==> s'.finalEvidence == [])
                                     && (s'.finalEvidence != [] ==> Reseeds(s')))
            && step != Fault
  {
    var kept := Selected(s.evidence, env.stage(s.evidence).kept);
    assert Assess(env, s, round, noGain, newIds, newContent).1.finalEvidence == kept;
    hide Selected;
  }

  lemma {:induction false} AlongReseeds(env: Env, s: State, k: nat)
    requires k > 0 && After(env, s, k).Some?
    ensures Reseeds(After(env, s, k).value.0)
  {
    hide RunRound, Reseeds;
    var (before, n) := After(env, s, k - 1).value;
    if k > 1 { AlongReseeds(env, s, k - 1); }
    RunContinues(env, s, k - 1);
    RoundReseeds(env, before, k - 1, n);
  }

  lemma StartReseeds(query: string, raw: seq<Snapshot>, reason: string)
    ensures var s := Initial(query, raw, reason); Reseeds(s) || (s.finalEvidence == [] && s.evidence == [])
    ensures Records(Initial(query, raw, reason), raw)
  {
    ByIdRecords(raw);
    SelectedAll(ById(raw), IdsOf(ById(raw)));
  }

  /** Up to the field every round overwrites, the rebuilt state differs from the saved one in its trackers only. */
  lemma RebuiltBut(s: State, ds: seq<Snapshot>, round: nat, completed: bool)
    requires Records(s, ds) && (Reseeds(s) || (s.finalEvidence == [] && (completed || s.evidence == [])))
    ensures SameRun(Rebuild(Save(s, round).(completed := completed)), s) <==> AllShown(ds, s.evidence)
  {
    FinalRebuilt(s, round, completed);
    ShownIffExact(s, ds);
    hide Reseeds, Records, AllShown, HashesOf, DocVersionsOf, Selected;
  }

  lemma SavedRunning(s: State, round: nat)
    ensures Save(s, round).(completed := false) == Save(s, round)
    ensures Save(s, round).coverage == s.coverage
  {
  }

  /** The checkpoint saved before the loop, or after a round that goes on, gives the state back exactly
      when nothing delivered so far has been overwritten away. */
  lemma RebuildsIffAllShown(env: Env, query: string, raw: seq<Snapshot>, reason: string, k: nat)
    requires After(env, Initial(query, raw, reason), k).Some?
    ensures var start := Initial(query, raw, reason);
            var s := After(env, start, k).value.0;
            SameRun(Rebuild(Save(s, k)), s) <==> AllShown(raw + Delivered(env, start, k), s.evidence)
  {
    hide Records, Reseeds, AllShown, Initial;
    var start := Initial(query, raw, reason);
    StartReseeds(query, raw, reason);
    AlongRecords(env, start, raw, k);
    var s := After(env, start, k).value.0;
    if k > 0 { AlongReseeds(env, start, k); }
    SavedRunning(s, k);
    RebuiltBut(s, raw + Delivered(env, start, k), k, false);
  }

  // ---------------------------------------------------------------------
  // Resuming a run that was going on
  // ---------------------------------------------------------------------

  /** Running out of rounds and stopping both end in synthesis. */
  function Verdict(e: End): End {
    if e == RanOut then Answered else e
  }

  ghost predicate SameOutcome(a: (End, State), b: (End, State)) {
    Verdict(a.0) == Verdict(b.0) && SameRun(a.1, b.1)
  }

  /** The round stops for want of new evidence, having had gainless ones before it. */
  predicate StopsGainless(env: Env, s: State, round: nat, noGain: nat)
    requires round > 0 ==> s.coverage.Some?
  {
    noGain > 0 && var (step, s', _) := RunRound(env, s, round, noGain); step == Break && s'.reason == "no_new_evidence"
  }

  lemma {:induction false} RoundPrior(env: Env, s: State, round: nat, noGain: nat)
    requires round > 0 && s.coverage.Some?
    ensures var (step, s', n) := RunRound(env, s, round, noGain);
            var pending := PlanQueries(s.coverage.value.facts, Elements(s.prior));
            if pending == [] then step == Break && s' == s.(gapRounds := round, reason := "all_sources_exhausted")
            else step != Fault ==> |s'.prior| == |s.prior| + 1
  {
    hide TakeIn, PlanQueries, Assess;
    var pending := PlanQueries(s.coverage.value.facts, Elements(s.prior));
    if pending != [] && env.retrieve(pending[0], round).Some? {
      var intake := TakeIn(s.(gapRounds := round + 1, calls := s.calls + 1), env.retrieve(pending[0], round).value);
      AssessKeeps(env, intake.state.(prior := s.prior + [pending[0]]), round, noGain, intake.newIds, intake.newContent);
    }
  }

  lemma {:induction false} PriorGrows(env: Env, s: State, round: nat, noGain: nat)
    requires round > 0 && s.coverage.Some?
    ensures var (end, t) := RunLoop(env, s, round, noGain); end == Failed || |t.prior| >= |s.prior|
    decreases env.maxRounds - round
  {
    hide RunRound, PlanQueries;
    if round < env.maxRounds {
      RoundPrior(env, s, round, noGain);
      var (step, s', n) := RunRound(env, s, round, noGain);
      if step == Continue && s'.coverage.Some? { PriorGrows(env, s', round + 1, n); }
    }
  }

  /** A loop that goes on either asks something more, or ends exhausted at once, or fails, or has no round left. */
  lemma GoesOn(env: Env, s: State, round: nat, noGain: nat)
    requires round > 0 && s.coverage.Some?
    ensures var (end, t) := RunLoop(env, s, round, noGain);
            if round >= env.maxRounds then end == RanOut && t == s
            else if PlanQueries(s.coverage.value.facts, Elements(s.prior)) == []
            then end == Answered && t == s.(gapRounds := round, reason := "all_sources_exhausted")
            else end == Failed || |t.prior| > |s.prior|
  {
    hide RunRound, PlanQueries;
    if round < env.maxRounds {
      RoundPrior(env, s, round, noGain);
      var (step, s', n) := RunRound(env, s, round, noGain);
      if step == Continue && s'.coverage.Some? { PriorGrows(env, s', round + 1, n); }
    }
  }

  /** What one round makes of the counter at one and at zero. */
  lemma {:induction false} RoundCounters(env: Env, s: State, round: nat)
    requires round > 0 && s.coverage.Some?
    ensures var (a, s0, n0) := RunRound(env, s, round, 0);
            var (b, s1, n1) := RunRound(env, s, round, 1);
            if StopsGainless(env, s, round, 1) then
              && s1 == s0.(reason := "no_new_evidence") && s0.coverage.Some?
              && (if round + 1 < env.maxRounds then a == Continue && s0.reason == "continue" else a == Break && s0.reason == "max_rounds")
            else a == b && s0 == s1 && (a == Continue ==> n0 == n1)
  {
    hide TakeIn, PlanQueries, Selected;
  }

  lemma CounterMattersIff(env: Env, s: State, round: nat)
    requires 0 < round < env.maxRounds && s.coverage.Some?
    ensures SameOutcome(RunLoop(env, s, round, 0), RunLoop(env, s, round, 1)) <==> !StopsGainless(env, s, round, 1)
  {
    RoundCounters(env, s, round);
    hide RunRound, PlanQueries;
    var (a, s0, n0) := RunRound(env, s, round, 0);
    if StopsGainless(env, s, round, 1) && a == Continue {
      GoesOn(env, s0, round + 1, n0);
    }
  }

  lemma ResumedFrom(env: Env, s: State, ds: seq<Snapshot>, k: nat, n: nat)
    requires Records(s, ds) && (Reseeds(s) || (s.finalEvidence == [] && s.evidence == [])) && AllShown(ds, s.evidence)
    requires (k > 0 ==> s.coverage.Some? && k < env.maxRounds) && n <= 1 && (n > 0 ==> k > 0)
    ensures SameOutcome(RunLoop(env, Rebuild(Save(s, k)), k, 0), RunLoop(env, s, k, n)) <==> !StopsGainless(env, s, k, n)
  {
    hide RunLoop, AllShown, StopsGainless, Records, Reseeds, Rebuild, Save, RunRound;
    SavedRunning(s, k);
    RebuiltBut(s, ds, k, false);
    LoopIgnoresPrevious(env, Rebuild(Save(s, k)), s, k, 0);
    if n == 1 { CounterMattersIff(env, s, k); } else { NoneBefore(env, s, k); }
  }

  lemma NoneBefore(env: Env, s: State, round: nat)
    requires round > 0 ==> s.coverage.Some?
    ensures !StopsGainless(env, s, round, 0)
  {
    hide RunRound;
  }

  lemma CounterStartsAtZero(env: Env, s: State)
    ensures After(env, s, 0) == Some((s, 0))
  {
  }

  /** A running checkpoint with all its evidence goes on from its round. */
  lemma RunningGoesOn(env: Env, ck: Checkpoint, authorized: set<string>)
    requires !ck.completed && ck.evidence != [] && (ck.round > 0 ==> ck.coverage.Some?)
    requires forall e | e in ck.evidence :: e.id in authorized
    ensures Resume(env, ck, authorized) == RunLoop(env, Rebuild(ck), ck.round, 0)
  {
    SelectedAll(ck.evidence, authorized);
    hide Selected, HashesOf, DocVersionsOf, RunLoop, Abstain;
  }

  lemma SomeEvidence(s: State, ds: seq<Snapshot>, d: Snapshot)
    requires Records(s, ds) && d in ds
    ensures s.evidence != []
  {
    assert d.id in IdsOf(s.evidence);
  }

  /** Resume equals no crash, exactly: from the checkpoint before the loop or behind any round that went
      on, with nothing overwritten away or revoked, the resumed run ends as the uninterrupted one if and
      only if the next round is not the one that the lost counter would have stopped. */
  lemma ResumeEqualsNoCrashIff(env: Env, query: string, raw: seq<Snapshot>, reason: string, k: nat, s: State, n: nat,
                               authorized: set<string>)
    requires raw != [] && After(env, Initial(query, raw, reason), k) == Some((s, n))
    requires AllShown(raw + Delivered(env, Initial(query, raw, reason), k), s.evidence)
    requires forall e | e in s.evidence :: e.id in authorized
    ensures k > 0 ==> s.coverage.Some?
    ensures SameOutcome(Resume(env, Save(s, k), authorized), RunLoop(env, Initial(query, raw, reason), 0, 0))
            <==> !StopsGainless(env, s, k, n)
  {
    hide RunLoop, AllShown, Initial, Records, Reseeds, After, Delivered, StopsGainless, SameOutcome, Rebuild, Resume;
    var start := Initial(query, raw, reason);
    StartReseeds(query, raw, reason);
    AlongRecords(env, start, raw, k);
    RunContinues(env, start, k);
    CounterStartsAtZero(env, start);
    if k > 0 { AlongReseeds(env, start, k); }
    SomeEvidence(s, raw + Delivered(env, start, k), raw[0]);
    RunningGoesOn(env, Save(s, k), authorized);
    hide Save;
    ResumedFrom(env, s, raw + Delivered(env, start, k), k, n);
  }

  // ---------------------------------------------------------------------
  // Any number of crashes
  // ---------------------------------------------------------------------

  /** A run that crashes in front of, or within, each of these rounds, once or more often, and is resumed
      each time from the checkpoint it has: every resume starts the counter again. */
  function RunWithCrashes(env: Env, s: State, round: nat, noGain: nat, crashes: set<nat>): (End, State)
    requires round > 0 ==> s.coverage.Some?
    decreases env.maxRounds - round
  {
    if round >= env.maxRounds then (RanOut, s)
    else
      var t := if round in crashes then Rebuild(Save(s, round)) else s;
      var (step, s', n) := RunRound(env, t, round, if round in crashes then 0 else noGain);
      match step
      case Continue => if s'.coverage.Some? then RunWithCrashes(env, s', round + 1, n, crashes) else (Failed, s')
      case Break => (Answered, s')
      case Terminal => (Refused, s')
      case Fault => (Failed, s')
  }

  lemma {:induction false} NoCrashes(env: Env, s: State, round: nat, noGain: nat, crashes: set<nat>)
    requires (round > 0 ==> s.coverage.Some?) && forall j | j in crashes :: j < round
    ensures RunWithCrashes(env, s, round, noGain, crashes) == RunLoop(env, s, round, noGain)
    decreases env.maxRounds - round
  {
    hide RunRound;
    if round < env.maxRounds {
      var (step, s', n) := RunRound(env, s, round, noGain);
      if step == Continue && s'.coverage.Some? { NoCrashes(env, s', round + 1, n, crashes); }
    }
  }

  lemma {:induction false} UpToCrash(env: Env, s: State, k: nat, i: nat)
    requires After(env, s, k).Some? && i <= k
    ensures After(env, s, i).Some? && (i > 0 ==> After(env, s, i).value.0.coverage.Some?)
    ensures RunWithCrashes(env, s, 0, 0, {k}) ==
            RunWithCrashes(env, After(env, s, i).value.0, i, After(env, s, i).value.1, {k})
  {
    hide RunRound, Rebuild;
    AfterBefore(env, s, k, i);
    RunContinues(env, s, i);
    if i > 0 {
      UpToCrash(env, s, k, i - 1);
      RunContinues(env, s, i - 1);
    }
  }

  lemma {:induction false} AfterBefore(env: Env, s: State, k: nat, i: nat)
    requires After(env, s, k).Some? && i <= k
    ensures After(env, s, i).Some?
  {
    hide RunRound;
    if i < k { AfterBefore(env, s, k - 1, i); }
  }

  /** One crash is one resume. */
  lemma OneCrashIsResume(env: Env, query: string, raw: seq<Snapshot>, reason: string, k: nat, s: State, n: nat, authorized: set<string>)
    requires raw != [] && k < env.maxRounds && After(env, Initial(query, raw, reason), k) == Some((s, n))
    requires forall e | e in s.evidence :: e.id in authorized
    ensures k > 0 ==> s.coverage.Some?
    ensures RunWithCrashes(env, Initial(query, raw, reason), 0, 0, {k}) == Resume(env, Save(s, k), authorized)
  {
    hide RunLoop, Initial, Records, RunRound, Resume, After, Delivered;
    var start := Initial(query, raw, reason);
    UpToCrash(env, start, k, k);
    StartReseeds(query, raw, reason);
    AlongRecords(env, start, raw, k);
    SomeEvidence(s, raw + Delivered(env, start, k), raw[0]);
    RunningGoesOn(env, Save(s, k), authorized);
    NoLaterCrash(env, Rebuild(Save(s, k)), s, k, n);
  }

  lemma NoLaterCrash(env: Env, t: State, s: State, k: nat, n: nat)
    requires k < env.maxRounds && t == Rebuild(Save(s, k)) && (k > 0 ==> s.coverage.Some?)
    ensures RunWithCrashes(env, s, k, n, {k}) == RunLoop(env, t, k, 0)
  {
    RebuildStands(s, k);
    hide RunRound, Rebuild;
    var (step, s', m) := RunRound(env, t, k, 0);
    if step == Continue && s'.coverage.Some? { NoCrashes(env, s', k + 1, m, {k}); }
  }

  lemma RebuildStands(s: State, round: nat)
    ensures var t := Rebuild(Save(s, round));
            t.prior == s.prior && t.coverage == s.coverage && t.gapRounds == s.gapRounds && t.calls == s.calls
  {
  }

  lemma {:induction false} CrashedPriorGrows(env: Env, s: State, round: nat, noGain: nat, crashes: set<nat>)
    requires round > 0 && s.coverage.Some?
    ensures var (end, t) := RunWithCrashes(env, s, round, noGain, crashes); end == Failed || |t.prior| >= |s.prior|
    decreases env.maxRounds - round
  {
    hide RunRound, PlanQueries, Rebuild;
    if round < env.maxRounds {
      RebuildStands(s, round);
      var t := if round in crashes then Rebuild(Save(s, round)) else s;
      var counter := if round in crashes then 0 else noGain;
      RoundPrior(env, t, round, counter);
      var (step, s', n) := RunRound(env, t, round, counter);
      if step == Continue && s'.coverage.Some? { CrashedPriorGrows(env, s', round + 1, n, crashes); }
    }
  }

  /** However it crashes, a run that goes on asks something more, or ends exhausted at once, or fails, or
      has no round left. */
  lemma CrashedGoesOn(env: Env, s: State, round: nat, noGain: nat, crashes: set<nat>)
    requires round > 0 && s.coverage.Some?
    ensures var (end, t) := RunWithCrashes(env, s, round, noGain, crashes);
            if round >= env.maxRounds then end == RanOut && t == s
            else end == Failed || |t.prior| > |s.prior| || t.reason == "all_sources_exhausted"
  {
    hide RunRound, PlanQueries, Rebuild;
    if round < env.maxRounds {
      RebuildStands(s, round);
      var t := if round in crashes then Rebuild(Save(s, round)) else s;
      var counter := if round in crashes then 0 else noGain;
      RoundPrior(env, t, round, counter);
      var (step, s', n) := RunRound(env, t, round, counter);
      if step == Continue && s'.coverage.Some? { CrashedPriorGrows(env, s', round + 1, n, crashes); }
    }
  }

  /** The uninterrupted run stops at round `k` for want of new evidence, after a gainless round before it. */
  predicate StopsThere(env: Env, start: State, k: nat) {
    match After(env, start, k)
    case None => false
    case Some((s, n)) => (k > 0 ==> s.coverage.Some?) && StopsGainless(env, s, k, n)
  }

  lemma {:induction false} NothingBehindAStop(env: Env, start: State, k: nat, j: nat)
    requires After(env, start, k).None? && j >= k
    ensures !StopsThere(env, start, j)
  {
    hide RunRound;
    if j > k { NothingBehindAStop(env, start, k, j - 1); AfterNone(env, start, k, j); }
  }

  lemma {:induction false} AfterNone(env: Env, start: State, k: nat, j: nat)
    requires After(env, start, k).None? && j >= k
    ensures After(env, start, j).None?
  {
    hide RunRound;
    if j > k { AfterNone(env, start, k, j - 1); }
  }

  /** Nothing delivered is overwritten away along the uninterrupted run. */
  ghost predicate NeverOverwritten(env: Env, start: State, raw: seq<Snapshot>) {
    forall k: nat | After(env, start, k).Some? :: AllShown(raw + Delivered(env, start, k), After(env, start, k).value.0.evidence)
  }

  /** The state a crash in front of round `k` is resumed with: the one the run had. */
  lemma CrashKeepsState(env: Env, query: string, raw: seq<Snapshot>, reason: string, k: nat, t: State)
    requires var start := Initial(query, raw, reason);
             && NeverOverwritten(env, start, raw) && After(env, start, k).Some? && SameRun(t, After(env, start, k).value.0)
    ensures SameRun(Rebuild(Save(t, k)), After(env, Initial(query, raw, reason), k).value.0)
  {
    hide Initial, AllShown, Delivered, After;
    RebuildsIffAllShown(env, query, raw, reason, k);
  }

  lemma CrashDiverges(env: Env, s: State, t: State, round: nat, crashes: set<nat>)
    requires 0 < round < env.maxRounds && s.coverage.Some? && SameRun(t, s) && StopsGainless(env, s, round, 1) && round in crashes
    requires SameRun(Rebuild(Save(t, round)), s)
    ensures !SameOutcome(RunWithCrashes(env, t, round, 1, crashes), RunLoop(env, s, round, 1))
  {
    RoundCounters(env, s, round);
    var r := Rebuild(Save(t, round));
    RoundIgnoresPrevious(env, r, s, round, 0);
    hide RunRound, PlanQueries, Rebuild;
    var (a, s0, n0) := RunRound(env, r, round, 0);
    if a == Continue { CrashedGoesOn(env, s0, round + 1, n0, crashes); }
  }

  lemma {:induction false} CrashesFrom(
      env: Env, query: string, raw: seq<Snapshot>, reason: string, crashes: set<nat>, k: nat, s: State, n: nat, t: State)
    requires NeverOverwritten(env, Initial(query, raw, reason), raw) && After(env, Initial(query, raw, reason), k) == Some((s, n))
    requires SameRun(t, s) && (k > 0 ==> s.coverage.Some? && k < env.maxRounds) && n <= 1 && (n > 0 ==> k > 0)
    ensures SameOutcome(RunWithCrashes(env, t, k, n, crashes), RunLoop(env, s, k, n))
            <==> forall j: nat | j in crashes && j >= k :: j < env.maxRounds ==> !StopsThere(env, Initial(query, raw, reason), j)
    decreases env.maxRounds - k
  {
    hide RunRound, Initial, NeverOverwritten, PlanQueries, Rebuild, Delivered;
    var start := Initial(query, raw, reason);
    if k < env.maxRounds {
      CrashKeepsState(env, query, raw, reason, k, t);
      var t' := if k in crashes then Rebuild(Save(t, k)) else t;
      var n' := if k in crashes then 0 else n;
      if n' != n && StopsGainless(env, s, k, n) {
        CrashDiverges(env, s, t, k, crashes);
      } else {
        if n' != n { RoundCounters(env, s, k); }
        RoundIgnoresPrevious(env, t', s, k, n');
        var (step, s1, m) := RunRound(env, s, k, n);
        if step == Continue {
          ContinueHasCoverage(env, s, k, n);
          assert After(env, start, k + 1) == Some((s1, m));
          CrashesFrom(env, query, raw, reason, crashes, k + 1, s1, m, RunRound(env, t', k, n').1);
        } else {
          assert After(env, start, k + 1).None?;
          forall j: nat | j > k ensures !StopsThere(env, start, j) { NothingBehindAStop(env, start, k + 1, j); }
        }
      }
    }
  }

  lemma StopsInTime(env: Env, start: State, j: nat)
    requires StopsThere(env, start, j)
    ensures j < env.maxRounds
  {
    hide RunRound;
    RunContinues(env, start, j);
    CounterStartsAtZero(env, start);
  }

  /** Any number of crashes, with nothing overwritten away or revoked: the run ends as the uninterrupted one if
      and only if it never crashed in front of, or within, the round at which that one stops for want of new
      evidence. */
  lemma AnyCrashesIff(env: Env, query: string, raw: seq<Snapshot>, reason: string, crashes: set<nat>)
    requires NeverOverwritten(env, Initial(query, raw, reason), raw)
    ensures SameOutcome(RunWithCrashes(env, Initial(query, raw, reason), 0, 0, crashes), RunLoop(env, Initial(query, raw, reason), 0, 0))
            <==> forall j: nat | j in crashes :: !StopsThere(env, Initial(query, raw, reason), j)
  {
    hide RunRound, NeverOverwritten, StopsThere, RunLoop, RunWithCrashes, SameOutcome, Initial;
    forall j: nat | StopsThere(env, Initial(query, raw, reason), j) ensures j < env.maxRounds {
      StopsInTime(env, Initial(query, raw, reason), j);
    }
    CounterStartsAtZero(env, Initial(query, raw, reason));
    CrashesFrom(env, query, raw, reason, crashes, 0, Initial(query, raw, reason), 0, Initial(query, raw, reason));
  }

  // ---------------------------------------------------------------------
  // Resuming behind a stop that was saved but not yet marked done
  // ---------------------------------------------------------------------

  /** How round `k` ended, if the rounds before it went on, and the state it left. */
  function Round(env: Env, s: State, k: nat): Option<(Step, State)> {
    match After(env, s, k)
    case None => None
    case Some((before, n)) =>
      if k > 0 && before.coverage.None? then None
      else var (step, after, _) := RunRound(env, before, k, n); Some((step, after))
  }

  lemma RoundLeaves(env: Env, query: string, raw: seq<Snapshot>, reason: string, k: nat, step: Step, stop: State)
    requires Round(env, Initial(query, raw, reason), k) == Some((step, stop)) && step in {Break, Terminal} && k < env.maxRounds
    ensures Records(stop, raw + Delivered(env, Initial(query, raw, reason), k + 1)) && stop.coverage.Some?
    ensures step == Break ==> Reseeds(stop) && stop.reason != "judge_fault"
    ensures step == Terminal ==> stop.coverage == Some(Abstain) && stop.reason in {"no_evidence", "judge_fault"}
                                 && (stop.reason == "no_evidence" <==> stop.finalEvidence == [])
                                 && (stop.finalEvidence != [] ==> Reseeds(stop))
    ensures RunLoop(env, Initial(query, raw, reason), 0, 0) == (if step == Break then Answered else Refused, stop)
  {
    hide Records, Reseeds, Initial, RunRound, RoundDelivers;
    var start := Initial(query, raw, reason);
    StartReseeds(query, raw, reason);
    AlongRecords(env, start, raw, k);
    RunContinues(env, start, k);
    var (s, n) := After(env, start, k).value;
    RoundRecords(env, s, raw + Delivered(env, start, k), k, n);
    assert raw + Delivered(env, start, k) + RoundDelivers(env, s, k) == raw + Delivered(env, start, k + 1);
    if k > 0 { AlongReseeds(env, start, k); }
    RoundReseeds(env, s, k, n);
    LoopBreaks(env, s, k, n);
  }

  /** The stop would repeat itself: it lay in the last round, or what it says is what the next round says. */
  predicate RepeatsStop(env: Env, ck: Checkpoint)
    requires ck.coverage.Some?
  {
    || ck.round >= env.maxRounds
    || (ck.reason == "all_sources_exhausted" && ck.gapRounds == ck.round
        && PlanQueries(ck.coverage.value.facts, Elements(ck.prior)) == [])
  }

  lemma StoppedFrom(env: Env, stop: State, ds: seq<Snapshot>, r: nat)
    requires Records(stop, ds) && Reseeds(stop) && AllShown(ds, stop.evidence) && stop.coverage.Some? && r > 0
    ensures SameOutcome(RunLoop(env, Rebuild(Save(stop, r)), r, 0), (Answered, stop)) <==> RepeatsStop(env, Save(stop, r))
  {
    SavedRunning(stop, r);
    RebuiltBut(stop, ds, r, false);
    hide RunLoop, AllShown, Records, Reseeds, PlanQueries, Rebuild;
    GoesOn(env, stop, r, 0);
    LoopIgnoresPrevious(env, Rebuild(Save(stop, r)), stop, r, 0);
  }

  lemma LoopBreaks(env: Env, s: State, round: nat, noGain: nat)
    requires (round > 0 ==> s.coverage.Some?) && round < env.maxRounds
    ensures RunRound(env, s, round, noGain).0 == Break ==> RunLoop(env, s, round, noGain) == (Answered, RunRound(env, s, round, noGain).1)
    ensures RunRound(env, s, round, noGain).0 == Terminal ==> RunLoop(env, s, round, noGain) == (Refused, RunRound(env, s, round, noGain).1)
  {
    hide RunRound;
  }

  /** A crash between saving the stopping round and marking the run done: the resumed run ends as the
      uninterrupted one if and only if the checkpoint repeats its stop. */
  lemma UnmarkedStopIff(env: Env, query: string, raw: seq<Snapshot>, reason: string, k: nat, stop: State, authorized: set<string>)
    requires raw != [] && k < env.maxRounds && Round(env, Initial(query, raw, reason), k) == Some((Break, stop))
    requires AllShown(raw + Delivered(env, Initial(query, raw, reason), k + 1), stop.evidence)
    requires forall e | e in stop.evidence :: e.id in authorized
    ensures stop.coverage.Some?
    ensures SameOutcome(Resume(env, Save(stop, k + 1), authorized), RunLoop(env, Initial(query, raw, reason), 0, 0))
            <==> RepeatsStop(env, Save(stop, k + 1))
  {
    hide AllShown, Initial, Records, Reseeds, Delivered, SameOutcome, Rebuild, RepeatsStop, RunLoop, Round, Resume;
    RoundLeaves(env, query, raw, reason, k, Break, stop);
    SomeEvidence(stop, raw + Delivered(env, Initial(query, raw, reason), k + 1), raw[0]);
    RunningGoesOn(env, Save(stop, k + 1), authorized);
    hide Save;
    StoppedFrom(env, stop, raw + Delivered(env, Initial(query, raw, reason), k + 1), k + 1);
  }

  /** A crash between saving a refusing round and marking the run done: the resumed run never refuses. */
  lemma UnmarkedRefusalAnswers(env: Env, query: string, raw: seq<Snapshot>, reason: string, k: nat, stop: State, authorized: set<string>)
    requires raw != [] && k < env.maxRounds && Round(env, Initial(query, raw, reason), k) == Some((Terminal, stop))
    requires forall e | e in stop.evidence :: e.id in authorized
    ensures RunLoop(env, Initial(query, raw, reason), 0, 0).0 == Refused && stop.coverage.Some?
    ensures Verdict(Resume(env, Save(stop, k + 1), authorized).0) == Answered
  {
    hide Initial, Records, Reseeds, Round, RunLoop, Resume, Rebuild, Delivered;
    RoundLeaves(env, query, raw, reason, k, Terminal, stop);
    SomeEvidence(stop, raw + Delivered(env, Initial(query, raw, reason), k + 1), raw[0]);
    RunningGoesOn(env, Save(stop, k + 1), authorized);
    AbstainedAnswers(env, Save(stop, k + 1));
  }

  lemma AbstainedAnswers(env: Env, ck: Checkpoint)
    requires ck.coverage == Some(Abstain) && ck.round > 0
    ensures Verdict(RunLoop(env, Rebuild(ck), ck.round, 0).0) == Answered
  {
    hide RunLoop, Selected, HashesOf, DocVersionsOf;
    GoesOn(env, Rebuild(ck), ck.round, 0);
  }

  // ---------------------------------------------------------------------
  // Resuming a completed run
  // ---------------------------------------------------------------------

  /** A completed run of which nothing was revoked or overwritten away resumes to the outcome it had, without
      any retrieval, if and only if it did not end in a judge fault: that refusal is resumed into synthesis. */
  lemma CompletedResumesIff(
      env: Env, query: string, raw: seq<Snapshot>, reason: string, k: nat, step: Step, stop: State, authorized: set<string>)
    requires k < env.maxRounds && Round(env, Initial(query, raw, reason), k) == Some((step, stop)) && step in {Break, Terminal}
    requires raw != [] && AllShown(raw + Delivered(env, Initial(query, raw, reason), k + 1), stop.evidence)
    requires forall e | e in stop.evidence :: e.id in authorized
    ensures stop.coverage.Some?
    ensures var resumed := Resume(env, Save(stop, k + 1).(completed := true), authorized);
            && SameRun(resumed.1, stop) && (stop.reason == "judge_fault" ==> resumed.0 == Answered)
            && (SameOutcome(resumed, RunLoop(env, Initial(query, raw, reason), 0, 0)) <==> stop.reason != "judge_fault")
  {
    hide AllShown, Initial, Records, Reseeds, Delivered, Save, RunLoop, Resume, Round;
    RoundLeaves(env, query, raw, reason, k, step, stop);
    CompletedFrom(env, stop, raw + Delivered(env, Initial(query, raw, reason), k + 1), k + 1, authorized);
    NotEmpty(stop);
  }

  lemma NotEmpty(s: State)
    ensures Reseeds(s) ==> s.finalEvidence != []
  {
  }

  lemma CompletedIsReturned(env: Env, ck: Checkpoint, authorized: set<string>)
    requires ck.completed && ck.evidence != [] && ck.coverage.Some? && forall e | e in ck.evidence :: e.id in authorized
    ensures Resume(env, ck, authorized) == (if Rebuild(ck).finalEvidence == [] then Refused else Answered, Rebuild(ck))
  {
    SelectedAll(ck.evidence, authorized);
    hide Selected, HashesOf, DocVersionsOf, RunLoop, Abstain;
  }

  /** A completed checkpoint with all its evidence is returned as it is: answered from if anything was kept. */
  lemma CompletedFrom(env: Env, stop: State, ds: seq<Snapshot>, r: nat, authorized: set<string>)
    requires Records(stop, ds) && (Reseeds(stop) || stop.finalEvidence == []) && AllShown(ds, stop.evidence) && ds != []
    requires stop.coverage.Some? && forall e | e in stop.evidence :: e.id in authorized
    ensures var (end, t) := Resume(env, Save(stop, r).(completed := true), authorized);
            end == (if stop.finalEvidence == [] then Refused else Answered) && SameRun(t, stop)
  {
    hide AllShown, Records, Reseeds, Rebuild, Resume;
    SomeEvidence(stop, ds, ds[0]);
    RebuiltBut(stop, ds, r, true);
    CompletedIsReturned(env, Save(stop, r).(completed := true), authorized);
  }

  // ---------------------------------------------------------------------
  // Revoked evidence stays out
  // ---------------------------------------------------------------------

  ghost predicate Retrieved(env: Env, e: Snapshot) {
    exists q: string, r: nat :: env.retrieve(q, r).Some? && e in env.retrieve(q, r).value
  }

  /** All evidence, and all that is answered from, is authorized or was retrieved since. */
  ghost predicate OnlyFrom(env: Env, base: seq<Snapshot>, s: State) {
    && (forall e | e in s.evidence :: e in base || Retrieved(env, e))
    && (forall e | e in s.finalEvidence :: e in base || Retrieved(env, e))
  }

  lemma {:induction false} TakeInFrom(env: Env, base: seq<Snapshot>, s: State, evs: seq<Snapshot>)
    requires OnlyFrom(env, base, s) && forall e | e in evs :: Retrieved(env, e)
    ensures OnlyFrom(env, base, TakeIn(s, evs).state)
  {
    hide Retrieved, NewContent, IndexOf;
    if evs != [] { TakeInFrom(env, base, s, evs[..|evs| - 1]); }
  }

  lemma {:induction false} AssessFrom(env: Env, base: seq<Snapshot>, s: State, round: nat, noGain: nat, newIds: set<string>, newContent: bool)
    requires OnlyFrom(env, base, s)
    ensures OnlyFrom(env, base, Assess(env, s, round, noGain, newIds, newContent).1)
  {
    hide Retrieved, Decide;
    SelectedIs(s.evidence, env.stage(s.evidence).kept);
  }

  lemma {:induction false} RoundFrom(env: Env, base: seq<Snapshot>, s: State, round: nat, noGain: nat)
    requires OnlyFrom(env, base, s) && (round > 0 ==> s.coverage.Some?)
    ensures OnlyFrom(env, base, RunRound(env, s, round, noGain).1)
  {
    hide Assess, TakeIn, PlanQueries;
    if round == 0 {
      AssessFrom(env, base, s.(gapRounds := 1), 0, noGain, IdsOf(s.evidence), false);
    } else {
      var pending := PlanQueries(s.coverage.value.facts, Elements(s.prior));
      if pending != [] && env.retrieve(pending[0], round).Some? {
        var begun, evs := s.(gapRounds := round + 1, calls := s.calls + 1), env.retrieve(pending[0], round).value;
        TakeInFrom(env, base, begun, evs);
        var intake := TakeIn(begun, evs);
        AssessFrom(env, base, intake.state.(prior := s.prior + [pending[0]]), round, noGain, intake.newIds, intake.newContent);
      }
    }
  }

  lemma {:induction false} LoopFrom(env: Env, base: seq<Snapshot>, s: State, round: nat, noGain: nat)
    requires OnlyFrom(env, base, s) && (round > 0 ==> s.coverage.Some?)
    ensures OnlyFrom(env, base, RunLoop(env, s, round, noGain).1)
    decreases env.maxRounds - round
  {
    hide RunRound, OnlyFrom;
    if round < env.maxRounds {
      RoundFrom(env, base, s, round, noGain);
      var (step, s', n) := RunRound(env, s, round, noGain);
      if step == Continue && s'.coverage.Some? { LoopFrom(env, base, s', round + 1, n); }
    }
  }

  /** Whatever the checkpoint's status, revoked evidence is neither kept nor answered from, unless the
      retriever itself brings it again. */
  lemma RevokedStaysOut(env: Env, ck: Checkpoint, authorized: set<string>)
    requires ck.round > 0 ==> ck.coverage.Some?
    ensures var t := Resume(env, ck, authorized).1;
            forall e | e in t.evidence || e in t.finalEvidence :: (e in ck.evidence && e.id in authorized) || Retrieved(env, e)
  {
    hide RunLoop, Retrieved;
    var surviving := Selected(ck.evidence, authorized);
    SelectedIs(ck.evidence, authorized);
    SelectedIs(surviving, Elements(ck.finalIds));
    SelectedIs(surviving, env.stage(surviving).kept);
    hide Selected;
    forall s | OnlyFrom(env, surviving, s) && (ck.round > 0 ==> s.coverage.Some?)
      ensures OnlyFrom(env, surviving, RunLoop(env, s, ck.round, 0).1)
    {
      LoopFrom(env, surviving, s, ck.round, 0);
    }
    assert OnlyFrom(env, surviving, Resume(env, ck, authorized).1);
  }
}
