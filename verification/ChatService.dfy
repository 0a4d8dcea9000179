/** The loop's collaborators and the loop itself in their own form: a policy with a
    counter field, a planner that grows its prior set, and a working state edited
    round by round. */
module ChatServices {
  import opened Common
  import opened Iteration
  import opened Resumption

  class StopPolicy {
    var noGain: nat

    constructor ()
      ensures noGain == 0
    {
      noGain := 0;
    }

    method DecideRound(round: nat, maxRounds: nat, cov: Coverage, newIds: set<string>, newCovered: set<string>, newContent: bool)
      returns (decision: Decision)
      modifies this
      ensures (decision, noGain) == Decide(old(noGain), round, maxRounds, cov, newIds != {} || newCovered != {} || newContent)
    {
      if cov.overall == "sufficient" { return Decision(true, "sufficient"); }
      if !cov.canContinue { return Decision(true, "all_sources_exhausted"); }
      if newIds != {} || newCovered != {} || newContent {
        noGain := 0;
      } else {
        noGain := noGain + 1;
      }
      if noGain >= 2 { return Decision(true, "no_new_evidence"); }
      if round + 1 >= maxRounds { return Decision(true, "max_rounds"); }
      decision := Decision(false, "continue");
    }
  }

  /** Queries for the remaining gaps, none issued before and none twice. */
  method PlanGaps(facts: seq<FactCoverage>, priorQueries: seq<string>) returns (queries: seq<string>)
    ensures queries == PlanQueries(facts, Elements(priorQueries))
  {
    var prior := Elements(priorQueries);
    queries := [];
    for i := 0 to |facts|
      invariant queries == PlanQueries(facts[..i], Elements(priorQueries))
      invariant prior == Elements(priorQueries) + Elements(queries)
    {
      assert facts[..i + 1][..i] == facts[..i];
      var candidate := Candidate(facts[i]);
      if IsGap(facts[i]) && candidate != "" && candidate !in prior {
        ElementsAppend(queries, candidate);
        queries := queries + [candidate];
        prior := prior + {candidate};
      }
    }
    assert facts[..|facts|] == facts;
  }

  class IterationState {
    var evidence: seq<Snapshot>
    var hashes: set<string>
    var docVersions: set<(string, string)>
    var prior: seq<string>
    var coverage: Option<Coverage>
    var gapRounds: nat
    var calls: nat
    var prevCovered: set<string>
    var reason: string
    var report: Option<Report>
    var finalEvidence: seq<Snapshot>
    var conflictStop: bool

    ghost function Now(): State
      reads this
    {
      State(evidence, hashes, docVersions, prior, coverage, gapRounds, calls, prevCovered, reason, report, finalEvidence, conflictStop)
    }

    constructor (s: State)
      ensures Now() == s
    {
      evidence, hashes, docVersions, prior, coverage := s.evidence, s.hashes, s.docVersions, s.prior, s.coverage;
      gapRounds, calls, prevCovered, reason := s.gapRounds, s.calls, s.prevCovered, s.reason;
      report, finalEvidence, conflictStop := s.report, s.finalEvidence, s.conflictStop;
    }

    /** Take in one snapshot: add it, replace a changed one, and track its content. */
    method DeliverOne(e: Snapshot) returns (isNew: bool, added: bool)
      modifies this
      ensures Now() == Deliver(old(Now()), e)
      ensures isNew == NewContent(old(Now()), e) && added == (e.id !in IdsOf(old(evidence)))
    {
      isNew := e.hash !in hashes || (e.document, e.version) !in docVersions;
      added := e.id !in IdsOf(evidence);
      if added {
        evidence := evidence + [e];
      } else {
        var i := IndexOf(evidence, e.id);
        if evidence[i].version != e.version || evidence[i].hash != e.hash {
          evidence := evidence[i := e];
        }
      }
      hashes := hashes + {e.hash};
      docVersions := docVersions + {(e.document, e.version)};
    }

    method DeliverAll(evs: seq<Snapshot>) returns (newIds: set<string>, newContent: bool)
      modifies this
      ensures Intake(Now(), newIds, newContent) == TakeIn(old(Now()), evs)
    {
      newIds, newContent := {}, false;
      ghost var start := Now();
      for i := 0 to |evs|
        invariant Intake(Now(), newIds, newContent) == TakeIn(start, evs[..i])
      {
        hide Deliver, NewContent, IndexOf;
        assert evs[..i + 1][..i] == evs[..i];
        var isNew, added := DeliverOne(evs[i]);
        if isNew && added { newIds := newIds + {evs[i].id}; }
        newContent := newContent || isNew;
      }
      assert evs[..|evs|] == evs;
    }

    /** Conflict stage, judge, stop policy. */
    method AssessRound(env: Env, round: nat, policy: StopPolicy, newIds: set<string>, newContent: bool) returns (step: Step)
      modifies this, policy
      ensures (step, Now(), policy.noGain) == Assess(env, old(Now()), round, old(policy.noGain), newIds, newContent)
    {
      hide Selected, Decide;
      var r := env.stage(evidence);
      var kept := Selected(evidence, r.kept);
      report, finalEvidence := Some(r), kept;
      if kept == [] {
        coverage, reason, conflictStop := Some(Abstain), "no_evidence", false;
        return Terminal;
      }
      if r.contradicted {
        coverage, conflictStop, reason := Some(ContradictedCoverage), true, "conflict_detected";
        return Break;
      }
      prevCovered := if coverage.Some? then coverage.value.covered else {};
      var judged := env.judge(kept);
      if judged.None? {
        coverage, reason, conflictStop := Some(Abstain), "judge_fault", false;
        return Terminal;
      }
      coverage := judged;
      var decision := policy.DecideRound(round, env.maxRounds, judged.value, newIds, judged.value.covered - prevCovered, newContent);
      reason := decision.reason;
      step := if decision.stop then Break else Continue;
    }

    /** One round. A fault propagates as an exception: what it leaves in memory is not used. */
    method Round(env: Env, round: nat, policy: StopPolicy) returns (step: Step)
      requires round > 0 ==> coverage.Some?
      modifies this, policy
      ensures var (spec, s', n) := RunRound(env, old(Now()), round, old(policy.noGain));
              step == spec && (step != Fault ==> Now() == s' && policy.noGain == n)
    {
      hide TakeIn, Assess, PlanQueries;
      gapRounds := round + 1;
      if round == 0 {
        step := AssessRound(env, round, policy, IdsOf(evidence), false);
        AssessKeeps(env, old(Now()).(gapRounds := 1), 0, old(policy.noGain), IdsOf(old(evidence)), false);
        return;
      }
      var pending := PlanGaps(coverage.value.facts, prior);
      if pending == [] {
        reason, gapRounds := "all_sources_exhausted", round;
        return Break;
      }
      var q := pending[0];
      var found := env.retrieve(q, round);
      if found.None? { return Fault; }
      calls := calls + 1;
      if exists e | e in found.value :: e.tenant != env.tenant || e.corpus != env.corpus { return Fault; }
      ghost var begun := Now();
      var newIds, newContent := DeliverAll(found.value);
      TakeInKeeps(begun, found.value);
      prior := prior + [q];
      ghost var ready := Now();
      step := AssessRound(env, round, policy, newIds, newContent);
      AssessKeeps(env, ready, round, old(policy.noGain), newIds, newContent);
    }
  }

  /** The loop from a round on, as run afresh and on resume. */
  method Loop(env: Env, state: IterationState, first: nat, policy: StopPolicy) returns (end: End)
    requires first > 0 ==> state.coverage.Some?
    modifies state, policy
    ensures end == RunLoop(env, old(state.Now()), first, old(policy.noGain)).0
    ensures end != Failed ==> state.Now() == RunLoop(env, old(state.Now()), first, old(policy.noGain)).1
  {
    ghost var target := RunLoop(env, state.Now(), first, policy.noGain);
    var round := first;
    while round < env.maxRounds
      invariant round > 0 ==> state.coverage.Some?
      invariant RunLoop(env, state.Now(), round, policy.noGain) == target
    {
      hide RunRound;
      ContinueHasCoverage(env, state.Now(), round, policy.noGain);
      var step := state.Round(env, round, policy);
      match step
      case Break => return Answered;
      case Terminal => return Refused;
      case Fault => return Failed;
      case Continue => round := round + 1;
    }
    end := RanOut;
  }

  method AnswerWithIteration(env: Env, query: string, raw: seq<Snapshot>, reason: string) returns (end: End, state: IterationState)
    requires env.maxRounds >= 1
    ensures end == RunLoop(env, Initial(query, raw, reason), 0, 0).0 && end != RanOut
    ensures end != Failed ==> state.Now() == RunLoop(env, Initial(query, raw, reason), 0, 0).1
  {
    hide RunLoop;
    state := new IterationState(Initial(query, raw, reason));
    var policy := new StopPolicy();
    LoopEndsInTime(env, Initial(query, raw, reason), 0, 0);
    end := Loop(env, state, 0, policy);
  }

  /** What is still authorized of a checkpoint's evidence. */
  method Reauthorize(ck: Checkpoint, authorized: set<string>) returns (surviving: seq<Snapshot>, dropped: bool)
    ensures surviving == Selected(ck.evidence, authorized) && dropped == Dropped(ck, authorized)
  {
    surviving, dropped := [], false;
    for i := 0 to |ck.evidence|
      invariant surviving == Selected(ck.evidence[..i], authorized)
      invariant dropped <==> exists e | e in ck.evidence[..i] :: e.id !in authorized
    {
      assert ck.evidence[..i + 1][..i] == ck.evidence[..i];
      if ck.evidence[i].id in authorized {
        surviving := surviving + [ck.evidence[i]];
      } else {
        dropped := true;
      }
    }
    assert ck.evidence[..|ck.evidence|] == ck.evidence;
  }

  /** Conflict stage and judge over what survived a revocation; `Continue` if the run goes on from there. */
  method Reassess(env: Env, ck: Checkpoint, state: IterationState) returns (step: Step)
    modifies state
    ensures var s := old(state.Now());
            var report := env.stage(s.evidence);
            var kept := Selected(s.evidence, report.kept);
            var open := Reopened(ck, s).(report := Some(report), finalEvidence := kept);
            if kept == [] then
              step == Terminal
              && state.Now() == open.(coverage := Some(Abstain), reason := "temporal_no_evidence", conflictStop := false)
            else if env.judge(kept).None? then step == Fault
            else
              var cov := env.judge(kept).value;
              && step == (if report.contradicted || cov.overall == "sufficient" then Break else Continue)
              && state.Now() == open.(conflictStop := report.contradicted,
                                      coverage := Some(if report.contradicted then ContradictedCoverage else cov))
  {
    hide Selected;
    if ck.completed {
      state.coverage, state.report, state.finalEvidence, state.conflictStop, state.reason := None, None, [], false, "";
    }
    var r := env.stage(state.evidence);
    var kept := Selected(state.evidence, r.kept);
    state.report, state.finalEvidence := Some(r), kept;
    if kept == [] {
      state.coverage, state.reason, state.conflictStop := Some(Abstain), "temporal_no_evidence", false;
      return Terminal;
    }
    state.conflictStop := r.contradicted;
    var judged := env.judge(kept);
    if judged.None? { return Fault; }
    state.coverage := judged;
    if r.contradicted {
      state.coverage := Some(ContradictedCoverage);
      return Break;
    }
    step := if judged.value.overall == "sufficient" then Break else Continue;
  }

  /** Resume a checkpoint over the evidence that is still authorized; a new policy starts its counter again. */
  method ResumeRun(env: Env, ck: Checkpoint, authorized: set<string>) returns (end: End, state: IterationState)
    requires ck.round > 0 ==> ck.coverage.Some?
    ensures end == Resume(env, ck, authorized).0
    ensures end != Failed ==> state.Now() == Resume(env, ck, authorized).1
  {
    hide RunLoop, Selected, HashesOf, DocVersionsOf;
    var surviving, dropped := Reauthorize(ck, authorized);
    state := new IterationState(RebuildOver(ck, surviving));
    if surviving == [] {
      state.finalEvidence, state.report, state.coverage := [], None, Some(Abstain);
      state.reason, state.conflictStop := "all_evidence_revoked", false;
      return Refused, state;
    }
    if dropped {
      var step := Reassess(env, ck, state);
      match step
      case Terminal => return Refused, state;
      case Fault => return Failed, state;
      case Break => return Answered, state;
      case Continue =>
    } else if ck.completed {
      return if state.finalEvidence == [] then Refused else Answered, state;
    }
    var policy := new StopPolicy();
    end := Loop(env, state, ck.round, policy);
  }
}
