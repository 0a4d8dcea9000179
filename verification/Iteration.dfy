/** The gap-retrieval loop: one round and whole runs. Retriever, conflict stage and
    judge are fixed functions. */
module Iteration {
  import opened Common

  datatype Snapshot = Snapshot(
    id: string, tenant: string, corpus: string, document: string, version: string, hash: string, body: string)

  datatype FactStatus = Supported | Missing | PartiallySupported | NotRetrievable | OtherStatus

  datatype FactCoverage = FactCoverage(fact: string, status: FactStatus, next: seq<string>, missing: string)

  datatype Coverage = Coverage(
    overall: string, facts: seq<FactCoverage>, covered: set<string>, canContinue: bool, abstain: bool)

  /** The conflict stage's report: whether contradicted, and which evidence is kept. */
  datatype Report = Report(contradicted: bool, kept: set<string>, detail: string)

  datatype Env = Env(
    tenant: string, corpus: string, maxRounds: nat,
    retrieve: (string, nat) -> Option<seq<Snapshot>>,
    stage: seq<Snapshot> -> Report,
    judge: seq<Snapshot> -> Option<Coverage>)

  datatype State = State(
    evidence: seq<Snapshot>, hashes: set<string>, docVersions: set<(string, string)>, prior: seq<string>,
    coverage: Option<Coverage>, gapRounds: nat, calls: nat, prevCovered: set<string>, reason: string,
    report: Option<Report>, finalEvidence: seq<Snapshot>, conflictStop: bool)

  function IdsOf(evs: seq<Snapshot>): set<string> {
    set e | e in evs :: e.id
  }

  function HashesOf(evs: seq<Snapshot>): set<string> {
    set e | e in evs :: e.hash
  }

  function DocVersionsOf(evs: seq<Snapshot>): set<(string, string)> {
    set e | e in evs :: (e.document, e.version)
  }

  function Selected(evs: seq<Snapshot>, ids: set<string>): seq<Snapshot> {
    if evs == [] then []
    else
      var last := evs[|evs| - 1];
      Selected(evs[..|evs| - 1], ids) + (if last.id in ids then [last] else [])
  }

  // ---------------------------------------------------------------------
  // Gap planning
  // ---------------------------------------------------------------------

  function Candidate(f: FactCoverage): string {
    if f.next != [] then f.next[0] else if f.missing != "" then f.missing else f.fact
  }

  predicate IsGap(f: FactCoverage) {
    f.status == Missing || f.status == PartiallySupported
  }

  /** One query for each gap, never one that was issued before or is planned already. */
  function PlanQueries(facts: seq<FactCoverage>, prior: set<string>): seq<string> {
    if facts == [] then []
    else
      var init := PlanQueries(facts[..|facts| - 1], prior);
      var q := Candidate(facts[|facts| - 1]);
      if IsGap(facts[|facts| - 1]) && q != "" && q !in prior && q !in init then init + [q] else init
  }

  ghost predicate Distinct(s: seq<string>) {
    forall i, j | 0 <= i < j < |s| :: s[i] != s[j]
  }

  /** What is planned are distinct new queries, each for a gap, and every gap with a
      new candidate is planned for. */
  lemma {:induction false} PlanLaws(facts: seq<FactCoverage>, prior: set<string>)
    ensures Distinct(PlanQueries(facts, prior))
    ensures forall q :: q in PlanQueries(facts, prior) <==>
              q != "" && q !in prior && exists f | f in facts :: IsGap(f) && Candidate(f) == q
  {
    if facts != [] {
      var init, last := facts[..|facts| - 1], facts[|facts| - 1];
      PlanLaws(init, prior);
      assert facts == init + [last];
      hide Candidate, IsGap;
      assert forall f :: f in facts <==> f in init || f == last;
    }
  }

  // ---------------------------------------------------------------------
  // The stop policy
  // ---------------------------------------------------------------------

  datatype Decision = Decision(stop: bool, reason: string)

  function Decide(noGain: nat, round: nat, maxRounds: nat, cov: Coverage, gained: bool): (Decision, nat) {
    if cov.overall == "sufficient" then (Decision(true, "sufficient"), noGain)
    else if !cov.canContinue then (Decision(true, "all_sources_exhausted"), noGain)
    else
      var n := if gained then 0 else noGain + 1;
      if n >= 2 then (Decision(true, "no_new_evidence"), n)
      else if round + 1 >= maxRounds then (Decision(true, "max_rounds"), n)
      else (Decision(false, "continue"), n)
  }

  /** What the policy is told of a round. */
  datatype RoundFacts = RoundFacts(coverage: Coverage, gained: bool)

  /** The policy's counter behind these rounds, if it stopped none of them. */
  function Counter(rounds: seq<RoundFacts>, maxRounds: nat): Option<nat> {
    if rounds == [] then Some(0)
    else
      var last := rounds[|rounds| - 1];
      match Counter(rounds[..|rounds| - 1], maxRounds)
      case None => None
      case Some(noGain) =>
        var (decision, n) := Decide(noGain, |rounds| - 1, maxRounds, last.coverage, last.gained);
        if decision.stop then None else Some(n)
  }

  predicate Exhausted(cov: Coverage) {
    cov.overall == "sufficient" || !cov.canContinue
  }

  /** Round `i` was gainless, and the one before it too. */
  predicate TwiceGainless(rounds: seq<RoundFacts>, i: nat)
    requires i < |rounds|
  {
    i > 0 && !rounds[i - 1].gained && !rounds[i].gained
  }

  predicate LetOn(rounds: seq<RoundFacts>, maxRounds: nat, i: nat)
    requires i < |rounds|
  {
    !Exhausted(rounds[i].coverage) && !TwiceGainless(rounds, i) && i + 1 < maxRounds
  }

  /** The policy lets a run go on exactly as long as no verdict ends it, no two rounds in a row are
      gainless, and rounds are left. */
  lemma {:induction false} GoesOnIff(rounds: seq<RoundFacts>, maxRounds: nat)
    ensures Counter(rounds, maxRounds).Some? <==> forall i | 0 <= i < |rounds| :: LetOn(rounds, maxRounds, i)
    ensures Counter(rounds, maxRounds).Some? && rounds != [] ==>
              Counter(rounds, maxRounds) == Some(if rounds[|rounds| - 1].gained then 0 else 1)
  {
    if rounds != [] {
      var init, last := rounds[..|rounds| - 1], |rounds| - 1;
      GoesOnIff(init, maxRounds);
      forall i | 0 <= i < last ensures LetOn(init, maxRounds, i) == LetOn(rounds, maxRounds, i) {
      }
      if Counter(init, maxRounds).Some? {
        var (decision, n) := Decide(Counter(init, maxRounds).value, last, maxRounds, rounds[last].coverage, rounds[last].gained);
        assert init != [] ==> init[last - 1] == rounds[last - 1];
        assert decision.stop <==> !LetOn(rounds, maxRounds, last);
      }
    }
  }

  /** And the round that ends it is for want of new evidence exactly when it is the second gainless one in
      a row and no verdict ends it. */
  lemma StopReason(rounds: seq<RoundFacts>, maxRounds: nat, now: RoundFacts)
    requires Counter(rounds, maxRounds).Some?
    ensures var decision := Decide(Counter(rounds, maxRounds).value, |rounds|, maxRounds, now.coverage, now.gained).0;
            var all := rounds + [now];
            && (decision.stop <==> !LetOn(all, maxRounds, |rounds|))
            && (decision.reason == "no_new_evidence" <==> !Exhausted(now.coverage) && TwiceGainless(all, |rounds|))
            && (decision.reason == "max_rounds" <==>
                  !Exhausted(now.coverage) && !TwiceGainless(all, |rounds|) && |rounds| + 1 >= maxRounds)
  {
    GoesOnIff(rounds, maxRounds);
  }

  // ---------------------------------------------------------------------
  // Taking in retrieved evidence
  // ---------------------------------------------------------------------

  predicate NewContent(s: State, e: Snapshot) {
    e.hash !in s.hashes || (e.document, e.version) !in s.docVersions
  }

  function IndexOf(evs: seq<Snapshot>, id: string): (i: nat)
    requires id in IdsOf(evs)
    ensures i < |evs| && evs[i].id == id
  {
    if evs[|evs| - 1].id == id then |evs| - 1
    else
      assert evs == evs[..|evs| - 1] + [evs[|evs| - 1]];
      IndexOf(evs[..|evs| - 1], id)
  }

  /** A new id is added; a known one is replaced if its version or text changed. */
  function Deliver(s: State, e: Snapshot): State {
    var evidence :=
      if e.id !in IdsOf(s.evidence) then s.evidence + [e]
      else
        var i := IndexOf(s.evidence, e.id);
        if s.evidence[i].version != e.version || s.evidence[i].hash != e.hash then s.evidence[i := e] else s.evidence;
    s.(evidence := evidence, hashes := s.hashes + {e.hash}, docVersions := s.docVersions + {(e.document, e.version)})
  }

  datatype Intake = Intake(state: State, newIds: set<string>, newContent: bool)

  function TakeIn(s: State, evs: seq<Snapshot>): Intake {
    if evs == [] then Intake(s, {}, false)
    else
      var before := TakeIn(s, evs[..|evs| - 1]);
      var e := evs[|evs| - 1];
      var isNew := NewContent(before.state, e);
      Intake(Deliver(before.state, e),
             if isNew && e.id !in IdsOf(before.state.evidence) then before.newIds + {e.id} else before.newIds,
             before.newContent || isNew)
  }

  // ---------------------------------------------------------------------
  // One round
  // ---------------------------------------------------------------------

  datatype Step = Continue | Break | Terminal | Fault

  const Abstain := Coverage("insufficient", [], {}, false, true)
  const ContradictedCoverage := Coverage("contradicted", [], {}, false, false)

  function CoveredBefore(s: State): set<string> {
    if s.coverage.Some? then s.coverage.value.covered else {}
  }

  /** Conflict stage, judge and stop policy on the evidence gathered so far. */
  function Assess(env: Env, s: State, round: nat, noGain: nat, newIds: set<string>, newContent: bool): (Step, State, nat) {
    var report := env.stage(s.evidence);
    var kept := Selected(s.evidence, report.kept);
    var seen := s.(report := Some(report), finalEvidence := kept);
    if kept == [] then (Terminal, seen.(coverage := Some(Abstain), reason := "no_evidence", conflictStop := false), noGain)
    else if report.contradicted then
      (Break, seen.(coverage := Some(ContradictedCoverage), conflictStop := true, reason := "conflict_detected"), noGain)
    else
      var prev := CoveredBefore(s);
      match env.judge(kept)
      case None =>
        (Terminal, seen.(coverage := Some(Abstain), prevCovered := prev, reason := "judge_fault", conflictStop := false), noGain)
      case Some(cov) =>
        var gained := newIds != {} || cov.covered - prev != {} || newContent;
        var (decision, n) := Decide(noGain, round, env.maxRounds, cov, gained);
        (if decision.stop then Break else Continue,
         seen.(coverage := Some(cov), prevCovered := prev, reason := decision.reason), n)
  }

  /** Round 0 assesses what the fast path found; later rounds issue one new gap query first. */
  function RunRound(env: Env, s: State, round: nat, noGain: nat): (Step, State, nat)
    requires round > 0 ==> s.coverage.Some?
  {
    var begun := s.(gapRounds := round + 1);
    if round == 0 then Assess(env, begun, round, noGain, IdsOf(s.evidence), false)
    else
      var pending := PlanQueries(s.coverage.value.facts, Elements(s.prior));
      if pending == [] then (Break, begun.(reason := "all_sources_exhausted", gapRounds := round), noGain)
      else
        match env.retrieve(pending[0], round)
        case None => (Fault, s, noGain)
        case Some(evs) =>
          if exists e | e in evs :: e.tenant != env.tenant || e.corpus != env.corpus then (Fault, s, noGain)
          else
            var intake := TakeIn(begun.(calls := s.calls + 1), evs);
            Assess(env, intake.state.(prior := s.prior + [pending[0]]), round, noGain, intake.newIds, intake.newContent)
  }

  // ---------------------------------------------------------------------
  // Whole runs
  // ---------------------------------------------------------------------

  datatype End = Answered | Refused | Failed | RanOut

  function RunLoop(env: Env, s: State, round: nat, noGain: nat): (End, State)
    requires round > 0 ==> s.coverage.Some?
    decreases env.maxRounds - round
  {
    if round >= env.maxRounds then (RanOut, s)
    else
      var (step, s', n) := RunRound(env, s, round, noGain);
      match step
      case Continue => if s'.coverage.Some? then RunLoop(env, s', round + 1, n) else (Failed, s')
      case Break => (Answered, s')
      case Terminal => (Refused, s')
      case Fault => (Failed, s')
  }

  /** Keyed by id, in order of first delivery, the last snapshot of an id wins. */
  function ById(raw: seq<Snapshot>): seq<Snapshot> {
    if raw == [] then []
    else
      var init, last := ById(raw[..|raw| - 1]), raw[|raw| - 1];
      if last.id in IdsOf(init) then init[IndexOf(init, last.id) := last] else init + [last]
  }

  /** The state built from the fast path's evidence. */
  function Initial(query: string, raw: seq<Snapshot>, reason: string): State {
    State(ById(raw), HashesOf(raw), DocVersionsOf(raw), [query], None, 0, 1, {}, reason, None, ById(raw), false)
  }

  /** Queries issued so far are distinct and each was one retrieval call. */
  ghost predicate Accounted(s: State) {
    Distinct(s.prior) && s.calls == |s.prior|
  }

  lemma {:induction false} TakeInKeeps(s: State, evs: seq<Snapshot>)
    ensures TakeIn(s, evs).state ==
            s.(evidence := TakeIn(s, evs).state.evidence, hashes := TakeIn(s, evs).state.hashes,
               docVersions := TakeIn(s, evs).state.docVersions)
  {
    hide IndexOf, NewContent;
    if evs != [] { TakeInKeeps(s, evs[..|evs| - 1]); }
  }

  lemma {:induction false} AssessKeeps(env: Env, s: State, round: nat, noGain: nat, newIds: set<string>, newContent: bool)
    ensures var (step, s', n) := Assess(env, s, round, noGain, newIds, newContent);
            && s'.prior == s.prior && s'.calls == s.calls && s'.gapRounds == s.gapRounds
            && s'.evidence == s.evidence && s'.hashes == s.hashes && s'.docVersions == s.docVersions
            && s'.coverage.Some? && step != Fault
  {
  }

  lemma {:induction false} RoundAccounts(env: Env, s: State, round: nat, noGain: nat)
    requires Accounted(s) && (round > 0 ==> s.coverage.Some?) && round < env.maxRounds
    ensures var (step, s', n) := RunRound(env, s, round, noGain);
            && Accounted(s') && |s'.prior| <= |s.prior| + 1
            && (step == Continue ==> s'.coverage.Some? && round + 1 < env.maxRounds)
            && (step != Fault ==> s'.gapRounds <= round + 1)
            && (step == Continue && round > 0 ==> |s'.prior| == |s.prior| + 1)
  {
    hide Assess, TakeIn;
    if round == 0 {
      AssessKeeps(env, s.(gapRounds := 1), 0, noGain, IdsOf(s.evidence), false);
      ContinueIsEarly(env, s.(gapRounds := 1), 0, noGain, IdsOf(s.evidence), false);
    } else {
      var pending := PlanQueries(s.coverage.value.facts, Elements(s.prior));
      PlanLaws(s.coverage.value.facts, Elements(s.prior));
      if pending != [] && env.retrieve(pending[0], round).Some? {
        assert pending[0] in pending && pending[0] !in s.prior;
        var intake := TakeIn(s.(gapRounds := round + 1, calls := s.calls + 1), env.retrieve(pending[0], round).value);
        TakeInKeeps(s.(gapRounds := round + 1, calls := s.calls + 1), env.retrieve(pending[0], round).value);
        var next := intake.state.(prior := s.prior + [pending[0]]);
        AssessKeeps(env, next, round, noGain, intake.newIds, intake.newContent);
        ContinueIsEarly(env, next, round, noGain, intake.newIds, intake.newContent);
      }
    }
  }

  lemma {:induction false} ContinueIsEarly(env: Env, s: State, round: nat, noGain: nat, newIds: set<string>, newContent: bool)
    ensures Assess(env, s, round, noGain, newIds, newContent).0 == Continue ==> round + 1 < env.maxRounds
  {
  }

  /** A run ends within its rounds by a stop, a refusal or a fault, never by running
      out; its queries are distinct and counted. */
  lemma {:induction false} LoopEndsInTime(env: Env, s: State, round: nat, noGain: nat)
    requires Accounted(s) && (round > 0 ==> s.coverage.Some?) && round < env.maxRounds && s.gapRounds <= round
    ensures var (end, s') := RunLoop(env, s, round, noGain);
            && end != RanOut && s'.gapRounds <= env.maxRounds
            && Accounted(s') && |s'.prior| <= |s.prior| + env.maxRounds - round
    decreases env.maxRounds - round
  {
    hide RunRound, Accounted;
    RoundAccounts(env, s, round, noGain);
    var (step, s', n) := RunRound(env, s, round, noGain);
    FaultKeeps(env, s, round, noGain);
    if step == Continue { LoopEndsInTime(env, s', round + 1, n); }
  }

  lemma {:induction false} FaultKeeps(env: Env, s: State, round: nat, noGain: nat)
    requires round > 0 ==> s.coverage.Some?
    ensures RunRound(env, s, round, noGain).0 == Fault ==> RunRound(env, s, round, noGain).1 == s
  {
    hide TakeIn, PlanQueries, Assess;
    var pending := if round > 0 then PlanQueries(s.coverage.value.facts, Elements(s.prior)) else [];
    if round == 0 {
      AssessKeeps(env, s.(gapRounds := 1), 0, noGain, IdsOf(s.evidence), false);
    } else if pending != [] && env.retrieve(pending[0], round).Some? {
      var intake := TakeIn(s.(gapRounds := round + 1, calls := s.calls + 1), env.retrieve(pending[0], round).value);
      AssessKeeps(env, intake.state.(prior := s.prior + [pending[0]]), round, noGain, intake.newIds, intake.newContent);
    }
  }

  // ---------------------------------------------------------------------
  // Along a run
  // ---------------------------------------------------------------------

  /** State and counter after the first `k` rounds, if none of them stopped. */
  function After(env: Env, s: State, k: nat): Option<(State, nat)> {
    if k == 0 then Some((s, 0))
    else
      match After(env, s, k - 1)
      case None => None
      case Some((before, n)) =>
        if k - 1 > 0 && before.coverage.None? then None
        else
          var (step, s', n') := RunRound(env, before, k - 1, n);
          if step == Continue then Some((s', n')) else None
  }

  lemma {:induction false} RunContinues(env: Env, s: State, k: nat)
    requires After(env, s, k).Some?
    ensures k > 0 ==> After(env, s, k).value.0.coverage.Some? && k < env.maxRounds
    ensures After(env, s, k).value.1 <= 1
    ensures RunLoop(env, s, 0, 0) == RunLoop(env, After(env, s, k).value.0, k, After(env, s, k).value.1)
  {
    hide RunRound;
    if k > 0 {
      RunContinues(env, s, k - 1);
      var (before, n) := After(env, s, k - 1).value;
      ContinueHasCoverage(env, before, k - 1, n);
    }
  }

  lemma {:induction false} ContinueHasCoverage(env: Env, s: State, round: nat, noGain: nat)
    requires round > 0 ==> s.coverage.Some?
    ensures var (step, s', n) := RunRound(env, s, round, noGain);
            step == Continue ==> s'.coverage.Some? && n <= 1 && s'.reason == "continue" && round + 1 < env.maxRounds
  {
    hide TakeIn, PlanQueries;
  }
}
