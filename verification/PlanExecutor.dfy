/** The executor in its own form: the shared budget, the retry loop of one step, the
    layers, and the final report. */
module PlanExecutors {
  import opened Common
  import opened PlanGraph
  import opened PlanValidation
  import opened PlanExecution

  class AtomicToolBudget {
    const total: nat
    var used: nat

    ghost predicate Valid()
      reads this
    {
      used <= total
    }

    constructor (total: nat)
      ensures Valid() && this.total == total && used == 0
    {
      this.total, used := total, 0;
    }

    method TryReserve(n: nat) returns (granted: bool)
      requires Valid()
      modifies this
      ensures Valid() && granted == (old(used) + n <= total)
      ensures used == if granted then old(used) + n else old(used)
    {
      if used + n > total { return false; }
      used := used + n;
      granted := true;
    }
  }

  /** A thread that moves alone, against the counter, until it is over. */
  ghost function Solo(env: Env, s: PlanStep, completed: Results, total: int, t: Thread, used: nat): (Thread, nat)
    decreases Rank(s, t)
  {
    if Over(t) then (t, used)
    else
      var (t', used') := Advance(env, s, completed, total, t, used);
      if Rank(s, t') < Rank(s, t) then Solo(env, s, completed, total, t', used') else (t', used')
  }

  lemma {:induction false} SoloNext(env: Env, s: PlanStep, completed: Results, total: int, t: Thread, used: nat)
    requires !Over(t)
    ensures var (t', used') := Advance(env, s, completed, total, t, used);
            Rank(s, t') < Rank(s, t) ==> Solo(env, s, completed, total, t, used) == Solo(env, s, completed, total, t', used')
  {
    hide Advance;
  }

  lemma {:induction false} SoloRound(env: Env, s: PlanStep, completed: Results, total: int, inputs: Inputs, attempts: nat, failed: bool, used: nat)
    requires attempts < MaxAttempts(s) && used + |s.corpora| <= total
    ensures Solo(env, s, completed, total, Trying(inputs, attempts, failed), used) ==
            Solo(env, s, completed, total, Answer(env, s, inputs, attempts + 1), used + |s.corpora|)
    ensures Rank(s, Answer(env, s, inputs, attempts + 1)) < Rank(s, Calling(inputs, attempts + 1))
    ensures var t := Answer(env, s, inputs, attempts + 1); !Over(t) ==> t == Trying(inputs, attempts + 1, true)
  {
    hide Solo, Spent, Within;
    SoloNext(env, s, completed, total, Trying(inputs, attempts, failed), used);
    SoloNext(env, s, completed, total, Calling(inputs, attempts + 1), used + |s.corpora|);
  }

  /** Execute one step: dependencies, bindings, then attempts as long as the budget
      of the step and the shared budget allow. */
  method ExecuteSingleStep(env: Env, s: PlanStep, completed: Results, budget: AtomicToolBudget) returns (t: Thread)
    requires budget.Valid()
    modifies budget
    ensures budget.Valid()
    ensures (t, budget.used) == Solo(env, s, completed, budget.total, Fresh, old(budget.used))
    ensures Over(t)
  {
    t := Begin(env, s, completed);
    if Over(t) { return; }
    var inputs := t.inputs;
    var attempts, failed := 0, false;
    while attempts < MaxAttempts(s)
      invariant t == Trying(inputs, attempts, failed) && attempts <= MaxAttempts(s) && budget.Valid()
      invariant Solo(env, s, completed, budget.total, t, budget.used) ==
                Solo(env, s, completed, budget.total, Fresh, old(budget.used))
    {
      var granted := budget.TryReserve(|s.corpora|);
      if !granted {
        t := Ended(BudgetExhausted, attempts, |s.corpora|);
        return;
      }
      SoloRound(env, s, completed, budget.total, inputs, attempts, failed, budget.used - |s.corpora|);
      attempts := attempts + 1;
      t := Answer(env, s, inputs, attempts);
      if Over(t) { return; }
      failed := true;
    }
    t := GiveUp(s, attempts, failed);
  }

  /** With room in the counter, alone means the outcome and exactly what it spends. */
  lemma {:induction false} SoloIsOutcome(env: Env, s: PlanStep, completed: Results, total: int, t: Thread, used: nat)
    requires |s.corpora| <= s.maxCalls && Within(s, t) && used + s.maxCalls - Spent(s, t) <= total
    ensures var (t', used') := Solo(env, s, completed, total, t, used);
            t' == Outcome(env, s, completed, t) && used' == used + Spent(s, t') - Spent(s, t)
    decreases Rank(s, t)
  {
    if !Over(t) {
      var (t', used') := Advance(env, s, completed, total, t, used);
      AdvanceKeepsOutcome(env, s, completed, total, t, used);
      SoloIsOutcome(env, s, completed, total, t', used');
    }
  }

  method ExecuteWithRoom(env: Env, s: PlanStep, completed: Results, budget: AtomicToolBudget) returns (t: Thread)
    requires budget.Valid() && |s.corpora| <= s.maxCalls && budget.used + s.maxCalls <= budget.total
    modifies budget
    ensures budget.Valid() && t == Outcome(env, s, completed, Fresh) && (t.Done? || t.Raised?)
    ensures budget.used == old(budget.used) + Spent(s, t) && Spent(s, t) <= s.maxCalls
  {
    hide Outcome, Solo, Spent, Within, Rank, Advance;
    ghost var used := budget.used;
    FreshFits(s);
    t := ExecuteSingleStep(env, s, completed, budget);
    SoloIsOutcome(env, s, completed, budget.total, Fresh, used);
    OutcomeWithin(env, s, completed, Fresh);
    SpentFits(s, t);
  }

  /** Run the steps of one layer and collect their threads; a raising step ends it. */
  method ExecuteLayer(env: Env, steps: seq<PlanStep>, completed: Results, budget: AtomicToolBudget)
    returns (threads: seq<Thread>, raised: bool)
    requires budget.Valid() && StepsFit(steps) && budget.used + TotalCalls(steps) <= budget.total
    modifies budget
    ensures budget.Valid()
    ensures raised <==> exists i | 0 <= i < |steps| :: Outcome(env, steps[i], completed, Fresh).Raised?
    ensures !raised ==> threads == Outcomes(env, steps, completed)
                        && budget.used == old(budget.used) + TotalSpent(steps, threads)
  {
    threads, raised := [], false;
    NoStepYet(steps);
    hide *;
    for k := 0 to |steps|
      invariant budget.Valid() && |threads| == k
      invariant forall i | 0 <= i < k :: threads[i] == Outcome(env, steps[i], completed, Fresh) && threads[i].Done?
      invariant budget.used == old(budget.used) + TotalSpent(steps[..k], threads)
      invariant budget.used + TotalCalls(steps) - TotalCalls(steps[..k]) <= budget.total
    {
      RestFits(steps, k);
      var t := ExecuteWithRoom(env, steps[k], completed, budget);
      if t.Raised? {
        raised := true;
        return;
      }
      OneMoreStep(steps, k, threads, t);
      threads := threads + [t];
    }
    assert steps[..|steps|] == steps;
    AllOutcomes(env, steps, completed, threads);
  }

  lemma {:induction false} NoStepYet(steps: seq<PlanStep>)
    ensures TotalSpent(steps[..0], []) == 0 && TotalCalls(steps[..0]) == 0
  {
  }

  lemma {:induction false} AllOutcomes(env: Env, steps: seq<PlanStep>, completed: Results, threads: seq<Thread>)
    requires |threads| == |steps| && forall i | 0 <= i < |steps| :: threads[i] == Outcome(env, steps[i], completed, Fresh)
    ensures threads == Outcomes(env, steps, completed)
  {
    hide Outcome;
  }

  lemma {:induction false} OneMoreStep(steps: seq<PlanStep>, k: nat, threads: seq<Thread>, t: Thread)
    requires k < |steps| && |threads| == k
    ensures TotalSpent(steps[..k + 1], threads + [t]) == TotalSpent(steps[..k], threads) + Spent(steps[k], t)
    ensures TotalCalls(steps[..k + 1]) == TotalCalls(steps[..k]) + steps[k].maxCalls
  {
    hide Spent;
    assert steps[..k + 1][..k] == steps[..k] && (threads + [t])[..k] == threads;
  }

  lemma {:induction false} SpentFits(s: PlanStep, t: Thread)
    requires Within(s, t)
    ensures Spent(s, t) <= s.maxCalls
  {
  }

  lemma {:induction false} FreshFits(s: PlanStep)
    requires |s.corpora| <= s.maxCalls
    ensures Within(s, Fresh) && Spent(s, Fresh) == 0
  {
  }

  lemma {:induction false} RestFits(steps: seq<PlanStep>, k: nat)
    requires StepsFit(steps) && k < |steps|
    ensures |steps[k].corpora| <= steps[k].maxCalls
    ensures TotalCalls(steps[..k]) + steps[k].maxCalls <= TotalCalls(steps)
    decreases |steps|
  {
    var n := |steps| - 1;
    if k < n {
      assert steps[..n][..k] == steps[..k];
      RestFits(steps[..n], k);
    }
  }

  // ---------------------------------------------------------------------
  // The report
  // ---------------------------------------------------------------------

  /** Evidence of the steps that succeeded, in plan order, repetitions included. */
  function EvidenceOf(steps: seq<PlanStep>, results: Results): seq<string> {
    if steps == [] then []
    else
      var last := steps[|steps| - 1].id;
      EvidenceOf(steps[..|steps| - 1], results)
      + (if last in results && results[last].status == Succeeded then results[last].evidence else [])
  }

  function FirstOccurrences(s: seq<string>): seq<string> {
    if s == [] then []
    else
      var init := FirstOccurrences(s[..|s| - 1]);
      if s[|s| - 1] in init then init else init + [s[|s| - 1]]
  }

  lemma {:induction false} FirstOccurrencesOnce(s: seq<string>)
    ensures Distinct(FirstOccurrences(s)) && forall x :: x in FirstOccurrences(s) <==> x in s
  {
    if s != [] {
      FirstOccurrencesOnce(s[..|s| - 1]);
      assert s == s[..|s| - 1] + [s[|s| - 1]];
    }
  }

  /** Order of first appearance: what is appended changes nothing before it. */
  lemma {:induction false} FirstOccurrencesGrow(a: seq<string>, b: seq<string>)
    ensures FirstOccurrences(a) <= FirstOccurrences(a + b)
    decreases |b|
  {
    if b == [] {
      assert a + b == a;
    } else {
      assert (a + b)[..|a + b| - 1] == a + b[..|b| - 1];
      FirstOccurrencesGrow(a, b[..|b| - 1]);
    }
  }

  /** Exactly the ids that some succeeded step of the plan found. */
  lemma {:induction false} EvidenceIff(steps: seq<PlanStep>, results: Results, x: string)
    ensures x in EvidenceOf(steps, results) <==>
            exists s | s in steps :: s.id in results && results[s.id].status == Succeeded && x in results[s.id].evidence
  {
    if steps != [] {
      var init, last := steps[..|steps| - 1], steps[|steps| - 1];
      assert steps == init + [last];
      EvidenceIff(init, results, x);
    }
  }

  lemma {:induction false} FirstOccurrencesMore(s: seq<string>, x: string)
    ensures FirstOccurrences(s + [x]) == if x in s then FirstOccurrences(s) else FirstOccurrences(s) + [x]
  {
    FirstOccurrencesOnce(s);
    assert (s + [x])[..|s|] == s;
  }

  lemma {:induction false} OneMoreSeen(before: seq<string>, found: seq<string>, j: nat)
    requires j < |found|
    ensures var s, x := before + found[..j], found[j];
            && FirstOccurrences(before + found[..j + 1]) == (if x in Elements(s) then FirstOccurrences(s) else FirstOccurrences(s) + [x])
            && Elements(before + found[..j + 1]) == Elements(s) + {x}
  {
    hide FirstOccurrences;
    assert before + found[..j + 1] == before + found[..j] + [found[j]];
    FirstOccurrencesMore(before + found[..j], found[j]);
    ElementsAppend(before + found[..j], found[j]);
  }

  /** Append what was not seen before. */
  method AddEvidence(ids0: seq<string>, seen0: set<string>, found: seq<string>, ghost before: seq<string>)
    returns (ids: seq<string>, seen: set<string>)
    requires ids0 == FirstOccurrences(before) && seen0 == Elements(before)
    ensures ids == FirstOccurrences(before + found) && seen == Elements(before + found)
  {
    hide *;
    ids, seen := ids0, seen0;
    assert before + found[..0] == before;
    for j := 0 to |found|
      invariant ids == FirstOccurrences(before + found[..j]) && seen == Elements(before + found[..j])
    {
      OneMoreSeen(before, found, j);
      if found[j] !in seen {
        ids := ids + [found[j]];
      }
      seen := seen + {found[j]};
    }
    assert found[..|found|] == found;
  }

  method CollectEvidence(steps: seq<PlanStep>, results: Results) returns (ids: seq<string>)
    ensures ids == FirstOccurrences(EvidenceOf(steps, results))
  {
    ids := [];
    var seen: set<string> := {};
    for i := 0 to |steps|
      invariant ids == FirstOccurrences(EvidenceOf(steps[..i], results))
      invariant seen == Elements(EvidenceOf(steps[..i], results))
    {
      hide FirstOccurrences;
      EvidenceNext(steps, results, i);
      var sid := steps[i].id;
      if sid in results && results[sid].status == Succeeded {
        ids, seen := AddEvidence(ids, seen, results[sid].evidence, EvidenceOf(steps[..i], results));
      }
    }
    assert steps[..|steps|] == steps;
  }

  lemma {:induction false} EvidenceNext(steps: seq<PlanStep>, results: Results, i: nat)
    requires i < |steps|
    ensures var sid, before := steps[i].id, EvidenceOf(steps[..i], results);
            EvidenceOf(steps[..i + 1], results) ==
            if sid in results && results[sid].status == Succeeded then before + results[sid].evidence else before
  {
    assert steps[..i + 1][..i] == steps[..i];
  }

  datatype Verdict =
    | Rejected(violations: seq<Violation>)
    | BudgetBelowCorpora
    | StepRaised
    | NoUsableEvidence
    | Report(executed: bool, degraded: bool, results: Results, used: nat, evidence: seq<string>)

  ghost predicate ReportsOn(p: Plan, results: Results, used: nat, verdict: Verdict) {
    var evidence := FirstOccurrences(EvidenceOf(p.steps, results));
    if evidence == [] then verdict == NoUsableEvidence
    else
      verdict == Report(AnyConsumed(results),
                        exists id | id in results :: results[id].status != Succeeded,
                        results, used, evidence)
  }

  /** There is no usable evidence exactly when no succeeded step found any; otherwise the report lists each id found once,
      and counts as degraded exactly when some step did not succeed. */
  lemma ReportIff(p: Plan, results: Results, used: nat, verdict: Verdict)
    requires ReportsOn(p, results, used, verdict)
    ensures verdict == NoUsableEvidence <==>
            forall s | s in p.steps && s.id in results && results[s.id].status == Succeeded :: results[s.id].evidence == []
    ensures verdict != NoUsableEvidence ==>
              && verdict.Report? && verdict.results == results && verdict.used == used
              && (verdict.degraded <==> exists id | id in results :: results[id].status != Succeeded)
              && (verdict.executed <==> exists id | id in results :: results[id].consumed > 0)
              && Distinct(verdict.evidence)
              && forall x :: x in verdict.evidence <==>
                   exists s | s in p.steps :: s.id in results && results[s.id].status == Succeeded && x in results[s.id].evidence
  {
    hide EvidenceOf, FirstOccurrences, Distinct;
    var found := EvidenceOf(p.steps, results);
    FirstOccurrencesOnce(found);
    forall x ensures x in found <==>
                     exists s | s in p.steps :: s.id in results && results[s.id].status == Succeeded && x in results[s.id].evidence {
      EvidenceIff(p.steps, results, x);
    }
    var listed := FirstOccurrences(found);
    if listed == [] {
      forall s | s in p.steps && s.id in results && results[s.id].status == Succeeded ensures results[s.id].evidence == [] {
        var mine := results[s.id].evidence;
        forall x ensures x !in mine { assert x !in listed && x !in found; }
        SomeIn(mine);
      }
    } else {
      assert listed[0] in listed && listed[0] in found;
    }
  }

  lemma SomeIn(found: seq<string>)
    ensures found == [] || exists x :: x in found
  {
    assert found != [] ==> found[0] in found;
  }

  method BuildResult(p: Plan, results: Results, launched: bool, used: nat) returns (verdict: Verdict)
    requires launched == AnyConsumed(results)
    ensures ReportsOn(p, results, used, verdict)
  {
    var evidence := CollectEvidence(p.steps, results);
    if evidence == [] { return NoUsableEvidence; }
    var degraded := exists id | id in results :: results[id].status != Succeeded;
    verdict := Report(launched, degraded, results, used, evidence);
  }

  lemma {:induction false} LayeredIsApart(p: Plan, layers: seq<seq<StepId>>)
    requires Layered(p.steps, layers) && DistinctIds(p.steps)
    ensures Apartness(p, layers)
  {
    hide Ids;
    forall i: nat | i < |layers| ensures Elements(layers[i]) * Before(layers[..i]) == {} && Elements(layers[i]) <= Ids(p.steps) {
      assert LayerFits(p.steps, layers, i);
      InLayers(layers, i);
    }
  }

  lemma {:induction false} InLayers(layers: seq<seq<StepId>>, i: nat)
    requires i < |layers|
    ensures Elements(layers[i]) <= Before(layers)
  {
    if i < |layers| - 1 { InLayers(layers[..|layers| - 1], i); }
  }

  /** Execute layer `k` on the results of the earlier ones. */
  method ExecuteNextLayer(env: Env, p: Plan, layers: seq<seq<StepId>>, k: nat, completed: Results, budget: AtomicToolBudget)
    returns (results: Results, launched: bool, raised: bool)
    requires Apartness(p, layers) && StepsFit(p.steps) && TotalCalls(p.steps) <= p.maxCalls == budget.total && k < |layers|
    requires budget.Valid() && ExecuteAlone(env, p, layers[..k]) == Finished(completed, budget.used)
    modifies budget
    ensures budget.Valid()
    ensures raised ==> ExecuteAlone(env, p, layers) == Aborted
    ensures !raised ==> ExecuteAlone(env, p, layers[..k + 1]) == Finished(results, budget.used)
    ensures !raised ==> (AnyConsumed(results) <==> AnyConsumed(completed) || launched)
  {
    hide ExecuteAlone, Outcome, Outcomes, TotalSpent, CallsIn, DistinctIds, Before, StepsIn, TotalCalls, StepsFit, Apartness,
         WithResults;
    results, launched := completed, false;
    var steps := StepsIn(p.steps, Elements(layers[k]));
    LayerHasRoom(env, p, layers, k);
    NextLayer(env, p, layers, k);
    OutcomesAt(env, steps, completed);
    var threads: seq<Thread>;
    threads, raised := ExecuteLayer(env, steps, completed, budget);
    if raised {
      AbortedStays(env, p, layers, k + 1);
    } else {
      launched := AnyLaunched(threads);
      results := WithResults(completed, steps, threads);
      LaunchedMore(env, p, layers, k, completed, threads, results);
    }
  }

  /** Execute all layers; a raising step aborts. */
  method ExecuteLayers(env: Env, p: Plan, layers: seq<seq<StepId>>, budget: AtomicToolBudget)
    returns (results: Results, launched: bool, raised: bool)
    requires Apartness(p, layers) && StepsFit(p.steps) && TotalCalls(p.steps) <= p.maxCalls == budget.total
    requires budget.Valid() && budget.used == 0
    modifies budget
    ensures raised <==> ExecuteAlone(env, p, layers) == Aborted
    ensures !raised ==> ExecuteAlone(env, p, layers) == Finished(results, budget.used)
    ensures !raised ==> launched == AnyConsumed(results)
  {
    results, launched, raised := map[], false, false;
    assert ExecuteAlone(env, p, layers[..0]) == Finished(results, budget.used) && !AnyConsumed(results);
    hide *;
    for k := 0 to |layers|
      invariant budget.Valid() && ExecuteAlone(env, p, layers[..k]) == Finished(results, budget.used)
      invariant launched == AnyConsumed(results)
    {
      var started: bool;
      results, started, raised := ExecuteNextLayer(env, p, layers, k, results, budget);
      if raised { return; }
      launched := launched || started;
    }
    assert layers[..|layers|] == layers;
  }

  lemma {:induction false} OutcomesAt(env: Env, steps: seq<PlanStep>, completed: Results)
    ensures forall i | 0 <= i < |steps| ::
              Outcomes(env, steps, completed)[i] == Outcome(env, steps[i], completed, Fresh)
              && Over(Outcomes(env, steps, completed)[i])
    ensures (exists i | 0 <= i < |steps| :: Outcome(env, steps[i], completed, Fresh).Raised?) <==>
            (exists i | 0 <= i < |steps| :: Outcomes(env, steps, completed)[i].Raised?)
  {
    hide Outcome;
    var threads := Outcomes(env, steps, completed);
    assert forall i | 0 <= i < |steps| :: threads[i] == Outcome(env, steps[i], completed, Fresh);
  }

  /** The results of one more layer. */
  ghost function AfterLayer(env: Env, p: Plan, before: Execution, layer: seq<StepId>): Execution
    requires before.Finished?
  {
    var steps := StepsIn(p.steps, Elements(layer));
    var threads := Outcomes(env, steps, before.results);
    Join(before.results, steps, Machine(threads, before.used + TotalSpent(steps, threads)))
  }

  lemma {:induction false} NextLayer(env: Env, p: Plan, layers: seq<seq<StepId>>, k: nat)
    requires k < |layers| && ExecuteAlone(env, p, layers[..k]).Finished?
    ensures ExecuteAlone(env, p, layers[..k + 1]) == AfterLayer(env, p, ExecuteAlone(env, p, layers[..k]), layers[k])
  {
    hide Outcome, TotalSpent, StepsIn;
    var init, more := layers[..k], layers[..k + 1];
    assert |more| == k + 1 && more[k] == layers[k] && more[..k] == init;
  }

  lemma {:induction false} LayerHasRoom(env: Env, p: Plan, layers: seq<seq<StepId>>, k: nat)
    requires Apartness(p, layers) && StepsFit(p.steps) && TotalCalls(p.steps) <= p.maxCalls && k < |layers|
    requires ExecuteAlone(env, p, layers[..k]).Finished?
    ensures var steps := StepsIn(p.steps, Elements(layers[k]));
            StepsFit(steps) && ExecuteAlone(env, p, layers[..k]).used + TotalCalls(steps) <= p.maxCalls
  {
    hide StepsIn, TotalCalls, CallsIn, StepsFit, DistinctIds, Ids, ExecuteAlone, Before;
    var init := layers[..k];
    forall i: nat | i < |init| ensures Elements(init[i]) * Before(init[..i]) == {} { assert init[..i] == layers[..i]; }
    AloneSpends(env, p, init);
    CallsAdd(p.steps, Before(init), Elements(layers[k]));
    CallsAtMost(p.steps, Before(init) + Elements(layers[k]));
    SomeFit(p.steps, Elements(layers[k]));
    CallsAre(p.steps, Elements(layers[k]));
  }

  lemma {:induction false} AbortedStays(env: Env, p: Plan, layers: seq<seq<StepId>>, k: nat)
    requires k <= |layers| && ExecuteAlone(env, p, layers[..k]) == Aborted
    ensures ExecuteAlone(env, p, layers) == Aborted
    decreases |layers| - k
  {
    if k == |layers| {
      assert layers[..k] == layers;
    } else {
      assert layers[..k + 1][..k] == layers[..k];
      AbortedStays(env, p, layers, k + 1);
    }
  }

  predicate AnyLaunched(threads: seq<Thread>) {
    exists i | 0 <= i < |threads| :: threads[i].Done? && threads[i].result.consumed > 0
  }

  predicate AnyConsumed(results: Results) {
    exists id | id in results :: results[id].consumed > 0
  }

  lemma {:induction false} LaunchedMore(
    env: Env, p: Plan, layers: seq<seq<StepId>>, k: nat, r: Results, threads: seq<Thread>, r': Results)
    requires Apartness(p, layers) && k < |layers|
    requires ExecuteAlone(env, p, layers[..k]).Finished? && r == ExecuteAlone(env, p, layers[..k]).results
    requires |threads| == |StepsIn(p.steps, Elements(layers[k]))| && forall i | 0 <= i < |threads| :: threads[i].Done?
    requires r' == WithResults(r, StepsIn(p.steps, Elements(layers[k])), threads)
    ensures AnyConsumed(r') <==> AnyConsumed(r) || AnyLaunched(threads)
  {
    hide Outcome, Outcomes, ExecuteAlone, DistinctIds, StepsIn, WithResults;
    var ids := Elements(layers[k]);
    var steps := StepsIn(p.steps, ids);
    StepsInIds(p.steps, ids);
    WithResultsAre(r, steps, threads);
    assert Apartness(p, layers[..k]) by {
      forall i: nat | i < k ensures layers[..k][..i] == layers[..i] {
      }
    }
    ResultKeys(env, p, layers[..k]);
    assert ids * Ids(p.steps) == ids;
    if id :| id in r && r[id].consumed > 0 {
      assert id in ids * Before(layers[..k]) <==> id in ids;
      assert id in r' && r'[id] == r[id];
    }
    if i :| 0 <= i < |threads| && threads[i].result.consumed > 0 {
      assert steps[i].id in r' && r'[steps[i].id].consumed > 0;
    }
  }

  /** A whole execution: only accepted plans whose budgets cover their corpora run;
      then the report is that of every step run alone, layer by layer. */
  method Execute(env: Env, p: Plan, rules: Rules) returns (verdict: Verdict, ghost layers: seq<seq<StepId>>)
    ensures verdict.Rejected? <==> !Accepted(p, rules)
    ensures verdict.BudgetBelowCorpora? <==> Accepted(p, rules) && !StepsFit(p.steps)
    ensures Accepted(p, rules) && StepsFit(p.steps) ==>
              Layered(p.steps, layers)
              && match ExecuteAlone(env, p, layers) {
                   case Aborted => verdict == StepRaised
                   case Finished(results, used) => ReportsOn(p, results, used, verdict) && used == ConsumedIn(p.steps, results)
                 }
  {
    hide AcyclicPlan, DistinctIds, Layered, ReportsOn, TotalCalls, ExecuteAlone, ConsumedIn;
    layers := [];
    var violations, policyAttempt := Validate(p, rules);
    if violations != [] { return Rejected(violations), []; }
    for i := 0 to |p.steps|
      invariant forall j | 0 <= j < i :: |p.steps[j].corpora| <= p.steps[j].maxCalls
    {
      if p.steps[i].maxCalls < |p.steps[i].corpora| { return BudgetBelowCorpora, []; }
    }
    var order := BuildLayers(p.steps);
    layers := order;
    LayeredIsApart(p, order);
    NonnegativeTotal(p);
    var budget := new AtomicToolBudget(p.maxCalls);
    var results, launched, raised := ExecuteLayers(env, p, order, budget);
    if raised { return StepRaised, order; }
    AloneAccounts(env, p, order);
    verdict := BuildResult(p, results, launched, budget.used);
  }

  lemma {:induction false} NonnegativeTotal(p: Plan)
    requires StepsFit(p.steps)
    ensures TotalCalls(p.steps) >= 0
  {
    CallsAtMost(p.steps, {});
  }
}
