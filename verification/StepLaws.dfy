/** What one step comes to, in terms of its tool, its budget and its dependencies alone. */
module StepLaws {
  import opened Common
  import opened PlanGraph
  import opened PlanValidation
  import opened PlanExecution

  /** Attempt `k` is within the two that are made at most, and within the step's budget. */
  predicate Fits(s: PlanStep, k: nat) {
    1 <= k <= 2 && k * |s.corpora| <= s.maxCalls
  }

  /** What a call throws; an output of an unknown schema counts as a plan failure. */
  function Thrown(o: ToolOutcome): Option<Exn> {
    match o
    case Threw(exn) => Some(exn)
    case Produced(known, _, _, _) => if known then None else Some(PlanFailure)
  }

  /** The call threw something that may be tried again: never a security or a programming error. */
  predicate Retries(env: Env, s: PlanStep, inputs: Inputs, k: nat) {
    match Thrown(env.tool(s, inputs, k))
    case None => false
    case Some(exn) => exn in env.retryable(s) && exn != SecurityBinding && exn != Programming
  }

  /** The step gets as far as calling its tool with these inputs. */
  predicate Starts(env: Env, s: PlanStep, completed: Results, inputs: Inputs) {
    && env.registered(s) && env.resolve(s, completed) == Bound(inputs)
    && forall d | d in s.hard :: d in completed && completed[d].status == Succeeded
  }

  /** Attempt `k` is made: it fits, and all before it were to be tried again. */
  predicate Made(env: Env, s: PlanStep, inputs: Inputs, k: nat) {
    Fits(s, k) && forall j | 1 <= j < k :: Retries(env, s, inputs, j)
  }

  /** Attempt `k` is made and produces valid output of a known schema. */
  predicate Succeeds(env: Env, s: PlanStep, completed: Results, inputs: Inputs, k: nat) {
    && Starts(env, s, completed, inputs) && Made(env, s, inputs, k)
    && var o := env.tool(s, inputs, k); o.Produced? && o.schemaKnown && o.valid
  }

  lemma FitsIff(s: PlanStep, k: nat)
    requires k >= 1
    ensures Fits(s, k) <==> k <= MaxAttempts(s)
  {
  }

  /** The thread comes by attempt `k`. */
  lemma {:induction false} ComesBy(env: Env, s: PlanStep, completed: Results, inputs: Inputs, k: nat)
    requires Starts(env, s, completed, inputs) && Made(env, s, inputs, k)
    ensures Outcome(env, s, completed, Fresh) == Outcome(env, s, completed, Calling(inputs, k))
  {
    FitsIff(s, k);
    if k == 1 {
      assert Begin(env, s, completed) == Trying(inputs, 0, false);
    } else {
      FitsIff(s, 1);
      assert Retries(env, s, inputs, 1);
      assert Fits(s, 1);
      ComesBy(env, s, completed, inputs, 1);
      assert Answer(env, s, inputs, 1) == Trying(inputs, 1, true);
    }
  }

  /** An attempt that produces valid output of a known schema ends the step with it, and with what the attempts cost. */
  lemma SucceedsAt(env: Env, s: PlanStep, completed: Results, inputs: Inputs, k: nat)
    requires Succeeds(env, s, completed, inputs, k)
    ensures var o := env.tool(s, inputs, k);
            Outcome(env, s, completed, Fresh) == Done(StepResult(Succeeded, o.outputs, o.evidence, k, k * |s.corpora|))
  {
    ComesBy(env, s, completed, inputs, k);
  }

  /** Whatever else an attempt comes to, if it is not to be tried again. */
  lemma FailsAt(env: Env, s: PlanStep, completed: Results, inputs: Inputs, k: nat)
    requires Starts(env, s, completed, inputs) && Made(env, s, inputs, k) && !Retries(env, s, inputs, k)
    ensures var o, end, cost := env.tool(s, inputs, k), Outcome(env, s, completed, Fresh), k * |s.corpora|;
            match Thrown(o)
            case None => !o.valid ==> end == Done(StepResult(Failed("output_schema_error"), map[], [], k, cost))
            case Some(SecurityBinding) => end == Raised(cost)
            case Some(PlanFailure) => end == Raised(cost)
            case Some(Programming) => end == Done(StepResult(Failed("programming_error"), map[], [], k, cost))
            case Some(Timeout) => end == Done(StepResult(TimedOut, map[], [], k, cost))
            case Some(OtherError(_)) => end == Done(StepResult(Failed("execution_error"), map[], [], k, cost))
  {
    ComesBy(env, s, completed, inputs, k);
  }

  /** The last attempt that fits was to be tried again. */
  lemma ExhaustedAt(env: Env, s: PlanStep, completed: Results, inputs: Inputs, k: nat)
    requires Starts(env, s, completed, inputs) && Made(env, s, inputs, k) && Retries(env, s, inputs, k) && !Fits(s, k + 1)
    ensures Outcome(env, s, completed, Fresh) == Done(StepResult(Failed("retry_exhausted"), map[], [], k, k * |s.corpora|))
  {
    ComesBy(env, s, completed, inputs, k);
    FitsIff(s, k);
    FitsIff(s, k + 1);
  }

  /** No attempt fits the budget. */
  lemma NeverTried(env: Env, s: PlanStep, completed: Results, inputs: Inputs)
    requires Starts(env, s, completed, inputs) && s.maxCalls < |s.corpora|
    ensures Outcome(env, s, completed, Fresh) == Done(StepResult(Failed("execution_error"), map[], [], 0, 0))
  {
    FitsIff(s, 1);
    assert Begin(env, s, completed) == Trying(inputs, 0, false);
  }

  /** A step that does not start calls nothing and consumes nothing. */
  lemma NotStarted(env: Env, s: PlanStep, completed: Results)
    requires forall inputs :: !Starts(env, s, completed, inputs)
    ensures var end := Outcome(env, s, completed, Fresh);
            && (!env.registered(s) ==> end == Done(StepResult(Failed("unexpected_error"), map[], [], 0, 0)))
            && (env.registered(s) && (exists d | d in s.hard :: d !in completed || completed[d].status != Succeeded) ==>
                  end == Done(StepResult(SkippedDependency, map[], [], 0, 0)))
            && (env.registered(s) && (forall d | d in s.hard :: d in completed && completed[d].status == Succeeded) ==>
                  if env.resolve(s, completed).BindingRaises? then end == Raised(0)
                  else end == Done(StepResult(Failed("binding_error"), map[], [], 0, 0)))
  {
    if env.resolve(s, completed).Bound? {
      assert !Starts(env, s, completed, env.resolve(s, completed).inputs);
    }
  }

  /** Which attempt is the last. */
  lemma LastMade(env: Env, s: PlanStep, inputs: Inputs) returns (k: nat)
    requires Fits(s, 1)
    ensures Made(env, s, inputs, k) && (Retries(env, s, inputs, k) ==> !Fits(s, k + 1))
  {
    k := if Fits(s, 2) && Retries(env, s, inputs, 1) then 2 else 1;
  }

  /** A step is given up as exhausted exactly when some attempt fits and every attempt that fits was to be tried again. */
  lemma ExhaustedIff(env: Env, s: PlanStep, completed: Results, inputs: Inputs)
    requires Starts(env, s, completed, inputs)
    ensures (var end := Outcome(env, s, completed, Fresh); end.Done? && end.result.status == Failed("retry_exhausted"))
            <==> Fits(s, 1) && forall k: nat | Fits(s, k) :: Retries(env, s, inputs, k)
  {
    if !Fits(s, 1) {
      NeverTried(env, s, completed, inputs);
      NamesDiffer();
    } else {
      var k := LastMade(env, s, inputs);
      if Retries(env, s, inputs, k) {
        ExhaustedAt(env, s, completed, inputs, k);
        forall j: nat | Fits(s, j) ensures Retries(env, s, inputs, j) { FitsBelow(s, k, j); }
      } else {
        NamesDiffer();
        var o := env.tool(s, inputs, k);
        if Thrown(o).None? && o.valid { SucceedsAt(env, s, completed, inputs, k); }
        else { FailsAt(env, s, completed, inputs, k); }
      }
    }
  }

  lemma FitsBelow(s: PlanStep, k: nat, j: nat)
    requires !Fits(s, k + 1) && Fits(s, k) && Fits(s, j)
    ensures j <= k
  {
    assert k == 1 ==> s.maxCalls < 2 * |s.corpora|;
  }

  lemma NamesDiffer()
    ensures "retry_exhausted" != "execution_error" && "retry_exhausted" != "programming_error" && "retry_exhausted" != "output_schema_error"
  {
    assert "retry_exhausted"[0] != "execution_error"[0] && "retry_exhausted"[0] != "programming_error"[0]
           && "retry_exhausted"[0] != "output_schema_error"[0];
  }

  lemma SucceedsThere(env: Env, s: PlanStep, completed: Results, k: nat, result: StepResult)
    requires Outcome(env, s, completed, Fresh) == Done(result)
    ensures forall inputs | Succeeds(env, s, completed, inputs, k) ::
              var o := env.tool(s, inputs, k);
              result == StepResult(Succeeded, o.outputs, o.evidence, k, k * |s.corpora|)
  {
    hide Outcome, Starts, Made;
    forall inputs | Succeeds(env, s, completed, inputs, k)
      ensures var o := env.tool(s, inputs, k);
              result == StepResult(Succeeded, o.outputs, o.evidence, k, k * |s.corpora|)
    {
      SucceedsAt(env, s, completed, inputs, k);
    }
  }

  // ---------------------------------------------------------------------
  // Against a budget of any size
  // ---------------------------------------------------------------------

  /** Whatever the plan, a micro-step never takes the shared counter over its total; a further attempt is refused exactly when
      it would, and a refusal reserves nothing. */
  lemma NeverOverspends(env: Env, s: PlanStep, completed: Results, total: int, t: Thread, used: nat)
    requires used <= total
    ensures var (t', used') := Advance(env, s, completed, total, t, used);
            && used <= used' <= total
            && (used' != used ==> t.Trying? && used' == used + |s.corpora| && t' == Calling(t.inputs, t.attempts + 1))
            && (t.Trying? && Fits(s, t.attempts + 1) ==>
                  if used + |s.corpora| <= total then t' == Calling(t.inputs, t.attempts + 1)
                  else t' == Done(StepResult(BudgetExhausted, map[], [], t.attempts, t.attempts * |s.corpora|)))
  {
    if t.Trying? { FitsIff(s, t.attempts + 1); }
  }

  // ---------------------------------------------------------------------
  // In an executed plan
  // ---------------------------------------------------------------------

  /** Whatever the schedules, a step whose hard dependencies succeeded and whose second attempt is the first to
      produce valid output succeeds with it, provided two attempts fit its budget; and so for the first. */
  lemma ExecutedStepSucceeds(
      env: Env, p: Plan, layers: seq<seq<StepId>>, schedules: seq<seq<nat>>, results: Results, used: nat, s: PlanStep, k: nat)
    returns (before: Results)
    requires Executed(env, p, layers, schedules, results, used) && s in p.steps && s.id in results
    ensures forall d | d in before :: d in results && before[d] == results[d]
    ensures forall inputs | Succeeds(env, s, before, inputs, k) ::
              var o := env.tool(s, inputs, k);
              results[s.id] == StepResult(Succeeded, o.outputs, o.evidence, k, k * |s.corpora|)
  {
    ExecutedAlone(env, p, layers, schedules, results, used);
    hide Executed, ExecuteAlone, Outcome, Starts, Made;
    ResultKeys(env, p, layers);
    var i := PlaceOf(layers, s.id);
    before := ResultIsOutcome(env, p, layers, i, s);
    hide Apartness, StepsFit, Before, HardDepsMet;
    SucceedsThere(env, s, before, k, results[s.id]);
  }
}
