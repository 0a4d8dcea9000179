/** Plan execution: each step is a thread that shares nothing with the others of its
    layer but the tool-call budget; threads take micro-steps in any order. */
module PlanExecution {
  import opened Common
  import opened PlanGraph
  import opened PlanValidation

  // ---------------------------------------------------------------------
  // One step
  // ---------------------------------------------------------------------

  datatype Exn = SecurityBinding | Programming | PlanFailure | Timeout | OtherError(name: string)

  datatype ToolOutcome =
    | Produced(schemaKnown: bool, valid: bool, outputs: map<string, string>, evidence: seq<string>)
    | Threw(exn: Exn)

  datatype Status = Succeeded | Failed(code: string) | TimedOut | SkippedDependency | BudgetExhausted

  datatype StepResult = StepResult(
    status: Status, outputs: map<string, string>, evidence: seq<string>, attempts: nat, consumed: nat)

  type Results = map<StepId, StepResult>
  type Inputs = map<string, string>

  datatype Binding = Bound(inputs: Inputs) | BindingError | BindingRaises

  /** The collaborators: the tool registry, binding resolution on completed steps, and
      tools as functions of step, inputs and attempt. */
  datatype Env = Env(
    registered: PlanStep -> bool,
    resolve: (PlanStep, Results) -> Binding,
    tool: (PlanStep, Inputs, nat) -> ToolOutcome,
    retryable: PlanStep -> set<Exn>)

  /** Where one step's execution stands. */
  datatype Thread =
    | Fresh
    | Trying(inputs: Inputs, attempts: nat, failed: bool)
    | Calling(inputs: Inputs, attempts: nat)
    | Done(result: StepResult)
    | Raised(spent: nat)

  function Ended(status: Status, attempts: nat, n: nat): Thread {
    Done(StepResult(status, map[], [], attempts, attempts * n))
  }

  predicate HardDepsMet(s: PlanStep, completed: Results) {
    forall d | d in s.hard :: d in completed && completed[d].status == Succeeded
  }

  function Begin(env: Env, s: PlanStep, completed: Results): Thread {
    if !env.registered(s) then Ended(Failed("unexpected_error"), 0, 0)
    else if !HardDepsMet(s, completed) then Ended(SkippedDependency, 0, 0)
    else
      match env.resolve(s, completed)
      case BindingRaises => Raised(0)
      case BindingError => Ended(Failed("binding_error"), 0, 0)
      case Bound(inputs) => Trying(inputs, 0, false)
  }

  function MaxAttempts(s: PlanStep): nat {
    if s.maxCalls >= 2 * |s.corpora| then 2 else if s.maxCalls >= |s.corpora| then 1 else 0
  }

  /** The exception clauses in their order. */
  function Handle(env: Env, s: PlanStep, inputs: Inputs, attempts: nat, exn: Exn): Thread {
    var n := |s.corpora|;
    if exn == SecurityBinding then Raised(attempts * n)
    else if exn == Programming then Ended(Failed("programming_error"), attempts, n)
    else if exn in env.retryable(s) then Trying(inputs, attempts, true)
    else if exn == PlanFailure then Raised(attempts * n)
    else if exn == Timeout then Ended(TimedOut, attempts, n)
    else Ended(Failed("execution_error"), attempts, n)
  }

  function Answer(env: Env, s: PlanStep, inputs: Inputs, attempts: nat): Thread {
    match env.tool(s, inputs, attempts)
    case Threw(exn) => Handle(env, s, inputs, attempts, exn)
    case Produced(known, valid, outputs, evidence) =>
      if !known then Handle(env, s, inputs, attempts, PlanFailure)
      else if !valid then Ended(Failed("output_schema_error"), attempts, |s.corpora|)
      else Done(StepResult(Succeeded, outputs, evidence, attempts, attempts * |s.corpora|))
  }

  function GiveUp(s: PlanStep, attempts: nat, failed: bool): Thread {
    Ended(Failed(if failed then "retry_exhausted" else "execution_error"), attempts, |s.corpora|)
  }

  /** One micro-step of a thread against the shared counter of reserved units. */
  function Advance(env: Env, s: PlanStep, completed: Results, total: int, t: Thread, used: nat): (Thread, nat) {
    match t
    case Fresh => (Begin(env, s, completed), used)
    case Trying(inputs, attempts, failed) =>
      if attempts >= MaxAttempts(s) then (GiveUp(s, attempts, failed), used)
      else if used + |s.corpora| > total then (Ended(BudgetExhausted, attempts, |s.corpora|), used)
      else (Calling(inputs, attempts + 1), used + |s.corpora|)
    case Calling(inputs, attempts) => (Answer(env, s, inputs, attempts), used)
    case _ => (t, used)
  }

  predicate Over(t: Thread) {
    t.Done? || t.Raised?
  }

  /** How many micro-steps a thread has left at most. */
  function Rank(s: PlanStep, t: Thread): nat {
    match t
    case Fresh => 2 * MaxAttempts(s) + 2
    case Trying(_, attempts, _) => if attempts <= MaxAttempts(s) then 2 * (MaxAttempts(s) - attempts) + 1 else 1
    case Calling(_, attempts) => if attempts <= MaxAttempts(s) then 2 * (MaxAttempts(s) - attempts) + 2 else 2
    case _ => 0
  }

  /** What a thread comes to when every reservation succeeds. */
  function Outcome(env: Env, s: PlanStep, completed: Results, t: Thread): (final: Thread)
    ensures Over(final)
    decreases Rank(s, t)
  {
    match t
    case Fresh => Outcome(env, s, completed, Begin(env, s, completed))
    case Trying(inputs, attempts, failed) =>
      if attempts >= MaxAttempts(s) then GiveUp(s, attempts, failed)
      else Outcome(env, s, completed, Calling(inputs, attempts + 1))
    case Calling(inputs, attempts) => Outcome(env, s, completed, Answer(env, s, inputs, attempts))
    case _ => t
  }

  function Spent(s: PlanStep, t: Thread): nat {
    match t
    case Fresh => 0
    case Trying(_, attempts, _) => attempts * |s.corpora|
    case Calling(_, attempts) => attempts * |s.corpora|
    case Done(result) => result.consumed
    case Raised(spent) => spent
  }

  /** A thread never spends beyond its step's own budget. */
  ghost predicate Within(s: PlanStep, t: Thread) {
    && Spent(s, t) <= s.maxCalls
    && (t.Trying? || t.Calling? ==> t.attempts <= MaxAttempts(s))
    && (t.Done? ==> t.result.status != BudgetExhausted)
  }

  lemma {:induction false} AttemptsFit(s: PlanStep, attempts: nat)
    requires |s.corpora| <= s.maxCalls && attempts <= MaxAttempts(s)
    ensures attempts * |s.corpora| <= s.maxCalls
  {
  }

  /** With room for it, a micro-step keeps the thread's final outcome and its bounds,
      counts what it reserves, and brings the thread closer to its end. */
  lemma {:induction false} AdvanceKeepsOutcome(env: Env, s: PlanStep, completed: Results, total: int, t: Thread, used: nat)
    requires |s.corpora| <= s.maxCalls && Within(s, t)
    requires used + s.maxCalls - Spent(s, t) <= total
    ensures var (t', used') := Advance(env, s, completed, total, t, used);
            && Within(s, t') && Outcome(env, s, completed, t') == Outcome(env, s, completed, t)
            && used' == used + Spent(s, t') - Spent(s, t)
            && (Over(t) ==> t' == t) && (!Over(t) ==> Rank(s, t') < Rank(s, t))
  {
    if t.Trying? && t.attempts < MaxAttempts(s) { AttemptsFit(s, t.attempts + 1); }
  }

  // ---------------------------------------------------------------------
  // A layer under an arbitrary schedule
  // ---------------------------------------------------------------------

  datatype Machine = Machine(threads: seq<Thread>, used: nat)

  /** Let thread `i` take its next micro-step. */
  function Pick(env: Env, steps: seq<PlanStep>, completed: Results, total: int, m: Machine, i: nat): (m': Machine)
    ensures |m'.threads| == |m.threads| && (i >= |steps| ==> m' == m)
  {
    if i >= |steps| || i >= |m.threads| then m
    else
      var (t, used) := Advance(env, steps[i], completed, total, m.threads[i], m.used);
      Machine(m.threads[i := t], used)
  }

  /** A schedule names the thread that moves next, again and again. */
  function Run(env: Env, steps: seq<PlanStep>, completed: Results, total: int, m: Machine, schedule: seq<nat>): (m': Machine)
    ensures |m'.threads| == |m.threads|
  {
    if schedule == [] then m
    else
      var before := Run(env, steps, completed, total, m, schedule[..|schedule| - 1]);
      Pick(env, steps, completed, total, before, schedule[|schedule| - 1])
  }

  function Start(steps: seq<PlanStep>, used: nat): (m: Machine)
    ensures |m.threads| == |steps|
  {
    Machine(seq(|steps|, i => Fresh), used)
  }

  predicate Joined(m: Machine) {
    forall i | 0 <= i < |m.threads| :: Over(m.threads[i])
  }

  function TotalSpent(steps: seq<PlanStep>, threads: seq<Thread>): nat
    requires |steps| == |threads|
  {
    if steps == [] then 0
    else
      var n := |steps| - 1;
      TotalSpent(steps[..n], threads[..n]) + Spent(steps[n], threads[n])
  }

  lemma {:induction false} SpentUpdate(steps: seq<PlanStep>, threads: seq<Thread>, i: nat, t: Thread)
    requires |steps| == |threads| && i < |steps|
    ensures TotalSpent(steps, threads[i := t]) == TotalSpent(steps, threads) - Spent(steps[i], threads[i]) + Spent(steps[i], t)
  {
    hide Spent;
    var n := |steps| - 1;
    if i < n {
      assert threads[i := t][..n] == threads[..n][i := t];
      SpentUpdate(steps[..n], threads[..n], i, t);
    } else {
      assert threads[i := t][..n] == threads[..n];
    }
  }

  /** The room a thread has left is free in the counter. */
  lemma {:induction false} RoomLeft(steps: seq<PlanStep>, threads: seq<Thread>, i: nat)
    requires |steps| == |threads| && i < |steps|
    requires forall j | 0 <= j < |steps| :: Spent(steps[j], threads[j]) <= steps[j].maxCalls
    ensures TotalSpent(steps, threads) + steps[i].maxCalls - Spent(steps[i], threads[i]) <= TotalCalls(steps)
    ensures TotalSpent(steps, threads) <= TotalCalls(steps)
  {
    hide Spent;
    var n := |steps| - 1;
    if i < n {
      RoomLeft(steps[..n], threads[..n], i);
    } else if n > 0 {
      RoomLeft(steps[..n], threads[..n], 0);
    }
  }

  ghost predicate StepsFit(steps: seq<PlanStep>) {
    forall i | 0 <= i < |steps| :: |steps[i].corpora| <= steps[i].maxCalls
  }

  /** What holds after every micro-step: each thread is on its way to the outcome it
      would have alone, and the counter is what the threads have spent. */
  ghost predicate OnCourse(env: Env, steps: seq<PlanStep>, completed: Results, used0: nat, m: Machine) {
    && |m.threads| == |steps|
    && (forall i | 0 <= i < |steps| ::
          Within(steps[i], m.threads[i])
          && Outcome(env, steps[i], completed, m.threads[i]) == Outcome(env, steps[i], completed, Fresh))
    && m.used == used0 + TotalSpent(steps, m.threads)
  }

  lemma {:induction false} PickKeepsCourse(env: Env, steps: seq<PlanStep>, completed: Results, total: int, used0: nat, m: Machine, i: nat)
    requires StepsFit(steps) && used0 + TotalCalls(steps) <= total && OnCourse(env, steps, completed, used0, m) && i < |steps|
    ensures var m' := Pick(env, steps, completed, total, m, i);
            && OnCourse(env, steps, completed, used0, m')
            && Rank(steps[i], m'.threads[i]) <= Rank(steps[i], m.threads[i])
            && (!Over(m.threads[i]) ==> Rank(steps[i], m'.threads[i]) < Rank(steps[i], m.threads[i]))
            && (forall j | 0 <= j < |steps| && j != i :: m'.threads[j] == m.threads[j])
  {
    hide Outcome, Advance, Spent, Rank, TotalSpent, Within;
    WithinAll(env, steps, completed, used0, m);
    RoomLeft(steps, m.threads, i);
    AdvanceKeepsOutcome(env, steps[i], completed, total, m.threads[i], m.used);
    SpentUpdate(steps, m.threads, i, Advance(env, steps[i], completed, total, m.threads[i], m.used).0);
  }

  lemma {:induction false} WithinAll(env: Env, steps: seq<PlanStep>, completed: Results, used0: nat, m: Machine)
    requires OnCourse(env, steps, completed, used0, m)
    ensures forall j | 0 <= j < |steps| :: Spent(steps[j], m.threads[j]) <= steps[j].maxCalls
  {
    hide Outcome;
  }

  lemma {:induction false} NothingSpent(steps: seq<PlanStep>, threads: seq<Thread>)
    requires |steps| == |threads| && forall i | 0 <= i < |threads| :: threads[i] == Fresh
    ensures TotalSpent(steps, threads) == 0
  {
    if steps != [] { NothingSpent(steps[..|steps| - 1], threads[..|steps| - 1]); }
  }

  lemma {:induction false} RunKeepsCourse(env: Env, steps: seq<PlanStep>, completed: Results, total: int, used0: nat, schedule: seq<nat>)
    requires StepsFit(steps) && used0 + TotalCalls(steps) <= total
    ensures OnCourse(env, steps, completed, used0, Run(env, steps, completed, total, Start(steps, used0), schedule))
  {
    hide Outcome, Pick, TotalCalls, TotalSpent;
    if schedule == [] {
      NothingSpent(steps, Start(steps, used0).threads);
    } else {
      RunKeepsCourse(env, steps, completed, total, used0, schedule[..|schedule| - 1]);
      var before := Run(env, steps, completed, total, Start(steps, used0), schedule[..|schedule| - 1]);
      var i := schedule[|schedule| - 1];
      if i < |steps| { PickKeepsCourse(env, steps, completed, total, used0, before, i); }
    }
  }

  function Outcomes(env: Env, steps: seq<PlanStep>, completed: Results): (threads: seq<Thread>)
    ensures |threads| == |steps|
  {
    seq(|steps|, i requires 0 <= i < |steps| => Outcome(env, steps[i], completed, Fresh))
  }

  /** Schedule independence of a layer: whenever all threads have ended, each is
      where it would be alone, and the counter has grown by exactly what they spent. */
  lemma {:induction false} AnyScheduleSameOutcome(env: Env, steps: seq<PlanStep>, completed: Results, total: int, used0: nat, schedule: seq<nat>)
    requires StepsFit(steps) && used0 + TotalCalls(steps) <= total
    requires Joined(Run(env, steps, completed, total, Start(steps, used0), schedule))
    ensures var m := Run(env, steps, completed, total, Start(steps, used0), schedule);
            && m.threads == Outcomes(env, steps, completed)
            && m.used == used0 + TotalSpent(steps, m.threads)
            && m.used <= total
  {
    hide Run, TotalSpent;
    RunKeepsCourse(env, steps, completed, total, used0, schedule);
    var m := Run(env, steps, completed, total, Start(steps, used0), schedule);
    forall i | 0 <= i < |steps| ensures m.threads[i] == Outcome(env, steps[i], completed, Fresh) {
      assert Outcome(env, steps[i], completed, m.threads[i]) == m.threads[i];
    }
    if steps != [] {
      WithinAll(env, steps, completed, used0, m);
      RoomLeft(steps, m.threads, 0);
    } else {
      assert TotalSpent(steps, m.threads) == 0 by { NothingSpent(steps, m.threads); }
    }
  }

  /** Threads cannot block one another: six turns each are enough for all to end. */
  lemma {:induction false} TurnsSuffice(env: Env, steps: seq<PlanStep>, completed: Results, total: int, used0: nat, schedule: seq<nat>, i: nat)
    requires StepsFit(steps) && used0 + TotalCalls(steps) <= total && i < |steps|
    ensures var t := Run(env, steps, completed, total, Start(steps, used0), schedule).threads[i];
            Over(t) || Rank(steps[i], t) + multiset(schedule)[i] <= Rank(steps[i], Fresh)
    ensures multiset(schedule)[i] >= 6 ==> Over(Run(env, steps, completed, total, Start(steps, used0), schedule).threads[i])
  {
    hide Outcome, Pick, TotalCalls, TotalSpent, OnCourse;
    RunKeepsCourse(env, steps, completed, total, used0, schedule);
    if schedule != [] {
      var init, k := schedule[..|schedule| - 1], schedule[|schedule| - 1];
      assert schedule == init + [k];
      TurnsSuffice(env, steps, completed, total, used0, init, i);
      RunKeepsCourse(env, steps, completed, total, used0, init);
      var before := Run(env, steps, completed, total, Start(steps, used0), init);
      if k < |steps| {
        PickKeepsCourse(env, steps, completed, total, used0, before, k);
      }
    }
  }

  // ---------------------------------------------------------------------
  // All layers
  // ---------------------------------------------------------------------

  /** The steps of a layer, in plan order. */
  function StepsIn(steps: seq<PlanStep>, ids: set<StepId>): (some: seq<PlanStep>)
    ensures forall s | s in some :: s in steps && s.id in ids
    ensures forall s | s in steps && s.id in ids :: s in some
  {
    if steps == [] then []
    else
      var last := steps[|steps| - 1];
      StepsIn(steps[..|steps| - 1], ids) + (if last.id in ids then [last] else [])
  }

  function WithResults(completed: Results, steps: seq<PlanStep>, threads: seq<Thread>): Results
    requires |steps| == |threads| && forall i | 0 <= i < |threads| :: threads[i].Done?
  {
    if steps == [] then completed
    else
      var n := |steps| - 1;
      WithResults(completed, steps[..n], threads[..n])[steps[n].id := threads[n].result]
  }

  datatype Execution = Finished(results: Results, used: nat) | Aborted

  /** What a layer's join gives: a thread that raised aborts the whole execution. */
  function Join(completed: Results, steps: seq<PlanStep>, m: Machine): Execution
    requires |steps| == |m.threads| && Joined(m)
  {
    if exists i | 0 <= i < |m.threads| :: m.threads[i].Raised? then Aborted
    else Finished(WithResults(completed, steps, m.threads), m.used)
  }

  /** Execute the layers in turn, each under its own schedule. */
  ghost function ExecuteUnder(env: Env, p: Plan, layers: seq<seq<StepId>>, schedules: seq<seq<nat>>): Option<Execution>
    requires |schedules| == |layers|
  {
    if layers == [] then Some(Finished(map[], 0))
    else
      var n := |layers| - 1;
      match ExecuteUnder(env, p, layers[..n], schedules[..n])
      case None => None
      case Some(Aborted) => Some(Aborted)
      case Some(Finished(results, used)) =>
        var steps := StepsIn(p.steps, Elements(layers[n]));
        var m := Run(env, steps, results, p.maxCalls, Start(steps, used), schedules[n]);
        if Joined(m) then Some(Join(results, steps, m)) else None
  }

  /** The same with every step alone and no budget to share. */
  ghost function ExecuteAlone(env: Env, p: Plan, layers: seq<seq<StepId>>): Execution {
    if layers == [] then Finished(map[], 0)
    else
      var n := |layers| - 1;
      match ExecuteAlone(env, p, layers[..n])
      case Aborted => Aborted
      case Finished(results, used) =>
        var steps := StepsIn(p.steps, Elements(layers[n]));
        var threads := Outcomes(env, steps, results);
        Join(results, steps, Machine(threads, used + TotalSpent(steps, threads)))
  }

  function CallsIn(steps: seq<PlanStep>, ids: set<StepId>): int {
    TotalCalls(StepsIn(steps, ids))
  }

  lemma CallsOneMore(steps: seq<PlanStep>, ids: set<StepId>)
    requires steps != []
    ensures var last := steps[|steps| - 1];
            CallsIn(steps, ids) == CallsIn(steps[..|steps| - 1], ids) + (if last.id in ids then last.maxCalls else 0)
  {
    var some, last := StepsIn(steps[..|steps| - 1], ids), steps[|steps| - 1];
    assert StepsIn(steps, ids) == some + (if last.id in ids then [last] else []);
    if last.id in ids { assert (some + [last])[..|some|] == some; } else { assert some + [] == some; }
  }

  lemma {:induction false} CallsAdd(steps: seq<PlanStep>, a: set<StepId>, b: set<StepId>)
    requires a * b == {}
    ensures CallsIn(steps, a + b) == CallsIn(steps, a) + CallsIn(steps, b)
  {
    if steps != [] {
      var last := steps[|steps| - 1];
      CallsAdd(steps[..|steps| - 1], a, b);
      CallsOneMore(steps, a);
      CallsOneMore(steps, b);
      CallsOneMore(steps, a + b);
      hide CallsIn;
      assert !(last.id in a && last.id in b) by { assert last.id in a * b <==> last.id in a && last.id in b; }
    }
  }

  lemma {:induction false} CallsAtMost(steps: seq<PlanStep>, ids: set<StepId>)
    requires StepsFit(steps)
    ensures 0 <= CallsIn(steps, ids) <= TotalCalls(steps)
  {
    if steps != [] {
      var init, last := steps[..|steps| - 1], steps[|steps| - 1];
      CallsAtMost(init, ids);
      assert StepsIn(init, ids) + [] == StepsIn(init, ids);
    }
  }

  lemma {:induction false} SomeFit(steps: seq<PlanStep>, ids: set<StepId>)
    requires StepsFit(steps)
    ensures StepsFit(StepsIn(steps, ids))
  {
    var some := StepsIn(steps, ids);
    forall i | 0 <= i < |some| ensures |some[i].corpora| <= some[i].maxCalls {
      assert some[i] in steps;
    }
  }

  lemma {:induction false} OutcomesSpend(env: Env, steps: seq<PlanStep>, completed: Results)
    requires StepsFit(steps)
    ensures TotalSpent(steps, Outcomes(env, steps, completed)) <= TotalCalls(steps)
    ensures forall i | 0 <= i < |steps| :: Within(steps[i], Outcomes(env, steps, completed)[i])
  {
    var threads := Outcomes(env, steps, completed);
    forall i | 0 <= i < |steps| ensures Within(steps[i], threads[i]) { OutcomeWithin(env, steps[i], completed, Fresh); }
    hide Outcomes, Spent;
    if steps != [] { RoomLeft(steps, threads, 0); }
  }

  lemma {:induction false} OutcomeWithin(env: Env, s: PlanStep, completed: Results, t: Thread)
    requires |s.corpora| <= s.maxCalls && Within(s, t)
    ensures Within(s, Outcome(env, s, completed, t))
    decreases Rank(s, t)
  {
    if !Over(t) {
      var (t', used') := Advance(env, s, completed, s.maxCalls, t, Spent(s, t));
      AdvanceKeepsOutcome(env, s, completed, s.maxCalls, t, Spent(s, t));
      OutcomeWithin(env, s, completed, t');
    }
  }

  /** Alone, the layers so far never reserve more than their own budgets. */
  lemma {:induction false} AloneSpends(env: Env, p: Plan, layers: seq<seq<StepId>>)
    requires StepsFit(p.steps)
    requires forall i: nat | i < |layers| :: Elements(layers[i]) * Before(layers[..i]) == {}
    ensures ExecuteAlone(env, p, layers).Finished? ==> ExecuteAlone(env, p, layers).used <= CallsIn(p.steps, Before(layers))
  {
    if layers == [] {
      CallsAtMost(p.steps, {});
    } else {
      var n := |layers| - 1;
      var init := layers[..n];
      forall i: nat | i < |init| ensures Elements(init[i]) * Before(init[..i]) == {} { assert init[..i] == layers[..i]; }
      AloneSpends(env, p, init);
      if ExecuteAlone(env, p, init).Finished? {
        var ids := Elements(layers[n]);
        SomeFit(p.steps, ids);
        OutcomesSpend(env, StepsIn(p.steps, ids), ExecuteAlone(env, p, init).results);
        CallsAdd(p.steps, Before(init), ids);
      }
    }
  }

  /** Schedule independence: whatever the interleaving in each layer, execution raises
      or not, and gives the same results and budget use, as with every step alone. */
  lemma {:induction false} ScheduleIndependence(env: Env, p: Plan, layers: seq<seq<StepId>>, schedules: seq<seq<nat>>)
    requires |schedules| == |layers| && StepsFit(p.steps) && TotalCalls(p.steps) <= p.maxCalls
    requires forall i: nat | i < |layers| :: Elements(layers[i]) * Before(layers[..i]) == {}
    requires ExecuteUnder(env, p, layers, schedules).Some?
    ensures ExecuteUnder(env, p, layers, schedules).value == ExecuteAlone(env, p, layers)
  {
    hide CallsIn, Run, TotalSpent, Start, StepsIn, Outcome, TotalCalls, StepsFit, WithResults, Before;
    if layers != [] {
      var n := |layers| - 1;
      var init := layers[..n];
      forall i: nat | i < |init| ensures Elements(init[i]) * Before(init[..i]) == {} { assert init[..i] == layers[..i]; }
      ScheduleIndependence(env, p, init, schedules[..n]);
      if ExecuteAlone(env, p, init).Finished? {
        var results, used := ExecuteAlone(env, p, init).results, ExecuteAlone(env, p, init).used;
        var ids := Elements(layers[n]);
        var steps := StepsIn(p.steps, ids);
        AloneSpends(env, p, init);
        CallsAdd(p.steps, Before(init), ids);
        CallsAtMost(p.steps, Before(init) + ids);
        SomeFit(p.steps, ids);
        CallsAre(p.steps, ids);
        AnyScheduleSameOutcome(env, steps, results, p.maxCalls, used, schedules[n]);
      }
    }
  }

  lemma {:induction false} CallsAre(steps: seq<PlanStep>, ids: set<StepId>)
    ensures CallsIn(steps, ids) == TotalCalls(StepsIn(steps, ids))
  {
  }

  // ---------------------------------------------------------------------
  // What the results are
  // ---------------------------------------------------------------------

  lemma StepsInIds(steps: seq<PlanStep>, ids: set<StepId>)
    requires DistinctIds(steps)
    ensures Ids(StepsIn(steps, ids)) == ids * Ids(steps) && DistinctIds(StepsIn(steps, ids))
  {
    StepsInDistinct(steps, ids);
    var some := StepsIn(steps, ids);
    forall x | x in ids * Ids(steps) ensures x in Ids(some) {
      var k :| 0 <= k < |steps| && steps[k].id == x;
      assert steps[k] in some;
    }
    forall x | x in Ids(some) ensures x in ids * Ids(steps) {
      var k :| 0 <= k < |some| && some[k].id == x;
      assert some[k] in some && some[k] in steps;
    }
  }

  lemma {:induction false} StepsInDistinct(steps: seq<PlanStep>, ids: set<StepId>)
    requires DistinctIds(steps)
    ensures DistinctIds(StepsIn(steps, ids))
  {
    if steps != [] {
      var n := |steps| - 1;
      StepsInDistinct(steps[..n], ids);
      var some := StepsIn(steps[..n], ids);
      forall i | 0 <= i < |some| ensures some[i].id != steps[n].id {
        assert some[i] in steps[..n];
        var k :| 0 <= k < n && steps[..n][k] == some[i];
        assert steps[k].id != steps[n].id;
      }
    }
  }

  lemma {:induction false} WithResultsAre(completed: Results, steps: seq<PlanStep>, threads: seq<Thread>)
    requires |steps| == |threads| && (forall i | 0 <= i < |threads| :: threads[i].Done?) && DistinctIds(steps)
    ensures var r := WithResults(completed, steps, threads);
            && r.Keys == completed.Keys + Ids(steps)
            && (forall i | 0 <= i < |steps| :: steps[i].id in r && r[steps[i].id] == threads[i].result)
            && (forall id | id in completed && id !in Ids(steps) :: r[id] == completed[id])
  {
    if steps != [] {
      var n := |steps| - 1;
      assert steps == steps[..n + 1];
      IdsAppend(steps, n);
      WithResultsAre(completed, steps[..n], threads[..n]);
      var before := WithResults(completed, steps[..n], threads[..n]);
      Apart(steps, n);
      forall i | 0 <= i < n ensures steps[i].id in before && before[steps[i].id] == threads[i].result {
        assert steps[..n][i] == steps[i] && threads[..n][i] == threads[i];
      }
    }
  }

  /** Layers of disjoint steps of this plan. */
  ghost predicate Apartness(p: Plan, layers: seq<seq<StepId>>) {
    && DistinctIds(p.steps)
    && forall i: nat | i < |layers| :: Elements(layers[i]) * Before(layers[..i]) == {} && Elements(layers[i]) <= Ids(p.steps)
  }

  lemma {:induction false} ApartInit(p: Plan, layers: seq<seq<StepId>>)
    requires Apartness(p, layers) && layers != []
    ensures Apartness(p, layers[..|layers| - 1])
  {
    var init := layers[..|layers| - 1];
    forall i: nat | i < |init| ensures Elements(init[i]) * Before(init[..i]) == {} && Elements(init[i]) <= Ids(p.steps) {
      assert init[..i] == layers[..i];
    }
  }

  /** One more layer adds the outcomes of its steps on the results so far, and changes none of those. */
  lemma {:induction false} LayerResults(env: Env, p: Plan, layers: seq<seq<StepId>>)
    requires Apartness(p, layers) && layers != [] && ExecuteAlone(env, p, layers).Finished?
    ensures var n := |layers| - 1;
            var before := ExecuteAlone(env, p, layers[..n]);
            var r := ExecuteAlone(env, p, layers).results;
            && before.Finished?
            && r.Keys == before.results.Keys + Elements(layers[n])
            && (forall s | s in p.steps && s.id in layers[n] ::
                  s.id in r && Outcome(env, s, before.results, Fresh) == Done(r[s.id]))
            && (forall id | id in before.results && id !in Elements(layers[n]) :: r[id] == before.results[id])
  {
    hide TotalSpent, Outcome, Ids, DistinctIds;
    var n := |layers| - 1;
    var before := ExecuteAlone(env, p, layers[..n]);
    var ids := Elements(layers[n]);
    var steps := StepsIn(p.steps, ids);
    StepsInIds(p.steps, ids);
    assert ids * Ids(p.steps) == ids;
    var threads := Outcomes(env, steps, before.results);
    assert forall i | 0 <= i < |threads| :: threads[i].Done?;
    WithResultsAre(before.results, steps, threads);
    forall s | s in p.steps && s.id in layers[n]
      ensures var r := ExecuteAlone(env, p, layers).results;
              s.id in r && Outcome(env, s, before.results, Fresh) == Done(r[s.id])
    {
      assert s in steps;
      var i :| 0 <= i < |steps| && steps[i] == s;
      assert threads[i] == Outcome(env, steps[i], before.results, Fresh);
    }
  }

  lemma {:induction false} ResultKeys(env: Env, p: Plan, layers: seq<seq<StepId>>)
    requires Apartness(p, layers) && ExecuteAlone(env, p, layers).Finished?
    ensures ExecuteAlone(env, p, layers).results.Keys == Before(layers)
  {
    hide Outcome, TotalSpent, Outcomes, StepsIn;
    if layers != [] {
      ApartInit(p, layers);
      LayerResults(env, p, layers);
      ResultKeys(env, p, layers[..|layers| - 1]);
    }
  }

  /** Every result is the outcome of its step on the final results of earlier layers. */
  lemma {:induction false} ResultIsOutcome(env: Env, p: Plan, layers: seq<seq<StepId>>, i: nat, s: PlanStep) returns (before: Results)
    requires Apartness(p, layers) && ExecuteAlone(env, p, layers).Finished?
    requires i < |layers| && s in p.steps && s.id in layers[i]
    ensures var r := ExecuteAlone(env, p, layers).results;
            && s.id in r && Outcome(env, s, before, Fresh) == Done(r[s.id])
            && before.Keys == Before(layers[..i]) && (forall id | id in before :: id in r && r[id] == before[id])
    decreases |layers|
  {
    hide Outcome, TotalSpent, Outcomes, StepsIn, ExecuteAlone, Ids;
    var n := |layers| - 1;
    var init := layers[..n];
    ApartInit(p, layers);
    LayerResults(env, p, layers);
    ResultKeys(env, p, init);
    if i == n {
      before := ExecuteAlone(env, p, init).results;
      assert forall id | id in before :: id !in Elements(layers[n]) by {
        assert Elements(layers[n]) * Before(layers[..n]) == {};
        ApartSets(Elements(layers[n]), Before(layers[..n]));
      }
    } else {
      assert init[i] == layers[i] && init[..i] == layers[..i];
      before := ResultIsOutcome(env, p, init, i, s);
      ApartSets(Elements(layers[n]), Before(layers[..n]));
    }
  }

  lemma {:induction false} ApartSets<T>(a: set<T>, b: set<T>)
    requires a * b == {}
    ensures forall x | x in b :: x !in a
  {
    forall x | x in b ensures x !in a { assert x in a * b <==> x in a; }
  }

  lemma {:induction false} PlaceOf(layers: seq<seq<StepId>>, id: StepId) returns (i: nat)
    requires id in Before(layers)
    ensures i < |layers| && id in layers[i]
  {
    if id in layers[|layers| - 1] { i := |layers| - 1; }
    else { i := PlaceOf(layers[..|layers| - 1], id); }
  }

  lemma {:induction false} AloneNeverExhausted(env: Env, p: Plan, layers: seq<seq<StepId>>, id: StepId)
    requires StepsFit(p.steps) && Apartness(p, layers) && ExecuteAlone(env, p, layers).Finished?
    requires id in ExecuteAlone(env, p, layers).results
    ensures ExecuteAlone(env, p, layers).results[id].status != BudgetExhausted
  {
    hide Outcome, ExecuteAlone;
    ResultKeys(env, p, layers);
    var i := PlaceOf(layers, id);
    assert id in Elements(layers[i]);
    var k :| 0 <= k < |p.steps| && p.steps[k].id == id;
    var before := ResultIsOutcome(env, p, layers, i, p.steps[k]);
    OutcomeWithin(env, p.steps[k], before, Fresh);
  }

  lemma {:induction false} UnmetMeansIdle(env: Env, s: PlanStep, completed: Results, result: StepResult)
    requires !HardDepsMet(s, completed) && Outcome(env, s, completed, Fresh) == Done(result)
    ensures result.status != Succeeded && result.consumed == 0
  {
  }

  /** A chain of hard dependencies from its first step to its last. */
  ghost predicate HardChain(p: Plan, chain: seq<PlanStep>) {
    && (forall i | 0 <= i < |chain| :: chain[i] in p.steps)
    && (forall i | 0 < i < |chain| :: chain[i - 1].id in chain[i].hard)
  }

  lemma {:induction false} AloneIdles(env: Env, p: Plan, layers: seq<seq<StepId>>, chain: seq<PlanStep>)
    requires Layered(p.steps, layers) && Apartness(p, layers) && ExecuteAlone(env, p, layers).Finished?
    requires HardChain(p, chain) && |chain| >= 2
    requires var r := ExecuteAlone(env, p, layers).results; chain[0].id in r && r[chain[0].id].status != Succeeded
    ensures var r := ExecuteAlone(env, p, layers).results;
            var last := chain[|chain| - 1].id;
            last in r && r[last].status != Succeeded && r[last].consumed == 0
    decreases |chain|
  {
    hide Outcome, ExecuteAlone, LayerFits, HardDepsMet;
    var n := |chain| - 1;
    var s, u := chain[n], chain[n - 1];
    if n >= 2 {
      assert forall i | 0 <= i < n :: chain[..n][i] == chain[i];
      AloneIdles(env, p, layers, chain[..n]);
    }
    var k :| 0 <= k < |p.steps| && p.steps[k] == s;
    var i := PlaceOf(layers, s.id);
    var before := ResultIsOutcome(env, p, layers, i, s);
    DepsPlacedBefore(p, layers, i, k);
    assert u.id in before;
    assert !HardDepsMet(s, before) by { NotMet(s, before, u.id); }
    UnmetMeansIdle(env, s, before, ExecuteAlone(env, p, layers).results[s.id]);
  }

  lemma {:induction false} NotMet(s: PlanStep, completed: Results, d: StepId)
    requires d in s.hard && (d in completed ==> completed[d].status != Succeeded)
    ensures !HardDepsMet(s, completed)
  {
  }

  lemma {:induction false} DepsPlacedBefore(p: Plan, layers: seq<seq<StepId>>, i: nat, k: nat)
    requires Layered(p.steps, layers) && i < |layers| && k < |p.steps| && p.steps[k].id in layers[i]
    ensures forall d | d in p.steps[k].hard :: d in Before(layers[..i])
  {
    assert LayerFits(p.steps, layers, i);
    assert forall d | d in p.steps[k].hard :: d in Deps(p.steps[k]);
  }

  // ---------------------------------------------------------------------
  // Accounting
  // ---------------------------------------------------------------------

  function ConsumedIn(steps: seq<PlanStep>, results: Results): nat {
    if steps == [] then 0
    else
      var last := steps[|steps| - 1].id;
      ConsumedIn(steps[..|steps| - 1], results) + (if last in results then results[last].consumed else 0)
  }

  /** The results of some steps are what their threads report. */
  ghost predicate Reported(some: seq<PlanStep>, r: Results, threads: seq<Thread>) {
    && |threads| == |some|
    && forall i | 0 <= i < |threads| :: threads[i].Done? && some[i].id in r && r[some[i].id] == threads[i].result
  }

  lemma ReportedInit(some: seq<PlanStep>, last: PlanStep, r: Results, threads: seq<Thread>)
    requires Reported(some + [last], r, threads)
    ensures Reported(some, r, threads[..|some|])
    ensures last.id in r
    ensures TotalSpent(some + [last], threads) == TotalSpent(some, threads[..|some|]) + r[last.id].consumed
  {
    var n := |some|;
    assert (some + [last])[..n] == some && (some + [last])[n] == last;
    forall i | 0 <= i < n ensures threads[i].Done? && some[i].id in r && r[some[i].id] == threads[i].result {
      assert (some + [last])[i] == some[i];
    }
  }

  lemma {:induction false} ConsumedGrows(steps: seq<PlanStep>, ids: set<StepId>, r: Results, r': Results, threads: seq<Thread>)
    requires Reported(StepsIn(steps, ids), r', threads)
    requires forall id | id in ids :: id !in r
    requires forall id | id !in ids :: (id in r <==> id in r') && (id in r ==> r'[id] == r[id])
    ensures ConsumedIn(steps, r') == ConsumedIn(steps, r) + TotalSpent(StepsIn(steps, ids), threads)
  {
    if steps != [] {
      var init, last := steps[..|steps| - 1], steps[|steps| - 1];
      var some := StepsIn(init, ids);
      if last.id in ids {
        assert StepsIn(steps, ids) == some + [last];
        ReportedInit(some, last, r', threads);
        hide Reported, TotalSpent;
        ConsumedGrows(init, ids, r, r', threads[..|some|]);
      } else {
        assert StepsIn(steps, ids) == some;
        hide Reported, TotalSpent;
        ConsumedGrows(init, ids, r, r', threads);
      }
    }
  }

  lemma {:induction false} NothingConsumed(steps: seq<PlanStep>)
    ensures ConsumedIn(steps, map[]) == 0
  {
    if steps != [] { NothingConsumed(steps[..|steps| - 1]); }
  }

  lemma {:induction false} AloneAccounts(env: Env, p: Plan, layers: seq<seq<StepId>>)
    requires Apartness(p, layers) && ExecuteAlone(env, p, layers).Finished?
    ensures ExecuteAlone(env, p, layers).used == ConsumedIn(p.steps, ExecuteAlone(env, p, layers).results)
  {
    hide TotalSpent, Outcome, Ids, DistinctIds, ConsumedIn;
    NothingConsumed(p.steps);
    if layers != [] {
      var n := |layers| - 1;
      ApartInit(p, layers);
      var before := ExecuteAlone(env, p, layers[..n]);
      LayerResults(env, p, layers);
      AloneAccounts(env, p, layers[..n]);
      ResultKeys(env, p, layers[..n]);
      var ids := Elements(layers[n]);
      var steps := StepsIn(p.steps, ids);
      var threads := Outcomes(env, steps, before.results);
      var r := ExecuteAlone(env, p, layers).results;
      forall id | id in ids ensures id !in before.results {
        assert id in ids * Before(layers[..n]) <==> id in Before(layers[..n]);
      }
      forall i | 0 <= i < |threads|
        ensures threads[i].Done? && steps[i].id in r && r[steps[i].id] == threads[i].result
      {
        assert steps[i] in steps && steps[i].id in ids && steps[i].id in layers[n];
      }
      ConsumedGrows(p.steps, ids, before.results, r, threads);
    }
  }

  // ---------------------------------------------------------------------
  // The same under every schedule
  // ---------------------------------------------------------------------

  /** An accepted plan's layers, executed to the end under some schedules. */
  ghost predicate Executed(env: Env, p: Plan, layers: seq<seq<StepId>>, schedules: seq<seq<nat>>, results: Results, used: nat) {
    && StepsFit(p.steps) && TotalCalls(p.steps) <= p.maxCalls && Apartness(p, layers) && |schedules| == |layers|
    && ExecuteUnder(env, p, layers, schedules) == Some(Finished(results, used))
  }

  lemma ExecutedAlone(env: Env, p: Plan, layers: seq<seq<StepId>>, schedules: seq<seq<nat>>, results: Results, used: nat)
    requires Executed(env, p, layers, schedules, results, used)
    ensures ExecuteAlone(env, p, layers) == Finished(results, used) && Apartness(p, layers) && StepsFit(p.steps)
  {
    hide ExecuteUnder, ExecuteAlone;
    ScheduleIndependence(env, p, layers, schedules);
  }

  /** Whatever the schedules, no step of an accepted plan ever finds the shared budget exhausted. */
  lemma BudgetIsNeverExhausted(
      env: Env, p: Plan, layers: seq<seq<StepId>>, schedules: seq<seq<nat>>, results: Results, used: nat, id: StepId)
    requires Executed(env, p, layers, schedules, results, used) && id in results
    ensures results[id].status != BudgetExhausted
  {
    hide Executed, ExecuteAlone;
    ExecutedAlone(env, p, layers, schedules, results, used);
    AloneNeverExhausted(env, p, layers, id);
  }

  /** Whatever the schedules, a step with a hard ancestor that did not succeed never succeeds and consumes nothing. */
  lemma FailedAncestorIdles(
      env: Env, p: Plan, layers: seq<seq<StepId>>, schedules: seq<seq<nat>>, results: Results, used: nat, chain: seq<PlanStep>)
    requires Executed(env, p, layers, schedules, results, used) && Layered(p.steps, layers)
    requires HardChain(p, chain) && |chain| >= 2 && chain[0].id in results && results[chain[0].id].status != Succeeded
    ensures var last := chain[|chain| - 1].id;
            last in results && results[last].status != Succeeded && results[last].consumed == 0
  {
    hide Executed, ExecuteAlone;
    ExecutedAlone(env, p, layers, schedules, results, used);
    AloneIdles(env, p, layers, chain);
  }

  /** Whatever the schedules, the shared counter ends as the sum of what the steps report as consumed. */
  lemma UsedIsConsumed(env: Env, p: Plan, layers: seq<seq<StepId>>, schedules: seq<seq<nat>>, results: Results, used: nat)
    requires Executed(env, p, layers, schedules, results, used)
    ensures used == ConsumedIn(p.steps, results)
  {
    hide Executed, ExecuteAlone;
    ExecutedAlone(env, p, layers, schedules, results, used);
    AloneAccounts(env, p, layers);
  }
}
