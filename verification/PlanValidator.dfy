/** Static plan validation, and the layers an accepted plan is executed in. */
module PlanValidation {
  import opened Common
  import opened PlanGraph

  datatype PlanStep = PlanStep(
    id: StepId, hard: seq<StepId>, optional: seq<StepId>, corpora: seq<string>, maxCalls: int, hasQuery: bool, capability: string)

  datatype Plan = Plan(steps: seq<PlanStep>, maxCalls: int)

  datatype Violation =
    | DuplicateStepId(step: StepId)
    | CycleDetected
    | UnknownDependency(step: StepId, dep: StepId)
    | DuplicateDependency(step: StepId, dep: StepId)
    | CorpusNotAuthorized(step: StepId, corpus: string)
    | CapabilityNotAllowed(step: StepId)
    | StepBudgetExceedsGlobal(step: StepId)
    | TotalBudgetExceedsGlobal
    | EmptyQuery(step: StepId)
    | InvalidBinding(step: StepId)

  function Ids(steps: seq<PlanStep>): set<StepId> {
    set i | 0 <= i < |steps| :: steps[i].id
  }

  function Deps(s: PlanStep): set<StepId> {
    Elements(s.hard) + Elements(s.optional)
  }

  ghost predicate DistinctIds(steps: seq<PlanStep>) {
    forall i, j | 0 <= i < j < |steps| :: steps[i].id != steps[j].id
  }

  /** What the collaborators decide: corpus discovery, capability catalog, binding syntax. */
  datatype Rules = Rules(authorized: string -> bool, capable: string -> bool, bindingsOk: PlanStep -> bool)

  predicate DepsSound(s: PlanStep, ids: set<StepId>) {
    s.id !in Deps(s) && Deps(s) <= ids && Elements(s.hard) * Elements(s.optional) == {}
  }

  predicate StepSound(s: PlanStep, p: Plan, rules: Rules) {
    && DepsSound(s, Ids(p.steps))
    && (forall c | c in s.corpora :: rules.authorized(c))
    && rules.capable(s.capability) && s.maxCalls <= p.maxCalls && s.hasQuery && rules.bindingsOk(s)
  }

  function TotalCalls(steps: seq<PlanStep>): int {
    if steps == [] then 0 else TotalCalls(steps[..|steps| - 1]) + steps[|steps| - 1].maxCalls
  }

  /** `u` is a declared dependency of the step `v`. */
  ghost predicate DependsOn(steps: seq<PlanStep>, v: StepId, u: StepId) {
    exists i | 0 <= i < |steps| :: steps[i].id == v && u in Deps(steps[i])
  }

  ghost predicate EdgesOf(steps: seq<PlanStep>, edges: seq<Edge>) {
    forall u, v :: Edge(u, v) in edges <==> DependsOn(steps, v, u) && u in Ids(steps)
  }

  ghost predicate DependencyHop(steps: seq<PlanStep>, w: seq<StepId>, i: nat)
    requires i + 1 < |w|
  {
    w[i] in Ids(steps) && DependsOn(steps, w[i + 1], w[i])
  }

  ghost predicate DependencyCycle(steps: seq<PlanStep>, w: seq<StepId>) {
    |w| >= 2 && w[0] == w[|w| - 1] && forall i: nat | i + 1 < |w| :: DependencyHop(steps, w, i)
  }

  /** No closed walk along hard and optional dependencies. */
  ghost predicate AcyclicPlan(steps: seq<PlanStep>) {
    forall w :: !DependencyCycle(steps, w)
  }

  ghost predicate Accepted(p: Plan, rules: Rules) {
    && DistinctIds(p.steps) && AcyclicPlan(p.steps)
    && (forall i | 0 <= i < |p.steps| :: StepSound(p.steps[i], p, rules))
    && TotalCalls(p.steps) <= p.maxCalls
  }

  /** Only which edges there are decides about cycles, not how often they are listed. */
  lemma CyclicIffDependencyCycle(steps: seq<PlanStep>, edges: seq<Edge>)
    requires EdgesOf(steps, edges)
    ensures Cyclic(edges, Ids(steps)) <==> !AcyclicPlan(steps)
  {
    var ids := Ids(steps);
    forall w ensures ClosedWalk(edges, ids, w) <==> DependencyCycle(steps, w) {
      forall i: nat | i + 1 < |w| ensures Hop(edges, ids, w, i) <==> DependencyHop(steps, w, i) {
        if DependsOn(steps, w[i + 1], w[i]) { KnownStep(steps, w[i + 1], w[i]); }
      }
    }
  }

  lemma KnownStep(steps: seq<PlanStep>, v: StepId, u: StepId)
    requires DependsOn(steps, v, u)
    ensures v in Ids(steps)
  {
  }

  method BuildEdges(steps: seq<PlanStep>) returns (edges: seq<Edge>)
    ensures EdgesOf(steps, edges)
  {
    var ids := Ids(steps);
    edges := [];
    for i := 0 to |steps|
      invariant forall u, v :: Edge(u, v) in edges <==> DependsOn(steps[..i], v, u) && u in ids
    {
      var step := steps[i];
      var hard := EdgesInto(step.id, step.hard, ids);
      var optional := EdgesInto(step.id, step.optional, ids);
      forall u, v ensures Edge(u, v) in edges + hard + optional <==> DependsOn(steps[..i + 1], v, u) && u in ids {
        DependsOnMore(steps, i, u, v);
      }
      edges := edges + hard + optional;
    }
    assert steps[..|steps|] == steps;
  }

  lemma DependsOnMore(steps: seq<PlanStep>, i: nat, u: StepId, v: StepId)
    requires i < |steps|
    ensures DependsOn(steps[..i + 1], v, u) <==> DependsOn(steps[..i], v, u) || (steps[i].id == v && u in Deps(steps[i]))
  {
    var more := steps[..i + 1];
    assert forall j | 0 <= j < i :: more[j] == steps[..i][j];
    assert more[i] == steps[i];
  }

  method EdgesInto(down: StepId, deps: seq<StepId>, ids: set<StepId>) returns (edges: seq<Edge>)
    ensures forall u, v :: Edge(u, v) in edges <==> v == down && u in deps && u in ids
  {
    edges := [];
    for i := 0 to |deps|
      invariant forall u, v :: Edge(u, v) in edges <==> v == down && u in deps[..i] && u in ids
    {
      if deps[i] in ids {
        edges := edges + [Edge(deps[i], down)];
      }
      assert deps[..i + 1] == deps[..i] + [deps[i]];
    }
    assert deps[..|deps|] == deps;
  }

  // ---------------------------------------------------------------------
  // Collect-all validation
  // ---------------------------------------------------------------------

  method CheckDuplicates(steps: seq<PlanStep>) returns (found: seq<Violation>)
    ensures found == [] <==> DistinctIds(steps)
    ensures forall v | v in found :: v.DuplicateStepId?
  {
    found := [];
    var seen: set<StepId> := {};
    for i := 0 to |steps|
      invariant seen == Ids(steps[..i])
      invariant found == [] <==> DistinctIds(steps[..i])
      invariant forall v | v in found :: v.DuplicateStepId?
    {
      var more := steps[..i + 1];
      assert forall j | 0 <= j < i :: more[j] == steps[..i][j];
      assert Ids(more) == Ids(steps[..i]) + {steps[i].id} by { IdsAppend(steps, i); }
      if steps[i].id in seen {
        found := found + [DuplicateStepId(steps[i].id)];
      }
      seen := seen + {steps[i].id};
    }
    assert steps[..|steps|] == steps;
  }

  lemma IdsAppend(steps: seq<PlanStep>, i: nat)
    requires i < |steps|
    ensures Ids(steps[..i + 1]) == Ids(steps[..i]) + {steps[i].id}
  {
    var more := steps[..i + 1];
    assert more[i] == steps[i] && forall j | 0 <= j < i :: more[j] == steps[..i][j];
  }

  method CheckDependencies(s: PlanStep, ids: set<StepId>) returns (found: seq<Violation>)
    ensures found == [] <==> DepsSound(s, ids)
    ensures CycleDetected in found <==> s.id in Deps(s)
  {
    var hard := CheckDependencyList(s, s.hard, ids);
    var optional := CheckDependencyList(s, s.optional, ids);
    found := hard + optional;
    var overlap := Elements(s.hard) * Elements(s.optional);
    assert forall d :: d in s.hard <==> d in Elements(s.hard);
    assert forall d :: d in s.optional <==> d in Elements(s.optional);
    ghost var lists := found;
    while overlap != {}
      invariant lists <= found && (found == [] <==> lists == [] && overlap == Elements(s.hard) * Elements(s.optional))
      invariant CycleDetected in found <==> CycleDetected in lists
      decreases overlap
    {
      var d :| d in overlap;
      overlap := overlap - {d};
      found := found + [DuplicateDependency(s.id, d)];
    }
  }

  method CheckDependencyList(s: PlanStep, deps: seq<StepId>, ids: set<StepId>) returns (found: seq<Violation>)
    ensures found == [] <==> forall d | d in deps :: d != s.id && d in ids
    ensures CycleDetected in found <==> s.id in deps
  {
    found := [];
    for i := 0 to |deps|
      invariant found == [] <==> forall d | d in deps[..i] :: d != s.id && d in ids
      invariant CycleDetected in found <==> s.id in deps[..i]
    {
      if deps[i] == s.id {
        found := found + [CycleDetected];
      } else if deps[i] !in ids {
        found := found + [UnknownDependency(s.id, deps[i])];
      }
      assert deps[..i + 1] == deps[..i] + [deps[i]];
      assert forall d :: d in deps[..i + 1] <==> d in deps[..i] || d == deps[i];
    }
    assert deps[..|deps|] == deps;
  }

  /** The per-step checks other than the dependency graph. */
  method CheckStep(s: PlanStep, p: Plan, rules: Rules) returns (found: seq<Violation>, policy: bool)
    ensures found == [] <==> (forall c | c in s.corpora :: rules.authorized(c))
                             && rules.capable(s.capability) && s.maxCalls <= p.maxCalls && s.hasQuery && rules.bindingsOk(s)
    ensures policy <==> exists c :: c in s.corpora && !rules.authorized(c)
    ensures CycleDetected !in found
  {
    found, policy := [], false;
    for i := 0 to |s.corpora|
      invariant found == [] <==> forall c | c in s.corpora[..i] :: rules.authorized(c)
      invariant policy <==> exists c :: c in s.corpora[..i] && !rules.authorized(c)
      invariant CycleDetected !in found
    {
      if !rules.authorized(s.corpora[i]) {
        policy := true;
        found := found + [CorpusNotAuthorized(s.id, s.corpora[i])];
      }
      assert s.corpora[..i + 1] == s.corpora[..i] + [s.corpora[i]];
    }
    assert s.corpora[..|s.corpora|] == s.corpora;
    if !rules.capable(s.capability) { found := found + [CapabilityNotAllowed(s.id)]; }
    if s.maxCalls > p.maxCalls { found := found + [StepBudgetExceedsGlobal(s.id)]; }
    if !s.hasQuery { found := found + [EmptyQuery(s.id)]; }
    if !rules.bindingsOk(s) { found := found + [InvalidBinding(s.id)]; }
  }

  method SumCalls(steps: seq<PlanStep>) returns (total: int)
    ensures total == TotalCalls(steps)
  {
    total := 0;
    for i := 0 to |steps|
      invariant total == TotalCalls(steps[..i])
    {
      assert steps[..i + 1][..i] == steps[..i];
      total := total + steps[i].maxCalls;
    }
    assert steps[..|steps|] == steps;
  }

  /** A plan is accepted exactly when it is acyclic and every static rule holds; a cycle
      is reported for a self-dependency, or, when ids are unique, for any cycle. */
  method Validate(p: Plan, rules: Rules) returns (violations: seq<Violation>, policyAttempt: bool)
    ensures violations == [] <==> Accepted(p, rules)
    ensures policyAttempt <==> exists i, c :: 0 <= i < |p.steps| && c in p.steps[i].corpora && !rules.authorized(c)
    ensures CycleDetected in violations <==>
            (exists i | 0 <= i < |p.steps| :: p.steps[i].id in Deps(p.steps[i]))
            || (DistinctIds(p.steps) && !AcyclicPlan(p.steps))
  {
    hide DepsSound, DistinctIds, AcyclicPlan, Deps, TotalCalls, EdgesOf, Cyclic;
    var ids := Ids(p.steps);
    var duplicates := CheckDuplicates(p.steps);
    violations, policyAttempt := duplicates, false;
    for i := 0 to |p.steps|
      invariant violations == [] <==> DistinctIds(p.steps) && forall j | 0 <= j < i :: DepsSound(p.steps[j], ids)
      invariant CycleDetected in violations <==> exists j | 0 <= j < i :: p.steps[j].id in Deps(p.steps[j])
    {
      var found := CheckDependencies(p.steps[i], ids);
      violations := violations + found;
    }
    if duplicates == [] {
      var edges := BuildEdges(p.steps);
      var cycle := HasCycle(edges, ids);
      CyclicIffDependencyCycle(p.steps, edges);
      if cycle { violations := violations + [CycleDetected]; }
    }
    ghost var graph := violations;
    for i := 0 to |p.steps|
      invariant violations == [] <==> graph == [] && forall j | 0 <= j < i :: StepSound(p.steps[j], p, rules)
      invariant policyAttempt <==> exists j, c :: 0 <= j < i && c in p.steps[j].corpora && !rules.authorized(c)
      invariant CycleDetected in violations <==> CycleDetected in graph
    {
      var found, policy := CheckStep(p.steps[i], p, rules);
      violations, policyAttempt := violations + found, policyAttempt || policy;
    }
    var total := SumCalls(p.steps);
    if total > p.maxCalls { violations := violations + [TotalBudgetExceedsGlobal]; }
  }

  // ---------------------------------------------------------------------
  // Layers
  // ---------------------------------------------------------------------

  /** The steps of the first layers. */
  ghost function Before(layers: seq<seq<StepId>>): set<StepId> {
    if layers == [] then {} else Before(layers[..|layers| - 1]) + Elements(layers[|layers| - 1])
  }

  /** Layer `i`: new steps, each once, whose dependencies are all in earlier layers,
      one of them in the layer right before. */
  ghost predicate LayerFits(steps: seq<PlanStep>, layers: seq<seq<StepId>>, i: nat)
    requires i < |layers|
  {
    && layers[i] != [] && Distinct(layers[i]) && Elements(layers[i]) * Before(layers[..i]) == {}
    && (forall k | 0 <= k < |steps| && steps[k].id in layers[i] ::
          Deps(steps[k]) <= Before(layers[..i]) && (i > 0 ==> Deps(steps[k]) * Elements(layers[i - 1]) != {}))
    && InPlanOrder(steps, layers[i])
  }

  /** The members of a layer come in the order of the plan. */
  ghost predicate InPlanOrder(steps: seq<PlanStep>, layer: seq<StepId>) {
    layer == InOrder(steps, Elements(layer))
  }

  function InOrder(steps: seq<PlanStep>, some: set<StepId>): seq<StepId> {
    if steps == [] then []
    else
      var last := steps[|steps| - 1].id;
      InOrder(steps[..|steps| - 1], some) + (if last in some then [last] else [])
  }

  ghost predicate Layered(steps: seq<PlanStep>, layers: seq<seq<StepId>>) {
    Before(layers) == Ids(steps) && forall i: nat | i < |layers| :: LayerFits(steps, layers, i)
  }

  lemma {:induction false} InOrderKeeps(steps: seq<PlanStep>, some: set<StepId>)
    requires DistinctIds(steps)
    ensures Elements(InOrder(steps, some)) == some * Ids(steps) && Distinct(InOrder(steps, some))
  {
    if steps != [] {
      var n := |steps| - 1;
      assert steps == steps[..n + 1];
      IdsAppend(steps, n);
      InOrderKeeps(steps[..n], some);
      var init, last := InOrder(steps[..n], some), steps[n].id;
      assert last !in Elements(init);
      ElementsAppend(init, last);
      assert forall i | 0 <= i < |init| :: init[i] in Elements(init);
    }
  }

  /** How many distinct dependencies of a step are not yet done. */
  ghost function Left(s: PlanStep, done: set<StepId>): nat {
    |Deps(s) - done|
  }

  ghost predicate Waiting(steps: seq<PlanStep>, indeg: map<StepId, int>, done: set<StepId>) {
    indeg.Keys == Ids(steps) && forall i | 0 <= i < |steps| :: indeg[steps[i].id] == Left(steps[i], done)
  }

  /** The steps that become ready when `sid`, the last of their dependencies, is done. */
  ghost predicate Frees(s: PlanStep, done: set<StepId>, sid: StepId) {
    sid in Deps(s) && Deps(s) <= done + {sid}
  }

  ghost predicate Released(steps: seq<PlanStep>, k: nat, done: set<StepId>, sid: StepId, ready: set<StepId>)
    requires k <= |steps|
  {
    && ready <= Ids(steps[..k])
    && forall i | 0 <= i < k :: steps[i].id in ready <==> Frees(steps[i], done, sid)
  }

  /** The first `k` steps already count `sid` as done. */
  ghost predicate Halfway(steps: seq<PlanStep>, indeg: map<StepId, int>, done: set<StepId>, sid: StepId, k: nat) {
    && indeg.Keys == Ids(steps)
    && forall i | 0 <= i < |steps| :: indeg[steps[i].id] == Left(steps[i], if i < k then done + {sid} else done)
  }

  method Release(steps: seq<PlanStep>, indeg0: map<StepId, int>, sid: StepId, ghost done: set<StepId>)
    returns (indeg: map<StepId, int>, ready: set<StepId>)
    requires DistinctIds(steps) && Waiting(steps, indeg0, done) && sid !in done
    ensures Waiting(steps, indeg, done + {sid}) && Released(steps, |steps|, done, sid, ready)
  {
    indeg, ready := indeg0, {};
    assert Halfway(steps, indeg, done, sid, 0) && Released(steps, 0, done, sid, ready);
    for k := 0 to |steps|
      invariant Halfway(steps, indeg, done, sid, k) && Released(steps, k, done, sid, ready)
    {
      hide Deps, Left, Frees, Ids, Halfway, Released, DistinctIds;
      HalfwayNext(steps, indeg, done, sid, k);
      ReleasedNext(steps, k, done, sid, ready);
      if sid in Deps(steps[k]) {
        indeg := indeg[steps[k].id := indeg[steps[k].id] - 1];
        if indeg[steps[k].id] == 0 {
          ready := ready + {steps[k].id};
        }
      }
    }
  }

  lemma HalfwayNext(steps: seq<PlanStep>, indeg: map<StepId, int>, done: set<StepId>, sid: StepId, k: nat)
    requires DistinctIds(steps) && k < |steps| && sid !in done && Halfway(steps, indeg, done, sid, k)
    ensures steps[k].id in indeg
    ensures var indeg' := if sid in Deps(steps[k]) then indeg[steps[k].id := indeg[steps[k].id] - 1] else indeg;
            && Halfway(steps, indeg', done, sid, k + 1)
            && (Frees(steps[k], done, sid) <==> sid in Deps(steps[k]) && indeg'[steps[k].id] == 0)
  {
    hide Deps, Left, Frees;
    DoneOne(steps[k], done, sid);
    Apart(steps, k);
  }

  lemma ReleasedNext(steps: seq<PlanStep>, k: nat, done: set<StepId>, sid: StepId, ready: set<StepId>)
    requires DistinctIds(steps) && k < |steps| && Released(steps, k, done, sid, ready)
    ensures Released(steps, k + 1, done, sid, if Frees(steps[k], done, sid) then ready + {steps[k].id} else ready)
  {
    hide Frees, Deps;
    IdsAppend(steps, k);
    Apart(steps, k);
    assert steps[k].id !in ready;
  }

  lemma Apart(steps: seq<PlanStep>, k: nat)
    requires DistinctIds(steps) && k < |steps|
    ensures forall i | 0 <= i < |steps| && i != k :: steps[i].id != steps[k].id
    ensures steps[k].id in Ids(steps) && steps[k].id !in Ids(steps[..k])
  {
    assert forall i | 0 <= i < k :: steps[..k][i] == steps[i];
  }

  lemma DoneOne(s: PlanStep, done: set<StepId>, sid: StepId)
    requires sid !in done
    ensures Left(s, done + {sid}) == Left(s, done) - (if sid in Deps(s) then 1 else 0)
    ensures Frees(s, done, sid) <==> sid in Deps(s) && Left(s, done + {sid}) == 0
  {
    var deps := Deps(s);
    var left := deps - (done + {sid});
    if sid in deps { assert deps - done == left + {sid}; } else { assert deps - done == left; }
    assert deps <= done + {sid} + left;
    assert left == {} ==> deps <= done + {sid};
    assert deps <= done + {sid} ==> left == {};
  }

  /** Between layers: what is done is closed under dependencies, and `current` is
      everything else that waits for nothing. */
  ghost predicate BetweenLayers(steps: seq<PlanStep>, layers: seq<seq<StepId>>, done: set<StepId>, current: set<StepId>) {
    && done == Before(layers) && done <= Ids(steps) && current <= Ids(steps)
    && (forall i: nat | i < |layers| :: LayerFits(steps, layers, i))
    && (forall i | 0 <= i < |steps| && steps[i].id in done :: Deps(steps[i]) <= done)
    && (forall i | 0 <= i < |steps| :: steps[i].id in current <==> steps[i].id !in done && Deps(steps[i]) <= done)
    && (layers != [] ==> forall i | 0 <= i < |steps| && steps[i].id in current ::
          Deps(steps[i]) * Elements(layers[|layers| - 1]) != {})
  }

  /** The steps with a dependency among `taken` and none outside `done` and `taken`. */
  ghost predicate Ready(steps: seq<PlanStep>, done: set<StepId>, taken: set<StepId>, ready: set<StepId>) {
    && ready <= Ids(steps)
    && forall i | 0 <= i < |steps| ::
         steps[i].id in ready <==> Deps(steps[i]) * taken != {} && Deps(steps[i]) <= done + taken
  }

  lemma ReadyNext(steps: seq<PlanStep>, done: set<StepId>, taken: set<StepId>, ready: set<StepId>, sid: StepId, more: set<StepId>)
    requires Ready(steps, done, taken, ready) && sid !in done + taken
    requires Released(steps, |steps|, done + taken, sid, more)
    ensures Ready(steps, done, taken + {sid}, ready + more)
  {
    hide Ids;
    assert steps[..|steps|] == steps;
    forall i | 0 <= i < |steps|
      ensures steps[i].id in ready + more <==> Deps(steps[i]) * (taken + {sid}) != {} && Deps(steps[i]) <= done + (taken + {sid})
    {
      var deps := Deps(steps[i]);
      assert done + (taken + {sid}) == done + taken + {sid};
      assert deps * (taken + {sid}) == deps * taken + (if sid in deps then {sid} else {});
    }
  }

  method TakeLayer(steps: seq<PlanStep>, indeg0: map<StepId, int>, current: seq<StepId>, ghost done: set<StepId>)
    returns (indeg: map<StepId, int>, ready: set<StepId>)
    requires DistinctIds(steps) && Waiting(steps, indeg0, done) && Distinct(current) && Elements(current) * done == {}
    ensures Waiting(steps, indeg, done + Elements(current)) && Ready(steps, done, Elements(current), ready)
  {
    indeg, ready := indeg0, {};
    assert Elements(current[..0]) == {} && done + {} == done;
    assert Ready(steps, done, {}, ready);
    for j := 0 to |current|
      invariant Waiting(steps, indeg, done + Elements(current[..j])) && Ready(steps, done, Elements(current[..j]), ready)
    {
      hide Waiting, Ready, Released, DistinctIds;
      var sid := current[j];
      ghost var taken := Elements(current[..j]);
      assert current[..j + 1] == current[..j] + [sid];
      ElementsAppend(current[..j], sid);
      assert sid in Elements(current) && sid !in taken;
      var more: set<StepId>;
      indeg, more := Release(steps, indeg, sid, done + taken);
      ReadyNext(steps, done, taken, ready, sid, more);
      assert done + taken + {sid} == done + (taken + {sid});
      ready := ready + more;
    }
    assert current[..|current|] == current;
  }

  lemma LayerTaken(steps: seq<PlanStep>, layers: seq<seq<StepId>>, done: set<StepId>, current: set<StepId>, ready: set<StepId>)
    requires DistinctIds(steps) && BetweenLayers(steps, layers, done, current) && current != {}
    requires Ready(steps, done, current, ready)
    ensures BetweenLayers(steps, layers + [InOrder(steps, current)], done + current, ready)
  {
    hide LayerFits, InOrder, Ids;
    var layer := InOrder(steps, current);
    var layers' := layers + [layer];
    InOrderKeeps(steps, current);
    assert Elements(layer) == current;
    assert layers'[..|layers|] == layers;
    forall i: nat | i < |layers'| ensures LayerFits(steps, layers', i) {
      if i < |layers| { FitsStill(steps, layers, layer, i); } else { NewLayerFits(steps, layers, done, current); }
    }
    forall i | 0 <= i < |steps|
      ensures steps[i].id in ready <==> steps[i].id !in done + current && Deps(steps[i]) <= done + current
    {
      CurrentIsNew(steps, layers, done, current);
      var deps := Deps(steps[i]);
      assert deps <= done ==> deps * current == {};
      assert deps == deps * current + (deps - current);
      assert deps <= done + current ==> deps - current <= done;
      assert deps <= done + current && deps * current == {} ==> deps <= done;
    }
  }

  lemma CurrentIsNew(steps: seq<PlanStep>, layers: seq<seq<StepId>>, done: set<StepId>, current: set<StepId>)
    requires BetweenLayers(steps, layers, done, current)
    ensures current * done == {} && current <= Ids(steps) && done <= Ids(steps)
  {
    forall v | v in current ensures v !in done {
      var i :| 0 <= i < |steps| && steps[i].id == v;
    }
  }

  lemma FitsStill(steps: seq<PlanStep>, layers: seq<seq<StepId>>, layer: seq<StepId>, i: nat)
    requires i < |layers| && LayerFits(steps, layers, i)
    ensures LayerFits(steps, layers + [layer], i)
  {
    hide Before, InPlanOrder;
    assert (layers + [layer])[..i] == layers[..i];
  }

  lemma NewLayerFits(steps: seq<PlanStep>, layers: seq<seq<StepId>>, done: set<StepId>, current: set<StepId>)
    requires DistinctIds(steps) && BetweenLayers(steps, layers, done, current) && current != {}
    ensures LayerFits(steps, layers + [InOrder(steps, current)], |layers|)
  {
    hide InOrder;
    var layer := InOrder(steps, current);
    var layers' := layers + [layer];
    InOrderKeeps(steps, current);
    CurrentIsNew(steps, layers, done, current);
    assert layers'[..|layers|] == layers;
    assert Elements(layer) == current;
    assert forall v :: v in layer <==> v in Elements(layer);
  }

  lemma {:induction false} SomeEdges(steps: seq<PlanStep>, ids: set<StepId>, n: nat) returns (edges: seq<Edge>)
    requires n <= |steps|
    ensures forall u, v :: Edge(u, v) in edges <==> DependsOn(steps[..n], v, u) && u in ids
  {
    if n == 0 {
      edges := [];
    } else {
      edges := SomeEdges(steps, ids, n - 1);
      var more := EdgesTo(steps[n - 1].id, Deps(steps[n - 1]) * ids);
      forall u, v ensures Edge(u, v) in edges + more <==> DependsOn(steps[..n], v, u) && u in ids {
        DependsOnMore(steps, n - 1, u, v);
      }
      edges := edges + more;
    }
  }

  lemma {:induction false} EdgesTo(down: StepId, deps: set<StepId>) returns (edges: seq<Edge>)
    ensures forall u, v :: Edge(u, v) in edges <==> v == down && u in deps
  {
    edges := [];
    if d :| d in deps {
      edges := EdgesTo(down, deps - {d});
      edges := edges + [Edge(d, down)];
    }
  }

  /** In an acyclic plan whatever is not done has something that waits for nothing else. */
  lemma NoneStuck(steps: seq<PlanStep>, layers: seq<seq<StepId>>, done: set<StepId>)
    requires BetweenLayers(steps, layers, done, {}) && AcyclicPlan(steps)
    requires forall i | 0 <= i < |steps| :: Deps(steps[i]) <= Ids(steps)
    ensures done == Ids(steps)
  {
    var ids := Ids(steps);
    var edges := SomeEdges(steps, ids, |steps|);
    assert steps[..|steps|] == steps;
    assert EdgesOf(steps, edges);
    CyclicIffDependencyCycle(steps, edges);
    var rest := ids - done;
    forall v | v in rest ensures HasPredecessor(edges, ids, rest, v) {
      var i :| 0 <= i < |steps| && steps[i].id == v;
      var u :| u in Deps(steps[i]) && u !in done;
      assert DependsOn(steps, v, u);
      assert Links(edges, ids, u, v);
    }
    if rest != {} { RootlessIsCyclic(edges, ids, rest); }
    assert ids == done + rest;
  }

  /** Terminates and places every step of an accepted plan exactly once, behind all
      its dependencies and right behind one of them. */
  method BuildLayers(steps: seq<PlanStep>) returns (layers: seq<seq<StepId>>)
    requires DistinctIds(steps) && AcyclicPlan(steps) && forall i | 0 <= i < |steps| :: Deps(steps[i]) <= Ids(steps)
    ensures Layered(steps, layers)
  {
    hide Waiting, InOrder, Before, LayerFits, DistinctIds, AcyclicPlan, Ready, BetweenLayers, Deps, Layered, Ids;
    var indeg: map<StepId, int> := InDegrees(steps);
    WaitingKeys(steps, indeg, {});
    var sources := set i | 0 <= i < |steps| && indeg[steps[i].id] == 0 :: steps[i].id;
    layers := [];
    ghost var done: set<StepId> := {};
    AtFirst(steps, indeg, sources);
    ghost var ready := sources;
    var current := InOrder(steps, sources);
    while current != []
      invariant Waiting(steps, indeg, done) && BetweenLayers(steps, layers, done, ready) && current == InOrder(steps, ready)
      decreases Ids(steps) - done
    {
      InOrderKeeps(steps, ready);
      CurrentIsNew(steps, layers, done, ready);
      assert ready * Ids(steps) == ready;
      assert Elements(current) == ready;
      assert current[0] in ready;
      layers := layers + [current];
      var next: set<StepId>;
      indeg, next := TakeLayer(steps, indeg, current, done);
      LayerTaken(steps, layers[..|layers| - 1], done, ready, next);
      assert layers[..|layers| - 1] + [current] == layers;
      done := done + ready;
      ready := next;
      current := InOrder(steps, next);
    }
    InOrderKeeps(steps, ready);
    CurrentIsNew(steps, layers, done, ready);
    assert ready * Ids(steps) == ready && Elements(current) == {};
    assert ready == {};
    NoneStuck(steps, layers, done);
    LayeredAtLast(steps, layers, done);
  }

  lemma WaitingKeys(steps: seq<PlanStep>, indeg: map<StepId, int>, done: set<StepId>)
    requires Waiting(steps, indeg, done)
    ensures forall i | 0 <= i < |steps| :: steps[i].id in indeg
  {
  }

  lemma LayeredAtLast(steps: seq<PlanStep>, layers: seq<seq<StepId>>, done: set<StepId>)
    requires BetweenLayers(steps, layers, done, {}) && done == Ids(steps)
    ensures Layered(steps, layers)
  {
  }

  lemma AtFirst(steps: seq<PlanStep>, indeg: map<StepId, int>, sources: set<StepId>)
    requires DistinctIds(steps) && Waiting(steps, indeg, {})
    requires sources == set i | 0 <= i < |steps| && indeg[steps[i].id] == 0 :: steps[i].id
    ensures BetweenLayers(steps, [], {}, sources)
  {
    forall i | 0 <= i < |steps| ensures steps[i].id in sources <==> Deps(steps[i]) <= {} {
      assert Deps(steps[i]) - {} == Deps(steps[i]);
      assert indeg[steps[i].id] == Left(steps[i], {});
    }
  }

  method InDegrees(steps: seq<PlanStep>) returns (indeg: map<StepId, int>)
    requires DistinctIds(steps)
    ensures Waiting(steps, indeg, {})
  {
    indeg := map[];
    for k := 0 to |steps|
      invariant indeg.Keys == Ids(steps[..k])
      invariant forall i | 0 <= i < k :: steps[i].id in indeg && indeg[steps[i].id] == Left(steps[i], {})
    {
      IdsAppend(steps, k);
      Apart(steps, k);
      assert Deps(steps[k]) - {} == Deps(steps[k]);
      indeg := indeg[steps[k].id := |Deps(steps[k])|];
    }
    assert steps[..|steps|] == steps;
  }
}
