/** The parent store lives in process memory. Ingestion reads and writes its own parents
    only, so a run beside foreign parents is the run without them. */
module LostParents {
  import opened Common
  import opened Policy
  import opened ControlPlane
  import opened Lifecycle
  import opened DataPlane
  import opened Stores
  import opened Ingestion
  import opened PlaneWrites
  import opened IngestionProgress

  /** The process ends: points and tables are persisted, parents are not. */
  function ParentsLost(w: World): World {
    w.(parents := map[])
  }

  /** Without the parents of other builds. */
  ghost function OwnOnly(w: World, q: Request): World {
    w.(parents := OwnPart(w.parents, q))
  }

  ghost function OwnPart(parents: map<ChunkId, Parent>, q: Request): map<ChunkId, Parent> {
    map id | id in parents && id in ParentIds(q) :: parents[id]
  }

  ghost predicate PutsOwn(q: Request, op: Op) {
    op.PutParent? ==> op.id in ParentIds(q)
  }

  lemma EffectOwnOnly(w: World, q: Request, op: Op)
    requires PutsOwn(q, op)
    ensures Effect(OwnOnly(w, q), q, op) == OwnOnly(Effect(w, q, op), q)
    ensures Admits(OwnOnly(w, q), q, op) <==> Admits(w, q, op)
  {
    hide Apply, CommitActive, OwnsBuild, WithStatus;
    if op.CheckPlanes? { CompleteOwnOnly(w, q); }
    hide PlanesComplete;
  }

  lemma CompleteOwnOnly(w: World, q: Request)
    ensures PlanesComplete(OwnOnly(w, q), q) <==> PlanesComplete(w, q)
  {
    assert forall i | 0 <= i < |q.parents| :: q.parents[i].id in ParentIds(q);
    hide ParentIds;
  }

  ghost function OwnOutcome(r: Outcome, q: Request): Outcome {
    r.(world := OwnOnly(r.world, q))
  }

  lemma {:induction false} RunOwnOnly(w: World, q: Request, ops: seq<Op>, budget: Option<nat>, switched: bool)
    requires forall op | op in ops :: PutsOwn(q, op)
    ensures RunOps(OwnOnly(w, q), q, ops, budget, switched) == OwnOutcome(RunOps(w, q, ops, budget, switched), q)
    decreases |ops|
  {
    hide Effect, Admits, OwnOnly, PutsOwn;
    if ops != [] && budget != Some(0) {
      EffectOwnOnly(w, q, ops[0]);
      if Admits(w, q, ops[0]) { RunOwnOnly(Effect(w, q, ops[0]), q, ops[1..], Spend(budget), switched || ops[0].SwitchVersion?); }
    }
  }

  lemma StepsPutOwn(w: World, q: Request, g: nat, step: Step)
    ensures forall op | op in StepOps(w, q, g, step) + [Control(DoMarkStep(q.job, step))] :: PutsOwn(q, op)
    ensures StepOps(OwnOnly(w, q), q, g, step) == StepOps(w, q, g, step)
  {
    hide ReplacedIds, Enumerate;
    assert forall op | op in PublishOps(w, q, g) :: !op.PutParent?;
  }

  lemma {:induction false} StepsOwnOnly(w: World, q: Request, g: nat, i: nat, budget: Option<nat>, switched: bool)
    requires i <= |Steps|
    ensures RunSteps(OwnOnly(w, q), q, g, i, budget, switched) == OwnOutcome(RunSteps(w, q, g, i, budget, switched), q)
    decreases |Steps| - i
  {
    hide StepOps, RunOps, PutsOwn, OwnPart;
    if i < |Steps| {
      if (q.job, Steps[i]) in w.meta.steps {
        StepsOwnOnly(w, q, g, i + 1, budget, switched);
      } else {
        var ops := StepOps(w, q, g, Steps[i]) + [Control(DoMarkStep(q.job, Steps[i]))];
        StepsPutOwn(w, q, g, Steps[i]);
        RunOwnOnly(w, q, ops, budget, switched);
        var r := RunOps(w, q, ops, budget, switched);
        if r.Completed? { StepsOwnOnly(r.world, q, g, i + 1, r.budget, r.switched); }
      }
    }
  }

  lemma FailureOwnOnly(w: World, q: Request, g: nat, switched: bool, budget: Option<nat>)
    ensures var (a, b) := (FailurePath(OwnOnly(w, q), q, g, switched, budget), FailurePath(w, q, g, switched, budget));
            a == (OwnOnly(b.0, q), b.1)
  {
    var ops := FailureOps(w, q, g, switched);
    assert forall op | op in ops :: PutsOwn(q, op);
    assert FailureOps(OwnOnly(w, q), q, g, switched) == ops;
    hide FailureOps, RunOps, OwnPart;
    RunOwnOnly(w, q, ops, budget, switched);
  }

  lemma StopOwnOnly(w: World, q: Request, g: nat, switched: bool, cutting: Cutting)
    ensures var (a, b) := (Stopped(OwnOnly(w, q), q, g, switched, cutting), Stopped(w, q, g, switched, cutting));
            a == (OwnOnly(b.0, q), b.1)
  {
    hide FailurePath, OwnPart;
    if cutting.Fault? { FailureOwnOnly(w, q, g, switched, cutting.recovery); }
  }

  lemma HeldOwnOnly(w: World, q: Request, g: nat, budget: Option<nat>, cutting: Cutting, switched: bool)
    ensures var (a, b) := (RunHeld(OwnOnly(w, q), q, g, budget, cutting, switched), RunHeld(w, q, g, budget, cutting, switched));
            a == (OwnOnly(b.0, q), b.1)
  {
    hide FailurePath, RunSteps, Stopped, OwnPart;
    StepsOwnOnly(w, q, g, 1, budget, switched);
    var r := RunSteps(w, q, g, 1, budget, switched);
    if r.Cut? { StopOwnOnly(r.world, q, g, r.switched, cutting); }
    if r.Raised? { FailureOwnOnly(r.world, q, g, r.switched, r.budget); }
  }

  /** An attempt, however cut, does the same with and without the parents of other builds. */
  lemma AttemptOwnOnly(w: World, q: Request, attempt: string, recover: bool, budget: Option<nat>, cutting: Cutting)
    ensures var (a, b) := (Attempt(OwnOnly(w, q), q, attempt, recover, budget, cutting),
                           Attempt(w, q, attempt, recover, budget, cutting));
            a == (OwnOnly(b.0, q), b.1)
  {
    hide Stopped, RunHeld, AcquireJob, MarkStep, MarkTerminal, OwnOnly, Enter;
    OwnOnlyMeta(w, q);
    SameEntry(w, q);
    StopOwnOnly(w, q, 0, false, cutting);
    var (m, o) := AcquireJob(w.meta, AcquireFor(w, q, attempt, recover));
    StopOwnOnly(w.(meta := m), q, 0, false, cutting);
    if o.Acquired? && budget != Some(0) && Spend(budget) != Some(0) {
      HeldOwnOnly(w.(meta := MarkStep(m, q.job, Acquire)), q, o.generation, Spend(Spend(budget)), cutting, false);
    }
  }

  lemma OwnOnlyMeta(w: World, q: Request)
    ensures OwnOnly(w, q).meta == w.meta
    ensures forall m: State :: OwnOnly(w.(meta := m), q) == OwnOnly(w, q).(meta := m)
  {
  }

  lemma SameEntry(w: World, q: Request)
    ensures Enter(OwnOnly(w, q), q) == Enter(w, q)
  {
  }
}
