/** What a round of the answer loop asks for, what it shows the judge, and what a run's answer rests on. */
module IterationLaws {
  import opened Common
  import opened Iteration
  import opened Resumption

  // ---------------------------------------------------------------------
  // What the judge is shown
  // ---------------------------------------------------------------------

  /** Selecting goes item by item and keeps the order. */
  lemma {:induction false} SelectedConcat(a: seq<Snapshot>, b: seq<Snapshot>, e: Snapshot, ids: set<string>)
    ensures Selected(a + b, ids) == Selected(a, ids) + Selected(b, ids)
    ensures Selected([e], ids) == if e.id in ids then [e] else []
    decreases |b|
  {
    if b == [] {
      assert a + b == a;
    } else {
      var init, last := b[..|b| - 1], b[|b| - 1];
      SelectedConcat(a, init, e, ids);
      assert (a + b)[..|a + b| - 1] == a + init && (a + b)[|a + b| - 1] == last;
    }
    assert [e][..0] == [];
  }

  /** What the conflict stage keeps of some evidence. */
  function Kept(env: Env, evidence: seq<Snapshot>): seq<Snapshot> {
    Selected(evidence, env.stage(evidence).kept)
  }

  /** A round depends on the judge only through its verdict on what the stage keeps: a judge that differs on
      anything else, dropped evidence included, gives the same round. */
  lemma JudgeSeesKept(
      env: Env, judge: seq<Snapshot> -> Option<Coverage>, s: State, round: nat, noGain: nat, newIds: set<string>, newContent: bool)
    requires judge(Kept(env, s.evidence)) == env.judge(Kept(env, s.evidence))
    ensures Assess(env.(judge := judge), s, round, noGain, newIds, newContent) == Assess(env, s, round, noGain, newIds, newContent)
  {
    hide Selected, Decide;
  }

  ghost predicate AgreesOnKept(env: Env, judge: seq<Snapshot> -> Option<Coverage>) {
    forall evs :: judge(Kept(env, evs)) == env.judge(Kept(env, evs))
  }

  lemma RoundSeesKept(env: Env, judge: seq<Snapshot> -> Option<Coverage>, s: State, round: nat, noGain: nat)
    requires AgreesOnKept(env, judge) && (round > 0 ==> s.coverage.Some?)
    ensures RunRound(env.(judge := judge), s, round, noGain) == RunRound(env, s, round, noGain)
  {
    hide Assess, TakeIn, PlanQueries, Kept;
    var begun := s.(gapRounds := round + 1);
    if round == 0 {
      JudgeSeesKept(env, judge, begun, round, noGain, IdsOf(s.evidence), false);
    } else {
      var pending := PlanQueries(s.coverage.value.facts, Elements(s.prior));
      if pending != [] && env.retrieve(pending[0], round).Some? {
        var intake := TakeIn(begun.(calls := s.calls + 1), env.retrieve(pending[0], round).value);
        JudgeSeesKept(env, judge, intake.state.(prior := s.prior + [pending[0]]), round, noGain, intake.newIds, intake.newContent);
      }
    }
  }

  /** So do whole runs. */
  lemma {:induction false} RunSeesKept(env: Env, judge: seq<Snapshot> -> Option<Coverage>, s: State, round: nat, noGain: nat)
    requires AgreesOnKept(env, judge) && (round > 0 ==> s.coverage.Some?)
    ensures RunLoop(env.(judge := judge), s, round, noGain) == RunLoop(env, s, round, noGain)
    decreases env.maxRounds - round
  {
    hide RunRound, Kept, AgreesOnKept;
    if round < env.maxRounds {
      RoundSeesKept(env, judge, s, round, noGain);
      var (step, s', n) := RunRound(env, s, round, noGain);
      if step == Continue && s'.coverage.Some? { RunSeesKept(env, judge, s', round + 1, n); }
    }
  }

  // ---------------------------------------------------------------------
  // What a verdict rests on
  // ---------------------------------------------------------------------

  /** The coverage is the judge's verdict on what the stage keeps of the evidence, or the conflict verdict. */
  ghost predicate Judged(env: Env, s: State) {
    && s.report == Some(env.stage(s.evidence)) && s.finalEvidence == Kept(env, s.evidence) && s.finalEvidence != []
    && s.conflictStop == env.stage(s.evidence).contradicted && s.coverage.Some?
    && s.coverage == if s.conflictStop then Some(ContradictedCoverage) else env.judge(s.finalEvidence)
  }

  /** The evidence brought something: new ids, new content, or facts not covered before. */
  ghost predicate Gained(s: State, cov: Coverage, newIds: set<string>, newContent: bool) {
    newIds != {} || newContent || exists f :: f in cov.covered && (s.coverage.None? || f !in s.coverage.value.covered)
  }

  /** What each outcome of a round's assessment means. */
  lemma AssessedIs(env: Env, s: State, round: nat, noGain: nat, newIds: set<string>, newContent: bool)
    requires !s.conflictStop
    ensures var (step, s', n) := Assess(env, s, round, noGain, newIds, newContent);
            var kept, verdict := Kept(env, s.evidence), env.judge(Kept(env, s.evidence));
            && step != Fault && s'.evidence == s.evidence && s'.prior == s.prior && s'.report == Some(env.stage(s.evidence)) && s'.finalEvidence == kept
            && (step == Terminal <==> kept == [] || (!env.stage(s.evidence).contradicted && verdict.None?))
            && (step == Terminal ==> s'.coverage == Some(Abstain) && !s'.conflictStop
                                     && s'.reason == if kept == [] then "no_evidence" else "judge_fault")
            && (step == Break || step == Continue <==> Judged(env, s'))
            && (s'.conflictStop ==> step == Break && s'.reason == "conflict_detected")
            && (step == Continue <==>
                  && kept != [] && !env.stage(s.evidence).contradicted && verdict.Some?
                  && verdict.value.overall != "sufficient" && verdict.value.canContinue && round + 1 < env.maxRounds
                  && (Gained(s, verdict.value, newIds, newContent) || noGain == 0))
            && (step == Break && !s'.conflictStop ==>
                  s'.reason == if verdict.value.overall == "sufficient" then "sufficient"
                               else if !verdict.value.canContinue then "all_sources_exhausted"
                               else if noGain > 0 && !Gained(s, verdict.value, newIds, newContent) then "no_new_evidence"
                               else "max_rounds")
            && (step == Continue ==> n == if Gained(s, verdict.value, newIds, newContent) then 0 else 1)
  {
    hide Selected;
    var kept := Kept(env, s.evidence);
    if kept != [] && !env.stage(s.evidence).contradicted && env.judge(kept).Some? {
      var cov, prev := env.judge(kept).value, CoveredBefore(s);
      assert cov.covered - prev != {} <==> exists f :: f in cov.covered && f !in prev by {
        if f :| f in cov.covered && f !in prev { assert f in cov.covered - prev; }
      }
    }
  }

  // ---------------------------------------------------------------------
  // What a round asks for
  // ---------------------------------------------------------------------

  /** The fact is missing or partly supported, and its first suggested query, else what is missing, else the fact
      itself, is a query not issued yet. */
  ghost predicate OpenGap(f: FactCoverage, prior: seq<string>, q: string) {
    && (f.status == Missing || f.status == PartiallySupported) && q != "" && q !in prior
    && (if |f.next| > 0 then q == f.next[0] else if |f.missing| > 0 then q == f.missing else q == f.fact)
  }

  /** `q` is the query of the first open gap. */
  ghost predicate AskedNext(facts: seq<FactCoverage>, prior: seq<string>, q: string) {
    exists i :: 0 <= i < |facts| && OpenGap(facts[i], prior, q) && forall j, o | 0 <= j < i :: !OpenGap(facts[j], prior, o)
  }

  ghost predicate NothingOpen(facts: seq<FactCoverage>, prior: seq<string>) {
    forall f, q | f in facts :: !OpenGap(f, prior, q)
  }

  lemma OpenIff(f: FactCoverage, prior: seq<string>)
    ensures forall q :: OpenGap(f, prior, q) <==> IsGap(f) && q == Candidate(f) && q != "" && q !in Elements(prior)
  {
  }

  lemma {:induction false} PlannedFirst(facts: seq<FactCoverage>, prior: seq<string>)
    ensures var pending := PlanQueries(facts, Elements(prior));
            if pending == [] then NothingOpen(facts, prior) else AskedNext(facts, prior, pending[0])
  {
    hide OpenGap, IsGap, Candidate;
    if facts != [] {
      var n := |facts| - 1;
      var init, last := facts[..n], facts[n];
      assert facts == init + [last];
      PlannedFirst(init, prior);
      OpenIff(last, prior);
      var before, pending := PlanQueries(init, Elements(prior)), PlanQueries(facts, Elements(prior));
      if before != [] {
        var i :| 0 <= i < |init| && OpenGap(init[i], prior, before[0]) && forall j, o | 0 <= j < i :: !OpenGap(init[j], prior, o);
        assert facts[i] == init[i] && pending[0] == before[0];
        assert forall j, o | 0 <= j < i :: facts[j] == init[j] && !OpenGap(facts[j], prior, o);
      } else if pending != [] {
        assert forall j, o | 0 <= j < n :: facts[j] == init[j] && init[j] in init && !OpenGap(facts[j], prior, o);
        assert OpenGap(facts[n], prior, pending[0]);
      }
    }
  }

  predicate Foreign(env: Env, evs: seq<Snapshot>) {
    exists e | e in evs :: e.tenant != env.tenant || e.corpus != env.corpus
  }

  /** A later round stops for want of open gaps; otherwise it asks for the first one. It fails, leaving the state as it
      was, exactly when the retriever does or hands over anything of another tenant or corpus. */
  lemma RoundAsks(env: Env, s: State, round: nat, noGain: nat)
    requires round > 0 && s.coverage.Some?
    ensures var (step, s', n) := RunRound(env, s, round, noGain);
            if NothingOpen(s.coverage.value.facts, s.prior) then
              step == Break && s' == s.(gapRounds := round, reason := "all_sources_exhausted")
            else
              exists q ::
                && AskedNext(s.coverage.value.facts, s.prior, q)
                && (step == Fault <==> env.retrieve(q, round).None? || Foreign(env, env.retrieve(q, round).value))
                && (if step == Fault then s' == s else
                      && s'.prior == s.prior + [q] && s'.calls == s.calls + 1 && s'.gapRounds == round + 1
                      && s'.evidence == TakeIn(s, env.retrieve(q, round).value).state.evidence)
  {
    hide Assess, TakeIn, PlanQueries, NothingOpen, AskedNext;
    var facts := s.coverage.value.facts;
    var pending := PlanQueries(facts, Elements(s.prior));
    PlannedFirst(facts, s.prior);
    if pending != [] {
      var q := pending[0];
      AskedIsOpen(facts, s.prior, q);
      if env.retrieve(q, round).Some? && !Foreign(env, env.retrieve(q, round).value) {
        var begun, evs := s.(gapRounds := round + 1, calls := s.calls + 1), env.retrieve(q, round).value;
        var intake := TakeIn(begun, evs);
        TakeInKeeps(begun, evs);
        TakeInSame(begun, s, evs);
        AssessKeeps(env, intake.state.(prior := s.prior + [q]), round, noGain, intake.newIds, intake.newContent);
      }
    }
  }

  lemma AskedIsOpen(facts: seq<FactCoverage>, prior: seq<string>, q: string)
    requires AskedNext(facts, prior, q)
    ensures !NothingOpen(facts, prior)
  {
  }

  /** What is taken in depends on evidence and tracked content only. */
  lemma {:induction false} TakeInSame(s: State, s': State, evs: seq<Snapshot>)
    requires s.evidence == s'.evidence && s.hashes == s'.hashes && s.docVersions == s'.docVersions
    ensures var a, b := TakeIn(s, evs), TakeIn(s', evs);
            && a.state.evidence == b.state.evidence && a.state.hashes == b.state.hashes && a.state.docVersions == b.state.docVersions
            && a.newIds == b.newIds && a.newContent == b.newContent
  {
    if evs != [] { TakeInSame(s, s', evs[..|evs| - 1]); }
  }

  // ---------------------------------------------------------------------
  // What is taken in
  // ---------------------------------------------------------------------

  ghost predicate Unseen(s: State, e: Snapshot) {
    e.hash !in s.hashes || (e.document, e.version) !in s.docVersions
  }

  /** Behind a batch everything in it has been seen. */
  lemma {:induction false} TakenInSeen(s: State, evs: seq<Snapshot>)
    ensures var t := TakeIn(s, evs).state;
            && t.hashes == s.hashes + HashesOf(evs) && t.docVersions == s.docVersions + DocVersionsOf(evs)
            && IdsOf(t.evidence) == IdsOf(s.evidence) + IdsOf(evs)
  {
    hide Deliver, NewContent, IdsOf, HashesOf, DocVersionsOf;
    if evs != [] {
      var init, e := evs[..|evs| - 1], evs[|evs| - 1];
      TakenInSeen(s, init);
      Delivered(TakeIn(s, init).state, e);
      OneMore(init, e);
      assert evs == init + [e];
    } else {
      NoneSeen();
    }
  }

  lemma NoneSeen()
    ensures IdsOf([]) == {} && HashesOf([]) == {} && DocVersionsOf([]) == {}
  {
  }

  lemma OneMore(evs: seq<Snapshot>, e: Snapshot)
    ensures IdsOf(evs + [e]) == IdsOf(evs) + {e.id} && HashesOf(evs + [e]) == HashesOf(evs) + {e.hash}
    ensures DocVersionsOf(evs + [e]) == DocVersionsOf(evs) + {(e.document, e.version)}
  {
    assert forall o :: o in evs + [e] <==> o in evs || o == e;
  }

  /** A batch brings new content when some content of it, by hash or by document and version, was not seen before
      the batch; new ids come with new content only, and were not held before. */
  lemma {:induction false} TakenInNew(s: State, evs: seq<Snapshot>)
    ensures TakeIn(s, evs).newContent <==> exists e | e in evs :: Unseen(s, e)
    ensures TakeIn(s, evs).newIds != {} ==> TakeIn(s, evs).newContent
    ensures TakeIn(s, evs).newIds <= IdsOf(evs) - IdsOf(s.evidence)
  {
    hide Deliver, HashesOf, DocVersionsOf;
    if evs != [] {
      var init, e := evs[..|evs| - 1], evs[|evs| - 1];
      assert evs == init + [e];
      TakenInNew(s, init);
      TakenInSeen(s, init);
      OneMore(init, e);
      hide IdsOf;
      assert forall o :: o in evs <==> o in init || o == e;
      if NewContent(TakeIn(s, init).state, e) { assert Unseen(s, e); }
      else if Unseen(s, e) { SeenInBatch(s, init, e); }
    }
  }

  lemma SeenInBatch(s: State, evs: seq<Snapshot>, e: Snapshot)
    requires e.hash in s.hashes + HashesOf(evs) && (e.document, e.version) in s.docVersions + DocVersionsOf(evs)
    requires e.hash !in s.hashes || (e.document, e.version) !in s.docVersions
    ensures exists o | o in evs :: Unseen(s, o)
  {
    if e.hash !in s.hashes {
      var o :| o in evs && o.hash == e.hash;
    } else {
      var o :| o in evs && (o.document, o.version) == (e.document, e.version);
    }
  }

  /** One delivery appends an unknown id; of a known one it replaces the last item when version or text changed. */
  lemma Delivered(s: State, e: Snapshot)
    ensures var t := Deliver(s, e);
            && t.hashes == s.hashes + {e.hash} && t.docVersions == s.docVersions + {(e.document, e.version)}
            && IdsOf(t.evidence) == IdsOf(s.evidence) + {e.id}
            && (e.id !in IdsOf(s.evidence) ==> t.evidence == s.evidence + [e])
            && (e.id in IdsOf(s.evidence) ==>
                  && |t.evidence| == |s.evidence|
                  && exists i :: 0 <= i < |s.evidence| && s.evidence[i].id == e.id && (forall j | 0 <= j < |s.evidence| && j != i :: t.evidence[j] == s.evidence[j])
                       && t.evidence[i] == if s.evidence[i].version == e.version && s.evidence[i].hash == e.hash then s.evidence[i] else e)
  {
    if e.id in IdsOf(s.evidence) {
      var i, t := IndexOf(s.evidence, e.id), Deliver(s, e);
      forall id ensures id in IdsOf(t.evidence) <==> id in IdsOf(s.evidence) { SameIds(s.evidence, t.evidence, id); }
    }
  }

  lemma SameIds(a: seq<Snapshot>, b: seq<Snapshot>, id: string)
    requires |a| == |b| && forall i | 0 <= i < |a| :: a[i].id == b[i].id
    ensures id in IdsOf(a) <==> id in IdsOf(b)
  {
    if id in IdsOf(a) {
      var i :| 0 <= i < |a| && a[i].id == id;
      assert b[i] in b;
    }
    if id in IdsOf(b) {
      var i :| 0 <= i < |b| && b[i].id == id;
      assert a[i] in a;
    }
  }

  // ---------------------------------------------------------------------
  // Along whole runs
  // ---------------------------------------------------------------------

  /** All evidence is of the run's tenant and corpus. */
  ghost predicate Homely(env: Env, s: State) {
    forall e | e in s.evidence :: e.tenant == env.tenant && e.corpus == env.corpus
  }

  lemma {:induction false} TakeInHomely(env: Env, s: State, evs: seq<Snapshot>)
    requires Homely(env, s) && !Foreign(env, evs)
    ensures Homely(env, TakeIn(s, evs).state)
  {
    if evs != [] {
      var init, e := evs[..|evs| - 1], evs[|evs| - 1];
      assert e in evs && forall o | o in init :: o in evs;
      TakeInHomely(env, s, init);
      hide TakeIn;
      Delivered(TakeIn(s, init).state, e);
    }
  }

  lemma RoundKeeps(env: Env, s: State, round: nat, noGain: nat)
    requires Homely(env, s) && (round > 0 ==> Judged(env, s)) && !s.conflictStop
    ensures var (step, s', n) := RunRound(env, s, round, noGain);
            && Homely(env, s')
            && (step == Break || step == Continue ==> Judged(env, s'))
            && (step == Continue ==> !s'.conflictStop)
            && (step == Terminal ==> s'.coverage == Some(Abstain))
            && (step == Fault ==> s' == s)
            && s.prior <= s'.prior
  {
    hide Assess, TakeIn, PlanQueries, Kept, Gained;
    if round == 0 {
      AssessedIs(env, s.(gapRounds := 1), 0, noGain, IdsOf(s.evidence), false);
    } else {
      var pending := PlanQueries(s.coverage.value.facts, Elements(s.prior));
      if pending != [] && env.retrieve(pending[0], round).Some? && !Foreign(env, env.retrieve(pending[0], round).value) {
        var begun, evs := s.(gapRounds := round + 1, calls := s.calls + 1), env.retrieve(pending[0], round).value;
        var intake := TakeIn(begun, evs);
        TakeInKeeps(begun, evs);
        TakeInHomely(env, begun, evs);
        var next := intake.state.(prior := s.prior + [pending[0]]);
        AssessedIs(env, next, round, noGain, intake.newIds, intake.newContent);
        assert begun == s.(gapRounds := round + 1).(calls := s.calls + 1);
        assert RunRound(env, s, round, noGain) == Assess(env, next, round, noGain, intake.newIds, intake.newContent);
      }
    }
  }

  /** However a run ends, all its evidence is of its tenant and corpus. An answer rests on evidence the conflict stage
      kept, and its coverage is the conflict verdict or the judge's on precisely that evidence; a refusal abstains. */
  lemma {:induction false} RunRestsOn(env: Env, s: State, round: nat, noGain: nat)
    requires round < env.maxRounds && Homely(env, s) && (round > 0 ==> Judged(env, s)) && !s.conflictStop
    ensures var (end, s') := RunLoop(env, s, round, noGain);
            && Homely(env, s') && s.prior <= s'.prior
            && (end == Answered ==> Judged(env, s'))
            && (end == Refused ==> s'.coverage == Some(Abstain))
    decreases env.maxRounds - round
  {
    hide RunRound, Homely, Kept;
    RoundKeeps(env, s, round, noGain);
    var (step, s', n) := RunRound(env, s, round, noGain);
    ContinueHasCoverage(env, s, round, noGain);
    if step == Continue { RunRestsOn(env, s', round + 1, n); }
  }

  // ---------------------------------------------------------------------
  // From the question on
  // ---------------------------------------------------------------------

  /** Item `i` is the last delivered under its id. */
  ghost predicate LastOfId(raw: seq<Snapshot>, i: nat)
    requires i < |raw|
  {
    forall j | i < j < |raw| :: raw[j].id != raw[i].id
  }

  ghost predicate OncePerId(evs: seq<Snapshot>) {
    forall i, j | 0 <= i < j < |evs| :: evs[i].id != evs[j].id
  }

  ghost predicate LastDelivered(e: Snapshot, raw: seq<Snapshot>) {
    exists i: nat :: i < |raw| && raw[i] == e && LastOfId(raw, i)
  }

  lemma LastMore(raw: seq<Snapshot>, e: Snapshot, x: Snapshot)
    ensures LastDelivered(e, raw) && x.id != e.id ==> LastDelivered(e, raw + [x])
    ensures LastDelivered(x, raw + [x])
  {
    var all := raw + [x];
    assert all[|raw|] == x && LastOfId(all, |raw|);
    if LastDelivered(e, raw) && x.id != e.id {
      var i: nat :| i < |raw| && raw[i] == e && LastOfId(raw, i);
      assert all[i] == e;
      forall j | i < j < |all| ensures all[j].id != all[i].id { assert j < |raw| ==> all[j] == raw[j]; }
      assert LastOfId(all, i);
    }
  }

  /** One snapshot is kept of every id, the last delivered. */
  lemma {:induction false} ByIdKeepsLast(raw: seq<Snapshot>)
    ensures OncePerId(ById(raw)) && IdsOf(ById(raw)) == IdsOf(raw)
    ensures forall e | e in ById(raw) :: LastDelivered(e, raw)
  {
    if raw != [] {
      hide LastDelivered, OncePerId;
      var init, last := raw[..|raw| - 1], raw[|raw| - 1];
      assert raw == init + [last];
      ByIdKeepsLast(init);
      OneMore(init, last);
      OneMore(ById(init), last);
      var k := if last.id in IdsOf(ById(init)) then IndexOf(ById(init), last.id) else |ById(init)|;
      ReplacedOnce(ById(init), k, last);
      forall e | e in ById(raw) ensures LastDelivered(e, raw) {
        LastMore(init, e, last);
        assert e != last ==> e in ById(init) && e.id != last.id;
      }
    } else {
      NoneSeen();
    }
  }

  /** Putting a snapshot where its id stood, or behind all ids, keeps ids apart. */
  lemma ReplacedOnce(evs: seq<Snapshot>, k: nat, e: Snapshot)
    requires OncePerId(evs) && k <= |evs| && (if k < |evs| then evs[k].id == e.id else e.id !in IdsOf(evs))
    ensures var out := if k < |evs| then evs[k := e] else evs + [e];
            && OncePerId(out) && IdsOf(out) == IdsOf(evs) + {e.id}
            && forall o | o in out && o != e :: o in evs && o.id != e.id
  {
    if k < |evs| {
      forall id ensures id in IdsOf(evs[k := e]) <==> id in IdsOf(evs) { SameIds(evs, evs[k := e], id); }
    } else {
      OneMore(evs, e);
      assert forall o | o in evs :: o.id in IdsOf(evs);
    }
  }

  /** A run from the question on: it ends within its rounds; the question is the first query, all queries are distinct and
      each was one call; an answer rests as above on evidence of the run's tenant and corpus. */
  lemma RunFromQuestion(env: Env, query: string, raw: seq<Snapshot>, reason: string)
    requires env.maxRounds >= 1 && !Foreign(env, raw)
    ensures var (end, s') := RunLoop(env, Initial(query, raw, reason), 0, 0);
            && end != RanOut && s'.gapRounds <= env.maxRounds
            && |s'.prior| >= 1 && s'.prior[0] == query && Accounted(s') && |s'.prior| <= 1 + env.maxRounds
            && Homely(env, s') && (end == Answered ==> Judged(env, s')) && (end == Refused ==> s'.coverage == Some(Abstain))
  {
    hide RunLoop, Judged;
    var s := Initial(query, raw, reason);
    ByIdKeepsLast(raw);
    forall e | e in s.evidence ensures e.tenant == env.tenant && e.corpus == env.corpus { assert LastDelivered(e, raw); assert e in raw; }
    LoopEndsInTime(env, s, 0, 0);
    RunRestsOn(env, s, 0, 0);
  }

  // ---------------------------------------------------------------------
  // From a checkpoint with evidence revoked
  // ---------------------------------------------------------------------

  /** What the checkpoint says of queries, calls and rounds stands. */
  ghost predicate Carries(ck: Checkpoint, s: State) {
    s.prior == ck.prior && s.calls == ck.calls && s.gapRounds == ck.gapRounds
  }

  /** With all evidence revoked a resume refuses at once. */
  lemma AllRevokedRefuses(env: Env, ck: Checkpoint, authorized: set<string>)
    requires (ck.round > 0 ==> ck.coverage.Some?) && Selected(ck.evidence, authorized) == []
    ensures var (end, s') := Resume(env, ck, authorized);
            && end == Refused && Carries(ck, s') && s'.evidence == [] && s'.finalEvidence == [] && s'.report.None? && !s'.conflictStop
            && s'.coverage == Some(Abstain) && s'.reason == "all_evidence_revoked"
  {
  }

  /** With some revoked, conflict stage and judge are asked again, about the rest only. Nothing kept of it is a refusal,
      a judge's fault a failure; a contradiction, or a sufficient verdict, answers at once, with the checkpoint's reason if
      the run had not been completed. */
  lemma SomeRevokedReassesses(env: Env, ck: Checkpoint, authorized: set<string>)
    requires (ck.round > 0 ==> ck.coverage.Some?) && Selected(ck.evidence, authorized) != [] && Dropped(ck, authorized)
    ensures var rest := Selected(ck.evidence, authorized);
            var (end, s') := Resume(env, ck, authorized);
            var verdict := env.judge(Kept(env, rest));
            if Kept(env, rest) == [] then
              end == Refused && Carries(ck, s') && s'.evidence == rest && s'.coverage == Some(Abstain)
              && s'.finalEvidence == [] && !s'.conflictStop && s'.reason == "temporal_no_evidence"
            else if verdict.None? then end == Failed && s'.evidence == rest
            else
              env.stage(rest).contradicted || verdict.value.overall == "sufficient" ==>
                && end == Answered && Carries(ck, s') && s'.evidence == rest && Judged(env, s')
                && s'.reason == (if ck.completed then "" else ck.reason)
  {
    hide Selected, RunLoop, HashesOf, DocVersionsOf;
  }

  /** And otherwise the run goes on from the checkpoint's round; however it ends, the same is true of its evidence and its
      answer as of a run that was never interrupted. */
  lemma RevokedRestsOn(env: Env, ck: Checkpoint, authorized: set<string>)
    requires (ck.round > 0 ==> ck.coverage.Some?) && Selected(ck.evidence, authorized) != [] && Dropped(ck, authorized)
    requires ck.round < env.maxRounds && !Foreign(env, ck.evidence)
    ensures var (end, s') := Resume(env, ck, authorized);
            && Homely(env, s') && ck.prior <= s'.prior
            && (end == Answered ==> Judged(env, s')) && (end == Refused ==> s'.coverage == Some(Abstain))
  {
    hide RunLoop, HashesOf, DocVersionsOf;
    var rest := Selected(ck.evidence, authorized);
    SelectedIs(ck.evidence, authorized);
    SomeRevokedReassesses(env, ck, authorized);
    var kept, report := Kept(env, rest), env.stage(rest);
    hide Selected;
    if kept != [] && env.judge(kept).Some? && !report.contradicted && env.judge(kept).value.overall != "sufficient" {
      var open := Reopened(ck, RebuildOver(ck, rest)).(report := Some(report), finalEvidence := kept);
      RunRestsOn(env, open.(conflictStop := false, coverage := env.judge(kept)), ck.round, 0);
    }
  }

  /** A checkpoint that names no final evidence and was not completed, as a refusing round leaves it, rebuilds with all its
      evidence as final: with no gap open it answers from all of that, whatever the conflict stage kept. */
  lemma UnkeptAnswersFromAll(env: Env, ck: Checkpoint, authorized: set<string>)
    requires 0 < ck.round < env.maxRounds && ck.coverage.Some? && NothingOpen(ck.coverage.value.facts, ck.prior)
    requires !ck.completed && ck.finalIds == [] && ck.evidence != [] && !Dropped(ck, authorized)
    ensures var (end, s') := Resume(env, ck, authorized);
            end == Answered && s'.evidence == ck.evidence && s'.finalEvidence == ck.evidence && s'.coverage == ck.coverage
  {
    hide Assess, TakeIn, PlanQueries, NothingOpen, AskedNext, HashesOf, DocVersionsOf;
    SelectedAll(ck.evidence, authorized);
    var s := RebuildOver(ck, ck.evidence);
    RoundAsks(env, s, ck.round, 0);
  }
}
