/** Runs of which a resumed one ends otherwise: the counter is lost, a stop is not yet
    marked done, or a text that was overwritten is forgotten. */
module ResumptionWitnesses {
  import opened Common
  import opened Iteration
  import opened Resumption

  const GapA := FactCoverage("a", Missing, [], "")
  const GapB := FactCoverage("b", Missing, [], "")
  const GapC := FactCoverage("c", Missing, [], "")
  const GapD := FactCoverage("d", Missing, [], "")
  const Gappy := Coverage("insufficient", [GapA, GapB, GapC, GapD], {}, true, false)

  /** Four gaps that are never filled, no conflicts, and what rounds one and two retrieve. */
  function Script(rounds: nat, first: seq<Snapshot>, second: seq<Snapshot>): Env {
    Env("t", "c", rounds, (q: string, r: nat) => Some(if r == 1 then first else if r == 2 then second else []),
        evs => Report(false, IdsOf(evs), ""), evs => Some(Gappy))
  }

  function Scripted(round: nat, first: seq<Snapshot>, second: seq<Snapshot>): seq<Snapshot> {
    if round == 1 then first else if round == 2 then second else []
  }

  predicate Home(evs: seq<Snapshot>) {
    forall e | e in evs :: e.tenant == "t" && e.corpus == "c"
  }

  /** Three queries do not use up four gaps. */
  lemma GapsRemain(prior: seq<string>)
    requires |prior| <= 3
    ensures PlanQueries(Gappy.facts, Elements(prior)) != []
  {
    var facts := Gappy.facts;
    PlanLaws(facts, Elements(prior));
    assert GapA in facts && GapB in facts && GapC in facts && GapD in facts by {
      assert facts[0] == GapA && facts[1] == GapB && facts[2] == GapC && facts[3] == GapD;
    }
    assert Candidate(GapA) == "a" && Candidate(GapB) == "b" && Candidate(GapC) == "c" && Candidate(GapD) == "d";
    assert IsGap(GapA) && IsGap(GapB) && IsGap(GapC) && IsGap(GapD);
    assert "a"[0] != "b"[0] && "a"[0] != "c"[0] && "a"[0] != "d"[0] && "b"[0] != "c"[0] && "b"[0] != "d"[0] && "c"[0] != "d"[0];
    if "a" !in prior {
      assert "a" in PlanQueries(facts, Elements(prior));
    } else if "b" !in prior {
      assert "b" in PlanQueries(facts, Elements(prior));
    } else if "c" !in prior {
      assert "c" in PlanQueries(facts, Elements(prior));
    } else if "d" !in prior {
      assert "d" in PlanQueries(facts, Elements(prior));
    }
  }

  /** A round of the script: it takes in what it retrieves, and the stop policy has the last word. */
  lemma ScriptRound(rounds: nat, first: seq<Snapshot>, second: seq<Snapshot>, s: State, round: nat, noGain: nat) returns (q: string)
    requires round > 0 && s.coverage == Some(Gappy) && s.evidence != [] && |s.prior| <= 3 && Home(first) && Home(second)
    ensures PlanQueries(Gappy.facts, Elements(s.prior)) != [] && q == PlanQueries(Gappy.facts, Elements(s.prior))[0]
    ensures var begun := s.(gapRounds := round + 1, calls := s.calls + 1);
            var intake := TakeIn(begun, Scripted(round, first, second));
            var (decision, n) := Decide(noGain, round, rounds, Gappy, intake.newIds != {} || intake.newContent);
            intake.state.evidence != [] ==>
              RunRound(Script(rounds, first, second), s, round, noGain) ==
              (if decision.stop then Break else Continue,
               intake.state.(prior := s.prior + [q], report := Some(Report(false, IdsOf(intake.state.evidence), "")),
                             finalEvidence := intake.state.evidence, coverage := Some(Gappy), prevCovered := {}, reason := decision.reason),
               n)
  {
    hide TakeIn, PlanQueries, Assess, Decide, Accounted;
    var env := Script(rounds, first, second);
    GapsRemain(s.prior);
    q := PlanQueries(Gappy.facts, Elements(s.prior))[0];
    var begun, evs := s.(gapRounds := round + 1, calls := s.calls + 1), Scripted(round, first, second);
    assert env.retrieve(q, round) == Some(evs) && env.tenant == "t" && env.corpus == "c" && env.maxRounds == rounds;
    assert !exists e | e in evs :: e.tenant != env.tenant || e.corpus != env.corpus;
    TakeInKeeps(begun, evs);
    var intake := TakeIn(begun, evs);
    assert RunRound(env, s, round, noGain) ==
           Assess(env, intake.state.(prior := s.prior + [q]), round, noGain, intake.newIds, intake.newContent);
    if intake.state.evidence == [] { return; }
    hide RunRound, Script;
    ScriptAssess(rounds, first, second, intake.state.(prior := s.prior + [q]), round, noGain, intake.newIds, intake.newContent);
  }

  lemma ScriptAssess(rounds: nat, first: seq<Snapshot>, second: seq<Snapshot>, s: State, round: nat, noGain: nat,
                     newIds: set<string>, newContent: bool)
    requires s.evidence != [] && (s.coverage == Some(Gappy) || s.coverage == None)
    ensures var (decision, n) := Decide(noGain, round, rounds, Gappy, newIds != {} || newContent);
            Assess(Script(rounds, first, second), s, round, noGain, newIds, newContent) ==
            (if decision.stop then Break else Continue,
             s.(report := Some(Report(false, IdsOf(s.evidence), "")), finalEvidence := s.evidence, coverage := Some(Gappy),
                prevCovered := {}, reason := decision.reason),
             n)
  {
    SelectedAll(s.evidence, IdsOf(s.evidence));
    hide Selected;
    assert Gappy.covered - {} == {};
  }

  const One := Snapshot("1", "t", "c", "doc", "v", "h1", "old text")
  const OneAgain := Snapshot("1", "t", "c", "doc", "v", "h2", "new text")
  const Two := Snapshot("2", "t", "c", "doc", "v", "h1", "old text")

  function Start(): State {
    Initial("query", [One], "evidence_found")
  }

  lemma StartIs()
    ensures Start() == State([One], {"h1"}, {("doc", "v")}, ["query"], None, 0, 1, {}, "evidence_found", None, [One], false)
  {
    assert [One][..0] == [];
    assert ById([]) == [] && IdsOf([]) == {};
    assert ById([One]) == [One];
    assert HashesOf([One]) == {"h1"};
    assert DocVersionsOf([One]) == {("doc", "v")};
  }

  /** The state behind the round before any retrieval. */
  function Opened(): State {
    Start().(gapRounds := 1, report := Some(Report(false, IdsOf([One]), "")), finalEvidence := [One], coverage := Some(Gappy),
             reason := "continue")
  }

  lemma Opens(rounds: nat, first: seq<Snapshot>, second: seq<Snapshot>)
    requires rounds >= 2
    ensures After(Script(rounds, first, second), Start(), 1) == Some((Opened(), 0))
  {
    StartIs();
    hide Assess, Script;
    var env := Script(rounds, first, second);
    assert After(env, Start(), 0) == Some((Start(), 0));
    assert "1" in IdsOf([One]) by { assert One in [One]; }
    ScriptAssess(rounds, first, second, Start().(gapRounds := 1), 0, 0, IdsOf([One]), false);
    assert RunRound(env, Start(), 0, 0) == (Continue, Opened(), 0);
  }

  // ---------------------------------------------------------------------
  // Two rounds without gain, and a crash between them
  // ---------------------------------------------------------------------

  /** A round that retrieves nothing is gainless. */
  lemma QuietRound(rounds: nat, first: seq<Snapshot>, second: seq<Snapshot>, s: State, round: nat, noGain: nat)
    requires round > 0 && s.coverage == Some(Gappy) && s.evidence != [] && |s.prior| <= 3 && Home(first) && Home(second)
    requires Scripted(round, first, second) == []
    ensures var (step, s', n) := RunRound(Script(rounds, first, second), s, round, noGain);
            && n == noGain + 1 && s'.coverage == Some(Gappy) && s'.evidence == s.evidence && |s'.prior| == |s.prior| + 1
            && s'.hashes == s.hashes && s'.docVersions == s.docVersions
            && (if n >= 2 then step == Break && s'.reason == "no_new_evidence"
                else if round + 1 >= rounds then step == Break && s'.reason == "max_rounds"
                else step == Continue && s'.reason == "continue")
  {
    hide RunRound, Script;
    var q := ScriptRound(rounds, first, second, s, round, noGain);
    assert TakeIn(s.(gapRounds := round + 1, calls := s.calls + 1), []) ==
           Intake(s.(gapRounds := round + 1, calls := s.calls + 1), {}, false);
  }

  lemma SecondQuiet(rounds: nat) returns (s: State)
    requires rounds >= 3
    ensures After(Script(rounds, [], []), Start(), 2) == Some((s, 1)) && s.evidence == [One]
    ensures s.coverage == Some(Gappy) && |s.prior| == 2 && s.hashes == {"h1"} && s.docVersions == {("doc", "v")}
  {
    hide Script, RunRound;
    var env := Script(rounds, [], []);
    StartIs();
    Opens(rounds, [], []);
    QuietRound(rounds, [], [], Opened(), 1, 0);
    s := RunRound(env, Opened(), 1, 0).1;
  }

  lemma {:induction false} NothingNew(rounds: nat, k: nat)
    ensures Delivered(Script(rounds, [], []), Start(), k) == []
  {
    hide Script, RunRound, RoundDelivers;
    var env := Script(rounds, [], []);
    if k > 0 && After(env, Start(), k - 1).Some? {
      var (before, n) := After(env, Start(), k - 1).value;
      if k - 1 == 0 || before.coverage.Some? {
        NothingNew(rounds, k - 1);
        RetrievesNothing(rounds, before, k - 1);
      }
    }
  }

  lemma RetrievesNothing(rounds: nat, s: State, round: nat)
    requires round > 0 ==> s.coverage.Some?
    ensures RoundDelivers(Script(rounds, [], []), s, round) == []
  {
    hide PlanQueries;
  }

  /** With three rounds or more: the second gainless round would stop the run; resumed from the checkpoint
      in front of it, with everything still shown and authorized, the run ends otherwise. */
  lemma LostCounterRun(rounds: nat) returns (s: State)
    requires rounds >= 3
    ensures var env := Script(rounds, [], []);
            && After(env, Start(), 2) == Some((s, 1)) && s.coverage.Some?
            && AllShown([One] + Delivered(env, Start(), 2), s.evidence) && StopsGainless(env, s, 2, 1)
            && RunLoop(env, Start(), 0, 0).1.reason == "no_new_evidence"
            && !SameOutcome(Resume(env, Save(s, 2), {"1"}), RunLoop(env, Start(), 0, 0))
  {
    var env := Script(rounds, [], []);
    s := SecondQuiet(rounds);
    NothingNew(rounds, 2);
    OneIsShown(Delivered(env, Start(), 2));
    QuietRound(rounds, [], [], s, 2, 1);
    hide Script, RunRound, RunLoop, Resume, Save, AllShown, After, Delivered;
    RunContinues(env, Start(), 2);
    LoopBreaks(env, s, 2, 1);
    ResumeEqualsNoCrashIff(env, "query", [One], "evidence_found", 2, s, 1, {"1"});
  }

  lemma OneIsShown(ds: seq<Snapshot>)
    requires ds == []
    ensures AllShown([One] + ds, [One])
  {
    assert One in [One];
    assert HashesOf([One]) == {"h1"};
    assert DocVersionsOf([One]) == {("doc", "v")};
  }

  /** With four rounds or more: the stop is saved but not yet marked done; resumed, the run ends otherwise. */
  lemma UnmarkedStopRun(rounds: nat) returns (stop: State)
    requires rounds >= 4
    ensures var env := Script(rounds, [], []);
            && Round(env, Start(), 2) == Some((Break, stop)) && stop.coverage.Some?
            && AllShown([One] + Delivered(env, Start(), 3), stop.evidence)
            && !SameOutcome(Resume(env, Save(stop, 3), {"1"}), RunLoop(env, Start(), 0, 0))
  {
    var env := Script(rounds, [], []);
    var s := SecondQuiet(rounds);
    NothingNew(rounds, 3);
    OneIsShown(Delivered(env, Start(), 3));
    QuietRound(rounds, [], [], s, 2, 1);
    stop := RunRound(env, s, 2, 1).1;
    assert env.maxRounds == rounds;
    hide Script, RunRound, RunLoop, Resume, AllShown, After, Delivered;
    assert !RepeatsStop(env, Save(stop, 3));
    UnmarkedStopIff(env, "query", [One], "evidence_found", 2, stop, {"1"});
  }

  // ---------------------------------------------------------------------
  // A text that was overwritten and comes back
  // ---------------------------------------------------------------------

  lemma TakesOver(s: State)
    requires s.evidence == [One] && s.hashes == {"h1"} && s.docVersions == {("doc", "v")}
    ensures TakeIn(s, [OneAgain]) == Intake(s.(evidence := [OneAgain], hashes := {"h1", "h2"}), {}, true)
  {
    assert [OneAgain][..0] == [];
    assert "1" in IdsOf([One]) by { assert One in [One]; }
    assert IndexOf([One], "1") == 0;
    assert "h2" !in s.hashes by { assert "h1"[1] != "h2"[1]; }
    assert s.docVersions + {("doc", "v")} == s.docVersions;
    assert TakeIn(s, []) == Intake(s, {}, false);
    assert Deliver(s, OneAgain) == s.(evidence := [OneAgain], hashes := {"h1", "h2"});
  }

  /** What comes back is new to whoever has forgotten its text. */
  lemma ComesBack(s: State)
    requires s.evidence == [OneAgain] && s.docVersions == {("doc", "v")} && s.hashes in {{"h1", "h2"}, {"h2"}}
    ensures TakeIn(s, [Two]) == Intake(s.(evidence := [OneAgain, Two], hashes := {"h1", "h2"}),
                                       if "h1" in s.hashes then {} else {"2"}, "h1" !in s.hashes)
  {
    assert [Two][..0] == [];
    assert TakeIn(s, []) == Intake(s, {}, false);
    assert "2" !in IdsOf([OneAgain]) by { assert "1"[0] != "2"[0]; }
    assert s.docVersions + {("doc", "v")} == s.docVersions;
    assert s.hashes + {"h1"} == {"h1", "h2"};
    assert [OneAgain] + [Two] == [OneAgain, Two];
    assert Deliver(s, Two) == s.(evidence := [OneAgain, Two], hashes := {"h1", "h2"});
  }

  lemma Overwritten(rounds: nat) returns (s: State)
    requires rounds >= 4
    ensures After(Script(rounds, [OneAgain], [Two]), Start(), 2) == Some((s, 0)) && s.coverage == Some(Gappy)
    ensures s.evidence == [OneAgain] && s.hashes == {"h1", "h2"} && s.docVersions == {("doc", "v")} && |s.prior| == 2
    ensures s.finalEvidence == [OneAgain]
  {
    hide Script, RunRound;
    var env := Script(rounds, [OneAgain], [Two]);
    StartIs();
    Opens(rounds, [OneAgain], [Two]);
    var o := Opened();
    var q := ScriptRound(rounds, [OneAgain], [Two], o, 1, 0);
    TakesOver(o.(gapRounds := 2, calls := o.calls + 1));
    s := RunRound(env, o, 1, 0).1;
  }

  /** The second round, by whoever remembers the first text, and by whoever does not. */
  lemma ThirdRound(rounds: nat, s: State) returns (q: string)
    requires rounds >= 4 && s.coverage == Some(Gappy) && |s.prior| == 2
    requires s.evidence == [OneAgain] && s.docVersions == {("doc", "v")} && s.hashes in {{"h1", "h2"}, {"h2"}}
    ensures PlanQueries(Gappy.facts, Elements(s.prior)) != [] && q == PlanQueries(Gappy.facts, Elements(s.prior))[0]
    ensures RunRound(Script(rounds, [OneAgain], [Two]), s, 2, 0) ==
            (Continue,
             s.(evidence := [OneAgain, Two], hashes := {"h1", "h2"}, gapRounds := 3, calls := s.calls + 1, prior := s.prior + [q],
                report := Some(Report(false, IdsOf([OneAgain, Two]), "")), finalEvidence := [OneAgain, Two], coverage := Some(Gappy),
                prevCovered := {}, reason := "continue"),
             if "h1" in s.hashes then 1 else 0)
  {
    hide Script, RunRound;
    q := ScriptRound(rounds, [OneAgain], [Two], s, 2, 0);
    ComesBack(s.(gapRounds := 3, calls := s.calls + 1));
  }

  function Forgetting(s: State): State {
    s.(hashes := {"h2"}, prevCovered := {})
  }

  /** Both come to the same state, with different counters. */
  lemma SameButCounter(rounds: nat, s: State) returns (z: State)
    requires rounds >= 4 && s.coverage == Some(Gappy) && |s.prior| == 2
    requires s.evidence == [OneAgain] && s.docVersions == {("doc", "v")} && s.hashes == {"h1", "h2"}
    ensures RunRound(Script(rounds, [OneAgain], [Two]), s, 2, 0) == (Continue, z, 1)
    ensures RunRound(Script(rounds, [OneAgain], [Two]), Forgetting(s), 2, 0) == (Continue, z, 0)
    ensures z.coverage == Some(Gappy) && |z.prior| == 3 && z.evidence != []
  {
    hide Script, RunRound, PlanQueries;
    var q := ThirdRound(rounds, s);
    var r := ThirdRound(rounds, Forgetting(s));
    assert "h1" !in Forgetting(s).hashes by { assert "h1"[1] != "h2"[1]; }
    z := RunRound(Script(rounds, [OneAgain], [Two]), s, 2, 0).1;
  }

  lemma EndsApart(rounds: nat, s: State)
    requires rounds >= 4 && s.coverage == Some(Gappy) && |s.prior| == 2
    requires s.evidence == [OneAgain] && s.docVersions == {("doc", "v")} && s.hashes == {"h1", "h2"}
    ensures var env := Script(rounds, [OneAgain], [Two]);
            !SameOutcome(RunLoop(env, Forgetting(s), 2, 0), RunLoop(env, s, 2, 0))
  {
    var env := Script(rounds, [OneAgain], [Two]);
    assert env.maxRounds == rounds;
    hide Script, RunRound, SameOutcome;
    var z := SameButCounter(rounds, s);
    assert RunLoop(env, s, 2, 0) == RunLoop(env, z, 3, 1);
    assert RunLoop(env, Forgetting(s), 2, 0) == RunLoop(env, z, 3, 0);
    hide RunLoop;
    QuietRound(rounds, [OneAgain], [Two], z, 3, 1);
    CounterMattersIff(env, z, 3);
  }

  /** With four rounds or more: what round one overwrites comes back in round two. The uninterrupted run
      knows it and stops for want of new evidence; resumed in front of it, with the counter at zero
      anyway, the run takes it for new and ends otherwise. */
  lemma ForgottenTextRun(rounds: nat) returns (s: State)
    requires rounds >= 4
    ensures var env := Script(rounds, [OneAgain], [Two]);
            && After(env, Start(), 2) == Some((s, 0)) && s.coverage.Some?
            && !AllShown([One] + Delivered(env, Start(), 2), s.evidence)
            && !SameOutcome(Resume(env, Save(s, 2), {"1"}), RunLoop(env, Start(), 0, 0))
  {
    var env := Script(rounds, [OneAgain], [Two]);
    hide Script, RunRound, RunLoop, Resume, After, Delivered, Rebuild, Save, AllShown, SameOutcome;
    s := Overwritten(rounds);
    Forgets(s);
    assert s.hashes != Forgetting(s).hashes by { assert "h1" in s.hashes && "h1"[1] != "h2"[1]; }
    RebuildsIffAllShown(env, "query", [One], "evidence_found", 2);
    RunContinues(env, Start(), 2);
    RunningGoesOn(env, Save(s, 2), {"1"});
    EndsApart(rounds, s);
  }

  /** The rebuilt trackers know the evidence's own text only. */
  lemma Forgets(s: State)
    requires s.coverage == Some(Gappy) && s.evidence == [OneAgain] && s.docVersions == {("doc", "v")} && s.finalEvidence == [OneAgain]
    ensures Rebuild(Save(s, 2)) == Forgetting(s) && !Save(s, 2).completed && Save(s, 2).round == 2
    ensures Save(s, 2).evidence == s.evidence && Save(s, 2).coverage == s.coverage
  {
    SelectedAll([OneAgain], {"1"});
    assert Save(s, 2).finalIds == ["1"];
    assert Elements(["1"]) == {"1"};
    assert HashesOf([OneAgain]) == {"h2"};
    assert DocVersionsOf([OneAgain]) == {("doc", "v")};
  }

  // ---------------------------------------------------------------------
  // A judge that never answers
  // ---------------------------------------------------------------------

  function Mute(rounds: nat): Env {
    Script(rounds, [], []).(judge := evs => None)
  }

  lemma MuteRound(rounds: nat) returns (stop: State)
    ensures Round(Mute(rounds), Start(), 0) == Some((Terminal, stop)) && stop.reason == "judge_fault" && stop.evidence == [One]
  {
    StartIs();
    SelectedAll([One], IdsOf([One]));
    hide Selected, Start;
    stop := RunRound(Mute(rounds), Start(), 0, 0).1;
    assert After(Mute(rounds), Start(), 0) == Some((Start(), 0));
  }

  lemma NothingDelivered(env: Env, s: State)
    ensures Delivered(env, s, 1) == []
  {
    assert Delivered(env, s, 0) == [];
    assert After(env, s, 0) == Some((s, 0));
    hide After;
  }

  /** A refusal for a judge fault: resumed from its completed checkpoint it goes to synthesis, and so it
      does from the checkpoint before it was marked done. */
  lemma JudgeFaultResumes(env: Env, query: string, raw: seq<Snapshot>, reason: string, stop: State, authorized: set<string>)
    requires raw != [] && env.maxRounds >= 1 && Round(env, Initial(query, raw, reason), 0) == Some((Terminal, stop))
    requires stop.reason == "judge_fault" && AllShown(raw + Delivered(env, Initial(query, raw, reason), 1), stop.evidence)
    requires forall e | e in stop.evidence :: e.id in authorized
    ensures stop.coverage.Some? && RunLoop(env, Initial(query, raw, reason), 0, 0).0 == Refused
    ensures Resume(env, Save(stop, 1).(completed := true), authorized).0 == Answered
    ensures Verdict(Resume(env, Save(stop, 1), authorized).0) == Answered
  {
    hide RunLoop, Resume, Save, AllShown, Delivered, Round, SameOutcome, SameRun, Verdict, Initial;
    UnmarkedRefusalAnswers(env, query, raw, reason, 0, stop, authorized);
    SavedRunning(stop, 1);
    CompletedResumesIff(env, query, raw, reason, 0, Terminal, stop, authorized);
  }

  /** And such a run. */
  lemma JudgeFaultRun(rounds: nat) returns (stop: State)
    requires rounds >= 1
    ensures var env := Mute(rounds);
            && Round(env, Start(), 0) == Some((Terminal, stop)) && stop.coverage.Some? && RunLoop(env, Start(), 0, 0).0 == Refused
            && Resume(env, Save(stop, 1).(completed := true), {"1"}).0 == Answered
            && Verdict(Resume(env, Save(stop, 1), {"1"}).0) == Answered
  {
    stop := MuteRound(rounds);
    assert Mute(rounds).maxRounds == rounds && [One] != [];
    NothingDelivered(Mute(rounds), Start());
    OneIsShown([]);
    assert forall e | e in [One] :: e.id in {"1"};
    hide Mute, RunRound, RunLoop, Resume, Save, AllShown, Delivered, Round, SameOutcome, SameRun, Verdict, Script, Initial, After;
    JudgeFaultResumes(Mute(rounds), "query", [One], "evidence_found", stop, {"1"});
  }
}
