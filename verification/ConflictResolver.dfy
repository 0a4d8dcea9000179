/** The resolver as it runs: groups by document, then all pairs of survivors, with the
    findings and the dropped ids collected on the way. */
module ConflictResolvers {
  import opened Common
  import opened Conflicts

  datatype Kind = VersionConflict | TimeConflict | ScopeConflict | ValueConflict

  datatype Finding = Finding(number: nat, kind: Kind, sources: seq<string>, resolvable: bool, chosen: seq<string>)

  function IdsOf(evs: seq<Evidence>): seq<string> {
    seq(|evs|, i requires 0 <= i < |evs| => evs[i].id)
  }

  predicate AnyOpen(findings: seq<Finding>) {
    exists i | 0 <= i < |findings| :: !findings[i].resolvable
  }

  ghost predicate Numbered(findings: seq<Finding>) {
    forall i | 0 <= i < |findings| :: findings[i].number == i + 1
  }

  /** Position of the newest item: the last one of a stable sort. */
  method FindWinner(g: seq<Evidence>) returns (w: nat)
    requires g != []
    ensures w == WinnerAt(g)
  {
    w := 0;
    assert g[..1] == [g[0]];
    for i := 1 to |g|
      invariant w < i && w == WinnerAt(g[..i])
    {
      assert g[..i + 1][..i] == g[..i];
      if !Older(g[i], g[w]) { w := i; }
    }
    assert g[..|g|] == g;
  }

  method ResolveVersionGroup(g: seq<Evidence>, number: nat, scope: Scope, extract: Extract) returns (finding: Finding, drop: set<string>)
    requires g != [] && MultiVersion(g)
    ensures finding.number == number && finding.sources == IdsOf(g)
    ensures finding.resolvable <==> Supersedes(g, scope, extract)
    ensures drop == if Supersedes(g, scope, extract) then LoserIds(g) else {}
    ensures finding.resolvable ==> finding.kind == VersionConflict && finding.chosen == [g[WinnerAt(g)].id]
    ensures !finding.resolvable ==> finding.kind == TimeConflict && finding.chosen == []
  {
    if Guarded(g, scope, extract) {
      return Finding(number, TimeConflict, IdsOf(g), false, []), {};
    }
    var w := FindWinner(g);
    finding := Finding(number, VersionConflict, IdsOf(g), true, [g[w].id]);
    drop := set i | 0 <= i < |g| && i != w :: g[i].id;
  }

  method ResolvePair(a: Evidence, b: Evidence, number: nat, scope: Scope, extract: Extract, margin: int)
    returns (finding: Option<Finding>, drop: set<string>)
    ensures var v := Judge(a, b, scope, extract, margin);
            && (finding.None? <==> v.NoConflict?)
            && drop == (if v.Overruled? then {v.low.id} else {})
            && (finding.Some? ==>
                  && finding.value.number == number && finding.value.sources == [a.id, b.id]
                  && (finding.value.resolvable <==> !v.Unresolved?)
                  && (v.Overruled? ==> finding.value.chosen == [v.high.id]))
  {
    finding, drop := None, {};
    var sources := [a.id, b.id];
    if a.document == b.document && a.version != b.version { return; }
    var x, y := extract(a.text), extract(b.text);
    if !x.structured || !y.structured { return; }
    if x.key != y.key {
      return Some(Finding(number, ScopeConflict, sources, true, sources)), {};
    }
    if x.value == y.value { return; }
    if a.effectiveTo.Some? != b.effectiveTo.Some? && EffectiveNow(scope) {
      return Some(Finding(number, TimeConflict, sources, false, [])), {};
    }
    var gap := a.authority - b.authority;
    if a.document != b.document && (if gap < 0 then -gap else gap) >= margin {
      var high, low := if a.authority > b.authority then a else b, if a.authority > b.authority then b else a;
      return Some(Finding(number, ValueConflict, sources, true, [high.id])), {low.id};
    }
    finding := Some(Finding(number, ValueConflict, sources, false, []));
  }

  // ---------------------------------------------------------------------
  // Phase 1
  // ---------------------------------------------------------------------

  ghost predicate OpenGroup(evs: seq<Evidence>, d: string, scope: Scope, extract: Extract) {
    MultiVersion(Group(evs, d)) && Guarded(Group(evs, d), scope, extract)
  }

  function DropsOf(evs: seq<Evidence>, docs: set<string>, scope: Scope, extract: Extract): set<string> {
    set d, id | d in docs && Group(evs, d) != [] && Supersedes(Group(evs, d), scope, extract) && id in LoserIds(Group(evs, d)) :: id
  }

  ghost predicate SomeMulti(evs: seq<Evidence>, docs: set<string>) {
    exists d | d in docs :: MultiVersion(Group(evs, d))
  }

  ghost predicate SomeOpen(evs: seq<Evidence>, docs: set<string>, scope: Scope, extract: Extract) {
    exists d | d in docs :: OpenGroup(evs, d, scope, extract)
  }

  lemma OneMoreDoc(evs: seq<Evidence>, docs: set<string>, d: string, scope: Scope, extract: Extract)
    requires Group(evs, d) != []
    ensures SomeMulti(evs, docs + {d}) <==> SomeMulti(evs, docs) || MultiVersion(Group(evs, d))
    ensures SomeOpen(evs, docs + {d}, scope, extract) <==> SomeOpen(evs, docs, scope, extract) || OpenGroup(evs, d, scope, extract)
    ensures DropsOf(evs, docs + {d}, scope, extract) ==
            DropsOf(evs, docs, scope, extract) + (if Supersedes(Group(evs, d), scope, extract) then LoserIds(Group(evs, d)) else {})
  {
    hide Group, MultiVersion, Guarded, LoserIds, Supersedes;
  }

  lemma DocsAppend(init: seq<Evidence>, e: Evidence)
    ensures Docs(init + [e]) == Docs(init) + {e.document}
  {
    assert forall x :: x in init + [e] <==> x in init || x == e;
  }

  lemma DocsNext(evs: seq<Evidence>, i: nat)
    requires i < |evs|
    ensures Docs(evs[..i + 1]) == Docs(evs[..i]) + {evs[i].document}
    ensures Group(evs, evs[i].document) != []
  {
    hide *;
    DocsAppend(evs[..i], evs[i]);
    assert evs[..i + 1] == evs[..i] + [evs[i]];
  }

  /** The report after the groups of `seen` have been taken. */
  ghost predicate Reported(evs: seq<Evidence>, seen: set<string>, scope: Scope, extract: Extract,
                           findings: seq<Finding>, dropped: set<string>)
  {
    && Numbered(findings) && dropped == DropsOf(evs, seen, scope, extract)
    && (findings != [] <==> SomeMulti(evs, seen))
    && (AnyOpen(findings) <==> SomeOpen(evs, seen, scope, extract))
  }

  method TakeGroup(evs: seq<Evidence>, d: string, ghost seen: set<string>, scope: Scope, extract: Extract,
                   findings0: seq<Finding>, dropped0: set<string>)
    returns (findings: seq<Finding>, dropped: set<string>)
    requires Group(evs, d) != [] && Reported(evs, seen, scope, extract, findings0, dropped0)
    ensures Reported(evs, seen + {d}, scope, extract, findings, dropped)
  {
    OneMoreDoc(evs, seen, d, scope, extract);
    hide Group, MultiVersion, Guarded, LoserIds, SomeMulti, SomeOpen, DropsOf, AnyOpen, Numbered;
    findings, dropped := findings0, dropped0;
    var g := Group(evs, d);
    if MultiVersion(g) {
      var finding, drop := ResolveVersionGroup(g, |findings| + 1, scope, extract);
      OpenAppend(findings, finding);
      findings := findings + [finding];
      dropped := dropped + drop;
    }
  }

  method Phase1(evs: seq<Evidence>, scope: Scope, extract: Extract) returns (findings: seq<Finding>, dropped: set<string>)
    ensures Reported(evs, Docs(evs), scope, extract, findings, dropped) && dropped == Superseded(evs, scope, extract)
  {
    hide Group, MultiVersion, Guarded, LoserIds, Docs;
    findings, dropped := [], {};
    var seen: set<string> := {};
    NoneSeen(evs, scope, extract);
    for i := 0 to |evs|
      invariant seen == Docs(evs[..i]) && Reported(evs, seen, scope, extract, findings, dropped)
    {
      hide Reported;
      DocsNext(evs, i);
      var d := evs[i].document;
      if d !in seen {
        findings, dropped := TakeGroup(evs, d, seen, scope, extract, findings, dropped);
      } else {
        assert seen + {d} == seen;
      }
      seen := seen + {d};
    }
    assert evs[..|evs|] == evs;
  }

  lemma NoneSeen(evs: seq<Evidence>, scope: Scope, extract: Extract)
    ensures Docs(evs[..0]) == {} && Reported(evs, {}, scope, extract, [], {})
  {
  }

  lemma OpenAppend(findings: seq<Finding>, f: Finding)
    ensures AnyOpen(findings + [f]) <==> AnyOpen(findings) || !f.resolvable
    ensures Numbered(findings) && f.number == |findings| + 1 ==> Numbered(findings + [f])
  {
    var more := findings + [f];
    assert more[|findings|] == f;
    assert forall i | 0 <= i < |findings| :: more[i] == findings[i];
  }

  // ---------------------------------------------------------------------
  // Phase 2
  // ---------------------------------------------------------------------

  /** The pairs taken so far: every first item below `i`, and with `i` the second ones below `j`. */
  predicate Taken(k: int, l: int, i: int, j: int) {
    0 <= k < l && (k < i || (k == i && l < j))
  }

  function PairDrops(s: seq<Evidence>, i: int, j: int, scope: Scope, extract: Extract, margin: int): set<string> {
    set k, l | 0 <= k < |s| && 0 <= l < |s| && Taken(k, l, i, j) && Judge(s[k], s[l], scope, extract, margin).Overruled? ::
      Judge(s[k], s[l], scope, extract, margin).low.id
  }

  predicate SomePair(s: seq<Evidence>, i: int, j: int, scope: Scope, extract: Extract, margin: int, unresolved: bool) {
    exists k, l | 0 <= k < |s| && 0 <= l < |s| && Taken(k, l, i, j) ::
      var v := Judge(s[k], s[l], scope, extract, margin);
      if unresolved then v.Unresolved? else !v.NoConflict?
  }

  lemma OneMorePair(s: seq<Evidence>, i: nat, j: nat, scope: Scope, extract: Extract, margin: int)
    requires i < j < |s|
    ensures var v := Judge(s[i], s[j], scope, extract, margin);
            && PairDrops(s, i, j + 1, scope, extract, margin) ==
               PairDrops(s, i, j, scope, extract, margin) + (if v.Overruled? then {v.low.id} else {})
            && (SomePair(s, i, j + 1, scope, extract, margin, true) <==> SomePair(s, i, j, scope, extract, margin, true) || v.Unresolved?)
            && (SomePair(s, i, j + 1, scope, extract, margin, false) <==> SomePair(s, i, j, scope, extract, margin, false) || !v.NoConflict?)
  {
    hide Judge;
    var next := j + 1;
    forall k, l ensures Taken(k, l, i, next) <==> Taken(k, l, i, j) || (k == i && l == j) {
    }
    hide Taken;
  }

  lemma RowDone(s: seq<Evidence>, i: nat, scope: Scope, extract: Extract, margin: int)
    requires i < |s|
    ensures PairDrops(s, i, |s|, scope, extract, margin) == PairDrops(s, i + 1, i + 2, scope, extract, margin)
    ensures forall u :: SomePair(s, i, |s|, scope, extract, margin, u) <==> SomePair(s, i + 1, i + 2, scope, extract, margin, u)
  {
    hide Judge;
    var n, row, first := |s|, i + 1, i + 2;
    assert forall k, l | 0 <= k < n && 0 <= l < n :: Taken(k, l, i, n) <==> Taken(k, l, row, first);
  }

  lemma AllPairs(s: seq<Evidence>, scope: Scope, extract: Extract, margin: int)
    ensures PairDrops(s, |s|, |s| + 1, scope, extract, margin) == Overruled2(s, scope, extract, margin)
    ensures forall u :: SomePair(s, |s|, |s| + 1, scope, extract, margin, u) <==> AnyPair(s, scope, extract, margin, u)
    ensures PairDrops(s, 0, 1, scope, extract, margin) == {} && forall u :: !SomePair(s, 0, 1, scope, extract, margin, u)
  {
    hide Judge;
    var n, first := |s|, |s| + 1;
    assert forall k, l | 0 <= k < n && 0 <= l < n :: Taken(k, l, n, first) <==> k < l;
    assert forall k, l :: !Taken(k, l, 0, 1);
  }

  method Phase2(s: seq<Evidence>, findings0: seq<Finding>, scope: Scope, extract: Extract, margin: int)
    returns (findings: seq<Finding>, dropped: set<string>)
    requires Numbered(findings0)
    ensures Numbered(findings) && dropped == Overruled2(s, scope, extract, margin)
    ensures findings != [] <==> findings0 != [] || AnyPair(s, scope, extract, margin, false)
    ensures AnyOpen(findings) <==> AnyOpen(findings0) || AnyPair(s, scope, extract, margin, true)
  {
    hide Judge, PairDrops, SomePair, AnyOpen, Numbered, AnyPair, Overruled2;
    findings, dropped := findings0, {};
    AllPairs(s, scope, extract, margin);
    for i := 0 to |s|
      invariant Numbered(findings) && dropped == PairDrops(s, i, i + 1, scope, extract, margin)
      invariant findings != [] <==> findings0 != [] || SomePair(s, i, i + 1, scope, extract, margin, false)
      invariant AnyOpen(findings) <==> AnyOpen(findings0) || SomePair(s, i, i + 1, scope, extract, margin, true)
    {
      for j := i + 1 to |s|
        invariant Numbered(findings) && dropped == PairDrops(s, i, j, scope, extract, margin)
        invariant findings != [] <==> findings0 != [] || SomePair(s, i, j, scope, extract, margin, false)
        invariant AnyOpen(findings) <==> AnyOpen(findings0) || SomePair(s, i, j, scope, extract, margin, true)
      {
        OneMorePair(s, i, j, scope, extract, margin);
        var finding, drop := ResolvePair(s[i], s[j], |findings| + 1, scope, extract, margin);
        if finding.Some? {
          OpenAppend(findings, finding.value);
          findings := findings + [finding.value];
        }
        dropped := dropped + drop;
      }
      RowDone(s, i, scope, extract, margin);
    }
  }

  /** Both phases; the report's status and kept ids are those of the specification. */
  method Resolve(evs: seq<Evidence>, scope: Scope, extract: Extract, margin: int)
    returns (findings: seq<Finding>, status: Status, kept: seq<string>)
    ensures status == StatusOf(evs, scope, extract, margin)
    ensures kept == IdsOf(Kept(evs, scope, extract, margin))
    ensures Numbered(findings) && (findings == [] <==> status == NoConflicts) && (AnyOpen(findings) <==> status == Contradicted)
  {
    hide Superseded, Overruled2, AnyPair, Group, MultiVersion, Guarded, Judge, Without;
    var superseded: set<string>;
    findings, superseded := Phase1(evs, scope, extract);
    var survivors := Without(evs, superseded);
    var overruled: set<string>;
    findings, overruled := Phase2(survivors, findings, scope, extract, margin);
    if findings == [] {
      status := NoConflicts;
    } else if AnyOpen(findings) {
      status := Contradicted;
    } else {
      status := Resolved;
    }
    kept := IdsOf(Without(evs, superseded + overruled));
  }

  lemma {:induction false} SelectKept(evs: seq<Evidence>, dropped: set<string>, ids: set<string>)
    requires forall e | e in evs :: e.id in ids <==> e.id !in dropped
    ensures Selected(evs, ids) == Without(evs, dropped)
  {
    if evs != [] {
      var init, last := evs[..|evs| - 1], evs[|evs| - 1];
      assert last in evs && forall e | e in init :: e in evs;
      SelectKept(init, dropped, ids);
    }
  }

  function Selected(evs: seq<Evidence>, ids: set<string>): seq<Evidence> {
    if evs == [] then []
    else
      var last := evs[|evs| - 1];
      Selected(evs[..|evs| - 1], ids) + (if last.id in ids then [last] else [])
  }

  /** The stage before synthesis: temporal filter, resolver, and the surviving evidence in filter order. */
  method RunConflictStage(evs: seq<Evidence>, scope: Scope, now: Instant, extract: Extract, margin: int)
    returns (status: Status, final: seq<Evidence>)
    ensures status == StatusOf(Retained(evs, scope, now), scope, extract, margin)
    ensures final == Stage(evs, scope, now, extract, margin)
  {
    hide Superseded, Overruled2, AnyPair, Group, MultiVersion, Guarded, Judge, StatusOf, Dropped;
    var retained, filteredOut := FilterByTemporalScope(evs, scope, now);
    var findings, kept: seq<string>;
    findings, status, kept := Resolve(retained, scope, extract, margin);
    var ids := Elements(kept);
    ghost var survivors := Kept(retained, scope, extract, margin);
    forall e | e in retained ensures e.id in ids <==> e.id !in Dropped(retained, scope, extract, margin) {
      if e.id !in Dropped(retained, scope, extract, margin) {
        var i :| 0 <= i < |survivors| && survivors[i] == e;
        assert kept[i] == e.id;
      }
      if e.id in ids {
        var i :| 0 <= i < |kept| && kept[i] == e.id;
        assert survivors[i] in survivors;
      }
    }
    SelectKept(retained, Dropped(retained, scope, extract, margin), ids);
    final := Selected(retained, ids);
  }
}
