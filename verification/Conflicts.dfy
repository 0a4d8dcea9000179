/** The temporal filter and the two-phase conflict resolver over authorized evidence. */
module Conflicts {
  import opened Common

  /** Instants as naive UTC, counted from the earliest representable one. */
  type Instant = nat

  datatype Evidence = Evidence(
    id: string, document: string, version: string, authority: int,
    effectiveFrom: Option<Instant>, effectiveTo: Option<Instant>, deprecated: bool, text: string)

  datatype Scope =
    | Current
    | Unspecified
    | AsOf(date: Option<Instant>)
    | Range(start: Option<Instant>, end: Option<Instant>)

  // ---------------------------------------------------------------------
  // Temporal filter
  // ---------------------------------------------------------------------

  datatype Reason = Deprecated | Expired | NotYetEffective | OutOfWindow

  /** The evidence's effective window meets [start, end]. */
  predicate Covers(e: Evidence, start: Instant, end: Instant) {
    && (e.effectiveFrom.Some? ==> e.effectiveFrom.value <= end)
    && (e.effectiveTo.Some? ==> e.effectiveTo.value >= start)
  }

  function Objection(e: Evidence, scope: Scope, now: Instant): Option<Reason> {
    match scope
    case AsOf(date) => if date.Some? && !Covers(e, date.value, date.value) then Some(OutOfWindow) else None
    case Range(start, end) =>
      if start.Some? && end.Some? && !Covers(e, start.value, end.value) then Some(OutOfWindow) else None
    case _ =>
      if e.deprecated then Some(Deprecated)
      else if e.effectiveTo.Some? && e.effectiveTo.value < now then Some(Expired)
      else if e.effectiveFrom.Some? && e.effectiveFrom.value > now then Some(NotYetEffective)
      else None
  }

  function Retained(evs: seq<Evidence>, scope: Scope, now: Instant): seq<Evidence> {
    if evs == [] then []
    else
      var last := evs[|evs| - 1];
      Retained(evs[..|evs| - 1], scope, now) + (if Objection(last, scope, now).None? then [last] else [])
  }

  function FilteredOut(evs: seq<Evidence>, scope: Scope, now: Instant): seq<(Evidence, Reason)> {
    if evs == [] then []
    else
      var last := evs[|evs| - 1];
      FilteredOut(evs[..|evs| - 1], scope, now)
      + (if Objection(last, scope, now).Some? then [(last, Objection(last, scope, now).value)] else [])
  }

  method FilterByTemporalScope(evs: seq<Evidence>, scope: Scope, now: Instant)
    returns (retained: seq<Evidence>, filteredOut: seq<(Evidence, Reason)>)
    ensures retained == Retained(evs, scope, now) && filteredOut == FilteredOut(evs, scope, now)
  {
    retained, filteredOut := [], [];
    for i := 0 to |evs|
      invariant retained == Retained(evs[..i], scope, now) && filteredOut == FilteredOut(evs[..i], scope, now)
    {
      assert evs[..i + 1][..i] == evs[..i];
      var objection := Objection(evs[i], scope, now);
      match objection
      case None => retained := retained + [evs[i]];
      case Some(reason) => filteredOut := filteredOut + [(evs[i], reason)];
    }
    assert evs[..|evs|] == evs;
  }

  /** Nothing is added or lost: every item is retained or filtered out, once each. */
  lemma {:induction false} FilterPartitions(evs: seq<Evidence>, scope: Scope, now: Instant)
    ensures |Retained(evs, scope, now)| + |FilteredOut(evs, scope, now)| == |evs|
    ensures forall e :: e in Retained(evs, scope, now) <==> e in evs && Objection(e, scope, now).None?
  {
    if evs != [] {
      FilterPartitions(evs[..|evs| - 1], scope, now);
      assert evs == evs[..|evs| - 1] + [evs[|evs| - 1]];
    }
  }

  // ---------------------------------------------------------------------
  // Order of versions
  // ---------------------------------------------------------------------

  /** Strings compare by code point, a prefix before its extensions. */
  predicate LexLess(a: string, b: string) {
    if b == [] then false
    else if a == [] then true
    else a[0] < b[0] || (a[0] == b[0] && LexLess(a[1..], b[1..]))
  }

  lemma {:induction false} LexTotal(a: string, b: string)
    ensures LexLess(a, b) || LexLess(b, a) || a == b
    ensures !(LexLess(a, b) && LexLess(b, a)) && (LexLess(a, b) ==> a != b)
  {
    if a != [] && b != [] && a[0] == b[0] {
      LexTotal(a[1..], b[1..]);
      assert a == [a[0]] + a[1..] && b == [b[0]] + b[1..];
    }
  }

  lemma {:induction false} LexTransitive(a: string, b: string, c: string)
    requires LexLess(a, b) && LexLess(b, c)
    ensures LexLess(a, c)
  {
    if a != [] && a[0] == b[0] == c[0] { LexTransitive(a[1..], b[1..], c[1..]); }
  }

  function From(e: Evidence): Instant {
    if e.effectiveFrom.Some? then e.effectiveFrom.value else 0
  }

  /** Later effective date, then lexicographically later version. */
  predicate Older(a: Evidence, b: Evidence) {
    From(a) < From(b) || (From(a) == From(b) && LexLess(a.version, b.version))
  }

  lemma {:induction false} OlderOrders(a: Evidence, b: Evidence, c: Evidence)
    ensures Older(a, b) && Older(b, c) ==> Older(a, c)
    ensures !(Older(a, b) && Older(b, a))
    ensures Older(a, b) || Older(b, a) || (From(a) == From(b) && a.version == b.version)
    ensures From(a) == From(b) && a.version == b.version ==> (Older(a, c) <==> Older(b, c)) && (Older(c, a) <==> Older(c, b))
    ensures From(a) == From(b) && a.version == b.version ==> !Older(a, b)
  {
    LexTotal(a.version, b.version);
    if LexLess(a.version, b.version) && LexLess(b.version, c.version) { LexTransitive(a.version, b.version, c.version); }
  }

  // ---------------------------------------------------------------------
  // Phase 1: versions of one document
  // ---------------------------------------------------------------------

  datatype Assertion = Assertion(structured: bool, key: Option<string>, value: string)

  type Extract = string -> Assertion

  predicate EffectiveNow(scope: Scope) {
    !scope.Range?
  }

  /** The evidence of one document, in input order. */
  function Group(evs: seq<Evidence>, document: string): (g: seq<Evidence>)
    ensures forall e :: e in g <==> e in evs && e.document == document
  {
    if evs == [] then []
    else
      var last := evs[|evs| - 1];
      assert evs == evs[..|evs| - 1] + [last];
      Group(evs[..|evs| - 1], document) + (if last.document == document then [last] else [])
  }

  predicate MultiVersion(g: seq<Evidence>) {
    exists a, b | a in g && b in g :: a.version != b.version
  }

  /** Some pair differs in what is extracted, or at least in version. */
  predicate ValuesDiffer(g: seq<Evidence>, extract: Extract) {
    || (exists i, j | 0 <= i < j < |g| ::
          var x, y := extract(g[i].text), extract(g[j].text);
          if x.structured && y.structured then x.value != y.value else x.structured != y.structured)
    || MultiVersion(g)
  }

  /** A temporary version next to a permanent one, both in force: nothing is superseded. */
  predicate Guarded(g: seq<Evidence>, scope: Scope, extract: Extract) {
    && (exists e | e in g :: e.effectiveTo.Some?) && (exists e | e in g :: e.effectiveTo.None?)
    && EffectiveNow(scope) && ValuesDiffer(g, extract)
  }

  /** Where several versions meet, the comparison of values never decides. */
  lemma {:induction false} VersionsAlreadyDiffer(g: seq<Evidence>, scope: Scope, extract: Extract)
    requires MultiVersion(g)
    ensures Guarded(g, scope, extract) <==>
            (exists e | e in g :: e.effectiveTo.Some?) && (exists e | e in g :: e.effectiveTo.None?) && EffectiveNow(scope)
  {
  }

  /** The last item of a stable sort by age. */
  function WinnerAt(g: seq<Evidence>): (w: nat)
    requires g != []
    ensures w < |g| && forall i | 0 <= i < |g| :: !Older(g[w], g[i])
  {
    if |g| == 1 then OlderOrders(g[0], g[0], g[0]); 0
    else
      var n := |g| - 1;
      var w := WinnerAt(g[..n]);
      OlderOrders(g[n], g[n], g[w]);
      OlderOrders(g[w], g[n], g[w]);
      if Older(g[n], g[w]) then w
      else
        assert forall i | 0 <= i < n :: !Older(g[n], g[i]) by { NewerThanAll(g, n, w); }
        n
  }

  lemma {:induction false} NewerThanAll(g: seq<Evidence>, n: nat, w: nat)
    requires w < n < |g| && !Older(g[n], g[w]) && forall i | 0 <= i < n :: !Older(g[w], g[..n][i])
    ensures forall i | 0 <= i < n :: !Older(g[n], g[i])
  {
    forall i | 0 <= i < n ensures !Older(g[n], g[i]) {
      assert !Older(g[w], g[..n][i]);
      OlderOrders(g[w], g[n], g[i]);
      OlderOrders(g[n], g[w], g[i]);
    }
  }

  /** Whether phase 1 lets a newer version supersede the rest of the group. */
  predicate Supersedes(g: seq<Evidence>, scope: Scope, extract: Extract) {
    MultiVersion(g) && !Guarded(g, scope, extract)
  }

  function LoserIds(g: seq<Evidence>): set<string>
    requires g != []
  {
    set i | 0 <= i < |g| && i != WinnerAt(g) :: g[i].id
  }

  function Docs(evs: seq<Evidence>): set<string> {
    set e | e in evs :: e.document
  }

  function Superseded(evs: seq<Evidence>, scope: Scope, extract: Extract): set<string> {
    set d, id | d in Docs(evs) && Supersedes(Group(evs, d), scope, extract) && Group(evs, d) != []
                && id in LoserIds(Group(evs, d)) :: id
  }

  function Without(evs: seq<Evidence>, dropped: set<string>): (kept: seq<Evidence>)
    ensures forall e :: e in kept <==> e in evs && e.id !in dropped
  {
    if evs == [] then []
    else
      var last := evs[|evs| - 1];
      assert evs == evs[..|evs| - 1] + [last];
      Without(evs[..|evs| - 1], dropped) + (if last.id !in dropped then [last] else [])
  }

  // ---------------------------------------------------------------------
  // Phase 2: values and scopes among the survivors
  // ---------------------------------------------------------------------

  datatype Verdict = NoConflict | Complementary | Unresolved(temporary: bool) | Overruled(high: Evidence, low: Evidence)

  function Judge(a: Evidence, b: Evidence, scope: Scope, extract: Extract, margin: int): Verdict {
    var x, y := extract(a.text), extract(b.text);
    if a.document == b.document && a.version != b.version then NoConflict
    else if !x.structured || !y.structured then NoConflict
    else if x.key != y.key then Complementary
    else if x.value == y.value then NoConflict
    else if a.effectiveTo.Some? != b.effectiveTo.Some? && EffectiveNow(scope) then Unresolved(true)
    else if a.document != b.document && (a.authority - b.authority >= margin || b.authority - a.authority >= margin) then
      if a.authority > b.authority then Overruled(a, b) else Overruled(b, a)
    else Unresolved(false)
  }

  function Overruled2(s: seq<Evidence>, scope: Scope, extract: Extract, margin: int): set<string> {
    set i, j | 0 <= i < |s| && 0 <= j < |s| && i < j && Judge(s[i], s[j], scope, extract, margin).Overruled? ::
      Judge(s[i], s[j], scope, extract, margin).low.id
  }

  function Survivors(evs: seq<Evidence>, scope: Scope, extract: Extract): seq<Evidence> {
    Without(evs, Superseded(evs, scope, extract))
  }

  function Dropped(evs: seq<Evidence>, scope: Scope, extract: Extract, margin: int): set<string> {
    Superseded(evs, scope, extract) + Overruled2(Survivors(evs, scope, extract), scope, extract, margin)
  }

  function Kept(evs: seq<Evidence>, scope: Scope, extract: Extract, margin: int): seq<Evidence> {
    Without(evs, Dropped(evs, scope, extract, margin))
  }

  datatype Status = NoConflicts | Resolved | Contradicted

  predicate AnyPair(s: seq<Evidence>, scope: Scope, extract: Extract, margin: int, unresolved: bool) {
    exists i, j | 0 <= i < |s| && 0 <= j < |s| && i < j ::
      var v := Judge(s[i], s[j], scope, extract, margin);
      if unresolved then v.Unresolved? else !v.NoConflict?
  }

  function StatusOf(evs: seq<Evidence>, scope: Scope, extract: Extract, margin: int): Status {
    var s := Survivors(evs, scope, extract);
    if (exists d | d in Docs(evs) :: MultiVersion(Group(evs, d)) && Guarded(Group(evs, d), scope, extract))
       || AnyPair(s, scope, extract, margin, true) then Contradicted
    else if (exists d | d in Docs(evs) :: MultiVersion(Group(evs, d))) || AnyPair(s, scope, extract, margin, false) then Resolved
    else NoConflicts
  }

  // ---------------------------------------------------------------------
  // The laws
  // ---------------------------------------------------------------------

  ghost predicate UniqueIds(evs: seq<Evidence>) {
    forall i, j | 0 <= i < j < |evs| :: evs[i].id != evs[j].id
  }

  lemma {:induction false} IdDetermines(evs: seq<Evidence>, a: Evidence, b: Evidence)
    requires UniqueIds(evs) && a in evs && b in evs && a.id == b.id
    ensures a == b
  {
    var i :| 0 <= i < |evs| && evs[i] == a;
    var j :| 0 <= j < |evs| && evs[j] == b;
    assert i == j;
  }

  lemma {:induction false} GroupUnique(evs: seq<Evidence>, document: string)
    requires UniqueIds(evs)
    ensures UniqueIds(Group(evs, document))
  {
    if evs != [] {
      var init, last := evs[..|evs| - 1], evs[|evs| - 1];
      GroupUnique(init, document);
      var g := Group(init, document);
      assert forall i | 0 <= i < |g| :: g[i] in init && g[i].id != last.id;
    }
  }

  lemma {:induction false} WithoutUnique(evs: seq<Evidence>, dropped: set<string>)
    requires UniqueIds(evs)
    ensures UniqueIds(Without(evs, dropped))
  {
    if evs != [] {
      var init, last := evs[..|evs| - 1], evs[|evs| - 1];
      WithoutUnique(init, dropped);
      var g := Without(init, dropped);
      assert forall i | 0 <= i < |g| :: g[i] in init && g[i].id != last.id;
    }
  }

  function WinnerOf(evs: seq<Evidence>, d: string): (w: Evidence)
    requires d in Docs(evs)
    ensures w in evs && w.document == d
  {
    var g := Group(evs, d);
    assert g != [] by {
      var e :| e in evs && e.document == d;
      assert e in g;
    }
    assert g[WinnerAt(g)] in g;
    g[WinnerAt(g)]
  }

  lemma {:induction false} LosersAreOthers(g: seq<Evidence>, e: Evidence)
    requires UniqueIds(g) && e in g
    ensures e.id in LoserIds(g) <==> e != g[WinnerAt(g)]
  {
    hide WinnerAt;
    var k :| 0 <= k < |g| && g[k] == e;
    if e.id in LoserIds(g) {
      var i :| 0 <= i < |g| && i != WinnerAt(g) && g[i].id == e.id;
      IdDetermines(g, g[i], e);
      assert i == k;
    }
  }

  /** With unique ids phase 1 drops exactly the others of a superseding document. */
  lemma {:induction false} SupersededIff(evs: seq<Evidence>, e: Evidence, scope: Scope, extract: Extract)
    requires UniqueIds(evs) && e in evs
    ensures e.document in Docs(evs)
    ensures e.id in Superseded(evs, scope, extract) <==>
            Supersedes(Group(evs, e.document), scope, extract) && e != WinnerOf(evs, e.document)
  {
    hide Supersedes, WinnerAt, Older, Group;
    var g := Group(evs, e.document);
    assert e in g;
    GroupUnique(evs, e.document);
    LosersAreOthers(g, e);
    if e.id in Superseded(evs, scope, extract) {
      var d :| d in Docs(evs) && Supersedes(Group(evs, d), scope, extract) && Group(evs, d) != [] && e.id in LoserIds(Group(evs, d));
      var i :| 0 <= i < |Group(evs, d)| && i != WinnerAt(Group(evs, d)) && Group(evs, d)[i].id == e.id;
      assert Group(evs, d)[i] in Group(evs, d);
      IdDetermines(evs, Group(evs, d)[i], e);
    }
  }

  /** The winner of every document survives phase 1. */
  lemma {:induction false} WinnerSurvives(evs: seq<Evidence>, scope: Scope, extract: Extract, d: string)
    requires UniqueIds(evs) && d in Docs(evs)
    ensures WinnerOf(evs, d) in Survivors(evs, scope, extract)
  {
    hide WinnerOf, Superseded;
    SupersededIff(evs, WinnerOf(evs, d), scope, extract);
  }

  /** The item no other one outranks: highest authority, the later of equals. */
  ghost predicate Topmost(s: seq<Evidence>, t: nat)
    requires t < |s|
  {
    && (forall i | 0 <= i < t :: s[i].authority <= s[t].authority)
    && (forall i | t < i < |s| :: s[i].authority < s[t].authority)
  }

  lemma {:induction false} SomeTopmost(s: seq<Evidence>) returns (t: nat)
    requires s != []
    ensures t < |s| && Topmost(s, t)
  {
    var n := |s| - 1;
    if n == 0 {
      t := 0;
    } else {
      t := SomeTopmost(s[..n]);
      assert forall i | 0 <= i < n :: s[..n][i] == s[i];
      if s[n].authority >= s[t].authority { t := n; }
    }
  }

  /** Who is overruled has at most the other's authority, and at equal authority came first. */
  lemma {:induction false} OverruledIsLower(s: seq<Evidence>, i: nat, j: nat, scope: Scope, extract: Extract, margin: int)
    requires i < j < |s| && Judge(s[i], s[j], scope, extract, margin).Overruled?
    ensures var v := Judge(s[i], s[j], scope, extract, margin);
            if s[i].authority > s[j].authority then v == Overruled(s[i], s[j]) else v == Overruled(s[j], s[i])
  {
  }

  lemma {:induction false} TopmostStays(s: seq<Evidence>, t: nat, scope: Scope, extract: Extract, margin: int)
    requires UniqueIds(s) && t < |s| && Topmost(s, t)
    ensures s[t].id !in Overruled2(s, scope, extract, margin)
  {
    hide Judge;
    forall i, j | 0 <= i < j < |s| && Judge(s[i], s[j], scope, extract, margin).Overruled?
      ensures Judge(s[i], s[j], scope, extract, margin).low.id != s[t].id
    {
      OverruledIsLower(s, i, j, scope, extract, margin);
      var low := if s[i].authority > s[j].authority then j else i;
      assert low != t;
      assert if low < t then s[low].id != s[t].id else s[t].id != s[low].id;
    }
  }

  /** With unique ids something always remains, whatever the margin. */
  lemma {:induction false} NeverResolvesToNothing(evs: seq<Evidence>, scope: Scope, extract: Extract, margin: int)
    requires UniqueIds(evs)
    ensures Kept(evs, scope, extract, margin) == [] <==> evs == []
  {
    hide Judge, Superseded, Overruled2, Older, WinnerOf, Docs;
    if evs != [] {
      var s := Survivors(evs, scope, extract);
      DocsHold(evs, evs[0]);
      WinnerSurvives(evs, scope, extract, evs[0].document);
      WithoutUnique(evs, Superseded(evs, scope, extract));
      var t := SomeTopmost(s);
      TopmostStays(s, t, scope, extract, margin);
      assert s[t] in s;
      assert s[t] in Kept(evs, scope, extract, margin);
    }
  }

  lemma {:induction false} DocsHold(evs: seq<Evidence>, e: Evidence)
    requires e in evs
    ensures e.document in Docs(evs)
  {
  }

  /** The conflict stage: filter, then resolve. */
  function Stage(evs: seq<Evidence>, scope: Scope, now: Instant, extract: Extract, margin: int): seq<Evidence> {
    Kept(Retained(evs, scope, now), scope, extract, margin)
  }

  lemma {:induction false} RetainedUnique(evs: seq<Evidence>, scope: Scope, now: Instant)
    requires UniqueIds(evs)
    ensures UniqueIds(Retained(evs, scope, now))
  {
    if evs != [] {
      var init, last := evs[..|evs| - 1], evs[|evs| - 1];
      RetainedUnique(init, scope, now);
      FilterPartitions(init, scope, now);
      var g := Retained(init, scope, now);
      forall i | 0 <= i < |g| ensures g[i].id != last.id {
        assert g[i] in g && g[i] in init;
      }
    }
  }

  /** The stage comes back empty exactly when the temporal filter leaves nothing. */
  lemma {:induction false} StageEmptyIffFiltered(evs: seq<Evidence>, scope: Scope, now: Instant, extract: Extract, margin: int)
    requires UniqueIds(evs)
    ensures Stage(evs, scope, now, extract, margin) == [] <==> forall e | e in evs :: Objection(e, scope, now).Some?
  {
    hide Kept;
    RetainedUnique(evs, scope, now);
    FilterPartitions(evs, scope, now);
    NeverResolvesToNothing(Retained(evs, scope, now), scope, extract, margin);
    var r := Retained(evs, scope, now);
    assert r != [] ==> r[0] in r;
  }

  // ---------------------------------------------------------------------
  // Dominators
  // ---------------------------------------------------------------------

  /** `h` may stand in for `e`: same key, both structured, at least the margin more authority. */
  predicate Dominates(h: Evidence, e: Evidence, extract: Extract, margin: int) {
    && extract(h.text).structured && extract(e.text).structured && extract(h.text).key == extract(e.text).key
    && h.authority >= e.authority + margin
  }

  lemma {:induction false} OverrulerDominates(s: seq<Evidence>, e: Evidence, scope: Scope, extract: Extract, margin: int)
    returns (h: Evidence)
    requires UniqueIds(s) && e in s && e.id in Overruled2(s, scope, extract, margin) && margin > 0
    ensures h in s && Dominates(h, e, extract, margin)
  {
    var i, j :| 0 <= i < |s| && 0 <= j < |s| && i < j && Judge(s[i], s[j], scope, extract, margin).Overruled?
                && Judge(s[i], s[j], scope, extract, margin).low.id == e.id;
    var v := Judge(s[i], s[j], scope, extract, margin);
    h := v.high;
    assert v.low in s;
    IdDetermines(s, v.low, e);
  }

  /** A set of items with ever higher authority ends at one that is not overruled. */
  lemma {:induction false} LastDominatorStays(
    s: seq<Evidence>, e: Evidence, rest: set<Evidence>, scope: Scope, extract: Extract, margin: int) returns (k: Evidence)
    requires UniqueIds(s) && margin > 0 && rest != {}
    requires forall h :: h in rest <==> h in s && Dominates(h, e, extract, margin)
    ensures k in s && Dominates(k, e, extract, margin) && k.id !in Overruled2(s, scope, extract, margin)
  {
    k := Highest(rest);
    if k.id in Overruled2(s, scope, extract, margin) {
      var h := OverrulerDominates(s, k, scope, extract, margin);
      assert false;
    }
  }

  lemma {:induction false} Highest(rest: set<Evidence>) returns (k: Evidence)
    requires rest != {}
    ensures k in rest && forall h | h in rest :: h.authority <= k.authority
  {
    var x :| x in rest;
    if rest == {x} {
      k := x;
    } else {
      k := Highest(rest - {x});
      if x.authority > k.authority { k := x; }
    }
  }

  /** Every item overruled in phase 2 leaves behind a kept one on the same key with at
      least the margin more authority. */
  lemma {:induction false} LosersHaveKeptDominator(evs: seq<Evidence>, e: Evidence, scope: Scope, extract: Extract, margin: int)
    returns (k: Evidence)
    requires UniqueIds(evs) && margin > 0
    requires e in Survivors(evs, scope, extract) && e.id in Overruled2(Survivors(evs, scope, extract), scope, extract, margin)
    ensures k in Kept(evs, scope, extract, margin) && Dominates(k, e, extract, margin)
  {
    hide Judge, Superseded, Overruled2, Dominates;
    var s := Survivors(evs, scope, extract);
    WithoutUnique(evs, Superseded(evs, scope, extract));
    var h := OverrulerDominates(s, e, scope, extract, margin);
    var rest := set x | x in s && Dominates(x, e, extract, margin);
    assert h in rest;
    k := LastDominatorStays(s, e, rest, scope, extract, margin);
  }

  // ---------------------------------------------------------------------
  // Order independence
  // ---------------------------------------------------------------------

  ghost predicate SameItems(a: seq<Evidence>, b: seq<Evidence>) {
    forall e :: e in a <==> e in b
  }

  ghost predicate Newest(evs: seq<Evidence>, e: Evidence) {
    e in evs && forall x | x in evs && x.document == e.document :: !Older(e, x)
  }

  /** No superseding document has two newest items. */
  ghost predicate NewestUnique(evs: seq<Evidence>, scope: Scope, extract: Extract) {
    forall e, f | Newest(evs, e) && Newest(evs, f) && e.document == f.document && Supersedes(Group(evs, e.document), scope, extract) ::
      e == f
  }

  lemma {:induction false} WinnerIsNewest(evs: seq<Evidence>, d: string)
    requires d in Docs(evs)
    ensures Newest(evs, WinnerOf(evs, d))
  {
    var g := Group(evs, d);
    forall e | e in evs && e.document == d ensures !Older(WinnerOf(evs, d), e) {
      assert e in g;
      var i :| 0 <= i < |g| && g[i] == e;
    }
  }

  lemma {:induction false} SameWinner(a: seq<Evidence>, b: seq<Evidence>, d: string, scope: Scope, extract: Extract)
    requires SameItems(a, b) && NewestUnique(a, scope, extract) && d in Docs(a) && Supersedes(Group(a, d), scope, extract)
    ensures d in Docs(b) && WinnerOf(a, d) == WinnerOf(b, d)
  {
    hide WinnerOf, Older, Group, Supersedes;
    var e :| e in a && e.document == d;
    DocsHold(b, e);
    WinnerIsNewest(a, d);
    WinnerIsNewest(b, d);
    assert Newest(a, WinnerOf(b, d));
  }

  lemma {:induction false} SameGroup(a: seq<Evidence>, b: seq<Evidence>, d: string, scope: Scope, extract: Extract)
    requires SameItems(a, b)
    ensures MultiVersion(Group(a, d)) <==> MultiVersion(Group(b, d))
    ensures Supersedes(Group(a, d), scope, extract) <==> Supersedes(Group(b, d), scope, extract)
    ensures MultiVersion(Group(a, d)) ==> (Guarded(Group(a, d), scope, extract) <==> Guarded(Group(b, d), scope, extract))
  {
    hide Group, Guarded;
    var x, y := Group(a, d), Group(b, d);
    assert forall e :: e in x <==> e in y;
    if MultiVersion(x) {
      VersionsAlreadyDiffer(x, scope, extract);
      VersionsAlreadyDiffer(y, scope, extract);
    }
  }

  lemma {:induction false} SameSurvivors(a: seq<Evidence>, b: seq<Evidence>, scope: Scope, extract: Extract)
    requires SameItems(a, b) && UniqueIds(a) && UniqueIds(b) && NewestUnique(a, scope, extract)
    ensures forall e | e in a :: e.id in Superseded(a, scope, extract) <==> e.id in Superseded(b, scope, extract)
    ensures SameItems(Survivors(a, scope, extract), Survivors(b, scope, extract))
  {
    hide Superseded, Supersedes, Group, WinnerOf, NewestUnique;
    forall e | e in a ensures e.id in Superseded(a, scope, extract) <==> e.id in Superseded(b, scope, extract) {
      SupersededIff(a, e, scope, extract);
      SupersededIff(b, e, scope, extract);
      SameGroup(a, b, e.document, scope, extract);
      if Supersedes(Group(a, e.document), scope, extract) { SameWinner(a, b, e.document, scope, extract); }
    }
  }

  lemma {:induction false} JudgeSymmetric(x: Evidence, y: Evidence, scope: Scope, extract: Extract, margin: int)
    requires margin > 0
    ensures Judge(x, y, scope, extract, margin) == Judge(y, x, scope, extract, margin)
  {
  }

  lemma {:induction false} JudgeNames(x: Evidence, y: Evidence, scope: Scope, extract: Extract, margin: int)
    ensures var v := Judge(x, y, scope, extract, margin); v.Overruled? ==> v == Overruled(x, y) || v == Overruled(y, x)
  {
  }

  /** Being overruled does not depend on positions. */
  lemma {:induction false} OverruledIff(s: seq<Evidence>, e: Evidence, scope: Scope, extract: Extract, margin: int)
    requires UniqueIds(s) && e in s && margin > 0
    ensures e.id in Overruled2(s, scope, extract, margin) <==>
            exists h | h in s && h != e :: Judge(h, e, scope, extract, margin) == Overruled(h, e)
  {
    hide Judge;
    var k :| 0 <= k < |s| && s[k] == e;
    if e.id in Overruled2(s, scope, extract, margin) {
      var i, j :| 0 <= i < |s| && 0 <= j < |s| && i < j && Judge(s[i], s[j], scope, extract, margin).Overruled?
                  && Judge(s[i], s[j], scope, extract, margin).low.id == e.id;
      var v := Judge(s[i], s[j], scope, extract, margin);
      JudgeNames(s[i], s[j], scope, extract, margin);
      assert v.low in s && v.high in s;
      IdDetermines(s, v.low, e);
      JudgeSymmetric(s[i], s[j], scope, extract, margin);
      assert Judge(v.high, e, scope, extract, margin) == Overruled(v.high, e);
    }
    if h :| h in s && h != e && Judge(h, e, scope, extract, margin) == Overruled(h, e) {
      var i :| 0 <= i < |s| && s[i] == h;
      JudgeSymmetric(h, e, scope, extract, margin);
      if i < k { assert Judge(s[i], s[k], scope, extract, margin).low.id == e.id; }
      else { assert Judge(s[k], s[i], scope, extract, margin).low.id == e.id; }
    }
  }

  lemma {:induction false} SameOverruled(a: seq<Evidence>, b: seq<Evidence>, scope: Scope, extract: Extract, margin: int)
    requires SameItems(a, b) && UniqueIds(a) && UniqueIds(b) && margin > 0
    ensures forall e | e in a :: e.id in Overruled2(a, scope, extract, margin) <==> e.id in Overruled2(b, scope, extract, margin)
  {
    hide Judge, Overruled2;
    forall e | e in a ensures e.id in Overruled2(a, scope, extract, margin) <==> e.id in Overruled2(b, scope, extract, margin) {
      OverruledIff(a, e, scope, extract, margin);
      OverruledIff(b, e, scope, extract, margin);
    }
  }

  lemma {:induction false} PairsCarryOver(a: seq<Evidence>, b: seq<Evidence>, scope: Scope, extract: Extract, margin: int, unresolved: bool)
    requires SameItems(a, b) && UniqueIds(a) && UniqueIds(b) && margin > 0
    ensures AnyPair(a, scope, extract, margin, unresolved) ==> AnyPair(b, scope, extract, margin, unresolved)
  {
    hide Judge;
    if AnyPair(a, scope, extract, margin, unresolved) {
      var i, j :| 0 <= i < |a| && 0 <= j < |a| && i < j &&
                  var v := Judge(a[i], a[j], scope, extract, margin);
                  if unresolved then v.Unresolved? else !v.NoConflict?;
      assert a[i] in b && a[j] in b && a[i] != a[j];
      var k :| 0 <= k < |b| && b[k] == a[i];
      var l :| 0 <= l < |b| && b[l] == a[j];
      JudgeSymmetric(a[i], a[j], scope, extract, margin);
    }
  }

  /** Kept items and status do not depend on the order of the input where no superseding document has two newest items. */
  lemma {:induction false} OrderDoesNotMatter(a: seq<Evidence>, b: seq<Evidence>, scope: Scope, extract: Extract, margin: int)
    requires SameItems(a, b) && UniqueIds(a) && UniqueIds(b) && NewestUnique(a, scope, extract) && margin > 0
    ensures SameItems(Kept(a, scope, extract, margin), Kept(b, scope, extract, margin))
    ensures StatusOf(a, scope, extract, margin) == StatusOf(b, scope, extract, margin)
  {
    hide Judge, Superseded, Overruled2, AnyPair, Group, MultiVersion, Guarded, Without, NewestUnique;
    var x, y := Survivors(a, scope, extract), Survivors(b, scope, extract);
    SameSurvivors(a, b, scope, extract);
    WithoutUnique(a, Superseded(a, scope, extract));
    WithoutUnique(b, Superseded(b, scope, extract));
    SameOverruled(x, y, scope, extract, margin);
    forall e ensures e in Kept(a, scope, extract, margin) <==> e in Kept(b, scope, extract, margin) {
      assert e in x <==> e in y;
    }
    PairsCarryOver(x, y, scope, extract, margin, true);
    PairsCarryOver(y, x, scope, extract, margin, true);
    PairsCarryOver(x, y, scope, extract, margin, false);
    PairsCarryOver(y, x, scope, extract, margin, false);
    assert Docs(a) == Docs(b);
    forall d ensures (MultiVersion(Group(a, d)) <==> MultiVersion(Group(b, d)))
                     && (MultiVersion(Group(a, d)) ==> (Guarded(Group(a, d), scope, extract) <==> Guarded(Group(b, d), scope, extract)))
    {
      SameGroup(a, b, d, scope, extract);
    }
  }

  /** The same items with `x` last. */
  function MovedLast(evs: seq<Evidence>, x: Evidence): seq<Evidence> {
    Without(evs, {x.id}) + [x]
  }

  lemma MovedLastIs(evs: seq<Evidence>, x: Evidence)
    requires UniqueIds(evs) && x in evs
    ensures SameItems(evs, MovedLast(evs, x)) && UniqueIds(MovedLast(evs, x))
  {
    WithoutUnique(evs, {x.id});
    forall e | e in evs && e.id == x.id ensures e == x { IdDetermines(evs, e, x); }
    var rest := Without(evs, {x.id});
    assert forall i | 0 <= i < |rest| :: rest[i] in rest;
  }

  /** A newest item that comes last wins. */
  lemma LastNewestWins(evs: seq<Evidence>, x: Evidence)
    requires evs != [] && evs[|evs| - 1] == x && Newest(evs, x)
    ensures x.document in Docs(evs) && WinnerOf(evs, x.document) == x
  {
    var init := evs[..|evs| - 1];
    assert evs == init + [x];
    var g := Group(evs, x.document);
    assert g == Group(init, x.document) + [x];
    hide Older, Group;
    assert g[..|g| - 1] == Group(init, x.document);
    assert forall i | 0 <= i < |g| :: g[i] in g;
  }

  /** Otherwise some order changes what phase 1 leaves: the newest item that does not win would, if it came last. */
  lemma TiesDependOnOrder(a: seq<Evidence>, scope: Scope, extract: Extract) returns (b: seq<Evidence>)
    requires UniqueIds(a) && !NewestUnique(a, scope, extract)
    ensures SameItems(a, b) && UniqueIds(b) && !SameItems(Survivors(a, scope, extract), Survivors(b, scope, extract))
  {
    hide Superseded, Supersedes, Group, WinnerOf, WinnerAt, Older;
    var e, f :| Newest(a, e) && Newest(a, f) && e.document == f.document && Supersedes(Group(a, e.document), scope, extract) && e != f;
    DocsHold(a, e);
    var x := if WinnerOf(a, e.document) == e then f else e;
    b := MovedLast(a, x);
    MovedLastIs(a, x);
    LastNewestWins(b, x);
    SameGroup(a, b, x.document, scope, extract);
    SupersededIff(a, x, scope, extract);
    SupersededIff(b, x, scope, extract);
    assert x in Survivors(b, scope, extract) && x !in Survivors(a, scope, extract);
  }

  /** What phase 1 leaves is independent of the order of the input if and only if no superseding document has
      two newest items. */
  lemma SurvivorsOrderFreeIff(a: seq<Evidence>, scope: Scope, extract: Extract)
    requires UniqueIds(a)
    ensures NewestUnique(a, scope, extract) <==>
            forall b | SameItems(a, b) && UniqueIds(b) :: SameItems(Survivors(a, scope, extract), Survivors(b, scope, extract))
  {
    hide Survivors, NewestUnique, SameItems, UniqueIds;
    if NewestUnique(a, scope, extract) {
      forall b | SameItems(a, b) && UniqueIds(b) ensures SameItems(Survivors(a, scope, extract), Survivors(b, scope, extract)) {
        SameSurvivors(a, b, scope, extract);
      }
    } else {
      var b := TiesDependOnOrder(a, scope, extract);
    }
  }

  /** A superseding document is left with one item, also when several share its newest version. */
  lemma {:induction false} OneItemPerSupersedingDocument(evs: seq<Evidence>, e: Evidence, f: Evidence, scope: Scope, extract: Extract)
    requires UniqueIds(evs) && e in Survivors(evs, scope, extract) && f in Survivors(evs, scope, extract)
    requires e.document == f.document && Supersedes(Group(evs, e.document), scope, extract)
    ensures e == f
  {
    hide Superseded, Supersedes, WinnerOf, Group;
    SupersededIff(evs, e, scope, extract);
    SupersededIff(evs, f, scope, extract);
  }
}
