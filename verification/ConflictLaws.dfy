/** What the conflict stage keeps, in terms of dates, versions, values and authority. */
module ConflictLaws {
  import opened Common
  import opened Conflicts

  // ---------------------------------------------------------------------
  // Time
  // ---------------------------------------------------------------------

  /** In force at `t`; a missing bound is open. */
  predicate InForce(e: Evidence, t: Instant) {
    (e.effectiveFrom.None? || e.effectiveFrom.value <= t) && (e.effectiveTo.None? || t <= e.effectiveTo.value)
  }

  predicate OrderedWindow(e: Evidence) {
    e.effectiveFrom.Some? && e.effectiveTo.Some? ==> e.effectiveFrom.value <= e.effectiveTo.value
  }

  /** At one instant an item is retained exactly when it is in force then; without a date always. */
  lemma AsOfKeepsIff(e: Evidence, date: Option<Instant>, now: Instant)
    ensures Objection(e, AsOf(date), now).None? <==> date.None? || InForce(e, date.value)
    ensures Objection(e, AsOf(date), now).Some? ==> Objection(e, AsOf(date), now) == Some(OutOfWindow)
  {
  }

  /** Over a range it is retained exactly when it is in force at some instant of the range; a range with an
      open end retains everything. */
  lemma RangeKeepsIff(e: Evidence, start: Option<Instant>, end: Option<Instant>, now: Instant)
    requires OrderedWindow(e) && (start.Some? && end.Some? ==> start.value <= end.value)
    ensures Objection(e, Range(start, end), now).None? <==>
            start.None? || end.None? || exists t :: start.value <= t <= end.value && InForce(e, t)
    ensures Objection(e, Range(start, end), now).Some? ==> Objection(e, Range(start, end), now) == Some(OutOfWindow)
  {
    if start.Some? && end.Some? && Objection(e, Range(start, end), now).None? {
      var t := if e.effectiveFrom.Some? && e.effectiveFrom.value > start.value then e.effectiveFrom.value else start.value;
      assert start.value <= t <= end.value && InForce(e, t);
    }
  }

  /** Otherwise it is retained exactly when it is in force now and not deprecated, and the reason says which of the
      two fails, and at which end. */
  lemma CurrentKeepsIff(e: Evidence, scope: Scope, now: Instant)
    requires scope.Current? || scope.Unspecified?
    ensures Objection(e, scope, now).None? <==> !e.deprecated && InForce(e, now)
    ensures Objection(e, scope, now) == Some(Deprecated) <==> e.deprecated
    ensures Objection(e, scope, now) == Some(Expired) <==> !e.deprecated && e.effectiveTo.Some? && e.effectiveTo.value < now
    ensures Objection(e, scope, now) == Some(NotYetEffective) ==> e.effectiveFrom.Some? && now < e.effectiveFrom.value
  {
  }

  // ---------------------------------------------------------------------
  // Versions
  // ---------------------------------------------------------------------

  /** `a` is a proper prefix of `b`, or smaller where they first differ. */
  ghost predicate FirstDifference(a: string, b: string, i: nat) {
    i <= |a| && i < |b| && a[..i] == b[..i] && (i == |a| || a[i] < b[i])
  }

  lemma SameHead(a: string, b: string, i: nat)
    ensures 0 < i <= |a| && i <= |b| && a[..i] == b[..i] ==> a[0] == b[0]
  {
    if 0 < i <= |a| && i <= |b| && a[..i] == b[..i] { assert a[..i][0] == b[..i][0]; }
  }

  lemma {:induction false} LexLessIff(a: string, b: string)
    ensures LexLess(a, b) <==> exists i: nat :: FirstDifference(a, b, i)
  {
    if a == [] || b == [] || a[0] != b[0] {
      assert b != [] && (a == [] || a[0] < b[0]) ==> FirstDifference(a, b, 0);
      forall i: nat | FirstDifference(a, b, i) ensures LexLess(a, b) { SameHead(a, b, i); }
    } else {
      LexLessIff(a[1..], b[1..]);
      if i: nat :| FirstDifference(a[1..], b[1..], i) {
        assert a[..i + 1] == [a[0]] + a[1..][..i] && b[..i + 1] == [b[0]] + b[1..][..i];
        assert FirstDifference(a, b, i + 1);
      }
      forall i: nat | FirstDifference(a, b, i) ensures LexLess(a, b) {
        assert i > 0;
        assert a[1..][..i - 1] == a[..i][1..] && b[1..][..i - 1] == b[..i][1..];
        assert FirstDifference(a[1..], b[1..], i - 1);
      }
    }
  }

  /** `w` takes effect no earlier than `e`, and has no smaller version if at the same time; a missing date is the
      earliest instant. */
  ghost predicate NoOlder(w: Evidence, e: Evidence) {
    var from, other := if w.effectiveFrom.Some? then w.effectiveFrom.value else 0,
                       if e.effectiveFrom.Some? then e.effectiveFrom.value else 0;
    other <= from && (other == from ==> !LexLess(w.version, e.version))
  }

  /** The one item phase 1 leaves of a document is the latest. */
  lemma WinnerIsLatest(evs: seq<Evidence>, e: Evidence)
    requires e in evs
    ensures e.document in Docs(evs) && NoOlder(WinnerOf(evs, e.document), e)
  {
    hide WinnerOf;
    WinnerIsNewest(evs, e.document);
  }

  /** Two versions of document `d`, and not both a temporary and a permanent one, unless over a range. */
  ghost predicate Replaceable(evs: seq<Evidence>, d: string, scope: Scope) {
    && (exists a, b | a in evs && b in evs :: a.document == d && b.document == d && a.version != b.version)
    && (scope.Range?
        || (forall e | e in evs && e.document == d :: e.effectiveTo.Some?)
        || (forall e | e in evs && e.document == d :: e.effectiveTo.None?))
  }

  lemma SupersedesIff(evs: seq<Evidence>, d: string, scope: Scope, extract: Extract)
    ensures Supersedes(Group(evs, d), scope, extract) <==> Replaceable(evs, d, scope)
  {
    hide Group, ValuesDiffer;
    var g := Group(evs, d);
    if MultiVersion(g) { VersionsAlreadyDiffer(g, scope, extract); }
    assert forall e :: e in g <==> e in evs && e.document == d;
  }

  /** Phase 1 keeps an item exactly when nothing is replaceable in its document, or it is the winner; the winner
      is the latest item of its document. */
  lemma FirstPhaseKeepsIff(evs: seq<Evidence>, e: Evidence, scope: Scope, extract: Extract)
    requires UniqueIds(evs) && e in evs
    ensures e.document in Docs(evs)
    ensures e in Survivors(evs, scope, extract) <==> !Replaceable(evs, e.document, scope) || e == WinnerOf(evs, e.document)
    ensures forall o | o in evs && o.document == e.document :: NoOlder(WinnerOf(evs, e.document), o)
  {
    hide Superseded, Supersedes, WinnerOf, Group, Replaceable, NoOlder;
    SupersededIff(evs, e, scope, extract);
    SupersedesIff(evs, e.document, scope, extract);
    forall o | o in evs && o.document == e.document ensures NoOlder(WinnerOf(evs, e.document), o) { WinnerIsLatest(evs, o); }
  }

  // ---------------------------------------------------------------------
  // Values and authority
  // ---------------------------------------------------------------------

  /** Both say something structured, and they are not two versions of one document. */
  predicate Comparable(a: Evidence, b: Evidence, extract: Extract) {
    extract(a.text).structured && extract(b.text).structured && (a.document != b.document || a.version == b.version)
  }

  /** They say different things of one key. */
  predicate Contend(a: Evidence, b: Evidence, extract: Extract) {
    Comparable(a, b, extract) && extract(a.text).key == extract(b.text).key && extract(a.text).value != extract(b.text).value
  }

  /** A temporary and a permanent item, compared at one instant. */
  predicate Coexist(a: Evidence, b: Evidence, scope: Scope) {
    !scope.Range? && (a.effectiveTo.Some? <==> b.effectiveTo.None?)
  }

  /** `h` contends with `l` from another document and has at least the margin more authority. */
  predicate Outranks(h: Evidence, l: Evidence, scope: Scope, extract: Extract, margin: int) {
    Contend(h, l, extract) && !Coexist(h, l, scope) && h.document != l.document && h.authority >= l.authority + margin
  }

  lemma JudgedIff(a: Evidence, b: Evidence, scope: Scope, extract: Extract, margin: int)
    requires margin > 0
    ensures var v := Judge(a, b, scope, extract, margin);
            && (v == Overruled(a, b) <==> Outranks(a, b, scope, extract, margin))
            && (v.Overruled? <==> Outranks(a, b, scope, extract, margin) || Outranks(b, a, scope, extract, margin))
            && (v.Unresolved? <==> Contend(a, b, extract) && !v.Overruled?)
            && (v.Unresolved? ==> (v.temporary <==> Coexist(a, b, scope)))
            && (v.Complementary? <==> Comparable(a, b, extract) && extract(a.text).key != extract(b.text).key)
  {
  }

  /** Phase 2 drops an item exactly when another one that is left outranks it. */
  lemma SecondPhaseDropsIff(s: seq<Evidence>, e: Evidence, scope: Scope, extract: Extract, margin: int)
    requires UniqueIds(s) && e in s && margin > 0
    ensures e.id in Overruled2(s, scope, extract, margin) <==> exists h | h in s :: Outranks(h, e, scope, extract, margin)
  {
    hide Judge, Overruled2;
    OverruledIff(s, e, scope, extract, margin);
    forall h | h in s ensures Judge(h, e, scope, extract, margin) == Overruled(h, e) <==> Outranks(h, e, scope, extract, margin) {
      JudgedIff(h, e, scope, extract, margin);
    }
  }

  /** The evidence is contradictory exactly when versions of one document cannot be told apart, or two items that are
      left contend and neither outranks the other. */
  lemma ContradictedIff(evs: seq<Evidence>, scope: Scope, extract: Extract, margin: int)
    requires margin > 0
    ensures var s := Survivors(evs, scope, extract);
            StatusOf(evs, scope, extract, margin) == Contradicted <==>
            || (exists a, b | a in evs && b in evs :: a.document == b.document && a.version != b.version && !Replaceable(evs, a.document, scope))
            || (exists i, j | 0 <= i < j < |s| ::
                  Contend(s[i], s[j], extract)
                  && !Outranks(s[i], s[j], scope, extract, margin) && !Outranks(s[j], s[i], scope, extract, margin))
  {
    hide Judge, Guarded, MultiVersion, Group, Docs, Survivors, Outranks, Contend, Replaceable;
    var s := Survivors(evs, scope, extract);
    forall i, j | 0 <= i < j < |s|
      ensures Judge(s[i], s[j], scope, extract, margin).Unresolved? <==>
              Contend(s[i], s[j], extract) && !Outranks(s[i], s[j], scope, extract, margin) && !Outranks(s[j], s[i], scope, extract, margin)
    {
      JudgedIff(s[i], s[j], scope, extract, margin);
    }
    IndistinctIff(evs, scope, extract);
  }

  lemma IndistinctIff(evs: seq<Evidence>, scope: Scope, extract: Extract)
    ensures (exists d | d in Docs(evs) :: MultiVersion(Group(evs, d)) && Guarded(Group(evs, d), scope, extract)) <==>
            exists a, b | a in evs && b in evs :: a.document == b.document && a.version != b.version && !Replaceable(evs, a.document, scope)
  {
    hide Guarded, Group, Replaceable;
    forall d ensures MultiVersion(Group(evs, d)) && Guarded(Group(evs, d), scope, extract) <==>
                     MultiVersion(Group(evs, d)) && !Replaceable(evs, d, scope)
    {
      SupersedesIff(evs, d, scope, extract);
    }
    forall a, b | a in evs && b in evs && a.document == b.document && a.version != b.version
      ensures a.document in Docs(evs) && MultiVersion(Group(evs, a.document))
    {
      assert a in Group(evs, a.document) && b in Group(evs, a.document);
    }
    if d :| d in Docs(evs) && MultiVersion(Group(evs, d)) && Guarded(Group(evs, d), scope, extract) {
      var a, b :| a in Group(evs, d) && b in Group(evs, d) && a.version != b.version;
      assert a in evs && b in evs && a.document == d == b.document;
    }
  }

  /** It is free of conflicts exactly when no document has two versions, and any two comparable items say the same of one key. */
  lemma ConflictFreeIff(evs: seq<Evidence>, scope: Scope, extract: Extract, margin: int)
    requires margin > 0
    ensures var s := Survivors(evs, scope, extract);
            StatusOf(evs, scope, extract, margin) == NoConflicts <==>
            && (forall a, b | a in evs && b in evs && a.document == b.document :: a.version == b.version)
            && (forall i, j | 0 <= i < j < |s| && Comparable(s[i], s[j], extract) ::
                  extract(s[i].text).key == extract(s[j].text).key && extract(s[i].text).value == extract(s[j].text).value)
  {
    hide Guarded, Group, Survivors, Judge, Outranks, Comparable, Docs;
    var s := Survivors(evs, scope, extract);
    forall i, j | 0 <= i < j < |s|
      ensures Judge(s[i], s[j], scope, extract, margin).NoConflict? <==>
              (Comparable(s[i], s[j], extract) ==>
                 extract(s[i].text).key == extract(s[j].text).key && extract(s[i].text).value == extract(s[j].text).value)
    {
      QuietIff(s[i], s[j], scope, extract, margin);
    }
    VersionsApart(evs);
  }

  lemma QuietIff(a: Evidence, b: Evidence, scope: Scope, extract: Extract, margin: int)
    ensures Judge(a, b, scope, extract, margin).NoConflict? <==>
            (Comparable(a, b, extract) ==> extract(a.text).key == extract(b.text).key && extract(a.text).value == extract(b.text).value)
  {
  }

  lemma VersionsApart(evs: seq<Evidence>)
    ensures (exists d | d in Docs(evs) :: MultiVersion(Group(evs, d))) <==>
            exists a, b | a in evs && b in evs :: a.document == b.document && a.version != b.version
  {
    hide Group;
    forall a, b | a in evs && b in evs && a.document == b.document && a.version != b.version
      ensures a.document in Docs(evs) && MultiVersion(Group(evs, a.document))
    {
      assert a in Group(evs, a.document) && b in Group(evs, a.document);
    }
    if d :| d in Docs(evs) && MultiVersion(Group(evs, d)) {
      var a, b :| a in Group(evs, d) && b in Group(evs, d) && a.version != b.version;
      assert a in evs && b in evs && a.document == d == b.document;
    }
  }
}
