/** Collapsing overlapping retrieval hits: three keyed passes over the candidates, then a stable sort by score. */
module Deduplication {
  import opened Common

  datatype Hit = Hit(corpus: string, document: string, version: string, parent: string, chunk: string, score: real)

  /** The retrieval that surfaced a hit. */
  datatype Context = Context(query: string, iteration: int, step: Option<string>)

  datatype Source = Source(
    corpus: string, document: string, version: string, parent: string, chunk: string, authority: int)

  datatype Candidate = Candidate(
    hit: Hit, text: string, authority: int, contexts: seq<Context>, duplicates: seq<Source>)

  function Record(c: Candidate): Source {
    Source(c.hit.corpus, c.hit.document, c.hit.version, c.hit.parent, c.hit.chunk, c.authority)
  }

  datatype Pass = BySpan | ByParent | ByText

  datatype Key =
    | SpanKey(document: string, version: string, chunk: string)
    | ParentKey(parent: string)
    | TextKey(text: string)

  function KeyOf(pass: Pass, c: Candidate, normalize: string -> string): Key {
    match pass
    case BySpan => SpanKey(c.hit.document, c.hit.version, c.hit.chunk)
    case ByParent => ParentKey(c.hit.parent)
    case ByText => TextKey(normalize(c.text))
  }

  /** Does `c` take the group over from `than`? Text groups rank by authority first. */
  predicate Better(pass: Pass, c: Candidate, than: Candidate) {
    if pass == ByText && c.authority != than.authority then c.authority > than.authority
    else c.hit.score > than.hit.score
  }

  // ---------------------------------------------------------------------
  // Folding
  // ---------------------------------------------------------------------

  function MergeContexts(kept: seq<Context>, incoming: seq<Context>): (merged: seq<Context>) {
    if incoming == [] then kept
    else
      var before := MergeContexts(kept, incoming[..|incoming| - 1]);
      var last := incoming[|incoming| - 1];
      if last in before then before else before + [last]
  }

  lemma {:induction false} MergeKeepsContexts(kept: seq<Context>, incoming: seq<Context>)
    ensures forall x :: x in MergeContexts(kept, incoming) <==> x in kept || x in incoming
    ensures kept <= MergeContexts(kept, incoming)
  {
    if incoming != [] {
      MergeKeepsContexts(kept, incoming[..|incoming| - 1]);
      assert incoming == incoming[..|incoming| - 1] + [incoming[|incoming| - 1]];
    }
  }

  function Fold(keep: Candidate, incoming: Candidate): Candidate {
    keep.(
      contexts := MergeContexts(keep.contexts, incoming.contexts),
      duplicates := keep.duplicates + [Record(incoming)] + incoming.duplicates)
  }

  /** Everything a candidate stands for: its own source and those folded into it. */
  function Absorbed(c: Candidate): multiset<Source> {
    multiset{Record(c)} + multiset(c.duplicates)
  }

  function AllAbsorbed(cs: seq<Candidate>): multiset<Source> {
    if cs == [] then multiset{} else AllAbsorbed(cs[..|cs| - 1]) + Absorbed(cs[|cs| - 1])
  }

  lemma {:induction false} AllAbsorbedUpdate(cs: seq<Candidate>, i: nat, c: Candidate)
    requires i < |cs|
    ensures AllAbsorbed(cs[i := c]) + Absorbed(cs[i]) == AllAbsorbed(cs) + Absorbed(c)
  {
    var n := |cs| - 1;
    if i == n {
      assert cs[i := c][..n] == cs[..n];
    } else {
      AllAbsorbedUpdate(cs[..n], i, c);
      assert cs[i := c][..n] == cs[..n][i := c] && cs[i := c][n] == cs[n];
      hide Absorbed;
      AddBoth(AllAbsorbed(cs[..n][i := c]), Absorbed(cs[i]), AllAbsorbed(cs[..n]), Absorbed(c), Absorbed(cs[n]));
    }
  }

  lemma AddBoth<T>(a: multiset<T>, b: multiset<T>, c: multiset<T>, d: multiset<T>, e: multiset<T>)
    requires a + b == c + d
    ensures (a + e) + b == (c + e) + d
  {
    assert (a + e) + b == (a + b) + e && (c + e) + d == (c + d) + e;
  }

  /** `s` answers for `c`: it accounts for all of its sources and holds all of its contexts. */
  ghost predicate KeptBy(c: Candidate, s: Candidate) {
    && Absorbed(c) <= Absorbed(s)
    && (forall x | x in c.contexts :: x in s.contexts)
  }

  /** The same retrieved hit, whatever was folded into it. */
  predicate SameHit(c: Candidate, s: Candidate) {
    c.hit == s.hit && c.text == s.text && c.authority == s.authority
  }

  lemma FoldLaws(keep: Candidate, incoming: Candidate)
    ensures Absorbed(Fold(keep, incoming)) == Absorbed(keep) + Absorbed(incoming)
    ensures SameHit(keep, Fold(keep, incoming))
    ensures KeptBy(keep, Fold(keep, incoming)) && KeptBy(incoming, Fold(keep, incoming))
    ensures forall x | x in Fold(keep, incoming).contexts :: x in keep.contexts || x in incoming.contexts
  {
    MergeKeepsContexts(keep.contexts, incoming.contexts);
  }

  // ---------------------------------------------------------------------
  // One pass
  // ---------------------------------------------------------------------

  /** Position of the group of key `k`, or the number of groups. */
  function Find(groups: seq<Candidate>, k: Key, pass: Pass, normalize: string -> string): (i: nat)
    ensures i <= |groups| && (i < |groups| ==> KeyOf(pass, groups[i], normalize) == k)
    ensures forall j | 0 <= j < i :: KeyOf(pass, groups[j], normalize) != k
  {
    if groups == [] then 0
    else
      var n := |groups| - 1;
      var i := Find(groups[..n], k, pass, normalize);
      if i < n || KeyOf(pass, groups[n], normalize) == k then i else n + 1
  }

  /** The group's survivor once candidate `c` has met the former one. */
  function Joined(held: Candidate, c: Candidate, pass: Pass): Candidate {
    if Better(pass, c, held) then Fold(c, held) else Fold(held, c)
  }

  lemma JoinedLaws(held: Candidate, c: Candidate, pass: Pass, normalize: string -> string)
    requires KeyOf(pass, held, normalize) == KeyOf(pass, c, normalize)
    ensures var s := Joined(held, c, pass);
      && KeyOf(pass, s, normalize) == KeyOf(pass, c, normalize)
      && Absorbed(s) == Absorbed(held) + Absorbed(c)
      && SameHit(if Better(pass, c, held) then c else held, s)
      && KeptBy(held, s) && KeptBy(c, s)
      && forall x | x in s.contexts :: x in held.contexts || x in c.contexts
  {
    FoldLaws(c, held);
    FoldLaws(held, c);
    assert Absorbed(c) + Absorbed(held) == Absorbed(held) + Absorbed(c);
  }

  function Insert(groups: seq<Candidate>, c: Candidate, pass: Pass, normalize: string -> string): seq<Candidate> {
    var i := Find(groups, KeyOf(pass, c, normalize), pass, normalize);
    if i == |groups| then groups + [c] else groups[i := Joined(groups[i], c, pass)]
  }

  function Collapse(cs: seq<Candidate>, pass: Pass, normalize: string -> string): seq<Candidate> {
    if cs == [] then []
    else Insert(Collapse(cs[..|cs| - 1], pass, normalize), cs[|cs| - 1], pass, normalize)
  }

  lemma {:induction false} CollapseNext(cs: seq<Candidate>, pass: Pass, normalize: string -> string)
    requires cs != []
    ensures Collapse(cs, pass, normalize)
            == Insert(Collapse(cs[..|cs| - 1], pass, normalize), cs[|cs| - 1], pass, normalize)
  {
  }

  ghost predicate Distinct(cs: seq<Candidate>, pass: Pass, normalize: string -> string) {
    forall i, j | 0 <= i < j < |cs| :: KeyOf(pass, cs[i], normalize) != KeyOf(pass, cs[j], normalize)
  }

  lemma InsertLaws(groups: seq<Candidate>, c: Candidate, pass: Pass, normalize: string -> string)
    requires Distinct(groups, pass, normalize)
    ensures Distinct(Insert(groups, c, pass, normalize), pass, normalize)
    ensures AllAbsorbed(Insert(groups, c, pass, normalize)) == AllAbsorbed(groups) + Absorbed(c)
  {
    hide Joined, KeyOf, Absorbed, KeptBy;
    var i := Find(groups, KeyOf(pass, c, normalize), pass, normalize);
    if i == |groups| {
      assert (groups + [c])[..|groups|] == groups;
    } else {
      var s := Joined(groups[i], c, pass);
      JoinedLaws(groups[i], c, pass, normalize);
      AllAbsorbedUpdate(groups, i, s);
      assert AllAbsorbed(groups[i := s]) == AllAbsorbed(groups) + Absorbed(c) by {
        Cancel(AllAbsorbed(groups[i := s]), Absorbed(groups[i]), AllAbsorbed(groups), Absorbed(c));
      }
    }
  }

  lemma Cancel<T>(a: multiset<T>, b: multiset<T>, c: multiset<T>, d: multiset<T>)
    requires a + b == c + (b + d)
    ensures a == c + d
  {
    assert a == (a + b) - b && c + d == (c + (b + d)) - b;
  }

  /** A pass leaves one survivor per key and neither loses nor duplicates a source. */
  lemma {:induction false} CollapseConserves(cs: seq<Candidate>, pass: Pass, normalize: string -> string)
    ensures Distinct(Collapse(cs, pass, normalize), pass, normalize)
    ensures AllAbsorbed(Collapse(cs, pass, normalize)) == AllAbsorbed(cs)
  {
    if cs != [] {
      CollapseConserves(cs[..|cs| - 1], pass, normalize);
      InsertLaws(Collapse(cs[..|cs| - 1], pass, normalize), cs[|cs| - 1], pass, normalize);
    }
  }

  /** Candidate `i` wins its group: strictly better than every earlier member, not bettered by a later one. */
  ghost predicate Champion(cs: seq<Candidate>, i: nat, pass: Pass, normalize: string -> string)
    requires i < |cs|
  {
    forall j | 0 <= j < |cs| && j != i && KeyOf(pass, cs[j], normalize) == KeyOf(pass, cs[i], normalize) ::
      if j < i then Better(pass, cs[i], cs[j]) else !Better(pass, cs[j], cs[i])
  }

  /** Some candidate that `s` answers for brought context `x`. */
  ghost predicate CameFrom(x: Context, s: Candidate, cs: seq<Candidate>) {
    exists j :: 0 <= j < |cs| && x in cs[j].contexts && KeptBy(cs[j], s)
  }

  /** Survivor `s` is the hit of candidate `i`, the champion of its group, and holds no invented context. */
  ghost predicate Represents(s: Candidate, i: nat, cs: seq<Candidate>, pass: Pass, normalize: string -> string) {
    && i < |cs| && SameHit(cs[i], s) && Champion(cs, i, pass, normalize)
    && (forall x | x in s.contexts :: CameFrom(x, s, cs))
  }

  ghost predicate Elected(s: Candidate, cs: seq<Candidate>, pass: Pass, normalize: string -> string) {
    exists i :: Represents(s, i, cs, pass, normalize)
  }

  ghost predicate Answered(
      c: Candidate, out: seq<Candidate>, pass: Pass, normalize: string -> string) {
    exists j :: 0 <= j < |out| && KeptBy(c, out[j]) && KeyOf(pass, out[j], normalize) == KeyOf(pass, c, normalize)
  }

  /** Every candidate is answered for by the survivor of its group. */
  lemma {:induction false} EveryoneIsAnswered(cs: seq<Candidate>, pass: Pass, normalize: string -> string)
    ensures forall c | c in cs :: Answered(c, Collapse(cs, pass, normalize), pass, normalize)
  {
    if cs != [] {
      hide KeyOf, Collapse, KeptBy, Insert, Answered;
      CollapseNext(cs, pass, normalize);
      var before, last := cs[..|cs| - 1], cs[|cs| - 1];
      assert cs == before + [last];
      EveryoneIsAnswered(before, pass, normalize);
      forall c | c in cs ensures Answered(c, Collapse(cs, pass, normalize), pass, normalize) {
        InsertAnswers(Collapse(before, pass, normalize), last, c, pass, normalize);
      }
    }
  }

  lemma InsertAnswers(
      groups: seq<Candidate>, c: Candidate, earlier: Candidate, pass: Pass, normalize: string -> string)
    requires earlier == c || Answered(earlier, groups, pass, normalize)
    ensures Answered(earlier, Insert(groups, c, pass, normalize), pass, normalize)
  {
    hide Joined, KeyOf, Absorbed;
    var k := Find(groups, KeyOf(pass, c, normalize), pass, normalize);
    var out := Insert(groups, c, pass, normalize);
    if k < |groups| {
      JoinedLaws(groups[k], c, pass, normalize);
    }
    if earlier == c {
      assert KeptBy(c, out[k]);
    } else {
      var j :| 0 <= j < |groups| && KeptBy(earlier, groups[j])
        && KeyOf(pass, groups[j], normalize) == KeyOf(pass, earlier, normalize);
      assert KeptBy(earlier, out[j]);
    }
  }

  lemma SameHitSameKey(c: Candidate, s: Candidate, pass: Pass, normalize: string -> string)
    requires SameHit(c, s)
    ensures KeyOf(pass, c, normalize) == KeyOf(pass, s, normalize)
    ensures forall d :: (Better(pass, c, d) <==> Better(pass, s, d)) && (Better(pass, d, c) <==> Better(pass, d, s))
  {
  }

  lemma KeptByTransitive(a: Candidate, b: Candidate, c: Candidate)
    requires KeptBy(a, b) && KeptBy(b, c)
    ensures KeptBy(a, c)
  {
  }

  lemma ContextsStillCameFrom(held: Candidate, c: Candidate, s: Candidate, before: seq<Candidate>)
    requires forall x | x in held.contexts :: CameFrom(x, held, before)
    requires KeptBy(held, s) && KeptBy(c, s)
    requires forall x | x in s.contexts :: x in held.contexts || x in c.contexts
    ensures forall x | x in s.contexts :: CameFrom(x, s, before + [c])
  {
    var cs := before + [c];
    forall x | x in s.contexts ensures CameFrom(x, s, cs) {
      if x in held.contexts {
        var j :| 0 <= j < |before| && x in before[j].contexts && KeptBy(before[j], held);
        KeptByTransitive(before[j], held, s);
        assert cs[j] == before[j];
      } else {
        assert cs[|before|] == c;
      }
    }
  }

  /** The champion of a group when `c` arrives: the former one, or `c` if it is strictly better. */
  lemma ChampionStep(before: seq<Candidate>, i: nat, c: Candidate, pass: Pass, normalize: string -> string)
    requires i < |before| && Champion(before, i, pass, normalize)
    requires KeyOf(pass, c, normalize) == KeyOf(pass, before[i], normalize)
    ensures Champion(before + [c], if Better(pass, c, before[i]) then |before| else i, pass, normalize)
  {
    var cs := before + [c];
    var w := if Better(pass, c, before[i]) then |before| else i;
    forall j | 0 <= j < |cs| && j != w && KeyOf(pass, cs[j], normalize) == KeyOf(pass, cs[w], normalize)
      ensures if j < w then Better(pass, cs[w], cs[j]) else !Better(pass, cs[j], cs[w])
    {
      assert j < |before| ==> cs[j] == before[j];
    }
  }

  lemma ChampionUntouched(before: seq<Candidate>, i: nat, c: Candidate, pass: Pass, normalize: string -> string)
    requires i < |before| && Champion(before, i, pass, normalize)
    requires KeyOf(pass, c, normalize) != KeyOf(pass, before[i], normalize)
    ensures Champion(before + [c], i, pass, normalize)
  {
    var cs := before + [c];
    assert cs[i] == before[i];
    forall j | 0 <= j < |cs| && j != i && KeyOf(pass, cs[j], normalize) == KeyOf(pass, cs[i], normalize)
      ensures if j < i then Better(pass, cs[i], cs[j]) else !Better(pass, cs[j], cs[i])
    {
      assert cs[j] == before[j];
    }
  }

  /** The group `c` joins is still represented, by its champion among the longer input. */
  lemma ElectedAfterJoin(
      before: seq<Candidate>, held: Candidate, c: Candidate, pass: Pass, normalize: string -> string)
    requires Elected(held, before, pass, normalize)
    requires KeyOf(pass, held, normalize) == KeyOf(pass, c, normalize)
    ensures Elected(Joined(held, c, pass), before + [c], pass, normalize)
  {
    var cs, s := before + [c], Joined(held, c, pass);
    var i: nat :| Represents(held, i, before, pass, normalize);
    JoinedLaws(held, c, pass, normalize);
    SameHitSameKey(before[i], held, pass, normalize);
    ChampionStep(before, i, c, pass, normalize);
    ContextsStillCameFrom(held, c, s, before);
    assert cs[i] == before[i] && cs[|before|] == c;
    assert Represents(s, if Better(pass, c, held) then |before| else i, cs, pass, normalize);
  }

  lemma ElectedUntouched(
      before: seq<Candidate>, held: Candidate, c: Candidate, pass: Pass, normalize: string -> string)
    requires Elected(held, before, pass, normalize)
    requires KeyOf(pass, held, normalize) != KeyOf(pass, c, normalize)
    ensures Elected(held, before + [c], pass, normalize)
  {
    var cs := before + [c];
    var i: nat :| Represents(held, i, before, pass, normalize);
    SameHitSameKey(before[i], held, pass, normalize);
    ChampionUntouched(before, i, c, pass, normalize);
    forall x | x in held.contexts ensures CameFrom(x, held, cs) {
      var j :| 0 <= j < |before| && x in before[j].contexts && KeptBy(before[j], held);
      assert cs[j] == before[j];
    }
    assert cs[i] == before[i];
    assert Represents(held, i, cs, pass, normalize);
  }

  lemma ElectedAlone(before: seq<Candidate>, c: Candidate, pass: Pass, normalize: string -> string)
    requires forall j | 0 <= j < |before| :: KeyOf(pass, before[j], normalize) != KeyOf(pass, c, normalize)
    ensures Elected(c, before + [c], pass, normalize)
  {
    var cs := before + [c];
    forall x | x in c.contexts ensures CameFrom(x, c, cs) {
      assert cs[|before|] == c;
    }
    forall j | 0 <= j < |cs| && j != |before| ensures KeyOf(pass, cs[j], normalize) != KeyOf(pass, c, normalize) {
      assert cs[j] == before[j];
    }
    assert Represents(c, |before|, cs, pass, normalize);
  }

  /** Every survivor of a pass is the champion of its group, with contexts its group brought. */
  lemma {:induction false} SurvivorsAreElected(cs: seq<Candidate>, pass: Pass, normalize: string -> string)
    ensures forall s | s in Collapse(cs, pass, normalize) :: Elected(s, cs, pass, normalize)
  {
    if cs != [] {
      hide KeyOf, Joined, Elected, Answered, Distinct;
      var before, c := cs[..|cs| - 1], cs[|cs| - 1];
      assert cs == before + [c];
      var groups := Collapse(before, pass, normalize);
      var k := Find(groups, KeyOf(pass, c, normalize), pass, normalize);
      SurvivorsAreElected(before, pass, normalize);
      KeysApart(groups, k, before, pass, normalize);
      if k == |groups| {
        NoGroupNoMember(before, c, pass, normalize);
        ElectedAlone(before, c, pass, normalize);
      } else {
        ElectedAfterJoin(before, groups[k], c, pass, normalize);
      }
      forall j | 0 <= j < |groups| && j != k ensures Elected(groups[j], cs, pass, normalize) {
        ElectedUntouched(before, groups[j], c, pass, normalize);
      }
    }
  }

  lemma KeysApart(groups: seq<Candidate>, k: nat, before: seq<Candidate>, pass: Pass, normalize: string -> string)
    requires groups == Collapse(before, pass, normalize)
    ensures forall i | 0 <= i < |groups| && i != k && k < |groups| ::
        KeyOf(pass, groups[i], normalize) != KeyOf(pass, groups[k], normalize)
  {
    hide Collapse;
    CollapseConserves(before, pass, normalize);
  }

  lemma NoGroupNoMember(before: seq<Candidate>, c: Candidate, pass: Pass, normalize: string -> string)
    requires forall s | s in Collapse(before, pass, normalize) ::
        KeyOf(pass, s, normalize) != KeyOf(pass, c, normalize)
    ensures forall j | 0 <= j < |before| :: KeyOf(pass, before[j], normalize) != KeyOf(pass, c, normalize)
  {
    hide KeyOf, KeptBy, Collapse;
    EveryoneIsAnswered(before, pass, normalize);
    forall j | 0 <= j < |before| ensures KeyOf(pass, before[j], normalize) != KeyOf(pass, c, normalize) {
      assert before[j] in before && Answered(before[j], Collapse(before, pass, normalize), pass, normalize);
    }
  }

  /** A pass keeps apart what an earlier pass made distinct. */
  lemma {:induction false} DistinctnessSurvives(
      cs: seq<Candidate>, pass: Pass, earlier: Pass, normalize: string -> string)
    requires Distinct(cs, earlier, normalize)
    ensures Distinct(Collapse(cs, pass, normalize), earlier, normalize)
  {
    hide KeyOf, Collapse, KeptBy;
    var out := Collapse(cs, pass, normalize);
    CollapseConserves(cs, pass, normalize);
    SurvivorsAreElected(cs, pass, normalize);
    forall a, b | 0 <= a < b < |out|
      ensures KeyOf(earlier, out[a], normalize) != KeyOf(earlier, out[b], normalize)
    {
      assert out[a] in out && out[b] in out;
      var i: nat :| Represents(out[a], i, cs, pass, normalize);
      var j: nat :| Represents(out[b], j, cs, pass, normalize);
      SameHitSameKey(cs[i], out[a], pass, normalize);
      SameHitSameKey(cs[j], out[b], pass, normalize);
      SameHitSameKey(cs[i], out[a], earlier, normalize);
      SameHitSameKey(cs[j], out[b], earlier, normalize);
      assert i != j;
    }
  }

  lemma {:induction false} FindInPrefix(cs: seq<Candidate>, c: Candidate, k: Key, pass: Pass, normalize: string -> string)
    ensures Find(cs, k, pass, normalize) < |cs| ==>
            Find(cs + [c], k, pass, normalize) == Find(cs, k, pass, normalize)
    ensures Find(cs, k, pass, normalize) == |cs| && KeyOf(pass, c, normalize) == k ==>
            Find(cs + [c], k, pass, normalize) == |cs|
  {
    assert (cs + [c])[..|cs|] == cs;
  }

  /** When the group of `c` was first seen in `cs`. */
  function FirstSeen(cs: seq<Candidate>, c: Candidate, pass: Pass, normalize: string -> string): nat {
    Find(cs, KeyOf(pass, c, normalize), pass, normalize)
  }

  ghost predicate InArrivalOrder(out: seq<Candidate>, cs: seq<Candidate>, pass: Pass, normalize: string -> string) {
    && (forall s | s in out :: FirstSeen(cs, s, pass, normalize) < |cs|)
    && (forall a, b | 0 <= a < b < |out| ::
      FirstSeen(cs, out[a], pass, normalize) < FirstSeen(cs, out[b], pass, normalize))
  }

  lemma ArrivalKept(
      groups: seq<Candidate>, before: seq<Candidate>, c: Candidate, pass: Pass, normalize: string -> string)
    requires InArrivalOrder(groups, before, pass, normalize)
    ensures InArrivalOrder(groups, before + [c], pass, normalize)
    ensures forall s | s in groups :: FirstSeen(before + [c], s, pass, normalize) < |before|
  {
    forall s | s in groups
      ensures FirstSeen(before + [c], s, pass, normalize) == FirstSeen(before, s, pass, normalize) < |before|
    {
      FindInPrefix(before, c, KeyOf(pass, s, normalize), pass, normalize);
    }
    hide FirstSeen;
  }

  lemma ArrivalAppended(
      groups: seq<Candidate>, before: seq<Candidate>, c: Candidate, pass: Pass, normalize: string -> string)
    requires InArrivalOrder(groups, before, pass, normalize)
    requires FirstSeen(before, c, pass, normalize) == |before|
    ensures InArrivalOrder(groups + [c], before + [c], pass, normalize)
  {
    ArrivalKept(groups, before, c, pass, normalize);
    FindInPrefix(before, c, KeyOf(pass, c, normalize), pass, normalize);
    assert FirstSeen(before + [c], c, pass, normalize) == |before|;
    hide FirstSeen;
  }

  /** Survivors stand in the order in which their groups first appeared. */
  lemma {:induction false} ArrivalOrder(cs: seq<Candidate>, pass: Pass, normalize: string -> string)
    ensures InArrivalOrder(Collapse(cs, pass, normalize), cs, pass, normalize)
  {
    if cs != [] {
      hide KeyOf, Joined, KeptBy, Find, Collapse, FirstSeen, InArrivalOrder;
      var before, c := cs[..|cs| - 1], cs[|cs| - 1];
      assert cs == before + [c];
      var groups := Collapse(before, pass, normalize);
      CollapseNext(cs, pass, normalize);
      ArrivalOrder(before, pass, normalize);
      var k := Find(groups, KeyOf(pass, c, normalize), pass, normalize);
      if k < |groups| {
        JoinedLaws(groups[k], c, pass, normalize);
        ArrivalKept(groups, before, c, pass, normalize);
        ArrivalSameKey(groups, k, Joined(groups[k], c, pass), cs, pass, normalize);
      } else {
        NoGroupNoMember(before, c, pass, normalize);
        assert FirstSeen(before, c, pass, normalize) == |before| by { NeverSeen(before, c, pass, normalize); }
        ArrivalAppended(groups, before, c, pass, normalize);
      }
    }
  }

  lemma ArrivalSameKey(
      groups: seq<Candidate>, k: nat, s: Candidate, cs: seq<Candidate>, pass: Pass, normalize: string -> string)
    requires k < |groups| && KeyOf(pass, groups[k], normalize) == KeyOf(pass, s, normalize)
    requires InArrivalOrder(groups, cs, pass, normalize)
    ensures InArrivalOrder(groups[k := s], cs, pass, normalize)
  {
    assert FirstSeen(cs, s, pass, normalize) == FirstSeen(cs, groups[k], pass, normalize);
    hide KeyOf;
    assert forall x | x in groups[k := s] :: x in groups || x == s;
    hide FirstSeen;
  }

  lemma NeverSeen(before: seq<Candidate>, c: Candidate, pass: Pass, normalize: string -> string)
    requires forall j | 0 <= j < |before| :: KeyOf(pass, before[j], normalize) != KeyOf(pass, c, normalize)
    ensures FirstSeen(before, c, pass, normalize) == |before|
  {
  }

  lemma {:induction false} DistinctIsFixed(cs: seq<Candidate>, pass: Pass, normalize: string -> string)
    requires Distinct(cs, pass, normalize)
    ensures Collapse(cs, pass, normalize) == cs
  {
    if cs != [] {
      DistinctIsFixed(cs[..|cs| - 1], pass, normalize);
    }
  }

  // ---------------------------------------------------------------------
  // The final order
  // ---------------------------------------------------------------------

  /** Place `c` behind everything that scores at least as much. */
  function Place(cs: seq<Candidate>, c: Candidate): seq<Candidate> {
    if cs == [] || cs[|cs| - 1].hit.score >= c.hit.score then cs + [c]
    else Place(cs[..|cs| - 1], c) + [cs[|cs| - 1]]
  }

  function SortByScore(cs: seq<Candidate>): seq<Candidate> {
    if cs == [] then [] else Place(SortByScore(cs[..|cs| - 1]), cs[|cs| - 1])
  }

  ghost predicate Descending(cs: seq<Candidate>) {
    forall i, j | 0 <= i < j < |cs| :: cs[i].hit.score >= cs[j].hit.score
  }

  function WithScore(cs: seq<Candidate>, score: real): seq<Candidate> {
    if cs == [] then []
    else WithScore(cs[..|cs| - 1], score) + (if cs[|cs| - 1].hit.score == score then [cs[|cs| - 1]] else [])
  }

  lemma WithScoreAppend(cs: seq<Candidate>, c: Candidate, score: real)
    ensures WithScore(cs + [c], score) == WithScore(cs, score) + (if c.hit.score == score then [c] else [])
  {
    assert (cs + [c])[..|cs|] == cs;
  }

  lemma {:induction false} PlacePermutes(cs: seq<Candidate>, c: Candidate)
    ensures multiset(Place(cs, c)) == multiset(cs) + multiset{c}
    ensures forall x | x in Place(cs, c) :: x in cs || x == c
  {
    if cs != [] {
      PlacePermutes(cs[..|cs| - 1], c);
      assert cs == cs[..|cs| - 1] + [cs[|cs| - 1]];
    }
  }

  lemma {:induction false} PlaceDescends(cs: seq<Candidate>, c: Candidate)
    requires Descending(cs)
    ensures Descending(Place(cs, c))
  {
    if cs != [] {
      PlaceDescends(cs[..|cs| - 1], c);
      PlacePermutes(cs[..|cs| - 1], c);
      var init, last := Place(cs[..|cs| - 1], c), cs[|cs| - 1];
      forall i | cs[|cs| - 1].hit.score < c.hit.score && 0 <= i < |init| ensures init[i].hit.score >= last.hit.score {
        assert init[i] in init;
      }
    }
  }

  lemma {:induction false} PlaceIsStable(cs: seq<Candidate>, c: Candidate, v: real)
    ensures WithScore(Place(cs, c), v) == WithScore(cs + [c], v)
  {
    if cs != [] && cs[|cs| - 1].hit.score < c.hit.score {
      var init, last := cs[..|cs| - 1], cs[|cs| - 1];
      PlaceIsStable(init, c, v);
      WithScoreAppend(Place(init, c), last, v);
      WithScoreAppend(init, c, v);
      WithScoreAppend(cs, c, v);
      assert WithScore(cs, v) == WithScore(init, v) + (if last.hit.score == v then [last] else []);
      assert last.hit.score != v || c.hit.score != v;
      assert Place(cs, c) == Place(init, c) + [last];
      hide WithScore, Place;
    }
  }

  /** The sort is a stable permutation into descending score order. */
  lemma {:induction false} SortLaws(cs: seq<Candidate>)
    ensures Descending(SortByScore(cs)) && multiset(SortByScore(cs)) == multiset(cs)
    ensures forall v :: WithScore(SortByScore(cs), v) == WithScore(cs, v)
  {
    if cs != [] {
      var init, last := cs[..|cs| - 1], cs[|cs| - 1];
      var placed := SortByScore(init);
      SortLaws(init);
      PlacePermutes(placed, last);
      PlaceDescends(placed, last);
      assert cs == init + [last];
      forall v ensures WithScore(Place(placed, last), v) == WithScore(cs, v) {
        PlaceIsStable(placed, last, v);
        WithScoreAppend(placed, last, v);
      }
    }
  }

  lemma {:induction false} SortedIsFixed(cs: seq<Candidate>)
    requires Descending(cs)
    ensures SortByScore(cs) == cs
  {
    if cs != [] {
      SortedIsFixed(cs[..|cs| - 1]);
    }
  }

  // ---------------------------------------------------------------------
  // The whole deduplication
  // ---------------------------------------------------------------------

  function Passes(cs: seq<Candidate>, normalize: string -> string): seq<Candidate> {
    Collapse(Collapse(Collapse(cs, BySpan, normalize), ByParent, normalize), ByText, normalize)
  }

  function Deduplicate(cs: seq<Candidate>, normalize: string -> string): seq<Candidate> {
    SortByScore(Passes(cs, normalize))
  }

  lemma {:induction false} PlaceAbsorbs(cs: seq<Candidate>, c: Candidate)
    ensures AllAbsorbed(Place(cs, c)) == AllAbsorbed(cs) + Absorbed(c)
  {
    hide Absorbed;
    if cs == [] || cs[|cs| - 1].hit.score >= c.hit.score {
      assert (cs + [c])[..|cs|] == cs;
    } else {
      var init, last := cs[..|cs| - 1], cs[|cs| - 1];
      PlaceAbsorbs(init, c);
      assert (Place(init, c) + [last])[..|Place(init, c)|] == Place(init, c);
      AddBoth(AllAbsorbed(Place(init, c)), multiset{}, AllAbsorbed(init), Absorbed(c), Absorbed(last));
    }
  }

  lemma {:induction false} SortAbsorbs(cs: seq<Candidate>)
    ensures AllAbsorbed(SortByScore(cs)) == AllAbsorbed(cs)
  {
    if cs != [] {
      SortAbsorbs(cs[..|cs| - 1]);
      PlaceAbsorbs(SortByScore(cs[..|cs| - 1]), cs[|cs| - 1]);
    }
  }

  lemma {:induction false} PlaceKeepsApart(cs: seq<Candidate>, c: Candidate, pass: Pass, normalize: string -> string)
    requires Distinct(cs, pass, normalize)
    requires forall x | x in cs :: KeyOf(pass, x, normalize) != KeyOf(pass, c, normalize)
    ensures Distinct(Place(cs, c), pass, normalize)
  {
    hide KeyOf;
    if cs != [] && cs[|cs| - 1].hit.score < c.hit.score {
      PlaceKeepsApart(cs[..|cs| - 1], c, pass, normalize);
      PlacePermutes(cs[..|cs| - 1], c);
      var init, last := Place(cs[..|cs| - 1], c), cs[|cs| - 1];
      forall i | 0 <= i < |init| ensures KeyOf(pass, init[i], normalize) != KeyOf(pass, last, normalize) {
        assert init[i] in init;
      }
    }
  }

  lemma {:induction false} SortKeepsApart(cs: seq<Candidate>, pass: Pass, normalize: string -> string)
    requires Distinct(cs, pass, normalize)
    ensures Distinct(SortByScore(cs), pass, normalize)
  {
    if cs != [] {
      var init, last := cs[..|cs| - 1], cs[|cs| - 1];
      SortKeepsApart(init, pass, normalize);
      SortLaws(init);
      forall x | x in SortByScore(init) ensures KeyOf(pass, x, normalize) != KeyOf(pass, last, normalize) {
        assert x in multiset(SortByScore(init)) && x in init;
      }
      PlaceKeepsApart(SortByScore(init), last, pass, normalize);
    }
  }

  lemma {:induction false} PassesKeepApart(cs: seq<Candidate>, normalize: string -> string)
    ensures forall pass :: Distinct(Passes(cs, normalize), pass, normalize)
  {
    hide Distinct, Collapse;
    var spans := Collapse(cs, BySpan, normalize);
    var parents := Collapse(spans, ByParent, normalize);
    CollapseConserves(cs, BySpan, normalize);
    CollapseConserves(spans, ByParent, normalize);
    CollapseConserves(parents, ByText, normalize);
    DistinctnessSurvives(spans, ByParent, BySpan, normalize);
    DistinctnessSurvives(parents, ByText, BySpan, normalize);
    DistinctnessSurvives(parents, ByText, ByParent, normalize);
    forall pass ensures Distinct(Passes(cs, normalize), pass, normalize) {
      assert pass == BySpan || pass == ByParent || pass == ByText;
    }
  }

  /** Every source is accounted for exactly as often as before; survivors differ in every key and descend in score. */
  lemma {:induction false} DeduplicationConserves(cs: seq<Candidate>, normalize: string -> string)
    ensures AllAbsorbed(Deduplicate(cs, normalize)) == AllAbsorbed(cs)
    ensures forall pass :: Distinct(Deduplicate(cs, normalize), pass, normalize)
    ensures Descending(Deduplicate(cs, normalize))
  {
    hide Collapse, Distinct, SortByScore;
    var spans := Collapse(cs, BySpan, normalize);
    var parents := Collapse(spans, ByParent, normalize);
    CollapseConserves(cs, BySpan, normalize);
    CollapseConserves(spans, ByParent, normalize);
    CollapseConserves(parents, ByText, normalize);
    SortAbsorbs(Passes(cs, normalize));
    SortLaws(Passes(cs, normalize));
    PassesKeepApart(cs, normalize);
    forall pass ensures Distinct(Deduplicate(cs, normalize), pass, normalize) {
      SortKeepsApart(Passes(cs, normalize), pass, normalize);
    }
  }

  ghost predicate Held(c: Candidate, out: seq<Candidate>) {
    exists s :: s in out && KeptBy(c, s)
  }

  ghost predicate Sourced(out: seq<Candidate>, cs: seq<Candidate>) {
    forall s, x | s in out && x in s.contexts :: CameFrom(x, s, cs)
  }

  lemma PassHolds(cs: seq<Candidate>, mid: seq<Candidate>, pass: Pass, normalize: string -> string)
    requires forall c | c in cs :: Held(c, mid)
    ensures forall c | c in cs :: Held(c, Collapse(mid, pass, normalize))
  {
    hide KeptBy, Collapse;
    var out := Collapse(mid, pass, normalize);
    EveryoneIsAnswered(mid, pass, normalize);
    forall c | c in cs ensures Held(c, out) {
      var s :| s in mid && KeptBy(c, s);
      assert Answered(s, out, pass, normalize);
      var j :| 0 <= j < |out| && KeptBy(s, out[j]) && KeyOf(pass, out[j], normalize) == KeyOf(pass, s, normalize);
      KeptByTransitive(c, s, out[j]);
      assert out[j] in out;
    }
  }

  lemma PassSources(cs: seq<Candidate>, mid: seq<Candidate>, pass: Pass, normalize: string -> string)
    requires Sourced(mid, cs)
    ensures Sourced(Collapse(mid, pass, normalize), cs)
  {
    hide KeptBy, Collapse;
    var out := Collapse(mid, pass, normalize);
    SurvivorsAreElected(mid, pass, normalize);
    forall s, x | s in out && x in s.contexts ensures CameFrom(x, s, cs) {
      assert Elected(s, mid, pass, normalize);
      var i: nat :| Represents(s, i, mid, pass, normalize);
      assert CameFrom(x, s, mid);
      var j :| 0 <= j < |mid| && x in mid[j].contexts && KeptBy(mid[j], s);
      assert CameFrom(x, mid[j], cs);
      var k :| 0 <= k < |cs| && x in cs[k].contexts && KeptBy(cs[k], mid[j]);
      KeptByTransitive(cs[k], mid[j], s);
    }
  }

  /** Each candidate's sources and contexts live on in one survivor, and no survivor holds a context from elsewhere. */
  lemma {:induction false} ContextsFollowTheirHits(cs: seq<Candidate>, normalize: string -> string)
    ensures forall c | c in cs :: Held(c, Deduplicate(cs, normalize))
    ensures Sourced(Deduplicate(cs, normalize), cs)
  {
    var spans := Collapse(cs, BySpan, normalize);
    var parents := Collapse(spans, ByParent, normalize);
    var passed := Passes(cs, normalize);
    forall c | c in cs ensures Held(c, cs) {
      assert KeptBy(c, c);
    }
    forall s, x | s in cs && x in s.contexts ensures CameFrom(x, s, cs) {
      var i :| 0 <= i < |cs| && cs[i] == s;
      assert KeptBy(cs[i], s);
    }
    hide KeptBy, Collapse, SortByScore, CameFrom;
    PassHolds(cs, cs, BySpan, normalize);
    PassHolds(cs, spans, ByParent, normalize);
    PassHolds(cs, parents, ByText, normalize);
    PassSources(cs, cs, BySpan, normalize);
    PassSources(cs, spans, ByParent, normalize);
    PassSources(cs, parents, ByText, normalize);
    SortLaws(passed);
    assert forall s :: s in passed <==> s in multiset(passed);
    assert forall s :: s in SortByScore(passed) <==> s in multiset(SortByScore(passed));
  }

  /** Deduplicating survivors again changes nothing. */
  lemma {:induction false} DeduplicationIsIdempotent(cs: seq<Candidate>, normalize: string -> string)
    ensures Deduplicate(Deduplicate(cs, normalize), normalize) == Deduplicate(cs, normalize)
  {
    hide Collapse, Distinct, SortByScore, Descending;
    var out := Deduplicate(cs, normalize);
    DeduplicationConserves(cs, normalize);
    DistinctIsFixed(out, BySpan, normalize);
    DistinctIsFixed(out, ByParent, normalize);
    DistinctIsFixed(out, ByText, normalize);
    SortedIsFixed(out);
  }
}
