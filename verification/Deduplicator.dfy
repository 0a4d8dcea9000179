/** The deduplicator at work: candidates are objects, and a survivor takes over what it absorbs in place. */
module Deduplicators {
  import opened Common
  import opened Deduplication

  class DedupCandidate {
    const hit: Hit
    const text: string
    const authority: int
    var contexts: seq<Context>
    var duplicates: seq<Source>

    constructor (hit: Hit, contexts: seq<Context>, text: string, authority: int)
      ensures Value() == Candidate(hit, text, authority, contexts, [])
    {
      this.hit, this.contexts, this.text, this.authority := hit, contexts, text, authority;
      duplicates := [];
    }

    function Value(): Candidate
      reads this
    {
      Candidate(hit, text, authority, contexts, duplicates)
    }
  }

  function Values(cs: seq<DedupCandidate>): (v: seq<Candidate>)
    reads cs
    ensures |v| == |cs| && forall i | 0 <= i < |cs| :: v[i] == cs[i].Value()
  {
    seq(|cs|, i requires 0 <= i < |cs| reads cs => cs[i].Value())
  }

  ghost predicate Apart(cs: seq<DedupCandidate>) {
    forall i, j | 0 <= i < j < |cs| :: cs[i] != cs[j]
  }

  /** Fold one candidate into another; one folded into itself would count its own sources again. */
  method FoldInto(keep: DedupCandidate, incoming: DedupCandidate)
    modifies keep
    ensures keep != incoming ==> keep.Value() == old(Fold(keep.Value(), incoming.Value()))
    ensures keep == incoming ==>
      Absorbed(keep.Value()) == old(Absorbed(keep.Value()) + Absorbed(keep.Value()) + multiset{Record(keep.Value())})
  {
    var brought := incoming.contexts;
    for i := 0 to |brought|
      modifies keep
      invariant keep.duplicates == old(keep.duplicates)
      invariant keep.contexts == MergeContexts(old(keep.contexts), brought[..i])
    {
      assert brought[..i + 1][..i] == brought[..i];
      if brought[i] !in keep.contexts {
        keep.contexts := keep.contexts + [brought[i]];
      }
    }
    assert brought[..|brought|] == brought;
    keep.duplicates := keep.duplicates + [Record(incoming.Value())];
    keep.duplicates := keep.duplicates + incoming.duplicates;
    ghost var own := [Record(incoming.Value())];
    assert keep != incoming ==> keep.duplicates == old(keep.duplicates) + own + old(incoming.duplicates);
    assert keep == incoming ==> keep.duplicates == old(keep.duplicates) + own + (old(keep.duplicates) + own);
  }

  /** The dictionary from group keys to positions among the survivors. */
  ghost predicate Indexed(index: map<Key, nat>, groups: seq<Candidate>, pass: Pass, normalize: string -> string) {
    && (forall k | k in index :: index[k] < |groups| && KeyOf(pass, groups[index[k]], normalize) == k)
    && (forall i | 0 <= i < |groups| ::
      KeyOf(pass, groups[i], normalize) in index && index[KeyOf(pass, groups[i], normalize)] == i)
  }

  /** Through the index, `Insert` replaces the group's survivor or appends a new group. */
  lemma InsertAt(index: map<Key, nat>, groups: seq<Candidate>, c: Candidate, pass: Pass, normalize: string -> string)
    requires Indexed(index, groups, pass, normalize)
    ensures var k := KeyOf(pass, c, normalize);
      if k in index then
        && index[k] < |groups|
        && Insert(groups, c, pass, normalize) == groups[index[k] := Joined(groups[index[k]], c, pass)]
        && Indexed(index, Insert(groups, c, pass, normalize), pass, normalize)
      else
        && Insert(groups, c, pass, normalize) == groups + [c]
        && Indexed(index[k := |groups|], groups + [c], pass, normalize)
  {
    var k := KeyOf(pass, c, normalize);
    var i := Find(groups, k, pass, normalize);
    hide KeyOf, Joined, Find;
    assert i < |groups| ==> KeyOf(pass, groups[i], normalize) in index;
    assert i == if k in index then index[k] else |groups|;
    if k in index {
      JoinedLaws(groups[i], c, pass, normalize);
    }
  }

  /** Two members of a group meet: the winner takes the other over. */
  method Join(existing: DedupCandidate, c: DedupCandidate, pass: Pass) returns (winner: DedupCandidate)
    requires existing != c
    modifies existing, c
    ensures winner == existing || winner == c
    ensures winner.Value() == old(Joined(existing.Value(), c.Value(), pass))
  {
    if Better(pass, c.Value(), existing.Value()) {
      FoldInto(c, existing);
      winner := c;
    } else {
      FoldInto(existing, c);
      winner := existing;
    }
  }

  /** One candidate meets the groups formed so far. */
  method Meet(survivors: seq<DedupCandidate>, index: map<Key, nat>, c: DedupCandidate, pass: Pass,
      normalize: string -> string)
    returns (survivors': seq<DedupCandidate>, index': map<Key, nat>)
    requires Apart(survivors) && c !in survivors
    requires Indexed(index, Values(survivors), pass, normalize)
    modifies Elements(survivors) + {c}
    ensures Apart(survivors') && Elements(survivors') <= Elements(survivors) + {c}
    ensures Values(survivors') == old(Insert(Values(survivors), c.Value(), pass, normalize))
    ensures Indexed(index', Values(survivors'), pass, normalize)
  {
    hide Joined, KeyOf, Insert, Indexed;
    ghost var groups := Values(survivors);
    var k := KeyOf(pass, c.Value(), normalize);
    InsertAt(index, groups, c.Value(), pass, normalize);
    if k !in index {
      survivors', index' := survivors + [c], index[k := |survivors|];
      ApartAppend(survivors, c);
    } else {
      var i := index[k];
      var winner := Join(survivors[i], c, pass);
      survivors', index' := survivors[i := winner], index;
      ApartReplace(survivors, i, winner, groups);
    }
  }

  lemma ApartAppend(cs: seq<DedupCandidate>, c: DedupCandidate)
    requires Apart(cs) && c !in cs
    ensures Apart(cs + [c]) && Elements(cs + [c]) <= Elements(cs) + {c}
    ensures Values(cs + [c]) == Values(cs) + [c.Value()]
  {
  }

  lemma ApartReplace(cs: seq<DedupCandidate>, i: nat, winner: DedupCandidate, before: seq<Candidate>)
    requires i < |cs| == |before| && Apart(cs) && (winner == cs[i] || winner !in cs)
    requires forall j | 0 <= j < |cs| && j != i :: cs[j].Value() == before[j]
    ensures Apart(cs[i := winner]) && Elements(cs[i := winner]) <= Elements(cs) + {winner}
    ensures Values(cs[i := winner]) == before[i := winner.Value()]
  {
  }

  /** One pass over distinct candidate objects. */
  method CollapseBy(candidates: seq<DedupCandidate>, pass: Pass, normalize: string -> string)
    returns (survivors: seq<DedupCandidate>)
    requires Apart(candidates)
    modifies Elements(candidates)
    ensures Apart(survivors) && Elements(survivors) <= Elements(candidates)
    ensures Values(survivors) == Collapse(old(Values(candidates)), pass, normalize)
  {
    hide KeyOf, Insert, Collapse;
    ghost var before := Values(candidates);
    survivors := [];
    var index: map<Key, nat> := map[];
    CollapseNothing(pass, normalize);
    for i := 0 to |candidates|
      modifies Elements(candidates)
      invariant Apart(survivors) && Elements(survivors) <= Elements(candidates[..i])
      invariant Values(survivors) == Collapse(before[..i], pass, normalize)
      invariant Indexed(index, Values(survivors), pass, normalize)
      invariant forall j | i <= j < |candidates| :: candidates[j].Value() == before[j]
    {
      CollapseNext(before[..i + 1], pass, normalize);
      assert before[..i + 1][..i] == before[..i];
      assert candidates[i] !in candidates[..i];
      assert Elements(candidates[..i + 1]) == Elements(candidates[..i]) + {candidates[i]};
      assert forall j | i < j < |candidates| :: candidates[j] !in Elements(candidates[..i + 1]);
      survivors, index := Meet(survivors, index, candidates[i], pass, normalize);
    }
    assert before[..|candidates|] == before;
  }

  lemma CollapseNothing(pass: Pass, normalize: string -> string)
    ensures Collapse([], pass, normalize) == []
  {
  }

  lemma {:induction false} PlaceAt(cs: seq<Candidate>, c: Candidate, p: nat)
    requires p <= |cs| && (p == 0 || cs[p - 1].hit.score >= c.hit.score)
    requires forall i | p <= i < |cs| :: cs[i].hit.score < c.hit.score
    ensures Place(cs, c) == cs[..p] + [c] + cs[p..]
  {
    if p == |cs| {
      assert cs[..p] == cs && cs[p..] == [];
    } else {
      var init, last := cs[..|cs| - 1], cs[|cs| - 1];
      PlaceAt(init, c, p);
      assert Place(cs, c) == Place(init, c) + [last];
      hide Place;
      assert init[..p] == cs[..p] && cs[p..] == init[p..] + [last];
    }
  }

  method PlaceSurvivor(sorted: seq<DedupCandidate>, c: DedupCandidate) returns (placed: seq<DedupCandidate>)
    ensures multiset(placed) == multiset(sorted) + multiset{c}
    ensures Values(placed) == Place(Values(sorted), c.Value())
  {
    hide Place;
    var p := |sorted|;
    while p > 0 && sorted[p - 1].hit.score < c.hit.score
      invariant 0 <= p <= |sorted|
      invariant forall j | p <= j < |sorted| :: sorted[j].hit.score < c.hit.score
    {
      p := p - 1;
    }
    placed := sorted[..p] + [c] + sorted[p..];
    Placed(sorted, c, p);
  }

  lemma Placed(sorted: seq<DedupCandidate>, c: DedupCandidate, p: nat)
    requires p <= |sorted| && (p == 0 || sorted[p - 1].hit.score >= c.hit.score)
    requires forall i | p <= i < |sorted| :: sorted[i].hit.score < c.hit.score
    ensures Values(sorted[..p] + [c] + sorted[p..]) == Place(Values(sorted), c.Value())
    ensures multiset(sorted[..p] + [c] + sorted[p..]) == multiset(sorted) + multiset{c}
  {
    PlacedValues(sorted, c, p);
    Spliced(sorted, c, p);
    hide Place, Values;
  }

  lemma Spliced<T>(s: seq<T>, x: T, p: nat)
    requires p <= |s|
    ensures multiset(s[..p] + [x] + s[p..]) == multiset(s) + multiset{x}
  {
    assert s == s[..p] + s[p..];
  }

  lemma PlacedValues(sorted: seq<DedupCandidate>, c: DedupCandidate, p: nat)
    requires p <= |sorted| && (p == 0 || sorted[p - 1].hit.score >= c.hit.score)
    requires forall i | p <= i < |sorted| :: sorted[i].hit.score < c.hit.score
    ensures Values(sorted[..p] + [c] + sorted[p..]) == Place(Values(sorted), c.Value())
  {
    hide Place;
    ValuesSplice(sorted, c, p);
    PlaceAt(Values(sorted), c.Value(), p);
  }

  lemma ValuesSplice(sorted: seq<DedupCandidate>, c: DedupCandidate, p: nat)
    requires p <= |sorted|
    ensures Values(sorted[..p] + [c] + sorted[p..]) == Values(sorted)[..p] + [c.Value()] + Values(sorted)[p..]
  {
  }

  lemma {:induction false} SortNext(values: seq<Candidate>, i: nat)
    ensures SortByScore([]) == []
    ensures i < |values| ==> SortByScore(values[..i + 1]) == Place(SortByScore(values[..i]), values[i])
  {
    if i < |values| {
      assert values[..i + 1][..i] == values[..i];
    }
  }

  /** The stable sort by falling score; the objects themselves are not touched. */
  method SortSurvivors(cs: seq<DedupCandidate>) returns (sorted: seq<DedupCandidate>)
    ensures multiset(sorted) == multiset(cs)
    ensures Values(sorted) == SortByScore(Values(cs))
  {
    hide Place, SortByScore;
    sorted := [];
    ghost var values := Values(cs);
    SortNext([], 0);
    for i := 0 to |cs|
      invariant multiset(sorted) == multiset(cs[..i])
      invariant Values(sorted) == SortByScore(values[..i])
    {
      SortNext(values, i);
      assert cs[..i + 1] == cs[..i] + [cs[i]];
      sorted := PlaceSurvivor(sorted, cs[i]);
    }
    assert values[..|cs|] == values && cs[..|cs|] == cs;
  }

  /** Survivors of the three passes, ordered by falling score. */
  method DeduplicateHits(candidates: seq<DedupCandidate>, normalize: string -> string)
    returns (survivors: seq<DedupCandidate>)
    requires Apart(candidates)
    modifies Elements(candidates)
    ensures Elements(survivors) <= Elements(candidates)
    ensures Values(survivors) == Deduplicate(old(Values(candidates)), normalize)
  {
    hide Collapse, SortByScore;
    var afterSpan := CollapseBy(candidates, BySpan, normalize);
    var afterParent := CollapseBy(afterSpan, ByParent, normalize);
    var afterText := CollapseBy(afterParent, ByText, normalize);
    survivors := SortSurvivors(afterText);
    assert forall s | s in survivors :: s in multiset(survivors);
  }
}
