/** Merging the evidence of several corpora: one snapshot per id, then one survivor per content. */
module MultiCorpus {
  import opened Common

  datatype Snapshot = Snapshot(
    id: string, corpus: string, document: string, version: string, textHash: string, authority: int)

  type Content = (string, string, string)

  function ContentOf(e: Snapshot): Content {
    (e.textHash, e.document, e.version)
  }

  /** All snapshots, corpus after corpus in the given order. */
  function Flat(order: seq<string>, perCorpus: map<string, seq<Snapshot>>): seq<Snapshot>
    requires forall c | c in order :: c in perCorpus
  {
    if order == [] then [] else Flat(order[..|order| - 1], perCorpus) + perCorpus[order[|order| - 1]]
  }

  function Ids(evs: seq<Snapshot>): set<string> {
    set e | e in evs :: e.id
  }

  function Corpora(evs: seq<Snapshot>): set<string> {
    set e | e in evs :: e.corpus
  }

  /** The first occurrence of every id, in order. */
  function Firsts(evs: seq<Snapshot>): seq<Snapshot> {
    if evs == [] then []
    else
      var last := evs[|evs| - 1];
      Firsts(evs[..|evs| - 1]) + (if last.id in Ids(evs[..|evs| - 1]) then [] else [last])
  }

  ghost predicate DistinctIds(evs: seq<Snapshot>) {
    forall i, j | 0 <= i < j < |evs| :: evs[i].id != evs[j].id
  }

  ghost predicate DistinctContents(evs: seq<Snapshot>) {
    forall i, j | 0 <= i < j < |evs| :: ContentOf(evs[i]) != ContentOf(evs[j])
  }

  /** Snapshot `i` leads its content: above all earlier holders in authority, below none of the later ones. */
  ghost predicate Leads(evs: seq<Snapshot>, i: nat)
    requires i < |evs|
  {
    forall j | 0 <= j < |evs| && j != i && ContentOf(evs[j]) == ContentOf(evs[i]) ::
      if j < i then evs[j].authority < evs[i].authority else evs[j].authority <= evs[i].authority
  }

  ghost predicate Leader(s: Snapshot, evs: seq<Snapshot>) {
    exists i: nat :: i < |evs| && evs[i] == s && Leads(evs, i)
  }

  /** Where content `k` first turns up, or the length. */
  function FirstAt(evs: seq<Snapshot>, k: Content): (i: nat)
    ensures i <= |evs| && (i < |evs| ==> ContentOf(evs[i]) == k)
    ensures forall j | 0 <= j < i :: ContentOf(evs[j]) != k
  {
    if evs == [] then 0
    else
      var n := |evs| - 1;
      var i := FirstAt(evs[..n], k);
      if i < n || ContentOf(evs[n]) == k then i else n + 1
  }

  ghost predicate Ordered(out: seq<Snapshot>, evs: seq<Snapshot>) {
    forall a, b | 0 <= a < b < |out| :: FirstAt(evs, ContentOf(out[a])) < FirstAt(evs, ContentOf(out[b]))
  }

  /** `out` holds exactly the leader of every content of `evs`, in the order the contents first appeared. */
  ghost predicate Folded(out: seq<Snapshot>, evs: seq<Snapshot>) {
    && (forall s | s in out :: Leader(s, evs))
    && (forall e | e in evs :: ContentOf(e) in Contents(out))
    && Ordered(out, evs)
  }

  ghost function Contents(out: seq<Snapshot>): set<Content> {
    set s | s in out :: ContentOf(s)
  }

  // ---------------------------------------------------------------------
  // Steps
  // ---------------------------------------------------------------------

  lemma {:induction false} FirstAtAppend(evs: seq<Snapshot>, c: Snapshot, k: Content)
    ensures FirstAt(evs + [c], k) ==
            if FirstAt(evs, k) < |evs| then FirstAt(evs, k) else if ContentOf(c) == k then |evs| else |evs| + 1
  {
    assert (evs + [c])[..|evs|] == evs;
  }

  lemma LeaderKept(s: Snapshot, evs: seq<Snapshot>, c: Snapshot)
    requires Leader(s, evs)
    requires ContentOf(c) == ContentOf(s) ==> c.authority <= s.authority
    ensures Leader(s, evs + [c])
  {
    var i: nat :| i < |evs| && evs[i] == s && Leads(evs, i);
    var evs' := evs + [c];
    forall j | 0 <= j < |evs'| && j != i && ContentOf(evs'[j]) == ContentOf(evs'[i])
      ensures if j < i then evs'[j].authority < evs'[i].authority else evs'[j].authority <= evs'[i].authority
    {
      assert j < |evs| ==> evs'[j] == evs[j];
    }
    assert evs'[i] == s && Leads(evs', i);
  }

  lemma LeaderArrives(evs: seq<Snapshot>, c: Snapshot)
    requires forall e | e in evs && ContentOf(e) == ContentOf(c) :: e.authority < c.authority
    ensures Leader(c, evs + [c])
  {
    var evs' := evs + [c];
    forall j | 0 <= j < |evs| ensures evs'[j] in evs {
    }
    assert evs'[|evs|] == c && Leads(evs', |evs|);
  }

  lemma LeaderIsHighest(s: Snapshot, e: Snapshot, evs: seq<Snapshot>)
    requires Leader(s, evs) && e in evs && ContentOf(e) == ContentOf(s)
    ensures e.authority <= s.authority && s in evs
  {
    var i: nat :| i < |evs| && evs[i] == s && Leads(evs, i);
    var j :| 0 <= j < |evs| && evs[j] == e;
  }

  lemma OrderedKept(out: seq<Snapshot>, evs: seq<Snapshot>, c: Snapshot)
    requires Folded(out, evs)
    ensures Ordered(out, evs + [c])
    ensures forall s | s in out :: FirstAt(evs + [c], ContentOf(s)) < |evs|
  {
    forall s | s in out
      ensures FirstAt(evs + [c], ContentOf(s)) == FirstAt(evs, ContentOf(s)) < |evs|
    {
      var i: nat :| i < |evs| && evs[i] == s;
      FirstAtAppend(evs, c, ContentOf(s));
    }
  }

  lemma FoldNew(out: seq<Snapshot>, evs: seq<Snapshot>, c: Snapshot)
    requires Folded(out, evs) && ContentOf(c) !in Contents(out)
    ensures Folded(out + [c], evs + [c])
  {
    OrderedKept(out, evs, c);
    assert FirstAt(evs + [c], ContentOf(c)) == |evs| by {
      FirstAtAppend(evs, c, ContentOf(c));
    }
    hide FirstAt;
    assert Ordered(out + [c], evs + [c]);
    hide Ordered;
    forall s | s in out ensures Leader(s, evs + [c]) {
      assert ContentOf(s) in Contents(out);
      LeaderKept(s, evs, c);
    }
    LeaderArrives(evs, c);
    LocatedAppend(out, c);
    hide Leader, Contents;
  }

  lemma FoldMeets(out: seq<Snapshot>, evs: seq<Snapshot>, c: Snapshot, i: nat)
    requires Folded(out, evs) && i < |out| && ContentOf(out[i]) == ContentOf(c)
    ensures Folded(if out[i].authority < c.authority then out[i := c] else out, evs + [c])
  {
    var out' := if out[i].authority < c.authority then out[i := c] else out;
    OrderedKept(out, evs, c);
    LeadersMeet(out, evs, c, i);
    SameContents(out, out');
    hide FirstAt, Leader, Contents, ContentOf;
    assert Ordered(out', evs + [c]);
  }

  lemma LeadersMeet(out: seq<Snapshot>, evs: seq<Snapshot>, c: Snapshot, i: nat)
    requires Folded(out, evs) && i < |out| && ContentOf(out[i]) == ContentOf(c)
    ensures forall s | s in (if out[i].authority < c.authority then out[i := c] else out) :: Leader(s, evs + [c])
  {
    FoldedIsDistinct(out, evs);
    hide Leader, Ordered;
    forall e | e in evs && ContentOf(e) == ContentOf(c) ensures e.authority <= out[i].authority {
      LeaderIsHighest(out[i], e, evs);
    }
    forall j | 0 <= j < |out| && (j != i || out[i].authority >= c.authority) ensures Leader(out[j], evs + [c]) {
      LeaderKept(out[j], evs, c);
    }
    if out[i].authority < c.authority {
      LeaderArrives(evs, c);
    }
  }

  lemma SameContents(out: seq<Snapshot>, out': seq<Snapshot>)
    requires |out| == |out'| && forall j | 0 <= j < |out| :: ContentOf(out'[j]) == ContentOf(out[j])
    ensures Contents(out) == Contents(out')
  {
    forall s | s in out ensures ContentOf(s) in Contents(out') {
      var j :| 0 <= j < |out| && out[j] == s;
      assert out'[j] in out';
    }
    forall s | s in out' ensures ContentOf(s) in Contents(out) {
      var j :| 0 <= j < |out'| && out'[j] == s;
      assert out[j] in out;
    }
  }

  lemma FoldedIsDistinct(out: seq<Snapshot>, evs: seq<Snapshot>)
    requires Folded(out, evs)
    ensures DistinctContents(out)
  {
  }

  // ---------------------------------------------------------------------
  // Laws
  // ---------------------------------------------------------------------

  lemma {:induction false} FirstsCover(evs: seq<Snapshot>)
    ensures Ids(Firsts(evs)) == Ids(evs)
    ensures forall e | e in Firsts(evs) :: e in evs
  {
    if evs != [] {
      var init, last := evs[..|evs| - 1], evs[|evs| - 1];
      FirstsCover(init);
      assert evs == init + [last];
      IdsAppend(init, last);
      IdsAppend(Firsts(init), last);
      hide Ids;
    }
  }

  lemma DistinctIdsAppend(evs: seq<Snapshot>, c: Snapshot)
    requires DistinctIds(evs) && c.id !in Ids(evs)
    ensures DistinctIds(evs + [c])
  {
    forall i | 0 <= i < |evs| ensures evs[i].id != c.id {
      assert evs[i] in evs;
    }
  }

  lemma {:induction false} FirstsLaws(evs: seq<Snapshot>)
    ensures DistinctIds(Firsts(evs)) && Ids(Firsts(evs)) == Ids(evs)
    ensures forall e | e in Firsts(evs) :: e in evs
  {
    FirstsCover(evs);
    if evs != [] {
      hide Ids, DistinctIds;
      var init, last := evs[..|evs| - 1], evs[|evs| - 1];
      FirstsLaws(init);
      if last.id !in Ids(init) {
        DistinctIdsAppend(Firsts(init), last);
      }
    } else {
      assert DistinctIds([]);
    }
  }

  lemma IdsAppend(evs: seq<Snapshot>, c: Snapshot)
    ensures Ids(evs + [c]) == Ids(evs) + {c.id}
  {
    forall e | e in evs + [c] ensures e.id in Ids(evs) + {c.id} {
    }
    forall e | e in evs ensures e.id in Ids(evs + [c]) {
      assert e in evs + [c];
    }
    assert c in evs + [c];
  }

  ghost predicate Represented(e: Snapshot, out: seq<Snapshot>) {
    exists s :: s in out && ContentOf(s) == ContentOf(e) && s.authority >= e.authority
  }

  lemma FoldedRepresents(out: seq<Snapshot>, evs: seq<Snapshot>)
    requires Folded(out, evs)
    ensures forall s | s in out :: s in evs
    ensures forall e | e in evs :: Represented(e, out)
  {
    hide Leader, Ordered;
    forall s | s in out ensures s in evs {
      LeaderIsHighest(s, LeaderWitness(s, evs), evs);
    }
    forall e | e in evs ensures Represented(e, out) {
      var s :| s in out && ContentOf(s) == ContentOf(e);
      LeaderIsHighest(s, e, evs);
    }
  }

  /** Survivors differ in id and in content, and each merged snapshot has one survivor of its content, no weaker. */
  lemma FoldedLaws(out: seq<Snapshot>, evs: seq<Snapshot>)
    requires Folded(out, evs) && DistinctIds(evs)
    ensures DistinctIds(out) && DistinctContents(out)
    ensures forall s | s in out :: s in evs
    ensures forall e | e in evs :: Represented(e, out)
  {
    FoldedIsDistinct(out, evs);
    FoldedRepresents(out, evs);
    hide Folded, Represented;
    forall a, b | 0 <= a < b < |out| ensures out[a].id != out[b].id {
      assert out[a] in evs && out[b] in evs;
      DistinctIdsMeansOne(evs, out[a], out[b]);
    }
  }

  predicate SameContent(s: Snapshot, e: Snapshot) {
    s.textHash == e.textHash && s.document == e.document && s.version == e.version
  }

  /** No two survivors share text, document and version, and every snapshot has a survivor that shares all three with
      no less authority. */
  lemma SurvivorsByContent(out: seq<Snapshot>, evs: seq<Snapshot>)
    requires Folded(out, evs) && DistinctIds(evs)
    ensures forall a, b | 0 <= a < b < |out| :: !SameContent(out[a], out[b])
    ensures forall e | e in evs :: exists s :: s in out && SameContent(s, e) && e.authority <= s.authority
  {
    hide Folded;
    FoldedLaws(out, evs);
    forall e | e in evs ensures exists s :: s in out && SameContent(s, e) && e.authority <= s.authority {
      assert Represented(e, out);
    }
  }

  ghost function LeaderWitness(s: Snapshot, evs: seq<Snapshot>): (e: Snapshot)
    requires Leader(s, evs)
    ensures e == s && e in evs
  {
    var i: nat :| i < |evs| && evs[i] == s && Leads(evs, i);
    evs[i]
  }

  lemma DistinctIdsMeansOne(evs: seq<Snapshot>, a: Snapshot, b: Snapshot)
    requires DistinctIds(evs) && a in evs && b in evs && a != b
    ensures a.id != b.id
  {
    var i :| 0 <= i < |evs| && evs[i] == a;
    var j :| 0 <= j < |evs| && evs[j] == b;
  }

  lemma LeaderIsUnique(s: Snapshot, t: Snapshot, evs: seq<Snapshot>)
    requires Leader(s, evs) && Leader(t, evs) && ContentOf(s) == ContentOf(t)
    ensures s == t
  {
    var i: nat :| i < |evs| && evs[i] == s && Leads(evs, i);
    var j: nat :| j < |evs| && evs[j] == t && Leads(evs, j);
  }

  /** At most one list of survivors meets the description: the merge is determined by its input. */
  lemma {:induction false} FoldedIsUnique(out: seq<Snapshot>, other: seq<Snapshot>, evs: seq<Snapshot>)
    requires Folded(out, evs) && Folded(other, evs)
    ensures out == other
  {
    FoldedPrefix(out, other, evs, |out|);
    FoldedPrefix(other, out, evs, |other|);
  }

  lemma {:induction false} FoldedPrefix(out: seq<Snapshot>, other: seq<Snapshot>, evs: seq<Snapshot>, n: nat)
    requires Folded(out, evs) && Folded(other, evs) && n <= |out|
    ensures n <= |other| && out[..n] == other[..n]
  {
    hide FirstAt, ContentOf, Leader, Ordered, Contents;
    if n > 0 {
      FoldedPrefix(out, other, evs, n - 1);
      var b := SameContentAt(out, other, evs, n - 1);
      NotBefore(out, other, evs, n - 1, b);
      var a := SameContentAt(other, out, evs, n - 1);
      NotBefore(other, out, evs, n - 1, a);
      assert out[n - 1] in out && other[n - 1] in other;
      LeaderIsUnique(out[n - 1], other[n - 1], evs);
      assert out[..n] == out[..n - 1] + [out[n - 1]];
      assert other[..n] == other[..n - 1] + [other[n - 1]];
    }
  }

  /** Beyond a common prefix, a content of one list is not found inside it. */
  lemma NotBefore(out: seq<Snapshot>, other: seq<Snapshot>, evs: seq<Snapshot>, m: nat, b: nat)
    requires Folded(out, evs) && Folded(other, evs) && m < |out| && m <= |other| && out[..m] == other[..m]
    requires b < |other| && ContentOf(other[b]) == ContentOf(out[m])
    ensures b >= m
    ensures b > m ==> FirstAt(evs, ContentOf(other[m])) < FirstAt(evs, ContentOf(out[m]))
  {
    forall j | 0 <= j < m ensures out[j] == other[j] {
      assert out[..m][j] == other[..m][j];
    }
    FoldedIsDistinct(out, evs);
  }

  lemma SameContentAt(out: seq<Snapshot>, other: seq<Snapshot>, evs: seq<Snapshot>, i: nat) returns (b: nat)
    requires Folded(out, evs) && Folded(other, evs) && i < |out|
    ensures b < |other| && ContentOf(other[b]) == ContentOf(out[i])
  {
    assert out[i] in out && Leader(out[i], evs);
    LeaderIsHighest(out[i], LeaderWitness(out[i], evs), evs);
    var s :| s in other && ContentOf(s) == ContentOf(out[i]);
    b :| 0 <= b < |other| && other[b] == s;
  }

  lemma LastIsNew(init: seq<Snapshot>, last: Snapshot)
    requires DistinctIds(init + [last])
    ensures last.id !in Ids(init) && DistinctIds(init)
  {
    var evs := init + [last];
    forall i | 0 <= i < |init| ensures init[i].id != last.id {
      assert evs[i] == init[i] && evs[|init|] == last;
    }
    forall i, j | 0 <= i < j < |init| ensures init[i].id != init[j].id {
      assert evs[i] == init[i] && evs[j] == init[j];
    }
  }

  lemma {:induction false} FirstsFixed(evs: seq<Snapshot>)
    requires DistinctIds(evs)
    ensures Firsts(evs) == evs
  {
    if evs != [] {
      hide Ids, DistinctIds;
      var init, last := evs[..|evs| - 1], evs[|evs| - 1];
      assert evs == init + [last];
      LastIsNew(init, last);
      FirstsFixed(init);
    }
  }

  /** Merging the survivors again, as one corpus, returns them unchanged. */
  lemma {:induction false} MergeIsIdempotent(out: seq<Snapshot>, evs: seq<Snapshot>)
    requires Folded(out, Firsts(evs))
    ensures Folded(out, Firsts(out))
  {
    hide Folded;
    FirstsLaws(evs);
    FoldedLaws(out, Firsts(evs));
    FirstsFixed(out);
    DistinctIsFolded(out);
  }

  lemma DistinctIsFolded(out: seq<Snapshot>)
    requires DistinctContents(out)
    ensures Folded(out, out)
  {
    forall i: nat | i < |out| ensures Leader(out[i], out) {
      assert Leads(out, i);
    }
    forall e | e in out ensures ContentOf(e) in Contents(out) {
    }
    forall i | 0 <= i < |out| ensures FirstAt(out, ContentOf(out[i])) == i {
    }
  }

  // ---------------------------------------------------------------------
  // The merge
  // ---------------------------------------------------------------------

  class MergeState {
    var survivors: seq<Snapshot>
    var idKeys: map<string, nat>
    var textKeys: map<Content, nat>
    var contributed: set<string>

    constructor ()
      ensures Holds([])
    {
      survivors, idKeys, textKeys, contributed := [], map[], map[], {};
    }

    /** The state after the snapshots `seen`. */
    ghost predicate Holds(seen: seq<Snapshot>)
      reads this
    {
      && Folded(survivors, Firsts(seen))
      && contributed == Corpora(Firsts(seen))
      && idKeys.Keys == Ids(seen)
      && Located()
    }

    /** The content dictionary points at the survivor of each content. */
    ghost predicate Located()
      reads this
    {
      && textKeys.Keys == Contents(survivors)
      && (forall k | k in textKeys :: textKeys[k] < |survivors| && ContentOf(survivors[textKeys[k]]) == k)
    }

    method Take(ev: Snapshot, ghost seen: seq<Snapshot>)
      requires Holds(seen)
      modifies this
      ensures Holds(seen + [ev])
    {
      hide Folded, Firsts, ContentOf, Contents, Ids, Corpora;
      FirstsNext(seen, ev);
      IdsAppend(seen, ev);
      if ev.id in idKeys {
        assert Ids(seen + [ev]) == Ids(seen);
        return;
      }
      var key := ContentOf(ev);
      CorporaAppend(Firsts(seen), ev);
      if key !in textKeys {
        FoldNew(survivors, Firsts(seen), ev);
        LocatedAppend(survivors, ev);
        var idx := |survivors|;
        survivors := survivors + [ev];
        idKeys := idKeys[ev.id := idx];
        textKeys := textKeys[key := idx];
        contributed := contributed + {ev.corpus};
      } else {
        var idx := textKeys[key];
        FoldMeets(survivors, Firsts(seen), ev, idx);
        idKeys := idKeys[ev.id := idx];
        if ev.authority > survivors[idx].authority {
          SameContents(survivors, survivors[idx := ev]);
          survivors := survivors[idx := ev];
        }
        contributed := contributed + {ev.corpus};
      }
    }
  }

  lemma FirstsNext(seen: seq<Snapshot>, ev: Snapshot)
    ensures Firsts(seen + [ev]) == if ev.id in Ids(seen) then Firsts(seen) else Firsts(seen) + [ev]
  {
    assert (seen + [ev])[..|seen|] == seen;
  }

  lemma CorporaAppend(evs: seq<Snapshot>, c: Snapshot)
    ensures Corpora(evs + [c]) == Corpora(evs) + {c.corpus}
  {
    forall e | e in evs ensures e.corpus in Corpora(evs + [c]) {
      assert e in evs + [c];
    }
    assert c in evs + [c];
  }

  lemma LocatedAppend(out: seq<Snapshot>, c: Snapshot)
    ensures Contents(out + [c]) == Contents(out) + {ContentOf(c)}
  {
    forall e | e in out ensures ContentOf(e) in Contents(out + [c]) {
      assert e in out + [c];
    }
    assert c in out + [c];
  }

  /** `order` lists the corpora in ascending order of their ids. */
  method MergeEvidence(order: seq<string>, perCorpus: map<string, seq<Snapshot>>)
    returns (evidence: seq<Snapshot>, contributing: set<string>)
    requires forall c | c in order :: c in perCorpus
    ensures Folded(evidence, Firsts(Flat(order, perCorpus)))
    ensures contributing == Corpora(Firsts(Flat(order, perCorpus)))
  {
    hide Folded, Firsts, Corpora;
    var state := new MergeState();
    ghost var seen := [];
    for i := 0 to |order|
      invariant fresh(state) && state.Holds(seen) && seen == Flat(order[..i], perCorpus)
    {
      var evs := perCorpus[order[i]];
      for j := 0 to |evs|
        invariant state.Holds(seen) && seen == Flat(order[..i], perCorpus) + evs[..j]
      {
        state.Take(evs[j], seen);
        seen := seen + [evs[j]];
        assert evs[..j + 1] == evs[..j] + [evs[j]];
      }
      assert evs[..|evs|] == evs && order[..i + 1][..i] == order[..i];
    }
    assert order[..|order|] == order;
    evidence, contributing := state.survivors, state.contributed;
  }
}
