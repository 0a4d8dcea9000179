/** The chunker's rebalancing steps on segment objects whose text is edited in place. */
module Chunkers {
  import opened Common
  import opened Chunking

  class Seg {
    var text: string

    constructor (text: string)
      ensures this.text == text
    {
      this.text := text;
    }
  }

  function Texts(segs: seq<Seg>): (t: seq<string>)
    reads segs
    ensures |t| == |segs| && forall i | 0 <= i < |segs| :: t[i] == segs[i].text
  {
    seq(|segs|, i requires 0 <= i < |segs| reads segs => segs[i].text)
  }

  ghost predicate Apart(segs: seq<Seg>) {
    forall i, j | 0 <= i < j < |segs| :: segs[i] != segs[j]
  }

  lemma TextsAppend(segs: seq<Seg>, seg: Seg)
    ensures Texts(segs + [seg]) == Texts(segs) + [seg.text]
  {
  }

  lemma {:induction false} MergeNext(done: seq<string>, current: string, rest: seq<string>, min: nat)
    ensures MergeFrom(done, current, rest, min) ==
            if rest != [] then
              if |current| < min then MergeFrom(done, Glue(current, rest[0]), rest[1..], min)
              else MergeFrom(done + [current], rest[0], rest[1..], min)
            else if |current| < min && done != [] then done[..|done| - 1] + [Glue(done[|done| - 1], current)]
            else done + [current]
  {
  }

  /** Fold the last segment into its predecessor if it is small. */
  method CloseMerge(merged0: seq<Seg>, current: Seg, min: nat) returns (merged: seq<Seg>)
    requires Apart(merged0) && current !in merged0
    modifies merged0
    ensures Apart(merged) && (forall s | s in merged :: s in merged0 || s == current)
    ensures Texts(merged) == MergeFrom(old(Texts(merged0)), old(current.text), [], min)
  {
    merged := merged0;
    MergeNext(Texts(merged), current.text, [], min);
    if |current.text| < min && merged != [] {
      var last := merged[|merged| - 1];
      ghost var before := Texts(merged);
      last.text := Glue(last.text, current.text);
      assert Texts(merged) == before[..|before| - 1] + [last.text];
    } else {
      TextsAppend(merged, current);
      merged := merged + [current];
    }
  }

  method MergeSmallParents(segs: seq<Seg>, min: nat) returns (merged: seq<Seg>)
    ensures fresh(merged) && Apart(merged)
    ensures Texts(merged) == MergeSmall(Texts(segs), min)
  {
    hide MergeFrom;
    merged := [];
    if segs == [] { return; }
    var current := new Seg(segs[0].text);
    ghost var texts := Texts(segs);
    var i := 1;
    while i < |segs|
      invariant 1 <= i <= |segs| && Texts(segs) == texts
      invariant fresh(merged) && fresh(current) && Apart(merged) && current !in merged
      invariant MergeFrom(Texts(merged), current.text, texts[i..], min) == MergeSmall(texts, min)
    {
      ghost var before := Texts(merged);
      MergeNext(before, current.text, texts[i..], min);
      assert texts[i..][0] == segs[i].text && texts[i..][1..] == texts[i + 1..];
      if |current.text| < min {
        current.text := Glue(current.text, segs[i].text);
        assert Texts(merged) == before;
      } else {
        TextsAppend(merged, current);
        merged := merged + [current];
        ghost var after := Texts(merged);
        current := new Seg(segs[i].text);
        assert Texts(merged) == after;
      }
      i := i + 1;
    }
    assert texts[i..] == [];
    merged := CloseMerge(merged, current, min);
    forall k | 0 <= k < |merged| ensures fresh(merged[k]) {
      assert merged[k] in merged;
    }
  }

  lemma ApartConcat(a: seq<Seg>, b: seq<Seg>)
    requires Apart(a) && Apart(b) && forall s | s in b :: s !in a
    ensures Apart(a + b)
  {
    var all := a + b;
    forall i, j | 0 <= i < j < |all| ensures all[i] != all[j] {
      if i < |a| <= j { assert all[j] in b; }
    }
  }

  lemma TextsConcat(a: seq<Seg>, b: seq<Seg>)
    ensures Texts(a + b) == Texts(a) + Texts(b)
  {
  }

  lemma SplitNext(texts: seq<string>, i: nat, max: nat, split: Splitter)
    requires i < |texts|
    ensures SplitLarge(texts[..i + 1], max, split) ==
            SplitLarge(texts[..i], max, split) + (if |texts[i]| > max then split(texts[i]) else [texts[i]])
  {
    assert texts[..i + 1][..i] == texts[..i];
  }

  /** Oversized segments become new ones; the others are passed on as they are. */
  method SplitLargeParents(segs: seq<Seg>, max: nat, split: Splitter) returns (out: seq<Seg>)
    requires Apart(segs)
    ensures Apart(out) && forall s | s in out :: fresh(s) || s in segs
    ensures Texts(out) == SplitLarge(Texts(segs), max, split)
  {
    out := [];
    ghost var texts := Texts(segs);
    for i := 0 to |segs|
      invariant Apart(out) && (forall s | s in out :: fresh(s) || s in segs[..i])
      invariant Texts(segs) == texts && Texts(out) == SplitLarge(texts[..i], max, split)
    {
      hide SplitLarge, Apart;
      SplitNext(texts, i, max, split);
      assert segs[..i + 1] == segs[..i] + [segs[i]];
      ghost var before := Texts(out);
      var added := [segs[i]];
      if |segs[i].text| > max {
        added := NewSegs(split(segs[i].text));
        assert Texts(out) == before;
        assert forall s | s in added :: fresh(s) && s !in out;
      } else {
        assert Texts(added) == [segs[i].text];
      }
      ApartConcat(out, added);
      TextsConcat(out, added);
      out := out + added;
    }
    assert texts[..|segs|] == texts;
  }

  method NewSegs(parts: seq<string>) returns (segs: seq<Seg>)
    ensures fresh(segs) && Apart(segs) && Texts(segs) == parts
  {
    segs := [];
    for i := 0 to |parts|
      invariant fresh(segs) && Apart(segs) && Texts(segs) == parts[..i]
    {
      ghost var before := Texts(segs);
      var seg := new Seg(parts[i]);
      assert Texts(segs) == before;
      TextsAppend(segs, seg);
      segs := segs + [seg];
      assert parts[..i + 1] == parts[..i] + [parts[i]];
    }
    assert parts[..|parts|] == parts;
  }

  // ---------------------------------------------------------------------
  // Cleaning up small segments
  // ---------------------------------------------------------------------

  lemma {:induction false} FoldNext(done: seq<string>, seg: string, tail: seq<string>, z: Sizes, single: bool)
    ensures FoldSmall(done, [seg] + tail, z, single) ==
            if |seg| >= z.min || single then FoldSmall(done + [seg], tail, z, single)
            else if done != [] && |done[|done| - 1]| + 2 + |seg| <= z.max then
              FoldSmall(done[|done| - 1 := Glue(done[|done| - 1], seg)], tail, z, single)
            else if tail != [] && |tail[0]| + 2 + |seg| <= z.max then
              FoldSmall(done, tail[0 := Glue(seg, tail[0])], z, single)
            else FoldSmall(done + [seg], tail, z, single)
  {
    hide Glue;
    var rest := [seg] + tail;
    assert rest[0] == seg && rest[1..] == tail;
    if done != [] {
      var g := Glue(done[|done| - 1], seg);
      assert done[..|done| - 1] + [g] == done[|done| - 1 := g];
    }
    if tail != [] {
      var g := Glue(seg, tail[0]);
      assert rest[1] == tail[0] && [g] + rest[2..] == tail[0 := g];
    }
  }

  /** Edit one segment in place; `others` do not hold it. */
  method Rewrite(segs: seq<Seg>, k: nat, text: string, ghost others: seq<Seg>)
    requires Apart(segs) && k < |segs| && segs[k] !in others
    modifies segs[k]
    ensures segs[k].text == text
    ensures Texts(segs) == old(Texts(segs))[k := text] && Texts(others) == old(Texts(others))
  {
    segs[k].text := text;
  }

  lemma TextsTail(segs: seq<Seg>, i: nat)
    requires i < |segs|
    ensures Texts(segs[i..]) == [segs[i].text] + Texts(segs[i + 1..])
  {
  }

  /** One step of the first pass: `seg` is kept, or folded into a neighbour in place. */
  method FoldOne(segs: seq<Seg>, i: nat, out: seq<Seg>, z: Sizes) returns (out': seq<Seg>)
    requires Apart(segs) && Apart(out) && i < |segs| && forall s | s in out :: s in segs[..i]
    modifies segs
    ensures Apart(out') && forall s | s in out' :: s in segs[..i + 1]
    ensures FoldSmall(Texts(out'), Texts(segs[i + 1..]), z, |segs| == 1) ==
            FoldSmall(old(Texts(out)), old(Texts(segs[i..])), z, |segs| == 1)
  {
    var seg, tail := segs[i], segs[i + 1..];
    KeptApart(segs, i, out);
    hide FoldSmall, Glue, Apart;
    FoldNext(Texts(out), seg.text, Texts(tail), z, |segs| == 1);
    TextsTail(segs, i);
    assert segs[..i + 1] == segs[..i] + [seg];
    if |seg.text| < z.min && |segs| != 1 {
      if out != [] && |out[|out| - 1].text| + 2 + |seg.text| <= z.max {
        assert out[|out| - 1] in out && out[|out| - 1] in segs;
        Rewrite(out, |out| - 1, Glue(out[|out| - 1].text, seg.text), tail);
        return out;
      }
      if tail != [] && |tail[0].text| + 2 + |seg.text| <= z.max {
        Rewrite(tail, 0, Glue(seg.text, tail[0].text), out);
        return out;
      }
    }
    TextsAppend(out, seg);
    out' := out + [seg];
  }

  lemma KeptApart(segs: seq<Seg>, i: nat, out: seq<Seg>)
    requires Apart(segs) && Apart(out) && i < |segs| && forall s | s in out :: s in segs[..i]
    ensures Apart(out + [segs[i]]) && segs[i] !in out && Apart(segs[i + 1..])
    ensures forall s | s in out :: s !in segs[i + 1..]
    ensures forall k | i <= k < |segs| :: segs[k] !in out
  {
  }

  method FoldSmallSegs(segs: seq<Seg>, z: Sizes) returns (out: seq<Seg>)
    requires Apart(segs)
    modifies segs
    ensures Apart(out) && forall s | s in out :: s in segs
    ensures Texts(out) == FoldSmall([], old(Texts(segs)), z, |segs| == 1)
  {
    hide Apart;
    out := [];
    ghost var target := FoldSmall([], Texts(segs), z, |segs| == 1);
    assert segs[0..] == segs && Texts(out) == [];
    NoneApart();
    for i := 0 to |segs|
      invariant Apart(out) && forall s | s in out :: s in segs[..i]
      invariant FoldSmall(Texts(out), Texts(segs[i..]), z, |segs| == 1) == target
    {
      hide FoldSmall;
      out := FoldOne(segs, i, out, z);
    }
    assert Texts(segs[|segs|..]) == [];
  }

  lemma NoneApart()
    ensures Apart([])
  {
  }

  method RebalanceSegs(first: Seg, second: Seg, z: Sizes) returns (l: Seg, r: Seg)
    requires ValidSizes(z)
    ensures (l.text, r.text) == RebalancePair(first.text, second.text, z)
  {
    CombinedLength(first.text, second.text);
    var (left, right) := Redistribute(Combined(first.text, second.text), z);
    hide Redistribute, Combined;
    if left == [] || right == [] { return first, second; }
    l := new Seg(left);
    r := new Seg(right);
  }

  lemma {:induction false} RebalanceNext(texts: seq<string>, i: nat, z: Sizes)
    requires ValidSizes(z) && i < |texts|
    ensures RebalanceFrom(texts, i, z) ==
            if |texts[i]| >= z.min || |texts| == 1 then RebalanceFrom(texts, i + 1, z)
            else
              var k := if i < |texts| - 1 then i else i - 1;
              var (l, r) := RebalancePair(texts[k], texts[k + 1], z);
              RebalanceFrom(texts[k := l][k + 1 := r], i + 1, z)
  {
    hide RebalancePair;
  }

  lemma {:induction false} RebalanceDone(texts: seq<string>, z: Sizes)
    requires ValidSizes(z)
    ensures RebalanceFrom(texts, |texts|, z) == texts
  {
  }

  method RebalanceSmallSegs(segs: seq<Seg>, z: Sizes) returns (out: seq<Seg>)
    requires ValidSizes(z)
    ensures Texts(out) == RebalanceFrom(Texts(segs), 0, z)
  {
    hide RebalancePair, RebalanceFrom;
    out := segs;
    ghost var target := RebalanceFrom(Texts(segs), 0, z);
    for i := 0 to |out|
      invariant |out| == |segs| && RebalanceFrom(Texts(out), i, z) == target
    {
      ghost var before := Texts(out);
      RebalanceNext(before, i, z);
      if |out[i].text| < z.min && |out| != 1 {
        var k := if i < |out| - 1 then i else i - 1;
        var l, r := RebalanceSegs(out[k], out[k + 1], z);
        assert Texts(out) == before;
        out := out[k := l][k + 1 := r];
        assert Texts(out) == before[k := l.text][k + 1 := r.text];
      }
    }
    RebalanceDone(Texts(out), z);
  }

  /** Both passes over segments that are edited in place. */
  method CleanSmallChunks(segs: seq<Seg>, z: Sizes) returns (out: seq<Seg>)
    requires ValidSizes(z) && Apart(segs)
    modifies segs
    ensures Texts(out) == CleanSmall(old(Texts(segs)), z)
  {
    hide FoldSmall, RebalanceFrom;
    var folded := FoldSmallSegs(segs, z);
    out := RebalanceSmallSegs(folded, z);
  }

  method RebalanceParents(raw: seq<Seg>, z: Sizes, split: Splitter) returns (out: seq<Seg>)
    requires ValidSizes(z)
    ensures Texts(out) == CleanSmall(SplitLarge(MergeSmall(old(Texts(raw)), z.min), z.max, split), z)
  {
    hide MergeSmall, SplitLarge, CleanSmall, Apart, ValidSizes;
    var merged := MergeSmallParents(raw, z.min);
    var segs := SplitLargeParents(merged, z.max, split);
    forall i | 0 <= i < |segs| ensures fresh(segs[i]) {
      assert segs[i] in segs;
    }
    out := CleanSmallChunks(segs, z);
  }

  /** The whole rebalancing of the header splitter's segments, with its closing check. */
  method ChunkParents(raw: seq<Seg>, z: Sizes, split: Splitter) returns (result: Result<seq<string>, ChunkError>)
    requires ValidSizes(z)
    ensures result == Parents(old(Texts(raw)), z, split)
  {
    hide MergeSmall, SplitLarge, CleanSmall;
    var out := RebalanceParents(raw, z, split);
    for i := 0 to |out|
      invariant forall k | 0 <= k < i :: |Texts(out)[k]| <= z.max
    {
      if |out[i].text| > z.max {
        assert |Texts(out)[i]| > z.max;
        return Err(ParentTooLong);
      }
    }
    result := Ok(Texts(out));
  }
}
