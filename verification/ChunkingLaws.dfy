/** Which segments the chunker merges, folds and cuts, and where. */
module ChunkingLaws {
  import opened Common
  import opened Chunking

  // ---------------------------------------------------------------------
  // Merging small segments
  // ---------------------------------------------------------------------

  /** The first `n` segments, joined, are the shortest start of `segs` that reaches the minimum, or all of it. */
  ghost predicate ShortestStart(segs: seq<string>, min: nat, n: nat) {
    && 0 < n <= |segs| && (n < |segs| ==> |Join(segs[..n])| >= min)
    && forall m | 0 < m < n :: |Join(segs[..m])| < min
  }

  /** Merging goes on exactly until the minimum is reached. */
  lemma {:induction false} MergesUntil(done: seq<string>, segs: seq<string>, min: nat, m: nat, n: nat)
    requires 0 < m <= n <= |segs| && forall k | m <= k < n :: |Join(segs[..k])| < min
    ensures MergeFrom(done, Join(segs[..m]), segs[m..], min) == MergeFrom(done, Join(segs[..n]), segs[n..], min)
    decreases n - m
  {
    if m < n {
      hide Join;
      assert segs[..m + 1] == segs[..m] + [segs[m]] && segs[m..][1..] == segs[m + 1..];
      JoinAppend(segs[..m], segs[m]);
      MergesUntil(done, segs, min, m + 1, n);
    }
  }

  /** A first segment that is done with stands in front, unless all that follows is one small segment. */
  lemma {:induction false} MergedBehind(first: string, done: seq<string>, current: string, rest: seq<string>, min: nat)
    requires forall i | 0 <= i < |done| :: |done[i]| >= min
    ensures var out := MergeFrom(done, current, rest, min);
            MergeFrom([first] + done, current, rest, min)
            == if |out| == 1 && |out[0]| < min then [Glue(first, out[0])] else [first] + out
    decreases |rest|
  {
    hide Glue;
    if rest == [] {
      var all := [first] + done;
      assert done != [] ==> all[..|all| - 1] == [first] + done[..|done| - 1] && all[|all| - 1] == done[|done| - 1];
      if done != [] { GlueReaches(done[|done| - 1], current, min); }
      assert done == [] ==> all == [first];
      assert [first] + done + [current] == [first] + (done + [current]);
    } else if |current| < min {
      MergedBehind(first, done, Glue(current, rest[0]), rest[1..], min);
    } else {
      assert [first] + (done + [current]) == [first] + done + [current];
      MergedBehind(first, done + [current], rest[0], rest[1..], min);
    }
  }

  lemma GlueReaches(a: string, b: string, min: nat)
    ensures |a| >= min ==> |Glue(a, b)| >= min
  {
  }

  /** There always is such a start. */
  lemma {:induction false} SomeStart(segs: seq<string>, min: nat, from: nat) returns (n: nat)
    requires 0 < from <= |segs| && forall m | 0 < m < from :: |Join(segs[..m])| < min
    ensures ShortestStart(segs, min, n)
    decreases |segs| - from
  {
    hide Join;
    if from == |segs| || |Join(segs[..from])| >= min { n := from; } else { n := SomeStart(segs, min, from + 1); }
  }

  /** Merging takes the shortest start that reaches the minimum as one segment, and goes on behind it; what is left
      over behind the last such start, being small as a whole, joins it. */
  lemma MergedInStretches(segs: seq<string>, min: nat) returns (n: nat)
    requires segs != []
    ensures ShortestStart(segs, min, n)
    ensures MergeSmall(segs, min) ==
            if n == |segs| then [Join(segs)]
            else if |Join(segs[n..])| < min then [Glue(Join(segs[..n]), Join(segs[n..]))]
            else [Join(segs[..n])] + MergeSmall(segs[n..], min)
  {
    StartsAlone(segs);
    hide Join, Glue;
    n := SomeStart(segs, min, 1);
    hide ShortestStart;
    MergesUntil([], segs, min, 1, n);
    if n == |segs| {
      assert segs[..n] == segs && segs[n..] == [];
    } else {
      assert [] + [Join(segs[..n])] == [Join(segs[..n])];
      MergedTail(Join(segs[..n]), segs[n..], min);
    }
  }

  lemma StartsAlone(segs: seq<string>)
    requires segs != []
    ensures Join(segs[..1]) == segs[0]
  {
    assert segs[..1] == [segs[0]];
    JoinOne(segs[0]);
  }

  lemma MergedTail(first: string, tail: seq<string>, min: nat)
    requires tail != []
    ensures MergeFrom([first], tail[0], tail[1..], min)
            == if |Join(tail)| < min then [Glue(first, Join(tail))] else [first] + MergeSmall(tail, min)
  {
    hide Join, Glue;
    assert [first] + [] == [first];
    MergedBehind(first, [], tail[0], tail[1..], min);
    MergeSmallLaws(tail, min);
    var out := MergeSmall(tail, min);
    assert out == MergeFrom([], tail[0], tail[1..], min);
    hide MergeFrom, MergeSmall;
    if |out| == 1 {
      assert out == [out[0]];
      JoinOne(out[0]);
      assert out[0] == Join(tail);
    } else {
      JoinIsLonger(out);
    }
  }

  /** A join is no shorter than any of its segments. */
  lemma {:induction false} JoinIsLonger(segs: seq<string>)
    requires segs != []
    ensures |Join(segs)| >= |segs[0]|
  {
    if |segs| > 1 { JoinIsLonger(segs[..|segs| - 1]); }
  }

  // ---------------------------------------------------------------------
  // Folding and redistributing what is still small
  // ---------------------------------------------------------------------

  ghost predicate NoneSmall(segs: seq<string>, min: nat) {
    forall i | 0 <= i < |segs| :: |segs[i]| >= min
  }

  lemma {:induction false} FoldsOnlySmall(done: seq<string>, rest: seq<string>, z: Sizes, single: bool)
    requires NoneSmall(rest, z.min)
    ensures FoldSmall(done, rest, z, single) == done + rest
    decreases |rest|
  {
    if rest != [] {
      assert (done + [rest[0]]) + rest[1..] == done + rest;
      FoldsOnlySmall(done + [rest[0]], rest[1..], z, single);
    }
  }

  lemma {:induction false} RebalancesOnlySmall(out: seq<string>, i: nat, z: Sizes)
    requires ValidSizes(z) && (NoneSmall(out, z.min) || |out| == 1)
    ensures RebalanceFrom(out, i, z) == out
    decreases |out| - i
  {
    if i < |out| { RebalancesOnlySmall(out, i + 1, z); }
  }

  /** Segments that all reach the minimum, and a single one, pass the cleaning as they are. */
  lemma CleaningTouchesOnlySmall(segs: seq<string>, z: Sizes)
    requires ValidSizes(z) && (NoneSmall(segs, z.min) || |segs| == 1)
    ensures CleanSmall(segs, z) == segs
  {
    if |segs| == 1 {
      assert FoldSmall([], segs, z, true) == FoldSmall([] + [segs[0]], segs[1..], z, true) == segs;
    } else {
      FoldsOnlySmall([], segs, z, false);
      assert [] + segs == segs;
    }
    RebalancesOnlySmall(segs, 0, z);
  }

  /** A small segment stands behind one it does not fit onto. */
  ghost predicate Unfoldable(segs: seq<string>, z: Sizes) {
    forall i | 0 < i < |segs| && |segs[i]| < z.min :: |segs[i - 1]| + 2 + |segs[i]| > z.max
  }

  /** What the first pass leaves small could not be folded into its predecessor. */
  lemma {:induction false} FoldingIsDone(done: seq<string>, rest: seq<string>, z: Sizes)
    requires Unfoldable(done, z)
    ensures Unfoldable(FoldSmall(done, rest, z, false), z)
    decreases |rest|
  {
    if rest != [] {
      var seg := rest[0];
      if |seg| >= z.min {
        FoldingIsDone(done + [seg], rest[1..], z);
      } else if done != [] && |done[|done| - 1]| + 2 + |seg| <= z.max {
        FoldingIsDone(done[..|done| - 1] + [Glue(done[|done| - 1], seg)], rest[1..], z);
      } else if |rest| > 1 && |rest[1]| + 2 + |seg| <= z.max {
        FoldingIsDone(done, [Glue(seg, rest[1])] + rest[2..], z);
      } else {
        FoldingIsDone(done + [seg], rest[1..], z);
      }
    }
  }

  /** The splitter is asked segment by segment. */
  lemma {:induction false} SplitsEachAlone(a: seq<string>, b: seq<string>, max: nat, split: Splitter)
    ensures SplitLarge(a + b, max, split) == SplitLarge(a, max, split) + SplitLarge(b, max, split)
    decreases |b|
  {
    if b == [] {
      assert a + b == a;
    } else {
      hide SplitLarge;
      var n := |b| - 1;
      assert b == b[..n] + [b[n]];
      assert a + b == a + b[..n] + [b[n]] by { Regroup(a, b[..n], [b[n]]); }
      SplitsEachAlone(a, b[..n], max, split);
      SplitNext(b[..n], b[n], max, split);
      SplitNext(a + b[..n], b[n], max, split);
      Regroup(SplitLarge(a, max, split), SplitLarge(b[..n], max, split), if |b[n]| <= max then [b[n]] else split(b[n]));
    }
  }

  lemma Regroup<T>(a: seq<T>, b: seq<T>, c: seq<T>)
    ensures (a + b) + c == a + (b + c)
  {
  }

  /** Segments within the maximum are left alone; longer ones are replaced by the splitter's parts. */
  lemma SplitNext(segs: seq<string>, seg: string, max: nat, split: Splitter)
    ensures SplitLarge(segs + [seg], max, split) == SplitLarge(segs, max, split) + (if |seg| <= max then [seg] else split(seg))
  {
    assert (segs + [seg])[..|segs|] == segs;
  }

  // ---------------------------------------------------------------------
  // Where a pair is cut
  // ---------------------------------------------------------------------

  /** The separator stands at `i`, inside the window. */
  predicate Stands(s: string, sep: string, start: nat, end: nat, i: nat) {
    start <= i && i + |sep| <= end && OccursAt(s, sep, i)
  }

  ghost predicate NowhereIn(s: string, sep: string, start: nat, end: nat) {
    forall i: nat :: !Stands(s, sep, start, end, i)
  }

  ghost predicate FirstIn(s: string, sep: string, start: nat, end: nat, at: nat) {
    Stands(s, sep, start, end, at) && forall i: nat | Stands(s, sep, start, end, i) :: at <= i
  }

  ghost predicate LastIn(s: string, sep: string, start: nat, end: nat, at: nat) {
    Stands(s, sep, start, end, at) && forall i: nat | Stands(s, sep, start, end, i) :: i <= at
  }

  lemma {:induction false} FindIsFirst(s: string, sep: string, start: nat, end: nat)
    requires sep != []
    ensures match Find(s, sep, start, end)
            case None => NowhereIn(s, sep, start, end)
            case Some(at) => FirstIn(s, sep, start, end, at)
    decreases end - start
  {
    if start + |sep| <= end && !OccursAt(s, sep, start) {
      FindIsFirst(s, sep, start + 1, end);
      assert forall i: nat :: Stands(s, sep, start, end, i) ==> i != start && Stands(s, sep, start + 1, end, i);
    }
  }

  lemma {:induction false} RFindIsLast(s: string, sep: string, start: nat, end: nat)
    requires sep != []
    ensures match RFind(s, sep, start, end)
            case None => NowhereIn(s, sep, start, end)
            case Some(at) => LastIn(s, sep, start, end, at)
    decreases end - start
  {
    if start + |sep| <= end && !OccursAt(s, sep, end - |sep|) {
      RFindIsLast(s, sep, start, end - 1);
      assert forall i: nat :: Stands(s, sep, start, end, i) ==> i != end - |sep| && Stands(s, sep, start, end - 1, i);
    }
  }

  /** `at` is the boundary nearest to the preferred position: the last before it, or else the first behind it. */
  ghost predicate Nearest(s: string, sep: string, lower: nat, preferred: nat, upper: nat, at: nat) {
    || LastIn(s, sep, lower, preferred + 1, at)
    || (NowhereIn(s, sep, lower, preferred + 1) && FirstIn(s, sep, preferred, upper + 1, at))
  }

  ghost predicate Bounded(s: string, sep: string, lower: nat, preferred: nat, upper: nat) {
    !NowhereIn(s, sep, lower, preferred + 1) || !NowhereIn(s, sep, preferred, upper + 1)
  }

  /** The cut is at the nearest boundary of the first separator that has one in the window, and at the preferred
      position if none has. */
  lemma {:induction false} CutsAtBoundary(s: string, seps: seq<string>, lower: nat, preferred: nat, upper: nat)
    requires forall i | 0 <= i < |seps| :: seps[i] != []
    ensures var at := SplitAt(s, seps, lower, preferred, upper);
            if forall i | 0 <= i < |seps| :: !Bounded(s, seps[i], lower, preferred, upper) then at == preferred
            else exists i :: 0 <= i < |seps| && Nearest(s, seps[i], lower, preferred, upper, at)
                   && forall j | 0 <= j < i :: !Bounded(s, seps[j], lower, preferred, upper)
    decreases |seps|
  {
    hide Find, RFind, Nearest, Bounded;
    if seps != [] {
      var at := SplitAt(s, seps, lower, preferred, upper);
      BoundaryIsNearest(s, seps[0], lower, preferred, upper);
      if RFind(s, seps[0], lower, preferred + 1).None? && Find(s, seps[0], preferred, upper + 1).None? {
        CutsAtBoundary(s, seps[1..], lower, preferred, upper);
        forall i | 0 <= i < |seps| - 1 ensures seps[i + 1] == seps[1..][i] {
        }
        if exists i | 0 <= i < |seps| - 1 :: Bounded(s, seps[1..][i], lower, preferred, upper) {
          var i: nat :| i < |seps| - 1 && Nearest(s, seps[1..][i], lower, preferred, upper, at)
                        && forall j | 0 <= j < i :: !Bounded(s, seps[1..][j], lower, preferred, upper);
          assert Nearest(s, seps[i + 1], lower, preferred, upper, at);
          forall j | 0 <= j < i + 1 ensures !Bounded(s, seps[j], lower, preferred, upper) {
            assert j > 0 ==> seps[j] == seps[1..][j - 1];
          }
        } else {
          forall j | 0 <= j < |seps| ensures !Bounded(s, seps[j], lower, preferred, upper) {
            assert j > 0 ==> seps[j] == seps[1..][j - 1];
          }
        }
      }
    }
  }

  lemma BoundaryIsNearest(s: string, sep: string, lower: nat, preferred: nat, upper: nat)
    requires sep != []
    ensures var before, after := RFind(s, sep, lower, preferred + 1), Find(s, sep, preferred, upper + 1);
            && (before.Some? ==> Nearest(s, sep, lower, preferred, upper, before.value))
            && (before.None? && after.Some? ==> Nearest(s, sep, lower, preferred, upper, after.value))
            && (before.Some? || after.Some? <==> Bounded(s, sep, lower, preferred, upper))
  {
    hide Find, RFind, Stands;
    RFindIsLast(s, sep, lower, preferred + 1);
    FindIsFirst(s, sep, preferred, upper + 1);
  }

  /** What counts as white space, by code point. */
  lemma SpacesAre(c: char)
    ensures IsSpace(c) <==>
            c as int in {9, 10, 11, 12, 13, 28, 29, 30, 31, 32, 133, 160, 5760, 8192, 8193, 8194, 8195, 8196, 8197, 8198, 8199,
                         8200, 8201, 8202, 8232, 8233, 8239, 8287, 12288}
  {
  }

  /** Within reach of the sizes, the preferred position is the middle. */
  lemma PrefersMiddle(n: nat, z: Sizes)
    requires ValidSizes(z) && 2 <= n <= 2 * z.max
    ensures Preferred(n, z) == n / 2
    ensures Lower(n, z) == if n >= 2 * z.min && z.min > n - z.max then z.min else if n - z.max > 1 then n - z.max else 1
    ensures Upper(n, z) == if n >= 2 * z.min && n - z.min < z.max then n - z.min else if z.max < n - 1 then z.max else n - 1
  {
  }

  /** The parts of a text are its two sides of the cut, trimmed; or its two halves as they are, when there is text
      enough for both parts but a side falls short. */
  lemma RedistributedAt(s: string, z: Sizes) returns (at: nat)
    requires ValidSizes(z) && 2 <= |s| <= 2 * z.max
    ensures at == SplitAt(s, ["\n\n", "\n", " "], Lower(|s|, z), |s| / 2, Upper(|s|, z)) && at <= |s|
    ensures var left, right := RStrip(s[..at]), LStrip(s[at..]);
            Redistribute(s, z)
            == if (|left| >= z.min && |right| >= z.min) || |s| < 2 * z.min then (left, right) else (s[..|s| / 2], s[|s| / 2..])
  {
    hide SplitAt, LStrip, RStrip;
    PrefersMiddle(|s|, z);
    BoundsArePositive(|s|, z);
    assert SEPARATORS[0] != [] && SEPARATORS[1] != [] && SEPARATORS[2] != [];
    SplitInside(s, SEPARATORS, Lower(|s|, z), Preferred(|s|, z), Upper(|s|, z));
    hide Lower, Upper, Preferred;
    at := CutAt(s, z);
  }

  /** A pair comes back with both parts non-empty, those of the joined text; or, if a part would be empty, as it was. */
  lemma PairIsKeptWhole(first: string, second: string, z: Sizes)
    requires ValidSizes(z)
    ensures var (l, r) := Redistribute(RStrip(first) + "\n\n" + LStrip(second), z);
            RebalancePair(first, second, z) == if |l| > 0 && |r| > 0 then (l, r) else (first, second)
  {
    hide LStrip, RStrip, Redistribute;
  }

  /** The closing check: segments are handed out exactly when every one of them is within the maximum. */
  lemma ClosingCheck(raw: seq<string>, z: Sizes, split: Splitter)
    requires ValidSizes(z)
    ensures var segs := CleanSmall(SplitLarge(MergeSmall(raw, z.min), z.max, split), z);
            Parents(raw, z, split) == if AllWithin(segs, z.max) then Ok(segs) else Err(ParentTooLong)
  {
    hide CleanSmall, SplitLarge, MergeSmall;
  }
}
