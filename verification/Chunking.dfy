/** Parent rebalancing of the chunker: merging, the midpoint split of a pair, and the
    bounds and conservation laws of the whole sequence. */
module Chunking {
  import opened Common

  const SEPARATOR := "\n\n"

  // ---------------------------------------------------------------------
  // Python's string operations
  // ---------------------------------------------------------------------

  predicate IsSpace(c: char) {
    || '\U{0009}' <= c <= '\U{000D}' || '\U{001C}' <= c <= '\U{0020}'
    || c == '\U{0085}' || c == '\U{00A0}' || c == '\U{1680}' || '\U{2000}' <= c <= '\U{200A}'
    || c == '\U{2028}' || c == '\U{2029}' || c == '\U{202F}' || c == '\U{205F}' || c == '\U{3000}'
  }

  function LStrip(s: string): (r: string)
    ensures |r| <= |s| && r == s[|s| - |r|..]
    ensures forall i | 0 <= i < |s| - |r| :: IsSpace(s[i])
    ensures r != [] ==> !IsSpace(r[0])
  {
    if s != [] && IsSpace(s[0]) then LStrip(s[1..]) else s
  }

  function RStrip(s: string): (r: string)
    ensures |r| <= |s| && r == s[..|r|]
    ensures forall i | |r| <= i < |s| :: IsSpace(s[i])
    ensures r != [] ==> !IsSpace(r[|r| - 1])
  {
    if s != [] && IsSpace(s[|s| - 1]) then RStrip(s[..|s| - 1]) else s
  }

  predicate OccursAt(s: string, sep: string, i: nat) {
    i + |sep| <= |s| && s[i..i + |sep|] == sep
  }

  /** s.find(sep, start, end): the first occurrence inside the window. */
  function Find(s: string, sep: string, start: nat, end: nat): (r: Option<nat>)
    ensures r.Some? ==> start <= r.value && r.value + |sep| <= end && OccursAt(s, sep, r.value)
    decreases end - start
  {
    if start + |sep| > end || start >= end then None
    else if OccursAt(s, sep, start) then Some(start)
    else Find(s, sep, start + 1, end)
  }

  /** s.rfind(sep, start, end): the last occurrence inside the window. */
  function RFind(s: string, sep: string, start: nat, end: nat): (r: Option<nat>)
    ensures r.Some? ==> start <= r.value && r.value + |sep| <= end && OccursAt(s, sep, r.value)
    decreases end - start
  {
    if start + |sep| > end || start >= end then None
    else if OccursAt(s, sep, end - |sep|) then Some(end - |sep|)
    else RFind(s, sep, start, end - 1)
  }

  function MinInt(a: int, b: int): int { if a < b then a else b }

  function MaxInt(a: int, b: int): int { if a < b then b else a }

  // ---------------------------------------------------------------------
  // Redistributing a pair
  // ---------------------------------------------------------------------

  datatype Sizes = Sizes(min: nat, max: nat)

  predicate ValidSizes(z: Sizes) {
    0 < z.min <= z.max
  }

  function Combined(first: string, second: string): string {
    RStrip(first) + SEPARATOR + LStrip(second)
  }

  function Lower(n: nat, z: Sizes): nat
    requires n >= 2
  {
    var lower := MaxInt(1, n - z.max);
    if n >= 2 * z.min then MaxInt(lower, z.min) else lower
  }

  function Upper(n: nat, z: Sizes): int
    requires n >= 2
  {
    var upper := MinInt(z.max, n - 1);
    if n >= 2 * z.min then MinInt(upper, n - z.min) else upper
  }

  function Preferred(n: nat, z: Sizes): int
    requires n >= 2
  {
    MinInt(MaxInt(n / 2, Lower(n, z)), Upper(n, z))
  }

  /** The nearest boundary: for each separator the last one before the preferred
      position, else the first one after it. */
  function SplitAt(s: string, seps: seq<string>, lower: nat, preferred: nat, upper: nat): nat {
    if seps == [] then preferred
    else
      match RFind(s, seps[0], lower, preferred + 1)
      case Some(before) => before
      case None =>
        match Find(s, seps[0], preferred, upper + 1)
        case Some(after) => after
        case None => SplitAt(s, seps[1..], lower, preferred, upper)
  }

  lemma {:induction false} BoundsArePositive(n: nat, z: Sizes)
    requires ValidSizes(z) && n >= 2
    ensures 1 <= Upper(n, z) <= z.max && Upper(n, z) < n
    ensures 0 <= Preferred(n, z) <= Upper(n, z) && Preferred(n, z) >= 1
    ensures Lower(n, z) <= Upper(n, z) <==> n <= 2 * z.max
    ensures n >= 2 * z.min ==> z.min <= Preferred(n, z) && Upper(n, z) <= n - z.min
  {
  }

  lemma {:induction false} SplitInside(s: string, seps: seq<string>, lower: nat, preferred: nat, upper: nat)
    requires lower <= preferred <= upper
    requires forall i | 0 <= i < |seps| :: seps[i] != []
    ensures lower <= SplitAt(s, seps, lower, preferred, upper) <= upper
    decreases |seps|
  {
    if seps != [] && RFind(s, seps[0], lower, preferred + 1).None? && Find(s, seps[0], preferred, upper + 1).None? {
      SplitInside(s, seps[1..], lower, preferred, upper);
    }
  }

  const SEPARATORS: seq<string> := ["\n\n", "\n", " "]

  /** Where the combined text is cut. */
  function CutAt(s: string, z: Sizes): (at: nat)
    requires ValidSizes(z) && |s| >= 2
    ensures at <= |s|
  {
    BoundsArePositive(|s|, z);
    var at := SplitAt(s, SEPARATORS, Lower(|s|, z), Preferred(|s|, z), Upper(|s|, z));
    if at <= |s| then at else |s|
  }

  function Redistribute(s: string, z: Sizes): (string, string)
    requires ValidSizes(z) && |s| >= 2
  {
    BoundsArePositive(|s|, z);
    var at, preferred := CutAt(s, z), Preferred(|s|, z);
    var left, right := RStrip(s[..at]), LStrip(s[at..]);
    if |s| >= 2 * z.min && (|left| < z.min || |right| < z.min) then (s[..preferred], s[preferred..]) else (left, right)
  }

  function RebalancePair(first: string, second: string, z: Sizes): (string, string)
    requires ValidSizes(z)
  {
    var (l, r) := Redistribute(Combined(first, second), z);
    if l == [] || r == [] then (first, second) else (l, r)
  }

  lemma {:induction false} CombinedLength(first: string, second: string)
    ensures 2 <= |Combined(first, second)| <= |first| + 2 + |second|
  {
    hide LStrip, RStrip;
  }

  lemma {:induction false} CutInside(s: string, z: Sizes)
    requires ValidSizes(z) && 2 <= |s| <= 2 * z.max
    ensures |s| - z.max <= CutAt(s, z) <= z.max
  {
    hide SplitAt;
    var n := |s|;
    BoundsArePositive(n, z);
    assert Lower(n, z) >= n - z.max;
    assert Lower(n, z) <= Preferred(n, z) <= Upper(n, z);
    hide Lower, Upper, Preferred;
    assert SEPARATORS[0] != [] && SEPARATORS[1] != [] && SEPARATORS[2] != [];
    SplitInside(s, SEPARATORS, Lower(n, z), Preferred(n, z), Upper(n, z));
  }

  lemma {:induction false} RedistributeFits(s: string, z: Sizes)
    requires ValidSizes(z) && 2 <= |s| <= 2 * z.max
    ensures var (l, r) := Redistribute(s, z);
            && |l| <= z.max && |r| <= z.max
            && (|s| >= 2 * z.min ==> |l| >= z.min && |r| >= z.min)
  {
    BoundsArePositive(|s|, z);
    assert Preferred(|s|, z) >= |s| - z.max;
    hide LStrip, RStrip, CutAt, Lower, Upper, Preferred;
    CutInside(s, z);
  }

  /** A below-minimum segment and a neighbour within the maximum: both parts are within
      the maximum, and both reach the minimum when there is text enough for that. */
  lemma {:induction false} RebalanceFits(first: string, second: string, z: Sizes)
    requires 0 < z.min < z.max && |first| <= z.max && |second| <= z.max && (|first| < z.min || |second| < z.min)
    ensures var (l, r) := RebalancePair(first, second, z);
            && |l| <= z.max && |r| <= z.max
            && (|Combined(first, second)| >= 2 * z.min ==> |l| >= z.min && |r| >= z.min)
  {
    hide Redistribute, Combined;
    CombinedLength(first, second);
    RedistributeFits(Combined(first, second), z);
  }

  ghost predicate PairBound(z: Sizes)
    requires ValidSizes(z)
  {
    forall first, second: string |
      |first| <= z.max && |second| <= z.max && (|first| < z.min || |second| < z.min) ::
      PairFits(RebalancePair(first, second, z), z)
  }

  predicate PairFits(pair: (string, string), z: Sizes) {
    |pair.0| <= z.max && |pair.1| <= z.max
  }

  function Repeated(n: nat): (s: string)
    ensures |s| == n
  {
    seq(n, i => 'a')
  }

  lemma {:induction false} StripRepeated(n: nat)
    ensures RStrip(Repeated(n)) == Repeated(n) && LStrip(Repeated(n)) == Repeated(n)
  {
  }

  /** The window of a full segment and one just below the minimum is empty. */
  lemma {:induction false} EqualSizesWindow(m: nat)
    requires m > 0
    ensures var z, n := Sizes(m, m), 2 * m + 1;
            Lower(n, z) == m + 1 && Upper(n, z) == m && Preferred(n, z) == m
  {
  }

  lemma {:induction false} SplitInEmptyWindow(s: string, m: nat)
    requires m + 1 <= |s| && s[m..m + 1] == "\n"
    ensures SplitAt(s, SEPARATORS, m + 1, m, m) == m
  {
    assert Find(s, SEPARATORS[0], m, m + 1) == None;
    assert SEPARATORS[1..][0] == "\n";
    assert Find(s, "\n", m, m + 1) == Some(m);
  }

  lemma {:induction false} StripDropsBreaks(s: string)
    requires |s| >= 2 && s[0] == '\n' && s[1] == '\n'
    ensures |LStrip(s)| <= |s| - 2
  {
    var r := LStrip(s);
  }

  lemma {:induction false} AfterSeparator(a: string, b: string)
    ensures var s := a + SEPARATOR + b; |s| == |a| + 2 + |b| && s[|a|] == '\n' && s[|a| + 1] == '\n'
  {
    var s := a + SEPARATOR + b;
    assert s[|a|] == SEPARATOR[0] && s[|a| + 1] == SEPARATOR[1];
  }

  lemma {:induction false} EqualSizesText(m: nat)
    requires m > 0
    ensures var s := Combined(Repeated(m), Repeated(m - 1));
            |s| == 2 * m + 1 && s[m] == '\n' && s[m + 1] == '\n'
  {
    hide *;
    StripRepeated(m);
    StripRepeated(m - 1);
    CombinedIs(Repeated(m), Repeated(m - 1));
    AfterSeparator(Repeated(m), Repeated(m - 1));
  }

  /** A boundary that leaves too little on the right is given up for the preferred position. */
  lemma {:induction false} BoundaryGivenUp(s: string, z: Sizes)
    requires ValidSizes(z) && |s| >= 2 && |s| >= 2 * z.min && |LStrip(s[CutAt(s, z)..])| < z.min
    ensures 0 < Preferred(|s|, z) < |s|
    ensures Redistribute(s, z) == (s[..Preferred(|s|, z)], s[Preferred(|s|, z)..])
  {
    BoundsArePositive(|s|, z);
    hide LStrip, RStrip, CutAt, Lower, Upper, Preferred;
  }

  lemma {:induction false} CutInEmptyWindow(s: string, m: nat)
    requires m > 0 && |s| == 2 * m + 1 && s[m..m + 1] == "\n"
    ensures CutAt(s, Sizes(m, m)) == m
  {
    EqualSizesWindow(m);
    SplitInEmptyWindow(s, m);
    hide SplitAt, Lower, Upper, Preferred;
  }

  lemma {:induction false} PairIs(first: string, second: string, z: Sizes, l: string, r: string)
    requires ValidSizes(z) && |Combined(first, second)| >= 2 && Redistribute(Combined(first, second), z) == (l, r) && l != [] && r != []
    ensures RebalancePair(first, second, z) == (l, r)
  {
    hide Combined, Redistribute;
  }

  /** With equal sizes a full segment and one just below the minimum break the bound. */
  lemma {:induction false} EqualSizesBreakBound(m: nat)
    requires m > 0
    ensures |RebalancePair(Repeated(m), Repeated(m - 1), Sizes(m, m)).1| == m + 1
  {
    assert ValidSizes(Sizes(m, m));
    hide *;
    var z, s := Sizes(m, m), Combined(Repeated(m), Repeated(m - 1));
    EqualSizesText(m);
    EqualSizesWindow(m);
    assert s[m..m + 1] == [s[m]];
    assert ['\n'] == "\n";
    CutInEmptyWindow(s, m);
    StripDropsBreaks(s[m..]);
    BoundaryGivenUp(s, z);
    PairIs(Repeated(m), Repeated(m - 1), z, s[..m], s[m..]);
  }

  lemma {:induction false} CombinedIs(first: string, second: string)
    ensures Combined(first, second) == RStrip(first) + SEPARATOR + LStrip(second)
  {
  }

  /** The pair bound holds on all inputs exactly when the sizes are strictly ordered;
      the constructor also admits equal sizes. */
  lemma {:induction false} PairBoundIffStrict(z: Sizes)
    requires ValidSizes(z)
    ensures PairBound(z) <==> z.min < z.max
  {
    if z.min < z.max {
      forall first, second: string | |first| <= z.max && |second| <= z.max && (|first| < z.min || |second| < z.min)
        ensures PairFits(RebalancePair(first, second, z), z)
      {
        RebalanceFits(first, second, z);
      }
    } else {
      EqualSizesBreakBound(z.min);
      assert !PairFits(RebalancePair(Repeated(z.min), Repeated(z.min - 1), z), z);
    }
  }

  // ---------------------------------------------------------------------
  // What text survives
  // ---------------------------------------------------------------------

  function NonSpace(s: string): string {
    if s == [] then [] else NonSpace(s[..|s| - 1]) + (if IsSpace(s[|s| - 1]) then [] else [s[|s| - 1]])
  }

  lemma {:induction false} NonSpaceConcat(a: string, b: string)
    ensures NonSpace(a + b) == NonSpace(a) + NonSpace(b)
  {
    hide IsSpace;
    if b == [] {
      assert a + b == a;
    } else {
      var init := b[..|b| - 1];
      assert (a + b)[..|a + b| - 1] == a + init;
      NonSpaceConcat(a, init);
    }
  }

  lemma {:induction false} OnlySpace(s: string)
    requires forall i | 0 <= i < |s| :: IsSpace(s[i])
    ensures NonSpace(s) == []
  {
    hide IsSpace;
    if s != [] { OnlySpace(s[..|s| - 1]); }
  }

  lemma {:induction false} StripsKeepText(s: string)
    ensures NonSpace(LStrip(s)) == NonSpace(s) && NonSpace(RStrip(s)) == NonSpace(s)
  {
    hide IsSpace, NonSpace, LStrip, RStrip;
    var l, r := LStrip(s), RStrip(s);
    var k := |s| - |l|;
    var front, back := s[..k], s[|r|..];
    assert s == front + l && s == r + back;
    OnlySpace(front);
    OnlySpace(back);
    NonSpaceConcat(front, l);
    NonSpaceConcat(r, back);
    assert NonSpace(front) + NonSpace(l) == NonSpace(l);
    assert NonSpace(r) + NonSpace(back) == NonSpace(r);
  }

  /** Redistribution keeps the sequence of non-whitespace characters. */
  lemma {:induction false} RebalanceKeepsText(first: string, second: string, z: Sizes)
    requires ValidSizes(z)
    ensures var (l, r) := RebalancePair(first, second, z); NonSpace(l + r) == NonSpace(first + second)
  {
    hide NonSpace, LStrip, RStrip, CutAt, Lower, Upper, Preferred, Combined;
    CombinedLength(first, second);
    var s := Combined(first, second);
    BoundsArePositive(|s|, z);
    CombinedKeepsText(first, second);
    SplitKeepsText(s, Preferred(|s|, z));
    SplitKeepsText(s, CutAt(s, z));
    NonSpaceConcat(first, second);
    var (l, r) := RebalancePair(first, second, z);
    NonSpaceConcat(l, r);
  }

  lemma {:induction false} SeparatorIsSpace()
    ensures NonSpace(SEPARATOR) == []
  {
    OnlySpace(SEPARATOR);
  }

  lemma {:induction false} CombinedKeepsText(first: string, second: string)
    ensures NonSpace(Combined(first, second)) == NonSpace(first) + NonSpace(second)
  {
    hide *;
    var l, r := RStrip(first), LStrip(second);
    StripsKeepText(first);
    StripsKeepText(second);
    SeparatorIsSpace();
    NonSpaceConcat(l, SEPARATOR);
    NonSpaceConcat(l + SEPARATOR, r);
    CombinedIs(first, second);
    assert NonSpace(l) + [] == NonSpace(l);
  }

  lemma {:induction false} SplitKeepsText(s: string, at: nat)
    requires at <= |s|
    ensures NonSpace(s[..at]) + NonSpace(s[at..]) == NonSpace(s)
    ensures NonSpace(RStrip(s[..at])) + NonSpace(LStrip(s[at..])) == NonSpace(s)
  {
    assert s[..at] + s[at..] == s;
    NonSpaceConcat(s[..at], s[at..]);
    StripsKeepText(s[..at]);
    StripsKeepText(s[at..]);
  }

  // ---------------------------------------------------------------------
  // The segment sequence
  // ---------------------------------------------------------------------

  /** The segments joined by blank lines. */
  function Join(segs: seq<string>): string {
    if segs == [] then []
    else if |segs| == 1 then segs[0]
    else Join(segs[..|segs| - 1]) + SEPARATOR + segs[|segs| - 1]
  }

  function Glue(a: string, b: string): (s: string)
    ensures |s| == |a| + 2 + |b|
  {
    a + SEPARATOR + b
  }

  /** Absorb small segments into what comes next, a small last one into what came before. */
  function MergeFrom(done: seq<string>, current: string, rest: seq<string>, min: nat): seq<string>
    decreases |rest|
  {
    if rest == [] then
      if |current| < min && done != [] then done[..|done| - 1] + [Glue(done[|done| - 1], current)] else done + [current]
    else if |current| < min then MergeFrom(done, Glue(current, rest[0]), rest[1..], min)
    else MergeFrom(done + [current], rest[0], rest[1..], min)
  }

  function MergeSmall(segs: seq<string>, min: nat): seq<string> {
    if segs == [] then [] else MergeFrom([], segs[0], segs[1..], min)
  }

  type Splitter = string -> seq<string>

  /** Segments above the maximum are handed to the splitter. */
  function SplitLarge(segs: seq<string>, max: nat, split: Splitter): seq<string> {
    if segs == [] then []
    else
      var last := segs[|segs| - 1];
      SplitLarge(segs[..|segs| - 1], max, split) + (if |last| > max then split(last) else [last])
  }

  /** First pass: fold a small segment into its predecessor, else into its successor, if it fits. */
  function FoldSmall(done: seq<string>, rest: seq<string>, z: Sizes, single: bool): seq<string>
    decreases |rest|
  {
    if rest == [] then done
    else
      var seg := rest[0];
      if |seg| >= z.min || single then FoldSmall(done + [seg], rest[1..], z, single)
      else if done != [] && |done[|done| - 1]| + 2 + |seg| <= z.max then
        FoldSmall(done[..|done| - 1] + [Glue(done[|done| - 1], seg)], rest[1..], z, single)
      else if |rest| > 1 && |rest[1]| + 2 + |seg| <= z.max then
        FoldSmall(done, [Glue(seg, rest[1])] + rest[2..], z, single)
      else FoldSmall(done + [seg], rest[1..], z, single)
  }

  /** Second pass: redistribute what is still small with a neighbour. */
  function RebalanceFrom(out: seq<string>, i: nat, z: Sizes): seq<string>
    requires ValidSizes(z)
    decreases |out| - i
  {
    hide RebalancePair;
    if i >= |out| then out
    else if |out[i]| >= z.min || |out| == 1 then RebalanceFrom(out, i + 1, z)
    else
      var k := if i < |out| - 1 then i else i - 1;
      var (l, r) := RebalancePair(out[k], out[k + 1], z);
      RebalanceFrom(out[k := l][k + 1 := r], i + 1, z)
  }

  function CleanSmall(segs: seq<string>, z: Sizes): seq<string>
    requires ValidSizes(z)
  {
    RebalanceFrom(FoldSmall([], segs, z, |segs| == 1), 0, z)
  }

  datatype ChunkError = ParentTooLong

  /** The rebalanced parents, unless one exceeds the maximum. */
  function Parents(raw: seq<string>, z: Sizes, split: Splitter): Result<seq<string>, ChunkError>
    requires ValidSizes(z)
  {
    var segs := CleanSmall(SplitLarge(MergeSmall(raw, z.min), z.max, split), z);
    if exists i | 0 <= i < |segs| :: |segs[i]| > z.max then Err(ParentTooLong) else Ok(segs)
  }

  // ---------------------------------------------------------------------
  // Conservation and sizes
  // ---------------------------------------------------------------------

  lemma {:induction false} JoinAppend(segs: seq<string>, last: string)
    ensures Join(segs + [last]) == if segs == [] then last else Glue(Join(segs), last)
  {
    assert (segs + [last])[..|segs|] == segs;
  }

  lemma {:induction false} GlueAssociates(a: string, b: string, c: string)
    ensures Glue(Glue(a, b), c) == Glue(a, Glue(b, c))
  {
    assert a + SEPARATOR + b + SEPARATOR + c == a + SEPARATOR + (b + SEPARATOR + c);
  }

  /** Joins of neighbouring stretches. */
  lemma {:induction false} JoinConcat(a: seq<string>, b: seq<string>)
    ensures Join(a + b) == if a == [] then Join(b) else if b == [] then Join(a) else Glue(Join(a), Join(b))
  {
    hide Glue;
    if a == [] {
      assert a + b == b;
    } else if b == [] {
      assert a + b == a;
    } else {
      var init, last := b[..|b| - 1], b[|b| - 1];
      assert b == init + [last] && a + b == (a + init) + [last];
      JoinConcat(a, init);
      JoinAppend(a + init, last);
      JoinAppend(init, last);
      if init != [] { GlueAssociates(Join(a), Join(init), last); }
      else { assert a + init == a; }
    }
  }

  /** Gluing the last two segments together does not show in the join. */
  lemma {:induction false} JoinGlued(before: seq<string>, a: string, b: string, after: seq<string>)
    ensures Join(before + [a, b] + after) == Join(before + [Glue(a, b)] + after)
  {
    hide Glue;
    JoinAppend([], a);
    JoinAppend([a], b);
    assert [] + [a] == [a] && [a] + [b] == [a, b];
    hide Join;
    JoinOne(Glue(a, b));
    JoinConcat(before, [a, b]);
    JoinConcat(before, [Glue(a, b)]);
    JoinConcat(before + [a, b], after);
    JoinConcat(before + [Glue(a, b)], after);
  }

  lemma {:induction false} JoinOne(s: string)
    ensures Join([s]) == s
  {
  }

  /** Merging keeps the joined text exactly. */
  lemma {:induction false} MergeFromKeepsText(done: seq<string>, current: string, rest: seq<string>, min: nat)
    ensures Join(MergeFrom(done, current, rest, min)) == Join(done + [current] + rest)
    decreases |rest|
  {
    hide Join, Glue;
    if rest == [] {
      assert done + [current] + [] == done + [current];
      if |current| < min && done != [] {
        var init, last := done[..|done| - 1], done[|done| - 1];
        assert done + [current] == init + [last, current] + [];
        assert init + [Glue(last, current)] + [] == init + [Glue(last, current)];
        JoinGlued(init, last, current, []);
      }
    } else if |current| < min {
      assert done + [current] + rest == done + [current, rest[0]] + rest[1..];
      JoinGlued(done, current, rest[0], rest[1..]);
      MergeFromKeepsText(done, Glue(current, rest[0]), rest[1..], min);
    } else {
      assert done + [current] + rest == (done + [current]) + [rest[0]] + rest[1..];
      MergeFromKeepsText(done + [current], rest[0], rest[1..], min);
    }
  }

  lemma {:induction false} MergeFromReachesMinimum(done: seq<string>, current: string, rest: seq<string>, min: nat)
    requires forall i | 0 <= i < |done| :: |done[i]| >= min
    ensures var out := MergeFrom(done, current, rest, min);
            out != [] && (|out| > 1 ==> forall i | 0 <= i < |out| :: |out[i]| >= min)
    decreases |rest|
  {
    hide Glue;
    if rest != [] {
      if |current| < min { MergeFromReachesMinimum(done, Glue(current, rest[0]), rest[1..], min); }
      else { MergeFromReachesMinimum(done + [current], rest[0], rest[1..], min); }
    }
  }

  /** After merging the text is as before and every segment reaches the minimum, unless it is alone. */
  lemma {:induction false} MergeSmallLaws(segs: seq<string>, min: nat)
    ensures Join(MergeSmall(segs, min)) == Join(segs)
    ensures |MergeSmall(segs, min)| > 1 ==> forall i | 0 <= i < |MergeSmall(segs, min)| :: |MergeSmall(segs, min)[i]| >= min
    ensures segs != [] <==> MergeSmall(segs, min) != []
  {
    hide Join;
    if segs != [] {
      assert [] + [segs[0]] + segs[1..] == segs;
      MergeFromKeepsText([], segs[0], segs[1..], min);
      MergeFromReachesMinimum([], segs[0], segs[1..], min);
    }
  }

  /** The first pass keeps the joined text exactly too. */
  lemma {:induction false} FoldSmallKeepsText(done: seq<string>, rest: seq<string>, z: Sizes, single: bool)
    ensures Join(FoldSmall(done, rest, z, single)) == Join(done + rest)
    decreases |rest|
  {
    hide Join, Glue;
    if rest == [] {
      assert done + rest == done;
    } else {
      var seg, tail := rest[0], rest[1..];
      assert done + rest == done + [seg] + tail;
      if |seg| >= z.min || single {
        FoldSmallKeepsText(done + [seg], tail, z, single);
      } else if done != [] && |done[|done| - 1]| + 2 + |seg| <= z.max {
        var init, last := done[..|done| - 1], done[|done| - 1];
        assert done + rest == init + [last, seg] + tail;
        JoinGlued(init, last, seg, tail);
        FoldSmallKeepsText(init + [Glue(last, seg)], tail, z, single);
      } else if |rest| > 1 && |rest[1]| + 2 + |seg| <= z.max {
        assert done + rest == done + [seg, rest[1]] + rest[2..];
        JoinGlued(done, seg, rest[1], rest[2..]);
        assert done + ([Glue(seg, rest[1])] + rest[2..]) == done + [Glue(seg, rest[1])] + rest[2..];
        FoldSmallKeepsText(done, [Glue(seg, rest[1])] + rest[2..], z, single);
      } else {
        FoldSmallKeepsText(done + [seg], tail, z, single);
      }
    }
  }

  ghost predicate AllWithin(segs: seq<string>, max: nat) {
    forall i | 0 <= i < |segs| :: |segs[i]| <= max
  }

  lemma {:induction false} FoldSmallFits(done: seq<string>, rest: seq<string>, z: Sizes, single: bool)
    requires AllWithin(done, z.max) && AllWithin(rest, z.max)
    ensures AllWithin(FoldSmall(done, rest, z, single), z.max)
    decreases |rest|
  {
    hide Glue;
    if rest != [] {
      var seg, tail := rest[0], rest[1..];
      if |seg| >= z.min || single { FoldSmallFits(done + [seg], tail, z, single); }
      else if done != [] && |done[|done| - 1]| + 2 + |seg| <= z.max {
        FoldSmallFits(done[..|done| - 1] + [Glue(done[|done| - 1], seg)], tail, z, single);
      } else if |rest| > 1 && |rest[1]| + 2 + |seg| <= z.max {
        FoldSmallFits(done, [Glue(seg, rest[1])] + rest[2..], z, single);
      } else { FoldSmallFits(done + [seg], tail, z, single); }
    }
  }

  lemma {:induction false} RebalanceFromFits(out: seq<string>, i: nat, z: Sizes)
    requires 0 < z.min < z.max && AllWithin(out, z.max)
    ensures AllWithin(RebalanceFrom(out, i, z), z.max)
    decreases |out| - i
  {
    hide RebalancePair, Combined, LStrip, RStrip;
    if i < |out| {
      if |out[i]| >= z.min || |out| == 1 { RebalanceFromFits(out, i + 1, z); }
      else {
        var k := if i < |out| - 1 then i else i - 1;
        RebalanceFits(out[k], out[k + 1], z);
        var (l, r) := RebalancePair(out[k], out[k + 1], z);
        RebalanceFromFits(out[k := l][k + 1 := r], i + 1, z);
      }
    }
  }

  /** The concatenation of the segments. */
  function Flat(segs: seq<string>): string {
    if segs == [] then [] else Flat(segs[..|segs| - 1]) + segs[|segs| - 1]
  }

  lemma {:induction false} FlatConcat(a: seq<string>, b: seq<string>)
    ensures Flat(a + b) == Flat(a) + Flat(b)
  {
    if b == [] {
      assert a + b == a;
    } else {
      assert (a + b)[..|a + b| - 1] == a + b[..|b| - 1];
      FlatConcat(a, b[..|b| - 1]);
      assert Flat(a) + (Flat(b[..|b| - 1]) + b[|b| - 1]) == Flat(a) + Flat(b[..|b| - 1]) + b[|b| - 1];
    }
  }

  /** The second pass keeps the sequence of non-whitespace characters. */
  lemma {:induction false} RebalanceFromKeepsText(out: seq<string>, i: nat, z: Sizes)
    requires ValidSizes(z)
    ensures NonSpace(Flat(RebalanceFrom(out, i, z))) == NonSpace(Flat(out))
    ensures |RebalanceFrom(out, i, z)| == |out|
    decreases |out| - i
  {
    hide RebalancePair, NonSpace, Flat;
    if i < |out| {
      if |out[i]| >= z.min || |out| == 1 { RebalanceFromKeepsText(out, i + 1, z); }
      else {
        var k := if i < |out| - 1 then i else i - 1;
        var (l, r) := RebalancePair(out[k], out[k + 1], z);
        var next := out[k := l][k + 1 := r];
        PairKeepsText(out, k, z);
        RebalanceFromKeepsText(next, i + 1, z);
      }
    }
  }

  lemma {:induction false} PairKeepsText(out: seq<string>, k: nat, z: Sizes)
    requires ValidSizes(z) && k + 1 < |out|
    ensures var (l, r) := RebalancePair(out[k], out[k + 1], z);
            NonSpace(Flat(out[k := l][k + 1 := r])) == NonSpace(Flat(out))
  {
    hide RebalancePair, NonSpace, Flat;
    var (l, r) := RebalancePair(out[k], out[k + 1], z);
    var before, after := out[..k], out[k + 2..];
    assert out == before + [out[k], out[k + 1]] + after;
    assert out[k := l][k + 1 := r] == before + [l, r] + after;
    RebalanceKeepsText(out[k], out[k + 1], z);
    FlatPair(before, out[k], out[k + 1], after);
    FlatPair(before, l, r, after);
  }

  lemma {:induction false} FlatTwo(a: string, b: string)
    ensures Flat([a, b]) == a + b
  {
    assert [a, b][..1] == [a] && [a][..0] == [];
    assert Flat([a]) == [] + a == a;
  }

  lemma {:induction false} FlatPair(before: seq<string>, a: string, b: string, after: seq<string>)
    ensures NonSpace(Flat(before + [a, b] + after)) == NonSpace(Flat(before)) + NonSpace(a + b) + NonSpace(Flat(after))
  {
    hide NonSpace, Flat;
    FlatTwo(a, b);
    FlatConcat(before, [a, b]);
    FlatConcat(before + [a, b], after);
    NonSpaceConcat(Flat(before), a + b);
    NonSpaceConcat(Flat(before) + (a + b), Flat(after));
  }

  // ---------------------------------------------------------------------
  // The bound
  // ---------------------------------------------------------------------

  ghost predicate Respects(split: Splitter, max: nat) {
    forall s: string :: AllWithin(split(s), max)
  }

  lemma {:induction false} SplitLargeFits(segs: seq<string>, max: nat, split: Splitter)
    requires Respects(split, max)
    ensures AllWithin(SplitLarge(segs, max, split), max)
  {
    if segs != [] {
      SplitLargeFits(segs[..|segs| - 1], max, split);
      assert AllWithin(split(segs[|segs| - 1]), max);
    }
  }

  /** With strictly ordered sizes and a splitter that respects its size, the closing
      check never fails. */
  lemma {:induction false} ParentsNeverTooLong(raw: seq<string>, z: Sizes, split: Splitter)
    requires 0 < z.min < z.max && Respects(split, z.max)
    ensures Parents(raw, z, split).Ok? && AllWithin(Parents(raw, z, split).value, z.max)
  {
    hide SplitLarge, MergeSmall, FoldSmall, RebalanceFrom;
    var segs := SplitLarge(MergeSmall(raw, z.min), z.max, split);
    SplitLargeFits(MergeSmall(raw, z.min), z.max, split);
    FoldSmallFits([], segs, z, |segs| == 1);
    RebalanceFromFits(FoldSmall([], segs, z, |segs| == 1), 0, z);
  }

  /** A full segment and a small one behind it travel together up to the second pass. */
  lemma {:induction false} PairMerges(a: string, b: string, min: nat)
    requires |b| < min <= |a|
    ensures MergeSmall([a, b], min) == [Glue(a, b)]
  {
    hide Glue;
    assert [a, b][1..] == [b] && [b][1..] == [];
    assert [] + [a] == [a];
    assert MergeFrom([a], b, [], min) == [a][..0] + [Glue(a, b)] == [Glue(a, b)];
    assert MergeFrom([], a, [b], min) == MergeFrom([a], b, [], min);
  }

  lemma {:induction false} PairSplits(a: string, b: string, max: nat, split: Splitter)
    requires split(Glue(a, b)) == [a, b] && |a| + 2 + |b| > max
    ensures SplitLarge([Glue(a, b)], max, split) == [a, b]
  {
    var g := Glue(a, b);
    hide Glue;
    assert [g][..0] == [];
    assert SplitLarge([], max, split) == [];
    assert [] + [a, b] == [a, b];
  }

  lemma {:induction false} PairStands(a: string, b: string, z: Sizes)
    requires |b| < z.min <= |a| && |a| + 2 + |b| > z.max
    ensures FoldSmall([], [a, b], z, false) == [a, b]
  {
    assert [a, b][1..] == [b] && [b][1..] == [];
    assert [] + [a] == [a] && [a] + [b] == [a, b];
    assert FoldSmall([a, b], [], z, false) == [a, b];
    assert FoldSmall([a], [b], z, false) == FoldSmall([a, b], [], z, false);
    assert FoldSmall([], [a, b], z, false) == FoldSmall([a], [b], z, false);
  }

  lemma {:induction false} PairRebalances(a: string, b: string, z: Sizes)
    requires ValidSizes(z) && |b| < z.min <= |a|
    ensures var (l, r) := RebalancePair(a, b, z); RebalanceFrom([a, b], 0, z) == [l, r]
  {
    hide RebalancePair;
    var (l, r) := RebalancePair(a, b, z);
    assert [a, b][0 := l][1 := r] == [l, r];
    assert RebalanceFrom([l, r], 2, z) == [l, r];
    assert RebalanceFrom([a, b], 1, z) == RebalanceFrom([l, r], 2, z);
    assert RebalanceFrom([a, b], 0, z) == RebalanceFrom([a, b], 1, z);
  }

  lemma {:induction false} EqualSizesRejectText(m: nat)
    requires m > 0
    ensures var pair := [Repeated(m), Repeated(m - 1)];
            Parents(pair, Sizes(m, m), s => pair).Err?
  {
    hide Repeated, RebalancePair, MergeSmall, SplitLarge, FoldSmall, RebalanceFrom, Glue;
    var z, a, b := Sizes(m, m), Repeated(m), Repeated(m - 1);
    var split := (s: string) => [a, b];
    PairMerges(a, b, m);
    PairSplits(a, b, m, split);
    PairStands(a, b, z);
    PairRebalances(a, b, z);
    EqualSizesBreakBound(m);
    var segs := CleanSmall(SplitLarge(MergeSmall([a, b], m), m, split), z);
    assert |segs[1]| > m;
  }

  ghost predicate NeverTooLong(z: Sizes)
    requires ValidSizes(z)
  {
    forall raw, split | Respects(split, z.max) :: Parents(raw, z, split).Ok?
  }

  /** The error after rebalancing is unreachable exactly for strictly ordered sizes. */
  lemma {:induction false} NeverTooLongIffStrict(z: Sizes)
    requires ValidSizes(z)
    ensures NeverTooLong(z) <==> z.min < z.max
  {
    if z.min < z.max {
      forall raw, split | Respects(split, z.max) ensures Parents(raw, z, split).Ok? { ParentsNeverTooLong(raw, z, split); }
    } else {
      var pair := [Repeated(z.min), Repeated(z.min - 1)];
      var split := (s: string) => pair;
      assert Respects(split, z.max);
      EqualSizesRejectText(z.min);
      assert !Parents(pair, z, split).Ok?;
    }
  }
}
