/** Which hits count as the same, which of them is kept, and what is recorded of the others. */
module DeduplicationLaws {
  import opened Common
  import opened Deduplication

  /** What makes two candidates the same to a pass. */
  ghost predicate SameTo(pass: Pass, a: Candidate, b: Candidate, normalize: string -> string) {
    match pass
    case BySpan => a.hit.document == b.hit.document && a.hit.version == b.hit.version && a.hit.chunk == b.hit.chunk
    case ByParent => a.hit.parent == b.hit.parent
    case ByText => normalize(a.text) == normalize(b.text)
  }

  /** Among equal texts authority counts first and the score decides ties; otherwise the score alone counts. */
  predicate Weaker(pass: Pass, a: Candidate, b: Candidate) {
    if pass.ByText? && a.authority < b.authority then true
    else if pass.ByText? && a.authority > b.authority then false
    else a.hit.score < b.hit.score
  }

  lemma KeysIff(pass: Pass, a: Candidate, b: Candidate, normalize: string -> string)
    ensures KeyOf(pass, a, normalize) == KeyOf(pass, b, normalize) <==> SameTo(pass, a, b, normalize)
  {
  }

  lemma BetterIff(pass: Pass, a: Candidate, b: Candidate)
    ensures Better(pass, a, b) <==> Weaker(pass, b, a)
  {
  }

  /** A candidate is the champion of its group exactly when every earlier member is weaker, and it is no weaker than any
      later one. */
  lemma ChampionIff(cs: seq<Candidate>, i: nat, pass: Pass, normalize: string -> string)
    requires i < |cs|
    ensures Champion(cs, i, pass, normalize) <==>
            forall j | 0 <= j < |cs| && j != i && SameTo(pass, cs[j], cs[i], normalize) ::
              if j < i then Weaker(pass, cs[j], cs[i]) else !Weaker(pass, cs[i], cs[j])
  {
    hide KeyOf, SameTo, Better, Weaker;
    forall j | 0 <= j < |cs|
      ensures KeyOf(pass, cs[j], normalize) == KeyOf(pass, cs[i], normalize) <==> SameTo(pass, cs[j], cs[i], normalize)
      ensures Better(pass, cs[i], cs[j]) <==> Weaker(pass, cs[j], cs[i])
      ensures Better(pass, cs[j], cs[i]) <==> Weaker(pass, cs[i], cs[j])
    {
      KeysIff(pass, cs[j], cs[i], normalize);
      BetterIff(pass, cs[i], cs[j]);
      BetterIff(pass, cs[j], cs[i]);
    }
  }

  /** A survivor of a pass is the same as `c` to that pass, and no weaker. */
  ghost predicate Stronger(c: Candidate, out: seq<Candidate>, pass: Pass, normalize: string -> string) {
    exists s :: s in out && SameTo(pass, c, s, normalize) && !Weaker(pass, s, c)
  }

  lemma StrongestSurvives(cs: seq<Candidate>, pass: Pass, normalize: string -> string)
    ensures forall c | c in cs :: Stronger(c, Collapse(cs, pass, normalize), pass, normalize)
  {
    hide KeyOf, SameTo, Weaker, KeptBy, Collapse, Champion;
    var out := Collapse(cs, pass, normalize);
    EveryoneIsAnswered(cs, pass, normalize);
    SurvivorsAreElected(cs, pass, normalize);
    forall c | c in cs ensures Stronger(c, out, pass, normalize) {
      assert Answered(c, out, pass, normalize);
      var k :| 0 <= k < |out| && KeptBy(c, out[k]) && KeyOf(pass, out[k], normalize) == KeyOf(pass, c, normalize);
      assert out[k] in out && Elected(out[k], cs, pass, normalize);
      var i: nat :| Represents(out[k], i, cs, pass, normalize);
      var j :| 0 <= j < |cs| && cs[j] == c;
      KeysIff(pass, c, out[k], normalize);
      KeysIff(pass, c, cs[i], normalize);
      assert KeyOf(pass, cs[i], normalize) == KeyOf(pass, out[k], normalize) by { SameHitSameKey(cs[i], out[k], pass, normalize); }
      ChampionIff(cs, i, pass, normalize);
      NotWeaker(pass, cs[i], out[k], c);
    }
  }

  lemma NotWeaker(pass: Pass, a: Candidate, s: Candidate, c: Candidate)
    requires SameHit(a, s)
    ensures Weaker(pass, s, c) ==> Weaker(pass, a, c)
    ensures Weaker(pass, c, a) ==> !Weaker(pass, a, c)
    ensures a == c ==> !Weaker(pass, a, c)
  {
  }

  /** The source of `c` is the one of `s` itself, or is recorded with it; all retrievals that surfaced `c` are listed with `s`. */
  ghost predicate Accounts(s: Candidate, c: Candidate) {
    && (|| (s.hit.corpus == c.hit.corpus && s.hit.document == c.hit.document && s.hit.version == c.hit.version
            && s.hit.parent == c.hit.parent && s.hit.chunk == c.hit.chunk && s.authority == c.authority)
        || Source(c.hit.corpus, c.hit.document, c.hit.version, c.hit.parent, c.hit.chunk, c.authority) in s.duplicates)
    && forall x | x in c.contexts :: x in s.contexts
  }

  lemma KeptAccounts(c: Candidate, s: Candidate)
    requires KeptBy(c, s)
    ensures Accounts(s, c)
  {
    assert Record(c) in Absorbed(c);
    assert Record(c) in Absorbed(s);
  }

  /** Behind the whole deduplication every hit is accounted for by some survivor, and no two survivors share their span,
      their parent or their normalised text. */
  lemma AllAccounted(cs: seq<Candidate>, normalize: string -> string)
    ensures forall c | c in cs :: exists s :: s in Deduplicate(cs, normalize) && Accounts(s, c)
    ensures var out := Deduplicate(cs, normalize);
            forall pass, i, j | 0 <= i < j < |out| :: !SameTo(pass, out[i], out[j], normalize)
  {
    hide Deduplicate, KeptBy, Accounts, KeyOf, SameTo;
    var out := Deduplicate(cs, normalize);
    ContextsFollowTheirHits(cs, normalize);
    DeduplicationConserves(cs, normalize);
    forall c | c in cs ensures exists s :: s in out && Accounts(s, c) {
      assert Held(c, out);
      var s :| s in out && KeptBy(c, s);
      KeptAccounts(c, s);
    }
    forall pass, i, j | 0 <= i < j < |out| ensures !SameTo(pass, out[i], out[j], normalize) {
      assert Distinct(out, pass, normalize);
      KeysIff(pass, out[i], out[j], normalize);
    }
  }
}
