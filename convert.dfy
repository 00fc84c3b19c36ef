/**
 * The conversions between opinions and Dirichlet distributions. An opinion
 * with belief masses b and uncertainty u over N hypotheses carries evidence
 * N b / u; a distribution with evidence e carries belief masses
 * e / (sum(e) + N). Both directions keep the prior.
 */
module Convert {
  import opened Util
  import opened CudaArray
  import opened Algebra
  import N = NoBaseOpinions
  import O = Opinions
  import D = Dirichlet

  /** The uncertainty 1 - sum(b) left by a vector of belief masses. */
  function Remaining(masses: seq<real>): real
  {
    1.0 - Sum(masses)
  }

  /** Evidence N b / u of belief masses b with uncertainty u. */
  function EvidenceOf(masses: seq<real>): (e: seq<real>)
    requires Remaining(masses) != 0.0
    ensures |e| == |masses|
  {
    DivScalar(Scale(masses, |masses| as real), Remaining(masses))
  }

  /** The denominator sum(e) + N of the belief masses of evidence e. */
  function EvidenceTotal(evidence: seq<real>): real
  {
    Sum(evidence) + |evidence| as real
  }

  /** Belief masses e / (sum(e) + N) of evidence e. */
  function BeliefsOf(evidence: seq<real>): (b: seq<real>)
    requires EvidenceTotal(evidence) != 0.0
    ensures |b| == |evidence|
  {
    DivScalar(evidence, EvidenceTotal(evidence))
  }

  // Scalar steps of the two round trips, each over named atoms.

  lemma TotalOfEvidence(se: real, ss: real, sb: real, n: real, u: real)
    requires u != 0.0 && se == ss / u && ss == sb * n && u == 1.0 - sb
    ensures se + n == n / u
  {
    assert se * u == sb * n;
    assert (se + n) * u == n;
  }

  lemma BeliefFromEvidence(b: real, e: real, total: real, n: real, u: real)
    requires n != 0.0 && u != 0.0 && e == (b * n) / u && total == n / u
    ensures e / total == b
  {
    assert e * u == b * n;
    assert total * u == n;
    assert b * total * u == b * n;
  }

  lemma UncertaintyOfBeliefs(sb: real, se: real, total: real, n: real)
    requires total != 0.0 && total == se + n && sb == se / total
    ensures 1.0 - sb == n / total
  {
    assert sb * total == se;
    assert (1.0 - sb) * total == n;
    QuotientEquals(n, total, 1.0 - sb);
  }

  lemma EvidenceFromBelief(b: real, e: real, total: real, n: real, u: real)
    requires total != 0.0 && n != 0.0 && b == e / total && u == n / total
    ensures u != 0.0 && (b * n) / u == e
  {
    assert b * total == e;
    assert u * total == n;
    assert (b * n) * total == e * n;
  }

  /** The evidence of belief masses with uncertainty u totals N (1 - u) / u, so sum(e) + N is N / u. */
  lemma EvidenceOfTotal(masses: seq<real>)
    requires |masses| > 0 && Remaining(masses) != 0.0
    ensures EvidenceTotal(EvidenceOf(masses)) == |masses| as real / Remaining(masses)
  {
    var n := |masses| as real;
    var u := Remaining(masses);
    var scaled := Scale(masses, n);
    var e := EvidenceOf(masses);
    SumDivided(scaled, e, u);
    SumScale(masses, n);
    TotalOfEvidence(Sum(e), Sum(scaled), Sum(masses), n, u);
  }

  /** Masses to evidence and back: the belief masses are recovered, for any u != 0. */
  lemma BeliefsEvidenceRoundTrip(masses: seq<real>)
    requires |masses| > 0 && Remaining(masses) != 0.0
    ensures EvidenceTotal(EvidenceOf(masses)) != 0.0
    ensures BeliefsOf(EvidenceOf(masses)) == masses
  {
    var n := |masses| as real;
    var u := Remaining(masses);
    var e := EvidenceOf(masses);
    EvidenceOfTotal(masses);
    var total := EvidenceTotal(e);
    forall i | 0 <= i < |masses|
      ensures BeliefsOf(e)[i] == masses[i]
    {
      ScaleEntry(masses, n, i);
      BeliefFromEvidence(masses[i], e[i], total, n, u);
    }
  }

  /** The belief masses of evidence e leave the uncertainty N / (sum(e) + N). */
  lemma BeliefsOfRemaining(evidence: seq<real>)
    requires |evidence| > 0 && EvidenceTotal(evidence) != 0.0
    ensures Remaining(BeliefsOf(evidence)) == |evidence| as real / EvidenceTotal(evidence)
    ensures Remaining(BeliefsOf(evidence)) != 0.0
  {
    var n := |evidence| as real;
    var total := EvidenceTotal(evidence);
    var b := BeliefsOf(evidence);
    SumDivided(evidence, b, total);
    UncertaintyOfBeliefs(Sum(b), Sum(evidence), total, n);
  }

  /** Evidence to masses and back: the evidence is recovered. */
  lemma EvidenceBeliefsRoundTrip(evidence: seq<real>)
    requires |evidence| > 0 && EvidenceTotal(evidence) != 0.0
    ensures Remaining(BeliefsOf(evidence)) != 0.0
    ensures EvidenceOf(BeliefsOf(evidence)) == evidence
  {
    var n := |evidence| as real;
    var total := EvidenceTotal(evidence);
    var b := BeliefsOf(evidence);
    BeliefsOfRemaining(evidence);
    var u := Remaining(b);
    forall i | 0 <= i < |evidence|
      ensures EvidenceOf(b)[i] == evidence[i]
    {
      ScaleEntry(b, n, i);
      EvidenceFromBelief(b[i], evidence[i], total, n, u);
    }
  }

  // ---------------------------------------------------------------------
  // The four conversion operators.
  // ---------------------------------------------------------------------

  /** Opinion -> DirichletDistribution: evidence N b / u and the opinion's prior. */
  function ToDirichlet(o: O.Opinion): (d: D.DirichletDistribution)
    requires O.Sized(o) && |o.prior| > 0 && O.Uncertainty(o) != 0.0
    ensures D.Sized(d) && d.prior == o.prior
  {
    D.DirichletDistribution(EvidenceOf(o.base.masses), o.prior)
  }

  /** OpinionNoBase -> DirichletDistribution: evidence N b / u and the neutral prior 1/N. */
  function NoBaseToDirichlet(o: N.OpinionNoBase): (d: D.DirichletDistribution)
    requires |o.masses| > 0 && N.Uncertainty(o) != 0.0
    ensures D.Sized(d) && d.prior == N.NeutralBeliefDistr(|o.masses|)
  {
    D.DirichletDistribution(EvidenceOf(o.masses), N.NeutralBeliefDistr(|o.masses|))
  }

  /** DirichletDistribution -> Opinion: belief masses e / (sum(e) + N) and the distribution's prior. */
  function ToOpinion(d: D.DirichletDistribution): (o: O.Opinion)
    requires D.Sized(d) && EvidenceTotal(d.evidence) != 0.0
    ensures O.Sized(o) && o.prior == d.prior
  {
    O.Opinion(N.OpinionNoBase(BeliefsOf(d.evidence)), d.prior)
  }

  /** DirichletDistribution -> OpinionNoBase: belief masses e / (sum(e) + N); the prior is dropped. */
  function ToNoBaseOpinion(d: D.DirichletDistribution): (o: N.OpinionNoBase)
    requires D.Sized(d) && EvidenceTotal(d.evidence) != 0.0
    ensures |o.masses| == |d.evidence|
  {
    N.OpinionNoBase(BeliefsOf(d.evidence))
  }

  /** An opinion with u != 0 survives the trip through a Dirichlet distribution unchanged. */
  lemma OpinionRoundTrip(o: O.Opinion)
    requires O.Sized(o) && |o.prior| > 0 && O.Uncertainty(o) != 0.0
    ensures EvidenceTotal(ToDirichlet(o).evidence) != 0.0
    ensures ToOpinion(ToDirichlet(o)) == o
  {
    BeliefsEvidenceRoundTrip(o.base.masses);
  }

  lemma NoBaseOpinionRoundTrip(o: N.OpinionNoBase)
    requires |o.masses| > 0 && N.Uncertainty(o) != 0.0
    ensures EvidenceTotal(NoBaseToDirichlet(o).evidence) != 0.0
    ensures ToNoBaseOpinion(NoBaseToDirichlet(o)) == o
  {
    BeliefsEvidenceRoundTrip(o.masses);
  }

  /** A distribution survives the trip through an opinion, whose uncertainty is N / (sum(e) + N). */
  lemma DirichletRoundTrip(d: D.DirichletDistribution)
    requires D.Sized(d) && EvidenceTotal(d.evidence) != 0.0
    ensures O.Uncertainty(ToOpinion(d)) == |d.evidence| as real / EvidenceTotal(d.evidence)
    ensures O.Uncertainty(ToOpinion(d)) != 0.0
    ensures ToDirichlet(ToOpinion(d)) == d
  {
    BeliefsOfRemaining(d.evidence);
    EvidenceBeliefsRoundTrip(d.evidence);
  }

  /** Through OpinionNoBase the prior is lost: only a distribution with the neutral prior comes back. */
  lemma DirichletNoBaseRoundTrip(d: D.DirichletDistribution)
    requires D.Sized(d) && EvidenceTotal(d.evidence) != 0.0
    ensures N.Uncertainty(ToNoBaseOpinion(d)) != 0.0
    ensures NoBaseToDirichlet(ToNoBaseOpinion(d)) == d <==> d.prior == N.NeutralBeliefDistr(|d.prior|)
  {
    EvidenceBeliefsRoundTrip(d.evidence);
  }

  /** The projection b + u a of the converted opinion is the mean of the distribution, for a prior summing to 1. */
  lemma ProjectionIsMean(d: D.DirichletDistribution)
    requires D.Sized(d) && EvidenceTotal(d.evidence) != 0.0 && Sum(d.prior) == 1.0
    ensures D.Strength(d) == EvidenceTotal(d.evidence)
    ensures O.Projection(ToOpinion(d)) == D.Mean(d)
  {
    var n := D.Size(d);
    var total := EvidenceTotal(d.evidence);
    D.StrengthSplit(d);
    assert D.Strength(d) == total;
    BeliefsOfRemaining(d.evidence);
    var o := ToOpinion(d);
    var b := o.base.masses;
    var u := O.Uncertainty(o);
    assert u == n / total;
    var alphas := D.Alphas(d);
    forall i | 0 <= i < |b|
      ensures O.Projection(o)[i] == D.Mean(d)[i]
    {
      ScaleEntry(d.prior, n, i);
      assert alphas[i] == d.evidence[i] + d.prior[i] * n;
      ProjectedEntry(b[i], d.evidence[i], u, d.prior[i], total, n, alphas[i]);
    }
  }

  lemma ProjectedEntry(b: real, e: real, u: real, a: real, total: real, n: real, alpha: real)
    requires total != 0.0 && b == e / total && u == n / total && alpha == e + a * n
    ensures b + u * a == alpha / total
  {
    assert b * total == e;
    assert u * total == n;
    assert (b + u * a) * total == e + n * a;
  }

  /** The mean of an opinion's distribution is the opinion's projection. */
  lemma MeanIsProjection(o: O.Opinion)
    requires O.Sized(o) && |o.prior| > 0 && O.Uncertainty(o) != 0.0 && Sum(o.prior) == 1.0
    ensures D.Strength(ToDirichlet(o)) != 0.0
    ensures D.Mean(ToDirichlet(o)) == O.Projection(o)
  {
    OpinionRoundTrip(o);
    ProjectionIsMean(ToDirichlet(o));
  }

  // ---------------------------------------------------------------------
  // Opinion::moment_matching_update_: through the Dirichlet distribution.
  // ---------------------------------------------------------------------

  /** The update is defined: the opinion converts, its distribution updates, and the result converts back. */
  predicate CanMatchOpinion(o: O.Opinion, probabilities: seq<real>)
  {
    O.Sized(o) && |o.prior| > 0 && O.Uncertainty(o) != 0.0
    && D.CanMatch(ToDirichlet(o), probabilities)
    && EvidenceTotal(D.MomentMatchingUpdate(ToDirichlet(o), probabilities).evidence) != 0.0
  }

  function MomentMatchingUpdate(o: O.Opinion, probabilities: seq<real>): (r: O.Opinion)
    requires CanMatchOpinion(o, probabilities)
    ensures O.Sized(r) && r.prior == o.prior
  {
    ToOpinion(D.MomentMatchingUpdate(ToDirichlet(o), probabilities))
  }

  /**
   * For probabilities and a prior that sum to 1 and a non-zero factor the
   * update is defined, and the updated opinion projects to the moments.
   */
  lemma MomentMatchingProjection(o: O.Opinion, probabilities: seq<real>)
    requires O.Sized(o) && |o.prior| > 0 && O.Uncertainty(o) != 0.0
    requires D.CanMatch(ToDirichlet(o), probabilities)
    requires Sum(probabilities) == 1.0 && Sum(o.prior) == 1.0
    requires D.MatchFactor(ToDirichlet(o), probabilities) != 0.0
    ensures CanMatchOpinion(o, probabilities)
    ensures O.Projection(MomentMatchingUpdate(o, probabilities)) == D.MatchedMoments(ToDirichlet(o), probabilities)
  {
    var d := ToDirichlet(o);
    var r := D.MomentMatchingUpdate(d, probabilities);
    D.MomentMatchingMean(d, probabilities);
    D.StrengthSplit(r);
    assert D.Strength(r) == EvidenceTotal(r.evidence);
    ProjectionIsMean(r);
  }

  // ---------------------------------------------------------------------
  // OpinionNoBase::moment_matching_update_: through the Dirichlet
  // distribution with the neutral prior.
  // ---------------------------------------------------------------------

  /** The update of an opinion without base rate is defined. */
  predicate CanMatchNoBase(o: N.OpinionNoBase, probabilities: seq<real>)
  {
    |o.masses| > 0 && N.Uncertainty(o) != 0.0
    && D.CanMatch(NoBaseToDirichlet(o), probabilities)
    && EvidenceTotal(D.MomentMatchingUpdate(NoBaseToDirichlet(o), probabilities).evidence) != 0.0
  }

  function NoBaseMomentMatchingUpdate(o: N.OpinionNoBase, probabilities: seq<real>): (r: N.OpinionNoBase)
    requires CanMatchNoBase(o, probabilities)
    ensures |r.masses| == |o.masses|
  {
    ToNoBaseOpinion(D.MomentMatchingUpdate(NoBaseToDirichlet(o), probabilities))
  }

  /**
   * For probabilities that sum to 1 and a non-zero factor the update is
   * defined, and the updated opinion, projected with the neutral base rate
   * the conversion assumes, gives the moments.
   */
  lemma NoBaseMomentMatchingProjection(o: N.OpinionNoBase, probabilities: seq<real>)
    requires |o.masses| > 0 && N.Uncertainty(o) != 0.0
    requires D.CanMatch(NoBaseToDirichlet(o), probabilities)
    requires Sum(probabilities) == 1.0
    requires D.MatchFactor(NoBaseToDirichlet(o), probabilities) != 0.0
    ensures CanMatchNoBase(o, probabilities)
    ensures N.Projection(NoBaseMomentMatchingUpdate(o, probabilities), N.NeutralBeliefDistr(|o.masses|))
         == D.MatchedMoments(NoBaseToDirichlet(o), probabilities)
  {
    var d := NoBaseToDirichlet(o);
    var r := D.MomentMatchingUpdate(d, probabilities);
    D.MomentMatchingMean(d, probabilities);
    N.NeutralIsDogmatic(|o.masses|);
    D.StrengthSplit(r);
    assert D.Strength(r) == EvidenceTotal(r.evidence);
    ProjectionIsMean(r);
  }
}
