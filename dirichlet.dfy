/**
 * DirichletDistribution<N>: an evidence vector and a prior (base rate)
 * vector; the Dirichlet parameters are alpha = evidence + N * prior.
 * The distribution is a value type; the in-place moment_matching_update_
 * is modelled by a method that returns the updated value.
 */
module Dirichlet {
  import opened Util
  import opened CudaArray
  import opened Algebra
  import N = NoBaseOpinions

  datatype DirichletDistribution = DirichletDistribution(evidence: seq<real>, prior: seq<real>)

  /** Evidence and prior describe the same N > 0 hypotheses. */
  predicate Sized(d: DirichletDistribution)
  {
    |d.evidence| == |d.prior| > 0
  }

  /** The number of hypotheses N, also the prior weight of the distribution. */
  function Size(d: DirichletDistribution): real
  {
    |d.evidence| as real
  }

  /** alphas(): evidence + N * prior. */
  function Alphas(d: DirichletDistribution): (r: seq<real>)
    requires Sized(d)
    ensures |r| == |d.evidence|
  {
    Add(d.evidence, Scale(d.prior, Size(d)))
  }

  /** The Dirichlet strength: the sum of the alphas. */
  function Strength(d: DirichletDistribution): real
    requires Sized(d)
  {
    Sum(Alphas(d))
  }

  /** The total evidence plus the prior weight equals the strength when the prior sums to 1. */
  lemma StrengthSplit(d: DirichletDistribution)
    requires Sized(d)
    ensures Strength(d) == Sum(d.evidence) + Size(d) * Sum(d.prior)
  {
    SumLinear(d.evidence, d.prior, Alphas(d), 1.0, Size(d));
  }

  // ---------------------------------------------------------------------
  // Constructors.
  // ---------------------------------------------------------------------

  /** The default distribution: no evidence, neutral prior 1/N. */
  function Default(n: nat): (d: DirichletDistribution)
    requires n > 0
    ensures Sized(d) && |d.evidence| == n
  {
    DirichletDistribution(Constant(n, 0.0), N.NeutralBeliefDistr(n))
  }

  /** Every alpha of the default distribution is 1, so its mean is the neutral distribution. */
  lemma DefaultIsUniform(n: nat)
    requires n > 0
    ensures Alphas(Default(n)) == Constant(n, 1.0)
    ensures Strength(Default(n)) == n as real
    ensures Mean(Default(n)) == N.NeutralBeliefDistr(n)
  {
    var d := Default(n);
    var w := 1.0 / n as real;
    assert n as real * w == 1.0;
    forall i | 0 <= i < n
      ensures Alphas(d)[i] == 1.0
    {
      assert d.prior[i] == w && d.evidence[i] == 0.0;
    }
    assert Alphas(d) == Constant(n, 1.0);
    SumConstant(n, 1.0);
    forall i | 0 <= i < n
      ensures Mean(d)[i] == N.NeutralBeliefDistr(n)[i]
    {
      assert Mean(d)[i] == 1.0 / n as real;
    }
  }

  /** DirichletDistribution(alphas): the neutral prior and evidence alphas - N * prior. */
  function FromAlphas(alphas: seq<real>): (d: DirichletDistribution)
    requires |alphas| > 0
    ensures Sized(d) && |d.evidence| == |alphas|
    ensures d.prior == N.NeutralBeliefDistr(|alphas|)
    ensures Alphas(d) == alphas
  {
    var n := |alphas|;
    var prior := N.NeutralBeliefDistr(n);
    var d := DirichletDistribution(Sub(alphas, Scale(prior, n as real)), prior);
    assert Size(d) == n as real;
    AddSubCancel(alphas, Scale(prior, n as real));
    d
  }

  /** from_evidences(e): the evidence as given and the neutral prior 1/N. */
  function FromEvidences(evidences: seq<real>): (d: DirichletDistribution)
    requires |evidences| > 0
    ensures Sized(d)
    ensures d.evidence == evidences && d.prior == N.NeutralBeliefDistr(|evidences|)
  {
    DirichletDistribution(evidences, N.NeutralBeliefDistr(|evidences|))
  }

  /** The two constructors agree: evidence e is the same distribution as alphas e + 1. */
  lemma FromEvidencesIsFromAlphas(evidences: seq<real>)
    requires |evidences| > 0
    ensures FromEvidences(evidences) == FromAlphas(AddScalar(evidences, 1.0))
  {
    var n := |evidences|;
    var d := FromEvidences(evidences);
    var e := FromAlphas(AddScalar(evidences, 1.0));
    assert n as real * (1.0 / n as real) == 1.0;
    forall i | 0 <= i < n
      ensures e.evidence[i] == evidences[i]
    {
      assert e.evidence[i] == evidences[i] + 1.0 - n as real * (1.0 / n as real);
    }
    assert e.evidence == evidences;
  }

  // ---------------------------------------------------------------------
  // Statistics.
  // ---------------------------------------------------------------------

  /** mean(): alphas / sum(alphas). */
  function Mean(d: DirichletDistribution): (r: seq<real>)
    requires Sized(d) && Strength(d) != 0.0
    ensures |r| == |d.evidence|
  {
    DivScalar(Alphas(d), Strength(d))
  }

  /** The mean is a probability vector: it sums to 1, and with positive alphas every entry is in (0, 1]. */
  lemma MeanIsDistribution(d: DirichletDistribution)
    requires Sized(d) && Strength(d) != 0.0
    ensures Sum(Mean(d)) == 1.0
    ensures (forall i :: 0 <= i < |d.evidence| ==> Alphas(d)[i] > 0.0)
            ==> forall i :: 0 <= i < |d.evidence| ==> 0.0 < Mean(d)[i] <= 1.0
  {
    var alphas := Alphas(d);
    var s := Strength(d);
    SumDivided(alphas, Mean(d), s);
    if forall i :: 0 <= i < |alphas| ==> alphas[i] > 0.0 {
      forall i | 0 <= i < |alphas|
        ensures 0.0 < Mean(d)[i] <= 1.0
      {
        SumSingleBelow(alphas, i);
        RatioInUnit(alphas[i], s);
      }
    }
  }

  lemma RatioInUnit(x: real, s: real)
    requires 0.0 < x <= s
    ensures 0.0 < x / s <= 1.0
  {
  }

  /** A positive entry never exceeds the sum of positive entries. */
  lemma {:induction false} SumSingleBelow(s: seq<real>, k: nat)
    requires k < |s|
    requires forall i :: 0 <= i < |s| ==> s[i] > 0.0
    ensures s[k] <= Sum(s)
  {
    var n := |s| - 1;
    if n == k {
      SumNonNegative(s[..n]);
    } else {
      SumSingleBelow(s[..n], k);
    }
  }

  /** mean_binomial(): the first alpha over the strength, the first entry of the mean. */
  function MeanBinomial(d: DirichletDistribution): (r: real)
    requires Sized(d) && IsBinomial(|d.evidence|) && Strength(d) != 0.0
    ensures r == Mean(d)[0]
  {
    Alphas(d)[0] / Strength(d)
  }

  /** The spread m (1 - m) of a single mean entry. */
  function Spread(m: real): real
  {
    m * (1.0 - m)
  }

  lemma SpreadBounds(m: real)
    requires 0.0 <= m <= 1.0
    ensures 0.0 <= Spread(m) <= 0.25
  {
    ProductNonNegative(m, 1.0 - m);
    var h := m - 0.5;
    if h >= 0.0 {
      ProductNonNegative(h, h);
    } else {
      ProductNonNegative(-h, -h);
    }
    assert Spread(m) == 0.25 - h * h;
  }

  /** variance(): m_i (1 - m_i) / (S + 1) with m the mean and S the strength. */
  function Variance(d: DirichletDistribution): (r: seq<real>)
    requires Sized(d) && Strength(d) != 0.0 && Strength(d) + 1.0 != 0.0
    ensures |r| == |d.evidence|
  {
    var m := Mean(d);
    seq(|m|, i requires 0 <= i < |m| => Spread(m[i]) / (Strength(d) + 1.0))
  }

  /** With positive alphas each variance is between 0 and 1 / (4 (S + 1)). */
  lemma VarianceBounds(d: DirichletDistribution)
    requires Sized(d) && forall i :: 0 <= i < |d.evidence| ==> Alphas(d)[i] > 0.0
    ensures Strength(d) > 0.0
    ensures forall i :: 0 <= i < |d.evidence| ==> 0.0 <= Variance(d)[i] <= 0.25 / (Strength(d) + 1.0)
  {
    SumSingleBelow(Alphas(d), 0);
    MeanIsDistribution(d);
    var s := Strength(d) + 1.0;
    forall i | 0 <= i < |d.evidence|
      ensures 0.0 <= Variance(d)[i] <= 0.25 / s
    {
      var m := Mean(d)[i];
      SpreadBounds(m);
      assert Variance(d)[i] == Spread(m) / s;
      DivideBelow(Spread(m), 0.25, s);
    }
  }

  lemma DivideBelow(x: real, y: real, s: real)
    requires 0.0 <= x <= y && s > 0.0
    ensures 0.0 <= x / s <= y / s
  {
  }

  // ---------------------------------------------------------------------
  // Moment matching.
  // ---------------------------------------------------------------------

  /** First moment of the updated Dirichlet at one index: (alpha + p) / (1 + S). */
  function MatchedMoment(alpha: real, p: real, strength: real): real
    requires 1.0 + strength != 0.0
  {
    (alpha + p) / (1.0 + strength)
  }

  /** Second moment at one index: (1 + alpha)(alpha + 2 p) / ((1 + S)(2 + S)). */
  function MatchedSecondMoment(alpha: real, p: real, strength: real): real
    requires 1.0 + strength != 0.0 && 2.0 + strength != 0.0
  {
    (1.0 + alpha) * (alpha + 2.0 * p) / ((1.0 + strength) * (2.0 + strength))
  }

  /** The contributions of one index to the numerator and the denominator of the scale factor. */
  function FactorNumerator(m: real, v: real): real
  {
    (m - v) * Spread(m)
  }

  function FactorDenominator(m: real, v: real): real
  {
    (v - m * m) * Spread(m)
  }

  /** The moment vectors are defined: one probability per alpha, and neither 1 + S nor 2 + S is zero. */
  predicate MatchInputs(alphas: seq<real>, probabilities: seq<real>, strength: real)
  {
    |probabilities| == |alphas| && 1.0 + strength != 0.0 && 2.0 + strength != 0.0
  }

  function Moments(alphas: seq<real>, probabilities: seq<real>, strength: real): (r: seq<real>)
    requires MatchInputs(alphas, probabilities, strength)
    ensures |r| == |alphas|
  {
    seq(|alphas|, i requires 0 <= i < |alphas| => MatchedMoment(alphas[i], probabilities[i], strength))
  }

  function SecondMoments(alphas: seq<real>, probabilities: seq<real>, strength: real): (r: seq<real>)
    requires MatchInputs(alphas, probabilities, strength)
    ensures |r| == |alphas|
  {
    seq(|alphas|, i requires 0 <= i < |alphas| => MatchedSecondMoment(alphas[i], probabilities[i], strength))
  }

  function Numerators(alphas: seq<real>, probabilities: seq<real>, strength: real): (r: seq<real>)
    requires MatchInputs(alphas, probabilities, strength)
    ensures |r| == |alphas|
  {
    var m := Moments(alphas, probabilities, strength);
    var v := SecondMoments(alphas, probabilities, strength);
    seq(|m|, i requires 0 <= i < |m| => FactorNumerator(m[i], v[i]))
  }

  function Denominators(alphas: seq<real>, probabilities: seq<real>, strength: real): (r: seq<real>)
    requires MatchInputs(alphas, probabilities, strength)
    ensures |r| == |alphas|
  {
    var m := Moments(alphas, probabilities, strength);
    var v := SecondMoments(alphas, probabilities, strength);
    seq(|m|, i requires 0 <= i < |m| => FactorDenominator(m[i], v[i]))
  }

  /** The update of d by p is defined: the moments exist and the factor's denominator is not zero. */
  predicate CanMatch(d: DirichletDistribution, probabilities: seq<real>)
  {
    Sized(d) && MatchInputs(Alphas(d), probabilities, Strength(d))
    && Sum(Denominators(Alphas(d), probabilities, Strength(d))) != 0.0
  }

  /** The moments (alpha_i + p_i) / (1 + S) of the distribution d updated by p. */
  function MatchedMoments(d: DirichletDistribution, probabilities: seq<real>): (r: seq<real>)
    requires CanMatch(d, probabilities)
    ensures |r| == |d.evidence|
  {
    Moments(Alphas(d), probabilities, Strength(d))
  }

  /** The scale factor sum(nom) / sum(denom): the matched strength of the new distribution. */
  function MatchFactor(d: DirichletDistribution, probabilities: seq<real>): real
    requires CanMatch(d, probabilities)
  {
    Sum(Numerators(Alphas(d), probabilities, Strength(d))) / Sum(Denominators(Alphas(d), probabilities, Strength(d)))
  }

  /**
   * The distribution after moment_matching_update_(p): the prior is kept and
   * the evidence is chosen so that the new alphas are the moments scaled by
   * the factor.
   */
  function MomentMatchingUpdate(d: DirichletDistribution, probabilities: seq<real>): (r: DirichletDistribution)
    requires CanMatch(d, probabilities)
    ensures Sized(r) && r.prior == d.prior && |r.evidence| == |d.evidence|
    ensures Alphas(r) == Scale(MatchedMoments(d, probabilities), MatchFactor(d, probabilities))
  {
    var newAlphas := Scale(MatchedMoments(d, probabilities), MatchFactor(d, probabilities));
    var r := DirichletDistribution(Sub(newAlphas, Scale(d.prior, Size(d))), d.prior);
    assert Size(r) == Size(d);
    AddSubCancel(newAlphas, Scale(d.prior, Size(d)));
    r
  }

  /** When the probabilities sum to 1 the moments form a probability vector. */
  lemma MomentsSumToOne(alphas: seq<real>, probabilities: seq<real>, strength: real)
    requires MatchInputs(alphas, probabilities, strength)
    requires Sum(alphas) == strength && Sum(probabilities) == 1.0
    ensures Sum(Moments(alphas, probabilities, strength)) == 1.0
  {
    var k := 1.0 / (1.0 + strength);
    var m := Moments(alphas, probabilities, strength);
    forall i | 0 <= i < |m|
      ensures m[i] == k * alphas[i] + k * probabilities[i]
    {
      assert m[i] == (alphas[i] + probabilities[i]) / (1.0 + strength);
    }
    SumLinear(alphas, probabilities, m, k, k);
    assert k * strength + k * 1.0 == (strength + 1.0) / (1.0 + strength);
  }

  /**
   * Moment matching reproduces the moments: when the probabilities sum to 1
   * and the factor is not zero, the new strength is the factor and the new
   * mean is the moment vector.
   */
  lemma MomentMatchingMean(d: DirichletDistribution, probabilities: seq<real>)
    requires CanMatch(d, probabilities) && Sum(probabilities) == 1.0
    requires MatchFactor(d, probabilities) != 0.0
    ensures Strength(MomentMatchingUpdate(d, probabilities)) == MatchFactor(d, probabilities)
    ensures Mean(MomentMatchingUpdate(d, probabilities)) == MatchedMoments(d, probabilities)
  {
    MomentsSumToOne(Alphas(d), probabilities, Strength(d));
    ScaledDistribution(MatchedMoments(d, probabilities), MatchFactor(d, probabilities));
  }

  /** A probability vector scaled by f != 0 sums to f, and dividing by its sum gives the vector back. */
  lemma ScaledDistribution(m: seq<real>, f: real)
    requires Sum(m) == 1.0 && f != 0.0
    ensures Sum(Scale(m, f)) == f
    ensures DivScalar(Scale(m, f), f) == m
  {
    SumScaled(m, Scale(m, f), f);
    forall i | 0 <= i < |m|
      ensures DivScalar(Scale(m, f), f)[i] == m[i]
    {
      ScaleEntry(m, f, i);
      QuotientEquals(Scale(m, f)[i], f, m[i]);
    }
  }

  /**
   * moment_matching_update_(p): fills the moments, second moments and the
   * factor's numerator and denominator entry by entry, then rescales.
   */
  method MatchMoments(d: DirichletDistribution, probabilities: seq<real>) returns (r: DirichletDistribution)
    requires CanMatch(d, probabilities)
    ensures r == MomentMatchingUpdate(d, probabilities)
  {
    var alphas := Alphas(d);
    var s := Sum(alphas);
    var n := |alphas|;
    var moments := new real[n];
    var variances := new real[n];
    var nom := new real[n];
    var denom := new real[n];
    ghost var ms, vs := Moments(alphas, probabilities, s), SecondMoments(alphas, probabilities, s);
    ghost var ns, ds := Numerators(alphas, probabilities, s), Denominators(alphas, probabilities, s);
    var idx := 0;
    while idx < n
      invariant 0 <= idx <= n
      invariant forall k :: 0 <= k < idx ==> moments[k] == ms[k]
      invariant forall k :: 0 <= k < idx ==> variances[k] == vs[k]
      invariant forall k :: 0 <= k < idx ==> nom[k] == ns[k]
      invariant forall k :: 0 <= k < idx ==> denom[k] == ds[k]
    {
      moments[idx] := MatchedMoment(alphas[idx], probabilities[idx], s);
      variances[idx] := MatchedSecondMoment(alphas[idx], probabilities[idx], s);
      nom[idx] := FactorNumerator(moments[idx], variances[idx]);
      denom[idx] := FactorDenominator(moments[idx], variances[idx]);
      idx := idx + 1;
    }
    assert moments[..] == ms && nom[..] == ns && denom[..] == ds;
    var factor := Sum(nom[..]) / Sum(denom[..]);
    var newAlphas := Scale(moments[..], factor);
    r := DirichletDistribution(Sub(newAlphas, Scale(d.prior, n as real)), d.prior);
  }
}
