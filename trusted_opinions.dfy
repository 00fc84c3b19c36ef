/**
 * TrustedOpinion: a binomial trust opinion on a source paired with the
 * source's opinion. Trust revision changes the trust only; the opinion is
 * used through its trust-discounted form.
 */
module TrustedOpinions {
  import opened Util
  import opened CudaArray
  import opened Algebra
  import opened Opinions

  datatype TrustedOpinion = TrustedOpinion(trust: Opinion, opinion: Opinion)

  /** The trust is a binomial opinion (Trust = Opinion<2>). */
  predicate WellFormed(t: TrustedOpinion)
  {
    Binomial(t.trust) && Sized(t.opinion)
  }

  /** TrustedOpinion(): default trust and default opinion over n hypotheses. */
  function DefaultTrusted(n: nat): (r: TrustedOpinion)
    requires n > 0
    ensures WellFormed(r)
  {
    TrustedOpinion(Default(2), Default(n))
  }

  /** The default pair is (vacuous trust, vacuous opinion with neutral prior). */
  lemma DefaultTrustedIsVacuous(n: nat)
    requires n > 0
    ensures DefaultTrusted(n).trust == VacuousTrust()
    ensures Uncertainty(DefaultTrusted(n).opinion) == 1.0 && IsValid(DefaultTrusted(n).opinion)
  {
    assert Default(2).base.masses == [0.0, 0.0];
    DefaultIsValidAndVacuous(n);
  }

  /** is_valid(): both the trust and the opinion are valid. */
  predicate IsValidTrusted(t: TrustedOpinion)
  {
    IsValid(t.trust) && IsValid(t.opinion)
  }

  /** operator==: equal trusts and equal opinions. */
  predicate EqualTrusted(t: TrustedOpinion, other: TrustedOpinion)
    requires SameSize(t.trust, other.trust) && SameSize(t.opinion, other.opinion)
  {
    Equal(other.trust, t.trust) && Equal(other.opinion, t.opinion)
  }

  lemma EqualTrustedReflexiveSymmetric(t: TrustedOpinion, other: TrustedOpinion)
    requires SameSize(t.trust, other.trust) && SameSize(t.opinion, other.opinion)
    ensures EqualTrusted(t, t)
    ensures EqualTrusted(t, other) == EqualTrusted(other, t)
  {
    EqualReflexiveSymmetric(t.trust, other.trust);
    EqualReflexiveSymmetric(t.opinion, other.opinion);
  }

  /** discounted_opinion(): the opinion discounted by the trust's projected probability. */
  function DiscountedOpinion(t: TrustedOpinion): (r: Opinion)
    requires Binomial(t.trust)
    ensures r.prior == t.opinion.prior && |r.base.masses| == |t.opinion.base.masses|
  {
    TrustDiscount(t.opinion, BinomialProjection(t.trust))
  }

  /**
   * Full trust passes the opinion on unchanged; a valid opinion discounted by
   * a trust with masses and prior in range stays valid and its uncertainty
   * becomes 1 - P(trust) (1 - u).
   */
  lemma DiscountedOpinionProperties(t: TrustedOpinion)
    requires Binomial(t.trust)
    ensures t.trust == DogmaticTrust() ==> DiscountedOpinion(t) == t.opinion
    ensures IsValid(t.opinion) && t.trust.base.masses[0] >= 0.0 && t.trust.base.masses[1] >= 0.0
            && Uncertainty(t.trust) >= 0.0 && 0.0 <= t.trust.prior[0] <= 1.0
            ==> IsValid(DiscountedOpinion(t))
                && Uncertainty(DiscountedOpinion(t)) == 1.0 - BinomialProjection(t.trust) * (1.0 - Uncertainty(t.opinion))
  {
    TrustDiscountByConstantTrust(t.opinion);
    if IsValid(t.opinion) && t.trust.base.masses[0] >= 0.0 && t.trust.base.masses[1] >= 0.0
       && Uncertainty(t.trust) >= 0.0 && 0.0 <= t.trust.prior[0] <= 1.0 {
      TrustDiscountByTrustValid(t.opinion, t.trust);
    }
  }

  /** revise_trust_(f): the trust is revised by f, the opinion is untouched. */
  function ReviseTrusted(t: TrustedOpinion, revisionFactor: real): (r: TrustedOpinion)
    requires Binomial(t.trust)
    ensures Binomial(r.trust)
  {
    TrustedOpinion(ReviseTrust(t.trust, revisionFactor), t.opinion)
  }

  /** Revision keeps a valid pair valid, never raises the trust's uncertainty, and leaves the opinion alone. */
  lemma ReviseTrustedProperties(t: TrustedOpinion, revisionFactor: real)
    requires Binomial(t.trust)
    ensures ReviseTrusted(t, revisionFactor).opinion == t.opinion
    ensures ReviseTrusted(t, revisionFactor).trust.prior == t.trust.prior
    ensures IsValidTrusted(t) ==> IsValidTrusted(ReviseTrusted(t, revisionFactor))
    ensures IsValid(t.trust) && Uncertainty(t.trust) >= 0.0
            ==> Uncertainty(ReviseTrusted(t, revisionFactor).trust) <= Uncertainty(t.trust)
  {
    if IsValid(t.trust) {
      ReviseTrustKeepsValidity(t.trust, revisionFactor);
    }
  }

  /**
   * The revision factors of revise_trust_(other): both are computed from the
   * old trusts, each is the trust's uncertainty differential times the degree
   * of conflict between the two opinions.
   */
  function PairRevisionFactors(t: TrustedOpinion, other: TrustedOpinion): (factors: (real, real))
    requires Binomial(t.trust) && Binomial(other.trust) && SameSize(t.opinion, other.opinion)
    requires Uncertainty(t.trust) + Uncertainty(other.trust) != 0.0
  {
    var conflict := DegreeOfConflict(t.opinion, other.opinion);
    (UncertaintyDifferential(t.trust, other.trust) * conflict,
     UncertaintyDifferential(other.trust, t.trust) * conflict)
  }

  /** revise_trust_(other): both trusts are revised by the factors computed beforehand. */
  function RevisePair(t: TrustedOpinion, other: TrustedOpinion): (r: (TrustedOpinion, TrustedOpinion))
    requires Binomial(t.trust) && Binomial(other.trust) && SameSize(t.opinion, other.opinion)
    requires Uncertainty(t.trust) + Uncertainty(other.trust) != 0.0
  {
    var factors := PairRevisionFactors(t, other);
    (ReviseTrusted(t, factors.0), ReviseTrusted(other, factors.1))
  }

  /**
   * The two factors share the degree of conflict between them, and, when
   * that degree does not depend on the order (binomial opinions or opinions
   * sharing their prior), swapping the pair swaps the result: neither
   * revision sees the other's effect.
   */
  lemma RevisePairProperties(t: TrustedOpinion, other: TrustedOpinion)
    requires Binomial(t.trust) && Binomial(other.trust) && SameSize(t.opinion, other.opinion)
    requires Uncertainty(t.trust) + Uncertainty(other.trust) != 0.0
    ensures PairRevisionFactors(t, other).0 + PairRevisionFactors(t, other).1 == DegreeOfConflict(t.opinion, other.opinion)
    ensures Binomial(t.opinion) || t.opinion.prior == other.opinion.prior
            ==> RevisePair(other, t) == (RevisePair(t, other).1, RevisePair(t, other).0)
    ensures RevisePair(t, other).0.opinion == t.opinion && RevisePair(t, other).1.opinion == other.opinion
  {
    RevisePairSplit(t, other);
    if Binomial(t.opinion) || t.opinion.prior == other.opinion.prior {
      RevisePairSwap(t, other);
    }
  }

  lemma RevisePairSplit(t: TrustedOpinion, other: TrustedOpinion)
    requires Binomial(t.trust) && Binomial(other.trust) && SameSize(t.opinion, other.opinion)
    requires Uncertainty(t.trust) + Uncertainty(other.trust) != 0.0
    ensures PairRevisionFactors(t, other).0 + PairRevisionFactors(t, other).1 == DegreeOfConflict(t.opinion, other.opinion)
  {
    UncertaintyDifferentialsComplement(t.trust, other.trust);
    ComplementaryShares(UncertaintyDifferential(t.trust, other.trust), UncertaintyDifferential(other.trust, t.trust),
                        DegreeOfConflict(t.opinion, other.opinion));
  }

  /** When the degree of conflict does not depend on the order, swapping the pair swaps the factors. */
  lemma RevisePairSwap(t: TrustedOpinion, other: TrustedOpinion)
    requires Binomial(t.trust) && Binomial(other.trust) && SameSize(t.opinion, other.opinion)
    requires Uncertainty(t.trust) + Uncertainty(other.trust) != 0.0
    requires Binomial(t.opinion) || t.opinion.prior == other.opinion.prior
    ensures PairRevisionFactors(other, t).0 == PairRevisionFactors(t, other).1
    ensures PairRevisionFactors(other, t).1 == PairRevisionFactors(t, other).0
  {
    assert DegreeOfConflict(other.opinion, t.opinion) == DegreeOfConflict(t.opinion, other.opinion) by {
      ConflictSymmetric(t.opinion, other.opinion);
    }
    PairRevisionFactorsForm(t, other);
    PairRevisionFactorsForm(other, t);
    SameFactor(PairRevisionFactors(other, t).0, PairRevisionFactors(t, other).1, UncertaintyDifferential(other.trust, t.trust),
               DegreeOfConflict(other.opinion, t.opinion), DegreeOfConflict(t.opinion, other.opinion));
    SameFactor(PairRevisionFactors(other, t).1, PairRevisionFactors(t, other).0, UncertaintyDifferential(t.trust, other.trust),
               DegreeOfConflict(other.opinion, t.opinion), DegreeOfConflict(t.opinion, other.opinion));
  }

  /** Each factor is the trust's uncertainty differential times the degree of conflict. */
  lemma PairRevisionFactorsForm(t: TrustedOpinion, other: TrustedOpinion)
    requires Binomial(t.trust) && Binomial(other.trust) && SameSize(t.opinion, other.opinion)
    requires Uncertainty(t.trust) + Uncertainty(other.trust) != 0.0
    ensures PairRevisionFactors(t, other).0 == UncertaintyDifferential(t.trust, other.trust) * DegreeOfConflict(t.opinion, other.opinion)
    ensures PairRevisionFactors(t, other).1 == UncertaintyDifferential(other.trust, t.trust) * DegreeOfConflict(t.opinion, other.opinion)
  {
  }

  /** Factors w c and w c' with equal degrees of conflict c == c' are equal. */
  lemma SameFactor(x: real, y: real, w: real, c: real, c': real)
    requires x == w * c && y == w * c' && c == c'
    ensures x == y
  {
  }

  /** Two shares adding up to one split c completely. */
  lemma ComplementaryShares(w: real, w': real, c: real)
    requires w + w' == 1.0
    ensures w * c + w' * c == c
  {
    assert w * c + w' * c == (w + w') * c;
  }


  // ---------------------------------------------------------------------
  // Lists of trusted opinions.
  // ---------------------------------------------------------------------

  /** extractOpinions: the opinion of every pair, in order. */
  function ExtractOpinions(ts: seq<TrustedOpinion>): (r: seq<Opinion>)
    ensures |r| == |ts| && forall i :: 0 <= i < |ts| ==> r[i] == ts[i].opinion
  {
    seq(|ts|, i requires 0 <= i < |ts| => ts[i].opinion)
  }

  /** extractTrusts: the trust of every pair, in order. */
  function ExtractTrusts(ts: seq<TrustedOpinion>): (r: seq<Opinion>)
    ensures |r| == |ts| && forall i :: 0 <= i < |ts| ==> r[i] == ts[i].trust
  {
    seq(|ts|, i requires 0 <= i < |ts| => ts[i].trust)
  }

  predicate AllTrustsBinomial(ts: seq<TrustedOpinion>)
  {
    forall i :: 0 <= i < |ts| ==> Binomial(ts[i].trust)
  }

  /** extractDiscountedOpinions: the discounted opinion of every pair, in order. */
  function ExtractDiscountedOpinions(ts: seq<TrustedOpinion>): (r: seq<Opinion>)
    requires AllTrustsBinomial(ts)
    ensures |r| == |ts| && forall i :: 0 <= i < |ts| ==> r[i] == DiscountedOpinion(ts[i])
  {
    seq(|ts|, i requires 0 <= i < |ts| => DiscountedOpinion(ts[i]))
  }

  /** Pairs trusts and opinions back up, position by position. */
  function Zip(trusts: seq<Opinion>, opinions: seq<Opinion>): (r: seq<TrustedOpinion>)
    requires |trusts| == |opinions|
    ensures |r| == |trusts|
  {
    seq(|trusts|, i requires 0 <= i < |trusts| => TrustedOpinion(trusts[i], opinions[i]))
  }

  /** Extracting the trusts and the opinions loses nothing: zipping them restores the list. */
  lemma ExtractRoundTrip(ts: seq<TrustedOpinion>)
    ensures Zip(ExtractTrusts(ts), ExtractOpinions(ts)) == ts
  {
  }

  /** Discounting by dogmatic trusts gives back the plain opinions. */
  lemma DogmaticDiscountExtract(ts: seq<TrustedOpinion>)
    requires forall i :: 0 <= i < |ts| ==> ts[i].trust == DogmaticTrust()
    ensures AllTrustsBinomial(ts)
    ensures ExtractDiscountedOpinions(ts) == ExtractOpinions(ts)
  {
    forall i | 0 <= i < |ts|
      ensures DiscountedOpinion(ts[i]) == ts[i].opinion
    {
      DiscountedOpinionProperties(ts[i]);
    }
  }
}
