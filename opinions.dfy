/**
 * Opinion<N>: an OpinionNoBase together with a prior (base-rate)
 * distribution a[0..N-1]. Like OpinionNoBase it is a value type; every
 * in-place `*_` operator is modelled as the function returning the new
 * value. The operators delegate the belief masses to OpinionNoBase and
 * update the prior themselves.
 */
module Opinions {
  import opened Util
  import opened CudaArray
  import opened Algebra
  import N = NoBaseOpinions

  datatype Opinion = Opinion(base: N.OpinionNoBase, prior: seq<real>)

  /** The masses and the prior describe the same number of hypotheses. */
  predicate Sized(o: Opinion)
  {
    |o.prior| == |o.base.masses|
  }

  predicate SameSize(o: Opinion, other: Opinion)
  {
    Sized(o) && Sized(other) && |other.base.masses| == |o.base.masses|
  }

  predicate Binomial(o: Opinion)
  {
    Sized(o) && N.Binomial(o.base)
  }

  function Uncertainty(o: Opinion): real
  {
    N.Uncertainty(o.base)
  }

  /**
   * is_valid(): the masses are valid, no prior entry is below -EPS and the
   * prior sums to strictly between 1 - EPS and 1 + EPS.
   */
  predicate IsValid(o: Opinion)
  {
    Sized(o) && N.IsValid(o.base)
    && (forall i :: 0 <= i < |o.prior| ==> o.prior[i] >= -EPS)
    && 1.0 - EPS < Sum(o.prior) < 1.0 + EPS
  }

  // ---------------------------------------------------------------------
  // Construction.
  // ---------------------------------------------------------------------

  /** The default constructor: vacuous masses and the neutral prior 1/N. */
  function Default(n: nat): (r: Opinion)
    requires n > 0
    ensures Sized(r)
  {
    Opinion(N.VacuousBeliefOpinion(n), N.NeutralBeliefDistr(n))
  }

  lemma DefaultIsValidAndVacuous(n: nat)
    requires n > 0
    ensures IsValid(Default(n)) && Uncertainty(Default(n)) == 1.0
  {
    N.VacuousIsFullyUncertain(n);
    SumConstant(n, 1.0 / n as real);
    assert n as real * (1.0 / n as real) == 1.0;
    EpsPositive();
  }

  /** Opinion(values...): the given masses with the neutral prior. */
  function FromValues(values: seq<real>): (r: Opinion)
    requires |values| > 0
    ensures Sized(r) && r.base.masses == values
  {
    Opinion(N.OpinionNoBase(values), N.NeutralBeliefDistr(|values|))
  }

  /** Opinion(b, d, a): a binomial opinion with prior (a, 1 - a). */
  function FromBinomial(belief: real, disbelief: real, priorBelief: real): (r: Opinion)
    ensures Binomial(r)
  {
    Opinion(N.OpinionNoBase([belief, disbelief]), [priorBelief, 1.0 - priorBelief])
  }

  /** A binomial opinion built from (b, d, a) is valid exactly when its three numbers are in range. */
  lemma FromBinomialValid(belief: real, disbelief: real, priorBelief: real)
    ensures IsValid(FromBinomial(belief, disbelief, priorBelief))
        <==> belief >= -EPS && disbelief >= -EPS && belief + disbelief < 1.0 + EPS
             && priorBelief >= -EPS && 1.0 - priorBelief >= -EPS
  {
    var o := FromBinomial(belief, disbelief, priorBelief);
    N.SumOfTwo(o.base.masses);
    N.SumOfTwo(o.prior);
    EpsPositive();
  }

  /** DogmaticTrust() == Opinion(1, 0) and VacuousTrust() == Opinion(0, 0), both with the neutral prior. */
  function DogmaticTrust(): (r: Opinion)
    ensures Binomial(r)
  {
    FromValues([1.0, 0.0])
  }

  function VacuousTrust(): (r: Opinion)
    ensures Binomial(r)
  {
    FromValues([0.0, 0.0])
  }

  /** The neutral opinion: belief 1/N everywhere, prior 1/N. */
  function NeutralBeliefOpinion(n: nat): (r: Opinion)
    requires n > 0
    ensures Sized(r)
  {
    Opinion(N.NeutralBeliefOpinion(n), N.NeutralBeliefDistr(n))
  }

  /** VacuousBeliefOpinion(): vacuous masses AND the all-zero prior. */
  function VacuousBeliefOpinion(n: nat): (r: Opinion)
    ensures Sized(r)
  {
    Opinion(N.VacuousBeliefOpinion(n), N.VacuousBeliefDistr(n))
  }

  /** The neutral opinion is valid and dogmatic. */
  lemma NeutralBeliefOpinionValid(n: nat)
    requires n > 0
    ensures IsValid(NeutralBeliefOpinion(n)) && Uncertainty(NeutralBeliefOpinion(n)) == 0.0
  {
    N.NeutralIsDogmatic(n);
    SumConstant(n, 1.0 / n as real);
    assert n as real * (1.0 / n as real) == 1.0;
    EpsPositive();
  }

  /**
   * The static VacuousBeliefOpinion() carries a zero prior, so it is not
   * valid, unlike the default-constructed opinion.
   */
  lemma VacuousBeliefOpinionNotValid(n: nat)
    ensures Uncertainty(VacuousBeliefOpinion(n)) == 1.0
    ensures Sum(VacuousBeliefOpinion(n).prior) == 0.0 && !IsValid(VacuousBeliefOpinion(n))
  {
    N.VacuousIsFullyUncertain(n);
    SumConstant(n, 0.0);
    EpsPositive();
  }

  // ---------------------------------------------------------------------
  // Projections.
  // ---------------------------------------------------------------------

  /** getBinomialProjection(): b + u a with a = prior[0]. */
  function BinomialProjection(o: Opinion): real
    requires Binomial(o)
  {
    N.BinomialProjection(o.base, o.prior[0])
  }

  /** getProjection(): b_i + u a_i. */
  function Projection(o: Opinion): (r: seq<real>)
    requires Sized(o)
    ensures |r| == |o.prior|
  {
    N.Projection(o.base, o.prior)
  }

  lemma TrustConstants()
    ensures Uncertainty(DogmaticTrust()) == 0.0 && BinomialProjection(DogmaticTrust()) == 1.0
    ensures Uncertainty(VacuousTrust()) == 1.0 && BinomialProjection(VacuousTrust()) == 0.5
  {
    N.SumOfTwo(DogmaticTrust().base.masses);
    N.SumOfTwo(VacuousTrust().base.masses);
  }

  /** A binomial opinion with non-negative masses and a prior in [0, 1] projects into [0, 1]. */
  lemma BinomialProjectionBounds(o: Opinion)
    requires Binomial(o)
    requires o.base.masses[0] >= 0.0 && o.base.masses[1] >= 0.0 && Uncertainty(o) >= 0.0
    requires 0.0 <= o.prior[0] <= 1.0
    ensures 0.0 <= BinomialProjection(o) <= 1.0
  {
    var b, u, a := N.Belief(o.base), Uncertainty(o), o.prior[0];
    assert b + u <= 1.0 by { N.BinomialMasses(o.base); }
    var topUp := u * a;
    assert 0.0 <= topUp <= u by { MulBelow(u, a); }
    assert BinomialProjection(o) == b + topUp;
  }

  // ---------------------------------------------------------------------
  // Complement and interpolation.
  // ---------------------------------------------------------------------

  /** complement() AS WRITTEN: belief and disbelief swap, the prior is kept. */
  function Complement(o: Opinion): (r: Opinion)
    requires Binomial(o)
    ensures Binomial(r) && r.prior == o.prior
    ensures N.Belief(r.base) == N.Disbelief(o.base) && N.Disbelief(r.base) == N.Belief(o.base)
  {
    Opinion(N.Complement(o.base), o.prior)
  }

  /** The complement of x with the complementary base rate 1 - a. */
  function ComplementCorrected(o: Opinion): (r: Opinion)
    requires Binomial(o)
    ensures Binomial(r) && r.prior == [o.prior[1], o.prior[0]]
    ensures N.Belief(r.base) == N.Disbelief(o.base) && N.Disbelief(r.base) == N.Belief(o.base)
  {
    Opinion(N.Complement(o.base), [o.prior[1], o.prior[0]])
  }

  /**
   * The complement as written projects to 1 - P(x) + u (2 a - 1): it agrees
   * with P(not x) = 1 - P(x) only when u == 0 or a == 1/2.
   */
  lemma ComplementProjectionAsWritten(o: Opinion)
    requires Binomial(o) && o.prior[0] + o.prior[1] == 1.0
    ensures BinomialProjection(Complement(o))
         == 1.0 - BinomialProjection(o) + Uncertainty(o) * (2.0 * o.prior[0] - 1.0)
    ensures BinomialProjection(Complement(o)) == 1.0 - BinomialProjection(o)
        <==> Uncertainty(o) == 0.0 || o.prior[0] == 0.5
  {
    N.BinomialMasses(o.base);
    N.ComplementInvolution(o.base);
    var u, a := Uncertainty(o), o.prior[0];
    assert BinomialProjection(Complement(o)) - (1.0 - BinomialProjection(o)) == u * (2.0 * a - 1.0);
    if u * (2.0 * a - 1.0) == 0.0 {
      assert u == 0.0 || 2.0 * a - 1.0 == 0.0;
    }
  }

  /** Belief 0.2, disbelief 0.3, base rate 0.8: P(x) = 0.6 but the complement projects to 0.7, not 0.4. */
  lemma ComplementAsWrittenExample()
    ensures BinomialProjection(FromBinomial(0.2, 0.3, 0.8)) == 0.6
    ensures BinomialProjection(Complement(FromBinomial(0.2, 0.3, 0.8))) == 0.7
    ensures BinomialProjection(ComplementCorrected(FromBinomial(0.2, 0.3, 0.8))) == 0.4
  {
    var o := FromBinomial(0.2, 0.3, 0.8);
    N.SumOfTwo(o.base.masses);
    N.SumOfTwo(Complement(o).base.masses);
  }

  /** The corrected complement projects to 1 - P(x) and is an involution. */
  lemma ComplementCorrectedProjection(o: Opinion)
    requires Binomial(o) && o.prior[0] + o.prior[1] == 1.0
    ensures BinomialProjection(ComplementCorrected(o)) == 1.0 - BinomialProjection(o)
    ensures ComplementCorrected(ComplementCorrected(o)) == o
  {
    N.BinomialMasses(o.base);
    N.ComplementInvolution(o.base);
    var u := Uncertainty(o);
    assert u * o.prior[1] == u - u * o.prior[0];
    assert ComplementCorrected(ComplementCorrected(o)).prior == o.prior;
  }

  /** interpolate(other, t): masses and prior both become (1 - t) x + t y. */
  function Interpolate(o: Opinion, other: Opinion, t: real): (r: Opinion)
    requires SameSize(o, other)
    ensures SameSize(r, o)
  {
    Opinion(N.Interpolate(o.base, other.base, t), N.Interpolated(o.prior, other.prior, t))
  }

  /** t = 0 gives this opinion, t = 1 the other; priors that sum to one still do. */
  lemma InterpolateProperties(o: Opinion, other: Opinion, t: real)
    requires SameSize(o, other)
    ensures Interpolate(o, other, 0.0) == o && Interpolate(o, other, 1.0) == other
    ensures Uncertainty(Interpolate(o, other, t)) == (1.0 - t) * Uncertainty(o) + t * Uncertainty(other)
    ensures Sum(o.prior) == 1.0 && Sum(other.prior) == 1.0 ==> Sum(Interpolate(o, other, t).prior) == 1.0
  {
    N.InterpolateEnds(o.base, other.base);
    N.InterpolateUncertainty(o.base, other.base, t);
    N.SumInterpolated(o.prior, other.prior, t);
    assert N.Interpolated(o.prior, other.prior, 0.0) == o.prior;
    assert N.Interpolated(o.prior, other.prior, 1.0) == other.prior;
  }

  // ---------------------------------------------------------------------
  // Degree of conflict and harmony.
  // ---------------------------------------------------------------------

  /**
   * degree_of_conflict(other): the binomial formula with the two prior
   * beliefs when N == 2, otherwise the array formula as written, which
   * projects both opinions with THIS opinion's prior.
   */
  function DegreeOfConflict(o: Opinion, other: Opinion): real
    requires SameSize(o, other)
  {
    if N.Binomial(o.base) then
      N.DegreeOfConflictBinomial(o.base, other.base, o.prior[0], other.prior[0])
    else
      N.DegreeOfConflict(o.base, other.base, o.prior, other.prior)
  }

  /** degree_of_harmony(other), dispatched like degree_of_conflict. */
  function DegreeOfHarmony(o: Opinion, other: Opinion): real
    requires SameSize(o, other)
  {
    if N.Binomial(o.base) then
      N.DegreeOfHarmonyBinomial(o.base, other.base, o.prior[0], other.prior[0])
    else
      N.DegreeOfHarmony(o.base, other.base, o.prior, other.prior)
  }

  /** The intended degree of conflict: each opinion projected with its own prior. */
  function DegreeOfConflictCorrected(o: Opinion, other: Opinion): real
    requires SameSize(o, other)
  {
    if N.Binomial(o.base) then
      N.DegreeOfConflictBinomial(o.base, other.base, o.prior[0], other.prior[0])
    else
      N.DegreeOfConflictCorrected(o.base, other.base, o.prior, other.prior)
  }

  /** The intended degree of harmony: each opinion projected with its own prior. */
  function DegreeOfHarmonyCorrected(o: Opinion, other: Opinion): real
    requires SameSize(o, other)
  {
    if N.Binomial(o.base) then
      N.DegreeOfHarmonyBinomial(o.base, other.base, o.prior[0], other.prior[0])
    else
      N.DegreeOfHarmonyCorrected(o.base, other.base, o.prior, other.prior)
  }

  /**
   * The code as written and the intended measures agree on binomial
   * opinions and whenever the two opinions share their prior.
   */
  lemma ConflictAgreesWhenPriorsMatch(o: Opinion, other: Opinion)
    requires SameSize(o, other)
    ensures N.Binomial(o.base) || o.prior == other.prior ==> DegreeOfConflict(o, other) == DegreeOfConflictCorrected(o, other)
    ensures N.Binomial(o.base) || o.prior == other.prior ==> DegreeOfHarmony(o, other) == DegreeOfHarmonyCorrected(o, other)
  {
  }

  /**
   * Conflict and harmony split the joint certainty (1 - u)(1 - u') between
   * them, both as written and as intended.
   */
  lemma ConflictHarmonySplit(o: Opinion, other: Opinion)
    requires SameSize(o, other)
    ensures DegreeOfConflict(o, other) + DegreeOfHarmony(o, other) == (1.0 - Uncertainty(o)) * (1.0 - Uncertainty(other))
    ensures DegreeOfConflictCorrected(o, other) + DegreeOfHarmonyCorrected(o, other) == (1.0 - Uncertainty(o)) * (1.0 - Uncertainty(other))
  {
    assert N.JointCertainty(o.base, other.base) == (1.0 - Uncertainty(o)) * (1.0 - Uncertainty(other));
    WrittenSplit(o, other);
    CorrectedSplit(o, other);
  }

  /**
   * The intended degree of conflict does not depend on the order; the one
   * as written does not either for binomial opinions or opinions that share
   * their prior.
   */
  lemma ConflictSymmetric(o: Opinion, other: Opinion)
    requires SameSize(o, other)
    ensures DegreeOfConflictCorrected(o, other) == DegreeOfConflictCorrected(other, o)
    ensures N.Binomial(o.base) || o.prior == other.prior ==> DegreeOfConflict(o, other) == DegreeOfConflict(other, o)
  {
    N.ConflictCorrectedSymmetric(o.base, other.base, o.prior, other.prior);
    if N.Binomial(o.base) || o.prior == other.prior {
      ConflictAgreesWhenPriorsMatch(o, other);
      ConflictAgreesWhenPriorsMatch(other, o);
    }
  }

  /** The intended degrees share out the joint certainty. */
  lemma CorrectedSplit(o: Opinion, other: Opinion)
    requires SameSize(o, other)
    ensures DegreeOfConflictCorrected(o, other) + DegreeOfHarmonyCorrected(o, other) == N.JointCertainty(o.base, other.base)
  {
    assert DegreeOfConflictCorrected(o, other) == N.DegreeOfConflictCorrected(o.base, other.base, o.prior, other.prior);
    assert DegreeOfHarmonyCorrected(o, other) == N.DegreeOfHarmonyCorrected(o.base, other.base, o.prior, other.prior);
    N.CorrectedSplit(o.base, other.base, o.prior, other.prior);
  }

  /** The degrees as written share out the joint certainty. */
  lemma WrittenSplit(o: Opinion, other: Opinion)
    requires SameSize(o, other)
    ensures DegreeOfConflict(o, other) + DegreeOfHarmony(o, other) == N.JointCertainty(o.base, other.base)
  {
    if N.Binomial(o.base) {
      N.CorrectedSplit(o.base, other.base, o.prior, other.prior);
    } else {
      N.WrittenSplit(o.base, other.base, o.prior, other.prior);
    }
  }

  /**
   * As written, the degree of conflict of two trinomial opinions with
   * different priors depends on the order: belief 0.8 in the first
   * hypothesis with prior [1, 0, 0] against belief 0.5 in the second with
   * prior [0, 1, 0] gives 0.2 one way and 0.32 the other, while the
   * intended measure projects each with its own prior and gives 0.4.
   */
  lemma ConflictAsymmetricExample()
    ensures DegreeOfConflict(Opinion(N.OpinionNoBase([0.8, 0.0, 0.0]), [1.0, 0.0, 0.0]), Opinion(N.OpinionNoBase([0.0, 0.5, 0.0]), [0.0, 1.0, 0.0])) == 0.2
    ensures DegreeOfConflict(Opinion(N.OpinionNoBase([0.0, 0.5, 0.0]), [0.0, 1.0, 0.0]), Opinion(N.OpinionNoBase([0.8, 0.0, 0.0]), [1.0, 0.0, 0.0])) == 0.32
    ensures DegreeOfConflictCorrected(Opinion(N.OpinionNoBase([0.8, 0.0, 0.0]), [1.0, 0.0, 0.0]), Opinion(N.OpinionNoBase([0.0, 0.5, 0.0]), [0.0, 1.0, 0.0])) == 0.4
  {
    ExampleForward();
    ExampleBackward();
    ExampleCorrected();
  }

  lemma ExampleForward()
    ensures N.DegreeOfConflict(N.OpinionNoBase([0.8, 0.0, 0.0]), N.OpinionNoBase([0.0, 0.5, 0.0]), [1.0, 0.0, 0.0], [0.0, 1.0, 0.0]) == 0.2
  {
    var b, b' := N.OpinionNoBase([0.8, 0.0, 0.0]), N.OpinionNoBase([0.0, 0.5, 0.0]);
    var a := [1.0, 0.0, 0.0];
    assert N.Uncertainty(b) == 0.2 && N.Uncertainty(b') == 0.5 by {
      N.SumOfThree(b.masses);
      N.SumOfThree(b'.masses);
    }
    assert N.Projection(b, a) == [1.0, 0.0, 0.0];
    assert N.Projection(b', a) == [0.5, 0.5, 0.0];
    N.SumOfThree(N.AbsDiff([1.0, 0.0, 0.0], [0.5, 0.5, 0.0]));
  }

  lemma ExampleBackward()
    ensures N.DegreeOfConflict(N.OpinionNoBase([0.0, 0.5, 0.0]), N.OpinionNoBase([0.8, 0.0, 0.0]), [0.0, 1.0, 0.0], [1.0, 0.0, 0.0]) == 0.32
  {
    var b, b' := N.OpinionNoBase([0.8, 0.0, 0.0]), N.OpinionNoBase([0.0, 0.5, 0.0]);
    var a' := [0.0, 1.0, 0.0];
    assert N.Uncertainty(b) == 0.2 && N.Uncertainty(b') == 0.5 by {
      N.SumOfThree(b.masses);
      N.SumOfThree(b'.masses);
    }
    assert N.Projection(b', a') == [0.0, 1.0, 0.0];
    assert N.Projection(b, a') == [0.8, 0.2, 0.0];
    N.SumOfThree(N.AbsDiff([0.0, 1.0, 0.0], [0.8, 0.2, 0.0]));
  }

  lemma ExampleCorrected()
    ensures N.DegreeOfConflictCorrected(N.OpinionNoBase([0.8, 0.0, 0.0]), N.OpinionNoBase([0.0, 0.5, 0.0]), [1.0, 0.0, 0.0], [0.0, 1.0, 0.0]) == 0.4
  {
    var b, b' := N.OpinionNoBase([0.8, 0.0, 0.0]), N.OpinionNoBase([0.0, 0.5, 0.0]);
    var a, a' := [1.0, 0.0, 0.0], [0.0, 1.0, 0.0];
    assert N.Uncertainty(b) == 0.2 && N.Uncertainty(b') == 0.5 by {
      N.SumOfThree(b.masses);
      N.SumOfThree(b'.masses);
    }
    assert N.Projection(b, a) == [1.0, 0.0, 0.0];
    assert N.Projection(b', a') == [0.0, 1.0, 0.0];
    N.SumOfThree(N.AbsDiff([1.0, 0.0, 0.0], [0.0, 1.0, 0.0]));
  }

  /** uncertainty_differential(other): u / (u + u'), forwarded to the masses. */
  function UncertaintyDifferential(o: Opinion, other: Opinion): real
    requires Uncertainty(o) + Uncertainty(other) != 0.0
  {
    N.UncertaintyDifferential(o.base, other.base)
  }

  /** The two uncertainty differentials of a pair split 1 between them. */
  lemma UncertaintyDifferentialsComplement(o: Opinion, other: Opinion)
    requires Uncertainty(o) + Uncertainty(other) != 0.0
    ensures UncertaintyDifferential(o, other) + UncertaintyDifferential(other, o) == 1.0
  {
    N.UncertaintyDifferentialsComplement(o.base, other.base);
  }

  // ---------------------------------------------------------------------
  // Trust revision.
  // ---------------------------------------------------------------------

  /** revise_trust_(f): the masses are revised, the prior is kept. */
  function ReviseTrust(o: Opinion, revisionFactor: real): (r: Opinion)
    requires Binomial(o)
    ensures Binomial(r) && r.prior == o.prior
  {
    Opinion(N.ReviseTrust(o.base, revisionFactor), o.prior)
  }

  /** revise_trust_(doc, other): revision factor uncertainty_differential(other) * doc. */
  function ReviseTrustByConflict(o: Opinion, degreeOfConflict: real, other: Opinion): (r: Opinion)
    requires Binomial(o) && Uncertainty(o) + Uncertainty(other) != 0.0
    ensures Binomial(r) && r.prior == o.prior
  {
    Opinion(N.ReviseTrustByConflict(o.base, degreeOfConflict, other.base), o.prior)
  }

  /** Revision keeps a valid opinion valid and never raises its uncertainty. */
  lemma ReviseTrustKeepsValidity(o: Opinion, revisionFactor: real)
    requires Binomial(o) && IsValid(o)
    ensures IsValid(ReviseTrust(o, revisionFactor))
    ensures Uncertainty(o) >= 0.0 ==> Uncertainty(ReviseTrust(o, revisionFactor)) <= Uncertainty(o)
  {
    N.ReviseTrustValid(o.base, revisionFactor);
    if Uncertainty(o) >= 0.0 {
      assert ReviseTrust(o, revisionFactor).base == N.ReviseTrust(o.base, revisionFactor);
      N.ReviseTrustUncertainty(o.base, revisionFactor);
      ScaledBelow(N.Uncertainty(N.ReviseTrust(o.base, revisionFactor)), N.Uncertainty(o.base),
                  1.0 - Abs(Clamp(revisionFactor, -1.0, 1.0)));
    }
  }

  // ---------------------------------------------------------------------
  // Multiplication and comultiplication.
  // ---------------------------------------------------------------------

  /** multiply_(other): masses by Jøsang's product, prior (a a', 1 - a a'). */
  function Multiply(o: Opinion, other: Opinion): (r: Opinion)
    requires Binomial(o) && Binomial(other) && ProductBaseRate(o.prior[0], other.prior[0]) != 1.0
    ensures Binomial(r)
  {
    var a, a' := o.prior[0], other.prior[0];
    var prior := ProductBaseRate(a, a');
    Opinion(N.Multiply(o.base, other.base, a, a'), [prior, 1.0 - prior])
  }

  /** comultiply_(other): masses by Jøsang's coproduct, prior (a + a' - a a', 1 - that). */
  function Comultiply(o: Opinion, other: Opinion): (r: Opinion)
    requires Binomial(o) && Binomial(other) && CoproductBaseRate(o.prior[0], other.prior[0]) != 0.0
    ensures Binomial(r)
  {
    var a, a' := o.prior[0], other.prior[0];
    var prior := CoproductBaseRate(a, a');
    Opinion(N.Comultiply(o.base, other.base, a, a'), [prior, 1.0 - prior])
  }

  /** P(x ∧ y) == P(x) P(y), and the product's prior is a distribution. */
  lemma MultiplyProjection(o: Opinion, other: Opinion)
    requires Binomial(o) && Binomial(other) && ProductBaseRate(o.prior[0], other.prior[0]) != 1.0
    ensures BinomialProjection(Multiply(o, other)) == ProbabilityAnd(BinomialProjection(o), BinomialProjection(other))
    ensures Sum(Multiply(o, other).prior) == 1.0
  {
    var a, a' := o.prior[0], other.prior[0];
    var p, p' := N.BinomialProjection(o.base, a), N.BinomialProjection(other.base, a');
    var pz := N.BinomialProjection(N.Multiply(o.base, other.base, a, a'), ProductBaseRate(a, a'));
    assert BinomialProjection(Multiply(o, other)) == pz;
    assert pz == ProbabilityAnd(p, p') by {
      N.MultiplyProjection(o.base, other.base, a, a');
    }
    N.SumOfTwo(Multiply(o, other).prior);
  }

  /** P(x ∨ y) == P(x) + P(y) - P(x) P(y), and the coproduct's prior is a distribution. */
  lemma ComultiplyProjection(o: Opinion, other: Opinion)
    requires Binomial(o) && Binomial(other) && CoproductBaseRate(o.prior[0], other.prior[0]) != 0.0
    ensures BinomialProjection(Comultiply(o, other)) == ProbabilityOr(BinomialProjection(o), BinomialProjection(other))
    ensures Sum(Comultiply(o, other).prior) == 1.0
  {
    var a, a' := o.prior[0], other.prior[0];
    var p, p' := N.BinomialProjection(o.base, a), N.BinomialProjection(other.base, a');
    var pz := N.BinomialProjection(N.Comultiply(o.base, other.base, a, a'), CoproductBaseRate(a, a'));
    assert BinomialProjection(Comultiply(o, other)) == pz;
    assert pz == ProbabilityOr(p, p') by {
      N.ComultiplyProjection(o.base, other.base, a, a');
    }
    N.SumOfTwo(Comultiply(o, other).prior);
  }

  /** Jøsang's multiplication example: (0.75, 0.15, a 0.5) times (0.1, 0, a 0.2). */
  lemma MultiplyExample()
    ensures Multiply(FromBinomial(0.75, 0.15, 0.5), FromBinomial(0.1, 0.0, 0.2)).base.masses == [0.139 / 0.9, 0.15]
    ensures Multiply(FromBinomial(0.75, 0.15, 0.5), FromBinomial(0.1, 0.0, 0.2)).prior[0] == 0.1
  {
    var x, y := FromBinomial(0.75, 0.15, 0.5), FromBinomial(0.1, 0.0, 0.2);
    N.SumOfTwo(x.base.masses);
    N.SumOfTwo(y.base.masses);
    assert Uncertainty(x) == 0.1 && Uncertainty(y) == 0.9;
    assert ProductShare(0.5, 0.2, 0.675, 0.01) == 0.0715 / 0.9;
  }

  /** Jøsang's comultiplication example: (0.75, 0.15, a 0.5) or (0.35, 0, a 0.2). */
  lemma ComultiplyExample()
    ensures Comultiply(FromBinomial(0.75, 0.15, 0.5), FromBinomial(0.35, 0.0, 0.2)).base.masses == [0.8375, 0.065]
    ensures Comultiply(FromBinomial(0.75, 0.15, 0.5), FromBinomial(0.35, 0.0, 0.2)).prior[0] == 0.6
  {
    var x, y := FromBinomial(0.75, 0.15, 0.5), FromBinomial(0.35, 0.0, 0.2);
    N.SumOfTwo(x.base.masses);
    N.SumOfTwo(y.base.masses);
    assert Uncertainty(x) == 0.1 && Uncertainty(y) == 0.65;
    assert CoproductShare(0.5, 0.2, 0.0975, 0.0) == 0.065;
  }

  // ---------------------------------------------------------------------
  // Fusion: the masses are fused by OpinionNoBase, the prior here.
  // ---------------------------------------------------------------------

  /** A sequence each of whose entries combines p_i and q_i sums to the same combination of the sums. */
  lemma CombinedSum(p: seq<real>, q: seq<real>, r: seq<real>, w: real, w': real, denom: real)
    requires |p| == |q| == |r| && denom != 0.0
    requires forall i :: 0 <= i < |r| ==> r[i] == Combine(p[i], q[i], w, w', denom)
    ensures Sum(r) == Combine(Sum(p), Sum(q), w, w', denom)
  {
    forall i | 0 <= i < |r|
      ensures r[i] == (w' / denom) * p[i] + (w / denom) * q[i]
    {
      CombineLinear(p[i], q[i], w, w', denom);
    }
    SumLinear(p, q, r, w' / denom, w / denom);
    CombineLinear(Sum(p), Sum(q), w, w', denom);
  }

  /** The cumulatively fused prior: (a_i u' + a'_i u - (a_i + a'_i) u u') / denom. */
  function CumulativePrior(p: seq<real>, q: seq<real>, u: real, u': real, denom: real): (r: seq<real>)
    requires |p| == |q| && denom != 0.0
    ensures |r| == |p|
  {
    seq(|p|, i requires 0 <= i < |p| => CumulativePriorEntry(p[i], q[i], u, u', denom))
  }

  /** The certainty-weighted prior: (a_i (1 - u) + a'_i (1 - u')) / denom. */
  function CertaintyPrior(p: seq<real>, q: seq<real>, u: real, u': real, denom: real): (r: seq<real>)
    requires |p| == |q| && denom != 0.0
    ensures |r| == |p|
  {
    seq(|p|, i requires 0 <= i < |p| => Combine(p[i], q[i], 1.0 - u', 1.0 - u, denom))
  }

  lemma CumulativePriorSum(p: seq<real>, q: seq<real>, u: real, u': real)
    requires |p| == |q| && WeightedDenominator(u, u') != 0.0
    requires Sum(p) == 1.0 && Sum(q) == 1.0
    ensures Sum(CumulativePrior(p, q, u, u', WeightedDenominator(u, u'))) == 1.0
  {
    var denom := WeightedDenominator(u, u');
    var r := CumulativePrior(p, q, u, u', denom);
    forall i | 0 <= i < |r|
      ensures r[i] == Combine(p[i], q[i], ConfidenceWeight(u', u), ConfidenceWeight(u, u'), denom)
    {
      CumulativePriorEntryWeights(p[i], q[i], u, u', denom);
    }
    CombinedSum(p, q, r, ConfidenceWeight(u', u), ConfidenceWeight(u, u'), denom);
    ConfidenceWeightsTotal(u, u');
    CombineOnes(ConfidenceWeight(u', u), ConfidenceWeight(u, u'), denom);
  }

  lemma CertaintyPriorSum(p: seq<real>, q: seq<real>, u: real, u': real)
    requires |p| == |q| && CertaintyDenominator(u, u') != 0.0
    requires Sum(p) == 1.0 && Sum(q) == 1.0
    ensures Sum(CertaintyPrior(p, q, u, u', CertaintyDenominator(u, u'))) == 1.0
  {
    var denom := CertaintyDenominator(u, u');
    CombinedSum(p, q, CertaintyPrior(p, q, u, u', denom), 1.0 - u', 1.0 - u, denom);
    CombineOnes(1.0 - u', 1.0 - u, denom);
  }

  /** The mean prior when the fusion's prior denominator vanishes. */
  function CumFusePrior(o: Opinion, other: Opinion): (r: seq<real>)
    requires SameSize(o, other)
    ensures |r| == |o.prior|
  {
    var u, u' := Uncertainty(o), Uncertainty(other);
    var denom := WeightedDenominator(u, u');
    if Abs(denom) < EPS then N.Mean(o.prior, other.prior)
    else CumulativePrior(o.prior, other.prior, u, u', denom)
  }

  /** The prior of belief-constraint and weighted fusion, with the mean as fallback. */
  function CertaintyFusePrior(o: Opinion, other: Opinion): (r: seq<real>)
    requires SameSize(o, other)
    ensures |r| == |o.prior|
  {
    var u, u' := Uncertainty(o), Uncertainty(other);
    var denom := CertaintyDenominator(u, u');
    if Abs(denom) < EPS then N.Mean(o.prior, other.prior)
    else CertaintyPrior(o.prior, other.prior, u, u', denom)
  }

  /** cum_fuse_(other): cumulative fusion of the masses and of the prior. */
  function CumFuse(o: Opinion, other: Opinion): (r: Opinion)
    requires SameSize(o, other)
    ensures SameSize(r, o)
  {
    Opinion(N.CumFuse(o.base, other.base), CumFusePrior(o, other))
  }

  /** cum_unfuse_(other): only the masses are unfused. */
  function CumUnfuse(o: Opinion, other: Opinion): (r: Opinion)
    requires SameSize(o, other)
    ensures SameSize(r, o) && r.prior == o.prior
  {
    Opinion(N.CumUnfuse(o.base, other.base), o.prior)
  }

  /** bc_fuse_(other): belief-constraint fusion, prior weighted by certainty. */
  function BcFuse(o: Opinion, other: Opinion): (r: Opinion)
    requires SameSize(o, other)
    ensures SameSize(r, o)
  {
    Opinion(N.BcFuse(o.base, other.base), CertaintyFusePrior(o, other))
  }

  /** average_fuse_(other): averaging fusion, mean prior. */
  function AverageFuse(o: Opinion, other: Opinion): (r: Opinion)
    requires SameSize(o, other)
    ensures SameSize(r, o)
  {
    Opinion(N.AverageFuse(o.base, other.base), N.Mean(o.prior, other.prior))
  }

  /** wb_fuse_(other): weighted belief fusion, prior weighted by certainty. */
  function WbFuse(o: Opinion, other: Opinion): (r: Opinion)
    requires SameSize(o, other)
    ensures SameSize(r, o)
  {
    Opinion(N.WbFuse(o.base, other.base), CertaintyFusePrior(o, other))
  }

  /** cc_fuse_(other): consensus & compromise fusion; the prior is not updated. */
  function CcFuse(o: Opinion, other: Opinion): (r: Opinion)
    requires SameSize(o, other)
    ensures SameSize(r, o) && r.prior == o.prior
  {
    Opinion(N.CcFuse(o.base, other.base), o.prior)
  }

  /** Every fusion operator turns two prior distributions into a prior distribution. */
  lemma FusionKeepsPriorDistribution(o: Opinion, other: Opinion)
    requires SameSize(o, other) && Sum(o.prior) == 1.0 && Sum(other.prior) == 1.0
    ensures Sum(CumFuse(o, other).prior) == 1.0
    ensures Sum(BcFuse(o, other).prior) == 1.0
    ensures Sum(AverageFuse(o, other).prior) == 1.0
    ensures Sum(WbFuse(o, other).prior) == 1.0
    ensures Sum(CcFuse(o, other).prior) == 1.0 && Sum(CumUnfuse(o, other).prior) == 1.0
  {
    var u, u' := Uncertainty(o), Uncertainty(other);
    N.SumMean(o.prior, other.prior);
    if Abs(WeightedDenominator(u, u')) >= EPS {
      NotNearZero(WeightedDenominator(u, u'));
      CumulativePriorSum(o.prior, other.prior, u, u');
    }
    if Abs(CertaintyDenominator(u, u')) >= EPS {
      NotNearZero(CertaintyDenominator(u, u'));
      CertaintyPriorSum(o.prior, other.prior, u, u');
    }
  }

  /** Cumulative fusion of opinions with priors is symmetric. */
  lemma CumFuseCommutative(o: Opinion, other: Opinion)
    requires SameSize(o, other)
    ensures CumFuse(o, other) == CumFuse(other, o)
  {
    N.CumFuseCommutative(o.base, other.base);
    var u, u' := Uncertainty(o), Uncertainty(other);
    assert WeightedDenominator(u, u') == WeightedDenominator(u', u);
    assert CumFusePrior(o, other) == CumFusePrior(other, o);
  }

  /** Jøsang's cumulative unfusion example: (0.9, 0.05) without (0.7, 0.1) is (0.90625, 0.03125). */
  lemma CumUnfuseExample()
    ensures CumUnfuse(FromBinomial(0.9, 0.05, 0.5), FromBinomial(0.7, 0.1, 0.5)).base.masses == [0.90625, 0.03125]
    ensures CumUnfuse(FromBinomial(0.9, 0.05, 0.5), FromBinomial(0.7, 0.1, 0.5)).prior[0] == 0.5
  {
    var c, b := FromBinomial(0.9, 0.05, 0.5), FromBinomial(0.7, 0.1, 0.5);
    N.SumOfTwo(c.base.masses);
    N.SumOfTwo(b.base.masses);
    assert Uncertainty(c) == 0.05 && Uncertainty(b) == 0.2;
    assert N.CumUnfuseDenom(c.base, b.base) == 0.16;
    assert N.Weighted(c.base, b.base, -0.05, 0.2, 0.16) == [0.90625, 0.03125];
  }

  // ---------------------------------------------------------------------
  // Trust discounting: the masses are discounted, the prior is kept.
  // ---------------------------------------------------------------------

  /** trust_discount_(p). */
  function TrustDiscount(o: Opinion, p: real): (r: Opinion)
    ensures r.prior == o.prior && |r.base.masses| == |o.base.masses|
  {
    Opinion(N.TrustDiscount(o.base, p), o.prior)
  }

  /** trust_discount_(trust): discount by the trust's binomial projection. */
  function TrustDiscountByTrust(o: Opinion, trust: Opinion): (r: Opinion)
    requires Binomial(trust)
    ensures r.prior == o.prior && |r.base.masses| == |o.base.masses|
  {
    TrustDiscount(o, BinomialProjection(trust))
  }

  /** limited_trust_discount_(limit, p). */
  function LimitedTrustDiscount(o: Opinion, limit: real, p: real): (r: Opinion)
    ensures r.prior == o.prior && |r.base.masses| == |o.base.masses|
  {
    Opinion(N.LimitedTrustDiscount(o.base, limit, p), o.prior)
  }

  /** limited_trust_discount_(limit, trust). */
  function LimitedTrustDiscountByTrust(o: Opinion, limit: real, trust: Opinion): (r: Opinion)
    requires Binomial(trust)
    ensures r.prior == o.prior && |r.base.masses| == |o.base.masses|
  {
    LimitedTrustDiscount(o, limit, BinomialProjection(trust))
  }

  /** Dogmatic trust changes nothing; vacuous trust halves every mass. */
  lemma TrustDiscountByConstantTrust(o: Opinion)
    ensures TrustDiscountByTrust(o, DogmaticTrust()) == o
    ensures TrustDiscountByTrust(o, VacuousTrust()).base.masses == Scale(o.base.masses, 0.5)
  {
    TrustConstants();
    assert Scale(o.base.masses, 1.0) == o.base.masses;
  }

  /** Discounting a valid opinion by a valid-looking binomial trust keeps it valid. */
  lemma TrustDiscountByTrustValid(o: Opinion, trust: Opinion)
    requires IsValid(o) && Binomial(trust)
    requires trust.base.masses[0] >= 0.0 && trust.base.masses[1] >= 0.0 && Uncertainty(trust) >= 0.0
    requires 0.0 <= trust.prior[0] <= 1.0
    ensures IsValid(TrustDiscountByTrust(o, trust))
    ensures Uncertainty(TrustDiscountByTrust(o, trust)) == 1.0 - BinomialProjection(trust) * (1.0 - Uncertainty(o))
  {
    BinomialProjectionBounds(trust);
    N.TrustDiscountValid(o.base, BinomialProjection(trust));
    N.TrustDiscountUncertainty(o.base, BinomialProjection(trust));
  }

  // ---------------------------------------------------------------------
  // Reduction and equality.
  // ---------------------------------------------------------------------

  /**
   * getReducedOpinion<newN>(map): masses AND prior entries are accumulated
   * into their mapped hypotheses in one loop.
   */
  method GetReducedOpinion(o: Opinion, reduction: seq<nat>, newN: nat) returns (r: Opinion)
    requires Sized(o) && !N.Binomial(o.base) && newN < |o.base.masses|
    requires |reduction| == |o.base.masses|
    requires forall i :: 0 <= i < |reduction| ==> reduction[i] < newN
    ensures r.base.masses == N.Reduce(o.base.masses, reduction, newN)
    ensures r.prior == N.Reduce(o.prior, reduction, newN)
    ensures Uncertainty(r) == Uncertainty(o) && Sum(r.prior) == Sum(o.prior)
  {
    var outBelief := Constant(newN, 0.0);
    var outPrior := Constant(newN, 0.0);
    var idx := 0;
    while idx < |o.base.masses|
      invariant 0 <= idx <= |o.base.masses|
      invariant outBelief == N.Reduce(o.base.masses[..idx], reduction[..idx], newN)
      invariant outPrior == N.Reduce(o.prior[..idx], reduction[..idx], newN)
    {
      assert o.base.masses[..idx + 1][..idx] == o.base.masses[..idx];
      assert o.prior[..idx + 1][..idx] == o.prior[..idx];
      assert reduction[..idx + 1][..idx] == reduction[..idx];
      var newHypothesis := reduction[idx];
      outBelief := outBelief[newHypothesis := outBelief[newHypothesis] + o.base.masses[idx]];
      outPrior := outPrior[newHypothesis := outPrior[newHypothesis] + o.prior[idx]];
      idx := idx + 1;
    }
    assert o.base.masses[..idx] == o.base.masses && o.prior[..idx] == o.prior && reduction[..idx] == reduction;
    r := Opinion(N.OpinionNoBase(outBelief), outPrior);
    N.ReduceKeepsTotal(o.base.masses, reduction, newN);
    N.ReduceKeepsTotal(o.prior, reduction, newN);
  }

  /** operator==: summed prior difference below EPS and equal masses. */
  predicate Equal(o: Opinion, other: Opinion)
    requires SameSize(o, other)
  {
    N.L1(o.prior, other.prior) < EPS && N.Equal(o.base, other.base)
  }

  /** operator== as the library computes it. */
  method IsEqual(o: Opinion, other: Opinion) returns (equal: bool)
    requires SameSize(o, other)
    ensures equal == Equal(o, other)
  {
    var diff := N.SummedAbsDifference(o.prior, other.prior);
    var baseEqual := N.IsEqual(o.base, other.base);
    equal := diff < EPS && baseEqual;
  }

  lemma EqualReflexiveSymmetric(o: Opinion, other: Opinion)
    requires SameSize(o, other)
    ensures Equal(o, o)
    ensures Equal(o, other) == Equal(other, o)
  {
    N.EqualReflexiveSymmetric(o.base, other.base);
    N.L1Self(o.prior);
    N.L1Symmetric(o.prior, other.prior);
  }
}
