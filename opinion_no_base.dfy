/**
 * OpinionNoBase<N>: a subjective opinion over N hypotheses given by its
 * belief masses b[0..N-1]; the uncertainty is whatever mass is left,
 * u = 1 - sum(b). OpinionNoBase is a value type: the in-place `*_`
 * operators replace the receiver by the value the copying operator returns,
 * so each operator is a function from the old value to the new one.
 */
module NoBaseOpinions {
  import opened Util
  import opened CudaArray
  import opened Algebra

  datatype OpinionNoBase = OpinionNoBase(masses: seq<real>)

  function Uncertainty(o: OpinionNoBase): real
  {
    1.0 - Sum(o.masses)
  }

  /** is_valid(): no mass below -EPS and the masses sum to less than 1 + EPS. */
  predicate IsValid(o: OpinionNoBase)
  {
    (forall i :: 0 <= i < |o.masses| ==> o.masses[i] >= -EPS) && Sum(o.masses) < 1.0 + EPS
  }

  predicate Binomial(o: OpinionNoBase)
  {
    IsBinomial(|o.masses|)
  }

  function Belief(o: OpinionNoBase): real
    requires Binomial(o)
  {
    o.masses[0]
  }

  function Disbelief(o: OpinionNoBase): real
    requires Binomial(o)
  {
    o.masses[1]
  }

  /** The uniform belief distribution 1/N (NeutralBeliefDistr). */
  function NeutralBeliefDistr(n: nat): (r: seq<real>)
    requires n > 0
    ensures |r| == n
  {
    Constant(n, 1.0 / n as real)
  }

  /** The vacuous distribution: every mass 0 (VacuousBeliefDistr). */
  function VacuousBeliefDistr(n: nat): (r: seq<real>)
    ensures |r| == n
  {
    Constant(n, 0.0)
  }

  function NeutralBeliefOpinion(n: nat): OpinionNoBase
    requires n > 0
  {
    OpinionNoBase(NeutralBeliefDistr(n))
  }

  /** The default-constructed opinion: all belief masses 0. */
  function VacuousBeliefOpinion(n: nat): OpinionNoBase
  {
    OpinionNoBase(VacuousBeliefDistr(n))
  }

  lemma VacuousIsFullyUncertain(n: nat)
    ensures Uncertainty(VacuousBeliefOpinion(n)) == 1.0
    ensures IsValid(VacuousBeliefOpinion(n))
  {
    SumConstant(n, 0.0);
  }

  lemma NeutralIsDogmatic(n: nat)
    requires n > 0
    ensures Uncertainty(NeutralBeliefOpinion(n)) == 0.0
    ensures IsValid(NeutralBeliefOpinion(n))
  {
    SumConstant(n, 1.0 / n as real);
  }

  lemma SumOfTwo(s: seq<real>)
    requires |s| == 2
    ensures Sum(s) == s[0] + s[1]
  {
    var p := s[..1];
    assert p[..0] == [];
    assert Sum(p) == Sum(p[..0]) + p[0];
    assert Sum(s) == Sum(p) + s[1];
  }

  lemma SumOfThree(s: seq<real>)
    requires |s| == 3
    ensures Sum(s) == s[0] + s[1] + s[2]
  {
    var p := s[..2];
    SumOfTwo(p);
    assert Sum(s) == Sum(p) + s[2];
  }

  /** A binomial opinion's belief, disbelief and uncertainty add up to one. */
  lemma BinomialMasses(o: OpinionNoBase)
    requires Binomial(o)
    ensures Belief(o) + Disbelief(o) + Uncertainty(o) == 1.0
  {
    SumOfTwo(o.masses);
  }

  /** complement(): belief and disbelief swap places. */
  function Complement(o: OpinionNoBase): (r: OpinionNoBase)
    requires Binomial(o)
    ensures Binomial(r) && Belief(r) == Disbelief(o) && Disbelief(r) == Belief(o)
  {
    OpinionNoBase([o.masses[1], o.masses[0]])
  }

  lemma ComplementInvolution(o: OpinionNoBase)
    requires Binomial(o)
    ensures Complement(Complement(o)) == o
    ensures Uncertainty(Complement(o)) == Uncertainty(o)
  {
    SumOfTwo(o.masses);
    SumOfTwo(Complement(o).masses);
    assert Complement(Complement(o)).masses == o.masses;
  }

  /** evidence(): b * (N / u), defined for u != 0. */
  function Evidence(o: OpinionNoBase): (r: seq<real>)
    requires Uncertainty(o) != 0.0
    ensures |r| == |o.masses|
  {
    Scale(o.masses, |o.masses| as real / Uncertainty(o))
  }

  /** (1 - t) p_i + t q_i. */
  function Interpolated(p: seq<real>, q: seq<real>, t: real): (r: seq<real>)
    requires |p| == |q|
    ensures |r| == |p|
  {
    seq(|p|, i requires 0 <= i < |p| => (1.0 - t) * p[i] + t * q[i])
  }

  lemma SumInterpolated(p: seq<real>, q: seq<real>, t: real)
    requires |p| == |q|
    ensures Sum(Interpolated(p, q, t)) == (1.0 - t) * Sum(p) + t * Sum(q)
  {
    SumLinear(p, q, Interpolated(p, q, t), 1.0 - t, t);
  }

  /** interpolate(other, t): the convex combination (1 - t) b + t b'. */
  function Interpolate(o: OpinionNoBase, other: OpinionNoBase, t: real): (r: OpinionNoBase)
    requires |other.masses| == |o.masses|
    ensures |r.masses| == |o.masses|
  {
    OpinionNoBase(Interpolated(o.masses, other.masses, t))
  }

  lemma InterpolateEnds(o: OpinionNoBase, other: OpinionNoBase)
    requires |other.masses| == |o.masses|
    ensures Interpolate(o, other, 0.0) == o
    ensures Interpolate(o, other, 1.0) == other
  {
    assert Interpolate(o, other, 0.0).masses == o.masses;
    assert Interpolate(o, other, 1.0).masses == other.masses;
  }

  lemma InterpolateUncertainty(o: OpinionNoBase, other: OpinionNoBase, t: real)
    requires |other.masses| == |o.masses|
    ensures Uncertainty(Interpolate(o, other, t)) == (1.0 - t) * Uncertainty(o) + t * Uncertainty(other)
  {
    SumInterpolated(o.masses, other.masses, t);
  }

  /** getProbability(): b / (1 - u) for a binomial opinion that is not vacuous. */
  function GetProbability(o: OpinionNoBase): real
    requires Binomial(o) && Uncertainty(o) != 1.0
  {
    o.masses[0] / (1.0 - Uncertainty(o))
  }

  /** getProbabilities(): b_i / (1 - u). */
  function GetProbabilities(o: OpinionNoBase): (r: seq<real>)
    requires Uncertainty(o) != 1.0
    ensures |r| == |o.masses|
  {
    var denom := 1.0 - Uncertainty(o);
    seq(|o.masses|, i requires 0 <= i < |o.masses| => o.masses[i] / denom)
  }

  lemma ProbabilitiesSumToOne(o: OpinionNoBase)
    requires Uncertainty(o) != 1.0
    ensures Sum(GetProbabilities(o)) == 1.0
  {
    var denom := 1.0 - Uncertainty(o);
    var p := GetProbabilities(o);
    forall i | 0 <= i < |p|
      ensures p[i] == (1.0 / denom) * o.masses[i]
    {
    }
    SumScaled(o.masses, p, 1.0 / denom);
  }

  /** getBinomialProjection(a): b + u * a (a = 0.5 by default). */
  function BinomialProjection(o: OpinionNoBase, baseRate: real): real
    requires Binomial(o)
  {
    Projected(Belief(o), Uncertainty(o), baseRate)
  }

  /** getProjection(a): b_i + u * a_i. */
  function Projection(o: OpinionNoBase, baseRate: seq<real>): (r: seq<real>)
    requires |baseRate| == |o.masses|
    ensures |r| == |o.masses|
  {
    var uncert := Uncertainty(o);
    seq(|o.masses|, i requires 0 <= i < |o.masses| => o.masses[i] + uncert * baseRate[i])
  }

  /** A projection with a base rate that sums to 1 is a probability distribution. */
  lemma ProjectionSumsToOne(o: OpinionNoBase, baseRate: seq<real>)
    requires |baseRate| == |o.masses| && Sum(baseRate) == 1.0
    ensures Sum(Projection(o, baseRate)) == 1.0
  {
    SumLinear(o.masses, baseRate, Projection(o, baseRate), 1.0, Uncertainty(o));
  }

  /** uncertainty_differential(other): u / (u + u'). */
  function UncertaintyDifferential(o: OpinionNoBase, other: OpinionNoBase): real
    requires Uncertainty(o) + Uncertainty(other) != 0.0
  {
    Uncertainty(o) / (Uncertainty(o) + Uncertainty(other))
  }

  lemma UncertaintyDifferentialsComplement(o: OpinionNoBase, other: OpinionNoBase)
    requires Uncertainty(o) + Uncertainty(other) != 0.0
    ensures UncertaintyDifferential(o, other) + UncertaintyDifferential(other, o) == 1.0
  {
    SharesSumToOne(Uncertainty(o), Uncertainty(other));
  }

  // ---------------------------------------------------------------------
  // Degree of conflict and degree of harmony.
  // ---------------------------------------------------------------------

  /** Binomial degree_of_conflict: |P - P'| (1 - u)(1 - u'). */
  function DegreeOfConflictBinomial(o: OpinionNoBase, other: OpinionNoBase, baseRate: real, baseRateOther: real): real
    requires Binomial(o) && Binomial(other)
  {
    var distance := Abs(BinomialProjection(o, baseRate) - BinomialProjection(other, baseRateOther));
    var certainty := (1.0 - Uncertainty(o)) * (1.0 - Uncertainty(other));
    distance * certainty
  }

  /** Binomial degree_of_harmony: (1 - |P - P'|)(1 - u)(1 - u'). */
  function DegreeOfHarmonyBinomial(o: OpinionNoBase, other: OpinionNoBase, baseRate: real, baseRateOther: real): real
    requires Binomial(o) && Binomial(other)
  {
    var distance := Abs(BinomialProjection(o, baseRate) - BinomialProjection(other, baseRateOther));
    var certainty := (1.0 - Uncertainty(o)) * (1.0 - Uncertainty(other));
    (1.0 - distance) * certainty
  }

  /** |p_i - q_i| for every i. */
  function AbsDiff(p: seq<real>, q: seq<real>): (r: seq<real>)
    requires |p| == |q|
    ensures |r| == |p|
  {
    seq(|p|, i requires 0 <= i < |p| => Abs(p[i] - q[i]))
  }

  /** Sum over i of |p_i - q_i|. */
  function L1(p: seq<real>, q: seq<real>): real
    requires |p| == |q|
  {
    Sum(AbsDiff(p, q))
  }

  lemma L1Symmetric(p: seq<real>, q: seq<real>)
    requires |p| == |q|
    ensures L1(p, q) == L1(q, p)
  {
    assert AbsDiff(p, q) == AbsDiff(q, p);
  }

  /** A vector is at L1 distance zero from itself. */
  lemma L1Self(p: seq<real>)
    ensures L1(p, p) == 0.0
  {
    forall i | 0 <= i < |p|
      ensures AbsDiff(p, p)[i] == 0.0
    {
      assert AbsDiff(p, p)[i] == Abs(p[i] - p[i]);
    }
    SumZero(AbsDiff(p, p));
  }

  lemma L1NonNegative(p: seq<real>, q: seq<real>)
    requires |p| == |q|
    ensures L1(p, q) >= 0.0
  {
    SumNonNegative(AbsDiff(p, q));
  }

  /**
   * Array degree_of_conflict(other, a, a') AS WRITTEN: for N == 2 it uses
   * the binomial formula with a[0] and a'[0]; otherwise half the L1
   * distance of the projections times the conjunctive certainty, where the
   * other opinion is projected with THIS opinion's base rate a.
   */
  function DegreeOfConflict(o: OpinionNoBase, other: OpinionNoBase, baseRate: seq<real>, baseRateOther: seq<real>): real
    requires |other.masses| == |o.masses| == |baseRate| == |baseRateOther|
  {
    if Binomial(o) then
      DegreeOfConflictBinomial(o, other, baseRate[0], baseRateOther[0])
    else
      var distance := L1(Projection(o, baseRate), Projection(other, baseRate)) / 2.0;
      distance * JointCertainty(o, other)
  }

  /** degree_of_conflict with each opinion projected with its own base rate. */
  function DegreeOfConflictCorrected(o: OpinionNoBase, other: OpinionNoBase, baseRate: seq<real>, baseRateOther: seq<real>): (r: real)
    requires |other.masses| == |o.masses| == |baseRate| == |baseRateOther|
  {
    if Binomial(o) then
      DegreeOfConflictBinomial(o, other, baseRate[0], baseRateOther[0])
    else
      var distance := L1(Projection(o, baseRate), Projection(other, baseRateOther)) / 2.0;
      distance * JointCertainty(o, other)
  }

  /**
   * Array degree_of_harmony(other, a, a') AS WRITTEN: for N == 2 it returns
   * the binomial degree of CONFLICT; otherwise (1 - L1/2) times the
   * certainty, again projecting the other opinion with this base rate.
   */
  function DegreeOfHarmony(o: OpinionNoBase, other: OpinionNoBase, baseRate: seq<real>, baseRateOther: seq<real>): (r: real)
    requires |other.masses| == |o.masses| == |baseRate| == |baseRateOther|
    ensures Binomial(o) ==> r == DegreeOfConflict(o, other, baseRate, baseRateOther)
  {
    if Binomial(o) then
      DegreeOfConflictBinomial(o, other, baseRate[0], baseRateOther[0])
    else
      var distance := L1(Projection(o, baseRate), Projection(other, baseRate)) / 2.0;
      (1.0 - distance) * JointCertainty(o, other)
  }

  /** degree_of_harmony with the binomial harmony for N == 2 and own base rates. */
  function DegreeOfHarmonyCorrected(o: OpinionNoBase, other: OpinionNoBase, baseRate: seq<real>, baseRateOther: seq<real>): (r: real)
    requires |other.masses| == |o.masses| == |baseRate| == |baseRateOther|
  {
    if Binomial(o) then
      DegreeOfHarmonyBinomial(o, other, baseRate[0], baseRateOther[0])
    else
      var distance := L1(Projection(o, baseRate), Projection(other, baseRateOther)) / 2.0;
      (1.0 - distance) * JointCertainty(o, other)
  }

  /** Two opposite dogmatic binomial opinions are in full conflict. */
  lemma OppositeDogmaticConflict(baseRate: real, baseRateOther: real)
    ensures DegreeOfConflictBinomial(OpinionNoBase([1.0, 0.0]), OpinionNoBase([0.0, 1.0]), baseRate, baseRateOther) == 1.0
    ensures DegreeOfHarmonyBinomial(OpinionNoBase([1.0, 0.0]), OpinionNoBase([0.0, 1.0]), baseRate, baseRateOther) == 0.0
  {
    SumOfTwo([1.0, 0.0]);
    SumOfTwo([0.0, 1.0]);
  }

  /**
   * The binomial branch of the array degree_of_harmony returns the degree of
   * conflict: two opposite dogmatic opinions get harmony 1 as written and 0
   * once corrected.
   */
  lemma HarmonyAsWrittenExample()
    ensures DegreeOfHarmony(OpinionNoBase([1.0, 0.0]), OpinionNoBase([0.0, 1.0]), [0.5, 0.5], [0.5, 0.5]) == 1.0
    ensures DegreeOfHarmonyCorrected(OpinionNoBase([1.0, 0.0]), OpinionNoBase([0.0, 1.0]), [0.5, 0.5], [0.5, 0.5]) == 0.0
  {
    OppositeDogmaticConflict(0.5, 0.5);
  }

  /**
   * The array degree_of_conflict projects the other opinion with this
   * opinion's base rate: two trinomial opinions with belief 0.5 in the first
   * hypothesis but base rates [1, 0, 0] and [0, 1, 0] have projections
   * [1, 0, 0] and [0.5, 0.5, 0], so conflict 0.5 * 0.5 * 0.5 == 0.125;
   * as written both are projected to [1, 0, 0] and the conflict is 0.
   */
  lemma ConflictAsWrittenExample()
    ensures DegreeOfConflict(OpinionNoBase([0.5, 0.0, 0.0]), OpinionNoBase([0.5, 0.0, 0.0]), [1.0, 0.0, 0.0], [0.0, 1.0, 0.0]) == 0.0
    ensures DegreeOfConflictCorrected(OpinionNoBase([0.5, 0.0, 0.0]), OpinionNoBase([0.5, 0.0, 0.0]), [1.0, 0.0, 0.0], [0.0, 1.0, 0.0]) == 0.125
  {
    var o := OpinionNoBase([0.5, 0.0, 0.0]);
    SumOfThree(o.masses);
    assert Uncertainty(o) == 0.5;
    var p, p' := Projection(o, [1.0, 0.0, 0.0]), Projection(o, [0.0, 1.0, 0.0]);
    assert p == [1.0, 0.0, 0.0];
    assert p' == [0.5, 0.5, 0.0];
    SumOfThree(AbsDiff(p, p));
    SumOfThree(AbsDiff(p, p'));
  }

  /** Vacuous opinions carry no certainty, hence neither conflict nor harmony. */
  lemma VacuousNoConflict(n: nat, baseRate: seq<real>, baseRateOther: seq<real>)
    requires |baseRate| == |baseRateOther| == n
    ensures DegreeOfConflictCorrected(VacuousBeliefOpinion(n), VacuousBeliefOpinion(n), baseRate, baseRateOther) == 0.0
    ensures DegreeOfHarmonyCorrected(VacuousBeliefOpinion(n), VacuousBeliefOpinion(n), baseRate, baseRateOther) == 0.0
    ensures DegreeOfConflict(VacuousBeliefOpinion(n), VacuousBeliefOpinion(n), baseRate, baseRateOther) == 0.0
    ensures DegreeOfHarmony(VacuousBeliefOpinion(n), VacuousBeliefOpinion(n), baseRate, baseRateOther) == 0.0
  {
    VacuousIsFullyUncertain(n);
    DegreeOfConflictMeaning(VacuousBeliefOpinion(n), VacuousBeliefOpinion(n), baseRate, baseRateOther);
    DegreeOfHarmonyMeaning(VacuousBeliefOpinion(n), VacuousBeliefOpinion(n), baseRate, baseRateOther);
  }

  /** The corrected degree of conflict is symmetric in the two opinions. */
  lemma ConflictCorrectedSymmetric(o: OpinionNoBase, other: OpinionNoBase, baseRate: seq<real>, baseRateOther: seq<real>)
    requires |other.masses| == |o.masses| == |baseRate| == |baseRateOther|
    ensures DegreeOfConflictCorrected(o, other, baseRate, baseRateOther) == DegreeOfConflictCorrected(other, o, baseRateOther, baseRate)
    ensures DegreeOfHarmonyCorrected(o, other, baseRate, baseRateOther) == DegreeOfHarmonyCorrected(other, o, baseRateOther, baseRate)
  {
    if !Binomial(o) {
      L1Symmetric(Projection(o, baseRate), Projection(other, baseRateOther));
    }
  }

  /** Masses that are non-negative and add up to at most one, without tolerance. */
  predicate IsExact(o: OpinionNoBase)
  {
    (forall i :: 0 <= i < |o.masses| ==> o.masses[i] >= 0.0) && Sum(o.masses) <= 1.0
  }

  /** A base rate that is a probability distribution. */
  predicate IsDistribution(a: seq<real>)
  {
    (forall i :: 0 <= i < |a| ==> a[i] >= 0.0) && Sum(a) == 1.0
  }

  /** Exact masses have an uncertainty between zero and one. */
  lemma ExactUncertainty(o: OpinionNoBase)
    requires IsExact(o)
    ensures 0.0 <= Uncertainty(o) <= 1.0
  {
    SumNonNegative(o.masses);
  }

  /** Exact masses projected with a distribution give a distribution. */
  lemma ProjectionIsDistribution(o: OpinionNoBase, baseRate: seq<real>)
    requires |baseRate| == |o.masses| && IsExact(o) && IsDistribution(baseRate)
    ensures IsDistribution(Projection(o, baseRate))
  {
    ProjectionSumsToOne(o, baseRate);
    ExactUncertainty(o);
    var u := Uncertainty(o);
    forall i | 0 <= i < |o.masses|
      ensures Projection(o, baseRate)[i] >= 0.0
    {
      assert u * baseRate[i] >= 0.0;
    }
  }

  /** Two distributions are at L1 distance at most two. */
  lemma L1OfDistributions(p: seq<real>, q: seq<real>)
    requires |p| == |q| && IsDistribution(p) && IsDistribution(q)
    ensures 0.0 <= L1(p, q) <= 2.0
  {
    L1NonNegative(p, q);
    var total := seq(|p|, i requires 0 <= i < |p| => p[i] + q[i]);
    SumAdded(p, q, total);
    SumMonotone(AbsDiff(p, q), total);
  }

  /** A product of two numbers in [0, 1] lies in [0, 1]. */
  lemma UnitProduct(x: real, y: real)
    requires 0.0 <= x <= 1.0 && 0.0 <= y <= 1.0
    ensures 0.0 <= x * y <= 1.0
  {
    MulBelow(y, x);
  }

  /**
   * The half distance between the projections and the joint certainty of two
   * exact opinions with distribution base rates both lie in [0, 1], both as
   * written (both projected with this base rate) and as intended.
   */
  lemma ConflictTermsBounded(o: OpinionNoBase, other: OpinionNoBase, baseRate: seq<real>, baseRateOther: seq<real>)
    requires |other.masses| == |o.masses| == |baseRate| == |baseRateOther| && !Binomial(o)
    requires IsExact(o) && IsExact(other) && IsDistribution(baseRate) && IsDistribution(baseRateOther)
    ensures 0.0 <= L1(Projection(o, baseRate), Projection(other, baseRate)) / 2.0 <= 1.0
    ensures 0.0 <= L1(Projection(o, baseRate), Projection(other, baseRateOther)) / 2.0 <= 1.0
    ensures 0.0 <= (1.0 - Uncertainty(o)) * (1.0 - Uncertainty(other)) <= 1.0
  {
    ProjectionIsDistribution(o, baseRate);
    ProjectionIsDistribution(other, baseRate);
    ProjectionIsDistribution(other, baseRateOther);
    L1OfDistributions(Projection(o, baseRate), Projection(other, baseRate));
    L1OfDistributions(Projection(o, baseRate), Projection(other, baseRateOther));
    ExactUncertainty(o);
    ExactUncertainty(other);
    UnitProduct(1.0 - Uncertainty(o), 1.0 - Uncertainty(other));
  }

  /**
   * The binomial distance between the projections and the joint certainty
   * of two exact binomial opinions with base rates in [0, 1] lie in [0, 1].
   */
  lemma BinomialConflictTermsBounded(o: OpinionNoBase, other: OpinionNoBase, baseRate: real, baseRateOther: real)
    requires Binomial(o) && Binomial(other) && IsExact(o) && IsExact(other)
    requires 0.0 <= baseRate <= 1.0 && 0.0 <= baseRateOther <= 1.0
    ensures 0.0 <= Abs(BinomialProjection(o, baseRate) - BinomialProjection(other, baseRateOther)) <= 1.0
    ensures 0.0 <= (1.0 - Uncertainty(o)) * (1.0 - Uncertainty(other)) <= 1.0
  {
    SumOfTwo(o.masses);
    SumOfTwo(other.masses);
    var u, u' := Uncertainty(o), Uncertainty(other);
    ProjectedWithin(o.masses[0], o.masses[1], u, baseRate);
    ProjectedWithin(other.masses[0], other.masses[1], u', baseRateOther);
    UnitProduct(1.0 - u, 1.0 - u');
  }

  /** b + u a lies in [0, 1] for non-negative b, d, u adding up to one and a in [0, 1]. */
  lemma ProjectedWithin(b: real, d: real, u: real, a: real)
    requires b >= 0.0 && d >= 0.0 && u >= 0.0 && b + d + u == 1.0 && 0.0 <= a <= 1.0
    ensures 0.0 <= Projected(b, u, a) <= 1.0
  {
    MulBelow(u, a);
  }

  /** The array degree_of_conflict as written lies in [0, 1] for exact opinions and distribution base rates. */
  lemma DegreeOfConflictBounded(o: OpinionNoBase, other: OpinionNoBase, baseRate: seq<real>, baseRateOther: seq<real>)
    requires |other.masses| == |o.masses| == |baseRate| == |baseRateOther|
    requires IsExact(o) && IsExact(other) && IsDistribution(baseRate) && IsDistribution(baseRateOther)
    ensures 0.0 <= DegreeOfConflict(o, other, baseRate, baseRateOther) <= 1.0
    ensures 0.0 <= DegreeOfHarmony(o, other, baseRate, baseRateOther) <= 1.0
  {
    WrittenDistanceBounded(o, other, baseRate, baseRateOther);
    ExactUncertainty(o);
    ExactUncertainty(other);
    UnitProduct(1.0 - Uncertainty(o), 1.0 - Uncertainty(other));
    DegreesOfBoundedTerms(o, other, baseRate, baseRateOther);
  }

  /** A distance and its complement share out c. */
  lemma SplitByDistance(distance: real, c: real)
    ensures distance * c + (1.0 - distance) * c == c
  {
  }

  /** For N > 2 the degrees as written share out the joint certainty. */
  lemma WrittenSplit(o: OpinionNoBase, other: OpinionNoBase, baseRate: seq<real>, baseRateOther: seq<real>)
    requires |other.masses| == |o.masses| == |baseRate| == |baseRateOther| && !Binomial(o)
    ensures DegreeOfConflict(o, other, baseRate, baseRateOther) + DegreeOfHarmony(o, other, baseRate, baseRateOther) == JointCertainty(o, other)
  {
    DegreeForms(o, other, baseRate, baseRateOther);
    SplitByDistance(WrittenDistance(o, other, baseRate, baseRateOther), JointCertainty(o, other));
  }

  /** The intended degrees share out the joint certainty. */
  lemma CorrectedSplit(o: OpinionNoBase, other: OpinionNoBase, baseRate: seq<real>, baseRateOther: seq<real>)
    requires |other.masses| == |o.masses| == |baseRate| == |baseRateOther|
    ensures DegreeOfConflictCorrected(o, other, baseRate, baseRateOther) + DegreeOfHarmonyCorrected(o, other, baseRate, baseRateOther) == JointCertainty(o, other)
  {
    if Binomial(o) {
      SplitByDistance(Abs(BinomialProjection(o, baseRate[0]) - BinomialProjection(other, baseRateOther[0])), JointCertainty(o, other));
    } else {
      SplitByDistance(L1(Projection(o, baseRate), Projection(other, baseRateOther)) / 2.0, JointCertainty(o, other));
    }
  }

  /** Bounded distance and certainty give bounded degrees. */
  lemma DegreesOfBoundedTerms(o: OpinionNoBase, other: OpinionNoBase, baseRate: seq<real>, baseRateOther: seq<real>)
    requires |other.masses| == |o.masses| == |baseRate| == |baseRateOther|
    requires 0.0 <= WrittenDistance(o, other, baseRate, baseRateOther) <= 1.0 && 0.0 <= JointCertainty(o, other) <= 1.0
    ensures 0.0 <= DegreeOfConflict(o, other, baseRate, baseRateOther) <= 1.0
    ensures 0.0 <= DegreeOfHarmony(o, other, baseRate, baseRateOther) <= 1.0
  {
    DegreeForms(o, other, baseRate, baseRateOther);
    DegreesWithin(WrittenDistance(o, other, baseRate, baseRateOther), JointCertainty(o, other),
                  DegreeOfConflict(o, other, baseRate, baseRateOther), DegreeOfHarmony(o, other, baseRate, baseRateOther));
  }


  /** A distance and a certainty in [0, 1] give degrees in [0, 1]. */
  lemma DegreesWithin(distance: real, certainty: real, conflict: real, harmony: real)
    requires 0.0 <= distance <= 1.0 && 0.0 <= certainty <= 1.0
    requires conflict == distance * certainty
    requires harmony == conflict || harmony == (1.0 - distance) * certainty
    ensures 0.0 <= conflict <= 1.0 && 0.0 <= harmony <= 1.0
  {
    UnitProduct(distance, certainty);
    UnitProduct(1.0 - distance, certainty);
  }


  /** (1 - u)(1 - u'): the conjunctive certainty of two opinions. */
  function JointCertainty(o: OpinionNoBase, other: OpinionNoBase): real
  {
    (1.0 - Uncertainty(o)) * (1.0 - Uncertainty(other))
  }

  /**
   * The projection distance the array degree_of_conflict as written uses:
   * binomial with both base rates, otherwise half the L1 distance with the
   * other opinion projected with this base rate.
   */
  function WrittenDistance(o: OpinionNoBase, other: OpinionNoBase, baseRate: seq<real>, baseRateOther: seq<real>): real
    requires |other.masses| == |o.masses| == |baseRate| == |baseRateOther|
  {
    if Binomial(o) then Abs(BinomialProjection(o, baseRate[0]) - BinomialProjection(other, baseRateOther[0]))
    else L1(Projection(o, baseRate), Projection(other, baseRate)) / 2.0
  }

  /** Both degrees as written are the distance, or its complement, times the joint certainty. */
  lemma DegreeForms(o: OpinionNoBase, other: OpinionNoBase, baseRate: seq<real>, baseRateOther: seq<real>)
    requires |other.masses| == |o.masses| == |baseRate| == |baseRateOther|
    ensures DegreeOfConflict(o, other, baseRate, baseRateOther) == WrittenDistance(o, other, baseRate, baseRateOther) * JointCertainty(o, other)
    ensures !Binomial(o) ==> DegreeOfHarmony(o, other, baseRate, baseRateOther) == (1.0 - WrittenDistance(o, other, baseRate, baseRateOther)) * JointCertainty(o, other)
    ensures Binomial(o) ==> DegreeOfHarmony(o, other, baseRate, baseRateOther) == DegreeOfConflict(o, other, baseRate, baseRateOther)
  {
    if Binomial(o) {
      BinomialConflictForm(o, other, baseRate, baseRateOther);
    } else {
      ConflictForm(o, other, baseRate, baseRateOther);
      HarmonyForm(o, other, baseRate, baseRateOther);
    }
  }

  lemma BinomialConflictForm(o: OpinionNoBase, other: OpinionNoBase, baseRate: seq<real>, baseRateOther: seq<real>)
    requires |other.masses| == |o.masses| == |baseRate| == |baseRateOther| && Binomial(o)
    ensures DegreeOfConflict(o, other, baseRate, baseRateOther) == WrittenDistance(o, other, baseRate, baseRateOther) * JointCertainty(o, other)
  {
  }

  lemma ConflictForm(o: OpinionNoBase, other: OpinionNoBase, baseRate: seq<real>, baseRateOther: seq<real>)
    requires |other.masses| == |o.masses| == |baseRate| == |baseRateOther| && !Binomial(o)
    ensures DegreeOfConflict(o, other, baseRate, baseRateOther) == WrittenDistance(o, other, baseRate, baseRateOther) * JointCertainty(o, other)
  {
    assert WrittenDistance(o, other, baseRate, baseRateOther) == L1(Projection(o, baseRate), Projection(other, baseRate)) / 2.0;
    assert DegreeOfConflict(o, other, baseRate, baseRateOther) == L1(Projection(o, baseRate), Projection(other, baseRate)) / 2.0 * JointCertainty(o, other);
  }

  lemma HarmonyForm(o: OpinionNoBase, other: OpinionNoBase, baseRate: seq<real>, baseRateOther: seq<real>)
    requires |other.masses| == |o.masses| == |baseRate| == |baseRateOther| && !Binomial(o)
    ensures DegreeOfHarmony(o, other, baseRate, baseRateOther) == (1.0 - WrittenDistance(o, other, baseRate, baseRateOther)) * JointCertainty(o, other)
  {
    assert WrittenDistance(o, other, baseRate, baseRateOther) == L1(Projection(o, baseRate), Projection(other, baseRate)) / 2.0;
    assert DegreeOfHarmony(o, other, baseRate, baseRateOther) == (1.0 - L1(Projection(o, baseRate), Projection(other, baseRate)) / 2.0) * JointCertainty(o, other);
  }

  /** The distance as written lies in [0, 1] for exact opinions and distribution base rates. */
  lemma WrittenDistanceBounded(o: OpinionNoBase, other: OpinionNoBase, baseRate: seq<real>, baseRateOther: seq<real>)
    requires |other.masses| == |o.masses| == |baseRate| == |baseRateOther|
    requires IsExact(o) && IsExact(other) && IsDistribution(baseRate) && IsDistribution(baseRateOther)
    ensures 0.0 <= WrittenDistance(o, other, baseRate, baseRateOther) <= 1.0
  {
    if Binomial(o) {
      SumOfTwo(baseRate);
      SumOfTwo(baseRateOther);
      BinomialConflictTermsBounded(o, other, baseRate[0], baseRateOther[0]);
    } else {
      ConflictTermsBounded(o, other, baseRate, baseRateOther);
    }
  }



  /**
   * What the array degree_of_conflict as written means: it is the intended
   * measure whenever the two base rates coincide or the opinions are
   * binomial, it vanishes when either opinion is vacuous, and it lies in
   * [0, 1] for exact opinions with distribution base rates.
   */
  lemma DegreeOfConflictMeaning(o: OpinionNoBase, other: OpinionNoBase, baseRate: seq<real>, baseRateOther: seq<real>)
    requires |other.masses| == |o.masses| == |baseRate| == |baseRateOther|
    ensures baseRate == baseRateOther || Binomial(o)
            ==> DegreeOfConflict(o, other, baseRate, baseRateOther) == DegreeOfConflictCorrected(o, other, baseRate, baseRateOther)
    ensures Uncertainty(o) == 1.0 || Uncertainty(other) == 1.0 ==> DegreeOfConflict(o, other, baseRate, baseRateOther) == 0.0
    ensures IsExact(o) && IsExact(other) && IsDistribution(baseRate) && IsDistribution(baseRateOther)
            ==> 0.0 <= DegreeOfConflict(o, other, baseRate, baseRateOther) <= 1.0
  {
    DegreeForms(o, other, baseRate, baseRateOther);
    NoCertaintyNoDegree(WrittenDistance(o, other, baseRate, baseRateOther), Uncertainty(o), Uncertainty(other));
    if IsExact(o) && IsExact(other) && IsDistribution(baseRate) && IsDistribution(baseRateOther) {
      DegreeOfConflictBounded(o, other, baseRate, baseRateOther);
    }
  }


  /** A degree scaled by the joint certainty vanishes when either opinion is vacuous. */
  lemma NoCertaintyNoDegree(x: real, u: real, u': real)
    ensures u == 1.0 || u' == 1.0 ==> x * ((1.0 - u) * (1.0 - u')) == 0.0
  {
    if u == 1.0 || u' == 1.0 {
      assert (1.0 - u) * (1.0 - u') == 0.0;
    }
  }



  /**
   * What the array degree_of_harmony as written means: for N > 2 it is the
   * intended measure when the base rates coincide, it vanishes when either
   * opinion is vacuous, and it lies in [0, 1] for exact opinions with
   * distribution base rates.
   */
  lemma DegreeOfHarmonyMeaning(o: OpinionNoBase, other: OpinionNoBase, baseRate: seq<real>, baseRateOther: seq<real>)
    requires |other.masses| == |o.masses| == |baseRate| == |baseRateOther|
    ensures baseRate == baseRateOther && !Binomial(o)
            ==> DegreeOfHarmony(o, other, baseRate, baseRateOther) == DegreeOfHarmonyCorrected(o, other, baseRate, baseRateOther)
    ensures Uncertainty(o) == 1.0 || Uncertainty(other) == 1.0 ==> DegreeOfHarmony(o, other, baseRate, baseRateOther) == 0.0
    ensures IsExact(o) && IsExact(other) && IsDistribution(baseRate) && IsDistribution(baseRateOther)
            ==> 0.0 <= DegreeOfHarmony(o, other, baseRate, baseRateOther) <= 1.0
  {
    DegreeForms(o, other, baseRate, baseRateOther);
    NoCertaintyNoDegree(WrittenDistance(o, other, baseRate, baseRateOther), Uncertainty(o), Uncertainty(other));
    NoCertaintyNoDegree(1.0 - WrittenDistance(o, other, baseRate, baseRateOther), Uncertainty(o), Uncertainty(other));
    if IsExact(o) && IsExact(other) && IsDistribution(baseRate) && IsDistribution(baseRateOther) {
      DegreeOfConflictBounded(o, other, baseRate, baseRateOther);
    }
  }



  // ---------------------------------------------------------------------
  // Trust revision of a binomial trust opinion.
  // ---------------------------------------------------------------------

  /**
   * revise_trust_(f): f is clamped to [-1, 1]; f >= 0 moves belief into
   * disbelief (b (1 - f), d + (1 - d) f), f < 0 mirrors this with |f|.
   */
  function ReviseTrust(o: OpinionNoBase, revisionFactor: real): (r: OpinionNoBase)
    requires Binomial(o)
    ensures Binomial(r)
  {
    var f := Clamp(revisionFactor, -1.0, 1.0);
    if f < 0.0 then
      OpinionNoBase([Raise(o.masses[0], -f), Shrink(o.masses[1], -f)])
    else
      OpinionNoBase([Shrink(o.masses[0], f), Raise(o.masses[1], f)])
  }

  /** The uncertainty shrinks by the factor 1 - |f| (f after clamping). */
  lemma ReviseTrustUncertainty(o: OpinionNoBase, revisionFactor: real)
    requires Binomial(o)
    ensures Uncertainty(ReviseTrust(o, revisionFactor))
         == Uncertainty(o) * (1.0 - Abs(Clamp(revisionFactor, -1.0, 1.0)))
  {
    SumOfTwo(o.masses);
    SumOfTwo(ReviseTrust(o, revisionFactor).masses);
  }

  /** A valid binomial opinion stays valid under any revision factor. */
  lemma ReviseTrustValid(o: OpinionNoBase, revisionFactor: real)
    requires Binomial(o) && IsValid(o)
    ensures IsValid(ReviseTrust(o, revisionFactor))
  {
    SumOfTwo(o.masses);
    SumOfTwo(ReviseTrust(o, revisionFactor).masses);
    EpsPositive();
    if Clamp(revisionFactor, -1.0, 1.0) < 0.0 {
      RevisionKeepsBounds(o.masses[0], o.masses[1], -Clamp(revisionFactor, -1.0, 1.0), EPS);
    } else {
      RevisionKeepsBounds(o.masses[1], o.masses[0], Clamp(revisionFactor, -1.0, 1.0), EPS);
    }
  }

  /** A zero revision factor leaves the opinion unchanged. */
  lemma ReviseTrustZero(o: OpinionNoBase)
    requires Binomial(o)
    ensures ReviseTrust(o, 0.0) == o
  {
    assert ReviseTrust(o, 0.0).masses == o.masses;
  }

  /** revise_trust_(doc, other): revision factor uncertainty_differential(other) * doc. */
  function ReviseTrustByConflict(o: OpinionNoBase, degreeOfConflict: real, other: OpinionNoBase): (r: OpinionNoBase)
    requires Binomial(o) && Uncertainty(o) + Uncertainty(other) != 0.0
    ensures r == ReviseTrust(o, UncertaintyDifferential(o, other) * degreeOfConflict)
  {
    ReviseTrust(o, UncertaintyDifferential(o, other) * degreeOfConflict)
  }

  // ---------------------------------------------------------------------
  // Binomial multiplication and comultiplication.
  // ---------------------------------------------------------------------

  /**
   * multiply_(other, a, a'): b := b b' + ((1-a) a' b u' + a (1-a') u b') / (1 - a a'),
   * d := d + d' - d d'.
   */
  function Multiply(o: OpinionNoBase, other: OpinionNoBase, baseThis: real, baseOther: real): (r: OpinionNoBase)
    requires Binomial(o) && Binomial(other) && ProductBaseRate(baseThis, baseOther) != 1.0
    ensures Binomial(r)
  {
    OpinionNoBase([ProductBelief(baseThis, baseOther, Belief(o), Uncertainty(o), Belief(other), Uncertainty(other)),
                   ProductDisbelief(Disbelief(o), Disbelief(other))])
  }

  /**
   * comultiply_(other, a, a'): d := d d' + (a (1-a') d u' + (1-a) a' u d') / (a + a' - a a'),
   * b := b + b' - b b'.
   */
  function Comultiply(o: OpinionNoBase, other: OpinionNoBase, baseThis: real, baseOther: real): (r: OpinionNoBase)
    requires Binomial(o) && Binomial(other) && CoproductBaseRate(baseThis, baseOther) != 0.0
    ensures Binomial(r)
  {
    OpinionNoBase([CoproductBelief(Belief(o), Belief(other)),
                   CoproductDisbelief(baseThis, baseOther, Disbelief(o), Uncertainty(o), Disbelief(other), Uncertainty(other))])
  }

  /**
   * The uncertainty of a product is Jøsang's
   * u u' + ((1 - a') b u' + (1 - a) u b') / (1 - a a').
   */
  lemma MultiplyUncertainty(o: OpinionNoBase, other: OpinionNoBase, baseThis: real, baseOther: real)
    requires Binomial(o) && Binomial(other) && ProductBaseRate(baseThis, baseOther) != 1.0
    ensures Uncertainty(Multiply(o, other, baseThis, baseOther))
         == ProductUncertaintyForm(baseThis, baseOther, Belief(o), Uncertainty(o), Belief(other), Uncertainty(other))
  {
    BinomialMasses(Multiply(o, other, baseThis, baseOther));
    BinomialMasses(o);
    BinomialMasses(other);
    ProductUncertainty(baseThis, baseOther, Belief(o), Disbelief(o), Uncertainty(o), Belief(other), Disbelief(other), Uncertainty(other));
  }

  /**
   * The uncertainty of a coproduct is Jøsang's
   * u u' + (a' d u' + a u d') / (a + a' - a a').
   */
  lemma ComultiplyUncertainty(o: OpinionNoBase, other: OpinionNoBase, baseThis: real, baseOther: real)
    requires Binomial(o) && Binomial(other) && CoproductBaseRate(baseThis, baseOther) != 0.0
    ensures Uncertainty(Comultiply(o, other, baseThis, baseOther))
         == CoproductUncertaintyForm(baseThis, baseOther, Disbelief(o), Uncertainty(o), Disbelief(other), Uncertainty(other))
  {
    BinomialMasses(Comultiply(o, other, baseThis, baseOther));
    BinomialMasses(o);
    BinomialMasses(other);
    CoproductUncertainty(baseThis, baseOther, Belief(o), Disbelief(o), Uncertainty(o), Belief(other), Disbelief(other), Uncertainty(other));
  }

  /**
   * With base rate a a', the product's projected probability is the product
   * of the projected probabilities: P(x ∧ y) = P(x) P(y).
   */
  lemma MultiplyProjection(o: OpinionNoBase, other: OpinionNoBase, baseThis: real, baseOther: real)
    requires Binomial(o) && Binomial(other) && ProductBaseRate(baseThis, baseOther) != 1.0
    ensures BinomialProjection(Multiply(o, other, baseThis, baseOther), ProductBaseRate(baseThis, baseOther))
         == ProbabilityAnd(BinomialProjection(o, baseThis), BinomialProjection(other, baseOther))
  {
    MultiplyUncertainty(o, other, baseThis, baseOther);
    ProductProjection(baseThis, baseOther, Belief(o), Uncertainty(o), Belief(other), Uncertainty(other));
  }

  /**
   * The coproduct's disbelief, projected with base rate a + a' - a a', is the
   * product of the projected disbeliefs of its factors.
   */
  lemma ComultiplyDisbeliefProjection(o: OpinionNoBase, other: OpinionNoBase, baseThis: real, baseOther: real)
    requires Binomial(o) && Binomial(other) && CoproductBaseRate(baseThis, baseOther) != 0.0
    ensures Projected(Disbelief(Comultiply(o, other, baseThis, baseOther)), Uncertainty(Comultiply(o, other, baseThis, baseOther)),
                      1.0 - CoproductBaseRate(baseThis, baseOther))
         == Projected(Disbelief(o), Uncertainty(o), 1.0 - baseThis) * Projected(Disbelief(other), Uncertainty(other), 1.0 - baseOther)
  {
    ComultiplyUncertainty(o, other, baseThis, baseOther);
    CoproductProjection(baseThis, baseOther, Disbelief(o), Uncertainty(o), Disbelief(other), Uncertainty(other));
  }

  /** With base rate a + a' - a a', the coproduct's projected probability is P(x ∨ y) = P(x) + P(y) - P(x) P(y). */
  lemma ComultiplyProjection(o: OpinionNoBase, other: OpinionNoBase, baseThis: real, baseOther: real)
    requires Binomial(o) && Binomial(other) && CoproductBaseRate(baseThis, baseOther) != 0.0
    ensures BinomialProjection(Comultiply(o, other, baseThis, baseOther), CoproductBaseRate(baseThis, baseOther))
         == ProbabilityOr(BinomialProjection(o, baseThis), BinomialProjection(other, baseOther))
  {
    var r := Comultiply(o, other, baseThis, baseOther);
    BinomialMasses(o);
    BinomialMasses(other);
    BinomialMasses(r);
    ComultiplyDisbeliefProjection(o, other, baseThis, baseOther);
    CoproductProbability(baseThis, baseOther, Belief(o), Disbelief(o), Uncertainty(o), Belief(other), Disbelief(other), Uncertainty(other),
                         Belief(r), Disbelief(r), Uncertainty(r),
                         BinomialProjection(o, baseThis), BinomialProjection(other, baseOther),
                         BinomialProjection(r, CoproductBaseRate(baseThis, baseOther)));
  }

  // ---------------------------------------------------------------------
  // Pairwise fusion and unfusion.
  // ---------------------------------------------------------------------

  /** (p_i + q_i) / 2: the fallback of every fusion when its denominator vanishes. */
  function Mean(p: seq<real>, q: seq<real>): (r: seq<real>)
    requires |p| == |q|
    ensures |r| == |p|
  {
    seq(|p|, i requires 0 <= i < |p| => (p[i] + q[i]) / 2.0)
  }

  lemma SumMean(p: seq<real>, q: seq<real>)
    requires |p| == |q|
    ensures Sum(Mean(p, q)) == (Sum(p) + Sum(q)) / 2.0
  {
    SumLinear(p, q, Mean(p, q), 0.5, 0.5);
  }

  /** (b_i w' + b'_i w) / denom. */
  function Weighted(o: OpinionNoBase, other: OpinionNoBase, w: real, w': real, denom: real): (r: seq<real>)
    requires |other.masses| == |o.masses| && denom != 0.0
    ensures |r| == |o.masses|
  {
    seq(|o.masses|, i requires 0 <= i < |o.masses| => Combine(o.masses[i], other.masses[i], w, w', denom))
  }

  /** The masses of a weighted combination sum to the same combination of the sums. */
  lemma WeightedSum(o: OpinionNoBase, other: OpinionNoBase, w: real, w': real, denom: real)
    requires |other.masses| == |o.masses| && denom != 0.0
    ensures Sum(Weighted(o, other, w, w', denom)) == Combine(Sum(o.masses), Sum(other.masses), w, w', denom)
  {
    var r := Weighted(o, other, w, w', denom);
    forall i | 0 <= i < |r|
      ensures r[i] == (w' / denom) * o.masses[i] + (w / denom) * other.masses[i]
    {
    }
    SumLinear(o.masses, other.masses, r, w' / denom, w / denom);
  }

  function CumDenom(o: OpinionNoBase, other: OpinionNoBase): real
  {
    CumulativeDenominator(Uncertainty(o), Uncertainty(other))
  }

  /**
   * cum_fuse_(other): with D = u + u' - u u', b_i := (b_i u' + b'_i u) / D,
   * or the mean of the masses when |D| < EPS.
   */
  function CumFuse(o: OpinionNoBase, other: OpinionNoBase): (r: OpinionNoBase)
    requires |other.masses| == |o.masses|
    ensures |r.masses| == |o.masses|
  {
    var denom := CumDenom(o, other);
    if Abs(denom) < EPS then OpinionNoBase(Mean(o.masses, other.masses))
    else OpinionNoBase(Weighted(o, other, Uncertainty(o), Uncertainty(other), denom))
  }

  function CumUnfuseDenom(o: OpinionNoBase, other: OpinionNoBase): real
  {
    CumulativeUnfuseDenominator(Uncertainty(o), Uncertainty(other))
  }

  /**
   * cum_unfuse_(other): with D = u' - u + u' u, b_i := (b_i u' - b'_i u) / D,
   * or the mean of the masses when |D| < EPS.
   */
  function CumUnfuse(o: OpinionNoBase, other: OpinionNoBase): (r: OpinionNoBase)
    requires |other.masses| == |o.masses|
    ensures |r.masses| == |o.masses|
  {
    var denom := CumUnfuseDenom(o, other);
    if Abs(denom) < EPS then OpinionNoBase(Mean(o.masses, other.masses))
    else OpinionNoBase(Weighted(o, other, -Uncertainty(o), Uncertainty(other), denom))
  }

  /** Cumulative fusion is symmetric in its arguments. */
  lemma CumFuseCommutative(o: OpinionNoBase, other: OpinionNoBase)
    requires |other.masses| == |o.masses|
    ensures CumFuse(o, other) == CumFuse(other, o)
  {
    assert CumDenom(o, other) == CumDenom(other, o);
    assert CumFuse(o, other).masses == CumFuse(other, o).masses;
  }

  /** Outside the fallback the fused uncertainty is u u' / (u + u' - u u'). */
  lemma CumFuseUncertainty(o: OpinionNoBase, other: OpinionNoBase)
    requires |other.masses| == |o.masses|
    requires Abs(CumDenom(o, other)) >= EPS
    ensures Uncertainty(CumFuse(o, other)) == CumulativeFusedUncertainty(Uncertainty(o), Uncertainty(other))
  {
    NotNearZero(CumDenom(o, other));
    WeightedSum(o, other, Uncertainty(o), Uncertainty(other), CumDenom(o, other));
    CumulativeRemaining(Uncertainty(o), Uncertainty(other), Sum(o.masses), Sum(other.masses));
  }

  /** Fusing with the vacuous opinion changes nothing. */
  lemma CumFuseVacuousIdentity(o: OpinionNoBase)
    ensures CumFuse(o, VacuousBeliefOpinion(|o.masses|)) == o
  {
    var v := VacuousBeliefOpinion(|o.masses|);
    VacuousIsFullyUncertain(|o.masses|);
    assert CumDenom(o, v) == 1.0;
    assert CumFuse(o, v).masses == o.masses;
  }

  /** x.cum_fuse(y).cum_unfuse(y) == x whenever neither step takes its fallback. */
  lemma CumFuseUnfuseRoundTrip(o: OpinionNoBase, other: OpinionNoBase)
    requires |other.masses| == |o.masses|
    requires Abs(CumDenom(o, other)) >= EPS
    requires Abs(CumUnfuseDenom(CumFuse(o, other), other)) >= EPS
    ensures CumUnfuse(CumFuse(o, other), other) == o
  {
    NotNearZero(CumDenom(o, other));
    NotNearZero(CumUnfuseDenom(CumFuse(o, other), other));
    CumFuseUncertainty(o, other);
    forall i | 0 <= i < |o.masses|
      ensures CumUnfuse(CumFuse(o, other), other).masses[i] == o.masses[i]
    {
      CumulativeInverse(o.masses[i], other.masses[i], Uncertainty(o), Uncertainty(other), Uncertainty(CumFuse(o, other)));
    }
    assert CumUnfuse(CumFuse(o, other), other).masses == o.masses;
  }

  // ---------------------------------------------------------------------
  // Belief-constraint fusion.
  // ---------------------------------------------------------------------

  /** harmony(other)_i = b_i u' + b'_i u + b_i b'_i. */
  function Harmony(o: OpinionNoBase, other: OpinionNoBase): (r: seq<real>)
    requires |other.masses| == |o.masses|
    ensures |r| == |o.masses|
  {
    PairHarmony(o.masses, other.masses, Uncertainty(o), Uncertainty(other))
  }

  /** p_i u' + q_i u + p_i q_i: the harmony of masses p, q with uncertainties u, u'. */
  function PairHarmony(p: seq<real>, q: seq<real>, u: real, u': real): (r: seq<real>)
    requires |p| == |q|
    ensures |r| == |p|
  {
    seq(|p|, i requires 0 <= i < |p| => p[i] * u' + q[i] * u + p[i] * q[i])
  }

  lemma PairHarmonySum(p: seq<real>, q: seq<real>, u: real, u': real)
    requires |p| == |q|
    ensures Sum(PairHarmony(p, q, u, u')) == u' * Sum(p) + u * Sum(q) + Sum(Mul(p, q))
  {
    var w := seq(|p|, i requires 0 <= i < |p| => u' * p[i] + u * q[i]);
    var h := PairHarmony(p, q, u, u');
    SumLinear(p, q, w, u', u);
    SumAdded(w, Mul(p, q), h);
  }

  /** Sum of s over every index but i. */
  function SumExcept(s: seq<real>, i: nat): real
  {
    if |s| == 0 then 0.0
    else SumExcept(s[..|s| - 1], i) + (if |s| - 1 == i then 0.0 else s[|s| - 1])
  }

  lemma {:induction false} SumExceptIsSumMinus(s: seq<real>, i: nat)
    requires i < |s|
    ensures SumExcept(s, i) == Sum(s) - s[i]
  {
    var n := |s| - 1;
    if n == i {
      SumExceptOutside(s[..n], i);
    } else {
      SumExceptIsSumMinus(s[..n], i);
    }
  }

  lemma {:induction false} SumExceptOutside(s: seq<real>, i: nat)
    requires i >= |s|
    ensures SumExcept(s, i) == Sum(s)
  {
    if |s| > 0 {
      SumExceptOutside(s[..|s| - 1], i);
    }
  }

  /** The products b_i b'_j with i != j, summed over j for each i. */
  function ConflictTerms(o: OpinionNoBase, other: OpinionNoBase): (r: seq<real>)
    requires |other.masses| == |o.masses|
    ensures |r| == |o.masses|
  {
    seq(|o.masses|, i requires 0 <= i < |o.masses| => o.masses[i] * SumExcept(other.masses, i))
  }

  /** conflict(other) = sum over i != j of b_i b'_j. */
  function Conflict(o: OpinionNoBase, other: OpinionNoBase): real
    requires |other.masses| == |o.masses|
  {
    Sum(ConflictTerms(o, other))
  }

  /** sum_i b_i b'_i. */
  function Agreement(o: OpinionNoBase, other: OpinionNoBase): real
    requires |other.masses| == |o.masses|
  {
    Sum(Mul(o.masses, other.masses))
  }

  /** conflict = (sum b)(sum b') - sum_i b_i b'_i. */
  lemma ConflictClosedForm(o: OpinionNoBase, other: OpinionNoBase)
    requires |other.masses| == |o.masses|
    ensures Conflict(o, other) == Sum(o.masses) * Sum(other.masses) - Agreement(o, other)
  {
    var t := ConflictTerms(o, other);
    var m := Mul(o.masses, other.masses);
    var s' := Sum(other.masses);
    forall i | 0 <= i < |t|
      ensures t[i] == s' * o.masses[i] + (-1.0) * m[i]
    {
      SumExceptIsSumMinus(other.masses, i);
    }
    SumLinear(o.masses, m, t, s', -1.0);
  }

  lemma AgreementSymmetric(o: OpinionNoBase, other: OpinionNoBase)
    requires |other.masses| == |o.masses|
    ensures Agreement(o, other) == Agreement(other, o)
  {
    assert Mul(o.masses, other.masses) == Mul(other.masses, o.masses);
  }

  lemma ConflictSymmetric(o: OpinionNoBase, other: OpinionNoBase)
    requires |other.masses| == |o.masses|
    ensures Conflict(o, other) == Conflict(other, o)
  {
    ConflictClosedForm(o, other);
    ConflictClosedForm(other, o);
    AgreementSymmetric(o, other);
  }

  /**
   * conflict() as written: two nested loops over the hypotheses that skip
   * equal indices and accumulate b_i b'_j.
   */
  method ComputeConflict(o: OpinionNoBase, other: OpinionNoBase) returns (conflict: real)
    requires |other.masses| == |o.masses|
    ensures conflict == Sum(o.masses) * Sum(other.masses) - Agreement(o, other)
  {
    var n := |o.masses|;
    var t := ConflictTerms(o, other);
    conflict := 0.0;
    var idx1 := 0;
    while idx1 < n
      invariant 0 <= idx1 <= n
      invariant conflict == Sum(t[..idx1])
    {
      var row := 0.0;
      var idx2 := 0;
      while idx2 < n
        invariant 0 <= idx2 <= n
        invariant row == SumExcept(other.masses[..idx2], idx1)
      {
        assert other.masses[..idx2 + 1][..idx2] == other.masses[..idx2];
        if idx1 != idx2 {
          row := row + other.masses[idx2];
        }
        idx2 := idx2 + 1;
      }
      assert other.masses[..n] == other.masses;
      SumPrefixStep(t, idx1);
      conflict := conflict + o.masses[idx1] * row;
      idx1 := idx1 + 1;
    }
    assert t[..n] == t;
    ConflictClosedForm(o, other);
  }

  /**
   * bc_fuse_(other): masses := harmony / (1 - conflict), or the neutral
   * distribution when |1 - conflict| < EPS.
   */
  function BcFuse(o: OpinionNoBase, other: OpinionNoBase): (r: OpinionNoBase)
    requires |other.masses| == |o.masses|
    ensures |r.masses| == |o.masses|
  {
    var harmony := Harmony(o, other);
    var conflict := Conflict(o, other);
    if Abs(1.0 - conflict) < EPS then
      if |o.masses| == 0 then OpinionNoBase([]) else NeutralBeliefOpinion(|o.masses|)
    else
      var normalizer := 1.0 - conflict;
      OpinionNoBase(seq(|o.masses|, i requires 0 <= i < |o.masses| => harmony[i] / normalizer))
  }

  /** Total harmony plus conflict is 1 - u u'. */
  lemma HarmonyPlusConflict(o: OpinionNoBase, other: OpinionNoBase)
    requires |other.masses| == |o.masses|
    ensures Sum(Harmony(o, other)) + Conflict(o, other) == 1.0 - Uncertainty(o) * Uncertainty(other)
  {
    HarmonyOf(o, other);
    ConflictOfCertainties(o, other);
    HarmonyTotal(Uncertainty(o), Uncertainty(other), Sum(Harmony(o, other)), Conflict(o, other), Agreement(o, other));
  }

  /** The harmony totals u' (1 - u) + u (1 - u') + the agreement. */
  lemma HarmonyOf(o: OpinionNoBase, other: OpinionNoBase)
    requires |other.masses| == |o.masses|
    ensures Sum(Harmony(o, other))
         == Uncertainty(other) * (1.0 - Uncertainty(o)) + Uncertainty(o) * (1.0 - Uncertainty(other)) + Agreement(o, other)
  {
    PairHarmonySum(o.masses, other.masses, Uncertainty(o), Uncertainty(other));
  }

  /** The conflict is (1 - u)(1 - u') less the agreement. */
  lemma ConflictOfCertainties(o: OpinionNoBase, other: OpinionNoBase)
    requires |other.masses| == |o.masses|
    ensures Conflict(o, other) == (1.0 - Uncertainty(o)) * (1.0 - Uncertainty(other)) - Agreement(o, other)
  {
    ConflictClosedForm(o, other);
  }

  /** Outside the fallback the constrained fusion leaves uncertainty u u' / (1 - conflict). */
  lemma BcFuseUncertainty(o: OpinionNoBase, other: OpinionNoBase)
    requires |other.masses| == |o.masses|
    requires Abs(1.0 - Conflict(o, other)) >= EPS
    ensures Uncertainty(BcFuse(o, other)) == Uncertainty(o) * Uncertainty(other) / (1.0 - Conflict(o, other))
  {
    var c := Conflict(o, other);
    SumDivided(Harmony(o, other), BcFuse(o, other).masses, 1.0 - c);
    HarmonyPlusConflict(o, other);
    OneMinusQuotient(Uncertainty(o) * Uncertainty(other), 1.0 - c);
  }

  /** Two opposite dogmatic opinions are in total conflict: the result is neutral. */
  lemma BcFuseTotalConflict()
    ensures BcFuse(OpinionNoBase([1.0, 0.0]), OpinionNoBase([0.0, 1.0])) == OpinionNoBase([0.5, 0.5])
  {
    var x, y := OpinionNoBase([1.0, 0.0]), OpinionNoBase([0.0, 1.0]);
    ConflictClosedForm(x, y);
    SumOfTwo(x.masses);
    SumOfTwo(y.masses);
    SumOfTwo(Mul(x.masses, y.masses));
    assert Conflict(x, y) == 1.0;
    assert NeutralBeliefDistr(2) == [0.5, 0.5];
  }

  /**
   * Belief-constraint fusion is commutative: conflict and harmony are both
   * symmetric, so the fallback and the normalised harmony agree.
   */
  lemma BcFuseCommutative(o: OpinionNoBase, other: OpinionNoBase)
    requires |other.masses| == |o.masses|
    ensures BcFuse(o, other) == BcFuse(other, o)
  {
    ConflictSymmetric(o, other);
    assert Harmony(o, other) == Harmony(other, o);
  }

  // ---------------------------------------------------------------------
  // Averaging fusion and unfusion.
  // ---------------------------------------------------------------------

  /**
   * average_fuse_(other): with D = u + u', b_i := (b_i u' + b'_i u) / D,
   * or the mean when |D| < EPS.
   */
  function AverageFuse(o: OpinionNoBase, other: OpinionNoBase): (r: OpinionNoBase)
    requires |other.masses| == |o.masses|
    ensures |r.masses| == |o.masses|
  {
    var denom := AveragingDenominator(Uncertainty(o), Uncertainty(other));
    if Abs(denom) < EPS then OpinionNoBase(Mean(o.masses, other.masses))
    else OpinionNoBase(Weighted(o, other, Uncertainty(o), Uncertainty(other), denom))
  }

  lemma AverageFuseCommutative(o: OpinionNoBase, other: OpinionNoBase)
    requires |other.masses| == |o.masses|
    ensures AverageFuse(o, other) == AverageFuse(other, o)
  {
    assert AverageFuse(o, other).masses == AverageFuse(other, o).masses;
  }

  /** Outside the fallback the averaged uncertainty is 2 u u' / (u + u'). */
  lemma AverageFuseUncertainty(o: OpinionNoBase, other: OpinionNoBase)
    requires |other.masses| == |o.masses|
    requires Abs(AveragingDenominator(Uncertainty(o), Uncertainty(other))) >= EPS
    ensures Uncertainty(AverageFuse(o, other)) == AveragingFusedUncertainty(Uncertainty(o), Uncertainty(other))
  {
    NotNearZero(AveragingDenominator(Uncertainty(o), Uncertainty(other)));
    WeightedSum(o, other, Uncertainty(o), Uncertainty(other), AveragingDenominator(Uncertainty(o), Uncertainty(other)));
    AveragingRemaining(Uncertainty(o), Uncertainty(other), Sum(o.masses), Sum(other.masses));
  }

  /**
   * average_unfuse_(other) AS WRITTEN: with D = 2 u' - u,
   * b_i := (2 b_i u' + b'_i u) / D, or the mean when |D| < EPS.
   */
  function AverageUnfuse(o: OpinionNoBase, other: OpinionNoBase): (r: OpinionNoBase)
    requires |other.masses| == |o.masses|
    ensures |r.masses| == |o.masses|
  {
    var denom := AveragingUnfuseDenominator(Uncertainty(o), Uncertainty(other));
    if Abs(denom) < EPS then OpinionNoBase(Mean(o.masses, other.masses))
    else OpinionNoBase(Weighted(o, other, Uncertainty(o), 2.0 * Uncertainty(other), denom))
  }

  /** average_unfuse_ with Jøsang's sign: b_i := (2 b_i u' - b'_i u) / D. */
  function AverageUnfuseCorrected(o: OpinionNoBase, other: OpinionNoBase): (r: OpinionNoBase)
    requires |other.masses| == |o.masses|
    ensures |r.masses| == |o.masses|
  {
    var denom := AveragingUnfuseDenominator(Uncertainty(o), Uncertainty(other));
    if Abs(denom) < EPS then OpinionNoBase(Mean(o.masses, other.masses))
    else OpinionNoBase(Weighted(o, other, -Uncertainty(o), 2.0 * Uncertainty(other), denom))
  }

  /** The corrected unfusion undoes averaging fusion whenever neither step takes its fallback. */
  lemma AverageFuseUnfuseRoundTrip(o: OpinionNoBase, other: OpinionNoBase)
    requires |other.masses| == |o.masses|
    requires Abs(AveragingDenominator(Uncertainty(o), Uncertainty(other))) >= EPS
    requires Abs(AveragingUnfuseDenominator(Uncertainty(AverageFuse(o, other)), Uncertainty(other))) >= EPS
    ensures AverageUnfuseCorrected(AverageFuse(o, other), other) == o
  {
    NotNearZero(AveragingDenominator(Uncertainty(o), Uncertainty(other)));
    NotNearZero(AveragingUnfuseDenominator(Uncertainty(AverageFuse(o, other)), Uncertainty(other)));
    AverageFuseUncertainty(o, other);
    forall i | 0 <= i < |o.masses|
      ensures AverageUnfuseCorrected(AverageFuse(o, other), other).masses[i] == o.masses[i]
    {
      AveragingInverse(o.masses[i], other.masses[i], Uncertainty(o), Uncertainty(other), Uncertainty(AverageFuse(o, other)));
    }
    assert AverageUnfuseCorrected(AverageFuse(o, other), other).masses == o.masses;
  }

  /** The unfusion as written does not undo averaging fusion: (0.5, 0) with (0, 0.5). */
  lemma AverageUnfuseAsWrittenBreaksRoundTrip()
    ensures AverageFuse(OpinionNoBase([0.5, 0.0]), OpinionNoBase([0.0, 0.5])) == OpinionNoBase([0.25, 0.25])
    ensures AverageUnfuse(OpinionNoBase([0.25, 0.25]), OpinionNoBase([0.0, 0.5])) == OpinionNoBase([0.5, 1.0])
    ensures AverageUnfuseCorrected(OpinionNoBase([0.25, 0.25]), OpinionNoBase([0.0, 0.5])) == OpinionNoBase([0.5, 0.0])
  {
    var x, y, z := OpinionNoBase([0.5, 0.0]), OpinionNoBase([0.0, 0.5]), OpinionNoBase([0.25, 0.25]);
    SumOfTwo(x.masses);
    SumOfTwo(y.masses);
    SumOfTwo(z.masses);
    assert Uncertainty(x) == 0.5 && Uncertainty(y) == 0.5 && Uncertainty(z) == 0.5;
    assert Weighted(x, y, 0.5, 0.5, 1.0) == [0.25, 0.25];
    assert Weighted(z, y, 0.5, 1.0, 0.5) == [0.5, 1.0];
    assert Weighted(z, y, -0.5, 1.0, 0.5) == [0.5, 0.0];
    assert AverageFuse(OpinionNoBase([0.5, 0.0]), OpinionNoBase([0.0, 0.5])).masses == [0.25, 0.25];
    assert AverageUnfuse(OpinionNoBase([0.25, 0.25]), OpinionNoBase([0.0, 0.5])).masses == [0.5, 1.0];
    assert AverageUnfuseCorrected(OpinionNoBase([0.25, 0.25]), OpinionNoBase([0.0, 0.5])).masses == [0.5, 0.0];
  }

  // ---------------------------------------------------------------------
  // Consensus & compromise and weighted belief fusion.
  // ---------------------------------------------------------------------

  /** The consensus min(b_i, b'_i) (computed with fminf in the library). */
  function Consensus(o: OpinionNoBase, other: OpinionNoBase): (r: seq<real>)
    requires |other.masses| == |o.masses|
    ensures |r| == |o.masses|
  {
    seq(|o.masses|, i requires 0 <= i < |o.masses| => Min(o.masses[i], other.masses[i]))
  }

  /**
   * compromise_i = resA_i u' + resB_i u + resA_i resB_i
   *              + sum over j != i of (resA_i resB_j + resA_j resB_i).
   */
  function Compromise(resA: seq<real>, resB: seq<real>, u: real, u': real): (r: seq<real>)
    requires |resA| == |resB|
    ensures |r| == |resA|
  {
    seq(|resA|, i requires 0 <= i < |resA| =>
      resA[i] * u' + resB[i] * u + resA[i] * resB[i]
      + (resA[i] * SumExcept(resB, i) + resB[i] * SumExcept(resA, i)))
  }

  /** The compromise of the residues b_i - min(b_i, b'_i) and b'_i - min(b_i, b'_i). */
  function CcCompromise(o: OpinionNoBase, other: OpinionNoBase): (r: seq<real>)
    requires |other.masses| == |o.masses|
    ensures |r| == |o.masses|
  {
    var consensus := Consensus(o, other);
    Compromise(Sub(o.masses, consensus), Sub(other.masses, consensus), Uncertainty(o), Uncertainty(other))
  }

  /** c_i + k m_i. */
  function Blend(c: seq<real>, m: seq<real>, k: real): (r: seq<real>)
    requires |c| == |m|
    ensures |r| == |c|
  {
    seq(|c|, i requires 0 <= i < |c| => c[i] + k * m[i])
  }

  lemma BlendSum(c: seq<real>, m: seq<real>, k: real)
    requires |c| == |m|
    ensures Sum(Blend(c, m, k)) == Sum(c) + k * Sum(m)
  {
    var r := Blend(c, m, k);
    forall i | 0 <= i < |r|
      ensures r[i] == 1.0 * c[i] + k * m[i]
    {
    }
    SumLinear(c, m, r, 1.0, k);
  }

  /** (1 - sum(consensus) - u u') / sum(compromise): the scale that leaves uncertainty u u'. */
  function CcNormalization(o: OpinionNoBase, other: OpinionNoBase): real
    requires |other.masses| == |o.masses| && Sum(CcCompromise(o, other)) != 0.0
  {
    (1.0 - Sum(Consensus(o, other)) - Uncertainty(o) * Uncertainty(other)) / Sum(CcCompromise(o, other))
  }

  /**
   * cc_fuse_(other): consensus plus the compromise scaled to the mass
   * 1 - sum(consensus) - u u'; the vacuous opinion when the compromise sums
   * to less than EPS in magnitude.
   */
  function CcFuse(o: OpinionNoBase, other: OpinionNoBase): (r: OpinionNoBase)
    requires |other.masses| == |o.masses|
    ensures |r.masses| == |o.masses|
  {
    var consensus := Consensus(o, other);
    var compromise := CcCompromise(o, other);
    if Abs(Sum(compromise)) < EPS then
      VacuousBeliefOpinion(|o.masses|)
    else
      OpinionNoBase(Blend(consensus, compromise, CcNormalization(o, other)))
  }

  /** Outside the fallback consensus & compromise fusion leaves uncertainty u u'. */
  lemma CcFuseUncertainty(o: OpinionNoBase, other: OpinionNoBase)
    requires |other.masses| == |o.masses|
    requires Abs(Sum(CcCompromise(o, other))) >= EPS
    ensures Uncertainty(CcFuse(o, other)) == Uncertainty(o) * Uncertainty(other)
  {
    NotNearZero(Sum(CcCompromise(o, other)));
    BlendSum(Consensus(o, other), CcCompromise(o, other), CcNormalization(o, other));
    QuotientTimes(1.0 - Sum(Consensus(o, other)) - Uncertainty(o) * Uncertainty(other), Sum(CcCompromise(o, other)));
  }

  /** Two vacuous opinions give the vacuous opinion. */
  lemma CcFuseVacuous(n: nat)
    ensures CcFuse(VacuousBeliefOpinion(n), VacuousBeliefOpinion(n)) == VacuousBeliefOpinion(n)
  {
    var v := VacuousBeliefOpinion(n);
    var consensus := Consensus(v, v);
    var resA := Sub(v.masses, consensus);
    forall i | 0 <= i < n
      ensures resA[i] == 0.0
    {
    }
    var compromise := CcCompromise(v, v);
    forall i | 0 <= i < n
      ensures compromise[i] == 0.0
    {
      SumExceptIsSumMinus(resA, i);
      SumZero(resA);
    }
    SumZero(compromise);
  }

  function WbDenom(o: OpinionNoBase, other: OpinionNoBase): real
  {
    WeightedDenominator(Uncertainty(o), Uncertainty(other))
  }

  /**
   * wb_fuse_(other): with D = u + u' - 2 u u',
   * b_i := (b_i (1 - u) u' + b'_i (1 - u') u) / D; when |D| < EPS the mean
   * if |u u'| < EPS, otherwise the vacuous opinion.
   */
  function WbFuse(o: OpinionNoBase, other: OpinionNoBase): (r: OpinionNoBase)
    requires |other.masses| == |o.masses|
    ensures |r.masses| == |o.masses|
  {
    var u, u' := Uncertainty(o), Uncertainty(other);
    var denom := WbDenom(o, other);
    if Abs(denom) < EPS then
      if Abs(u * u') < EPS then OpinionNoBase(Mean(o.masses, other.masses))
      else VacuousBeliefOpinion(|o.masses|)
    else
      OpinionNoBase(Weighted(o, other, ConfidenceWeight(u', u), ConfidenceWeight(u, u'), denom))
  }

  /** Outside the fallback the weighted fusion leaves Jøsang's (2 - u - u') u u' / D. */
  lemma WbFuseUncertainty(o: OpinionNoBase, other: OpinionNoBase)
    requires |other.masses| == |o.masses|
    requires Abs(WbDenom(o, other)) >= EPS
    ensures Uncertainty(WbFuse(o, other)) == WeightedFusedUncertainty(Uncertainty(o), Uncertainty(other))
  {
    NotNearZero(WbDenom(o, other));
    WeightedSum(o, other, ConfidenceWeight(Uncertainty(other), Uncertainty(o)), ConfidenceWeight(Uncertainty(o), Uncertainty(other)), WbDenom(o, other));
    WeightedRemaining(Uncertainty(o), Uncertainty(other), Sum(o.masses), Sum(other.masses));
  }

  lemma WbFuseVacuous(n: nat)
    ensures WbFuse(VacuousBeliefOpinion(n), VacuousBeliefOpinion(n)) == VacuousBeliefOpinion(n)
  {
    VacuousIsFullyUncertain(n);
  }

  // ---------------------------------------------------------------------
  // Trust discounting.
  // ---------------------------------------------------------------------

  /** trust_discount_(p): every belief mass is multiplied by p. */
  function TrustDiscount(o: OpinionNoBase, p: real): (r: OpinionNoBase)
    ensures |r.masses| == |o.masses|
  {
    OpinionNoBase(Scale(o.masses, p))
  }

  /** The discounted uncertainty is 1 - p (1 - u). */
  lemma TrustDiscountUncertainty(o: OpinionNoBase, p: real)
    ensures Uncertainty(TrustDiscount(o, p)) == 1.0 - p * (1.0 - Uncertainty(o))
  {
    SumScaled(o.masses, TrustDiscount(o, p).masses, p);
  }

  /** Discounting by p in [0, 1] keeps a valid opinion valid. */
  lemma TrustDiscountValid(o: OpinionNoBase, p: real)
    requires IsValid(o) && 0.0 <= p <= 1.0
    ensures IsValid(TrustDiscount(o, p))
  {
    var r := TrustDiscount(o, p);
    forall i | 0 <= i < |r.masses|
      ensures r.masses[i] >= -EPS
    {
      ScaledAtLeast(r.masses[i], o.masses[i], p, -EPS);
    }
    SumScaled(o.masses, r.masses, p);
    MulBelow(Sum(o.masses), p);
  }

  /** Discounting keeps the ratios between masses: b'_i b_j == b'_j b_i. */
  lemma TrustDiscountKeepsRatios(o: OpinionNoBase, p: real, i: nat, j: nat)
    requires i < |o.masses| && j < |o.masses|
    ensures TrustDiscount(o, p).masses[i] * o.masses[j] == TrustDiscount(o, p).masses[j] * o.masses[i]
  {
  }

  /** trust_discount_(trust, a): discount by the trust's binomial projection. */
  function TrustDiscountByTrust(o: OpinionNoBase, trust: OpinionNoBase, baseRate: real): (r: OpinionNoBase)
    requires Binomial(trust)
    ensures r == TrustDiscount(o, BinomialProjection(trust, baseRate))
  {
    TrustDiscount(o, BinomialProjection(trust, baseRate))
  }

  /** (1 - limit) / (1 - u): the smallest factor that keeps u at most limit. */
  function LimitedMinProb(o: OpinionNoBase, limit: real): real
    requires Uncertainty(o) != 1.0
  {
    (1.0 - limit) / (1.0 - Uncertainty(o))
  }

  /**
   * The factor limited_trust_discount_ discounts by: p raised to
   * (1 - limit) / (1 - u) and capped at 1. For u == 1 the floating-point
   * quotient is +infinity (limit < 1), NaN (limit == 1) or -infinity
   * (limit > 1); std::max and std::min then give 1, 1 and min(1, p).
   */
  function LimitedFactor(o: OpinionNoBase, limit: real, p: real): (f: real)
    ensures f <= 1.0
    ensures Uncertainty(o) != 1.0 ==> f >= LimitedMinProb(o, limit) || LimitedMinProb(o, limit) > 1.0
    ensures Uncertainty(o) == 1.0 && limit <= 1.0 ==> f == 1.0
    ensures f == 1.0 || f == p || (Uncertainty(o) != 1.0 && f == LimitedMinProb(o, limit))
  {
    if Uncertainty(o) == 1.0 then
      if limit <= 1.0 then 1.0 else Min(1.0, p)
    else
      Min(1.0, Max(LimitedMinProb(o, limit), p))
  }

  /** limited_trust_discount_(limit, p): trust_discount_ by the limited factor. */
  function LimitedTrustDiscount(o: OpinionNoBase, limit: real, p: real): (r: OpinionNoBase)
    ensures |r.masses| == |o.masses|
  {
    TrustDiscount(o, LimitedFactor(o, limit, p))
  }

  /**
   * With u <= limit the limited discount never leaves more than limit
   * uncertainty, and exactly limit when p had to be raised.
   */
  lemma LimitedTrustDiscountBound(o: OpinionNoBase, limit: real, p: real)
    requires Uncertainty(o) <= limit
    ensures Uncertainty(LimitedTrustDiscount(o, limit, p)) <= limit
    ensures Uncertainty(o) < 1.0 && p < LimitedMinProb(o, limit) ==> Uncertainty(LimitedTrustDiscount(o, limit, p)) == limit
  {
    var u := Uncertainty(o);
    var prob := LimitedFactor(o, limit, p);
    TrustDiscountUncertainty(o, prob);
    if u == 1.0 {
      assert 1.0 - prob * (1.0 - u) == 1.0;
    } else if u < 1.0 {
      var m := LimitedMinProb(o, limit);
      QuotientTimes(1.0 - limit, 1.0 - u);
      QuotientAtMostOne(1.0 - limit, 1.0 - u);
      MulMonotone(prob, m, 1.0 - u);
    } else {
      assert 1.0 - prob * (1.0 - u) == 1.0 + prob * (u - 1.0);
      MulMonotone(1.0, prob, u - 1.0);
    }
  }

  /** With limit < u <= 1 the limited discount keeps the opinion unchanged. */
  lemma LimitedTrustDiscountAboveLimit(o: OpinionNoBase, limit: real, p: real)
    requires limit < Uncertainty(o) <= 1.0
    ensures LimitedTrustDiscount(o, limit, p) == o
  {
    if Uncertainty(o) != 1.0 {
      QuotientAboveOne(1.0 - limit, 1.0 - Uncertainty(o));
    }
    assert Scale(o.masses, 1.0) == o.masses;
  }

  /**
   * A vacuous opinion, all of whose masses are zero, is left unchanged by
   * every limit and every p.
   */
  lemma LimitedTrustDiscountVacuous(o: OpinionNoBase, limit: real, p: real)
    requires forall i :: 0 <= i < |o.masses| ==> o.masses[i] == 0.0
    ensures Uncertainty(o) == 1.0
    ensures LimitedTrustDiscount(o, limit, p) == o
  {
    SumZero(o.masses);
    var r := LimitedTrustDiscount(o, limit, p);
    assert r.masses == o.masses;
  }

  function LimitedTrustDiscountByTrust(o: OpinionNoBase, limit: real, trust: OpinionNoBase, baseRate: real): (r: OpinionNoBase)
    requires Binomial(trust)
    ensures r == LimitedTrustDiscount(o, limit, BinomialProjection(trust, baseRate))
  {
    LimitedTrustDiscount(o, limit, BinomialProjection(trust, baseRate))
  }

  // ---------------------------------------------------------------------
  // Reduction and equality.
  // ---------------------------------------------------------------------

  /** Each mass accumulated into its mapped hypothesis, over the first |b| entries. */
  function Reduce(b: seq<real>, reduction: seq<nat>, newN: nat): (out: seq<real>)
    requires |reduction| == |b|
    requires forall i :: 0 <= i < |reduction| ==> reduction[i] < newN
    ensures |out| == newN
  {
    if |b| == 0 then Constant(newN, 0.0)
    else
      var n := |b| - 1;
      var prev := Reduce(b[..n], reduction[..n], newN);
      prev[reduction[n] := prev[reduction[n]] + b[n]]
  }

  lemma {:induction false} ReduceKeepsTotal(b: seq<real>, reduction: seq<nat>, newN: nat)
    requires |reduction| == |b|
    requires forall i :: 0 <= i < |reduction| ==> reduction[i] < newN
    ensures Sum(Reduce(b, reduction, newN)) == Sum(b)
  {
    if |b| == 0 {
      SumConstant(newN, 0.0);
    } else {
      var n := |b| - 1;
      var prev := Reduce(b[..n], reduction[..n], newN);
      ReduceKeepsTotal(b[..n], reduction[..n], newN);
      SumUpdate(prev, reduction[n], b[n]);
    }
  }

  /** Adding x to one entry adds x to the sum. */
  lemma {:induction false} SumUpdate(s: seq<real>, k: nat, x: real)
    requires k < |s|
    ensures Sum(s[k := s[k] + x]) == Sum(s) + x
  {
    var t := s[k := s[k] + x];
    var n := |s| - 1;
    if k == n {
      assert t[..n] == s[..n];
    } else {
      assert t[..n] == s[..n][k := s[k] + x];
      SumUpdate(s[..n], k, x);
    }
  }

  /**
   * getReducedOpinion<newN>(map): out[map[i]] += b[i] over every i; the
   * library asserts map[i] < newN and requires N != 2 and newN < N.
   */
  method GetReducedOpinion(o: OpinionNoBase, reduction: seq<nat>, newN: nat) returns (r: OpinionNoBase)
    requires !Binomial(o) && newN < |o.masses|
    requires |reduction| == |o.masses|
    requires forall i :: 0 <= i < |reduction| ==> reduction[i] < newN
    ensures r.masses == Reduce(o.masses, reduction, newN)
    ensures Uncertainty(r) == Uncertainty(o)
  {
    var out := Constant(newN, 0.0);
    var idx := 0;
    while idx < |o.masses|
      invariant 0 <= idx <= |o.masses|
      invariant out == Reduce(o.masses[..idx], reduction[..idx], newN)
    {
      assert o.masses[..idx + 1][..idx] == o.masses[..idx];
      assert reduction[..idx + 1][..idx] == reduction[..idx];
      var newHypothesis := reduction[idx];
      out := out[newHypothesis := out[newHypothesis] + o.masses[idx]];
      idx := idx + 1;
    }
    assert o.masses[..idx] == o.masses && reduction[..idx] == reduction;
    r := OpinionNoBase(out);
    ReduceKeepsTotal(o.masses, reduction, newN);
  }

  /** operator==: the summed absolute mass difference is below EPS. */
  predicate Equal(o: OpinionNoBase, other: OpinionNoBase)
    requires |other.masses| == |o.masses|
  {
    L1(o.masses, other.masses) < EPS
  }

  /** The loop of operator==: sum over idx of |p[idx] - q[idx]|. */
  method SummedAbsDifference(p: seq<real>, q: seq<real>) returns (diff: real)
    requires |p| == |q|
    ensures diff == L1(p, q)
  {
    diff := 0.0;
    var idx := 0;
    while idx < |p|
      invariant 0 <= idx <= |p|
      invariant diff == Sum(AbsDiff(p, q)[..idx])
    {
      SumPrefixStep(AbsDiff(p, q), idx);
      diff := diff + Abs(p[idx] - q[idx]);
      idx := idx + 1;
    }
    assert AbsDiff(p, q)[..idx] == AbsDiff(p, q);
  }

  /** operator== as the library computes it. */
  method IsEqual(o: OpinionNoBase, other: OpinionNoBase) returns (equal: bool)
    requires |other.masses| == |o.masses|
    ensures equal == Equal(o, other)
  {
    var diff := SummedAbsDifference(o.masses, other.masses);
    equal := diff < EPS;
  }

  lemma EqualReflexiveSymmetric(o: OpinionNoBase, other: OpinionNoBase)
    requires |other.masses| == |o.masses|
    ensures Equal(o, o)
    ensures Equal(o, other) == Equal(other, o)
  {
    L1Self(o.masses);
    EpsPositive();
    L1Symmetric(o.masses, other.masses);
  }

  /** Equal opinions differ by less than EPS in every single mass. */
  lemma {:induction false} EqualMassesClose(o: OpinionNoBase, other: OpinionNoBase, i: nat)
    requires |other.masses| == |o.masses| && i < |o.masses|
    requires Equal(o, other)
    ensures Abs(o.masses[i] - other.masses[i]) < EPS
  {
    var d := AbsDiff(o.masses, other.masses);
    var single := seq(|o.masses|, k requires 0 <= k < |o.masses| => if k == i then d[i] else 0.0);
    SumSingle(single, i);
    SumMonotone(single, d);
  }
}
