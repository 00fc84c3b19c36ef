/**
 * Fusion: multi-source fusion of a list of opinions (cumulative, belief
 * constraint, averaging). The functions specify the fused belief masses of
 * a list of OpinionNoBase values and the fused Opinion<N>; the methods
 * model fuse_opinions for Opinion<N> step by step and are proved equal to
 * the functions.
 */
module Fusion {
  import opened Util
  import opened CudaArray
  import opened Algebra
  import N = NoBaseOpinions
  import O = Opinions

  datatype FusionType = Cumulative | BeliefConstraint | Average | Weighted

  /** The message of the logic_error thrown for WEIGHTED (enumerator 3). */
  const WeightedError: string := "MultiSource fusion is not yet implemented for: 3"

  // ---------------------------------------------------------------------
  // Sums over a list of rows.
  // ---------------------------------------------------------------------

  /** Every row has n entries. */
  predicate Rectangular(rows: seq<seq<real>>, n: nat)
  {
    forall i :: 0 <= i < |rows| ==> |rows[i]| == n
  }

  /** Entry k of every row. */
  function Column(rows: seq<seq<real>>, k: nat): (c: seq<real>)
    requires forall i :: 0 <= i < |rows| ==> k < |rows[i]|
    ensures |c| == |rows|
  {
    seq(|rows|, i requires 0 <= i < |rows| => rows[i][k])
  }

  /** The entry-wise sum of the rows: entry k is the sum of column k. */
  function ColumnSums(rows: seq<seq<real>>, n: nat): (r: seq<real>)
    requires Rectangular(rows, n)
    ensures |r| == n
  {
    seq(n, k requires 0 <= k < n => Sum(Column(rows, k)))
  }

  /** The sum of each row. */
  function RowTotals(rows: seq<seq<real>>): (r: seq<real>)
    ensures |r| == |rows|
  {
    seq(|rows|, i requires 0 <= i < |rows| => Sum(rows[i]))
  }

  /** Adding one more row adds it entry-wise to the column sums. */
  lemma ColumnSumsStep(rows: seq<seq<real>>, n: nat, j: nat)
    requires Rectangular(rows, n) && j < |rows|
    ensures ColumnSums(rows[..j + 1], n) == Add(ColumnSums(rows[..j], n), rows[j])
  {
    forall k | 0 <= k < n
      ensures ColumnSums(rows[..j + 1], n)[k] == ColumnSums(rows[..j], n)[k] + rows[j][k]
    {
      assert Column(rows[..j + 1], k)[..j] == Column(rows[..j], k);
    }
  }

  /** Summing by columns or by rows gives the same total. */
  lemma {:induction false} ColumnSumsTotal(rows: seq<seq<real>>, n: nat)
    requires Rectangular(rows, n)
    ensures Sum(ColumnSums(rows, n)) == Sum(RowTotals(rows))
    decreases |rows|
  {
    var m := |rows|;
    if m == 0 {
      SumZero(ColumnSums(rows, n));
    } else {
      var front := rows[..m - 1];
      ColumnSumsTotal(front, n);
      ColumnSumsStep(rows, n, m - 1);
      assert rows[..m] == rows;
      SumAdded(ColumnSums(front, n), rows[m - 1], ColumnSums(rows, n));
      assert RowTotals(rows)[..m - 1] == RowTotals(front);
    }
  }

  // ---------------------------------------------------------------------
  // The list of opinions.
  // ---------------------------------------------------------------------

  /** Every opinion of the list has n belief masses. */
  predicate Uniform(bs: seq<N.OpinionNoBase>, n: nat)
  {
    forall i :: 0 <= i < |bs| ==> |bs[i].masses| == n
  }

  function Masses(bs: seq<N.OpinionNoBase>): (rows: seq<seq<real>>)
    ensures |rows| == |bs|
  {
    seq(|bs|, i requires 0 <= i < |bs| => bs[i].masses)
  }

  function Uncertainties(bs: seq<N.OpinionNoBase>): (us: seq<real>)
    ensures |us| == |bs|
  {
    seq(|bs|, i requires 0 <= i < |bs| => N.Uncertainty(bs[i]))
  }

  /** |u| < EPS: the opinion is treated as dogmatic. */
  predicate Dogmatic(b: N.OpinionNoBase)
  {
    Abs(N.Uncertainty(b)) < EPS
  }

  predicate AnyDogmatic(bs: seq<N.OpinionNoBase>)
  {
    exists i :: 0 <= i < |bs| && Dogmatic(bs[i])
  }

  /** Without a dogmatic opinion no uncertainty is zero. */
  lemma NoDogmaticNoZero(bs: seq<N.OpinionNoBase>)
    requires !AnyDogmatic(bs)
    ensures NoZero(Uncertainties(bs))
  {
    forall i | 0 <= i < |bs|
      ensures Uncertainties(bs)[i] != 0.0
    {
      assert !Dogmatic(bs[i]);
    }
  }

  /** The dogmatic opinions of the list, in their order. */
  function DogmaticOpinions(bs: seq<N.OpinionNoBase>): (ds: seq<N.OpinionNoBase>)
    ensures |ds| <= |bs|
  {
    if |bs| == 0 then []
    else DogmaticOpinions(bs[..|bs| - 1]) + (if Dogmatic(bs[|bs| - 1]) then [bs[|bs| - 1]] else [])
  }

  /** There is a dogmatic opinion exactly when the filtered list is not empty. */
  lemma {:induction false} DogmaticOpinionsFound(bs: seq<N.OpinionNoBase>, n: nat)
    requires Uniform(bs, n)
    ensures Uniform(DogmaticOpinions(bs), n)
    ensures |DogmaticOpinions(bs)| > 0 <==> AnyDogmatic(bs)
    decreases |bs|
  {
    if |bs| > 0 {
      var m := |bs|;
      var front := bs[..m - 1];
      DogmaticOpinionsFound(front, n);
      if AnyDogmatic(bs) && !Dogmatic(bs[m - 1]) {
        var i :| 0 <= i < m && Dogmatic(bs[i]);
        assert front[i] == bs[i];
      }
    }
  }

  /** The mean of the dogmatic opinions' masses, which the shortcut returns. */
  function DogmaticMean(ds: seq<N.OpinionNoBase>, n: nat): (r: N.OpinionNoBase)
    requires Uniform(ds, n) && |ds| > 0
    ensures |r.masses| == n
  {
    N.OpinionNoBase(DivScalar(ColumnSums(Masses(ds), n), |ds| as real))
  }

  /** The product of the uncertainties, accumulated from 1. */
  function Product(us: seq<real>): real
  {
    if |us| == 0 then 1.0 else Product(us[..|us| - 1]) * us[|us| - 1]
  }

  /** The masses of one opinion, each weighted by p / u. */
  function SharedRow(b: seq<real>, p: real, u: real): (r: seq<real>)
    requires u != 0.0
    ensures |r| == |b|
  {
    seq(|b|, k requires 0 <= k < |b| => Share(b[k], p, u))
  }

  /** Row i: the masses of opinion i weighted by p / u_i. */
  function SharedRows(bs: seq<N.OpinionNoBase>, us: seq<real>, p: real): (rows: seq<seq<real>>)
    requires |us| == |bs| && NoZero(us)
    ensures |rows| == |bs|
  {
    seq(|bs|, i requires 0 <= i < |bs| => SharedRow(bs[i].masses, p, us[i]))
  }

  /** Numerator of mass k: the sum over i of b_{i,k} p / u_i. */
  function Numerators(bs: seq<N.OpinionNoBase>, us: seq<real>, p: real, n: nat): (r: seq<real>)
    requires Uniform(bs, n) && |us| == |bs| && NoZero(us)
    ensures |r| == n
  {
    ColumnSums(SharedRows(bs, us, p), n)
  }

  /** Denominator of cumulative fusion: the sum of p / u_i, less (m - 1) p. */
  function CumulativeNormalizer(us: seq<real>, p: real): real
    requires NoZero(us)
  {
    Sum(ScalarOver(p, us)) - (|us| as real - 1.0) * p
  }

  /** Denominator of averaging fusion: the sum of p / u_i. */
  function AverageNormalizer(us: seq<real>, p: real): real
    requires NoZero(us)
  {
    Sum(ScalarOver(p, us))
  }

  /** The product p of the uncertainties of the list. */
  function UncertaintyProduct(bs: seq<N.OpinionNoBase>): real
  {
    Product(Uncertainties(bs))
  }

  /** The denominator the weighted formula of t divides by. */
  function Normalizer(t: FusionType, bs: seq<N.OpinionNoBase>): real
    requires !AnyDogmatic(bs)
  {
    NoDogmaticNoZero(bs);
    var us := Uncertainties(bs);
    if t == Cumulative then CumulativeNormalizer(us, UncertaintyProduct(bs)) else AverageNormalizer(us, UncertaintyProduct(bs))
  }

  /**
   * What the divisions of the fusion need: a non-empty list of opinions
   * with n masses each and, where the weighted formula of cumulative or
   * averaging fusion is used, a non-zero denominator.
   */
  predicate Defined(t: FusionType, bs: seq<N.OpinionNoBase>, n: nat)
  {
    |bs| > 0 && Uniform(bs, n)
    && (|bs| > 1 && !AnyDogmatic(bs) && (t == Cumulative || t == Average) ==> Normalizer(t, bs) != 0.0)
  }

  /** The masses of cumulative or averaging fusion: numerators over the denominator. */
  function WeightedMasses(t: FusionType, bs: seq<N.OpinionNoBase>, n: nat): (r: seq<real>)
    requires Uniform(bs, n) && !AnyDogmatic(bs) && Normalizer(t, bs) != 0.0
    ensures |r| == n
  {
    NoDogmaticNoZero(bs);
    DivScalar(Numerators(bs, Uncertainties(bs), UncertaintyProduct(bs), n), Normalizer(t, bs))
  }

  /** bc_fuse_ applied to acc with every opinion of the list, in order. */
  function BcFold(acc: N.OpinionNoBase, bs: seq<N.OpinionNoBase>): (r: N.OpinionNoBase)
    requires Uniform(bs, |acc.masses|)
    ensures |r.masses| == |acc.masses|
  {
    if |bs| == 0 then acc else N.BcFuse(BcFold(acc, bs[..|bs| - 1]), bs[|bs| - 1])
  }

  /**
   * fuse_opinions on OpinionNoBase: WEIGHTED throws; a single opinion is
   * returned as it is; if any opinion is dogmatic the result is the mean
   * of the dogmatic ones; otherwise the operator of the type is applied.
   */
  function FusedMasses(t: FusionType, bs: seq<N.OpinionNoBase>, n: nat): (r: Result<N.OpinionNoBase>)
    requires Defined(t, bs, n)
    ensures r.Failure? <==> t == Weighted
    ensures r.Success? ==> |r.value.masses| == n
  {
    if t == Weighted then Failure(WeightedError)
    else if |bs| == 1 then Success(bs[0])
    else if AnyDogmatic(bs) then
      DogmaticOpinionsFound(bs, n);
      Success(DogmaticMean(DogmaticOpinions(bs), n))
    else if t == BeliefConstraint then Success(BcFold(N.VacuousBeliefOpinion(n), bs))
    else Success(N.OpinionNoBase(WeightedMasses(t, bs, n)))
  }

  // ---------------------------------------------------------------------
  // Opinion<N>: the prior is averaged.
  // ---------------------------------------------------------------------

  function Bases(os: seq<O.Opinion>): (bs: seq<N.OpinionNoBase>)
    ensures |bs| == |os|
  {
    seq(|os|, i requires 0 <= i < |os| => os[i].base)
  }

  function Priors(os: seq<O.Opinion>): (rows: seq<seq<real>>)
    ensures |rows| == |os|
  {
    seq(|os|, i requires 0 <= i < |os| => os[i].prior)
  }

  /** Every opinion has n belief masses and n prior entries. */
  predicate SizedList(os: seq<O.Opinion>, n: nat)
  {
    forall i :: 0 <= i < |os| ==> |os[i].base.masses| == n && |os[i].prior| == n
  }

  /** average_prior: the entry-wise mean of the priors. */
  function AveragePrior(os: seq<O.Opinion>, n: nat): (r: seq<real>)
    requires SizedList(os, n) && |os| > 0
    ensures |r| == n
  {
    DivScalar(ColumnSums(Priors(os), n), |os| as real)
  }

  /**
   * fuse_opinions on Opinion<N>: the masses are fused as above; a single
   * opinion keeps its prior, the dogmatic shortcut yields the default
   * (neutral) prior and every other result the average prior.
   */
  function Fused(t: FusionType, os: seq<O.Opinion>, n: nat): (r: Result<O.Opinion>)
    requires n > 0 && SizedList(os, n) && Defined(t, Bases(os), n)
    ensures r.Failure? <==> t == Weighted
    ensures r.Success? ==> O.Sized(r.value) && |r.value.prior| == n
  {
    if t == Weighted then Failure(WeightedError)
    else if |os| == 1 then Success(os[0])
    else
      var masses := FusedMasses(t, Bases(os), n).value;
      var prior := if AnyDogmatic(Bases(os)) then N.NeutralBeliefDistr(n) else AveragePrior(os, n);
      Success(O.Opinion(masses, prior))
  }

  // ---------------------------------------------------------------------
  // Properties of the fused masses.
  // ---------------------------------------------------------------------

  /** The masses of the opinions total m minus the sum of their uncertainties. */
  lemma MassTotals(bs: seq<N.OpinionNoBase>, n: nat)
    requires Uniform(bs, n)
    ensures Sum(RowTotals(Masses(bs))) == |bs| as real - Sum(Uncertainties(bs))
  {
    var m := |bs|;
    SumLinear(Constant(m, 1.0), Uncertainties(bs), RowTotals(Masses(bs)), 1.0, -1.0);
    SumConstant(m, 1.0);
  }

  /** The dogmatic shortcut has the mean uncertainty of the opinions it averages. */
  lemma DogmaticMeanUncertainty(ds: seq<N.OpinionNoBase>, n: nat)
    requires Uniform(ds, n) && |ds| > 0
    ensures N.Uncertainty(DogmaticMean(ds, n)) == Sum(Uncertainties(ds)) / |ds| as real
  {
    var m := |ds| as real;
    var cs := ColumnSums(Masses(ds), n);
    ColumnSumsTotal(Masses(ds), n);
    MassTotals(ds, n);
    SumDivided(cs, DogmaticMean(ds, n).masses, m);
    OneMinusQuotient(Sum(Uncertainties(ds)), m);
  }

  /** The mean of dogmatic opinions is dogmatic again. */
  lemma DogmaticMeanIsDogmatic(ds: seq<N.OpinionNoBase>, n: nat)
    requires Uniform(ds, n) && |ds| > 0
    requires forall i :: 0 <= i < |ds| ==> Dogmatic(ds[i])
    ensures Dogmatic(DogmaticMean(ds, n))
  {
    var m := |ds| as real;
    var us := Uncertainties(ds);
    forall i | 0 <= i < |ds|
      ensures -EPS < us[i] < EPS
    {
      assert Dogmatic(ds[i]);
    }
    SumWithin(us, EPS);
    DogmaticMeanUncertainty(ds, n);
    QuotientBelow(Sum(us), m, EPS);
    QuotientBelow(-Sum(us), m, EPS);
    assert -Sum(us) / m == -(Sum(us) / m);
  }

  /** The sum of one opinion's weighted masses is its total mass times p / u. */
  lemma SharedRowSum(b: seq<real>, p: real, u: real)
    requires u != 0.0
    ensures Sum(SharedRow(b, p, u)) == Sum(b) * p / u
  {
    SumScale(b, p);
    SumDivided(Scale(b, p), SharedRow(b, p, u), u);
  }

  /** The weighted masses of an opinion with uncertainty u total p / u - p. */
  lemma SharedRowTotal(b: seq<real>, p: real, u: real)
    requires u != 0.0 && Sum(b) == 1.0 - u
    ensures Sum(SharedRow(b, p, u)) == p / u + -p
  {
    SharedRowSum(b, p, u);
    ShareOfRemaining(Sum(b), p, u);
  }

  /** Row i of the weighted masses totals p / u_i - p. */
  lemma SharedRowTotals(bs: seq<N.OpinionNoBase>, us: seq<real>, p: real)
    requires us == Uncertainties(bs) && NoZero(us)
    ensures RowTotals(SharedRows(bs, us, p)) == Add(ScalarOver(p, us), Constant(|bs|, -p))
  {
    forall i | 0 <= i < |bs|
      ensures RowTotals(SharedRows(bs, us, p))[i] == ScalarOver(p, us)[i] + -p
    {
      SharedRowTotal(bs[i].masses, p, us[i]);
    }
  }

  /** The numerators total the sum of p / u_i less m p. */
  lemma NumeratorsTotal(bs: seq<N.OpinionNoBase>, us: seq<real>, p: real, n: nat)
    requires Uniform(bs, n) && us == Uncertainties(bs) && NoZero(us)
    ensures Sum(Numerators(bs, us, p, n)) == Excess(Sum(ScalarOver(p, us)), |bs| as real, p)
  {
    var m := |bs|;
    var rows := SharedRows(bs, us, p);
    var c := Sum(ScalarOver(p, us));
    ColumnSumsTotal(rows, n);
    assert Sum(Numerators(bs, us, p, n)) == Sum(RowTotals(rows));
    SharedRowTotals(bs, us, p);
    SumAdded(ScalarOver(p, us), Constant(m, -p), RowTotals(rows));
    SumConstant(m, -p);
    assert Sum(RowTotals(rows)) == c + m as real * -p;
    assert m as real * -p == -(m as real * p);
  }

  /** The weighted masses of fusion type t leave 1 - (sum p / u_i - m p) / D uncertain. */
  lemma WeightedMassesLeftover(t: FusionType, bs: seq<N.OpinionNoBase>, n: nat)
    requires Uniform(bs, n) && !AnyDogmatic(bs) && Normalizer(t, bs) != 0.0
    ensures NoZero(Uncertainties(bs))
    ensures 1.0 - Sum(WeightedMasses(t, bs, n))
         == Leftover(Excess(Sum(ScalarOver(UncertaintyProduct(bs), Uncertainties(bs))), |bs| as real, UncertaintyProduct(bs)), Normalizer(t, bs))
  {
    NoDogmaticNoZero(bs);
    var numerators := Numerators(bs, Uncertainties(bs), UncertaintyProduct(bs), n);
    assert WeightedMasses(t, bs, n) == DivScalar(numerators, Normalizer(t, bs));
    SumDivScalar(numerators, Normalizer(t, bs));
    assert 1.0 - Sum(WeightedMasses(t, bs, n)) == Leftover(Sum(numerators), Normalizer(t, bs));
    NumeratorsTotal(bs, Uncertainties(bs), UncertaintyProduct(bs), n);
  }

  /**
   * Cumulative fusion of m non-dogmatic opinions leaves the uncertainty
   * p / D, with p the product of the uncertainties and D its denominator.
   */
  lemma CumulativeUncertainty(bs: seq<N.OpinionNoBase>, n: nat)
    requires Defined(Cumulative, bs, n) && |bs| > 1 && !AnyDogmatic(bs)
    ensures N.Uncertainty(FusedMasses(Cumulative, bs, n).value)
         == CumulativeListUncertainty(UncertaintyProduct(bs), Normalizer(Cumulative, bs))
  {
    assert FusedMasses(Cumulative, bs, n).value.masses == WeightedMasses(Cumulative, bs, n);
    WeightedMassesLeftover(Cumulative, bs, n);
    var c := Sum(ScalarOver(UncertaintyProduct(bs), Uncertainties(bs)));
    CumulativeListRemaining(Excess(c, |bs| as real, UncertaintyProduct(bs)), Normalizer(Cumulative, bs), c, |bs| as real, UncertaintyProduct(bs));
  }

  /**
   * Averaging fusion of m non-dogmatic opinions leaves the uncertainty
   * m p / D, with p the product of the uncertainties and D its denominator.
   */
  lemma AverageUncertainty(bs: seq<N.OpinionNoBase>, n: nat)
    requires Defined(Average, bs, n) && |bs| > 1 && !AnyDogmatic(bs)
    ensures N.Uncertainty(FusedMasses(Average, bs, n).value)
         == AverageListUncertainty(|bs| as real, UncertaintyProduct(bs), Normalizer(Average, bs))
  {
    assert FusedMasses(Average, bs, n).value.masses == WeightedMasses(Average, bs, n);
    WeightedMassesLeftover(Average, bs, n);
    var c := Sum(ScalarOver(UncertaintyProduct(bs), Uncertainties(bs)));
    AverageListRemaining(Excess(c, |bs| as real, UncertaintyProduct(bs)), Normalizer(Average, bs), c, |bs| as real, UncertaintyProduct(bs));
  }

  /** A product of positive uncertainties is positive. */
  lemma {:induction false} ProductPositive(us: seq<real>)
    requires forall i :: 0 <= i < |us| ==> us[i] > 0.0
    ensures Product(us) > 0.0
    decreases |us|
  {
    if |us| > 0 {
      ProductPositive(us[..|us| - 1]);
      PositiveProduct(Product(us[..|us| - 1]), us[|us| - 1]);
    }
  }

  /** With every u_i in (0, 1] and p > 0, the sum of p / u_i is at least m p. */
  lemma CofactorsAtLeast(us: seq<real>, p: real)
    requires p > 0.0 && forall i :: 0 <= i < |us| ==> 0.0 < us[i] <= 1.0
    ensures NoZero(us) && Sum(ScalarOver(p, us)) >= |us| as real * p
  {
    forall i | 0 <= i < |us|
      ensures Constant(|us|, p)[i] <= ScalarOver(p, us)[i]
    {
      CofactorAtLeast(p, us[i]);
    }
    SumMonotone(Constant(|us|, p), ScalarOver(p, us));
    SumConstant(|us|, p);
  }

  /** Uncertainties of at least EPS rule out the dogmatic shortcut. */
  lemma NoneDogmatic(bs: seq<N.OpinionNoBase>)
    requires forall i :: 0 <= i < |bs| ==> EPS <= N.Uncertainty(bs[i]) <= 1.0
    ensures !AnyDogmatic(bs)
    ensures forall i :: 0 <= i < |bs| ==> 0.0 < Uncertainties(bs)[i] <= 1.0
  {
    forall i | 0 <= i < |bs|
      ensures !Dogmatic(bs[i])
    {
    }
  }

  /**
   * Uncertainties between EPS and 1 keep both denominators positive, so
   * cumulative and averaging fusion are defined for such a list.
   */
  lemma NormalizersPositive(bs: seq<N.OpinionNoBase>, n: nat)
    requires Uniform(bs, n) && |bs| > 0
    requires forall i :: 0 <= i < |bs| ==> EPS <= N.Uncertainty(bs[i]) <= 1.0
    ensures !AnyDogmatic(bs)
    ensures Normalizer(Cumulative, bs) > 0.0 && Normalizer(Average, bs) > 0.0
    ensures Defined(Cumulative, bs, n) && Defined(Average, bs, n)
  {
    NoneDogmatic(bs);
    var us := Uncertainties(bs);
    var p := UncertaintyProduct(bs);
    ProductPositive(us);
    CofactorsAtLeast(us, p);
    MulMonotone(|us| as real, 1.0, p);
  }

  /** The average prior of distributions is a distribution. */
  lemma AveragePriorIsDistribution(os: seq<O.Opinion>, n: nat)
    requires SizedList(os, n) && |os| > 0
    requires forall i :: 0 <= i < |os| ==> Sum(os[i].prior) == 1.0
    ensures Sum(AveragePrior(os, n)) == 1.0
  {
    var m := |os|;
    ColumnSumsTotal(Priors(os), n);
    assert RowTotals(Priors(os)) == Constant(m, 1.0);
    SumConstant(m, 1.0);
    SumDivided(ColumnSums(Priors(os), n), AveragePrior(os, n), m as real);
  }

  /** Fusing opinions whose priors are distributions yields a prior distribution. */
  lemma FusedPriorIsDistribution(t: FusionType, os: seq<O.Opinion>, n: nat)
    requires n > 0 && SizedList(os, n) && Defined(t, Bases(os), n) && t != Weighted
    requires forall i :: 0 <= i < |os| ==> Sum(os[i].prior) == 1.0
    ensures Sum(Fused(t, os, n).value.prior) == 1.0
  {
    if |os| > 1 {
      if AnyDogmatic(Bases(os)) {
        N.NeutralIsDogmatic(n);
      } else {
        AveragePriorIsDistribution(os, n);
      }
    }
  }

  // ---------------------------------------------------------------------
  // Two opinions: the list operators agree with the pairwise ones.
  // ---------------------------------------------------------------------

  /** Two non-dogmatic opinions have the uncertainty product u u' and no zero uncertainty. */
  lemma PairUncertainties(a: N.OpinionNoBase, b: N.OpinionNoBase)
    requires !Dogmatic(a) && !Dogmatic(b)
    ensures !AnyDogmatic([a, b])
    ensures Uncertainties([a, b]) == [N.Uncertainty(a), N.Uncertainty(b)]
    ensures UncertaintyProduct([a, b]) == 1.0 * N.Uncertainty(a) * N.Uncertainty(b)
    ensures N.Uncertainty(a) != 0.0 && N.Uncertainty(b) != 0.0
  {
    var us := Uncertainties([a, b]);
    assert us == [N.Uncertainty(a), N.Uncertainty(b)];
    assert us[..1] == [N.Uncertainty(a)];
    assert Product(us[..1]) == 1.0 * N.Uncertainty(a) by {
      assert us[..1][..0] == [];
    }
    assert !AnyDogmatic([a, b]) by {
      forall i | 0 <= i < 2
        ensures !Dogmatic([a, b][i])
      {
      }
    }
  }

  /** Column k of the weighted rows of two opinions. */
  lemma PairNumerator(a: N.OpinionNoBase, b: N.OpinionNoBase, n: nat, k: nat)
    requires !Dogmatic(a) && !Dogmatic(b) && |a.masses| == n && |b.masses| == n && k < n
    ensures NoZero(Uncertainties([a, b]))
    ensures Numerators([a, b], Uncertainties([a, b]), UncertaintyProduct([a, b]), n)[k]
         == a.masses[k] * N.Uncertainty(b) + b.masses[k] * N.Uncertainty(a)
  {
    PairUncertainties(a, b);
    var us := Uncertainties([a, b]);
    var p := UncertaintyProduct([a, b]);
    var column := Column(SharedRows([a, b], us, p), k);
    N.SumOfTwo(column);
    assert column[0] == Share(a.masses[k], p, us[0]);
    assert column[1] == Share(b.masses[k], p, us[1]);
    ShareOfFirst(a.masses[k], us[0], us[1]);
    ShareOfSecond(b.masses[k], us[0], us[1]);
  }

  /** The cofactors of two uncertainties are u' and u. */
  lemma PairCofactors(a: N.OpinionNoBase, b: N.OpinionNoBase)
    requires !Dogmatic(a) && !Dogmatic(b)
    ensures NoZero(Uncertainties([a, b]))
    ensures Sum(ScalarOver(UncertaintyProduct([a, b]), Uncertainties([a, b]))) == N.Uncertainty(b) + N.Uncertainty(a)
  {
    PairUncertainties(a, b);
    var us := Uncertainties([a, b]);
    var p := UncertaintyProduct([a, b]);
    var ua, ub := N.Uncertainty(a), N.Uncertainty(b);
    N.SumOfTwo(ScalarOver(p, us));
    QuotientEquals(p, ua, ub);
    QuotientEquals(p, ub, ua);
  }

  /** For two opinions, multi-source cumulative fusion is cum_fuse_ (outside its fallback). */
  lemma CumulativePairwise(a: N.OpinionNoBase, b: N.OpinionNoBase, n: nat)
    requires |a.masses| == n && |b.masses| == n
    requires !Dogmatic(a) && !Dogmatic(b) && Abs(N.CumDenom(a, b)) >= EPS
    ensures Defined(Cumulative, [a, b], n)
    ensures FusedMasses(Cumulative, [a, b], n) == Success(N.CumFuse(a, b))
  {
    PairUncertainties(a, b);
    PairCofactors(a, b);
    var ua, ub := N.Uncertainty(a), N.Uncertainty(b);
    var d := N.CumDenom(a, b);
    NotNearZero(d);
    assert Normalizer(Cumulative, [a, b]) == d;
    forall k | 0 <= k < n
      ensures WeightedMasses(Cumulative, [a, b], n)[k] == N.CumFuse(a, b).masses[k]
    {
      PairNumerator(a, b, n, k);
    }
    assert WeightedMasses(Cumulative, [a, b], n) == N.CumFuse(a, b).masses;
  }

  /** For two opinions, multi-source averaging fusion is average_fuse_ (outside its fallback). */
  lemma AveragePairwise(a: N.OpinionNoBase, b: N.OpinionNoBase, n: nat)
    requires |a.masses| == n && |b.masses| == n
    requires !Dogmatic(a) && !Dogmatic(b) && Abs(AveragingDenominator(N.Uncertainty(a), N.Uncertainty(b))) >= EPS
    ensures Defined(Average, [a, b], n)
    ensures FusedMasses(Average, [a, b], n) == Success(N.AverageFuse(a, b))
  {
    PairUncertainties(a, b);
    PairCofactors(a, b);
    var d := AveragingDenominator(N.Uncertainty(a), N.Uncertainty(b));
    NotNearZero(d);
    assert Normalizer(Average, [a, b]) == d;
    forall k | 0 <= k < n
      ensures WeightedMasses(Average, [a, b], n)[k] == N.AverageFuse(a, b).masses[k]
    {
      PairNumerator(a, b, n, k);
    }
    assert WeightedMasses(Average, [a, b], n) == N.AverageFuse(a, b).masses;
  }

  /** bc_fuse_ of the vacuous opinion with o yields o. */
  lemma BcFuseVacuousLeft(o: N.OpinionNoBase)
    ensures N.BcFuse(N.VacuousBeliefOpinion(|o.masses|), o) == o
  {
    var v := N.VacuousBeliefOpinion(|o.masses|);
    N.VacuousIsFullyUncertain(|o.masses|);
    N.ConflictClosedForm(v, o);
    SumZero(v.masses);
    SumZero(Mul(v.masses, o.masses));
    assert N.Conflict(v, o) == 0.0;
    assert N.Harmony(v, o) == o.masses;
    assert N.BcFuse(v, o).masses == o.masses;
  }

  /** Starting from the vacuous opinion, the fold is the fold from the first opinion. */
  lemma {:induction false} BcFoldFromFirst(bs: seq<N.OpinionNoBase>, n: nat)
    requires Uniform(bs, n) && |bs| > 0
    ensures BcFold(N.VacuousBeliefOpinion(n), bs) == BcFold(bs[0], bs[1..])
    decreases |bs|
  {
    var m := |bs|;
    if m == 1 {
      BcFuseVacuousLeft(bs[0]);
      assert bs[..0] == [];
    } else {
      var front := bs[..m - 1];
      BcFoldFromFirst(front, n);
      assert front[1..] == bs[1..][..m - 2];
    }
  }

  /** For two opinions, multi-source belief-constraint fusion is bc_fuse_. */
  lemma BeliefConstraintPairwise(a: N.OpinionNoBase, b: N.OpinionNoBase, n: nat)
    requires |a.masses| == n && |b.masses| == n && !Dogmatic(a) && !Dogmatic(b)
    ensures Defined(BeliefConstraint, [a, b], n)
    ensures FusedMasses(BeliefConstraint, [a, b], n) == Success(N.BcFuse(a, b))
  {
    PairUncertainties(a, b);
    BcFoldFromFirst([a, b], n);
    assert [a, b][1..] == [b];
    assert [b][..0] == [];
  }

  /** For two opinions, multi-source averaging of Opinion<N> is average_fuse_, prior included. */
  lemma AverageOpinionPairwise(x: O.Opinion, y: O.Opinion, n: nat)
    requires n > 0 && O.SameSize(x, y) && |x.prior| == n
    requires !Dogmatic(x.base) && !Dogmatic(y.base)
    requires Abs(AveragingDenominator(O.Uncertainty(x), O.Uncertainty(y))) >= EPS
    ensures SizedList([x, y], n) && Defined(Average, Bases([x, y]), n)
    ensures Fused(Average, [x, y], n) == Success(O.AverageFuse(x, y))
  {
    assert Bases([x, y]) == [x.base, y.base];
    AveragePairwise(x.base, y.base, n);
    forall k | 0 <= k < n
      ensures AveragePrior([x, y], n)[k] == N.Mean(x.prior, y.prior)[k]
    {
      N.SumOfTwo(Column(Priors([x, y]), k));
    }
    assert AveragePrior([x, y], n) == N.Mean(x.prior, y.prior);
    PairUncertainties(x.base, y.base);
  }

  /** For two opinions, multi-source cumulative fusion of Opinion<N> has cum_fuse_'s masses and the mean prior. */
  lemma CumulativeOpinionPairwise(x: O.Opinion, y: O.Opinion, n: nat)
    requires n > 0 && O.SameSize(x, y) && |x.prior| == n
    requires !Dogmatic(x.base) && !Dogmatic(y.base) && Abs(N.CumDenom(x.base, y.base)) >= EPS
    ensures SizedList([x, y], n) && Defined(Cumulative, Bases([x, y]), n)
    ensures Fused(Cumulative, [x, y], n) == Success(O.Opinion(O.CumFuse(x, y).base, N.Mean(x.prior, y.prior)))
  {
    assert Bases([x, y]) == [x.base, y.base];
    CumulativePairwise(x.base, y.base, n);
    forall k | 0 <= k < n
      ensures AveragePrior([x, y], n)[k] == N.Mean(x.prior, y.prior)[k]
    {
      N.SumOfTwo(Column(Priors([x, y]), k));
    }
    assert AveragePrior([x, y], n) == N.Mean(x.prior, y.prior);
    PairUncertainties(x.base, y.base);
  }

  /** The sum of four entries. */
  lemma SumOfFour(s: seq<real>)
    requires |s| == 4
    ensures Sum(s) == s[0] + s[1] + s[2] + s[3]
  {
    N.SumOfThree(s[..3]);
  }

  /**
   * The dogmatic shortcut on the masses (1, 0), (1, 0), (0, 1), (0, 1):
   * whatever the type, the result is the mean of the four, the dogmatic
   * (0.5, 0.5).
   */
  lemma DogmaticShortcutMasses(t: FusionType)
    requires t != Weighted
    ensures var bs := [N.OpinionNoBase([1.0, 0.0]), N.OpinionNoBase([1.0, 0.0]), N.OpinionNoBase([0.0, 1.0]), N.OpinionNoBase([0.0, 1.0])];
            Defined(t, bs, 2) && AnyDogmatic(bs) && FusedMasses(t, bs, 2) == Success(N.OpinionNoBase([0.5, 0.5]))
  {
    var yes, no := N.OpinionNoBase([1.0, 0.0]), N.OpinionNoBase([0.0, 1.0]);
    var bs := [yes, yes, no, no];
    FourVotesDogmatic(yes, no);
    FourVotesMean(yes, no);
  }

  /** The four dogmatic votes of the shortcut example are all kept by the filter. */
  lemma FourVotesDogmatic(yes: N.OpinionNoBase, no: N.OpinionNoBase)
    requires yes == N.OpinionNoBase([1.0, 0.0]) && no == N.OpinionNoBase([0.0, 1.0])
    ensures Uniform([yes, yes, no, no], 2) && AnyDogmatic([yes, yes, no, no])
    ensures DogmaticOpinions([yes, yes, no, no]) == [yes, yes, no, no]
  {
    var bs := [yes, yes, no, no];
    N.SumOfTwo(yes.masses);
    N.SumOfTwo(no.masses);
    EpsPositive();
    assert Dogmatic(yes) && Dogmatic(no);
    assert Dogmatic(bs[0]);
    AllDogmaticKept(bs);
  }

  /** A list of dogmatic opinions passes the filter whole. */
  lemma {:induction false} AllDogmaticKept(bs: seq<N.OpinionNoBase>)
    requires forall i :: 0 <= i < |bs| ==> Dogmatic(bs[i])
    ensures DogmaticOpinions(bs) == bs
    decreases |bs|
  {
    if |bs| > 0 {
      var init, last := bs[..|bs| - 1], bs[|bs| - 1];
      assert forall i :: 0 <= i < |init| ==> init[i] == bs[i];
      AllDogmaticKept(init);
      assert Dogmatic(last);
      assert init + [last] == bs;
    }
  }

  /** The mean of the four votes of the shortcut example is (0.5, 0.5). */
  lemma FourVotesMean(yes: N.OpinionNoBase, no: N.OpinionNoBase)
    requires yes == N.OpinionNoBase([1.0, 0.0]) && no == N.OpinionNoBase([0.0, 1.0])
    ensures Uniform([yes, yes, no, no], 2)
    ensures DogmaticMean([yes, yes, no, no], 2) == N.OpinionNoBase([0.5, 0.5])
  {
    var rows := Masses([yes, yes, no, no]);
    assert Column(rows, 0) == [1.0, 1.0, 0.0, 0.0];
    assert Column(rows, 1) == [0.0, 0.0, 1.0, 1.0];
    SumOfFour(Column(rows, 0));
    SumOfFour(Column(rows, 1));
    assert ColumnSums(rows, 2) == [2.0, 2.0];
    assert DogmaticMean([yes, yes, no, no], 2).masses == [0.5, 0.5];
  }

  /**
   * The same shortcut on Opinion<N>: whatever the type and the input priors,
   * the result is the dogmatic (0.5, 0.5) with the neutral prior, because
   * the prior is averaged only after the shortcut.
   */
  lemma DogmaticShortcutExample(t: FusionType, p0: seq<real>, p1: seq<real>, p2: seq<real>, p3: seq<real>)
    requires t != Weighted && |p0| == 2 && |p1| == 2 && |p2| == 2 && |p3| == 2
    ensures var os := [O.Opinion(N.OpinionNoBase([1.0, 0.0]), p0), O.Opinion(N.OpinionNoBase([1.0, 0.0]), p1),
                       O.Opinion(N.OpinionNoBase([0.0, 1.0]), p2), O.Opinion(N.OpinionNoBase([0.0, 1.0]), p3)];
            SizedList(os, 2) && Defined(t, Bases(os), 2)
            && Fused(t, os, 2) == Success(O.Opinion(N.OpinionNoBase([0.5, 0.5]), [0.5, 0.5]))
  {
    var yes, no := N.OpinionNoBase([1.0, 0.0]), N.OpinionNoBase([0.0, 1.0]);
    var os := [O.Opinion(yes, p0), O.Opinion(yes, p1), O.Opinion(no, p2), O.Opinion(no, p3)];
    assert Bases(os) == [yes, yes, no, no];
    DogmaticShortcutMasses(t);
    assert N.NeutralBeliefDistr(2) == [0.5, 0.5];
  }

  // ---------------------------------------------------------------------
  // fuse_opinions on Opinion<N>, step by step.
  // ---------------------------------------------------------------------

  /** Adds row entry-wise into acc, as the accumulating std::transform calls do. */
  method AddRow(acc: array<real>, row: seq<real>)
    requires acc.Length == |row|
    modifies acc
    ensures acc[..] == Add(old(acc[..]), row)
  {
    for k := 0 to acc.Length
      invariant forall j :: 0 <= j < k ==> acc[j] == old(acc[j]) + row[j]
      invariant forall j :: k <= j < acc.Length ==> acc[j] == old(acc[j])
    {
      acc[k] := acc[k] + row[k];
    }
  }

  /** Divides every entry of acc by d in place. */
  method DivideAll(acc: array<real>, d: real)
    requires d != 0.0
    modifies acc
    ensures acc[..] == DivScalar(old(acc[..]), d)
  {
    for k := 0 to acc.Length
      invariant forall j :: 0 <= j < k ==> acc[j] == old(acc[j]) / d
      invariant forall j :: k <= j < acc.Length ==> acc[j] == old(acc[j])
    {
      acc[k] := acc[k] / d;
    }
  }

  /**
   * The entry-wise mean of rows of n entries: their sum accumulated row by
   * row into zeros, then divided by the number of rows (average_prior and
   * the dogmatic shortcut of preprocess_opinions).
   */
  method MeanOfRows(rows: seq<seq<real>>, n: nat) returns (r: seq<real>)
    requires Rectangular(rows, n) && |rows| > 0
    ensures r == DivScalar(ColumnSums(rows, n), |rows| as real)
  {
    var acc := new real[n](_ => 0.0);
    assert acc[..] == ColumnSums(rows[..0], n);
    for j := 0 to |rows|
      invariant acc[..] == ColumnSums(rows[..j], n)
    {
      ColumnSumsStep(rows, n, j);
      AddRow(acc, rows[j]);
    }
    assert rows[..|rows|] == rows;
    DivideAll(acc, |rows| as real);
    r := acc[..];
  }

  /** A prefix one longer holds a dogmatic opinion when the shorter one does or the new opinion is. */
  lemma AnyDogmaticStep(bs: seq<N.OpinionNoBase>, i: nat)
    requires i < |bs|
    ensures AnyDogmatic(bs[..i + 1]) <==> AnyDogmatic(bs[..i]) || Dogmatic(bs[i])
    ensures DogmaticOpinions(bs[..i + 1]) == DogmaticOpinions(bs[..i]) + (if Dogmatic(bs[i]) then [bs[i]] else [])
  {
    assert bs[..i + 1][..i] == bs[..i];
    if AnyDogmatic(bs[..i + 1]) && !Dogmatic(bs[i]) {
      var j :| 0 <= j < i + 1 && Dogmatic(bs[..i + 1][j]);
      assert bs[..i][j] == bs[j];
    }
    if AnyDogmatic(bs[..i]) {
      var j :| 0 <= j < i && Dogmatic(bs[..i][j]);
      assert bs[..i + 1][j] == bs[j];
    }
    if Dogmatic(bs[i]) {
      assert bs[..i + 1][i] == bs[i];
    }
  }

  /** The uncertainties of the opinions and the dogmatic ones among them, in one pass. */
  method FindDogmatic(os: seq<O.Opinion>) returns (us: seq<real>, near: bool, dogmatic: seq<N.OpinionNoBase>)
    ensures us == Uncertainties(Bases(os))
    ensures near == AnyDogmatic(Bases(os))
    ensures dogmatic == DogmaticOpinions(Bases(os))
  {
    var bs := Bases(os);
    us := Uncertainties(bs);
    near := false;
    dogmatic := [];
    for i := 0 to |os|
      invariant near == AnyDogmatic(bs[..i])
      invariant dogmatic == DogmaticOpinions(bs[..i])
    {
      AnyDogmaticStep(bs, i);
      if Abs(us[i]) < EPS {
        near := true;
        dogmatic := dogmatic + [bs[i]];
      }
    }
    assert bs[..|os|] == bs;
  }

  /**
   * preprocess_opinions: a single opinion is the result; if any opinion is
   * dogmatic the result is the mean of the dogmatic ones with the default
   * prior; otherwise no result yet and the uncertainties of the opinions.
   */
  method PreprocessOpinions(os: seq<O.Opinion>, n: nat) returns (us: seq<real>, pre: Option<O.Opinion>)
    requires n > 0 && |os| > 0 && SizedList(os, n)
    ensures |os| == 1 ==> us == [] && pre == Some(os[0])
    ensures |os| > 1 && AnyDogmatic(Bases(os))
        ==> us == [] && pre == Some(O.Opinion(FusedMasses(Cumulative, Bases(os), n).value, N.NeutralBeliefDistr(n)))
    ensures |os| > 1 && !AnyDogmatic(Bases(os)) ==> us == Uncertainties(Bases(os)) && pre == None
  {
    if |os| == 1 {
      return [], Some(os[0]);
    }
    var near, dogmatic;
    us, near, dogmatic := FindDogmatic(os);
    if near {
      DogmaticOpinionsFound(Bases(os), n);
      var mean := MeanOfRows(Masses(dogmatic), n);
      return [], Some(O.Opinion(N.OpinionNoBase(mean), N.NeutralBeliefDistr(n)));
    }
    pre := None;
  }

  /** std::accumulate with std::multiplies from 1: the product of the uncertainties. */
  method ProductOf(us: seq<real>) returns (p: real)
    ensures p == Product(us)
  {
    p := 1.0;
    for i := 0 to |us|
      invariant p == Product(us[..i])
    {
      assert us[..i + 1][..i] == us[..i];
      p := p * us[i];
    }
    assert us[..|us|] == us;
  }

  /** std::accumulate of p / u_i from 0: the sum of the cofactors. */
  method CofactorSum(us: seq<real>, p: real) returns (c: real)
    requires NoZero(us)
    ensures c == Sum(ScalarOver(p, us))
  {
    c := 0.0;
    for i := 0 to |us|
      invariant c == Sum(ScalarOver(p, us)[..i])
    {
      SumPrefixStep(ScalarOver(p, us), i);
      c := c + p / us[i];
    }
    assert ScalarOver(p, us)[..|us|] == ScalarOver(p, us);
  }

  /**
   * The nested loop shared by the cumulative and averaging operators: mass
   * k of the result accumulates b_{i,k} p / u_i over the opinions i.
   */
  method AccumulateNumerators(os: seq<O.Opinion>, us: seq<real>, p: real, n: nat) returns (acc: array<real>)
    requires SizedList(os, n) && |us| == |os| && NoZero(us)
    ensures fresh(acc) && Uniform(Bases(os), n)
    ensures acc[..] == Numerators(Bases(os), us, p, n)
  {
    var bs := Bases(os);
    var rows := SharedRows(bs, us, p);
    acc := new real[n](_ => 0.0);
    for k := 0 to n
      invariant forall j :: 0 <= j < k ==> acc[j] == Sum(Column(rows, j))
      invariant forall j :: k <= j < n ==> acc[j] == 0.0
    {
      var column := Column(rows, k);
      for i := 0 to |os|
        invariant acc[k] == Sum(column[..i])
        invariant forall j :: 0 <= j < k ==> acc[j] == Sum(Column(rows, j))
        invariant forall j :: k < j < n ==> acc[j] == 0.0
      {
        SumPrefixStep(column, i);
        acc[k] := acc[k] + Share(os[i].base.masses[k], p, us[i]);
      }
      assert column[..|os|] == column;
    }
  }

  /** cumulative_fusion_operator: the numerators over the sum of cofactors less (m - 1) p. */
  method CumulativeOperator(os: seq<O.Opinion>, us: seq<real>, p: real, n: nat) returns (r: O.Opinion)
    requires n > 0 && SizedList(os, n) && |us| == |os| && NoZero(us)
    requires CumulativeNormalizer(us, p) != 0.0
    ensures Uniform(Bases(os), n)
    ensures r.base.masses == DivScalar(Numerators(Bases(os), us, p, n), CumulativeNormalizer(us, p))
  {
    var acc := AccumulateNumerators(os, us, p, n);
    var denom := CofactorSum(us, p);
    denom := denom - (|us| as real - 1.0) * p;
    DivideAll(acc, denom);
    r := O.Opinion(N.OpinionNoBase(acc[..]), N.NeutralBeliefDistr(n));
  }

  /** average_fusion_operator: the numerators over the sum of cofactors. */
  method AverageOperator(os: seq<O.Opinion>, us: seq<real>, p: real, n: nat) returns (r: O.Opinion)
    requires n > 0 && SizedList(os, n) && |us| == |os| && NoZero(us)
    requires AverageNormalizer(us, p) != 0.0
    ensures Uniform(Bases(os), n)
    ensures r.base.masses == DivScalar(Numerators(Bases(os), us, p, n), AverageNormalizer(us, p))
  {
    var acc := AccumulateNumerators(os, us, p, n);
    var denom := CofactorSum(us, p);
    DivideAll(acc, denom);
    r := O.Opinion(N.OpinionNoBase(acc[..]), N.NeutralBeliefDistr(n));
  }

  /** belief_constraint_fusion_operator: bc_fuse_ of the default opinion with each opinion in turn. */
  method BeliefConstraintOperator(os: seq<O.Opinion>, n: nat) returns (r: O.Opinion)
    requires n > 0 && SizedList(os, n)
    ensures Uniform(Bases(os), n)
    ensures r.base == BcFold(N.VacuousBeliefOpinion(n), Bases(os))
  {
    var bs := Bases(os);
    r := O.Default(n);
    for i := 0 to |os|
      invariant O.Sized(r) && |r.prior| == n
      invariant r.base == BcFold(N.VacuousBeliefOpinion(n), bs[..i])
    {
      assert bs[..i + 1][..i] == bs[..i];
      r := O.BcFuse(r, os[i]);
    }
    assert bs[..|os|] == bs;
  }

  /** average_prior: the entry-wise mean of the priors. */
  method ComputeAveragePrior(os: seq<O.Opinion>, n: nat) returns (prior: seq<real>)
    requires SizedList(os, n) && |os| > 0
    ensures prior == AveragePrior(os, n)
  {
    prior := MeanOfRows(Priors(os), n);
  }

  /**
   * fuse_opinions for Opinion<N>: WEIGHTED is refused; otherwise the
   * preprocessing result is returned when there is one, else the operator
   * of the type is applied to the uncertainties and their product, and the
   * prior of the result is the average prior.
   */
  method FuseOpinions(t: FusionType, os: seq<O.Opinion>, n: nat) returns (r: Result<O.Opinion>)
    requires n > 0 && SizedList(os, n) && Defined(t, Bases(os), n)
    ensures r == Fused(t, os, n)
  {
    if t == Weighted {
      return Failure(WeightedError);
    }
    var us, pre := PreprocessOpinions(os, n);
    if pre.Some? {
      return Success(pre.value);
    }
    NoDogmaticNoZero(Bases(os));
    var p := ProductOf(us);
    var fused: O.Opinion;
    if t == Cumulative {
      fused := CumulativeOperator(os, us, p, n);
    } else if t == BeliefConstraint {
      fused := BeliefConstraintOperator(os, n);
    } else {
      fused := AverageOperator(os, us, p, n);
    }
    var prior := ComputeAveragePrior(os, n);
    r := Success(O.Opinion(fused.base, prior));
  }
}
