/**
 * Field identities and closed-form formulas over `real` used by the opinion
 * proofs, each stated on plain numbers so that the solver sees no sequences
 * while proving them.
 */
module Algebra {

  lemma OneMinusQuotient(a: real, d: real)
    requires d != 0.0
    ensures 1.0 - (d - a) / d == a / d
  {
    assert (d - a) / d == d / d - a / d;
  }

  lemma SubQuotient(x: real, f: real, k: real)
    requires k != 0.0
    ensures x - f / k == (x * k - f) / k
  {
    assert x == x * k / k;
  }

  /** x / (x + y) and y / (y + x) add up to one. */
  lemma SharesSumToOne(x: real, y: real)
    requires x + y != 0.0
    ensures x / (x + y) + y / (y + x) == 1.0
  {
    assert y + x == x + y;
    assert x / (x + y) + y / (x + y) == (x + y) / (x + y);
  }

  lemma MulMonotone(x: real, y: real, c: real)
    requires x >= y && c >= 0.0
    ensures x * c >= y * c
  {
    assert x * c - y * c == (x - y) * c;
  }

  lemma ProductNonNegative(x: real, y: real)
    requires x >= 0.0 && y >= 0.0
    ensures x * y >= 0.0
  {
  }

  lemma PositiveProduct(x: real, y: real)
    requires x > 0.0 && y > 0.0
    ensures x * y > 0.0
  {
  }

  /** x < m c with m > 0 gives x / m < c. */
  lemma QuotientBelow(x: real, m: real, c: real)
    requires m > 0.0 && x < m * c
    ensures x / m < c
  {
    var q := x / m;
    assert q * m == x;
    if q >= c {
      MulMonotone(q, c, m);
    }
  }

  /** y = x c with c in [0, 1] and x >= 0 is at most x. */
  lemma ScaledBelow(y: real, x: real, c: real)
    requires 0.0 <= c <= 1.0 && x >= 0.0 && y == x * c
    ensures y <= x
  {
    MulBelow(x, c);
  }

  /** Scaling by c in [0, 1] keeps a value above a non-positive bound. */
  lemma ScaledAtLeast(y: real, x: real, c: real, lo: real)
    requires 0.0 <= c <= 1.0 && lo <= 0.0 && x >= lo && y == x * c
    ensures y >= lo
  {
    MulBelow(x, c);
  }

  lemma MulBelow(x: real, c: real)
    requires 0.0 <= c <= 1.0
    ensures x >= 0.0 ==> 0.0 <= c * x <= x
    ensures x < 0.0 ==> x <= c * x <= 0.0
  {
    assert x - c * x == (1.0 - c) * x;
    if x >= 0.0 {
      MulMonotone(1.0, c, x);
      MulMonotone(c, 0.0, x);
    } else {
      MulMonotone(-x, 0.0, c);
      MulMonotone(-x, 0.0, 1.0 - c);
    }
  }

  lemma QuotientAboveOne(x: real, y: real)
    requires x > y > 0.0
    ensures x / y > 1.0
  {
    var q := x / y;
    assert q * y == x;
    if q <= 1.0 {
      MulMonotone(1.0, q, y);
    }
  }

  lemma QuotientNonNegative(x: real, y: real)
    requires 0.0 < y && 0.0 <= x
    ensures x / y >= 0.0
  {
    var q := x / y;
    assert q * y == x;
    if q < 0.0 {
      MulMonotone(0.0, q, y);
    }
  }

  lemma QuotientAtMostOne(x: real, y: real)
    requires 0.0 < y && x <= y
    ensures x / y <= 1.0
  {
    var q := x / y;
    assert q * y == x;
    if q > 1.0 {
      MulMonotone(q, 1.0, y);
    }
  }

  lemma QuotientMonotone(x: real, y: real, d: real)
    requires d > 0.0 && x <= y
    ensures x / d <= y / d
  {
    var p, q := x / d, y / d;
    assert p * d == x && q * d == y;
    if p > q {
      PositiveProduct(p - q, d);
      assert false;
    }
  }

  /** x times part over whole: the part of x in proportion part / whole. */
  function Proportion(x: real, part: real, whole: real): real
    requires whole != 0.0
  {
    x * part / whole
  }

  /** A proportion of x >= 0 by 0 < part <= whole lies in [0, x], is positive for x > 0 and is x for part == whole. */
  lemma ProportionWithin(x: real, part: real, whole: real)
    requires x >= 0.0 && 0.0 < part <= whole
    ensures 0.0 <= Proportion(x, part, whole) <= x
    ensures x > 0.0 ==> Proportion(x, part, whole) > 0.0
    ensures part == whole ==> Proportion(x, part, whole) == x
  {
    ProductNonNegative(x, part);
    QuotientNonNegative(x * part, whole);
    ProportionAtMost(x, part, whole);
    if x > 0.0 {
      ProportionPositive(x, part, whole);
    }
  }

  lemma ProportionAtMost(x: real, part: real, whole: real)
    requires x >= 0.0 && 0.0 < part <= whole
    ensures Proportion(x, part, whole) <= x
  {
    MulMonotone(whole, part, x);
    QuotientMonotone(x * part, x * whole, whole);
    assert x * whole / whole == x;
  }

  lemma ProportionPositive(x: real, part: real, whole: real)
    requires x > 0.0 && 0.0 < part && 0.0 < whole
    ensures Proportion(x, part, whole) > 0.0
  {
    PositiveProduct(x, part);
    var q := x * part / whole;
    assert q * whole == x * part;
    if q <= 0.0 {
      MulMonotone(0.0, q, whole);
      assert false;
    }
  }

  /** A proportion of x >= 0 grows with the part. */
  lemma ProportionMonotone(x: real, part: real, part': real, whole: real)
    requires x >= 0.0 && whole > 0.0 && part <= part'
    ensures Proportion(x, part, whole) <= Proportion(x, part', whole)
  {
    MulMonotone(part', part, x);
    assert x * part <= x * part';
    QuotientMonotone(x * part, x * part', whole);
  }

  lemma QuotientTimes(a: real, d: real)
    requires d != 0.0
    ensures (a / d) * d == a
  {
  }

  lemma QuotientTimesEq(q: real, x: real, d: real)
    requires d != 0.0 && q == x / d
    ensures q * d == x
  {
  }

  lemma CancelFactor(a: real, b: real, d: real)
    requires d != 0.0 && a * d == b * d
    ensures a == b
  {
    assert (a - b) * d == 0.0;
  }
  lemma QuotientEquals(num: real, den: real, x: real)
    requires den != 0.0 && num == x * den
    ensures num / den == x
  {
  }
  // ---------------------------------------------------------------------
  // Fusion formulas. Each quantity shared between the opinion operators and
  // the lemmas about them is a named function, so a lemma's conclusion is
  // matched at its call site term by term.
  // ---------------------------------------------------------------------

  /** (x w' + y w) / denom: one hypothesis of a weighted combination of two opinions. */
  function Combine(x: real, y: real, w: real, w': real, denom: real): real
    requires denom != 0.0
  {
    (x * w' + y * w) / denom
  }

  /** b p / u: a belief mass weighted by the product p of all uncertainties but u. */
  function Share(b: real, p: real, u: real): real
    requires u != 0.0
  {
    b * p / u
  }

  /** With p = u u', the share of the first opinion is b u'. */
  lemma ShareOfFirst(b: real, u: real, u': real)
    requires u != 0.0
    ensures Share(b, 1.0 * u * u', u) == b * u'
  {
    QuotientEquals(b * (1.0 * u * u'), u, b * u');
  }

  /** With p = u u', the share of the second opinion is b u. */
  lemma ShareOfSecond(b: real, u: real, u': real)
    requires u' != 0.0
    ensures Share(b, 1.0 * u * u', u') == b * u
  {
    QuotientEquals(b * (1.0 * u * u'), u', b * u);
  }

  /** The masses of an opinion with uncertainty u, weighted by p / u, total p / u - p. */
  lemma ShareOfRemaining(s: real, p: real, u: real)
    requires u != 0.0 && s == 1.0 - u
    ensures s * p / u == p / u - p
  {
    assert s * p == p - u * p;
    assert (p - u * p) / u == p / u - (u * p) / u;
  }

  /** c - m p: a sum of cofactors c less m shares p. */
  function Excess(c: real, m: real, p: real): real
  {
    c - m * p
  }

  /** 1 - t / d: the uncertainty left when masses totalling t are divided by d. */
  function Leftover(t: real, d: real): real
    requires d != 0.0
  {
    1.0 - t / d
  }

  /** p / d: the uncertainty multi-source cumulative fusion leaves. */
  function CumulativeListUncertainty(p: real, d: real): real
    requires d != 0.0
  {
    p / d
  }

  /** m p / d: the uncertainty multi-source averaging fusion leaves. */
  function AverageListUncertainty(m: real, p: real, d: real): real
    requires d != 0.0
  {
    m * p / d
  }

  /** With d = c - (m - 1) p and a total mass of c - m p, cumulative fusion leaves p / d uncertain. */
  lemma CumulativeListRemaining(total: real, d: real, c: real, m: real, p: real)
    requires d == c - (m - 1.0) * p && d != 0.0 && total == Excess(c, m, p)
    ensures Leftover(total, d) == CumulativeListUncertainty(p, d)
  {
    assert total == d - p;
    OneMinusQuotient(p, d);
  }

  /** With d = c and a total mass of c - m p, averaging fusion leaves m p / d uncertain. */
  lemma AverageListRemaining(total: real, d: real, c: real, m: real, p: real)
    requires d == c && d != 0.0 && total == Excess(c, m, p)
    ensures Leftover(total, d) == AverageListUncertainty(m, p, d)
  {
    OneMinusQuotient(m * p, d);
  }

  /** Dividing a positive p by an uncertainty in (0, 1] does not make it smaller. */
  lemma CofactorAtLeast(p: real, u: real)
    requires p > 0.0 && 0.0 < u <= 1.0
    ensures p / u >= p
  {
    var q := p / u;
    assert q * u == p;
    MulBelow(q, u);
  }

  /** Denominator of cumulative fusion: u + u' - u u'. */
  function CumulativeDenominator(u: real, u': real): real
  {
    u + u' - u * u'
  }

  /** Uncertainty left by cumulative fusion: u u' / (u + u' - u u'). */
  function CumulativeFusedUncertainty(u: real, u': real): real
    requires CumulativeDenominator(u, u') != 0.0
  {
    u * u' / CumulativeDenominator(u, u')
  }

  /** Denominator of cumulative unfusion of u' out of uz: u' - uz + u' uz. */
  function CumulativeUnfuseDenominator(uz: real, u': real): real
  {
    u' - uz + u' * uz
  }

  /** Denominator of averaging fusion: u + u'. */
  function AveragingDenominator(u: real, u': real): real
  {
    u + u'
  }

  /** Uncertainty left by averaging fusion: 2 u u' / (u + u'). */
  function AveragingFusedUncertainty(u: real, u': real): real
    requires AveragingDenominator(u, u') != 0.0
  {
    2.0 * u * u' / AveragingDenominator(u, u')
  }

  /** Denominator of averaging unfusion of u' out of uz: 2 u' - uz. */
  function AveragingUnfuseDenominator(uz: real, u': real): real
  {
    2.0 * u' - uz
  }

  /** Denominator of weighted belief fusion: u + u' - 2 u u'. */
  function WeightedDenominator(u: real, u': real): real
  {
    u + u' - 2.0 * u * u'
  }

  /** (1 - u) v: the confidence of one opinion weighted by the other's uncertainty. */
  function ConfidenceWeight(u: real, v: real): real
  {
    (1.0 - u) * v
  }

  /** Uncertainty left by weighted belief fusion: (2 - u - u') u u' / (u + u' - 2 u u'). */
  function WeightedFusedUncertainty(u: real, u': real): real
    requires WeightedDenominator(u, u') != 0.0
  {
    (2.0 - u - u') * u * u' / WeightedDenominator(u, u')
  }

  /** Denominator of the base-rate update of belief-constraint and weighted fusion: 2 - u - u'. */
  function CertaintyDenominator(u: real, u': real): real
  {
    2.0 - u - u'
  }

  /** One entry of the cumulatively fused base rate: (x u' + y u - (x + y) u u') / denom. */
  function CumulativePriorEntry(x: real, y: real, u: real, u': real, denom: real): real
    requires denom != 0.0
  {
    (x * u' + y * u - (x + y) * u * u') / denom
  }

  /** The cumulative base-rate entry weighs x by (1 - u) u' and y by (1 - u') u. */
  lemma CumulativePriorEntryWeights(x: real, y: real, u: real, u': real, denom: real)
    requires denom != 0.0
    ensures CumulativePriorEntry(x, y, u, u', denom) == Combine(x, y, ConfidenceWeight(u', u), ConfidenceWeight(u, u'), denom)
  {
    assert x * u' + y * u - (x + y) * u * u' == x * ConfidenceWeight(u, u') + y * ConfidenceWeight(u', u);
  }

  /** The two confidence weights add up to the weighted-fusion denominator. */
  lemma ConfidenceWeightsTotal(u: real, u': real)
    ensures ConfidenceWeight(u, u') + ConfidenceWeight(u', u) == WeightedDenominator(u, u')
  {
  }

  /** Combining two totals of one with weights that add up to the denominator gives one. */
  /** Combine is linear in the combined values, with coefficients w' / denom and w / denom. */
  lemma CombineLinear(x: real, y: real, w: real, w': real, denom: real)
    requires denom != 0.0
    ensures Combine(x, y, w, w', denom) == (w' / denom) * x + (w / denom) * y
  {
    assert (x * w' + y * w) / denom == (x * w') / denom + (y * w) / denom;
  }

  lemma CombineOnes(w: real, w': real, denom: real)
    requires denom != 0.0 && w + w' == denom
    ensures Combine(1.0, 1.0, w, w', denom) == 1.0
  {
  }

  /** Combining belief totals s = 1 - u and s' = 1 - u' cumulatively leaves u u' / D. */
  lemma CumulativeRemaining(u: real, u': real, s: real, s': real)
    requires s == 1.0 - u && s' == 1.0 - u' && CumulativeDenominator(u, u') != 0.0
    ensures 1.0 - Combine(s, s', u, u', CumulativeDenominator(u, u')) == CumulativeFusedUncertainty(u, u')
  {
    var d := CumulativeDenominator(u, u');
    assert s * u' + s' * u == d - u * u';
    OneMinusQuotient(u * u', d);
  }

  /** Combining belief totals s = 1 - u and s' = 1 - u' by averaging leaves 2 u u' / (u + u'). */
  lemma AveragingRemaining(u: real, u': real, s: real, s': real)
    requires s == 1.0 - u && s' == 1.0 - u' && AveragingDenominator(u, u') != 0.0
    ensures 1.0 - Combine(s, s', u, u', AveragingDenominator(u, u')) == AveragingFusedUncertainty(u, u')
  {
    var d := AveragingDenominator(u, u');
    assert s * u' + s' * u == d - 2.0 * u * u';
    OneMinusQuotient(2.0 * u * u', d);
  }

  /** Combining belief totals with the weighted-fusion weights leaves (2 - u - u') u u' / D. */
  lemma WeightedRemaining(u: real, u': real, s: real, s': real)
    requires s == 1.0 - u && s' == 1.0 - u' && WeightedDenominator(u, u') != 0.0
    ensures 1.0 - Combine(s, s', ConfidenceWeight(u', u), ConfidenceWeight(u, u'), WeightedDenominator(u, u'))
         == WeightedFusedUncertainty(u, u')
  {
    var d := WeightedDenominator(u, u');
    assert s * ConfidenceWeight(u, u') + s' * ConfidenceWeight(u', u) == d - (2.0 - u - u') * u * u';
    OneMinusQuotient((2.0 - u - u') * u * u', d);
  }

  /** Cumulative unfusion by y undoes cumulative fusion with y. */
  lemma CumulativeInverse(x: real, y: real, u: real, u': real, uz: real)
    requires CumulativeDenominator(u, u') != 0.0
    requires uz == CumulativeFusedUncertainty(u, u')
    requires CumulativeUnfuseDenominator(uz, u') != 0.0
    ensures Combine(Combine(x, y, u, u', CumulativeDenominator(u, u')), y, -uz, u', CumulativeUnfuseDenominator(uz, u')) == x
  {
    var d := CumulativeDenominator(u, u');
    var d2 := CumulativeUnfuseDenominator(uz, u');
    var z := Combine(x, y, u, u', d);
    assert z * d == x * u' + y * u;
    assert uz * d == u * u';
    var num := z * u' + y * -uz;
    calc {
      num * d;
      (z * d) * u' - y * (uz * d);
      (x * u' + y * u) * u' - y * (u * u');
      x * (u' * d - u * u' + u' * (u * u'));
      x * (u' * d - uz * d + u' * (uz * d));
      (x * d2) * d;
    }
    CancelFactor(num, x * d2, d);
    QuotientEquals(num, d2, x);
  }

  /** Averaging unfusion by y (with Jøsang's sign) undoes averaging fusion with y. */
  lemma AveragingInverse(x: real, y: real, u: real, u': real, uz: real)
    requires AveragingDenominator(u, u') != 0.0
    requires uz == AveragingFusedUncertainty(u, u')
    requires AveragingUnfuseDenominator(uz, u') != 0.0
    ensures Combine(Combine(x, y, u, u', AveragingDenominator(u, u')), y, -uz, 2.0 * u', AveragingUnfuseDenominator(uz, u')) == x
  {
    var d := AveragingDenominator(u, u');
    var d2 := AveragingUnfuseDenominator(uz, u');
    var z := Combine(x, y, u, u', d);
    assert z * d == x * u' + y * u;
    assert uz * d == 2.0 * u * u';
    var num := z * (2.0 * u') + y * -uz;
    calc {
      num * d;
      2.0 * u' * (z * d) - y * (uz * d);
      2.0 * u' * (x * u' + y * u) - y * (2.0 * u * u');
      x * (2.0 * u' * d - 2.0 * u * u');
      x * (2.0 * u' * d - uz * d);
      (x * d2) * d;
    }
    CancelFactor(num, x * d2, d);
    QuotientEquals(num, d2, x);
  }

  /** Harmony plus conflict of belief totals s = 1 - u, s' = 1 - u': u' s + u s' + s s' = 1 - u u'. */
  lemma HarmonyTotal(u: real, u': real, h: real, c: real, a: real)
    requires h == u' * (1.0 - u) + u * (1.0 - u') + a && c == (1.0 - u) * (1.0 - u') - a
    ensures h + c == 1.0 - u * u'
  {
  }

  // ---------------------------------------------------------------------
  // Binomial multiplication and comultiplication (Jøsang's closed forms).
  // ---------------------------------------------------------------------

  /** ((1 - a) a' p + a (1 - a') q) / (1 - a a'): the base-rate weighted share of the product's belief. */
  function ProductShare(a: real, a': real, p: real, q: real): real
    requires a * a' != 1.0
  {
    ((1.0 - a) * a' * p + a * (1.0 - a') * q) / (1.0 - a * a')
  }

  /** ((1 - a') p + (1 - a) q) / (1 - a a'): the base-rate weighted share of the product's uncertainty. */
  function ProductRest(a: real, a': real, p: real, q: real): real
    requires a * a' != 1.0
  {
    ((1.0 - a') * p + (1.0 - a) * q) / (1.0 - a * a')
  }

  /** a a': the base rate of the product x ∧ y. */
  function ProductBaseRate(a: real, a': real): real
  {
    a * a'
  }

  /** x + u a: a mass x topped up with the share a of the uncertainty u. */
  function Projected(x: real, u: real, a: real): real
  {
    x + u * a
  }

  /** p q: the probability of x ∧ y for independent x and y. */
  function ProbabilityAnd(p: real, q: real): real
  {
    p * q
  }

  /** 1 - (1 - p)(1 - q) = p + q - p q: the probability of x ∨ y for independent x and y. */
  function ProbabilityOr(p: real, q: real): real
  {
    1.0 - (1.0 - p) * (1.0 - q)
  }

  /** a + a' - a a': the base rate of the coproduct x ∨ y. */
  function CoproductBaseRate(a: real, a': real): real
  {
    a + a' - a * a'
  }

  /** (a (1 - a') p + (1 - a) a' q) / (a + a' - a a'): the share of the coproduct's disbelief. */
  function CoproductShare(a: real, a': real, p: real, q: real): real
    requires a + a' - a * a' != 0.0
  {
    (a * (1.0 - a') * p + (1.0 - a) * a' * q) / (a + a' - a * a')
  }

  /** (a' p + a q) / (a + a' - a a'): the share of the coproduct's uncertainty. */
  function CoproductRest(a: real, a': real, p: real, q: real): real
    requires a + a' - a * a' != 0.0
  {
    (a' * p + a * q) / (a + a' - a * a')
  }

  /** Belief of the binomial product x ∧ y (Jøsang), from base rates a, a'. */
  function ProductBelief(a: real, a': real, b: real, u: real, b': real, u': real): real
    requires a * a' != 1.0
  {
    b * b' + ProductShare(a, a', b * u', u * b')
  }

  /** Disbelief of the binomial product x ∧ y: d + d' - d d'. */
  function ProductDisbelief(d: real, d': real): real
  {
    d + d' - d * d'
  }

  /** Uncertainty of the binomial product x ∧ y in Jøsang's closed form. */
  function ProductUncertaintyForm(a: real, a': real, b: real, u: real, b': real, u': real): real
    requires a * a' != 1.0
  {
    u * u' + ProductRest(a, a', b * u', u * b')
  }

  /** Disbelief of the binomial coproduct x ∨ y (Jøsang), from base rates a, a'. */
  function CoproductDisbelief(a: real, a': real, d: real, u: real, d': real, u': real): real
    requires a + a' - a * a' != 0.0
  {
    d * d' + CoproductShare(a, a', d * u', u * d')
  }

  /** Belief of the binomial coproduct x ∨ y: b + b' - b b'. */
  function CoproductBelief(b: real, b': real): real
  {
    b + b' - b * b'
  }

  /** Uncertainty of the binomial coproduct x ∨ y in Jøsang's closed form. */
  function CoproductUncertaintyForm(a: real, a': real, d: real, u: real, d': real, u': real): real
    requires a + a' - a * a' != 0.0
  {
    u * u' + CoproductRest(a, a', d * u', u * d')
  }

  /** What a product or coproduct leaves once the "both" mass x x' and the mass y + y' - y y' are taken. */
  lemma PairRemaining(x: real, y: real, u: real, x': real, y': real, u': real)
    requires x + y + u == 1.0 && x' + y' + u' == 1.0
    ensures 1.0 - x * x' - (y + y' - y * y') == x * u' + u * x' + u * u'
  {
    assert y == 1.0 - x - u;
    assert y' == 1.0 - x' - u';
  }

  /** Of the mixed masses p + q, the product's belief takes its share and leaves the rest. */
  lemma ProductSplit(a: real, a': real, p: real, q: real)
    requires a * a' != 1.0
    ensures p + q - ProductShare(a, a', p, q) == ProductRest(a, a', p, q)
  {
    var k := 1.0 - a * a';
    assert (p + q) * k - ((1.0 - a) * a' * p + a * (1.0 - a') * q) == (1.0 - a') * p + (1.0 - a) * q;
    SubQuotient(p + q, (1.0 - a) * a' * p + a * (1.0 - a') * q, k);
  }

  /** Of the mixed masses p + q, the coproduct's disbelief takes its share and leaves the rest. */
  lemma CoproductSplit(a: real, a': real, p: real, q: real)
    requires a + a' - a * a' != 0.0
    ensures p + q - CoproductShare(a, a', p, q) == CoproductRest(a, a', p, q)
  {
    var k := a + a' - a * a';
    assert (p + q) * k - (a * (1.0 - a') * p + (1.0 - a) * a' * q) == a' * p + a * q;
    SubQuotient(p + q, a * (1.0 - a') * p + (1.0 - a) * a' * q, k);
  }

  /** The masses of a product leave exactly the closed-form uncertainty. */
  lemma ProductUncertainty(a: real, a': real, b: real, d: real, u: real, b': real, d': real, u': real)
    requires b + d + u == 1.0 && b' + d' + u' == 1.0 && a * a' != 1.0
    ensures 1.0 - (ProductBelief(a, a', b, u, b', u') + ProductDisbelief(d, d')) == ProductUncertaintyForm(a, a', b, u, b', u')
  {
    PairRemaining(b, d, u, b', d', u');
    ProductSplit(a, a', b * u', u * b');
  }

  /** The masses of a coproduct leave exactly the closed-form uncertainty. */
  lemma CoproductUncertainty(a: real, a': real, b: real, d: real, u: real, b': real, d': real, u': real)
    requires b + d + u == 1.0 && b' + d' + u' == 1.0 && a + a' - a * a' != 0.0
    ensures 1.0 - (CoproductBelief(b, b') + CoproductDisbelief(a, a', d, u, d', u')) == CoproductUncertaintyForm(a, a', d, u, d', u')
  {
    PairRemaining(d, b, u, d', b', u');
    CoproductSplit(a, a', d * u', u * d');
  }

  /** The product's share plus a a' times its rest is a' p + a q. */
  lemma ProductShareRest(a: real, a': real, p: real, q: real)
    requires a * a' != 1.0
    ensures ProductShare(a, a', p, q) + a * a' * ProductRest(a, a', p, q) == a' * p + a * q
  {
    var k := 1.0 - a * a';
    var f := (1.0 - a) * a' * p + a * (1.0 - a') * q;
    var g := (1.0 - a') * p + (1.0 - a) * q;
    assert f + a * a' * g == (a' * p + a * q) * k;
    assert f / k + a * a' * (g / k) == (f + a * a' * g) / k;
    QuotientEquals(f + a * a' * g, k, a' * p + a * q);
  }

  /**
   * The projected probability of the product is the product of the projected
   * probabilities: b_xy + a a' u_xy == (b + a u)(b' + a' u').
   */
  lemma ProductProjection(a: real, a': real, b: real, u: real, b': real, u': real)
    requires a * a' != 1.0
    ensures Projected(ProductBelief(a, a', b, u, b', u'), ProductUncertaintyForm(a, a', b, u, b', u'), ProductBaseRate(a, a'))
         == ProbabilityAnd(Projected(b, u, a), Projected(b', u', a'))
  {
    ProductShareRest(a, a', b * u', u * b');
    assert ProbabilityAnd(Projected(b, u, a), Projected(b', u', a')) == b * b' + a' * (b * u') + a * (u * b') + a * a' * (u * u');
  }

  /** The coproduct's base rate times its rest is a' p + a q. */
  lemma CoproductRestTimes(a: real, a': real, p: real, q: real)
    requires a + a' - a * a' != 0.0
    ensures (a + a' - a * a') * CoproductRest(a, a', p, q) == a' * p + a * q
  {
    QuotientTimes(a' * p + a * q, a + a' - a * a');
  }

  /**
   * The projected disbelief of the coproduct is the product of the projected
   * disbeliefs: d_xy + (1 - a_xy) u_xy == (d + (1 - a) u)(d' + (1 - a') u'),
   * with a_xy = a + a' - a a'.
   */
  lemma CoproductProjection(a: real, a': real, d: real, u: real, d': real, u': real)
    requires a + a' - a * a' != 0.0
    ensures Projected(CoproductDisbelief(a, a', d, u, d', u'), CoproductUncertaintyForm(a, a', d, u, d', u'), 1.0 - CoproductBaseRate(a, a'))
         == Projected(d, u, 1.0 - a) * Projected(d', u', 1.0 - a')
  {
    var k := a + a' - a * a';
    var share := CoproductShare(a, a', d * u', u * d');
    var rest := CoproductRest(a, a', d * u', u * d');
    CoproductSplit(a, a', d * u', u * d');
    CoproductRestTimes(a, a', d * u', u * d');
    assert share + (1.0 - k) * rest == d * u' + u * d' - k * rest;
    assert (d + (1.0 - a) * u) * (d' + (1.0 - a') * u')
        == d * d' + (1.0 - a') * (d * u') + (1.0 - a) * (u * d') + (1.0 - k) * (u * u');
  }

  /**
   * For three-mass opinions (b, d, u), (b', d', u') and a result (bz, dz, uz)
   * whose disbelief projected with the coproduct base rate k is the product of the inputs'
   * projected disbeliefs, so that its projection pz = bz + uz k is the probability of x ∨ y
   * for the projections p = b + u a and p' = b' + u' a'.
   */
  lemma CoproductProbability(a: real, a': real, b: real, d: real, u: real, b': real, d': real, u': real,
                             bz: real, dz: real, uz: real, p: real, p': real, pz: real)
    requires b + d + u == 1.0 && b' + d' + u' == 1.0 && bz + dz + uz == 1.0
    requires p == Projected(b, u, a) && p' == Projected(b', u', a') && pz == Projected(bz, uz, CoproductBaseRate(a, a'))
    requires Projected(dz, uz, 1.0 - CoproductBaseRate(a, a')) == Projected(d, u, 1.0 - a) * Projected(d', u', 1.0 - a')
    ensures pz == ProbabilityOr(p, p')
  {
    assert 1.0 - p == d + (1.0 - a) * u;
    assert 1.0 - p' == d' + (1.0 - a') * u';
  }


  // ---------------------------------------------------------------------
  // Trust revision.
  // ---------------------------------------------------------------------

  /** x + (1 - x) g: mass x moved towards 1 by the factor g. */
  function Raise(x: real, g: real): real
  {
    x + (1.0 - x) * g
  }

  /** x (1 - g): mass x shrunk by the factor g. */
  function Shrink(x: real, g: real): real
  {
    x * (1.0 - g)
  }

  /** A mass above -eps stays above -eps when shrunk. */
  lemma ShrinkLowerBound(x: real, g: real, eps: real)
    requires eps > 0.0 && 0.0 <= g <= 1.0 && x >= -eps
    ensures Shrink(x, g) >= -eps
  {
    if x >= 0.0 {
      MulMonotone(1.0, g, x);
    } else {
      MulMonotone(0.0, x, g);
    }
  }

  /** A total below 1 + eps, shrunk by g, plus g stays below 1 + eps. */
  lemma ShrinkUpperBound(x: real, g: real, eps: real)
    requires eps > 0.0 && 0.0 <= g <= 1.0 && x < 1.0 + eps
    ensures Shrink(x, g) + g < 1.0 + eps
  {
    if x >= 1.0 {
      MulMonotone(x, 1.0, g);
    } else {
      MulMonotone(1.0, x, g);
      ComplementProduct(x, g);
    }
  }

  /** (1 - x)(1 - g) >= 0 for x, g at most 1, expanded. */
  lemma ComplementProduct(x: real, g: real)
    requires x <= 1.0 && g <= 1.0
    ensures 1.0 - x - g + x * g >= 0.0
  {
    assert 1.0 - x - g + x * g == (1.0 - x) * (1.0 - g);
  }

  /**
   * Raising mass x and shrinking mass y by the same factor keeps both above
   * -eps and their sum below 1 + eps.
   */
  lemma RevisionKeepsBounds(x: real, y: real, g: real, eps: real)
    requires eps > 0.0 && 0.0 <= g <= 1.0
    requires x >= -eps && y >= -eps && x + y < 1.0 + eps
    ensures Raise(x, g) >= -eps
    ensures Shrink(y, g) >= -eps
    ensures Raise(x, g) + Shrink(y, g) < 1.0 + eps
  {
    ShrinkLowerBound(x, g, eps);
    ShrinkLowerBound(y, g, eps);
    ShrinkUpperBound(x + y, g, eps);
    assert Raise(x, g) == Shrink(x, g) + g;
    assert Shrink(x + y, g) == Shrink(x, g) + Shrink(y, g);
  }
}
