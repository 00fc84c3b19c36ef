/**
 * The opinion classes as objects. OpinionNoBase keeps its belief masses in
 * an Array member that the in-place `*_` operators overwrite entry by
 * entry; Opinion holds an OpinionNoBase member and a prior Array; a
 * TrustedOpinion holds a trust and an opinion member. Every in-place
 * operator is proved to leave the object holding the value that the
 * corresponding function of NoBaseOpinions, Opinions or TrustedOpinions
 * computes from the old value, so the properties proved about those
 * functions carry over to the objects.
 */
module OpinionObjects {
  import opened Util
  import opened CudaArray
  import opened Algebra
  import N = NoBaseOpinions
  import O = Opinions
  import T = TrustedOpinions

  // ---------------------------------------------------------------------
  // Loops of cc_fuse_ that only compute values.
  // ---------------------------------------------------------------------

  /**
   * The first loop of cc_fuse_: consensus_i = min(b_i, b'_i), its running
   * sum, and the residues b_i - consensus_i and b'_i - consensus_i.
   */
  method ConsensusSplit(o: N.OpinionNoBase, other: N.OpinionNoBase)
    returns (consensus: seq<real>, consensusSum: real, resA: seq<real>, resB: seq<real>)
    requires |other.masses| == |o.masses|
    ensures consensus == N.Consensus(o, other) && consensusSum == Sum(consensus)
    ensures resA == Sub(o.masses, consensus) && resB == Sub(other.masses, consensus)
  {
    var n := |o.masses|;
    consensus := Constant(n, 0.0);
    consensusSum := 0.0;
    resA, resB := o.masses, other.masses;
    var idx := 0;
    while idx < n
      invariant 0 <= idx <= n && |consensus| == |resA| == |resB| == n
      invariant forall j :: 0 <= j < idx ==> consensus[j] == Min(o.masses[j], other.masses[j])
      invariant consensusSum == Sum(consensus[..idx])
      invariant forall j :: 0 <= j < idx ==> resA[j] == o.masses[j] - consensus[j] && resB[j] == other.masses[j] - consensus[j]
      invariant forall j :: idx <= j < n ==> resA[j] == o.masses[j] && resB[j] == other.masses[j]
    {
      var consens := Min(o.masses[idx], other.masses[idx]);
      var before := consensus;
      consensus := consensus[idx := consens];
      assert consensus[..idx] == before[..idx];
      SumPrefixStep(consensus, idx);
      consensusSum := consensusSum + consens;
      resA := resA[idx := resA[idx] - consensus[idx]];
      resB := resB[idx := resB[idx] - consensus[idx]];
      idx := idx + 1;
    }
    assert consensus[..n] == consensus;
  }

  /**
   * The inner loop of cc_fuse_'s second loop: for every idx2 != idx it adds
   * resA_idx resB_idx2 and resA_idx2 resB_idx.
   */
  method CompromiseDifferent(resA: seq<real>, resB: seq<real>, idx: nat) returns (compDifferent: real)
    requires |resA| == |resB| && idx < |resA|
    ensures compDifferent == resA[idx] * N.SumExcept(resB, idx) + resB[idx] * N.SumExcept(resA, idx)
  {
    var n := |resA|;
    compDifferent := 0.0;
    var idx2 := 0;
    while idx2 < n
      invariant 0 <= idx2 <= n
      invariant compDifferent == resA[idx] * N.SumExcept(resB[..idx2], idx) + resB[idx] * N.SumExcept(resA[..idx2], idx)
    {
      assert resA[..idx2 + 1][..idx2] == resA[..idx2];
      assert resB[..idx2 + 1][..idx2] == resB[..idx2];
      if idx != idx2 {
        compDifferent := compDifferent + resA[idx] * resB[idx2];
        compDifferent := compDifferent + resA[idx2] * resB[idx];
      }
      idx2 := idx2 + 1;
    }
    assert resA[..n] == resA && resB[..n] == resB;
  }

  /** The second loop of cc_fuse_: every compromise entry and their running sum. */
  method CompromiseOf(resA: seq<real>, resB: seq<real>, uncertThis: real, uncertOther: real)
    returns (compromise: seq<real>, compromiseSum: real)
    requires |resA| == |resB|
    ensures compromise == N.Compromise(resA, resB, uncertThis, uncertOther) && compromiseSum == Sum(compromise)
  {
    var n := |resA|;
    compromise := Constant(n, 0.0);
    compromiseSum := 0.0;
    var idx := 0;
    while idx < n
      invariant 0 <= idx <= n && |compromise| == n
      invariant forall j :: 0 <= j < idx ==> compromise[j] == N.Compromise(resA, resB, uncertThis, uncertOther)[j]
      invariant compromiseSum == Sum(compromise[..idx])
    {
      var compDifferent := CompromiseDifferent(resA, resB, idx);
      var before := compromise;
      compromise := compromise[idx := resA[idx] * uncertOther + resB[idx] * uncertThis + resA[idx] * resB[idx] + compDifferent];
      assert compromise[..idx] == before[..idx];
      SumPrefixStep(compromise, idx);
      compromiseSum := compromiseSum + compromise[idx];
      idx := idx + 1;
    }
    assert compromise[..n] == compromise;
  }

  /** The factor multiply_ adds to b b': the base-rate weighted share of the product's belief. */
  method ProductFactor(baseThis: real, baseOther: real, belief: real, uncert: real, beliefOther: real, uncertOther: real)
    returns (fac: real)
    requires ProductBaseRate(baseThis, baseOther) != 1.0
    ensures fac == ProductShare(baseThis, baseOther, belief * uncertOther, uncert * beliefOther)
  {
    fac := (1.0 - baseThis) * baseOther * belief * uncertOther + baseThis * (1.0 - baseOther) * uncert * beliefOther;
    fac := fac / (1.0 - baseThis * baseOther);
    assert (1.0 - baseThis) * baseOther * belief * uncertOther == (1.0 - baseThis) * baseOther * (belief * uncertOther);
    assert baseThis * (1.0 - baseOther) * uncert * beliefOther == baseThis * (1.0 - baseOther) * (uncert * beliefOther);
  }

  /** The factor comultiply_ adds to d d': the base-rate weighted share of the coproduct's disbelief. */
  method CoproductFactor(baseThis: real, baseOther: real, disbelief: real, uncert: real, disbeliefOther: real, uncertOther: real)
    returns (fac: real)
    requires CoproductBaseRate(baseThis, baseOther) != 0.0
    ensures fac == CoproductShare(baseThis, baseOther, disbelief * uncertOther, uncert * disbeliefOther)
  {
    fac := baseThis * (1.0 - baseOther) * disbelief * uncertOther + (1.0 - baseThis) * baseOther * uncert * disbeliefOther;
    fac := fac / (baseThis + baseOther - baseThis * baseOther);
    assert baseThis * (1.0 - baseOther) * disbelief * uncertOther == baseThis * (1.0 - baseOther) * (disbelief * uncertOther);
    assert (1.0 - baseThis) * baseOther * uncert * disbeliefOther == (1.0 - baseThis) * baseOther * (uncert * disbeliefOther);
  }

  lemma ProductBeliefSplit(a: real, a': real, b: real, u: real, b': real, u': real)
    requires ProductBaseRate(a, a') != 1.0
    ensures ProductBelief(a, a', b, u, b', u') == b * b' + ProductShare(a, a', b * u', u * b')
  {
  }

  lemma CoproductDisbeliefSplit(a: real, a': real, d: real, u: real, d': real, u': real)
    requires CoproductBaseRate(a, a') != 0.0
    ensures CoproductDisbelief(a, a', d, u, d', u') == d * d' + CoproductShare(a, a', d * u', u * d')
  {
  }

  /** The product's masses are b b' + fac and d + (d' - d d'), with fac the factor above. */
  lemma MultiplyEntries(o: N.OpinionNoBase, other: N.OpinionNoBase, baseThis: real, baseOther: real,
                        b: real, d: real, u: real, b': real, d': real, u': real, fac: real)
    requires N.Binomial(o) && N.Binomial(other) && ProductBaseRate(baseThis, baseOther) != 1.0
    requires o.masses == [b, d] && u == N.Uncertainty(o)
    requires other.masses == [b', d'] && u' == N.Uncertainty(other)
    requires fac == ProductShare(baseThis, baseOther, b * u', u * b')
    ensures N.Multiply(o, other, baseThis, baseOther).masses == [b * b' + fac, d + (d' - d * d')]
  {
    assert N.Multiply(o, other, baseThis, baseOther).masses[0] == ProductBelief(baseThis, baseOther, b, u, b', u');
    ProductBeliefSplit(baseThis, baseOther, b, u, b', u');
    ghost var r := N.Multiply(o, other, baseThis, baseOther).masses;
    assert r[0] == b * b' + fac;
    assert r[1] == d + (d' - d * d');
  }

  /** The coproduct's masses are b + (b' - b b') and d d' + fac, with fac the factor above. */
  lemma ComultiplyEntries(o: N.OpinionNoBase, other: N.OpinionNoBase, baseThis: real, baseOther: real,
                          b: real, d: real, u: real, b': real, d': real, u': real, fac: real)
    requires N.Binomial(o) && N.Binomial(other) && CoproductBaseRate(baseThis, baseOther) != 0.0
    requires o.masses == [b, d] && u == N.Uncertainty(o)
    requires other.masses == [b', d'] && u' == N.Uncertainty(other)
    requires fac == CoproductShare(baseThis, baseOther, d * u', u * d')
    ensures N.Comultiply(o, other, baseThis, baseOther).masses == [b + (b' - b * b'), d * d' + fac]
  {
    assert N.Comultiply(o, other, baseThis, baseOther).masses[1] == CoproductDisbelief(baseThis, baseOther, d, u, d', u');
    CoproductDisbeliefSplit(baseThis, baseOther, d, u, d', u');
    ghost var r := N.Comultiply(o, other, baseThis, baseOther).masses;
    assert r[0] == b + (b' - b * b');
    assert r[1] == d * d' + fac;
  }

  /** revise_trust_(doc, other) is revise_trust_ by the uncertainty differential scaled by doc. */
  lemma ConflictRevision(o: N.OpinionNoBase, degreeOfConflict: real, other: N.OpinionNoBase)
    requires N.Binomial(o) && N.Uncertainty(o) + N.Uncertainty(other) != 0.0
    ensures N.ReviseTrustByConflict(o, degreeOfConflict, other)
         == N.ReviseTrust(o, N.UncertaintyDifferential(o, other) * degreeOfConflict)
  {
  }

  // ---------------------------------------------------------------------
  // OpinionNoBase.
  // ---------------------------------------------------------------------

  class OpinionNoBaseObject {
    /** belief_masses_: one mass per hypothesis, overwritten in place. */
    const beliefMasses: Array

    /** N >= 1: uncertainty() sums the masses starting from entry 0. */
    predicate Valid()
    {
      beliefMasses.entries.Length > 0
    }

    /** The opinion the object currently holds. */
    function Value(): N.OpinionNoBase
      reads beliefMasses.entries
    {
      N.OpinionNoBase(beliefMasses.entries[..])
    }

    /** OpinionNoBase(belief_masses). */
    constructor (masses: seq<real>)
      requires |masses| > 0
      ensures Valid() && Value() == N.OpinionNoBase(masses)
      ensures fresh(beliefMasses) && fresh(beliefMasses.entries)
    {
      beliefMasses := new Array.FromStdArray(masses);
    }

    /** uncertainty(): 1 - belief_masses_.sum(). */
    method Uncertainty() returns (u: real)
      requires Valid()
      ensures u == N.Uncertainty(Value())
    {
      var total := beliefMasses.SumEntries();
      u := 1.0 - total;
    }

    /** The fallback of the fusion operators: b_i := (b_i + b'_i) / 2 for every i. */
    method MeanWith(other: N.OpinionNoBase)
      requires |other.masses| == beliefMasses.entries.Length
      modifies beliefMasses.entries
      ensures Value() == N.OpinionNoBase(N.Mean(old(Value()).masses, other.masses))
    {
      var a := beliefMasses.entries;
      var idx := 0;
      while idx < a.Length
        invariant 0 <= idx <= a.Length
        invariant forall j :: 0 <= j < idx ==> a[j] == (old(a[j]) + other.masses[j]) / 2.0
        invariant forall j :: idx <= j < a.Length ==> a[j] == old(a[j])
      {
        a[idx] := (a[idx] + other.masses[idx]) / 2.0;
        idx := idx + 1;
      }
    }

    /** The fusion step proper: b_i := (b_i w' + b'_i w) / denom for every i. */
    method CombineWith(other: N.OpinionNoBase, w: real, w': real, denom: real)
      requires |other.masses| == beliefMasses.entries.Length && denom != 0.0
      modifies beliefMasses.entries
      ensures Value() == N.OpinionNoBase(N.Weighted(old(Value()), other, w, w', denom))
    {
      var a := beliefMasses.entries;
      var idx := 0;
      while idx < a.Length
        invariant 0 <= idx <= a.Length
        invariant forall j :: 0 <= j < idx ==> a[j] == Combine(old(a[j]), other.masses[j], w, w', denom)
        invariant forall j :: idx <= j < a.Length ==> a[j] == old(a[j])
      {
        a[idx] := (a[idx] * w' + other.masses[idx] * w) / denom;
        idx := idx + 1;
      }
    }

    /** cum_fuse_(other): the mean when |u + u' - u u'| < EPS, otherwise (b_i u' + b'_i u) / that. */
    method CumFuse(other: N.OpinionNoBase)
      requires Valid() && |other.masses| == beliefMasses.entries.Length
      modifies beliefMasses.entries
      ensures Value() == N.CumFuse(old(Value()), other)
    {
      ghost var o := Value();
      var uncertThis := Uncertainty();
      var uncertOther := N.Uncertainty(other);
      var denom := uncertThis + uncertOther - uncertThis * uncertOther;
      assert denom == N.CumDenom(o, other);
      if Abs(denom) < EPS {
        MeanWith(other);
        assert Value() == N.OpinionNoBase(N.Mean(o.masses, other.masses));
        return;
      }
      CombineWith(other, uncertThis, uncertOther, denom);
      assert Value() == N.OpinionNoBase(N.Weighted(o, other, uncertThis, uncertOther, denom));
    }

    /** cum_unfuse_(other): the mean when |u' - u + u' u| < EPS, otherwise (b_i u' - b'_i u) / that. */
    method CumUnfuse(other: N.OpinionNoBase)
      requires Valid() && |other.masses| == beliefMasses.entries.Length
      modifies beliefMasses.entries
      ensures Value() == N.CumUnfuse(old(Value()), other)
    {
      ghost var o := Value();
      var uncertThis := Uncertainty();
      var uncertOther := N.Uncertainty(other);
      var denom := uncertOther - uncertThis + uncertOther * uncertThis;
      assert denom == N.CumUnfuseDenom(o, other);
      if Abs(denom) < EPS {
        MeanWith(other);
        assert Value() == N.OpinionNoBase(N.Mean(o.masses, other.masses));
        return;
      }
      CombineWith(other, -uncertThis, uncertOther, denom);
      assert Value() == N.OpinionNoBase(N.Weighted(o, other, -uncertThis, uncertOther, denom));
    }

    /** average_fuse_(other): the mean when |u + u'| < EPS, otherwise (b_i u' + b'_i u) / (u + u'). */
    method AverageFuse(other: N.OpinionNoBase)
      requires Valid() && |other.masses| == beliefMasses.entries.Length
      modifies beliefMasses.entries
      ensures Value() == N.AverageFuse(old(Value()), other)
    {
      var uncertThis := Uncertainty();
      var uncertOther := N.Uncertainty(other);
      var denom := uncertThis + uncertOther;
      if Abs(denom) < EPS {
        MeanWith(other);
        return;
      }
      CombineWith(other, uncertThis, uncertOther, denom);
    }

    /** average_unfuse_(other) as written: the mean when |2 u' - u| < EPS, otherwise (2 b_i u' + b'_i u) / that. */
    method AverageUnfuse(other: N.OpinionNoBase)
      requires Valid() && |other.masses| == beliefMasses.entries.Length
      modifies beliefMasses.entries
      ensures Value() == N.AverageUnfuse(old(Value()), other)
    {
      var uncertThis := Uncertainty();
      var uncertOther := N.Uncertainty(other);
      var denom := 2.0 * uncertOther - uncertThis;
      if Abs(denom) < EPS {
        MeanWith(other);
        return;
      }
      CombineWith(other, uncertThis, 2.0 * uncertOther, denom);
    }

    /** average_unfuse_ with the sign of Jøsang's operator: (2 b_i u' - b'_i u) / (2 u' - u). */
    method AverageUnfuseCorrected(other: N.OpinionNoBase)
      requires Valid() && |other.masses| == beliefMasses.entries.Length
      modifies beliefMasses.entries
      ensures Value() == N.AverageUnfuseCorrected(old(Value()), other)
    {
      var uncertThis := Uncertainty();
      var uncertOther := N.Uncertainty(other);
      var denom := 2.0 * uncertOther - uncertThis;
      if Abs(denom) < EPS {
        MeanWith(other);
        return;
      }
      CombineWith(other, -uncertThis, 2.0 * uncertOther, denom);
    }

    /**
     * wb_fuse_(other): with D = u + u' - 2 u u', the mean (|u u'| < EPS) or the
     * vacuous masses when |D| < EPS, otherwise (b_i (1 - u) u' + b'_i (1 - u') u) / D.
     */
    method WbFuse(other: N.OpinionNoBase)
      requires Valid() && |other.masses| == beliefMasses.entries.Length
      modifies beliefMasses.entries
      ensures Value() == N.WbFuse(old(Value()), other)
    {
      ghost var o := Value();
      var uncertThis := Uncertainty();
      var uncertOther := N.Uncertainty(other);
      var denom := uncertThis + uncertOther - 2.0 * uncertThis * uncertOther;
      assert denom == N.WbDenom(o, other);
      if Abs(denom) < EPS {
        if Abs(uncertThis * uncertOther) < EPS {
          MeanWith(other);
          assert Value() == N.OpinionNoBase(N.Mean(o.masses, other.masses));
        } else {
          beliefMasses.Fill(0.0);
          assert Value() == N.VacuousBeliefOpinion(|o.masses|);
        }
        return;
      }
      var weightThis, weightOther := ConfidenceWeight(uncertOther, uncertThis), ConfidenceWeight(uncertThis, uncertOther);
      CombineWith(other, weightThis, weightOther, denom);
      assert Value() == N.OpinionNoBase(N.Weighted(o, other, weightThis, weightOther, denom));
    }

    /**
     * bc_fuse_(other): the neutral masses 1/N when |1 - conflict| < EPS,
     * otherwise harmony_i / (1 - conflict).
     */
    method BcFuse(other: N.OpinionNoBase)
      requires Valid() && |other.masses| == beliefMasses.entries.Length
      modifies beliefMasses.entries
      ensures Value() == N.BcFuse(old(Value()), other)
    {
      var o := Value();
      var a := beliefMasses.entries;
      var harmony := N.Harmony(o, other);
      var conflict := N.ComputeConflict(o, other);
      N.ConflictClosedForm(o, other);
      assert conflict == N.Conflict(o, other);
      if Abs(1.0 - conflict) < EPS {
        beliefMasses.Fill(1.0 / a.Length as real);
        assert Value() == N.NeutralBeliefOpinion(|o.masses|);
        return;
      }
      var normalizer := 1.0 - conflict;
      var idx := 0;
      while idx < a.Length
        invariant 0 <= idx <= a.Length
        invariant forall j :: 0 <= j < idx ==> a[j] == harmony[j] / normalizer
      {
        a[idx] := harmony[idx] / normalizer;
        idx := idx + 1;
      }
      assert a[..] == seq(|o.masses|, i requires 0 <= i < |o.masses| => harmony[i] / normalizer);
    }

    /**
     * cc_fuse_(other): consensus plus the compromise scaled by
     * (1 - sum(consensus) - u u') / sum(compromise); the vacuous masses when
     * the compromise sums to less than EPS in magnitude.
     */
    method CcFuse(other: N.OpinionNoBase)
      requires Valid() && |other.masses| == beliefMasses.entries.Length
      modifies beliefMasses.entries
      ensures Value() == N.CcFuse(old(Value()), other)
    {
      var o := Value();
      var a := beliefMasses.entries;
      var uncertThis := Uncertainty();
      var uncertOther := N.Uncertainty(other);
      var consensus, consensusSum, resA, resB := ConsensusSplit(o, other);
      var compromise, compromiseSum := CompromiseOf(resA, resB, uncertThis, uncertOther);
      assert compromise == N.CcCompromise(o, other);
      var uncertPre := uncertThis * uncertOther;
      if Abs(compromiseSum) < EPS {
        beliefMasses.Fill(0.0);
        assert Value() == N.VacuousBeliefOpinion(|o.masses|);
        return;
      }
      var normalization := (1.0 - consensusSum - uncertPre) / compromiseSum;
      assert normalization == N.CcNormalization(o, other);
      BlendWith(consensus, compromise, normalization);
    }

    /** The blend loop of cc_fuse_: entry i becomes consensus_i + normalization * compromise_i. */
    method BlendWith(consensus: seq<real>, compromise: seq<real>, normalization: real)
      requires |consensus| == |compromise| == beliefMasses.entries.Length
      modifies beliefMasses.entries
      ensures Value() == N.OpinionNoBase(N.Blend(consensus, compromise, normalization))
    {
      var a := beliefMasses.entries;
      var idx := 0;
      while idx < a.Length
        invariant 0 <= idx <= a.Length
        invariant forall j :: 0 <= j < idx ==> a[j] == consensus[j] + normalization * compromise[j]
      {
        a[idx] := consensus[idx] + normalization * compromise[idx];
        idx := idx + 1;
      }
      ghost var blended := N.Blend(consensus, compromise, normalization);
      assert |blended| == a.Length;
      assert forall j :: 0 <= j < a.Length ==> blended[j] == consensus[j] + normalization * compromise[j];
      assert a[..] == blended;
    }

    /** trust_discount_(p): every mass multiplied by p. */
    method TrustDiscount(prop: real)
      modifies beliefMasses.entries
      ensures Value() == N.TrustDiscount(old(Value()), prop)
    {
      var a := beliefMasses.entries;
      var idx := 0;
      while idx < a.Length
        invariant 0 <= idx <= a.Length
        invariant forall j :: 0 <= j < idx ==> a[j] == old(a[j]) * prop
        invariant forall j :: idx <= j < a.Length ==> a[j] == old(a[j])
      {
        a[idx] := a[idx] * prop;
        idx := idx + 1;
      }
      ghost var scaled := Scale(old(a[..]), prop);
      assert |scaled| == a.Length;
      assert forall j :: 0 <= j < a.Length ==> scaled[j] == old(a[j]) * prop;
      assert a[..] == scaled;
    }

    /** trust_discount_(trust, a): discount by the trust's binomial projection. */
    method TrustDiscountByTrust(trust: N.OpinionNoBase, baseRate: real)
      requires N.Binomial(trust)
      modifies beliefMasses.entries
      ensures Value() == N.TrustDiscountByTrust(old(Value()), trust, baseRate)
    {
      TrustDiscount(N.BinomialProjection(trust, baseRate));
    }

    /** limited_trust_discount_(limit, p): p raised to (1 - limit) / (1 - u), capped at 1. */
    method LimitedTrustDiscount(limit: real, prop: real)
      requires Valid()
      modifies beliefMasses.entries
      ensures Value() == N.LimitedTrustDiscount(old(Value()), limit, prop)
    {
      var uncert := Uncertainty();
      var p;
      if uncert == 1.0 {
        // (1 - limit) / 0 is +infinity, NaN or -infinity in floating point
        p := if limit <= 1.0 then 1.0 else Min(1.0, prop);
      } else {
        var minProb := (1.0 - limit) / (1.0 - uncert);
        p := Min(1.0, Max(minProb, prop));
      }
      TrustDiscount(p);
    }

    /** limited_trust_discount_(limit, trust, a). */
    method LimitedTrustDiscountByTrust(limit: real, trust: N.OpinionNoBase, baseRate: real)
      requires Valid() && N.Binomial(trust)
      modifies beliefMasses.entries
      ensures Value() == N.LimitedTrustDiscountByTrust(old(Value()), limit, trust, baseRate)
    {
      LimitedTrustDiscount(limit, N.BinomialProjection(trust, baseRate));
    }

    /** revise_trust_(f) on a binomial opinion: f clamped to [-1, 1], then belief and disbelief revised. */
    method ReviseTrust(revisionFactor: real)
      requires beliefMasses.entries.Length == 2
      modifies beliefMasses.entries
      ensures Value() == N.ReviseTrust(old(Value()), revisionFactor)
    {
      var a := beliefMasses.entries;
      ghost var belief, disbelief := a[0], a[1];
      assert old(Value()).masses == [belief, disbelief];
      var f := Clamp(revisionFactor, -1.0, 1.0);
      if f < 0.0 {
        f := f * -1.0;
        a[0] := a[0] + (1.0 - a[0]) * f;
        a[1] := a[1] * (1.0 - f);
        assert a[0] == Raise(belief, f) && a[1] == Shrink(disbelief, f);
      } else {
        a[0] := a[0] * (1.0 - f);
        a[1] := a[1] + (1.0 - a[1]) * f;
        assert a[0] == Shrink(belief, f) && a[1] == Raise(disbelief, f);
      }
      assert a[..] == [a[0], a[1]];
    }

    /** revise_trust_(doc, other): revision factor uncertainty_differential(other) * doc. */
    method ReviseTrustByConflict(degreeOfConflict: real, other: N.OpinionNoBase)
      requires beliefMasses.entries.Length == 2
      requires N.Uncertainty(Value()) + N.Uncertainty(other) != 0.0
      modifies beliefMasses.entries
      ensures Value() == N.ReviseTrustByConflict(old(Value()), degreeOfConflict, other)
    {
      var o := Value();
      var revisionFactor := N.UncertaintyDifferential(o, other) * degreeOfConflict;
      ConflictRevision(o, degreeOfConflict, other);
      ReviseTrust(revisionFactor);
    }

    /** multiply_(other, a, a'): belief b b' + share / (1 - a a'), disbelief d + d' - d d'. */
    method Multiply(other: N.OpinionNoBase, baseThis: real, baseOther: real)
      requires beliefMasses.entries.Length == 2 && N.Binomial(other)
      requires ProductBaseRate(baseThis, baseOther) != 1.0
      modifies beliefMasses.entries
      ensures Value() == N.Multiply(old(Value()), other, baseThis, baseOther)
    {
      var a := beliefMasses.entries;
      ghost var o := Value();
      var uncert := Uncertainty();
      var b, d := a[0], a[1];
      var b', d', u' := other.masses[0], other.masses[1], N.Uncertainty(other);
      var fac := ProductFactor(baseThis, baseOther, b, uncert, b', u');
      assert o.masses == [b, d] && other.masses == [b', d'];
      MultiplyEntries(o, other, baseThis, baseOther, b, d, uncert, b', d', u', fac);
      a[0] := b * b' + fac;
      a[1] := d + (d' - d * d');
      ghost var r := N.Multiply(o, other, baseThis, baseOther).masses;
      assert r == [b * b' + fac, d + (d' - d * d')];
      assert a[..] == [a[0], a[1]];
      assert a[..] == r;
    }

    /** comultiply_(other, a, a'): disbelief d d' + share / (a + a' - a a'), belief b + b' - b b'. */
    method Comultiply(other: N.OpinionNoBase, baseThis: real, baseOther: real)
      requires beliefMasses.entries.Length == 2 && N.Binomial(other)
      requires CoproductBaseRate(baseThis, baseOther) != 0.0
      modifies beliefMasses.entries
      ensures Value() == N.Comultiply(old(Value()), other, baseThis, baseOther)
    {
      var a := beliefMasses.entries;
      ghost var o := Value();
      var uncert := Uncertainty();
      var b, d := a[0], a[1];
      var b', d', u' := other.masses[0], other.masses[1], N.Uncertainty(other);
      var fac := CoproductFactor(baseThis, baseOther, d, uncert, d', u');
      assert o.masses == [b, d] && other.masses == [b', d'];
      ComultiplyEntries(o, other, baseThis, baseOther, b, d, uncert, b', d', u', fac);
      a[1] := d * d' + fac;
      a[0] := b + (b' - b * b');
      ghost var r := N.Comultiply(o, other, baseThis, baseOther).masses;
      assert r == [b + (b' - b * b'), d * d' + fac];
      assert a[..] == [a[0], a[1]];
      assert a[..] == r;
    }
  }

  // ---------------------------------------------------------------------
  // Opinion.
  // ---------------------------------------------------------------------

  class OpinionObject {
    /** opinion_no_base_: the belief masses. */
    const opinionNoBase: OpinionNoBaseObject
    /** prior_: the base-rate distribution, overwritten in place by the fusion operators. */
    const prior: Array

    /** Masses and prior have N entries each and live in two different arrays. */
    predicate Valid()
    {
      opinionNoBase.Valid()
      && prior.entries.Length == opinionNoBase.beliefMasses.entries.Length
      && prior.entries != opinionNoBase.beliefMasses.entries
    }

    /** The opinion the object currently holds. */
    function Value(): O.Opinion
      reads opinionNoBase.beliefMasses.entries, prior.entries
    {
      O.Opinion(opinionNoBase.Value(), prior.entries[..])
    }

    /** Opinion(belief_masses, prior). */
    constructor (masses: seq<real>, priorDistr: seq<real>)
      requires |masses| == |priorDistr| > 0
      ensures Valid() && Value() == O.Opinion(N.OpinionNoBase(masses), priorDistr)
      ensures fresh(opinionNoBase.beliefMasses.entries) && fresh(prior.entries)
    {
      opinionNoBase := new OpinionNoBaseObject(masses);
      prior := new Array.FromStdArray(priorDistr);
    }

    method Uncertainty() returns (u: real)
      requires Valid()
      ensures u == O.Uncertainty(Value())
    {
      u := opinionNoBase.Uncertainty();
    }

    /** The fallback prior loop: prior_i = (prior_i + prior'_i) / 2. */
    method MeanPriorWith(other: seq<real>)
      requires |other| == prior.entries.Length
      modifies prior.entries
      ensures prior.entries[..] == N.Mean(old(prior.entries[..]), other)
    {
      var a := prior.entries;
      var idx := 0;
      while idx < a.Length
        invariant 0 <= idx <= a.Length
        invariant forall j :: 0 <= j < idx ==> a[j] == (old(a[j]) + other[j]) / 2.0
        invariant forall j :: idx <= j < a.Length ==> a[j] == old(a[j])
      {
        a[idx] := (a[idx] + other[idx]) / 2.0;
        idx := idx + 1;
      }
      ghost var mean := N.Mean(old(a[..]), other);
      assert |mean| == a.Length;
      assert forall j :: 0 <= j < a.Length ==> mean[j] == (old(a[j]) + other[j]) / 2.0;
      assert a[..] == mean;
    }

    /** The prior loop of cum_fuse_: (a_i u' + a'_i u - (a_i + a'_i) u u') / denom. */
    method CumulativePriorWith(other: seq<real>, uncertThis: real, uncertOther: real, denom: real)
      requires |other| == prior.entries.Length && denom != 0.0
      modifies prior.entries
      ensures prior.entries[..] == O.CumulativePrior(old(prior.entries[..]), other, uncertThis, uncertOther, denom)
    {
      var a := prior.entries;
      var idx := 0;
      while idx < a.Length
        invariant 0 <= idx <= a.Length
        invariant forall j :: 0 <= j < idx ==> a[j] == CumulativePriorEntry(old(a[j]), other[j], uncertThis, uncertOther, denom)
        invariant forall j :: idx <= j < a.Length ==> a[j] == old(a[j])
      {
        a[idx] := (a[idx] * uncertOther + other[idx] * uncertThis - (a[idx] + other[idx]) * uncertThis * uncertOther) / denom;
        idx := idx + 1;
      }
      ghost var fused := O.CumulativePrior(old(a[..]), other, uncertThis, uncertOther, denom);
      assert |fused| == a.Length;
      assert forall j :: 0 <= j < a.Length ==> fused[j] == CumulativePriorEntry(old(a[j]), other[j], uncertThis, uncertOther, denom);
      assert a[..] == fused;
    }

    /** The prior loop of bc_fuse_ and wb_fuse_: (a_i (1 - u) + a'_i (1 - u')) / denom. */
    method CertaintyPriorWith(other: seq<real>, uncertThis: real, uncertOther: real, denom: real)
      requires |other| == prior.entries.Length && denom != 0.0
      modifies prior.entries
      ensures prior.entries[..] == O.CertaintyPrior(old(prior.entries[..]), other, uncertThis, uncertOther, denom)
    {
      var a := prior.entries;
      var idx := 0;
      while idx < a.Length
        invariant 0 <= idx <= a.Length
        invariant forall j :: 0 <= j < idx ==> a[j] == Combine(old(a[j]), other[j], 1.0 - uncertOther, 1.0 - uncertThis, denom)
        invariant forall j :: idx <= j < a.Length ==> a[j] == old(a[j])
      {
        a[idx] := (a[idx] * (1.0 - uncertThis) + other[idx] * (1.0 - uncertOther)) / denom;
        idx := idx + 1;
      }
      ghost var fused := O.CertaintyPrior(old(a[..]), other, uncertThis, uncertOther, denom);
      assert |fused| == a.Length;
      assert forall j :: 0 <= j < a.Length ==> fused[j] == Combine(old(a[j]), other[j], 1.0 - uncertOther, 1.0 - uncertThis, denom);
      assert a[..] == fused;
    }

    /** cum_fuse_(other): the uncertainties are read before the masses are fused. */
    method CumFuse(other: O.Opinion)
      requires Valid() && O.SameSize(Value(), other)
      modifies opinionNoBase.beliefMasses.entries, prior.entries
      ensures Value() == O.CumFuse(old(Value()), other)
    {
      ghost var o := Value();
      var uncertThis := Uncertainty();
      var uncertOther := O.Uncertainty(other);
      opinionNoBase.CumFuse(other.base);
      var denom := uncertThis + uncertOther - 2.0 * uncertThis * uncertOther;
      assert denom == WeightedDenominator(O.Uncertainty(o), O.Uncertainty(other));
      if Abs(denom) < EPS {
        MeanPriorWith(other.prior);
        return;
      }
      CumulativePriorWith(other.prior, uncertThis, uncertOther, denom);
    }

    /** cum_unfuse_(other): only the masses are unfused. */
    method CumUnfuse(other: O.Opinion)
      requires Valid() && O.SameSize(Value(), other)
      modifies opinionNoBase.beliefMasses.entries
      ensures Value() == O.CumUnfuse(old(Value()), other)
    {
      opinionNoBase.CumUnfuse(other.base);
    }

    /** bc_fuse_(other): the prior is weighted by the certainties 1 - u and 1 - u'. */
    method BcFuse(other: O.Opinion)
      requires Valid() && O.SameSize(Value(), other)
      modifies opinionNoBase.beliefMasses.entries, prior.entries
      ensures Value() == O.BcFuse(old(Value()), other)
    {
      ghost var o := Value();
      var uncertThis := Uncertainty();
      var uncertOther := O.Uncertainty(other);
      opinionNoBase.BcFuse(other.base);
      var denom := 2.0 - uncertThis - uncertOther;
      assert denom == CertaintyDenominator(O.Uncertainty(o), O.Uncertainty(other));
      if Abs(denom) < EPS {
        MeanPriorWith(other.prior);
        return;
      }
      CertaintyPriorWith(other.prior, uncertThis, uncertOther, denom);
    }

    /** average_fuse_(other): the prior becomes the mean of the two priors. */
    method AverageFuse(other: O.Opinion)
      requires Valid() && O.SameSize(Value(), other)
      modifies opinionNoBase.beliefMasses.entries, prior.entries
      ensures Value() == O.AverageFuse(old(Value()), other)
    {
      opinionNoBase.AverageFuse(other.base);
      MeanPriorWith(other.prior);
    }

    /** wb_fuse_(other): the same prior update as bc_fuse_. */
    method WbFuse(other: O.Opinion)
      requires Valid() && O.SameSize(Value(), other)
      modifies opinionNoBase.beliefMasses.entries, prior.entries
      ensures Value() == O.WbFuse(old(Value()), other)
    {
      ghost var o := Value();
      var uncertThis := Uncertainty();
      var uncertOther := O.Uncertainty(other);
      opinionNoBase.WbFuse(other.base);
      var denom := 2.0 - uncertThis - uncertOther;
      assert denom == CertaintyDenominator(O.Uncertainty(o), O.Uncertainty(other));
      if Abs(denom) < EPS {
        MeanPriorWith(other.prior);
        return;
      }
      CertaintyPriorWith(other.prior, uncertThis, uncertOther, denom);
    }

    /** cc_fuse_(other): the prior is not updated. */
    method CcFuse(other: O.Opinion)
      requires Valid() && O.SameSize(Value(), other)
      modifies opinionNoBase.beliefMasses.entries
      ensures Value() == O.CcFuse(old(Value()), other)
    {
      opinionNoBase.CcFuse(other.base);
    }

    /** multiply_(other): the masses use both priors, then the prior becomes (a a', 1 - a a'). */
    method Multiply(other: O.Opinion)
      requires Valid() && O.Binomial(Value()) && O.Binomial(other)
      requires ProductBaseRate(prior.entries[0], other.prior[0]) != 1.0
      modifies opinionNoBase.beliefMasses.entries, prior.entries
      ensures Value() == O.Multiply(old(Value()), other)
    {
      var p := prior.entries;
      var a, a' := p[0], other.prior[0];
      opinionNoBase.Multiply(other.base, a, a');
      p[0] := a * a';
      p[1] := 1.0 - p[0];
      assert p[..] == [ProductBaseRate(a, a'), 1.0 - ProductBaseRate(a, a')];
    }

    /** comultiply_(other): the prior becomes (a + a' - a a', 1 - that). */
    method Comultiply(other: O.Opinion)
      requires Valid() && O.Binomial(Value()) && O.Binomial(other)
      requires CoproductBaseRate(prior.entries[0], other.prior[0]) != 0.0
      modifies opinionNoBase.beliefMasses.entries, prior.entries
      ensures Value() == O.Comultiply(old(Value()), other)
    {
      var p := prior.entries;
      var a, a' := p[0], other.prior[0];
      opinionNoBase.Comultiply(other.base, a, a');
      p[0] := a + (a' - a * a');
      p[1] := 1.0 - p[0];
      assert p[..] == [CoproductBaseRate(a, a'), 1.0 - CoproductBaseRate(a, a')];
    }

    /** trust_discount_(p): only the masses are discounted. */
    method TrustDiscount(prop: real)
      requires Valid()
      modifies opinionNoBase.beliefMasses.entries
      ensures Value() == O.TrustDiscount(old(Value()), prop)
    {
      opinionNoBase.TrustDiscount(prop);
    }

    /** trust_discount_(trust): discount by the trust's binomial projection. */
    method TrustDiscountByTrust(trust: O.Opinion)
      requires Valid() && O.Binomial(trust)
      modifies opinionNoBase.beliefMasses.entries
      ensures Value() == O.TrustDiscountByTrust(old(Value()), trust)
    {
      opinionNoBase.TrustDiscount(O.BinomialProjection(trust));
    }

    /** limited_trust_discount_(limit, p). */
    method LimitedTrustDiscount(limit: real, prop: real)
      requires Valid()
      modifies opinionNoBase.beliefMasses.entries
      ensures Value() == O.LimitedTrustDiscount(old(Value()), limit, prop)
    {
      opinionNoBase.LimitedTrustDiscount(limit, prop);
    }

    /** limited_trust_discount_(limit, trust). */
    method LimitedTrustDiscountByTrust(limit: real, trust: O.Opinion)
      requires Valid() && O.Binomial(trust)
      modifies opinionNoBase.beliefMasses.entries
      ensures Value() == O.LimitedTrustDiscountByTrust(old(Value()), limit, trust)
    {
      opinionNoBase.LimitedTrustDiscount(limit, O.BinomialProjection(trust));
    }

    /** revise_trust_(f): the masses are revised, the prior is kept. */
    method ReviseTrust(revisionFactor: real)
      requires Valid() && O.Binomial(Value())
      modifies opinionNoBase.beliefMasses.entries
      ensures Value() == O.ReviseTrust(old(Value()), revisionFactor)
    {
      opinionNoBase.ReviseTrust(revisionFactor);
    }

    /** revise_trust_(doc, other). */
    method ReviseTrustByConflict(degreeOfConflict: real, other: O.Opinion)
      requires Valid() && O.Binomial(Value()) && O.Uncertainty(Value()) + O.Uncertainty(other) != 0.0
      modifies opinionNoBase.beliefMasses.entries
      ensures Value() == O.ReviseTrustByConflict(old(Value()), degreeOfConflict, other)
    {
      opinionNoBase.ReviseTrustByConflict(degreeOfConflict, other.base);
    }
  }

  // ---------------------------------------------------------------------
  // TrustedOpinion.
  // ---------------------------------------------------------------------

  /** The factors of revise_trust_(other), both computed before either trust changes. */
  method RevisionFactors(t: T.TrustedOpinion, other: T.TrustedOpinion) returns (factorThis: real, factorOther: real)
    requires O.Binomial(t.trust) && O.Binomial(other.trust) && O.SameSize(t.opinion, other.opinion)
    requires O.Uncertainty(t.trust) + O.Uncertainty(other.trust) != 0.0
    ensures (factorThis, factorOther) == T.PairRevisionFactors(t, other)
  {
    var conflict := O.DegreeOfConflict(t.opinion, other.opinion);
    factorThis := O.UncertaintyDifferential(t.trust, other.trust) * conflict;
    factorOther := O.UncertaintyDifferential(other.trust, t.trust) * conflict;
    assert T.PairRevisionFactors(t, other).0 == factorThis;
    assert T.PairRevisionFactors(t, other).1 == factorOther;
  }

  class TrustedOpinionObject {
    /** trust_: the binomial trust in the source. */
    const trust: OpinionObject
    /** opinion_: the source's opinion. */
    const opinion: OpinionObject

    /** The trust's arrays. */
    function TrustArrays(): set<array<real>>
    {
      {trust.opinionNoBase.beliefMasses.entries, trust.prior.entries}
    }

    /** The opinion's arrays. */
    function OpinionArrays(): set<array<real>>
    {
      {opinion.opinionNoBase.beliefMasses.entries, opinion.prior.entries}
    }

    /** A binomial trust and an opinion, stored in four different arrays. */
    predicate Valid()
    {
      trust.Valid() && opinion.Valid() && trust.prior.entries.Length == 2
      && TrustArrays() !! OpinionArrays()
    }

    /** The pair the object currently holds. */
    function Value(): T.TrustedOpinion
      reads TrustArrays(), OpinionArrays()
    {
      T.TrustedOpinion(trust.Value(), opinion.Value())
    }

    /** TrustedOpinion(trust, opinion). */
    constructor (trustValue: O.Opinion, opinionValue: O.Opinion)
      requires O.Binomial(trustValue) && O.Sized(opinionValue) && |opinionValue.prior| > 0
      ensures Valid() && Value() == T.TrustedOpinion(trustValue, opinionValue)
      ensures fresh(TrustArrays()) && fresh(OpinionArrays())
    {
      trust := new OpinionObject(trustValue.base.masses, trustValue.prior);
      opinion := new OpinionObject(opinionValue.base.masses, opinionValue.prior);
    }

    /** revise_trust_(f): the trust is revised, the opinion is untouched. */
    method ReviseTrust(revisionFactor: real)
      requires Valid()
      modifies trust.opinionNoBase.beliefMasses.entries
      ensures Value() == T.ReviseTrusted(old(Value()), revisionFactor)
    {
      trust.ReviseTrust(revisionFactor);
    }

    /**
     * revise_trust_(other): both revision factors are computed from the old
     * trusts before either trust is revised. Two different objects never
     * share storage; when other is this object, its trust is revised twice.
     */
    method RevisePair(other: TrustedOpinionObject)
      requires Valid() && other.Valid()
      requires O.SameSize(opinion.Value(), other.opinion.Value())
      requires O.Uncertainty(trust.Value()) + O.Uncertainty(other.trust.Value()) != 0.0
      requires other != this ==> (TrustArrays() + OpinionArrays()) !! (other.TrustArrays() + other.OpinionArrays())
      modifies trust.opinionNoBase.beliefMasses.entries, other.trust.opinionNoBase.beliefMasses.entries
      ensures other != this ==> (Value(), other.Value()) == T.RevisePair(old(Value()), old(other.Value()))
      ensures other == this ==>
                var factors := T.PairRevisionFactors(old(Value()), old(Value()));
                Value() == T.ReviseTrusted(T.ReviseTrusted(old(Value()), factors.0), factors.1)
    {
      var factorThis, factorOther := RevisionFactors(Value(), other.Value());
      trust.ReviseTrust(factorThis);
      other.trust.ReviseTrust(factorOther);
    }
  }
}
