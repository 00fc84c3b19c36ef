/**
 * Trust revision: how much the trust in each source of a list of trusted
 * opinions is to be revised, from the conflict (or harmony) among them.
 * A positive factor lowers the trust (revise_trust_ moves belief into
 * disbelief), a negative one raises it. The functions specify the three
 * families of factors and the dispatch; the methods follow the loops of
 * the library and are proved equal to them.
 */
module TrustRevision {
  import opened Util
  import opened CudaArray
  import opened Algebra
  import F = Fusion
  import O = Opinions
  import TO = TrustedOpinions
  import C = Conflicts

  datatype TrustRevisionType =
    | Normal
    | HarmonyNormal
    | ConflictShares
    | ConflictSharesAllowNegative
    | HarmonyShares
    | HarmonySharesAllowNegative
    | ReferenceFusion
    | HarmonyReferenceFusion

  /** The relation a revision type is driven by: the HARMONY_ types by harmony, the others by conflict. */
  function RelationOf(t: TrustRevisionType): (r: C.RelationType)
    ensures r == C.Harmony <==> t in {HarmonyNormal, HarmonyShares, HarmonySharesAllowNegative, HarmonyReferenceFusion}
  {
    match t
    case HarmonyNormal | HarmonyShares | HarmonySharesAllowNegative | HarmonyReferenceFusion => C.Harmony
    case _ => C.Conflict
  }

  /** Harmony raises trust where conflict lowers it: its scores are negated. */
  function Signed(r: C.RelationType, x: real): (y: real)
    ensures r == C.Conflict ==> y == x
    ensures r == C.Harmony ==> y == -x
  {
    if r == C.Harmony then -x else x
  }

  /** A score: x times y, negated for harmony. */
  function Score(r: C.RelationType, x: real, y: real): real
  {
    Signed(r, x * y)
  }

  /** The score of every entry of xs by the common factor y. */
  function Scores(r: C.RelationType, xs: seq<real>, y: real): (fs: seq<real>)
    ensures |fs| == |xs|
  {
    seq(|xs|, i requires 0 <= i < |xs| => Score(r, xs[i], y))
  }

  lemma ScoreAdd(r: C.RelationType, a: real, b: real, y: real)
    ensures Score(r, a, y) + Score(r, b, y) == Score(r, a + b, y)
  {
    assert a * y + b * y == (a + b) * y;
  }

  /** Scoring is linear: the scores add up to the score of the sum. */
  lemma {:induction false} SumScores(r: C.RelationType, xs: seq<real>, y: real)
    ensures Sum(Scores(r, xs, y)) == Score(r, Sum(xs), y)
    decreases |xs|
  {
    if |xs| > 0 {
      var k := |xs| - 1;
      SumScores(r, xs[..k], y);
      assert Scores(r, xs, y)[..k] == Scores(r, xs[..k], y);
      ScoreAdd(r, Sum(xs[..k]), xs[k], y);
    }
  }

  /** What every revision needs: binomial trusts and opinions of one size n > 0. */
  predicate Trusted(tos: seq<TO.TrustedOpinion>, n: nat)
  {
    n > 0 && TO.AllTrustsBinomial(tos) && F.SizedList(TO.ExtractOpinions(tos), n)
  }

  /** Discounting keeps the size of every opinion. */
  lemma DiscountedSized(tos: seq<TO.TrustedOpinion>, n: nat)
    requires Trusted(tos, n)
    ensures F.SizedList(TO.ExtractDiscountedOpinions(tos), n)
  {
    forall i | 0 <= i < |tos|
      ensures |TO.ExtractDiscountedOpinions(tos)[i].base.masses| == n
      ensures |TO.ExtractDiscountedOpinions(tos)[i].prior| == n
    {
      assert TO.ExtractOpinions(tos)[i] == tos[i].opinion;
    }
  }

  // ---------------------------------------------------------------------
  // NORMAL and HARMONY_NORMAL.
  // ---------------------------------------------------------------------

  /**
   * normal_trust_revision: the trust uncertainty differentials scaled by
   * the aggregate over the discounted opinions; BELIEF_WEIGHTED fails in
   * the aggregate.
   */
  function NormalFactors(r: C.RelationType, c: C.ConflictType, tos: seq<TO.TrustedOpinion>, n: nat)
    : (res: Result<seq<real>>)
    requires Trusted(tos, n) && C.Computable(c, TO.ExtractDiscountedOpinions(tos), n)
    ensures res.Failure? <==> c == C.BeliefWeighted
    ensures res.Success? ==> |res.value| == |tos|
  {
    match C.Aggregate(r, c, TO.ExtractDiscountedOpinions(tos), None, n)
    case Success(conflict) => Success(Scores(r, C.TrustDifferentials(tos), conflict))
    case Failure(e) => Failure(e)
  }

  /**
   * The normal factors distribute the aggregate over the sources in
   * proportion to their trust uncertainty: they add up to the (signed)
   * aggregate, and are all 0 when the trusts are (almost) certain.
   */
  lemma NormalFactorsDistribute(r: C.RelationType, c: C.ConflictType, tos: seq<TO.TrustedOpinion>, n: nat)
    requires Trusted(tos, n) && C.Computable(c, TO.ExtractDiscountedOpinions(tos), n)
    requires c != C.BeliefWeighted
    ensures Sum(C.UncertaintiesOf(TO.ExtractTrusts(tos))) >= EPS
            ==> Sum(NormalFactors(r, c, tos, n).value)
                == Signed(r, C.Aggregate(r, c, TO.ExtractDiscountedOpinions(tos), None, n).value)
    ensures Sum(C.UncertaintiesOf(TO.ExtractTrusts(tos))) < EPS
            ==> NormalFactors(r, c, tos, n).value == Constant(|tos|, 0.0)
  {
    C.UncertaintyDifferentialsSplitOne(TO.ExtractTrusts(tos));
    SpreadScores(r, C.TrustDifferentials(tos), C.Aggregate(r, c, TO.ExtractDiscountedOpinions(tos), None, n).value);
  }

  /** Scores by weights that add up to 1 add up to the signed factor; zero weights score 0. */
  lemma SpreadScores(r: C.RelationType, ds: seq<real>, y: real)
    ensures Sum(ds) == 1.0 ==> Sum(Scores(r, ds, y)) == Signed(r, y)
    ensures (forall i :: 0 <= i < |ds| ==> ds[i] == 0.0) ==> Scores(r, ds, y) == Constant(|ds|, 0.0)
  {
    SumScores(r, ds, y);
  }

  // ---------------------------------------------------------------------
  // CONFLICT_SHARES, HARMONY_SHARES and their _ALLOW_NEGATIVE variants.
  // ---------------------------------------------------------------------

  /** What the shares revision needs: for a type other than AVERAGE, an aggregate over the discounted opinions. */
  predicate SharesReady(c: C.ConflictType, tos: seq<TO.TrustedOpinion>, n: nat)
  {
    Trusted(tos, n) && (c != C.Average ==> C.Computable(c, TO.ExtractDiscountedOpinions(tos), n))
  }

  /**
   * The magnitude distributed by the shares: the AVERAGE aggregate over the
   * raw opinions, or for any other type the aggregate over the discounted
   * opinions.
   */
  function Magnitude(r: C.RelationType, c: C.ConflictType, tos: seq<TO.TrustedOpinion>, n: nat): (res: Result<real>)
    requires SharesReady(c, tos, n)
    ensures res.Failure? <==> c == C.BeliefWeighted
  {
    if c == C.Average then Success(C.ConflictShares(r, C.Average, TO.ExtractOpinions(tos), n).0)
    else C.Aggregate(r, c, TO.ExtractDiscountedOpinions(tos), None, n)
  }

  /** Each share times the magnitude, negated for harmony; negative shares give 0 when only positive scores are kept. */
  function ScaledShares(r: C.RelationType, shares: seq<real>, magnitude: real, positiveOnly: bool): (fs: seq<real>)
    ensures |fs| == |shares|
  {
    seq(|shares|, i requires 0 <= i < |shares| =>
      if positiveOnly && shares[i] < 0.0 then 0.0 else Score(r, shares[i], magnitude))
  }

  /** conflict_shares_trust_revision: the AVERAGE shares of the raw opinions, scaled by the magnitude. */
  function SharesFactors(r: C.RelationType, c: C.ConflictType, tos: seq<TO.TrustedOpinion>, n: nat, positiveOnly: bool)
    : (res: Result<seq<real>>)
    requires SharesReady(c, tos, n)
    ensures res.Failure? <==> c == C.BeliefWeighted
    ensures res.Success? ==> |res.value| == |tos|
  {
    var shares := C.ConflictShares(r, C.Average, TO.ExtractOpinions(tos), n).1;
    match Magnitude(r, c, tos, n)
    case Success(magnitude) => Success(ScaledShares(r, shares, magnitude, positiveOnly))
    case Failure(e) => Failure(e)
  }

  /**
   * With only positive scores kept and a magnitude of at least 0, conflict
   * never raises a trust and harmony never lowers one; without the filter
   * the factors add up to the magnitude times the sum of the shares.
   */
  lemma ScaledSharesSign(r: C.RelationType, shares: seq<real>, magnitude: real, positiveOnly: bool)
    ensures positiveOnly && magnitude >= 0.0 ==>
              forall i :: 0 <= i < |shares| ==> Signed(r, ScaledShares(r, shares, magnitude, positiveOnly)[i]) >= 0.0
    ensures !positiveOnly ==> Sum(ScaledShares(r, shares, magnitude, positiveOnly)) == Score(r, Sum(shares), magnitude)
  {
    if positiveOnly && magnitude >= 0.0 {
      forall i | 0 <= i < |shares|
        ensures Signed(r, ScaledShares(r, shares, magnitude, positiveOnly)[i]) >= 0.0
      {
        if shares[i] >= 0.0 {
          ProductNonNegative(shares[i], magnitude);
        }
      }
    }
    if !positiveOnly {
      assert ScaledShares(r, shares, magnitude, positiveOnly) == Scores(r, shares, magnitude);
      SumScores(r, shares, magnitude);
    }
  }

  /** When the opinions agree (their AVERAGE aggregate is below EPS), no trust is revised. */
  lemma SharesFactorsAgreement(r: C.RelationType, c: C.ConflictType, tos: seq<TO.TrustedOpinion>, n: nat, positiveOnly: bool)
    requires SharesReady(c, tos, n) && c != C.BeliefWeighted
    requires C.Aggregate(r, C.Average, TO.ExtractOpinions(tos), None, n).value < EPS
    ensures SharesFactors(r, c, tos, n, positiveOnly).value == Constant(|tos|, 0.0)
  {
    var shares := C.ConflictShares(r, C.Average, TO.ExtractOpinions(tos), n).1;
    assert shares == Constant(|tos|, 0.0);
  }

  // ---------------------------------------------------------------------
  // REFERENCE_FUSION and HARMONY_REFERENCE_FUSION.
  // ---------------------------------------------------------------------

  /**
   * The scores of reference_fusion_trust_revision: 0 for a conflict at or
   * below the mean, otherwise the maximum times the excess over the mean
   * relative to the excess of the maximum, negated for harmony.
   */
  function RelativeScores(r: C.RelationType, b: C.BeliefConflictsResult): (fs: seq<real>)
    requires forall i :: 0 <= i < |b.conflicts| ==> b.conflicts[i] <= b.maxConflict
    ensures |fs| == |b.conflicts|
  {
    seq(|b.conflicts|, i requires 0 <= i < |b.conflicts| =>
      var relative := b.conflicts[i] - b.avgConflict;
      if relative <= 0.0 then 0.0
      else Signed(r, Proportion(b.maxConflict, relative, b.maxConflict - b.avgConflict)))
  }

  /**
   * Each score lies between 0 and the maximum conflict (negated for
   * harmony); it is non-zero exactly for the opinions above the mean when
   * the maximum is positive; the most conflicting opinion scores the
   * maximum itself.
   */
  lemma RelativeScoresBounds(r: C.RelationType, b: C.BeliefConflictsResult, i: nat)
    requires forall k :: 0 <= k < |b.conflicts| ==> b.conflicts[k] <= b.maxConflict
    requires b.maxConflict >= 0.0 && i < |b.conflicts|
    ensures 0.0 <= Signed(r, RelativeScores(r, b)[i]) <= b.maxConflict
    ensures RelativeScores(r, b)[i] != 0.0 <==> b.conflicts[i] > b.avgConflict && b.maxConflict > 0.0
    ensures b.conflicts[i] == b.maxConflict > b.avgConflict ==> RelativeScores(r, b)[i] == Signed(r, b.maxConflict)
  {
    var relative := b.conflicts[i] - b.avgConflict;
    if relative > 0.0 {
      ProportionWithin(b.maxConflict, relative, b.maxConflict - b.avgConflict);
    }
  }

  /** A more conflicting opinion is revised at least as much as a less conflicting one (harmony: raised as much). */
  lemma RelativeScoresMonotone(r: C.RelationType, b: C.BeliefConflictsResult, i: nat, j: nat)
    requires forall k :: 0 <= k < |b.conflicts| ==> b.conflicts[k] <= b.maxConflict
    requires b.maxConflict >= 0.0 && i < |b.conflicts| && j < |b.conflicts|
    requires b.conflicts[i] <= b.conflicts[j]
    ensures Signed(r, RelativeScores(r, b)[i]) <= Signed(r, RelativeScores(r, b)[j])
  {
    RelativeScoresBounds(r, b, i);
    RelativeScoresBounds(r, b, j);
    if b.conflicts[i] - b.avgConflict > 0.0 {
      ProportionMonotone(b.maxConflict, b.conflicts[i] - b.avgConflict, b.conflicts[j] - b.avgConflict,
                         b.maxConflict - b.avgConflict);
    }
  }

  /** What the reference revision needs: a non-empty list whose fusion by the type's fusion is defined. */
  predicate ReferenceReady(c: C.ConflictType, tos: seq<TO.TrustedOpinion>, n: nat)
  {
    Trusted(tos, n) && |tos| > 0
    && (C.IsBelief(c) ==> F.Defined(C.BeliefFusionType(c).value, F.Bases(TO.ExtractDiscountedOpinions(tos)), n))
  }

  /**
   * reference_fusion_trust_revision: the discounted opinions are fused by
   * the conflict type's fusion, and the raw opinions are scored by their
   * conflict with that reference. A non-belief conflict type fails in
   * get_belief_fusion_type, BELIEF_WEIGHTED in the fusion.
   */
  function ReferenceFactors(r: C.RelationType, c: C.ConflictType, tos: seq<TO.TrustedOpinion>, n: nat)
    : (res: Result<seq<real>>)
    requires ReferenceReady(c, tos, n)
    ensures res.Failure? <==> !C.IsBelief(c) || c == C.BeliefWeighted
    ensures res.Success? ==> |res.value| == |tos|
  {
    DiscountedSized(tos, n);
    match C.BeliefFusionType(c)
    case Failure(e) => Failure(e)
    case Success(t) =>
      match F.Fused(t, TO.ExtractDiscountedOpinions(tos), n)
      case Failure(e) => Failure(e)
      case Success(reference) => Success(RelativeScores(r, C.Against(r, reference, TO.ExtractOpinions(tos), n)))
  }

  /** The conflicts of the raw opinions with the fusion of the discounted ones, for a belief type that fuses. */
  function ReferenceConflictsOf(r: C.RelationType, c: C.ConflictType, tos: seq<TO.TrustedOpinion>, n: nat)
    : (b: C.BeliefConflictsResult)
    requires ReferenceReady(c, tos, n) && C.IsBelief(c) && c != C.BeliefWeighted
    ensures |b.conflicts| == |tos| && b.maxConflict >= 0.0
    ensures forall k :: 0 <= k < |tos| ==> b.conflicts[k] <= b.maxConflict
  {
    DiscountedSized(tos, n);
    C.Against(r, F.Fused(C.BeliefFusionType(c).value, TO.ExtractDiscountedOpinions(tos), n).value, TO.ExtractOpinions(tos), n)
  }

  /**
   * A successful reference revision scores the conflicts with the reference:
   * each factor lies in [0, max] (negated for harmony), is non-zero exactly
   * above the mean, and grows with the conflict.
   */
  lemma ReferenceFactorsBounds(r: C.RelationType, c: C.ConflictType, tos: seq<TO.TrustedOpinion>, n: nat, i: nat, j: nat)
    requires ReferenceReady(c, tos, n) && C.IsBelief(c) && c != C.BeliefWeighted && i < |tos| && j < |tos|
    ensures ReferenceFactors(r, c, tos, n).value == RelativeScores(r, ReferenceConflictsOf(r, c, tos, n))
    ensures 0.0 <= Signed(r, ReferenceFactors(r, c, tos, n).value[i]) <= ReferenceConflictsOf(r, c, tos, n).maxConflict
    ensures ReferenceFactors(r, c, tos, n).value[i] != 0.0
            <==> ReferenceConflictsOf(r, c, tos, n).conflicts[i] > ReferenceConflictsOf(r, c, tos, n).avgConflict
                 && ReferenceConflictsOf(r, c, tos, n).maxConflict > 0.0
    ensures ReferenceConflictsOf(r, c, tos, n).conflicts[i] <= ReferenceConflictsOf(r, c, tos, n).conflicts[j]
            ==> Signed(r, ReferenceFactors(r, c, tos, n).value[i]) <= Signed(r, ReferenceFactors(r, c, tos, n).value[j])
  {
    var b := ReferenceConflictsOf(r, c, tos, n);
    RelativeScoresBounds(r, b, i);
    if b.conflicts[i] <= b.conflicts[j] {
      RelativeScoresMonotone(r, b, i, j);
    }
  }

  // ---------------------------------------------------------------------
  // The dispatch: revision_factors.
  // ---------------------------------------------------------------------

  /** What the revision of type t needs of the selected trusted opinions. */
  predicate Revisable(t: TrustRevisionType, c: C.ConflictType, used: seq<TO.TrustedOpinion>, n: nat)
  {
    match t
    case Normal | HarmonyNormal => Trusted(used, n) && C.Computable(c, TO.ExtractDiscountedOpinions(used), n)
    case ReferenceFusion | HarmonyReferenceFusion => ReferenceReady(c, used, n)
    case _ => SharesReady(c, used, n)
  }

  /**
   * revision_factors: the mask is applied, then the factors of the type's
   * family are computed for the relation the type names. One factor per
   * selected opinion; failures are those of the family.
   */
  function RevisionFactors(t: TrustRevisionType, c: C.ConflictType, tos: seq<TO.TrustedOpinion>,
                           mask: Option<seq<bool>>, n: nat): (res: Result<seq<real>>)
    requires mask.Some? ==> |mask.value| == |tos|
    requires Revisable(t, c, C.Used(tos, mask), n)
    ensures res.Success? ==> |res.value| == |C.Used(tos, mask)|
    ensures res.Failure? <==> c == C.BeliefWeighted || (t in {ReferenceFusion, HarmonyReferenceFusion} && !C.IsBelief(c))
  {
    var used := C.Used(tos, mask);
    var r := RelationOf(t);
    match t
    case Normal | HarmonyNormal => NormalFactors(r, c, used, n)
    case ConflictShares | HarmonyShares => SharesFactors(r, c, used, n, true)
    case ConflictSharesAllowNegative | HarmonySharesAllowNegative => SharesFactors(r, c, used, n, false)
    case ReferenceFusion | HarmonyReferenceFusion => ReferenceFactors(r, c, used, n)
  }

  /** A lone opinion has nothing to conflict with: the pair aggregates are 0, so the normal factor is 0. */
  lemma LoneSourceNormal(r: C.RelationType, c: C.ConflictType, tos: seq<TO.TrustedOpinion>, n: nat)
    requires |tos| == 1 && Trusted(tos, n) && C.Computable(c, TO.ExtractDiscountedOpinions(tos), n)
    requires c == C.Accumulate || c == C.Average
    ensures NormalFactors(r, c, tos, n).value == [0.0]
  {
    assert C.Aggregate(r, c, TO.ExtractDiscountedOpinions(tos), None, n).value == 0.0;
  }

  /** A lone opinion has no AVERAGE conflict, hence only zero shares, hence a zero factor. */
  lemma LoneSourceShares(r: C.RelationType, c: C.ConflictType, tos: seq<TO.TrustedOpinion>, n: nat, positiveOnly: bool)
    requires |tos| == 1 && SharesReady(c, tos, n) && c != C.BeliefWeighted
    ensures SharesFactors(r, c, tos, n, positiveOnly).value == [0.0]
  {
    assert C.Aggregate(r, C.Average, TO.ExtractOpinions(tos), None, n).value == 0.0;
    SharesFactorsAgreement(r, c, tos, n, positiveOnly);
  }

  /** A lone opinion is its own mean conflict with the reference, so it scores 0. */
  lemma LoneSourceReference(r: C.RelationType, c: C.ConflictType, tos: seq<TO.TrustedOpinion>, n: nat)
    requires |tos| == 1 && ReferenceReady(c, tos, n) && C.IsBelief(c) && c != C.BeliefWeighted
    ensures ReferenceFactors(r, c, tos, n).value == [0.0]
  {
    var b := ReferenceConflictsOf(r, c, tos, n);
    ReferenceFactorsBounds(r, c, tos, n, 0, 0);
    SumSingle(b.conflicts, 0);
    assert b.avgConflict == b.conflicts[0];
  }

  /**
   * One trusted opinion alone is never revised, by any revision type that
   * succeeds, except that NORMAL with a belief conflict type compares it
   * with the fusion of itself.
   */
  lemma LoneSourceKeepsTrust(t: TrustRevisionType, c: C.ConflictType, tos: seq<TO.TrustedOpinion>, n: nat)
    requires |tos| == 1 && Revisable(t, c, tos, n)
    requires RevisionFactors(t, c, tos, None, n).Success?
    requires t == Normal || t == HarmonyNormal ==> c == C.Accumulate || c == C.Average
    ensures RevisionFactors(t, c, tos, None, n).value == [0.0]
  {
    var r := RelationOf(t);
    match t
    case Normal | HarmonyNormal => LoneSourceNormal(r, c, tos, n);
    case ConflictShares | HarmonyShares => LoneSourceShares(r, c, tos, n, true);
    case ConflictSharesAllowNegative | HarmonySharesAllowNegative => LoneSourceShares(r, c, tos, n, false);
    case ReferenceFusion | HarmonyReferenceFusion => LoneSourceReference(r, c, tos, n);
  }

  // ---------------------------------------------------------------------
  // The loops of the library, proved against the functions above.
  // ---------------------------------------------------------------------

  /** normal_trust_revision: differentials, aggregate, then one score per opinion. */
  method ComputeNormalFactors(r: C.RelationType, c: C.ConflictType, tos: seq<TO.TrustedOpinion>, n: nat)
    returns (res: Result<seq<real>>)
    requires Trusted(tos, n) && C.Computable(c, TO.ExtractDiscountedOpinions(tos), n)
    ensures res == NormalFactors(r, c, tos, n)
  {
    var discounted := TO.ExtractDiscountedOpinions(tos);
    var differentials := C.ComputeTrustDifferentials(tos);
    var aggregate := C.FunctionSwitch(r, c, discounted, None, n);
    match aggregate
    case Failure(e) =>
      return Failure(e);
    case Success(conflict) =>
      var factors := ScoreEach(r, differentials, conflict);
      return Success(factors);
  }

  /** The loop of normal_trust_revision: each differential times the aggregate, negated for harmony. */
  method ScoreEach(r: C.RelationType, differentials: seq<real>, conflict: real) returns (factors: seq<real>)
    ensures factors == Scores(r, differentials, conflict)
  {
    factors := [];
    for i := 0 to |differentials|
      invariant factors == Scores(r, differentials, conflict)[..i]
    {
      var score := differentials[i] * conflict;
      if r == C.Harmony {
        score := score * -1.0;
      }
      assert score == Score(r, differentials[i], conflict);
      factors := factors + [score];
    }
  }

  /** conflict_shares_trust_revision: AVERAGE shares of the raw opinions, the magnitude, then one score per opinion. */
  method ComputeSharesFactors(r: C.RelationType, c: C.ConflictType, tos: seq<TO.TrustedOpinion>, n: nat, positiveOnly: bool)
    returns (res: Result<seq<real>>)
    requires SharesReady(c, tos, n)
    ensures res == SharesFactors(r, c, tos, n, positiveOnly)
  {
    var raw := TO.ExtractOpinions(tos);
    var conflict, shares := C.ComputeConflictShares(r, C.Average, raw, n);
    if c != C.Average {
      var aggregate := C.FunctionSwitch(r, c, TO.ExtractDiscountedOpinions(tos), None, n);
      match aggregate
      case Failure(e) =>
        return Failure(e);
      case Success(v) =>
        conflict := v;
    }
    var factors := ScaleEachShare(r, shares, conflict, positiveOnly);
    return Success(factors);
  }

  /** The loop of conflict_shares_trust_revision. */
  method ScaleEachShare(r: C.RelationType, shares: seq<real>, conflict: real, positiveOnly: bool) returns (factors: seq<real>)
    ensures factors == ScaledShares(r, shares, conflict, positiveOnly)
  {
    factors := [];
    for i := 0 to |shares|
      invariant factors == ScaledShares(r, shares, conflict, positiveOnly)[..i]
    {
      var share := shares[i];
      if positiveOnly && share < 0.0 {
        factors := factors + [0.0];
        continue;
      }
      var scaledShare := share * conflict;
      if r == C.Harmony {
        scaledShare := scaledShare * -1.0;
      }
      assert scaledShare == Score(r, shares[i], conflict);
      factors := factors + [scaledShare];
    }
  }

  /**
   * reference_fusion_trust_revision: fuse the discounted opinions, take the
   * conflicts of the raw opinions with that reference (belief_conflicts
   * with a supplied reference), then one score per opinion.
   */
  method ComputeReferenceFactors(r: C.RelationType, c: C.ConflictType, tos: seq<TO.TrustedOpinion>, n: nat)
    returns (res: Result<seq<real>>)
    requires ReferenceReady(c, tos, n)
    ensures res == ReferenceFactors(r, c, tos, n)
  {
    DiscountedSized(tos, n);
    var discounted := TO.ExtractDiscountedOpinions(tos);
    var raw := TO.ExtractOpinions(tos);
    match C.BeliefFusionType(c)
    case Failure(e) =>
      return Failure(e);
    case Success(fusionType) =>
      var fused := F.FuseOpinions(fusionType, discounted, n);
      match fused
      case Failure(e) =>
        return Failure(e);
      case Success(reference) =>
        var b := C.ConflictsAgainst(r, reference, raw, n);
        var factors := ScoreAboveMean(r, b);
        return Success(factors);
  }

  /** The loop of reference_fusion_trust_revision. */
  method ScoreAboveMean(r: C.RelationType, b: C.BeliefConflictsResult) returns (factors: seq<real>)
    requires forall i :: 0 <= i < |b.conflicts| ==> b.conflicts[i] <= b.maxConflict
    ensures factors == RelativeScores(r, b)
  {
    var denom := b.maxConflict - b.avgConflict;
    factors := [];
    for i := 0 to |b.conflicts|
      invariant factors == RelativeScores(r, b)[..i]
    {
      var relativeConflict := b.conflicts[i] - b.avgConflict;
      if relativeConflict <= 0.0 {
        factors := factors + [0.0];
        continue;
      }
      var revisionFactor := Proportion(b.maxConflict, relativeConflict, denom);
      if r == C.Harmony {
        revisionFactor := revisionFactor * -1.0;
      }
      factors := factors + [revisionFactor];
    }
  }

  /** revision_factors: the mask loop, then the family and relation of the type. */
  method ComputeRevisionFactors(t: TrustRevisionType, c: C.ConflictType, tos: seq<TO.TrustedOpinion>,
                                mask: Option<seq<bool>>, n: nat) returns (res: Result<seq<real>>)
    requires mask.Some? ==> |mask.value| == |tos|
    requires Revisable(t, c, C.Used(tos, mask), n)
    ensures res == RevisionFactors(t, c, tos, mask, n)
  {
    var used := C.SelectUsed(tos, mask);
    match t
    case Normal =>
      res := ComputeNormalFactors(C.Conflict, c, used, n);
    case HarmonyNormal =>
      res := ComputeNormalFactors(C.Harmony, c, used, n);
    case ConflictShares =>
      res := ComputeSharesFactors(C.Conflict, c, used, n, true);
    case ConflictSharesAllowNegative =>
      res := ComputeSharesFactors(C.Conflict, c, used, n, false);
    case HarmonyShares =>
      res := ComputeSharesFactors(C.Harmony, c, used, n, true);
    case HarmonySharesAllowNegative =>
      res := ComputeSharesFactors(C.Harmony, c, used, n, false);
    case ReferenceFusion =>
      res := ComputeReferenceFactors(C.Conflict, c, used, n);
    case HarmonyReferenceFusion =>
      res := ComputeReferenceFactors(C.Harmony, c, used, n);
  }
}
