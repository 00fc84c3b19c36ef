/**
 * Trusted fusion: the trust in each source is revised by a weighted sum of
 * revision factors, each source's opinion is discounted by its revised
 * trust, and the discounted opinions are fused. The copying overloads are
 * functions; the in-place overload is a method that revises the trusted
 * opinions of an array.
 */
module TrustedFusion {
  import opened Util
  import opened CudaArray
  import F = Fusion
  import N = NoBaseOpinions
  import O = Opinions
  import TO = TrustedOpinions
  import C = Conflicts
  import TR = TrustRevision

  /** One revision to apply: the revision type, the conflict type it measures with, and its weight. */
  datatype WeightedType = WeightedType(revision: TR.TrustRevisionType, conflict: C.ConflictType, weight: real)

  /** Every weighted type can compute its factors over the whole list. */
  predicate AllRevisable(types: seq<WeightedType>, tos: seq<TO.TrustedOpinion>, n: nat)
  {
    forall k :: 0 <= k < |types| ==> TR.Revisable(types[k].revision, types[k].conflict, tos, n)
  }

  /**
   * The weighted revision factors of fusion_calculation: zeros, to which
   * each type in turn adds its weight times its factors; the first type
   * whose factors fail makes the whole fail.
   */
  function CombinedFactors(types: seq<WeightedType>, tos: seq<TO.TrustedOpinion>, n: nat): (res: Result<seq<real>>)
    requires AllRevisable(types, tos, n)
    ensures res.Success? ==> |res.value| == |tos|
    decreases |types|
  {
    if |types| == 0 then Success(Constant(|tos|, 0.0))
    else
      var k := |types| - 1;
      match CombinedFactors(types[..k], tos, n)
      case Failure(e) => Failure(e)
      case Success(acc) =>
        match TR.RevisionFactors(types[k].revision, types[k].conflict, tos, None, n)
        case Failure(e) => Failure(e)
        case Success(factors) => Success(N.Blend(acc, factors, types[k].weight))
  }

  /** The factors of one weighted type fail. */
  predicate TypeFails(w: WeightedType, tos: seq<TO.TrustedOpinion>, n: nat)
  {
    TR.Revisable(w.revision, w.conflict, tos, n) && TR.RevisionFactors(w.revision, w.conflict, tos, None, n).Failure?
  }

  /** For every weighted type, whether its factors fail. */
  function FailFlags(types: seq<WeightedType>, tos: seq<TO.TrustedOpinion>, n: nat): (flags: seq<bool>)
    ensures |flags| == |types|
  {
    seq(|types|, k requires 0 <= k < |types| => TypeFails(types[k], tos, n))
  }

  /** One more type: the combination fails when the others did or the new one does. */
  lemma CombinedFactorsStep(types: seq<WeightedType>, tos: seq<TO.TrustedOpinion>, n: nat)
    requires AllRevisable(types, tos, n) && |types| > 0
    ensures AllRevisable(types[..|types| - 1], tos, n)
    ensures CombinedFactors(types, tos, n).Failure?
            <==> CombinedFactors(types[..|types| - 1], tos, n).Failure? || TypeFails(types[|types| - 1], tos, n)
  {
    var k := |types| - 1;
    var prefix := types[..k];
    forall j | 0 <= j < k ensures prefix[j] == types[j] {
    }
  }

  lemma FailFlagsStep(types: seq<WeightedType>, tos: seq<TO.TrustedOpinion>, n: nat)
    requires |types| > 0
    ensures FailFlags(types, tos, n) == FailFlags(types[..|types| - 1], tos, n) + [TypeFails(types[|types| - 1], tos, n)]
  {
    var k := |types| - 1;
    var prefix := types[..k];
    forall j | 0 <= j < k ensures prefix[j] == types[j] {
    }
  }

  /** The weighted factors fail exactly when one of the types fails, whatever its weight. */
  lemma {:induction false} CombinedFactorsFailure(types: seq<WeightedType>, tos: seq<TO.TrustedOpinion>, n: nat)
    requires AllRevisable(types, tos, n)
    ensures CombinedFactors(types, tos, n).Failure? <==> true in FailFlags(types, tos, n)
    decreases |types|
  {
    if |types| > 0 {
      CombinedFactorsStep(types, tos, n);
      FailFlagsStep(types, tos, n);
      CombinedFactorsFailure(types[..|types| - 1], tos, n);
    }
  }

  /**
   * One type of weight 1 combines to exactly its own factors: the
   * single-type overloads revise by the factors of that type.
   */
  lemma SingleTypeFactors(revision: TR.TrustRevisionType, conflict: C.ConflictType, tos: seq<TO.TrustedOpinion>, n: nat)
    requires TR.Revisable(revision, conflict, tos, n)
    ensures AllRevisable([WeightedType(revision, conflict, 1.0)], tos, n)
    ensures CombinedFactors([WeightedType(revision, conflict, 1.0)], tos, n)
            == TR.RevisionFactors(revision, conflict, tos, None, n)
  {
    var types := [WeightedType(revision, conflict, 1.0)];
    assert types[..0] == [];
    assert CombinedFactors(types[..0], tos, n) == Success(Constant(|tos|, 0.0));
    match TR.RevisionFactors(revision, conflict, tos, None, n)
    case Success(factors) =>
      BlendFromZero(factors);
    case Failure(e) =>
  }

  /** Adding factors with weight 1 to zeros gives the factors. */
  lemma BlendFromZero(factors: seq<real>)
    ensures N.Blend(Constant(|factors|, 0.0), factors, 1.0) == factors
  {
  }

  /** The opinions discounted by the trusts revised by their factors. */
  function RevisedDiscounted(tos: seq<TO.TrustedOpinion>, factors: seq<real>): (os: seq<O.Opinion>)
    requires TO.AllTrustsBinomial(tos) && |factors| == |tos|
    ensures |os| == |tos|
  {
    seq(|tos|, i requires 0 <= i < |tos| => TO.DiscountedOpinion(TO.ReviseTrusted(tos[i], factors[i])))
  }

  /** Revision by zero factors leaves every trust alone, so the opinions are simply discounted. */
  lemma RevisedDiscountedByZero(tos: seq<TO.TrustedOpinion>)
    requires TO.AllTrustsBinomial(tos)
    ensures RevisedDiscounted(tos, Constant(|tos|, 0.0)) == TO.ExtractDiscountedOpinions(tos)
  {
    forall i | 0 <= i < |tos|
      ensures TO.ReviseTrusted(tos[i], 0.0) == tos[i]
    {
      N.ReviseTrustZero(tos[i].trust.base);
    }
  }

  /** Revision keeps every opinion's size. */
  lemma RevisedSized(tos: seq<TO.TrustedOpinion>, factors: seq<real>, n: nat)
    requires TR.Trusted(tos, n) && |factors| == |tos|
    ensures F.SizedList(RevisedDiscounted(tos, factors), n)
  {
    forall i | 0 <= i < |tos|
      ensures |RevisedDiscounted(tos, factors)[i].base.masses| == n && |RevisedDiscounted(tos, factors)[i].prior| == n
    {
      assert TO.ExtractOpinions(tos)[i] == tos[i].opinion;
    }
  }

  /** What fusion_calculation needs: factors for every type, and a defined fusion of the revised, discounted opinions. */
  predicate Fusable(t: F.FusionType, types: seq<WeightedType>, tos: seq<TO.TrustedOpinion>, n: nat)
  {
    TR.Trusted(tos, n) && AllRevisable(types, tos, n)
    && (CombinedFactors(types, tos, n).Success? ==>
          F.Defined(t, F.Bases(RevisedDiscounted(tos, CombinedFactors(types, tos, n).value)), n))
  }

  /**
   * fusion_calculation (and the copying fuse_opinions over weighted types):
   * every trust is revised by its weighted factor, every opinion
   * discounted by its revised trust, and the results fused.
   */
  function FusionCalculation(t: F.FusionType, types: seq<WeightedType>, tos: seq<TO.TrustedOpinion>, n: nat)
    : (res: Result<O.Opinion>)
    requires Fusable(t, types, tos, n)
    ensures res.Success? ==> O.Sized(res.value) && |res.value.prior| == n
  {
    match CombinedFactors(types, tos, n)
    case Failure(e) => Failure(e)
    case Success(factors) =>
      RevisedSized(tos, factors, n);
      F.Fused(t, RevisedDiscounted(tos, factors), n)
  }

  /** The overload of one revision type and one conflict type: the weighted overload with weight 1. */
  function FuseSingle(t: F.FusionType, revision: TR.TrustRevisionType, conflict: C.ConflictType,
                      tos: seq<TO.TrustedOpinion>, n: nat): (res: Result<O.Opinion>)
    requires Fusable(t, [WeightedType(revision, conflict, 1.0)], tos, n)
  {
    FusionCalculation(t, [WeightedType(revision, conflict, 1.0)], tos, n)
  }

  /** The single-type overload revises every trust by the factors of that one type. */
  lemma SingleTypeFusion(t: F.FusionType, revision: TR.TrustRevisionType, conflict: C.ConflictType,
                         tos: seq<TO.TrustedOpinion>, n: nat, factors: seq<real>)
    requires Fusable(t, [WeightedType(revision, conflict, 1.0)], tos, n)
    requires TR.Revisable(revision, conflict, tos, n)
    requires TR.RevisionFactors(revision, conflict, tos, None, n) == Success(factors)
    ensures |factors| == |tos| && F.SizedList(RevisedDiscounted(tos, factors), n)
    ensures F.Defined(t, F.Bases(RevisedDiscounted(tos, factors)), n)
    ensures FuseSingle(t, revision, conflict, tos, n) == F.Fused(t, RevisedDiscounted(tos, factors), n)
  {
    SingleTypeFactors(revision, conflict, tos, n);
    RevisedSized(tos, factors, n);
  }

  /** Trusted fusion fails exactly for WEIGHTED fusion or when the factors of one of the types fail. */
  lemma FusionCalculationFailure(t: F.FusionType, types: seq<WeightedType>, tos: seq<TO.TrustedOpinion>, n: nat)
    requires Fusable(t, types, tos, n)
    ensures FusionCalculation(t, types, tos, n).Failure?
            <==> t == F.Weighted || true in FailFlags(types, tos, n)
  {
    CombinedFactorsFailure(types, tos, n);
  }

  /**
   * The overload without revision types: no trust is revised, and the
   * result is the plain fusion of the discounted opinions.
   */
  lemma UnrevisedFusion(t: F.FusionType, tos: seq<TO.TrustedOpinion>, n: nat)
    requires TR.Trusted(tos, n) && F.Defined(t, F.Bases(TO.ExtractDiscountedOpinions(tos)), n)
    ensures Fusable(t, [], tos, n)
    ensures F.SizedList(TO.ExtractDiscountedOpinions(tos), n)
    ensures FusionCalculation(t, [], tos, n) == F.Fused(t, TO.ExtractDiscountedOpinions(tos), n)
  {
    RevisedDiscountedByZero(tos);
    TR.DiscountedSized(tos, n);
  }

  /** Every trusted opinion with its trust revised by its factor. */
  function RevisedAll(tos: seq<TO.TrustedOpinion>, factors: seq<real>): (r: seq<TO.TrustedOpinion>)
    requires TO.AllTrustsBinomial(tos) && |factors| == |tos|
    ensures |r| == |tos| && TO.AllTrustsBinomial(r)
    ensures forall i :: 0 <= i < |tos| ==> r[i].opinion == tos[i].opinion
  {
    seq(|tos|, i requires 0 <= i < |tos| => TO.ReviseTrusted(tos[i], factors[i]))
  }

  /** With one trusted opinion every lone-safe type gives the factor 0, and so does their weighted sum. */
  lemma {:induction false} LoneCombinedZero(types: seq<WeightedType>, tos: seq<TO.TrustedOpinion>, n: nat)
    requires |tos| == 1 && AllRevisable(types, tos, n)
    requires CombinedFactors(types, tos, n).Success?
    requires forall k :: 0 <= k < |types| && (types[k].revision == TR.Normal || types[k].revision == TR.HarmonyNormal)
               ==> types[k].conflict == C.Accumulate || types[k].conflict == C.Average
    ensures CombinedFactors(types, tos, n).value == [0.0]
    decreases |types|
  {
    if |types| > 0 {
      var k := |types| - 1;
      CombinedFactorsStep(types, tos, n);
      var prefix := types[..k];
      assert forall j :: 0 <= j < k ==> prefix[j] == types[j];
      LoneCombinedZero(prefix, tos, n);
      TR.LoneSourceKeepsTrust(types[k].revision, types[k].conflict, tos, n);
      assert N.Blend([0.0], [0.0], types[k].weight) == [0.0];
    }
  }

  /**
   * A single trusted opinion fused by CUMULATIVE, AVERAGE or BELIEF
   * CONSTRAINT fusion after lone-safe revisions is just its discounted
   * opinion: its trust is not revised.
   */
  lemma LoneSourceFusion(t: F.FusionType, types: seq<WeightedType>, tos: seq<TO.TrustedOpinion>, n: nat)
    requires |tos| == 1 && Fusable(t, types, tos, n) && t != F.Weighted
    requires CombinedFactors(types, tos, n).Success?
    requires forall k :: 0 <= k < |types| && (types[k].revision == TR.Normal || types[k].revision == TR.HarmonyNormal)
               ==> types[k].conflict == C.Accumulate || types[k].conflict == C.Average
    ensures FusionCalculation(t, types, tos, n) == Success(TO.DiscountedOpinion(tos[0]))
  {
    LoneCombinedZero(types, tos, n);
    assert Constant(1, 0.0) == [0.0];
    RevisedDiscountedByZero(tos);
  }

  // ---------------------------------------------------------------------
  // The loops of the library, proved against the functions above.
  // ---------------------------------------------------------------------

  /** The inner loop of fusion_calculation: acc[i] += weight * factors[i]. */
  method AccumulateWeighted(acc: array<real>, factors: seq<real>, weight: real)
    requires acc.Length == |factors|
    modifies acc
    ensures acc[..] == N.Blend(old(acc[..]), factors, weight)
  {
    ghost var original := acc[..];
    ghost var target := N.Blend(original, factors, weight);
    for i := 0 to acc.Length
      invariant forall j :: 0 <= j < i ==> acc[j] == target[j]
      invariant forall j :: i <= j < acc.Length ==> acc[j] == original[j]
    {
      acc[i] := acc[i] + weight * factors[i];
    }
    assert acc[..] == target;
  }

  /** A failure of the first types is the failure of all of them. */
  lemma {:induction false} FailureSticks(types: seq<WeightedType>, k: nat, tos: seq<TO.TrustedOpinion>, n: nat)
    requires AllRevisable(types, tos, n) && k <= |types|
    ensures AllRevisable(types[..k], tos, n)
    ensures CombinedFactors(types[..k], tos, n).Failure? ==> CombinedFactors(types, tos, n) == CombinedFactors(types[..k], tos, n)
    decreases |types| - k
  {
    assert forall j :: 0 <= j < k ==> types[..k][j] == types[j];
    if k < |types| {
      var longer := types[..k + 1];
      assert forall j :: 0 <= j < k + 1 ==> longer[j] == types[j];
      FailureSticks(types, k + 1, tos, n);
      CombinedFactorsStep(longer, tos, n);
      assert longer[..k] == types[..k];
    } else {
      assert types[..k] == types;
    }
  }

  /** The outer loop of fusion_calculation: zeros, then every type's weighted factors added in turn. */
  method ComputeCombinedFactors(types: seq<WeightedType>, tos: seq<TO.TrustedOpinion>, n: nat)
    returns (res: Result<seq<real>>)
    requires AllRevisable(types, tos, n)
    ensures res == CombinedFactors(types, tos, n)
  {
    var weighted := new real[|tos|](_ => 0.0);
    assert types[..0] == [];
    assert weighted[..] == Constant(|tos|, 0.0);
    for k := 0 to |types|
      invariant AllRevisable(types[..k], tos, n)
      invariant CombinedFactors(types[..k], tos, n) == Success(weighted[..])
    {
      FailureSticks(types, k + 1, tos, n);
      CombinedFactorsStep(types[..k + 1], tos, n);
      assert types[..k + 1][..k] == types[..k] && types[..k + 1][k] == types[k];
      var factors := TR.ComputeRevisionFactors(types[k].revision, types[k].conflict, tos, None, n);
      match factors
      case Failure(e) =>
        return Failure(e);
      case Success(revisionFactors) =>
        AccumulateWeighted(weighted, revisionFactors, types[k].weight);
    }
    assert types[..|types|] == types;
    res := Success(weighted[..]);
  }

  /**
   * The copying fuse_opinions over weighted types: the factors, then a
   * revised copy of every trusted opinion discounted, then the fusion.
   */
  method FuseOpinions(t: F.FusionType, types: seq<WeightedType>, tos: seq<TO.TrustedOpinion>, n: nat)
    returns (res: Result<O.Opinion>)
    requires Fusable(t, types, tos, n)
    ensures res == FusionCalculation(t, types, tos, n)
  {
    var factors := ComputeCombinedFactors(types, tos, n);
    match factors
    case Failure(e) =>
      return Failure(e);
    case Success(weighted) =>
      var discounted := DiscountRevisedCopies(tos, weighted);
      RevisedSized(tos, weighted, n);
      res := F.FuseOpinions(t, discounted, n);
  }

  /** The transform of the copying overload: each trusted opinion copied, revised and discounted. */
  method DiscountRevisedCopies(tos: seq<TO.TrustedOpinion>, factors: seq<real>) returns (discounted: seq<O.Opinion>)
    requires TO.AllTrustsBinomial(tos) && |factors| == |tos|
    ensures discounted == RevisedDiscounted(tos, factors)
  {
    discounted := [];
    for i := 0 to |tos|
      invariant discounted == RevisedDiscounted(tos, factors)[..i]
    {
      var copy := TO.ReviseTrusted(tos[i], factors[i]);
      discounted := discounted + [TO.DiscountedOpinion(copy)];
    }
  }

  /**
   * fuse_opinions_: as FuseOpinions, but every trusted opinion of the
   * array has its trust revised in place; when the factors fail, nothing
   * is revised.
   */
  method FuseOpinionsInPlace(t: F.FusionType, types: seq<WeightedType>, a: array<TO.TrustedOpinion>, n: nat)
    returns (res: Result<O.Opinion>)
    requires Fusable(t, types, a[..], n)
    modifies a
    ensures res == FusionCalculation(t, types, old(a[..]), n)
    ensures CombinedFactors(types, old(a[..]), n).Failure? ==> a[..] == old(a[..])
    ensures CombinedFactors(types, old(a[..]), n).Success?
            ==> a[..] == RevisedAll(old(a[..]), CombinedFactors(types, old(a[..]), n).value)
  {
    ghost var original := a[..];
    var factors := ComputeCombinedFactors(types, a[..], n);
    match factors
    case Failure(e) =>
      return Failure(e);
    case Success(weighted) =>
      var discounted := ReviseAndDiscount(a, weighted);
      RevisedSized(original, weighted, n);
      res := F.FuseOpinions(t, discounted, n);
  }

  /** The transform of fuse_opinions_: each element has its trust revised in place, then is discounted. */
  method ReviseAndDiscount(a: array<TO.TrustedOpinion>, factors: seq<real>) returns (discounted: seq<O.Opinion>)
    requires TO.AllTrustsBinomial(a[..]) && |factors| == a.Length
    modifies a
    ensures a[..] == RevisedAll(old(a[..]), factors)
    ensures discounted == RevisedDiscounted(old(a[..]), factors)
  {
    ghost var original := a[..];
    discounted := [];
    for i := 0 to a.Length
      invariant forall j :: 0 <= j < i ==> a[j] == TO.ReviseTrusted(original[j], factors[j])
      invariant forall j :: i <= j < a.Length ==> a[j] == original[j]
      invariant discounted == RevisedDiscounted(original, factors)[..i]
    {
      a[i] := TO.ReviseTrusted(a[i], factors[i]);
      discounted := discounted + [TO.DiscountedOpinion(a[i])];
    }
    assert a[..] == RevisedAll(original, factors);
  }
}
