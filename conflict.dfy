/**
 * Conflict: how much a list of opinions disagrees (or agrees), optionally
 * restricted by a selection mask, and what trust revision derives from it:
 * the conflict of every opinion with a reference opinion, the share of each
 * opinion in the conflict of the list, and the uncertainty differentials.
 * The functions specify each operation; the methods follow the loops of the
 * library and are proved equal to them.
 */
module Conflicts {
  import opened Util
  import opened CudaArray
  import opened Algebra
  import F = Fusion
  import N = NoBaseOpinions
  import O = Opinions
  import TO = TrustedOpinions

  /** Whether the degree of conflict or the degree of harmony is aggregated. */
  datatype RelationType = Conflict | Harmony

  datatype ConflictType =
    | Accumulate
    | Average
    | BeliefCumulative
    | BeliefBeliefConstraint
    | BeliefAverage
    | BeliefWeighted

  /** The enumerator value of a conflict type, as the error messages print it. */
  function TypeNumber(c: ConflictType): string
  {
    match c
    case Accumulate => "0"
    case Average => "1"
    case BeliefCumulative => "2"
    case BeliefBeliefConstraint => "3"
    case BeliefAverage => "4"
    case BeliefWeighted => "5"
  }

  /** The types measured against a fused reference opinion. */
  predicate IsBelief(c: ConflictType)
  {
    c != Accumulate && c != Average
  }

  /**
   * get_belief_fusion_type: the fusion type behind a belief conflict type;
   * ACCUMULATE and AVERAGE have none and throw.
   */
  function BeliefFusionType(c: ConflictType): (r: Result<F.FusionType>)
    ensures r.Success? <==> IsBelief(c)
    ensures r.Failure? ==> r.error == "Fusion types are only availalbe for Belief Constraint Conflict types, not for: " + TypeNumber(c)
  {
    match c
    case BeliefCumulative => Success(F.Cumulative)
    case BeliefBeliefConstraint => Success(F.BeliefConstraint)
    case BeliefAverage => Success(F.Average)
    case BeliefWeighted => Success(F.Weighted)
    case _ => Failure("Fusion types are only availalbe for Belief Constraint Conflict types, not for: " + TypeNumber(c))
  }

  /** Distinct belief conflict types name distinct fusion types, and only BELIEF_WEIGHTED names WEIGHTED. */
  lemma BeliefFusionTypeInjective(c: ConflictType, c': ConflictType)
    requires IsBelief(c) && IsBelief(c') && c != c'
    ensures BeliefFusionType(c).value != BeliefFusionType(c').value
    ensures BeliefFusionType(c).value == F.Weighted <==> c == BeliefWeighted
  {
  }

  // ---------------------------------------------------------------------
  // The selection mask.
  // ---------------------------------------------------------------------

  /** The elements whose flag is set, in their original order. */
  function Select<X>(xs: seq<X>, mask: seq<bool>): (r: seq<X>)
    requires |mask| == |xs|
    ensures |r| <= |xs|
  {
    if |xs| == 0 then []
    else Select(xs[..|xs| - 1], mask[..|xs| - 1]) + (if mask[|xs| - 1] then [xs[|xs| - 1]] else [])
  }

  /** The list an operation works on: all of it without a mask, the flagged part with one. */
  function Used<X>(xs: seq<X>, mask: Option<seq<bool>>): (r: seq<X>)
    requires mask.Some? ==> |mask.value| == |xs|
  {
    if mask.None? then xs else Select(xs, mask.value)
  }

  /** The number of set flags. */
  function Count(mask: seq<bool>): nat
  {
    if |mask| == 0 then 0 else Count(mask[..|mask| - 1]) + (if mask[|mask| - 1] then 1 else 0)
  }

  /** The mask of length m that drops position i only. */
  function LeaveOut(m: nat, i: nat): (mask: seq<bool>)
    ensures |mask| == m
  {
    seq(m, j => j != i)
  }

  /** The selection holds one element per set flag, each taken from the list. */
  lemma {:induction false} SelectCount<X>(xs: seq<X>, mask: seq<bool>)
    requires |mask| == |xs|
    ensures |Select(xs, mask)| == Count(mask)
    ensures forall x :: x in Select(xs, mask) ==> x in xs
    decreases |xs|
  {
    if |xs| > 0 {
      var m := |xs|;
      SelectCount(xs[..m - 1], mask[..m - 1]);
      assert mask[..m - 1] == mask[..|mask| - 1];
      forall x | x in Select(xs, mask) ensures x in xs {
        if x in Select(xs[..m - 1], mask[..m - 1]) {
          assert x in xs[..m - 1];
        }
      }
    }
  }

  /** A mask with every flag set keeps the whole list. */
  lemma {:induction false} SelectAll<X>(xs: seq<X>, mask: seq<bool>)
    requires |mask| == |xs| && forall i :: 0 <= i < |mask| ==> mask[i]
    ensures Select(xs, mask) == xs
    decreases |xs|
  {
    if |xs| > 0 {
      var m := |xs|;
      SelectAll(xs[..m - 1], mask[..m - 1]);
      assert xs[..m - 1] + [xs[m - 1]] == xs;
    }
  }

  /** Leaving out position i keeps the others in order. */
  lemma {:induction false} SelectLeaveOut<X>(xs: seq<X>, i: nat)
    requires i < |xs|
    ensures Select(xs, LeaveOut(|xs|, i)) == xs[..i] + xs[i + 1..]
    decreases |xs|
  {
    var m := |xs|;
    var mask := LeaveOut(m, i);
    if i == m - 1 {
      SelectAll(xs[..m - 1], mask[..m - 1]);
      assert xs[i + 1..] == [];
    } else {
      assert mask[..m - 1] == LeaveOut(m - 1, i);
      SelectLeaveOut(xs[..m - 1], i);
      assert xs[..m - 1][..i] == xs[..i];
      assert xs[..m - 1][i + 1..] + [xs[m - 1]] == xs[i + 1..];
    }
  }

  /** Every selected opinion has n masses and n prior entries. */
  lemma UsedSized(os: seq<O.Opinion>, mask: Option<seq<bool>>, n: nat)
    requires F.SizedList(os, n) && (mask.Some? ==> |mask.value| == |os|)
    ensures F.SizedList(Used(os, mask), n)
  {
    if mask.Some? {
      SelectCount(os, mask.value);
      forall i | 0 <= i < |Used(os, mask)|
        ensures |Used(os, mask)[i].base.masses| == n && |Used(os, mask)[i].prior| == n
      {
        assert Used(os, mask)[i] in os;
      }
    }
  }

  // ---------------------------------------------------------------------
  // ACCUMULATE and AVERAGE: sums over the pairs of the list.
  // ---------------------------------------------------------------------

  /** degree_of_conflict or degree_of_harmony of o towards other. */
  function Relation(r: RelationType, o: O.Opinion, other: O.Opinion): real
    requires O.SameSize(o, other)
  {
    if r == Conflict then O.DegreeOfConflict(o, other) else O.DegreeOfHarmony(o, other)
  }

  /** x against every opinion of ys, in order. */
  function RelationsFrom(r: RelationType, x: O.Opinion, ys: seq<O.Opinion>, n: nat): (s: seq<real>)
    requires |x.base.masses| == n && |x.prior| == n && F.SizedList(ys, n)
    ensures |s| == |ys|
  {
    seq(|ys|, j requires 0 <= j < |ys| => Relation(r, x, ys[j]))
  }

  /**
   * accumulated_operator: the relation of every opinion towards each later
   * one, summed row by row; 0 for fewer than two opinions.
   */
  function PairTotal(r: RelationType, os: seq<O.Opinion>, n: nat): real
    requires F.SizedList(os, n)
    decreases |os|
  {
    if |os| < 2 then 0.0 else Sum(RelationsFrom(r, os[0], os[1..], n)) + PairTotal(r, os[1..], n)
  }

  /** The number of pairs among m opinions, m (m - 1) / 2 in integer division. */
  function Connections(m: nat): nat
  {
    (m * (m - 1)) / 2
  }

  /** One more opinion adds m - 1 pairs. */
  lemma ConnectionsStep(m: nat)
    requires m >= 1
    ensures Connections(m) == Connections(m - 1) + (m - 1)
  {
    assert m * (m - 1) == (m - 1) * (m - 2) + 2 * (m - 1);
  }

  /** Two or more opinions have at least one pair. */
  lemma {:induction false} ConnectionsPositive(m: nat)
    requires m >= 2
    ensures Connections(m) >= 1
  {
    ConnectionsStep(m);
  }

  /** average_operator: the pair total over the number of pairs; 0 for fewer than two opinions. */
  function Averaged(r: RelationType, os: seq<O.Opinion>, n: nat): real
    requires F.SizedList(os, n)
  {
    if |os| < 2 then 0.0
    else
      ConnectionsPositive(|os|);
      PairTotal(r, os, n) / Connections(|os|) as real
  }

  /** k copies of c added up. */
  function Repeated(k: nat, c: real): real
  {
    k as real * c
  }

  lemma RepeatedAdd(a: nat, b: nat, c: real)
    ensures Repeated(a, c) + Repeated(b, c) == Repeated(a + b, c)
  {
  }

  /** A sequence whose every entry is c sums to its length times c. */
  lemma SumOfEqual(s: seq<real>, c: real)
    requires forall i :: 0 <= i < |s| ==> s[i] == c
    ensures Sum(s) == Repeated(|s|, c)
  {
    assert s == Constant(|s|, c);
    SumConstant(|s|, c);
  }

  /** If every pair relates by the same c, the pair total is the number of pairs times c. */
  lemma {:induction false} PairTotalUniform(r: RelationType, os: seq<O.Opinion>, n: nat, c: real)
    requires F.SizedList(os, n)
    requires forall i, j :: 0 <= i < j < |os| ==> Relation(r, os[i], os[j]) == c
    ensures PairTotal(r, os, n) == Repeated(Connections(|os|), c)
    decreases |os|
  {
    var m := |os|;
    if m >= 2 {
      var row := RelationsFrom(r, os[0], os[1..], n);
      forall j | 0 <= j < |row| ensures row[j] == c {
        assert os[1..][j] == os[j + 1];
      }
      SumOfEqual(row, c);
      forall i, j | 0 <= i < j < m - 1 ensures Relation(r, os[1..][i], os[1..][j]) == c {
        assert os[1..][i] == os[i + 1] && os[1..][j] == os[j + 1];
      }
      PairTotalUniform(r, os[1..], n, c);
      ConnectionsStep(m);
      RepeatedAdd(m - 1, Connections(m - 1), c);
    } else {
      assert Connections(m) == 0;
    }
  }

  /** If every pair relates by the same c, the average over two or more opinions is c. */
  lemma AveragedUniform(r: RelationType, os: seq<O.Opinion>, n: nat, c: real)
    requires F.SizedList(os, n) && |os| >= 2
    requires forall i, j :: 0 <= i < j < |os| ==> Relation(r, os[i], os[j]) == c
    ensures Averaged(r, os, n) == c
  {
    PairTotalUniform(r, os, n, c);
    AveragedOfRepeated(r, os, n, c);
  }

  /** A pair total of c per pair averages to c. */
  lemma AveragedOfRepeated(r: RelationType, os: seq<O.Opinion>, n: nat, c: real)
    requires F.SizedList(os, n) && |os| >= 2
    requires PairTotal(r, os, n) == Repeated(Connections(|os|), c)
    ensures Averaged(r, os, n) == c
  {
    ConnectionsPositive(|os|);
    RepeatedAverage(PairTotal(r, os, n), Connections(|os|), c);
  }

  /** k copies of c, divided by k, give c back. */
  lemma RepeatedAverage(total: real, k: nat, c: real)
    requires k >= 1 && total == Repeated(k, c)
    ensures total / k as real == c
  {
    QuotientEquals(total, k as real, c);
  }

  /** For two opinions both aggregates are the pairwise degree. */
  lemma PairTotalOfTwo(r: RelationType, a: O.Opinion, b: O.Opinion, n: nat)
    requires |a.base.masses| == n && |a.prior| == n && |b.base.masses| == n && |b.prior| == n
    ensures F.SizedList([a, b], n)
    ensures PairTotal(r, [a, b], n) == Relation(r, a, b)
    ensures Averaged(r, [a, b], n) == Relation(r, a, b)
  {
    var x := Relation(r, a, b);
    assert [a, b][1..] == [b];
    assert RelationsFrom(r, a, [b], n) == [x];
    SumSingle([x], 0);
    assert PairTotal(r, [b], n) == 0.0;
    assert PairTotal(r, [a, b], n) == Sum([x]) + PairTotal(r, [b], n);
    assert Connections(2) == 1;
  }

  // ---------------------------------------------------------------------
  // Dogmatic opinions on single hypotheses.
  // ---------------------------------------------------------------------

  /** The masses that put all belief on hypothesis h: a dogmatic opinion. */
  function OnHypothesis(n: nat, h: nat): (b: N.OpinionNoBase)
    requires h < n
    ensures |b.masses| == n && N.Uncertainty(b) == 0.0
  {
    var b := N.OpinionNoBase(seq(n, k requires 0 <= k < n => if k == h then 1.0 else 0.0));
    SumSingle(b.masses, h);
    b
  }

  /**
   * Two dogmatic opinions conflict fully when they believe in different
   * hypotheses and not at all when they believe in the same one, whatever
   * their priors.
   */
  lemma DogmaticPairConflict(n: nat, h: nat, h': nat, prior: seq<real>, prior': seq<real>)
    requires h < n && h' < n && |prior| == n && |prior'| == n
    ensures O.DegreeOfConflict(O.Opinion(OnHypothesis(n, h), prior), O.Opinion(OnHypothesis(n, h'), prior'))
            == if h == h' then 0.0 else 1.0
  {
    var b, b' := OnHypothesis(n, h), OnHypothesis(n, h');
    if N.Binomial(b) {
      assert N.BinomialProjection(b, prior[0]) == b.masses[0];
      assert N.BinomialProjection(b', prior'[0]) == b'.masses[0];
    } else {
      var p, p' := N.Projection(b, prior), N.Projection(b', prior);
      assert p == b.masses;
      assert p' == b'.masses;
      var diff := N.AbsDiff(p, p');
      if h == h' {
        SumZero(diff);
      } else {
        var first := seq(n, k requires 0 <= k < n => if k == h then 1.0 else 0.0);
        var second := seq(n, k requires 0 <= k < n => if k == h' then 1.0 else 0.0);
        SumSingle(first, h);
        SumSingle(second, h');
        SumAdded(first, second, diff);
      }
    }
  }

  /**
   * Opinions that are dogmatic, each on a different hypothesis: every pair
   * conflicts fully, so ACCUMULATE counts the pairs, n (n - 1) / 2 for n
   * opinions, and AVERAGE is 1 for two or more.
   */
  lemma DistinctDogmaticConflict(os: seq<O.Opinion>, n: nat, hyps: seq<nat>)
    requires n > 0 && F.SizedList(os, n) && |hyps| == |os|
    requires forall i :: 0 <= i < |os| ==> hyps[i] < n && os[i].base == OnHypothesis(n, hyps[i])
    requires forall i, j :: 0 <= i < j < |os| ==> hyps[i] != hyps[j]
    ensures Aggregate(Conflict, Accumulate, os, None, n) == Success(Connections(|os|) as real)
    ensures |os| >= 2 ==> Aggregate(Conflict, Average, os, None, n) == Success(1.0)
  {
    forall i, j | 0 <= i < j < |os| ensures Relation(Conflict, os[i], os[j]) == 1.0 {
      DogmaticPairConflict(n, hyps[i], hyps[j], os[i].prior, os[j].prior);
    }
    PairTotalUniform(Conflict, os, n, 1.0);
    if |os| >= 2 {
      AveragedUniform(Conflict, os, n, 1.0);
    }
  }

  /**
   * Opinions that are all dogmatic on the same hypothesis do not conflict:
   * both ACCUMULATE and AVERAGE are 0.
   */
  lemma AgreeingDogmaticConflict(os: seq<O.Opinion>, n: nat, h: nat)
    requires n > h && F.SizedList(os, n)
    requires forall i :: 0 <= i < |os| ==> os[i].base == OnHypothesis(n, h)
    ensures Aggregate(Conflict, Accumulate, os, None, n) == Success(0.0)
    ensures Aggregate(Conflict, Average, os, None, n) == Success(0.0)
  {
    forall i, j | 0 <= i < j < |os| ensures Relation(Conflict, os[i], os[j]) == 0.0 {
      DogmaticPairConflict(n, h, h, os[i].prior, os[j].prior);
    }
    PairTotalUniform(Conflict, os, n, 0.0);
    if |os| >= 2 {
      AveragedUniform(Conflict, os, n, 0.0);
    }
  }

  // ---------------------------------------------------------------------
  // Belief conflicts against a reference opinion.
  // ---------------------------------------------------------------------

  datatype BeliefConflictsResult = BeliefConflictsResult(conflicts: seq<real>, maxConflict: real, avgConflict: real)

  /** The relation of the reference towards every opinion, in order. */
  function ReferenceConflicts(r: RelationType, reference: O.Opinion, os: seq<O.Opinion>, n: nat): (cs: seq<real>)
    requires |reference.base.masses| == n && |reference.prior| == n && F.SizedList(os, n)
    ensures |cs| == |os|
  {
    RelationsFrom(r, reference, os, n)
  }

  /** The running maximum from 0, raised by every larger entry. */
  function RunningMax(s: seq<real>): real
  {
    if |s| == 0 then 0.0 else Max(RunningMax(s[..|s| - 1]), s[|s| - 1])
  }

  /** The running maximum is at least 0 and every entry, and is 0 or an entry. */
  lemma {:induction false} RunningMaxBounds(s: seq<real>)
    ensures RunningMax(s) >= 0.0
    ensures forall i :: 0 <= i < |s| ==> s[i] <= RunningMax(s)
    ensures RunningMax(s) == 0.0 || exists i :: 0 <= i < |s| && s[i] == RunningMax(s)
    decreases |s|
  {
    if |s| > 0 {
      var m := |s|;
      RunningMaxBounds(s[..m - 1]);
      forall i | 0 <= i < m ensures s[i] <= RunningMax(s) {
        if i < m - 1 {
          assert s[..m - 1][i] == s[i];
        }
      }
      if RunningMax(s) != 0.0 && RunningMax(s) != s[m - 1] {
        var i :| 0 <= i < m - 1 && s[..m - 1][i] == RunningMax(s[..m - 1]);
        assert s[i] == RunningMax(s);
      }
    }
  }

  /** The reference: the one supplied, or else the fusion of the list. */
  function Reference(t: F.FusionType, os: seq<O.Opinion>, n: nat, reference: Option<O.Opinion>): (r: Result<O.Opinion>)
    requires n > 0 && F.SizedList(os, n)
    requires reference.None? ==> F.Defined(t, F.Bases(os), n)
    ensures r.Failure? <==> reference.None? && t == F.Weighted
  {
    if reference.Some? then Success(reference.value) else F.Fused(t, os, n)
  }

  /** What belief_conflicts needs: opinions of one size, and a reference of that size or a fusion that is defined. */
  predicate ReferenceReady(t: F.FusionType, os: seq<O.Opinion>, n: nat, reference: Option<O.Opinion>)
  {
    n > 0 && F.SizedList(os, n) && |os| > 0
    && (reference.Some? ==> |reference.value.base.masses| == n && |reference.value.prior| == n)
    && (reference.None? ==> F.Defined(t, F.Bases(os), n))
  }

  /**
   * belief_conflicts: the relation of the reference towards each opinion,
   * their maximum (from 0) and their mean; fusing WEIGHTED for the
   * reference throws.
   */
  function BeliefConflicts(r: RelationType, t: F.FusionType, os: seq<O.Opinion>, n: nat, reference: Option<O.Opinion>)
    : (res: Result<BeliefConflictsResult>)
    requires ReferenceReady(t, os, n, reference)
    ensures res.Failure? <==> reference.None? && t == F.Weighted
    ensures res.Success? ==> |res.value.conflicts| == |os| && res.value.maxConflict >= 0.0
    ensures res.Success? ==> forall i :: 0 <= i < |os| ==> res.value.conflicts[i] <= res.value.maxConflict
  {
    match Reference(t, os, n, reference)
    case Success(ref) => Success(Against(r, ref, os, n))
    case Failure(e) => Failure(e)
  }

  /** The conflicts towards a given reference, their maximum (from 0) and their mean. */
  function Against(r: RelationType, reference: O.Opinion, os: seq<O.Opinion>, n: nat): (b: BeliefConflictsResult)
    requires |reference.base.masses| == n && |reference.prior| == n && F.SizedList(os, n) && |os| > 0
    ensures |b.conflicts| == |os| && b.maxConflict >= 0.0
    ensures forall i :: 0 <= i < |os| ==> b.conflicts[i] <= b.maxConflict
  {
    var cs := ReferenceConflicts(r, reference, os, n);
    RunningMaxBounds(cs);
    BeliefConflictsResult(cs, RunningMax(cs), Sum(cs) / |os| as real)
  }

  // ---------------------------------------------------------------------
  // The dispatch: conflict(...) and harmony(...).
  // ---------------------------------------------------------------------

  /** What the aggregate of type c over the list needs: for a belief type a non-empty list whose fusion is defined. */
  predicate Computable(c: ConflictType, used: seq<O.Opinion>, n: nat)
  {
    n > 0 && F.SizedList(used, n)
    && (IsBelief(c) ==> |used| > 0 && F.Defined(BeliefFusionType(c).value, F.Bases(used), n))
  }

  /** belief_conflict_operator: the mean belief conflict against the fusion of the list by the type's fusion. */
  function BeliefAggregate(r: RelationType, c: ConflictType, used: seq<O.Opinion>, n: nat): (res: Result<real>)
    requires IsBelief(c) && Computable(c, used, n)
    ensures res.Failure? <==> c == BeliefWeighted
    ensures res.Failure? ==> res.error == F.WeightedError
  {
    match BeliefConflicts(r, BeliefFusionType(c).value, used, n, None)
    case Success(b) => Success(b.avgConflict)
    case Failure(e) => Failure(e)
  }

  /**
   * function_switch, behind conflict (r == Conflict) and harmony (r ==
   * Harmony): the mask is applied, then ACCUMULATE sums the pairs, AVERAGE
   * averages them and the belief types take the mean belief conflict
   * against the fusion of the list, BELIEF_WEIGHTED failing in that fusion.
   */
  function Aggregate(r: RelationType, c: ConflictType, os: seq<O.Opinion>, mask: Option<seq<bool>>, n: nat)
    : (res: Result<real>)
    requires mask.Some? ==> |mask.value| == |os|
    requires Computable(c, Used(os, mask), n)
    ensures res.Failure? <==> c == BeliefWeighted
    ensures res.Failure? ==> res.error == F.WeightedError
  {
    var used := Used(os, mask);
    if IsBelief(c) then BeliefAggregate(r, c, used, n)
    else if c == Accumulate then Success(PairTotal(r, used, n))
    else Success(Averaged(r, used, n))
  }

  // ---------------------------------------------------------------------
  // Conflict shares.
  // ---------------------------------------------------------------------

  /**
   * conflict_shares for ACCUMULATE and AVERAGE: the aggregate a of the
   * list and, unless a < EPS (then 0 and all zeros), the share of each
   * opinion, 1 - (aggregate without it) / a.
   */
  function ConflictShares(r: RelationType, c: ConflictType, os: seq<O.Opinion>, n: nat): (res: (real, seq<real>))
    requires n > 0 && F.SizedList(os, n) && !IsBelief(c)
    ensures |res.1| == |os|
    ensures res.0 < EPS ==> res.0 == 0.0 && res.1 == Constant(|os|, 0.0)
  {
    var total := Aggregate(r, c, os, None, n).value;
    if total < EPS then (0.0, Constant(|os|, 0.0))
    else
      (total, seq(|os|, i requires 0 <= i < |os| => ShareWithout(r, c, os, n, i, total)))
  }

  /** The share of opinion i: one less the aggregate without it over the aggregate total. */
  function ShareWithout(r: RelationType, c: ConflictType, os: seq<O.Opinion>, n: nat, i: nat, total: real): real
    requires n > 0 && F.SizedList(os, n) && !IsBelief(c) && i < |os| && total != 0.0
  {
    UsedSized(os, Some(LeaveOut(|os|, i)), n);
    1.0 - Aggregate(r, c, os, Some(LeaveOut(|os|, i)), n).value / total
  }

  /**
   * Opinions all dogmatic on the same hypothesis have no conflict to share:
   * both aggregates are 0, so every share is 0.
   */
  lemma AgreeingDogmaticShares(c: ConflictType, os: seq<O.Opinion>, n: nat, h: nat)
    requires n > h && F.SizedList(os, n) && (c == Accumulate || c == Average)
    requires forall i :: 0 <= i < |os| ==> os[i].base == OnHypothesis(n, h)
    ensures ConflictShares(Conflict, c, os, n) == (0.0, Constant(|os|, 0.0))
  {
    AgreeingDogmaticConflict(os, n, h);
    EpsPositive();
  }

  /** Three opinions where only the last one conflicts (fully) with the others. */
  predicate OneOutlier(os: seq<O.Opinion>, n: nat)
  {
    |os| == 3 && F.SizedList(os, n)
    && Relation(Conflict, os[0], os[1]) == 0.0
    && Relation(Conflict, os[0], os[2]) == 1.0
    && Relation(Conflict, os[1], os[2]) == 1.0
  }

  /** With one full outlier among three opinions the average conflict is 2/3. */
  lemma OutlierAverage(os: seq<O.Opinion>, n: nat)
    requires OneOutlier(os, n)
    ensures Averaged(Conflict, os, n) == 2.0 / 3.0
  {
    assert os[1..] == [os[1], os[2]];
    assert RelationsFrom(Conflict, os[0], os[1..], n) == [0.0, 1.0];
    N.SumOfTwo([0.0, 1.0]);
    PairTotalOfTwo(Conflict, os[1], os[2], n);
    assert Connections(3) == 3;
  }

  /** Leaving out an agreeing opinion leaves a full conflict, leaving out the outlier none. */
  lemma OutlierLeftOut(os: seq<O.Opinion>, n: nat, i: nat)
    requires OneOutlier(os, n) && i < 3
    ensures F.SizedList(Used(os, Some(LeaveOut(3, i))), n)
    ensures Averaged(Conflict, Used(os, Some(LeaveOut(3, i))), n) == if i == 2 then 0.0 else 1.0
  {
    SelectLeaveOut(os, i);
    var rest := os[..i] + os[i + 1..];
    if i == 0 {
      assert rest == [os[1], os[2]];
    } else if i == 1 {
      assert rest == [os[0], os[2]];
    } else {
      assert rest == [os[0], os[1]];
    }
    PairTotalOfTwo(Conflict, rest[0], rest[1], n);
  }

  /**
   * The outlier example: two opinions dogmatic on the first hypothesis and one
   * on the second. The average conflict is 2/3; leaving out either agreeing
   * opinion raises it to 1, leaving out the outlier lowers it to 0, so the
   * shares are -1/2, -1/2 and 1.
   */
  lemma ConflictSharesOutlier(n: nat, p0: seq<real>, p1: seq<real>, p2: seq<real>)
    requires n >= 2 && |p0| == n && |p1| == n && |p2| == n
    ensures F.SizedList([O.Opinion(OnHypothesis(n, 0), p0), O.Opinion(OnHypothesis(n, 0), p1), O.Opinion(OnHypothesis(n, 1), p2)], n)
    ensures ConflictShares(Conflict, Average,
                           [O.Opinion(OnHypothesis(n, 0), p0), O.Opinion(OnHypothesis(n, 0), p1), O.Opinion(OnHypothesis(n, 1), p2)], n)
            == (2.0 / 3.0, [-0.5, -0.5, 1.0])
  {
    var os := [O.Opinion(OnHypothesis(n, 0), p0), O.Opinion(OnHypothesis(n, 0), p1), O.Opinion(OnHypothesis(n, 1), p2)];
    DogmaticPairConflict(n, 0, 0, p0, p1);
    DogmaticPairConflict(n, 0, 1, p0, p2);
    DogmaticPairConflict(n, 0, 1, p1, p2);
    assert OneOutlier(os, n);
    OutlierAverage(os, n);
    assert Aggregate(Conflict, Average, os, None, n).value == 2.0 / 3.0;
    EpsPositive();
    OutlierShare(os, n, 0);
    OutlierShare(os, n, 1);
    OutlierShare(os, n, 2);
    var shares := ConflictShares(Conflict, Average, os, n).1;
    assert shares == [-0.5, -0.5, 1.0];
  }

  /** In the outlier example the share of an agreeing opinion is -1/2 and that of the outlier 1. */
  lemma OutlierShare(os: seq<O.Opinion>, n: nat, i: nat)
    requires n > 0 && OneOutlier(os, n) && i < 3
    ensures ShareWithout(Conflict, Average, os, n, i, 2.0 / 3.0) == if i == 2 then 1.0 else -0.5
  {
    OutlierLeftOut(os, n, i);
    UsedSized(os, Some(LeaveOut(|os|, i)), n);
    var left := Aggregate(Conflict, Average, os, Some(LeaveOut(|os|, i)), n).value;
    assert left == if i == 2 then 0.0 else 1.0;
  }

  // ---------------------------------------------------------------------
  // Uncertainty differentials.
  // ---------------------------------------------------------------------

  /** The uncertainty of every opinion, in order. */
  function UncertaintiesOf(os: seq<O.Opinion>): (us: seq<real>)
    ensures |us| == |os|
  {
    seq(|os|, i requires 0 <= i < |os| => O.Uncertainty(os[i]))
  }

  /**
   * uncertainty_differentials: each uncertainty over their sum, or all
   * zeros when the sum is below EPS.
   */
  function UncertaintyDifferentials(os: seq<O.Opinion>): (ds: seq<real>)
    ensures |ds| == |os|
  {
    var total := Sum(UncertaintiesOf(os));
    if total < EPS then Constant(|os|, 0.0) else DivScalar(UncertaintiesOf(os), total)
  }

  /** The overload for trusted opinions: the differentials of the trusts. */
  function TrustDifferentials(tos: seq<TO.TrustedOpinion>): (ds: seq<real>)
    ensures |ds| == |tos|
  {
    UncertaintyDifferentials(TO.ExtractTrusts(tos))
  }

  /**
   * The differentials split 1 when the uncertainties sum to EPS or more,
   * and are then non-negative when the uncertainties are; otherwise they are
   * all 0.
   */
  lemma UncertaintyDifferentialsSplitOne(os: seq<O.Opinion>)
    ensures Sum(UncertaintiesOf(os)) >= EPS ==> Sum(UncertaintyDifferentials(os)) == 1.0
    ensures Sum(UncertaintiesOf(os)) >= EPS && (forall i :: 0 <= i < |os| ==> O.Uncertainty(os[i]) >= 0.0)
            ==> forall i :: 0 <= i < |os| ==> 0.0 <= UncertaintyDifferentials(os)[i] <= 1.0
    ensures Sum(UncertaintiesOf(os)) < EPS ==> forall i :: 0 <= i < |os| ==> UncertaintyDifferentials(os)[i] == 0.0
  {
    var us := UncertaintiesOf(os);
    var total := Sum(us);
    if total >= EPS {
      SumDivScalar(us, total);
      if forall i :: 0 <= i < |os| ==> O.Uncertainty(os[i]) >= 0.0 {
        forall i | 0 <= i < |os| ensures 0.0 <= UncertaintyDifferentials(os)[i] <= 1.0 {
          SumNonNegative(us);
          SumAtLeastEntry(us, i);
          assert UncertaintyDifferentials(os)[i] == us[i] / total;
          QuotientAtMostOne(us[i], total);
          QuotientNonNegative(us[i], total);
        }
      }
    }
  }

  /** The trust differentials split 1 the same way, over the trusts' uncertainties. */
  lemma TrustDifferentialsSplitOne(tos: seq<TO.TrustedOpinion>)
    ensures Sum(UncertaintiesOf(TO.ExtractTrusts(tos))) >= EPS ==> Sum(TrustDifferentials(tos)) == 1.0
    ensures Sum(UncertaintiesOf(TO.ExtractTrusts(tos))) < EPS ==> forall i :: 0 <= i < |tos| ==> TrustDifferentials(tos)[i] == 0.0
  {
    UncertaintyDifferentialsSplitOne(TO.ExtractTrusts(tos));
  }

  // ---------------------------------------------------------------------
  // The loops of the library, proved against the functions above.
  // ---------------------------------------------------------------------

  /** The mask loop of function_switch: the flagged elements pushed back in order. */
  method SelectUsed<X>(xs: seq<X>, mask: Option<seq<bool>>) returns (used: seq<X>)
    requires mask.Some? ==> |mask.value| == |xs|
    ensures used == Used(xs, mask)
  {
    if mask.None? {
      return xs;
    }
    var flags := mask.value;
    used := [];
    for i := 0 to |xs|
      invariant used == Select(xs[..i], flags[..i])
    {
      assert xs[..i + 1][..i] == xs[..i] && flags[..i + 1][..i] == flags[..i];
      if flags[i] {
        used := used + [xs[i]];
      }
    }
    assert xs[..|xs|] == xs && flags[..|xs|] == flags;
  }

  /** accumulated_operator: the nested pair loop. */
  method AccumulatedOperator(r: RelationType, os: seq<O.Opinion>, n: nat) returns (acc: real)
    requires F.SizedList(os, n)
    ensures acc == PairTotal(r, os, n)
  {
    if |os| < 2 {
      return 0.0;
    }
    acc := 0.0;
    for i := 0 to |os|
      invariant acc + PairTotal(r, os[i..], n) == PairTotal(r, os, n)
    {
      var rowTotal := RowTotal(r, os, i, n);
      acc := acc + rowTotal;
      assert os[i..][1..] == os[i + 1..];
    }
  }

  /** The inner loop of accumulated_operator: opinion i against every later one. */
  method RowTotal(r: RelationType, os: seq<O.Opinion>, i: nat, n: nat) returns (total: real)
    requires F.SizedList(os, n) && i < |os|
    ensures total == Sum(RelationsFrom(r, os[i], os[i + 1..], n))
  {
    ghost var row := RelationsFrom(r, os[i], os[i + 1..], n);
    total := 0.0;
    for j := i + 1 to |os|
      invariant total == Sum(row[..j - i - 1])
    {
      SumPrefixStep(row, j - i - 1);
      total := total + Relation(r, os[i], os[j]);
    }
    assert row[..|os| - i - 1] == row;
  }

  /** average_operator: the pair total over m (m - 1) / 2 pairs. */
  method AverageOperator(r: RelationType, os: seq<O.Opinion>, n: nat) returns (avg: real)
    requires F.SizedList(os, n)
    ensures avg == Averaged(r, os, n)
  {
    var m := |os|;
    if m < 2 {
      return 0.0;
    }
    var total := AccumulatedOperator(r, os, n);
    var connections := (m * (m - 1)) / 2;
    ConnectionsPositive(m);
    avg := total / connections as real;
  }

  /**
   * belief_conflicts: the reference (supplied, or fused), the relation of it
   * towards each opinion, then one pass for the maximum and the sum.
   */
  method ComputeBeliefConflicts(r: RelationType, t: F.FusionType, os: seq<O.Opinion>, n: nat, reference: Option<O.Opinion>)
    returns (res: Result<BeliefConflictsResult>)
    requires ReferenceReady(t, os, n, reference)
    ensures res == BeliefConflicts(r, t, os, n, reference)
  {
    var ref: O.Opinion;
    if reference.Some? {
      ref := reference.value;
    } else {
      var fused := F.FuseOpinions(t, os, n);
      match fused
      case Failure(e) =>
        return Failure(e);
      case Success(v) =>
        ref := v;
    }
    var b := ConflictsAgainst(r, ref, os, n);
    res := Success(b);
  }

  /** The two loops of belief_conflicts once the reference is known. */
  method ConflictsAgainst(r: RelationType, reference: O.Opinion, os: seq<O.Opinion>, n: nat)
    returns (b: BeliefConflictsResult)
    requires |reference.base.masses| == n && |reference.prior| == n && F.SizedList(os, n) && |os| > 0
    ensures b == Against(r, reference, os, n)
  {
    var conflicts: seq<real> := [];
    for i := 0 to |os|
      invariant conflicts == ReferenceConflicts(r, reference, os, n)[..i]
    {
      conflicts := conflicts + [Relation(r, reference, os[i])];
    }
    assert conflicts == ReferenceConflicts(r, reference, os, n);
    var maxConflict, accConflict := MaxAndSum(conflicts);
    b := BeliefConflictsResult(conflicts, maxConflict, accConflict / |os| as real);
  }

  /** The pass of belief_conflicts that keeps the largest conflict (from 0) and the running sum. */
  method MaxAndSum(conflicts: seq<real>) returns (maxConflict: real, accConflict: real)
    ensures maxConflict == RunningMax(conflicts) && accConflict == Sum(conflicts)
  {
    maxConflict := 0.0;
    accConflict := 0.0;
    for i := 0 to |conflicts|
      invariant maxConflict == RunningMax(conflicts[..i])
      invariant accConflict == Sum(conflicts[..i])
    {
      assert conflicts[..i + 1][..i] == conflicts[..i];
      SumPrefixStep(conflicts, i);
      if conflicts[i] > maxConflict {
        maxConflict := conflicts[i];
      }
      accConflict := accConflict + conflicts[i];
    }
    assert conflicts[..|conflicts|] == conflicts;
  }

  /** function_switch: the mask loop, then the operator of the type. */
  method FunctionSwitch(r: RelationType, c: ConflictType, os: seq<O.Opinion>, mask: Option<seq<bool>>, n: nat)
    returns (res: Result<real>)
    requires mask.Some? ==> |mask.value| == |os|
    requires Computable(c, Used(os, mask), n)
    ensures res == Aggregate(r, c, os, mask, n)
  {
    var used := SelectUsed(os, mask);
    if IsBelief(c) {
      var b := ComputeBeliefConflicts(r, BeliefFusionType(c).value, used, n, None);
      match b
      case Success(v) => res := Success(v.avgConflict);
      case Failure(e) => res := Failure(e);
    } else if c == Accumulate {
      var total := AccumulatedOperator(r, used, n);
      res := Success(total);
    } else {
      var avg := AverageOperator(r, used, n);
      res := Success(avg);
    }
  }

  /**
   * conflict_shares: the aggregate of the whole list, then, flag by flag,
   * the aggregate with one opinion switched off.
   */
  method ComputeConflictShares(r: RelationType, c: ConflictType, os: seq<O.Opinion>, n: nat)
    returns (total: real, shares: seq<real>)
    requires n > 0 && F.SizedList(os, n) && !IsBelief(c)
    ensures (total, shares) == ConflictShares(r, c, os, n)
  {
    var m := |os|;
    var aggregate := FunctionSwitch(r, c, os, None, n);
    total := aggregate.value;
    if total < EPS {
      return 0.0, Constant(m, 0.0);
    }
    shares := SharesLoop(r, c, os, n, total);
    assert shares == ConflictShares(r, c, os, n).1;
  }

  /** The loop of conflict_shares over the opinions, with one flag array reused throughout. */
  method SharesLoop(r: RelationType, c: ConflictType, os: seq<O.Opinion>, n: nat, total: real)
    returns (shares: seq<real>)
    requires n > 0 && F.SizedList(os, n) && !IsBelief(c) && total != 0.0
    ensures |shares| == |os|
    ensures forall k :: 0 <= k < |os| ==> shares[k] == ShareWithout(r, c, os, n, k, total)
  {
    var m := |os|;
    var useOpinions := new bool[m](_ => true);
    var conflictShares := new real[m](_ => 0.0);
    for i := 0 to m
      invariant forall k :: 0 <= k < m ==> useOpinions[k]
      invariant forall k :: 0 <= k < i ==> conflictShares[k] == ShareWithout(r, c, os, n, k, total)
    {
      var share := ShareOf(r, c, os, n, useOpinions, i, total);
      conflictShares[i] := share;
    }
    shares := conflictShares[..];
  }

  /** One pass of the conflict_shares loop: switch opinion i off, take the aggregate, switch it back on. */
  method ShareOf(r: RelationType, c: ConflictType, os: seq<O.Opinion>, n: nat, useOpinions: array<bool>, i: nat, total: real)
    returns (share: real)
    requires n > 0 && F.SizedList(os, n) && !IsBelief(c) && i < |os| && total != 0.0
    requires useOpinions.Length == |os| && forall k :: 0 <= k < |os| ==> useOpinions[k]
    modifies useOpinions
    ensures forall k :: 0 <= k < |os| ==> useOpinions[k]
    ensures share == ShareWithout(r, c, os, n, i, total)
  {
    useOpinions[i] := false;
    assert useOpinions[..] == LeaveOut(|os|, i);
    UsedSized(os, Some(LeaveOut(|os|, i)), n);
    var without := FunctionSwitch(r, c, os, Some(useOpinions[..]), n);
    useOpinions[i] := true;
    share := 1.0 - without.value / total;
  }

  /** uncertainty_differentials: the accumulated uncertainty, then each uncertainty over it. */
  method ComputeUncertaintyDifferentials(os: seq<O.Opinion>) returns (ds: seq<real>)
    ensures ds == UncertaintyDifferentials(os)
  {
    var total := 0.0;
    for i := 0 to |os|
      invariant total == Sum(UncertaintiesOf(os)[..i])
    {
      SumPrefixStep(UncertaintiesOf(os), i);
      total := total + O.Uncertainty(os[i]);
    }
    assert UncertaintiesOf(os)[..|os|] == UncertaintiesOf(os);
    if total < EPS {
      return Constant(|os|, 0.0);
    }
    ds := [];
    for i := 0 to |os|
      invariant ds == DivScalar(UncertaintiesOf(os), total)[..i]
    {
      ds := ds + [O.Uncertainty(os[i]) / total];
    }
  }

  /** The overload for trusted opinions: the differentials of the extracted trusts. */
  method ComputeTrustDifferentials(tos: seq<TO.TrustedOpinion>) returns (ds: seq<real>)
    ensures ds == TrustDifferentials(tos)
  {
    ds := ComputeUncertaintyDifferentials(TO.ExtractTrusts(tos));
  }
}
