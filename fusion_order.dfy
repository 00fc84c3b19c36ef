/**
 * FusionOrder: the result of fuse_opinions does not depend on the order of
 * the list. Cumulative and averaging fusion are built from sums and a
 * product over the list, and the dogmatic shortcut from a mean, so any
 * reordering (two lists with the same multiset of opinions) fuses to the
 * same opinion.
 */
module FusionOrder {
  import opened Util
  import opened CudaArray
  import opened Algebra
  import N = NoBaseOpinions
  import O = Opinions
  import opened Fusion

  // ---------------------------------------------------------------------
  // Sums and products over reordered sequences.
  // ---------------------------------------------------------------------

  /** f applied to every element, in order. */
  function Apply<T, U>(f: T -> U, s: seq<T>): (r: seq<U>)
    ensures |r| == |s| && forall i :: 0 <= i < |s| ==> r[i] == f(s[i])
  {
    seq(|s|, i requires 0 <= i < |s| => f(s[i]))
  }

  /**
   * Taking the last element of a out of a and an equal element b[j] out of
   * b leaves equal multisets.
   */
  lemma Without<T>(a: seq<T>, b: seq<T>, j: nat)
    requires multiset(a) == multiset(b) && |a| > 0 && j < |b| && b[j] == a[|a| - 1]
    ensures b == b[..j] + [b[j]] + b[j + 1..]
    ensures multiset(a[..|a| - 1]) == multiset(b[..j] + b[j + 1..])
  {
    var x := b[j];
    assert b == b[..j] + [x] + b[j + 1..];
    assert a == a[..|a| - 1] + [x];
    calc {
      multiset(a[..|a| - 1]);
      multiset(a) - multiset{x};
      multiset(b) - multiset{x};
      multiset(b[..j] + b[j + 1..]);
    }
  }

  /** op is commutative and associative. */
  ghost predicate Commutative(op: (real, real) -> real)
  {
    (forall x, y :: op(x, y) == op(y, x))
    && (forall x, y, z :: op(op(x, y), z) == op(x, op(y, z)))
  }

  /** op applied along s from unit, the last element outermost (as Product is). */
  function Fold(op: (real, real) -> real, unit: real, s: seq<real>): real
  {
    if |s| == 0 then unit else op(Fold(op, unit, s[..|s| - 1]), s[|s| - 1])
  }

  lemma {:induction false} FoldConcat(op: (real, real) -> real, unit: real, s: seq<real>, t: seq<real>)
    requires Commutative(op) && forall x :: op(unit, x) == x
    ensures Fold(op, unit, s + t) == op(Fold(op, unit, s), Fold(op, unit, t))
    decreases |t|
  {
    if |t| == 0 {
      assert s + t == s;
      assert op(unit, Fold(op, unit, s)) == Fold(op, unit, s);
    } else {
      var front := t[..|t| - 1];
      FoldConcat(op, unit, s, front);
      assert (s + t)[..|s + t| - 1] == s + front;
      var a, c, last := Fold(op, unit, s), Fold(op, unit, front), t[|t| - 1];
      assert Fold(op, unit, s + t) == op(op(a, c), last);
      assert op(op(a, c), last) == op(a, op(c, last));
    }
  }

  /** The fold of b is the fold without b[j], combined with b[j]. */
  lemma FoldTakenOut(op: (real, real) -> real, unit: real, b: seq<real>, j: nat)
    requires Commutative(op) && forall x :: op(unit, x) == x
    requires j < |b|
    ensures Fold(op, unit, b) == op(Fold(op, unit, b[..j] + b[j + 1..]), b[j])
  {
    var x, before, after := b[j], b[..j], b[j + 1..];
    assert b == (before + [x]) + after;
    FoldConcat(op, unit, before + [x], after);
    FoldConcat(op, unit, before, after);
    assert Fold(op, unit, [x]) == x by {
      assert [x][..0] == [];
    }
    FoldConcat(op, unit, before, [x]);
  }

  /** A commutative, associative fold does not depend on the order. */
  lemma {:induction false} FoldReordered(op: (real, real) -> real, unit: real, a: seq<real>, b: seq<real>)
    requires Commutative(op) && forall x :: op(unit, x) == x
    requires multiset(a) == multiset(b)
    ensures Fold(op, unit, a) == Fold(op, unit, b)
    decreases |a|
  {
    if |a| == 0 {
      assert |b| == |multiset(b)| == 0;
    } else {
      var front, x := a[..|a| - 1], a[|a| - 1];
      assert x in multiset(b);
      var j :| 0 <= j < |b| && b[j] == x;
      Without(a, b, j);
      FoldReordered(op, unit, front, b[..j] + b[j + 1..]);
      FoldTakenOut(op, unit, b, j);
    }
  }

  /** Sum is the fold of addition from 0. */
  lemma {:induction false} SumIsFold(s: seq<real>)
    ensures Sum(s) == Fold((x: real, y: real) => x + y, 0.0, s)
    decreases |s|
  {
    if |s| > 0 {
      SumIsFold(s[..|s| - 1]);
    }
  }

  /** Equal multisets of reals have equal sums. */
  lemma SumReordered(a: seq<real>, b: seq<real>)
    requires multiset(a) == multiset(b)
    ensures Sum(a) == Sum(b)
  {
    var plus := (x: real, y: real) => x + y;
    assert Commutative(plus);
    SumIsFold(a);
    SumIsFold(b);
    FoldReordered(plus, 0.0, a, b);
  }

  /** Product is the fold of multiplication from 1. */
  lemma {:induction false} ProductIsFold(s: seq<real>)
    ensures Product(s) == Fold((x: real, y: real) => x * y, 1.0, s)
    decreases |s|
  {
    if |s| > 0 {
      ProductIsFold(s[..|s| - 1]);
    }
  }

  /** Equal multisets of reals have equal products. */
  lemma ProductReordered(a: seq<real>, b: seq<real>)
    requires multiset(a) == multiset(b)
    ensures Product(a) == Product(b)
  {
    var times := (x: real, y: real) => x * y;
    assert Commutative(times);
    ProductIsFold(a);
    ProductIsFold(b);
    FoldReordered(times, 1.0, a, b);
  }

  lemma ApplyConcat<T, U>(f: T -> U, s: seq<T>, t: seq<T>)
    ensures Apply(f, s + t) == Apply(f, s) + Apply(f, t)
  {
  }

  /** Mapping reordered lists gives reordered lists. */
  lemma {:induction false} ApplyReordered<T, U>(f: T -> U, a: seq<T>, b: seq<T>)
    requires multiset(a) == multiset(b)
    ensures multiset(Apply(f, a)) == multiset(Apply(f, b))
    decreases |a|
  {
    if |a| == 0 {
      assert |b| == |multiset(b)| == 0;
    } else {
      var front, x := a[..|a| - 1], a[|a| - 1];
      assert x in multiset(b);
      var j :| 0 <= j < |b| && b[j] == x;
      Without(a, b, j);
      var rest := b[..j] + b[j + 1..];
      ApplyReordered(f, front, rest);
      assert a == front + [x];
      ApplyConcat(f, front, [x]);
      ApplyConcat(f, b[..j] + [x], b[j + 1..]);
      ApplyConcat(f, b[..j], [x]);
      ApplyConcat(f, b[..j], b[j + 1..]);
      assert Apply(f, [x]) == [f(x)];
    }
  }

  /** The sum of f over a list does not depend on its order. */
  lemma SumApplyReordered<T>(f: T -> real, a: seq<T>, b: seq<T>)
    requires multiset(a) == multiset(b)
    ensures Sum(Apply(f, a)) == Sum(Apply(f, b))
  {
    ApplyReordered(f, a, b);
    SumReordered(Apply(f, a), Apply(f, b));
  }

  // ---------------------------------------------------------------------
  // The pieces of the fusion formulas as functions of one opinion.
  // ---------------------------------------------------------------------

  /** Mass k of an opinion (0 where it has none). */
  function MassAt(k: nat): N.OpinionNoBase -> real
  {
    (b: N.OpinionNoBase) => if k < |b.masses| then b.masses[k] else 0.0
  }

  /** Prior entry k of an opinion (0 where it has none). */
  function PriorAt(k: nat): O.Opinion -> real
  {
    (o: O.Opinion) => if k < |o.prior| then o.prior[k] else 0.0
  }

  /** p / u of an opinion (0 where u is 0). */
  function ProductOver(p: real): N.OpinionNoBase -> real
  {
    (b: N.OpinionNoBase) => if N.Uncertainty(b) != 0.0 then p / N.Uncertainty(b) else 0.0
  }

  /** Mass k weighted by p / u (0 where undefined). */
  function ShareAt(k: nat, p: real): N.OpinionNoBase -> real
  {
    (b: N.OpinionNoBase) => if k < |b.masses| && N.Uncertainty(b) != 0.0 then Share(b.masses[k], p, N.Uncertainty(b)) else 0.0
  }

  lemma UncertaintiesApply(bs: seq<N.OpinionNoBase>)
    ensures Uncertainties(bs) == Apply(N.Uncertainty, bs)
  {
  }

  lemma BasesApply(os: seq<O.Opinion>)
    ensures Bases(os) == Apply((o: O.Opinion) => o.base, os)
  {
  }

  /** Column k of the masses sums the same over reordered lists. */
  lemma MassColumnsReordered(bs: seq<N.OpinionNoBase>, bs': seq<N.OpinionNoBase>, n: nat)
    requires multiset(bs) == multiset(bs') && Uniform(bs, n) && Uniform(bs', n)
    ensures ColumnSums(Masses(bs), n) == ColumnSums(Masses(bs'), n)
  {
    forall k | 0 <= k < n
      ensures Sum(Column(Masses(bs), k)) == Sum(Column(Masses(bs'), k))
    {
      assert Column(Masses(bs), k) == Apply(MassAt(k), bs);
      assert Column(Masses(bs'), k) == Apply(MassAt(k), bs');
      SumApplyReordered(MassAt(k), bs, bs');
    }
  }

  /** Column k of the priors sums the same over reordered lists. */
  lemma PriorColumnsReordered(os: seq<O.Opinion>, os': seq<O.Opinion>, n: nat)
    requires multiset(os) == multiset(os') && SizedList(os, n) && SizedList(os', n)
    ensures ColumnSums(Priors(os), n) == ColumnSums(Priors(os'), n)
  {
    forall k | 0 <= k < n
      ensures Sum(Column(Priors(os), k)) == Sum(Column(Priors(os'), k))
    {
      assert Column(Priors(os), k) == Apply(PriorAt(k), os);
      assert Column(Priors(os'), k) == Apply(PriorAt(k), os');
      SumApplyReordered(PriorAt(k), os, os');
    }
  }

  // ---------------------------------------------------------------------
  // The list-level quantities.
  // ---------------------------------------------------------------------

  /** Reordering keeps the length, the sizes and whether any opinion is dogmatic. */
  lemma ShapeReordered(bs: seq<N.OpinionNoBase>, bs': seq<N.OpinionNoBase>, n: nat)
    requires multiset(bs) == multiset(bs') && Uniform(bs, n)
    ensures |bs'| == |bs| && Uniform(bs', n)
    ensures AnyDogmatic(bs') <==> AnyDogmatic(bs)
  {
    assert |bs'| == |multiset(bs')| == |multiset(bs)| == |bs|;
    forall i | 0 <= i < |bs'|
      ensures |bs'[i].masses| == n
    {
      assert bs'[i] in multiset(bs);
    }
    if AnyDogmatic(bs) {
      var i :| 0 <= i < |bs| && Dogmatic(bs[i]);
      assert bs[i] in multiset(bs');
    }
    if AnyDogmatic(bs') {
      var i :| 0 <= i < |bs'| && Dogmatic(bs'[i]);
      assert bs'[i] in multiset(bs);
    }
  }

  /** The sum of p / u_i over the list does not depend on its order. */
  lemma QuotientSumReordered(bs: seq<N.OpinionNoBase>, bs': seq<N.OpinionNoBase>, p: real)
    requires multiset(bs) == multiset(bs') && !AnyDogmatic(bs) && !AnyDogmatic(bs')
    ensures NoZero(Uncertainties(bs)) && NoZero(Uncertainties(bs'))
    ensures Sum(ScalarOver(p, Uncertainties(bs))) == Sum(ScalarOver(p, Uncertainties(bs')))
  {
    NoDogmaticNoZero(bs);
    NoDogmaticNoZero(bs');
    assert ScalarOver(p, Uncertainties(bs)) == Apply(ProductOver(p), bs);
    assert ScalarOver(p, Uncertainties(bs')) == Apply(ProductOver(p), bs');
    SumApplyReordered(ProductOver(p), bs, bs');
  }

  /** The product of the uncertainties and both denominators are the same for reordered lists. */
  lemma NormalizerReordered(t: FusionType, bs: seq<N.OpinionNoBase>, bs': seq<N.OpinionNoBase>)
    requires multiset(bs) == multiset(bs') && !AnyDogmatic(bs) && !AnyDogmatic(bs')
    ensures UncertaintyProduct(bs) == UncertaintyProduct(bs')
    ensures Normalizer(t, bs) == Normalizer(t, bs')
  {
    UncertaintiesApply(bs);
    UncertaintiesApply(bs');
    ApplyReordered(N.Uncertainty, bs, bs');
    ProductReordered(Uncertainties(bs), Uncertainties(bs'));
    QuotientSumReordered(bs, bs', UncertaintyProduct(bs));
    assert |bs| == |multiset(bs)| == |multiset(bs')| == |bs'|;
  }

  /** The numerators of cumulative and averaging fusion are the same for reordered lists. */
  lemma NumeratorsReordered(bs: seq<N.OpinionNoBase>, bs': seq<N.OpinionNoBase>, p: real, n: nat)
    requires multiset(bs) == multiset(bs') && !AnyDogmatic(bs) && !AnyDogmatic(bs')
    requires Uniform(bs, n) && Uniform(bs', n)
    ensures NoZero(Uncertainties(bs)) && NoZero(Uncertainties(bs'))
    ensures Numerators(bs, Uncertainties(bs), p, n) == Numerators(bs', Uncertainties(bs'), p, n)
  {
    NoDogmaticNoZero(bs);
    NoDogmaticNoZero(bs');
    forall k | 0 <= k < n
      ensures Sum(Column(SharedRows(bs, Uncertainties(bs), p), k)) == Sum(Column(SharedRows(bs', Uncertainties(bs'), p), k))
    {
      assert Column(SharedRows(bs, Uncertainties(bs), p), k) == Apply(ShareAt(k, p), bs);
      assert Column(SharedRows(bs', Uncertainties(bs'), p), k) == Apply(ShareAt(k, p), bs');
      SumApplyReordered(ShareAt(k, p), bs, bs');
    }
  }

  /** An opinion's count among the dogmatic ones: its count in the list if it is dogmatic, else 0. */
  lemma {:induction false} DogmaticCount(bs: seq<N.OpinionNoBase>, x: N.OpinionNoBase)
    ensures multiset(DogmaticOpinions(bs))[x] == if Dogmatic(x) then multiset(bs)[x] else 0
    decreases |bs|
  {
    if |bs| > 0 {
      var front := bs[..|bs| - 1];
      DogmaticCount(front, x);
      assert bs == front + [bs[|bs| - 1]];
    }
  }

  /** The dogmatic opinions of reordered lists are reordered too. */
  lemma DogmaticReordered(bs: seq<N.OpinionNoBase>, bs': seq<N.OpinionNoBase>)
    requires multiset(bs) == multiset(bs')
    ensures multiset(DogmaticOpinions(bs)) == multiset(DogmaticOpinions(bs'))
  {
    forall x
      ensures multiset(DogmaticOpinions(bs))[x] == multiset(DogmaticOpinions(bs'))[x]
    {
      DogmaticCount(bs, x);
      DogmaticCount(bs', x);
    }
  }

  // ---------------------------------------------------------------------
  // The theorems.
  // ---------------------------------------------------------------------

  /**
   * Reordering the list of OpinionNoBase keeps fusion defined and, for
   * cumulative and averaging fusion, and for every type whenever an
   * opinion is dogmatic, gives the same fused masses.
   */
  lemma FusedMassesReordered(t: FusionType, bs: seq<N.OpinionNoBase>, bs': seq<N.OpinionNoBase>, n: nat)
    requires multiset(bs) == multiset(bs') && Defined(t, bs, n)
    ensures Defined(t, bs', n)
    ensures t != BeliefConstraint || AnyDogmatic(bs) ==> FusedMasses(t, bs, n) == FusedMasses(t, bs', n)
  {
    ShapeReordered(bs, bs', n);
    if |bs| > 1 && !AnyDogmatic(bs) {
      NormalizerReordered(t, bs, bs');
    }
    if t == Weighted {
    } else if |bs| == 1 {
      assert bs' == [bs'[0]];
      assert bs'[0] in multiset(bs);
    } else if AnyDogmatic(bs) {
      DogmaticOpinionsFound(bs, n);
      DogmaticOpinionsFound(bs', n);
      DogmaticReordered(bs, bs');
      var ds, ds' := DogmaticOpinions(bs), DogmaticOpinions(bs');
      assert |ds| == |multiset(ds)| == |multiset(ds')| == |ds'|;
      MassColumnsReordered(ds, ds', n);
    } else if t != BeliefConstraint {
      NumeratorsReordered(bs, bs', UncertaintyProduct(bs), n);
      assert WeightedMasses(t, bs, n) == WeightedMasses(t, bs', n);
    }
  }

  /**
   * For two opinions belief-constraint fusion of the list does not depend
   * on its order either: the fold reduces to one commutative bc_fuse.
   */
  lemma BeliefConstraintPairReordered(a: N.OpinionNoBase, b: N.OpinionNoBase, n: nat)
    requires |a.masses| == n && |b.masses| == n && !Dogmatic(a) && !Dogmatic(b)
    ensures FusedMasses(BeliefConstraint, [a, b], n) == FusedMasses(BeliefConstraint, [b, a], n)
  {
    BeliefConstraintPairwise(a, b, n);
    BeliefConstraintPairwise(b, a, n);
    N.BcFuseCommutative(a, b);
  }

  /**
   * fuse_opinions on Opinion<N> does not depend on the order of the list
   * for cumulative and averaging fusion: the masses as above and the
   * prior, a mean, alike.
   */
  lemma FusedReordered(t: FusionType, os: seq<O.Opinion>, os': seq<O.Opinion>, n: nat)
    requires multiset(os) == multiset(os') && t != BeliefConstraint
    requires n > 0 && SizedList(os, n) && Defined(t, Bases(os), n)
    ensures SizedList(os', n) && Defined(t, Bases(os'), n)
    ensures Fused(t, os, n) == Fused(t, os', n)
  {
    assert |os'| == |multiset(os')| == |multiset(os)| == |os|;
    forall i | 0 <= i < |os'|
      ensures |os'[i].base.masses| == n && |os'[i].prior| == n
    {
      assert os'[i] in multiset(os);
    }
    BasesApply(os);
    BasesApply(os');
    ApplyReordered((o: O.Opinion) => o.base, os, os');
    FusedMassesReordered(t, Bases(os), Bases(os'), n);
    ShapeReordered(Bases(os), Bases(os'), n);
    if |os| == 1 {
      assert os' == [os'[0]];
      assert os'[0] in multiset(os);
    } else if t != Weighted {
      PriorColumnsReordered(os, os', n);
    }
  }
}
