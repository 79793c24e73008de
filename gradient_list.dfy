/** Lists of gradient packages, one per layer, as `NeuralNetwork.backward`,
    `createEmptyGradientsList`, `BatchTask` and `Trainer` pass them around,
    and the layer-by-layer accumulation loop that `BatchTask.call` and
    `Trainer.train` both run. */
module GradientLists {
  import opened LayerMath
  import opened NetworkMath
  import opened Gradients

  /** The contents of the packages, in list order. */
  function ValuesOf(ps: seq<GradientPackage>): (gs: seq<Gradient>)
    reads ps
    ensures |gs| == |ps| && forall k :: 0 <= k < |ps| ==> gs[k] == ps[k].Value()
  {
    seq(|ps|, k requires 0 <= k < |ps| reads ps => ps[k].Value())
  }

  /** Package `i` of `ps` is another object than package `j` of `qs`. */
  predicate Apart(ps: seq<GradientPackage>, i: int, qs: seq<GradientPackage>, j: int)
    requires 0 <= i < |ps| && 0 <= j < |qs|
  {
    ps[i] != qs[j]
  }

  /** No package occurs twice in `ps`, so updating one leaves the others alone. */
  predicate Separate(ps: seq<GradientPackage>) {
    forall i, j :: 0 <= i < |ps| && 0 <= j < |ps| && i != j ==> Apart(ps, i, ps, j)
  }

  /** No package of `ps` occurs in `qs`. */
  predicate Disjoint(ps: seq<GradientPackage>, qs: seq<GradientPackage>) {
    forall i, j :: 0 <= i < |ps| && 0 <= j < |qs| ==> Apart(ps, i, qs, j)
  }

  /** A package not in a separate list can join it at either end. */
  lemma SeparateExtend(p: GradientPackage, ps: seq<GradientPackage>)
    requires Separate(ps) && forall j :: 0 <= j < |ps| ==> p != ps[j]
    ensures Separate([p] + ps) && Separate(ps + [p])
  {
    var l, r := [p] + ps, ps + [p];
    forall i, j | 0 <= i < |l| && 0 <= j < |l| && i != j
      ensures Apart(l, i, l, j) && Apart(r, i, r, j)
    {
      if i > 0 && j > 0 {
        assert Apart(ps, i - 1, ps, j - 1);
      }
      if i < |ps| && j < |ps| {
        assert Apart(ps, i, ps, j);
      }
    }
  }

  /** Packages allocated since the previous state are none of the packages
      that already existed then. */
  twostate lemma FreshApart(ps: seq<GradientPackage>, new qs: seq<GradientPackage>)
    requires forall k :: 0 <= k < |qs| ==> fresh(qs[k])
    ensures Disjoint(ps, qs)
  {
    forall i, j | 0 <= i < |ps| && 0 <= j < |qs|
      ensures Apart(ps, i, qs, j)
    {
    }
  }

  /** Packages whose fields did not change hold what they held. */
  twostate lemma ValuesKept(ps: seq<GradientPackage>)
    requires forall k :: 0 <= k < |ps| ==> unchanged(ps[k])
    ensures ValuesOf(ps) == old(ValuesOf(ps))
  {
  }

  /** The contents of a list with `p` in front. */
  lemma ValuesOfPrepend(p: GradientPackage, ps: seq<GradientPackage>)
    ensures ValuesOf([p] + ps) == [p.Value()] + ValuesOf(ps)
  {
    var l, r := ValuesOf([p] + ps), [p.Value()] + ValuesOf(ps);
    assert forall k :: 0 <= k < |l| ==> l[k] == r[k];
  }

  /** `totals[i].add(others[i])` for every `i` of `totals`, in order. */
  method AddAll(totals: seq<GradientPackage>, others: seq<GradientPackage>)
    requires Separate(totals) && Disjoint(totals, others)
    requires CoversAll(ValuesOf(others), ValuesOf(totals))
    modifies totals
    ensures ValuesOf(totals) == AddGradients(old(ValuesOf(totals)), old(ValuesOf(others)))
    ensures ValuesOf(others) == old(ValuesOf(others))
  {
    ghost var t0, o0 := ValuesOf(totals), ValuesOf(others);
    for i := 0 to |totals|
      invariant forall k :: 0 <= k < i ==> totals[k].Value() == AddGradient(t0[k], o0[k])
      invariant forall k :: i <= k < |totals| ==> totals[k].Value() == t0[k]
      invariant forall k :: 0 <= k < |others| ==> others[k].Value() == o0[k]
    {
      forall k | 0 <= k < |totals| && k != i
        ensures totals[k] != totals[i]
      {
        assert Apart(totals, i, totals, k);
      }
      forall k | 0 <= k < |others|
        ensures others[k] != totals[i]
      {
        assert Apart(totals, i, others, k);
      }
      totals[i].Add(others[i]);
    }
  }
}
