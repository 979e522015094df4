/**
 * The walk that PageRank iterates, apart from how the program stores it: at every step the surfer jumps
 * with probability 1 - alpha, and otherwise follows the row of the node it is on.
 */
module PageRankTheory {
  import opened Vectors

  datatype Walk = Walk(alpha: real, teleport: seq<real>, rows: seq<seq<real>>)

  predicate Shaped(w: Walk) {
    |w.teleport| > 0 && |w.rows| == |w.teleport| && Rows(w.rows, |w.teleport|)
  }

  /** Damping below one, and probabilities everywhere. */
  predicate Proper(w: Walk) {
    Shaped(w) && 0.0 <= w.alpha < 1.0
    && NonNegative(w.teleport) && Sum(w.teleport) == 1.0 && Stochastic(w.rows, |w.teleport|)
  }

  /** Where the ranks go along the rows. */
  function Follow(w: Walk, x: seq<real>): (r: seq<real>)
    requires Shaped(w) && |x| == |w.teleport|
    ensures |r| == |x|
  {
    Flow(x, w.rows, |x|, |x|)
  }

  function Step(w: Walk, x: seq<real>): (r: seq<real>)
    requires Shaped(w) && |x| == |w.teleport|
    ensures |r| == |x|
  {
    Add(Scale(1.0 - w.alpha, w.teleport), Scale(w.alpha, Follow(w, x)))
  }

  function Uniform(n: nat): (r: seq<real>)
    requires n > 0
    ensures |r| == n
  {
    Constant(n, 1.0 / n as real)
  }

  function Iterate(w: Walk, k: nat): (r: seq<real>)
    requires Shaped(w)
    ensures |r| == |w.teleport|
  {
    if k == 0 then Uniform(|w.teleport|) else Step(w, Iterate(w, k - 1))
  }

  /** How far the k-th step moved. */
  function Diff(w: Walk, k: nat): real
    requires Shaped(w) && k > 0
  {
    Norm(Sub(Iterate(w, k), Iterate(w, k - 1)))
  }

  function Pow(a: real, k: nat): real {
    if k == 0 then 1.0 else a * Pow(a, k - 1)
  }

  lemma UniformIsDistribution(n: nat)
    requires n > 0
    ensures NonNegative(Uniform(n)) && Sum(Uniform(n)) == 1.0
  {
    SumConstant(n, 1.0 / n as real);
  }

  // ---- conservation

  lemma FollowConserves(w: Walk, x: seq<real>)
    requires Shaped(w) && |x| == |w.teleport|
    requires forall i :: 0 <= i < |w.rows| ==> Sum(w.rows[i]) == 1.0
    ensures Sum(Follow(w, x)) == Sum(x)
  {
    FlowConserves(x, w.rows, |x|, |x|);
    assert x[..|x|] == x;
  }

  /** A step keeps the total rank, whatever the vector. */
  lemma StepConserves(w: Walk, x: seq<real>)
    requires Shaped(w) && |x| == |w.teleport| && Sum(w.teleport) == 1.0
    requires forall i :: 0 <= i < |w.rows| ==> Sum(w.rows[i]) == 1.0
    ensures Sum(Step(w, x)) == 1.0 - w.alpha + w.alpha * Sum(x)
  {
    hide Sum, Scale, Add, Follow;
    FollowConserves(w, x);
    SumAdd(Scale(1.0 - w.alpha, w.teleport), Scale(w.alpha, Follow(w, x)));
    SumScale(1.0 - w.alpha, w.teleport);
    SumScale(w.alpha, Follow(w, x));
  }

  /** Every entry keeps at least its jump share. */
  lemma StepFloor(w: Walk, x: seq<real>)
    requires Proper(w) && |x| == |w.teleport| && NonNegative(x)
    ensures NonNegative(Step(w, x))
    ensures forall j :: 0 <= j < |x| ==> Step(w, x)[j] >= (1.0 - w.alpha) * w.teleport[j]
  {
    var flow := Follow(w, x);
    FlowKeepsSign(x, w.rows, |x|, |x|);
    hide Follow, Sum;
    ScaleKeepsSign(w.alpha, flow);
    ScaleKeepsSign(1.0 - w.alpha, w.teleport);
    forall j | 0 <= j < |x| ensures Step(w, x)[j] >= (1.0 - w.alpha) * w.teleport[j] >= 0.0 {
      assert Step(w, x)[j] == Scale(1.0 - w.alpha, w.teleport)[j] + Scale(w.alpha, flow)[j];
      assert Scale(1.0 - w.alpha, w.teleport)[j] == (1.0 - w.alpha) * w.teleport[j];
    }
  }

  /** After every iteration the ranks are a probability distribution. */
  lemma {:induction false} RanksAreDistribution(w: Walk, k: nat)
    requires Proper(w)
    ensures NonNegative(Iterate(w, k)) && Sum(Iterate(w, k)) == 1.0
    ensures k > 0 ==> forall j :: 0 <= j < |w.teleport| ==> Iterate(w, k)[j] >= (1.0 - w.alpha) * w.teleport[j]
  {
    hide Sum, Step;
    if k == 0 {
      UniformIsDistribution(|w.teleport|);
    } else {
      RanksAreDistribution(w, k - 1);
      StepConserves(w, Iterate(w, k - 1));
      StepFloor(w, Iterate(w, k - 1));
    }
  }

  // ---- contraction

  lemma StepDifference(w: Walk, x: seq<real>, y: seq<real>)
    requires Shaped(w) && |x| == |y| == |w.teleport|
    ensures Sub(Step(w, x), Step(w, y)) == Scale(w.alpha, Follow(w, Sub(x, y)))
  {
    hide Follow, Scale, Add, Sub;
    SubCancels(Scale(1.0 - w.alpha, w.teleport), Scale(w.alpha, Follow(w, x)), Scale(w.alpha, Follow(w, y)));
    ScaleOfSub(w.alpha, Follow(w, x), Follow(w, y));
    FollowIsLinear(w, x, y);
  }

  lemma FollowIsLinear(w: Walk, x: seq<real>, y: seq<real>)
    requires Shaped(w) && |x| == |y| == |w.teleport|
    ensures Follow(w, Sub(x, y)) == Sub(Follow(w, x), Follow(w, y))
  {
    FlowIsLinear(x, y, w.rows, |x|, |x|);
  }

  lemma ScaleOfSub(c: real, u: seq<real>, v: seq<real>)
    requires |u| == |v|
    ensures Sub(Scale(c, u), Scale(c, v)) == Scale(c, Sub(u, v))
  {
    forall j | 0 <= j < |u| ensures Sub(Scale(c, u), Scale(c, v))[j] == Scale(c, Sub(u, v))[j] {
      Distribute(c, u[j], v[j]);
    }
  }

  lemma FollowIsBounded(w: Walk, x: seq<real>)
    requires Proper(w) && |x| == |w.teleport|
    ensures Norm(Follow(w, x)) <= Norm(x)
  {
    FlowIsBounded(x, w.rows, |x|, |x|);
    assert x[..|x|] == x;
  }

  /** One step brings any two vectors closer by the damping factor. */
  lemma StepContracts(w: Walk, x: seq<real>, y: seq<real>)
    requires Proper(w) && |x| == |y| == |w.teleport|
    ensures Norm(Sub(Step(w, x), Step(w, y))) <= w.alpha * Norm(Sub(x, y))
  {
    hide Norm, Follow, Scale, Step, Sub;
    var alpha, d, f := w.alpha, Sub(x, y), Follow(w, Sub(x, y));
    var before, after := Norm(d), Norm(f);
    StepDifference(w, x, y);
    NormScale(alpha, f);
    FollowIsBounded(w, d);
    Monotone(alpha, after, before);
  }

  lemma FirstDiff(w: Walk)
    requires Proper(w)
    ensures Diff(w, 1) <= 2.0
  {
    hide Norm, Sum, Step;
    var x, y := Iterate(w, 1), Iterate(w, 0);
    var zero := Constant(|x|, 0.0);
    RanksAreDistribution(w, 0);
    RanksAreDistribution(w, 1);
    NormApart(x, zero, y);
    NormBackwards(zero, y);
    assert Sub(x, zero) == x && Sub(y, zero) == y;
    NormOfNonNegative(x);
    NormOfNonNegative(y);
  }

  /** The k-th step moves at most 2 alpha^(k-1): the iteration converges geometrically. */
  lemma {:induction false} DiffsShrink(w: Walk, k: nat)
    requires Proper(w) && k > 0
    ensures Diff(w, k) <= 2.0 * Pow(w.alpha, k - 1)
  {
    hide Norm, Sum, Step;
    if k == 1 {
      FirstDiff(w);
    } else {
      DiffsShrink(w, k - 1);
      StepContracts(w, Iterate(w, k - 1), Iterate(w, k - 2));
      Monotone(w.alpha, Diff(w, k - 1), 2.0 * Pow(w.alpha, k - 2));
      assert w.alpha * (2.0 * Pow(w.alpha, k - 2)) == 2.0 * (w.alpha * Pow(w.alpha, k - 2));
    }
  }

  /** A small last step means a small error: within alpha/(1-alpha) times it of any stationary vector. */
  lemma NearStationary(w: Walk, k: nat, z: seq<real>)
    requires Proper(w) && k > 0 && |z| == |w.teleport| && Step(w, z) == z
    ensures Norm(Sub(Iterate(w, k), z)) <= w.alpha / (1.0 - w.alpha) * Diff(w, k)
  {
    hide Norm, Sum, Step, Sub;
    var x, y := Iterate(w, k), Iterate(w, k - 1);
    StepContracts(w, y, z);
    NormApart(y, x, z);
    NormBackwards(x, y);
    ErrorBound(w.alpha, Norm(Sub(x, z)), Norm(Sub(y, z)), Diff(w, k));
  }

  lemma ErrorBound(a: real, e: real, b: real, d: real)
    requires 0.0 <= a < 1.0 && e <= a * b && b <= d + e
    ensures e <= a / (1.0 - a) * d
  {
    Monotone(a, b, d + e);
    Distribute(a, d, e);
    var c, q := 1.0 - a, a / (1.0 - a);
    assert c * q == a;
    assert c * e <= a * d by {
      assert c * e == e - a * e;
    }
    assert a * d == c * (q * d);
    CancelFactor(c, e, q * d);
  }

  lemma CancelFactor(c: real, a: real, b: real)
    requires c > 0.0 && c * a <= c * b
    ensures a <= b
  {
  }

  /** There is at most one stationary vector, so the answer does not depend on where the iteration starts. */
  lemma StationaryIsUnique(w: Walk, y: seq<real>, z: seq<real>)
    requires Proper(w) && |y| == |z| == |w.teleport| && Step(w, y) == y && Step(w, z) == z
    ensures y == z
  {
    hide Norm, Sum, Step;
    StepContracts(w, y, z);
    ErrorBound(w.alpha, Norm(Sub(y, z)), Norm(Sub(y, z)), 0.0);
    NormZero(Sub(y, z));
    forall j | 0 <= j < |y| ensures y[j] == z[j] {
      assert Sub(y, z)[j] == 0.0;
    }
  }
}
