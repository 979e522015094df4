/** Vectors of reals: sums, the L1 norm, and rows mixed by a vector of weights. */
module Vectors {
  function Abs(a: real): (r: real)
    ensures r >= 0.0
  {
    if a < 0.0 then -a else a
  }

  function Sum(v: seq<real>): real {
    if v == [] then 0.0 else Sum(v[..|v| - 1]) + v[|v| - 1]
  }

  /** The L1 norm. */
  function Norm(v: seq<real>): (r: real)
    ensures r >= 0.0
  {
    if v == [] then 0.0 else Norm(v[..|v| - 1]) + Abs(v[|v| - 1])
  }

  predicate NonNegative(v: seq<real>) {
    forall j :: 0 <= j < |v| ==> v[j] >= 0.0
  }

  function Constant(n: nat, c: real): (r: seq<real>)
    ensures |r| == n && forall j :: 0 <= j < n ==> r[j] == c
  {
    seq(n, _ => c)
  }

  function Add(u: seq<real>, v: seq<real>): (r: seq<real>)
    requires |u| == |v|
    ensures |r| == |u|
  {
    seq(|u|, j requires 0 <= j < |u| => u[j] + v[j])
  }

  function Sub(u: seq<real>, v: seq<real>): (r: seq<real>)
    requires |u| == |v|
    ensures |r| == |u|
  {
    seq(|u|, j requires 0 <= j < |u| => u[j] - v[j])
  }

  function Scale(c: real, v: seq<real>): (r: seq<real>)
    ensures |r| == |v|
  {
    seq(|v|, j requires 0 <= j < |v| => c * v[j])
  }

  // ---- real arithmetic, kept apart from the sequences

  lemma Distribute(c: real, a: real, b: real)
    ensures c * (a + b) == c * a + c * b
    ensures c * (a - b) == c * a - c * b
  {
  }

  lemma Monotone(c: real, a: real, b: real)
    requires c >= 0.0 && a <= b
    ensures c * a <= c * b
  {
    assert c * (b - a) >= 0.0;
    Distribute(c, b, a);
  }

  lemma AbsProduct(a: real, b: real, p: real)
    requires p == a * b
    ensures Abs(p) == Abs(a) * Abs(b)
  {
    if a >= 0.0 && b >= 0.0 {
      assert a * b >= 0.0;
    } else if a < 0.0 && b < 0.0 {
      assert (-a) * (-b) > 0.0;
    } else if a >= 0.0 {
      assert a * -b >= 0.0;
    } else {
      assert -a * b >= 0.0;
    }
  }

  // ---- sums

  lemma ScaleSlice(c: real, v: seq<real>)
    requires v != []
    ensures Scale(c, v)[..|v| - 1] == Scale(c, v[..|v| - 1])
    ensures Scale(c, v)[|v| - 1] == c * v[|v| - 1]
  {
    var m := |v| - 1;
    forall j | 0 <= j < m ensures Scale(c, v)[..m][j] == Scale(c, v[..m])[j] {
      assert v[..m][j] == v[j];
    }
  }

  lemma {:induction false} SumAdd(u: seq<real>, v: seq<real>)
    requires |u| == |v|
    ensures Sum(Add(u, v)) == Sum(u) + Sum(v)
  {
    if u != [] {
      var m := |u| - 1;
      SumAdd(u[..m], v[..m]);
      assert Add(u, v)[..m] == Add(u[..m], v[..m]);
    }
  }

  lemma {:induction false} SumScale(c: real, v: seq<real>)
    ensures Sum(Scale(c, v)) == c * Sum(v)
  {
    hide Scale;
    if v != [] {
      var m := |v| - 1;
      SumScale(c, v[..m]);
      ScaleSlice(c, v);
      Distribute(c, Sum(v[..m]), v[m]);
    }
  }

  lemma {:induction false} SumConstant(n: nat, c: real)
    ensures Sum(Constant(n, c)) == n as real * c
  {
    if n > 0 {
      SumConstant(n - 1, c);
      assert Constant(n, c)[..n - 1] == Constant(n - 1, c);
    }
  }

  lemma {:induction false} SumUpdate(v: seq<real>, j: nat, a: real)
    requires j < |v|
    ensures Sum(v[j := a]) == Sum(v) - v[j] + a
  {
    var m := |v| - 1;
    if j == m {
      assert v[j := a][..m] == v[..m];
    } else {
      SumUpdate(v[..m], j, a);
      assert v[j := a][..m] == v[..m][j := a];
    }
  }

  lemma {:induction false} NormTriangle(u: seq<real>, v: seq<real>)
    requires |u| == |v|
    ensures Norm(Add(u, v)) <= Norm(u) + Norm(v)
  {
    if u != [] {
      var m := |u| - 1;
      NormTriangle(u[..m], v[..m]);
      assert Add(u, v)[..m] == Add(u[..m], v[..m]);
    }
  }

  lemma {:induction false} NormScale(c: real, v: seq<real>)
    ensures Norm(Scale(c, v)) == Abs(c) * Norm(v)
  {
    hide Scale, Abs;
    if v == [] {
      assert Scale(c, v) == [] && Abs(c) * 0.0 == 0.0;
    } else {
      var m, sv := |v| - 1, Scale(c, v);
      NormScale(c, v[..m]);
      ScaleSlice(c, v);
      AbsProduct(c, v[m], sv[m]);
      assert |sv| == m + 1;
      assert Norm(sv) == Norm(sv[..m]) + Abs(sv[m]);
      assert Norm(v) == Norm(v[..m]) + Abs(v[m]);
      Distribute(Abs(c), Norm(v[..m]), Abs(v[m]));
    }
  }

  lemma {:induction false} NormOfNonNegative(v: seq<real>)
    requires NonNegative(v)
    ensures Norm(v) == Sum(v)
  {
    if v != [] {
      NormOfNonNegative(v[..|v| - 1]);
    }
  }

  lemma SubCancels(a: seq<real>, u: seq<real>, v: seq<real>)
    requires |a| == |u| == |v|
    ensures Sub(Add(a, u), Add(a, v)) == Sub(u, v)
  {
  }

  lemma {:induction false} NormZero(v: seq<real>)
    requires Norm(v) == 0.0
    ensures v == Constant(|v|, 0.0)
  {
    if v != [] {
      NormZero(v[..|v| - 1]);
      assert v == v[..|v| - 1] + [0.0];
    }
  }

  lemma NormApart(x: seq<real>, y: seq<real>, z: seq<real>)
    requires |x| == |y| == |z|
    ensures Norm(Sub(x, z)) <= Norm(Sub(x, y)) + Norm(Sub(y, z))
  {
    assert Sub(x, z) == Add(Sub(x, y), Sub(y, z));
    NormTriangle(Sub(x, y), Sub(y, z));
  }

  lemma {:induction false} NormBackwards(x: seq<real>, y: seq<real>)
    requires |x| == |y|
    ensures Norm(Sub(x, y)) == Norm(Sub(y, x))
  {
    if x != [] {
      var m := |x| - 1;
      NormBackwards(x[..m], y[..m]);
      assert Sub(x, y)[..m] == Sub(x[..m], y[..m]);
      assert Sub(y, x)[..m] == Sub(y[..m], x[..m]);
    }
  }

  // ---- rows mixed by weights

  predicate Rows(rows: seq<seq<real>>, n: nat) {
    forall i :: 0 <= i < |rows| ==> |rows[i]| == n
  }

  /** Every row is a probability distribution over n. */
  predicate Stochastic(rows: seq<seq<real>>, n: nat) {
    Rows(rows, n) && forall i :: 0 <= i < |rows| ==> NonNegative(rows[i]) && Sum(rows[i]) == 1.0
  }

  /** The first k rows, each times its weight, added up. */
  function Flow(x: seq<real>, rows: seq<seq<real>>, n: nat, k: nat): (r: seq<real>)
    requires Rows(rows, n) && |x| == |rows| && k <= |x|
    ensures |r| == n
  {
    if k == 0 then Constant(n, 0.0)
    else Add(Flow(x, rows, n, k - 1), Scale(x[k - 1], rows[k - 1]))
  }

  lemma {:induction false} FlowConserves(x: seq<real>, rows: seq<seq<real>>, n: nat, k: nat)
    requires Rows(rows, n) && |x| == |rows| && k <= |x|
    requires forall i :: 0 <= i < |rows| ==> Sum(rows[i]) == 1.0
    ensures Sum(Flow(x, rows, n, k)) == Sum(x[..k])
  {
    hide Scale, Add;
    if k == 0 {
      SumConstant(n, 0.0);
    } else {
      FlowConserves(x, rows, n, k - 1);
      SumAdd(Flow(x, rows, n, k - 1), Scale(x[k - 1], rows[k - 1]));
      SumScale(x[k - 1], rows[k - 1]);
      assert x[..k][..k - 1] == x[..k - 1];
    }
  }

  lemma NormOfZero(n: nat)
    ensures Norm(Constant(n, 0.0)) == 0.0
  {
    NormOfNonNegative(Constant(n, 0.0));
    SumConstant(n, 0.0);
  }

  lemma {:induction false} FlowIsBounded(x: seq<real>, rows: seq<seq<real>>, n: nat, k: nat)
    requires Stochastic(rows, n) && |x| == |rows| && k <= |x|
    ensures Norm(Flow(x, rows, n, k)) <= Norm(x[..k])
  {
    hide Scale, Add, Abs, NonNegative;
    if k == 0 {
      NormOfZero(n);
    } else {
      FlowIsBounded(x, rows, n, k - 1);
      NormTriangle(Flow(x, rows, n, k - 1), Scale(x[k - 1], rows[k - 1]));
      NormScale(x[k - 1], rows[k - 1]);
      NormOfNonNegative(rows[k - 1]);
      assert Abs(x[k - 1]) * 1.0 == Abs(x[k - 1]);
      assert x[..k][..k - 1] == x[..k - 1];
    }
  }

  lemma ScaleKeepsSign(c: real, v: seq<real>)
    requires c >= 0.0 && NonNegative(v)
    ensures NonNegative(Scale(c, v))
  {
    forall j | 0 <= j < |v| ensures Scale(c, v)[j] >= 0.0 {
      assert v[j] >= 0.0;
    }
  }

  lemma {:induction false} FlowKeepsSign(x: seq<real>, rows: seq<seq<real>>, n: nat, k: nat)
    requires Stochastic(rows, n) && |x| == |rows| && k <= |x| && NonNegative(x)
    ensures NonNegative(Flow(x, rows, n, k))
  {
    hide Scale;
    if k > 0 {
      FlowKeepsSign(x, rows, n, k - 1);
      ScaleKeepsSign(x[k - 1], rows[k - 1]);
    }
  }

  lemma ScaleBySub(a: real, b: real, v: seq<real>)
    ensures Scale(a - b, v) == Sub(Scale(a, v), Scale(b, v))
  {
  }

  lemma {:induction false} FlowIsLinear(x: seq<real>, y: seq<real>, rows: seq<seq<real>>, n: nat, k: nat)
    requires Rows(rows, n) && |x| == |y| == |rows| && k <= |x|
    ensures Flow(Sub(x, y), rows, n, k) == Sub(Flow(x, rows, n, k), Flow(y, rows, n, k))
  {
    hide Scale;
    if k > 0 {
      FlowIsLinear(x, y, rows, n, k - 1);
      ScaleBySub(x[k - 1], y[k - 1], rows[k - 1]);
    }
  }
}
