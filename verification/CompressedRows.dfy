/** Rows flattened into arrays: what the flattening must hold, and why walking it is one step of the walk. */
module CompressedRows {
  import opened Vectors
  import opened PageRankTheory
  import opened GraphRows

  function Total(counts: seq<nat>): nat {
    if counts == [] then 0 else Total(counts[..|counts| - 1]) + counts[|counts| - 1]
  }

  lemma {:induction false} TotalUpdate(counts: seq<nat>, i: nat, c: nat)
    requires i < |counts|
    ensures Total(counts[i := c]) == Total(counts) - counts[i] + c
  {
    var m := |counts| - 1;
    if i == m {
      assert counts[i := c][..m] == counts[..m];
    } else {
      TotalUpdate(counts[..m], i, c);
      assert counts[i := c][..m] == counts[..m][i := c];
    }
  }

  function Zeros(n: nat): (r: seq<nat>)
    ensures |r| == n && forall i :: 0 <= i < n ==> r[i] == 0
  {
    seq(n, _ => 0)
  }

  lemma {:induction false} TotalZero(n: nat)
    ensures Total(Zeros(n)) == 0
  {
    if n > 0 {
      TotalZero(n - 1);
      assert Zeros(n)[..n - 1] == Zeros(n - 1);
    }
  }

  function Counts(edges: Edges, list: seq<nat>): (r: seq<nat>)
    ensures |r| == |list| && forall i :: 0 <= i < |list| ==> r[i] == |Row(edges, list, i)|
  {
    seq(|list|, i requires 0 <= i < |list| => |Row(edges, list, i)|)
  }

  /** Where row i starts. */
  function Start(edges: Edges, list: seq<nat>, i: nat): nat
    requires i <= |list|
  {
    Total(Counts(edges, list)[..i])
  }

  lemma StartNext(edges: Edges, list: seq<nat>, i: nat)
    requires i < |list|
    ensures Start(edges, list, i + 1) == Start(edges, list, i) + |Row(edges, list, i)|
  {
    var counts := Counts(edges, list);
    assert counts[..i + 1][..i] == counts[..i];
  }

  lemma {:induction false} StartsAscend(edges: Edges, list: seq<nat>, i: nat, j: nat)
    requires i <= j <= |list|
    ensures Start(edges, list, i) <= Start(edges, list, j)
  {
    hide Start;
    if i < j {
      StartsAscend(edges, list, i, j - 1);
      StartNext(edges, list, j - 1);
    }
  }

  /** One stretch of the arrays holds every edge of the row exactly once, each weight divided by the total. */
  ghost predicate RowAt(cols: seq<nat>, weights: seq<real>, row: map<nat, real>, list: seq<nat>) {
    |cols| == |weights| == |row|
    && (row != map[] ==> OutWeight(row, list) != 0.0)
    && (forall e :: 0 <= e < |cols| ==> cols[e] < |list| && list[cols[e]] in row)
    && (forall e :: 0 <= e < |cols| ==> weights[e] == row[list[cols[e]]] / OutWeight(row, list))
    && (forall e, f :: 0 <= e < f < |cols| ==> cols[e] != cols[f])
    && (forall d :: d in row ==> exists e :: 0 <= e < |cols| && list[cols[e]] == d)
  }

  /** A stretch that holds the done part of a row. */
  ghost predicate PartRow(cols: seq<nat>, weights: seq<real>, done: set<nat>, row: map<nat, real>, out: real,
                          list: seq<nat>)
    requires out != 0.0
  {
    |cols| == |weights|
    && (forall e :: 0 <= e < |cols| ==> cols[e] < |list| && list[cols[e]] in done && list[cols[e]] in row)
    && (forall e :: 0 <= e < |cols| ==> weights[e] == row[list[cols[e]]] / out)
    && (forall e, f :: 0 <= e < f < |cols| ==> cols[e] != cols[f])
    && (forall d :: d in done ==> exists e :: 0 <= e < |cols| && list[cols[e]] == d)
  }

  lemma PartRowGrows(cols: seq<nat>, weights: seq<real>, done: set<nat>, row: map<nat, real>, out: real,
                     list: seq<nat>, j: nat)
    requires out != 0.0 && PartRow(cols, weights, done, row, out, list)
    requires j < |list| && list[j] in row && list[j] !in done
    ensures PartRow(cols + [j], weights + [row[list[j]] / out], done + {list[j]}, row, out, list)
  {
    var more := cols + [j];
    assert more[|cols|] == j;
    forall d | d in done + {list[j]} ensures exists e :: 0 <= e < |more| && list[more[e]] == d {
      if d != list[j] {
        var e :| 0 <= e < |cols| && list[cols[e]] == d;
        assert more[e] == cols[e];
      }
    }
  }

  /** The arrays hold the whole graph: row i lies between its start and the next one. */
  ghost predicate Flattens(ptr: seq<nat>, col: seq<nat>, weight: seq<real>, edges: Edges, list: seq<nat>) {
    |ptr| == |list| + 1
    && (forall i :: 0 <= i <= |list| ==> ptr[i] == Start(edges, list, i))
    && |col| == |weight| == Start(edges, list, |list|)
    && forall i :: 0 <= i < |list| ==> HoldsRow(col, weight, edges, list, i)
  }

  ghost predicate HoldsRow(col: seq<nat>, weight: seq<real>, edges: Edges, list: seq<nat>, i: nat)
    requires i < |list|
  {
    var lo, hi := Start(edges, list, i), Start(edges, list, i + 1);
    lo <= hi <= |col| && hi <= |weight| && RowAt(col[lo..hi], weight[lo..hi], Row(edges, list, i), list)
  }

  // ---- scattering a stretch

  function Scatter(u: seq<real>, c: real, cols: seq<nat>, weights: seq<real>): (r: seq<real>)
    requires |cols| == |weights| && forall e :: 0 <= e < |cols| ==> cols[e] < |u|
    ensures |r| == |u|
  {
    if cols == [] then u
    else
      var m := |cols| - 1;
      var s := Scatter(u, c, cols[..m], weights[..m]);
      s[cols[m] := s[cols[m]] + c * weights[m]]
  }

  lemma ScatterOne(u: seq<real>, c: real, cols: seq<nat>, weights: seq<real>, j: nat, w: real)
    requires |cols| == |weights| && j < |u| && forall e :: 0 <= e < |cols| ==> cols[e] < |u|
    ensures var s := Scatter(u, c, cols, weights);
            Scatter(u, c, cols + [j], weights + [w]) == s[j := s[j] + c * w]
  {
    var cs, ws, m := cols + [j], weights + [w], |cols|;
    assert cs[..m] == cols && ws[..m] == weights && cs[m] == j && ws[m] == w;
    ScatterLast(u, c, cs, ws);
    assert Scatter(u, c, cs[..m], ws[..m]) == Scatter(u, c, cols, weights);
    hide Scatter;
    var s := Scatter(u, c, cols, weights);
    Updated(s, Scatter(u, c, cs, ws), j, s[j] + c * w);
  }

  lemma Updated(s: seq<real>, r: seq<real>, j: nat, x: real)
    requires j < |s| == |r| && r[j] == x && forall k :: 0 <= k < |s| && k != j ==> r[k] == s[k]
    ensures r == s[j := x]
  {
  }

  lemma ScatterLast(u: seq<real>, c: real, cs: seq<nat>, ws: seq<real>)
    requires |cs| == |ws| > 0 && forall e :: 0 <= e < |cs| ==> cs[e] < |u|
    ensures var m := |cs| - 1;
            var s, r := Scatter(u, c, cs[..m], ws[..m]), Scatter(u, c, cs, ws);
            r[cs[m]] == s[cs[m]] + c * ws[m] && forall k :: 0 <= k < |u| && k != cs[m] ==> r[k] == s[k]
  {
  }

  lemma {:induction false} ScatterMisses(u: seq<real>, c: real, cols: seq<nat>, weights: seq<real>, j: nat)
    requires |cols| == |weights| && forall e :: 0 <= e < |cols| ==> cols[e] < |u|
    requires j < |u| && j !in cols
    ensures Scatter(u, c, cols, weights)[j] == u[j]
  {
    if cols != [] {
      var m := |cols| - 1;
      assert cols[m] in cols;
      ScatterMisses(u, c, cols[..m], weights[..m], j);
    }
  }

  lemma {:induction false} ScatterHits(u: seq<real>, c: real, cols: seq<nat>, weights: seq<real>, e: nat)
    requires |cols| == |weights| && forall k :: 0 <= k < |cols| ==> cols[k] < |u|
    requires e < |cols| && forall k, l :: 0 <= k < l < |cols| ==> cols[k] != cols[l]
    ensures Scatter(u, c, cols, weights)[cols[e]] == u[cols[e]] + c * weights[e]
  {
    var m := |cols| - 1;
    if e == m {
      ScatterMisses(u, c, cols[..m], weights[..m], cols[m]);
    } else {
      ScatterHits(u, c, cols[..m], weights[..m], e);
    }
  }

  /** Scattering a row's stretch adds c times the divided row. */
  lemma ScatterAddsRow(u: seq<real>, c: real, cols: seq<nat>, weights: seq<real>, row: map<nat, real>, list: seq<nat>)
    requires Ascending(list) && |u| == |list| && RowAt(cols, weights, row, list)
    ensures Scatter(u, c, cols, weights) == Add(u, Scale(c, SparseRow(row, list)))
  {
    hide OutWeight, SparseRow, Scatter;
    var s, r := Scatter(u, c, cols, weights), SparseRow(row, list);
    forall j | 0 <= j < |u| ensures s[j] == u[j] + Scale(c, r)[j] {
      if j in cols {
        EdgeEntry(u, c, cols, weights, row, list, j);
      } else {
        NoEdgeEntry(u, c, cols, weights, row, list, j);
      }
      ScaleEntry(c, r, j);
    }
    hide *;
    AddEntries(u, Scale(c, r), s);
  }

  lemma ScaleEntry(c: real, v: seq<real>, j: nat)
    requires j < |v|
    ensures Scale(c, v)[j] == c * v[j]
  {
  }

  lemma AddEntries(u: seq<real>, v: seq<real>, s: seq<real>)
    requires |u| == |v| == |s| && forall j :: 0 <= j < |u| ==> s[j] == u[j] + v[j]
    ensures s == Add(u, v)
  {
  }

  lemma EdgeWeight(cols: seq<nat>, weights: seq<real>, row: map<nat, real>, list: seq<nat>, e: nat)
    requires RowAt(cols, weights, row, list) && e < |cols|
    ensures cols[e] < |list| && SparseRow(row, list)[cols[e]] == weights[e]
  {
    hide OutWeight;
  }

  lemma EdgeEntry(u: seq<real>, c: real, cols: seq<nat>, weights: seq<real>, row: map<nat, real>, list: seq<nat>, j: nat)
    requires Ascending(list) && |u| == |list| && RowAt(cols, weights, row, list) && j in cols
    ensures j < |u| && Scatter(u, c, cols, weights)[j] == u[j] + c * SparseRow(row, list)[j]
  {
    hide OutWeight, Scatter, SparseRow, Ascending;
    var e :| 0 <= e < |cols| && cols[e] == j;
    EdgeWeight(cols, weights, row, list, e);
    ScatterHits(u, c, cols, weights, e);
  }

  lemma NoEdgeEntry(u: seq<real>, c: real, cols: seq<nat>, weights: seq<real>, row: map<nat, real>, list: seq<nat>, j: nat)
    requires Ascending(list) && |u| == |list| && RowAt(cols, weights, row, list) && j < |u| && j !in cols
    ensures Scatter(u, c, cols, weights)[j] == u[j] + c * SparseRow(row, list)[j]
  {
    NoEdgeShare(cols, weights, row, list, j);
    hide *;
    ScatterMisses(u, c, cols, weights, j);
  }

  lemma NoEdgeShare(cols: seq<nat>, weights: seq<real>, row: map<nat, real>, list: seq<nat>, j: nat)
    requires Ascending(list) && RowAt(cols, weights, row, list) && j < |list| && j !in cols
    ensures SparseRow(row, list)[j] == 0.0
  {
    hide OutWeight, Scatter;
    forall e | 0 <= e < |cols| ensures list[cols[e]] != list[j] {
      assert cols[e] in cols;
    }
  }

  // ---- dangling mass

  /** The positions whose outgoing weight is zero. */
  function Dangling(out: seq<real>): (d: seq<nat>)
    ensures forall k :: 0 <= k < |d| ==> d[k] < |out|
  {
    if out == [] then []
    else
      var m := |out| - 1;
      Dangling(out[..m]) + if out[m] == 0.0 then [m] else []
  }

  function SumAt(x: seq<real>, at: seq<nat>): real
    requires forall k :: 0 <= k < |at| ==> at[k] < |x|
  {
    if at == [] then 0.0 else SumAt(x, at[..|at| - 1]) + x[at[|at| - 1]]
  }

  /** Dangling nodes spread their mass like a jump; the others follow their edges. */
  lemma {:induction false} FlowSplits(x: seq<real>, edges: Edges, list: seq<nat>, t: seq<real>, out: seq<real>, k: nat)
    requires |x| == |list| == |t| == |out| && k <= |list|
    requires Covers(list, edges) && PositiveWeights(edges)
    requires forall i :: 0 <= i < |list| ==> out[i] == OutWeight(Row(edges, list, i), list)
    ensures Flow(x, SurferRows(edges, list, t), |list|, k)
         == Add(Scale(SumAt(x, Dangling(out[..k])), t), Flow(x, SparseRows(edges, list), |list|, k))
  {
    hide OutWeight, Scale, Add, Covers, PositiveWeights, Flow, SumAt, Dangling, SparseRow;
    var sparse := SparseRows(edges, list);
    if k == 0 {
      ZeroScale(t);
      NothingDangles(x, out);
      FlowStarts(x, SurferRows(edges, list, t), |list|);
      FlowStarts(x, sparse, |list|);
    } else {
      var i, d := k - 1, Dangling(out[..k - 1]);
      FlowSplits(x, edges, list, t, out, i);
      OutWeightIsPositive(edges, list, i);
      FlowNext(x, SurferRows(edges, list, t), |list|, i);
      FlowNext(x, sparse, |list|, i);
      DanglesNext(x, out, i);
      var f := Flow(x, sparse, |list|, i);
      if out[i] == 0.0 {
        ZeroRow(edges, list, i);
        MoreJumps(SumAt(x, d), x[i], t, f, sparse[i]);
      } else {
        AddAssociates(Scale(SumAt(x, d), t), f, Scale(x[i], sparse[i]));
      }
    }
  }

  lemma ZeroRow(edges: Edges, list: seq<nat>, i: nat)
    requires i < |list| && OutWeight(Row(edges, list, i), list) == 0.0
    ensures SparseRows(edges, list)[i] == Constant(|list|, 0.0)
  {
  }

  lemma FlowStarts(x: seq<real>, rows: seq<seq<real>>, n: nat)
    requires Rows(rows, n) && |x| == |rows|
    ensures Flow(x, rows, n, 0) == Constant(n, 0.0)
  {
  }

  lemma NothingDangles(x: seq<real>, out: seq<real>)
    ensures SumAt(x, Dangling(out[..0])) == 0.0
  {
  }

  lemma DanglesNext(x: seq<real>, out: seq<real>, i: nat)
    requires i < |out| == |x|
    ensures SumAt(x, Dangling(out[..i + 1])) == SumAt(x, Dangling(out[..i])) + if out[i] == 0.0 then x[i] else 0.0
  {
    var d := Dangling(out[..i]);
    assert out[..i + 1][..i] == out[..i];
    if out[i] == 0.0 {
      assert (d + [i])[..|d|] == d;
    } else {
      assert d + [] == d;
    }
  }

  lemma ZeroScale(t: seq<real>)
    ensures Add(Scale(0.0, t), Constant(|t|, 0.0)) == Constant(|t|, 0.0)
  {
  }

  lemma MoreJumps(a: real, b: real, t: seq<real>, f: seq<real>, s: seq<real>)
    requires |t| == |f| == |s| && s == Constant(|t|, 0.0)
    ensures Add(Add(Scale(a, t), f), Scale(b, t)) == Add(Scale(a + b, t), Add(f, Scale(b, s)))
  {
    forall j | 0 <= j < |t| ensures Add(Add(Scale(a, t), f), Scale(b, t))[j] == Add(Scale(a + b, t), Add(f, Scale(b, s)))[j] {
      Distribute(t[j], a, b);
    }
  }

  lemma AddAssociates(u: seq<real>, v: seq<real>, w: seq<real>)
    requires |u| == |v| == |w|
    ensures Add(Add(u, v), w) == Add(u, Add(v, w))
  {
  }

  lemma SurferFlow(edges: Edges, list: seq<nat>, w: Walk, x: seq<real>, out: seq<real>)
    requires list != [] && Covers(list, edges) && PositiveWeights(edges)
    requires |w.teleport| == |list| == |x| == |out| && w.rows == SurferRows(edges, list, w.teleport)
    requires forall i :: 0 <= i < |list| ==> out[i] == OutWeight(Row(edges, list, i), list)
    ensures Follow(w, x)
         == Add(Scale(SumAt(x, Dangling(out)), w.teleport), Flow(x, SparseRows(edges, list), |list|, |list|))
  {
    hide OutWeight, Flow, SurferRows, SparseRows, SumAt, Dangling, Scale, Add, Covers, PositiveWeights;
    FlowSplits(x, edges, list, w.teleport, out, |list|);
    assert out[..|list|] == out;
  }

  /** The jump share with the dangling mass, plus the damped rest of the flow, is one step. */
  lemma PartsMakeStep(w: Walk, x: seq<real>, mass: real, jumped: real, f: seq<real>)
    requires Shaped(w) && |x| == |w.teleport| == |f| && jumped == w.alpha * mass
    requires Follow(w, x) == Add(Scale(mass, w.teleport), f)
    ensures Add(Base(w.alpha, jumped, w.teleport), Scale(w.alpha, f)) == Step(w, x)
  {
    hide Follow, Base, Scale, Add;
    Regroup(w.alpha, mass, jumped, w.teleport, f);
  }

  function Base(alpha: real, jumped: real, t: seq<real>): (r: seq<real>)
    ensures |r| == |t|
  {
    seq(|t|, j requires 0 <= j < |t| => (1.0 - alpha) * t[j] + jumped * t[j])
  }

  lemma Regroup(a: real, mass: real, jumped: real, t: seq<real>, f: seq<real>)
    requires |t| == |f| && jumped == a * mass
    ensures Add(Base(a, jumped, t), Scale(a, f)) == Add(Scale(1.0 - a, t), Scale(a, Add(Scale(mass, t), f)))
  {
    var l, r := Add(Base(a, jumped, t), Scale(a, f)), Add(Scale(1.0 - a, t), Scale(a, Add(Scale(mass, t), f)));
    forall j | 0 <= j < |t| ensures l[j] == r[j] {
      var p := mass * t[j];
      assert r[j] == (1.0 - a) * t[j] + a * (p + f[j]);
      assert l[j] == (1.0 - a) * t[j] + (a * mass) * t[j] + a * f[j];
      Distribute(a, p, f[j]);
      assert (a * mass) * t[j] == a * p;
    }
  }

  /** One more row: the flow grows by the row, damped. */
  lemma NextRow(a: real, base: seq<real>, f: seq<real>, b: real, c: real, row: seq<real>)
    requires |base| == |f| == |row| && c == a * b
    ensures Add(Add(base, Scale(a, f)), Scale(c, row)) == Add(base, Scale(a, Add(f, Scale(b, row))))
  {
    var l, r := Add(Add(base, Scale(a, f)), Scale(c, row)), Add(base, Scale(a, Add(f, Scale(b, row))));
    forall j | 0 <= j < |f| ensures l[j] == r[j] {
      var p := b * row[j];
      assert l[j] == base[j] + a * f[j] + (a * b) * row[j];
      assert r[j] == base[j] + a * (f[j] + p);
      Distribute(a, f[j], p);
      assert (a * b) * row[j] == a * p;
    }
  }

  lemma NothingYet(a: real, base: seq<real>, x: seq<real>, rows: seq<seq<real>>)
    requires Rows(rows, |base|) && |x| == |rows|
    ensures Add(base, Scale(a, Flow(x, rows, |base|, 0))) == base
  {
    AddNothing(a, base);
  }

  lemma AddNothing(a: real, base: seq<real>)
    ensures Add(base, Scale(a, Constant(|base|, 0.0))) == base
  {
    var zero := Constant(|base|, 0.0);
    forall j | 0 <= j < |base| ensures Add(base, Scale(a, zero))[j] == base[j] {
      assert Scale(a, zero)[j] == a * 0.0 == 0.0;
    }
  }

  lemma OneMoreRow(a: real, base: seq<real>, x: seq<real>, rows: seq<seq<real>>, k: nat, c: real)
    requires Rows(rows, |base|) && |x| == |rows| && k < |x| && c == a * x[k]
    ensures Add(Add(base, Scale(a, Flow(x, rows, |base|, k))), Scale(c, rows[k]))
         == Add(base, Scale(a, Flow(x, rows, |base|, k + 1)))
  {
    FlowNext(x, rows, |base|, k);
    hide Scale, Add, Flow;
    NextRow(a, base, Flow(x, rows, |base|, k), x[k], c, rows[k]);
  }

  lemma FlowNext(x: seq<real>, rows: seq<seq<real>>, n: nat, k: nat)
    requires Rows(rows, n) && |x| == |rows| && k < |x|
    ensures Flow(x, rows, n, k + 1) == Add(Flow(x, rows, n, k), Scale(x[k], rows[k]))
  {
  }

  /** What one stretch of the arrays adds to a vector. */
  lemma RowAdds(col: seq<nat>, weight: seq<real>, edges: Edges, list: seq<nat>, i: nat, u: seq<real>, c: real)
    requires i < |list| == |u| && Ascending(list) && HoldsRow(col, weight, edges, list, i)
    ensures var lo, hi := Start(edges, list, i), Start(edges, list, i + 1);
            lo <= hi <= |col| && hi <= |weight| && (forall e :: lo <= e < hi ==> col[e] < |list|)
            && Scatter(u, c, col[lo..hi], weight[lo..hi]) == Add(u, Scale(c, SparseRow(Row(edges, list, i), list)))
  {
    hide Start, Scatter, OutWeight, SparseRow, Scale, Add, Ascending;
    var lo, hi := Start(edges, list, i), Start(edges, list, i + 1);
    assert forall e :: lo <= e < hi ==> col[e] == col[lo..hi][e - lo];
    ScatterAddsRow(u, c, col[lo..hi], weight[lo..hi], Row(edges, list, i), list);
  }
}
