/** How a weighted graph over node ids is read as rows over positions in an ascending node list. */
module GraphRows {
  import opened Vectors
  import opened PageRankTheory
  import opened Wrappers

  type Edges = map<nat, map<nat, real>>

  predicate Ascending(list: seq<nat>) {
    forall i, j :: 0 <= i < j < |list| ==> list[i] < list[j]
  }

  /** The list holds the nodes of the graph, and every edge runs between nodes. */
  predicate Covers(list: seq<nat>, edges: Edges) {
    Ascending(list)
    && (forall s :: s in edges ==> s in list && edges[s] != map[])
    && (forall s, d :: s in edges && d in edges[s] ==> d in list)
  }

  predicate PositiveWeights(edges: Edges) {
    forall s, d :: s in edges && d in edges[s] ==> edges[s][d] > 0.0
  }

  function Row(edges: Edges, list: seq<nat>, i: nat): map<nat, real>
    requires i < |list|
  {
    if list[i] in edges then edges[list[i]] else map[]
  }

  /** The entries of a row whose keys are among the given ones, by position. */
  function DenseOn(row: map<nat, real>, keys: set<nat>, list: seq<nat>): (r: seq<real>)
    ensures |r| == |list|
  {
    seq(|list|, j requires 0 <= j < |list| => if list[j] in keys && list[j] in row then row[list[j]] else 0.0)
  }

  function OutWeight(row: map<nat, real>, list: seq<nat>): real {
    Sum(DenseOn(row, row.Keys, list))
  }

  /** A row over the list, divided by its total; all zero when it has no edge. */
  function SparseRow(row: map<nat, real>, list: seq<nat>): (r: seq<real>)
    ensures |r| == |list|
  {
    var out := OutWeight(row, list);
    if out == 0.0 then Constant(|list|, 0.0)
    else seq(|list|, j requires 0 <= j < |list| => (if list[j] in row then row[list[j]] else 0.0) / out)
  }

  function SparseRows(edges: Edges, list: seq<nat>): (r: seq<seq<real>>)
    ensures |r| == |list| && Rows(r, |list|)
    ensures forall i :: 0 <= i < |list| ==> r[i] == SparseRow(Row(edges, list, i), list)
  {
    seq(|list|, i requires 0 <= i < |list| => SparseRow(Row(edges, list, i), list))
  }

  /** The surfer's rows: a node without outgoing edges jumps like everybody else. */
  function SurferRows(edges: Edges, list: seq<nat>, t: seq<real>): (r: seq<seq<real>>)
    requires |t| == |list|
    ensures |r| == |list| && Rows(r, |list|)
    ensures forall i :: 0 <= i < |list| ==>
              r[i] == if Row(edges, list, i) == map[] then t else SparseRow(Row(edges, list, i), list)
  {
    seq(|list|, i requires 0 <= i < |list| =>
      if Row(edges, list, i) == map[] then t else SparseRow(Row(edges, list, i), list))
  }

  function Wanted(list: seq<nat>, weights: map<nat, real>): (r: seq<real>)
    ensures |r| == |list|
    ensures forall i :: 0 <= i < |r| ==> r[i] == if list[i] in weights then weights[list[i]] else 0.0
  {
    seq(|list|, i requires 0 <= i < |list| => if list[i] in weights then weights[list[i]] else 0.0)
  }

  function Divided(v: seq<real>, c: real): (r: seq<real>)
    requires c != 0.0
    ensures |r| == |v| && forall i :: 0 <= i < |r| ==> r[i] == v[i] / c
  {
    seq(|v|, i requires 0 <= i < |v| => v[i] / c)
  }

  /** Where the surfer jumps to: the wanted nodes in proportion, or anywhere when none is wanted. */
  function Teleport(list: seq<nat>, personalize: Option<map<nat, real>>): (r: seq<real>)
    requires list != []
    ensures |r| == |list|
  {
    if personalize.Some? && Sum(Wanted(list, personalize.value)) > 0.0
    then Divided(Wanted(list, personalize.value), Sum(Wanted(list, personalize.value)))
    else Uniform(|list|)
  }

  function WalkOf(edges: Edges, list: seq<nat>, alpha: real, personalize: Option<map<nat, real>>): (w: Walk)
    requires list != []
    ensures Shaped(w) && |w.teleport| == |list|
  {
    var t := Teleport(list, personalize);
    Walk(alpha, t, SurferRows(edges, list, t))
  }

  // ---- it is a probability walk

  lemma {:induction false} SumDivided(v: seq<real>, c: real)
    requires c != 0.0
    ensures Sum(Divided(v, c)) == Sum(v) / c
  {
    if v != [] {
      var m := |v| - 1;
      SumDivided(v[..m], c);
      assert Divided(v, c)[..m] == Divided(v[..m], c);
      DistributeQuotient(Sum(v[..m]), v[m], c);
    }
  }

  lemma DistributeQuotient(a: real, b: real, c: real)
    requires c != 0.0
    ensures (a + b) / c == a / c + b / c
  {
  }

  lemma {:induction false} PositiveSum(v: seq<real>, j: nat)
    requires NonNegative(v) && j < |v|
    ensures Sum(v) >= v[j]
  {
    var m := |v| - 1;
    if j == m {
      NormOfNonNegative(v[..m]);
    } else {
      PositiveSum(v[..m], j);
    }
  }

  /** A node has outgoing weight exactly when it has an outgoing edge. */
  lemma OutWeightIsPositive(edges: Edges, list: seq<nat>, i: nat)
    requires Covers(list, edges) && PositiveWeights(edges) && i < |list|
    ensures OutWeight(Row(edges, list, i), list) >= 0.0
    ensures OutWeight(Row(edges, list, i), list) == 0.0 <==> Row(edges, list, i) == map[]
  {
    var row := Row(edges, list, i);
    var v := DenseOn(row, row.Keys, list);
    assert NonNegative(v);
    NormOfNonNegative(v);
    if row == map[] {
      assert v == Constant(|list|, 0.0);
      NormOfZero(|list|);
    } else {
      var d :| d in row;
      assert list[i] in edges && d in list;
      var j :| 0 <= j < |list| && list[j] == d;
      PositiveSum(v, j);
    }
  }

  lemma DividedIsDistribution(v: seq<real>, c: real)
    requires NonNegative(v) && c == Sum(v) > 0.0
    ensures NonNegative(Divided(v, c)) && Sum(Divided(v, c)) == 1.0
  {
    hide Sum;
    SumDivided(v, c);
    SelfQuotient(c);
    forall j | 0 <= j < |v| ensures Divided(v, c)[j] >= 0.0 {
      QuotientKeepsSign(v[j], c);
    }
  }

  lemma SelfQuotient(c: real)
    requires c != 0.0
    ensures c / c == 1.0
  {
  }

  lemma QuotientKeepsSign(a: real, c: real)
    requires a >= 0.0 && c > 0.0
    ensures a / c >= 0.0
  {
  }

  /** Every row of a graph with positive weights is a probability distribution. */
  lemma SparseRowIsDistribution(row: map<nat, real>, list: seq<nat>)
    requires forall d :: d in row ==> row[d] > 0.0
    requires OutWeight(row, list) > 0.0
    ensures NonNegative(SparseRow(row, list)) && Sum(SparseRow(row, list)) == 1.0
  {
    var out, v := OutWeight(row, list), DenseOn(row, row.Keys, list);
    assert SparseRow(row, list) == Divided(v, out);
    assert NonNegative(v);
    DividedIsDistribution(v, out);
  }

  lemma TeleportIsDistribution(list: seq<nat>, personalize: Option<map<nat, real>>)
    requires list != []
    requires personalize.Some? ==> forall d :: d in personalize.value ==> personalize.value[d] >= 0.0
    ensures NonNegative(Teleport(list, personalize)) && Sum(Teleport(list, personalize)) == 1.0
  {
    hide Sum, Divided, Uniform;
    UniformIsDistribution(|list|);
    if personalize.Some? && Sum(Wanted(list, personalize.value)) > 0.0 {
      DividedIsDistribution(Wanted(list, personalize.value), Sum(Wanted(list, personalize.value)));
    }
  }

  lemma WalkIsProper(edges: Edges, list: seq<nat>, alpha: real, personalize: Option<map<nat, real>>)
    requires list != [] && 0.0 <= alpha < 1.0 && Covers(list, edges) && PositiveWeights(edges)
    requires personalize.Some? ==> forall d :: d in personalize.value ==> personalize.value[d] >= 0.0
    ensures Proper(WalkOf(edges, list, alpha, personalize))
  {
    hide OutWeight, Teleport, Sum, SparseRow, NonNegative;
    var w := WalkOf(edges, list, alpha, personalize);
    TeleportIsDistribution(list, personalize);
    forall i | 0 <= i < |list| ensures NonNegative(w.rows[i]) && Sum(w.rows[i]) == 1.0 {
      OutWeightIsPositive(edges, list, i);
      if Row(edges, list, i) != map[] {
        SparseRowIsDistribution(Row(edges, list, i), list);
      }
    }
  }
}
