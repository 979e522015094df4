/** The graph, and the ranking as the program computes it. */
module PageRank {
  import opened Vectors
  import opened PageRankTheory
  import opened GraphRows
  import opened CompressedRows
  import opened Wrappers

  const MAX_ROUNDS: nat := 100

  datatype Ranked = Ranked(node: nat, rank: real)

  /** The k-th step is the first to move less than the tolerance, or the last one allowed. */
  ghost predicate Stops(w: Walk, tol: real, k: nat)
    requires Shaped(w)
  {
    1 <= k <= MAX_ROUNDS
    && (k < MAX_ROUNDS ==> Diff(w, k) < tol)
    && forall m :: 1 <= m < k ==> Diff(w, m) >= tol
  }

  function WeightOf(edges: Edges, s: nat, d: nat): real {
    if s in edges && d in edges[s] then edges[s][d] else 0.0
  }

  /** The edges with one weight added. */
  function Linked(edges: Edges, src: nat, dst: nat, weight: real): Edges {
    var row: map<nat, real> := if src in edges then edges[src] else map[];
    edges[src := row[dst := (if dst in row then row[dst] else 0.0) + weight]]
  }

  lemma LinkAdds(edges: Edges, src: nat, dst: nat, weight: real)
    ensures var now := Linked(edges, src, dst, weight);
            forall s, d :: WeightOf(now, s, d) == WeightOf(edges, s, d) + if s == src && d == dst then weight else 0.0
  {
  }

  lemma LinkKeeps(edges: Edges, nodes: set<nat>, src: nat, dst: nat, weight: real)
    requires Closed(edges, nodes)
    ensures var now := Linked(edges, src, dst, weight);
            Closed(now, nodes + {src, dst})
            && (forall s, d :: s in now && d in now[s] <==> (s in edges && d in edges[s]) || (s == src && d == dst))
            && (weight > 0.0 && PositiveWeights(edges) ==> PositiveWeights(now))
  {
  }

  predicate Closed(edges: Edges, nodes: set<nat>) {
    forall s :: s in edges ==> s in nodes && edges[s] != map[] && edges[s].Keys <= nodes
  }

  class Graph {
    var edges: Edges
    var nodes: set<nat>

    constructor ()
      ensures edges == map[] && nodes == {}
    {
      edges, nodes := map[], {};
    }

    ghost predicate Valid()
      reads this
    {
      Closed(edges, nodes)
    }

    /** Adds to the weight of one edge and to no other. */
    method Link(src: nat, dst: nat, weight: real)
      requires Valid()
      modifies this
      ensures Valid() && nodes == old(nodes) + {src, dst}
      ensures forall s, d :: WeightOf(edges, s, d)
                          == WeightOf(old(edges), s, d) + if s == src && d == dst then weight else 0.0
      ensures forall s, d :: s in edges && d in edges[s] <==>
                (s in old(edges) && d in old(edges)[s]) || (s == src && d == dst)
      ensures weight > 0.0 && PositiveWeights(old(edges)) ==> PositiveWeights(edges)
    {
      LinkAdds(edges, src, dst, weight);
      LinkKeeps(edges, nodes, src, dst, weight);
      ghost var linked := Linked(edges, src, dst, weight);
      nodes := nodes + {src, dst};
      if src !in edges {
        var none: map<nat, real> := map[];
        edges := edges[src := none];
      }
      var row: map<nat, real> := edges[src];
      row := row[dst := (if dst in row then row[dst] else 0.0) + weight];
      edges := edges[src := row];
      assert edges == linked;
      hide Linked, WeightOf, Closed, PositiveWeights;
    }

    /** The ranks by ascending node: as many steps of the walk, from the uniform vector, as it takes. */
    method Rank(alpha: real, tol: real, personalize: Option<map<nat, real>>) returns (out: seq<Ranked>)
      requires Valid() && PositiveWeights(edges)
      ensures Ascending(NodesOf(out)) && forall id :: id in NodesOf(out) <==> id in nodes
      ensures nodes != {} ==> out != [] && exists k :: IsRanking(out, edges, alpha, tol, personalize, k)
    {
      hide WalkOf, Iterate, Stops, Ascending, PositiveWeights;
      var nodeList := SortedNodes(nodes);
      out := [];
      if nodeList == [] {
        assert nodes == {} by {
          assert forall id :: id in nodes ==> id in nodeList;
        }
        return;
      }
      var rank;
      ghost var k;
      rank, k := RankOver(edges, nodeList, alpha, tol, personalize);
      out := PairUp(nodeList, rank);
      assert IsRanking(out, edges, alpha, tol, personalize, k);
    }
  }

  method PairUp(nodeList: seq<nat>, rank: array<real>) returns (out: seq<Ranked>)
    requires rank.Length == |nodeList|
    ensures NodesOf(out) == nodeList && RanksOf(out) == rank[..]
  {
    out := [];
    var i := 0;
    while i < |nodeList|
      invariant 0 <= i <= |nodeList| && |out| == i
      invariant forall j :: 0 <= j < i ==> out[j] == Ranked(nodeList[j], rank[j])
    {
      out := out + [Ranked(nodeList[i], rank[i])];
      i := i + 1;
    }
  }

  function NodesOf(out: seq<Ranked>): (r: seq<nat>)
    ensures |r| == |out|
  {
    seq(|out|, i requires 0 <= i < |out| => out[i].node)
  }

  function RanksOf(out: seq<Ranked>): (r: seq<real>)
    ensures |r| == |out|
  {
    seq(|out|, i requires 0 <= i < |out| => out[i].rank)
  }

  /** The ranks are the k-th iterate of the walk over the nodes, where the iteration stops. */
  ghost predicate IsRanking(out: seq<Ranked>, edges: Edges, alpha: real, tol: real,
                            personalize: Option<map<nat, real>>, k: nat)
    requires out != []
  {
    var w := WalkOf(edges, NodesOf(out), alpha, personalize);
    Stops(w, tol, k) && RanksOf(out) == Iterate(w, k)
  }

  lemma InsertAscends(list: seq<nat>, p: nat, id: nat)
    requires Ascending(list) && p <= |list| && forall j :: 0 <= j < p ==> list[j] < id
    requires p < |list| ==> id < list[p]
    ensures Ascending(list[..p] + [id] + list[p..])
  {
    var r := list[..p] + [id] + list[p..];
    forall i | 0 <= i < |r| ensures r[i] == if i < p then list[i] else if i == p then id else list[i - 1] {
    }
    assert forall j :: p <= j < |list| ==> id < list[j];
  }

  lemma InsertHolds(list: seq<nat>, p: nat, id: nat)
    requires p <= |list|
    ensures forall x :: x in list[..p] + [id] + list[p..] <==> x in list || x == id
  {
    assert list == list[..p] + list[p..];
    forall x ensures x in list[..p] + [id] + list[p..] <==> x in list || x == id {
      assert x in list <==> x in list[..p] || x in list[p..];
    }
  }

  /** The ids collected in any order, then sorted. */
  method SortedNodes(nodes: set<nat>) returns (list: seq<nat>)
    ensures Ascending(list) && forall id :: id in list <==> id in nodes
  {
    list := [];
    var todo := nodes;
    assert Ascending(list);
    hide Ascending;
    while todo != {}
      invariant todo <= nodes && Ascending(list)
      invariant forall id :: id in list <==> id in nodes && id !in todo
      decreases |todo|
    {
      var id :| id in todo;
      assert id !in list;
      todo := todo - {id};
      var p := 0;
      while p < |list| && list[p] < id
        invariant 0 <= p <= |list| && forall j :: 0 <= j < p ==> list[j] < id
      {
        p := p + 1;
      }
      assert p < |list| ==> list[p] in list;
      InsertAscends(list, p, id);
      InsertHolds(list, p, id);
      list := list[..p] + [id] + list[p..];
    }
  }

  ghost predicate Indexes(idx: map<nat, nat>, list: seq<nat>) {
    (forall i :: 0 <= i < |list| ==> list[i] in idx && idx[list[i]] == i)
    && forall id :: id in idx ==> idx[id] < |list| && list[idx[id]] == id
  }

  method IndexNodes(list: seq<nat>) returns (idx: map<nat, nat>)
    requires Ascending(list)
    ensures Indexes(idx, list)
  {
    idx := map[];
    var i := 0;
    while i < |list|
      invariant 0 <= i <= |list|
      invariant forall j :: 0 <= j < i ==> list[j] in idx && idx[list[j]] == j
      invariant forall id :: id in idx ==> idx[id] < i && list[idx[id]] == id
    {
      idx := idx[list[i] := i];
      i := i + 1;
    }
  }

  method Fill(a: array<real>, c: real)
    modifies a
    ensures a[..] == Constant(a.Length, c)
  {
    var i := 0;
    while i < a.Length
      invariant 0 <= i <= a.Length && forall j :: 0 <= j < i ==> a[j] == c
    {
      a[i] := c;
      i := i + 1;
    }
  }

  method TeleportVector(list: seq<nat>, idx: map<nat, nat>, personalize: Option<map<nat, real>>)
    returns (t: array<real>)
    requires list != [] && Ascending(list) && Indexes(idx, list)
    ensures fresh(t) && t[..] == Teleport(list, personalize)
  {
    hide Sum, Ascending, Indexes;
    var n := |list|;
    t := new real[n];
    if personalize.None? {
      Fill(t, 1.0 / n as real);
      return;
    }
    var sum := CopyWanted(list, idx, personalize.value, t);
    if sum > 0.0 {
      DivideAll(t, sum);
    } else {
      Fill(t, 1.0 / n as real);
    }
  }

  method CopyWanted(list: seq<nat>, idx: map<nat, nat>, wanted: map<nat, real>, t: array<real>) returns (sum: real)
    requires Ascending(list) && Indexes(idx, list) && t.Length == |list|
    modifies t
    ensures t[..] == Wanted(list, wanted) && sum == Sum(Wanted(list, wanted))
  {
    hide Ascending;
    var i := 0;
    sum := 0.0;
    ghost var w := Wanted(list, wanted);
    while i < |list|
      invariant 0 <= i <= |list|
      invariant forall j :: 0 <= j < i ==> t[j] == w[j]
      invariant sum == Sum(w[..i])
    {
      var weight := if list[i] in wanted then wanted[list[i]] else 0.0;
      t[idx[list[i]]] := weight;
      sum := sum + weight;
      assert w[..i + 1][..i] == w[..i];
      i := i + 1;
    }
    assert w[..i] == w;
  }

  method DivideAll(t: array<real>, sum: real)
    requires sum != 0.0
    modifies t
    ensures t[..] == Divided(old(t[..]), sum)
  {
    var i := 0;
    ghost var was := t[..];
    while i < t.Length
      invariant 0 <= i <= t.Length
      invariant forall j :: 0 <= j < t.Length ==> t[j] == if j < i then was[j] / sum else was[j]
    {
      t[i] := t[i] / sum;
      i := i + 1;
    }
  }

  // ---- outgoing weights

  lemma SourceAt(edges: Edges, list: seq<nat>, idx: map<nat, nat>, src: nat)
    requires Covers(list, edges) && Indexes(idx, list) && src in edges
    ensures src in idx && idx[src] < |list| && list[idx[src]] == src
    ensures Row(edges, list, idx[src]) == edges[src]
    ensures forall i :: 0 <= i < |list| && i != idx[src] ==> list[i] != src
    ensures forall d :: d in edges[src] ==> d in list
  {
    assert src in list;
  }

  lemma KeysGrow(row: map<nat, real>, done: set<nat>, list: seq<nat>, j: nat)
    requires Ascending(list) && j < |list| && list[j] in row && list[j] !in done
    ensures Sum(DenseOn(row, done + {list[j]}, list)) == Sum(DenseOn(row, done, list)) + row[list[j]]
  {
    var v := DenseOn(row, done, list);
    assert DenseOn(row, done + {list[j]}, list) == v[j := row[list[j]]];
    SumUpdate(v, j, row[list[j]]);
  }

  lemma NoKeys(row: map<nat, real>, list: seq<nat>)
    ensures Sum(DenseOn(row, {}, list)) == 0.0
    ensures row == map[] ==> OutWeight(row, list) == 0.0
  {
    assert DenseOn(row, {}, list) == Constant(|list|, 0.0);
    SumConstant(|list|, 0.0);
    assert row == map[] ==> row.Keys == {};
  }

  method AddRow(row: map<nat, real>, out: array<real>, si: nat, ghost list: seq<nat>, ghost idx: map<nat, nat>)
    requires Ascending(list) && Indexes(idx, list) && si < out.Length && out[si] == 0.0
    requires forall d :: d in row ==> d in list
    modifies out
    ensures out[si] == OutWeight(row, list)
    ensures forall i :: 0 <= i < out.Length && i != si ==> out[i] == old(out[i])
  {
    hide Sum, DenseOn, Ascending;
    NoKeys(row, list);
    var todo := row.Keys;
    assert row.Keys - todo == {};
    while todo != {}
      invariant todo <= row.Keys
      invariant out[si] == Sum(DenseOn(row, row.Keys - todo, list))
      invariant forall i :: 0 <= i < out.Length && i != si ==> out[i] == old(out[i])
      decreases |todo|
    {
      var d :| d in todo;
      KeysGrow(row, row.Keys - todo, list, idx[d]);
      assert row.Keys - (todo - {d}) == row.Keys - todo + {d};
      out[si] := out[si] + row[d];
      todo := todo - {d};
    }
    assert row.Keys - {} == row.Keys;
  }

  method OutWeights(edges: Edges, list: seq<nat>, idx: map<nat, nat>) returns (out: array<real>)
    requires Covers(list, edges) && Indexes(idx, list)
    ensures fresh(out) && out.Length == |list|
    ensures forall i :: 0 <= i < |list| ==> out[i] == OutWeight(Row(edges, list, i), list)
  {
    hide OutWeight, Ascending, Covers, Indexes;
    out := new real[|list|];
    Fill(out, 0.0);
    var todo := edges.Keys;
    forall i | 0 <= i < |list| && list[i] !in edges ensures OutWeight(Row(edges, list, i), list) == 0.0 {
      NoKeys(Row(edges, list, i), list);
    }
    assert forall i :: 0 <= i < |list| ==> out[..][i] == 0.0;
    while todo != {}
      invariant todo <= edges.Keys
      invariant forall i :: 0 <= i < |list| ==>
                  out[i] == if list[i] in todo then 0.0 else OutWeight(Row(edges, list, i), list)
      decreases |todo|
    {
      var src :| src in todo;
      SourceAt(edges, list, idx, src);
      CoversAscends(list, edges);
      AddRow(edges[src], out, idx[src], list, idx);
      todo := todo - {src};
    }
  }

  // ---- flattening

  method TotalEdges(edges: Edges, list: seq<nat>, idx: map<nat, nat>) returns (total: nat)
    requires Covers(list, edges) && Indexes(idx, list)
    ensures total == Start(edges, list, |list|)
  {
    hide Total, Covers, Indexes;
    total := 0;
    ghost var counted: seq<nat> := Zeros(|list|);
    TotalZero(|list|);
    var todo := edges.Keys;
    while todo != {}
      invariant todo <= edges.Keys && |counted| == |list| && total == Total(counted)
      invariant forall i :: 0 <= i < |list| ==> counted[i] == if list[i] in todo then 0 else |Row(edges, list, i)|
      decreases |todo|
    {
      var src :| src in todo;
      SourceAt(edges, list, idx, src);
      var count: nat := |edges[src]|;
      TotalUpdate(counted, idx[src], count);
      counted := counted[idx[src] := count];
      total := total + count;
      todo := todo - {src};
    }
    assert counted == Counts(edges, list) == Counts(edges, list)[..|list|];
  }

  method RowPointers(edges: Edges, list: seq<nat>, idx: map<nat, nat>) returns (ptr: array<nat>)
    requires Covers(list, edges) && Indexes(idx, list)
    ensures fresh(ptr) && ptr.Length == |list| + 1
    ensures forall i :: 0 <= i <= |list| ==> ptr[i] == Start(edges, list, i)
  {
    hide Start, Covers, Indexes, Row;
    var n := |list|;
    NoRow(edges, list);
    ptr := new nat[n + 1](_ => 0);
    var todo := edges.Keys;
    while todo != {}
      invariant todo <= edges.Keys && ptr[0] == 0
      invariant forall i :: 1 <= i <= n ==> ptr[i] == if list[i - 1] in todo then 0 else |Row(edges, list, i - 1)|
      decreases |todo|
    {
      var src :| src in todo;
      SourceAt(edges, list, idx, src);
      ptr[idx[src] + 1] := |edges[src]|;
      todo := todo - {src};
    }
    PrefixSums(ptr, edges, list);
  }

  lemma NoRow(edges: Edges, list: seq<nat>)
    ensures forall i :: 0 <= i < |list| && list[i] !in edges ==> |Row(edges, list, i)| == 0
  {
  }

  method PrefixSums(ptr: array<nat>, ghost edges: Edges, ghost list: seq<nat>)
    requires ptr.Length == |list| + 1 && ptr[0] == 0
    requires forall i :: 1 <= i <= |list| ==> ptr[i] == |Row(edges, list, i - 1)|
    modifies ptr
    ensures forall i :: 0 <= i <= |list| ==> ptr[i] == Start(edges, list, i)
  {
    hide Start, Row;
    StartZero(edges, list);
    var i := 1;
    while i < ptr.Length
      invariant 1 <= i <= ptr.Length
      invariant forall j :: 0 <= j < i ==> ptr[j] == Start(edges, list, j)
      invariant forall j :: i <= j < ptr.Length ==> ptr[j] == old(ptr[j])
    {
      StartNext(edges, list, i - 1);
      assert old(ptr[i]) == |Row(edges, list, i - 1)|;
      ptr[i] := ptr[i] + ptr[i - 1];
      i := i + 1;
    }
  }

  lemma StartZero(edges: Edges, list: seq<nat>)
    ensures Start(edges, list, 0) == 0
  {
  }

  lemma PositionOf(idx: map<nat, nat>, list: seq<nat>, d: nat)
    requires Indexes(idx, list) && d in list
    ensures d in idx && idx[d] < |list| && list[idx[d]] == d
  {
  }

  method PlaceEdge(j: nat, w: real, si: nat, lo: nat, offset: array<nat>, col: array<nat>, weight: array<real>)
    requires offset != col && si < offset.Length && lo + offset[si] < col.Length == weight.Length
    modifies offset, col, weight
    ensures offset[si] == old(offset[si]) + 1
    ensures forall i :: 0 <= i < offset.Length && i != si ==> offset[i] == old(offset[i])
    ensures forall p :: 0 <= p < col.Length && p != lo + old(offset[si]) ==>
              col[p] == old(col[p]) && weight[p] == old(weight[p])
    ensures col[lo..lo + offset[si]] == old(col[lo..lo + offset[si]]) + [j]
    ensures weight[lo..lo + offset[si]] == old(weight[lo..lo + offset[si]]) + [w]
  {
    var pos := lo + offset[si];
    col[pos] := j;
    weight[pos] := w;
    offset[si] := offset[si] + 1;
  }

  /** Writes one row's edges, in any order, from its start on. */
  method FillRow(row: map<nat, real>, ow: real, si: nat, lo: nat, offset: array<nat>, col: array<nat>,
                 weight: array<real>, idx: map<nat, nat>, ghost list: seq<nat>)
    requires offset != col && Ascending(list) && Indexes(idx, list) && forall d :: d in row ==> d in list
    requires si < offset.Length && offset[si] == 0
    requires lo + |row| <= col.Length == weight.Length
    requires ow == OutWeight(row, list) != 0.0
    modifies offset, col, weight
    ensures forall i :: 0 <= i < offset.Length && i != si ==> offset[i] == old(offset[i])
    ensures forall p :: 0 <= p < col.Length && !(lo <= p < lo + |row|) ==>
              col[p] == old(col[p]) && weight[p] == old(weight[p])
    ensures RowAt(col[lo..lo + |row|], weight[lo..lo + |row|], row, list)
  {
    hide OutWeight, PartRow, RowAt, Ascending, Indexes;
    var todo := row.Keys;
    ghost var k := 0;
    StartPart(row, ow, list);
    assert row.Keys - todo == {} && col[lo..lo] == [] && weight[lo..lo] == [];
    while todo != {}
      invariant todo <= row.Keys && offset[si] == k && k + |todo| == |row|
      invariant forall i :: 0 <= i < offset.Length && i != si ==> offset[i] == old(offset[i])
      invariant forall p :: 0 <= p < col.Length && !(lo <= p < lo + k) ==>
                  col[p] == old(col[p]) && weight[p] == old(weight[p])
      invariant PartRow(col[lo..lo + k], weight[lo..lo + k], row.Keys - todo, row, ow, list)
      decreases |todo|
    {
      var d :| d in todo;
      PositionOf(idx, list, d);
      PartRowGrows(col[lo..lo + k], weight[lo..lo + k], row.Keys - todo, row, ow, list, idx[d]);
      assert row.Keys - (todo - {d}) == row.Keys - todo + {d};
      todo := todo - {d};
      PlaceEdge(idx[d], row[d] / ow, si, lo, offset, col, weight);
      k := k + 1;
    }
    assert row.Keys - {} == row.Keys;
    WholeRow(col[lo..lo + k], weight[lo..lo + k], row, ow, list);
  }

  lemma StartPart(row: map<nat, real>, ow: real, list: seq<nat>)
    requires ow != 0.0
    ensures PartRow([], [], {}, row, ow, list)
  {
  }

  lemma WholeRow(cols: seq<nat>, weights: seq<real>, row: map<nat, real>, ow: real, list: seq<nat>)
    requires ow == OutWeight(row, list) != 0.0 && |cols| == |row| && PartRow(cols, weights, row.Keys, row, ow, list)
    ensures RowAt(cols, weights, row, list)
  {
    hide OutWeight;
  }

  lemma RowKept(col: seq<nat>, weight: seq<real>, newCol: seq<nat>, newWeight: seq<real>,
                edges: Edges, list: seq<nat>, i: nat, si: nat)
    requires i < |list| && si < |list| && i != si && HoldsRow(col, weight, edges, list, i)
    requires |col| == |newCol| == |newWeight| == |weight|
    requires forall p :: 0 <= p < |col| && !(Start(edges, list, si) <= p < Start(edges, list, si + 1)) ==>
               newCol[p] == col[p] && newWeight[p] == weight[p]
    ensures HoldsRow(newCol, newWeight, edges, list, i)
  {
    hide Start, RowAt;
    var lo, hi := Start(edges, list, i), Start(edges, list, i + 1);
    if i < si {
      StartsAscend(edges, list, i + 1, si);
    } else {
      StartsAscend(edges, list, si + 1, i);
    }
    assert newCol[lo..hi] == col[lo..hi] && newWeight[lo..hi] == weight[lo..hi];
  }

  lemma EmptyRowHeld(col: seq<nat>, weight: seq<real>, edges: Edges, list: seq<nat>, i: nat)
    requires i < |list| && Row(edges, list, i) == map[] && |col| == |weight| == Start(edges, list, |list|)
    ensures HoldsRow(col, weight, edges, list, i)
  {
    hide Start;
    StartNext(edges, list, i);
    StartsAscend(edges, list, i + 1, |list|);
  }

  /** Fills row si and leaves the other rows as they are. */
  method PlaceRow(edges: Edges, src: nat, idx: map<nat, nat>, out: array<real>, ptr: array<nat>,
                  offset: array<nat>, col: array<nat>, weight: array<real>, ghost list: seq<nat>)
    requires Covers(list, edges) && PositiveWeights(edges) && Indexes(idx, list) && src in edges
    requires out.Length == offset.Length == |list| && ptr.Length == |list| + 1
    requires src in idx && idx[src] < |list| && offset[idx[src]] == 0
    requires forall i :: 0 <= i < |list| ==> out[i] == OutWeight(Row(edges, list, i), list)
    requires forall i :: 0 <= i <= |list| ==> ptr[i] == Start(edges, list, i)
    requires col.Length == weight.Length == Start(edges, list, |list|)
    requires ptr != offset && ptr != col && offset != col && out != weight
    modifies offset, col, weight
    ensures forall i :: 0 <= i < |list| && i != idx[src] ==> offset[i] == old(offset[i])
    ensures HoldsRow(col[..], weight[..], edges, list, idx[src])
    ensures forall i :: 0 <= i < |list| && i != idx[src] && HoldsRow(old(col[..]), old(weight[..]), edges, list, i) ==>
              HoldsRow(col[..], weight[..], edges, list, i)
  {
    hide Start, RowAt, OutWeight, HoldsRow, PositiveWeights, Covers, Indexes, Ascending;
    var si, row := idx[src], edges[src];
    SourceAt(edges, list, idx, src);
    CoversAscends(list, edges);
    OutWeightIsPositive(edges, list, si);
    assert row != map[] by {
      SourceHasEdges(edges, list, src);
    }
    StartNext(edges, list, si);
    StartsAscend(edges, list, si + 1, |list|);
    FillRow(row, out[si], si, ptr[si], offset, col, weight, idx, list);
    RowHeld(col[..], weight[..], edges, list, si);
    forall i | 0 <= i < |list| && i != si && HoldsRow(old(col[..]), old(weight[..]), edges, list, i)
      ensures HoldsRow(col[..], weight[..], edges, list, i)
    {
      RowKept(old(col[..]), old(weight[..]), col[..], weight[..], edges, list, i, si);
    }
  }

  lemma SourceHasEdges(edges: Edges, list: seq<nat>, src: nat)
    requires Covers(list, edges) && src in edges
    ensures edges[src] != map[]
  {
  }

  /** The compressed arrays, whatever order the maps are walked in. */
  method Compress(edges: Edges, list: seq<nat>, idx: map<nat, nat>, out: array<real>)
    returns (ptr: array<nat>, col: array<nat>, weight: array<real>)
    requires Covers(list, edges) && PositiveWeights(edges) && Indexes(idx, list) && out.Length == |list|
    requires forall i :: 0 <= i < |list| ==> out[i] == OutWeight(Row(edges, list, i), list)
    ensures fresh(ptr) && fresh(col) && fresh(weight)
    ensures Flattens(ptr[..], col[..], weight[..], edges, list)
  {
    hide Start, RowAt, OutWeight, HoldsRow, PositiveWeights, Covers, Indexes;
    var total := TotalEdges(edges, list, idx);
    ptr := RowPointers(edges, list, idx);
    col, weight := new nat[total], new real[total];
    var offset := new nat[|list|](_ => 0);
    var todo := edges.Keys;
    forall i | 0 <= i < |list| && list[i] !in todo ensures HoldsRow(col[..], weight[..], edges, list, i) {
      EmptyRowHeld(col[..], weight[..], edges, list, i);
    }
    while todo != {}
      invariant todo <= edges.Keys
      invariant forall i :: 0 <= i <= |list| ==> ptr[i] == Start(edges, list, i)
      invariant forall i :: 0 <= i < |list| && list[i] in todo ==> offset[i] == 0
      invariant forall i :: 0 <= i < |list| && list[i] !in todo ==> HoldsRow(col[..], weight[..], edges, list, i)
      decreases |todo|
    {
      var src :| src in todo;
      SourceAt(edges, list, idx, src);
      PlaceRow(edges, src, idx, out, ptr, offset, col, weight, list);
      todo := todo - {src};
    }
  }

  lemma RowHeld(col: seq<nat>, weight: seq<real>, edges: Edges, list: seq<nat>, i: nat)
    requires i < |list| && Start(edges, list, i) <= Start(edges, list, i + 1) <= |col| == |weight|
    requires RowAt(col[Start(edges, list, i)..Start(edges, list, i + 1)],
                   weight[Start(edges, list, i)..Start(edges, list, i + 1)], Row(edges, list, i), list)
    ensures HoldsRow(col, weight, edges, list, i)
  {
  }

  // ---- iterating

  method DanglingNodes(out: array<real>) returns (d: seq<nat>)
    ensures d == Dangling(out[..])
  {
    d := [];
    var i := 0;
    while i < out.Length
      invariant 0 <= i <= out.Length && d == Dangling(out[..i])
    {
      assert out[..i + 1][..i] == out[..i];
      if out[i] == 0.0 {
        d := d + [i];
      }
      i := i + 1;
    }
    assert out[..i] == out[..];
  }

  method DanglingMass(rank: array<real>, dangling: seq<nat>) returns (sum: real)
    requires forall k :: 0 <= k < |dangling| ==> dangling[k] < rank.Length
    ensures sum == SumAt(rank[..], dangling)
  {
    sum := 0.0;
    var k := 0;
    while k < |dangling|
      invariant 0 <= k <= |dangling| && sum == SumAt(rank[..], dangling[..k])
    {
      assert dangling[..k + 1][..k] == dangling[..k];
      sum := sum + rank[dangling[k]];
      k := k + 1;
    }
    assert dangling[..k] == dangling;
  }

  method ScatterRow(a: array<real>, c: real, col: array<nat>, weight: array<real>, lo: nat, hi: nat)
    requires a != weight && lo <= hi <= col.Length && hi <= weight.Length
    requires forall e :: lo <= e < hi ==> col[e] < a.Length
    modifies a
    ensures a[..] == Scatter(old(a[..]), c, col[lo..hi], weight[lo..hi])
  {
    hide Scatter;
    var e := lo;
    ScatterNone(old(a[..]), c);
    assert col[lo..lo] == [] && weight[lo..lo] == [];
    while e < hi
      invariant lo <= e <= hi
      invariant a[..] == Scatter(old(a[..]), c, col[lo..e], weight[lo..e])
    {
      ScatterOne(old(a[..]), c, col[lo..e], weight[lo..e], col[e], weight[e]);
      assert col[lo..e + 1] == col[lo..e] + [col[e]] && weight[lo..e + 1] == weight[lo..e] + [weight[e]];
      a[col[e]] := a[col[e]] + c * weight[e];
      e := e + 1;
    }
  }

  lemma ScatterNone(u: seq<real>, c: real)
    ensures Scatter(u, c, [], []) == u
  {
  }

  method StartRound(next: array<real>, alpha: real, jumped: real, t: array<real>)
    requires next != t && next.Length == t.Length
    modifies next
    ensures next[..] == Base(alpha, jumped, t[..])
  {
    var i := 0;
    ghost var base := Base(alpha, jumped, t[..]);
    while i < t.Length
      invariant 0 <= i <= t.Length && t[..] == old(t[..])
      invariant forall j :: 0 <= j < i ==> next[j] == base[j]
    {
      assert base[i] == (1.0 - alpha) * t[i] + jumped * t[i];
      next[i] := (1.0 - alpha) * t[i] + jumped * t[i];
      i := i + 1;
    }
  }

  /** Walks the arrays row by row: each row's stretch adds its damped share. */
  method SpreadRows(alpha: real, ptr: array<nat>, col: array<nat>, weight: array<real>, rank: array<real>,
                    next: array<real>, ghost edges: Edges, ghost list: seq<nat>)
    requires Covers(list, edges) && Flattens(ptr[..], col[..], weight[..], edges, list)
    requires rank.Length == next.Length == |list| && next != rank && next != weight
    modifies next
    ensures next[..] == Add(old(next[..]), Scale(alpha, Flow(rank[..], SparseRows(edges, list), |list|, |list|)))
  {
    hide Start, RowAt, OutWeight, Flow, Scale, Add, SparseRow;
    var n, si := rank.Length, 0;
    ghost var x, rows, base := rank[..], SparseRows(edges, list), next[..];
    NothingYet(alpha, base, x, rows);
    while si < n
      invariant 0 <= si <= n
      invariant next[..] == Add(base, Scale(alpha, Flow(x, rows, n, si)))
    {
      var start, end := ptr[si], ptr[si + 1];
      var contribution := alpha * rank[si];
      assert ptr[..][si] == start && ptr[..][si + 1] == end;
      RowAdds(col[..], weight[..], edges, list, si, next[..], contribution);
      assert col[..][start..end] == col[start..end] && weight[..][start..end] == weight[start..end];
      assert forall e :: start <= e < end ==> col[e] == col[..][e];
      OneMoreRow(alpha, base, x, rows, si, contribution);
      if start != end {
        ScatterRow(next, contribution, col, weight, start, end);
      }
      si := si + 1;
    }
  }

  method Distance(rank: array<real>, next: array<real>) returns (diff: real)
    requires rank.Length == next.Length
    ensures diff == Norm(Sub(next[..], rank[..]))
  {
    diff := 0.0;
    var i := 0;
    ghost var v := Sub(next[..], rank[..]);
    while i < rank.Length
      invariant 0 <= i <= rank.Length && diff == Norm(v[..i])
    {
      var d := next[i] - rank[i];
      assert v[..i + 1][..i] == v[..i] && v[i] == d;
      if d < 0.0 {
        d := -d;
      }
      diff := diff + d;
      i := i + 1;
    }
    assert v[..i] == v;
  }

  /** One round: the jump share, the dangling mass, then every row. */
  method Round(alpha: real, t: array<real>, ptr: array<nat>, col: array<nat>, weight: array<real>,
               dangling: seq<nat>, rank: array<real>, next: array<real>,
               ghost edges: Edges, ghost list: seq<nat>, ghost w: Walk, ghost out: seq<real>)
    requires list != [] && Covers(list, edges) && PositiveWeights(edges)
    requires Flattens(ptr[..], col[..], weight[..], edges, list)
    requires |out| == |list| && dangling == Dangling(out)
    requires forall i :: 0 <= i < |list| ==> out[i] == OutWeight(Row(edges, list, i), list)
    requires rank.Length == next.Length == t.Length == |list|
    requires w.alpha == alpha && w.teleport == t[..] && w.rows == SurferRows(edges, list, t[..])
    requires next != rank && next != weight && next != t
    modifies next
    ensures next[..] == Step(w, rank[..])
  {
    hide OutWeight, Flow, SurferRows, SparseRows, SumAt, Dangling, Step, Base, Scale, Add, Covers, PositiveWeights, Flattens;
    var danglingSum := DanglingMass(rank, dangling);
    var jumped := alpha * danglingSum;
    StartRound(next, alpha, jumped, t);
    SpreadRows(alpha, ptr, col, weight, rank, next, edges, list);
    SurferFlow(edges, list, w, rank[..], out);
    PartsMakeStep(w, rank[..], danglingSum, jumped, Flow(rank[..], SparseRows(edges, list), |list|, |list|));
  }

  /** Rounds from the uniform vector until one moves less than the tolerance, a hundred at most. */
  method Rounds(t: array<real>, tol: real, ptr: array<nat>, col: array<nat>, weight: array<real>, dangling: seq<nat>,
                alpha: real, ghost edges: Edges, ghost list: seq<nat>, ghost w: Walk, ghost out: seq<real>)
    returns (rank: array<real>, ghost k: nat)
    requires list != [] && Covers(list, edges) && PositiveWeights(edges) && t.Length == |list|
    requires Flattens(ptr[..], col[..], weight[..], edges, list)
    requires |out| == |list| && dangling == Dangling(out)
    requires forall i :: 0 <= i < |list| ==> out[i] == OutWeight(Row(edges, list, i), list)
    requires Shaped(w) && w.alpha == alpha && w.teleport == t[..] && w.rows == SurferRows(edges, list, t[..])
    ensures fresh(rank) && rank.Length == |list| && Stops(w, tol, k) && rank[..] == Iterate(w, k)
  {
    hide OutWeight, SurferRows, Dangling, Step, Covers, PositiveWeights, Flattens, Uniform, Shaped, Row;
    rank := new real[t.Length];
    FillUniform(rank);
    var next := new real[t.Length];
    k := 0;
    var rounds, settled := 0, false;
    while rounds < MAX_ROUNDS && !settled
      invariant 0 <= k == rounds <= MAX_ROUNDS
      invariant fresh(rank) && fresh(next) && rank != next && rank.Length == next.Length == t.Length
      invariant rank[..] == Iterate(w, k)
      invariant settled ==> k > 0 && Diff(w, k) < tol
      invariant forall m :: 1 <= m < k + (if settled then 0 else 1) ==> Diff(w, m) >= tol
      decreases MAX_ROUNDS - rounds
    {
      Round(alpha, t, ptr, col, weight, dangling, rank, next, edges, list, w, out);
      var diff := Distance(rank, next);
      rank, next := next, rank;
      k, rounds := k + 1, rounds + 1;
      settled := diff < tol;
    }
  }

  method RankOver(edges: Edges, list: seq<nat>, alpha: real, tol: real, personalize: Option<map<nat, real>>)
    returns (rank: array<real>, ghost k: nat)
    requires list != [] && Covers(list, edges) && PositiveWeights(edges)
    ensures fresh(rank) && rank.Length == |list|
    ensures Stops(WalkOf(edges, list, alpha, personalize), tol, k)
    ensures rank[..] == Iterate(WalkOf(edges, list, alpha, personalize), k)
  {
    hide OutWeight, SurferRows, Dangling, Covers, PositiveWeights, Flattens, Teleport, Indexes, Ascending, Iterate, Stops;
    CoversAscends(list, edges);
    var idx := IndexNodes(list);
    var t := TeleportVector(list, idx, personalize);
    var out := OutWeights(edges, list, idx);
    var ptr, col, weight := Compress(edges, list, idx, out);
    var dangling := DanglingNodes(out);
    rank, k := Rounds(t, tol, ptr, col, weight, dangling, alpha, edges, list, WalkOf(edges, list, alpha, personalize),
                      out[..]);
  }

  lemma CoversAscends(list: seq<nat>, edges: Edges)
    requires Covers(list, edges)
    ensures Ascending(list)
  {
  }

  method FillUniform(a: array<real>)
    requires a.Length > 0
    modifies a
    ensures a[..] == Uniform(a.Length)
  {
    Fill(a, 1.0 / a.Length as real);
  }

  // ---- what the ranks are

  predicate Sensible(alpha: real, personalize: Option<map<nat, real>>) {
    0.0 <= alpha < 1.0
    && (personalize.Some? ==> forall d :: d in personalize.value ==> personalize.value[d] >= 0.0)
  }

  /** A probability distribution with a floor, close to the only vector a step would leave alone. */
  lemma RanksAreAccurate(edges: Edges, list: seq<nat>, alpha: real, tol: real, personalize: Option<map<nat, real>>,
                         k: nat, z: seq<real>)
    requires list != [] && Covers(list, edges) && PositiveWeights(edges) && Sensible(alpha, personalize)
    requires Stops(WalkOf(edges, list, alpha, personalize), tol, k)
    ensures var w := WalkOf(edges, list, alpha, personalize);
            var ranks := Iterate(w, k);
            NonNegative(ranks) && Sum(ranks) == 1.0
            && (forall j :: 0 <= j < |list| ==> ranks[j] >= (1.0 - alpha) * w.teleport[j])
            && (k < MAX_ROUNDS && |z| == |list| && Step(w, z) == z ==>
                  Norm(Sub(ranks, z)) <= alpha / (1.0 - alpha) * tol)
  {
    hide Covers, PositiveWeights, Iterate, Step, Sum, Norm, NonNegative, Teleport, SurferRows;
    var w := WalkOf(edges, list, alpha, personalize);
    WalkIsProper(edges, list, alpha, personalize);
    RanksAreDistribution(w, k);
    if k < MAX_ROUNDS && |z| == |list| && Step(w, z) == z {
      NearStationary(w, k, z);
      QuotientKeepsSign(alpha, 1.0 - alpha);
      Monotone(alpha / (1.0 - alpha), Diff(w, k), tol);
    }
  }

  /** The tolerance bounds the number of rounds. */
  lemma StopsByRound(w: Walk, tol: real, k: nat, m: nat)
    requires Proper(w) && Stops(w, tol, k) && 1 <= m <= MAX_ROUNDS && 2.0 * Pow(w.alpha, m - 1) < tol
    ensures k <= m
  {
    DiffsShrink(w, m);
  }
}
