/** What the ranks mean in terms of the graph and of what was asked for, apart from how the walk is represented. */
module PageRankMeaning {
  import opened Vectors
  import opened PageRankTheory
  import opened GraphRows
  import opened PageRank
  import opened Wrappers

  // ---- the equation

  /** The personal weight of a node. */
  function Asked(personalize: Option<map<nat, real>>, id: nat): real {
    if personalize.Some? && id in personalize.value then personalize.value[id] else 0.0
  }

  function AskedInAll(personalize: Option<map<nat, real>>, list: seq<nat>): real {
    if list == [] then 0.0
    else AskedInAll(personalize, list[..|list| - 1]) + Asked(personalize, list[|list| - 1])
  }

  /** What leaves a node, over all nodes. */
  function OutInAll(edges: Edges, s: nat, list: seq<nat>): real {
    if list == [] then 0.0
    else OutInAll(edges, s, list[..|list| - 1]) + WeightOf(edges, s, list[|list| - 1])
  }

  /** What the first n nodes send to position j. */
  function Inflow(x: seq<real>, rows: seq<seq<real>>, j: nat, n: nat): real
    requires n <= |x| == |rows| && forall i :: 0 <= i < |rows| ==> j < |rows[i]|
  {
    if n == 0 then 0.0 else Inflow(x, rows, j, n - 1) + x[n - 1] * rows[n - 1][j]
  }

  function Distance(x: seq<real>, y: seq<real>): real
    requires |x| == |y|
  {
    if x == [] then 0.0
    else
      var m := |x| - 1;
      Distance(x[..m], y[..m]) + if x[m] < y[m] then y[m] - x[m] else x[m] - y[m]
  }

  /** A product, named to keep real arithmetic apart from the sequences. */
  function Times(a: real, b: real): real {
    a * b
  }

  /** The jump goes to the nodes asked for in proportion, and anywhere alike when nothing is asked for. */
  predicate IsJump(t: seq<real>, list: seq<nat>, personalize: Option<map<nat, real>>) {
    var all := AskedInAll(personalize, list);
    |t| == |list|
    && forall i :: 0 <= i < |t| ==>
         if all > 0.0 then Times(t[i], all) == Asked(personalize, list[i]) else Times(t[i], |list| as real) == 1.0
  }

  /** A node passes its rank on in proportion to its edges' weights; one without edges jumps. */
  predicate IsRow(row: seq<real>, edges: Edges, list: seq<nat>, s: nat, t: seq<real>) {
    |row| == |list|
    && if s !in edges then row == t
       else forall j :: 0 <= j < |row| ==> Times(row[j], OutInAll(edges, s, list)) == WeightOf(edges, s, list[j])
  }

  predicate AreRows(rows: seq<seq<real>>, edges: Edges, list: seq<nat>, t: seq<real>) {
    |rows| == |list| && forall i :: 0 <= i < |rows| ==> IsRow(rows[i], edges, list, list[i], t)
  }

  /** One round of the surfer. */
  predicate IsRound(x: seq<real>, y: seq<real>, t: seq<real>, rows: seq<seq<real>>, alpha: real) {
    |x| == |y| == |t| == |rows| && (forall i :: 0 <= i < |rows| ==> |rows[i]| == |t|)
    && forall j :: 0 <= j < |y| ==> y[j] == (1.0 - alpha) * t[j] + alpha * Inflow(x, rows, j, |x|)
  }

  /** Everybody alike at first, then round after round. */
  predicate AreRounds(rounds: seq<seq<real>>, t: seq<real>, rows: seq<seq<real>>, alpha: real) {
    |rounds| > 0 && |rounds[0]| == |t| && (forall i :: 0 <= i < |t| ==> Times(rounds[0][i], |t| as real) == 1.0)
    && forall m :: 1 <= m < |rounds| ==> IsRound(rounds[m - 1], rounds[m], t, rows, alpha)
  }

  /** The last round is the hundredth or the first that moved less than the tolerance. */
  predicate EndsAsDue(rounds: seq<seq<real>>, tol: real) {
    var k := |rounds| - 1;
    1 <= k <= 100 && (forall m :: 0 <= m <= k ==> |rounds[m]| == |rounds[0]|)
    && (forall m :: 1 <= m < k ==> Distance(rounds[m], rounds[m - 1]) >= tol)
    && (k < 100 ==> Distance(rounds[k], rounds[k - 1]) < tol)
  }

  /** The ranks and how they came about. */
  ghost predicate Explains(out: seq<Ranked>, edges: Edges, alpha: real, tol: real, personalize: Option<map<nat, real>>,
                           list: seq<nat>, t: seq<real>, rows: seq<seq<real>>, rounds: seq<seq<real>>) {
    |out| == |list| && IsJump(t, list, personalize) && AreRows(rows, edges, list, t)
    && AreRounds(rounds, t, rows, alpha) && EndsAsDue(rounds, tol)
    && forall i :: 0 <= i < |out| ==>
         (out[i].node == list[i] && |rounds[|rounds| - 1]| == |out| && out[i].rank == rounds[|rounds| - 1][i])
  }

  // ---- it is the one the ranks solve

  lemma {:induction false} AskedIsWanted(list: seq<nat>, weights: map<nat, real>)
    ensures AskedInAll(Some(weights), list) == Sum(Wanted(list, weights))
  {
    if list != [] {
      var m := |list| - 1;
      AskedIsWanted(list[..m], weights);
      assert Wanted(list, weights)[..m] == Wanted(list[..m], weights);
    }
  }

  lemma {:induction false} NothingAsked(list: seq<nat>)
    ensures AskedInAll(None, list) == 0.0
  {
    if list != [] {
      NothingAsked(list[..|list| - 1]);
    }
  }

  lemma Requotient(x: real, a: real, c: real)
    requires c != 0.0 && x == a / c
    ensures Times(x, c) == a
  {
  }

  /** The jump vector is as asked. */
  lemma TeleportIsAsAsked(list: seq<nat>, personalize: Option<map<nat, real>>)
    requires list != []
    ensures IsJump(Teleport(list, personalize), list, personalize)
  {
    var t, all := Teleport(list, personalize), AskedInAll(personalize, list);
    TeleportIs(list, personalize);
    hide Teleport, AskedInAll, Sum, Wanted, Divided, Uniform, Times;
    if all > 0.0 {
      JumpsAsAsked(list, personalize.value, all, t);
    } else {
      JumpsAlike(|list|, t);
    }
  }

  lemma TeleportIs(list: seq<nat>, personalize: Option<map<nat, real>>)
    requires list != []
    ensures var t, all := Teleport(list, personalize), AskedInAll(personalize, list);
            if all > 0.0 then personalize.Some? && t == Divided(Wanted(list, personalize.value), all)
            else t == Uniform(|list|)
  {
    if personalize.Some? {
      AskedIsWanted(list, personalize.value);
    } else {
      NothingAsked(list);
    }
    hide Sum, AskedInAll;
  }

  lemma JumpsAsAsked(list: seq<nat>, weights: map<nat, real>, all: real, t: seq<real>)
    requires all > 0.0 && t == Divided(Wanted(list, weights), all)
    ensures forall i :: 0 <= i < |t| ==> Times(t[i], all) == Asked(Some(weights), list[i])
  {
    forall i | 0 <= i < |t| ensures Times(t[i], all) == Asked(Some(weights), list[i]) {
      Requotient(t[i], Asked(Some(weights), list[i]), all);
    }
  }

  lemma JumpsAlike(n: nat, t: seq<real>)
    requires n > 0 && t == Uniform(n)
    ensures forall i :: 0 <= i < |t| ==> Times(t[i], n as real) == 1.0
  {
    forall i | 0 <= i < |t| ensures Times(t[i], n as real) == 1.0 {
      Requotient(t[i], 1.0, n as real);
    }
  }

  lemma {:induction false} OutIsTotal(edges: Edges, s: nat, list: seq<nat>)
    requires s in edges
    ensures OutInAll(edges, s, list) == OutWeight(edges[s], list)
  {
    if list != [] {
      var m := |list| - 1;
      var row := edges[s];
      OutIsTotal(edges, s, list[..m]);
      assert DenseOn(row, row.Keys, list)[..m] == DenseOn(row, row.Keys, list[..m]);
    }
  }

  lemma RowIsProportional(edges: Edges, list: seq<nat>, t: seq<real>, i: nat)
    requires |t| == |list| && i < |list| && Covers(list, edges) && PositiveWeights(edges)
    ensures IsRow(SurferRows(edges, list, t)[i], edges, list, list[i], t)
  {
    SurferRowIs(edges, list, t, i);
    hide OutWeight, PositiveWeights, Covers, SparseRow, OutInAll, SurferRows, WeightOf, Times;
    var s := list[i];
    if s in edges {
      OutIsTotal(edges, s, list);
      PassesInProportion(edges, list, s, OutWeight(edges[s], list), SparseRow(edges[s], list));
    }
  }

  lemma SurferRowIs(edges: Edges, list: seq<nat>, t: seq<real>, i: nat)
    requires |t| == |list| && i < |list| && Covers(list, edges) && PositiveWeights(edges)
    ensures SurferRows(edges, list, t)[i] == if list[i] in edges then SparseRow(edges[list[i]], list) else t
    ensures list[i] in edges ==> OutWeight(edges[list[i]], list) != 0.0
  {
    OutWeightIsPositive(edges, list, i);
    hide OutWeight, PositiveWeights, SparseRow;
  }

  lemma PassesInProportion(edges: Edges, list: seq<nat>, s: nat, all: real, row: seq<real>)
    requires s in edges && all == OutWeight(edges[s], list) != 0.0 && row == SparseRow(edges[s], list)
    ensures forall j :: 0 <= j < |row| ==> Times(row[j], all) == WeightOf(edges, s, list[j])
  {
    forall j | 0 <= j < |row| ensures Times(row[j], all) == WeightOf(edges, s, list[j]) {
      Requotient(row[j], WeightOf(edges, s, list[j]), all);
    }
    hide OutWeight;
  }

  lemma {:induction false} FlowIsInflow(x: seq<real>, rows: seq<seq<real>>, n: nat, k: nat, j: nat)
    requires Rows(rows, n) && |x| == |rows| && k <= |x| && j < n
    ensures Flow(x, rows, n, k)[j] == Inflow(x, rows, j, k)
  {
    if k > 0 {
      FlowIsInflow(x, rows, n, k - 1, j);
    }
  }

  lemma StepIsRound(w: Walk, x: seq<real>)
    requires Shaped(w) && |x| == |w.teleport|
    ensures IsRound(x, Step(w, x), w.teleport, w.rows, w.alpha)
  {
    var y, alpha := Step(w, x), w.alpha;
    forall j | 0 <= j < |y| ensures y[j] == (1.0 - alpha) * w.teleport[j] + alpha * Inflow(x, w.rows, j, |x|) {
      FlowIsInflow(x, w.rows, |x|, |x|, j);
      var f, g := Follow(w, x)[j], Inflow(x, w.rows, j, |x|);
      assert f == g;
      assert Scale(alpha, Follow(w, x))[j] == alpha * f;
      assert Scale(1.0 - alpha, w.teleport)[j] == (1.0 - alpha) * w.teleport[j];
    }
  }

  lemma {:induction false} NormIsDistance(x: seq<real>, y: seq<real>)
    requires |x| == |y|
    ensures Norm(Sub(x, y)) == Distance(x, y)
  {
    if x != [] {
      var m := |x| - 1;
      NormIsDistance(x[..m], y[..m]);
      assert Sub(x, y)[..m] == Sub(x[..m], y[..m]);
    }
  }

  function Rounds(w: Walk, k: nat): (r: seq<seq<real>>)
    requires Shaped(w)
    ensures |r| == k + 1 && forall m :: 0 <= m <= k ==> r[m] == Iterate(w, m)
  {
    seq(k + 1, m requires 0 <= m <= k => Iterate(w, m))
  }

  lemma IteratesAreRounds(w: Walk, k: nat)
    requires Shaped(w)
    ensures AreRounds(Rounds(w, k), w.teleport, w.rows, w.alpha)
  {
    hide Step;
    var rounds, n := Rounds(w, k), |w.teleport|;
    JumpsAlike(n, Uniform(n));
    forall m | 1 <= m <= k ensures IsRound(rounds[m - 1], rounds[m], w.teleport, w.rows, w.alpha) {
      StepIsRound(w, Iterate(w, m - 1));
      hide IsRound;
    }
  }

  lemma StopsEndsAsDue(w: Walk, tol: real, k: nat)
    requires Shaped(w) && Stops(w, tol, k)
    ensures EndsAsDue(Rounds(w, k), tol)
  {
    hide Iterate, Norm, Distance;
    var rounds := Rounds(w, k);
    forall m | 1 <= m <= k ensures Distance(rounds[m], rounds[m - 1]) == Diff(w, m) {
      NormIsDistance(Iterate(w, m), Iterate(w, m - 1));
    }
  }

  lemma NodesCover(edges: Edges, nodes: set<nat>, list: seq<nat>)
    requires Closed(edges, nodes) && Ascending(list) && forall id :: id in list <==> id in nodes
    ensures Covers(list, edges)
  {
  }

  /** The ranks of a graph solve the surfer's equation for its weights and for what was asked. */
  lemma RanksSolveTheEquation(out: seq<Ranked>, edges: Edges, nodes: set<nat>, alpha: real, tol: real,
                              personalize: Option<map<nat, real>>, k: nat)
    requires out != [] && IsRanking(out, edges, alpha, tol, personalize, k)
    requires Closed(edges, nodes) && PositiveWeights(edges)
    requires Ascending(NodesOf(out)) && forall id :: id in NodesOf(out) <==> id in nodes
    ensures exists list, t, rows, rounds :: Explains(out, edges, alpha, tol, personalize, list, t, rows, rounds)
  {
    hide Sum, Stops, Iterate, Ascending, PositiveWeights, Closed, Covers, IsJump, AreRounds, EndsAsDue, IsRow, Row;
    var list := NodesOf(out);
    var w := WalkOf(edges, list, alpha, personalize);
    var rounds := Rounds(w, k);
    NodesCover(edges, nodes, list);
    TeleportIsAsAsked(list, personalize);
    forall i | 0 <= i < |list| ensures IsRow(w.rows[i], edges, list, list[i], w.teleport) {
      RowIsProportional(edges, list, w.teleport, i);
    }
    IteratesAreRounds(w, k);
    StopsEndsAsDue(w, tol, k);
    assert rounds[k] == RanksOf(out);
    assert Explains(out, edges, alpha, tol, personalize, list, w.teleport, w.rows, rounds);
  }

  /** The nodes asked for keep at least what the jump brings them. */
  lemma AskedNodesHaveAFloor(out: seq<Ranked>, edges: Edges, nodes: set<nat>, alpha: real, tol: real,
                             personalize: Option<map<nat, real>>, k: nat, i: nat)
    requires out != [] && IsRanking(out, edges, alpha, tol, personalize, k)
    requires Closed(edges, nodes) && PositiveWeights(edges) && Sensible(alpha, personalize)
    requires Ascending(NodesOf(out)) && (forall id :: id in NodesOf(out) <==> id in nodes) && i < |out|
    ensures var all := AskedInAll(personalize, NodesOf(out));
            all > 0.0 ==> out[i].rank * all >= (1.0 - alpha) * Asked(personalize, out[i].node)
  {
    hide Sum, Norm, Iterate, Ascending, PositiveWeights, Closed, Covers, Teleport, SurferRows, AskedInAll, NonNegative;
    var list := NodesOf(out);
    var w := WalkOf(edges, list, alpha, personalize);
    NodesCover(edges, nodes, list);
    TeleportIsAsAsked(list, personalize);
    RanksAreAccurate(edges, list, alpha, tol, personalize, k, []);
    var all, rank, t := AskedInAll(personalize, list), out[i].rank, w.teleport[i];
    assert rank == RanksOf(out)[i] >= (1.0 - alpha) * t;
    if all > 0.0 {
      Monotone(all, (1.0 - alpha) * t, rank);
      Regroup3(all, 1.0 - alpha, t);
    }
  }

  lemma Regroup3(a: real, b: real, c: real)
    ensures a * (b * c) == b * (c * a)
  {
  }
}
