/** The k best messages in their original order, found with a min-heap of size k. */
module TopK {
  /** A message's position and its score; the message itself only rides along. */
  datatype Scored = Scored(index: nat, score: real)

  predicate Positioned(scored: seq<Scored>) {
    forall i :: 0 <= i < |scored| ==> scored[i].index == i
  }

  predicate Increasing(r: seq<nat>) {
    forall i, j :: 0 <= i < j < |r| ==> r[i] < r[j]
  }

  // ---- heap order

  /** The element at c is not smaller than its parent. */
  predicate Ordered(s: seq<Scored>, c: nat)
    requires 1 <= c < |s|
  {
    s[(c - 1) / 2].score <= s[c].score
  }

  predicate Reaches(s: seq<Scored>, a: nat, c: nat)
    requires a < |s| && c < |s|
  {
    s[a].score <= s[c].score
  }

  /** No element at or below position lo is greater than its children. */
  predicate HeapFrom(s: seq<Scored>, lo: nat) {
    forall c :: 1 <= c < |s| && lo <= (c - 1) / 2 ==> Ordered(s, c)
  }

  lemma {:induction false} RootIsLeast(s: seq<Scored>, j: nat)
    requires HeapFrom(s, 0) && j < |s|
    ensures s[0].score <= s[j].score
    decreases j
  {
    if j > 0 {
      assert Ordered(s, j);
      RootIsLeast(s, (j - 1) / 2);
    }
  }

  /** No child of i is smaller than the element at a. */
  predicate ChildrenReach(s: seq<Scored>, i: nat, a: nat)
    requires a < |s|
  {
    forall c :: 1 <= c < |s| && (c - 1) / 2 == i ==> Reaches(s, a, c)
  }

  /** Heap order from lo on, but for the children of i; and those are not smaller than the parent of i. */
  predicate HeapButFor(s: seq<Scored>, lo: nat, i: nat) {
    (forall c :: 1 <= c < |s| && lo <= (c - 1) / 2 && (c - 1) / 2 != i ==> Ordered(s, c))
    && (1 <= i < |s| && lo <= (i - 1) / 2 ==> ChildrenReach(s, i, (i - 1) / 2))
  }

  function Swapped(s: seq<Scored>, i: nat, j: nat): (r: seq<Scored>)
    requires i < |s| && j < |s|
    ensures |r| == |s| && multiset(r) == multiset(s)
  {
    s[i := s[j]][j := s[i]]
  }

  lemma SinkOnce(s: seq<Scored>, lo: nat, i: nat, j: nat)
    requires lo <= i < j < |s| && (j - 1) / 2 == i && HeapButFor(s, lo, i) && s[j].score < s[i].score
    requires ChildrenReach(s, i, j)
    ensures HeapButFor(Swapped(s, i, j), lo, j)
  {
    var r := Swapped(s, i, j);
    forall c | 1 <= c < |r| && lo <= (c - 1) / 2 && (c - 1) / 2 != j ensures Ordered(r, c) {
      if (c - 1) / 2 == i {
        assert Reaches(s, j, c);
      } else {
        assert Ordered(s, c);
        if c == i {
          assert Reaches(s, (i - 1) / 2, j);
        }
      }
    }
    var a := (j - 1) / 2;
    forall c | 1 <= c < |r| && (c - 1) / 2 == j ensures Reaches(r, a, c) {
      assert Ordered(s, c);
    }
  }

  lemma StartsToSink(s: seq<Scored>, lo: nat)
    requires HeapFrom(s, lo + 1)
    ensures HeapButFor(s, lo, lo)
  {
  }

  /** The element has found its place. */
  lemma Settles(s: seq<Scored>, lo: nat, i: nat)
    requires i < |s| && HeapButFor(s, lo, i) && ChildrenReach(s, i, i)
    ensures HeapFrom(s, lo)
  {
    forall c | 1 <= c < |s| && lo <= (c - 1) / 2 ensures Ordered(s, c) {
      assert (c - 1) / 2 == i ==> Reaches(s, i, c);
    }
  }

  lemma NoChildren(s: seq<Scored>, i: nat)
    requires i < |s| <= 2 * i + 1
    ensures ChildrenReach(s, i, i)
  {
  }

  lemma SmallerChild(s: seq<Scored>, i: nat, j: nat)
    requires 2 * i + 1 < |s| && (j == 2 * i + 1 || j == 2 * i + 2) && j < |s|
    requires s[j].score <= s[2 * i + 1].score
    requires 2 * i + 2 < |s| ==> s[j].score <= s[2 * i + 2].score
    ensures (j - 1) / 2 == i && ChildrenReach(s, i, j)
    ensures s[i].score <= s[j].score ==> ChildrenReach(s, i, i)
  {
    forall c | 1 <= c < |s| && (c - 1) / 2 == i ensures Reaches(s, j, c) {
      assert c == 2 * i + 1 || c == 2 * i + 2;
    }
    if s[i].score <= s[j].score {
      forall c | 1 <= c < |s| && (c - 1) / 2 == i ensures Reaches(s, i, c) {
        assert Reaches(s, j, c);
      }
    }
  }

  /** Sinks the element at i0 until neither child is smaller. */
  method Down(h: array<Scored>, i0: nat)
    requires i0 < h.Length && HeapFrom(h[..], i0 + 1)
    modifies h
    ensures HeapFrom(h[..], i0) && multiset(h[..]) == multiset(old(h[..]))
  {
    hide HeapFrom, HeapButFor, ChildrenReach;
    var i := i0;
    StartsToSink(h[..], i0);
    while true
      invariant i0 <= i < h.Length
      invariant HeapButFor(h[..], i0, i)
      invariant multiset(h[..]) == multiset(old(h[..]))
      decreases h.Length - i
    {
      var j1 := 2 * i + 1;
      if j1 >= h.Length {
        NoChildren(h[..], i);
        break;
      }
      var j := j1;
      if j1 + 1 < h.Length && h[j1 + 1].score < h[j1].score {
        j := j1 + 1;
      }
      SmallerChild(h[..], i, j);
      if !(h[j].score < h[i].score) {
        break;
      }
      SinkOnce(h[..], i0, i, j);
      ghost var swapped := Swapped(h[..], i, j);
      h[i], h[j] := h[j], h[i];
      assert h[..] == swapped;
      i := j;
    }
    Settles(h[..], i0, i);
  }

  method Init(h: array<Scored>)
    modifies h
    ensures HeapFrom(h[..], 0) && multiset(h[..]) == multiset(old(h[..]))
  {
    var i := h.Length / 2;
    while i > 0
      invariant 0 <= i <= h.Length / 2
      invariant HeapFrom(h[..], i) && multiset(h[..]) == multiset(old(h[..]))
    {
      i := i - 1;
      Down(h, i);
    }
  }

  // ---- what the heap holds

  /** The best of the first i messages: each once, and none left out is better than one kept. */
  ghost predicate BestOf(m: multiset<Scored>, scored: seq<Scored>, i: nat)
    requires i <= |scored|
  {
    (forall x :: x in m ==> m[x] == 1 && x.index < i && scored[x.index] == x)
    && (forall p, x :: 0 <= p < i && scored[p] !in m && x in m ==> scored[p].score <= x.score)
  }

  lemma {:induction false} FirstAreBest(scored: seq<Scored>, k: nat)
    requires Positioned(scored) && k <= |scored|
    ensures BestOf(multiset(scored[..k]), scored, k)
  {
    var m := multiset(scored[..k]);
    forall x | x in m ensures m[x] == 1 && x.index < k && scored[x.index] == x {
      OncePerPosition(scored, k, x);
    }
    forall p | 0 <= p < k ensures scored[p] in m {
      assert scored[..k][p] in scored[..k];
    }
  }

  lemma {:induction false} OncePerPosition(scored: seq<Scored>, k: nat, x: Scored)
    requires Positioned(scored) && k <= |scored|
    ensures multiset(scored[..k])[x] == if x.index < k && scored[x.index] == x then 1 else 0
  {
    if k > 0 {
      OncePerPosition(scored, k - 1, x);
      assert scored[..k] == scored[..k - 1] + [scored[k - 1]];
    }
  }

  lemma Skip(m: multiset<Scored>, scored: seq<Scored>, i: nat, least: Scored)
    requires Positioned(scored) && i < |scored| && BestOf(m, scored, i)
    requires forall x :: x in m ==> least.score <= x.score
    requires scored[i].score <= least.score
    ensures BestOf(m, scored, i + 1)
  {
  }

  lemma Replace(m: multiset<Scored>, scored: seq<Scored>, i: nat, least: Scored)
    requires Positioned(scored) && i < |scored| && BestOf(m, scored, i) && least in m
    requires forall x :: x in m ==> least.score <= x.score
    requires scored[i].score > least.score
    ensures BestOf(m - multiset{least} + multiset{scored[i]}, scored, i + 1)
  {
    var n := m - multiset{least} + multiset{scored[i]};
    assert scored[i] !in m;
    forall p, x | 0 <= p < i + 1 && scored[p] !in n && x in n ensures scored[p].score <= x.score {
      if scored[p] in m {
        assert scored[p] == least;
      }
    }
  }

  // ---- counting

  function Indices(s: seq<Scored>): (r: set<nat>) {
    set x | x in s :: x.index
  }

  lemma {:induction false} EachOnce(s: seq<Scored>)
    requires forall i, j :: 0 <= i < j < |s| ==> s[i].index != s[j].index
    ensures |Indices(s)| == |s|
  {
    if s == [] {
      assert Indices(s) == {};
    } else {
      var m := |s| - 1;
      EachOnce(s[..m]);
      assert s == s[..m] + [s[m]];
      assert Indices(s) == Indices(s[..m]) + {s[m].index};
    }
  }

  lemma TwiceInMultiset(s: seq<Scored>, i: nat, j: nat)
    requires i < j < |s| && s[i] == s[j]
    ensures multiset(s)[s[i]] >= 2
  {
    assert s == s[..j] + s[j..];
    assert s[i] in s[..j] && s[j] in s[j..];
  }

  function Members(r: seq<nat>): set<nat> {
    set x | x in r
  }

  lemma {:induction false} IncreasingCount(r: seq<nat>)
    requires Increasing(r)
    ensures |Members(r)| == |r|
  {
    if r == [] {
      assert Members(r) == {};
    } else {
      var m := |r| - 1;
      IncreasingCount(r[..m]);
      assert r == r[..m] + [r[m]];
      assert Members(r) == Members(r[..m]) + {r[m]};
      assert r[m] !in r[..m];
    }
  }

  // ---- the selection

  /** k strictly increasing positions, none of which is beaten by a position left out. */
  ghost predicate Selects(scored: seq<Scored>, r: seq<nat>, k: nat) {
    |r| == k && Increasing(r) && (forall i :: 0 <= i < |r| ==> r[i] < |scored|)
    && forall i, p :: 0 <= i < |r| && 0 <= p < |scored| && p !in r ==> scored[p].score <= scored[r[i]].score
  }

  method Best(scored: seq<Scored>, k: nat) returns (r: seq<nat>)
    requires Positioned(scored) && (k >= 1 || k >= |scored|)
    ensures k >= |scored| ==> r == seq(|scored|, i requires 0 <= i => i)
    ensures Selects(scored, r, if k < |scored| then k else |scored|)
  {
    if k >= |scored| {
      var indices := new nat[|scored|];
      var i := 0;
      while i < |scored|
        invariant 0 <= i <= |scored| && forall j :: 0 <= j < i ==> indices[j] == j
      {
        indices[i] := i;
        i := i + 1;
      }
      r := indices[..];
      forall p | 0 <= p < |scored| ensures p in r {
        assert r[p] == p;
      }
      return;
    }
    var h := Scan(scored, k);
    r := Collect(scored, h);
  }

  method Scan(scored: seq<Scored>, k: nat) returns (h: array<Scored>)
    requires Positioned(scored) && 1 <= k < |scored|
    ensures fresh(h) && h.Length == k && BestOf(multiset(h[..]), scored, |scored|)
  {
    hide BestOf;
    h := new Scored[k](i requires 0 <= i < k => scored[i]);
    assert h[..] == scored[..k];
    FirstAreBest(scored, k);
    Init(h);
    var i := k;
    while i < |scored|
      invariant k <= i <= |scored|
      invariant HeapFrom(h[..], 0) && BestOf(multiset(h[..]), scored, i)
    {
      ghost var s := h[..];
      if scored[i].score > h[0].score {
        Replaced(s, scored, i);
        h[0] := scored[i];
        assert h[..] == s[0 := scored[i]];
        Down(h, 0);
      } else {
        Skipped(s, scored, i);
      }
      i := i + 1;
    }
  }

  lemma RootIsLeastOfAll(s: seq<Scored>)
    requires s != [] && HeapFrom(s, 0)
    ensures forall x :: x in multiset(s) ==> s[0].score <= x.score
    ensures s[0] in multiset(s)
  {
    forall x | x in multiset(s) ensures s[0].score <= x.score {
      assert x in s;
      var j :| 0 <= j < |s| && s[j] == x;
      RootIsLeast(s, j);
    }
  }

  lemma Skipped(s: seq<Scored>, scored: seq<Scored>, i: nat)
    requires s != [] && HeapFrom(s, 0) && Positioned(scored) && i < |scored| && BestOf(multiset(s), scored, i)
    requires scored[i].score <= s[0].score
    ensures BestOf(multiset(s), scored, i + 1)
  {
    RootIsLeastOfAll(s);
    Skip(multiset(s), scored, i, s[0]);
  }

  /** A better message takes the root's place; only the root may then be out of order. */
  lemma Replaced(s: seq<Scored>, scored: seq<Scored>, i: nat)
    requires s != [] && HeapFrom(s, 0) && Positioned(scored) && i < |scored| && BestOf(multiset(s), scored, i)
    requires scored[i].score > s[0].score
    ensures BestOf(multiset(s[0 := scored[i]]), scored, i + 1)
    ensures HeapFrom(s[0 := scored[i]], 1)
  {
    RootIsLeastOfAll(s);
    Replace(multiset(s), scored, i, s[0]);
    assert multiset(s[0 := scored[i]]) == multiset(s) - multiset{s[0]} + multiset{scored[i]};
    var r := s[0 := scored[i]];
    forall c | 1 <= c < |r| && 1 <= (c - 1) / 2 ensures Ordered(r, c) {
      assert Ordered(s, c);
    }
  }

  /** Marks the positions the heap holds, then reads the marks off in order. */
  method Collect(scored: seq<Scored>, h: array<Scored>) returns (r: seq<nat>)
    requires Positioned(scored) && BestOf(multiset(h[..]), scored, |scored|)
    ensures Selects(scored, r, h.Length)
  {
    hide BestOf, Positioned;
    PositionsExist(h[..], scored);
    var selected := Mark(h, |scored|);
    r := [];
    var i := 0;
    while i < |scored|
      invariant 0 <= i <= |scored|
      invariant Increasing(r) && forall p :: p in r <==> p < i && p in Indices(h[..])
    {
      if selected[i] {
        assert forall j :: 0 <= j < |r| ==> r[j] in r;
        r := r + [i];
      }
      i := i + 1;
    }
    IsSelection(scored, h[..], r);
  }

  lemma PositionsExist(s: seq<Scored>, scored: seq<Scored>)
    requires BestOf(multiset(s), scored, |scored|)
    ensures forall x :: x in s ==> x.index < |scored|
  {
    assert forall x :: x in s <==> x in multiset(s);
  }

  method Mark(h: array<Scored>, n: nat) returns (selected: array<bool>)
    requires forall x :: x in h[..] ==> x.index < n
    ensures fresh(selected) && selected.Length == n
    ensures forall p :: 0 <= p < n ==> (selected[p] <==> p in Indices(h[..]))
  {
    selected := new bool[n](_ => false);
    ghost var s := h[..];
    var i := 0;
    while i < h.Length
      invariant 0 <= i <= h.Length && h[..] == s
      invariant forall p :: 0 <= p < n ==> (selected[p] <==> p in Indices(s[..i]))
    {
      assert s[..i + 1] == s[..i] + [s[i]];
      assert s[i] in s;
      assert Indices(s[..i + 1]) == Indices(s[..i]) + {s[i].index};
      selected[h[i].index] := true;
      i := i + 1;
    }
    assert s[..i] == s;
  }

  lemma IsSelection(scored: seq<Scored>, s: seq<Scored>, r: seq<nat>)
    requires Positioned(scored) && BestOf(multiset(s), scored, |scored|)
    requires Increasing(r) && forall p :: p in r <==> p < |scored| && p in Indices(s)
    ensures Selects(scored, r, |s|)
  {
    assert forall x :: x in s <==> x in multiset(s);
    forall i, j | 0 <= i < j < |s| ensures s[i].index != s[j].index {
      if s[i] == s[j] {
        TwiceInMultiset(s, i, j);
      }
      assert s[i] in s && s[j] in s;
    }
    EachOnce(s);
    IncreasingCount(r);
    assert Members(r) == Indices(s);
    assert forall x :: x in s ==> x.index in Indices(s);
    forall p | 0 <= p < |scored| && p !in r ensures scored[p] !in multiset(s) {
      assert scored[p].index !in Indices(s);
    }
    forall i | 0 <= i < |r| ensures r[i] < |scored| && scored[r[i]] in multiset(s) {
      assert r[i] in r;
    }
  }
}
