/** All orders of a list, in key order, and the ones a reorder mutation tries. */
module Reordering {
  import opened Wrappers

  const DEFAULT_MAX: nat := 24

  function Factorial(n: nat): nat {
    if n == 0 then 1 else n * Factorial(n - 1)
  }

  // ---- keys and their order

  /** The items joined by commas. */
  function Key(items: seq<string>): string {
    if items == [] then "" else if |items| == 1 then items[0] else items[0] + "," + Key(items[1..])
  }

  predicate Below(a: string, b: string) {
    b != "" && (a == "" || a[0] < b[0] || (a[0] == b[0] && Below(a[1..], b[1..])))
  }

  /** Keys are compared as a dictionary does. */
  lemma {:induction false} BelowIsLexicographic(a: string, b: string)
    ensures Below(a, b) <==> a < b || exists i :: FirstDifference(a, b, i) && a[i] < b[i]
  {
    if a == "" {
    } else if b == "" {
    } else if a[0] == b[0] {
      var x, y := a[1..], b[1..];
      BelowIsLexicographic(x, y);
      assert a == [a[0]] + x && b == [b[0]] + y;
      assert a < b <==> x < y;
      if i :| FirstDifference(x, y, i) && x[i] < y[i] {
        assert a[..i + 1] == [a[0]] + x[..i] && b[..i + 1] == [b[0]] + y[..i];
        assert FirstDifference(a, b, i + 1) && a[i + 1] < b[i + 1];
      }
      if i :| FirstDifference(a, b, i) && a[i] < b[i] {
        assert i > 0 && x[..i - 1] == a[..i][1..] && y[..i - 1] == b[..i][1..];
        assert FirstDifference(x, y, i - 1) && x[i - 1] < y[i - 1];
      }
    } else {
      assert FirstDifference(a, b, 0) by {
        assert a[..0] == b[..0];
      }
      forall i | FirstDifference(a, b, i) ensures i == 0 {
        if i > 0 {
          SameStart(a, b, i);
        }
      }
    }
  }

  lemma SameStart(a: string, b: string, i: nat)
    requires 0 < i <= |a| && i <= |b| && a[..i] == b[..i]
    ensures a[0] == b[0]
  {
    assert a[0] == a[..i][0];
  }

  predicate FirstDifference(a: string, b: string, i: int) {
    0 <= i < |a| && i < |b| && a[..i] == b[..i] && a[i] != b[i]
  }

  /** A key is the items with commas between them. */
  lemma {:induction false} KeyJoins(a: seq<string>, b: seq<string>)
    requires a != [] && b != []
    ensures Key(a + b) == Key(a) + "," + Key(b) && (|a| == 1 ==> Key(a) == a[0])
  {
    if |a| == 1 {
      assert (a + b)[1..] == b;
    } else {
      KeyJoins(a[1..], b);
      assert (a + b)[1..] == a[1..] + b;
      assert a[0] + "," + (Key(a[1..]) + "," + Key(b)) == a[0] + "," + Key(a[1..]) + "," + Key(b);
    }
  }

  lemma {:induction false} BelowIsOrder(a: string, b: string, c: string)
    ensures !(Below(a, b) && Below(b, a))
    ensures !Below(b, a) && !Below(c, b) ==> !Below(c, a)
  {
    if a != "" && b != "" {
      BelowIsOrder(a[1..], b[1..], if c == "" then "" else c[1..]);
    }
  }

  ghost predicate InKeyOrder(list: seq<seq<string>>) {
    forall i, j :: 0 <= i < j < |list| ==> NotAfter(list[i], list[j])
  }

  predicate NotAfter(a: seq<string>, b: seq<string>) {
    !Below(Key(b), Key(a))
  }

  lemma InsertKeepsOrder(list: seq<seq<string>>, k: nat, p: seq<string>)
    requires InKeyOrder(list) && k <= |list|
    requires forall j :: 0 <= j < k ==> NotAfter(list[j], p)
    requires k < |list| ==> Below(Key(p), Key(list[k]))
    ensures InKeyOrder(list[..k] + [p] + list[k..])
  {
    hide NotAfter;
    RestNotBefore(list, k, p);
    var r := list[..k] + [p] + list[k..];
    forall i, j | 0 <= i < j < |r| ensures NotAfter(r[i], r[j]) {
      assert r[i] == if i < k then list[i] else if i == k then p else list[i - 1];
      assert r[j] == if j < k then list[j] else if j == k then p else list[j - 1];
    }
  }

  lemma InsertAddsOne(list: seq<seq<string>>, k: nat, p: seq<string>)
    requires k <= |list|
    ensures multiset(list[..k] + [p] + list[k..]) == multiset(list) + multiset{p}
  {
    assert list == list[..k] + list[k..];
  }

  lemma RestNotBefore(list: seq<seq<string>>, k: nat, p: seq<string>)
    requires InKeyOrder(list) && k <= |list| && (k < |list| ==> Below(Key(p), Key(list[k])))
    ensures forall j :: k <= j < |list| ==> NotAfter(p, list[j])
  {
    hide Below, Key;
    forall j | k <= j < |list| ensures NotAfter(p, list[j]) {
      if k < j {
        assert NotAfter(list[k], list[j]);
      }
      BelowIsOrder(Key(p), Key(list[k]), Key(list[j]));
    }
  }

  /** Sorted by key; the order of lists with one key is anybody's. */
  method SortByKey(list: seq<seq<string>>) returns (r: seq<seq<string>>)
    ensures InKeyOrder(r) && multiset(r) == multiset(list)
  {
    hide Below, Key, InKeyOrder;
    r := [];
    NothingOutOfOrder();
    var i := 0;
    while i < |list|
      invariant 0 <= i <= |list| && InKeyOrder(r) && multiset(r) == multiset(list[..i])
    {
      var p, k := list[i], 0;
      while k < |r| && !Below(Key(p), Key(r[k]))
        invariant 0 <= k <= |r| && forall j :: 0 <= j < k ==> NotAfter(r[j], p)
      {
        k := k + 1;
      }
      InsertKeepsOrder(r, k, p);
      InsertAddsOne(r, k, p);
      r := r[..k] + [p] + r[k..];
      assert list[..i + 1] == list[..i] + [p];
      i := i + 1;
    }
    assert list[..i] == list;
  }

  lemma NothingOutOfOrder()
    ensures InKeyOrder([])
  {
  }

  // ---- permutations

  predicate IsPermutation(p: seq<string>, items: seq<string>) {
    multiset(p) == multiset(items)
  }

  ghost predicate NoRepeats<T(!new)>(list: seq<T>) {
    forall x :: multiset(list)[x] <= 1
  }

  /** A permutation starts with some item and goes on with a permutation of the others. */
  ghost predicate StartsAmong(p: seq<string>, items: seq<string>, i: nat)
    requires i <= |items|
  {
    p != [] && p[0] in items[..i] && multiset(p[1..]) == multiset(items) - multiset{p[0]}
  }

  lemma StartsSomewhere(p: seq<string>, items: seq<string>)
    requires items != []
    ensures IsPermutation(p, items) <==> StartsAmong(p, items, |items|)
  {
    assert items[..|items|] == items;
    assert forall x :: x in items <==> x in multiset(items);
    if IsPermutation(p, items) {
      assert |p| == |multiset(p)| == |items|;
      assert p == [p[0]] + p[1..];
      assert p[0] in multiset(items);
    }
    if StartsAmong(p, items, |items|) {
      assert p == [p[0]] + p[1..];
      assert multiset(items) == multiset(items) - multiset{p[0]} + multiset{p[0]};
    }
  }

  lemma WithoutOne(items: seq<string>, i: nat)
    requires i < |items|
    ensures multiset(items[..i] + items[i + 1..]) == multiset(items) - multiset{items[i]}
    ensures NoRepeats(items) ==> NoRepeats(items[..i] + items[i + 1..]) && items[i] !in items[..i]
  {
    assert items == items[..i] + ([items[i]] + items[i + 1..]);
    var rest := items[..i] + items[i + 1..];
    assert multiset(items) == multiset(rest) + multiset{items[i]};
    if NoRepeats(items) {
      forall x ensures multiset(rest)[x] <= 1 {
        assert multiset(items)[x] <= 1;
      }
      assert multiset(items) == multiset(items[..i]) + multiset{items[i]} + multiset(items[i + 1..]);
      assert multiset(items)[items[i]] <= 1;
      assert items[i] !in multiset(items[..i]);
    }
  }

  /** Every order of the items and nothing else, n! of them, by key; each once when the items differ. */
  ghost predicate AllOrders(r: seq<seq<string>>, items: seq<string>) {
    |r| == Factorial(|items|)
    && (forall p :: p in r <==> IsPermutation(p, items))
    && (NoRepeats(items) ==> NoRepeats(r))
  }

  lemma SameOrders(a: seq<seq<string>>, b: seq<seq<string>>, items: seq<string>)
    requires multiset(a) == multiset(b) && AllOrders(a, items)
    ensures AllOrders(b, items)
  {
    assert forall p :: p in a <==> p in multiset(a);
    assert forall p :: p in b <==> p in multiset(b);
    assert |a| == |multiset(a)| == |multiset(b)| == |b|;
  }

  method Permutations(items: seq<string>) returns (r: seq<seq<string>>)
    ensures AllOrders(r, items) && InKeyOrder(r)
    decreases |items|
  {
    if |items| <= 1 {
      r := [items];
      OnlyOneOrder(items);
      return;
    }
    var n, i := |items|, 0;
    r := [];
    while i < n
      invariant 0 <= i <= n && |r| == i * Factorial(n - 1)
      invariant forall p :: p in r <==> StartsAmong(p, items, i)
      invariant NoRepeats(items) ==> NoRepeats(r)
    {
      WithoutOne(items, i);
      var rest := items[..i] + items[i + 1..];
      var perms := Permutations(rest);
      ghost var before := r;
      r := PutInFront(items[i], perms, r);
      OneMoreStart(before, r, items, i, perms);
      i := i + 1;
    }
    forall p ensures p in r <==> IsPermutation(p, items) {
      StartsSomewhere(p, items);
    }
    ghost var unsorted := r;
    r := SortByKey(r);
    SameOrders(unsorted, r, items);
  }

  lemma OnlyOneOrder(items: seq<string>)
    requires |items| <= 1
    ensures AllOrders([items], items) && InKeyOrder([items])
  {
    assert Factorial(1) == 1 * Factorial(0) == 1;
    forall p ensures p in [items] <==> IsPermutation(p, items) {
      if IsPermutation(p, items) {
        assert |p| == |multiset(p)| == |items|;
        if |items| == 1 {
          assert p == [p[0]] && items == [items[0]];
          assert p[0] in multiset(items);
        }
      }
    }
  }

  method PutInFront(item: string, perms: seq<seq<string>>, result: seq<seq<string>>) returns (r: seq<seq<string>>)
    ensures |r| == |result| + |perms| && r[..|result|] == result
    ensures forall j :: 0 <= j < |perms| ==> r[|result| + j] == [item] + perms[j]
  {
    r := result;
    var j := 0;
    while j < |perms|
      invariant 0 <= j <= |perms| && |r| == |result| + j && r[..|result|] == result
      invariant forall k :: 0 <= k < j ==> r[|result| + k] == [item] + perms[k]
    {
      r := r + [[item] + perms[j]];
      j := j + 1;
    }
  }

  function Fronted(item: string, perms: seq<seq<string>>): (r: seq<seq<string>>)
    ensures |r| == |perms| && forall j :: 0 <= j < |r| ==> r[j] == [item] + perms[j]
  {
    seq(|perms|, j requires 0 <= j < |perms| => [item] + perms[j])
  }

  lemma {:induction false} FrontedNoRepeats(item: string, perms: seq<seq<string>>)
    requires NoRepeats(perms)
    ensures NoRepeats(Fronted(item, perms))
  {
    if perms != [] {
      var m := |perms| - 1;
      assert perms == perms[..m] + [perms[m]];
      assert multiset(perms) == multiset(perms[..m]) + multiset{perms[m]};
      forall x ensures multiset(perms[..m])[x] <= 1 {
        assert multiset(perms)[x] <= 1;
      }
      assert perms[m] !in multiset(perms[..m]) by {
        assert multiset(perms)[perms[m]] <= 1;
      }
      FrontedNoRepeats(item, perms[..m]);
      var f := Fronted(item, perms);
      assert f == Fronted(item, perms[..m]) + [f[m]];
      forall j | 0 <= j < m ensures f[j] != f[m] {
        assert perms[..m][j] in multiset(perms[..m]);
        assert f[j][1..] == perms[j] && f[m][1..] == perms[m];
      }
      assert f[m] !in Fronted(item, perms[..m]);
    }
  }

  lemma NoRepeatsConcat(a: seq<seq<string>>, b: seq<seq<string>>)
    requires NoRepeats(a) && NoRepeats(b) && forall x :: x in a ==> x !in b
    ensures NoRepeats(a + b)
  {
    forall x ensures multiset(a + b)[x] <= 1 {
      assert x in a <==> x in multiset(a);
      assert x in b <==> x in multiset(b);
    }
  }

  lemma OneMoreStart(before: seq<seq<string>>, r: seq<seq<string>>, items: seq<string>, i: nat, perms: seq<seq<string>>)
    requires i < |items| && |before| == i * Factorial(|items| - 1) && |perms| == Factorial(|items| - 1)
    requires r == before + Fronted(items[i], perms)
    requires forall p :: p in before <==> StartsAmong(p, items, i)
    requires forall p :: p in perms <==> multiset(p) == multiset(items) - multiset{items[i]}
    requires NoRepeats(items) ==> NoRepeats(before) && NoRepeats(perms) && items[i] !in items[..i]
    ensures |r| == (i + 1) * Factorial(|items| - 1)
    ensures forall p :: p in r <==> StartsAmong(p, items, i + 1)
    ensures NoRepeats(items) ==> NoRepeats(r)
  {
    hide StartsAmong, NoRepeats;
    var f := Fronted(items[i], perms);
    forall p ensures p in r <==> StartsAmong(p, items, i + 1) {
      InFronted(items[i], perms, p);
      OneMoreFirst(items, i, p);
    }
    assert (i + 1) * Factorial(|items| - 1) == i * Factorial(|items| - 1) + Factorial(|items| - 1);
    if NoRepeats(items) {
      FrontedNoRepeats(items[i], perms);
      forall p | p in before ensures p !in f {
        StartsDiffer(items, i, p);
        InFronted(items[i], perms, p);
      }
      NoRepeatsConcat(before, f);
    }
  }

  lemma OneMoreFirst(items: seq<string>, i: nat, p: seq<string>)
    requires i < |items|
    ensures StartsAmong(p, items, i + 1) <==>
            (StartsAmong(p, items, i)
             || (p != [] && p[0] == items[i] && multiset(p[1..]) == multiset(items) - multiset{items[i]}))
  {
    assert items[..i + 1] == items[..i] + [items[i]];
  }

  lemma StartsDiffer(items: seq<string>, i: nat, p: seq<string>)
    requires i < |items| && items[i] !in items[..i] && StartsAmong(p, items, i)
    ensures p != [] && p[0] != items[i]
  {
  }

  lemma InFronted(item: string, perms: seq<seq<string>>, p: seq<string>)
    ensures p in Fronted(item, perms) <==> p != [] && p[0] == item && p[1..] in perms
  {
    var f := Fronted(item, perms);
    if p in f {
      var j :| 0 <= j < |f| && f[j] == p;
      assert p[1..] == perms[j];
    }
    if p != [] && p[0] == item && p[1..] in perms {
      var j :| 0 <= j < |perms| && perms[j] == p[1..];
      assert p == [item] + perms[j] == f[j];
    }
  }

  // ---- reorder mutations

  predicate CommaFree(items: seq<string>) {
    forall i :: 0 <= i < |items| ==> ',' !in items[i]
  }

  lemma {:induction false} SameFirst(a: string, s: string, b: string, t: string)
    requires ',' !in a && ',' !in b && a + "," + s == b + "," + t
    ensures a == b && s == t
    decreases |a|
  {
    var l, r := a + "," + s, b + "," + t;
    assert l[0] == r[0];
    assert l[0] == if a == "" then ',' else a[0];
    assert r[0] == if b == "" then ',' else b[0];
    assert a != "" ==> a[0] in a;
    assert b != "" ==> b[0] in b;
    if a == "" && b == "" {
      assert s == l[1..] && t == r[1..];
    } else if a != "" && b != "" {
      assert l[1..] == a[1..] + "," + s && r[1..] == b[1..] + "," + t;
      SameFirst(a[1..], s, b[1..], t);
    }
  }

  /** Without commas in the items the key tells the lists apart. */
  lemma {:induction false} KeyIsInjective(p: seq<string>, q: seq<string>)
    requires |p| == |q| && CommaFree(p) && CommaFree(q) && Key(p) == Key(q)
    ensures p == q
  {
    if |p| > 1 {
      SameFirst(p[0], Key(p[1..]), q[0], Key(q[1..]));
      KeyIsInjective(p[1..], q[1..]);
      assert p == [p[0]] + p[1..] && q == [q[0]] + q[1..];
    }
  }

  lemma PermutationsStayCommaFree(p: seq<string>, items: seq<string>)
    requires IsPermutation(p, items) && CommaFree(items)
    ensures CommaFree(p) && |p| == |items|
  {
    assert |p| == |multiset(p)| == |items|;
    forall i | 0 <= i < |p| ensures ',' !in p[i] {
      assert p[i] in multiset(p);
      assert p[i] in items;
    }
  }

  function First(all: seq<seq<string>>, limit: nat): (r: seq<seq<string>>)
    ensures r <= all && |r| == if |all| > limit then limit else |all|
  {
    if |all| > limit then all[..limit] else all
  }

  /** Those with another key, in their order. */
  function Others(list: seq<seq<string>>, key: string): seq<seq<string>> {
    if list == [] then []
    else
      var m := |list| - 1;
      Others(list[..m], key) + if Key(list[m]) == key then [] else [list[m]]
  }

  function Sharing(list: seq<seq<string>>, key: string): nat {
    if list == [] then 0
    else
      var m := |list| - 1;
      Sharing(list[..m], key) + if Key(list[m]) == key then 1 else 0
  }

  /** From all orders of the items by key: the first ones, without those that share the original's key. */
  ghost predicate TriesFrom(result: seq<seq<string>>, all: seq<seq<string>>, items: seq<string>, limit: nat) {
    AllOrders(all, items) && InKeyOrder(all) && result == Others(First(all, limit), Key(items))
  }

  ghost predicate Tries(result: seq<seq<string>>, items: seq<string>, limit: nat) {
    exists all :: TriesFrom(result, all, items, limit)
  }

  method ExpandReorder(items: seq<string>, maxPermutations: int) returns (r: Result<seq<seq<string>>, string>)
    ensures r.Ok? <==> |items| >= 2
    ensures r.Ok? ==> Tries(r.value, items, if maxPermutations <= 0 then 24 else maxPermutations)
  {
    if |items| < 2 {
      return Err("at least 2 items required for reorder");
    }
    var maxPerm := if maxPermutations <= 0 then DEFAULT_MAX else maxPermutations;
    var all := Permutations(items);
    var perms := all;
    if |perms| > maxPerm {
      perms := perms[..maxPerm];
    }
    var result := SkipOriginal(perms, items);
    assert TriesFrom(result, all, items, maxPerm);
    return Ok(result);
  }

  method SkipOriginal(perms: seq<seq<string>>, items: seq<string>) returns (result: seq<seq<string>>)
    ensures result == Others(perms, Key(items))
  {
    hide Key;
    result := [];
    var i := 0;
    while i < |perms|
      invariant 0 <= i <= |perms| && result == Others(perms[..i], Key(items))
    {
      assert perms[..i + 1][..i] == perms[..i];
      if Key(perms[i]) != Key(items) {
        result := result + [perms[i]];
      }
      i := i + 1;
    }
    assert perms[..i] == perms;
  }

  // ---- what is tried

  lemma {:induction false} OthersAre(list: seq<seq<string>>, key: string)
    ensures forall p :: p in Others(list, key) <==> p in list && Key(p) != key
    ensures |Others(list, key)| + Sharing(list, key) == |list|
  {
    hide Key;
    if list != [] {
      var m := |list| - 1;
      OthersAre(list[..m], key);
      assert list == list[..m] + [list[m]];
    }
  }

  lemma {:induction false} OthersHaveNoMore(list: seq<seq<string>>, key: string)
    ensures multiset(Others(list, key)) <= multiset(list)
  {
    hide Key;
    if list != [] {
      var m := |list| - 1;
      OthersHaveNoMore(list[..m], key);
      assert list == list[..m] + [list[m]];
      assert multiset(list) == multiset(list[..m]) + multiset{list[m]};
    }
  }

  lemma {:induction false} OthersKeepOrder(list: seq<seq<string>>, key: string)
    requires InKeyOrder(list)
    ensures InKeyOrder(Others(list, key))
  {
    hide Key, NotAfter;
    if list != [] {
      var m := |list| - 1;
      var front := list[..m];
      OthersKeepOrder(front, key);
      OthersAre(front, key);
      forall p | p in Others(front, key) ensures NotAfter(p, list[m]) {
        var j :| 0 <= j < m && front[j] == p;
        assert NotAfter(list[j], list[m]);
      }
    }
  }

  /**
   * Orders of the items by another key than the original's, in key order, as many as the first ones that do not share
   * that key; none left out comes before one tried; each once when the items differ.
   */
  lemma TriesAreTheFirst(result: seq<seq<string>>, all: seq<seq<string>>, items: seq<string>, limit: nat)
    requires TriesFrom(result, all, items, limit)
    ensures |result| + Sharing(First(all, limit), Key(items)) == Least(limit, Factorial(|items|))
    ensures InKeyOrder(result) && (NoRepeats(items) ==> NoRepeats(result))
    ensures forall p :: p in result ==> IsPermutation(p, items) && Key(p) != Key(items)
    ensures forall p, q :: p in result && IsPermutation(q, items) && q !in result && Key(q) != Key(items) ==>
              NotAfter(p, q)
  {
    hide Key, NotAfter, IsPermutation;
    var perms, key := First(all, limit), Key(items);
    OthersAre(perms, key);
    OthersKeepOrder(perms, key);
    OthersHaveNoMore(perms, key);
    FirstHasNoMore(all, limit);
    forall p | p in result ensures IsPermutation(p, items) {
      assert p in all;
    }
    forall p, q | p in result && IsPermutation(q, items) && q !in result && Key(q) != key ensures NotAfter(p, q) {
      var i :| 0 <= i < |perms| && perms[i] == p;
      assert q in all;
      var j :| 0 <= j < |all| && all[j] == q;
      forall m | 0 <= m < |perms| ensures perms[m] != q {
        assert perms[m] in perms;
      }
      assert all[i] == p;
    }
  }

  function Least(a: nat, b: nat): nat {
    if a < b then a else b
  }

  lemma FirstHasNoMore(all: seq<seq<string>>, limit: nat)
    ensures multiset(First(all, limit)) <= multiset(all)
  {
    var perms := First(all, limit);
    assert all == perms + all[|perms|..];
  }

  /** With room for all, every other order is tried exactly when no other order has the original's key. */
  lemma AllOthersAreTriedExactlyWhen(result: seq<seq<string>>, items: seq<string>, limit: nat)
    requires Tries(result, items, limit) && Factorial(|items|) <= limit
    ensures (forall q :: IsPermutation(q, items) && q != items ==> q in result)
            <==> (forall q :: IsPermutation(q, items) && q != items ==> Key(q) != Key(items))
  {
    hide Key, IsPermutation;
    var all :| TriesFrom(result, all, items, limit);
    OthersAre(all, Key(items));
  }

  ghost predicate TriesAllOthers(result: seq<seq<string>>, items: seq<string>) {
    forall q :: IsPermutation(q, items) && q != items ==> q in result
  }

  ghost predicate KeyIsOwn(items: seq<string>) {
    forall q :: IsPermutation(q, items) && q != items ==> Key(q) != Key(items)
  }

  ghost predicate IsLast(items: seq<string>) {
    forall q :: IsPermutation(q, items) ==> NotAfter(q, items)
  }

  /**
   * For different items and any limit: every other order is tried exactly when none has the original's key and there is
   * room for all orders, or for all but one and the original comes last.
   */
  lemma AllOthersFitExactlyWhen(result: seq<seq<string>>, items: seq<string>, limit: nat)
    requires Tries(result, items, limit) && NoRepeats(items)
    ensures TriesAllOthers(result, items)
            <==> KeyIsOwn(items)
                 && (Factorial(|items|) <= limit || (Factorial(|items|) == limit + 1 && IsLast(items)))
  {
    hide Key, IsPermutation, NotAfter, NoRepeats;
    var all :| TriesFrom(result, all, items, limit);
    OthersAre(First(all, limit), Key(items));
    if Factorial(|items|) > limit {
      if TriesAllOthers(result, items) {
        CutOffIsOriginal(result, all, items, limit);
      }
      if KeyIsOwn(items) && Factorial(|items|) == limit + 1 && IsLast(items) {
        OriginalIsCutOff(result, all, items, limit);
      }
    }
  }

  lemma DistinctPlaces(all: seq<seq<string>>, i: nat, j: nat)
    requires NoRepeats(all) && i < j < |all|
    ensures all[i] != all[j]
  {
    assert all == all[..i] + [all[i]] + all[i + 1..];
    assert all[j] == all[i + 1..][j - i - 1];
    assert multiset(all) == multiset(all[..i]) + multiset{all[i]} + multiset(all[i + 1..]);
    assert all[j] in multiset(all[i + 1..]);
    assert multiset(all)[all[i]] <= 1;
  }

  lemma CutOffIsOriginal(result: seq<seq<string>>, all: seq<seq<string>>, items: seq<string>, limit: nat)
    requires TriesFrom(result, all, items, limit) && NoRepeats(items) && Factorial(|items|) > limit
    requires TriesAllOthers(result, items)
    ensures Factorial(|items|) == limit + 1 && IsLast(items)
  {
    hide Key, IsPermutation, NotAfter, NoRepeats;
    OthersAre(First(all, limit), Key(items));
    forall j | limit <= j < |all| ensures all[j] == items {
      forall i | 0 <= i < limit ensures all[i] != all[j] {
        DistinctPlaces(all, i, j);
      }
      assert all[j] in all;
      assert all[j] !in First(all, limit);
    }
    var m := |all| - 1;
    if limit < m {
      DistinctPlaces(all, limit, m);
    }
    forall q | IsPermutation(q, items) ensures NotAfter(q, items) {
      assert q in all;
      var i :| 0 <= i < |all| && all[i] == q;
      if i == m {
        AfterItself(q);
      }
    }
  }

  lemma AfterItself(q: seq<string>)
    ensures NotAfter(q, q)
  {
    BelowIsOrder(Key(q), Key(q), "");
  }

  lemma OriginalIsCutOff(result: seq<seq<string>>, all: seq<seq<string>>, items: seq<string>, limit: nat)
    requires TriesFrom(result, all, items, limit) && NoRepeats(items) && Factorial(|items|) == limit + 1
    requires KeyIsOwn(items) && IsLast(items)
    ensures TriesAllOthers(result, items)
  {
    hide Key, IsPermutation, NotAfter, NoRepeats;
    OthersAre(First(all, limit), Key(items));
    var last := all[limit];
    assert last in all;
    Itself(items);
    var j :| 0 <= j < |all| && all[j] == items;
    if j < limit {
      SameKey(items, last);
      DistinctPlaces(all, j, limit);
    }
    forall q | IsPermutation(q, items) && q != items ensures q in result {
      assert q in all;
      var i :| 0 <= i < |all| && all[i] == q;
      assert First(all, limit)[i] == q;
    }
  }

  lemma Itself(items: seq<string>)
    ensures IsPermutation(items, items)
  {
  }

  lemma SameKey(p: seq<string>, q: seq<string>)
    requires NotAfter(p, q) && NotAfter(q, p)
    ensures Key(p) == Key(q)
  {
    BelowIsTotal(Key(p), Key(q));
  }

  lemma {:induction false} BelowIsTotal(a: string, b: string)
    ensures a == b || Below(a, b) || Below(b, a)
  {
    if a != "" && b != "" && a[0] == b[0] {
      BelowIsTotal(a[1..], b[1..]);
      assert a == [a[0]] + a[1..] && b == [b[0]] + b[1..];
    }
  }

  /** As without commas: then the tries are all the other orders and never the original. */
  lemma CommaFreeItemsTryAllOthers(result: seq<seq<string>>, items: seq<string>, limit: nat)
    requires Tries(result, items, limit) && CommaFree(items)
    ensures items !in result && KeyIsOwn(items)
    ensures Factorial(|items|) <= limit ==> forall q :: IsPermutation(q, items) && q != items ==> q in result
  {
    forall q | IsPermutation(q, items) && q != items ensures Key(q) != Key(items) {
      PermutationsStayCommaFree(q, items);
      if Key(q) == Key(items) {
        KeyIsInjective(q, items);
      }
    }
    var all :| TriesFrom(result, all, items, limit);
    OthersAre(First(all, limit), Key(items));
    if Factorial(|items|) <= limit {
      AllOthersAreTriedExactlyWhen(result, items, limit);
    }
  }

  /** A comma can hide an order: this one differs from the original and is never tried, whatever the limit. */
  lemma CommasHideAnOrder()
    ensures var items, other := ["a", "a,a"], ["a,a", "a"];
            IsPermutation(other, items) && other != items
            && forall result, limit :: Tries(result, items, limit) ==> other !in result
  {
    var items, other := ["a", "a,a"], ["a,a", "a"];
    assert items[1..] == ["a,a"] && other[1..] == ["a"];
    assert "a" != "a,a" by {
      assert |"a"| != |"a,a"|;
    }
    assert Key(items) == Key(other);
    forall result, limit | Tries(result, items, limit) ensures other !in result {
      var all :| TriesFrom(result, all, items, limit);
      OthersAre(First(all, limit), Key(items));
    }
  }

  // ---- the tries are determined

  function Keys(list: seq<seq<string>>): (r: seq<string>)
    ensures |r| == |list| && forall i :: 0 <= i < |r| ==> r[i] == Key(list[i])
  {
    seq(|list|, i requires 0 <= i < |list| => Key(list[i]))
  }

  function Without<T>(list: seq<T>, j: nat): seq<T>
    requires j < |list|
  {
    list[..j] + list[j + 1..]
  }

  lemma WithoutOneOf<T>(list: seq<T>, j: nat)
    requires j < |list|
    ensures multiset(list) == multiset(Without(list, j)) + multiset{list[j]}
  {
    assert list == list[..j] + [list[j]] + list[j + 1..];
  }

  lemma KeysWithout(list: seq<seq<string>>, j: nat)
    requires j < |list|
    ensures Keys(Without(list, j)) == Without(Keys(list), j)
  {
    hide Key;
  }

  lemma {:induction false} KeysOfSame(a: seq<seq<string>>, b: seq<seq<string>>)
    requires multiset(a) == multiset(b)
    ensures multiset(Keys(a)) == multiset(Keys(b))
    decreases |a|
  {
    hide Key, Without;
    assert |a| == |multiset(a)| == |multiset(b)| == |b|;
    if a != [] {
      var m := |a| - 1;
      var x := a[m];
      assert x in multiset(b);
      var j :| 0 <= j < |b| && b[j] == x;
      KeysWithout(a, m);
      KeysWithout(b, j);
      WithoutOneOf(a, m);
      WithoutOneOf(b, j);
      WithoutOneOf(Keys(a), m);
      WithoutOneOf(Keys(b), j);
      assert multiset(Without(a, m)) == multiset(a) - multiset{x} == multiset(Without(b, j));
      assert |multiset(Without(a, m))| == |a| - 1;
      KeysOfSame(Without(a, m), Without(b, j));
    }
  }

  ghost predicate Ascending(keys: seq<string>) {
    forall i, j :: 0 <= i < j < |keys| ==> !Below(keys[j], keys[i])
  }

  lemma {:induction false} SortedIsUnique(a: seq<string>, b: seq<string>)
    requires Ascending(a) && Ascending(b) && multiset(a) == multiset(b)
    ensures a == b
    decreases |a|
  {
    hide Below, Ascending;
    assert |a| == |multiset(a)| == |multiset(b)| == |b|;
    if a != [] {
      var m := |a| - 1;
      LastIsHighest(a, b);
      LastIsHighest(b, a);
      BelowIsTotal(a[m], b[m]);
      WithoutLast(a);
      WithoutLast(b);
      assert multiset(a[..m]) == multiset(a) - multiset{a[m]} == multiset(b[..m]);
      SortedIsUnique(a[..m], b[..m]);
    }
  }

  lemma WithoutLast(a: seq<string>)
    requires a != [] && Ascending(a)
    ensures var m := |a| - 1;
            a == a[..m] + [a[m]] && multiset(a) == multiset(a[..m]) + multiset{a[m]} && Ascending(a[..m])
  {
    var m := |a| - 1;
    assert a == a[..m] + [a[m]];
  }

  lemma LastIsHighest(a: seq<string>, b: seq<string>)
    requires Ascending(b) && multiset(a) == multiset(b) && a != [] && b != []
    ensures !Below(b[|b| - 1], a[|a| - 1])
  {
    var m := |b| - 1;
    var x := a[|a| - 1];
    assert x in multiset(b);
    var i :| 0 <= i < |b| && b[i] == x;
    BelowIsOrder(x, x, x);
  }

  lemma {:induction false} SameMembers(a: seq<seq<string>>, b: seq<seq<string>>)
    requires NoRepeats(a) && NoRepeats(b) && forall p :: p in a <==> p in b
    ensures multiset(a) == multiset(b)
  {
    forall p ensures multiset(a)[p] == multiset(b)[p] {
      assert p in a <==> p in multiset(a);
      assert p in b <==> p in multiset(b);
      assert multiset(a)[p] <= 1 && multiset(b)[p] <= 1;
    }
  }

  lemma KeysAscend(list: seq<seq<string>>)
    requires InKeyOrder(list)
    ensures Ascending(Keys(list))
  {
    hide Key, Below;
    var keys := Keys(list);
    forall i, j | 0 <= i < j < |keys| ensures !Below(keys[j], keys[i]) {
      assert NotAfter(list[i], list[j]);
    }
  }

  lemma {:induction false} OthersByKey(a: seq<seq<string>>, b: seq<seq<string>>, key: string)
    requires Keys(a) == Keys(b)
    ensures Keys(Others(a, key)) == Keys(Others(b, key))
    decreases |a|
  {
    hide Key;
    assert |a| == |Keys(a)| == |b|;
    if a != [] {
      var m := |a| - 1;
      assert Keys(a[..m]) == Keys(a)[..m] == Keys(b)[..m] == Keys(b[..m]);
      OthersByKey(a[..m], b[..m], key);
      assert Key(a[m]) == Keys(a)[m] == Keys(b)[m] == Key(b[m]);
      KeysOneMore(Others(a[..m], key), a[m]);
      KeysOneMore(Others(b[..m], key), b[m]);
      assert Others(a[..m], key) + [] == Others(a[..m], key) && Others(b[..m], key) + [] == Others(b[..m], key);
    }
  }

  lemma KeysOneMore(list: seq<seq<string>>, p: seq<string>)
    ensures Keys(list + [p]) == Keys(list) + [Key(p)]
  {
    hide Key;
  }

  /** For different items the sort's freedom does not show in the keys, nor, without commas, in anything. */
  lemma TheTriesAreDetermined(r: seq<seq<string>>, s: seq<seq<string>>, items: seq<string>, limit: nat)
    requires NoRepeats(items) && Tries(r, items, limit) && Tries(s, items, limit)
    ensures Keys(r) == Keys(s) && (CommaFree(items) ==> r == s)
  {
    hide Key, NoRepeats, InKeyOrder, CommaFree;
    var all :| TriesFrom(r, all, items, limit);
    var other :| TriesFrom(s, other, items, limit);
    SameMembers(all, other);
    KeysOfSame(all, other);
    KeysAscend(all);
    KeysAscend(other);
    SortedIsUnique(Keys(all), Keys(other));
    assert Keys(First(all, limit)) == Keys(First(other, limit)) by {
      assert forall i :: 0 <= i < |all| ==> Key(all[i]) == Keys(all)[i] == Keys(other)[i] == Key(other[i]);
    }
    OthersByKey(First(all, limit), First(other, limit), Key(items));
    if CommaFree(items) {
      OthersAre(First(all, limit), Key(items));
      OthersAre(First(other, limit), Key(items));
      assert |r| == |Keys(r)| == |s|;
      forall i | 0 <= i < |r| ensures r[i] == s[i] {
        assert r[i] in r && s[i] in s && r[i] in all && s[i] in other;
        PermutationsStayCommaFree(r[i], items);
        PermutationsStayCommaFree(s[i], items);
        assert Key(r[i]) == Keys(r)[i] == Keys(s)[i] == Key(s[i]);
        KeyIsInjective(r[i], s[i]);
      }
    }
  }
}
