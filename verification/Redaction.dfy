/** How credentials are taken out of text: the string half of the redactor. */
module Redaction {
  const MARKER := "[redacted]"
  const MARKED := "redacted"

  predicate Contains(s: string, v: string) {
    exists i :: 0 <= i <= |s| - |v| && OccursAt(s, v, i)
  }

  predicate OccursAt(s: string, v: string, i: int)
    requires 0 <= i <= |s| - |v|
  {
    s[i..i + |v|] == v
  }

  predicate BracketFree(v: string) {
    '[' !in v && ']' !in v
  }

  /** Laid over the marker with its first character at position k, the value agrees with it wherever both have one. */
  predicate Agrees(v: string, k: int) {
    forall n :: 0 <= n < |v| && 0 <= k + n < |MARKER| ==> v[n] == MARKER[k + n]
  }

  /** The value can lie over part of the marker, over all of it, or inside it. */
  predicate Touches(v: string) {
    exists k :: -|v| < k < |MARKER| && Agrees(v, k)
  }

  /** strings.ReplaceAll: non-overlapping occurrences from the left. */
  function ReplaceAll(s: string, v: string): string
    requires v != ""
    decreases |s|
  {
    if |s| < |v| then s
    else if v <= s then MARKER + ReplaceAll(s[|v|..], v)
    else [s[0]] + ReplaceAll(s[1..], v)
  }

  /** The values are replaced one after the other. */
  function ReplaceEach(s: string, vals: seq<string>): string
    requires "" !in vals
    decreases |vals|
  {
    if vals == [] then s else ReplaceEach(ReplaceAll(s, vals[0]), vals[1..])
  }

  predicate LongestFirst(vals: seq<string>) {
    forall i, j :: 0 <= i < j < |vals| ==> |vals[i]| >= |vals[j]|
  }

  // ---- occurrences

  lemma ContainsAt(s: string, v: string, i: int)
    requires 0 <= i <= |s| - |v| && s[i..i + |v|] == v
    ensures Contains(s, v)
  {
    assert OccursAt(s, v, i);
  }

  lemma ContainsLater(s: string, v: string, n: nat)
    requires n <= |s| && Contains(s[n..], v)
    ensures Contains(s, v)
  {
    var i :| 0 <= i <= |s[n..]| - |v| && OccursAt(s[n..], v, i);
    var k := n + i;
    forall m | 0 <= m < |v| ensures s[k..k + |v|][m] == v[m] {
      assert v[m] == s[n..][i..i + |v|][m] == s[n..][i + m];
    }
    assert s[k..k + |v|] == v;
    ContainsAt(s, v, k);
  }

  lemma ContainsChains(a: string, b: string, c: string)
    requires Contains(a, b) && Contains(b, c)
    ensures Contains(a, c)
  {
    var i :| 0 <= i <= |a| - |b| && OccursAt(a, b, i);
    var j :| 0 <= j <= |b| - |c| && OccursAt(b, c, j);
    var k := i + j;
    assert forall n :: 0 <= n < |c| ==> c[n] == b[j..j + |c|][n] == b[j + n] == a[i..i + |b|][j + n] == a[k + n];
    assert a[k..k + |c|] == c;
    ContainsAt(a, c, k);
  }

  // ---- what touches the marker

  /** An occurrence of v in text around a marker that overlaps it. */
  lemma OverlapTouches(a: string, b: string, v: string, i: nat)
    requires i <= |a + MARKER + b| - |v| && OccursAt(a + MARKER + b, v, i)
    requires i < |a| + |MARKER| && |a| < i + |v|
    ensures Touches(v)
  {
    var s, k := a + MARKER + b, i - |a|;
    forall n | 0 <= n < |v| && 0 <= k + n < |MARKER| ensures v[n] == MARKER[k + n] {
      assert v[n] == s[i..i + |v|][n] == s[|a| + (k + n)];
    }
    assert Agrees(v, k);
  }

  /** A value without brackets touches the marker exactly when the marker's word holds it. */
  lemma WordsTouchInside(v: string)
    requires v != "" && BracketFree(v)
    ensures Touches(v) <==> Contains(MARKED, v)
    ensures Touches(v) <==> Contains(MARKER, v)
  {
    assert MARKER == "[" + MARKED + "]";
    if Contains(MARKER, v) {
      var i :| 0 <= i <= |MARKER| - |v| && OccursAt(MARKER, v, i);
      assert "" + MARKER + "" == MARKER;
      OverlapTouches("", "", v, i);
    }
    if Contains(MARKED, v) {
      ContainsInPrefix(MARKED, "]", v);
      assert MARKER[1..] == MARKED + "]";
      ContainsLater(MARKER, v, 1);
    }
    if Touches(v) {
      var k :| -|v| < k < |MARKER| && Agrees(v, k);
      InsideTheBrackets(v, k);
      var j := k - 1;
      forall n | 0 <= n < |v| ensures MARKED[j..j + |v|][n] == v[n] {
        assert v[n] == MARKER[k + n] == MARKED[j + n];
      }
      assert MARKED[j..j + |v|] == v;
      ContainsAt(MARKED, v, j);
    }
  }

  lemma InsideTheBrackets(v: string, k: int)
    requires v != "" && BracketFree(v) && -|v| < k < |MARKER| && Agrees(v, k)
    ensures 1 <= k && k + |v| <= |MARKER| - 1
  {
    var first, last := -k, |MARKER| - 1 - k;
    if 0 <= first < |v| {
      AgreesAt(v, k, first);
    }
    if 0 <= last < |v| {
      AgreesAt(v, k, last);
    }
  }

  lemma AgreesAt(v: string, k: int, n: nat)
    requires Agrees(v, k) && n < |v| && 0 <= k + n < |MARKER|
    ensures MARKER[k + n] == v[n] && v[n] in v
  {
  }

  lemma ContainsInPrefix(a: string, b: string, v: string)
    requires Contains(a, v)
    ensures Contains(a + b, v)
  {
    var i :| 0 <= i <= |a| - |v| && OccursAt(a, v, i);
    forall n | 0 <= n < |v| ensures (a + b)[i..i + |v|][n] == v[n] {
      assert v[n] == a[i..i + |v|][n] == a[i + n];
    }
    assert (a + b)[i..i + |v|] == v;
    ContainsAt(a + b, v, i);
  }

  // ---- one replacement

  /** The end of a value that does not touch the marker, found in front of the result, was in front of the text. */
  lemma {:induction false} PrefixWasThere(s: string, v: string, u: string, n: nat)
    requires v != "" && !Touches(u) && n <= |u| && u[n..] <= ReplaceAll(s, v)
    ensures u[n..] <= s
    decreases |s|
  {
    if n < |u| && |s| >= |v| {
      if v <= s {
        StartsWithMarker(s, v, u, n);
      } else {
        assert u[n..][0] == u[n] && u[n..][1..] == u[n + 1..];
        assert ReplaceAll(s, v)[0] == s[0] && ReplaceAll(s, v)[1..] == ReplaceAll(s[1..], v);
        PrefixWasThere(s[1..], v, u, n + 1);
        assert s == [s[0]] + s[1..] && u[n..] == [u[n]] + u[n + 1..];
      }
    }
  }

  lemma StartsWithMarker(s: string, v: string, u: string, n: nat)
    requires v != "" && v <= s && n < |u| && u[n..] <= ReplaceAll(s, v)
    ensures Touches(u)
  {
    var k, rest := 0 - n, ReplaceAll(s[|v|..], v);
    forall m | 0 <= m < |u| && 0 <= k + m < |MARKER| ensures u[m] == MARKER[k + m] {
      assert u[m] == u[n..][k + m] == (MARKER + rest)[k + m];
    }
    assert Agrees(u, k);
  }

  lemma OccursInTail(a: string, b: string, u: string, i: nat)
    requires |a| <= i <= |a + b| - |u| && OccursAt(a + b, u, i)
    ensures Contains(b, u)
  {
    var k := i - |a|;
    forall n | 0 <= n < |u| ensures b[k..k + |u|][n] == u[n] {
      assert u[n] == (a + b)[i..i + |u|][n] == (a + b)[i + n] == b[k + n];
    }
    assert b[k..k + |u|] == u;
    ContainsAt(b, u, k);
  }

  /** An occurrence in MARKER + rest lies in rest, unless it touches the marker. */
  lemma PastTheMarker(rest: string, u: string)
    requires u != "" && !Touches(u) && Contains(MARKER + rest, u)
    ensures Contains(rest, u)
  {
    var i :| 0 <= i <= |MARKER + rest| - |u| && OccursAt(MARKER + rest, u, i);
    if i >= |MARKER| {
      OccursInTail(MARKER, rest, u, i);
    } else {
      assert "" + MARKER + rest == MARKER + rest;
      OverlapTouches("", rest, u, i);
    }
  }

  lemma AtTheFrontOrLater(c: char, rest: string, u: string)
    requires Contains([c] + rest, u)
    ensures u <= [c] + rest || Contains(rest, u)
  {
    var i :| 0 <= i <= |[c] + rest| - |u| && OccursAt([c] + rest, u, i);
    if i >= 1 {
      OccursInTail([c], rest, u, i);
    }
  }

  /** Replacing v creates no occurrence of any other value and leaves none of v. */
  lemma {:induction false} ReplaceCreatesNone(s: string, v: string, u: string)
    requires v != "" && u != "" && !Touches(u)
    requires Contains(ReplaceAll(s, v), u)
    ensures Contains(s, u) && u != v
    decreases |s|
  {
    if |s| < |v| {
    } else if v <= s {
      PastTheMarker(ReplaceAll(s[|v|..], v), u);
      ReplaceCreatesNone(s[|v|..], v, u);
      ContainsLater(s, u, |v|);
    } else {
      AtTheFrontOrLater(s[0], ReplaceAll(s[1..], v), u);
      if Contains(ReplaceAll(s[1..], v), u) {
        ReplaceCreatesNone(s[1..], v, u);
        ContainsLater(s, u, 1);
      } else {
        assert u[0..] == u;
        PrefixWasThere(s, v, u, 0);
        ContainsAt(s, u, 0);
      }
    }
  }

  lemma {:induction false} ReplaceMarks(s: string, v: string)
    requires v != ""
    ensures if Contains(s, v) then Contains(ReplaceAll(s, v), MARKER) else ReplaceAll(s, v) == s
    decreases |s|
  {
    if |s| >= |v| {
      if v <= s {
        ContainsAt(s, v, 0);
        ContainsAt(ReplaceAll(s, v), MARKER, 0);
      } else {
        ReplaceMarks(s[1..], v);
        assert Contains(s, v) <==> Contains(s[1..], v) by {
          if Contains(s, v) {
            var i :| 0 <= i <= |s| - |v| && OccursAt(s, v, i);
            assert i > 0;
            assert s[1..][i - 1..i - 1 + |v|] == s[i..i + |v|];
            ContainsAt(s[1..], v, i - 1);
          }
          if Contains(s[1..], v) {
            ContainsLater(s, v, 1);
          }
        }
        assert ReplaceAll(s, v)[1..] == ReplaceAll(s[1..], v);
        if Contains(s, v) {
          ContainsLater(ReplaceAll(s, v), MARKER, 1);
        }
      }
    }
  }

  // ---- all of them

  lemma {:induction false} EachCreatesNone(s: string, vals: seq<string>, u: string)
    requires "" !in vals && u != "" && !Touches(u)
    requires Contains(ReplaceEach(s, vals), u)
    ensures Contains(s, u) && u !in vals
    decreases |vals|
  {
    if vals != [] {
      EachCreatesNone(ReplaceAll(s, vals[0]), vals[1..], u);
      ReplaceCreatesNone(s, vals[0], u);
      assert vals == [vals[0]] + vals[1..];
    }
  }

  /** A value that sits in the marker survives: each replacement puts it back. */
  lemma {:induction false} MarkedSurvives(s: string, vals: seq<string>, u: string)
    requires "" !in vals && Contains(MARKER, u) && Contains(s, u)
    ensures Contains(ReplaceEach(s, vals), u)
    decreases |vals|
  {
    if vals != [] {
      ReplaceMarks(s, vals[0]);
      if Contains(s, vals[0]) {
        ContainsChains(ReplaceAll(s, vals[0]), MARKER, u);
      }
      MarkedSurvives(ReplaceAll(s, vals[0]), vals[1..], u);
    }
  }

  predicate Leaks(text: string, vals: seq<string>)
    requires "" !in vals
  {
    exists v :: v in vals && Contains(ReplaceEach(text, vals), v)
  }

  /** Redaction with a list of bracket-free values leaks none, whatever the text, exactly when no marker hides one. */
  lemma WordListIsSafeExactlyWhen(vals: seq<string>)
    requires "" !in vals && forall v :: v in vals ==> BracketFree(v)
    ensures (forall text :: !Leaks(text, vals)) <==> (forall v :: v in vals ==> !Contains(MARKED, v))
  {
    forall v | v in vals ensures Touches(v) <==> Contains(MARKED, v) {
      WordsTouchInside(v);
    }
    if forall v :: v in vals ==> !Contains(MARKED, v) {
      forall text ensures !Leaks(text, vals) {
        if Leaks(text, vals) {
          var v :| v in vals && Contains(ReplaceEach(text, vals), v);
          EachCreatesNone(text, vals, v);
        }
      }
    } else {
      var v :| v in vals && Contains(MARKED, v);
      WordsTouchInside(v);
      ContainsAt(v, v, 0);
      MarkedSurvives(v, vals, v);
      assert Leaks(v, vals);
    }
  }

  predicate IsList(vals: seq<string>, v: string) {
    "" !in vals && LongestFirst(vals) && v in vals
  }

  ghost predicate Survives(text: string, vals: seq<string>, v: string) {
    IsList(vals, v) && Contains(ReplaceEach(text, vals), v)
  }

  /** A value is gone from every text, whatever else is redacted with it, exactly when it cannot touch a marker. */
  lemma RedactionIsSafeExactlyWhen(v: string)
    requires v != ""
    ensures (forall text, vals :: !Survives(text, vals, v)) <==> !Touches(v)
  {
    if Touches(v) {
      var text, vals := TouchingLeaks(v);
      assert Survives(text, vals, v);
    } else {
      forall text, vals ensures !Survives(text, vals, v) {
        if Survives(text, vals, v) {
          EachCreatesNone(text, vals, v);
        }
      }
    }
  }

  // ---- how a value that touches the marker leaks

  function Times(c: char, n: nat): (r: string)
    ensures |r| == n && forall k :: 0 <= k < n ==> r[k] == c
  {
    seq(n, _ => c)
  }

  /** What of the value lies before the marker, over it and behind it: the middle is not empty. */
  lemma Pieces(v: string, k: int) returns (p: string, mid: string, q: string)
    requires v != "" && -|v| < k < |MARKER| && Agrees(v, k)
    ensures v == p + mid + q && mid != "" && Contains(p + MARKER + q, v)
  {
    var a := if k < 0 then -k else 0;
    var e := if |MARKER| - k < |v| then |MARKER| - k else |v|;
    p, mid, q := v[..a], v[a..e], v[e..];
    assert v == p + mid + q;
    AroundTheMarker(v, k, a, e);
  }

  lemma AroundTheMarker(v: string, k: int, a: nat, e: nat)
    requires Agrees(v, k) && a <= e <= |v| && 0 <= k + a
    requires (k + a == 0 || a == 0) && (k + e == |MARKER| || (k + e < |MARKER| && e == |v|))
    ensures Contains(v[..a] + MARKER + v[e..], v)
  {
    var i, s := k + a, v[..a] + MARKER + v[e..];
    forall n | 0 <= n < |v| ensures s[i..i + |v|][n] == v[n] {
      assert s[i..i + |v|][n] == s[i + n];
    }
    assert s[i..i + |v|] == v;
    ContainsAt(s, v, i);
  }

  /** A run of one character, between pieces too short to hold it, becomes one marker. */
  lemma {:induction false} RunBecomesMarker(p: string, c: char, n: nat, q: string)
    requires |p| < n && |q| < n && (p != "" ==> p[|p| - 1] != c)
    ensures ReplaceAll(p + Times(c, n) + q, Times(c, n)) == p + MARKER + q
    decreases |p|
  {
    var x := Times(c, n);
    var s := p + x + q;
    hide ReplaceAll;
    if p == "" {
      assert s == x + q && s[n..] == q;
      ReplaceHit(s, x);
      ReplaceShort(q, x);
      assert p + MARKER + q == MARKER + q;
    } else {
      assert s[|p| - 1] == p[|p| - 1] != x[|p| - 1];
      ReplaceMiss(s, x);
      assert s[1..] == p[1..] + x + q && s[0] == p[0];
      RunBecomesMarker(p[1..], c, n, q);
      assert [p[0]] + (p[1..] + MARKER + q) == p + MARKER + q;
    }
  }

  lemma ReplaceShort(s: string, v: string)
    requires v != "" && |s| < |v|
    ensures ReplaceAll(s, v) == s
  {
  }

  /** Around a run of a character that its middle does not begin with, the value does not occur. */
  lemma NotAroundRun(p: string, mid: string, q: string, c: char)
    requires mid != "" && c != mid[0]
    ensures var v := p + mid + q; !Contains(p + Times(c, |v|) + q, v)
  {
    var v := p + mid + q;
    var n := |v|;
    var s := p + Times(c, n) + q;
    forall i | 0 <= i <= |s| - n ensures !OccursAt(s, v, i) {
      assert s[i..i + n][|p|] == s[i + |p|] == c;
      assert v[|p|] == mid[0];
    }
  }

  /** Around a run of its own length the value escapes its turn, and the marker for the run completes it. */
  lemma TouchingLeaks(v: string) returns (text: string, vals: seq<string>)
    requires v != "" && Touches(v)
    ensures IsList(vals, v) && Contains(ReplaceEach(text, vals), v)
  {
    var k :| -|v| < k < |MARKER| && Agrees(v, k);
    var p, mid, q := Pieces(v, k);
    var c := Another(mid[0], if p == "" then mid[0] else p[|p| - 1]);
    var x := Times(c, |v|);
    text, vals := p + x + q, [v, x];
    NotAroundRun(p, mid, q, c);
    ReplaceMarks(text, v);
    RunBecomesMarker(p, c, |v|, q);
    assert vals[1..] == [x] && [x][1..] == [];
    assert ReplaceEach(text, vals) == ReplaceEach(text, [x]) == ReplaceAll(text, x);
  }

  function Another(a: char, b: char): (c: char)
    ensures c != a && c != b
  {
    if a != 'x' && b != 'x' then 'x' else if a != 'y' && b != 'y' then 'y' else 'z'
  }

  /** With brackets the promise fails: a marker may complete a value that already had its turn. */
  lemma BracketsCanLeak()
    ensures LongestFirst(["]c", "ab"]) && Leaks("abc", ["]c", "ab"])
  {
    var vals := ["]c", "ab"];
    assert ReplaceAll("abc", "]c") == "abc" by {
      assert "abc"[1..] == "bc" && "bc"[1..] == "c";
      assert ReplaceAll("c", "]c") == "c";
      assert ReplaceAll("bc", "]c") == "bc";
    }
    assert ReplaceAll("abc", "ab") == MARKER + "c" by {
      assert "abc"[2..] == "c";
    }
    assert vals[1..] == ["ab"];
    assert ReplaceEach("abc", vals) == ReplaceEach("abc", ["ab"]) == MARKER + "c" by {
      assert ["ab"][1..] == [];
    }
    assert (MARKER + "c")[9..9 + |"]c"|] == "]c";
    ContainsAt(MARKER + "c", "]c", 9);
    assert "]c" in vals;
  }

  // ---- longest first: a whole value goes, even when it holds a shorter one

  /** Words kept apart by a character that no value holds. */
  function Join(words: seq<string>, d: char): string
    requires words != []
    decreases |words|
  {
    if |words| == 1 then words[0] else words[0] + [d] + Join(words[1..], d)
  }

  function Redact(words: seq<string>, vals: seq<string>): (r: seq<string>)
    ensures |r| == |words|
    ensures forall i :: 0 <= i < |r| ==> r[i] == if words[i] in vals then "[redacted]" else words[i]
  {
    seq(|words|, i requires 0 <= i < |words| => if words[i] in vals then MARKER else words[i])
  }

  function ReplaceInWords(words: seq<string>, v: string): (r: seq<string>)
    requires v != ""
    ensures |r| == |words|
    ensures forall i :: 0 <= i < |r| ==> r[i] == ReplaceAll(words[i], v)
  {
    seq(|words|, i requires 0 <= i < |words| => ReplaceAll(words[i], v))
  }

  lemma PrefixStopsAt(a: string, d: char, b: string, v: string)
    requires d !in v
    ensures v <= a + [d] + b <==> v <= a
  {
    var s := a + [d] + b;
    if v <= s {
      assert forall k :: 0 <= k < |v| ==> s[k] == v[k] && v[k] in v;
      assert s[|a|] == d;
      assert |v| <= |a|;
    }
  }

  lemma {:induction false} ReplaceSplits(a: string, d: char, b: string, v: string)
    requires v != "" && d !in v
    ensures ReplaceAll(a + [d] + b, v) == ReplaceAll(a, v) + [d] + ReplaceAll(b, v)
    decreases |a|
  {
    hide ReplaceAll;
    var s := a + [d] + b;
    PrefixStopsAt(a, d, b, v);
    if v <= a {
      ReplaceHit(s, v);
      ReplaceHit(a, v);
      assert s[|v|..] == a[|v|..] + [d] + b;
      ReplaceSplits(a[|v|..], d, b, v);
    } else {
      ReplaceMiss(s, v);
      if a == [] {
        assert s[1..] == b;
        ReplaceNothing(v);
      } else {
        ReplaceMiss(a, v);
        assert s[1..] == a[1..] + [d] + b && s[0] == a[0];
        ReplaceSplits(a[1..], d, b, v);
      }
    }
  }

  lemma ReplaceHit(s: string, v: string)
    requires v != "" && v <= s
    ensures ReplaceAll(s, v) == MARKER + ReplaceAll(s[|v|..], v)
  {
  }

  lemma ReplaceMiss(s: string, v: string)
    requires v != "" && s != "" && !(v <= s)
    ensures ReplaceAll(s, v) == [s[0]] + ReplaceAll(s[1..], v)
  {
    assert s == [s[0]] + s[1..];
  }

  lemma ReplaceNothing(v: string)
    requires v != ""
    ensures ReplaceAll("", v) == ""
  {
  }

  lemma {:induction false} ReplaceInJoin(words: seq<string>, d: char, v: string)
    requires words != [] && v != "" && d !in v
    ensures ReplaceAll(Join(words, d), v) == Join(ReplaceInWords(words, v), d)
    decreases |words|
  {
    if |words| > 1 {
      ReplaceSplits(words[0], d, Join(words[1..], d), v);
      ReplaceInJoin(words[1..], d, v);
      assert ReplaceInWords(words, v)[1..] == ReplaceInWords(words[1..], v);
    }
  }

  lemma NoSelfOverlap(w: string, v: string)
    requires v != "" && |w| <= |v| && w != v
    ensures !Contains(w, v)
  {
    assert |w| == |v| ==> w[0..0 + |v|] == w;
  }

  lemma ReplaceWhole(v: string)
    requires v != ""
    ensures ReplaceAll(v, v) == MARKER
  {
    assert v[|v|..] == "";
    assert ReplaceAll(v[|v|..], v) == "";
  }

  /** One word of the text, after every value has had its turn. */
  lemma {:induction false} WordRedacted(w: string, vals: seq<string>)
    requires "" !in vals && LongestFirst(vals)
    requires forall v :: v in vals ==> !Contains(MARKER, v)
    requires w == MARKER || w in vals || forall v :: v in vals ==> !Contains(w, v)
    ensures ReplaceEach(w, vals) == if w in vals then MARKER else w
    decreases |vals|
  {
    if vals != [] {
      var v := vals[0];
      var rest := vals[1..];
      assert forall x :: x in vals <==> x == v || x in rest;
      assert v in vals;
      ReplaceMarks(w, v);
      if w == v {
        ReplaceWhole(v);
        WordRedacted(MARKER, rest);
        MarkerIsNoValue(vals);
      } else {
        if w in rest {
          assert exists j :: 0 <= j < |rest| && rest[j] == w == vals[j + 1];
          NoSelfOverlap(w, v);
        }
        WordRedacted(w, rest);
      }
    }
  }

  lemma MarkerIsNoValue(vals: seq<string>)
    requires forall v :: v in vals ==> !Contains(MARKER, v)
    ensures MARKER !in vals
  {
    ContainsAt(MARKER, MARKER, 0);
  }

  /** Text made of separated words: the words that are values become markers, the others stay. */
  lemma {:induction false} WordsAreRedactedWhole(words: seq<string>, d: char, vals: seq<string>)
    requires words != [] && "" !in vals && LongestFirst(vals)
    requires forall v :: v in vals ==> !Contains(MARKER, v) && d !in v
    requires forall w :: w in words ==> w in vals || forall v :: v in vals ==> !Contains(w, v)
    ensures ReplaceEach(Join(words, d), vals) == Join(Redact(words, vals), d)
  {
    EachInJoin(words, d, vals);
    var done := EachInWords(words, vals);
    forall i | 0 <= i < |words| ensures done[i] == Redact(words, vals)[i] {
      WordRedacted(words[i], vals);
    }
    assert done == Redact(words, vals);
  }

  function EachInWords(words: seq<string>, vals: seq<string>): (r: seq<string>)
    requires "" !in vals
    ensures |r| == |words|
    ensures forall i :: 0 <= i < |r| ==> r[i] == ReplaceEach(words[i], vals)
  {
    seq(|words|, i requires 0 <= i < |words| => ReplaceEach(words[i], vals))
  }

  lemma {:induction false} EachInJoin(words: seq<string>, d: char, vals: seq<string>)
    requires words != [] && "" !in vals && forall v :: v in vals ==> d !in v
    ensures ReplaceEach(Join(words, d), vals) == Join(EachInWords(words, vals), d)
    decreases |vals|
  {
    if vals == [] {
      assert EachInWords(words, vals) == words;
    } else {
      assert vals[0] in vals;
      ReplaceInJoin(words, d, vals[0]);
      EachInJoin(ReplaceInWords(words, vals[0]), d, vals[1..]);
      assert EachInWords(ReplaceInWords(words, vals[0]), vals[1..]) == EachInWords(words, vals);
    }
  }
}
