/** The text of the repository map, and the longest prefix of the definitions that fits a budget. */
module RepoMap {
  import opened GraphRows
  import opened PageRank
  import opened TokenEstimate

  /** dir stands for the directory part of the file's path. */
  datatype TagDef = TagDef(file: string, dir: string, name: string, kind: string, scope: string)

  const HEADER := "Repository Map (ranked by relevance)\n" + "========================================" + "\n\n"

  function Symbol(d: TagDef): string {
    if d.kind == "method" then "func (" + d.scope + ") " + d.name + "()"
    else if d.kind == "func" then "func " + d.name + "()"
    else if d.kind == "type" then "type " + d.name
    else ""
  }

  /** Without repetitions, in order of first appearance. */
  function Distinct(xs: seq<string>): (r: seq<string>)
    ensures forall x :: x in r <==> x in xs
  {
    if xs == [] then []
    else
      var r := Distinct(xs[..|xs| - 1]);
      var x := xs[|xs| - 1];
      assert xs == xs[..|xs| - 1] + [x];
      if x in r then r else r + [x]
  }

  function Dirs(defs: seq<TagDef>): (r: seq<string>)
    ensures |r| == |defs| && forall i :: 0 <= i < |r| ==> r[i] == defs[i].dir
  {
    seq(|defs|, i requires 0 <= i < |defs| => defs[i].dir)
  }

  /** The symbols defined in one directory, in order. */
  function SymbolsIn(defs: seq<TagDef>, dir: string): seq<string> {
    if defs == [] then []
    else
      var d := defs[|defs| - 1];
      SymbolsIn(defs[..|defs| - 1], dir) + if d.dir == dir then [Symbol(d)] else []
  }

  function Lines(symbols: seq<string>): string {
    if symbols == [] then "" else Lines(symbols[..|symbols| - 1]) + "  " + symbols[|symbols| - 1] + "\n"
  }

  function Group(defs: seq<TagDef>, dir: string): string {
    dir + "/\n" + Lines(Distinct(SymbolsIn(defs, dir))) + "\n"
  }

  function Groups(defs: seq<TagDef>, dirs: seq<string>): string {
    if dirs == [] then "" else Groups(defs, dirs[..|dirs| - 1]) + Group(defs, dirs[|dirs| - 1])
  }

  function TrimRight(s: string): (r: string)
    ensures r <= s && forall i :: |r| <= i < |s| ==> s[i] == '\n'
    ensures r != "" ==> r[|r| - 1] != '\n'
  {
    if s != "" && s[|s| - 1] == '\n' then TrimRight(s[..|s| - 1]) else s
  }

  function Text(defs: seq<TagDef>): string {
    HEADER + Groups(defs, Distinct(Dirs(defs)))
  }

  /** The whole map, untruncated. */
  function Rendered(defs: seq<TagDef>): string {
    if defs == [] then "" else TrimRight(Text(defs))
  }

  // ---- a longer prefix never renders shorter

  /** Text inserted anywhere never makes the trimmed text shorter. */
  lemma TrimmedInsertion(p: string, i: string, s: string)
    ensures |TrimRight(p + s)| <= |TrimRight(p + i + s)|
  {
    var before, after := TrimRight(p + s), TrimRight(p + i + s);
    if before != "" {
      var last := |before| - 1;
      var at := if last < |p| then last else last + |i|;
      assert (p + i + s)[at] == (p + s)[last] == before[last];
    }
  }

  ghost predicate Inserts(a: string, b: string) {
    exists p, i, s :: a == p + s && b == p + i + s
  }

  lemma MakesInsertion(p: string, i: string, s: string)
    ensures Inserts(p + s, p + i + s)
  {
  }

  lemma InsertsAround(p: string, a: string, b: string, s: string)
    requires Inserts(a, b)
    ensures Inserts(p + a + s, p + b + s)
  {
    var p1, i, s1 :| a == p1 + s1 && b == p1 + i + s1;
    assert p + a + s == (p + p1) + (s1 + s) && p + b + s == (p + p1) + i + (s1 + s);
  }

  lemma {:induction false} OtherGroupsStay(defs: seq<TagDef>, d: TagDef, dirs: seq<string>)
    requires d.dir !in dirs
    ensures Groups(defs + [d], dirs) == Groups(defs, dirs)
  {
    if dirs != [] {
      var dir := dirs[|dirs| - 1];
      OtherGroupsStay(defs, d, dirs[..|dirs| - 1]);
      assert (defs + [d])[..|defs|] == defs;
      assert SymbolsIn(defs + [d], dir) == SymbolsIn(defs, dir);
    }
  }

  lemma OneMoreSymbol(defs: seq<TagDef>, d: TagDef)
    ensures Distinct(SymbolsIn(defs + [d], d.dir)) == Distinct(SymbolsIn(defs, d.dir))
            || Distinct(SymbolsIn(defs + [d], d.dir)) == Distinct(SymbolsIn(defs, d.dir)) + [Symbol(d)]
  {
    assert (defs + [d])[..|defs|] == defs;
    var old0 := SymbolsIn(defs, d.dir);
    var new0 := old0 + [Symbol(d)];
    assert new0[..|old0|] == old0;
  }

  lemma OneMoreLine(symbols: seq<string>, s: string)
    ensures Lines(symbols + [s]) == Lines(symbols) + ("  " + s + "\n")
  {
    assert (symbols + [s])[..|symbols|] == symbols;
  }

  lemma InsertsBeforeEnd(p: string, i: string, s: string, a: string, b: string)
    requires a == p + s && b == p + i + s
    ensures Inserts(a, b)
  {
  }

  lemma GroupGrows(defs: seq<TagDef>, d: TagDef)
    ensures Inserts(Group(defs, d.dir), Group(defs + [d], d.dir))
  {
    hide Inserts, Distinct, SymbolsIn, Lines, Symbol;
    var symbols, more := Distinct(SymbolsIn(defs, d.dir)), Distinct(SymbolsIn(defs + [d], d.dir));
    OneMoreSymbol(defs, d);
    OneMoreLine(symbols, Symbol(d));
    var p := d.dir + "/\n" + Lines(symbols);
    var line := if more == symbols then "" else "  " + Symbol(d) + "\n";
    assert Lines(more) == Lines(symbols) + line;
    InsertsBeforeEnd(p, line, "\n", Group(defs, d.dir), Group(defs + [d], d.dir));
  }

  /** One directory's group grows in place, wherever it stands among the others. */
  lemma {:induction false} GroupsGrow(defs: seq<TagDef>, d: TagDef, dirs: seq<string>)
    requires d.dir in dirs && forall i, j :: 0 <= i < j < |dirs| ==> dirs[i] != dirs[j]
    ensures Inserts(Groups(defs, dirs), Groups(defs + [d], dirs))
  {
    hide Inserts, Group;
    var m := |dirs| - 1;
    var others, dir := dirs[..m], dirs[m];
    if dir == d.dir {
      OtherGroupsStay(defs, d, others);
      GroupGrows(defs, d);
      var front := Groups(defs, others);
      InsertsAround(front, Group(defs, dir), Group(defs + [d], dir), "");
      assert front + Group(defs, dir) + "" == front + Group(defs, dir);
      assert front + Group(defs + [d], dir) + "" == front + Group(defs + [d], dir);
    } else {
      assert d.dir in others;
      GroupsGrow(defs, d, others);
      OtherGroupStays(defs, d, dir);
      var a, b, g := Groups(defs, others), Groups(defs + [d], others), Group(defs, dir);
      InsertsAround("", a, b, g);
      assert "" + a + g == a + g && "" + b + g == b + g;
    }
  }

  lemma OtherGroupStays(defs: seq<TagDef>, d: TagDef, dir: string)
    requires d.dir != dir
    ensures Group(defs + [d], dir) == Group(defs, dir)
  {
    var more := defs + [d];
    assert more[..|defs|] == defs;
    assert SymbolsIn(more, dir) == SymbolsIn(defs, dir);
  }

  lemma {:induction false} DistinctHasNoRepeats(xs: seq<string>)
    ensures forall i, j :: 0 <= i < j < |Distinct(xs)| ==> Distinct(xs)[i] != Distinct(xs)[j]
  {
    if xs != [] {
      DistinctHasNoRepeats(xs[..|xs| - 1]);
      var r := Distinct(xs[..|xs| - 1]);
      var d, x := Distinct(xs), xs[|xs| - 1];
      forall i, j | 0 <= i < j < |d| ensures d[i] != d[j] {
        assert d[i] == r[i] && r[i] in r;
      }
    }
  }

  /** One more definition only inserts text. */
  lemma TextGrows(defs: seq<TagDef>, d: TagDef)
    ensures Inserts(Text(defs), Text(defs + [d]))
  {
    hide Inserts, Groups, Group;
    var dirs, more := Distinct(Dirs(defs)), Distinct(Dirs(defs + [d]));
    assert Dirs(defs + [d]) == Dirs(defs) + [d.dir];
    assert (Dirs(defs) + [d.dir])[..|defs|] == Dirs(defs);
    if d.dir in dirs {
      DistinctHasNoRepeats(Dirs(defs));
      GroupsGrow(defs, d, dirs);
      InsertsAround(HEADER, Groups(defs, dirs), Groups(defs + [d], dirs), "");
      assert HEADER + Groups(defs, dirs) + "" == Text(defs);
      assert HEADER + Groups(defs + [d], dirs) + "" == Text(defs + [d]);
    } else {
      NewGroup(defs, d, dirs);
      MakesInsertion(Text(defs), Group(defs + [d], d.dir), "");
      assert Text(defs) + "" == Text(defs);
      assert Text(defs) + Group(defs + [d], d.dir) + "" == Text(defs + [d]);
    }
  }

  lemma NewGroup(defs: seq<TagDef>, d: TagDef, dirs: seq<string>)
    requires d.dir !in dirs
    ensures Groups(defs + [d], dirs + [d.dir]) == Groups(defs, dirs) + Group(defs + [d], d.dir)
  {
    assert (dirs + [d.dir])[..|dirs|] == dirs;
    OtherGroupsStay(defs, d, dirs);
  }

  /** The rendering of a prefix is never longer than that of the next one. */
  lemma RenderingGrows(defs: seq<TagDef>, d: TagDef)
    ensures |Rendered(defs)| <= |Rendered(defs + [d])|
  {
    if defs != [] {
      TextGrows(defs, d);
      var p, i, s :| Text(defs) == p + s && Text(defs + [d]) == p + i + s;
      TrimmedInsertion(p, i, s);
    }
  }

  /** So the prefixes that fit a budget are exactly those up to some length. */
  lemma {:induction false} PrefixesCostMore(defs: seq<TagDef>, m: nat, n: nat)
    requires m <= n <= |defs|
    ensures Tokens(Rendered(defs[..m])) <= Tokens(Rendered(defs[..n]))
    decreases n
  {
    hide Rendered;
    if m < n {
      PrefixesCostMore(defs, m, n - 1);
      assert defs[..n] == defs[..n - 1] + [defs[n - 1]];
      RenderingGrows(defs[..n - 1], defs[n - 1]);
    }
  }

  // ---- the program

  function Front(defs: seq<TagDef>, dirs: seq<string>, k: nat): string
    requires k <= |dirs|
  {
    HEADER + Groups(defs, dirs[..k])
  }

  lemma FrontGrows(defs: seq<TagDef>, dirs: seq<string>, k: nat)
    requires k < |dirs|
    ensures Front(defs, dirs, k + 1) == Front(defs, dirs, k) + Group(defs, dirs[k])
  {
    hide Group;
    assert dirs[..k + 1][..k] == dirs[..k];
  }

  /** The groups written before the text got longer than the limit, the one that did so included. */
  ghost predicate CutAt(defs: seq<TagDef>, maxChars: int, dirs: seq<string>, k: nat) {
    0 < k <= |dirs|
    && (k < |dirs| ==> maxChars > 0 && |Front(defs, dirs, k)| > maxChars)
    && (maxChars > 0 ==> forall m :: 0 < m < k ==> |Front(defs, dirs, m)| <= maxChars)
  }

  /** Fills a group map and an order list, then writes group by group, until the text is long enough. */
  method FormatMap(defs: seq<TagDef>, maxChars: int) returns (r: string, ghost k: nat)
    ensures maxChars <= 0 || defs == [] ==> r == Rendered(defs)
    ensures defs != [] ==> CutAt(defs, maxChars, Distinct(Dirs(defs)), k) && r == TrimRight(Front(defs, Distinct(Dirs(defs)), k))
  {
    hide Front, Distinct, Dirs, SymbolsIn, TrimRight, Text;
    k := 0;
    if defs == [] {
      return "", k;
    }
    var order, symbols := CollectGroups(defs);
    WholeFront(defs);
    r, k := WriteGroups(defs, maxChars, order, symbols);
  }

  lemma WholeFront(defs: seq<TagDef>)
    requires defs != []
    ensures Distinct(Dirs(defs)) != []
    ensures Rendered(defs) == TrimRight(Front(defs, Distinct(Dirs(defs)), |Distinct(Dirs(defs))|))
  {
    hide Distinct, Groups, TrimRight;
    var dirs := Distinct(Dirs(defs));
    assert Dirs(defs)[0] in dirs;
    assert dirs[..|dirs|] == dirs;
  }

  method WriteGroups(ghost defs: seq<TagDef>, maxChars: int, order: seq<string>, symbols: map<string, seq<string>>)
    returns (r: string, ghost k: nat)
    requires order != []
    requires forall dir :: dir in order ==> dir in symbols && symbols[dir] == SymbolsIn(defs, dir)
    ensures CutAt(defs, maxChars, order, k) && r == TrimRight(Front(defs, order, k))
  {
    hide Front, Lines, Distinct, SymbolsIn, TrimRight;
    var b := HEADER;
    var i := 0;
    assert Front(defs, order, 0) == HEADER by {
      FrontStarts(defs, order);
    }
    while i < |order|
      invariant 0 <= i <= |order|
      invariant b == Front(defs, order, i)
      invariant maxChars > 0 ==> forall m :: 0 < m <= i ==> |Front(defs, order, m)| <= maxChars
    {
      FrontGrows(defs, order, i);
      var dir := order[i];
      var lines := WriteLines(symbols[dir]);
      b := b + (dir + "/\n" + lines + "\n");
      i := i + 1;
      if maxChars > 0 && |b| > maxChars {
        break;
      }
    }
    return TrimRight(b), i;
  }

  lemma FrontStarts(defs: seq<TagDef>, dirs: seq<string>)
    ensures Front(defs, dirs, 0) == HEADER
  {
  }

  method CollectGroups(defs: seq<TagDef>) returns (order: seq<string>, symbols: map<string, seq<string>>)
    ensures order == Distinct(Dirs(defs))
    ensures forall dir :: dir in symbols <==> dir in order
    ensures forall dir :: dir in symbols ==> symbols[dir] == SymbolsIn(defs, dir)
  {
    hide Distinct, SymbolsIn, Dirs;
    order, symbols := [], map[];
    NoDefs(defs);
    var i := 0;
    while i < |defs|
      invariant 0 <= i <= |defs|
      invariant order == Distinct(Dirs(defs[..i]))
      invariant forall dir :: dir in symbols <==> dir in order
      invariant forall dir :: dir in symbols ==> symbols[dir] == SymbolsIn(defs[..i], dir)
    {
      var d := defs[i];
      NextDef(defs, i);
      if d.dir !in symbols {
        DistinctHolds(Dirs(defs[..i]), d.dir);
        NoSymbols(defs[..i], d.dir);
        order := order + [d.dir];
        symbols := symbols[d.dir := []];
      }
      symbols := symbols[d.dir := symbols[d.dir] + [Symbol(d)]];
      i := i + 1;
    }
    assert defs[..i] == defs;
  }

  lemma DistinctHolds(xs: seq<string>, x: string)
    ensures x in Distinct(xs) <==> x in xs
  {
  }

  lemma NoDefs(defs: seq<TagDef>)
    ensures Distinct(Dirs(defs[..0])) == []
  {
    assert Dirs(defs[..0]) == [];
  }

  lemma NextDef(defs: seq<TagDef>, i: nat)
    requires i < |defs|
    ensures Distinct(Dirs(defs[..i + 1])) == if defs[i].dir in Distinct(Dirs(defs[..i])) then Distinct(Dirs(defs[..i]))
                                             else Distinct(Dirs(defs[..i])) + [defs[i].dir]
    ensures forall dir :: SymbolsIn(defs[..i + 1], dir)
                       == SymbolsIn(defs[..i], dir) + if dir == defs[i].dir then [Symbol(defs[i])] else []
  {
    assert defs[..i + 1][..i] == defs[..i];
    var dirs := Dirs(defs[..i + 1]);
    assert dirs[..i] == Dirs(defs[..i]) && dirs[i] == defs[i].dir && |dirs| == i + 1;
  }

  lemma {:induction false} NoSymbols(defs: seq<TagDef>, dir: string)
    requires dir !in Dirs(defs)
    ensures SymbolsIn(defs, dir) == []
  {
    if defs != [] {
      var m := |defs| - 1;
      assert Dirs(defs)[m] in Dirs(defs);
      assert Dirs(defs[..m]) == Dirs(defs)[..m];
      NoSymbols(defs[..m], dir);
    }
  }

  method WriteLines(symbols: seq<string>) returns (b: string)
    ensures b == Lines(Distinct(symbols))
  {
    b := "";
    var seen: set<string> := {};
    var i := 0;
    while i < |symbols|
      invariant 0 <= i <= |symbols|
      invariant b == Lines(Distinct(symbols[..i]))
      invariant forall s :: s in seen <==> s in Distinct(symbols[..i])
    {
      var s := symbols[i];
      assert symbols[..i + 1][..i] == symbols[..i];
      if s !in seen {
        assert (Distinct(symbols[..i]) + [s])[..|Distinct(symbols[..i])|] == Distinct(symbols[..i]);
        seen := seen + {s};
        b := b + ("  " + s + "\n");
      }
      i := i + 1;
    }
    assert symbols[..i] == symbols;
  }

  /** The rendering of the longest prefix that fits, or nothing when not even one definition does. */
  method BinarySearchFit(defs: seq<TagDef>, maxTokens: int) returns (r: string)
    ensures exists k :: 0 <= k <= |defs| && r == Rendered(defs[..k]) && (k == 0 || Tokens(r) <= maxTokens)
              && forall m :: k < m <= |defs| ==> Tokens(Rendered(defs[..m])) > maxTokens
  {
    hide Rendered, Tokens;
    var full, _ := FormatMap(defs, 0);
    if Tokens(full) <= maxTokens {
      assert defs[..|defs|] == defs;
      return full;
    }
    var lo, hi := 1, |defs|;
    ghost var k := 0;
    r := "";
    NothingRenders(defs);
    while lo <= hi
      invariant 0 <= k == lo - 1 <= hi <= |defs|
      invariant r == Rendered(defs[..k]) && (k == 0 || Tokens(r) <= maxTokens)
      invariant forall m :: hi < m <= |defs| ==> Tokens(Rendered(defs[..m])) > maxTokens
    {
      var mid := (lo + hi) / 2;
      var candidate, _ := FormatMap(defs[..mid], 0);
      if Tokens(candidate) <= maxTokens {
        r := candidate;
        k, lo := mid, mid + 1;
      } else {
        forall m | mid <= m <= |defs| ensures Tokens(Rendered(defs[..m])) > maxTokens {
          PrefixesCostMore(defs, mid, m);
        }
        hi := mid - 1;
      }
    }
  }

  lemma NothingRenders(defs: seq<TagDef>)
    ensures Rendered(defs[..0]) == ""
  {
  }

  // ---- the graph of the files

  datatype RefEdge = RefEdge(srcFile: string, dstFile: string)

  ghost predicate Named(edges: seq<RefEdge>, f: string) {
    exists e :: e in edges && (e.srcFile == f || e.dstFile == f)
  }

  /** The two maps are each other's inverse, and the ids are the numbers below next. */
  ghost predicate Numbered(fileIDs: map<string, nat>, idFiles: map<nat, string>, next: nat) {
    (forall id: nat :: id in idFiles <==> id < next)
    && (forall f :: f in fileIDs ==> fileIDs[f] < next && idFiles[fileIDs[f]] == f)
    && (forall id :: id in idFiles ==> idFiles[id] in fileIDs && fileIDs[idFiles[id]] == id)
  }

  method GetID(file: string, fileIDs: map<string, nat>, idFiles: map<nat, string>, next: nat)
    returns (id: nat, fileIDs': map<string, nat>, idFiles': map<nat, string>, next': nat)
    requires Numbered(fileIDs, idFiles, next)
    ensures Numbered(fileIDs', idFiles', next')
    ensures file in fileIDs' && fileIDs'[file] == id
    ensures forall f :: f in fileIDs' <==> f in fileIDs || f == file
    ensures forall f :: f in fileIDs ==> fileIDs'[f] == fileIDs[f]
    ensures forall f :: f in fileIDs' && f !in fileIDs ==> fileIDs'[f] == next
    ensures next <= next'
    ensures idFiles'.Keys == idFiles.Keys + {id}
  {
    if file in fileIDs {
      return fileIDs[file], fileIDs, idFiles, next;
    }
    return next, fileIDs[file := next], idFiles[next := file], next + 1;
  }

  /** The weight between two files, nothing for a file without an id. */
  function Between(g: Edges, fileIDs: map<string, nat>, src: string, dst: string): real {
    if src in fileIDs && dst in fileIDs then WeightOf(g, fileIDs[src], fileIDs[dst]) else 0.0
  }

  ghost predicate Counts(g: Edges, fileIDs: map<string, nat>, edges: seq<RefEdge>) {
    forall s, d :: Between(g, fileIDs, s, d) == multiset(edges)[RefEdge(s, d)] as real
  }

  /** A new id carries no weight yet. */
  lemma NamingKeepsCounts(g: Edges, before: map<string, nat>, after: map<string, nat>, edges: seq<RefEdge>, next: nat)
    requires Counts(g, before, edges)
    requires forall f :: f in before ==> f in after && after[f] == before[f]
    requires forall f :: f in after && f !in before ==> after[f] >= next
    requires forall s, d :: s in g && d in g[s] ==> s < next && d < next
    ensures Counts(g, after, edges)
  {
    forall s, d ensures Between(g, after, s, d) == multiset(edges)[RefEdge(s, d)] as real {
      assert Between(g, before, s, d) == multiset(edges)[RefEdge(s, d)] as real;
    }
  }

  lemma LinkCounts(g: Edges, linked: Edges, fileIDs: map<string, nat>, idFiles: map<nat, string>, next: nat,
                   edges: seq<RefEdge>, e: RefEdge)
    requires Counts(g, fileIDs, edges) && Numbered(fileIDs, idFiles, next)
    requires e.srcFile in fileIDs && e.dstFile in fileIDs
    requires forall s, d :: WeightOf(linked, s, d) == WeightOf(g, s, d)
                          + if s == fileIDs[e.srcFile] && d == fileIDs[e.dstFile] then 1.0 else 0.0
    ensures Counts(linked, fileIDs, edges + [e])
  {
    hide WeightOf;
    assert multiset(edges + [e]) == multiset(edges) + multiset{e};
    forall s, d ensures Between(linked, fileIDs, s, d) == multiset(edges + [e])[RefEdge(s, d)] as real {
      assert Between(g, fileIDs, s, d) == multiset(edges)[RefEdge(s, d)] as real;
      assert e == RefEdge(s, d) <==> s == e.srcFile && d == e.dstFile;
    }
  }

  /** A node for every file named, and between any two files as much weight as there are references. */
  ghost predicate GraphOf(g: Edges, nodes: set<nat>, fileIDs: map<string, nat>, idFiles: map<nat, string>, n: nat,
                          edges: seq<RefEdge>) {
    Closed(g, nodes) && PositiveWeights(g) && Numbered(fileIDs, idFiles, n) && nodes == idFiles.Keys
    && (forall f :: f in fileIDs <==> Named(edges, f))
    && Counts(g, fileIDs, edges)
  }

  method AddRef(g: Graph, e: RefEdge, fileIDs: map<string, nat>, idFiles: map<nat, string>, next: nat,
                ghost edges: seq<RefEdge>)
    returns (fileIDs': map<string, nat>, idFiles': map<nat, string>, next': nat)
    requires GraphOf(g.edges, g.nodes, fileIDs, idFiles, next, edges)
    modifies g
    ensures GraphOf(g.edges, g.nodes, fileIDs', idFiles', next', edges + [e])
  {
    hide Counts, WeightOf, PositiveWeights, Named, Closed;
    var src, dst;
    src, fileIDs', idFiles', next' := GetID(e.srcFile, fileIDs, idFiles, next);
    dst, fileIDs', idFiles', next' := GetID(e.dstFile, fileIDs', idFiles', next');
    EdgesStayBelow(g.edges, g.nodes, fileIDs, idFiles, next);
    NamingKeepsCounts(g.edges, fileIDs, fileIDs', edges, next);
    ghost var unlinked := g.edges;
    g.Link(src, dst, 1.0);
    LinkCounts(unlinked, g.edges, fileIDs', idFiles', next', edges, e);
    OneMoreNamed(edges, e);
  }

  lemma EdgesStayBelow(g: Edges, nodes: set<nat>, fileIDs: map<string, nat>, idFiles: map<nat, string>, n: nat)
    requires Closed(g, nodes) && Numbered(fileIDs, idFiles, n) && nodes == idFiles.Keys
    ensures forall s, d :: s in g && d in g[s] ==> s < n && d < n
  {
  }

  method BuildFileGraph(edges: seq<RefEdge>)
    returns (g: Graph, fileIDs: map<string, nat>, idFiles: map<nat, string>, ghost n: nat)
    ensures fresh(g) && GraphOf(g.edges, g.nodes, fileIDs, idFiles, n, edges)
  {
    hide GraphOf;
    g := new Graph();
    fileIDs, idFiles := map[], map[];
    var next: nat, i := 0, 0;
    NothingCounted();
    assert edges[..0] == [];
    while i < |edges|
      invariant 0 <= i <= |edges| && fresh(g)
      invariant GraphOf(g.edges, g.nodes, fileIDs, idFiles, next, edges[..i])
    {
      assert edges[..i + 1] == edges[..i] + [edges[i]];
      fileIDs, idFiles, next := AddRef(g, edges[i], fileIDs, idFiles, next, edges[..i]);
      i := i + 1;
    }
    assert edges[..i] == edges;
    n := next;
  }

  lemma NothingCounted()
    ensures GraphOf(map[], {}, map[], map[], 0, [])
  {
  }

  lemma OneMoreNamed(edges: seq<RefEdge>, e: RefEdge)
    ensures forall f :: Named(edges + [e], f) <==> Named(edges, f) || f == e.srcFile || f == e.dstFile
  {
    assert e in edges + [e];
  }
}
