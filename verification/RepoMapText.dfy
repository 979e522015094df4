/** What stands in the repository map: which headings, which lines below each, and where it is cut. */
module RepoMapText {
  import opened RepoMap

  /** How a definition is shown. */
  predicate Shows(line: string, d: TagDef) {
    && (d.kind == "method" ==> line == "func (" + d.scope + ") " + d.name + "()")
    && (d.kind == "func" ==> line == "func " + d.name + "()")
    && (d.kind == "type" ==> line == "type " + d.name)
    && (d.kind !in {"method", "func", "type"} ==> line == "")
  }

  /** The first definitions that have what is listed, in order; and nothing is missing. */
  predicate FirstDirs(dirs: seq<string>, defs: seq<TagDef>, at: seq<nat>) {
    |at| == |dirs| && (forall i, j :: 0 <= i < j < |at| ==> at[i] < at[j])
    && (forall i :: 0 <= i < |at| ==> at[i] < |defs| && defs[at[i]].dir == dirs[i])
    && (forall i, p :: 0 <= i < |at| && 0 <= p < at[i] ==> defs[p].dir != dirs[i])
    && forall p :: 0 <= p < |defs| ==> defs[p].dir in dirs
  }

  /** Each line shows the definition of the directory at its position. */
  predicate LinesAt(lines: seq<string>, defs: seq<TagDef>, dir: string, at: seq<nat>) {
    |at| == |lines| && (forall i, j :: 0 <= i < j < |at| ==> at[i] < at[j])
    && forall i :: 0 <= i < |at| ==> at[i] < |defs| && defs[at[i]].dir == dir && Shows(lines[i], defs[at[i]])
  }

  /** And none before it. */
  predicate NoneBefore(lines: seq<string>, defs: seq<TagDef>, dir: string, at: seq<nat>)
    requires LinesAt(lines, defs, dir, at)
  {
    forall i, p :: 0 <= i < |at| && 0 <= p < at[i] && defs[p].dir == dir ==> !Shows(lines[i], defs[p])
  }

  predicate AllShown(lines: seq<string>, defs: seq<TagDef>, dir: string) {
    forall p :: 0 <= p < |defs| && defs[p].dir == dir ==> IsShown(defs[p], lines)
  }

  predicate FirstLines(lines: seq<string>, defs: seq<TagDef>, dir: string, at: seq<nat>) {
    LinesAt(lines, defs, dir, at) && NoneBefore(lines, defs, dir, at) && AllShown(lines, defs, dir)
  }

  predicate IsShown(d: TagDef, lines: seq<string>) {
    exists i :: 0 <= i < |lines| && Shows(lines[i], d)
  }

  /** Each directory once, in order of first appearance. */
  ghost predicate Headings(dirs: seq<string>, defs: seq<TagDef>) {
    exists at :: FirstDirs(dirs, defs, at)
  }

  /** For each definition of the directory and no other its line, each different line once, in order of appearance. */
  ghost predicate Listed(lines: seq<string>, defs: seq<TagDef>, dir: string) {
    exists at :: FirstLines(lines, defs, dir, at)
  }

  function Indented(lines: seq<string>): string {
    if lines == [] then "" else "  " + lines[0] + "\n" + Indented(lines[1..])
  }

  /** The header, and for each directory its heading, its lines and an empty line. */
  function Written(dirs: seq<string>, sections: seq<seq<string>>): string
    requires |dirs| == |sections|
  {
    if dirs == [] then
      "Repository Map (ranked by relevance)\n" + "========================================" + "\n\n"
    else
      var m := |dirs| - 1;
      Written(dirs[..m], sections[..m]) + (dirs[m] + "/\n" + Indented(sections[m]) + "\n")
  }

  /** The text without the newlines at its end. */
  predicate Trimmed(r: string, text: string) {
    r <= text && (forall i :: |r| <= i < |text| ==> text[i] == '\n') && (r != "" ==> r[|r| - 1] != '\n')
  }

  /** The map shows the first k directories, all of them unless the text got too long with the last one shown. */
  ghost predicate MapOf(r: string, defs: seq<TagDef>, maxChars: int, dirs: seq<string>, sections: seq<seq<string>>,
                        k: nat) {
    |dirs| == |sections| && 0 < k <= |dirs| && Headings(dirs, defs)
    && (forall i :: 0 <= i < |dirs| ==> Listed(sections[i], defs, dirs[i]))
    && Trimmed(r, Written(dirs[..k], sections[..k]))
    && (maxChars > 0 ==> forall m :: 0 < m < k ==> |Written(dirs[..m], sections[..m])| <= maxChars)
    && (k < |dirs| ==> maxChars > 0 && |Written(dirs[..k], sections[..k])| > maxChars)
  }

  // ---- the headings

  function DirPositions(defs: seq<TagDef>): seq<nat> {
    if defs == [] then []
    else
      var m := |defs| - 1;
      DirPositions(defs[..m]) + if defs[m].dir in Distinct(Dirs(defs[..m])) then [] else [m]
  }

  lemma {:induction false} DirsAreFirst(defs: seq<TagDef>)
    ensures FirstDirs(Distinct(Dirs(defs)), defs, DirPositions(defs))
  {
    if defs != [] {
      var m := |defs| - 1;
      DirsAreFirst(defs[..m]);
      DistinctOfMore(Dirs(defs), defs[m].dir);
      assert Dirs(defs)[..m] == Dirs(defs[..m]);
      OneMoreDef(Distinct(Dirs(defs[..m])), Distinct(Dirs(defs)), defs, DirPositions(defs[..m]), DirPositions(defs));
    }
  }

  lemma DistinctOfMore(xs: seq<string>, x: string)
    requires xs != [] && xs[|xs| - 1] == x
    ensures var r := Distinct(xs[..|xs| - 1]); Distinct(xs) == if x in r then r else r + [x]
  {
  }

  lemma OneMoreDef(r: seq<string>, more: seq<string>, defs: seq<TagDef>, at: seq<nat>, now: seq<nat>)
    requires defs != [] && FirstDirs(r, defs[..|defs| - 1], at)
    requires var m := |defs| - 1;
             if defs[m].dir in r then more == r && now == at else more == r + [defs[m].dir] && now == at + [m]
    ensures FirstDirs(more, defs, now)
  {
    var m, front := |defs| - 1, defs[..|defs| - 1];
    forall i | 0 <= i < |now|
      ensures now[i] < |defs| && defs[now[i]].dir == more[i] && (i < |at| ==> now[i] == at[i] && more[i] == r[i])
    {
      assert i < |at| ==> front[at[i]] == defs[at[i]];
    }
    forall i, p | 0 <= i < |now| && 0 <= p < now[i] ensures defs[p].dir != more[i] {
      assert front[p] == defs[p];
      assert front[p].dir in r;
    }
    forall p | 0 <= p < |defs| ensures defs[p].dir in more {
      if p < m {
        assert front[p].dir in r;
      } else if defs[m].dir !in r {
        assert more[|r|] == defs[m].dir;
      }
    }
  }

  // ---- the lines

  lemma SymbolShows(d: TagDef, line: string)
    ensures Shows(line, d) <==> line == Symbol(d)
  {
  }

  function LinePositions(defs: seq<TagDef>, dir: string): seq<nat> {
    if defs == [] then []
    else
      var m := |defs| - 1;
      LinePositions(defs[..m], dir)
      + if defs[m].dir != dir || Symbol(defs[m]) in Distinct(SymbolsIn(defs[..m], dir)) then [] else [m]
  }

  lemma {:induction false} LinesAreFirst(defs: seq<TagDef>, dir: string)
    ensures FirstLines(Distinct(SymbolsIn(defs, dir)), defs, dir, LinePositions(defs, dir))
  {
    if defs != [] {
      var m := |defs| - 1;
      var front := SymbolsIn(defs[..m], dir);
      LinesAreFirst(defs[..m], dir);
      if defs[m].dir == dir {
        DistinctOfMore(front + [Symbol(defs[m])], Symbol(defs[m]));
        assert (front + [Symbol(defs[m])])[..|front|] == front;
      } else {
        assert front + [] == front;
      }
      OneMoreLineDef(Distinct(front), Distinct(SymbolsIn(defs, dir)), defs, dir, LinePositions(defs[..m], dir),
                     LinePositions(defs, dir));
    }
  }

  lemma OneMoreLineDef(r: seq<string>, more: seq<string>, defs: seq<TagDef>, dir: string, at: seq<nat>, now: seq<nat>)
    requires defs != [] && FirstLines(r, defs[..|defs| - 1], dir, at)
    requires var m := |defs| - 1;
             if defs[m].dir != dir || Symbol(defs[m]) in r then more == r && now == at
             else more == r + [Symbol(defs[m])] && now == at + [m]
    ensures FirstLines(more, defs, dir, now)
  {
    var m, front := |defs| - 1, defs[..|defs| - 1];
    hide Symbol, Shows, NoneBefore, AllShown;
    SymbolShows(defs[m], Symbol(defs[m]));
    forall i | 0 <= i < |now|
      ensures now[i] < |defs| && defs[now[i]].dir == dir && Shows(more[i], defs[now[i]])
    {
      assert i < |at| ==> front[at[i]] == defs[at[i]];
    }
    assert LinesAt(more, defs, dir, now);
    hide LinesAt;
    StillNoneBefore(r, more, defs, dir, at, now);
    if defs[m].dir == dir && Symbol(defs[m]) !in r {
      assert more[|r|] == Symbol(defs[m]);
    }
    StillShown(r, more, defs, dir);
  }

  lemma StillNoneBefore(r: seq<string>, more: seq<string>, defs: seq<TagDef>, dir: string, at: seq<nat>, now: seq<nat>)
    requires defs != [] && FirstLines(r, defs[..|defs| - 1], dir, at) && LinesAt(more, defs, dir, now)
    requires var m := |defs| - 1;
             if defs[m].dir != dir || Symbol(defs[m]) in r then more == r && now == at
             else more == r + [Symbol(defs[m])] && now == at + [m]
    ensures NoneBefore(more, defs, dir, now)
  {
    hide Symbol, Shows;
    var m, front := |defs| - 1, defs[..|defs| - 1];
    forall i, p | 0 <= i < |now| && 0 <= p < now[i] && defs[p].dir == dir ensures !Shows(more[i], defs[p]) {
      assert front[p] == defs[p];
      if i == |at| {
        NotShownBefore(r, front, dir, p, defs[m]);
      }
    }
  }

  /** A line that is not listed shows no definition before. */
  lemma NotShownBefore(r: seq<string>, front: seq<TagDef>, dir: string, p: nat, d: TagDef)
    requires p < |front| && front[p].dir == dir && IsShown(front[p], r) && Symbol(d) !in r
    ensures !Shows(Symbol(d), front[p])
  {
    hide Symbol, Shows;
    var i :| 0 <= i < |r| && Shows(r[i], front[p]);
    SymbolShows(front[p], r[i]);
    SymbolShows(front[p], Symbol(d));
  }

  lemma StillShown(r: seq<string>, more: seq<string>, defs: seq<TagDef>, dir: string)
    requires defs != [] && r <= more && (defs[|defs| - 1].dir == dir ==> Symbol(defs[|defs| - 1]) in more)
    requires AllShown(r, defs[..|defs| - 1], dir)
    ensures AllShown(more, defs, dir)
  {
    hide Symbol, Shows;
    var m, front := |defs| - 1, defs[..|defs| - 1];
    forall p | 0 <= p < |defs| && defs[p].dir == dir ensures IsShown(defs[p], more) {
      if p < m {
        assert front[p] == defs[p];
        var i :| 0 <= i < |r| && Shows(r[i], defs[p]);
        assert more[i] == r[i];
      } else {
        var i :| 0 <= i < |more| && more[i] == Symbol(defs[m]);
        SymbolShows(defs[m], more[i]);
      }
    }
  }

  // ---- the text

  lemma {:induction false} IndentedIsLines(symbols: seq<string>, more: seq<string>)
    ensures Lines(symbols + more) == Lines(symbols) + Indented(more)
    decreases |more|
  {
    hide Lines;
    if more == [] {
      assert symbols + more == symbols;
    } else {
      var line, rest := "  " + more[0] + "\n", Indented(more[1..]);
      assert Indented(more) == line + rest;
      hide Indented;
      IndentedIsLines(symbols + [more[0]], more[1..]);
      assert symbols + [more[0]] + more[1..] == symbols + more;
      OneMoreLine(symbols, more[0]);
      Regroup(Lines(symbols), line, rest);
    }
  }

  lemma Regroup(a: string, b: string, c: string)
    ensures a + b + c == a + (b + c)
  {
  }

  function Sections(defs: seq<TagDef>, dirs: seq<string>): (r: seq<seq<string>>)
    ensures |r| == |dirs| && forall i :: 0 <= i < |r| ==> r[i] == Distinct(SymbolsIn(defs, dirs[i]))
  {
    seq(|dirs|, i requires 0 <= i < |dirs| => Distinct(SymbolsIn(defs, dirs[i])))
  }

  lemma {:induction false} FrontIsWritten(defs: seq<TagDef>, dirs: seq<string>, k: nat)
    requires k <= |dirs|
    ensures Front(defs, dirs, k) == Written(dirs[..k], Sections(defs, dirs)[..k])
  {
    hide Lines, Indented, Distinct, SymbolsIn;
    if k == 0 {
      FrontStarts(defs, dirs);
    } else {
      FrontIsWritten(defs, dirs, k - 1);
      FrontGrows(defs, dirs, k - 1);
      var symbols := Distinct(SymbolsIn(defs, dirs[k - 1]));
      IndentedIsLines([], symbols);
      assert [] + symbols == symbols;
      NoLines();
      assert dirs[..k][..k - 1] == dirs[..k - 1];
      assert Sections(defs, dirs)[..k][..k - 1] == Sections(defs, dirs)[..k - 1];
      SectionIsGroup(defs, dirs[k - 1]);
    }
  }

  lemma NoLines()
    ensures Lines([]) == ""
  {
  }

  lemma SectionIsGroup(defs: seq<TagDef>, dir: string)
    ensures Group(defs, dir) == dir + "/\n" + Indented(Distinct(SymbolsIn(defs, dir))) + "\n"
  {
    hide Lines, Indented, Distinct, SymbolsIn;
    var symbols := Distinct(SymbolsIn(defs, dir));
    IndentedIsLines([], symbols);
    assert [] + symbols == symbols;
    NoLines();
  }

  lemma TrimRightTrims(text: string)
    ensures Trimmed(TrimRight(text), text)
  {
  }

  /** What FormatMap's result says. */
  lemma MapSays(defs: seq<TagDef>, maxChars: int, r: string, k: nat)
    requires defs != [] && CutAt(defs, maxChars, Distinct(Dirs(defs)), k)
    requires r == TrimRight(Front(defs, Distinct(Dirs(defs)), k))
    ensures exists dirs, sections :: MapOf(r, defs, maxChars, dirs, sections, k)
  {
    hide Distinct, Dirs, SymbolsIn, TrimRight, Front, Written, FirstDirs, FirstLines;
    var dirs := Distinct(Dirs(defs));
    var sections := Sections(defs, dirs);
    DirsAreFirst(defs);
    forall i | 0 <= i < |dirs| ensures Listed(sections[i], defs, dirs[i]) {
      LinesAreFirst(defs, dirs[i]);
    }
    forall m | 0 <= m <= |dirs| ensures Front(defs, dirs, m) == Written(dirs[..m], sections[..m]) {
      FrontIsWritten(defs, dirs, m);
    }
    TrimRightTrims(Front(defs, dirs, k));
    assert MapOf(r, defs, maxChars, dirs, sections, k);
  }

  /** And what the map without a limit says, and so each rendering that is fitted into a budget: all of it. */
  lemma RenderingSays(defs: seq<TagDef>)
    requires defs != []
    ensures exists dirs, sections :: MapOf(Rendered(defs), defs, 0, dirs, sections, |dirs|)
  {
    hide Distinct, Dirs, TrimRight, Front, Rendered, MapOf;
    var dirs := Distinct(Dirs(defs));
    WholeFront(defs);
    MapSays(defs, 0, Rendered(defs), |dirs|);
    var shown, sections :| MapOf(Rendered(defs), defs, 0, shown, sections, |dirs|);
    NothingCut(Rendered(defs), defs, shown, sections, |dirs|);
  }

  lemma NothingCut(r: string, defs: seq<TagDef>, dirs: seq<string>, sections: seq<seq<string>>, k: nat)
    requires MapOf(r, defs, 0, dirs, sections, k)
    ensures k == |dirs|
  {
  }
}
