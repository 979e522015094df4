/** The experiment log and the segment it rebuilds: what replaying the lines gives, however either is computed. */
module ExperimentLog {
  /** What a segment takes from a record; the other fields are written and never read back. */
  datatype Record = Record(decision: string, metricAfter: real, mutationId: string)

  /**
   * One complete line. BadSegment and BadExperiment name their type but do not decode as it; TooLong is any line that
   * is longer than the scanner can take, and ends the scan.
   */
  datatype Line =
    | TooLong
    | Blank
    | Malformed
    | BadSegment
    | BadExperiment
    | Other
    | SegmentLine(id: string, campaign: string, baseline: real)
    | ExperimentLine(rec: Record)
    | SummaryLine

  datatype State = State(id: string, campaign: string, baseline: real, best: real, count: nat, kept: nat,
                         discarded: nat, failures: nat, completed: set<string>)

  datatype Scanned = Closed | Broken | Nothing | Open(state: State)

  function NewState(id: string, campaign: string, baseline: real): State {
    State(id, campaign, baseline, baseline, 0, 0, 0, 0, {})
  }

  function Logged(s: State, rec: Record): State {
    var counted := s.(count := s.count + 1,
                      completed := if rec.mutationId == "" then s.completed else s.completed + {rec.mutationId});
    if rec.decision == "keep" then counted.(kept := s.kept + 1, best := rec.metricAfter, failures := 0)
    else if rec.decision == "discard" then counted.(discarded := s.discarded + 1, failures := s.failures + 1)
    else counted.(failures := s.failures + 1)
  }

  function ScanLine(s: Scanned, line: Line): Scanned {
    if s.Closed? || s.Broken? then s
    else
      match line
      case SummaryLine => Closed
      case TooLong => Broken
      case SegmentLine(id, campaign, baseline) => Open(NewState(id, campaign, baseline))
      case ExperimentLine(rec) => if s.Open? then Open(Logged(s.state, rec)) else s
      case _ => s
  }

  function Scan(lines: seq<Line>): Scanned {
    if lines == [] then Nothing else ScanLine(Scan(lines[..|lines| - 1]), lines[|lines| - 1])
  }

  lemma ScanOneMore(lines: seq<Line>, line: Line)
    ensures Scan(lines + [line]) == ScanLine(Scan(lines), line)
  {
    assert (lines + [line])[..|lines|] == lines;
  }

  // ---- what a replayed state says

  /** The records since the last segment line. */
  function Since(lines: seq<Line>): seq<Record> {
    if lines == [] then []
    else
      var before, line := Since(lines[..|lines| - 1]), lines[|lines| - 1];
      if line.SegmentLine? then [] else if line.ExperimentLine? then before + [line.rec] else before
  }

  /** The positions decided that way. */
  function Decided(recs: seq<Record>, decision: string): set<nat> {
    set i | 0 <= i < |recs| && recs[i].decision == decision
  }

  /** How often records kept and discarded, the run of failures at the end, and the best value, set by the last keep. */
  ghost predicate Describes(s: State, recs: seq<Record>) {
    s.count == |recs| && s.kept == |Decided(recs, "keep")|
    && s.discarded == |Decided(recs, "discard")|
    && s.failures <= |recs|
    && (forall i :: |recs| - s.failures <= i < |recs| ==> recs[i].decision != "keep")
    && (if s.failures == |recs| then s.best == s.baseline
        else var last := recs[|recs| - s.failures - 1]; last.decision == "keep" && s.best == last.metricAfter)
    && (forall m :: m in s.completed <==> m != "" && exists i :: 0 <= i < |recs| && recs[i].mutationId == m)
  }

  lemma LoggedDescribes(s: State, recs: seq<Record>, rec: Record)
    requires Describes(s, recs)
    ensures Describes(Logged(s, rec), recs + [rec])
  {
    hide Decided;
    CountGrows(recs, rec, "keep");
    CountGrows(recs, rec, "discard");
    CompletedGrows(s, recs, rec);
  }

  lemma CountGrows(recs: seq<Record>, rec: Record, decision: string)
    ensures |Decided(recs + [rec], decision)| == |Decided(recs, decision)| + if rec.decision == decision then 1 else 0
  {
    var more, n := recs + [rec], |recs|;
    assert Decided(more, decision) == Decided(recs, decision) + (if rec.decision == decision then {n} else {});
  }

  lemma CompletedGrows(s: State, recs: seq<Record>, rec: Record)
    requires Describes(s, recs)
    ensures forall m :: m in Logged(s, rec).completed <==>
              m != "" && exists i :: 0 <= i < |recs + [rec]| && (recs + [rec])[i].mutationId == m
  {
    var more := recs + [rec];
    assert more[|recs|] == rec;
    forall m | m in s.completed ensures exists i :: 0 <= i < |more| && more[i].mutationId == m {
      var i :| 0 <= i < |recs| && recs[i].mutationId == m;
      assert more[i] == recs[i];
    }
  }

  /** A line after which nothing is read. */
  predicate Stops(line: Line) {
    line.SummaryLine? || line.TooLong?
  }

  predicate FirstStop(lines: seq<Line>, i: int) {
    0 <= i < |lines| && Stops(lines[i]) && forall j :: 0 <= j < i ==> !Stops(lines[j])
  }

  /**
   * The log loads unless it holds a summary, a line that is too long or no segment, and the first of the former two
   * says which; what it loads describes the records since the last segment.
   */
  lemma {:induction false} ReplayMeans(lines: seq<Line>)
    ensures Scan(lines).Closed? || Scan(lines).Broken? <==> exists line :: line in lines && Stops(line)
    ensures forall i :: FirstStop(lines, i) ==> Scan(lines) == if lines[i].SummaryLine? then Closed else Broken
    ensures Scan(lines).Nothing? ==> forall line :: line in lines ==> !line.SegmentLine?
    ensures Scan(lines).Open? ==> Describes(Scan(lines).state, Since(lines))
    ensures Scan(lines).Open? ==> exists i :: 0 <= i < |lines| && Opens(lines, i, Scan(lines).state)
  {
    hide Describes;
    if lines != [] {
      var m := |lines| - 1;
      var front, line := lines[..m], lines[m];
      assert lines == front + [line];
      ReplayMeans(front);
      forall i | FirstStop(lines, i) ensures Scan(lines) == if lines[i].SummaryLine? then Closed else Broken {
        if i < m {
          assert FirstStop(front, i);
        } else {
          NoStop(front);
        }
      }
      if line.SegmentLine? {
        NothingLogged(line.id, line.campaign, line.baseline);
        if Scan(lines).Open? {
          assert Opens(lines, m, Scan(lines).state);
        }
      } else if Scan(lines).Open? {
        if line.ExperimentLine? {
          LoggedDescribes(Scan(front).state, Since(front), line.rec);
        }
        var i :| 0 <= i < |front| && Opens(front, i, Scan(front).state);
        assert Opens(lines, i, Scan(lines).state);
      }
    }
  }

  lemma {:induction false} NoStop(lines: seq<Line>)
    requires forall j :: 0 <= j < |lines| ==> !Stops(lines[j])
    ensures Scan(lines).Nothing? || Scan(lines).Open?
  {
    if lines != [] {
      NoStop(lines[..|lines| - 1]);
    }
  }

  /** The state's name and baseline come from the last segment line. */
  ghost predicate Opens(lines: seq<Line>, i: int, s: State)
    requires 0 <= i < |lines|
  {
    lines[i] == SegmentLine(s.id, s.campaign, s.baseline) && forall j :: i < j < |lines| ==> !lines[j].SegmentLine?
  }

  lemma NothingLogged(id: string, campaign: string, baseline: real)
    ensures Describes(NewState(id, campaign, baseline), [])
  {
    assert Decided([], "keep") == {} && Decided([], "discard") == {};
  }

  predicate IsNoise(line: Line) {
    !line.SegmentLine? && !line.ExperimentLine? && !Stops(line)
  }

  /** Lines that do not decode change nothing, wherever they stand. */
  lemma {:induction false} NoiseChangesNothing(a: seq<Line>, noise: Line, b: seq<Line>)
    requires IsNoise(noise)
    ensures Scan(a + [noise] + b) == Scan(a + b)
    decreases |b|
  {
    if b == [] {
      ScanOneMore(a, noise);
      assert a + [noise] + b == a + [noise] && a + b == a;
    } else {
      var m := |b| - 1;
      NoiseChangesNothing(a, noise, b[..m]);
      ScanOneMore(a + [noise] + b[..m], b[m]);
      ScanOneMore(a + b[..m], b[m]);
      assert a + [noise] + b == (a + [noise] + b[..m]) + [b[m]];
      assert a + b == (a + b[..m]) + [b[m]];
    }
  }

  /** Once a summary or a line that is too long is in the log no later segment can be loaded again. */
  lemma StopsForGood(a: seq<Line>, stop: Line, b: seq<Line>)
    requires Stops(stop)
    ensures Scan(a + [stop] + b).Closed? || Scan(a + [stop] + b).Broken?
  {
    ReplayMeans(a + [stop] + b);
    assert (a + [stop] + b)[|a|] == stop;
  }

  // ---- pending mutations

  datatype Mutation = Mutation(id: string, description: string)

  function Remaining(all: seq<Mutation>, completed: set<string>): seq<Mutation> {
    if all == [] then []
    else
      var m := all[|all| - 1];
      Remaining(all[..|all| - 1], completed) + if m.id in completed then [] else [m]
  }

  /** Without the first mutation of that name. */
  function RemoveFirst(pending: seq<Mutation>, id: string): seq<Mutation> {
    if pending == [] then []
    else if pending[0].id == id then pending[1..]
    else [pending[0]] + RemoveFirst(pending[1..], id)
  }

  function RemoveLogged(pending: seq<Mutation>, recs: seq<Record>): seq<Mutation> {
    if recs == [] then pending
    else
      var rest, rec := RemoveLogged(pending, recs[..|recs| - 1]), recs[|recs| - 1];
      if rec.mutationId == "" then rest else RemoveFirst(rest, rec.mutationId)
  }

  function CompletedBy(recs: seq<Record>): set<string> {
    set i | 0 <= i < |recs| && recs[i].mutationId != "" :: recs[i].mutationId
  }

  function Named(all: seq<Mutation>, id: string): nat {
    if all == [] then 0 else Named(all[1..], id) + if all[0].id == id then 1 else 0
  }

  function TimesLogged(recs: seq<Record>, id: string): nat {
    if recs == [] then 0
    else TimesLogged(recs[..|recs| - 1], id) + if recs[|recs| - 1].mutationId == id then 1 else 0
  }

  lemma {:induction false} RemainingSplits(a: seq<Mutation>, b: seq<Mutation>, completed: set<string>)
    ensures Remaining(a + b, completed) == Remaining(a, completed) + Remaining(b, completed)
  {
    if b == [] {
      assert a + b == a;
    } else {
      var m := |b| - 1;
      RemainingSplits(a, b[..m], completed);
      assert (a + b)[..|a| + m] == a + b[..m];
    }
  }

  lemma RemainingOne(m: Mutation, completed: set<string>)
    ensures Remaining([m], completed) == if m.id in completed then [] else [m]
  {
    assert [m][..0] == [];
  }

  lemma {:induction false} RemovedAnyway(pending: seq<Mutation>, id: string, completed: set<string>)
    requires id in completed
    ensures Remaining(RemoveFirst(pending, id), completed) == Remaining(pending, completed)
  {
    if pending != [] {
      var m, rest := pending[0], pending[1..];
      assert pending == [m] + rest;
      RemainingSplits([m], rest, completed);
      RemainingOne(m, completed);
      if m.id != id {
        RemovedAnyway(rest, id, completed);
        RemainingSplits([m], RemoveFirst(rest, id), completed);
      }
    }
  }

  lemma {:induction false} NamedAfterRemoval(pending: seq<Mutation>, id: string, other: string)
    ensures Named(RemoveFirst(pending, id), other)
         == if other == id && Named(pending, id) > 0 then Named(pending, id) - 1 else Named(pending, other)
  {
    if pending != [] && pending[0].id != id {
      NamedAfterRemoval(pending[1..], id, other);
      var r := RemoveFirst(pending, id);
      assert r[1..] == RemoveFirst(pending[1..], id);
    }
  }

  /** What is left live, name by name; and filtering it by what was completed gives the filtered list. */
  lemma {:induction false} LiveList(all: seq<Mutation>, recs: seq<Record>, completed: set<string>)
    requires CompletedBy(recs) <= completed
    ensures Remaining(RemoveLogged(all, recs), completed) == Remaining(all, completed)
    ensures forall id :: id != "" ==>
              Named(RemoveLogged(all, recs), id)
              == if Named(all, id) <= TimesLogged(recs, id) then 0 else Named(all, id) - TimesLogged(recs, id)
    decreases |recs|
  {
    if recs != [] {
      var m := |recs| - 1;
      var front, rec := recs[..m], recs[m];
      CompletedGrowsBy(recs);
      LiveList(all, front, completed);
      if rec.mutationId != "" {
        RemovedAnyway(RemoveLogged(all, front), rec.mutationId, completed);
        forall id | id != "" ensures Named(RemoveLogged(all, recs), id)
              == if Named(all, id) <= TimesLogged(recs, id) then 0 else Named(all, id) - TimesLogged(recs, id)
        {
          NamedAfterRemoval(RemoveLogged(all, front), rec.mutationId, id);
        }
      }
    }
  }

  lemma CompletedGrowsBy(recs: seq<Record>)
    requires recs != []
    ensures var m := |recs| - 1;
            CompletedBy(recs) == CompletedBy(recs[..m]) + if recs[m].mutationId == "" then {} else {recs[m].mutationId}
  {
    var m := |recs| - 1;
    var front := recs[..m];
    assert forall i :: 0 <= i < m ==> front[i] == recs[i];
  }

  lemma {:induction false} NamedInRemaining(all: seq<Mutation>, completed: set<string>, id: string)
    ensures Named(Remaining(all, completed), id) == if id in completed then 0 else Named(all, id)
  {
    if all != [] {
      var m := |all| - 1;
      NamedInRemaining(all[..m], completed, id);
      assert all == all[..m] + [all[m]];
      NamedSplits(all[..m], [all[m]], id);
      NamedSplits(Remaining(all[..m], completed), if all[m].id in completed then [] else [all[m]], id);
    }
  }

  lemma {:induction false} NamedSplits(a: seq<Mutation>, b: seq<Mutation>, id: string)
    ensures Named(a + b, id) == Named(a, id) + Named(b, id)
  {
    if a == [] {
      assert a + b == b;
    } else {
      NamedSplits(a[1..], b, id);
      assert (a + b)[1..] == a[1..] + b;
    }
  }

  lemma {:induction false} NothingToFilter(pending: seq<Mutation>, completed: set<string>)
    requires forall id :: id in completed ==> Named(pending, id) == 0
    ensures Remaining(pending, completed) == pending
  {
    if pending != [] {
      var m := |pending| - 1;
      assert pending == pending[..m] + [pending[m]];
      forall id | id in completed ensures Named(pending[..m], id) == 0 && pending[m].id != id {
        NamedSplits(pending[..m], [pending[m]], id);
      }
      NothingToFilter(pending[..m], completed);
    }
  }

  /** Every logged mutation was logged at least as often as the list names it. */
  ghost predicate LoggedOftenEnough(all: seq<Mutation>, recs: seq<Record>) {
    forall id :: id in CompletedBy(recs) ==> Named(all, id) <= TimesLogged(recs, id)
  }

  lemma CompletedIsNamed(recs: seq<Record>, id: string)
    requires id in CompletedBy(recs)
    ensures id != ""
  {
  }

  lemma {:induction false} FilterTwice(all: seq<Mutation>, a: set<string>, b: set<string>)
    ensures Remaining(Remaining(all, a), b) == Remaining(all, a + b)
  {
    if all != [] {
      var m := all[|all| - 1];
      var front := Remaining(all[..|all| - 1], a);
      FilterTwice(all[..|all| - 1], a, b);
      RemainingSplits(front, if m.id in a then [] else [m], b);
      RemainingOne(m, b);
    }
  }

  /**
   * The list set when some mutations were completed, and shortened record by record, is the one a replay would filter
   * exactly when repeated names were logged often enough.
   */
  lemma PendingSurvivesReplayExactlyWhen(all: seq<Mutation>, completed: set<string>, recs: seq<Record>)
    ensures RemoveLogged(Remaining(all, completed), recs) == Remaining(all, completed + CompletedBy(recs))
            <==> LoggedOftenEnough(Remaining(all, completed), recs)
  {
    var pending, logged := Remaining(all, completed), CompletedBy(recs);
    var live := RemoveLogged(pending, recs);
    FilterTwice(all, completed, logged);
    LiveList(pending, recs, logged);
    forall id | id in logged ensures id != "" && Named(Remaining(pending, logged), id) == 0 {
      CompletedIsNamed(recs, id);
      NamedInRemaining(pending, logged, id);
    }
    if LoggedOftenEnough(pending, recs) {
      NothingToFilter(live, logged);
    }
  }

  /** In particular when no name is repeated. */
  lemma UniqueNamesSurviveReplay(all: seq<Mutation>, completed: set<string>, recs: seq<Record>)
    requires forall id :: Named(all, id) <= 1
    ensures RemoveLogged(Remaining(all, completed), recs) == Remaining(all, completed + CompletedBy(recs))
  {
    forall id | id in CompletedBy(recs) ensures Named(Remaining(all, completed), id) <= TimesLogged(recs, id) {
      NamedInRemaining(all, completed, id);
      var i :| 0 <= i < |recs| && recs[i].mutationId == id;
      LoggedAt(recs, i);
    }
    PendingSurvivesReplayExactlyWhen(all, completed, recs);
  }

  lemma {:induction false} LoggedAt(recs: seq<Record>, i: nat)
    requires i < |recs|
    ensures TimesLogged(recs, recs[i].mutationId) >= 1
    decreases |recs|
  {
    if i < |recs| - 1 {
      LoggedAt(recs[..|recs| - 1], i);
    }
  }
}
