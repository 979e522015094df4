/** Segments in memory, kept in step with their log, and rebuilt from it. */
module ExperimentStore {
  import opened ExperimentLog
  import opened Wrappers

  /** A campaign's log. */
  class LogFile {
    var lines: seq<Line>

    constructor ()
      ensures lines == []
    {
      lines := [];
    }

    /** Writes a line that decodes as given, unless it is longer than the scanner can take. */
    method AppendRecord(line: Line, fits: bool, end: Appended) returns (ok: bool)
      modifies this
      ensures ok == end.Done? && lines == old(lines) + Written(line, fits, end)
    {
      ok := end.Done?;
      if !end.Failed? {
        lines := lines + [if fits then line else TooLong];
      }
    }
  }

  /** What an append leaves in the log. */
  function Written(line: Line, fits: bool, end: Appended): seq<Line> {
    if end.Failed? then [] else [if fits then line else TooLong]
  }

  class Segment {
    const file: LogFile
    const id: string
    const campaign: string
    const originalBaseline: real
    var currentBest: real
    var cumulativeDelta: real
    var experimentCount: nat
    var keptCount: nat
    var discardedCount: nat
    var consecutiveFailures: nat
    var completedMutations: set<string>
    var pendingMutations: seq<Mutation>
    /** The list last set, what was completed then, and the records counted since. */
    ghost var given: seq<Mutation>
    ghost var completedThen: set<string>
    ghost var since: seq<Record>

    constructor (file: LogFile, id: string, campaign: string, baseline: real)
      ensures this.file == file && Current() == NewState(id, campaign, baseline)
      ensures cumulativeDelta == 0.0 && pendingMutations == given == [] && PendingTracked()
    {
      CompletedByNone();
      this.file, this.id, this.campaign, originalBaseline := file, id, campaign, baseline;
      currentBest, cumulativeDelta := baseline, 0.0;
      experimentCount, keptCount, discardedCount, consecutiveFailures := 0, 0, 0, 0;
      completedMutations, pendingMutations := {}, [];
      given, completedThen, since := [], {}, [];
    }

    ghost function Current(): State
      reads this
    {
      State(id, campaign, originalBaseline, currentBest, experimentCount, keptCount, discardedCount,
            consecutiveFailures, completedMutations)
    }

    ghost predicate CompletionTracked()
      reads this
    {
      completedMutations == completedThen + CompletedBy(since)
    }

    ghost predicate PendingTracked()
      reads this
    {
      CompletionTracked() && pendingMutations == RemoveLogged(Remaining(given, completedThen), since)
    }

    /**
     * What every call keeps: the delta, the pending list, and a log that has counted at least what memory has, and has
     * the same state when it has counted no more.
     */
    ghost predicate Valid()
      reads this, file
    {
      cumulativeDelta == currentBest - originalBaseline && PendingTracked() && NotBehind(Scan(file.lines), Current())
    }

    /** A replay of the log would rebuild what is in memory. */
    ghost predicate InStep()
      reads this, file
    {
      Scan(file.lines) == Open(Current())
    }

    /** Counts one record; the loader does the same for each record it reads. */
    method Count(rec: Record)
      requires CompletionTracked()
      modifies this
      ensures Current() == Logged(old(Current()), rec) && CompletionTracked()
      ensures cumulativeDelta == old(cumulativeDelta) && pendingMutations == old(pendingMutations)
      ensures given == old(given) && completedThen == old(completedThen) && since == old(since) + [rec]
    {
      hide CompletedBy;
      OneMoreCompleted(since, rec);
      since := since + [rec];
      experimentCount := experimentCount + 1;
      CountDecision(rec);
      if rec.mutationId != "" {
        completedMutations := completedMutations + {rec.mutationId};
      }
    }

    method CountDecision(rec: Record)
      modifies this`keptCount, this`currentBest, this`discardedCount, this`consecutiveFailures
      ensures keptCount == old(keptCount) + if rec.decision == "keep" then 1 else 0
      ensures discardedCount == old(discardedCount) + if rec.decision == "discard" then 1 else 0
      ensures currentBest == if rec.decision == "keep" then rec.metricAfter else old(currentBest)
      ensures consecutiveFailures == if rec.decision == "keep" then 0 else old(consecutiveFailures) + 1
    {
      if rec.decision == "keep" {
        keptCount := keptCount + 1;
        currentBest := rec.metricAfter;
        consecutiveFailures := 0;
      } else if rec.decision == "discard" {
        discardedCount := discardedCount + 1;
        consecutiveFailures := consecutiveFailures + 1;
      } else {
        consecutiveFailures := consecutiveFailures + 1;
      }
    }

    /**
     * Writes the record, then counts it, unless the write reports an error. Memory and log stay in step exactly when
     * the record is written, synced and can be scanned, or nothing is written; a record that is only not synced puts
     * the log one record ahead, and one that is too long breaks it.
     */
    method LogExperiment(rec: Record, fits: bool, end: Appended) returns (ok: bool)
      requires Valid()
      modifies this, file
      ensures Valid() && ok == end.Done? && file.lines == old(file.lines) + Written(ExperimentLine(rec), fits, end)
      ensures Current() == if ok then Logged(old(Current()), rec) else old(Current())
      ensures pendingMutations == if ok then RemoveLogged(old(pendingMutations), [rec]) else old(pendingMutations)
      ensures InStep() <==> old(InStep()) && (end.Failed? || (end.Done? && fits))
      ensures old(InStep()) && end.NotSynced? && fits ==> Scan(file.lines) == Open(Logged(Current(), rec))
      ensures old(InStep()) && !end.Failed? && !fits ==> Scan(file.lines).Broken?
    {
      hide CompletedBy, Scan, RemoveLogged, RemoveFirst, Remaining, Logged;
      ghost var scanned, now := Scan(file.lines), Current();
      ScanWritten(file.lines, ExperimentLine(rec), fits, end);
      ScansRecord(scanned, now, rec);
      ok := file.AppendRecord(ExperimentLine(rec), fits, end);
      if !ok {
        return;
      }
      Count(rec);
      cumulativeDelta := currentBest - originalBaseline;
      RemoveOneLogged(old(pendingMutations), rec);
      RemoveOneMore(Remaining(given, completedThen), old(since), rec);
      if rec.mutationId != "" {
        Remove(rec.mutationId);
      }
    }

    method Remove(mutationId: string)
      modifies this`pendingMutations
      ensures pendingMutations == RemoveFirst(old(pendingMutations), mutationId)
    {
      var i := 0;
      while i < |pendingMutations|
        invariant 0 <= i <= |pendingMutations| && pendingMutations == old(pendingMutations)
        invariant forall j :: 0 <= j < i ==> pendingMutations[j].id != mutationId
      {
        if pendingMutations[i].id == mutationId {
          RemovedAt(pendingMutations, mutationId, i);
          pendingMutations := pendingMutations[..i] + pendingMutations[i + 1..];
          return;
        }
        i := i + 1;
      }
      NotRemoved(pendingMutations, mutationId);
    }

    method SetPendingMutations(all: seq<Mutation>)
      requires Valid()
      modifies this`pendingMutations, this`given, this`completedThen, this`since
      ensures Valid() && (InStep() <==> old(InStep())) && pendingMutations == Remaining(all, completedMutations)
      ensures given == all && completedThen == completedMutations && since == []
    {
      hide CompletedBy, Scan;
      pendingMutations := [];
      var i := 0;
      while i < |all|
        invariant 0 <= i <= |all| && pendingMutations == Remaining(all[..i], completedMutations)
      {
        assert all[..i + 1][..i] == all[..i];
        if all[i].id !in completedMutations {
          pendingMutations := pendingMutations + [all[i]];
        }
        i := i + 1;
      }
      assert all[..i] == all;
      CompletedByNone();
      given, completedThen, since := all, completedMutations, [];
    }

    /**
     * Nothing more to try means that every mutation given is completed; and what to try next is the first one given
     * that is not, as long as repeated names were logged often enough.
     */
    method NextMutation() returns (m: Option<Mutation>)
      requires PendingTracked()
      ensures m == if pendingMutations == [] then None else Some(pendingMutations[0])
      ensures m.None? ==> forall i :: 0 <= i < |given| ==> given[i].id in completedMutations
      ensures LoggedOftenEnough(Remaining(given, completedThen), since) ==>
                if m.None? then forall i :: 0 <= i < |given| ==> given[i].id in completedMutations
                else IsFirstOpen(m.value, given, completedMutations)
    {
      hide CompletedBy, RemoveLogged, Remaining, LoggedOftenEnough;
      LiveKeepsOpen(given, completedThen, since);
      PendingSurvivesReplayExactlyWhen(given, completedThen, since);
      FirstOpen(given, completedMutations);
      if |pendingMutations| == 0 {
        return None;
      }
      return Some(pendingMutations[0]);
    }

    /** Writes a summary; the segment stays usable, but once it is written its log never loads again. */
    method Close(fits: bool, end: Appended) returns (ok: bool)
      requires Valid()
      modifies file
      ensures Valid() && ok == end.Done? && file.lines == old(file.lines) + Written(SummaryLine, fits, end)
      ensures end.Failed? ==> (InStep() <==> old(InStep()))
      ensures !end.Failed? ==> Scan(file.lines).Closed? || Scan(file.lines).Broken?
      ensures !end.Failed? && old(InStep()) ==> Scan(file.lines) == if fits then Closed else Broken
    {
      hide CompletedBy, RemoveLogged, Remaining;
      ScanWritten(file.lines, SummaryLine, fits, end);
      ok := file.AppendRecord(SummaryLine, fits, end);
    }
  }

  /** The log has counted at least as many records as memory; if no more, it has the same state. */
  ghost predicate NotBehind(scanned: Scanned, now: State) {
    scanned.Open? ==> scanned.state.count >= now.count && (scanned.state.count == now.count ==> scanned.state == now)
  }

  lemma ScanWritten(lines: seq<Line>, line: Line, fits: bool, end: Appended)
    ensures Scan(lines + Written(line, fits, end))
         == if end.Failed? then Scan(lines) else ScanLine(Scan(lines), if fits then line else TooLong)
  {
    ScanOneMore(lines, if fits then line else TooLong);
    assert lines + [] == lines;
  }

  /** A record read by a log that is not behind, and counted in memory or not. */
  lemma ScansRecord(scanned: Scanned, now: State, rec: Record)
    requires NotBehind(scanned, now)
    ensures var next := ScanLine(scanned, ExperimentLine(rec));
            NotBehind(next, now) && next != Open(now)
            && NotBehind(next, Logged(now, rec)) && (next == Open(Logged(now, rec)) <==> scanned == Open(now))
  {
  }

  /**
   * After any calls that keep a segment in step: setting the same list on what a replay rebuilds gives the live list
   * exactly when every repeated name was logged often enough.
   */
  lemma PendingMatchesReplayExactlyWhen(seg: Segment, replayed: State)
    requires seg.Valid() && seg.InStep() && Scan(seg.file.lines) == Open(replayed)
    ensures seg.pendingMutations == Remaining(seg.given, replayed.completed)
            <==> LoggedOftenEnough(Remaining(seg.given, seg.completedThen), seg.since)
  {
    PendingSurvivesReplayExactlyWhen(seg.given, seg.completedThen, seg.since);
  }

  predicate IsFirstOpen(m: Mutation, all: seq<Mutation>, completed: set<string>) {
    m.id !in completed
    && exists i :: 0 <= i < |all| && all[i] == m && forall j :: 0 <= j < i ==> all[j].id in completed
  }

  /** The filtered list begins with the first mutation not completed. */
  lemma {:induction false} FirstOpen(all: seq<Mutation>, completed: set<string>)
    ensures var open := Remaining(all, completed);
            if open == [] then forall i :: 0 <= i < |all| ==> all[i].id in completed
            else IsFirstOpen(open[0], all, completed)
  {
    if all != [] {
      var m := |all| - 1;
      FirstOpen(all[..m], completed);
      var before := Remaining(all[..m], completed);
      if before != [] {
        var i :| 0 <= i < m && all[..m][i] == before[0] && forall j :: 0 <= j < i ==> all[..m][j].id in completed;
        assert all[i] == before[0] && forall j :: 0 <= j < i ==> all[j].id == all[..m][j].id;
      } else {
        assert forall j :: 0 <= j < m ==> all[j].id == all[..m][j].id;
      }
    }
  }

  /** An empty live list leaves nothing for a replay to filter. */
  lemma LiveKeepsOpen(all: seq<Mutation>, completed: set<string>, recs: seq<Record>)
    ensures RemoveLogged(Remaining(all, completed), recs) == [] ==> Remaining(all, completed + CompletedBy(recs)) == []
  {
    FilterTwice(all, completed, CompletedBy(recs));
    LiveList(Remaining(all, completed), recs, CompletedBy(recs));
    assert Remaining([], CompletedBy(recs)) == [];
  }

  lemma CompletedByNone()
    ensures CompletedBy([]) == {}
  {
  }

  lemma OneMoreCompleted(recs: seq<Record>, rec: Record)
    ensures CompletedBy(recs + [rec]) == CompletedBy(recs) + if rec.mutationId == "" then {} else {rec.mutationId}
  {
    CompletedGrowsBy(recs + [rec]);
    assert (recs + [rec])[..|recs|] == recs;
  }

  lemma RemoveOneMore(pending: seq<Mutation>, recs: seq<Record>, rec: Record)
    ensures RemoveLogged(pending, recs + [rec]) == RemoveLogged(RemoveLogged(pending, recs), [rec])
  {
    RemoveOneLogged(RemoveLogged(pending, recs), rec);
    assert (recs + [rec])[..|recs|] == recs;
  }

  lemma {:induction false} NothingPending(recs: seq<Record>)
    ensures RemoveLogged([], recs) == []
  {
    if recs != [] {
      NothingPending(recs[..|recs| - 1]);
    }
  }

  lemma RemoveOneLogged(pending: seq<Mutation>, rec: Record)
    ensures RemoveLogged(pending, [rec])
         == if rec.mutationId == "" then pending else RemoveFirst(pending, rec.mutationId)
  {
    assert [rec][..0] == [];
  }

  lemma {:induction false} RemovedAt(pending: seq<Mutation>, id: string, i: nat)
    requires i < |pending| && pending[i].id == id && forall j :: 0 <= j < i ==> pending[j].id != id
    ensures RemoveFirst(pending, id) == pending[..i] + pending[i + 1..]
    decreases i
  {
    if i > 0 {
      var rest := pending[1..];
      RemovedAt(rest, id, i - 1);
      assert RemoveFirst(pending, id) == [pending[0]] + RemoveFirst(rest, id);
      hide RemoveFirst;
      CutLater(pending, i);
    }
  }

  lemma CutLater<T>(p: seq<T>, i: nat)
    requires 0 < i < |p|
    ensures [p[0]] + (p[1..][..i - 1] + p[1..][i - 1 + 1..]) == p[..i] + p[i + 1..]
  {
    var l, r := [p[0]] + (p[1..][..i - 1] + p[1..][i - 1 + 1..]), p[..i] + p[i + 1..];
    assert |l| == |r|;
    forall k | 0 <= k < |r| ensures l[k] == r[k] {
    }
  }

  lemma {:induction false} NotRemoved(pending: seq<Mutation>, id: string)
    requires forall j :: 0 <= j < |pending| ==> pending[j].id != id
    ensures RemoveFirst(pending, id) == pending
  {
    if pending != [] {
      NotRemoved(pending[1..], id);
    }
  }

  datatype LoadError = NotOpened | SegmentClosed | ScanFailed | NoSegment

  /** Rebuilds the last segment, line by line. */
  method LoadSegment(file: LogFile, opens: bool) returns (r: Result<Segment, LoadError>)
    ensures !opens ==> r == Err(NotOpened)
    ensures opens ==> match Scan(file.lines)
                      case Closed => r == Err(SegmentClosed)
                      case Broken => r == Err(ScanFailed)
                      case Nothing => r == Err(NoSegment)
                      case Open(_) => r.Ok?
    ensures r.Ok? ==> fresh(r.value) && r.value.file == file && r.value.Valid() && r.value.InStep()
                      && r.value.pendingMutations == []
  {
    if !opens {
      return Err(NotOpened);
    }
    var seg: Segment? := null;
    var i := 0;
    while i < |file.lines|
      invariant 0 <= i <= |file.lines|
      invariant seg == null ==> Scan(file.lines[..i]) == Nothing
      invariant seg != null ==> fresh(seg) && seg.file == file && seg.pendingMutations == seg.given == []
                                && seg.CompletionTracked() && Scan(file.lines[..i]) == Open(seg.Current())
    {
      var line := file.lines[i];
      assert file.lines[..i + 1] == file.lines[..i] + [line];
      ScanOneMore(file.lines[..i], line);
      match line {
        case SegmentLine(id, campaign, baseline) =>
          seg := new Segment(file, id, campaign, baseline);
        case ExperimentLine(rec) =>
          if seg != null {
            seg.Count(rec);
          }
        case SummaryLine =>
          StoppedAt(file.lines, i);
          return Err(SegmentClosed);
        case TooLong =>
          StoppedAt(file.lines, i);
          return Err(ScanFailed);
        case _ =>
      }
      i := i + 1;
    }
    assert file.lines[..i] == file.lines;
    if seg == null {
      return Err(NoSegment);
    }
    seg.cumulativeDelta := seg.currentBest - seg.originalBaseline;
    NothingPending(seg.since);
    return Ok(seg);
  }

  lemma {:induction false} StoppedAt(lines: seq<Line>, i: nat)
    requires i < |lines| && Stops(lines[i]) && (Scan(lines[..i]).Nothing? || Scan(lines[..i]).Open?)
    ensures Scan(lines) == if lines[i].SummaryLine? then Closed else Broken
  {
    if i < |lines| - 1 {
      assert lines[..|lines| - 1][..i] == lines[..i];
      StoppedAt(lines[..|lines| - 1], i);
    }
  }

  /** Resumes the last segment, or starts one when none can be loaded, for whatever reason. */
  method OpenSegment(file: LogFile, id: string, campaign: string, baseline: real, opens: bool, fits: bool,
                     end: Appended)
    returns (seg: Segment?, resumed: bool)
    modifies file
    ensures resumed <==> opens && old(Scan(file.lines)).Open?
    ensures seg == null <==> !resumed && !end.Done?
    ensures seg != null ==> fresh(seg) && seg.file == file && seg.Valid() && seg.pendingMutations == []
    ensures file.lines
         == old(file.lines) + if resumed then [] else Written(SegmentLine(id, campaign, baseline), fits, end)
    ensures resumed ==> seg.InStep()
    ensures seg != null && !resumed ==> seg.Current() == NewState(id, campaign, baseline)
    ensures seg != null && !resumed ==>
              (seg.InStep() <==> fits && !old(Scan(file.lines)).Closed? && !old(Scan(file.lines)).Broken?)
  {
    var loaded := LoadSegment(file, opens);
    if loaded.Ok? {
      return loaded.value, true;
    }
    resumed := false;
    seg := null;
    var line := SegmentLine(id, campaign, baseline);
    ScanWritten(file.lines, line, fits, end);
    var ok := file.AppendRecord(line, fits, end);
    if ok {
      seg := new Segment(file, id, campaign, baseline);
    }
  }
}
