/** A conversation kept within bounds in memory while every turn goes to a log, and rebuilt from that log. */
module SessionHistory {
  import opened Messages
  import opened Wrappers

  /**
   * Skipped stands for an empty line, one that does not decode, or a record that is not a turn. A line that does not
   * fit is longer than the scanner can take, and ends the scan.
   */
  datatype Line = TurnLine(messages: seq<Message>, fits: bool) | Skipped(fits: bool)

  /** The first message and the most recent ones, at most max of them. */
  function Truncated(msgs: seq<Message>, max: nat): (r: seq<Message>)
    requires max > 0
    ensures |r| == (if |msgs| <= max then |msgs| else max) && (|msgs| <= max ==> r == msgs) && (msgs != [] ==> r != [] && r[0] == msgs[0])
    ensures forall i :: 0 < i < |r| ==> r[i] == msgs[|msgs| - |r| + i]
  {
    if |msgs| <= max then msgs else [msgs[0]] + msgs[|msgs| - (max - 1)..]
  }

  function Replay(lines: seq<Line>): seq<Message> {
    if lines == [] then []
    else
      var line := lines[|lines| - 1];
      Replay(lines[..|lines| - 1]) + if line.TurnLine? then line.messages else []
  }

  predicate AllFit(lines: seq<Line>) {
    forall i :: 0 <= i < |lines| ==> lines[i].fits
  }

  /** The lines before the first one that does not fit. */
  function Readable(lines: seq<Line>): (r: seq<Line>)
    ensures r <= lines && AllFit(r) && (|r| < |lines| ==> !lines[|r|].fits) && (AllFit(lines) <==> r == lines)
  {
    if lines == [] || !lines[0].fits then [] else [lines[0]] + Readable(lines[1..])
  }

  /** Truncating before an append does not show after truncating again. */
  lemma TruncateOnceIsEnough(a: seq<Message>, b: seq<Message>, max: nat)
    requires max > 0
    ensures Truncated(Truncated(a, max) + b, max) == Truncated(a + b, max)
  {
    if |a| > max && b != [] {
      var t := Truncated(a, max);
      var l, r := Truncated(t + b, max), Truncated(a + b, max);
      assert |t| == max && |l| == |r| == max;
      forall i | 0 <= i < max ensures l[i] == r[i] {
        if i > 0 {
          var fromEnd := max - i;
          assert l[i] == (t + b)[|t + b| - fromEnd];
          assert r[i] == (a + b)[|a + b| - fromEnd];
        }
      }
    } else if |a| > max {
      assert Truncated(a, max) + b == Truncated(a, max) && a + b == a;
    }
  }

  function Flat(turns: seq<seq<Message>>): seq<Message> {
    if turns == [] then [] else Flat(turns[..|turns| - 1]) + turns[|turns| - 1]
  }

  /** Saving turn after turn, truncating each time. */
  function SavedAll(start: seq<Message>, turns: seq<seq<Message>>, max: nat): seq<Message>
    requires max > 0
  {
    if turns == [] then start
    else Truncated(SavedAll(start, turns[..|turns| - 1], max) + turns[|turns| - 1], max)
  }

  /** For every run of saves the history is that of one truncation at the end. */
  lemma {:induction false} SavesTruncateOnce(start: seq<Message>, turns: seq<seq<Message>>, max: nat)
    requires max > 0 && |start| <= max
    ensures SavedAll(start, turns, max) == Truncated(start + Flat(turns), max)
  {
    if turns == [] {
      assert start + [] == start;
    } else {
      var m := |turns| - 1;
      var before := start + Flat(turns[..m]);
      SavesTruncateOnce(start, turns[..m], max);
      TruncateOnceIsEnough(before, turns[m], max);
      assert start + Flat(turns) == before + turns[m];
    }
  }

  class SessionFile {
    var present: bool
    var lines: seq<Line>

    constructor ()
      ensures !present && lines == []
    {
      present, lines := false, [];
    }

    /** A failed append can still have made the file. */
    method AppendRecord(line: Line, end: Appended) returns (ok: bool)
      modifies this
      ensures ok == end.Done? && (old(present) ==> present)
      ensures if end.Failed? then lines == old(lines) else present && lines == old(lines) + [line]
    {
      ok := end.Done?;
      var made: bool := *;
      present := present || made || !end.Failed?;
      if !end.Failed? {
        lines := lines + [line];
      }
    }
  }

  class JsonlSession {
    const file: SessionFile
    const maxTurns: nat
    var messages: seq<Message>

    constructor (file: SessionFile, maxTurns: nat)
      ensures this.file == file && this.maxTurns == maxTurns && messages == []
    {
      this.file, this.maxTurns, messages := file, maxTurns, [];
    }

    /** The log loads, and in memory is what that would give. */
    ghost predicate InStep()
      requires maxTurns > 0
      reads this, file
    {
      (!file.present ==> file.lines == []) && AllFit(file.lines)
      && messages == Truncated(Replay(file.lines), maxTurns * 2)
    }

    method Truncate()
      requires maxTurns > 0
      modifies this
      ensures messages == Truncated(old(messages), maxTurns * 2)
    {
      var maxMsgs := maxTurns * 2;
      if |messages| <= maxMsgs {
        return;
      }
      var tail := messages[|messages| - (maxMsgs - 1)..];
      messages := [messages[0]] + tail;
    }

    /**
     * Remembers first and writes then: when the write fails the log stays behind, unless the turn changes nothing in a
     * full memory; when the record is too long to be scanned the log no longer loads.
     */
    method Save(turn: seq<Message>, fits: bool, end: Appended) returns (ok: bool)
      requires maxTurns > 0
      modifies this, file
      ensures ok == end.Done? && messages == Truncated(old(messages) + turn, maxTurns * 2)
      ensures file.lines == old(file.lines) + if end.Failed? then [] else [TurnLine(turn, fits)]
      ensures file.lines != [] && !end.Failed? ==> file.present
      ensures old(InStep()) ==>
                (InStep() <==> if end.Failed? then Truncated(old(messages) + turn, maxTurns * 2) == old(messages)
                               else fits)
    {
      hide Truncated, Replay, AllFit;
      ghost var lines, max := file.lines, maxTurns * 2;
      var line := TurnLine(turn, fits);
      messages := messages + turn;
      Truncate();
      ok := file.AppendRecord(line, end);
      TruncateOnceIsEnough(Replay(lines), turn, max);
      OneMoreLine(lines, line);
    }

    /**
     * Rebuilds the history; without a file, or one that cannot be opened, it stays what it is. A line that does not fit
     * ends the scan, and what was read so far is left in memory at its full length.
     */
    method Load(opens: bool) returns (ok: bool)
      requires maxTurns > 0
      modifies this
      ensures ok <==> !file.present || (opens && AllFit(file.lines))
      ensures messages == if !file.present || !opens then old(messages)
                          else if ok then Truncated(Replay(file.lines), maxTurns * 2)
                          else Replay(Readable(file.lines))
      ensures ok && file.present ==> InStep()
    {
      if !file.present {
        return true;
      }
      if !opens {
        return false;
      }
      messages := [];
      var i := 0;
      while i < |file.lines| && file.lines[i].fits
        invariant 0 <= i <= |file.lines| && messages == Replay(file.lines[..i]) && AllFit(file.lines[..i])
      {
        var line := file.lines[i];
        assert file.lines[..i + 1][..i] == file.lines[..i];
        if line.TurnLine? {
          messages := messages + line.messages;
        }
        i := i + 1;
      }
      ReadUpTo(file.lines, i);
      if i < |file.lines| {
        return false;
      }
      Truncate();
      return true;
    }
  }

  lemma OneMoreLine(lines: seq<Line>, line: Line)
    ensures AllFit(lines + [line]) <==> AllFit(lines) && line.fits
    ensures Replay(lines + [line]) == Replay(lines) + if line.TurnLine? then line.messages else []
  {
    var more := lines + [line];
    assert more[..|lines|] == lines && more[|lines|] == line;
    assert forall i :: 0 <= i < |lines| ==> more[i] == lines[i];
  }

  lemma {:induction false} ReadUpTo(lines: seq<Line>, i: nat)
    requires i <= |lines| && AllFit(lines[..i]) && (i < |lines| ==> !lines[i].fits)
    ensures lines[..i] == Readable(lines) && (AllFit(lines) <==> i == |lines|)
  {
    if i > 0 {
      assert lines[..i][0] == lines[0] && lines[1..][..i - 1] == lines[..i][1..];
      ReadUpTo(lines[1..], i - 1);
    }
  }
}
