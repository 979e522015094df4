/**
 * How one turn's tool calls are run: gated one by one, in batches, the safe ones in parallel.
 * What a tool answers may depend on everything that started and ended before it ended.
 */
module ToolExecution {
  import opened Messages
  import opened Wrappers

  const MAX_PARALLEL: nat := 10
  const OVERSIZE: nat := 30000

  datatype ToolCall = ToolCall(id: string, name: string, input: string)

  datatype Indexed = Indexed(index: nat, call: ToolCall)

  datatype Batch = Batch(calls: seq<Indexed>, safe: bool)

  // ---- partition

  function Flatten(batches: seq<Batch>): seq<Indexed> {
    if batches == [] then [] else Flatten(batches[..|batches| - 1]) + batches[|batches| - 1].calls
  }

  function Numbered(calls: seq<ToolCall>): (r: seq<Indexed>)
    ensures |r| == |calls| && forall i :: 0 <= i < |r| ==> r[i] == Indexed(i, calls[i])
  {
    seq(|calls|, i requires 0 <= i < |calls| => Indexed(i, calls[i]))
  }

  predicate WellFormed(b: Batch, safe: ToolCall -> bool) {
    b.calls != [] && (!b.safe ==> |b.calls| == 1)
    && forall k :: 0 <= k < |b.calls| ==> safe(b.calls[k].call) == b.safe
  }

  /** In call order, unsafe calls alone, and no two safe batches side by side. */
  predicate Partitions(batches: seq<Batch>, calls: seq<ToolCall>, safe: ToolCall -> bool) {
    Flatten(batches) == Numbered(calls)
    && (forall b :: 0 <= b < |batches| ==> WellFormed(batches[b], safe))
    && (forall b :: 0 < b < |batches| ==> !(batches[b - 1].safe && batches[b].safe))
  }

  lemma JoinsLast(batches: seq<Batch>, calls: seq<ToolCall>, ic: Indexed, safe: ToolCall -> bool)
    requires Partitions(batches, calls, safe) && ic == Indexed(|calls|, ic.call) && safe(ic.call)
    requires |batches| > 0 && batches[|batches| - 1].safe
    ensures var last := |batches| - 1;
            Partitions(batches[last := Batch(batches[last].calls + [ic], true)], calls + [ic.call], safe)
  {
    var last := |batches| - 1;
    var r := batches[last := Batch(batches[last].calls + [ic], true)];
    assert r[..last] == batches[..last];
    assert Flatten(r) == Flatten(batches) + [ic];
    assert WellFormed(batches[last], safe);
    assert Numbered(calls + [ic.call]) == Numbered(calls) + [ic];
  }

  lemma StandsAlone(batches: seq<Batch>, calls: seq<ToolCall>, ic: Indexed, safe: ToolCall -> bool)
    requires Partitions(batches, calls, safe) && ic == Indexed(|calls|, ic.call)
    requires safe(ic.call) && |batches| > 0 ==> !batches[|batches| - 1].safe
    ensures Partitions(batches + [Batch([ic], safe(ic.call))], calls + [ic.call], safe)
  {
    var r := batches + [Batch([ic], safe(ic.call))];
    assert r[..|batches|] == batches;
    assert Numbered(calls + [ic.call]) == Numbered(calls) + [ic];
  }

  method PartitionToolCalls(calls: seq<ToolCall>, safe: ToolCall -> bool) returns (batches: seq<Batch>)
    ensures Partitions(batches, calls, safe)
  {
    batches := [];
    var i := 0;
    assert Numbered(calls[..0]) == [];
    assert Partitions(batches, calls[..0], safe);
    hide Partitions;
    while i < |calls|
      invariant 0 <= i <= |calls| && Partitions(batches, calls[..i], safe)
    {
      var ic := Indexed(i, calls[i]);
      assert calls[..i + 1] == calls[..i] + [calls[i]];
      if safe(calls[i]) && |batches| > 0 && batches[|batches| - 1].safe {
        JoinsLast(batches, calls[..i], ic, safe);
        var last := |batches| - 1;
        batches := batches[last := Batch(batches[last].calls + [ic], true)];
      } else {
        StandsAlone(batches, calls[..i], ic, safe);
        batches := batches + [Batch([ic], safe(calls[i]))];
      }
      i := i + 1;
    }
    assert calls[..i] == calls;
  }

  lemma {:induction false} NonEmptyFlatten(a: seq<Batch>, safe: ToolCall -> bool)
    requires a != [] && WellFormed(a[|a| - 1], safe)
    ensures Flatten(a) != []
  {
  }

  /** The call before a safe last batch is unsafe. */
  lemma {:induction false} CallBefore(a: seq<Batch>, safe: ToolCall -> bool)
    requires a != [] && forall k :: 0 <= k < |a| ==> WellFormed(a[k], safe)
    requires forall k :: 0 < k < |a| ==> !(a[k - 1].safe && a[k].safe)
    ensures var m := |a| - 1;
            var front := Flatten(a[..m]);
            Flatten(a) == front + a[m].calls && (front != [] && a[m].safe ==> !safe(front[|front| - 1].call))
  {
    var m := |a| - 1;
    var front := Flatten(a[..m]);
    if front != [] {
      var prev := a[m - 1];
      assert WellFormed(prev, safe);
      assert front == Flatten(a[..m][..m - 1]) + prev.calls;
      assert front[|front| - 1] == prev.calls[|prev.calls| - 1];
    }
  }

  lemma {:induction false} LastBatches(a: seq<Batch>, b: seq<Batch>, safe: ToolCall -> bool)
    requires Flatten(a) == Flatten(b) && a != [] && b != []
    requires forall k :: 0 <= k < |a| ==> WellFormed(a[k], safe)
    requires forall k :: 0 <= k < |b| ==> WellFormed(b[k], safe)
    requires forall k :: 0 < k < |a| ==> !(a[k - 1].safe && a[k].safe)
    requires |a[|a| - 1].calls| <= |b[|b| - 1].calls|
    ensures a[|a| - 1] == b[|b| - 1] && Flatten(a[..|a| - 1]) == Flatten(b[..|b| - 1])
  {
    var m, n := |a| - 1, |b| - 1;
    var flat, ca, cb := Flatten(a), a[m].calls, b[n].calls;
    var fa := Flatten(a[..m]);
    assert flat == fa + ca == Flatten(b[..n]) + cb;
    assert WellFormed(a[m], safe) && WellFormed(b[n], safe);
    assert ca[|ca| - 1] == flat[|flat| - 1] == cb[|cb| - 1];
    assert a[m].safe == b[n].safe;
    Overlap(fa, ca, Flatten(b[..n]), cb);
    CallBefore(a, safe);
    assert |ca| == |cb|;
    assert ca == flat[|flat| - |ca|..] == cb;
    assert fa == flat[..|flat| - |ca|] == Flatten(b[..n]);
  }

  /** Two ways to split one list: what stands before the shorter end lies in the longer one. */
  lemma Overlap(f: seq<Indexed>, c: seq<Indexed>, g: seq<Indexed>, d: seq<Indexed>)
    requires f + c == g + d
    ensures |c| < |d| ==> f != [] && f[|f| - 1] == d[|d| - |c| - 1]
  {
    if |c| < |d| {
      assert f[|f| - 1] == (f + c)[|f| - 1] == (g + d)[|f| - 1];
    }
  }

  /** There is only one such partition. */
  lemma {:induction false} PartitionIsUnique(a: seq<Batch>, b: seq<Batch>, safe: ToolCall -> bool)
    requires Flatten(a) == Flatten(b)
    requires forall k :: 0 <= k < |a| ==> WellFormed(a[k], safe)
    requires forall k :: 0 <= k < |b| ==> WellFormed(b[k], safe)
    requires forall k :: 0 < k < |a| ==> !(a[k - 1].safe && a[k].safe)
    requires forall k :: 0 < k < |b| ==> !(b[k - 1].safe && b[k].safe)
    ensures a == b
    decreases |a|
  {
    if a == [] || b == [] {
      if a != [] {
        NonEmptyFlatten(a, safe);
      }
      if b != [] {
        NonEmptyFlatten(b, safe);
      }
    } else {
      var m, n := |a| - 1, |b| - 1;
      if |a[m].calls| <= |b[n].calls| {
        LastBatches(a, b, safe);
      } else {
        LastBatches(b, a, safe);
      }
      PartitionIsUnique(a[..m], b[..n], safe);
      assert a == a[..m] + [a[m]] && b == b[..n] + [b[n]];
    }
  }

  // ---- what a call answers

  datatype Outcome = Answer(content: string, isError: bool) | Panic(what: string)

  datatype Event = Started(index: nat) | Ended(index: nat)

  /** For each call, everything that started and ended before it ended. */
  type Moments = map<nat, seq<Event>>

  /** What the call at a position answers, given everything that started and ended before. */
  type Tools = (nat, seq<Event>) -> Outcome

  /** Keeps the head and the tail of an oversize text. */
  function TruncateForContext(s: string, maxLen: nat): (r: string)
    ensures |s| <= maxLen ==> r == s
    ensures |s| > maxLen ==>
              s[..maxLen / 2] <= r && |r| > maxLen / 2 && r[|r| - maxLen / 2..] == s[|s| - maxLen / 2..]
  {
    if |s| <= maxLen then s
    else
      var half := maxLen / 2;
      var front := s[..half] + ("\n\n... (" + Decimal(|s| - maxLen) + " chars omitted) ...\n\n");
      var r := front + s[|s| - half..];
      assert r[..half] == s[..half];
      assert r[|front|..] == s[|s| - half..];
      r
  }

  function ResultOf(call: ToolCall, o: Outcome): Block {
    match o
    case Answer(content, isError) => ResultBlock(call.id, TruncateForContext(content, OVERSIZE), isError)
    case Panic(what) => ResultBlock(call.id, "tool panic: " + what, true)
  }

  // ---- the gate

  datatype Hook = NoHook | Allow | Deny | Ask

  datatype Approver = NoApprover | Approves | Refuses

  datatype Gate = Gate(hook: Hook, approver: Approver)

  function Denial(call: ToolCall, why: string): Block {
    ResultBlock(call.id, "Tool call \"" + call.name + "\" " + why, true)
  }

  /** The denial, or nothing when the call may run. */
  function GateToolCall(call: ToolCall, g: Gate): Option<Block> {
    if g.hook == Deny then Some(Denial(call, "was denied by a hook."))
    else if g.hook == Ask && g.approver == NoApprover then
      Some(Denial(call, "requires approval but no approver is available."))
    else if g.approver == Refuses then Some(Denial(call, "was denied by the user."))
    else None
  }

  /** What one slot of the result message holds in the end. */
  function Slot(call: ToolCall, g: Gate, o: Outcome): Block {
    match GateToolCall(call, g)
    case Some(denial) => denial
    case None => ResultOf(call, o)
  }

  /** Whatever happens, the slot answers its own call. */
  lemma SlotAnswersItsCall(call: ToolCall, g: Gate, o: Outcome)
    ensures Slot(call, g, o).kind == "tool_result" && Slot(call, g, o).toolUseId == call.id
    ensures GateToolCall(call, g).None? <==>
              g.approver != Refuses && g.hook != Deny && !(g.hook == Ask && g.approver == NoApprover)
    ensures GateToolCall(call, g).Some? || o.Panic? ==> Slot(call, g, o).isError
  {
  }

  // ---- running a batch

  /** How many calls are under way. */
  function Open(h: seq<Event>): int {
    if h == [] then 0 else Open(h[..|h| - 1]) + if h[|h| - 1].Started? then 1 else -1
  }

  /** Since a moment with nothing under way, never more than so many calls at once. */
  ghost predicate NeverMoreThan(h: seq<Event>, n: nat) {
    forall k :: 0 <= k <= |h| ==> Open(h[..k]) <= n
  }

  lemma OneMoreEvent(h: seq<Event>, e: Event, n: nat)
    requires NeverMoreThan(h, n) && (e.Started? ==> Open(h) < n)
    ensures NeverMoreThan(h + [e], n) && Open(h + [e]) == Open(h) + if e.Started? then 1 else -1
  {
    var m := h + [e];
    assert m[..|h|] == h;
    forall k | 0 <= k <= |m| ensures Open(m[..k]) <= n {
      if k <= |h| {
        assert m[..k] == h[..k];
      } else {
        assert m[..k] == m && h[..|h|] == h;
        assert Open(h[..|h|]) <= n;
      }
    }
  }

  predicate DistinctBelow(calls: seq<Indexed>, n: nat) {
    (forall k :: 0 <= k < |calls| ==> calls[k].index < n)
    && forall k, l :: 0 <= k < l < |calls| ==> calls[k].index != calls[l].index
  }

  predicate Calls(calls: seq<Indexed>, index: nat) {
    exists k :: 0 <= k < |calls| && calls[k].index == index
  }

  /** Every call's slot holds what the call answered at some moment; the other slots are as before. */
  ghost predicate Ran(calls: seq<Indexed>, tools: Tools, seen: Moments, was: seq<Block>, now: seq<Block>) {
    |now| == |was| && DistinctBelow(calls, |was|)
    && (forall k :: 0 <= k < |calls| ==>
          (calls[k].index in seen
           && now[calls[k].index] == ResultOf(calls[k].call, tools(calls[k].index, seen[calls[k].index]))))
    && (forall j :: 0 <= j < |was| && !Calls(calls, j) ==> now[j] == was[j])
  }

  lemma CallsOneMore(calls: seq<Indexed>, ic: Indexed, j: nat)
    ensures Calls(calls + [ic], j) <==> Calls(calls, j) || j == ic.index
  {
    var more := calls + [ic];
    assert more[|calls|] == ic;
    if Calls(calls, j) {
      var k :| 0 <= k < |calls| && calls[k].index == j;
      assert more[k].index == j;
    }
  }

  lemma RanOneMore(calls: seq<Indexed>, ic: Indexed, tools: Tools, seen: Moments, h: seq<Event>,
                   was: seq<Block>, now: seq<Block>)
    requires Ran(calls, tools, seen, was, now) && DistinctBelow(calls + [ic], |was|) && ic.index < |now|
    ensures Ran(calls + [ic], tools, seen[ic.index := h], was, now[ic.index := ResultOf(ic.call, tools(ic.index, h))])
  {
    var more := calls + [ic];
    assert more[|calls|] == ic;
    forall j: nat | j < |was| ensures Calls(more, j) <==> Calls(calls, j) || j == ic.index {
      CallsOneMore(calls, ic, j);
    }
    forall k | 0 <= k < |calls| ensures calls[k].index != ic.index {
      assert more[k] == calls[k];
    }
  }

  // ---- what a history records

  /** The call ended with this behind it, and had started since a moment. */
  predicate EndedAfter(history: seq<Event>, h: seq<Event>, i: nat, s: seq<Event>) {
    history <= s <= h && |s| < |h| && h[|s|] == Ended(i) && Started(i) in s[|history|..]
  }

  /** What came after a history: these calls started once each, and these of them ended once each, after that. */
  ghost predicate Records(history: seq<Event>, h: seq<Event>, began: set<nat>, ended: set<nat>, seen: Moments) {
    history <= h
    && (forall e :: e in h[|history|..] <==> e.index in if e.Started? then began else ended)
    && (forall p, q :: |history| <= p < q < |h| ==> h[p] != h[q])
    && (forall i :: i in ended ==> i in seen && EndedAfter(history, h, i, seen[i]))
  }

  /** It has just started, and nothing else is under way. */
  ghost predicate OnItsOwn(s: seq<Event>, i: nat) {
    s != [] && s[|s| - 1] == Started(i) && Open(s) == 1
  }

  lemma NothingRecorded(history: seq<Event>)
    ensures Records(history, history, {}, {}, map[])
  {
  }

  lemma RecordStart(history: seq<Event>, h: seq<Event>, began: set<nat>, ended: set<nat>, seen: Moments, i: nat)
    requires Records(history, h, began, ended, seen) && i !in began
    ensures Records(history, h + [Started(i)], began + {i}, ended, seen)
  {
    var m := h + [Started(i)];
    assert m[|history|..] == h[|history|..] + [Started(i)];
    forall p | |history| <= p < |h| ensures h[p] != Started(i) {
      assert h[p] in h[|history|..];
    }
    forall j | j in ended ensures j in seen && EndedAfter(history, m, j, seen[j]) {
      assert EndedAfter(history, h, j, seen[j]);
    }
  }

  lemma RecordEnd(history: seq<Event>, h: seq<Event>, began: set<nat>, ended: set<nat>, seen: Moments, i: nat)
    requires Records(history, h, began, ended, seen) && i in began && i !in ended
    ensures Records(history, h + [Ended(i)], began, ended + {i}, seen[i := h])
  {
    var m := h + [Ended(i)];
    assert m[|history|..] == h[|history|..] + [Ended(i)];
    forall p | |history| <= p < |h| ensures h[p] != Ended(i) {
      assert h[p] in h[|history|..];
    }
    assert Started(i) in h[|history|..];
    forall j | j in ended + {i} ensures j in seen[i := h] && EndedAfter(history, m, j, seen[i := h][j]) {
      assert j != i ==> EndedAfter(history, h, j, seen[j]);
    }
  }

  /** The history recorded so far, and then what is recorded after it about other calls. */
  lemma RecordsJoin(h: seq<Event>, k: seq<Event>, a: set<nat>, began: set<nat>, ended: set<nat>,
                    seen: Moments, ran: Moments, both: Moments)
    requires Records([], h, a, a, seen) && Records(h, k, began, ended, ran) && a !! began
    requires forall i :: i in a ==> i in seen && i in both && both[i] == seen[i]
    requires forall i :: i in ended ==> i in ran && i in both && both[i] == ran[i]
    ensures Records([], k, a + began, a + ended, both)
  {
    forall i | i in ended ensures i in began && EndedAfter([], k, i, both[i]) {
      assert EndedAfter(h, k, i, ran[i]);
      assert Started(i) in k[|h|..] && Started(i) in both[i];
      assert both[i][0..] == both[i];
    }
    forall i | i in a ensures EndedAfter([], k, i, both[i]) {
      assert EndedAfter([], h, i, seen[i]);
    }
    assert h[0..] == h && k[0..] == k && k == h + k[|h|..];
    forall p, q | 0 <= p < q < |k| ensures k[p] != k[q] {
      if p < |h| <= q {
        assert h[p] in h[0..] && k[q] in k[|h|..];
      } else if q < |h| {
        assert h[p] != h[q];
      }
    }
  }

  function Names(calls: seq<Indexed>): (r: set<nat>)
    ensures forall i :: i in r <==> Calls(calls, i)
  {
    set k | 0 <= k < |calls| :: calls[k].index
  }

  lemma NamesOneMore(calls: seq<Indexed>, ic: Indexed)
    ensures Names(calls + [ic]) == Names(calls) + {ic.index}
  {
    forall j ensures Calls(calls + [ic], j) <==> Calls(calls, j) || j == ic.index {
      CallsOneMore(calls, ic, j);
    }
  }

  /** The slots written so far, one after the other, are these, once each. */
  ghost predicate WroteOnce(wrote: seq<nat>, slots: set<nat>) {
    (forall i :: i in wrote <==> i in slots) && forall p, q :: 0 <= p < q < |wrote| ==> wrote[p] != wrote[q]
  }

  lemma WroteNothing()
    ensures WroteOnce([], {}) && Names([]) == {}
  {
    assert Names([]) == {};
  }

  lemma WroteMore(a: seq<nat>, some: set<nat>, b: seq<nat>, others: set<nat>)
    requires WroteOnce(a, some) && WroteOnce(b, others) && some !! others
    ensures WroteOnce(a + b, some + others)
  {
    forall p, q | 0 <= p < q < |a + b| ensures (a + b)[p] != (a + b)[q] {
      if p < |a| <= q {
        assert a[p] in a && b[q - |a|] in b;
      }
    }
  }

  lemma WroteOneMore(wrote: seq<nat>, slots: set<nat>, i: nat)
    requires WroteOnce(wrote, slots) && i !in slots
    ensures WroteOnce(wrote + [i], slots + {i})
  {
    WroteMore(wrote, slots, [i], {i});
  }

  /** The calls before a position ended without panic, each by itself. */
  ghost predicate OneAtATime(calls: seq<Indexed>, tools: Tools, seen: Moments) {
    forall k :: 0 <= k < |calls| ==>
      (calls[k].index in seen
       && OnItsOwn(seen[calls[k].index], calls[k].index) && !tools(calls[k].index, seen[calls[k].index]).Panic?)
  }

  lemma OneMoreByItself(calls: seq<Indexed>, ic: Indexed, tools: Tools, seen: Moments, h: seq<Event>)
    requires OneAtATime(calls, tools, seen) && OnItsOwn(h, ic.index) && !tools(ic.index, h).Panic?
    requires !Calls(calls, ic.index)
    ensures OneAtATime(calls + [ic], tools, seen[ic.index := h])
  {
    forall k | 0 <= k < |calls| ensures calls[k].index != ic.index {
    }
  }

  lemma FirstOfItsName(calls: seq<Indexed>, i: nat, n: nat)
    requires DistinctBelow(calls, n) && i < |calls|
    ensures calls[..i + 1] == calls[..i] + [calls[i]]
    ensures !Calls(calls[..i], calls[i].index) && DistinctBelow(calls[..i + 1], n)
  {
    forall k | 0 <= k < i ensures calls[..i][k].index != calls[i].index {
      assert calls[..i][k] == calls[k];
    }
  }

  /**
   * One after the other, until the first that panics, which takes the process down: it has started, by itself, and
   * those before it have ended.
   */
  method ExecuteBatchSerial(calls: seq<Indexed>, tools: Tools, history: seq<Event>, results: array<Block>)
    returns (crashed: bool, h: seq<Event>, ghost seen: Moments, ghost at: nat, ghost wrote: seq<nat>)
    requires DistinctBelow(calls, results.Length) && NeverMoreThan(history, MAX_PARALLEL) && Open(history) == 0
    modifies results
    ensures at <= |calls| && (crashed <==> at < |calls|) && NeverMoreThan(h, MAX_PARALLEL)
    ensures Records(history, h, Names(if crashed then calls[..at + 1] else calls), Names(calls[..at]), seen)
    ensures OneAtATime(calls[..at], tools, seen) && Ran(calls[..at], tools, seen, old(results[..]), results[..])
    ensures crashed ==> OnItsOwn(h, calls[at].index) && tools(calls[at].index, h).Panic?
    ensures !crashed ==> Open(h) == 0
    ensures WroteOnce(wrote, Names(calls[..at]))
  {
    hide ResultOf, NeverMoreThan, Open, Records, Names, Ran, OneAtATime, DistinctBelow, WroteOnce;
    h, seen, crashed, at, wrote := history, map[], false, 0, [];
    WroteNothing();
    ghost var was := results[..];
    NothingSerial(history, tools, was);
    var i := 0;
    while i < |calls|
      invariant 0 <= i == at <= |calls| && NeverMoreThan(h, MAX_PARALLEL) && Open(h) == 0
      invariant Records(history, h, Names(calls[..i]), Names(calls[..i]), seen)
      invariant OneAtATime(calls[..i], tools, seen) && Ran(calls[..i], tools, seen, was, results[..])
      invariant WroteOnce(wrote, Names(calls[..i]))
    {
      var ic := calls[i];
      FirstOfItsName(calls, i, |was|);
      NamesOneMore(calls[..i], ic);
      OneMoreEvent(h, Started(ic.index), MAX_PARALLEL);
      RecordStart(history, h, Names(calls[..i]), Names(calls[..i]), seen, ic.index);
      h := h + [Started(ic.index)];
      var o := tools(ic.index, h);
      if o.Panic? {
        crashed := true;
        return;
      }
      assert ic.index < |was| by { InRange(calls, i, |was|); }
      RanOneMore(calls[..i], ic, tools, seen, h, was, results[..]);
      OneMoreByItself(calls[..i], ic, tools, seen, h);
      results[ic.index] := ResultOf(ic.call, o);
      WroteOneMore(wrote, Names(calls[..i]), ic.index);
      wrote := wrote + [ic.index];
      RecordEnd(history, h, Names(calls[..i + 1]), Names(calls[..i]), seen, ic.index);
      seen := seen[ic.index := h];
      OneMoreEvent(h, Ended(ic.index), MAX_PARALLEL);
      h := h + [Ended(ic.index)];
      i, at := i + 1, at + 1;
    }
    assert calls[..i] == calls;
  }

  lemma InRange(calls: seq<Indexed>, i: nat, n: nat)
    requires DistinctBelow(calls, n) && i < |calls|
    ensures calls[i].index < n
  {
  }

  lemma NothingSerial(history: seq<Event>, tools: Tools, was: seq<Block>)
    ensures Records(history, history, Names([]), Names([]), map[])
    ensures OneAtATime([], tools, map[]) && Ran([], tools, map[], was, was)
  {
    assert Names([]) == {};
  }

  // ---- in parallel

  /** What a goroutine sends when its tool is done. */
  datatype Sent = Sent(index: nat, block: Block)

  /** What came back so far, in the order it came: each call once, with what it answered. */
  ghost predicate CameBack(done: seq<Indexed>, ch: seq<Sent>, tools: Tools, seen: Moments) {
    |ch| == |done|
    && (forall d :: 0 <= d < |done| ==>
          (done[d].index in seen
           && ch[d] == Sent(done[d].index, ResultOf(done[d].call, tools(done[d].index, seen[done[d].index])))))
    && (forall d, e :: 0 <= d < e < |done| ==> done[d].index != done[e].index)
  }

  lemma OneMoreBack(done: seq<Indexed>, ch: seq<Sent>, tools: Tools, seen: Moments, ic: Indexed,
                    h: seq<Event>)
    requires CameBack(done, ch, tools, seen) && forall d :: 0 <= d < |done| ==> done[d].index != ic.index
    ensures CameBack(done + [ic], ch + [Sent(ic.index, ResultOf(ic.call, tools(ic.index, h)))], tools,
                     seen[ic.index := h])
  {
  }

  /** Every call either waits for its turn, is at work or is done. */
  ghost predicate Sorted(calls: seq<Indexed>, waiting: set<Indexed>, running: set<Indexed>, done: seq<Indexed>) {
    waiting !! running
    && (forall ic :: ic in waiting || ic in running || ic in done <==> ic in calls)
    && (forall ic :: ic in done ==> ic !in waiting && ic !in running)
  }

  lemma Launch(calls: seq<Indexed>, waiting: set<Indexed>, running: set<Indexed>, done: seq<Indexed>, ic: Indexed,
               began: set<nat>)
    requires Sorted(calls, waiting, running, done) && ic in waiting
    requires forall i :: i in began <==> Calls(done, i) || AtWork(running, i)
    requires forall k, l :: 0 <= k < l < |calls| ==> calls[k].index != calls[l].index
    ensures Sorted(calls, waiting - {ic}, running + {ic}, done) && ic !in running
    ensures ic.index !in began && forall i :: i in began + {ic.index} <==> Calls(done, i) || AtWork(running + {ic}, i)
  {
    forall d | 0 <= d < |done| ensures done[d].index != ic.index {
      assert done[d] in done && done[d] in calls && ic in calls;
    }
    forall other | other in running ensures other.index != ic.index {
      assert other in calls && ic in calls;
    }
    forall i ensures AtWork(running + {ic}, i) <==> AtWork(running, i) || i == ic.index {
      if AtWork(running, i) {
        var other :| other in running && other.index == i;
        assert other in running + {ic};
      }
      assert ic in running + {ic};
    }
  }

  /** A call with this index is at work. */
  predicate AtWork(running: set<Indexed>, index: nat) {
    exists ic :: ic in running && ic.index == index
  }

  lemma Finish(calls: seq<Indexed>, waiting: set<Indexed>, running: set<Indexed>, done: seq<Indexed>, ic: Indexed,
               began: set<nat>)
    requires Sorted(calls, waiting, running, done) && ic in running
    requires forall i :: i in began <==> Calls(done, i) || AtWork(running, i)
    requires forall k, l :: 0 <= k < l < |calls| ==> calls[k].index != calls[l].index
    ensures Sorted(calls, waiting, running - {ic}, done + [ic])
    ensures forall d :: 0 <= d < |done| ==> done[d].index != ic.index
    ensures ic.index in began && ic.index !in Names(done)
    ensures forall i :: i in began <==> Calls(done + [ic], i) || AtWork(running - {ic}, i)
  {
    forall d | 0 <= d < |done| ensures done[d].index != ic.index {
      assert done[d] in done && done[d] in calls && ic in calls;
    }
    forall i ensures i in began <==> Calls(done + [ic], i) || AtWork(running - {ic}, i) {
      CallsOneMore(done, ic, i);
      if AtWork(running, i) && i != ic.index {
        var other :| other in running && other.index == i;
        assert other in running - {ic};
      }
      assert AtWork(running, ic.index);
    }
  }

  /**
   * A goroutine a call, at most ten at work, in an order nobody controls, so each is at work from its start to its end;
   * the answers go to their slots at the end.
   */
  method ExecuteBatchParallel(calls: seq<Indexed>, tools: Tools, history: seq<Event>, results: array<Block>)
    returns (h: seq<Event>, ghost seen: Moments, ghost wrote: seq<nat>)
    requires DistinctBelow(calls, results.Length) && NeverMoreThan(history, MAX_PARALLEL) && Open(history) == 0
    modifies results
    ensures NeverMoreThan(h, MAX_PARALLEL) && Open(h) == 0
    ensures Records(history, h, Names(calls), Names(calls), seen)
    ensures Ran(calls, tools, seen, old(results[..]), results[..]) && WroteOnce(wrote, Names(calls))
  {
    hide ResultOf, NeverMoreThan, Open, Ran, Records, Names, WroteOnce;
    var ch;
    ghost var done;
    h, ch, seen, done := RunAll(calls, tools, history, results.Length);
    wrote := Drain(calls, tools, results, ch, seen, done);
  }

  /** Where a batch stands: who waits, who is at work, who began, and what came back. */
  ghost predicate UnderWay(calls: seq<Indexed>, tools: Tools, history: seq<Event>, h: seq<Event>, ch: seq<Sent>,
                           seen: Moments, done: seq<Indexed>, waiting: set<Indexed>, running: set<Indexed>,
                           began: set<nat>) {
    Sorted(calls, waiting, running, done) && |running| <= MAX_PARALLEL && Open(h) == |running|
    && NeverMoreThan(h, MAX_PARALLEL) && CameBack(done, ch, tools, seen)
    && (forall i :: i in began <==> Calls(done, i) || AtWork(running, i))
    && Records(history, h, began, Names(done), seen)
  }

  lemma LaunchOne(calls: seq<Indexed>, tools: Tools, history: seq<Event>, h: seq<Event>, ch: seq<Sent>, seen: Moments,
                  done: seq<Indexed>, waiting: set<Indexed>, running: set<Indexed>, began: set<nat>, ic: Indexed)
    requires UnderWay(calls, tools, history, h, ch, seen, done, waiting, running, began)
    requires ic in waiting && |running| < MAX_PARALLEL
    requires forall k, l :: 0 <= k < l < |calls| ==> calls[k].index != calls[l].index
    ensures UnderWay(calls, tools, history, h + [Started(ic.index)], ch, seen, done, waiting - {ic}, running + {ic},
                     began + {ic.index})
    ensures |running + {ic}| == |running| + 1
  {
    hide NeverMoreThan, Open, CameBack, Sorted, Records, Names, Calls, AtWork;
    Launch(calls, waiting, running, done, ic, began);
    OneMoreEvent(h, Started(ic.index), MAX_PARALLEL);
    RecordStart(history, h, began, Names(done), seen, ic.index);
  }

  lemma FinishOne(calls: seq<Indexed>, tools: Tools, history: seq<Event>, h: seq<Event>, ch: seq<Sent>, seen: Moments,
                  done: seq<Indexed>, waiting: set<Indexed>, running: set<Indexed>, began: set<nat>, ic: Indexed)
    requires UnderWay(calls, tools, history, h, ch, seen, done, waiting, running, began) && ic in running
    requires forall k, l :: 0 <= k < l < |calls| ==> calls[k].index != calls[l].index
    ensures UnderWay(calls, tools, history, h + [Ended(ic.index)],
                     ch + [Sent(ic.index, ResultOf(ic.call, tools(ic.index, h)))], seen[ic.index := h], done + [ic],
                     waiting, running - {ic}, began)
  {
    hide ResultOf, NeverMoreThan, Open, CameBack, Sorted, Records, Names, Calls, AtWork;
    Finish(calls, waiting, running, done, ic, began);
    OneMoreBack(done, ch, tools, seen, ic, h);
    RecordEnd(history, h, began, Names(done), seen, ic.index);
    NamesOneMore(done, ic);
    OneMoreEvent(h, Ended(ic.index), MAX_PARALLEL);
  }

  method RunAll(calls: seq<Indexed>, tools: Tools, history: seq<Event>, ghost slots: nat)
    returns (h: seq<Event>, ch: seq<Sent>, ghost seen: Moments, ghost done: seq<Indexed>)
    requires DistinctBelow(calls, slots) && NeverMoreThan(history, MAX_PARALLEL) && Open(history) == 0
    ensures NeverMoreThan(h, MAX_PARALLEL) && Open(h) == 0
    ensures Records(history, h, Names(calls), Names(calls), seen)
    ensures CameBack(done, ch, tools, seen) && forall ic :: ic in done <==> ic in calls
  {
    hide ResultOf, NeverMoreThan, Open, CameBack, Sorted, Records, Names, Calls, AtWork, UnderWay;
    h, ch, seen, done := history, [], map[], [];
    var waiting := set ic | ic in calls;
    var running: set<Indexed> := {};
    ghost var began: set<nat> := {};
    AtFirst(calls, waiting, tools, history);
    while waiting + running != {}
      invariant UnderWay(calls, tools, history, h, ch, seen, done, waiting, running, began)
      decreases 2 * |waiting| + |running|
    {
      var launch: bool := *;
      if waiting != {} && |running| < MAX_PARALLEL && (launch || running == {}) {
        var ic :| ic in waiting;
        LaunchOne(calls, tools, history, h, ch, seen, done, waiting, running, began, ic);
        waiting, running := waiting - {ic}, running + {ic};
        began := began + {ic.index};
        h := h + [Started(ic.index)];
      } else {
        var ic :| ic in running;
        FinishOne(calls, tools, history, h, ch, seen, done, waiting, running, began, ic);
        running := running - {ic};
        ch := ch + [Sent(ic.index, ResultOf(ic.call, tools(ic.index, h)))];
        seen := seen[ic.index := h];
        done := done + [ic];
        h := h + [Ended(ic.index)];
      }
    }
    AllUnderWay(calls, tools, history, h, ch, seen, done, waiting, running, began);
  }

  lemma AllUnderWay(calls: seq<Indexed>, tools: Tools, history: seq<Event>, h: seq<Event>, ch: seq<Sent>, seen: Moments,
                    done: seq<Indexed>, waiting: set<Indexed>, running: set<Indexed>, began: set<nat>)
    requires UnderWay(calls, tools, history, h, ch, seen, done, waiting, running, began) && waiting + running == {}
    ensures NeverMoreThan(h, MAX_PARALLEL) && Open(h) == 0
    ensures Records(history, h, Names(calls), Names(calls), seen)
    ensures CameBack(done, ch, tools, seen) && forall ic :: ic in done <==> ic in calls
  {
    hide NeverMoreThan, Open, CameBack, Sorted, Records, Names, Calls, AtWork;
    AllDone(calls, waiting, running, done, began);
  }

  lemma AtFirst(calls: seq<Indexed>, waiting: set<Indexed>, tools: Tools, history: seq<Event>)
    requires waiting == (set ic | ic in calls) && NeverMoreThan(history, MAX_PARALLEL) && Open(history) == 0
    ensures UnderWay(calls, tools, history, history, [], map[], [], waiting, {}, {})
  {
    assert Names([]) == {};
    NothingRecorded(history);
    hide Records, NeverMoreThan, Open;
  }

  lemma AllDone(calls: seq<Indexed>, waiting: set<Indexed>, running: set<Indexed>, done: seq<Indexed>, began: set<nat>)
    requires Sorted(calls, waiting, running, done) && waiting + running == {}
    requires forall i :: i in began <==> Calls(done, i) || AtWork(running, i)
    ensures running == {} && forall ic :: ic in done <==> ic in calls
    ensures began == Names(done) == Names(calls)
  {
    assert waiting == {} && running == {};
    SameNames(done, calls);
  }

  method Drain(calls: seq<Indexed>, ghost tools: Tools, results: array<Block>, ch: seq<Sent>,
               ghost seen: Moments, ghost done: seq<Indexed>)
    returns (ghost wrote: seq<nat>)
    requires DistinctBelow(calls, results.Length) && CameBack(done, ch, tools, seen)
    requires forall ic :: ic in done <==> ic in calls
    modifies results
    ensures Ran(calls, tools, seen, old(results[..]), results[..]) && WroteOnce(wrote, Names(calls))
  {
    hide ResultOf, WroteOnce;
    wrote := [];
    WroteNothing();
    assert done[..0] == [];
    var d := 0;
    while d < |ch|
      invariant 0 <= d <= |ch|
      invariant forall e :: 0 <= e < d ==> done[e].index < results.Length && results[done[e].index] == ch[e].block
      invariant forall j :: 0 <= j < results.Length && !Calls(calls, j) ==> results[j] == old(results[j])
      invariant WroteOnce(wrote, Names(done[..d]))
    {
      assert done[d] in done;
      NextDone(done, d);
      WroteOneMore(wrote, Names(done[..d]), done[d].index);
      wrote := wrote + [ch[d].index];
      assert Calls(calls, ch[d].index);
      results[ch[d].index] := ch[d].block;
      d := d + 1;
    }
    assert done[..d] == done;
    SameNames(done, calls);
    forall k | 0 <= k < |calls|
      ensures calls[k].index in seen
      ensures results[calls[k].index] == ResultOf(calls[k].call, tools(calls[k].index, seen[calls[k].index]))
    {
      assert calls[k] in done;
      var e :| 0 <= e < |done| && done[e] == calls[k];
    }
  }

  lemma NextDone(done: seq<Indexed>, d: nat)
    requires d < |done| && forall e, f :: 0 <= e < f < |done| ==> done[e].index != done[f].index
    ensures done[d].index !in Names(done[..d]) && Names(done[..d + 1]) == Names(done[..d]) + {done[d].index}
  {
    assert done[..d + 1] == done[..d] + [done[d]];
    NamesOneMore(done[..d], done[d]);
    forall e | 0 <= e < d ensures done[..d][e].index != done[d].index {
      assert done[..d][e] == done[e];
    }
  }

  lemma SameNames(done: seq<Indexed>, calls: seq<Indexed>)
    requires forall ic :: ic in done <==> ic in calls
    ensures Names(done) == Names(calls)
  {
    forall i ensures Calls(done, i) <==> Calls(calls, i) {
      if Calls(done, i) {
        var k :| 0 <= k < |done| && done[k].index == i;
        assert done[k] in calls;
      }
      if Calls(calls, i) {
        var k :| 0 <= k < |calls| && calls[k].index == i;
        assert calls[k] in done;
      }
    }
  }

  // ---- a whole turn's calls

  /** The slot holds the denial, or what the call answered with the history behind it that was seen. */
  ghost predicate Answered(b: Block, i: nat, call: ToolCall, g: Gate, tools: Tools, seen: Moments) {
    match GateToolCall(call, g)
    case Some(denial) => b == denial
    case None => i in seen && b == ResultOf(call, tools(i, seen[i]))
  }

  ghost predicate AllAnswered(content: seq<Block>, calls: seq<ToolCall>, gates: seq<Gate>, tools: Tools,
                              seen: Moments, n: nat)
    requires |gates| == |calls| && n <= |calls| == |content|
  {
    forall i :: 0 <= i < n ==> Answered(content[i], i, calls[i], gates[i], tools, seen)
  }

  /** The calls before a position that may run. */
  function Allowed(calls: seq<ToolCall>, gates: seq<Gate>, n: nat): (r: set<nat>)
    requires |gates| == |calls| && n <= |calls|
  {
    set i | 0 <= i < n && GateToolCall(calls[i], gates[i]).None?
  }

  /** The calls from one position to another that may not run. */
  function Denied(calls: seq<ToolCall>, gates: seq<Gate>, from: nat, to: nat): (r: set<nat>)
    requires |gates| == |calls| && from <= to <= |calls|
  {
    set i | from <= i < to && GateToolCall(calls[i], gates[i]).Some?
  }

  lemma DeniedNext(calls: seq<ToolCall>, gates: seq<Gate>, from: nat, to: nat)
    requires |gates| == |calls| && from <= to < |calls|
    ensures to !in Denied(calls, gates, from, to)
    ensures Denied(calls, gates, from, to + 1)
         == if GateToolCall(calls[to], gates[to]).Some? then Denied(calls, gates, from, to) + {to}
            else Denied(calls, gates, from, to)
  {
    hide GateToolCall;
  }

  /** The slots written so far are those from one position to another, once each. */
  ghost predicate WroteEach(wrote: seq<nat>, from: nat, to: nat) {
    (forall i :: i in wrote <==> from <= i < to) && forall p, q :: 0 <= p < q < |wrote| ==> wrote[p] != wrote[q]
  }

  lemma WroteNext(a: seq<nat>, b: seq<nat>, from: nat, mid: nat, to: nat)
    requires from <= mid <= to && WroteEach(a, from, mid) && WroteEach(b, mid, to)
    ensures WroteEach(a + b, from, to)
  {
    forall p, q | 0 <= p < q < |a + b| ensures (a + b)[p] != (a + b)[q] {
      if p < |a| <= q {
        assert a[p] in a && b[q - |a|] in b;
      }
    }
  }

  /** What the gate and the tools wrote of one batch is the batch. */
  lemma BatchWritten(approved: seq<Indexed>, calls: seq<ToolCall>, gates: seq<Gate>, m: nat, e: nat,
                     denials: seq<nat>, answers: seq<nat>)
    requires |gates| == |calls| && m <= e <= |calls| && ApprovedAmong(approved, calls, gates, m, e)
    requires WroteOnce(denials, Denied(calls, gates, m, e)) && WroteOnce(answers, Names(approved))
    ensures WroteEach(denials + answers, m, e)
  {
    hide GateToolCall, ApprovedAmong;
    AllowedOneBatch(approved, calls, gates, m, e);
    WroteMore(denials, Denied(calls, gates, m, e), answers, Names(approved));
  }

  /** One of the two, or a call between them, must not run beside others. */
  predicate Apart(calls: seq<ToolCall>, safe: ToolCall -> bool, i: nat, j: nat) {
    exists k :: 0 <= k < |calls| && (i <= k <= j || j <= k <= i) && !safe(calls[k])
  }

  /** No other call that may run is to run beside this one. */
  predicate RunsAlone(calls: seq<ToolCall>, safe: ToolCall -> bool, gates: seq<Gate>, i: nat)
    requires |gates| == |calls|
  {
    i in Allowed(calls, gates, |calls|)
    && forall j :: j in Allowed(calls, gates, |calls|) && j != i ==> Apart(calls, safe, i, j)
  }

  /**
   * What happened: of the calls up to a position exactly those that may run started and ended, once each; the ones to
   * run alone did so and did not panic; and a call is over before one that is to be apart from it starts.
   */
  ghost predicate Happened(h: seq<Event>, calls: seq<ToolCall>, safe: ToolCall -> bool, gates: seq<Gate>, tools: Tools,
                           seen: Moments, n: nat)
    requires |gates| == |calls| && n <= |calls|
  {
    var ran := Allowed(calls, gates, n);
    Records([], h, ran, ran, seen)
    && (forall i :: i in ran && RunsAlone(calls, safe, gates, i) ==>
          OnItsOwn(seen[i], i) && !tools(i, seen[i]).Panic?)
    && (forall i, j :: i in ran && j in ran && i < j && Apart(calls, safe, i, j) ==> Started(j) !in seen[i])
  }

  /** A call that was to run alone has just started by itself and panics; the calls before it are over. */
  ghost predicate WentDown(h: seq<Event>, calls: seq<ToolCall>, safe: ToolCall -> bool, gates: seq<Gate>, tools: Tools,
                           seen: Moments)
    requires |gates| == |calls|
  {
    exists i :: 0 <= i < |calls| && PanicsAt(i, h, calls, safe, gates, tools, seen)
  }

  ghost predicate PanicsAt(i: nat, h: seq<Event>, calls: seq<ToolCall>, safe: ToolCall -> bool, gates: seq<Gate>,
                           tools: Tools, seen: Moments)
    requires |gates| == |calls| && i < |calls|
  {
    RunsAlone(calls, safe, gates, i) && OnItsOwn(h, i) && tools(i, h).Panic?
    && Happened(h[..|h| - 1], calls, safe, gates, tools, seen, i)
  }

  /** The calls from one position to another are one batch of the partition. */
  predicate Stretch(calls: seq<ToolCall>, safe: ToolCall -> bool, m: nat, e: nat) {
    m < e <= |calls|
    && (0 < m ==> !(safe(calls[m - 1]) && safe(calls[m])))
    && (e < |calls| ==> !(safe(calls[e - 1]) && safe(calls[e])))
    && (e == m + 1 || forall k :: m <= k < e ==> safe(calls[k]))
  }

  /** The approved ones among the calls from one position to another. */
  ghost predicate ApprovedAmong(approved: seq<Indexed>, calls: seq<ToolCall>, gates: seq<Gate>, from: nat, to: nat)
    requires |gates| == |calls| && from <= to <= |calls|
  {
    DistinctBelow(approved, |calls|)
    && (forall k :: 0 <= k < |approved| ==>
          (from <= approved[k].index < to && approved[k].call == calls[approved[k].index]))
    && (forall i :: from <= i < to ==>
          (Calls(approved, i) <==> GateToolCall(calls[i], gates[i]).None?))
  }

  method GateBatch(batch: seq<Indexed>, gates: seq<Gate>, results: array<Block>, ghost calls: seq<ToolCall>,
                   ghost m: nat)
    returns (approved: seq<Indexed>, ghost wrote: seq<nat>)
    requires |gates| == |calls| == results.Length && m + |batch| <= |calls|
    requires forall k :: 0 <= k < |batch| ==> batch[k] == Indexed(m + k, calls[m + k])
    modifies results
    ensures ApprovedAmong(approved, calls, gates, m, m + |batch|)
    ensures forall i :: 0 <= i < |calls| ==>
              results[i] == if m <= i < m + |batch| && GateToolCall(calls[i], gates[i]).Some?
                            then GateToolCall(calls[i], gates[i]).value else old(results[i])
    ensures WroteOnce(wrote, Denied(calls, gates, m, m + |batch|))
  {
    hide GateToolCall, Calls, WroteOnce, Denied, Names;
    approved, wrote := [], [];
    NothingDenied(calls, gates, m);
    var k := 0;
    ghost var e := m;
    NobodyCalled();
    while k < |batch|
      invariant 0 <= k <= |batch| && ApprovedAmong(approved, calls, gates, m, m + k)
      invariant forall i :: 0 <= i < |calls| ==>
                  results[i] == if m <= i < m + k && GateToolCall(calls[i], gates[i]).Some?
                                then GateToolCall(calls[i], gates[i]).value else old(results[i])
      invariant e == m + k && WroteOnce(wrote, Denied(calls, gates, m, e))
    {
      var ic := batch[k];
      DeniedNext(calls, gates, m, e);
      NotYetCalled(approved, m + k);
      var verdict := GateToolCall(ic.call, gates[ic.index]);
      if verdict.Some? {
        results[ic.index] := verdict.value;
        WroteOneMore(wrote, Denied(calls, gates, m, e), ic.index);
        wrote := wrote + [ic.index];
      } else {
        forall i: nat ensures Calls(approved + [ic], i) <==> Calls(approved, i) || i == ic.index {
          CallsOneMore(approved, ic, i);
        }
        approved := approved + [ic];
      }
      k := k + 1;
      e := e + 1;
    }
  }

  lemma NothingDenied(calls: seq<ToolCall>, gates: seq<Gate>, m: nat)
    requires |gates| == |calls| && m <= |calls|
    ensures WroteOnce([], Denied(calls, gates, m, m))
  {
  }

  lemma NobodyCalled()
    ensures forall i :: !Calls([], i)
  {
  }

  lemma NotYetCalled(approved: seq<Indexed>, n: nat)
    requires forall k :: 0 <= k < |approved| ==> approved[k].index < n
    ensures !Calls(approved, n)
  {
  }

  /** What was seen of the calls before a position, and then of those from there on. */
  function Merge(before: Moments, after: Moments, m: nat): (r: Moments)
    ensures forall i :: i in r <==> if i < m then i in before else i in after
    ensures forall i :: i in r ==> r[i] == if i < m then before[i] else after[i]
  {
    map i | i in before.Keys + after.Keys && (if i < m then i in before else i in after)
      :: if i < m then before[i] else after[i]
  }

  lemma BatchAnswered(was: seq<Block>, gated: seq<Block>, now: seq<Block>, approved: seq<Indexed>, calls: seq<ToolCall>,
                      gates: seq<Gate>, tools: Tools, before: Moments, seen: Moments,
                      m: nat, e: nat)
    requires |gates| == |calls| == |was| == |gated| && m <= e <= |calls|
    requires AllAnswered(was, calls, gates, tools, before, m)
    requires ApprovedAmong(approved, calls, gates, m, e)
    requires forall i :: 0 <= i < |calls| ==>
               gated[i] == if m <= i < e && GateToolCall(calls[i], gates[i]).Some?
                           then GateToolCall(calls[i], gates[i]).value else was[i]
    requires Ran(approved, tools, seen, gated, now)
    ensures AllAnswered(now, calls, gates, tools, Merge(before, seen, m), e)
  {
    hide ResultOf, GateToolCall, Calls;
    forall i | 0 <= i < e ensures Answered(now[i], i, calls[i], gates[i], tools, Merge(before, seen, m)) {
      if i < m {
        assert Answered(was[i], i, calls[i], gates[i], tools, before);
        OutOfRange(approved, m, i);
      } else if GateToolCall(calls[i], gates[i]).None? {
        var k := CallOf(approved, i);
        assert now[approved[k].index] == ResultOf(approved[k].call, tools(i, seen[i]));
      } else {
        assert !Calls(approved, i);
      }
    }
  }

  lemma OutOfRange(approved: seq<Indexed>, m: nat, i: nat)
    requires i < m && forall k :: 0 <= k < |approved| ==> m <= approved[k].index
    ensures !Calls(approved, i)
  {
  }

  lemma CallOf(calls: seq<Indexed>, i: nat) returns (k: nat)
    requires Calls(calls, i)
    ensures k < |calls| && calls[k].index == i
  {
    k :| 0 <= k < |calls| && calls[k].index == i;
  }

  // ---- one batch among the others

  /** Calls of different batches are apart. */
  lemma BatchesAreApart(calls: seq<ToolCall>, safe: ToolCall -> bool, m: nat, e: nat, i: nat, j: nat)
    requires Stretch(calls, safe, m, e) && i < |calls| && j < |calls| && m <= i < e && !(m <= j < e)
    ensures Apart(calls, safe, i, j) && Apart(calls, safe, j, i)
  {
    var k := if j < m then if safe(calls[m]) then m - 1 else m else if safe(calls[e]) then e - 1 else e;
    assert !safe(calls[k]) && (i <= k <= j || j <= k <= i);
  }

  lemma SameBatch(calls: seq<ToolCall>, safe: ToolCall -> bool, m: nat, e: nat, i: nat, j: nat)
    requires Stretch(calls, safe, m, e) && m <= i < e && m <= j < e && i != j
    ensures !Apart(calls, safe, i, j)
  {
  }

  /** What may run up to the end of a batch: what could before it, and what was approved of it. */
  lemma AllowedOneBatch(approved: seq<Indexed>, calls: seq<ToolCall>, gates: seq<Gate>, m: nat, e: nat)
    requires |gates| == |calls| && m <= e <= |calls| && ApprovedAmong(approved, calls, gates, m, e)
    ensures Allowed(calls, gates, e) == Allowed(calls, gates, m) + Names(approved)
    ensures forall i :: i in Names(approved) <==> m <= i < e && GateToolCall(calls[i], gates[i]).None?
  {
    hide GateToolCall;
    forall i: nat ensures i in Names(approved) <==> m <= i < e && GateToolCall(calls[i], gates[i]).None? {
      if Calls(approved, i) {
        var k := CallOf(approved, i);
      }
    }
  }

  /** Which of a batch's calls run alone: its one approved call, and none of several. */
  lemma WhoRunsAlone(approved: seq<Indexed>, calls: seq<ToolCall>, safe: ToolCall -> bool, gates: seq<Gate>, m: nat,
                     e: nat, k: nat)
    requires |gates| == |calls| && Stretch(calls, safe, m, e) && ApprovedAmong(approved, calls, gates, m, e)
    requires k < |approved|
    ensures RunsAlone(calls, safe, gates, approved[k].index) <==> |approved| == 1
  {
    hide GateToolCall, Apart;
    var i := approved[k].index;
    AllowedOneBatch(approved, calls, gates, m, e);
    assert Calls(approved, i);
    if |approved| == 1 {
      forall j | j in Allowed(calls, gates, |calls|) && j != i ensures Apart(calls, safe, i, j) {
        if !(m <= j < e) {
          BatchesAreApart(calls, safe, m, e, i, j);
        } else {
          assert false;
        }
      }
    } else {
      var l := if k == 0 then 1 else 0;
      var j := approved[l].index;
      assert Calls(approved, j) && j != i;
      SameBatch(calls, safe, m, e, i, j);
    }
  }

  /** One more batch ran: on its own when only one of its calls may run, and else in any order. */
  lemma OneMoreBatch(h: seq<Event>, k: seq<Event>, approved: seq<Indexed>, calls: seq<ToolCall>, safe: ToolCall -> bool,
                     gates: seq<Gate>, tools: Tools, before: Moments, ran: Moments, m: nat, e: nat)
    requires |gates| == |calls| && Stretch(calls, safe, m, e) && ApprovedAmong(approved, calls, gates, m, e)
    requires Happened(h, calls, safe, gates, tools, before, m)
    requires Records(h, k, Names(approved), Names(approved), ran)
    requires |approved| == 1 ==> OneAtATime(approved, tools, ran)
    ensures Happened(k, calls, safe, gates, tools, Merge(before, ran, m), e)
  {
    hide GateToolCall, Apart, RunsAlone, Records, OnItsOwn, Calls, ApprovedAmong;
    var seen := Merge(before, ran, m);
    var now := Allowed(calls, gates, e);
    AllowedOneBatch(approved, calls, gates, m, e);
    WasSeen([], h, Allowed(calls, gates, m), Allowed(calls, gates, m), before);
    WasSeen(h, k, Names(approved), Names(approved), ran);
    RecordsJoin(h, k, Allowed(calls, gates, m), Names(approved), Names(approved), before, ran, seen);
    forall i | i in now && RunsAlone(calls, safe, gates, i)
      ensures OnItsOwn(seen[i], i) && !tools(i, seen[i]).Panic?
    {
      if i >= m {
        var n := CallOf(approved, i);
        WhoRunsAlone(approved, calls, safe, gates, m, e, n);
      }
    }
    forall i, j | i in now && j in now && i < j && Apart(calls, safe, i, j) ensures Started(j) !in seen[i] {
      if i >= m {
        SameBatch(calls, safe, m, e, i, j);
      } else if j >= m {
        NotThere(h, Allowed(calls, gates, m), before, i, j);
      }
    }
  }

  lemma WasSeen(history: seq<Event>, h: seq<Event>, began: set<nat>, ended: set<nat>, seen: Moments)
    requires Records(history, h, began, ended, seen)
    ensures forall i :: i in ended ==> i in seen
  {
  }

  lemma NotThere(h: seq<Event>, ran: set<nat>, seen: Moments, i: nat, j: nat)
    requires Records([], h, ran, ran, seen) && i in ran && j !in ran
    ensures Started(j) !in seen[i]
  {
    assert EndedAfter([], h, i, seen[i]);
    forall p | 0 <= p < |seen[i]| ensures seen[i][p] != Started(j) {
      assert seen[i][p] == h[p] && h[p] in h[0..];
    }
  }

  lemma NoneApproved(h: seq<Event>, approved: seq<Indexed>, tools: Tools, now: seq<Block>)
    requires approved == []
    ensures Ran(approved, tools, map[], now, now) && Records(h, h, Names(approved), Names(approved), map[])
  {
    assert Names(approved) == {};
  }

  /** The batch's one approved call took the process down. */
  lemma DownInBatch(h: seq<Event>, k: seq<Event>, approved: seq<Indexed>, calls: seq<ToolCall>, safe: ToolCall -> bool,
                    gates: seq<Gate>, tools: Tools, before: Moments, ran: Moments, m: nat, e: nat)
    requires |gates| == |calls| && Stretch(calls, safe, m, e) && ApprovedAmong(approved, calls, gates, m, e)
    requires |approved| == 1 && Happened(h, calls, safe, gates, tools, before, m)
    requires Records(h, k, Names(approved), {}, ran)
    requires OnItsOwn(k, approved[0].index) && tools(approved[0].index, k).Panic?
    ensures WentDown(k, calls, safe, gates, tools, before)
  {
    hide GateToolCall, Apart, Happened, OnItsOwn, RunsAlone;
    var i := approved[0].index;
    WhoRunsAlone(approved, calls, safe, gates, m, e, 0);
    JustStarted(h, k, i, Names(approved), ran);
    AllowedOneBatch(approved, calls, gates, m, e);
    SameAllowed(approved, calls, gates, m, e, i);
    StillHappened(h, calls, safe, gates, tools, before, m, i);
    assert PanicsAt(i, k, calls, safe, gates, tools, before);
  }

  lemma JustStarted(h: seq<Event>, k: seq<Event>, i: nat, began: set<nat>, ran: Moments)
    requires Records(h, k, began, {}, ran) && (forall j :: j in began <==> j == i)
    ensures k == h + [Started(i)] && k[..|k| - 1] == h
  {
    assert Started(i) in k[|h|..];
    forall p | |h| <= p < |k| ensures k[p] == k[|h|] && p == |h| {
      assert k[p] in k[|h|..] && k[|h|] in k[|h|..];
    }
    var last := |k| - 1;
    assert k[last] == k[|h|];
    assert k == h + k[|h|..];
  }

  lemma SameAllowed(approved: seq<Indexed>, calls: seq<ToolCall>, gates: seq<Gate>, m: nat, e: nat, i: nat)
    requires |gates| == |calls| && m <= e <= |calls| && ApprovedAmong(approved, calls, gates, m, e)
    requires |approved| == 1 && approved[0].index == i
    ensures i < |calls| && Allowed(calls, gates, i) == Allowed(calls, gates, m)
  {
    hide GateToolCall;
    forall j | m <= j < i ensures GateToolCall(calls[j], gates[j]).Some? {
      assert !Calls(approved, j);
    }
  }

  lemma StillHappened(h: seq<Event>, calls: seq<ToolCall>, safe: ToolCall -> bool, gates: seq<Gate>, tools: Tools,
                      seen: Moments, m: nat, i: nat)
    requires |gates| == |calls| && m <= |calls| && i <= |calls| && Allowed(calls, gates, i) == Allowed(calls, gates, m)
    requires Happened(h, calls, safe, gates, tools, seen, m)
    ensures Happened(h, calls, safe, gates, tools, seen, i)
  {
    hide Allowed, RunsAlone, Apart, Records, OnItsOwn;
  }

  /** One batch: gate in order, then run what was approved, in parallel when there is more than one safe call. */
  method RunBatch(batch: Batch, gates: seq<Gate>, tools: Tools, history: seq<Event>, results: array<Block>,
                  ghost calls: seq<ToolCall>, ghost safe: ToolCall -> bool, ghost before: Moments,
                  ghost m: nat)
    returns (crashed: bool, h: seq<Event>, ghost seen: Moments, ghost wrote: seq<nat>)
    requires |gates| == |calls| == results.Length && Stretch(calls, safe, m, m + |batch.calls|)
    requires batch.safe || |batch.calls| == 1
    requires forall k :: 0 <= k < |batch.calls| ==> batch.calls[k] == Indexed(m + k, calls[m + k])
    requires NeverMoreThan(history, MAX_PARALLEL) && Open(history) == 0
    requires AllAnswered(results[..], calls, gates, tools, before, m)
    requires Happened(history, calls, safe, gates, tools, before, m)
    modifies results
    ensures history <= h && NeverMoreThan(h, MAX_PARALLEL)
    ensures !crashed ==> Open(h) == 0 && AllAnswered(results[..], calls, gates, tools, seen, m + |batch.calls|)
    ensures !crashed ==> Happened(h, calls, safe, gates, tools, seen, m + |batch.calls|)
    ensures !crashed ==> WroteEach(wrote, m, m + |batch.calls|)
    ensures crashed ==> WentDown(h, calls, safe, gates, tools, seen)
  {
    hide NeverMoreThan, Open, GateToolCall, ApprovedAmong, AllAnswered, Ran, Happened, WentDown, OneAtATime, Stretch;
    hide Names, Records, OnItsOwn, WroteOnce, WroteEach;
    ghost var was, e := results[..], m + |batch.calls|;
    StretchEnds(calls, safe, m, e);
    var approved;
    ghost var answers: seq<nat> := [];
    approved, wrote := GateBatch(batch.calls, gates, results, calls, m);
    WroteNothing();
    ghost var gated := results[..];
    crashed, h := false, history;
    ghost var ran: Moments := map[];
    ApprovedAreDistinct(approved, calls, gates, m, e);
    NoneApproved(h, [], tools, gated);
    if |approved| == 0 {
    } else if batch.safe && |approved| > 1 {
      h, ran, answers := ExecuteBatchParallel(approved, tools, history, results);
    } else {
      ghost var at;
      crashed, h, ran, at, answers := ExecuteBatchSerial(approved, tools, history, results);
      assert approved[..1] == approved && approved[..at] == if crashed then [] else approved;
    }
    StartsWith(history, h, approved, crashed, ran);
    if crashed {
      DownInBatch(history, h, approved, calls, safe, gates, tools, before, ran, m, e);
      seen := before;
    } else {
      seen := Merge(before, ran, m);
      BatchAnswered(was, gated, results[..], approved, calls, gates, tools, before, ran, m, e);
      OneMoreBatch(history, h, approved, calls, safe, gates, tools, before, ran, m, e);
      BatchWritten(approved, calls, gates, m, e, wrote, answers);
    }
    wrote := wrote + answers;
  }

  lemma StartsWith(history: seq<Event>, h: seq<Event>, approved: seq<Indexed>, crashed: bool, ran: Moments)
    requires Records(history, h, Names(approved), if crashed then Names([]) else Names(approved), ran)
    ensures history <= h && Names([]) == {}
  {
    assert Names([]) == {};
  }

  lemma ApprovedAreDistinct(approved: seq<Indexed>, calls: seq<ToolCall>, gates: seq<Gate>, from: nat, to: nat)
    requires |gates| == |calls| && from <= to <= |calls| && ApprovedAmong(approved, calls, gates, from, to)
    ensures DistinctBelow(approved, |calls|) && (to == from + 1 ==> |approved| <= 1)
  {
    if |approved| > 1 {
      assert approved[0].index != approved[1].index;
    }
  }

  lemma {:induction false} FlattenPrefix(batches: seq<Batch>, b: nat)
    requires b <= |batches|
    ensures Flatten(batches[..b]) <= Flatten(batches)
    decreases |batches| - b
  {
    if b == |batches| {
      assert batches[..b] == batches;
    } else {
      FlattenPrefix(batches, b + 1);
      assert batches[..b + 1][..b] == batches[..b];
    }
  }

  /** Where the next batch stands among the calls. */
  lemma BatchCovers(batches: seq<Batch>, calls: seq<ToolCall>, safe: ToolCall -> bool, b: nat, m: nat)
    requires b < |batches| && Partitions(batches, calls, safe) && m == |Flatten(batches[..b])|
    ensures m + |batches[b].calls| == |Flatten(batches[..b + 1])| && Stretch(calls, safe, m, m + |batches[b].calls|)
    ensures batches[b].safe || |batches[b].calls| == 1
    ensures forall k :: 0 <= k < |batches[b].calls| ==> batches[b].calls[k] == Indexed(m + k, calls[m + k])
  {
    hide Partitions, WellFormed, Stretch;
    var e := m + |batches[b].calls|;
    Neighbours(batches, calls, safe, b);
    CoversCalls(batches, calls, safe, b, m);
    CoversSafely(batches[b], calls, safe, m);
    if b > 0 {
      BatchBefore(batches, calls, safe, b, m);
    }
    if b + 1 < |batches| {
      CoversCalls(batches, calls, safe, b + 1, e);
      CoversSafely(batches[b + 1], calls, safe, e);
    } else {
      assert batches[..b + 1] == batches;
    }
    Between(calls, safe, m, e);
  }

  lemma Between(calls: seq<ToolCall>, safe: ToolCall -> bool, m: nat, e: nat)
    requires m < e <= |calls| && (e == m + 1 || forall k :: m <= k < e ==> safe(calls[k]))
    requires 0 < m ==> !(safe(calls[m - 1]) && safe(calls[m]))
    requires e < |calls| ==> !(safe(calls[e - 1]) && safe(calls[e]))
    ensures Stretch(calls, safe, m, e)
  {
  }

  lemma BatchBefore(batches: seq<Batch>, calls: seq<ToolCall>, safe: ToolCall -> bool, b: nat, m: nat)
    requires 0 < b < |batches| && Partitions(batches, calls, safe) && m == |Flatten(batches[..b])|
    ensures 0 < m <= |calls| && safe(calls[m - 1]) == batches[b - 1].safe
  {
    hide Partitions, WellFormed;
    assert batches[..b][..b - 1] == batches[..b - 1];
    var n := m - |batches[b - 1].calls|;
    CoversCalls(batches, calls, safe, b - 1, n);
    CoversSafely(batches[b - 1], calls, safe, n);
  }

  lemma CoversSafely(batch: Batch, calls: seq<ToolCall>, safe: ToolCall -> bool, m: nat)
    requires WellFormed(batch, safe) && m + |batch.calls| <= |calls|
    requires forall k :: 0 <= k < |batch.calls| ==> batch.calls[k] == Indexed(m + k, calls[m + k])
    ensures batch.calls != [] && (batch.safe || |batch.calls| == 1)
    ensures safe(calls[m]) == safe(calls[m + |batch.calls| - 1]) == batch.safe
    ensures forall k :: m <= k < m + |batch.calls| ==> safe(calls[k]) == batch.safe
  {
    forall k | m <= k < m + |batch.calls| ensures safe(calls[k]) == batch.safe {
      var j := k - m;
      assert safe(batch.calls[j].call) == batch.safe;
    }
  }

  lemma CoversCalls(batches: seq<Batch>, calls: seq<ToolCall>, safe: ToolCall -> bool, b: nat, m: nat)
    requires b < |batches| && Partitions(batches, calls, safe) && m == |Flatten(batches[..b])|
    ensures WellFormed(batches[b], safe) && m + |batches[b].calls| == |Flatten(batches[..b + 1])| <= |calls|
    ensures |Flatten(batches)| == |calls|
    ensures forall k :: 0 <= k < |batches[b].calls| ==> batches[b].calls[k] == Indexed(m + k, calls[m + k])
  {
    FlattenPrefix(batches, b + 1);
    var flat := Flatten(batches[..b + 1]);
    assert batches[..b + 1][..b] == batches[..b];
    assert flat == Flatten(batches[..b]) + batches[b].calls;
    forall k | 0 <= k < |batches[b].calls| ensures batches[b].calls[k] == Indexed(m + k, calls[m + k]) {
      assert batches[b].calls[k] == flat[m + k] == Numbered(calls)[m + k];
    }
  }

  lemma Neighbours(batches: seq<Batch>, calls: seq<ToolCall>, safe: ToolCall -> bool, b: nat)
    requires b < |batches| && Partitions(batches, calls, safe)
    ensures b > 0 ==> !(batches[b - 1].safe && batches[b].safe)
    ensures b + 1 < |batches| ==> !(batches[b].safe && batches[b + 1].safe)
    ensures forall k :: 0 <= k < |batches| ==> WellFormed(batches[k], safe)
  {
    if b + 1 < |batches| {
      var c := b + 1;
      assert !(batches[c - 1].safe && batches[c].safe);
    }
  }

  /** Every slot holds the denial, or what its call answered with the history behind it that was seen. */
  ghost predicate Answers(content: seq<Block>, calls: seq<ToolCall>, gates: seq<Gate>, tools: Tools,
                          seen: Moments)
    requires |gates| == |calls|
  {
    |content| == |calls| && AllAnswered(content, calls, gates, tools, seen, |calls|)
  }

  /**
   * Runs a turn's calls; the message answers every one of them, in call order, and each slot is written once. No
   * message: a tool took us down.
   */
  method ExecuteTools(calls: seq<ToolCall>, safe: ToolCall -> bool, gates: seq<Gate>, tools: Tools)
    returns (r: Option<Message>, h: seq<Event>, ghost seen: Moments, ghost wrote: seq<nat>)
    requires |gates| == |calls|
    ensures NeverMoreThan(h, 10)
    ensures r.Some? ==> WroteEach(wrote, 0, |calls|)
    ensures r.Some? ==> r.value.role == "user" && Answers(r.value.content, calls, gates, tools, seen)
    ensures r.Some? ==> Open(h) == 0 && Happened(h, calls, safe, gates, tools, seen, |calls|)
    ensures r.None? ==> WentDown(h, calls, safe, gates, tools, seen)
  {
    hide NeverMoreThan, Open, AllAnswered, WentDown, WellFormed, Happened, Stretch, Partitions, WroteEach;
    var results := new Block[|calls|](_ => TextBlock(""));
    var batches := PartitionToolCalls(calls, safe);
    h, seen, wrote := [], map[], [];
    var b := 0;
    ghost var m := 0;
    NothingYet(results[..], calls, safe, gates, tools);
    while b < |batches|
      invariant 0 <= b <= |batches| && m == |Flatten(batches[..b])| <= |calls|
      invariant NeverMoreThan(h, MAX_PARALLEL) && Open(h) == 0
      invariant AllAnswered(results[..], calls, gates, tools, seen, m)
      invariant Happened(h, calls, safe, gates, tools, seen, m) && WroteEach(wrote, 0, m)
    {
      BatchCovers(batches, calls, safe, b, m);
      var crashed;
      ghost var more;
      crashed, h, seen, more := RunBatch(batches[b], gates, tools, h, results, calls, safe, seen, m);
      if crashed {
        return None, h, seen, wrote;
      }
      ghost var next := m + |batches[b].calls|;
      StretchEnds(calls, safe, m, next);
      WroteNext(wrote, more, 0, m, next);
      wrote := wrote + more;
      m := next;
      b := b + 1;
    }
    assert batches[..b] == batches;
    PartitionsAll(batches, calls, safe);
    return Some(Message("user", results[..])), h, seen, wrote;
  }

  lemma StretchEnds(calls: seq<ToolCall>, safe: ToolCall -> bool, m: nat, e: nat)
    requires Stretch(calls, safe, m, e)
    ensures e <= |calls|
  {
  }

  lemma PartitionsAll(batches: seq<Batch>, calls: seq<ToolCall>, safe: ToolCall -> bool)
    requires Partitions(batches, calls, safe)
    ensures |Flatten(batches)| == |calls|
  {
  }

  lemma NothingYet(content: seq<Block>, calls: seq<ToolCall>, safe: ToolCall -> bool, gates: seq<Gate>, tools: Tools)
    requires |gates| == |calls| == |content|
    ensures AllAnswered(content, calls, gates, tools, map[], 0) && Happened([], calls, safe, gates, tools, map[], 0)
    ensures NeverMoreThan([], MAX_PARALLEL) && Open([]) == 0 && WroteEach([], 0, 0)
  {
    assert Allowed(calls, gates, 0) == {};
  }

  // ---- what the message means

  /** An unsafe call never overlaps another: each other one is over before it starts or starts after it is over. */
  lemma UnsafeCallsExclude(h: seq<Event>, calls: seq<ToolCall>, safe: ToolCall -> bool, gates: seq<Gate>, tools: Tools,
                           seen: Moments, i: nat, j: nat)
    requires |gates| == |calls| && Happened(h, calls, safe, gates, tools, seen, |calls|)
    requires i in Allowed(calls, gates, |calls|) && j in Allowed(calls, gates, |calls|) && i != j && !safe(calls[i])
    ensures i in seen && |seen[i]| > 0 && seen[i] + [Ended(i)] <= h && seen[i][|seen[i]| - 1] == Started(i)
    ensures j < i ==> Ended(j) in seen[i][..|seen[i]| - 1]
    ensures i < j ==> Started(j) !in seen[i]
  {
    hide GateToolCall, Open, Records, EndedAfter;
    assert Apart(calls, safe, i, j) && Apart(calls, safe, j, i);
    assert RunsAlone(calls, safe, gates, i);
    BothRecorded(h, Allowed(calls, gates, |calls|), seen, i, j);
    if j < i {
      OverBefore(h, seen[i], seen[j], i, j);
    }
  }

  lemma BothRecorded(h: seq<Event>, ran: set<nat>, seen: Moments, i: nat, j: nat)
    requires Records([], h, ran, ran, seen) && i in ran && j in ran
    ensures i in seen && j in seen && EndedAfter([], h, i, seen[i]) && EndedAfter([], h, j, seen[j])
    ensures seen[i] + [Ended(i)] <= h
  {
    assert EndedAfter([], h, i, seen[i]) && EndedAfter([], h, j, seen[j]);
  }

  lemma OverBefore(h: seq<Event>, s: seq<Event>, t: seq<Event>, i: nat, j: nat)
    requires EndedAfter([], h, i, s) && EndedAfter([], h, j, t)
    requires s != [] && s[|s| - 1] == Started(i) && Started(i) !in t
    ensures Ended(j) in s[..|s| - 1]
  {
    var last := |s| - 1;
    assert h[last] == Started(i);
    forall p | 0 <= p < |t| ensures h[p] != Started(i) {
      assert h[p] == t[p];
    }
    assert s[..last][|t|] == h[|t|];
  }

  /** Block i answers call i, whatever the order, the approvals and the tools. */
  lemma EverySlotAnswersItsCall(content: seq<Block>, calls: seq<ToolCall>, gates: seq<Gate>, tools: Tools,
                                seen: Moments)
    requires |gates| == |calls| && Answers(content, calls, gates, tools, seen)
    ensures |content| == |calls|
    ensures forall i :: 0 <= i < |calls| ==> content[i].kind == "tool_result" && content[i].toolUseId == calls[i].id
  {
    hide GateToolCall, ResultOf;
    forall i | 0 <= i < |calls| ensures content[i].kind == "tool_result" && content[i].toolUseId == calls[i].id {
      assert Answered(content[i], i, calls[i], gates[i], tools, seen);
      var o := if i in seen then tools(i, seen[i]) else Panic("");
      SlotAnswersItsCall(calls[i], gates[i], o);
      assert content[i] == Slot(calls[i], gates[i], o);
    }
  }

  /** Neither a hook nor the user stands in the way. */
  predicate MayRun(g: Gate) {
    g.hook != Deny && (g.hook == Ask ==> g.approver != NoApprover) && g.approver != Refuses
  }

  /** A short answer as it is; of a long one both ends and how much is missing between them. */
  predicate Shows(result: string, answer: string) {
    if |answer| <= 30000 then result == answer
    else
      result == answer[..15000] + ("\n\n... (" + Decimal(|answer| - 30000) + " chars omitted) ...\n\n")
                + answer[|answer| - 15000..]
  }

  /** Why a call was denied, in the order the reasons are looked at. */
  function WhyDenied(call: ToolCall, g: Gate): string {
    "Tool call \"" + call.name + "\" "
    + (if g.hook == Deny then "was denied by a hook."
       else if g.hook == Ask && g.approver == NoApprover then "requires approval but no approver is available."
       else "was denied by the user.")
  }

  /** What each block of the message says: the answer, what was raised, or why the call was denied. */
  lemma BlockSays(content: seq<Block>, calls: seq<ToolCall>, gates: seq<Gate>, tools: Tools, seen: Moments, i: nat)
    requires |gates| == |calls| && Answers(content, calls, gates, tools, seen) && i < |calls|
    ensures var b := content[i];
            if !MayRun(gates[i]) then b.isError && b.result == WhyDenied(calls[i], gates[i])
            else
              i in seen
              && match tools(i, seen[i])
                 case Answer(answer, isError) => b.isError == isError && Shows(b.result, answer)
                 case Panic(what) => b.isError && b.result == "tool panic: " + what
  {
    assert Answered(content[i], i, calls[i], gates[i], tools, seen);
    if MayRun(gates[i]) && tools(i, seen[i]).Answer? {
      TruncationShows(tools(i, seen[i]).content);
    }
    hide TruncateForContext, Shows;
  }

  lemma TruncationShows(answer: string)
    ensures Shows(TruncateForContext(answer, OVERSIZE), answer)
  {
    hide Decimal;
  }

  /** No tool's answer depends on what else ran before or beside it. */
  ghost predicate Independent(tools: Tools) {
    forall i, h, k :: tools(i, h) == tools(i, k)
  }

  /** The blocks and the history when the first calls are taken strictly one by one; none when a tool panics. */
  function SerialRun(calls: seq<ToolCall>, gates: seq<Gate>, tools: Tools, n: nat): Option<(seq<Block>, seq<Event>)>
    requires |gates| == |calls| && n <= |calls|
  {
    if n == 0 then Some(([], []))
    else match SerialRun(calls, gates, tools, n - 1)
         case None => None
         case Some((blocks, h)) =>
           match GateToolCall(calls[n - 1], gates[n - 1])
           case Some(denial) => Some((blocks + [denial], h))
           case None =>
             var behind := h + [Started(n - 1)];
             var o := tools(n - 1, behind);
             if o.Panic? then None else Some((blocks + [ResultOf(calls[n - 1], o)], behind + [Ended(n - 1)]))
  }

  /** A call that may run panics. */
  predicate SomePanic(calls: seq<ToolCall>, gates: seq<Gate>, tools: Tools, n: nat)
    requires |gates| == |calls| && n <= |calls|
  {
    exists i :: 0 <= i < n && GateToolCall(calls[i], gates[i]).None? && tools(i, []).Panic?
  }

  /**
   * With independent tools no schedule can be told from taking the calls one by one, as long as no tool panics; and
   * taken one by one they come to an end exactly when none does.
   */
  lemma ScheduleDoesNotShow(content: seq<Block>, calls: seq<ToolCall>, gates: seq<Gate>, tools: Tools,
                            seen: Moments)
    requires |gates| == |calls| && Answers(content, calls, gates, tools, seen) && Independent(tools)
    ensures var alone := SerialRun(calls, gates, tools, |calls|);
            (alone.None? <==> SomePanic(calls, gates, tools, |calls|)) && (alone.Some? ==> alone.value.0 == content)
  {
    SerialRunAnswers(content, calls, gates, tools, seen, |calls|);
    assert content[..|calls|] == content;
  }

  lemma {:induction false} SerialRunAnswers(content: seq<Block>, calls: seq<ToolCall>, gates: seq<Gate>, tools: Tools,
                                            seen: Moments, n: nat)
    requires |gates| == |calls| && Answers(content, calls, gates, tools, seen) && Independent(tools) && n <= |calls|
    ensures var alone := SerialRun(calls, gates, tools, n);
            (alone.None? <==> SomePanic(calls, gates, tools, n)) && (alone.Some? ==> alone.value.0 == content[..n])
  {
    hide GateToolCall, ResultOf;
    if n > 0 {
      SerialRunAnswers(content, calls, gates, tools, seen, n - 1);
      assert Answered(content[n - 1], n - 1, calls[n - 1], gates[n - 1], tools, seen);
      assert content[..n] == content[..n - 1] + [content[n - 1]];
      var before := SerialRun(calls, gates, tools, n - 1);
      if before.Some? && GateToolCall(calls[n - 1], gates[n - 1]).None? {
        assert tools(n - 1, before.value.1 + [Started(n - 1)]) == tools(n - 1, []) == tools(n - 1, seen[n - 1]);
      }
    }
  }

  /** And a turn that a tool takes down goes down as well when the calls are taken one by one. */
  lemma GoesDownEitherWay(h: seq<Event>, calls: seq<ToolCall>, safe: ToolCall -> bool, gates: seq<Gate>, tools: Tools,
                          seen: Moments)
    requires |gates| == |calls| && WentDown(h, calls, safe, gates, tools, seen) && Independent(tools)
    ensures SerialRun(calls, gates, tools, |calls|).None?
  {
    hide GateToolCall, Happened, OnItsOwn, SerialRun;
    var i :| 0 <= i < |calls| && PanicsAt(i, h, calls, safe, gates, tools, seen);
    assert tools(i, h) == tools(i, []);
    PanicStops(calls, gates, tools, i, |calls|);
  }

  lemma {:induction false} PanicStops(calls: seq<ToolCall>, gates: seq<Gate>, tools: Tools, i: nat, n: nat)
    requires |gates| == |calls| && i < n <= |calls| && Independent(tools)
    requires GateToolCall(calls[i], gates[i]).None? && tools(i, []).Panic?
    ensures SerialRun(calls, gates, tools, n).None?
  {
    hide GateToolCall, ResultOf;
    if i < n - 1 {
      PanicStops(calls, gates, tools, i, n - 1);
    } else {
      var before := SerialRun(calls, gates, tools, n - 1);
      assert before.Some? ==> tools(i, before.value.1 + [Started(i)]) == tools(i, []);
    }
  }
}
