/** The decide-and-act loop: what it sends, what it thinks that weighs, and when it stops making room. */
module AgentLoop {
  import opened Messages
  import opened AutoCompact
  import opened ToolExecution
  import opened Wrappers

  const RESPONSE_RESERVE: nat := 8192

  datatype CompactConfig = CompactConfig(bufferTokens: int, maxFailures: int, keepRecent: nat, outputReserve: int,
                                         enabled: bool)

  function Threshold(window: int, cfg: CompactConfig): int {
    AtLeastZero(window - cfg.outputReserve) - cfg.bufferTokens
  }

  datatype Collected = Collected(text: string, calls: seq<ToolCall>, stopReason: string)

  /** What the outside does in one turn; no response stands for a provider error. */
  datatype Turn = Turn(window: int, hook: seq<MessageRef>, response: Option<Collected>, gates: seq<Gate>, tools: Tools,
                       cancelled: bool)

  predicate Gated(t: Turn) {
    t.response.Some? ==> |t.gates| == |t.response.value.calls|
  }

  datatype Outcome = Answered(text: string, turns: nat) | ProviderFailed | Crashed | Cancelled | OutOfTurns

  /**
   * What goes to the provider for a whole conversation: the messages sent, and what the loop took them to weigh before
   * and after any attempt to make room.
   */
  datatype Request = Request(whole: seq<Message>, hook: seq<Message>, msgs: seq<Message>, before: nat, estimate: nat,
                             budget: nat, attempted: bool, compacted: bool)

  /** What is cached, and how many attempts to compact have failed in a row. */
  datatype Tally = Tally(cached: nat, total: nat, failures: nat)

  /** Under pressure and with the breaker closed room is made, and what was made counts when it freed something. */
  function RequestFor(whole: seq<Message>, hook: seq<Message>, window: int, cfg: CompactConfig, tally: Tally)
    : (q: Request)
    ensures q.whole == whole && q.hook == hook
  {
    var before, threshold := Estimate(tally.cached, tally.total, whole), Threshold(window, cfg);
    var attempted := cfg.enabled && tally.failures < cfg.maxFailures && before >= threshold;
    var s := Shrink(whole, threshold, cfg.keepRecent);
    var compacted := attempted && s.freed > 0;
    var msgs := if compacted then Restore(s, hook) else whole;
    var estimate := if compacted then Weight(msgs) else before;
    var budget := AtLeastZero(window - RESPONSE_RESERVE - estimate);
    Request(whole, hook, msgs, before, estimate, budget, attempted, compacted)
  }

  /** The cache now stands for what was sent, and the breaker has counted the attempt. */
  function TallyAfter(q: Request, failures: nat): Tally {
    Tally(|q.msgs|, q.estimate, if !q.attempted then failures else if q.compacted then 0 else failures + 1)
  }

  /** The estimate is the full recount, and the budget is what it leaves of the window. */
  ghost predicate Measured(q: Request, window: int) {
    q.estimate == Weight(q.msgs) && q.budget == AtLeastZero(window - RESPONSE_RESERVE - q.estimate)
  }

  /** The recent messages of the whole conversation reach the provider as they are, at the end. */
  predicate RecentSent(q: Request, keepRecent: nat) {
    var k := if q.compacted then Min(|q.whole|, keepRecent) else |q.whole|;
    k <= |q.msgs| && Last(q.msgs, k) == Last(q.whole, k) && (!q.compacted ==> q.msgs == q.whole)
  }

  function ToolUses(calls: seq<ToolCall>): (r: seq<Block>)
    ensures |r| == |calls|
  {
    seq(|calls|, i requires 0 <= i < |calls| =>
      Block("tool_use", "", calls[i].id, calls[i].name, calls[i].input, "", "", false))
  }

  function AssistantMessage(c: Collected): Message {
    Message("assistant", (if c.text == "" then [] else [TextBlock(c.text)]) + ToolUses(c.calls))
  }

  /** How a turn leaves off: with the conversation so far, without an answer, or with the process down. */
  datatype TurnEnd = Went(messages: array<MessageRef>) | NoAnswer | Down

  // ---- what a run promises

  /** Each turn's conversation is the one sent the turn before, the answer to it and the results of its tools. */
  ghost predicate Chained(requests: seq<Request>, env: seq<Turn>, safe: ToolCall -> bool)
    requires |requests| <= |env|
  {
    forall k :: 0 <= k < |requests| - 1 ==> Follows(requests[k], env[k], safe, requests[k + 1].whole)
  }

  ghost predicate Follows(q: Request, t: Turn, safe: ToolCall -> bool, next: seq<Message>) {
    t.response.Some? && Gated(t) && Grown(q.msgs, next, t, safe)
  }

  predicate GoesOn(t: Turn) {
    t.response.Some? && t.response.value.stopReason != "end_turn" && !t.cancelled
  }

  /** A run ends with the first turn that does not go on, or with the turns it is allowed. */
  ghost predicate EndsAsDue(o: Outcome, requests: seq<Request>, env: seq<Turn>, safe: ToolCall -> bool, maxTurns: nat)
    requires |requests| <= |env|
  {
    var last := |requests| - 1;
    (forall k :: 0 <= k < last ==> GoesOn(env[k]))
    && match o
       case OutOfTurns => |requests| == maxTurns && (maxTurns > 0 ==> GoesOn(env[last]))
       case Answered(text, turns) =>
         turns == |requests| > 0 && env[last].response.Some?
         && env[last].response.value.stopReason == "end_turn" && env[last].response.value.text == text
       case ProviderFailed => requests != [] && env[last].response.None?
       case Cancelled => requests != [] && env[last].cancelled
       case Crashed => requests != [] && TakenDown(env[last], safe)
  }

  /** The answer asked for tools, and one of those run alone panicked. */
  ghost predicate TakenDown(t: Turn, safe: ToolCall -> bool) {
    t.response.Some? && Gated(t) && t.response.value.stopReason == "tool_use"
    && exists h, seen :: WentDown(h, t.response.value.calls, safe, t.gates, t.tools, seen)
  }

  /** Where the cache and the breaker stand after some requests. */
  function Standing(requests: seq<Request>, first: Tally): Tally {
    if requests == [] then first
    else
      var last := |requests| - 1;
      TallyAfter(requests[last], Standing(requests[..last], first).failures)
  }

  /**
   * Over one run that starts with a conversation and a tally: each request is the one due for the conversation so far,
   * and each conversation is the one sent before, the answer and its tool results.
   */
  ghost predicate Made(requests: seq<Request>, env: seq<Turn>, safe: ToolCall -> bool, cfg: CompactConfig,
                       start: seq<Message>, first: Tally) {
    |requests| <= |env|
    && (requests != [] ==> requests[0].whole == start)
    && Chained(requests, env, safe)
    && forall k :: 0 <= k < |requests| ==> Due(requests[k], env[k], cfg, Standing(requests[..k], first))
  }

  ghost predicate Due(q: Request, t: Turn, cfg: CompactConfig, tally: Tally) {
    q == RequestFor(q.whole, q.hook, t.window, cfg, tally)
  }

  // ---- what follows over a whole run

  /** The recent part of the conversation is in every request. */
  lemma RecentAlwaysSent(requests: seq<Request>, env: seq<Turn>, safe: ToolCall -> bool, cfg: CompactConfig,
                         start: seq<Message>, first: Tally, k: nat)
    requires Made(requests, env, safe, cfg, start, first) && k < |requests|
    ensures RecentSent(requests[k], cfg.keepRecent)
  {
    hide Weight, Shrink, Restore, Estimate, Standing;
    var q := requests[k];
    assert Due(q, env[k], cfg, Standing(requests[..k], first));
    RecentMessagesSurvive(q.whole, Threshold(env[k].window, cfg), cfg.keepRecent, q.hook);
  }

  /** A request before this position was compacted. */
  predicate CompactedBefore(requests: seq<Request>, k: nat)
    requires k <= |requests|
  {
    exists j :: 0 <= j < k && requests[j].compacted
  }

  /**
   * A request is decided on the exact weight exactly when the cache stood for the front of the first conversation or an
   * earlier request was compacted, and measured right exactly when that or it was compacted itself.
   */
  lemma {:induction false} MeasuredExactlyWhen(requests: seq<Request>, env: seq<Turn>, safe: ToolCall -> bool,
                                               cfg: CompactConfig, start: seq<Message>, first: Tally, k: nat)
    requires Made(requests, env, safe, cfg, start, first) && k < |requests|
    ensures requests[k].before == Weight(requests[k].whole) <==>
              Counts(first.cached, first.total, start) || CompactedBefore(requests, k)
    ensures Measured(requests[k], env[k].window) <==>
              Counts(first.cached, first.total, start) || CompactedBefore(requests, k + 1)
  {
    hide Weight, Estimate, Counts, Measured, Standing, Grown, CompactedBefore;
    var q, tally := requests[k], Standing(requests[..k], first);
    assert Due(q, env[k], cfg, tally);
    DueMeasured(q, env[k], cfg, tally);
    CompactedAt(requests, k);
    if k == 0 {
      StandsAtFirst(first);
      assert requests[..0] == [];
    } else {
      var last := requests[k - 1];
      MeasuredExactlyWhen(requests, env, safe, cfg, start, first, k - 1);
      assert Follows(last, env[k - 1], safe, q.whole);
      GrownIsLonger(last.msgs, q.whole, env[k - 1], safe);
      StandsFor(requests, first, k);
      assert Due(last, env[k - 1], cfg, Standing(requests[..k - 1], first));
      MeasuredWeighs(last, env[k - 1], cfg, Standing(requests[..k - 1], first));
      StillCounts(last.msgs, last.estimate, q.whole);
    }
  }

  lemma CompactedAt(requests: seq<Request>, k: nat)
    requires k < |requests|
    ensures CompactedBefore(requests, k + 1) <==> CompactedBefore(requests, k) || requests[k].compacted
    ensures !CompactedBefore(requests, 0)
  {
  }

  lemma CompactedStays(requests: seq<Request>, k: nat)
    requires k < |requests|
    ensures CompactedBefore(requests, 1) ==> CompactedBefore(requests, k + 1)
  {
  }

  /** So every request of a run is measured right exactly when the first one is. */
  lemma RunMeasuredExactlyWhen(requests: seq<Request>, env: seq<Turn>, safe: ToolCall -> bool, cfg: CompactConfig,
                               start: seq<Message>, first: Tally)
    requires Made(requests, env, safe, cfg, start, first) && requests != []
    ensures (forall k :: 0 <= k < |requests| ==> Measured(requests[k], env[k].window)) <==>
              requests[0].compacted || Counts(first.cached, first.total, start)
  {
    hide Weight, Counts, Measured, Made, CompactedBefore;
    MadeIsShort(requests, env, safe, cfg, start, first);
    CompactedAt(requests, 0);
    if requests[0].compacted || Counts(first.cached, first.total, start) {
      forall k | 0 <= k < |requests| ensures Measured(requests[k], env[k].window) {
        MeasuredExactlyWhen(requests, env, safe, cfg, start, first, k);
        CompactedStays(requests, k);
      }
    } else {
      MeasuredExactlyWhen(requests, env, safe, cfg, start, first, 0);
      assert !Measured(requests[0], env[0].window);
    }
  }

  lemma MadeIsShort(requests: seq<Request>, env: seq<Turn>, safe: ToolCall -> bool, cfg: CompactConfig,
                    start: seq<Message>, first: Tally)
    requires Made(requests, env, safe, cfg, start, first)
    ensures |requests| <= |env|
  {
  }

  /** A new loop decides and measures every request of its first run right. */
  lemma NewLoopIsExact(requests: seq<Request>, env: seq<Turn>, safe: ToolCall -> bool, cfg: CompactConfig,
                       start: seq<Message>, failures: nat, k: nat)
    requires Made(requests, env, safe, cfg, start, Tally(0, 0, failures)) && k < |requests|
    ensures Measured(requests[k], env[k].window) && requests[k].before == Weight(requests[k].whole)
  {
    hide Weight, Measured, Made;
    NewLoopCountsRight(start);
    MeasuredExactlyWhen(requests, env, safe, cfg, start, Tally(0, 0, failures), k);
  }

  lemma DueMeasured(q: Request, t: Turn, cfg: CompactConfig, tally: Tally)
    requires Due(q, t, cfg, tally)
    ensures Measured(q, t.window) <==> q.compacted || Counts(tally.cached, tally.total, q.whole)
    ensures q.before == Weight(q.whole) <==> Counts(tally.cached, tally.total, q.whole)
  {
    hide Weight, Estimate, Counts, Shrink, Restore;
    EstimateIsExactWhen(tally.cached, tally.total, q.whole);
  }

  lemma MeasuredWeighs(q: Request, t: Turn, cfg: CompactConfig, tally: Tally)
    requires Due(q, t, cfg, tally)
    ensures Measured(q, t.window) <==> q.estimate == Weight(q.msgs)
  {
    hide Weight, Estimate, Shrink, Restore;
  }

  lemma StandsAtFirst(first: Tally)
    ensures Standing([], first) == first
  {
  }

  lemma StandsFor(requests: seq<Request>, first: Tally, k: nat)
    requires 0 < k <= |requests|
    ensures var last := requests[k - 1];
            Standing(requests[..k], first) == TallyAfter(last, Standing(requests[..k - 1], first).failures)
  {
    assert requests[..k][..k - 1] == requests[..k - 1];
  }

  /** A breaker that has tripped stays so: from then on nothing is compacted and all is sent. */
  lemma {:induction false} TrippedForGood(requests: seq<Request>, env: seq<Turn>, safe: ToolCall -> bool,
                                          cfg: CompactConfig, start: seq<Message>, first: Tally, j: nat, k: nat)
    requires Made(requests, env, safe, cfg, start, first) && j <= k <= |requests|
    requires Standing(requests[..j], first).failures >= cfg.maxFailures
    ensures Standing(requests[..k], first).failures == Standing(requests[..j], first).failures
    ensures forall i :: j <= i < k ==> !requests[i].attempted && requests[i].msgs == requests[i].whole
    decreases k
  {
    hide Chained, Estimate, Shrink, Restore, Standing;
    if j < k {
      TrippedForGood(requests, env, safe, cfg, start, first, j, k - 1);
      assert Due(requests[k - 1], env[k - 1], cfg, Standing(requests[..k - 1], first));
      StandsFor(requests, first, k);
    }
  }

  /** Attempts that fail never carry the breaker further than the failure at which it trips. */
  lemma {:induction false} FailuresAreBounded(requests: seq<Request>, env: seq<Turn>, safe: ToolCall -> bool,
                                              cfg: CompactConfig, start: seq<Message>, first: Tally, k: nat)
    requires Made(requests, env, safe, cfg, start, first) && k <= |requests|
    ensures var f := Standing(requests[..k], first).failures; f <= first.failures || f <= AtLeastZero(cfg.maxFailures)
  {
    hide Chained, Estimate, Shrink, Restore, Standing;
    if k == 0 {
      StandsAtFirst(first);
      assert requests[..0] == [];
    } else {
      FailuresAreBounded(requests, env, safe, cfg, start, first, k - 1);
      assert Due(requests[k - 1], env[k - 1], cfg, Standing(requests[..k - 1], first));
      StandsFor(requests, first, k);
    }
  }

  /** A new loop's cache stands for the front of anything. */
  lemma NewLoopCountsRight(msgs: seq<Message>)
    ensures Counts(0, 0, msgs)
  {
  }

  /** How many of the requests from one to another came with an attempt to make room. */
  function Attempts(requests: seq<Request>, from: nat, to: nat): nat
    requires from <= to <= |requests|
  {
    if from == to then 0 else Attempts(requests, from, to - 1) + if requests[to - 1].attempted then 1 else 0
  }

  /** The breaker counts the attempts that failed since the last one that did not. */
  lemma {:induction false} BreakerCounts(requests: seq<Request>, first: Tally, j: nat, k: nat)
    requires j <= k <= |requests| && forall i :: j <= i < k ==> !requests[i].compacted
    ensures Standing(requests[..k], first).failures == Standing(requests[..j], first).failures + Attempts(requests, j, k)
    ensures j > 0 && requests[j - 1].attempted && requests[j - 1].compacted ==>
              Standing(requests[..j], first).failures == 0
    ensures Standing(requests[..0], first).failures == first.failures
    decreases k
  {
    hide Standing;
    StandsAtFirst(first);
    assert requests[..0] == [];
    if j > 0 {
      StandsFor(requests, first, j);
    }
    if j < k {
      BreakerCounts(requests, first, j, k - 1);
      StandsFor(requests, first, k);
    }
  }

  // ---- what the messages say

  /** The model's message: its text, if any, and then the calls it asks for, one by one. */
  predicate Said(m: Message, c: Collected) {
    var first := if c.text == "" then 0 else 1;
    m.role == "assistant" && |m.content| == first + |c.calls|
    && (c.text != "" ==> m.content[0] == Block("text", c.text, "", "", "", "", "", false))
    && forall i :: 0 <= i < |c.calls| ==> AsksFor(m.content[first + i], c.calls[i])
  }

  predicate AsksFor(b: Block, call: ToolCall) {
    b == Block("tool_use", "", call.id, call.name, call.input, "", "", false)
  }

  /**
   * After a turn the conversation is the one sent, what the model said and, when it stopped for its tools, one message
   * of the user that answers its calls one by one.
   */
  lemma TurnSays(q: Request, t: Turn, safe: ToolCall -> bool, next: seq<Message>)
    requires Follows(q, t, safe, next)
    ensures var c, n := t.response.value, |q.msgs|;
            n < |next| && next[..n] == q.msgs && Said(next[n], c)
            && |next| == (if c.stopReason == "tool_use" && c.calls != [] then n + 2 else n + 1)
            && (|next| == n + 2 ==>
                  next[n + 1].role == "user" && |next[n + 1].content| == |c.calls|
                  && forall i :: 0 <= i < |c.calls| ==>
                       var b := next[n + 1].content[i]; b.kind == "tool_result" && b.toolUseId == c.calls[i].id)
  {
    var c, n := t.response.value, |q.msgs|;
    GrownIsLonger(q.msgs, next, t, safe);
    AssistantSays(c);
    assert next[n] == AssistantMessage(c) by {
      if |next| == n + 2 {
        assert next[n] == next[..n + 1][n];
      }
    }
    hide AssistantMessage, Said;
  }

  lemma AssistantSays(c: Collected)
    ensures Said(AssistantMessage(c), c)
  {
    var m, first := AssistantMessage(c), if c.text == "" then 0 else 1;
    forall i | 0 <= i < |c.calls| ensures AsksFor(m.content[first + i], c.calls[i]) {
      assert m.content[first + i] == ToolUses(c.calls)[i];
    }
  }

  /** And over a whole run so is the beginning of every request but the first. */
  lemma RunSays(requests: seq<Request>, env: seq<Turn>, safe: ToolCall -> bool, cfg: CompactConfig, start: seq<Message>,
                first: Tally, k: nat)
    requires Made(requests, env, safe, cfg, start, first) && 0 < k < |requests|
    ensures env[k - 1].response.Some?
    ensures var before, whole := requests[k - 1].msgs, requests[k].whole;
            |before| < |whole| && whole[..|before|] == before && Said(whole[|before|], env[k - 1].response.value)
  {
    assert Follows(requests[k - 1], env[k - 1], safe, requests[k].whole);
    hide Follows, Said, Due;
    TurnSays(requests[k - 1], env[k - 1], safe, requests[k].whole);
  }

  /** When room is made for a request, what it then holds and what it leaves for the answer. */
  ghost predicate Fits(q: Request, window: int, cfg: CompactConfig, failures: nat) {
    var room := if window < cfg.outputReserve then 0 else window - cfg.outputReserve;
    (q.attempted <==> cfg.enabled && failures < cfg.maxFailures && q.before + cfg.bufferTokens >= room)
    && (q.compacted ==> q.attempted && q.estimate == Weight(q.msgs))
    && (!q.compacted ==> q.msgs == q.whole && q.estimate == q.before)
    && (q.compacted && Sized(q.whole) ==>
          Holds(q.msgs, q.whole, q.hook, cfg.keepRecent, room - cfg.bufferTokens))
    && q.budget == if window < 8192 + q.estimate then 0 else window - 8192 - q.estimate
  }

  lemma DueFits(q: Request, t: Turn, cfg: CompactConfig, tally: Tally)
    requires Due(q, t, cfg, tally)
    ensures Fits(q, t.window, cfg, tally.failures)
  {
    hide Estimate, Weight, Shrink, Restore, Holds, Sized;
    if q.compacted && Sized(q.whole) {
      CompactedHolds(q.whole, Threshold(t.window, cfg), cfg.keepRecent, q.hook);
    }
  }

  /** So it is with every request of a run. */
  lemma RequestsFit(requests: seq<Request>, env: seq<Turn>, safe: ToolCall -> bool, cfg: CompactConfig,
                    start: seq<Message>, first: Tally, k: nat)
    requires Made(requests, env, safe, cfg, start, first) && k < |requests|
    ensures Fits(requests[k], env[k].window, cfg, Standing(requests[..k], first).failures)
  {
    hide Due, Fits, Standing, Chained;
    DueFits(requests[k], env[k], cfg, Standing(requests[..k], first));
  }

  // ---- the token cache

  /** The total stands for the messages counted so far, or there are fewer messages now and counting starts over. */
  predicate Counts(cached: nat, total: nat, msgs: seq<Message>) {
    cached <= |msgs| ==> total == Weight(msgs[..cached])
  }

  function Estimate(cached: nat, total: nat, msgs: seq<Message>): nat {
    if cached > |msgs| then Weight(msgs) else total + Weight(msgs[cached..])
  }

  /** The cached estimate is the full recount exactly when the cache stands for the front of this very list. */
  lemma EstimateIsExactWhen(cached: nat, total: nat, msgs: seq<Message>)
    ensures Estimate(cached, total, msgs) == Weight(msgs) <==> Counts(cached, total, msgs)
  {
    if cached <= |msgs| {
      WeightOfConcat(msgs[..cached], msgs[cached..]);
      assert msgs == msgs[..cached] + msgs[cached..];
    }
  }

  class Breaker {
    var compacted: bool
    var consecutiveFailures: nat

    constructor ()
      ensures !compacted && consecutiveFailures == 0
    {
      compacted, consecutiveFailures := false, 0;
    }

    predicate Tripped(maxFailures: int)
      reads this
    {
      consecutiveFailures >= maxFailures
    }

    method RecordSuccess()
      modifies this
      ensures compacted && consecutiveFailures == 0
    {
      compacted, consecutiveFailures := true, 0;
    }

    method RecordFailure()
      modifies this
      ensures compacted == old(compacted) && consecutiveFailures == old(consecutiveFailures) + 1
    {
      consecutiveFailures := consecutiveFailures + 1;
    }
  }

  class Loop {
    var tokenCache: seq<nat>
    var tokenCacheTotal: nat
    const breaker: Breaker
    const cfg: CompactConfig
    const maxTurns: nat

    constructor (cfg: CompactConfig, maxTurns: nat)
      ensures tokenCache == [] && tokenCacheTotal == 0 && fresh(breaker) && !breaker.compacted
      ensures breaker.consecutiveFailures == 0 && this.cfg == cfg && this.maxTurns == maxTurns
    {
      tokenCache, tokenCacheTotal := [], 0;
      breaker := new Breaker();
      this.cfg, this.maxTurns := cfg, maxTurns;
    }

    method ResetTokenCache()
      modifies this
      ensures tokenCache == [] && tokenCacheTotal == 0
    {
      tokenCache, tokenCacheTotal := [], 0;
    }

    /** Counts only the messages past the cached ones. */
    method EstimateCached(msgs: array<MessageRef>) returns (tokens: nat)
      modifies this
      ensures tokens == tokenCacheTotal == Estimate(|old(tokenCache)|, old(tokenCacheTotal), View(msgs[..]))
      ensures |tokenCache| == msgs.Length
    {
      hide Weight, View, ContentTokens;
      ghost var refs, view := msgs[..], View(msgs[..]);
      var cached := |tokenCache|;
      if cached > msgs.Length {
        tokenCache, tokenCacheTotal, cached := [], 0, 0;
      }
      ghost var base := tokenCacheTotal;
      NoWeight();
      assert view[cached..cached] == [];
      var i := cached;
      while i < msgs.Length
        invariant cached <= i <= msgs.Length && |tokenCache| == i && msgs[..] == refs
        invariant tokenCacheTotal == base + Weight(view[cached..i])
      {
        WeightNext(view[cached..], i - cached);
        assert view[cached..][..i - cached] == view[cached..i];
        assert view[cached..][..i + 1 - cached] == view[cached..i + 1];
        assert view[i] == Seen(refs[i]);
        var tokens := CountMessageTokens(msgs[i]);
        tokenCache := tokenCache + [tokens];
        tokenCacheTotal := tokenCacheTotal + tokens;
        i := i + 1;
      }
      assert view[cached..i] == view[cached..] && view[0..] == view;
      assert View(refs) == view;
      tokens := tokenCacheTotal;
    }

    /** What is cached and counted. */
    ghost function Now(): Tally
      reads this, breaker
    {
      Tally(|tokenCache|, tokenCacheTotal, breaker.consecutiveFailures)
    }

    /** One attempt to compact; when it freed something the smaller list is measured from scratch. */
    method TryCompact(messages: array<MessageRef>, threshold: int, hook: seq<MessageRef>)
      returns (r: array<MessageRef>, compacted: bool)
      modifies this, breaker
      ensures compacted <==> Shrink(View(messages[..]), threshold, cfg.keepRecent).freed > 0
      ensures compacted ==> View(r[..]) == Restore(Shrink(View(messages[..]), threshold, cfg.keepRecent), View(hook))
      ensures compacted ==> Now() == Tally(r.Length, Weight(View(r[..])), 0)
      ensures !compacted ==>
                r == messages && Now() == old(Tally(|tokenCache|, tokenCacheTotal, breaker.consecutiveFailures + 1))
    {
      hide Weight, View, Shrink, Restore;
      ghost var refs, view, added := messages[..], View(messages[..]), View(hook);
      r := messages;
      var smaller, freed;
      smaller, freed, compacted := AutoCompactMessages(messages, threshold, cfg.keepRecent, hook);
      ghost var left, now := smaller[..], View(smaller[..]);
      assert messages[..] == refs && View(refs) == view && View(hook) == added;
      if !compacted {
        breaker.RecordFailure();
        assert messages[..] == refs && View(refs) == view;
        return;
      }
      r := smaller;
      ResetTokenCache();
      var tokens := EstimateCached(r);
      assert r[..] == left && View(left) == now;
      FromScratch(now);
      breaker.RecordSuccess();
      assert messages[..] == refs && View(refs) == view && View(hook) == added;
      assert r[..] == left && View(left) == now;
    }

    /** Measures, and compacts exactly when it is under pressure and the breaker has not tripped. */
    method MakeRoom(messages: array<MessageRef>, window: int, hook: seq<MessageRef>)
      returns (r: array<MessageRef>, before: nat, tokens: nat, attempted: bool, compacted: bool)
      modifies this, breaker
      ensures before == Estimate(|old(tokenCache)|, old(tokenCacheTotal), View(messages[..]))
      ensures attempted <==> cfg.enabled && !old(breaker.Tripped(cfg.maxFailures)) && before >= Threshold(window, cfg)
      ensures compacted <==>
                attempted && Shrink(View(messages[..]), Threshold(window, cfg), cfg.keepRecent).freed > 0
      ensures !compacted ==> r == messages
      ensures compacted ==>
                View(r[..]) == Restore(Shrink(View(messages[..]), Threshold(window, cfg), cfg.keepRecent), View(hook))
      ensures tokens == if compacted then Weight(View(r[..])) else before
      ensures Now() == Tally(r.Length, tokens, if !attempted then old(breaker.consecutiveFailures)
                                               else if compacted then 0 else old(breaker.consecutiveFailures) + 1)
    {
      hide Weight, View, Shrink, Restore, Estimate;
      ghost var refs, view := messages[..], View(messages[..]);
      r, attempted, compacted := messages, false, false;
      before := EstimateCached(messages);
      tokens := before;
      assert messages[..] == refs && View(refs) == view;
      var threshold := Threshold(window, cfg);
      if cfg.enabled && !breaker.Tripped(cfg.maxFailures) && tokens >= threshold {
        attempted := true;
        r, compacted := TryCompact(messages, threshold, hook);
        assert messages[..] == refs && View(refs) == view;
        tokens := if compacted then tokenCacheTotal else tokens;
      }
    }

    /** Everything up to the call to the provider. */
    method Prepare(messages: array<MessageRef>, t: Turn) returns (r: array<MessageRef>, ghost q: Request)
      modifies this, breaker
      ensures q == old(RequestFor(View(messages[..]), View(t.hook), t.window, cfg, Now()))
      ensures q.msgs == View(r[..]) && Now() == TallyAfter(q, old(breaker.consecutiveFailures))
    {
      hide Weight, View, Shrink, Restore, Estimate;
      ghost var refs, view, first := messages[..], View(messages[..]), Now();
      var before, tokens, attempted, compacted;
      ghost var added := View(t.hook);
      r, before, tokens, attempted, compacted := MakeRoom(messages, t.window, t.hook);
      assert messages[..] == refs && View(refs) == view && View(t.hook) == added;
      var promptBudget := t.window - RESPONSE_RESERVE - tokens;
      if promptBudget < 0 {
        promptBudget := 0;
      }
      q := Request(view, added, View(r[..]), before, tokens, promptBudget, attempted, compacted);
      assert q == RequestFor(view, added, t.window, cfg, first);
    }

    /** The provider's answer, and the tools it asks for. Nothing to go on with: a tool took the process down. */
    method Act(messages: array<MessageRef>, t: Turn, safe: ToolCall -> bool) returns (r: Option<array<MessageRef>>)
      requires t.response.Some? && Gated(t)
      ensures r.Some? ==> Grown(View(messages[..]), View(r.value[..]), t, safe)
      ensures r.None? ==> TakenDown(t, safe)
    {
      hide View, AssistantMessage, ToolMessage, TakenDown;
      var c := t.response.value;
      ghost var refs, view := messages[..], View(messages[..]);
      var assistant := NewMessage(AssistantMessage(c));
      var after := Append(messages, assistant);
      assert messages[..] == refs && View(refs) == view;
      if c.stopReason == "tool_use" && |c.calls| > 0 {
        ghost var added, seen := after[..], View(after[..]);
        var m := RunTools(t, safe);
        assert after[..] == added && View(added) == seen;
        if m.None? {
          return None;
        }
        var results := NewMessage(m.value);
        var last := Append(after, results);
        assert messages[..] == refs && View(refs) == view;
        return Some(last);
      }
      return Some(after);
    }

    /** One turn: make room, ask the provider, run the tools. */
    method TakeTurn(messages: array<MessageRef>, t: Turn, safe: ToolCall -> bool)
      returns (next: TurnEnd, ghost q: Request)
      requires Gated(t)
      modifies this, breaker
      ensures q == old(RequestFor(View(messages[..]), View(t.hook), t.window, cfg, Now()))
      ensures Now() == TallyAfter(q, old(breaker.consecutiveFailures))
      ensures next.NoAnswer? <==> t.response.None?
      ensures next.Down? ==> TakenDown(t, safe)
      ensures next.Went? ==> Follows(q, t, safe, View(next.messages[..]))
    {
      hide View, RequestFor, Grown, TakenDown;
      var r;
      r, q := Prepare(messages, t);
      if t.response.None? {
        return NoAnswer, q;
      }
      ghost var sent := r[..];
      var grown := Act(r, t, safe);
      if grown.None? {
        return Down, q;
      }
      assert r[..] == sent && View(sent) == q.msgs;
      return Went(grown.value), q;
    }

    /** One run: every request is the one due, and the loop is left as the last one leaves it. */
    method Run(session: array<MessageRef>, task: array<Block>, env: seq<Turn>, safe: ToolCall -> bool)
      returns (outcome: Outcome, ghost requests: seq<Request>)
      requires |env| >= maxTurns && forall k :: 0 <= k < |env| ==> Gated(env[k])
      modifies this, breaker
      ensures |requests| <= maxTurns <= |env| && EndsAsDue(outcome, requests, env, safe, maxTurns)
      ensures Made(requests, env, safe, cfg, old(View(session[..])) + [Message("user", old(task[..]))], old(Now()))
      ensures HooksAsked(requests, old(Hooks(env)))
      ensures Now() == Standing(requests, old(Now()))
    {
      hide View, Made, Follows, RequestFor, TallyAfter, TakenDown, Standing, Due, Weight, Shrink, Estimate;
      hide Hooks;
      ghost var refs, view, start := session[..], View(session[..]), View(session[..]) + [Message("user", task[..])];
      ghost var first := Now();
      NothingMade(env, safe, cfg, start, first);
      ghost var hooks := Hooks(env);
      var messages := Append(session, MessageRef("user", task));
      assert session[..] == refs && View(refs) == view;
      requests := [];
      var turn := 0;
      outcome := OutOfTurns;
      while turn < maxTurns
        invariant 0 <= turn <= maxTurns && |requests| == turn
        invariant Made(requests, env, safe, cfg, start, first) && Now() == Standing(requests, first)
        invariant HooksAsked(requests, hooks) && Hooks(env) == hooks
        invariant if requests == [] then View(messages[..]) == start
                  else Follows(requests[turn - 1], env[turn - 1], safe, View(messages[..]))
        invariant forall k :: 0 <= k < turn ==> GoesOn(env[k])
      {
        var t := env[turn];
        var next;
        ghost var q;
        next, q := TakeTurn(messages, t, safe);
        IsDue(q, t, cfg, Standing(requests, first));
        OneMoreRequest(requests, q, env, safe, cfg, start, first);
        requests := requests + [q];
        turn := turn + 1;
        if next.NoAnswer? {
          return ProviderFailed, requests;
        }
        if next.Down? {
          return Crashed, requests;
        }
        messages := next.messages;
        if t.response.value.stopReason == "end_turn" {
          return Answered(t.response.value.text, turn), requests;
        }
        if t.cancelled {
          return Cancelled, requests;
        }
      }
    }
  }

  /** What the hook would add, turn by turn. */
  ghost function Hooks(env: seq<Turn>): (r: seq<seq<Message>>)
    reads set k, i | 0 <= k < |env| && 0 <= i < |env[k].hook| :: env[k].hook[i].content
    ensures |r| == |env| && forall k :: 0 <= k < |r| ==> r[k] == View(env[k].hook)
  {
    if env == [] then []
    else
      var m := |env| - 1;
      assert forall k :: 0 <= k < m ==> env[..m][k] == env[k];
      Hooks(env[..m]) + [View(env[m].hook)]
  }

  ghost predicate HooksAsked(requests: seq<Request>, hooks: seq<seq<Message>>) {
    |requests| <= |hooks| && forall k :: 0 <= k < |requests| ==> requests[k].hook == hooks[k]
  }

  lemma NothingMade(env: seq<Turn>, safe: ToolCall -> bool, cfg: CompactConfig, start: seq<Message>, first: Tally)
    ensures Made([], env, safe, cfg, start, first) && Standing([], first) == first
  {
  }

  lemma IsDue(q: Request, t: Turn, cfg: CompactConfig, tally: Tally)
    requires q == RequestFor(q.whole, q.hook, t.window, cfg, tally)
    ensures Due(q, t, cfg, tally)
  {
  }

  lemma OneMoreRequest(requests: seq<Request>, q: Request, env: seq<Turn>, safe: ToolCall -> bool, cfg: CompactConfig,
                       start: seq<Message>, first: Tally)
    requires |requests| < |env| && Made(requests, env, safe, cfg, start, first)
    requires requests == [] ==> q.whole == start
    requires requests != [] ==> Follows(requests[|requests| - 1], env[|requests| - 1], safe, q.whole)
    requires Due(q, env[|requests|], cfg, Standing(requests, first))
    ensures Made(requests + [q], env, safe, cfg, start, first)
    ensures Standing(requests + [q], first) == TallyAfter(q, Standing(requests, first).failures)
  {
    hide Due, Follows, Standing, TallyAfter;
    var more := requests + [q];
    forall k | 0 <= k < |more| ensures Due(more[k], env[k], cfg, Standing(more[..k], first)) {
      assert more[..k] == requests[..k];
      assert requests[..|requests|] == requests;
    }
    StandsFor(more, first, |more|);
    assert more[..|more|] == more && more[..|requests|] == requests;
  }

  /** The calls the answer asks for. */
  method RunTools(t: Turn, safe: ToolCall -> bool) returns (m: Option<Message>)
    requires t.response.Some? && Gated(t) && t.response.value.stopReason == "tool_use"
    ensures m.Some? ==> ToolMessage(m.value, t, safe)
    ensures m.None? ==> TakenDown(t, safe)
  {
    hide Answers, Happened, WentDown, NeverMoreThan;
    var calls := t.response.value.calls;
    var h;
    ghost var seen, wrote;
    m, h, seen, wrote := ExecuteTools(calls, safe, t.gates, t.tools);
    if m.Some? {
      EverySlotAnswersItsCall(m.value.content, calls, t.gates, t.tools, seen);
    }
  }

  /** One task for a loop without a session, answered at once. */
  method OneShot(loop: Loop, task: array<Block>, window: int, safe: ToolCall -> bool)
    returns (outcome: Outcome, ghost q: Request)
    requires loop.maxTurns == 1 && !loop.cfg.enabled
    modifies loop, loop.breaker
    ensures outcome == Answered("done", 1) && q.msgs == [Message("user", old(task[..]))]
    ensures q.estimate == Estimate(|old(loop.tokenCache)|, old(loop.tokenCacheTotal), q.msgs)
    ensures |loop.tokenCache| == 1 && loop.tokenCacheTotal == q.estimate
  {
    hide View, Weight, Made, Estimate, Standing, RequestFor, Hooks;
    var nothing := new MessageRef[0];
    var t := Turn(window, [], Some(Collected("done", [], "end_turn")), [], (_, _) => Panic(""), false);
    ghost var asked := [Message("user", task[..])];
    NothingViewed();
    assert nothing[..] == [] && View(nothing[..]) + asked == asked;
    ghost var first := loop.Now();
    ghost var requests;
    outcome, requests := loop.Run(nothing, task, [t], safe);
    OnlyRequest(requests, t, safe, loop.cfg, asked, first);
    q := requests[0];
  }

  /** A loop used again keeps the cache of another conversation, and its second run's first request is not measured. */
  method ReusedLoopMiscounts(window: int, cfg: CompactConfig, safe: ToolCall -> bool)
    returns (outcome: Outcome, ghost q: Request)
    requires !cfg.enabled
    ensures outcome == Answered("done", 1) && !Measured(q, window)
    ensures q.msgs == [Message("user", [TextBlock("x")])] && Weight(q.msgs) == 1 && q.estimate == IMAGE_TOKENS
  {
    hide Weight, Estimate;
    var heavy, light := new Block[1](_ => Image()), new Block[1](_ => TextBlock("x"));
    assert heavy[..] == [Image()] && light[..] == [TextBlock("x")];
    var loop := new Loop(cfg, 1);
    outcome, q := OneShot(loop, heavy, window, safe);
    outcome, q := OneShot(loop, light, window, safe);
    TwoWeights();
  }

  function Image(): Block {
    Block("image", "", "", "", "", "", "", false)
  }

  lemma StillCounts(sent: seq<Message>, estimate: nat, grown: seq<Message>)
    requires sent <= grown
    ensures Counts(|sent|, estimate, grown) <==> estimate == Weight(sent)
  {
    hide Weight;
    assert grown[..|sent|] == sent;
  }

  lemma GrownIsLonger(before: seq<Message>, after: seq<Message>, t: Turn, safe: ToolCall -> bool)
    requires t.response.Some? && Gated(t) && Grown(before, after, t, safe)
    ensures before < after
  {
    if |after| == |before| + 2 {
      assert after[..|before|] == after[..|before| + 1][..|before|] == before;
    }
  }

  /** The conversation grew by the provider's answer and, when it asked for tools, by one message with their results. */
  ghost predicate Grown(before: seq<Message>, after: seq<Message>, t: Turn, safe: ToolCall -> bool)
    requires t.response.Some? && Gated(t)
  {
    var c := t.response.value;
    if c.stopReason == "tool_use" && c.calls != [] then
      |after| == |before| + 2 && after[..|before| + 1] == before + [AssistantMessage(c)]
      && ToolMessage(after[|before| + 1], t, safe)
    else after == before + [AssistantMessage(c)]
  }

  /** Its blocks answer the calls in order, as they ran in some history that kept to the rules. */
  ghost predicate ToolMessage(m: Message, t: Turn, safe: ToolCall -> bool)
    requires t.response.Some? && Gated(t)
  {
    var calls := t.response.value.calls;
    m.role == "user" && AnswersEach(m, calls)
    && exists h, seen :: NeverMoreThan(h, MAX_PARALLEL) && Answers(m.content, calls, t.gates, t.tools, seen)
                      && Happened(h, calls, safe, t.gates, t.tools, seen, |calls|)
  }

  predicate AnswersEach(m: Message, calls: seq<ToolCall>) {
    |m.content| == |calls|
    && forall i :: 0 <= i < |calls| ==> m.content[i].kind == "tool_result" && m.content[i].toolUseId == calls[i].id
  }

  method NewMessage(m: Message) returns (r: MessageRef)
    ensures fresh(r.content) && Seen(r) == m
  {
    var content := new Block[|m.content|](i requires 0 <= i < |m.content| => m.content[i]);
    assert content[..] == m.content;
    r := MessageRef(m.role, content);
  }

  method Append(messages: array<MessageRef>, m: MessageRef) returns (r: array<MessageRef>)
    ensures fresh(r) && View(r[..]) == View(messages[..]) + [Seen(m)]
  {
    hide View;
    var all := messages[..] + [m];
    r := new MessageRef[|all|](i requires 0 <= i < |all| => all[i]);
    assert r[..] == all;
    ViewOfConcat(messages[..], [m]);
    ViewOfOne(m);
  }

  lemma NothingViewed()
    ensures View([]) == []
  {
  }

  /** A run that is answered at once makes the one request due. */
  lemma OnlyRequest(requests: seq<Request>, t: Turn, safe: ToolCall -> bool, cfg: CompactConfig, start: seq<Message>,
                    first: Tally)
    requires |requests| == 1 && !cfg.enabled && Made(requests, [t], safe, cfg, start, first)
    ensures requests[0].msgs == start && requests[0].estimate == Estimate(first.cached, first.total, start)
    ensures Standing(requests, first) == Tally(|start|, requests[0].estimate, first.failures)
  {
    hide Estimate, Shrink, Restore, Weight;
    assert requests[..0] == [] && Due(requests[0], t, cfg, Standing(requests[..0], first));
  }

  lemma TwoWeights()
    ensures var image, word := Message("user", [Image()]), Message("user", [TextBlock("x")]);
            Weight([word]) == 1 && Estimate(0, 0, [image]) == Estimate(1, IMAGE_TOKENS, [word]) == IMAGE_TOKENS
  {
    var image, word := Message("user", [Image()]), Message("user", [TextBlock("x")]);
    assert [image][..0] == [] && [word][..0] == [] && [word][1..] == [] && [image][0..] == [image];
    assert image.content[..0] == [] && word.content[..0] == [];
    assert Weight([image]) == IMAGE_TOKENS && Weight([word]) == 1;
  }

  lemma FromScratch(msgs: seq<Message>)
    ensures Estimate(0, 0, msgs) == Weight(msgs)
  {
    EstimateIsExactWhen(0, 0, msgs);
  }
}