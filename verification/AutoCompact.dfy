/** How a conversation under pressure is made smaller: old results become stubs, then old messages go. */
module AutoCompact {
  import opened Messages

  const STUB_THRESHOLD: nat := 200
  const INT_LIMIT: nat := 0x8000_0000_0000_0000
  const EM_DASH := "\U{E2}\U{80}\U{94}"
  const MARKER_TEXT :=
    "[Earlier conversation context was automatically removed to free context window space. Continue from where you left off.]"

  // ---- stubs

  function Stub(n: nat): string {
    "[output truncated " + EM_DASH + " " + Decimal(n) + " chars]"
  }

  predicate IsLong(b: Block) {
    b.kind == "tool_result" && |b.result| > STUB_THRESHOLD
  }

  function Stubbed(b: Block): Block {
    if IsLong(b) then ResultBlock(b.toolUseId, Stub(|b.result|), b.isError) else b
  }

  function StubbedContent(c: seq<Block>): (r: seq<Block>)
    ensures |r| == |c| && forall j :: 0 <= j < |r| ==> r[j] == Stubbed(c[j])
  {
    seq(|c|, j requires 0 <= j < |c| => Stubbed(c[j]))
  }

  /** Every message but the last few, with its long results replaced. */
  function Compacted(msgs: seq<Message>, keepRecent: nat): (r: seq<Message>)
    ensures |r| == |msgs|
    ensures forall i :: 0 <= i < |r| ==>
              r[i] == if i < |msgs| - keepRecent then Message(msgs[i].role, StubbedContent(msgs[i].content)) else msgs[i]
  {
    seq(|msgs|, i requires 0 <= i < |msgs| =>
      if i < |msgs| - keepRecent then Message(msgs[i].role, StubbedContent(msgs[i].content)) else msgs[i])
  }

  function FreedBy(b: Block): int {
    if IsLong(b) then (|b.result| - |Stub(|b.result|)|) / 4 else 0
  }

  function FreedIn(c: seq<Block>): int {
    if c == [] then 0 else FreedIn(c[..|c| - 1]) + FreedBy(c[|c| - 1])
  }

  /** What is reported as freed in the first n messages. */
  function Freed(msgs: seq<Message>, n: nat): int
    requires n <= |msgs|
  {
    if n == 0 then 0 else Freed(msgs, n - 1) + FreedIn(msgs[n - 1].content)
  }

  function StubsIn(c: seq<Block>): nat {
    if c == [] then 0 else StubsIn(c[..|c| - 1]) + if IsLong(c[|c| - 1]) then 1 else 0
  }

  function Stubs(msgs: seq<Message>, n: nat): nat
    requires n <= |msgs|
  {
    if n == 0 then 0 else Stubs(msgs, n - 1) + StubsIn(msgs[n - 1].content)
  }

  function Boundary(n: nat, keepRecent: nat): nat {
    if n <= keepRecent then 0 else n - keepRecent
  }

  /** Lengths are machine integers. */
  predicate Sized(msgs: seq<Message>) {
    forall i :: 0 <= i < |msgs| ==> SizedContent(msgs[i].content)
  }

  predicate SizedContent(c: seq<Block>) {
    forall j :: 0 <= j < |c| ==> |c[j].result| < INT_LIMIT
  }

  lemma StubIsShort(n: nat)
    requires n < INT_LIMIT
    ensures 30 <= |Stub(n)| <= 48
  {
    hide Decimal;
    assert Pow10(19) > INT_LIMIT by {
      assert Pow10(5) == 100000;
      assert Pow10(10) == 100000 * 100000;
      assert Pow10(15) == 100000 * 100000 * 100000;
      assert Pow10(19) == 10000 * Pow10(15);
    }
    DecimalLength(n, 19);
    assert |Decimal(n)| >= 1;
  }

  /** A stub is no longer than what makes a result long, so stubbing twice is stubbing once. */
  lemma StubbingIsIdempotent(b: Block)
    requires |b.result| < INT_LIMIT
    ensures Stubbed(Stubbed(b)) == Stubbed(b)
  {
    StubIsShort(|b.result|);
  }

  lemma CompactionIsIdempotent(msgs: seq<Message>, keepRecent: nat)
    requires Sized(msgs)
    ensures Compacted(Compacted(msgs, keepRecent), keepRecent) == Compacted(msgs, keepRecent)
  {
    hide Stubbed;
    var once := Compacted(msgs, keepRecent);
    forall i | 0 <= i < |msgs| ensures Compacted(once, keepRecent)[i] == once[i] {
      assert SizedContent(msgs[i].content);
      var c := msgs[i].content;
      forall j | 0 <= j < |c| ensures Stubbed(Stubbed(c[j])) == Stubbed(c[j]) {
        StubbingIsIdempotent(c[j]);
      }
      assert StubbedContent(StubbedContent(c)) == StubbedContent(c);
    }
  }

  /** The conversation keeps its shape: who spoke, which call each result answers, what failed; and its recent part. */
  lemma CompactionKeepsShape(msgs: seq<Message>, keepRecent: nat)
    ensures var r := Compacted(msgs, keepRecent);
            forall i :: 0 <= i < |msgs| ==>
              r[i].role == msgs[i].role && |r[i].content| == |msgs[i].content|
              && (i >= |msgs| - keepRecent ==> r[i] == msgs[i])
              && forall j :: 0 <= j < |msgs[i].content| ==> SameShape(msgs[i].content[j], r[i].content[j])
  {
  }

  predicate SameShape(b: Block, c: Block) {
    c.kind == b.kind && c.toolUseId == b.toolUseId && c.isError == b.isError && (!IsLong(b) ==> c == b)
  }

  // ---- what it frees

  lemma BlockDrop(b: Block)
    requires |b.result| < INT_LIMIT
    ensures 0 <= FreedBy(b) <= BlockTokens(b) - BlockTokens(Stubbed(b)) <= FreedBy(b) + if IsLong(b) then 1 else 0
  {
    hide Stub;
    StubIsShort(|b.result|);
  }

  lemma {:induction false} ContentDrop(c: seq<Block>)
    requires SizedContent(c)
    ensures 0 <= FreedIn(c) <= ContentTokens(c) - ContentTokens(StubbedContent(c)) <= FreedIn(c) + StubsIn(c)
  {
    hide FreedBy, BlockTokens, Stubbed, IsLong;
    if c != [] {
      var m := |c| - 1;
      ContentDrop(c[..m]);
      BlockDrop(c[m]);
      assert StubbedContent(c)[..m] == StubbedContent(c[..m]);
    }
  }

  /** What stubbing saves in the first n messages, between what is reported and that plus one a stub. */
  predicate Saves(msgs: seq<Message>, r: seq<Message>, n: nat, b: nat)
    requires b <= |msgs| && n <= |msgs| == |r|
  {
    0 <= Freed(msgs, b) <= Weight(msgs[..n]) - Weight(r[..n]) <= Freed(msgs, b) + Stubs(msgs, b)
  }

  lemma {:induction false} SavesUpTo(msgs: seq<Message>, keepRecent: nat, n: nat)
    requires Sized(msgs) && n <= |msgs|
    ensures Saves(msgs, Compacted(msgs, keepRecent), n,
                  if n <= Boundary(|msgs|, keepRecent) then n else Boundary(|msgs|, keepRecent))
  {
    hide FreedIn, StubsIn, ContentTokens, StubbedContent, SizedContent, Weight;
    var r := Compacted(msgs, keepRecent);
    if n == 0 {
      assert msgs[..0] == r[..0] == [];
    } else {
      SavesUpTo(msgs, keepRecent, n - 1);
      WeightNext(msgs, n - 1);
      WeightNext(r, n - 1);
      ContentDrop(msgs[n - 1].content);
    }
  }

  /** The reported saving never overstates the real one, and understates it by at most one token a stub. */
  lemma MicroDrop(msgs: seq<Message>, keepRecent: nat)
    requires Sized(msgs)
    ensures var b := Boundary(|msgs|, keepRecent);
            0 <= Freed(msgs, b) <= Weight(msgs) - Weight(Compacted(msgs, keepRecent)) <= Freed(msgs, b) + Stubs(msgs, b)
  {
    hide Weight, Freed, Stubs, Sized, Compacted;
    var r := Compacted(msgs, keepRecent);
    SavesUpTo(msgs, keepRecent, |msgs|);
    assert msgs[..|msgs|] == msgs && r[..|r|] == r;
  }

  // ---- the program

  /** A message's content when its first j blocks have had their turn. */
  function Halfway(c: seq<Block>, j: nat): (r: seq<Block>)
    requires j <= |c|
    ensures |r| == |c|
  {
    StubbedContent(c[..j]) + c[j..]
  }

  lemma OneBlock(c: seq<Block>, j: nat)
    requires j < |c|
    ensures Halfway(c, j + 1) == Halfway(c, j)[j := Stubbed(c[j])] && Halfway(c, j)[j] == c[j]
    ensures FreedIn(c[..j + 1]) == FreedIn(c[..j]) + FreedBy(c[j])
    ensures StubsIn(c[..j + 1]) == StubsIn(c[..j]) + if IsLong(c[j]) then 1 else 0
  {
    assert c[..j + 1][..j] == c[..j];
  }

  lemma EndsOf(c: seq<Block>)
    ensures Halfway(c, 0) == c && Halfway(c, |c|) == StubbedContent(c)
    ensures FreedIn(c[..0]) == 0 && StubsIn(c[..0]) == 0 && c[..|c|] == c
  {
  }

  method WithBlock(c: array<Block>, j: nat, b: Block) returns (copied: array<Block>)
    requires j < c.Length
    ensures fresh(copied) && copied[..] == c[..][j := b]
  {
    copied := new Block[c.Length](i requires 0 <= i < c.Length reads c => c[i]);
    copied[j] := b;
  }

  /** Replaces the long results of one message in a copy, made only when there is something to replace. */
  method CompactMessage(content: array<Block>) returns (c: array<Block>, freed: int, modified: bool)
    ensures c[..] == StubbedContent(content[..]) && freed == FreedIn(content[..])
    ensures modified <==> StubsIn(content[..]) > 0
    ensures if modified then fresh(c) else c == content
  {
    hide FreedIn, StubsIn, Halfway, StubbedContent;
    c, freed, modified := content, 0, false;
    var j := 0;
    ghost var was := content[..];
    EndsOf(was);
    while j < content.Length
      invariant 0 <= j <= content.Length && content[..] == was
      invariant c[..] == Halfway(was, j) && freed == FreedIn(was[..j])
      invariant modified <==> StubsIn(was[..j]) > 0
      invariant if modified then fresh(c) else c == content
    {
      var block := content[j];
      OneBlock(was, j);
      assert c[..][j] == block;
      if block.kind == "tool_result" && |block.result| > STUB_THRESHOLD {
        var stub := Stub(|block.result|);
        c := WithBlock(c, j, ResultBlock(block.toolUseId, stub, block.isError));
        modified := true;
        freed := freed + (|block.result| - |stub|) / 4;
      }
      j := j + 1;
    }
  }

  /** The list when the first n messages have had their turn. */
  function Underway(msgs: seq<Message>, n: nat): (r: seq<Message>)
    requires n <= |msgs|
    ensures |r| == |msgs|
    ensures forall i :: 0 <= i < |r| ==>
              r[i] == if i < n then Message(msgs[i].role, StubbedContent(msgs[i].content)) else msgs[i]
  {
    Compacted(msgs, |msgs| - n)
  }

  lemma OneMessage(msgs: seq<Message>, i: nat)
    requires i < |msgs|
    ensures Underway(msgs, i + 1)
         == Underway(msgs, i)[i := Message(msgs[i].role, StubbedContent(msgs[i].content))]
    ensures Freed(msgs, i + 1) == Freed(msgs, i) + FreedIn(msgs[i].content)
    ensures Stubs(msgs, i + 1) == Stubs(msgs, i) + StubsIn(msgs[i].content)
    ensures StubsIn(msgs[i].content) == 0 ==> Underway(msgs, i + 1) == Underway(msgs, i)
  {
    if StubsIn(msgs[i].content) == 0 {
      NoStubs(msgs[i].content);
      assert msgs[i] == Message(msgs[i].role, msgs[i].content);
    }
  }

  lemma {:induction false} NoStubs(c: seq<Block>)
    requires StubsIn(c) == 0
    ensures StubbedContent(c) == c
  {
    if c != [] {
      var m := |c| - 1;
      NoStubs(c[..m]);
      assert StubbedContent(c)[..m] == StubbedContent(c[..m]);
      assert c == c[..m] + [c[m]];
    }
  }

  lemma MessageEnds(msgs: seq<Message>, n: nat)
    requires n <= |msgs|
    ensures Underway(msgs, 0) == msgs && Underway(msgs, n) == Compacted(msgs, |msgs| - n)
    ensures Freed(msgs, 0) == 0 && Stubs(msgs, 0) == 0
  {
  }

  /** Puts a message into the new list, which is made when there is none yet. */
  method WithMessage(r: array<MessageRef>, copied: bool, i: nat, m: MessageRef) returns (r': array<MessageRef>)
    requires i < r.Length
    modifies if copied then {r} else {}
    ensures if copied then r' == r else fresh(r')
    ensures r'[..] == old(r[..])[i := m]
    ensures View(r'[..]) == old(View(r[..]))[i := Seen(m)]
  {
    r' := r;
    if !copied {
      r' := new MessageRef[r.Length](k requires 0 <= k < r.Length reads r => r[k]);
    }
    r'[i] := m;
    ghost var now, before := View(r'[..]), old(View(r[..]));
    forall k | 0 <= k < r.Length ensures now[k] == before[i := Seen(m)][k] {
      assert k != i ==> r'[..][k] == old(r[..][k]);
    }
  }

  /**
   * Stubs all but the recent messages. The list handed in and its contents stay as they are: a new list is made on the
   * first change, and only the messages that change get new contents.
   */
  method MicroCompact(messages: array<MessageRef>, keepRecent: nat) returns (r: array<MessageRef>, freed: int)
    ensures View(r[..]) == Compacted(View(messages[..]), keepRecent)
    ensures freed == Freed(View(messages[..]), Boundary(messages.Length, keepRecent))
    ensures if Stubs(View(messages[..]), Boundary(messages.Length, keepRecent)) > 0 then fresh(r) else r == messages
  {
    hide StubbedContent, FreedIn, StubsIn, Underway, Freed, Stubs, Compacted, View, Seen, Contents, SizedContent;
    ghost var view := View(messages[..]);
    r, freed := messages, 0;
    if messages.Length <= keepRecent {
      MessageEnds(view, 0);
      CompactedAt(view, keepRecent, 0);
      return;
    }
    var boundary := messages.Length - keepRecent;
    MessageEnds(view, boundary);
    CompactedAt(view, keepRecent, boundary);
    var i := 0;
    var copied := false;
    while i < boundary
      invariant 0 <= i <= boundary && r.Length == messages.Length && View(messages[..]) == view
      invariant View(r[..]) == Underway(view, i) && freed == Freed(view, i)
      invariant copied <==> Stubs(view, i) > 0
      invariant if copied then fresh(r) else r == messages
    {
      var more, modified;
      r, more, modified := CompactAt(messages, r, copied, i, view);
      copied := copied || modified;
      freed := freed + more;
      i := i + 1;
    }
  }

  /** One message's turn. */
  method CompactAt(messages: array<MessageRef>, r: array<MessageRef>, copied: bool, i: nat, ghost view: seq<Message>)
    returns (r': array<MessageRef>, more: int, modified: bool)
    requires i < messages.Length == r.Length && view == View(messages[..])
    requires View(r[..]) == Underway(view, i) && (copied <==> r != messages)
    modifies if copied then {r} else {}
    ensures View(r'[..]) == Underway(view, i + 1) && View(messages[..]) == view
    ensures Freed(view, i + 1) == Freed(view, i) + more
    ensures modified <==> StubsIn(view[i].content) > 0
    ensures Stubs(view, i + 1) == Stubs(view, i) + StubsIn(view[i].content)
    ensures if copied || !modified then r' == r else fresh(r')
  {
    hide StubbedContent, FreedIn, StubsIn, Underway, Freed, Stubs, View, Contents;
    var msg := messages[i];
    ghost var refs := messages[..];
    assert view[i] == Seen(refs[i]);
    OneMessage(view, i);
    var content;
    content, more, modified := CompactMessage(msg.content);
    r' := r;
    assert View(r[..]) == Underway(view, i);
    if modified {
      ghost var m := Message(msg.role, StubbedContent(view[i].content));
      assert Seen(MessageRef(msg.role, content)) == m;
      r' := WithMessage(r, copied, i, MessageRef(msg.role, content));
      assert View(r'[..]) == Underway(view, i)[i := m];
    }
    assert messages[..] == refs && View(refs) == view;
  }

  lemma CompactedAt(msgs: seq<Message>, keepRecent: nat, boundary: nat)
    requires boundary == Boundary(|msgs|, keepRecent)
    ensures Compacted(msgs, |msgs| - boundary) == Compacted(msgs, keepRecent)
  {
  }

  // ---- dropping the oldest messages

  function MarkerMessage(): Message {
    Message("user", [TextBlock(MARKER_TEXT)])
  }

  function Last(msgs: seq<Message>, k: nat): (r: seq<Message>)
    requires k <= |msgs|
    ensures |r| == k
  {
    msgs[|msgs| - k..]
  }

  /** A marker, then the recent messages. */
  function Snipped(msgs: seq<Message>, keepRecent: nat): seq<Message> {
    if |msgs| <= keepRecent then msgs else [MarkerMessage()] + Last(msgs, keepRecent)
  }

  function AtLeastZero(n: int): nat {
    if n < 0 then 0 else n
  }

  method Snip(messages: array<MessageRef>, keepRecent: nat) returns (r: array<MessageRef>, freed: nat)
    ensures View(r[..]) == Snipped(View(messages[..]), keepRecent)
    ensures freed == AtLeastZero(Weight(View(messages[..])) - Weight(View(r[..])))
  {
    hide Weight, View;
    ghost var refs, view := messages[..], View(messages[..]);
    r, freed := messages, 0;
    if messages.Length <= keepRecent {
      return;
    }
    var before := EstimateMessageTokens(messages);
    assert messages[..] == refs && View(refs) == view;
    r := KeepLast(messages, keepRecent);
    ghost var kept, now := r[..], View(r[..]);
    assert messages[..] == refs && View(refs) == view;
    var after := EstimateMessageTokens(r);
    assert r[..] == kept && View(kept) == now;
    assert messages[..] == refs && View(refs) == view;
    freed := if before < after then 0 else before - after;
  }

  method KeepLast(messages: array<MessageRef>, keepRecent: nat) returns (r: array<MessageRef>)
    requires keepRecent < messages.Length
    ensures fresh(r) && View(r[..]) == [MarkerMessage()] + Last(View(messages[..]), keepRecent)
  {
    hide View;
    ghost var refs := messages[..];
    ViewOfLast(refs, keepRecent);
    ghost var kept := Last(View(refs), keepRecent);
    var text := new Block[1](_ => TextBlock(MARKER_TEXT));
    var marker := MessageRef("user", text);
    assert text[..] == [TextBlock(MARKER_TEXT)];
    ViewOfOne(marker);
    var recent := messages[messages.Length - keepRecent..];
    assert recent == refs[|refs| - keepRecent..] && View(recent) == kept;
    ViewOfConcat([marker], recent);
    var result := [marker] + recent;
    r := new MessageRef[|result|](i requires 0 <= i < |result| => result[i]);
    assert r[..] == result;
    assert View(refs) == old(View(messages[..]));
  }

  lemma ViewOfOne(m: MessageRef)
    ensures View([m]) == [Seen(m)]
  {
    assert [m][..0] == [];
  }

  lemma ViewOfConcat(a: seq<MessageRef>, b: seq<MessageRef>)
    ensures View(a + b) == View(a) + View(b)
  {
    hide View;
    forall i | 0 <= i < |a| + |b| ensures View(a + b)[i] == (View(a) + View(b))[i] {
      assert View(a + b)[i] == Seen((a + b)[i]);
    }
  }

  lemma ViewOfLast(a: seq<MessageRef>, k: nat)
    requires k <= |a|
    ensures View(a[|a| - k..]) == Last(View(a), k)
  {
    hide View;
    forall i | 0 <= i < k ensures View(a[|a| - k..])[i] == Last(View(a), k)[i] {
      assert View(a)[|a| - k + i] == Seen(a[|a| - k + i]) == Seen(a[|a| - k..][i]);
    }
  }

  // ---- the layers

  /** After stubbing and, unless that was enough, snipping: the messages, what was freed, and whether snipping freed any. */
  datatype Shrunk = Shrunk(msgs: seq<Message>, freed: int, snipped: bool)

  function Shrink(msgs: seq<Message>, threshold: int, keepRecent: nat): Shrunk {
    Shrunken(Compacted(msgs, keepRecent), Freed(msgs, Boundary(|msgs|, keepRecent)), threshold, keepRecent)
  }

  function Shrunken(micro: seq<Message>, freed: int, threshold: int, keepRecent: nat): Shrunk {
    if freed > 0 && Weight(micro) < threshold then Shrunk(micro, freed, false)
    else
      var rest := Snipped(micro, keepRecent);
      var more := AtLeastZero(Weight(micro) - Weight(rest));
      Shrunk(rest, freed + more, more > 0)
  }

  /** What the hook adds goes to the front, in place of the marker when there is one. */
  function Restore(s: Shrunk, hook: seq<Message>): seq<Message> {
    if s.freed > 0 && hook != [] then hook + (if s.snipped && s.msgs != [] then s.msgs[1..] else s.msgs)
    else s.msgs
  }

  method SnipUnlessEnough(stubbed: array<MessageRef>, freed: int, threshold: int, keepRecent: nat)
    returns (r: array<MessageRef>, total: int, snipped: bool)
    ensures var micro := View(stubbed[..]);
            Shrunk(View(r[..]), total, snipped) == Shrunken(micro, freed, threshold, keepRecent)
  {
    hide Weight, Snipped;
    ghost var refs, micro := stubbed[..], View(stubbed[..]);
    r, total := stubbed, freed;
    var needsSnip := true;
    snipped := false;
    if freed > 0 {
      var tokens := EstimateMessageTokens(stubbed);
      assert stubbed[..] == refs && View(refs) == micro;
      needsSnip := tokens >= threshold;
    }
    if needsSnip {
      var more;
      r, more := Snip(stubbed, keepRecent);
      assert stubbed[..] == refs && View(refs) == micro;
      total := total + more;
      snipped := more > 0;
    }
  }

  method StubThenSnip(messages: array<MessageRef>, threshold: int, keepRecent: nat)
    returns (r: array<MessageRef>, freed: int, snipped: bool)
    ensures Shrunk(View(r[..]), freed, snipped) == Shrink(View(messages[..]), threshold, keepRecent)
  {
    hide View, Compacted, Freed, Shrunken, Sized, Boundary, Stubs, Weight;
    ghost var refs, view := messages[..], View(messages[..]);
    var stubbed, stubsFreed := MicroCompact(messages, keepRecent);
    ghost var stubs, micro := stubbed[..], View(stubbed[..]);
    assert messages[..] == refs && View(refs) == view;
    r, freed, snipped := SnipUnlessEnough(stubbed, stubsFreed, threshold, keepRecent);
    assert stubbed[..] == stubs && View(stubs) == micro;
    assert messages[..] == refs && View(refs) == view;
  }

  method AutoCompactMessages(messages: array<MessageRef>, threshold: int, keepRecent: nat, hook: seq<MessageRef>)
    returns (r: array<MessageRef>, freed: int, applied: bool)
    ensures View(r[..]) == Restore(Shrink(View(messages[..]), threshold, keepRecent), View(hook))
    ensures freed == Shrink(View(messages[..]), threshold, keepRecent).freed && applied == (freed > 0)
  {
    hide View, Shrink, Sized;
    ghost var refs, view, added := messages[..], View(messages[..]), View(hook);
    var snipped;
    r, freed, snipped := StubThenSnip(messages, threshold, keepRecent);
    assert messages[..] == refs && View(refs) == view && View(hook) == added;
    ghost var left, s := r[..], Shrunk(View(r[..]), freed, snipped);
    if freed > 0 && |hook| > 0 {
      r := PutInFront(hook, r, snipped);
    }
    assert messages[..] == refs && View(refs) == view && View(hook) == added;
    applied := freed > 0;
  }

  method PutInFront(hook: seq<MessageRef>, r: array<MessageRef>, snipped: bool) returns (restored: array<MessageRef>)
    ensures View(restored[..])
         == View(hook) + if snipped && r.Length > 0 then old(View(r[..]))[1..] else old(View(r[..]))
  {
    hide View;
    var refs := r[..];
    var kept := if snipped && r.Length > 0 then r[1..] else r[..];
    var all := hook + kept;
    restored := new MessageRef[|all|](i requires 0 <= i < |all| => all[i]);
    assert restored[..] == all;
    ViewOfConcat(hook, kept);
    if snipped && r.Length > 0 {
      ViewOfLast(refs, r.Length - 1);
      assert kept == refs[1..];
    }
  }

  // ---- what survives

  function Min(a: nat, b: nat): nat {
    if a < b then a else b
  }

  /** Whatever the threshold and the hook, the recent messages come through unchanged, at the end and in order. */
  lemma RecentMessagesSurvive(msgs: seq<Message>, threshold: int, keepRecent: nat, hook: seq<Message>)
    ensures var r := Restore(Shrink(msgs, threshold, keepRecent), hook);
            var k := Min(|msgs|, keepRecent);
            k <= |r| && Last(r, k) == Last(msgs, k)
  {
    hide Weight, Freed, Compacted, Snipped, Last;
    var k := Min(|msgs|, keepRecent);
    if |msgs| <= keepRecent {
      NothingFreedFromFew(msgs, threshold, keepRecent);
    } else {
      ShrinkKeepsRecent(msgs, threshold, keepRecent);
      var s := Shrink(msgs, threshold, keepRecent);
      if s.freed > 0 && hook != [] {
        LastOfMore(hook, if s.snipped && s.msgs != [] then s.msgs[1..] else s.msgs, k);
      }
    }
  }

  lemma LastOfMore(front: seq<Message>, msgs: seq<Message>, k: nat)
    requires k <= |msgs|
    ensures Last(front + msgs, k) == Last(msgs, k)
  {
  }

  /** Stubbing and snipping leave the recent messages, and so does taking the marker off. */
  lemma ShrinkKeepsRecent(msgs: seq<Message>, threshold: int, keepRecent: nat)
    requires keepRecent < |msgs|
    ensures var s := Shrink(msgs, threshold, keepRecent);
            keepRecent < |s.msgs| && Last(s.msgs, keepRecent) == Last(msgs, keepRecent)
            && (s.snipped ==> Last(s.msgs[1..], keepRecent) == Last(msgs, keepRecent))
  {
    hide Weight, Freed, Compacted;
    var micro := Compacted(msgs, keepRecent);
    assert Last(micro, keepRecent) == Last(msgs, keepRecent);
    assert Snipped(micro, keepRecent)[1..] == Last(micro, keepRecent);
  }

  /** Few enough messages are left alone. */
  lemma NothingFreedFromFew(msgs: seq<Message>, threshold: int, keepRecent: nat)
    requires |msgs| <= keepRecent
    ensures Shrink(msgs, threshold, keepRecent) == Shrunk(msgs, 0, false)
  {
    assert Compacted(msgs, keepRecent) == msgs;
  }

  /** Stubbing freed something and brought the estimate below the threshold, so nothing is dropped. */
  predicate StubbingIsEnough(msgs: seq<Message>, threshold: int, keepRecent: nat) {
    Freed(msgs, Boundary(|msgs|, keepRecent)) > 0 && Weight(Compacted(msgs, keepRecent)) < threshold
  }

  /** How much more stubbing saves than it reports, because it rounds down. */
  function Unreported(msgs: seq<Message>, keepRecent: nat): int {
    Weight(msgs) - Weight(Compacted(msgs, keepRecent)) - Freed(msgs, Boundary(|msgs|, keepRecent))
  }

  /**
   * The real drop is never more than a token a stub above what is reported, and what is reported is really gone exactly
   * when nothing was dropped or the marker weighs no more than what it replaces and what stubbing did not report.
   */
  lemma ReportedSavingIsReal(msgs: seq<Message>, threshold: int, keepRecent: nat)
    requires Sized(msgs)
    ensures var s := Shrink(msgs, threshold, keepRecent);
            var micro, stubs := Compacted(msgs, keepRecent), Stubs(msgs, Boundary(|msgs|, keepRecent));
            0 <= s.freed && Weight(msgs) - Weight(s.msgs) <= s.freed + stubs
            && 0 <= Unreported(msgs, keepRecent) <= stubs
            && (s.freed <= Weight(msgs) - Weight(s.msgs) <==>
                  StubbingIsEnough(msgs, threshold, keepRecent)
                  || Weight(Snipped(micro, keepRecent)) - Weight(micro) <= Unreported(msgs, keepRecent))
  {
    hide Weight, Freed, Stubs, Compacted, Snipped, Boundary, Sized;
    MicroDrop(msgs, keepRecent);
  }

  /** One old result of 300 bytes before the recent messages: 67 tokens are reported as freed where 45 went. */
  lemma ReportedSavingCanBeUnreal(recent: seq<Message>, threshold: int)
    requires threshold <= Weight(recent)
    ensures var old0 := Message("user", [ResultBlock("", seq(300, _ => 'x'), false)]);
            var s := Shrink([old0] + recent, threshold, |recent|);
            s.freed == 67 && Weight([old0] + recent) - Weight(s.msgs) == 45
  {
    hide Weight, Compacted, Freed, ContentTokens;
    var old0 := Message("user", [ResultBlock("", seq(300, _ => 'x'), false)]);
    var msgs := [old0] + recent;
    var micro := Compacted(msgs, |recent|);
    var stubbed := Message("user", StubbedContent(old0.content));
    OldResult(old0.content);
    assert micro == [stubbed] + recent;
    assert Freed(msgs, 1) == 67 by { OneMessage(msgs, 0); MessageEnds(msgs, 1); }
    assert Last(micro, |recent|) == recent && Snipped(micro, |recent|) == [MarkerMessage()] + recent;
    WeightOfConcat([old0], recent);
    WeightOfConcat([stubbed], recent);
    WeightOfConcat([MarkerMessage()], recent);
    WeightOfOne(old0);
    WeightOfOne(stubbed);
    WeightOfOne(MarkerMessage());
  }

  lemma WeightOfOne(m: Message)
    ensures Weight([m]) == ContentTokens(m.content)
  {
    assert [m][..0] == [];
    NoWeight();
  }

  lemma OldResult(c: seq<Block>)
    requires |c| == 1 && IsLong(c[0]) && |c[0].result| == 300
    ensures FreedIn(c) == 67 && ContentTokens(c) == 75
    ensures ContentTokens(StubbedContent(c)) == 8 && ContentTokens([TextBlock(MARKER_TEXT)]) == 30
  {
    assert Decimal(300) == "300";
    assert c[..0] == [] && StubbedContent(c)[..0] == [] && [TextBlock(MARKER_TEXT)][..0] == [];
  }

  // ---- what a smaller conversation holds

  /** An old result of more than 200 bytes says only how long it was; every other block is as it was. */
  ghost predicate StubOf(b: Block, was: Block) {
    if was.kind == "tool_result" && |was.result| > 200 then
      exists digits :: b == Block("tool_result", "", "", "", "", was.toolUseId,
                                  "[output truncated " + EM_DASH + " " + digits + " chars]", was.isError)
                    && Digits(digits) && ValueOf(digits) == |was.result|
    else b == was
  }

  /** The conversation with the results before its recent part made short. */
  ghost predicate StubsOf(r: seq<Message>, msgs: seq<Message>, keepRecent: nat) {
    |r| == |msgs|
    && forall i :: 0 <= i < |msgs| ==>
         r[i].role == msgs[i].role && |r[i].content| == |msgs[i].content|
         && forall j :: 0 <= j < |msgs[i].content| ==>
              if i + keepRecent < |msgs| then StubOf(r[i].content[j], msgs[i].content[j])
              else r[i].content[j] == msgs[i].content[j]
  }

  lemma CompactedIsStubs(msgs: seq<Message>, keepRecent: nat)
    ensures StubsOf(Compacted(msgs, keepRecent), msgs, keepRecent)
  {
    hide Stub;
    var r := Compacted(msgs, keepRecent);
    forall i, j | 0 <= i < |msgs| && i + keepRecent < |msgs| && 0 <= j < |msgs[i].content|
      ensures StubOf(r[i].content[j], msgs[i].content[j])
    {
      StubbedIsStub(msgs[i].content[j]);
    }
  }

  lemma StubbedIsStub(b: Block)
    ensures StubOf(Stubbed(b), b)
  {
    DecimalStandsFor(|b.result|);
    var digits := Decimal(|b.result|);
    hide Decimal, Digits, ValueOf;
    assert Stub(|b.result|) == "[output truncated " + EM_DASH + " " + digits + " chars]";
  }

  function Removed(): Message {
    var text :=
      "[Earlier conversation context was automatically removed to free context window space. Continue from where you left off.]";
    Message("user", [Block("text", text, "", "", "", "", "", false)])
  }

  /**
   * What a smaller conversation holds: the hook's messages, and then the stubbed conversation, if there was something
   * to stub and that brought it below the threshold; or else the recent messages, after the marker unless the hook has
   * messages to put in its place and dropping the others paid.
   */
  ghost predicate HoldsWith(r: seq<Message>, stubs: seq<Message>, whole: seq<Message>, hook: seq<Message>,
                            keepRecent: nat, threshold: int) {
    StubsOf(stubs, whole, keepRecent) && keepRecent < |whole|
    && if stubs != whole && Weight(stubs) < threshold then r == hook + stubs
       else
         var recent := whole[|whole| - keepRecent..];
         if hook != [] && Weight([Removed()] + recent) < Weight(stubs) then r == hook + recent
         else r == hook + [Removed()] + recent
  }

  ghost predicate Holds(r: seq<Message>, whole: seq<Message>, hook: seq<Message>, keepRecent: nat, threshold: int) {
    exists stubs :: HoldsWith(r, stubs, whole, hook, keepRecent, threshold)
  }

  lemma {:induction false} FreedInByStubs(c: seq<Block>)
    requires SizedContent(c)
    ensures FreedIn(c) >= StubsIn(c) && (StubsIn(c) == 0 ==> FreedIn(c) == 0)
  {
    hide Stub;
    if c != [] {
      var m := |c| - 1;
      FreedInByStubs(c[..m]);
      StubIsShort(|c[m].result|);
    }
  }

  lemma {:induction false} FreedByStubs(msgs: seq<Message>, n: nat)
    requires Sized(msgs) && n <= |msgs|
    ensures Freed(msgs, n) >= Stubs(msgs, n) && (Stubs(msgs, n) == 0 ==> Freed(msgs, n) == 0)
    ensures Stubs(msgs, n) == 0 ==> forall i :: 0 <= i < n ==> StubsIn(msgs[i].content) == 0
  {
    hide FreedIn, StubsIn, SizedContent;
    if n > 0 {
      FreedByStubs(msgs, n - 1);
      FreedInByStubs(msgs[n - 1].content);
    }
  }

  /** Something is reported as freed by stubbing exactly when there was something to stub. */
  lemma FreedWhenStubbed(msgs: seq<Message>, keepRecent: nat)
    requires Sized(msgs)
    ensures var b := Boundary(|msgs|, keepRecent);
            Freed(msgs, b) >= 0 && (Freed(msgs, b) > 0 <==> Compacted(msgs, keepRecent) != msgs)
  {
    hide Freed, Stubs, StubbedContent, StubsIn, Weight, Sized;
    var b, r := Boundary(|msgs|, keepRecent), Compacted(msgs, keepRecent);
    FreedByStubs(msgs, b);
    MicroDrop(msgs, keepRecent);
    if Stubs(msgs, b) == 0 {
      forall i | 0 <= i < |msgs| ensures r[i] == msgs[i] {
        if i < b {
          NoStubs(msgs[i].content);
          assert r[i] == Message(msgs[i].role, msgs[i].content);
        }
      }
    }
  }

  lemma MarkerSays()
    ensures MarkerMessage() == Removed()
  {
  }

  lemma CompactedHolds(whole: seq<Message>, threshold: int, keepRecent: nat, hook: seq<Message>)
    requires Sized(whole) && Shrink(whole, threshold, keepRecent).freed > 0
    ensures Holds(Restore(Shrink(whole, threshold, keepRecent), hook), whole, hook, keepRecent, threshold)
  {
    MarkerSays();
    var stubs := Compacted(whole, keepRecent);
    CompactedIsStubs(whole, keepRecent);
    FreedWhenStubbed(whole, keepRecent);
    hide Freed, Weight, Sized, StubsOf, Boundary, MarkerMessage, Removed, Compacted, HoldsWith, Restore;
    if |whole| <= keepRecent {
      NothingFreedFromFew(whole, threshold, keepRecent);
    } else {
      assert Last(stubs, keepRecent) == whole[|whole| - keepRecent..];
      ShrunkHolds(stubs, Freed(whole, Boundary(|whole|, keepRecent)), threshold, whole, keepRecent, hook);
    }
  }

  lemma ShrunkHolds(stubs: seq<Message>, freed: int, threshold: int, whole: seq<Message>, keepRecent: nat,
                    hook: seq<Message>)
    requires StubsOf(stubs, whole, keepRecent) && keepRecent < |whole| == |stubs|
    requires Last(stubs, keepRecent) == whole[|whole| - keepRecent..] && MarkerMessage() == Removed()
    requires freed >= 0 && (freed > 0 <==> stubs != whole)
    requires Shrunken(stubs, freed, threshold, keepRecent).freed > 0
    ensures HoldsWith(Restore(Shrunken(stubs, freed, threshold, keepRecent), hook), stubs, whole, hook, keepRecent,
                      threshold)
  {
    hide Weight, StubsOf, MarkerMessage, Removed, Last;
    var recent := Last(stubs, keepRecent);
    WithoutMarker(hook, Removed(), recent);
    assert hook == [] ==> hook + stubs == stubs;
  }

  lemma WithoutMarker(hook: seq<Message>, marker: Message, recent: seq<Message>)
    ensures ([marker] + recent)[1..] == recent
    ensures hook + ([marker] + recent) == hook + [marker] + recent
    ensures hook == [] ==> hook + [marker] + recent == [marker] + recent
  {
    assert hook == [] ==> hook + [marker] == [marker];
  }
}
