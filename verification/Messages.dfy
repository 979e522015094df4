/** Conversation messages and what they weigh. A char stands for a byte. */
module Messages {
  import opened TokenEstimate

  /** kind is "text", "tool_use", "tool_result" or "image"; the fields of the other kinds stay empty. */
  datatype Block = Block(kind: string, text: string, id: string, name: string, input: string,
                         toolUseId: string, result: string, isError: bool)

  datatype Message = Message(role: string, content: seq<Block>)

  function TextBlock(text: string): Block {
    Block("text", text, "", "", "", "", "", false)
  }

  function ResultBlock(toolUseId: string, result: string, isError: bool): Block {
    Block("tool_result", "", "", "", "", toolUseId, result, isError)
  }

  const IMAGE_TOKENS: nat := 1600

  function BlockTokens(b: Block): nat {
    if b.kind == "text" then Tokens(b.text)
    else if b.kind == "tool_use" then Tokens(b.name) + Tokens(b.input)
    else if b.kind == "tool_result" then Tokens(b.result)
    else if b.kind == "image" then IMAGE_TOKENS
    else 0
  }

  function ContentTokens(content: seq<Block>): nat {
    if content == [] then 0 else ContentTokens(content[..|content| - 1]) + BlockTokens(content[|content| - 1])
  }

  /** What the messages weigh, counted from scratch. */
  function Weight(msgs: seq<Message>): nat {
    if msgs == [] then 0 else Weight(msgs[..|msgs| - 1]) + ContentTokens(msgs[|msgs| - 1].content)
  }

  lemma {:induction false} WeightOfConcat(a: seq<Message>, b: seq<Message>)
    ensures Weight(a + b) == Weight(a) + Weight(b)
  {
    hide ContentTokens;
    if b == [] {
      assert a + b == a;
    } else {
      var m := |b| - 1;
      WeightOfConcat(a, b[..m]);
      assert (a + b)[..|a| + m] == a + b[..m];
    }
  }

  lemma WeightNext(msgs: seq<Message>, n: nat)
    requires n < |msgs|
    ensures Weight(msgs[..n + 1]) == Weight(msgs[..n]) + ContentTokens(msgs[n].content)
  {
    assert msgs[..n + 1][..n] == msgs[..n];
  }

  lemma NoWeight()
    ensures Weight([]) == 0
  {
  }

  // ---- on the heap

  /** A message whose blocks live in an array that other message lists may share. */
  datatype MessageRef = MessageRef(role: string, content: array<Block>)

  function Contents(msgs: seq<MessageRef>): set<array<Block>> {
    set i | 0 <= i < |msgs| :: msgs[i].content
  }

  ghost function Seen(m: MessageRef): Message
    reads m.content
  {
    Message(m.role, m.content[..])
  }

  ghost function View(msgs: seq<MessageRef>): (r: seq<Message>)
    reads Contents(msgs)
    ensures |r| == |msgs|
    ensures forall i :: 0 <= i < |r| ==> r[i] == Seen(msgs[i])
  {
    if msgs == [] then []
    else
      var m := |msgs| - 1;
      assert forall i :: 0 <= i < m ==> msgs[..m][i] == msgs[i];
      assert Contents(msgs[..m]) <= Contents(msgs);
      var front := View(msgs[..m]);
      assert forall i :: 0 <= i < m ==> front[i] == Seen(msgs[..m][i]) == Seen(msgs[i]);
      front + [Seen(msgs[m])]
  }

  method CountMessageTokens(m: MessageRef) returns (total: nat)
    ensures total == ContentTokens(Seen(m).content)
  {
    total := 0;
    var i := 0;
    ghost var content := m.content[..];
    while i < m.content.Length
      invariant 0 <= i <= m.content.Length && total == ContentTokens(content[..i])
    {
      var b := m.content[i];
      assert content[..i + 1][..i] == content[..i];
      if b.kind == "text" {
        total := total + Tokens(b.text);
      } else if b.kind == "tool_use" {
        total := total + Tokens(b.name);
        var n := |b.input|;
        if n > 0 {
          var est := n / 4;
          if est < 1 {
            est := 1;
          }
          total := total + est;
        }
      } else if b.kind == "tool_result" {
        total := total + Tokens(b.result);
      } else if b.kind == "image" {
        total := total + IMAGE_TOKENS;
      }
      i := i + 1;
    }
    assert content[..i] == content;
  }

  method EstimateMessageTokens(msgs: array<MessageRef>) returns (total: nat)
    ensures total == Weight(View(msgs[..]))
  {
    total := 0;
    var i := 0;
    ghost var view := View(msgs[..]);
    hide Weight, ContentTokens;
    NoWeight();
    assert view[..0] == [];
    while i < msgs.Length
      invariant 0 <= i <= msgs.Length && total == Weight(view[..i])
    {
      WeightNext(view, i);
      assert view[i] == Seen(msgs[i]);
      var t := CountMessageTokens(msgs[i]);
      total := total + t;
      i := i + 1;
    }
    assert view[..i] == view;
    assert total == Weight(view);
    assert msgs[..] == old(msgs[..]);
    assert View(msgs[..]) == view;
  }

  /** The decimal digits of n. */
  function Decimal(n: nat): (r: string)
    ensures r != ""
  {
    if n < 10 then ["0123456789"[n]] else Decimal(n / 10) + ["0123456789"[n % 10]]
  }

  function Pow10(k: nat): nat {
    if k == 0 then 1 else 10 * Pow10(k - 1)
  }

  lemma {:induction false} DecimalLength(n: nat, k: nat)
    requires k > 0 && n < Pow10(k)
    ensures |Decimal(n)| <= k
  {
    if n >= 10 {
      assert k > 1 by {
        assert Pow10(1) == 10 * Pow10(0) == 10;
      }
      DecimalLength(n / 10, k - 1);
    }
  }

  /** What a string of digits stands for. */
  function ValueOf(digits: string): nat {
    if digits == "" then 0
    else
      var m := |digits| - 1;
      10 * ValueOf(digits[..m]) + if '0' <= digits[m] <= '9' then digits[m] as nat - '0' as nat else 0
  }

  predicate Digits(s: string) {
    s != "" && (forall i :: 0 <= i < |s| ==> '0' <= s[i] <= '9') && (|s| > 1 ==> s[0] != '0')
  }

  /** Decimal notation: digits without a leading zero that stand for the number. */
  lemma {:induction false} DecimalStandsFor(n: nat)
    ensures Digits(Decimal(n)) && ValueOf(Decimal(n)) == n
  {
    var last := ["0123456789"[n % 10]];
    LastDigit(n % 10);
    if n < 10 {
      assert Decimal(n)[..0] == "";
    } else {
      DecimalStandsFor(n / 10);
      var front := Decimal(n / 10);
      assert (front + last)[..|front|] == front;
      if |front| == 1 {
        assert front[..0] == "";
      }
    }
  }

  lemma LastDigit(d: nat)
    requires d < 10
    ensures '0' <= "0123456789"[d] <= '9' && "0123456789"[d] as nat - '0' as nat == d
  {
  }

  /** What a block weighs, by its kind. */
  lemma BlockWeighs(b: Block)
    ensures b.kind == "text" ==> Heavy(b.text, BlockTokens(b))
    ensures b.kind == "tool_result" ==> Heavy(b.result, BlockTokens(b))
    ensures b.kind == "tool_use" ==>
              exists m: nat, n: nat :: Heavy(b.name, m) && Heavy(b.input, n) && BlockTokens(b) == m + n
    ensures b.kind == "image" ==> BlockTokens(b) == 1600
    ensures b.kind !in {"text", "tool_result", "tool_use", "image"} ==> BlockTokens(b) == 0
  {
    if b.kind == "tool_use" {
      assert Heavy(b.name, Tokens(b.name)) && Heavy(b.input, Tokens(b.input));
    }
  }

  /** A token for every four bytes that are there in full, but at least one for a text that is not empty. */
  predicate Heavy(text: string, tokens: nat) {
    if |text| < 4 then tokens == if |text| == 0 then 0 else 1 else 4 * tokens <= |text| < 4 * tokens + 4
  }

  /** A list weighs what its blocks weigh together. */
  lemma {:induction false} WeightAddsUp(msgs: seq<Message>, i: nat, j: nat, b: Block)
    requires i < |msgs| && j <= |msgs[i].content|
    ensures var c := msgs[i].content;
            Weight(msgs[i := msgs[i].(content := c[..j] + [b] + c[j..])]) == Weight(msgs) + BlockTokens(b)
    ensures Weight([]) == 0
    decreases |msgs|
  {
    hide ContentTokens, BlockTokens;
    var c, m := msgs[i].content, |msgs| - 1;
    var now := msgs[i := msgs[i].(content := c[..j] + [b] + c[j..])];
    ContentAddsUp(c, j, b);
    if i == m {
      assert now[..m] == msgs[..m];
    } else {
      WeightAddsUp(msgs[..m], i, j, b);
      assert now[..m] == msgs[..m][i := msgs[i].(content := c[..j] + [b] + c[j..])];
    }
  }

  lemma {:induction false} ContentAddsUp(c: seq<Block>, j: nat, b: Block)
    requires j <= |c|
    ensures ContentTokens(c[..j] + [b] + c[j..]) == ContentTokens(c) + BlockTokens(b)
    decreases |c|
  {
    hide BlockTokens;
    var now := c[..j] + [b] + c[j..];
    if j == |c| {
      assert now[..|c|] == c;
    } else {
      var m := |c| - 1;
      ContentAddsUp(c[..m], j, b);
      assert now[..|c|] == c[..m][..j] + [b] + c[..m][j..];
      assert now[|c|] == c[m];
    }
  }
}
