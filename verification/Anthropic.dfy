/** Conversion of a conversation to Anthropic's message format, where the results of a
    round travel as blocks of one user message. */
module Anthropic {
  import opened Messages

  datatype Block =
    | TextBlock(text: string)
    | ToolUse(id: string, name: string, input: string)
    | ToolResult(id: string, content: string)

  datatype Sender = FromUser | FromAssistant

  datatype Body = Plain(text: string) | Blocks(blocks: seq<Block>)

  datatype AnthropicMessage = AnthropicMessage(sender: Sender, body: Body)

  function ResultBlock(m: Message): Block
    requires m.Tool?
  {
    ToolResult(m.callId, m.content)
  }

  /** Arguments that do not parse become an empty object. */
  function UseBlock(c: ToolCall, validJson: string -> bool): Block {
    ToolUse(c.id, c.name, if validJson(c.args) then c.args else "{}")
  }

  function UseBlocks(calls: seq<ToolCall>, validJson: string -> bool): (bs: seq<Block>)
    ensures |bs| == |calls|
  {
    seq(|calls|, i requires 0 <= i < |calls| => UseBlock(calls[i], validJson))
  }

  function UsesMessage(m: Message, validJson: string -> bool): AnthropicMessage
    requires m.Assistant?
  {
    var text := if m.content == "" then [] else [TextBlock(m.content)];
    AnthropicMessage(FromAssistant, Blocks(text + UseBlocks(m.calls, validJson)))
  }

  predicate HoldsResults(m: AnthropicMessage) {
    m.sender.FromUser? && m.body.Blocks? && m.body.blocks != [] && m.body.blocks[0].ToolResult?
  }

  function Step(out: seq<AnthropicMessage>, m: Message, validJson: string -> bool): seq<AnthropicMessage> {
    match m
    case System(_) => out
    case Assistant(content, calls) =>
      if calls != [] then out + [UsesMessage(m, validJson)]
      else if content != "" then out + [AnthropicMessage(FromAssistant, Plain(content))]
      else out
    case Tool(_, _) =>
      if out != [] && HoldsResults(out[|out| - 1])
      then out[..|out| - 1] + [AnthropicMessage(FromUser, Blocks(out[|out| - 1].body.blocks + [ResultBlock(m)]))]
      else out + [AnthropicMessage(FromUser, Blocks([ResultBlock(m)]))]
    case User(content) =>
      if content != "" then out + [AnthropicMessage(FromUser, Plain(content))] else out
  }

  function Converted(h: History, validJson: string -> bool): seq<AnthropicMessage> {
    if h == [] then [] else Step(Converted(h[..|h| - 1], validJson), h[|h| - 1], validJson)
  }

  method ConvertCalls(m: Message, validJson: string -> bool) returns (out: AnthropicMessage)
    requires m.Assistant?
    ensures out == UsesMessage(m, validJson)
  {
    var blocks := [];
    if m.content != "" {
      blocks := [TextBlock(m.content)];
    }
    ghost var text := blocks;
    for j := 0 to |m.calls|
      invariant blocks == text + UseBlocks(m.calls, validJson)[..j]
    {
      blocks := blocks + [UseBlock(m.calls[j], validJson)];
    }
    assert blocks == text + UseBlocks(m.calls, validJson);
    out := AnthropicMessage(FromAssistant, Blocks(blocks));
  }

  method ConvertMessagesToAnthropic(h: History, validJson: string -> bool) returns (out: seq<AnthropicMessage>)
    ensures out == Converted(h, validJson)
  {
    out := [];
    for i := 0 to |h|
      invariant out == Converted(h[..i], validJson)
    {
      var m := h[i];
      assert h[..i + 1] == h[..i] + [m];
      ConvertedSnoc(h[..i], m, validJson);
      match m {
        case System(_) =>
        case Assistant(content, calls) =>
          if |calls| > 0 {
            var uses := ConvertCalls(m, validJson);
            out := out + [uses];
          } else if content != "" {
            out := out + [AnthropicMessage(FromAssistant, Plain(content))];
          }
        case Tool(_, _) =>
          if |out| > 0 && HoldsResults(out[|out| - 1]) {
            var existing := out[|out| - 1].body.blocks;
            out := out[|out| - 1 := AnthropicMessage(FromUser, Blocks(existing + [ResultBlock(m)]))];
          } else {
            out := out + [AnthropicMessage(FromUser, Blocks([ResultBlock(m)]))];
          }
        case User(content) =>
          if content != "" {
            out := out + [AnthropicMessage(FromUser, Plain(content))];
          }
      }
    }
    assert h[..|h|] == h;
  }

  // ---------------------------------------------------------------- what the request must obey

  function Uses(bs: seq<Block>): (us: seq<Block>)
    ensures forall i :: 0 <= i < |us| ==> us[i].ToolUse?
  {
    if bs == [] then [] else Uses(bs[..|bs| - 1]) + (if bs[|bs| - 1].ToolUse? then [bs[|bs| - 1]] else [])
  }

  function Results(bs: seq<Block>): seq<Block> {
    if bs == [] then [] else Results(bs[..|bs| - 1]) + (if bs[|bs| - 1].ToolResult? then [bs[|bs| - 1]] else [])
  }

  function BlocksOf(m: AnthropicMessage): seq<Block> {
    if m.body.Blocks? then m.body.blocks else []
  }

  /** m answers the calls of its predecessor: exactly one result per call, in order. */
  ghost predicate Answers(uses: AnthropicMessage, m: AnthropicMessage) {
    && m.sender.FromUser? && m.body.Blocks?
    && |m.body.blocks| == |Uses(BlocksOf(uses))|
    && forall j :: 0 <= j < |m.body.blocks| ==>
         m.body.blocks[j].ToolResult? && m.body.blocks[j].id == Uses(BlocksOf(uses))[j].id
  }

  /** Every message with calls is directly followed by one user message that answers
      them, and results appear nowhere else. */
  ghost predicate Alternates(out: seq<AnthropicMessage>) {
    forall i :: 0 <= i < |out| ==> AlternatesAt(out, i)
  }

  ghost predicate AlternatesAt(out: seq<AnthropicMessage>, i: nat)
    requires i < |out|
  {
    && (Uses(BlocksOf(out[i])) != [] ==> i + 1 < |out| && Answers(out[i], out[i + 1]))
    && (Results(BlocksOf(out[i])) != [] ==> i > 0 && Uses(BlocksOf(out[i - 1])) != [])
  }

  /** All results of a converted conversation, in order. */
  function AllResults(out: seq<AnthropicMessage>): seq<Block> {
    if out == [] then [] else AllResults(out[..|out| - 1]) + Results(BlocksOf(out[|out| - 1]))
  }

  /** All tool results of a history, in order. */
  function HistoryResults(h: History): seq<Block> {
    if h == [] then []
    else HistoryResults(h[..|h| - 1]) + (if h[|h| - 1].Tool? then [ResultBlock(h[|h| - 1])] else [])
  }

  function AllUses(out: seq<AnthropicMessage>): seq<Block> {
    if out == [] then [] else AllUses(out[..|out| - 1]) + Uses(BlocksOf(out[|out| - 1]))
  }

  function HistoryUses(h: History, validJson: string -> bool): seq<Block> {
    if h == [] then []
    else HistoryUses(h[..|h| - 1], validJson)
         + (if h[|h| - 1].Assistant? then UseBlocks(h[|h| - 1].calls, validJson) else [])
  }

  // ---------------------------------------------------------------- rounds

  function ResultBlocks(tools: History): (bs: seq<Block>)
    requires forall i :: 0 <= i < |tools| ==> tools[i].Tool?
    ensures |bs| == |tools|
  {
    seq(|tools|, i requires 0 <= i < |tools| => ResultBlock(tools[i]))
  }

  lemma BlocksSnoc(bs: seq<Block>, b: Block)
    ensures Uses(bs + [b]) == Uses(bs) + (if b.ToolUse? then [b] else [])
    ensures Results(bs + [b]) == Results(bs) + (if b.ToolResult? then [b] else [])
  {
  }

  lemma {:induction false} UsesOfUses(text: seq<Block>, uses: seq<Block>)
    requires |text| <= 1 && (text != [] ==> text[0].TextBlock?)
    requires forall i :: 0 <= i < |uses| ==> uses[i].ToolUse?
    ensures Uses(text + uses) == uses && Results(text + uses) == []
  {
    if uses == [] {
      assert text + uses == text;
      if text != [] { BlocksSnoc([], text[0]); assert text == [] + [text[0]]; }
    } else {
      var shorter, last := uses[..|uses| - 1], uses[|uses| - 1];
      assert text + uses == text + shorter + [last];
      UsesOfUses(text, shorter);
      BlocksSnoc(text + shorter, last);
    }
  }

  lemma {:induction false} ResultsOfResults(bs: seq<Block>)
    requires forall i :: 0 <= i < |bs| ==> bs[i].ToolResult?
    ensures Results(bs) == bs && Uses(bs) == []
  {
    if bs != [] { ResultsOfResults(bs[..|bs| - 1]); }
  }

  lemma ConvertedSnoc(h: History, m: Message, validJson: string -> bool)
    ensures Converted(h + [m], validJson) == Step(Converted(h, validJson), m, validJson)
  {
  }

  lemma StepMerges(pre: seq<AnthropicMessage>, bs: seq<Block>, m: Message, validJson: string -> bool)
    requires m.Tool? && bs != [] && bs[0].ToolResult?
    ensures Step(pre + [AnthropicMessage(FromUser, Blocks(bs))], m, validJson)
         == pre + [AnthropicMessage(FromUser, Blocks(bs + [ResultBlock(m)]))]
  {
  }

  /** The results of a round collect in one new message after the message that asked. */
  lemma {:induction false} ResultsCollect(h: History, tools: History, validJson: string -> bool)
    requires tools != [] && forall i :: 0 <= i < |tools| ==> tools[i].Tool?
    requires var out := Converted(h, validJson); out != [] && out[|out| - 1].sender.FromAssistant?
    ensures Converted(h + tools, validJson)
         == Converted(h, validJson) + [AnthropicMessage(FromUser, Blocks(ResultBlocks(tools)))]
  {
    var shorter, last := tools[..|tools| - 1], tools[|tools| - 1];
    assert h + tools == (h + shorter) + [last];
    ConvertedSnoc(h + shorter, last, validJson);
    assert ResultBlocks(tools) == ResultBlocks(shorter) + [ResultBlock(last)];
    if shorter == [] {
      assert h + shorter == h;
      assert ResultBlocks(tools) == [ResultBlock(last)];
    } else {
      ResultsCollect(h, shorter, validJson);
      StepMerges(Converted(h, validJson), ResultBlocks(shorter), last, validJson);
    }
  }

  lemma {:induction false} ToolsHistory(h: History, tools: History, validJson: string -> bool)
    requires forall i :: 0 <= i < |tools| ==> tools[i].Tool?
    ensures HistoryResults(h + tools) == HistoryResults(h) + ResultBlocks(tools)
    ensures HistoryUses(h + tools, validJson) == HistoryUses(h, validJson)
  {
    var g := h + tools;
    if tools == [] {
      assert g == h;
    } else {
      var shorter := tools[..|tools| - 1];
      assert g[..|g| - 1] == h + shorter;
      ToolsHistory(h, shorter, validJson);
      assert ResultBlocks(tools) == ResultBlocks(shorter) + [ResultBlock(tools[|tools| - 1])];
    }
  }

  /** A paired history ends with a plain message or a whole round. */
  lemma LastRound(h: History) returns (o: nat)
    requires Paired(h) && h != []
    ensures o < |h| && !h[o].Tool? && Paired(h[..o])
    ensures o + h[o].Arity() == |h| - 1
    ensures forall j :: o < j < |h| ==> h[j].Tool? && h[j].callId == h[o].calls[j - o - 1].id
  {
    o := |h| - 1;
    if h[o].Tool? {
      o :| o < |h| - 1 && Owns(h, o, |h| - 1);
    }
    assert RoundAt(h, o);
    assert o + h[o].Arity() < |h|;
    if h[o].Tool? {
      NotOwner(h, o);
    }
    PrefixPaired(h, o);
  }

  lemma NotOwner(h: History, o: nat)
    requires o < |h| && h[o].Arity() > 0
    ensures !h[o].Tool?
  {
  }

  lemma ResultsSnoc(out: seq<AnthropicMessage>, m: AnthropicMessage, g: seq<AnthropicMessage>)
    requires g == out + [m]
    ensures AllResults(g) == AllResults(out) + Results(BlocksOf(m))
  {
  }

  lemma UsesSnoc(out: seq<AnthropicMessage>, m: AnthropicMessage, g: seq<AnthropicMessage>)
    requires g == out + [m]
    ensures AllUses(g) == AllUses(out) + Uses(BlocksOf(m))
  {
  }

  /** What a round of messages adds to the results and the calls. */
  lemma RoundResults(
    out: seq<AnthropicMessage>, u: AnthropicMessage, r: AnthropicMessage, mid: seq<AnthropicMessage>,
    g: seq<AnthropicMessage>, rs: seq<Block>)
    requires mid == out + [u] && g == mid + [r] && Results(BlocksOf(u)) == [] && Results(BlocksOf(r)) == rs
    ensures AllResults(g) == AllResults(out) + rs
  {
  }

  lemma RoundUses(
    out: seq<AnthropicMessage>, u: AnthropicMessage, r: AnthropicMessage, mid: seq<AnthropicMessage>,
    g: seq<AnthropicMessage>, us: seq<Block>)
    requires mid == out + [u] && g == mid + [r] && Uses(BlocksOf(u)) == us && Uses(BlocksOf(r)) == []
    ensures AllUses(g) == AllUses(out) + us
  {
  }

  lemma AppendAlternates(out: seq<AnthropicMessage>, m: AnthropicMessage)
    requires Alternates(out) && Uses(BlocksOf(m)) == [] && Results(BlocksOf(m)) == []
    ensures Alternates(out + [m])
  {
    var g := out + [m];
    forall i | 0 <= i < |g| ensures AlternatesAt(g, i) {
      if i < |out| { assert AlternatesAt(out, i); }
    }
  }

  /** Appending a message with calls and the message that answers them. */
  lemma AppendRound(out: seq<AnthropicMessage>, uses: AnthropicMessage, results: AnthropicMessage)
    requires Alternates(out) && Uses(BlocksOf(uses)) != [] && Results(BlocksOf(uses)) == []
    requires Answers(uses, results) && Uses(BlocksOf(results)) == []
    ensures Alternates(out + [uses] + [results])
  {
    var g := out + [uses] + [results];
    var n := |out|;
    assert g[n] == uses && g[n + 1] == results;
    forall i | 0 <= i < |g| ensures AlternatesAt(g, i) {
      if i < n {
        assert AlternatesAt(out, i) && g[i] == out[i];
        assert i > 0 ==> g[i - 1] == out[i - 1];
        assert i + 1 < n ==> g[i + 1] == out[i + 1];
      } else if i == n {
        assert AlternatesAt(g, n);
      } else {
        assert AlternatesAt(g, n + 1);
      }
    }
  }

  lemma PlainHistory(h: History, validJson: string -> bool)
    requires h != [] && !h[|h| - 1].Tool? && h[|h| - 1].Arity() == 0
    ensures HistoryResults(h) == HistoryResults(h[..|h| - 1])
    ensures HistoryUses(h, validJson) == HistoryUses(h[..|h| - 1], validJson)
  {
  }

  lemma PlainConverts(out: seq<AnthropicMessage>, m: Message, validJson: string -> bool)
    requires !m.Tool? && m.Arity() == 0 && Alternates(out)
    ensures Alternates(Step(out, m, validJson))
    ensures AllResults(Step(out, m, validJson)) == AllResults(out)
    ensures AllUses(Step(out, m, validJson)) == AllUses(out)
  {
    if !m.System? && m.content != "" {
      var plain := AnthropicMessage(if m.User? then FromUser else FromAssistant, Plain(m.content));
      AppendAlternates(out, plain);
      ResultsSnoc(out, plain, out + [plain]);
      UsesSnoc(out, plain, out + [plain]);
    }
  }

  lemma UsesMessageBlocks(m: Message, validJson: string -> bool)
    requires m.Assistant?
    ensures Uses(BlocksOf(UsesMessage(m, validJson))) == UseBlocks(m.calls, validJson)
    ensures Results(BlocksOf(UsesMessage(m, validJson))) == []
  {
    UsesOfUses(if m.content == "" then [] else [TextBlock(m.content)], UseBlocks(m.calls, validJson));
  }

  lemma RoundAnswers(m: Message, tools: History, validJson: string -> bool)
    requires m.Assistant? && 0 < |m.calls| == |tools|
    requires forall j :: 0 <= j < |tools| ==> tools[j].Tool? && tools[j].callId == m.calls[j].id
    ensures Answers(UsesMessage(m, validJson), AnthropicMessage(FromUser, Blocks(ResultBlocks(tools))))
  {
    UsesMessageBlocks(m, validJson);
  }

  lemma HeadConverts(pre: History, m: Message, validJson: string -> bool)
    requires m.Assistant? && m.calls != []
    ensures Converted(pre + [m], validJson) == Converted(pre, validJson) + [UsesMessage(m, validJson)]
    ensures HistoryResults(pre + [m]) == HistoryResults(pre)
    ensures HistoryUses(pre + [m], validJson) == HistoryUses(pre, validJson) + UseBlocks(m.calls, validJson)
  {
  }

  /** A whole round converts to two messages. */
  lemma RoundForm(pre: History, m: Message, tools: History, validJson: string -> bool)
    requires m.Assistant? && m.calls != [] && tools != []
    requires forall j :: 0 <= j < |tools| ==> tools[j].Tool?
    ensures Converted(pre + [m] + tools, validJson)
         == Converted(pre, validJson) + [UsesMessage(m, validJson)]
             + [AnthropicMessage(FromUser, Blocks(ResultBlocks(tools)))]
    ensures HistoryResults(pre + [m] + tools) == HistoryResults(pre) + ResultBlocks(tools)
    ensures HistoryUses(pre + [m] + tools, validJson) == HistoryUses(pre, validJson) + UseBlocks(m.calls, validJson)
  {
    HeadConverts(pre, m, validJson);
    ResultsCollect(pre + [m], tools, validJson);
    ToolsHistory(pre + [m], tools, validJson);
  }

  /** What the conversion owes a history. */
  ghost predicate Converts(h: History, out: seq<AnthropicMessage>, validJson: string -> bool) {
    Alternates(out) && AllResults(out) == HistoryResults(h) && AllUses(out) == HistoryUses(h, validJson)
  }

  lemma RoundConverts(pre: History, m: Message, tools: History, validJson: string -> bool)
    requires m.Assistant? && 0 < |m.calls| == |tools|
    requires forall j :: 0 <= j < |tools| ==> tools[j].Tool? && tools[j].callId == m.calls[j].id
    requires Converts(pre, Converted(pre, validJson), validJson)
    ensures Converts(pre + [m] + tools, Converted(pre + [m] + tools, validJson), validJson)
  {
    var uses, results := UsesMessage(m, validJson), AnthropicMessage(FromUser, Blocks(ResultBlocks(tools)));
    RoundForm(pre, m, tools, validJson);
    UsesMessageBlocks(m, validJson);
    RoundAnswers(m, tools, validJson);
    ResultsOfResults(ResultBlocks(tools));
    RoundMessages(Converted(pre, validJson), uses, results, UseBlocks(m.calls, validJson), ResultBlocks(tools));
  }

  lemma RoundMessages(
    out: seq<AnthropicMessage>, u: AnthropicMessage, r: AnthropicMessage, us: seq<Block>, rs: seq<Block>)
    requires Alternates(out) && Answers(u, r) && us != []
    requires Uses(BlocksOf(u)) == us && Results(BlocksOf(u)) == [] && Results(BlocksOf(r)) == rs
            && Uses(BlocksOf(r)) == []
    ensures Alternates(out + [u] + [r])
    ensures AllResults(out + [u] + [r]) == AllResults(out) + rs
    ensures AllUses(out + [u] + [r]) == AllUses(out) + us
  {
    AppendRound(out, u, r);
    RoundResults(out, u, r, out + [u], out + [u] + [r], rs);
    RoundUses(out, u, r, out + [u], out + [u] + [r], us);
  }

  /** On a paired history the conversion keeps every call and every result exactly once,
      in order, and each round's results directly follow its calls. */
  lemma {:induction false} ConversionPaired(h: History, validJson: string -> bool)
    requires Paired(h)
    ensures Converts(h, Converted(h, validJson), validJson)
    decreases |h|
  {
    if h != [] {
      var o := LastRound(h);
      var pre, m, tools := h[..o], h[o], h[o + 1..];
      ConversionPaired(pre, validJson);
      if m.Arity() == 0 {
        PlainHistory(h, validJson);
        PlainConverts(Converted(pre, validJson), m, validJson);
      } else {
        assert h == pre + [m] + tools;
        RoundConverts(pre, m, tools, validJson);
      }
    }
  }
}
