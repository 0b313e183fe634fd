/** The shared history primitives: token estimate, window truncation, safe boundaries. */
module ContextWindow {
  import opened Messages

  // ---------------------------------------------------------------- token estimate

  function CallBytes(calls: seq<ToolCall>): nat {
    if calls == [] then 0 else CallBytes(calls[..|calls| - 1]) + |calls[|calls| - 1].name| + |calls[|calls| - 1].args|
  }

  function MessageBytes(m: Message): nat {
    |m.content| + (if m.Tool? then |m.callId| else 0) + (if m.Assistant? then CallBytes(m.calls) else 0)
  }

  function Bytes(h: History): nat {
    if h == [] then 0 else Bytes(h[..|h| - 1]) + MessageBytes(h[|h| - 1])
  }

  function Estimate(h: History): nat {
    Bytes(h) / 4
  }

  method EstimateTokens(h: History) returns (tokens: nat)
    ensures tokens == Estimate(h)
  {
    var bytes := 0;
    for i := 0 to |h|
      invariant bytes == Bytes(h[..i])
    {
      assert h[..i + 1][..i] == h[..i];
      var m := h[i];
      bytes := bytes + |m.content| + (if m.Tool? then |m.callId| else 0);
      if m.Assistant? {
        for j := 0 to |m.calls|
          invariant bytes == Bytes(h[..i]) + |m.content| + CallBytes(m.calls[..j])
        {
          assert m.calls[..j + 1][..j] == m.calls[..j];
          bytes := bytes + |m.calls[j].name| + |m.calls[j].args|;
        }
        assert m.calls[..|m.calls|] == m.calls;
      }
    }
    assert h[..|h|] == h;
    tokens := bytes / 4;
  }

  /** The estimate counts every byte of every message once, however the history is split. */
  lemma {:induction false} BytesConcat(a: History, b: History)
    ensures Bytes(a + b) == Bytes(a) + Bytes(b)
  {
    if b == [] {
      assert a + b == a;
    } else {
      assert (a + b)[..|a + b| - 1] == a + b[..|b| - 1];
      BytesConcat(a, b[..|b| - 1]);
    }
  }

  // ---------------------------------------------------------------- safe boundaries

  /** Where a window may open: its first safe boundary or, when it has none, its first
      message that is not a tool result. */
  ghost predicate IsTailStart(h: History, k: nat) {
    && k <= |h|
    && if exists i :: 0 <= i < |h| && h[i].SafeBoundary() then
         k < |h| && h[k].SafeBoundary() && forall i :: 0 <= i < k ==> !h[i].SafeBoundary()
       else
         (k < |h| ==> !h[k].Tool?) && forall i :: 0 <= i < k ==> h[i].Tool?
  }

  /** The first index at or after `from` holding a safe boundary, or |h|. */
  function FirstSafe(h: History, from: nat): (k: nat)
    requires from <= |h|
    ensures from <= k <= |h| && (k < |h| ==> h[k].SafeBoundary())
    ensures forall i :: from <= i < k ==> !h[i].SafeBoundary()
    decreases |h| - from
  {
    if from == |h| || h[from].SafeBoundary() then from else FirstSafe(h, from + 1)
  }

  /** The first index at or after `from` holding no tool result, or |h|. */
  function FirstNonTool(h: History, from: nat): (k: nat)
    requires from <= |h|
    ensures from <= k <= |h| && (k < |h| ==> !h[k].Tool?)
    ensures forall i :: from <= i < k ==> h[i].Tool?
    decreases |h| - from
  {
    if from == |h| || !h[from].Tool? then from else FirstNonTool(h, from + 1)
  }

  function TailStart(h: History): (k: nat)
    ensures IsTailStart(h, k)
  {
    var safe := FirstSafe(h, 0);
    if safe < |h| then safe else FirstNonTool(h, 0)
  }

  function Tail(h: History): History {
    h[TailStart(h)..]
  }

  /** The window start is fully determined by what it promises. */
  lemma TailStartUnique(h: History, j: nat, k: nat)
    requires IsTailStart(h, j) && IsTailStart(h, k)
    ensures j == k
  {
  }

  method TailFromSafeBoundary(h: History) returns (tail: History)
    ensures tail == Tail(h)
  {
    for i := 0 to |h|
      invariant forall j :: 0 <= j < i ==> !h[j].SafeBoundary()
    {
      if h[i].User? {
        TailStartUnique(h, i, TailStart(h));
        return h[i..];
      }
      if h[i].Assistant? && |h[i].calls| == 0 {
        TailStartUnique(h, i, TailStart(h));
        return h[i..];
      }
    }
    for i := 0 to |h|
      invariant forall j :: 0 <= j < i ==> h[j].Tool?
    {
      if !h[i].Tool? {
        TailStartUnique(h, i, TailStart(h));
        return h[i..];
      }
    }
    TailStartUnique(h, |h|, TailStart(h));
    return [];
  }

  /** Opening at a safe boundary never breaks pairing, whatever the window held. */
  lemma TailPaired(h: History, from: nat)
    requires OpenPaired(h) && from <= |h|
    ensures OpenPaired(Tail(h[from..]))
    ensures Paired(h) ==> Paired(Tail(h[from..]))
  {
    var k := from + TailStart(h[from..]);
    assert h[from..][TailStart(h[from..])..] == h[k..];
    SuffixPaired(h, k);
  }

  // ---------------------------------------------------------------- truncation

  /** Where the truncated window starts in the whole history. */
  function Cut(h: History, maxMessages: nat): (k: nat)
    ensures k <= |h| && |h| - k <= maxMessages
  {
    if |h| <= maxMessages then 0
    else
      var from := |h| - maxMessages;
      from + TailStart(h[from..])
  }

  function Truncated(h: History, maxMessages: nat): History {
    h[Cut(h, maxMessages)..]
  }

  lemma DropDrop(h: History, i: nat, j: nat)
    requires i + j <= |h|
    ensures h[i..][j..] == h[i + j..]
    ensures i + j < |h| ==> h[i..][j] == h[i + j]
  {
  }

  method TruncateMessages(h: History, maxMessages: nat) returns (window: History)
    ensures window == Truncated(h, maxMessages)
  {
    if |h| <= maxMessages {
      return h;
    }
    var from := |h| - maxMessages;
    window := TailFromSafeBoundary(h[from..]);
    DropDrop(h, from, TailStart(h[from..]));
  }

  /** Truncation keeps a paired suffix of at most maxMessages messages. */
  lemma TruncatedPaired(h: History, maxMessages: nat)
    requires OpenPaired(h)
    ensures |Truncated(h, maxMessages)| <= maxMessages
    ensures Truncated(h, maxMessages) == h[|h| - |Truncated(h, maxMessages)|..]
    ensures OpenPaired(Truncated(h, maxMessages))
    ensures Paired(h) ==> Paired(Truncated(h, maxMessages))
  {
    var k := Cut(h, maxMessages);
    CutSafe(h, maxMessages);
    if k == 0 { assert h[0..] == h; } else { SuffixPaired(h, k); }
  }

  /** Truncation never opens the window on a tool result. */
  lemma CutSafe(h: History, maxMessages: nat)
    ensures var k := Cut(h, maxMessages); 0 < k < |h| ==> !h[k].Tool?
  {
  }

  ghost predicate AllTools(h: History) {
    forall j :: 0 <= j < |h| ==> h[j].Tool?
  }

  lemma TailOfTools(w: History)
    requires AllTools(w)
    ensures Tail(w) == []
  {
  }

  /** The two parts of a window that opens before index p. */
  lemma DropSplit(h: History, rest: History, cut: nat)
    requires cut <= |h|
    ensures (h + rest)[cut..] == h[cut..] + rest
  {
  }

  /** An assistant message that still waits for results, and the results it has. */
  ghost predicate Unfinished(a: Message, results: History) {
    && a.Assistant? && a.calls != []
    && AllTools(results)
  }

  /** Mid-round truncation never cuts past the open round's assistant message, as long
      as that message and its results still fit the window. */
  lemma TruncationKeepsRound(h: History, a: Message, results: History, maxMessages: nat) returns (cut: nat)
    requires Unfinished(a, results) && |results| < maxMessages
    ensures cut <= |h| && (cut < |h| && cut > 0 ==> !h[cut].Tool?)
    ensures Truncated(h + ([a] + results), maxMessages) == h[cut..] + ([a] + results)
    ensures |h[cut..]| + 1 + |results| <= maxMessages
  {
    var rest := [a] + results;
    var g := h + rest;
    assert g[|h|] == a;
    assert forall j :: |h| < j < |g| ==> g[j] == results[j - |h| - 1];
    WindowCut(g, |h|, maxMessages);
    cut := Cut(g, maxMessages);
    DropSplit(h, rest, cut);
  }

  lemma WindowCut(g: History, p: nat, maxMessages: nat)
    requires p < |g| && !g[p].Tool? && |g| - p <= maxMessages
    requires forall j :: p < j < |g| ==> g[j].Tool?
    ensures Cut(g, maxMessages) <= p && (Cut(g, maxMessages) > 0 ==> !g[Cut(g, maxMessages)].Tool?)
  {
  }

  // ---------------------------------------------------------------- appending with truncation

  /** The window after appending the messages one at a time, truncating after each. */
  function AppendAll(h: History, more: History, maxMessages: nat): History {
    if more == [] then h
    else Truncated(AppendAll(h, more[..|more| - 1], maxMessages) + [more[|more| - 1]], maxMessages)
  }

  lemma {:induction false} AppendAllConcat(h: History, a: History, b: History, maxMessages: nat)
    ensures AppendAll(h, a + b, maxMessages) == AppendAll(AppendAll(h, a, maxMessages), b, maxMessages)
  {
    if b == [] {
      assert a + b == a;
    } else {
      assert (a + b)[..|a + b| - 1] == a + b[..|b| - 1];
      AppendAllConcat(h, a, b[..|b| - 1], maxMessages);
    }
  }

  /** The window while a round's results arrive: the round's assistant message stays in
      the window, and the window opens at no orphaned result. */
  ghost predicate RoundWindow(h: History, a: Message, results: History, maxMessages: nat, cut: nat) {
    && cut <= |h|
    && (cut < |h| && cut > 0 ==> !h[cut].Tool?)
    && AppendAll(h, [a] + results, maxMessages) == h[cut..] + ([a] + results)
    && |h[cut..]| + 1 + |results| <= maxMessages
  }

  lemma {:induction false} RoundFits(h: History, a: Message, results: History, maxMessages: nat) returns (cut: nat)
    requires Unfinished(a, results) && |results| < maxMessages
    ensures RoundWindow(h, a, results, maxMessages, cut)
  {
    var more := [a] + results;
    if results == [] {
      assert more[..0] == [] && AppendAll(h, [], maxMessages) == h;
      assert h + [more[0]] == h + ([a] + results);
      cut := TruncationKeepsRound(h, a, results, maxMessages);
    } else {
      var shorter := results[..|results| - 1];
      var last := results[|results| - 1];
      assert more[..|more| - 1] == [a] + shorter;
      var c := RoundFits(h, a, shorter, maxMessages);
      var kept := h[c..];
      assert kept + ([a] + shorter) + [last] == kept + ([a] + results);
      var d := TruncationKeepsRound(kept, a, results, maxMessages);
      cut := c + d;
      assert kept[d..] == h[cut..];
    }
  }

  /** What the window holds before the open round stays paired. */
  lemma RoundFitsPaired(h: History, a: Message, results: History, maxMessages: nat) returns (cut: nat)
    requires InRound(h, a, results) && a.calls != [] && |results| < maxMessages
    ensures RoundWindow(h, a, results, maxMessages, cut) && InRound(h[cut..], a, results)
  {
    cut := RoundFits(h, a, results, maxMessages);
    if cut > 0 { SuffixPaired(h, cut); } else { assert h[0..] == h; }
  }

  lemma TruncatedTools(g: History, maxMessages: nat)
    requires AllTools(g)
    ensures Truncated(g, maxMessages) == if |g| <= maxMessages then g else []
  {
  }

  lemma OrphansUnpaired(g: History)
    requires g != [] && g[0].Tool?
    ensures !OpenPaired(g)
  {
  }

  /** Tool results alone: the window fills up, then empties, with period maxMessages + 1. */
  lemma {:induction false} ToolsOnly(results: History, maxMessages: nat)
    requires AllTools(results)
    ensures AllTools(AppendAll([], results, maxMessages))
    ensures |AppendAll([], results, maxMessages)| == |results| % (maxMessages + 1)
  {
    if results != [] {
      var shorter := results[..|results| - 1];
      ToolsOnly(shorter, maxMessages);
      var g := AppendAll([], shorter, maxMessages) + [results[|results| - 1]];
      ModStep(|shorter|, maxMessages + 1);
      TruncatedTools(g, maxMessages);
    }
  }

  lemma ModUnique(n: nat, d: nat, q: nat, r: nat)
    requires r < d && n == d * q + r
    ensures n % d == r
  {
    var p: int := n / d - q;
    assert n == d * (n / d) + n % d;
    assert d * p == r - n % d;
    assert p >= 1 ==> d * p >= d;
    assert p <= -1 ==> d * p + d <= 0;
  }

  lemma ModStep(n: nat, d: nat)
    requires d > 0
    ensures (n + 1) % d == if n % d + 1 == d then 0 else n % d + 1
  {
    var q, r := n / d, n % d;
    if r + 1 == d {
      assert d * (q + 1) == d * q + d;
      ModUnique(n + 1, d, q + 1, 0);
    } else {
      ModUnique(n + 1, d, q, r + 1);
    }
  }

  lemma ModShift(m: nat, d: nat)
    requires d > 0
    ensures (m + d) % d == m % d
  {
    assert d * (m / d + 1) == d * (m / d) + d;
    ModUnique(m + d, d, m / d + 1, m % d);
  }

  /** Exactly when a whole tool round survives the window: with fewer calls than the
      window has slots or, by accident, when the results emptied the window again. */
  lemma RoundSurvivesIff(h: History, a: Message, results: History, maxMessages: nat)
    requires InRound(h, a, results) && |results| == |a.calls| > 0
    requires 0 < maxMessages
    ensures Paired(AppendAll(h, [a] + results, maxMessages))
       <==> |results| < maxMessages || (|results| + 1) % (maxMessages + 1) == 0
  {
    if |results| < maxMessages {
      SmallRoundSurvives(h, a, results, maxMessages);
    } else {
      BigRoundSurvivesIff(h, a, results, maxMessages);
    }
  }

  lemma BigRoundSurvivesIff(h: History, a: Message, results: History, maxMessages: nat)
    requires Unfinished(a, results) && 0 < maxMessages <= |results|
    ensures Paired(AppendAll(h, [a] + results, maxMessages)) <==> (|results| + 1) % (maxMessages + 1) == 0
  {
    RoundTooBig(h, a, results, maxMessages);
    LateResults(results[maxMessages..], maxMessages);
    ModShift(|results| - maxMessages, maxMessages + 1);
  }

  lemma SmallRoundSurvives(h: History, a: Message, results: History, maxMessages: nat)
    requires InRound(h, a, results) && 0 < |results| == |a.calls| && |results| < maxMessages
    ensures Paired(AppendAll(h, [a] + results, maxMessages))
  {
    var cut := RoundFitsPaired(h, a, results, maxMessages);
    RoundProgress(h[cut..], a, results);
    assert h[cut..] + [a] + results == h[cut..] + ([a] + results);
  }

  /** Results that arrive after their round left the window pair only by emptying it. */
  lemma LateResults(late: History, maxMessages: nat)
    requires AllTools(late)
    ensures Paired(AppendAll([], late, maxMessages)) <==> |late| % (maxMessages + 1) == 0
  {
    ToolsOnly(late, maxMessages);
    var g := AppendAll([], late, maxMessages);
    if g != [] { OrphansUnpaired(g); }
  }

  /** A round with a window's worth of results pushes its own assistant message out. */
  lemma RoundTooBig(h: History, a: Message, results: History, maxMessages: nat)
    requires Unfinished(a, results) && 0 < maxMessages <= |results|
    ensures AppendAll(h, [a] + results, maxMessages) == AppendAll([], results[maxMessages..], maxMessages)
  {
    var fill, late := results[..maxMessages], results[maxMessages..];
    WindowOverflows(h, a, fill, maxMessages);
    assert [a] + results == [a] + fill + late;
    AppendAllConcat(h, [a] + fill, late, maxMessages);
  }

  lemma WindowOverflows(h: History, a: Message, fill: History, maxMessages: nat)
    requires Unfinished(a, fill) && 0 < maxMessages == |fill|
    ensures AppendAll(h, [a] + fill, maxMessages) == []
  {
    var first, last := fill[..|fill| - 1], fill[|fill| - 1];
    var cut := RoundFits(h, a, first, maxMessages);
    var more := [a] + fill;
    assert more[..|more| - 1] == [a] + first;
    var kept := h[cut..] + [a];
    var g := h[cut..] + ([a] + first) + [last];
    assert g == kept + fill;
    assert g[|kept|..] == fill;
    TailOfTools(fill);
  }
}
