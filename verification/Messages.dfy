/** Conversation messages and the pairing discipline every provider request must obey.

    A message's text is a byte string: one `char` of a `string` stands for one byte. */
module Messages {

  datatype ToolCall = ToolCall(id: string, name: string, args: string)

  datatype Message =
    | System(content: string)
    | User(content: string)
    | Assistant(content: string, calls: seq<ToolCall>)
    | Tool(callId: string, content: string)
  {
    /** How many tool results must directly follow this message. */
    function Arity(): nat {
      if Assistant? then |calls| else 0
    }

    /** A message a request may start at or end with: it neither owes nor answers tool calls. */
    predicate SafeBoundary() {
      User? || (Assistant? && calls == [])
    }
  }

  type History = seq<Message>

  /** The results present after the message at i answer its calls, in order. */
  ghost predicate RoundAt(h: History, i: nat)
    requires i < |h|
  {
    forall j :: i < j <= i + h[i].Arity() && j < |h| ==> h[j].Tool? && h[j].callId == h[i].calls[j - i - 1].id
  }

  /** The tool message at i answers a call of the message at o. */
  ghost predicate Owns(h: History, o: nat, i: nat)
    requires o < |h|
  {
    o < i <= o + h[o].Arity()
  }

  /** Pairing up to the end of the history: the last round may still wait for results. */
  ghost predicate OpenPaired(h: History) {
    && (forall i :: 0 <= i < |h| ==> RoundAt(h, i))
    && (forall i :: 0 <= i < |h| && h[i].Tool? ==> exists o: nat :: o < i && Owns(h, o, i))
  }

  /** Every round that was opened has all its results. */
  ghost predicate Complete(h: History) {
    forall i :: 0 <= i < |h| ==> i + h[i].Arity() < |h|
  }

  /** Every assistant message with k calls is followed at once by its k results, in
      order, and tool messages occur nowhere else. */
  ghost predicate Paired(h: History) {
    OpenPaired(h) && Complete(h)
  }

  /** Appending a message that is no tool result to a paired history opens at most one round. */
  lemma AppendOpens(h: History, m: Message)
    requires Paired(h) && !m.Tool?
    ensures OpenPaired(h + [m])
    ensures m.Arity() == 0 ==> Paired(h + [m])
  {
    var g := h + [m];
    forall i | 0 <= i < |g| ensures RoundAt(g, i) {
      if i < |h| { assert RoundAt(h, i); }
    }
    forall i | 0 <= i < |g| && g[i].Tool? ensures exists o: nat :: o < i && Owns(g, o, i) {
      var o: nat :| o < i && Owns(h, o, i);
      assert Owns(g, o, i);
    }
  }

  /** The history h + [a] + (the first results of a). */
  ghost predicate InRound(h: History, a: Message, results: History) {
    && Paired(h)
    && a.Assistant?
    && |results| <= |a.calls|
    && (forall j :: 0 <= j < |results| ==> results[j].Tool? && results[j].callId == a.calls[j].id)
  }

  /** Mid-round a history is open-paired, and it is paired exactly when the round is full. */
  lemma RoundProgress(h: History, a: Message, results: History)
    requires InRound(h, a, results)
    ensures OpenPaired(h + [a] + results)
    ensures Paired(h + [a] + results) <==> |results| == |a.calls|
  {
    var g := h + [a] + results;
    forall i | 0 <= i < |g| ensures RoundAt(g, i) {
      if i < |h| { assert RoundAt(h, i); assert i + h[i].Arity() < |h|; }
    }
    forall i | 0 <= i < |g| && g[i].Tool? ensures exists o: nat :: o < i && Owns(g, o, i) {
      if i < |h| {
        var o: nat :| o < i && Owns(h, o, i);
        assert Owns(g, o, i);
      } else {
        assert Owns(g, |h|, i);
      }
    }
    assert g[|h|] == a;
    if |results| == |a.calls| {
      forall i | 0 <= i < |g| ensures i + g[i].Arity() < |g| {
        if i < |h| { assert i + h[i].Arity() < |h|; }
      }
    }
  }

  /** A window that does not open on a tool result inherits pairing from the whole. */
  lemma SuffixPaired(h: History, k: nat)
    requires OpenPaired(h) && k <= |h|
    requires k < |h| ==> !h[k].Tool?
    ensures OpenPaired(h[k..])
    ensures Paired(h) ==> Paired(h[k..])
  {
    var g := h[k..];
    forall i | 0 <= i < |g| ensures RoundAt(g, i) {
      assert RoundAt(h, i + k);
    }
    forall i | 0 <= i < |g| && g[i].Tool? ensures exists o: nat :: o < i && Owns(g, o, i) {
      var o: nat :| o < i + k && Owns(h, o, i + k);
      assert RoundAt(h, o);
      assert o >= k;
      assert Owns(g, o - k, i);
    }
    if Paired(h) {
      forall i | 0 <= i < |g| ensures i + g[i].Arity() < |g| {
        assert i + k + h[i + k].Arity() < |h|;
      }
    }
  }

  /** A prefix is open-paired; it is paired when the next message answers nothing. */
  lemma PrefixPaired(h: History, k: nat)
    requires OpenPaired(h) && k <= |h|
    ensures OpenPaired(h[..k])
    ensures k < |h| && !h[k].Tool? ==> Paired(h[..k])
    ensures k > 0 && h[k - 1].SafeBoundary() ==> Paired(h[..k])
  {
    var g := h[..k];
    forall i | 0 <= i < |g| ensures RoundAt(g, i) {
      assert RoundAt(h, i);
    }
    forall i | 0 <= i < |g| && g[i].Tool? ensures exists o: nat :: o < i && Owns(g, o, i) {
      var o: nat :| o < i && Owns(h, o, i);
      assert Owns(g, o, i);
    }
    if (k < |h| && !h[k].Tool?) || (k > 0 && h[k - 1].SafeBoundary()) {
      forall i | 0 <= i < |g| ensures i + g[i].Arity() < |g| {
        assert RoundAt(h, i);
      }
    }
  }

  /** Two paired histories in a row are paired. */
  lemma ConcatPaired(a: History, b: History)
    requires Paired(a) && OpenPaired(b)
    ensures OpenPaired(a + b)
    ensures Paired(a + b) <==> Paired(b)
  {
    var g := a + b;
    forall i | 0 <= i < |g| ensures RoundAt(g, i) {
      if i < |a| { assert RoundAt(a, i); assert i + a[i].Arity() < |a|; } else { assert RoundAt(b, i - |a|); }
    }
    forall i | 0 <= i < |g| && g[i].Tool? ensures exists o: nat :: o < i && Owns(g, o, i) {
      if i < |a| {
        var o: nat :| o < i && Owns(a, o, i);
        assert Owns(g, o, i);
      } else {
        var o: nat :| o < i - |a| && Owns(b, o, i - |a|);
        assert Owns(g, o + |a|, i);
      }
    }
    if Paired(b) {
      forall i | 0 <= i < |g| ensures i + g[i].Arity() < |g| {
        if i < |a| { assert i + a[i].Arity() < |a|; } else { assert i - |a| + b[i - |a|].Arity() < |b|; }
      }
    }
    if Paired(g) {
      forall i | 0 <= i < |b| ensures i + b[i].Arity() < |b| {
        assert i + |a| + g[i + |a|].Arity() < |g|;
      }
    }
  }
}
