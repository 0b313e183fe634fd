/** The two compaction tiers of a worker session: eliding aged tool results, and
    rebuilding the history around a summary. */
module Compaction {
  import opened Messages
  import opened ContextWindow

  const COMPACT_KEEP_TURNS: nat := 4
  const ELIDED_STUB_PREFIX := "[elided tool result"
  const SPAWN_WORKER := "spawn_worker"
  const SUMMARY_HEADER :=
    "[Compaction summary — earlier conversation was compacted to fit the context window. Progress so far:]\n\n"

  // ---------------------------------------------------------------- protected tail

  /** Assistant turns at or after `from`. */
  function Turns(h: History, from: nat): nat
    requires from <= |h|
    decreases |h| - from
  {
    if from == |h| then 0 else Turns(h, from + 1) + (if h[from].Assistant? then 1 else 0)
  }

  /** The keep-th assistant message from the end, or 0 when there are fewer. */
  ghost predicate IsProtectedStart(h: History, keep: nat, p: nat) {
    && p <= |h|
    && if 0 < keep <= Turns(h, 0) then p < |h| && h[p].Assistant? && Turns(h, p) == keep else p == 0
  }

  lemma {:induction false} TurnsMonotone(h: History, i: nat, j: nat)
    requires i <= j <= |h|
    ensures Turns(h, j) <= Turns(h, i)
    decreases j - i
  {
    if i < j { TurnsMonotone(h, i + 1, j); }
  }

  lemma ProtectedStartUnique(h: History, keep: nat, p: nat, q: nat)
    requires IsProtectedStart(h, keep, p) && IsProtectedStart(h, keep, q)
    ensures p == q
  {
    if p < q { TurnsMonotone(h, p + 1, q); }
    if q < p { TurnsMonotone(h, q + 1, p); }
  }

  function ProtectedFrom(h: History, keep: nat, i: nat): (p: nat)
    requires i <= |h| && Turns(h, i) < keep
    ensures IsProtectedStart(h, keep, p)
  {
    if i == 0 then 0
    else if h[i - 1].Assistant? && Turns(h, i) + 1 == keep then
      (assert Turns(h, i - 1) == keep; TurnsMonotone(h, 0, i - 1); i - 1)
    else ProtectedFrom(h, keep, i - 1)
  }

  function ProtectedStart(h: History, keep: nat): (p: nat)
    ensures IsProtectedStart(h, keep, p)
  {
    if keep == 0 then 0 else ProtectedFrom(h, keep, |h|)
  }

  method ProtectedTailStart(h: History, keep: nat) returns (p: nat)
    ensures p == ProtectedStart(h, keep)
  {
    var turns := 0;
    var i: int := |h|;
    while i > 0
      invariant 0 <= i <= |h| && turns == Turns(h, i)
      invariant keep == 0 || turns < keep
    {
      i := i - 1;
      if h[i].Assistant? {
        turns := turns + 1;
        if turns == keep {
          TurnsMonotone(h, 0, i);
          ProtectedStartUnique(h, keep, i, ProtectedStart(h, keep));
          return i;
        }
      }
    }
    ProtectedStartUnique(h, keep, 0, ProtectedStart(h, keep));
    return 0;
  }

  // ---------------------------------------------------------------- tier 1: elision

  function NamesIn(calls: seq<ToolCall>, names: map<string, string>): map<string, string> {
    if calls == [] then names
    else NamesIn(calls[..|calls| - 1], names)[calls[|calls| - 1].id := calls[|calls| - 1].name]
  }

  /** Tool names by call id; a repeated id keeps its last name. */
  function ToolNames(h: History): map<string, string> {
    if h == [] then map[]
    else
      var names := ToolNames(h[..|h| - 1]);
      if h[|h| - 1].Assistant? then NamesIn(h[|h| - 1].calls, names) else names
  }

  function NameOf(names: map<string, string>, id: string): string {
    if id in names then names[id] else ""
  }

  function Stub(name: string): string {
    ELIDED_STUB_PREFIX + ": " + (if name == "" then "unknown" else name) + "]"
  }

  predicate IsStub(content: string) {
    ELIDED_STUB_PREFIX <= content
  }

  predicate Elidable(m: Message, names: map<string, string>) {
    m.Tool? && NameOf(names, m.callId) != SPAWN_WORKER && !IsStub(m.content)
  }

  function ElideOne(m: Message, names: map<string, string>): Message {
    if Elidable(m, names) then Tool(m.callId, Stub(NameOf(names, m.callId))) else m
  }

  function ElidedUpTo(h: History, names: map<string, string>, protect: nat): (g: History)
    ensures |g| == |h|
  {
    seq(|h|, i requires 0 <= i < |h| => if i < protect then ElideOne(h[i], names) else h[i])
  }

  function Elided(h: History, keep: nat): (g: History)
    ensures |g| == |h|
  {
    ElidedUpTo(h, ToolNames(h), ProtectedStart(h, keep))
  }

  function CountElidable(h: History, names: map<string, string>, protect: nat): nat
    requires protect <= |h|
  {
    if protect == 0 then 0
    else CountElidable(h, names, protect - 1) + (if Elidable(h[protect - 1], names) then 1 else 0)
  }

  method ElideToolResults(h: History, keep: nat) returns (out: History, elided: nat)
    ensures out == Elided(h, keep)
    ensures elided == CountElidable(h, ToolNames(h), ProtectedStart(h, keep))
  {
    var protect := ProtectedTailStart(h, keep);
    var names: map<string, string> := map[];
    for i := 0 to |h|
      invariant names == ToolNames(h[..i])
    {
      assert h[..i + 1][..i] == h[..i];
      if h[i].Assistant? {
        var calls := h[i].calls;
        for j := 0 to |calls|
          invariant names == NamesIn(calls[..j], ToolNames(h[..i]))
        {
          assert calls[..j + 1][..j] == calls[..j];
          names := names[calls[j].id := calls[j].name];
        }
        assert calls[..|calls|] == calls;
      }
    }
    assert h[..|h|] == h;

    out := h;
    elided := 0;
    for i := 0 to protect
      invariant out == ElidedUpTo(h, names, i)
      invariant elided == CountElidable(h, names, i)
    {
      var m := out[i];
      if m.Tool? {
        var name := NameOf(names, m.callId);
        if name != SPAWN_WORKER && !IsStub(m.content) {
          out := out[i := Tool(m.callId, Stub(name))];
          elided := elided + 1;
        }
      }
      assert out == ElidedUpTo(h, names, i + 1);
    }
  }

  /** Equal up to the texts of tool results. */
  ghost predicate SameShape(m: Message, n: Message) {
    m == n || (m.Tool? && n.Tool? && m.callId == n.callId)
  }

  ghost predicate SameShapes(g: History, h: History) {
    |g| == |h| && forall i :: 0 <= i < |g| ==> SameShape(g[i], h[i])
  }

  /** Pairing does not depend on tool result texts. */
  lemma ShapePaired(g: History, h: History)
    requires SameShapes(g, h) && OpenPaired(h)
    ensures OpenPaired(g)
    ensures Paired(h) ==> Paired(g)
  {
    forall i | 0 <= i < |g| ensures RoundAt(g, i) {
      assert RoundAt(h, i) && SameShape(g[i], h[i]);
      forall j | i < j <= i + g[i].Arity() && j < |g| ensures g[j].Tool? && g[j].callId == g[i].calls[j - i - 1].id {
        assert SameShape(g[j], h[j]);
      }
    }
    forall i | 0 <= i < |g| && g[i].Tool? ensures exists o: nat :: o < i && Owns(g, o, i) {
      assert SameShape(g[i], h[i]);
      var o: nat :| o < i && Owns(h, o, i);
      assert SameShape(g[o], h[o]) && Owns(g, o, i);
    }
    if Paired(h) {
      forall i | 0 <= i < |g| ensures i + g[i].Arity() < |g| {
        assert SameShape(g[i], h[i]) && i + h[i].Arity() < |h|;
      }
    }
  }

  lemma {:induction false} ShapeTurns(g: History, h: History, from: nat)
    requires SameShapes(g, h) && from <= |h|
    ensures Turns(g, from) == Turns(h, from)
    decreases |h| - from
  {
    if from < |h| {
      assert SameShape(g[from], h[from]);
      ShapeTurns(g, h, from + 1);
    }
  }

  lemma {:induction false} ShapeNames(g: History, h: History)
    requires SameShapes(g, h)
    ensures ToolNames(g) == ToolNames(h)
  {
    if g != [] {
      assert SameShape(g[|g| - 1], h[|h| - 1]);
      ShapeNames(g[..|g| - 1], h[..|h| - 1]);
    }
  }

  lemma ShapeProtected(g: History, h: History, keep: nat)
    requires SameShapes(g, h)
    ensures ProtectedStart(g, keep) == ProtectedStart(h, keep)
  {
    var p := ProtectedStart(g, keep);
    ShapeTurns(g, h, 0);
    ShapeTurns(g, h, p);
    if p < |g| { assert SameShape(g[p], h[p]); }
    ProtectedStartUnique(h, keep, p, ProtectedStart(h, keep));
  }

  /** Elision changes nothing but the texts of tool results before the protected tail. */
  lemma ElisionShape(h: History, keep: nat)
    ensures SameShapes(Elided(h, keep), h)
    ensures Elided(h, keep)[ProtectedStart(h, keep)..] == h[ProtectedStart(h, keep)..]
    ensures forall i :: 0 <= i < |h| && Elided(h, keep)[i] != h[i] ==>
              i < ProtectedStart(h, keep) && h[i].Tool? && IsStub(Elided(h, keep)[i].content)
  {
  }

  lemma StubIsStub()
    ensures forall name :: IsStub(Stub(name))
  {
  }

  /** Eliding again changes nothing: a stub is never elided. */
  lemma ElisionIdempotent(h: History, keep: nat)
    ensures Elided(Elided(h, keep), keep) == Elided(h, keep)
  {
    var g := Elided(h, keep);
    ElisionShape(h, keep);
    ShapeNames(g, h);
    ShapeProtected(g, h, keep);
    StubIsStub();
  }

  /** The count is zero exactly when elision left the history alone. */
  lemma {:induction false} CountZero(h: History, names: map<string, string>, protect: nat)
    requires protect <= |h|
    ensures CountElidable(h, names, protect) == 0 <==> ElidedUpTo(h, names, protect) == h
  {
    StubIsStub();
    if protect == 0 {
      assert ElidedUpTo(h, names, protect) == h;
    } else {
      CountZero(h, names, protect - 1);
      var m := h[protect - 1];
      var before, after := ElidedUpTo(h, names, protect - 1), ElidedUpTo(h, names, protect);
      assert after == before[protect - 1 := ElideOne(m, names)];
      if Elidable(m, names) { assert after[protect - 1] != m; }
      if before != h {
        var i :| 0 <= i < |h| && before[i] != h[i];
        assert after[i] != h[i];
      }
    }
  }

  // ---------------------------------------------------------------- ids name one call

  /** The j-th call of message i. */
  ghost predicate CallAt(h: History, i: nat, j: nat) {
    i < |h| && h[i].Assistant? && j < |h[i].calls|
  }

  ghost predicate UniqueIds(h: History) {
    forall i: nat, j: nat, k: nat, l: nat ::
      CallAt(h, i, j) && CallAt(h, k, l) && h[i].calls[j].id == h[k].calls[l].id ==> i == k && j == l
  }

  lemma {:induction false} NamesInKeep(calls: seq<ToolCall>, names: map<string, string>, id: string)
    ensures (forall j :: 0 <= j < |calls| ==> calls[j].id != id) && id in names ==>
              id in NamesIn(calls, names) && NamesIn(calls, names)[id] == names[id]
  {
    if calls != [] { NamesInKeep(calls[..|calls| - 1], names, id); }
  }

  lemma {:induction false} NamesInFind(calls: seq<ToolCall>, names: map<string, string>, j: nat)
    requires j < |calls|
    requires forall k :: j < k < |calls| ==> calls[k].id != calls[j].id
    ensures calls[j].id in NamesIn(calls, names) && NamesIn(calls, names)[calls[j].id] == calls[j].name
  {
    if j < |calls| - 1 { NamesInFind(calls[..|calls| - 1], names, j); }
  }

  /** With unique ids the id-to-name table is right for every call. */
  lemma {:induction false} NamesRight(h: History, i: nat, j: nat)
    requires UniqueIds(h) && CallAt(h, i, j)
    ensures NameOf(ToolNames(h), h[i].calls[j].id) == h[i].calls[j].name
    ensures h[i].calls[j].id in ToolNames(h)
  {
    var g, last := h[..|h| - 1], h[|h| - 1];
    var id := h[i].calls[j].id;
    if i == |h| - 1 {
      forall k | j < k < |last.calls| ensures last.calls[k].id != id { assert CallAt(h, i, k); }
      NamesInFind(last.calls, ToolNames(g), j);
    } else {
      assert UniqueIds(g) by {
        forall a: nat, b: nat, c: nat, d: nat
          | CallAt(g, a, b) && CallAt(g, c, d) && g[a].calls[b].id == g[c].calls[d].id
          ensures a == c && b == d
        { assert CallAt(h, a, b) && CallAt(h, c, d); }
      }
      assert CallAt(g, i, j);
      NamesRight(g, i, j);
      if last.Assistant? {
        forall k | 0 <= k < |last.calls| ensures last.calls[k].id != id { assert CallAt(h, |h| - 1, k); }
        NamesInKeep(last.calls, ToolNames(g), id);
      }
    }
  }

  /** The result of a spawn_worker call is never elided. */
  lemma SpawnResultKept(h: History, keep: nat, i: nat, j: nat)
    requires UniqueIds(h) && OpenPaired(h) && CallAt(h, i, j) && i + 1 + j < |h|
    requires h[i].calls[j].name == SPAWN_WORKER
    ensures h[i + 1 + j].Tool? && Elided(h, keep)[i + 1 + j] == h[i + 1 + j]
  {
    assert RoundAt(h, i);
    NamesRight(h, i, j);
  }

  // ---------------------------------------------------------------- tier 2: rebuild

  function SummaryMessages(summary: string): History {
    if summary == "" then [] else [User(SUMMARY_HEADER + summary)]
  }

  /** The recent tail kept by a rebuild, without the first message it may open with. */
  function KeptTail(h: History, keep: nat): History {
    var tail := Tail(h[ProtectedStart(h, keep)..]);
    if |tail| > 0 && |tail| == |h| then tail[1..] else tail
  }

  lemma KeptTailIsSuffix(h: History, keep: nat) returns (k: nat)
    ensures k <= |h| && KeptTail(h, keep) == h[k..]
  {
    var p := ProtectedStart(h, keep);
    var w := h[p..];
    k := p + TailStart(w);
    DropDrop(h, p, TailStart(w));
    if k < |h| && |h[k..]| == |h| {
      DropDrop(h, k, 1);
      k := k + 1;
    }
  }

  function Rebuilt(h: History, summary: string, keep: nat): History {
    if h == [] then [] else [h[0]] + SummaryMessages(summary) + KeptTail(h, keep)
  }

  method RebuildHistory(h: History, summary: string, keep: nat) returns (out: History)
    ensures out == Rebuilt(h, summary, keep)
  {
    if |h| == 0 {
      return h;
    }
    var p := ProtectedTailStart(h, keep);
    var tail := TailFromSafeBoundary(h[p..]);
    out := [h[0]];
    if summary != "" {
      out := out + [User(SUMMARY_HEADER + summary)];
    }
    if |tail| > 0 && |tail| == |h| {
      tail := tail[1..];
    }
    out := out + tail;
  }

  /** A rebuild of a paired history is paired exactly when its first message waits for
      no results, or when nothing was dropped and no summary was inserted. */
  lemma RebuiltPairedIff(h: History, summary: string, keep: nat)
    requires Paired(h) && h != []
    ensures Paired(Rebuilt(h, summary, keep))
       <==> h[0].Arity() == 0 || (summary == "" && |Tail(h[ProtectedStart(h, keep)..])| == |h|)
  {
    if h[0].Arity() == 0 {
      RebuiltPlain(h, summary, keep);
    } else if summary == "" && |Tail(h[ProtectedStart(h, keep)..])| == |h| {
      assert Rebuilt(h, summary, keep) == h;
    } else {
      var out := Rebuilt(h, summary, keep);
      if |out| > 1 { NextNotTool(h, summary, keep); }
      FirstRoundBroken(out);
    }
  }

  lemma RebuiltPlain(h: History, summary: string, keep: nat)
    requires Paired(h) && h != [] && h[0].Arity() == 0
    ensures Paired(Rebuilt(h, summary, keep))
  {
    var head := [h[0]] + SummaryMessages(summary);
    OrphansUnpairedContra(h);
    assert Paired(head);
    KeptTailPaired(h, keep);
    ConcatPaired(head, KeptTail(h, keep));
    assert head + KeptTail(h, keep) == Rebuilt(h, summary, keep);
  }

  lemma KeptTailPaired(h: History, keep: nat)
    requires Paired(h) && h != [] && h[0].Arity() == 0
    ensures Paired(KeptTail(h, keep))
  {
    var p := ProtectedStart(h, keep);
    TailPaired(h, p);
    DropDrop(h, p, TailStart(h[p..]));
    if |Tail(h[p..])| == |h| && |h| > 1 {
      FirstAnswersNothing(h);
      SuffixPaired(h, 1);
      assert KeptTail(h, keep) == h[1..];
    }
  }

  lemma OrphansUnpairedContra(h: History)
    requires Paired(h) && h != []
    ensures !h[0].Tool?
  {
  }

  lemma FirstAnswersNothing(h: History)
    requires Paired(h) && |h| > 1 && h[0].Arity() == 0
    ensures !h[1].Tool?
  {
  }

  lemma NextNotTool(h: History, summary: string, keep: nat)
    requires Paired(h) && h != []
    requires summary != "" || |Tail(h[ProtectedStart(h, keep)..])| != |h|
    requires |Rebuilt(h, summary, keep)| > 1
    ensures !Rebuilt(h, summary, keep)[1].Tool?
  {
  }

  lemma FirstRoundBroken(out: History)
    requires out != [] && out[0].Arity() > 0
    requires |out| > 1 ==> !out[1].Tool?
    ensures !Paired(out)
  {
    if |out| > 1 { assert !RoundAt(out, 0); }
  }

  // ---------------------------------------------------------------- worker histories

  /** A worker's history between turns: the task and any summaries, then tool rounds. */
  ghost predicate Worker(h: History, lead: nat) {
    && 0 < lead <= |h|
    && (forall i :: 0 <= i < lead ==> h[i].User?)
    && (forall i :: lead <= i < |h| ==> h[i].Tool? || (h[i].Assistant? && h[i].calls != []))
  }

  /** Where the last keep assistant turns start (all of them when there are fewer). */
  ghost function RecentStart(h: History, lead: nat, keep: nat): nat {
    if ProtectedStart(h, keep) == 0 then lead else ProtectedStart(h, keep)
  }

  lemma {:induction false} TurnsPastUsers(h: History, i: nat, j: nat)
    requires i <= j <= |h| && forall k :: i <= k < j ==> !h[k].Assistant?
    ensures Turns(h, i) == Turns(h, j)
    decreases j - i
  {
    if i < j { TurnsPastUsers(h, i + 1, j); }
  }

  /** The recent part holds exactly the last keep turns, or all of them. */
  lemma RecentTurns(h: History, lead: nat, keep: nat)
    requires Worker(h, lead) && keep > 0
    ensures lead <= RecentStart(h, lead, keep) <= |h|
    ensures Turns(h, RecentStart(h, lead, keep)) == if Turns(h, 0) < keep then Turns(h, 0) else keep
  {
    TurnsPastUsers(h, 0, lead);
  }

  ghost predicate EndsWith(g: History, tail: History) {
    |tail| <= |g| && g[|g| - |tail|..] == tail
  }

  lemma RebuiltForm(h: History, lead: nat, summary: string, keep: nat)
    requires Worker(h, lead)
    ensures var from := if ProtectedStart(h, keep) == 0 then 1 else ProtectedStart(h, keep);
            Rebuilt(h, summary, keep) == [h[0]] + SummaryMessages(summary) + h[from..]
  {
  }

  lemma WorkerForm(h: History, lead: nat, summary: string, from: nat) returns (newLead: nat)
    requires Worker(h, lead) && 1 <= from <= |h|
    ensures Worker([h[0]] + SummaryMessages(summary) + h[from..], newLead)
    ensures var r := if from < lead then lead else from;
            EndsWith([h[0]] + SummaryMessages(summary) + h[from..], h[r..])
  {
    var head := [h[0]] + SummaryMessages(summary);
    var r := if from < lead then lead else from;
    var out := head + h[from..];
    newLead := |head| + r - from;
    assert out[newLead..] == h[r..];
  }

  lemma RebuiltWorker(h: History, lead: nat, summary: string, keep: nat) returns (newLead: nat)
    requires Worker(h, lead)
    ensures Worker(Rebuilt(h, summary, keep), newLead)
    ensures Paired(h) ==> Paired(Rebuilt(h, summary, keep))
    ensures Rebuilt(h, summary, keep)[0] == h[0]
    ensures RecentStart(h, lead, keep) <= |h| && EndsWith(Rebuilt(h, summary, keep), h[RecentStart(h, lead, keep)..])
  {
    var p := ProtectedStart(h, keep);
    RebuiltForm(h, lead, summary, keep);
    newLead := WorkerForm(h, lead, summary, if p == 0 then 1 else p);
    if Paired(h) { RebuiltPairedIff(h, summary, keep); }
  }

  /** Tier 1 on a worker history: same shape, task first, recent turns verbatim. */
  lemma ElidedWorker(h: History, lead: nat, keep: nat)
    requires Worker(h, lead) && Paired(h)
    ensures Worker(Elided(h, keep), lead) && Paired(Elided(h, keep))
    ensures Elided(h, keep)[0] == h[0]
    ensures RecentStart(h, lead, keep) <= |h| && EndsWith(Elided(h, keep), h[RecentStart(h, lead, keep)..])
    ensures RecentStart(Elided(h, keep), lead, keep) == RecentStart(h, lead, keep)
    ensures Elided(h, keep)[RecentStart(h, lead, keep)..] == h[RecentStart(h, lead, keep)..]
  {
    ElisionShape(h, keep);
    ShapePaired(Elided(h, keep), h);
    ShapeProtected(Elided(h, keep), h, keep);
    var g, r := Elided(h, keep), RecentStart(h, lead, keep);
    assert g[r..] == h[r..];
    assert |g| - |h[r..]| == r;
  }

  /** The history a compaction installs, by tier. */
  function Compacted(h: History, tier2: bool, summary: string): History {
    if tier2 then Rebuilt(Elided(h, COMPACT_KEEP_TURNS), summary, COMPACT_KEEP_TURNS)
    else Elided(h, COMPACT_KEEP_TURNS)
  }

  /** Either tier keeps the history a paired worker history that opens with the task and
      ends with the last assistant turns and their results, byte for byte. */
  lemma CompactedWorker(h: History, lead: nat, tier2: bool, summary: string) returns (newLead: nat)
    requires Worker(h, lead) && Paired(h)
    ensures Worker(Compacted(h, tier2, summary), newLead) && Paired(Compacted(h, tier2, summary))
    ensures Compacted(h, tier2, summary)[0] == h[0]
    ensures lead <= RecentStart(h, lead, COMPACT_KEEP_TURNS) <= |h|
    ensures EndsWith(Compacted(h, tier2, summary), h[RecentStart(h, lead, COMPACT_KEEP_TURNS)..])
    ensures Turns(h, RecentStart(h, lead, COMPACT_KEEP_TURNS))
         == if Turns(h, 0) < COMPACT_KEEP_TURNS then Turns(h, 0) else COMPACT_KEEP_TURNS
  {
    ElidedWorker(h, lead, COMPACT_KEEP_TURNS);
    RecentTurns(h, lead, COMPACT_KEEP_TURNS);
    newLead := lead;
    if tier2 {
      newLead := RebuiltWorker(Elided(h, COMPACT_KEEP_TURNS), lead, summary, COMPACT_KEEP_TURNS);
    }
  }

  /** For any paired history, seeded or not: elision always keeps it paired, and a rebuild
      does exactly when the first message waits for no results, or when nothing was dropped
      and no summary was inserted. */
  lemma CompactedPairedIff(h: History, tier2: bool, summary: string)
    requires Paired(h) && h != []
    ensures Paired(Compacted(h, tier2, summary))
       <==> !tier2 || h[0].Arity() == 0 || (summary == "" && |Tail(h[ProtectedStart(h, COMPACT_KEEP_TURNS)..])| == |h|)
  {
    var g := Elided(h, COMPACT_KEEP_TURNS);
    ElisionShape(h, COMPACT_KEEP_TURNS);
    ShapePaired(g, h);
    ShapeProtected(g, h, COMPACT_KEEP_TURNS);
    if tier2 {
      RebuiltPairedIff(g, summary, COMPACT_KEEP_TURNS);
      assert g[ProtectedStart(g, COMPACT_KEEP_TURNS)..] == h[ProtectedStart(h, COMPACT_KEEP_TURNS)..];
    }
  }
}
