/** A worker session: the turn loop, its history, its transcript and its compaction. */
module WorkerSession {
  import opened Messages
  import opened ContextWindow
  import opened Compaction
  import opened Transcript
  import Utf8

  const MAX_TOOL_RESULT_BYTES: nat := 8 * 1024
  const DEFAULT_MAX_TURNS: nat := 50
  const TRUNCATION_NOTE := "\n[... truncated: result exceeded 8KB ...]"

  datatype Status = Active | Completed | Failed | Cancelled

  datatype RunError = ContextError | StartError | ResponseError | MaxTurnsExceeded

  datatype Option<T> = None | Some(value: T)

  // ---------------------------------------------------------------- the provider and tools

  datatype StreamEvent =
    | Text(text: string)
    | CallEvent(call: ToolCall)
    | Usage(inputTokens: nat)
    | Error(overflow: bool)
    | Done
    | ContextDone

  /** What ChatStream does with one request. */
  datatype StreamStart = Refused(overflow: bool) | Streaming(events: seq<StreamEvent>)

  datatype Response =
    | Reply(text: string, calls: seq<ToolCall>)
    | Broken(overflow: bool, contextDone: bool)

  datatype ToolOutcome = Output(text: string) | ToolError(text: string)

  /** Everything the session cannot decide itself, indexed by the attempt number: the
      provider, the tools, cancellation, the live settings and the summarizer. */
  datatype Environment = Environment(
    contextDone: nat -> bool,
    contextDoneAfter: nat -> bool,
    window: nat -> int,
    threshold: nat -> int,
    start: nat -> StreamStart,
    preflightSummary: nat -> string,
    overflowSummary: nat -> string,
    tool: (nat, nat) -> ToolOutcome,
    validJson: string -> bool)

  /** The settings never change during the run. */
  ghost predicate FixedBudget(env: Environment) {
    forall n: nat :: env.window(n) == env.window(0) && env.threshold(n) == env.threshold(0)
  }

  /** The response an event stream adds up to; nothing after an error counts. */
  function Collect(events: seq<StreamEvent>): Response {
    if events == [] then Reply("", [])
    else
      match Collect(events[..|events| - 1])
      case Broken(overflow, contextDone) => Broken(overflow, contextDone)
      case Reply(text, calls) =>
        match events[|events| - 1]
        case Text(t) => Reply(text + t, calls)
        case CallEvent(c) => Reply(text, calls + [c])
        case Error(overflow) => Broken(overflow, false)
        case ContextDone => Broken(false, true)
        case _ => Reply(text, calls)
  }

  /** The prompt sizes reported before the stream ended or broke. */
  function Reported(events: seq<StreamEvent>): seq<nat> {
    if events == [] then []
    else
      var before := Reported(events[..|events| - 1]);
      if Collect(events[..|events| - 1]).Reply? && events[|events| - 1].Usage?
      then before + [events[|events| - 1].inputTokens]
      else before
  }

  function LastOr(reported: seq<nat>, before: int): int {
    if reported == [] then before else reported[|reported| - 1]
  }

  lemma {:induction false} BrokenStays(events: seq<StreamEvent>, n: nat)
    requires n <= |events| && Collect(events[..n]).Broken?
    ensures Collect(events) == Collect(events[..n]) && Reported(events) == Reported(events[..n])
  {
    if n == |events| {
      assert events[..n] == events;
    } else {
      assert events[..|events| - 1][..n] == events[..n];
      BrokenStays(events[..|events| - 1], n);
    }
  }

  function Normalize(calls: seq<ToolCall>, validJson: string -> bool): (out: seq<ToolCall>)
    ensures |out| == |calls|
    ensures forall i :: 0 <= i < |calls| ==> out[i].id == calls[i].id && out[i].name == calls[i].name
  {
    seq(|calls|, i requires 0 <= i < |calls| =>
      if calls[i].args == "" || !validJson(calls[i].args) then calls[i].(args := "{}") else calls[i])
  }

  /** The text of a tool result as it enters the history: at most 8KB and the note. */
  method CapToolResult(name: string, result: string) returns (capped: string)
    ensures name == SPAWN_WORKER || |result| <= MAX_TOOL_RESULT_BYTES ==> capped == result
    ensures name != SPAWN_WORKER ==> |capped| <= MAX_TOOL_RESULT_BYTES + |TRUNCATION_NOTE|
    ensures name != SPAWN_WORKER && |result| > MAX_TOOL_RESULT_BYTES ==>
              capped == result[..Utf8.CutBack(result, MAX_TOOL_RESULT_BYTES)] + TRUNCATION_NOTE
  {
    capped := result;
    if name != SPAWN_WORKER && |result| > MAX_TOOL_RESULT_BYTES {
      var cut := Utf8.WalkBack(result, MAX_TOOL_RESULT_BYTES);
      capped := result[..cut] + TRUNCATION_NOTE;
    }
  }

  // ---------------------------------------------------------------- compaction decisions

  function OverBudget(estimate: int, before: int, window: int, threshold: int): bool {
    if window <= 0 || threshold <= 0 then estimate * 4 > before * 3
    else estimate * 100 >= window * threshold
  }

  /** Whether compaction goes on to tier 2. */
  function NeedsRebuild(h: History, before: int, window: int, threshold: int): bool {
    OverBudget(Estimate(Elided(h, COMPACT_KEEP_TURNS)), before, window, threshold)
  }

  /** Compaction leaves a history alone that it can neither elide nor must rebuild. */
  predicate NothingToDo(h: History, before: int, window: int, threshold: int) {
    !NeedsRebuild(h, before, window, threshold)
    && CountElidable(h, ToolNames(h), ProtectedStart(h, COMPACT_KEEP_TURNS)) == 0
  }

  /** Zero elisions leave the very history that was just found under budget, so the
      suppression that guards this case never arms. */
  lemma NothingElidedFits(h: History, before: int, window: int, threshold: int)
    requires NothingToDo(h, before, window, threshold)
    ensures Elided(h, COMPACT_KEEP_TURNS) == h
    ensures !OverBudget(Estimate(h), before, window, threshold)
  {
    CountZero(h, ToolNames(h), ProtectedStart(h, COMPACT_KEEP_TURNS));
  }

  /** A session that was not seeded with a user message: its history opens with an assistant
      message that made a call. */
  function Unseeded(): History {
    [Assistant("look", [ToolCall("1", "read", "{}")]), Tool("1", "text")]
  }

  /** The compaction after a context overflow rebuilds this history, and leaves the call
      without its result as soon as there is a summary. */
  lemma UnseededRebuildBreaks(summary: string)
    requires summary != ""
    ensures Paired(Unseeded())
    ensures NeedsRebuild(Unseeded(), Estimate(Unseeded()), 0, 0)
    ensures !Paired(Compacted(Unseeded(), true, summary))
  {
    var h := Unseeded();
    assert Owns(h, 0, 1);
    CompactedPairedIff(h, true, summary);
    assert ProtectedFrom(h, COMPACT_KEEP_TURNS, 2) == 0;
    assert h[..1] == [h[0]];
    assert h[0].calls[..0] == [];
    assert Bytes(h[..1]) == MessageBytes(h[0]) && CallBytes(h[0].calls) == 6;
    assert Elided(h, COMPACT_KEEP_TURNS) == h;
  }

  lemma {:induction false} LiveUnmarked(rows: seq<Row>)
    ensures forall m :: m in Live(rows) ==> !m.System?
  {
    if rows != [] { LiveUnmarked(rows[..|rows| - 1]); }
  }

  /** No compaction marker. */
  ghost predicate Unmarked(h: History) {
    forall i :: 0 <= i < |h| ==> !h[i].System?
  }

  /** A mirrored history holds no marker. */
  lemma MirroredUnmarked(h: History, live: History, rows: seq<Row>)
    requires Mirrors(h, live) && live == Live(rows)
    ensures Unmarked(h)
  {
    LiveUnmarked(rows);
    forall i | 0 <= i < |h| ensures !h[i].System? {
      assert live[i] in live;
    }
  }

  lemma RebuiltUnmarked(h: History, summary: string, keep: nat)
    requires Unmarked(h)
    ensures Unmarked(Rebuilt(h, summary, keep))
  {
    if h != [] {
      var k := KeptTailIsSuffix(h, keep);
      assert Unmarked(h[k..]);
    }
  }

  /** What either tier installs still mirrors rows that mirrored the old history: tier 1
      against the same rows, tier 2 against a fresh copy of itself. */
  lemma CompactedMirrors(h: History, rows: seq<Row>, tier2: bool, summary: string)
    requires Mirrors(h, Live(rows))
    ensures !tier2 ==> Mirrors(Compacted(h, tier2, summary), Live(rows))
    ensures Unmarked(Compacted(h, tier2, summary))
  {
    ElisionMirrors(h, Live(rows), COMPACT_KEEP_TURNS);
    MirroredUnmarked(Elided(h, COMPACT_KEEP_TURNS), Live(rows), rows);
    RebuiltUnmarked(Elided(h, COMPACT_KEEP_TURNS), summary, COMPACT_KEEP_TURNS);
  }

  lemma CompactedLead(h: History, lead: nat, tier2: bool, summary: string) returns (newLead: nat)
    requires Worker(h, lead) && Paired(h)
    ensures var g := Compacted(h, tier2, summary); Worker(g, newLead) && Paired(g) && g[0] == h[0]
  {
    newLead := CompactedWorker(h, lead, tier2, summary);
  }

  datatype Happening = PreflightCompaction | OverflowCompaction | UsageReport

  /** Between two pre-flight compactions something else happened. */
  ghost predicate Separated(log: seq<Happening>) {
    forall i :: 0 < i < |log| ==> !(log[i - 1].PreflightCompaction? && log[i].PreflightCompaction?)
  }

  ghost predicate JustCompacted(log: seq<Happening>) {
    log != [] && log[|log| - 1].PreflightCompaction?
  }

  /** What one pass of the loop decides. */
  datatype Next = Retry | NextTurn | Stop(err: Option<RunError>)

  /** One history handed to ChatStream, and the live transcript rows at that moment. */
  datatype Request = Request(history: History, live: History)

  // ---------------------------------------------------------------- the session

  class Session {
    const id: string
    const task: string
    const maxTurns: nat
    const store: TranscriptStore?
    var messages: History
    var seqNo: nat
    var compactions: nat
    var compactionSuppressed: bool
    var lastInputTokens: int
    var status: Status
    ghost var lead: nat
    ghost var log: seq<Happening>
    ghost var requests: seq<Request>
    ghost var roundTrips: nat

    constructor (id: string, task: string, maxTurns: int, store: TranscriptStore?)
      ensures Fresh()
      ensures this.id == id && this.task == task && this.store == store
      ensures this.maxTurns == if maxTurns <= 0 then DEFAULT_MAX_TURNS else maxTurns
      ensures requests == [] && log == [] && roundTrips == 0
    {
      this.id := id;
      this.task := task;
      this.store := store;
      this.maxTurns := if maxTurns <= 0 then DEFAULT_MAX_TURNS else maxTurns;
      this.messages := if task != "" then [User(task)] else [];
      this.seqNo := 0;
      this.compactions := 0;
      this.compactionSuppressed := false;
      this.lastInputTokens := 0;
      this.status := Active;
      this.lead := 1;
      this.log := [];
      this.requests := [];
      this.roundTrips := 0;
    }

    /** A session that has not run yet. */
    ghost predicate Fresh()
      reads this
    {
      && messages == (if task != "" then [User(task)] else [])
      && seqNo == 0 && status == Active && lead == 1
      && !compactionSuppressed && lastInputTokens == 0
    }

    /** The session's transcript rows. */
    ghost function Rows(): seq<Row>
      reads this, store
    {
      if store == null then [] else store.RowsOf(id)
    }

    /** The transcript mirrors the history. */
    ghost predicate Mirrored()
      reads this, store
    {
      store != null ==> Numbered(Rows(), seqNo) && Mirrors(messages, Live(Rows()))
    }

    /** No tool round is open, and the history opens with the task. */
    ghost predicate AtTurnBoundary()
      reads this
    {
      Worker(messages, lead) && Paired(messages) && messages[0] == User(task)
    }

    /** The pre-flight check stays quiet: occupancy is below the threshold, or the check
        is suppressed until it is. */
    ghost predicate Quiet(window: int, threshold: int)
      reads this
    {
      lastInputTokens * 100 < window * threshold || compactionSuppressed
    }

    method AppendMessage(m: Message)
      modifies this`messages
      ensures messages == old(messages) + [m]
    {
      messages := messages + [m];
    }

    method PersistMessage(m: Message)
      modifies this`seqNo, store
      ensures old(Numbered(Rows(), seqNo)) ==> Numbered(Rows(), seqNo)
      ensures store != null ==> Live(Rows()) == old(Live(Rows())) + (if m.System? then [] else [m])
      ensures store != null ==> Rows() == old(Rows()) + [Row(seqNo, m, false)] && seqNo == old(seqNo) + 1
    {
      if store == null {
        return;
      }
      seqNo := seqNo + 1;
      LiveAppend(store.RowsOf(id), Row(seqNo, m, false));
      store.AppendSessionMessage(id, seqNo, m);
    }

    /** Both halves of recording a message keep the mirror. */
    method Record(m: Message)
      requires !m.System?
      modifies this`messages, this`seqNo, store
      ensures messages == old(messages) + [m]
      ensures old(Mirrored()) ==> Mirrored()
    {
      AppendMessage(m);
      PersistMessage(m);
    }

    method MaybeCompact(window: int, threshold: int, summary: string)
      modifies this`messages, this`seqNo, this`compactions, this`compactionSuppressed,
               this`lastInputTokens, this`lead, this`log, store
      ensures old(Mirrored()) ==> Mirrored()
      ensures old(AtTurnBoundary()) ==> AtTurnBoundary()
      ensures old(Quiet(window, threshold)) ==> log == old(log) && messages == old(messages) && Quiet(window, threshold)
      ensures log == old(log) || (log == old(log) + [PreflightCompaction] && Quiet(window, threshold))
      ensures log == old(log) ==> messages == old(messages)
    {
      if threshold <= 0 {
        return;
      }
      if window <= 0 {
        return;
      }
      var occupancy := lastInputTokens;
      if occupancy <= 0 {
        return;
      }
      if occupancy * 100 < window * threshold {
        compactionSuppressed := false;
        return;
      }
      if compactionSuppressed {
        return;
      }
      var done := Compact(occupancy, window, threshold, summary);
      if done {
        log := log + [PreflightCompaction];
      }
    }

    method ForceCompact(summary: string)
      modifies this`messages, this`seqNo, this`compactions, this`compactionSuppressed,
               this`lastInputTokens, this`lead, this`log, store
      ensures old(Mirrored()) ==> Mirrored()
      ensures old(AtTurnBoundary()) ==> AtTurnBoundary()
      ensures log == old(log) + [OverflowCompaction]
    {
      var estimate := EstimateTokens(messages);
      var _ := Compact(estimate, 0, 0, summary);
      log := log + [OverflowCompaction];
    }

    /** Persists messages in order. */
    method PersistAll(h: History)
      modifies this`seqNo, store
      ensures store != null && old(Numbered(Rows(), seqNo)) ==> Numbered(Rows(), seqNo)
      ensures store != null && Unmarked(h) ==> Live(Rows()) == old(Live(Rows())) + h
    {
      for i := 0 to |h|
        invariant store != null && old(Numbered(Rows(), seqNo)) ==> Numbered(Rows(), seqNo)
        invariant store != null && Unmarked(h) ==> Live(Rows()) == old(Live(Rows())) + h[..i]
      {
        PersistMessage(h[i]);
        assert h[..i + 1] == h[..i] + [h[i]];
      }
      assert h[..|h|] == h;
    }

    /** Supersedes every row up to maxSeq. */
    method Supersede(maxSeq: nat)
      modifies store
      ensures store != null && old(Numbered(Rows(), seqNo)) ==> Numbered(Rows(), seqNo)
      ensures store != null && old(Numbered(Rows(), seqNo)) && old(OnlyMarkersAfter(Rows(), maxSeq)) ==>
                Live(Rows()) == []
    {
      if store != null && OnlyMarkersAfter(Rows(), maxSeq) {
        LiveMarked(Rows(), maxSeq);
      }
      if store != null && maxSeq > 0 {
        store.MarkSessionMessagesSuperseded(id, maxSeq);
      } else if store != null && Numbered(Rows(), seqNo) {
        assert MarkUpTo(Rows(), maxSeq) == Rows();
      }
    }

    /** The transcript side of a compaction: a marker row and, after a rebuild, every
        earlier row superseded and the rebuilt history written afresh. */
    method RewriteTranscript(newHistory: History, tier2: bool)
      modifies this`seqNo, store
      ensures store != null && old(Numbered(Rows(), seqNo)) ==> Numbered(Rows(), seqNo)
      ensures store != null && old(Numbered(Rows(), seqNo)) && !tier2 ==> Live(Rows()) == old(Live(Rows()))
      ensures store != null && old(Numbered(Rows(), seqNo)) && tier2 && Unmarked(newHistory) ==>
                Live(Rows()) == newHistory
    {
      var supersededSeq := seqNo;
      PersistMessage(System(if tier2 then "[compacted (tier 2)]" else "[compacted (tier 1)]"));
      if tier2 {
        Supersede(supersededSeq);
        PersistAll(newHistory);
      }
    }

    /** Chooses the tier and builds the history it installs; done is false when there is
        nothing to do. */
    method PlanCompaction(before: int, window: int, threshold: int, summary: string)
      returns (done: bool, tier2: bool, newHistory: History, estimate: nat)
      modifies this`compactionSuppressed
      ensures done <==> !NothingToDo(messages, before, window, threshold)
      ensures compactionSuppressed == old(compactionSuppressed)
      ensures done ==> tier2 == NeedsRebuild(messages, before, window, threshold)
      ensures done ==> newHistory == Compacted(messages, tier2, summary) && estimate == Estimate(newHistory)
    {
      var elided, elidedCount := ElideToolResults(messages, COMPACT_KEEP_TURNS);
      newHistory := elided;
      estimate := EstimateTokens(elided);
      tier2, done := false, true;
      if OverBudget(estimate, before, window, threshold) {
        tier2 := true;
        newHistory := RebuildHistory(elided, summary, COMPACT_KEEP_TURNS);
        estimate := EstimateTokens(newHistory);
      } else if elidedCount == 0 {
        NothingElidedFits(messages, before, window, threshold);
        var whole := EstimateTokens(messages);
        compactionSuppressed := compactionSuppressed || OverBudget(whole, before, window, threshold);
        done := false;
      }
    }

    /** Replaces the history; the estimate stands in for occupancy until the next report. */
    method Install(newHistory: History, estimate: nat, overBudget: bool)
      modifies this`messages, this`compactions, this`compactionSuppressed, this`lastInputTokens
      ensures messages == newHistory && lastInputTokens == estimate && compactions == old(compactions) + 1
      ensures compactionSuppressed == (old(compactionSuppressed) || overBudget)
    {
      messages := newHistory;
      compactions := compactions + 1;
      lastInputTokens := estimate;
      if overBudget {
        compactionSuppressed := true;
      }
    }

    /** Tiered compaction. Returns whether the history was replaced. */
    method Compact(before: int, window: int, threshold: int, summary: string) returns (done: bool)
      modifies this`messages, this`seqNo, this`compactions, this`compactionSuppressed,
               this`lastInputTokens, this`lead, store
      ensures done <==> !NothingToDo(old(messages), before, window, threshold)
      ensures !done ==> unchanged(this) && (store != null ==> unchanged(store))
      ensures done ==>
                && messages == Compacted(old(messages), NeedsRebuild(old(messages), before, window, threshold), summary)
                && lastInputTokens == Estimate(messages)
                && compactions == old(compactions) + 1
                && compactionSuppressed ==
                   (old(compactionSuppressed) || OverBudget(lastInputTokens, before, window, threshold))
      ensures old(AtTurnBoundary()) ==> AtTurnBoundary()
      ensures old(Mirrored()) ==> Mirrored()
      ensures done && NeedsRebuild(old(messages), before, window, threshold) && store != null && old(Mirrored()) ==>
                Live(Rows()) == messages
    {
      var tier2, newHistory, estimate;
      done, tier2, newHistory, estimate := PlanCompaction(before, window, threshold, summary);
      if !done {
        return;
      }
      if AtTurnBoundary() {
        lead := CompactedLead(messages, lead, tier2, summary);
      }
      if store != null && Mirrored() {
        CompactedMirrors(messages, Rows(), tier2, summary);
      }
      Install(newHistory, estimate, OverBudget(estimate, before, window, threshold));
      RewriteTranscript(newHistory, tier2);
    }
 
    /** Reads the stream to its end or its first error. Every usage report overwrites the
        stored occupancy. */
    method CollectResponse(events: seq<StreamEvent>) returns (r: Response)
      modifies this`lastInputTokens, this`log
      ensures r == Collect(events)
      ensures |log| == |old(log)| + |Reported(events)| && old(log) <= log
      ensures forall i :: |old(log)| <= i < |log| ==> log[i].UsageReport?
      ensures lastInputTokens == LastOr(Reported(events), old(lastInputTokens))
    {
      var text, calls := "", [];
      for i := 0 to |events|
        invariant Collect(events[..i]) == Reply(text, calls)
        invariant |log| == |old(log)| + |Reported(events[..i])| && old(log) <= log
        invariant forall k :: |old(log)| <= k < |log| ==> log[k].UsageReport?
        invariant lastInputTokens == LastOr(Reported(events[..i]), old(lastInputTokens))
      {
        assert events[..i + 1][..i] == events[..i];
        match events[i] {
          case Text(t) => text := text + t;
          case CallEvent(c) => calls := calls + [c];
          case Usage(n) =>
            lastInputTokens := n;
            log := log + [UsageReport];
          case Error(overflow) =>
            BrokenStays(events, i + 1);
            return Broken(overflow, false);
          case ContextDone =>
            BrokenStays(events, i + 1);
            return Broken(false, true);
          case Done =>
        }
      }
      assert events[..|events|] == events;
      return Reply(text, calls);
    }

    /** Runs the calls in order and records one result each, whatever the tools do. */
    method RunTools(env: Environment, attempt: nat, calls: seq<ToolCall>) returns (ghost results: History)
      modifies this`messages, this`seqNo, store
      ensures messages == old(messages) + results && |results| == |calls|
      ensures forall j :: 0 <= j < |calls| ==> results[j].Tool? && results[j].callId == calls[j].id
      ensures old(Mirrored()) ==> Mirrored()
    {
      results := [];
      for i := 0 to |calls|
        invariant messages == old(messages) + results && |results| == i
        invariant forall j :: 0 <= j < i ==> results[j].Tool? && results[j].callId == calls[j].id
        invariant old(Mirrored()) ==> Mirrored()
      {
        var outcome := env.tool(attempt, i);
        var result := if outcome.ToolError? then "error: " + outcome.text else outcome.text;
        var capped := CapToolResult(calls[i].name, result);
        Record(Tool(calls[i].id, capped));
        results := results + [Tool(calls[i].id, capped)];
      }
    }

    /** What every request sent so far satisfied. */
    ghost predicate RequestsGood()
      reads this
    {
      && (task != "" ==> forall i :: 0 <= i < |requests| ==>
            Paired(requests[i].history) && requests[i].history != [] && requests[i].history[0] == User(task))
      && (store != null ==> forall i :: 0 <= i < |requests| ==> Mirrors(requests[i].history, requests[i].live))
    }

    /** The compactions so far were separated, and none is due without a new report. */
    ghost predicate Paced(window: int, threshold: int)
      reads this
    {
      Separated(log) && (JustCompacted(log) ==> Quiet(window, threshold))
    }

    /** A full tool round leads from one turn boundary to the next. */
    lemma RoundBoundary(h: History, lead: nat, a: Message, results: History)
      requires Worker(h, lead) && Paired(h) && a.Assistant? && a.calls != [] && InRound(h, a, results)
      requires |results| == |a.calls|
      ensures Worker(h + [a] + results, lead) && Paired(h + [a] + results)
    {
      RoundProgress(h, a, results);
    }

    /** Between turns: the transcript mirrors the history, no round is open, and every
        request so far was good. */
    ghost predicate Sound()
      reads this, store
    {
      status == Active && Mirrored() && RequestsGood() && (task != "" ==> AtTurnBoundary())
    }

    /** The history a request carries, after the pre-flight check. */
    method Preflight(window: int, threshold: int, summary: string)
      requires Sound()
      modifies this`messages, this`seqNo, this`compactions, this`compactionSuppressed,
               this`lastInputTokens, this`lead, this`log, this`requests, store
      ensures Sound() && |requests| == |old(requests)| + 1
      ensures old(Paced(window, threshold)) ==> Paced(window, threshold)
    {
      MaybeCompact(window, threshold, summary);
      requests := requests + [Request(messages, Live(Rows()))];
    }

    /** Pre-flight compaction, then one request and what comes back for it. */
    method Exchange(env: Environment, attempt: nat) returns (start: StreamStart, response: Response)
      requires Sound()
      modifies this`messages, this`seqNo, this`compactions, this`compactionSuppressed,
               this`lastInputTokens, this`lead, this`log, this`requests, store
      ensures Sound() && |requests| == |old(requests)| + 1
      ensures start == env.start(attempt) && (start.Streaming? ==> response == Collect(start.events))
      ensures old(Paced(env.window(attempt), env.threshold(attempt))) ==>
                Paced(env.window(attempt), env.threshold(attempt))
    {
      Preflight(env.window(attempt), env.threshold(attempt), env.preflightSummary(attempt));
      start := env.start(attempt);
      response := Broken(false, false);
      if start.Streaming? {
        response := CollectResponse(start.events);
      }
    }

    /** Records a response and runs its tool calls; done when there are none. */
    method TakeTurn(env: Environment, attempt: nat, text: string, calls: seq<ToolCall>) returns (done: bool)
      requires Sound()
      modifies this`messages, this`seqNo, this`roundTrips, store
      ensures roundTrips == old(roundTrips) + 1
      ensures !done ==> Sound()
      ensures done ==> Mirrored() && messages != [] && messages[|messages| - 1].SafeBoundary()
      ensures done && task != "" ==> Paired(messages) && messages[0] == User(task)
    {
      roundTrips := roundTrips + 1;
      ghost var before := messages;
      var reply := Assistant(text, calls);
      Record(reply);
      done := |calls| == 0;
      if done {
        if task != "" { AppendOpens(before, reply); }
      } else {
        ghost var results := RunTools(env, attempt, calls);
        if task != "" { RoundBoundary(before, lead, reply, results); }
      }
    }

    /** One pass of the conversation loop. */
    method Attempt(env: Environment, attempt: nat, retried: bool) returns (next: Next)
      requires Sound()
      modifies this, store
      ensures |requests| <= |old(requests)| + 1
      ensures old(Paced(env.window(attempt), env.threshold(attempt))) ==>
                Paced(env.window(attempt), env.threshold(attempt))
      ensures next.Retry? ==> !retried && Sound() && roundTrips == old(roundTrips)
      ensures next.NextTurn? ==> Sound() && roundTrips == old(roundTrips) + 1
      ensures next.Stop? ==>
                Stopped(next.err) && next.err != Some(MaxTurnsExceeded) && roundTrips <= old(roundTrips) + 1
    {
      if env.contextDone(attempt) {
        status := Cancelled;
        return Stop(Some(ContextError));
      }
      var start, response := Exchange(env, attempt);
      if start.Refused? {
        if !retried && start.overflow {
          ForceCompact(env.overflowSummary(attempt));
          return Retry;
        }
        status := Failed;
        return Stop(Some(StartError));
      }
      if response.Broken? {
        var contextDone := response.contextDone || env.contextDoneAfter(attempt);
        if !contextDone && !retried && response.overflow {
          ForceCompact(env.overflowSummary(attempt));
          return Retry;
        }
        status := if contextDone then Cancelled else Failed;
        return Stop(Some(ResponseError));
      }
      var done := TakeTurn(env, attempt, response.text, Normalize(response.calls, env.validJson));
      if done {
        status := Completed;
        return Stop(None);
      }
      return NextTurn;
    }

    /** How a run may end. */
    ghost predicate Stopped(err: Option<RunError>)
      reads this, store
    {
      && status != Active && (err.None? <==> status == Completed)
      && Mirrored() && RequestsGood()
      && (status == Completed ==> messages != [] && messages[|messages| - 1].SafeBoundary())
      && (status == Completed && task != "" ==> Paired(messages) && messages[0] == User(task))
    }

    /** The conversation loop. It ends for every environment, after at most two requests
        per turn: the retry after an overflow re-uses its turn's slot, so the source's
        turn-- and turn++ cancel. */
    method Run(env: Environment) returns (err: Option<RunError>)
      requires Fresh() && requests == [] && log == [] && roundTrips == 0
      requires store != null ==> Rows() == []
      modifies this, store
      ensures Stopped(err)
      ensures FixedBudget(env) ==> Separated(log)
      ensures |requests| <= 2 * maxTurns && roundTrips <= maxTurns
      ensures err == Some(MaxTurnsExceeded) ==> roundTrips == maxTurns
    {
      if |messages| > 0 {
        PersistMessage(messages[0]);
      }
      var retriedOverflow := false;
      var turn := 0;
      var attempt := 0;
      while turn < maxTurns
        invariant turn <= maxTurns && roundTrips == turn && Sound()
        invariant |requests| <= 2 * turn + (if retriedOverflow then 1 else 0)
        invariant retriedOverflow ==> turn < maxTurns
        invariant FixedBudget(env) ==> Paced(env.window(0), env.threshold(0))
        decreases maxTurns - turn, if retriedOverflow then 0 else 1
      {
        var next := Attempt(env, attempt, retriedOverflow);
        attempt := attempt + 1;
        match next {
          case Stop(e) => return e;
          case Retry => retriedOverflow := true;
          case NextTurn =>
            retriedOverflow := false;
            turn := turn + 1;
        }
      }
      status := Failed;
      return Some(MaxTurnsExceeded);
    }
  }
}
