/** The operator's long-lived conversation: window truncation after every append, digest
    handoffs between events, and the session file a restart restores from. */
module OperatorSession {
  import opened Messages
  import opened ContextWindow

  const MAX_MESSAGES: nat := 200
  const MAX_TURN_ROUNDS: nat := 25
  const MAX_CONSECUTIVE_FAILED_ROUNDS: nat := 3

  datatype Option<T> = None | Some(value: T)

  /** One round-trip to the model. */
  datatype Reply = Failed | Replied(text: string, calls: seq<ToolCall>, inputTokens: nat)

  datatype ToolOutcome = Output(text: string) | ToolError(text: string)

  /** What the session file holds. */
  datatype SessionFile = SessionFile(messages: History, contextTokens: int)

  /** What reaches the event loop: text for the model, or an event handled mechanically. */
  datatype Event = ForModel(text: string) | Mechanical

  /** Everything the operator cannot decide itself, indexed by its own clock. */
  datatype Environment = Environment(
    contextDone: nat -> bool,
    reply: nat -> Reply,
    tool: nat -> ToolOutcome,
    writeOk: nat -> bool,
    archiveOk: nat -> bool,
    window: nat -> int,
    threshold: nat -> int,
    handoff: nat -> string)

  /** No response asks for a whole window of tool calls at once. */
  ghost predicate SmallRounds(env: Environment) {
    forall n: nat :: env.reply(n).Replied? ==> |env.reply(n).calls| < MAX_MESSAGES
  }

  // ---------------------------------------------------------------- restoring

  /** The longest prefix that ends at a safe boundary. */
  function Trimmed(h: History): (g: History)
    ensures g <= h && (g == [] || g[|g| - 1].SafeBoundary())
    ensures forall i :: |g| <= i < |h| ==> !h[i].SafeBoundary()
  {
    if h == [] || h[|h| - 1].SafeBoundary() then h else Trimmed(h[..|h| - 1])
  }

  method TrimIncompleteTail(h: History) returns (g: History)
    ensures g == Trimmed(h)
  {
    g := h;
    while |g| > 0
      invariant Trimmed(h) == Trimmed(g)
    {
      var last := g[|g| - 1];
      if last.User? || (last.Assistant? && |last.calls| == 0) {
        break;
      }
      g := g[..|g| - 1];
    }
  }

  /** What a restart makes of the messages in the session file. */
  function Restored(h: History): History {
    Trimmed(Truncated(h, MAX_MESSAGES))
  }

  ghost predicate GoodRestore(h: History) {
    var r := Restored(h);
    Paired(r) && |r| <= MAX_MESSAGES && (r != [] ==> r[|r| - 1].SafeBoundary())
  }

  /** Whatever append the crash followed, the restored history is paired, fits the window
      and ends where a request may follow. */
  lemma RestoredGood(h: History)
    requires OpenPaired(h)
    ensures GoodRestore(h)
  {
    TruncatedPaired(h, MAX_MESSAGES);
    var w := Truncated(h, MAX_MESSAGES);
    var k := |Trimmed(w)|;
    assert Trimmed(w) == w[..k];
    PrefixPaired(w, k);
  }

  /** Nothing is lost when the crash came between turns. */
  lemma RestoredExact(h: History)
    requires |h| <= MAX_MESSAGES && h != [] && h[|h| - 1].SafeBoundary()
    ensures Restored(h) == h
  {
  }

  // ---------------------------------------------------------------- one append inside a round

  /** Appending the next result of an open round, with truncation, keeps the round open
      and everything before it paired. */
  lemma ResultAppended(h: History, a: Message, results: History, r: Message, maxMessages: nat) returns (kept: History)
    requires InRound(h, a, results) && |results| < |a.calls| < maxMessages
    requires r.Tool? && r.callId == a.calls[|results|].id
    ensures InRound(kept, a, results + [r])
    ensures Truncated(h + ([a] + results) + [r], maxMessages) == kept + ([a] + (results + [r]))
    ensures |kept + ([a] + (results + [r]))| <= maxMessages
  {
    var more := results + [r];
    assert h + ([a] + results) + [r] == h + ([a] + more);
    var cut := TruncationKeepsRound(h, a, more, maxMessages);
    kept := h[cut..];
    if cut > 0 { SuffixPaired(h, cut); } else { assert h[0..] == h; }
  }

  lemma RoundOpened(h: History, a: Message, maxMessages: nat) returns (kept: History)
    requires Paired(h) && a.Assistant? && 0 < |a.calls| < maxMessages
    ensures InRound(kept, a, [])
    ensures Truncated(h + [a], maxMessages) == kept + ([a] + [])
    ensures |kept + ([a] + [])| <= maxMessages
  {
    assert h + [a] == h + ([a] + []);
    var cut := TruncationKeepsRound(h, a, [], maxMessages);
    kept := h[cut..];
    if cut > 0 { SuffixPaired(h, cut); } else { assert h[0..] == h; }
  }

  // ---------------------------------------------------------------- the operator

  class Operator {
    const hasSessionFile: bool
    var messages: History
    var lastContextTokens: int
    var compactionSuppressed: bool
    var file: Option<SessionFile>
    var clock: nat
    /** Every history sent to the model, and every content the session file ever had. */
    ghost var requests: seq<History>
    ghost var written: seq<SessionFile>

    constructor (hasSessionFile: bool, onDisk: Option<SessionFile>)
      ensures messages == if hasSessionFile && onDisk.Some? then Restored(onDisk.value.messages) else []
      ensures onDisk.Some? ==> OpenPaired(onDisk.value.messages) ==> Between() && Good()
      ensures onDisk.None? ==> Between() && Good()
      ensures file == onDisk && requests == [] && written == []
      ensures this.hasSessionFile == hasSessionFile
    {
      this.hasSessionFile := hasSessionFile;
      messages := [];
      lastContextTokens := 0;
      compactionSuppressed := false;
      file := onDisk;
      clock := 0;
      requests := [];
      written := [];
      new;
      LoadSession();
    }

    /** Between turns: paired and within the window. */
    ghost predicate Between()
      reads this
    {
      Paired(messages) && |messages| <= MAX_MESSAGES
    }

    /** Every request so far was paired and within the window, and a crash right after any
        write so far restores a paired history. */
    ghost predicate Good()
      reads this
    {
      && (forall i :: 0 <= i < |requests| ==> Paired(requests[i]) && |requests[i]| <= MAX_MESSAGES)
      && (forall i :: 0 <= i < |written| ==> OpenPaired(written[i].messages) && |written[i].messages| <= MAX_MESSAGES)
      && (file.Some? ==> OpenPaired(file.value.messages))
    }

    /** The handoff check stays quiet. */
    ghost predicate Quiet(window: int, threshold: int)
      reads this
    {
      lastContextTokens * 100 < window * threshold || compactionSuppressed || |messages| <= 1
    }

    method LoadSession()
      modifies this`messages, this`lastContextTokens
      ensures hasSessionFile && file.Some? && Restored(file.value.messages) != [] ==>
                && messages == Restored(file.value.messages)
                && lastContextTokens ==
                   if file.value.contextTokens == 0 then Estimate(messages) else file.value.contextTokens
      ensures !(hasSessionFile && file.Some? && Restored(file.value.messages) != []) ==>
                messages == old(messages) && lastContextTokens == old(lastContextTokens)
      ensures hasSessionFile && file.Some? && OpenPaired(file.value.messages) && old(Between()) ==> Between()
    {
      if !hasSessionFile {
        return;
      }
      if file.None? {
        return;
      }
      var h := TruncateMessages(file.value.messages, MAX_MESSAGES);
      h := TrimIncompleteTail(h);
      if OpenPaired(file.value.messages) { RestoredGood(file.value.messages); }
      if |h| == 0 {
        return;
      }
      var tokens := file.value.contextTokens;
      if tokens == 0 {
        tokens := EstimateTokens(h);
      }
      messages := h;
      lastContextTokens := tokens;
    }

    /** Atomically replaces the session file, unless the write fails. */
    method PersistSession(ok: bool)
      modifies this`file, this`written
      ensures file == if hasSessionFile && ok then Some(SessionFile(messages, lastContextTokens)) else old(file)
      ensures written ==
                if hasSessionFile && ok then old(written) + [SessionFile(messages, lastContextTokens)] else old(written)
      ensures old(Good()) && OpenPaired(messages) && |messages| <= MAX_MESSAGES ==> Good()
    {
      if !hasSessionFile {
        return;
      }
      if ok {
        file := Some(SessionFile(messages, lastContextTokens));
        written := written + [SessionFile(messages, lastContextTokens)];
      }
    }

    method AppendMessage(env: Environment, m: Message)
      modifies this`messages, this`file, this`written, this`clock
      ensures messages == Truncated(old(messages) + [m], MAX_MESSAGES)
      ensures old(Good()) && OpenPaired(messages) ==> Good()
    {
      messages := messages + [m];
      messages := TruncateMessages(messages, MAX_MESSAGES);
      assert |messages| <= MAX_MESSAGES;
      PersistSession(env.writeOk(clock));
      clock := clock + 1;
    }

    /** Appends a message that opens no round. */
    method AppendPlain(env: Environment, m: Message)
      requires m.SafeBoundary()
      modifies this`messages, this`file, this`written, this`clock
      ensures old(Between() && Good()) ==> Between() && Good()
      ensures messages == Truncated(old(messages) + [m], MAX_MESSAGES)
    {
      if Paired(messages) {
        AppendOpens(messages, m);
        TruncatedPaired(messages + [m], MAX_MESSAGES);
      }
      AppendMessage(env, m);
    }

    /** Appends an assistant message with its calls and one result per call. */
    method RunRound(env: Environment, a: Message) returns (allFailed: bool)
      requires a.Assistant? && a.calls != []
      modifies this`messages, this`file, this`written, this`clock
      ensures |a.calls| < MAX_MESSAGES && old(Between() && Good()) ==> Between() && Good()
    {
      ghost var small := |a.calls| < MAX_MESSAGES && Between() && Good();
      ghost var kept: History, results: History := [], [];
      if small {
        kept := RoundOpened(messages, a, MAX_MESSAGES);
        RoundIsOpen(kept, a, []);
      }
      AppendMessage(env, a);
      var failed := 0;
      for i := 0 to |a.calls|
        invariant small ==> |results| == i && InRound(kept, a, results) && messages == kept + ([a] + results)
        invariant small ==> Good() && |messages| <= MAX_MESSAGES
      {
        var outcome := env.tool(clock);
        var text := outcome.text;
        if outcome.ToolError? {
          text := "error: " + outcome.text;
          failed := failed + 1;
        }
        var r := Tool(a.calls[i].id, text);
        if small {
          kept := ResultAppended(kept, a, results, r, MAX_MESSAGES);
          results := results + [r];
          RoundIsOpen(kept, a, results);
        }
        AppendMessage(env, r);
      }
      if small {
        RoundIsOpen(kept, a, results);
      }
      allFailed := failed == |a.calls|;
    }

    lemma RoundIsOpen(h: History, a: Message, results: History)
      requires InRound(h, a, results)
      ensures OpenPaired(h + ([a] + results))
      ensures |results| == |a.calls| ==> Paired(h + ([a] + results))
    {
      RoundProgress(h, a, results);
      assert h + [a] + results == h + ([a] + results);
    }

    /** One operator turn: at most MAX_TURN_ROUNDS requests, every one of them paired. */
    method HandleUserMessage(env: Environment, text: string)
      modifies this
      ensures SmallRounds(env) && old(Between() && Good()) ==> Between() && Good()
      ensures |requests| <= |old(requests)| + MAX_TURN_ROUNDS
    {
      ghost var sound := SmallRounds(env) && Between() && Good();
      AppendPlain(env, User(text));
      var round, consecutiveFailed := 0, 0;
      while true
        invariant sound ==> Between() && Good()
        invariant round <= MAX_TURN_ROUNDS && |requests| <= |old(requests)| + round
        decreases MAX_TURN_ROUNDS - round
      {
        if env.contextDone(clock) {
          return;
        }
        if round + 1 > MAX_TURN_ROUNDS {
          return;
        }
        round := round + 1;
        requests := requests + [messages];
        var reply := env.reply(clock);
        clock := clock + 1;
        if reply.Failed? {
          return;
        }
        if reply.inputTokens > 0 {
          lastContextTokens := reply.inputTokens;
        }
        var a := Assistant(reply.text, reply.calls);
        if |reply.calls| == 0 {
          AppendPlain(env, a);
          return;
        }
        var allFailed := RunRound(env, a);
        if allFailed {
          consecutiveFailed := consecutiveFailed + 1;
          if consecutiveFailed >= MAX_CONSECUTIVE_FAILED_ROUNDS {
            return;
          }
        } else {
          consecutiveFailed := 0;
        }
      }
    }

    /** The digest handoff check, run between events. */
    method MaybeCompact(env: Environment)
      modifies this
      ensures old(Between() && Good()) ==> Between() && Good()
      ensures requests == old(requests) && clock > old(clock)
      ensures old(Quiet(env.window(clock), env.threshold(clock))) ==> messages == old(messages)
      ensures messages == old(messages)
           || (messages == [User(env.handoff(old(clock)))] && Quiet(env.window(old(clock)), env.threshold(old(clock))))
      ensures messages != old(messages) ==>
                && old(lastContextTokens) * 100 >= env.window(old(clock)) * env.threshold(old(clock))
                && |old(messages)| > 1
    {
      var now := clock;
      clock := clock + 1;
      var threshold, window := env.threshold(now), env.window(now);
      if env.contextDone(now) || threshold <= 0 || !hasSessionFile || window <= 0 {
        return;
      }
      if lastContextTokens <= 0 || |messages| <= 1 {
        return;
      }
      if lastContextTokens * 100 < window * threshold {
        compactionSuppressed := false;
        return;
      }
      if compactionSuppressed {
        return;
      }
      Compact(env, now, window, threshold);
    }

    /** Archive first, then replace the history with the handoff message. */
    method Compact(env: Environment, now: nat, window: int, threshold: int)
      modifies this`messages, this`lastContextTokens, this`compactionSuppressed, this`file, this`written
      ensures old(Good()) ==> Good()
      ensures !env.archiveOk(now) ==> unchanged(this)
      ensures env.archiveOk(now) ==>
                && messages == [User(env.handoff(now))] && Between()
                && lastContextTokens == Estimate(messages)
                && compactionSuppressed == (old(compactionSuppressed) || lastContextTokens * 100 >= window * threshold)
    {
      if !env.archiveOk(now) {
        return;
      }
      var seeded := [User(env.handoff(now))];
      var estimatedAfter := EstimateTokens(seeded);
      if estimatedAfter * 100 >= window * threshold {
        compactionSuppressed := true;
      }
      messages := seeded;
      lastContextTokens := estimatedAfter;
      PersistSession(env.writeOk(now));
    }

    /** A crash right after any write so far restores a paired history that fits the window and
        ends where a request may follow. */
    ghost predicate AlwaysRestorable()
      reads this
    {
      forall i :: 0 <= i < |written| ==> GoodRestore(written[i].messages)
    }

    lemma GoodRestores()
      requires Good()
      ensures AlwaysRestorable()
    {
      forall i | 0 <= i < |written| ensures GoodRestore(written[i].messages) {
        RestoredGood(written[i].messages);
      }
    }

    /** The event loop over any finite run of events, after the turns that failed advances of
        the recovery sweep started. */
    method Run(env: Environment, recovered: seq<string>, events: seq<Event>)
      modifies this
      ensures SmallRounds(env) && old(Between() && Good()) ==> Between() && Good() && AlwaysRestorable()
    {
      for i := 0 to |recovered|
        invariant SmallRounds(env) && old(Between() && Good()) ==> Between() && Good()
      {
        HandleUserMessage(env, recovered[i]);
      }
      MaybeCompact(env);
      for i := 0 to |events|
        invariant SmallRounds(env) && old(Between() && Good()) ==> Between() && Good()
      {
        if events[i].ForModel? {
          HandleUserMessage(env, events[i].text);
        }
        MaybeCompact(env);
      }
      if Good() {
        GoodRestores();
      }
    }
  }
}
