# Toasters: a verified model of its histories, tasks, graphs and small protocols

Toasters runs LLM workers on jobs. An operator turns jobs into tasks, an executor drives each
task through a graph of roles, workers hold conversations with a provider, and a SQLite store
keeps rows, checkpoints and transcripts across crashes. This project models the parts of it
whose correctness depends on order, on every interleaving or on every input, and proves what
they promise.

`dafny verify dfyconfig.toml` checks the whole project.

## How it is organised

| files | what they model |
|---|---|
| `Messages`, `ContextWindow`, `Compaction`, `Transcript`, `Session` | message histories and their pairing of calls and results, window truncation, the two compaction tiers, the transcript table, and the worker's turn loop |
| `OperatorSession` | the operator's conversation: truncation after every append, digest handoff, session file and restore |
| `Anthropic` | conversion of a history to the Anthropic message format |
| `TaskStore`, `TaskSystem`, `TaskInvariants`, `TaskProperties` | task rows and checkpoints, the step system of event loop, goroutines, service, crash and restart, its invariant, and what the invariant means |
| `TaskProgress`, `TaskCancellation`, `TaskRecovery`, `TaskTraces` | what keeps every job moving, whom a cancellation reaches, what a restart resumes, and the interleavings at which claims stop |
| `Executor`, `SystemTools` | the executor's and the operator tools' own code over the store, tied to the steps of the system |
| `GraphDefinition`, `GraphRun`, `Json` | validation, router compilation, running a graph, and running it through crashes |
| `Fanout` | the reducers of a fan-out node |
| `Truncate`, `Utf8` | size-bounded truncation of tool results |
| `Broker` | the human-in-the-loop broker |

A history is *paired* when every assistant message with k calls is followed at once by its k
results, in order, and tool messages occur nowhere else. Strings are byte strings: one `char`
stands for one byte. JSON encodings that the program compares byte for byte are compared as
decoded values.

## The steps of the task system

Goroutines, the event loop and the service interleave at the granularity of store operations;
each row below is one atomic step of `TaskSystem.Next`, and a crash may fall between any two.

| step | source |
|---|---|
| `SweepJob` | internal/operator/operator.go:671-707, run before the first event at 369-377 |
| `ReceiveEvent` | internal/operator/operator.go:379-448 |
| `ChooseReady`, `FindNothing` | internal/operator/operator.go:613-658 |
| `CreateIn` | internal/operator/system_tools.go:404-459 |
| `CheckPending`, `Abandon` | internal/operator/system_tools.go:488-534, internal/operator/operator.go:599-608 and 664-668 |
| `ListSiblings`, `WriteGuarded` | internal/operator/system_tools.go:536-558 and 681-703 |
| `RetryFailed` | internal/operator/system_tools.go:645-671 |
| `SpawnRun` | internal/operator/system_tools.go:578-585 and 722-727 |
| `PromoteJob` | internal/operator/system_tools.go:592-598 |
| `UserSpeaks`, `EndTurn` | internal/operator/operator.go:402-410 and 770-938 |
| `Begin`, `End` | internal/graphexec/executor.go:219-243 |
| `Prepare` | internal/graphexec/executor.go:648-651 |
| `Load`, `Save`, `Return` | internal/graphexec/executor.go:450-465, internal/db/checkpoints.go:35-68 |
| `Judge` | internal/graphexec/executor.go:484-488 |
| `Drop` | internal/graphexec/executor.go:496-501 |
| `Write` | internal/graphexec/executor.go:503-527, 549-553 and 725-731 |
| `Query`, `Post` | internal/graphexec/executor.go:555-575 and 526-533 |
| `Post(false)`: the send is given up | internal/service/local_broadcast_jobs.go:238-252 and 277-291, internal/operator/operator.go:353-360 |
| `CancelJob`, `StartDrain`, `EndLifetime` | internal/graphexec/executor.go:257-277, internal/service/local.go:244-251 |
| `Boot` | internal/db/sqlite.go:1028-1054 |
| `SetJobActive` | internal/db/sqlite.go:231-240 |
| `ServiceCreate`, `ServiceDepend`, `ServicePreAssign` | internal/service/decompose.go:229-270 and 348-360 |

`TaskInvariants.Inv` collects what every step keeps. `Ledger` is bookkeeping for the statements:
only other bookkeeping, namely the origin of a run, is computed from it.

## What turned out differently from what is documented

- A rebuild keeps the first message unconditionally. A session that was not seeded with a user
  message can therefore end up unpaired: `WorkerSession.UnseededRebuildBreaks` is such a history,
  and `Compaction.CompactedPairedIff` says exactly when.
- The operator's window can lose an assistant message to its own results when one response
  carries at least `maxMessages` calls; `ContextWindow.RoundSurvivesIff` gives the exact sizes.
- The inner suppression at internal/runtime/session_compact.go:123 cannot arm
  (`WorkerSession.NothingElidedFits`).
- A completion event need not carry HasNextTask for a task queued behind its sibling: an older
  event may have started that task already. `TaskTraces.DispatchedBeforeAsked` is the
  interleaving. `TaskProperties.NoLostWakeUp` is the promise that holds: the event says that a
  task is ready unless the queued task was no longer pending when the event was computed.
- That a queued task "will start automatically" holds while its job's chain is whole.
  `TaskProgress.NobodyStranded` names, for every reachable state, what will get to a queued or
  interrupted task, and `TaskProgress.BreaksOnlyBy` the only steps that break the chain: a failed
  or cancelled run, a failed dispatch, an abandoned advance, a completion event whose send is
  given up, and a restart that finds the job not marked active.
- The last one is possible because a dispatch starts the task before it marks the job active, and
  marks only a job that it had read as pending. `TaskTraces.CrashBeforePromotionStrands` leaves a
  ready task with a graph in a system at rest, and `TaskRecovery.RestartMovesJobIff` says that a
  restart gets a job going exactly when it was marked active.
- A restart need not resume the task that the crash interrupted: the sweep takes the first ready
  task with a graph, by sort order and creation time, and may start an older one that a failure
  had left waiting (`TaskTraces.EarlierTaskRestartsFirst`). `TaskRecovery.RestartResumesIff` is the
  exact condition: the job was marked active and no such task was ahead.
- A shutdown leaves a task resumable exactly when draining is set before the cancelled run looks
  (`TaskProperties.ResumableIff`). `Shutdown` cancels first and drains second, as the comment at
  internal/graphexec/executor.go:270-273 asks, so a fast run is persisted as cancelled
  (`TaskTraces.CancelledByShutdown`).
- `endTask` cancels by task id, so it can cancel a retry of the same task
  (`TaskTraces.StaleEndTaskCancelsRetry`). `TaskCancellation.EndCancelsIff` says when one call
  does, and `TaskCancellation.TakeOverCancelsIff` that runs nobody cancelled can do it to a run
  exactly when the task id still had a handle as that run registered, which `beginTask` could
  look up.
- The broker's cleanup deletes by request id, so a reused id can strand a question
  (`Broker.CleanupStrandsIff`, `Broker.ReusedIdStrands`).
- The comment above `ReconcileInterrupted` (internal/db/sqlite.go:1025-1027) says interrupted
  tasks become failed; the code makes them pending, and so does the model.

## Assumptions

- Tool-call ids are unique where a theorem says so, store operations succeed except where a step
  says otherwise, and a worker that is promised a paired history was seeded with a non-empty
  initial message.
- Where a theorem about the operator assumes `SmallRounds`, no response carries a whole window of
  tool calls; `ContextWindow.RoundSurvivesIff` says what larger rounds do.
- The operator is one goroutine, as its event loop is, and one operator serves from boot to
  exit. Task ids are fresh.
- Dependencies are added only to tasks that nobody has given a graph yet, by the service that
  created them.
- rhizome saves the state after each completed node, resumes after the saved node, follows one
  outgoing edge per node and applies no iteration cap; a node's effect is a function of the state.

## Model

| member | source | states |
|---|---|---|
| Messages.AppendOpens | internal/operator/operator.go:1035-1042 | appending anything but a tool result to a paired history leaves at most one round open; a message without calls leaves it paired |
| Messages.RoundProgress | internal/runtime/session.go:240-298 | while a round's results arrive the history is paired up to the open round, and paired outright exactly when the last result is there |
| Messages.SuffixPaired | internal/contextwindow/history.go:35-42 | a window that does not open on a tool result inherits the pairing of the whole history |
| Messages.PrefixPaired | internal/operator/operator.go:335-349 | a prefix that ends at a user message or a call-free assistant message of a history cut anywhere in a round is paired |
| Messages.ConcatPaired | internal/runtime/session_compact.go:243-264 | joining a paired history with another is paired exactly when the other is |
| ContextWindow.EstimateTokens | internal/contextwindow/history.go:13-22 | the loops compute a quarter of the total bytes of contents, call ids, tool names and arguments |
| ContextWindow.BytesConcat | internal/contextwindow/history.go:13-22 | the estimate counts every byte once, however a history is split |
| ContextWindow.TailFromSafeBoundary | internal/contextwindow/history.go:43-58 | returns the suffix from the first safe boundary, or else from the first message that is no tool result, or nothing |
| ContextWindow.TailStartUnique | internal/contextwindow/history.go:43-58 | that description determines the start of the window completely |
| ContextWindow.TailPaired | internal/contextwindow/history.go:35-58 | a window taken anywhere in a paired history and opened at its safe boundary is paired |
| ContextWindow.TruncateMessages | internal/contextwindow/history.go:28-33 | the window is the last maxMessages messages opened at their safe boundary, or the whole history |
| ContextWindow.TruncatedPaired | internal/contextwindow/history.go:24-33 | truncation keeps a suffix of at most maxMessages messages and keeps pairing |
| ContextWindow.TruncationKeepsRound | internal/operator/operator.go:1035-1042 | truncating in the middle of a round never cuts past the round's own assistant message while the round fits the window |
| ContextWindow.RoundFits | internal/operator/operator.go:872-918 | the same for all appends of a round in sequence, truncating after each |
| ContextWindow.RoundSurvivesIff | internal/operator/operator.go:872-918 | a round with k results appended one by one leaves the window paired exactly when k < maxMessages or (k + 1) is a multiple of maxMessages + 1 |
| ContextWindow.ToolsOnly | internal/contextwindow/history.go:52-57 | results that outlived their round fill the window and empty it again with period maxMessages + 1 |
| ContextWindow.RoundTooBig | internal/contextwindow/history.go:28-58 | a round with at least maxMessages results pushes out its own assistant message and everything before it |
| Compaction.ProtectedTailStart | internal/runtime/session_compact.go:227-238 | the index of the keep-th assistant message from the end, or 0 when there are fewer |
| Compaction.ElideToolResults | internal/runtime/session_compact.go:190-220 | the loops elide exactly the old tool results that are neither stubs nor spawn_worker results, and count them |
| Compaction.ElisionShape | internal/runtime/session_compact.go:185-220 | elision changes only texts of tool results before the protected tail, each to a stub, and keeps the tail verbatim |
| Compaction.ElisionIdempotent | internal/runtime/session_compact.go:31-34 | eliding twice is eliding once |
| Compaction.ShapePaired | internal/runtime/session_compact.go:88-92 | pairing does not depend on the texts of tool results |
| Compaction.NamesRight | internal/runtime/session_compact.go:193-199 | with unique call ids the id-to-name table gives every call its own name |
| Compaction.SpawnResultKept | internal/runtime/session_compact.go:204-218 | the result of a spawn_worker call is never elided |
| Compaction.CountZero | internal/runtime/session_compact.go:119-129 | no elision was counted exactly when the history is unchanged |
| Compaction.RebuildHistory | internal/runtime/session_compact.go:243-264 | the rebuilt history is the first message, the summary when there is one, and the safe tail without a repeated first message |
| Compaction.KeptTailIsSuffix | internal/runtime/session_compact.go:252-263 | what a rebuild keeps of the tail is a suffix of the old history |
| Compaction.RebuiltPairedIff | internal/runtime/session_compact.go:243-264 | a rebuild of a paired history is paired exactly when its first message carries no calls, or nothing was dropped and there is no summary |
| Compaction.CompactedPairedIff | internal/runtime/session_compact.go:93-129 | for any paired history elision keeps pairing, and a rebuild does exactly when the first message carries no calls, or nothing was dropped and there is no summary |
| Compaction.RecentTurns | internal/runtime/session_compact.go:227-238 | the part kept verbatim holds the last compactKeepTurns assistant turns, or all of them when there are fewer |
| Compaction.RebuiltWorker | internal/runtime/session_compact.go:243-264 | in a worker's history a rebuild keeps pairing and the first message and ends with the recent turns verbatim |
| Compaction.ElidedWorker | internal/runtime/session_compact.go:190-220 | in a worker's history elision keeps pairing, the first message and the recent turns verbatim |
| Compaction.CompactedWorker | internal/runtime/session_compact.go:93-181 | either tier turns a paired worker history into one that opens with the same message and ends with the last turns and their results byte for byte |
| Transcript.TranscriptStore.AppendSessionMessage | internal/db/sqlite.go:1137-1147 | adds one live row to the session's rows and touches no other session |
| Transcript.TranscriptStore.MarkSessionMessagesSuperseded | internal/db/sqlite.go:1176-1188 | flags exactly the session's rows up to the given number |
| Transcript.LiveMarked | internal/runtime/session_compact.go:155-167 | flagging everything up to the last message before a marker leaves no live row |
| Transcript.ElisionMirrors | internal/runtime/session_compact.go:88-92 | the rows still mirror the history after elision, which leaves them alone |
| WorkerSession.BrokenStays | internal/runtime/session.go:352-389 | nothing in the stream counts after its first error |
| WorkerSession.CapToolResult | internal/runtime/session.go:281-289 | a result over 8KB is cut at a rune start at or below 8KB and marked, except spawn_worker's |
| WorkerSession.NothingElidedFits | internal/runtime/session_compact.go:119-128 | when there is nothing to elide the history is the one just found under budget, so the inner suppression can never arm |
| WorkerSession.UnseededRebuildBreaks | internal/runtime/session_compact.go:83-129 | the compaction after an overflow leaves this unseeded history's call without its result, whatever the summary says |
| WorkerSession.CompactedMirrors | internal/runtime/session_compact.go:149-171 | tier 1 keeps mirroring the same rows; what tier 2 installs contains no marker and can be persisted as it is |
| WorkerSession.Session.constructor | internal/runtime/session.go:99-146 | a new session holds its initial message, if any, and its turn limit defaults to 50 |
| WorkerSession.Session.AppendMessage | internal/runtime/session.go:311-315 | adds the message at the end of the history |
| WorkerSession.Session.PersistMessage | internal/runtime/session.go:319-339 | adds a live row under the next number when there is a store |
| WorkerSession.Session.MaybeCompact | internal/runtime/session_compact.go:51-77 | does nothing while quiet; if it compacts, the stored estimate is below the threshold or suppression is armed; keeps pairing and the mirror |
| WorkerSession.Session.ForceCompact | internal/runtime/session_compact.go:83-86 | the overflow compaction keeps pairing, the first message and the mirror |
| WorkerSession.Session.RewriteTranscript | internal/runtime/session_compact.go:149-171 | after a tier 1 compaction the live rows are unchanged, after tier 2 they are the new history exactly |
| WorkerSession.Session.PlanCompaction | internal/runtime/session_compact.go:93-129 | chooses tier 2 exactly when the elided history is still over budget, and stops exactly when there is nothing to do |
| WorkerSession.Session.Compact | internal/runtime/session_compact.go:93-181 | installs the chosen history with its estimate, keeps pairing and the mirror, and right after tier 2 the live rows equal the history |
| WorkerSession.Session.CollectResponse | internal/runtime/session.go:343-390 | the response is the sum of the events before the first error, and every usage report overwrites the occupancy |
| WorkerSession.Session.RunTools | internal/runtime/session.go:250-298 | one result per call, in order, whatever the tools do; the transcript keeps mirroring |
| WorkerSession.Session.RoundBoundary | internal/runtime/session.go:240-300 | a full round leads from one turn boundary to the next |
| WorkerSession.Session.Preflight | internal/runtime/session.go:190-200 | the history handed to the provider is paired, opens with the initial message and is mirrored by the live rows |
| WorkerSession.Session.Exchange | internal/runtime/session.go:190-214 | pre-flight, one request, and the response its stream adds up to |
| WorkerSession.Session.TakeTurn | internal/runtime/session.go:238-298 | a reply without calls ends the run on a paired history; one with calls leads to the next boundary |
| WorkerSession.Session.Attempt | internal/runtime/session.go:183-301 | one pass of the loop: an overflow retries at most once, and every outcome keeps what all requests so far satisfied |
| WorkerSession.Session.Run | internal/runtime/session.go:150-307 | for every provider, tool and settings behaviour: every request is paired, opens with the initial message and is mirrored; at most 2*maxTurns requests and maxTurns round trips; nil is returned exactly when the status is completed; with fixed settings two pre-flight compactions are separated |
| OperatorSession.TrimIncompleteTail | internal/operator/operator.go:340-349 | the longest prefix that ends at a safe boundary |
| OperatorSession.RestoredGood | internal/operator/operator.go:265-314 | whatever append a crash followed, the restored history is paired, fits the window and ends at a safe boundary |
| OperatorSession.RestoredExact | internal/operator/operator.go:265-314 | a file written between turns restores unchanged |
| OperatorSession.ResultAppended | internal/operator/operator.go:913-917 | appending the next result with truncation keeps the round open and the rest paired |
| OperatorSession.RoundOpened | internal/operator/operator.go:872-872 | appending the assistant message with truncation opens exactly its round |
| OperatorSession.Operator.constructor | internal/operator/operator.go:192-259 | a new operator starts from what it restores; a file cut after any append gives a paired history within the window |
| OperatorSession.Operator.LoadSession | internal/operator/operator.go:265-314 | restores the trimmed window and the stored occupancy, or its estimate for old files; an empty result leaves the operator alone |
| OperatorSession.Operator.PersistSession | internal/operator/operator.go:1067-1075 | replaces the file by the current history or leaves it whole |
| OperatorSession.Operator.AppendMessage | internal/operator/operator.go:1035-1042 | the history becomes the truncated extension and is written |
| OperatorSession.Operator.RunRound | internal/operator/operator.go:872-924 | a round of fewer than maxMessages calls leads from a paired window to a paired window, and every write in between restores well |
| OperatorSession.Operator.HandleUserMessage | internal/operator/operator.go:770-938 | a turn ends after at most 25 requests; with small rounds all of them are paired and within the window, however the turn stops |
| OperatorSession.Operator.MaybeCompact | internal/operator/handoff.go:52-87 | hands off only above the threshold and unsuppressed, and is quiet afterwards |
| OperatorSession.Operator.Compact | internal/operator/handoff.go:94-154 | replaces the history by the handoff message, or changes nothing when archiving fails |
| OperatorSession.Operator.Run | internal/operator/operator.go:369-392 | with small rounds, over the turns of the recovery sweep and any finite run of events, every request is paired and within the window, and a crash after any write restores a paired history that ends at a safe boundary |
| Anthropic.ConvertMessagesToAnthropic | internal/provider/anthropic.go:193-261 | the loop computes the conversion, merging results into the last user message that holds results |
| Anthropic.ResultsCollect | internal/provider/anthropic.go:230-250 | the results of a round collect in one new message after the message that asked |
| Anthropic.RoundForm | internal/provider/anthropic.go:193-261 | a whole round converts to exactly two messages |
| Anthropic.LastRound | internal/provider/anthropic.go:193-261 | a paired history ends with a plain message or a whole round |
| Anthropic.ConversionPaired | internal/provider/anthropic.go:193-261 | on a paired history every message with calls is directly followed by one user message with exactly its results in order, and all calls and results appear once, in order |
| Utf8.WalkBack | internal/runtime/session.go:284-287 | stops at the last rune start at or below the limit |
| Utf8.SplitIff | internal/mcp/truncate.go:62-66 | well-formed text may be cut exactly at rune starts |
| Utf8.CutIsExact | internal/mcp/truncate.go:62-66 | the kept prefix is well formed, and no longer well-formed prefix stays within the limit |
| Truncate.FitsMonotone | internal/mcp/truncate.go:140-153 | if a prefix with its notice fits, so does every shorter one with its own notice |
| Truncate.TryMarshalArray | internal/mcp/truncate.go:140-153 | says whether the prefix with its notice fits |
| Truncate.SearchLargest | internal/mcp/truncate.go:97-107 | the binary search finds the largest count that fits |
| Truncate.LargestUnique | internal/mcp/truncate.go:97-107 | there is only one such count |
| Truncate.TruncateJSONArray | internal/mcp/truncate.go:91-136 | answers exactly when the bare notice fits and the whole array with a notice does not; the answer shows the longest prefix that fits and is within the limit |
| Truncate.TruncateObjectArray | internal/mcp/truncate.go:198-233 | shows the longest prefix that fits, and gives up exactly on arrays that fit or are empty |
| Truncate.TruncateJSONObject | internal/mcp/truncate.go:158-193 | answers exactly when some array of more than five elements does not fit and the object with every such array cut to its longest fitting prefix is within the limit; the answer is that object |
| Truncate.TruncateResult | internal/mcp/truncate.go:48-87 | a short result is returned as it is; a long one becomes the truncated array or object exactly when there is one within the limit, and otherwise the rune-boundary cut with the marker |
| Json.SplitJoin | internal/graphexec/compiler.go:304-304 | splitting a field path at its dots loses nothing |
| Json.ExtractField | internal/graphexec/compiler.go:298-316 | walks the path to the value, or fails at the first part that is no member |
| GraphDefinition.ParsePathExact | internal/graphexec/definition.go:269-282 | exactly the strings $node.output.field parse, each to its only reading |
| GraphDefinition.ValidateFanout | internal/graphexec/definition.go:406-472 | accepts exactly the well-shaped fan-outs |
| GraphDefinition.ValidateNodes | internal/graphexec/definition.go:304-334 | accepts exactly distinct, well-shaped nodes and collects their ids |
| GraphDefinition.ValidateEdge | internal/graphexec/definition.go:353-398 | accepts exactly edges between declared nodes or to the end, with a plain target or a router, never both |
| GraphDefinition.Validate | internal/graphexec/definition.go:288-402 | accepts exactly the valid definitions |
| GraphRun.BuildRouter | internal/graphexec/compiler.go:171-233 | keeps the branches in order and lists every possible destination once and nothing else |
| GraphRun.RunRouter | internal/graphexec/compiler.go:209-231 | the closure computes the route of a state |
| GraphRun.MatchFirst | internal/graphexec/compiler.go:222-229 | the route is the first equal branch, else the default |
| GraphRun.RouterMeaning | internal/graphexec/compiler.go:171-233 | a compiled router takes the first branch equal to the value, else the default, else errors, and stays inside the list declared to the conditional edge |
| GraphRun.EdgesFromNode | internal/graphexec/compiler.go:160-167 | says whether the node has an edge of its own |
| GraphRun.BuildWire | internal/graphexec/compiler.go:91-111 | an edge becomes a plain wire to its resolved target or a compiled router |
| GraphRun.Compile | internal/graphexec/compiler.go:26-133 | succeeds exactly on valid definitions without subgraphs whose nodes can be built, whose routers pass the schema check and whose nodes and edges the graph builder takes; one wire per edge, in order, and the default exit wire |
| GraphRun.FollowDeclared | internal/graphexec/compiler.go:85-119 | every continuation from a node is a declared node, the end or an error |
| GraphRun.RunStaysDeclared | internal/graphexec/compiler.go:85-132 | every run of an accepted definition stays on declared nodes |
| GraphRun.OutcomeUnique | internal/graphexec/compiler.go:125-132 | a run ends in at most one way |
| GraphRun.CrashesKeepOutcome | internal/graphexec/executor.go:441-466 | whatever the crashes, between whichever steps, a written result is the outcome of the uninterrupted run |
| GraphRun.ResultIsOutcome | internal/graphexec/executor.go:441-466 | no result is written that the uninterrupted run does not have |
| GraphRun.OneMoreExecution | internal/graphexec/executor.go:441-466 | after any history of crashes one uncut execution reaches that outcome |
| GraphRun.CrashCost | internal/graphexec/executor.go:451-458 | a crash costs at most the node in flight, except between the checkpoint's deletion and the status write, where it costs the whole run |
| Fanout.ReduceFirstSuccess | internal/graphexec/fanout_node.go:230-237 | the first branch that did not fail, or failure exactly when all failed |
| Fanout.ReduceCollect | internal/graphexec/fanout_node.go:211-226 | every successful output, in order, under "branches" |
| Fanout.CountBallot | internal/graphexec/fanout_node.go:264-270 | one ballot keeps the tally map and the first-seen order exact |
| Fanout.TallyBallots | internal/graphexec/fanout_node.go:249-271 | one pass yields the exact tally of every value, or the first successful branch without the key |
| Fanout.PickBest | internal/graphexec/fanout_node.go:275-281 | the highest count, an earlier value on a tie |
| Fanout.BestIsPlurality | internal/graphexec/fanout_node.go:275-285 | the best tally's winner is the declarative plurality winner |
| Fanout.PluralityUnique | internal/graphexec/fanout_node.go:239-242 | there is at most one plurality winner |
| Fanout.ReduceMajority | internal/graphexec/fanout_node.go:243-286 | returns the first branch of the most frequent value, ties to the value seen first, and fails exactly when no branch succeeded, one lacks the key or the votes are below quorum |
| Fanout.InterpretJudge | internal/graphexec/fanout_node.go:344-373 | a usable verdict of a selection judge names a branch that succeeded and carries its output |
| Fanout.ReduceByRole | internal/graphexec/fanout_node.go:302-339 | asks the judge at most twice and then takes the first success, so it fails exactly when all branches failed |
| Fanout.ReduceBranches | internal/graphexec/fanout_node.go:194-208 | under every strategy a winner index names a branch that succeeded, with its own output |
| Fanout.ReduceAndPromote | internal/graphexec/fanout_node.go:145-156 | a node whose branches write promotes exactly the workspace of the branch whose output it returns |
| TaskStore.Store.CreateSession | internal/db/sqlite.go:960-973 | inserts a worker session, refusing a known id |
| TaskStore.Store.CreateTask | internal/db/sqlite.go:244-267 | adds a pending task without a graph, refusing a known id |
| TaskStore.Store.AddTaskDependency | internal/db/sqlite.go:377-385 | adds one edge between existing tasks, refusing a repeated one |
| TaskStore.Store.AssignTaskToGraph | internal/db/sqlite.go:323-332 | moves the task to in progress only when it is pending |
| TaskStore.Store.PreAssignTaskGraph | internal/db/sqlite.go:337-346 | sets the graph only when the task is pending and leaves its status |
| TaskStore.Store.RetryTask | internal/db/sqlite.go:353-362 | moves the task to in progress only when it is failed |
| TaskStore.Store.UpdateTaskStatus | internal/db/sqlite.go:299-308 | sets the status of an existing task whatever it was |
| TaskStore.Store.ReconcileInterrupted | internal/db/sqlite.go:1028-1054 | sets every active session to failed and every task in progress back to pending, and counts both |
| TaskStore.Store.GetReadyTasks | internal/db/sqlite.go:388-415 | exactly the job's pending tasks without an uncompleted dependency, each once, by sort order and then creation time |
| TaskStore.Store.SaveCheckpoint | internal/db/checkpoints.go:35-49 | the thread's one checkpoint becomes the new one |
| TaskStore.Store.LoadCheckpoint | internal/db/checkpoints.go:53-68 | the last saved checkpoint, or none |
| TaskStore.Store.DeleteCheckpoint | internal/db/checkpoints.go:72-78 | the thread has no checkpoint and the others are untouched |
| TaskInvariants.StepKeeps | internal/graphexec/executor.go:415-578 | every step of every actor keeps the invariant: one live run per task, the serial gate, the checkpoint, dependency and wake-up clauses |
| TaskInvariants.ReachableInv | internal/graphexec/executor.go:415-578 | the invariant holds in every state that any interleaving with crashes reaches |
| TaskInvariants.StartTaskKeeps | internal/operator/system_tools.go:536-558 | starting a task after the gate keeps the job serial although the check was an earlier step |
| TaskInvariants.RestartTaskKeeps | internal/operator/system_tools.go:686-703 | so does restarting a failed task |
| TaskInvariants.SettleKeeps | internal/graphexec/executor.go:503-553 | an unguarded terminal write keeps the invariant, because only the one live run of a task makes it |
| TaskInvariants.SaveKeeps | internal/db/checkpoints.go:35-49 | a node's save keeps the invariant: no other run of the task relies on there being no checkpoint |
| TaskInvariants.WaiterIsReady | internal/db/sqlite.go:388-415 | a task that waits behind a sibling is among the ready tasks whenever it is pending, also after a crash |
| TaskInvariants.QueryTold | internal/graphexec/executor.go:555-565 | so the ready query of the completing sibling answers for every task still waiting behind it |
| TaskInvariants.BootKeeps | internal/db/sqlite.go:1039-1054 | a restart keeps the invariant |
| TaskProperties.OneTaskPerJob | internal/operator/system_tools.go:536-558 | in every reachable state a job has at most one task in progress |
| TaskProperties.CheckpointConsistent | internal/graphexec/executor.go:490-527 | in every reachable state completed and cancelled tasks have no checkpoint, and a failed task has one only if its last failure was in dispatch |
| TaskProperties.RetryRunsFresh | internal/graphexec/executor.go:450-465 | a run that retries a failed run finds no checkpoint and does not resume |
| TaskProperties.DependenciesFirst | internal/db/sqlite.go:387-415 | every task that was ever dispatched, and every task past pending, has all its dependencies completed, so completed tasks are closed under dependencies |
| TaskProperties.NoOrphan | internal/graphexec/executor.go:631-653 | while the executor accepts work every task in progress has a goroutine that will write its status, or is about to get one |
| TaskProperties.LifeCycle | internal/db/sqlite.go:299-362 | statuses move only along pending, in progress and terminal; only a restart goes back to pending |
| TaskProperties.Absorbing | internal/graphexec/executor.go:480-483 | completed and cancelled tasks stay so for ever |
| TaskProperties.NoLostWakeUp | internal/graphexec/executor.go:549-575 | every completion event of a sibling that a task was queued or deferred behind says that a task is ready, unless the waiting task was not pending when the event was computed |
| TaskProperties.QueuedIsReady | internal/operator/operator.go:613-669 | whenever the queued task is pending, also after a crash, it is ready with its graph, and an advance of its job takes it exactly when no other such task of the job is ahead in sort order and creation time |
| TaskProperties.FirstExists | internal/operator/operator.go:629-641 | an advance that finds a ready task with a graph has a first one to take |
| TaskProperties.ReadyCanStart | internal/operator/operator.go:613-669 | in an idle job that is being advanced the operator's steps start the first ready task that has a graph, by sort order and creation time |
| TaskProperties.RestartRequeues | internal/operator/operator.go:671-707 | after a crash and restart every interrupted task is ready again with its graph and its checkpoint, and nothing is in progress |
| TaskProperties.ResumableIff | internal/graphexec/executor.go:475-527 | a cancelled run leaves its task and checkpoint for the next start exactly when the executor is already draining; otherwise the task ends cancelled without a checkpoint |
| TaskProperties.ShutdownResumable | internal/graphexec/executor.go:475-488 | if draining was set before a cancelled run came back, then whatever happens until the process exits, the next start finds the task ready with its checkpoint |
| TaskCancellation.EndCancelsIff | internal/graphexec/executor.go:235-243 | endTask of one run cancels another exactly when that one holds the handle of the task id by then |
| TaskCancellation.BeginOrderlyIff | internal/graphexec/executor.go:219-232 | registering leaves every run in possession of its own handle exactly when the task id had none |
| TaskCancellation.NoSpuriousCancel | internal/graphexec/executor.go:219-268 | without a cancellation, and as long as no run registers while its task id has a handle, no run is ever cancelled |
| TaskCancellation.TakeOverCancelsIff | internal/graphexec/executor.go:219-243 | the steps of runs that nobody cancelled can get a registering run cancelled exactly when its task id had a handle as it registered |
| TaskProgress.StepProgress | internal/operator/operator.go:379-448 | every step keeps the progress invariant: an interrupted or queued task has something that will get to it, or its job's chain is known to be broken |
| TaskProgress.NobodyStranded | internal/operator/system_tools.go:542-553 | in every reachable state a pending task that a crash interrupted, or that the operator queued or the service deferred behind a sibling in progress, has a task of its job in progress, a completed run of the job yet to tell, such an event in the channel, the operator or the recovery sweep on its way, or a broken chain |
| TaskProgress.BreaksOnlyBy | internal/service/local_broadcast_jobs.go:224-295 | a chain breaks only when a run of the job fails or is cancelled, its dispatch fails, its event is given up, the operator's advance fails, or a restart finds the job inactive |
| TaskProgress.HeadStartsQueued | internal/operator/operator.go:434-436 | when such an event is at the head of the channel, a task waits and its job is idle, there is a first ready task with a graph, receiving the event and the operator's next steps start it whichever it is, and it is the waiting task itself exactly when none is ahead |
| TaskRecovery.RestartResumesIff | internal/operator/operator.go:671-707 | after a crash and restart the operator by itself can start an interrupted task exactly when its job was marked active at the crash and no other ready task of the job with a graph is ahead of it |
| TaskRecovery.RestartMovesJobIff | internal/operator/operator.go:671-707 | after a crash that interrupted a task of a job and the restart, the operator by itself can start some waiting task of the job exactly when the job was marked active |
| TaskTraces.CancelledByShutdown | internal/service/local.go:244-251 | in the order of Shutdown a run can come back between the cancellation and the drain; its task is then cancelled for ever and loses its checkpoint |
| TaskTraces.DispatchFailureKeepsCheckpoint | internal/graphexec/executor.go:718-737 | a task that a crash left with a checkpoint and that then fails in dispatch keeps it, and its retry resumes from it |
| TaskTraces.DispatchedBeforeAsked | internal/graphexec/executor.go:555-575 | a completion event can say that nothing is ready although a task is queued behind it: the event of an earlier sibling, received first, has started that task |
| TaskTraces.CrashBeforePromotionStrands | internal/operator/system_tools.go:556-598 | a crash between the start of a task and the promotion of its job leaves the task ready with its graph in a system at rest |
| TaskTraces.EarlierTaskRestartsFirst | internal/operator/operator.go:635-641 | in an active job a restart can leave the interrupted task waiting and start an older one that was queued when the task ahead of it failed |
| TaskTraces.StaleEndTaskCancelsRetry | internal/graphexec/executor.go:235-243 | a retry that begins before the failed run's endTask is cancelled by it, although nobody cancelled anything |
| Executor.Collect | internal/graphexec/executor.go:261-266 | the loop gathers the runs under the job's handles and counts the handles |
| Executor.ExecuteMeans | internal/graphexec/executor.go:415-578 | the order of Execute's store operations, replayed as steps of the system, leaves exactly the store that Execute promises |
| Executor.FollowsReach | internal/graphexec/executor.go:641-653 | the state that an executor carries is the one its trace of steps leads to |
| Executor.Executor.constructor | internal/graphexec/executor.go:162-189 | a new executor has no registered run and does not drain, whatever goroutines have been spawned |
| Executor.Executor.BeginTask | internal/graphexec/executor.go:219-232 | refuses while draining, else registers the run under its task id with the lifetime's cancellation |
| Executor.Executor.EndTask | internal/graphexec/executor.go:235-243 | cancels and removes whatever handle the task id maps to |
| Executor.Executor.CancelJob | internal/graphexec/executor.go:257-268 | cancels every registered run of the job and counts the handles |
| Executor.Executor.Drain | internal/graphexec/executor.go:274-277 | sets the draining flag |
| Executor.Executor.RunGraph | internal/graphexec/executor.go:441-488 | loads, saves after every node, and stops before the store when a cancelled run meets a draining executor |
| Executor.Executor.Finish | internal/graphexec/executor.go:490-577 | deletes the checkpoint, writes the status, asks for ready tasks and tells the operator, in that order; nothing is told about a cancelled task |
| Executor.Executor.Execute | internal/graphexec/executor.go:415-578 | ends with the task completed, failed or cancelled and no checkpoint, or, in a shutdown, with the task in progress and its last checkpoint |
| Executor.Executor.FailDispatch | internal/graphexec/executor.go:718-737 | marks the task failed, tells the operator and leaves the checkpoint alone |
| Executor.Executor.ExecuteTask | internal/graphexec/executor.go:641-653 | taken by itself a dispatch ends in a terminal status, which the operator is told unless it is a cancellation or the send is given up, and releases its registration |
| SystemTools.GateSerial | internal/operator/system_tools.go:536-558 | the gate's write, whichever it is, keeps a serial job serial |
| SystemTools.DispatchMeans | internal/operator/system_tools.go:536-558 | listing and writing as two steps of the system, uninterrupted, is the gate of the code |
| SystemTools.RetryMeans | internal/operator/system_tools.go:681-703 | the same for a retry |
| SystemTools.ComesLast | internal/operator/system_tools.go:434-446 | in a job whose sort orders stay below the number of its tasks, a new task comes after all the others whatever the gate does to it, and the sort orders still do |
| SystemTools.SystemTools.FindBusy | internal/operator/system_tools.go:542-553 | finds another task of the job in progress exactly when there is one |
| SystemTools.SystemTools.DispatchGraphTask | internal/operator/system_tools.go:519-623 | starts the task exactly when the graph is known, no sibling runs and the task is pending; queues it behind a running sibling; refuses without a trace otherwise |
| SystemTools.SystemTools.CreateTask | internal/operator/system_tools.go:387-470 | refuses finished jobs and unknown graphs before creating anything; the new task has the number of its siblings as sort order, and with a graph it is started or queued |
| SystemTools.SystemTools.AssignTask | internal/operator/system_tools.go:472-513 | starts or queues a pending task of an unfinished job and refuses anything else without a trace |
| SystemTools.SystemTools.RetryTask | internal/operator/system_tools.go:630-735 | restarts a failed task on the given or its old graph exactly when no sibling runs, and changes nothing otherwise |
| SystemTools.SystemTools.AssignNextTask | internal/operator/operator.go:613-669 | does nothing exactly when no ready task has a graph; otherwise it refuses for a finished job or an unknown graph, queues behind a busy sibling, and in every other case starts the first ready task that has a graph |
| SystemTools.SystemTools.CheckJobComplete | internal/operator/operator.go:721-765 | a job is done exactly when it has tasks and all of them are terminal |
| Broker.SendNeverBlocks | internal/hitl/broker.go:84-100 | in every interleaving a question gets at most one response, so the send never blocks, and the answer that comes back is that response |
| Broker.LiveQuestionIsPending | internal/hitl/broker.go:42-82 | with ids never used again a waiting question without a response can be answered |
| Broker.CleanupStrandsIff | internal/hitl/broker.go:76-80 | the cleanup of a cancelled question strands another one exactly when that one waits under the same id |
| Broker.ReusedIdStrands | internal/hitl/broker.go:42-82 | and with a reused id that can happen |

## Left out

- WorkerSession.Session.Compact: the marker row's text omits the token counts and the number of elisions, which no property depends on.
- WorkerSession.Session.CollectResponse: does not model the accumulated token totals or the text events sent to subscribers.
- WorkerSession.Session.Run: the retry's turn-- followed by the loop's turn++ is written as not advancing the turn.
- OperatorSession.Operator.HandleUserMessage: does not model the guard against a second create_job in one turn, the streamed text or the turn counters.
- OperatorSession.Operator.MaybeCompact: the digest and narrative are an arbitrary string, and pruning of old archives is not modelled.
- Truncate.TruncateResult: takes the slimmed result and what it decodes to; slimming itself is not idempotent and not modelled.
- Truncate.TruncateJSONObject: the order in which the program visits a map's keys is the order of the model's field list.
- GraphDefinition.Validate: blank tests use ASCII white space, and the error texts are not modelled.
- GraphRun.Compile: building a role, checking slots and schemas, and what the graph builder refuses are parameters.
- GraphRun.OneMoreExecution: the resume hint that the re-run node receives is not part of the state.
- Fanout.ReduceAndPromote: a promotion that fails is not modelled, nor are the branch workspaces themselves.
- TaskStore.Store.GetReadyTasks: tasks of equal sort order and creation time come in any order, as SQL leaves them.
- TaskStore.Store.UpdateTaskStatus: summaries, results, metadata and timestamps of rows are not modelled.
- Executor.Executor.Drain: the wait for goroutines and its timeout are not modelled.
- TaskProgress.NobodyStranded: promises nothing for a task that the service defers after the sibling it saw in progress has ended (internal/service/decompose.go:348-360), until that task is dispatched or queued.
- A decomposition graph's completion, which the service consumes instead of telling the operator (internal/service/local_broadcast_jobs.go:224-228), and replacing the operator while the service runs (internal/service/local_operator.go:249-360).
- Executor.Executor.ExecuteTask: states the effect of one goroutine that nobody disturbs; interleavings belong to the step system.
- SystemTools.SystemTools.CreateTask: titles, descriptions, workspaces and job status promotion are not modelled.
- The service's own dispatch, retry, cancel sweep and fine-decompose writes (internal/service/decompose.go:315-369, internal/service/local_jobs.go:137-183) and workers that set arbitrary statuses through update_task_status: they would break the task invariant from outside the modelled actors.
- A fresh run when checkpointing is disabled or a checkpoint cannot be read.
- Retries, panics and timeouts of single node attempts, which rhizome's middleware handles inside one node step.
- Whether a job marked completed has no running task: retryTask does not look at the job's status.
- HTTP, events to clients, SQL, the file system, MCP transports, shell, time and prompts: they are the environment, or parameters.
- The event ring, provider scheduler, text batcher, skill shadowing and URL builders: only easy members.
