/** The actors around the task store as a step system: the operator's event loop with its
    separate reads and guarded writes, the executor's goroutines, the service that adds tasks
    and dependencies, and crash and restart. A step whose turn it is not changes nothing. */
module TaskSystem {
  import opened TaskStore

  /** What last marked a task failed. */
  datatype Cause = DispatchFailure | RunFailure

  datatype Origin = Dispatched | Retried(cause: Cause)

  /** How far the operator is inside createTask, assignTask or retryTask. */
  datatype Op =
    | Idle
    | Chosen(task: string, graph: string)
    | Checked(task: string, graph: string)
    | BlockedBy(task: string, graph: string, sibling: string)
    | Clear(task: string, graph: string)
    | RetryChecked(task: string, graph: string)
    | RetryClear(task: string, graph: string)
    | Spawning(task: string, origin: Origin)
    | Promoting(task: string)

  /** What the event loop is doing: waiting for the next event, advancing a job to its next
      task, or in a turn of the model. */
  datatype Mode = Listening | Advancing(job: string) | Talking

  datatype Event =
    | TaskCompleted(task: string, job: string, hasNext: bool)
    | TaskFailed(task: string)
    | UserMessage

  const EVENT_BUFFER: nat := 256

  /** The event loop besides the tool it is in: its mode, the jobs the recovery sweep at boot
      has still to visit, and the buffered event channel. */
  datatype Loop = Loop(mode: Mode, todo: set<string>, inbox: seq<Event>)

  /** How far a goroutine is inside ExecuteTask. */
  datatype Pc =
    | Beginning
    | Preparing
    | Loading
    | Running(resumed: bool)
    | Returned(ok: bool)
    | Dropping(ok: bool)
    | Writing(ok: bool)
    | Refusing(registered: bool)
    | Querying
    | Posting(hasNext: bool, gone: set<string>)
    | PostingFailed(registered: bool)
    | Ending(registered: bool)

  datatype Run = Run(task: string, pc: Pc, cancelled: bool, origin: Origin)

  /** A posted completion event, with the tasks that were not pending when it was computed. */
  datatype Completion = Completion(task: string, hasNext: bool, gone: set<string>)

  /** Why nothing moves a job on by itself. */
  datatype Break = RunFailed | RunCancelled | DispatchFailed | Abandoned | EventLost | JobNotActive

  /** History: only other bookkeeping, namely the origin of a run, is computed from it. */
  datatype Ledger = Ledger(
    left: set<string>, failedBy: map<string, Cause>, queued: set<(string, string)>, posted: set<Completion>,
    broken: map<string, Break>)

  /** The store's rows, checkpoints and active jobs; the process and its two halves. */
  datatype State = State(
    tasks: Tasks, checkpoints: Checkpoints, active: set<string>,
    up: bool, draining: bool, lifetimeOver: bool,
    op: Op, loop: Loop, runs: map<nat, Run>, running: map<string, nat>,
    ledger: Ledger)

  datatype OpStep =
    | SweepJob(job: string)
    | ReceiveEvent
    | ChooseReady(task: string)
    | FindNothing
    | CreateIn(task: string, job: string, graph: string, rank: Rank)
    | CheckPending
    | ListSiblings(sibling: string)
    | WriteGuarded
    | RetryFailed(task: string, graph: string)
    | SpawnRun(r: nat)
    | PromoteJob(pending: bool)
    | Abandon
    | EndTurn

  datatype RunStep =
    | Begin
    | Prepare(ok: bool)
    | Load
    | Save(checkpoint: Checkpoint)
    | Return(ok: bool)
    | Judge
    | Drop
    | Write
    | Query
    | Post(sent: bool)
    | End

  datatype OuterStep =
    | CancelJob(job: string)
    | EndLifetime
    | StartDrain
    | Crash
    | UserSpeaks
    | SetJobActive(job: string, active: bool)
    | ServiceCreate(task: string, job: string, rank: Rank)
    | ServiceDepend(task: string, on: string)
    | ServicePreAssign(task: string, graph: string, sibling: string)

  datatype Action = Operator(op: OpStep) | Goroutine(r: nat, step: RunStep) | Outside(outer: OuterStep) | Boot

  function NewLedger(): Ledger {
    Ledger({}, map[], {}, {}, map[])
  }

  function Fresh(): State {
    State(map[], map[], {}, false, false, false, Idle, Loop(Listening, {}, []), map[], map[], NewLedger())
  }

  // ---------------------------------------------------------------- the event loop

  /** The step writes no row and no queue: it changes at most the operator's own place, the
      jobs marked active and the account of broken chains. */
  predicate OnlyLooks(s: State, s': State) {
    && s' == s.(op := s'.op, loop := s'.loop, active := s'.active, ledger := s.ledger.(broken := s'.ledger.broken))
    && !(s'.op.Spawning? && s'.op != s.op)
  }

  /** A task that assignNextTask would dispatch. */
  predicate Graphed(tasks: Tasks, t: string, job: string) {
    ReadyIn(tasks, t, job) && tasks[t].graph != ""
  }

  predicate AnyGraphed(tasks: Tasks, job: string) {
    exists t :: t in tasks && Graphed(tasks, t, job)
  }

  /** Another task of the job would be dispatched before this one. */
  predicate Overtaken(tasks: Tasks, t: string, job: string)
    requires t in tasks
  {
    exists u :: u in tasks && Graphed(tasks, u, job) && Before(tasks[u].rank, tasks[t].rank)
  }

  /** The task that assignNextTask takes: the first that has a graph. */
  predicate FirstGraphed(tasks: Tasks, t: string, job: string) {
    Graphed(tasks, t, job) && !Overtaken(tasks, t, job)
  }

  predicate AtRest(s: State) {
    s.op.Idle? && s.loop.mode.Listening?
  }

  /** recoverInterrupted: one advance for each job that was active at boot and has a ready
      task with a graph. */
  function Sweep(s: State, job: string): (s': State)
    ensures OnlyLooks(s, s')
  {
    if AtRest(s) && job in s.loop.todo then
      s.(loop := s.loop.(todo := s.loop.todo - {job},
                         mode := if AnyGraphed(s.tasks, job) then Advancing(job) else Listening))
    else s
  }

  predicate JobDone(tasks: Tasks, job: string) {
    forall t :: t in tasks && tasks[t].job == job ==>
      tasks[t].status == Completed || tasks[t].status == Failed || tasks[t].status == Cancelled
  }

  /** A completion with a next task advances the job, one without needs no turn, and anything
      else goes to the model. */
  function ModeFor(e: Event): Mode {
    match e
    case TaskCompleted(_, job, hasNext) => if hasNext then Advancing(job) else Listening
    case _ => Talking
  }

  /** A completion without a next task closes the job when all its tasks are terminal. */
  function Closed(tasks: Tasks, active: set<string>, e: Event): set<string> {
    if e.TaskCompleted? && !e.hasNext && JobDone(tasks, e.job) then active - {e.job} else active
  }

  /** The head of the channel, once the recovery sweep is over. */
  function Receive(s: State): (s': State)
    ensures OnlyLooks(s, s')
  {
    if AtRest(s) && s.loop.todo == {} && s.loop.inbox != [] then
      s.(loop := s.loop.(inbox := s.loop.inbox[1..], mode := ModeFor(s.loop.inbox[0])),
         active := Closed(s.tasks, s.active, s.loop.inbox[0]))
    else s
  }

  /** A failed advance is reported to the model; nothing tries again by itself. */
  function Report(s: State): (s': State)
    ensures OnlyLooks(s, s')
  {
    if s.loop.mode.Advancing? then
      s.(op := Idle, loop := s.loop.(mode := Talking),
         ledger := s.ledger.(broken := s.ledger.broken[s.loop.mode.job := Abandoned]))
    else s.(op := Idle)
  }

  /** An advance that has done its work goes back to the channel; a turn goes on. */
  function Finished(loop: Loop): Loop {
    if loop.mode.Advancing? then loop.(mode := Listening) else loop
  }

  // ---------------------------------------------------------------- the operator's tools

  /** assignNextTask takes the first ready task that has a graph. */
  function Choose(s: State, t: string): (s': State)
    ensures OnlyLooks(s, s')
  {
    if s.op.Idle? && s.loop.mode.Advancing? && FirstGraphed(s.tasks, t, s.loop.mode.job) then
      s.(op := Chosen(t, s.tasks[t].graph))
    else s
  }

  /** It gives up silently when there is none. */
  function GiveUp(s: State): (s': State)
    ensures OnlyLooks(s, s')
  {
    if s.op.Idle? && s.loop.mode.Advancing? && !AnyGraphed(s.tasks, s.loop.mode.job) then
      s.(loop := s.loop.(mode := Listening))
    else s
  }

  /** createTask, called by the model; with a graph it goes on to dispatch. The rank is the
      number of siblings it has read and the time. */
  function CreateTask(s: State, t: string, job: string, graph: string, rank: Rank): State {
    if !s.op.Idle? || !s.loop.mode.Talking? || t in s.tasks then s
    else s.(tasks := Create(s.tasks, t, job, rank), op := if graph == "" then Idle else Checked(t, graph))
  }

  /** assignTask refuses a task that is no longer pending. */
  function Check(s: State): (s': State)
    ensures OnlyLooks(s, s')
  {
    if !s.op.Chosen? then s
    else if Has(s.tasks, s.op.task, Pending) then s.(op := Checked(s.op.task, s.op.graph))
    else Report(s)
  }

  /** The serial gate: list the job's tasks and look for one in progress. */
  function List(s: State, x: string): (s': State)
    ensures OnlyLooks(s, s')
  {
    if s.op.Checked? then
      if Busy(s.tasks, s.op.task, x) then s.(op := BlockedBy(s.op.task, s.op.graph, x))
      else if AnyBusy(s.tasks, s.op.task) then s
      else s.(op := Clear(s.op.task, s.op.graph))
    else if s.op.RetryChecked? then
      s.(op := if AnyBusy(s.tasks, s.op.task) then Idle else RetryClear(s.op.task, s.op.graph))
    else s
  }

  function OriginOf(s: State, t: string): Origin {
    if t in s.ledger.failedBy then Retried(s.ledger.failedBy[t]) else Dispatched
  }

  /** A sibling is in progress: record the graph and leave the task queued behind it. */
  function QueueTask(s: State, t: string, graph: string, x: string): State {
    s.(tasks := PreAssign(s.tasks, t, graph), op := Idle, loop := Finished(s.loop),
       ledger := s.ledger.(queued := s.ledger.queued + {(t, x)}))
  }

  function StartTask(s: State, t: string, graph: string): State
    requires t in s.tasks
  {
    s.(tasks := Assign(s.tasks, t, graph), op := Spawning(t, Dispatched),
       ledger := s.ledger.(left := s.ledger.left + {t}, broken := s.ledger.broken - {s.tasks[t].job}))
  }

  function RestartTask(s: State, t: string, graph: string): State
    requires t in s.tasks
  {
    s.(tasks := TaskStore.Retry(s.tasks, t, graph), op := Spawning(t, OriginOf(s, t)),
       ledger := s.ledger.(broken := s.ledger.broken - {s.tasks[t].job}))
  }

  /** The guarded write that the gate decided on. */
  function GuardedWrite(s: State): (s': State)
    ensures s' == s.(tasks := s'.tasks, op := s'.op, loop := s'.loop, ledger := s'.ledger)
    ensures s'.op.Idle? || s'.op == s.op || (s'.op.Spawning? && Has(s'.tasks, s'.op.task, InProgress))
    ensures s'.op.Spawning? && s'.op != s.op ==> !Has(s.tasks, s'.op.task, InProgress)
  {
    match s.op
    case BlockedBy(t, g, x) => if Has(s.tasks, t, Pending) then QueueTask(s, t, g, x) else Report(s)
    case Clear(t, g) => if Has(s.tasks, t, Pending) then StartTask(s, t, g) else Report(s)
    case RetryClear(t, g) => if Has(s.tasks, t, Failed) then RestartTask(s, t, g) else Report(s)
    case _ => s
  }

  /** retryTask, called by the model, reads a failed task; the graph defaults to the one it
      failed on. */
  function StartRetry(s: State, t: string, graph: string): (s': State)
    ensures OnlyLooks(s, s')
  {
    if s.op.Idle? && s.loop.mode.Talking? && Has(s.tasks, t, Failed) then
      var g := if graph == "" then s.tasks[t].graph else graph;
      if g == "" then s else s.(op := RetryChecked(t, g))
    else s
  }

  /** The goroutine starts; after a dispatch the job's status is still to be promoted. */
  function Spawn(s: State, r: nat): State {
    if s.op.Spawning? && r !in s.runs then
      s.(op := if s.op.origin.Dispatched? then Promoting(s.op.task) else Idle,
         runs := s.runs[r := Run(s.op.task, Beginning, false, s.op.origin)])
    else s
  }

  /** Only a job that had been read as pending is marked active. */
  function Promote(s: State, pending: bool): (s': State)
    ensures OnlyLooks(s, s')
  {
    if s.op.Promoting? && s.op.task in s.tasks then
      s.(op := Idle, loop := Finished(s.loop),
         active := if pending then s.active + {s.tasks[s.op.task].job} else s.active)
    else s
  }

  /** Any error before the guarded write: a failed read, unknown graph, finished job, bad
      workspace. */
  function Abort(s: State): (s': State)
    ensures OnlyLooks(s, s')
  {
    if s.op.Chosen? || s.op.Checked? || s.op.RetryChecked? || (s.op.Idle? && s.loop.mode.Advancing?) then Report(s)
    else s
  }

  function EndTalk(s: State): (s': State)
    ensures OnlyLooks(s, s')
  {
    if s.op.Idle? && s.loop.mode.Talking? then s.(loop := s.loop.(mode := Listening)) else s
  }

  // ---------------------------------------------------------------- the executor

  function At(s: State, r: nat, pc: Pc): State
    requires r in s.runs
  {
    s.(runs := s.runs[r := s.runs[r].(pc := pc)])
  }

  function BeginTask(s: State, r: nat): State
    requires r in s.runs
  {
    if !s.runs[r].pc.Beginning? then s
    else if s.draining then At(s, r, Refusing(false))
    else s.(running := s.running[s.runs[r].task := r],
            runs := s.runs[r := s.runs[r].(pc := Preparing, cancelled := s.lifetimeOver)])
  }

  function PrepareTask(s: State, r: nat, ok: bool): State
    requires r in s.runs
  {
    if !s.runs[r].pc.Preparing? then s
    else At(s, r, if ok then Loading else Refusing(true))
  }

  function LoadCheckpoint(s: State, r: nat): State
    requires r in s.runs
  {
    if !s.runs[r].pc.Loading? then s
    else At(s, r, Running(s.runs[r].task in s.checkpoints))
  }

  function SaveCheckpoint(s: State, r: nat, c: Checkpoint): State
    requires r in s.runs
  {
    if !s.runs[r].pc.Running? then s
    else s.(checkpoints := s.checkpoints[s.runs[r].task := c])
  }

  function ReturnFromGraph(s: State, r: nat, ok: bool): State
    requires r in s.runs
  {
    if !s.runs[r].pc.Running? then s else At(s, r, Returned(ok))
  }

  /** A cancelled run of a draining executor stops here, before it touches the store. */
  function JudgeShutdown(s: State, r: nat): State
    requires r in s.runs
  {
    if !s.runs[r].pc.Returned? then s
    else if !s.runs[r].pc.ok && s.runs[r].cancelled && s.draining then At(s, r, Ending(true))
    else At(s, r, Dropping(s.runs[r].pc.ok))
  }

  function DropCheckpoint(s: State, r: nat): State
    requires r in s.runs
  {
    if !s.runs[r].pc.Dropping? then s
    else At(s, r, Writing(s.runs[r].pc.ok)).(checkpoints := s.checkpoints - {s.runs[r].task})
  }

  function Settle(s: State, r: nat, status: Status, pc: Pc): State
    requires r in s.runs
  {
    At(s, r, pc).(tasks := SetStatus(s.tasks, s.runs[r].task, status))
  }

  function JobOf(tasks: Tasks, t: string): string {
    if t in tasks then tasks[t].job else ""
  }

  /** The chain of the run's job breaks. */
  function Broken(s: State, r: nat, cause: Break): Ledger
    requires r in s.runs
  {
    s.ledger.(broken := s.ledger.broken[JobOf(s.tasks, s.runs[r].task) := cause])
  }

  function Fail(s: State, r: nat, cause: Cause, registered: bool): State
    requires r in s.runs
  {
    var why := if cause.RunFailure? then RunFailed else DispatchFailed;
    Settle(s, r, Failed, PostingFailed(registered)).(
      ledger := Broken(s, r, why).(failedBy := s.ledger.failedBy[s.runs[r].task := cause]))
  }

  function CancelTask(s: State, r: nat): State
    requires r in s.runs
  {
    Settle(s, r, Cancelled, Ending(true)).(ledger := Broken(s, r, RunCancelled))
  }

  /** The terminal status, from Execute or from failDispatch. */
  function WriteStatus(s: State, r: nat): State
    requires r in s.runs
  {
    match s.runs[r].pc
    case Writing(ok) =>
      if ok then Settle(s, r, Completed, Querying)
      else if s.runs[r].cancelled then CancelTask(s, r)
      else Fail(s, r, RunFailure, true)
    case Refusing(registered) => Fail(s, r, DispatchFailure, registered)
    case _ => s
  }

  function NotPending(tasks: Tasks): set<string> {
    set t | t in tasks && tasks[t].status != Pending
  }

  function QueryReady(s: State, r: nat): State
    requires r in s.runs
  {
    if !s.runs[r].pc.Querying? then s
    else At(s, r, Posting(AnyReady(s.tasks, JobOf(s.tasks, s.runs[r].task)), NotPending(s.tasks)))
  }

  /** A send succeeds while the channel has room. It is given up, and the event lost, when the
      channel stays full or the service's lifetime ends. */
  predicate SendEnds(s: State, sent: bool) {
    if sent then |s.loop.inbox| < EVENT_BUFFER else |s.loop.inbox| >= EVENT_BUFFER || s.lifetimeOver
  }

  function Deliver(loop: Loop, e: Event, sent: bool): Loop {
    if sent then loop.(inbox := loop.inbox + [e]) else loop
  }

  function PostCompletion(s: State, r: nat, hasNext: bool, gone: set<string>, sent: bool): State
    requires r in s.runs
  {
    var t := s.runs[r].task;
    At(s, r, Ending(true)).(
      loop := Deliver(s.loop, TaskCompleted(t, JobOf(s.tasks, t), hasNext), sent),
      ledger := (if sent then s.ledger else Broken(s, r, EventLost)).(
                  posted := s.ledger.posted + {Completion(t, hasNext, gone)}))
  }

  function PostFailure(s: State, r: nat, registered: bool, sent: bool): State
    requires r in s.runs
  {
    At(s, r, Ending(registered)).(loop := Deliver(s.loop, TaskFailed(s.runs[r].task), sent))
  }

  function PostEvent(s: State, r: nat, sent: bool): State
    requires r in s.runs
  {
    if !SendEnds(s, sent) then s
    else
      match s.runs[r].pc
      case Posting(hasNext, gone) => PostCompletion(s, r, hasNext, gone, sent)
      case PostingFailed(registered) => PostFailure(s, r, registered, sent)
      case _ => s
  }

  function CancelRuns(runs: map<nat, Run>, which: set<nat>): map<nat, Run> {
    map r | r in runs :: if r in which then runs[r].(cancelled := true) else runs[r]
  }

  /** endTask cancels whatever handle the task id maps to. */
  function EndTask(s: State, r: nat): State
    requires r in s.runs
  {
    if !s.runs[r].pc.Ending? then s
    else
      var t := s.runs[r].task;
      if s.runs[r].pc.registered && t in s.running then
        s.(runs := CancelRuns(s.runs, {s.running[t]}) - {r}, running := s.running - {t})
      else s.(runs := s.runs - {r})
  }

  /** The runs whose cancel functions are registered under tasks of the job. */
  function HandlesOf(s: State, job: string): set<nat> {
    set t | t in s.running && t in s.tasks && s.tasks[t].job == job :: s.running[t]
  }

  function CancelJobRuns(s: State, job: string): State {
    s.(runs := CancelRuns(s.runs, HandlesOf(s, job)))
  }

  function EndService(s: State): State {
    s.(lifetimeOver := true, runs := CancelRuns(s.runs, s.runs.Keys))
  }

  // ---------------------------------------------------------------- process and service

  function CrashProcess(s: State): State {
    s.(up := false, draining := false, lifetimeOver := false,
       op := Idle, loop := Loop(Listening, {}, []), runs := map[], running := map[])
  }

  /** Reconcile the rows, then let the recovery sweep visit the active jobs. It passes over
      the others. */
  function BootProcess(s: State): State {
    s.(up := true, tasks := Reconcile(s.tasks), loop := Loop(Listening, s.active, []),
       ledger := s.ledger.(
         broken := map t | t in s.tasks && s.tasks[t].job !in s.active :: s.tasks[t].job := JobNotActive))
  }

  function Speak(s: State): State {
    if |s.loop.inbox| < EVENT_BUFFER then s.(loop := s.loop.(inbox := s.loop.inbox + [UserMessage])) else s
  }

  predicate Targets(op: Op, t: string) {
    !op.Idle? && op.task == t
  }

  /** Dependencies are added to tasks that nobody has given a graph yet. */
  function DependTask(s: State, t: string, on: string): State {
    if Has(s.tasks, t, Pending) && s.tasks[t].graph == "" && !Targets(s.op, t) then
      s.(tasks := Depend(s.tasks, t, on))
    else s
  }

  /** The service records the graph of a task behind a sibling that it has seen in progress.
      When the sibling still is, and the task is ready, the task waits like one that the operator
      has queued. */
  function PreAssignFromService(s: State, t: string, graph: string, x: string): State {
    if graph == "" then s
    else s.(tasks := PreAssign(s.tasks, t, graph),
            ledger := if Busy(s.tasks, t, x) && Ready(s.tasks, t) then
                        s.ledger.(queued := s.ledger.queued + {(t, x)})
                      else s.ledger)
  }

  function OpNext(s: State, a: OpStep): State {
    match a
    case SweepJob(job) => Sweep(s, job)
    case ReceiveEvent => Receive(s)
    case ChooseReady(t) => Choose(s, t)
    case FindNothing => GiveUp(s)
    case CreateIn(t, job, graph, rank) => CreateTask(s, t, job, graph, rank)
    case CheckPending => Check(s)
    case ListSiblings(x) => List(s, x)
    case WriteGuarded => GuardedWrite(s)
    case RetryFailed(t, graph) => StartRetry(s, t, graph)
    case SpawnRun(r) => Spawn(s, r)
    case PromoteJob(pending) => Promote(s, pending)
    case Abandon => Abort(s)
    case EndTurn => EndTalk(s)
  }

  function RunNext(s: State, r: nat, a: RunStep): State
    requires r in s.runs
  {
    match a
    case Begin => BeginTask(s, r)
    case Prepare(ok) => PrepareTask(s, r, ok)
    case Load => LoadCheckpoint(s, r)
    case Save(c) => SaveCheckpoint(s, r, c)
    case Return(ok) => ReturnFromGraph(s, r, ok)
    case Judge => JudgeShutdown(s, r)
    case Drop => DropCheckpoint(s, r)
    case Write => WriteStatus(s, r)
    case Query => QueryReady(s, r)
    case Post(sent) => PostEvent(s, r, sent)
    case End => EndTask(s, r)
  }

  function OuterNext(s: State, a: OuterStep): State {
    match a
    case CancelJob(job) => CancelJobRuns(s, job)
    case EndLifetime => EndService(s)
    case StartDrain => s.(draining := true)
    case Crash => CrashProcess(s)
    case UserSpeaks => Speak(s)
    case SetJobActive(job, active) => s.(active := if active then s.active + {job} else s.active - {job})
    case ServiceCreate(t, job, rank) => s.(tasks := Create(s.tasks, t, job, rank))
    case ServiceDepend(t, on) => DependTask(s, t, on)
    case ServicePreAssign(t, graph, x) => PreAssignFromService(s, t, graph, x)
  }

  /** Nothing but a boot happens while the process is down. */
  function Next(s: State, a: Action): State {
    if !s.up then (if a.Boot? then BootProcess(s) else s)
    else
      match a
      case Operator(op) => OpNext(s, op)
      case Goroutine(r, step) => if r in s.runs then RunNext(s, r, step) else s
      case Outside(outer) => OuterNext(s, outer)
      case Boot => s
  }

  function Reach(s: State, actions: seq<Action>): State
    decreases actions
  {
    if actions == [] then s else Reach(Next(s, actions[0]), actions[1..])
  }
}
