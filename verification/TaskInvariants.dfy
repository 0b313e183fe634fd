/** What every step of the task system keeps. */
module TaskInvariants {
  import opened TaskStore
  import opened TaskSystem

  // ---------------------------------------------------------------- runs and tasks

  /** The goroutine has not yet written the task's terminal status. */
  predicate Live(pc: Pc) {
    !pc.Querying? && !pc.Posting? && !pc.PostingFailed? && !pc.Ending?
  }

  ghost predicate RunsOnTasks(tasks: Tasks, runs: map<nat, Run>) {
    forall r: nat :: r in runs ==>
      && runs[r].task in tasks
      && (Live(runs[r].pc) ==> tasks[runs[r].task].status == InProgress)
      && (runs[r].pc.Querying? || runs[r].pc.Posting? ==> tasks[runs[r].task].status == Completed)
  }

  ghost predicate OneLiveRun(runs: map<nat, Run>) {
    forall r1: nat, r2: nat ::
      r1 in runs && r2 in runs && Live(runs[r1].pc) && Live(runs[r2].pc) && runs[r1].task == runs[r2].task ==> r1 == r2
  }

  ghost predicate SpawnFirst(tasks: Tasks, op: Op, runs: map<nat, Run>) {
    op.Spawning? ==>
      && Has(tasks, op.task, InProgress)
      && forall r: nat :: r in runs && Live(runs[r].pc) ==> runs[r].task != op.task
  }

  // ---------------------------------------------------------------- the serial gate

  predicate Together(tasks: Tasks, t1: string, t2: string) {
    Has(tasks, t1, InProgress) && Has(tasks, t2, InProgress) && tasks[t1].job == tasks[t2].job
  }

  /** A job never has two tasks in progress. */
  ghost predicate Serial(tasks: Tasks) {
    forall t1, t2 :: t1 in tasks && t2 in tasks && Together(tasks, t1, t2) ==> t1 == t2
  }

  /** Between listing the job's tasks and the guarded write no other task can have started. */
  ghost predicate GateHeld(tasks: Tasks, op: Op) {
    op.Clear? || op.RetryClear? ==> op.task in tasks && forall t :: t in tasks ==> !Busy(tasks, op.task, t)
  }

  // ---------------------------------------------------------------- checkpoints

  ghost predicate FailuresKnown(tasks: Tasks, failedBy: map<string, Cause>) {
    forall t :: t in tasks && tasks[t].status == Failed ==> t in failedBy
  }

  /** A stored checkpoint belongs to a task that is waiting or in progress, or whose last
      failure was in dispatch. */
  ghost predicate CheckpointsLive(
    tasks: Tasks, checkpoints: Checkpoints, failedBy: map<string, Cause>, left: set<string>)
  {
    forall t :: t in checkpoints ==>
      && t in tasks && t in left
      && (|| tasks[t].status == Pending
          || tasks[t].status == InProgress
          || (tasks[t].status == Failed && t in failedBy && failedBy[t] == DispatchFailure))
  }

  const AfterRunFailure := Retried(RunFailure)

  predicate BeforeLoad(pc: Pc) {
    pc.Beginning? || pc.Preparing? || pc.Loading?
  }

  /** Once a run has dropped its checkpoint there is none, and a run that retries a failed run
      finds none. */
  ghost predicate RunsClean(runs: map<nat, Run>, checkpoints: Checkpoints) {
    forall r: nat :: r in runs ==>
      && (runs[r].pc.Writing? ==> runs[r].task !in checkpoints)
      && (runs[r].origin == AfterRunFailure && BeforeLoad(runs[r].pc) ==> runs[r].task !in checkpoints)
      && (runs[r].origin == AfterRunFailure && runs[r].pc.Running? ==> !runs[r].pc.resumed)
  }

  ghost predicate SpawnClean(op: Op, checkpoints: Checkpoints) {
    op.Spawning? && op.origin == AfterRunFailure ==> op.task !in checkpoints
  }

  // ---------------------------------------------------------------- dependencies

  ghost predicate LeftKnown(tasks: Tasks, left: set<string>) {
    && (forall t :: t in left ==> t in tasks && tasks[t].graph != "")
    && (forall t :: t in tasks && tasks[t].status != Pending ==> t in left)
  }

  predicate Dispatching(op: Op) {
    op.Chosen? || op.Checked? || op.BlockedBy? || op.Clear?
  }

  predicate Retrying(op: Op) {
    op.RetryChecked? || op.RetryClear?
  }

  ghost predicate DepsKnown(tasks: Tasks) {
    forall t, d :: t in tasks && d in tasks[t].deps ==> d in tasks
  }

  ghost predicate LeftDone(tasks: Tasks, left: set<string>) {
    forall t :: t in left && t in tasks ==> DepsDone(tasks, t)
  }

  ghost predicate OpKnown(tasks: Tasks, left: set<string>, op: Op) {
    && (Dispatching(op) ==> op.task in tasks && op.graph != "" && DepsDone(tasks, op.task))
    && (Retrying(op) ==> op.task in left && op.graph != "")
  }

  // ---------------------------------------------------------------- wake-ups

  ghost predicate PostedDone(tasks: Tasks, posted: set<Completion>) {
    forall p :: p in posted ==> Has(tasks, p.task, Completed)
  }

  /** A task waits behind a sibling with all its dependencies completed. */
  predicate Waits(tasks: Tasks, t: string, x: string) {
    t in tasks && x in tasks && tasks[t].job == tasks[x].job && DepsDone(tasks, t)
  }

  /** Every completion of the sibling that has been computed tells of a ready task, unless the
      waiting task was no longer pending. */
  ghost predicate Told(runs: map<nat, Run>, posted: set<Completion>, t: string, x: string) {
    && (forall p :: p in posted && p.task == x ==> p.hasNext || t in p.gone)
    && (forall r: nat :: r in runs && runs[r].task == x && runs[r].pc.Posting? ==>
          runs[r].pc.hasNext || t in runs[r].pc.gone)
  }

  ghost predicate QueueTold(tasks: Tasks, runs: map<nat, Run>, queued: set<(string, string)>, posted: set<Completion>) {
    forall q :: q in queued ==>
      Waits(tasks, q.0, q.1) && Told(runs, posted, q.0, q.1) && tasks[q.0].graph != ""
  }

  ghost predicate BlockTold(tasks: Tasks, runs: map<nat, Run>, posted: set<Completion>, op: Op) {
    op.BlockedBy? ==> Waits(tasks, op.task, op.sibling) && Told(runs, posted, op.task, op.sibling)
  }

  // ---------------------------------------------------------------- no orphan

  ghost predicate Served(runs: map<nat, Run>, t: string) {
    exists r: nat :: r in runs && Live(runs[r].pc) && runs[r].task == t
  }

  /** A task in progress has a goroutine that will write its status, or is about to get one. */
  ghost predicate Attended(tasks: Tasks, op: Op, runs: map<nat, Run>) {
    forall t :: t in tasks && tasks[t].status == InProgress ==> (op.Spawning? && op.task == t) || Served(runs, t)
  }

  // ---------------------------------------------------------------- all of it

  ghost predicate Inv(s: State) {
    && (!s.up ==> s.runs == map[] && s.op == Idle)
    && RunsOnTasks(s.tasks, s.runs)
    && OneLiveRun(s.runs)
    && SpawnFirst(s.tasks, s.op, s.runs)
    && Serial(s.tasks)
    && GateHeld(s.tasks, s.op)
    && FailuresKnown(s.tasks, s.ledger.failedBy)
    && CheckpointsLive(s.tasks, s.checkpoints, s.ledger.failedBy, s.ledger.left)
    && RunsClean(s.runs, s.checkpoints)
    && SpawnClean(s.op, s.checkpoints)
    && LeftKnown(s.tasks, s.ledger.left)
    && DepsKnown(s.tasks)
    && LeftDone(s.tasks, s.ledger.left)
    && OpKnown(s.tasks, s.ledger.left, s.op)
    && PostedDone(s.tasks, s.ledger.posted)
    && QueueTold(s.tasks, s.runs, s.ledger.queued, s.ledger.posted)
    && BlockTold(s.tasks, s.runs, s.ledger.posted, s.op)
    && (s.up && !s.draining ==> Attended(s.tasks, s.op, s.runs))
  }

  lemma FreshInv()
    ensures Inv(Fresh())
  {
  }

  // ---------------------------------------------------------------- the operator only looks

  lemma OpMoves(s: State, s': State)
    requires Inv(s) && s.up && !s.op.Spawning? && OnlyLooks(s, s')
    requires GateHeld(s.tasks, s'.op)
    requires OpKnown(s.tasks, s.ledger.left, s'.op)
    requires BlockTold(s.tasks, s.runs, s.ledger.posted, s'.op)
    ensures Inv(s')
  {
  }

  /** Steps after which the operator is in no tool, or in the one it was in. */
  lemma LoopMoves(s: State, s': State)
    requires Inv(s) && s.up && OnlyLooks(s, s') && (s'.op == s.op || (!s.op.Spawning? && s'.op.Idle?))
    ensures Inv(s')
  {
  }

  /** The event loop's own steps. */
  predicate OfLoop(a: OpStep) {
    a.SweepJob? || a.ReceiveEvent? || a.FindNothing? || a.PromoteJob? || a.Abandon? || a.EndTurn?
  }

  lemma LoopKeeps(s: State, a: OpStep)
    requires Inv(s) && s.up && OfLoop(a)
    ensures Inv(OpNext(s, a))
  {
    assert OpNext(s, a).op == s.op || (!s.op.Spawning? && OpNext(s, a).op.Idle?);
    LoopMoves(s, OpNext(s, a));
  }

  lemma ChooseKeeps(s: State, t: string)
    requires Inv(s) && s.up
    ensures Inv(Choose(s, t))
  {
    if s.op.Idle? {
      OpMoves(s, Choose(s, t));
    }
  }

  lemma CheckKeeps(s: State)
    requires Inv(s) && s.up
    ensures Inv(Check(s))
  {
    if s.op.Chosen? {
      if Has(s.tasks, s.op.task, Pending) {
        OpMoves(s, s.(op := Checked(s.op.task, s.op.graph)));
      } else {
        LoopMoves(s, Report(s));
      }
    }
  }

  lemma ListKeeps(s: State, x: string)
    requires Inv(s) && s.up
    ensures Inv(List(s, x))
  {
    if s.op.Checked? {
      if Busy(s.tasks, s.op.task, x) {
        OpMoves(s, s.(op := BlockedBy(s.op.task, s.op.graph, x)));
      } else if !AnyBusy(s.tasks, s.op.task) {
        OpMoves(s, s.(op := Clear(s.op.task, s.op.graph)));
      }
    } else if s.op.RetryChecked? {
      OpMoves(s, s.(op := if AnyBusy(s.tasks, s.op.task) then Idle else RetryClear(s.op.task, s.op.graph)));
    }
  }

  lemma StartRetryKeeps(s: State, t: string, graph: string)
    requires Inv(s) && s.up
    ensures Inv(StartRetry(s, t, graph))
  {
    if s.op.Idle? {
      OpMoves(s, StartRetry(s, t, graph));
    }
  }

  // ---------------------------------------------------------------- rows change

  /** Rows are never removed or moved to another job, completed rows stay completed, and the
      dependencies of a row with a graph are fixed. */
  ghost predicate Extends(a: Tasks, b: Tasks) {
    forall t :: t in a ==>
      && t in b && b[t].job == a[t].job
      && (a[t].status == Completed ==> b[t].status == Completed)
      && (a[t].graph != "" ==> b[t].graph != "" && b[t].deps == a[t].deps)
  }

  ghost predicate OpFixed(a: Tasks, b: Tasks, op: Op) {
    Dispatching(op) && op.task in a && op.task in b ==> b[op.task].deps == a[op.task].deps
  }

  lemma LeftDoneKept(a: Tasks, b: Tasks, left: set<string>)
    requires Extends(a, b) && DepsKnown(a) && LeftKnown(a, left) && LeftDone(a, left)
    ensures LeftDone(b, left)
  {
  }

  lemma OpKnownKept(a: Tasks, b: Tasks, left: set<string>, op: Op)
    requires Extends(a, b) && DepsKnown(a) && OpFixed(a, b, op) && OpKnown(a, left, op)
    ensures OpKnown(b, left, op)
  {
  }

  lemma QueueToldKept(a: Tasks, b: Tasks, runs: map<nat, Run>, queued: set<(string, string)>, posted: set<Completion>)
    requires Extends(a, b) && DepsKnown(a) && QueueTold(a, runs, queued, posted)
    ensures QueueTold(b, runs, queued, posted)
  {
  }

  lemma BlockToldKept(a: Tasks, b: Tasks, runs: map<nat, Run>, posted: set<Completion>, op: Op)
    requires Extends(a, b) && DepsKnown(a) && OpFixed(a, b, op) && BlockTold(a, runs, posted, op)
    ensures BlockTold(b, runs, posted, op)
  {
  }

  lemma PostedDoneKept(a: Tasks, b: Tasks, posted: set<Completion>)
    requires Extends(a, b) && PostedDone(a, posted)
    ensures PostedDone(b, posted)
  {
  }

  ghost predicate SameStatus(a: Tasks, b: Tasks) {
    && (forall t :: t in a && t in b ==> b[t].status == a[t].status)
    && (forall t :: t in b && t !in a ==> b[t].status == Pending)
  }

  lemma RunAtomsKept(a: Tasks, b: Tasks, op: Op, runs: map<nat, Run>)
    requires Extends(a, b) && SameStatus(a, b)
    requires RunsOnTasks(a, runs) && SpawnFirst(a, op, runs)
    ensures RunsOnTasks(b, runs) && SpawnFirst(b, op, runs)
    ensures Attended(a, op, runs) ==> Attended(b, op, runs)
  {
  }

  lemma GateAtomsKept(a: Tasks, b: Tasks, op: Op)
    requires Extends(a, b) && SameStatus(a, b) && Serial(a) && GateHeld(a, op)
    ensures Serial(b) && GateHeld(b, op)
  {
  }

  lemma StoreAtomsKept(a: Tasks, b: Tasks, checkpoints: Checkpoints, failedBy: map<string, Cause>, left: set<string>)
    requires Extends(a, b) && SameStatus(a, b)
    requires FailuresKnown(a, failedBy) && CheckpointsLive(a, checkpoints, failedBy, left) && LeftKnown(a, left)
    ensures FailuresKnown(b, failedBy) && CheckpointsLive(b, checkpoints, failedBy, left) && LeftKnown(b, left)
  {
  }

  /** Rows added, given a graph or given dependencies in time. */
  lemma RowsKeep(s: State, b: Tasks)
    requires Inv(s) && s.up
    requires Extends(s.tasks, b) && SameStatus(s.tasks, b) && OpFixed(s.tasks, b, s.op) && DepsKnown(b)
    ensures Inv(s.(tasks := b))
  {
    var a := s.tasks;
    LeftDoneKept(a, b, s.ledger.left);
    OpKnownKept(a, b, s.ledger.left, s.op);
    QueueToldKept(a, b, s.runs, s.ledger.queued, s.ledger.posted);
    BlockToldKept(a, b, s.runs, s.ledger.posted, s.op);
    PostedDoneKept(a, b, s.ledger.posted);
    RunAtomsKept(a, b, s.op, s.runs);
    GateAtomsKept(a, b, s.op);
    StoreAtomsKept(a, b, s.checkpoints, s.ledger.failedBy, s.ledger.left);
  }

  lemma CreateKeeps(s: State, t: string, job: string, rank: Rank)
    requires Inv(s) && s.up
    ensures Inv(s.(tasks := Create(s.tasks, t, job, rank)))
  {
    RowsKeep(s, Create(s.tasks, t, job, rank));
  }

  lemma CreateTaskKeeps(s: State, t: string, job: string, graph: string, rank: Rank)
    requires Inv(s) && s.up
    ensures Inv(CreateTask(s, t, job, graph, rank))
  {
    if s.op.Idle? && t !in s.tasks {
      CreateKeeps(s, t, job, rank);
      var s1 := s.(tasks := Create(s.tasks, t, job, rank));
      OpMoves(s1, s1.(op := if graph == "" then Idle else Checked(t, graph)));
    }
  }

  lemma PreAssignKeeps(s: State, t: string, graph: string)
    requires Inv(s) && s.up && graph != ""
    ensures Inv(s.(tasks := PreAssign(s.tasks, t, graph)))
  {
    RowsKeep(s, PreAssign(s.tasks, t, graph));
  }

  /** Nothing has been told yet of a sibling that is still in progress. */
  lemma BusyTold(tasks: Tasks, runs: map<nat, Run>, posted: set<Completion>, t: string, x: string)
    requires RunsOnTasks(tasks, runs) && PostedDone(tasks, posted) && Busy(tasks, t, x)
    ensures Told(runs, posted, t, x)
  {
  }

  lemma DeferKeeps(s: State, t: string, graph: string, x: string)
    requires Inv(s) && s.up
    ensures Inv(PreAssignFromService(s, t, graph, x))
  {
    if graph != "" {
      PreAssignKeeps(s, t, graph);
      var b := PreAssign(s.tasks, t, graph);
      if Busy(s.tasks, t, x) && Ready(s.tasks, t) {
        assert Busy(b, t, x);
        BusyTold(b, s.runs, s.ledger.posted, t, x);
        assert QueueTold(b, s.runs, s.ledger.queued + {(t, x)}, s.ledger.posted);
      }
    }
  }

  lemma DependKeeps(s: State, t: string, on: string)
    requires Inv(s) && s.up
    ensures Inv(DependTask(s, t, on))
  {
    if Has(s.tasks, t, Pending) && s.tasks[t].graph == "" && !Targets(s.op, t) {
      RowsKeep(s, Depend(s.tasks, t, on));
    }
  }

  // ---------------------------------------------------------------- the operator dispatches

  lemma QueueTaskKeeps(s: State)
    requires Inv(s) && s.up && s.op.BlockedBy? && Has(s.tasks, s.op.task, Pending)
    ensures Inv(QueueTask(s, s.op.task, s.op.graph, s.op.sibling))
  {
    var s1 := s.(tasks := PreAssign(s.tasks, s.op.task, s.op.graph));
    PreAssignKeeps(s, s.op.task, s.op.graph);
    LoopMoves(s1, s1.(op := Idle, loop := Finished(s.loop)));
  }

  /** What a row's move to in progress keeps. */
  lemma StartedAtoms(a: Tasks, t: string, row: Task, op: Op, runs: map<nat, Run>)
    requires t in a && a[t].status != InProgress && a[t].status != Completed
    requires row.job == a[t].job && row.status == InProgress
    requires (op.Clear? || op.RetryClear?) && op.task == t
    requires RunsOnTasks(a, runs) && Serial(a) && GateHeld(a, op)
    ensures RunsOnTasks(a[t := row], runs) && Serial(a[t := row])
    ensures forall origin :: SpawnFirst(a[t := row], Spawning(t, origin), runs)
    ensures Attended(a, op, runs) ==> forall origin :: Attended(a[t := row], Spawning(t, origin), runs)
  {
  }

  lemma StartedStore(
    a: Tasks, t: string, row: Task, checkpoints: Checkpoints, failedBy: map<string, Cause>, left: set<string>)
    requires t in a && row.status == InProgress && row.graph != ""
    requires FailuresKnown(a, failedBy) && CheckpointsLive(a, checkpoints, failedBy, left) && LeftKnown(a, left)
    ensures FailuresKnown(a[t := row], failedBy)
    ensures CheckpointsLive(a[t := row], checkpoints, failedBy, left + {t})
    ensures LeftKnown(a[t := row], left + {t})
  {
  }

  /** What a change of one row's status keeps of the dependencies. */
  lemma StatusDeps(s: State, t: string, row: Task)
    requires Inv(s) && t in s.tasks && s.tasks[t].status != Completed
    requires row.job == s.tasks[t].job && row.deps == s.tasks[t].deps && row.graph != ""
    ensures var b := s.tasks[t := row];
            && DepsKnown(b) && Extends(s.tasks, b) && LeftDone(b, s.ledger.left)
            && PostedDone(b, s.ledger.posted) && QueueTold(b, s.runs, s.ledger.queued, s.ledger.posted)
            && OpKnown(b, s.ledger.left, s.op) && BlockTold(b, s.runs, s.ledger.posted, s.op)
  {
  }

  lemma StartTaskKeeps(s: State)
    requires Inv(s) && s.up && s.op.Clear? && Has(s.tasks, s.op.task, Pending)
    ensures Inv(StartTask(s, s.op.task, s.op.graph))
  {
    var t := s.op.task;
    var row := s.tasks[t].(graph := s.op.graph, status := InProgress);
    StartedAtoms(s.tasks, t, row, s.op, s.runs);
    StartedStore(s.tasks, t, row, s.checkpoints, s.ledger.failedBy, s.ledger.left);
    StatusDeps(s, t, row);
    assert LeftDone(s.tasks[t := row], s.ledger.left + {t});
  }

  lemma RestartTaskKeeps(s: State)
    requires Inv(s) && s.up && s.op.RetryClear? && Has(s.tasks, s.op.task, Failed)
    ensures Inv(RestartTask(s, s.op.task, s.op.graph))
  {
    var t := s.op.task;
    var row := s.tasks[t].(graph := s.op.graph, status := InProgress);
    StartedAtoms(s.tasks, t, row, s.op, s.runs);
    StartedStore(s.tasks, t, row, s.checkpoints, s.ledger.failedBy, s.ledger.left);
    assert s.ledger.left + {t} == s.ledger.left;
    StatusDeps(s, t, row);
  }

  lemma GuardedWriteKeeps(s: State)
    requires Inv(s) && s.up
    ensures Inv(GuardedWrite(s))
  {
    if s.op.BlockedBy? || s.op.Clear? || s.op.RetryClear? {
      LoopMoves(s, Report(s));
      if s.op.BlockedBy? && Has(s.tasks, s.op.task, Pending) {
        QueueTaskKeeps(s);
      } else if s.op.Clear? && Has(s.tasks, s.op.task, Pending) {
        StartTaskKeeps(s);
      } else if s.op.RetryClear? && Has(s.tasks, s.op.task, Failed) {
        RestartTaskKeeps(s);
      }
    }
  }

  lemma SpawnServes(tasks: Tasks, op: Op, op': Op, runs: map<nat, Run>, r: nat, run: Run)
    requires op.Spawning? && Attended(tasks, op, runs) && r !in runs && run.task == op.task && Live(run.pc)
    ensures Attended(tasks, op', runs[r := run])
  {
    forall t | t in tasks && tasks[t].status == InProgress ensures Served(runs[r := run], t) {
      if t == op.task {
        assert runs[r := run][r].task == t;
      } else {
        var r0: nat :| r0 in runs && Live(runs[r0].pc) && runs[r0].task == t;
        assert runs[r := run][r0] == runs[r0];
      }
    }
  }

  lemma SpawnAtoms(tasks: Tasks, op: Op, runs: map<nat, Run>, checkpoints: Checkpoints, r: nat, run: Run)
    requires op.Spawning? && r !in runs && run.task == op.task && run.origin == op.origin && run.pc.Beginning?
    requires RunsOnTasks(tasks, runs) && OneLiveRun(runs) && SpawnFirst(tasks, op, runs)
    requires RunsClean(runs, checkpoints) && SpawnClean(op, checkpoints)
    ensures RunsOnTasks(tasks, runs[r := run]) && OneLiveRun(runs[r := run]) && RunsClean(runs[r := run], checkpoints)
  {
  }

  lemma ToldKept(a: map<nat, Run>, b: map<nat, Run>, ledger: Ledger, tasks: Tasks, op: Op)
    requires forall r: nat :: r in b && b[r].pc.Posting? ==> r in a && a[r].task == b[r].task && a[r].pc == b[r].pc
    requires QueueTold(tasks, a, ledger.queued, ledger.posted) && BlockTold(tasks, a, ledger.posted, op)
    ensures QueueTold(tasks, b, ledger.queued, ledger.posted) && BlockTold(tasks, b, ledger.posted, op)
  {
  }

  lemma SpawnKeeps(s: State, r: nat)
    requires Inv(s) && s.up
    ensures Inv(Spawn(s, r))
  {
    if s.op.Spawning? && r !in s.runs {
      var run := Run(s.op.task, Beginning, false, s.op.origin);
      SpawnAtoms(s.tasks, s.op, s.runs, s.checkpoints, r, run);
      ToldKept(s.runs, s.runs[r := run], s.ledger, s.tasks, s.op);
      if !s.draining {
        SpawnServes(s.tasks, s.op, Spawn(s, r).op, s.runs, r, run);
      }
    }
  }

  lemma OpKeeps(s: State, a: OpStep)
    requires Inv(s) && s.up
    ensures Inv(OpNext(s, a))
  {
    match a
    case ChooseReady(t) => ChooseKeeps(s, t);
    case CreateIn(t, job, graph, rank) => CreateTaskKeeps(s, t, job, graph, rank);
    case CheckPending => CheckKeeps(s);
    case ListSiblings(x) => ListKeeps(s, x);
    case WriteGuarded => GuardedWriteKeeps(s);
    case RetryFailed(t, graph) => StartRetryKeeps(s, t, graph);
    case SpawnRun(r) => SpawnKeeps(s, r);
    case _ => LoopKeeps(s, a);
  }

  // ---------------------------------------------------------------- a goroutine moves on

  lemma StillServed(tasks: Tasks, op: Op, runs: map<nat, Run>, r: nat, run: Run)
    requires r in runs && Attended(tasks, op, runs) && run.task == runs[r].task
    requires Live(runs[r].pc) ==> Live(run.pc)
    ensures Attended(tasks, op, runs[r := run])
  {
    forall t | Served(runs, t) ensures Served(runs[r := run], t) {
      var r0: nat :| r0 in runs && Live(runs[r0].pc) && runs[r0].task == t;
      assert runs[r := run][r0].task == t && Live(runs[r := run][r0].pc);
    }
  }

  /** What a goroutine's own record keeps when it stays live or ends. */
  lemma RecordAtoms(tasks: Tasks, op: Op, runs: map<nat, Run>, r: nat, run: Run)
    requires r in runs && run.task == runs[r].task && (Live(run.pc) ==> Live(runs[r].pc))
    requires !run.pc.Querying? && !run.pc.Posting?
    requires RunsOnTasks(tasks, runs) && OneLiveRun(runs) && SpawnFirst(tasks, op, runs)
    ensures RunsOnTasks(tasks, runs[r := run]) && OneLiveRun(runs[r := run]) && SpawnFirst(tasks, op, runs[r := run])
  {
  }

  lemma RecordClean(runs: map<nat, Run>, checkpoints: Checkpoints, r: nat, run: Run)
    requires r in runs && run.task == runs[r].task && run.origin == runs[r].origin && RunsClean(runs, checkpoints)
    requires !run.pc.Writing? && (BeforeLoad(run.pc) ==> BeforeLoad(runs[r].pc))
    requires run.pc.Running? && run.pc.resumed ==> BeforeLoad(runs[r].pc) && run.task in checkpoints
    ensures RunsClean(runs[r := run], checkpoints)
  {
  }

  /** A goroutine that only moves its own counter, without skipping a write. */
  predicate Moves(s: State, from: Run, to: Run) {
    && to.task == from.task && to.origin == from.origin
    && (Live(to.pc) ==> Live(from.pc))
    && (Live(from.pc) ==> Live(to.pc) || s.draining)
    && !to.pc.Querying? && !to.pc.Posting? && !to.pc.Writing?
    && (BeforeLoad(to.pc) ==> BeforeLoad(from.pc))
    && (to.pc.Running? && to.pc.resumed ==> BeforeLoad(from.pc) && to.task in s.checkpoints)
  }

  lemma RunMoves(s: State, r: nat, run: Run)
    requires Inv(s) && s.up && r in s.runs && Moves(s, s.runs[r], run)
    ensures Inv(s.(runs := s.runs[r := run]))
  {
    RecordAtoms(s.tasks, s.op, s.runs, r, run);
    ToldKept(s.runs, s.runs[r := run], s.ledger, s.tasks, s.op);
    RecordClean(s.runs, s.checkpoints, r, run);
    if !s.draining {
      StillServed(s.tasks, s.op, s.runs, r, run);
    }
  }

  lemma BeginKeeps(s: State, r: nat)
    requires Inv(s) && s.up && r in s.runs
    ensures Inv(BeginTask(s, r))
  {
    if s.runs[r].pc.Beginning? {
      RunMoves(s, r, s.runs[r].(pc := Refusing(false)));
      RunMoves(s, r, s.runs[r].(pc := Preparing, cancelled := s.lifetimeOver));
    }
  }

  lemma CounterKeeps(s: State, r: nat, ok: bool)
    requires Inv(s) && s.up && r in s.runs
    ensures Inv(PrepareTask(s, r, ok)) && Inv(LoadCheckpoint(s, r)) && Inv(ReturnFromGraph(s, r, ok))
  {
    var run := s.runs[r];
    if run.pc.Preparing? {
      RunMoves(s, r, run.(pc := if ok then Loading else Refusing(true)));
    } else if run.pc.Loading? {
      RunMoves(s, r, run.(pc := Running(run.task in s.checkpoints)));
    } else if run.pc.Running? {
      RunMoves(s, r, run.(pc := Returned(ok)));
    }
  }

  lemma JudgeKeeps(s: State, r: nat)
    requires Inv(s) && s.up && r in s.runs
    ensures Inv(JudgeShutdown(s, r))
  {
    var run := s.runs[r];
    if run.pc.Returned? {
      if s.draining {
        RunMoves(s, r, run.(pc := Ending(true)));
      }
      RunMoves(s, r, run.(pc := Dropping(run.pc.ok)));
    }
  }

  // ---------------------------------------------------------------- a goroutine writes

  lemma SaveClean(runs: map<nat, Run>, checkpoints: Checkpoints, r: nat, c: Checkpoint)
    requires r in runs && runs[r].pc.Running? && OneLiveRun(runs) && RunsClean(runs, checkpoints)
    ensures RunsClean(runs, checkpoints[runs[r].task := c])
  {
  }

  lemma SaveKeeps(s: State, r: nat, c: Checkpoint)
    requires Inv(s) && s.up && r in s.runs
    ensures Inv(SaveCheckpoint(s, r, c))
  {
    if s.runs[r].pc.Running? {
      SaveClean(s.runs, s.checkpoints, r, c);
    }
  }

  lemma DropClean(runs: map<nat, Run>, checkpoints: Checkpoints, r: nat, run: Run)
    requires r in runs && run.task == runs[r].task && run.pc.Writing? && RunsClean(runs, checkpoints)
    ensures RunsClean(runs[r := run], checkpoints - {run.task})
  {
  }

  lemma DropKeeps(s: State, r: nat)
    requires Inv(s) && s.up && r in s.runs
    ensures Inv(DropCheckpoint(s, r))
  {
    if s.runs[r].pc.Dropping? {
      var run := s.runs[r].(pc := Writing(s.runs[r].pc.ok));
      RecordAtoms(s.tasks, s.op, s.runs, r, run);
      DropClean(s.runs, s.checkpoints, r, run);
      ToldKept(s.runs, s.runs[r := run], s.ledger, s.tasks, s.op);
      assert CheckpointsLive(s.tasks, s.checkpoints - {run.task}, s.ledger.failedBy, s.ledger.left);
      if !s.draining {
        StillServed(s.tasks, s.op, s.runs, r, run);
      }
    }
  }

  lemma SettledAtoms(a: Tasks, op: Op, runs: map<nat, Run>, r: nat, row: Task, run: Run)
    requires r in runs && Live(runs[r].pc) && runs[r].task in a
    requires run.task == runs[r].task && row.job == a[run.task].job && row.status != InProgress
    requires !Live(run.pc) && (run.pc.Querying? || run.pc.Posting? ==> row.status == Completed)
    requires RunsOnTasks(a, runs) && OneLiveRun(runs) && SpawnFirst(a, op, runs) && Serial(a) && GateHeld(a, op)
    ensures RunsOnTasks(a[run.task := row], runs[r := run]) && OneLiveRun(runs[r := run])
    ensures SpawnFirst(a[run.task := row], op, runs[r := run])
    ensures Serial(a[run.task := row]) && GateHeld(a[run.task := row], op)
  {
  }

  lemma SettledServed(a: Tasks, op: Op, runs: map<nat, Run>, r: nat, row: Task, run: Run)
    requires r in runs && run.task == runs[r].task && row.status != InProgress && Attended(a, op, runs)
    ensures Attended(a[run.task := row], op, runs[r := run])
  {
    forall t | t != run.task && Served(runs, t) ensures Served(runs[r := run], t) {
      var r0: nat :| r0 in runs && Live(runs[r0].pc) && runs[r0].task == t;
      assert runs[r := run][r0] == runs[r0];
    }
  }

  lemma SettledStore(
    a: Tasks, t: string, row: Task, checkpoints: Checkpoints,
    failedBy: map<string, Cause>, failedBy': map<string, Cause>, left: set<string>)
    requires t in a && row.status != InProgress && row.graph != "" && t in left
    requires FailuresKnown(a, failedBy) && CheckpointsLive(a, checkpoints, failedBy, left) && LeftKnown(a, left)
    requires row.status == Failed ==> t in failedBy' && failedBy' == failedBy[t := failedBy'[t]]
    requires row.status != Failed ==> failedBy' == failedBy
    requires t in checkpoints ==> row.status == Failed && failedBy'[t] == DispatchFailure
    ensures FailuresKnown(a[t := row], failedBy')
    ensures CheckpointsLive(a[t := row], checkpoints, failedBy', left)
    ensures LeftKnown(a[t := row], left)
  {
  }

  lemma SettleKeeps(
    s: State, r: nat, status: Status, pc: Pc, failedBy': map<string, Cause>, broken': map<string, Break>)
    requires Inv(s) && s.up && r in s.runs && Live(s.runs[r].pc) && !Live(pc) && !pc.Posting?
    requires status == Completed || status == Failed || status == Cancelled
    requires pc.Querying? ==> status == Completed
    requires status == Failed ==>
               s.runs[r].task in failedBy'
                   && failedBy' == s.ledger.failedBy[s.runs[r].task := failedBy'[s.runs[r].task]]
    requires status != Failed ==> failedBy' == s.ledger.failedBy
    requires s.runs[r].task in s.checkpoints ==> status == Failed && failedBy'[s.runs[r].task] == DispatchFailure
    ensures Inv(Settle(s, r, status, pc).(ledger := s.ledger.(failedBy := failedBy', broken := broken')))
  {
    var run := s.runs[r].(pc := pc);
    var t := run.task;
    var row := s.tasks[t].(status := status);
    SettledAtoms(s.tasks, s.op, s.runs, r, row, run);
    SettledStore(s.tasks, t, row, s.checkpoints, s.ledger.failedBy, failedBy', s.ledger.left);
    StatusDeps(s, t, row);
    ToldKept(s.runs, s.runs[r := run], s.ledger, s.tasks[t := row], s.op);
    RecordClean(s.runs, s.checkpoints, r, run);
    if !s.draining {
      SettledServed(s.tasks, s.op, s.runs, r, row, run);
    }
  }

  lemma WriteKeeps(s: State, r: nat)
    requires Inv(s) && s.up && r in s.runs
    ensures Inv(WriteStatus(s, r))
  {
    var t := s.runs[r].task;
    match s.runs[r].pc
    case Writing(ok) =>
      if ok {
        SettleKeeps(s, r, Completed, Querying, s.ledger.failedBy, s.ledger.broken);
      } else if s.runs[r].cancelled {
        SettleKeeps(s, r, Cancelled, Ending(true), s.ledger.failedBy, Broken(s, r, RunCancelled).broken);
      } else {
        var broken := Broken(s, r, RunFailed).broken;
        SettleKeeps(s, r, Failed, PostingFailed(true), s.ledger.failedBy[t := RunFailure], broken);
      }
    case Refusing(registered) =>
      SettleKeeps(s, r, Failed, PostingFailed(registered), s.ledger.failedBy[t := DispatchFailure],
                  Broken(s, r, DispatchFailed).broken);
    case _ =>
  }

  lemma QueryKeeps(s: State, r: nat)
    requires Inv(s) && s.up && r in s.runs
    ensures Inv(QueryReady(s, r))
  {
    if s.runs[r].pc.Querying? {
      var run := s.runs[r].(pc := Posting(AnyReady(s.tasks, s.tasks[s.runs[r].task].job), NotPending(s.tasks)));
      QueryAtoms(s.tasks, s.op, s.runs, s.checkpoints, r, run);
      QueryTold(s, r, run);
      if !s.draining {
        StillServed(s.tasks, s.op, s.runs, r, run);
      }
    }
  }

  lemma QueryAtoms(tasks: Tasks, op: Op, runs: map<nat, Run>, checkpoints: Checkpoints, r: nat, run: Run)
    requires r in runs && run.task == runs[r].task && runs[r].pc.Querying? && run.pc.Posting?
    requires RunsOnTasks(tasks, runs) && OneLiveRun(runs) && SpawnFirst(tasks, op, runs) && RunsClean(runs, checkpoints)
    ensures RunsOnTasks(tasks, runs[r := run]) && OneLiveRun(runs[r := run]) && SpawnFirst(tasks, op, runs[r := run])
    ensures RunsClean(runs[r := run], checkpoints)
  {
  }

  /** The heart of the wake-up: a pending task that waits behind the completed sibling is ready
      when the sibling's run asks. */
  lemma WaiterIsReady(s: State, t: string, x: string)
    requires Inv(s) && Waits(s.tasks, t, x) && Has(s.tasks, t, Pending)
    ensures AnyReady(s.tasks, s.tasks[x].job)
  {
  }

  lemma QueryTold(s: State, r: nat, run: Run)
    requires Inv(s) && r in s.runs && s.runs[r].pc.Querying? && run.task == s.runs[r].task
    requires run.pc == Posting(AnyReady(s.tasks, s.tasks[run.task].job), NotPending(s.tasks))
    ensures QueueTold(s.tasks, s.runs[r := run], s.ledger.queued, s.ledger.posted)
    ensures BlockTold(s.tasks, s.runs[r := run], s.ledger.posted, s.op)
  {
    forall t | Waits(s.tasks, t, run.task) ensures run.pc.hasNext || t in run.pc.gone {
      if Has(s.tasks, t, Pending) {
        WaiterIsReady(s, t, run.task);
      }
    }
  }

  lemma PostTold(s: State, r: nat, run: Run, posted: set<Completion>)
    requires Inv(s) && r in s.runs && s.runs[r].pc.Posting? && run.task == s.runs[r].task && !run.pc.Posting?
    requires posted == s.ledger.posted + {Completion(run.task, s.runs[r].pc.hasNext, s.runs[r].pc.gone)}
    ensures PostedDone(s.tasks, posted)
    ensures QueueTold(s.tasks, s.runs[r := run], s.ledger.queued, posted)
    ensures BlockTold(s.tasks, s.runs[r := run], posted, s.op)
  {
  }

  lemma PostKeeps(s: State, r: nat, sent: bool)
    requires Inv(s) && s.up && r in s.runs
    ensures Inv(PostEvent(s, r, sent))
  {
    match s.runs[r].pc
    case PostingFailed(registered) => RunMoves(s, r, s.runs[r].(pc := Ending(registered)));
    case Posting(hasNext, gone) =>
      var run := s.runs[r].(pc := Ending(true));
      RecordAtoms(s.tasks, s.op, s.runs, r, run);
      PostTold(s, r, run, PostCompletion(s, r, hasNext, gone, sent).ledger.posted);
      RecordClean(s.runs, s.checkpoints, r, run);
      if !s.draining {
        StillServed(s.tasks, s.op, s.runs, r, run);
      }
    case _ =>
  }

  // ---------------------------------------------------------------- cancellation and the end of a goroutine

  /** The same goroutines at the same places, apart from cancellation. */
  ghost predicate SameRuns(a: map<nat, Run>, b: map<nat, Run>) {
    a.Keys == b.Keys && forall r: nat :: r in a && r in b ==> b[r] == a[r] || b[r] == a[r].(cancelled := true)
  }

  lemma CancelAtoms(tasks: Tasks, op: Op, a: map<nat, Run>, b: map<nat, Run>, checkpoints: Checkpoints)
    requires SameRuns(a, b)
    requires RunsOnTasks(tasks, a) && OneLiveRun(a) && SpawnFirst(tasks, op, a) && RunsClean(a, checkpoints)
    ensures RunsOnTasks(tasks, b) && OneLiveRun(b) && SpawnFirst(tasks, op, b) && RunsClean(b, checkpoints)
  {
  }

  lemma CancelServed(tasks: Tasks, op: Op, a: map<nat, Run>, b: map<nat, Run>)
    requires SameRuns(a, b) && Attended(tasks, op, a)
    ensures Attended(tasks, op, b)
  {
  }

  lemma CancelKeeps(s: State, which: set<nat>)
    requires Inv(s) && s.up
    ensures Inv(s.(runs := CancelRuns(s.runs, which)))
  {
    var b := CancelRuns(s.runs, which);
    assert b.Keys == s.runs.Keys;
    CancelAtoms(s.tasks, s.op, s.runs, b, s.checkpoints);
    ToldKept(s.runs, b, s.ledger, s.tasks, s.op);
    if !s.draining {
      CancelServed(s.tasks, s.op, s.runs, b);
    }
  }

  lemma RemoveAtoms(tasks: Tasks, op: Op, runs: map<nat, Run>, checkpoints: Checkpoints, r: nat)
    requires r in runs && !Live(runs[r].pc)
    requires RunsOnTasks(tasks, runs) && OneLiveRun(runs) && SpawnFirst(tasks, op, runs) && RunsClean(runs, checkpoints)
    ensures RunsOnTasks(tasks, runs - {r}) && OneLiveRun(runs - {r}) && SpawnFirst(tasks, op, runs - {r})
    ensures RunsClean(runs - {r}, checkpoints)
    ensures Attended(tasks, op, runs) ==> Attended(tasks, op, runs - {r})
  {
    forall t | Served(runs, t) ensures Served(runs - {r}, t) {
      var r0: nat :| r0 in runs && Live(runs[r0].pc) && runs[r0].task == t;
      assert r0 in runs - {r};
    }
  }

  lemma RemoveKeeps(s: State, r: nat)
    requires Inv(s) && s.up && r in s.runs && !Live(s.runs[r].pc)
    ensures Inv(s.(runs := s.runs - {r}))
  {
    RemoveAtoms(s.tasks, s.op, s.runs, s.checkpoints, r);
    ToldKept(s.runs, s.runs - {r}, s.ledger, s.tasks, s.op);
  }

  lemma EndKeeps(s: State, r: nat)
    requires Inv(s) && s.up && r in s.runs
    ensures Inv(EndTask(s, r))
  {
    if s.runs[r].pc.Ending? {
      var t := s.runs[r].task;
      if s.runs[r].pc.registered && t in s.running {
        CancelKeeps(s, {s.running[t]});
        RemoveKeeps(s.(runs := CancelRuns(s.runs, {s.running[t]})), r);
      } else {
        RemoveKeeps(s, r);
      }
    }
  }

  /** Steps that touch nothing but the goroutine's own record. */
  predicate Private(a: RunStep) {
    a.Begin? || a.Prepare? || a.Load? || a.Return? || a.Judge?
  }

  lemma PrivateKeeps(s: State, r: nat, a: RunStep)
    requires Inv(s) && s.up && r in s.runs && Private(a)
    ensures Inv(RunNext(s, r, a))
  {
    match a
    case Begin => BeginKeeps(s, r);
    case Prepare(ok) => CounterKeeps(s, r, ok);
    case Load => CounterKeeps(s, r, true);
    case Return(ok) => CounterKeeps(s, r, ok);
    case Judge => JudgeKeeps(s, r);
    case _ =>
  }

  lemma SharedKeeps(s: State, r: nat, a: RunStep)
    requires Inv(s) && s.up && r in s.runs && !Private(a)
    ensures Inv(RunNext(s, r, a))
  {
    match a
    case Save(c) => SaveKeeps(s, r, c);
    case Drop => DropKeeps(s, r);
    case Write => WriteKeeps(s, r);
    case Query => QueryKeeps(s, r);
    case Post(sent) => PostKeeps(s, r, sent);
    case End => EndKeeps(s, r);
    case _ =>
  }

  // ---------------------------------------------------------------- crash and restart

  lemma CrashKeeps(s: State)
    requires Inv(s) && s.up
    ensures Inv(CrashProcess(s))
  {
  }

  lemma BootStore(a: Tasks, checkpoints: Checkpoints, failedBy: map<string, Cause>, left: set<string>)
    requires FailuresKnown(a, failedBy) && CheckpointsLive(a, checkpoints, failedBy, left) && LeftKnown(a, left)
    ensures FailuresKnown(Reconcile(a), failedBy)
    ensures CheckpointsLive(Reconcile(a), checkpoints, failedBy, left)
    ensures LeftKnown(Reconcile(a), left)
    ensures Serial(Reconcile(a)) && Attended(Reconcile(a), Idle, map[])
  {
  }

  lemma BootKeeps(s: State)
    requires Inv(s) && !s.up
    ensures Inv(BootProcess(s))
  {
    var b := Reconcile(s.tasks);
    BootStore(s.tasks, s.checkpoints, s.ledger.failedBy, s.ledger.left);
    assert Extends(s.tasks, b) && DepsKnown(b);
    LeftDoneKept(s.tasks, b, s.ledger.left);
    QueueToldKept(s.tasks, b, s.runs, s.ledger.queued, s.ledger.posted);
    PostedDoneKept(s.tasks, b, s.ledger.posted);
  }

  lemma OuterKeeps(s: State, a: OuterStep)
    requires Inv(s) && s.up
    ensures Inv(OuterNext(s, a))
  {
    match a
    case CancelJob(job) => CancelKeeps(s, HandlesOf(s, job));
    case EndLifetime => CancelKeeps(s, s.runs.Keys);
    case StartDrain =>
    case Crash => CrashKeeps(s);
    case UserSpeaks =>
    case SetJobActive(job, active) =>
    case ServiceCreate(t, job, rank) => CreateKeeps(s, t, job, rank);
    case ServiceDepend(t, on) => DependKeeps(s, t, on);
    case ServicePreAssign(t, graph, x) => DeferKeeps(s, t, graph, x);
  }

  lemma StepKeeps(s: State, a: Action)
    requires Inv(s)
    ensures Inv(Next(s, a))
  {
    if !s.up {
      BootKeeps(s);
    } else {
      match a
      case Operator(op) => OpKeeps(s, op);
      case Goroutine(r, step) =>
        if r in s.runs {
          if Private(step) {
            PrivateKeeps(s, r, step);
          } else {
            SharedKeeps(s, r, step);
          }
        }
      case Outside(outer) => OuterKeeps(s, outer);
      case Boot =>
    }
  }

  // ---------------------------------------------------------------- reachable states

  ghost predicate Reachable(s: State) {
    exists actions: seq<Action> :: Reach(Fresh(), actions) == s
  }

  lemma {:induction false} ReachKeeps(s: State, actions: seq<Action>)
    requires Inv(s)
    ensures Inv(Reach(s, actions))
    decreases actions
  {
    if actions != [] {
      StepKeeps(s, actions[0]);
      ReachKeeps(Next(s, actions[0]), actions[1..]);
    }
  }

  /** Every interleaving of the actors, with crashes at any point, keeps the invariant. */
  lemma ReachableInv(s: State)
    requires Reachable(s)
    ensures Inv(s)
  {
    var actions: seq<Action> :| Reach(Fresh(), actions) == s;
    FreshInv();
    ReachKeeps(Fresh(), actions);
  }

  lemma {:induction false} ReachMore(s: State, actions: seq<Action>, a: Action)
    ensures Reach(s, actions + [a]) == Next(Reach(s, actions), a)
    decreases actions
  {
    if actions == [] {
      assert Reach(Next(s, a), []) == Next(s, a);
    } else {
      assert (actions + [a])[1..] == actions[1..] + [a];
      ReachMore(Next(s, actions[0]), actions[1..], a);
    }
  }

  lemma StepReachable(s: State, a: Action)
    requires Reachable(s)
    ensures Reachable(Next(s, a))
  {
    var actions: seq<Action> :| Reach(Fresh(), actions) == s;
    ReachMore(Fresh(), actions, a);
  }
}
