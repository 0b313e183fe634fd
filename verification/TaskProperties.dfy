/** What the invariant of the task system means for its users, and where a claim stops. */
module TaskProperties {
  import opened TaskStore
  import opened TaskSystem
  import opened TaskInvariants

  // ---------------------------------------------------------------- safety

  /** Serial gate: in every reachable state a job has at most one task in progress, although
      the check and the assignment are separate store operations. */
  lemma OneTaskPerJob(s: State, t1: string, t2: string)
    requires Reachable(s)
    requires Has(s.tasks, t1, InProgress) && Has(s.tasks, t2, InProgress) && s.tasks[t1].job == s.tasks[t2].job
    ensures t1 == t2
  {
    ReachableInv(s);
    assert Together(s.tasks, t1, t2);
  }

  /** Crash consistency: a completed or cancelled task has no checkpoint, and a failed one has
      a checkpoint only if its last failure was in dispatch. */
  lemma CheckpointConsistent(s: State, t: string)
    requires Reachable(s) && t in s.checkpoints
    ensures t in s.tasks
    ensures s.tasks[t].status != Completed && s.tasks[t].status != Cancelled
    ensures s.tasks[t].status == Failed ==> t in s.ledger.failedBy && s.ledger.failedBy[t] == DispatchFailure
  {
    ReachableInv(s);
  }

  /** A task retried after its run failed never resumes from the failed run's checkpoint. */
  lemma RetryRunsFresh(s: State, r: nat)
    requires Reachable(s) && r in s.runs && s.runs[r].origin == AfterRunFailure
    ensures s.runs[r].pc.Loading? ==> s.runs[r].task !in s.checkpoints
    ensures s.runs[r].pc.Running? ==> !s.runs[r].pc.resumed
  {
    ReachableInv(s);
  }

  /** Whatever has ever been dispatched had, and keeps, all its dependencies completed; so the
      completed tasks are closed under dependencies. */
  lemma DependenciesFirst(s: State, t: string, d: string)
    requires Reachable(s) && t in s.tasks && d in s.tasks[t].deps
    requires s.tasks[t].status != Pending || t in s.ledger.left
    ensures Has(s.tasks, d, Completed)
  {
    ReachableInv(s);
  }

  /** A task in progress is never orphaned while the executor accepts work. */
  lemma NoOrphan(s: State, t: string)
    requires Reachable(s) && s.up && !s.draining && Has(s.tasks, t, InProgress)
    ensures (s.op.Spawning? && s.op.task == t)
            || exists r: nat :: r in s.runs && Live(s.runs[r].pc) && s.runs[r].task == t
  {
    ReachableInv(s);
  }

  /** The moves a task's status can make in one step. */
  predicate Edge(from: Status, to: Status) {
    || from == to
    || (from == Pending && to == InProgress)
    || (from == Failed && to == InProgress)
    || (from == InProgress && to != Blocked)
  }

  lemma OpLooks(s: State, a: OpStep)
    requires !a.CreateIn? && !a.WriteGuarded? && !a.SpawnRun?
    ensures OnlyLooks(s, OpNext(s, a))
  {
  }

  /** The row's status moves along an edge, and not back to pending. */
  predicate MovesOn(a: Tasks, b: Tasks, t: string) {
    && t in a && t in b && Edge(a[t].status, b[t].status)
    && (b[t].status == Pending ==> a[t].status == Pending)
  }

  lemma UpdatesMoveOn(tasks: Tasks, t0: string, graph: string, t: string)
    requires t in tasks
    ensures MovesOn(tasks, PreAssign(tasks, t0, graph), t)
    ensures MovesOn(tasks, Assign(tasks, t0, graph), t)
    ensures MovesOn(tasks, TaskStore.Retry(tasks, t0, graph), t)
  {
  }

  lemma GuardedEdge(s: State, t: string)
    requires t in s.tasks
    ensures MovesOn(s.tasks, GuardedWrite(s).tasks, t)
  {
    if s.op.BlockedBy? || s.op.Clear? || s.op.RetryClear? {
      UpdatesMoveOn(s.tasks, s.op.task, s.op.graph, t);
    }
  }

  lemma OpEdge(s: State, a: OpStep, t: string)
    requires t in s.tasks
    ensures MovesOn(s.tasks, OpNext(s, a).tasks, t)
  {
    if a.WriteGuarded? {
      GuardedEdge(s, t);
    } else if !a.CreateIn? && !a.SpawnRun? {
      OpLooks(s, a);
    }
  }

  lemma RunEdge(s: State, r: nat, a: RunStep, t: string)
    requires t in s.tasks && r in s.runs && RunsOnTasks(s.tasks, s.runs)
    ensures MovesOn(s.tasks, RunNext(s, r, a).tasks, t)
  {
    match a
    case Write =>
    case _ =>
  }

  lemma OuterEdge(s: State, a: OuterStep, t: string)
    requires t in s.tasks
    ensures t in OuterNext(s, a).tasks && OuterNext(s, a).tasks[t].status == s.tasks[t].status
  {
  }

  /** The life cycle, although the terminal write carries no guard on the old status: only a
      restart takes a task from in progress back to pending, and only a task in progress
      reaches a terminal status. */
  lemma LifeCycle(s: State, a: Action, t: string)
    requires Reachable(s) && t in s.tasks
    ensures t in Next(s, a).tasks && Edge(s.tasks[t].status, Next(s, a).tasks[t].status)
    ensures s.tasks[t].status != Pending && Next(s, a).tasks[t].status == Pending ==> a.Boot?
  {
    assert RunsOnTasks(s.tasks, s.runs) by {
      ReachableInv(s);
    }
    if s.up {
      match a
      case Operator(op) => OpEdge(s, op, t);
      case Goroutine(r, step) =>
        if r in s.runs {
          RunEdge(s, r, step, t);
        }
      case Outside(outer) => OuterEdge(s, outer, t);
      case Boot =>
    }
  }

  /** Completed and cancelled tasks stay as they are for ever. */
  lemma {:induction false} Absorbing(s: State, actions: seq<Action>, t: string)
    requires Reachable(s) && (Has(s.tasks, t, Completed) || Has(s.tasks, t, Cancelled))
    ensures Has(Reach(s, actions).tasks, t, s.tasks[t].status)
    decreases actions
  {
    if actions != [] {
      LifeCycle(s, actions[0], t);
      StepReachable(s, actions[0]);
      Absorbing(Next(s, actions[0]), actions[1..], t);
    }
  }

  // ---------------------------------------------------------------- wake-ups

  /** No lost wake-up: once a task is queued because a sibling was seen in progress, every
      completion event of that sibling says that a task is ready, unless the queued task was
      not pending when the event was computed. */
  lemma NoLostWakeUp(s: State, t: string, x: string, e: Completion)
    requires Reachable(s) && (t, x) in s.ledger.queued && e in s.ledger.posted && e.task == x
    ensures e.hasNext || t in e.gone
  {
    ReachableInv(s);
  }

  /** And the operator that acts on it finds the task: as long as it is pending, whatever
      crashes it has been through, the queued task is ready with its graph, and an advance of
      its job takes it unless another such task comes before it. */
  lemma QueuedIsReady(s: State, t: string, x: string)
    requires Reachable(s) && (t, x) in s.ledger.queued && Has(s.tasks, t, Pending)
    ensures Graphed(s.tasks, t, s.tasks[t].job)
    ensures s.op.Idle? && s.loop.mode == Advancing(s.tasks[t].job) ==>
              (OpNext(s, ChooseReady(t)).op == Chosen(t, s.tasks[t].graph)
               <==> !Overtaken(s.tasks, t, s.tasks[t].job))
  {
    WaiterIsGraphed(s, t, x);
  }

  lemma WaiterIsGraphed(s: State, t: string, x: string)
    requires Reachable(s) && (t, x) in s.ledger.queued && Has(s.tasks, t, Pending)
    ensures Graphed(s.tasks, t, s.tasks[t].job)
  {
    ReachableInv(s);
  }

  lemma {:induction false} LowestExists(tasks: Tasks, ids: set<string>) returns (t: string)
    requires ids != {} && ids <= tasks.Keys
    ensures t in ids && forall u :: u in ids ==> !Before(tasks[u].rank, tasks[t].rank)
    decreases ids
  {
    t :| t in ids;
    if ids != {t} {
      var u := LowestExists(tasks, ids - {t});
      if Before(tasks[u].rank, tasks[t].rank) {
        t := u;
      }
    }
  }

  /** An advance that finds a ready task with a graph has a first one to take. */
  lemma FirstExists(tasks: Tasks, job: string) returns (t: string)
    requires AnyGraphed(tasks, job)
    ensures FirstGraphed(tasks, t, job)
  {
    var ids := set u | u in tasks && Graphed(tasks, u, job);
    var some :| some in tasks && Graphed(tasks, some, job);
    assert some in ids;
    t := LowestExists(tasks, ids);
  }

  const GATE_STEPS := [Operator(ListSiblings("")), Operator(WriteGuarded)]

  lemma ClearStarts(s: State, t: string, g: string)
    requires s.up && s.op == Clear(t, g) && Has(s.tasks, t, Pending)
    ensures Reach(s, [Operator(WriteGuarded)]) == StartTask(s, t, g)
  {
    assert Reach(s, [Operator(WriteGuarded)]) == Reach(StartTask(s, t, g), []);
  }

  /** The gate lets a pending task of an idle job through. */
  lemma GateStarts(s: State, t: string, g: string)
    requires s.up && s.op == Checked(t, g) && Has(s.tasks, t, Pending) && !AnyBusy(s.tasks, t)
    ensures Reach(s, GATE_STEPS) == StartTask(s, t, g)
  {
    assert !Busy(s.tasks, t, "");
    assert GATE_STEPS[1..] == [Operator(WriteGuarded)];
    ClearStarts(List(s, ""), t, g);
  }

  /** The operator's own steps, uninterrupted, start the first ready task with a graph when its
      job is being advanced and idle. */
  lemma ReadyCanStart(s: State, t: string)
    requires s.up && s.op.Idle? && t in s.tasks && s.loop.mode == Advancing(s.tasks[t].job)
    requires FirstGraphed(s.tasks, t, s.tasks[t].job) && !AnyBusy(s.tasks, t)
    ensures Reach(s, StartSteps(t)) == StartTask(s, t, s.tasks[t].graph)
  {
    var g := s.tasks[t].graph;
    assert StartSteps(t)[1..] == [Operator(CheckPending)] + GATE_STEPS;
    assert Reach(s, StartSteps(t)) == Reach(Choose(s, t), [Operator(CheckPending)] + GATE_STEPS);
    assert ([Operator(CheckPending)] + GATE_STEPS)[1..] == GATE_STEPS;
    GateStarts(s.(op := Checked(t, g)), t, g);
  }

  function StartSteps(t: string): seq<Action> {
    [Operator(ChooseReady(t)), Operator(CheckPending)] + GATE_STEPS
  }

  // ---------------------------------------------------------------- crash, restart and shutdown

  /** After a restart everything that was in progress is ready again with its graph and its
      checkpoint, and nothing is in progress. */
  lemma RestartRequeues(s: State, t: string)
    requires Reachable(s) && s.up && Has(s.tasks, t, InProgress)
    ensures var s' := Next(Next(s, Outside(Crash)), Boot);
            && Ready(s'.tasks, t) && s'.tasks[t].graph != "" && s'.checkpoints == s.checkpoints
            && forall x :: x in s'.tasks ==> s'.tasks[x].status != InProgress
  {
    StepReachable(s, Outside(Crash));
    StepReachable(Next(s, Outside(Crash)), Boot);
    ReachableInv(s);
    ReachableInv(Next(Next(s, Outside(Crash)), Boot));
  }

  lemma ReachThree(s: State, a: Action, b: Action, c: Action)
    ensures Reach(s, [a, b, c]) == Next(Next(Next(s, a), b), c)
  {
    var s1 := Next(s, a);
    var s2 := Next(s1, b);
    assert Reach(s1, [b, c]) == Reach(s2, [c]);
    assert Reach(s2, [c]) == Reach(Next(s2, c), []);
  }

  lemma CancelledPath(s: State, r: nat)
    requires s.up && r in s.runs && s.runs[r].pc == Returned(false) && s.runs[r].cancelled
    requires Has(s.tasks, s.runs[r].task, InProgress)
    ensures var s' := Next(Next(Next(s, Goroutine(r, Judge)), Goroutine(r, Drop)), Goroutine(r, Write));
            var t := s.runs[r].task;
            && (s.draining ==> s'.tasks == s.tasks && s'.checkpoints == s.checkpoints)
            && (!s.draining ==> Has(s'.tasks, t, Cancelled) && t !in s'.checkpoints)
  {
    var s1 := Next(s, Goroutine(r, Judge));
    var s2 := Next(s1, Goroutine(r, Drop));
    assert s1.runs[r].pc == if s.draining then Ending(true) else Dropping(false);
    assert s2.runs[r].pc == if s.draining then Ending(true) else Writing(false);
    assert !s.draining ==> Next(s2, Goroutine(r, Write)) == CancelTask(s2, r);
  }

  /** What the error path of Execute does to a cancelled run: the task and its checkpoint are
      left for the next start exactly when the executor is already draining; otherwise the
      task ends cancelled without a checkpoint. */
  lemma ResumableIff(s: State, r: nat)
    requires Reachable(s) && s.up && r in s.runs && s.runs[r].pc == Returned(false) && s.runs[r].cancelled
    ensures var s' := Reach(s, [Goroutine(r, Judge), Goroutine(r, Drop), Goroutine(r, Write)]);
            var t := s.runs[r].task;
            && (s.draining <==> Has(s'.tasks, t, InProgress))
            && (s.draining ==> s'.tasks == s.tasks && s'.checkpoints == s.checkpoints)
            && (!s.draining ==> Has(s'.tasks, t, Cancelled) && t !in s'.checkpoints)
  {
    assert Has(s.tasks, s.runs[r].task, InProgress) by {
      ReachableInv(s);
    }
    ReachThree(s, Goroutine(r, Judge), Goroutine(r, Drop), Goroutine(r, Write));
    CancelledPath(s, r);
  }

  ghost predicate InCancelledHands(runs: map<nat, Run>, t: string) {
    forall r: nat :: r in runs && Live(runs[r].pc) && runs[r].task == t ==>
      runs[r].cancelled && (runs[r].pc.Loading? || runs[r].pc.Running? || runs[r].pc == Returned(false))
  }

  /** The task is in the hands of a cancelled run that has not come back with a success. */
  ghost predicate Interrupted(s: State, t: string) {
    && s.up && s.draining && Has(s.tasks, t, InProgress)
    && !(s.op.Spawning? && s.op.task == t)
    && InCancelledHands(s.runs, t)
  }

  /** The process runs on, and no run of the task succeeds after all. */
  ghost predicate CutShort(s: State, a: Action, t: string) {
    && a != Outside(Crash)
    && (a.Goroutine? && a.step == Return(true) && a.r in s.runs ==> s.runs[a.r].task != t)
  }

  lemma OpInterrupted(s: State, a: OpStep, t: string)
    requires s.up && Interrupted(s, t)
    ensures Interrupted(OpNext(s, a), t) && OpNext(s, a).checkpoints == s.checkpoints
  {
    if a.WriteGuarded? {
      GuardedInterrupted(s, t);
    } else if !a.CreateIn? && !a.SpawnRun? {
      OpLooks(s, a);
    }
  }

  lemma UpdatesKeepStarted(tasks: Tasks, t0: string, graph: string, t: string)
    requires Has(tasks, t, InProgress)
    ensures Has(PreAssign(tasks, t0, graph), t, InProgress)
    ensures Has(Assign(tasks, t0, graph), t, InProgress)
    ensures Has(TaskStore.Retry(tasks, t0, graph), t, InProgress)
  {
  }

  lemma GuardedStays(s: State, t: string)
    requires Has(s.tasks, t, InProgress)
    ensures Has(GuardedWrite(s).tasks, t, InProgress)
  {
    if s.op.BlockedBy? || s.op.Clear? || s.op.RetryClear? {
      UpdatesKeepStarted(s.tasks, s.op.task, s.op.graph, t);
    }
  }

  lemma GuardedInterrupted(s: State, t: string)
    requires Interrupted(s, t)
    ensures Interrupted(GuardedWrite(s), t) && GuardedWrite(s).checkpoints == s.checkpoints
  {
    GuardedStays(s, t);
  }

  /** A goroutine moves on: the interrupted one only where a cancelled run may be. */
  lemma PcInterrupted(s: State, r: nat, pc: Pc, t: string)
    requires InCancelledHands(s.runs, t) && r in s.runs
    requires s.runs[r].task == t && Live(pc) ==>
               Live(s.runs[r].pc) && (pc.Loading? || pc.Running? || pc == Returned(false))
    ensures InCancelledHands(At(s, r, pc).runs, t)
  {
  }

  lemma EarlyInterrupted(s: State, r: nat, ok: bool, t: string)
    requires r in s.runs && Interrupted(s, t)
    ensures Interrupted(BeginTask(s, r), t) && Interrupted(PrepareTask(s, r, ok), t)
            && Interrupted(LoadCheckpoint(s, r), t)
  {
    match s.runs[r].pc
    case Beginning => PcInterrupted(s, r, Refusing(false), t);
    case Preparing =>
      PcInterrupted(s, r, Loading, t);
      PcInterrupted(s, r, Refusing(true), t);
    case Loading => PcInterrupted(s, r, Running(s.runs[r].task in s.checkpoints), t);
    case _ =>
  }

  lemma LateInterrupted(s: State, r: nat, ok: bool, t: string)
    requires r in s.runs && Interrupted(s, t)
    ensures (ok ==> s.runs[r].task != t) ==> Interrupted(ReturnFromGraph(s, r, ok), t)
    ensures Interrupted(JudgeShutdown(s, r), t)
  {
    match s.runs[r].pc
    case Running(_) =>
      if !ok || s.runs[r].task != t {
        PcInterrupted(s, r, Returned(ok), t);
      }
    case Returned(done) =>
      PcInterrupted(s, r, Ending(true), t);
      if s.runs[r].task != t {
        PcInterrupted(s, r, Dropping(done), t);
      }
    case _ =>
  }

  lemma PrivateInterrupted(s: State, r: nat, a: RunStep, t: string)
    requires r in s.runs && Interrupted(s, t) && Private(a)
    requires a == Return(true) ==> s.runs[r].task != t
    ensures Interrupted(RunNext(s, r, a), t) && RunNext(s, r, a).checkpoints == s.checkpoints
  {
    match a
    case Return(ok) => LateInterrupted(s, r, ok, t);
    case Judge => LateInterrupted(s, r, false, t);
    case Prepare(ok) => EarlyInterrupted(s, r, ok, t);
    case _ => EarlyInterrupted(s, r, true, t);
  }

  lemma EndInterrupted(s: State, r: nat, t: string)
    requires r in s.runs && Interrupted(s, t)
    ensures Interrupted(EndTask(s, r), t) && EndTask(s, r).checkpoints == s.checkpoints
  {
  }

  lemma WriteInterrupted(s: State, r: nat, t: string)
    requires r in s.runs && Interrupted(s, t)
    ensures Interrupted(WriteStatus(s, r), t) && WriteStatus(s, r).checkpoints == s.checkpoints
  {
    match s.runs[r].pc
    case Writing(_) =>
      PcInterrupted(s, r, Querying, t);
      PcInterrupted(s, r, Ending(true), t);
      PcInterrupted(s, r, PostingFailed(true), t);
    case Refusing(registered) => PcInterrupted(s, r, PostingFailed(registered), t);
    case _ =>
  }

  lemma PostInterrupted(s: State, r: nat, sent: bool, t: string)
    requires r in s.runs && Interrupted(s, t)
    ensures Interrupted(PostEvent(s, r, sent), t) && PostEvent(s, r, sent).checkpoints == s.checkpoints
  {
    match s.runs[r].pc
    case Posting(_, _) => PcInterrupted(s, r, Ending(true), t);
    case PostingFailed(registered) => PcInterrupted(s, r, Ending(registered), t);
    case _ =>
  }

  lemma StoreInterrupted(s: State, r: nat, t: string)
    requires r in s.runs && Interrupted(s, t)
    ensures Interrupted(DropCheckpoint(s, r), t) && Interrupted(QueryReady(s, r), t)
    ensures t in s.checkpoints ==> t in DropCheckpoint(s, r).checkpoints
  {
    match s.runs[r].pc
    case Dropping(ok) =>
      if s.runs[r].task != t {
        PcInterrupted(s, r, Writing(ok), t);
      }
    case Querying => PcInterrupted(s, r, QueryReady(s, r).runs[r].pc, t);
    case _ =>
  }

  lemma SharedInterrupted(s: State, r: nat, a: RunStep, t: string)
    requires r in s.runs && Interrupted(s, t) && !Private(a)
    ensures Interrupted(RunNext(s, r, a), t)
    ensures t in s.checkpoints ==> t in RunNext(s, r, a).checkpoints
  {
    match a
    case Save(c) =>
    case Write => WriteInterrupted(s, r, t);
    case Post(sent) => PostInterrupted(s, r, sent, t);
    case End => EndInterrupted(s, r, t);
    case _ => StoreInterrupted(s, r, t);
  }

  lemma OuterInterrupted(s: State, a: OuterStep, t: string)
    requires Interrupted(s, t) && !a.Crash?
    ensures Interrupted(OuterNext(s, a), t) && OuterNext(s, a).checkpoints == s.checkpoints
  {
  }

  lemma StepInterrupted(s: State, a: Action, t: string)
    requires Interrupted(s, t) && CutShort(s, a, t)
    ensures Interrupted(Next(s, a), t)
    ensures t in s.checkpoints ==> t in Next(s, a).checkpoints
  {
    match a
    case Operator(op) => OpInterrupted(s, op, t);
    case Goroutine(r, step) =>
      if r in s.runs {
        if Private(step) {
          PrivateInterrupted(s, r, step, t);
        } else {
          SharedInterrupted(s, r, step, t);
        }
      }
    case Outside(outer) => OuterInterrupted(s, outer, t);
    case Boot =>
  }

  ghost predicate AllCutShort(s: State, actions: seq<Action>, t: string)
    decreases actions
  {
    actions != [] ==> CutShort(s, actions[0], t) && AllCutShort(Next(s, actions[0]), actions[1..], t)
  }

  lemma {:induction false} DrainKeeps(s: State, actions: seq<Action>, t: string)
    requires Interrupted(s, t) && AllCutShort(s, actions, t)
    ensures Interrupted(Reach(s, actions), t)
    ensures t in s.checkpoints ==> t in Reach(s, actions).checkpoints
    decreases actions
  {
    if actions != [] {
      StepInterrupted(s, actions[0], t);
      DrainKeeps(Next(s, actions[0]), actions[1..], t);
    }
  }

  lemma {:induction false} ReachReachable(s: State, actions: seq<Action>)
    requires Reachable(s)
    ensures Reachable(Reach(s, actions))
    decreases actions
  {
    if actions != [] {
      StepReachable(s, actions[0]);
      ReachReachable(Next(s, actions[0]), actions[1..]);
    }
  }

  /** Graceful shutdown: when the executor drains before a task's run is cancelled and comes
      back, then whatever happens until the process exits, the next start finds the task ready,
      with its graph and its checkpoint. */
  lemma ShutdownResumable(s: State, actions: seq<Action>, t: string)
    requires Reachable(s) && Interrupted(s, t) && AllCutShort(s, actions, t)
    ensures var s' := Next(Next(Reach(s, actions), Outside(Crash)), Boot);
            && Ready(s'.tasks, t) && s'.tasks[t].graph != ""
            && (t in s.checkpoints ==> t in s'.checkpoints)
  {
    DrainKeeps(s, actions, t);
    ReachReachable(s, actions);
    RestartRequeues(Reach(s, actions), t);
  }
}
