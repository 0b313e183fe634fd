/** What a restart resumes by itself. */
module TaskRecovery {
  import opened TaskStore
  import opened TaskSystem
  import opened TaskInvariants
  import opened TaskProperties

  /** The task waits, and nothing the operator has in hand leads to it. */
  predicate PassedOver(tasks: Tasks, op: Op, loop: Loop, t: string) {
    && Has(tasks, t, Pending) && !Targets(op, t)
    && loop.mode != Advancing(tasks[t].job) && tasks[t].job !in loop.todo && loop.inbox == []
  }

  /** A write to another row, after which the operator has no job or its old one in hand. */
  lemma RowPassesOver(tasks: Tasks, op: Op, loop: Loop, t: string, u: string, row: Task, op': Op, mode: Mode)
    requires PassedOver(tasks, op, loop, t) && u != t && (op'.Idle? || op'.task == u)
    requires mode == loop.mode || !mode.Advancing?
    ensures PassedOver(tasks[u := row], op', loop.(mode := mode), t)
    ensures PassedOver(tasks, op', loop.(mode := mode), t)
  {
  }

  lemma ReportPassesOver(s: State, t: string)
    requires PassedOver(s.tasks, s.op, s.loop, t)
    ensures PassedOver(s.tasks, Idle, Report(s).loop, t)
  {
  }

  lemma StartPassesOver(tasks: Tasks, op: Op, loop: Loop, t: string)
    requires PassedOver(tasks, op, loop, t) && (op.Clear? || op.RetryClear?) && op.task in tasks
    ensures forall op': Op :: op'.Spawning? && op'.task == op.task ==>
              && PassedOver(Assign(tasks, op.task, op.graph), op', loop, t)
              && PassedOver(TaskStore.Retry(tasks, op.task, op.graph), op', loop, t)
  {
    var row := tasks[op.task].(graph := op.graph, status := InProgress);
    forall op': Op | op'.Spawning? && op'.task == op.task
      ensures PassedOver(tasks[op.task := row], op', loop, t) && PassedOver(tasks, op', loop, t)
    {
      RowPassesOver(tasks, op, loop, t, op.task, row, op', loop.mode);
    }
  }

  lemma QueuePassesOver(tasks: Tasks, op: Op, loop: Loop, t: string)
    requires PassedOver(tasks, op, loop, t) && op.BlockedBy? && op.task in tasks
    ensures PassedOver(PreAssign(tasks, op.task, op.graph), Idle, Finished(loop), t)
  {
    RowPassesOver(tasks, op, loop, t, op.task, tasks[op.task].(graph := op.graph), Idle, Finished(loop).mode);
  }

  lemma GuardPassesOver(s: State, t: string)
    requires PassedOver(s.tasks, s.op, s.loop, t)
    ensures var s' := GuardedWrite(s); PassedOver(s'.tasks, s'.op, s'.loop, t)
  {
    match s.op
    case BlockedBy(u, g, x) =>
      if Has(s.tasks, u, Pending) {
        QueuePassesOver(s.tasks, s.op, s.loop, t);
      } else {
        ReportPassesOver(s, t);
      }
    case Clear(u, g) =>
      if Has(s.tasks, u, Pending) {
        StartPassesOver(s.tasks, s.op, s.loop, t);
      } else {
        ReportPassesOver(s, t);
      }
    case RetryClear(u, g) =>
      if Has(s.tasks, u, Failed) {
        StartPassesOver(s.tasks, s.op, s.loop, t);
      } else {
        ReportPassesOver(s, t);
      }
    case _ =>
  }

  lemma ChoosePassesOver(s: State, u: string, graph: string, t: string)
    requires PassedOver(s.tasks, s.op, s.loop, t)
    ensures PassedOver(s.tasks, Choose(s, u).op, s.loop, t)
            && PassedOver(s.tasks, StartRetry(s, u, graph).op, s.loop, t)
  {
  }

  lemma ListPassesOver(s: State, x: string, t: string)
    requires PassedOver(s.tasks, s.op, s.loop, t)
    ensures PassedOver(s.tasks, List(s, x).op, s.loop, t)
  {
  }

  lemma CheckPassesOver(s: State, t: string)
    requires PassedOver(s.tasks, s.op, s.loop, t)
    ensures PassedOver(s.tasks, Check(s).op, Check(s).loop, t) && PassedOver(s.tasks, Abort(s).op, Abort(s).loop, t)
  {
    ReportPassesOver(s, t);
  }

  lemma CreatePassesOver(s: State, u: string, job: string, graph: string, rank: Rank, t: string)
    requires PassedOver(s.tasks, s.op, s.loop, t)
    ensures var s' := CreateTask(s, u, job, graph, rank); PassedOver(s'.tasks, s'.op, s'.loop, t)
  {
  }

  lemma LoopPassesOver(s: State, job: string, t: string)
    requires PassedOver(s.tasks, s.op, s.loop, t)
    ensures PassedOver(s.tasks, s.op, Sweep(s, job).loop, t) && PassedOver(s.tasks, s.op, Receive(s).loop, t)
    ensures PassedOver(s.tasks, s.op, GiveUp(s).loop, t) && PassedOver(s.tasks, s.op, EndTalk(s).loop, t)
  {
  }

  lemma SpawnPassesOver(s: State, r: nat, pending: bool, t: string)
    requires PassedOver(s.tasks, s.op, s.loop, t)
    ensures PassedOver(s.tasks, Spawn(s, r).op, s.loop, t)
    ensures PassedOver(s.tasks, Promote(s, pending).op, Promote(s, pending).loop, t)
  {
  }

  lemma StepPassesOver(s: State, a: OpStep, t: string)
    requires PassedOver(s.tasks, s.op, s.loop, t)
    ensures var s' := OpNext(s, a); PassedOver(s'.tasks, s'.op, s'.loop, t)
  {
    match a
    case WriteGuarded => GuardPassesOver(s, t);
    case CreateIn(u, job, graph, rank) => CreatePassesOver(s, u, job, graph, rank, t);
    case ChooseReady(u) => ChoosePassesOver(s, u, "", t);
    case RetryFailed(u, graph) => ChoosePassesOver(s, u, graph, t);
    case ListSiblings(x) => ListPassesOver(s, x, t);
    case CheckPending => CheckPassesOver(s, t);
    case Abandon => CheckPassesOver(s, t);
    case SpawnRun(r) => SpawnPassesOver(s, r, true, t);
    case PromoteJob(pending) => SpawnPassesOver(s, 0, pending, t);
    case SweepJob(job) => LoopPassesOver(s, job, t);
    case _ => LoopPassesOver(s, "", t);
  }

  predicate AllOperator(actions: seq<Action>) {
    forall a :: a in actions ==> a.Operator?
  }

  lemma {:induction false} PassedOverStays(s: State, actions: seq<Action>, t: string)
    requires PassedOver(s.tasks, s.op, s.loop, t) && AllOperator(actions)
    ensures var s' := Reach(s, actions); PassedOver(s'.tasks, s'.op, s'.loop, t)
    decreases actions
  {
    if actions != [] {
      assert actions[0] in actions;
      StepPassesOver(s, actions[0].op, t);
      PassedOverStays(Next(s, actions[0]), actions[1..], t);
    }
  }

  // ---------------------------------------------------------------- a task that another one overtakes

  /** The task waits, and the gate will not let it through: a sibling is in progress, or another
      task of its job is ahead of it and the operator has not taken it. */
  predicate Held(tasks: Tasks, op: Op, t: string) {
    && Has(tasks, t, Pending) && op != Clear(t, if op.Clear? then op.graph else "")
    && (AnyBusy(tasks, t) || (Overtaken(tasks, t, tasks[t].job) && !Targets(op, t)))
  }

  /** Rows that are added, or whose status moves without leaving or reaching completed, keep
      whoever is ahead ahead. */
  lemma OvertakenKept(a: Tasks, b: Tasks, t: string, u: string)
    requires DepsKnown(a) && t in a && t in b && u in a && u in b
    requires Graphed(a, u, a[t].job) && Before(a[u].rank, a[t].rank)
    requires b[t].job == a[t].job && b[t].rank == a[t].rank && b[u].rank == a[u].rank && b[u].job == a[u].job
    requires b[u].status == Pending && b[u].graph != "" && b[u].deps == a[u].deps
    requires forall d :: d in a ==> d in b && (a[d].status == Completed ==> b[d].status == Completed)
    ensures Overtaken(b, t, b[t].job)
  {
    assert Graphed(b, u, b[t].job);
  }

  lemma BusyKept(a: Tasks, b: Tasks, t: string)
    requires AnyBusy(a, t) && t in b && b[t].job == a[t].job
    requires forall x :: x in a && a[x].status == InProgress ==>
               x in b && b[x].status == InProgress && b[x].job == a[x].job
    ensures AnyBusy(b, t)
  {
    var x :| x in a && Busy(a, t, x);
    assert Busy(b, t, x);
  }

  ghost predicate RanksKept(a: Tasks, b: Tasks) {
    forall t :: t in a && t in b ==> b[t].rank == a[t].rank
  }

  /** Another row is created, or gets another graph. */
  lemma RowsHeld(a: Tasks, b: Tasks, op: Op, op': Op, t: string)
    requires Held(a, op, t) && DepsKnown(a) && Extends(a, b) && SameStatus(a, b) && RanksKept(a, b)
    requires !op'.Clear? && (Targets(op', t) ==> Targets(op, t))
    ensures Held(b, op', t)
  {
    if AnyBusy(a, t) {
      BusyKept(a, b, t);
    } else {
      var u :| u in a && Graphed(a, u, a[t].job) && Before(a[u].rank, a[t].rank);
      OvertakenKept(a, b, t, u);
    }
  }

  /** Another task starts: if it belongs to the job, it holds the gate. */
  lemma StartHeld(a: Tasks, op: Op, t: string, v: string, row: Task, op': Op)
    requires Held(a, op, t) && DepsKnown(a) && v in a && v != t && a[v].status != Completed && a[v].status != InProgress
    requires row == a[v].(graph := row.graph, status := InProgress) && op'.Spawning? && op'.task == v
    ensures Held(a[v := row], op', t)
  {
    var b := a[v := row];
    if row.job == a[t].job {
      assert Busy(b, t, v);
    } else if AnyBusy(a, t) {
      BusyKept(a, b, t);
    } else {
      var u :| u in a && Graphed(a, u, a[t].job) && Before(a[u].rank, a[t].rank);
      OvertakenKept(a, b, t, u);
    }
  }

  /** Leaving a tool gives nobody the gate. */
  lemma IdleHeld(tasks: Tasks, op: Op, t: string)
    requires Held(tasks, op, t)
    ensures Held(tasks, Idle, t)
  {
  }

  lemma CheckHeld(s: State, t: string)
    requires Held(s.tasks, s.op, t)
    ensures Held(s.tasks, Check(s).op, t)
  {
    IdleHeld(s.tasks, s.op, t);
  }

  lemma AbortHeld(s: State, t: string)
    requires Held(s.tasks, s.op, t)
    ensures Held(s.tasks, Abort(s).op, t)
  {
    IdleHeld(s.tasks, s.op, t);
  }

  lemma ChooseHeld(s: State, u: string, graph: string, t: string)
    requires Held(s.tasks, s.op, t)
    ensures Held(s.tasks, Choose(s, u).op, t) && Held(s.tasks, StartRetry(s, u, graph).op, t)
  {
  }

  lemma ListHeld(s: State, x: string, t: string)
    requires Held(s.tasks, s.op, t)
    ensures Held(s.tasks, List(s, x).op, t)
  {
  }

  /** The operator's place changes, the rows do not. */
  lemma LookHeld(s: State, a: OpStep, t: string)
    requires Held(s.tasks, s.op, t) && !a.WriteGuarded? && !a.CreateIn? && !a.SpawnRun?
    ensures Held(s.tasks, OpNext(s, a).op, t)
  {
    match a
    case ChooseReady(u) => ChooseHeld(s, u, "", t);
    case RetryFailed(u, graph) => ChooseHeld(s, u, graph, t);
    case ListSiblings(x) => ListHeld(s, x, t);
    case CheckPending => CheckHeld(s, t);
    case Abandon => AbortHeld(s, t);
    case PromoteJob(pending) => IdleHeld(s.tasks, s.op, t);
    case _ =>
  }

  lemma CreateHeld(s: State, u: string, job: string, graph: string, rank: Rank, t: string)
    requires Held(s.tasks, s.op, t) && DepsKnown(s.tasks)
    ensures Held(CreateTask(s, u, job, graph, rank).tasks, CreateTask(s, u, job, graph, rank).op, t)
  {
    if s.op.Idle? && s.loop.mode.Talking? && u !in s.tasks {
      RowsHeld(s.tasks, Create(s.tasks, u, job, rank), s.op, if graph == "" then Idle else Checked(u, graph), t);
    }
  }

  lemma ClearHeld(s: State, t: string)
    requires Held(s.tasks, s.op, t) && DepsKnown(s.tasks) && s.op.Clear?
    ensures Held(GuardedWrite(s).tasks, GuardedWrite(s).op, t)
  {
    var u := s.op.task;
    if Has(s.tasks, u, Pending) {
      var op := StartTask(s, u, s.op.graph).op;
      StartHeld(s.tasks, s.op, t, u, s.tasks[u].(graph := s.op.graph, status := InProgress), op);
    } else {
      IdleHeld(s.tasks, s.op, t);
    }
  }

  lemma RetryHeld(s: State, t: string)
    requires Held(s.tasks, s.op, t) && DepsKnown(s.tasks) && s.op.RetryClear?
    ensures Held(GuardedWrite(s).tasks, GuardedWrite(s).op, t)
  {
    var u := s.op.task;
    if Has(s.tasks, u, Failed) {
      var op := RestartTask(s, u, s.op.graph).op;
      StartHeld(s.tasks, s.op, t, u, s.tasks[u].(graph := s.op.graph, status := InProgress), op);
    } else {
      IdleHeld(s.tasks, s.op, t);
    }
  }

  lemma PreAssignRows(tasks: Tasks, u: string, graph: string)
    requires graph != ""
    ensures var b := PreAssign(tasks, u, graph); Extends(tasks, b) && SameStatus(tasks, b) && RanksKept(tasks, b)
  {
  }

  lemma QueueHeld(s: State, t: string)
    requires Held(s.tasks, s.op, t) && DepsKnown(s.tasks) && s.op.BlockedBy? && s.op.graph != ""
    ensures Held(GuardedWrite(s).tasks, GuardedWrite(s).op, t)
  {
    var u, g := s.op.task, s.op.graph;
    if Has(s.tasks, u, Pending) {
      PreAssignRows(s.tasks, u, g);
      RowsHeld(s.tasks, PreAssign(s.tasks, u, g), s.op, Idle, t);
    } else {
      IdleHeld(s.tasks, s.op, t);
    }
  }

  lemma GuardHeld(s: State, t: string)
    requires Held(s.tasks, s.op, t) && DepsKnown(s.tasks) && OpKnown(s.tasks, s.ledger.left, s.op)
    ensures Held(GuardedWrite(s).tasks, GuardedWrite(s).op, t)
  {
    if s.op.BlockedBy? {
      QueueHeld(s, t);
    } else if s.op.Clear? {
      ClearHeld(s, t);
    } else if s.op.RetryClear? {
      RetryHeld(s, t);
    }
  }

  lemma StepHeld(s: State, a: OpStep, t: string)
    requires Inv(s) && Held(s.tasks, s.op, t)
    ensures Held(OpNext(s, a).tasks, OpNext(s, a).op, t)
  {
    match a
    case WriteGuarded => GuardHeld(s, t);
    case CreateIn(u, job, graph, rank) => CreateHeld(s, u, job, graph, rank, t);
    case SpawnRun(r) =>
    case _ =>
      OpLooks(s, a);
      LookHeld(s, a, t);
  }

  lemma {:induction false} HeldStays(s: State, actions: seq<Action>, t: string)
    requires Inv(s) && Held(s.tasks, s.op, t) && AllOperator(actions)
    ensures Held(Reach(s, actions).tasks, Reach(s, actions).op, t)
    decreases actions
  {
    if actions != [] {
      assert actions[0] in actions;
      StepHeld(s, actions[0].op, t);
      StepKeeps(s, actions[0]);
      HeldStays(Next(s, actions[0]), actions[1..], t);
    }
  }

  // ---------------------------------------------------------------- the exact conditions

  /** The operator alone can start the task. */
  ghost predicate Resumes(s: State, t: string) {
    exists actions: seq<Action> :: AllOperator(actions) && Has(Reach(s, actions).tasks, t, InProgress)
  }

  /** Left alone, the recovery sweep starts the first ready task of the job that has a graph. */
  lemma SweepResumes(s: State, t: string)
    requires s.up && AtRest(s) && t in s.tasks && s.tasks[t].job in s.loop.todo
    requires FirstGraphed(s.tasks, t, s.tasks[t].job) && !AnyBusy(s.tasks, t)
    ensures Reach(s, [Operator(SweepJob(s.tasks[t].job))] + StartSteps(t)).tasks
            == Assign(s.tasks, t, s.tasks[t].graph)
    ensures Resumes(s, t)
  {
    var job := s.tasks[t].job;
    var actions := [Operator(SweepJob(job))] + StartSteps(t);
    assert actions[1..] == StartSteps(t);
    assert Graphed(s.tasks, t, job);
    assert Reach(s, actions) == Reach(Sweep(s, job), StartSteps(t));
    ReadyCanStart(Sweep(s, job), t);
    assert AllOperator(actions) && Has(Reach(s, actions).tasks, t, InProgress);
  }

  /** The rows after a restart, and who is ahead of whom in them. */
  lemma RequeuedRows(tasks: Tasks, t: string)
    requires Serial(tasks) && Has(tasks, t, InProgress)
    ensures var b := Reconcile(tasks);
            && b[t].job == tasks[t].job && !AnyBusy(b, t)
            && (Overtaken(b, t, tasks[t].job) <==> Overtaken(tasks, t, tasks[t].job))
  {
    var b, job := Reconcile(tasks), tasks[t].job;
    forall u | u in tasks && Before(tasks[u].rank, tasks[t].rank)
      ensures Graphed(b, u, job) <==> Graphed(tasks, u, job)
    {
      assert Together(tasks, u, t) ==> u == t;
      assert DepsDone(b, u) <==> DepsDone(tasks, u);
    }
  }

  /** The exact condition: by itself the operator can start a task that a crash interrupted
      exactly when its job was marked active at the crash and no other task of the job was
      ready, with a graph and of lower rank. */
  lemma RestartResumesIff(s: State, t: string)
    requires Reachable(s) && s.up && Has(s.tasks, t, InProgress)
    ensures Resumes(Next(Next(s, Outside(Crash)), Boot), t)
       <==> s.tasks[t].job in s.active && !Overtaken(s.tasks, t, s.tasks[t].job)
  {
    RestartRequeues(s, t);
    RestartInv(s);
    RequeuedRows(s.tasks, t);
    var s' := Next(Next(s, Outside(Crash)), Boot);
    if s.tasks[t].job !in s.active {
      forall actions: seq<Action> | AllOperator(actions) ensures !Has(Reach(s', actions).tasks, t, InProgress) {
        PassedOverStays(s', actions, t);
      }
    } else if Overtaken(s.tasks, t, s.tasks[t].job) {
      forall actions: seq<Action> | AllOperator(actions) ensures !Has(Reach(s', actions).tasks, t, InProgress) {
        HeldStays(s', actions, t);
      }
    } else {
      SweepResumes(s', t);
    }
  }

  lemma RestartInv(s: State)
    requires Reachable(s) && s.up
    ensures Inv(Next(Next(s, Outside(Crash)), Boot)) && Serial(s.tasks)
  {
    ReachableInv(s);
    StepKeeps(s, Outside(Crash));
    StepKeeps(Next(s, Outside(Crash)), Boot);
  }

  /** And the job as a whole: after a crash that interrupted one of its tasks, the operator by
      itself can start some waiting task of the job exactly when the job was marked active. */
  lemma RestartMovesJobIff(s: State, t: string)
    requires Reachable(s) && s.up && Has(s.tasks, t, InProgress)
    ensures var s' := Next(Next(s, Outside(Crash)), Boot);
            (exists u :: Has(s'.tasks, u, Pending) && s'.tasks[u].job == s.tasks[t].job && Resumes(s', u))
            <==> s.tasks[t].job in s.active
  {
    RestartRequeues(s, t);
    var s', job := Next(Next(s, Outside(Crash)), Boot), s.tasks[t].job;
    if job in s.active {
      assert Graphed(s'.tasks, t, job);
      var u := FirstExists(s'.tasks, job);
      SweepResumes(s', u);
    } else {
      forall u, actions: seq<Action> | Has(s'.tasks, u, Pending) && s'.tasks[u].job == job && AllOperator(actions)
        ensures !Has(Reach(s', actions).tasks, u, InProgress)
      {
        PassedOverStays(s', actions, u);
      }
    }
  }
}
