/** Nobody is stranded: as long as a queued or interrupted task waits, something in its job will
    reach the operator's advance, or the chain is known to be broken. */
module TaskProgress {
  import opened TaskStore
  import opened TaskSystem
  import opened TaskInvariants
  import opened TaskProperties

  predicate Working(tasks: Tasks, job: string) {
    exists t :: t in tasks && tasks[t].job == job && tasks[t].status == InProgress
  }

  /** A completed run of the job has yet to ask, or to post that a task is ready. */
  predicate WillTell(pc: Pc) {
    pc.Querying? || (pc.Posting? && pc.hasNext)
  }

  ghost predicate Telling(tasks: Tasks, runs: map<nat, Run>, job: string) {
    exists r: nat :: r in runs && runs[r].task in tasks && tasks[runs[r].task].job == job && WillTell(runs[r].pc)
  }

  predicate Advances(e: Event, job: string) {
    e.TaskCompleted? && e.job == job && e.hasNext
  }

  predicate Coming(inbox: seq<Event>, job: string) {
    exists i :: 0 <= i < |inbox| && Advances(inbox[i], job)
  }

  /** Something other than the operator's current tool moves the job, or its chain is broken. */
  ghost predicate Moving(
    tasks: Tasks, runs: map<nat, Run>, inbox: seq<Event>, broken: map<string, Break>, job: string)
  {
    Working(tasks, job) || Telling(tasks, runs, job) || Coming(inbox, job) || job in broken
  }

  /** The operator is advancing the job and has not decided yet. */
  predicate Searching(op: Op, mode: Mode, job: string) {
    mode == Advancing(job) && (op.Idle? || op.Chosen? || op.Checked? || op.Clear?)
  }

  /** The tasks that were once dispatched, and those that were queued behind a sibling; pending
      ones among them wait for the operator. */
  function Waiters(ledger: Ledger): set<string> {
    ledger.left + set q | q in ledger.queued :: q.0
  }

  ghost predicate AllGraphed(tasks: Tasks, waiters: set<string>) {
    forall t :: t in waiters ==>
      t in tasks && (tasks[t].status == Pending ==> Graphed(tasks, t, tasks[t].job))
  }

  ghost predicate QueueMoves(
    tasks: Tasks, op: Op, loop: Loop, runs: map<nat, Run>, waiters: set<string>, broken: map<string, Break>)
  {
    forall t :: t in waiters && Has(tasks, t, Pending) ==>
      var job := tasks[t].job;
      Moving(tasks, runs, loop.inbox, broken, job) || Searching(op, loop.mode, job) || job in loop.todo
  }

  ghost predicate BlockMoves(tasks: Tasks, op: Op, runs: map<nat, Run>, inbox: seq<Event>, broken: map<string, Break>) {
    op.BlockedBy? && op.task in tasks ==> Moving(tasks, runs, inbox, broken, tasks[op.task].job)
  }

  /** What the operator dispatches is pending, and belongs to the job it is advancing. */
  ghost predicate OpPlaced(tasks: Tasks, op: Op, mode: Mode) {
    && (Dispatching(op) ==> Has(tasks, op.task, Pending))
    && (mode.Advancing? && Dispatching(op) && op.task in tasks ==> tasks[op.task].job == mode.job)
    && (mode.Advancing? ==> !Retrying(op))
  }

  ghost predicate Progress(s: State) {
    && QueueMoves(s.tasks, s.op, s.loop, s.runs, Waiters(s.ledger), s.ledger.broken)
    && BlockMoves(s.tasks, s.op, s.runs, s.loop.inbox, s.ledger.broken)
    && OpPlaced(s.tasks, s.op, s.loop.mode)
  }

  // ---------------------------------------------------------------- the event loop

  /** A waiting task keeps the operator's search for its job from coming up empty. */
  lemma WaitersFound(s: State)
    requires Inv(s)
    ensures AllGraphed(s.tasks, Waiters(s.ledger))
  {
    forall t | t in Waiters(s.ledger)
      ensures t in s.tasks && (s.tasks[t].status == Pending ==> Graphed(s.tasks, t, s.tasks[t].job))
    {
      if t !in s.ledger.left {
        var q :| q in s.ledger.queued && q.0 == t;
        assert Waits(s.tasks, q.0, q.1) && s.tasks[q.0].graph != "";
      }
    }
  }

  lemma SweepProgress(s: State, job: string)
    requires AllGraphed(s.tasks, Waiters(s.ledger)) && Progress(s)
    ensures Progress(Sweep(s, job))
  {
  }

  lemma GiveUpProgress(s: State)
    requires AllGraphed(s.tasks, Waiters(s.ledger)) && Progress(s)
    ensures Progress(GiveUp(s))
  {
  }

  lemma ComingKept(inbox: seq<Event>, job: string)
    requires inbox != [] && Coming(inbox, job) && !Advances(inbox[0], job)
    ensures Coming(inbox[1..], job)
  {
    var i :| 0 <= i < |inbox| && Advances(inbox[i], job);
    assert Advances(inbox[1..][i - 1], job);
  }

  /** Taking the head of the channel turns what was coming into a search. */
  lemma ReceiveQueue(
    tasks: Tasks, loop: Loop, runs: map<nat, Run>, waiters: set<string>, broken: map<string, Break>)
    requires QueueMoves(tasks, Idle, loop, runs, waiters, broken) && loop.mode.Listening? && loop.todo == {}
    requires loop.inbox != []
    ensures QueueMoves(
              tasks, Idle, loop.(inbox := loop.inbox[1..], mode := ModeFor(loop.inbox[0])), runs, waiters, broken)
  {
    forall job | Coming(loop.inbox, job) && !Advances(loop.inbox[0], job) ensures Coming(loop.inbox[1..], job) {
      ComingKept(loop.inbox, job);
    }
  }

  /** An operator in no tool owes nothing. */
  lemma IdlePlaced(tasks: Tasks, runs: map<nat, Run>, inbox: seq<Event>, broken: map<string, Break>, mode: Mode)
    ensures BlockMoves(tasks, Idle, runs, inbox, broken) && OpPlaced(tasks, Idle, mode)
  {
  }

  lemma ReceiveProgress(s: State)
    requires Progress(s)
    ensures Progress(Receive(s))
  {
    if AtRest(s) && s.loop.todo == {} && s.loop.inbox != [] {
      var loop := s.loop.(inbox := s.loop.inbox[1..], mode := ModeFor(s.loop.inbox[0]));
      ReceiveQueue(s.tasks, s.loop, s.runs, Waiters(s.ledger), s.ledger.broken);
      IdlePlaced(s.tasks, s.runs, loop.inbox, s.ledger.broken, loop.mode);
    }
  }

  lemma ReportProgress(s: State)
    requires Progress(s)
    ensures Progress(Report(s))
  {
  }

  lemma ChooseProgress(s: State, t: string)
    requires Progress(s)
    ensures Progress(Choose(s, t))
  {
  }

  lemma CheckProgress(s: State)
    requires Progress(s)
    ensures Progress(Check(s))
  {
    if s.op.Chosen? && !Has(s.tasks, s.op.task, Pending) {
      ReportProgress(s);
    }
  }

  /** Being blocked by a sibling in progress is a reason not to worry about the job. */
  lemma BlockProgress(s: State, x: string)
    requires Progress(s) && s.op.Checked? && Busy(s.tasks, s.op.task, x)
    ensures Progress(s.(op := BlockedBy(s.op.task, s.op.graph, x)))
  {
    assert Working(s.tasks, s.tasks[s.op.task].job);
  }

  lemma PassProgress(s: State, op: Op)
    requires Progress(s)
    requires (s.op.Checked? && op == Clear(s.op.task, s.op.graph))
             || (s.op.RetryChecked? && (op.Idle? || op == RetryClear(s.op.task, s.op.graph)))
    ensures Progress(s.(op := op))
  {
  }

  lemma ListProgress(s: State, x: string)
    requires Progress(s)
    ensures Progress(List(s, x))
  {
    if s.op.Checked? {
      if Busy(s.tasks, s.op.task, x) {
        BlockProgress(s, x);
      } else {
        PassProgress(s, Clear(s.op.task, s.op.graph));
      }
    } else if s.op.RetryChecked? {
      PassProgress(s, Idle);
      PassProgress(s, RetryClear(s.op.task, s.op.graph));
    }
  }

  lemma RetryProgress(s: State, t: string, graph: string)
    requires Progress(s)
    ensures Progress(StartRetry(s, t, graph))
  {
  }

  /** Leaving a tool that was not searching. */
  lemma LeaveQueue(
    tasks: Tasks, op: Op, loop: Loop, mode: Mode, runs: map<nat, Run>, waiters: set<string>,
    broken: map<string, Break>)
    requires QueueMoves(tasks, op, loop, runs, waiters, broken)
    requires op.Promoting? || op.BlockedBy? || loop.mode.Talking?
    requires op.BlockedBy? && loop.mode.Advancing? ==> Moving(tasks, runs, loop.inbox, broken, loop.mode.job)
    ensures QueueMoves(tasks, Idle, loop.(mode := mode), runs, waiters, broken)
  {
  }

  lemma PromoteProgress(s: State, pending: bool)
    requires Progress(s)
    ensures Progress(Promote(s, pending))
  {
    if s.op.Promoting? {
      LeaveQueue(s.tasks, s.op, s.loop, Finished(s.loop).mode, s.runs, Waiters(s.ledger), s.ledger.broken);
      IdlePlaced(s.tasks, s.runs, s.loop.inbox, s.ledger.broken, Finished(s.loop).mode);
    }
  }

  lemma EndTalkProgress(s: State)
    requires Progress(s)
    ensures Progress(EndTalk(s))
  {
    if s.op.Idle? && s.loop.mode.Talking? {
      LeaveQueue(s.tasks, s.op, s.loop, Listening, s.runs, Waiters(s.ledger), s.ledger.broken);
      IdlePlaced(s.tasks, s.runs, s.loop.inbox, s.ledger.broken, Listening);
    }
  }

  lemma AbortProgress(s: State)
    requires Progress(s)
    ensures Progress(Abort(s))
  {
    ReportProgress(s);
  }

  // ---------------------------------------------------------------- the operator writes

  /** What moves a job keeps moving it when rows keep their status and job. */
  lemma RowsMoving(a: Tasks, b: Tasks, runs: map<nat, Run>, inbox: seq<Event>, broken: map<string, Break>, job: string)
    requires Extends(a, b) && SameStatus(a, b) && Moving(a, runs, inbox, broken, job)
    ensures Moving(b, runs, inbox, broken, job)
  {
    if Working(a, job) {
      var t :| t in a && a[t].job == job && a[t].status == InProgress;
      assert t in b && b[t].job == job && b[t].status == InProgress;
    }
    if Telling(a, runs, job) {
      var r: nat :| r in runs && runs[r].task in a && a[runs[r].task].job == job && WillTell(runs[r].pc);
      assert runs[r].task in b && b[runs[r].task].job == job;
    }
  }

  lemma RowsProgress(s: State, b: Tasks)
    requires Progress(s) && Extends(s.tasks, b) && SameStatus(s.tasks, b)
    requires AllGraphed(s.tasks, Waiters(s.ledger))
    requires Dispatching(s.op) ==> s.op.task in s.tasks
    ensures Progress(s.(tasks := b))
  {
    forall job | Moving(s.tasks, s.runs, s.loop.inbox, s.ledger.broken, job)
      ensures Moving(b, s.runs, s.loop.inbox, s.ledger.broken, job)
    {
      RowsMoving(s.tasks, b, s.runs, s.loop.inbox, s.ledger.broken, job);
    }
  }

  lemma CreateTaskProgress(s: State, t: string, job: string, graph: string, rank: Rank)
    requires Inv(s) && Progress(s)
    ensures Progress(CreateTask(s, t, job, graph, rank))
  {
    if s.op.Idle? && s.loop.mode.Talking? && t !in s.tasks {
      var s1 := s.(tasks := Create(s.tasks, t, job, rank));
      WaitersFound(s);
      RowsProgress(s, s1.tasks);
      CreatedPlaced(s1, t, graph);
    }
  }

  lemma CreatedPlaced(s: State, t: string, graph: string)
    requires Progress(s) && Has(s.tasks, t, Pending) && s.op.Idle? && s.loop.mode.Talking?
    ensures Progress(s.(op := if graph == "" then Idle else Checked(t, graph)))
  {
  }

  lemma QueueProgress(s: State)
    requires Inv(s) && Progress(s) && s.op.BlockedBy?
    ensures Progress(QueueTask(s, s.op.task, s.op.graph, s.op.sibling))
  {
    var b := PreAssign(s.tasks, s.op.task, s.op.graph);
    WaitersFound(s);
    RowsProgress(s, b);
    QueuedMoves(b, s.op, s.loop, s.runs, Waiters(s.ledger), s.ledger.broken);
    QueuedWaits(s.ledger, s.op.task, s.op.sibling);
    IdlePlaced(b, s.runs, s.loop.inbox, s.ledger.broken, Finished(s.loop).mode);
  }

  lemma QueuedWaits(ledger: Ledger, t: string, x: string)
    ensures Waiters(ledger.(queued := ledger.queued + {(t, x)})) == Waiters(ledger) + {t}
  {
    var more := ledger.queued + {(t, x)};
    assert (t, x) in more;
    forall u | u in Waiters(ledger) + {t} ensures u in Waiters(ledger.(queued := more)) {
      if u !in ledger.left && u != t {
        var q :| q in ledger.queued && q.0 == u;
        assert q in more;
      }
    }
  }

  lemma QueuedMoves(
    tasks: Tasks, op: Op, loop: Loop, runs: map<nat, Run>, waiters: set<string>,
    broken: map<string, Break>)
    requires QueueMoves(tasks, op, loop, runs, waiters, broken) && op.BlockedBy? && op.task in tasks
    requires BlockMoves(tasks, op, runs, loop.inbox, broken) && OpPlaced(tasks, op, loop.mode)
    ensures QueueMoves(tasks, Idle, Finished(loop), runs, waiters + {op.task}, broken)
  {
    LeaveQueue(tasks, op, loop, Finished(loop).mode, runs, waiters, broken);
  }

  /** A row that starts takes nothing from what moves any job. */
  lemma StartedMoving(
    a: Tasks, t: string, row: Task, runs: map<nat, Run>, inbox: seq<Event>, broken: map<string, Break>, job: string)
    requires t in a && row.job == a[t].job && row.status == InProgress
    requires Moving(a, runs, inbox, broken, job)
    ensures Moving(a[t := row], runs, inbox, broken - {row.job}, job)
  {
    var b := a[t := row];
    if job == row.job {
      assert b[t].job == job && b[t].status == InProgress;
    } else if Working(a, job) {
      var t0 :| t0 in a && a[t0].job == job && a[t0].status == InProgress;
      assert b[t0] == a[t0];
    } else if Telling(a, runs, job) {
      var r: nat :| r in runs && runs[r].task in a && a[runs[r].task].job == job && WillTell(runs[r].pc);
      assert b[runs[r].task].job == job;
    }
  }

  lemma StartMoves(
    a: Tasks, t: string, row: Task, op: Op, op': Op, loop: Loop, runs: map<nat, Run>,
    waiters: set<string>, broken: map<string, Break>)
    requires t in a && row.job == a[t].job && row.status == InProgress && op'.Spawning?
    requires QueueMoves(a, op, loop, runs, waiters, broken)
    requires loop.mode.Advancing? && (op.Clear? || op.RetryClear?) ==> loop.mode.job == row.job
    requires op.Clear? || op.RetryClear?
    ensures QueueMoves(a[t := row], op', loop, runs, waiters, broken - {row.job})
    ensures BlockMoves(a[t := row], op', runs, loop.inbox, broken - {row.job}) && OpPlaced(a[t := row], op', loop.mode)
  {
    var b := a[t := row];
    forall u | u in waiters && Has(b, u, Pending)
      ensures Moving(b, runs, loop.inbox, broken - {row.job}, b[u].job) || b[u].job in loop.todo
    {
      var job := a[u].job;
      if job == row.job {
        assert b[t].job == job && b[t].status == InProgress;
      } else if Moving(a, runs, loop.inbox, broken, job) {
        StartedMoving(a, t, row, runs, loop.inbox, broken, job);
      }
    }
  }

  lemma GuardedProgress(s: State)
    requires Inv(s) && Progress(s)
    ensures Progress(GuardedWrite(s))
  {
    ReportProgress(s);
    if s.op.BlockedBy? {
      QueueProgress(s);
    } else if s.op.Clear? && Has(s.tasks, s.op.task, Pending) {
      var row := s.tasks[s.op.task].(graph := s.op.graph, status := InProgress);
      var op := StartTask(s, s.op.task, s.op.graph).op;
      StartMoves(s.tasks, s.op.task, row, s.op, op, s.loop, s.runs, Waiters(s.ledger), s.ledger.broken);
    } else if s.op.RetryClear? && Has(s.tasks, s.op.task, Failed) {
      var row := s.tasks[s.op.task].(graph := s.op.graph, status := InProgress);
      var op := RestartTask(s, s.op.task, s.op.graph).op;
      StartMoves(s.tasks, s.op.task, row, s.op, op, s.loop, s.runs, Waiters(s.ledger), s.ledger.broken);
    }
  }

  // ---------------------------------------------------------------- goroutines

  /** A goroutine moves on without giving up what it still has to tell. */
  lemma RecordMoving(
    tasks: Tasks, runs: map<nat, Run>, r: nat, run: Run, inbox: seq<Event>, broken: map<string, Break>, job: string)
    requires r in runs && run.task == runs[r].task
    requires WillTell(runs[r].pc) && runs[r].task in tasks && tasks[runs[r].task].job == job ==>
               WillTell(run.pc) || Coming(inbox, job) || job in broken
    requires Moving(tasks, runs, inbox, broken, job)
    ensures Moving(tasks, runs[r := run], inbox, broken, job)
  {
    if Telling(tasks, runs, job) {
      var r0: nat :| r0 in runs && runs[r0].task in tasks && tasks[runs[r0].task].job == job && WillTell(runs[r0].pc);
      assert r0 != r ==> runs[r := run][r0] == runs[r0];
      assert runs[r := run][r].task == runs[r].task;
    }
  }

  lemma RecordProgress(s: State, r: nat, run: Run)
    requires Progress(s) && r in s.runs && run.task == s.runs[r].task && (WillTell(s.runs[r].pc) ==> WillTell(run.pc))
    ensures Progress(s.(runs := s.runs[r := run]))
  {
    forall job | Moving(s.tasks, s.runs, s.loop.inbox, s.ledger.broken, job)
      ensures Moving(s.tasks, s.runs[r := run], s.loop.inbox, s.ledger.broken, job)
    {
      RecordMoving(s.tasks, s.runs, r, run, s.loop.inbox, s.ledger.broken, job);
    }
  }

  lemma SpawnProgress(s: State, r: nat)
    requires Inv(s) && Progress(s)
    ensures Progress(Spawn(s, r))
  {
    if s.op.Spawning? && r !in s.runs {
      var run := Run(s.op.task, Beginning, false, s.op.origin);
      forall job | Moving(s.tasks, s.runs, s.loop.inbox, s.ledger.broken, job)
        ensures Moving(s.tasks, s.runs[r := run], s.loop.inbox, s.ledger.broken, job)
      {
        SpawnMoving(s.tasks, s.runs, r, run, s.loop.inbox, s.ledger.broken, job);
      }
      SpawnQueue(s, s.runs[r := run], Spawn(s, r).op);
    }
  }

  lemma SpawnMoving(
    tasks: Tasks, runs: map<nat, Run>, r: nat, run: Run, inbox: seq<Event>, broken: map<string, Break>, job: string)
    requires r !in runs && Moving(tasks, runs, inbox, broken, job)
    ensures Moving(tasks, runs[r := run], inbox, broken, job)
  {
    if Telling(tasks, runs, job) {
      var r0: nat :| r0 in runs && runs[r0].task in tasks && tasks[runs[r0].task].job == job && WillTell(runs[r0].pc);
      assert runs[r := run][r0] == runs[r0];
    }
  }

  lemma SpawnQueue(s: State, runs: map<nat, Run>, op: Op)
    requires Progress(s) && s.op.Spawning? && (op.Promoting? || (op.Idle? && s.op.origin.Retried?))
    requires forall job :: Moving(s.tasks, s.runs, s.loop.inbox, s.ledger.broken, job) ==>
               Moving(s.tasks, runs, s.loop.inbox, s.ledger.broken, job)
    ensures Progress(s.(op := op, runs := runs))
  {
  }

  lemma EarlyProgress(s: State, r: nat, ok: bool)
    requires Progress(s) && r in s.runs
    ensures Progress(BeginTask(s, r)) && Progress(PrepareTask(s, r, ok)) && Progress(LoadCheckpoint(s, r))
  {
    var run := s.runs[r];
    match run.pc
    case Beginning =>
      RecordProgress(s, r, run.(pc := Refusing(false)));
      RecordProgress(s, r, run.(pc := Preparing, cancelled := s.lifetimeOver));
    case Preparing => RecordProgress(s, r, run.(pc := if ok then Loading else Refusing(true)));
    case Loading => RecordProgress(s, r, run.(pc := Running(run.task in s.checkpoints)));
    case _ =>
  }

  lemma LateProgress(s: State, r: nat, ok: bool)
    requires Progress(s) && r in s.runs
    ensures Progress(ReturnFromGraph(s, r, ok)) && Progress(JudgeShutdown(s, r))
  {
    var run := s.runs[r];
    match run.pc
    case Running(_) => RecordProgress(s, r, run.(pc := Returned(ok)));
    case Returned(done) =>
      RecordProgress(s, r, run.(pc := Dropping(done)));
      RecordProgress(s, r, run.(pc := Ending(true)));
    case _ =>
  }

  lemma DropProgress(s: State, r: nat)
    requires Progress(s) && r in s.runs
    ensures Progress(DropCheckpoint(s, r))
  {
    if s.runs[r].pc.Dropping? {
      RecordProgress(s, r, s.runs[r].(pc := Writing(s.runs[r].pc.ok)));
    }
  }

  /** A task that ends leaves a run that will tell of it, or a broken chain. */
  lemma SettledMoving(
    a: Tasks, row: Task, runs: map<nat, Run>, r: nat, run: Run, inbox: seq<Event>,
    broken: map<string, Break>, broken': map<string, Break>, job: string)
    requires r in runs && run.task == runs[r].task && run.task in a && row.job == a[run.task].job
    requires !WillTell(runs[r].pc) && broken.Keys <= broken'.Keys
    requires WillTell(run.pc) || row.job in broken'
    requires Moving(a, runs, inbox, broken, job)
    ensures Moving(a[run.task := row], runs[r := run], inbox, broken', job)
  {
    var b, next := a[run.task := row], runs[r := run];
    if job == row.job {
      assert next[r].task in b && b[next[r].task].job == job;
    } else if Working(a, job) {
      var t0 :| t0 in a && a[t0].job == job && a[t0].status == InProgress;
      assert b[t0] == a[t0];
    } else if Telling(a, runs, job) {
      var r0: nat :| r0 in runs && runs[r0].task in a && a[runs[r0].task].job == job && WillTell(runs[r0].pc);
      assert next[r0] == runs[r0] && b[next[r0].task].job == job;
    }
  }

  lemma SettleProgress(s: State, r: nat, status: Status, pc: Pc, ledger: Ledger)
    requires Inv(s) && Progress(s) && r in s.runs && Live(s.runs[r].pc) && status != Pending
    requires Waiters(ledger) == Waiters(s.ledger) && s.ledger.broken.Keys <= ledger.broken.Keys
    requires WillTell(pc) || JobOf(s.tasks, s.runs[r].task) in ledger.broken
    ensures Progress(Settle(s, r, status, pc).(ledger := ledger))
  {
    var run := s.runs[r].(pc := pc);
    var row := s.tasks[run.task].(status := status);
    forall job | Moving(s.tasks, s.runs, s.loop.inbox, s.ledger.broken, job)
      ensures Moving(s.tasks[run.task := row], s.runs[r := run], s.loop.inbox, ledger.broken, job)
    {
      SettledMoving(s.tasks, row, s.runs, r, run, s.loop.inbox, s.ledger.broken, ledger.broken, job);
    }
    SettleQueue(s, row, run, r, ledger);
  }

  lemma SettleQueue(s: State, row: Task, run: Run, r: nat, ledger: Ledger)
    requires Progress(s) && run.task in s.tasks && row.job == s.tasks[run.task].job
    requires s.tasks[run.task].status == InProgress && row.status != Pending && Waiters(ledger) == Waiters(s.ledger)
    requires forall job :: Moving(s.tasks, s.runs, s.loop.inbox, s.ledger.broken, job) ==>
               Moving(s.tasks[run.task := row], s.runs[r := run], s.loop.inbox, ledger.broken, job)
    ensures Progress(s.(tasks := s.tasks[run.task := row], runs := s.runs[r := run], ledger := ledger))
  {
  }

  lemma WriteProgress(s: State, r: nat)
    requires Inv(s) && Progress(s) && r in s.runs
    ensures Progress(WriteStatus(s, r))
  {
    match s.runs[r].pc
    case Writing(ok) =>
      if ok {
        SettleProgress(s, r, Completed, Querying, s.ledger);
      } else if s.runs[r].cancelled {
        SettleProgress(s, r, Cancelled, Ending(true), CancelTask(s, r).ledger);
      } else {
        SettleProgress(s, r, Failed, PostingFailed(true), Fail(s, r, RunFailure, true).ledger);
      }
    case Refusing(registered) =>
      SettleProgress(s, r, Failed, PostingFailed(registered), Fail(s, r, DispatchFailure, registered).ledger);
    case _ =>
  }

  /** Asking while a task of the job waits means having something to tell. */
  lemma QueryProgress(s: State, r: nat)
    requires Inv(s) && Progress(s) && r in s.runs
    ensures Progress(QueryReady(s, r))
  {
    if s.runs[r].pc.Querying? {
      var run := QueryReady(s, r).runs[r];
      if AnyReady(s.tasks, s.tasks[run.task].job) {
        RecordProgress(s, r, run);
      } else {
        forall job | job != s.tasks[run.task].job && Moving(s.tasks, s.runs, s.loop.inbox, s.ledger.broken, job)
          ensures Moving(s.tasks, s.runs[r := run], s.loop.inbox, s.ledger.broken, job)
        {
          RecordMoving(s.tasks, s.runs, r, run, s.loop.inbox, s.ledger.broken, job);
        }
        WaitersFound(s);
        NobodyWaits(s, r, run);
      }
    }
  }

  lemma NobodyWaits(s: State, r: nat, run: Run)
    requires AllGraphed(s.tasks, Waiters(s.ledger)) && OpKnown(s.tasks, s.ledger.left, s.op)
    requires Progress(s) && run.task in s.tasks && !AnyReady(s.tasks, s.tasks[run.task].job)
    requires forall job ::
               job != s.tasks[run.task].job && Moving(s.tasks, s.runs, s.loop.inbox, s.ledger.broken, job) ==>
                 Moving(s.tasks, s.runs[r := run], s.loop.inbox, s.ledger.broken, job)
    ensures Progress(s.(runs := s.runs[r := run]))
  {
    var none := s.tasks[run.task].job;
    forall t | t in Waiters(s.ledger) && Has(s.tasks, t, Pending) ensures s.tasks[t].job != none {
      assert ReadyIn(s.tasks, t, s.tasks[t].job);
    }
    if s.op.BlockedBy? {
      assert ReadyIn(s.tasks, s.op.task, s.tasks[s.op.task].job);
    }
  }

  // ---------------------------------------------------------------- posting and ending

  lemma InboxKept(inbox: seq<Event>, e: Event, job: string)
    ensures Coming(inbox, job) ==> Coming(inbox + [e], job)
    ensures Advances(e, job) ==> Coming(inbox + [e], job)
  {
    if Coming(inbox, job) {
      var i :| 0 <= i < |inbox| && Advances(inbox[i], job);
      assert (inbox + [e])[i] == inbox[i];
    }
    assert (inbox + [e])[|inbox|] == e;
  }

  /** What was to be told is in the channel, or known to be lost. */
  lemma PostProgress(s: State, r: nat, sent: bool)
    requires Inv(s) && Progress(s) && r in s.runs
    ensures Progress(PostEvent(s, r, sent))
  {
    var run := s.runs[r];
    var t := run.task;
    match run.pc
    case Posting(hasNext, gone) =>
      var s' := PostCompletion(s, r, hasNext, gone, sent);
      PostedProgress(s, s', r, run.(pc := Ending(true)), TaskCompleted(t, s.tasks[t].job, hasNext));
    case PostingFailed(registered) =>
      var s' := PostFailure(s, r, registered, sent);
      PostedProgress(s, s', r, run.(pc := Ending(registered)), TaskFailed(t));
    case _ =>
  }

  lemma PostedProgress(s: State, s': State, r: nat, run: Run, e: Event)
    requires Progress(s) && r in s.runs && run.task == s.runs[r].task && run.task in s.tasks
    requires s'.runs == s.runs[r := run] && s'.tasks == s.tasks && s'.op == s.op
    requires s'.loop == s.loop || s'.loop == s.loop.(inbox := s.loop.inbox + [e])
    requires Waiters(s'.ledger) == Waiters(s.ledger) && s.ledger.broken.Keys <= s'.ledger.broken.Keys
    requires WillTell(s.runs[r].pc) ==>
               || (s'.loop != s.loop && Advances(e, s.tasks[run.task].job))
               || s.tasks[run.task].job in s'.ledger.broken
    ensures Progress(s')
  {
    forall job | Moving(s.tasks, s.runs, s.loop.inbox, s.ledger.broken, job)
      ensures Moving(s.tasks, s'.runs, s'.loop.inbox, s'.ledger.broken, job)
    {
      InboxKept(s.loop.inbox, e, job);
      if Coming(s.loop.inbox, job) {
        assert Coming(s'.loop.inbox, job);
      } else if job !in s'.ledger.broken {
        RecordMoving(s.tasks, s.runs, r, run, s'.loop.inbox, s'.ledger.broken, job);
      }
    }
    AllMoving(s, s');
  }

  /** Progress is about what moves the jobs and about the operator, nothing else. */
  lemma AllMoving(s: State, s': State)
    requires Progress(s) && s'.tasks == s.tasks && s'.op == s.op && Waiters(s'.ledger) == Waiters(s.ledger)
    requires s'.loop.mode == s.loop.mode && s'.loop.todo == s.loop.todo
    requires forall job :: Moving(s.tasks, s.runs, s.loop.inbox, s.ledger.broken, job) ==>
               Moving(s.tasks, s'.runs, s'.loop.inbox, s'.ledger.broken, job)
    ensures Progress(s')
  {
  }

  /** Goroutines that are cancelled, or that end having told what they had to. */
  lemma RunsProgress(s: State, runs: map<nat, Run>)
    requires Progress(s)
    requires forall r: nat :: r in s.runs && WillTell(s.runs[r].pc) ==>
               r in runs && runs[r].task == s.runs[r].task && runs[r].pc == s.runs[r].pc
    ensures Progress(s.(runs := runs))
  {
    forall job | Telling(s.tasks, s.runs, job) ensures Telling(s.tasks, runs, job) {
      var r: nat :|
        r in s.runs && s.runs[r].task in s.tasks && s.tasks[s.runs[r].task].job == job && WillTell(s.runs[r].pc);
      assert r in runs && runs[r].task == s.runs[r].task;
    }
    AllMoving(s, s.(runs := runs));
  }

  lemma EndProgress(s: State, r: nat)
    requires Progress(s) && r in s.runs
    ensures Progress(EndTask(s, r))
  {
    RunsProgress(s, EndTask(s, r).runs);
  }

  lemma RunProgress(s: State, r: nat, a: RunStep)
    requires Inv(s) && Progress(s) && r in s.runs
    ensures Progress(RunNext(s, r, a))
  {
    match a
    case Begin => EarlyProgress(s, r, true);
    case Prepare(ok) => EarlyProgress(s, r, ok);
    case Load => EarlyProgress(s, r, true);
    case Save(c) =>
    case Return(ok) => LateProgress(s, r, ok);
    case Judge => LateProgress(s, r, true);
    case Drop => DropProgress(s, r);
    case Write => WriteProgress(s, r);
    case Query => QueryProgress(s, r);
    case Post(sent) => PostProgress(s, r, sent);
    case End => EndProgress(s, r);
  }

  lemma OpProgress(s: State, a: OpStep)
    requires Inv(s) && Progress(s)
    ensures Progress(OpNext(s, a))
  {
    match a
    case SweepJob(job) =>
      WaitersFound(s);
      SweepProgress(s, job);
    case ReceiveEvent => ReceiveProgress(s);
    case ChooseReady(t) => ChooseProgress(s, t);
    case FindNothing =>
      WaitersFound(s);
      GiveUpProgress(s);
    case CreateIn(t, job, graph, rank) => CreateTaskProgress(s, t, job, graph, rank);
    case CheckPending => CheckProgress(s);
    case ListSiblings(x) => ListProgress(s, x);
    case WriteGuarded => GuardedProgress(s);
    case RetryFailed(t, graph) => RetryProgress(s, t, graph);
    case SpawnRun(r) => SpawnProgress(s, r);
    case PromoteJob(pending) => PromoteProgress(s, pending);
    case Abandon => AbortProgress(s);
    case EndTurn => EndTalkProgress(s);
  }

  // ---------------------------------------------------------------- the rest

  /** A restart visits the active jobs and passes over the others. */
  lemma BootProgress(s: State)
    requires Inv(s) && !s.up
    ensures Progress(BootProcess(s))
  {
    var s' := BootProcess(s);
    forall t | t in Waiters(s.ledger) && Has(s'.tasks, t, Pending)
      ensures s'.tasks[t].job in s'.ledger.broken || s'.tasks[t].job in s'.loop.todo
    {
      assert s'.tasks[t].job == s.tasks[t].job;
    }
  }

  lemma SpeakProgress(s: State)
    requires Progress(s)
    ensures Progress(Speak(s))
  {
    forall job | Coming(s.loop.inbox, job) ensures Coming(s.loop.inbox + [UserMessage], job) {
      InboxKept(s.loop.inbox, UserMessage, job);
    }
    AllMoving(s, Speak(s));
  }

  lemma ServiceProgress(s: State, t: string, job: string, rank: Rank, on: string)
    requires Inv(s) && Progress(s)
    ensures Progress(s.(tasks := Create(s.tasks, t, job, rank))) && Progress(DependTask(s, t, on))
  {
    WaitersFound(s);
    RowsProgress(s, Create(s.tasks, t, job, rank));
    if Has(s.tasks, t, Pending) && s.tasks[t].graph == "" {
      RowsProgress(s, Depend(s.tasks, t, on));
    }
  }

  lemma RecordedProgress(s: State, t: string, x: string)
    requires Progress(s) && t in s.tasks && Working(s.tasks, s.tasks[t].job)
    ensures Progress(s.(ledger := s.ledger.(queued := s.ledger.queued + {(t, x)})))
  {
    QueuedWaits(s.ledger, t, x);
  }

  lemma BusyWorks(tasks: Tasks, t: string, x: string, b: Tasks)
    requires Busy(tasks, t, x) && Extends(tasks, b) && SameStatus(tasks, b)
    ensures t in b && Working(b, b[t].job)
  {
    assert x in b && b[x].job == b[t].job && b[x].status == InProgress;
  }

  /** A task deferred behind a sibling in progress has something that will get to it. */
  lemma DeferProgress(s: State, t: string, graph: string, x: string)
    requires Inv(s) && Progress(s)
    ensures Progress(PreAssignFromService(s, t, graph, x))
  {
    if graph != "" {
      var b := PreAssign(s.tasks, t, graph);
      assert Extends(s.tasks, b) && SameStatus(s.tasks, b);
      WaitersFound(s);
      RowsProgress(s, b);
      if Busy(s.tasks, t, x) {
        BusyWorks(s.tasks, t, x, b);
        RecordedProgress(s.(tasks := b), t, x);
      }
    }
  }

  lemma OuterProgress(s: State, a: OuterStep)
    requires Inv(s) && Progress(s)
    ensures OuterNext(s, a).up ==> Progress(OuterNext(s, a))
  {
    match a
    case CancelJob(job) => RunsProgress(s, CancelRuns(s.runs, HandlesOf(s, job)));
    case EndLifetime => RunsProgress(s, CancelRuns(s.runs, s.runs.Keys));
    case UserSpeaks => SpeakProgress(s);
    case ServiceCreate(t, job, rank) => ServiceProgress(s, t, job, rank, "");
    case ServiceDepend(t, on) => ServiceProgress(s, t, "", Rank(0, 0), on);
    case ServicePreAssign(t, graph, x) => DeferProgress(s, t, graph, x);
    case _ =>
  }

  lemma StepProgress(s: State, a: Action)
    requires Inv(s) && (s.up ==> Progress(s))
    ensures Next(s, a).up ==> Progress(Next(s, a))
  {
    if !s.up {
      BootProgress(s);
    } else {
      match a
      case Operator(op) => OpProgress(s, op);
      case Goroutine(r, step) =>
        if r in s.runs {
          RunProgress(s, r, step);
        }
      case Outside(outer) => OuterProgress(s, outer);
      case Boot =>
    }
  }

  lemma {:induction false} ReachProgress(s: State, actions: seq<Action>)
    requires Inv(s) && (s.up ==> Progress(s))
    ensures Reach(s, actions).up ==> Progress(Reach(s, actions))
    decreases actions
  {
    if actions != [] {
      StepProgress(s, actions[0]);
      StepKeeps(s, actions[0]);
      ReachProgress(Next(s, actions[0]), actions[1..]);
    }
  }

  lemma ReachableProgress(s: State)
    requires Reachable(s) && s.up
    ensures Progress(s)
  {
    var actions: seq<Action> :| Reach(Fresh(), actions) == s;
    FreshInv();
    ReachProgress(Fresh(), actions);
  }

  /** Nobody is stranded. While a task waits that was queued behind a sibling, or that a crash
      interrupted, a task of its job is in progress, or a completed run of its job has yet to
      ask or to post that a task is ready, or such an event is in the channel, or the operator
      is advancing the job, or the recovery sweep has still to visit it; or else the chain of
      its job is known to be broken since its last start: the run failed or was cancelled, the
      dispatch failed or was abandoned, the event was lost, or a restart passed over a job not
      marked active. */
  lemma NobodyStranded(s: State, t: string)
    requires Reachable(s) && s.up && t in Waiters(s.ledger) && Has(s.tasks, t, Pending)
    ensures var job := s.tasks[t].job;
            || Working(s.tasks, job)
            || Telling(s.tasks, s.runs, job)
            || Coming(s.loop.inbox, job)
            || s.loop.mode == Advancing(job)
            || job in s.loop.todo
            || job in s.ledger.broken
  {
    ReachableProgress(s);
  }

  /** The run of the step belongs to the job and has just failed or been cancelled, or its
      event has just been lost. */
  predicate BreaksRun(s: State, r: nat, a: RunStep, job: string) {
    && r in s.runs && JobOf(s.tasks, s.runs[r].task) == job
    && (|| a == Post(false)
        || (a.Write? && s.runs[r].pc.Refusing?)
        || (a.Write? && s.runs[r].pc == Writing(false)))
  }

  lemma WriteBreaks(s: State, r: nat, job: string)
    requires r in s.runs && job !in s.ledger.broken && job in WriteStatus(s, r).ledger.broken
    ensures BreaksRun(s, r, Write, job)
  {
    match s.runs[r].pc
    case Writing(ok) =>
    case Refusing(registered) =>
    case _ =>
  }

  lemma PostBreaks(s: State, r: nat, sent: bool, job: string)
    requires r in s.runs && job !in s.ledger.broken && job in PostEvent(s, r, sent).ledger.broken
    ensures BreaksRun(s, r, Post(sent), job)
  {
    match s.runs[r].pc
    case Posting(hasNext, gone) =>
    case PostingFailed(registered) =>
    case _ =>
  }

  lemma RunBreaks(s: State, r: nat, a: RunStep, job: string)
    requires r in s.runs && job !in s.ledger.broken && job in RunNext(s, r, a).ledger.broken
    ensures BreaksRun(s, r, a, job)
  {
    match a
    case Write => WriteBreaks(s, r, job);
    case Post(sent) => PostBreaks(s, r, sent, job);
    case _ =>
  }

  lemma ReportBreaks(s: State, job: string)
    requires job !in s.ledger.broken && job in Report(s).ledger.broken
    ensures s.loop.mode == Advancing(job)
  {
  }

  /** The check and the guarded write cannot break a chain: what the operator dispatches is
      pending, and stays so until it is started. */
  lemma CheckBreaks(s: State, job: string)
    requires OpPlaced(s.tasks, s.op, s.loop.mode) && job !in s.ledger.broken
    ensures job !in Check(s).ledger.broken
  {
  }

  lemma RetryBreaks(s: State, job: string)
    requires !s.loop.mode.Advancing? && job !in s.ledger.broken && s.op.RetryClear?
    ensures job !in GuardedWrite(s).ledger.broken
  {
  }

  lemma ClearBreaks(s: State, job: string)
    requires s.op.BlockedBy? || s.op.Clear?
    requires Has(s.tasks, s.op.task, Pending) && job !in s.ledger.broken
    ensures job !in GuardedWrite(s).ledger.broken
  {
  }

  lemma GuardBreaks(s: State, job: string)
    requires OpPlaced(s.tasks, s.op, s.loop.mode) && job !in s.ledger.broken
    ensures job !in GuardedWrite(s).ledger.broken
  {
    if s.op.RetryClear? {
      RetryBreaks(s, job);
    } else if s.op.BlockedBy? || s.op.Clear? {
      ClearBreaks(s, job);
    }
  }

  lemma OpBreaks(s: State, a: OpStep, job: string)
    requires OpPlaced(s.tasks, s.op, s.loop.mode) && job !in s.ledger.broken && job in OpNext(s, a).ledger.broken
    ensures a.Abandon? && s.loop.mode == Advancing(job)
  {
    match a
    case CheckPending => CheckBreaks(s, job);
    case WriteGuarded => GuardBreaks(s, job);
    case Abandon => ReportBreaks(s, job);
    case _ =>
  }

  lemma ReachablePlaced(s: State)
    requires Reachable(s) && s.up
    ensures OpPlaced(s.tasks, s.op, s.loop.mode)
  {
    ReachableProgress(s);
  }

  lemma OuterBreaks(s: State, a: OuterStep)
    ensures OuterNext(s, a).ledger.broken == s.ledger.broken
  {
  }

  /** A chain breaks only in the ways named above. */
  lemma BreaksOnlyBy(s: State, a: Action, job: string)
    requires Reachable(s) && job !in s.ledger.broken && job in Next(s, a).ledger.broken
    ensures || (a.Boot? && job !in s.active)
            || (a == Operator(Abandon) && s.loop.mode == Advancing(job))
            || (a.Goroutine? && BreaksRun(s, a.r, a.step, job))
  {
    if s.up {
      ReachablePlaced(s);
      match a
      case Operator(op) => OpBreaks(s, op, job);
      case Goroutine(r, step) => RunBreaks(s, r, step, job);
      case Outside(outer) => OuterBreaks(s, outer);
      case Boot =>
    }
  }

  /** In a job without a task in progress no task has a busy sibling. */
  lemma IdleJob(tasks: Tasks, t: string, u: string)
    requires Has(tasks, t, Pending) && !AnyBusy(tasks, t) && u in tasks && tasks[u].job == tasks[t].job
    ensures !AnyBusy(tasks, u)
  {
    forall x | x in tasks ensures !Busy(tasks, u, x) {
      assert !Busy(tasks, t, x);
    }
  }

  /** And the event at the head of the channel does its work in an idle job. Left alone, the
      operator receives it and starts the first ready task that has a graph; the waiting task
      keeps that search from coming up empty, and is the one that starts unless another comes
      before it. */
  lemma HeadStartsQueued(s: State, t: string)
    requires Reachable(s) && s.up && AtRest(s) && s.loop.todo == {}
    requires t in Waiters(s.ledger) && Has(s.tasks, t, Pending) && !AnyBusy(s.tasks, t)
    requires s.loop.inbox != [] && Advances(s.loop.inbox[0], s.tasks[t].job)
    ensures exists u :: FirstGraphed(s.tasks, u, s.tasks[t].job)
    ensures forall u :: FirstGraphed(s.tasks, u, s.tasks[t].job) ==>
              Reach(s, [Operator(ReceiveEvent)] + StartSteps(u)) == StartTask(Receive(s), u, s.tasks[u].graph)
    ensures FirstGraphed(s.tasks, t, s.tasks[t].job) <==> !Overtaken(s.tasks, t, s.tasks[t].job)
  {
    var job := s.tasks[t].job;
    ReachableInv(s);
    WaitersFound(s);
    assert Graphed(s.tasks, t, job);
    var first := FirstExists(s.tasks, job);
    forall u | FirstGraphed(s.tasks, u, job)
      ensures Reach(s, [Operator(ReceiveEvent)] + StartSteps(u)) == StartTask(Receive(s), u, s.tasks[u].graph)
    {
      IdleJob(s.tasks, t, u);
      HeadStarts(s, u);
    }
  }

  lemma HeadStarts(s: State, u: string)
    requires s.up && AtRest(s) && s.loop.todo == {} && u in s.tasks
    requires FirstGraphed(s.tasks, u, s.tasks[u].job) && !AnyBusy(s.tasks, u)
    requires s.loop.inbox != [] && Advances(s.loop.inbox[0], s.tasks[u].job)
    ensures Reach(s, [Operator(ReceiveEvent)] + StartSteps(u)) == StartTask(Receive(s), u, s.tasks[u].graph)
  {
    assert ([Operator(ReceiveEvent)] + StartSteps(u))[1..] == StartSteps(u);
    assert Reach(s, [Operator(ReceiveEvent)] + StartSteps(u)) == Reach(Receive(s), StartSteps(u));
    ReadyCanStart(Receive(s), u);
  }
}
