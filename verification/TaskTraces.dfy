/** Concrete interleavings that show where the claims about tasks stop. */
module TaskTraces {
  import opened TaskStore
  import opened TaskSystem
  import opened TaskInvariants
  import opened TaskProperties
  import opened TaskProgress
  import opened TaskRecovery

  const SAVED := Checkpoint("plan", "state")

  /** A task of the job, by its place among the tasks created. */
  function Row(status: Status, place: int): Task {
    Task("job", status, "graph", {}, Rank(place, 0))
  }

  // ---------------------------------------------------------------- stretches of a trace

  /** Nobody cancels anything, and nothing but the user reaches in from outside. */
  predicate Calm(a: Action) {
    a.Outside? ==> a.outer.UserSpeaks?
  }

  /** Reached from the fresh system, and without a disturbance when calm is asked for. */
  ghost predicate Reached(s: State, calm: bool) {
    exists actions: seq<Action> :: Reach(Fresh(), actions) == s && (calm ==> forall a :: a in actions ==> Calm(a))
  }

  /** One more step of a trace. */
  lemma Go(s: State, a: Action, s': State, calm: bool)
    requires Reached(s, calm) && Next(s, a) == s' && (calm ==> Calm(a))
    ensures Reached(s', calm)
  {
    var actions: seq<Action> :| Reach(Fresh(), actions) == s && (calm ==> forall b :: b in actions ==> Calm(b));
    ReachMore(Fresh(), actions, a);
    assert calm ==> forall b :: b in actions + [a] ==> Calm(b);
  }

  lemma {:induction false} GoOn(s: State, actions: seq<Action>, calm: bool)
    requires Reached(s, calm) && (calm ==> forall a :: a in actions ==> Calm(a))
    ensures Reached(Reach(s, actions), calm)
    decreases actions
  {
    if actions != [] {
      Go(s, actions[0], Next(s, actions[0]), calm);
      GoOn(Next(s, actions[0]), actions[1..], calm);
    }
  }

  lemma ReachedReachable(s: State, calm: bool)
    requires Reached(s, calm)
    ensures Reachable(s)
  {
  }

  /** The first turn of a new system. */
  function FirstTurn(): State {
    Fresh().(up := true, loop := Loop(Talking, {}, []))
  }

  lemma FirstTurnReached()
    ensures Reached(FirstTurn(), true)
  {
    assert Reach(Fresh(), []) == Fresh() && Reached(Fresh(), true);
    var up := Fresh().(up := true);
    assert BootProcess(Fresh()) == up;
    Go(Fresh(), Boot, up, true);
    var spoken := up.(loop := Loop(Listening, {}, [UserMessage]));
    assert up.loop.inbox + [UserMessage] == [UserMessage];
    Go(up, Outside(UserSpeaks), spoken, true);
    assert spoken.loop.inbox[1..] == [];
    Go(spoken, Operator(ReceiveEvent), FirstTurn(), true);
  }

  predicate InTurn(s: State) {
    s.up && s.op.Idle? && s.loop.mode.Talking?
  }

  predicate JobIdle(tasks: Tasks) {
    forall t :: t in tasks && tasks[t].job == "job" ==> tasks[t].status != InProgress
  }

  /** A turn has created the task and its dispatch went through. */
  function Launched(s: State, t: string, place: nat, r: nat): State {
    s.(tasks := s.tasks[t := Row(InProgress, place)], active := s.active + {"job"},
       runs := s.runs[r := Run(t, Beginning, false, Dispatched)],
       ledger := s.ledger.(left := s.ledger.left + {t}, broken := s.ledger.broken - {"job"}))
  }

  /** All tasks of a trace belong to the one job, so createTask gives each one the number of
      rows before it. */
  lemma Launch(s: State, t: string, place: nat, r: nat, calm: bool)
    requires Reached(s, calm) && InTurn(s) && t !in s.tasks && r !in s.runs && JobIdle(s.tasks)
    requires place == |s.tasks|
    ensures Reached(Launched(s, t, place, r), calm)
  {
    var rank := Rank(place, 0);
    var row := Task("job", Pending, "", {}, rank);
    var created := s.(tasks := s.tasks[t := row], op := Checked(t, "graph"));
    Go(s, Operator(CreateIn(t, "job", "graph", rank)), created, calm);
    LaunchCreated(created, t, place, r, calm);
    assert s.tasks[t := row][t := Row(InProgress, place)] == s.tasks[t := Row(InProgress, place)];
  }

  lemma LaunchCreated(s: State, t: string, place: nat, r: nat, calm: bool)
    requires Reached(s, calm) && s.up && s.op == Checked(t, "graph") && s.loop.mode.Talking?
    requires t in s.tasks && s.tasks[t] == Task("job", Pending, "", {}, Rank(place, 0))
    requires r !in s.runs && JobIdle(s.tasks)
    ensures Reached(Launched(s, t, place, r).(op := Idle), calm)
  {
    GateStarts(s, t, "graph");
    GoOn(s, GATE_STEPS, calm);
    LaunchStarted(StartTask(s, t, "graph"), t, r, calm);
  }

  lemma LaunchStarted(s: State, t: string, r: nat, calm: bool)
    requires Reached(s, calm) && s.up && s.op == Spawning(t, Dispatched) && s.loop.mode.Talking?
    requires r !in s.runs && t in s.tasks && s.tasks[t].job == "job"
    ensures Reached(s.(op := Idle, active := s.active + {"job"},
                       runs := s.runs[r := Run(t, Beginning, false, Dispatched)]), calm)
  {
    var spawned := Spawn(s, r);
    Go(s, Operator(SpawnRun(r)), spawned, calm);
    Go(spawned, Operator(PromoteJob(true)), Promote(spawned, true), calm);
  }

  /** The goroutine has registered, found no obstacle and entered the graph. */
  function Working(s: State, r: nat): State
    requires r in s.runs
  {
    var t := s.runs[r].task;
    s.(running := s.running[t := r],
       runs := s.runs[r := s.runs[r].(pc := Running(t in s.checkpoints), cancelled := false)])
  }

  lemma Work(s: State, r: nat, calm: bool)
    requires Reached(s, calm) && s.up && !s.draining && !s.lifetimeOver
    requires r in s.runs && s.runs[r].pc.Beginning?
    ensures Reached(Working(s, r), calm)
  {
    var begun := BeginTask(s, r);
    Go(s, Goroutine(r, Begin), begun, calm);
    var prepared := PrepareTask(begun, r, true);
    Go(begun, Goroutine(r, Prepare(true)), prepared, calm);
    Go(prepared, Goroutine(r, Load), LoadCheckpoint(prepared, r), calm);
    assert LoadCheckpoint(prepared, r).runs == Working(s, r).runs;
  }

  /** The graph has returned without an error and the task is written completed. */
  function Completing(s: State, r: nat): State
    requires r in s.runs
  {
    var t := s.runs[r].task;
    s.(tasks := SetStatus(s.tasks, t, Completed), checkpoints := s.checkpoints - {t},
       runs := s.runs[r := s.runs[r].(pc := Querying)])
  }

  lemma Complete(s: State, r: nat, calm: bool)
    requires Reached(s, calm) && s.up && r in s.runs && s.runs[r].pc.Running?
    ensures Reached(Completing(s, r), calm)
  {
    var returned := At(s, r, Returned(true));
    Go(s, Goroutine(r, Return(true)), returned, calm);
    var dropping := At(s, r, Dropping(true));
    assert JudgeShutdown(returned, r).runs == dropping.runs;
    Go(returned, Goroutine(r, Judge), dropping, calm);
    CompleteDropping(dropping, r, calm);
    assert Completing(dropping, r).runs == Completing(s, r).runs;
  }

  lemma CompleteDropping(s: State, r: nat, calm: bool)
    requires Reached(s, calm) && s.up && r in s.runs && s.runs[r].pc == Dropping(true)
    ensures Reached(Completing(s, r), calm)
  {
    var writing := DropCheckpoint(s, r);
    Go(s, Goroutine(r, Drop), writing, calm);
    Go(writing, Goroutine(r, Write), WriteStatus(writing, r), calm);
    assert WriteStatus(writing, r).runs == Completing(s, r).runs;
  }

  /** The completed run has asked, been told, and posted its event. */
  function Answered(s: State, r: nat, hasNext: bool): State
    requires r in s.runs
  {
    var t := s.runs[r].task;
    s.(runs := s.runs[r := s.runs[r].(pc := Ending(true))],
       loop := s.loop.(inbox := s.loop.inbox + [TaskCompleted(t, JobOf(s.tasks, t), hasNext)]),
       ledger := s.ledger.(posted := s.ledger.posted + {Completion(t, hasNext, NotPending(s.tasks))}))
  }

  lemma Answer(s: State, r: nat, hasNext: bool, calm: bool)
    requires Reached(s, calm) && s.up && r in s.runs && s.runs[r].pc.Querying? && |s.loop.inbox| < EVENT_BUFFER
    requires hasNext == AnyReady(s.tasks, JobOf(s.tasks, s.runs[r].task))
    ensures Reached(Answered(s, r, hasNext), calm)
  {
    var posting := QueryReady(s, r);
    Go(s, Goroutine(r, Query), posting, calm);
    Go(posting, Goroutine(r, Post(true)), PostEvent(posting, r, true), calm);
    assert PostEvent(posting, r, true).runs == Answered(s, r, hasNext).runs;
  }

  /** The run has written its task failed and told the operator. */
  function FailedTold(s: State, r: nat, cause: Cause): State
    requires r in s.runs
  {
    PostFailure(Fail(s, r, cause, true), r, true, true)
  }

  lemma FailRun(s: State, r: nat, cause: Cause, calm: bool)
    requires Reached(s, calm) && s.up && r in s.runs && !s.runs[r].cancelled && |s.loop.inbox| < EVENT_BUFFER
    requires s.runs[r].pc == if cause.RunFailure? then Writing(false) else Refusing(true)
    ensures Reached(FailedTold(s, r, cause), calm)
  {
    var failed := Fail(s, r, cause, true);
    Go(s, Goroutine(r, Write), failed, calm);
    Go(failed, Goroutine(r, Post(true)), PostFailure(failed, r, true, true), calm);
  }

  /** The graph has returned with an error, and the checkpoint is dropped. */
  function Failing(s: State, r: nat): State
    requires r in s.runs
  {
    At(s, r, Writing(false)).(checkpoints := s.checkpoints - {s.runs[r].task})
  }

  lemma ComeToNothing(s: State, r: nat, calm: bool)
    requires Reached(s, calm) && s.up && r in s.runs && s.runs[r].pc.Running? && !s.runs[r].cancelled
    ensures Reached(Failing(s, r), calm)
  {
    var returned := At(s, r, Returned(false));
    Go(s, Goroutine(r, Return(false)), returned, calm);
    var dropping := At(s, r, Dropping(false));
    assert JudgeShutdown(returned, r).runs == dropping.runs;
    Go(returned, Goroutine(r, Judge), dropping, calm);
    Go(dropping, Goroutine(r, Drop), DropCheckpoint(dropping, r), calm);
    assert DropCheckpoint(dropping, r).runs == Failing(s, r).runs;
  }

  /** A failed task is retried, and its goroutine registers. */
  function Retrying(s: State, t: string, r: nat, origin: Origin): State {
    s.(tasks := s.tasks[t := Row(InProgress, 0)], runs := s.runs[r := Run(t, Preparing, false, origin)],
       running := s.running[t := r], ledger := s.ledger.(broken := s.ledger.broken - {"job"}))
  }

  lemma Retry(s: State, t: string, r: nat, origin: Origin, calm: bool)
    requires Reached(s, calm) && InTurn(s) && t in s.tasks && s.tasks[t] == Row(Failed, 0) && JobIdle(s.tasks)
    requires r !in s.runs && !s.draining && !s.lifetimeOver && origin == OriginOf(s, t) && origin.Retried?
    ensures Reached(Retrying(s, t, r, origin), calm)
  {
    var checked := s.(op := RetryChecked(t, "graph"));
    Go(s, Operator(RetryFailed(t, "")), checked, calm);
    var clear := s.(op := RetryClear(t, "graph"));
    Go(checked, Operator(ListSiblings("")), clear, calm);
    var again := s.(tasks := s.tasks[t := Row(InProgress, 0)], op := Spawning(t, origin),
                    ledger := s.ledger.(broken := s.ledger.broken - {"job"}));
    Go(clear, Operator(WriteGuarded), again, calm);
    RetryStarted(again, t, r, origin, calm);
  }

  lemma RetryStarted(s: State, t: string, r: nat, origin: Origin, calm: bool)
    requires Reached(s, calm) && s.up && s.op == Spawning(t, origin) && origin.Retried?
    requires r !in s.runs && !s.draining && !s.lifetimeOver
    ensures Reached(s.(op := Idle, runs := s.runs[r := Run(t, Preparing, false, origin)],
                       running := s.running[t := r]), calm)
  {
    var spawned := Spawn(s, r);
    Go(s, Operator(SpawnRun(r)), spawned, calm);
    var begun := BeginTask(spawned, r);
    Go(spawned, Goroutine(r, Begin), begun, calm);
    assert begun.runs == s.runs[r := Run(t, Preparing, false, origin)];
  }

  /** A turn has created the task, and queued it behind the one in progress. */
  function Deferred(s: State, t: string, place: nat, x: string): State {
    s.(tasks := s.tasks[t := Row(Pending, place)],
       ledger := s.ledger.(queued := s.ledger.queued + {(t, x)}))
  }

  lemma Defer(s: State, t: string, place: nat, x: string, calm: bool)
    requires Reached(s, calm) && InTurn(s) && t !in s.tasks && place == |s.tasks|
    requires Has(s.tasks, x, InProgress) && s.tasks[x].job == "job"
    ensures Reached(Deferred(s, t, place, x), calm)
  {
    var rank := Rank(place, 0);
    var row := Task("job", Pending, "", {}, rank);
    var created := s.(tasks := s.tasks[t := row], op := Checked(t, "graph"));
    Go(s, Operator(CreateIn(t, "job", "graph", rank)), created, calm);
    DeferCreated(created, t, place, x, calm);
    assert s.tasks[t := row][t := Row(Pending, place)] == s.tasks[t := Row(Pending, place)];
  }

  lemma DeferCreated(s: State, t: string, place: nat, x: string, calm: bool)
    requires Reached(s, calm) && s.up && s.op == Checked(t, "graph") && s.loop.mode.Talking?
    requires t in s.tasks && s.tasks[t] == Task("job", Pending, "", {}, Rank(place, 0)) && Busy(s.tasks, t, x)
    ensures Reached(Deferred(s, t, place, x).(op := Idle), calm)
  {
    var blocked := s.(op := BlockedBy(t, "graph", x));
    Go(s, Operator(ListSiblings(x)), blocked, calm);
    Go(blocked, Operator(WriteGuarded), QueueTask(blocked, t, "graph", x), calm);
  }

  lemma Restart(s: State)
    requires Reached(s, false) && s.up
    ensures Reached(BootProcess(CrashProcess(s)), false)
  {
    Go(s, Outside(Crash), CrashProcess(s), false);
    Go(CrashProcess(s), Boot, BootProcess(CrashProcess(s)), false);
  }

  /** An event at the head of the channel puts the operator to work. */
  lemma Hear(s: State, e: Event, calm: bool)
    requires Reached(s, calm) && s.up && AtRest(s) && s.loop.todo == {} && s.loop.inbox == [e]
    requires !e.TaskCompleted? || e.hasNext
    ensures Reached(s.(loop := Loop(ModeFor(e), {}, [])), calm)
  {
    assert s.loop.inbox[1..] == [];
    Go(s, Operator(ReceiveEvent), s.(loop := Loop(ModeFor(e), {}, [])), calm);
  }

  // ---------------------------------------------------------------- one task in progress

  /** The first turn has created a task, and its run goes on. */
  function OneRunning(t: string): State {
    FirstTurn().(
      tasks := map[t := Row(InProgress, 0)], active := {"job"},
      runs := map[0 := Run(t, Running(false), false, Dispatched)], running := map[t := 0],
      ledger := NewLedger().(left := {t}))
  }

  lemma OneRunningReached(t: string)
    ensures Reached(OneRunning(t), true)
  {
    FirstTurnReached();
    Launch(FirstTurn(), t, 0, 0, true);
    var launched := Launched(FirstTurn(), t, 0, 0);
    Work(launched, 0, true);
    assert Working(launched, 0) == OneRunning(t);
  }

  /** Task x has been created, dispatched and checkpointed, its run goes on, and the turn that
      created it is over. */
  function XRunning(): State {
    OneRunning("x").(checkpoints := map["x" := SAVED], loop := Loop(Listening, {}, []))
  }

  lemma XRunningReached()
    ensures Reached(XRunning(), true)
  {
    OneRunningReached("x");
    var saved := OneRunning("x").(checkpoints := map["x" := SAVED]);
    Go(OneRunning("x"), Goroutine(0, Save(SAVED)), saved, true);
    Go(saved, Operator(EndTurn), XRunning(), true);
  }

  // ---------------------------------------------------------------- shutdown

  ghost predicate LostToShutdown(s: State) {
    && s.draining && s.lifetimeOver && "x" !in s.checkpoints
    && forall actions: seq<Action> :: Has(Reach(s, actions).tasks, "x", Cancelled)
  }

  /** Shutdown cancels the lifetime context before it drains. A run that comes back in between
      is persisted as cancelled, loses its checkpoint, and its task never runs again. */
  lemma CancelledByShutdown()
    ensures exists s: State :: Reachable(s) && LostToShutdown(s)
  {
    XRunningReached();
    ReachedReachable(XRunning(), true);
    var s := XRunning();
    var run := Run("x", Running(false), true, Dispatched);
    var over := s.(lifetimeOver := true, runs := map[0 := run]);
    StepReachable(s, Outside(EndLifetime));
    assert OuterNext(s, EndLifetime) == over;
    var returned := over.(runs := map[0 := run.(pc := Returned(false))]);
    StepReachable(over, Goroutine(0, Return(false)));
    assert ReturnFromGraph(over, 0, false) == returned;
    DrainTooLate(returned, run);
  }

  lemma CancelledForEver(s: State)
    requires Reachable(s) && Has(s.tasks, "x", Cancelled)
    ensures forall actions: seq<Action> :: Has(Reach(s, actions).tasks, "x", Cancelled)
  {
    forall actions: seq<Action> ensures Has(Reach(s, actions).tasks, "x", Cancelled) {
      Absorbing(s, actions, "x");
    }
  }

  lemma DrainTooLate(returned: State, run: Run)
    requires run == Run("x", Running(false), true, Dispatched)
    requires returned == XRunning().(lifetimeOver := true, runs := map[0 := run.(pc := Returned(false))])
    requires Reachable(returned)
    ensures exists s: State :: Reachable(s) && LostToShutdown(s)
  {
    var dropping := JudgeShutdown(returned, 0);
    StepReachable(returned, Goroutine(0, Judge));
    StepReachable(dropping, Outside(StartDrain));
    LoseCheckpoint(dropping.(draining := true));
  }

  lemma LoseCheckpoint(draining: State)
    requires Reachable(draining) && draining.up && draining.draining && draining.lifetimeOver
    requires "x" in draining.tasks && draining.runs == map[0 := Run("x", Dropping(false), true, Dispatched)]
    ensures exists s: State :: Reachable(s) && LostToShutdown(s)
  {
    var writing := DropCheckpoint(draining, 0);
    StepReachable(draining, Goroutine(0, Drop));
    StepReachable(writing, Goroutine(0, Write));
    CancelledForEver(WriteStatus(writing, 0));
  }

  // ---------------------------------------------------------------- a retry after a dispatch failure

  /** The exception in checkpoint consistency is real: a task that a crash left with a
      checkpoint and that then failed in dispatch keeps it, and its retry resumes from it. */
  lemma DispatchFailureKeepsCheckpoint()
    ensures exists s: State :: Reachable(s) && Has(s.tasks, "x", Failed) && "x" in s.checkpoints
    ensures exists s: State ::
              Reachable(s) && 1 in s.runs && s.runs[1] == Run("x", Running(true), false, Retried(DispatchFailure))
  {
    XRunningReached();
    assert Reached(XRunning(), false);
    Restart(XRunning());
    var up := BootProcess(CrashProcess(XRunning()));
    assert up.tasks == map["x" := Row(Pending, 0)];
    SweepX(up);
  }

  lemma SweepX(up: State)
    requires Reached(up, false) && up.up && !up.draining && !up.lifetimeOver && AtRest(up)
    requires up.tasks == map["x" := Row(Pending, 0)] && "x" in up.checkpoints && up.runs == map[]
    requires up.loop == Loop(Listening, {"job"}, [])
    ensures exists s: State :: Reachable(s) && Has(s.tasks, "x", Failed) && "x" in s.checkpoints
    ensures exists s: State ::
              Reachable(s) && 1 in s.runs && s.runs[1] == Run("x", Running(true), false, Retried(DispatchFailure))
  {
    assert Graphed(up.tasks, "x", "job");
    var swept := up.(loop := Loop(Advancing("job"), {}, []));
    Go(up, Operator(SweepJob("job")), swept, false);
    ReadyCanStart(swept, "x");
    GoOn(swept, StartSteps("x"), false);
    FailInDispatch(StartTask(swept, "x", "graph"));
  }

  lemma FailInDispatch(started: State)
    requires Reached(started, false) && started.up && !started.draining && !started.lifetimeOver
    requires started.tasks == map["x" := Row(InProgress, 0)] && "x" in started.checkpoints && started.runs == map[]
    requires started.op == Spawning("x", Dispatched) && started.loop == Loop(Advancing("job"), {}, [])
    ensures exists s: State :: Reachable(s) && Has(s.tasks, "x", Failed) && "x" in s.checkpoints
    ensures exists s: State ::
              Reachable(s) && 1 in s.runs && s.runs[1] == Run("x", Running(true), false, Retried(DispatchFailure))
  {
    var spawned := Spawn(started, 0);
    Go(started, Operator(SpawnRun(0)), spawned, false);
    var promoted := Promote(spawned, false);
    Go(spawned, Operator(PromoteJob(false)), promoted, false);
    RefuseX(promoted);
  }

  lemma RefuseX(spawned: State)
    requires Reached(spawned, false) && spawned.up && !spawned.draining && !spawned.lifetimeOver
    requires spawned.tasks == map["x" := Row(InProgress, 0)] && "x" in spawned.checkpoints
    requires spawned.runs == map[0 := Run("x", Beginning, false, Dispatched)] && AtRest(spawned)
    requires spawned.loop == Loop(Listening, {}, [])
    ensures exists s: State :: Reachable(s) && Has(s.tasks, "x", Failed) && "x" in s.checkpoints
    ensures exists s: State ::
              Reachable(s) && 1 in s.runs && s.runs[1] == Run("x", Running(true), false, Retried(DispatchFailure))
  {
    var begun := BeginTask(spawned, 0);
    Go(spawned, Goroutine(0, Begin), begun, false);
    var refusing := PrepareTask(begun, 0, false);
    Go(begun, Goroutine(0, Prepare(false)), refusing, false);
    TellRefusal(refusing);
  }

  lemma TellRefusal(refusing: State)
    requires Reached(refusing, false) && refusing.up && !refusing.draining && !refusing.lifetimeOver
    requires refusing.tasks == map["x" := Row(InProgress, 0)] && "x" in refusing.checkpoints
    requires refusing.runs == map[0 := Run("x", Refusing(true), false, Dispatched)] && AtRest(refusing)
    requires refusing.loop == Loop(Listening, {}, [])
    ensures exists s: State :: Reachable(s) && Has(s.tasks, "x", Failed) && "x" in s.checkpoints
    ensures exists s: State ::
              Reachable(s) && 1 in s.runs && s.runs[1] == Run("x", Running(true), false, Retried(DispatchFailure))
  {
    FailRun(refusing, 0, DispatchFailure, false);
    var told := FailedTold(refusing, 0, DispatchFailure);
    assert told.loop.inbox == [TaskFailed("x")];
    assert Reachable(told) && Has(told.tasks, "x", Failed);
    RetryX(told);
  }

  lemma RetryX(told: State)
    requires Reached(told, false) && told.up && !told.draining && !told.lifetimeOver
    requires told.tasks == map["x" := Row(Failed, 0)] && "x" in told.checkpoints
    requires told.runs.Keys == {0} && AtRest(told) && told.loop == Loop(Listening, {}, [TaskFailed("x")])
    requires OriginOf(told, "x") == Retried(DispatchFailure)
    ensures exists s: State ::
              Reachable(s) && 1 in s.runs && s.runs[1] == Run("x", Running(true), false, Retried(DispatchFailure))
  {
    var turn := told.(loop := Loop(Talking, {}, []));
    Hear(told, TaskFailed("x"), false);
    Retry(turn, "x", 1, Retried(DispatchFailure), false);
    var again := Retrying(turn, "x", 1, Retried(DispatchFailure));
    var loading := PrepareTask(again, 1, true);
    Go(again, Goroutine(1, Prepare(true)), loading, false);
    var resumed := LoadCheckpoint(loading, 1);
    Go(loading, Goroutine(1, Load), resumed, false);
    assert Reachable(resumed) && resumed.runs[1] == Run("x", Running(true), false, Retried(DispatchFailure));
  }

  // ---------------------------------------------------------------- wake-ups

  ghost predicate ToldNothing(s: State) {
    ("t", "x") in s.ledger.queued && exists e :: e in s.ledger.posted && e.task == "x" && !e.hasNext
  }

  /** HasNextTask alone can be false for a task queued behind the completed sibling. In one
      turn y completes, x starts and t is queued behind x; only then does y ask, and its event
      tells of t. When x has completed but not yet asked, that event starts t, and x is told
      that nothing is ready. */
  lemma DispatchedBeforeAsked()
    ensures exists s: State :: Reached(s, true) && ToldNothing(s)
  {
    OneRunningReached("y");
    Complete(OneRunning("y"), 0, true);
    var done := Completing(OneRunning("y"), 0);
    assert done.tasks == map["y" := Row(Completed, 0)];
    StartX(done);
  }

  lemma StartX(s: State)
    requires Reached(s, true) && InTurn(s) && !s.draining && !s.lifetimeOver && s.loop == Loop(Talking, {}, [])
    requires s.tasks == map["y" := Row(Completed, 0)]
    requires s.runs == map[0 := Run("y", Querying, false, Dispatched)]
    ensures exists s: State :: Reached(s, true) && ToldNothing(s)
  {
    Launch(s, "x", 1, 1, true);
    var started := Launched(s, "x", 1, 1);
    assert started.tasks == map["y" := Row(Completed, 0), "x" := Row(InProgress, 1)];
    Defer(started, "t", 2, "x", true);
    TellOfT(Deferred(started, "t", 2, "x"));
  }

  lemma TellOfT(s: State)
    requires Reached(s, true) && InTurn(s) && !s.draining && !s.lifetimeOver && s.loop == Loop(Talking, {}, [])
    requires s.tasks == map["y" := Row(Completed, 0), "x" := Row(InProgress, 1), "t" := Row(Pending, 2)]
    requires s.runs == map[0 := Run("y", Querying, false, Dispatched), 1 := Run("x", Beginning, false, Dispatched)]
    requires ("t", "x") in s.ledger.queued
    ensures exists s: State :: Reached(s, true) && ToldNothing(s)
  {
    assert ReadyIn(s.tasks, "t", "job");
    Answer(s, 0, true, true);
    var answered := Answered(s, 0, true);
    assert answered.loop.inbox == [TaskCompleted("y", "job", true)];
    var rest := answered.(loop := answered.loop.(mode := Listening));
    Go(answered, Operator(EndTurn), rest, true);
    Work(rest, 1, true);
    CompleteX(Working(rest, 1));
  }

  lemma CompleteX(s: State)
    requires Reached(s, true) && s.up && AtRest(s)
    requires s.loop == Loop(Listening, {}, [TaskCompleted("y", "job", true)])
    requires s.tasks == map["y" := Row(Completed, 0), "x" := Row(InProgress, 1), "t" := Row(Pending, 2)]
    requires 1 in s.runs && s.runs[1].task == "x" && s.runs[1].pc.Running? && ("t", "x") in s.ledger.queued
    ensures exists s: State :: Reached(s, true) && ToldNothing(s)
  {
    Complete(s, 1, true);
    var querying := Completing(s, 1);
    var advancing := querying.(loop := Loop(Advancing("job"), {}, []));
    Hear(querying, TaskCompleted("y", "job", true), true);
    ReadyCanStart(advancing, "t");
    GoOn(advancing, StartSteps("t"), true);
    TellNothing(StartTask(advancing, "t", "graph"));
  }

  lemma TellNothing(s: State)
    requires Reached(s, true) && s.up && s.loop.inbox == []
    requires s.tasks == map["y" := Row(Completed, 0), "x" := Row(Completed, 1), "t" := Row(InProgress, 2)]
    requires 1 in s.runs && s.runs[1].task == "x" && s.runs[1].pc.Querying? && ("t", "x") in s.ledger.queued
    ensures exists s: State :: Reached(s, true) && ToldNothing(s)
  {
    Answer(s, 1, false, true);
    var told := Answered(s, 1, false);
    assert Completion("x", false, NotPending(s.tasks)) in told.ledger.posted;
  }

  // ---------------------------------------------------------------- a job not yet marked active

  /** A task is ready with its graph, and the system is at rest with nothing to come: no run,
      no event, no sweep. */
  ghost predicate Stranded(s: State, t: string) {
    && s.up && t in s.tasks && Graphed(s.tasks, t, s.tasks[t].job)
    && AtRest(s) && s.loop.todo == {} && s.loop.inbox == [] && s.runs == map[]
  }

  /** The dispatch starts a task before it marks the job active. A crash in between leaves the
      job inactive, and the recovery sweep passes over the requeued task. */
  lemma CrashBeforePromotionStrands()
    ensures exists s: State :: Reachable(s) && Stranded(s, "x")
  {
    FirstTurnReached();
    assert Reached(FirstTurn(), false);
    var created := CreateTask(FirstTurn(), "x", "job", "graph", Rank(0, 0));
    Go(FirstTurn(), Operator(CreateIn("x", "job", "graph", Rank(0, 0))), created, false);
    GateStarts(created, "x", "graph");
    GoOn(created, GATE_STEPS, false);
    var started := StartTask(created, "x", "graph");
    LoseX(started);
  }

  lemma LoseX(started: State)
    requires Reached(started, false) && started.up && started.op == Spawning("x", Dispatched)
    requires started.tasks == map["x" := Row(InProgress, 0)] && started.active == {} && started.runs == map[]
    ensures exists s: State :: Reachable(s) && Stranded(s, "x")
  {
    var spawned := Spawn(started, 0);
    Go(started, Operator(SpawnRun(0)), spawned, false);
    Restart(spawned);
    var up := BootProcess(CrashProcess(spawned));
    assert up.tasks["x"] == Row(Pending, 0);
    assert Stranded(up, "x");
  }

  // ---------------------------------------------------------------- a restart that another task overtakes

  /** The job is active and z was interrupted, but after the restart the operator can by itself
      not start z; it starts y. */
  ghost predicate RestartsElsewhere(s: State) {
    var s' := BootProcess(CrashProcess(s));
    && s.up && Has(s.tasks, "z", InProgress) && "job" in s.active && !Resumes(s', "z")
    && Has(Reach(s', [Operator(SweepJob("job"))] + StartSteps("y")).tasks, "y", InProgress)
  }

  /** x starts and y is queued behind it. x fails, which advances nothing, and the same turn
      creates z, which the gate lets through. A crash then leaves y and z ready, and y is first. */
  lemma EarlierTaskRestartsFirst()
    ensures exists s: State :: Reached(s, true) && RestartsElsewhere(s)
  {
    OneRunningReached("x");
    Defer(OneRunning("x"), "y", 1, "x", true);
    var queued := Deferred(OneRunning("x"), "y", 1, "x");
    ComeToNothing(queued, 0, true);
    FailBeforeZ(Failing(queued, 0));
  }

  lemma FailBeforeZ(s: State)
    requires Reached(s, true) && InTurn(s) && s.loop == Loop(Talking, {}, [])
    requires s.tasks == map["x" := Row(InProgress, 0), "y" := Row(Pending, 1)]
    requires s.runs == map[0 := Run("x", Writing(false), false, Dispatched)]
    ensures exists s: State :: Reached(s, true) && RestartsElsewhere(s)
  {
    FailRun(s, 0, RunFailure, true);
    var told := FailedTold(s, 0, RunFailure);
    assert told.tasks == map["x" := Row(Failed, 0), "y" := Row(Pending, 1)];
    StartZ(told);
  }

  lemma StartZ(s: State)
    requires Reached(s, true) && InTurn(s) && s.runs.Keys == {0}
    requires s.tasks == map["x" := Row(Failed, 0), "y" := Row(Pending, 1)]
    ensures exists s: State :: Reached(s, true) && RestartsElsewhere(s)
  {
    Launch(s, "z", 2, 1, true);
    var started := Launched(s, "z", 2, 1);
    assert started.tasks == map["x" := Row(Failed, 0), "y" := Row(Pending, 1), "z" := Row(InProgress, 2)];
    ReachedReachable(started, true);
    NotZ(started);
    ButY(started);
  }

  lemma NotZ(s: State)
    requires Reachable(s) && s.up
    requires s.tasks == map["x" := Row(Failed, 0), "y" := Row(Pending, 1), "z" := Row(InProgress, 2)]
    ensures !Resumes(BootProcess(CrashProcess(s)), "z")
  {
    assert Graphed(s.tasks, "y", "job");
    RestartResumesIff(s, "z");
  }

  lemma ButY(s: State)
    requires s.up && "job" in s.active
    requires s.tasks == map["x" := Row(Failed, 0), "y" := Row(Pending, 1), "z" := Row(InProgress, 2)]
    ensures var s' := BootProcess(CrashProcess(s));
            Has(Reach(s', [Operator(SweepJob("job"))] + StartSteps("y")).tasks, "y", InProgress)
  {
    var s' := BootProcess(CrashProcess(s));
    assert s'.tasks == map["x" := Row(Failed, 0), "y" := Row(Pending, 1), "z" := Row(Pending, 2)];
    assert FirstGraphed(s'.tasks, "y", "job");
    SweepResumes(s', "y");
  }

  // ---------------------------------------------------------------- goroutines of one task that overlap

  /** Handles are kept by task id. When a failed task is retried before the goroutine of the
      failed run has ended, that goroutine's endTask cancels the retry, although nobody asked
      for a cancellation. */
  lemma StaleEndTaskCancelsRetry()
    ensures exists s: State :: Reached(s, true) && s.runs == map[1 := Run("x", Preparing, true, AfterRunFailure)]
  {
    XRunningReached();
    ComeToNothing(XRunning(), 0, true);
    var writing := Failing(XRunning(), 0);
    FailX(writing);
  }

  lemma FailX(s: State)
    requires Reached(s, true) && s.up && !s.draining && !s.lifetimeOver && AtRest(s)
    requires s.loop == Loop(Listening, {}, []) && s.tasks == map["x" := Row(InProgress, 0)]
    requires s.runs == map[0 := Run("x", Writing(false), false, Dispatched)] && s.running == map["x" := 0]
    ensures exists s: State :: Reached(s, true) && s.runs == map[1 := Run("x", Preparing, true, AfterRunFailure)]
  {
    FailRun(s, 0, RunFailure, true);
    var told := FailedTold(s, 0, RunFailure);
    assert told.loop.inbox == [TaskFailed("x")];
    Hear(told, TaskFailed("x"), true);
    RetryTooSoon(told.(loop := Loop(Talking, {}, [])));
  }

  lemma RetryTooSoon(s: State)
    requires Reached(s, true) && InTurn(s) && !s.draining && !s.lifetimeOver
    requires s.tasks == map["x" := Row(Failed, 0)] && OriginOf(s, "x") == AfterRunFailure
    requires s.runs == map[0 := Run("x", Ending(true), false, Dispatched)] && s.running == map["x" := 0]
    ensures exists s: State :: Reached(s, true) && s.runs == map[1 := Run("x", Preparing, true, AfterRunFailure)]
  {
    Retry(s, "x", 1, AfterRunFailure, true);
    EndTooLate(Retrying(s, "x", 1, AfterRunFailure));
  }

  lemma EndTooLate(s: State)
    requires Reached(s, true) && s.up && s.running == map["x" := 1]
    requires s.runs ==
               map[0 := Run("x", Ending(true), false, Dispatched), 1 := Run("x", Preparing, false, AfterRunFailure)]
    ensures exists s: State :: Reached(s, true) && s.runs == map[1 := Run("x", Preparing, true, AfterRunFailure)]
  {
    var ended := EndTask(s, 0);
    Go(s, Goroutine(0, End), ended, true);
    assert ended.runs == map[1 := Run("x", Preparing, true, AfterRunFailure)];
  }
}
