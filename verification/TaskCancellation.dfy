/** Cancellation reaches only its target, exactly as long as no run registers over a handle of
    its task id. */
module TaskCancellation {
  import opened TaskStore
  import opened TaskSystem
  import opened TaskInvariants
  import opened TaskProperties

  /** The goroutine has stored its cancel function under its task id. */
  predicate Registered(pc: Pc) {
    !pc.Beginning? && pc != Refusing(false) && pc != PostingFailed(false) && pc != Ending(false)
  }

  /** endTask cancels another run exactly when that run has taken over the handle of the task
      id since. */
  lemma EndCancelsIff(s: State, r: nat, r2: nat)
    requires s.up && r in s.runs && s.runs[r].pc == Ending(true)
    requires r2 in s.runs && r2 != r && !s.runs[r2].cancelled
    ensures r2 in Next(s, Goroutine(r, End)).runs
    ensures Next(s, Goroutine(r, End)).runs[r2].cancelled
            <==> s.runs[r].task in s.running && s.running[s.runs[r].task] == r2
  {
  }

  /** Nobody is cancelled, and the handles are exactly those of the registered runs. */
  ghost predicate OwnHandles(runs: map<nat, Run>, running: map<string, nat>) {
    && (forall r: nat :: r in runs ==>
          && !runs[r].cancelled
          && (Registered(runs[r].pc) ==> runs[r].task in running && running[runs[r].task] == r))
    && (forall t :: t in running ==>
          running[t] in runs && runs[running[t]].task == t && Registered(runs[running[t]].pc))
  }

  ghost predicate Orderly(s: State) {
    !s.lifetimeOver && OwnHandles(s.runs, s.running)
  }

  /** Registering keeps every run in possession of its handle exactly when the task id has none
      yet, which beginTask could look up. */
  lemma BeginOrderlyIff(s: State, r: nat)
    requires Orderly(s) && s.up && !s.draining && r in s.runs && s.runs[r].pc.Beginning?
    ensures Orderly(Next(s, Goroutine(r, Begin))) <==> s.runs[r].task !in s.running
  {
    var t := s.runs[r].task;
    if t in s.running {
      var old0 := s.running[t];
      assert BeginTask(s, r).runs[old0] == s.runs[old0];
    }
  }

  /** Nobody cancels, and no run registers while its task id still has a handle. */
  predicate Patient(s: State, a: Action) {
    && (a.Outside? ==> !a.outer.CancelJob? && !a.outer.EndLifetime?)
    && (a.Goroutine? && a.step.Begin? && a.r in s.runs && !s.draining ==> s.runs[a.r].task !in s.running)
  }

  lemma OpOrderly(s: State, a: OpStep)
    requires Orderly(s)
    ensures Orderly(OpNext(s, a))
  {
    if !a.CreateIn? && !a.WriteGuarded? && !a.SpawnRun? {
      OpLooks(s, a);
    }
  }

  lemma PcOrderly(s: State, r: nat, pc: Pc)
    requires Orderly(s) && r in s.runs && Registered(pc) == Registered(s.runs[r].pc)
    ensures OwnHandles(At(s, r, pc).runs, s.running)
  {
  }

  lemma EarlyOrderly(s: State, r: nat, ok: bool)
    requires Orderly(s) && r in s.runs
    ensures Orderly(PrepareTask(s, r, ok)) && Orderly(LoadCheckpoint(s, r))
  {
    match s.runs[r].pc
    case Preparing => PcOrderly(s, r, if ok then Loading else Refusing(true));
    case Loading => PcOrderly(s, r, Running(s.runs[r].task in s.checkpoints));
    case _ =>
  }

  lemma LateOrderly(s: State, r: nat, ok: bool)
    requires Orderly(s) && r in s.runs
    ensures Orderly(ReturnFromGraph(s, r, ok)) && Orderly(JudgeShutdown(s, r))
  {
    match s.runs[r].pc
    case Running(_) => PcOrderly(s, r, Returned(ok));
    case Returned(done) => PcOrderly(s, r, Dropping(done));
    case _ =>
  }

  lemma WriteOrderly(s: State, r: nat)
    requires Orderly(s) && r in s.runs
    ensures Orderly(WriteStatus(s, r))
  {
    match s.runs[r].pc
    case Writing(_) =>
      PcOrderly(s, r, Querying);
      PcOrderly(s, r, PostingFailed(true));
    case Refusing(registered) => PcOrderly(s, r, PostingFailed(registered));
    case _ =>
  }

  lemma PostOrderly(s: State, r: nat, sent: bool)
    requires Orderly(s) && r in s.runs
    ensures Orderly(PostEvent(s, r, sent))
  {
    match s.runs[r].pc
    case Posting(_, _) => PcOrderly(s, r, Ending(true));
    case PostingFailed(registered) => PcOrderly(s, r, Ending(registered));
    case _ =>
  }

  lemma StoreOrderly(s: State, r: nat, c: Checkpoint)
    requires Orderly(s) && r in s.runs
    ensures Orderly(SaveCheckpoint(s, r, c)) && Orderly(DropCheckpoint(s, r)) && Orderly(QueryReady(s, r))
  {
    match s.runs[r].pc
    case Dropping(ok) => PcOrderly(s, r, Writing(ok));
    case Querying => PcOrderly(s, r, QueryReady(s, r).runs[r].pc);
    case _ =>
  }

  lemma OwnEnd(runs: map<nat, Run>, running: map<string, nat>, r: nat)
    requires OwnHandles(runs, running) && r in runs
    ensures runs[r].task in running && Registered(runs[r].pc) ==>
              OwnHandles(CancelRuns(runs, {running[runs[r].task]}) - {r}, running - {runs[r].task})
    ensures !Registered(runs[r].pc) || runs[r].task !in running ==> OwnHandles(runs - {r}, running)
  {
  }

  lemma EndOrderly(s: State, r: nat)
    requires Orderly(s) && r in s.runs
    ensures Orderly(EndTask(s, r))
  {
    OwnEnd(s.runs, s.running, r);
  }

  lemma OuterOrderly(s: State, a: OuterStep)
    requires Orderly(s) && Patient(s, Outside(a))
    ensures Orderly(OuterNext(s, a))
  {
  }

  lemma RunOrderly(s: State, r: nat, a: RunStep)
    requires Orderly(s) && s.up && r in s.runs && Patient(s, Goroutine(r, a))
    ensures Orderly(RunNext(s, r, a))
  {
    match a
    case Begin =>
      if !s.draining && s.runs[r].pc.Beginning? {
        BeginOrderlyIff(s, r);
      }
    case End => EndOrderly(s, r);
    case Write => WriteOrderly(s, r);
    case Post(sent) => PostOrderly(s, r, sent);
    case Save(c) => StoreOrderly(s, r, c);
    case Drop => StoreOrderly(s, r, Checkpoint("", ""));
    case Query => StoreOrderly(s, r, Checkpoint("", ""));
    case Prepare(ok) => EarlyOrderly(s, r, ok);
    case Load => EarlyOrderly(s, r, true);
    case Return(ok) => LateOrderly(s, r, ok);
    case Judge => LateOrderly(s, r, true);
  }

  lemma StepOrderly(s: State, a: Action)
    requires Orderly(s) && Patient(s, a)
    ensures Orderly(Next(s, a))
  {
    match a
    case Operator(op) => OpOrderly(s, op);
    case Goroutine(r, step) =>
      if s.up && r in s.runs {
        RunOrderly(s, r, step);
      }
    case Outside(outer) => OuterOrderly(s, outer);
    case Boot =>
  }

  ghost predicate AllPatient(s: State, actions: seq<Action>)
    decreases actions
  {
    actions != [] ==> Patient(s, actions[0]) && AllPatient(Next(s, actions[0]), actions[1..])
  }

  /** Without a cancellation, and as long as no run registers while its task id still has a
      handle, no run is ever cancelled. */
  lemma {:induction false} NoSpuriousCancel(s: State, actions: seq<Action>, r: nat)
    requires Orderly(s) && AllPatient(s, actions)
    ensures r in Reach(s, actions).runs ==> !Reach(s, actions).runs[r].cancelled
    decreases actions
  {
    if actions != [] {
      StepOrderly(s, actions[0]);
      NoSpuriousCancel(Next(s, actions[0]), actions[1..], r);
    }
  }

  // ---------------------------------------------------------------- registering over a handle

  /** Run r has taken over the handle of the task id from run r0, which has yet to end. */
  predicate TookOver(s: State, r0: nat, r: nat) {
    && s.up && r0 in s.runs && r in s.runs && r0 != r && s.runs[r0].task == s.runs[r].task
    && s.runs[r].task in s.running && s.running[s.runs[r].task] == r
  }

  predicate IsCancelled(s: State, r: nat) {
    r in s.runs && s.runs[r].cancelled
  }

  /** Some patient steps get the run cancelled. */
  ghost predicate MayCancel(s: State, r: nat) {
    exists actions: seq<Action> :: AllPatient(s, actions) && IsCancelled(Reach(s, actions), r)
  }

  lemma MayCancelFirst(s: State, a: Action, r: nat)
    requires Patient(s, a) && MayCancel(Next(s, a), r)
    ensures MayCancel(s, r)
  {
    var actions: seq<Action> :| AllPatient(Next(s, a), actions) && IsCancelled(Reach(Next(s, a), actions), r);
    assert ([a] + actions)[1..] == actions;
    assert AllPatient(s, [a] + actions) && IsCancelled(Reach(s, [a] + actions), r);
  }

  lemma EndingMayCancel(s: State, r0: nat, r: nat)
    requires TookOver(s, r0, r) && s.runs[r0].pc == Ending(true)
    ensures MayCancel(s, r)
  {
    var s' := Next(s, Goroutine(r0, End));
    assert IsCancelled(s', r);
    assert AllPatient(s', []) && Reach(s', []) == s';
    MayCancelFirst(s, Goroutine(r0, End), r);
  }

  lemma PostingMayCancel(s: State, r0: nat, r: nat)
    requires TookOver(s, r0, r) && (s.runs[r0].pc.Posting? || s.runs[r0].pc == PostingFailed(true))
    ensures MayCancel(s, r)
  {
    var sent := |s.loop.inbox| < EVENT_BUFFER;
    EndingMayCancel(PostEvent(s, r0, sent), r0, r);
    MayCancelFirst(s, Goroutine(r0, Post(sent)), r);
  }

  lemma QueryingMayCancel(s: State, r0: nat, r: nat)
    requires TookOver(s, r0, r) && s.runs[r0].pc.Querying?
    ensures MayCancel(s, r)
  {
    PostingMayCancel(QueryReady(s, r0), r0, r);
    MayCancelFirst(s, Goroutine(r0, Query), r);
  }

  /** The earlier run of the task is past its terminal write, and only has to go on. */
  lemma TookOverMayCancel(s: State, r0: nat, r: nat)
    requires TookOver(s, r0, r) && Registered(s.runs[r0].pc) && OneLiveRun(s.runs) && Live(s.runs[r].pc)
    ensures MayCancel(s, r)
  {
    match s.runs[r0].pc
    case Querying => QueryingMayCancel(s, r0, r);
    case Posting(_, _) => PostingMayCancel(s, r0, r);
    case PostingFailed(_) => PostingMayCancel(s, r0, r);
    case Ending(_) => EndingMayCancel(s, r0, r);
    case _ =>
  }

  lemma BeginTakesOver(s: State, r: nat)
    requires Inv(s) && Orderly(s) && s.up && !s.draining && r in s.runs && s.runs[r].pc.Beginning?
    requires s.runs[r].task in s.running
    ensures MayCancel(Next(s, Goroutine(r, Begin)), r)
  {
    var r0 := s.running[s.runs[r].task];
    var s' := Next(s, Goroutine(r, Begin));
    assert s'.runs[r0] == s.runs[r0];
    TookOverMayCancel(s', r0, r);
  }

  /** The exact condition: a run that registers can be cancelled by the steps of runs that
      nobody cancelled exactly when its task id still had a handle as it registered. */
  lemma TakeOverCancelsIff(s: State, r: nat)
    requires Reachable(s) && Orderly(s) && s.up && !s.draining && r in s.runs && s.runs[r].pc.Beginning?
    ensures s.runs[r].task in s.running <==> MayCancel(Next(s, Goroutine(r, Begin)), r)
  {
    var s' := Next(s, Goroutine(r, Begin));
    if s.runs[r].task in s.running {
      ReachableInv(s);
      BeginTakesOver(s, r);
    } else {
      BeginOrderlyIff(s, r);
      forall actions: seq<Action> | AllPatient(s', actions) ensures !IsCancelled(Reach(s', actions), r) {
        NoSpuriousCancel(s', actions, r);
      }
    }
  }
}
