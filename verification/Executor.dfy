/** The executor's own code over the store. Each method that touches shared state is one step
    of the task system; Execute and ExecuteTask are those steps in the order of the code. */
module Executor {
  import opened TaskStore
  import opened TaskSystem
  import opened TaskInvariants

  /** A registered task: its job and the goroutine that its cancel function stops. */
  datatype Handle = Handle(job: string, run: nat)

  /** What running the graph does: the checkpoints it saves, and whether it succeeds. */
  datatype GraphRun = GraphRun(saves: seq<Checkpoint>, ok: bool)

  function Handles(running: map<string, Handle>): map<string, nat> {
    map t | t in running :: running[t].run
  }

  // ---------------------------------------------------------------- the order of the code

  function Saves(r: nat, saves: seq<Checkpoint>): seq<Action> {
    if saves == [] then [] else Saves(r, saves[..|saves| - 1]) + [Goroutine(r, Save(saves[|saves| - 1]))]
  }

  function Latest(checkpoints: Checkpoints, id: string, saves: seq<Checkpoint>): Checkpoints {
    if saves == [] then checkpoints else checkpoints[id := saves[|saves| - 1]]
  }

  function Outcome(ok: bool, cancelled: bool): Status {
    if ok then Completed else if cancelled then Cancelled else Failed
  }

  /** What reaches the operator's channel: nothing about a cancelled task, and nothing when the
      send is given up. */
  function Announced(tasks: Tasks, id: string, status: Status, sent: bool): seq<Event>
    requires id in tasks
  {
    if !sent then []
    else if status == Completed then [TaskCompleted(id, tasks[id].job, AnyReady(tasks, tasks[id].job))]
    else if status == Failed then [TaskFailed(id)]
    else []
  }

  /** How a send can end: with room it succeeds unless the lifetime is over, and without room
      it is given up. */
  predicate MaySend(inbox: seq<Event>, over: bool, sent: bool) {
    if sent then |inbox| < EVENT_BUFFER else |inbox| >= EVENT_BUFFER || over
  }

  /** The operator has been told of the status, or the send was given up. */
  predicate Reported(
    before: seq<Event>, after: seq<Event>, over: bool, tasks: Tasks, id: string, status: Status, sent: bool)
    requires id in tasks
  {
    && after == before + Announced(tasks, id, status, sent)
    && (status != Cancelled ==> MaySend(before, over, sent))
  }

  /** Up to the shutdown check. */
  function GraphSteps(r: nat, g: GraphRun): seq<Action> {
    [Goroutine(r, Load)] + Saves(r, g.saves) + [Goroutine(r, Return(g.ok))] + [Goroutine(r, Judge)]
  }

  /** After it: the checkpoint goes first, then the status, then the ready query, then the event. */
  function TerminalSteps(r: nat, status: Status, sent: bool): seq<Action> {
    [Goroutine(r, Drop)] + [Goroutine(r, Write)]
    + (if status == Completed then [Goroutine(r, Query)] + [Goroutine(r, Post(sent))]
       else if status == Failed then [Goroutine(r, Post(sent))]
       else [])
  }

  function ExecuteSteps(r: nat, g: GraphRun, stop: bool, cancelled: bool, sent: bool): seq<Action> {
    GraphSteps(r, g) + if stop then [] else TerminalSteps(r, Outcome(g.ok, cancelled), sent)
  }

  lemma TerminalEnd(before: seq<Action>, r: nat, status: Status, sent: bool)
    ensures before + TerminalSteps(r, status, sent)
            == before + [Goroutine(r, Drop)] + [Goroutine(r, Write)]
               + (if status == Completed then [Goroutine(r, Query)] else [])
               + (if status == Completed || status == Failed then [Goroutine(r, Post(sent))] else [])
  {
  }

  lemma StepsEnd(before: seq<Action>, r: nat, g: GraphRun, cancelled: bool, sent: bool)
    ensures before + ExecuteSteps(r, g, true, cancelled, sent) == before + GraphSteps(r, g)
    ensures before + ExecuteSteps(r, g, false, cancelled, sent)
            == before + GraphSteps(r, g) + TerminalSteps(r, Outcome(g.ok, cancelled), sent)
  {
  }

  // ---------------------------------------------------------------- the trace of an executor

  /** The states that a trace goes through. */
  ghost predicate Chain(start: State, states: seq<State>, trace: seq<Action>, state: State) {
    && |states| == |trace| + 1 && states[0] == start && states[|trace|] == state
    && forall i :: 0 <= i < |trace| ==> states[i + 1] == Next(states[i], trace[i])
  }

  ghost predicate Follows(start: State, trace: seq<Action>, state: State) {
    exists states: seq<State> :: Chain(start, states, trace, state)
  }

  lemma FollowsNone(start: State)
    ensures Follows(start, [], start)
  {
    assert Chain(start, [start], [], start);
  }

  lemma FollowsMore(start: State, trace: seq<Action>, state: State, a: Action)
    requires Follows(start, trace, state)
    ensures Follows(start, trace + [a], Next(state, a))
  {
    var states: seq<State> :| Chain(start, states, trace, state);
    assert Chain(start, states + [Next(state, a)], trace + [a], Next(state, a));
  }

  /** The state an executor carries is the one its trace leads to from where it started. */
  lemma {:induction false} FollowsReach(start: State, trace: seq<Action>, state: State)
    requires Follows(start, trace, state)
    ensures Reach(start, trace) == state
    decreases trace
  {
    var states: seq<State> :| Chain(start, states, trace, state);
    if trace != [] {
      assert Chain(states[1], states[1..], trace[1..], state);
      FollowsReach(states[1], trace[1..], state);
    }
  }

  // ---------------------------------------------------------------- what the order of the code means

  lemma ReachOne(v: State, a: Action)
    ensures Reach(v, [a]) == Next(v, a)
  {
  }

  lemma {:induction false} ReachConcat(v: State, a: seq<Action>, b: seq<Action>)
    ensures Reach(v, a + b) == Reach(Reach(v, a), b)
    decreases a
  {
    if a == [] {
      assert a + b == b;
    } else {
      assert (a + b)[1..] == a[1..] + b;
      ReachConcat(Next(v, a[0]), a[1..], b);
    }
  }

  lemma {:induction false} SavesMean(v: State, r: nat, saves: seq<Checkpoint>)
    requires v.up && r in v.runs && v.runs[r].pc.Running?
    ensures Reach(v, Saves(r, saves)) == v.(checkpoints := Latest(v.checkpoints, v.runs[r].task, saves))
    decreases saves
  {
    if saves != [] {
      var n := |saves| - 1;
      SavesMean(v, r, saves[..n]);
      ReachMore(v, Saves(r, saves[..n]), Goroutine(r, Save(saves[n])));
    }
  }

  lemma LoadMeans(v: State, r: nat)
    requires v.up && r in v.runs && v.runs[r].pc.Loading?
    ensures Reach(v, [Goroutine(r, Load)]) == At(v, r, Running(v.runs[r].task in v.checkpoints))
  {
  }

  lemma ReturnMeans(v: State, r: nat, ok: bool)
    requires v.up && r in v.runs && v.runs[r].pc.Running?
    ensures Reach(v, [Goroutine(r, Return(ok))] + [Goroutine(r, Judge)])
            == At(v, r, if !ok && v.runs[r].cancelled && v.draining then Ending(true) else Dropping(ok))
  {
    var returned := At(v, r, Returned(ok));
    ReachOne(v, Goroutine(r, Return(ok)));
    ReachOne(returned, Goroutine(r, Judge));
    ReachConcat(v, [Goroutine(r, Return(ok))], [Goroutine(r, Judge)]);
  }

  /** Replayed as steps of the system, the graph run leaves its last checkpoint and nothing
      else in the store. */
  lemma GraphMeans(v: State, r: nat, g: GraphRun)
    requires v.up && r in v.runs && v.runs[r].pc.Loading?
    ensures var v' := Reach(v, GraphSteps(r, g));
            && v'.tasks == v.tasks && v'.checkpoints == Latest(v.checkpoints, v.runs[r].task, g.saves)
            && v'.up && r in v'.runs && v'.runs[r].task == v.runs[r].task && v'.runs[r].cancelled == v.runs[r].cancelled
            && v'.runs[r].pc == if !g.ok && v.runs[r].cancelled && v.draining then Ending(true) else Dropping(g.ok)
  {
    var back := [Goroutine(r, Return(g.ok))] + [Goroutine(r, Judge)];
    assert GraphSteps(r, g) == [Goroutine(r, Load)] + (Saves(r, g.saves) + back);
    var loaded := At(v, r, Running(v.runs[r].task in v.checkpoints));
    LoadMeans(v, r);
    ReachConcat(v, [Goroutine(r, Load)], Saves(r, g.saves) + back);
    SavesMean(loaded, r, g.saves);
    ReachConcat(loaded, Saves(r, g.saves), back);
    ReturnMeans(loaded.(checkpoints := Latest(v.checkpoints, v.runs[r].task, g.saves)), r, g.ok);
  }

  lemma PersistMeans(v: State, r: nat)
    requires v.up && r in v.runs && v.runs[r].pc.Dropping? && v.runs[r].task in v.tasks
    ensures var v' := Reach(v, [Goroutine(r, Drop)] + [Goroutine(r, Write)]);
            && v'.up && r in v'.runs
            && v'.tasks == SetStatus(v.tasks, v.runs[r].task, Outcome(v.runs[r].pc.ok, v.runs[r].cancelled))
            && v'.checkpoints == v.checkpoints - {v.runs[r].task}
  {
    ReachOne(v, Goroutine(r, Drop));
    ReachOne(DropCheckpoint(v, r), Goroutine(r, Write));
    ReachConcat(v, [Goroutine(r, Drop)], [Goroutine(r, Write)]);
  }

  /** The steps that tell the operator leave the store alone. */
  predicate StoreKept(v: State, v': State, r: nat) {
    v'.up == v.up && r in v'.runs && v'.tasks == v.tasks && v'.checkpoints == v.checkpoints
  }

  lemma CompletionKept(v: State, r: nat, hasNext: bool, gone: set<string>, sent: bool)
    requires r in v.runs
    ensures StoreKept(v, PostCompletion(v, r, hasNext, gone, sent), r)
  {
  }

  lemma FailureKept(v: State, r: nat, registered: bool, sent: bool)
    requires r in v.runs
    ensures StoreKept(v, PostFailure(v, r, registered, sent), r)
  {
  }

  lemma PostKeepsStore(v: State, r: nat, sent: bool)
    requires r in v.runs
    ensures StoreKept(v, PostEvent(v, r, sent), r)
  {
    var pc := v.runs[r].pc;
    if SendEnds(v, sent) && pc.Posting? {
      CompletionKept(v, r, pc.hasNext, pc.gone, sent);
    } else if SendEnds(v, sent) && pc.PostingFailed? {
      FailureKept(v, r, pc.registered, sent);
    }
  }

  lemma AnnounceStep(v: State, r: nat, step: RunStep)
    requires v.up && r in v.runs && (step.Query? || step.Post?)
    ensures StoreKept(v, Next(v, Goroutine(r, step)), r)
  {
    match step
    case Query => assert StoreKept(v, QueryReady(v, r), r);
    case Post(sent) => PostKeepsStore(v, r, sent);
    case _ =>
  }

  lemma {:induction false} AnnounceMeans(v: State, r: nat, steps: seq<Action>)
    requires v.up && r in v.runs
    requires forall a :: a in steps ==> a.Goroutine? && a.r == r && (a.step.Query? || a.step.Post?)
    ensures Reach(v, steps).tasks == v.tasks && Reach(v, steps).checkpoints == v.checkpoints
    decreases steps
  {
    if steps != [] {
      assert steps[0] in steps;
      AnnounceStep(v, r, steps[0].step);
      AnnounceMeans(Next(v, steps[0]), r, steps[1..]);
    }
  }

  /** The code's order of steps, replayed in the system without interference, leaves exactly
      the store that Execute promises. */
  lemma ExecuteMeans(v: State, r: nat, g: GraphRun, sent: bool)
    requires v.up && r in v.runs && v.runs[r].pc.Loading? && v.runs[r].task in v.tasks
    ensures var stop := !g.ok && v.runs[r].cancelled && v.draining;
            var v' := Reach(v, ExecuteSteps(r, g, stop, v.runs[r].cancelled, sent));
            var id := v.runs[r].task;
            && (stop ==> v'.tasks == v.tasks && v'.checkpoints == Latest(v.checkpoints, id, g.saves))
            && (!stop ==> v'.tasks == SetStatus(v.tasks, id, Outcome(g.ok, v.runs[r].cancelled))
                          && v'.checkpoints == v.checkpoints - {id})
  {
    GraphMeans(v, r, g);
    var run := Reach(v, GraphSteps(r, g));
    if g.ok || !v.runs[r].cancelled || !v.draining {
      var status := Outcome(g.ok, v.runs[r].cancelled);
      var persist := [Goroutine(r, Drop)] + [Goroutine(r, Write)];
      var tell := TerminalSteps(r, status, sent)[2..];
      assert TerminalSteps(r, status, sent) == persist + tell;
      ReachConcat(v, GraphSteps(r, g), persist + tell);
      ReachConcat(run, persist, tell);
      PersistMeans(run, r);
      AnnounceMeans(Reach(run, persist), r, tell);
    } else {
      assert GraphSteps(r, g) + [] == GraphSteps(r, g);
    }
  }

  function Matching(running: map<string, Handle>, keys: set<string>, job: string): set<string> {
    set t | t in keys && t in running && running[t].job == job
  }

  /** The loop of CancelJob: the runs under the job's handles, and how many handles there are. */
  method Collect(running: map<string, Handle>, job: string) returns (n: nat, hit: set<nat>)
    ensures n == |Matching(running, running.Keys, job)|
    ensures hit == set t | t in Matching(running, running.Keys, job) :: running[t].run
  {
    n, hit := 0, {};
    var rest := running.Keys;
    ghost var seen: set<string> := {};
    while rest != {}
      invariant rest + seen == running.Keys && rest !! seen
      invariant n == |Matching(running, seen, job)|
      invariant hit == set t | t in Matching(running, seen, job) :: running[t].run
      decreases rest
    {
      var t :| t in rest;
      if running[t].job == job {
        assert Matching(running, seen + {t}, job) == Matching(running, seen, job) + {t};
        hit := hit + {running[t].run};
        n := n + 1;
      } else {
        assert Matching(running, seen + {t}, job) == Matching(running, seen, job);
      }
      seen := seen + {t};
      rest := rest - {t};
    }
    assert seen == running.Keys;
  }

  lemma HandlesMatch(running: map<string, Handle>, tasks: Tasks, job: string)
    requires forall t :: t in running ==> t in tasks && running[t].job == tasks[t].job
    ensures (set t | t in Matching(running, running.Keys, job) :: running[t].run)
            == (set t | t in Handles(running) && t in tasks && tasks[t].job == job :: Handles(running)[t])
  {
  }

  lemma HandlesUpdate(running: map<string, Handle>, id: string, h: Handle)
    ensures Handles(running[id := h]) == Handles(running)[id := h.run]
    ensures Handles(running - {id}) == Handles(running) - {id}
  {
  }

  /** The release of a task touches nothing but its handle and the run that the handle names. */
  lemma EndMarks(v: State, r: nat)
    requires r in v.runs && v.runs[r].pc == Ending(true)
    ensures var v' := TaskSystem.EndTask(v, r);
            var t := v.runs[r].task;
            && v' == v.(runs := v'.runs, running := v.running - {t})
            && forall r2: nat :: r2 in v'.runs ==>
                 && r2 in v.runs
                 && v'.runs[r2].cancelled == (v.runs[r2].cancelled || (t in v.running && v.running[t] == r2))
  {
    if v.runs[r].task !in v.running {
      assert v.running - {v.runs[r].task} == v.running;
    }
  }

  /** The executor's fields and the operator's event channel, beside the state of the task
      system that they implement. */
  class Executor {
    const store: Store
    var running: map<string, Handle>
    var draining: bool
    var lifetimeOver: bool
    var cancelled: set<nat>
    var inFlight: nat
    var inbox: seq<Event>
    ghost const start: State
    ghost var state: State
    ghost var trace: seq<Action>

    /** A new executor over a store, with the goroutines that the operator has spawned. */
    constructor (store: Store, inbox: seq<Event>, ghost start: State)
      requires start.up && !start.draining && !start.lifetimeOver && start.running == map[]
      requires start.tasks == store.tasks && start.checkpoints == store.checkpoints && start.loop.inbox == inbox
      requires forall r: nat :: r in start.runs ==> !start.runs[r].cancelled
      ensures this.store == store && this.inbox == inbox && Valid() && inFlight == 0
      ensures this.start == start && state == start && trace == []
    {
      this.store, this.inbox := store, inbox;
      running, draining, lifetimeOver, cancelled, inFlight := map[], false, false, {}, 0;
      this.start, state, trace := start, start, [];
      FollowsNone(start);
    }

    /** The fields, the store and the channel are what the state says; the context of a run is
        done exactly when its record says so, handles name the job of their task, and the state
        is where the trace leads. */
    ghost predicate Valid()
      reads this, store
    {
      && state.up && state.tasks == store.tasks && state.checkpoints == store.checkpoints
      && state.draining == draining && state.lifetimeOver == lifetimeOver
      && state.running == Handles(running) && state.loop.inbox == inbox
      && (forall r: nat :: r in state.runs ==> (state.runs[r].cancelled <==> r in cancelled))
      && (forall t :: t in running ==> t in store.tasks && running[t].job == store.tasks[t].job)
      && Follows(start, trace, state)
    }

    /** Where a goroutine is. */
    ghost predicate RunAt(r: nat, id: string, pc: Pc)
      reads this
    {
      r in state.runs && state.runs[r].task == id && state.runs[r].pc == pc
    }

    /** The goroutine's step, on the ghost side. */
    ghost method Take(r: nat, step: RunStep)
      requires Follows(start, trace, state) && state.up && r in state.runs
      modifies this`state, this`trace
      ensures state == RunNext(old(state), r, step) && trace == old(trace) + [Goroutine(r, step)]
      ensures Follows(start, trace, state)
    {
      FollowsMore(start, trace, state, Goroutine(r, step));
      state, trace := Next(state, Goroutine(r, step)), trace + [Goroutine(r, step)];
    }

    // -------------------------------------------------------------- registration

    method BeginTask(r: nat, id: string, job: string) returns (ok: bool)
      requires Valid() && RunAt(r, id, Beginning) && id in store.tasks && job == store.tasks[id].job
      modifies this
      ensures Valid() && state == TaskSystem.BeginTask(old(state), r) && trace == old(trace) + [Goroutine(r, Begin)]
      ensures ok == !old(draining) && inFlight == old(inFlight) + (if ok then 1 else 0) && inbox == old(inbox)
      ensures RunAt(r, id, if ok then Preparing else Refusing(false))
      ensures draining == old(draining) && (ok ==> (r in cancelled <==> old(lifetimeOver)))
    {
      ok := !draining;
      if ok {
        HandlesUpdate(running, id, Handle(job, r));
        cancelled := if lifetimeOver then cancelled + {r} else cancelled - {r};
        running := running[id := Handle(job, r)];
        inFlight := inFlight + 1;
      }
      Take(r, Begin);
    }

    method EndTask(r: nat, id: string)
      requires Valid() && RunAt(r, id, Ending(true)) && inFlight > 0
      modifies this
      ensures Valid() && state == TaskSystem.EndTask(old(state), r) && trace == old(trace) + [Goroutine(r, End)]
      ensures inFlight == old(inFlight) - 1 && inbox == old(inbox)
    {
      EndMarks(state, r);
      if id in running {
        HandlesUpdate(running, id, running[id]);
        cancelled := cancelled + {running[id].run};
        running := running - {id};
      }
      inFlight := inFlight - 1;
      Take(r, End);
    }

    /** Cancels every registered run of the job and counts the handles. */
    method CancelJob(job: string) returns (n: nat)
      requires Valid()
      modifies this`cancelled, this`state, this`trace
      ensures Valid() && state == CancelJobRuns(old(state), job)
      ensures trace == old(trace) + [Outside(OuterStep.CancelJob(job))]
      ensures n == |Matching(running, running.Keys, job)|
    {
      var hit: set<nat>;
      n, hit := Collect(running, job);
      HandlesMatch(running, store.tasks, job);
      cancelled := cancelled + hit;
      FollowsMore(start, trace, state, Outside(OuterStep.CancelJob(job)));
      state, trace := CancelJobRuns(state, job), trace + [Outside(OuterStep.CancelJob(job))];
    }

    /** Refuses new work from here on; the wait itself is not modelled. */
    method Drain()
      requires Valid()
      modifies this`draining, this`state, this`trace
      ensures Valid() && state == old(state).(draining := true) && trace == old(trace) + [Outside(StartDrain)]
    {
      draining := true;
      FollowsMore(start, trace, state, Outside(StartDrain));
      state, trace := state.(draining := true), trace + [Outside(StartDrain)];
    }

    // -------------------------------------------------------------- one step each

    method LoadCheckpoint(r: nat, id: string) returns (found: bool)
      requires Valid() && RunAt(r, id, Loading)
      modifies this`state, this`trace
      ensures Valid() && state == TaskSystem.LoadCheckpoint(old(state), r) && trace == old(trace) + [Goroutine(r, Load)]
      ensures found == (id in store.checkpoints) && RunAt(r, id, Running(found))
    {
      var c: Checkpoint;
      found, c := store.LoadCheckpoint(id);
      Take(r, Load);
    }

    method SaveCheckpoint(r: nat, id: string, resumed: bool, c: Checkpoint)
      requires Valid() && RunAt(r, id, Running(resumed))
      modifies this`state, this`trace, store
      ensures Valid() && state == TaskSystem.SaveCheckpoint(old(state), r, c)
      ensures trace == old(trace) + [Goroutine(r, Save(c))]
      ensures store.tasks == old(store.tasks) && store.checkpoints == old(store.checkpoints)[id := c]
      ensures RunAt(r, id, Running(resumed))
    {
      store.SaveCheckpoint(id, c);
      Take(r, Save(c));
    }

    /** The graph run comes back. */
    ghost method ComeBack(r: nat, id: string, resumed: bool, ok: bool)
      requires Valid() && RunAt(r, id, Running(resumed))
      modifies this`state, this`trace
      ensures Valid() && state == ReturnFromGraph(old(state), r, ok)
      ensures trace == old(trace) + [Goroutine(r, RunStep.Return(ok))]
      ensures RunAt(r, id, Returned(ok))
    {
      Take(r, RunStep.Return(ok));
    }

    method JudgeShutdown(r: nat, id: string, ok: bool) returns (stop: bool)
      requires Valid() && RunAt(r, id, Returned(ok))
      modifies this`state, this`trace
      ensures Valid() && state == TaskSystem.JudgeShutdown(old(state), r) && trace == old(trace) + [Goroutine(r, Judge)]
      ensures stop == (!ok && r in cancelled && draining)
      ensures RunAt(r, id, if stop then Ending(true) else Dropping(ok))
    {
      stop := !ok && r in cancelled && draining;
      Take(r, Judge);
    }

    method DeleteCheckpoint(r: nat, id: string, ok: bool)
      requires Valid() && RunAt(r, id, Dropping(ok))
      modifies this`state, this`trace, store
      ensures Valid() && state == DropCheckpoint(old(state), r) && trace == old(trace) + [Goroutine(r, Drop)]
      ensures store.tasks == old(store.tasks) && store.checkpoints == old(store.checkpoints) - {id}
      ensures RunAt(r, id, Writing(ok))
    {
      store.DeleteCheckpoint(id);
      Take(r, Drop);
    }

    method WriteOutcome(r: nat, id: string, ok: bool) returns (status: Status)
      requires Valid() && RunAt(r, id, Writing(ok)) && id in store.tasks
      modifies this`state, this`trace, store
      ensures Valid() && state == WriteStatus(old(state), r) && trace == old(trace) + [Goroutine(r, Write)]
      ensures status == if ok then Completed else if r in cancelled then Cancelled else Failed
      ensures store.tasks == SetStatus(old(store.tasks), id, status) && store.checkpoints == old(store.checkpoints)
      ensures RunAt(r, id, if ok then Querying else if r in cancelled then Ending(true) else PostingFailed(true))
    {
      status := if ok then Completed else if r in cancelled then Cancelled else Failed;
      var written := store.UpdateTaskStatus(id, status);
      Take(r, Write);
    }

    method AskReady(r: nat, id: string) returns (hasNext: bool)
      requires Valid() && RunAt(r, id, Querying) && id in store.tasks
      modifies this`state, this`trace
      ensures Valid() && state == QueryReady(old(state), r) && trace == old(trace) + [Goroutine(r, Query)]
      ensures hasNext == AnyReady(store.tasks, store.tasks[id].job)
      ensures RunAt(r, id, Posting(hasNext, NotPending(store.tasks)))
    {
      var ready := store.GetReadyTasks(store.tasks[id].job);
      hasNext := |ready| > 0;
      if hasNext {
        assert ready[0] in ready && ReadyIn(store.tasks, ready[0], store.tasks[id].job);
      }
      Take(r, Query);
    }

    /** The send of an event: given up when the channel stays full, and a matter of chance when
        there is room but the lifetime is over. */
    method Send(e: Event) returns (sent: bool)
      modifies this`inbox
      ensures MaySend(old(inbox), lifetimeOver, sent)
      ensures inbox == if sent then old(inbox) + [e] else old(inbox)
    {
      sent := |inbox| < EVENT_BUFFER;
      if lifetimeOver && sent {
        sent := *;
      }
      if sent {
        inbox := inbox + [e];
      }
    }

    method PostCompleted(r: nat, id: string, hasNext: bool) returns (sent: bool)
      requires Valid() && RunAt(r, id, Posting(hasNext, NotPending(store.tasks))) && id in store.tasks
      modifies this`state, this`trace, this`inbox
      ensures Valid() && state == PostEvent(old(state), r, sent) && trace == old(trace) + [Goroutine(r, Post(sent))]
      ensures MaySend(old(inbox), lifetimeOver, sent) && RunAt(r, id, Ending(true))
      ensures inbox == old(inbox) + if sent then [TaskCompleted(id, store.tasks[id].job, hasNext)] else []
    {
      sent := Send(TaskCompleted(id, store.tasks[id].job, hasNext));
      Take(r, Post(sent));
    }

    method PostFailed(r: nat, id: string, registered: bool) returns (sent: bool)
      requires Valid() && RunAt(r, id, PostingFailed(registered))
      modifies this`state, this`trace, this`inbox
      ensures Valid() && state == PostEvent(old(state), r, sent) && trace == old(trace) + [Goroutine(r, Post(sent))]
      ensures MaySend(old(inbox), lifetimeOver, sent) && RunAt(r, id, Ending(registered))
      ensures inbox == old(inbox) + if sent then [TaskFailed(id)] else []
    {
      sent := Send(TaskFailed(id));
      Take(r, Post(sent));
    }

    // -------------------------------------------------------------- Execute

    /** The graph saves a checkpoint after each node; only the last one stays. */
    method SaveAll(r: nat, id: string, resumed: bool, saves: seq<Checkpoint>)
      requires Valid() && RunAt(r, id, Running(resumed))
      modifies this`state, this`trace, store
      ensures Valid() && RunAt(r, id, Running(resumed)) && trace == old(trace) + Saves(r, saves)
      ensures store.tasks == old(store.tasks)
      ensures store.checkpoints == Latest(old(store.checkpoints), id, saves)
    {
      for i := 0 to |saves|
        invariant Valid() && RunAt(r, id, Running(resumed))
        invariant trace == old(trace) + Saves(r, saves[..i])
        invariant store.tasks == old(store.tasks)
        invariant store.checkpoints == Latest(old(store.checkpoints), id, saves[..i])
      {
        SaveCheckpoint(r, id, resumed, saves[i]);
        assert saves[..i + 1][..i] == saves[..i];
      }
      assert saves[..|saves|] == saves;
    }

    /** The graph comes back, and a cancelled run of a draining executor stops. */
    method Return(r: nat, id: string, resumed: bool, ok: bool) returns (stop: bool)
      requires Valid() && RunAt(r, id, Running(resumed))
      modifies this`state, this`trace
      ensures Valid() && trace == old(trace) + [Goroutine(r, RunStep.Return(ok))] + [Goroutine(r, Judge)]
      ensures stop == (!ok && r in cancelled && draining)
      ensures RunAt(r, id, if stop then Ending(true) else Dropping(ok))
    {
      ComeBack(r, id, resumed, ok);
      stop := JudgeShutdown(r, id, ok);
    }

    /** Loads, runs the graph with its saves, and looks for a shutdown. */
    method RunGraph(r: nat, id: string, g: GraphRun) returns (stop: bool)
      requires Valid() && RunAt(r, id, Loading)
      modifies this`state, this`trace, store
      ensures Valid() && trace == old(trace) + GraphSteps(r, g)
      ensures stop == (!g.ok && r in cancelled && draining)
      ensures RunAt(r, id, if stop then Ending(true) else Dropping(g.ok))
      ensures store.tasks == old(store.tasks)
      ensures store.checkpoints == Latest(old(store.checkpoints), id, g.saves)
    {
      var resumed := LoadCheckpoint(r, id);
      SaveAll(r, id, resumed, g.saves);
      stop := Return(r, id, resumed, g.ok);
    }

    /** Drops the checkpoint, then writes the terminal status. */
    method Persist(r: nat, id: string, ok: bool) returns (status: Status)
      requires Valid() && RunAt(r, id, Dropping(ok)) && id in store.tasks
      modifies this`state, this`trace, store
      ensures Valid() && trace == old(trace) + [Goroutine(r, Drop)] + [Goroutine(r, Write)]
      ensures status == if ok then Completed else if r in cancelled then Cancelled else Failed
      ensures store.tasks == SetStatus(old(store.tasks), id, status)
      ensures store.checkpoints == old(store.checkpoints) - {id}
      ensures RunAt(r, id, if ok then Querying else if r in cancelled then Ending(true) else PostingFailed(true))
    {
      DeleteCheckpoint(r, id, ok);
      status := WriteOutcome(r, id, ok);
    }

    /** Asks for ready tasks, then posts the completion. */
    method Announce(r: nat, id: string) returns (sent: bool)
      requires Valid() && RunAt(r, id, Querying) && id in store.tasks
      modifies this`state, this`trace, this`inbox
      ensures Valid() && trace == old(trace) + [Goroutine(r, Query)] + [Goroutine(r, Post(sent))]
      ensures MaySend(old(inbox), lifetimeOver, sent) && RunAt(r, id, Ending(true))
      ensures inbox == old(inbox) + Announced(store.tasks, id, Completed, sent)
    {
      var hasNext := AskReady(r, id);
      sent := PostCompleted(r, id, hasNext);
    }

    /** Persists the outcome and tells the operator. */
    method Finish(r: nat, id: string, ok: bool) returns (status: Status, sent: bool)
      requires Valid() && RunAt(r, id, Dropping(ok)) && id in store.tasks
      modifies this`state, this`trace, this`inbox, store
      ensures Valid() && trace == old(trace) + TerminalSteps(r, status, sent) && RunAt(r, id, Ending(true))
      ensures status == if ok then Completed else if r in cancelled then Cancelled else Failed
      ensures store.tasks == SetStatus(old(store.tasks), id, status)
      ensures store.checkpoints == old(store.checkpoints) - {id}
      ensures Reported(old(inbox), inbox, lifetimeOver, store.tasks, id, status, sent)
    {
      sent := false;
      status := Persist(r, id, ok);
      if status == Completed {
        sent := Announce(r, id);
      } else if status == Failed {
        sent := PostFailed(r, id, true);
      }
      TerminalEnd(old(trace), r, status, sent);
    }

    /** One graph execution, from the checkpoint lookup to the event. A shutdown leaves the task
        in progress with its checkpoint. */
    method Execute(r: nat, id: string, g: GraphRun) returns (stop: bool, sent: bool)
      requires Valid() && RunAt(r, id, Loading) && id in store.tasks
      modifies this`state, this`trace, this`inbox, store
      ensures Valid() && RunAt(r, id, Ending(true)) && stop == (!g.ok && r in cancelled && draining)
      ensures trace == old(trace) + ExecuteSteps(r, g, stop, r in cancelled, sent)
      ensures stop ==> store.tasks == old(store.tasks) && inbox == old(inbox)
                       && store.checkpoints == Latest(old(store.checkpoints), id, g.saves)
      ensures !stop ==>
                var status := Outcome(g.ok, r in cancelled);
                && store.tasks == SetStatus(old(store.tasks), id, status)
                && store.checkpoints == old(store.checkpoints) - {id}
                && Reported(old(inbox), inbox, lifetimeOver, store.tasks, id, status, sent)
    {
      sent := false;
      stop := RunGraph(r, id, g);
      if !stop {
        var status: Status;
        status, sent := Finish(r, id, g.ok);
      }
      StepsEnd(old(trace), r, g, r in cancelled, sent);
    }

    method WriteFailed(r: nat, id: string, registered: bool)
      requires Valid() && RunAt(r, id, Refusing(registered)) && id in store.tasks
      modifies this`state, this`trace, store
      ensures Valid() && state == WriteStatus(old(state), r) && trace == old(trace) + [Goroutine(r, Write)]
      ensures store.tasks == SetStatus(old(store.tasks), id, Failed) && store.checkpoints == old(store.checkpoints)
      ensures RunAt(r, id, PostingFailed(registered))
    {
      var written := store.UpdateTaskStatus(id, Failed);
      Take(r, Write);
    }

    /** A dispatch that could not start: the task fails and the operator is told. */
    method FailDispatch(r: nat, id: string, registered: bool) returns (sent: bool)
      requires Valid() && RunAt(r, id, Refusing(registered)) && id in store.tasks
      modifies this`state, this`trace, this`inbox, store
      ensures Valid() && RunAt(r, id, Ending(registered))
      ensures trace == old(trace) + [Goroutine(r, Write)] + [Goroutine(r, Post(sent))]
      ensures store.tasks == SetStatus(old(store.tasks), id, Failed) && store.checkpoints == old(store.checkpoints)
      ensures Reported(old(inbox), inbox, lifetimeOver, store.tasks, id, Failed, sent)
    {
      WriteFailed(r, id, registered);
      sent := PostFailed(r, id, registered);
    }

    method PrepareTask(r: nat, id: string, ok: bool)
      requires Valid() && RunAt(r, id, Preparing)
      modifies this`state, this`trace
      ensures Valid() && state == TaskSystem.PrepareTask(old(state), r, ok)
      ensures trace == old(trace) + [Goroutine(r, Prepare(ok))]
      ensures RunAt(r, id, if ok then Loading else Refusing(true))
    {
      Take(r, Prepare(ok));
    }

    /** What ExecuteTask does once the task is registered, up to its release. */
    method RunRegistered(r: nat, id: string, prepared: bool, g: GraphRun) returns (sent: bool)
      requires Valid() && RunAt(r, id, Preparing) && id in store.tasks && !draining
      modifies this`state, this`trace, this`inbox, store
      ensures Valid() && RunAt(r, id, Ending(true))
      ensures var status := if prepared then Outcome(g.ok, r in cancelled) else Failed;
              && store.tasks == SetStatus(old(store.tasks), id, status)
              && Reported(old(inbox), inbox, lifetimeOver, store.tasks, id, status, sent)
      ensures store.checkpoints == if prepared then old(store.checkpoints) - {id} else old(store.checkpoints)
    {
      PrepareTask(r, id, prepared);
      if prepared {
        var stop: bool;
        stop, sent := Execute(r, id, g);
      } else {
        sent := FailDispatch(r, id, true);
      }
    }

    /** A whole dispatch: refused while draining, failed when the graph cannot be prepared, run
        otherwise; a registered task is always released. */
    method ExecuteTask(r: nat, id: string, job: string, prepared: bool, g: GraphRun) returns (sent: bool)
      requires Valid() && RunAt(r, id, Beginning) && id in store.tasks && job == store.tasks[id].job
      modifies this, store
      ensures Valid() && inFlight == old(inFlight)
      ensures var ran := !old(draining) && prepared;
              var status := if ran then Outcome(g.ok, old(lifetimeOver)) else Failed;
              && store.tasks == SetStatus(old(store.tasks), id, status)
              && store.checkpoints == (if ran then old(store.checkpoints) - {id} else old(store.checkpoints))
              && Reported(old(inbox), inbox, old(lifetimeOver), store.tasks, id, status, sent)
    {
      var ok := BeginTask(r, id, job);
      if !ok {
        sent := FailDispatch(r, id, false);
      } else {
        sent := RunRegistered(r, id, prepared, g);
        EndTask(r, id);
      }
    }
  }
}
