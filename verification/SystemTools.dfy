/** The operator's task tools over the store: create, assign, dispatch and retry, and the
    mechanical advance to the next ready task. */
module SystemTools {
  import opened TaskStore
  import opened TaskSystem
  import opened TaskInvariants

  datatype Reply = Created | Started | Queued(behind: string) | Nothing | Refused

  /** What the tool can see of the job and of the graph catalog. */
  datatype Surroundings = Surroundings(jobFinished: bool, graphKnown: bool)

  /** The serial gate's decision, as a function of the rows it lists. */
  function Gate(tasks: Tasks, id: string, graph: string): Tasks {
    if AnyBusy(tasks, id) then PreAssign(tasks, id, graph) else Assign(tasks, id, graph)
  }

  function GateRetry(tasks: Tasks, id: string, graph: string): Tasks {
    if AnyBusy(tasks, id) then tasks else TaskStore.Retry(tasks, id, graph)
  }

  /** Whatever the gate lets through, the job stays serial. */
  lemma GateSerial(tasks: Tasks, id: string, graph: string)
    requires Serial(tasks)
    ensures Serial(Gate(tasks, id, graph)) && Serial(GateRetry(tasks, id, graph))
  {
    if id in tasks && !AnyBusy(tasks, id) {
      GateOpen(tasks, id, Assign(tasks, id, graph));
      GateOpen(tasks, id, TaskStore.Retry(tasks, id, graph));
    }
    if id in tasks && AnyBusy(tasks, id) {
      var b := PreAssign(tasks, id, graph);
      assert forall t1, t2 :: t1 in tasks && t2 in tasks && Together(b, t1, t2) ==> Together(tasks, t1, t2);
    }
  }

  lemma GateOpen(tasks: Tasks, id: string, b: Tasks)
    requires Serial(tasks) && id in tasks && !AnyBusy(tasks, id)
    requires id in b && b == tasks[id := b[id]] && b[id].job == tasks[id].job
    ensures Serial(b)
  {
  }

  lemma WriteMeans(s: State)
    requires s.up
    ensures Reach(s, [Operator(WriteGuarded)]) == GuardedWrite(s)
  {
    assert Reach(s, [Operator(WriteGuarded)]) == Reach(GuardedWrite(s), []);
  }

  lemma GateMeans(s: State, x: string)
    requires s.up
    ensures Reach(s, [Operator(ListSiblings(x)), Operator(WriteGuarded)]) == GuardedWrite(List(s, x))
  {
    var steps := [Operator(ListSiblings(x)), Operator(WriteGuarded)];
    assert steps[1..] == [Operator(WriteGuarded)];
    WriteMeans(List(s, x));
  }

  /** The gate of the code and the gate of the step system are the same: listing the siblings
      and writing, uninterrupted. */
  lemma DispatchMeans(s: State, x: string)
    requires s.up && s.op.Checked? && (AnyBusy(s.tasks, s.op.task) ==> Busy(s.tasks, s.op.task, x))
    ensures var s' := Reach(s, [Operator(ListSiblings(x)), Operator(WriteGuarded)]);
            && s'.tasks == Gate(s.tasks, s.op.task, s.op.graph)
            && (s'.op.Spawning? <==> !AnyBusy(s.tasks, s.op.task) && Has(s.tasks, s.op.task, Pending))
  {
    GateMeans(s, x);
    assert Busy(s.tasks, s.op.task, x) ==> AnyBusy(s.tasks, s.op.task);
  }

  lemma RetryMeans(s: State, x: string)
    requires s.up && s.op.RetryChecked?
    ensures var s' := Reach(s, [Operator(ListSiblings(x)), Operator(WriteGuarded)]);
            && s'.tasks == GateRetry(s.tasks, s.op.task, s.op.graph)
            && (s'.op.Spawning? <==> !AnyBusy(s.tasks, s.op.task) && Has(s.tasks, s.op.task, Failed))
  {
    GateMeans(s, x);
  }

  function Siblings(tasks: Tasks, job: string): set<string> {
    set t | t in tasks && tasks[t].job == job
  }

  function AddLast(tasks: Tasks, id: string, job: string, now: int): Tasks {
    Create(tasks, id, job, Rank(|Siblings(tasks, job)|, now))
  }

  /** The sort orders of the job's tasks stay below their number. */
  ghost predicate Numbered(tasks: Tasks, job: string) {
    forall t :: t in Siblings(tasks, job) ==> tasks[t].rank.sort < |Siblings(tasks, job)|
  }

  /** Every other task of the job is ahead. */
  ghost predicate Last(tasks: Tasks, id: string, job: string) {
    id in tasks && forall u :: u in Siblings(tasks, job) && u != id ==> Before(tasks[u].rank, tasks[id].rank)
  }

  lemma AddedLast(tasks: Tasks, id: string, job: string, now: int)
    requires id !in tasks && Numbered(tasks, job)
    ensures Numbered(AddLast(tasks, id, job, now), job) && Last(AddLast(tasks, id, job, now), id, job)
  {
    assert Siblings(AddLast(tasks, id, job, now), job) == Siblings(tasks, job) + {id};
  }

  /** In a job whose tasks all came from createTask the new one comes last, whatever the gate
      then does to it, and so does the next. */
  lemma ComesLast(tasks: Tasks, id: string, job: string, now: int, graph: string)
    requires id !in tasks && Numbered(tasks, job)
    ensures var b := Gate(AddLast(tasks, id, job, now), id, graph); Numbered(b, job) && Last(b, id, job)
  {
    var a := AddLast(tasks, id, job, now);
    AddedLast(tasks, id, job, now);
    assert Siblings(Gate(a, id, graph), job) == Siblings(a, job);
  }

  predicate JobBusy(tasks: Tasks, job: string) {
    exists t :: t in tasks && Has(tasks, t, InProgress) && tasks[t].job == job
  }

  /** To a waiting task every busy task of its job is a sibling. */
  lemma BusySibling(tasks: Tasks, id: string, job: string)
    requires Has(tasks, id, Pending) && tasks[id].job == job
    ensures AnyBusy(tasks, id) <==> JobBusy(tasks, job)
  {
    if JobBusy(tasks, job) {
      var t :| t in tasks && Has(tasks, t, InProgress) && tasks[t].job == job;
      assert Busy(tasks, id, t);
    }
  }

  /** The first task with a graph in the ordered list is the first of all. */
  lemma FirstInOrder(tasks: Tasks, job: string, ready: seq<string>, i: nat)
    requires i < |ready| && InOrder(tasks, ready) && Graphed(tasks, ready[i], job)
    requires forall id :: id in ready <==> id in tasks && ReadyIn(tasks, id, job)
    requires forall j :: 0 <= j < i ==> tasks[ready[j]].graph == ""
    ensures FirstGraphed(tasks, ready[i], job)
  {
    forall u | u in tasks && Graphed(tasks, u, job) ensures !Before(tasks[u].rank, tasks[ready[i]].rank) {
      assert u in ready;
    }
  }

  predicate Terminal(status: Status) {
    status == Completed || status == Failed || status == Cancelled
  }

  class SystemTools {
    const store: Store
    var dispatched: seq<(string, string)>

    constructor (store: Store)
      ensures this.store == store && dispatched == []
    {
      this.store := store;
      dispatched := [];
    }

    /** Looks through the job's tasks for another one in progress. */
    method FindBusy(id: string) returns (found: bool, sibling: string)
      requires id in store.tasks
      ensures found == AnyBusy(store.tasks, id)
      ensures found ==> Busy(store.tasks, id, sibling)
    {
      var rest := store.tasks.Keys;
      while rest != {}
        invariant rest <= store.tasks.Keys
        invariant forall t :: t in store.tasks && t !in rest ==> !Busy(store.tasks, id, t)
        decreases rest
      {
        var t :| t in rest;
        if t != id && store.tasks[t].status == InProgress && store.tasks[t].job == store.tasks[id].job {
          return true, t;
        }
        rest := rest - {t};
      }
      return false, "";
    }

    /** Dispatches through the serial gate. */
    method DispatchGraphTask(id: string, graph: string, s: Surroundings) returns (reply: Reply)
      requires id in store.tasks
      modifies this`dispatched, store`tasks
      ensures !s.graphKnown ==> reply == Refused && store.tasks == old(store.tasks)
      ensures s.graphKnown ==> store.tasks == Gate(old(store.tasks), id, graph)
      ensures reply == Started <==>
                s.graphKnown && !AnyBusy(old(store.tasks), id) && Has(old(store.tasks), id, Pending)
      ensures reply.Queued? <==> s.graphKnown && AnyBusy(old(store.tasks), id) && Has(old(store.tasks), id, Pending)
      ensures reply.Queued? ==> Busy(old(store.tasks), id, reply.behind)
      ensures reply.Started? || reply.Queued? || reply.Refused?
      ensures reply == Refused ==> store.tasks == old(store.tasks)
      ensures dispatched == old(dispatched) + if reply == Started then [(id, graph)] else []
      ensures Serial(old(store.tasks)) ==> Serial(store.tasks)
    {
      if Serial(store.tasks) {
        GateSerial(store.tasks, id, graph);
      }
      if !s.graphKnown {
        return Refused;
      }
      var busy, sibling := FindBusy(id);
      var ok: bool;
      if busy {
        ok := store.PreAssignTaskGraph(id, graph);
        return if ok then Queued(sibling) else Refused;
      }
      ok := store.AssignTaskToGraph(id, graph);
      if !ok {
        return Refused;
      }
      dispatched := dispatched + [(id, graph)];
      return Started;
    }

    /** Adds a pending task to a job that is not finished, with the number of its siblings as the
        sort order; with a graph it dispatches at once. */
    method CreateTask(id: string, job: string, graph: string, now: int, s: Surroundings) returns (reply: Reply)
      requires id !in store.tasks
      modifies this`dispatched, store`tasks
      ensures s.jobFinished || (graph != "" && !s.graphKnown) ==> reply == Refused && store.tasks == old(store.tasks)
      ensures !s.jobFinished && graph == "" ==>
                reply == Created && store.tasks == AddLast(old(store.tasks), id, job, now)
      ensures !s.jobFinished && graph != "" && s.graphKnown ==>
                && (reply.Started? || reply.Queued?)
                && store.tasks == Gate(AddLast(old(store.tasks), id, job, now), id, graph)
      ensures dispatched == old(dispatched) + if reply == Started then [(id, graph)] else []
      ensures Serial(old(store.tasks)) ==> Serial(store.tasks)
    {
      if s.jobFinished || (graph != "" && !s.graphKnown) {
        return Refused;
      }
      var siblings := set t | t in store.tasks && store.tasks[t].job == job;
      var ok := store.CreateTask(id, job, Rank(|siblings|, now));
      if graph == "" {
        return Created;
      }
      reply := DispatchGraphTask(id, graph, s);
    }

    /** Dispatches a task that is still pending. */
    method AssignTask(id: string, graph: string, s: Surroundings) returns (reply: Reply)
      modifies this`dispatched, store`tasks
      ensures reply == Started <==>
                && graph != "" && Has(old(store.tasks), id, Pending) && !s.jobFinished && s.graphKnown
                && !AnyBusy(old(store.tasks), id)
      ensures reply.Queued? <==>
                && graph != "" && Has(old(store.tasks), id, Pending) && !s.jobFinished && s.graphKnown
                && AnyBusy(old(store.tasks), id)
      ensures reply.Started? || reply.Queued? || reply.Refused?
      ensures store.tasks ==
                if reply.Started? || reply.Queued? then Gate(old(store.tasks), id, graph) else old(store.tasks)
      ensures dispatched == old(dispatched) + if reply == Started then [(id, graph)] else []
      ensures Serial(old(store.tasks)) ==> Serial(store.tasks)
    {
      if graph == "" || id !in store.tasks {
        return Refused;
      }
      if store.tasks[id].status != Pending || s.jobFinished {
        return Refused;
      }
      reply := DispatchGraphTask(id, graph, s);
    }

    /** Puts a failed task back in progress, unless a sibling runs; the graph defaults to the
        one it failed on. */
    method RetryTask(id: string, graph: string, s: Surroundings) returns (reply: Reply)
      modifies this`dispatched, store`tasks
      ensures reply == Started <==>
                && Has(old(store.tasks), id, Failed) && (graph != "" || old(store.tasks)[id].graph != "")
                && s.graphKnown && !AnyBusy(old(store.tasks), id)
      ensures reply == Started ==>
                var g := if graph == "" then old(store.tasks)[id].graph else graph;
                && store.tasks == GateRetry(old(store.tasks), id, g)
                && dispatched == old(dispatched) + [(id, g)]
      ensures reply != Started ==> store.tasks == old(store.tasks) && dispatched == old(dispatched)
      ensures Serial(old(store.tasks)) ==> Serial(store.tasks)
    {
      if id !in store.tasks || store.tasks[id].status != Failed {
        return Refused;
      }
      var g := if graph == "" then store.tasks[id].graph else graph;
      if g == "" || !s.graphKnown {
        return Refused;
      }
      if Serial(store.tasks) {
        GateSerial(store.tasks, id, g);
      }
      var busy, sibling := FindBusy(id);
      if busy {
        return Nothing;
      }
      var ok := store.RetryTask(id, g);
      dispatched := dispatched + [(id, g)];
      return Started;
    }

    /** The mechanical advance: the first ready task that has a graph, if there is one, starts
        unless the job is busy. */
    method AssignNextTask(job: string, s: Surroundings) returns (reply: Reply)
      modifies this`dispatched, store`tasks
      ensures reply == Nothing <==> !AnyGraphed(old(store.tasks), job)
      ensures reply == Refused <==> AnyGraphed(old(store.tasks), job) && (s.jobFinished || !s.graphKnown)
      ensures reply == Started <==>
                && AnyGraphed(old(store.tasks), job) && !s.jobFinished && s.graphKnown
                && !JobBusy(old(store.tasks), job)
      ensures reply.Queued? <==>
                && AnyGraphed(old(store.tasks), job) && !s.jobFinished && s.graphKnown
                && JobBusy(old(store.tasks), job)
      ensures reply == Started ==>
                exists t :: t in old(store.tasks) && FirstGraphed(old(store.tasks), t, job)
                            && store.tasks == Assign(old(store.tasks), t, old(store.tasks)[t].graph)
                            && dispatched == old(dispatched) + [(t, old(store.tasks)[t].graph)]
      ensures reply != Started ==> store.tasks == old(store.tasks) && dispatched == old(dispatched)
      ensures Serial(old(store.tasks)) ==> Serial(store.tasks)
    {
      var ready := store.GetReadyTasks(job);
      for i := 0 to |ready|
        invariant store.tasks == old(store.tasks) && dispatched == old(dispatched)
        invariant forall j :: 0 <= j < i ==> store.tasks[ready[j]].graph == ""
      {
        var t := ready[i];
        if store.tasks[t].graph != "" {
          var g := store.tasks[t].graph;
          assert Graphed(store.tasks, t, job);
          FirstInOrder(store.tasks, job, ready, i);
          BusySibling(store.tasks, t, job);
          reply := AssignTask(t, g, s);
          if reply.Queued? {
            assert PreAssign(old(store.tasks), t, g) == old(store.tasks);
          }
          return;
        }
      }
      assert forall t :: t in store.tasks && Graphed(store.tasks, t, job) ==> t in ready;
      return Nothing;
    }

    /** Whether the job has tasks and all of them are in a terminal status. */
    method CheckJobComplete(job: string) returns (done: bool)
      ensures done <==>
                && (exists t :: t in store.tasks && store.tasks[t].job == job)
                && forall t :: t in store.tasks && store.tasks[t].job == job ==> Terminal(store.tasks[t].status)
    {
      var rest := set t | t in store.tasks && store.tasks[t].job == job;
      if rest == {} {
        assert forall t :: t in store.tasks && store.tasks[t].job == job ==> t in rest;
        return false;
      }
      ghost var some :| some in rest;
      while rest != {}
        invariant rest <= store.tasks.Keys
        invariant forall t ::
                    t in store.tasks && store.tasks[t].job == job && t !in rest ==> Terminal(store.tasks[t].status)
        invariant forall t :: t in rest ==> store.tasks[t].job == job
        decreases rest
      {
        var t :| t in rest;
        if !Terminal(store.tasks[t].status) {
          return false;
        }
        rest := rest - {t};
      }
      return true;
    }
  }
}
