/** Task rows, dependency edges and checkpoints, with the guarded updates of the store. */
module TaskStore {

  datatype Status = Pending | InProgress | Completed | Failed | Blocked | Cancelled

  /** What the store orders tasks by: the sort order they were given, then the time at which
      they were created. */
  datatype Rank = Rank(sort: int, created: int)

  /** An empty graph means that none has been chosen yet. */
  datatype Task = Task(job: string, status: Status, graph: string, deps: set<string>, rank: Rank)

  type Tasks = map<string, Task>

  datatype Checkpoint = Checkpoint(node: string, data: string)

  type Checkpoints = map<string, Checkpoint>

  datatype SessionStatus = SessionActive | SessionCompleted | SessionFailed | SessionCancelled

  predicate Has(tasks: Tasks, id: string, status: Status) {
    id in tasks && tasks[id].status == status
  }

  predicate Before(a: Rank, b: Rank) {
    a.sort < b.sort || (a.sort == b.sort && a.created < b.created)
  }

  predicate DepsDone(tasks: Tasks, id: string)
    requires id in tasks
  {
    forall d :: d in tasks[id].deps && d in tasks ==> tasks[d].status == Completed
  }

  predicate Ready(tasks: Tasks, id: string) {
    Has(tasks, id, Pending) && DepsDone(tasks, id)
  }

  predicate ReadyIn(tasks: Tasks, id: string, job: string) {
    Ready(tasks, id) && tasks[id].job == job
  }

  predicate AnyReady(tasks: Tasks, job: string) {
    exists id :: id in tasks && ReadyIn(tasks, id, job)
  }

  /** Another task of the same job is in progress. */
  predicate Busy(tasks: Tasks, id: string, other: string) {
    id in tasks && other != id && Has(tasks, other, InProgress) && tasks[other].job == tasks[id].job
  }

  predicate AnyBusy(tasks: Tasks, id: string) {
    exists other :: other in tasks && Busy(tasks, id, other)
  }

  ghost predicate InOrder(tasks: Tasks, ids: seq<string>) {
    && (forall i :: 0 <= i < |ids| ==> ids[i] in tasks)
    && forall i, j :: 0 <= i < j < |ids| ==> !Before(tasks[ids[j]].rank, tasks[ids[i]].rank)
  }

  // ---------------------------------------------------------------- what each update does

  function Assign(tasks: Tasks, id: string, graph: string): Tasks {
    if Has(tasks, id, Pending) then tasks[id := tasks[id].(graph := graph, status := InProgress)] else tasks
  }

  function PreAssign(tasks: Tasks, id: string, graph: string): Tasks {
    if Has(tasks, id, Pending) then tasks[id := tasks[id].(graph := graph)] else tasks
  }

  function Retry(tasks: Tasks, id: string, graph: string): Tasks {
    if Has(tasks, id, Failed) then tasks[id := tasks[id].(graph := graph, status := InProgress)] else tasks
  }

  function SetStatus(tasks: Tasks, id: string, status: Status): Tasks {
    if id in tasks then tasks[id := tasks[id].(status := status)] else tasks
  }

  function Create(tasks: Tasks, id: string, job: string, rank: Rank): Tasks {
    if id in tasks then tasks else tasks[id := Task(job, Pending, "", {}, rank)]
  }

  function Depend(tasks: Tasks, id: string, on: string): Tasks {
    if id in tasks && on in tasks then tasks[id := tasks[id].(deps := tasks[id].deps + {on})] else tasks
  }

  function Requeued(t: Task): Task {
    if t.status == InProgress then t.(status := Pending) else t
  }

  function Reconcile(tasks: Tasks): Tasks {
    map id | id in tasks :: Requeued(tasks[id])
  }

  // ---------------------------------------------------------------- the store

  /** The tables. Every method is one SQL statement, so it is one step for its callers; the
      out-parameter is false when the statement matched no row or broke a constraint. */
  class Store {
    var tasks: Tasks
    var checkpoints: Checkpoints
    var sessions: map<string, SessionStatus>

    constructor ()
      ensures tasks == map[] && checkpoints == map[] && sessions == map[]
    {
      tasks, checkpoints, sessions := map[], map[], map[];
    }

    method CreateSession(id: string, status: SessionStatus) returns (ok: bool)
      modifies this`sessions
      ensures ok == (id !in old(sessions))
      ensures sessions == if ok then old(sessions)[id := status] else old(sessions)
    {
      ok := id !in sessions;
      if ok {
        sessions := sessions[id := status];
      }
    }

    method CreateTask(id: string, job: string, rank: Rank) returns (ok: bool)
      modifies this`tasks
      ensures ok == (id !in old(tasks))
      ensures tasks == Create(old(tasks), id, job, rank)
    {
      ok := id !in tasks;
      if ok {
        tasks := tasks[id := Task(job, Pending, "", {}, rank)];
      }
    }

    method AddTaskDependency(id: string, on: string) returns (ok: bool)
      modifies this`tasks
      ensures ok == (id in old(tasks) && on in old(tasks) && on !in old(tasks)[id].deps)
      ensures tasks == Depend(old(tasks), id, on)
    {
      ok := id in tasks && on in tasks && on !in tasks[id].deps;
      if ok {
        tasks := tasks[id := tasks[id].(deps := tasks[id].deps + {on})];
      } else if id in tasks && on in tasks {
        assert tasks[id].deps + {on} == tasks[id].deps;
      }
    }

    method AssignTaskToGraph(id: string, graph: string) returns (ok: bool)
      modifies this`tasks
      ensures ok == Has(old(tasks), id, Pending)
      ensures tasks == Assign(old(tasks), id, graph)
    {
      ok := id in tasks && tasks[id].status == Pending;
      if ok {
        tasks := tasks[id := tasks[id].(graph := graph, status := InProgress)];
      }
    }

    method PreAssignTaskGraph(id: string, graph: string) returns (ok: bool)
      modifies this`tasks
      ensures ok == Has(old(tasks), id, Pending)
      ensures tasks == PreAssign(old(tasks), id, graph)
    {
      ok := id in tasks && tasks[id].status == Pending;
      if ok {
        tasks := tasks[id := tasks[id].(graph := graph)];
      }
    }

    method RetryTask(id: string, graph: string) returns (ok: bool)
      modifies this`tasks
      ensures ok == Has(old(tasks), id, Failed)
      ensures tasks == Retry(old(tasks), id, graph)
    {
      ok := id in tasks && tasks[id].status == Failed;
      if ok {
        tasks := tasks[id := tasks[id].(graph := graph, status := InProgress)];
      }
    }

    method UpdateTaskStatus(id: string, status: Status) returns (ok: bool)
      modifies this`tasks
      ensures ok == (id in old(tasks))
      ensures tasks == SetStatus(old(tasks), id, status)
    {
      ok := id in tasks;
      if ok {
        tasks := tasks[id := tasks[id].(status := status)];
      }
    }

    /** After it nothing is left over from an earlier process: no session is active and no task
        in progress. */
    method ReconcileInterrupted() returns (failed: nat, requeued: nat)
      modifies this`tasks, this`sessions
      ensures tasks == Reconcile(old(tasks)) && sessions.Keys == old(sessions).Keys
      ensures forall id :: id in sessions ==>
                sessions[id] == if old(sessions)[id] == SessionActive then SessionFailed else old(sessions)[id]
      ensures failed == |set id | id in old(sessions) && old(sessions)[id] == SessionActive|
      ensures requeued == |set id | id in old(tasks) && old(tasks)[id].status == InProgress|
    {
      failed := |set id | id in sessions && sessions[id] == SessionActive|;
      sessions := map id | id in sessions :: if sessions[id] == SessionActive then SessionFailed else sessions[id];
      requeued := |set id | id in tasks && tasks[id].status == InProgress|;
      tasks := map id | id in tasks ::
        if tasks[id].status == InProgress then tasks[id].(status := Pending) else tasks[id];
    }

    /** The job's pending tasks without an uncompleted dependency, by rank; tasks of equal rank
        come in any order. */
    method GetReadyTasks(job: string) returns (ready: seq<string>)
      ensures forall id :: id in ready <==> id in tasks && ReadyIn(tasks, id, job)
      ensures forall i, j :: 0 <= i < j < |ready| ==> ready[i] != ready[j]
      ensures InOrder(tasks, ready)
    {
      var rest := set id |
        id in tasks && tasks[id].job == job && tasks[id].status == Pending
        && !exists dep :: dep in tasks[id].deps && dep in tasks && tasks[dep].status != Completed;
      ready := [];
      while rest != {}
        invariant forall id :: id in rest || id in ready <==> id in tasks && ReadyIn(tasks, id, job)
        invariant forall id :: id in ready ==> id !in rest
        invariant forall i, j :: 0 <= i < j < |ready| ==> ready[i] != ready[j]
        invariant InOrder(tasks, ready)
        invariant forall i, id :: 0 <= i < |ready| && id in rest ==> !Before(tasks[id].rank, tasks[ready[i]].rank)
        decreases rest
      {
        var first := FindFirst(rest);
        ready := ready + [first];
        rest := rest - {first};
      }
    }

    /** A task of the lowest rank. */
    method FindFirst(ids: set<string>) returns (first: string)
      requires ids != {} && ids <= tasks.Keys
      ensures first in ids && forall id :: id in ids ==> !Before(tasks[id].rank, tasks[first].rank)
    {
      first :| first in ids;
      var rest := ids - {first};
      while rest != {}
        invariant first in ids && rest <= ids
        invariant forall id :: id in ids && id !in rest ==> !Before(tasks[id].rank, tasks[first].rank)
        decreases rest
      {
        var id :| id in rest;
        if Before(tasks[id].rank, tasks[first].rank) {
          first := id;
        }
        rest := rest - {id};
      }
    }

    method SaveCheckpoint(thread: string, c: Checkpoint)
      modifies this`checkpoints
      ensures checkpoints == old(checkpoints)[thread := c]
    {
      checkpoints := checkpoints[thread := c];
    }

    method LoadCheckpoint(thread: string) returns (found: bool, c: Checkpoint)
      ensures found == (thread in checkpoints)
      ensures found ==> c == checkpoints[thread]
    {
      found := thread in checkpoints;
      c := if found then checkpoints[thread] else Checkpoint("", "");
    }

    method DeleteCheckpoint(thread: string)
      modifies this`checkpoints
      ensures checkpoints == old(checkpoints) - {thread}
    {
      checkpoints := checkpoints - {thread};
    }
  }
}
