/** Compiling a validated definition into wires and routers, running it node by node, and
    running it to the same end through any number of crashes. */
module GraphRun {
  import opened Json
  import opened GraphDefinition

  /** A destination after the "end" sentinel has been resolved. */
  datatype Dest = NodeDest(id: string) | End

  datatype TaskState = TaskState(
    outputs: map<string, Raw>, artifacts: map<string, Value>, finalText: string, status: string)

  function ResolveDest(dst: string): Dest {
    if dst == END_NODE then End else NodeDest(dst)
  }

  function NodeOutput(s: TaskState, node: string): Raw {
    if node in s.outputs then s.outputs[node] else Empty
  }

  // ---------------------------------------------------------------- routers

  datatype CompiledRouter = CompiledRouter(
    source: string, field: string, canonical: seq<Branch>, otherwise: Option<Dest>, dests: seq<Dest>)

  /** The branch that decides: the first whose value is the field's value. */
  predicate Decides(r: Router, v: Value, k: nat) {
    && k < |r.branches| && r.branches[k].when == v
    && forall j :: 0 <= j < k ==> r.branches[j].when != v
  }

  predicate Unmatched(r: Router, v: Value) {
    forall j :: 0 <= j < |r.branches| ==> r.branches[j].when != v
  }

  /** Where a router sends a state: the deciding branch, else the default, else an error. */
  ghost predicate Routes(r: Router, v: Option<Value>, dest: Option<Dest>) {
    && (v.None? ==> dest == None)
    && (v.Some? ==>
          && (forall k: nat :: Decides(r, v.value, k) ==> dest == Some(ResolveDest(r.branches[k].to)))
          && (Unmatched(r, v.value) ==> dest == if r.otherwise == "" then None else Some(ResolveDest(r.otherwise))))
  }

  predicate Declares(r: Router, dest: Dest) {
    || (exists j :: 0 <= j < |r.branches| && dest == ResolveDest(r.branches[j].to))
    || (r.otherwise != "" && dest == ResolveDest(r.otherwise))
  }

  predicate NoRepeats<T(==)>(s: seq<T>) {
    forall i, j :: 0 <= i < j < |s| ==> s[i] != s[j]
  }

  /** What compilation keeps of a router: its branches in order and each possible
      destination once. */
  ghost predicate CompiledFrom(c: CompiledRouter, r: Router) {
    && ParsePath(r.on) == Some(PathRef(c.source, c.field))
    && c.canonical == r.branches
    && c.otherwise == (if r.otherwise == "" then None else Some(ResolveDest(r.otherwise)))
    && NoRepeats(c.dests)
    && forall dest: Dest :: dest in c.dests <==> Declares(r, dest)
  }

  method BuildRouter(r: Router) returns (result: Option<CompiledRouter>)
    ensures result.Some? == ParsePath(r.on).Some?
    ensures result.Some? ==> CompiledFrom(result.value, r)
  {
    var path := ParsePath(r.on);
    if path.None? {
      return None;
    }
    var canonical: seq<Branch> := [];
    var seen: set<Dest> := {};
    var dests: seq<Dest> := [];
    for j := 0 to |r.branches|
      invariant canonical == r.branches[..j]
      invariant NoRepeats(dests)
      invariant forall dest: Dest :: dest in seen <==> dest in dests
      invariant forall i :: 0 <= i < j ==> ResolveDest(r.branches[i].to) in seen
      invariant forall dest: Dest :: dest in seen ==> exists i :: 0 <= i < j && dest == ResolveDest(r.branches[i].to)
    {
      canonical := canonical + [r.branches[j]];
      var dest := ResolveDest(r.branches[j].to);
      if dest !in seen {
        seen := seen + {dest};
        dests := dests + [dest];
      }
    }
    var otherwise := None;
    if r.otherwise != "" {
      var dest := ResolveDest(r.otherwise);
      otherwise := Some(dest);
      if dest !in seen {
        seen := seen + {dest};
        dests := dests + [dest];
      }
    }
    return Some(CompiledRouter(path.value.node, path.value.field, canonical, otherwise, dests));
  }

  /** What a compiled router returns, as a function of the state. */
  function Route(c: CompiledRouter, s: TaskState): Option<Dest> {
    var v := Field(NodeOutput(s, c.source), c.field);
    if v.None? then None else Match(c.canonical, c.otherwise, v.value)
  }

  function Match(branches: seq<Branch>, otherwise: Option<Dest>, v: Value): Option<Dest> {
    if branches == [] then otherwise
    else if branches[0].when == v then Some(ResolveDest(branches[0].to))
    else Match(branches[1..], otherwise, v)
  }

  /** The router closure. */
  method RunRouter(c: CompiledRouter, s: TaskState) returns (dest: Option<Dest>)
    ensures dest == Route(c, s)
  {
    var raw := NodeOutput(s, c.source);
    if raw == Empty {
      return None;
    }
    var v := ExtractField(raw, c.field);
    if v.None? {
      return None;
    }
    for i := 0 to |c.canonical|
      invariant Match(c.canonical, c.otherwise, v.value) == Match(c.canonical[i..], c.otherwise, v.value)
    {
      if c.canonical[i].when == v.value {
        return Some(ResolveDest(c.canonical[i].to));
      }
    }
    return c.otherwise;
  }

  lemma {:induction false} MatchFirst(branches: seq<Branch>, otherwise: Option<Dest>, v: Value, k: nat)
    requires k <= |branches| && forall j :: 0 <= j < k ==> branches[j].when != v
    requires k < |branches| ==> branches[k].when == v
    ensures Match(branches, otherwise, v) == if k == |branches| then otherwise else Some(ResolveDest(branches[k].to))
  {
    if k > 0 {
      assert branches[1..][..k - 1] == branches[1..k];
      MatchFirst(branches[1..], otherwise, v, k - 1);
    }
  }

  lemma FirstMatch(branches: seq<Branch>, v: Value) returns (k: nat)
    ensures k <= |branches| && forall j :: 0 <= j < k ==> branches[j].when != v
    ensures k < |branches| ==> branches[k].when == v
  {
    k := 0;
    while k < |branches| && branches[k].when != v
      invariant k <= |branches| && forall j :: 0 <= j < k ==> branches[j].when != v
    {
      k := k + 1;
    }
  }

  /** A compiled router takes the first branch equal to the value, else the default, and
      never leaves the destinations it declared. */
  lemma RouterMeaning(c: CompiledRouter, r: Router, s: TaskState)
    requires CompiledFrom(c, r)
    ensures Routes(r, Field(NodeOutput(s, c.source), c.field), Route(c, s))
    ensures Route(c, s).Some? ==> Route(c, s).value in c.dests
  {
    var v := Field(NodeOutput(s, c.source), c.field);
    if v.Some? {
      var k := FirstMatch(c.canonical, v.value);
      MatchFirst(c.canonical, c.otherwise, v.value, k);
      forall j: nat | Decides(r, v.value, j) ensures j == k {
        assert j < |c.canonical| && c.canonical[j].when == v.value;
      }
      if k < |c.canonical| {
        assert Declares(r, ResolveDest(r.branches[k].to));
      } else if r.otherwise != "" {
        assert Declares(r, ResolveDest(r.otherwise));
      }
    }
  }

  // ---------------------------------------------------------------- wiring

  datatype Wire = Plain(from: string, to: Dest) | Conditional(from: string, router: CompiledRouter)

  datatype Graph = Graph(entry: string, wires: seq<Wire>)

  ghost predicate Wired(e: Edge, w: Wire) {
    && w.from == e.from
    && match e.router {
         case None => w == Plain(e.from, ResolveDest(e.to))
         case Some(r) => w.Conditional? && CompiledFrom(w.router, r)
       }
  }

  predicate Leaves(edges: seq<Edge>, node: string) {
    exists i :: 0 <= i < |edges| && edges[i].from == node
  }

  /** An exit node without an edge of its own is wired to End. */
  predicate DefaultExit(d: Definition) {
    d.exit != "" && !Leaves(d.edges, d.exit)
  }

  /** Subgraph nodes are refused. */
  predicate Supported(n: Node) {
    n.fanout.Some? || n.graph == ""
  }

  ghost predicate Compiled(d: Definition, g: Graph) {
    && g.entry == d.entry
    && |g.wires| == |d.edges| + (if DefaultExit(d) then 1 else 0)
    && (forall i :: 0 <= i < |d.edges| ==> Wired(d.edges[i], g.wires[i]))
    && (DefaultExit(d) ==> g.wires[|d.edges|] == Plain(d.exit, End))
  }

  method EdgesFromNode(d: Definition, node: string) returns (found: bool)
    ensures found == Leaves(d.edges, node)
  {
    for i := 0 to |d.edges|
      invariant forall j :: 0 <= j < i ==> d.edges[j].from != node
    {
      if d.edges[i].from == node {
        return true;
      }
    }
    return false;
  }

  method BuildWire(e: Edge) returns (w: Wire)
    requires e.router.Some? ==> ParsePath(e.router.value.on).Some?
    ensures Wired(e, w)
  {
    if e.router.None? {
      w := Plain(e.from, ResolveDest(e.to));
    } else {
      var router := BuildRouter(e.router.value);
      w := Conditional(e.from, router.value);
    }
  }

  /** Builds every node; a subgraph cannot be built. */
  method BuildNodes(d: Definition, builds: Node -> bool) returns (ok: bool)
    ensures ok <==> forall i :: 0 <= i < |d.nodes| ==> Supported(d.nodes[i]) && builds(d.nodes[i])
  {
    for i := 0 to |d.nodes|
      invariant forall j :: 0 <= j < i ==> Supported(d.nodes[j]) && builds(d.nodes[j])
    {
      if d.nodes[i].fanout.None? && d.nodes[i].graph != "" {
        return false;
      }
      if !builds(d.nodes[i]) {
        return false;
      }
    }
    return true;
  }

  /** Compilation succeeds exactly on the valid definitions without subgraphs whose nodes can
      be built, whose routers read declared output and whose nodes and edges the graph builder
      takes; roles decide the first two, the builder the last. */
  method Compile(d: Definition, builds: Node -> bool, declared: Edge -> bool, takes: Definition -> bool)
    returns (result: Option<Graph>)
    ensures result.Some? <==>
              && ValidDefinition(d)
              && (forall i :: 0 <= i < |d.nodes| ==> Supported(d.nodes[i]) && builds(d.nodes[i]))
              && (forall i :: 0 <= i < |d.edges| && d.edges[i].router.Some? ==> declared(d.edges[i]))
              && takes(d)
    ensures result.Some? ==> Compiled(d, result.value)
  {
    var valid := Validate(d);
    if !valid {
      return None;
    }
    var built := BuildNodes(d, builds);
    if !built {
      return None;
    }
    var wires: seq<Wire> := [];
    for i := 0 to |d.edges|
      invariant |wires| == i && forall j :: 0 <= j < i ==> Wired(d.edges[j], wires[j])
      invariant forall j :: 0 <= j < i && d.edges[j].router.Some? ==> declared(d.edges[j])
    {
      if d.edges[i].router.Some? && !declared(d.edges[i]) {
        return None;
      }
      assert ValidEdge(d, d.edges[i]);
      var w := BuildWire(d.edges[i]);
      wires := wires + [w];
    }
    if d.exit != "" {
      var wired := EdgesFromNode(d, d.exit);
      if !wired {
        wires := wires + [Plain(d.exit, End)];
      }
    }
    if !takes(d) {
      return None;
    }
    return Some(Graph(d.entry, wires));
  }

  // ---------------------------------------------------------------- one run

  type Body = (string, TaskState) -> Option<TaskState>

  /** Where a run is: about to run a node, at End, or stopped by an error. */
  datatype Config = At(node: string, state: TaskState) | Finished(state: TaskState) | Errored

  function WireOf(wires: seq<Wire>, node: string): (w: Option<Wire>)
    ensures w.Some? ==> w.value in wires && w.value.from == node
  {
    if wires == [] then None
    else if wires[0].from == node then Some(wires[0])
    else WireOf(wires[1..], node)
  }

  function Enter(dest: Dest, s: TaskState): Config {
    match dest
    case NodeDest(id) => At(id, s)
    case End => Finished(s)
  }

  function Along(w: Wire, s: TaskState): Config {
    match w
    case Plain(_, to) => Enter(to, s)
    case Conditional(_, router) =>
      var dest := Route(router, s);
      if dest.None? then Errored else Enter(dest.value, s)
  }

  /** The configuration after the node has completed with this state. */
  function Follow(g: Graph, node: string, s: TaskState): Config {
    match WireOf(g.wires, node)
    case None => Errored
    case Some(w) => Along(w, s)
  }

  function Step(g: Graph, body: Body, c: Config): Config {
    if !c.At? then c
    else
      match body(c.node, c.state)
      case None => Errored
      case Some(s) => Follow(g, c.node, s)
  }

  function Steps(g: Graph, body: Body, c: Config, k: nat): Config {
    if k == 0 then c else Step(g, body, Steps(g, body, c, k - 1))
  }

  predicate Declared(d: Definition, c: Config) {
    c.At? ==> c.node in Ids(d.nodes)
  }

  lemma AlongDeclared(d: Definition, e: Edge, w: Wire, s: TaskState)
    requires ValidEdge(d, e) && Wired(e, w)
    ensures Declared(d, Along(w, s))
  {
    if e.router.Some? {
      RouterMeaning(w.router, e.router.value, s);
    }
  }

  /** From a declared node every continuation is a declared node, End or an error. */
  lemma FollowDeclared(d: Definition, g: Graph, node: string, s: TaskState)
    requires ValidEdges(d) && Compiled(d, g)
    ensures Declared(d, Follow(g, node, s))
  {
    var w := WireOf(g.wires, node);
    if w.Some? {
      var i :| 0 <= i < |g.wires| && g.wires[i] == w.value;
      if i < |d.edges| {
        AlongDeclared(d, d.edges[i], g.wires[i], s);
      }
    }
  }

  /** Every run of an accepted definition moves only between declared nodes and End. */
  lemma {:induction false} RunStaysDeclared(d: Definition, g: Graph, body: Body, s: TaskState, k: nat)
    requires ValidDefinition(d) && Compiled(d, g)
    ensures Declared(d, Steps(g, body, At(g.entry, s), k))
  {
    if k > 0 {
      RunStaysDeclared(d, g, body, s, k - 1);
      var c := Steps(g, body, At(g.entry, s), k - 1);
      if c.At? && body(c.node, c.state).Some? {
        FollowDeclared(d, g, c.node, body(c.node, c.state).value);
      }
    }
  }

  lemma {:induction false} EndedStays(g: Graph, body: Body, c: Config, j: nat, k: nat)
    requires j <= k && !Steps(g, body, c, j).At?
    ensures Steps(g, body, c, k) == Steps(g, body, c, j)
  {
    if j < k {
      EndedStays(g, body, c, j, k - 1);
    }
  }

  /** A run ends in at most one way. */
  lemma OutcomeUnique(g: Graph, body: Body, c: Config, j: nat, k: nat)
    requires !Steps(g, body, c, j).At? && !Steps(g, body, c, k).At?
    ensures Steps(g, body, c, j) == Steps(g, body, c, k)
  {
    if j <= k {
      EndedStays(g, body, c, j, k);
    } else {
      EndedStays(g, body, c, k, j);
    }
  }

  // ---------------------------------------------------------------- a run cut by crashes

  datatype Checkpoint = Checkpoint(node: string, state: TaskState)

  /** Where the process is inside Execute; all of it is lost in a crash. */
  datatype Phase =
    | Idle
    | Running(at: Config)
    | Ran(node: string, state: TaskState)
    | Cleared(outcome: Config)

  /** The stored checkpoint and terminal status survive a crash. */
  datatype Life = Life(checkpoint: Option<Checkpoint>, phase: Phase, result: Option<Config>)

  datatype Action = Start | RunNode | SaveNode | DropCheckpoint | WriteStatus | Crash

  datatype Job = Job(graph: Graph, body: Body, initial: TaskState)

  function Begin(job: Job): Config {
    At(job.graph.entry, job.initial)
  }

  /** One step of Execute or a crash; a step whose turn it is not changes nothing. */
  function Next(job: Job, l: Life, a: Action): Life {
    match a
    case Start =>
      if l.phase != Idle || l.result.Some? then l
      else if l.checkpoint.Some? then
        l.(phase := Running(Follow(job.graph, l.checkpoint.value.node, l.checkpoint.value.state)))
      else l.(phase := Running(Begin(job)))
    case RunNode =>
      if !l.phase.Running? || !l.phase.at.At? then l
      else
        var c := l.phase.at;
        (match job.body(c.node, c.state)
         case None => l.(phase := Running(Errored))
         case Some(s) => l.(phase := Ran(c.node, s)))
    case SaveNode =>
      if !l.phase.Ran? then l
      else l.(checkpoint := Some(Checkpoint(l.phase.node, l.phase.state)),
              phase := Running(Follow(job.graph, l.phase.node, l.phase.state)))
    case DropCheckpoint =>
      if !l.phase.Running? || l.phase.at.At? then l
      else l.(checkpoint := None, phase := Cleared(l.phase.at))
    case WriteStatus =>
      if !l.phase.Cleared? then l else l.(result := Some(l.phase.outcome), phase := Idle)
    case Crash => l.(phase := Idle)
  }

  function Runs(job: Job, l: Life, actions: seq<Action>): Life
    decreases actions
  {
    if actions == [] then l else Runs(job, Next(job, l, actions[0]), actions[1..])
  }

  function NewLife(): Life {
    Life(None, Idle, None)
  }

  /** The uninterrupted run passes through this configuration. */
  ghost predicate Reached(job: Job, c: Config) {
    exists k: nat :: Steps(job.graph, job.body, Begin(job), k) == c
  }

  ghost predicate Completed(job: Job, node: string, s: TaskState) {
    exists before: TaskState :: Reached(job, At(node, before)) && job.body(node, before) == Some(s)
  }

  ghost predicate PhaseFaithful(job: Job, p: Phase) {
    match p
    case Idle => true
    case Running(c) => Reached(job, c)
    case Ran(node, s) => Completed(job, node, s)
    case Cleared(c) => Reached(job, c) && !c.At?
  }

  /** Everything stored or in progress lies on the uninterrupted run. */
  ghost predicate Faithful(job: Job, l: Life) {
    && PhaseFaithful(job, l.phase)
    && (l.checkpoint.Some? ==> Completed(job, l.checkpoint.value.node, l.checkpoint.value.state))
    && (l.result.Some? ==> Reached(job, l.result.value) && !l.result.value.At?)
  }

  lemma ReachedStep(job: Job, c: Config)
    requires Reached(job, c)
    ensures Reached(job, Step(job.graph, job.body, c))
  {
    var k: nat :| Steps(job.graph, job.body, Begin(job), k) == c;
    assert Steps(job.graph, job.body, Begin(job), k + 1) == Step(job.graph, job.body, c);
  }

  lemma CompletedFollows(job: Job, node: string, s: TaskState)
    requires Completed(job, node, s)
    ensures Reached(job, Follow(job.graph, node, s))
  {
    var before: TaskState :| Reached(job, At(node, before)) && job.body(node, before) == Some(s);
    ReachedStep(job, At(node, before));
  }

  lemma StepFaithful(job: Job, l: Life, a: Action)
    requires Faithful(job, l)
    ensures Faithful(job, Next(job, l, a))
  {
    match a
    case Start =>
      assert Steps(job.graph, job.body, Begin(job), 0) == Begin(job);
      if l.checkpoint.Some? {
        CompletedFollows(job, l.checkpoint.value.node, l.checkpoint.value.state);
      }
    case RunNode =>
      if l.phase.Running? && l.phase.at.At? {
        ReachedStep(job, l.phase.at);
      }
    case SaveNode =>
      if l.phase.Ran? {
        CompletedFollows(job, l.phase.node, l.phase.state);
      }
    case DropCheckpoint =>
    case WriteStatus =>
    case Crash =>
  }

  lemma {:induction false} RunsFaithful(job: Job, l: Life, actions: seq<Action>)
    requires Faithful(job, l)
    ensures Faithful(job, Runs(job, l, actions))
    decreases actions
  {
    if actions != [] {
      StepFaithful(job, l, actions[0]);
      RunsFaithful(job, Next(job, l, actions[0]), actions[1..]);
    }
  }

  /** Whatever the crashes, a result that is written is the one outcome of the uninterrupted
      run. */
  lemma CrashesKeepOutcome(job: Job, actions: seq<Action>, k: nat)
    requires !Steps(job.graph, job.body, Begin(job), k).At?
    ensures var l := Runs(job, NewLife(), actions);
            l.result.Some? ==> l.result.value == Steps(job.graph, job.body, Begin(job), k)
  {
    RunsFaithful(job, NewLife(), actions);
    var l := Runs(job, NewLife(), actions);
    if l.result.Some? {
      var j: nat :| Steps(job.graph, job.body, Begin(job), j) == l.result.value;
      OutcomeUnique(job.graph, job.body, Begin(job), j, k);
    }
  }

  /** A result is only ever written when the uninterrupted run has that outcome. */
  lemma ResultIsOutcome(job: Job, actions: seq<Action>)
    ensures var l := Runs(job, NewLife(), actions);
            l.result.Some? ==>
              !l.result.value.At? && exists k: nat :: Steps(job.graph, job.body, Begin(job), k) == l.result.value
  {
    RunsFaithful(job, NewLife(), actions);
  }

  // ---------------------------------------------------------------- what a crash costs

  function ResumePoint(job: Job, checkpoint: Option<Checkpoint>): Config {
    match checkpoint
    case None => Begin(job)
    case Some(c) => Follow(job.graph, c.node, c.state)
  }

  /** The stored checkpoint always stands exactly one node behind the execution. */
  predicate Anchored(job: Job, l: Life) {
    && (l.phase.Idle? || l.result.None?)
    && match l.phase {
         case Idle => true
         case Running(c) => c == ResumePoint(job, l.checkpoint) || c == Errored
         case Ran(node, s) =>
           var c := ResumePoint(job, l.checkpoint);
           c.At? && c.node == node && job.body(node, c.state) == Some(s)
         case Cleared(_) => l.checkpoint.None?
       }
  }

  lemma {:induction false} RunsAnchored(job: Job, l: Life, actions: seq<Action>)
    requires Anchored(job, l)
    ensures Anchored(job, Runs(job, l, actions))
    decreases actions
  {
    if actions != [] {
      assert Anchored(job, Next(job, l, actions[0]));
      RunsAnchored(job, Next(job, l, actions[0]), actions[1..]);
    }
  }

  /** A crash costs at most the node in flight: the next execution is back at the very same
      node with the very same state, and no completed node runs again. Only between dropping
      the checkpoint and writing the status does it cost the whole run. */
  lemma CrashCost(job: Job, actions: seq<Action>)
    ensures var l := Runs(job, NewLife(), actions);
            var again := Next(job, Next(job, l, Crash), Start);
            && (l.phase.Running? && l.phase.at.At? ==> again == l)
            && (l.phase.Ran? ==> Next(job, again, RunNode) == l)
            && (l.phase.Cleared? ==> again == Life(None, Running(Begin(job)), None))
  {
    RunsAnchored(job, NewLife(), actions);
  }

  // ---------------------------------------------------------------- and it does finish

  lemma {:induction false} RunsConcat(job: Job, l: Life, a: seq<Action>, b: seq<Action>)
    ensures Runs(job, l, a + b) == Runs(job, Runs(job, l, a), b)
    decreases a
  {
    if a == [] {
      assert a + b == b;
    } else {
      assert (a + b)[1..] == a[1..] + b;
      RunsConcat(job, Next(job, l, a[0]), a[1..], b);
    }
  }

  /** A running execution left alone for as many steps as its run still has writes the
      outcome. */
  lemma {:induction false} LeftAlone(job: Job, l: Life, k: nat) returns (actions: seq<Action>)
    requires l.phase.Running? && !Steps(job.graph, job.body, l.phase.at, k).At?
    ensures Crash !in actions
    ensures Runs(job, l, actions).result == Some(Steps(job.graph, job.body, l.phase.at, k))
    decreases k
  {
    var c := l.phase.at;
    if !c.At? {
      EndedStays(job.graph, job.body, c, 0, k);
      actions := [DropCheckpoint, WriteStatus];
      var dropped := Next(job, l, DropCheckpoint);
      assert Runs(job, l, actions) == Runs(job, dropped, [WriteStatus]);
    } else {
      StepsShift(job.graph, job.body, c, k - 1);
      var ran := Next(job, l, RunNode);
      if ran.phase.Running? {
        var rest := LeftAlone(job, ran, k - 1);
        actions := [RunNode] + rest;
      } else {
        var saved := Next(job, ran, SaveNode);
        var rest := LeftAlone(job, saved, k - 1);
        actions := [RunNode] + ([SaveNode] + rest);
        assert Runs(job, ran, [SaveNode] + rest) == Runs(job, saved, rest);
      }
    }
  }

  lemma {:induction false} StepsShift(g: Graph, body: Body, c: Config, k: nat)
    ensures Steps(g, body, c, k + 1) == Steps(g, body, Step(g, body, c), k)
  {
    if k > 0 {
      StepsShift(g, body, c, k - 1);
    }
  }

  lemma {:induction false} StepsAdd(g: Graph, body: Body, c: Config, j: nat, k: nat)
    ensures Steps(g, body, Steps(g, body, c, j), k) == Steps(g, body, c, j + k)
  {
    if k > 0 {
      StepsAdd(g, body, c, j, k - 1);
    }
  }

  /** The rest of an execution writes this outcome without another crash. */
  ghost predicate Ends(job: Job, l: Life, outcome: Config) {
    exists rest: seq<Action> :: Crash !in rest && Runs(job, l, rest).result == Some(outcome)
  }

  /** After any history of crashes, one more execution that is not cut reaches the outcome
      of the uninterrupted run, whenever that run has one. */
  lemma OneMoreExecution(job: Job, history: seq<Action>, k: nat)
    requires !Steps(job.graph, job.body, Begin(job), k).At?
    ensures Ends(job, Runs(job, NewLife(), history + [Crash]), Steps(job.graph, job.body, Begin(job), k))
  {
    var h := history + [Crash];
    var l := Runs(job, NewLife(), h);
    RunsConcat(job, NewLife(), history, [Crash]);
    assert l == Next(job, Runs(job, NewLife(), history), Crash);
    RunsFaithful(job, NewLife(), h);
    if l.result.Some? {
      CrashesKeepOutcome(job, h, k);
      assert Runs(job, l, []) == l;
    } else {
      var started := Next(job, l, Start);
      StepFaithful(job, l, Start);
      var j: nat :| Steps(job.graph, job.body, Begin(job), j) == started.phase.at;
      StepsAdd(job.graph, job.body, Begin(job), j, k);
      EndedStays(job.graph, job.body, Begin(job), k, j + k);
      var rest := LeftAlone(job, started, k);
      assert Runs(job, l, [Start] + rest) == Runs(job, started, rest);
    }
  }
}
