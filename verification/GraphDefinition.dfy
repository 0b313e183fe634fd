/** Declarative graphs: their shape, their validation and the router expressions. */
module GraphDefinition {
  import opened Json

  const END_NODE := "end"
  const REDUCE_COLLECT := "collect"
  const REDUCE_FIRST_SUCCESS := "first_success"
  const REDUCE_MAJORITY := "majority"
  const ON_ERROR_CONTINUE := "continue"
  const ON_ERROR_FAIL_FAST := "fail_fast"

  datatype FanoutBranch = FanoutBranch(role: string, temperature: Option<real>)

  datatype Reduce = Reduce(strategy: string, key: string, role: string)

  datatype Fanout = Fanout(
    count: int, branch: Option<FanoutBranch>, branches: seq<FanoutBranch>, reduce: Option<Reduce>,
    maxParallel: int, quorum: int, onError: string)

  datatype Node = Node(id: string, role: string, graph: string, fanout: Option<Fanout>)

  datatype Branch = Branch(when: Value, to: string)

  datatype Router = Router(on: string, branches: seq<Branch>, otherwise: string)

  datatype Edge = Edge(from: string, to: string, router: Option<Router>)

  datatype Definition = Definition(
    id: string, entry: string, exit: string, nodes: seq<Node>, edges: seq<Edge>, maxIterations: int)

  // ---------------------------------------------------------------- router expressions

  predicate Space(c: char) {
    c == ' ' || (9 <= c as int <= 13)
  }

  predicate Blank(s: string) {
    forall i :: 0 <= i < |s| ==> Space(s[i])
  }

  predicate WordChar(c: char) {
    'A' <= c <= 'Z' || 'a' <= c <= 'z' || '0' <= c <= '9' || c == '_' || c == '-'
  }

  predicate Word(s: string) {
    s != "" && forall i :: 0 <= i < |s| ==> WordChar(s[i])
  }

  predicate FieldPath(s: string) {
    s != "" && forall i :: 0 <= i < |s| ==> WordChar(s[i]) || s[i] == '.'
  }

  datatype PathRef = PathRef(node: string, field: string)

  function WordRun(s: string): (n: nat)
    ensures n <= |s| && (forall i :: 0 <= i < n ==> WordChar(s[i])) && (n < |s| ==> !WordChar(s[n]))
  {
    if s == "" || !WordChar(s[0]) then 0 else 1 + WordRun(s[1..])
  }

  /** $node.output.field */
  function ParsePath(expr: string): Option<PathRef> {
    if expr == "" || expr[0] != '$' then None
    else
      var n := WordRun(expr[1..]);
      var rest := expr[1 + n..];
      if n == 0 || !(".output." <= rest) || !FieldPath(rest[8..]) then None
      else Some(PathRef(expr[1..1 + n], rest[8..]))
  }

  function PathExpr(p: PathRef): string {
    "$" + p.node + ".output." + p.field
  }

  predicate ReadsAs(p: PathRef, expr: string) {
    Word(p.node) && FieldPath(p.field) && PathExpr(p) == expr
  }

  /** Parsing accepts exactly the expressions of the documented form, and each of them has
      one reading. */
  lemma ParsePathExact(expr: string)
    ensures ParsePath(expr).Some? ==> ReadsAs(ParsePath(expr).value, expr)
    ensures forall p: PathRef :: ReadsAs(p, expr) ==> ParsePath(expr) == Some(p)
  {
    if ParsePath(expr).Some? {
      var n := WordRun(expr[1..]);
      var rest := expr[1 + n..];
      assert expr == "$" + expr[1..1 + n] + rest;
      assert rest == ".output." + rest[8..];
    }
    forall p: PathRef | ReadsAs(p, expr) ensures ParsePath(expr) == Some(p) {
      PathRead(p);
    }
  }

  lemma Sliced(w: string, tail: string)
    ensures var s := "$" + (w + tail); s[1..] == w + tail && s[1..1 + |w|] == w && s[1 + |w|..] == tail
  {
  }

  lemma PathRead(p: PathRef)
    requires Word(p.node) && FieldPath(p.field)
    ensures ParsePath(PathExpr(p)) == Some(p)
  {
    var tail := ".output." + p.field;
    assert PathExpr(p) == "$" + (p.node + tail);
    Sliced(p.node, tail);
    WordRunStops(p.node, tail);
    ParseSplit(PathExpr(p), p.node, p.field);
  }

  lemma ParseSplit(expr: string, node: string, field: string)
    requires expr != "" && expr[0] == '$' && node != "" && |node| < |expr| && WordRun(expr[1..]) == |node|
    requires expr[1..1 + |node|] == node && expr[1 + |node|..] == ".output." + field && FieldPath(field)
    ensures ParsePath(expr) == Some(PathRef(node, field))
  {
    assert (".output." + field)[8..] == field;
  }

  lemma {:induction false} WordRunStops(w: string, tail: string)
    requires forall i :: 0 <= i < |w| ==> WordChar(w[i])
    requires tail != "" && !WordChar(tail[0])
    ensures WordRun(w + tail) == |w|
  {
    if w != "" {
      assert (w + tail)[1..] == w[1..] + tail;
      WordRunStops(w[1..], tail);
    } else {
      assert w + tail == tail;
    }
  }

  // ---------------------------------------------------------------- what validation accepts

  function Ids(nodes: seq<Node>): set<string> {
    set n | n in nodes :: n.id
  }

  predicate Destination(d: Definition, dest: string) {
    dest == END_NODE || dest in Ids(d.nodes)
  }

  predicate ValidBranch(b: FanoutBranch) {
    !Blank(b.role) && (b.temperature.Some? ==> 0.0 <= b.temperature.value <= 2.0)
  }

  predicate ValidReduce(r: Reduce) {
    && (Blank(r.strategy) != Blank(r.role))
    && (!Blank(r.strategy) ==>
          || r.strategy == REDUCE_COLLECT
          || r.strategy == REDUCE_FIRST_SUCCESS
          || (r.strategy == REDUCE_MAJORITY && !Blank(r.key)))
  }

  predicate ValidFanout(f: Fanout) {
    && (f.branch.Some? != (f.branches != []))
    && (f.branch.Some? ==> f.count >= 1 && ValidBranch(f.branch.value))
    && (forall i :: 0 <= i < |f.branches| ==> ValidBranch(f.branches[i]))
    && f.maxParallel >= 0 && f.quorum >= 0
    && (f.onError == "" || f.onError == ON_ERROR_CONTINUE || f.onError == ON_ERROR_FAIL_FAST)
    && f.reduce.Some? && ValidReduce(f.reduce.value)
  }

  /** A node has an id of its own and exactly one of a role, a subgraph and a fan-out. */
  predicate ValidNode(n: Node) {
    && !Blank(n.id) && n.id != END_NODE
    && (if n.fanout.Some? then Blank(n.role) && Blank(n.graph) && ValidFanout(n.fanout.value)
        else Blank(n.role) != Blank(n.graph))
  }

  predicate ValidRouter(d: Definition, r: Router) {
    && !Blank(r.on)
    && ParsePath(r.on).Some? && ParsePath(r.on).value.node in Ids(d.nodes)
    && (r.branches != [] || r.otherwise != "")
    && (forall i :: 0 <= i < |r.branches| ==> !Blank(r.branches[i].to) && Destination(d, r.branches[i].to))
    && (r.otherwise != "" ==> Destination(d, r.otherwise))
  }

  predicate ValidEdge(d: Definition, e: Edge) {
    && !Blank(e.from) && e.from in Ids(d.nodes)
    && (if e.router.Some? then Blank(e.to) && ValidRouter(d, e.router.value)
        else !Blank(e.to) && Destination(d, e.to))
  }

  predicate ValidEdges(d: Definition) {
    forall i :: 0 <= i < |d.edges| ==> ValidEdge(d, d.edges[i])
  }

  predicate DistinctIds(nodes: seq<Node>) {
    forall i, j :: 0 <= i < j < |nodes| ==> nodes[i].id != nodes[j].id
  }

  predicate ValidDefinition(d: Definition) {
    && !Blank(d.id) && d.nodes != [] && !Blank(d.entry) && d.maxIterations >= 0
    && DistinctIds(d.nodes)
    && (forall i :: 0 <= i < |d.nodes| ==> ValidNode(d.nodes[i]))
    && d.entry in Ids(d.nodes)
    && (d.exit != "" ==> d.exit in Ids(d.nodes))
    && ValidEdges(d)
  }

  // ---------------------------------------------------------------- validation

  method ValidateFanout(f: Fanout) returns (ok: bool)
    ensures ok == ValidFanout(f)
  {
    var hasCountForm, hasBranchesForm := f.branch.Some?, |f.branches| > 0;
    if hasCountForm && hasBranchesForm {
      return false;
    }
    if !hasCountForm && !hasBranchesForm {
      return false;
    }
    if hasCountForm {
      if f.count < 1 || !ValidBranch(f.branch.value) {
        return false;
      }
    } else {
      for i := 0 to |f.branches|
        invariant forall j :: 0 <= j < i ==> ValidBranch(f.branches[j])
      {
        if !ValidBranch(f.branches[i]) {
          return false;
        }
      }
    }
    if f.maxParallel < 0 || f.quorum < 0 {
      return false;
    }
    if !(f.onError == "" || f.onError == ON_ERROR_CONTINUE || f.onError == ON_ERROR_FAIL_FAST) {
      return false;
    }
    if f.reduce.None? {
      return false;
    }
    var r := f.reduce.value;
    var hasStrategy, hasRole := !Blank(r.strategy), !Blank(r.role);
    if hasStrategy && hasRole {
      return false;
    }
    if !hasStrategy && !hasRole {
      return false;
    }
    if hasStrategy {
      if r.strategy == REDUCE_COLLECT || r.strategy == REDUCE_FIRST_SUCCESS {
        return true;
      }
      if r.strategy == REDUCE_MAJORITY {
        return !Blank(r.key);
      }
      return false;
    }
    return true;
  }

  /** Checks the nodes in order and collects their ids. */
  method ValidateNodes(nodes: seq<Node>) returns (ok: bool, ids: set<string>)
    ensures ok <==> DistinctIds(nodes) && forall i :: 0 <= i < |nodes| ==> ValidNode(nodes[i])
    ensures ok ==> ids == Ids(nodes)
  {
    ids := {};
    for i := 0 to |nodes|
      invariant ids == Ids(nodes[..i]) && DistinctIds(nodes[..i])
      invariant forall j :: 0 <= j < i ==> ValidNode(nodes[j])
    {
      var n := nodes[i];
      assert nodes[..i + 1] == nodes[..i] + [n];
      if Blank(n.id) || n.id == END_NODE {
        return false, ids;
      }
      if n.id in ids {
        var m :| m in nodes[..i] && m.id == n.id;
        return false, ids;
      }
      ids := ids + {n.id};
      var count :=
        (if Blank(n.role) then 0 else 1) + (if Blank(n.graph) then 0 else 1) + (if n.fanout.Some? then 1 else 0);
      if count == 0 {
        return false, ids;
      }
      if count > 1 {
        return false, ids;
      }
      if n.fanout.Some? {
        var fanoutOk := ValidateFanout(n.fanout.value);
        if !fanoutOk {
          return false, ids;
        }
      }
    }
    assert nodes[..|nodes|] == nodes;
    return true, ids;
  }

  method ValidateEdge(d: Definition, ids: set<string>, e: Edge) returns (ok: bool)
    requires ids == Ids(d.nodes)
    ensures ok == ValidEdge(d, e)
  {
    if Blank(e.from) || e.from !in ids {
      return false;
    }
    var hasTo, hasRouter := !Blank(e.to), e.router.Some?;
    if hasTo && hasRouter {
      return false;
    }
    if !hasTo && !hasRouter {
      return false;
    }
    if hasTo {
      return e.to == END_NODE || e.to in ids;
    }
    var r := e.router.value;
    if Blank(r.on) {
      return false;
    }
    var path := ParsePath(r.on);
    if path.None? || path.value.node !in ids {
      return false;
    }
    if |r.branches| == 0 && r.otherwise == "" {
      return false;
    }
    for i := 0 to |r.branches|
      invariant forall j :: 0 <= j < i ==> !Blank(r.branches[j].to) && Destination(d, r.branches[j].to)
    {
      if Blank(r.branches[i].to) || !(r.branches[i].to == END_NODE || r.branches[i].to in ids) {
        return false;
      }
    }
    return r.otherwise == "" || r.otherwise == END_NODE || r.otherwise in ids;
  }

  method Validate(d: Definition) returns (ok: bool)
    ensures ok == ValidDefinition(d)
  {
    if Blank(d.id) || |d.nodes| == 0 || Blank(d.entry) || d.maxIterations < 0 {
      return false;
    }
    var nodesOk, ids := ValidateNodes(d.nodes);
    if !nodesOk {
      return false;
    }
    if d.entry !in ids {
      return false;
    }
    if d.exit != "" && d.exit !in ids {
      return false;
    }
    for i := 0 to |d.edges|
      invariant forall j :: 0 <= j < i ==> ValidEdge(d, d.edges[j])
    {
      var edgeOk := ValidateEdge(d, ids, d.edges[i]);
      if !edgeOk {
        return false;
      }
    }
    return true;
  }
}
