/** Folding the branch outputs of a fan-out node into one. */
module Fanout {
  import opened Json

  datatype Branch = Failed | Succeeded(output: Raw)

  /** A branch outcome under its split index. */
  datatype BranchResult = BranchResult(index: nat, branch: Branch)

  /** Results arrive in split order. */
  predicate InSplitOrder(results: seq<BranchResult>) {
    forall i :: 0 <= i < |results| ==> results[i].index == i
  }

  datatype FailureReason = AllFailed | MissingKey(at: nat) | BelowQuorum | NotEncodable | UnknownStrategy

  /** The node's output and the winning branch, -1 when there is no single winner. */
  datatype Reduced = Failure(reason: FailureReason) | Output(output: Raw, winner: int)

  predicate AnySuccess(results: seq<BranchResult>) {
    exists i :: 0 <= i < |results| && results[i].branch.Succeeded?
  }

  /** A returned winner names a branch that succeeded, and the output is its own. */
  ghost predicate WinnerHonest(results: seq<BranchResult>, r: Reduced) {
    r.Output? && r.winner >= 0 ==>
      r.winner < |results| && results[r.winner].branch == Succeeded(r.output)
  }

  // ---------------------------------------------------------------- first success

  method ReduceFirstSuccess(results: seq<BranchResult>) returns (r: Reduced)
    ensures r.Output? <==> AnySuccess(results)
    ensures WinnerHonest(results, r)
    ensures r.Output? ==> r.winner >= 0 && forall i :: 0 <= i < r.winner ==> results[i].branch.Failed?
    ensures r.Failure? ==> r.reason == AllFailed
  {
    for i := 0 to |results|
      invariant forall j :: 0 <= j < i ==> results[j].branch.Failed?
    {
      if results[i].branch.Succeeded? {
        return Output(results[i].branch.output, i);
      }
    }
    return Failure(AllFailed);
  }

  // ---------------------------------------------------------------- collect

  function Outputs(results: seq<BranchResult>): seq<Raw> {
    if results == [] then []
    else
      var last := results[|results| - 1].branch;
      Outputs(results[..|results| - 1]) + (if last.Succeeded? then [last.output] else [])
  }

  method ReduceCollect(results: seq<BranchResult>) returns (r: Reduced)
    ensures r.Output? <==> AnySuccess(results) && forall o :: o in Outputs(results) ==> o.Valid?
    ensures r.Output? ==>
              && r.winner == -1
              && r.output.Valid? && r.output.json.Object? && r.output.json.members.Keys == {"branches"}
              && r.output.json.members["branches"].Array?
              && var items := r.output.json.members["branches"].items;
                 && |items| == |Outputs(results)|
                 && forall i :: 0 <= i < |items| ==> Outputs(results)[i] == Valid(items[i])
  {
    var outs: seq<Raw> := [];
    for i := 0 to |results|
      invariant outs == Outputs(results[..i])
      invariant outs == [] <==> forall j :: 0 <= j < i ==> results[j].branch.Failed?
    {
      assert results[..i + 1][..i] == results[..i];
      if results[i].branch.Succeeded? {
        outs := outs + [results[i].branch.output];
      }
    }
    assert results[..|results|] == results;
    if |outs| == 0 {
      return Failure(AllFailed);
    }
    var items: seq<Value> := [];
    for i := 0 to |outs|
      invariant |items| == i && forall j :: 0 <= j < i ==> outs[j] == Valid(items[j])
    {
      if !outs[i].Valid? {
        assert outs[i] in outs;
        return Failure(NotEncodable);
      }
      items := items + [outs[i].json];
    }
    return Output(Valid(Object(map["branches" := Array(items)])), -1);
  }

  // ---------------------------------------------------------------- majority

  /** The value a branch votes for: none when it failed or lacks the key. */
  function Ballot(r: BranchResult, key: string): Option<Value> {
    if r.branch.Succeeded? then Field(r.branch.output, key) else None
  }

  function Votes(results: seq<BranchResult>, key: string, v: Value): nat {
    if results == [] then 0
    else Votes(results[..|results| - 1], key, v) + (if Ballot(results[|results| - 1], key) == Some(v) then 1 else 0)
  }

  predicate AllVote(results: seq<BranchResult>, key: string) {
    forall i :: 0 <= i < |results| && results[i].branch.Succeeded? ==> Ballot(results[i], key).Some?
  }

  /** w is the first branch carrying the most frequent value; among equally frequent
      values, the one seen first. */
  ghost predicate IsPlurality(results: seq<BranchResult>, key: string, w: nat) {
    && w < |results| && Ballot(results[w], key).Some?
    && var most := Votes(results, key, Ballot(results[w], key).value);
       && (forall i :: 0 <= i < w ==> Ballot(results[i], key) != Ballot(results[w], key))
       && (forall i :: 0 <= i < w && Ballot(results[i], key).Some? ==>
           Votes(results, key, Ballot(results[i], key).value) < most)
       && (forall i :: w < i < |results| && Ballot(results[i], key).Some? ==>
           Votes(results, key, Ballot(results[i], key).value) <= most)
  }

  lemma PluralityUnique(results: seq<BranchResult>, key: string, v: nat, w: nat)
    requires IsPlurality(results, key, v) && IsPlurality(results, key, w)
    ensures v == w
  {
  }

  datatype Tally = Tally(count: nat, winner: nat, output: Raw)

  /** t is the tally of value v over the results. */
  ghost predicate TallyOf(results: seq<BranchResult>, key: string, v: Value, t: Tally) {
    && t.count == Votes(results, key, v)
    && t.winner < |results|
    && Ballot(results[t.winner], key) == Some(v)
    && results[t.winner].branch == Succeeded(t.output)
    && forall j :: 0 <= j < t.winner ==> Ballot(results[j], key) != Some(v)
  }

  /** Every successful branch voted for a tallied value. */
  ghost predicate Registered(results: seq<BranchResult>, key: string, tallies: map<Value, Tally>) {
    forall i :: 0 <= i < |results| && results[i].branch.Succeeded? ==>
      Ballot(results[i], key).Some? && Ballot(results[i], key).value in tallies
  }

  ghost predicate Tallied(results: seq<BranchResult>, key: string, tallies: map<Value, Tally>) {
    forall v :: v in tallies ==> TallyOf(results, key, v, tallies[v])
  }

  /** The order lists the tallied values as they were first seen. */
  ghost predicate Ordered(tallies: map<Value, Tally>, order: seq<Value>) {
    && (forall v :: v in tallies <==> v in order)
    && (forall a, b :: 0 <= a < b < |order| ==> tallies[order[a]].winner < tallies[order[b]].winner)
  }

  /** The tally map and the first-seen order describe the results counted so far. */
  ghost predicate Counted(results: seq<BranchResult>, key: string, tallies: map<Value, Tally>, order: seq<Value>) {
    Registered(results, key, tallies) && Tallied(results, key, tallies) && Ordered(tallies, order)
  }

  lemma VotesSnoc(results: seq<BranchResult>, key: string, v: Value, r: BranchResult)
    ensures Votes(results + [r], key, v) == Votes(results, key, v) + (if Ballot(r, key) == Some(v) then 1 else 0)
  {
  }

  lemma {:induction false} UnseenHasNoVotes(results: seq<BranchResult>, key: string, v: Value)
    requires forall i :: 0 <= i < |results| ==> Ballot(results[i], key) != Some(v)
    ensures Votes(results, key, v) == 0
  {
    if results != [] { UnseenHasNoVotes(results[..|results| - 1], key, v); }
  }

  lemma CountFailed(
    results: seq<BranchResult>, key: string, tallies: map<Value, Tally>, order: seq<Value>, r: BranchResult)
    requires Counted(results, key, tallies, order) && r.branch.Failed?
    ensures Counted(results + [r], key, tallies, order)
  {
  }

  /** One more ballot: the map and the order after the loop body. */
  function AddTally(tallies: map<Value, Tally>, v: Value, at: nat, output: Raw): map<Value, Tally> {
    if v in tallies then tallies[v := tallies[v].(count := tallies[v].count + 1)]
    else tallies[v := Tally(1, at, output)]
  }

  function AddOrder(tallies: map<Value, Tally>, order: seq<Value>, v: Value): seq<Value> {
    if v in tallies then order else order + [v]
  }

  lemma CountBallot(
    results: seq<BranchResult>, key: string, tallies: map<Value, Tally>, order: seq<Value>, r: BranchResult, v: Value)
    requires Counted(results, key, tallies, order) && r.branch.Succeeded? && Ballot(r, key) == Some(v)
    ensures Counted(results + [r], key, AddTally(tallies, v, |results|, r.branch.output), AddOrder(tallies, order, v))
  {
    RegisteredAfter(results, key, tallies, r, v);
    TalliedAfter(results, key, tallies, r, v);
    forall u | u in tallies ensures tallies[u].winner < |results| { assert TallyOf(results, key, u, tallies[u]); }
    OrderedAfter(tallies, order, v, |results|, r.branch.output);
  }

  lemma RegisteredAfter(results: seq<BranchResult>, key: string, tallies: map<Value, Tally>, r: BranchResult, v: Value)
    requires Registered(results, key, tallies) && r.branch.Succeeded? && Ballot(r, key) == Some(v)
    ensures Registered(results + [r], key, AddTally(tallies, v, |results|, r.branch.output))
  {
  }

  lemma TalliedAfter(results: seq<BranchResult>, key: string, tallies: map<Value, Tally>, r: BranchResult, v: Value)
    requires Registered(results, key, tallies) && Tallied(results, key, tallies)
    requires r.branch.Succeeded? && Ballot(r, key) == Some(v)
    ensures Tallied(results + [r], key, AddTally(tallies, v, |results|, r.branch.output))
  {
    var after := AddTally(tallies, v, |results|, r.branch.output);
    forall u | u in after ensures TallyOf(results + [r], key, u, after[u]) {
      if u in tallies {
        TallyKept(results, key, u, tallies[u], r);
      } else {
        TallyNew(results, key, v, r);
      }
    }
  }

  lemma OrderedAfter(tallies: map<Value, Tally>, order: seq<Value>, v: Value, at: nat, output: Raw)
    requires Ordered(tallies, order) && forall u :: u in tallies ==> tallies[u].winner < at
    ensures Ordered(AddTally(tallies, v, at, output), AddOrder(tallies, order, v))
  {
  }

  lemma TallyKept(results: seq<BranchResult>, key: string, v: Value, t: Tally, r: BranchResult)
    requires TallyOf(results, key, v, t)
    ensures TallyOf(results + [r], key, v, t.(count := t.count + if Ballot(r, key) == Some(v) then 1 else 0))
  {
  }

  lemma TallyNew(results: seq<BranchResult>, key: string, v: Value, r: BranchResult)
    requires r.branch.Succeeded? && Ballot(r, key) == Some(v)
    requires forall i :: 0 <= i < |results| ==> Ballot(results[i], key) != Some(v)
    ensures TallyOf(results + [r], key, v, Tally(1, |results|, r.branch.output))
  {
    UnseenHasNoVotes(results, key, v);
    VotesSnoc(results, key, v, r);
  }

  method CountOne(tallies: map<Value, Tally>, order: seq<Value>, v: Value, at: nat, output: Raw)
    returns (tallies': map<Value, Tally>, order': seq<Value>)
    ensures tallies' == AddTally(tallies, v, at, output) && order' == AddOrder(tallies, order, v)
  {
    tallies', order' := tallies, order;
    if v !in tallies' {
      tallies' := tallies'[v := Tally(0, at, output)];
      order' := order' + [v];
    }
    tallies' := tallies'[v := tallies'[v].(count := tallies'[v].count + 1)];
  }

  /** The winner's tally among the counted values. */
  ghost predicate Best(tallies: map<Value, Tally>, order: seq<Value>, seen: nat, b: nat)
    requires forall v :: v in order ==> v in tallies
  {
    && b < seen <= |order|
    && (forall a :: 0 <= a < b ==> tallies[order[a]].count < tallies[order[b]].count)
    && (forall a :: b < a < seen ==> tallies[order[a]].count <= tallies[order[b]].count)
  }

  lemma BestIsPlurality(results: seq<BranchResult>, key: string, tallies: map<Value, Tally>, order: seq<Value>, b: nat)
    requires Counted(results, key, tallies, order) && Best(tallies, order, |order|, b)
    ensures IsPlurality(results, key, tallies[order[b]].winner)
    ensures Votes(results, key, order[b]) == tallies[order[b]].count
  {
    var w := tallies[order[b]].winner;
    assert TallyOf(results, key, order[b], tallies[order[b]]);
    forall i | 0 <= i < |results| && Ballot(results[i], key).Some?
      ensures Votes(results, key, Ballot(results[i], key).value) <= tallies[order[b]].count
      ensures i < w ==> Votes(results, key, Ballot(results[i], key).value) < tallies[order[b]].count
    {
      var u := Ballot(results[i], key).value;
      assert TallyOf(results, key, u, tallies[u]);
      var a :| 0 <= a < |order| && order[a] == u;
      if i < w {
        assert tallies[u].winner <= i;
        assert a < b;
      }
    }
  }

  /** One pass over the results: a tally per value, in first-seen order, or the first
      successful branch without a ballot. */
  method TallyBallots(results: seq<BranchResult>, key: string)
    returns (missing: Option<nat>, tallies: map<Value, Tally>, order: seq<Value>)
    ensures missing.None? ==> Counted(results, key, tallies, order)
    ensures missing.None? ==> (order == [] <==> !AnySuccess(results))
    ensures missing.Some? ==> FirstMissing(results, key, missing.value)
  {
    missing, tallies, order := None, map[], [];
    for i := 0 to |results|
      invariant Counted(results[..i], key, tallies, order)
      invariant order == [] <==> !AnySuccess(results[..i])
    {
      var b := results[i];
      assert results[..i + 1] == results[..i] + [b];
      SuccessSnoc(results[..i], b);
      if b.branch.Failed? {
        CountFailed(results[..i], key, tallies, order, b);
        continue;
      }
      var v := ExtractField(b.branch.output, key);
      if v.None? {
        MissingAt(results, key, i, tallies, order);
        return Some(i), tallies, order;
      }
      CountBallot(results[..i], key, tallies, order, b, v.value);
      tallies, order := CountOne(tallies, order, v.value, i, b.branch.output);
    }
    assert results[..|results|] == results;
  }

  lemma SuccessSnoc(results: seq<BranchResult>, b: BranchResult)
    ensures AnySuccess(results + [b]) <==> AnySuccess(results) || b.branch.Succeeded?
  {
    var g := results + [b];
    assert g[|results|] == b;
    assert forall i :: 0 <= i < |results| ==> g[i] == results[i];
  }

  ghost predicate FirstMissing(results: seq<BranchResult>, key: string, k: nat) {
    && k < |results| && results[k].branch.Succeeded? && Ballot(results[k], key).None?
    && forall i :: 0 <= i < k && results[i].branch.Succeeded? ==> Ballot(results[i], key).Some?
  }

  lemma MissingAt(results: seq<BranchResult>, key: string, k: nat, tallies: map<Value, Tally>, order: seq<Value>)
    requires k < |results| && results[k].branch.Succeeded? && Ballot(results[k], key).None?
    requires Counted(results[..k], key, tallies, order)
    ensures FirstMissing(results, key, k)
  {
  }

  /** The highest count; an earlier value wins a tie. */
  method PickBest(tallies: map<Value, Tally>, order: seq<Value>) returns (best: Tally)
    requires order != [] && forall v :: v in order ==> v in tallies
    ensures exists b: nat :: Best(tallies, order, |order|, b) && best == tallies[order[b]]
  {
    best := tallies[order[0]];
    ghost var b: nat := 0;
    for k := 1 to |order|
      invariant Best(tallies, order, k, b) && best == tallies[order[b]]
    {
      if tallies[order[k]].count > best.count {
        best := tallies[order[k]];
        b := k;
      }
    }
  }

  /** The plurality winner, with enough votes when a quorum is set. */
  ghost predicate Elected(results: seq<BranchResult>, key: string, quorum: int, w: nat) {
    IsPlurality(results, key, w) && (quorum <= 0 || Votes(results, key, Ballot(results[w], key).value) >= quorum)
  }

  lemma NotElected(results: seq<BranchResult>, key: string, quorum: int, w: nat)
    requires IsPlurality(results, key, w)
    requires quorum > 0 && Votes(results, key, Ballot(results[w], key).value) < quorum
    ensures forall v: nat :: !Elected(results, key, quorum, v)
  {
  }

  method ReduceMajority(results: seq<BranchResult>, key: string, quorum: int) returns (r: Reduced)
    ensures r.Output? <==> AllVote(results, key) && exists w: nat :: Elected(results, key, quorum, w)
    ensures r.Output? ==> r.winner >= 0 && Elected(results, key, quorum, r.winner) && WinnerHonest(results, r)
    ensures r.Output? ==> AnySuccess(results)
    ensures r == Failure(AllFailed) <==> !AnySuccess(results)
    ensures r.Failure? && r.reason.MissingKey? ==> FirstMissing(results, key, r.reason.at)
  {
    var missing, tallies, order := TallyBallots(results, key);
    if missing.Some? {
      return Failure(MissingKey(missing.value));
    }
    if |order| == 0 {
      return Failure(AllFailed);
    }
    var best := PickBest(tallies, order);
    ghost var b: nat :| Best(tallies, order, |order|, b) && best == tallies[order[b]];
    assert order[b] in tallies && TallyOf(results, key, order[b], tallies[order[b]]);
    BestIsPlurality(results, key, tallies, order, b);
    if quorum > 0 && best.count < quorum {
      NotElected(results, key, quorum, best.winner);
      return Failure(BelowQuorum);
    }
    assert Elected(results, key, quorum, best.winner);
    return Output(best.output, best.winner);
  }

  // ---------------------------------------------------------------- judge

  const JUDGE_MAX_ATTEMPTS: nat := 2

  /** One run of the judge role: an error, or the output recorded under its label. */
  datatype JudgeRun = RunFailed | Judged(output: Raw)

  /** A JSON number as a branch index. */
  function AsIndex(v: Value): Option<nat> {
    if v.Number? && v.n >= 0.0 && v.n.Floor as real == v.n then Some(v.n.Floor) else None
  }

  /** The verdict of a judge run, or None when it is unusable. */
  function InterpretJudge(isWrite: bool, run: JudgeRun, results: seq<BranchResult>): (verdict: Option<(Raw, int)>)
    requires InSplitOrder(results)
    ensures verdict.Some? ==> WinnerHonest(results, Output(verdict.value.0, verdict.value.1))
    ensures verdict.Some? && isWrite ==> verdict.value.1 >= 0
  {
    if run.RunFailed? || run.output.Empty? then None
    else if !isWrite then Some((run.output, -1))
    else
      var field := Field(run.output, "winner");
      var index := if field.Some? then AsIndex(field.value) else None;
      if index.Some? && index.value < |results| && results[index.value].branch.Succeeded?
      then Some((results[index.value].branch.output, index.value))
      else None
  }

  /** The judge is asked a bounded number of times and then replaced by the first success,
      so a node whose branches did any work never fails here. */
  method ReduceByRole(isWrite: bool, judge: nat -> JudgeRun, results: seq<BranchResult>)
    returns (r: Reduced, asked: nat)
    requires InSplitOrder(results)
    ensures r.Output? <==> AnySuccess(results)
    ensures WinnerHonest(results, r)
    ensures r.Output? && isWrite ==> r.winner >= 0
    ensures asked <= JUDGE_MAX_ATTEMPTS
    ensures r.Output? ==>
              (exists n: nat :: 1 <= n <= JUDGE_MAX_ATTEMPTS && UsesAttempt(isWrite, judge, results, n, r))
              || ((forall n: nat :: 1 <= n <= JUDGE_MAX_ATTEMPTS ==> InterpretJudge(isWrite, judge(n), results).None?)
                  && r.winner >= 0 && forall i :: 0 <= i < r.winner ==> results[i].branch.Failed?)
  {
    asked := 0;
    var cands := 0;
    for i := 0 to |results|
      invariant cands > 0 <==> exists j :: 0 <= j < i && results[j].branch.Succeeded?
    {
      if results[i].branch.Succeeded? {
        cands := cands + 1;
      }
    }
    if cands == 0 {
      return Failure(AllFailed), asked;
    }
    for attempt := 1 to JUDGE_MAX_ATTEMPTS + 1
      invariant asked == attempt - 1
      invariant forall n: nat :: 1 <= n < attempt ==> InterpretJudge(isWrite, judge(n), results).None?
    {
      asked := asked + 1;
      var verdict := InterpretJudge(isWrite, judge(attempt), results);
      if verdict.Some? {
        r := Output(verdict.value.0, verdict.value.1);
        assert UsesAttempt(isWrite, judge, results, attempt, r);
        return r, asked;
      }
    }
    r := ReduceFirstSuccess(results);
  }

  /** The reduction is the verdict of the n-th attempt, the first usable one. */
  ghost predicate UsesAttempt(isWrite: bool, judge: nat -> JudgeRun, results: seq<BranchResult>, n: nat, r: Reduced)
    requires InSplitOrder(results)
  {
    && (forall k: nat :: 1 <= k < n ==> InterpretJudge(isWrite, judge(k), results).None?)
    && InterpretJudge(isWrite, judge(n), results).Some?
    && var verdict := InterpretJudge(isWrite, judge(n), results).value;
       r == Output(verdict.0, verdict.1)
  }

  // ---------------------------------------------------------------- dispatch and promotion

  datatype Reduce = Collect | FirstSuccess | Majority(key: string) | Role

  /** The combination the compiler rejects: nothing to promote. */
  predicate Compilable(f: Reduce, isWrite: bool) {
    !(isWrite && f.Collect?)
  }

  method ReduceBranches(f: Reduce, quorum: int, isWrite: bool, judge: nat -> JudgeRun, results: seq<BranchResult>)
    returns (r: Reduced)
    requires InSplitOrder(results)
    ensures WinnerHonest(results, r)
    ensures r.Output? ==> AnySuccess(results)
    ensures r.Output? && isWrite && Compilable(f, isWrite) ==> r.winner >= 0
    ensures f.FirstSuccess? || f.Role? ==> (r.Output? <==> AnySuccess(results))
  {
    match f {
      case Role =>
        var asked;
        r, asked := ReduceByRole(isWrite, judge, results);
      case Collect => r := ReduceCollect(results);
      case FirstSuccess => r := ReduceFirstSuccess(results);
      case Majority(key) => r := ReduceMajority(results, key, quorum);
    }
  }

  /** The fan-out node's reduce step: a node whose branches write promotes exactly the
      workspace of the branch whose output becomes the node's output. */
  method ReduceAndPromote(f: Reduce, quorum: int, isWrite: bool, judge: nat -> JudgeRun, results: seq<BranchResult>)
    returns (r: Reduced, promoted: Option<nat>)
    requires InSplitOrder(results) && Compilable(f, isWrite)
    ensures promoted.Some? <==> isWrite && r.Output?
    ensures promoted.Some? ==> promoted.value < |results| && results[promoted.value].branch == Succeeded(r.output)
  {
    r := ReduceBranches(f, quorum, isWrite, judge, results);
    promoted := None;
    if r.Output? && isWrite && r.winner >= 0 && r.winner < |results| {
      promoted := Some(r.winner);
    }
  }
}
