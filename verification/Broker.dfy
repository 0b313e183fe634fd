/** The human-in-the-loop broker: askers and responders around one mutex-guarded map and one
    buffered channel per question. */
module Broker {

  datatype Option<T> = None | Some(value: T)

  /** Where an Ask is: waiting on its channel, past a done context but before its cleanup, or
      back with the answer or an error. */
  datatype Phase = Waiting | Abandoning | Done(answer: Option<string>)

  datatype Ask = Ask(id: string, phase: Phase)

  /** A Respond that has left the mutex with a channel and has not sent yet. */
  datatype Delivery = Delivery(ask: nat, text: string)

  /** taken records which response each question got; no step reads it. */
  datatype State = State(
    pending: map<string, nat>, asks: map<nat, Ask>, channel: map<nat, seq<string>>,
    deliveries: map<nat, Delivery>, taken: map<nat, string>)

  datatype Action =
    | Register(ask: nat, id: string)
    | Take(responder: nat, id: string, text: string)
    | Send(responder: nat)
    | Receive(ask: nat)
    | ContextDone(ask: nat)
    | Cleanup(ask: nat)

  function Fresh(): State {
    State(map[], map[], map[], map[], map[])
  }

  /** A question without an id or with the id of a pending one is refused. */
  predicate Accepts(s: State, id: string) {
    id != "" && id !in s.pending
  }

  predicate Blocked(s: State, responder: nat) {
    responder in s.deliveries
    && s.deliveries[responder].ask in s.channel && s.channel[s.deliveries[responder].ask] != []
  }

  function Next(s: State, a: Action): State {
    match a
    case Register(ask, id) =>
      if ask in s.asks || !Accepts(s, id) then s
      else s.(pending := s.pending[id := ask], asks := s.asks[ask := Ask(id, Waiting)], channel := s.channel[ask := []])
    case Take(responder, id, text) =>
      if responder in s.deliveries || id !in s.pending then s
      else s.(pending := s.pending - {id}, deliveries := s.deliveries[responder := Delivery(s.pending[id], text)],
              taken := s.taken[s.pending[id] := text])
    case Send(responder) =>
      if responder !in s.deliveries || Blocked(s, responder) then s
      else
        var d := s.deliveries[responder];
        s.(channel := s.channel[d.ask := [d.text]], deliveries := s.deliveries - {responder})
    case Receive(ask) =>
      if ask !in s.asks || ask !in s.channel || s.asks[ask].phase != Waiting || s.channel[ask] == [] then s
      else s.(asks := s.asks[ask := s.asks[ask].(phase := Done(Some(s.channel[ask][0])))],
              channel := s.channel[ask := s.channel[ask][1..]])
    case ContextDone(ask) =>
      if ask !in s.asks || s.asks[ask].phase != Waiting then s
      else s.(asks := s.asks[ask := s.asks[ask].(phase := Abandoning)])
    case Cleanup(ask) =>
      if ask !in s.asks || s.asks[ask].phase != Abandoning then s
      else s.(pending := s.pending - {s.asks[ask].id}, asks := s.asks[ask := s.asks[ask].(phase := Done(None))])
  }

  function Reach(s: State, actions: seq<Action>): State
    decreases actions
  {
    if actions == [] then s else Reach(Next(s, actions[0]), actions[1..])
  }

  // ---------------------------------------------------------------- one response per question

  /** A pending entry names a question that nobody has taken. */
  ghost predicate PendingUntaken(pending: map<string, nat>, asks: map<nat, Ask>, taken: map<nat, string>) {
    forall id :: id in pending ==> pending[id] in asks && asks[pending[id]].id == id && pending[id] !in taken
  }

  /** A delivery carries the one response its question got, and the channel is still empty. */
  ghost predicate DeliveriesOwn(
    deliveries: map<nat, Delivery>, channel: map<nat, seq<string>>, taken: map<nat, string>)
  {
    && (forall w: nat :: w in deliveries ==>
          var a := deliveries[w].ask;
          a in channel && channel[a] == [] && a in taken && taken[a] == deliveries[w].text)
    && (forall v: nat, w: nat :: v in deliveries && w in deliveries && deliveries[v].ask == deliveries[w].ask ==>
        v == w)
  }

  /** Whatever sits in a channel, or has come out of it, is the response that was taken. */
  ghost predicate AnswersTaken(asks: map<nat, Ask>, channel: map<nat, seq<string>>, taken: map<nat, string>) {
    && channel.Keys == asks.Keys && taken.Keys <= asks.Keys
    && (forall a: nat :: a in channel && channel[a] != [] ==> a in taken && channel[a] == [taken[a]])
    && (forall a: nat :: a in asks && asks[a].phase.Done? && asks[a].phase.answer.Some? ==>
          a in taken && asks[a].phase.answer.value == taken[a])
  }

  ghost predicate Inv(s: State) {
    && PendingUntaken(s.pending, s.asks, s.taken)
    && DeliveriesOwn(s.deliveries, s.channel, s.taken)
    && AnswersTaken(s.asks, s.channel, s.taken)
  }

  lemma RegisterKeeps(s: State, ask: nat, id: string)
    requires Inv(s)
    ensures Inv(Next(s, Register(ask, id)))
  {
  }

  lemma ContextDoneKeeps(s: State, ask: nat)
    requires Inv(s)
    ensures Inv(Next(s, ContextDone(ask)))
  {
  }

  lemma CleanupKeeps(s: State, ask: nat)
    requires Inv(s)
    ensures Inv(Next(s, Cleanup(ask)))
  {
  }

  lemma TakeKeeps(s: State, responder: nat, id: string, text: string)
    requires Inv(s)
    ensures Inv(Next(s, Take(responder, id, text)))
  {
  }

  lemma SendKeeps(s: State, responder: nat)
    requires Inv(s)
    ensures Inv(Next(s, Send(responder)))
  {
  }

  lemma ReceiveKeeps(s: State, ask: nat)
    requires Inv(s)
    ensures Inv(Next(s, Receive(ask)))
  {
  }

  lemma StepKeeps(s: State, a: Action)
    requires Inv(s)
    ensures Inv(Next(s, a))
  {
    match a
    case Register(ask, id) => RegisterKeeps(s, ask, id);
    case Take(responder, id, text) => TakeKeeps(s, responder, id, text);
    case Send(responder) => SendKeeps(s, responder);
    case Receive(ask) => ReceiveKeeps(s, ask);
    case ContextDone(ask) => ContextDoneKeeps(s, ask);
    case Cleanup(ask) => CleanupKeeps(s, ask);
  }

  lemma {:induction false} ReachKeeps(s: State, actions: seq<Action>)
    requires Inv(s)
    ensures Inv(Reach(s, actions))
    decreases actions
  {
    if actions != [] {
      StepKeeps(s, actions[0]);
      ReachKeeps(Next(s, actions[0]), actions[1..]);
    }
  }

  /** In every interleaving each question gets at most one response, so the send into its
      one-place channel never blocks, and the answer that comes back is that response. */
  lemma SendNeverBlocks(actions: seq<Action>, responder: nat, ask: nat)
    ensures var s := Reach(Fresh(), actions);
            && !Blocked(s, responder)
            && (ask in s.asks && s.asks[ask].phase.Done? && s.asks[ask].phase.answer.Some? ==>
                  ask in s.taken && s.asks[ask].phase.answer.value == s.taken[ask])
  {
    ReachKeeps(Fresh(), actions);
  }

  // ---------------------------------------------------------------- a live question can be answered

  predicate Live(s: State, ask: nat) {
    ask in s.asks && s.asks[ask].phase == Waiting && ask !in s.taken
  }

  ghost predicate LivePending(s: State) {
    forall a: nat :: Live(s, a) ==> s.asks[a].id in s.pending && s.pending[s.asks[a].id] == a
  }

  ghost predicate DistinctIds(s: State) {
    forall a: nat, b: nat :: a in s.asks && b in s.asks && s.asks[a].id == s.asks[b].id ==> a == b
  }

  /** No question takes the id of an earlier one. */
  predicate NewId(s: State, a: Action) {
    a.Register? && a.ask !in s.asks ==> forall b: nat :: b in s.asks ==> s.asks[b].id != a.id
  }

  ghost predicate AllNewIds(s: State, actions: seq<Action>)
    decreases actions
  {
    actions != [] ==> NewId(s, actions[0]) && AllNewIds(Next(s, actions[0]), actions[1..])
  }

  lemma RegisterLive(s: State, ask: nat, id: string)
    requires Inv(s) && LivePending(s) && DistinctIds(s) && NewId(s, Register(ask, id))
    ensures LivePending(Next(s, Register(ask, id))) && DistinctIds(Next(s, Register(ask, id)))
  {
  }

  lemma TakeLive(s: State, responder: nat, id: string, text: string)
    requires Inv(s) && LivePending(s) && DistinctIds(s)
    ensures LivePending(Next(s, Take(responder, id, text))) && DistinctIds(Next(s, Take(responder, id, text)))
  {
  }

  lemma ContextDoneLive(s: State, ask: nat)
    requires LivePending(s) && DistinctIds(s)
    ensures LivePending(Next(s, ContextDone(ask))) && DistinctIds(Next(s, ContextDone(ask)))
  {
  }

  lemma CleanupLive(s: State, ask: nat)
    requires LivePending(s) && DistinctIds(s)
    ensures LivePending(Next(s, Cleanup(ask))) && DistinctIds(Next(s, Cleanup(ask)))
  {
  }

  lemma ReceiveLive(s: State, ask: nat)
    requires LivePending(s) && DistinctIds(s)
    ensures LivePending(Next(s, Receive(ask))) && DistinctIds(Next(s, Receive(ask)))
  {
  }

  lemma StepLive(s: State, a: Action)
    requires Inv(s) && LivePending(s) && DistinctIds(s) && NewId(s, a)
    ensures LivePending(Next(s, a)) && DistinctIds(Next(s, a))
  {
    match a
    case Register(ask, id) => RegisterLive(s, ask, id);
    case Take(responder, id, text) => TakeLive(s, responder, id, text);
    case Send(responder) =>
    case Receive(ask) => ReceiveLive(s, ask);
    case ContextDone(ask) => ContextDoneLive(s, ask);
    case Cleanup(ask) => CleanupLive(s, ask);
  }

  lemma {:induction false} ReachLive(s: State, actions: seq<Action>)
    requires Inv(s) && LivePending(s) && DistinctIds(s) && AllNewIds(s, actions)
    ensures LivePending(Reach(s, actions))
    decreases actions
  {
    if actions != [] {
      StepKeeps(s, actions[0]);
      StepLive(s, actions[0]);
      ReachLive(Next(s, actions[0]), actions[1..]);
    }
  }

  /** As long as ids are never used again, a question that waits and has no response yet can
      be answered. */
  lemma LiveQuestionIsPending(actions: seq<Action>, ask: nat)
    requires AllNewIds(Fresh(), actions) && Live(Reach(Fresh(), actions), ask)
    ensures var s := Reach(Fresh(), actions); s.asks[ask].id in s.pending && s.pending[s.asks[ask].id] == ask
  {
    ReachLive(Fresh(), actions);
  }

  /** The cleanup after a done context removes the entry by id: it strands another question
      exactly when that one waits under the same id by then. */
  lemma CleanupStrandsIff(s: State, ask: nat)
    requires Inv(s) && LivePending(s) && ask in s.asks && s.asks[ask].phase == Abandoning
    ensures LivePending(Next(s, Cleanup(ask)))
            <==> s.asks[ask].id in s.pending ==> !Live(s, s.pending[s.asks[ask].id])
  {
    var id := s.asks[ask].id;
    var s' := Next(s, Cleanup(ask));
    if id in s.pending && Live(s, s.pending[id]) {
      assert Live(s', s.pending[id]);
    }
    forall a: nat | Live(s', a) ensures Live(s, a) {
    }
  }

  /** And it can happen: an id asked again after its first question was answered but before
      that question's cleanup. */
  lemma ReusedIdStrands()
    ensures exists actions: seq<Action> ::
              var s := Reach(Fresh(), actions); Live(s, 1) && s.asks[1].id !in s.pending
  {
    var s1 := Next(Fresh(), Register(0, "q"));
    var s2 := Next(s1, Take(0, "q", "yes"));
    var s3 := Next(s2, ContextDone(0));
    var s4 := Next(s3, Register(1, "q"));
    var s5 := Next(s4, Cleanup(0));
    assert Live(s5, 1) && s5.asks[1].id !in s5.pending;
    ReachCons(s4, Cleanup(0), []);
    ReachCons(s3, Register(1, "q"), [Cleanup(0)]);
    ReachCons(s2, ContextDone(0), [Register(1, "q")] + [Cleanup(0)]);
    ReachCons(s1, Take(0, "q", "yes"), [ContextDone(0)] + ([Register(1, "q")] + [Cleanup(0)]));
    var rest := [Take(0, "q", "yes")] + ([ContextDone(0)] + ([Register(1, "q")] + [Cleanup(0)]));
    ReachCons(Fresh(), Register(0, "q"), rest);
  }

  lemma ReachCons(s: State, a: Action, rest: seq<Action>)
    ensures Reach(s, [a] + rest) == Reach(Next(s, a), rest)
  {
  }
}
