/**
 The request/response rendezvous as a state machine: callers of NewSocketConnection, each with a
 one-slot response channel registered in PendingResponses, and the one dispatcher of HandleRequests.
 One event is one region under pendingMu, one channel operation, or the result of one sendMessage.
 */
module Rendezvous {
  import opened Sequences
  import opened Messages

  /** Where a call of NewSocketConnection is. */
  datatype Pc =
    | Registered                     // in the map, sendMessage not returned
    | Wrote                          // its request has been written
    | Waiting                        // at the receive
    | Received(resp: ServerRequest)  // about to delete its entry
    | Errored                        // sendMessage failed, about to delete its entry
    | Returned(resp: ServerRequest)
    | Failed

  datatype Waiter = Waiter(id: RequestId, slot: seq<ServerRequest>, pc: Pc)

  datatype Dispatcher =
    | Idle
    | Popped(req: ServerRequest)
    | Feeding(chan: nat, req: ServerRequest)  // at the channel send; chan is the caller it belongs to

  /** arrived and dispatched are history: what entered the channel, and what the dispatcher took out. */
  datatype State = State(
    waiters: seq<Waiter>,
    pending: map<RequestId, nat>,
    inbox: seq<ServerRequest>,
    dispatcher: Dispatcher,
    arrived: seq<ServerRequest>,
    dispatched: seq<ServerRequest>)

  datatype Event =
    | Call(id: RequestId)
    | SendOk(w: nat)
    | SendErr(w: nat)
    | Proceed(w: nat)
    | Receive(w: nat)
    | Finish(w: nat)
    | Arrive(req: ServerRequest)
    | Pop
    | Lookup
    | Act
    | Feed

  const INIT := State([], map[], [], Idle, [], [])

  predicate IsWaiter(s: State, w: nat) {
    w < |s.waiters|
  }

  predicate Enabled(s: State, e: Event) {
    match e
    case Call(id) =>
      (forall v | v in s.waiters :: v.id != id) && (forall q | q in s.arrived :: q.requestID != id)
    case SendOk(w) => IsWaiter(s, w) && s.waiters[w].pc.Registered?
    case SendErr(w) => IsWaiter(s, w) && s.waiters[w].pc.Registered?
    case Proceed(w) => IsWaiter(s, w) && s.waiters[w].pc.Wrote?
    case Receive(w) => IsWaiter(s, w) && s.waiters[w].pc.Waiting? && s.waiters[w].slot != []
    case Finish(w) => IsWaiter(s, w) && (s.waiters[w].pc.Received? || s.waiters[w].pc.Errored?)
    case Arrive(_) => |s.inbox| < CAPACITY
    case Pop => s.dispatcher.Idle? && s.inbox != []
    case Lookup => s.dispatcher.Popped? && s.dispatcher.req.action.Response?
    case Act => s.dispatcher.Popped? && !s.dispatcher.req.action.Response?
    case Feed => s.dispatcher.Feeding? && IsWaiter(s, s.dispatcher.chan) && s.waiters[s.dispatcher.chan].slot == []
  }

  function SetPc(s: State, w: nat, pc: Pc): State
    requires IsWaiter(s, w)
  {
    s.(waiters := s.waiters[w := s.waiters[w].(pc := pc)])
  }

  function Apply(s: State, e: Event): State
    requires Enabled(s, e)
  {
    match e
    case Call(id) =>
      s.(waiters := s.waiters + [Waiter(id, [], Registered)], pending := s.pending[id := |s.waiters|])
    case SendOk(w) => SetPc(s, w, Wrote)
    case SendErr(w) => SetPc(s, w, Errored)
    case Proceed(w) => SetPc(s, w, Waiting)
    case Receive(w) =>
      s.(waiters := s.waiters[w := Waiter(s.waiters[w].id, [], Received(s.waiters[w].slot[0]))])
    case Finish(w) =>
      SetPc(s.(pending := s.pending - {s.waiters[w].id}), w,
            if s.waiters[w].pc.Received? then Returned(s.waiters[w].pc.resp) else Failed)
    case Arrive(q) => s.(inbox := s.inbox + [q], arrived := s.arrived + [q])
    case Pop =>
      s.(inbox := s.inbox[1..], dispatcher := Popped(s.inbox[0]), dispatched := s.dispatched + [s.inbox[0]])
    case Lookup =>
      var q := s.dispatcher.req;
      s.(dispatcher := if q.requestID in s.pending then Feeding(s.pending[q.requestID], q) else Idle)
    case Act => s.(dispatcher := Idle)
    case Feed =>
      var w := s.dispatcher.chan;
      s.(waiters := s.waiters[w := s.waiters[w].(slot := [s.dispatcher.req])], dispatcher := Idle)
  }

  /** The state after the events of a run, or None where some event was not possible. */
  function Run(es: seq<Event>): Option<State> {
    if es == [] then Some(INIT)
    else
      var prev := Run(es[..|es| - 1]);
      if prev.Some? && Enabled(prev.value, es[|es| - 1])
      then Some(Apply(prev.value, es[|es| - 1])) else None
  }

  ghost predicate Reaches(es: seq<Event>, s: State) {
    Run(es) == Some(s)
  }

  lemma {:induction false} RunExtend(es: seq<Event>, s: State, e: Event)
    requires Reaches(es, s) && Enabled(s, e)
    ensures Reaches(es + [e], Apply(s, e))
  {
    assert (es + [e])[..|es + [e]| - 1] == es;
  }

  // ----- Entry lifetime -----

  /** Between registration and deletion. */
  predicate Live(pc: Pc) {
    !pc.Returned? && !pc.Failed?
  }

  ghost predicate Entries(s: State) {
    && (forall v, w | 0 <= v < w < |s.waiters| :: s.waiters[v].id != s.waiters[w].id)
    && (forall id | id in s.pending :: s.pending[id] < |s.waiters| && s.waiters[s.pending[id]].id == id)
    && (forall w | 0 <= w < |s.waiters| :: Live(s.waiters[w].pc) <==> s.waiters[w].id in s.pending)
  }

  lemma CallEntries(s: State, id: RequestId)
    requires Entries(s) && Enabled(s, Call(id))
    ensures Entries(Apply(s, Call(id)))
  {
    var s' := Apply(s, Call(id));
    forall w | 0 <= w < |s.waiters| ensures s.waiters[w].id != id { assert s.waiters[w] in s.waiters; }
    assert forall i | i in s.pending :: s.pending[i] < |s.waiters| && s'.waiters[s.pending[i]].id == i;
  }

  lemma FinishEntries(s: State, w: nat)
    requires Entries(s) && Enabled(s, Finish(w))
    ensures Entries(Apply(s, Finish(w)))
  {
    var s' := Apply(s, Finish(w));
    assert forall v | 0 <= v < |s.waiters| && v != w :: s.waiters[v].id != s.waiters[w].id;
    assert forall v | 0 <= v < |s.waiters| :: s'.waiters[v].id == s.waiters[v].id;
  }

  /** Every other step leaves the entries, and who is between registration and deletion. */
  lemma SameEntries(s: State, s': State)
    requires Entries(s) && s'.pending == s.pending && |s'.waiters| == |s.waiters|
    requires forall w | 0 <= w < |s.waiters| ::
               s'.waiters[w].id == s.waiters[w].id && Live(s'.waiters[w].pc) == Live(s.waiters[w].pc)
    ensures Entries(s')
  {
  }

  lemma EntriesStep(s: State, e: Event)
    requires Entries(s) && Enabled(s, e)
    ensures Entries(Apply(s, e))
  {
    match e
    case Call(id) => CallEntries(s, id);
    case Finish(w) => FinishEntries(s, w);
    case _ =>
      hide Entries;
      SameEntries(s, Apply(s, e));
  }

  // ----- What each caller has been handed -----

  /** The responses of qs that carry id, in order. */
  function Answers(qs: seq<ServerRequest>, id: RequestId): seq<ServerRequest> {
    if qs == [] then []
    else
      var q := qs[|qs| - 1];
      Answers(qs[..|qs| - 1], id) + if q.action.Response? && q.requestID == id then [q] else []
  }

  /** What the dispatcher has taken out and looked up. */
  function LookedUp(s: State): seq<ServerRequest> {
    if s.dispatcher.Popped? && s.dispatched != [] then s.dispatched[..|s.dispatched| - 1] else s.dispatched
  }

  /** What caller w has received, then its slot, then what the dispatcher holds out to it. */
  function Fed(s: State, w: nat): seq<ServerRequest>
    requires w < |s.waiters|
  {
    (if s.waiters[w].pc.Received? || s.waiters[w].pc.Returned? then [s.waiters[w].pc.resp] else [])
    + s.waiters[w].slot
    + (if s.dispatcher.Feeding? && s.dispatcher.chan == w then [s.dispatcher.req] else [])
  }

  ghost predicate FedFits(s: State, w: nat)
    requires w < |s.waiters|
  {
    && |s.waiters[w].slot| <= 1
    && Fed(s, w) <= Answers(LookedUp(s), s.waiters[w].id)
    && (Live(s.waiters[w].pc) ==> Fed(s, w) == Answers(LookedUp(s), s.waiters[w].id))
  }

  ghost predicate Queues(s: State) {
    && s.arrived == s.dispatched + s.inbox
    && (s.dispatcher.Popped? ==> s.dispatched != [] && s.dispatched[|s.dispatched| - 1] == s.dispatcher.req)
    && (s.dispatcher.Feeding? ==>
          && s.dispatcher.chan < |s.waiters|
          && s.dispatcher.req.requestID == s.waiters[s.dispatcher.chan].id)
  }

  ghost predicate Inv(s: State) {
    && Entries(s)
    && Queues(s)
    && (forall w | 0 <= w < |s.waiters| :: FedFits(s, w))
  }

  lemma {:induction false} AnswersAppend(qs: seq<ServerRequest>, q: ServerRequest, id: RequestId)
    ensures Answers(qs + [q], id)
         == if q.action.Response? && q.requestID == id then Answers(qs, id) + [q] else Answers(qs, id)
  {
    assert (qs + [q])[..|qs|] == qs;
  }

  lemma {:induction false} NoAnswers(qs: seq<ServerRequest>, id: RequestId)
    requires forall q | q in qs :: q.requestID != id
    ensures Answers(qs, id) == []
  {
    if qs != [] {
      NoAnswers(qs[..|qs| - 1], id);
      assert qs[|qs| - 1] in qs;
    }
  }

  lemma QueuesStep(s: State, e: Event)
    requires Entries(s) && Queues(s) && Enabled(s, e)
    ensures Queues(Apply(s, e))
  {
  }

  lemma CallFed(s: State, id: RequestId)
    requires Inv(s) && Enabled(s, Call(id))
    ensures forall w | 0 <= w <= |s.waiters| :: FedFits(Apply(s, Call(id)), w)
  {
    hide Answers;
    var s' := Apply(s, Call(id));
    forall w | 0 <= w <= |s.waiters|
      ensures FedFits(s', w)
    {
      if w < |s.waiters| {
        assert FedFits(s, w) && s'.waiters[w] == s.waiters[w];
      } else {
        forall q | q in LookedUp(s) ensures q.requestID != id { assert q in s.arrived; }
        NoAnswers(LookedUp(s), id);
      }
    }
  }

  /** The steps of a caller: Fed and LookedUp stay, except that a receive moves the slot. */
  lemma CallerFed(s: State, e: Event, w: nat)
    requires Inv(s) && Enabled(s, e) && w < |s.waiters|
    requires e.SendOk? || e.SendErr? || e.Proceed? || e.Receive? || e.Finish?
    ensures FedFits(Apply(s, e), w)
  {
    hide Answers;
    assert FedFits(s, w);
    assert LookedUp(Apply(s, e)) == LookedUp(s) && |Apply(s, e).waiters| == |s.waiters|;
    hide Entries;
    hide Queues;
    assert Fed(Apply(s, e), w) == Fed(s, w);
    hide LookedUp;
  }

  /** What the lookup hands to caller w: the response, if it carries the ID under which w is registered. */
  lemma LookupHands(s: State, w: nat)
    requires Entries(s) && Queues(s) && Enabled(s, Lookup) && w < |s.waiters|
    ensures var q, id := s.dispatcher.req, s.waiters[w].id;
      Fed(Apply(s, Lookup), w) == Fed(s, w) + if id == q.requestID && id in s.pending then [q] else []
  {
    var q, id := s.dispatcher.req, s.waiters[w].id;
    if id == q.requestID && id in s.pending {
      assert s.pending[id] == w;
    } else if q.requestID in s.pending {
      assert s.waiters[s.pending[q.requestID]].id == q.requestID;
    }
  }

  lemma LookupFed(s: State, w: nat)
    requires Inv(s) && Enabled(s, Lookup) && w < |s.waiters|
    ensures FedFits(Apply(s, Lookup), w)
  {
    var s' := Apply(s, Lookup);
    var q, id := s.dispatcher.req, s.waiters[w].id;
    var looked := LookedUp(s);
    assert FedFits(s, w) && (Live(s.waiters[w].pc) <==> id in s.pending);
    assert s.dispatched == looked + [q] && LookedUp(s') == s.dispatched && s'.waiters == s.waiters;
    assert q.action.Response?;
    LookupHands(s, w);
    AnswersAppend(looked, q, id);
    hide Answers;
    hide Apply;
    hide Enabled;
    hide Entries;
    hide Queues;
    hide Inv;
    hide Fed;
    hide LookedUp;
  }

  lemma FeedFed(s: State, w: nat)
    requires Inv(s) && Enabled(s, Feed) && w < |s.waiters|
    ensures FedFits(Apply(s, Feed), w)
  {
    hide Answers;
    assert FedFits(s, w);
    assert Fed(Apply(s, Feed), w) == Fed(s, w);
  }

  lemma ActFed(s: State, w: nat)
    requires Inv(s) && Enabled(s, Act) && w < |s.waiters|
    ensures FedFits(Apply(s, Act), w)
  {
    var looked := LookedUp(s);
    assert FedFits(s, w);
    assert s.dispatched == looked + [s.dispatcher.req];
    AnswersAppend(looked, s.dispatcher.req, s.waiters[w].id);
  }

  lemma PopFed(s: State, w: nat)
    requires Inv(s) && Enabled(s, Pop) && w < |s.waiters|
    ensures FedFits(Apply(s, Pop), w)
  {
    hide Answers;
    assert FedFits(s, w);
    assert LookedUp(Apply(s, Pop)) == s.dispatched;
  }

  lemma FedStep(s: State, e: Event)
    requires Inv(s) && Enabled(s, e)
    ensures forall w | 0 <= w < |Apply(s, e).waiters| :: FedFits(Apply(s, e), w)
  {
    if e.Call? {
      CallFed(s, e.id);
    } else {
      forall w | 0 <= w < |s.waiters|
        ensures FedFits(Apply(s, e), w)
      {
        match e
        case Arrive(_) => assert FedFits(s, w);
        case Pop => PopFed(s, w);
        case Lookup => LookupFed(s, w);
        case Act => ActFed(s, w);
        case Feed => FeedFed(s, w);
        case _ => CallerFed(s, e, w);
      }
    }
  }

  lemma InvStep(s: State, e: Event)
    requires Inv(s) && Enabled(s, e)
    ensures Inv(Apply(s, e))
  {
    EntriesStep(s, e);
    QueuesStep(s, e);
    hide Apply;
    hide Answers;
    hide FedFits;
    hide Queues;
    hide Entries;
    FedStep(s, e);
  }

  lemma {:induction false} InvHolds(es: seq<Event>, s: State)
    requires Reaches(es, s)
    ensures Inv(s)
  {
    if es != [] {
      var prev := Run(es[..|es| - 1]).value;
      InvHolds(es[..|es| - 1], prev);
      InvStep(prev, es[|es| - 1]);
    }
  }

  // ----- Correlation and no leak -----

  /** A call that has its response has the first dispatched response that carries its own ID. */
  lemma Correlation(es: seq<Event>, s: State, w: nat)
    requires Reaches(es, s) && w < |s.waiters|
    requires s.waiters[w].pc.Received? || s.waiters[w].pc.Returned?
    ensures var answers := Answers(s.dispatched, s.waiters[w].id);
      answers != [] && answers[0] == s.waiters[w].pc.resp
  {
    InvHolds(es, s);
    assert FedFits(s, w);
    assert Fed(s, w)[0] == s.waiters[w].pc.resp;
    if s.dispatcher.Popped? {
      assert s.dispatched == LookedUp(s) + [s.dispatcher.req];
      AnswersAppend(LookedUp(s), s.dispatcher.req, s.waiters[w].id);
    }
  }

  /** What Answers means: responses to that request, in dispatch order. */
  lemma {:induction false} AnswersMeaning(qs: seq<ServerRequest>, id: RequestId)
    ensures forall q :: q in Answers(qs, id) <==> q in qs && q.action.Response? && q.requestID == id
  {
    if qs != [] {
      var n := |qs| - 1;
      AnswersMeaning(qs[..n], id);
      assert qs == qs[..n] + [qs[n]];
    }
  }

  /** The keys of PendingResponses are exactly the calls between registration and deletion. */
  lemma NoLeak(es: seq<Event>, s: State, id: RequestId)
    requires Reaches(es, s)
    ensures id in s.pending <==> exists w :: 0 <= w < |s.waiters| && s.waiters[w].id == id && Live(s.waiters[w].pc)
  {
    InvHolds(es, s);
    if id in s.pending {
      assert s.waiters[s.pending[id]].id == id;
    }
  }

  /** What has arrived, in order, read off the events of a run. */
  function ArrivalsOf(es: seq<Event>): seq<ServerRequest> {
    if es == [] then []
    else
      var e := es[|es| - 1];
      ArrivalsOf(es[..|es| - 1]) + if e.Arrive? then [e.req] else []
  }

  /** How often the dispatcher has taken a request out. */
  function PopsOf(es: seq<Event>): nat {
    if es == [] then 0 else PopsOf(es[..|es| - 1]) + if es[|es| - 1].Pop? then 1 else 0
  }

  lemma ChannelStep(s: State, e: Event)
    requires Enabled(s, e)
    ensures var s' := Apply(s, e);
      && s'.dispatched + s'.inbox == s.dispatched + s.inbox + (if e.Arrive? then [e.req] else [])
      && |s'.dispatched| == |s.dispatched| + (if e.Pop? then 1 else 0)
      && (|s.inbox| <= 256 ==> |s'.inbox| <= 256)
  {
  }

  /** The dispatcher takes out what arrives, in order and all of it; another arrives unless 256 requests wait. */
  lemma {:induction false} DispatchedExactly(es: seq<Event>, s: State)
    requires Reaches(es, s)
    ensures s.dispatched + s.inbox == ArrivalsOf(es) && |s.dispatched| == PopsOf(es)
    ensures |s.inbox| <= 256 && forall q :: Enabled(s, Arrive(q)) <==> |s.inbox| < 256
  {
    if es != [] {
      var l := |es| - 1;
      DispatchedExactly(es[..l], Run(es[..l]).value);
      ChannelStep(Run(es[..l]).value, es[l]);
      hide Apply;
      hide Enabled;
    }
  }

  /** Where a call stands is decided by what has happened to it. */
  ghost predicate Stands(es: seq<Event>, s: State, w: nat) {
    if w < |s.waiters| then
      var pc := s.waiters[w].pc;
      && (pc.Registered? <==> SendOk(w) !in es && SendErr(w) !in es)
      && (pc.Errored? || pc.Failed? <==> SendErr(w) in es)
      && (pc.Received? || pc.Returned? <==> Receive(w) in es)
      && (pc.Returned? || pc.Failed? <==> Finish(w) in es)
    else
      SendOk(w) !in es && SendErr(w) !in es && Receive(w) !in es && Finish(w) !in es
  }

  lemma StandsStep(es: seq<Event>, s: State, e: Event, w: nat)
    requires Stands(es, s, w) && Enabled(s, e)
    ensures Stands(es + [e], Apply(s, e), w)
  {
    assert forall f :: f in es + [e] <==> f in es || f == e;
  }

  /** A call fails exactly when its send failed, and ends when it deletes its entry. */
  lemma {:induction false} CallerExactly(es: seq<Event>, s: State, w: nat)
    requires Reaches(es, s)
    ensures Stands(es, s, w)
  {
    if es != [] {
      var l := |es| - 1;
      CallerExactly(es[..l], Run(es[..l]).value, w);
      hide Stands;
      StandsStep(es[..l], Run(es[..l]).value, es[l], w);
      assert es == es[..l] + [es[l]];
    }
  }

  /** A request that is no response, or that nobody waits for, leaves the dispatcher free and all callers alone. */
  lemma OthersPass(s: State, e: Event)
    requires Enabled(s, e) && (e.Act? || (e.Lookup? && s.dispatcher.req.requestID !in s.pending))
    ensures Apply(s, e).dispatcher == Idle && Apply(s, e).waiters == s.waiters && Apply(s, e).pending == s.pending
  {
  }

  // ----- The dispatcher's progress -----

  /** The dispatcher is at a channel send and the slot is full. */
  ghost predicate Blocked(s: State) {
    && s.dispatcher.Feeding? && s.dispatcher.chan < |s.waiters|
    && s.waiters[s.dispatcher.chan].slot != []
  }

  ghost predicate WasWritten(pc: Pc) {
    pc.Wrote? || pc.Waiting? || pc.Received? || pc.Returned?
  }

  /** Backends answer only requests that were written to them, each at most n times. */
  ghost predicate Disciplined(s: State, n: nat) {
    && (forall q | q in s.arrived && q.action.Response? ::
          exists w :: 0 <= w < |s.waiters| && s.waiters[w].id == q.requestID && WasWritten(s.waiters[w].pc))
    && (forall w | 0 <= w < |s.waiters| :: |Answers(s.arrived, s.waiters[w].id)| <= n)
  }

  lemma {:induction false} AnswersGrow(qs: seq<ServerRequest>, more: seq<ServerRequest>, id: RequestId)
    ensures Answers(qs, id) <= Answers(qs + more, id)
  {
    if more == [] {
      assert qs + more == qs;
    } else {
      assert qs + more == qs + more[..|more| - 1] + [more[|more| - 1]];
      AnswersGrow(qs, more[..|more| - 1], id);
      AnswersAppend(qs + more[..|more| - 1], more[|more| - 1], id);
    }
  }

  /** At a blocked send, two answers are already accounted for, and a third if one was received. */
  lemma BlockedCounts(s: State)
    requires Inv(s) && Blocked(s)
    ensures var w := s.dispatcher.chan;
      |Answers(s.arrived, s.waiters[w].id)|
        >= 2 + if s.waiters[w].pc.Received? || s.waiters[w].pc.Returned? then 1 else 0
    ensures s.dispatcher.req in s.arrived && s.dispatcher.req.action.Response?
  {
    var w := s.dispatcher.chan;
    var id := s.waiters[w].id;
    assert FedFits(s, w);
    AnswersGrow(s.dispatched, s.inbox, id);
    AnswersMeaning(s.dispatched, id);
    assert s.dispatcher.req == Fed(s, w)[|Fed(s, w)| - 1];
    assert s.dispatcher.req in Answers(s.dispatched, id);
  }

  /** With at most one answer to each request, the dispatcher never blocks on a response channel. */
  lemma NeverBlocks(es: seq<Event>, s: State)
    requires Reaches(es, s) && Disciplined(s, 1)
    ensures !Blocked(s)
  {
    InvHolds(es, s);
    if Blocked(s) {
      BlockedCounts(s);
    }
  }

  /** The blocked send's caller has not received yet: its receive is enabled, or one step ahead. */
  ghost predicate Relievable(s: State)
    requires Blocked(s)
  {
    s.waiters[s.dispatcher.chan].pc.Wrote? || s.waiters[s.dispatcher.chan].pc.Waiting?
  }

  /** With at most two answers, a blocked dispatcher waits for a caller that has yet to receive. */
  lemma BlockedIsRelievable(es: seq<Event>, s: State)
    requires Reaches(es, s) && Disciplined(s, 2) && Blocked(s)
    ensures Relievable(s)
  {
    InvHolds(es, s);
    BlockedCounts(s);
    var w := s.dispatcher.chan;
    var v :| 0 <= v < |s.waiters| && s.waiters[v].id == s.dispatcher.req.requestID && WasWritten(s.waiters[v].pc);
    assert v == w;
  }

  /**
   A relievable block ends by the caller's own next steps, and no step of anyone else takes that
   away: the block stays relievable until the caller receives.
   */
  lemma RelievableEnds(s: State)
    requires Blocked(s) && Relievable(s)
    ensures var w := s.dispatcher.chan;
      && (s.waiters[w].pc.Wrote? ==> Enabled(s, Proceed(w)) && Apply(s, Proceed(w)).waiters[w].pc.Waiting?)
      && (s.waiters[w].pc.Waiting? ==> Enabled(s, Receive(w)) && Enabled(Apply(s, Receive(w)), Feed))
    ensures forall e | Enabled(s, e) && e != Receive(s.dispatcher.chan) ::
              Blocked(Apply(s, e)) && Relievable(Apply(s, e)) && Apply(s, e).dispatcher == s.dispatcher
  {
  }

  /** Blocked on a caller that has received, or whose send failed. */
  ghost predicate Stuck(s: State) {
    Blocked(s) && !Relievable(s) && !s.waiters[s.dispatcher.chan].pc.Registered?
  }

  lemma StuckStep(s: State, e: Event)
    requires Stuck(s) && Enabled(s, e)
    ensures Stuck(Apply(s, e)) && Apply(s, e).dispatcher == s.dispatcher
  {
  }

  /** Such a block never ends, whatever happens in the rest of the run. */
  lemma {:induction false} StuckForGood(es: seq<Event>, s: State, more: seq<Event>, s': State)
    requires Reaches(es, s) && Stuck(s) && Reaches(es + more, s')
    ensures Stuck(s') && s'.dispatcher == s.dispatcher
  {
    if more == [] {
      assert es + more == es;
    } else {
      var l := |more| - 1;
      assert (es + more)[..|es + more| - 1] == es + more[..l];
      var prev := Run(es + more[..l]).value;
      StuckForGood(es, s, more[..l], prev);
      StuckStep(prev, more[l]);
    }
  }

  lemma Extend(es0: seq<Event>, s0: State, e: Event) returns (es: seq<Event>, s: State)
    requires Reaches(es0, s0) && Enabled(s0, e)
    ensures Reaches(es, s) && s == Apply(s0, e)
  {
    RunExtend(es0, s0, e);
    es, s := es0 + [e], Apply(s0, e);
  }

  /** One caller at its receive. */
  lemma Asked() returns (es: seq<Event>, s: State)
    ensures Reaches(es, s)
    ensures s == State([Waiter(0, [], Waiting)], map[0 := 0], [], Idle, [], [])
  {
    es, s := Extend([], INIT, Call(0));
    es, s := Extend(es, s, SendOk(0));
    es, s := Extend(es, s, Proceed(0));
  }

  /** One more answer arrives and is put into the empty slot. */
  lemma Answered(es0: seq<Event>, s0: State, pc: Pc, q: ServerRequest) returns (es: seq<Event>, s: State)
    requires Reaches(es0, s0)
    requires s0 == State([Waiter(0, [], pc)], map[0 := 0], [], Idle, s0.arrived, s0.dispatched)
    requires q.requestID == 0 && q.action.Response?
    ensures Reaches(es, s)
    ensures s == State([Waiter(0, [q], pc)], map[0 := 0], [], Idle, s0.arrived + [q], s0.dispatched + [q])
  {
    es, s := es0, s0;
    hide Run;
    hide Reaches;
    es, s := Extend(es, s, Arrive(q));
    es, s := Extend(es, s, Pop);
    es, s := Extend(es, s, Lookup);
    es, s := Extend(es, s, Feed);
  }

  /** A third answer looked up after the first was received, and before the entry is deleted. */
  lemma ThirdLookup(q: ServerRequest) returns (es: seq<Event>, s: State)
    requires q.requestID == 0 && q.action.Response?
    ensures Reaches(es, s)
    ensures s == State([Waiter(0, [q], Received(q))], map[0 := 0], [], Feeding(0, q), [q, q, q], [q, q, q])
  {
    hide Run;
    hide Reaches;
    es, s := Asked();
    es, s := Answered(es, s, Waiting, q);
    es, s := Extend(es, s, Receive(0));
    es, s := Answered(es, s, Received(q), q);
    es, s := Extend(es, s, Arrive(q));
    es, s := Extend(es, s, Pop);
    es, s := Extend(es, s, Lookup);
  }

  lemma ThreeAnswers(q: ServerRequest)
    requires q.requestID == 0 && q.action.Response?
    ensures Answers([q, q, q], 0) == [q, q, q]
  {
    AnswersAppend([], q, 0);
    AnswersAppend([q], q, 0);
    AnswersAppend([q, q], q, 0);
    assert [q, q, q] == [q, q] + [q];
    assert [q, q] == [q] + [q];
  }

  /** Three answers to one request can leave the dispatcher stuck for good: two is the bound. */
  lemma ThreeAnswersStick(q: ServerRequest) returns (es: seq<Event>, s: State)
    requires q.requestID == 0 && q.action.Response?
    ensures Reaches(es, s) && Disciplined(s, 3) && Stuck(s)
  {
    es, s := ThirdLookup(q);
    ThreeAnswers(q);
    hide Run;
    hide Reaches;
    hide Answers;
    assert s.waiters[0].id == q.requestID && WasWritten(s.waiters[0].pc);
  }

  lemma MoreAnswersAllowed(s: State, a: nat, b: nat)
    requires Disciplined(s, a) && a <= b
    ensures Disciplined(s, b)
  {
  }

  /** When backends answer at most a times, no run gets the dispatcher stuck for good exactly if a <= 2. */
  lemma StuckExact(a: nat)
    ensures (forall es, s | Reaches(es, s) && Disciplined(s, a) :: !Stuck(s)) <==> a <= 2
  {
    hide Disciplined;
    hide Reaches;
    if a <= 2 {
      forall es, s | Reaches(es, s) && Disciplined(s, a)
        ensures !Stuck(s)
      {
        MoreAnswersAllowed(s, a, 2);
        if Blocked(s) {
          BlockedIsRelievable(es, s);
        }
      }
    } else {
      var es, s := ThreeAnswersStick(ServerRequest(0, Response(true, "", "")));
      MoreAnswersAllowed(s, 3, a);
    }
  }

  /** A second answer looked up while the first is still in the slot. */
  lemma SecondLookup(q: ServerRequest) returns (es: seq<Event>, s: State)
    requires q.requestID == 0 && q.action.Response?
    ensures Reaches(es, s) && Disciplined(s, 2) && Blocked(s)
  {
    hide Run;
    hide Reaches;
    es, s := Asked();
    es, s := Answered(es, s, Waiting, q);
    es, s := Extend(es, s, Arrive(q));
    es, s := Extend(es, s, Pop);
    es, s := Extend(es, s, Lookup);
    assert s == State([Waiter(0, [q], Waiting)], map[0 := 0], [], Feeding(0, q), [q, q], [q, q]);
    hide Apply;
    hide Enabled;
    assert s.arrived == [] + [q] + [q];
    AnswersAppend([], q, 0);
    AnswersAppend([q], q, 0);
    assert s.waiters[0].id == q.requestID && WasWritten(s.waiters[0].pc);
  }

  /** The dispatcher never blocks on a response channel in any such run exactly if a <= 1. */
  lemma BlockExact(a: nat)
    ensures (forall es, s | Reaches(es, s) && Disciplined(s, a) :: !Blocked(s)) <==> a <= 1
  {
    hide Disciplined;
    hide Reaches;
    if a <= 1 {
      forall es, s | Reaches(es, s) && Disciplined(s, a)
        ensures !Blocked(s)
      {
        MoreAnswersAllowed(s, a, 1);
        NeverBlocks(es, s);
      }
    } else {
      var es, s := SecondLookup(ServerRequest(0, Response(true, "", "")));
      MoreAnswersAllowed(s, 2, a);
    }
  }
}
