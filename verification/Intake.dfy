/**
 The handlers and the rendezvous joined at the channel PendingServerRequests: a handler's channel send is
 the arrival at the dispatcher's inbox, and the dispatcher takes from the channel the handlers fill.
 */
module Intake {
  import opened Sequences
  import opened Messages
  import Handlers
  import Rendezvous

  datatype State = State(
    handlers: Handlers.State, handlersRun: seq<Handlers.Event>,
    rv: Rendezvous.State, rvRun: seq<Rendezvous.Event>)

  datatype Event =
    | Handle(line: Handlers.Event)   // a handler starts, reads a line, or returns
    | Push(conn: ConnId)             // a handler's channel send
    | Pop                            // the dispatcher's receive
    | Wait(step: Rendezvous.Event)   // the callers, and the dispatcher past its receive

  const INIT := State(Handlers.INIT, [], Rendezvous.INIT, [])

  /** Each side's own guard: a send needs a free slot of the handlers' channel, a receive something in the inbox. */
  predicate Enabled(s: State, e: Event) {
    match e
    case Handle(h) => Handlers.Enabled(s.handlers, h) && !h.Push? && !h.Pop?
    case Push(c) => Handlers.Enabled(s.handlers, Handlers.Push(c))
    case Pop => Rendezvous.Enabled(s.rv, Rendezvous.Pop)
    case Wait(r) => Rendezvous.Enabled(s.rv, r) && !r.Arrive? && !r.Pop?
  }

  function Payload(ts: seq<Handlers.Tagged>): (r: seq<ServerRequest>)
    ensures |r| == |ts| && forall i | 0 <= i < |ts| :: r[i] == ts[i].req
  {
    seq(|ts|, i requires 0 <= i < |ts| => ts[i].req)
  }

  /** Both sides see the same channel and the same dispatched requests. */
  ghost predicate OneChannel(s: State) {
    && Payload(s.handlers.channel) == s.rv.inbox
    && Payload(s.handlers.dispatched) == s.rv.dispatched
  }

  /** So one side's guard is the other side's guard. */
  lemma GuardsAgree(s: State)
    requires OneChannel(s)
    ensures forall c | c in s.handlers.holding ::
              var q := s.handlers.holding[c];
              Handlers.Enabled(s.handlers, Handlers.Push(c)) == Rendezvous.Enabled(s.rv, Rendezvous.Arrive(q))
    ensures var idle := s.rv.dispatcher.Idle?;
      Rendezvous.Enabled(s.rv, Rendezvous.Pop) == (Handlers.Enabled(s.handlers, Handlers.Pop) && idle)
  {
    assert |s.handlers.channel| == |s.rv.inbox|;
  }

  function WithHandlers(s: State, h: Handlers.Event): State
    requires Handlers.Enabled(s.handlers, h)
  {
    s.(handlers := Handlers.Apply(s.handlers, h), handlersRun := s.handlersRun + [h])
  }

  function WithRv(s: State, r: Rendezvous.Event): State
    requires Rendezvous.Enabled(s.rv, r)
  {
    s.(rv := Rendezvous.Apply(s.rv, r), rvRun := s.rvRun + [r])
  }

  function Apply(s: State, e: Event): State
    requires Enabled(s, e) && OneChannel(s)
  {
    GuardsAgree(s);
    match e
    case Handle(h) => WithHandlers(s, h)
    case Push(c) => WithRv(WithHandlers(s, Handlers.Push(c)), Rendezvous.Arrive(s.handlers.holding[c]))
    case Pop => WithRv(WithHandlers(s, Handlers.Pop), Rendezvous.Pop)
    case Wait(r) => WithRv(s, r)
  }

  lemma OneChannelStep(s: State, e: Event)
    requires Enabled(s, e) && OneChannel(s)
    ensures OneChannel(Apply(s, e))
  {
    GuardsAgree(s);
    match e
    case Push(c) =>
      assert Payload(s.handlers.channel + [Handlers.Tagged(c, s.handlers.holding[c])])
          == Payload(s.handlers.channel) + [s.handlers.holding[c]];
    case Pop =>
      var t := s.handlers.channel[0];
      assert Payload(s.handlers.channel[1..]) == Payload(s.handlers.channel)[1..];
      assert Payload(s.handlers.dispatched + [t]) == Payload(s.handlers.dispatched) + [t.req];
    case _ =>
  }

  function Run(es: seq<Event>): (r: Option<State>)
    ensures r.Some? ==> OneChannel(r.value)
  {
    if es == [] then Some(INIT)
    else
      var prev := Run(es[..|es| - 1]);
      if prev.Some? && Enabled(prev.value, es[|es| - 1]) then
        OneChannelStep(prev.value, es[|es| - 1]);
        Some(Apply(prev.value, es[|es| - 1]))
      else None
  }

  lemma HandlersExtend(es: seq<Handlers.Event>, s: Handlers.State, h: Handlers.Event)
    requires Handlers.Run(es) == Some(s) && Handlers.Enabled(s, h)
    ensures Handlers.Run(es + [h]) == Some(Handlers.Apply(s, h))
  {
    assert (es + [h])[..|es|] == es;
  }

  /** A joined run is a run of the handlers and a run of the rendezvous. */
  lemma {:induction false} BothRun(es: seq<Event>, s: State)
    requires Run(es) == Some(s)
    ensures Handlers.Run(s.handlersRun) == Some(s.handlers)
    ensures Rendezvous.Reaches(s.rvRun, s.rv)
  {
    if es != [] {
      var l := |es| - 1;
      var prev := Run(es[..l]).value;
      BothRun(es[..l], prev);
      GuardsAgree(prev);
      hide Handlers.Run;
      hide Rendezvous.Run;
      match es[l]
      case Handle(h) => HandlersExtend(prev.handlersRun, prev.handlers, h);
      case Push(c) =>
        HandlersExtend(prev.handlersRun, prev.handlers, Handlers.Push(c));
        Rendezvous.RunExtend(prev.rvRun, prev.rv, Rendezvous.Arrive(prev.handlers.holding[c]));
      case Pop =>
        HandlersExtend(prev.handlersRun, prev.handlers, Handlers.Pop);
        Rendezvous.RunExtend(prev.rvRun, prev.rv, Rendezvous.Pop);
      case Wait(r) => Rendezvous.RunExtend(prev.rvRun, prev.rv, r);
    }
  }

  /**
   What the dispatcher has taken out is, connection by connection, a prefix of the well-formed lines in
   reading order; nothing else reaches it.
   */
  lemma DispatcherReads(es: seq<Event>, s: State)
    requires Run(es) == Some(s)
    ensures s.rv.dispatched == Payload(s.handlers.dispatched)
    ensures forall c | c in s.handlers.read ::
              Handlers.Of(s.handlers.dispatched, c) <= Handlers.Requests(s.handlers.read[c])
    ensures forall t | t in s.handlers.dispatched ::
              t.conn in s.handlers.read && Handlers.WellFormed(t.req) in s.handlers.read[t.conn]
  {
    BothRun(es, s);
    forall c | c in s.handlers.read
      ensures Handlers.Of(s.handlers.dispatched, c) <= Handlers.Requests(s.handlers.read[c])
    {
      Handlers.DispatchOrder(s.handlersRun, s.handlers, c);
    }
    forall t | t in s.handlers.dispatched
      ensures t.conn in s.handlers.read && Handlers.WellFormed(t.req) in s.handlers.read[t.conn]
    {
      Handlers.OnlyRead(s.handlersRun, s.handlers, t);
    }
  }

  /** A call's response was read, as a well-formed line carrying its ID, from some backend connection. */
  lemma ResponseRead(es: seq<Event>, s: State, w: nat) returns (c: ConnId)
    requires Run(es) == Some(s) && w < |s.rv.waiters| && s.rv.waiters[w].pc.Returned?
    ensures c in s.handlers.read && Handlers.WellFormed(s.rv.waiters[w].pc.resp) in s.handlers.read[c]
    ensures s.rv.waiters[w].pc.resp.requestID == s.rv.waiters[w].id && s.rv.waiters[w].pc.resp.action.Response?
  {
    BothRun(es, s);
    DispatcherReads(es, s);
    Rendezvous.Correlation(s.rvRun, s.rv, w);
    var q, id := s.rv.waiters[w].pc.resp, s.rv.waiters[w].id;
    Rendezvous.AnswersMeaning(s.rv.dispatched, id);
    assert q in Rendezvous.Answers(s.rv.dispatched, id);
    var i :| 0 <= i < |s.rv.dispatched| && s.rv.dispatched[i] == q;
    assert s.handlers.dispatched[i] in s.handlers.dispatched;
    c := s.handlers.dispatched[i].conn;
  }
}
