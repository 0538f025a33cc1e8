/**
 The composed system with the connection handlers spelled out: an answer is read by the handler of its
 connection, held until there is a free slot in the channel, and pushed. Every run of it is a run of
 EchoSystem, in which the push is the arrival, so the promises of EchoTheorems hold of it.
 */
module EchoIntake {
  import opened Sequences
  import opened Messages
  import Handlers
  import Intake
  import Rendezvous
  import EchoSystem
  import EchoTheorems

  /** read are the answers that handlers have read; hand is the answer each handler holds. */
  datatype State = State(
    echo: EchoSystem.State, echoRun: seq<EchoSystem.Event>,
    handlers: Handlers.State, handlersRun: seq<Handlers.Event>,
    read: set<nat>,
    hand: map<ConnId, nat>)

  datatype Event =
    | Open(conn: ConnId)
    | Read(conn: ConnId, answer: nat)
    | Skip(conn: ConnId)                 // a line that does not decode
    | Push(conn: ConnId)
    | Close(conn: ConnId)
    | Pop
    | Other(step: EchoSystem.Event)      // every step but the arrival at the channel and the receive from it

  function Init(maxQueueSize: nat): State {
    State(EchoSystem.Init(maxQueueSize), [], Handlers.INIT, [], {}, map[])
  }

  /** Handlers and rendezvous, seen as joined at the channel. */
  function Joined(s: State): Intake.State {
    Intake.State(s.handlers, s.handlersRun, s.echo.rv, s.echo.rvRun)
  }

  predicate Enabled(s: State, e: Event) {
    match e
    case Open(c) => Handlers.Enabled(s.handlers, Handlers.Open(c))
    case Read(c, j) =>
      && j < |s.echo.emitted| && s.echo.emitted[j].conn == c && j !in s.read
      && Handlers.Enabled(s.handlers, Handlers.Read(c, Handlers.WellFormed(s.echo.emitted[j].req)))
    case Skip(c) => Handlers.Enabled(s.handlers, Handlers.Read(c, Handlers.Malformed))
    case Push(c) => Handlers.Enabled(s.handlers, Handlers.Push(c))
    case Close(c) => Handlers.Enabled(s.handlers, Handlers.Close(c))
    case Pop => Rendezvous.Enabled(s.echo.rv, Rendezvous.Pop)
    case Other(e') => EchoSystem.Enabled(s.echo, e') && !e'.Arrive? && e' != EchoSystem.Wait(Rendezvous.Pop)
  }

  /** The answer in a handler's hand has been read, and has not arrived. */
  ghost predicate Holds(s: State, c: ConnId)
    requires c in s.hand && c in s.handlers.holding
  {
    && s.hand[c] < |s.echo.emitted| && s.echo.emitted[s.hand[c]].req == s.handlers.holding[c]
    && s.hand[c] in s.read && s.hand[c] !in s.echo.arrived
  }

  ghost predicate Inv(s: State) {
    && Intake.OneChannel(Joined(s))
    && s.hand.Keys == s.handlers.holding.Keys
    && (forall c | c in s.hand :: Holds(s, c))
    && (forall c, d | c in s.hand && d in s.hand && c != d :: s.hand[c] != s.hand[d])
    && s.echo.arrived <= s.read
  }

  /** A handler's push is an arrival that the composed system allows, and so is the receive. */
  lemma GuardsAllow(s: State)
    requires Inv(s)
    ensures forall c | Enabled(s, Push(c)) :: c in s.hand && EchoSystem.Enabled(s.echo, EchoSystem.Arrive(s.hand[c]))
    ensures Enabled(s, Pop) ==>
              && Handlers.Enabled(s.handlers, Handlers.Pop)
              && EchoSystem.Enabled(s.echo, EchoSystem.Wait(Rendezvous.Pop))
  {
    Intake.GuardsAgree(Joined(s));
    forall c | Enabled(s, Push(c))
      ensures c in s.hand && EchoSystem.Enabled(s.echo, EchoSystem.Arrive(s.hand[c]))
    {
      assert c in s.handlers.holding.Keys && Holds(s, c);
    }
  }

  function WithHandlers(s: State, h: Handlers.Event): State
    requires Handlers.Enabled(s.handlers, h)
  {
    s.(handlers := Handlers.Apply(s.handlers, h), handlersRun := s.handlersRun + [h])
  }

  function WithEcho(s: State, e: EchoSystem.Event): State
    requires EchoSystem.Enabled(s.echo, e)
  {
    s.(echo := EchoSystem.Apply(s.echo, e), echoRun := s.echoRun + [e])
  }

  function Apply(s: State, e: Event): State
    requires Enabled(s, e) && Inv(s)
  {
    GuardsAllow(s);
    match e
    case Open(c) => WithHandlers(s, Handlers.Open(c))
    case Read(c, j) =>
      WithHandlers(s, Handlers.Read(c, Handlers.WellFormed(s.echo.emitted[j].req)))
      .(read := s.read + {j}, hand := s.hand[c := j])
    case Skip(c) => WithHandlers(s, Handlers.Read(c, Handlers.Malformed))
    case Push(c) =>
      WithEcho(WithHandlers(s, Handlers.Push(c)), EchoSystem.Arrive(s.hand[c])).(hand := s.hand - {c})
    case Close(c) => WithHandlers(s, Handlers.Close(c)).(hand := s.hand - {c})
    case Pop => WithEcho(WithHandlers(s, Handlers.Pop), EchoSystem.Wait(Rendezvous.Pop))
    case Other(e') => WithEcho(s, e')
  }

  /** The steps of the rest leave the channel alone, and answers stay. */
  lemma OtherKeeps(s: EchoSystem.State, e: EchoSystem.Event)
    requires EchoSystem.Enabled(s, e) && !e.Arrive? && e != EchoSystem.Wait(Rendezvous.Pop)
    ensures var s' := EchoSystem.Apply(s, e);
      && s.emitted <= s'.emitted && s'.arrived == s.arrived
      && s'.rv.inbox == s.rv.inbox && s'.rv.dispatched == s.rv.dispatched
  {
  }

  lemma OtherInv(s: State, e: EchoSystem.Event)
    requires Inv(s) && Enabled(s, Other(e))
    ensures Inv(Apply(s, Other(e)))
  {
    OtherKeeps(s.echo, e);
    var s' := Apply(s, Other(e));
    hide EchoSystem.Apply;
    hide EchoSystem.Enabled;
    forall c | c in s'.hand
      ensures Holds(s', c)
    {
      assert Holds(s, c);
    }
  }

  /** The steps of a handler that leave the channel alone. */
  lemma HandlerInv(s: State, e: Event)
    requires Inv(s) && Enabled(s, e) && (e.Open? || e.Read? || e.Skip? || e.Close?)
    ensures Inv(Apply(s, e))
  {
    var s' := Apply(s, e);
    assert s'.echo == s.echo && s'.handlers.channel == s.handlers.channel;
    assert s'.handlers.dispatched == s.handlers.dispatched;
    assert s'.hand.Keys == s'.handlers.holding.Keys;
    hide Intake.Payload;
    forall c | c in s'.hand
      ensures Holds(s', c)
    {
      assert c in s.hand ==> Holds(s, c);
    }
    forall c, d | c in s'.hand && d in s'.hand && c != d
      ensures s'.hand[c] != s'.hand[d]
    {
      assert c in s.hand ==> Holds(s, c);
      assert d in s.hand ==> Holds(s, d);
    }
  }

  lemma PushEffect(s: State, c: ConnId)
    requires Inv(s) && Enabled(s, Push(c)) && Intake.Enabled(Joined(s), Intake.Push(c))
    ensures var s' := Apply(s, Push(c)); var j := Intake.Apply(Joined(s), Intake.Push(c));
      && c in s.hand
      && s'.handlers == j.handlers && s'.echo.rv == j.rv
      && s'.hand == s.hand - {c} && s'.handlers.holding == s.handlers.holding - {c} && s'.read == s.read
      && s'.echo.emitted == s.echo.emitted && s'.echo.arrived == s.echo.arrived + {s.hand[c]}
  {
    GuardsAllow(s);
    assert Holds(s, c);
  }

  lemma PushInv(s: State, c: ConnId)
    requires Inv(s) && Enabled(s, Push(c))
    ensures Inv(Apply(s, Push(c)))
  {
    var s' := Apply(s, Push(c));
    PushEffect(s, c);
    Intake.OneChannelStep(Joined(s), Intake.Push(c));
    assert Holds(s, c);
    hide Apply;
    hide Enabled;
    hide Intake.Apply;
    hide Intake.Enabled;
    forall d | d in s'.hand
      ensures Holds(s', d)
    {
      assert Holds(s, d);
    }
  }

  lemma PopInv(s: State)
    requires Inv(s) && Enabled(s, Pop)
    ensures Inv(Apply(s, Pop))
  {
    var s' := Apply(s, Pop);
    GuardsAllow(s);
    Intake.OneChannelStep(Joined(s), Intake.Pop);
    assert s'.echo.emitted == s.echo.emitted && s'.echo.arrived == s.echo.arrived;
    assert s'.handlers.holding == s.handlers.holding;
    forall d | d in s'.hand
      ensures Holds(s', d)
    {
      assert Holds(s, d);
    }
  }

  lemma InvStep(s: State, e: Event)
    requires Inv(s) && Enabled(s, e)
    ensures Inv(Apply(s, e))
  {
    hide Inv;
    match e
    case Push(c) => PushInv(s, c);
    case Pop => PopInv(s);
    case Other(e') => OtherInv(s, e');
    case _ => HandlerInv(s, e);
  }

  function Run(maxQueueSize: nat, es: seq<Event>): (r: Option<State>)
    ensures r.Some? ==> Inv(r.value)
  {
    if es == [] then Some(Init(maxQueueSize))
    else
      var prev := Run(maxQueueSize, es[..|es| - 1]);
      if prev.Some? && Enabled(prev.value, es[|es| - 1]) then
        InvStep(prev.value, es[|es| - 1]);
        Some(Apply(prev.value, es[|es| - 1]))
      else None
  }

  lemma EchoExtend(n: nat, es: seq<EchoSystem.Event>, s: EchoSystem.State, e: EchoSystem.Event)
    requires EchoSystem.Reaches(n, es, s) && EchoSystem.Enabled(s, e)
    ensures EchoSystem.Reaches(n, es + [e], EchoSystem.Apply(s, e))
  {
    assert (es + [e])[..|es|] == es;
  }

  /** Both components of a run are runs of their own machines. */
  ghost predicate BothRun(n: nat, s: State) {
    EchoSystem.Reaches(n, s.echoRun, s.echo) && Handlers.Run(s.handlersRun) == Some(s.handlers)
  }

  lemma BothStep(n: nat, s: State, e: Event)
    requires Inv(s) && Enabled(s, e) && BothRun(n, s)
    ensures BothRun(n, Apply(s, e))
  {
    GuardsAllow(s);
    hide EchoSystem.Reaches;
    hide Handlers.Run;
    hide EchoSystem.Apply;
    hide EchoSystem.Enabled;
    match e
    case Open(c) => Intake.HandlersExtend(s.handlersRun, s.handlers, Handlers.Open(c));
    case Read(c, j) =>
      var line := Handlers.WellFormed(s.echo.emitted[j].req);
      Intake.HandlersExtend(s.handlersRun, s.handlers, Handlers.Read(c, line));
    case Skip(c) => Intake.HandlersExtend(s.handlersRun, s.handlers, Handlers.Read(c, Handlers.Malformed));
    case Push(c) =>
      Intake.HandlersExtend(s.handlersRun, s.handlers, Handlers.Push(c));
      EchoExtend(n, s.echoRun, s.echo, EchoSystem.Arrive(s.hand[c]));
    case Close(c) => Intake.HandlersExtend(s.handlersRun, s.handlers, Handlers.Close(c));
    case Pop =>
      Intake.HandlersExtend(s.handlersRun, s.handlers, Handlers.Pop);
      EchoExtend(n, s.echoRun, s.echo, EchoSystem.Wait(Rendezvous.Pop));
    case Other(e') => EchoExtend(n, s.echoRun, s.echo, e');
  }

  /** Every run with the handlers spelled out is a run of the composed system, and one of the handlers. */
  lemma {:induction false} Simulates(n: nat, es: seq<Event>, s: State)
    requires Run(n, es) == Some(s)
    ensures BothRun(n, s)
  {
    if es != [] {
      var prev := Run(n, es[..|es| - 1]).value;
      Simulates(n, es[..|es| - 1], prev);
      BothStep(n, prev, es[|es| - 1]);
    }
  }

  // ----- Every run of the composed system can be had with the handlers -----

  /** No handler holds anything, none has returned, and what was read has arrived. */
  ghost predicate AtRest(s: State, echo: EchoSystem.State) {
    && s.echo == echo && s.hand == map[] && s.handlers.holding == map[] && s.handlers.closed == {}
    && s.read == echo.arrived
  }

  lemma Go(n: nat, es0: seq<Event>, s0: State, e: Event) returns (es: seq<Event>, s: State)
    requires Run(n, es0) == Some(s0) && Enabled(s0, e)
    ensures Run(n, es) == Some(s) && s == Apply(s0, e)
  {
    es, s := es0 + [e], Apply(s0, e);
    assert es[..|es| - 1] == es0;
  }

  /** The handler of an answer's connection is there. */
  lemma Opened(n: nat, es0: seq<Event>, s0: State, echo: EchoSystem.State, c: ConnId)
    returns (es: seq<Event>, s: State)
    requires Run(n, es0) == Some(s0) && AtRest(s0, echo)
    ensures Run(n, es) == Some(s) && AtRest(s, echo) && c in s.handlers.read
  {
    es, s := es0, s0;
    if c !in s0.handlers.read {
      hide Run;
      es, s := Go(n, es, s, Open(c));
    }
  }

  /** The handler reads the answer. */
  lemma ReadIn(n: nat, es0: seq<Event>, s0: State, echo: EchoSystem.State, j: nat)
    returns (es: seq<Event>, s: State)
    requires Run(n, es0) == Some(s0) && AtRest(s0, echo) && j < |echo.emitted| && j !in echo.arrived
    ensures Run(n, es) == Some(s) && s.echo == echo && s.handlers.closed == {}
    ensures var c := echo.emitted[j].conn;
      s.hand == map[c := j] && s.handlers.holding == map[c := echo.emitted[j].req]
    ensures s.read == echo.arrived + {j}
  {
    var c := echo.emitted[j].conn;
    es, s := Opened(n, es0, s0, echo, c);
    hide Run;
    hide Inv;
    es, s := Go(n, es, s, Read(c, j));
  }

  lemma PushIn(s: State, echo: EchoSystem.State, c: ConnId, j: nat)
    requires Inv(s) && Enabled(s, Push(c)) && s.echo == echo && s.handlers.closed == {}
    requires s.hand == map[c := j] && s.read == echo.arrived + {j}
    requires EchoSystem.Enabled(echo, EchoSystem.Arrive(j))
    ensures AtRest(Apply(s, Push(c)), EchoSystem.Apply(echo, EchoSystem.Arrive(j)))
  {
    GuardsAllow(s);
    assert s.handlers.holding.Keys == {c};
    assert s.hand - {c} == map[] && s.handlers.holding - {c} == map[];
  }

  /** An arrival is a read and a push. */
  lemma ArrivalRealized(n: nat, es0: seq<Event>, s0: State, echo: EchoSystem.State, j: nat)
    returns (es: seq<Event>, s: State)
    requires Run(n, es0) == Some(s0) && AtRest(s0, echo)
    requires EchoSystem.Enabled(echo, EchoSystem.Arrive(j))
    ensures Run(n, es) == Some(s) && AtRest(s, EchoSystem.Apply(echo, EchoSystem.Arrive(j)))
  {
    var c := echo.emitted[j].conn;
    es, s := ReadIn(n, es0, s0, echo, j);
    hide Run;
    Intake.GuardsAgree(Joined(s));
    PushIn(s, echo, c, j);
    hide AtRest;
    hide Inv;
    hide Apply;
    es, s := Go(n, es, s, Push(c));
  }

  lemma OtherRealized(n: nat, es0: seq<Event>, s0: State, echo: EchoSystem.State, e: EchoSystem.Event)
    returns (es: seq<Event>, s: State)
    requires Run(n, es0) == Some(s0) && AtRest(s0, echo)
    requires EchoSystem.Enabled(echo, e) && !e.Arrive? && e != EchoSystem.Wait(Rendezvous.Pop)
    ensures Run(n, es) == Some(s) && AtRest(s, EchoSystem.Apply(echo, e))
  {
    OtherKeeps(echo, e);
    hide EchoSystem.Apply;
    hide EchoSystem.Enabled;
    hide Run;
    hide Inv;
    es, s := Go(n, es0, s0, Other(e));
  }

  lemma PopRealized(n: nat, es0: seq<Event>, s0: State, echo: EchoSystem.State)
    returns (es: seq<Event>, s: State)
    requires Run(n, es0) == Some(s0) && AtRest(s0, echo)
    requires EchoSystem.Enabled(echo, EchoSystem.Wait(Rendezvous.Pop))
    ensures Run(n, es) == Some(s) && AtRest(s, EchoSystem.Apply(echo, EchoSystem.Wait(Rendezvous.Pop)))
  {
    GuardsAllow(s0);
    hide Run;
    hide Inv;
    es, s := Go(n, es0, s0, Pop);
  }

  lemma StepRealized(n: nat, es0: seq<Event>, s0: State, echo: EchoSystem.State, e: EchoSystem.Event)
    returns (es: seq<Event>, s: State)
    requires Run(n, es0) == Some(s0) && AtRest(s0, echo) && EchoSystem.Enabled(echo, e)
    ensures Run(n, es) == Some(s) && AtRest(s, EchoSystem.Apply(echo, e))
  {
    hide AtRest;
    hide EchoSystem.Apply;
    hide EchoSystem.Enabled;
    hide Run;
    if e.Arrive? {
      es, s := ArrivalRealized(n, es0, s0, echo, e.j);
    } else if e == EchoSystem.Wait(Rendezvous.Pop) {
      es, s := PopRealized(n, es0, s0, echo);
    } else {
      es, s := OtherRealized(n, es0, s0, echo, e);
    }
  }

  /** A line that does not decode is read, and changes nothing else. */
  lemma Skipped(s: State, c: ConnId)
    requires Inv(s) && Enabled(s, Skip(c))
    ensures var s', h := Apply(s, Skip(c)), s.handlers;
      s'.echo == s.echo && s'.handlers == h.(read := h.read[c := h.read[c] + [Handlers.Malformed]])
  {
  }

  /** So nothing that the composed system can do is lost by spelling the handlers out. */
  lemma {:induction false} Realizes(n: nat, es0: seq<EchoSystem.Event>, echo: EchoSystem.State)
    returns (es: seq<Event>, s: State)
    requires EchoSystem.Reaches(n, es0, echo)
    ensures Run(n, es) == Some(s) && AtRest(s, echo)
    decreases |es0|
  {
    if es0 == [] {
      es, s := [], Init(n);
    } else {
      var l := |es0| - 1;
      var prev := EchoSystem.Run(n, es0[..l]).value;
      es, s := Realizes(n, es0[..l], prev);
      es, s := StepRealized(n, es, s, prev, es0[l]);
    }
  }

  /**
   End to end, with the handlers: each client receives only texts it sent itself, each at most as often as
   it sent it, and the dispatcher has taken a prefix of each connection's well-formed lines.
   */
  lemma EndToEndEcho(n: nat, es: seq<Event>, s: State, c: nat, text: string)
    requires Run(n, es) == Some(s)
    ensures EchoTheorems.Times(s.echo.received, c, text) <= EchoTheorems.Times(s.echo.sent, c, text)
    ensures forall x | x in s.echo.received :: x in s.echo.sent
    ensures s.echo.rv.dispatched == Intake.Payload(s.handlers.dispatched)
    ensures forall b | b in s.handlers.read ::
              Handlers.Of(s.handlers.dispatched, b) <= Handlers.Requests(s.handlers.read[b])
  {
    Simulates(n, es, s);
    EchoTheorems.EndToEndEcho(n, s.echoRun, s.echo, c, text);
    forall b | b in s.handlers.read
      ensures Handlers.Of(s.handlers.dispatched, b) <= Handlers.Requests(s.handlers.read[b])
    {
      Handlers.DispatchOrder(s.handlersRun, s.handlers, b);
    }
  }
}
