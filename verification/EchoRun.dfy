/**
 The round trip that the system is for: for every text and every maxQueueSize there is a run in which a
 client connects, says the text, and receives it back.
 */
module EchoRun {
  import opened Sequences
  import opened Messages
  import Roster
  import Store
  import Rendezvous
  import Hub
  import RoomIndex
  import EchoBackend
  import opened EchoSystem
  import EchoTheorems
  import EchoIntake

  const ASKING := BackendRequest(0, ConnectionRequest)

  function Approval(): ServerRequest {
    ServerRequest(0, Response(true, EchoBackend.ClientId(0, 1), EchoBackend.ROOM))
  }

  function Caller(): RoomIndex.Client {
    RoomIndex.Client(0, EchoBackend.ClientId(0, 1), EchoBackend.ROOM)
  }

  function Spoken(text: string): BackendRequest {
    BackendRequest(1, NewMessage(EchoBackend.ClientId(0, 1), text))
  }

  function Echoing(text: string): ServerRequest {
    ServerRequest(1, MessageToConnection(EchoBackend.ClientId(0, 1), text))
  }

  lemma Go(n: nat, es0: seq<Event>, s0: State, e: Event) returns (es: seq<Event>, s: State)
    requires Reaches(n, es0, s0) && Enabled(s0, e)
    ensures Reaches(n, es, s) && s == Apply(s0, e)
  {
    es, s := es0 + [e], Apply(s0, e);
    assert es[..|es| - 1] == es0;
  }

  /** A step of the rendezvous leaves the rest alone. */
  lemma GoWait(n: nat, es0: seq<Event>, s0: State, r: Rendezvous.Event) returns (es: seq<Event>, s: State)
    requires Reaches(n, es0, s0) && Enabled(s0, Wait(r))
    ensures Reaches(n, es, s)
    ensures s == s0.(rv := Rendezvous.Apply(s0.rv, r), rvRun := s0.rvRun + [r])
  {
    es, s := Go(n, es0, s0, Wait(r));
  }

  /** Nothing has been heard yet, and nobody but the caller of request 0 has called. */
  ghost predicate Early(s: State, written: seq<Store.Sent>, begun: seq<BackendRequest>) {
    && s.store.roster.clients == [0] && s.store.hist.written == written && s.store.hist.begun == begun
    && s.counters == (if s.emitted == [] then map[] else map[0 := 1]) && s.told == [] && s.received == []
  }

  /** A backend connects. */
  lemma Backend(n: nat) returns (es: seq<Event>, s: State)
    ensures Reaches(n, es, s) && Early(s, [], []) && s.store.threads == [Store.FlushStarted]
    ensures s.rv == Rendezvous.INIT && s.hub == Hub.INIT
    ensures s.emitted == [] && s.consumed == {} && s.arrived == {} && s.origin == [] && s.sent == []
  {
    es, s := [], Init(n);
    assert Reaches(n, es, s);
    hide Reaches;
    es, s := Go(n, es, s, Server(Store.Conn(Roster.Accept(0))));
    es, s := Go(n, es, s, Server(Store.Conn(Roster.Spawn)));
  }

  /** A caller registers and asks. */
  lemma Calls(n: nat) returns (es: seq<Event>, s: State)
    ensures Reaches(n, es, s) && Early(s, [], [ASKING])
    ensures s.store.threads == [Store.FlushStarted, Store.Sender(ASKING, Store.Picking)]
    ensures s.rv == Rendezvous.State([Rendezvous.Waiter(0, [], Rendezvous.Registered)], map[0 := 0], [],
                                     Rendezvous.Idle, [], [])
    ensures s.hub == Hub.INIT
    ensures s.emitted == [] && s.consumed == {} && s.arrived == {} && s.origin == [] && s.sent == []
  {
    es, s := Backend(n);
    hide Reaches;
    es, s := Go(n, es, s, Connect(0));
    assert s.rv.waiters == [Rendezvous.Waiter(0, [], Rendezvous.Registered)];
    es, s := Go(n, es, s, Ask(0));
  }

  /** The request is written to the backend. */
  lemma Asks(n: nat) returns (es: seq<Event>, s: State)
    ensures Reaches(n, es, s) && Early(s, [Store.Sent(0, ASKING, false)], [ASKING])
    ensures s.store.threads == [Store.FlushStarted, Store.Done]
    ensures s.rv == Rendezvous.State([Rendezvous.Waiter(0, [], Rendezvous.Wrote)], map[0 := 0], [],
                                     Rendezvous.Idle, [], [])
    ensures s.hub == Hub.INIT
    ensures s.emitted == [] && s.consumed == {} && s.arrived == {} && s.origin == [] && s.sent == []
  {
    es, s := Calls(n);
    hide Reaches;
    es, s := Go(n, es, s, Server(Store.Pick(1, 0)));
    assert s.store.threads == [Store.FlushStarted, Store.Sender(ASKING, Store.Writing(0))];
    es, s := Go(n, es, s, Asked(0, Store.WriteOk(1)));
  }

  /** The answer of the backend has arrived; what the dispatcher and the caller have done with it is in rv. */
  ghost predicate Approved(s: State) {
    && Early(s, [Store.Sent(0, ASKING, false)], [ASKING])
    && s.store.threads == [Store.FlushStarted, Store.Done] && s.hub == Hub.INIT
    && s.emitted == [Emission(0, 0, 1, Approval())] && s.consumed == {0} && s.arrived == {0}
    && s.origin == [] && s.sent == []
  }

  /** The backend approves, and its answer arrives. */
  lemma Approves(n: nat) returns (es: seq<Event>, s: State)
    ensures Reaches(n, es, s) && Approved(s)
    ensures s.rv == Rendezvous.State([Rendezvous.Waiter(0, [], Rendezvous.Wrote)], map[0 := 0], [Approval()],
                                     Rendezvous.Idle, [Approval()], [])
  {
    es, s := Asks(n);
    hide Reaches;
    hide EchoBackend.ClientId;
    es, s := Go(n, es, s, Echo(0));
    assert s.emitted == [Emission(0, 0, 1, Approval())];
    es, s := Go(n, es, s, Arrive(0));
  }

  /** A step of the callers or the dispatcher leaves the rest alone. */
  lemma GoApproved(n: nat, es0: seq<Event>, s0: State, r: Rendezvous.Event) returns (es: seq<Event>, s: State)
    requires Reaches(n, es0, s0) && Approved(s0) && Rendezvous.Enabled(s0.rv, r)
    requires r.Proceed? || r.Receive? || r.Finish? || r.Pop? || r.Lookup? || r.Feed?
    ensures Reaches(n, es, s) && Approved(s) && s.rv == Rendezvous.Apply(s0.rv, r)
  {
    es, s := GoWait(n, es0, s0, r);
  }

  /** The dispatcher hands it to the caller. */
  lemma Dispatches(n: nat) returns (es: seq<Event>, s: State)
    ensures Reaches(n, es, s) && Approved(s)
    ensures s.rv == Rendezvous.State([Rendezvous.Waiter(0, [Approval()], Rendezvous.Wrote)], map[0 := 0], [],
                                     Rendezvous.Idle, [Approval()], [Approval()])
  {
    es, s := Approves(n);
    hide Reaches;
    hide Approved;
    hide EchoBackend.ClientId;
    es, s := GoApproved(n, es, s, Rendezvous.Pop);
    assert s.rv.dispatcher == Rendezvous.Popped(Approval()) && s.rv.inbox == [];
    es, s := GoApproved(n, es, s, Rendezvous.Lookup);
    assert s.rv.dispatcher == Rendezvous.Feeding(0, Approval());
    es, s := GoApproved(n, es, s, Rendezvous.Feed);
  }

  /** The call returns. */
  lemma Returns(n: nat) returns (es: seq<Event>, s: State)
    ensures Reaches(n, es, s) && Approved(s)
    ensures s.rv == Rendezvous.State([Rendezvous.Waiter(0, [], Rendezvous.Returned(Approval()))], map[], [],
                                     Rendezvous.Idle, [Approval()], [Approval()])
  {
    es, s := Dispatches(n);
    hide Reaches;
    hide Approved;
    hide EchoBackend.ClientId;
    es, s := GoApproved(n, es, s, Rendezvous.Proceed(0));
    assert s.rv.waiters == [Rendezvous.Waiter(0, [Approval()], Rendezvous.Waiting)];
    es, s := GoApproved(n, es, s, Rendezvous.Receive(0));
    assert s.rv.waiters == [Rendezvous.Waiter(0, [], Rendezvous.Received(Approval()))];
    es, s := GoApproved(n, es, s, Rendezvous.Finish(0));
    assert s.rv.pending == map[];
  }

  /** The client is registered, and says the text. */
  lemma Says(n: nat, text: string) returns (es: seq<Event>, s: State)
    ensures Reaches(n, es, s) && Early(s, [Store.Sent(0, ASKING, false)], [ASKING, Spoken(text)])
    ensures s.store.threads == [Store.FlushStarted, Store.Done, Store.Sender(Spoken(text), Store.Picking)]
    ensures s.rv.inbox == [] && s.rv.dispatcher == Rendezvous.Idle
    ensures s.hub.index.clients == map[EchoBackend.ClientId(0, 1) := Caller()]
    ensures s.emitted == [Emission(0, 0, 1, Approval())] && s.consumed == {0} && s.arrived == {0}
    ensures s.sent == [Text(1, 0, text)]
  {
    es, s := Returns(n);
    hide Reaches;
    hide EchoBackend.ClientId;
    hide RoomIndex.RoomsWith;
    es, s := Go(n, es, s, Join(0));
    assert s.hub.registered == [Caller()] && s.hub.reading == {0};
    es, s := Go(n, es, s, Say(0, 1, text));
  }

  /** The text is written to the backend. */
  lemma Forwards(n: nat, text: string) returns (es: seq<Event>, s: State)
    ensures Reaches(n, es, s)
    ensures Early(s, [Store.Sent(0, ASKING, false), Store.Sent(0, Spoken(text), false)], [ASKING, Spoken(text)])
    ensures s.rv.inbox == [] && s.rv.dispatcher == Rendezvous.Idle
    ensures s.hub.index.clients == map[EchoBackend.ClientId(0, 1) := Caller()]
    ensures s.emitted == [Emission(0, 0, 1, Approval())] && s.consumed == {0} && s.arrived == {0}
    ensures s.sent == [Text(1, 0, text)]
  {
    es, s := Says(n, text);
    hide Reaches;
    hide EchoBackend.ClientId;
    es, s := Go(n, es, s, Server(Store.Pick(2, 0)));
    assert s.store.threads[2] == Store.Sender(Spoken(text), Store.Writing(0));
    es, s := Go(n, es, s, Server(Store.WriteOk(2)));
  }

  /** The backend echoes it. */
  lemma Echoes(n: nat, text: string) returns (es: seq<Event>, s: State)
    ensures Reaches(n, es, s) && s.rv.inbox == [] && s.rv.dispatcher == Rendezvous.Idle
    ensures |s.emitted| == 2 && s.emitted[1].req == Echoing(text) && s.arrived == {0}
    ensures s.hub.index.clients == map[EchoBackend.ClientId(0, 1) := Caller()]
    ensures s.received == [] && s.sent == [Text(1, 0, text)]
  {
    es, s := Forwards(n, text);
    hide Reaches;
    hide EchoBackend.ClientId;
    es, s := Go(n, es, s, Echo(1));
  }

  /** The answer arrives. */
  lemma Comes(n: nat, text: string) returns (es: seq<Event>, s: State)
    ensures Reaches(n, es, s) && s.rv.inbox == [Echoing(text)] && s.rv.dispatcher == Rendezvous.Idle
    ensures s.hub.index.clients == map[EchoBackend.ClientId(0, 1) := Caller()]
    ensures s.received == [] && s.sent == [Text(1, 0, text)]
  {
    es, s := Echoes(n, text);
    hide Reaches;
    hide EchoBackend.ClientId;
    es, s := Go(n, es, s, Arrive(1));
  }

  /** The dispatcher takes it out. */
  lemma TakesOut(n: nat, text: string) returns (es: seq<Event>, s: State)
    ensures Reaches(n, es, s) && Enabled(s, Act(true)) && s.rv.dispatcher.req == Echoing(text)
    ensures s.hub.index.clients == map[EchoBackend.ClientId(0, 1) := Caller()]
    ensures s.received == [] && s.sent == [Text(1, 0, text)]
  {
    es, s := Comes(n, text);
    hide Reaches;
    hide EchoBackend.ClientId;
    es, s := GoWait(n, es, s, Rendezvous.Pop);
  }

  /** The client receives the text it said, once. */
  lemma RoundTrip(n: nat, text: string) returns (es: seq<Event>, s: State)
    ensures Reaches(n, es, s)
    ensures s.sent == [Text(1, 0, text)] && s.received == [Text(1, 0, text)]
    ensures EchoTheorems.Times(s.received, 0, text) == 1
  {
    es, s := TakesOut(n, text);
    EchoTheorems.TextDelivered(s, 1, EchoBackend.ClientId(0, 1), text);
    hide Reaches;
    hide EchoBackend.ClientId;
    es, s := Go(n, es, s, Act(true));
    assert s.received == [Text(1, 0, text)];
    assert s.received[..0] == [];
  }

  /** And so it can with the handlers spelled out. */
  lemma RoundTripWithHandlers(n: nat, text: string) returns (es: seq<EchoIntake.Event>, s: EchoIntake.State)
    ensures EchoIntake.Run(n, es) == Some(s)
    ensures s.echo.sent == [Text(1, 0, text)] && s.echo.received == [Text(1, 0, text)]
  {
    var es0, s0 := RoundTrip(n, text);
    es, s := EchoIntake.Realizes(n, es0, s0);
  }
}
