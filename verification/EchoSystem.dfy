/**
 The whole system as the bridge wires it, with one process of echo backends: WebSocket clients that
 connect, talk and disconnect, the store-and-forward queue, the backends, the rendezvous, and the
 routing of the answers. Each part is the state machine of its own module; this module adds the wires.
 */
module EchoSystem {
  import opened Sequences
  import opened Messages
  import Store
  import Rendezvous
  import Hub
  import RoomIndex
  import EchoBackend

  /** A text on its way: the request ID HandleMessage drew for it, and the WebSocket connection. */
  datatype Text = Text(id: RequestId, conn: nat, text: string)

  /** An answer an echo backend wrote: its connection, the write it answers, and the counter used. */
  datatype Emission = Emission(conn: ConnId, src: nat, counter: nat, req: ServerRequest)

  /**
   The TCP connection with number n is the n-th echo backend's. A write may never be read by its
   backend, for example because its line was torn, and writes and answers may overtake each other.
   consumed are the writes backends have read; emitted what they have written; arrived the emissions
   that entered the server's channel; origin the call each registered client came from. complained are
   the failed calls whose error has been reported, welcomed the request of onConnectionSuccess by
   connection, told those of onDisconnect in order; sent and received the texts of the clients.
   */
  datatype State = State(
    store: Store.State, storeRun: seq<Store.Event>,
    rv: Rendezvous.State, rvRun: seq<Rendezvous.Event>,
    hub: Hub.State, hubRun: seq<Hub.Event>,
    counters: map<ConnId, nat>,
    consumed: set<nat>,
    emitted: seq<Emission>,
    arrived: set<nat>,
    origin: seq<nat>,
    complained: set<nat>,
    welcomed: map<nat, BackendRequest>,
    told: seq<BackendRequest>,
    sent: seq<Text>,
    received: seq<Text>)

  datatype Event =
    | Connect(id: RequestId)                       // onConnectionRequest: NewSocketConnection registers
    | Ask(w: nat)                                  // its sendMessage starts
    | Asked(w: nat, region: Store.Event)             // the region that makes its sendMessage return
    | Server(region: Store.Event)                    // any other region of the TCP server
    | Say(conn: nat, id: RequestId, text: string)  // onMessage: HandleMessage starts its sendMessage
    | Complain(w: nat, id: RequestId)              // onConnectionRequest reports the error of a failed call
    | Welcome(conn: nat, id: RequestId)            // onConnectionSuccess starts its sendMessage
    | Report(k: nat, id: RequestId)                // onDisconnect starts its sendMessage
    | Echo(k: nat)                                 // a backend reads and answers
    | Arrive(j: nat)                               // a handler puts an answer into the channel
    | Wait(step: Rendezvous.Event)                 // the callers and the dispatcher
    | Act(ok: bool)                                // the dispatcher runs a WebsocketActions entry
    | Join(w: nat)                                 // an approved call registers its client
    | Sockets(move: Hub.Event)                     // the other regions and writes of the WebSocket server

  function Init(maxQueueSize: nat): State {
    State(Store.Init(maxQueueSize), [], Rendezvous.INIT, [], Hub.INIT, [], map[], {}, [], {}, [], {}, map[], [], [], [])
  }

  function Counter(s: State, c: ConnId): nat {
    if c in s.counters then s.counters[c] else 0
  }

  function WithStore(s: State, e: Store.Event): State
    requires Store.Enabled(s.store, e)
  {
    s.(store := Store.Apply(s.store, e), storeRun := s.storeRun + [e])
  }

  function WithRv(s: State, e: Rendezvous.Event): State
    requires Rendezvous.Enabled(s.rv, e)
  {
    s.(rv := Rendezvous.Apply(s.rv, e), rvRun := s.rvRun + [e])
  }

  function WithHub(s: State, e: Hub.Event): State
    requires Hub.Enabled(s.hub, e)
  {
    s.(hub := Hub.Apply(s.hub, e), hubRun := s.hubRun + [e])
  }

  /** The request of call w. */
  function Asking(s: State, w: nat): BackendRequest
    requires w < |s.rv.waiters|
  {
    BackendRequest(s.rv.waiters[w].id, ConnectionRequest)
  }

  /** The region lets the top-level sendMessage of a connection request return. */
  predicate Settles(s: Store.State, e: Store.Event) {
    && (e.WriteOk? || e.WriteFail? || e.PickNone?)
    && e.t < |s.threads| && s.threads[e.t].Sender? && s.threads[e.t].msg.action.ConnectionRequest?
  }

  /** A UUID no caller of NewSocketConnection has drawn. */
  predicate FreshId(s: State, id: RequestId) {
    forall v | v in s.rv.waiters :: v.id != id
  }

  /** The request HandleMessage makes of a text; its context carries the client's ID. */
  function Saying(s: State, c: nat, id: RequestId, text: string): BackendRequest
    requires c < |s.hub.registered|
  {
    BackendRequest(id, NewMessage(s.hub.registered[c].clientID, text))
  }

  /** The request of onConnectionSuccess for the client of connection c. */
  function Welcoming(s: State, c: nat, id: RequestId): BackendRequest
    requires c < |s.hub.registered|
  {
    BackendRequest(id, NewConnection(s.hub.registered[c].clientID))
  }

  /** The request of onDisconnect for a client that has been taken off the index. */
  function Reporting(s: State, k: nat, id: RequestId): BackendRequest
    requires k < |s.hub.notifying|
  {
    BackendRequest(id, Disconnected(s.hub.notifying[k].clientID))
  }

  predicate Enabled(s: State, e: Event) {
    match e
    case Connect(id) =>
      && Rendezvous.Enabled(s.rv, Rendezvous.Call(id))
      && (forall m | m in s.store.hist.begun :: m.requestID != id)
    case Ask(w) =>
      && w < |s.rv.waiters| && s.rv.waiters[w].pc.Registered?
      && Store.Enabled(s.store, Store.Begin(Asking(s, w)))
    case Asked(w, e') =>
      && w < |s.rv.waiters| && s.rv.waiters[w].pc.Registered?
      && Store.Enabled(s.store, e') && Settles(s.store, e') && s.store.threads[e'.t].msg == Asking(s, w)
    case Server(e') => Store.Enabled(s.store, e') && !e'.Begin? && !Settles(s.store, e')
    case Say(c, id, text) =>
      && c in s.hub.reading && c < |s.hub.registered| && FreshId(s, id)
      && Store.Enabled(s.store, Store.Begin(Saying(s, c, id, text)))
    case Complain(w, id) =>
      && w < |s.rv.waiters| && s.rv.waiters[w].pc.Failed? && w !in s.complained && FreshId(s, id)
      && Store.Enabled(s.store, Store.Begin(BackendRequest(id, ErrorReport)))
    case Welcome(c, id) =>
      && c < |s.hub.registered| && c !in s.welcomed && FreshId(s, id)
      && Store.Enabled(s.store, Store.Begin(Welcoming(s, c, id)))
    case Report(k, id) =>
      && Hub.Enabled(s.hub, Hub.Notify(k)) && FreshId(s, id)
      && Store.Enabled(s.store, Store.Begin(Reporting(s, k, id)))
    case Echo(k) => k < |s.store.hist.written| && k !in s.consumed
    case Arrive(j) =>
      && j < |s.emitted| && j !in s.arrived
      && Rendezvous.Enabled(s.rv, Rendezvous.Arrive(s.emitted[j].req))
    case Wait(e') =>
      && Rendezvous.Enabled(s.rv, e')
      && (e'.Proceed? || e'.Receive? || e'.Finish? || e'.Pop? || e'.Lookup? || e'.Feed?)
    case Act(_) => Rendezvous.Enabled(s.rv, Rendezvous.Act)
    case Join(w) =>
      && w < |s.rv.waiters| && s.rv.waiters[w].pc.Returned? && w !in s.origin
      && s.rv.waiters[w].pc.resp.action.Response? && s.rv.waiters[w].pc.resp.action.accepted
    case Sockets(e') => !e'.Join? && !e'.Notify? && Hub.Enabled(s.hub, e')
  }

  function Joining(s: State, w: nat): RoomIndex.Client
    requires Enabled(s, Join(w))
  {
    var a := s.rv.waiters[w].pc.resp.action;
    RoomIndex.Client(|s.hub.registered|, a.clientID, a.roomID)
  }

  /** Reading the k-th write: the counter of its backend, and its answer if it gives one. */
  function Echoed(s: State, k: nat): State
    requires k < |s.store.hist.written|
  {
    var w := s.store.hist.written[k];
    var counter := EchoBackend.Counted(Counter(s, w.conn), w.msg);
    var reply := EchoBackend.Reply(w.conn, Counter(s, w.conn), w.msg);
    s.(consumed := s.consumed + {k},
       counters := s.counters[w.conn := counter],
       emitted := s.emitted + if reply.Some? then [Emission(w.conn, k, counter, reply.value)] else [])
  }

  /** MessageToConnection: written to the client of that ID, if it is connected and the write succeeds. */
  function Routed(s: State, ok: bool): State
    requires Rendezvous.Enabled(s.rv, Rendezvous.Act)
  {
    var q := s.rv.dispatcher.req;
    if q.action.MessageToConnection? && q.action.connID in s.hub.index.clients && ok then
      s.(received := s.received + [Text(q.requestID, s.hub.index.clients[q.action.connID].conn, q.action.message)])
    else s
  }

  function Apply(s: State, e: Event): State
    requires Enabled(s, e)
  {
    match e
    case Connect(id) => WithRv(s, Rendezvous.Call(id))
    case Ask(w) => WithStore(s, Store.Begin(Asking(s, w)))
    case Asked(w, e') =>
      WithRv(WithStore(s, e'), if e'.WriteOk? then Rendezvous.SendOk(w) else Rendezvous.SendErr(w))
    case Server(e') => WithStore(s, e')
    case Say(c, id, text) =>
      WithStore(s, Store.Begin(Saying(s, c, id, text))).(sent := s.sent + [Text(id, c, text)])
    case Complain(w, id) =>
      WithStore(s, Store.Begin(BackendRequest(id, ErrorReport))).(complained := s.complained + {w})
    case Welcome(c, id) =>
      WithStore(s, Store.Begin(Welcoming(s, c, id))).(welcomed := s.welcomed[c := Welcoming(s, c, id)])
    case Report(k, id) =>
      WithStore(WithHub(s, Hub.Notify(k)), Store.Begin(Reporting(s, k, id)))
      .(told := s.told + [Reporting(s, k, id)])
    case Echo(k) => Echoed(s, k)
    case Arrive(j) => WithRv(s, Rendezvous.Arrive(s.emitted[j].req)).(arrived := s.arrived + {j})
    case Wait(e') => WithRv(s, e')
    case Act(ok) => WithRv(Routed(s, ok), Rendezvous.Act)
    case Join(w) => WithHub(s, Hub.Join(Joining(s, w))).(origin := s.origin + [w])
    case Sockets(e') => WithHub(s, e')
  }

  function Run(maxQueueSize: nat, es: seq<Event>): Option<State> {
    if es == [] then Some(Init(maxQueueSize))
    else
      var prev := Run(maxQueueSize, es[..|es| - 1]);
      if prev.Some? && Enabled(prev.value, es[|es| - 1])
      then Some(Apply(prev.value, es[|es| - 1])) else None
  }

  ghost predicate Reaches(maxQueueSize: nat, es: seq<Event>, s: State) {
    Run(maxQueueSize, es) == Some(s)
  }

  // ----- Every run of the system is a run of each part -----

  ghost predicate Parts(n: nat, s: State) {
    && Store.Reaches(n, s.storeRun, s.store)
    && Rendezvous.Reaches(s.rvRun, s.rv)
    && Hub.Reaches(s.hubRun, s.hub)
  }

  lemma StorePart(n: nat, s: State, e: Store.Event)
    requires Parts(n, s) && Store.Enabled(s.store, e)
    ensures Parts(n, WithStore(s, e))
  {
    Store.RunExtend(n, s.storeRun, s.store, e);
  }

  lemma RvPart(n: nat, s: State, e: Rendezvous.Event)
    requires Parts(n, s) && Rendezvous.Enabled(s.rv, e)
    ensures Parts(n, WithRv(s, e))
  {
    Rendezvous.RunExtend(s.rvRun, s.rv, e);
  }

  lemma HubPart(n: nat, s: State, e: Hub.Event)
    requires Parts(n, s) && Hub.Enabled(s.hub, e)
    ensures Parts(n, WithHub(s, e))
  {
    Hub.RunExtend(s.hubRun, s.hub, e);
  }

  lemma PartsStep(n: nat, s: State, e: Event)
    requires Parts(n, s) && Enabled(s, e)
    ensures Parts(n, Apply(s, e))
  {
    hide Store.Run;
    hide Rendezvous.Run;
    hide Hub.Run;
    match e
    case Connect(id) => RvPart(n, s, Rendezvous.Call(id));
    case Ask(w) => StorePart(n, s, Store.Begin(Asking(s, w)));
    case Asked(w, e') =>
      StorePart(n, s, e');
      RvPart(n, WithStore(s, e'), if e'.WriteOk? then Rendezvous.SendOk(w) else Rendezvous.SendErr(w));
    case Server(e') => StorePart(n, s, e');
    case Say(c, id, text) => StorePart(n, s, Store.Begin(Saying(s, c, id, text)));
    case Complain(_, id) => StorePart(n, s, Store.Begin(BackendRequest(id, ErrorReport)));
    case Welcome(c, id) => StorePart(n, s, Store.Begin(Welcoming(s, c, id)));
    case Report(k, id) =>
      HubPart(n, s, Hub.Notify(k));
      StorePart(n, WithHub(s, Hub.Notify(k)), Store.Begin(Reporting(s, k, id)));
    case Echo(_) =>
    case Arrive(j) => RvPart(n, s, Rendezvous.Arrive(s.emitted[j].req));
    case Wait(e') => RvPart(n, s, e');
    case Act(ok) => RvPart(n, Routed(s, ok), Rendezvous.Act);
    case Join(w) => HubPart(n, s, Hub.Join(Joining(s, w)));
    case Sockets(e') => HubPart(n, s, e');
  }
}
