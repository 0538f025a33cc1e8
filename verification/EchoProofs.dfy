/** What the wiring keeps, part by part, up to the promise of the echo: nobody else's words, and no word twice. */
module EchoProofs {
  import opened Messages
  import Store
  import StoreConservation
  import Rendezvous
  import Hub
  import EchoBackend
  import opened EchoSystem

  // ----- Histories only grow -----

  ghost predicate StoreGrown(s: Store.State, s': Store.State) {
    s.hist.begun <= s'.hist.begun && s.hist.written <= s'.hist.written
  }

  ghost predicate RvGrown(s: Rendezvous.State, s': Rendezvous.State) {
    && |s.waiters| <= |s'.waiters|
    && (forall w | 0 <= w < |s.waiters| ::
          && s'.waiters[w].id == s.waiters[w].id
          && (Rendezvous.WasWritten(s.waiters[w].pc) ==> Rendezvous.WasWritten(s'.waiters[w].pc))
          && (s.waiters[w].pc.Returned? || s.waiters[w].pc.Failed? ==> s'.waiters[w].pc == s.waiters[w].pc))
    && s.arrived <= s'.arrived
    && Rendezvous.LookedUp(s) <= Rendezvous.LookedUp(s')
  }

  ghost predicate HubGrown(s: Hub.State, s': Hub.State) {
    s.registered <= s'.registered
  }

  ghost predicate Grown(s: State, s': State) {
    && StoreGrown(s.store, s'.store) && RvGrown(s.rv, s'.rv) && HubGrown(s.hub, s'.hub)
    && s.consumed <= s'.consumed && s.emitted <= s'.emitted && s.arrived <= s'.arrived
    && s.origin <= s'.origin && s.sent <= s'.sent && s.received <= s'.received
    && (forall c :: Counter(s, c) <= Counter(s', c))
  }

  lemma StoreGrows(s: Store.State, e: Store.Event)
    requires Store.Enabled(s, e)
    ensures StoreGrown(s, Store.Apply(s, e))
  {
  }

  lemma RvGrows(s: Rendezvous.State, e: Rendezvous.Event)
    requires Rendezvous.Queues(s) && Rendezvous.Enabled(s, e)
    ensures RvGrown(s, Rendezvous.Apply(s, e))
  {
  }

  lemma HubGrows(s: Hub.State, e: Hub.Event)
    requires Hub.Enabled(s, e)
    ensures HubGrown(s, Hub.Apply(s, e))
  {
  }

  lemma RvFacts(n: nat, s: State)
    requires Parts(n, s)
    ensures Rendezvous.Inv(s.rv)
  {
    Rendezvous.InvHolds(s.rvRun, s.rv);
  }

  /** A state has grown into itself. */
  lemma Still(s: State)
    ensures StoreGrown(s.store, s.store) && RvGrown(s.rv, s.rv) && HubGrown(s.hub, s.hub)
  {
  }

  lemma EchoGrows(s: State, k: nat)
    requires Enabled(s, Echo(k))
    ensures Grown(s, Echoed(s, k))
  {
    Still(s);
    hide StoreGrown;
    hide RvGrown;
    hide HubGrown;
  }

  /** The other steps leave the backends' counters alone. */
  lemma PartsGrow(s: State, s': State)
    requires StoreGrown(s.store, s'.store) && RvGrown(s.rv, s'.rv) && HubGrown(s.hub, s'.hub)
    requires s'.counters == s.counters && s'.consumed == s.consumed && s'.emitted == s.emitted
    requires s.arrived <= s'.arrived && s.origin <= s'.origin && s.sent <= s'.sent && s.received <= s'.received
    ensures Grown(s, s')
  {
  }

  lemma ReportGrows(s: State, k: nat, id: RequestId)
    requires Enabled(s, Report(k, id))
    ensures var s' := Apply(s, Report(k, id));
      StoreGrown(s.store, s'.store) && HubGrown(s.hub, s'.hub)
  {
    StoreGrows(s.store, Store.Begin(Reporting(s, k, id)));
    HubGrows(s.hub, Hub.Notify(k));
  }

  /** The steps of the server, in which histories of the store grow. */
  lemma ServerGrows(n: nat, s: State, e: Event)
    requires Parts(n, s) && Enabled(s, e)
    requires e.Ask? || e.Asked? || e.Server? || e.Say? || e.Complain? || e.Welcome? || e.Report?
    ensures Grown(s, Apply(s, e))
  {
    hide Store.Apply;
    hide Store.Enabled;
    hide Rendezvous.Apply;
    hide Rendezvous.Enabled;
    hide Hub.Apply;
    hide Hub.Enabled;
    RvFacts(n, s);
    Still(s);
    hide StoreGrown;
    hide RvGrown;
    hide HubGrown;
    hide Grown;
    match e {
      case Ask(w) => StoreGrows(s.store, Store.Begin(Asking(s, w)));
      case Asked(w, r) =>
        StoreGrows(s.store, r);
        RvGrows(s.rv, if r.WriteOk? then Rendezvous.SendOk(w) else Rendezvous.SendErr(w));
      case Server(r) => StoreGrows(s.store, r);
      case Say(c, id, text) => StoreGrows(s.store, Store.Begin(Saying(s, c, id, text)));
      case Complain(_, id) => StoreGrows(s.store, Store.Begin(BackendRequest(id, ErrorReport)));
      case Welcome(c, id) => StoreGrows(s.store, Store.Begin(Welcoming(s, c, id)));
      case Report(k, id) => ReportGrows(s, k, id);
    }
    PartsGrow(s, Apply(s, e));
  }

  lemma OthersGrow(n: nat, s: State, e: Event)
    requires Parts(n, s) && Enabled(s, e)
    requires e.Connect? || e.Arrive? || e.Wait? || e.Act? || e.Join? || e.Sockets?
    ensures Grown(s, Apply(s, e))
  {
    hide Store.Apply;
    hide Store.Enabled;
    hide Rendezvous.Apply;
    hide Rendezvous.Enabled;
    hide Hub.Apply;
    hide Hub.Enabled;
    RvFacts(n, s);
    Still(s);
    hide StoreGrown;
    hide RvGrown;
    hide HubGrown;
    hide Grown;
    match e {
      case Connect(id) => RvGrows(s.rv, Rendezvous.Call(id));
      case Arrive(j) => RvGrows(s.rv, Rendezvous.Arrive(s.emitted[j].req));
      case Wait(r) => RvGrows(s.rv, r);
      case Act(_) => RvGrows(s.rv, Rendezvous.Act);
      case Join(w) => HubGrows(s.hub, Hub.Join(Joining(s, w)));
      case Sockets(r) => HubGrows(s.hub, r);
    }
    PartsGrow(s, Apply(s, e));
  }

  lemma Grows(n: nat, s: State, e: Event)
    requires Parts(n, s) && Enabled(s, e)
    ensures Grown(s, Apply(s, e))
  {
    hide Parts;
    hide Grown;
    match e
    case Echo(k) => EchoGrows(s, k);
    case Connect(_) => OthersGrow(n, s, e);
    case Arrive(_) => OthersGrow(n, s, e);
    case Wait(_) => OthersGrow(n, s, e);
    case Act(_) => OthersGrow(n, s, e);
    case Join(_) => OthersGrow(n, s, e);
    case Sockets(_) => OthersGrow(n, s, e);
    case _ => ServerGrows(n, s, e);
  }

  // ----- Backends answer what was written, once -----

  /** E is the answer to the write it names. */
  ghost predicate Answers(s: State, E: Emission) {
    && E.src in s.consumed && E.src < |s.store.hist.written|
    && E.conn == s.store.hist.written[E.src].conn
    && var m := s.store.hist.written[E.src].msg;
       match m.action
       case ConnectionRequest =>
         && 1 <= E.counter <= Counter(s, E.conn)
         && var client := EchoBackend.ClientId(E.conn, E.counter);
            E.req == ServerRequest(m.requestID, Response(true, client, EchoBackend.ROOM))
       case NewMessage(client, message) =>
         E.req == ServerRequest(m.requestID, MessageToConnection(client, message))
       case _ => false
  }

  /** Two answers have different writes, and different counters when both approve connections. */
  ghost predicate Apart(E: Emission, F: Emission) {
    && E.src != F.src
    && (E.conn == F.conn && E.req.action.Response? && F.req.action.Response? ==> E.counter != F.counter)
  }

  ghost predicate Emissions(s: State) {
    && (forall j | 0 <= j < |s.emitted| :: Answers(s, s.emitted[j]))
    && (forall i, j | 0 <= i < j < |s.emitted| :: Apart(s.emitted[i], s.emitted[j]))
  }

  lemma AnswersGrow(s: State, s': State, E: Emission)
    requires Grown(s, s') && Answers(s, E)
    ensures Answers(s', E)
  {
  }

  lemma EmissionsKept(s: State, s': State)
    requires Emissions(s) && Grown(s, s') && s'.emitted == s.emitted
    ensures Emissions(s')
  {
    forall j | 0 <= j < |s'.emitted|
      ensures Answers(s', s'.emitted[j])
    {
      AnswersGrow(s, s', s.emitted[j]);
    }
  }

  lemma EchoApart(s: State, k: nat, j: nat)
    requires Emissions(s) && Enabled(s, Echo(k)) && j < |s.emitted|
    requires |Echoed(s, k).emitted| == |s.emitted| + 1
    ensures Apart(s.emitted[j], Echoed(s, k).emitted[|s.emitted|])
  {
    assert Answers(s, s.emitted[j]);
  }

  lemma EchoEmissions(s: State, k: nat)
    requires Emissions(s) && Enabled(s, Echo(k)) && Grown(s, Echoed(s, k))
    ensures Emissions(Echoed(s, k))
  {
    var s' := Echoed(s, k);
    forall j | 0 <= j < |s.emitted|
      ensures Answers(s', s.emitted[j])
    {
      AnswersGrow(s, s', s.emitted[j]);
    }
    if |s'.emitted| > |s.emitted| {
      assert Answers(s', s'.emitted[|s.emitted|]);
      forall j | 0 <= j < |s.emitted|
        ensures Apart(s'.emitted[j], s'.emitted[|s.emitted|])
      {
        EchoApart(s, k, j);
      }
    }
  }

  /** What a backend answers to a text, and to a connection request, and to nothing else. */
  lemma EchoesText(s: State, k: nat, id: RequestId, client: string, text: string)
    requires Enabled(s, Echo(k)) && s.store.hist.written[k].msg == BackendRequest(id, NewMessage(client, text))
    ensures var s' := Apply(s, Echo(k));
      && s'.emitted[..|s'.emitted| - 1] == s.emitted && |s'.emitted| == |s.emitted| + 1
      && s'.emitted[|s.emitted|].req == ServerRequest(id, MessageToConnection(client, text))
      && s'.emitted[|s.emitted|].conn == s.store.hist.written[k].conn
      && forall c :: Counter(s', c) == Counter(s, c)
  {
  }

  lemma ApprovesRequest(s: State, k: nat, id: RequestId)
    requires Enabled(s, Echo(k)) && s.store.hist.written[k].msg == BackendRequest(id, ConnectionRequest)
    ensures var s', c := Apply(s, Echo(k)), s.store.hist.written[k].conn;
      && s'.emitted[..|s'.emitted| - 1] == s.emitted && |s'.emitted| == |s.emitted| + 1
      && Counter(s', c) == Counter(s, c) + 1 && s'.emitted[|s.emitted|].conn == c
      && var client := "go-backend-" + EchoBackend.Decimal(c) + "-client-" + EchoBackend.Decimal(Counter(s', c));
         s'.emitted[|s.emitted|].req == ServerRequest(id, Response(true, client, "load-test"))
  {
    hide EchoBackend.Decimal;
  }

  lemma IgnoresOthers(s: State, k: nat)
    requires Enabled(s, Echo(k))
    requires var action := s.store.hist.written[k].msg.action; !action.NewMessage? && !action.ConnectionRequest?
    ensures Apply(s, Echo(k)).emitted == s.emitted
  {
  }

  lemma EmissionsStep(n: nat, s: State, e: Event)
    requires Parts(n, s) && Emissions(s) && Enabled(s, e)
    ensures Emissions(Apply(s, e))
  {
    Grows(n, s, e);
    hide Emissions;
    hide Grown;
    if e.Echo? {
      EchoEmissions(s, e.k);
    } else {
      assert Apply(s, e).emitted == s.emitted;
      EmissionsKept(s, Apply(s, e));
    }
  }

  /** Two answers carry different request IDs, and approve different client IDs. */
  lemma EmissionsDiffer(n: nat, s: State, i: nat, j: nat)
    requires Parts(n, s) && Emissions(s) && i < j < |s.emitted|
    ensures s.emitted[i].req.requestID != s.emitted[j].req.requestID
    ensures s.emitted[i].req.action.Response? && s.emitted[j].req.action.Response? ==>
              s.emitted[i].req.action.clientID != s.emitted[j].req.action.clientID
  {
    var E, F := s.emitted[i], s.emitted[j];
    assert Answers(s, E) && Answers(s, F) && Apart(E, F);
    StoreConservation.AtMostOnce(n, s.storeRun, s.store);
    hide EchoBackend.ClientId;
    if E.req.action.Response? && F.req.action.Response? && E.req.action.clientID == F.req.action.clientID {
      EchoBackend.ClientIdsUnique(E.conn, E.counter, F.conn, F.counter);
    }
  }

  // ----- What arrives was emitted, once -----

  ghost predicate DistinctRequests(qs: seq<ServerRequest>) {
    forall i, j | 0 <= i < j < |qs| :: qs[i].requestID != qs[j].requestID
  }

  ghost predicate Emitted(s: State, q: ServerRequest) {
    exists j :: 0 <= j < |s.emitted| && j in s.arrived && s.emitted[j].req == q
  }

  ghost predicate Arrivals(s: State) {
    && (forall q | q in s.rv.arrived :: Emitted(s, q))
    && DistinctRequests(s.rv.arrived)
  }

  lemma EmittedGrows(s: State, s': State, q: ServerRequest)
    requires Grown(s, s') && Emitted(s, q)
    ensures Emitted(s', q)
  {
    var j :| 0 <= j < |s.emitted| && j in s.arrived && s.emitted[j].req == q;
    assert s'.emitted[j].req == q;
  }

  /** Only Arrive brings in something new. */
  lemma ArrivedUnchanged(s: State, e: Event)
    requires Enabled(s, e) && !e.Arrive?
    ensures Apply(s, e).rv.arrived == s.rv.arrived && Apply(s, e).arrived == s.arrived
  {
  }

  lemma ArrivalsKept(s: State, s': State)
    requires Arrivals(s) && Grown(s, s') && s'.rv.arrived == s.rv.arrived
    ensures Arrivals(s')
  {
    forall q | q in s'.rv.arrived
      ensures Emitted(s', q)
    {
      EmittedGrows(s, s', q);
    }
  }

  lemma ArriveEffect(s: State, j: nat)
    requires Enabled(s, Arrive(j))
    ensures var s' := Apply(s, Arrive(j));
      s'.rv.arrived == s.rv.arrived + [s.emitted[j].req] && s'.arrived == s.arrived + {j} && s'.emitted == s.emitted
  {
  }

  /** What has arrived before does not carry the ID of the j-th emission, which has not. */
  lemma NotArrived(n: nat, s: State, j: nat, q: ServerRequest)
    requires Parts(n, s) && Emissions(s) && Arrivals(s)
    requires j < |s.emitted| && j !in s.arrived && q in s.rv.arrived
    ensures q.requestID != s.emitted[j].req.requestID
  {
    assert Emitted(s, q);
    var i :| 0 <= i < |s.emitted| && i in s.arrived && s.emitted[i].req == q;
    if i < j {
      EmissionsDiffer(n, s, i, j);
    } else {
      EmissionsDiffer(n, s, j, i);
    }
  }

  lemma ArriveArrivals(n: nat, s: State, j: nat)
    requires Parts(n, s) && Emissions(s) && Arrivals(s) && Enabled(s, Arrive(j)) && Grown(s, Apply(s, Arrive(j)))
    ensures Arrivals(Apply(s, Arrive(j)))
  {
    hide Parts;
    hide Emissions;
    var s' := Apply(s, Arrive(j));
    ArriveEffect(s, j);
    assert j < |s.emitted| && j !in s.arrived;
    hide Apply;
    hide Enabled;
    forall q | q in s'.rv.arrived
      ensures Emitted(s', q)
    {
      if q in s.rv.arrived {
        EmittedGrows(s, s', q);
      }
    }
    forall i | 0 <= i < |s.rv.arrived|
      ensures s.rv.arrived[i].requestID != s.emitted[j].req.requestID
    {
      NotArrived(n, s, j, s.rv.arrived[i]);
    }
  }

  lemma ArrivalsStep(n: nat, s: State, e: Event)
    requires Parts(n, s) && Emissions(s) && Arrivals(s) && Enabled(s, e)
    ensures Arrivals(Apply(s, e))
  {
    Grows(n, s, e);
    if e.Arrive? {
      ArriveArrivals(n, s, e.j);
    } else {
      ArrivedUnchanged(s, e);
      hide Arrivals;
      hide Grown;
      ArrivalsKept(s, Apply(s, e));
    }
  }
}
