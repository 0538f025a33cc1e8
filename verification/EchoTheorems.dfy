/**
 The promises of the composed system: each request is answered at most once, client IDs are fresh, and
 every client receives only texts it sent itself, each at most as often as it sent it.
 */
module EchoTheorems {
  import opened Sequences
  import opened Messages
  import Store
  import StoreConservation
  import Rendezvous
  import Hub
  import HubFaults
  import RoomIndex
  import opened EchoSystem
  import opened EchoProofs

  // ----- Written connection requests belong to callers that wait -----

  ghost predicate Requested(s: Rendezvous.State, id: RequestId) {
    exists w :: 0 <= w < |s.waiters| && s.waiters[w].id == id && Rendezvous.WasWritten(s.waiters[w].pc)
  }

  ghost predicate Pending(s: Rendezvous.State, id: RequestId) {
    exists w :: 0 <= w < |s.waiters| && s.waiters[w].id == id && s.waiters[w].pc.Registered?
  }

  predicate Asks(th: Store.Thread) {
    th.Sender? && th.msg.action.ConnectionRequest?
  }

  ghost predicate Requests(s: State) {
    && (forall k | 0 <= k < |s.store.hist.written| && s.store.hist.written[k].msg.action.ConnectionRequest? ::
          Requested(s.rv, s.store.hist.written[k].msg.requestID))
    && (forall t | 0 <= t < |s.store.threads| && Asks(s.store.threads[t]) ::
          Pending(s.rv, s.store.threads[t].msg.requestID))
  }

  lemma RequestedGrows(s: Rendezvous.State, s': Rendezvous.State, id: RequestId)
    requires RvGrown(s, s') && Requested(s, id)
    ensures Requested(s', id)
  {
    var w :| 0 <= w < |s.waiters| && s.waiters[w].id == id && Rendezvous.WasWritten(s.waiters[w].pc);
    assert s'.waiters[w].id == id && Rendezvous.WasWritten(s'.waiters[w].pc);
  }

  /** A caller's entry stays pending, except when it is the one whose sendMessage returns. */
  lemma PendingStays(s: Rendezvous.State, e: Rendezvous.Event, id: RequestId)
    requires Rendezvous.Enabled(s, e) && Pending(s, id)
    requires e.SendOk? || e.SendErr? ==> s.waiters[e.w].id != id
    ensures Pending(Rendezvous.Apply(s, e), id)
  {
    var w :| 0 <= w < |s.waiters| && s.waiters[w].id == id && s.waiters[w].pc.Registered?;
    assert Rendezvous.Apply(s, e).waiters[w].id == id;
  }

  /** What a region of the server writes, and which threads it leaves asking. */
  lemma RegionAsks(n: nat, es: seq<Store.Event>, s: Store.State, e: Store.Event)
    requires Store.Reaches(n, es, s) && Store.Enabled(s, e)
    ensures var s' := Store.Apply(s, e);
      && (s'.hist.written == s.hist.written
          || (s'.hist.written[..|s'.hist.written| - 1] == s.hist.written && |s'.hist.written| == |s.hist.written| + 1
              && var m := s'.hist.written[|s.hist.written|].msg;
                 m.action.ConnectionRequest? ==>
                   e.WriteOk? && Settles(s, e) && m == s.threads[e.t].msg))
      && (forall t | 0 <= t < |s'.threads| && Asks(s'.threads[t]) ::
            if t < |s.threads| then
              Asks(s.threads[t]) && s.threads[t].msg == s'.threads[t].msg && !(Settles(s, e) && e.t == t)
            else e == Store.Begin(s'.threads[t].msg))
  {
    StoreConservation.FitsHolds(n, es, s);
    if e.WriteOk? && s.threads[e.t].Flush? {
      assert StoreConservation.ThreadFits(n, s.threads[e.t]);
      assert s.threads[e.t].rest[0] in Store.Rest(s.threads[e.t]);
    }
  }

  /** Two unfinished sendMessage calls have different messages. */
  lemma CallsDiffer(n: nat, es: seq<Store.Event>, s: Store.State, t: nat, u: nat)
    requires Store.Reaches(n, es, s) && t < |s.threads| && u < |s.threads| && t != u
    requires s.threads[t].Sender? && s.threads[u].Sender?
    ensures s.threads[t].msg != s.threads[u].msg
  {
    var m := s.threads[t].msg;
    StoreConservation.BalancedHolds(n, es, s, m);
    StoreConservation.BegunCounts(s, m);
    Store.HeldOnce(s.threads, if t < u then t else u, if t < u then u else t, false, m);
  }

  /** A step that starts no connection request and settles none, with any step of the rendezvous but a return. */
  lemma RegionRequests(n: nat, s: State, r: Store.Event, s': State)
    requires Parts(n, s) && Requests(s) && Store.Enabled(s.store, r)
    requires !Settles(s.store, r) && (r.Begin? ==> !r.msg.action.ConnectionRequest?)
    requires s'.store == Store.Apply(s.store, r) && s'.rv == s.rv
    ensures Requests(s')
  {
    RegionAsks(n, s.storeRun, s.store, r);
    hide Store.Apply;
    hide Store.Enabled;
    hide Store.Run;
    hide Settles;
    hide Requested;
    hide Pending;
    hide Parts;
    forall t | 0 <= t < |s'.store.threads| && Asks(s'.store.threads[t])
      ensures Pending(s'.rv, s'.store.threads[t].msg.requestID)
    {
      assert t < |s.store.threads| && Asks(s.store.threads[t]);
    }
    forall k | 0 <= k < |s'.store.hist.written| && s'.store.hist.written[k].msg.action.ConnectionRequest?
      ensures Requested(s'.rv, s'.store.hist.written[k].msg.requestID)
    {
      assert k < |s.store.hist.written| && s.store.hist.written[k] == s'.store.hist.written[k];
    }
  }

  lemma AskRequests(n: nat, s: State, w: nat)
    requires Parts(n, s) && Requests(s) && Enabled(s, Ask(w))
    ensures Requests(Apply(s, Ask(w)))
  {
    var s' := Apply(s, Ask(w));
    assert s'.store.threads == s.store.threads + [Store.Sender(Asking(s, w), Store.Picking)];
    assert s'.store.hist.written == s.store.hist.written && s'.rv == s.rv;
    assert Pending(s.rv, s.rv.waiters[w].id);
    hide Store.Apply;
    hide Store.Enabled;
  }

  /** The caller whose request settles, and nobody else, stops being pending. */
  lemma AskedPending(n: nat, s: State, w: nat, r: Store.Event, t: nat)
    requires Parts(n, s) && Requests(s) && Enabled(s, Asked(w, r)) && Rendezvous.Entries(s.rv)
    requires t < |Apply(s, Asked(w, r)).store.threads| && Asks(Apply(s, Asked(w, r)).store.threads[t])
    ensures Pending(Apply(s, Asked(w, r)).rv, Apply(s, Asked(w, r)).store.threads[t].msg.requestID)
  {
    var e := if r.WriteOk? then Rendezvous.SendOk(w) else Rendezvous.SendErr(w);
    RegionAsks(n, s.storeRun, s.store, r);
    assert t < |s.store.threads| && t != r.t;
    CallsDiffer(n, s.storeRun, s.store, t, r.t);
    var m := s.store.threads[t].msg;
    assert m.requestID != s.rv.waiters[w].id;
    PendingStays(s.rv, e, m.requestID);
  }

  lemma AskedRequests(n: nat, s: State, w: nat, r: Store.Event)
    requires Parts(n, s) && Requests(s) && Enabled(s, Asked(w, r))
    ensures Requests(Apply(s, Asked(w, r)))
  {
    var s' := Apply(s, Asked(w, r));
    Grows(n, s, Asked(w, r));
    RvFacts(n, s);
    RegionAsks(n, s.storeRun, s.store, r);
    forall t | 0 <= t < |s'.store.threads| && Asks(s'.store.threads[t])
      ensures Pending(s'.rv, s'.store.threads[t].msg.requestID)
    {
      AskedPending(n, s, w, r, t);
    }
    forall k | 0 <= k < |s'.store.hist.written| && s'.store.hist.written[k].msg.action.ConnectionRequest?
      ensures Requested(s'.rv, s'.store.hist.written[k].msg.requestID)
    {
      if k < |s.store.hist.written| {
        RequestedGrows(s.rv, s'.rv, s.store.hist.written[k].msg.requestID);
      } else {
        assert s'.rv.waiters[w].id == s.rv.waiters[w].id && Rendezvous.WasWritten(s'.rv.waiters[w].pc);
      }
    }
  }

  lemma WaitRequests(s: State, e: Rendezvous.Event, s': State)
    requires Requests(s) && Rendezvous.Queues(s.rv) && Rendezvous.Enabled(s.rv, e)
    requires !e.SendOk? && !e.SendErr?
    requires s'.store == s.store && s'.rv == Rendezvous.Apply(s.rv, e)
    ensures Requests(s')
  {
    RvGrows(s.rv, e);
    forall k | 0 <= k < |s.store.hist.written| && s.store.hist.written[k].msg.action.ConnectionRequest?
      ensures Requested(s'.rv, s.store.hist.written[k].msg.requestID)
    {
      RequestedGrows(s.rv, s'.rv, s.store.hist.written[k].msg.requestID);
    }
    forall t | 0 <= t < |s.store.threads| && Asks(s.store.threads[t])
      ensures Pending(s'.rv, s.store.threads[t].msg.requestID)
    {
      PendingStays(s.rv, e, s.store.threads[t].msg.requestID);
    }
  }

  lemma SameRequests(s: State, s': State)
    requires Requests(s) && s'.store == s.store && s'.rv == s.rv
    ensures Requests(s')
  {
  }

  /** The steps of the rendezvous that leave the server alone. */
  lemma WaitingRequests(n: nat, s: State, e: Event)
    requires Parts(n, s) && Requests(s) && Enabled(s, e)
    requires e.Connect? || e.Arrive? || e.Wait? || e.Act?
    ensures Requests(Apply(s, e))
  {
    RvFacts(n, s);
    var s' := Apply(s, e);
    hide Requests;
    match e
    case Connect(id) => WaitRequests(s, Rendezvous.Call(id), s');
    case Arrive(j) => WaitRequests(s, Rendezvous.Arrive(s.emitted[j].req), s');
    case Wait(r) => WaitRequests(s, r, s');
    case Act(_) => WaitRequests(s, Rendezvous.Act, s');
  }

  /** The callbacks start no connection request. */
  lemma ComplainRequests(n: nat, s: State, w: nat, id: RequestId)
    requires Parts(n, s) && Requests(s) && Enabled(s, Complain(w, id))
    ensures Requests(Apply(s, Complain(w, id)))
  {
    hide Requests;
    hide Parts;
    RegionRequests(n, s, Store.Begin(BackendRequest(id, ErrorReport)), Apply(s, Complain(w, id)));
  }

  lemma WelcomeRequests(n: nat, s: State, c: nat, id: RequestId)
    requires Parts(n, s) && Requests(s) && Enabled(s, Welcome(c, id))
    ensures Requests(Apply(s, Welcome(c, id)))
  {
    hide Requests;
    hide Parts;
    RegionRequests(n, s, Store.Begin(Welcoming(s, c, id)), Apply(s, Welcome(c, id)));
  }

  lemma ReportRequests(n: nat, s: State, k: nat, id: RequestId)
    requires Parts(n, s) && Requests(s) && Enabled(s, Report(k, id))
    ensures Requests(Apply(s, Report(k, id)))
  {
    hide Requests;
    hide Parts;
    RegionRequests(n, s, Store.Begin(Reporting(s, k, id)), Apply(s, Report(k, id)));
  }

  /** Neither do texts, and the other regions of the server settle none. */
  lemma ServerRequests(n: nat, s: State, e: Event)
    requires Parts(n, s) && Requests(s) && Enabled(s, e)
    requires e.Server? || e.Say?
    ensures Requests(Apply(s, e))
  {
    var s' := Apply(s, e);
    hide Requests;
    hide Parts;
    match e
    case Server(r) => RegionRequests(n, s, r, s');
    case Say(c, id, text) => RegionRequests(n, s, Store.Begin(Saying(s, c, id, text)), s');
  }

  lemma RequestsStep(n: nat, s: State, e: Event)
    requires Parts(n, s) && Requests(s) && Enabled(s, e)
    ensures Requests(Apply(s, e))
  {
    hide Requests;
    hide Parts;
    match e
    case Ask(w) => AskRequests(n, s, w);
    case Asked(w, r) => AskedRequests(n, s, w, r);
    case Connect(_) => WaitingRequests(n, s, e);
    case Arrive(_) => WaitingRequests(n, s, e);
    case Wait(_) => WaitingRequests(n, s, e);
    case Act(_) => WaitingRequests(n, s, e);
    case Echo(_) => SameRequests(s, Apply(s, e));
    case Join(_) => SameRequests(s, Apply(s, e));
    case Sockets(_) => SameRequests(s, Apply(s, e));
    case Server(_) => ServerRequests(n, s, e);
    case Say(_, _, _) => ServerRequests(n, s, e);
    case Complain(w, id) => ComplainRequests(n, s, w, id);
    case Welcome(c, id) => WelcomeRequests(n, s, c, id);
    case Report(k, id) => ReportRequests(n, s, k, id);
  }

  // ----- Every text in the system was said by a client -----

  ghost predicate Said(s: State, m: BackendRequest)
    requires m.action.NewMessage?
  {
    exists x :: x in s.sent && x.id == m.requestID && x.text == m.action.message
                && x.conn < |s.hub.registered| && s.hub.registered[x.conn].clientID == m.action.clientID
  }

  /** The text has been given to sendMessage, for the client that said it. */
  ghost predicate Forwarded(s: State, x: Text) {
    && x.conn < |s.hub.registered|
    && BackendRequest(x.id, NewMessage(s.hub.registered[x.conn].clientID, x.text)) in s.store.hist.begun
  }

  ghost predicate DistinctTexts(xs: seq<Text>) {
    forall i, j | 0 <= i < j < |xs| :: xs[i].id != xs[j].id
  }

  ghost predicate Sayings(s: State) {
    && (forall m | m in s.store.hist.begun && m.action.NewMessage? :: Said(s, m))
    && (forall x | x in s.sent :: Forwarded(s, x))
    && DistinctTexts(s.sent)
  }

  lemma SaidGrows(s: State, s': State, m: BackendRequest)
    requires Grown(s, s') && m.action.NewMessage? && Said(s, m)
    ensures Said(s', m)
  {
    var x :| x in s.sent && x.id == m.requestID && x.text == m.action.message
             && x.conn < |s.hub.registered| && s.hub.registered[x.conn].clientID == m.action.clientID;
    assert x in s'.sent;
  }

  /** A step that begins no text. */
  lemma SayingsKept(s: State, s': State)
    requires Sayings(s) && Grown(s, s') && s'.sent == s.sent
    requires forall m | m in s'.store.hist.begun :: m in s.store.hist.begun || !m.action.NewMessage?
    ensures Sayings(s')
  {
    forall m | m in s'.store.hist.begun && m.action.NewMessage?
      ensures Said(s', m)
    {
      SaidGrows(s, s', m);
    }
    forall x | x in s'.sent
      ensures Forwarded(s', x)
    {
      assert Forwarded(s, x);
    }
  }

  lemma SayEffect(s: State, c: nat, id: RequestId, text: string)
    requires Enabled(s, Say(c, id, text))
    ensures var s', m := Apply(s, Say(c, id, text)), Saying(s, c, id, text);
      && c < |s.hub.registered| && s'.hub == s.hub
      && m == BackendRequest(id, NewMessage(s.hub.registered[c].clientID, text))
      && s'.store.hist.begun == s.store.hist.begun + [m] && s'.sent == s.sent + [Text(id, c, text)]
      && forall b | b in s.store.hist.begun :: b.requestID != id
  {
  }

  lemma SaySayings(s: State, c: nat, id: RequestId, text: string)
    requires Sayings(s) && Enabled(s, Say(c, id, text)) && Grown(s, Apply(s, Say(c, id, text)))
    ensures Sayings(Apply(s, Say(c, id, text)))
  {
    var s' := Apply(s, Say(c, id, text));
    var m, x := Saying(s, c, id, text), Text(id, c, text);
    SayEffect(s, c, id, text);
    hide Store.Apply;
    hide Store.Enabled;
    hide Apply;
    hide Enabled;
    hide Saying;
    assert x in s'.sent;
    forall b | b in s'.store.hist.begun && b.action.NewMessage?
      ensures Said(s', b)
    {
      if b in s.store.hist.begun {
        SaidGrows(s, s', b);
      }
    }
    hide Grown;
    forall y | y in s'.sent
      ensures Forwarded(s', y)
    {
      assert y in s.sent ==> Forwarded(s, y);
    }
    forall i | 0 <= i < |s.sent|
      ensures s.sent[i].id != id
    {
      assert s.sent[i] in s.sent && Forwarded(s, s.sent[i]);
    }
  }

  /** Only these steps begin a sendMessage, and only Say begins a text. */
  lemma BegunEffect(s: State, e: Event)
    requires Enabled(s, e) && !e.Say?
    ensures var s' := Apply(s, e);
      && s'.sent == s.sent
      && (s'.store.hist.begun == s.store.hist.begun
          || exists m :: s'.store.hist.begun == s.store.hist.begun + [m] && !m.action.NewMessage?)
  {
    match e
    case Ask(w) => assert Apply(s, e).store.hist.begun == s.store.hist.begun + [Asking(s, w)];
    case Complain(_, id) =>
      assert Apply(s, e).store.hist.begun == s.store.hist.begun + [BackendRequest(id, ErrorReport)];
    case Welcome(c, id) => assert Apply(s, e).store.hist.begun == s.store.hist.begun + [Welcoming(s, c, id)];
    case Report(k, id) => assert Apply(s, e).store.hist.begun == s.store.hist.begun + [Reporting(s, k, id)];
    case _ =>
  }

  lemma SayingsStep(n: nat, s: State, e: Event)
    requires Parts(n, s) && Sayings(s) && Enabled(s, e)
    ensures Sayings(Apply(s, e))
  {
    Grows(n, s, e);
    hide Sayings;
    hide Grown;
    if e.Say? {
      SaySayings(s, e.conn, e.id, e.text);
    } else {
      BegunEffect(s, e);
      hide Apply;
      hide Enabled;
      SayingsKept(s, Apply(s, e));
    }
  }

  // ----- Every registered client comes from its own approved call -----

  ghost predicate FromCall(s: State, c: nat)
    requires c < |s.hub.registered| && c < |s.origin|
  {
    && s.origin[c] < |s.rv.waiters|
    && var pc := s.rv.waiters[s.origin[c]].pc;
       && pc.Returned? && pc.resp.action.Response? && pc.resp.action.accepted
       && pc.resp.action.clientID == s.hub.registered[c].clientID
       && pc.resp.action.roomID == s.hub.registered[c].roomID
  }

  ghost predicate Origins(s: State) {
    && |s.origin| == |s.hub.registered|
    && NoDuplicates(s.origin)
    && (forall c | 0 <= c < |s.origin| :: FromCall(s, c))
  }

  lemma RegisteredEffect(s: State, e: Event)
    requires Enabled(s, e) && !e.Join?
    ensures Apply(s, e).hub.registered == s.hub.registered && Apply(s, e).origin == s.origin
  {
  }

  lemma OriginsKept(s: State, s': State)
    requires Origins(s) && Grown(s, s')
    requires s'.hub.registered == s.hub.registered && s'.origin == s.origin
    ensures Origins(s')
  {
    forall c | 0 <= c < |s'.origin|
      ensures FromCall(s', c)
    {
      assert FromCall(s, c);
    }
  }

  lemma JoinOrigins(s: State, w: nat)
    requires Origins(s) && Enabled(s, Join(w))
    ensures Origins(Apply(s, Join(w)))
  {
    var s' := Apply(s, Join(w));
    assert s'.hub.registered == s.hub.registered + [Joining(s, w)] && s'.origin == s.origin + [w];
    assert s'.rv == s.rv;
    assert s.rv.waiters[w].pc.Returned? && s.rv.waiters[w].pc.resp.action.Response? && w !in s.origin;
    assert s.rv.waiters[w].pc.resp.action.accepted;
    assert Joining(s, w).clientID == s.rv.waiters[w].pc.resp.action.clientID;
    assert Joining(s, w).roomID == s.rv.waiters[w].pc.resp.action.roomID;
    hide Apply;
    hide Enabled;
    hide Joining;
    forall c | 0 <= c < |s'.origin|
      ensures FromCall(s', c)
    {
      if c < |s.origin| {
        assert FromCall(s, c);
      }
    }
  }

  lemma OriginsStep(n: nat, s: State, e: Event)
    requires Parts(n, s) && Origins(s) && Enabled(s, e)
    ensures Origins(Apply(s, e))
  {
    Grows(n, s, e);
    hide Origins;
    hide Grown;
    if e.Join? {
      JoinOrigins(s, e.w);
    } else {
      RegisteredEffect(s, e);
      hide Apply;
      hide Enabled;
      OriginsKept(s, Apply(s, e));
    }
  }

  // ----- Every text received was looked up once, for the client it names -----

  ghost predicate Delivered(s: State, x: Text) {
    exists q :: q in Rendezvous.LookedUp(s.rv) && q.requestID == x.id
                && q.action.MessageToConnection? && q.action.message == x.text
                && x.conn < |s.hub.registered| && s.hub.registered[x.conn].clientID == q.action.connID
  }

  ghost predicate Receipts(s: State) {
    (forall x | x in s.received :: Delivered(s, x)) && DistinctTexts(s.received)
  }

  lemma DeliveredGrows(s: State, s': State, x: Text)
    requires Grown(s, s') && Delivered(s, x)
    ensures Delivered(s', x)
  {
    var q :| q in Rendezvous.LookedUp(s.rv) && q.requestID == x.id
             && q.action.MessageToConnection? && q.action.message == x.text
             && x.conn < |s.hub.registered| && s.hub.registered[x.conn].clientID == q.action.connID;
    assert q in Rendezvous.LookedUp(s'.rv);
  }

  lemma ReceiptsKept(s: State, s': State)
    requires Receipts(s) && Grown(s, s') && s'.received == s.received
    ensures Receipts(s')
  {
    forall x | x in s'.received
      ensures Delivered(s', x)
    {
      DeliveredGrows(s, s', x);
    }
  }

  lemma ReceivedEffect(s: State, e: Event)
    requires Enabled(s, e) && (!e.Act? || Routed(s, e.ok) == s)
    ensures Apply(s, e).received == s.received
  {
  }

  /** The request being acted on is the last one dispatched, and none before it carries its ID. */
  lemma ActingIsNew(n: nat, s: State, q: ServerRequest)
    requires Parts(n, s) && Arrivals(s) && Rendezvous.Enabled(s.rv, Rendezvous.Act)
    requires q in Rendezvous.LookedUp(s.rv)
    ensures q.requestID != s.rv.dispatcher.req.requestID
    ensures Rendezvous.LookedUp(Rendezvous.Apply(s.rv, Rendezvous.Act))
         == Rendezvous.LookedUp(s.rv) + [s.rv.dispatcher.req]
  {
    RvFacts(n, s);
    var l := |s.rv.dispatched| - 1;
    var i :| 0 <= i < l && s.rv.dispatched[i] == q;
    assert s.rv.arrived[i] == q && s.rv.arrived[l] == s.rv.dispatcher.req;
  }

  lemma ActingLooksUp(n: nat, s: State)
    requires Parts(n, s) && Rendezvous.Enabled(s.rv, Rendezvous.Act)
    ensures s.rv.dispatcher.req in Rendezvous.LookedUp(Rendezvous.Apply(s.rv, Rendezvous.Act))
  {
    RvFacts(n, s);
  }

  /** A connected client is the one registered under its connection number. */
  lemma ConnectedRegistered(n: nat, s: State, id: string)
    requires Parts(n, s) && id in s.hub.index.clients
    ensures var c := s.hub.index.clients[id];
      c.conn < |s.hub.registered| && s.hub.registered[c.conn] == c && c.clientID == id
  {
    Hub.LedgerHolds(s.hubRun, s.hub, s.hub.index.clients[id]);
  }

  lemma RoutedReceipts(n: nat, s: State, ok: bool)
    requires Parts(n, s) && Arrivals(s) && Receipts(s) && Enabled(s, Act(ok)) && Grown(s, Apply(s, Act(ok)))
    requires Routed(s, ok) != s
    ensures Receipts(Apply(s, Act(ok)))
  {
    var s' := Apply(s, Act(ok));
    var q := s.rv.dispatcher.req;
    var x := Text(q.requestID, s.hub.index.clients[q.action.connID].conn, q.action.message);
    assert s'.received == s.received + [x] && s'.hub == s.hub;
    ConnectedRegistered(n, s, q.action.connID);
    ActingLooksUp(n, s);
    assert q in Rendezvous.LookedUp(s'.rv);
    forall i | 0 <= i < |s.received|
      ensures s.received[i].id != x.id
    {
      assert Delivered(s, s.received[i]);
      var p :| p in Rendezvous.LookedUp(s.rv) && p.requestID == s.received[i].id;
      ActingIsNew(n, s, p);
    }
    hide Apply;
    hide Enabled;
    hide Arrivals;
    forall y | y in s'.received
      ensures Delivered(s', y)
    {
      if y in s.received {
        DeliveredGrows(s, s', y);
      }
    }
  }

  lemma ReceiptsStep(n: nat, s: State, e: Event)
    requires Parts(n, s) && Arrivals(s) && Receipts(s) && Enabled(s, e)
    ensures Receipts(Apply(s, e))
  {
    Grows(n, s, e);
    hide Receipts;
    hide Arrivals;
    hide Grown;
    if e.Act? && Routed(s, e.ok) != s {
      RoutedReceipts(n, s, e.ok);
    } else {
      ReceivedEffect(s, e);
      hide Apply;
      hide Enabled;
      ReceiptsKept(s, Apply(s, e));
    }
  }

  // ----- All runs -----

  ghost predicate Inv(n: nat, s: State) {
    && Parts(n, s) && Emissions(s) && Arrivals(s) && Requests(s)
    && Sayings(s) && Origins(s) && Receipts(s)
  }

  lemma InvStep(n: nat, s: State, e: Event)
    requires Inv(n, s) && Enabled(s, e)
    ensures Inv(n, Apply(s, e))
  {
    hide Apply;
    hide Enabled;
    hide Parts;
    hide Emissions;
    hide Arrivals;
    hide Requests;
    hide Sayings;
    hide Origins;
    hide Receipts;
    PartsStep(n, s, e);
    EmissionsStep(n, s, e);
    ArrivalsStep(n, s, e);
    RequestsStep(n, s, e);
    SayingsStep(n, s, e);
    OriginsStep(n, s, e);
    ReceiptsStep(n, s, e);
  }

  lemma InvInit(n: nat)
    ensures Inv(n, Init(n))
  {
  }

  lemma {:induction false} InvHolds(n: nat, es: seq<Event>, s: State)
    requires Reaches(n, es, s)
    ensures Inv(n, s)
  {
    if es == [] {
      InvInit(n);
    } else {
      hide Inv;
      InvHolds(n, es[..|es| - 1], Run(n, es[..|es| - 1]).value);
      InvStep(n, Run(n, es[..|es| - 1]).value, es[|es| - 1]);
    }
  }

  // ----- What one step of the routing and one answer do -----

  /** A successful write of a text to a connected client is what that client receives. */
  lemma TextDelivered(s: State, id: RequestId, client: string, text: string)
    requires Enabled(s, Act(true))
    requires s.rv.dispatcher.req == ServerRequest(id, MessageToConnection(client, text))
    requires client in s.hub.index.clients
    ensures Apply(s, Act(true)).received == s.received + [Text(id, s.hub.index.clients[client].conn, text)]
  {
  }

  /** A failed write, an absent client, or another action delivers nothing. */
  lemma NothingDelivered(s: State, ok: bool)
    requires Enabled(s, Act(ok))
    requires var action := s.rv.dispatcher.req.action;
      !ok || !action.MessageToConnection? || action.connID !in s.hub.index.clients
    ensures Apply(s, Act(ok)).received == s.received
  {
  }

  /** No other step delivers anything. */
  lemma OnlyActDelivers(s: State, e: Event)
    requires Enabled(s, e) && !e.Act?
    ensures Apply(s, e).received == s.received
  {
  }

  /** The texts delivered in a run, read off its events: each act on a text, written to its connected client. */
  function Deliveries(n: nat, es: seq<Event>): seq<Text>
    requires Run(n, es).Some?
  {
    if es == [] then []
    else
      var l := |es| - 1;
      var s := Run(n, es[..l]).value;
      Deliveries(n, es[..l]) +
      if es[l] == Act(true) && s.rv.dispatcher.Popped? then
        match s.rv.dispatcher.req
        case ServerRequest(id, MessageToConnection(client, text)) =>
          if client in s.hub.index.clients then [Text(id, s.hub.index.clients[client].conn, text)] else []
        case _ => []
      else []
  }

  /** What clients have received is exactly that, in order. */
  lemma {:induction false} ReceivedExactly(n: nat, es: seq<Event>, s: State)
    requires Reaches(n, es, s)
    ensures s.received == Deliveries(n, es)
  {
    if es != [] {
      var l := |es| - 1;
      var prev := Run(n, es[..l]).value;
      ReceivedExactly(n, es[..l], prev);
      if es[l].Act? {
        var q := prev.rv.dispatcher.req;
        if es[l].ok && q.action.MessageToConnection? && q.action.connID in prev.hub.index.clients {
          TextDelivered(prev, q.requestID, q.action.connID, q.action.message);
        } else {
          NothingDelivered(prev, es[l].ok);
        }
      } else {
        OnlyActDelivers(prev, es[l]);
      }
    }
  }

  // ----- The promises -----

  lemma OneResponse(qs: seq<ServerRequest>, id: RequestId)
    requires DistinctRequests(qs)
    ensures |Rendezvous.Answers(qs, id)| <= 1
  {
    if qs != [] {
      var l := |qs| - 1;
      OneResponse(qs[..l], id);
      if qs[l].requestID == id {
        forall q | q in qs[..l]
          ensures q.requestID != id
        {
          var i :| 0 <= i < l && qs[i] == q;
          assert qs[i].requestID != qs[l].requestID;
        }
        Rendezvous.NoAnswers(qs[..l], id);
      }
    }
  }

  /** Each arrived response answers a connection request that was written, for a caller that wrote it. */
  lemma ResponseRequested(n: nat, s: State, q: ServerRequest)
    requires Inv(n, s) && q in s.rv.arrived && q.action.Response?
    ensures Requested(s.rv, q.requestID)
  {
    assert Emitted(s, q);
    var j :| 0 <= j < |s.emitted| && s.emitted[j].req == q;
    assert Answers(s, s.emitted[j]);
  }

  /**
   One answer per request: the echo backends meet the condition of the rendezvous with one answer, so
   the dispatcher never blocks on a response channel.
   */
  lemma DispatcherNeverBlocks(n: nat, es: seq<Event>, s: State)
    requires Reaches(n, es, s)
    ensures Rendezvous.Disciplined(s.rv, 1) && !Rendezvous.Blocked(s.rv)
  {
    InvHolds(n, es, s);
    forall q | q in s.rv.arrived && q.action.Response?
      ensures exists w :: 0 <= w < |s.rv.waiters| && s.rv.waiters[w].id == q.requestID
                          && Rendezvous.WasWritten(s.rv.waiters[w].pc)
    {
      ResponseRequested(n, s, q);
    }
    forall w | 0 <= w < |s.rv.waiters|
      ensures |Rendezvous.Answers(s.rv.arrived, s.rv.waiters[w].id)| <= 1
    {
      OneResponse(s.rv.arrived, s.rv.waiters[w].id);
    }
    Rendezvous.NeverBlocks(s.rvRun, s.rv);
  }

  /** The response of an approved call arrived, with its own request ID. */
  lemma ResponseArrived(n: nat, s: State, w: nat)
    requires Parts(n, s) && w < |s.rv.waiters| && s.rv.waiters[w].pc.Returned?
    ensures s.rv.waiters[w].pc.resp in s.rv.arrived
    ensures s.rv.waiters[w].pc.resp.requestID == s.rv.waiters[w].id
  {
    RvFacts(n, s);
    Rendezvous.Correlation(s.rvRun, s.rv, w);
    Rendezvous.AnswersMeaning(s.rv.dispatched, s.rv.waiters[w].id);
    assert s.rv.waiters[w].pc.resp in Rendezvous.Answers(s.rv.dispatched, s.rv.waiters[w].id);
  }

  /** The response of an approved call is one of the backends' answers. */
  lemma ResponseEmitted(n: nat, s: State, w: nat) returns (j: nat)
    requires Parts(n, s) && Arrivals(s) && w < |s.rv.waiters| && s.rv.waiters[w].pc.Returned?
    ensures j < |s.emitted| && s.emitted[j].req == s.rv.waiters[w].pc.resp
    ensures s.emitted[j].req.requestID == s.rv.waiters[w].id
  {
    ResponseArrived(n, s, w);
    hide Parts;
    assert Emitted(s, s.rv.waiters[w].pc.resp);
    j :| 0 <= j < |s.emitted| && s.emitted[j].req == s.rv.waiters[w].pc.resp;
  }

  lemma WaitersDiffer(n: nat, s: State, v: nat, w: nat)
    requires Parts(n, s) && v < |s.rv.waiters| && w < |s.rv.waiters| && v != w
    ensures s.rv.waiters[v].id != s.rv.waiters[w].id
  {
    RvFacts(n, s);
  }

  lemma CallsGetOwnIds(n: nat, s: State, v: nat, w: nat)
    requires Inv(n, s) && v < |s.rv.waiters| && w < |s.rv.waiters| && v != w
    requires s.rv.waiters[v].pc.Returned? && s.rv.waiters[w].pc.Returned?
    requires s.rv.waiters[v].pc.resp.action.Response? && s.rv.waiters[w].pc.resp.action.Response?
    ensures s.rv.waiters[v].pc.resp.action.clientID != s.rv.waiters[w].pc.resp.action.clientID
  {
    hide Requests;
    hide Sayings;
    hide Origins;
    hide Receipts;
    hide Arrivals;
    hide Parts;
    hide Emissions;
    WaitersDiffer(n, s, v, w);
    var i := ResponseEmitted(n, s, v);
    var j := ResponseEmitted(n, s, w);
    if i < j {
      EmissionsDiffer(n, s, i, j);
    } else if j < i {
      EmissionsDiffer(n, s, j, i);
    }
  }

  /**
   Fresh client IDs: no two registrations have the same ID, so no registration is overwritten, rooms is
   exactly clients grouped by RoomID, and every client is connected or reported exactly once.
   */
  lemma ClientIdsFresh(n: nat, es: seq<Event>, s: State)
    requires Reaches(n, es, s)
    ensures Hub.DistinctIDs(s.hub.registered)
    ensures s.hub.overwritten == [] && RoomIndex.Exact(s.hub.index)
  {
    InvHolds(n, es, s);
    forall c, d | 0 <= c < d < |s.hub.registered|
      ensures s.hub.registered[c].clientID != s.hub.registered[d].clientID
    {
      assert FromCall(s, c) && FromCall(s, d);
      CallsGetOwnIds(n, s, s.origin[c], s.origin[d]);
    }
    Hub.NothingOverwritten(s.hubRun, s.hub);
    Hub.IndexExact(s.hubRun, s.hub);
  }

  /** Every registered client is in the room that the echo backends name. */
  lemma RegisteredInRoom(n: nat, es: seq<Event>, s: State, c: nat)
    requires Reaches(n, es, s) && c < |s.hub.registered|
    ensures s.hub.registered[c].roomID == "load-test"
  {
    InvHolds(n, es, s);
    assert FromCall(s, c);
    var j := ResponseEmitted(n, s, s.origin[c]);
    assert Answers(s, s.emitted[j]);
  }

  lemma OneRoomGrouped(clients: RoomIndex.Members)
    requires forall id | id in clients :: clients[id].roomID == "load-test"
    ensures RoomIndex.Grouped(clients) == if clients == map[] then map[] else map["load-test" := clients]
  {
    if clients != map[] {
      var id :| id in clients;
      assert "load-test" in RoomIndex.RoomsOf(clients);
      assert RoomIndex.InRoom(clients, "load-test") == clients;
    }
  }

  /** So there is no other room, and it holds exactly the connected clients. */
  lemma OneRoom(n: nat, es: seq<Event>, s: State)
    requires Reaches(n, es, s)
    ensures s.hub.index.rooms == if s.hub.index.clients == map[] then map[] else map["load-test" := s.hub.index.clients]
  {
    ClientIdsFresh(n, es, s);
    InvHolds(n, es, s);
    var clients := s.hub.index.clients;
    forall id | id in clients
      ensures clients[id].roomID == "load-test"
    {
      ConnectedRegistered(n, s, id);
      RegisteredInRoom(n, es, s, clients[id].conn);
    }
    OneRoomGrouped(clients);
  }

  /**
   Every text a client has said is accounted for: it is still inside its sendMessage, or was refused, or is
   written, queued, in a flush's batch, or dropped as oldest; exactly one of these, and once.
   */
  lemma TextAccounted(n: nat, es: seq<Event>, s: State, x: Text)
    requires Reaches(n, es, s) && x in s.sent
    ensures x.conn < |s.hub.registered|
    ensures var m := BackendRequest(x.id, NewMessage(s.hub.registered[x.conn].clientID, x.text));
      StoreConservation.Places(s.store, m) + Count(s.store.hist.failed, m)
        + Store.Held(s.store.threads, false, m) == 1
  {
    InvHolds(n, es, s);
    assert Forwarded(s, x);
    var m := BackendRequest(x.id, NewMessage(s.hub.registered[x.conn].clientID, x.text));
    StoreConservation.BalancedHolds(n, s.storeRun, s.store, m);
    StoreConservation.BegunCounts(s.store, m);
    CountMember(s.store.hist.begun, m);
  }

  /** Every disconnect reported to the backends is of a client whose own connection gave an error. */
  lemma ReportsOwnFaults(n: nat, es: seq<Event>, s: State)
    requires Reaches(n, es, s)
    ensures HubFaults.OwnFaults(s.hub)
  {
    InvHolds(n, es, s);
    ClientIdsFresh(n, es, s);
    HubFaults.DistinctNeverReuses(s.hubRun, s.hub);
    HubFaults.OwnFaultsHold(s.hubRun, s.hub);
  }

  /** A received text was written to a backend, and answered, for the client that received it. */
  lemma ReceivedWasWritten(n: nat, s: State, x: Text) returns (m: BackendRequest)
    requires Parts(n, s) && Emissions(s) && Arrivals(s) && Receipts(s) && x in s.received
    ensures m in s.store.hist.begun && m.requestID == x.id && m.action.NewMessage? && m.action.message == x.text
    ensures x.conn < |s.hub.registered| && s.hub.registered[x.conn].clientID == m.action.clientID
  {
    RvFacts(n, s);
    assert Delivered(s, x);
    var q :| q in Rendezvous.LookedUp(s.rv) && q.requestID == x.id
             && q.action.MessageToConnection? && q.action.message == x.text
             && x.conn < |s.hub.registered| && s.hub.registered[x.conn].clientID == q.action.connID;
    assert q in s.rv.arrived;
    StoreConservation.AtMostOnce(n, s.storeRun, s.store);
    hide Rendezvous.Inv;
    hide Parts;
    assert Emitted(s, q);
    var j :| 0 <= j < |s.emitted| && s.emitted[j].req == q;
    assert Answers(s, s.emitted[j]);
    m := s.store.hist.written[s.emitted[j].src].msg;
  }

  /** A received text was sent by the client that received it. */
  lemma ReceivedWasSent(n: nat, es: seq<Event>, s: State, x: Text)
    requires Reaches(n, es, s) && x in s.received
    ensures x in s.sent
  {
    InvHolds(n, es, s);
    ClientIdsFresh(n, es, s);
    hide RoomIndex.Exact;
    hide Parts;
    hide Emissions;
    hide Arrivals;
    hide Requests;
    hide Origins;
    hide Receipts;
    var m := ReceivedWasWritten(n, s, x);
    assert Said(s, m);
    var y :| y in s.sent && y.id == m.requestID && y.text == m.action.message
             && y.conn < |s.hub.registered| && s.hub.registered[y.conn].clientID == m.action.clientID;
    assert y.conn == x.conn;
  }

  /** How often connection c has text among xs. */
  function Times(xs: seq<Text>, c: nat, text: string): nat {
    if xs == [] then 0
    else Times(xs[..|xs| - 1], c, text) + if xs[|xs| - 1].conn == c && xs[|xs| - 1].text == text then 1 else 0
  }

  lemma TimesAppend(xs: seq<Text>, x: Text, c: nat, text: string)
    ensures Times(xs + [x], c, text) == Times(xs, c, text) + if x.conn == c && x.text == text then 1 else 0
  {
    assert (xs + [x])[..|xs|] == xs;
  }

  lemma {:induction false} TimesWithout(xs: seq<Text>, i: nat, c: nat, text: string)
    requires i < |xs|
    ensures Times(xs, c, text)
         == Times(xs[..i] + xs[i + 1..], c, text) + if xs[i].conn == c && xs[i].text == text then 1 else 0
  {
    hide *;
    var l := |xs| - 1;
    var front, x := xs[..l], xs[l];
    assert xs == front + [x];
    TimesAppend(front, x, c, text);
    if i == l {
      assert xs[..i] + xs[i + 1..] == front;
    } else {
      TimesWithout(front, i, c, text);
      TimesAppend(front[..i] + front[i + 1..], x, c, text);
      assert xs[..i] + xs[i + 1..] == front[..i] + front[i + 1..] + [x];
    }
  }

  /** Distinct texts that are all among xs occur there at least as often. */
  lemma {:induction false} TimesWithin(some: seq<Text>, xs: seq<Text>, c: nat, text: string)
    requires DistinctTexts(some) && forall x | x in some :: x in xs
    ensures Times(some, c, text) <= Times(xs, c, text)
  {
    if some != [] {
      var l := |some| - 1;
      assert some[l] in some;
      var i :| 0 <= i < |xs| && xs[i] == some[l];
      var ys := xs[..i] + xs[i + 1..];
      forall x | x in some[..l]
        ensures x in ys
      {
        var k :| 0 <= k < l && some[k] == x;
        assert some[k].id != some[l].id && x in some;
        var j :| 0 <= j < |xs| && xs[j] == x;
        assert x == if j < i then ys[j] else ys[j - 1];
      }
      TimesWithin(some[..l], ys, c, text);
      TimesWithout(xs, i, c, text);
    }
  }

  /**
   End to end: whichever backends are picked and whatever is queued, flushed, dropped or lost, each
   client receives only texts it sent itself, each at most as often as it sent it.
   */
  lemma EndToEndEcho(n: nat, es: seq<Event>, s: State, c: nat, text: string)
    requires Reaches(n, es, s)
    ensures Times(s.received, c, text) <= Times(s.sent, c, text)
    ensures forall x | x in s.received :: x in s.sent
  {
    InvHolds(n, es, s);
    forall x | x in s.received
      ensures x in s.sent
    {
      ReceivedWasSent(n, es, s, x);
    }
    TimesWithin(s.received, s.sent, c, text);
  }

  /** The wiring loses no step of the server: a settling region always has its caller in the rendezvous. */
  lemma NoStepLost(n: nat, es: seq<Event>, s: State, r: Store.Event)
    requires Reaches(n, es, s) && Store.Enabled(s.store, r) && Settles(s.store, r)
    ensures exists w :: Enabled(s, Asked(w, r))
  {
    InvHolds(n, es, s);
    var m := s.store.threads[r.t].msg;
    assert Asks(s.store.threads[r.t]);
    assert Pending(s.rv, m.requestID);
    var w :| 0 <= w < |s.rv.waiters| && s.rv.waiters[w].id == m.requestID && s.rv.waiters[w].pc.Registered?;
    assert Asking(s, w) == m;
    assert Enabled(s, Asked(w, r));
  }
}
