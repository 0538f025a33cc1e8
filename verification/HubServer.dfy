/**
 The methods of the WebSocket server as its goroutines run them, with other goroutines in between. As in
 module Server, every region is recorded as one event, and the record stays a run of the hub's machine.
 */
module HubServer {
  import opened Sequences
  import opened RoomIndex
  import opened Hub
  import opened WebSockets
  import HubFaults

  datatype Goroutine = Reader(conn: nat) | Caster(i: nat)

  /** The events that only goroutine g performs, besides the report it owes. */
  predicate Owns(g: Goroutine, e: Event) {
    match g
    case Reader(n) => e == ReadError(n)
    case Caster(i) => (e.CastWrite? || e.CastRemove?) && e.i == i
  }

  /** The onDisconnect call that whoever took the owed client off the index still has to make. */
  predicate Reports(s: State, e: Event, owed: Option<Client>) {
    owed.Some? && e.Notify? && e.k < |s.notifying| && s.notifying[e.k] == owed.value
  }

  ghost predicate NotBy(g: Goroutine, owed: Option<Client>, es: seq<Event>, k: nat) {
    forall j | k <= j < |es| ::
      !Owns(g, es[j]) && Run(es[..j]).Some? && !Reports(Run(es[..j]).value, es[j], owed)
  }

  /** What has happened stays so. */
  ghost predicate History(s: State, s': State) {
    && s.registered <= s'.registered && s.ended <= s'.ended
    && s.removed <= s'.removed && s.overwritten <= s'.overwritten
  }

  /** What goroutine g can rely on while others run. */
  ghost predicate Kept(g: Goroutine, owed: Option<Client>, s: State, s': State) {
    && History(s, s')
    && (owed.Some? && owed.value in s.notifying ==> owed.value in s'.notifying)
    && match g
       case Reader(n) => n < |s.registered| ==> (n in s.reading <==> n in s'.reading)
       case Caster(i) => i < |s.casts| ==> i < |s'.casts| && s'.casts[i] == s.casts[i]
  }

  lemma NotifyKept(s: State, k: nat, c: Client)
    requires Enabled(s, Notify(k)) && c in s.notifying && s.notifying[k] != c
    ensures c in Apply(s, Notify(k)).notifying
  {
    var n := s.notifying;
    assert n == n[..k] + [n[k]] + n[k + 1..];
  }

  lemma KeptStep(g: Goroutine, owed: Option<Client>, s: State, e: Event)
    requires Enabled(s, e) && !Owns(g, e) && !Reports(s, e, owed)
    ensures Kept(g, owed, s, Apply(s, e))
  {
    if e.Notify? && owed.Some? && owed.value in s.notifying {
      NotifyKept(s, e.k, owed.value);
    }
  }

  lemma {:induction false} KeptRun(g: Goroutine, owed: Option<Client>, es: seq<Event>, k: nat)
    requires k <= |es| && Run(es).Some? && NotBy(g, owed, es, k)
    ensures Run(es[..k]).Some? && Kept(g, owed, Run(es[..k]).value, Run(es).value)
  {
    if k == |es| {
      assert es[..k] == es;
    } else {
      var l := |es| - 1;
      assert es[..l][..k] == es[..k];
      assert forall j | k <= j < l :: es[..l][..j] == es[..j];
      KeptRun(g, owed, es[..l], k);
      KeptStep(g, owed, Run(es[..l]).value, es[l]);
    }
  }

  /** Taken off the index, by a disconnect or by a registration of the same ID. */
  predicate Gone(s: State, c: Client) {
    c in s.removed || c in s.overwritten
  }

  /** A client that is gone is not connected, and is reported once, or about to be, unless it was overwritten. */
  lemma GoneMeans(es: seq<Event>, s: State, c: Client)
    requires Reaches(es, s) && Gone(s, c)
    ensures Connected(s, c) == 0
    ensures Count(s.notifying, c) + Count(s.disconnected, c) + Count(s.overwritten, c) == 1
  {
    DisconnectLedgerHolds(es, s, c);
    LedgerHolds(es, s, c);
    CountMember(s.removed, c);
    CountMember(s.overwritten, c);
  }

  /** A disconnect of its ID leaves a registered client off the index. */
  lemma DisconnectedGone(s: State, c: Client)
    requires Ledger(s, c) && c in s.registered
    ensures Gone(Disconnect(s, c.clientID), c)
  {
    RegisteredOnce(s, c);
    CountMember(s.removed, c);
    CountMember(s.overwritten, c);
    if c.clientID in s.index.clients && s.index.clients[c.clientID] == c {
      assert Disconnect(s, c.clientID).removed == s.removed + [c];
    }
  }

  /** The step is the region of handleDisconnect for that ID. */
  ghost predicate Disconnects(s: State, e: Event, id: string)
    requires Enabled(s, e)
  {
    var s' := Apply(s, e);
    && s'.index == Unregister(s.index, id) && s'.disconnected == s.disconnected && s'.registered == s.registered
    && |s'.casts| == |s.casts|
    && (id in s.index.clients ==> s.index.clients[id] in s'.notifying)
  }

  lemma ReadErrorDisconnects(s: State, n: nat)
    requires Enabled(s, ReadError(n))
    ensures Disconnects(s, ReadError(n), s.registered[n].clientID)
  {
  }

  lemma CastRemoveDisconnects(s: State, i: nat)
    requires Enabled(s, CastRemove(i))
    ensures Disconnects(s, CastRemove(i), s.casts[i].snapshot[s.casts[i].next].clientID)
  {
  }

  lemma ReadErrorGone(es: seq<Event>, s: State, n: nat)
    requires Reaches(es, s) && Enabled(s, ReadError(n))
    ensures Gone(Apply(s, ReadError(n)), s.registered[n]) && n in Apply(s, ReadError(n)).ended
  {
    LedgerHolds(es, s, s.registered[n]);
    DisconnectedGone(s.(reading := s.reading - {n}, ended := s.ended + {n}), s.registered[n]);
  }

  lemma CastRemoveGone(es: seq<Event>, s: State, i: nat)
    requires Reaches(es, s) && Enabled(s, CastRemove(i))
    ensures Gone(Apply(s, CastRemove(i)), s.casts[i].snapshot[s.casts[i].next])
  {
    var k := s.casts[i];
    HubFaults.SnapshotsRegistered(es, s);
    LedgerHolds(es, s, k.snapshot[k.next]);
    DisconnectedGone(s.(casts := s.casts[i := k.(next := k.next + 1, failed := false)]), k.snapshot[k.next]);
  }

  /** A list of the members is as long as there are members. */
  lemma {:induction false} ListLength(order: seq<Client>, members: Members)
    requires Lists(order, members) && Keyed(members)
    ensures |order| == |members|
  {
    if order == [] {
      assert forall id | id in members :: members[id] in order;
      assert members == map[];
    } else {
      var l := |order| - 1;
      var c := order[l];
      assert order == order[..l] + [c];
      assert c in order;
      RemoveOne(members, c.clientID);
      ListLength(order[..l], members - {c.clientID});
    }
  }

  lemma SnapshotEnabled(s: State, order: seq<Client>)
    requires Lists(order, s.index.clients) && Keyed(s.index.clients)
    ensures Enabled(s, StartCast(order))
  {
    ListLength(order, s.index.clients);
    assert forall id | id in s.index.clients :: s.index.clients[id] in order;
  }

  lemma StartCastEffect(s: State, order: seq<Client>)
    requires Enabled(s, StartCast(order))
    ensures Apply(s, StartCast(order)) == s.(casts := s.casts + [Cast(order, 0, false)])
  {
  }

  /** How often onConnectionSuccess was called for the client of that connection. */
  function Greetings(greeted: seq<Client>, conn: nat): nat {
    if greeted == [] then 0
    else Greetings(greeted[..|greeted| - 1], conn) + if greeted[|greeted| - 1].conn == conn then 1 else 0
  }

  lemma GreetingsAppend(greeted: seq<Client>, c: Client, conn: nat)
    ensures Greetings(greeted + [c], conn) == Greetings(greeted, conn) + if c.conn == conn then 1 else 0
  {
    assert (greeted + [c])[..|greeted|] == greeted;
  }

  lemma {:induction false} GreetingsNone(greeted: seq<Client>, conn: nat)
    requires forall c | c in greeted :: c.conn != conn
    ensures Greetings(greeted, conn) == 0
  {
    if greeted != [] {
      var l := |greeted| - 1;
      assert greeted[l] in greeted;
      GreetingsNone(greeted[..l], conn);
    }
  }

  /** The messages handed to onMessage for the client of that connection. */
  function From(messages: seq<Incoming>, conn: nat): seq<string> {
    if messages == [] then []
    else
      var l := |messages| - 1;
      From(messages[..l], conn) + if messages[l].client.conn == conn then [messages[l].message] else []
  }

  lemma FromAppend(messages: seq<Incoming>, m: Incoming, conn: nat)
    ensures From(messages + [m], conn) == From(messages, conn) + if m.client.conn == conn then [m.message] else []
  {
    assert (messages + [m])[..|messages|] == messages;
  }

  lemma {:induction false} FromNone(messages: seq<Incoming>, conn: nat)
    requires forall m | m in messages :: m.client.conn != conn
    ensures From(messages, conn) == []
  {
    if messages != [] {
      var l := |messages| - 1;
      assert messages[l] in messages;
      FromNone(messages[..l], conn);
    }
  }

  /** Who made a write: broadcast i of the machine, or a message to a room or a connection. */
  type Maker = Option<nat>

  /** The writes of broadcast i, in order. */
  function MadeBy(writes: seq<WebSockets.Write>, makers: seq<Maker>, i: nat): seq<WebSockets.Write>
    requires |writes| == |makers|
  {
    if writes == [] then []
    else
      var l := |writes| - 1;
      MadeBy(writes[..l], makers[..l], i) + if makers[l] == Some(i) then [writes[l]] else []
  }

  lemma MadeAppend(writes: seq<WebSockets.Write>, makers: seq<Maker>, w: WebSockets.Write, m: Maker, i: nat)
    requires |writes| == |makers|
    ensures MadeBy(writes + [w], makers + [m], i) == MadeBy(writes, makers, i) + if m == Some(i) then [w] else []
  {
    assert (writes + [w])[..|writes|] == writes && (makers + [m])[..|makers|] == makers;
  }

  lemma {:induction false} MadeNone(writes: seq<WebSockets.Write>, makers: seq<Maker>, i: nat)
    requires |writes| == |makers| && Some(i) !in makers
    ensures MadeBy(writes, makers, i) == []
  {
    if writes != [] {
      var l := |writes| - 1;
      assert makers[l] in makers;
      MadeNone(writes[..l], makers[..l], i);
    }
  }

  class Sockets {
    const server: WebSocketServer
    var joined: nat  // the connections registered so far; a connection's number is its position
    ghost var run: seq<Event>
    ghost var makers: seq<Maker>  // by write

    ghost function State(): State
      requires Run(run).Some?
      reads this
    {
      Run(run).value
    }

    /** The fields show that state. */
    ghost predicate Shows(s: State)
      reads this, server, server.rooms.Values
    {
      && server.View() == s.index && server.disconnected == s.disconnected && joined == |s.registered|
      && (forall m | m in server.messages :: m.client.conn < joined)
      && (forall c | c in server.greeted :: c.conn < joined)
      && |makers| == |server.writes|
      && (forall m | m in makers && m.Some? :: m.value < |s.casts|)
    }

    /** The writes made by broadcast i. */
    ghost function Made(i: nat): seq<WebSockets.Write>
      requires |makers| == |server.writes|
      reads this, server
    {
      MadeBy(server.writes, makers, i)
    }

    /** The calls made for the client of that connection: onConnectionSuccess, and onMessage in order. */
    ghost function Calls(conn: nat): (nat, seq<string>)
      reads this, server
    {
      (Greetings(server.greeted, conn), From(server.messages, conn))
    }

    ghost predicate Valid()
      reads this, server, server.rooms.Values
    {
      server.Valid() && Run(run).Some? && Shows(State())
    }

    constructor ()
      ensures Valid() && fresh(server) && run == []
    {
      server := new WebSocketServer();
      joined, run, makers := 0, [], [];
    }

    /** Other goroutines run: any number of events that are not of g, nor the report it owes. */
    method Yield(ghost g: Goroutine, ghost owed: Option<Client>)
      requires Valid()
      modifies this, server, server.rooms.Values
      ensures Valid() && fresh(server.rooms.Values - old(server.rooms.Values))
      ensures old(run) <= run && NotBy(g, owed, run, |old(run)|) && Kept(g, owed, old(State()), State())
      ensures g.Reader? ==> Calls(g.conn) == old(Calls(g.conn))
      ensures g.Caster? ==> Made(g.i) == old(Made(g.i))
    {
      KeptRun(g, owed, run, |run|);
    }

    ghost method Record(e: Event)
      requires server.Valid() && Run(run).Some? && Enabled(State(), e) && Shows(Apply(State(), e))
      modifies this`run
      ensures Valid() && run == old(run) + [e] && State() == Apply(old(State()), e)
    {
      RunExtend(run, State(), e);
      run := run + [e];
    }

    /** The region that registers a client. */
    method Join(clientID: string, roomID: string) returns (c: Client)
      requires Valid()
      modifies this, server, server.rooms.Values
      ensures Valid() && fresh(server.rooms.Values - old(server.rooms.Values))
      ensures c == Client(old(joined), clientID, roomID) && run == old(run) + [Event.Join(c)]
      ensures State() == Apply(old(State()), Event.Join(c)) && Calls(c.conn) == (0, [])
    {
      hide Register;
      FromNone(server.messages, joined);
      GreetingsNone(server.greeted, joined);
      c := server.Join(joined, clientID, roomID);
      joined := joined + 1;
      Record(Event.Join(c));
    }

    /** The callback of a client taken off the index. */
    method Report(c: Client, ghost g: Goroutine)
      requires Valid() && c in State().notifying
      modifies this`run, server`disconnected
      ensures Valid() && old(run) <= run && Kept(g, None, old(State()), State())
      ensures c in server.disconnected
    {
      server.disconnected := server.disconnected + [c];
      ghost var k :| 0 <= k < |State().notifying| && State().notifying[k] == c;
      KeptStep(g, None, State(), Notify(k));
      Record(Notify(k));
    }

    /** The region of handleDisconnect as the step e. */
    method Unlist(clientID: string, ghost e: Event) returns (found: bool, c: Client)
      requires Valid() && Enabled(State(), e) && Disconnects(State(), e, clientID)
      modifies this`run, server`rooms, server`clients, server.rooms.Values
      ensures Valid() && server.rooms.Values <= old(server.rooms.Values)
      ensures run == old(run) + [e] && State() == Apply(old(State()), e)
      ensures found ==> c in State().notifying
    {
      hide Unregister;
      hide Apply;
      hide Enabled;
      found, c := server.Unlist(clientID);
      Record(e);
    }

    /**
     handleDisconnect as the step e of goroutine g: the region under the lock, then, with others in
     between, the callback for the client it took off.
     */
    method HandleDisconnect(clientID: string, ghost g: Goroutine, ghost e: Event)
      requires Valid() && Enabled(State(), e) && Owns(g, e)
      requires Disconnects(State(), e, clientID)
      modifies this, server, server.rooms.Values
      ensures Valid() && fresh(server.rooms.Values - old(server.rooms.Values)) && old(run) <= run
      ensures Kept(g, None, Apply(old(State()), e), State())
      ensures g.Reader? ==> Calls(g.conn) == old(Calls(g.conn))
      ensures g.Caster? ==> Made(g.i) == old(Made(g.i))
    {
      hide Unregister;
      hide Apply;
      hide Enabled;
      hide From;
      hide MadeBy;
      hide Run;
      hide Disconnects;
      var found, c := Unlist(clientID, e);
      if found {
        Yield(g, Some(c));
        Report(c, g);
      }
    }

    /** The callback of a new connection. */
    method Greet(c: Client)
      requires Valid() && c.conn < joined && Calls(c.conn) == (0, [])
      modifies server`greeted
      ensures Valid() && Calls(c.conn) == (1, [])
    {
      hide From;
      hide Greetings;
      hide Run;
      GreetingsAppend(server.greeted, c, c.conn);
      server.greeted := server.greeted + [c];
    }

    /** One message of a connection goes to onMessage. */
    method Hear(c: Client, message: string)
      requires Valid() && c.conn < joined
      modifies this, server, server.rooms.Values
      ensures Valid() && fresh(server.rooms.Values - old(server.rooms.Values)) && old(run) <= run
      ensures c.conn < joined && Calls(c.conn) == (old(Calls(c.conn)).0, old(Calls(c.conn)).1 + [message])
      ensures Kept(Reader(c.conn), None, old(State()), State())
    {
      hide From;
      hide Greetings;
      Yield(Reader(c.conn), None);
      FromAppend(server.messages, Incoming(c, message), c.conn);
      server.messages := server.messages + [Incoming(c, message)];
    }

    /** The read loop: every message goes to onMessage, in order. */
    method Listen(c: Client, incoming: seq<string>)
      requires Valid() && c.conn < joined && Calls(c.conn) == (1, [])
      modifies this, server, server.rooms.Values
      ensures Valid() && fresh(server.rooms.Values - old(server.rooms.Values)) && old(run) <= run
      ensures Calls(c.conn) == (1, incoming) && Kept(Reader(c.conn), None, old(State()), State())
    {
      hide From;
      hide Greetings;
      hide Run;
      for i := 0 to |incoming|
        invariant Valid() && fresh(server.rooms.Values - old(server.rooms.Values)) && old(run) <= run
        invariant c.conn < joined && Calls(c.conn) == (1, incoming[..i])
        invariant Kept(Reader(c.conn), None, old(State()), State())
      {
        Hear(c, incoming[i]);
        assert incoming[..i + 1] == incoming[..i] + [incoming[i]];
      }
      assert incoming[..|incoming|] == incoming;
    }

    /** The read error of a connection, and its disconnect. */
    method Leave(c: Client)
      requires Valid() && c.conn < |State().registered| && State().registered[c.conn] == c
      requires c.conn in State().reading
      modifies this, server, server.rooms.Values
      ensures Valid() && fresh(server.rooms.Values - old(server.rooms.Values)) && old(run) <= run
      ensures Calls(c.conn) == old(Calls(c.conn)) && old(State()).registered <= State().registered
      ensures Gone(State(), c) && c.conn in State().ended
    {
      hide Unregister;
      hide From;
      hide Greetings;
      Yield(Reader(c.conn), None);
      ReadErrorGone(run, State(), c.conn);
      ReadErrorDisconnects(State(), c.conn);
      hide Disconnects;
      HandleDisconnect(c.clientID, Reader(c.conn), ReadError(c.conn));
    }

    /** A registered connection: greeted, heard and disconnected. */
    method Attend(c: Client, incoming: seq<string>)
      requires Valid() && c.conn < |State().registered| && State().registered[c.conn] == c
      requires c.conn in State().reading && Calls(c.conn) == (0, [])
      modifies this, server, server.rooms.Values
      ensures Valid() && fresh(server.rooms.Values - old(server.rooms.Values)) && old(run) <= run
      ensures old(State()).registered <= State().registered && Calls(c.conn) == (1, incoming)
      ensures Gone(State(), c) && c.conn in State().ended
    {
      hide From;
      hide Greetings;
      hide Gone;
      hide Run;
      Greet(c);
      Listen(c, incoming);
      Leave(c);
    }

    /** An approved connection: registered and attended to. */
    method Serve(clientID: string, roomID: string, incoming: seq<string>) returns (c: Client)
      requires Valid()
      modifies this, server, server.rooms.Values
      ensures Valid() && fresh(server.rooms.Values - old(server.rooms.Values)) && old(run) <= run
      ensures c == Client(old(joined), clientID, roomID) && Calls(c.conn) == (1, incoming)
      ensures c in State().registered && c.conn in State().ended && Gone(State(), c)
    {
      hide Register;
      hide From;
      hide Greetings;
      hide Gone;
      c := Join(clientID, roomID);
      assert State().registered[c.conn] == c && c.conn in State().reading;
      hide Apply;
      hide Enabled;
      hide Run;
      Attend(c, incoming);
    }

    /**
     HandleConnection on a connection that delivers these messages and then a read error. A served client
     is greeted once and heard in order. When the method returns, it is off the index, and it has been
     reported once, or is being reported by the broadcast that took it off, or was overwritten.
     */
    method HandleConnection(answer: Answer, upgraded: bool, incoming: seq<string>)
      returns (served: bool, ghost c: Client)
      requires Valid()
      modifies this, server, server.rooms.Values
      ensures Valid() && fresh(server.rooms.Values - old(server.rooms.Values)) && old(run) <= run
      ensures served == (answer.Metadata? && answer.accepted && upgraded)
      ensures !served ==> run == old(run) && unchanged(server)
      ensures served ==> c == Client(old(joined), answer.clientID, answer.roomID) && Calls(c.conn) == (1, incoming)
      ensures served ==> Connected(State(), c) == 0 && c in State().registered && c.conn in State().ended
      ensures served ==>
                Count(State().notifying, c) + Count(State().disconnected, c) + Count(State().overwritten, c) == 1
    {
      served, c := false, Client(0, "", "");
      if answer.Refused? || !upgraded || !answer.accepted {
        return;
      }
      hide From;
      hide Greetings;
      hide Gone;
      hide Apply;
      hide Enabled;
      var client := Serve(answer.clientID, answer.roomID, incoming);
      GoneMeans(run, State(), client);
      served, c := true, client;
    }

    /** The snapshot of a broadcast. */
    method StartBroadcast() returns (order: seq<Client>, ghost i: nat)
      requires Valid()
      modifies this`run
      ensures Valid() && old(run) <= run && Lists(order, server.clients)
      ensures i < |State().casts| && State().casts[i] == Cast(order, 0, false) && Made(i) == []
    {
      IndexAgrees(run, State());
      KeysAgree(server.View());
      hide Agrees;
      hide Run;
      order := server.Copy(server.clients);
      i := |State().casts|;
      MadeNone(server.writes, makers, i);
      SnapshotEnabled(State(), order);
      StartCastEffect(State(), order);
      hide Lists;
      hide Apply;
      hide Enabled;
      Record(StartCast(order));
    }

    /** One write of a broadcast; any write may fail. */
    method Write(order: seq<Client>, j: nat, message: string, ghost i: nat) returns (ok: bool)
      requires Valid() && i < |State().casts| && State().casts[i] == Cast(order, j, false) && j < |order|
      modifies this`run, this`makers, server`writes
      ensures Valid() && old(run) <= run && State() == Apply(old(State()), CastWrite(i, ok))
      ensures Made(i) == old(Made(i)) + [WebSockets.Write(order[j], message, ok)]
    {
      ok := *;
      MadeAppend(server.writes, makers, WebSockets.Write(order[j], message, ok), Some(i), i);
      makers := makers + [Some(i)];
      server.writes := server.writes + [WebSockets.Write(order[j], message, ok)];
      Record(CastWrite(i, ok));
    }

    /** The disconnect after a failed write. */
    method Drop(order: seq<Client>, j: nat, ghost i: nat)
      requires Valid() && i < |State().casts| && State().casts[i] == Cast(order, j, true) && j < |order|
      modifies this, server, server.rooms.Values
      ensures Valid() && fresh(server.rooms.Values - old(server.rooms.Values)) && old(run) <= run
      ensures i < |State().casts| && State().casts[i] == Cast(order, j + 1, false)
      ensures Gone(State(), order[j]) && History(old(State()), State()) && Made(i) == old(Made(i))
    {
      hide Unregister;
      hide MadeBy;
      Yield(Caster(i), None);
      CastRemoveGone(run, State(), i);
      CastRemoveDisconnects(State(), i);
      hide Disconnects;
      HandleDisconnect(order[j].clientID, Caster(i), CastRemove(i));
    }

    /** One round of the broadcast: a client whose write fails is off the index after it. */
    method Round(order: seq<Client>, j: nat, message: string, ghost i: nat) returns (ok: bool)
      requires Valid() && i < |State().casts| && State().casts[i] == Cast(order, j, false) && j < |order|
      modifies this, server, server.rooms.Values
      ensures Valid() && fresh(server.rooms.Values - old(server.rooms.Values)) && old(run) <= run
      ensures i < |State().casts| && State().casts[i] == Cast(order, j + 1, false)
      ensures !ok ==> Gone(State(), order[j]) && order[j].conn in State().ended
      ensures History(old(State()), State())
      ensures Made(i) == old(Made(i)) + [WebSockets.Write(order[j], message, ok)]
    {
      hide MadeBy;
      Yield(Caster(i), None);
      ok := Write(order, j, message, i);
      if !ok {
        Drop(order, j, i);
      }
    }

    /** Broadcast i has gone through order[..j], with those results. */
    ghost predicate Sent(order: seq<Client>, j: nat, message: string, results: seq<bool>, i: nat)
      requires Valid()
      reads this, server, server.rooms.Values
    {
      && j <= |order| && i < |State().casts| && State().casts[i] == Cast(order, j, false)
      && |results| == j && |Made(i)| == j
      && (forall l | 0 <= l < j :: Made(i)[l] == WebSockets.Write(order[l], message, results[l]))
      && (forall l | 0 <= l < j && !results[l] :: Gone(State(), order[l]) && order[l].conn in State().ended)
    }

    method NextRound(order: seq<Client>, j: nat, message: string, results0: seq<bool>, ghost i: nat)
      returns (results: seq<bool>)
      requires Valid() && j < |order| && Sent(order, j, message, results0, i)
      modifies this, server, server.rooms.Values
      ensures Valid() && fresh(server.rooms.Values - old(server.rooms.Values)) && old(run) <= run
      ensures Sent(order, j + 1, message, results, i)
    {
      hide MadeBy;
      hide Run;
      ghost var was, made := State(), Made(i);
      var ok := Round(order, j, message, i);
      results := results0 + [ok];
      assert Made(i) == made + [WebSockets.Write(order[j], message, ok)];
      forall l | 0 <= l < j + 1 && !results[l]
        ensures Gone(State(), order[l]) && order[l].conn in State().ended
      {
        if l < j {
          assert Gone(was, order[l]) && order[l].conn in was.ended;
        }
      }
    }

    /** The loop of the broadcast. */
    method SendAll(order: seq<Client>, message: string, ghost i: nat) returns (results: seq<bool>)
      requires Valid() && Sent(order, 0, message, [], i)
      modifies this, server, server.rooms.Values
      ensures Valid() && fresh(server.rooms.Values - old(server.rooms.Values)) && old(run) <= run
      ensures Sent(order, |order|, message, results, i)
    {
      results := [];
      for j := 0 to |order|
        invariant Valid() && fresh(server.rooms.Values - old(server.rooms.Values)) && old(run) <= run
        invariant Sent(order, j, message, results, i)
      {
        hide *;
        results := NextRound(order, j, message, results, i);
      }
    }

    /**
     BroadcastMessage, with registrations, read errors and other broadcasts in between: the snapshot lists
     each connected client once, the broadcast writes once to every one of them, in that order, and each
     whose write failed has itself failed, is off the index, and is reported once unless a registration
     overwrote it.
     */
    method BroadcastMessage(message: string) returns (order: seq<Client>, results: seq<bool>, ghost i: nat)
      requires Valid()
      modifies this, server, server.rooms.Values
      ensures Valid() && fresh(server.rooms.Values - old(server.rooms.Values)) && old(run) <= run
      ensures Lists(order, old(server.clients)) && |results| == |order|
      ensures i < |State().casts| && State().casts[i] == Cast(order, |order|, false)
      ensures |Made(i)| == |order|
      ensures forall j | 0 <= j < |order| :: Made(i)[j] == WebSockets.Write(order[j], message, results[j])
      ensures forall j | 0 <= j < |order| && !results[j] ::
                && order[j].conn in State().ended && Connected(State(), order[j]) == 0
                && Count(State().notifying, order[j]) + Count(State().disconnected, order[j])
                   + Count(State().overwritten, order[j]) == 1
    {
      hide MadeBy;
      hide Lists;
      hide Run;
      order, i := StartBroadcast();
      results := SendAll(order, message, i);
      forall j | 0 <= j < |order| && !results[j]
        ensures Connected(State(), order[j]) == 0
        ensures Count(State().notifying, order[j]) + Count(State().disconnected, order[j])
                + Count(State().overwritten, order[j]) == 1
      {
        GoneMeans(run, State(), order[j]);
      }
    }
  }
}
