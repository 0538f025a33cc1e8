/**
 The WebSocket server over its mutable maps and room objects. Each region is proved to be the step of
 the index that models it; the broadcast and routing loops are proved for any iteration order and any
 set of failing writes.
 */
module WebSockets {
  import opened Sequences
  import opened RoomIndex

  class Room {
    const ID: string
    var clients: Members

    constructor (id: string)
      ensures ID == id && clients == map[]
    {
      ID, clients := id, map[];
    }
  }

  /** One WriteMessage call. */
  datatype Write = Write(client: Client, message: string, ok: bool)

  /** One onMessage call. */
  datatype Incoming = Incoming(client: Client, message: string)

  /** What onConnectionRequest gives: an error, or the backend's answer. */
  datatype Answer = Refused | Metadata(accepted: bool, clientID: string, roomID: string)

  function IncomingAll(c: Client, ms: seq<string>): (r: seq<Incoming>)
    ensures |r| == |ms| && forall i | 0 <= i < |ms| :: r[i] == Incoming(c, ms[i])
  {
    seq(|ms|, i requires 0 <= i < |ms| => Incoming(c, ms[i]))
  }

  /** The writes of one message to clients in that order; the connections in failing return an error. */
  function WritesTo(order: seq<Client>, message: string, failing: set<nat>): (r: seq<Write>)
    ensures |r| == |order|
    ensures forall i | 0 <= i < |order| :: r[i] == Write(order[i], message, order[i].conn !in failing)
  {
    seq(|order|, i requires 0 <= i < |order| => Write(order[i], message, order[i].conn !in failing))
  }

  lemma WritesNext(order: seq<Client>, message: string, failing: set<nat>, i: nat)
    requires i < |order|
    ensures WritesTo(order, message, failing)[..i + 1]
         == WritesTo(order, message, failing)[..i] + [Write(order[i], message, order[i].conn !in failing)]
  {
  }

  /** The clients of order whose write failed, in order. */
  function Failed(order: seq<Client>, failing: set<nat>): seq<Client> {
    if order == [] then []
    else Failed(order[..|order| - 1], failing)
         + if order[|order| - 1].conn in failing then [order[|order| - 1]] else []
  }

  /** order lists the clients of members, each once. */
  ghost predicate Lists(order: seq<Client>, members: Members) {
    && NoDuplicates(order)
    && forall c :: c in order <==> c.clientID in members && members[c.clientID] == c
  }

  /** The members whose client is not among those that failed. */
  function Without(members: Members, gone: seq<Client>): Members {
    map id | id in members && members[id] !in gone :: members[id]
  }

  /** The members whose writes succeed. */
  function Succeeding(members: Members, failing: set<nat>): Members {
    map id | id in members && members[id].conn !in failing :: members[id]
  }

  lemma ExactRoom(x: Index, room: string)
    requires Exact(x)
    ensures InRoom(x.clients, room) == if room in x.rooms then x.rooms[room] else map[]
  {
  }

  lemma {:induction false} FailedMembers(order: seq<Client>, failing: set<nat>)
    ensures forall c :: c in Failed(order, failing) <==> c in order && c.conn in failing
  {
    if order != [] {
      var l := |order| - 1;
      FailedMembers(order[..l], failing);
      assert order == order[..l] + [order[l]];
    }
  }

  lemma NewIdUndone(x: Index, c: Client)
    requires Agrees(x)
    ensures Exact(x) && c.clientID !in x.clients ==> Unregister(Register(x, c), c.clientID) == x
  {
    if Exact(x) && c.clientID !in x.clients {
      ExactMeans(x);
      RegisterUnregister(x, c);
    }
  }

  lemma UpdateTwice(x: map<string, Members>, room: string, a: Members, b: Members)
    ensures x[room := a][room := b] == x[room := b]
  {
  }

  lemma FailedNone(failing: set<nat>)
    ensures Failed([], failing) == []
  {
  }

  lemma WithoutNone(members: Members)
    ensures Without(members, []) == members
  {
  }

  lemma KeysAgree(x: Index)
    requires Agrees(x)
    ensures Keyed(x.clients)
  {
  }

  lemma RoomKeysAgree(x: Index, room: string)
    requires Agrees(x) && room in x.rooms
    ensures Keyed(x.rooms[room])
  {
  }

  /** After the whole list, those left are the members whose write succeeded. */
  lemma WithoutFailed(members: Members, order: seq<Client>, failing: set<nat>)
    requires Lists(order, members) && Keyed(members)
    ensures Without(members, Failed(order, failing)) == Succeeding(members, failing)
  {
    FailedMembers(order, failing);
  }

  lemma WithoutOne(members: Members, gone: seq<Client>, c: Client)
    requires c.clientID in members && members[c.clientID] == c
    requires Keyed(members)
    ensures Without(members, gone + [c]) == Without(members, gone) - {c.clientID}
  {
    assert forall id | id in members :: members[id] in gone + [c] <==> members[id] in gone || id == c.clientID;
  }

  /** The i-th client has not been handled before; handling it takes out exactly its entry. */
  lemma FailedNext(members: Members, order: seq<Client>, i: nat, failing: set<nat>)
    requires Lists(order, members) && i < |order|
    requires Keyed(members)
    ensures var c := order[i]; var gone := Failed(order[..i], failing);
      && Failed(order[..i + 1], failing) == (if c.conn in failing then gone + [c] else gone)
      && c.clientID in Without(members, gone) && Without(members, gone)[c.clientID] == c
      && Without(members, gone + [c]) == Without(members, gone) - {c.clientID}
  {
    var c, gone := order[i], Failed(order[..i], failing);
    assert order[..i + 1][..i] == order[..i] && c in order;
    FailedMembers(order[..i], failing);
    assert c !in order[..i];
    WithoutOne(members, gone, c);
  }

  lemma Leavers(members: Members, order: seq<Client>, calls: seq<Client>, failing: set<nat>)
    ensures forall id :: id in Succeeding(members, failing) <==> id in members && members[id].conn !in failing
    ensures calls <= calls + Failed(order, failing)
    ensures forall c :: c in (calls + Failed(order, failing))[|calls|..] <==> c in order && c.conn in failing
  {
    FailedMembers(order, failing);
    assert (calls + Failed(order, failing))[|calls|..] == Failed(order, failing);
  }

  class WebSocketServer {
    var rooms: map<string, Room>
    var clients: Members
    var disconnected: seq<Client>  // the onDisconnect calls made
    var writes: seq<Write>         // the WriteMessage calls made
    var greeted: seq<Client>       // the onConnectionSuccess calls made
    var messages: seq<Incoming>    // the onMessage calls made

    ghost predicate Valid()
      reads `rooms, rooms.Values
    {
      && (forall r, q | r in rooms && q in rooms && r != q :: rooms[r] != rooms[q])
      && (forall r | r in rooms :: rooms[r].ID == r)
    }

    ghost function View(): Index
      reads `rooms, `clients, rooms.Values
    {
      Index(clients, map r | r in rooms :: rooms[r].clients)
    }

    constructor ()
      ensures Valid() && View() == EMPTY && disconnected == [] && writes == [] && rooms == map[]
      ensures greeted == [] && messages == []
    {
      rooms, clients, disconnected, writes, greeted, messages := map[], map[], [], [], [], [];
      new;
      assert View().rooms == map[];
    }

    /** The room of that ID, made if there is none. */
    method RoomFor(roomID: string) returns (room: Room)
      requires Valid()
      modifies `rooms
      ensures Valid() && roomID in rooms && rooms[roomID] == room
      ensures fresh(rooms.Values - old(rooms.Values)) && (fresh(room) || room in old(rooms.Values))
      ensures room.clients == if roomID in old(rooms) then old(View().rooms)[roomID] else map[]
      ensures View().rooms == old(View().rooms)[roomID := room.clients]
    {
      if roomID in rooms {
        room := rooms[roomID];
        assert rooms == rooms[roomID := room];
      } else {
        room := new Room(roomID);
        rooms := rooms[roomID := room];
      }
    }

    /** Puts a client into its room, which is there. */
    method Put(room: Room, c: Client)
      requires Valid() && c.roomID in rooms && rooms[c.roomID] == room
      modifies room
      ensures Valid() && View().rooms == old(View().rooms)[c.roomID := old(room.clients)[c.clientID := c]]
    {
      room.clients := room.clients[c.clientID := c];
      assert forall r | r in rooms && r != c.roomID :: rooms[r] != room;
    }

    /** Puts a client into its room. */
    method Enter(c: Client)
      requires Valid()
      modifies `rooms, rooms.Values
      ensures Valid() && fresh(rooms.Values - old(rooms.Values))
      ensures View().rooms == RoomsWith(old(View().rooms), c)
    {
      ghost var x := View().rooms;
      var room := RoomFor(c.roomID);
      ghost var members := room.clients;
      Put(room, c);
      UpdateTwice(x, c.roomID, members, members[c.clientID := c]);
    }

    /** The region of HandleConnection that registers a client. */
    method Join(conn: nat, clientID: string, roomID: string) returns (c: Client)
      requires Valid()
      modifies this, rooms.Values
      ensures Valid() && fresh(rooms.Values - old(rooms.Values))
      ensures c == Client(conn, clientID, roomID) && View() == Register(old(View()), c)
      ensures unchanged(`disconnected, `writes, `greeted, `messages)
    {
      hide RoomsWith;
      c := Client(conn, clientID, roomID);
      Enter(c);
      clients := clients[c.clientID := c];
    }

    /** Takes a client out of its room, and the room away if that leaves it empty. */
    method Leave(clientID: string, roomID: string)
      requires Valid()
      modifies `rooms, rooms.Values
      ensures Valid() && rooms.Values <= old(rooms.Values)
      ensures View().rooms == RoomsWithout(old(View().rooms), roomID, clientID)
    {
      if roomID in rooms {
        var room := rooms[roomID];
        room.clients := room.clients - {clientID};
        assert forall r | r in rooms && r != roomID :: rooms[r] != room;
        if room.clients == map[] {
          rooms := rooms - {roomID};
        }
      }
    }

    /** The region of handleDisconnect: the client of that ID, if there is one, leaves its room and the map. */
    method Unlist(clientID: string) returns (found: bool, c: Client)
      requires Valid()
      modifies `rooms, `clients, rooms.Values
      ensures Valid() && rooms.Values <= old(rooms.Values)
      ensures View() == Unregister(old(View()), clientID) && clients == old(clients) - {clientID}
      ensures found == (clientID in old(clients)) && (found ==> c == old(clients)[clientID])
    {
      hide RoomsWithout;
      if clientID !in clients {
        assert clients == clients - {clientID};
        return false, Client(0, "", "");
      }
      found, c := true, clients[clientID];
      Leave(clientID, c.roomID);
      clients := clients - {clientID};
    }

    /** handleDisconnect: the region, then the callback outside the lock. */
    method HandleDisconnect(clientID: string)
      requires Valid()
      modifies this, rooms.Values
      ensures Valid() && rooms.Values <= old(rooms.Values)
      ensures View() == Unregister(old(View()), clientID)
      ensures clients == old(clients) - {clientID}
      ensures disconnected
           == old(disconnected) + if clientID in old(clients) then [old(clients)[clientID]] else []
      ensures unchanged(`writes, `greeted, `messages)
    {
      hide Unregister;
      var found, c := Unlist(clientID);
      if found {
        disconnected := disconnected + [c];
      }
    }

    /** The read loop: every message goes to onMessage, in order. */
    method Listen(c: Client, incoming: seq<string>)
      modifies `messages
      ensures messages == old(messages) + IncomingAll(c, incoming)
    {
      for i := 0 to |incoming|
        invariant messages == old(messages) + IncomingAll(c, incoming)[..i]
      {
        messages := messages + [Incoming(c, incoming[i])];
      }
    }

    /** HandleConnection from the registration on: registered, greeted, heard and disconnected. */
    method Serve(conn: nat, clientID: string, roomID: string, incoming: seq<string>) returns (c: Client)
      requires Valid() && Agrees(View())
      modifies this, rooms.Values
      ensures Valid() && Agrees(View()) && c == Client(conn, clientID, roomID)
      ensures View() == Unregister(Register(old(View()), c), clientID)
      ensures greeted == old(greeted) + [c] && messages == old(messages) + IncomingAll(c, incoming)
      ensures disconnected == old(disconnected) + [c]
    {
      hide Agrees;
      hide Unregister;
      ghost var x := View();
      RegisterAgrees(x, Client(conn, clientID, roomID));
      c := Join(conn, clientID, roomID);
      assert clientID in clients && clients[clientID] == c;
      hide Register;
      UnregisterAgrees(View(), clientID);
      greeted := greeted + [c];
      Listen(c, incoming);
      assert View() == Register(x, c);
      HandleDisconnect(clientID);
    }

    /**
     HandleConnection run alone, on a connection that delivers these messages and then a read error.
     Without approval or upgrade nothing happens; otherwise the client is registered, greeted, heard
     and disconnected, and an ID that was not in use leaves the index as it found it.
     */
    method HandleConnection(conn: nat, answer: Answer, upgraded: bool, incoming: seq<string>) returns (served: bool)
      requires Valid() && Agrees(View())
      modifies this, rooms.Values
      ensures Valid() && Agrees(View())
      ensures served == (answer.Metadata? && answer.accepted && upgraded)
      ensures !served ==> View() == old(View()) && unchanged(this)
      ensures served ==>
                var c := Client(conn, answer.clientID, answer.roomID);
                && greeted == old(greeted) + [c] && messages == old(messages) + IncomingAll(c, incoming)
                && disconnected == old(disconnected) + [c]
      ensures served && old(Exact(View())) && answer.clientID !in old(clients) ==> View() == old(View())
    {
      served := false;
      if answer.Refused? || !upgraded || !answer.accepted {
        return;
      }
      hide Agrees;
      hide Exact;
      hide Register;
      hide Unregister;
      ghost var x := View();
      var c := Serve(conn, answer.clientID, answer.roomID, incoming);
      NewIdUndone(x, c);
      served := true;
    }

    /** The copy loop: the values of a map in whatever order its iteration takes. */
    static method Copy(members: Members) returns (order: seq<Client>)
      requires Keyed(members)
      ensures Lists(order, members)
    {
      order := [];
      var ids := members.Keys;
      while ids != {}
        invariant ids <= members.Keys && NoDuplicates(order)
        invariant forall c :: c in order <==> c.clientID in members && c.clientID !in ids && members[c.clientID] == c
        decreases |ids|
      {
        var id :| id in ids;
        ids := ids - {id};
        order := order + [members[id]];
      }
    }

    /** One WriteMessage call; its result is what the connection gives. */
    method WriteMessage(c: Client, message: string, failing: set<nat>) returns (ok: bool)
      modifies `writes
      ensures ok == (c.conn !in failing) && writes == old(writes) + [Write(c, message, ok)]
    {
      ok := c.conn !in failing;
      writes := writes + [Write(c, message, ok)];
    }

    /** One write of the broadcast, and the disconnect if it fails. */
    method SendOrDisconnect(c: Client, message: string, failing: set<nat>)
      requires Valid() && Agrees(View())
      modifies this, rooms.Values
      ensures Valid() && rooms.Values <= old(rooms.Values)
      ensures Agrees(View()) && (old(Exact(View())) ==> Exact(View()))
      ensures writes == old(writes) + [Write(c, message, c.conn !in failing)]
      ensures c.conn !in failing ==> clients == old(clients) && disconnected == old(disconnected)
      ensures c.conn in failing && c.clientID in old(clients) ==>
                && clients == old(clients) - {c.clientID}
                && disconnected == old(disconnected) + [old(clients)[c.clientID]]
    {
      hide Agrees;
      hide Exact;
      hide Unregister;
      ghost var before := View();
      var ok := WriteMessage(c, message, failing);
      if !ok {
        HandleDisconnect(c.clientID);
        UnregisterAgrees(before, c.clientID);
        if Exact(before) {
          UnregisterExact(before, c.clientID);
        }
      }
    }

    /** The broadcast has sent to order[..i], starting with those members, writes and callbacks. */
    ghost predicate Sent(order: seq<Client>, i: nat, message: string, failing: set<nat>,
                         members: Members, before: seq<Write>, calls: seq<Client>)
      requires i <= |order|
      reads this
    {
      && writes == before + WritesTo(order, message, failing)[..i]
      && disconnected == calls + Failed(order[..i], failing)
      && clients == Without(members, Failed(order[..i], failing))
    }

    /** One round of the broadcast loop. */
    method Round(order: seq<Client>, i: nat, message: string, failing: set<nat>,
                 ghost members: Members, ghost before: seq<Write>, ghost calls: seq<Client>)
      requires Valid() && Agrees(View()) && Lists(order, members) && Keyed(members)
      requires i < |order| && Sent(order, i, message, failing, members, before, calls)
      modifies this, rooms.Values
      ensures Valid() && rooms.Values <= old(rooms.Values)
      ensures Agrees(View()) && (old(Exact(View())) ==> Exact(View()))
      ensures Sent(order, i + 1, message, failing, members, before, calls)
    {
      hide Agrees;
      hide Exact;
      hide Failed;
      hide Without;
      hide WritesTo;
      FailedNext(members, order, i, failing);
      WritesNext(order, message, failing, i);
      SendOrDisconnect(order[i], message, failing);
    }

    /** The loop of the broadcast over its snapshot of the members. */
    method SendAll(order: seq<Client>, message: string, failing: set<nat>, ghost members: Members)
      requires Valid() && Agrees(View()) && members == clients && Lists(order, members) && Keyed(members)
      modifies this, rooms.Values
      ensures Valid() && Agrees(View()) && (old(Exact(View())) ==> Exact(View()))
      ensures Sent(order, |order|, message, failing, members, old(writes), old(disconnected))
    {
      WithoutNone(members);
      FailedNone(failing);
      assert order[..0] == [];
      hide Failed;
      hide Agrees;
      hide Exact;
      hide Lists;
      for i := 0 to |order|
        invariant Valid() && rooms.Values <= old(rooms.Values)
        invariant Agrees(View()) && (old(Exact(View())) ==> Exact(View()))
        invariant Sent(order, i, message, failing, members, old(writes), old(disconnected))
      {
        hide *;
        Round(order, i, message, failing, members, old(writes), old(disconnected));
      }
    }

    /** The snapshot of a broadcast. */
    method Snapshot(ghost failing: set<nat>) returns (order: seq<Client>)
      requires Valid() && Agrees(View())
      ensures Lists(order, clients) && Keyed(clients)
      ensures Without(clients, Failed(order, failing)) == Succeeding(clients, failing)
    {
      KeysAgree(View());
      order := Copy(clients);
      WithoutFailed(clients, order, failing);
    }

    /** What has been sent when the loop is through. */
    lemma AllSent(order: seq<Client>, message: string, failing: set<nat>,
                  members: Members, before: seq<Write>, calls: seq<Client>)
      requires Sent(order, |order|, message, failing, members, before, calls)
      requires Without(members, Failed(order, failing)) == Succeeding(members, failing)
      ensures writes == before + WritesTo(order, message, failing)
      ensures disconnected == calls + Failed(order, failing) && clients == Succeeding(members, failing)
    {
      assert order[..|order|] == order;
    }

    /**
     BroadcastMessage run alone: every connected client is written to once; those whose write fails,
     and only those, are disconnected, each with one callback, and the index still agrees.
     */
    method BroadcastMessage(message: string, failing: set<nat>) returns (order: seq<Client>)
      requires Valid() && Agrees(View())
      modifies this, rooms.Values
      ensures Valid() && Agrees(View()) && (old(Exact(View())) ==> Exact(View()))
      ensures Lists(order, old(clients)) && writes == old(writes) + WritesTo(order, message, failing)
      ensures disconnected == old(disconnected) + Failed(order, failing)
      ensures clients == Succeeding(old(clients), failing)
      ensures forall id :: id in clients <==> id in old(clients) && old(clients)[id].conn !in failing
      ensures old(disconnected) <= disconnected
      ensures forall c :: c in disconnected[|old(disconnected)|..] <==> c in order && c.conn in failing
    {
      hide *;
      order := Snapshot(failing);
      SendAll(order, message, failing, clients);
      Leavers(old(clients), order, old(disconnected), failing);
      AllSent(order, message, failing, old(clients), old(writes), old(disconnected));
    }

    /** The loop that writes one message to every client of a snapshot. */
    method WriteAll(order: seq<Client>, message: string, failing: set<nat>)
      modifies `writes
      ensures writes == old(writes) + WritesTo(order, message, failing)
    {
      for i := 0 to |order|
        invariant writes == old(writes) + WritesTo(order, message, failing)[..i]
      {
        var _ := WriteMessage(order[i], message, failing);
      }
    }

    /**
     MessageToRoom: every member of the room in the snapshot is written to once, nobody else, and
     under an exact index these are the connected clients whose RoomID it is.
     */
    method MessageToRoom(roomID: string, message: string, failing: set<nat>) returns (order: seq<Client>)
      requires Valid() && Agrees(View())
      modifies `writes
      ensures writes == old(writes) + WritesTo(order, message, failing)
      ensures Lists(order, if roomID in rooms then rooms[roomID].clients else map[])
      ensures Exact(View()) ==> Lists(order, InRoom(clients, roomID))
    {
      ghost var x := View();
      if roomID !in rooms {
        order := [];
      } else {
        assert x.rooms[roomID] == rooms[roomID].clients;
        RoomKeysAgree(x, roomID);
        order := Copy(rooms[roomID].clients);
        WriteAll(order, message, failing);
      }
      hide Agrees;
      hide Lists;
      hide InRoom;
      if Exact(x) {
        ExactRoom(x, roomID);
      }
    }

    /** MessageToConnection and SendMessage: one write to the client of that ID, if it is connected. */
    method MessageToConnection(clientID: string, message: string, failing: set<nat>) returns (found: bool)
      requires Valid()
      modifies `writes
      ensures found == (clientID in clients)
      ensures writes == old(writes) + if found then WritesTo([clients[clientID]], message, failing) else []
    {
      found := clientID in clients;
      if found {
        var _ := WriteMessage(clients[clientID], message, failing);
      }
    }
  }
}
