/**
 The client map of the WebSocket server and its secondary index by room: the two regions under mu
 that change them, and what they keep.
 */
module RoomIndex {

  /** A connClient; conn identifies its WebSocket connection, so equal clients are the same object. */
  datatype Client = Client(conn: nat, clientID: string, roomID: string)

  type Members = map<string, Client>

  datatype Index = Index(clients: Members, rooms: map<string, Members>)

  /** Each entry carries its key as ClientID. */
  ghost predicate Keyed(members: Members) {
    forall id | id in members :: members[id].clientID == id
  }

  const EMPTY := Index(map[], map[])

  /** The rooms with c put into its room, which is made if there is none. */
  function RoomsWith(rooms: map<string, Members>, c: Client): map<string, Members> {
    var members := if c.roomID in rooms then rooms[c.roomID] else map[];
    rooms[c.roomID := members[c.clientID := c]]
  }

  /** The rooms with an ID taken out of one room, which goes away when it is left empty. */
  function RoomsWithout(rooms: map<string, Members>, room: string, id: string): map<string, Members> {
    if room !in rooms then rooms
    else if rooms[room] - {id} == map[] then rooms - {room}
    else rooms[room := rooms[room] - {id}]
  }

  /** The registration region of HandleConnection. */
  function Register(x: Index, c: Client): Index {
    Index(x.clients[c.clientID := c], RoomsWith(x.rooms, c))
  }

  /** The region of handleDisconnect; nothing happens for an unknown ID. */
  function Unregister(x: Index, id: string): Index {
    if id !in x.clients then x
    else Index(x.clients - {id}, RoomsWithout(x.rooms, x.clients[id].roomID, id))
  }

  /** Each entry of clients is in its room, and each room member carries its keys; no room is empty. */
  ghost predicate Agrees(x: Index) {
    && (forall id | id in x.clients ::
          var c := x.clients[id];
          c.clientID == id && c.roomID in x.rooms && id in x.rooms[c.roomID] && x.rooms[c.roomID][id] == c)
    && (forall r | r in x.rooms :: x.rooms[r] != map[])
    && (forall r, id | r in x.rooms && id in x.rooms[r] ::
          x.rooms[r][id].roomID == r && x.rooms[r][id].clientID == id)
  }

  /** Every room member is the connected client of that ID. */
  ghost predicate NothingStale(x: Index) {
    forall r, id | r in x.rooms && id in x.rooms[r] :: id in x.clients && x.clients[id] == x.rooms[r][id]
  }

  function RoomsOf(clients: Members): set<string> {
    set id | id in clients :: clients[id].roomID
  }

  function InRoom(clients: Members, room: string): Members {
    map id | id in clients && clients[id].roomID == room :: clients[id]
  }

  /** The clients grouped by their room. */
  function Grouped(clients: Members): map<string, Members> {
    map room | room in RoomsOf(clients) :: InRoom(clients, room)
  }

  /** rooms is exactly clients grouped by RoomID. */
  ghost predicate Exact(x: Index) {
    Keyed(x.clients) && x.rooms == Grouped(x.clients)
  }

  lemma ExactAgrees(x: Index)
    requires Exact(x)
    ensures Agrees(x) && NothingStale(x)
  {
    forall r | r in x.rooms
      ensures x.rooms[r] != map[]
    {
      var id :| id in x.clients && x.clients[id].roomID == r;
      assert id in x.rooms[r];
    }
    assert forall id | id in x.clients :: x.clients[id].roomID in x.rooms;
  }

  lemma SameRoom(x: Index, r: string)
    requires Agrees(x) && NothingStale(x) && r in x.rooms
    ensures r in RoomsOf(x.clients) && x.rooms[r] == InRoom(x.clients, r)
  {
    var id :| id in x.rooms[r];
    assert id in x.clients && x.clients[id].roomID == r;
  }

  lemma RoomsCovered(x: Index)
    requires Agrees(x)
    ensures RoomsOf(x.clients) <= x.rooms.Keys
  {
  }

  lemma AgreesExact(x: Index)
    requires Agrees(x) && NothingStale(x)
    ensures Exact(x)
  {
    RoomsCovered(x);
    forall r | r in x.rooms
      ensures r in RoomsOf(x.clients) && x.rooms[r] == InRoom(x.clients, r)
    {
      SameRoom(x, r);
    }
    assert Keyed(x.clients);
    hide Agrees;
    hide NothingStale;
    hide RoomsOf;
    hide InRoom;
    assert x.rooms.Keys == Grouped(x.clients).Keys;
  }

  lemma ExactMeans(x: Index)
    ensures Exact(x) <==> Agrees(x) && NothingStale(x)
  {
    if Exact(x) {
      ExactAgrees(x);
    }
    if Agrees(x) && NothingStale(x) {
      AgreesExact(x);
    }
  }

  lemma RegisterAgrees(x: Index, c: Client)
    requires Agrees(x)
    ensures Agrees(Register(x, c))
  {
    var y := Register(x, c);
    assert c.clientID in y.rooms[c.roomID];
    forall id | id in y.clients
      ensures var d := y.clients[id];
        d.clientID == id && d.roomID in y.rooms && id in y.rooms[d.roomID] && y.rooms[d.roomID][id] == d
    {
      if id != c.clientID {
        assert id in x.clients;
      }
    }
  }

  lemma UnregisterAgrees(x: Index, id: string)
    requires Agrees(x)
    ensures Agrees(Unregister(x, id))
  {
    var y := Unregister(x, id);
    if id in x.clients {
      var room := x.clients[id].roomID;
      forall i | i in y.clients
        ensures var d := y.clients[i];
          d.clientID == i && d.roomID in y.rooms && i in y.rooms[d.roomID] && y.rooms[d.roomID][i] == d
      {
        assert i in x.clients && i != id;
        assert x.clients[i].roomID == room ==> i in x.rooms[room] - {id};
      }
    }
  }

  lemma FreshStale(x: Index, c: Client)
    requires Agrees(x) && NothingStale(x)
    requires c.clientID in x.clients ==> x.clients[c.clientID].roomID == c.roomID
    ensures NothingStale(Register(x, c))
  {
    var y := Register(x, c);
    forall r, id | r in y.rooms && id in y.rooms[r]
      ensures id in y.clients && y.clients[id] == y.rooms[r][id]
    {
      if r == c.roomID {
        assert id == c.clientID || id in x.rooms[r];
      } else {
        assert x.clients[id] == x.rooms[r][id] && x.rooms[r][id].roomID == r;
      }
    }
  }

  lemma ReuseStale(x: Index, c: Client)
    requires Agrees(x) && c.clientID in x.clients && x.clients[c.clientID].roomID != c.roomID
    ensures !NothingStale(Register(x, c))
  {
    var y, d := Register(x, c), x.clients[c.clientID];
    assert d.roomID in y.rooms && c.clientID in y.rooms[d.roomID];
    assert y.clients[c.clientID] != y.rooms[d.roomID][c.clientID];
  }

  /** From an exact index, a registration keeps exactness unless the ID is connected in another room. */
  lemma RegisterExact(x: Index, c: Client)
    requires Exact(x)
    ensures Exact(Register(x, c)) <==> !(c.clientID in x.clients && x.clients[c.clientID].roomID != c.roomID)
  {
    hide Exact;
    hide Agrees;
    hide NothingStale;
    hide Register;
    ExactMeans(x);
    ExactMeans(Register(x, c));
    RegisterAgrees(x, c);
    if c.clientID in x.clients && x.clients[c.clientID].roomID != c.roomID {
      ReuseStale(x, c);
    } else {
      FreshStale(x, c);
    }
  }

  lemma MembersWithout(rooms: map<string, Members>, room: string, id: string)
    ensures forall r, i | r in RoomsWithout(rooms, room, id) && i in RoomsWithout(rooms, room, id)[r] ::
              && r in rooms && i in rooms[r] && RoomsWithout(rooms, room, id)[r][i] == rooms[r][i]
              && (r == room ==> i != id)
  {
  }

  lemma MemberFacts(x: Index, r: string, i: string)
    requires Agrees(x) && NothingStale(x) && r in x.rooms && i in x.rooms[r]
    ensures x.rooms[r][i].roomID == r && i in x.clients && x.clients[i] == x.rooms[r][i]
  {
  }

  lemma GoneStale(x: Index, id: string)
    requires Agrees(x) && NothingStale(x)
    ensures NothingStale(Unregister(x, id))
  {
    hide Agrees;
    var y := Unregister(x, id);
    if id in x.clients {
      MembersWithout(x.rooms, x.clients[id].roomID, id);
      hide RoomsWithout;
      forall r, i | r in y.rooms && i in y.rooms[r]
        ensures i in y.clients && y.clients[i] == y.rooms[r][i]
      {
        MemberFacts(x, r, i);
      }
    }
  }

  lemma UnregisterExact(x: Index, id: string)
    requires Exact(x)
    ensures Exact(Unregister(x, id))
  {
    hide Exact;
    hide Agrees;
    hide NothingStale;
    hide Unregister;
    ExactMeans(x);
    ExactMeans(Unregister(x, id));
    UnregisterAgrees(x, id);
    GoneStale(x, id);
  }

  /** In an exact index, a room holds exactly the clients whose RoomID it is. */
  lemma RoomIsFilter(x: Index, room: string, c: Client)
    requires Exact(x)
    ensures (room in x.rooms && c.clientID in x.rooms[room] && x.rooms[room][c.clientID] == c)
       <==> (c.clientID in x.clients && x.clients[c.clientID] == c && c.roomID == room)
  {
    ExactMeans(x);
  }

  /** Registering and disconnecting a new ID leaves the index as it was. */
  lemma RegisterUnregister(x: Index, c: Client)
    requires Agrees(x) && c.clientID !in x.clients
    requires c.roomID in x.rooms ==> c.clientID !in x.rooms[c.roomID]
    ensures Unregister(Register(x, c), c.clientID) == x
  {
    var y := Register(x, c);
    assert y.clients - {c.clientID} == x.clients;
    if c.roomID in x.rooms {
      assert y.rooms[c.roomID] - {c.clientID} == x.rooms[c.roomID];
      assert y.rooms[c.roomID := x.rooms[c.roomID]] == x.rooms;
    } else {
      assert y.rooms[c.roomID] == map[c.clientID := c];
      assert y.rooms[c.roomID] - {c.clientID} == map[];
      assert y.rooms - {c.roomID} == x.rooms;
    }
  }
}
