/** The WebsocketActions entries that the bridge gives to the dispatcher. */
module Bridge {
  import opened Messages
  import opened RoomIndex
  import opened WebSockets

  /**
   The dispatcher's action for one request that is not a response: its own message is written once to each
   client it is for, and to nobody else. A room stands for its members, which in an exact index are the
   clients whose RoomID it is; an action without an entry is for nobody. Only a broadcast disconnects, and
   only those it could not write to.
   */
  method RunAction(server: WebSocketServer, action: ServerAction, failing: set<nat>) returns (order: seq<Client>)
    requires server.Valid() && Agrees(server.View())
    modifies server, server.rooms.Values
    ensures server.Valid() && Agrees(server.View()) && (old(Exact(server.View())) ==> Exact(server.View()))
    ensures action.MessageToRoom? ==>
              var x := old(server.View());
              && Lists(order, if action.room in x.rooms then x.rooms[action.room] else map[])
              && (Exact(x) ==> Lists(order, InRoom(x.clients, action.room)))
    ensures action.MessageToConnection? ==>
              order == if action.connID in old(server.clients) then [old(server.clients)[action.connID]] else []
    ensures action.Broadcast? ==> Lists(order, old(server.clients))
    ensures action.Response? || action.Unknown? ==> order == []
    ensures old(server.writes) <= server.writes && |server.writes| == |old(server.writes)| + |order|
    ensures forall i | 0 <= i < |order| ::
              var w := server.writes[|old(server.writes)| + i];
              w.client == order[i] && w.ok == (order[i].conn !in failing)
    ensures action.MessageToRoom? || action.MessageToConnection? || action.Broadcast? ==>
              forall i | |old(server.writes)| <= i < |server.writes| :: server.writes[i].message == action.message
    ensures forall id :: id in server.clients <==>
              id in old(server.clients) && (action.Broadcast? ==> old(server.clients)[id].conn !in failing)
    ensures forall id | id in server.clients :: server.clients[id] == old(server.clients)[id]
  {
    order := [];
    hide Exact;
    hide Agrees;
    hide Lists;
    hide InRoom;
    match action
    case MessageToRoom(room, message) =>
      order := server.MessageToRoom(room, message, failing);
    case MessageToConnection(id, message) =>
      var found := server.MessageToConnection(id, message, failing);
      if found {
        order := [server.clients[id]];
      }
    case Broadcast(message) =>
      order := server.BroadcastMessage(message, failing);
    case _ =>
  }
}
