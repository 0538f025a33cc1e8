/** The messages the WebSocket bridge and its TCP backends exchange. */
module Messages {

  /** A UUID drawn for one request; only equality matters. */
  type RequestId = nat

  /** One accepted TCP connection to a backend. */
  type ConnId = nat

  /** What a request to a backend asks for, with the parameters the proofs look at. */
  datatype BackendAction =
    | ConnectionRequest
    | NewMessage(clientID: string, message: string)
    | Disconnected(clientID: string)
    | NewConnection(clientID: string)
    | ErrorReport
    | Heartbeat

  datatype BackendRequest = BackendRequest(requestID: RequestId, action: BackendAction)

  /** What a backend asks of the server; Unknown is any action without a registered handler. */
  datatype ServerAction =
    | Response(accepted: bool, clientID: string, roomID: string)
    | MessageToRoom(room: string, message: string)
    | MessageToConnection(connID: string, message: string)
    | Broadcast(message: string)
    | Unknown

  datatype ServerRequest = ServerRequest(requestID: RequestId, action: ServerAction)

  /** The slots of the channel PendingServerRequests. */
  const CAPACITY: nat := 256
}
