/**
 NewSocketConnection and the body of HandleRequests as their goroutines run them, with other
 goroutines in between. As in module Server, the record of regions stays a run of the machine.
 A channel wait is a bounded number of looks; a wait that outlasts them is reported as such.
 */
module Services {
  import opened Messages
  import opened Rendezvous
  import Server
  import RoomIndex
  import WebSockets
  import Bridge

  datatype Goroutine = Caller(w: nat) | Dispatch

  /** The events that only goroutine g performs. */
  predicate Owns(g: Goroutine, e: Event) {
    match g
    case Caller(w) =>
      (e.SendOk? || e.SendErr? || e.Proceed? || e.Receive? || e.Finish?) && e.w == w
    case Dispatch => e.Pop? || e.Lookup? || e.Act? || e.Feed?
  }

  ghost predicate NotBy(g: Goroutine, es: seq<Event>, k: nat) {
    forall j | k <= j < |es| :: !Owns(g, es[j])
  }

  /** What goroutine g can rely on while others run. */
  ghost predicate Kept(g: Goroutine, s: State, s': State) {
    match g
    case Caller(w) =>
      w < |s.waiters| ==>
        && w < |s'.waiters| && s'.waiters[w].pc == s.waiters[w].pc && s'.waiters[w].id == s.waiters[w].id
    case Dispatch => s'.dispatcher == s.dispatcher && s'.dispatched == s.dispatched
  }

  lemma KeptStep(g: Goroutine, s: State, e: Event)
    requires Enabled(s, e) && !Owns(g, e)
    ensures Kept(g, s, Apply(s, e))
  {
  }

  lemma {:induction false} KeptRun(g: Goroutine, es: seq<Event>, k: nat)
    requires k <= |es| && Run(es).Some? && NotBy(g, es, k)
    ensures Run(es[..k]).Some? && Kept(g, Run(es[..k]).value, Run(es).value)
  {
    if k == |es| {
      assert es[..k] == es;
    } else {
      var l := |es| - 1;
      assert es[..l][..k] == es[..k];
      KeptRun(g, es[..l], k);
      KeptStep(g, Run(es[..l]).value, es[l]);
    }
  }

  /** A call that has not returned is registered with its own channel. */
  lemma OwnEntry(s: State, w: nat)
    requires Entries(s) && w < |s.waiters| && Live(s.waiters[w].pc)
    ensures s.waiters[w].id in s.pending && s.pending[s.waiters[w].id] == w
  {
  }

  datatype Outcome = Approved(resp: ServerRequest) | Error | StillWaiting

  class Services {
    var PendingResponses: map<RequestId, nat>
    var channels: seq<seq<ServerRequest>>  // the contents of each one-slot response channel
    var PendingServerRequests: seq<ServerRequest>
    ghost var run: seq<Event>

    ghost function State(): State
      requires Run(run).Some?
      reads this
    {
      Run(run).value
    }

    ghost predicate Shows(s: State)
      reads this
    {
      && PendingResponses == s.pending
      && |channels| == |s.waiters|
      && (forall w | 0 <= w < |channels| :: channels[w] == s.waiters[w].slot)
      && PendingServerRequests == s.inbox
    }

    ghost predicate Valid()
      reads this
    {
      Run(run).Some? && Shows(State())
    }

    constructor ()
      ensures Valid() && run == []
    {
      PendingResponses, channels, PendingServerRequests, run := map[], [], [], [];
    }

    /** Other goroutines run: any number of events that are not of goroutine g. */
    method Yield(ghost g: Goroutine)
      requires Valid()
      modifies this
      ensures Valid() && old(run) <= run && NotBy(g, run, |old(run)|)
      ensures Kept(g, old(State()), State())
    {
      KeptRun(g, run, |run|);
    }

    ghost method Record(e: Event)
      requires Run(run).Some? && Enabled(State(), e) && Shows(Apply(State(), e))
      modifies this`run
      ensures Valid() && run == old(run) + [e] && State() == Apply(old(State()), e)
    {
      RunExtend(run, State(), e);
      run := run + [e];
    }

    /** The first region: make the channel and register it. */
    method Register(requestID: RequestId) returns (w: nat)
      requires Valid() && Enabled(State(), Call(requestID))
      modifies this
      ensures Valid() && run == old(run) + [Call(requestID)]
      ensures w < |State().waiters| && State().waiters[w] == Waiter(requestID, [], Registered)
    {
      w := |channels|;
      channels := channels + [[]];
      PendingResponses := PendingResponses[requestID := w];
      Record(Call(requestID));
    }

    /** The last region, on both paths: delete the entry. */
    method Delete(requestID: RequestId, w: nat)
      requires Valid() && Enabled(State(), Finish(w)) && State().waiters[w].id == requestID
      modifies this
      ensures Valid() && run == old(run) + [Finish(w)]
      ensures State() == Apply(old(State()), Finish(w))
      ensures requestID !in PendingResponses
    {
      PendingResponses := PendingResponses - {requestID};
      Record(Finish(w));
    }

    /** The receive, if the channel holds something. */
    method TryReceive(w: nat) returns (got: bool, resp: ServerRequest)
      requires Valid() && w < |State().waiters| && State().waiters[w].pc.Waiting?
      modifies this
      ensures Valid() && old(run) <= run
      ensures got ==> run == old(run) + [Receive(w)] && State() == Apply(old(State()), Receive(w))
      ensures got ==> State().waiters[w].pc == Received(resp)
      ensures w < |old(channels)| && got == (old(channels[w]) != [])
      ensures !got ==> run == old(run) && channels == old(channels)
    {
      if channels[w] == [] {
        return false, ServerRequest(0, Unknown);
      }
      got, resp := true, channels[w][0];
      channels := channels[w := []];
      Record(Receive(w));
    }

    /** A step of the call that changes only its position: sendMessage returned, or the receive is next. */
    ghost method Advance(requestID: RequestId, w: nat, e: Event)
      requires Valid() && Enabled(State(), e) && e in {SendOk(w), SendErr(w), Proceed(w)}
      requires State().waiters[w].id == requestID
      modifies this`run
      ensures Valid() && run == old(run) + [e]
      ensures w < |State().waiters| && State().waiters[w].id == requestID
      ensures State().waiters[w].pc == if e.SendOk? then Wrote else if e.SendErr? then Errored else Waiting
    {
      Record(e);
    }

    /** The channel registered for that request is empty. */
    ghost predicate NothingFor(requestID: RequestId)
      reads this
    {
      && requestID in PendingResponses && PendingResponses[requestID] < |channels|
      && channels[PendingResponses[requestID]] == []
    }

    /** The wait for the response, and the deletion of the entry once it is there. */
    method Await(requestID: RequestId, w: nat, patience: nat) returns (r: Outcome)
      requires Valid() && w < |State().waiters|
      requires State().waiters[w].pc == Waiting && State().waiters[w].id == requestID
      modifies this
      ensures Valid() && old(run) <= run && !r.Error?
      ensures r.Approved? ==>
                && Answers(State().dispatched, requestID) != []
                && r.resp == Answers(State().dispatched, requestID)[0]
      ensures r.StillWaiting? <==> requestID in PendingResponses
      ensures r.StillWaiting? && patience > 0 ==> NothingFor(requestID)
    {
      hide Answers;
      for look := 0 to patience
        invariant Valid() && old(run) <= run && w < |State().waiters|
        invariant State().waiters[w].pc == Waiting && State().waiters[w].id == requestID
        invariant look > 0 ==> channels[w] == []
      {
        Yield(Caller(w));
        var got, resp := TryReceive(w);
        if got {
          Yield(Caller(w));
          Delete(requestID, w);
          Correlation(run, State(), w);
          return Approved(resp);
        }
      }
      InvHolds(run, State());
      OwnEntry(State(), w);
      return StillWaiting;
    }

    /** The rest of the call, once sendMessage has returned. */
    method GoOn(requestID: RequestId, w: nat, sent: bool, patience: nat) returns (r: Outcome)
      requires Valid() && w < |State().waiters|
      requires State().waiters[w].pc == Registered && State().waiters[w].id == requestID
      modifies this
      ensures Valid() && old(run) <= run && (r.Error? <==> !sent)
      ensures r.Approved? ==>
                && Answers(State().dispatched, requestID) != []
                && r.resp == Answers(State().dispatched, requestID)[0]
      ensures r.StillWaiting? <==> requestID in PendingResponses
      ensures r.StillWaiting? && patience > 0 ==> NothingFor(requestID)
    {
      hide Answers;
      if !sent {
        Advance(requestID, w, SendErr(w));
        Yield(Caller(w));
        Delete(requestID, w);
        return Error;
      }
      Advance(requestID, w, SendOk(w));
      Yield(Caller(w));
      Advance(requestID, w, Proceed(w));
      r := Await(requestID, w, patience);
    }

    /**
     NewSocketConnection with a fresh request ID, through the sendMessage of the TCP server. An error is
     returned exactly when the request was not written, and it then waits nowhere; an approved call
     returns the first dispatched response to its own ID; the entry is gone on every return.
     */
    method NewSocketConnection(server: Server.TCPServer, requestID: RequestId, patience: nat) returns (r: Outcome)
      requires Valid() && Enabled(State(), Call(requestID))
      requires server.Valid() && forall b | b in server.State().hist.begun :: b.requestID != requestID
      modifies this, server
      ensures Valid() && old(run) <= run && server.Valid() && old(server.run) <= server.run
      ensures server.Writes(BackendRequest(requestID, ConnectionRequest)) == if r.Error? then 0 else 1
      ensures r.Approved? ==>
                && Answers(State().dispatched, requestID) != []
                && r.resp == Answers(State().dispatched, requestID)[0]
      ensures r.StillWaiting? <==> requestID in PendingResponses
      ensures r.StillWaiting? && patience > 0 ==> NothingFor(requestID)
    {
      hide Answers;
      var w := Register(requestID);
      var sent := server.Send(BackendRequest(requestID, ConnectionRequest));
      Yield(Caller(w));
      r := GoOn(requestID, w, sent, patience);
    }

    /** The channel send, if the slot is free. */
    method TrySend(w: nat, q: ServerRequest) returns (sent: bool)
      requires Valid() && State().dispatcher == Feeding(w, q) && w < |channels|
      modifies this
      ensures Valid() && sent == (old(channels[w]) == [])
      ensures sent ==> run == old(run) + [Feed] && State() == Apply(old(State()), Feed)
      ensures !sent ==> run == old(run) && channels == old(channels)
    {
      sent := channels[w] == [];
      if sent {
        channels := channels[w := [q]];
        Record(Feed);
      }
    }

    /** The wait for a free slot. */
    method Deliver(w: nat, q: ServerRequest, patience: nat) returns (sent: bool)
      requires Valid() && State().dispatcher == Feeding(w, q) && w < |channels|
      modifies this
      ensures Valid() && old(run) <= run
      ensures State().dispatched == old(State().dispatched)
      ensures State().dispatcher == if sent then Idle else Feeding(w, q)
      ensures !sent && patience > 0 ==> w < |channels| && channels[w] != []
    {
      sent := false;
      for look := 0 to patience
        invariant Valid() && old(run) <= run && !sent
        invariant State().dispatcher == Feeding(w, q) && State().dispatched == old(State().dispatched)
        invariant look > 0 ==> w < |channels| && channels[w] != []
      {
        Yield(Dispatch);
        InvHolds(run, State());
        sent := TrySend(w, q);
        if sent {
          return;
        }
      }
    }

    /** The region that looks the response's caller up. */
    method LookUp(q: ServerRequest) returns (found: bool, w: nat)
      requires Valid() && State().dispatcher == Popped(q) && q.action.Response?
      modifies this
      ensures Valid() && run == old(run) + [Lookup] && State().dispatched == old(State().dispatched)
      ensures found == (q.requestID in PendingResponses) && PendingResponses == old(PendingResponses)
      ensures State().dispatcher == if found then Feeding(w, q) else Idle
      ensures found ==> w < |channels|
    {
      InvHolds(run, State());
      found, w := q.requestID in PendingResponses, 0;
      if found {
        w := PendingResponses[q.requestID];
      }
      Record(Lookup);
    }

    /** The receive of the select, with a request in the channel. */
    method NextRequest() returns (q: ServerRequest)
      requires Valid() && State().dispatcher.Idle? && PendingServerRequests != []
      modifies this
      ensures Valid() && old(run) <= run && q == old(PendingServerRequests)[0]
      ensures State().dispatched == old(State().dispatched) + [q] && State().dispatcher == Popped(q)
    {
      q := PendingServerRequests[0];
      PendingServerRequests := PendingServerRequests[1..];
      Record(Pop);
      Yield(Dispatch);
    }

    /** The case of any other action, when it has been run. */
    ghost method Acted(q: ServerRequest)
      requires Valid() && State().dispatcher == Popped(q) && !q.action.Response?
      modifies this`run
      ensures Valid() && old(run) <= run
      ensures State().dispatched == old(State().dispatched) && State().dispatcher.Idle?
    {
      Record(Act);
    }

    /** The case of a response: to its registered caller, or to nobody. */
    method Respond(q: ServerRequest, patience: nat) returns (stuck: bool)
      requires Valid() && State().dispatcher == Popped(q) && q.action.Response?
      modifies this
      ensures Valid() && old(run) <= run && State().dispatched == old(State().dispatched)
      ensures State().dispatcher.Idle? || (stuck && State().dispatcher.Feeding? && State().dispatcher.req == q)
      ensures State().dispatcher.Idle? <==> !stuck
      ensures stuck && patience > 0 ==> Blocked(State())
    {
      stuck := false;
      var found, w := LookUp(q);
      if found {
        var sent := Deliver(w, q, patience);
        stuck := !sent;
      }
    }

    /**
     One round of HandleRequests with a request in the channel: the oldest is taken out; a response
     goes to its registered caller or is discarded, anything else runs its WebsocketActions entry, which
     writes once to each client the action is for. A response writes to no client.
     */
    method HandleRequest(sockets: WebSockets.WebSocketServer, failing: set<nat>, patience: nat)
      returns (q: ServerRequest, order: seq<RoomIndex.Client>, stuck: bool)
      requires Valid() && State().dispatcher.Idle? && PendingServerRequests != []
      requires sockets.Valid() && RoomIndex.Agrees(sockets.View())
      modifies this, sockets, sockets.rooms.Values
      ensures Valid() && old(run) <= run && q == old(PendingServerRequests)[0]
      ensures State().dispatched == old(State().dispatched) + [q]
      ensures if stuck then State().dispatcher.Feeding? && State().dispatcher.req == q else State().dispatcher.Idle?
      ensures stuck && patience > 0 ==> Blocked(State())
      ensures sockets.Valid() && RoomIndex.Agrees(sockets.View())
      ensures q.action.MessageToRoom? ==>
                var x := old(sockets.View());
                && WebSockets.Lists(order, if q.action.room in x.rooms then x.rooms[q.action.room] else map[])
                && (RoomIndex.Exact(x) ==> WebSockets.Lists(order, RoomIndex.InRoom(x.clients, q.action.room)))
      ensures q.action.MessageToConnection? ==>
                var clients := old(sockets.clients);
                order == if q.action.connID in clients then [clients[q.action.connID]] else []
      ensures q.action.Broadcast? ==> WebSockets.Lists(order, old(sockets.clients))
      ensures q.action.Response? || q.action.Unknown? ==> order == []
      ensures old(sockets.writes) <= sockets.writes && |sockets.writes| == |old(sockets.writes)| + |order|
      ensures forall i | 0 <= i < |order| ::
                var w := sockets.writes[|old(sockets.writes)| + i];
                w.client == order[i] && w.ok == (order[i].conn !in failing)
      ensures q.action.MessageToRoom? || q.action.MessageToConnection? || q.action.Broadcast? ==>
                forall i | |old(sockets.writes)| <= i < |sockets.writes| ::
                  sockets.writes[i].message == q.action.message
      ensures forall id :: id in sockets.clients <==>
                id in old(sockets.clients) && (q.action.Broadcast? ==> old(sockets.clients)[id].conn !in failing)
    {
      hide RoomIndex.Agrees;
      hide RoomIndex.Exact;
      hide RoomIndex.InRoom;
      hide WebSockets.Lists;
      hide Blocked;
      hide Run;
      hide Apply;
      hide Enabled;
      q := NextRequest();
      order, stuck := [], false;
      if q.action.Response? {
        stuck := Respond(q, patience);
      } else {
        order := Bridge.RunAction(sockets, q.action, failing);
        Acted(q);
      }
    }
  }
}
