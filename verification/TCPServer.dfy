/**
 The methods of the TCP server as its goroutines run them, with other goroutines in between.
 Every region of a method is recorded as one event; whatever the others do at a Yield, the record
 stays a run of the store's state machine, so everything proved of its runs holds of these methods.
 */
module Server {
  import opened Sequences
  import opened Messages
  import Roster
  import RosterRuns
  import opened Store
  import StoreConservation

  datatype Goroutine = Worker(t: nat) | AcceptLoop | Handler(conn: ConnId) | HeartbeatLoop

  /** The events that only goroutine g performs. */
  predicate Owns(g: Goroutine, e: Event) {
    match g
    case Worker(t) => !e.Begin? && !e.Conn? && e.t == t
    case AcceptLoop => e.Conn? && (e.change.Accept? || e.change.Spawn?)
    case Handler(c) => e == Conn(Roster.HandlerExit(c))
    case HeartbeatLoop => e.Conn? && (e.change.Snapshot? || e.change.PingOne? || e.change.Evict?)
  }

  ghost predicate NotBy(g: Goroutine, es: seq<Event>, k: nat) {
    forall j | k <= j < |es| :: !Owns(g, es[j])
  }

  /** What goroutine g can rely on while others run: its own position does not change. */
  ghost predicate Kept(g: Goroutine, s: State, s': State) {
    match g
    case Worker(t) => t < |s.threads| ==> t < |s'.threads| && s'.threads[t] == s.threads[t]
    case AcceptLoop => s'.roster.spawning == s.roster.spawning && s'.roster.accepted == s.roster.accepted
    case Handler(c) =>
      Roster.Enabled(s.roster, Roster.HandlerExit(c)) ==> Roster.Enabled(s'.roster, Roster.HandlerExit(c))
    case HeartbeatLoop => s'.roster.ping == s.roster.ping
  }

  lemma KeptStep(g: Goroutine, s: State, e: Event)
    requires Enabled(s, e) && !Owns(g, e)
    ensures Kept(g, s, Apply(s, e))
    ensures |s.threads| <= |Apply(s, e).threads|
  {
  }

  lemma {:induction false} KeptRun(g: Goroutine, n: nat, es: seq<Event>, k: nat)
    requires k <= |es| && Run(n, es).Some? && NotBy(g, es, k)
    ensures Run(n, es[..k]).Some? && Kept(g, Run(n, es[..k]).value, Run(n, es).value)
    ensures |Run(n, es[..k]).value.threads| <= |Run(n, es).value.threads|
  {
    if k == |es| {
      assert es[..k] == es;
    } else {
      var l := |es| - 1;
      assert es[..l][..k] == es[..k];
      KeptRun(g, n, es[..l], k);
      KeptStep(g, Run(n, es[..l]).value, es[l]);
    }
  }

  lemma SizeFixed(n: nat, es: seq<Event>, s: State)
    requires Reaches(n, es, s)
    ensures s.maxQueueSize == n
  {
    StoreConservation.FitsHolds(n, es, s);
  }

  /** Thread th after its sendMessage has returned nil, or an error. */
  function Returned(th: Thread, ok: bool): Thread {
    match th
    case Flush(rest, x, _) =>
      if !ok then Requeuing(rest, x)
      else if |rest| <= 1 then Done else Flush(rest[1..], x, Picking)
    case _ => Done
  }

  /** The changes of the connection list in a run. */
  function Changes(es: seq<Event>): seq<Roster.Event> {
    if es == [] then []
    else Changes(es[..|es| - 1]) + if es[|es| - 1].Conn? then [es[|es| - 1].change] else []
  }

  lemma RosterStep(s: State, e: Event)
    requires Enabled(s, e)
    ensures if e.Conn? then Roster.Enabled(s.roster, e.change) && Apply(s, e).roster == Roster.Apply(s.roster, e.change)
            else Apply(s, e).roster == s.roster
  {
  }

  /** The roster component of a store run is the roster run of these changes. */
  lemma {:induction false} RosterPart(n: nat, es: seq<Event>, s: State)
    requires Reaches(n, es, s)
    ensures Roster.Run(Changes(es)) == Some(s.roster)
  {
    if es != [] {
      var l := |es| - 1;
      var prev := Run(n, es[..l]).value;
      RosterPart(n, es[..l], prev);
      RosterStep(prev, es[l]);
      hide Apply;
      hide Roster.Apply;
      hide Roster.Enabled;
      if es[l].Conn? {
        Roster.RunExtend(Changes(es[..l]), prev.roster, es[l].change);
      } else {
        assert Changes(es) == Changes(es[..l]);
      }
    }
  }

  lemma RosterInv(n: nat, es: seq<Event>, s: State)
    requires Reaches(n, es, s)
    ensures Roster.Inv(s.roster)
  {
    RosterPart(n, es, s);
    Roster.InvHolds(Changes(es));
  }

  /** In every run of the server, Clients holds exactly the connections that RosterRuns says. */
  lemma ClientsExactly(n: nat, es: seq<Event>, s: State, c: ConnId)
    requires Reaches(n, es, s)
    ensures c in s.roster.clients <==>
              && Roster.Accept(c) in Changes(es)
              && !RosterRuns.Exited(Changes(es), c) && !RosterRuns.Evicted(Changes(es), c)
  {
    RosterPart(n, es, s);
    RosterRuns.LiveExactly(Changes(es), s.roster, c);
  }

  /** A connection whose handler has finished is not on the list. */
  lemma FinishedGone(n: nat, es: seq<Event>, s: State, c: ConnId)
    requires Reaches(n, es, s) && c in s.roster.finished
    ensures c !in s.roster.clients
  {
    RosterInv(n, es, s);
    Roster.KeepMembers(s.roster.accepted, s.roster.removed, c);
  }

  /** After one more result, the dead are still those with a failed ping. */
  lemma DeadGrows(snapshot: seq<ConnId>, results: seq<bool>, before: seq<ConnId>, dead: seq<ConnId>, i: nat)
    requires i < |snapshot| && |results| == i + 1
    requires forall c :: c in before <==> exists j :: 0 <= j < i && snapshot[j] == c && !results[j]
    requires dead == if results[i] then before else before + [snapshot[i]]
    ensures forall c :: c in dead <==> exists j :: 0 <= j < i + 1 && snapshot[j] == c && !results[j]
  {
    if !results[i] {
      assert snapshot[i] == snapshot[i] && !results[i];
    }
  }

  class TCPServer {
    var Clients: seq<ConnId>
    var messageQueue: seq<BackendRequest>
    const maxQueueSize: nat
    ghost var run: seq<Event>

    ghost function State(): State
      requires Run(maxQueueSize, run).Some?
      reads this
    {
      Run(maxQueueSize, run).value
    }

    ghost predicate Valid()
      reads this
    {
      && Run(maxQueueSize, run).Some?
      && Clients == State().roster.clients
      && messageQueue == State().queue
    }

    /** How often m has been written to a backend. */
    ghost function Writes(m: BackendRequest): nat
      requires Run(maxQueueSize, run).Some?
      reads this
    {
      Count(Payload(State().hist.written), m)
    }

    constructor (maxQueueSize: nat)
      ensures Valid() && run == [] && this.maxQueueSize == maxQueueSize
    {
      this.maxQueueSize := maxQueueSize;
      Clients, messageQueue, run := [], [], [];
    }

    /** Other goroutines run: any number of events that are not of goroutine g. */
    method Yield(ghost g: Goroutine)
      requires Valid()
      modifies this
      ensures Valid() && old(run) <= run && NotBy(g, run, |old(run)|)
      ensures Kept(g, old(State()), State()) && |old(State().threads)| <= |State().threads|
    {
      KeptRun(g, maxQueueSize, run, |run|);
    }

    /** Records the region just run; its effect on the fields has been made by the caller. */
    ghost method Record(e: Event)
      requires Run(maxQueueSize, run).Some? && Enabled(State(), e)
      requires Clients == Apply(State(), e).roster.clients && messageQueue == Apply(State(), e).queue
      modifies this`run
      ensures Valid() && run == old(run) + [e] && State() == Apply(old(State()), e)
    {
      RunExtend(maxQueueSize, run, State(), e);
      run := run + [e];
    }

    /** A goroutine enters sendMessage with a fresh request. */
    method Begin(m: BackendRequest) returns (ghost t: nat)
      requires Valid() && forall b | b in State().hist.begun :: b.requestID != m.requestID
      modifies this
      ensures Valid() && old(run) <= run
      ensures t < |State().threads| && State().threads[t] == Sender(m, Picking)
    {
      t := |State().threads|;
      Record(Event.Begin(m));
    }

    /** The region of GetRandomConnection; with no backend live, the caller is refused or goes on to enqueue. */
    method GetRandomConnection(ghost t: nat) returns (conn: ConnId, ok: bool)
      requires Valid() && Sending(State(), t) && State().threads[t].pc.Picking?
      modifies this
      ensures Valid() && ok == (old(Clients) != []) && (ok ==> conn in old(Clients))
      ensures run == old(run) + [if ok then Pick(t, conn) else PickNone(t)]
      ensures State() == Apply(old(State()), run[|run| - 1])
    {
      if |Clients| == 0 {
        Record(PickNone(t));
        return 0, false;
      }
      var i :| 0 <= i < |Clients|;
      conn := Clients[i];
      ok := true;
      Record(Pick(t, conn));
    }

    /** One connection write, which can fail. */
    method Write(ghost t: nat) returns (ok: bool)
      requires Valid() && Enabled(State(), WriteOk(t))
      modifies this
      ensures Valid() && run == old(run) + [if ok then WriteOk(t) else WriteFail(t)]
      ensures State() == Apply(old(State()), run[|run| - 1])
      ensures t < |State().threads| && State().threads[t] == Returned(old(State().threads[t]), ok)
    {
      ok := *;
      if ok {
        Record(WriteOk(t));
      } else {
        Record(WriteFail(t));
      }
    }

    /** The region of enqueue: drops the oldest message when the queue is full. */
    method Enqueue(m: BackendRequest, ghost t: nat) returns (ok: bool)
      requires Valid() && Enabled(State(), Append(t)) && Current(State(), t) == m
      requires State().maxQueueSize == maxQueueSize
      modifies this
      ensures Valid() && ok && run == old(run) + [Append(t)]
      ensures messageQueue == Pushed(old(messageQueue), maxQueueSize, m)
      ensures State().threads[t] == Returned(old(State().threads[t]), true)
      ensures State() == Apply(old(State()), Append(t))
    {
      if |messageQueue| >= maxQueueSize {
        messageQueue := messageQueue[1..];
      }
      messageQueue := messageQueue + [m];
      Record(Append(t));
      ok := true;
    }

    /**
     sendMessage by thread t, which is a top-level call or a flush sending its current message. It
     takes the thread exactly to where the machine puts it on that result, and it fails only on a
     failed write, or for want of a backend when the message cannot be queued.
     */
    method SendMessage(m: BackendRequest, ghost t: nat) returns (ok: bool)
      requires Valid() && Sending(State(), t)
      requires State().threads[t].pc.Picking? && Current(State(), t) == m
      modifies this
      ensures Valid() && old(run) <= run && t < |State().threads|
      ensures State().threads[t] == Returned(old(State().threads[t]), ok)
      ensures run != []
      ensures ok ==> run[|run| - 1] == WriteOk(t) || run[|run| - 1] == Append(t)
      ensures !ok ==>
                || run[|run| - 1] == WriteFail(t)
                || (run[|run| - 1] == PickNone(t) && (m.action.ConnectionRequest? || maxQueueSize == 0))
      ensures old(State().threads[t].Sender?) ==>
                if ok then m in State().hist.succeeded else m in State().hist.failed
    {
      Yield(Worker(t));
      var conn, found := GetRandomConnection(t);
      SizeFixed(maxQueueSize, run, State());
      if !found {
        if m.action.ConnectionRequest? || maxQueueSize == 0 {
          return false;
        }
        Yield(Worker(t));
        SizeFixed(maxQueueSize, run, State());
        ok := Enqueue(m, t);
      } else {
        Yield(Worker(t));
        ok := Write(t);
      }
    }

    /** flushQueue's first region: the whole queue becomes the batch. */
    method TakeQueue(ghost t: nat) returns (batch: seq<BackendRequest>)
      requires Valid() && Enabled(State(), Take(t))
      modifies this
      ensures Valid() && run == old(run) + [Take(t)]
      ensures batch == old(messageQueue) && messageQueue == []
      ensures t < |State().threads|
      ensures State().threads[t] == if batch == [] then Done else Flush(batch, old(State().hist.excess), Picking)
    {
      batch := messageQueue;
      messageQueue := [];
      Record(Take(t));
    }

    /** flushQueue's last region after a failed send: the unsent tail goes back in front. */
    method PutBack(remaining: seq<BackendRequest>, ghost t: nat)
      requires Valid() && Enabled(State(), Requeue(t)) && Rest(State().threads[t]) == remaining
      modifies this
      ensures Valid() && run == old(run) + [Requeue(t)]
      ensures messageQueue == remaining + old(messageQueue)
      ensures t < |State().threads| && State().threads[t] == Done
    {
      messageQueue := remaining + messageQueue;
      Record(Requeue(t));
    }

    /**
     flushQueue by thread t: takes the whole queue, sends it one message at a time, and puts the
     unsent tail back in front when a send fails. It never ends holding messages.
     */
    method FlushQueue(ghost t: nat) returns (batch: seq<BackendRequest>, left: nat)
      requires Valid() && t < |State().threads| && State().threads[t].FlushStarted?
      modifies this
      ensures Valid() && old(run) <= run
      ensures t < |State().threads| && State().threads[t] == Done
      ensures left <= |batch|
      ensures left > 0 ==>
                && run != [] && run[|run| - 1] == Requeue(t)
                && batch[|batch| - left..] <= messageQueue
    {
      Yield(Worker(t));
      batch := TakeQueue(t);
      left := 0;
      ghost var x := if batch == [] then 0 else State().threads[t].excess;
      for i := 0 to |batch|
        invariant Valid() && old(run) <= run && t < |State().threads|
        invariant State().threads[t] == if i < |batch| then Flush(batch[i..], x, Picking) else Done
      {
        var ok := SendMessage(batch[i], t);
        if !ok {
          var remaining := batch[i..];
          Yield(Worker(t));
          PutBack(remaining, t);
          left := |remaining|;
          return;
        }
        assert batch[i..][1..] == batch[i + 1..];
      }
    }

    /**
     HandleMessage and the other callbacks: a fresh request through sendMessage. When it returns, the
     message is in exactly one place if sendMessage returned nil, and in none if it failed. A connection
     request has then been written, or not.
     */
    method Send(m: BackendRequest) returns (ok: bool)
      requires Valid() && forall b | b in State().hist.begun :: b.requestID != m.requestID
      modifies this
      ensures Valid() && old(run) <= run
      ensures m in State().hist.begun
      ensures StoreConservation.Places(State(), m) == if ok then 1 else 0
      ensures m.action.ConnectionRequest? ==> Writes(m) == if ok then 1 else 0
    {
      var t := Begin(m);
      ok := SendMessage(m, t);
      if m.action.ConnectionRequest? {
        StoreConservation.ConnectionRequestsAreWritten(maxQueueSize, run, State(), m);
      }
      StoreConservation.Conservation(maxQueueSize, run, State(), m);
      StoreConservation.FailedOnly(maxQueueSize, run, State(), m);
    }

    /** One round of acceptConnections: the list first, then the flush and the handler. */
    method Accept(conn: ConnId) returns (ghost t: nat)
      requires Valid() && !State().roster.spawning && conn !in State().roster.accepted
      modifies this
      ensures Valid() && old(run) <= run && !State().roster.spawning
      ensures State().roster.accepted == old(State().roster.accepted) + [conn]
      ensures t < |State().threads| && State().threads[t] == FlushStarted
    {
      Clients := Clients + [conn];
      Record(Conn(Roster.Accept(conn)));
      Yield(AcceptLoop);
      t := |State().threads|;
      Record(Conn(Roster.Spawn));
    }

    /**
     The cleanup of handleConnection: one deletion on the list as it is then, and the connection is off it,
     whether or not the heartbeat had already taken it off.
     */
    method HandlerExit(conn: ConnId)
      requires Valid() && Enabled(State(), Conn(Roster.HandlerExit(conn)))
      modifies this
      ensures Valid() && run == old(run) + [Conn(Roster.HandlerExit(conn))]
      ensures conn in State().roster.finished && conn !in Clients
      ensures Clients == Roster.RemoveFirst(old(Clients), conn)
    {
      Clients := Roster.RemoveFirst(Clients, conn);
      Record(Conn(Roster.HandlerExit(conn)));
      FinishedGone(maxQueueSize, run, State(), conn);
    }

    /** One ping; a connection whose write fails is dead. */
    method PingOne(snapshot: seq<ConnId>, i: nat, dead0: seq<ConnId>) returns (ok: bool, dead: seq<ConnId>)
      requires Valid() && i < |snapshot| && State().roster.ping == Roster.Pinging(snapshot, i, dead0)
      modifies this
      ensures Valid() && old(run) <= run
      ensures dead == if ok then dead0 else dead0 + [snapshot[i]]
      ensures State().roster.ping == Roster.Pinging(snapshot, i + 1, dead)
    {
      Yield(HeartbeatLoop);
      dead := dead0;
      ok := *;
      if !ok {
        dead := dead + [snapshot[i]];
      }
      Record(Conn(Roster.PingOne(ok)));
    }

    /** The second region: the dead are taken off the list as it is now. */
    method EvictDead(snapshot: seq<ConnId>, dead: seq<ConnId>)
      requires Valid() && State().roster.ping == Roster.Pinging(snapshot, |snapshot|, dead)
      modifies this
      ensures Valid() && run == old(run) + [Conn(Roster.Evict)] && State().roster.ping.Resting?
      ensures forall c | c in dead :: c !in Clients
      ensures forall c | c !in dead :: c in Clients <==> c in old(Clients)
    {
      RosterInv(maxQueueSize, run, State());
      ghost var before := State().roster;
      Clients := Roster.RemoveEach(Clients, dead);
      Record(Conn(Roster.Evict));
      Roster.InvStep(before, Roster.Evict);
      forall c
        ensures c in Clients <==> c in before.clients && c !in dead
      {
        Roster.KeepMembers(State().roster.accepted, State().roster.removed, c);
        Roster.KeepMembers(before.accepted, before.removed, c);
      }
    }

    /**
     pingBackends, with the list changing under it: every connection of the snapshot is pinged once, in
     order; those whose write failed, and only those, are dead, and they are off the list after the
     second region.
     */
    method PingBackends() returns (snapshot: seq<ConnId>, results: seq<bool>, dead: seq<ConnId>)
      requires Valid() && State().roster.ping.Resting?
      modifies this
      ensures Valid() && old(run) <= run && State().roster.ping.Resting?
      ensures snapshot == old(Clients) && |results| == |snapshot|
      ensures forall c :: c in dead <==> exists i :: 0 <= i < |snapshot| && snapshot[i] == c && !results[i]
      ensures forall c | c in dead :: c !in Clients
    {
      snapshot, results, dead := Clients, [], [];
      Record(Conn(Roster.Snapshot));
      for i := 0 to |snapshot|
        invariant Valid() && old(run) <= run
        invariant State().roster.ping == Roster.Pinging(snapshot, i, dead)
        invariant |results| == i
        invariant forall c :: c in dead <==> exists j :: 0 <= j < i && snapshot[j] == c && !results[j]
      {
        var ok;
        ghost var before := dead;
        ok, dead := PingOne(snapshot, i, dead);
        results := results + [ok];
        DeadGrows(snapshot, results, before, dead, i);
      }
      Yield(HeartbeatLoop);
      EvictDead(snapshot, dead);
    }
  }
}
