/**
 The WebSocket server as a state machine over interleaved goroutines: registrations, read loops that
 end, and broadcasts whose writes fail, racing to change the index. One event is one region under
 WebSocketServer.mu, one connection write, or one onDisconnect callback.
 */
module Hub {
  import opened Sequences
  import opened RoomIndex

  /** A broadcast: the snapshot, how much of it is done, and whether a failed write is being handled. */
  datatype Cast = Cast(snapshot: seq<Client>, next: nat, failed: bool)

  /**
   reading: connections whose read loop runs; notifying: clients taken off the index whose
   onDisconnect is still to be called. History: registered, in order, with conn as position;
   overwritten: clients replaced by a registration of the same ID; removed; disconnected: the
   onDisconnect calls made; ended: connections that gave a read error, or an error to a broadcast.
   */
  datatype State = State(
    index: Index,
    reading: set<nat>,
    casts: seq<Cast>,
    notifying: seq<Client>,
    registered: seq<Client>,
    overwritten: seq<Client>,
    removed: seq<Client>,
    disconnected: seq<Client>,
    ended: set<nat>)

  datatype Event =
    | Join(client: Client)
    | ReadError(conn: nat)
    | StartCast(snapshot: seq<Client>)
    | CastWrite(i: nat, ok: bool)
    | CastRemove(i: nat)
    | Notify(k: nat)

  const INIT := State(EMPTY, {}, [], [], [], [], [], [], {})

  predicate Enabled(s: State, e: Event) {
    match e
    case Join(c) => c.conn == |s.registered|
    case ReadError(n) => n in s.reading && n < |s.registered|
    case StartCast(snapshot) =>
      && |snapshot| == |s.index.clients|
      && (forall c | c in snapshot :: c.clientID in s.index.clients && s.index.clients[c.clientID] == c)
      && (forall id | id in s.index.clients :: s.index.clients[id] in snapshot)
    case CastWrite(i, _) => i < |s.casts| && !s.casts[i].failed && s.casts[i].next < |s.casts[i].snapshot|
    case CastRemove(i) => i < |s.casts| && s.casts[i].failed && s.casts[i].next < |s.casts[i].snapshot|
    case Notify(k) => k < |s.notifying|
  }

  /** The region of handleDisconnect, by whichever goroutine calls it. */
  function Disconnect(s: State, id: string): State {
    if id !in s.index.clients then s
    else
      var c := s.index.clients[id];
      s.(index := Unregister(s.index, id), removed := s.removed + [c], notifying := s.notifying + [c])
  }

  function Apply(s: State, e: Event): State
    requires Enabled(s, e)
  {
    match e
    case Join(c) =>
      s.(index := Register(s.index, c),
         reading := s.reading + {c.conn},
         registered := s.registered + [c],
         overwritten := s.overwritten
           + if c.clientID in s.index.clients then [s.index.clients[c.clientID]] else [])
    case ReadError(n) =>
      Disconnect(s.(reading := s.reading - {n}, ended := s.ended + {n}), s.registered[n].clientID)
    case StartCast(snapshot) => s.(casts := s.casts + [Cast(snapshot, 0, false)])
    case CastWrite(i, ok) =>
      var k := s.casts[i];
      s.(casts := s.casts[i := if ok then k.(next := k.next + 1) else k.(failed := true)],
         ended := if ok then s.ended else s.ended + {k.snapshot[k.next].conn})
    case CastRemove(i) =>
      var k := s.casts[i];
      Disconnect(s.(casts := s.casts[i := k.(next := k.next + 1, failed := false)]),
                 k.snapshot[k.next].clientID)
    case Notify(k) =>
      s.(notifying := s.notifying[..k] + s.notifying[k + 1..],
         disconnected := s.disconnected + [s.notifying[k]])
  }

  function Run(es: seq<Event>): Option<State> {
    if es == [] then Some(INIT)
    else
      var prev := Run(es[..|es| - 1]);
      if prev.Some? && Enabled(prev.value, es[|es| - 1])
      then Some(Apply(prev.value, es[|es| - 1])) else None
  }

  ghost predicate Reaches(es: seq<Event>, s: State) {
    Run(es) == Some(s)
  }

  lemma {:induction false} RunExtend(es: seq<Event>, s: State, e: Event)
    requires Reaches(es, s) && Enabled(s, e)
    ensures Reaches(es + [e], Apply(s, e))
  {
    assert (es + [e])[..|es + [e]| - 1] == es;
  }

  /** The clients registered in a run, in order, read off its events. */
  function JoinsOf(es: seq<Event>): seq<Client> {
    if es == [] then []
    else
      var e := es[|es| - 1];
      JoinsOf(es[..|es| - 1]) + if e.Join? then [e.client] else []
  }

  /** The read loop of the n-th of them runs until its first read error. */
  lemma {:induction false} RegisteredExactly(es: seq<Event>, s: State, n: nat)
    requires Reaches(es, s)
    ensures s.registered == JoinsOf(es) && (ReadError(n) in es ==> n < |s.registered|)
    ensures n in s.reading <==> n < |JoinsOf(es)| && ReadError(n) !in es
  {
    if es != [] {
      var l := |es| - 1;
      assert es == es[..l] + [es[l]];
      RegisteredExactly(es[..l], Run(es[..l]).value, n);
      hide Register;
      hide Unregister;
      assert JoinsOf(es) == JoinsOf(es[..l]) + if es[l].Join? then [es[l].client] else [];
    }
  }

  // ----- The index in every run -----

  /** A step changes the index by one registration, or one disconnect, or not at all. */
  lemma IndexStep(s: State, e: Event)
    requires Enabled(s, e)
    ensures var y := Apply(s, e).index;
      if e.Join? then y == Register(s.index, e.client)
      else y == s.index || exists id :: y == Unregister(s.index, id)
  {
    match e
    case ReadError(n) => assert Apply(s, e).index == Unregister(s.index, s.registered[n].clientID);
    case CastRemove(i) =>
      assert Apply(s, e).index == Unregister(s.index, s.casts[i].snapshot[s.casts[i].next].clientID);
    case _ =>
  }

  /** In every run the index agrees, however registrations and disconnects race. */
  lemma {:induction false} IndexAgrees(es: seq<Event>, s: State)
    requires Reaches(es, s)
    ensures Agrees(s.index)
  {
    if es != [] {
      var l := |es| - 1;
      var prev := Run(es[..l]).value;
      IndexAgrees(es[..l], prev);
      IndexStep(prev, es[l]);
      if es[l].Join? {
        RegisterAgrees(prev.index, es[l].client);
      } else if s.index != prev.index {
        var id :| s.index == Unregister(prev.index, id);
        UnregisterAgrees(prev.index, id);
      }
    }
  }

  /** The step registers a client ID that is connected in another room. */
  ghost predicate Crosses(s: State, e: Event) {
    && e.Join? && e.client.clientID in s.index.clients
    && s.index.clients[e.client.clientID].roomID != e.client.roomID
  }

  ghost predicate NeverCrosses(es: seq<Event>) {
    es != [] ==>
      && NeverCrosses(es[..|es| - 1])
      && Run(es[..|es| - 1]).Some?
      && !Crosses(Run(es[..|es| - 1]).value, es[|es| - 1])
  }

  /** With no ID registered while connected in another room, rooms is clients grouped by RoomID. */
  lemma {:induction false} IndexExact(es: seq<Event>, s: State)
    requires Reaches(es, s) && NeverCrosses(es)
    ensures Exact(s.index)
  {
    if es != [] {
      var l := |es| - 1;
      var prev := Run(es[..l]).value;
      IndexExact(es[..l], prev);
      IndexStep(prev, es[l]);
      if es[l].Join? {
        RegisterExact(prev.index, es[l].client);
      } else if s.index != prev.index {
        var id :| s.index == Unregister(prev.index, id);
        UnregisterExact(prev.index, id);
      }
    }
  }

  /** The first crossing registration of a run makes the index inexact at once. */
  lemma CrossingBreaks(es: seq<Event>, s: State, e: Event)
    requires Reaches(es, s) && NeverCrosses(es) && Enabled(s, e)
    ensures Exact(Apply(s, e).index) <==> !Crosses(s, e)
  {
    IndexExact(es, s);
    IndexStep(s, e);
    if e.Join? {
      RegisterExact(s.index, e.client);
    } else if Apply(s, e).index != s.index {
      var id :| Apply(s, e).index == Unregister(s.index, id);
      UnregisterExact(s.index, id);
    }
  }

  // ----- The disconnect ledger -----

  function Connected(s: State, c: Client): nat {
    if c.clientID in s.index.clients && s.index.clients[c.clientID] == c then 1 else 0
  }

  /** Registered clients are connected, removed or overwritten; removed ones are being or have been reported. */
  ghost predicate Accounts(s: State, c: Client) {
    && Count(s.registered, c) == Connected(s, c) + Count(s.removed, c) + Count(s.overwritten, c)
    && Count(s.removed, c) == Count(s.notifying, c) + Count(s.disconnected, c)
  }

  ghost predicate Numbers(s: State) {
    && |s.registered| == |s.index.clients| + |s.removed| + |s.overwritten|
    && |s.removed| == |s.notifying| + |s.disconnected|
  }

  ghost predicate Positions(s: State) {
    && (forall i | 0 <= i < |s.registered| :: s.registered[i].conn == i)
    && (forall id | id in s.index.clients :: s.index.clients[id].clientID == id)
    && (forall id | id in s.index.clients :: s.index.clients[id] in s.registered)
  }

  ghost predicate Ledger(s: State, c: Client) {
    Positions(s) && Numbers(s) && Accounts(s, c)
  }

  lemma RemoveOne(m: Members, id: string)
    requires id in m
    ensures |m - {id}| == |m| - 1
  {
    assert (m - {id}).Keys == m.Keys - {id};
  }

  lemma AddOne(m: Members, id: string, c: Client)
    ensures |m[id := c]| == |m| + if id in m then 0 else 1
  {
    assert m[id := c].Keys == m.Keys + {id};
  }

  lemma RegisterClients(x: Index, c: Client)
    ensures Register(x, c).clients == x.clients[c.clientID := c]
  {
  }

  lemma UnregisterClients(x: Index, id: string)
    ensures Unregister(x, id).clients == x.clients - {id}
  {
  }

  lemma JoinLedger(s: State, d: Client, c: Client)
    requires Ledger(s, c) && Enabled(s, Join(d))
    ensures Ledger(Apply(s, Join(d)), c)
  {
    hide Count;
    hide Register;
    RegisterClients(s.index, d);
    AddOne(s.index.clients, d.clientID, d);
    CountConcat(s.registered, [d], c);
    CountOne(d, c);
    assert Connected(s, d) == 0;
    if d.clientID in s.index.clients {
      var o := s.index.clients[d.clientID];
      CountConcat(s.overwritten, [o], c);
      CountOne(o, c);
      var i :| 0 <= i < |s.registered| && s.registered[i] == o;
    } else {
      assert s.overwritten + [] == s.overwritten;
    }
  }

  lemma DisconnectLedger(s: State, id: string, c: Client)
    requires Ledger(s, c)
    ensures Ledger(Disconnect(s, id), c)
  {
    hide Count;
    hide Unregister;
    if id in s.index.clients {
      var d := s.index.clients[id];
      UnregisterClients(s.index, id);
      RemoveOne(s.index.clients, id);
      CountConcat(s.removed, [d], c);
      CountConcat(s.notifying, [d], c);
      CountOne(d, c);
    }
  }

  lemma NotifyLedger(s: State, k: nat, c: Client)
    requires Ledger(s, c) && Enabled(s, Notify(k))
    ensures Ledger(Apply(s, Notify(k)), c)
  {
    hide Count;
    var n := s.notifying;
    assert n == n[..k] + ([n[k]] + n[k + 1..]);
    CountConcat(n[..k], [n[k]] + n[k + 1..], c);
    CountConcat([n[k]], n[k + 1..], c);
    CountConcat(n[..k], n[k + 1..], c);
    CountConcat(s.disconnected, [n[k]], c);
  }

  /** The ledger does not look at the goroutines. */
  lemma SameLedger(s: State, s': State, c: Client)
    requires Ledger(s, c)
    requires s' == s.(reading := s'.reading, casts := s'.casts, ended := s'.ended)
    ensures Ledger(s', c)
  {
    hide Count;
  }

  lemma ReadErrorLedger(s: State, n: nat, c: Client)
    requires Ledger(s, c) && Enabled(s, ReadError(n))
    ensures Ledger(Apply(s, ReadError(n)), c)
  {
    var s1 := s.(reading := s.reading - {n}, ended := s.ended + {n});
    SameLedger(s, s1, c);
    hide Ledger;
    hide Unregister;
    assert Apply(s, ReadError(n)) == Disconnect(s1, s.registered[n].clientID);
    hide Disconnect;
    DisconnectLedger(s1, s.registered[n].clientID, c);
  }

  lemma CastRemoveLedger(s: State, i: nat, c: Client)
    requires Ledger(s, c) && Enabled(s, CastRemove(i))
    ensures Ledger(Apply(s, CastRemove(i)), c)
  {
    var k := s.casts[i];
    var s1 := s.(casts := s.casts[i := k.(next := k.next + 1, failed := false)]);
    SameLedger(s, s1, c);
    hide Ledger;
    hide Unregister;
    assert Apply(s, CastRemove(i)) == Disconnect(s1, k.snapshot[k.next].clientID);
    hide Disconnect;
    DisconnectLedger(s1, k.snapshot[k.next].clientID, c);
  }

  lemma BroadcastLedger(s: State, e: Event, c: Client)
    requires Ledger(s, c) && Enabled(s, e) && (e.StartCast? || e.CastWrite?)
    ensures Ledger(Apply(s, e), c)
  {
    SameLedger(s, Apply(s, e), c);
    hide Ledger;
  }

  lemma LedgerStep(s: State, e: Event, c: Client)
    requires Ledger(s, c) && Enabled(s, e)
    ensures Ledger(Apply(s, e), c)
  {
    hide Ledger;
    match e
    case Join(d) => JoinLedger(s, d, c);
    case ReadError(n) => ReadErrorLedger(s, n, c);
    case CastRemove(i) => CastRemoveLedger(s, i, c);
    case Notify(k) => NotifyLedger(s, k, c);
    case _ => BroadcastLedger(s, e, c);
  }

  lemma {:induction false} LedgerHolds(es: seq<Event>, s: State, c: Client)
    requires Reaches(es, s)
    ensures Ledger(s, c)
  {
    if es != [] {
      var l := |es| - 1;
      LedgerHolds(es[..l], Run(es[..l]).value, c);
      LedgerStep(Run(es[..l]).value, es[l], c);
    }
  }

  lemma RegisteredOnce(s: State, c: Client)
    requires Positions(s)
    ensures Count(s.registered, c) == if c in s.registered then 1 else 0
  {
    NoDuplicatesCounts(s.registered, c);
  }

  /**
   In every run: registrations are the connected clients, the removals, and the registrations
   overwritten by one of the same ID; each removal leads to exactly one onDisconnect, made or about to
   be made; so no registration is ever reported twice.
   */
  lemma DisconnectLedgerHolds(es: seq<Event>, s: State, c: Client)
    requires Reaches(es, s)
    ensures |s.registered| == |s.index.clients| + |s.removed| + |s.overwritten|
    ensures |s.removed| == |s.notifying| + |s.disconnected|
    ensures Connected(s, c) + Count(s.notifying, c) + Count(s.disconnected, c) + Count(s.overwritten, c)
         == if c in s.registered then 1 else 0
  {
    LedgerHolds(es, s, c);
    RegisteredOnce(s, c);
  }

  ghost predicate DistinctIDs(cs: seq<Client>) {
    forall i, j | 0 <= i < j < |cs| :: cs[i].clientID != cs[j].clientID
  }

  lemma Differ(cs: seq<Client>, i: nat, j: nat)
    requires DistinctIDs(cs) && i < j < |cs|
    ensures cs[i].clientID != cs[j].clientID
  {
  }

  lemma {:induction false} NothingOverwritten(es: seq<Event>, s: State)
    requires Reaches(es, s) && DistinctIDs(s.registered)
    ensures s.overwritten == [] && NeverCrosses(es)
  {
    if es != [] {
      var l := |es| - 1;
      var prev := Run(es[..l]).value;
      assert prev.registered <= s.registered;
      assert forall i | 0 <= i < |prev.registered| :: s.registered[i] == prev.registered[i];
      NothingOverwritten(es[..l], prev);
      if es[l].Join? && es[l].client.clientID in prev.index.clients {
        var d := prev.index.clients[es[l].client.clientID];
        LedgerHolds(es[..l], prev, d);
        var i :| 0 <= i < |prev.registered| && prev.registered[i] == d;
        Differ(s.registered, i, |prev.registered|);
      }
    }
  }

  /**
   With distinct IDs, a registered client is connected, or reported exactly once, or about to be;
   and rooms is clients grouped by RoomID.
   */
  lemma DistinctReportedOnce(es: seq<Event>, s: State, c: Client)
    requires Reaches(es, s) && c in s.registered && DistinctIDs(s.registered)
    ensures s.overwritten == [] && Exact(s.index)
    ensures Connected(s, c) + Count(s.notifying, c) + Count(s.disconnected, c) == 1
  {
    NothingOverwritten(es, s);
    IndexExact(es, s);
    DisconnectLedgerHolds(es, s, c);
  }
}
