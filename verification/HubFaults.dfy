/**
 Whose fault a reported disconnect is. handleDisconnect looks a client up by its ID, so the goroutines of
 an earlier connection can take a later one of the same ID off the index and report it.
 */
module HubFaults {
  import opened Sequences
  import opened RoomIndex
  import opened Hub

  /** Every reported client's own connection gave an error, to its read loop or to a broadcast. */
  ghost predicate OwnFaults(s: State) {
    forall c | c in s.disconnected :: c.conn in s.ended
  }

  /** A broadcast has yet to write to p, or to handle its failed write. */
  predicate Awaits(k: Cast, p: int) {
    k.next <= p < |k.snapshot|
  }

  ghost predicate ReadBy(s: State, id: string) {
    exists n :: n in s.reading && n < |s.registered| && s.registered[n].clientID == id
  }

  ghost predicate AwaitedBy(s: State, id: string) {
    exists i, p :: 0 <= i < |s.casts| && Awaits(s.casts[i], p) && s.casts[i].snapshot[p].clientID == id
  }

  /** Some goroutine may still call handleDisconnect with this ID. */
  ghost predicate InUse(s: State, id: string) {
    ReadBy(s, id) || AwaitedBy(s, id)
  }

  /** No registration of the run is for an ID in use. */
  ghost predicate NeverReuses(es: seq<Event>) {
    es != [] ==>
      && NeverReuses(es[..|es| - 1])
      && Run(es[..|es| - 1]).Some?
      && (es[|es| - 1].Join? ==> !InUse(Run(es[..|es| - 1]).value, es[|es| - 1].client.clientID))
  }

  // ----- Without reuse every report is for the client's own fault -----

  ghost predicate ReadersOwn(s: State) {
    forall n | n in s.reading && n < |s.registered| && s.registered[n].clientID in s.index.clients ::
      s.index.clients[s.registered[n].clientID] == s.registered[n]
  }

  ghost predicate CastsOwn(s: State) {
    forall i, p | 0 <= i < |s.casts| && Awaits(s.casts[i], p) ::
      var c := s.casts[i].snapshot[p];
      c.clientID in s.index.clients ==> s.index.clients[c.clientID] == c
  }

  /** Whoever may call handleDisconnect means the client that is connected under that ID. */
  ghost predicate Own(s: State) {
    && ReadersOwn(s)
    && CastsOwn(s)
    && (forall i | 0 <= i < |s.casts| && s.casts[i].failed ::
          s.casts[i].next < |s.casts[i].snapshot| && s.casts[i].snapshot[s.casts[i].next].conn in s.ended)
    && (forall c | c in s.removed :: c.conn in s.ended)
  }

  lemma JoinOwn(s: State, c: Client)
    requires Own(s) && Enabled(s, Join(c)) && !InUse(s, c.clientID)
    ensures Own(Apply(s, Join(c)))
  {
    hide Register;
    RegisterClients(s.index, c);
    var s' := Apply(s, Join(c));
    forall n | n in s'.reading && n < |s'.registered| && s'.registered[n].clientID in s'.index.clients
      ensures s'.index.clients[s'.registered[n].clientID] == s'.registered[n]
    {
      if n < |s.registered| {
        assert n in s.reading && s'.registered[n] == s.registered[n];
      }
    }
    forall i, p | 0 <= i < |s'.casts| && Awaits(s'.casts[i], p)
      ensures var d := s'.casts[i].snapshot[p];
        d.clientID in s'.index.clients ==> s'.index.clients[d.clientID] == d
    {
      assert Awaits(s.casts[i], p);
    }
  }

  /** A disconnect of that ID, by a goroutine that means the connected client. */
  lemma DisconnectOwn(s: State, id: string)
    requires Own(s)
    requires id in s.index.clients ==> s.index.clients[id].conn in s.ended
    ensures Own(Disconnect(s, id))
  {
    hide Unregister;
    UnregisterClients(s.index, id);
    var s' := Disconnect(s, id);
    forall i, p | 0 <= i < |s'.casts| && Awaits(s'.casts[i], p)
      ensures var d := s'.casts[i].snapshot[p];
        d.clientID in s'.index.clients ==> s'.index.clients[d.clientID] == d
    {
      assert Awaits(s.casts[i], p);
    }
  }

  lemma ReadErrorOwn(s: State, n: nat)
    requires Own(s) && Enabled(s, ReadError(n)) && Positions(s)
    ensures Own(Apply(s, ReadError(n)))
  {
    var s1 := s.(reading := s.reading - {n}, ended := s.ended + {n});
    assert Own(s1);
    DisconnectOwn(s1, s.registered[n].clientID);
  }

  /** A cast that moves on, or marks its current write as failed, awaits nobody new. */
  lemma CastOwn(s: State, i: nat, k: Cast, s': State)
    requires Own(s) && i < |s.casts|
    requires k.snapshot == s.casts[i].snapshot && s.casts[i].next <= k.next
    requires s' == s.(casts := s.casts[i := k], ended := s'.ended) && s.ended <= s'.ended
    requires k.failed ==> k.next < |k.snapshot| && k.snapshot[k.next].conn in s'.ended
    ensures Own(s')
  {
    forall j, p | 0 <= j < |s'.casts| && Awaits(s'.casts[j], p)
      ensures var d := s'.casts[j].snapshot[p];
        d.clientID in s'.index.clients ==> s'.index.clients[d.clientID] == d
    {
      assert Awaits(s.casts[j], p);
    }
  }

  lemma CastRemoveOwn(s: State, i: nat)
    requires Own(s) && Enabled(s, CastRemove(i))
    ensures Own(Apply(s, CastRemove(i)))
  {
    var k := s.casts[i];
    var s1 := s.(casts := s.casts[i := k.(next := k.next + 1, failed := false)]);
    assert Awaits(k, k.next);
    CastOwn(s, i, k.(next := k.next + 1, failed := false), s1);
    DisconnectOwn(s1, k.snapshot[k.next].clientID);
  }

  lemma StartCastOwn(s: State, snapshot: seq<Client>)
    requires Own(s) && Enabled(s, StartCast(snapshot))
    ensures Own(Apply(s, StartCast(snapshot)))
  {
    var s' := Apply(s, StartCast(snapshot));
    forall i, p | 0 <= i < |s'.casts| && Awaits(s'.casts[i], p)
      ensures var d := s'.casts[i].snapshot[p];
        d.clientID in s'.index.clients ==> s'.index.clients[d.clientID] == d
    {
      if i < |s.casts| {
        assert Awaits(s.casts[i], p);
      } else {
        assert snapshot[p] in snapshot;
      }
    }
  }

  lemma OwnStep(s: State, e: Event)
    requires Own(s) && Positions(s) && Enabled(s, e)
    requires e.Join? ==> !InUse(s, e.client.clientID)
    ensures Own(Apply(s, e))
  {
    match e
    case Join(c) => JoinOwn(s, c);
    case ReadError(n) => ReadErrorOwn(s, n);
    case StartCast(snapshot) => StartCastOwn(s, snapshot);
    case CastWrite(i, ok) => CastOwn(s, i, Apply(s, e).casts[i], Apply(s, e));
    case CastRemove(i) => CastRemoveOwn(s, i);
    case Notify(_) =>
  }

  lemma {:induction false} OwnHolds(es: seq<Event>, s: State)
    requires Reaches(es, s) && NeverReuses(es)
    ensures Own(s)
  {
    if es != [] {
      var l := |es| - 1;
      var prev := Run(es[..l]).value;
      OwnHolds(es[..l], prev);
      LedgerHolds(es[..l], prev, Client(0, "", ""));
      OwnStep(prev, es[l]);
    }
  }

  lemma OwnFaultsHold(es: seq<Event>, s: State)
    requires Reaches(es, s) && NeverReuses(es)
    ensures OwnFaults(s)
  {
    OwnHolds(es, s);
    forall c | c in s.disconnected
      ensures c.conn in s.ended
    {
      LedgerHolds(es, s, c);
      CountMember(s.disconnected, c);
      CountMember(s.removed, c);
    }
  }

  // ----- Distinct IDs are never in use -----

  lemma {:induction false} SnapshotsRegistered(es: seq<Event>, s: State)
    requires Reaches(es, s)
    ensures forall i, p | 0 <= i < |s.casts| && 0 <= p < |s.casts[i].snapshot| ::
              s.casts[i].snapshot[p] in s.registered
  {
    if es != [] {
      var l := |es| - 1;
      var prev := Run(es[..l]).value;
      SnapshotsRegistered(es[..l], prev);
      LedgerHolds(es[..l], prev, Client(0, "", ""));
      assert prev.registered <= s.registered;
      forall i, p | 0 <= i < |s.casts| && 0 <= p < |s.casts[i].snapshot|
        ensures s.casts[i].snapshot[p] in s.registered
      {
        var c := s.casts[i].snapshot[p];
        if i < |prev.casts| {
          assert prev.casts[i].snapshot[p] == c;
        } else {
          assert c in es[l].snapshot;
        }
      }
    }
  }

  lemma {:induction false} DistinctNeverReuses(es: seq<Event>, s: State)
    requires Reaches(es, s) && DistinctIDs(s.registered)
    ensures NeverReuses(es)
  {
    if es != [] {
      var l := |es| - 1;
      var prev := Run(es[..l]).value;
      assert prev.registered <= s.registered;
      assert forall i | 0 <= i < |prev.registered| :: s.registered[i] == prev.registered[i];
      DistinctNeverReuses(es[..l], prev);
      if es[l].Join? {
        SnapshotsRegistered(es[..l], prev);
        forall d | d in prev.registered
          ensures d.clientID != es[l].client.clientID
        {
          var i :| 0 <= i < |prev.registered| && prev.registered[i] == d;
          Differ(s.registered, i, |prev.registered|);
        }
        assert forall n | n in prev.reading && n < |prev.registered| :: prev.registered[n] in prev.registered;
      }
    }
  }

  // ----- Reuse can blame the wrong client, even with nothing overwritten -----

  const FIRST := Client(0, "a", "r")
  const SECOND := Client(1, "a", "r")

  lemma Extend(es0: seq<Event>, s0: State, e: Event) returns (es: seq<Event>, s: State)
    requires Reaches(es0, s0) && Enabled(s0, e)
    ensures Reaches(es, s) && s == Apply(s0, e)
  {
    RunExtend(es0, s0, e);
    es, s := es0 + [e], Apply(s0, e);
  }

  /** A broadcast cannot write to the first client and takes it off; its read loop still runs. */
  lemma FirstRemoved() returns (es: seq<Event>, s: State)
    ensures Reaches(es, s) && s.index == EMPTY
    ensures s.registered == [FIRST] && s.reading == {0} && s.overwritten == [] && s.ended == {0}
    ensures s.notifying == [FIRST] && s.disconnected == []
  {
    es, s := [], INIT;
    assert Reaches(es, s);
    hide Run;
    hide Reaches;
    es, s := Extend(es, s, Join(FIRST));
    assert s.index == Index(map["a" := FIRST], map["r" := map["a" := FIRST]]);
    assert s.index.clients.Keys == {"a"};
    es, s := Extend(es, s, StartCast([FIRST]));
    es, s := Extend(es, s, CastWrite(0, false));
    assert s.casts == [Cast([FIRST], 0, true)];
    assert s.index.clients - {"a"} == map[] && s.index.rooms["r"] - {"a"} == map[] && s.index.rooms - {"r"} == map[];
    es, s := Extend(es, s, CastRemove(0));
  }

  /**
   The ID is registered again, then the first connection's read loop ends: the second client is taken
   off and reported although nothing is wrong with it, and no registration was overwritten.
   */
  lemma ReuseBlamesOther() returns (es: seq<Event>, s: State)
    ensures Reaches(es, s) && s.overwritten == [] && !OwnFaults(s)
  {
    es, s := FirstRemoved();
    hide Run;
    hide Reaches;
    es, s := Extend(es, s, Join(SECOND));
    assert s.index.clients == map["a" := SECOND] && s.registered == [FIRST, SECOND];
    es, s := Extend(es, s, ReadError(0));
    assert s.notifying == [FIRST, SECOND];
    es, s := Extend(es, s, Notify(1));
    assert s.disconnected == [SECOND] && s.ended == {0};
    assert SECOND in s.disconnected;
  }

  // ----- One registration decides -----

  /** A continuation without registrations. */
  ghost predicate NoJoins(more: seq<Event>) {
    forall k | 0 <= k < |more| :: !more[k].Join?
  }

  lemma {:induction false} NeverReusesMore(es: seq<Event>, more: seq<Event>)
    requires NeverReuses(es) && NoJoins(more) && Run(es + more).Some?
    ensures NeverReuses(es + more)
  {
    if more == [] {
      assert es + more == es;
    } else {
      var l := |more| - 1;
      assert (es + more)[..|es + more| - 1] == es + more[..l];
      NeverReusesMore(es, more[..l]);
    }
  }

  lemma {:induction false} EndedRegistered(es: seq<Event>, s: State)
    requires Reaches(es, s)
    ensures forall n | n in s.ended :: n < |s.registered|
  {
    if es != [] {
      var l := |es| - 1;
      var prev := Run(es[..l]).value;
      EndedRegistered(es[..l], prev);
      LedgerHolds(es[..l], prev, Client(0, "", ""));
      SnapshotsRegistered(es[..l], prev);
      if es[l].CastWrite? {
        var k := prev.casts[es[l].i];
        var j :| 0 <= j < |prev.registered| && prev.registered[j] == k.snapshot[k.next];
      }
    }
  }

  /** One more step, which is no registration. */
  lemma GoOn(start: seq<Event>, more0: seq<Event>, s0: State, e: Event) returns (more: seq<Event>, s: State)
    requires Reaches(start + more0, s0) && NoJoins(more0) && Enabled(s0, e) && !e.Join?
    ensures Reaches(start + more, s) && NoJoins(more) && s == Apply(s0, e)
  {
    RunExtend(start + more0, s0, e);
    more, s := more0 + [e], Apply(s0, e);
    assert start + more == start + more0 + [e];
  }

  /** A client that is about to be reported, without an error of its own, is reported. */
  lemma BlameReported(start: seq<Event>, more0: seq<Event>, s0: State, c: Client)
    returns (more: seq<Event>, s: State)
    requires Reaches(start + more0, s0) && NoJoins(more0)
    requires c in s0.notifying && c.conn !in s0.ended
    ensures Reaches(start + more, s) && NoJoins(more) && !OwnFaults(s)
  {
    var k :| 0 <= k < |s0.notifying| && s0.notifying[k] == c;
    more, s := GoOn(start, more0, s0, Notify(k));
    assert s.disconnected == s0.disconnected + [c];
    assert c in s.disconnected;
  }

  /** The read loop of another connection ends, and takes c off. */
  lemma ReadBlames(start: seq<Event>, s0: State, n: nat, c: Client) returns (more: seq<Event>, s: State)
    requires Reaches(start, s0) && Enabled(s0, ReadError(n)) && s0.registered[n].clientID == c.clientID
    requires c.clientID in s0.index.clients && s0.index.clients[c.clientID] == c
    requires c.conn !in s0.ended && c.conn != n
    ensures Reaches(start + more, s) && NoJoins(more) && !OwnFaults(s)
  {
    assert start + [] == start;
    more, s := GoOn(start, [], s0, ReadError(n));
    assert s.notifying == s0.notifying + [c];
    more, s := BlameReported(start, more, s, c);
  }

  /** Cast i is at its next client, whose ID is c's: its write fails, and c is taken off. */
  lemma CastFails(start: seq<Event>, more0: seq<Event>, s0: State, i: nat, c: Client)
    returns (more: seq<Event>, s: State)
    requires Reaches(start + more0, s0) && NoJoins(more0)
    requires i < |s0.casts| && Awaits(s0.casts[i], s0.casts[i].next)
    requires s0.casts[i].snapshot[s0.casts[i].next].clientID == c.clientID
    requires s0.casts[i].snapshot[s0.casts[i].next].conn != c.conn
    requires c.clientID in s0.index.clients && s0.index.clients[c.clientID] == c && c.conn !in s0.ended
    ensures Reaches(start + more, s) && NoJoins(more) && !OwnFaults(s)
  {
    more, s := more0, s0;
    if !s0.casts[i].failed {
      more, s := GoOn(start, more, s, CastWrite(i, false));
      assert s.casts[i] == s0.casts[i].(failed := true);
    }
    ghost var before := s.notifying;
    more, s := GoOn(start, more, s, CastRemove(i));
    assert s.notifying == before + [c];
    more, s := BlameReported(start, more, s, c);
  }

  /** Cast i goes on to its next client, and leaves c alone. */
  lemma CastPasses(start: seq<Event>, more0: seq<Event>, s0: State, i: nat, c: Client)
    returns (more: seq<Event>, s: State)
    requires Reaches(start + more0, s0) && NoJoins(more0)
    requires i < |s0.casts| && Awaits(s0.casts[i], s0.casts[i].next)
    requires s0.casts[i].snapshot[s0.casts[i].next].clientID != c.clientID
    requires c.clientID in s0.index.clients && s0.index.clients[c.clientID] == c && c.conn !in s0.ended
    ensures Reaches(start + more, s) && NoJoins(more)
    ensures |s.casts| == |s0.casts|
    ensures s.casts[i] == s0.casts[i].(next := s0.casts[i].next + 1, failed := false)
    ensures c.clientID in s.index.clients && s.index.clients[c.clientID] == c && c.conn !in s.ended
  {
    if s0.casts[i].failed {
      UnregisterClients(s0.index, s0.casts[i].snapshot[s0.casts[i].next].clientID);
      hide Unregister;
      more, s := GoOn(start, more0, s0, CastRemove(i));
    } else {
      more, s := GoOn(start, more0, s0, CastWrite(i, true));
    }
  }

  /** A broadcast that has yet to write to an earlier client of c's ID gets there, fails, and takes c off. */
  lemma {:induction false} CastBlames(start: seq<Event>, more0: seq<Event>, s0: State, i: nat, p: int, c: Client)
    returns (more: seq<Event>, s: State)
    requires Reaches(start + more0, s0) && NoJoins(more0)
    requires i < |s0.casts| && Awaits(s0.casts[i], p) && s0.casts[i].snapshot[p].clientID == c.clientID
    requires forall d | d in s0.casts[i].snapshot :: d.conn != c.conn
    requires c.clientID in s0.index.clients && s0.index.clients[c.clientID] == c && c.conn !in s0.ended
    ensures Reaches(start + more, s) && NoJoins(more) && !OwnFaults(s)
    decreases p - s0.casts[i].next
  {
    if s0.casts[i].snapshot[s0.casts[i].next].clientID == c.clientID {
      more, s := CastFails(start, more0, s0, i, c);
    } else {
      more, s := CastPasses(start, more0, s0, i, c);
      more, s := CastBlames(start, more, s, i, p, c);
    }
  }

  /** After a registration for an ID in use, the new client can be blamed without any further registration. */
  lemma ReuseBlames(es: seq<Event>, s: State, c: Client) returns (more: seq<Event>, s': State)
    requires Reaches(es, s) && Enabled(s, Join(c)) && InUse(s, c.clientID)
    ensures Reaches(es + [Join(c)] + more, s') && NoJoins(more) && !OwnFaults(s')
  {
    var start, s1 := es + [Join(c)], Apply(s, Join(c));
    RunExtend(es, s, Join(c));
    EndedRegistered(es, s);
    RegisterClients(s.index, c);
    hide Register;
    if ReadBy(s, c.clientID) {
      var n :| n in s.reading && n < |s.registered| && s.registered[n].clientID == c.clientID;
      more, s' := ReadBlames(start, s1, n, c);
    } else {
      var i, p :| 0 <= i < |s.casts| && Awaits(s.casts[i], p) && s.casts[i].snapshot[p].clientID == c.clientID;
      SnapshotsRegistered(es, s);
      LedgerHolds(es, s, c);
      assert start + [] == start;
      more, s' := CastBlames(start, [], s1, i, p, c);
    }
  }

  /**
   After a run that has registered no ID in use, a registration lets some later report blame a client whose
   own connection gave no error, in a continuation without registrations, exactly when its ID is in use.
   */
  lemma BlameExact(es: seq<Event>, s: State, c: Client)
    requires Reaches(es, s) && NeverReuses(es) && Enabled(s, Join(c))
    ensures (forall more, s' | Reaches(es + [Join(c)] + more, s') && NoJoins(more) :: OwnFaults(s'))
       <==> !InUse(s, c.clientID)
  {
    if InUse(s, c.clientID) {
      var more, s' := ReuseBlames(es, s, c);
    } else {
      assert (es + [Join(c)])[..|es|] == es;
      forall more, s' | Reaches(es + [Join(c)] + more, s') && NoJoins(more)
        ensures OwnFaults(s')
      {
        NeverReusesMore(es + [Join(c)], more);
        OwnFaultsHold(es + [Join(c)] + more, s');
      }
    }
  }
}
