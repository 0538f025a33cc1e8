/**
 The list of live backend connections (TCPServer.Clients) and everything that changes it:
 the accept loop, the handler of each connection, and the heartbeat.
 One event is one region under TCPServer.mu, or one connection write.
 */
module Roster {
  import opened Sequences
  import opened Messages

  /** The heartbeat goroutine: the copied snapshot, how much of it has been pinged, who failed. */
  datatype Ping = Resting | Pinging(snapshot: seq<ConnId>, next: nat, dead: seq<ConnId>)

  /**
   clients is TCPServer.Clients. The rest is history or program position: accepted lists the
   connections in acceptance order, spawning holds between appending a connection and starting
   its flush, finished are the connections whose handler has run its cleanup, removed those
   that a handler or the heartbeat has taken off the list.
   */
  datatype State = State(
    clients: seq<ConnId>,
    accepted: seq<ConnId>,
    spawning: bool,
    finished: set<ConnId>,
    removed: set<ConnId>,
    ping: Ping)

  datatype Event =
    | Accept(conn: ConnId)
    | Spawn
    | HandlerExit(conn: ConnId)
    | Snapshot
    | PingOne(ok: bool)
    | Evict

  const INIT := State([], [], false, {}, {}, Resting)

  /** The slice deletion append(s[:i], s[i+1:]...) at the first i that holds c. */
  function RemoveFirst(s: seq<ConnId>, c: ConnId): seq<ConnId> {
    if s == [] then []
    else if s[0] == c then s[1..]
    else [s[0]] + RemoveFirst(s[1..], c)
  }

  /** The heartbeat's deletions, one dead connection after the other. */
  function RemoveEach(s: seq<ConnId>, dead: seq<ConnId>): seq<ConnId>
    decreases dead
  {
    if dead == [] then s else RemoveEach(RemoveFirst(s, dead[0]), dead[1..])
  }

  predicate Enabled(s: State, e: Event) {
    match e
    case Accept(c) => !s.spawning && c !in s.accepted
    case Spawn => s.spawning
    case HandlerExit(c) =>
      c in s.accepted && c !in s.finished && !(s.spawning && c == s.accepted[|s.accepted| - 1])
    case Snapshot => s.ping.Resting?
    case PingOne(_) => s.ping.Pinging? && s.ping.next < |s.ping.snapshot|
    case Evict => s.ping.Pinging? && s.ping.next == |s.ping.snapshot|
  }

  function Apply(s: State, e: Event): State
    requires Enabled(s, e)
  {
    match e
    case Accept(c) => s.(clients := s.clients + [c], accepted := s.accepted + [c], spawning := true)
    case Spawn => s.(spawning := false)
    case HandlerExit(c) =>
      s.(clients := RemoveFirst(s.clients, c), finished := s.finished + {c}, removed := s.removed + {c})
    case Snapshot => s.(ping := Pinging(s.clients, 0, []))
    case PingOne(ok) =>
      var p := s.ping;
      s.(ping := p.(next := p.next + 1, dead := if ok then p.dead else p.dead + [p.snapshot[p.next]]))
    case Evict =>
      s.(clients := RemoveEach(s.clients, s.ping.dead),
         removed := s.removed + (set c | c in s.ping.dead),
         ping := Resting)
  }

  /** The connections of s that are not in gone, in the order of s. */
  function Keep(s: seq<ConnId>, gone: set<ConnId>): seq<ConnId> {
    if s == [] then []
    else if s[0] in gone then Keep(s[1..], gone)
    else [s[0]] + Keep(s[1..], gone)
  }

  ghost predicate Inv(s: State) {
    && NoDuplicates(s.accepted)
    && s.clients == Keep(s.accepted, s.removed)
    && s.finished <= s.removed
    && (forall c | c in s.removed :: c in s.accepted)
    && (s.spawning ==> s.accepted != [])
    && (s.ping.Pinging? ==>
          && s.ping.next <= |s.ping.snapshot|
          && (forall c | c in s.ping.snapshot :: c in s.accepted)
          && (forall c | c in s.ping.dead :: c in s.ping.snapshot))
  }

  lemma {:induction false} KeepMembers(s: seq<ConnId>, gone: set<ConnId>, c: ConnId)
    ensures c in Keep(s, gone) <==> c in s && c !in gone
  {
    if s != [] {
      KeepMembers(s[1..], gone, c);
      assert s == [s[0]] + s[1..];
    }
  }

  lemma {:induction false} KeepNoDuplicates(s: seq<ConnId>, gone: set<ConnId>)
    requires NoDuplicates(s)
    ensures NoDuplicates(Keep(s, gone))
  {
    if s != [] {
      assert forall i | 0 <= i < |s[1..]| :: s[1..][i] == s[i + 1];
      KeepNoDuplicates(s[1..], gone);
      KeepMembers(s[1..], gone, s[0]);
    }
  }

  lemma {:induction false} KeepAppend(s: seq<ConnId>, c: ConnId, gone: set<ConnId>)
    ensures Keep(s + [c], gone) == Keep(s, gone) + (if c in gone then [] else [c])
  {
    if s == [] {
      assert [c][1..] == [];
    } else {
      assert (s + [c])[1..] == s[1..] + [c];
      KeepAppend(s[1..], c, gone);
    }
  }

  lemma {:induction false} KeepWithoutAbsent(s: seq<ConnId>, gone: set<ConnId>, c: ConnId)
    requires c !in s
    ensures Keep(s, gone + {c}) == Keep(s, gone)
  {
    if s != [] {
      assert s == [s[0]] + s[1..];
      KeepWithoutAbsent(s[1..], gone, c);
    }
  }

  /** Deleting c in place from the kept connections is the same as keeping one fewer. */
  lemma {:induction false} RemoveFirstKeeps(s: seq<ConnId>, gone: set<ConnId>, c: ConnId)
    requires NoDuplicates(s)
    ensures RemoveFirst(Keep(s, gone), c) == Keep(s, gone + {c})
  {
    if s != [] {
      assert forall i | 0 <= i < |s[1..]| :: s[1..][i] == s[i + 1];
      RemoveFirstKeeps(s[1..], gone, c);
      if s[0] == c {
        KeepWithoutAbsent(s[1..], gone, c);
        KeepMembers(s[1..], gone, c);
        assert c !in gone ==> Keep(s, gone)[1..] == Keep(s[1..], gone);
      } else if s[0] !in gone {
        assert Keep(s, gone)[1..] == Keep(s[1..], gone);
      }
    }
  }

  lemma {:induction false} RemoveEachKeeps(s: seq<ConnId>, gone: set<ConnId>, dead: seq<ConnId>)
    requires NoDuplicates(s)
    ensures RemoveEach(Keep(s, gone), dead) == Keep(s, gone + set c | c in dead)
    decreases dead
  {
    if dead == [] {
      assert gone + (set c | c in dead) == gone;
    } else {
      RemoveFirstKeeps(s, gone, dead[0]);
      RemoveEachKeeps(s, gone + {dead[0]}, dead[1..]);
      assert dead == [dead[0]] + dead[1..];
      assert gone + {dead[0]} + (set c | c in dead[1..]) == gone + (set c | c in dead);
    }
  }

  lemma {:induction false} InvStep(s: State, e: Event)
    requires Inv(s) && Enabled(s, e)
    ensures Inv(Apply(s, e))
    ensures s.removed <= Apply(s, e).removed
    ensures s.accepted <= Apply(s, e).accepted
  {
    match e
    case Accept(c) => KeepAppend(s.accepted, c, s.removed);
    case HandlerExit(c) => RemoveFirstKeeps(s.accepted, s.removed, c);
    case Snapshot =>
      forall c | c in s.clients ensures c in s.accepted { KeepMembers(s.accepted, s.removed, c); }
    case Evict => RemoveEachKeeps(s.accepted, s.removed, s.ping.dead);
    case Spawn =>
    case PingOne(_) =>
  }

  /** The state after the events of a run, or None where some event was not possible. */
  function Run(es: seq<Event>): Option<State> {
    if es == [] then Some(INIT)
    else
      var prev := Run(es[..|es| - 1]);
      if prev.Some? && Enabled(prev.value, es[|es| - 1])
      then Some(Apply(prev.value, es[|es| - 1])) else None
  }

  lemma {:induction false} RunExtend(es: seq<Event>, s: State, e: Event)
    requires Run(es) == Some(s) && Enabled(s, e)
    ensures Run(es + [e]) == Some(Apply(s, e))
  {
    assert (es + [e])[..|es|] == es;
  }

  lemma {:induction false} InvHolds(es: seq<Event>)
    requires Run(es).Some?
    ensures Inv(Run(es).value)
  {
    if es != [] {
      InvHolds(es[..|es| - 1]);
      InvStep(Run(es[..|es| - 1]).value, es[|es| - 1]);
    }
  }

  lemma {:induction false} RemovedStays(es: seq<Event>, k: nat)
    requires Run(es).Some? && k <= |es|
    ensures Run(es[..k]).Some?
    ensures Run(es[..k]).value.removed <= Run(es).value.removed
    ensures Run(es[..k]).value.accepted <= Run(es).value.accepted
    decreases |es| - k
  {
    hide Inv;
    hide Apply;
    hide Enabled;
    if k == |es| {
      assert es[..k] == es;
    } else {
      RemovedStays(es, k + 1);
      assert es[..k + 1][..k] == es[..k];
      InvHolds(es[..k]);
      InvStep(Run(es[..k]).value, es[k]);
    }
  }

  /** Keep keeps the order: what comes first among the kept comes first in s. */
  lemma {:induction false} KeepOrder(s: seq<ConnId>, gone: set<ConnId>, i: nat, j: nat, a: nat, b: nat)
    requires NoDuplicates(s) && i < j < |Keep(s, gone)| && a < |s| && b < |s|
    requires Keep(s, gone)[i] == s[a] && Keep(s, gone)[j] == s[b]
    ensures a < b
  {
    var rest := s[1..];
    assert forall k | 0 <= k < |rest| :: rest[k] == s[k + 1];
    KeepMembers(rest, gone, s[0]);
    if s[0] in gone {
      KeepMembers(rest, gone, Keep(s, gone)[i]);
      KeepMembers(rest, gone, Keep(s, gone)[j]);
      KeepOrder(rest, gone, i, j, a - 1, b - 1);
    } else {
      assert Keep(s, gone)[j] == Keep(rest, gone)[j - 1];
      KeepMembers(rest, gone, Keep(s, gone)[j]);
      if i > 0 {
        KeepMembers(rest, gone, Keep(s, gone)[i]);
        KeepOrder(rest, gone, i - 1, j - 1, a - 1, b - 1);
      }
    }
  }

  /**
   In every run Clients is the acceptance order with the removed connections left out, so it has
   no duplicates and never holds a connection whose handler has finished.
   */
  lemma {:induction false} LiveList(es: seq<Event>)
    requires Run(es).Some?
    ensures var s := Run(es).value;
      && s.clients == Keep(s.accepted, s.removed)
      && NoDuplicates(s.clients) && NoDuplicates(s.accepted)
      && (forall i, j, a, b | 0 <= i < j < |s.clients| && 0 <= a < |s.accepted| && 0 <= b < |s.accepted|
            && s.clients[i] == s.accepted[a] && s.clients[j] == s.accepted[b] :: a < b)
      && (forall c | c in s.clients :: c in s.accepted && c !in s.finished)
  {
    InvHolds(es);
    var s := Run(es).value;
    KeepNoDuplicates(s.accepted, s.removed);
    forall i, j, a, b | 0 <= i < j < |s.clients| && 0 <= a < |s.accepted| && 0 <= b < |s.accepted|
        && s.clients[i] == s.accepted[a] && s.clients[j] == s.accepted[b]
      ensures a < b
    {
      KeepOrder(s.accepted, s.removed, i, j, a, b);
    }
    forall c | c in s.clients ensures c in s.accepted && c !in s.finished {
      KeepMembers(s.accepted, s.removed, c);
    }
  }

  /** A connection that has left the list, by its handler or by the heartbeat, never comes back. */
  lemma {:induction false} NeverAgain(es: seq<Event>, k: nat, c: ConnId)
    requires Run(es).Some? && k <= |es|
    requires Run(es[..k]).Some? && c in Run(es[..k]).value.accepted && c !in Run(es[..k]).value.clients
    ensures c !in Run(es).value.clients
  {
    InvHolds(es[..k]);
    InvHolds(es);
    RemovedStays(es, k);
    KeepMembers(Run(es[..k]).value.accepted, Run(es[..k]).value.removed, c);
    KeepMembers(Run(es).value.accepted, Run(es).value.removed, c);
  }

  /** Handler cleanup and heartbeat eviction of the same connection compose to one removal. */
  lemma {:induction false} RemovalIdempotent(s: State, c: ConnId)
    requires Inv(s)
    ensures RemoveFirst(RemoveFirst(s.clients, c), c) == RemoveFirst(s.clients, c)
    ensures c !in RemoveFirst(s.clients, c)
    ensures forall d | d != c :: d in RemoveFirst(s.clients, c) <==> d in s.clients
  {
    RemoveFirstKeeps(s.accepted, s.removed, c);
    RemoveFirstKeeps(s.accepted, s.removed + {c}, c);
    assert s.removed + {c} + {c} == s.removed + {c};
    forall d
      ensures d in RemoveFirst(s.clients, c) <==> d in s.clients && d != c
    {
      KeepMembers(s.accepted, s.removed, d);
      KeepMembers(s.accepted, s.removed + {c}, d);
    }
  }
}
