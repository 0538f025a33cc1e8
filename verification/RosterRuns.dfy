/**
 The live list read off the events of a run alone: which connections were accepted, which handlers have
 exited, and which pings of the heartbeat failed.
 */
module RosterRuns {
  import opened Sequences
  import opened Messages
  import opened Roster

  /** The list as it was when the heartbeat last copied it. */
  function Copied(es: seq<Event>): seq<ConnId> {
    if es == [] then []
    else
      var l := |es| - 1;
      if es[l].Snapshot? && Run(es[..l]).Some? then Run(es[..l]).value.clients else Copied(es[..l])
  }

  /** How many connections of that copy have been pinged. */
  function Pings(es: seq<Event>): nat {
    if es == [] || es[|es| - 1].Snapshot? then 0
    else Pings(es[..|es| - 1]) + if es[|es| - 1].PingOne? then 1 else 0
  }

  /** The last event is a ping of c with that result. */
  predicate LastPinged(es: seq<Event>, c: ConnId, ok: bool) {
    && es != [] && es[|es| - 1] == PingOne(ok)
    && var before := es[..|es| - 1];
       Pings(before) < |Copied(before)| && Copied(before)[Pings(before)] == c
  }

  /** A ping of c has failed since the heartbeat last copied the list. */
  predicate FailedSince(es: seq<Event>, c: ConnId) {
    && es != [] && !es[|es| - 1].Snapshot?
    && (FailedSince(es[..|es| - 1], c) || LastPinged(es, c, false))
  }

  /** The handler of c has run its cleanup. */
  predicate Exited(es: seq<Event>, c: ConnId) {
    HandlerExit(c) in es
  }

  /** The heartbeat has come to its second region after a failed ping of c. */
  predicate Evicted(es: seq<Event>, c: ConnId) {
    && es != []
    && (Evicted(es[..|es| - 1], c) || (es[|es| - 1].Evict? && FailedSince(es[..|es| - 1], c)))
  }

  /** The heartbeat goes through its copy in order, and its dead connections are those whose ping failed. */
  lemma {:induction false} PingsInOrder(es: seq<Event>, s: State)
    requires Run(es) == Some(s) && s.ping.Pinging?
    ensures s.ping.snapshot == Copied(es) && s.ping.next == Pings(es)
    ensures forall c :: c in s.ping.dead <==> FailedSince(es, c)
  {
    var l := |es| - 1;
    var prev := Run(es[..l]).value;
    if !es[l].Snapshot? {
      PingsInOrder(es[..l], prev);
      if es[l].PingOne? {
        assert forall c :: LastPinged(es, c, false) <==> !es[l].ok && c == prev.ping.snapshot[prev.ping.next];
      }
    }
  }

  /** A round ends only when every connection of the copy has been pinged. */
  lemma RoundComplete(es: seq<Event>, s: State)
    requires Run(es) == Some(s) && Enabled(s, Evict)
    ensures Pings(es) == |Copied(es)|
  {
    PingsInOrder(es, s);
  }

  lemma {:induction false} RemovedExactly(es: seq<Event>, s: State, c: ConnId)
    requires Run(es) == Some(s)
    ensures c in s.removed <==> Exited(es, c) || Evicted(es, c)
    ensures c in s.finished <==> Exited(es, c)
    ensures c in s.accepted <==> Accept(c) in es
  {
    if es != [] {
      var l := |es| - 1;
      var prev := Run(es[..l]).value;
      assert es == es[..l] + [es[l]];
      RemovedExactly(es[..l], prev, c);
      if es[l].Evict? {
        PingsInOrder(es[..l], prev);
      }
    }
  }

  /**
   A connection is on the list exactly when it was accepted, its handler has not exited, and no ping of
   it has failed in a round that came to its end.
   */
  lemma LiveExactly(es: seq<Event>, s: State, c: ConnId)
    requires Run(es) == Some(s)
    ensures c in s.clients <==> Accept(c) in es && !Exited(es, c) && !Evicted(es, c)
  {
    RemovedExactly(es, s, c);
    InvHolds(es);
    KeepMembers(s.accepted, s.removed, c);
  }

  /** The k-th event is a failed ping of c. */
  predicate FailedAt(es: seq<Event>, k: nat, c: ConnId)
    requires k < |es|
  {
    LastPinged(es[..k + 1], c, false)
  }

  lemma {:induction false} FailedPing(es: seq<Event>, c: ConnId)
    requires FailedSince(es, c)
    ensures exists k :: 0 <= k < |es| && FailedAt(es, k, c)
  {
    var l := |es| - 1;
    if LastPinged(es, c, false) {
      assert es[..l + 1] == es && FailedAt(es, l, c);
    } else {
      FailedPing(es[..l], c);
      var k :| 0 <= k < l && FailedAt(es[..l], k, c);
      assert es[..l][..k + 1] == es[..k + 1] && FailedAt(es, k, c);
    }
  }

  lemma {:induction false} OnlyFailedEvicted(es: seq<Event>, c: ConnId)
    requires Evicted(es, c)
    ensures exists k :: 0 <= k < |es| && FailedAt(es, k, c)
  {
    var l := |es| - 1;
    if Evicted(es[..l], c) {
      OnlyFailedEvicted(es[..l], c);
      var k :| 0 <= k < l && FailedAt(es[..l], k, c);
      assert es[..l][..k + 1] == es[..k + 1] && FailedAt(es, k, c);
    } else {
      FailedPing(es[..l], c);
      var k :| 0 <= k < l && FailedAt(es[..l], k, c);
      assert es[..l][..k + 1] == es[..k + 1] && FailedAt(es, k, c);
    }
  }

  /** A connection whose handler runs and whose every ping has succeeded is on the list. */
  lemma HealthyStays(es: seq<Event>, s: State, c: ConnId)
    requires Run(es) == Some(s) && Accept(c) in es && !Exited(es, c)
    requires forall k | 0 <= k < |es| :: !FailedAt(es, k, c)
    ensures c in s.clients
  {
    LiveExactly(es, s, c);
    if Evicted(es, c) {
      OnlyFailedEvicted(es, c);
    }
  }

  /** How many flushes the accept loop has started. */
  function Starts(es: seq<Event>): nat {
    if es == [] then 0 else Starts(es[..|es| - 1]) + if es[|es| - 1].Spawn? then 1 else 0
  }

  /** Every accepted connection gets one flush; only that of the last can still be to start. */
  lemma {:induction false} FlushForEach(es: seq<Event>, s: State)
    requires Run(es) == Some(s)
    ensures |s.accepted| == Starts(es) + if s.spawning then 1 else 0
  {
    if es != [] {
      FlushForEach(es[..|es| - 1], Run(es[..|es| - 1]).value);
    }
  }

  lemma {:induction false} RunPrefix(es: seq<Event>, k: nat)
    requires Run(es).Some? && k <= |es|
    ensures Run(es[..k]).Some?
    decreases |es| - k
  {
    if k == |es| {
      assert es[..k] == es;
    } else {
      RunPrefix(es, k + 1);
      assert es[..k + 1][..k] == es[..k];
    }
  }

  lemma LastExit(es: seq<Event>, c: ConnId)
    requires es != [] && Run(es).Some? && es[|es| - 1] == HandlerExit(c)
    ensures Accept(c) in es[..|es| - 1] && HandlerExit(c) !in es[..|es| - 1]
  {
    var before := es[..|es| - 1];
    RemovedExactly(before, Run(before).value, c);
  }

  /** A handler exits after its connection was accepted, and only once. */
  lemma ExitsOnce(es: seq<Event>, c: ConnId, j: nat)
    requires Run(es).Some? && j < |es| && es[j] == HandlerExit(c)
    ensures Accept(c) in es[..j]
    ensures forall k | 0 <= k < j :: es[k] != HandlerExit(c)
  {
    hide Run;
    RunPrefix(es, j + 1);
    LastExit(es[..j + 1], c);
    assert es[..j + 1][..j] == es[..j];
    hide *;
    forall k | 0 <= k < j
      ensures es[k] != HandlerExit(c)
    {
      assert es[..j][k] == es[k];
    }
  }
}
