/**
 Concrete runs in which a newer message is written first: two flushes that overlap and always find a
 backend, and a single flush that finds none.
 */
module StoreRuns {
  import opened Messages
  import opened Store
  import Roster
  import opened StoreBounds
  import opened StoreOrder
  import StoreConservation

  const OLDER := BackendRequest(0, ErrorReport)
  const NEWER := BackendRequest(1, ErrorReport)
  const NUMBERS := map[OLDER := 0, NEWER := 1]

  /** The flushes of a run always find a backend. */
  ghost predicate AlwaysFinds(n: nat, es: seq<Event>) {
    es != [] ==>
      && AlwaysFinds(n, es[..|es| - 1])
      && Run(n, es[..|es| - 1]).Some?
      && FlushFinds(Run(n, es[..|es| - 1]).value, es[|es| - 1])
  }

  /** At most one flush is outstanding throughout a run. */
  ghost predicate NeverOverlaps(n: nat, es: seq<Event>) {
    && Run(n, es).Some? && OneBatch(Run(n, es).value)
    && (es != [] ==> NeverOverlaps(n, es[..|es| - 1]))
  }

  /** Orderly runs are exactly those that have both properties. */
  lemma {:induction false} OrderlyIsBoth(n: nat, es: seq<Event>)
    ensures Orderly(n, es) <==> NeverOverlaps(n, es) && AlwaysFinds(n, es)
  {
    if es != [] {
      OrderlyIsBoth(n, es[..|es| - 1]);
    }
  }

  lemma Finding(n: nat, es0: seq<Event>, s0: State, e: Event) returns (es: seq<Event>, s: State)
    requires Reaches(n, es0, s0) && Enabled(s0, e)
    requires AlwaysFinds(n, es0) && FlushFinds(s0, e)
    ensures Reaches(n, es, s) && s == Apply(s0, e) && AlwaysFinds(n, es)
  {
    es, s := Extend(n, es0, s0, e);
    assert es[..|es| - 1] == es0;
  }

  lemma Alone(n: nat, es0: seq<Event>, s0: State, e: Event) returns (es: seq<Event>, s: State)
    requires Reaches(n, es0, s0) && Enabled(s0, e)
    requires NeverOverlaps(n, es0) && OneBatch(Apply(s0, e))
    ensures Reaches(n, es, s) && s == Apply(s0, e) && NeverOverlaps(n, es)
  {
    es, s := Extend(n, es0, s0, e);
    assert es[..|es| - 1] == es0;
  }

  lemma Orderlier(n: nat, es0: seq<Event>, s0: State, e: Event) returns (es: seq<Event>, s: State)
    requires Reaches(n, es0, s0) && Enabled(s0, e)
    requires Orderly(n, es0) && FlushFinds(s0, e) && OneBatch(Apply(s0, e))
    ensures Reaches(n, es, s) && s == Apply(s0, e) && Orderly(n, es)
  {
    es, s := Extend(n, es0, s0, e);
    assert es[..|es| - 1] == es0;
  }

  /** One sender. */
  lemma OneBegun(n: nat) returns (es: seq<Event>, s: State)
    ensures Reaches(n, es, s) && Orderly(n, es)
    ensures s == Init(n).(threads := [Sender(OLDER, Picking)], hist := Init(n).hist.(begun := [OLDER]))
  {
    es, s := [], Init(n);
    assert Reaches(n, es, s) && Orderly(n, es);
    hide Run;
    hide Reaches;
    hide Orderly;
    es, s := Orderlier(n, es, s, Begin(OLDER));
  }

  /** Two senders. */
  lemma TwoBegun(n: nat) returns (es: seq<Event>, s: State)
    ensures Reaches(n, es, s) && Orderly(n, es)
    ensures s == Init(n).(threads := [Sender(OLDER, Picking), Sender(NEWER, Picking)],
                          hist := Init(n).hist.(begun := [OLDER, NEWER]))
  {
    es, s := OneBegun(n);
    hide Run;
    hide Reaches;
    hide Orderly;
    es, s := Orderlier(n, es, s, Begin(NEWER));
  }

  /** Neither finds a backend. */
  lemma TwoSenders(n: nat) returns (es: seq<Event>, s: State)
    requires n > 0
    ensures Reaches(n, es, s) && Orderly(n, es)
    ensures s.threads == [Sender(OLDER, Enqueueing(0)), Sender(NEWER, Enqueueing(0))] && s.queue == []
    ensures s.hist.stamps == map[] && s.hist.clock == 0 && s.hist.written == []
    ensures s.hist.excess == 0 && s.maxQueueSize == n && s.roster == Roster.INIT
  {
    es, s := TwoBegun(n);
    hide Run;
    hide Reaches;
    hide Orderly;
    es, s := Orderlier(n, es, s, PickNone(0));
    assert s.threads == [Sender(OLDER, Enqueueing(0)), Sender(NEWER, Picking)];
    es, s := Orderlier(n, es, s, PickNone(1));
  }

  /** The older message is queued. */
  lemma OlderQueued(n: nat) returns (es: seq<Event>, s: State)
    requires n > 0
    ensures Reaches(n, es, s) && Orderly(n, es)
    ensures s.threads == [Done, Sender(NEWER, Enqueueing(0))] && s.queue == [OLDER]
    ensures s.hist.stamps == map[OLDER := 0] && s.hist.clock == 1 && s.hist.written == []
    ensures s.hist.excess == 0 && s.maxQueueSize == n && s.roster == Roster.INIT
  {
    es, s := TwoSenders(n);
    hide Run;
    hide Reaches;
    hide Orderly;
    es, s := Orderlier(n, es, s, Append(0));
  }

  /** Backend 0 connects, and its flush takes the message. */
  lemma OlderTaken(n: nat) returns (es: seq<Event>, s: State)
    requires n > 0
    ensures Reaches(n, es, s) && Orderly(n, es)
    ensures s.threads == [Done, Sender(NEWER, Enqueueing(0)), Flush([OLDER], 0, Picking)] && s.queue == []
    ensures s.hist.stamps == map[OLDER := 0] && s.hist.clock == 1 && s.hist.written == []
    ensures s.hist.excess == 0 && s.maxQueueSize == n
    ensures s.roster == Roster.State([0], [0], false, {}, {}, Roster.Resting)
  {
    es, s := OlderQueued(n);
    hide Run;
    hide Reaches;
    hide Orderly;
    es, s := Orderlier(n, es, s, Conn(Roster.Accept(0)));
    es, s := Orderlier(n, es, s, Conn(Roster.Spawn));
    assert s.threads == [Done, Sender(NEWER, Enqueueing(0)), FlushStarted];
    es, s := Orderlier(n, es, s, Take(2));
  }

  /** The newer message is queued behind the flush. */
  lemma FirstBatch(n: nat) returns (es: seq<Event>, s: State)
    requires n > 0
    ensures Reaches(n, es, s) && NeverOverlaps(n, es) && AlwaysFinds(n, es)
    ensures s.threads == [Done, Done, Flush([OLDER], 0, Picking)] && s.queue == [NEWER]
    ensures s.hist.stamps == NUMBERS && s.hist.written == [] && s.hist.excess == 0 && s.maxQueueSize == n
    ensures s.roster == Roster.State([0], [0], false, {}, {}, Roster.Resting)
  {
    es, s := OlderTaken(n);
    hide Run;
    hide Reaches;
    hide Orderly;
    es, s := Orderlier(n, es, s, Append(1));
    OrderlyIsBoth(n, es);
  }

  // ----- Overlapping flushes -----

  /** Backend 1 connects and its flush takes the newer message: two batches are outstanding. */
  lemma TwoBatches(n: nat) returns (es: seq<Event>, s: State)
    requires n > 0
    ensures Reaches(n, es, s) && AlwaysFinds(n, es)
    ensures s.threads == [Done, Done, Flush([OLDER], 0, Picking), Flush([NEWER], 0, Picking)]
    ensures s.hist.stamps == NUMBERS && s.hist.written == [] && s.roster.clients == [0, 1] && s.queue == []
  {
    es, s := FirstBatch(n);
    hide Run;
    hide Reaches;
    hide AlwaysFinds;
    es, s := Finding(n, es, s, Conn(Roster.Accept(1)));
    es, s := Finding(n, es, s, Conn(Roster.Spawn));
    assert s.threads == [Done, Done, Flush([OLDER], 0, Picking), FlushStarted];
    es, s := Finding(n, es, s, Take(3));
  }

  lemma TwoFlushed(w: seq<Sent>, c: ConnId)
    requires w == [Sent(c, NEWER, true), Sent(c, OLDER, true)]
    ensures Flushed(w) == [NEWER, OLDER]
  {
    FlushedAppend([], w[0]);
    FlushedAppend([w[0]], w[1]);
    assert w == [w[0]] + [w[1]] && [] + [w[0]] == [w[0]];
  }

  /** Overlapping flushes whose sends always find a backend can write the newer message first. */
  lemma OverlapReorders(n: nat) returns (es: seq<Event>, s: State)
    requires n > 0
    ensures Reaches(n, es, s) && AlwaysFinds(n, es)
    ensures Flushed(s.hist.written) == [NEWER, OLDER] && s.queue == [] && s.hist.stamps == NUMBERS
  {
    es, s := TwoBatches(n);
    hide Run;
    hide Reaches;
    hide AlwaysFinds;
    es, s := Finding(n, es, s, Pick(3, 0));
    es, s := Finding(n, es, s, WriteOk(3));
    assert s.threads == [Done, Done, Flush([OLDER], 0, Picking), Done];
    es, s := Finding(n, es, s, Pick(2, 0));
    es, s := Finding(n, es, s, WriteOk(2));
    TwoFlushed(s.hist.written, 0);
  }

  // ----- A flush that finds no backend -----

  /** The flush is interrupted: both messages are queued, in order. */
  lemma BothQueued(n: nat) returns (es: seq<Event>, s: State)
    requires n > 0
    ensures Reaches(n, es, s) && NeverOverlaps(n, es)
    ensures s.threads == [Done, Done, Done] && s.queue == [OLDER, NEWER]
    ensures s.hist.stamps == NUMBERS && s.hist.written == [] && s.hist.excess == 1 && s.maxQueueSize == n
    ensures s.roster == Roster.State([0], [0], false, {}, {}, Roster.Resting)
  {
    es, s := FirstBatch(n);
    hide Run;
    hide Reaches;
    hide NeverOverlaps;
    es, s := Alone(n, es, s, Pick(2, 0));
    es, s := Alone(n, es, s, WriteFail(2));
    assert s.threads == [Done, Done, Requeuing([OLDER], 0)];
    es, s := Alone(n, es, s, Requeue(2));
  }

  /** Backend 1 connects and its flush takes both messages. */
  lemma BothTaken(n: nat) returns (es: seq<Event>, s: State)
    requires n > 0
    ensures Reaches(n, es, s) && NeverOverlaps(n, es)
    ensures s.threads == [Done, Done, Done, Flush([OLDER, NEWER], 1, Picking)] && s.queue == []
    ensures s.hist.stamps == NUMBERS && s.hist.written == [] && s.hist.excess == 0 && s.maxQueueSize == n
    ensures s.roster == Roster.State([0, 1], [0, 1], false, {}, {}, Roster.Resting)
  {
    es, s := BothQueued(n);
    hide Run;
    hide Reaches;
    hide NeverOverlaps;
    es, s := Alone(n, es, s, Conn(Roster.Accept(1)));
    es, s := Alone(n, es, s, Conn(Roster.Spawn));
    assert s.threads == [Done, Done, Done, FlushStarted];
    es, s := Alone(n, es, s, Take(3));
  }

  /** Both backends are gone again before the flush notices. */
  lemma BothGone(n: nat) returns (es: seq<Event>, s: State)
    requires n > 0
    ensures Reaches(n, es, s) && NeverOverlaps(n, es)
    ensures s.threads == [Done, Done, Done, Flush([OLDER, NEWER], 1, Picking)] && s.queue == []
    ensures s.hist.stamps == NUMBERS && s.hist.written == [] && s.hist.excess == 0 && s.maxQueueSize == n
    ensures s.roster == Roster.State([], [0, 1], false, {0, 1}, {0, 1}, Roster.Resting)
  {
    es, s := BothTaken(n);
    hide Run;
    hide Reaches;
    hide NeverOverlaps;
    es, s := Alone(n, es, s, Conn(Roster.HandlerExit(0)));
    es, s := Alone(n, es, s, Conn(Roster.HandlerExit(1)));
  }

  /** The flush finds no backend for the older message and enqueues it again. */
  lemma OlderBack(n: nat) returns (es: seq<Event>, s: State)
    requires n > 0
    ensures Reaches(n, es, s) && NeverOverlaps(n, es)
    ensures s.threads == [Done, Done, Done, Flush([NEWER], 1, Picking)] && s.queue == [OLDER]
    ensures s.hist.stamps == NUMBERS && s.hist.written == [] && s.hist.excess == 0 && s.maxQueueSize == n
    ensures s.roster == Roster.State([], [0, 1], false, {0, 1}, {0, 1}, Roster.Resting)
  {
    es, s := BothGone(n);
    hide Run;
    hide Reaches;
    hide NeverOverlaps;
    es, s := Alone(n, es, s, PickNone(3));
    assert s.threads == [Done, Done, Done, Flush([OLDER, NEWER], 1, Enqueueing(2))];
    es, s := Alone(n, es, s, Append(3));
  }

  /** Backend 2 connects. */
  lemma ThirdBackend(n: nat) returns (es: seq<Event>, s: State)
    requires n > 0
    ensures Reaches(n, es, s) && NeverOverlaps(n, es)
    ensures s.threads == [Done, Done, Done, Flush([NEWER], 1, Picking), FlushStarted] && s.queue == [OLDER]
    ensures s.hist.stamps == NUMBERS && s.hist.written == [] && s.hist.excess == 0
    ensures s.roster.clients == [2]
  {
    es, s := OlderBack(n);
    hide Run;
    hide Reaches;
    hide NeverOverlaps;
    es, s := Alone(n, es, s, Conn(Roster.Accept(2)));
    es, s := Alone(n, es, s, Conn(Roster.Spawn));
  }

  /** The flush writes the newer message to it. */
  lemma NewerWritten(n: nat) returns (es: seq<Event>, s: State)
    requires n > 0
    ensures Reaches(n, es, s) && NeverOverlaps(n, es)
    ensures s.threads == [Done, Done, Done, Done, FlushStarted] && s.queue == [OLDER]
    ensures s.hist.stamps == NUMBERS && s.hist.written == [Sent(2, NEWER, true)] && s.hist.excess == 0
    ensures s.roster.clients == [2]
  {
    es, s := ThirdBackend(n);
    hide Run;
    hide Reaches;
    hide NeverOverlaps;
    es, s := Alone(n, es, s, Pick(3, 2));
    es, s := Alone(n, es, s, WriteOk(3));
  }

  /** The new flush takes the older message. */
  lemma OlderTakenLast(n: nat) returns (es: seq<Event>, s: State)
    requires n > 0
    ensures Reaches(n, es, s) && NeverOverlaps(n, es)
    ensures s.threads == [Done, Done, Done, Done, Flush([OLDER], 0, Picking)] && s.queue == []
    ensures s.hist.stamps == NUMBERS && s.hist.written == [Sent(2, NEWER, true)]
    ensures s.roster.clients == [2]
  {
    es, s := NewerWritten(n);
    hide Run;
    hide Reaches;
    hide NeverOverlaps;
    es, s := Alone(n, es, s, Take(4));
  }

  /** A single flush that finds no backend can put the older message behind the newer one. */
  lemma LostBackendReorders(n: nat) returns (es: seq<Event>, s: State)
    requires n > 0
    ensures Reaches(n, es, s) && NeverOverlaps(n, es)
    ensures Flushed(s.hist.written) == [NEWER, OLDER] && s.queue == [] && s.hist.stamps == NUMBERS
  {
    es, s := OlderTakenLast(n);
    hide Run;
    hide Reaches;
    hide NeverOverlaps;
    es, s := Alone(n, es, s, Pick(4, 2));
    es, s := Alone(n, es, s, WriteOk(4));
    TwoFlushed(s.hist.written, 2);
  }

  // ----- Queueing off -----

  lemma {:induction false} NothingQueued(es: seq<Event>, s: State)
    requires Reaches(0, es, s)
    ensures Flushed(s.hist.written) == [] && s.queue == []
  {
    StoreConservation.FitsHolds(0, es, s);
    if es != [] {
      var l := |es| - 1;
      var prev := Run(0, es[..l]).value;
      NothingQueued(es[..l], prev);
      StoreConservation.FitsHolds(0, es[..l], prev);
      if es[l].WriteOk? {
        assert StoreConservation.ThreadFits(0, prev.threads[es[l].t]);
        FlushedAppend(prev.hist.written, Sent(prev.threads[es[l].t].pc.conn, Current(prev, es[l].t), false));
      }
    }
  }
}
