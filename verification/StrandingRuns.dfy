/**
 A message is stranded when it waits beside a connected backend with no flush coming. Exactly two kinds
 of step do that, and either alone is enough: the re-queue of an interrupted flush, and an enqueue after a
 connect that its thread has not seen.
 */
module StrandingRuns {
  import opened Messages
  import opened Store
  import Roster
  import opened StoreBounds
  import opened StoreStranding
  import StoreConservation

  const WAITING := BackendRequest(0, ErrorReport)

  /** A backend is connected, a message waits, and no flush is coming. */
  ghost predicate Stranded(s: State) {
    s.queue != [] && s.roster.clients != [] && !FlushComing(s)
  }

  // ----- Runs without the one cause or the other -----

  /** No enqueue of the run is by a thread that has missed an accepted connection. */
  ghost predicate NeverLate(n: nat, es: seq<Event>) {
    es != [] ==>
      && NeverLate(n, es[..|es| - 1])
      && Run(n, es[..|es| - 1]).Some?
      && !Late(n, es, |es| - 1)
  }

  lemma {:induction false} NeverLateMeans(n: nat, es: seq<Event>, k: nat)
    requires NeverLate(n, es) && k < |es| && Run(n, es[..k]).Some?
    ensures !Late(n, es, k)
  {
    hide Run;
    hide Apply;
    hide Enabled;
    var l := |es| - 1;
    if k < l {
      assert es[..l][..k] == es[..k];
      NeverLateMeans(n, es[..l], k);
      assert Late(n, es[..l], k) == Late(n, es, k);
    }
  }

  lemma {:induction false} NotInterrupted(es: seq<Event>, k: nat)
    requires Interruptions(es) == 0 && k < |es|
    ensures !es[k].Requeue?
  {
    if k < |es| - 1 {
      NotInterrupted(es[..|es| - 1], k);
    }
  }

  // ----- An interruption alone -----

  /** The step is not an enqueue by a thread that has missed an accepted connection. */
  ghost predicate InTime(s: State, e: Event)
    requires Enabled(s, e)
  {
    e.Append? ==> s.threads[e.t].pc.seen == |s.roster.accepted|
  }

  lemma Timely(n: nat, es0: seq<Event>, s0: State, e: Event) returns (es: seq<Event>, s: State)
    requires Reaches(n, es0, s0) && Enabled(s0, e)
    requires NeverLate(n, es0) && InTime(s0, e)
    ensures Reaches(n, es, s) && s == Apply(s0, e) && NeverLate(n, es)
    ensures Interruptions(es) == Interruptions(es0) + if e.Requeue? then 1 else 0
  {
    es, s := Extend(n, es0, s0, e);
    assert es[..|es| - 1] == es0;
  }

  /** The message is queued before any backend connects. */
  lemma Queued(n: nat) returns (es: seq<Event>, s: State)
    requires n > 0
    ensures Reaches(n, es, s) && NeverLate(n, es) && Interruptions(es) == 0
    ensures s.threads == [Done] && s.queue == [WAITING] && s.maxQueueSize == n
    ensures s.roster == Roster.INIT && s.hist.excess == 0
  {
    es, s := [], Init(n);
    assert Reaches(n, es, s) && NeverLate(n, es) && Interruptions(es) == 0;
    hide Run;
    hide Reaches;
    hide NeverLate;
    hide Interruptions;
    es, s := Timely(n, es, s, Begin(WAITING));
    assert s.threads == [Sender(WAITING, Picking)];
    es, s := Timely(n, es, s, PickNone(0));
    assert s.threads == [Sender(WAITING, Enqueueing(0))];
    es, s := Timely(n, es, s, Append(0));
  }

  /** Backend 0 connects, and its flush takes the message. */
  lemma Taken(n: nat) returns (es: seq<Event>, s: State)
    requires n > 0
    ensures Reaches(n, es, s) && NeverLate(n, es) && Interruptions(es) == 0
    ensures s.threads == [Done, Flush([WAITING], 0, Picking)] && s.queue == []
    ensures s.roster.clients == [0] && !s.roster.spawning
  {
    es, s := Queued(n);
    hide Run;
    hide Reaches;
    hide NeverLate;
    hide Interruptions;
    es, s := Timely(n, es, s, Conn(Roster.Accept(0)));
    es, s := Timely(n, es, s, Conn(Roster.Spawn));
    assert s.threads == [Done, FlushStarted];
    es, s := Timely(n, es, s, Take(1));
  }

  /** One interrupted flush, and no late enqueue, is enough. */
  lemma InterruptionStrands(n: nat) returns (es: seq<Event>, s: State)
    requires n > 0
    ensures Reaches(n, es, s) && Stranded(s)
    ensures Interruptions(es) == 1 && NeverLate(n, es)
  {
    es, s := Taken(n);
    hide Run;
    hide Reaches;
    hide NeverLate;
    hide Interruptions;
    es, s := Timely(n, es, s, Pick(1, 0));
    es, s := Timely(n, es, s, WriteFail(1));
    assert s.threads == [Done, Requeuing([WAITING], 0)];
    es, s := Timely(n, es, s, Requeue(1));
    assert s.threads == [Done, Done];
  }

  // ----- A late enqueue alone -----

  /** A sender has seen no backend before backend 0 connects. */
  lemma ConnectedMeanwhile(n: nat) returns (es: seq<Event>, s: State)
    requires n > 0
    ensures Reaches(n, es, s) && Interruptions(es) == 0
    ensures s.threads == [Sender(WAITING, Enqueueing(0)), FlushStarted] && s.queue == []
    ensures s.roster.clients == [0] && !s.roster.spawning && s.maxQueueSize == n
  {
    es, s := [], Init(n);
    assert Reaches(n, es, s);
    hide Run;
    hide Reaches;
    es, s := Extend(n, es, s, Begin(WAITING));
    assert s.threads == [Sender(WAITING, Picking)];
    es, s := Extend(n, es, s, PickNone(0));
    assert s.threads == [Sender(WAITING, Enqueueing(0))];
    es, s := Extend(n, es, s, Conn(Roster.Accept(0)));
    es, s := Extend(n, es, s, Conn(Roster.Spawn));
  }

  /** The flush finds the queue empty, and only then the sender enqueues; no flush is interrupted. */
  lemma LateEnqueueStrands(n: nat) returns (es: seq<Event>, s: State)
    requires n > 0
    ensures Reaches(n, es, s) && Stranded(s) && Interruptions(es) == 0
  {
    es, s := ConnectedMeanwhile(n);
    hide Run;
    hide Reaches;
    es, s := Extend(n, es, s, Take(1));
    assert s.threads == [Sender(WAITING, Enqueueing(0)), Done];
    es, s := Extend(n, es, s, Append(0));
    assert s.threads == [Done, Done];
  }

  // ----- The condition is exact -----

  /** Without either cause nothing is stranded. */
  lemma NothingStranded(n: nat, es: seq<Event>, s: State)
    requires Reaches(n, es, s) && Interruptions(es) == 0 && NeverLate(n, es)
    ensures !Stranded(s)
  {
    if Stranded(s) {
      Stranding(n, es, s);
      var k :| 0 <= k < |es| && LeftBehind(n, es, k);
      NotInterrupted(es, k);
      NeverLateMeans(n, es, k);
    }
  }

  /** The steps that bring a message into the queue without the connects that a flush will follow. */
  ghost predicate LeavesBehind(s: State, e: Event)
    requires Enabled(s, e)
  {
    e.Requeue? || (e.Append? && s.threads[e.t].pc.seen < |s.roster.accepted|)
  }

  /** A step that leaves a message behind strands it exactly when a backend is live and no flush is coming. */
  lemma BehindStrands(n: nat, es: seq<Event>, s: State, e: Event)
    requires Reaches(n, es, s) && Enabled(s, e) && LeavesBehind(s, e)
    ensures Stranded(Apply(s, e)) <==> s.roster.clients != [] && !FlushComing(s)
  {
    StoreConservation.FitsHolds(n, es, s);
    assert StoreConservation.ThreadFits(n, s.threads[e.t]);
    var s' := Apply(s, e);
    assert s'.queue != [] && s'.roster == s.roster;
    if FlushComing(s) {
      ComingStays(s, s', e.t);
    }
    if FlushComing(s') && !s'.roster.spawning {
      var u :| 0 <= u < |s'.threads| && s'.threads[u].FlushStarted?;
      assert u != e.t && s.threads[u].FlushStarted?;
    }
  }

  lemma ComingKept(s: State, s': State)
    requires s.threads <= s'.threads
    requires s.roster.spawning ==>
               s'.roster.spawning || (|s'.threads| > |s.threads| && s'.threads[|s.threads|].FlushStarted?)
    ensures FlushComing(s) ==> FlushComing(s')
  {
    if FlushComing(s) && !s.roster.spawning {
      var u :| 0 <= u < |s.threads| && s.threads[u].FlushStarted?;
      assert s'.threads[u].FlushStarted?;
    }
  }

  /** No other step strands anything. */
  lemma OthersStrandNothing(n: nat, es: seq<Event>, s: State, e: Event)
    requires Reaches(n, es, s) && !Stranded(s) && Enabled(s, e) && !LeavesBehind(s, e)
    ensures !Stranded(Apply(s, e))
  {
    InvHolds(n, es, s);
    var s' := Apply(s, e);
    match e
    case Append(t) => assert SeenFits(s, s.threads[t]);
    case Take(_) =>
    case Requeue(_) =>
    case Conn(r) =>
      if r.Spawn? {
        assert s'.threads[|s.threads|].FlushStarted?;
      } else if r.Evict? {
        EvictNone(s.roster.ping.dead);
      }
      ComingKept(s, s');
    case Begin(_) => ComingKept(s, s');
    case _ =>
      if FlushComing(s) {
        ComingStays(s, s', e.t);
      }
  }

  /**
   A step strands a message exactly when it puts back the rest of an interrupted flush, or enqueues after
   a connect it has not seen, while a backend is live and no flush is coming.
   */
  lemma StrandingExact(n: nat, es: seq<Event>, s: State, e: Event)
    requires Reaches(n, es, s) && !Stranded(s) && Enabled(s, e)
    ensures Stranded(Apply(s, e)) <==> LeavesBehind(s, e) && s.roster.clients != [] && !FlushComing(s)
  {
    if LeavesBehind(s, e) {
      BehindStrands(n, es, s, e);
    } else {
      OthersStrandNothing(n, es, s, e);
    }
  }
}
