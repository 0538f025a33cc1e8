/**
 Where the messages of the store-and-forward queue are: conservation, at-most-once writing, and
 connection requests never waiting, in every reachable state.
 */
module StoreConservation {
  import opened Sequences
  import opened Messages
  import opened Store

  /** Every begun message has been answered with nil, answered with an error, or is still held. */
  ghost predicate CallsBalance(s: State, m: BackendRequest) {
    Count(s.hist.begun, m)
      == Count(s.hist.succeeded, m) + Count(s.hist.failed, m) + Held(s.threads, false, m)
  }

  /** How often m is written, queued, in a flush's batch, or dropped. */
  function Places(s: State, m: BackendRequest): nat {
    Count(Payload(s.hist.written), m) + Count(s.queue, m)
    + Held(s.threads, true, m) + Count(s.hist.dropped, m)
  }

  ghost predicate PlacesBalance(s: State, m: BackendRequest) {
    Count(s.hist.succeeded, m) == Places(s, m)
  }

  ghost predicate Balanced(s: State, m: BackendRequest) {
    CallsBalance(s, m) && PlacesBalance(s, m)
  }

  ghost predicate DistinctIds(s: State) {
    forall i, j | 0 <= i < j < |s.hist.begun| ::
      s.hist.begun[i].requestID != s.hist.begun[j].requestID
  }

  lemma PayloadAppend(w: seq<Sent>, x: Sent)
    ensures Payload(w + [x]) == Payload(w) + [x.msg]
  {
  }

  lemma SetThread(s: State, t: nat, th: Thread, m: BackendRequest)
    requires t < |s.threads|
    ensures Held(s.threads[t := th], true, m) + HeldBy(s.threads[t], true, m)
         == Held(s.threads, true, m) + HeldBy(th, true, m)
    ensures Held(s.threads[t := th], false, m) + HeldBy(s.threads[t], false, m)
         == Held(s.threads, false, m) + HeldBy(th, false, m)
  {
    HeldUpdate(s.threads, t, th, true, m);
    HeldUpdate(s.threads, t, th, false, m);
  }

  ghost predicate Moves(s: State, s': State, x: BackendRequest, m: BackendRequest) {
    Count(s'.hist.succeeded, m) + Held(s.threads, true, m)
      == Count(s.hist.succeeded, m) + Count([x], m) + Held(s'.threads, true, m)
  }

  lemma SenderSucceeds(s: State, t: nat, m: BackendRequest)
    requires Sending(s, t) && s.threads[t].Sender? && CallsBalance(s, m)
    ensures CallsBalance(Succeed(s, t), m)
    ensures Moves(s, Succeed(s, t), Current(s, t), m)
  {
    hide Count;
    hide Held;
    var x := Current(s, t);
    SetThread(s, t, Done, m);
    CountConcat(s.hist.succeeded, [x], m);
    CountOne(x, m);
  }

  lemma FlushSucceeds(s: State, t: nat, m: BackendRequest)
    requires Sending(s, t) && s.threads[t].Flush? && CallsBalance(s, m)
    ensures CallsBalance(Succeed(s, t), m)
    ensures Moves(s, Succeed(s, t), Current(s, t), m)
  {
    var rest := s.threads[t].rest;
    var th := if |rest| == 1 then Done else Flush(rest[1..], s.threads[t].excess, Picking);
    SetThread(s, t, th, m);
    assert rest == [rest[0]] + rest[1..];
    CountConcat([rest[0]], rest[1..], m);
    assert Count(rest, m) == Count([rest[0]], m) + HeldBy(th, true, m);
  }

  /** A return of nil moves one message: from the held calls, or out of the flush's batch. */
  lemma SucceedMoves(s: State, t: nat, m: BackendRequest)
    requires Sending(s, t) && CallsBalance(s, m)
    ensures CallsBalance(Succeed(s, t), m)
    ensures Moves(s, Succeed(s, t), Current(s, t), m)
  {
    if s.threads[t].Sender? {
      SenderSucceeds(s, t, m);
    } else {
      FlushSucceeds(s, t, m);
    }
  }

  lemma FailKeeps(s: State, t: nat, m: BackendRequest)
    requires Sending(s, t) && Balanced(s, m)
    ensures Balanced(Fail(s, t), m)
  {
    hide Count;
    hide Held;
    SetThread(s, t, Fail(s, t).threads[t], m);
    CountConcat(s.hist.failed, [Current(s, t)], m);
    CountOne(Current(s, t), m);
  }

  lemma WriteKeeps(s: State, t: nat, m: BackendRequest)
    requires Enabled(s, WriteOk(t)) && Balanced(s, m)
    ensures Balanced(Apply(s, WriteOk(t)), m)
  {
    hide Count;
    hide Held;
    var w := Sent(s.threads[t].pc.conn, Current(s, t), s.threads[t].Flush?);
    PayloadAppend(s.hist.written, w);
    CountConcat(Payload(s.hist.written), [w.msg], m);
    SucceedMoves(s.(hist := s.hist.(written := s.hist.written + [w])), t, m);
  }

  lemma PushedBalance(queue: seq<BackendRequest>, n: nat, x: BackendRequest, m: BackendRequest)
    requires n > 0
    ensures Count(Pushed(queue, n, x), m) + Count(if |queue| >= n then [queue[0]] else [], m)
         == Count(queue, m) + Count([x], m)
  {
    if |queue| >= n {
      assert queue == [queue[0]] + queue[1..];
      CountConcat([queue[0]], queue[1..], m);
    }
  }

  lemma AppendKeeps(s: State, t: nat, m: BackendRequest)
    requires Enabled(s, Append(t)) && Balanced(s, m)
    ensures Balanced(Apply(s, Append(t)), m)
  {
    hide Count;
    hide Held;
    PushedBalance(s.queue, s.maxQueueSize, Current(s, t), m);
    CountConcat(s.hist.dropped, if |s.queue| >= s.maxQueueSize then [s.queue[0]] else [], m);
    SucceedMoves(Enqueue(s, t), t, m);
  }

  lemma StartKeeps(s: State, e: Event, m: BackendRequest)
    requires e.Begin? || e.Conn?
    requires Balanced(s, m) && Enabled(s, e)
    ensures Balanced(Apply(s, e), m)
  {
    hide Count;
    hide Held;
    var th := if e.Begin? then Sender(e.msg, Picking) else FlushStarted;
    HeldAppend(s.threads, th, true, m);
    HeldAppend(s.threads, th, false, m);
    CountOne(m, m);
    if e.Begin? {
      CountConcat(s.hist.begun, [e.msg], m);
      CountOne(e.msg, m);
    }
  }

  lemma PickKeeps(s: State, e: Event, m: BackendRequest)
    requires e.Pick? || e.PickNone?
    requires Balanced(s, m) && Enabled(s, e)
    ensures Balanced(Apply(s, e), m)
  {
    if e.PickNone? && (Current(s, e.t).action.ConnectionRequest? || s.maxQueueSize == 0) {
      FailKeeps(s, e.t, m);
    } else {
      SetThread(s, e.t, Apply(s, e).threads[e.t], m);
    }
  }

  lemma TakeKeeps(s: State, t: nat, m: BackendRequest)
    requires Balanced(s, m) && Enabled(s, Take(t))
    ensures Balanced(Apply(s, Take(t)), m)
  {
    hide Count;
    hide Held;
    CountOne(m, m);
    SetThread(s, t, Apply(s, Take(t)).threads[t], m);
  }

  lemma RequeueKeeps(s: State, t: nat, m: BackendRequest)
    requires Balanced(s, m) && Enabled(s, Requeue(t))
    ensures Balanced(Apply(s, Requeue(t)), m)
  {
    SetThread(s, t, Done, m);
    CountConcat(s.threads[t].rest, s.queue, m);
  }

  lemma BalancedStep(s: State, e: Event, m: BackendRequest)
    requires Balanced(s, m) && Enabled(s, e)
    ensures Balanced(Apply(s, e), m)
  {
    match e
    case Begin(_) => StartKeeps(s, e, m);
    case Pick(_, _) => PickKeeps(s, e, m);
    case PickNone(_) => PickKeeps(s, e, m);
    case WriteOk(t) => WriteKeeps(s, t, m);
    case WriteFail(t) => FailKeeps(s, t, m);
    case Append(t) => AppendKeeps(s, t, m);
    case Take(t) => TakeKeeps(s, t, m);
    case Requeue(t) => RequeueKeeps(s, t, m);
    case Conn(_) => StartKeeps(s, e, m);
  }

  lemma {:induction false} BalancedHolds(n: nat, es: seq<Event>, s: State, m: BackendRequest)
    requires Reaches(n, es, s)
    ensures Balanced(s, m) && DistinctIds(s)
  {
    if es != [] {
      var prev := Run(n, es[..|es| - 1]).value;
      BalancedHolds(n, es[..|es| - 1], prev, m);
      BalancedStep(prev, es[|es| - 1], m);
    }
  }

  // ----- The counts read as places -----

  lemma BegunCounts(s: State, m: BackendRequest)
    requires DistinctIds(s)
    ensures Count(s.hist.begun, m) <= 1
  {
    NoDuplicatesCounts(s.hist.begun, m);
  }

  /**
   Each message whose top-level sendMessage returned nil is in exactly one place, and in one flush
   at most; it did not also fail; no other message is in any place.
   */
  lemma Conservation(n: nat, es: seq<Event>, s: State, m: BackendRequest)
    requires Reaches(n, es, s)
    ensures Places(s, m) == if m in s.hist.succeeded then 1 else 0
    ensures m in s.hist.succeeded ==> m in s.hist.begun && m !in s.hist.failed
    ensures forall t, u | 0 <= t < u < |s.threads| && m in Rest(s.threads[t]) :: m !in Rest(s.threads[u])
  {
    BalancedHolds(n, es, s, m);
    BegunCounts(s, m);
    CountMember(s.hist.begun, m);
    CountMember(s.hist.succeeded, m);
    CountMember(s.hist.failed, m);
    forall t, u | 0 <= t < u < |s.threads| && m in Rest(s.threads[t])
      ensures m !in Rest(s.threads[u])
    {
      HeldOnce(s.threads, t, u, true, m);
      CountMember(Rest(s.threads[t]), m);
      CountMember(Rest(s.threads[u]), m);
    }
  }

  /** A message whose top-level call failed did not also succeed. */
  lemma FailedOnly(n: nat, es: seq<Event>, s: State, m: BackendRequest)
    requires Reaches(n, es, s)
    ensures m in s.hist.failed ==> m in s.hist.begun && m !in s.hist.succeeded && Places(s, m) == 0
  {
    BalancedHolds(n, es, s, m);
    BegunCounts(s, m);
    CountMember(s.hist.begun, m);
    CountMember(s.hist.succeeded, m);
    CountMember(s.hist.failed, m);
  }

  /** No two successful writes, by senders or flushes, carry the same request. */
  lemma AtMostOnce(n: nat, es: seq<Event>, s: State)
    requires Reaches(n, es, s)
    ensures forall i, j | 0 <= i < j < |s.hist.written| ::
              s.hist.written[i].msg.requestID != s.hist.written[j].msg.requestID
    ensures forall i | 0 <= i < |s.hist.written| :: s.hist.written[i].msg in s.hist.begun
  {
    var p := Payload(s.hist.written);
    forall m | m in p
      ensures Count(p, m) <= 1 && m in s.hist.begun
    {
      BalancedHolds(n, es, s, m);
      BegunCounts(s, m);
      CountMember(p, m);
      CountMember(s.hist.begun, m);
    }
    CountsAtMostOne(p);
    BalancedHolds(n, es, s, BackendRequest(0, Heartbeat));
    forall i, j | 0 <= i < j < |p|
      ensures p[i].requestID != p[j].requestID
    {
      assert p[i] in p && p[j] in p && p[i] != p[j];
    }
    assert forall i | 0 <= i < |p| :: p[i] in p;
  }

  /** A message still inside its top-level call is nowhere else. */
  lemma InCallOnly(s: State, t: nat)
    requires t < |s.threads| && s.threads[t].Sender?
    requires Balanced(s, s.threads[t].msg) && DistinctIds(s)
    ensures Places(s, s.threads[t].msg) == 0
    ensures s.threads[t].msg !in Payload(s.hist.written) && s.threads[t].msg !in s.queue
    ensures forall u | 0 <= u < |s.threads| :: s.threads[t].msg !in Rest(s.threads[u])
  {
    var m := s.threads[t].msg;
    BegunCounts(s, m);
    HeldIncludes(s.threads, t, false, m);
    CountMember(Payload(s.hist.written), m);
    CountMember(s.queue, m);
    forall u | 0 <= u < |s.threads|
      ensures m !in Rest(s.threads[u])
    {
      HeldIncludes(s.threads, u, true, m);
      CountMember(Rest(s.threads[u]), m);
    }
  }

  // ----- Connection requests and interruptions -----

  ghost predicate Waits(m: BackendRequest) {
    !m.action.ConnectionRequest?
  }

  ghost predicate ThreadFits(n: nat, th: Thread) {
    && (forall m | m in Rest(th) :: Waits(m))
    && (th.Flush? || th.Requeuing? ==> th.rest != [] && n > 0)
    && (th.Sender? && th.pc.Enqueueing? ==> Waits(th.msg) && n > 0)
  }

  ghost predicate Fits(s: State) {
    && (forall m | m in s.queue :: Waits(m))
    && (forall m | m in s.hist.dropped :: Waits(m))
    && (s.maxQueueSize == 0 ==> s.queue == [])
    && (forall t | 0 <= t < |s.threads| :: ThreadFits(s.maxQueueSize, s.threads[t]))
  }

  lemma FitsStep(s: State, e: Event)
    requires Fits(s) && Enabled(s, e)
    ensures Fits(Apply(s, e))
  {
    var s' := Apply(s, e);
    forall t | 0 <= t < |s'.threads|
      ensures ThreadFits(s'.maxQueueSize, s'.threads[t])
    {
      if t < |s.threads| {
        assert ThreadFits(s.maxQueueSize, s.threads[t]);
      }
    }
    match e
    case Append(t) => assert ThreadFits(s.maxQueueSize, s.threads[t]);
    case Requeue(t) => assert ThreadFits(s.maxQueueSize, s.threads[t]);
    case _ =>
  }

  lemma {:induction false} FitsHolds(n: nat, es: seq<Event>, s: State)
    requires Reaches(n, es, s)
    ensures Fits(s) && s.maxQueueSize == n
  {
    if es != [] {
      var prev := Run(n, es[..|es| - 1]).value;
      FitsHolds(n, es[..|es| - 1], prev);
      FitsStep(prev, es[|es| - 1]);
    }
  }

  /** No connection request is ever in the queue or in a batch, or dropped. */
  lemma ConnectionRequestsNeverWait(n: nat, es: seq<Event>, s: State, m: BackendRequest)
    requires Reaches(n, es, s) && m.action.ConnectionRequest?
    ensures m !in s.queue && m !in s.hist.dropped
    ensures forall t | 0 <= t < |s.threads| :: m !in Rest(s.threads[t])
  {
    FitsHolds(n, es, s);
    forall t | 0 <= t < |s.threads|
      ensures m !in Rest(s.threads[t])
    {
      assert ThreadFits(n, s.threads[t]);
    }
  }

  lemma {:induction false} HeldNowhere(ts: seq<Thread>, m: BackendRequest)
    requires forall t | 0 <= t < |ts| :: m !in Rest(ts[t])
    ensures Held(ts, true, m) == 0
  {
    if ts != [] {
      HeldNowhere(ts[..|ts| - 1], m);
      CountMember(Rest(ts[|ts| - 1]), m);
    }
  }

  /** A connection request whose send returned nil has been written; any other has not. */
  lemma ConnectionRequestsAreWritten(n: nat, es: seq<Event>, s: State, m: BackendRequest)
    requires Reaches(n, es, s) && m.action.ConnectionRequest?
    ensures Count(Payload(s.hist.written), m) == if m in s.hist.succeeded then 1 else 0
  {
    ConnectionRequestsNeverWait(n, es, s, m);
    Conservation(n, es, s, m);
    HeldNowhere(s.threads, m);
    CountMember(s.queue, m);
    CountMember(s.hist.dropped, m);
  }

  /** A flush is interrupted exactly by a failed connection write of its current message. */
  lemma InterruptedOnlyByWrite(n: nat, es: seq<Event>, s: State, e: Event, t: nat)
    requires Reaches(n, es, s) && Enabled(s, e)
    requires t < |s.threads| && s.threads[t].Flush?
    ensures Apply(s, e).threads[t].Requeuing? <==> e == WriteFail(t)
    ensures e == WriteFail(t) ==> Rest(Apply(s, e).threads[t]) == Rest(s.threads[t])
  {
    FitsHolds(n, es, s);
    assert ThreadFits(n, s.threads[t]);
    assert s.threads[t].rest[0] in Rest(s.threads[t]);
  }

  // ----- Which calls succeed, read off the events -----

  /** The event is a step of the top-level sendMessage of m. */
  predicate StepOf(s: State, e: Event, m: BackendRequest) {
    && (e.Pick? || e.PickNone? || e.WriteOk? || e.WriteFail? || e.Append?)
    && e.t < |s.threads| && s.threads[e.t].Sender? && s.threads[e.t].msg == m
  }

  /** Some event of the run was a write, or an enqueue, by the top-level sendMessage of m. */
  ghost predicate SentBy(n: nat, es: seq<Event>, m: BackendRequest) {
    && es != []
    && var before := es[..|es| - 1];
       && Run(n, before).Some?
       && (|| SentBy(n, before, m)
           || (StepOf(Run(n, before).value, es[|es| - 1], m) && (es[|es| - 1].WriteOk? || es[|es| - 1].Append?)))
  }

  /**
   Some event was a failed write of it, or found no backend for it when it must not be queued or queueing is
   off.
   */
  ghost predicate RefusedBy(n: nat, es: seq<Event>, m: BackendRequest) {
    && es != []
    && var before := es[..|es| - 1];
       && Run(n, before).Some?
       && (|| RefusedBy(n, before, m)
           || (StepOf(Run(n, before).value, es[|es| - 1], m)
               && (es[|es| - 1].WriteFail? || (es[|es| - 1].PickNone? && (m.action.ConnectionRequest? || n == 0)))))
  }

  lemma OutcomeStep(s: State, e: Event, m: BackendRequest)
    requires Enabled(s, e)
    ensures m in Apply(s, e).hist.succeeded <==>
              m in s.hist.succeeded || (StepOf(s, e, m) && (e.WriteOk? || e.Append?))
    ensures var refused := e.WriteFail? || (e.PickNone? && (m.action.ConnectionRequest? || s.maxQueueSize == 0));
      m in Apply(s, e).hist.failed <==> m in s.hist.failed || (StepOf(s, e, m) && refused)
  {
  }

  /**
   A top-level sendMessage has returned nil exactly if its message was written or enqueued by it, and an
   error exactly if its write failed or it found no backend and could not enqueue.
   */
  lemma {:induction false} OutcomeExactly(n: nat, es: seq<Event>, s: State, m: BackendRequest)
    requires Reaches(n, es, s)
    ensures m in s.hist.succeeded <==> SentBy(n, es, m)
    ensures m in s.hist.failed <==> RefusedBy(n, es, m)
  {
    if es != [] {
      var l := |es| - 1;
      var prev := Run(n, es[..l]).value;
      OutcomeExactly(n, es[..l], prev, m);
      FitsHolds(n, es[..l], prev);
      OutcomeStep(prev, es[l], m);
      hide Apply;
      hide Enabled;
      hide StepOf;
      hide Fits;
    }
  }

  /** A thread gets a connection only while it is live, and goes on to enqueue only when none is. */
  lemma PicksLive(s: State, e: Event)
    requires Enabled(s, e)
    ensures e.Pick? ==> e.conn in s.roster.clients && Apply(s, e).threads[e.t].pc == Writing(e.conn)
    ensures e.PickNone? ==> s.roster.clients == []
    ensures e.PickNone? && !Current(s, e.t).action.ConnectionRequest? && s.maxQueueSize > 0 ==>
              Apply(s, e).threads[e.t].pc == Enqueueing(|s.roster.accepted|)
  {
  }
}
