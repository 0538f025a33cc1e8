/**
 In which order queued messages reach the backends, and which messages a full queue keeps.
 Order holds through flush and re-queue as long as at most one flush is outstanding and its sends
 find a backend; two runs show that it fails otherwise.
 */
module StoreOrder {
  import opened Sequences
  import opened Messages
  import opened Store
  import StoreConservation

  // ----- The full queue is a sliding window -----

  function PushedAll(queue: seq<BackendRequest>, n: nat, arrivals: seq<BackendRequest>): seq<BackendRequest>
    requires n > 0
  {
    if arrivals == [] then queue
    else Pushed(PushedAll(queue, n, arrivals[..|arrivals| - 1]), n, arrivals[|arrivals| - 1])
  }

  /** How many messages the queue holds after some arrivals. */
  function Window(queue: nat, n: nat, arrivals: nat): nat {
    if queue >= n then queue else if queue + arrivals < n then queue + arrivals else n
  }

  /** Any number of enqueues without a take keep the newest messages: a suffix of all of them. */
  lemma {:induction false} SlidingWindow(queue: seq<BackendRequest>, n: nat, arrivals: seq<BackendRequest>)
    requires n > 0
    ensures var all := queue + arrivals;
      PushedAll(queue, n, arrivals) == all[|all| - Window(|queue|, n, |arrivals|)..]
  {
    if arrivals != [] {
      SlidingWindow(queue, n, arrivals[..|arrivals| - 1]);
      assert queue + arrivals == queue + arrivals[..|arrivals| - 1] + [arrivals[|arrivals| - 1]];
    }
  }

  /** The messages appended to the queue in a run, in order. */
  function Appended(n: nat, es: seq<Event>): seq<BackendRequest>
    requires Run(n, es).Some?
  {
    if es == [] then []
    else
      var k := |es| - 1;
      Appended(n, es[..k]) + if es[k].Append? then [Current(Run(n, es[..k]).value, es[k].t)] else []
  }

  lemma QueueStep(s: State, e: Event)
    requires Enabled(s, e) && !e.Take? && !e.Requeue?
    ensures e.Append? ==> Sending(s, e.t) && s.maxQueueSize > 0
    ensures Apply(s, e).queue == if e.Append? then Pushed(s.queue, s.maxQueueSize, Current(s, e.t)) else s.queue
  {
  }

  lemma PushedAllNext(queue: seq<BackendRequest>, n: nat, arrivals: seq<BackendRequest>, m: BackendRequest)
    requires n > 0
    ensures PushedAll(queue, n, []) == queue
    ensures PushedAll(queue, n, arrivals + [m]) == Pushed(PushedAll(queue, n, arrivals), n, m)
  {
    assert (arrivals + [m])[..|arrivals|] == arrivals;
  }

  lemma SlideStep(queue: seq<BackendRequest>, n: nat, start: seq<BackendRequest>, arrived: seq<BackendRequest>,
                  m: BackendRequest)
    requires n > 0 && start <= arrived
    ensures start <= arrived + [m]
    ensures PushedAll(queue, n, (arrived + [m])[|start|..])
         == Pushed(PushedAll(queue, n, arrived[|start|..]), n, m)
  {
    assert (arrived + [m])[|start|..] == arrived[|start|..] + [m];
    PushedAllNext(queue, n, arrived[|start|..], m);
  }

  lemma AppendedNext(n: nat, es: seq<Event>)
    requires es != [] && Run(n, es).Some?
    ensures var l := |es| - 1;
      && Run(n, es[..l]).Some? && Enabled(Run(n, es[..l]).value, es[l])
      && Run(n, es).value == Apply(Run(n, es[..l]).value, es[l])
      && Appended(n, es)
         == Appended(n, es[..l]) + if es[l].Append? then [Current(Run(n, es[..l]).value, es[l].t)] else []
  {
    hide Apply;
  }

  /** Between two points of a run with no take and no re-queue, the queue slides over the arrivals. */
  lemma {:induction false} QueueSlides(n: nat, es: seq<Event>, k: nat, s0: State, s: State)
    requires n > 0 && k <= |es|
    requires Reaches(n, es[..k], s0) && Reaches(n, es, s)
    requires forall j | k <= j < |es| :: !es[j].Take? && !es[j].Requeue?
    ensures Appended(n, es[..k]) <= Appended(n, es)
    ensures s.queue == PushedAll(s0.queue, n, Appended(n, es)[|Appended(n, es[..k])|..])
  {
    hide Apply;
    hide Enabled;
    hide Appended;
    hide Pushed;
    if k == |es| {
      assert es[..k] == es;
      assert Appended(n, es)[|Appended(n, es)|..] == [];
    } else {
      var l := |es| - 1;
      var prev := Run(n, es[..l]).value;
      assert es[..l][..k] == es[..k];
      AppendedNext(n, es);
      QueueSlides(n, es[..l], k, s0, prev);
      StoreConservation.FitsHolds(n, es[..l], prev);
      hide Run;
      hide PushedAll;
      QueueStep(prev, es[l]);
      if es[l].Append? {
        SlideStep(s0.queue, n, Appended(n, es[..k]), Appended(n, es[..l]), Current(prev, es[l].t));
      } else {
        assert Appended(n, es) == Appended(n, es[..l]);
      }
    }
  }

  // ----- First in, first out through flush and re-queue -----

  /** The messages written by flushes, in write order. */
  function Flushed(w: seq<Sent>): seq<BackendRequest> {
    if w == [] then []
    else Flushed(w[..|w| - 1]) + if w[|w| - 1].byFlush then [w[|w| - 1].msg] else []
  }

  type Stamps = map<BackendRequest, nat>

  /** Every message of s has been enqueued before clock, each later than the one before. */
  ghost predicate Increasing(stamps: Stamps, clock: nat, s: seq<BackendRequest>) {
    && (forall m | m in s :: m in stamps && stamps[m] < clock)
    && (forall i, j | 0 <= i < j < |s| :: stamps[s[i]] < stamps[s[j]])
  }

  ghost predicate InOrder(s: State, line: seq<BackendRequest>) {
    Increasing(s.hist.stamps, s.hist.clock, line)
  }

  /** Written by flushes, then the rest of thread t's batch, then the queue. */
  function Line(s: State, t: nat): seq<BackendRequest>
    requires t < |s.threads|
  {
    Flushed(s.hist.written) + Rest(s.threads[t]) + s.queue
  }

  ghost predicate Ordered(s: State) {
    && InOrder(s, Flushed(s.hist.written) + s.queue)
    && (forall t | 0 <= t < |s.threads| :: InOrder(s, Line(s, t)))
  }

  ghost predicate OneBatch(s: State) {
    forall t, u | 0 <= t < u < |s.threads| :: Rest(s.threads[t]) == [] || Rest(s.threads[u]) == []
  }

  /** The step is not a flush that finds no backend for its current message. */
  ghost predicate FlushFinds(s: State, e: Event) {
    e.PickNone? && e.t < |s.threads| ==> !s.threads[e.t].Flush?
  }

  lemma Cut(st: Stamps, clock: nat, a: seq<BackendRequest>, b: seq<BackendRequest>, c: seq<BackendRequest>)
    requires Increasing(st, clock, a + b + c)
    ensures Increasing(st, clock, a + c)
  {
    var whole, s := a + b + c, a + c;
    assert forall i | 0 <= i < |s| :: s[i] == whole[if i < |a| then i else i + |b|];
    forall m | m in s
      ensures m in st && st[m] < clock
    {
      var i :| 0 <= i < |s| && s[i] == m;
      assert whole[if i < |a| then i else i + |b|] in whole;
    }
  }

  lemma Stamp(st: Stamps, clock: nat, s: seq<BackendRequest>, m: BackendRequest)
    requires Increasing(st, clock, s) && m !in s
    ensures Increasing(st[m := clock], clock + 1, s + [m])
  {
    assert forall i | 0 <= i < |s| :: s[i] in s;
  }

  /** The enqueue region keeps a line a + q in order. */
  lemma PushOrdered(st: Stamps, clock: nat, a: seq<BackendRequest>, q: seq<BackendRequest>, n: nat, m: BackendRequest)
    requires n > 0 && Increasing(st, clock, a + q) && m !in a + q
    ensures Increasing(st[m := clock], clock + 1, a + Pushed(q, n, m))
  {
    var kept := if |q| >= n then q[1..] else q;
    if |q| >= n {
      assert a + q == a + [q[0]] + q[1..];
      Cut(st, clock, a, [q[0]], q[1..]);
      assert forall x | x in q[1..] :: x in q;
    }
    Stamp(st, clock, a + kept, m);
    assert a + Pushed(q, n, m) == a + kept + [m];
  }

  lemma FlushedMembers(w: seq<Sent>, m: BackendRequest)
    requires m in Flushed(w)
    ensures m in Payload(w)
  {
    var n := |w| - 1;
    if m in Flushed(w[..n]) {
      FlushedMembers(w[..n], m);
      var i :| 0 <= i < n && Payload(w[..n])[i] == m;
      assert Payload(w)[i] == m;
    } else {
      assert Payload(w)[n] == m;
    }
  }

  lemma LineWithoutBatch(s: State, t: nat)
    requires t < |s.threads| && Rest(s.threads[t]) == []
    ensures Line(s, t) == Flushed(s.hist.written) + s.queue
  {
  }

  /** What a sender's enqueue region and return change. */
  lemma AppendEffect(s: State, t: nat)
    requires Enabled(s, Append(t)) && s.threads[t].Sender? && s.threads[t].msg !in s.hist.stamps
    ensures var s' := Apply(s, Append(t)); var m := s.threads[t].msg;
      && s'.queue == Pushed(s.queue, s.maxQueueSize, m)
      && s'.threads == s.threads[t := Done]
      && s'.hist.written == s.hist.written
      && s'.hist.stamps == s.hist.stamps[m := s.hist.clock] && s'.hist.clock == s.hist.clock + 1
  {
  }

  lemma InBatchSucceeded(n: nat, es: seq<Event>, s: State, t: nat, m: BackendRequest)
    requires Reaches(n, es, s) && t < |s.threads| && m in Rest(s.threads[t])
    ensures m in s.hist.succeeded
  {
    StoreConservation.BalancedHolds(n, es, s, m);
    CountMember(Rest(s.threads[t]), m);
    HeldIncludes(s.threads, t, true, m);
    CountMember(s.hist.succeeded, m);
  }

  /** A message has a number only once its top-level call has returned nil. */
  lemma {:induction false} StampedSucceeded(n: nat, es: seq<Event>, s: State)
    requires Reaches(n, es, s)
    ensures forall m | m in s.hist.stamps :: m in s.hist.succeeded
  {
    if es != [] {
      var l := |es| - 1;
      var prev := Run(n, es[..l]).value;
      StampedSucceeded(n, es[..l], prev);
      if es[l].Append? && prev.threads[es[l].t].Flush? {
        InBatchSucceeded(n, es[..l], prev, es[l].t, Current(prev, es[l].t));
      }
    }
  }

  lemma NotStamped(n: nat, es: seq<Event>, s: State, t: nat)
    requires Reaches(n, es, s) && t < |s.threads| && s.threads[t].Sender?
    ensures s.threads[t].msg !in s.hist.stamps
  {
    var m := s.threads[t].msg;
    StampedSucceeded(n, es, s);
    StoreConservation.BalancedHolds(n, es, s, m);
    StoreConservation.InCallOnly(s, t);
    CountMember(s.hist.succeeded, m);
  }

  lemma AppendOrdered(n: nat, es: seq<Event>, s: State, t: nat)
    requires Reaches(n, es, s) && Ordered(s)
    requires Enabled(s, Append(t)) && s.threads[t].Sender?
    ensures Ordered(Apply(s, Append(t)))
  {
    hide Increasing;
    hide Flushed;
    hide Apply;
    var m, s' := s.threads[t].msg, Apply(s, Append(t));
    StoreConservation.BalancedHolds(n, es, s, m);
    StoreConservation.InCallOnly(s, t);
    NotStamped(n, es, s, t);
    AppendEffect(s, t);
    if m in Flushed(s.hist.written) {
      FlushedMembers(s.hist.written, m);
    }
    PushOrdered(s.hist.stamps, s.hist.clock, Flushed(s.hist.written), s.queue, s.maxQueueSize, m);
    forall u | 0 <= u < |s'.threads|
      ensures InOrder(s', Line(s', u))
    {
      if u != t {
        assert InOrder(s, Line(s, u));
        PushOrdered(s.hist.stamps, s.hist.clock, Flushed(s.hist.written) + Rest(s.threads[u]),
                    s.queue, s.maxQueueSize, m);
      } else {
        LineWithoutBatch(s', t);
      }
    }
  }

  lemma FlushedAppend(w: seq<Sent>, x: Sent)
    ensures Flushed(w + [x]) == if x.byFlush then Flushed(w) + [x.msg] else Flushed(w)
  {
    assert (w + [x])[..|w|] == w;
  }

  /** What a successful write changes. */
  lemma WriteEffect(s: State, t: nat)
    requires Enabled(s, WriteOk(t))
    ensures var s' := Apply(s, WriteOk(t));
      && s'.hist.written == s.hist.written + [Sent(s.threads[t].pc.conn, Current(s, t), s.threads[t].Flush?)]
      && s'.queue == s.queue && s'.hist.stamps == s.hist.stamps && s'.hist.clock == s.hist.clock
      && |s'.threads| == |s.threads|
      && (forall u | 0 <= u < |s.threads| && u != t :: s'.threads[u] == s.threads[u])
      && Rest(s'.threads[t]) == if s.threads[t].Flush? then s.threads[t].rest[1..] else []
  {
  }

  lemma WriteOrdered(s: State, t: nat)
    requires Ordered(s) && OneBatch(s) && Enabled(s, WriteOk(t))
    ensures Ordered(Apply(s, WriteOk(t)))
  {
    hide Increasing;
    hide Flushed;
    WriteEffect(s, t);
    hide Apply;
    var s' := Apply(s, WriteOk(t));
    var f := Flushed(s.hist.written);
    FlushedAppend(s.hist.written, Sent(s.threads[t].pc.conn, Current(s, t), s.threads[t].Flush?));
    if s.threads[t].Flush? {
      var rest := s.threads[t].rest;
      assert rest == [rest[0]] + rest[1..];
      assert Line(s', t) == Line(s, t);
      assert Line(s, t) == (f + [rest[0]]) + rest[1..] + s.queue;
      Cut(s.hist.stamps, s.hist.clock, f + [rest[0]], rest[1..], s.queue);
      forall u | 0 <= u < |s'.threads|
        ensures InOrder(s', Line(s', u))
      {
        if u != t {
          LineWithoutBatch(s', u);
        }
      }
    } else {
      assert forall u | 0 <= u < |s'.threads| :: Line(s', u) == Line(s, u);
    }
  }

  lemma TakeOrdered(s: State, t: nat)
    requires Ordered(s) && Enabled(s, Take(t)) && OneBatch(Apply(s, Take(t)))
    ensures Ordered(Apply(s, Take(t)))
  {
    hide Increasing;
    hide Flushed;
    var s' := Apply(s, Take(t));
    var f := Flushed(s.hist.written);
    assert f + s.queue + [] == f + s.queue && f + [] == f;
    Cut(s.hist.stamps, s.hist.clock, f, s.queue, []);
    forall u | 0 <= u < |s'.threads|
      ensures InOrder(s', Line(s', u))
    {
      if s.queue == [] || u == t {
        assert Line(s', u) == if u == t then f + s.queue else Line(s, u);
      } else {
        assert Rest(s'.threads[t]) != [] && s'.threads[u] == s.threads[u];
        LineWithoutBatch(s', u);
      }
    }
  }

  lemma RequeueOrdered(s: State, t: nat)
    requires Ordered(s) && OneBatch(s) && Enabled(s, Requeue(t)) && s.threads[t].rest != []
    ensures Ordered(Apply(s, Requeue(t)))
  {
    hide Increasing;
    hide Flushed;
    var s' := Apply(s, Requeue(t));
    assert Flushed(s.hist.written) + s'.queue == Line(s, t);
    forall u | 0 <= u < |s'.threads|
      ensures InOrder(s', Line(s', u))
    {
      assert u != t ==> Rest(s.threads[u]) == [];
      LineWithoutBatch(s', u);
    }
  }

  /** The steps that touch neither the queue nor what flushes hold or have written. */
  lemma OtherOrdered(s: State, e: Event)
    requires Ordered(s) && Enabled(s, e)
    requires e.Begin? || e.Pick? || e.PickNone? || e.WriteFail? || e.Conn?
    ensures Ordered(Apply(s, e))
  {
    hide Increasing;
    hide Flushed;
    var s' := Apply(s, e);
    forall u | 0 <= u < |s'.threads|
      ensures InOrder(s', Line(s', u))
    {
      if u < |s.threads| {
        assert Line(s', u) == Line(s, u);
      } else {
        LineWithoutBatch(s', u);
      }
    }
  }

  /** A run in which at most one flush is outstanding and no flush finds all backends gone. */
  ghost predicate Orderly(n: nat, es: seq<Event>) {
    && Run(n, es).Some?
    && OneBatch(Run(n, es).value)
    && (es != [] ==>
          && Orderly(n, es[..|es| - 1])
          && FlushFinds(Run(n, es[..|es| - 1]).value, es[|es| - 1]))
  }

  /** In such a run no flush gets as far as enqueueing. */
  lemma {:induction false} OnlySendersEnqueue(n: nat, es: seq<Event>, s: State)
    requires Orderly(n, es) && Reaches(n, es, s)
    ensures forall t | 0 <= t < |s.threads| && s.threads[t].Flush? :: !s.threads[t].pc.Enqueueing?
  {
    if es != [] {
      var prev := Run(n, es[..|es| - 1]).value;
      OnlySendersEnqueue(n, es[..|es| - 1], prev);
      forall t | 0 <= t < |s.threads| && s.threads[t].Flush?
        ensures !s.threads[t].pc.Enqueueing?
      {
        assert t < |prev.threads| && prev.threads[t].Flush? ==> !prev.threads[t].pc.Enqueueing?;
      }
    }
  }

  // ----- The steps that endanger the order -----

  /** A flush takes a queue that is not empty while another batch is outstanding. */
  ghost predicate Overlaps(s: State, e: Event) {
    && e.Take? && s.queue != []
    && exists u :: 0 <= u < |s.threads| && u != e.t && Rest(s.threads[u]) != []
  }

  /**
   A flush finds no backend for its current message, which it will enqueue behind newer ones. That does
   no harm only when nothing newer is left then: its last message, and a queue of one slot.
   */
  ghost predicate Loses(s: State, e: Event) {
    && e.PickNone? && e.t < |s.threads| && s.threads[e.t].Flush?
    && !(s.maxQueueSize == 1 && |s.threads[e.t].rest| == 1 && |s.queue| <= 1)
  }

  ghost predicate Unsafe(s: State, e: Event) {
    Overlaps(s, e) || Loses(s, e)
  }

  /** A run with no such step. */
  ghost predicate Safe(n: nat, es: seq<Event>) {
    && Run(n, es).Some?
    && (es != [] ==>
          && Safe(n, es[..|es| - 1])
          && !Unsafe(Run(n, es[..|es| - 1]).value, es[|es| - 1]))
  }

  /** After such a take two batches are outstanding. */
  lemma OverlapOutstanding(s: State, e: Event)
    requires Enabled(s, e) && Overlaps(s, e)
    ensures !OneBatch(Apply(s, e))
  {
    var u :| 0 <= u < |s.threads| && u != e.t && Rest(s.threads[u]) != [];
    var s' := Apply(s, e);
    assert Rest(s'.threads[e.t]) == s.queue && s'.threads[u] == s.threads[u];
  }

  lemma {:induction false} OrderlySafe(n: nat, es: seq<Event>)
    requires Orderly(n, es)
    ensures Safe(n, es)
  {
    if es != [] {
      var prev, e := Run(n, es[..|es| - 1]).value, es[|es| - 1];
      OrderlySafe(n, es[..|es| - 1]);
      if Overlaps(prev, e) {
        OverlapOutstanding(prev, e);
      }
    }
  }

  /** A flush that is about to enqueue holds its last message, and only one newer one can be queued. */
  ghost predicate LastOnly(s: State) {
    forall t | 0 <= t < |s.threads| && s.threads[t].Flush? && s.threads[t].pc.Enqueueing? ::
      s.maxQueueSize == 1 && |s.threads[t].rest| == 1 && |s.queue| <= 1
  }

  /** Only a take gives a thread a batch that had none. */
  lemma NewBatch(s: State, e: Event, t: nat)
    requires Enabled(s, e) && t < |Apply(s, e).threads| && !(e.Take? && e.t == t)
    requires Rest(Apply(s, e).threads[t]) != []
    ensures t < |s.threads| && Rest(s.threads[t]) != []
  {
  }

  lemma OneBatchStep(s: State, e: Event)
    requires OneBatch(s) && Enabled(s, e) && !Overlaps(s, e)
    ensures OneBatch(Apply(s, e))
  {
    var s' := Apply(s, e);
    if e.Take? {
      assert Rest(s'.threads[e.t]) == s.queue;
    }
    hide Apply;
    forall t, u | 0 <= t < u < |s'.threads|
      ensures Rest(s'.threads[t]) == [] || Rest(s'.threads[u]) == []
    {
      if Rest(s'.threads[t]) != [] && !(e.Take? && e.t == t) {
        NewBatch(s, e, t);
      }
      if Rest(s'.threads[u]) != [] && !(e.Take? && e.t == u) {
        NewBatch(s, e, u);
      }
    }
  }

  lemma LastOnlyStep(s: State, e: Event)
    requires LastOnly(s) && OneBatch(s) && StoreConservation.Fits(s) && Enabled(s, e) && !Unsafe(s, e)
    ensures LastOnly(Apply(s, e))
  {
    var s' := Apply(s, e);
    assert e.Requeue? ==> StoreConservation.ThreadFits(s.maxQueueSize, s.threads[e.t]);
    forall t | 0 <= t < |s'.threads| && s'.threads[t].Flush? && s'.threads[t].pc.Enqueueing?
      ensures s'.maxQueueSize == 1 && |s'.threads[t].rest| == 1 && |s'.queue| <= 1
    {
      assert StoreConservation.ThreadFits(s.maxQueueSize, s.threads[t]);
    }
  }

  /** A flush that enqueues its last message pushes everything newer out, so the order stays. */
  lemma FlushAppendOrdered(s: State, t: nat)
    requires Ordered(s) && OneBatch(s) && LastOnly(s)
    requires Enabled(s, Append(t)) && s.threads[t].Flush? && s.threads[t].rest[0] in s.hist.stamps
    ensures Ordered(Apply(s, Append(t)))
  {
    var s' := Apply(s, Append(t));
    var f, m := Flushed(s.hist.written), s.threads[t].rest[0];
    hide Flushed;
    hide Increasing;
    assert s.threads[t].rest == [m] && s'.queue == [m] && s'.threads == s.threads[t := Done];
    assert InOrder(s, Line(s, t));
    assert Line(s, t) == (f + [m]) + s.queue + [];
    Cut(s.hist.stamps, s.hist.clock, f + [m], s.queue, []);
    assert InOrder(s', (f + [m]) + []);
    assert f + s'.queue == f + [m] + [];
    forall u | 0 <= u < |s'.threads|
      ensures InOrder(s', Line(s', u))
    {
      assert u != t ==> Rest(s.threads[u]) == [];
      LineWithoutBatch(s', u);
    }
  }

  ghost predicate SafeInv(s: State) {
    Ordered(s) && OneBatch(s) && LastOnly(s)
  }

  lemma OrderedStep(n: nat, es: seq<Event>, s: State, e: Event)
    requires Reaches(n, es, s) && SafeInv(s) && Enabled(s, e) && !Unsafe(s, e)
    ensures Ordered(Apply(s, e))
  {
    match e
    case Append(t) =>
      if s.threads[t].Sender? {
        AppendOrdered(n, es, s, t);
      } else {
        assert InOrder(s, Line(s, t)) && s.threads[t].rest[0] in Line(s, t);
        FlushAppendOrdered(s, t);
      }
    case WriteOk(t) => WriteOrdered(s, t);
    case Take(t) =>
      OneBatchStep(s, e);
      TakeOrdered(s, t);
    case Requeue(t) =>
      StoreConservation.FitsHolds(n, es, s);
      assert StoreConservation.ThreadFits(n, s.threads[t]);
      RequeueOrdered(s, t);
    case _ => OtherOrdered(s, e);
  }

  lemma OneBatchHolds(s: State, e: Event)
    requires OneBatch(s) && Enabled(s, e) && !Unsafe(s, e)
    ensures OneBatch(Apply(s, e))
  {
    OneBatchStep(s, e);
  }

  lemma {:induction false} SafeInvHolds(n: nat, es: seq<Event>, s: State)
    requires Safe(n, es) && Reaches(n, es, s)
    ensures SafeInv(s)
  {
    if es != [] {
      var l := |es| - 1;
      var prev := Run(n, es[..l]).value;
      SafeInvHolds(n, es[..l], prev);
      StoreConservation.FitsHolds(n, es[..l], prev);
      hide StoreConservation.Fits;
      hide Ordered;
      hide OneBatch;
      hide LastOnly;
      hide Unsafe;
      OrderedStep(n, es[..l], prev, es[l]);
      OneBatchHolds(prev, es[l]);
      LastOnlyStep(prev, es[l]);
    }
  }

  /**
   In safe runs, what flushes have written, the rest of the batch and the queue are in enqueue
   order, across overflow drops, interrupted flushes and concurrent enqueues.
   */
  lemma FirstInFirstOut(n: nat, es: seq<Event>, s: State)
    requires Safe(n, es) && Reaches(n, es, s)
    ensures InOrder(s, Flushed(s.hist.written) + s.queue)
    ensures forall t | 0 <= t < |s.threads| :: InOrder(s, Line(s, t))
  {
    SafeInvHolds(n, es, s);
  }
}
