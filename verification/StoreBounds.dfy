/**
 How long the queue can become: maxQueueSize bounds it only until a flush is interrupted, and the
 exact bound grows by maxQueueSize with each interruption.
 */
module StoreBounds {
  import opened Messages
  import opened Store
  import Roster

  /** The excess a batch carries: how many interruptions the queue it took had gone through. */
  function Excess(th: Thread): nat {
    if th.Flush? || th.Requeuing? then th.excess else 0
  }

  function TotalExcess(ts: seq<Thread>): nat {
    if ts == [] then 0 else TotalExcess(ts[..|ts| - 1]) + Excess(ts[|ts| - 1])
  }

  lemma {:induction false} ExcessUpdate(ts: seq<Thread>, i: nat, th: Thread)
    requires i < |ts|
    ensures TotalExcess(ts[i := th]) + Excess(ts[i]) == TotalExcess(ts) + Excess(th)
  {
    var n := |ts| - 1;
    if i == n {
      assert ts[i := th][..n] == ts[..n];
    } else {
      assert ts[i := th][..n] == ts[..n][i := th];
      ExcessUpdate(ts[..n], i, th);
    }
  }

  ghost predicate ThreadBounded(n: nat, th: Thread) {
    |Rest(th)| <= n * (1 + Excess(th))
  }

  ghost predicate AllBounded(n: nat, ts: seq<Thread>) {
    forall t | 0 <= t < |ts| :: ThreadBounded(n, ts[t])
  }

  ghost predicate Bounded(s: State) {
    && |s.queue| <= s.maxQueueSize * (1 + s.hist.excess)
    && AllBounded(s.maxQueueSize, s.threads)
    && s.hist.excess + TotalExcess(s.threads) <= s.hist.requeues
  }

  lemma Monotone(n: nat, a: nat, b: nat)
    requires a <= b
    ensures n * a <= n * b
  {
  }

  lemma Distribute(n: nat, a: nat, b: nat)
    ensures n * (1 + a) + n * (1 + b) == n * (1 + (a + b + 1))
  {
  }

  lemma ReplaceBounded(s: State, t: nat, th: Thread)
    requires Bounded(s) && t < |s.threads| && ThreadBounded(s.maxQueueSize, th)
    ensures AllBounded(s.maxQueueSize, s.threads[t := th])
    ensures TotalExcess(s.threads[t := th]) + Excess(s.threads[t]) == TotalExcess(s.threads) + Excess(th)
  {
    ExcessUpdate(s.threads, t, th);
  }

  /** A return to thread t shortens its batch or leaves it alone. */
  lemma ReturnBounded(s: State, t: nat, s': State)
    requires Bounded(s) && Sending(s, t)
    requires s'.threads == Succeed(s, t).threads || s'.threads == Fail(s, t).threads
    requires s'.queue == s.queue && s'.maxQueueSize == s.maxQueueSize
    requires s'.hist.excess == s.hist.excess && s'.hist.requeues == s.hist.requeues
    ensures Bounded(s')
  {
    var th := s'.threads[t];
    assert ThreadBounded(s.maxQueueSize, s.threads[t]);
    Monotone(s.maxQueueSize, 0, 1 + Excess(th));
    ReplaceBounded(s, t, th);
  }

  lemma PushBounded(s: State, t: nat)
    requires Bounded(s) && Enabled(s, Append(t))
    ensures Bounded(Enqueue(s, t))
  {
    Monotone(s.maxQueueSize, 1, 1 + s.hist.excess);
  }

  lemma StartBounded(s: State, th: Thread, s': State)
    requires Bounded(s) && Rest(th) == [] && Excess(th) == 0
    requires s'.threads == s.threads + [th]
    requires s'.queue == s.queue && s'.maxQueueSize == s.maxQueueSize
    requires s'.hist.excess == s.hist.excess && s'.hist.requeues == s.hist.requeues
    ensures Bounded(s')
  {
    assert s'.threads[..|s.threads|] == s.threads;
    assert TotalExcess(s'.threads) == TotalExcess(s.threads);
    hide TotalExcess;
    Monotone(s.maxQueueSize, 0, 1);
    assert ThreadBounded(s.maxQueueSize, th);
  }

  lemma TakeBounded(s: State, t: nat)
    requires Bounded(s) && Enabled(s, Take(t))
    ensures Bounded(Apply(s, Take(t)))
  {
    Monotone(s.maxQueueSize, 0, 1);
    ReplaceBounded(s, t, Apply(s, Take(t)).threads[t]);
  }

  lemma RequeueBounded(s: State, t: nat)
    requires Bounded(s) && Enabled(s, Requeue(t))
    ensures Bounded(Apply(s, Requeue(t)))
  {
    assert ThreadBounded(s.maxQueueSize, s.threads[t]);
    Distribute(s.maxQueueSize, s.hist.excess, Excess(s.threads[t]));
    Monotone(s.maxQueueSize, 0, 1);
    ReplaceBounded(s, t, Done);
  }

  lemma PickBounded(s: State, e: Event)
    requires e.Pick? || e.PickNone?
    requires Bounded(s) && Enabled(s, e)
    ensures Bounded(Apply(s, e))
  {
    assert ThreadBounded(s.maxQueueSize, s.threads[e.t]);
    ReplaceBounded(s, e.t, Apply(s, e).threads[e.t]);
  }

  lemma BoundedStep(s: State, e: Event)
    requires Bounded(s) && Enabled(s, e)
    ensures Bounded(Apply(s, e))
  {
    match e
    case Begin(m) => StartBounded(s, Sender(m, Picking), Apply(s, e));
    case Pick(_, _) => PickBounded(s, e);
    case PickNone(_) => PickBounded(s, e);
    case WriteOk(t) => ReturnBounded(s, t, Apply(s, e));
    case WriteFail(t) => ReturnBounded(s, t, Apply(s, e));
    case Append(t) =>
      PushBounded(s, t);
      ReturnBounded(Enqueue(s, t), t, Apply(s, e));
    case Take(t) => TakeBounded(s, t);
    case Requeue(t) => RequeueBounded(s, t);
    case Conn(r) =>
      if r.Spawn? {
        StartBounded(s, FlushStarted, Apply(s, e));
      }
  }

  lemma {:induction false} BoundedHolds(n: nat, es: seq<Event>, s: State)
    requires Reaches(n, es, s)
    ensures Bounded(s) && s.maxQueueSize == n
  {
    if es != [] {
      var prev := Run(n, es[..|es| - 1]).value;
      BoundedHolds(n, es[..|es| - 1], prev);
      BoundedStep(prev, es[|es| - 1]);
    }
  }

  /** The interrupted flushes of a run that have put their tail back. */
  function Interruptions(es: seq<Event>): nat {
    if es == [] then 0
    else Interruptions(es[..|es| - 1]) + if es[|es| - 1].Requeue? then 1 else 0
  }

  lemma {:induction false} RequeuesCounted(n: nat, es: seq<Event>, s: State)
    requires Reaches(n, es, s)
    ensures s.hist.requeues == Interruptions(es)
  {
    if es != [] {
      RequeuesCounted(n, es[..|es| - 1], Run(n, es[..|es| - 1]).value);
    }
  }

  /**
   The queue never exceeds maxQueueSize times one more than the interrupted flushes so far; with no
   interruption it never exceeds maxQueueSize.
   */
  lemma QueueLength(n: nat, es: seq<Event>, s: State)
    requires Reaches(n, es, s)
    ensures |s.queue| <= n * (1 + Interruptions(es))
  {
    BoundedHolds(n, es, s);
    RequeuesCounted(n, es, s);
    Monotone(n, 1 + s.hist.excess, 1 + s.hist.requeues);
  }

  // ----- The bound is attained -----

  ghost predicate FreshFromLength(s: State) {
    forall b | b in s.hist.begun :: b.requestID < |s.hist.begun|
  }

  lemma Extend(n: nat, es0: seq<Event>, s0: State, e: Event) returns (es: seq<Event>, s: State)
    requires Reaches(n, es0, s0) && Enabled(s0, e)
    ensures Reaches(n, es, s) && es == es0 + [e] && s == Apply(s0, e)
    ensures Interruptions(es) == Interruptions(es0) + if e.Requeue? then 1 else 0
  {
    RunExtend(n, es0, s0, e);
    es, s := es0 + [e], Apply(s0, e);
    assert es[..|es| - 1] == es0;
  }

  /** With no backend live, j more messages are begun and queued. */
  lemma {:induction false} Fill(n: nat, es0: seq<Event>, s0: State, j: nat) returns (es: seq<Event>, s: State)
    requires Reaches(n, es0, s0) && s0.maxQueueSize == n
    requires |s0.queue| + j <= n && s0.roster.clients == [] && FreshFromLength(s0)
    ensures Reaches(n, es, s) && s.maxQueueSize == n
    ensures s.roster == s0.roster && |s.queue| == |s0.queue| + j && FreshFromLength(s)
    ensures s0.threads <= s.threads && Interruptions(es) == Interruptions(es0)
    decreases j
  {
    es, s := es0, s0;
    if j > 0 {
      var t := |s.threads|;
      es, s := Extend(n, es, s, Begin(BackendRequest(|s.hist.begun|, ErrorReport)));
      es, s := Extend(n, es, s, PickNone(t));
      es, s := Extend(n, es, s, Append(t));
      es, s := Fill(n, es, s, j - 1);
    }
  }

  /** A state between two backends: nobody connected, and connections from k on not used yet. */
  ghost predicate Disconnected(s: State, k: nat) {
    && s.roster.clients == [] && !s.roster.spawning
    && (forall c | c in s.roster.accepted :: c < k)
    && (forall c | c in s.roster.finished :: c < k)
  }

  /** A backend connects, its flush takes the queue and picks it, and it disconnects again. */
  lemma ConnectAndTake(n: nat, es0: seq<Event>, s0: State, k: nat) returns (es: seq<Event>, s: State)
    requires Reaches(n, es0, s0) && Disconnected(s0, k) && s0.queue != []
    ensures Reaches(n, es, s) && Disconnected(s, k + 1) && s.queue == []
    ensures s.threads == s0.threads + [Flush(s0.queue, s0.hist.excess, Writing(k))]
    ensures s.hist.begun == s0.hist.begun && s.maxQueueSize == s0.maxQueueSize
    ensures Interruptions(es) == Interruptions(es0)
  {
    var t := |s0.threads|;
    es, s := Extend(n, es0, s0, Conn(Roster.Accept(k)));
    es, s := Extend(n, es, s, Conn(Roster.Spawn));
    es, s := Extend(n, es, s, Take(t));
    es, s := Extend(n, es, s, Pick(t, k));
    es, s := Extend(n, es, s, Conn(Roster.HandlerExit(k)));
  }

  /** A flush is interrupted after the queue has filled up again behind it. */
  lemma Interrupted(n: nat, es0: seq<Event>, s0: State, k: nat) returns (es: seq<Event>, s: State)
    requires Reaches(n, es0, s0) && s0.maxQueueSize == n && s0.queue != []
    requires Disconnected(s0, k) && FreshFromLength(s0)
    ensures Reaches(n, es, s) && s.maxQueueSize == n && |s.queue| == |s0.queue| + n
    ensures Interruptions(es) == Interruptions(es0) + 1
    ensures Disconnected(s, k + 1) && FreshFromLength(s)
  {
    hide Reaches;
    hide Interruptions;
    var t := |s0.threads|;
    es, s := ConnectAndTake(n, es0, s0, k);
    ghost var taken := s.threads;
    es, s := Fill(n, es, s, n);
    assert s.threads[t] == taken[t] == Flush(s0.queue, s0.hist.excess, Writing(k));
    es, s := Extend(n, es, s, WriteFail(t));
    es, s := Extend(n, es, s, Requeue(t));
  }

  /** For every maxQueueSize n > 0 and every k, some run with k interruptions reaches n * (1 + k). */
  lemma {:induction false} QueueLengthAttained(n: nat, k: nat) returns (es: seq<Event>, s: State)
    requires n > 0
    ensures Reaches(n, es, s) && s.maxQueueSize == n
    ensures Interruptions(es) == k && |s.queue| == n * (1 + k)
    ensures Disconnected(s, k) && FreshFromLength(s)
    decreases k
  {
    if k == 0 {
      es, s := Fill(n, [], Init(n), n);
    } else {
      var es0, s0 := QueueLengthAttained(n, k - 1);
      Monotone(n, 1, k);
      assert n * (1 + (k - 1)) + n == n * (1 + k);
      es, s := Interrupted(n, es0, s0, k - 1);
    }
  }

  /** maxQueueSize bounds the queue in all runs with k interrupted flushes exactly when k, or it, is zero. */
  lemma LimitExact(n: nat, k: nat)
    ensures (forall es, s | Reaches(n, es, s) && Interruptions(es) == k :: |s.queue| <= n) <==> n == 0 || k == 0
  {
    if n == 0 || k == 0 {
      forall es, s | Reaches(n, es, s) && Interruptions(es) == k
        ensures |s.queue| <= n
      {
        QueueLength(n, es, s);
      }
    } else {
      var es, s := QueueLengthAttained(n, k);
      Monotone(n, 2, 1 + k);
    }
  }
}
