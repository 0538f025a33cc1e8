/** When a message can wait in the queue although a backend is connected. */
module StoreStranding {
  import opened Messages
  import opened Store
  import Roster

  /** A flush is on its way: started, or about to be started by the accept loop. */
  ghost predicate FlushComing(s: State) {
    s.roster.spawning || exists t :: 0 <= t < |s.threads| && s.threads[t].FlushStarted?
  }

  /** A thread about to enqueue has seen every accepted connection only if none is live. */
  ghost predicate SeenFits(s: State, th: Thread) {
    (th.Sender? || th.Flush?) && th.pc.Enqueueing? ==>
      && th.pc.seen <= |s.roster.accepted|
      && (th.pc.seen == |s.roster.accepted| ==> s.roster.clients == [])
  }

  ghost predicate Inv(s: State) {
    && (forall t | 0 <= t < |s.threads| :: SeenFits(s, s.threads[t]))
    && (s.queue != [] && s.roster.clients != [] ==>
          FlushComing(s) || s.hist.requeuedSinceTake || s.hist.lateSinceTake)
  }

  lemma {:induction false} EvictNone(dead: seq<ConnId>)
    ensures Roster.RemoveEach([], dead) == []
  {
    if dead != [] {
      EvictNone(dead[1..]);
    }
  }

  lemma SeenStep(s: State, e: Event)
    requires Inv(s) && Enabled(s, e)
    ensures forall t | 0 <= t < |Apply(s, e).threads| :: SeenFits(Apply(s, e), Apply(s, e).threads[t])
  {
    var s' := Apply(s, e);
    if e == Conn(Roster.Evict) {
      EvictNone(s.roster.ping.dead);
    }
    forall t | 0 <= t < |s'.threads|
      ensures SeenFits(s', s'.threads[t])
    {
      if t < |s.threads| {
        assert SeenFits(s, s.threads[t]);
      }
    }
  }

  lemma ComingStays(s: State, s': State, t: nat)
    requires FlushComing(s) && t < |s.threads| && !s.threads[t].FlushStarted?
    requires |s'.threads| == |s.threads| && s'.roster == s.roster
    requires forall u | 0 <= u < |s.threads| && u != t :: s'.threads[u] == s.threads[u]
    ensures FlushComing(s')
  {
    if !s.roster.spawning {
      var u :| 0 <= u < |s.threads| && s.threads[u].FlushStarted?;
      assert s'.threads[u].FlushStarted?;
    }
  }

  lemma WaitStep(s: State, e: Event)
    requires Inv(s) && Enabled(s, e)
    ensures var s' := Apply(s, e);
      s'.queue != [] && s'.roster.clients != [] ==>
        FlushComing(s') || s'.hist.requeuedSinceTake || s'.hist.lateSinceTake
  {
    var s' := Apply(s, e);
    match e
    case Append(t) =>
      assert SeenFits(s, s.threads[t]);
    case Begin(_) =>
      if FlushComing(s) && !s.roster.spawning {
        var u :| 0 <= u < |s.threads| && s.threads[u].FlushStarted?;
        assert s'.threads[u].FlushStarted?;
      }
    case Conn(r) =>
      if r.Spawn? {
        assert s'.threads[|s.threads|].FlushStarted?;
      } else if r.Evict? {
        EvictNone(s.roster.ping.dead);
      }
      if FlushComing(s) && !s.roster.spawning {
        var u :| 0 <= u < |s.threads| && s.threads[u].FlushStarted?;
        assert s'.threads[u].FlushStarted?;
      }
    case Take(_) =>
    case Requeue(_) =>
    case _ =>
      if FlushComing(s) {
        ComingStays(s, s', e.t);
      }
  }

  lemma {:induction false} InvHolds(n: nat, es: seq<Event>, s: State)
    requires Reaches(n, es, s)
    ensures Inv(s)
  {
    if es != [] {
      var prev := Run(n, es[..|es| - 1]).value;
      InvHolds(n, es[..|es| - 1], prev);
      SeenStep(prev, es[|es| - 1]);
      WaitStep(prev, es[|es| - 1]);
    }
  }

  // ----- The two history flags read as events of the run -----

  /** The k-th event is a flush taking a non-empty queue. */
  ghost predicate Takes(n: nat, es: seq<Event>, k: nat)
    requires k < |es| && Run(n, es[..k]).Some?
  {
    es[k].Take? && Run(n, es[..k]).value.queue != []
  }

  /** The k-th event is an enqueue by a thread that has missed an accepted connection. */
  ghost predicate Late(n: nat, es: seq<Event>, k: nat)
    requires k < |es| && Run(n, es[..k]).Some?
  {
    var s := Run(n, es[..k]).value;
    es[k].Append? && Enabled(s, es[k]) && s.threads[es[k].t].pc.seen < |s.roster.accepted|
  }

  /** The k-th event interrupted a flush or was a late enqueue, and no flush took the queue since. */
  ghost predicate LeftBehind(n: nat, es: seq<Event>, k: nat)
    requires Run(n, es).Some? && k < |es|
  {
    && Run(n, es[..k]).Some?
    && (es[k].Requeue? || Late(n, es, k))
    && forall j | k < j < |es| :: Run(n, es[..j]).Some? && !Takes(n, es, j)
  }

  lemma StillLeftBehind(n: nat, es: seq<Event>, k: nat)
    requires Run(n, es).Some? && k < |es| - 1
    requires Run(n, es[..|es| - 1]).Some? && LeftBehind(n, es[..|es| - 1], k)
    requires !Takes(n, es, |es| - 1)
    ensures LeftBehind(n, es, k)
  {
    hide Run;
    hide Apply;
    hide Enabled;
    var l := |es| - 1;
    assert es[..l][..k] == es[..k];
    assert Late(n, es[..l], k) == Late(n, es, k);
    forall j | k < j < |es|
      ensures Run(n, es[..j]).Some? && !Takes(n, es, j)
    {
      if j < l {
        assert es[..l][..j] == es[..j];
        assert !Takes(n, es[..l], j);
      }
    }
  }

  lemma {:induction false} FlagsMean(n: nat, es: seq<Event>, s: State)
    requires Reaches(n, es, s)
    requires s.hist.requeuedSinceTake || s.hist.lateSinceTake
    ensures exists k :: 0 <= k < |es| && LeftBehind(n, es, k)
  {
    var l := |es| - 1;
    var prev := Run(n, es[..l]).value;
    if es[l].Requeue? || Late(n, es, l) {
      assert LeftBehind(n, es, l);
    } else {
      assert !Takes(n, es, l) && (prev.hist.requeuedSinceTake || prev.hist.lateSinceTake);
      FlagsMean(n, es[..l], prev);
      var k :| 0 <= k < l && LeftBehind(n, es[..l], k);
      StillLeftBehind(n, es, k);
    }
  }

  /**
   Whenever a message is queued while a backend is connected, a flush that will look at the queue
   is coming, or since the last take some flush was interrupted or some sender enqueued after a
   connect it had not seen.
   */
  lemma Stranding(n: nat, es: seq<Event>, s: State)
    requires Reaches(n, es, s) && s.queue != [] && s.roster.clients != []
    ensures FlushComing(s) || exists k :: 0 <= k < |es| && LeftBehind(n, es, k)
  {
    InvHolds(n, es, s);
    if !FlushComing(s) {
      FlagsMean(n, es, s);
    }
  }
}
