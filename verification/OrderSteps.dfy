/**
 Which steps endanger the order: after a safe run, a step can be followed by safe steps that write or queue
 a newer message before an older one exactly when it is unsafe.
 */
module OrderSteps {
  import opened Sequences
  import opened Messages
  import opened Store
  import Roster
  import opened StoreOrder
  import StoreConservation

  /** The steps of more, taken after start, are all safe. */
  ghost predicate SafeFrom(n: nat, start: seq<Event>, more: seq<Event>) {
    more != [] ==>
      && SafeFrom(n, start, more[..|more| - 1])
      && Run(n, start + more[..|more| - 1]).Some?
      && !Unsafe(Run(n, start + more[..|more| - 1]).value, more[|more| - 1])
  }

  lemma {:induction false} SafeMore(n: nat, start: seq<Event>, more: seq<Event>)
    requires Safe(n, start) && SafeFrom(n, start, more) && Run(n, start + more).Some?
    ensures Safe(n, start + more)
  {
    hide Unsafe;
    hide Apply;
    hide Enabled;
    if more == [] {
      assert start + more == start;
    } else {
      var l := |more| - 1;
      assert (start + more)[..|start + more| - 1] == start + more[..l];
      assert (start + more)[|start + more| - 1] == more[l];
      SafeMore(n, start, more[..l]);
    }
  }

  lemma NoSteps(n: nat, start: seq<Event>)
    ensures SafeFrom(n, start, [])
  {
  }

  /** One more safe step. */
  lemma GoOn(n: nat, start: seq<Event>, more0: seq<Event>, s0: State, e: Event) returns (more: seq<Event>, s: State)
    requires Reaches(n, start + more0, s0) && SafeFrom(n, start, more0)
    requires Enabled(s0, e) && !Unsafe(s0, e)
    ensures Reaches(n, start + more, s) && SafeFrom(n, start, more) && s == Apply(s0, e)
  {
    RunExtend(n, start + more0, s0, e);
    more, s := more0 + [e], Apply(s0, e);
    assert start + more == start + more0 + [e];
    assert more[..|more| - 1] == more0;
  }

  // ----- Small continuations -----

  /** Nothing but the live connections has changed, and perhaps there are more threads. */
  ghost predicate OnlyConnected(s0: State, s: State) {
    && s.queue == s0.queue && s.hist == s0.hist && s.maxQueueSize == s0.maxQueueSize
    && s0.threads <= s.threads
  }

  lemma {:induction false} NewConnection(accepted: seq<ConnId>) returns (c: ConnId)
    ensures forall d | d in accepted :: d < c
  {
    if accepted == [] {
      c := 0;
    } else {
      var l := |accepted| - 1;
      c := NewConnection(accepted[..l]);
      assert accepted == accepted[..l] + [accepted[l]];
      c := if accepted[l] < c then c else accepted[l] + 1;
    }
  }

  /** Makes sure that a backend is live. */
  lemma Connect(n: nat, start: seq<Event>, more0: seq<Event>, s0: State) returns (more: seq<Event>, s: State)
    requires Reaches(n, start + more0, s0) && SafeFrom(n, start, more0)
    ensures Reaches(n, start + more, s) && SafeFrom(n, start, more)
    ensures s.roster.clients != [] && OnlyConnected(s0, s)
  {
    hide Reaches;
    hide SafeFrom;
    more, s := more0, s0;
    if s0.roster.clients == [] {
      if s.roster.spawning {
        more, s := GoOn(n, start, more, s, Conn(Roster.Spawn));
      }
      var c := NewConnection(s.roster.accepted);
      more, s := GoOn(n, start, more, s, Conn(Roster.Accept(c)));
    }
  }

  /** Thread t has written its current message, as part of its flush, and nothing else has changed. */
  ghost predicate FlushedOne(s0: State, s: State, t: nat)
    requires t < |s0.threads| && s0.threads[t].Flush? && s0.threads[t].rest != []
  {
    && s.queue == s0.queue && s.maxQueueSize == s0.maxQueueSize && |s.threads| >= |s0.threads|
    && (forall u | 0 <= u < |s0.threads| && u != t :: s.threads[u] == s0.threads[u])
    && s.hist.stamps == s0.hist.stamps
    && Flushed(s.hist.written) == Flushed(s0.hist.written) + [s0.threads[t].rest[0]]
  }

  /** A flush that holds a connection writes its current message. */
  lemma WriteHeld(n: nat, start: seq<Event>, more0: seq<Event>, s0: State, t: nat)
    returns (more: seq<Event>, s: State)
    requires Reaches(n, start + more0, s0) && SafeFrom(n, start, more0)
    requires t < |s0.threads| && s0.threads[t].Flush? && s0.threads[t].rest != [] && s0.threads[t].pc.Writing?
    ensures Reaches(n, start + more, s) && SafeFrom(n, start, more) && FlushedOne(s0, s, t)
  {
    hide Reaches;
    hide SafeFrom;
    more, s := GoOn(n, start, more0, s0, WriteOk(t));
    WriteEffect(s0, t);
    FlushedAppend(s0.hist.written, Sent(s0.threads[t].pc.conn, s0.threads[t].rest[0], true));
  }

  /** A flush that is about to look for a connection finds one and writes. */
  lemma WriteNext(n: nat, start: seq<Event>, more0: seq<Event>, s0: State, t: nat)
    returns (more: seq<Event>, s: State)
    requires Reaches(n, start + more0, s0) && SafeFrom(n, start, more0)
    requires t < |s0.threads| && s0.threads[t].Flush? && s0.threads[t].rest != [] && s0.threads[t].pc.Picking?
    ensures Reaches(n, start + more, s) && SafeFrom(n, start, more) && FlushedOne(s0, s, t)
  {
    hide Reaches;
    hide SafeFrom;
    hide Flushed;
    more, s := Connect(n, start, more0, s0);
    assert s.threads[t] == s0.threads[t];
    ghost var s1 := s;
    more, s := GoOn(n, start, more, s, Pick(t, s.roster.clients[0]));
    ghost var s2 := s;
    more, s := WriteHeld(n, start, more, s, t);
    assert forall u | 0 <= u < |s0.threads| && u != t :: s2.threads[u] == s1.threads[u] == s0.threads[u];
  }

  // ----- Disorder -----

  /** What flushes have written, and then the queue. */
  function Out(s: State): seq<BackendRequest> {
    Flushed(s.hist.written) + s.queue
  }

  ghost predicate Disordered(s: State) {
    !InOrder(s, Out(s))
  }

  /** A newer message comes before an older one. */
  lemma Inverted(s: State, i: nat, j: nat)
    requires i < j < |Out(s)| && Out(s)[i] in s.hist.stamps && Out(s)[j] in s.hist.stamps
    requires s.hist.stamps[Out(s)[j]] < s.hist.stamps[Out(s)[i]]
    ensures Disordered(s)
  {
    var line := Out(s);
    assert line[i] in line && line[j] in line;
  }

  /** In a safe run the current message of a batch is older than the rest of the batch and the queue. */
  lemma OlderFirst(n: nat, es: seq<Event>, s: State, t: nat, m: BackendRequest)
    requires Safe(n, es) && Reaches(n, es, s)
    requires t < |s.threads| && Rest(s.threads[t]) != []
    requires m in Rest(s.threads[t])[1..] || m in s.queue
    ensures var r := Rest(s.threads[t])[0];
      r in s.hist.stamps && m in s.hist.stamps && s.hist.stamps[r] < s.hist.stamps[m]
  {
    FirstInFirstOut(n, es, s);
    hide Flushed;
    hide Safe;
    hide Reaches;
    var f, rest := Flushed(s.hist.written), Rest(s.threads[t]);
    var line := Line(s, t);
    assert InOrder(s, line) && line[|f|] == rest[0] && line[|f|] in line;
    var j: nat;
    if m in rest[1..] {
      var k :| 0 <= k < |rest[1..]| && rest[1..][k] == m;
      j := |f| + 1 + k;
    } else {
      var k :| 0 <= k < |s.queue| && s.queue[k] == m;
      j := |f| + |rest| + k;
    }
    assert line[j] == m && line[j] in line;
  }

  // ----- An overlapping take -----

  /** The flush that has taken the queue writes a newer message, and the other one's older message follows. */
  lemma OlderFollows(n: nat, start: seq<Event>, more0: seq<Event>, s0: State, t: nat)
    returns (more: seq<Event>, s: State)
    requires Reaches(n, start + more0, s0) && SafeFrom(n, start, more0)
    requires t < |s0.threads| && Rest(s0.threads[t]) != [] && s0.queue == []
    requires s0.threads[t].Flush? && s0.threads[t].pc.Enqueueing? ==> s0.maxQueueSize > 0
    requires Rest(s0.threads[t])[0] in s0.hist.stamps
    ensures Reaches(n, start + more, s) && SafeFrom(n, start, more) && s.hist.stamps == s0.hist.stamps
    ensures Flushed(s0.hist.written) <= Out(s) && |Out(s)| > |Flushed(s0.hist.written)|
    ensures Out(s)[|Flushed(s0.hist.written)|] == Rest(s0.threads[t])[0]
  {
    hide Reaches;
    hide SafeFrom;
    hide Flushed;
    if s0.threads[t].Requeuing? {
      more, s := GoOn(n, start, more0, s0, Requeue(t));
    } else {
      match s0.threads[t].pc
      case Picking => more, s := WriteNext(n, start, more0, s0, t);
      case Writing(_) => more, s := WriteHeld(n, start, more0, s0, t);
      case Enqueueing(_) => more, s := GoOn(n, start, more0, s0, Append(t));
    }
  }

  /** The flush that takes the queue while thread t holds a batch writes the newest batch's first message. */
  lemma NewerWritten(n: nat, es: seq<Event>, s: State, e: Event, t: nat) returns (more: seq<Event>, s': State)
    requires Reaches(n, es, s) && Enabled(s, e) && e.Take? && s.queue != []
    requires t < |s.threads| && t != e.t
    ensures Reaches(n, es + [e] + more, s') && SafeFrom(n, es + [e], more)
    ensures s'.queue == [] && s'.hist.stamps == s.hist.stamps && s'.maxQueueSize == s.maxQueueSize
    ensures t < |s'.threads| && s'.threads[t] == s.threads[t]
    ensures Flushed(s'.hist.written) == Flushed(s.hist.written) + [s.queue[0]]
  {
    var start, s1 := es + [e], Apply(s, e);
    RunExtend(n, es, s, e);
    assert start + [] == start;
    NoSteps(n, start);
    assert s1.threads[e.t] == Flush(s.queue, s.hist.excess, Picking) && s1.threads[t] == s.threads[t];
    hide Reaches;
    hide SafeFrom;
    hide Flushed;
    more, s' := WriteNext(n, start, [], s1, e.t);
  }

  lemma ThenOlder(s: State, f: seq<BackendRequest>, a: BackendRequest, b: BackendRequest)
    requires f + [a] <= Out(s) && |Out(s)| > |f| + 1 && Out(s)[|f| + 1] == b
    requires a in s.hist.stamps && b in s.hist.stamps && s.hist.stamps[b] < s.hist.stamps[a]
    ensures Disordered(s)
  {
    hide Out;
    hide InOrder;
    assert (f + [a])[|f|] == a;
    Inverted(s, |f|, |f| + 1);
  }

  lemma OverlapDisorders(n: nat, es: seq<Event>, s: State, e: Event) returns (more: seq<Event>, s': State)
    requires Reaches(n, es, s) && Safe(n, es) && Enabled(s, e) && Overlaps(s, e)
    ensures Reaches(n, es + [e] + more, s') && SafeFrom(n, es + [e], more) && Disordered(s')
  {
    var t :| 0 <= t < |s.threads| && t != e.t && Rest(s.threads[t]) != [];
    OlderFirst(n, es, s, t, s.queue[0]);
    StoreConservation.FitsHolds(n, es, s);
    assert StoreConservation.ThreadFits(n, s.threads[t]);
    hide StoreConservation.Fits;
    hide StoreConservation.ThreadFits;
    hide Reaches;
    hide SafeFrom;
    hide Flushed;
    hide Safe;
    hide Apply;
    var f := Flushed(s.hist.written);
    more, s' := NewerWritten(n, es, s, e, t);
    hide Overlaps;
    hide Enabled;
    more, s' := OlderFollows(n, es + [e], more, s', t);
    ThenOlder(s', f, s.queue[0], Rest(s.threads[t])[0]);
  }

  // ----- A flush that finds no backend -----

  /** The rest of the batch goes on, and its next message is written before the one enqueued again. */
  lemma NextOvertakes(n: nat, start: seq<Event>, s0: State, t: nat) returns (more: seq<Event>, s: State)
    requires Reaches(n, start, s0) && Enabled(s0, Append(t)) && s0.threads[t].Flush? && |s0.threads[t].rest| > 1
    requires var r, m := s0.threads[t].rest[0], s0.threads[t].rest[1];
      r in s0.hist.stamps && m in s0.hist.stamps && s0.hist.stamps[r] < s0.hist.stamps[m]
    ensures Reaches(n, start + more, s) && SafeFrom(n, start, more) && Disordered(s)
  {
    assert start + [] == start;
    var f, rest := Flushed(s0.hist.written), s0.threads[t].rest;
    hide Reaches;
    hide Flushed;
    more, s := GoOn(n, start, [], s0, Append(t));
    assert s.threads[t] == Flush(rest[1..], s0.threads[t].excess, Picking);
    assert s.queue[|s.queue| - 1] == rest[0];
    more, s := WriteNext(n, start, more, s, t);
    assert Out(s)[|f|] == rest[1] && Out(s)[|Out(s)| - 1] == rest[0];
    Inverted(s, |f|, |Out(s)| - 1);
  }

  /** The message is enqueued behind a newer one that stays in the queue. */
  lemma QueuedOvertakes(n: nat, start: seq<Event>, more0: seq<Event>, s0: State, t: nat)
    returns (more: seq<Event>, s: State)
    requires Reaches(n, start + more0, s0) && SafeFrom(n, start, more0)
    requires Enabled(s0, Append(t)) && s0.threads[t].Flush?
    requires |s0.queue| > 1 || (|s0.queue| == 1 && s0.maxQueueSize > 1)
    requires var r := s0.threads[t].rest[0];
      && r in s0.hist.stamps
      && forall m | m in s0.queue :: m in s0.hist.stamps && s0.hist.stamps[r] < s0.hist.stamps[m]
    ensures Reaches(n, start + more, s) && SafeFrom(n, start, more) && Disordered(s)
  {
    hide Reaches;
    hide SafeFrom;
    hide Flushed;
    var f, r := Flushed(s0.hist.written), s0.threads[t].rest[0];
    more, s := GoOn(n, start, more0, s0, Append(t));
    assert Flushed(s.hist.written) == f && s.queue == Pushed(s0.queue, s0.maxQueueSize, r);
    assert s.queue[0] in s0.queue && s.queue[|s.queue| - 1] == r;
    assert Out(s)[|f|] == s.queue[0] && Out(s)[|Out(s)| - 1] == r;
    Inverted(s, |f|, |Out(s)| - 1);
  }

  lemma {:induction false} NewRequest(begun: seq<BackendRequest>) returns (id: RequestId)
    ensures forall b | b in begun :: b.requestID < id
  {
    if begun == [] {
      id := 0;
    } else {
      var l := |begun| - 1;
      id := NewRequest(begun[..l]);
      assert begun == begun[..l] + [begun[l]];
      id := if begun[l].requestID < id then id else begun[l].requestID + 1;
    }
  }

  /** A new sender comes as far as enqueueing. */
  lemma SendNew(n: nat, start: seq<Event>, s0: State, t: nat) returns (more: seq<Event>, s: State, m: BackendRequest)
    requires Reaches(n, start, s0) && s0.maxQueueSize > 0 && s0.roster.clients == [] && t < |s0.threads|
    ensures Reaches(n, start + more, s) && SafeFrom(n, start, more)
    ensures |s.threads| == |s0.threads| + 1 && s.threads[t] == s0.threads[t]
    ensures s.queue == s0.queue && s.maxQueueSize == s0.maxQueueSize
    ensures s.hist.stamps == s0.hist.stamps && s.hist.clock == s0.hist.clock
    ensures s.threads[|s0.threads|].Sender? && s.threads[|s0.threads|].msg == m
    ensures s.threads[|s0.threads|].pc.Enqueueing?
  {
    assert start + [] == start;
    var id := NewRequest(s0.hist.begun);
    m := BackendRequest(id, ErrorReport);
    hide Reaches;
    more, s := GoOn(n, start, [], s0, Begin(m));
    assert s.threads == s0.threads + [Sender(m, Picking)];
    more, s := GoOn(n, start, more, s, PickNone(|s0.threads|));
  }

  /** With room for two, a message that is begun and queued now overtakes the last one of the batch. */
  lemma NewOvertakes(n: nat, start: seq<Event>, s0: State, t: nat) returns (more: seq<Event>, s: State)
    requires Reaches(n, start, s0) && Enabled(s0, Append(t)) && s0.threads[t].Flush?
    requires s0.queue == [] && s0.maxQueueSize > 1 && s0.roster.clients == []
    requires var r := s0.threads[t].rest[0];
      r in s0.hist.stamps && s0.hist.stamps[r] < s0.hist.clock
    ensures Reaches(n, start + more, s) && SafeFrom(n, start, more) && Disordered(s)
  {
    var u, m := |s0.threads|, s0.threads[t].rest[0];
    more, s, m := SendNew(n, start, s0, t);
    NotStamped(n, start + more, s, u);
    hide Reaches;
    hide SafeFrom;
    AppendEffect(s, u);
    more, s := GoOn(n, start, more, s, Append(u));
    assert s.queue == [m] && s.hist.stamps[m] == s0.hist.clock && s.threads[t] == s0.threads[t];
    more, s := QueuedOvertakes(n, start, more, s, t);
  }

  lemma Numbered(n: nat, es: seq<Event>, s: State, t: nat)
    requires Safe(n, es) && Reaches(n, es, s) && t < |s.threads| && Rest(s.threads[t]) != []
    ensures var r := Rest(s.threads[t])[0]; r in s.hist.stamps && s.hist.stamps[r] < s.hist.clock
  {
    FirstInFirstOut(n, es, s);
    assert Rest(s.threads[t])[0] in Line(s, t);
  }

  lemma LoseDisorders(n: nat, es: seq<Event>, s: State, e: Event) returns (more: seq<Event>, s': State)
    requires Reaches(n, es, s) && Safe(n, es) && Enabled(s, e) && Loses(s, e)
    ensures Reaches(n, es + [e] + more, s') && SafeFrom(n, es + [e], more) && Disordered(s')
  {
    var start, s1, t := es + [e], Apply(s, e), e.t;
    RunExtend(n, es, s, e);
    assert start + [] == start;
    StoreConservation.FitsHolds(n, es, s);
    assert StoreConservation.ThreadFits(n, s.threads[t]);
    var rest := s.threads[t].rest;
    assert rest[0] in Rest(s.threads[t]);
    assert s1.threads[t] == Flush(rest, s.threads[t].excess, Enqueueing(|s.roster.accepted|));
    assert s1.queue == s.queue && s1.hist == s.hist && s1.roster == s.roster && s1.maxQueueSize == s.maxQueueSize;
    hide Reaches;
    hide Apply;
    if |rest| > 1 {
      assert rest[1] in Rest(s.threads[t])[1..];
      OlderFirst(n, es, s, t, rest[1]);
      more, s' := NextOvertakes(n, start, s1, t);
    } else if s.queue != [] {
      forall m | m in s.queue
        ensures rest[0] in s.hist.stamps && m in s.hist.stamps && s.hist.stamps[rest[0]] < s.hist.stamps[m]
      {
        OlderFirst(n, es, s, t, m);
      }
      assert s.queue[0] in s.queue;
      more, s' := QueuedOvertakes(n, start, [], s1, t);
    } else {
      Numbered(n, es, s, t);
      more, s' := NewOvertakes(n, start, s1, t);
    }
  }

  // ----- The condition is exact -----

  /**
   After a safe run, a step keeps first in, first out through every continuation of safe steps exactly
   when it is safe itself.
   */
  lemma OrderExact(n: nat, es: seq<Event>, s: State, e: Event)
    requires Reaches(n, es, s) && Safe(n, es) && Enabled(s, e)
    ensures (forall more, s' | Reaches(n, es + [e] + more, s') && SafeFrom(n, es + [e], more) :: !Disordered(s'))
       <==> !Unsafe(s, e)
  {
    if Overlaps(s, e) {
      var more, s' := OverlapDisorders(n, es, s, e);
    } else if Loses(s, e) {
      var more, s' := LoseDisorders(n, es, s, e);
    } else {
      RunExtend(n, es, s, e);
      assert (es + [e])[..|es|] == es;
      forall more, s' | Reaches(n, es + [e] + more, s') && SafeFrom(n, es + [e], more)
        ensures !Disordered(s')
      {
        SafeMore(n, es + [e], more);
        FirstInFirstOut(n, es + [e] + more, s');
      }
    }
  }
}
