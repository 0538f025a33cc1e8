/**
 The store-and-forward side of the TCP server as a state machine over interleaved goroutines.
 One event is one region under TCPServer.mu or TCPServer.queueMu, one connection write, or the
 start of a goroutine; any number of senders and flushes can be in progress.
 */
module Store {
  import opened Sequences
  import opened Messages
  import Roster

  /** Inside sendMessage: before GetRandomConnection, holding its connection, or about to enqueue. */
  datatype SendPc =
    | Picking
    | Writing(conn: ConnId)
    | Enqueueing(seen: nat)  // seen: connections accepted when it found none live

  /**
   A goroutine inside sendMessage or flushQueue. A Flush is sending rest[0]; rest is the unsent
   part of its batch. excess is history, used for the length bound only.
   */
  datatype Thread =
    | Sender(msg: BackendRequest, pc: SendPc)
    | FlushStarted
    | Flush(rest: seq<BackendRequest>, excess: nat, pc: SendPc)
    | Requeuing(rest: seq<BackendRequest>, excess: nat)
    | Done

  datatype Sent = Sent(conn: ConnId, msg: BackendRequest, byFlush: bool)

  /**
   begun: messages given to a top-level sendMessage; succeeded and failed: those whose top-level
   call returned nil or an error; written: successful connection writes; dropped: messages dropped
   as oldest; stamps numbers each message by its first enqueue and clock counts the enqueues; excess
   and requeues serve the length bound; the last two say what happened since a flush last took the
   queue.
   */
  datatype History = History(
    begun: seq<BackendRequest>,
    succeeded: seq<BackendRequest>,
    failed: seq<BackendRequest>,
    written: seq<Sent>,
    dropped: seq<BackendRequest>,
    stamps: map<BackendRequest, nat>,
    clock: nat,
    excess: nat,
    requeues: nat,
    requeuedSinceTake: bool,
    lateSinceTake: bool)

  datatype State = State(
    maxQueueSize: nat,
    roster: Roster.State,
    queue: seq<BackendRequest>,
    threads: seq<Thread>,
    hist: History)

  datatype Event =
    | Begin(msg: BackendRequest)
    | Pick(t: nat, conn: ConnId)
    | PickNone(t: nat)
    | WriteOk(t: nat)
    | WriteFail(t: nat)
    | Append(t: nat)
    | Take(t: nat)
    | Requeue(t: nat)
    | Conn(change: Roster.Event)

  function Init(maxQueueSize: nat): State {
    State(maxQueueSize, Roster.INIT, [], [],
          History([], [], [], [], [], map[], 0, 0, 0, false, false))
  }

  // ----- The atomic regions -----

  /** enqueue's region: drop the oldest when full, then append. */
  function Pushed(queue: seq<BackendRequest>, maxQueueSize: nat, m: BackendRequest): seq<BackendRequest>
    requires maxQueueSize > 0
  {
    (if |queue| >= maxQueueSize then queue[1..] else queue) + [m]
  }

  predicate Sending(s: State, t: nat) {
    t < |s.threads| && (s.threads[t].Sender? || (s.threads[t].Flush? && s.threads[t].rest != []))
  }

  /** The message that thread t is inside sendMessage with. */
  function Current(s: State, t: nat): BackendRequest
    requires Sending(s, t)
  {
    if s.threads[t].Sender? then s.threads[t].msg else s.threads[t].rest[0]
  }

  predicate Enabled(s: State, e: Event) {
    match e
    case Begin(m) => forall b | b in s.hist.begun :: b.requestID != m.requestID
    case Pick(t, c) => Sending(s, t) && s.threads[t].pc.Picking? && c in s.roster.clients
    case PickNone(t) => Sending(s, t) && s.threads[t].pc.Picking? && s.roster.clients == []
    case WriteOk(t) => Sending(s, t) && s.threads[t].pc.Writing?
    case WriteFail(t) => Sending(s, t) && s.threads[t].pc.Writing?
    case Append(t) => Sending(s, t) && s.threads[t].pc.Enqueueing? && s.maxQueueSize > 0
    case Take(t) => t < |s.threads| && s.threads[t].FlushStarted?
    case Requeue(t) => t < |s.threads| && s.threads[t].Requeuing?
    case Conn(r) => Roster.Enabled(s.roster, r)
  }

  /** sendMessage returns nil to thread t. */
  function Succeed(s: State, t: nat): State
    requires Sending(s, t)
  {
    match s.threads[t]
    case Sender(m, _) =>
      s.(threads := s.threads[t := Done], hist := s.hist.(succeeded := s.hist.succeeded + [m]))
    case Flush(rest, x, _) =>
      s.(threads := s.threads[t := if |rest| == 1 then Done else Flush(rest[1..], x, Picking)])
    case _ => s
  }

  /** sendMessage returns an error to thread t. */
  function Fail(s: State, t: nat): State
    requires Sending(s, t)
  {
    match s.threads[t]
    case Sender(m, _) =>
      s.(threads := s.threads[t := Done], hist := s.hist.(failed := s.hist.failed + [m]))
    case Flush(rest, x, _) =>
      s.(threads := s.threads[t := Requeuing(rest, x)])
    case _ => s
  }

  /** The enqueue region run by thread t, before its return. */
  function Enqueue(s: State, t: nat): State
    requires Enabled(s, Append(t))
  {
    var m := Current(s, t);
    var h := s.hist;
    s.(queue := Pushed(s.queue, s.maxQueueSize, m),
       hist := h.(dropped := h.dropped + (if |s.queue| >= s.maxQueueSize then [s.queue[0]] else []),
                  stamps := if m in h.stamps then h.stamps else h.stamps[m := h.clock],
                  clock := h.clock + 1,
                  lateSinceTake := h.lateSinceTake || s.threads[t].pc.seen < |s.roster.accepted|))
  }

  function Apply(s: State, e: Event): State
    requires Enabled(s, e)
  {
    match e
    case Begin(m) =>
      s.(threads := s.threads + [Sender(m, Picking)], hist := s.hist.(begun := s.hist.begun + [m]))
    case Pick(t, c) => s.(threads := s.threads[t := s.threads[t].(pc := Writing(c))])
    case PickNone(t) =>
      if Current(s, t).action.ConnectionRequest? || s.maxQueueSize == 0 then Fail(s, t)
      else s.(threads := s.threads[t := s.threads[t].(pc := Enqueueing(|s.roster.accepted|))])
    case WriteOk(t) =>
      var w := Sent(s.threads[t].pc.conn, Current(s, t), s.threads[t].Flush?);
      Succeed(s.(hist := s.hist.(written := s.hist.written + [w])), t)
    case WriteFail(t) => Fail(s, t)
    case Append(t) => Succeed(Enqueue(s, t), t)
    case Take(t) =>
      if s.queue == [] then s.(threads := s.threads[t := Done])
      else s.(queue := [],
              threads := s.threads[t := Flush(s.queue, s.hist.excess, Picking)],
              hist := s.hist.(excess := 0, requeuedSinceTake := false, lateSinceTake := false))
    case Requeue(t) =>
      var th := s.threads[t];
      s.(queue := th.rest + s.queue,
         threads := s.threads[t := Done],
         hist := s.hist.(excess := s.hist.excess + th.excess + 1,
                         requeues := s.hist.requeues + 1,
                         requeuedSinceTake := true))
    case Conn(r) =>
      var s' := s.(roster := Roster.Apply(s.roster, r));
      if r.Spawn? then s'.(threads := s.threads + [FlushStarted]) else s'
  }

  /** The state after the events of a run, or None where some event was not possible. */
  function Run(maxQueueSize: nat, es: seq<Event>): Option<State> {
    if es == [] then Some(Init(maxQueueSize))
    else
      var prev := Run(maxQueueSize, es[..|es| - 1]);
      if prev.Some? && Enabled(prev.value, es[|es| - 1])
      then Some(Apply(prev.value, es[|es| - 1])) else None
  }

  ghost predicate Reaches(maxQueueSize: nat, es: seq<Event>, s: State) {
    Run(maxQueueSize, es) == Some(s)
  }

  lemma {:induction false} RunPrefix(n: nat, es: seq<Event>, k: nat)
    requires Run(n, es).Some? && k <= |es|
    ensures Run(n, es[..k]).Some?
    decreases |es| - k
  {
    if k == |es| {
      assert es[..k] == es;
    } else {
      RunPrefix(n, es, k + 1);
      assert es[..k + 1][..k] == es[..k];
    }
  }

  lemma {:induction false} RunExtend(n: nat, es: seq<Event>, s: State, e: Event)
    requires Reaches(n, es, s) && Enabled(s, e)
    ensures Reaches(n, es + [e], Apply(s, e))
  {
    assert (es + [e])[..|es + [e]| - 1] == es;
  }

  // ----- What the threads hold -----

  /** The unsent part of a flush's batch. */
  function Rest(th: Thread): seq<BackendRequest> {
    if th.Flush? || th.Requeuing? then th.rest else []
  }

  /** How often one thread holds m: as an unfinished top-level call, or in a flush's batch. */
  function HeldBy(th: Thread, inBatch: bool, m: BackendRequest): nat {
    if inBatch then Count(Rest(th), m)
    else if th.Sender? && th.msg == m then 1 else 0
  }

  function Held(ts: seq<Thread>, inBatch: bool, m: BackendRequest): nat {
    if ts == [] then 0
    else Held(ts[..|ts| - 1], inBatch, m) + HeldBy(ts[|ts| - 1], inBatch, m)
  }

  lemma {:induction false} HeldUpdate(ts: seq<Thread>, i: nat, th: Thread, inBatch: bool, m: BackendRequest)
    requires i < |ts|
    ensures Held(ts[i := th], inBatch, m) + HeldBy(ts[i], inBatch, m)
         == Held(ts, inBatch, m) + HeldBy(th, inBatch, m)
  {
    var n := |ts| - 1;
    if i == n {
      assert ts[i := th][..n] == ts[..n];
    } else {
      assert ts[i := th][..n] == ts[..n][i := th];
      HeldUpdate(ts[..n], i, th, inBatch, m);
    }
  }

  lemma {:induction false} HeldAppend(ts: seq<Thread>, th: Thread, inBatch: bool, m: BackendRequest)
    ensures Held(ts + [th], inBatch, m) == Held(ts, inBatch, m) + HeldBy(th, inBatch, m)
  {
    assert (ts + [th])[..|ts|] == ts;
  }

  lemma {:induction false} HeldIncludes(ts: seq<Thread>, i: nat, inBatch: bool, m: BackendRequest)
    requires i < |ts|
    ensures HeldBy(ts[i], inBatch, m) <= Held(ts, inBatch, m)
  {
    if i < |ts| - 1 {
      HeldIncludes(ts[..|ts| - 1], i, inBatch, m);
    }
  }

  /** A message counted once is held by one thread. */
  lemma {:induction false} HeldOnce(ts: seq<Thread>, i: nat, j: nat, inBatch: bool, m: BackendRequest)
    requires i < j < |ts|
    requires Held(ts, inBatch, m) <= 1
    ensures HeldBy(ts[i], inBatch, m) == 0 || HeldBy(ts[j], inBatch, m) == 0
  {
    var n := |ts| - 1;
    if j == n {
      HeldIncludes(ts[..n], i, inBatch, m);
      assert ts[..n][i] == ts[i];
    } else {
      HeldOnce(ts[..n], i, j, inBatch, m);
    }
  }

  function Payload(w: seq<Sent>): (r: seq<BackendRequest>)
    ensures |r| == |w| && forall i | 0 <= i < |w| :: r[i] == w[i].msg
  {
    seq(|w|, i requires 0 <= i < |w| => w[i].msg)
  }
}
