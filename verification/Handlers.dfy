/**
 The handlers of the backend connections and the bounded channel that feeds the dispatcher: lines are
 read and decoded per connection, and the channel interleaves the connections. One event is one line
 read, one channel operation, or the end of a handler.
 */
module Handlers {
  import opened Sequences
  import opened Messages
  import Roster
  import Server
  import Store

  /** A line as json.Unmarshal sees it. */
  datatype Line = WellFormed(req: ServerRequest) | Malformed

  datatype Tagged = Tagged(conn: ConnId, req: ServerRequest)

  /** holding: handlers at their channel send; read and dispatched are history; closed handlers have returned. */
  datatype State = State(
    read: map<ConnId, seq<Line>>,
    holding: map<ConnId, ServerRequest>,
    closed: set<ConnId>,
    channel: seq<Tagged>,
    dispatched: seq<Tagged>)

  datatype Event =
    | Open(conn: ConnId)
    | Read(conn: ConnId, line: Line)
    | Push(conn: ConnId)
    | Close(conn: ConnId)  // read error, or shutdown while reading or at the channel send
    | Pop

  const INIT := State(map[], map[], {}, [], [])

  predicate Enabled(s: State, e: Event) {
    match e
    case Open(c) => c !in s.read
    case Read(c, _) => c in s.read && c !in s.closed && c !in s.holding
    case Push(c) => c in s.holding && |s.channel| < CAPACITY
    case Close(c) => c in s.read && c !in s.closed
    case Pop => s.channel != []
  }

  function Apply(s: State, e: Event): State
    requires Enabled(s, e)
  {
    match e
    case Open(c) => s.(read := s.read[c := []])
    case Read(c, line) =>
      var s' := s.(read := s.read[c := s.read[c] + [line]]);
      if line.WellFormed? then s'.(holding := s.holding[c := line.req]) else s'
    case Push(c) =>
      s.(holding := s.holding - {c}, channel := s.channel + [Tagged(c, s.holding[c])])
    case Close(c) => s.(holding := s.holding - {c}, closed := s.closed + {c})
    case Pop => s.(channel := s.channel[1..], dispatched := s.dispatched + [s.channel[0]])
  }

  function Run(es: seq<Event>): Option<State> {
    if es == [] then Some(INIT)
    else
      var prev := Run(es[..|es| - 1]);
      if prev.Some? && Enabled(prev.value, es[|es| - 1])
      then Some(Apply(prev.value, es[|es| - 1])) else None
  }

  /** The requests in a sequence of lines, malformed ones skipped. */
  function Requests(lines: seq<Line>): seq<ServerRequest> {
    if lines == [] then []
    else Requests(lines[..|lines| - 1])
         + if lines[|lines| - 1].WellFormed? then [lines[|lines| - 1].req] else []
  }

  /** The requests of one connection. */
  function Of(ts: seq<Tagged>, c: ConnId): seq<ServerRequest> {
    if ts == [] then []
    else Of(ts[..|ts| - 1], c) + if ts[|ts| - 1].conn == c then [ts[|ts| - 1].req] else []
  }

  function Held(s: State, c: ConnId): seq<ServerRequest> {
    if c in s.holding then [s.holding[c]] else []
  }

  /** Everything taken over from connection c, in order: dispatched, in the channel, in its handler's hand. */
  function Passed(s: State, c: ConnId): seq<ServerRequest> {
    Of(s.dispatched + s.channel, c) + Held(s, c)
  }

  ghost predicate Inv(s: State, c: ConnId) {
    && (c in s.holding ==> c in s.read && c !in s.closed)
    && (c in s.closed ==> c in s.read)
    && (c !in s.read ==> Of(s.dispatched + s.channel, c) == [])
    && (c in s.read ==> Passed(s, c) <= Requests(s.read[c]))
    && (c in s.read && c !in s.closed ==> Passed(s, c) == Requests(s.read[c]))
  }

  lemma OfAppend(ts: seq<Tagged>, t: Tagged, c: ConnId)
    ensures Of(ts + [t], c) == if t.conn == c then Of(ts, c) + [t.req] else Of(ts, c)
  {
    assert (ts + [t])[..|ts|] == ts;
  }

  lemma ReadStep(s: State, d: ConnId, line: Line, c: ConnId)
    requires Inv(s, c) && Enabled(s, Read(d, line))
    ensures Inv(Apply(s, Read(d, line)), c)
  {
    hide Of;
    if d == c {
      assert (s.read[c] + [line])[..|s.read[c]|] == s.read[c];
    }
  }

  lemma PushStep(s: State, d: ConnId, c: ConnId)
    requires Inv(s, c) && Inv(s, d) && Enabled(s, Push(d))
    ensures Inv(Apply(s, Push(d)), c)
  {
    hide Of;
    hide Requests;
    var t := Tagged(d, s.holding[d]);
    OfAppend(s.dispatched + s.channel, t, c);
    assert s.dispatched + (s.channel + [t]) == s.dispatched + s.channel + [t];
  }

  lemma PopStep(s: State, c: ConnId)
    requires Inv(s, c) && Enabled(s, Pop)
    ensures Inv(Apply(s, Pop), c)
  {
    hide Of;
    hide Requests;
    assert s.dispatched + s.channel == (s.dispatched + [s.channel[0]]) + s.channel[1..];
  }

  lemma OpenCloseStep(s: State, e: Event, c: ConnId)
    requires e.Open? || e.Close?
    requires Inv(s, c) && Enabled(s, e)
    ensures Inv(Apply(s, e), c)
  {
    hide Of;
    assert Requests([]) == [];
    hide Requests;
  }

  lemma InvStep(s: State, e: Event, c: ConnId)
    requires Inv(s, c) && Enabled(s, e)
    requires e.Push? ==> Inv(s, e.conn)
    ensures Inv(Apply(s, e), c)
  {
    match e
    case Read(d, line) => ReadStep(s, d, line, c);
    case Push(d) => PushStep(s, d, c);
    case Pop => PopStep(s, c);
    case _ => OpenCloseStep(s, e, c);
  }

  lemma {:induction false} InvHolds(es: seq<Event>, c: ConnId)
    requires Run(es).Some?
    ensures Inv(Run(es).value, c)
  {
    if es != [] {
      var l := |es| - 1;
      InvHolds(es[..l], c);
      if es[l].Push? {
        InvHolds(es[..l], es[l].conn);
      }
      InvStep(Run(es[..l]).value, es[l], c);
    }
  }

  lemma {:induction false} OfConcat(a: seq<Tagged>, b: seq<Tagged>, c: ConnId)
    ensures Of(a + b, c) == Of(a, c) + Of(b, c)
  {
    if b == [] {
      assert a + b == a;
    } else {
      hide Of;
      var front, t := b[..|b| - 1], b[|b| - 1];
      assert b == front + [t] && a + b == a + front + [t];
      OfConcat(a, front, c);
      OfAppend(a + front, t, c);
      OfAppend(front, t, c);
    }
  }

  /** qs are the requests at the positions p of the lines, and these are all the well-formed lines. */
  ghost predicate Picks(p: seq<nat>, lines: seq<Line>, qs: seq<ServerRequest>) {
    && |p| == |qs|
    && (forall j, k | 0 <= j < k < |p| :: p[j] < p[k])
    && (forall k | 0 <= k < |p| :: p[k] < |lines| && lines[p[k]] == WellFormed(qs[k]))
    && (forall i | 0 <= i < |lines| && lines[i].WellFormed? :: i in p)
  }

  /** qs are the requests of the well-formed lines, each once, in reading order. */
  ghost predicate AllOf(lines: seq<Line>, qs: seq<ServerRequest>) {
    exists p :: Picks(p, lines, qs)
  }

  lemma PicksNext(p: seq<nat>, lines: seq<Line>, qs: seq<ServerRequest>, line: Line)
    requires Picks(p, lines, qs)
    ensures if line.WellFormed? then Picks(p + [|lines|], lines + [line], qs + [line.req])
            else Picks(p, lines + [line], qs)
  {
    var all := lines + [line];
    assert all[|lines|] == line && forall i | 0 <= i < |lines| :: all[i] == lines[i];
    if line.WellFormed? {
      var p' := p + [|lines|];
      assert p'[|p|] == |lines|;
      forall i | 0 <= i < |all| && all[i].WellFormed?
        ensures i in p'
      {
        assert i < |lines| ==> i in p;
      }
    }
  }

  lemma {:induction false} RequestsPicked(lines: seq<Line>) returns (p: seq<nat>)
    ensures Picks(p, lines, Requests(lines))
  {
    if lines == [] {
      p := [];
    } else {
      var l := |lines| - 1;
      p := RequestsPicked(lines[..l]);
      PicksNext(p, lines[..l], Requests(lines[..l]), lines[l]);
      hide Picks;
      assert lines == lines[..l] + [lines[l]];
      if lines[l].WellFormed? {
        p := p + [l];
      }
    }
  }

  lemma RequestsAll(lines: seq<Line>)
    ensures AllOf(lines, Requests(lines))
  {
    var p := RequestsPicked(lines);
  }

  /**
   For every connection, what is dispatched from it is a prefix of its well-formed lines in reading
   order; while its handler runs, what is dispatched, in the channel and in the handler's hand are together
   exactly the requests of these lines, each once.
   */
  lemma DispatchOrder(es: seq<Event>, s: State, c: ConnId)
    requires Run(es) == Some(s) && c in s.read
    ensures Of(s.dispatched, c) <= Requests(s.read[c]) && AllOf(s.read[c], Requests(s.read[c]))
    ensures c !in s.closed ==> Of(s.dispatched, c) + Of(s.channel, c) + Held(s, c) == Requests(s.read[c])
    ensures c !in s.closed ==> AllOf(s.read[c], Of(s.dispatched, c) + Of(s.channel, c) + Held(s, c))
  {
    InvHolds(es, c);
    OfConcat(s.dispatched, s.channel, c);
    RequestsAll(s.read[c]);
  }

  /** The lines of connection c, read off the events of a run. */
  function LinesOf(es: seq<Event>, c: ConnId): seq<Line> {
    if es == [] then []
    else
      var e := es[|es| - 1];
      LinesOf(es[..|es| - 1], c) + if e.Read? && e.conn == c then [e.line] else []
  }

  function ReadSoFar(s: State, c: ConnId): seq<Line> {
    if c in s.read then s.read[c] else []
  }

  lemma LinesStep(s: State, e: Event, c: ConnId)
    requires Enabled(s, e)
    ensures var s' := Apply(s, e);
      && ReadSoFar(s', c) == ReadSoFar(s, c) + (if e.Read? && e.conn == c then [e.line] else [])
      && (c in s'.read <==> c in s.read || e == Open(c))
      && (c in s'.closed <==> c in s.closed || e == Close(c))
  {
  }

  /** No line that a handler has read is forgotten, and only a handler's own end ends it. */
  lemma {:induction false} ReadExactly(es: seq<Event>, s: State, c: ConnId)
    requires Run(es) == Some(s)
    ensures LinesOf(es, c) == ReadSoFar(s, c)
    ensures c in s.read <==> Open(c) in es
    ensures c in s.closed <==> Close(c) in es
  {
    if es != [] {
      var l := |es| - 1;
      ReadExactly(es[..l], Run(es[..l]).value, c);
      LinesStep(Run(es[..l]).value, es[l], c);
      hide Apply;
      hide Enabled;
      hide ReadSoFar;
      assert es == es[..l] + [es[l]];
    }
  }

  /** The channel never holds more than 256 requests, and takes one more exactly while it holds fewer. */
  lemma {:induction false} ChannelBound(es: seq<Event>, s: State)
    requires Run(es) == Some(s)
    ensures |s.channel| <= 256
    ensures forall c | c in s.holding :: Enabled(s, Push(c)) <==> |s.channel| < 256
  {
    if es != [] {
      ChannelBound(es[..|es| - 1], Run(es[..|es| - 1]).value);
    }
  }

  lemma {:induction false} OfMember(ts: seq<Tagged>, t: Tagged)
    requires t in ts
    ensures t.req in Of(ts, t.conn)
  {
    var l := |ts| - 1;
    if ts[l] != t {
      assert ts == ts[..l] + [ts[l]];
      OfMember(ts[..l], t);
    }
  }

  lemma {:induction false} RequestsMember(lines: seq<Line>, q: ServerRequest)
    requires q in Requests(lines)
    ensures WellFormed(q) in lines
  {
    var l := |lines| - 1;
    assert lines == lines[..l] + [lines[l]];
    if lines[l] != WellFormed(q) {
      RequestsMember(lines[..l], q);
    }
  }

  /** Nothing is dispatched that was not read. */
  lemma {:induction false} OnlyRead(es: seq<Event>, s: State, t: Tagged)
    requires Run(es) == Some(s) && t in s.dispatched
    ensures t.conn in s.read && WellFormed(t.req) in s.read[t.conn]
  {
    InvHolds(es, t.conn);
    OfConcat(s.dispatched, s.channel, t.conn);
    OfMember(s.dispatched, t);
    assert t.req in Of(s.dispatched, t.conn) + Of(s.channel, t.conn);
    if t.conn in s.read {
      assert t.req in Passed(s, t.conn);
      RequestsMember(s.read[t.conn], t.req);
    }
  }

  // ----- The handler as its goroutine runs it -----

  /** The events that only the handler of connection c performs. */
  predicate Owns(c: ConnId, e: Event) {
    !e.Pop? && e.conn == c
  }

  ghost predicate NotBy(c: ConnId, es: seq<Event>, k: nat) {
    forall j | k <= j < |es| :: !Owns(c, es[j])
  }

  /** What the handler of connection c can rely on while others run. */
  ghost predicate Kept(c: ConnId, s: State, s': State) {
    && (c in s'.read <==> c in s.read) && (c in s.read ==> s'.read[c] == s.read[c])
    && Held(s', c) == Held(s, c)
    && (c in s'.closed <==> c in s.closed)
  }

  lemma {:induction false} KeptRun(c: ConnId, es: seq<Event>, k: nat)
    requires k <= |es| && Run(es).Some? && NotBy(c, es, k)
    ensures Run(es[..k]).Some? && Kept(c, Run(es[..k]).value, Run(es).value)
  {
    if k == |es| {
      assert es[..k] == es;
    } else {
      assert es[..|es| - 1][..k] == es[..k];
      KeptRun(c, es[..|es| - 1], k);
    }
  }

  /**
   The channel PendingServerRequests under the handlers that fill it and the dispatcher that empties
   it. The record of their regions stays a run of the machine.
   */
  class Channel {
    var requests: seq<Tagged>
    ghost var run: seq<Event>

    ghost function State(): State
      requires Run(run).Some?
      reads this
    {
      Run(run).value
    }

    ghost predicate Valid()
      reads this
    {
      Run(run).Some? && requests == State().channel
    }

    constructor ()
      ensures Valid() && run == []
    {
      requests, run := [], [];
    }

    /** Other goroutines run: any number of events that are not of the handler of connection c. */
    method Yield(c: ConnId)
      requires Valid()
      modifies this
      ensures Valid() && old(run) <= run && NotBy(c, run, |old(run)|)
      ensures Kept(c, old(State()), State())
    {
      KeptRun(c, run, |run|);
    }

    ghost method Record(e: Event)
      requires Run(run).Some? && Enabled(State(), e) && requests == Apply(State(), e).channel
      modifies this`run
      ensures Valid() && run == old(run) + [e] && State() == Apply(old(State()), e)
    {
      assert (run + [e])[..|run|] == run;
      run := run + [e];
    }

    /** The channel send, if there is a free slot. */
    method TryPush(c: ConnId, q: ServerRequest) returns (ok: bool)
      requires Valid() && c in State().holding && State().holding[c] == q
      modifies this
      ensures Valid() && ok == (|old(requests)| < 256)
      ensures ok ==> run == old(run) + [Push(c)] && State() == Apply(old(State()), Push(c))
      ensures !ok ==> run == old(run)
    {
      ok := |requests| < CAPACITY;
      if ok {
        requests := requests + [Tagged(c, q)];
        Record(Push(c));
      }
    }

    /** The select between the channel send and shutdown, which is seen after that many looks. */
    method Offer(c: ConnId, q: ServerRequest, looks: nat) returns (ok: bool)
      requires Valid() && c in State().holding && State().holding[c] == q
      requires c in State().read && c !in State().closed
      modifies this
      ensures Valid() && old(run) <= run
      ensures c in State().read && State().read[c] == old(State().read[c]) && c !in State().closed
      ensures Held(State(), c) == if ok then [] else [q]
      ensures !ok && looks > 0 ==> |requests| >= 256
    {
      ok := false;
      for look := 0 to looks
        invariant Valid() && old(run) <= run && !ok
        invariant c in State().read && State().read[c] == old(State().read[c]) && c !in State().closed
        invariant Held(State(), c) == [q]
        invariant look > 0 ==> |requests| >= 256
      {
        Yield(c);
        ok := TryPush(c, q);
        if ok {
          return;
        }
      }
    }

    /** The channel has been full at some point from the k-th event on. */
    ghost predicate WasFull(k: nat)
      reads this
    {
      exists j :: k <= j <= |run| && Run(run[..j]).Some? && |Run(run[..j]).value.channel| >= 256
    }

    /** One round of the read loop, on a line that was read. */
    method HandleLine(c: ConnId, line: Line, looks: nat) returns (ok: bool)
      requires Valid() && c in State().read && c !in State().closed && Held(State(), c) == []
      modifies this
      ensures Valid() && old(run) <= run && c in State().read && c !in State().closed
      ensures State().read[c] == old(State().read[c]) + [line]
      ensures if ok then Held(State(), c) == [] else line.WellFormed? && Held(State(), c) == [line.req]
      ensures !ok && looks > 0 ==> |requests| >= 256
    {
      Yield(c);
      Record(Read(c, line));
      ok := true;
      if line.WellFormed? {
        ok := Offer(c, line.req, looks);
      }
    }

    /** The handler returns: the request it may hold is lost, everything else it read has been passed on. */
    method Return(c: ConnId)
      requires Valid() && c in State().read && c !in State().closed
      modifies this
      ensures Valid() && old(run) <= run && c in State().read && c in State().closed
      ensures State().read[c] == old(State().read[c])
      ensures Of(State().dispatched + State().channel, c) + old(Held(State(), c)) == Requests(State().read[c])
    {
      hide Of;
      hide Requests;
      Yield(c);
      InvHolds(run, c);
      Record(Close(c));
    }

    /** The read loop has read lines[..used], and all of it but the request in hand at shutdown is passed on. */
    ghost predicate Reading(c: ConnId, lines: seq<Line>, used: nat, shutdown: bool)
      requires Valid()
      reads this
    {
      && used <= |lines| && c in State().read && c !in State().closed && State().read[c] == lines[..used]
      && (if shutdown then used > 0 && lines[used - 1].WellFormed? && Held(State(), c) == [lines[used - 1].req]
          else Held(State(), c) == [])
    }

    method NextLine(c: ConnId, lines: seq<Line>, used: nat, looks: nat) returns (shutdown: bool)
      requires Valid() && used < |lines| && Reading(c, lines, used, false)
      modifies this
      ensures Valid() && old(run) <= run && Reading(c, lines, used + 1, shutdown)
      ensures shutdown && looks > 0 ==> |requests| >= 256
    {
      var ok := HandleLine(c, lines[used], looks);
      assert lines[..used + 1] == lines[..used] + [lines[used]];
      shutdown := !ok;
    }

    /** The read loop. */
    method ReadAll(c: ConnId, lines: seq<Line>, looks: nat) returns (used: nat, shutdown: bool)
      requires Valid() && c !in State().read
      modifies this
      ensures Valid() && old(run) <= run && Reading(c, lines, used, shutdown)
      ensures !shutdown ==> used == |lines|
      ensures shutdown && looks > 0 ==> |requests| >= 256
    {
      InvHolds(run, c);
      Record(Open(c));
      used, shutdown := 0, false;
      while used < |lines| && !shutdown
        invariant Valid() && old(run) <= run && used <= |lines| && Reading(c, lines, used, shutdown)
        invariant shutdown && looks > 0 ==> |requests| >= 256
        decreases |lines| - used
      {
        hide *;
        shutdown := NextLine(c, lines, used, looks);
        used := used + 1;
      }
    }

    /** The end of the read loop, and the handler's return. */
    method ReturnFrom(c: ConnId, lines: seq<Line>, used: nat, shutdown: bool)
      requires Valid() && Reading(c, lines, used, shutdown)
      modifies this
      ensures Valid() && old(run) <= run && c in State().read && c in State().closed
      ensures State().read[c] == lines[..used]
      ensures var passed := Of(State().dispatched + State().channel, c);
        AllOf(lines[..used], passed + if shutdown then [lines[used - 1].req] else [])
    {
      hide Of;
      hide Requests;
      hide AllOf;
      Return(c);
      RequestsAll(lines[..used]);
    }

    /** The read loop, up to the handler's return. */
    method Serve(c: ConnId, lines: seq<Line>, looks: nat) returns (used: nat, shutdown: bool)
      requires Valid() && c !in State().read
      modifies this
      ensures Valid() && old(run) <= run && c in State().read && c in State().closed
      ensures used <= |lines| && State().read[c] == lines[..used]
      ensures !shutdown ==> used == |lines| && AllOf(lines, Of(State().dispatched + State().channel, c))
      ensures shutdown ==>
                && used > 0 && lines[used - 1].WellFormed?
                && AllOf(lines[..used], Of(State().dispatched + State().channel, c) + [lines[used - 1].req])
      ensures shutdown && looks > 0 ==> WasFull(|old(run)|)
    {
      used, shutdown := ReadAll(c, lines, looks);
      ghost var now := run;
      assert run[..|now|] == now;
      hide Of;
      hide AllOf;
      hide Held;
      ReturnFrom(c, lines, used, shutdown);
      assert run[..|now|] == now;
      assert lines[..|lines|] == lines;
      ghost var passed := Of(State().dispatched + State().channel, c);
      assert passed + [] == passed;
    }

    /**
     handleConnection on a connection that delivers these lines and then a read error, with the other
     handlers, the dispatcher and the rest of the TCP server in between: malformed lines are skipped, every
     well-formed one goes into the channel in order, and the connection is taken off the list as the others
     have left it. Only shutdown stops it earlier, and then the request in its hand is the only one read
     and not passed on.
     */
    method HandleConnection(c: ConnId, lines: seq<Line>, server: Server.TCPServer, looks: nat)
      returns (used: nat, shutdown: bool)
      requires Valid() && c !in State().read
      requires server.Valid() && Store.Enabled(server.State(), Store.Conn(Roster.HandlerExit(c)))
      modifies this, server
      ensures Valid() && old(run) <= run && c in State().read && c in State().closed
      ensures used <= |lines| && State().read[c] == lines[..used]
      ensures !shutdown ==> used == |lines| && AllOf(lines, Of(State().dispatched + State().channel, c))
      ensures shutdown ==>
                && used > 0 && lines[used - 1].WellFormed?
                && AllOf(lines[..used], Of(State().dispatched + State().channel, c) + [lines[used - 1].req])
      ensures shutdown && looks > 0 ==> WasFull(|old(run)|)
      ensures server.Valid() && old(server.run) <= server.run
      ensures c !in server.Clients && c in server.State().roster.finished
    {
      used, shutdown := Serve(c, lines, looks);
      server.Yield(Server.Handler(c));
      server.HandlerExit(c);
    }
  }
}
