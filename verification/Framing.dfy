/**
 Newline framing on one backend connection: how bufio.Writer cuts a message into connection writes,
 how the writes of several goroutines and the heartbeat interleave, and what a reader gets back.
 */
module Framing {
  import opened Sequences

  type Byte = b: int | 0 <= b < 256
  type Bytes = seq<Byte>

  const NEWLINE: Byte := 10

  /** The size of the buffer bufio.NewWriter makes. */
  const BUFFER: nat := 4096

  // ----- Splitting at newlines -----

  /** What follows the last newline of s. */
  function Tail(s: Bytes): Bytes {
    if s == [] || s[|s| - 1] == NEWLINE then [] else Tail(s[..|s| - 1]) + [s[|s| - 1]]
  }

  /** The complete lines of s, without their newlines. */
  function Lines(s: Bytes): seq<Bytes> {
    if s == [] then []
    else if s[|s| - 1] == NEWLINE then Lines(s[..|s| - 1]) + [Tail(s[..|s| - 1])]
    else Lines(s[..|s| - 1])
  }

  function Flatten(cs: seq<Bytes>): Bytes {
    if cs == [] then [] else Flatten(cs[..|cs| - 1]) + cs[|cs| - 1]
  }

  lemma OneMore(s: Bytes, b: Byte)
    ensures Lines(s + [b]) == if b == NEWLINE then Lines(s) + [Tail(s)] else Lines(s)
    ensures Tail(s + [b]) == if b == NEWLINE then [] else Tail(s) + [b]
  {
    assert (s + [b])[..|s|] == s;
  }

  /** Lines put back together, each with its newline byte. */
  function Joined(lines: seq<Bytes>): Bytes {
    if lines == [] then [] else Joined(lines[..|lines| - 1]) + lines[|lines| - 1] + [10]
  }

  lemma JoinedAppend(lines: seq<Bytes>, line: Bytes)
    ensures Joined(lines + [line]) == Joined(lines) + line + [10]
  {
    assert (lines + [line])[..|lines|] == lines;
  }

  /** The lines and the tail hold no newline, and with their newlines they are the stream. */
  lemma {:induction false} LinesExactly(s: Bytes)
    ensures Joined(Lines(s)) + Tail(s) == s
    ensures 10 !in Tail(s) && forall line | line in Lines(s) :: 10 !in line
  {
    if s != [] {
      var l := |s| - 1;
      LinesExactly(s[..l]);
      assert s == s[..l] + [s[l]];
      if s[l] == NEWLINE {
        JoinedAppend(Lines(s[..l]), Tail(s[..l]));
      }
    }
  }

  /** The lines of a prefix are a prefix of the lines. */
  lemma {:induction false} PrefixLines(s: Bytes, more: Bytes)
    ensures Lines(s) <= Lines(s + more)
  {
    if more == [] {
      assert s + more == s;
    } else {
      var l := |more| - 1;
      assert s + more == s + more[..l] + [more[l]];
      PrefixLines(s, more[..l]);
      OneMore(s + more[..l], more[l]);
    }
  }

  lemma {:induction false} NoNewline(s: Bytes, m: Bytes)
    requires NEWLINE !in m
    ensures Lines(s + m) == Lines(s) && Tail(s + m) == Tail(s) + m
  {
    if m == [] {
      assert s + m == s;
    } else {
      var l := |m| - 1;
      assert m[l] in m;
      assert s + m == s + m[..l] + [m[l]];
      NoNewline(s, m[..l]);
      OneMore(s + m[..l], m[l]);
    }
  }

  /** A newline-free message and its newline complete the line that is open. */
  lemma FrameEnds(s: Bytes, m: Bytes)
    requires NEWLINE !in m
    ensures Lines(s + (m + [NEWLINE])) == Lines(s) + [Tail(s) + m]
    ensures Tail(s + (m + [NEWLINE])) == []
  {
    NoNewline(s, m);
    OneMore(s + m, NEWLINE);
    assert s + (m + [NEWLINE]) == s + m + [NEWLINE];
  }

  lemma FlattenAppend(cs: seq<Bytes>, c: Bytes)
    ensures Flatten(cs + [c]) == Flatten(cs) + c
  {
    assert (cs + [c])[..|cs|] == cs;
  }

  // ----- Writing through a 4096-byte buffer -----

  /** The connection writes of WriteString followed by Flush on a new writer. */
  function Chunks(data: Bytes): seq<Bytes> {
    if |data| <= BUFFER then [data] else [data[..BUFFER]] + Chunks(data[BUFFER..])
  }

  predicate Fits(m: Bytes) {
    |m| + 1 <= BUFFER
  }

  /** bufio.Writer over a connection; writes is what reached the connection, one entry a write. */
  class Writer {
    var buffered: Bytes
    var writes: seq<Bytes>

    constructor ()
      ensures buffered == [] && writes == []
    {
      buffered, writes := [], [];
    }

    /** Fills the buffer, and writes it out each time it is full and more is to come. */
    method WriteString(data: Bytes)
      requires buffered == []
      modifies this
      ensures writes + [buffered] == old(writes) + Chunks(data)
    {
      var rest := data;
      while |rest| > BUFFER
        invariant buffered == []
        invariant writes + Chunks(rest) == old(writes) + Chunks(data)
      {
        writes := writes + [rest[..BUFFER]];
        assert writes + Chunks(rest[BUFFER..]) == writes[..|writes| - 1] + Chunks(rest);
        rest := rest[BUFFER..];
      }
      buffered := rest;
    }

    method Flush()
      modifies this
      ensures buffered == []
      ensures writes == old(writes) + if old(buffered) == [] then [] else [old(buffered)]
    {
      if buffered != [] {
        writes := writes + [buffered];
        buffered := [];
      }
    }
  }

  lemma {:induction false} FlattenFirst(c: Bytes, cs: seq<Bytes>)
    ensures Flatten([c] + cs) == c + Flatten(cs)
  {
    if cs == [] {
      assert [c] + cs == [c] && [c][..0] == [];
    } else {
      var l := |cs| - 1;
      assert ([c] + cs)[..l + 1] == [c] + cs[..l];
      FlattenFirst(c, cs[..l]);
    }
  }

  /** Cut in full buffers and a rest that is not empty, nothing lost. */
  lemma {:induction false} ChunksExactly(data: Bytes)
    ensures Chunks(data) != [] && Flatten(Chunks(data)) == data
    ensures forall i | 0 <= i < |Chunks(data)| - 1 :: |Chunks(data)[i]| == 4096
    ensures |Chunks(data)[|Chunks(data)| - 1]| <= 4096
    ensures data != [] ==> Chunks(data)[|Chunks(data)| - 1] != []
  {
    if |data| <= BUFFER {
      assert [data][..0] == [];
    } else {
      ChunksExactly(data[BUFFER..]);
      FlattenFirst(data[..BUFFER], Chunks(data[BUFFER..]));
      assert data == data[..BUFFER] + data[BUFFER..];
    }
  }

  /** What sendMessage does with an encoded message: a new writer, the line, and a flush. */
  method SendLine(m: Bytes) returns (writes: seq<Bytes>)
    ensures writes == Chunks(m + [NEWLINE]) && Flatten(writes) == m + [10]
    ensures writes != [] && |writes[|writes| - 1]| <= 4096
    ensures forall i | 0 <= i < |writes| - 1 :: |writes[i]| == 4096
    ensures |m| <= 4095 ==> writes == [m + [10]]
  {
    var w := new Writer();
    w.WriteString(m + [NEWLINE]);
    ChunksExactly(m + [NEWLINE]);
    assert w.buffered == (w.writes + [w.buffered])[|w.writes|];
    w.Flush();
    writes := w.writes;
  }

  // ----- Several writers on one connection -----

  /** A goroutine with the connection writes it still has to make for its message. */
  datatype Sender = Sender(msg: Bytes, left: seq<Bytes>)

  /** delivered lists the messages by their last successful write. */
  datatype Wire = Wire(stream: Bytes, senders: seq<Sender>, delivered: seq<Bytes>)

  datatype Event =
    | Begin(msg: Bytes)
    | Write(i: nat)
    | Fail(i: nat)  // a failed write delivers nothing, and its message is given up

  const QUIET := Wire([], [], [])

  predicate Enabled(w: Wire, e: Event) {
    match e
    case Begin(_) => true
    case Write(i) => i < |w.senders| && w.senders[i].left != []
    case Fail(i) => i < |w.senders| && w.senders[i].left != []
  }

  function Apply(w: Wire, e: Event): Wire
    requires Enabled(w, e)
  {
    match e
    case Begin(m) => w.(senders := w.senders + [Sender(m, Chunks(m + [NEWLINE]))])
    case Write(i) =>
      var s := w.senders[i];
      Wire(w.stream + s.left[0],
           w.senders[i := s.(left := s.left[1..])],
           if |s.left| == 1 then w.delivered + [s.msg] else w.delivered)
    case Fail(i) => w.(senders := w.senders[i := w.senders[i].(left := [])])
  }

  function Run(es: seq<Event>): Option<Wire> {
    if es == [] then Some(QUIET)
    else
      var prev := Run(es[..|es| - 1]);
      if prev.Some? && Enabled(prev.value, es[|es| - 1])
      then Some(Apply(prev.value, es[|es| - 1])) else None
  }

  /** Every message of the run is newline-free and fits the buffer with its newline. */
  ghost predicate Framed(es: seq<Event>) {
    forall k | 0 <= k < |es| && es[k].Begin? :: NEWLINE !in es[k].msg && Fits(es[k].msg)
  }

  ghost predicate Inv(w: Wire) {
    && Lines(w.stream) == w.delivered && Tail(w.stream) == []
    && forall i | 0 <= i < |w.senders| ::
         || w.senders[i].left == []
         || (w.senders[i].left == [w.senders[i].msg + [NEWLINE]] && NEWLINE !in w.senders[i].msg)
  }

  lemma InvStep(w: Wire, e: Event)
    requires Inv(w) && Enabled(w, e)
    requires e.Begin? ==> NEWLINE !in e.msg && Fits(e.msg)
    ensures Inv(Apply(w, e))
  {
    match e
    case Write(i) =>
      FrameEnds(w.stream, w.senders[i].msg);
      assert [] + w.senders[i].msg == w.senders[i].msg;
    case _ =>
  }

  /**
   For any interleaving of senders and heartbeats, splitting the stream at newlines gives back the
   written messages in write order, with nothing left over.
   */
  lemma {:induction false} RoundTrip(es: seq<Event>, w: Wire)
    requires Run(es) == Some(w) && Framed(es)
    ensures Lines(w.stream) == w.delivered && Tail(w.stream) == []
    ensures Inv(w)
  {
    if es != [] {
      var l := |es| - 1;
      assert forall k | 0 <= k < l :: es[..l][k] == es[k];
      RoundTrip(es[..l], Run(es[..l]).value);
      InvStep(Run(es[..l]).value, es[l]);
    }
  }

  /** What a reader has of the stream so far gives a prefix of the messages, in order. */
  lemma PrefixRoundTrip(es: seq<Event>, w: Wire, got: Bytes)
    requires Run(es) == Some(w) && Framed(es)
    requires got <= w.stream
    ensures Lines(got) <= w.delivered
  {
    RoundTrip(es, w);
    PrefixLines(got, w.stream[|got|..]);
    assert got + w.stream[|got|..] == w.stream;
  }

  // ----- Encoded values -----

  function EncodeAll<M>(ms: seq<M>, encode: M -> Bytes): (r: seq<Bytes>)
    ensures |r| == |ms| && forall i | 0 <= i < |ms| :: r[i] == encode(ms[i])
  {
    seq(|ms|, i requires 0 <= i < |ms| => encode(ms[i]))
  }

  /** The values a reader decodes, lines that do not decode skipped. */
  function DecodeAll<M>(lines: seq<Bytes>, decode: Bytes -> Option<M>): seq<M> {
    if lines == [] then []
    else
      var d := decode(lines[|lines| - 1]);
      DecodeAll(lines[..|lines| - 1], decode) + if d.Some? then [d.value] else []
  }

  /** With a codec that round-trips, what is decoded from any prefix is a prefix of what was written. */
  lemma {:induction false} DecodedPrefix<M>(lines: seq<Bytes>, ms: seq<M>, encode: M -> Bytes,
                                            decode: Bytes -> Option<M>)
    requires forall m: M | m in ms :: decode(encode(m)) == Some(m)
    requires lines <= EncodeAll(ms, encode)
    ensures DecodeAll(lines, decode) == ms[..|lines|]
  {
    if lines != [] {
      var l := |lines| - 1;
      DecodedPrefix(lines[..l], ms, encode, decode);
      assert lines[l] == encode(ms[l]) && ms[l] in ms;
    }
  }

  /** A line that does not decode is skipped, and nothing else is. */
  lemma {:induction false} DecodeSkips<M>(a: seq<Bytes>, line: Bytes, b: seq<Bytes>, decode: Bytes -> Option<M>)
    ensures DecodeAll(a + [line] + b, decode)
         == DecodeAll(a, decode) + (if decode(line).Some? then [decode(line).value] else []) + DecodeAll(b, decode)
  {
    if b == [] {
      assert a + [line] + b == a + [line];
      assert (a + [line])[..|a|] == a;
    } else {
      var l := |b| - 1;
      DecodeSkips(a, line, b[..l], decode);
      assert (a + [line] + b)[..|a| + 1 + l] == a + [line] + b[..l];
    }
  }

  // ----- Reading in any chunks -----

  /** A line reader: the open line, and the lines read so far. */
  class LineReader {
    var lines: seq<Bytes>
    var rest: Bytes
    ghost var seen: Bytes

    ghost predicate Valid()
      reads this
    {
      lines == Lines(seen) && rest == Tail(seen)
    }

    constructor ()
      ensures Valid() && seen == []
    {
      lines, rest, seen := [], [], [];
    }

    method Take(b: Byte)
      requires Valid()
      modifies this
      ensures Valid() && seen == old(seen) + [b]
    {
      OneMore(seen, b);
      hide Lines;
      hide Tail;
      if b == NEWLINE {
        lines, rest := lines + [rest], [];
      } else {
        rest := rest + [b];
      }
      seen := seen + [b];
    }

    method Feed(chunk: Bytes)
      requires Valid()
      modifies this
      ensures Valid() && seen == old(seen) + chunk
    {
      hide Lines;
      hide Tail;
      for j := 0 to |chunk|
        invariant Valid() && seen == old(seen) + chunk[..j]
      {
        Take(chunk[j]);
      }
    }
  }

  /** Reading line by line gives the same lines whatever chunks the connection hands over. */
  method ReadLines(chunks: seq<Bytes>) returns (lines: seq<Bytes>, rest: Bytes)
    ensures lines == Lines(Flatten(chunks)) && rest == Tail(Flatten(chunks))
  {
    var reader := new LineReader();
    for i := 0 to |chunks|
      invariant reader.Valid() && fresh(reader) && reader.seen == Flatten(chunks[..i])
    {
      reader.Feed(chunks[i]);
      FlattenAppend(chunks[..i], chunks[i]);
      assert chunks[..i + 1] == chunks[..i] + [chunks[i]];
    }
    assert chunks[..|chunks|] == chunks;
    lines, rest := reader.lines, reader.rest;
  }

  // ----- The condition is exact -----

  /** Only these messages are written in the run. */
  ghost predicate Only(es: seq<Event>, messages: set<Bytes>) {
    forall k | 0 <= k < |es| && es[k].Begin? :: es[k].msg in messages
  }

  lemma Extend(es0: seq<Event>, w0: Wire, e: Event, ms: set<Bytes>) returns (es: seq<Event>, w: Wire)
    requires Run(es0) == Some(w0) && Enabled(w0, e) && Only(es0, ms)
    requires e.Begin? ==> e.msg in ms
    ensures Run(es) == Some(w) && w == Apply(w0, e) && Only(es, ms)
  {
    es, w := es0 + [e], Apply(w0, e);
    assert es[..|es| - 1] == es0;
  }

  /** Sender i makes the rest of its writes undisturbed. */
  lemma {:induction false} Drain(es0: seq<Event>, w0: Wire, i: nat, data: Bytes, ms: set<Bytes>)
    returns (es: seq<Event>, w: Wire)
    requires Run(es0) == Some(w0) && Only(es0, ms)
    requires i < |w0.senders| && w0.senders[i].left == Chunks(data)
    ensures Run(es) == Some(w) && Only(es, ms) && w.stream == w0.stream + data
    ensures w.senders == w0.senders[i := w0.senders[i].(left := [])]
    ensures w.delivered == w0.delivered + [w0.senders[i].msg]
    decreases |data|
  {
    hide Run;
    hide Only;
    es, w := Extend(es0, w0, Write(i), ms);
    var s := w0.senders[i];
    if |data| > BUFFER {
      assert w.senders == w0.senders[i := s.(left := Chunks(data[BUFFER..]))];
      es, w := Drain(es, w, i, data[BUFFER..], ms);
      assert data == data[..BUFFER] + data[BUFFER..];
    } else {
      assert s.left == [data] && s.left[1..] == [];
      assert w.senders == w0.senders[i := s.(left := [])];
    }
  }

  /** What is left to write of a line after its first connection write. */
  function Remaining(m: Bytes): seq<Bytes> {
    Chunks(m + [NEWLINE])[1..]
  }

  lemma FirstChunk(m: Bytes)
    ensures Fits(m) ==> Chunks(m + [NEWLINE]) == [m + [NEWLINE]] && Remaining(m) == []
    ensures !Fits(m) ==> Chunks(m + [NEWLINE])[0] == m[..BUFFER] && Remaining(m) == Chunks(m[BUFFER..] + [NEWLINE])
  {
    if !Fits(m) {
      assert (m + [NEWLINE])[..BUFFER] == m[..BUFFER];
      assert (m + [NEWLINE])[BUFFER..] == m[BUFFER..] + [NEWLINE];
    }
  }

  lemma NothingRun(ms: set<Bytes>)
    ensures Run([]) == Some(QUIET) && Only([], ms)
  {
  }

  /** Two goroutines have each made the first connection write of their message. */
  lemma BothStarted(m: Bytes, p: Bytes) returns (es: seq<Event>, w: Wire)
    requires !Fits(m)
    ensures Run(es) == Some(w) && Only(es, {m, p})
    ensures w.senders == [Sender(m, Remaining(m)), Sender(p, Remaining(p))]
    ensures w.stream == m[..BUFFER] + Chunks(p + [NEWLINE])[0]
    ensures w.delivered == if Fits(p) then [p] else []
  {
    NothingRun({m, p});
    FirstChunk(m);
    FirstChunk(p);
    hide Run;
    hide Only;
    es, w := Extend([], QUIET, Begin(m), {m, p});
    es, w := Extend(es, w, Begin(p), {m, p});
    assert w.senders == [Sender(m, Chunks(m + [NEWLINE])), Sender(p, Chunks(p + [NEWLINE]))];
    es, w := Extend(es, w, Write(0), {m, p});
    es, w := Extend(es, w, Write(1), {m, p});
  }

  lemma TornLines(head: Bytes, p: Bytes, rest: Bytes)
    requires NEWLINE !in head && NEWLINE !in p && NEWLINE !in rest
    ensures Lines(head + (p + [NEWLINE]) + (rest + [NEWLINE])) == [head + p, rest]
  {
    NoNewline([], head);
    assert [] + head == head;
    FrameEnds(head, p);
    FrameEnds(head + (p + [NEWLINE]), rest);
    assert [] + rest == rest;
  }

  /** A message that fits comes between the first write of one that does not and the rest of it. */
  lemma TornByShort(m: Bytes, p: Bytes) returns (es: seq<Event>, w: Wire)
    requires NEWLINE !in m && NEWLINE !in p && !Fits(m) && Fits(p)
    ensures Run(es) == Some(w) && Only(es, {m, p}) && w.delivered == [p, m]
    ensures Lines(w.stream) == [m[..BUFFER] + p, m[BUFFER..]]
  {
    es, w := BothStarted(m, p);
    FirstChunk(m);
    FirstChunk(p);
    es, w := Drain(es, w, 0, m[BUFFER..] + [NEWLINE], {m, p});
    TornLines(m[..BUFFER], p, m[BUFFER..]);
  }

  /** Two messages that do not fit, written alternately. */
  lemma TornByLong(m: Bytes, p: Bytes) returns (es: seq<Event>, w: Wire)
    requires NEWLINE !in m && NEWLINE !in p && !Fits(m) && !Fits(p)
    ensures Run(es) == Some(w) && Only(es, {m, p}) && w.delivered == [m, p]
    ensures Lines(w.stream) == [m[..BUFFER] + p[..BUFFER] + m[BUFFER..], p[BUFFER..]]
  {
    es, w := BothStarted(m, p);
    FirstChunk(m);
    FirstChunk(p);
    es, w := Drain(es, w, 0, m[BUFFER..] + [NEWLINE], {m, p});
    es, w := Drain(es, w, 1, p[BUFFER..] + [NEWLINE], {m, p});
    TornLines(m[..BUFFER] + p[..BUFFER], m[BUFFER..], p[BUFFER..]);
  }

  lemma OnlyMore(es: seq<Event>, ms: set<Bytes>, more: set<Bytes>)
    requires Only(es, ms) && ms <= more
    ensures Only(es, more)
  {
  }

  /**
   A message that does not fit can be torn, by a heartbeat or by another message of its length: it is
   written completely, but the reader does not get it back.
   */
  lemma TooLongTears(m: Bytes, other: Bytes, heartbeat: Bytes) returns (es: seq<Event>, w: Wire)
    requires NEWLINE !in m && NEWLINE !in other && NEWLINE !in heartbeat
    requires !Fits(m) && |other| == |m| && heartbeat != [] && Fits(heartbeat)
    ensures Run(es) == Some(w) && Only(es, {m, other, heartbeat})
    ensures m in w.delivered && m !in Lines(w.stream)
  {
    if |m| - BUFFER != |heartbeat| {
      es, w := TornByShort(m, heartbeat);
      OnlyMore(es, {m, heartbeat}, {m, other, heartbeat});
      assert |m[..BUFFER] + heartbeat| != |m| && |m[BUFFER..]| != |m|;
    } else {
      es, w := TornByLong(m, other);
      OnlyMore(es, {m, other}, {m, other, heartbeat});
      assert |m[..BUFFER] + other[..BUFFER] + m[BUFFER..]| != |m| && |other[BUFFER..]| != |m|;
    }
  }

  /** Whenever m is written completely in a run that writes only these messages, the reader gets it back. */
  ghost predicate Recovered(m: Bytes, messages: set<Bytes>) {
    forall es, w | Run(es) == Some(w) && Only(es, messages) && m in w.delivered :: m in Lines(w.stream)
  }

  /**
   Beside heartbeats and another message of the same length, such as the same text under another
   request ID, a newline-free message is safe in every interleaving exactly when it fits the buffer.
   */
  lemma FramingExact(m: Bytes, other: Bytes, heartbeat: Bytes)
    requires 10 !in m && 10 !in other && 10 !in heartbeat
    requires |other| == |m| && heartbeat != [] && Fits(heartbeat)
    ensures Recovered(m, {m, other, heartbeat}) <==> |m| <= 4095
  {
    if Fits(m) {
      forall es, w | Run(es) == Some(w) && Only(es, {m, other, heartbeat}) && m in w.delivered
        ensures m in Lines(w.stream)
      {
        RoundTrip(es, w);
      }
    } else {
      var es, w := TooLongTears(m, other, heartbeat);
    }
  }
}
