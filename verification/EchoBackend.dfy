/**
 The echo backends: one process of numbered backends that approve every connection under a client ID
 of their own making, and answer every message to the client that sent it.
 */
module EchoBackend {
  import opened Sequences
  import opened Messages

  // ----- Client IDs -----

  const DIGITS: string := "0123456789"

  /** What %d prints. */
  function Decimal(n: nat): (r: string)
    ensures |r| >= 1 && (|r| == 1 <==> n < 10)
  {
    if n < 10 then [DIGITS[n]] else Decimal(n / 10) + [DIGITS[n % 10]]
  }

  lemma {:induction false} DecimalDigits(n: nat)
    ensures '-' !in Decimal(n)
  {
    if n >= 10 {
      DecimalDigits(n / 10);
      assert DIGITS[n % 10] != '-';
    }
  }

  lemma DigitsDiffer(a: nat, b: nat)
    requires a < 10 && b < 10 && DIGITS[a] == DIGITS[b]
    ensures a == b
  {
  }

  lemma {:induction false} DecimalInjective(a: nat, b: nat)
    requires Decimal(a) == Decimal(b)
    ensures a == b
  {
    var s, t := Decimal(a), Decimal(b);
    assert s[|s| - 1] == DIGITS[a % 10] && t[|t| - 1] == DIGITS[b % 10];
    DigitsDiffer(a % 10, b % 10);
    if a >= 10 {
      assert Decimal(a / 10) == s[..|s| - 1] && Decimal(b / 10) == t[..|t| - 1];
      DecimalInjective(a / 10, b / 10);
    }
  }

  /** The number that a string of decimal digits stands for. */
  function Value(s: string): int {
    if s == [] then 0 else 10 * Value(s[..|s| - 1]) + (s[|s| - 1] as int - '0' as int)
  }

  lemma DigitValue(d: nat)
    requires d < 10
    ensures DIGITS[d] as int - '0' as int == d
  {
  }

  /** The digits printed for n stand for n, and there is no leading zero. */
  lemma {:induction false} DecimalValue(n: nat)
    ensures Value(Decimal(n)) == n
    ensures n > 0 ==> Decimal(n)[0] != '0'
  {
    if n < 10 {
      DigitValue(n);
      assert [DIGITS[n]][..0] == [];
    } else {
      DecimalValue(n / 10);
      DigitValue(n % 10);
      var s := Decimal(n);
      assert s[..|s| - 1] == Decimal(n / 10) && s[|s| - 1] == DIGITS[n % 10];
    }
  }

  const PREFIX: string := "go-backend-"
  const SEPARATOR: string := "-client-"
  const ROOM: string := "load-test"

  function ClientId(backend: nat, counter: nat): string {
    PREFIX + Decimal(backend) + SEPARATOR + Decimal(counter)
  }

  lemma NoDashBefore(a: string, x: string, b: string, y: string)
    requires '-' !in b && x != [] && x[0] == '-'
    requires a + x == b + y
    ensures |b| <= |a|
  {
    assert (a + x)[|a|] == '-';
    assert forall k | 0 <= k < |b| :: (b + y)[k] in b;
  }

  /** A dash-free string followed by something that starts with a dash can be split in one way. */
  lemma SplitAtDash(a: string, x: string, b: string, y: string)
    requires '-' !in a && '-' !in b && x != [] && y != [] && x[0] == '-' && y[0] == '-'
    requires a + x == b + y
    ensures a == b && x == y
  {
    var s := a + x;
    NoDashBefore(a, x, b, y);
    NoDashBefore(b, y, a, x);
    assert a == s[..|a|] && b == s[..|b|] && x == s[|a|..] && y == s[|b|..];
  }

  lemma CutFront(p: string, x: string, y: string)
    requires p + x == p + y
    ensures x == y
  {
    assert x == (p + x)[|p|..] && y == (p + y)[|p|..];
  }

  /** Different backend numbers or counters give different client IDs. */
  lemma ClientIdsUnique(b: nat, n: nat, c: nat, m: nat)
    requires ClientId(b, n) == ClientId(c, m)
    ensures b == c && n == m
  {
    hide Decimal;
    var x, y := SEPARATOR + Decimal(n), SEPARATOR + Decimal(m);
    assert ClientId(b, n) == PREFIX + (Decimal(b) + x);
    assert ClientId(c, m) == PREFIX + (Decimal(c) + y);
    CutFront(PREFIX, Decimal(b) + x, Decimal(c) + y);
    DecimalDigits(b);
    DecimalDigits(c);
    SplitAtDash(Decimal(b), x, Decimal(c), y);
    CutFront(SEPARATOR, Decimal(n), Decimal(m));
    DecimalInjective(b, c);
    DecimalInjective(n, m);
  }

  // ----- What a backend answers -----

  /** The counter after one request. */
  function Counted(counter: nat, q: BackendRequest): nat {
    if q.action.ConnectionRequest? then counter + 1 else counter
  }

  /** The answer of a backend whose counter stands at counter, if it gives one. */
  function Reply(backend: nat, counter: nat, q: BackendRequest): Option<ServerRequest> {
    match q.action
    case ConnectionRequest =>
      Some(ServerRequest(q.requestID, Response(true, ClientId(backend, counter + 1), ROOM)))
    case NewMessage(client, message) =>
      Some(ServerRequest(q.requestID, MessageToConnection(client, message)))
    case _ => None
  }

  /** The counter after a sequence of lines, None standing for one that does not decode. */
  function CountedAll(counter: nat, lines: seq<Option<BackendRequest>>): nat {
    if lines == [] then counter
    else
      var c := CountedAll(counter, lines[..|lines| - 1]);
      if lines[|lines| - 1].Some? then Counted(c, lines[|lines| - 1].value) else c
  }

  /** What a backend writes; the sends for the lines in failing give an error and write nothing. */
  function ReplyAll(backend: nat, counter: nat, lines: seq<Option<BackendRequest>>, failing: set<nat>)
    : seq<ServerRequest>
  {
    if lines == [] then []
    else
      var l := |lines| - 1;
      ReplyAll(backend, counter, lines[..l], failing)
      + if lines[l].None? || l in failing then []
        else
          var r := Reply(backend, CountedAll(counter, lines[..l]), lines[l].value);
          if r.Some? then [r.value] else []
  }

  /** How many of the lines are texts. */
  function Texts(lines: seq<Option<BackendRequest>>): nat {
    if lines == [] then 0
    else
      var l := lines[|lines| - 1];
      Texts(lines[..|lines| - 1]) + if l.Some? && l.value.action.NewMessage? then 1 else 0
  }

  lemma OneMoreLine(backend: nat, counter: nat, lines: seq<Option<BackendRequest>>, failing: set<nat>, i: nat)
    requires i < |lines|
    ensures var before, c := lines[..i], CountedAll(counter, lines[..i]);
      && CountedAll(counter, lines[..i + 1]) == (if lines[i].Some? then Counted(c, lines[i].value) else c)
      && Texts(lines[..i + 1]) == Texts(before) + (if lines[i].Some? && lines[i].value.action.NewMessage? then 1 else 0)
      && ReplyAll(backend, counter, lines[..i + 1], failing)
         == ReplyAll(backend, counter, before, failing)
            + (if lines[i].Some? && i !in failing && Reply(backend, c, lines[i].value).Some?
               then [Reply(backend, c, lines[i].value).value] else [])
  {
    assert lines[..i + 1][..i] == lines[..i];
  }

  // ----- What is answered, said of the lines -----

  /** How many of the lines are connection requests. */
  function Approvals(lines: seq<Option<BackendRequest>>): nat {
    if lines == [] then 0
    else
      var l := |lines| - 1;
      Approvals(lines[..l]) + if lines[l].Some? && lines[l].value.action.ConnectionRequest? then 1 else 0
  }

  /** The line asks for an answer, and its send does not fail. */
  predicate Answerable(lines: seq<Option<BackendRequest>>, failing: set<nat>, i: nat)
    requires i < |lines|
  {
    && i !in failing && lines[i].Some?
    && (lines[i].value.action.ConnectionRequest? || lines[i].value.action.NewMessage?)
  }

  /** r approves the connection asked for by line i, under a client ID of its own. */
  ghost predicate Approves(number: nat, counter: nat, lines: seq<Option<BackendRequest>>, i: nat, r: ServerRequest)
    requires i < |lines| && lines[i].Some?
  {
    var client := "go-backend-" + Decimal(number) + "-client-" + Decimal(counter + Approvals(lines[..i + 1]));
    r == ServerRequest(lines[i].value.requestID, Response(true, client, "load-test"))
  }

  /** r sends the text of line i back to the client that said it. */
  ghost predicate Returns(lines: seq<Option<BackendRequest>>, i: nat, r: ServerRequest)
    requires i < |lines| && lines[i].Some? && lines[i].value.action.NewMessage?
  {
    var action := lines[i].value.action;
    r == ServerRequest(lines[i].value.requestID, MessageToConnection(action.clientID, action.message))
  }

  /** r is the answer to line i. */
  ghost predicate AnswersLine(number: nat, counter: nat, lines: seq<Option<BackendRequest>>, i: nat, r: ServerRequest)
    requires i < |lines| && lines[i].Some?
  {
    if lines[i].value.action.NewMessage? then Returns(lines, i, r) else Approves(number, counter, lines, i, r)
  }

  /**
   The answers are one for each line at the positions p, in order, and p are the lines to be answered among
   the first m.
   */
  ghost predicate Picks(p: seq<nat>, number: nat, counter: nat, lines: seq<Option<BackendRequest>>,
                        failing: set<nat>, answers: seq<ServerRequest>, m: nat)
    requires m <= |lines|
  {
    && |p| == |answers|
    && (forall j, k | 0 <= j < k < |p| :: p[j] < p[k])
    && (forall k | 0 <= k < |p| :: p[k] < m && Answerable(lines, failing, p[k]))
    && (forall k | 0 <= k < |p| :: lines[p[k]].Some? && AnswersLine(number, counter, lines, p[k], answers[k]))
    && (forall i | 0 <= i < m && Answerable(lines, failing, i) :: i in p)
  }

  lemma {:induction false} CountedExactly(counter: nat, lines: seq<Option<BackendRequest>>)
    ensures CountedAll(counter, lines) == counter + Approvals(lines)
  {
    if lines != [] {
      CountedExactly(counter, lines[..|lines| - 1]);
    }
  }

  /** What line i adds to the answers. */
  lemma LineAnswered(number: nat, counter: nat, lines: seq<Option<BackendRequest>>, failing: set<nat>, i: nat)
    requires i < |lines|
    ensures
      var before := ReplyAll(number, counter, lines[..i], failing);
      var after := ReplyAll(number, counter, lines[..i + 1], failing);
      if Answerable(lines, failing, i)
      then |after| == |before| + 1 && after[..|before|] == before && lines[i].Some?
           && AnswersLine(number, counter, lines, i, after[|before|])
      else after == before
  {
    CountedExactly(counter, lines[..i]);
    assert lines[..i + 1][..i] == lines[..i];
    OneMoreLine(number, counter, lines, failing, i);
  }

  lemma PicksMore(p: seq<nat>, number: nat, counter: nat, lines: seq<Option<BackendRequest>>,
                  failing: set<nat>, answers: seq<ServerRequest>, m: nat, r: ServerRequest)
    requires m < |lines| && Picks(p, number, counter, lines, failing, answers, m)
    requires Answerable(lines, failing, m) && lines[m].Some? && AnswersLine(number, counter, lines, m, r)
    ensures Picks(p + [m], number, counter, lines, failing, answers + [r], m + 1)
  {
    hide Answerable;
    hide AnswersLine;
    var p' := p + [m];
    assert p'[|p|] == m;
    forall i | 0 <= i < m + 1 && Answerable(lines, failing, i)
      ensures i in p'
    {
      assert i < m ==> i in p;
    }
  }

  lemma PicksSame(p: seq<nat>, number: nat, counter: nat, lines: seq<Option<BackendRequest>>,
                  failing: set<nat>, answers: seq<ServerRequest>, m: nat)
    requires m < |lines| && Picks(p, number, counter, lines, failing, answers, m)
    requires !Answerable(lines, failing, m)
    ensures Picks(p, number, counter, lines, failing, answers, m + 1)
  {
    hide Answerable;
    hide AnswersLine;
  }

  lemma {:induction false} RepliesPicked(number: nat, counter: nat, lines: seq<Option<BackendRequest>>,
                                          failing: set<nat>, m: nat)
    returns (p: seq<nat>)
    requires m <= |lines|
    ensures Picks(p, number, counter, lines, failing, ReplyAll(number, counter, lines[..m], failing), m)
  {
    if m == 0 {
      p := [];
    } else {
      p := RepliesPicked(number, counter, lines, failing, m - 1);
      LineAnswered(number, counter, lines, failing, m - 1);
      hide *;
      var before := ReplyAll(number, counter, lines[..m - 1], failing);
      var after := ReplyAll(number, counter, lines[..m], failing);
      if Answerable(lines, failing, m - 1) {
        PicksMore(p, number, counter, lines, failing, before, m - 1, after[|before|]);
        p := p + [m - 1];
        assert after == before + [after[|before|]];
      } else {
        PicksSame(p, number, counter, lines, failing, before, m - 1);
      }
    }
  }

  lemma TextsReturned(p: seq<nat>, number: nat, counter: nat, lines: seq<Option<BackendRequest>>,
                      failing: set<nat>, answers: seq<ServerRequest>)
    requires Picks(p, number, counter, lines, failing, answers, |lines|)
    ensures forall i | 0 <= i < |lines| && Answerable(lines, failing, i) && lines[i].value.action.NewMessage? ::
              var q := lines[i].value;
              ServerRequest(q.requestID, MessageToConnection(q.action.clientID, q.action.message)) in answers
  {
    forall i | 0 <= i < |lines| && Answerable(lines, failing, i) && lines[i].value.action.NewMessage?
      ensures var q := lines[i].value;
        ServerRequest(q.requestID, MessageToConnection(q.action.clientID, q.action.message)) in answers
    {
      var k :| 0 <= k < |p| && p[k] == i;
      assert AnswersLine(number, counter, lines, p[k], answers[k]);
    }
  }

  lemma ApprovalsReturned(p: seq<nat>, number: nat, counter: nat, lines: seq<Option<BackendRequest>>,
                          failing: set<nat>, answers: seq<ServerRequest>)
    requires Picks(p, number, counter, lines, failing, answers, |lines|)
    ensures forall i | 0 <= i < |lines| && Answerable(lines, failing, i) && lines[i].value.action.ConnectionRequest? ::
              exists r :: r in answers && Approves(number, counter, lines, i, r)
  {
    forall i | 0 <= i < |lines| && Answerable(lines, failing, i) && lines[i].value.action.ConnectionRequest?
      ensures exists r :: r in answers && Approves(number, counter, lines, i, r)
    {
      var k :| 0 <= k < |p| && p[k] == i;
      assert AnswersLine(number, counter, lines, p[k], answers[k]);
    }
  }

  /** One backend; sent is what it has written to its connection, in order. */
  class Backend {
    const number: nat
    var clientCounter: nat
    var msgCount: nat
    var sent: seq<ServerRequest>

    constructor (number: nat)
      ensures this.number == number && clientCounter == 0 && msgCount == 0 && sent == []
    {
      this.number := number;
      clientCounter, msgCount, sent := 0, 0, [];
    }

    /** send: the whole line is written under the backend's own mutex, or an error is returned. */
    method Send(q: ServerRequest, fails: bool) returns (ok: bool)
      modifies `sent
      ensures ok == !fails && sent == old(sent) + if ok then [q] else []
    {
      ok := !fails;
      if ok {
        sent := sent + [q];
      }
    }

    /** One round of Run, on a line that decodes. */
    method Answer(q: BackendRequest, fails: bool)
      modifies this
      ensures var r := Reply(number, old(clientCounter), q);
        sent == old(sent) + if r.Some? && !fails then [r.value] else []
      ensures clientCounter == Counted(old(clientCounter), q)
      ensures msgCount == old(msgCount) + if q.action.NewMessage? then 1 else 0
    {
      match q.action {
        case ConnectionRequest =>
          clientCounter := clientCounter + 1;
          var approval := Response(true, ClientId(number, clientCounter), ROOM);
          var _ := Send(ServerRequest(q.requestID, approval), fails);
        case NewMessage(client, message) =>
          msgCount := msgCount + 1;
          var _ := Send(ServerRequest(q.requestID, MessageToConnection(client, message)), fails);
        case _ =>
      }
    }

    /**
     Run over the lines of the connection, for any set of failing sends: every connection request and every
     text is answered once, in order, unless its send fails. An error of send is ignored, and the counter
     has moved on all the same.
     */
    method Run(lines: seq<Option<BackendRequest>>, failing: set<nat>)
      modifies this
      ensures old(sent) <= sent
      ensures exists p :: Picks(p, number, old(clientCounter), lines, failing, sent[|old(sent)|..], |lines|)
      ensures forall i | 0 <= i < |lines| && Answerable(lines, failing, i) && lines[i].value.action.NewMessage? ::
                var q := lines[i].value;
                ServerRequest(q.requestID, MessageToConnection(q.action.clientID, q.action.message))
                  in sent[|old(sent)|..]
      ensures forall i ::
                0 <= i < |lines| && Answerable(lines, failing, i) && lines[i].value.action.ConnectionRequest? ==>
                exists r :: r in sent[|old(sent)|..] && Approves(number, old(clientCounter), lines, i, r)
      ensures clientCounter == old(clientCounter) + Approvals(lines)
      ensures msgCount == old(msgCount) + Texts(lines)
    {
      for i := 0 to |lines|
        invariant sent == old(sent) + ReplyAll(number, old(clientCounter), lines[..i], failing)
        invariant clientCounter == CountedAll(old(clientCounter), lines[..i])
        invariant msgCount == old(msgCount) + Texts(lines[..i])
      {
        OneMoreLine(number, old(clientCounter), lines, failing, i);
        hide CountedAll;
        hide ReplyAll;
        hide Texts;
        if lines[i].Some? {
          Answer(lines[i].value, i in failing);
        }
      }
      assert lines[..|lines|] == lines;
      CountedExactly(old(clientCounter), lines);
      ghost var answers := ReplyAll(number, old(clientCounter), lines, failing);
      assert sent[|old(sent)|..] == answers;
      ghost var p := RepliesPicked(number, old(clientCounter), lines, failing, |lines|);
      TextsReturned(p, number, old(clientCounter), lines, failing, answers);
      ApprovalsReturned(p, number, old(clientCounter), lines, failing, answers);
    }
  }

  /** The lines to be answered that carry id. */
  function Asks(lines: seq<Option<BackendRequest>>, failing: set<nat>, id: RequestId): nat {
    if lines == [] then 0
    else
      var l := |lines| - 1;
      Asks(lines[..l], failing, id) + if Answerable(lines, failing, l) && lines[l].value.requestID == id then 1 else 0
  }

  function Answered(qs: seq<ServerRequest>, id: RequestId): nat {
    if qs == [] then 0
    else Answered(qs[..|qs| - 1], id) + if qs[|qs| - 1].requestID == id then 1 else 0
  }

  lemma AnsweredAppend(qs: seq<ServerRequest>, q: ServerRequest, id: RequestId)
    ensures Answered(qs + [q], id) == Answered(qs, id) + if q.requestID == id then 1 else 0
  {
    assert (qs + [q])[..|qs|] == qs;
  }

  /** A request is answered exactly as often as it is received on a line to be answered. */
  lemma {:induction false} AnswersExactly(backend: nat, counter: nat, lines: seq<Option<BackendRequest>>,
                                           failing: set<nat>, id: RequestId)
    ensures Answered(ReplyAll(backend, counter, lines, failing), id) == Asks(lines, failing, id)
  {
    if lines != [] {
      var l := |lines| - 1;
      AnswersExactly(backend, counter, lines[..l], failing, id);
      OneMoreLine(backend, counter, lines, failing, l);
      assert lines[..l + 1] == lines;
      hide ReplyAll;
      hide CountedAll;
      hide ClientId;
      hide Answered;
      var before := ReplyAll(backend, counter, lines[..l], failing);
      var r := if lines[l].Some? then Reply(backend, CountedAll(counter, lines[..l]), lines[l].value) else None;
      if r.Some? && l !in failing {
        AnsweredAppend(before, r.value, id);
      } else {
        assert ReplyAll(backend, counter, lines, failing) == before;
      }
    }
  }
}
