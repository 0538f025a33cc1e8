/**
 What the backends are told about clients: every onDisconnect request that is written names a client that
 was registered and taken off the index through an error of its own connection, and no client is named
 twice; in the same way every onConnectionSuccess request names a registered client, once.
 */
module EchoReports {
  import opened Sequences
  import opened Messages
  import Store
  import StoreConservation
  import Rendezvous
  import Hub
  import RoomIndex
  import HubFaults
  import opened EchoSystem
  import opened EchoProofs
  import EchoTheorems

  /** The requests of onDisconnect are those of the callbacks made, one each, in order. */
  ghost predicate Told(s: State) {
    && |s.told| == |s.hub.disconnected|
    && (forall i | 0 <= i < |s.told| :: s.told[i].action == Disconnected(s.hub.disconnected[i].clientID))
    && (forall m | m in s.store.hist.begun && m.action.Disconnected? :: m in s.told)
    && (forall m | m in s.told :: m in s.store.hist.begun)
  }

  /** The requests of onConnectionSuccess are one for each greeted client. */
  ghost predicate Welcomed(s: State) {
    && (forall c | c in s.welcomed ::
          && c < |s.hub.registered| && s.welcomed[c].action == NewConnection(s.hub.registered[c].clientID)
          && s.welcomed[c] in s.store.hist.begun)
    && (forall m | m in s.store.hist.begun && m.action.NewConnection? ::
          exists c :: c in s.welcomed && s.welcomed[c] == m)
  }

  /** What a step that is no callback begins. */
  lemma BegunOther(s: State, e: Event)
    requires Enabled(s, e) && !e.Report? && !e.Welcome?
    ensures var s' := Apply(s, e);
      && s'.told == s.told && s'.welcomed == s.welcomed && s'.hub.disconnected == s.hub.disconnected
      && forall m | m in s'.store.hist.begun :: m in s.store.hist.begun
           || (!m.action.Disconnected? && !m.action.NewConnection?)
  {
  }

  lemma BegunWelcome(s: State, c: nat, id: RequestId)
    requires Enabled(s, Welcome(c, id))
    ensures var s' := Apply(s, Welcome(c, id));
      && s'.told == s.told && s'.hub == s.hub && s'.welcomed == s.welcomed[c := Welcoming(s, c, id)]
      && c < |s.hub.registered| && c !in s.welcomed
      && s'.store.hist.begun == s.store.hist.begun + [Welcoming(s, c, id)]
  {
  }

  lemma BegunReport(s: State, k: nat, id: RequestId)
    requires Enabled(s, Report(k, id))
    ensures var s' := Apply(s, Report(k, id));
      && s'.told == s.told + [Reporting(s, k, id)] && s'.welcomed == s.welcomed
      && s'.hub.disconnected == s.hub.disconnected + [s.hub.notifying[k]]
      && s'.hub.registered == s.hub.registered
      && s'.store.hist.begun == s.store.hist.begun + [Reporting(s, k, id)]
  {
  }

  lemma OtherTold(s: State, s': State)
    requires Told(s) && Welcomed(s) && s.hub.registered <= s'.hub.registered
    requires s'.told == s.told && s'.welcomed == s.welcomed && s'.hub.disconnected == s.hub.disconnected
    requires forall m | m in s.store.hist.begun :: m in s'.store.hist.begun
    requires forall m | m in s'.store.hist.begun ::
               m in s.store.hist.begun || (!m.action.Disconnected? && !m.action.NewConnection?)
    ensures Told(s') && Welcomed(s')
  {
  }

  lemma WelcomeTold(s: State, c: nat, m: BackendRequest, s': State)
    requires Told(s) && Welcomed(s) && c < |s.hub.registered| && c !in s.welcomed
    requires m.action == NewConnection(s.hub.registered[c].clientID)
    requires s'.told == s.told && s'.hub == s.hub && s'.welcomed == s.welcomed[c := m]
    requires s'.store.hist.begun == s.store.hist.begun + [m]
    ensures Told(s') && Welcomed(s')
  {
    forall q | q in s'.store.hist.begun && q.action.NewConnection?
      ensures exists d :: d in s'.welcomed && s'.welcomed[d] == q
    {
      if q in s.store.hist.begun {
        var d :| d in s.welcomed && s.welcomed[d] == q;
        assert d in s'.welcomed && s'.welcomed[d] == q;
      } else {
        assert s'.welcomed[c] == q;
      }
    }
  }

  lemma ReportTold(s: State, c: RoomIndex.Client, m: BackendRequest, s': State)
    requires Told(s) && Welcomed(s) && m.action == Disconnected(c.clientID)
    requires s'.told == s.told + [m] && s'.welcomed == s.welcomed
    requires s'.hub.disconnected == s.hub.disconnected + [c] && s'.hub.registered == s.hub.registered
    requires s'.store.hist.begun == s.store.hist.begun + [m]
    ensures Told(s') && Welcomed(s')
  {
    assert m in s'.told;
  }

  lemma ReportStep(s: State, k: nat, id: RequestId)
    requires Told(s) && Welcomed(s) && Enabled(s, Report(k, id))
    ensures Told(Apply(s, Report(k, id))) && Welcomed(Apply(s, Report(k, id)))
  {
    hide Told;
    hide Welcomed;
    BegunReport(s, k, id);
    ReportTold(s, s.hub.notifying[k], Reporting(s, k, id), Apply(s, Report(k, id)));
  }

  lemma ToldStep(n: nat, s: State, e: Event)
    requires Parts(n, s) && Told(s) && Welcomed(s) && Enabled(s, e)
    ensures Told(Apply(s, e)) && Welcomed(Apply(s, e))
  {
    hide Told;
    hide Welcomed;
    if e.Report? {
      ReportStep(s, e.k, e.id);
    } else if e.Welcome? {
      BegunWelcome(s, e.conn, e.id);
      WelcomeTold(s, e.conn, Welcoming(s, e.conn, e.id), Apply(s, e));
    } else {
      Grows(n, s, e);
      BegunOther(s, e);
      hide Parts;
      hide Apply;
      hide Enabled;
      OtherTold(s, Apply(s, e));
    }
  }

  lemma {:induction false} ToldHolds(n: nat, es: seq<Event>, s: State)
    requires Reaches(n, es, s)
    ensures Told(s) && Welcomed(s)
  {
    if es != [] {
      var prev := Run(n, es[..|es| - 1]).value;
      ToldHolds(n, es[..|es| - 1], prev);
      EchoTheorems.InvHolds(n, es[..|es| - 1], prev);
      ToldStep(n, prev, es[|es| - 1]);
    }
  }

  /** A reported client: registered, taken off the index, through an error of its own connection. */
  ghost predicate Reported(s: Hub.State, c: RoomIndex.Client) {
    && c in s.registered && c in s.removed && c in s.disconnected
    && Hub.Connected(s, c) == 0 && c.conn in s.ended
  }

  lemma DisconnectedReported(n: nat, es: seq<Event>, s: State, c: RoomIndex.Client)
    requires Reaches(n, es, s) && c in s.hub.disconnected
    ensures Reported(s.hub, c) && Count(s.hub.disconnected, c) == 1
  {
    EchoTheorems.InvHolds(n, es, s);
    EchoTheorems.ClientIdsFresh(n, es, s);
    EchoTheorems.ReportsOwnFaults(n, es, s);
    Hub.DisconnectLedgerHolds(s.hubRun, s.hub, c);
    Hub.LedgerHolds(s.hubRun, s.hub, c);
    CountMember(s.hub.disconnected, c);
    CountMember(s.hub.removed, c);
  }

  /** Every onDisconnect call has started the sendMessage of a request that names its client. */
  lemma DisconnectsBegun(n: nat, es: seq<Event>, s: State, c: RoomIndex.Client)
    requires Reaches(n, es, s) && c in s.hub.disconnected
    ensures exists m :: m in s.store.hist.begun && m.action == Disconnected(c.clientID)
  {
    ToldHolds(n, es, s);
    var i :| 0 <= i < |s.hub.disconnected| && s.hub.disconnected[i] == c;
    assert s.told[i] in s.store.hist.begun;
  }

  lemma WrittenBegun(n: nat, es: seq<Event>, s: State, k: nat)
    requires Reaches(n, es, s) && k < |s.store.hist.written|
    ensures s.store.hist.written[k].msg in s.store.hist.begun
  {
    EchoTheorems.InvHolds(n, es, s);
    StoreConservation.AtMostOnce(n, s.storeRun, s.store);
  }

  /** Every disconnect request written to a backend names a client that was reported for its own fault. */
  lemma DisconnectsTrue(n: nat, es: seq<Event>, s: State, k: nat) returns (c: RoomIndex.Client)
    requires Reaches(n, es, s)
    requires k < |s.store.hist.written| && s.store.hist.written[k].msg.action.Disconnected?
    ensures Reported(s.hub, c) && s.store.hist.written[k].msg.action == Disconnected(c.clientID)
  {
    WrittenBegun(n, es, s, k);
    ToldHolds(n, es, s);
    var m := s.store.hist.written[k].msg;
    var i :| 0 <= i < |s.told| && s.told[i] == m;
    c := s.hub.disconnected[i];
    DisconnectedReported(n, es, s, c);
  }

  lemma {:induction false} TwiceCounts<T>(xs: seq<T>, i: nat, j: nat)
    requires i < j < |xs| && xs[i] == xs[j]
    ensures Count(xs, xs[i]) >= 2
  {
    assert xs == xs[..j] + xs[j..] && xs[..j][i] == xs[i] && xs[j..][0] == xs[j];
    CountConcat(xs[..j], xs[j..], xs[i]);
    CountMember(xs[..j], xs[i]);
    CountMember(xs[j..], xs[i]);
  }

  lemma DistinctRegistered(s: Hub.State, c: RoomIndex.Client, d: RoomIndex.Client)
    requires Hub.DistinctIDs(s.registered) && c in s.registered && d in s.registered && c.clientID == d.clientID
    ensures c == d
  {
    var i :| 0 <= i < |s.registered| && s.registered[i] == c;
    var j :| 0 <= j < |s.registered| && s.registered[j] == d;
  }

  /** Two onDisconnect requests name different clients. */
  lemma ToldDiffer(n: nat, es: seq<Event>, s: State, i: nat, j: nat)
    requires Reaches(n, es, s) && Told(s) && i < j < |s.told|
    ensures s.told[i].action != s.told[j].action
  {
    var c, d := s.hub.disconnected[i], s.hub.disconnected[j];
    DisconnectedReported(n, es, s, c);
    DisconnectedReported(n, es, s, d);
    if c.clientID == d.clientID {
      EchoTheorems.ClientIdsFresh(n, es, s);
      DistinctRegistered(s.hub, c, d);
      TwiceCounts(s.hub.disconnected, i, j);
    }
  }

  /** No client's disconnect is written to the backends twice. */
  lemma DisconnectsOnce(n: nat, es: seq<Event>, s: State, k: nat, l: nat)
    requires Reaches(n, es, s) && k < l < |s.store.hist.written|
    requires s.store.hist.written[k].msg.action.Disconnected?
    ensures s.store.hist.written[k].msg.action != s.store.hist.written[l].msg.action
  {
    WrittenBegun(n, es, s, k);
    WrittenBegun(n, es, s, l);
    ToldHolds(n, es, s);
    EchoTheorems.InvHolds(n, es, s);
    StoreConservation.AtMostOnce(n, s.storeRun, s.store);
    var a, b := s.store.hist.written[k].msg, s.store.hist.written[l].msg;
    if b.action.Disconnected? {
      var i :| 0 <= i < |s.told| && s.told[i] == a;
      var j :| 0 <= j < |s.told| && s.told[j] == b;
      assert i != j;
      if i < j {
        ToldDiffer(n, es, s, i, j);
      } else {
        ToldDiffer(n, es, s, j, i);
      }
    }
  }

  /** Every connection-success request written to a backend names a registered client, and no two the same. */
  lemma WelcomesOnce(n: nat, es: seq<Event>, s: State, k: nat, l: nat)
    requires Reaches(n, es, s) && k < |s.store.hist.written| && l < |s.store.hist.written|
    requires s.store.hist.written[k].msg.action.NewConnection? && s.store.hist.written[l].msg.action.NewConnection?
    ensures exists c :: c in s.hub.registered && s.store.hist.written[k].msg.action == NewConnection(c.clientID)
    ensures k != l ==> s.store.hist.written[k].msg.action != s.store.hist.written[l].msg.action
  {
    WrittenBegun(n, es, s, k);
    WrittenBegun(n, es, s, l);
    ToldHolds(n, es, s);
    EchoTheorems.InvHolds(n, es, s);
    EchoTheorems.ClientIdsFresh(n, es, s);
    StoreConservation.AtMostOnce(n, s.storeRun, s.store);
    hide EchoTheorems.Inv;
    hide Told;
    var a, b := s.store.hist.written[k].msg, s.store.hist.written[l].msg;
    var c :| c in s.welcomed && s.welcomed[c] == a;
    var d :| d in s.welcomed && s.welcomed[d] == b;
    assert s.hub.registered[c] in s.hub.registered;
    if k != l {
      assert c != d;
      if c < d {
        Hub.Differ(s.hub.registered, c, d);
      } else {
        Hub.Differ(s.hub.registered, d, c);
      }
    }
  }

  // ----- Error reports of failed calls -----

  function Complaints(ms: seq<BackendRequest>): nat {
    if ms == [] then 0 else Complaints(ms[..|ms| - 1]) + if ms[|ms| - 1].action.ErrorReport? then 1 else 0
  }

  ghost predicate AllFailed(s: Rendezvous.State, who: set<nat>) {
    forall w | w in who :: w < |s.waiters| && s.waiters[w].pc.Failed?
  }

  /** The error reports begun are one for each call that has complained, and these have failed. */
  ghost predicate Complained(s: State) {
    Complaints(s.store.hist.begun) == |s.complained| && AllFailed(s.rv, s.complained)
  }

  lemma ComplaintsAppend(ms: seq<BackendRequest>, m: BackendRequest)
    ensures Complaints(ms + [m]) == Complaints(ms) + if m.action.ErrorReport? then 1 else 0
  {
    assert (ms + [m])[..|ms|] == ms;
  }

  lemma BegunOnlyByBegin(s: Store.State, e: Store.Event)
    requires Store.Enabled(s, e)
    ensures Store.Apply(s, e).hist.begun == s.hist.begun + if e.Begin? then [e.msg] else []
  {
  }

  /** The request that a step begins, if it begins one. */
  function Beginning(s: State, e: Event): seq<BackendRequest>
    requires Enabled(s, e)
  {
    match e
    case Ask(w) => [Asking(s, w)]
    case Say(c, id, text) => [Saying(s, c, id, text)]
    case Complain(w, id) => [BackendRequest(id, ErrorReport)]
    case Welcome(c, id) => [Welcoming(s, c, id)]
    case Report(k, id) => [Reporting(s, k, id)]
    case _ => []
  }

  lemma CallBegins(s: State, e: Event)
    requires Enabled(s, e) && (e.Ask? || e.Say? || e.Complain? || e.Welcome? || e.Report?)
    ensures Apply(s, e).store.hist.begun == s.store.hist.begun + Beginning(s, e)
    ensures Apply(s, e).complained == s.complained + if e.Complain? then {e.w} else {}
  {
    hide Store.Apply;
    hide Store.Enabled;
    hide Hub.Apply;
    match e
    case Ask(w) => BegunOnlyByBegin(s.store, Store.Begin(Asking(s, w)));
    case Say(c, id, text) => BegunOnlyByBegin(s.store, Store.Begin(Saying(s, c, id, text)));
    case Complain(_, id) => BegunOnlyByBegin(s.store, Store.Begin(BackendRequest(id, ErrorReport)));
    case Welcome(c, id) => BegunOnlyByBegin(s.store, Store.Begin(Welcoming(s, c, id)));
    case Report(k, id) => BegunOnlyByBegin(s.store, Store.Begin(Reporting(s, k, id)));
  }

  lemma RegionBegins(s: State, e: Event)
    requires Enabled(s, e) && (e.Asked? || e.Server?)
    ensures Apply(s, e).store.hist.begun == s.store.hist.begun + Beginning(s, e)
    ensures Apply(s, e).complained == s.complained + if e.Complain? then {e.w} else {}
  {
    BegunOnlyByBegin(s.store, e.region);
    hide Store.Apply;
    hide Rendezvous.Apply;
  }

  lemma Begins(s: State, e: Event)
    requires Enabled(s, e)
    ensures Apply(s, e).store.hist.begun == s.store.hist.begun + Beginning(s, e)
    ensures Apply(s, e).complained == s.complained + if e.Complain? then {e.w} else {}
  {
    hide Store.Apply;
    hide Store.Enabled;
    hide Rendezvous.Apply;
    hide Hub.Apply;
    if e.Ask? || e.Say? || e.Complain? || e.Welcome? || e.Report? {
      CallBegins(s, e);
    } else if e.Asked? || e.Server? {
      RegionBegins(s, e);
    }
  }

  /** At most one request, and an error report only for a failed call that has not complained. */
  lemma BeginningComplains(s: State, e: Event)
    requires Enabled(s, e)
    ensures |Beginning(s, e)| <= 1
    ensures e.Complain? <==> Beginning(s, e) != [] && Beginning(s, e)[0].action.ErrorReport?
    ensures e.Complain? ==> e.w !in s.complained && e.w < |s.rv.waiters| && s.rv.waiters[e.w].pc.Failed?
  {
  }

  lemma FailedStays(s: Rendezvous.State, s': Rendezvous.State, who: set<nat>)
    requires AllFailed(s, who) && RvGrown(s, s')
    ensures AllFailed(s', who)
  {
    hide Rendezvous.LookedUp;
  }

  lemma CountsKept(begun: seq<BackendRequest>, more: seq<BackendRequest>, before: set<nat>, who: set<nat>)
    requires Complaints(begun) == |before| && who !! before
    requires |more| <= 1 && |who| == (if more != [] && more[0].action.ErrorReport? then 1 else 0)
    ensures Complaints(begun + more) == |before + who|
  {
    if more == [] {
      assert begun + more == begun;
    } else {
      assert more == [more[0]];
      ComplaintsAppend(begun, more[0]);
    }
  }

  lemma ComplainedKept(s: State, s': State, more: seq<BackendRequest>, who: set<nat>)
    requires Complained(s) && RvGrown(s.rv, s'.rv)
    requires s'.store.hist.begun == s.store.hist.begun + more && s'.complained == s.complained + who
    requires |more| <= 1 && |who| == (if more != [] && more[0].action.ErrorReport? then 1 else 0)
    requires who !! s.complained && AllFailed(s.rv, who)
    ensures Complained(s')
  {
    CountsKept(s.store.hist.begun, more, s.complained, who);
    FailedStays(s.rv, s'.rv, s.complained);
    FailedStays(s.rv, s'.rv, who);
    hide RvGrown;
    hide Complaints;
  }

  lemma ComplainedStep(n: nat, s: State, e: Event)
    requires Parts(n, s) && Complained(s) && Enabled(s, e)
    ensures Complained(Apply(s, e))
  {
    hide Apply;
    hide Parts;
    hide Complained;
    hide RvGrown;
    Grows(n, s, e);
    Begins(s, e);
    BeginningComplains(s, e);
    hide Enabled;
    hide Beginning;
    ComplainedKept(s, Apply(s, e), Beginning(s, e), if e.Complain? then {e.w} else {});
  }

  /** Every failed call reports its error at most once, and nothing else reports one. */
  lemma {:induction false} ComplaintsExactly(n: nat, es: seq<Event>, s: State)
    requires Reaches(n, es, s)
    ensures Complaints(s.store.hist.begun) == |s.complained|
    ensures forall w | w in s.complained :: w < |s.rv.waiters| && s.rv.waiters[w].pc.Failed?
    ensures Complained(s)
  {
    if es != [] {
      var prev := Run(n, es[..|es| - 1]).value;
      ComplaintsExactly(n, es[..|es| - 1], prev);
      EchoTheorems.InvHolds(n, es[..|es| - 1], prev);
      ComplainedStep(n, prev, es[|es| - 1]);
    }
  }
}
