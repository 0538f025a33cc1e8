/**
 The two slices of the TCP server, Clients and messageQueue, with the regions that change them in
 place. Each method is proved equal to the step of the state machines that models its region.
 */
module ServerSlices {
  import opened Messages
  import opened Slices
  import Roster
  import Store
  import StoreOrder

  lemma {:induction false} FirstAt(s: seq<ConnId>, i: nat, c: ConnId)
    requires i < |s| && s[i] == c && forall k | 0 <= k < i :: s[k] != c
    ensures Roster.RemoveFirst(s, c) == s[..i] + s[i + 1..]
  {
    if i > 0 {
      FirstAt(s[1..], i - 1, c);
      assert [s[0]] + s[1..][..i - 1] == s[..i];
      assert s[1..][i - 1 + 1..] == s[i + 1..];
    }
  }

  lemma {:induction false} NotThere(s: seq<ConnId>, c: ConnId)
    requires forall k | 0 <= k < |s| :: s[k] != c
    ensures Roster.RemoveFirst(s, c) == s
  {
    if s != [] {
      NotThere(s[1..], c);
    }
  }

  /**
   TCPServer.messageQueue, with the batch that each flush in progress holds in its local slice. No two
   of these slices share a backing array, so no append reaches into a batch.
   */
  class MessageQueue {
    var messages: Slice<BackendRequest>
    var batches: map<nat, Slice<BackendRequest>>  // by flush
    const maxQueueSize: nat

    ghost predicate Valid()
      reads this
    {
      && Slices.Valid(messages)
      && (forall t | t in batches :: Slices.Valid(batches[t]) && batches[t].data != messages.data)
      && (forall t, u | t in batches && u in batches && t != u :: batches[t].data != batches[u].data)
    }

    ghost function Arrays(): set<object>
      reads this
    {
      set t | t in batches :: batches[t].data
    }

    function Queue(): seq<BackendRequest>
      requires messages.off + messages.len <= messages.data.Length
      reads this, messages.data
    {
      Contents(messages)
    }

    /** What the flushes in progress hold. */
    ghost function Batches(): map<nat, seq<BackendRequest>>
      requires Valid()
      reads this, Arrays()
    {
      map t | t in batches :: Contents(batches[t])
    }

    constructor (maxQueueSize: nat)
      ensures Valid() && fresh(messages.data) && Queue() == [] && Batches() == map[]
      ensures this.maxQueueSize == maxQueueSize
    {
      this.maxQueueSize := maxQueueSize;
      var data := new BackendRequest[0];
      messages := Slice(data, 0, 0);
      batches := map[];
    }

    /** enqueue under queueMu: messageQueue[1:] when full, then append. */
    method Enqueue(m: BackendRequest)
      requires Valid() && maxQueueSize > 0
      modifies this`messages, messages.data
      ensures Valid() && (messages.data == old(messages.data) || fresh(messages.data))
      ensures Queue() == Store.Pushed(old(Queue()), maxQueueSize, m)
      ensures Batches() == old(Batches())
    {
      var s := messages;
      if s.len >= maxQueueSize {
        s := Slice(s.data, s.off + 1, s.len - 1);
      }
      messages := Append(s, m);
    }

    /** Messages enqueued one after the other with no take between: the newest ones stay. */
    method EnqueueAll(ms: seq<BackendRequest>)
      requires Valid() && maxQueueSize > 0
      modifies this`messages, messages.data
      ensures Valid() && (messages.data == old(messages.data) || fresh(messages.data))
      ensures var all := old(Queue()) + ms;
        Queue() == all[|all| - StoreOrder.Window(|old(Queue())|, maxQueueSize, |ms|)..]
      ensures Batches() == old(Batches())
    {
      for i := 0 to |ms|
        invariant Valid() && (messages.data == old(messages.data) || fresh(messages.data))
        invariant Queue() == StoreOrder.PushedAll(old(Queue()), maxQueueSize, ms[..i])
        invariant Batches() == old(Batches())
      {
        assert ms[..i + 1][..i] == ms[..i];
        Enqueue(ms[i]);
      }
      assert ms[..|ms|] == ms;
      StoreOrder.SlidingWindow(old(Queue()), maxQueueSize, ms);
    }

    /** Flush t takes the whole slice; the queue goes on in a new array. */
    method Take(t: nat)
      requires Valid() && t !in batches
      modifies this`messages, this`batches
      ensures Valid() && fresh(messages.data) && Queue() == []
      ensures batches == old(batches)[t := old(messages)]
      ensures Batches() == old(Batches())[t := old(Queue())]
    {
      batches := batches[t := messages];
      var data := new BackendRequest[0];
      messages := Slice(data, 0, 0);
    }

    /**
     append(batch[i:], messageQueue...) by flush t, which may write into the spare capacity of its own
     batch; the batches of the other flushes stay as they are.
     */
    method Requeue(t: nat, i: nat)
      requires Valid() && t in batches && i <= batches[t].len
      modifies this`messages, this`batches, batches[t].data
      ensures Valid()
      ensures Queue() == old(Batches())[t][i..] + old(Queue())
      ensures batches == old(batches) - {t} && Batches() == old(Batches()) - {t}
    {
      var batch := batches[t];
      var remaining := Slice(batch.data, batch.off + i, batch.len - i);
      assert Contents(remaining) == Contents(batch)[i..];
      batches := batches - {t};
      messages := AppendAll(remaining, messages);
    }

    /** Flush t takes the queue, and other messages are enqueued. */
    method TakeAndGoOn(t: nat, meanwhile: seq<BackendRequest>)
      requires Valid() && maxQueueSize > 0 && t !in batches
      modifies this`messages, this`batches
      ensures Valid() && fresh(messages.data)
      ensures batches == old(batches)[t := old(messages)] && Batches() == old(Batches())[t := old(Queue())]
      ensures Queue() == StoreOrder.PushedAll([], maxQueueSize, meanwhile)
    {
      StoreOrder.SlidingWindow([], maxQueueSize, meanwhile);
      assert [] + meanwhile == meanwhile;
      hide StoreOrder.PushedAll;
      hide StoreOrder.Window;
      Take(t);
      EnqueueAll(meanwhile);
    }

    /**
     Flush t interrupted at its i-th message, with other messages enqueued while it was sending, and
     any other flushes in progress: the unsent tail goes back in front, and no other batch changes.
     */
    method InterruptedFlush(t: nat, i: nat, meanwhile: seq<BackendRequest>)
      requires Valid() && maxQueueSize > 0 && t !in batches && i <= |Queue()|
      modifies this, messages.data
      ensures Valid()
      ensures Queue() == old(Queue())[i..] + StoreOrder.PushedAll([], maxQueueSize, meanwhile)
      ensures Batches() == old(Batches())
    {
      ghost var before, queue := Batches(), Queue();
      TakeAndGoOn(t, meanwhile);
      hide StoreOrder.PushedAll;
      Requeue(t, i);
      assert before[t := queue] - {t} == before;
    }
  }

  /** TCPServer.Clients. */
  class ConnList {
    var clients: Slice<ConnId>

    ghost predicate Valid()
      reads this
    {
      Slices.Valid(clients)
    }

    function Live(): seq<ConnId>
      requires clients.off + clients.len <= clients.data.Length
      reads this, clients.data
    {
      Contents(clients)
    }

    constructor ()
      ensures Valid() && fresh(clients.data) && Live() == []
    {
      var data := new ConnId[0];
      clients := Slice(data, 0, 0);
    }

    /** The region of acceptConnections. */
    method Accept(c: ConnId)
      requires Valid()
      modifies this, clients.data
      ensures Valid() && (clients.data == old(clients.data) || fresh(clients.data))
      ensures Live() == old(Live()) + [c]
    {
      clients := Append(clients, c);
    }

    /** The deletion loop of handleConnection's cleanup, and of the heartbeat for one connection. */
    method Remove(c: ConnId)
      requires Valid()
      modifies this, clients.data
      ensures Valid() && clients.data == old(clients.data)
      ensures Live() == Roster.RemoveFirst(old(Live()), c)
    {
      var i := 0;
      while i < clients.len
        invariant 0 <= i <= clients.len && clients == old(clients)
        invariant clients.data[..] == old(clients.data[..])
        invariant forall k | 0 <= k < i :: Live()[k] != c
      {
        if clients.data[clients.off + i] == c {
          FirstAt(Live(), i, c);
          clients := DeleteAt(clients, i);
          return;
        }
        i := i + 1;
      }
      NotThere(Live(), c);
    }

    /** The heartbeat's copy of the list, in an array of its own. */
    method Snapshot() returns (copy: Slice<ConnId>)
      requires Valid()
      ensures Slices.Valid(copy) && fresh(copy.data) && Contents(copy) == Live()
    {
      copy := Clone(clients, 0);
    }

    /** The heartbeat's second region: every dead connection is deleted in place. */
    method Evict(dead: seq<ConnId>)
      requires Valid()
      modifies this, clients.data
      ensures Valid() && clients.data == old(clients.data)
      ensures Live() == Roster.RemoveEach(old(Live()), dead)
    {
      for i := 0 to |dead|
        invariant Valid() && clients.data == old(clients.data)
        invariant Roster.RemoveEach(Live(), dead[i..]) == Roster.RemoveEach(old(Live()), dead)
      {
        assert dead[i..][1..] == dead[i + 1..];
        Remove(dead[i]);
      }
      assert dead[|dead|..] == [];
    }

    /**
     pingBackends run alone: every connection of the snapshot is pinged once, in order, and
     exactly those whose write failed are taken off the list.
     */
    method PingBackends(fails: set<ConnId>) returns (pinged: seq<ConnId>, dead: seq<ConnId>)
      requires Valid()
      modifies this, clients.data
      ensures Valid() && pinged == old(Live())
      ensures forall c :: c in dead <==> c in old(Live()) && c in fails
      ensures Live() == Roster.RemoveEach(old(Live()), dead)
    {
      var copy := Snapshot();
      pinged, dead := [], [];
      for i := 0 to copy.len
        invariant pinged == Contents(copy)[..i]
        invariant forall c :: c in dead <==> c in Contents(copy)[..i] && c in fails
      {
        var c := copy.data[copy.off + i];
        assert Contents(copy)[..i + 1] == Contents(copy)[..i] + [c];
        pinged := pinged + [c];
        if c in fails {
          dead := dead + [c];
        }
      }
      if |dead| > 0 {
        Evict(dead);
      }
    }

    /** Deletions in place by a handler leave the heartbeat's copy alone. */
    method RemoveDuringPing(c: ConnId) returns (copy: Slice<ConnId>)
      requires Valid()
      modifies this, clients.data
      ensures Valid() && Live() == Roster.RemoveFirst(old(Live()), c)
      ensures Slices.Valid(copy) && Contents(copy) == old(Live())
    {
      copy := Snapshot();
      Remove(c);
    }
  }
}
