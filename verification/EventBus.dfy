/** The update runner's event broadcaster (scripts/update-runner.py:121-156). */
module EventBus {
  import opened Feed

  /** `queue.Queue(maxsize=CLIENT_QUEUE_SIZE)` of one client. */
  class ClientQueue {
    var items: seq<string>
    ghost var feed: Feed
    ghost var received: seq<string>

    /** What the client took and will take are the logged events at its feed's positions. */
    ghost predicate Valid(log: seq<string>)
      reads this
    {
      && Sound(feed) && feed.upTo <= |log|
      && |items| == |feed.queued|
      && (forall i :: 0 <= i < |items| ==> 0 <= feed.queued[i] < |log| && items[i] == log[feed.queued[i]])
      && |received| == |feed.taken|
      && (forall i :: 0 <= i < |received| ==> 0 <= feed.taken[i] < |log| && received[i] == log[feed.taken[i]])
    }

    /** An empty queue, about to receive the last `history` of `length` events. */
    constructor (ghost length: nat)
      ensures items == [] && received == [] && feed == Joined(length, 0)
    {
      items, received := [], [];
      feed := Joined(length, 0);
    }

    predicate Full()
      reads this
    {
      |items| >= CLIENT_QUEUE_SIZE
    }

    /** `put`: blocks on a full queue, so it is only called when there is room. */
    method Put(event: string)
      requires !Full()
      modifies this`items
      ensures items == old(items) + [event]
    {
      items := items + [event];
    }

    /** The replay to a late joiner: no `put` of it can block. */
    method Replay(ghost log: seq<string>, history: seq<string>)
      requires received == [] && items == []
      requires |history| <= EVENT_HISTORY_SIZE && |history| <= |log| && history == log[|log| - |history|..]
      modifies this
      ensures items == history && received == []
      ensures feed == Joined(|log|, |history|) && feed.upTo == |log| && Valid(log)
    {
      for i := 0 to |history|
        invariant items == history[..i] && received == []
      {
        Put(history[i]);
      }
      feed := Joined(|log|, |history|);
      JoinedIsSound(|log|, |history|);
    }

    /** `put_nowait` with `queue.Full` suppressed. */
    method PutOrDrop(event: string, ghost log: seq<string>)
      requires Valid(log) && feed.upTo == |log|
      modifies this
      ensures feed == Offered(old(feed)) && received == old(received)
      ensures Valid(log + [event]) && feed.upTo == |log| + 1
      ensures items == if |old(items)| < 2000 then old(items) + [event] else old(items)
    {
      OfferedIsSound(feed);
      feed := Offered(feed);
      if !Full() {
        Put(event);
      }
    }

    /** `get` by the client's own thread. */
    method Get(ghost log: seq<string>) returns (event: string)
      requires Valid(log) && items != []
      modifies this
      ensures feed == Taken(old(feed)) && received == old(received) + [event]
      ensures event == old(items)[0] && Valid(log)
    {
      TakenIsSound(feed);
      feed := Taken(feed);
      event := items[0];
      items := items[1..];
      received := received + [event];
    }
  }

  function Offers(feeds: seq<Feed>): (offered: seq<Feed>)
    ensures |offered| == |feeds| && forall i :: 0 <= i < |feeds| ==> offered[i] == Offered(feeds[i])
  {
    seq(|feeds|, i requires 0 <= i < |feeds| => Offered(feeds[i]))
  }

  class EventBus {
    var clients: seq<ClientQueue>
    var history: seq<string>
    ghost var log: seq<string>

    predicate Distinct()
      reads this
    {
      forall i, j :: 0 <= i < j < |clients| ==> clients[i] != clients[j]
    }

    ghost predicate Valid()
      reads this, clients
    {
      && Distinct()
      && |history| <= EVENT_HISTORY_SIZE && |history| <= |log| && history == log[|log| - |history|..]
      && (|history| < EVENT_HISTORY_SIZE ==> history == log)
      && (forall c :: c in clients ==> c.Valid(log) && c.feed.upTo == |log|)
    }

    ghost function Feeds(): (feeds: seq<Feed>)
      reads this, clients
      ensures |feeds| == |clients| && forall i :: 0 <= i < |feeds| ==> feeds[i] == clients[i].feed
    {
      seq(|clients|, i requires 0 <= i < |clients| reads this, clients => clients[i].feed)
    }

    ghost function Received(): (received: seq<seq<string>>)
      reads this, clients
      ensures |received| == |clients| && forall i :: 0 <= i < |received| ==> received[i] == clients[i].received
    {
      seq(|clients|, i requires 0 <= i < |clients| reads this, clients => clients[i].received)
    }

    constructor ()
      ensures Valid() && clients == [] && log == [] && history == []
    {
      clients, history, log := [], [], [];
    }

    /** Replays the history into a fresh queue. */
    method Subscribe() returns (q: ClientQueue)
      requires Valid()
      modifies this`clients
      ensures Valid() && fresh(q) && clients == old(clients) + [q]
      ensures q.items == history && q.received == [] && q.feed == Joined(|log|, |history|)
    {
      hide Sound, ClientQueue.Valid, Joined;
      q := new ClientQueue(|log|);
      q.Replay(log, history);
      assert q !in clients;
      clients := clients + [q];
    }

    /** The queue gets no further events; the others are unaffected. */
    method Unsubscribe(q: ClientQueue)
      requires Valid()
      modifies this`clients
      ensures Valid()
      ensures forall c :: c in clients <==> c in old(clients) && c != q
    {
      var kept: seq<ClientQueue> := [];
      for i := 0 to |clients|
        invariant clients == old(clients)
        invariant forall c :: c in kept <==> c in clients[..i] && c != q
        invariant forall a, b :: 0 <= a < b < |kept| ==> kept[a] != kept[b]
      {
        assert clients[i] !in clients[..i];
        if clients[i] != q {
          kept := kept + [clients[i]];
        }
      }
      clients := kept;
    }

    /** Appending to the bounded history. */
    method Remember(payload: string)
      requires |history| <= EVENT_HISTORY_SIZE && |history| <= |log| && history == log[|log| - |history|..]
      requires |history| < EVENT_HISTORY_SIZE ==> history == log
      modifies this`history, this`log
      ensures log == old(log) + [payload]
      ensures |history| <= EVENT_HISTORY_SIZE && |history| <= |log| && history == log[|log| - |history|..]
      ensures |history| < EVENT_HISTORY_SIZE ==> history == log
    {
      if |history| >= EVENT_HISTORY_SIZE {
        history := history[1..];
      }
      history := history + [payload];
      log := log + [payload];
    }

    /** The loop of `publish`. */
    method Offer(payload: string, ghost before: seq<string>)
      requires Distinct() && forall c :: c in clients ==> c.Valid(before) && c.feed.upTo == |before|
      modifies clients
      ensures forall c :: c in clients ==> c.Valid(before + [payload]) && c.feed.upTo == |before| + 1
      ensures Feeds() == Offers(old(Feeds())) && Received() == old(Received())
    {
      hide Sound, ClientQueue.Valid, Offered;
      ghost var feeds, received := Feeds(), Received();
      for i := 0 to |clients|
        invariant forall k :: 0 <= k < i ==> clients[k].Valid(before + [payload])
        invariant forall k :: 0 <= k < i ==> clients[k].feed.upTo == |before| + 1
        invariant forall k :: i <= k < |clients| ==> clients[k].Valid(before) && clients[k].feed.upTo == |before|
        invariant forall k :: 0 <= k < i ==> clients[k].feed == Offered(feeds[k])
        invariant forall k :: i <= k < |clients| ==> clients[k].feed == feeds[k]
        invariant Received() == received
      {
        clients[i].PutOrDrop(payload, before);
      }
    }

    /** Logs the event, keeps it for late joiners, and offers it to every client. */
    method Publish(payload: string)
      requires Valid()
      modifies this`history, this`log, clients
      ensures Valid() && log == old(log) + [payload]
      ensures Feeds() == Offers(old(Feeds())) && Received() == old(Received())
    {
      hide Sound, ClientQueue.Valid, Offered;
      ghost var before := log;
      Remember(payload);
      Offer(payload, before);
    }

    /** A client's thread takes its next event; the other queues are unaffected. */
    method Take(q: ClientQueue) returns (event: string)
      requires Valid() && q in clients && q.items != []
      modifies q
      ensures Valid() && q.feed == Taken(old(q.feed)) && q.received == old(q.received) + [event]
      ensures event == old(q.items)[0]
    {
      event := q.Get(log);
    }
  }
}
