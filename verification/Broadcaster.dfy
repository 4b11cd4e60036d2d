/** The gateway's fan-out: one tail of the result stream, a bounded queue for each client, and
    the sender that drains a queue into its WebSocket. The step-by-step machine of Delivery
    says what one client's share of this does; the methods here are proved to take exactly
    those steps. */
module Broadcaster {
  import opened StreamIds
  import opened Options
  import opened RedisStream
  import Delivery

  function Ids(entries: seq<Entry>): (ids: seq<StreamId>)
    ensures |ids| == |entries|
    ensures forall i :: 0 <= i < |ids| ==> ids[i] == entries[i].id
  {
    seq(|entries|, i requires 0 <= i < |entries| => entries[i].id)
  }

  /** The entries after an id, oldest first, as many as there are up to the limit. */
  ghost predicate OldestAfter(stream: seq<Entry>, last: StreamId, limit: nat, rows: seq<Entry>) {
    exists from: nat :: from <= |stream| && StartsAfter(stream, last, from)
                        && rows == stream[from..][..if |stream| - from <= limit then |stream| - from else limit]
  }

  ghost predicate StartsAfter(stream: seq<Entry>, last: StreamId, from: nat) {
    forall i :: 0 <= i < |stream| ==> (from <= i <==> Before(last, stream[i].id))
  }

  class StreamClient {
    const queueSize: nat
    var queue: seq<Entry>
    var closed: bool

    constructor (queueSize: nat)
      ensures this.queueSize == queueSize && queue == [] && !closed
    {
      this.queueSize, queue, closed := queueSize, [], false;
    }
  }

  class RedisStreamBroadcaster {
    const maxClients: nat
    const queueSize: nat
    const replayLimit: nat
    var clients: set<StreamClient>
    var cursor: Option<StreamId>

    /** A registered client is open, within its queue bound. */
    ghost predicate Valid()
      reads this, clients
    {
      forall c :: c in clients ==> !c.closed && |c.queue| <= c.queueSize
    }

    constructor (maxClients: nat, queueSize: nat, replayLimit: nat)
      ensures Valid()
      ensures this.maxClients == maxClients && this.queueSize == queueSize && this.replayLimit == replayLimit
      ensures clients == {} && cursor == None
    {
      this.maxClients, this.queueSize, this.replayLimit := maxClients, queueSize, replayLimit;
      clients, cursor := {}, None;
    }

    /** None when the gateway is at capacity. */
    method Register() returns (client: Option<StreamClient>)
      requires Valid()
      modifies this`clients
      ensures Valid()
      ensures client.None? <==> |old(clients)| >= maxClients
      ensures client.None? ==> clients == old(clients)
      ensures client.Some? ==>
                && fresh(client.value) && clients == old(clients) + {client.value}
                && client.value.queue == [] && !client.value.closed && client.value.queueSize == queueSize
      ensures |old(clients)| <= maxClients ==> |clients| <= maxClients
    {
      if |clients| >= maxClients {
        return None;
      }
      var c := new StreamClient(queueSize);
      clients := clients + {c};
      client := Some(c);
    }

    method Unregister(client: StreamClient)
      requires Valid()
      modifies this`clients, client`closed
      ensures Valid()
      ensures clients == old(clients) - {client} && client.closed
    {
      clients := clients - {client};
      client.closed := true;
    }

    /** Every registered client is offered the entry: it is queued where there is room, and a
        client without room is closed and forgotten. */
    method Broadcast(entry: Entry)
      requires Valid()
      modifies this`clients, clients
      ensures Valid()
      ensures forall c :: c in old(clients) ==>
                && (c.queue, c.closed) == Delivery.Offer(old(c.queue), old(c.closed), c.queueSize, entry)
                && (c in clients <==> |old(c.queue)| < c.queueSize)
      ensures clients <= old(clients)
    {
      var rest := clients;
      while rest != {}
        invariant rest <= old(clients) && clients <= old(clients) && rest <= clients
        invariant forall c :: c in rest ==> c.queue == old(c.queue) && c.closed == old(c.closed)
        invariant forall c :: c in old(clients) && c !in rest ==>
                    && (c.queue, c.closed) == Delivery.Offer(old(c.queue), old(c.closed), c.queueSize, entry)
                    && (c in clients <==> |old(c.queue)| < c.queueSize)
        decreases rest
      {
        var client :| client in rest;
        rest := rest - {client};
        if |client.queue| < client.queueSize {
          client.queue := client.queue + [entry];
        } else {
          client.closed := true;
          clients := clients - {client};
        }
      }
    }

    /** One read of the stream: all its rows in order. A client receives the rows that fit its
        queue, and is closed exactly when some row did not fit. */
    method Tail(rows: seq<Entry>)
      requires Valid()
      modifies this, clients
      ensures Valid()
      ensures cursor == if rows == [] then old(cursor) else Some(rows[|rows| - 1].id)
      ensures clients <= old(clients)
      ensures forall c :: c in old(clients) ==>
                var room := c.queueSize - |old(c.queue)|;
                && c.queue == old(c.queue) + (if |rows| <= room then rows else rows[..room])
                && (c.closed <==> |rows| > room)
                && (c in clients <==> |rows| <= room)
    {
      for i := 0 to |rows|
        invariant Valid()
        invariant cursor == if i == 0 then old(cursor) else Some(rows[i - 1].id)
        invariant clients <= old(clients)
        invariant forall c :: c in old(clients) ==> |old(c.queue)| <= c.queueSize
        invariant forall c :: c in old(clients) ==>
                    var room := c.queueSize - |old(c.queue)|;
                    && c.queue == old(c.queue) + (if i <= room then rows[..i] else rows[..room])
                    && (c.closed <==> i > room)
                    && (c in clients <==> i <= room)
      {
        cursor := Some(rows[i].id);
        assert rows[..i + 1] == rows[..i] + [rows[i]];
        Broadcast(rows[i]);
      }
      assert rows[..|rows|] == rows;
    }

    /** The history read after a cursor. */
    method ReplayAfter(stream: seq<Entry>, last: StreamId) returns (rows: seq<Entry>)
      requires Ascending(Ids(stream))
      ensures var from := Delivery.HistoryFrom(Ids(stream), Some(last), replayLimit);
              && from <= |stream|
              && rows == stream[from..Delivery.HistoryTo(Ids(stream), from, replayLimit)]
      ensures OldestAfter(stream, last, replayLimit, rows)
      ensures forall e :: e in rows ==> e in stream && Before(last, e.id)
    {
      Delivery.StartSplits(Ids(stream), last);
      var from := 0;
      while from < |stream| && AtMost(stream[from].id, last)
        invariant from <= |stream|
        invariant forall i :: 0 <= i < from ==> AtMost(stream[i].id, last)
      {
        from := from + 1;
      }
      Delivery.StartFound(Ids(stream), last, from);
      rows := stream[from..if from + replayLimit <= |stream| then from + replayLimit else |stream|];
      assert StartsAfter(stream, last, from);
    }

    /** The most recent entries, read newest first and turned round. */
    method ReplayRecent(stream: seq<Entry>) returns (rows: seq<Entry>)
      ensures var from := Delivery.HistoryFrom(Ids(stream), None, replayLimit);
              && from <= |stream|
              && rows == stream[from..Delivery.HistoryTo(Ids(stream), from, replayLimit)]
      ensures |rows| == (if |stream| <= replayLimit then |stream| else replayLimit)
      ensures rows == stream[|stream| - |rows|..]
    {
      var count := if |stream| <= replayLimit then |stream| else replayLimit;
      var newest := seq(count, i requires 0 <= i < count => stream[|stream| - 1 - i]);
      rows := [];
      for i := 0 to count
        invariant rows == stream[|stream| - count..|stream| - count + i]
      {
        rows := rows + [newest[count - 1 - i]];
      }
    }
  }

  /** The two sending loops of one connection; `sent` is what went out in full. */
  class Sender {
    var last: Option<StreamId>
    var sent: seq<Entry>

    constructor (last: Option<StreamId>)
      ensures this.last == last && sent == []
    {
      this.last, sent := last, [];
    }

    /** The replayed rows up to the first send that fails; the failure ends the connection. */
    method SendHistory(rows: seq<Entry>, failsAt: nat) returns (alive: bool)
      modifies this
      ensures alive <==> failsAt >= |rows|
      ensures sent == old(sent) + (if alive then rows else rows[..failsAt])
      ensures last == if sent == old(sent) then old(last) else Some(sent[|sent| - 1].id)
    {
      for i := 0 to |rows|
        invariant i <= failsAt
        invariant sent == old(sent) + rows[..i]
        invariant last == if i == 0 then old(last) else Some(rows[i - 1].id)
      {
        if i == failsAt {
          return false;
        }
        sent := sent + [rows[i]];
        last := Some(rows[i].id);
      }
      return true;
    }

    /** The sender and its queue are where the machine is, in its live phase. */
    ghost predicate Represents(s: Delivery.Session, client: StreamClient)
      reads this, client
    {
      && s.connection.Some? && s.connection.value.phase.Live?
      && s.connection.value.queue == Ids(client.queue)
      && s.connection.value.closed == client.closed
      && s.connection.value.last == last
    }

    /** One turn of the live loop with an item at hand. A send that times out is taken for
        silence: the item is gone, and a heartbeat follows. */
    method Turn(client: StreamClient, fate: Delivery.Fate, g: Delivery.Settings, ghost s: Delivery.Session)
      returns (alive: bool)
      requires Represents(s, client) && client.queue != []
      modifies this, client`queue
      ensures var item := old(client.queue)[0];
              var later := Delivery.Do(g, s, Delivery.SendLive(fate));
              && alive == later.connection.Some?
              && (alive ==> Represents(later, client))
              && sent == old(sent) + (if fate.Delivered? && !Delivery.Filtered(old(last), item.id) then [item] else [])
    {
      hide Delivery.NothingLost, Delivery.AskedOtherwise;
      var item := client.queue[0];
      client.queue := client.queue[1..];
      assert Ids(client.queue) == Ids(old(client.queue))[1..];
      if last.Some? && AtMost(item.id, last.value) {
        return true;
      }
      match fate {
        case Delivered =>
          sent := sent + [item];
          last := Some(item.id);
          return true;
        case TimedOut(_) =>
          return true;
        case Ended(_) =>
          return false;
      }
    }
  }
}
