/** The two relays of the outbox: one Kafka relay transaction, one stream publisher
    transaction. */
module RelayService {
  import opened Events
  import opened Options
  import opened Tables
  import opened Consumers
  import opened RedisStream
  import opened StreamIds
  import opened Pipeline
  import opened PipelineInvariant
  import opened PipelineTransactions
  import opened Services

  function AmongFirst(rows: seq<EventId>, n: nat, id: EventId): nat {
    if n <= |rows| && id in rows[..n] then 1 else 0
  }

  /** How many rows a broker or server has stored when the first `sent` calls returned: one
      more if the next took effect before it raised. */
  function Stored(sends: seq<Call>, sent: nat): (n: nat)
    requires sent <= |sends|
    ensures sent <= n <= |sends|
    ensures n == sent + 1 <==> sent < |sends| && (sends[sent].Returns? || sends[sent].applied)
    ensures n <= sent + 1
  {
    if sent < |sends| && TookEffect(sends[sent]) then sent + 1 else sent
  }

  /** The calls made are those up to the first that raises. */
  predicate SendsUntil(sends: seq<Call>, sent: nat) {
    && sent <= |sends| && (forall i :: 0 <= i < sent ==> sends[i].Returns?)
    && (sent < |sends| ==> sends[sent].Raises?)
  }

  /** One turn of the relay's loop: lock the rows, send them one by one, mark each, commit.
      The first error rolls every mark back, but not what was stored; the row that failed has
      the failure recorded afterwards, unless recording it fails. An error of the commit
      itself blames no row, and may come after the marks are durable. */
  method RelayBatch(rt: Runtime, relay: nat, rows: seq<EventId>, sends: seq<Call>, commit: Call, recording: Call, text: string)
    returns (sent: nat, published: bool)
    requires rt.Valid() && relay !in rt.s.relays && |sends| == |rows|
    requires MayOpen(rt.s.relays, rt.s.db.requests, rows, rt.c.outboxBatchSize)
    modifies rt
    ensures rt.Valid() && rt.s.relays == old(rt.s.relays)
    ensures SendsUntil(sends, sent)
    ensures published <==> sent == |rows| && TookEffect(commit)
    ensures published ==>
              && rt.s.db.requests == Mark(old(rt.s.db.requests), rows)
              && AllMarked(old(rt.s.db.requests), rt.s.db.requests, rows)
              && rt.s.rolledBack == old(rt.s.rolledBack)
    ensures !published ==>
              && rt.s.rolledBack == old(rt.s.rolledBack) + multiset(rows[..Stored(sends, sent)])
              && rt.s.db.requests == (if sent < |rows| && TookEffect(recording)
                                      then WithFailure(old(rt.s.db.requests), rows[sent], text)
                                      else old(rt.s.db.requests))
              && (sent < |rows| && TookEffect(recording) ==>
                    FailureNoted(old(rt.s.db.requests), rt.s.db.requests, rows[sent], text))
    ensures |rt.s.requests| == |old(rt.s.requests)|
    ensures forall id :: id in rows ==> TopicGrew(rt.c, old(rt.s), rt.s, id, AmongFirst(rows, Stored(sends, sent), id))
  {
    hide Inv, Reachable, TopicGrew, MayOpen, WithFailure, Mark, AllMarked, FailureNoted;
    ghost var before := rt.s;
    RowsFree(rt.s.relays, rt.s.db.requests, rows, rt.c.outboxBatchSize);
    OpenBatch(rt, relay, rows);
    sent := SendRows(rt, relay, rows, sends, before);
    published := sent == |rows| && TookEffect(commit);
    ghost var middle := rt.s;
    CloseBatch(rt, relay, rows, Stored(sends, sent), published);
    assert before.relays[relay := Relay(rows, Stored(sends, sent))] - {relay} == before.relays;
    if sent < |rows| && TookEffect(recording) {
      RecordRow(rt, rows[sent], text);
    }
    SameTopic(rt.c, before, middle, rt.s, rows, Stored(sends, sent));
    MarkMeans(before.db.requests, rows);
    if sent < |rows| {
      FailureMeans(before.db.requests, rows[sent], text);
    }
  }

  /** The rows are published without an error, and nothing else has changed. */
  ghost predicate AllMarked<M(!new)>(before: map<EventId, OutboxRow<M>>, after: map<EventId, OutboxRow<M>>, rows: seq<EventId>) {
    && after.Keys == before.Keys
    && forall id :: id in before ==>
         if id in rows
         then after[id].published && after[id].lastError == None
              && after[id].message == before[id].message && after[id].attempts == before[id].attempts
         else after[id] == before[id]
  }

  lemma MarkMeans<M(!new)>(outbox: map<EventId, OutboxRow<M>>, rows: seq<EventId>)
    ensures AllMarked(outbox, Mark(outbox, rows), rows)
  {
  }

  /** One attempt more is counted for the row, and the first 512 characters of the error are
      kept; its message and its publication stay, and so do all other rows. */
  ghost predicate FailureNoted(before: map<EventId, OutboxRow<ScoringRequest>>, after: map<EventId, OutboxRow<ScoringRequest>>,
                               id: EventId, text: string) {
    && id in before && after.Keys == before.Keys
    && (forall other :: other in before && other != id ==> after[other] == before[other])
    && after[id].message == before[id].message && after[id].published == before[id].published
    && after[id].attempts == before[id].attempts + 1
    && after[id].lastError.Some? && after[id].lastError.value <= text
    && |after[id].lastError.value| == if |text| < 512 then |text| else 512
  }

  lemma FailureMeans(outbox: map<EventId, OutboxRow<ScoringRequest>>, id: EventId, text: string)
    requires id in outbox
    ensures FailureNoted(outbox, WithFailure(outbox, id, text), id, text)
  {
  }

  /** The sends of one transaction, up to the first that raises. */
  method SendRows(rt: Runtime, relay: nat, rows: seq<EventId>, sends: seq<Call>, ghost before: State) returns (sent: nat)
    requires rt.Valid() && |sends| == |rows|
    requires rt.s == before.(relays := before.relays[relay := Relay(rows, 0)])
    requires forall i, j :: 0 <= i < j < |rows| ==> rows[i] != rows[j]
    requires forall id :: id in rows ==> id in before.db.requests
    modifies rt
    ensures rt.Valid() && SendsUntil(sends, sent)
    ensures rt.s.relays == before.relays[relay := Relay(rows, Stored(sends, sent))]
    ensures rt.s.db == before.db && rt.s.rolledBack == before.rolledBack
    ensures |rt.s.requests| == |before.requests|
    ensures forall id :: id in rows ==> TopicGrew(rt.c, before, rt.s, id, AmongFirst(rows, Stored(sends, sent), id))
  {
    hide Inv, Reachable, TopicGrew, AmongFirst, WellFormed;
    NothingGrew(rt.c, before, rt.s, rows);
    sent := 0;
    while sent < |rows| && sends[sent].Returns?
      invariant sent <= |rows| && forall i :: 0 <= i < sent ==> sends[i].Returns?
      invariant rt.Valid()
      invariant rt.s.relays == before.relays[relay := Relay(rows, sent)]
      invariant rt.s.db == before.db && rt.s.rolledBack == before.rolledBack
      invariant |rt.s.requests| == |before.requests|
      invariant forall id :: id in rows ==> TopicGrew(rt.c, before, rt.s, id, AmongFirst(rows, sent, id))
    {
      SendRow(rt, relay, rows, sent, before);
      sent := sent + 1;
    }
    if sent < |rows| && TookEffect(sends[sent]) {
      SendRow(rt, relay, rows, sent, before);
    }
  }

  lemma SameTopic(c: Config, before: State, middle: State, after: State, rows: seq<EventId>, sent: nat)
    requires sent <= |rows| && after.requests == middle.requests
    requires forall id :: id in rows ==> TopicGrew(c, before, middle, id, AmongFirst(rows, sent, id))
    ensures forall id :: id in rows ==> TopicGrew(c, before, after, id, AmongFirst(rows, sent, id))
  {
    forall id | id in rows
      ensures TopicGrew(c, before, after, id, AmongFirst(rows, sent, id))
    {
      assert TopicGrew(c, before, middle, id, AmongFirst(rows, sent, id));
    }
  }

  method CloseBatch(rt: Runtime, relay: nat, rows: seq<EventId>, sent: nat, publish: bool)
    requires rt.Valid() && relay in rt.s.relays && rt.s.relays[relay] == Relay(rows, sent)
    requires sent <= |rows| && (publish ==> sent == |rows|)
    modifies rt
    ensures rt.Valid()
    ensures rt.s.relays == old(rt.s.relays) - {relay} && rt.s.requests == old(rt.s.requests)
    ensures rt.s.db.requests == if publish then Mark(old(rt.s.db.requests), rows) else old(rt.s.db.requests)
    ensures rt.s.rolledBack == if publish then old(rt.s.rolledBack) else old(rt.s.rolledBack) + multiset(rows[..sent])
  {
    hide Inv, Reachable;
    rt.Take(RelayStep(relay, if publish then MarkAll else Rollback));
  }

  method RecordRow(rt: Runtime, id: EventId, text: string)
    requires rt.Valid() && id in rt.s.db.requests
    modifies rt
    ensures rt.Valid()
    ensures rt.s == old(rt.s).(db := old(rt.s).db.(requests := WithFailure(old(rt.s).db.requests, id, text)))
  {
    hide Inv, Reachable;
    rt.Take(RecordFailure(id, text));
  }

  lemma RowsFree(relays: map<nat, Relay>, outbox: map<EventId, OutboxRow<ScoringRequest>>, rows: seq<EventId>,
                 limit: nat)
    requires MayOpen(relays, outbox, rows, limit)
    ensures forall i, j :: 0 <= i < j < |rows| ==> rows[i] != rows[j]
    ensures forall id :: id in rows ==> id in outbox
  {
  }

  /** How many more copies of a row its partition holds. */
  ghost predicate TopicGrew(c: Config, before: State, after: State, id: EventId, copies: nat) {
    && id in before.db.requests
    && var p := c.requestPartition(before.db.requests[id].message.tx);
       && p < |before.requests| && p < |after.requests|
       && Copies(after.requests[p].log, id) == Copies(before.requests[p].log, id) + copies
  }

  lemma NothingGrew(c: Config, before: State, after: State, rows: seq<EventId>)
    requires WellFormed(c) && Inv(c, after) && after.db == before.db && after.requests == before.requests
    requires forall id :: id in rows ==> id in before.db.requests
    ensures forall id :: id in rows ==> TopicGrew(c, before, after, id, AmongFirst(rows, 0, id))
  {
  }

  method OpenBatch(rt: Runtime, relay: nat, rows: seq<EventId>)
    requires rt.Valid() && relay !in rt.s.relays
    requires MayOpen(rt.s.relays, rt.s.db.requests, rows, rt.c.outboxBatchSize)
    modifies rt
    ensures rt.Valid() && rt.s == old(rt.s).(relays := old(rt.s).relays[relay := Relay(rows, 0)])
  {
    hide Inv, Reachable, MayOpen;
    rt.Take(RelayStep(relay, Open(rows)));
  }

  method SendRow(rt: Runtime, relay: nat, rows: seq<EventId>, sent: nat, ghost before: State)
    requires rt.Valid() && relay in rt.s.relays && rt.s.relays[relay] == Relay(rows, sent) && sent < |rows|
    requires forall i, j :: 0 <= i < j < |rows| ==> rows[i] != rows[j]
    requires forall id :: id in rows ==> id in before.db.requests
    requires rt.s.db == before.db
    requires forall id :: id in rows ==> TopicGrew(rt.c, before, rt.s, id, AmongFirst(rows, sent, id))
    modifies rt
    ensures rt.Valid()
    ensures rt.s.relays == old(rt.s.relays)[relay := Relay(rows, sent + 1)]
    ensures rt.s.db == old(rt.s.db) && rt.s.rolledBack == old(rt.s.rolledBack)
    ensures |rt.s.requests| == |old(rt.s.requests)|
    ensures forall id :: id in rows ==> TopicGrew(rt.c, before, rt.s, id, AmongFirst(rows, sent + 1, id))
  {
    hide Inv, Reachable, TopicGrew, AmongFirst;
    ghost var middle := rt.s;
    RowNamesMessage(rt.c, rt.s, rows[sent]);
    rt.Take(RelayStep(relay, Send));
    forall id | id in rows
      ensures TopicGrew(rt.c, before, rt.s, id, AmongFirst(rows, sent + 1, id))
    {
      OneMoreCopy(rt.c, before, middle, rt.s, rows, sent, id);
    }
  }

  lemma OneMoreCopy(c: Config, before: State, middle: State, after: State, rows: seq<EventId>, sent: nat, id: EventId)
    requires sent < |rows| && id in rows && id in before.db.requests && rows[sent] in before.db.requests
    requires forall i, j :: 0 <= i < j < |rows| ==> rows[i] != rows[j]
    requires TopicGrew(c, before, middle, id, AmongFirst(rows, sent, id))
    requires var message := before.db.requests[rows[sent]].message;
             && message.eventId == rows[sent]
             && var p := c.requestPartition(message.tx);
                p < |middle.requests| && after.requests == middle.requests[p := Append(middle.requests[p], Valid(message))]
    ensures TopicGrew(c, before, after, id, AmongFirst(rows, sent + 1, id))
  {
    hide Copies;
    var message := before.db.requests[rows[sent]].message;
    CountOfSentRow(middle.requests, c.requestPartition(message.tx), message,
                   c.requestPartition(before.db.requests[id].message.tx), id);
    assert rows[..sent + 1] == rows[..sent] + [rows[sent]];
  }

  lemma RowNamesMessage(c: Config, s: State, id: EventId)
    requires WellFormed(c) && Inv(c, s) && id in s.db.requests
    ensures s.db.requests[id].message.eventId == id
    ensures c.requestPartition(s.db.requests[id].message.tx) < |s.requests|
  {
    assert id in Messages(s.db.requests);
  }

  // ---- the stream publisher ----

  /** The stream after publishing events one by one under the ids the server assigns. */
  function PublishAll(redis: Redis, intents: map<EventId, OutboxRow<ScoringResult>>, rows: seq<EventId>,
                      ids: seq<StreamId>): Redis
    requires |ids| >= |rows| && forall id :: id in rows ==> id in intents
  {
    if rows == [] then redis
    else
      var n := |rows| - 1;
      assert rows[n] in rows;
      PublishOnce(PublishAll(redis, intents, rows[..n], ids), rows[n], intents[rows[n]].message, ids[n])
  }

  /** One turn of the publisher's loop. What was appended before an error stays in the
      stream; the marks do not. */
  method PublishBatch(rt: Runtime, publisher: nat, rows: seq<EventId>, sends: seq<Call>, ids: seq<StreamId>,
                      commit: Call)
    returns (sent: nat, published: bool)
    requires rt.Valid() && publisher !in rt.s.publishers && |sends| == |rows| == |ids|
    requires MayOpen(rt.s.publishers, rt.s.db.intents, rows, rt.c.outboxBatchSize)
    requires Ascending(ids) && forall i :: 0 <= i < |ids| ==> NextId(rt.s.redis.stream, ids[i])
    modifies rt
    ensures rt.Valid() && rt.s.publishers == old(rt.s.publishers)
    ensures SendsUntil(sends, sent)
    ensures published <==> sent == |rows| && TookEffect(commit)
    ensures forall id :: id in rows ==> id in old(rt.s.db.intents)
    ensures forall id :: id in rows[..Stored(sends, sent)] ==> id in rows
    ensures rt.s.redis == PublishAll(old(rt.s.redis), old(rt.s.db.intents), rows[..Stored(sends, sent)], ids)
    ensures rt.s.db.intents == if published then Mark(old(rt.s.db.intents), rows) else old(rt.s.db.intents)
    ensures published ==> AllMarked(old(rt.s.db.intents), rt.s.db.intents, rows)
  {
    hide Inv, Reachable, Mark, MayOpen, PublishAll, NextId, AllMarked;
    MarkMeans(rt.s.db.intents, rows);
    IntentsFree(rt.s.publishers, rt.s.db.intents, rows, rt.c.outboxBatchSize);
    ghost var before := rt.s;
    OpenEvents(rt, publisher, rows);
    sent := SendEvents(rt, publisher, rows, sends, ids, before);
    published := sent == |rows| && TookEffect(commit);
    CloseEvents(rt, publisher, rows, Stored(sends, sent), published);
    assert before.publishers[publisher := Relay(rows, Stored(sends, sent))] - {publisher} == before.publishers;
  }

  /** The appends of one transaction, up to the first that raises. */
  method SendEvents(rt: Runtime, publisher: nat, rows: seq<EventId>, sends: seq<Call>, ids: seq<StreamId>,
                    ghost before: State)
    returns (sent: nat)
    requires rt.Valid() && |sends| == |rows| == |ids|
    requires rt.s == before.(publishers := before.publishers[publisher := Relay(rows, 0)])
    requires forall id :: id in rows ==> id in before.db.intents
    requires Ascending(ids) && forall i :: 0 <= i < |ids| ==> NextId(before.redis.stream, ids[i])
    modifies rt
    ensures rt.Valid() && SendsUntil(sends, sent)
    ensures forall id :: id in rows[..Stored(sends, sent)] ==> id in rows
    ensures rt.s == before.(
              publishers := before.publishers[publisher := Relay(rows, Stored(sends, sent))],
              redis := PublishAll(before.redis, before.db.intents, rows[..Stored(sends, sent)], ids))
  {
    hide Inv, Reachable, PublishAll, NextId;
    NothingPublished(before.redis, before.db.intents, ids);
    sent := 0;
    while sent < |rows| && sends[sent].Returns?
      invariant sent <= |rows| && forall i :: 0 <= i < sent ==> sends[i].Returns?
      invariant rt.Valid() && forall id :: id in rows[..sent] ==> id in rows
      invariant rt.s == before.(
                  publishers := before.publishers[publisher := Relay(rows, sent)],
                  redis := PublishAll(before.redis, before.db.intents, rows[..sent], ids))
      invariant forall i :: sent <= i < |ids| ==> NextId(rt.s.redis.stream, ids[i])
    {
      OneMorePublished(before.redis, before.db.intents, rows, ids, sent);
      SendEvent(rt, publisher, rows, ids, sent);
      sent := sent + 1;
    }
    if sent < |rows| && TookEffect(sends[sent]) {
      OneMorePublished(before.redis, before.db.intents, rows, ids, sent);
      SendEvent(rt, publisher, rows, ids, sent);
    }
  }

  lemma IntentsFree(relays: map<nat, Relay>, outbox: map<EventId, OutboxRow<ScoringResult>>, rows: seq<EventId>,
                    limit: nat)
    requires MayOpen(relays, outbox, rows, limit)
    ensures forall id :: id in rows ==> id in outbox
  {
  }

  lemma NothingPublished(redis: Redis, intents: map<EventId, OutboxRow<ScoringResult>>, ids: seq<StreamId>)
    ensures PublishAll(redis, intents, [], ids) == redis
  {
  }

  lemma OneMorePublished(redis: Redis, intents: map<EventId, OutboxRow<ScoringResult>>, rows: seq<EventId>,
                         ids: seq<StreamId>, n: nat)
    requires |ids| == |rows| && n < |rows| && forall id :: id in rows ==> id in intents
    ensures forall id :: id in rows[..n + 1] ==> id in rows
    ensures PublishAll(redis, intents, rows[..n + 1], ids)
            == PublishOnce(PublishAll(redis, intents, rows[..n], ids), rows[n], intents[rows[n]].message, ids[n])
  {
    assert rows[..n + 1][..n] == rows[..n];
    assert forall id :: id in rows[..n] ==> id in rows;
  }

  method OpenEvents(rt: Runtime, publisher: nat, rows: seq<EventId>)
    requires rt.Valid() && publisher !in rt.s.publishers
    requires MayOpen(rt.s.publishers, rt.s.db.intents, rows, rt.c.outboxBatchSize)
    modifies rt
    ensures rt.Valid() && rt.s == old(rt.s).(publishers := old(rt.s).publishers[publisher := Relay(rows, 0)])
  {
    hide Inv, Reachable, MayOpen;
    rt.Take(PublisherStep(publisher, Open(rows), StreamId(0, 0)));
  }

  method SendEvent(rt: Runtime, publisher: nat, rows: seq<EventId>, ids: seq<StreamId>, sent: nat)
    requires rt.Valid() && publisher in rt.s.publishers && rt.s.publishers[publisher] == Relay(rows, sent)
    requires sent < |rows| == |ids| && rows[sent] in rt.s.db.intents && Ascending(ids)
    requires forall i :: sent <= i < |ids| ==> NextId(rt.s.redis.stream, ids[i])
    modifies rt
    ensures rt.Valid()
    ensures rt.s == old(rt.s).(
              publishers := old(rt.s).publishers[publisher := Relay(rows, sent + 1)],
              redis := PublishOnce(old(rt.s).redis, rows[sent], old(rt.s).db.intents[rows[sent]].message, ids[sent]))
    ensures forall i :: sent < i < |ids| ==> NextId(rt.s.redis.stream, ids[i])
  {
    hide Inv, Reachable;
    rt.Take(PublisherStep(publisher, Send, ids[sent]));
  }

  method CloseEvents(rt: Runtime, publisher: nat, rows: seq<EventId>, sent: nat, publish: bool)
    requires rt.Valid() && publisher in rt.s.publishers && rt.s.publishers[publisher] == Relay(rows, sent)
    requires sent <= |rows| && (publish ==> sent == |rows|)
    modifies rt
    ensures rt.Valid()
    ensures rt.s.publishers == old(rt.s.publishers) - {publisher} && rt.s.redis == old(rt.s.redis)
    ensures rt.s.db.intents == if publish then Mark(old(rt.s.db.intents), rows) else old(rt.s.db.intents)
  {
    hide Inv, Reachable;
    rt.Take(PublisherStep(publisher, if publish then MarkAll else Rollback, StreamId(0, 0)));
  }
}
