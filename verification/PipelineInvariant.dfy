/** What every step of the pipeline keeps. */
module PipelineInvariant {
  import opened Events
  import opened Tables
  import opened Consumers
  import opened RedisStream
  import opened Pipeline

  /** What an outbox says, whether or not it has been published. */
  function Messages<M>(outbox: map<EventId, OutboxRow<M>>): map<EventId, M> {
    map id | id in outbox :: outbox[id].message
  }

  // ---- logs, offsets and sessions ----

  ghost predicate PartitionsSound(c: Config, s: State) {
    && Sound(s.graph, 0) && NeverLongGap(s.graph, c.retryBudget)
    && |s.requests| == c.requestPartitions
    && |s.results| == c.resultPartitions
    && (forall p :: 0 <= p < |s.requests| ==> Sound(s.requests[p], c.queueCapacity) && s.requests[p].skipped == {})
    && (forall p :: 0 <= p < |s.results| ==> Sound(s.results[p], 0))
    && QueuesBounded(c, s.requests)
  }

  ghost predicate QueuesBounded(c: Config, topic: seq<Partition<ScoringRequest>>) {
    forall w: nat :: Queued(topic, c.workerOf, w) <= c.queueCapacity
  }

  lemma QueuesStayBounded(c: Config, topic: seq<Partition<ScoringRequest>>, p: nat, moved: Partition<ScoringRequest>)
    requires QueuesBounded(c, topic) && p < |topic|
    requires var more := QueueLength(moved) - QueueLength(topic[p]);
             more <= 0 || Queued(topic, c.workerOf, c.workerOf(p)) + more <= c.queueCapacity
    ensures QueuesBounded(c, topic[p := moved])
  {
    var later := topic[p := moved];
    forall w: nat
      ensures Queued(later, c.workerOf, w) <= c.queueCapacity
    {
      QueuedByUpdate(topic, c.workerOf, w, p, moved);
    }
  }

  // ---- from the graph topic to the outbox ----

  ghost predicate IsCopy(c: Config, k: nat, b: GraphBatch) {
    k < |c.batches| && b == c.batches[k].(producedAt := b.producedAt)
  }

  ghost predicate SomeCopy(c: Config, b: GraphBatch) {
    exists k :: IsCopy(c, k, b)
  }

  /** Batch `k` has been produced to the graph topic. */
  ghost predicate Produced(c: Config, log: seq<Record<GraphBatch>>, k: nat) {
    exists o :: 0 <= o < |log| && log[o].Valid? && IsCopy(c, k, log[o].event)
  }

  ghost predicate BatchesKnown(c: Config, log: seq<Record<GraphBatch>>) {
    forall o :: 0 <= o < |log| && log[o].Valid? ==> SomeCopy(c, log[o].event)
  }

  ghost predicate GraphEffects(c: Config, log: seq<Record<GraphBatch>>, effects: set<nat>,
                               inbox: set<(EventId, string)>) {
    forall o :: o in effects ==> o < |log| && log[o].Valid? && (log[o].event.eventId, c.materializer) in inbox
  }

  /** A claimed batch has a scoring request for each of its transactions. */
  ghost predicate BatchesExpanded(c: Config, inbox: set<(EventId, string)>, ids: set<EventId>) {
    forall k, tx :: 0 <= k < |c.batches| && (c.batches[k].eventId, c.materializer) in inbox && tx in BatchIds(c.batches[k])
      ==> RequestId(c.batches[k], tx) in ids
  }

  ghost predicate FromBatch(c: Config, log: seq<Record<GraphBatch>>, k: nat, m: ScoringRequest) {
    && k < |c.batches| && Produced(c, log, k)
    && m.tx in BatchIds(c.batches[k])
    && m.eventId == RequestId(c.batches[k], m.tx)
    && m.watermark == c.batches[k].timeStep
    && m.featureSchema == c.batches[k].featureSchema
    && m.sourceTimeStep == c.batches[k].timeStep && m.eventSequence == c.batches[k].sequence
  }

  ghost predicate FromSomeBatch(c: Config, log: seq<Record<GraphBatch>>, m: ScoringRequest) {
    exists k :: FromBatch(c, log, k, m)
  }

  ghost predicate RequestsKnown(c: Config, log: seq<Record<GraphBatch>>, requests: map<EventId, ScoringRequest>) {
    forall id :: id in requests ==> requests[id].eventId == id && FromSomeBatch(c, log, requests[id])
  }

  /** The transaction of every request is stored, at the request's watermark or above. */
  ghost predicate RequestsStored(requests: map<EventId, ScoringRequest>, nodes: map<TxId, NodeRow>) {
    forall id :: id in requests ==> requests[id].tx in nodes && requests[id].watermark <= nodes[requests[id].tx].watermark
  }

  ghost predicate GraphSide(c: Config, log: seq<Record<GraphBatch>>, effects: set<nat>, t: Tables) {
    && BatchesKnown(c, log)
    && GraphEffects(c, log, effects, t.inbox)
    && BatchesExpanded(c, t.inbox, t.requests.Keys)
    && RequestsKnown(c, log, Messages(t.requests))
    && RequestsStored(Messages(t.requests), t.nodes)
  }

  // ---- from the outbox to the request topic ----

  ghost predicate RequestLogMatches(c: Config, p: nat, log: seq<Record<ScoringRequest>>,
                                    requests: map<EventId, ScoringRequest>) {
    forall o :: 0 <= o < |log| && log[o].Valid? ==>
      var r := log[o].event;
      r.eventId in requests && requests[r.eventId] == r && c.requestPartition(r.tx) == p
  }

  ghost predicate TopicMatches(c: Config, topic: seq<Partition<ScoringRequest>>,
                               requests: map<EventId, ScoringRequest>) {
    forall p :: 0 <= p < |topic| ==> RequestLogMatches(c, p, topic[p].log, requests)
  }

  ghost predicate RelaySound<M(!new)>(relays: map<nat, Relay>, r: nat, outbox: map<EventId, OutboxRow<M>>)
    requires r in relays
  {
    var rows := relays[r].rows;
    && relays[r].sent <= |rows|
    && (forall i, j :: 0 <= i < j < |rows| ==> rows[i] != rows[j])
    && (forall id :: id in rows ==> id in outbox && !outbox[id].published)
    && (forall other, id :: other in relays && other != r && id in rows ==> id !in relays[other].rows)
  }

  ghost predicate LocksSound<M(!new)>(relays: map<nat, Relay>, outbox: map<EventId, OutboxRow<M>>) {
    forall r :: r in relays ==> RelaySound(relays, r, outbox)
  }

  /** Some open transaction has already sent the row. */
  ghost predicate SentOpen(relays: map<nat, Relay>, id: EventId) {
    exists r :: r in relays && id in SentRows(relays[r])
  }

  function Copies(log: seq<Record<ScoringRequest>>, id: EventId): nat {
    if log == [] then 0
    else
      var last := log[|log| - 1];
      Copies(log[..|log| - 1], id) + (if last.Valid? && last.event.eventId == id then 1 else 0)
  }

  ghost function Due(outbox: map<EventId, OutboxRow<ScoringRequest>>, relays: map<nat, Relay>, id: EventId): nat
    requires id in outbox
  {
    if outbox[id].published || SentOpen(relays, id) then 1 else 0
  }

  /** Every row has as many copies in its partition as rolled-back transactions sent, and
      one more if it is marked or an open transaction has sent it. */
  ghost predicate CopiesCounted(c: Config, topic: seq<Partition<ScoringRequest>>, outbox: map<EventId, OutboxRow<ScoringRequest>>,
                                relays: map<nat, Relay>, rolledBack: multiset<EventId>) {
    && (forall id :: id in outbox ==> RowCounted(c, topic, outbox, relays, rolledBack, id))
    && (forall id :: id in rolledBack ==> id in outbox)
  }

  ghost predicate RowCounted(c: Config, topic: seq<Partition<ScoringRequest>>, outbox: map<EventId, OutboxRow<ScoringRequest>>,
                             relays: map<nat, Relay>, rolledBack: multiset<EventId>, id: EventId)
    requires id in outbox
  {
    var p := c.requestPartition(outbox[id].message.tx);
    p < |topic| && Copies(topic[p].log, id) == rolledBack[id] + Due(outbox, relays, id)
  }

  ghost predicate Counted(c: Config, s: State) {
    CopiesCounted(c, s.requests, s.db.requests, s.relays, s.rolledBack)
  }

  // ---- from the request topic to the result topic ----

  ghost predicate HasResult(results: seq<Partition<ScoringResult>>, id: EventId) {
    exists q, o :: 0 <= q < |results| && 0 <= o < |results[q].log| && results[q].log[o].Valid?
                   && results[q].log[o].event.eventId == id
  }

  ghost predicate RequestEffects(c: Config, p: Partition<ScoringRequest>, results: seq<Partition<ScoringResult>>) {
    forall o :: o in p.effects ==>
      o < |p.log| && p.log[o].Valid? && HasResult(results, Completed(p.log[o].event.eventId, c.model))
  }

  ghost predicate Scored(c: Config, topic: seq<Partition<ScoringRequest>>, results: seq<Partition<ScoringResult>>) {
    forall p :: 0 <= p < |topic| ==> RequestEffects(c, topic[p], results)
  }

  ghost predicate ResultKnown(c: Config, requests: map<EventId, ScoringRequest>, x: ScoringResult) {
    && x.model == c.model && x.eventId.Completed? && x.eventId.model == c.model
    && x.eventId.request in requests
    && x.tx == requests[x.eventId.request].tx
    && x.watermark == requests[x.eventId.request].watermark
  }

  ghost predicate ResultLogKnown(c: Config, log: seq<Record<ScoringResult>>, requests: map<EventId, ScoringRequest>) {
    forall o :: 0 <= o < |log| && log[o].Valid? ==> ResultKnown(c, requests, log[o].event)
  }

  ghost predicate ResultsKnown(c: Config, results: seq<Partition<ScoringResult>>,
                               requests: map<EventId, ScoringRequest>) {
    forall q :: 0 <= q < |results| ==> ResultLogKnown(c, results[q].log, requests)
  }

  // ---- from the result topic to scores and intents ----

  ghost predicate ResultEffects(c: Config, p: Partition<ScoringResult>, inbox: set<(EventId, string)>) {
    forall o :: o in p.effects ==> o < |p.log| && p.log[o].Valid? && (p.log[o].event.eventId, c.projector) in inbox
  }

  ghost predicate Projections(c: Config, results: seq<Partition<ScoringResult>>, inbox: set<(EventId, string)>) {
    forall q :: 0 <= q < |results| ==> ResultEffects(c, results[q], inbox)
  }

  /** Every claimed result belongs to a known request, whose transaction has a score. */
  ghost predicate ClaimsScored(c: Config, inbox: set<(EventId, string)>, requests: map<EventId, ScoringRequest>,
                               scores: map<ScoreKey, Score>) {
    forall id :: (id, c.projector) in inbox && id.Completed? ==>
      id.request in requests && (requests[id.request].tx, c.model) in scores
  }

  /** The source of every canonical score is a claimed result with an intent to publish it. */
  ghost predicate ScoreSound(c: Config, t: Tables, key: ScoreKey)
    requires key in t.scores
  {
    var id := t.scores[key].source;
    && key.1 == c.model
    && id.Completed? && id.model == c.model
    && id.request in t.requests && t.requests[id.request].message.tx == key.0
    && id in t.intents && (id, c.projector) in t.inbox
  }

  ghost predicate ScoresSound(c: Config, t: Tables) {
    forall key :: key in t.scores ==> ScoreSound(c, t, key)
  }

  ghost predicate IntentsKnown(c: Config, t: Tables) {
    forall id :: id in t.intents ==>
      && t.intents[id].message.eventId == id
      && ResultKnown(c, Messages(t.requests), t.intents[id].message)
      && (id, c.projector) in t.inbox
  }

  ghost predicate ScoreSide(c: Config, t: Tables) {
    && ReferentialIntegrity(t)
    && ClaimsScored(c, t.inbox, Messages(t.requests), t.scores)
    && ScoresSound(c, t)
    && IntentsKnown(c, t)
  }

  // ---- from the intents to the stream ----

  ghost predicate StreamSide(redis: Redis, intents: map<EventId, OutboxRow<ScoringResult>>,
                             publishers: map<nat, Relay>) {
    && OncePerEvent(redis)
    && LocksSound(publishers, intents)
    && (forall e :: e in redis.dedup ==> e in intents)
    && (forall id :: id in intents && intents[id].published ==> id in redis.dedup)
    && (forall r, id :: r in publishers && id in SentRows(publishers[r]) ==> id in redis.dedup)
    && (forall i :: 0 <= i < |redis.stream| ==>
          redis.stream[i].event in intents && redis.stream[i].payload == intents[redis.stream[i].event].message)
  }

  ghost predicate Inv(c: Config, s: State) {
    && PartitionsSound(c, s)
    && GraphSide(c, s.graph.log, s.graph.effects, s.db)
    && TopicMatches(c, s.requests, Messages(s.db.requests))
    && LocksSound(s.relays, s.db.requests)
    && CopiesCounted(c, s.requests, s.db.requests, s.relays, s.rolledBack)
    && Scored(c, s.requests, s.results)
    && ResultsKnown(c, s.results, Messages(s.db.requests))
    && Projections(c, s.results, s.db.inbox)
    && ScoreSide(c, s.db)
    && StreamSide(s.redis, s.db.intents, s.publishers)
  }

  lemma InitHolds(c: Config)
    requires WellFormed(c)
    ensures Inv(c, Init(c))
  {
    FreshIsSound<GraphBatch>(0, c.retryBudget);
    FreshIsSound<ScoringRequest>(c.queueCapacity, c.retryBudget);
    FreshIsSound<ScoringResult>(0, c.retryBudget);
    forall w: nat
      ensures Queued(Init(c).requests, c.workerOf, w) == 0
    {
      NothingQueued(Init(c).requests, c.workerOf, w);
    }
  }

  lemma PartitionCounts(c: Config, s: State)
    requires Inv(c, s)
    ensures |s.requests| == c.requestPartitions && |s.results| == c.resultPartitions
  {
  }

  // ---- appending to the topics ----

  lemma CopyStays(c: Config, log: seq<Record<GraphBatch>>, r: Record<GraphBatch>, k: nat)
    requires Produced(c, log, k)
    ensures Produced(c, log + [r], k)
  {
    var o :| 0 <= o < |log| && log[o].Valid? && IsCopy(c, k, log[o].event);
    assert (log + [r])[o] == log[o];
  }

  lemma GraphLogGrows(c: Config, log: seq<Record<GraphBatch>>, effects: set<nat>, t: Tables, r: Record<GraphBatch>)
    requires GraphSide(c, log, effects, t)
    requires r.Valid? ==> SomeCopy(c, r.event)
    ensures GraphSide(c, log + [r], effects, t)
  {
    var requests := Messages(t.requests);
    forall id | id in requests
      ensures FromSomeBatch(c, log + [r], requests[id])
    {
      assert FromSomeBatch(c, log, requests[id]);
      var k :| FromBatch(c, log, k, requests[id]);
      CopyStays(c, log, r, k);
      assert FromBatch(c, log + [r], k, requests[id]);
    }
  }

  lemma GraphAppends(c: Config, s: State, r: Record<GraphBatch>)
    requires Inv(c, s) && (r.Valid? ==> SomeCopy(c, r.event))
    ensures Inv(c, s.(graph := Append(s.graph, r)))
  {
    AppendKeepsSound(s.graph, r, 0, c.retryBudget);
    GraphLogGrows(c, s.graph.log, s.graph.effects, s.db, r);
  }

  lemma ResultStays(results: seq<Partition<ScoringResult>>, later: seq<Partition<ScoringResult>>, id: EventId)
    requires HasResult(results, id)
    requires |later| == |results| && forall q :: 0 <= q < |results| ==> results[q].log <= later[q].log
    ensures HasResult(later, id)
  {
    var q, o :| 0 <= q < |results| && 0 <= o < |results[q].log| && results[q].log[o].Valid?
                && results[q].log[o].event.eventId == id;
    assert later[q].log[o] == results[q].log[o];
  }

  lemma ScoredStays(c: Config, topic: seq<Partition<ScoringRequest>>, results: seq<Partition<ScoringResult>>,
                    later: seq<Partition<ScoringResult>>)
    requires Scored(c, topic, results)
    requires |later| == |results| && forall q :: 0 <= q < |results| ==> results[q].log <= later[q].log
    ensures Scored(c, topic, later)
  {
    forall p | 0 <= p < |topic|
      ensures RequestEffects(c, topic[p], later)
    {
      assert RequestEffects(c, topic[p], results);
      forall o | o in topic[p].effects
        ensures HasResult(later, Completed(topic[p].log[o].event.eventId, c.model))
      {
        ResultStays(results, later, Completed(topic[p].log[o].event.eventId, c.model));
      }
    }
  }

  lemma ResultTopicGrows(c: Config, topic: seq<Partition<ScoringRequest>>, results: seq<Partition<ScoringResult>>,
                         inbox: set<(EventId, string)>, requests: map<EventId, ScoringRequest>,
                         q: nat, r: Record<ScoringResult>)
    requires Scored(c, topic, results) && ResultsKnown(c, results, requests) && Projections(c, results, inbox)
    requires q < |results| && (r.Valid? ==> ResultKnown(c, requests, r.event))
    ensures var later := results[q := Append(results[q], r)];
            Scored(c, topic, later) && ResultsKnown(c, later, requests) && Projections(c, later, inbox)
  {
    var later := results[q := Append(results[q], r)];
    ScoredStays(c, topic, results, later);
    assert ResultLogKnown(c, results[q].log, requests);
    assert ResultLogKnown(c, later[q].log, requests);
    assert ResultEffects(c, results[q], inbox);
    assert ResultEffects(c, later[q], inbox);
  }

  lemma ResultPartitionsSound(c: Config, s: State, q: nat, r: Record<ScoringResult>)
    requires PartitionsSound(c, s) && q < |s.results|
    ensures PartitionsSound(c, s.(results := s.results[q := Append(s.results[q], r)]))
  {
    AppendKeepsSound(s.results[q], r, 0, c.retryBudget);
  }

  lemma ResultAppends(c: Config, s: State, q: nat, r: Record<ScoringResult>)
    requires Inv(c, s) && q < |s.results|
    requires r.Valid? ==> ResultKnown(c, Messages(s.db.requests), r.event)
    ensures Inv(c, s.(results := s.results[q := Append(s.results[q], r)]))
  {
    ResultPartitionsSound(c, s, q, r);
    ResultTopicGrows(c, s.requests, s.results, s.db.inbox, Messages(s.db.requests), q, r);
  }

  lemma CopiesOfAppend(log: seq<Record<ScoringRequest>>, r: Record<ScoringRequest>, id: EventId)
    ensures Copies(log + [r], id) == Copies(log, id) + (if r.Valid? && r.event.eventId == id then 1 else 0)
  {
    assert (log + [r])[..|log + [r]| - 1] == log;
  }

  /** Appending to the request topic keeps everything but the count of copies. */
  lemma RequestAppends(c: Config, s: State, p: nat, r: Record<ScoringRequest>)
    requires Inv(c, s) && p < |s.requests|
    requires r.Valid? ==> r.event.eventId in s.db.requests && s.db.requests[r.event.eventId].message == r.event
                          && c.requestPartition(r.event.tx) == p
    ensures var topic := s.requests[p := Append(s.requests[p], r)];
            && PartitionsSound(c, s.(requests := topic))
            && TopicMatches(c, topic, Messages(s.db.requests))
            && Scored(c, topic, s.results)
  {
    AppendKeepsSound(s.requests[p], r, c.queueCapacity, c.retryBudget);
    QueuesStayBounded(c, s.requests, p, Append(s.requests[p], r));
    var topic := s.requests[p := Append(s.requests[p], r)];
    assert RequestLogMatches(c, p, s.requests[p].log, Messages(s.db.requests));
    assert RequestLogMatches(c, p, topic[p].log, Messages(s.db.requests));
    assert RequestEffects(c, s.requests[p], s.results);
    assert RequestEffects(c, topic[p], s.results);
  }

  lemma MalformedRequestKeeps(c: Config, s: State, p: nat)
    requires Inv(c, s) && p < |s.requests|
    ensures Inv(c, s.(requests := s.requests[p := Append(s.requests[p], Malformed)]))
  {
    RequestAppends(c, s, p, Malformed);
    forall id | id in s.db.requests
      ensures Copies(s.requests[p].log + [Malformed], id) == Copies(s.requests[p].log, id)
    {
      CopiesOfAppend(s.requests[p].log, Malformed, id);
    }
  }
}
