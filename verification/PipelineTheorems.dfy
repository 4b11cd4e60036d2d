/** What holds in every reachable state of the pipeline, and when it comes to rest. */
module PipelineTheorems {
  import opened Events
  import opened Tables
  import opened Consumers
  import opened RedisStream
  import opened Pipeline
  import opened PipelineInvariant
  import opened PipelineTransactions
  import opened PipelineRuns
  import Subgraph
  import SubgraphTheorem

  // ---- the outbox relay ----

  /** The copies of a request in the whole topic. */
  function TopicCopies(topic: seq<Partition<ScoringRequest>>, id: EventId): nat {
    if topic == [] then 0 else TopicCopies(topic[..|topic| - 1], id) + Copies(topic[|topic| - 1].log, id)
  }

  lemma {:induction false} OnePartitionHoldsAll(c: Config, topic: seq<Partition<ScoringRequest>>,
                                                requests: map<EventId, ScoringRequest>, id: EventId)
    requires TopicMatches(c, topic, requests)
    ensures TopicCopies(topic, id) ==
            if id in requests && c.requestPartition(requests[id].tx) < |topic|
            then Copies(topic[c.requestPartition(requests[id].tx)].log, id) else 0
  {
    if topic != [] {
      var front, last := topic[..|topic| - 1], |topic| - 1;
      assert forall p :: 0 <= p < |front| ==> front[p] == topic[p];
      OnePartitionHoldsAll(c, front, requests, id);
      assert RequestLogMatches(c, last, topic[last].log, requests);
      if id !in requests || c.requestPartition(requests[id].tx) != last {
        NoCopies(c, last, topic[last].log, requests, id);
      }
    }
  }

  /** A request row has exactly as many copies in its topic as there were rolled-back relay
      transactions that sent it, and one more if it is marked published or an open
      transaction has sent it. */
  lemma CopiesAreExact(c: Config, s: State, id: EventId)
    requires WellFormed(c) && Reachable(c, s) && id in s.db.requests
    ensures TopicCopies(s.requests, id)
            == s.rolledBack[id] + (if s.db.requests[id].published || SentOpen(s.relays, id) then 1 else 0)
    ensures s.db.requests[id].published ==> TopicCopies(s.requests, id) >= 1
  {
    ReachableHolds(c, s);
    OnePartitionHoldsAll(c, s.requests, Messages(s.db.requests), id);
  }

  /** Nothing reaches the request topic but rows of the outbox, as they were written. */
  lemma TopicHoldsOnlyOutboxRows(c: Config, s: State, p: nat, o: nat)
    requires WellFormed(c) && Reachable(c, s)
    requires p < |s.requests| && o < |s.requests[p].log| && s.requests[p].log[o].Valid?
    ensures var r := s.requests[p].log[o].event;
            && r.eventId in s.db.requests && s.db.requests[r.eventId].message == r
            && p == c.requestPartition(r.tx)
  {
    ReachableHolds(c, s);
    assert RequestLogMatches(c, p, s.requests[p].log, Messages(s.db.requests));
  }

  // ---- the worker's guards ----

  lemma TopicRequestIsReady(c: Config, s: State, p: nat, o: nat)
    requires WellFormed(c) && Inv(c, s)
    requires p < |s.requests| && o < |s.requests[p].log| && s.requests[p].log[o].Valid?
    ensures var r := s.requests[p].log[o].event;
            && r.tx in s.db.nodes && s.db.nodes[r.tx].watermark >= r.watermark
            && GraphReady(c, s.db, r)
  {
    var r := s.requests[p].log[o].event;
    assert RequestLogMatches(c, p, s.requests[p].log, Messages(s.db.requests));
    assert Messages(s.db.requests)[r.eventId] == r;
    SubgraphTheorem.WatermarkCoversCenter(s.db, r.tx, c.hops, c.maxNodes, c.maxEdges, c.model);
  }

  /** A request that came through the outbox never meets the missing-graph checks: whenever
      a worker reads it, its transaction is stored at the request's watermark or above, and
      the query the worker makes reports a watermark that is not lower. */
  lemma GraphIsNeverMissing(c: Config, s: State, p: nat, o: nat)
    requires WellFormed(c) && Reachable(c, s)
    requires p < |s.requests| && o < |s.requests[p].log| && s.requests[p].log[o].Valid?
    ensures var r := s.requests[p].log[o].event;
            && r.tx in s.db.nodes && s.db.nodes[r.tx].watermark >= r.watermark
            && var view := Subgraph.Query(s.db, r.tx, c.hops, c.maxNodes, c.maxEdges, c.model);
               view.Some? && view.value.watermark >= r.watermark
  {
    hide Subgraph.Query;
    ReachableHolds(c, s);
    TopicRequestIsReady(c, s, p, o);
  }

  // ---- committed offsets ----

  /** Every offset the materializer has committed is a batch whose claim and scoring requests
      are all in the database, a dead letter, or a record lost in the failure branch. */
  lemma CommittedBatchesAreDurable(c: Config, s: State, o: nat)
    requires WellFormed(c) && Reachable(c, s) && o < s.graph.committed
    ensures o in s.graph.dead || o in Lost(s.graph) || BatchIsDurable(c, s, o)
  {
    ReachableHolds(c, s);
    CommittedIsAccounted(s.graph, 0, o);
    if o in s.graph.effects {
      EffectedBatchIsDurable(c, s, o);
    }
  }

  ghost predicate BatchIsDurable(c: Config, s: State, o: nat) {
    && o < |s.graph.log| && s.graph.log[o].Valid?
    && var b := s.graph.log[o].event;
       && (b.eventId, c.materializer) in s.db.inbox
       && forall tx :: tx in BatchIds(b) ==> tx in s.db.nodes && RequestId(b, tx) in s.db.requests
  }

  lemma EffectedBatchIsDurable(c: Config, s: State, o: nat)
    requires Inv(c, s) && o in s.graph.effects
    ensures BatchIsDurable(c, s, o)
  {
    var b := s.graph.log[o].event;
    assert SomeCopy(c, b);
    var k: nat :| IsCopy(c, k, b);
    assert BatchIds(b) == BatchIds(c.batches[k]);
    forall tx | tx in BatchIds(b)
      ensures tx in s.db.nodes && RequestId(b, tx) in s.db.requests
    {
      var id := RequestId(b, tx);
      assert RequestId(c.batches[k], tx) == id;
      assert id in Messages(s.db.requests);
      RequestTellsTx(c, s, id);
    }
  }

  /** A request's identity names its transaction. */
  lemma RequestTellsTx(c: Config, s: State, id: EventId)
    requires GraphSide(c, s.graph.log, s.graph.effects, s.db) && id in s.db.requests
    ensures id.Requested? && s.db.requests[id].message.tx == id.tx && id.tx in s.db.nodes
  {
    var m := Messages(s.db.requests)[id];
    assert FromSomeBatch(c, s.graph.log, m);
    var k :| FromBatch(c, s.graph.log, k, m);
  }

  /** Losses in the graph topic are isolated: any `retryBudget` consecutive committed offsets
      hold one that was materialized or dead-lettered. */
  lemma GraphLossesAreShort(c: Config, s: State, from: nat) returns (o: nat)
    requires WellFormed(c) && Reachable(c, s) && from + c.retryBudget <= s.graph.committed
    ensures from <= o < from + c.retryBudget
    ensures o in s.graph.dead || BatchIsDurable(c, s, o)
  {
    ReachableHolds(c, s);
    o := LossesAreShort(s.graph, 0, c.retryBudget, from);
    if o in s.graph.effects {
      EffectedBatchIsDurable(c, s, o);
    }
  }

  /** The worker loses nothing: every offset it has committed is a request whose result is in
      the result topic, or a dead letter. */
  lemma CommittedRequestsAreScored(c: Config, s: State, p: nat, o: nat)
    requires WellFormed(c) && Reachable(c, s) && p < |s.requests| && o < s.requests[p].committed
    ensures o in s.requests[p].dead
            || (o < |s.requests[p].log| && s.requests[p].log[o].Valid?
                && HasResult(s.results, Completed(s.requests[p].log[o].event.eventId, c.model)))
  {
    ReachableHolds(c, s);
    NothingLostWithoutSkips(s.requests[p], c.queueCapacity, o);
    assert RequestEffects(c, s.requests[p], s.results);
  }

  /** A worker's queue, shared by all its partitions, never outgrows its bound, and holds the
      next offsets of each partition in order. */
  lemma WorkerQueueIsFifo(c: Config, s: State)
    requires WellFormed(c) && Reachable(c, s)
    ensures forall w: nat :: Queued(s.requests, c.workerOf, w) <= c.queueCapacity
    ensures forall p, i :: 0 <= p < |s.requests| && s.requests[p].session.Running? && 0 <= i < |s.requests[p].session.queue| ==>
              s.requests[p].session.queue[i] == s.requests[p].session.position - |s.requests[p].session.queue| + i
  {
    hide Reachable, WellFormed;
    ReachableHolds(c, s);
    QueuesAreFifo(c, s);
  }

  lemma QueuesAreFifo(c: Config, s: State)
    requires PartitionsSound(c, s)
    ensures forall w: nat :: Queued(s.requests, c.workerOf, w) <= c.queueCapacity
    ensures forall p, i :: 0 <= p < |s.requests| && s.requests[p].session.Running? && 0 <= i < |s.requests[p].session.queue| ==>
              s.requests[p].session.queue[i] == s.requests[p].session.position - |s.requests[p].session.queue| + i
  {
    hide NeverLongGap;
    forall p, i | 0 <= p < |s.requests| && s.requests[p].session.Running? && 0 <= i < |s.requests[p].session.queue|
      ensures s.requests[p].session.queue[i] == s.requests[p].session.position - |s.requests[p].session.queue| + i
    {
      assert Sound(s.requests[p], c.queueCapacity);
    }
  }

  /** Every offset the projector has committed is a claimed result whose transaction has a
      canonical score, a dead letter, or a record lost in the failure branch. */
  lemma CommittedResultsAreProjected(c: Config, s: State, q: nat, o: nat)
    requires WellFormed(c) && Reachable(c, s) && q < |s.results| && o < s.results[q].committed
    ensures o in s.results[q].dead || o in Lost(s.results[q]) || ResultIsProjected(c, s, q, o)
  {
    ReachableHolds(c, s);
    CommittedIsAccounted(s.results[q], 0, o);
    if o in s.results[q].effects {
      EffectedResultIsProjected(c, s, q, o);
    }
  }

  ghost predicate ResultIsProjected(c: Config, s: State, q: nat, o: nat) {
    && q < |s.results| && o < |s.results[q].log| && s.results[q].log[o].Valid?
    && var x := s.results[q].log[o].event;
       && (x.eventId, c.projector) in s.db.inbox
       && (x.tx, c.model) in s.db.scores
  }

  lemma EffectedResultIsProjected(c: Config, s: State, q: nat, o: nat)
    requires Inv(c, s) && q < |s.results| && o in s.results[q].effects
    ensures ResultIsProjected(c, s, q, o)
  {
    assert ResultEffects(c, s.results[q], s.db.inbox);
    assert ResultLogKnown(c, s.results[q].log, Messages(s.db.requests));
  }

  // ---- publication ----

  /** The source of every canonical score has an intent; a published intent has its one entry
      in the stream; and no event has two. */
  lemma PublicationIsOnce(c: Config, s: State)
    requires WellFormed(c) && Reachable(c, s)
    ensures OncePerEvent(s.redis)
    ensures forall key :: key in s.db.scores ==> s.db.scores[key].source in s.db.intents
    ensures forall id :: id in s.db.intents && s.db.intents[id].published ==>
              id in s.redis.dedup && HasEntry(s.redis.stream, id, s.redis.dedup[id])
    ensures forall i :: 0 <= i < |s.redis.stream| ==>
              s.redis.stream[i].event in s.db.intents
              && s.redis.stream[i].payload == s.db.intents[s.redis.stream[i].event].message
  {
    ReachableHolds(c, s);
    forall key | key in s.db.scores
      ensures s.db.scores[key].source in s.db.intents
    {
      assert ScoreSound(c, s.db, key);
    }
  }

  // ---- at rest ----

  ghost predicate DrainedPartition<T>(p: Partition<T>) {
    p.committed == |p.log| && p.dead == {} && Lost(p) == {}
  }

  /** Everything is consumed and published, nothing was dead-lettered or lost. */
  ghost predicate AtRest(s: State) {
    && DrainedPartition(s.graph)
    && (forall p :: 0 <= p < |s.requests| ==> DrainedPartition(s.requests[p]))
    && (forall q :: 0 <= q < |s.results| ==> DrainedPartition(s.results[q]))
    && (forall id :: id in s.db.requests ==> s.db.requests[id].published)
    && (forall id :: id in s.db.intents ==> s.db.intents[id].published)
  }

  /** Each transaction belongs to one batch. */
  ghost predicate OneBatchEach(c: Config) {
    forall i, j :: 0 <= i < j < |c.batches| ==> BatchIds(c.batches[i]) !! BatchIds(c.batches[j])
  }

  ghost function ProducedIds(c: Config, log: seq<Record<GraphBatch>>): set<TxId> {
    set k, tx | 0 <= k < |c.batches| && Produced(c, log, k) && tx in BatchIds(c.batches[k]) :: tx
  }

  ghost predicate ComesFrom(c: Config, s: State, tx: TxId, k: nat) {
    k < |c.batches| && Produced(c, s.graph.log, k) && tx in BatchIds(c.batches[k])
  }

  lemma DrainedIsEffected<T>(p: Partition<T>, capacity: nat, o: nat)
    requires Sound(p, capacity) && DrainedPartition(p) && o < |p.log|
    ensures o in p.effects
  {
    CommittedIsAccounted(p, capacity, o);
  }

  lemma {:induction false} CopyExists(log: seq<Record<ScoringRequest>>, id: EventId) returns (o: nat)
    requires Copies(log, id) > 0
    ensures o < |log| && log[o].Valid? && log[o].event.eventId == id
  {
    var last := |log| - 1;
    if log[last].Valid? && log[last].event.eventId == id {
      o := last;
    } else {
      o := CopyExists(log[..last], id);
    }
  }

  /** At rest, a produced transaction's request was written, sent and scored. */
  lemma ProducedIsScored(c: Config, s: State, tx: TxId, k: nat)
    requires WellFormed(c) && Inv(c, s) && AtRest(s) && ComesFrom(c, s, tx, k)
    ensures (tx, c.model) in s.db.scores
  {
    hide StreamSide, LocksSound, NeverLongGap;
    var b := c.batches[k];
    var o :| 0 <= o < |s.graph.log| && s.graph.log[o].Valid? && IsCopy(c, k, s.graph.log[o].event);
    DrainedIsEffected(s.graph, 0, o);
    assert s.graph.log[o].event.eventId == b.eventId;
    assert (b.eventId, c.materializer) in s.db.inbox;
    var id := RequestId(b, tx);
    assert id in s.db.requests;
    RequestTellsTx(c, s, id);
    RequestIsScored(c, s, id);
  }

  lemma RequestIsScored(c: Config, s: State, id: EventId)
    requires WellFormed(c) && Inv(c, s) && AtRest(s) && id in s.db.requests
    ensures (s.db.requests[id].message.tx, c.model) in s.db.scores
  {
    hide StreamSide, LocksSound, GraphSide, NeverLongGap;
    var p := c.requestPartition(s.db.requests[id].message.tx);
    assert p < |s.requests| && Copies(s.requests[p].log, id) > 0;
    var o := CopyExists(s.requests[p].log, id);
    DrainedIsEffected(s.requests[p], c.queueCapacity, o);
    assert RequestEffects(c, s.requests[p], s.results);
    ResultIsClaimed(c, s, Completed(id, c.model));
    assert Messages(s.db.requests)[id] == s.db.requests[id].message;
  }

  lemma ResultIsClaimed(c: Config, s: State, id: EventId)
    requires PartitionsSound(c, s) && Projections(c, s.results, s.db.inbox) && AtRest(s) && HasResult(s.results, id)
    ensures (id, c.projector) in s.db.inbox
  {
    hide NeverLongGap;
    var q, o :| 0 <= q < |s.results| && 0 <= o < |s.results[q].log| && s.results[q].log[o].Valid?
                && s.results[q].log[o].event.eventId == id;
    DrainedIsEffected(s.results[q], 0, o);
    assert ResultEffects(c, s.results[q], s.db.inbox);
  }

  /** A known request comes from a produced batch. */
  lemma RequestComesFrom(c: Config, s: State, id: EventId) returns (k: nat)
    requires GraphSide(c, s.graph.log, s.graph.effects, s.db) && id in s.db.requests
    ensures ComesFrom(c, s, s.db.requests[id].message.tx, k)
    ensures id == RequestId(c.batches[k], s.db.requests[id].message.tx)
  {
    var m := Messages(s.db.requests)[id];
    assert FromSomeBatch(c, s.graph.log, m);
    k :| FromBatch(c, s.graph.log, k, m);
  }

  /** With one batch for each transaction, a transaction has one request. */
  lemma OneRequestEach(c: Config, s: State, a: EventId, b: EventId)
    requires GraphSide(c, s.graph.log, s.graph.effects, s.db) && OneBatchEach(c)
    requires a in s.db.requests && b in s.db.requests
    requires s.db.requests[a].message.tx == s.db.requests[b].message.tx
    ensures a == b
  {
    var tx := s.db.requests[a].message.tx;
    var j := RequestComesFrom(c, s, a);
    var k := RequestComesFrom(c, s, b);
  }

  function Txs(stream: seq<Entry>): seq<TxId> {
    seq(|stream|, i requires 0 <= i < |stream| => stream[i].payload.tx)
  }

  lemma EntryIsKnown(c: Config, s: State, i: nat)
    requires Inv(c, s) && i < |s.redis.stream|
    ensures var e := s.redis.stream[i];
            && e.event.Completed? && e.event.model == c.model && e.event.request in s.db.requests
            && s.db.requests[e.event.request].message.tx == e.payload.tx
  {
    hide GraphSide, LocksSound, CopiesCounted, PartitionsSound, TopicMatches;
    var e := s.redis.stream[i];
    assert e.event in s.db.intents;
    assert ResultKnown(c, Messages(s.db.requests), e.payload);
  }

  lemma StreamTxsAreDistinct(c: Config, s: State, i: nat, j: nat)
    requires Inv(c, s) && OneBatchEach(c) && i < j < |s.redis.stream|
    ensures s.redis.stream[i].payload.tx != s.redis.stream[j].payload.tx
  {
    EntryIsKnown(c, s, i);
    EntryIsKnown(c, s, j);
    if s.redis.stream[i].payload.tx == s.redis.stream[j].payload.tx {
      OneRequestEach(c, s, s.redis.stream[i].event.request, s.redis.stream[j].event.request);
    }
  }

  lemma ScoredIsPublished(c: Config, s: State, tx: TxId)
    requires Inv(c, s) && AtRest(s) && (tx, c.model) in s.db.scores
    ensures tx in Txs(s.redis.stream)
  {
    hide GraphSide, TopicMatches, CopiesCounted, Scored, ResultsKnown, Projections, PartitionsSound, ReferentialIntegrity, DrainedPartition;
    assert ScoreSound(c, s.db, (tx, c.model));
    var source := s.db.scores[(tx, c.model)].source;
    assert source in s.redis.dedup && HasEntry(s.redis.stream, source, s.redis.dedup[source]);
    var i :| 0 <= i < |s.redis.stream| && s.redis.stream[i].event == source;
    EntryIsKnown(c, s, i);
    assert Txs(s.redis.stream)[i] == tx;
  }

  lemma {:induction false} DistinctCount<T>(xs: seq<T>, s: set<T>)
    requires forall i, j :: 0 <= i < j < |xs| ==> xs[i] != xs[j]
    requires s == set x | x in xs
    ensures |xs| == |s|
    ensures forall x :: x in s ==> multiset(xs)[x] == 1
  {
    if xs != [] {
      var front, last := xs[..|xs| - 1], xs[|xs| - 1];
      assert xs == front + [last];
      DistinctCount(front, set x | x in front);
      assert s == (set x | x in front) + {last};
      assert multiset(xs) == multiset(front) + multiset{last};
      assert last !in multiset(front);
    }
  }

  /** At rest, with each transaction in one batch: the canonical scores are exactly those of
      the produced transactions, every produced transaction was appended to the stream exactly
      once and no other ever was, so the three counts agree. */
  lemma ExactlyOnceAtRest(c: Config, s: State)
    requires WellFormed(c) && OneBatchEach(c) && Reachable(c, s) && AtRest(s)
    ensures var ids := ProducedIds(c, s.graph.log);
            && s.db.scores.Keys == (set tx | tx in ids :: (tx, c.model))
            && (set tx | tx in Txs(s.redis.stream)) == ids
            && (forall tx :: tx in ids ==> multiset(Txs(s.redis.stream))[tx] == 1)
            && |s.db.scores| == |ids| == |s.redis.stream|
  {
    hide Inv, AtRest, Reachable, WellFormed, OneBatchEach, ProducedIds;
    ReachableHolds(c, s);
    var ids := ProducedIds(c, s.graph.log);
    ScoresAreTheProduced(c, s);
    StreamIsTheProduced(c, s);
    forall i, j | 0 <= i < j < |s.redis.stream|
      ensures s.redis.stream[i].payload.tx != s.redis.stream[j].payload.tx
    {
      StreamTxsAreDistinct(c, s, i, j);
    }
    DistinctCount(Txs(s.redis.stream), ids);
    KeysCount(ids, c.model);
  }

  /** The produced batches a transaction belongs to. */
  ghost function BatchesOf(c: Config, log: seq<Record<GraphBatch>>, tx: TxId): set<nat> {
    set k: nat | k < |c.batches| && Produced(c, log, k) && tx in BatchIds(c.batches[k])
  }

  /** At rest, whatever batches a transaction belongs to: the canonical scores are exactly those
      of the produced transactions, and each of these, and no other, was appended to the stream
      at least once and at most once for each produced batch it belongs to. */
  lemma ScoredOnceAtRest(c: Config, s: State)
    requires WellFormed(c) && Reachable(c, s) && AtRest(s)
    ensures var ids := ProducedIds(c, s.graph.log);
            && s.db.scores.Keys == (set tx | tx in ids :: (tx, c.model))
            && (set tx | tx in Txs(s.redis.stream)) == ids
            && (forall tx :: tx in ids ==>
                  1 <= multiset(Txs(s.redis.stream))[tx] <= |BatchesOf(c, s.graph.log, tx)|)
            && |s.db.scores| == |ids|
  {
    hide Inv, AtRest, Reachable, WellFormed, BatchesOf, ProducedIds;
    ReachableHolds(c, s);
    var ids := ProducedIds(c, s.graph.log);
    ScoresAreTheProduced(c, s);
    StreamIsTheProduced(c, s);
    KeysCount(ids, c.model);
    forall tx | tx in ids
      ensures 1 <= multiset(Txs(s.redis.stream))[tx] <= |BatchesOf(c, s.graph.log, tx)|
    {
      assert tx in Txs(s.redis.stream);
      var ks := EntriesHaveBatches(c, s, tx, |s.redis.stream|);
      assert Txs(s.redis.stream)[..|s.redis.stream|] == Txs(s.redis.stream);
      SubsetIsSmaller(ks, BatchesOf(c, s.graph.log, tx));
    }
  }

  lemma {:induction false} SubsetIsSmaller<T>(few: set<T>, more: set<T>)
    requires few <= more
    ensures |few| <= |more|
  {
    assert few + (more - few) == more;
  }

  /** The batches behind the first entries of a transaction, as many as the entries. */
  lemma {:induction false} EntriesHaveBatches(c: Config, s: State, tx: TxId, n: nat) returns (ks: set<nat>)
    requires Inv(c, s) && n <= |s.redis.stream|
    ensures |ks| == multiset(Txs(s.redis.stream)[..n])[tx] && ks <= BatchesOf(c, s.graph.log, tx)
    ensures forall k :: k in ks ==> exists i :: 0 <= i < n && EntryOf(c, s, i, k, tx)
  {
    hide Inv, EntryOf, BatchesOf;
    if n == 0 {
      ks := {};
    } else {
      var fewer := EntriesHaveBatches(c, s, tx, n - 1);
      var txs := Txs(s.redis.stream);
      assert txs[..n] == txs[..n - 1] + [txs[n - 1]];
      ks := fewer;
      if txs[n - 1] == tx {
        var k := EntryComesFrom(c, s, n - 1);
        if k in fewer {
          var i :| 0 <= i < n - 1 && EntryOf(c, s, i, k, tx);
          EntriesDiffer(c, s, i, n - 1, k, tx);
        }
        ks := fewer + {k};
      }
    }
  }

  lemma EntryComesFrom(c: Config, s: State, i: nat) returns (k: nat)
    requires Inv(c, s) && i < |s.redis.stream|
    ensures k in BatchesOf(c, s.graph.log, s.redis.stream[i].payload.tx)
    ensures EntryOf(c, s, i, k, s.redis.stream[i].payload.tx)
  {
    hide PartitionsSound, TopicMatches, LocksSound, CopiesCounted, Scored, ResultsKnown, Projections, ScoreSide, StreamSide, GraphSide;
    EntryIsKnown(c, s, i);
    k := RequestComesFrom(c, s, s.redis.stream[i].event.request);
  }

  /** The entry is of the request that batch `k` made for the transaction. */
  ghost predicate EntryOf(c: Config, s: State, i: nat, k: nat, tx: TxId) {
    && i < |s.redis.stream| && k < |c.batches|
    && s.redis.stream[i].event.Completed? && s.redis.stream[i].event.request == RequestId(c.batches[k], tx)
  }

  lemma EntriesDiffer(c: Config, s: State, i: nat, j: nat, k: nat, tx: TxId)
    requires Inv(c, s) && i < j < |s.redis.stream|
    ensures !(EntryOf(c, s, i, k, tx) && EntryOf(c, s, j, k, tx))
  {
    hide PartitionsSound, TopicMatches, LocksSound, CopiesCounted, Scored, ResultsKnown, Projections, ScoreSide, GraphSide;
    EntryIsKnown(c, s, i);
    EntryIsKnown(c, s, j);
  }

  lemma StreamIsTheProduced(c: Config, s: State)
    requires WellFormed(c) && Inv(c, s) && AtRest(s)
    ensures (set tx | tx in Txs(s.redis.stream)) == ProducedIds(c, s.graph.log)
  {
    hide AtRest, WellFormed, TopicMatches, LocksSound, CopiesCounted, Scored, ResultsKnown, Projections,
         ScoreSide, StreamSide, PartitionsSound, GraphSide, Produced;
    var ids, txs := ProducedIds(c, s.graph.log), Txs(s.redis.stream);
    ScoresAreTheProduced(c, s);
    forall tx | tx in ids
      ensures tx in txs
    {
      assert (tx, c.model) in s.db.scores.Keys;
      ScoredIsPublished(c, s, tx);
    }
    forall tx | tx in txs
      ensures tx in ids
    {
      var i :| 0 <= i < |txs| && txs[i] == tx;
      EntryIsKnown(c, s, i);
      var k := RequestComesFrom(c, s, s.redis.stream[i].event.request);
    }
  }

  lemma ScoresAreTheProduced(c: Config, s: State)
    requires WellFormed(c) && Inv(c, s) && AtRest(s)
    ensures s.db.scores.Keys == set tx | tx in ProducedIds(c, s.graph.log) :: (tx, c.model)
  {
    var ids := ProducedIds(c, s.graph.log);
    forall tx | tx in ids
      ensures (tx, c.model) in s.db.scores.Keys
    {
      var k: nat :| k < |c.batches| && Produced(c, s.graph.log, k) && tx in BatchIds(c.batches[k]);
      ProducedIsScored(c, s, tx, k);
    }
    forall key | key in s.db.scores.Keys
      ensures key.1 == c.model && key.0 in ids
    {
      assert ScoreSound(c, s.db, key);
      var k := RequestComesFrom(c, s, s.db.scores[key].source.request);
    }
  }

  lemma {:induction false} KeysCount(ids: set<TxId>, model: string)
    ensures |set tx | tx in ids :: (tx, model)| == |ids|
  {
    var keys := set tx | tx in ids :: (tx, model);
    if ids != {} {
      var tx :| tx in ids;
      KeysCount(ids - {tx}, model);
      assert keys == (set t | t in ids - {tx} :: (t, model)) + {(tx, model)};
    }
  }
}
