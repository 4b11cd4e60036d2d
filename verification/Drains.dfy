/** Runs that finish the work at hand: from a state in which no process is running, one service
    after another takes what waits for it and leaves nothing behind. */
module Drains {
  import opened Events
  import opened Tables
  import opened Consumers
  import opened RedisStream
  import opened StreamIds
  import opened Pipeline
  import opened PipelineInvariant
  import opened PipelineRuns
  import opened PipelineTheorems
  import opened Paths

  /** The settings leave room for one record at a time, and the materializer accepts every batch
      that is produced: it names no transaction twice, its edges stay within it, and the model
      reads its features. */
  ghost predicate AcceptsAll(c: Config) {
    && c.queueCapacity >= 1 && c.outboxBatchSize >= 1
    && forall k :: 0 <= k < |c.batches| ==> AcceptsBatch(c, c.batches[k])
  }

  ghost predicate AcceptsBatch(c: Config, b: GraphBatch) {
    DistinctIds(b) && EdgesWithin(b) && b.featureSchema == c.featureSchema
  }

  /** One step, which keeps the invariant. */
  lemma Go(c: Config, s: State, step: Step) returns (t: State)
    requires WellFormed(c) && Inv(c, s) && MayStep(c, s, step)
    ensures t == Do(c, s, step) && Inv(c, t) && Leads(c, s, t)
  {
    hide WellFormed, Inv, MayStep, Do, Leads;
    StepKeeps(c, s, step);
    OneStep(c, s, step);
    t := Do(c, s, step);
  }

  // ---- one partition ----

  /** Nothing was dead-lettered, nothing malformed arrived, and every committed record had its
      effect. */
  ghost predicate Undamaged<T>(p: Partition<T>) {
    && p.dead == {}
    && (forall o :: 0 <= o < |p.log| ==> p.log[o].Valid?)
    && (forall o: nat :: o < p.committed ==> o in p.effects)
  }

  ghost predicate Backlogged<T>(p: Partition<T>) {
    p.session.Stopped? && Undamaged(p) && p.committed < |p.log|
  }

  ghost predicate Drained<T>(p: Partition<T>) {
    p.session.Stopped? && Undamaged(p) && p.committed == |p.log|
  }

  /** One more record has had its effect and is committed. */
  function Consumed<T>(p: Partition<T>): Partition<T> {
    p.(committed := p.committed + 1, effects := p.effects + {p.committed})
  }

  /** A session has begun and has the next record in hand. */
  function InHandAt<T>(p: Partition<T>): Partition<T> {
    p.(session := Running(p.committed + 1, [], Handling(p.committed), 0))
  }

  lemma ConsumedIsUndamaged<T>(p: Partition<T>)
    requires Backlogged(p)
    ensures Consumed(p).session.Stopped? && Undamaged(Consumed(p)) && Consumed(p).committed <= |p.log|
  {
  }

  // ---- the materializer ----

  lemma BatchIsAccepted(c: Config, s: State, o: nat, now: int)
    requires Inv(c, s) && AcceptsAll(c) && o < |s.graph.log| && s.graph.log[o].Valid?
    ensures !Materialize(s.db, s.graph.log[o].event, c.materializer, now).Rejected?
  {
    hide PartitionsSound, TopicMatches, LocksSound, CopiesCounted, Scored, ResultsKnown, Projections, ScoreSide, StreamSide;
    var b := s.graph.log[o].event;
    assert SomeCopy(c, b);
    var k: nat :| IsCopy(c, k, b);
    assert AcceptsBatch(c, c.batches[k]);
    CopyIsAccepted(c, b, k);
    NothingFails(s.db.nodes, b);
  }

  lemma CopyIsAccepted(c: Config, b: GraphBatch, k: nat)
    requires IsCopy(c, k, b) && AcceptsBatch(c, c.batches[k])
    ensures DistinctIds(b) && EdgesWithin(b)
  {
    assert BatchIds(b) == BatchIds(c.batches[k]);
  }

  lemma NothingFails(nodes: map<TxId, NodeRow>, b: GraphBatch)
    requires DistinctIds(b) && EdgesWithin(b)
    ensures BatchError(nodes, b).None?
  {
  }

  lemma MaterializeOne(c: Config, s: State) returns (t: State)
    requires WellFormed(c) && Inv(c, s) && AcceptsAll(c) && Backlogged(s.graph)
    ensures Inv(c, t) && Leads(c, s, t)
    ensures t == s.(graph := Consumed(s.graph), db := t.db)
  {
    hide WellFormed, Inv, Leads, AcceptsAll;
    var o := s.graph.committed;
    var fetched := FetchBatch(c, s);
    BatchIsAccepted(c, fetched, o, 0);
    var effected := Go(c, fetched, Graph(Effect, 0));
    var committed := Go(c, effected, Graph(Commit, 0));
    t := Go(c, committed, Graph(Crash, 0));
    LeadsOn(c, s, fetched, effected);
    LeadsOn(c, s, effected, committed);
    LeadsOn(c, s, committed, t);
  }

  lemma FetchBatch(c: Config, s: State) returns (t: State)
    requires WellFormed(c) && Inv(c, s) && Backlogged(s.graph)
    ensures Inv(c, t) && Leads(c, s, t)
    ensures t == s.(graph := InHandAt(s.graph))
  {
    hide WellFormed, Inv, Leads;
    var started := Go(c, s, Graph(Start, 0));
    t := Go(c, started, Graph(Fetch, 0));
    LeadsOn(c, s, started, t);
  }

  lemma {:induction false} DrainGraph(c: Config, s: State) returns (t: State)
    requires WellFormed(c) && Inv(c, s) && AcceptsAll(c)
    requires s.graph.session.Stopped? && Undamaged(s.graph) && s.graph.committed <= |s.graph.log|
    ensures Inv(c, t) && Leads(c, s, t)
    ensures t == s.(graph := t.graph, db := t.db) && t.graph.log == s.graph.log && Drained(t.graph)
    decreases |s.graph.log| - s.graph.committed
  {
    hide WellFormed, Inv, Leads, AcceptsAll;
    if s.graph.committed == |s.graph.log| {
      LeadsToItself(c, s);
      t := s;
    } else {
      var further := MaterializeOne(c, s);
      ConsumedIsUndamaged(s.graph);
      t := DrainGraph(c, further);
      LeadsOn(c, s, further, t);
    }
  }

  // ---- the outbox relay ----

  function Unsent<M>(outbox: map<EventId, OutboxRow<M>>): set<EventId> {
    set id | id in outbox && !outbox[id].published
  }

  lemma MarkSends<M>(outbox: map<EventId, OutboxRow<M>>, id: EventId)
    requires id in Unsent(outbox)
    ensures Unsent(Mark(outbox, [id])) == Unsent(outbox) - {id}
  {
  }

  ghost predicate OnlyArrived<T>(before: Partition<T>, after: Partition<T>) {
    after == before.(log := after.log) && before.log <= after.log && (Undamaged(before) ==> Undamaged(after))
  }

  /** Valid records may have arrived; nothing else has changed. */
  ghost predicate OnlyArrivals<T>(before: seq<Partition<T>>, after: seq<Partition<T>>) {
    && |before| == |after|
    && forall p :: 0 <= p < |before| ==> OnlyArrived(before[p], after[p])
  }

  lemma ValidArrives<T>(parts: seq<Partition<T>>, p: nat, event: T)
    requires p < |parts|
    ensures OnlyArrivals(parts, parts[p := Append(parts[p], Valid(event))])
  {
  }

  lemma ArrivalsAdd<T>(a: seq<Partition<T>>, b: seq<Partition<T>>, d: seq<Partition<T>>)
    requires OnlyArrivals(a, b) && OnlyArrivals(b, d)
    ensures OnlyArrivals(a, d)
  {
    hide Undamaged;
  }

  lemma NothingArrives<T>(parts: seq<Partition<T>>)
    ensures OnlyArrivals(parts, parts)
  {
  }

  lemma RelayOne(c: Config, s: State, id: EventId) returns (t: State)
    requires WellFormed(c) && Inv(c, s) && c.outboxBatchSize >= 1
    requires s.relays == map[] && id in Unsent(s.db.requests)
    ensures Inv(c, t) && Leads(c, s, t) && OnlyArrivals(s.requests, t.requests)
    ensures t == s.(requests := t.requests, db := s.db.(requests := t.db.requests))
    ensures Unsent(t.db.requests) == Unsent(s.db.requests) - {id}
  {
    hide WellFormed, Inv, Leads, OnlyArrivals;
    var message := s.db.requests[id].message;
    PartitionExists(c, s, message.tx);
    ValidArrives(s.requests, c.requestPartition(message.tx), message);
    MarkSends(s.db.requests, id);
    var locked := Go(c, s, RelayStep(0, Open([id])));
    var sent := Go(c, locked, RelayStep(0, RelayOp.Send));
    t := Go(c, sent, RelayStep(0, MarkAll));
    assert t.relays == map[];
    LeadsOn(c, s, locked, sent);
    LeadsOn(c, s, sent, t);
  }

  lemma PartitionExists(c: Config, s: State, tx: TxId)
    requires WellFormed(c) && Inv(c, s)
    ensures c.requestPartition(tx) < |s.requests| && c.resultPartition(tx) < |s.results|
  {
  }

  lemma {:induction false} DrainRelay(c: Config, s: State) returns (t: State)
    requires WellFormed(c) && Inv(c, s) && c.outboxBatchSize >= 1 && s.relays == map[]
    ensures Inv(c, t) && Leads(c, s, t) && OnlyArrivals(s.requests, t.requests)
    ensures t == s.(requests := t.requests, db := s.db.(requests := t.db.requests)) && Unsent(t.db.requests) == {}
    decreases Unsent(s.db.requests)
  {
    hide WellFormed, Inv, Leads, OnlyArrivals;
    if Unsent(s.db.requests) == {} {
      LeadsToItself(c, s);
      NothingArrives(s.requests);
      t := s;
    } else {
      var id :| id in Unsent(s.db.requests);
      var further := RelayOne(c, s, id);
      t := DrainRelay(c, further);
      LeadsOn(c, s, further, t);
      ArrivalsAdd(s.requests, further.requests, t.requests);
    }
  }

  // ---- the worker ----

  ghost predicate AllQuiet<T>(parts: seq<Partition<T>>) {
    forall p :: 0 <= p < |parts| ==> parts[p].session.Stopped?
  }

  ghost predicate AllUndamaged<T>(parts: seq<Partition<T>>) {
    forall p :: 0 <= p < |parts| ==> Undamaged(parts[p]) && parts[p].committed <= |parts[p].log|
  }

  /** The first `n` partitions are drained. */
  ghost predicate DrainedUpTo<T>(parts: seq<Partition<T>>, n: nat) {
    n <= |parts| && forall p :: 0 <= p < n ==> Drained(parts[p])
  }

  lemma TakeRequest(c: Config, s: State, p: nat) returns (t: State)
    requires WellFormed(c) && Inv(c, s) && c.queueCapacity >= 1
    requires AllQuiet(s.requests) && p < |s.requests| && Backlogged(s.requests[p])
    ensures Inv(c, t) && Leads(c, s, t)
    ensures t == s.(requests := s.requests[p := InHandAt(s.requests[p])])
  {
    hide WellFormed, Inv, Leads;
    var part := s.requests[p];
    NothingQueued(s.requests, c.workerOf, c.workerOf(p));
    QueuedByUpdate(s.requests, c.workerOf, c.workerOf(p), p, Began(part));
    var started := Go(c, s, Request(p, Start, 0.0, 0));
    var polled := Go(c, started, Request(p, Poll(1), 0.0, 0));
    assert polled.requests[p].session.queue == [part.committed];
    t := Go(c, polled, Request(p, Op.Take, 0.0, 0));
    assert t.requests[p].session.queue == [];
    LeadsOn(c, s, started, polled);
    LeadsOn(c, s, polled, t);
  }

  /** Every request in the topic asks for the features the model reads. */
  lemma RequestIsReadable(c: Config, s: State, p: nat, o: nat)
    requires Inv(c, s) && AcceptsAll(c)
    requires p < |s.requests| && o < |s.requests[p].log| && s.requests[p].log[o].Valid?
    ensures s.requests[p].log[o].event.featureSchema == c.featureSchema
  {
    hide PartitionsSound, LocksSound, CopiesCounted, Scored, ResultsKnown, Projections, ScoreSide, StreamSide;
    var r := s.requests[p].log[o].event;
    assert RequestLogMatches(c, p, s.requests[p].log, Messages(s.db.requests));
    assert FromSomeBatch(c, s.graph.log, r);
    var k: nat :| FromBatch(c, s.graph.log, k, r);
    assert AcceptsBatch(c, c.batches[k]);
  }

  lemma ScoreOne(c: Config, s: State, p: nat) returns (t: State)
    requires WellFormed(c) && Inv(c, s) && AcceptsAll(c)
    requires AllQuiet(s.requests) && p < |s.requests| && Backlogged(s.requests[p])
    ensures Inv(c, t) && Leads(c, s, t) && OnlyArrivals(s.results, t.results)
    ensures t == s.(requests := s.requests[p := Consumed(s.requests[p])], results := t.results)
  {
    hide WellFormed, Inv, Leads, OnlyArrivals, GraphReady, AllQuiet;
    var o := s.requests[p].committed;
    var r := s.requests[p].log[o].event;
    var taken := TakeRequest(c, s, p);
    RequestIsReadable(c, taken, p, o);
    TopicRequestIsReady(c, taken, p, o);
    PartitionExists(c, taken, r.tx);
    ValidArrives(s.results, c.resultPartition(r.tx), ResultOf(c, r, 0.5, 1));
    var effected := Go(c, taken, Request(p, Effect, 0.5, 1));
    var committed := Go(c, effected, Request(p, Commit, 0.0, 0));
    t := Go(c, committed, Request(p, Crash, 0.0, 0));
    LeadsOn(c, s, taken, effected);
    LeadsOn(c, s, effected, committed);
    LeadsOn(c, s, committed, t);
  }

  lemma ConsumedKeepsOthers<T>(parts: seq<Partition<T>>, p: nat)
    requires AllQuiet(parts) && AllUndamaged(parts) && p < |parts| && parts[p].committed < |parts[p].log|
    ensures Backlogged(parts[p])
    ensures AllQuiet(parts[p := Consumed(parts[p])]) && AllUndamaged(parts[p := Consumed(parts[p])])
    ensures DrainedUpTo(parts, p) ==> DrainedUpTo(parts[p := Consumed(parts[p])], p)
  {
    ConsumedIsUndamaged(parts[p]);
  }

  /** One partition of the request topic after another is worked off. */
  lemma {:induction false} DrainRequests(c: Config, s: State, p: nat) returns (t: State)
    requires WellFormed(c) && Inv(c, s) && AcceptsAll(c)
    requires AllQuiet(s.requests) && AllUndamaged(s.requests) && DrainedUpTo(s.requests, p)
    ensures Inv(c, t) && Leads(c, s, t) && OnlyArrivals(s.results, t.results)
    ensures t == s.(requests := t.requests, results := t.results)
    ensures |t.requests| == |s.requests| && DrainedUpTo(t.requests, |t.requests|)
    decreases |s.requests| - p, if p < |s.requests| then |s.requests[p].log| - s.requests[p].committed else 0
  {
    hide WellFormed, Inv, Leads, OnlyArrivals, AcceptsAll, Undamaged;
    if p == |s.requests| {
      LeadsToItself(c, s);
      NothingArrives(s.results);
      t := s;
    } else if s.requests[p].committed == |s.requests[p].log| {
      t := DrainRequests(c, s, p + 1);
    } else {
      ConsumedKeepsOthers(s.requests, p);
      var further := ScoreOne(c, s, p);
      t := DrainRequests(c, further, p);
      LeadsOn(c, s, further, t);
      ArrivalsAdd(s.results, further.results, t.results);
    }
  }

  // ---- the projector ----

  /** A result of the topic is never refused: its transaction is stored, and no other score has
      its source. */
  lemma ResultIsAccepted(c: Config, s: State, q: nat, o: nat)
    requires Inv(c, s) && q < |s.results| && o < |s.results[q].log| && s.results[q].log[o].Valid?
    ensures !Project(s.db, s.results[q].log[o].event, c.projector).Refused?
  {
    hide PartitionsSound, LocksSound, CopiesCounted, Scored, Projections, StreamSide, TopicMatches,
         BatchesKnown, GraphEffects, BatchesExpanded, RequestsKnown, ReferentialIntegrity, ClaimsScored, IntentsKnown;
    var x := s.results[q].log[o].event;
    assert ResultLogKnown(c, s.results[q].log, Messages(s.db.requests));
    var id := x.eventId.request;
    assert id in Messages(s.db.requests) && Messages(s.db.requests)[id] == s.db.requests[id].message;
    forall key | key in s.db.scores && s.db.scores[key].source == x.eventId
      ensures key == (x.tx, x.model)
    {
      assert ScoreSound(c, s.db, key);
    }
  }

  lemma FetchResult(c: Config, s: State, q: nat) returns (t: State)
    requires WellFormed(c) && Inv(c, s) && AllQuiet(s.results) && q < |s.results| && Backlogged(s.results[q])
    ensures Inv(c, t) && Leads(c, s, t)
    ensures var begun := AllBegun(s.results, c.projectorOf, c.projectorOf(q));
            t == s.(results := begun[q := InHandAt(s.results[q])], failures := t.failures)
  {
    hide WellFormed, Inv, Leads;
    var started := Go(c, s, ProjectorStart(c.projectorOf(q)));
    assert started.results[q] == Began(s.results[q]);
    t := Go(c, started, Result(q, Fetch));
    LeadsOn(c, s, started, t);
  }

  /** Sessions that begin and end together leave the partitions as they were. */
  lemma BegunAndHalted(parts: seq<Partition<ScoringResult>>, owner: nat -> nat, q: nat, part: Partition<ScoringResult>)
    requires AllQuiet(parts) && q < |parts|
    ensures AllHalted(AllBegun(parts, owner, owner(q))[q := part], owner, owner(q)) == parts[q := Halted(part)]
  {
    var begun := AllBegun(parts, owner, owner(q))[q := part];
    var halted := AllHalted(begun, owner, owner(q));
    forall p | 0 <= p < |parts|
      ensures halted[p] == parts[q := Halted(part)][p]
    {
      if p != q {
        assert begun[p] == if owner(p) == owner(q) then Began(parts[p]) else parts[p];
      }
    }
  }

  lemma ProjectOne(c: Config, s: State, q: nat) returns (t: State)
    requires WellFormed(c) && Inv(c, s)
    requires AllQuiet(s.results) && q < |s.results| && Backlogged(s.results[q])
    ensures Inv(c, t) && Leads(c, s, t)
    ensures t == s.(results := s.results[q := Consumed(s.results[q])], failures := t.failures, db := t.db)
    ensures t.db.requests == s.db.requests
  {
    hide WellFormed, Inv, Leads, AllQuiet, AllBegun, AllHalted;
    var o := s.results[q].committed;
    var fetched := FetchResult(c, s, q);
    ResultIsAccepted(c, fetched, q, o);
    var effected := Go(c, fetched, Result(q, Effect));
    var committed := Go(c, effected, Result(q, Commit));
    t := Go(c, committed, ProjectorCrash(c.projectorOf(q)));
    var begun := AllBegun(s.results, c.projectorOf, c.projectorOf(q));
    assert committed.results == begun[q := committed.results[q]];
    BegunAndHalted(s.results, c.projectorOf, q, committed.results[q]);
    LeadsOn(c, s, fetched, effected);
    LeadsOn(c, s, effected, committed);
    LeadsOn(c, s, committed, t);
  }

  lemma {:induction false} DrainResults(c: Config, s: State, q: nat) returns (t: State)
    requires WellFormed(c) && Inv(c, s)
    requires AllQuiet(s.results) && AllUndamaged(s.results) && DrainedUpTo(s.results, q)
    ensures Inv(c, t) && Leads(c, s, t)
    ensures t == s.(results := t.results, failures := t.failures, db := t.db) && t.db.requests == s.db.requests
    ensures |t.results| == |s.results| && DrainedUpTo(t.results, |t.results|)
    decreases |s.results| - q, if q < |s.results| then |s.results[q].log| - s.results[q].committed else 0
  {
    hide WellFormed, Inv, Leads, Undamaged;
    if q == |s.results| {
      LeadsToItself(c, s);
      t := s;
    } else if s.results[q].committed == |s.results[q].log| {
      t := DrainResults(c, s, q + 1);
    } else {
      ConsumedKeepsOthers(s.results, q);
      var further := ProjectOne(c, s, q);
      t := DrainResults(c, further, q);
      LeadsOn(c, s, further, t);
    }
  }

  // ---- the publisher ----

  /** The server always has a next id. */
  lemma SomeNextId(redis: Redis) returns (id: StreamId)
    requires OncePerEvent(redis)
    ensures NextId(redis.stream, id)
  {
    if redis.stream == [] {
      id := StreamId(0, 0);
    } else {
      var last := redis.stream[|redis.stream| - 1].id;
      id := StreamId(last.ms, last.sequence + 1);
    }
  }

  lemma PublishOneIntent(c: Config, s: State, event: EventId) returns (t: State)
    requires WellFormed(c) && Inv(c, s) && c.outboxBatchSize >= 1
    requires s.publishers == map[] && event in Unsent(s.db.intents)
    ensures Inv(c, t) && Leads(c, s, t)
    ensures t == s.(redis := t.redis, db := s.db.(intents := t.db.intents))
    ensures Unsent(t.db.intents) == Unsent(s.db.intents) - {event}
  {
    hide WellFormed, Inv, Leads, NextId;
    var id := IdForStream(c, s);
    MarkSends(s.db.intents, event);
    var locked := Go(c, s, PublisherStep(0, Open([event]), id));
    var sent := Go(c, locked, PublisherStep(0, RelayOp.Send, id));
    t := Go(c, sent, PublisherStep(0, MarkAll, id));
    assert t.publishers == map[];
    LeadsOn(c, s, locked, sent);
    LeadsOn(c, s, sent, t);
  }

  lemma IdForStream(c: Config, s: State) returns (id: StreamId)
    requires Inv(c, s)
    ensures NextId(s.redis.stream, id)
  {
    id := SomeNextId(s.redis);
  }

  lemma {:induction false} DrainPublisher(c: Config, s: State) returns (t: State)
    requires WellFormed(c) && Inv(c, s) && c.outboxBatchSize >= 1 && s.publishers == map[]
    ensures Inv(c, t) && Leads(c, s, t)
    ensures t == s.(redis := t.redis, db := s.db.(intents := t.db.intents)) && Unsent(t.db.intents) == {}
    decreases Unsent(s.db.intents)
  {
    hide WellFormed, Inv, Leads;
    if Unsent(s.db.intents) == {} {
      LeadsToItself(c, s);
      t := s;
    } else {
      var event :| event in Unsent(s.db.intents);
      var further := PublishOneIntent(c, s, event);
      t := DrainPublisher(c, further);
      LeadsOn(c, s, further, t);
    }
  }
}
