/** Every reachable state satisfies the invariant, and what that says of whole runs. */
module PipelineRuns {
  import opened Events
  import opened Tables
  import opened Consumers
  import opened RedisStream
  import opened StreamIds
  import opened Pipeline
  import opened PipelineInvariant
  import opened PipelineTransactions

  // ---- consumer steps that touch only their partition ----

  lemma GraphMoves(c: Config, s: State, op: Op, now: int)
    requires WellFormed(c) && Inv(c, s) && MayStep(c, s, Graph(op, now)) && !op.Effect?
    ensures Inv(c, Do(c, s, Graph(op, now)))
  {
    hide GraphSide, TopicMatches, LocksSound, CopiesCounted, Scored, ResultsKnown, Projections, ScoreSide, StreamSide,
         PartitionsSound;
    GraphPartitionSound(c, s, op);
  }

  lemma PartitionsIgnoreTables(c: Config, s: State, t: Tables)
    requires PartitionsSound(c, s)
    ensures PartitionsSound(c, s.(db := t))
  {
    hide Sound, NeverLongGap, QueuesBounded;
  }

  lemma GraphPartitionSound(c: Config, s: State, op: Op)
    requires PartitionsSound(c, s) && Enabled(s.graph, op, 0)
    requires op.Skip? ==> s.graph.session.failures + 1 < c.retryBudget
    ensures PartitionsSound(c, s.(graph := Apply(s.graph, op, 0)))
  {
    hide Sound, NeverLongGap;
    ApplyKeepsSound(s.graph, op, 0);
    ApplyKeepsGaps(s.graph, op, 0, c.retryBudget);
  }

  lemma GraphActs(c: Config, s: State, now: int)
    requires WellFormed(c) && Inv(c, s) && MayStep(c, s, Graph(Effect, now))
    ensures Inv(c, Do(c, s, Graph(Effect, now)))
  {
    hide TopicMatches, LocksSound, CopiesCounted, Scored, ResultsKnown, Projections, ScoreSide, StreamSide,
         PartitionsSound;
    var o := s.graph.session.phase.offset;
    var b := s.graph.log[o].event;
    var later := Materialized(s.db, b, c.materializer, now);
    GraphPartitionSound(c, s, Effect);
    GraphSideByMaterialize(c, s.graph.log, s.graph.effects, o, s.db, now);
    PartitionsIgnoreTables(c, s.(graph := Apply(s.graph, Effect, 0)), later);
    if Materialize(s.db, b, c.materializer, now).Applied? {
      assert SomeCopy(c, b);
      DownstreamByMaterialize(c, s, b, now);
      CountedByMaterialize(c, s, b, now);
      ScoreSideByMaterialize(c, s.db, b, now);
    }
  }

  lemma RequestTopicMoves(c: Config, topic: seq<Partition<ScoringRequest>>, results: seq<Partition<ScoringResult>>,
                          requests: map<EventId, ScoringRequest>, p: nat, moved: Partition<ScoringRequest>)
    requires TopicMatches(c, topic, requests) && Scored(c, topic, results)
    requires p < |topic| && moved.log == topic[p].log && moved.effects == topic[p].effects
    ensures TopicMatches(c, topic[p := moved], requests) && Scored(c, topic[p := moved], results)
  {
    assert RequestLogMatches(c, p, topic[p].log, requests);
    assert RequestEffects(c, topic[p], results);
    assert RequestEffects(c, moved, results);
  }

  lemma RequestPartitionsSound(c: Config, s: State, p: nat, op: Op)
    requires PartitionsSound(c, s) && p < |s.requests| && Enabled(s.requests[p], op, c.queueCapacity) && !op.Skip?
    requires op.Poll? ==> Queued(s.requests, c.workerOf, c.workerOf(p)) + op.count <= c.queueCapacity
    ensures PartitionsSound(c, s.(requests := s.requests[p := Apply(s.requests[p], op, c.queueCapacity)]))
  {
    hide Sound, NeverLongGap, QueuesBounded;
    ApplyKeepsSound(s.requests[p], op, c.queueCapacity);
    QueuesStayBounded(c, s.requests, p, Apply(s.requests[p], op, c.queueCapacity));
  }

  lemma RequestMoves(c: Config, s: State, p: nat, op: Op, probability: real, scoredAt: int)
    requires WellFormed(c) && Inv(c, s) && MayStep(c, s, Request(p, op, probability, scoredAt)) && !op.Effect?
    ensures Inv(c, Do(c, s, Request(p, op, probability, scoredAt)))
  {
    hide GraphSide, TopicMatches, LocksSound, CopiesCounted, Scored, ResultsKnown, Projections, ScoreSide, StreamSide,
         PartitionsSound;
    RequestPartitionsSound(c, s, p, op);
    var moved := Apply(s.requests[p], op, c.queueCapacity);
    RequestTopicMoves(c, s.requests, s.results, Messages(s.db.requests), p, moved);
    CountsOfSameLogs(c, s, s.requests[p := moved]);
  }

  lemma ResultTopicMoves(c: Config, results: seq<Partition<ScoringResult>>, topic: seq<Partition<ScoringRequest>>,
                         requests: map<EventId, ScoringRequest>, inbox: set<(EventId, string)>,
                         q: nat, moved: Partition<ScoringResult>)
    requires ResultsKnown(c, results, requests) && Projections(c, results, inbox) && Scored(c, topic, results)
    requires q < |results| && moved.log == results[q].log && ResultEffects(c, moved, inbox)
    ensures ResultsKnown(c, results[q := moved], requests) && Projections(c, results[q := moved], inbox)
    ensures Scored(c, topic, results[q := moved])
  {
    assert ResultLogKnown(c, results[q].log, requests);
    ScoredStays(c, topic, results, results[q := moved]);
  }

  lemma ResultMoves(c: Config, s: State, q: nat, op: Op)
    requires WellFormed(c) && Inv(c, s) && MayStep(c, s, Result(q, op)) && !op.Effect?
    ensures Inv(c, Do(c, s, Result(q, op)))
  {
    hide GraphSide, TopicMatches, LocksSound, CopiesCounted, Scored, ResultsKnown, ScoreSide, StreamSide;
    ApplyKeepsSound(s.results[q], op, 0);
    var moved := Apply(s.results[q], op, 0);
    assert ResultEffects(c, s.results[q], s.db.inbox);
    ResultTopicMoves(c, s.results, s.requests, Messages(s.db.requests), s.db.inbox, q, moved);
  }

  lemma ResultActs(c: Config, s: State, q: nat)
    requires WellFormed(c) && Inv(c, s) && MayStep(c, s, Result(q, Effect))
    ensures Inv(c, Do(c, s, Result(q, Effect)))
  {
    hide GraphSide, TopicMatches, LocksSound, CopiesCounted, Scored, ScoreSide, StreamSide;
    var o := s.results[q].session.phase.offset;
    var x := s.results[q].log[o].event;
    var later := Projection(s.db, x, c.projector);
    assert ResultLogKnown(c, s.results[q].log, Messages(s.db.requests));
    ApplyKeepsSound(s.results[q], Effect, 0);
    var moved := Apply(s.results[q], Effect, 0);
    UpstreamByProject(c, s, x);
    ScoreSideByProject(c, s.db, x);
    StreamSideByProject(c, s, x);
    ProjectionsGrow(c, s.results, s.db.inbox, later.inbox);
    assert ResultEffects(c, s.results[q], later.inbox);
    ResultTopicMoves(c, s.results, s.requests, Messages(s.db.requests), later.inbox, q, moved);
  }

  /** Sessions of all partitions begin or end together; the logs and effects stay. */
  lemma ProjectorMoves(c: Config, s: State, step: Step)
    requires WellFormed(c) && Inv(c, s) && MayStep(c, s, step) && (step.ProjectorStart? || step.ProjectorCrash?)
    ensures Inv(c, Do(c, s, step))
  {
    hide GraphSide, TopicMatches, LocksSound, CopiesCounted, Scored, ResultsKnown, Projections, ScoreSide, StreamSide, Sound;
    var later := Do(c, s, step).results;
    forall q | 0 <= q < |later|
      ensures Sound(later[q], 0) && later[q].log == s.results[q].log && later[q].effects == s.results[q].effects
    {
      SessionsKeepSound(s.results[q], 0);
    }
    SameResultLogs(c, s.results, later, s.requests, Messages(s.db.requests), s.db.inbox);
  }

  lemma SameResultLogs(c: Config, results: seq<Partition<ScoringResult>>, later: seq<Partition<ScoringResult>>,
                       topic: seq<Partition<ScoringRequest>>, requests: map<EventId, ScoringRequest>,
                       inbox: set<(EventId, string)>)
    requires ResultsKnown(c, results, requests) && Projections(c, results, inbox) && Scored(c, topic, results)
    requires |later| == |results|
    requires forall q :: 0 <= q < |later| ==> later[q].log == results[q].log && later[q].effects == results[q].effects
    ensures ResultsKnown(c, later, requests) && Projections(c, later, inbox) && Scored(c, topic, later)
  {
    forall q | 0 <= q < |later|
      ensures ResultLogKnown(c, later[q].log, requests) && ResultEffects(c, later[q], inbox)
    {
      assert ResultLogKnown(c, results[q].log, requests) && ResultEffects(c, results[q], inbox);
    }
    ScoredStays(c, topic, results, later);
  }

  /** The result of a record in hand belongs to a known request. */
  lemma ResultIsKnown(c: Config, s: State, p: nat, probability: real, scoredAt: int)
    requires TopicMatches(c, s.requests, Messages(s.db.requests))
    requires p < |s.requests| && RecordInHand(s.requests[p]).Some?
    ensures ResultKnown(c, Messages(s.db.requests), ResultOf(c, RecordInHand(s.requests[p]).value, probability, scoredAt))
  {
    assert RequestLogMatches(c, p, s.requests[p].log, Messages(s.db.requests));
  }

  /** Once the result is in its topic, the request may count as effected. */
  lemma RequestCounts(c: Config, s: State, p: nat)
    requires WellFormed(c) && Inv(c, s) && p < |s.requests| && RecordInHand(s.requests[p]).Some?
    requires Enabled(s.requests[p], Effect, c.queueCapacity)
    requires HasResult(s.results, Completed(RecordInHand(s.requests[p]).value.eventId, c.model))
    ensures Inv(c, s.(requests := s.requests[p := Apply(s.requests[p], Effect, c.queueCapacity)]))
  {
    hide GraphSide, TopicMatches, LocksSound, CopiesCounted, Scored, ResultsKnown, Projections, ScoreSide, StreamSide;
    ApplyKeepsSound(s.requests[p], Effect, c.queueCapacity);
    var moved := Apply(s.requests[p], Effect, c.queueCapacity);
    QueuesStayBounded(c, s.requests, p, moved);
    RequestEffected(c, s.requests, s.results, Messages(s.db.requests), p, moved, s.requests[p].session.phase.offset);
    CountsOfSameLogs(c, s, s.requests[p := moved]);
  }

  /** A send to the result topic, then the mark that the request had its effect. */
  lemma RequestActs(c: Config, s: State, p: nat, probability: real, scoredAt: int)
    requires WellFormed(c) && Inv(c, s) && MayStep(c, s, Request(p, Effect, probability, scoredAt))
    ensures Inv(c, Do(c, s, Request(p, Effect, probability, scoredAt)))
  {
    hide GraphSide, TopicMatches, LocksSound, CopiesCounted, Scored, ResultsKnown, Projections, ScoreSide, StreamSide,
         PartitionsSound;
    var r := RecordInHand(s.requests[p]).value;
    var x := ResultOf(c, r, probability, scoredAt);
    var q := c.resultPartition(r.tx);
    ResultIsKnown(c, s, p, probability, scoredAt);
    ResultAppends(c, s, q, Valid(x));
    var sent := s.(results := s.results[q := Append(s.results[q], Valid(x))]);
    assert sent.results[q].log[|s.results[q].log|] == Valid(x);
    assert HasResult(sent.results, x.eventId);
    RequestCounts(c, sent, p);
  }

  lemma RequestEffected(c: Config, topic: seq<Partition<ScoringRequest>>, results: seq<Partition<ScoringResult>>,
                        requests: map<EventId, ScoringRequest>, p: nat, moved: Partition<ScoringRequest>, o: nat)
    requires TopicMatches(c, topic, requests) && Scored(c, topic, results)
    requires p < |topic| && moved.log == topic[p].log && moved.effects == topic[p].effects + {o}
    requires o < |moved.log| && moved.log[o].Valid? && HasResult(results, Completed(moved.log[o].event.eventId, c.model))
    ensures TopicMatches(c, topic[p := moved], requests) && Scored(c, topic[p := moved], results)
  {
    assert RequestLogMatches(c, p, topic[p].log, requests);
    assert RequestEffects(c, topic[p], results);
    assert RequestEffects(c, moved, results);
  }

  lemma CountsOfSameLogs(c: Config, s: State, topic: seq<Partition<ScoringRequest>>)
    requires Counted(c, s) && |topic| == |s.requests|
    requires forall p :: 0 <= p < |topic| ==> topic[p].log == s.requests[p].log
    ensures Counted(c, s.(requests := topic))
  {
  }

  // ---- relay steps ----

  lemma MarkKeepsMessages<M>(outbox: map<EventId, OutboxRow<M>>, rows: seq<EventId>)
    ensures Messages(Mark(outbox, rows)) == Messages(outbox)
    ensures Mark(outbox, rows).Keys == outbox.Keys
  {
  }

  lemma ScoresIgnoreMarks(c: Config, t: Tables, requests: map<EventId, OutboxRow<ScoringRequest>>)
    requires ScoresSound(c, t)
    requires requests.Keys == t.requests.Keys && Messages(requests) == Messages(t.requests)
    ensures ScoresSound(c, t.(requests := requests))
  {
    var later := t.(requests := requests);
    forall key | key in later.scores
      ensures ScoreSound(c, later, key)
    {
      assert ScoreSound(c, t, key);
      var id := t.scores[key].source;
      assert Messages(requests)[id.request] == Messages(t.requests)[id.request];
    }
  }

  lemma RowsUpdated(c: Config, s: State, requests: map<EventId, OutboxRow<ScoringRequest>>)
    requires GraphSide(c, s.graph.log, s.graph.effects, s.db) && ScoreSide(c, s.db)
    requires requests.Keys == s.db.requests.Keys && Messages(requests) == Messages(s.db.requests)
    ensures var later := s.db.(requests := requests);
            && GraphSide(c, s.graph.log, s.graph.effects, later)
            && ScoreSide(c, later)
  {
    hide ScoresSound, Messages, RequestsKnown, RequestsStored, ClaimsScored, BatchesExpanded, ResultKnown, BatchesKnown;
    ScoresIgnoreMarks(c, s.db, requests);
  }

  lemma RelayOpens(c: Config, s: State, r: nat, op: RelayOp)
    requires WellFormed(c) && Inv(c, s) && MayStep(c, s, RelayStep(r, op)) && (op.Open? || op.Rollback?)
    ensures Inv(c, Do(c, s, RelayStep(r, op)))
  {
    hide GraphSide, TopicMatches, LocksSound, CopiesCounted, Scored, ResultsKnown, Projections, ScoreSide, StreamSide;
    if op.Open? {
      MoreLocks(s.relays, s.db.requests, r, op.rows, c.outboxBatchSize);
      CountedByOpen(c, s, r, op.rows);
    } else {
      FewerLocks(s.relays, s.db.requests, r);
      CountedByRollback(c, s, r);
    }
  }

  lemma RowsNameThemselves(c: Config, s: State, row: EventId)
    requires GraphSide(c, s.graph.log, s.graph.effects, s.db) && row in s.db.requests
    ensures s.db.requests[row].message.eventId == row
  {
    assert Messages(s.db.requests)[row].eventId == row;
  }

  lemma RelaySends(c: Config, s: State, r: nat)
    requires WellFormed(c) && Inv(c, s) && MayStep(c, s, RelayStep(r, Send))
    ensures Inv(c, Do(c, s, RelayStep(r, Send)))
  {
    hide TopicMatches, LocksSound, CopiesCounted, Scored, ResultsKnown, Projections, GraphSide, ScoreSide, StreamSide;
    var row := s.relays[r].rows[s.relays[r].sent];
    var message := s.db.requests[row].message;
    RowsNameThemselves(c, s, row);
    RequestAppends(c, s, c.requestPartition(message.tx), Valid(message));
    SendKeepsLocks(s.relays, s.db.requests, r);
    CountedBySend(c, s, r);
  }

  lemma RelayMarks(c: Config, s: State, r: nat)
    requires WellFormed(c) && Inv(c, s) && MayStep(c, s, RelayStep(r, MarkAll))
    ensures Inv(c, Do(c, s, RelayStep(r, MarkAll)))
  {
    hide GraphSide, TopicMatches, LocksSound, CopiesCounted, Scored, ResultsKnown, Projections, ScoreSide, StreamSide;
    MarkKeepsMessages(s.db.requests, s.relays[r].rows);
    RowsUpdated(c, s, Mark(s.db.requests, s.relays[r].rows));
    FewerLocks(s.relays, s.db.requests, r);
    CountedByMark(c, s, r);
  }

  lemma LocksOfFailed(relays: map<nat, Relay>, outbox: map<EventId, OutboxRow<ScoringRequest>>, id: EventId, text: string)
    requires LocksSound(relays, outbox) && id in outbox
    ensures LocksSound(relays, WithFailure(outbox, id, text))
  {
    var requests := WithFailure(outbox, id, text);
    forall r | r in relays
      ensures RelaySound(relays, r, requests)
    {
      assert RelaySound(relays, r, outbox);
    }
  }

  lemma RowsFailed(c: Config, s: State, id: EventId, text: string)
    requires LocksSound(s.relays, s.db.requests) && Counted(c, s) && id in s.db.requests
    ensures var requests := WithFailure(s.db.requests, id, text);
            && Messages(requests) == Messages(s.db.requests)
            && LocksSound(s.relays, requests)
            && CopiesCounted(c, s.requests, requests, s.relays, s.rolledBack)
  {
    hide LocksSound, Copies, SentOpen;
    var requests := WithFailure(s.db.requests, id, text);
    LocksOfFailed(s.relays, s.db.requests, id, text);
    forall i | i in requests
      ensures RowCounted(c, s.requests, requests, s.relays, s.rolledBack, i)
    {
      assert RowCounted(c, s.requests, s.db.requests, s.relays, s.rolledBack, i);
    }
  }

  lemma FailureRecorded(c: Config, s: State, id: EventId, text: string)
    requires WellFormed(c) && Inv(c, s) && MayStep(c, s, RecordFailure(id, text))
    ensures Inv(c, Do(c, s, RecordFailure(id, text)))
  {
    hide GraphSide, TopicMatches, LocksSound, CopiesCounted, Scored, ResultsKnown, Projections, ScoreSide, StreamSide;
    RowsFailed(c, s, id, text);
    RowsUpdated(c, s, WithFailure(s.db.requests, id, text));
  }

  // ---- publisher steps ----

  lemma PublisherOpens(c: Config, s: State, r: nat, op: RelayOp, id: StreamId)
    requires WellFormed(c) && Inv(c, s) && MayStep(c, s, PublisherStep(r, op, id)) && (op.Open? || op.Rollback?)
    ensures Inv(c, Do(c, s, PublisherStep(r, op, id)))
  {
    hide GraphSide, TopicMatches, LocksSound, CopiesCounted, Scored, ResultsKnown, Projections, ScoreSide;
    if op.Open? {
      MoreLocks(s.publishers, s.db.intents, r, op.rows, c.outboxBatchSize);
    } else {
      FewerLocks(s.publishers, s.db.intents, r);
    }
  }

  lemma StreamSideBySend(redis: Redis, intents: map<EventId, OutboxRow<ScoringResult>>, publishers: map<nat, Relay>,
                         r: nat, id: StreamId)
    requires StreamSide(redis, intents, publishers)
    requires r in publishers && publishers[r].sent < |publishers[r].rows|
    requires publishers[r].rows[publishers[r].sent] in intents && NextId(redis.stream, id)
    ensures var event := publishers[r].rows[publishers[r].sent];
            var later := PublishOnce(redis, event, intents[event].message, id);
            StreamSide(later, intents, publishers[r := publishers[r].(sent := publishers[r].sent + 1)])
  {
    var event := publishers[r].rows[publishers[r].sent];
    var more := publishers[r := publishers[r].(sent := publishers[r].sent + 1)];
    PublishKeepsOnce(redis, event, intents[event].message, id);
    SendKeepsLocks(publishers, intents, r);
    assert SentRows(more[r]) == SentRows(publishers[r]) + [event];
  }

  lemma PublisherSends(c: Config, s: State, r: nat, id: StreamId)
    requires WellFormed(c) && Inv(c, s) && MayStep(c, s, PublisherStep(r, Send, id))
    ensures Inv(c, Do(c, s, PublisherStep(r, Send, id)))
  {
    hide GraphSide, TopicMatches, LocksSound, CopiesCounted, Scored, ResultsKnown, Projections, ScoreSide, StreamSide;
    StreamSideBySend(s.redis, s.db.intents, s.publishers, r, id);
  }

  lemma StreamSideByMark(redis: Redis, intents: map<EventId, OutboxRow<ScoringResult>>, publishers: map<nat, Relay>,
                         r: nat)
    requires StreamSide(redis, intents, publishers)
    requires r in publishers && publishers[r].sent == |publishers[r].rows|
    ensures StreamSide(redis, Mark(intents, publishers[r].rows), publishers - {r})
  {
    FewerLocks(publishers, intents, r);
    assert SentRows(publishers[r]) == publishers[r].rows;
  }

  lemma IntentsUpdated(c: Config, t: Tables, rows: seq<EventId>)
    requires ScoreSide(c, t)
    ensures ScoreSide(c, t.(intents := Mark(t.intents, rows)))
  {
    var later := t.(intents := Mark(t.intents, rows));
    assert ReferentialIntegrity(later) && ClaimsScored(c, later.inbox, Messages(later.requests), later.scores);
    assert IntentsKnown(c, later) by {
      hide ScoresSound, ResultKnown, ClaimsScored, ReferentialIntegrity;
    }
    assert ScoresSound(c, later) by {
      hide IntentsKnown, ClaimsScored, ReferentialIntegrity;
      forall key | key in later.scores
        ensures ScoreSound(c, later, key)
      {
        assert ScoreSound(c, t, key);
      }
    }
  }

  lemma GraphSideIgnoresIntents(c: Config, log: seq<Record<GraphBatch>>, effects: set<nat>, t: Tables,
                                rows: seq<EventId>)
    requires GraphSide(c, log, effects, t)
    ensures GraphSide(c, log, effects, t.(intents := Mark(t.intents, rows)))
  {
  }

  lemma PublisherMarks(c: Config, s: State, r: nat, id: StreamId)
    requires WellFormed(c) && Inv(c, s) && MayStep(c, s, PublisherStep(r, MarkAll, id))
    ensures Inv(c, Do(c, s, PublisherStep(r, MarkAll, id)))
  {
    hide GraphSide, TopicMatches, LocksSound, CopiesCounted, Scored, ResultsKnown, Projections, ScoreSide, StreamSide;
    StreamSideByMark(s.redis, s.db.intents, s.publishers, r);
    IntentsUpdated(c, s.db, s.publishers[r].rows);
    GraphSideIgnoresIntents(c, s.graph.log, s.graph.effects, s.db, s.publishers[r].rows);
  }

  // ---- every step, every run ----

  lemma StepKeeps(c: Config, s: State, step: Step)
    requires WellFormed(c) && Inv(c, s) && MayStep(c, s, step)
    ensures Inv(c, Do(c, s, step))
  {
    hide Inv, WellFormed;
    match step
    case Produce(k, at) => BatchProduced(c, s, k, at);
    case MalformedBatch => GraphAppends(c, s, Malformed);
    case MalformedRequest(p) => MalformedRequestKeeps(c, s, p);
    case MalformedResult(p) => ResultAppends(c, s, p, Malformed);
    case Graph(op, now) => if op.Effect? { GraphActs(c, s, now); } else { GraphMoves(c, s, op, now); }
    case Request(p, op, pr, at) => if op.Effect? { RequestActs(c, s, p, pr, at); } else { RequestMoves(c, s, p, op, pr, at); }
    case Result(q, op) => if op.Effect? { ResultActs(c, s, q); } else { ResultMoves(c, s, q, op); }
    case ProjectorStart(_) => ProjectorMoves(c, s, step);
    case ProjectorCrash(_) => ProjectorMoves(c, s, step);
    case RelayStep(r, op) => RelayKeeps(c, s, r, op);
    case RecordFailure(id, text) => FailureRecorded(c, s, id, text);
    case PublisherStep(r, op, id) => PublisherKeeps(c, s, r, op, id);
  }

  lemma BatchProduced(c: Config, s: State, k: nat, at: int)
    requires WellFormed(c) && Inv(c, s) && MayStep(c, s, Produce(k, at))
    ensures Inv(c, Do(c, s, Produce(k, at)))
  {
    var b := c.batches[k].(producedAt := at);
    assert IsCopy(c, k, b);
    GraphAppends(c, s, Valid(b));
  }

  lemma RelayKeeps(c: Config, s: State, r: nat, op: RelayOp)
    requires WellFormed(c) && Inv(c, s) && MayStep(c, s, RelayStep(r, op))
    ensures Inv(c, Do(c, s, RelayStep(r, op)))
  {
    match op
    case Send => RelaySends(c, s, r);
    case MarkAll => RelayMarks(c, s, r);
    case _ => RelayOpens(c, s, r, op);
  }

  lemma PublisherKeeps(c: Config, s: State, r: nat, op: RelayOp, id: StreamId)
    requires WellFormed(c) && Inv(c, s) && MayStep(c, s, PublisherStep(r, op, id))
    ensures Inv(c, Do(c, s, PublisherStep(r, op, id)))
  {
    match op
    case Send => PublisherSends(c, s, r, id);
    case MarkAll => PublisherMarks(c, s, r, id);
    case _ => PublisherOpens(c, s, r, op, id);
  }

  lemma {:induction false} RunKeeps(c: Config, run: seq<State>)
    requires WellFormed(c) && IsRun(c, run)
    ensures Inv(c, run[|run| - 1])
  {
    hide Inv, MayStep, Do, Init;
    if |run| == 1 {
      InitHolds(c);
    } else {
      var front := run[..|run| - 1];
      assert forall i :: 0 <= i < |front| - 1 ==> Next(c, front[i], front[i + 1]) by {
        hide Next;
        assert forall i :: 0 <= i < |front| - 1 ==> Next(c, run[i], run[i + 1]);
      }
      RunKeeps(c, front);
      assert Next(c, run[|run| - 2], run[|run| - 1]);
      var step :| MayStep(c, run[|run| - 2], step) && run[|run| - 1] == Do(c, run[|run| - 2], step);
      StepKeeps(c, run[|run| - 2], step);
    }
  }

  lemma ReachableHolds(c: Config, s: State)
    requires WellFormed(c) && Reachable(c, s)
    ensures Inv(c, s)
  {
    var run :| IsRun(c, run) && run[|run| - 1] == s;
    RunKeeps(c, run);
  }
}
