/** The database transactions and the relay steps keep the pipeline's invariant. */
module PipelineTransactions {
  import opened Events
  import opened Tables
  import opened Consumers
  import opened RedisStream
  import opened Pipeline
  import opened PipelineInvariant

  // ---- materializing a batch ----

  /** Two produced batches with the same identity are copies of one batch. */
  lemma SameIdSameBatch(c: Config, j: nat, k: nat)
    requires WellFormed(c) && j < |c.batches| && k < |c.batches|
    requires c.batches[j].eventId == c.batches[k].eventId
    ensures j == k
  {
  }

  lemma ExpandedByMaterialize(c: Config, t: Tables, b: GraphBatch, j: nat, now: int)
    requires WellFormed(c) && IsCopy(c, j, b)
    requires BatchesExpanded(c, t.inbox, t.requests.Keys)
    requires Materialize(t, b, c.materializer, now).Applied?
    ensures var later := Materialize(t, b, c.materializer, now).tables;
            BatchesExpanded(c, later.inbox, later.requests.Keys)
  {
    var later := Materialize(t, b, c.materializer, now).tables;
    assert BatchIds(b) == BatchIds(c.batches[j]);
    forall k, tx | 0 <= k < |c.batches| && (c.batches[k].eventId, c.materializer) in later.inbox && tx in BatchIds(c.batches[k])
      ensures RequestId(c.batches[k], tx) in later.requests.Keys
    {
      if (c.batches[k].eventId, c.materializer) !in t.inbox {
        SameIdSameBatch(c, j, k);
        assert RequestId(c.batches[k], tx) == RequestId(b, tx);
        assert RequestId(b, tx) in RequestIds(b);
      }
    }
  }

  lemma KnownByMaterialize(c: Config, log: seq<Record<GraphBatch>>, t: Tables, b: GraphBatch, j: nat, now: int)
    requires WellFormed(c) && IsCopy(c, j, b) && Produced(c, log, j)
    requires RequestsKnown(c, log, Messages(t.requests)) && RequestsStored(Messages(t.requests), t.nodes)
    requires Materialize(t, b, c.materializer, now).Applied?
    ensures var later := Materialize(t, b, c.materializer, now).tables;
            RequestsKnown(c, log, Messages(later.requests)) && RequestsStored(Messages(later.requests), later.nodes)
  {
    var later := Materialize(t, b, c.materializer, now).tables;
    forall id | id in later.requests
      ensures later.requests[id].message.eventId == id && FromSomeBatch(c, log, later.requests[id].message)
      ensures var m := later.requests[id].message; m.tx in later.nodes && m.watermark <= later.nodes[m.tx].watermark
    {
      if id in t.requests {
        assert later.requests[id] == t.requests[id];
        assert id in Messages(t.requests) && Messages(t.requests)[id] == t.requests[id].message;
      } else {
        NewRequestIsKnown(c, log, t, b, j, now, id);
      }
    }
  }

  lemma NewRequestIsKnown(c: Config, log: seq<Record<GraphBatch>>, t: Tables, b: GraphBatch, j: nat, now: int,
                          id: EventId)
    requires WellFormed(c) && IsCopy(c, j, b) && Produced(c, log, j)
    requires Materialize(t, b, c.materializer, now).Applied?
    requires id in Materialize(t, b, c.materializer, now).tables.requests && id !in t.requests
    ensures var later := Materialize(t, b, c.materializer, now).tables;
            var m := later.requests[id].message;
            && m.eventId == id && FromSomeBatch(c, log, m)
            && m.tx in later.nodes && m.watermark <= later.nodes[m.tx].watermark
  {
    hide Produced;
    assert id in RequestIds(b);
    var n :| n in b.nodes && id == RequestId(b, n.tx);
    assert n.tx in BatchIds(b);
    assert BatchIds(b) == BatchIds(c.batches[j]);
    assert FromBatch(c, log, j, Materialize(t, b, c.materializer, now).tables.requests[id].message);
  }

  lemma GraphSideByMaterialize(c: Config, log: seq<Record<GraphBatch>>, effects: set<nat>, o: nat, t: Tables, now: int)
    requires WellFormed(c) && GraphSide(c, log, effects, t)
    requires o < |log| && log[o].Valid? && !Materialize(t, log[o].event, c.materializer, now).Rejected?
    ensures GraphSide(c, log, effects + {o}, Materialized(t, log[o].event, c.materializer, now))
  {
    var b := log[o].event;
    assert SomeCopy(c, b);
    var j :| IsCopy(c, j, b);
    if Materialize(t, b, c.materializer, now).Applied? {
      ExpandedByMaterialize(c, t, b, j, now);
      KnownByMaterialize(c, log, t, b, j, now);
    }
  }

  /** Requests are only ever added, as they were. */
  ghost predicate Grows<M(!new)>(few: map<EventId, M>, more: map<EventId, M>) {
    forall id :: id in few ==> id in more && more[id] == few[id]
  }

  lemma KnownGrows(c: Config, topic: seq<Partition<ScoringRequest>>, results: seq<Partition<ScoringResult>>,
                   few: map<EventId, ScoringRequest>, more: map<EventId, ScoringRequest>)
    requires TopicMatches(c, topic, few) && ResultsKnown(c, results, few) && Grows(few, more)
    ensures TopicMatches(c, topic, more) && ResultsKnown(c, results, more)
  {
    forall p | 0 <= p < |topic|
      ensures RequestLogMatches(c, p, topic[p].log, more)
    {
      assert RequestLogMatches(c, p, topic[p].log, few);
    }
    forall q | 0 <= q < |results|
      ensures ResultLogKnown(c, results[q].log, more)
    {
      assert ResultLogKnown(c, results[q].log, few);
    }
  }

  lemma {:induction false} NoCopies(c: Config, p: nat, log: seq<Record<ScoringRequest>>,
                                    requests: map<EventId, ScoringRequest>, id: EventId)
    requires RequestLogMatches(c, p, log, requests)
    requires id !in requests || c.requestPartition(requests[id].tx) != p
    ensures Copies(log, id) == 0
  {
    if log != [] {
      var front := log[..|log| - 1];
      assert forall o :: 0 <= o < |front| ==> front[o] == log[o];
      NoCopies(c, p, front, requests, id);
      var last := log[|log| - 1];
      assert last.Valid? ==> last.event.eventId in requests;
    }
  }

  lemma CountedByMaterialize(c: Config, s: State, b: GraphBatch, now: int)
    requires WellFormed(c) && Inv(c, s) && Materialize(s.db, b, c.materializer, now).Applied?
    ensures var later := Materialize(s.db, b, c.materializer, now).tables;
            Counted(c, s.(db := later)) && LocksSound(s.relays, later.requests)
  {
    hide GraphSide, Scored, ResultsKnown, Projections, ScoreSide, StreamSide, PartitionsSound, TopicMatches, Copies;
    PartitionCounts(c, s);
    var later := Materialize(s.db, b, c.materializer, now).tables;
    OldRowsStay(s.db, b, c.materializer, now);
    hide Materialize, LocksSound;
    MoreRowsKeepLocks(s.relays, s.db.requests, later.requests);
    forall id | id in later.requests
      ensures RowCounted(c, s.requests, later.requests, s.relays, s.rolledBack, id)
    {
      if id !in s.db.requests {
        NewRowHasNoCopies(c, s, id, c.requestPartition(later.requests[id].message.tx));
      } else {
        assert RowCounted(c, s.requests, s.db.requests, s.relays, s.rolledBack, id);
      }
    }
  }

  lemma OldRowsStay(t: Tables, b: GraphBatch, consumer: string, now: int)
    requires Materialize(t, b, consumer, now).Applied?
    ensures var later := Materialize(t, b, consumer, now).tables.requests;
            && (forall id :: id in t.requests ==> id in later && later[id] == t.requests[id])
            && (forall id :: id in later && id !in t.requests ==> !later[id].published)
  {
  }

  lemma MoreRowsKeepLocks(relays: map<nat, Relay>, few: map<EventId, OutboxRow<ScoringRequest>>,
                          more: map<EventId, OutboxRow<ScoringRequest>>)
    requires LocksSound(relays, few) && forall id :: id in few ==> id in more && more[id] == few[id]
    ensures LocksSound(relays, more)
  {
    forall r | r in relays
      ensures RelaySound(relays, r, more)
    {
      assert RelaySound(relays, r, few);
    }
  }

  lemma NewRowHasNoCopies(c: Config, s: State, id: EventId, p: nat)
    requires TopicMatches(c, s.requests, Messages(s.db.requests)) && LocksSound(s.relays, s.db.requests)
    requires Counted(c, s) && id !in s.db.requests && p < |s.requests|
    ensures Copies(s.requests[p].log, id) == 0 && s.rolledBack[id] == 0 && !SentOpen(s.relays, id)
  {
    assert RequestLogMatches(c, p, s.requests[p].log, Messages(s.db.requests));
    NoCopies(c, p, s.requests[p].log, Messages(s.db.requests), id);
    NotSent(s.relays, s.db.requests, id);
  }

  lemma NotSent<M(!new)>(relays: map<nat, Relay>, outbox: map<EventId, OutboxRow<M>>, id: EventId)
    requires LocksSound(relays, outbox) && (id !in outbox || outbox[id].published)
    ensures !SentOpen(relays, id)
  {
    forall r | r in relays
      ensures id !in SentRows(relays[r])
    {
      assert RelaySound(relays, r, outbox);
    }
  }

  lemma ScoreSideByMaterialize(c: Config, t: Tables, b: GraphBatch, now: int)
    requires ScoreSide(c, t) && b.eventId.Observed?
    requires Materialize(t, b, c.materializer, now).Applied?
    ensures ScoreSide(c, Materialize(t, b, c.materializer, now).tables)
  {
    var later := Materialize(t, b, c.materializer, now).tables;
    MaterializeExtends(t, b, c.materializer, now);
    assert Grows(Messages(t.requests), Messages(later.requests));
    forall key | key in later.scores
      ensures ScoreSound(c, later, key)
    {
      assert ScoreSound(c, t, key);
    }
    forall id | id in later.intents
      ensures ResultKnown(c, Messages(later.requests), later.intents[id].message)
    {
      assert ResultKnown(c, Messages(t.requests), t.intents[id].message);
    }
    forall id | (id, c.projector) in later.inbox && id.Completed?
      ensures id.request in Messages(later.requests) && (Messages(later.requests)[id.request].tx, c.model) in later.scores
    {
      assert (id, c.projector) in t.inbox;
    }
  }

  lemma ProjectionsGrow(c: Config, results: seq<Partition<ScoringResult>>, few: set<(EventId, string)>,
                        more: set<(EventId, string)>)
    requires Projections(c, results, few) && few <= more
    ensures Projections(c, results, more)
  {
    forall q | 0 <= q < |results|
      ensures ResultEffects(c, results[q], more)
    {
      assert ResultEffects(c, results[q], few);
    }
  }

  /** What the relays, the worker and the projector rely on survives a batch. */
  lemma DownstreamByMaterialize(c: Config, s: State, b: GraphBatch, now: int)
    requires TopicMatches(c, s.requests, Messages(s.db.requests)) && ResultsKnown(c, s.results, Messages(s.db.requests))
    requires Projections(c, s.results, s.db.inbox)
    requires Materialize(s.db, b, c.materializer, now).Applied?
    ensures var later := Materialize(s.db, b, c.materializer, now).tables;
            && TopicMatches(c, s.requests, Messages(later.requests))
            && ResultsKnown(c, s.results, Messages(later.requests))
            && Projections(c, s.results, later.inbox)
            && later.intents == s.db.intents
  {
    var later := Materialize(s.db, b, c.materializer, now).tables;
    assert Grows(Messages(s.db.requests), Messages(later.requests));
    KnownGrows(c, s.requests, s.results, Messages(s.db.requests), Messages(later.requests));
    ProjectionsGrow(c, s.results, s.db.inbox, later.inbox);
  }

  // ---- projecting a result ----

  lemma ScoresByProject(c: Config, t: Tables, x: ScoringResult)
    requires ScoreSide(c, t) && ResultKnown(c, Messages(t.requests), x)
    requires Project(t, x, c.projector).Projected?
    ensures var later := Project(t, x, c.projector).tables;
            ScoresSound(c, later) && IntentsKnown(c, later)
  {
    var later := Project(t, x, c.projector).tables;
    forall key | key in later.scores
      ensures ScoreSound(c, later, key)
    {
      if key != (x.tx, x.model) {
        assert ScoreSound(c, t, key);
      }
    }
  }

  lemma ClaimsByProject(c: Config, t: Tables, x: ScoringResult)
    requires ClaimsScored(c, t.inbox, Messages(t.requests), t.scores) && ResultKnown(c, Messages(t.requests), x)
    requires !Project(t, x, c.projector).Refused?
    ensures var later := Projection(t, x, c.projector);
            && ClaimsScored(c, later.inbox, Messages(later.requests), later.scores)
            && (x.eventId, c.projector) in later.inbox
            && later.requests == t.requests
  {
    hide Messages;
  }

  lemma OutdatedKeepsScores(c: Config, t: Tables, x: ScoringResult)
    requires ScoresSound(c, t) && IntentsKnown(c, t) && Project(t, x, c.projector).Outdated?
    ensures var later := Project(t, x, c.projector).tables;
            ScoresSound(c, later) && IntentsKnown(c, later)
  {
    var later := Project(t, x, c.projector).tables;
    hide ResultKnown;
    forall key | key in later.scores
      ensures ScoreSound(c, later, key)
    {
      assert ScoreSound(c, t, key);
    }
  }

  lemma ScoreSideByProject(c: Config, t: Tables, x: ScoringResult)
    requires ScoreSide(c, t) && ResultKnown(c, Messages(t.requests), x)
    requires !Project(t, x, c.projector).Refused?
    ensures ScoreSide(c, Projection(t, x, c.projector))
    ensures (x.eventId, c.projector) in Projection(t, x, c.projector).inbox
  {
    hide ScoresSound, IntentsKnown, ClaimsScored, ReferentialIntegrity, ResultKnown, Messages, Project;
    ProjectExtends(t, x, c.projector);
    ClaimsByProject(c, t, x);
    var o := Project(t, x, c.projector);
    if o.Projected? {
      ScoresByProject(c, t, x);
    } else if o.Outdated? {
      OutdatedKeepsScores(c, t, x);
    }
  }

  lemma IntentsGrow(redis: Redis, publishers: map<nat, Relay>,
                    few: map<EventId, OutboxRow<ScoringResult>>, more: map<EventId, OutboxRow<ScoringResult>>)
    requires StreamSide(redis, few, publishers)
    requires forall id :: id in few ==> id in more && more[id] == few[id]
    requires forall id :: id in more && id !in few ==> !more[id].published
    ensures StreamSide(redis, more, publishers)
  {
    forall r | r in publishers
      ensures RelaySound(publishers, r, more)
    {
      assert RelaySound(publishers, r, few);
    }
  }

  lemma GraphSideByClaim(c: Config, log: seq<Record<GraphBatch>>, effects: set<nat>, t: Tables, later: Tables,
                         id: EventId)
    requires WellFormed(c) && GraphSide(c, log, effects, t) && id.Completed?
    requires later.requests == t.requests && later.nodes == t.nodes
    requires t.inbox <= later.inbox <= t.inbox + {(id, c.projector)}
    ensures GraphSide(c, log, effects, later)
  {
    forall k, tx | 0 <= k < |c.batches| && (c.batches[k].eventId, c.materializer) in later.inbox && tx in BatchIds(c.batches[k])
      ensures RequestId(c.batches[k], tx) in later.requests.Keys
    {
      assert (c.batches[k].eventId, c.materializer) in t.inbox;
    }
  }

  lemma UpstreamByProject(c: Config, s: State, x: ScoringResult)
    requires WellFormed(c) && GraphSide(c, s.graph.log, s.graph.effects, s.db)
    requires x.eventId.Completed? && !Project(s.db, x, c.projector).Refused?
    ensures var later := Projection(s.db, x, c.projector);
            && GraphSide(c, s.graph.log, s.graph.effects, later)
            && later.requests == s.db.requests
            && s.db.inbox <= later.inbox
  {
    GraphSideByClaim(c, s.graph.log, s.graph.effects, s.db, Projection(s.db, x, c.projector), x.eventId);
  }

  lemma StreamSideByProject(c: Config, s: State, x: ScoringResult)
    requires StreamSide(s.redis, s.db.intents, s.publishers)
    requires !Project(s.db, x, c.projector).Refused?
    ensures StreamSide(s.redis, Projection(s.db, x, c.projector).intents, s.publishers)
  {
    IntentsGrow(s.redis, s.publishers, s.db.intents, Projection(s.db, x, c.projector).intents);
  }

  // ---- relay transactions ----

  lemma {:induction false} CountedOnce(xs: seq<EventId>, id: EventId)
    requires forall i, j :: 0 <= i < j < |xs| ==> xs[i] != xs[j]
    ensures multiset(xs)[id] == if id in xs then 1 else 0
  {
    if xs != [] {
      var front := xs[..|xs| - 1];
      assert xs == front + [xs[|xs| - 1]];
      CountedOnce(front, id);
    }
  }

  /** A row is sent by at most the one open transaction that locked it. */
  lemma SentOnlyBy<M(!new)>(relays: map<nat, Relay>, outbox: map<EventId, OutboxRow<M>>, r: nat, id: EventId)
    requires LocksSound(relays, outbox) && r in relays && id in relays[r].rows
    ensures SentOpen(relays, id) <==> id in SentRows(relays[r])
    ensures !SentOpen(relays - {r}, id)
  {
    assert RelaySound(relays, r, outbox);
    forall other | other in relays && other != r
      ensures id !in SentRows(relays[other])
    {
      assert id !in relays[other].rows;
    }
  }

  lemma SentByOthers(relays: map<nat, Relay>, r: nat, id: EventId)
    requires r in relays && id !in SentRows(relays[r])
    ensures SentOpen(relays - {r}, id) <==> SentOpen(relays, id)
  {
    if SentOpen(relays, id) {
      var other :| other in relays && id in SentRows(relays[other]);
      assert other in relays - {r};
    }
  }

  lemma FewerLocks<M(!new)>(relays: map<nat, Relay>, outbox: map<EventId, OutboxRow<M>>, r: nat)
    requires LocksSound(relays, outbox) && r in relays
    ensures LocksSound(relays - {r}, outbox)
    ensures LocksSound(relays - {r}, Mark(outbox, relays[r].rows))
  {
    var marked := Mark(outbox, relays[r].rows);
    forall q | q in relays - {r}
      ensures RelaySound(relays - {r}, q, outbox) && RelaySound(relays - {r}, q, marked)
    {
      assert RelaySound(relays, q, outbox);
    }
  }

  lemma MoreLocks<M(!new)>(relays: map<nat, Relay>, outbox: map<EventId, OutboxRow<M>>, r: nat, rows: seq<EventId>,
                           limit: nat)
    requires LocksSound(relays, outbox) && r !in relays && MayOpen(relays, outbox, rows, limit)
    ensures LocksSound(relays[r := Relay(rows, 0)], outbox)
    ensures forall id :: SentOpen(relays[r := Relay(rows, 0)], id) <==> SentOpen(relays, id)
  {
    var more := relays[r := Relay(rows, 0)];
    forall q | q in more
      ensures RelaySound(more, q, outbox)
    {
      if q != r {
        assert RelaySound(relays, q, outbox);
      } else {
        forall other, id | other in more && other != r && id in rows
          ensures id !in more[other].rows
        {
          assert !Locked(relays, id);
        }
      }
    }
    forall id | SentOpen(relays, id)
      ensures SentOpen(more, id)
    {
      var other :| other in relays && id in SentRows(relays[other]);
      assert more[other] == relays[other];
    }
  }

  lemma SendKeepsLocks<M(!new)>(relays: map<nat, Relay>, outbox: map<EventId, OutboxRow<M>>, r: nat)
    requires LocksSound(relays, outbox) && r in relays && relays[r].sent < |relays[r].rows|
    ensures LocksSound(relays[r := relays[r].(sent := relays[r].sent + 1)], outbox)
  {
    var more := relays[r := relays[r].(sent := relays[r].sent + 1)];
    forall q | q in more
      ensures RelaySound(more, q, outbox)
    {
      assert RelaySound(relays, q, outbox);
    }
  }

  lemma SendSends<M(!new)>(relays: map<nat, Relay>, outbox: map<EventId, OutboxRow<M>>, r: nat, id: EventId)
    requires LocksSound(relays, outbox) && r in relays && relays[r].sent < |relays[r].rows|
    ensures var more := relays[r := relays[r].(sent := relays[r].sent + 1)];
            var row := relays[r].rows[relays[r].sent];
            && (SentOpen(more, id) <==> SentOpen(relays, id) || id == row)
            && !SentOpen(relays, row)
  {
    var more := relays[r := relays[r].(sent := relays[r].sent + 1)];
    var row := relays[r].rows[relays[r].sent];
    assert RelaySound(relays, r, outbox);
    SentOnlyBy(relays, outbox, r, row);
    assert SentRows(more[r]) == SentRows(relays[r]) + [row];
    if SentOpen(relays, id) {
      var other :| other in relays && id in SentRows(relays[other]);
      assert id in SentRows(more[other]);
    }
    if id == row {
      assert id in SentRows(more[r]);
    }
    if SentOpen(more, id) && id != row {
      var other :| other in more && id in SentRows(more[other]);
      assert id in SentRows(relays[other]);
    }
  }

  lemma CountedByOpen(c: Config, s: State, r: nat, rows: seq<EventId>)
    requires Counted(c, s) && LocksSound(s.relays, s.db.requests)
    requires r !in s.relays && MayOpen(s.relays, s.db.requests, rows, c.outboxBatchSize)
    ensures Counted(c, s.(relays := s.relays[r := Relay(rows, 0)]))
  {
    MoreLocks(s.relays, s.db.requests, r, rows, c.outboxBatchSize);
  }

  lemma CountOfSentRow(topic: seq<Partition<ScoringRequest>>, at: nat, message: ScoringRequest, p: nat, id: EventId)
    requires at < |topic| && p < |topic| && (message.eventId == id ==> p == at)
    ensures var later := topic[at := Append(topic[at], Valid(message))];
            Copies(later[p].log, id) == Copies(topic[p].log, id) + (if message.eventId == id then 1 else 0)
  {
    CopiesOfAppend(topic[at].log, Valid(message), id);
  }

  lemma CountedBySend(c: Config, s: State, r: nat)
    requires Counted(c, s) && LocksSound(s.relays, s.db.requests)
    requires MayStep(c, s, RelayStep(r, Send))
    requires var row := s.relays[r].rows[s.relays[r].sent];
             s.db.requests[row].message.eventId == row
    ensures Counted(c, Do(c, s, RelayStep(r, Send)))
  {
    var row := s.relays[r].rows[s.relays[r].sent];
    var message := s.db.requests[row].message;
    var later := Do(c, s, RelayStep(r, Send));
    assert RelaySound(s.relays, r, s.db.requests) && row in s.relays[r].rows;
    forall id | id in s.db.requests
      ensures RowCounted(c, later.requests, s.db.requests, later.relays, s.rolledBack, id)
    {
      RowCountedBySend(c, s, r, id);
    }
  }

  lemma RowCountedBySend(c: Config, s: State, r: nat, id: EventId)
    requires Counted(c, s) && LocksSound(s.relays, s.db.requests)
    requires MayStep(c, s, RelayStep(r, Send)) && id in s.db.requests
    requires var row := s.relays[r].rows[s.relays[r].sent];
             && s.db.requests[row].message.eventId == row
             && !s.db.requests[row].published
    ensures var later := Do(c, s, RelayStep(r, Send));
            RowCounted(c, later.requests, s.db.requests, later.relays, s.rolledBack, id)
  {
    hide LocksSound, Copies;
    assert RowCounted(c, s.requests, s.db.requests, s.relays, s.rolledBack, id);
    var row := s.relays[r].rows[s.relays[r].sent];
    var message := s.db.requests[row].message;
    SendSends(s.relays, s.db.requests, r, id);
    CountOfSentRow(s.requests, c.requestPartition(message.tx), message, c.requestPartition(s.db.requests[id].message.tx), id);
  }

  lemma DueByMark(relays: map<nat, Relay>, outbox: map<EventId, OutboxRow<ScoringRequest>>, r: nat, id: EventId)
    requires LocksSound(relays, outbox) && r in relays && id in outbox
    requires SentRows(relays[r]) == relays[r].rows
    ensures Due(Mark(outbox, relays[r].rows), relays - {r}, id) == Due(outbox, relays, id)
  {
    if id in relays[r].rows {
      SentOnlyBy(relays, outbox, r, id);
    } else {
      SentByOthers(relays, r, id);
    }
  }

  lemma CountedByMark(c: Config, s: State, r: nat)
    requires Counted(c, s) && LocksSound(s.relays, s.db.requests)
    requires MayStep(c, s, RelayStep(r, MarkAll))
    ensures Counted(c, Do(c, s, RelayStep(r, MarkAll)))
  {
    hide LocksSound, Copies, Due;
    assert SentRows(s.relays[r]) == s.relays[r].rows;
    var marked := Mark(s.db.requests, s.relays[r].rows);
    forall id | id in marked
      ensures RowCounted(c, s.requests, marked, s.relays - {r}, s.rolledBack, id)
    {
      DueByMark(s.relays, s.db.requests, r, id);
      assert RowCounted(c, s.requests, s.db.requests, s.relays, s.rolledBack, id);
    }
  }

  lemma CountedByRollback(c: Config, s: State, r: nat)
    requires Counted(c, s) && LocksSound(s.relays, s.db.requests)
    requires MayStep(c, s, RelayStep(r, Rollback))
    ensures Counted(c, Do(c, s, RelayStep(r, Rollback)))
  {
    hide Copies;
    var later := Do(c, s, RelayStep(r, Rollback));
    var sent := SentRows(s.relays[r]);
    assert RelaySound(s.relays, r, s.db.requests);
    forall id | id in s.db.requests
      ensures later.rolledBack[id] + Due(s.db.requests, later.relays, id) == s.rolledBack[id] + Due(s.db.requests, s.relays, id)
    {
      CountedOnce(sent, id);
      if id in sent {
        SentOnlyBy(s.relays, s.db.requests, r, id);
      } else {
        SentByOthers(s.relays, r, id);
      }
    }
  }
}
