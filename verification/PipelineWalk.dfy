/** Three runs of the pipeline, step by step. In the first one transaction travels through
    every service and the pipeline comes to rest, so that what is said of it at rest is said of
    something; in the second a failed batch is passed over; in the third a result partition
    loses a whole budget of records in a row. */
module PipelineWalk {
  import opened Events
  import opened Tables
  import opened Consumers
  import opened RedisStream
  import opened StreamIds
  import opened Pipeline
  import opened PipelineInvariant
  import opened PipelineTheorems
  import opened PipelineRuns
  import opened Paths
  import opened ProjectorLosses
  import opened Services

  ghost predicate OneTransaction(c: Config, b: GraphBatch) {
    && WellFormed(c) && c.batches == [b] && b.producedAt == 0
    && |b.nodes| == 1 && b.edges == [] && b.featureSchema == c.featureSchema
    && c.queueCapacity >= 1 && c.outboxBatchSize >= 1
  }

  function AllDone<T>(r: Record<T>): Partition<T> {
    Partition([r], 1, Running(1, [], Idle, 0), {0}, {}, {})
  }

  function Stored(c: Config, b: GraphBatch): Tables
    requires Materialize(EMPTY, b, c.materializer, 0).Applied?
  {
    Materialize(EMPTY, b, c.materializer, 0).tables
  }

  lemma BatchApplies(c: Config, b: GraphBatch)
    requires OneTransaction(c, b)
    ensures Materialize(EMPTY, b, c.materializer, 0).Applied?
    ensures Stored(c, b).requests == map[RequestId(b, b.nodes[0].tx) := NewRow(RequestFor(b, b.nodes[0].tx, 0))]
    ensures b.nodes[0].tx in Stored(c, b).nodes
    ensures Stored(c, b).inbox == {(b.eventId, c.materializer)}
    ensures Stored(c, b).scores == map[] && Stored(c, b).intents == map[]
  {
    assert b.nodes == [b.nodes[0]];
    assert b.nodes[0].tx in BatchIds(b);
    assert RequestIds(b) == {RequestId(b, b.nodes[0].tx)};
  }

  method MaterializeIt(rt: Runtime, b: GraphBatch)
    requires OneTransaction(rt.c, b) && rt.Valid() && rt.s == Init(rt.c)
    modifies rt
    ensures rt.Valid() && Materialize(EMPTY, b, rt.c.materializer, 0).Applied?
    ensures rt.s == Init(rt.c).(graph := AllDone(Valid(b)), db := Stored(rt.c, b))
  {
    hide Inv, Reachable, Materialize;
    BatchApplies(rt.c, b);
    rt.Take(Produce(0, 0));
    assert b.(producedAt := 0) == b;
    ReadIt(rt, b);
    rt.Take(Graph(Effect, 0));
    rt.Take(Graph(Commit, 0));
    rt.Take(Graph(Finish, 0));
    assert rt.s.graph == AllDone(Valid(b));
  }

  method ReadIt(rt: Runtime, b: GraphBatch)
    requires rt.Valid() && rt.s.graph == Append(Fresh(), Valid(b))
    modifies rt
    ensures rt.Valid()
    ensures rt.s == old(rt.s).(graph := Partition([Valid(b)], 0, Running(1, [], Handling(0), 0), {}, {}, {}))
  {
    hide Inv, Reachable;
    rt.Take(Graph(Start, 0));
    rt.Take(Graph(Fetch, 0));
    assert rt.s.graph == Partition([Valid(b)], 0, Running(1, [], Handling(0), 0), {}, {}, {});
  }

  method RelayIt(rt: Runtime, id: EventId, message: ScoringRequest)
    requires rt.Valid() && rt.s.relays == map[] && rt.s.db.requests == map[id := NewRow(message)]
    requires rt.c.outboxBatchSize >= 1 && rt.c.requestPartition(message.tx) < |rt.s.requests|
    modifies rt
    ensures rt.Valid()
    ensures var p := rt.c.requestPartition(message.tx);
            rt.s == old(rt.s).(
              requests := old(rt.s).requests[p := Append(old(rt.s).requests[p], Valid(message))],
              db := old(rt.s).db.(requests := map[id := NewRow(message).(published := true)]))
  {
    hide Inv, Reachable, WellFormed;
    SendIt(rt, id, message);
    rt.Take(RelayStep(0, MarkAll));
    assert rt.s.relays == map[];
  }

  method SendIt(rt: Runtime, id: EventId, message: ScoringRequest)
    requires rt.Valid() && rt.s.relays == map[] && rt.s.db.requests == map[id := NewRow(message)]
    requires rt.c.outboxBatchSize >= 1 && rt.c.requestPartition(message.tx) < |rt.s.requests|
    modifies rt
    ensures rt.Valid()
    ensures var p := rt.c.requestPartition(message.tx);
            rt.s == old(rt.s).(
              requests := old(rt.s).requests[p := Append(old(rt.s).requests[p], Valid(message))],
              relays := map[0 := Relay([id], 1)])
  {
    hide Inv, Reachable, WellFormed;
    rt.Take(RelayStep(0, Open([id])));
    rt.Take(RelayStep(0, RelayOp.Send));
  }

  method TakeIt(rt: Runtime, p: nat, r: ScoringRequest)
    requires rt.Valid() && p < |rt.s.requests| && rt.s.requests[p] == Append(Fresh(), Valid(r))
    requires rt.c.queueCapacity >= 1 && Queued(rt.s.requests, rt.c.workerOf, rt.c.workerOf(p)) == 0
    modifies rt
    ensures rt.Valid()
    ensures rt.s == old(rt.s).(requests := old(rt.s).requests[
              p := Partition([Valid(r)], 0, Running(1, [], Handling(0), 0), {}, {}, {})])
  {
    hide Inv, Reachable;
    QueuedByUpdate(rt.s.requests, rt.c.workerOf, rt.c.workerOf(p), p, Began(rt.s.requests[p]));
    rt.Take(Request(p, Start, 0.5, 1));
    rt.Take(Request(p, Poll(1), 0.5, 1));
    assert rt.s.requests[p].session.queue == [0];
    rt.Take(Request(p, Op.Take, 0.5, 1));
    assert rt.s.requests[p].session.queue == [];
    assert rt.s.requests[p] == Partition([Valid(r)], 0, Running(1, [], Handling(0), 0), {}, {}, {});
  }

  method ScoreIt(rt: Runtime, p: nat, r: ScoringRequest)
    requires rt.Valid() && p < |rt.s.requests| && rt.s.requests[p] == Append(Fresh(), Valid(r))
    requires r.featureSchema == rt.c.featureSchema && rt.c.queueCapacity >= 1
    requires rt.c.resultPartition(r.tx) < |rt.s.results| && Queued(rt.s.requests, rt.c.workerOf, rt.c.workerOf(p)) == 0
    modifies rt
    ensures rt.Valid()
    ensures var q := rt.c.resultPartition(r.tx);
            rt.s == old(rt.s).(
              requests := old(rt.s).requests[p := AllDone(Valid(r))],
              results := old(rt.s).results[q := Append(old(rt.s).results[q], Valid(ResultOf(rt.c, r, 0.5, 1)))])
  {
    hide Inv, Reachable, GraphReady;
    TopicRequestIsReady(rt.c, rt.s, p, 0);
    TakeIt(rt, p, r);
    rt.Take(Request(p, Effect, 0.5, 1));
    CommitIt(rt, p, r);
  }

  method CommitIt(rt: Runtime, p: nat, r: ScoringRequest)
    requires rt.Valid() && p < |rt.s.requests|
    requires rt.s.requests[p] == Partition([Valid(r)], 0, Running(1, [], Effected(0), 0), {0}, {}, {})
    modifies rt
    ensures rt.Valid() && rt.s == old(rt.s).(requests := old(rt.s).requests[p := AllDone(Valid(r))])
  {
    hide Inv, Reachable, WellFormed, GraphReady;
    rt.Take(Request(p, Commit, 0.5, 1));
    rt.Take(Request(p, Finish, 0.5, 1));
    assert rt.s.requests[p] == AllDone(Valid(r));
  }

  /** The result partitions after the projector of partition `q` has begun, that one as given. */
  function Begun(c: Config, parts: seq<Partition<ScoringResult>>, q: nat, part: Partition<ScoringResult>)
    : seq<Partition<ScoringResult>>
    requires q < |parts|
  {
    AllBegun(parts, c.projectorOf, c.projectorOf(q))[q := part]
  }

  method ProjectIt(rt: Runtime, q: nat, x: ScoringResult)
    requires rt.Valid() && q < |rt.s.results| && rt.s.results[q] == Append(Fresh(), Valid(x))
    requires AllStopped(rt.s.results, rt.c.projectorOf, rt.c.projectorOf(q))
    requires Project(rt.s.db, x, rt.c.projector).Projected?
    modifies rt
    ensures rt.Valid()
    ensures rt.s == old(rt.s).(
              results := Begun(rt.c, old(rt.s).results, q, AllDone(Valid(x))),
              failures := old(rt.s).failures[rt.c.projectorOf(q) := 0],
              db := Project(old(rt.s).db, x, rt.c.projector).tables)
  {
    hide Inv, Reachable, Project, WellFormed;
    FetchIt(rt, q, x);
    rt.Take(Result(q, Effect));
    rt.Take(Result(q, Commit));
    rt.Take(Result(q, Finish));
    assert rt.s.results[q] == AllDone(Valid(x));
  }

  method FetchIt(rt: Runtime, q: nat, x: ScoringResult)
    requires rt.Valid() && q < |rt.s.results| && rt.s.results[q] == Append(Fresh(), Valid(x))
    requires AllStopped(rt.s.results, rt.c.projectorOf, rt.c.projectorOf(q))
    modifies rt
    ensures rt.Valid()
    ensures rt.s == old(rt.s).(
              failures := old(rt.s).failures[rt.c.projectorOf(q) := 0],
              results := Begun(rt.c, old(rt.s).results, q, Partition([Valid(x)], 0, Running(1, [], Handling(0), 0), {}, {}, {})))
  {
    hide Inv, Reachable;
    rt.Take(ProjectorStart(rt.c.projectorOf(q)));
    rt.Take(Result(q, Fetch));
    assert rt.s.results[q] == Partition([Valid(x)], 0, Running(1, [], Handling(0), 0), {}, {}, {});
  }

  method PublishIt(rt: Runtime, x: ScoringResult, id: StreamId)
    requires rt.Valid() && rt.s.publishers == map[] && rt.s.db.intents == map[x.eventId := NewRow(x)]
    requires rt.c.outboxBatchSize >= 1 && rt.s.redis == EMPTY_REDIS
    modifies rt
    ensures rt.Valid()
    ensures rt.s == old(rt.s).(
              redis := Redis([Entry(id, x.eventId, x)], map[x.eventId := id]),
              db := old(rt.s).db.(intents := map[x.eventId := NewRow(x).(published := true)]))
  {
    hide Inv, Reachable, WellFormed;
    AppendIt(rt, x, id);
    rt.Take(PublisherStep(0, MarkAll, id));
    assert rt.s.publishers == map[];
  }

  method AppendIt(rt: Runtime, x: ScoringResult, id: StreamId)
    requires rt.Valid() && rt.s.publishers == map[] && rt.s.db.intents == map[x.eventId := NewRow(x)]
    requires rt.c.outboxBatchSize >= 1 && rt.s.redis == EMPTY_REDIS
    modifies rt
    ensures rt.Valid()
    ensures rt.s == old(rt.s).(
              redis := Redis([Entry(id, x.eventId, x)], map[x.eventId := id]),
              publishers := map[0 := Relay([x.eventId], 1)])
  {
    hide Inv, Reachable, WellFormed;
    rt.Take(PublisherStep(0, Open([x.eventId]), id));
    rt.Take(PublisherStep(0, RelayOp.Send, id));
  }

  /** The run ends at rest, with the transaction's one canonical score and one stream entry. */
  method Walk(c: Config, b: GraphBatch, id: StreamId) returns (rt: Runtime)
    requires OneTransaction(c, b)
    ensures rt.Valid() && rt.c == c && Reachable(c, rt.s) && AtRest(rt.s)
    ensures |rt.s.redis.stream| == 1 && rt.s.redis.stream[0].payload.tx == b.nodes[0].tx
    ensures rt.s.db.scores.Keys == {(b.nodes[0].tx, c.model)}
  {
    hide Inv, Reachable, Materialize, WellFormed;
    var tx := b.nodes[0].tx;
    rt := new Runtime(c);
    Partitions(c, tx);
    BatchApplies(c, b);
    MaterializeIt(rt, b);
    var request := RequestFor(b, tx, 0);
    var p, q := c.requestPartition(tx), c.resultPartition(tx);
    RelayIt(rt, RequestId(b, tx), request);
    NothingQueued(rt.s.requests, c.workerOf, c.workerOf(p));
    ScoreIt(rt, p, request);
    var result := ResultOf(c, request, 0.5, 1);
    ResultProjects(c, b, rt.s.db, result);
    ProjectIt(rt, q, result);
    PublishIt(rt, result, id);
  }

  lemma Partitions(c: Config, tx: TxId)
    requires WellFormed(c)
    ensures c.requestPartition(tx) < c.requestPartitions && c.resultPartition(tx) < c.resultPartitions
  {
  }

  lemma ResultProjects(c: Config, b: GraphBatch, t: Tables, x: ScoringResult)
    requires OneTransaction(c, b) && t.inbox == {(b.eventId, c.materializer)} && t.scores == map[] && t.intents == map[]
    requires x.tx in t.nodes && x.eventId.Completed? && x.model == c.model
    ensures var o := Project(t, x, c.projector);
            && o.Projected?
            && o.tables == t.(inbox := t.inbox + {(x.eventId, c.projector)}, scores := map[(x.tx, x.model) := ScoreOf(x)],
                              intents := map[x.eventId := NewRow(x)])
  {
    assert c.batches[0] == b && b.eventId.Observed?;
    var o := Project(t, x, c.projector);
    assert o.Projected?;
    assert t.scores[(x.tx, x.model) := ScoreOf(x)] == map[(x.tx, x.model) := ScoreOf(x)];
  }

  // ---- a failure that is passed over ----

  ghost predicate TwoBatches(c: Config, a: GraphBatch, b: GraphBatch) {
    && WellFormed(c) && c.batches == [a, b] && c.retryBudget >= 2
    && a.producedAt == 0 && b.producedAt == 0 && |b.nodes| == 1 && b.edges == []
  }

  lemma SecondApplies(c: Config, a: GraphBatch, b: GraphBatch)
    requires TwoBatches(c, a, b)
    ensures Materialize(EMPTY, b, c.materializer, 0).Applied?
    ensures Materialize(EMPTY, b, c.materializer, 0).tables.inbox == {(b.eventId, c.materializer)}
    ensures a.eventId != b.eventId
  {
    assert c.batches[0] == a && c.batches[1] == b;
  }

  method ProduceBoth(rt: Runtime, a: GraphBatch, b: GraphBatch)
    requires TwoBatches(rt.c, a, b) && rt.Valid() && rt.s == Init(rt.c)
    modifies rt
    ensures rt.Valid()
    ensures rt.s == Init(rt.c).(graph := Partition([Valid(a), Valid(b)], 0, Stopped, {}, {}, {}))
  {
    hide Inv, Reachable;
    rt.Take(Produce(0, 0));
    rt.Take(Produce(1, 0));
    assert a.(producedAt := 0) == a && b.(producedAt := 0) == b;
  }

  method SkipFirst(rt: Runtime, a: GraphBatch, b: GraphBatch)
    requires rt.Valid() && rt.s.graph == Partition([Valid(a), Valid(b)], 0, Stopped, {}, {}, {}) && rt.c.retryBudget >= 2
    modifies rt
    ensures rt.Valid()
    ensures rt.s == old(rt.s).(graph := Partition([Valid(a), Valid(b)], 0, Running(2, [], Handling(1), 1), {}, {}, {0}))
  {
    hide Inv, Reachable;
    rt.Take(Graph(Start, 0));
    rt.Take(Graph(Fetch, 0));
    rt.Take(Graph(Skip, 0));
    rt.Take(Graph(Fetch, 0));
    assert rt.s.graph == Partition([Valid(a), Valid(b)], 0, Running(2, [], Handling(1), 1), {}, {}, {0});
  }

  /** A batch whose handling failed in the general branch is passed by the commit of the next
      one: it is committed, and left without effect or dead letter. */
  method PassOver(c: Config, a: GraphBatch, b: GraphBatch) returns (rt: Runtime)
    requires TwoBatches(c, a, b)
    ensures rt.Valid() && rt.c == c && Reachable(c, rt.s)
    ensures rt.s.graph.committed == 2 && 0 in Lost(rt.s.graph) && (a.eventId, c.materializer) !in rt.s.db.inbox
  {
    hide Inv, Reachable, Materialize;
    rt := new Runtime(c);
    SecondApplies(c, a, b);
    ProduceBoth(rt, a, b);
    SkipFirst(rt, a, b);
    rt.Take(Graph(Effect, 0));
    rt.Take(Graph(Commit, 0));
  }

  // ---- losses in a row ----

  /** One attempt of the worker whose send takes effect, after which it raises. */
  method SendAgain(rt: Runtime, p: nat, r: ScoringRequest, sends: nat)
    requires rt.Valid() && p < |rt.s.requests| && rt.c.resultPartition(r.tx) < |rt.s.results|
    requires r.featureSchema == rt.c.featureSchema && Attempting(rt.s.requests[p], r)
    requires rt.s.results[rt.c.resultPartition(r.tx)] == Sent(rt.c, r, sends)
    modifies rt
    ensures rt.Valid() && p < |rt.s.requests| && Attempting(rt.s.requests[p], r)
    ensures var q := rt.c.resultPartition(r.tx);
            rt.s == old(rt.s).(requests := rt.s.requests, results := old(rt.s).results[q := Sent(rt.c, r, sends + 1)])
  {
    hide Inv, Reachable, GraphReady;
    TopicRequestIsReady(rt.c, rt.s, p, 0);
    rt.Take(Request(p, Effect, 0.5, 1));
    assert Append(Sent(rt.c, r, sends), Valid(ResultOf(rt.c, r, 0.5, 1))) == Sent(rt.c, r, sends + 1);
  }

  ghost predicate Attempting(part: Partition<ScoringRequest>, r: ScoringRequest) {
    && part.log == [Valid(r)] && part.session.Running?
    && InHand(part.session.phase) && part.session.phase.offset == 0
  }

  function Sent(c: Config, r: ScoringRequest, sends: nat): Partition<ScoringResult> {
    Partition(seq(sends, _ => Valid(ResultOf(c, r, 0.5, 1))), 0, Stopped, {}, {}, {})
  }

  method SendOften(rt: Runtime, p: nat, r: ScoringRequest)
    requires rt.Valid() && p < |rt.s.requests| && rt.c.resultPartition(r.tx) < |rt.s.results|
    requires r.featureSchema == rt.c.featureSchema && Attempting(rt.s.requests[p], r)
    requires rt.s.results[rt.c.resultPartition(r.tx)] == Fresh()
    modifies rt
    ensures rt.Valid()
    ensures var q := rt.c.resultPartition(r.tx);
            rt.s == old(rt.s).(requests := rt.s.requests, results := old(rt.s).results[q := Sent(rt.c, r, rt.c.retryBudget)])
  {
    hide Inv, Reachable, Attempting;
    ghost var before, q := rt.s, rt.c.resultPartition(r.tx);
    assert Sent(rt.c, r, 0) == Fresh();
    for sends := 0 to rt.c.retryBudget
      invariant rt.Valid() && p < |rt.s.requests| && Attempting(rt.s.requests[p], r)
      invariant rt.s == before.(requests := rt.s.requests, results := before.results[q := Sent(rt.c, r, sends)])
    {
      SendAgain(rt, p, r, sends);
    }
  }

  /** The budget bounds a projector's failures in a row over all its partitions, not the losses
      in a row of one: here it owns a second partition, and as many valid results of the first
      as the budget counts are all lost, and committed. */
  method LoseInARow(c: Config, b: GraphBatch, other: nat) returns (ghost lost: State, q: nat)
    requires OneTransaction(c, b) && c.retryBudget >= 2
    requires var first := c.resultPartition(b.nodes[0].tx);
             other < c.resultPartitions && other != first && c.projectorOf(other) == c.projectorOf(first)
    ensures Reachable(c, lost) && q < |lost.results| && lost.results[q].committed > c.retryBudget
    ensures forall o: nat :: o < c.retryBudget ==>
              o in Lost(lost.results[q]) && o < |lost.results[q].log| && lost.results[q].log[o].Valid?
  {
    hide Inv, Reachable, Materialize, WellFormed;
    var rt := new Runtime(c);
    q := ResultsArrive(rt, b);
    lost := BacklogCanBeLost(c, rt.s, q, other);
    ReachableOn(c, rt.s, lost);
    ReachableHolds(c, lost);
    UnhandledIsLost(c, lost, q);
  }

  lemma UnhandledIsLost(c: Config, s: State, q: nat)
    requires Inv(c, s) && q < |s.results|
    ensures forall o: nat :: o < s.results[q].committed && o !in Handled(s.results[q]) ==> o in Lost(s.results[q])
  {
    forall o: nat | o < s.results[q].committed && o !in Handled(s.results[q])
      ensures o in Lost(s.results[q])
    {
      CommittedIsAccounted(s.results[q], 0, o);
    }
  }

  /** One transaction is scored as often as the budget allows: its result arrives each time. */
  method ResultsArrive(rt: Runtime, b: GraphBatch) returns (q: nat)
    requires OneTransaction(rt.c, b) && rt.Valid() && rt.s == Init(rt.c)
    modifies rt
    ensures rt.Valid() && q == rt.c.resultPartition(b.nodes[0].tx) < |rt.s.results| == rt.c.resultPartitions
    ensures |rt.s.results[q].log| == rt.c.retryBudget
    ensures forall o :: 0 <= o < rt.c.retryBudget ==> rt.s.results[q].log[o].Valid?
    ensures rt.s.results[q] == Fresh<ScoringResult>().(log := rt.s.results[q].log)
    ensures forall i :: 0 <= i < |rt.s.results| && i != q ==> rt.s.results[i] == Fresh()
  {
    hide Inv, Reachable, Materialize, WellFormed;
    var tx := b.nodes[0].tx;
    Partitions(rt.c, tx);
    BatchApplies(rt.c, b);
    MaterializeIt(rt, b);
    var request := RequestFor(b, tx, 0);
    var p := rt.c.requestPartition(tx);
    q := rt.c.resultPartition(tx);
    RelayIt(rt, RequestId(b, tx), request);
    NothingQueued(rt.s.requests, rt.c.workerOf, rt.c.workerOf(p));
    TakeIt(rt, p, request);
    SendOften(rt, p, request);
  }
}
