/** The whole pipeline as steps.

    Any number of workers and projectors share the partitions of their topics. A projector
    has one count of consecutive failures, and a worker one queue, for all its partitions.

    A database transaction is one step; an effect, an offset commit, a send and a published
    mark are separate steps, and any process may crash between any two of its steps. Any
    number of outbox relays and stream publishers run side by side. */
module Pipeline {
  import opened Events
  import opened Options
  import opened Tables
  import opened Consumers
  import opened RedisStream
  import opened StreamIds
  import Subgraph

  datatype Config = Config(
    batches: seq<GraphBatch>,
    materializer: string,
    projector: string,
    model: string,
    featureSchema: string,
    hops: nat,
    maxNodes: nat,
    maxEdges: nat,
    queueCapacity: nat,
    retryBudget: nat,
    outboxBatchSize: nat,
    requestPartitions: nat,
    resultPartitions: nat,
    requestPartition: TxId -> nat,
    resultPartition: TxId -> nat,
    // the process that owns each partition
    workerOf: nat -> nat,
    projectorOf: nat -> nat)

  /** What the settings and the replay producer guarantee: positive limits, a partition for
      every key, and one graph batch a time step under the identity derived from it. */
  ghost predicate WellFormed(c: Config) {
    && c.maxNodes >= 1
    && c.retryBudget >= 1
    && (forall tx :: c.requestPartition(tx) < c.requestPartitions)
    && (forall tx :: c.resultPartition(tx) < c.resultPartitions)
    && (forall k :: 0 <= k < |c.batches| ==>
          c.batches[k].eventId == Observed(c.batches[k].stream, c.batches[k].timeStep))
    && (forall i, j :: 0 <= i < j < |c.batches| ==> c.batches[i].timeStep < c.batches[j].timeStep)
  }

  /** An open transaction of a relay: the rows it locked, and how many it has sent. */
  datatype Relay = Relay(rows: seq<EventId>, sent: nat)

  datatype State = State(
    graph: Partition<GraphBatch>,
    requests: seq<Partition<ScoringRequest>>,
    results: seq<Partition<ScoringResult>>,
    db: Tables,
    relays: map<nat, Relay>,
    publishers: map<nat, Relay>,
    redis: Redis,
    // the consecutive failures each projector has counted
    failures: map<nat, nat>,
    // history: the rows sent by relay transactions that were rolled back
    rolledBack: multiset<EventId>)

  function Init(c: Config): State {
    State(Fresh(), seq(c.requestPartitions, _ => Fresh()), seq(c.resultPartitions, _ => Fresh()),
          EMPTY, map[], map[], EMPTY_REDIS, map[], multiset{})
  }

  datatype RelayOp =
    | Open(rows: seq<EventId>)
    | Send
    | MarkAll
    | Rollback

  datatype Step =
    | Produce(index: nat, producedAt: int)
    | MalformedBatch
    | MalformedRequest(partition: nat)
    | MalformedResult(partition: nat)
    | Graph(op: Op, now: int)
    | Request(partition: nat, op: Op, probability: real, scoredAt: int)
    | Result(partition: nat, op: Op)
    | ProjectorStart(projector: nat)
    | ProjectorCrash(projector: nat)
    | RelayStep(relay: nat, relayOp: RelayOp)
    | RecordFailure(row: EventId, text: string)
    | PublisherStep(publisher: nat, publisherOp: RelayOp, streamId: StreamId)

  // ---- the effects of the three consumers ----

  function RecordInHand<T>(p: Partition<T>): Option<T> {
    if p.session.Running? && InHand(p.session.phase)
       && p.session.phase.offset < |p.log| && p.log[p.session.phase.offset].Valid?
    then Some(p.log[p.session.phase.offset].event)
    else None
  }

  /** The worker's guards: the transaction is stored, and at the request's watermark. */
  ghost predicate GraphReady(c: Config, t: Tables, r: ScoringRequest) {
    var view := Subgraph.Query(t, r.tx, c.hops, c.maxNodes, c.maxEdges, c.model);
    view.Some? && view.value.watermark >= r.watermark
  }

  function ResultOf(c: Config, r: ScoringRequest, probability: real, scoredAt: int): ScoringResult {
    ScoringResult(Completed(r.eventId, c.model), r.tx, c.model, c.featureSchema, probability, r.watermark, scoredAt)
  }

  // ---- projectors ----

  function FailuresOf(failures: map<nat, nat>, w: nat): nat {
    if w in failures then failures[w] else 0
  }

  /** The partitions of one process begin or lose their sessions together. */
  function AllBegun<T>(parts: seq<Partition<T>>, owner: nat -> nat, w: nat): (begun: seq<Partition<T>>)
    ensures |begun| == |parts|
  {
    seq(|parts|, q requires 0 <= q < |parts| => if owner(q) == w then Began(parts[q]) else parts[q])
  }

  function AllHalted<T>(parts: seq<Partition<T>>, owner: nat -> nat, w: nat): (halted: seq<Partition<T>>)
    ensures |halted| == |parts|
  {
    seq(|parts|, q requires 0 <= q < |parts| => if owner(q) == w then Halted(parts[q]) else parts[q])
  }

  ghost predicate AllStopped<T>(parts: seq<Partition<T>>, owner: nat -> nat, w: nat) {
    forall q :: 0 <= q < |parts| && owner(q) == w ==> parts[q].session.Stopped?
  }

  // ---- relays ----

  ghost predicate Locked(relays: map<nat, Relay>, id: EventId) {
    exists r :: r in relays && id in relays[r].rows
  }

  /** Rows a new transaction may lock: present, not published, and locked by no other. */
  ghost predicate MayOpen<M(!new)>(relays: map<nat, Relay>, outbox: map<EventId, OutboxRow<M>>, rows: seq<EventId>,
                                   limit: nat) {
    && |rows| <= limit
    && (forall i, j :: 0 <= i < j < |rows| ==> rows[i] != rows[j])
    && (forall id :: id in rows ==> id in outbox && !outbox[id].published && !Locked(relays, id))
  }

  function Mark<M>(outbox: map<EventId, OutboxRow<M>>, rows: seq<EventId>): map<EventId, OutboxRow<M>> {
    map id | id in outbox :: if id in rows then outbox[id].(published := true, lastError := None) else outbox[id]
  }

  function SentRows(r: Relay): seq<EventId> {
    if r.sent <= |r.rows| then r.rows[..r.sent] else r.rows
  }

  // ---- enabledness and effect of each step ----

  ghost predicate MayStep(c: Config, s: State, step: Step) {
    match step
    case Produce(k, _) => k < |c.batches|
    case MalformedBatch => true
    case MalformedRequest(p) => p < |s.requests|
    case MalformedResult(p) => p < |s.results|
    case Graph(op, now) =>
      && Enabled(s.graph, op, 0)
      && (op.Skip? ==> s.graph.session.failures + 1 < c.retryBudget)
      && (op.Effect? ==> MayMaterialize(c, s, now))
    case Request(p, op, _, _) =>
      && p < |s.requests| && !op.Skip?
      && Enabled(s.requests[p], op, c.queueCapacity)
      && (op.Poll? ==> Queued(s.requests, c.workerOf, c.workerOf(p)) + op.count <= c.queueCapacity)
      && (op.Effect? ==> MayScore(c, s, p))
    case Result(p, op) =>
      && p < |s.results| && !op.Start? && !op.Crash?
      && Enabled(s.results[p], op, 0)
      && (op.Skip? ==> FailuresOf(s.failures, c.projectorOf(p)) + 1 < c.retryBudget)
      && (op.Effect? ==> MayProject(c, s, p))
    case ProjectorStart(w) => AllStopped(s.results, c.projectorOf, w)
    case ProjectorCrash(_) => true
    case RelayStep(r, op) =>
      (match op
       case Open(rows) => r !in s.relays && MayOpen(s.relays, s.db.requests, rows, c.outboxBatchSize)
       case Send => r in s.relays && s.relays[r].sent < |s.relays[r].rows|
                    && s.relays[r].rows[s.relays[r].sent] in s.db.requests
       case MarkAll => r in s.relays && s.relays[r].sent == |s.relays[r].rows|
       case Rollback => r in s.relays)
    case RecordFailure(id, _) => id in s.db.requests
    case PublisherStep(r, op, id) =>
      (match op
       case Open(rows) => r !in s.publishers && MayOpen(s.publishers, s.db.intents, rows, c.outboxBatchSize)
       case Send => r in s.publishers && s.publishers[r].sent < |s.publishers[r].rows|
                    && s.publishers[r].rows[s.publishers[r].sent] in s.db.intents
                    && NextId(s.redis.stream, id)
       case MarkAll => r in s.publishers && s.publishers[r].sent == |s.publishers[r].rows|
       case Rollback => r in s.publishers)
  }

  ghost predicate MayMaterialize(c: Config, s: State, now: int) {
    var b := RecordInHand(s.graph);
    b.Some? && !Materialize(s.db, b.value, c.materializer, now).Rejected?
  }

  ghost predicate MayScore(c: Config, s: State, p: nat)
    requires p < |s.requests|
  {
    var r := RecordInHand(s.requests[p]);
    && r.Some? && r.value.featureSchema == c.featureSchema
    && GraphReady(c, s.db, r.value)
    && c.resultPartition(r.value.tx) < |s.results|
  }

  ghost predicate MayProject(c: Config, s: State, p: nat)
    requires p < |s.results|
  {
    var r := RecordInHand(s.results[p]);
    r.Some? && !Project(s.db, r.value, c.projector).Refused?
  }

  function Materialized(t: Tables, b: GraphBatch, consumer: string, now: int): Tables {
    var o := Materialize(t, b, consumer, now);
    if o.Applied? then o.tables else t
  }

  function Projection(t: Tables, r: ScoringResult, consumer: string): Tables {
    var o := Project(t, r, consumer);
    if o.Projected? || o.Outdated? then o.tables else t
  }

  function Do(c: Config, s: State, step: Step): State
    requires MayStep(c, s, step)
  {
    match step
    case Produce(k, at) => s.(graph := Append(s.graph, Valid(c.batches[k].(producedAt := at))))
    case MalformedBatch => s.(graph := Append(s.graph, Malformed))
    case MalformedRequest(p) => s.(requests := s.requests[p := Append(s.requests[p], Malformed)])
    case MalformedResult(p) => s.(results := s.results[p := Append(s.results[p], Malformed)])
    case Graph(op, now) => DoGraph(c, s, op, now)
    case Request(p, op, probability, scoredAt) => DoRequest(c, s, p, op, probability, scoredAt)
    case Result(p, op) => DoResult(c, s, p, op)
    case ProjectorStart(w) => s.(results := AllBegun(s.results, c.projectorOf, w), failures := s.failures[w := 0])
    case ProjectorCrash(w) => s.(results := AllHalted(s.results, c.projectorOf, w))
    case RelayStep(r, op) => DoRelay(c, s, r, op)
    case RecordFailure(id, text) => s.(db := s.db.(requests := WithFailure(s.db.requests, id, text)))
    case PublisherStep(r, op, id) => DoPublisher(c, s, r, op, id)
  }

  function WithFailure(requests: map<EventId, OutboxRow<ScoringRequest>>, id: EventId, text: string)
    : map<EventId, OutboxRow<ScoringRequest>>
    requires id in requests
  {
    var row := requests[id];
    requests[id := row.(attempts := row.attempts + 1,
                        lastError := Some(if |text| <= 512 then text else text[..512]))]
  }

  function DoGraph(c: Config, s: State, op: Op, now: int): State
    requires MayStep(c, s, Graph(op, now))
  {
    var moved := s.(graph := Apply(s.graph, op, 0));
    if op.Effect? then moved.(db := Materialized(s.db, RecordInHand(s.graph).value, c.materializer, now)) else moved
  }

  function DoRequest(c: Config, s: State, p: nat, op: Op, probability: real, scoredAt: int): State
    requires MayStep(c, s, Request(p, op, probability, scoredAt))
  {
    var moved := s.(requests := s.requests[p := Apply(s.requests[p], op, c.queueCapacity)]);
    if op.Effect? then
      var r := RecordInHand(s.requests[p]).value;
      var q := c.resultPartition(r.tx);
      moved.(results := s.results[q := Append(s.results[q], Valid(ResultOf(c, r, probability, scoredAt)))])
    else moved
  }

  function DoResult(c: Config, s: State, p: nat, op: Op): State
    requires MayStep(c, s, Result(p, op))
  {
    var w := c.projectorOf(p);
    var moved := s.(results := s.results[p := Apply(s.results[p], op, 0)],
                    failures := if op.Finish? then s.failures[w := 0]
                                else if op.Skip? then s.failures[w := FailuresOf(s.failures, w) + 1]
                                else s.failures);
    if op.Effect? then moved.(db := Projection(s.db, RecordInHand(s.results[p]).value, c.projector)) else moved
  }

  function DoRelay(c: Config, s: State, r: nat, op: RelayOp): State
    requires MayStep(c, s, RelayStep(r, op))
  {
    match op
    case Open(rows) => s.(relays := s.relays[r := Relay(rows, 0)])
    case Send =>
      var message := s.db.requests[s.relays[r].rows[s.relays[r].sent]].message;
      var p := c.requestPartition(message.tx);
      s.(relays := s.relays[r := s.relays[r].(sent := s.relays[r].sent + 1)],
         requests := if p < |s.requests| then s.requests[p := Append(s.requests[p], Valid(message))] else s.requests)
    case MarkAll =>
      s.(relays := s.relays - {r}, db := s.db.(requests := Mark(s.db.requests, s.relays[r].rows)))
    case Rollback =>
      s.(relays := s.relays - {r}, rolledBack := s.rolledBack + multiset(SentRows(s.relays[r])))
  }

  function DoPublisher(c: Config, s: State, r: nat, op: RelayOp, id: StreamId): State
    requires MayStep(c, s, PublisherStep(r, op, id))
  {
    match op
    case Open(rows) => s.(publishers := s.publishers[r := Relay(rows, 0)])
    case Send =>
      var event := s.publishers[r].rows[s.publishers[r].sent];
      s.(publishers := s.publishers[r := s.publishers[r].(sent := s.publishers[r].sent + 1)],
         redis := PublishOnce(s.redis, event, s.db.intents[event].message, id))
    case MarkAll =>
      s.(publishers := s.publishers - {r}, db := s.db.(intents := Mark(s.db.intents, s.publishers[r].rows)))
    case Rollback => s.(publishers := s.publishers - {r})
  }

  ghost predicate Next(c: Config, s: State, s': State) {
    exists step :: MayStep(c, s, step) && s' == Do(c, s, step)
  }

  ghost predicate IsRun(c: Config, run: seq<State>) {
    && run != [] && run[0] == Init(c)
    && forall i :: 0 <= i < |run| - 1 ==> Next(c, run[i], run[i + 1])
  }

  ghost predicate Reachable(c: Config, s: State) {
    exists run :: IsRun(c, run) && run[|run| - 1] == s
  }
}
