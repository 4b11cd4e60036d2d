/** The PostgreSQL tables, and the two transactions that update them.

    `Materialize` and `Project` say what one committed transaction does to the tables;
    class Database performs them on its own fields, statement by statement, and leaves the
    fields untouched when a statement fails (the transaction rolls back). */
module Tables {
  import opened Events
  import opened Options

  datatype NodeRow = NodeRow(
    timeStep: nat,
    features: seq<real>,
    featureSchema: string,
    observedAt: int,
    ingestedAt: int,
    watermark: nat)

  datatype Checkpoint = Checkpoint(lastStep: nat, sourceOffset: int)

  /** A row of the outbox. The one outbox table is kept as two maps, one for each relay:
      the primary keys of the two families never meet (Identity.OutboxKeysAreDisjoint). */
  datatype OutboxRow<+M> = OutboxRow(message: M, published: bool, attempts: nat, lastError: Option<string>)

  type ScoreKey = (TxId, string)

  datatype Score = Score(
    probability: real,
    featureSchema: string,
    watermark: nat,
    scoredAt: int,
    source: EventId)

  datatype Tables = Tables(
    inbox: set<(EventId, string)>,
    nodes: map<TxId, NodeRow>,
    edges: set<Edge>,
    checkpoints: map<string, Checkpoint>,
    requests: map<EventId, OutboxRow<ScoringRequest>>,
    intents: map<EventId, OutboxRow<ScoringResult>>,
    scores: map<ScoreKey, Score>)

  const EMPTY := Tables({}, map[], {}, map[], map[], map[], map[])

  /** What makes a statement fail. The first two reach the dead-letter branch of the
      materializer, the third only its general failure branch; the last two reach the
      dead-letter branch of the projector. */
  datatype DbError =
    | SelfEdge
    | MissingEndpoint
    | RepeatedTransaction
    | UnknownTransaction
    | ReusedSourceEvent

  /** The foreign keys of transaction_edges and risk_scores. */
  ghost predicate ReferentialIntegrity(t: Tables) {
    && (forall e :: e in t.edges ==> e.0 in t.nodes && e.1 in t.nodes)
    && (forall k :: k in t.scores ==> k.0 in t.nodes)
  }

  // ---- materialize_graph_batch ----

  function NodeIn(nodes: seq<GraphNode>, tx: TxId): (n: GraphNode)
    requires exists i :: 0 <= i < |nodes| && nodes[i].tx == tx
    ensures n in nodes && n.tx == tx
  {
    if nodes[0].tx == tx then nodes[0] else NodeIn(nodes[1..], tx)
  }

  function NodeOf(b: GraphBatch, tx: TxId): (n: GraphNode)
    requires tx in BatchIds(b)
    ensures n in b.nodes && n.tx == tx
  {
    NodeIn(b.nodes, tx)
  }

  function RowOf(b: GraphBatch, n: GraphNode): NodeRow {
    NodeRow(n.timeStep, n.features, b.featureSchema, b.occurredAt, b.producedAt, b.timeStep)
  }

  /** One upsert statement over all rows of the batch; an existing row gives way only to a
      watermark that is not lower. */
  function UpsertNodes(nodes: map<TxId, NodeRow>, b: GraphBatch): map<TxId, NodeRow> {
    map tx | tx in nodes.Keys + BatchIds(b) ::
      if tx in BatchIds(b) && (tx in nodes ==> nodes[tx].watermark <= b.timeStep)
      then RowOf(b, NodeOf(b, tx)) else nodes[tx]
  }

  function UpsertCheckpoint(checkpoints: map<string, Checkpoint>, b: GraphBatch): map<string, Checkpoint> {
    if b.stream in checkpoints && b.timeStep < checkpoints[b.stream].lastStep then checkpoints
    else checkpoints[b.stream := Checkpoint(b.timeStep, b.sourceOffset)]
  }

  function NewRow<M>(message: M): OutboxRow<M> {
    OutboxRow(message, false, 0, None)
  }

  function TxOf(id: EventId): TxId {
    if id.Requested? then id.tx else ""
  }

  /** Inserts the batch's scoring requests; a request that is already there stays as it is. */
  function InsertRequests(requests: map<EventId, OutboxRow<ScoringRequest>>, b: GraphBatch, now: int)
    : map<EventId, OutboxRow<ScoringRequest>>
  {
    map id | id in requests.Keys + RequestIds(b) ::
      if id in requests then requests[id] else NewRow(RequestFor(b, TxOf(id), now))
  }

  lemma InsertKeepsOlderRows(requests: map<EventId, OutboxRow<ScoringRequest>>, b: GraphBatch, now: int)
    ensures InsertRequests(map[], b, now) + requests == InsertRequests(requests, b, now)
  {
  }

  predicate HasSelfEdge(edges: seq<Edge>) {
    exists e :: e in edges && e.0 == e.1
  }

  /** The upsert would touch one row twice, which the database refuses. A row that its guard
      leaves alone may be named any number of times. */
  predicate TouchesTwice(nodes: map<TxId, NodeRow>, b: GraphBatch) {
    exists i, j :: 0 <= i < j < |b.nodes| && b.nodes[i].tx == b.nodes[j].tx
                   && (b.nodes[i].tx in nodes ==> nodes[b.nodes[i].tx].watermark <= b.timeStep)
  }

  datatype MaterializeOutcome =
    | Duplicate
    | Applied(tables: Tables)
    | Rejected(error: DbError)

  predicate LacksEndpoint(edges: seq<Edge>, ids: set<TxId>) {
    exists e :: e in edges && !(e.0 in ids && e.1 in ids)
  }

  function EdgeSet(edges: seq<Edge>): set<Edge> {
    set e | e in edges
  }

  lemma SameEdges(a: seq<Edge>, b: seq<Edge>, ids: set<TxId>)
    requires forall e :: e in a <==> e in b
    ensures EdgeSet(a) == EdgeSet(b)
    ensures LacksEndpoint(a, ids) <==> LacksEndpoint(b, ids)
  {
  }

  /** The statement of the transaction that fails, in the order they are issued. */
  function BatchError(nodes: map<TxId, NodeRow>, b: GraphBatch): Option<DbError> {
    if TouchesTwice(nodes, b) then Some(RepeatedTransaction)
    else if HasSelfEdge(b.edges) then Some(SelfEdge)
    else if LacksEndpoint(b.edges, nodes.Keys + BatchIds(b)) then Some(MissingEndpoint)
    else None
  }

  /** The transaction that materializes one graph batch: its inbox claim, nodes, edges,
      checkpoint and scoring requests become visible together or not at all. */
  function Materialize(t: Tables, b: GraphBatch, consumer: string, now: int): (o: MaterializeOutcome) {
    if (b.eventId, consumer) in t.inbox then Duplicate
    else if BatchError(t.nodes, b).Some? then Rejected(BatchError(t.nodes, b).value)
    else Applied(t.(
      inbox := t.inbox + {(b.eventId, consumer)},
      nodes := UpsertNodes(t.nodes, b),
      edges := t.edges + EdgeSet(b.edges),
      checkpoints := UpsertCheckpoint(t.checkpoints, b),
      requests := InsertRequests(t.requests, b, now)))
  }

  // ---- project_scoring_result ----

  function ScoreOf(r: ScoringResult): Score {
    Score(r.probability, r.featureSchema, r.watermark, r.scoredAt, r.eventId)
  }

  /** The condition under which a result replaces the canonical score. */
  predicate Supersedes(r: ScoringResult, kept: Score) {
    r.watermark >= kept.watermark && r.scoredAt >= kept.scoredAt
  }

  datatype ProjectOutcome =
    | Seen
    | Outdated(tables: Tables)
    | Projected(tables: Tables)
    | Refused(error: DbError)

  predicate SourceHeldElsewhere(scores: map<ScoreKey, Score>, key: ScoreKey, source: EventId) {
    exists k :: k in scores && k != key && scores[k].source == source
  }

  function InsertIntent(intents: map<EventId, OutboxRow<ScoringResult>>, r: ScoringResult)
    : map<EventId, OutboxRow<ScoringResult>>
  {
    if r.eventId in intents then intents else intents[r.eventId := NewRow(r)]
  }

  /** The transaction that projects one scoring result. An outdated result still keeps its
      inbox claim; only a canonical one leaves an intent to publish. */
  function Project(t: Tables, r: ScoringResult, consumer: string): (o: ProjectOutcome) {
    var key := (r.tx, r.model);
    if (r.eventId, consumer) in t.inbox then Seen
    else if key in t.scores && !Supersedes(r, t.scores[key])
      then Outdated(t.(inbox := t.inbox + {(r.eventId, consumer)}))
    else if key !in t.scores && r.tx !in t.nodes then Refused(UnknownTransaction)
    else if SourceHeldElsewhere(t.scores, key, r.eventId) then Refused(ReusedSourceEvent)
    else Projected(t.(
      inbox := t.inbox + {(r.eventId, consumer)},
      scores := t.scores[key := ScoreOf(r)],
      intents := InsertIntent(t.intents, r)))
  }

  function Watermark(t: Tables, stream: string): nat {
    if stream in t.checkpoints then t.checkpoints[stream].lastStep else 0
  }

  // ---- what both transactions keep ----

  /** The tables only ever grow: claims, transactions, edges, checkpoints, outbox rows and
      scores stay, and watermarks do not fall. */
  ghost predicate Extends(later: Tables, t: Tables) {
    && t.inbox <= later.inbox
    && t.edges <= later.edges
    && (forall tx :: tx in t.nodes ==> tx in later.nodes && t.nodes[tx].watermark <= later.nodes[tx].watermark)
    && (forall s :: s in t.checkpoints ==>
          s in later.checkpoints && t.checkpoints[s].lastStep <= later.checkpoints[s].lastStep)
    && (forall id :: id in t.requests ==> id in later.requests && later.requests[id].message == t.requests[id].message)
    && (forall id :: id in t.intents ==> id in later.intents && later.intents[id].message == t.intents[id].message)
    && (forall k :: k in t.scores ==>
          && k in later.scores
          && t.scores[k].watermark <= later.scores[k].watermark
          && t.scores[k].scoredAt <= later.scores[k].scoredAt)
  }

  lemma MaterializeKeepsKeys(t: Tables, b: GraphBatch, consumer: string, now: int)
    requires ReferentialIntegrity(t) && Materialize(t, b, consumer, now).Applied?
    ensures ReferentialIntegrity(Materialize(t, b, consumer, now).tables)
  {
    hide InsertRequests, UpsertCheckpoint;
  }

  lemma MaterializeGrows(t: Tables, b: GraphBatch, consumer: string, now: int)
    requires Materialize(t, b, consumer, now).Applied?
    ensures Extends(Materialize(t, b, consumer, now).tables, t)
  {
    hide BatchError;
  }

  lemma MaterializeExtends(t: Tables, b: GraphBatch, consumer: string, now: int)
    requires ReferentialIntegrity(t)
    ensures var o := Materialize(t, b, consumer, now);
            o.Applied? ==> Extends(o.tables, t) && ReferentialIntegrity(o.tables)
  {
    hide ReferentialIntegrity, Extends, Materialize;
    if Materialize(t, b, consumer, now).Applied? {
      MaterializeKeepsKeys(t, b, consumer, now);
      MaterializeGrows(t, b, consumer, now);
    }
  }

  lemma ProjectExtends(t: Tables, r: ScoringResult, consumer: string)
    requires ReferentialIntegrity(t)
    ensures var o := Project(t, r, consumer);
            o.Projected? || o.Outdated? ==> Extends(o.tables, t) && ReferentialIntegrity(o.tables)
  {
  }

  // ---- what one transaction does, row by row ----

  /** A batch is applied exactly when it is new, names no transaction twice whose row it would
      write, has no self edge, and each of its edges joins transactions that are stored or
      among its own. */
  lemma BatchIsApplied(t: Tables, b: GraphBatch, consumer: string, now: int)
    ensures Materialize(t, b, consumer, now).Applied?
            <==> && (b.eventId, consumer) !in t.inbox
                 && (forall i, j :: 0 <= i < j < |b.nodes| && b.nodes[i].tx == b.nodes[j].tx ==>
                       b.nodes[i].tx in t.nodes && t.nodes[b.nodes[i].tx].watermark > b.timeStep)
                 && (forall e :: e in b.edges ==>
                       e.0 != e.1 && e.0 in t.nodes.Keys + BatchIds(b) && e.1 in t.nodes.Keys + BatchIds(b))
    ensures DistinctIds(b) ==> !TouchesTwice(t.nodes, b)
  {
    assert (exists e :: e in b.edges && e.0 == e.1) <==> HasSelfEdge(b.edges);
  }

  /** What becomes of a batch: nothing if it was claimed before; else the first failing
      statement decides, the node upsert before the edges, a self edge before a missing end. */
  lemma BatchOutcome(t: Tables, b: GraphBatch, consumer: string, now: int)
    ensures var o := Materialize(t, b, consumer, now);
            var isNew := (b.eventId, consumer) !in t.inbox;
            var twice := exists i, j :: 0 <= i < j < |b.nodes| && b.nodes[i].tx == b.nodes[j].tx
                                        && (b.nodes[i].tx in t.nodes ==> t.nodes[b.nodes[i].tx].watermark <= b.timeStep);
            var selfEdge := exists e :: e in b.edges && e.0 == e.1;
            var missing := exists e :: e in b.edges && !(e.0 in t.nodes.Keys + BatchIds(b) && e.1 in t.nodes.Keys + BatchIds(b));
            && (o.Duplicate? <==> !isNew)
            && (o == Rejected(RepeatedTransaction) <==> isNew && twice)
            && (o == Rejected(SelfEdge) <==> isNew && !twice && selfEdge)
            && (o == Rejected(MissingEndpoint) <==> isNew && !twice && !selfEdge && missing)
            && (o.Applied? <==> isNew && !twice && !selfEdge && !missing)
  {
    assert (exists e :: e in b.edges && e.0 == e.1) <==> HasSelfEdge(b.edges);
  }

  lemma {:induction false} OnlyNodeOf(nodes: seq<GraphNode>, i: nat)
    requires i < |nodes| && forall j :: 0 <= j < i ==> nodes[j].tx != nodes[i].tx
    ensures NodeIn(nodes, nodes[i].tx) == nodes[i]
  {
    if i > 0 {
      var rest := nodes[1..];
      assert forall j :: 0 <= j < |rest| ==> rest[j] == nodes[j + 1];
      OnlyNodeOf(rest, i - 1);
    }
  }

  /** Each transaction of an applied batch is stored with the batch's data, unless the row
      that was there has a higher watermark; its request is in the outbox, a new one unsent;
      the checkpoint rises to the batch's step; and every other row stays as it was. */
  lemma BatchEffect(t: Tables, b: GraphBatch, consumer: string, now: int, i: nat)
    requires Materialize(t, b, consumer, now).Applied? && i < |b.nodes|
    ensures var later := Materialize(t, b, consumer, now).tables;
            var n := b.nodes[i];
            var id := Requested(b.eventId, n.tx, b.timeStep);
            && n.tx in later.nodes
            && (if n.tx in t.nodes && t.nodes[n.tx].watermark > b.timeStep then later.nodes[n.tx] == t.nodes[n.tx]
                else later.nodes[n.tx] == NodeRow(n.timeStep, n.features, b.featureSchema, b.occurredAt, b.producedAt, b.timeStep))
            && id in later.requests
            && (if id in t.requests then later.requests[id] == t.requests[id]
                else later.requests[id] == OutboxRow(
                       ScoringRequest(id, n.tx, b.timeStep, b.timeStep, b.sequence, b.featureSchema, b.producedAt, now),
                       false, 0, None))
  {
    BatchIsApplied(t, b, consumer, now);
    assert b.nodes[i] in b.nodes;
    if !(b.nodes[i].tx in t.nodes && t.nodes[b.nodes[i].tx].watermark > b.timeStep) {
      OnlyNodeOf(b.nodes, i);
    }
  }

  lemma BatchLeavesOthers(t: Tables, b: GraphBatch, consumer: string, now: int)
    requires Materialize(t, b, consumer, now).Applied?
    ensures var later := Materialize(t, b, consumer, now).tables;
            && later.inbox == t.inbox + {(b.eventId, consumer)}
            && (forall tx :: tx in later.nodes && tx !in BatchIds(b) ==> tx in t.nodes && later.nodes[tx] == t.nodes[tx])
            && (forall e :: e in later.edges <==> e in t.edges || e in b.edges)
            && Watermark(later, b.stream) == (if Watermark(t, b.stream) > b.timeStep then Watermark(t, b.stream) else b.timeStep)
            && later.checkpoints == (if b.stream in t.checkpoints && t.checkpoints[b.stream].lastStep > b.timeStep
                                     then t.checkpoints
                                     else t.checkpoints[b.stream := Checkpoint(b.timeStep, b.sourceOffset)])
            && (forall stream :: stream != b.stream ==> Watermark(later, stream) == Watermark(t, stream))
            && (forall id :: id in later.requests && id !in t.requests ==> exists n :: n in b.nodes && id == RequestId(b, n.tx))
            && later.intents == t.intents && later.scores == t.scores
  {
    var later := Materialize(t, b, consumer, now).tables;
    forall id | id in later.requests && id !in t.requests
      ensures exists n :: n in b.nodes && id == RequestId(b, n.tx)
    {
      assert id in RequestIds(b);
    }
  }

  /** A result becomes canonical exactly when it is new, its transaction has no score and is
      stored or has one that it is not behind in watermark or time, and no other score has
      the same source. */
  lemma ResultIsCanonical(t: Tables, r: ScoringResult, consumer: string)
    ensures Project(t, r, consumer).Projected?
            <==> && (r.eventId, consumer) !in t.inbox
                 && (if (r.tx, r.model) in t.scores
                     then r.watermark >= t.scores[(r.tx, r.model)].watermark && r.scoredAt >= t.scores[(r.tx, r.model)].scoredAt
                     else r.tx in t.nodes)
                 && (forall k :: k in t.scores && t.scores[k].source == r.eventId ==> k == (r.tx, r.model))
    ensures Project(t, r, consumer).Projected? ==>
              var later := Project(t, r, consumer).tables;
              && (r.eventId, consumer) in later.inbox
              && later.scores == t.scores[(r.tx, r.model) := Score(r.probability, r.featureSchema, r.watermark, r.scoredAt, r.eventId)]
              && later.intents == (if r.eventId in t.intents then t.intents
                                   else t.intents[r.eventId := OutboxRow(r, false, 0, None)])
              && later == t.(inbox := later.inbox, scores := later.scores, intents := later.intents)
              && later.inbox == t.inbox + {(r.eventId, consumer)}
    ensures Project(t, r, consumer).Outdated? ==>
              Project(t, r, consumer).tables == t.(inbox := t.inbox + {(r.eventId, consumer)})
  {
    if SourceHeldElsewhere(t.scores, (r.tx, r.model), r.eventId) {
      var k :| k in t.scores && k != (r.tx, r.model) && t.scores[k].source == r.eventId;
    }
  }

  /** What becomes of a result that does not: it was claimed before; or a score it is behind in
      watermark or time keeps its place; or its transaction is unknown; or another score has
      its source. */
  lemma ResultOutcome(t: Tables, r: ScoringResult, consumer: string)
    ensures var o := Project(t, r, consumer);
            var isNew := (r.eventId, consumer) !in t.inbox;
            var behind := (r.tx, r.model) in t.scores
                          && (r.watermark < t.scores[(r.tx, r.model)].watermark || r.scoredAt < t.scores[(r.tx, r.model)].scoredAt);
            var unknown := (r.tx, r.model) !in t.scores && r.tx !in t.nodes;
            var reused := exists k :: k in t.scores && k != (r.tx, r.model) && t.scores[k].source == r.eventId;
            && (o.Seen? <==> !isNew)
            && (o.Outdated? <==> isNew && behind)
            && (o == Refused(UnknownTransaction) <==> isNew && unknown)
            && (o == Refused(ReusedSourceEvent) <==> isNew && !behind && !unknown && reused)
            && (o.Projected? <==> isNew && !behind && !unknown && !reused)
  {
    assert (exists k :: k in t.scores && k != (r.tx, r.model) && t.scores[k].source == r.eventId)
           <==> SourceHeldElsewhere(t.scores, (r.tx, r.model), r.eventId);
  }

  /** The tables as the services hold them: updated in place, one transaction a call. */
  class Database {
    var inbox: set<(EventId, string)>
    var nodes: map<TxId, NodeRow>
    var edges: set<Edge>
    var checkpoints: map<string, Checkpoint>
    var requests: map<EventId, OutboxRow<ScoringRequest>>
    var intents: map<EventId, OutboxRow<ScoringResult>>
    var scores: map<ScoreKey, Score>

    constructor ()
      ensures Contents() == EMPTY
    {
      inbox, nodes, edges, checkpoints := {}, map[], {}, map[];
      requests, intents, scores := map[], map[], map[];
    }

    function Contents(): Tables
      reads this
    {
      Tables(inbox, nodes, edges, checkpoints, requests, intents, scores)
    }

    /** The distinct edges of a batch, in order of first appearance; None on a self edge. */
    static method EdgeRows(edges: seq<Edge>) returns (rows: Option<seq<Edge>>)
      ensures rows == None <==> HasSelfEdge(edges)
      ensures rows.Some? ==> forall e :: e in rows.value <==> e in edges
    {
      var edgeRows: seq<Edge> := [];
      var seenEdges: set<Edge> := {};
      for i := 0 to |edges|
        invariant forall j :: 0 <= j < i ==> edges[j].0 != edges[j].1
        invariant forall e :: e in seenEdges <==> e in edgeRows
        invariant forall e :: e in edgeRows <==> e in edges[..i]
      {
        if edges[i].0 == edges[i].1 {
          return None;
        }
        if edges[i] !in seenEdges {
          seenEdges := seenEdges + {edges[i]};
          edgeRows := edgeRows + [edges[i]];
        }
      }
      return Some(edgeRows);
    }

    /** One fresh outbox row for each scoring request of the batch. */
    static method OutboxRows(b: GraphBatch, now: int) returns (rows: map<EventId, OutboxRow<ScoringRequest>>)
      ensures rows == InsertRequests(map[], b, now)
    {
      rows := map[];
      for i := 0 to |b.nodes|
        invariant forall id :: id in rows <==> exists j :: 0 <= j < i && id == RequestId(b, b.nodes[j].tx)
        invariant forall id :: id in rows ==> rows[id] == NewRow(RequestFor(b, TxOf(id), now))
      {
        rows := rows[RequestId(b, b.nodes[i].tx) := NewRow(RequestFor(b, b.nodes[i].tx, now))];
      }
      assert forall id :: id in RequestIds(b) ==> exists n :: n in b.nodes && id == RequestId(b, n.tx);
    }

    method MaterializeGraphBatch(b: GraphBatch, consumer: string,
                                 now: int) returns (error: Option<DbError>, duplicate: bool)
      modifies this
      ensures var o := Materialize(old(Contents()), b, consumer, now);
              && duplicate == o.Duplicate?
              && error == (if o.Rejected? then Some(o.error) else None)
              && Contents() == (if o.Applied? then o.tables else old(Contents()))
    {
      if (b.eventId, consumer) in inbox {
        return None, true;
      }
      if TouchesTwice(nodes, b) {
        return Some(RepeatedTransaction), false;
      }
      var upserted := UpsertNodes(nodes, b);
      var edgeRows := EdgeRows(b.edges);
      if edgeRows == None {
        return Some(SelfEdge), false;
      }
      SameEdges(edgeRows.value, b.edges, upserted.Keys);
      if LacksEndpoint(edgeRows.value, upserted.Keys) {
        return Some(MissingEndpoint), false;
      }
      var outboxRows := OutboxRows(b, now);
      InsertKeepsOlderRows(requests, b, now);

      inbox := inbox + {(b.eventId, consumer)};
      nodes := upserted;
      edges := edges + EdgeSet(edgeRows.value);
      checkpoints := UpsertCheckpoint(checkpoints, b);
      requests := outboxRows + requests;
      return None, false;
    }

    method ProjectScoringResult(r: ScoringResult, consumer: string) returns (error: Option<DbError>, canonical: bool)
      modifies this
      ensures match Project(old(Contents()), r, consumer)
              case Seen => !canonical && error == None && Contents() == old(Contents())
              case Outdated(tables) => !canonical && error == None && Contents() == tables
              case Projected(tables) => canonical && error == None && Contents() == tables
              case Refused(e) => !canonical && error == Some(e) && Contents() == old(Contents())
    {
      if (r.eventId, consumer) in inbox {
        return None, false;
      }
      var key := (r.tx, r.model);
      if key in scores {
        if !Supersedes(r, scores[key]) {
          inbox := inbox + {(r.eventId, consumer)};
          return None, false;
        }
      } else if r.tx !in nodes {
        return Some(UnknownTransaction), false;
      }
      if SourceHeldElsewhere(scores, key, r.eventId) {
        return Some(ReusedSourceEvent), false;
      }
      inbox := inbox + {(r.eventId, consumer)};
      scores := scores[key := ScoreOf(r)];
      if r.eventId !in intents {
        intents := intents[r.eventId := NewRow(r)];
      }
      return None, true;
    }
  }
}
