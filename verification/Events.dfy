/** The contract events that travel through the pipeline, and their identities.

    An identity is kept as the tuple of parts the program hashes, rather than as the
    hash; module Identity proves that nothing is lost by doing so. */
module Events {
  type TxId = string

  type Edge = (TxId, TxId)

  datatype EventId =
    | Observed(stream: string, step: nat)
    | Requested(batch: EventId, tx: TxId, step: nat)
    | Completed(request: EventId, model: string)

  datatype GraphNode = GraphNode(tx: TxId, timeStep: nat, features: seq<real>)

  datatype GraphBatch = GraphBatch(
    eventId: EventId,
    occurredAt: int,
    producedAt: int,
    stream: string,
    timeStep: nat,
    sequence: nat,
    sourceOffset: int,
    featureSchema: string,
    nodes: seq<GraphNode>,
    edges: seq<Edge>)

  datatype ScoringRequest = ScoringRequest(
    eventId: EventId,
    tx: TxId,
    watermark: nat,
    sourceTimeStep: nat,
    eventSequence: nat,
    featureSchema: string,
    sourceIngestedAt: int,
    requestedAt: int)

  datatype ScoringResult = ScoringResult(
    eventId: EventId,
    tx: TxId,
    model: string,
    featureSchema: string,
    probability: real,
    watermark: nat,
    scoredAt: int)

  /** The transactions a batch carries. */
  function BatchIds(b: GraphBatch): set<TxId> {
    set n | n in b.nodes :: n.tx
  }

  /** No transaction appears twice in one batch. */
  ghost predicate DistinctIds(b: GraphBatch) {
    forall i, j :: 0 <= i < j < |b.nodes| ==> b.nodes[i].tx != b.nodes[j].tx
  }

  /** Every edge of the batch joins two different transactions of the batch. */
  ghost predicate EdgesWithin(b: GraphBatch) {
    forall e :: e in b.edges ==> e.0 != e.1 && e.0 in BatchIds(b) && e.1 in BatchIds(b)
  }

  function RequestId(b: GraphBatch, tx: TxId): EventId {
    Requested(b.eventId, tx, b.timeStep)
  }

  /** The scoring request the materializer derives from one transaction of a batch. */
  function RequestFor(b: GraphBatch, tx: TxId, now: int): ScoringRequest {
    ScoringRequest(RequestId(b, tx), tx, b.timeStep, b.timeStep, b.sequence,
                   b.featureSchema, b.producedAt, now)
  }

  function RequestIds(b: GraphBatch): set<EventId> {
    set n | n in b.nodes :: RequestId(b, n.tx)
  }
}
