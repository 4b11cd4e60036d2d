/** Materializing batches in any order, with any repetitions, ends in the same graph. */
module MaterializationOrder {
  import opened Events
  import opened Tables

  function MaterializeAll(t: Tables, batches: seq<GraphBatch>, consumer: string, now: int): Tables {
    if batches == [] then t
    else
      var earlier := MaterializeAll(t, batches[..|batches| - 1], consumer, now);
      var o := Materialize(earlier, batches[|batches| - 1], consumer, now);
      if o.Applied? then o.tables else earlier
  }

  /** Distinct batches have distinct identities and time steps, and each is well formed. */
  ghost predicate Compatible(batches: set<GraphBatch>) {
    && (forall b :: b in batches ==> DistinctIds(b) && EdgesWithin(b))
    && (forall a, b :: a in batches && b in batches && a != b ==> a.eventId != b.eventId && a.timeStep != b.timeStep)
  }

  function SetOf(batches: seq<GraphBatch>): set<GraphBatch> {
    set b | b in batches
  }

  /** The batches that some earlier delivery has not claimed already. */
  function Unclaimed(t: Tables, batches: set<GraphBatch>, consumer: string): set<GraphBatch> {
    set b | b in batches && (b.eventId, consumer) !in t.inbox
  }

  // ---- what a set of batches leaves behind, said without an order ----

  ghost predicate BestRow(t: Tables, applied: set<GraphBatch>, tx: TxId, row: NodeRow) {
    || (&& tx in t.nodes && row == t.nodes[tx]
        && forall b :: b in applied && tx in BatchIds(b) ==> b.timeStep < t.nodes[tx].watermark)
    || exists b :: b in applied && RowFrom(t, applied, tx, row, b)
  }

  /** The row comes from the latest batch that carries the transaction. */
  ghost predicate RowFrom(t: Tables, applied: set<GraphBatch>, tx: TxId, row: NodeRow, b: GraphBatch) {
    && tx in BatchIds(b) && row == RowOf(b, NodeOf(b, tx))
    && (tx in t.nodes ==> t.nodes[tx].watermark <= b.timeStep)
    && forall other :: other in applied && tx in BatchIds(other) ==> other.timeStep <= b.timeStep
  }

  ghost predicate BestCheckpoint(t: Tables, applied: set<GraphBatch>, stream: string, row: Checkpoint) {
    || (&& stream in t.checkpoints && row == t.checkpoints[stream]
        && forall b :: b in applied && b.stream == stream ==> b.timeStep < t.checkpoints[stream].lastStep)
    || exists b :: b in applied && CheckpointFrom(t, applied, stream, row, b)
  }

  ghost predicate CheckpointFrom(t: Tables, applied: set<GraphBatch>, stream: string, row: Checkpoint, b: GraphBatch) {
    && b.stream == stream && row == Checkpoint(b.timeStep, b.sourceOffset)
    && (stream in t.checkpoints ==> t.checkpoints[stream].lastStep <= b.timeStep)
    && forall other :: other in applied && other.stream == stream ==> other.timeStep <= b.timeStep
  }

  function AllIds(applied: set<GraphBatch>): set<TxId> {
    set b, tx | b in applied && tx in BatchIds(b) :: tx
  }

  function AllEdges(applied: set<GraphBatch>): set<Edge> {
    set b, e | b in applied && e in EdgeSet(b.edges) :: e
  }

  function AllRequests(applied: set<GraphBatch>): set<EventId> {
    set b, id | b in applied && id in RequestIds(b) :: id
  }

  function AllStreams(applied: set<GraphBatch>): set<string> {
    set b | b in applied :: b.stream
  }

  ghost predicate NodesAfter(t: Tables, applied: set<GraphBatch>, later: Tables) {
    && later.nodes.Keys == t.nodes.Keys + AllIds(applied)
    && forall tx :: tx in later.nodes ==> BestRow(t, applied, tx, later.nodes[tx])
  }

  ghost predicate CheckpointsAfter(t: Tables, applied: set<GraphBatch>, later: Tables) {
    && later.checkpoints.Keys == t.checkpoints.Keys + AllStreams(applied)
    && forall stream :: stream in later.checkpoints ==> BestCheckpoint(t, applied, stream, later.checkpoints[stream])
  }

  ghost predicate After(t: Tables, applied: set<GraphBatch>, consumer: string, later: Tables) {
    && later.inbox == t.inbox + (set b | b in applied :: (b.eventId, consumer))
    && NodesAfter(t, applied, later)
    && CheckpointsAfter(t, applied, later)
    && later.edges == t.edges + AllEdges(applied)
    && later.requests.Keys == t.requests.Keys + AllRequests(applied)
  }

  /** Two outcomes for the same batches agree. */
  lemma OutcomeIsUnique(t: Tables, applied: set<GraphBatch>, consumer: string, a: Tables, b: Tables)
    requires Compatible(applied) && After(t, applied, consumer, a) && After(t, applied, consumer, b)
    ensures a.nodes == b.nodes && a.edges == b.edges && a.checkpoints == b.checkpoints && a.inbox == b.inbox
    ensures a.requests.Keys == b.requests.Keys
  {
    hide Compatible, BestRow, BestCheckpoint, AllIds, AllEdges, AllRequests, AllStreams;
    forall tx | tx in a.nodes
      ensures a.nodes[tx] == b.nodes[tx]
    {
      BestRowIsUnique(t, applied, tx, a.nodes[tx], b.nodes[tx]);
    }
    forall stream | stream in a.checkpoints
      ensures a.checkpoints[stream] == b.checkpoints[stream]
    {
      BestCheckpointIsUnique(t, applied, stream, a.checkpoints[stream], b.checkpoints[stream]);
    }
  }

  lemma BestRowIsUnique(t: Tables, applied: set<GraphBatch>, tx: TxId, x: NodeRow, y: NodeRow)
    requires Compatible(applied) && BestRow(t, applied, tx, x) && BestRow(t, applied, tx, y)
    ensures x == y
  {
    if b :| b in applied && RowFrom(t, applied, tx, x, b) {
      if c :| c in applied && RowFrom(t, applied, tx, y, c) {
        assert b == c;
      }
    }
  }

  lemma BestCheckpointIsUnique(t: Tables, applied: set<GraphBatch>, stream: string, x: Checkpoint, y: Checkpoint)
    requires Compatible(applied) && BestCheckpoint(t, applied, stream, x) && BestCheckpoint(t, applied, stream, y)
    ensures x == y
  {
    if b :| b in applied && CheckpointFrom(t, applied, stream, x, b) {
      if c :| c in applied && CheckpointFrom(t, applied, stream, y, c) {
        assert b == c;
      }
    }
  }

  // ---- one more batch ----

  lemma WellFormedIsApplied(t: Tables, b: GraphBatch, consumer: string, now: int)
    requires DistinctIds(b) && EdgesWithin(b)
    ensures !Materialize(t, b, consumer, now).Rejected?
  {
  }

  lemma RowWatermark(t: Tables, applied: set<GraphBatch>, tx: TxId, row: NodeRow)
    requires BestRow(t, applied, tx, row)
    ensures forall b :: b in applied && tx in BatchIds(b) ==> b.timeStep <= row.watermark
    ensures tx in t.nodes ==> t.nodes[tx].watermark <= row.watermark
  {
  }

  lemma BestRowAfterOneMore(t: Tables, applied: set<GraphBatch>, later: Tables, b: GraphBatch, tx: TxId)
    requires NodesAfter(t, applied, later) && tx in later.nodes.Keys + BatchIds(b)
    ensures BestRow(t, applied + {b}, tx, UpsertNodes(later.nodes, b)[tx])
  {
    hide RowOf, NodeOf, BestRow;
    if tx in BatchIds(b) && (tx in later.nodes ==> later.nodes[tx].watermark <= b.timeStep) {
      NewRowIsBest(t, applied, later, b, tx);
    } else {
      OldRowIsBest(t, applied, later.nodes[tx], b, tx);
    }
  }

  lemma NewRowIsBest(t: Tables, applied: set<GraphBatch>, later: Tables, b: GraphBatch, tx: TxId)
    requires NodesAfter(t, applied, later) && tx in BatchIds(b)
    requires tx in later.nodes ==> later.nodes[tx].watermark <= b.timeStep
    ensures BestRow(t, applied + {b}, tx, RowOf(b, NodeOf(b, tx)))
  {
    hide RowOf, NodeOf, BestRow;
    if tx in later.nodes {
      RowWatermark(t, applied, tx, later.nodes[tx]);
    } else {
      assert forall other :: other in applied && tx in BatchIds(other) ==> tx in AllIds(applied);
    }
    RowIsBest(t, applied + {b}, tx, RowOf(b, NodeOf(b, tx)), b);
  }

  lemma RowIsBest(t: Tables, applied: set<GraphBatch>, tx: TxId, row: NodeRow, b: GraphBatch)
    requires b in applied && RowFrom(t, applied, tx, row, b)
    ensures BestRow(t, applied, tx, row)
  {
  }

  lemma OldRowIsBest(t: Tables, applied: set<GraphBatch>, row: NodeRow, b: GraphBatch, tx: TxId)
    requires BestRow(t, applied, tx, row) && (tx in BatchIds(b) ==> b.timeStep < row.watermark)
    ensures BestRow(t, applied + {b}, tx, row)
  {
    if other :| other in applied && RowFrom(t, applied, tx, row, other) {
      assert RowFrom(t, applied + {b}, tx, row, other);
    }
  }

  lemma BestCheckpointAfterOneMore(t: Tables, applied: set<GraphBatch>, later: Tables, b: GraphBatch, stream: string)
    requires CheckpointsAfter(t, applied, later) && stream in later.checkpoints.Keys + {b.stream}
    ensures BestCheckpoint(t, applied + {b}, stream, UpsertCheckpoint(later.checkpoints, b)[stream])
  {
    var row := UpsertCheckpoint(later.checkpoints, b)[stream];
    if stream == b.stream && !(stream in later.checkpoints && b.timeStep < later.checkpoints[stream].lastStep) {
      if stream in later.checkpoints {
        assert BestCheckpoint(t, applied, stream, later.checkpoints[stream]);
      } else {
        assert forall other :: other in applied && other.stream == stream ==> stream in AllStreams(applied);
      }
      assert CheckpointFrom(t, applied + {b}, stream, row, b);
    } else if other :| other in applied && CheckpointFrom(t, applied, stream, row, other) {
      assert CheckpointFrom(t, applied + {b}, stream, row, other);
    }
  }

  lemma OneMore(t: Tables, applied: set<GraphBatch>, consumer: string, later: Tables, b: GraphBatch, now: int)
    requires After(t, applied, consumer, later) && Materialize(later, b, consumer, now).Applied?
    ensures After(t, applied + {b}, consumer, Materialize(later, b, consumer, now).tables)
  {
    hide NodesAfter, CheckpointsAfter, AllEdges, AllRequests, UpsertNodes, UpsertCheckpoint, InsertRequests;
    var more := Materialize(later, b, consumer, now).tables;
    OneMoreNodes(t, applied, later, b, more);
    OneMoreCheckpoint(t, applied, later, b, more);
    OneMoreEdges(applied, b);
    RequestsInserted(later.requests, b, now);
  }

  lemma RequestsInserted(requests: map<EventId, OutboxRow<ScoringRequest>>, b: GraphBatch, now: int)
    ensures InsertRequests(requests, b, now).Keys == requests.Keys + RequestIds(b)
  {
  }

  lemma OneMoreEdges(applied: set<GraphBatch>, b: GraphBatch)
    ensures AllEdges(applied + {b}) == AllEdges(applied) + EdgeSet(b.edges)
    ensures AllRequests(applied + {b}) == AllRequests(applied) + RequestIds(b)
  {
  }

  lemma OneMoreCheckpoint(t: Tables, applied: set<GraphBatch>, later: Tables, b: GraphBatch, more: Tables)
    requires CheckpointsAfter(t, applied, later) && more.checkpoints == UpsertCheckpoint(later.checkpoints, b)
    ensures CheckpointsAfter(t, applied + {b}, more)
  {
    forall stream | stream in more.checkpoints
      ensures BestCheckpoint(t, applied + {b}, stream, more.checkpoints[stream])
    {
      BestCheckpointAfterOneMore(t, applied, later, b, stream);
    }
    assert AllStreams(applied + {b}) == AllStreams(applied) + {b.stream};
  }

  lemma OneMoreNodes(t: Tables, applied: set<GraphBatch>, later: Tables, b: GraphBatch, more: Tables)
    requires NodesAfter(t, applied, later) && more.nodes == UpsertNodes(later.nodes, b)
    ensures NodesAfter(t, applied + {b}, more)
  {
    forall tx | tx in more.nodes
      ensures BestRow(t, applied + {b}, tx, more.nodes[tx])
    {
      BestRowAfterOneMore(t, applied, later, b, tx);
    }
    assert AllIds(applied + {b}) == AllIds(applied) + BatchIds(b);
  }

  // ---- any list ----

  lemma {:induction false} AllAfter(t: Tables, batches: seq<GraphBatch>, consumer: string, now: int)
    requires Compatible(SetOf(batches))
    ensures After(t, Unclaimed(t, SetOf(batches), consumer), consumer, MaterializeAll(t, batches, consumer, now))
  {
    if batches == [] {
      NothingApplied(t, consumer);
      assert Unclaimed(t, SetOf(batches), consumer) == {};
    } else {
      var front, b := batches[..|batches| - 1], batches[|batches| - 1];
      assert batches == front + [b];
      assert SetOf(batches) == SetOf(front) + {b};
      AllAfter(t, front, consumer, now);
      var earlier := MaterializeAll(t, front, consumer, now);
      var applied := Unclaimed(t, SetOf(front), consumer);
      WellFormedIsApplied(earlier, b, consumer, now);
      if Materialize(earlier, b, consumer, now).Applied? {
        OneMore(t, applied, consumer, earlier, b, now);
        assert Unclaimed(t, SetOf(batches), consumer) == applied + {b};
      } else {
        AlreadyApplied(t, SetOf(front), consumer, earlier, b);
      }
    }
  }

  lemma NothingApplied(t: Tables, consumer: string)
    ensures After(t, {}, consumer, t)
  {
  }

  lemma AlreadyApplied(t: Tables, batches: set<GraphBatch>, consumer: string, later: Tables, b: GraphBatch)
    requires Compatible(batches + {b}) && After(t, Unclaimed(t, batches, consumer), consumer, later)
    requires (b.eventId, consumer) in later.inbox
    ensures Unclaimed(t, batches + {b}, consumer) == Unclaimed(t, batches, consumer)
  {
  }

  /** The graph, the checkpoints, the claims and the outbox identities depend only on which
      batches were delivered: not on their order, nor on how often each came. */
  lemma OrderIsIrrelevant(t: Tables, first: seq<GraphBatch>, second: seq<GraphBatch>, consumer: string, now: int,
                          another: int)
    requires SetOf(first) == SetOf(second) && Compatible(SetOf(first))
    ensures var a := MaterializeAll(t, first, consumer, now);
            var b := MaterializeAll(t, second, consumer, another);
            && a.nodes == b.nodes && a.edges == b.edges && a.checkpoints == b.checkpoints && a.inbox == b.inbox
            && a.requests.Keys == b.requests.Keys
  {
    AllAfter(t, first, consumer, now);
    AllAfter(t, second, consumer, another);
    OutcomeIsUnique(t, Unclaimed(t, SetOf(first), consumer), consumer,
                    MaterializeAll(t, first, consumer, now), MaterializeAll(t, second, consumer, another));
  }
}
