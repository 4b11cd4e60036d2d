/** What the trained model is shown, and how the database query and the in-memory buffer it
    replaced compare at that point. */
module ModelInput {
  import opened Events
  import opened Tables
  import opened Graph
  import opened Options
  import opened Ordering
  import opened Subgraph
  import opened SubgraphTheorem
  import GraphBuffer

  /** Each stored edge is shown in both directions. */
  function ModelEdges(edges: seq<Edge>): seq<Edge> {
    if edges == [] then [] else [edges[0], (edges[0].1, edges[0].0)] + ModelEdges(edges[1..])
  }

  lemma {:induction false} ModelEdgesAreDoubled(edges: seq<Edge>)
    ensures EdgeSet(ModelEdges(edges)) == GraphBuffer.Doubled(EdgeSet(edges))
    ensures |ModelEdges(edges)| == 2 * |edges|
  {
    if edges != [] {
      ModelEdgesAreDoubled(edges[1..]);
      assert edges == [edges[0]] + edges[1..];
      assert EdgeSet(edges) == {edges[0]} + EdgeSet(edges[1..]);
      var shown := [edges[0], (edges[0].1, edges[0].0)];
      assert EdgeSet(shown) == {edges[0], (edges[0].1, edges[0].0)};
      assert EdgeSet(shown + ModelEdges(edges[1..])) == EdgeSet(shown) + EdgeSet(ModelEdges(edges[1..]));
    }
  }

  /** Distances do not change when edges are entered in both directions. */
  lemma {:induction false} DoublingKeepsDistances(edges: set<Edge>, center: TxId, radius: nat)
    ensures Ball(GraphBuffer.Doubled(edges), center, radius) == Ball(edges, center, radius)
  {
    hide Neighbours, GraphBuffer.Doubled;
    if radius > 0 {
      DoublingKeepsDistances(edges, center, radius - 1);
      SameNeighbours(edges, Ball(edges, center, radius - 1));
    }
  }

  lemma SameNeighbours(edges: set<Edge>, ids: set<TxId>)
    ensures Neighbours(GraphBuffer.Doubled(edges), ids) == Neighbours(edges, ids)
  {
    forall x | x in Neighbours(edges, ids)
      ensures x in Neighbours(GraphBuffer.Doubled(edges), ids)
    {
      var y := NeighbourIn(edges, ids, x);
      assert (y, x) in GraphBuffer.Doubled(edges);
    }
    forall x | x in Neighbours(GraphBuffer.Doubled(edges), ids)
      ensures x in Neighbours(edges, ids)
    {
      var y := NeighbourIn(GraphBuffer.Doubled(edges), ids, x);
      assert (y, x) in edges || (x, y) in edges;
    }
  }

  /** The pairs with both ends at distance exactly `hops`. */
  function RimPairs(pairs: set<Edge>, center: TxId, hops: nat): set<Edge> {
    Induced(pairs, Sphere(pairs, center, hops))
  }

  lemma NearAndFar(edges: set<Edge>, near: set<TxId>, ball: set<TxId>)
    requires near <= ball && Neighbours(edges, near) <= ball
    ensures GraphBuffer.Doubled(Incident(edges, near))
            == Induced(GraphBuffer.Doubled(edges), ball) - Induced(GraphBuffer.Doubled(edges), ball - near)
  {
    forall e | e in Incident(edges, near)
      ensures e.0 in ball && e.1 in ball
    {
      assert e.0 in near ==> e.1 in Neighbours(edges, near);
      assert e.1 in near ==> e.0 in Neighbours(edges, near);
    }
  }

  lemma InnerIsOffTheRim(edges: set<Edge>, center: TxId, hops: nat)
    ensures var pairs := GraphBuffer.Doubled(edges);
            GraphBuffer.Doubled(Inner(edges, center, hops))
            == Induced(pairs, Ball(pairs, center, hops)) - RimPairs(pairs, center, hops)
  {
    hide GraphBuffer.Doubled, Neighbours, Induced, Incident;
    DoublingKeepsDistances(edges, center, hops);
    if hops > 0 {
      DoublingKeepsDistances(edges, center, hops - 1);
      NearAndFar(edges, Ball(edges, center, hops - 1), Ball(edges, center, hops));
    } else {
      NothingIsInner(edges, center);
    }
  }

  lemma NothingIsInner(edges: set<Edge>, center: TxId)
    ensures GraphBuffer.Doubled({}) == {}
    ensures Induced(GraphBuffer.Doubled(edges), {center}) - RimPairs(GraphBuffer.Doubled(edges), center, 0) == {}
  {
  }

  /** A buffer that holds the stored edges and visits the whole ball visits the transactions an
      untruncated query reports, and the model is shown the buffer's pairs except those with
      both ends at distance exactly `hops`. */
  lemma QueryMatchesBuffer(t: Tables, center: TxId, hops: nat, maxNodes: nat, maxEdges: nat, model: string,
                           adjacent: map<TxId, set<TxId>>, visited: set<TxId>)
    requires center in t.nodes && ReferentialIntegrity(t) && maxNodes >= 1
    requires !Query(t, center, hops, maxNodes, maxEdges, model).value.truncated
    requires GraphBuffer.PairsOf(adjacent) == GraphBuffer.Doubled(t.edges)
    requires visited == Ball(GraphBuffer.PairsOf(adjacent), center, hops)
    ensures var v := Query(t, center, hops, maxNodes, maxEdges, model).value;
            var pairs := GraphBuffer.PairsOf(adjacent);
            && NodeIds(v) == visited
            && EdgeSet(ModelEdges(v.edges)) == Induced(pairs, visited) - RimPairs(pairs, center, hops)
  {
    TruncatedMeansIncomplete(t, center, hops, maxNodes, maxEdges, model);
    DoublingKeepsDistances(t.edges, center, hops);
    InnerIsOffTheRim(t.edges, center, hops);
    ModelEdgesAreDoubled(Query(t, center, hops, maxNodes, maxEdges, model).value.edges);
  }

  /** The node rows of the tables, as the buffer takes them. */
  method NodeRows(nodes: map<TxId, NodeRow>) returns (rows: seq<(TxId, seq<real>)>)
    ensures (set row | row in rows :: row.0) == nodes.Keys
    ensures forall i, j :: 0 <= i < j < |rows| ==> rows[i].0 != rows[j].0
    ensures forall row :: row in rows ==> row.0 in nodes && row.1 == nodes[row.0].features
  {
    var ids := SortStrings(nodes.Keys);
    StringsListed(nodes.Keys);
    assert forall i :: 0 <= i < |ids| ==> ids[i] in nodes;
    rows := [];
    for k := 0 to |ids|
      invariant |rows| == k
      invariant forall i :: 0 <= i < k ==> rows[i] == (ids[i], nodes[ids[i]].features)
    {
      rows := rows + [(ids[k], nodes[ids[k]].features)];
    }
    RowsListKeys(rows, ids);
  }

  lemma RowsListKeys(rows: seq<(TxId, seq<real>)>, ids: seq<TxId>)
    requires |rows| == |ids| && forall i :: 0 <= i < |ids| ==> rows[i].0 == ids[i]
    ensures (set row | row in rows :: row.0) == set tx | tx in ids
  {
    forall tx | tx in ids
      ensures exists row :: row in rows && row.0 == tx
    {
      var i :| 0 <= i < |ids| && ids[i] == tx;
      assert rows[i] in rows;
    }
  }

  method FillBuffer(t: Tables) returns (buffer: GraphBuffer.GraphBuffer)
    ensures fresh(buffer) && buffer.Symmetric()
    ensures GraphBuffer.PairsOf(buffer.adjacent) == GraphBuffer.Doubled(t.edges)
    ensures buffer.nodes.Keys == t.nodes.Keys
    ensures forall tx :: tx in t.nodes ==> buffer.nodes[tx] == t.nodes[tx].features
  {
    buffer := new GraphBuffer.GraphBuffer();
    var rows := NodeRows(t.nodes);
    buffer.AddNodes(rows);
    var edges := SortPairs(t.edges);
    PairsListed(t.edges);
    assert EdgeSet(edges) == t.edges;
    buffer.AddEdges(edges);
    forall tx | tx in t.nodes
      ensures buffer.nodes[tx] == t.nodes[tx].features
    {
      var row :| row in rows && row.0 == tx;
      var i :| 0 <= i < |rows| && rows[i] == row;
    }
  }

  /** Both answers side by side, over the same stored graph. Where neither is cut short, the
      buffer returns the transactions the query reports, each with its features, and the model
      is shown the buffer's pairs except those with both ends at distance exactly `hops`. */
  method CompareAnswers(t: Tables, center: TxId, hops: nat, maxNodes: nat, maxEdges: nat, model: string, bufferMax: nat)
    returns (view: Option<View>, found: GraphBuffer.Found)
    requires center in t.nodes && ReferentialIntegrity(t) && maxNodes >= 1
    requires !Query(t, center, hops, maxNodes, maxEdges, model).value.truncated
    requires |Ball(t.edges, center, hops)| < bufferMax
    ensures view == Query(t, center, hops, maxNodes, maxEdges, model) && view.Some?
    ensures found.Found? && found.center == center
    ensures (set row | row in found.nodes :: row.0) == NodeIds(view.value) && |found.nodes| == |NodeIds(view.value)|
    ensures forall row :: row in found.nodes ==> row.0 in t.nodes && row.1 == t.nodes[row.0].features
    ensures forall n :: n in view.value.nodes ==> (n.tx, n.features) in found.nodes
    ensures EdgeSet(ModelEdges(view.value.edges))
            == EdgeSet(found.edges) - RimPairs(GraphBuffer.Doubled(t.edges), center, hops)
  {
    hide Ball, Query, EdgeSet, GraphBuffer.PairsOf, GraphBuffer.Doubled, RimPairs, Induced, NodeIds;
    view := GetBoundedSubgraph(t, center, hops, maxNodes, maxEdges, model);
    AnswerIsFound(t, center, hops, maxNodes, maxEdges, model);
    var buffer := FillBuffer(t);
    DoublingKeepsDistances(t.edges, center, hops);
    ghost var visited;
    found, visited := buffer.GetSubgraph(center, hops, bufferMax);
    QueryMatchesBuffer(t, center, hops, maxNodes, maxEdges, model, buffer.adjacent, visited);
    NodesAreStored(t, center, hops, maxNodes, maxEdges, model);
    AnswerIsBounded(t, center, hops, maxNodes, maxEdges, model);
    RowsNameIds(buffer.nodes, visited, found.nodes);
    SameFeatures(t, view.value, found.nodes, model);
  }

  /** A transaction that both answers list has the same features in both. */
  lemma SameFeatures(t: Tables, v: View, rows: seq<(TxId, seq<real>)>, model: string)
    requires forall n :: n in v.nodes ==> ShowsRow(t, n, model)
    requires (set row | row in rows :: row.0) == NodeIds(v)
    requires forall row :: row in rows ==> row.0 in t.nodes && row.1 == t.nodes[row.0].features
    ensures forall n :: n in v.nodes ==> (n.tx, n.features) in rows
  {
    forall n | n in v.nodes
      ensures (n.tx, n.features) in rows
    {
      assert n.tx in NodeIds(v);
      var row :| row in rows && row.0 == n.tx;
    }
  }

  lemma AnswerIsFound(t: Tables, center: TxId, hops: nat, maxNodes: nat, maxEdges: nat, model: string)
    requires center in t.nodes
    ensures Query(t, center, hops, maxNodes, maxEdges, model).Some?
  {
  }

  lemma NodesAreStored(t: Tables, center: TxId, hops: nat, maxNodes: nat, maxEdges: nat, model: string)
    requires center in t.nodes && ReferentialIntegrity(t) && maxNodes >= 1
    ensures NodeIds(Query(t, center, hops, maxNodes, maxEdges, model).value) <= t.nodes.Keys
  {
    Presentation(t, center, hops, maxNodes, maxEdges, model);
  }

  lemma RowsNameIds(nodes: map<TxId, seq<real>>, ids: set<TxId>, rows: seq<(TxId, seq<real>)>)
    requires GraphBuffer.RowsFor(nodes, ids, rows) && ids <= nodes.Keys
    ensures (set row | row in rows :: row.0) == ids && |rows| == |ids|
  {
    forall tx | tx in ids
      ensures exists row :: row in rows && row.0 == tx
    {
      assert (tx, nodes[tx]) in rows;
    }
  }
}
