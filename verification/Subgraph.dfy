/** The bounded neighbourhood query: a level-by-level search with three places where it may
    cut its answer short. */
module Subgraph {
  import opened Events
  import opened Options
  import opened Tables
  import opened Graph
  import opened Ordering

  datatype NodeView = NodeView(tx: TxId, features: seq<real>, timeStep: nat, risk: real)

  datatype View = View(
    center: TxId,
    nodes: seq<NodeView>,
    edges: seq<Edge>,
    watermark: nat,
    truncated: bool)

  /** The search between two rows of a level: `next` is the frontier it is gathering. */
  datatype Search = Search(
    visited: set<TxId>,
    frontier: set<TxId>,
    next: set<TxId>,
    discovered: set<Edge>,
    truncated: bool)

  function Admit(s: Search, tx: TxId, maxNodes: nat): Search {
    if tx in s.visited then s
    else if |s.visited| >= maxNodes then s.(truncated := true)
    else s.(visited := s.visited + {tx}, next := s.next + {tx})
  }

  function ScanRow(s: Search, row: Edge, maxNodes: nat): Search {
    Admit(Admit(s.(discovered := s.discovered + {row}), row.0, maxNodes), row.1, maxNodes)
  }

  function ScanRows(s: Search, rows: seq<Edge>, maxNodes: nat): Search {
    if rows == [] then s else ScanRow(ScanRows(s, rows[..|rows| - 1], maxNodes), rows[|rows| - 1], maxNodes)
  }

  /** The rows one level reads: those that touch the frontier, in order, up to the limit. */
  ghost function LevelRows(edges: set<Edge>, frontier: set<TxId>, limit: nat): seq<Edge> {
    var rows := SortedPairs(Incident(edges, frontier));
    if |rows| <= limit then rows else rows[..limit]
  }

  ghost function Level(edges: set<Edge>, s: Search, maxNodes: nat, maxEdges: nat): Search {
    var rows := LevelRows(edges, s.frontier, maxEdges + 1);
    var cut := |rows| > maxEdges;
    var read := if cut then rows[..maxEdges] else rows;
    var scanned := ScanRows(s.(next := {}, truncated := s.truncated || cut), read, maxNodes);
    scanned.(frontier := scanned.next, next := {})
  }

  ghost function Levels(edges: set<Edge>, center: TxId, hops: nat, maxNodes: nat, maxEdges: nat): Search {
    if hops == 0 then Search({center}, {center}, {}, {}, false)
    else
      var s := Levels(edges, center, hops - 1, maxNodes, maxEdges);
      if s.frontier == {} then s else Level(edges, s, maxNodes, maxEdges)
  }

  function ViewOf(t: Tables, tx: TxId, model: string): NodeView
    requires tx in t.nodes
  {
    var risk := if (tx, model) in t.scores then t.scores[(tx, model)].probability else 0.0;
    NodeView(tx, t.nodes[tx].features, t.nodes[tx].timeStep, risk)
  }

  function HighestWatermark(t: Tables, ids: seq<TxId>): (w: nat)
    requires forall tx :: tx in ids ==> tx in t.nodes
    ensures forall tx :: tx in ids ==> t.nodes[tx].watermark <= w
    ensures w == 0 || exists tx :: tx in ids && t.nodes[tx].watermark == w
  {
    if ids == [] then 0
    else
      var rest := HighestWatermark(t, ids[1..]);
      if t.nodes[ids[0]].watermark >= rest then t.nodes[ids[0]].watermark else rest
  }

  /** The rows found for the visited ids, in order. */
  ghost function Views(t: Tables, ids: seq<TxId>, model: string): (views: seq<NodeView>)
    requires forall tx :: tx in ids ==> tx in t.nodes
    ensures |views| == |ids|
    ensures forall i :: 0 <= i < |ids| ==> views[i] == ViewOf(t, ids[i], model)
  {
    seq(|ids|, i requires 0 <= i < |ids| => assert ids[i] in ids; ViewOf(t, ids[i], model))
  }

  ghost function Present(t: Tables, visited: set<TxId>, discovered: set<Edge>, truncated: bool,
                         center: TxId, maxEdges: nat, model: string): View {
    var ids := SortedStrings(visited * t.nodes.Keys);
    StringsListed(visited * t.nodes.Keys);
    var bounded := SortedPairs(Induced(discovered, visited));
    var cut := |bounded| > maxEdges;
    View(center,
         Views(t, ids, model),
         if cut then bounded[..maxEdges] else bounded,
         HighestWatermark(t, ids),
         truncated || cut)
  }

  ghost function Query(t: Tables, center: TxId, hops: nat, maxNodes: nat, maxEdges: nat, model: string): Option<View> {
    if center !in t.nodes then None
    else
      var s := Levels(t.edges, center, hops, maxNodes, maxEdges);
      Some(Present(t, s.visited, s.discovered, s.truncated, center, maxEdges, model))
  }

  // ---- the query as the service runs it ----

  method SelectEdges(edges: set<Edge>, frontier: set<TxId>, limit: nat) returns (rows: seq<Edge>)
    ensures rows == LevelRows(edges, frontier, limit)
    ensures AreLeastPairs(rows, Incident(edges, frontier), limit)
  {
    PrefixIsLeast(Incident(edges, frontier), limit);
    rows := SortPairs(Incident(edges, frontier));
    if |rows| > limit {
      rows := rows[..limit];
    }
  }

  method ScanLevel(rows: seq<Edge>, seen: set<TxId>, known: set<Edge>, cut: bool, maxNodes: nat)
    returns (visited: set<TxId>, next: set<TxId>, discovered: set<Edge>, truncated: bool)
    ensures forall frontier :: Search(visited, frontier, next, discovered, truncated)
                               == ScanRows(Search(seen, frontier, {}, known, cut), rows, maxNodes)
  {
    visited, next, discovered, truncated := seen, {}, known, cut;
    for i := 0 to |rows|
      invariant forall frontier :: Search(visited, frontier, next, discovered, truncated)
                                   == ScanRows(Search(seen, frontier, {}, known, cut), rows[..i], maxNodes)
    {
      assert rows[..i + 1][..i] == rows[..i];
      discovered := discovered + {rows[i]};
      var candidates := [rows[i].0, rows[i].1];
      ghost var scanned := Search(visited, {}, next, discovered, truncated);
      for j := 0 to 2
        invariant Search(visited, {}, next, discovered, truncated)
                  == (if j == 0 then scanned
                      else if j == 1 then Admit(scanned, rows[i].0, maxNodes)
                      else Admit(Admit(scanned, rows[i].0, maxNodes), rows[i].1, maxNodes))
      {
        if candidates[j] !in visited {
          if |visited| >= maxNodes {
            truncated := true;
            continue;
          }
          visited := visited + {candidates[j]};
          next := next + {candidates[j]};
        }
      }
    }
    assert rows[..|rows|] == rows;
  }

  method OneLevel(edges: set<Edge>, ghost s: Search, seen: set<TxId>, frontier: set<TxId>, known: set<Edge>, cut: bool,
                  maxNodes: nat, maxEdges: nat)
    returns (visited: set<TxId>, next: set<TxId>, discovered: set<Edge>, truncated: bool)
    requires s == Search(seen, frontier, {}, known, cut)
    ensures Search(visited, next, {}, discovered, truncated) == Level(edges, s, maxNodes, maxEdges)
  {
    hide ScanRows, LevelRows;
    truncated := cut;
    var rows := SelectEdges(edges, frontier, maxEdges + 1);
    if |rows| > maxEdges {
      truncated := true;
      rows := rows[..maxEdges];
    }
    ghost var start := Search(seen, frontier, {}, known, truncated);
    visited, next, discovered, truncated := ScanLevel(rows, seen, known, truncated, maxNodes);
    assert Search(visited, frontier, next, discovered, truncated) == ScanRows(start, rows, maxNodes);
  }

  method SearchLevels(edges: set<Edge>, center: TxId, hops: nat, maxNodes: nat, maxEdges: nat)
    returns (visited: set<TxId>, discovered: set<Edge>, truncated: bool)
    ensures var s := Levels(edges, center, hops, maxNodes, maxEdges);
            visited == s.visited && discovered == s.discovered && truncated == s.truncated
  {
    hide ScanRows, LevelRows;
    var frontier := {center};
    visited, discovered, truncated := {center}, {}, false;
    for hop := 0 to hops
      invariant Search(visited, frontier, {}, discovered, truncated) == Levels(edges, center, hop, maxNodes, maxEdges)
    {
      if frontier == {} {
        EmptyFrontierIsFinal(edges, center, hop, hops, maxNodes, maxEdges);
        break;
      }
      visited, frontier, discovered, truncated :=
        OneLevel(edges, Levels(edges, center, hop, maxNodes, maxEdges), visited, frontier, discovered, truncated, maxNodes, maxEdges);
    }
  }

  method GetBoundedSubgraph(t: Tables, center: TxId, hops: nat, maxNodes: nat, maxEdges: nat, model: string)
    returns (view: Option<View>)
    ensures view == Query(t, center, hops, maxNodes, maxEdges, model)
  {
    if center !in t.nodes {
      return None;
    }
    hide Levels, Induced;
    var visited, discovered, truncated := SearchLevels(t.edges, center, hops, maxNodes, maxEdges);
    var ids := SortStrings(visited * t.nodes.Keys);
    StringsListed(visited * t.nodes.Keys);
    var bounded := SortPairs(Induced(discovered, visited));
    var nodes := seq(|ids|, i requires 0 <= i < |ids| => assert ids[i] in ids; ViewOf(t, ids[i], model));
    if |bounded| > maxEdges {
      bounded := bounded[..maxEdges];
      truncated := true;
    }
    assert nodes == Views(t, ids, model);
    return Some(View(center, nodes, bounded, HighestWatermark(t, ids), truncated));
  }

  lemma {:induction false} EmptyFrontierIsFinal(edges: set<Edge>, center: TxId, hop: nat, hops: nat,
                                                maxNodes: nat, maxEdges: nat)
    requires hop <= hops && Levels(edges, center, hop, maxNodes, maxEdges).frontier == {}
    ensures Levels(edges, center, hops, maxNodes, maxEdges) == Levels(edges, center, hop, maxNodes, maxEdges)
  {
    hide Level;
    if hop < hops {
      EmptyFrontierIsFinal(edges, center, hop, hops - 1, maxNodes, maxEdges);
    }
  }
}
