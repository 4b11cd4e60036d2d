/** The in-memory neighbourhood search the database query replaced, with its own termination
    argument: a neighbour is queued again even when it was seen before. */
module GraphBuffer {
  import opened Events
  import opened Options
  import opened Tables
  import opened Graph

  /** `MissingNode`: a visited transaction of which no node was ever added. */
  datatype Found =
    | Found(nodes: seq<(TxId, seq<real>)>, edges: seq<Edge>, center: TxId)
    | MissingNode(tx: TxId)

  /** Both readings of each edge. */
  function Doubled(edges: set<Edge>): set<Edge> {
    edges + (set e | e in edges :: (e.1, e.0))
  }

  function NeighboursOf(adjacent: map<TxId, set<TxId>>, tx: TxId): set<TxId> {
    if tx in adjacent then adjacent[tx] else {}
  }

  function PairsOf(adjacent: map<TxId, set<TxId>>): set<Edge> {
    set a, b | a in adjacent && b in adjacent[a] :: (a, b)
  }

  // ---- termination of the search ----

  /** What one queued visit may still cost: itself, and a visit to each of at most `degree`
      neighbours one step further out. */
  function Weight(degree: nat, remaining: nat): nat {
    if remaining == 0 then 1 else 1 + degree * Weight(degree, remaining - 1)
  }

  function Cost(degree: nat, hops: nat, queue: seq<(TxId, nat)>): nat {
    if queue == [] then 0
    else
      var last := queue[|queue| - 1];
      Cost(degree, hops, queue[..|queue| - 1]) + Weight(degree, if last.1 <= hops then hops - last.1 else 0)
  }

  lemma CostOfPush(degree: nat, hops: nat, queue: seq<(TxId, nat)>, item: (TxId, nat))
    ensures Cost(degree, hops, queue + [item])
            == Cost(degree, hops, queue) + Weight(degree, if item.1 <= hops then hops - item.1 else 0)
  {
    assert (queue + [item])[..|queue|] == queue;
  }

  lemma {:induction false} CostOfPop(degree: nat, hops: nat, queue: seq<(TxId, nat)>)
    requires queue != []
    ensures Cost(degree, hops, queue)
            == Cost(degree, hops, queue[1..]) + Weight(degree, if queue[0].1 <= hops then hops - queue[0].1 else 0)
  {
    if |queue| == 1 {
      assert queue[1..] == [] && queue[..0] == [];
    } else {
      var front := queue[..|queue| - 1];
      CostOfPop(degree, hops, front);
      assert queue[1..][..|queue| - 2] == front[1..];
    }
  }

  lemma {:induction false} CostOfPushes(degree: nat, hops: nat, queue: seq<(TxId, nat)>, pushed: seq<(TxId, nat)>,
                                        depth: nat)
    requires depth <= hops && forall item :: item in pushed ==> item.1 == depth
    ensures Cost(degree, hops, queue + pushed) == Cost(degree, hops, queue) + |pushed| * Weight(degree, hops - depth)
  {
    hide Weight;
    if pushed == [] {
      assert queue + pushed == queue;
    } else {
      var front, last := pushed[..|pushed| - 1], pushed[|pushed| - 1];
      CostOfPushes(degree, hops, queue, front, depth);
      CostOfPush(degree, hops, queue + front, last);
      assert queue + pushed == queue + front + [last];
      assert last in pushed;
      OneMoreTimes(|front|, Weight(degree, hops - depth));
    }
  }

  lemma OneMoreTimes(n: nat, w: nat)
    ensures (n + 1) * w == n * w + w
  {
  }

  lemma TimesGrows(n: nat, m: nat, w: nat)
    requires n <= m
    ensures n * w <= m * w
  {
  }

  /** A visit costs more than the visits it queues. */
  lemma PopPays(degree: nat, hops: nat, queue: seq<(TxId, nat)>, pushed: seq<(TxId, nat)>)
    requires queue != [] && queue[0].1 < hops && |pushed| <= degree
    requires forall item :: item in pushed ==> item.1 == queue[0].1 + 1
    ensures Cost(degree, hops, queue[1..] + pushed) < Cost(degree, hops, queue)
  {
    var w := Weight(degree, hops - queue[0].1 - 1);
    assert Weight(degree, hops - queue[0].1) == 1 + degree * w;
    hide Weight, Cost;
    CostOfPop(degree, hops, queue);
    CostOfPushes(degree, hops, queue[1..], pushed, queue[0].1 + 1);
    TimesGrows(|pushed|, degree, w);
  }

  lemma WeightIsPositive(degree: nat, remaining: nat)
    ensures Weight(degree, remaining) >= 1
  {
  }

  lemma DegreeBound(adjacent: map<TxId, set<TxId>>) returns (degree: nat)
    ensures forall tx :: tx in adjacent ==> |adjacent[tx]| <= degree
    decreases adjacent.Keys
  {
    if adjacent.Keys == {} {
      degree := 0;
    } else {
      var tx :| tx in adjacent;
      var rest := adjacent - {tx};
      var d := DegreeBound(rest);
      degree := if |adjacent[tx]| > d then |adjacent[tx]| else d;
      forall x | x in adjacent
        ensures |adjacent[x]| <= degree
      {
        if x != tx {
          assert x in rest && rest[x] == adjacent[x];
        }
      }
    }
  }

  class GraphBuffer {
    var nodes: map<TxId, seq<real>>
    var adjacent: map<TxId, set<TxId>>

    constructor ()
      ensures nodes == map[] && adjacent == map[]
    {
      nodes, adjacent := map[], map[];
    }

    method AddNodes(added: seq<(TxId, seq<real>)>)
      modifies this
      ensures adjacent == old(adjacent)
      ensures nodes.Keys == old(nodes.Keys) + set n | n in added :: n.0
      ensures forall i :: 0 <= i < |added| && (forall j :: i < j < |added| ==> added[j].0 != added[i].0)
                ==> nodes[added[i].0] == added[i].1
      ensures forall tx :: tx in old(nodes) && (forall n :: n in added ==> n.0 != tx) ==> nodes[tx] == old(nodes[tx])
    {
      for i := 0 to |added|
        invariant adjacent == old(adjacent)
        invariant forall tx :: tx in nodes <==> tx in old(nodes) || exists j :: 0 <= j < i && added[j].0 == tx
        invariant forall k :: 0 <= k < i && (forall j :: k < j < i ==> added[j].0 != added[k].0)
                    ==> nodes[added[k].0] == added[k].1
        invariant forall tx :: tx in old(nodes) && (forall j :: 0 <= j < i ==> added[j].0 != tx) ==> nodes[tx] == old(nodes[tx])
      {
        nodes := nodes[added[i].0 := added[i].1];
      }
    }

    /** Each edge is entered in both directions. */
    method AddEdges(edges: seq<Edge>)
      modifies this
      ensures nodes == old(nodes)
      ensures PairsOf(adjacent) == PairsOf(old(adjacent)) + Doubled(EdgeSet(edges))
    {
      for i := 0 to |edges|
        invariant nodes == old(nodes)
        invariant PairsOf(adjacent) == PairsOf(old(adjacent)) + Doubled(EdgeSet(edges[..i]))
      {
        assert edges[..i + 1] == edges[..i] + [edges[i]];
        Link(edges[i].0, edges[i].1);
        Link(edges[i].1, edges[i].0);
        assert EdgeSet(edges[..i + 1]) == EdgeSet(edges[..i]) + {edges[i]};
        assert Doubled(EdgeSet(edges[..i + 1])) == Doubled(EdgeSet(edges[..i])) + {edges[i], (edges[i].1, edges[i].0)};
      }
      assert edges[..|edges|] == edges;
    }

    method Link(from: TxId, to: TxId)
      modifies this
      ensures nodes == old(nodes)
      ensures PairsOf(adjacent) == PairsOf(old(adjacent)) + {(from, to)}
    {
      adjacent := adjacent[from := NeighboursOf(adjacent, from) + {to}];
    }
  
    ghost predicate Symmetric()
      reads this
    {
      forall a, b :: (a, b) in PairsOf(adjacent) ==> (b, a) in PairsOf(adjacent)
    }

    ghost predicate Bounded(degree: nat)
      reads this
    {
      forall tx :: tx in adjacent ==> |adjacent[tx]| <= degree
    }

    /** Breadth first to `kHops`; a neighbour is queued again even if it was seen before, and
        the search of one transaction stops when the visited set has reached `maxNodes`. */
    method Search(center: TxId, kHops: nat, maxNodes: nat) returns (visited: set<TxId>)
      requires Symmetric()
      modifies this
      ensures nodes == old(nodes) && PairsOf(adjacent) == PairsOf(old(adjacent))
      ensures center in visited && visited <= Ball(PairsOf(adjacent), center, kHops)
      ensures |Ball(PairsOf(adjacent), center, kHops)| < maxNodes ==> visited == Ball(PairsOf(adjacent), center, kHops)
    {
      hide PairsOf, Cost, Ball, SearchState;
      ghost var edges := PairsOf(adjacent);
      SearchBegins(edges, center, kHops, maxNodes);
      ghost var degree := DegreeBound(adjacent);
      ghost var popped: set<(TxId, nat)> := {};
      ghost var stopped := false;
      var queue := [(center, 0)];
      visited := {center};
      while queue != []
        invariant nodes == old(nodes) && PairsOf(adjacent) == edges
        invariant Bounded(degree)
        invariant SearchState(edges, center, kHops, maxNodes, queue, visited, popped, stopped)
        decreases Cost(degree, kHops, queue)
      {
        queue, visited, popped, stopped := Visit(center, kHops, maxNodes, queue, visited, popped, stopped, edges, degree);
      }
      SearchEnds(edges, center, kHops, maxNodes, visited, popped, stopped);
    }

    /** Takes the first queued visit. */
    method Visit(ghost center: TxId, kHops: nat, maxNodes: nat, queue: seq<(TxId, nat)>, seen: set<TxId>,
                 ghost known: set<(TxId, nat)>, ghost stopped: bool, ghost edges: set<Edge>, ghost degree: nat)
      returns (rest: seq<(TxId, nat)>, visited: set<TxId>, ghost popped: set<(TxId, nat)>, ghost full: bool)
      requires queue != [] && PairsOf(adjacent) == edges && Bounded(degree)
      requires SearchState(edges, center, kHops, maxNodes, queue, seen, known, stopped)
      modifies this
      ensures nodes == old(nodes) && PairsOf(adjacent) == edges && Bounded(degree)
      ensures SearchState(edges, center, kHops, maxNodes, rest, visited, popped, full)
      ensures Cost(degree, kHops, rest) < Cost(degree, kHops, queue)
    {
      hide PairsOf, Queued, Explored, Cost, Ball;
      CostShrinks(degree, kHops, queue);
      FirstIsQueued(edges, center, kHops, queue, seen);
      var current, depth := queue[0].0, queue[0].1;
      rest, visited, popped, full := queue[1..], seen, known + {queue[0]}, stopped;
      if depth == kHops {
        QueueShrinks(edges, center, kHops, queue, known, popped, seen);
        return;
      }
      TouchKeepsPairs(adjacent, current);
      adjacent := adjacent[current := NeighboursOf(adjacent, current)];
      var pushed, stop;
      visited, pushed, stop := Expand(adjacent[current], depth, seen, maxNodes);
      StepStaysInside(edges, center, kHops, current, depth, adjacent[current], seen, visited, pushed, queue);
      PopPays(degree, kHops, queue, pushed);
      SubsetsAreNoLarger(seen, visited);
      full := stopped || stop;
      if !full {
        ExploredFurther(edges, center, kHops, queue, known, seen, visited, adjacent[current], pushed);
      }
      rest := rest + pushed;
    }

    /** Every pair of visited neighbours is listed once, in both directions. */
    method ListEdges(visited: set<TxId>) returns (edges: seq<Edge>)
      modifies this
      ensures nodes == old(nodes) && PairsOf(adjacent) == PairsOf(old(adjacent))
      ensures EdgeSet(edges) == Induced(PairsOf(adjacent), visited) && |edges| == |EdgeSet(edges)|
    {
      ghost var pairs := PairsOf(adjacent);
      edges := [];
      var rest := visited;
      while rest != {}
        invariant nodes == old(nodes) && PairsOf(adjacent) == pairs
        invariant rest <= visited
        invariant EdgeSet(edges) == From(pairs, visited - rest, visited) && |edges| == |EdgeSet(edges)|
        decreases rest
      {
        var tx :| tx in rest;
        TouchKeepsPairs(adjacent, tx);
        adjacent := adjacent[tx := NeighboursOf(adjacent, tx)];
        var found := ListFrom(tx, adjacent[tx], visited);
        Joined(pairs, visited, rest, tx, adjacent[tx], edges, found);
        edges := edges + found;
        rest := rest - {tx};
      }
      assert visited - rest == visited;
    }

    static method ListFrom(tx: TxId, neighbours: set<TxId>, visited: set<TxId>) returns (found: seq<Edge>)
      ensures EdgeSet(found) == (set n | n in neighbours * visited :: (tx, n)) && |found| == |EdgeSet(found)|
    {
      found := [];
      var ahead := neighbours;
      while ahead != {}
        invariant ahead <= neighbours
        invariant EdgeSet(found) == (set n | n in (neighbours - ahead) * visited :: (tx, n)) && |found| == |EdgeSet(found)|
        decreases ahead
      {
        var dest :| dest in ahead;
        if dest in visited {
          assert (tx, dest) !in EdgeSet(found);
          assert EdgeSet(found + [(tx, dest)]) == EdgeSet(found) + {(tx, dest)};
          found := found + [(tx, dest)];
        }
        ahead := ahead - {dest};
      }
      assert neighbours - ahead == neighbours;
    }

    /** The node rows of the visited transactions, each once, or the one that is missing. */
    method ListNodes(visited: set<TxId>) returns (rows: seq<(TxId, seq<real>)>, missing: Option<TxId>)
      ensures missing.None? <==> visited <= nodes.Keys
      ensures missing.Some? ==> missing.value in visited && missing.value !in nodes
      ensures missing.None? ==> RowsFor(nodes, visited, rows)
    {
      rows, missing := [], None;
      var rest := visited;
      while rest != {}
        invariant rest <= visited && visited - rest <= nodes.Keys
        invariant RowsFor(nodes, visited - rest, rows)
        decreases rest
      {
        var tx :| tx in rest;
        if tx !in nodes {
          return [], Some(tx);
        }
        rest := rest - {tx};
        assert visited - rest == (visited - rest - {tx}) + {tx};
        rows := rows + [(tx, nodes[tx])];
      }
      assert visited - rest == visited;
    }

    /** With fewer than `maxNodes` transactions within `kHops`, the answer is exactly those,
        each with its row, and every entered pair between them; it fails exactly when one of
        them has no row. A larger neighbourhood is cut, somewhere within `kHops`. */
    method GetSubgraph(center: TxId, kHops: nat, maxNodes: nat) returns (found: Found, ghost visited: set<TxId>)
      requires Symmetric()
      modifies this
      ensures nodes == old(nodes) && PairsOf(adjacent) == PairsOf(old(adjacent))
      ensures center in visited && visited <= Ball(PairsOf(adjacent), center, kHops)
      ensures |Ball(PairsOf(adjacent), center, kHops)| < maxNodes ==> visited == Ball(PairsOf(adjacent), center, kHops)
      ensures found.Found? <==> visited <= nodes.Keys
      ensures found.MissingNode? ==> found.tx in visited && found.tx !in nodes
      ensures found.Found? ==>
                && found.center == center
                && RowsFor(nodes, visited, found.nodes)
                && EdgeSet(found.edges) == Induced(PairsOf(adjacent), visited)
                && |found.edges| == |EdgeSet(found.edges)|
    {
      hide PairsOf, Ball, Induced, EdgeSet;
      var ids := Search(center, kHops, maxNodes);
      visited := ids;
      var rows, missing := ListNodes(ids);
      if missing.Some? {
        return MissingNode(missing.value), ids;
      }
      var edges := ListEdges(ids);
      found := Found(rows, edges, center);
    }

    static method Expand(neighbours: set<TxId>, depth: nat, seen: set<TxId>, maxNodes: nat)
      returns (visited: set<TxId>, pushed: seq<(TxId, nat)>, full: bool)
      ensures seen <= visited <= seen + neighbours
      ensures |pushed| <= |neighbours|
      ensures forall item :: item in pushed ==> item.0 in neighbours && item.0 in visited && item.1 == depth + 1
      ensures full ==> |visited| >= maxNodes
      ensures !full ==> neighbours <= visited && forall n :: n in neighbours ==> Holds(pushed, n, depth + 1)
    {
      visited, pushed, full := seen, [], false;
      var rest := neighbours;
      while rest != {}
        invariant rest <= neighbours
        invariant seen <= visited <= seen + neighbours && neighbours - rest <= visited
        invariant |pushed| + |rest| <= |neighbours|
        invariant forall item :: item in pushed ==> item.0 in neighbours && item.0 in visited && item.1 == depth + 1
        invariant forall n :: n in neighbours && n !in rest ==> Holds(pushed, n, depth + 1)
        decreases rest
      {
        var neighbour :| neighbour in rest;
        rest := rest - {neighbour};
        if neighbour !in visited {
          visited := visited + {neighbour};
        }
        if |visited| >= maxNodes {
          full := true;
          break;
        }
        ghost var shorter := pushed;
        pushed := pushed + [(neighbour, depth + 1)];
        assert forall n, d :: Holds(shorter, n, d) ==> Holds(pushed, n, d);
      }
    }
  }

  /** One row for each of the ids. */
  predicate RowsFor(nodes: map<TxId, seq<real>>, ids: set<TxId>, rows: seq<(TxId, seq<real>)>) {
    && |rows| == |ids|
    && (forall row :: row in rows ==> row.0 in ids && row.0 in nodes && row.1 == nodes[row.0])
    && (forall tx :: tx in ids && tx in nodes ==> (tx, nodes[tx]) in rows)
  }

  /** The pairs that start in one set and end in the other. */
  function From(pairs: set<Edge>, starts: set<TxId>, ends: set<TxId>): set<Edge> {
    set e | e in pairs && e.0 in starts && e.1 in ends
  }

  lemma Joined(pairs: set<Edge>, visited: set<TxId>, rest: set<TxId>, tx: TxId, neighbours: set<TxId>,
               edges: seq<Edge>, found: seq<Edge>)
    requires tx in rest && rest <= visited
    requires forall n :: n in neighbours <==> (tx, n) in pairs
    requires EdgeSet(edges) == From(pairs, visited - rest, visited) && |edges| == |EdgeSet(edges)|
    requires EdgeSet(found) == (set n | n in neighbours * visited :: (tx, n)) && |found| == |EdgeSet(found)|
    ensures EdgeSet(edges + found) == From(pairs, visited - (rest - {tx}), visited)
    ensures |edges + found| == |EdgeSet(edges + found)|
  {
    assert EdgeSet(edges + found) == EdgeSet(edges) + EdgeSet(found);
    assert EdgeSet(edges) !! EdgeSet(found);
  }

  predicate Holds(queue: seq<(TxId, nat)>, tx: TxId, depth: nat) {
    (tx, depth) in queue
  }

  /** Every queued visit is within reach at its depth. */
  ghost predicate Queued(edges: set<Edge>, center: TxId, hops: nat, queue: seq<(TxId, nat)>, visited: set<TxId>) {
    forall item :: item in queue ==> item.1 <= hops && item.0 in visited && item.0 in Ball(edges, center, item.1)
  }

  /** The neighbours of everything popped have been queued one step further out. */
  ghost predicate Explored(edges: set<Edge>, center: TxId, hops: nat, queue: seq<(TxId, nat)>,
                           popped: set<(TxId, nat)>, visited: set<TxId>) {
    && ((center, 0) in queue || (center, 0) in popped)
    && (forall item :: item in popped ==> item.0 in visited)
    && (forall item, n :: item in popped && item.1 < hops && (item.0, n) in edges ==>
          (n, item.1 + 1) in queue || (n, item.1 + 1) in popped)
  }

  /** The search between two visits; `stopped` if the node limit ever cut a visit short. */
  ghost predicate SearchState(edges: set<Edge>, center: TxId, hops: nat, maxNodes: nat, queue: seq<(TxId, nat)>,
                              visited: set<TxId>, popped: set<(TxId, nat)>, stopped: bool) {
    && center in visited && visited <= Ball(edges, center, hops)
    && Queued(edges, center, hops, queue, visited)
    && (if stopped then |visited| >= maxNodes else Explored(edges, center, hops, queue, popped, visited))
  }

  lemma SearchBegins(edges: set<Edge>, center: TxId, hops: nat, maxNodes: nat)
    ensures SearchState(edges, center, hops, maxNodes, [(center, 0)], {center}, {}, false)
  {
  }

  lemma SearchEnds(edges: set<Edge>, center: TxId, hops: nat, maxNodes: nat, visited: set<TxId>,
                   popped: set<(TxId, nat)>, stopped: bool)
    requires SearchState(edges, center, hops, maxNodes, [], visited, popped, stopped)
    requires forall a, b :: (a, b) in edges ==> (b, a) in edges
    ensures center in visited && visited <= Ball(edges, center, hops)
    ensures |Ball(edges, center, hops)| < maxNodes ==> visited == Ball(edges, center, hops)
  {
    SubsetsAreNoLarger(visited, Ball(edges, center, hops));
    if !stopped {
      BallIsExplored(edges, center, hops, hops, popped, visited);
    }
  }

  lemma FirstIsQueued(edges: set<Edge>, center: TxId, hops: nat, queue: seq<(TxId, nat)>, visited: set<TxId>)
    requires queue != [] && Queued(edges, center, hops, queue, visited)
    ensures queue[0].1 <= hops && queue[0].0 in visited
  {
    assert queue[0] in queue;
  }

  lemma CostShrinks(degree: nat, hops: nat, queue: seq<(TxId, nat)>)
    requires queue != []
    ensures Cost(degree, hops, queue[1..]) < Cost(degree, hops, queue)
  {
    CostOfPop(degree, hops, queue);
    WeightIsPositive(degree, if queue[0].1 <= hops then hops - queue[0].1 else 0);
  }

  /** Looking up a transaction without neighbours enters it, with none. */
  lemma TouchKeepsPairs(adjacent: map<TxId, set<TxId>>, tx: TxId)
    ensures PairsOf(adjacent[tx := NeighboursOf(adjacent, tx)]) == PairsOf(adjacent)
    ensures forall n :: n in NeighboursOf(adjacent, tx) <==> (tx, n) in PairsOf(adjacent)
  {
  }

  lemma QueueShrinks(edges: set<Edge>, center: TxId, hops: nat, queue: seq<(TxId, nat)>, few: set<(TxId, nat)>,
                     popped: set<(TxId, nat)>, visited: set<TxId>)
    requires queue != [] && queue[0].1 == hops && popped == few + {queue[0]}
    requires Queued(edges, center, hops, queue, visited)
    ensures Queued(edges, center, hops, queue[1..], visited)
    ensures Explored(edges, center, hops, queue, few, visited) ==> Explored(edges, center, hops, queue[1..], popped, visited)
  {
    assert forall item :: item in queue ==> item == queue[0] || item in queue[1..];
    assert forall item :: item in queue[1..] ==> item in queue;
  }

  lemma StepStaysInside(edges: set<Edge>, center: TxId, hops: nat, current: TxId, depth: nat, neighbours: set<TxId>,
                        seen: set<TxId>, visited: set<TxId>, pushed: seq<(TxId, nat)>, queue: seq<(TxId, nat)>)
    requires queue != [] && queue[0] == (current, depth) && depth < hops
    requires forall n :: n in neighbours ==> (current, n) in edges
    requires seen <= Ball(edges, center, hops) && Queued(edges, center, hops, queue, seen)
    requires seen <= visited <= seen + neighbours
    requires forall item :: item in pushed ==> item.0 in neighbours && item.0 in visited && item.1 == depth + 1
    ensures visited <= Ball(edges, center, hops)
    ensures Queued(edges, center, hops, queue[1..] + pushed, visited)
  {
    hide Ball;
    assert queue[0] in queue;
    BallGrows(edges, center, depth + 1, hops);
    OneStepOut(edges, center, depth, current, neighbours);
    assert forall item :: item in queue[1..] ==> item in queue;
  }

  lemma OneStepOut(edges: set<Edge>, center: TxId, depth: nat, current: TxId, neighbours: set<TxId>)
    requires current in Ball(edges, center, depth)
    requires forall n :: n in neighbours ==> (current, n) in edges
    ensures neighbours <= Ball(edges, center, depth + 1)
  {
    forall n | n in neighbours
      ensures n in Neighbours(edges, Ball(edges, center, depth))
    {
      assert (current, n) in edges;
    }
  }

  lemma ExploredFurther(edges: set<Edge>, center: TxId, hops: nat, queue: seq<(TxId, nat)>, popped: set<(TxId, nat)>,
                        seen: set<TxId>, visited: set<TxId>, neighbours: set<TxId>, pushed: seq<(TxId, nat)>)
    requires queue != [] && Explored(edges, center, hops, queue, popped, seen)
    requires queue[0].0 in seen && seen <= visited
    requires forall n :: (queue[0].0, n) in edges ==> n in neighbours
    requires forall n :: n in neighbours ==> Holds(pushed, n, queue[0].1 + 1)
    ensures Explored(edges, center, hops, queue[1..] + pushed, popped + {queue[0]}, visited)
  {
    assert forall item :: item in queue ==> item == queue[0] || item in queue[1..] + pushed;
  }

  lemma {:induction false} BallIsExplored(edges: set<Edge>, center: TxId, hops: nat, radius: nat,
                                          popped: set<(TxId, nat)>, visited: set<TxId>)
    requires radius <= hops && Explored(edges, center, hops, [], popped, visited)
    requires forall a, b :: (a, b) in edges ==> (b, a) in edges
    ensures forall x :: x in Ball(edges, center, radius) ==> PoppedBy(popped, radius, x)
    ensures Ball(edges, center, radius) <= visited
  {
    hide Explored;
    CenterPopped(edges, center, hops, popped, visited);
    if radius > 0 {
      BallIsExplored(edges, center, hops, radius - 1, popped, visited);
      forall x | x in Ball(edges, center, radius)
        ensures PoppedBy(popped, radius, x)
      {
        if x in Ball(edges, center, radius - 1) {
          assert PoppedBy(popped, radius - 1, x);
        } else {
          var y := NeighbourIn(edges, Ball(edges, center, radius - 1), x);
          NeighbourPopped(edges, center, hops, radius, popped, visited, y, x);
        }
      }
    }
    PoppedAreVisited(edges, center, hops, radius, popped, visited);
  }

  ghost predicate PoppedBy(popped: set<(TxId, nat)>, radius: nat, x: TxId) {
    exists d: nat :: d <= radius && (x, d) in popped
  }

  lemma CenterPopped(edges: set<Edge>, center: TxId, hops: nat, popped: set<(TxId, nat)>, visited: set<TxId>)
    requires Explored(edges, center, hops, [], popped, visited)
    ensures forall radius: nat :: PoppedBy(popped, radius, center)
  {
    assert (center, 0) in popped;
  }

  lemma NeighbourPopped(edges: set<Edge>, center: TxId, hops: nat, radius: nat, popped: set<(TxId, nat)>,
                        visited: set<TxId>, y: TxId, x: TxId)
    requires 0 < radius <= hops && Explored(edges, center, hops, [], popped, visited)
    requires PoppedBy(popped, radius - 1, y) && (y, x) in edges
    ensures PoppedBy(popped, radius, x)
  {
    var d: nat :| d <= radius - 1 && (y, d) in popped;
    assert (x, (y, d).1 + 1) in popped;
  }

  lemma PoppedAreVisited(edges: set<Edge>, center: TxId, hops: nat, radius: nat, popped: set<(TxId, nat)>,
                         visited: set<TxId>)
    requires Explored(edges, center, hops, [], popped, visited)
    requires forall x :: x in Ball(edges, center, radius) ==> PoppedBy(popped, radius, x)
    ensures Ball(edges, center, radius) <= visited
  {
    hide Ball;
    forall x | x in Ball(edges, center, radius)
      ensures x in visited
    {
      assert PoppedBy(popped, radius, x);
    }
  }
}
