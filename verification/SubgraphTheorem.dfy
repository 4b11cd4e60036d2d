/** What the bounded query answers, against distance balls. */
module SubgraphTheorem {
  import opened Events
  import opened Tables
  import opened Graph
  import opened Ordering
  import opened Subgraph

  function Endpoints(rows: seq<Edge>): set<TxId> {
    (set e | e in rows :: e.0) + (set e | e in rows :: e.1)
  }

  /** What offering the ids to the search does, whatever the limit: `r` follows `s`. */
  ghost predicate Offered(s: Search, ids: set<TxId>, maxNodes: nat, r: Search) {
    && r.frontier == s.frontier
    && s.visited <= r.visited <= s.visited + ids
    && r.next == s.next + (r.visited - s.visited)
    && (|r.visited| <= maxNodes || r.visited == s.visited)
    && (s.truncated ==> r.truncated)
    && (!r.truncated ==> ids <= r.visited)
    && (r.truncated && !s.truncated ==> |r.visited| >= maxNodes && !(ids <= r.visited))
  }

  lemma OneOffered(s: Search, tx: TxId, maxNodes: nat)
    ensures Offered(s, {tx}, maxNodes, Admit(s, tx, maxNodes))
  {
  }

  lemma OffersCompose(s: Search, few: set<TxId>, a: Search, more: set<TxId>, b: Search, maxNodes: nat)
    requires Offered(s, few, maxNodes, a) && Offered(a, more, maxNodes, b)
    ensures Offered(s, few + more, maxNodes, b)
  {
    SubsetsAreNoLarger(a.visited, b.visited);
    SubsetsAreNoLarger(s.visited, a.visited);
  }

  ghost predicate Scanned(s: Search, rows: seq<Edge>, maxNodes: nat, r: Search) {
    Offered(s, Endpoints(rows), maxNodes, r) && r.discovered == s.discovered + EdgeSet(rows)
  }

  lemma EndpointsSplit(rows: seq<Edge>, row: Edge)
    ensures Endpoints(rows + [row]) == Endpoints(rows) + {row.0} + {row.1}
    ensures EdgeSet(rows + [row]) == EdgeSet(rows) + {row}
  {
  }

  lemma OneRowScanned(s: Search, front: seq<Edge>, a: Search, row: Edge, maxNodes: nat)
    requires Scanned(s, front, maxNodes, a)
    ensures Scanned(s, front + [row], maxNodes, ScanRow(a, row, maxNodes))
  {
    EndpointsSplit(front, row);
    var b := a.(discovered := a.discovered + {row});
    var c := Admit(b, row.0, maxNodes);
    OneOffered(b, row.0, maxNodes);
    OneOffered(c, row.1, maxNodes);
    assert Offered(s, Endpoints(front), maxNodes, b);
    hide Offered, Endpoints, EdgeSet;
    OffersCompose(s, Endpoints(front), b, {row.0}, c, maxNodes);
    OffersCompose(s, Endpoints(front) + {row.0}, c, {row.1}, Admit(c, row.1, maxNodes), maxNodes);
  }

  lemma {:induction false} ScanFacts(s: Search, rows: seq<Edge>, maxNodes: nat)
    ensures Scanned(s, rows, maxNodes, ScanRows(s, rows, maxNodes))
  {
    if rows != [] {
      hide Scanned, ScanRow;
      var front, last := rows[..|rows| - 1], rows[|rows| - 1];
      assert rows == front + [last];
      ScanFacts(s, front, maxNodes);
      OneRowScanned(s, front, ScanRows(s, front, maxNodes), last, maxNodes);
    }
  }

  /** The neighbourhood does not fit the limits. */
  ghost predicate Overflows(edges: set<Edge>, center: TxId, radius: nat, maxNodes: nat, maxEdges: nat) {
    |Ball(edges, center, radius)| > maxNodes || |Inner(edges, center, radius)| > maxEdges
  }

  ghost predicate Explored(edges: set<Edge>, center: TxId, depth: nat, maxNodes: nat, maxEdges: nat, s: Search) {
    && center in s.visited
    && s.next == {}
    && s.frontier <= s.visited <= Ball(edges, center, depth)
    && |s.visited| <= maxNodes
    && s.discovered <= Inner(edges, center, depth)
    && s.visited <= Ball(Induced(edges, s.visited), center, depth)
    && (s.truncated ==> Overflows(edges, center, depth, maxNodes, maxEdges))
    && (!s.truncated ==>
          && s.visited == Ball(edges, center, depth)
          && s.frontier == Sphere(edges, center, depth)
          && s.discovered == Inner(edges, center, depth))
  }

  function Sphere(edges: set<Edge>, center: TxId, radius: nat): set<TxId> {
    if radius == 0 then {center} else Ball(edges, center, radius) - Ball(edges, center, radius - 1)
  }

  lemma InnerGrows(edges: set<Edge>, center: TxId, small: nat, large: nat)
    requires small <= large
    ensures Inner(edges, center, small) <= Inner(edges, center, large)
  {
    if small > 0 {
      BallGrows(edges, center, small - 1, large - 1);
    }
  }

  lemma OverflowLasts(edges: set<Edge>, center: TxId, small: nat, large: nat, maxNodes: nat, maxEdges: nat)
    requires small <= large && Overflows(edges, center, small, maxNodes, maxEdges)
    ensures Overflows(edges, center, large, maxNodes, maxEdges)
  {
    BallGrows(edges, center, small, large);
    InnerGrows(edges, center, small, large);
    SubsetsAreNoLarger(Ball(edges, center, small), Ball(edges, center, large));
    SubsetsAreNoLarger(Inner(edges, center, small), Inner(edges, center, large));
  }

  /** The next ball and the next inner edges only need the edges of the sphere. */
  lemma SphereSuffices(edges: set<Edge>, center: TxId, depth: nat)
    ensures var sphere := Incident(edges, Sphere(edges, center, depth));
            && Inner(edges, center, depth + 1) == Inner(edges, center, depth) + sphere
            && Ball(edges, center, depth + 1) == Ball(edges, center, depth) + (set e | e in sphere :: e.0) + (set e | e in sphere :: e.1)
  {
    hide Neighbours, Incident;
    var ball := Ball(edges, center, depth);
    assert Ball(edges, center, depth + 1) == ball + Neighbours(edges, ball);
    assert Inner(edges, center, depth + 1) == Incident(edges, ball);
    if depth > 0 {
      var smaller := Ball(edges, center, depth - 1);
      assert ball == smaller + Neighbours(edges, smaller);
      assert Sphere(edges, center, depth) == ball - smaller;
      IncidentSplits(edges, smaller, ball);
      EndsOfShell(edges, smaller, ball);
    } else {
      assert Sphere(edges, center, 0) == ball - {};
      IncidentSplits(edges, {}, ball);
      EndsOfShell(edges, {}, ball);
    }
  }

  lemma IncidentSplits(edges: set<Edge>, smaller: set<TxId>, ball: set<TxId>)
    requires smaller <= ball
    ensures Incident(edges, ball) == Incident(edges, smaller) + Incident(edges, ball - smaller)
    ensures Incident(edges, {}) == {} && Neighbours(edges, {}) == {}
  {
  }

  lemma EndsOfShell(edges: set<Edge>, smaller: set<TxId>, ball: set<TxId>)
    requires smaller <= ball && (forall tx :: tx in Neighbours(edges, smaller) ==> tx in ball)
    ensures var shell := Incident(edges, ball - smaller);
            ball + Neighbours(edges, ball) == ball + (set e | e in shell :: e.0) + (set e | e in shell :: e.1)
  {
  }

  /** Ids reached over edges between known ids are reached inside the known ids. */
  lemma InsideGrows(edges: set<Edge>, center: TxId, depth: nat, visited: set<TxId>, frontier: set<TxId>,
                    rows: seq<Edge>, later: set<TxId>)
    requires visited <= Ball(Induced(edges, visited), center, depth)
    requires frontier <= visited <= later <= visited + Endpoints(rows)
    requires EdgeSet(rows) <= Incident(edges, frontier)
    ensures later <= Ball(Induced(edges, later), center, depth + 1)
  {
    var inside := Induced(edges, later);
    BallOfMoreEdges(Induced(edges, visited), inside, center, depth);
    forall x | x in later
      ensures x in Ball(inside, center, depth + 1)
    {
      if x !in visited {
        var e :| e in rows && (e.0 == x || e.1 == x);
        assert e in EdgeSet(rows);
        assert e in Incident(edges, frontier);
        assert e in inside;
        assert x in Neighbours(inside, Ball(inside, center, depth));
      }
    }
  }

  lemma RowsOf(edges: set<Edge>, frontier: set<TxId>, maxEdges: nat) returns (rows: seq<Edge>, cut: bool)
    ensures forall s: Search, maxNodes: nat | s.frontier == frontier ::
              var scanned := ScanRows(s.(next := {}, truncated := s.truncated || cut), rows, maxNodes);
              Level(edges, s, maxNodes, maxEdges) == scanned.(frontier := scanned.next, next := {})
    ensures EdgeSet(rows) <= Incident(edges, frontier)
    ensures cut <==> |Incident(edges, frontier)| > maxEdges
    ensures !cut ==> EdgeSet(rows) == Incident(edges, frontier)
  {
    PairsListed(Incident(edges, frontier));
    var all := SortedPairs(Incident(edges, frontier));
    var some := LevelRows(edges, frontier, maxEdges + 1);
    cut := |some| > maxEdges;
    rows := if cut then some[..maxEdges] else some;
    forall e | e in rows
      ensures e in all
    {
    }
  }

  lemma LevelExplores(edges: set<Edge>, center: TxId, depth: nat, maxNodes: nat, maxEdges: nat, s: Search)
    requires Explored(edges, center, depth, maxNodes, maxEdges, s)
    ensures Explored(edges, center, depth + 1, maxNodes, maxEdges, Level(edges, s, maxNodes, maxEdges))
  {
    var rows, cut := RowsOf(edges, s.frontier, maxEdges);
    var start := s.(next := {}, truncated := s.truncated || cut);
    ScanFacts(start, rows, maxNodes);
    var r := ScanRows(start, rows, maxNodes);
    var ball, wider := Ball(edges, center, depth), Ball(edges, center, depth + 1);
    assert Incident(edges, s.frontier) <= Incident(edges, ball) == Inner(edges, center, depth + 1);
    InnerGrows(edges, center, depth, depth + 1);
    forall x | x in Endpoints(rows)
      ensures x in wider
    {
      var e :| e in rows && (e.0 == x || e.1 == x);
      assert e in EdgeSet(rows);
      assert e in Incident(edges, ball);
    }
    InsideGrows(edges, center, depth, s.visited, s.frontier, rows, r.visited);
    if r.truncated {
      TruncationMeansOverflow(edges, center, depth, maxNodes, maxEdges, s, rows, cut, r);
    } else {
      SphereSuffices(edges, center, depth);
      CompleteLevel(edges, center, depth, s, rows, r, maxNodes);
    }
  }

  lemma TruncationMeansOverflow(edges: set<Edge>, center: TxId, depth: nat, maxNodes: nat, maxEdges: nat, s: Search,
                                rows: seq<Edge>, cut: bool, r: Search)
    requires Explored(edges, center, depth, maxNodes, maxEdges, s)
    requires Scanned(s.(next := {}, truncated := s.truncated || cut), rows, maxNodes, r) && r.truncated
    requires cut <==> |Incident(edges, s.frontier)| > maxEdges
    requires Endpoints(rows) <= Ball(edges, center, depth + 1)
    ensures Overflows(edges, center, depth + 1, maxNodes, maxEdges)
  {
    if s.truncated {
      OverflowLasts(edges, center, depth, depth + 1, maxNodes, maxEdges);
    } else if cut {
      assert Incident(edges, s.frontier) <= Inner(edges, center, depth + 1);
      SubsetsAreNoLarger(Incident(edges, s.frontier), Inner(edges, center, depth + 1));
    } else {
      BallGrows(edges, center, depth, depth + 1);
      SubsetsAreNoLarger(r.visited, Ball(edges, center, depth + 1));
    }
  }

  lemma CompleteLevel(edges: set<Edge>, center: TxId, depth: nat, s: Search, rows: seq<Edge>, r: Search, maxNodes: nat)
    requires Scanned(s.(next := {}), rows, maxNodes, r) && !r.truncated
    requires s.visited == Ball(edges, center, depth)
    requires EdgeSet(rows) == Incident(edges, Sphere(edges, center, depth))
    ensures r.visited == Ball(edges, center, depth + 1)
    ensures r.next == Sphere(edges, center, depth + 1)
  {
    SphereSuffices(edges, center, depth);
    var sphere := Incident(edges, Sphere(edges, center, depth));
    assert (set e | e in sphere :: e.0) == set e | e in rows :: e.0 by { assert forall e :: e in sphere <==> e in rows; }
    assert (set e | e in sphere :: e.1) == set e | e in rows :: e.1 by { assert forall e :: e in sphere <==> e in rows; }
  }

  lemma NothingFurtherOut(edges: set<Edge>, center: TxId, depth: nat)
    requires Sphere(edges, center, depth) == {}
    ensures Ball(edges, center, depth + 1) == Ball(edges, center, depth)
    ensures Sphere(edges, center, depth + 1) == {}
    ensures Inner(edges, center, depth + 1) == Inner(edges, center, depth)
  {
    SphereSuffices(edges, center, depth);
    assert Incident(edges, {}) == {};
  }

  /** When the frontier runs dry there is nothing further out. */
  lemma StillExplored(edges: set<Edge>, center: TxId, depth: nat, maxNodes: nat, maxEdges: nat, s: Search)
    requires Explored(edges, center, depth, maxNodes, maxEdges, s) && s.frontier == {}
    ensures Explored(edges, center, depth + 1, maxNodes, maxEdges, s)
  {
    BallGrows(edges, center, depth, depth + 1);
    BallGrows(Induced(edges, s.visited), center, depth, depth + 1);
    InnerGrows(edges, center, depth, depth + 1);
    if s.truncated {
      OverflowLasts(edges, center, depth, depth + 1, maxNodes, maxEdges);
    } else {
      NothingFurtherOut(edges, center, depth);
    }
  }

  lemma SearchStarts(edges: set<Edge>, center: TxId, maxNodes: nat, maxEdges: nat)
    requires maxNodes >= 1
    ensures Explored(edges, center, 0, maxNodes, maxEdges, Search({center}, {center}, {}, {}, false))
  {
  }

  lemma {:induction false} LevelsExplore(edges: set<Edge>, center: TxId, hops: nat, maxNodes: nat, maxEdges: nat)
    requires maxNodes >= 1
    ensures Explored(edges, center, hops, maxNodes, maxEdges, Levels(edges, center, hops, maxNodes, maxEdges))
  {
    hide Explored, Level;
    if hops == 0 {
      SearchStarts(edges, center, maxNodes, maxEdges);
    } else {
      LevelsExplore(edges, center, hops - 1, maxNodes, maxEdges);
      var s := Levels(edges, center, hops - 1, maxNodes, maxEdges);
      if s.frontier == {} {
        StillExplored(edges, center, hops - 1, maxNodes, maxEdges, s);
      } else {
        LevelExplores(edges, center, hops - 1, maxNodes, maxEdges, s);
      }
    }
  }

  // ---- the answer ----

  function NodeIds(v: View): set<TxId> {
    set n | n in v.nodes :: n.tx
  }

  /** The features and time step of the transaction's row, and the probability of its score
      under the model, or none. */
  ghost predicate ShowsRow(t: Tables, n: NodeView, model: string) {
    && n.tx in t.nodes
    && n.features == t.nodes[n.tx].features && n.timeStep == t.nodes[n.tx].timeStep
    && ((n.tx, model) in t.scores ==> n.risk == t.scores[(n.tx, model)].probability)
    && ((n.tx, model) !in t.scores ==> n.risk == 0.0)
  }

  ghost predicate Complete(t: Tables, center: TxId, hops: nat, v: View) {
    && NodeIds(v) == Ball(t.edges, center, hops)
    && EdgeSet(v.edges) == Inner(t.edges, center, hops)
  }

  lemma InnerStaysInBall(edges: set<Edge>, center: TxId, radius: nat)
    ensures Induced(Inner(edges, center, radius), Ball(edges, center, radius)) == Inner(edges, center, radius)
  {
  }

  lemma ViewsHoldIds(t: Tables, ids: seq<TxId>, known: set<TxId>, model: string)
    requires Lists(ids, known) && forall tx :: tx in ids ==> tx in t.nodes
    ensures (set n | n in Views(t, ids, model) :: n.tx) == known
  {
    var views := Views(t, ids, model);
    forall tx | tx in known
      ensures exists n :: n in views && n.tx == tx
    {
      var i :| 0 <= i < |ids| && ids[i] == tx;
      assert views[i] in views;
    }
  }

  /** How the answer lists what the search found. */
  lemma Presentation(t: Tables, center: TxId, hops: nat, maxNodes: nat, maxEdges: nat, model: string)
    requires center in t.nodes && ReferentialIntegrity(t) && maxNodes >= 1
    ensures var v := Query(t, center, hops, maxNodes, maxEdges, model).value;
            var s := Levels(t.edges, center, hops, maxNodes, maxEdges);
            && Lists(SortedStrings(s.visited), s.visited)
            && s.visited <= t.nodes.Keys
            && NodeIds(v) == s.visited
            && v.nodes == Views(t, SortedStrings(s.visited), model)
            && v.watermark == HighestWatermark(t, SortedStrings(s.visited))
            && Lists(SortedPairs(Induced(s.discovered, s.visited)), Induced(s.discovered, s.visited))
            && (if |Induced(s.discovered, s.visited)| > maxEdges
                then v.truncated && v.edges == SortedPairs(Induced(s.discovered, s.visited))[..maxEdges]
                else v.truncated == s.truncated && v.edges == SortedPairs(Induced(s.discovered, s.visited)))
  {
    LevelsExplore(t.edges, center, hops, maxNodes, maxEdges);
    var s := Levels(t.edges, center, hops, maxNodes, maxEdges);
    BallStaysWithin(t.edges, t.nodes.Keys, center, hops);
    assert s.visited * t.nodes.Keys == s.visited;
    StringsListed(s.visited);
    PairsListed(Induced(s.discovered, s.visited));
    ViewsHoldIds(t, SortedStrings(s.visited), s.visited, model);
  }

  lemma PrefixHolds(xs: seq<Edge>, s: set<Edge>, n: nat)
    requires Lists(xs, s) && n <= |xs|
    ensures EdgeSet(xs[..n]) <= s && |EdgeSet(xs[..n])| <= n
    ensures n == |xs| ==> EdgeSet(xs[..n]) == s
  {
    forall e | e in EdgeSet(xs[..n])
      ensures e in s
    {
      assert e in xs;
    }
    SetOfPrefix(xs[..n]);
    if n == |xs| {
      assert xs[..n] == xs;
    }
  }

  lemma {:induction false} SetOfPrefix(xs: seq<Edge>)
    ensures |EdgeSet(xs)| <= |xs|
  {
    if xs != [] {
      SetOfPrefix(xs[1..]);
      assert EdgeSet(xs) == {xs[0]} + EdgeSet(xs[1..]);
    }
  }

  lemma EdgesPresented(kept: set<Edge>, maxEdges: nat, shown: seq<Edge>)
    requires |SortedPairs(kept)| == |kept|
    requires shown == if |kept| > maxEdges then SortedPairs(kept)[..maxEdges] else SortedPairs(kept)
    ensures |shown| <= maxEdges && |EdgeSet(shown)| <= maxEdges
    ensures EdgeSet(shown) <= kept && PairsAscend(shown)
    ensures |kept| <= maxEdges ==> EdgeSet(shown) == kept
  {
    PairsListed(kept);
    var all := SortedPairs(kept);
    if |kept| > maxEdges {
      PrefixHolds(all, kept, maxEdges);
    } else {
      assert all[..|all|] == all;
      PrefixHolds(all, kept, |all|);
    }
  }

  /** The answer is marked truncated exactly when it is not the whole neighbourhood: every
      transaction within `hops` of the center, and every stored edge with an endpoint closer
      than that. */
  lemma TruncatedMeansIncomplete(t: Tables, center: TxId, hops: nat, maxNodes: nat, maxEdges: nat, model: string)
    requires center in t.nodes && ReferentialIntegrity(t) && maxNodes >= 1
    ensures var v := Query(t, center, hops, maxNodes, maxEdges, model).value;
            v.truncated <==> !Complete(t, center, hops, v)
  {
    var v := Query(t, center, hops, maxNodes, maxEdges, model).value;
    var s := Levels(t.edges, center, hops, maxNodes, maxEdges);
    LevelsExplore(t.edges, center, hops, maxNodes, maxEdges);
    Presentation(t, center, hops, maxNodes, maxEdges, model);
    var kept := Induced(s.discovered, s.visited);
    EdgesPresented(kept, maxEdges, v.edges);
    SubsetsAreNoLarger(kept, Inner(t.edges, center, hops));
    InnerStaysInBall(t.edges, center, hops);
  }

  /** Truncated or not: the limits hold, the center is there, nothing further than `hops` or
      not stored is reported, every reported transaction is joined to the center by at most
      `hops` stored edges between reported transactions, both lists are in order, and each
      transaction is shown as it is stored, with the risk of its score under the model. */
  lemma AnswerIsBounded(t: Tables, center: TxId, hops: nat, maxNodes: nat, maxEdges: nat, model: string)
    requires center in t.nodes && ReferentialIntegrity(t) && maxNodes >= 1
    ensures var v := Query(t, center, hops, maxNodes, maxEdges, model).value;
            && |v.nodes| <= maxNodes && |v.edges| <= maxEdges
            && center in NodeIds(v)
            && NodeIds(v) <= Ball(t.edges, center, hops)
            && NodeIds(v) <= Ball(Induced(t.edges, NodeIds(v)), center, hops)
            && EdgeSet(v.edges) <= Induced(Inner(t.edges, center, hops), NodeIds(v))
            && PairsAscend(v.edges)
            && |v.nodes| == |NodeIds(v)|
            && (forall i, j :: 0 <= i < j < |v.nodes| ==> StringLe(v.nodes[i].tx, v.nodes[j].tx))
            && (forall n :: n in v.nodes ==> ShowsRow(t, n, model))
            && v.center == center
  {
    hide ShowsRow, Complete, Ball, Inner, Levels;
    var v := Query(t, center, hops, maxNodes, maxEdges, model).value;
    var s := Levels(t.edges, center, hops, maxNodes, maxEdges);
    LevelsExplore(t.edges, center, hops, maxNodes, maxEdges);
    Presentation(t, center, hops, maxNodes, maxEdges, model);
    StringsListed(s.visited);
    ViewsShowRows(t, SortedStrings(s.visited), model);
    EdgesPresented(Induced(s.discovered, s.visited), maxEdges, v.edges);
  }

  lemma ViewsShowRows(t: Tables, ids: seq<TxId>, model: string)
    requires forall tx :: tx in ids ==> tx in t.nodes
    ensures forall n :: n in Views(t, ids, model) ==> ShowsRow(t, n, model)
  {
  }

  /** Where the edge limit cuts the answer, the edges kept are the least of those discovered
      between reported transactions. */
  lemma EdgesKeptAreLeast(t: Tables, center: TxId, hops: nat, maxNodes: nat, maxEdges: nat, model: string)
    requires center in t.nodes && ReferentialIntegrity(t) && maxNodes >= 1
    ensures var v := Query(t, center, hops, maxNodes, maxEdges, model).value;
            var s := Levels(t.edges, center, hops, maxNodes, maxEdges);
            AreLeastPairs(v.edges, Induced(s.discovered, NodeIds(v)), maxEdges)
  {
    hide AreLeastPairs, Levels, Induced;
    Presentation(t, center, hops, maxNodes, maxEdges, model);
    var s := Levels(t.edges, center, hops, maxNodes, maxEdges);
    PrefixIsLeast(Induced(s.discovered, s.visited), maxEdges);
  }

  /** The watermark reported is the highest among the reported transactions, so it is at
      least the center's. */
  lemma WatermarkCoversCenter(t: Tables, center: TxId, hops: nat, maxNodes: nat, maxEdges: nat, model: string)
    requires center in t.nodes && ReferentialIntegrity(t) && maxNodes >= 1
    ensures var v := Query(t, center, hops, maxNodes, maxEdges, model).value;
            && v.watermark >= t.nodes[center].watermark
            && (forall tx :: tx in NodeIds(v) ==> tx in t.nodes && t.nodes[tx].watermark <= v.watermark)
            && (v.watermark == 0 || exists tx :: tx in NodeIds(v) && tx in t.nodes && t.nodes[tx].watermark == v.watermark)
  {
    LevelsExplore(t.edges, center, hops, maxNodes, maxEdges);
    Presentation(t, center, hops, maxNodes, maxEdges, model);
  }
}
