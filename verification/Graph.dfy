/** Distance balls in the undirected reading of the stored edges. */
module Graph {
  import opened Events

  function Neighbours(edges: set<Edge>, from: set<TxId>): set<TxId> {
    (set e | e in edges && e.0 in from :: e.1) + (set e | e in edges && e.1 in from :: e.0)
  }

  /** The transactions at most `radius` edges away from the center. */
  function Ball(edges: set<Edge>, center: TxId, radius: nat): (ball: set<TxId>)
    ensures center in ball
  {
    if radius == 0 then {center}
    else Ball(edges, center, radius - 1) + Neighbours(edges, Ball(edges, center, radius - 1))
  }

  function Incident(edges: set<Edge>, ids: set<TxId>): set<Edge> {
    set e | e in edges && (e.0 in ids || e.1 in ids)
  }

  function Induced(edges: set<Edge>, ids: set<TxId>): set<Edge> {
    set e | e in edges && e.0 in ids && e.1 in ids
  }

  /** The edges with an endpoint closer to the center than `radius`. */
  function Inner(edges: set<Edge>, center: TxId, radius: nat): set<Edge> {
    if radius == 0 then {} else Incident(edges, Ball(edges, center, radius - 1))
  }

  // ---- an independent reading of the ball: walks ----

  predicate Adjacent(edges: set<Edge>, a: TxId, b: TxId) {
    (a, b) in edges || (b, a) in edges
  }

  ghost predicate IsWalk(edges: set<Edge>, walk: seq<TxId>, from: TxId, to: TxId) {
    && walk != [] && walk[0] == from && walk[|walk| - 1] == to
    && forall i :: 0 <= i < |walk| - 1 ==> Adjacent(edges, walk[i], walk[i + 1])
  }

  ghost predicate Reaches(edges: set<Edge>, from: TxId, to: TxId, length: nat) {
    exists walk :: IsWalk(edges, walk, from, to) && |walk| - 1 <= length
  }

  lemma {:induction false} BallIsReach(edges: set<Edge>, center: TxId, radius: nat, x: TxId)
    ensures x in Ball(edges, center, radius) <==> Reaches(edges, center, x, radius)
  {
    if x in Ball(edges, center, radius) {
      WalkTo(edges, center, radius, x);
    }
    if Reaches(edges, center, x, radius) {
      var walk :| IsWalk(edges, walk, center, x) && |walk| - 1 <= radius;
      WalkStays(edges, center, radius, walk);
    }
  }

  lemma NeighbourIn(edges: set<Edge>, ids: set<TxId>, x: TxId) returns (y: TxId)
    requires x in Neighbours(edges, ids)
    ensures y in ids && Adjacent(edges, y, x)
  {
    if e :| e in edges && e.0 in ids && e.1 == x {
      y := e.0;
    } else {
      var e :| e in edges && e.1 in ids && e.0 == x;
      y := e.1;
    }
  }

  lemma {:induction false} WalkTo(edges: set<Edge>, center: TxId, radius: nat, x: TxId)
    requires x in Ball(edges, center, radius)
    ensures Reaches(edges, center, x, radius)
  {
    if radius == 0 {
      assert IsWalk(edges, [center], center, x);
    } else if x in Ball(edges, center, radius - 1) {
      WalkTo(edges, center, radius - 1, x);
      var walk :| IsWalk(edges, walk, center, x) && |walk| - 1 <= radius - 1;
    } else {
      var y := NeighbourIn(edges, Ball(edges, center, radius - 1), x);
      WalkTo(edges, center, radius - 1, y);
      var walk :| IsWalk(edges, walk, center, y) && |walk| - 1 <= radius - 1;
      assert IsWalk(edges, walk + [x], center, x);
    }
  }

  lemma {:induction false} WalkStays(edges: set<Edge>, center: TxId, radius: nat, walk: seq<TxId>)
    requires walk != [] && IsWalk(edges, walk, center, walk[|walk| - 1]) && |walk| - 1 <= radius
    ensures walk[|walk| - 1] in Ball(edges, center, radius)
  {
    if |walk| > 1 {
      var front := walk[..|walk| - 1];
      assert IsWalk(edges, front, center, front[|front| - 1]);
      WalkStays(edges, center, radius - 1, front);
      assert Adjacent(edges, front[|front| - 1], walk[|walk| - 1]);
    }
  }

  // ---- growth ----

  lemma {:induction false} BallGrows(edges: set<Edge>, center: TxId, small: nat, large: nat)
    requires small <= large
    ensures Ball(edges, center, small) <= Ball(edges, center, large)
  {
    if small < large {
      BallGrows(edges, center, small, large - 1);
    }
  }

  lemma {:induction false} BallOfMoreEdges(few: set<Edge>, more: set<Edge>, center: TxId, radius: nat)
    requires few <= more
    ensures Ball(few, center, radius) <= Ball(more, center, radius)
  {
    if radius > 0 {
      BallOfMoreEdges(few, more, center, radius - 1);
    }
  }

  lemma {:induction false} BallStaysWithin(edges: set<Edge>, ids: set<TxId>, center: TxId, radius: nat)
    requires center in ids && forall e :: e in edges ==> e.0 in ids && e.1 in ids
    ensures Ball(edges, center, radius) <= ids
  {
    if radius > 0 {
      BallStaysWithin(edges, ids, center, radius - 1);
    }
  }

  lemma SubsetsAreNoLarger<T>(small: set<T>, large: set<T>)
    requires small <= large
    ensures |small| <= |large|
    ensures small != large ==> |small| < |large|
  {
    var rest := large - small;
    assert large == small + rest;
    assert small * rest == {};
  }
}
