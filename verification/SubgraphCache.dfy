/** The subgraph endpoint: requests that read the watermark, look the answer up in a cache
    and query the database on a miss, side by side with each other and with commits. */
module SubgraphCache {
  import opened Events
  import opened Options
  import opened Tables
  import opened Subgraph
  import opened Identity
  import opened Graph
  import opened Ordering
  import SubgraphTheorem

  datatype Ask = Ask(tx: TxId, hops: nat, maxNodes: nat, maxEdges: nat, model: string)

  function Key(ask: Ask, watermark: nat): string {
    CacheKey(CacheParts(ask.tx, ask.hops, ask.maxNodes, ask.maxEdges, watermark, ask.model))
  }

  ghost function Direct(t: Tables, ask: Ask): Option<View> {
    Query(t, ask.tx, ask.hops, ask.maxNodes, ask.maxEdges, ask.model)
  }

  /** A requested limit counts only below the configured one. */
  function Limit(requested: Option<nat>, configured: nat): nat {
    if requested.Some? && requested.value != 0 && requested.value < configured then requested.value else configured
  }

  /** The smaller of the two limits, where one other than zero is requested. */
  ghost predicate IsSmaller(limit: nat, requested: Option<nat>, configured: nat) {
    && limit <= configured
    && (requested.None? || requested.value == 0 ==> limit == configured)
    && (requested.Some? && requested.value > 0 ==>
          limit <= requested.value && (limit == requested.value || limit == configured))
  }

  // ---- the handler ----

  datatype Response = Invalid | NotFound | Answered(view: View)

  class Gateway {
    var cache: map<string, View>
    const stream: string
    const model: string
    const graphMaxNodes: nat
    const graphMaxEdges: nat

    constructor (stream: string, model: string, graphMaxNodes: nat, graphMaxEdges: nat)
      ensures cache == map[] && this.stream == stream && this.model == model
      ensures this.graphMaxNodes == graphMaxNodes && this.graphMaxEdges == graphMaxEdges
    {
      cache := map[];
      this.stream, this.model := stream, model;
      this.graphMaxNodes, this.graphMaxEdges := graphMaxNodes, graphMaxEdges;
    }

    function AskFor(tx: TxId, hops: nat, maxNodes: Option<nat>, maxEdges: Option<nat>): Ask {
      Ask(tx, hops, Limit(maxNodes, graphMaxNodes), Limit(maxEdges, graphMaxEdges), model)
    }

    /** One request; the two transactions it opens see `first` and `second`, and either cache
        access may fail. */
    method Subgraph(tx: TxId, hops: nat, maxNodes: Option<nat>, maxEdges: Option<nat>,
                    first: Tables, second: Tables, readFails: bool, writeFails: bool) returns (r: Response)
      modifies this`cache
      ensures r.Invalid? <==> !ValidTxId(tx)
      ensures var ask := AskFor(tx, hops, maxNodes, maxEdges);
              && ask.tx == tx && ask.hops == hops && ask.model == model
              && IsSmaller(ask.maxNodes, maxNodes, graphMaxNodes) && IsSmaller(ask.maxEdges, maxEdges, graphMaxEdges)
      ensures var key := Key(AskFor(tx, hops, maxNodes, maxEdges), Watermark(first, stream));
              var direct := Direct(second, AskFor(tx, hops, maxNodes, maxEdges));
              if !ValidTxId(tx) then cache == old(cache)
              else if !readFails && key in old(cache) then r == Answered(old(cache)[key]) && cache == old(cache)
              else if direct == None then r == NotFound && cache == old(cache)
              else r == Answered(direct.value) && cache == if writeFails then old(cache) else old(cache)[key := direct.value]
    {
      if !ValidTxId(tx) {
        return Invalid;
      }
      var nodeLimit := Limit(maxNodes, graphMaxNodes);
      var edgeLimit := Limit(maxEdges, graphMaxEdges);
      var watermark := Watermark(first, stream);
      var cacheKey := CacheKey(CacheParts(tx, hops, nodeLimit, edgeLimit, watermark, model));
      var cached: Option<View> := None;
      if !readFails && cacheKey in cache {
        cached := Some(cache[cacheKey]);
      }
      var result := cached;
      if cached.None? {
        result := GetBoundedSubgraph(second, tx, hops, nodeLimit, edgeLimit, model);
        if result.Some? && !writeFails {
          cache := cache[cacheKey := result.value];
        }
      }
      if result.None? {
        return NotFound;
      }
      return Answered(result.value);
    }
  }

  // ---- requests side by side ----

  datatype Pending =
    | Begun(ask: Ask)
    | Read(ask: Ask, watermark: nat, readAt: nat)
    | Missed(ask: Ask, watermark: nat, readAt: nat)
    | Computed(ask: Ask, watermark: nat, readAt: nat, view: View)

  datatype Served = Served(ask: Ask, watermark: nat, readAt: nat, hit: bool, answer: Option<View>)

  /** `history` holds the database states so far, the current one last. */
  datatype State = State(
    history: seq<Tables>,
    cache: map<string, View>,
    pending: map<nat, Pending>,
    served: seq<Served>)

  datatype Step =
    | Commit(later: Tables)
    | Begin(request: nat, ask: Ask)
    | ReadWatermark(request: nat)
    | LookUp(request: nat, fails: bool)
    | Compute(request: nat)
    | Store(request: nat, fails: bool)
    | Abandon(request: nat)
    | Expire(key: string)

  /** What a committed transaction of the pipeline does to the tables. */
  ghost predicate Commits(t: Tables, later: Tables) {
    || (exists b, consumer, now :: Materialize(t, b, consumer, now) == Applied(later))
    || (exists r, consumer :: Project(t, r, consumer) == Projected(later) || Project(t, r, consumer) == Outdated(later))
    || later == t.(requests := later.requests, intents := later.intents)
  }

  function Now(s: State): Tables
    requires s.history != []
  {
    s.history[|s.history| - 1]
  }

  ghost predicate MayStep(s: State, step: Step) {
    && s.history != []
    && match step
       case Commit(later) => Commits(Now(s), later)
       case Begin(r, ask) => r !in s.pending && ValidTxId(ask.tx)
       case ReadWatermark(r) => r in s.pending && s.pending[r].Begun?
       case LookUp(r, _) => r in s.pending && s.pending[r].Read?
       case Compute(r) => r in s.pending && s.pending[r].Missed?
       case Store(r, _) => r in s.pending && s.pending[r].Computed?
       case Abandon(r) => r in s.pending
       case Expire(key) => true
  }

  ghost function Do(stream: string, s: State, step: Step): State
    requires MayStep(s, step)
  {
    match step
    case Commit(later) => s.(history := s.history + [later])
    case Begin(r, ask) => s.(pending := s.pending[r := Begun(ask)])
    case ReadWatermark(r) =>
      s.(pending := s.pending[r := Read(s.pending[r].ask, Watermark(Now(s), stream), |s.history| - 1)])
    case LookUp(r, fails) =>
      var p := s.pending[r];
      var key := Key(p.ask, p.watermark);
      if !fails && key in s.cache
      then s.(pending := s.pending - {r}, served := s.served + [Served(p.ask, p.watermark, p.readAt, true, Some(s.cache[key]))])
      else s.(pending := s.pending[r := Missed(p.ask, p.watermark, p.readAt)])
    case Compute(r) =>
      var p := s.pending[r];
      var view := Direct(Now(s), p.ask);
      if view == None
      then s.(pending := s.pending - {r}, served := s.served + [Served(p.ask, p.watermark, p.readAt, false, None)])
      else s.(pending := s.pending[r := Computed(p.ask, p.watermark, p.readAt, view.value)])
    case Store(r, fails) =>
      var p := s.pending[r];
      s.(cache := if fails then s.cache else s.cache[Key(p.ask, p.watermark) := p.view],
         pending := s.pending - {r},
         served := s.served + [Served(p.ask, p.watermark, p.readAt, false, Some(p.view))])
    case Abandon(r) => s.(pending := s.pending - {r})
    case Expire(key) => s.(cache := s.cache - {key})
  }

  ghost predicate IsRun(stream: string, run: seq<State>) {
    && run != [] && run[0] == State([EMPTY], map[], map[], [])
    && forall i :: 0 <= i < |run| - 1 ==> Next(stream, run[i], run[i + 1])
  }

  ghost predicate Next(stream: string, s: State, s': State) {
    exists step :: MayStep(s, step) && s' == Do(stream, s, step)
  }

  // ---- what every run keeps ----

  ghost predicate Ascends(stream: string, history: seq<Tables>) {
    forall i, j :: 0 <= i <= j < |history| ==> Watermark(history[i], stream) <= Watermark(history[j], stream)
  }

  /** The query's answer on database state `i`, no older than the watermark allows. */
  ghost predicate AnswerAt(stream: string, history: seq<Tables>, i: nat, ask: Ask, watermark: nat,
                           answer: Option<View>) {
    && i < |history|
    && Direct(history[i], ask) == answer
    && Watermark(history[i], stream) >= watermark
  }

  ghost predicate Backed(stream: string, history: seq<Tables>, key: string, view: View) {
    exists ask: Ask, watermark: nat, i: nat :: Backs(stream, history, key, view, ask, watermark, i)
  }

  ghost predicate Backs(stream: string, history: seq<Tables>, key: string, view: View, ask: Ask, watermark: nat,
                        i: nat) {
    && ValidTxId(ask.tx)
    && key == Key(ask, watermark)
    && AnswerAt(stream, history, i, ask, watermark, Some(view))
  }

  ghost predicate CacheBacked(stream: string, history: seq<Tables>, cache: map<string, View>) {
    forall key :: key in cache ==> Backed(stream, history, key, cache[key])
  }

  ghost predicate PendingSound(stream: string, history: seq<Tables>, p: Pending) {
    && ValidTxId(p.ask.tx)
    && (!p.Begun? ==> p.readAt < |history| && p.watermark == Watermark(history[p.readAt], stream))
    && (p.Computed? ==> exists i: nat :: p.readAt <= i && AnswerAt(stream, history, i, p.ask, p.watermark, Some(p.view)))
  }

  ghost predicate ServedSound(stream: string, history: seq<Tables>, v: Served) {
    && v.readAt < |history| && v.watermark == Watermark(history[v.readAt], stream)
    && (v.hit ==> v.answer.Some?)
    && exists i: nat :: (!v.hit ==> v.readAt <= i) && AnswerAt(stream, history, i, v.ask, v.watermark, v.answer)
  }

  ghost predicate Inv(stream: string, s: State) {
    && s.history != [] && Ascends(stream, s.history)
    && CacheBacked(stream, s.history, s.cache)
    && (forall r :: r in s.pending ==> PendingSound(stream, s.history, s.pending[r]))
    && (forall i :: 0 <= i < |s.served| ==> ServedSound(stream, s.history, s.served[i]))
  }

  lemma CommitRaisesWatermark(stream: string, t: Tables, later: Tables)
    requires Commits(t, later)
    ensures Watermark(t, stream) <= Watermark(later, stream)
  {
  }

  lemma LongerHistory(stream: string, s: State, later: Tables)
    requires Inv(stream, s) && Commits(Now(s), later)
    ensures Inv(stream, s.(history := s.history + [later]))
  {
    hide Commits, Direct, Watermark, Key, ValidTxId;
    var history := s.history + [later];
    CommitRaisesWatermark(stream, Now(s), later);
    assert forall i: nat, ask, w, answer :: AnswerAt(stream, s.history, i, ask, w, answer) ==> AnswerAt(stream, history, i, ask, w, answer);
    forall key | key in s.cache
      ensures Backed(stream, history, key, s.cache[key])
    {
      var ask, w: nat, i: nat :| Backs(stream, s.history, key, s.cache[key], ask, w, i);
      assert Backs(stream, history, key, s.cache[key], ask, w, i);
    }
    forall r | r in s.pending
      ensures PendingSound(stream, history, s.pending[r])
    {
      assert PendingSound(stream, s.history, s.pending[r]);
    }
    forall i | 0 <= i < |s.served|
      ensures ServedSound(stream, history, s.served[i])
    {
      assert ServedSound(stream, s.history, s.served[i]);
    }
  }

  /** A hit was stored for the same query at the same watermark. */
  lemma HitIsAnAnswer(stream: string, s: State, ask: Ask, watermark: nat)
    requires CacheBacked(stream, s.history, s.cache) && ValidTxId(ask.tx) && Key(ask, watermark) in s.cache
    ensures exists i: nat :: AnswerAt(stream, s.history, i, ask, watermark, Some(s.cache[Key(ask, watermark)]))
  {
    hide CacheKey, ValidTxId, Direct, Watermark;
    var key := Key(ask, watermark);
    assert Backed(stream, s.history, key, s.cache[key]);
    var a, w: nat, i: nat :| Backs(stream, s.history, key, s.cache[key], a, w, i);
    CacheKeysAreInjective(CacheParts(ask.tx, ask.hops, ask.maxNodes, ask.maxEdges, watermark, ask.model),
                          CacheParts(a.tx, a.hops, a.maxNodes, a.maxEdges, w, a.model));
    assert a == ask;
  }

  lemma StepKeeps(stream: string, s: State, step: Step)
    requires Inv(stream, s) && MayStep(s, step)
    ensures Inv(stream, Do(stream, s, step))
  {
    hide Commits, Direct, Watermark, Key, ValidTxId;
    var next := Do(stream, s, step);
    match step {
      case Commit(later) => LongerHistory(stream, s, later);
      case Begin(r, ask) =>
      case ReadWatermark(r) => assert PendingSound(stream, s.history, s.pending[r]);
      case LookUp(r, fails) =>
        var p := s.pending[r];
        assert PendingSound(stream, s.history, p);
        if !fails && Key(p.ask, p.watermark) in s.cache {
          HitIsAnAnswer(stream, s, p.ask, p.watermark);
        }
      case Compute(r) =>
        assert PendingSound(stream, s.history, s.pending[r]);
        assert AnswerAt(stream, s.history, |s.history| - 1, s.pending[r].ask, s.pending[r].watermark, Direct(Now(s), s.pending[r].ask));
      case Store(r, fails) =>
        var p := s.pending[r];
        assert PendingSound(stream, s.history, p);
        var i: nat :| p.readAt <= i && AnswerAt(stream, s.history, i, p.ask, p.watermark, Some(p.view));
        assert Backs(stream, s.history, Key(p.ask, p.watermark), p.view, p.ask, p.watermark, i);
      case Abandon(r) =>
      case Expire(key) =>
    }
  }

  lemma {:induction false} RunKeeps(stream: string, run: seq<State>)
    requires IsRun(stream, run)
    ensures Inv(stream, run[|run| - 1])
  {
    hide Do, MayStep;
    if |run| == 1 {
    } else {
      var front := run[..|run| - 1];
      RunKeeps(stream, front);
      assert Next(stream, run[|run| - 2], run[|run| - 1]);
      var step :| MayStep(front[|front| - 1], step) && run[|run| - 1] == Do(stream, front[|front| - 1], step);
      StepKeeps(stream, front[|front| - 1], step);
    }
  }

  /** Whatever runs beside it, every answer, cached or not, is exactly what the direct query
      gives on some database state whose checkpoint had reached the watermark the request
      read; without a hit that state is no older than the one the watermark was read from. */
  lemma EveryAnswerIsADirectAnswer(stream: string, run: seq<State>, k: nat)
    requires IsRun(stream, run) && k < |run[|run| - 1].served|
    ensures var s := run[|run| - 1];
            var v := s.served[k];
            && v.readAt < |s.history| && v.watermark == Watermark(s.history[v.readAt], stream)
            && exists i: nat :: i < |s.history| && (!v.hit ==> v.readAt <= i)
                 && Direct(s.history[i], v.ask) == v.answer
                 && Watermark(s.history[i], stream) >= v.watermark
  {
    hide Direct, Watermark;
    RunKeeps(stream, run);
    var s := run[|run| - 1];
    var v := s.served[k];
    assert ServedSound(stream, s.history, v);
    var i: nat :| (!v.hit ==> v.readAt <= i) && AnswerAt(stream, s.history, i, v.ask, v.watermark, v.answer);
  }

  lemma {:induction false} SameWatermark(t: Tables, later: Tables, ids: seq<TxId>)
    requires t.nodes == later.nodes && forall tx :: tx in ids ==> tx in t.nodes
    ensures HighestWatermark(t, ids) == HighestWatermark(later, ids)
  {
    if ids != [] {
      SameWatermark(t, later, ids[1..]);
    }
  }

  lemma ViewsFollowScores(t: Tables, later: Tables, ids: seq<TxId>, tx: TxId, model: string)
    requires forall x :: x in ids ==> x in t.nodes
    requires t.nodes == later.nodes && tx in ids
    requires forall x :: x != tx ==> ((x, model) in t.scores <==> (x, model) in later.scores)
    requires forall x :: x != tx && (x, model) in t.scores ==> t.scores[(x, model)] == later.scores[(x, model)]
    ensures ViewOf(t, tx, model) == ViewOf(later, tx, model) <==> Views(t, ids, model) == Views(later, ids, model)
  {
    var k :| 0 <= k < |ids| && ids[k] == tx;
    forall i | 0 <= i < |ids| && ids[i] != tx
      ensures Views(t, ids, model)[i] == Views(later, ids, model)[i]
    {
      assert ids[i] in ids;
    }
    assert Views(t, ids, model)[k] == ViewOf(t, tx, model);
    assert Views(later, ids, model)[k] == ViewOf(later, tx, model);
  }

  lemma ProjectionScores(t: Tables, r: ScoringResult, consumer: string, stream: string)
    requires Project(t, r, consumer).Projected?
    ensures var later := Project(t, r, consumer).tables;
            && later.nodes == t.nodes && later.edges == t.edges
            && Watermark(later, stream) == Watermark(t, stream)
            && (r.tx, r.model) in later.scores && later.scores[(r.tx, r.model)].probability == r.probability
            && (forall k :: k != (r.tx, r.model) ==> (k in t.scores <==> k in later.scores))
            && (forall k :: k != (r.tx, r.model) && k in t.scores ==> t.scores[k] == later.scores[k])
  {
  }

  /** Over the same graph two answers differ exactly when what they show of some transaction does. */
  lemma AnswersDifferInViews(t: Tables, later: Tables, ask: Ask) returns (ids: seq<TxId>)
    requires ReferentialIntegrity(t) && ReferentialIntegrity(later) && ask.tx in t.nodes && ask.maxNodes >= 1
    requires later.nodes == t.nodes && later.edges == t.edges
    ensures forall x :: x in ids <==> x in Shown(t, ask)
    ensures forall x :: x in ids ==> x in t.nodes
    ensures Direct(t, ask) == Direct(later, ask) <==> Views(t, ids, ask.model) == Views(later, ids, ask.model)
  {
    hide Query, Levels, Views, HighestWatermark, SubgraphTheorem.NodeIds, Induced, Ball, Inner, ReferentialIntegrity;
    SubgraphTheorem.Presentation(t, ask.tx, ask.hops, ask.maxNodes, ask.maxEdges, ask.model);
    SubgraphTheorem.Presentation(later, ask.tx, ask.hops, ask.maxNodes, ask.maxEdges, ask.model);
    AnswersAreFound(t, ask);
    AnswersAreFound(later, ask);
    ids := SortedStrings(Levels(t.edges, ask.tx, ask.hops, ask.maxNodes, ask.maxEdges).visited);
    SameWatermark(t, later, ids);
  }

  /** The transactions the direct answer shows. */
  ghost function Shown(t: Tables, ask: Ask): set<TxId> {
    match Direct(t, ask)
    case Some(view) => SubgraphTheorem.NodeIds(view)
    case None => {}
  }

  /** The state behind a hit may be an old one: a projected score leaves the watermark, and
      with it every cache key, as it is, but it changes the direct answer if and only if the
      answer shows the transaction under that model and the score is not the risk it showed. */
  lemma ScoresDoNotRenewTheKey(t: Tables, r: ScoringResult, consumer: string, stream: string, ask: Ask)
    requires ReferentialIntegrity(t) && ask.tx in t.nodes && ask.maxNodes >= 1
    requires Project(t, r, consumer).Projected?
    ensures r.tx in t.nodes
    ensures var later := Project(t, r, consumer).tables;
            && Watermark(later, stream) == Watermark(t, stream)
            && (Direct(later, ask) != Direct(t, ask)
                <==> r.model == ask.model && r.tx in Shown(t, ask) && ViewOf(t, r.tx, ask.model).risk != r.probability)
  {
    hide Direct, Views, Shown;
    var later := Project(t, r, consumer).tables;
    ProjectExtends(t, r, consumer);
    ProjectionScores(t, r, consumer, stream);
    ScoredIsStored(t, r, consumer);
    hide Project, ReferentialIntegrity, Extends;
    var ids := AnswersDifferInViews(t, later, ask);
    if r.model == ask.model && r.tx in ids {
      ViewsFollowScores(t, later, ids, r.tx, ask.model);
    } else {
      OtherViewsStay(t, later, ids, ask.model);
    }
  }

  lemma ScoredIsStored(t: Tables, r: ScoringResult, consumer: string)
    requires ReferentialIntegrity(t) && Project(t, r, consumer).Projected?
    ensures r.tx in t.nodes
  {
    assert (r.tx, r.model) in t.scores ==> (r.tx, r.model).0 in t.nodes;
  }

  lemma OtherViewsStay(t: Tables, later: Tables, ids: seq<TxId>, model: string)
    requires forall x :: x in ids ==> x in t.nodes
    requires t.nodes == later.nodes
    requires forall x :: x in ids ==> ((x, model) in t.scores <==> (x, model) in later.scores)
    requires forall x :: x in ids && (x, model) in t.scores ==> t.scores[(x, model)] == later.scores[(x, model)]
    ensures Views(t, ids, model) == Views(later, ids, model)
  {
    forall i | 0 <= i < |ids|
      ensures Views(t, ids, model)[i] == Views(later, ids, model)[i]
    {
      assert ids[i] in ids;
    }
  }

  lemma AnswersAreFound(t: Tables, ask: Ask)
    requires ask.tx in t.nodes
    ensures Direct(t, ask).Some? && Direct(t, ask).value.center == ask.tx
  {
  }
}
