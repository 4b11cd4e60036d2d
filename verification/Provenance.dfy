/** Where the data comes from: over every run, each score and each stream entry carries what
    some worker was told by the model for that request, and each stored transaction and edge is
    as a produced batch gave it. */
module Provenance {
  import opened Events
  import opened Tables
  import opened Consumers
  import opened RedisStream
  import opened Pipeline
  import opened PipelineInvariant
  import opened PipelineRuns
  import opened Paths

  /** The result of the request, field by field, with the given prediction. */
  ghost predicate Answers(c: Config, x: ScoringResult, r: ScoringRequest, probability: real, scoredAt: int) {
    && x.eventId == Completed(r.eventId, c.model) && x.tx == r.tx && x.watermark == r.watermark
    && x.model == c.model && x.featureSchema == c.featureSchema
    && x.probability == probability && x.scoredAt == scoredAt
  }

  /** At one step of the run a worker sent this result for the request it had in hand. */
  ghost predicate PredictedAt(c: Config, run: seq<State>, i: nat, p: nat, x: ScoringResult) {
    && i < |run| - 1 && MayStep(c, run[i], Request(p, Effect, x.probability, x.scoredAt))
    && run[i + 1] == Do(c, run[i], Request(p, Effect, x.probability, x.scoredAt))
    && Answers(c, x, RecordInHand(run[i].requests[p]).value, x.probability, x.scoredAt)
  }

  ghost predicate Predicted(c: Config, run: seq<State>, x: ScoringResult) {
    exists i: nat, p: nat :: PredictedAt(c, run, i, p, x)
  }

  ghost predicate ResultsPredicted(c: Config, run: seq<State>, results: seq<Partition<ScoringResult>>) {
    forall q, o :: 0 <= q < |results| && 0 <= o < |results[q].log| && results[q].log[o].Valid? ==>
      Predicted(c, run, results[q].log[o].event)
  }

  ghost predicate IntentsPredicted(c: Config, run: seq<State>, intents: map<EventId, OutboxRow<ScoringResult>>) {
    forall id :: id in intents ==> Predicted(c, run, intents[id].message)
  }

  ghost predicate ScoreFrom(key: ScoreKey, score: Score, x: ScoringResult) {
    && key.0 == x.tx && key.1 == x.model && score.source == x.eventId
    && score.probability == x.probability && score.watermark == x.watermark && score.scoredAt == x.scoredAt
    && score.featureSchema == x.featureSchema
  }

  ghost predicate ScorePredicted(c: Config, run: seq<State>, key: ScoreKey, score: Score) {
    exists x :: Predicted(c, run, x) && ScoreFrom(key, score, x)
  }

  ghost predicate ScoresPredicted(c: Config, run: seq<State>, scores: map<ScoreKey, Score>) {
    forall key :: key in scores ==> ScorePredicted(c, run, key, scores[key])
  }

  ghost predicate Sourced(c: Config, run: seq<State>, s: State) {
    && ResultsPredicted(c, run, s.results)
    && IntentsPredicted(c, run, s.db.intents)
    && ScoresPredicted(c, run, s.db.scores)
  }

  lemma LongerRun(c: Config, run: seq<State>, s: State, later: State)
    requires Sourced(c, run, s)
    ensures Sourced(c, run + [later], s)
  {
    hide MayStep, Do, Answers, ScoreFrom;
    var more := run + [later];
    forall x | Predicted(c, run, x)
      ensures Predicted(c, more, x)
    {
      var i: nat, p: nat :| PredictedAt(c, run, i, p, x);
      assert more[i] == run[i] && more[i + 1] == run[i + 1];
      assert PredictedAt(c, more, i, p, x);
    }
    hide Predicted;
    forall key | key in s.db.scores
      ensures ScorePredicted(c, more, key, s.db.scores[key])
    {
      assert ScorePredicted(c, run, key, s.db.scores[key]);
    }
  }

  /** Nothing becomes a result, a score or an intent but what a worker sends. */
  lemma StepKeepsSources(c: Config, run: seq<State>, s: State, step: Step)
    requires Sourced(c, run, s) && MayStep(c, s, step)
    requires run != [] && run[|run| - 1] == s
    ensures Sourced(c, run + [Do(c, s, step)], Do(c, s, step))
  {
    hide Sourced, Predicted, MayMaterialize, MayScore, MayProject, MayOpen, DoPublisher, Messages, Mark;
    var later := Do(c, s, step);
    LongerRun(c, run, s, later);
    var more := run + [later];
    match step
    case MalformedResult(q) => OneResultMore(c, more, s, later, q, Malformed);
    case Request(p, op, _, _) => RequestKeepsSources(c, run, s, step);
    case Graph(_, _) => GraphKeepsSources(c, more, s, step);
    case Result(q, op) => if op.Effect? { ProjectionKeepsSources(c, more, s, q); } else { MovedResults(c, more, s, later); }
    case ProjectorStart(w) => SessionsKeepLogs(s.results, c.projectorOf, w); MovedResults(c, more, s, later);
    case ProjectorCrash(w) => SessionsKeepLogs(s.results, c.projectorOf, w); MovedResults(c, more, s, later);
    case PublisherStep(_, _, _) => PublisherKeepsSources(c, more, s, step);
    case _ => TablesKeepSources(c, more, s, later);
  }

  lemma SessionsKeepLogs(parts: seq<Partition<ScoringResult>>, owner: nat -> nat, w: nat)
    ensures forall q :: 0 <= q < |parts| ==>
              AllBegun(parts, owner, w)[q].log == parts[q].log && AllHalted(parts, owner, w)[q].log == parts[q].log
  {
    var begun, halted := AllBegun(parts, owner, w), AllHalted(parts, owner, w);
    assert forall q :: 0 <= q < |parts| ==> begun[q] == if owner(q) == w then Began(parts[q]) else parts[q];
    assert forall q :: 0 <= q < |parts| ==> halted[q] == if owner(q) == w then Halted(parts[q]) else parts[q];
  }

  lemma TablesKeepSources(c: Config, run: seq<State>, s: State, later: State)
    requires Sourced(c, run, s) && later.results == s.results
    requires later.db.intents == s.db.intents && later.db.scores == s.db.scores
    ensures Sourced(c, run, later)
  {
    hide ResultsPredicted, IntentsPredicted, ScoresPredicted;
  }

  lemma GraphKeepsSources(c: Config, run: seq<State>, s: State, step: Step)
    requires Sourced(c, run, s) && step.Graph? && MayStep(c, s, step)
    ensures Sourced(c, run, Do(c, s, step))
  {
    hide Sourced, MayMaterialize;
    TablesKeepSources(c, run, s, Do(c, s, step));
  }

  lemma MovedResults(c: Config, run: seq<State>, s: State, later: State)
    requires Sourced(c, run, s) && |later.results| == |s.results|
    requires forall q :: 0 <= q < |s.results| ==> later.results[q].log == s.results[q].log
    requires later.db.intents == s.db.intents && later.db.scores == s.db.scores
    ensures Sourced(c, run, later)
  {
    hide Predicted, IntentsPredicted, ScoresPredicted;
  }

  lemma PublisherKeepsSources(c: Config, run: seq<State>, s: State, step: Step)
    requires Sourced(c, run, s) && step.PublisherStep? && MayStep(c, s, step)
    ensures Sourced(c, run, Do(c, s, step))
  {
    hide Sourced, MayOpen, NextId, Messages, Mark;
    if step.publisherOp.MarkAll? {
      MarkKeepsMessages(s.db.intents, s.publishers[step.publisher].rows);
    }
    MarkedIntents(c, run, s, Do(c, s, step));
  }

  lemma MarkedIntents(c: Config, run: seq<State>, s: State, later: State)
    requires Sourced(c, run, s) && later.results == s.results && later.db.scores == s.db.scores
    requires Messages(later.db.intents) == Messages(s.db.intents)
    ensures Sourced(c, run, later)
  {
    hide Predicted, ResultsPredicted, ScoresPredicted;
    forall id | id in later.db.intents
      ensures Predicted(c, run, later.db.intents[id].message)
    {
      assert Messages(later.db.intents)[id] == Messages(s.db.intents)[id];
    }
  }

  lemma OneResultMore(c: Config, run: seq<State>, s: State, later: State, q: nat, r: Record<ScoringResult>)
    requires Sourced(c, run, s) && q < |s.results| && later.results == s.results[q := Append(s.results[q], r)]
    requires r.Valid? ==> Predicted(c, run, r.event)
    requires later.db.intents == s.db.intents && later.db.scores == s.db.scores
    ensures Sourced(c, run, later)
  {
    hide Predicted, IntentsPredicted, ScoresPredicted;
  }

  lemma RequestKeepsSources(c: Config, run: seq<State>, s: State, step: Step)
    requires step.Request? && MayStep(c, s, step) && run != [] && run[|run| - 1] == s
    requires Sourced(c, run + [Do(c, s, step)], s)
    ensures Sourced(c, run + [Do(c, s, step)], Do(c, s, step))
  {
    hide Sourced, GraphReady;
    var later := Do(c, s, step);
    var more := run + [later];
    if step.op.Effect? {
      var r := RecordInHand(s.requests[step.partition]).value;
      var x := ResultOf(c, r, step.probability, step.scoredAt);
      assert more[|run| - 1] == s && more[|run| - 1 + 1] == later;
      assert PredictedAt(c, more, |run| - 1, step.partition, x);
      OneResultMore(c, more, s, later, c.resultPartition(r.tx), Valid(x));
    } else {
      TablesKeepSources(c, more, s, later);
    }
  }

  lemma ProjectionKeepsSources(c: Config, run: seq<State>, s: State, q: nat)
    requires Sourced(c, run, s) && MayStep(c, s, Result(q, Effect))
    ensures Sourced(c, run, Do(c, s, Result(q, Effect)))
  {
    hide Predicted, PredictedAt;
    var later := Do(c, s, Result(q, Effect));
    var x := RecordInHand(s.results[q]).value;
    assert Predicted(c, run, x);
    ScoresAfterProjection(c, run, s.db, x);
  }

  lemma ScoresAfterProjection(c: Config, run: seq<State>, t: Tables, x: ScoringResult)
    requires IntentsPredicted(c, run, t.intents) && ScoresPredicted(c, run, t.scores) && Predicted(c, run, x)
    ensures IntentsPredicted(c, run, Projection(t, x, c.projector).intents)
    ensures ScoresPredicted(c, run, Projection(t, x, c.projector).scores)
  {
    hide Predicted;
    var later := Projection(t, x, c.projector);
    forall key | key in later.scores
      ensures ScorePredicted(c, run, key, later.scores[key])
    {
      if later.scores[key] == ScoreOf(x) && key == (x.tx, x.model) {
        assert ScoreFrom(key, later.scores[key], x);
      } else {
        assert ScorePredicted(c, run, key, t.scores[key]);
      }
    }
  }

  lemma {:induction false} RunIsSourced(c: Config, run: seq<State>)
    requires IsRun(c, run)
    ensures Sourced(c, run, run[|run| - 1])
  {
    hide MayStep, Do, Sourced;
    if |run| == 1 {
      NothingToSource(c, run);
    } else {
      var front, last := run[..|run| - 1], |run| - 1;
      FrontIsRun(c, run);
      RunIsSourced(c, front);
      assert Next(c, run[last - 1], run[last]);
      var step :| MayStep(c, run[last - 1], step) && run[last] == Do(c, run[last - 1], step);
      StepKeepsSources(c, front, run[last - 1], step);
      assert run == front + [run[last]];
    }
  }

  lemma NothingToSource(c: Config, run: seq<State>)
    ensures Sourced(c, run, Init(c))
  {
    hide Predicted;
  }

  lemma FrontIsRun(c: Config, run: seq<State>)
    requires IsRun(c, run) && |run| > 1
    ensures IsRun(c, run[..|run| - 1])
  {
    hide Next, Init;
    var front := run[..|run| - 1];
    assert forall i :: 0 <= i < |front| - 1 ==> Next(c, run[i], run[i + 1]);
  }

  /** Every canonical score is, field by field, a result some worker sent in the run for the
      request it had in hand, with the probability and time the model gave it there. */
  lemma ScoresArePredicted(c: Config, run: seq<State>, key: ScoreKey) returns (x: ScoringResult)
    requires IsRun(c, run) && key in run[|run| - 1].db.scores
    ensures Predicted(c, run, x) && ScoreFrom(key, run[|run| - 1].db.scores[key], x)
  {
    hide Predicted;
    RunIsSourced(c, run);
    assert ScorePredicted(c, run, key, run[|run| - 1].db.scores[key]);
    x :| Predicted(c, run, x) && ScoreFrom(key, run[|run| - 1].db.scores[key], x);
  }

  /** So is the payload of every stream entry, and the entry is under the result's event. */
  lemma StreamIsPredicted(c: Config, run: seq<State>, i: nat)
    requires WellFormed(c) && IsRun(c, run) && i < |run[|run| - 1].redis.stream|
    ensures var entry := run[|run| - 1].redis.stream[i];
            Predicted(c, run, entry.payload) && entry.event == entry.payload.eventId
  {
    hide Predicted;
    RunIsSourced(c, run);
    RunKeeps(c, run);
    EntryIsIntent(c, run[|run| - 1], i);
  }

  lemma EntryIsIntent(c: Config, s: State, i: nat)
    requires Inv(c, s) && i < |s.redis.stream|
    ensures var entry := s.redis.stream[i];
            entry.event in s.db.intents && entry.payload == s.db.intents[entry.event].message
            && entry.event == entry.payload.eventId
  {
    hide PartitionsSound, GraphSide, TopicMatches, LocksSound, CopiesCounted, Scored, ResultsKnown, Projections;
    assert s.redis.stream[i].event in s.db.intents;
  }

  // ---- the graph ----

  /** The row holds what one produced batch says of the transaction. */
  ghost predicate RowOfNode(c: Config, k: nat, i: nat, tx: TxId, row: NodeRow) {
    && k < |c.batches| && i < |c.batches[k].nodes| && c.batches[k].nodes[i].tx == tx
    && row.timeStep == c.batches[k].nodes[i].timeStep && row.features == c.batches[k].nodes[i].features
    && row.featureSchema == c.batches[k].featureSchema && row.observedAt == c.batches[k].occurredAt
    && row.watermark == c.batches[k].timeStep
  }

  ghost predicate RowObserved(c: Config, tx: TxId, row: NodeRow) {
    exists k: nat, i: nat :: RowOfNode(c, k, i, tx, row)
  }

  ghost predicate EdgeObserved(c: Config, e: Edge) {
    exists k: nat :: k < |c.batches| && e in c.batches[k].edges
  }

  ghost predicate GraphObserved(c: Config, t: Tables) {
    && (forall tx :: tx in t.nodes ==> RowObserved(c, tx, t.nodes[tx]))
    && (forall e :: e in t.edges ==> EdgeObserved(c, e))
  }

  lemma MaterializedIsObserved(c: Config, t: Tables, b: GraphBatch, now: int)
    requires GraphObserved(c, t) && SomeCopy(c, b)
    ensures GraphObserved(c, Materialized(t, b, c.materializer, now))
  {
    hide RowObserved, EdgeObserved, BatchError;
    var k: nat :| IsCopy(c, k, b);
    var later := Materialized(t, b, c.materializer, now);
    forall tx | tx in later.nodes
      ensures RowObserved(c, tx, later.nodes[tx])
    {
      if tx !in t.nodes || later.nodes[tx] != t.nodes[tx] {
        NodeIsObserved(c, k, b, tx);
      }
    }
    forall e | e in later.edges && e !in t.edges
      ensures EdgeObserved(c, e)
    {
      CopyHasEdge(c, k, b, e);
    }
  }

  lemma NodeIsObserved(c: Config, k: nat, b: GraphBatch, tx: TxId)
    requires IsCopy(c, k, b) && tx in BatchIds(b)
    ensures RowObserved(c, tx, RowOf(b, NodeOf(b, tx)))
  {
    var n := NodeOf(b, tx);
    var i :| 0 <= i < |b.nodes| && b.nodes[i] == n;
    assert RowOfNode(c, k, i, tx, RowOf(b, n));
  }

  lemma CopyHasEdge(c: Config, k: nat, b: GraphBatch, e: Edge)
    requires IsCopy(c, k, b) && e in b.edges
    ensures EdgeObserved(c, e)
  {
  }

  lemma StepKeepsGraph(c: Config, s: State, step: Step)
    requires Inv(c, s) && MayStep(c, s, step) && GraphObserved(c, s.db)
    ensures GraphObserved(c, Do(c, s, step).db)
  {
    hide Inv, GraphObserved, MayStep, Do;
    if step.Graph? {
      BatchKeepsGraph(c, s, step);
    } else {
      OthersLeaveGraph(c, s, step);
      OtherTablesObserved(c, s.db, Do(c, s, step).db);
    }
  }

  lemma OthersLeaveGraph(c: Config, s: State, step: Step)
    requires MayStep(c, s, step) && !step.Graph?
    ensures Do(c, s, step).db.nodes == s.db.nodes && Do(c, s, step).db.edges == s.db.edges
  {
    hide MayStep, DoRequest, DoResult, DoRelay, DoPublisher, AllBegun, AllHalted, WithFailure;
    match step
    case Request(_, _, _, _) => RequestLeavesGraph(c, s, step);
    case Result(_, _) => ResultLeavesGraph(c, s, step);
    case RelayStep(_, _) => RelayLeavesGraph(c, s, step);
    case PublisherStep(_, _, _) => PublisherLeavesGraph(c, s, step);
    case _ =>
  }

  lemma RequestLeavesGraph(c: Config, s: State, step: Step)
    requires step.Request? && MayStep(c, s, step)
    ensures Do(c, s, step).db == s.db
  {
    hide GraphReady, Apply, Enabled, Queued;
  }

  lemma ResultLeavesGraph(c: Config, s: State, step: Step)
    requires step.Result? && MayStep(c, s, step)
    ensures Do(c, s, step).db.nodes == s.db.nodes && Do(c, s, step).db.edges == s.db.edges
  {
    hide Apply, Enabled, Project, Projection;
    if step.op.Effect? {
      ProjectionLeavesGraph(c, s.db, RecordInHand(s.results[step.partition]).value);
    }
  }

  lemma ProjectionLeavesGraph(c: Config, t: Tables, x: ScoringResult)
    ensures Projection(t, x, c.projector).nodes == t.nodes && Projection(t, x, c.projector).edges == t.edges
  {
    hide SourceHeldElsewhere, Supersedes, InsertIntent;
  }

  lemma RelayLeavesGraph(c: Config, s: State, step: Step)
    requires step.RelayStep? && MayStep(c, s, step)
    ensures Do(c, s, step).db.nodes == s.db.nodes && Do(c, s, step).db.edges == s.db.edges
  {
    hide MayOpen, Mark;
  }

  lemma PublisherLeavesGraph(c: Config, s: State, step: Step)
    requires step.PublisherStep? && MayStep(c, s, step)
    ensures Do(c, s, step).db.nodes == s.db.nodes && Do(c, s, step).db.edges == s.db.edges
  {
    hide MayOpen, Mark, PublishOnce, NextId;
  }

  lemma BatchKeepsGraph(c: Config, s: State, step: Step)
    requires Inv(c, s) && step.Graph? && MayStep(c, s, step) && GraphObserved(c, s.db)
    ensures GraphObserved(c, Do(c, s, step).db)
  {
    hide Inv, GraphObserved, SomeCopy, Materialized;
    if step.op.Effect? {
      BatchInHandIsCopy(c, s);
      MaterializedIsObserved(c, s.db, RecordInHand(s.graph).value, step.now);
    }
  }

  lemma OtherTablesObserved(c: Config, t: Tables, later: Tables)
    requires GraphObserved(c, t) && later.nodes == t.nodes && later.edges == t.edges
    ensures GraphObserved(c, later)
  {
    hide RowObserved, EdgeObserved;
  }

  lemma BatchInHandIsCopy(c: Config, s: State)
    requires Inv(c, s) && RecordInHand(s.graph).Some?
    ensures SomeCopy(c, RecordInHand(s.graph).value)
  {
  }

  /** In every reachable state each stored transaction has the time step, features and other
      data of a produced batch that carries it, and each stored edge is of a produced batch. */
  lemma GraphIsObserved(c: Config, s: State)
    requires WellFormed(c) && Reachable(c, s)
    ensures GraphObserved(c, s.db)
  {
    hide WellFormed, Inv, MayStep, Do, GraphObserved, Next;
    InitHolds(c);
    EmptyIsObserved(c);
    var run :| IsRun(c, run) && run[|run| - 1] == s;
    forall t, step | Inv(c, t) && GraphObserved(c, t.db) && MayStep(c, t, step)
      ensures Inv(c, Do(c, t, step)) && GraphObserved(c, Do(c, t, step).db)
    {
      StepKeeps(c, t, step);
      StepKeepsGraph(c, t, step);
    }
    assert IsPath(c, run);
    PathKeeps(c, run, t => Inv(c, t) && GraphObserved(c, t.db));
  }

  lemma EmptyIsObserved(c: Config)
    ensures GraphObserved(c, Init(c).db)
  {
  }
}
