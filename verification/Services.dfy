/** The service loops. Each takes its steps through `Runtime.Take`, which demands that the
    pipeline allows the step: a verified loop is therefore a run of the pipeline. What the
    infrastructure does (which call raises, and when) is handed in as data. */
module Services {
  import opened Events
  import opened Tables
  import opened Consumers
  import opened Pipeline
  import opened PipelineInvariant
  import opened PipelineRuns
  import opened PipelineTheorems
  import opened Paths

  /** A call into the infrastructure: it returns, or it raises, before or after it took effect. */
  datatype Call = Returns | Raises(applied: bool)

  predicate TookEffect(call: Call) {
    call.Returns? || call.applied
  }

  /** What happens around one record: whether its headers can be read (a header without a value
      cannot), the database transaction, the offset commit, the lag observation (true if it
      returns) and the dead-letter publication. */
  datatype Luck = Luck(headers: bool, database: Call, commit: Call, lag: bool, deadLetter: Call)

  /** The branch a record takes in a consume loop; in the second the transaction took effect
      although it raised. */
  datatype Verdict = Apply | ApplyAndFail | DeadLetter | Fail

  /** How the branch ends: finished, caught by the general handler, or raised out of it. */
  datatype Ending = Done | Failed | Raised

  /** How a consume loop ends. */
  datatype LoopEnd = Interrupted | Exhausted | DeadLetterRaised

  function BatchVerdict(c: Config, t: Tables, r: Record<GraphBatch>, now: int, luck: Luck): Verdict {
    if !luck.headers then Fail
    else if r.Malformed? then DeadLetter
    else if !TookEffect(luck.database) then Fail
    else
      var o := Materialize(t, r.event, c.materializer, now);
      if o.Rejected? then if o.error.RepeatedTransaction? then Fail else DeadLetter
      else if luck.database.Raises? then ApplyAndFail else Apply
  }

  function ResultVerdict(c: Config, t: Tables, r: Record<ScoringResult>, luck: Luck): Verdict {
    if !luck.headers then Fail
    else if r.Malformed? then DeadLetter
    else if !TookEffect(luck.database) then Fail
    else if Project(t, r.event, c.projector).Refused? then DeadLetter
    else if luck.database.Raises? then ApplyAndFail else Apply
  }

  /** Which branch a batch takes. With readable headers it is dead-lettered exactly when it is
      malformed, or it reaches the database, is new there and names no transaction twice whose
      row it would write, but has an edge from a transaction to itself or to an unknown one. */
  lemma BatchBranches(c: Config, t: Tables, r: Record<GraphBatch>, now: int, luck: Luck)
    ensures var v := BatchVerdict(c, t, r, now, luck);
            if r.Malformed? then v == if luck.headers then DeadLetter else Fail
            else
              var b := r.event;
              var reached := luck.headers && TookEffect(luck.database);
              var isNew := (b.eventId, c.materializer) !in t.inbox;
              var twice := exists i, j :: 0 <= i < j < |b.nodes| && b.nodes[i].tx == b.nodes[j].tx
                                          && (b.nodes[i].tx in t.nodes ==> t.nodes[b.nodes[i].tx].watermark <= b.timeStep);
              var known := t.nodes.Keys + BatchIds(b);
              var badEdge := exists e :: e in b.edges && (e.0 == e.1 || e.0 !in known || e.1 !in known);
              && (v.DeadLetter? <==> reached && isNew && !twice && badEdge)
              && (v.Apply? <==> reached && luck.database.Returns? && (!isNew || (!twice && !badEdge)))
              && (v.ApplyAndFail? <==> reached && luck.database.Raises? && (!isNew || (!twice && !badEdge)))
              && (v.Fail? <==> !reached || (isNew && twice))
  {
    if r.Valid? {
      BatchOutcome(t, r.event, c.materializer, now);
    }
  }

  /** Which branch a result takes. With readable headers it is dead-lettered exactly when it is
      malformed, or it reaches the database, is new there, and either its transaction is
      unknown, or it would become canonical but another score has its source. */
  lemma ResultBranches(c: Config, t: Tables, r: Record<ScoringResult>, luck: Luck)
    ensures var v := ResultVerdict(c, t, r, luck);
            if r.Malformed? then v == if luck.headers then DeadLetter else Fail
            else
              var x := r.event;
              var reached := luck.headers && TookEffect(luck.database);
              var isNew := (x.eventId, c.projector) !in t.inbox;
              var key := (x.tx, x.model);
              var behind := key in t.scores && (x.watermark < t.scores[key].watermark || x.scoredAt < t.scores[key].scoredAt);
              var refused := (key !in t.scores && x.tx !in t.nodes)
                             || (!behind && exists k :: k in t.scores && k != key && t.scores[k].source == x.eventId);
              && (v.DeadLetter? <==> reached && isNew && refused)
              && (v.Apply? <==> reached && luck.database.Returns? && (!isNew || !refused))
              && (v.ApplyAndFail? <==> reached && luck.database.Raises? && (!isNew || !refused))
              && (v.Fail? <==> !reached)
  {
    if r.Valid? {
      ResultOutcome(t, r.event, c.projector);
    }
  }

  /** The headers can be read and no call raises. */
  predicate Undisturbed(luck: Luck) {
    luck.headers && luck.database.Returns? && luck.commit.Returns? && luck.lag && luck.deadLetter.Returns?
  }

  /** The batch names no transaction twice. */
  ghost predicate RepeatsNothing(r: Record<GraphBatch>) {
    r.Valid? ==> DistinctIds(r.event)
  }

  lemma UndisturbedBatch(c: Config, t: Tables, r: Record<GraphBatch>, now: int, luck: Luck)
    ensures Undisturbed(luck) && RepeatsNothing(r) ==>
              BatchVerdict(c, t, r, now, luck).Apply? || BatchVerdict(c, t, r, now, luck).DeadLetter?
  {
    BatchBranches(c, t, r, now, luck);
  }

  lemma UndisturbedResult(c: Config, t: Tables, r: Record<ScoringResult>, luck: Luck)
    ensures Undisturbed(luck) ==> ResultVerdict(c, t, r, luck).Apply? || ResultVerdict(c, t, r, luck).DeadLetter?
  {
  }

  /** A record taken and committed without a loss: it has its effect or a dead letter. */
  ghost predicate TakenSafely<T>(before: Partition<T>, after: Partition<T>, o: nat) {
    && after.skipped == before.skipped && after.committed == o + 1
    && ((after.effects == before.effects + {o} && after.dead == before.dead)
        || (after.dead == before.dead + {o} && after.effects == before.effects))
  }

  /** So are all records from one offset up to another. */
  ghost predicate AllTakenSafely<T>(before: Partition<T>, after: Partition<T>, from: nat, to: nat) {
    && after.skipped == before.skipped && before.effects <= after.effects && before.dead <= after.dead
    && (forall o: nat :: from <= o < to ==> o in after.effects || o in after.dead)
    && after.committed == if from < to then to else before.committed
  }

  /** Every batch taken since has its claim and its scoring requests in the tables, or a dead
      letter. */
  ghost predicate AllDurable(c: Config, s: State, from: nat) {
    s.graph.session.Running? ==>
      forall o: nat :: from <= o < s.graph.session.position ==> o in s.graph.dead || BatchIsDurable(c, s, o)
  }

  lemma SafelyIsDurable(c: Config, s: State, before: Partition<GraphBatch>, from: nat)
    requires Inv(c, s) && s.graph.session.Running?
    requires AllTakenSafely(before, s.graph, from, s.graph.session.position)
    ensures AllDurable(c, s, from) && Lost(s.graph) <= Lost(before)
  {
    hide Inv, BatchIsDurable;
    forall o: nat | from <= o < s.graph.session.position
      ensures o in s.graph.dead || BatchIsDurable(c, s, o)
    {
      if o in s.graph.effects {
        EffectedBatchIsDurable(c, s, o);
      }
    }
  }

  ghost predicate AllUndisturbed(rounds: seq<Luck>) {
    forall i :: 0 <= i < |rounds| ==> Undisturbed(rounds[i])
  }

  ghost predicate NothingRepeated(log: seq<Record<GraphBatch>>) {
    forall o :: 0 <= o < |log| ==> RepeatsNothing(log[o])
  }

  lemma NothingTakenYet<T>(p: Partition<T>, from: nat)
    ensures from == p.committed ==> AllTakenSafely(p, Began(p), from, from)
  {
  }

  lemma OneMoreSafely<T>(first: Partition<T>, before: Partition<T>, after: Partition<T>, from: nat, o: nat)
    requires AllTakenSafely(first, before, from, o) && TakenSafely(before, after, o) && from <= o
    ensures AllTakenSafely(first, after, from, o + 1)
  {
  }

  /** The consecutive failures at the end of a list of endings. */
  function Streak(endings: seq<Ending>): nat {
    if endings == [] || !endings[|endings| - 1].Failed? then 0 else 1 + Streak(endings[..|endings| - 1])
  }

  /** The count is what the last endings say. */
  lemma {:induction false} StreakMeans(endings: seq<Ending>, n: nat)
    ensures Streak(endings) >= n <==>
            n <= |endings| && forall i :: |endings| - n <= i < |endings| ==> endings[i].Failed?
  {
    if n > 0 && endings != [] && endings[|endings| - 1].Failed? {
      StreakMeans(endings[..|endings| - 1], n - 1);
    }
  }

  class Runtime {
    const c: Config
    var s: State

    ghost predicate Valid()
      reads this
    {
      WellFormed(c) && Inv(c, s) && Reachable(c, s)
    }

    constructor (c: Config)
      requires WellFormed(c)
      ensures Valid() && this.c == c && s == Init(c)
    {
      this.c := c;
      s := Init(c);
      new;
      InitHolds(c);
      StartIsReachable(c);
    }

    method Take(step: Step)
      requires Valid() && MayStep(c, s, step)
      modifies this
      ensures Valid() && s == Do(c, old(s), step)
    {
      hide Inv, MayStep, Do, Reachable, WellFormed;
      StepKeeps(c, s, step);
      OneStepFurther(c, s, step);
      s := Do(c, s, step);
    }

    // ---- graph materializer ----

    /** The body of the materializer's loop, for the record in hand. */
    method HandleBatch(luck: Luck, now: int) returns (ending: Ending)
      requires Valid() && s.graph.session.Running? && s.graph.session.phase.Handling?
      requires s.graph.session.phase.offset < |s.graph.log|
      modifies this
      ensures Valid()
      ensures var o := old(s.graph.session.phase.offset);
              var before := old(s);
              var session := before.graph.session;
              match BatchVerdict(c, before.db, before.graph.log[o], now, luck)
              case Fail => ending.Failed? && s == before
              case ApplyAndFail =>
                && ending.Failed?
                && s == before.(
                     db := Materialized(before.db, before.graph.log[o].event, c.materializer, now),
                     graph := before.graph.(
                       effects := before.graph.effects + {o}, session := session.(phase := Effected(o))))
              case Apply =>
                && ending == (if luck.commit.Returns? && luck.lag then Done else Failed)
                && s == before.(
                     db := Materialized(before.db, before.graph.log[o].event, c.materializer, now),
                     graph := before.graph.(
                       effects := before.graph.effects + {o},
                       committed := if TookEffect(luck.commit) then o + 1 else before.graph.committed,
                       session := session.(phase := if TookEffect(luck.commit) then Committed(o) else Effected(o))))
              case DeadLetter =>
                && ending == (if luck.deadLetter.Returns? && luck.commit.Returns? then Done else Raised)
                && (ending.Done? ==> s == before.(graph := before.graph.(
                     dead := before.graph.dead + {o}, committed := o + 1, session := session.(phase := Committed(o)))))
                && (ending.Raised? ==>
                   && s.graph.session.Running? && s.graph.log == before.graph.log
                   && s.graph.dead == before.graph.dead + (if TookEffect(luck.deadLetter) then {o} else {})
                   && s.graph.committed ==
                      if luck.deadLetter.Returns? && TookEffect(luck.commit) then o + 1 else before.graph.committed)
    {
      hide Inv, Reachable;
      if !luck.headers {
        return Failed;
      }
      var offset := s.graph.session.phase.offset;
      if s.graph.log[offset].Malformed? {
        ending := BuryBatch(luck, now);
        return;
      }
      if !TookEffect(luck.database) {
        return Failed;
      }
      var outcome := Materialize(s.db, s.graph.log[offset].event, c.materializer, now);
      if outcome.Rejected? {
        if outcome.error.RepeatedTransaction? {
          return Failed;
        }
        ending := BuryBatch(luck, now);
        return;
      }
      Take(Graph(Effect, now));
      if luck.database.Raises? {
        return Failed;
      }
      if TookEffect(luck.commit) {
        Take(Graph(Commit, now));
      }
      return if luck.commit.Returns? && luck.lag then Done else Failed;
    }

    /** The dead-letter branch: publish, then commit; anything raised here ends the process. */
    method BuryBatch(luck: Luck, now: int) returns (ending: Ending)
      requires Valid() && s.graph.session.Running? && s.graph.session.phase.Handling?
      modifies this
      ensures Valid()
      ensures var o := old(s.graph.session.phase.offset);
              var before := old(s);
              && ending == (if luck.deadLetter.Returns? && luck.commit.Returns? then Done else Raised)
              && (ending.Done? ==> s == before.(graph := before.graph.(
                   dead := before.graph.dead + {o}, committed := o + 1,
                   session := before.graph.session.(phase := Committed(o)))))
              && (ending.Raised? ==>
                   && s.graph.session.Running? && s.graph.log == before.graph.log
                   && s.graph.dead == before.graph.dead + (if TookEffect(luck.deadLetter) then {o} else {})
                   && s.graph.committed ==
                      if luck.deadLetter.Returns? && TookEffect(luck.commit) then o + 1 else before.graph.committed)
    {
      hide Inv, Reachable;
      if TookEffect(luck.deadLetter) {
        Take(Graph(Bury, now));
      }
      if luck.deadLetter.Raises? {
        return Raised;
      }
      if TookEffect(luck.commit) {
        Take(Graph(Commit, now));
      }
      return if luck.commit.Returns? then Done else Raised;
    }

    ghost predicate GraphIdle(position: nat, failures: nat)
      reads this
    {
      && s.graph.session == Running(position, [], Idle, failures)
      && position <= |s.graph.log| && failures < c.retryBudget
    }

    /** What follows a record: the session goes on to the next one, counting a failure or
        clearing the count, or the process ends. */
    method Settle(ending: Ending, now: int, ghost position: nat, consecutiveFailures: nat) returns (failures: nat)
      requires Valid() && s.graph.session.Running? && position < |s.graph.log|
      requires !ending.Raised? ==>
                 && s.graph.session.queue == [] && s.graph.session.position == position + 1
                 && s.graph.session.failures == consecutiveFailures
                 && consecutiveFailures < c.retryBudget
                 && (if ending.Done? then s.graph.session.phase.Committed? else InHand(s.graph.session.phase))
      modifies this
      ensures Valid() && s.graph.log == old(s.graph.log)
      ensures failures == (if ending.Failed? then consecutiveFailures + 1 else 0)
      ensures if ending.Raised? || failures >= c.retryBudget
              then s.graph.session.Stopped? else GraphIdle(position + 1, failures)
      ensures ending.Done? ==> s.graph == old(s.graph).(session := s.graph.session)
    {
      hide Inv, Reachable;
      match ending {
        case Done =>
          Take(Graph(Finish, now));
          failures := 0;
        case Failed =>
          failures := consecutiveFailures + 1;
          Take(Graph(if failures >= c.retryBudget then Crash else Skip, now));
        case Raised =>
          failures := 0;
          Take(Graph(Crash, now));
      }
    }

    /** One record: fetch it, take its branch, and count a failure or clear the count. */
    method MaterializeNext(luck: Luck, now: int, ghost position: nat, consecutiveFailures: nat)
      returns (ending: Ending, failures: nat)
      requires Valid() && GraphIdle(position, consecutiveFailures) && position < |s.graph.log|
      modifies this
      ensures Valid() && s.graph.log == old(s.graph.log)
      ensures failures == (if ending.Failed? then consecutiveFailures + 1 else 0)
      ensures if ending.Raised? || failures >= c.retryBudget
              then s.graph.session.Stopped? else GraphIdle(position + 1, failures)
      ensures Undisturbed(luck) && RepeatsNothing(s.graph.log[position]) ==>
                ending.Done? && TakenSafely(old(s.graph), s.graph, position)
    {
      hide Inv, Reachable, BatchVerdict, Materialized, MayMaterialize, RepeatsNothing;
      Take(Graph(Fetch, now));
      UndisturbedBatch(c, s.db, s.graph.log[position], now, luck);
      ending := HandleBatch(luck, now);
      failures := Settle(ending, now, position, consecutiveFailures);
    }

    /** The materializer's loop over as many polls as `rounds` has. It moves on by one record
        a poll whatever becomes of the record, and gives up at the budget of consecutive
        failures and not before. */
    method RunMaterializer(rounds: seq<Luck>, now: int) returns (end: LoopEnd, ghost endings: seq<Ending>)
      requires Valid() && s.graph.session.Stopped?
      modifies this
      ensures Valid() && s.graph.log == old(s.graph.log)
      ensures end.Interrupted? ==>
                && s.graph.session.Running?
                && s.graph.session.position == old(s.graph.committed) + |endings|
                && (|endings| == |rounds| || s.graph.session.position == |s.graph.log|)
      ensures end.Interrupted? || s.graph.session.Stopped?
      ensures end.Exhausted? <==> Streak(endings) >= c.retryBudget
      ensures AllUndisturbed(rounds) && NothingRepeated(s.graph.log) ==>
                && end.Interrupted?
                && AllTakenSafely(old(s.graph), s.graph, old(s.graph.committed), s.graph.session.position)
                && AllDurable(c, s, old(s.graph.committed)) && Lost(s.graph) <= Lost(old(s.graph))
    {
      hide Inv, Reachable, AllTakenSafely, TakenSafely, Undisturbed, RepeatsNothing;
      CommittedWithinLog(c, s);
      ghost var before := s.graph;
      ghost var start := s.graph.committed;
      NothingTakenYet(before, start);
      Take(Graph(Start, now));
      var consecutiveFailures := 0;
      endings := [];
      for i := 0 to |rounds|
        invariant Valid() && s.graph.log == old(s.graph.log)
        invariant GraphIdle(start + |endings|, consecutiveFailures)
        invariant consecutiveFailures == Streak(endings)
        invariant |endings| == i || start + |endings| == |s.graph.log|
        invariant AllUndisturbed(rounds) && NothingRepeated(s.graph.log) ==> AllTakenSafely(before, s.graph, start, start + |endings|)
      {
        if s.graph.session.position == |s.graph.log| {
          continue;
        }
        var ending;
        ghost var middle := s.graph;
        ending, consecutiveFailures := MaterializeNext(rounds[i], now, start + |endings|, consecutiveFailures);
        if AllUndisturbed(rounds) && NothingRepeated(s.graph.log) {
          OneMoreSafely(before, middle, s.graph, start, start + |endings|);
        }
        endings := endings + [ending];
        assert endings[..|endings| - 1] + [ending] == endings;
        if ending.Raised? {
          end := DeadLetterRaised;
          return;
        }
        if consecutiveFailures >= c.retryBudget {
          end := Exhausted;
          return;
        }
      }
      if AllUndisturbed(rounds) && NothingRepeated(s.graph.log) {
        SafelyIsDurable(c, s, before, start);
      }
      end := Interrupted;
    }

    // ---- result projector ----

    /** The body of the projector's loop, for the record in hand of one partition. */
    method HandleResult(q: nat, luck: Luck) returns (ending: Ending)
      requires Valid() && q < |s.results| && InSession(s.results[q])
      modifies this
      ensures Valid() && HandledResult(c, old(s), s, q, luck, ending)
    {
      hide Inv, Reachable;
      if !luck.headers {
        return Failed;
      }
      var offset := s.results[q].session.phase.offset;
      if s.results[q].log[offset].Malformed? {
        ending := BuryResult(q, luck);
        return;
      }
      if !TookEffect(luck.database) {
        return Failed;
      }
      if Project(s.db, s.results[q].log[offset].event, c.projector).Refused? {
        ending := BuryResult(q, luck);
        return;
      }
      Take(Result(q, Effect));
      if luck.database.Raises? {
        return Failed;
      }
      if TookEffect(luck.commit) {
        Take(Result(q, Commit));
      }
      return if luck.commit.Returns? && luck.lag then Done else Failed;
    }

    method BuryResult(q: nat, luck: Luck) returns (ending: Ending)
      requires Valid() && q < |s.results| && InSession(s.results[q])
      modifies this
      ensures Valid() && DeadLettered(old(s), s, q, luck)
      ensures ending == (if luck.deadLetter.Returns? && luck.commit.Returns? then Done else Raised)
    {
      hide Inv, Reachable;
      if TookEffect(luck.deadLetter) {
        Take(Result(q, Op.Bury));
      }
      if luck.deadLetter.Raises? {
        return Raised;
      }
      if TookEffect(luck.commit) {
        Take(Result(q, Commit));
      }
      return if luck.commit.Returns? then Done else Raised;
    }

    /** The session of one partition goes on to its next record; the other partitions stay. */
    method CloseRecord(w: nat, q: nat, op: Op, ghost positions: seq<nat>)
      requires Valid() && (op == Finish || op == Skip)
      requires RecordOpen(c, s, w, q, if op.Finish? then Done else Failed, positions, FailuresOf(s.failures, w))
      requires op.Skip? ==> FailuresOf(s.failures, w) + 1 < c.retryBudget
      modifies this
      ensures Valid() && OthersStay(old(s.results), s.results, c.projectorOf, w)
      ensures FailuresOf(s.failures, w) == if op.Finish? then 0 else FailuresOf(old(s.failures), w) + 1
      ensures AdvancedTo(s.results, c.projectorOf, w, q, positions)
      ensures op.Finish? ==> OnlySession(old(s.results), s.results, q)
    {
      hide Inv, Reachable;
      Take(Result(q, op));
    }

    method CrashProjector(w: nat)
      requires Valid()
      modifies this
      ensures Valid() && OthersStay(old(s.results), s.results, c.projectorOf, w) && AllStopped(s.results, c.projectorOf, w)
    {
      hide Inv, Reachable, OthersStay, AllStopped;
      HaltedTogether(s.results, c.projectorOf, w);
      Take(ProjectorCrash(w));
    }

    /** What follows a record: the process goes on to the next one, counting a failure or
        clearing the count whichever of its partitions the record came from, or it ends. */
    method SettleResult(w: nat, q: nat, ending: Ending, ghost positions: seq<nat>, consecutiveFailures: nat)
      returns (failures: nat)
      requires Valid()
      requires !ending.Raised? ==> RecordOpen(c, s, w, q, ending, positions, consecutiveFailures)
      modifies this
      ensures Valid() && OthersStay(old(s.results), s.results, c.projectorOf, w)
      ensures failures == (if ending.Failed? then consecutiveFailures + 1 else 0)
      ensures if ending.Raised? || failures >= c.retryBudget
              then AllStopped(s.results, c.projectorOf, w)
              else FailuresOf(s.failures, w) == failures && AdvancedTo(s.results, c.projectorOf, w, q, positions)
      ensures ending.Done? ==> OnlySession(old(s.results), s.results, q)
    {
      hide Inv, Reachable, OthersStay, AllStopped, AdvancedTo, OnlySession;
      failures := if ending.Failed? then consecutiveFailures + 1 else 0;
      if ending.Raised? || failures >= c.retryBudget {
        CrashProjector(w);
      } else {
        CloseRecord(w, q, if ending.Done? then Finish else Skip, positions);
      }
    }

    method FetchResult(w: nat, q: nat, ghost positions: seq<nat>)
      requires Valid() && Waiting(s.results, c.projectorOf, w, q, positions)
      modifies this
      ensures Valid() && s == Fetched(old(s), q, positions)
    {
      hide Inv, Reachable;
      Take(Result(q, Fetch));
    }

    /** One record of one partition. */
    method ProjectNext(w: nat, q: nat, luck: Luck, ghost positions: seq<nat>, consecutiveFailures: nat)
      returns (ending: Ending, failures: nat)
      requires Valid() && Waiting(s.results, c.projectorOf, w, q, positions)
      requires FailuresOf(s.failures, w) == consecutiveFailures < c.retryBudget
      modifies this
      ensures Valid() && OthersStay(old(s.results), s.results, c.projectorOf, w)
      ensures failures == (if ending.Failed? then consecutiveFailures + 1 else 0)
      ensures if ending.Raised? || failures >= c.retryBudget
              then AllStopped(s.results, c.projectorOf, w)
              else FailuresOf(s.failures, w) == failures && AdvancedTo(s.results, c.projectorOf, w, q, positions)
      ensures Undisturbed(luck) ==> ending.Done? && OneTakenSafely(old(s.results), s.results, q)
    {
      hide Inv, Reachable, ResultVerdict, Projection, AllStopped, AdvancedTo, RecordOpen, Waiting, HandledResult, Undisturbed,
           OneTakenSafely, OnlySession;
      ghost var before := s;
      FetchResult(w, q, positions);
      RecordFetched(c, before, w, q, positions);
      ending := HandleResult(q, luck);
      HandledRecord(c, before, s, w, q, luck, ending, positions);
      ghost var handled := s.results;
      if Undisturbed(luck) {
        UndisturbedRecord(c, before, s, w, q, luck, ending, positions);
      }
      failures := SettleResult(w, q, ending, positions, consecutiveFailures);
      if Undisturbed(luck) {
        StillTakenSafely(before.results, handled, s.results, q);
      }
    }

    method StartProjector(w: nat)
      requires Valid() && AllStopped(s.results, c.projectorOf, w)
      modifies this
      ensures Valid() && OthersStay(old(s.results), s.results, c.projectorOf, w)
      ensures FailuresOf(s.failures, w) == 0 && IdleAt(s.results, c.projectorOf, w, Offsets(old(s.results)))
      ensures s.results == AllBegun(old(s.results), c.projectorOf, w)
    {
      hide Inv, Reachable, OthersStay, IdleAt;
      CommittedWithinLog(c, s);
      BegunTogether(s.results, c.projectorOf, w);
      Take(ProjectorStart(w));
    }

    /** One projector's loop over as many polls as `rounds` has; each poll names the partition
        the next record comes from. Every poll with a record moves that partition on by one,
        and the process gives up at the budget of consecutive failures over all its
        partitions, and not before. */
    method RunProjector(w: nat, rounds: seq<(nat, Luck)>)
      returns (end: LoopEnd, ghost endings: seq<Ending>, ghost taken: seq<nat>)
      requires Valid() && AllStopped(s.results, c.projectorOf, w)
      requires forall i :: 0 <= i < |rounds| ==> rounds[i].0 < |s.results| && c.projectorOf(rounds[i].0) == w
      modifies this
      ensures Valid() && OthersStay(old(s.results), s.results, c.projectorOf, w)
      ensures Total(taken) == |endings| <= |rounds|
      ensures end.Interrupted? ==> MovedOn(old(s.results), s.results, c.projectorOf, w, taken)
      ensures end.Interrupted? || AllStopped(s.results, c.projectorOf, w)
      ensures end.Exhausted? <==> Streak(endings) >= c.retryBudget
      ensures RoundsUndisturbed(rounds) ==>
                end.Interrupted? && EachTakenSafely(old(s.results), s.results, c.projectorOf, w, taken)
    {
      hide Inv, Reachable, MovedOn, AheadBy, Undisturbed, EachTakenSafely, OneTakenSafely, OthersStay;
      ghost var before := s.results;
      ghost var positions := Offsets(before);
      StartProjector(w);
      taken := Zeros(|before|);
      NothingTaken(|before|);
      NobodyAhead(before);
      NoneTakenYet(before, s.results, c.projectorOf, w);
      var consecutiveFailures := 0;
      endings := [];
      for i := 0 to |rounds|
        invariant Valid() && OthersStay(before, s.results, c.projectorOf, w)
        invariant IdleAt(s.results, c.projectorOf, w, positions)
        invariant FailuresOf(s.failures, w) == consecutiveFailures == Streak(endings) < c.retryBudget
        invariant |positions| == |taken| == |before| && AheadBy(before, positions, taken)
        invariant Total(taken) == |endings| <= i
        invariant RoundsUndisturbed(rounds) ==> EachTakenSafely(before, s.results, c.projectorOf, w, taken)
      {
        var q := rounds[i].0;
        assert PartitionIdle(s.results[q], positions[q]);
        if s.results[q].session.position == |s.results[q].log| {
          continue;
        }
        var ending;
        ghost var middle := s.results;
        ending, consecutiveFailures := ProjectNext(w, q, rounds[i].1, positions, consecutiveFailures);
        endings := endings + [ending];
        assert endings[..|endings| - 1] + [ending] == endings;
        OneMoreTaken(taken, q);
        OthersStayLonger(before, middle, s.results, c.projectorOf, w);
        if RoundsUndisturbed(rounds) {
          OneMoreOfEach(before, middle, s.results, c.projectorOf, w, positions, taken, q);
        }
        OneMoreAhead(before, positions, taken, q);
        positions, taken := positions[q := positions[q] + 1], taken[q := taken[q] + 1];
        if ending.Raised? {
          end := DeadLetterRaised;
          return;
        }
        if consecutiveFailures >= c.retryBudget {
          end := Exhausted;
          return;
        }
      }
      IdleHasMovedOn(before, s.results, c.projectorOf, w, positions, taken);
      end := Interrupted;
    }
  }

  /** The logs stay, and so does all of every partition another process owns. */
  ghost predicate OthersStay<T>(before: seq<Partition<T>>, after: seq<Partition<T>>, owner: nat -> nat, w: nat) {
    && SameLogs(before, after)
    && forall q :: 0 <= q < |after| && owner(q) != w ==> after[q] == before[q]
  }

  ghost predicate SameLogs<T>(before: seq<Partition<T>>, after: seq<Partition<T>>) {
    |before| == |after| && forall q :: 0 <= q < |after| ==> after[q].log == before[q].log
  }

  ghost predicate PartitionIdle<T>(p: Partition<T>, position: nat) {
    p.session.Running? && p.session.position == position <= |p.log| && p.session.queue == [] && p.session.phase.Idle?
  }

  /** The session of every partition of the process is between two records, at the given
      positions. */
  ghost predicate IdleAt<T>(parts: seq<Partition<T>>, owner: nat -> nat, w: nat, positions: seq<nat>) {
    |positions| == |parts| && forall q :: 0 <= q < |parts| && owner(q) == w ==> PartitionIdle(parts[q], positions[q])
  }

  /** As `IdleAt`, and one partition has a next record. */
  ghost predicate Waiting<T>(parts: seq<Partition<T>>, owner: nat -> nat, w: nat, q: nat, positions: seq<nat>) {
    && IdleAt(parts, owner, w, positions)
    && q < |parts| && owner(q) == w && PartitionIdle(parts[q], positions[q]) && positions[q] < |parts[q].log|
  }

  /** As `IdleAt`, with one partition a record further. */
  ghost predicate AdvancedTo<T>(parts: seq<Partition<T>>, owner: nat -> nat, w: nat, q: nat, positions: seq<nat>) {
    q < |positions| && IdleAt(parts, owner, w, positions[q := positions[q] + 1])
  }

  /** The record of one partition is in hand and has come to the given ending. */
  ghost predicate RecordOpen(c: Config, s: State, w: nat, q: nat, ending: Ending, positions: seq<nat>, failures: nat) {
    && q < |s.results| == |positions| && c.projectorOf(q) == w && FailuresOf(s.failures, w) == failures < c.retryBudget
    && s.results[q].session.Running? && s.results[q].session.queue == []
    && s.results[q].session.position == positions[q] + 1 <= |s.results[q].log|
    && (if ending.Done? then s.results[q].session.phase.Committed? else InHand(s.results[q].session.phase))
    && forall i :: 0 <= i < |s.results| && i != q && c.projectorOf(i) == w ==> PartitionIdle(s.results[i], positions[i])
  }

  ghost predicate AheadBy<T>(before: seq<Partition<T>>, positions: seq<nat>, taken: seq<nat>) {
    |positions| == |taken| == |before| && forall q :: 0 <= q < |before| ==> positions[q] == before[q].committed + taken[q]
  }

  /** The session of each partition of the process has gone on from the committed offset by as
      many records as were taken from it. */
  ghost predicate MovedOn<T>(before: seq<Partition<T>>, after: seq<Partition<T>>, owner: nat -> nat, w: nat,
                             taken: seq<nat>) {
    && |taken| == |before| == |after|
    && forall q :: 0 <= q < |after| && owner(q) == w ==>
         after[q].session.Running? && after[q].session.position == before[q].committed + taken[q]
  }

  /** What the dead-letter branch of the projector leaves. */
  ghost predicate DeadLettered(before: State, after: State, q: nat, luck: Luck) {
    && q < |before.results| && InSession(before.results[q])
    && var part := before.results[q];
       var o := part.session.phase.offset;
       if luck.deadLetter.Returns? && luck.commit.Returns?
       then after == before.(results := before.results[q := part.(
              dead := part.dead + {o}, committed := o + 1, session := part.session.(phase := Committed(o)))])
       else && after.db == before.db && SameLogs(before.results, after.results)
            && (forall i :: 0 <= i < |after.results| && i != q ==> after.results[i] == before.results[i])
            && after.results[q].dead == part.dead + (if TookEffect(luck.deadLetter) then {o} else {})
            && after.results[q].committed ==
               if luck.deadLetter.Returns? && TookEffect(luck.commit) then o + 1 else part.committed
  }

  /** A record of the log has been fetched, and nothing has been done with it. */
  ghost predicate InSession<T>(p: Partition<T>) {
    p.session.Running? && p.session.phase.Handling? && p.session.phase.offset < |p.log|
  }

  /** What the projector's loop body leaves of a record, its branch and its ending. */
  ghost predicate HandledResult(c: Config, before: State, after: State, q: nat, luck: Luck, ending: Ending) {
    && q < |before.results| && InSession(before.results[q])
    && var part := before.results[q];
       var o := part.session.phase.offset;
       match ResultVerdict(c, before.db, part.log[o], luck)
       case Fail => ending.Failed? && after == before
       case ApplyAndFail =>
         && ending.Failed?
         && after == before.(
              db := Projection(before.db, part.log[o].event, c.projector),
              results := before.results[q := part.(
                effects := part.effects + {o}, session := part.session.(phase := Effected(o)))])
       case Apply =>
         && ending == (if luck.commit.Returns? && luck.lag then Done else Failed)
         && after == before.(
              db := Projection(before.db, part.log[o].event, c.projector),
              results := before.results[q := part.(
                effects := part.effects + {o},
                committed := if TookEffect(luck.commit) then o + 1 else part.committed,
                session := part.session.(phase := if TookEffect(luck.commit) then Committed(o) else Effected(o)))])
       case DeadLetter =>
         && ending == (if luck.deadLetter.Returns? && luck.commit.Returns? then Done else Raised)
         && DeadLettered(before, after, q, luck)
  }

  function Fetched(s: State, q: nat, positions: seq<nat>): (fetched: State)
    ensures |fetched.results| == |s.results|
  {
    if q >= |s.results| || q >= |positions| || s.results[q].session.Stopped? then s
    else s.(results := s.results[q := s.results[q].(
         session := s.results[q].session.(phase := Handling(positions[q]), position := positions[q] + 1))])
  }

  lemma RecordFetched(c: Config, before: State, w: nat, q: nat, positions: seq<nat>)
    requires Waiting(before.results, c.projectorOf, w, q, positions)
    ensures q < |before.results| && InSession(Fetched(before, q, positions).results[q])
  {
  }

  /** Nothing but the session of one partition has changed. */
  ghost predicate OnlySession<T>(before: seq<Partition<T>>, after: seq<Partition<T>>, q: nat) {
    && |before| == |after| && q < |before|
    && (forall i :: 0 <= i < |after| && i != q ==> after[i] == before[i])
    && after[q] == before[q].(session := after[q].session)
  }

  /** One partition's next record was taken safely; the other partitions stay. */
  ghost predicate OneTakenSafely<T>(before: seq<Partition<T>>, after: seq<Partition<T>>, q: nat) {
    && |before| == |after| && q < |before|
    && (forall i :: 0 <= i < |after| && i != q ==> after[i] == before[i])
    && before[q].session.Running? && TakenSafely(before[q], after[q], before[q].session.position)
  }

  lemma StillTakenSafely<T>(first: seq<Partition<T>>, before: seq<Partition<T>>, after: seq<Partition<T>>, q: nat)
    requires OneTakenSafely(first, before, q) && OnlySession(before, after, q)
    ensures OneTakenSafely(first, after, q)
  {
  }

  lemma UndisturbedRecord(c: Config, before: State, after: State, w: nat, q: nat, luck: Luck, ending: Ending,
                          positions: seq<nat>)
    requires Waiting(before.results, c.projectorOf, w, q, positions) && Undisturbed(luck)
    requires HandledResult(c, Fetched(before, q, positions), after, q, luck, ending)
    ensures ending.Done? && OneTakenSafely(before.results, after.results, q)
  {
    hide ResultVerdict, Projection, IdleAt;
    UndisturbedResult(c, Fetched(before, q, positions).db, before.results[q].log[positions[q]], luck);
  }

  lemma HandledRecord(c: Config, before: State, after: State, w: nat, q: nat, luck: Luck, ending: Ending,
                      positions: seq<nat>)
    requires Waiting(before.results, c.projectorOf, w, q, positions) && FailuresOf(before.failures, w) < c.retryBudget
    requires HandledResult(c, Fetched(before, q, positions), after, q, luck, ending)
    ensures OthersStay(before.results, after.results, c.projectorOf, w)
    ensures !ending.Raised? ==> RecordOpen(c, after, w, q, ending, positions, FailuresOf(before.failures, w))
  {
    hide ResultVerdict, Projection;
  }

  function Total(counts: seq<nat>): nat {
    if counts == [] then 0 else Total(counts[..|counts| - 1]) + counts[|counts| - 1]
  }

  lemma {:induction false} OneMoreTaken(counts: seq<nat>, q: nat)
    requires q < |counts|
    ensures Total(counts[q := counts[q] + 1]) == Total(counts) + 1
  {
    var n := |counts| - 1;
    if q == n {
      assert counts[q := counts[q] + 1][..n] == counts[..n];
    } else {
      OneMoreTaken(counts[..n], q);
      assert counts[q := counts[q] + 1][..n] == counts[..n][q := counts[q] + 1];
    }
  }

  function Zeros(n: nat): (counts: seq<nat>)
    ensures |counts| == n && forall q :: 0 <= q < n ==> counts[q] == 0
  {
    seq(n, _ => 0)
  }

  function Offsets<T>(parts: seq<Partition<T>>): (offsets: seq<nat>)
    ensures |offsets| == |parts| && forall q :: 0 <= q < |parts| ==> offsets[q] == parts[q].committed
  {
    seq(|parts|, q requires 0 <= q < |parts| => parts[q].committed)
  }

  lemma {:induction false} NothingTaken(n: nat)
    ensures Total(Zeros(n)) == 0
  {
    if n > 0 {
      NothingTaken(n - 1);
      assert Zeros(n)[..n - 1] == Zeros(n - 1);
    }
  }

  lemma HaltedTogether<T>(parts: seq<Partition<T>>, owner: nat -> nat, w: nat)
    ensures OthersStay(parts, AllHalted(parts, owner, w), owner, w)
    ensures AllStopped(AllHalted(parts, owner, w), owner, w)
  {
    var halted := AllHalted(parts, owner, w);
    assert forall q :: 0 <= q < |parts| ==> halted[q] == if owner(q) == w then Halted(parts[q]) else parts[q];
  }

  lemma BegunTogether(parts: seq<Partition<ScoringResult>>, owner: nat -> nat, w: nat)
    requires forall q :: 0 <= q < |parts| ==> parts[q].committed <= |parts[q].log|
    ensures OthersStay(parts, AllBegun(parts, owner, w), owner, w)
    ensures IdleAt(AllBegun(parts, owner, w), owner, w, Offsets(parts))
  {
    var begun := AllBegun(parts, owner, w);
    assert forall q :: 0 <= q < |parts| ==> begun[q] == if owner(q) == w then Began(parts[q]) else parts[q];
  }

  /** Of each partition the process owns, the records taken had their effect or a dead letter,
      and nothing was passed over. */
  ghost predicate EachTakenSafely<T>(before: seq<Partition<T>>, after: seq<Partition<T>>, owner: nat -> nat, w: nat,
                                     taken: seq<nat>) {
    && |before| == |after| == |taken|
    && forall q :: 0 <= q < |after| && owner(q) == w ==>
         AllTakenSafely(before[q], after[q], before[q].committed, before[q].committed + taken[q])
  }

  ghost predicate RoundsUndisturbed(rounds: seq<(nat, Luck)>) {
    forall i :: 0 <= i < |rounds| ==> Undisturbed(rounds[i].1)
  }

  lemma OthersStayLonger<T>(a: seq<Partition<T>>, b: seq<Partition<T>>, d: seq<Partition<T>>, owner: nat -> nat, w: nat)
    requires OthersStay(a, b, owner, w) && OthersStay(b, d, owner, w)
    ensures OthersStay(a, d, owner, w) && |a| == |b| == |d|
  {
  }

  lemma NoneTakenYet(before: seq<Partition<ScoringResult>>, after: seq<Partition<ScoringResult>>, owner: nat -> nat, w: nat)
    requires after == AllBegun(before, owner, w)
    ensures EachTakenSafely(before, after, owner, w, Zeros(|before|))
  {
    assert forall q :: 0 <= q < |before| ==> after[q] == if owner(q) == w then Began(before[q]) else before[q];
  }

  lemma OneMoreOfEach<T>(before: seq<Partition<T>>, middle: seq<Partition<T>>, after: seq<Partition<T>>, owner: nat -> nat,
                         w: nat, positions: seq<nat>, taken: seq<nat>, q: nat)
    requires EachTakenSafely(before, middle, owner, w, taken) && OneTakenSafely(middle, after, q)
    requires AheadBy(before, positions, taken) && IdleAt(middle, owner, w, positions) && owner(q) == w
    ensures q < |taken| && EachTakenSafely(before, after, owner, w, taken[q := taken[q] + 1])
  {
    hide AllTakenSafely, TakenSafely;
    assert PartitionIdle(middle[q], positions[q]);
    OneMoreSafely(before[q], middle[q], after[q], before[q].committed, positions[q]);
  }

  lemma NobodyAhead<T>(before: seq<Partition<T>>)
    ensures AheadBy(before, Offsets(before), Zeros(|before|))
  {
  }

  lemma OneMoreAhead<T>(before: seq<Partition<T>>, positions: seq<nat>, taken: seq<nat>, q: nat)
    requires AheadBy(before, positions, taken) && q < |before|
    ensures |positions| == |taken| == |before|
    ensures AheadBy(before, positions[q := positions[q] + 1], taken[q := taken[q] + 1])
  {
  }

  lemma IdleHasMovedOn<T>(before: seq<Partition<T>>, after: seq<Partition<T>>, owner: nat -> nat, w: nat,
                          positions: seq<nat>, taken: seq<nat>)
    requires AheadBy(before, positions, taken) && IdleAt(after, owner, w, positions)
    ensures MovedOn(before, after, owner, w, taken)
  {
    forall q | 0 <= q < |after| && owner(q) == w
      ensures after[q].session.Running? && after[q].session.position == before[q].committed + taken[q]
    {
      assert PartitionIdle(after[q], positions[q]);
    }
  }

  lemma CommittedWithinLog(c: Config, s: State)
    requires Inv(c, s)
    ensures s.graph.committed <= |s.graph.log|
    ensures forall q :: 0 <= q < |s.results| ==> s.results[q].committed <= |s.results[q].log|
    ensures forall p :: 0 <= p < |s.requests| ==> s.requests[p].committed <= |s.requests[p].log|
  {
  }
}
