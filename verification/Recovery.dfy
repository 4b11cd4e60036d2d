/** When the pipeline can still come to rest: from any reachable state, whatever crashed and
    whatever was sent twice, exactly if nothing has been dead-lettered, nothing malformed has
    arrived and no committed record has been lost. */
module Recovery {
  import StreamIds
  import opened Consumers
  import opened Pipeline
  import opened PipelineInvariant
  import opened PipelineRuns
  import opened PipelineTheorems
  import opened Paths
  import opened Drains

  ghost predicate NothingDamaged(s: State) {
    && Undamaged(s.graph)
    && (forall p :: 0 <= p < |s.requests| ==> Undamaged(s.requests[p]))
    && (forall q :: 0 <= q < |s.results| ==> Undamaged(s.results[q]))
  }

  // ---- every process stops ----

  /** Some sessions have ended; nothing else has changed. */
  ghost predicate OnlyHalts<T>(before: seq<Partition<T>>, after: seq<Partition<T>>) {
    && |before| == |after|
    && forall p :: 0 <= p < |before| ==> after[p] == before[p] || after[p] == Halted(before[p])
  }

  lemma HaltsKeepUndamaged<T>(before: seq<Partition<T>>, after: seq<Partition<T>>)
    requires OnlyHalts(before, after) && forall p :: 0 <= p < |before| ==> Undamaged(before[p])
    ensures forall p :: 0 <= p < |after| ==> Undamaged(after[p])
  {
  }

  lemma StopGraph(c: Config, s: State) returns (t: State)
    requires WellFormed(c) && Inv(c, s)
    ensures Inv(c, t) && Leads(c, s, t) && t == s.(graph := Halted(s.graph))
  {
    hide WellFormed, Inv, Leads;
    if s.graph.session.Stopped? {
      LeadsToItself(c, s);
      t := s;
    } else {
      t := Go(c, s, Graph(Crash, 0));
    }
  }

  lemma {:induction false} StopWorkers(c: Config, s: State, n: nat) returns (t: State)
    requires WellFormed(c) && Inv(c, s) && n <= |s.requests|
    ensures Inv(c, t) && Leads(c, s, t) && t == s.(requests := t.requests) && OnlyHalts(s.requests, t.requests)
    ensures |t.requests| == |s.requests| && forall p :: 0 <= p < n ==> t.requests[p].session.Stopped?
  {
    hide WellFormed, Inv, Leads;
    if n == 0 {
      LeadsToItself(c, s);
      t := s;
    } else {
      var most := StopWorkers(c, s, n - 1);
      if most.requests[n - 1].session.Stopped? {
        t := most;
      } else {
        t := Go(c, most, Request(n - 1, Crash, 0.0, 0));
        LeadsOn(c, s, most, t);
      }
    }
  }

  lemma {:induction false} StopProjectors(c: Config, s: State, n: nat) returns (t: State)
    requires WellFormed(c) && Inv(c, s) && n <= |s.results|
    ensures Inv(c, t) && Leads(c, s, t) && t == s.(results := t.results) && OnlyHalts(s.results, t.results)
    ensures |t.results| == |s.results| && forall q :: 0 <= q < n ==> t.results[q].session.Stopped?
  {
    hide WellFormed, Inv, Leads;
    if n == 0 {
      LeadsToItself(c, s);
      t := s;
    } else {
      var most := StopProjectors(c, s, n - 1);
      t := Go(c, most, ProjectorCrash(c.projectorOf(n - 1)));
      LeadsOn(c, s, most, t);
      forall q | 0 <= q < |s.results|
        ensures t.results[q] == most.results[q] || t.results[q] == Halted(most.results[q])
        ensures q == n - 1 ==> t.results[q].session.Stopped?
      {
      }
    }
  }

  lemma {:induction false} StopRelays(c: Config, s: State) returns (t: State)
    requires WellFormed(c) && Inv(c, s)
    ensures Inv(c, t) && Leads(c, s, t) && t == s.(relays := map[], rolledBack := t.rolledBack)
    decreases s.relays.Keys
  {
    hide WellFormed, Inv, Leads;
    if s.relays == map[] {
      LeadsToItself(c, s);
      t := s;
    } else {
      var r :| r in s.relays;
      var fewer := Go(c, s, RelayStep(r, Rollback));
      assert fewer.relays.Keys == s.relays.Keys - {r};
      t := StopRelays(c, fewer);
      LeadsOn(c, s, fewer, t);
    }
  }

  lemma {:induction false} StopPublishers(c: Config, s: State) returns (t: State)
    requires WellFormed(c) && Inv(c, s)
    ensures Inv(c, t) && Leads(c, s, t) && t == s.(publishers := map[])
    decreases s.publishers.Keys
  {
    hide WellFormed, Inv, Leads;
    if s.publishers == map[] {
      LeadsToItself(c, s);
      t := s;
    } else {
      var r :| r in s.publishers;
      var fewer := Go(c, s, PublisherStep(r, Rollback, StreamIds.StreamId(0, 0)));
      assert fewer.publishers.Keys == s.publishers.Keys - {r};
      t := StopPublishers(c, fewer);
      LeadsOn(c, s, fewer, t);
    }
  }

  /** No process is running, and nothing is damaged. */
  ghost predicate Quiet(s: State) {
    && s.graph.session.Stopped? && AllQuiet(s.requests) && AllQuiet(s.results)
    && s.relays == map[] && s.publishers == map[]
    && NothingDamaged(s)
  }

  lemma StopAll(c: Config, s: State) returns (t: State)
    requires WellFormed(c) && Inv(c, s) && NothingDamaged(s)
    ensures Inv(c, t) && Leads(c, s, t) && Quiet(t) && t.graph.log == s.graph.log
  {
    hide WellFormed, Inv, Leads, OnlyHalts, Undamaged;
    var a := StopGraph(c, s);
    var b := StopWorkers(c, a, |a.requests|);
    var d := StopProjectors(c, b, |b.results|);
    var e := StopRelays(c, d);
    t := StopPublishers(c, e);
    LeadsOn(c, s, a, b);
    LeadsOn(c, s, b, d);
    LeadsOn(c, s, d, e);
    LeadsOn(c, s, e, t);
    HaltIsUndamaged(s.graph);
    HaltsKeepUndamaged(a.requests, b.requests);
    HaltsKeepUndamaged(b.results, d.results);
  }

  lemma HaltIsUndamaged<T>(p: Partition<T>)
    requires Undamaged(p)
    ensures Undamaged(Halted(p))
  {
  }

  // ---- every service finishes its work ----

  lemma WithinLogs(c: Config, s: State)
    requires Inv(c, s) && NothingDamaged(s)
    ensures s.graph.committed <= |s.graph.log| && AllUndamaged(s.requests) && AllUndamaged(s.results)
  {
    hide Undamaged, GraphSide, TopicMatches, LocksSound, CopiesCounted, Scored, ResultsKnown, Projections, ScoreSide, StreamSide;
  }

  lemma ArrivalsKeepQuiet<T>(before: seq<Partition<T>>, after: seq<Partition<T>>)
    requires OnlyArrivals(before, after) && AllQuiet(before) && AllUndamaged(before)
    ensures AllQuiet(after) && AllUndamaged(after)
  {
    hide Undamaged;
  }

  /** From a quiet state the services, one after the other, bring the pipeline to rest. */
  lemma FinishAll(c: Config, s: State) returns (t: State)
    requires WellFormed(c) && Inv(c, s) && AcceptsAll(c) && Quiet(s)
    ensures Inv(c, t) && Leads(c, s, t) && AtRest(t) && t.graph.log == s.graph.log
  {
    hide WellFormed, Inv, Leads, AcceptsAll, Undamaged, OnlyArrivals, AllQuiet, AllUndamaged, DrainedUpTo, Unsent, AtRest;
    WithinLogs(c, s);
    LimitsArePositive(c);
    var graph := DrainGraph(c, s);
    var sent := DrainRelay(c, graph);
    ArrivalsKeepQuiet(s.requests, sent.requests);
    NothingDrainedYet(sent.requests);
    var scored := DrainRequests(c, sent, 0);
    ArrivalsKeepQuiet(s.results, scored.results);
    NothingDrainedYet(scored.results);
    var projected := DrainResults(c, scored, 0);
    t := DrainPublisher(c, projected);
    LeadsOn(c, s, graph, sent);
    LeadsOn(c, s, sent, scored);
    LeadsOn(c, s, scored, projected);
    LeadsOn(c, s, projected, t);
    DrainedIsAtRest(c, t);
  }

  lemma LimitsArePositive(c: Config)
    requires AcceptsAll(c)
    ensures c.queueCapacity >= 1 && c.outboxBatchSize >= 1
  {
  }

  lemma NothingDrainedYet<T>(parts: seq<Partition<T>>)
    ensures DrainedUpTo(parts, 0)
  {
  }

  lemma DrainedIsAtRest(c: Config, s: State)
    requires Inv(c, s) && Drained(s.graph)
    requires DrainedUpTo(s.requests, |s.requests|) && DrainedUpTo(s.results, |s.results|)
    requires Unsent(s.db.requests) == {} && Unsent(s.db.intents) == {}
    ensures AtRest(s)
  {
    hide GraphSide, TopicMatches, LocksSound, CopiesCounted, Scored, ResultsKnown, Projections, ScoreSide, StreamSide;
    NothingIsLost(s.graph, 0);
    forall p | 0 <= p < |s.requests|
      ensures DrainedPartition(s.requests[p])
    {
      NothingIsLost(s.requests[p], c.queueCapacity);
    }
    forall q | 0 <= q < |s.results|
      ensures DrainedPartition(s.results[q])
    {
      NothingIsLost(s.results[q], 0);
    }
    forall id | id in s.db.requests
      ensures s.db.requests[id].published
    {
      assert id !in Unsent(s.db.requests);
    }
    forall id | id in s.db.intents
      ensures s.db.intents[id].published
    {
      assert id !in Unsent(s.db.intents);
    }
  }

  lemma NothingIsLost<T>(p: Partition<T>, capacity: nat)
    requires Sound(p, capacity) && Drained(p)
    ensures DrainedPartition(p)
  {
    forall o | o in p.skipped
      ensures o in p.effects
    {
      assert IsAccounted(p, o);
    }
  }

  /** From every undamaged state the pipeline can come to rest without any more batches: all
      that were produced are then scored and published. */
  lemma ComesToRest(c: Config, s: State) returns (t: State)
    requires WellFormed(c) && AcceptsAll(c) && Reachable(c, s) && NothingDamaged(s)
    ensures Leads(c, s, t) && Reachable(c, t) && AtRest(t) && t.graph.log == s.graph.log
  {
    hide WellFormed, Inv, Leads, AcceptsAll, Reachable, NothingDamaged, Quiet, AtRest;
    ReachableHolds(c, s);
    var quiet := StopAll(c, s);
    t := FinishAll(c, quiet);
    LeadsOn(c, s, quiet, t);
    ReachableOn(c, s, t);
  }

  // ---- damage lasts ----

  lemma AppliedWasUndamaged<T>(p: Partition<T>, op: Op, capacity: nat)
    requires Sound(p, capacity) && Enabled(p, op, capacity) && Undamaged(Apply(p, op, capacity))
    ensures Undamaged(p)
  {
    var q := Apply(p, op, capacity);
    assert p.dead <= q.dead && p.log == q.log;
    if p.committed > 0 {
      assert IsHandled(p, p.committed - 1);
    }
    forall o: nat | o < p.committed
      ensures o in p.effects
    {
      CommittedStays(p, op, capacity);
      assert o in q.effects;
    }
  }

  lemma CommittedStays<T>(p: Partition<T>, op: Op, capacity: nat)
    requires Sound(p, capacity) && Enabled(p, op, capacity)
    ensures p.committed <= Apply(p, op, capacity).committed
  {
  }

  /** Some partition was damaged before and is not any more. */
  ghost predicate Repairs<T>(before: seq<Partition<T>>, after: seq<Partition<T>>) {
    exists p :: 0 <= p < |before| && p < |after| && !Undamaged(before[p]) && Undamaged(after[p])
  }

  lemma OneMoved<T>(parts: seq<Partition<T>>, p: nat, moved: Partition<T>)
    requires p < |parts| && (Undamaged(moved) ==> Undamaged(parts[p]))
    ensures !Repairs(parts, parts[p := moved])
  {
    hide Undamaged;
  }

  lemma ArrivalRepairsNothing<T>(p: Partition<T>, r: Record<T>)
    requires Undamaged(Append(p, r))
    ensures Undamaged(p)
  {
    assert forall o :: 0 <= o < |p.log| ==> Append(p, r).log[o] == p.log[o];
  }

  lemma SoundParts(c: Config, s: State)
    requires Inv(c, s)
    ensures Sound(s.graph, 0)
    ensures forall p :: 0 <= p < |s.requests| ==> Sound(s.requests[p], c.queueCapacity)
    ensures forall q :: 0 <= q < |s.results| ==> Sound(s.results[q], 0)
  {
  }

  lemma GraphIsNotRepaired(c: Config, s: State, step: Step)
    requires Inv(c, s) && MayStep(c, s, step) && Undamaged(Do(c, s, step).graph)
    ensures Undamaged(s.graph)
  {
    hide Inv, Undamaged, Sound, MayMaterialize, MayScore, MayProject, MayOpen;
    SoundParts(c, s);
    match step
    case Produce(k, at) => ArrivalRepairsNothing(s.graph, Valid(c.batches[k].(producedAt := at)));
    case MalformedBatch => ArrivalRepairsNothing(s.graph, Malformed);
    case Graph(op, _) => AppliedWasUndamaged(s.graph, op, 0);
    case _ =>
  }

  lemma RequestsAreNotRepaired(c: Config, s: State, step: Step)
    requires Inv(c, s) && MayStep(c, s, step)
    ensures !Repairs(s.requests, Do(c, s, step).requests)
  {
    hide Inv, Undamaged, Sound, MayMaterialize, MayScore, MayProject, MayOpen;
    SoundParts(c, s);
    match step
    case MalformedRequest(p) =>
      if Undamaged(Append(s.requests[p], Malformed)) {
        ArrivalRepairsNothing(s.requests[p], Malformed);
      }
    case RelayStep(r, op) =>
      if op.Send? {
        SentRepairsNothing(c, s, r);
      }
    case Request(p, op, _, _) =>
      if Undamaged(Apply(s.requests[p], op, c.queueCapacity)) {
        AppliedWasUndamaged(s.requests[p], op, c.queueCapacity);
      }
    case _ =>
  }

  lemma SentRepairsNothing(c: Config, s: State, r: nat)
    requires MayStep(c, s, RelayStep(r, Send))
    ensures !Repairs(s.requests, Do(c, s, RelayStep(r, Send)).requests)
  {
    hide Undamaged;
    var message := s.db.requests[s.relays[r].rows[s.relays[r].sent]].message;
    var p := c.requestPartition(message.tx);
    if p < |s.requests| && Undamaged(Append(s.requests[p], Valid(message))) {
      ArrivalRepairsNothing(s.requests[p], Valid(message));
    }
  }

  lemma ResultsAreNotRepaired(c: Config, s: State, step: Step)
    requires Inv(c, s) && MayStep(c, s, step)
    ensures !Repairs(s.results, Do(c, s, step).results)
  {
    hide Inv, Undamaged, Sound, MayMaterialize, MayProject, MayOpen;
    SoundParts(c, s);
    match step
    case MalformedResult(q) =>
      if Undamaged(Append(s.results[q], Malformed)) {
        ArrivalRepairsNothing(s.results[q], Malformed);
      }
    case Request(p, op, probability, at) =>
      if op.Effect? {
        ScoredRepairsNothing(c, s, p, probability, at);
      }
    case Result(q, op) =>
      if Undamaged(Apply(s.results[q], op, 0)) {
        AppliedWasUndamaged(s.results[q], op, 0);
      }
    case ProjectorStart(w) => SessionsRepairNothing(s.results, c.projectorOf, w);
    case ProjectorCrash(w) => SessionsRepairNothing(s.results, c.projectorOf, w);
    case _ =>
  }

  lemma ScoredRepairsNothing(c: Config, s: State, p: nat, probability: real, at: int)
    requires MayStep(c, s, Request(p, Effect, probability, at))
    ensures !Repairs(s.results, Do(c, s, Request(p, Effect, probability, at)).results)
  {
    hide Undamaged, GraphReady;
    var r := RecordInHand(s.requests[p]).value;
    var q := c.resultPartition(r.tx);
    if Undamaged(Append(s.results[q], Valid(ResultOf(c, r, probability, at)))) {
      ArrivalRepairsNothing(s.results[q], Valid(ResultOf(c, r, probability, at)));
    }
  }

  lemma SessionsRepairNothing<T>(parts: seq<Partition<T>>, owner: nat -> nat, w: nat)
    ensures !Repairs(parts, AllBegun(parts, owner, w)) && !Repairs(parts, AllHalted(parts, owner, w))
  {
    assert forall p :: 0 <= p < |parts| ==>
             AllBegun(parts, owner, w)[p] == if owner(p) == w then Began(parts[p]) else parts[p];
    assert forall p :: 0 <= p < |parts| ==>
             AllHalted(parts, owner, w)[p] == if owner(p) == w then Halted(parts[p]) else parts[p];
  }

  lemma DamageStays(c: Config, s: State, step: Step)
    requires WellFormed(c) && Inv(c, s) && MayStep(c, s, step) && NothingDamaged(Do(c, s, step))
    ensures NothingDamaged(s)
  {
    hide WellFormed, MayStep, Do, Undamaged, Inv;
    var t := Do(c, s, step);
    GraphIsNotRepaired(c, s, step);
    RequestsAreNotRepaired(c, s, step);
    ResultsAreNotRepaired(c, s, step);
    StepKeeps(c, s, step);
    PartitionCounts(c, s);
    PartitionCounts(c, t);
  }

  lemma RestIsUndamaged(c: Config, s: State)
    requires Inv(c, s) && AtRest(s)
    ensures NothingDamaged(s)
  {
    hide TopicMatches, LocksSound, CopiesCounted, ResultsKnown, ScoreSide, StreamSide;
    DrainedIsUndamaged(s.graph, 0);
    forall p | 0 <= p < |s.requests|
      ensures Undamaged(s.requests[p])
    {
      assert RequestEffects(c, s.requests[p], s.results);
      DrainedIsUndamaged(s.requests[p], c.queueCapacity);
    }
    forall q | 0 <= q < |s.results|
      ensures Undamaged(s.results[q])
    {
      assert ResultEffects(c, s.results[q], s.db.inbox);
      DrainedIsUndamaged(s.results[q], 0);
    }
  }

  lemma DrainedIsUndamaged<T>(p: Partition<T>, capacity: nat)
    requires Sound(p, capacity) && DrainedPartition(p)
    requires forall o :: o in p.effects ==> o < |p.log| && p.log[o].Valid?
    ensures Undamaged(p)
  {
    forall o: nat | o < |p.log|
      ensures o in p.effects
    {
      DrainedIsEffected(p, capacity, o);
    }
  }

  lemma DamageLasts(c: Config, s: State, t: State)
    requires WellFormed(c) && Inv(c, s) && Leads(c, s, t) && NothingDamaged(t)
    ensures NothingDamaged(s)
  {
    hide WellFormed, MayStep, Do, NothingDamaged, Inv, Next;
    if !NothingDamaged(s) {
      forall a, step | Inv(c, a) && !NothingDamaged(a) && MayStep(c, a, step)
        ensures Inv(c, Do(c, a, step)) && !NothingDamaged(Do(c, a, step))
      {
        StepKeeps(c, a, step);
        if NothingDamaged(Do(c, a, step)) {
          DamageStays(c, a, step);
        }
      }
      var path :| IsPath(c, path) && path[0] == s && path[|path| - 1] == t;
      PathKeeps(c, path, a => Inv(c, a) && !NothingDamaged(a));
    }
  }

  /** A reachable state can still lead to rest if and only if it is undamaged: no crash, no
      repeated send and no failure that was retried stands in the way. */
  lemma RestIsReachableExactly(c: Config, s: State)
    requires WellFormed(c) && AcceptsAll(c) && Reachable(c, s)
    ensures (exists t :: Leads(c, s, t) && AtRest(t)) <==> NothingDamaged(s)
  {
    hide WellFormed, AcceptsAll, Reachable, Inv, Leads, NothingDamaged, AtRest;
    ReachableHolds(c, s);
    if NothingDamaged(s) {
      var t := ComesToRest(c, s);
    }
    if t :| Leads(c, s, t) && AtRest(t) {
      ReachableOn(c, s, t);
      ReachableHolds(c, t);
      RestIsUndamaged(c, t);
      DamageLasts(c, s, t);
    }
  }
}
