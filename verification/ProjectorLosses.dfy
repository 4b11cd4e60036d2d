/** How many results of one partition may be lost in a row. A projector has one count of
    consecutive failures for all its partitions, so the retry budget bounds the losses in a row
    of a partition exactly when its projector owns no other, or when the budget allows no
    failure to be passed over at all. */
module ProjectorLosses {
  import opened Events
  import opened Consumers
  import opened Pipeline
  import opened PipelineInvariant
  import opened PipelineRuns
  import opened PipelineTheorems
  import opened Paths

  /** The partition's projector owns no other. */
  ghost predicate SoleOwned(c: Config, q: nat) {
    forall p: nat :: p < c.resultPartitions && p != q ==> c.projectorOf(p) != c.projectorOf(q)
  }

  /** Of any `retryBudget` consecutive committed offsets of the partition one was handled. */
  ghost predicate ShortLosses(c: Config, s: State, q: nat) {
    q < |s.results| && NoLongGap(Handled(s.results[q]), c.retryBudget, s.results[q].committed)
  }

  // ---- where the bound holds ----

  /** The projector's count is that of its one partition's session. */
  ghost predicate CountSound(c: Config, s: State, q: nat) {
    && q < |s.results| && NeverLongGap(s.results[q], c.retryBudget)
    && (SoleOwned(c, q) && s.results[q].session.Running? ==>
          s.results[q].session.failures == FailuresOf(s.failures, c.projectorOf(q)))
  }

  lemma InitCounts(c: Config, q: nat)
    requires WellFormed(c) && q < c.resultPartitions
    ensures CountSound(c, Init(c), q)
  {
    FreshIsSound<ScoringResult>(0, c.retryBudget);
  }

  lemma StepKeepsCount(c: Config, s: State, step: Step, q: nat)
    requires WellFormed(c) && Inv(c, s) && MayStep(c, s, step) && CountSound(c, s, q)
    requires SoleOwned(c, q) || c.retryBudget == 1
    ensures CountSound(c, Do(c, s, step), q)
  {
    hide Inv, WellFormed, NeverLongGap, SoleOwned, MayProject, MayScore, MayMaterialize, MayOpen;
    ResultIsSound(c, s, q);
    match step
    case MalformedResult(p) => ArrivalKeepsCount(c, s, p, Malformed, q);
    case Request(_, _, _, _) => RequestKeepsCount(c, s, step, q);
    case Result(p, op) => ResultKeepsCount(c, s, p, op, q);
    case ProjectorStart(w) => BeginKeepsGaps(s.results[q], c.retryBudget);
    case ProjectorCrash(w) => BeginKeepsGaps(s.results[q], c.retryBudget);
    case _ =>
  }

  lemma RequestKeepsCount(c: Config, s: State, step: Step, q: nat)
    requires CountSound(c, s, q) && step.Request? && MayStep(c, s, step) && Sound(s.results[q], 0)
    ensures CountSound(c, Do(c, s, step), q)
  {
    hide GraphReady, CountSound, Sound;
    if step.op.Effect? {
      var r := RecordInHand(s.requests[step.partition]).value;
      ArrivalKeepsCount(c, s, c.resultPartition(r.tx), Valid(ResultOf(c, r, step.probability, step.scoredAt)), q);
      CountIgnoresRequests(c, Do(c, s, step), s.(results := Do(c, s, step).results), q);
    } else {
      CountIgnoresRequests(c, Do(c, s, step), s, q);
    }
  }

  lemma CountIgnoresRequests(c: Config, s: State, t: State, q: nat)
    requires s.results == t.results && s.failures == t.failures
    ensures CountSound(c, s, q) <==> CountSound(c, t, q)
  {
  }

  lemma ArrivalKeepsCount(c: Config, s: State, p: nat, r: Record<ScoringResult>, q: nat)
    requires CountSound(c, s, q) && p < |s.results| && Sound(s.results[q], 0)
    ensures CountSound(c, s.(results := s.results[p := Append(s.results[p], r)]), q)
  {
    hide Sound, NeverLongGap, SoleOwned;
    AppendKeepsSound(s.results[q], r, 0, c.retryBudget);
  }

  lemma ResultKeepsCount(c: Config, s: State, p: nat, op: Op, q: nat)
    requires CountSound(c, s, q) && MayStep(c, s, Result(p, op)) && Sound(s.results[q], 0)
    requires |s.results| == c.resultPartitions && (SoleOwned(c, q) || c.retryBudget == 1)
    ensures CountSound(c, Do(c, s, Result(p, op)), q)
  {
    hide Sound, NeverLongGap, MayProject;
    if p == q {
      ApplyKeepsGaps(s.results[q], op, 0, c.retryBudget);
    }
  }

  lemma ResultIsSound(c: Config, s: State, q: nat)
    requires Inv(c, s) && q < |s.results|
    ensures Sound(s.results[q], 0) && |s.results| == c.resultPartitions
  {
  }

  lemma BeginKeepsGaps<T>(p: Partition<T>, budget: nat)
    requires Sound(p, 0) && NeverLongGap(p, budget)
    ensures NeverLongGap(Began(p), budget) && NeverLongGap(Halted(p), budget)
  {
  }

  lemma CountsAreSound(c: Config, s: State, q: nat)
    requires WellFormed(c) && Reachable(c, s) && q < c.resultPartitions
    requires SoleOwned(c, q) || c.retryBudget == 1
    ensures CountSound(c, s, q)
  {
    hide Inv, WellFormed, CountSound, MayStep, Do, Next, Init, SoleOwned;
    InitHolds(c);
    InitCounts(c, q);
    var run :| IsRun(c, run) && run[|run| - 1] == s;
    forall t, step | Inv(c, t) && CountSound(c, t, q) && MayStep(c, t, step)
      ensures Inv(c, Do(c, t, step)) && CountSound(c, Do(c, t, step), q)
    {
      StepKeeps(c, t, step);
      StepKeepsCount(c, t, step, q);
    }
    assert IsPath(c, run);
    PathKeeps(c, run, t => Inv(c, t) && CountSound(c, t, q));
  }

  /** A partition whose projector owns no other, and every partition when the budget is one:
      any `retryBudget` consecutive committed offsets hold one that was projected or
      dead-lettered. */
  lemma ResultLossesAreShort(c: Config, s: State, q: nat, from: nat) returns (o: nat)
    requires WellFormed(c) && Reachable(c, s) && q < |s.results| && from + c.retryBudget <= s.results[q].committed
    requires SoleOwned(c, q) || c.retryBudget == 1
    ensures from <= o < from + c.retryBudget
    ensures o in s.results[q].dead || ResultIsProjected(c, s, q, o)
  {
    ReachableHolds(c, s);
    ResultIsSound(c, s, q);
    CountsAreSound(c, s, q);
    o := LossesAreShort(s.results[q], 0, c.retryBudget, from);
    if o in s.results[q].effects {
      EffectedResultIsProjected(c, s, q, o);
    }
  }

  // ---- where it does not ----

  /** One operation of a projector on one of its partitions. */
  lemma ResultStep(c: Config, s: State, q: nat, op: Op) returns (t: State)
    requires q < |s.results| && (op.Fetch? || op.Bury? || op.Commit? || op.Finish? || op.Skip?)
    requires Enabled(s.results[q], op, 0) && (op.Skip? ==> FailuresOf(s.failures, c.projectorOf(q)) + 1 < c.retryBudget)
    ensures Leads(c, s, t)
    ensures t == s.(results := s.results[q := Apply(s.results[q], op, 0)], failures := t.failures)
    ensures op.Finish? ==> FailuresOf(t.failures, c.projectorOf(q)) == 0
    ensures !op.Finish? && !op.Skip? ==> t.failures == s.failures
  {
    hide Leads;
    OneStep(c, s, Result(q, op));
    t := Do(c, s, Result(q, op));
  }

  /** The next record of a partition has not been taken in hand. */
  ghost predicate NextWaits<T>(p: Partition<T>) {
    && p.session.Running? && p.session.phase.Idle? && p.session.queue == [] && p.session.position < |p.log|
  }

  ghost function PassedBy<T>(p: Partition<T>): Partition<T>
    requires NextWaits(p)
  {
    p.(session := Running(p.session.position + 1, [], Idle, p.session.failures + 1),
       skipped := p.skipped + {p.session.position})
  }

  ghost function BuriedNext<T>(p: Partition<T>): Partition<T>
    requires NextWaits(p)
  {
    var o := p.session.position;
    p.(session := Running(o + 1, [], Idle, 0), committed := o + 1, dead := p.dead + {o})
  }

  lemma PassNext(c: Config, s: State, q: nat) returns (t: State)
    requires q < |s.results| && NextWaits(s.results[q]) && FailuresOf(s.failures, c.projectorOf(q)) + 1 < c.retryBudget
    ensures Leads(c, s, t) && t == s.(results := s.results[q := PassedBy(s.results[q])], failures := t.failures)
  {
    hide Leads;
    var fetched := ResultStep(c, s, q, Fetch);
    t := ResultStep(c, fetched, q, Skip);
    LeadsOn(c, s, fetched, t);
  }

  lemma BuryNext(c: Config, s: State, q: nat) returns (t: State)
    requires q < |s.results| && NextWaits(s.results[q])
    ensures Leads(c, s, t) && t == s.(results := s.results[q := BuriedNext(s.results[q])], failures := t.failures)
    ensures FailuresOf(t.failures, c.projectorOf(q)) == 0
  {
    hide Leads;
    var fetched := ResultStep(c, s, q, Fetch);
    var buried := ResultStep(c, fetched, q, Op.Bury);
    var committed := ResultStep(c, buried, q, Commit);
    t := ResultStep(c, committed, q, Finish);
    LeadsOn(c, s, fetched, buried);
    LeadsOn(c, s, buried, committed);
    LeadsOn(c, s, committed, t);
  }

  lemma {:induction false} MalformedArrive(c: Config, s: State, q: nat, n: nat) returns (t: State)
    requires q < |s.results|
    ensures Leads(c, s, t)
    ensures |t.results| == |s.results| && t == s.(results := s.results[q := s.results[q].(log := t.results[q].log)])
    ensures t.results[q].log == s.results[q].log + seq(n, _ => Malformed)
  {
    hide Leads;
    if n == 0 {
      LeadsToItself(c, s);
      t := s;
    } else {
      var before := MalformedArrive(c, s, q, n - 1);
      OneStep(c, before, MalformedResult(q));
      t := Do(c, before, MalformedResult(q));
      LeadsOn(c, s, before, t);
    }
  }

  ghost predicate PassingOver(c: Config, s: State, q: nat, other: nat) {
    && q < |s.results| && other < |s.results| && q != other && c.projectorOf(q) == c.projectorOf(other)
    && NextWaits(s.results[q]) && NextWaits(s.results[other])
    && FailuresOf(s.failures, c.projectorOf(q)) == 0 && c.retryBudget >= 2
  }

  /** The session of a partition `n` records further, all of them passed over. */
  ghost predicate PassedMany<T>(before: Partition<T>, after: Partition<T>, n: nat) {
    && before.session.Running? && after.session.Running?
    && after == before.(session := after.session, skipped := after.skipped)
    && after.session.position == before.session.position + n
    && after.session.phase.Idle? && after.session.queue == []
    && (forall o: nat :: o in after.skipped <==>
          o in before.skipped || before.session.position <= o < before.session.position + n)
  }

  /** Records of one partition are passed over while dead letters of another clear the count. */
  lemma {:induction false} PassMany(c: Config, s: State, q: nat, other: nat, n: nat) returns (t: State)
    requires PassingOver(c, s, q, other) && n > 0
    requires s.results[q].session.position + n < |s.results[q].log|
    requires s.results[other].session.position + n <= |s.results[other].log|
    ensures Leads(c, s, t) && |t.results| == |s.results| && PassedMany(s.results[q], t.results[q], n)
    decreases n
  {
    hide Leads;
    var passed := PassNext(c, s, q);
    var cleared := BuryNext(c, passed, other);
    LeadsOn(c, s, passed, cleared);
    if n == 1 {
      t := cleared;
    } else {
      t := PassMany(c, cleared, q, other, n - 1);
      LeadsOn(c, s, cleared, t);
    }
  }

  /** The partitions of one projector can be passed over without bound: from any state in which
      it owns a second partition with nothing to do, it can go on until every record that waits
      in the first is committed, none of them projected or dead-lettered. */
  lemma BacklogCanBeLost(c: Config, s: State, q: nat, other: nat) returns (t: State)
    requires WellFormed(c) && Reachable(c, s) && c.retryBudget >= 2
    requires q < |s.results| && other < |s.results| && q != other && c.projectorOf(q) == c.projectorOf(other)
    requires s.results[other].committed == |s.results[other].log|
    ensures Leads(c, s, t) && |t.results| == |s.results|
    ensures var before, after := s.results[q], t.results[q];
            && before.log <= after.log && after.committed > |before.log|
            && after.effects == before.effects && after.dead == before.dead + {|before.log|}
  {
    hide Leads, Inv, Reachable, WellFormed;
    ReachableHolds(c, s);
    ResultIsSound(c, s, q);
    var n := |s.results[q].log| - s.results[q].committed;
    var begun := BeginBacklog(c, s, q, other, n);
    var passed := begun;
    if n > 0 {
      passed := PassMany(c, begun, q, other, n);
      LeadsOn(c, s, begun, passed);
    }
    t := BuryNext(c, passed, q);
    LeadsOn(c, s, passed, t);
  }

  /** The projector restarts, after one malformed record has arrived in the first partition and
      some in the second. */
  lemma BeginBacklog(c: Config, s: State, q: nat, other: nat, n: nat) returns (t: State)
    requires q < |s.results| && other < |s.results| && q != other && c.projectorOf(q) == c.projectorOf(other)
    ensures Leads(c, s, t) && |t.results| == |s.results| && FailuresOf(t.failures, c.projectorOf(q)) == 0
    ensures t.results[q] == Began(s.results[q].(log := s.results[q].log + [Malformed]))
    ensures t.results[other] == Began(s.results[other].(log := s.results[other].log + seq(n, _ => Malformed)))
  {
    hide Leads;
    var w := c.projectorOf(q);
    OneStep(c, s, ProjectorCrash(w));
    var halted := Do(c, s, ProjectorCrash(w));
    var one := MalformedArrive(c, halted, q, 1);
    var more := MalformedArrive(c, one, other, n);
    OneStep(c, more, ProjectorStart(w));
    t := Do(c, more, ProjectorStart(w));
    LeadsOn(c, s, halted, one);
    LeadsOn(c, s, one, more);
    LeadsOn(c, s, more, t);
  }

  /** With a second partition to clear the count, a partition can lose any backlog it has: here
      a whole budget of records, from the start. */
  lemma SharedLosesBudget(c: Config, q: nat, other: nat) returns (t: State)
    requires WellFormed(c) && c.retryBudget >= 2
    requires q < c.resultPartitions && other < c.resultPartitions && q != other && c.projectorOf(q) == c.projectorOf(other)
    ensures Reachable(c, t) && q < |t.results| && !ShortLosses(c, t, q)
  {
    hide Leads, Reachable, WellFormed;
    StartIsReachable(c);
    var start := MalformedArrive(c, Init(c), q, c.retryBudget);
    ReachableOn(c, Init(c), start);
    t := BacklogCanBeLost(c, start, q, other);
    ReachableOn(c, start, t);
    assert !HasHandled(Handled(t.results[q]), 0, c.retryBudget);
  }

  /** The retry budget bounds the losses in a row of a result partition, in every reachable
      state, if and only if its projector owns no other partition or the budget is one. */
  lemma LossesAreShortExactly(c: Config, q: nat)
    requires WellFormed(c) && q < c.resultPartitions
    ensures (forall s :: Reachable(c, s) ==> ShortLosses(c, s, q)) <==> SoleOwned(c, q) || c.retryBudget == 1
  {
    hide Reachable, WellFormed, ShortLosses;
    if SoleOwned(c, q) || c.retryBudget == 1 {
      forall s | Reachable(c, s)
        ensures ShortLosses(c, s, q)
      {
        CountsAreSound(c, s, q);
        CountsMeanShort(c, s, q);
      }
    } else {
      var other: nat :| other < c.resultPartitions && other != q && c.projectorOf(other) == c.projectorOf(q);
      BudgetIsPositive(c);
      var t := SharedLosesBudget(c, q, other);
    }
  }

  lemma CountsMeanShort(c: Config, s: State, q: nat)
    requires CountSound(c, s, q)
    ensures ShortLosses(c, s, q)
  {
  }

  lemma BudgetIsPositive(c: Config)
    requires WellFormed(c)
    ensures c.retryBudget >= 1
  {
  }
}
