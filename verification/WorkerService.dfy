/** The inference worker: its bounded queue, and its retries of one request. */
module WorkerService {
  import opened Events
  import opened Options
  import opened Consumers
  import opened Pipeline
  import opened PipelineInvariant
  import opened PipelineTheorems
  import opened Services

  /** What one attempt comes to: scored, sent and committed; an error raised once the send
      took effect, or once the commit did (by that call itself or a later one); a permanent
      error; any other error before the send took effect. Each attempt that sends has asked
      the model anew. */
  datatype Attempt =
    | Complete(probability: real, scoredAt: int)
    | SentThenRaised(probability: real, scoredAt: int)
    | CommittedThenRaised(probability: real, scoredAt: int)
    | Permanent
    | Transient

  predicate Sends(a: Attempt) {
    a.Complete? || a.SentThenRaised? || a.CommittedThenRaised?
  }

  /** The attempts that sent, in order. */
  function SentOf(attempts: seq<Attempt>): seq<Attempt> {
    if attempts == [] then []
    else
      var last := attempts[|attempts| - 1];
      SentOf(attempts[..|attempts| - 1]) + if Sends(last) then [last] else []
  }

  /** Attempts are looked at one by one and in order. */
  lemma {:induction false} SentOfParts(first: seq<Attempt>, rest: seq<Attempt>)
    ensures SentOf(first + rest) == SentOf(first) + SentOf(rest)
  {
    if rest == [] {
      assert first + rest == first;
    } else {
      var front, last := rest[..|rest| - 1], rest[|rest| - 1];
      SentOfParts(first, front);
      assert (first + rest)[..|first + rest| - 1] == first + front;
      var more := if Sends(last) then [last] else [];
      assert (SentOf(first) + SentOf(front)) + more == SentOf(first) + (SentOf(front) + more);
    }
  }

  /** Each that sent counts once, and no other. */
  lemma SentOfOne(a: Attempt)
    ensures SentOf([a]) == if Sends(a) then [a] else []
  {
    assert [a][..0] == [];
  }

  /** The attempts made: up to the first that completes or is permanent. */
  function Tries(attempts: seq<Attempt>): (n: nat)
    ensures n <= |attempts|
    ensures forall i :: 0 <= i < n - 1 ==> !attempts[i].Complete? && !attempts[i].Permanent?
    ensures n == |attempts| || (n > 0 && (attempts[n - 1].Complete? || attempts[n - 1].Permanent?))
  {
    if attempts == [] then 0
    else if attempts[0].Complete? || attempts[0].Permanent? then 1
    else 1 + Tries(attempts[1..])
  }

  /** The message is the result of the request, with what the model said on that attempt. */
  ghost predicate Carries(c: Config, message: Record<ScoringResult>, r: ScoringRequest, a: Attempt) {
    && Sends(a) && message.Valid?
    && message.event.eventId == Completed(r.eventId, c.model)
    && message.event.tx == r.tx && message.event.watermark == r.watermark
    && message.event.model == c.model && message.event.featureSchema == c.featureSchema
    && message.event.probability == a.probability && message.event.scoredAt == a.scoredAt
  }

  /** What was appended between two states to the partition of the request's transaction: the
      result of each attempt that sent. */
  ghost predicate SentCopies(c: Config, before: State, after: State, r: ScoringRequest, sent: seq<Attempt>) {
    var q := c.resultPartition(r.tx);
    && q < |before.results| == |after.results|
    && after.results == before.results[q := before.results[q].(log := after.results[q].log)]
    && before.results[q].log <= after.results[q].log
    && |after.results[q].log| == |before.results[q].log| + |sent|
    && (forall i :: 0 <= i < |sent| ==> Carries(c, after.results[q].log[|before.results[q].log| + i], r, sent[i]))
  }

  /** The worker's partition after some attempts at the record at offset `o`. */
  ghost predicate Attempted(c: Config, before: State, after: State, p: nat, o: nat, r: ScoringRequest, sent: seq<Attempt>) {
    && p < |before.requests| == |after.requests|
    && after.requests[p].log == before.requests[p].log
    && after.requests[p].dead == before.requests[p].dead
    && after.requests[p].effects == before.requests[p].effects + (if sent != [] then {o} else {})
    && after.db == before.db
    && SentCopies(c, before, after, r, sent)
  }

  // ---- the queue ----

  function Polled<T>(part: Partition<T>, count: nat): Partition<T> {
    if part.session.Stopped? then part
    else
      var session := part.session;
      part.(session := session.(queue := session.queue + Range(session.position, session.position + count),
                                position := session.position + count))
  }

  /** The first `n` partitions after a poll of process `w` that returned so many records of
      each of its own. */
  function PolledUpTo<T>(parts: seq<Partition<T>>, owner: nat -> nat, w: nat, counts: seq<nat>, n: nat)
    : (polled: seq<Partition<T>>)
    requires |counts| == |parts|
    ensures |polled| == |parts|
  {
    seq(|parts|, p requires 0 <= p < |parts| => if p < n && owner(p) == w then Polled(parts[p], counts[p]) else parts[p])
  }

  /** What the client library promises of a poll: at most the records asked for, of partitions
      the process owns, each one present in the log after the session's position. */
  ghost predicate Fetches<T>(parts: seq<Partition<T>>, owner: nat -> nat, w: nat, asked: nat, counts: seq<nat>) {
    && |counts| == |parts| && Total(counts) <= asked
    && forall p :: 0 <= p < |parts| ==>
         if owner(p) == w then parts[p].session.Running? && parts[p].session.position + counts[p] <= |parts[p].log|
         else counts[p] == 0
  }

  /** One turn of a worker's poller. The queue is shared by all its partitions: the poll asks
      for no more records than the queue has room for over all of them, and what it returns is
      queued in each partition's order. */
  method PollIntoQueue(rt: Runtime, w: nat, maxPollRecords: nat, fetch: nat -> seq<nat>)
    requires rt.Valid() && forall asked :: Fetches(rt.s.requests, rt.c.workerOf, w, asked, fetch(asked))
    modifies rt
    ensures rt.Valid()
    ensures var before := old(rt.s);
            var room := rt.c.queueCapacity - Queued(before.requests, rt.c.workerOf, w);
            if room == 0 then rt.s == before
            else
              var counts := fetch(if maxPollRecords <= room then maxPollRecords else room);
              && |counts| == |before.requests|
              && rt.s == before.(requests := PolledUpTo(before.requests, rt.c.workerOf, w, counts, |counts|))
              && Queued(rt.s.requests, rt.c.workerOf, w)
                 == Queued(before.requests, rt.c.workerOf, w) + Total(counts) <= rt.c.queueCapacity
  {
    hide Inv, Reachable, Fetches, Polled;
    QueueIsBounded(rt.c, rt.s, w);
    var room := rt.c.queueCapacity - Queued(rt.s.requests, rt.c.workerOf, w);
    if room == 0 {
      return;
    }
    var asked := if maxPollRecords <= room then maxPollRecords else room;
    var counts := fetch(asked);
    PutAll(rt, w, counts, asked);
  }

  /** The records of one poll go into the queue, partition by partition. */
  method PutAll(rt: Runtime, w: nat, counts: seq<nat>, asked: nat)
    requires rt.Valid() && Fetches(rt.s.requests, rt.c.workerOf, w, asked, counts)
    requires Queued(rt.s.requests, rt.c.workerOf, w) + asked <= rt.c.queueCapacity
    modifies rt
    ensures rt.Valid() && |counts| == |old(rt.s.requests)|
    ensures rt.s == old(rt.s).(requests := PolledUpTo(old(rt.s.requests), rt.c.workerOf, w, counts, |counts|))
    ensures Queued(rt.s.requests, rt.c.workerOf, w)
            == Queued(old(rt.s.requests), rt.c.workerOf, w) + Total(counts) <= rt.c.queueCapacity
  {
    hide Inv, Reachable, WellFormed, Fetches, Polled, PolledUpTo, Queued;
    ghost var before := rt.s;
    var n := |rt.s.requests|;
    FetchesFit(before.requests, rt.c.workerOf, w, asked, counts);
    for p := 0 to n
      invariant |rt.s.requests| == n && rt.Valid()
      invariant rt.s == before.(requests := PolledUpTo(before.requests, rt.c.workerOf, w, counts, p))
      invariant Queued(rt.s.requests, rt.c.workerOf, w) == Queued(before.requests, rt.c.workerOf, w) + Total(counts[..p])
    {
      FetchFits(before.requests, rt.c.workerOf, w, asked, counts, p);
      OneMorePolled(before.requests, rt.c.workerOf, w, counts, p);
      if rt.c.workerOf(p) == w {
        PutRecords(rt, p, counts[p]);
      }
    }
    assert counts[..n] == counts;
  }

  method PutRecords(rt: Runtime, p: nat, count: nat)
    requires rt.Valid() && p < |rt.s.requests| && rt.s.requests[p].session.Running?
    requires rt.s.requests[p].session.position + count <= |rt.s.requests[p].log|
    requires Queued(rt.s.requests, rt.c.workerOf, rt.c.workerOf(p)) + count <= rt.c.queueCapacity
    modifies rt
    ensures rt.Valid()
    ensures rt.s == old(rt.s).(requests := old(rt.s).requests[p := Polled(old(rt.s).requests[p], count)])
    ensures Queued(rt.s.requests, rt.c.workerOf, rt.c.workerOf(p))
            == Queued(old(rt.s.requests), rt.c.workerOf, rt.c.workerOf(p)) + count
  {
    hide Inv, Reachable;
    QueuedByUpdate(rt.s.requests, rt.c.workerOf, rt.c.workerOf(p), p, Polled(rt.s.requests[p], count));
    ShareOfQueue(rt.s.requests, rt.c.workerOf, p);
    rt.Take(Request(p, Poll(count), 0.0, 0));
  }

  /** One partition's share of the queue is not more than the whole. */
  lemma {:induction false} ShareOfQueue<T>(parts: seq<Partition<T>>, owner: nat -> nat, p: nat)
    requires p < |parts|
    ensures QueueLength(parts[p]) <= Queued(parts, owner, owner(p))
  {
    if p < |parts| - 1 {
      ShareOfQueue(parts[..|parts| - 1], owner, p);
    }
  }

  lemma OneMorePolled<T>(parts: seq<Partition<T>>, owner: nat -> nat, w: nat, counts: seq<nat>, p: nat)
    requires p < |parts| == |counts|
    ensures PolledUpTo(parts, owner, w, counts, p + 1)
            == if owner(p) == w then PolledUpTo(parts, owner, w, counts, p)[p := Polled(parts[p], counts[p])]
               else PolledUpTo(parts, owner, w, counts, p)
  {
  }

  lemma FetchesFit<T>(parts: seq<Partition<T>>, owner: nat -> nat, w: nat, asked: nat, counts: seq<nat>)
    requires Fetches(parts, owner, w, asked, counts)
    ensures |counts| == |parts| && Total(counts) <= asked && PolledUpTo(parts, owner, w, counts, 0) == parts
  {
  }

  lemma FetchFits<T>(parts: seq<Partition<T>>, owner: nat -> nat, w: nat, asked: nat, counts: seq<nat>, p: nat)
    requires Fetches(parts, owner, w, asked, counts) && p < |parts|
    ensures if owner(p) == w then parts[p].session.Running? && parts[p].session.position + counts[p] <= |parts[p].log|
            else counts[p] == 0
    ensures PolledUpTo(parts, owner, w, counts, p)[p] == parts[p]
    ensures Total(counts[..p + 1]) == Total(counts[..p]) + counts[p] <= asked
  {
    assert counts[..p + 1][..p] == counts[..p];
    TotalGrows(counts, p + 1);
  }

  lemma {:induction false} TotalGrows(counts: seq<nat>, n: nat)
    requires n <= |counts|
    ensures Total(counts[..n]) <= Total(counts)
  {
    if n < |counts| {
      TotalGrows(counts[..|counts| - 1], n);
      assert counts[..|counts| - 1][..n] == counts[..n];
    } else {
      assert counts[..n] == counts;
    }
  }

  lemma QueueIsBounded(c: Config, s: State, w: nat)
    requires Inv(c, s)
    ensures Queued(s.requests, c.workerOf, w) <= c.queueCapacity
  {
  }

  /** One pass through the try block of the retry loop. */
  method Try(rt: Runtime, p: nat, attempt: Attempt)
    requires rt.Valid() && p < |rt.s.requests| && rt.s.requests[p].session.Running?
    requires InHand(rt.s.requests[p].session.phase) && RecordInHand(rt.s.requests[p]).Some?
    requires RecordInHand(rt.s.requests[p]).value.featureSchema == rt.c.featureSchema
    modifies rt
    ensures rt.Valid()
    ensures var before := old(rt.s);
            var part := before.requests[p];
            var r := RecordInHand(part).value;
            && Attempted(rt.c, before, rt.s, p, part.session.phase.offset, r, if Sends(attempt) then [attempt] else [])
            && rt.s.requests[p].session.Running?
            && (if attempt.Complete? then rt.s.requests[p].session.phase.Idle?
                else InHand(rt.s.requests[p].session.phase)
                     && rt.s.requests[p].session.phase.offset == part.session.phase.offset)
            && (attempt.Complete? || attempt.CommittedThenRaised? ==> rt.s.requests[p].committed == part.session.phase.offset + 1)
            && (!attempt.Complete? && !attempt.CommittedThenRaised? ==> rt.s.requests[p].committed == part.committed)
  {
    hide Inv, Reachable, MayStep, Do, Attempted;
    PartitionCounts(rt.c, rt.s);
    ghost var before, r, o := rt.s, RecordInHand(rt.s.requests[p]).value, rt.s.requests[p].session.phase.offset;
    NothingAttempted(rt.c, rt.s, p, o, r);
    if Sends(attempt) {
      Send(rt, p, attempt);
      if attempt.SentThenRaised? {
        return;
      }
      ghost var sent := rt.s;
      CommitRecord(rt, p);
      MovesAttemptNothing(rt.c, before, sent, rt.s, p, o, r, [attempt]);
      if attempt.CommittedThenRaised? {
        return;
      }
      FinishRecord(rt, p);
      MovesAttemptNothing(rt.c, before, sent, rt.s, p, o, r, [attempt]);
    }
  }

  method CommitRecord(rt: Runtime, p: nat)
    requires rt.Valid() && p < |rt.s.requests| && rt.s.requests[p].session.Running?
    requires rt.s.requests[p].session.phase.Effected? || rt.s.requests[p].session.phase.Buried?
    modifies rt
    ensures rt.Valid()
    ensures var part := old(rt.s).requests[p];
            var o := part.session.phase.offset;
            rt.s == old(rt.s).(requests := old(rt.s).requests[p := part.(
              committed := o + 1, session := part.session.(phase := Committed(o)))])
  {
    hide Inv, Reachable, GraphReady;
    rt.Take(Request(p, Commit, 0.0, 0));
  }

  method FinishRecord(rt: Runtime, p: nat)
    requires rt.Valid() && p < |rt.s.requests| && rt.s.requests[p].session.Running?
    requires rt.s.requests[p].session.phase.Committed?
    modifies rt
    ensures rt.Valid()
    ensures var part := old(rt.s).requests[p];
            rt.s == old(rt.s).(requests := old(rt.s).requests[p := part.(
              session := part.session.(phase := Idle, failures := 0))])
  {
    hide Inv, Reachable, GraphReady;
    rt.Take(Request(p, Finish, 0.0, 0));
  }

  lemma NothingAttempted(c: Config, s: State, p: nat, o: nat, r: ScoringRequest)
    requires WellFormed(c) && p < |s.requests| && |s.results| == c.resultPartitions
    ensures Attempted(c, s, s, p, o, r, [])
  {
  }

  lemma MovesAttemptNothing(c: Config, before: State, middle: State, after: State, p: nat, o: nat, r: ScoringRequest,
                            sent: seq<Attempt>)
    requires Attempted(c, before, middle, p, o, r, sent)
    requires after.db == middle.db && after.results == middle.results
    requires p < |after.requests| == |middle.requests|
    requires after.requests[p].log == middle.requests[p].log && after.requests[p].dead == middle.requests[p].dead
    requires after.requests[p].effects == middle.requests[p].effects
    ensures Attempted(c, before, after, p, o, r, sent)
  {
  }

  /** Query, predict and send: the request's result goes to the partition of its transaction. */
  method Send(rt: Runtime, p: nat, attempt: Attempt)
    requires rt.Valid() && p < |rt.s.requests| && rt.s.requests[p].session.Running?
    requires InHand(rt.s.requests[p].session.phase) && RecordInHand(rt.s.requests[p]).Some?
    requires RecordInHand(rt.s.requests[p]).value.featureSchema == rt.c.featureSchema
    requires Sends(attempt)
    modifies rt
    ensures rt.Valid()
    ensures var before := old(rt.s);
            var part := before.requests[p];
            var r := RecordInHand(part).value;
            && Attempted(rt.c, before, rt.s, p, part.session.phase.offset, r, [attempt])
            && |rt.s.requests| == |before.requests|
            && rt.s.requests[p] == part.(
                 effects := part.effects + {part.session.phase.offset},
                 session := part.session.(phase := Effected(part.session.phase.offset)))
  {
    hide Inv, Reachable, MayStep, Do, Attempted;
    MaySend(rt.c, rt.s, p, attempt.probability, attempt.scoredAt);
    SendFacts(rt.c, rt.s, p, attempt);
    rt.Take(Request(p, Effect, attempt.probability, attempt.scoredAt));
  }

  lemma MaySend(c: Config, s: State, p: nat, probability: real, scoredAt: int)
    requires WellFormed(c) && Inv(c, s) && p < |s.requests| && s.requests[p].session.Running?
    requires InHand(s.requests[p].session.phase) && RecordInHand(s.requests[p]).Some?
    requires RecordInHand(s.requests[p]).value.featureSchema == c.featureSchema
    ensures MayStep(c, s, Request(p, Effect, probability, scoredAt))
  {
    hide Inv, Reachable, GraphReady;
    TopicRequestIsReady(c, s, p, s.requests[p].session.phase.offset);
    PartitionCounts(c, s);
  }

  lemma SendFacts(c: Config, s: State, p: nat, attempt: Attempt)
    requires Sends(attempt) && MayStep(c, s, Request(p, Effect, attempt.probability, attempt.scoredAt))
    ensures var after := Do(c, s, Request(p, Effect, attempt.probability, attempt.scoredAt));
            var part := s.requests[p];
            var o := part.session.phase.offset;
            && Attempted(c, s, after, p, o, RecordInHand(part).value, [attempt])
            && |after.requests| == |s.requests|
            && after.requests[p] == part.(effects := part.effects + {o}, session := part.session.(phase := Effected(o)))
  {
    hide GraphReady;
  }

  /** The request in hand is attempted until it completes, fails for good or runs out of
      attempts; in the last two cases it is dead-lettered before its offset is committed.
      Only unreadable headers and an error while dead-lettering end the process, with the
      sessions of all its partitions. */
  method ProcessRecord(rt: Runtime, p: nat, headers: bool, attempts: seq<Attempt>,
                       deadLetter: Call, commit: Call)
    returns (scored: bool, raised: bool)
    requires rt.Valid() && p < |rt.s.requests| && rt.s.requests[p].session.Running?
    requires rt.s.requests[p].session.phase.Handling? && rt.s.requests[p].session.phase.offset < |rt.s.requests[p].log|
    requires |attempts| == rt.c.retryBudget
    modifies rt
    ensures rt.Valid() && |rt.s.requests| == |old(rt.s.requests)|
    ensures raised ==> AllStopped(rt.s.requests, rt.c.workerOf, rt.c.workerOf(p))
    ensures var part := old(rt.s).requests[p];
            var o := part.session.phase.offset;
            && rt.s.db == old(rt.s).db
            && (!raised ==> rt.s.requests[p].committed == o + 1 && rt.s.requests[p].session.Running?
                            && rt.s.requests[p].session.phase.Idle?)
            && var unreadable := part.log[o].Valid? && !headers;
            && (raised <==> unreadable || (!scored && !(deadLetter.Returns? && commit.Returns?)))
            && (unreadable ==> rt.s.requests[p] == Halted(part) && rt.s.results == old(rt.s).results)
            && (!scored && !unreadable ==>
                  rt.s.requests[p].dead == part.dead + (if TookEffect(deadLetter) then {o} else {}))
            && (raised && !unreadable && deadLetter.Returns? && TookEffect(commit) ==> rt.s.requests[p].committed == o + 1)
            && (scored ==> rt.s.requests[p].dead == part.dead && o in rt.s.requests[p].effects)
            && (scored <==> part.log[o].Valid? && headers && part.log[o].event.featureSchema == rt.c.featureSchema
                            && Tries(attempts) > 0 && attempts[Tries(attempts) - 1].Complete?)
            && (part.log[o].Valid? && headers ==> SentCopies(rt.c, old(rt.s), rt.s, part.log[o].event,
                  if part.log[o].event.featureSchema == rt.c.featureSchema then SentOf(attempts[..Tries(attempts)]) else []))
  {
    hide Inv, Reachable, MayStep, Do, WellFormed, Carries, Tries, SentOf, SentCopies;
    ghost var before := rt.s;
    var offset := rt.s.requests[p].session.phase.offset;
    if rt.s.requests[p].log[offset].Malformed? {
      raised := Bury(rt, p, deadLetter, commit);
      return false, raised;
    }
    if !headers {
      StopWorker(rt, rt.c.workerOf(p));
      return false, true;
    }
    var r := rt.s.requests[p].log[offset].event;
    NothingSent(rt.c, rt.s, r);
    if r.featureSchema == rt.c.featureSchema {
      scored := AttemptAll(rt, p, attempts);
      if scored {
        return true, false;
      }
    }
    ghost var middle := rt.s;
    raised := Bury(rt, p, deadLetter, commit);
    SentCopiesStay(rt.c, before, middle, rt.s, r);
    scored := false;
  }

  lemma NothingSent(c: Config, s: State, r: ScoringRequest)
    requires WellFormed(c) && Inv(c, s)
    ensures SentCopies(c, s, s, r, [])
  {
    hide Inv;
    PartitionCounts(c, s);
  }

  lemma SentCopiesStay(c: Config, before: State, middle: State, after: State, r: ScoringRequest)
    requires after.results == middle.results
    ensures forall sent :: SentCopies(c, before, middle, r, sent) ==> SentCopies(c, before, after, r, sent)
  {
    hide Carries;
  }

  /** The retry loop: the outcome of the last attempt made decides. */
  method AttemptAll(rt: Runtime, p: nat, attempts: seq<Attempt>) returns (scored: bool)
    requires rt.Valid() && p < |rt.s.requests| && rt.s.requests[p].session.Running?
    requires rt.s.requests[p].session.phase.Handling? && RecordInHand(rt.s.requests[p]).Some?
    requires RecordInHand(rt.s.requests[p]).value.featureSchema == rt.c.featureSchema
    modifies rt
    ensures rt.Valid()
    ensures scored <==> Tries(attempts) > 0 && attempts[Tries(attempts) - 1].Complete?
    ensures var before := old(rt.s);
            var part := before.requests[p];
            var o := part.session.phase.offset;
            && Attempted(rt.c, before, rt.s, p, o, RecordInHand(part).value, SentOf(attempts[..Tries(attempts)]))
            && rt.s.requests[p].session.Running?
            && (if scored then rt.s.requests[p].session.phase.Idle? && rt.s.requests[p].committed == o + 1
                               && o in rt.s.requests[p].effects
                else InHand(rt.s.requests[p].session.phase) && rt.s.requests[p].session.phase.offset == o)
  {
    hide Inv, Reachable, MayStep, Do, SentCopies;
    PartitionCounts(rt.c, rt.s);
    ghost var before := rt.s;
    ghost var offset := rt.s.requests[p].session.phase.offset;
    ghost var r := RecordInHand(rt.s.requests[p]).value;
    NothingAttempted(rt.c, rt.s, p, offset, r);
    var attempt := 0;
    while attempt < |attempts|
      invariant attempt <= |attempts|
      invariant forall i :: 0 <= i < attempt ==> !attempts[i].Complete? && !attempts[i].Permanent?
      invariant rt.Valid()
      invariant Attempted(rt.c, before, rt.s, p, offset, r, SentOf(attempts[..attempt]))
      invariant rt.s.requests[p].session.Running? && InHand(rt.s.requests[p].session.phase)
      invariant rt.s.requests[p].session.phase.offset == offset
    {
      TryNext(rt, p, attempts, attempt, before, r);
      TriesReach(attempts, attempt);
      attempt := attempt + 1;
      if attempts[attempt - 1].Complete? {
        return true;
      }
      if attempts[attempt - 1].Permanent? {
        return false;
      }
    }
    assert attempts[..|attempts|] == attempts;
    return false;
  }

  method TryNext(rt: Runtime, p: nat, attempts: seq<Attempt>, attempt: nat, ghost before: State, ghost r: ScoringRequest)
    requires rt.Valid() && p < |rt.s.requests| && rt.s.requests[p].session.Running? && attempt < |attempts|
    requires InHand(rt.s.requests[p].session.phase) && RecordInHand(rt.s.requests[p]) == Some(r)
    requires r.featureSchema == rt.c.featureSchema
    requires Attempted(rt.c, before, rt.s, p, rt.s.requests[p].session.phase.offset, r, SentOf(attempts[..attempt]))
    modifies rt
    ensures rt.Valid()
    ensures var o := old(rt.s).requests[p].session.phase.offset;
            && Attempted(rt.c, before, rt.s, p, o, r, SentOf(attempts[..attempt + 1]))
            && rt.s.requests[p].session.Running?
            && (if attempts[attempt].Complete?
                then rt.s.requests[p].session.phase.Idle? && rt.s.requests[p].committed == o + 1
                else InHand(rt.s.requests[p].session.phase) && rt.s.requests[p].session.phase.offset == o)
  {
    hide Inv, Reachable, MayStep, Do, SentCopies;
    ghost var middle := rt.s;
    Try(rt, p, attempts[attempt]);
    assert attempts[..attempt + 1][..attempt] == attempts[..attempt];
    AttemptsAdd(rt.c, before, middle, rt.s, p, middle.requests[p].session.phase.offset, r, SentOf(attempts[..attempt]),
                if Sends(attempts[attempt]) then [attempts[attempt]] else []);
  }

  lemma {:induction false} TriesReach(attempts: seq<Attempt>, n: nat)
    requires n < |attempts| && forall i :: 0 <= i < n ==> !attempts[i].Complete? && !attempts[i].Permanent?
    ensures n < Tries(attempts)
    ensures attempts[n].Complete? || attempts[n].Permanent? ==> Tries(attempts) == n + 1
  {
    if n > 0 {
      TriesReach(attempts[1..], n - 1);
    }
  }

  lemma AttemptsAdd(c: Config, before: State, middle: State, after: State, p: nat, o: nat, r: ScoringRequest,
                    some: seq<Attempt>, more: seq<Attempt>)
    requires Attempted(c, before, middle, p, o, r, some) && Attempted(c, middle, after, p, o, r, more)
    ensures Attempted(c, before, after, p, o, r, some + more)
  {
  }

  method Bury(rt: Runtime, p: nat, deadLetter: Call, commit: Call) returns (raised: bool)
    requires rt.Valid() && p < |rt.s.requests| && rt.s.requests[p].session.Running?
    requires InHand(rt.s.requests[p].session.phase)
    modifies rt
    ensures rt.Valid()
    ensures raised <==> !(deadLetter.Returns? && commit.Returns?)
    ensures var before := old(rt.s);
            var part := before.requests[p];
            var o := part.session.phase.offset;
            var left := part.(
              dead := part.dead + (if TookEffect(deadLetter) then {o} else {}),
              committed := if deadLetter.Returns? && TookEffect(commit) then o + 1 else part.committed);
            if raised
            then && OthersStay(before.requests, rt.s.requests, rt.c.workerOf, rt.c.workerOf(p))
                 && AllStopped(rt.s.requests, rt.c.workerOf, rt.c.workerOf(p))
                 && rt.s == before.(requests := rt.s.requests) && rt.s.requests[p] == Halted(left)
            else rt.s == before.(requests := before.requests[p := left.(
                   session := part.session.(phase := Idle, failures := 0))])
  {
    hide Inv, Reachable;
    PublishDeadLetter(rt, p, deadLetter);
    if deadLetter.Returns? && TookEffect(commit) {
      CommitRecord(rt, p);
      if commit.Returns? {
        FinishRecord(rt, p);
        return false;
      }
    }
    StopWorker(rt, rt.c.workerOf(p));
    return true;
  }

  /** The process ends: every partition it owns loses its session, and the queue with it. */
  method StopWorker(rt: Runtime, w: nat)
    requires rt.Valid()
    modifies rt
    ensures rt.Valid() && rt.s == old(rt.s).(requests := rt.s.requests)
    ensures HaltedUpTo(old(rt.s.requests), rt.s.requests, rt.c.workerOf, w, |rt.s.requests|)
  {
    hide Inv, Reachable, WellFormed;
    ghost var before := rt.s;
    for q := 0 to |rt.s.requests|
      invariant rt.Valid() && rt.s == before.(requests := rt.s.requests)
      invariant HaltedUpTo(before.requests, rt.s.requests, rt.c.workerOf, w, q)
    {
      if rt.c.workerOf(q) == w && rt.s.requests[q].session.Running? {
        rt.Take(Request(q, Crash, 0.0, 0));
      }
    }
  }

  /** The first `n` partitions, as far as the process owns them, have lost their sessions. */
  ghost predicate HaltedUpTo<T>(before: seq<Partition<T>>, after: seq<Partition<T>>, owner: nat -> nat, w: nat, n: nat) {
    && |before| == |after|
    && forall q :: 0 <= q < |after| ==> after[q] == if q < n && owner(q) == w then Halted(before[q]) else before[q]
  }

  method PublishDeadLetter(rt: Runtime, p: nat, deadLetter: Call)
    requires rt.Valid() && p < |rt.s.requests| && rt.s.requests[p].session.Running?
    requires InHand(rt.s.requests[p].session.phase)
    modifies rt
    ensures rt.Valid()
    ensures var part := old(rt.s).requests[p];
            var o := part.session.phase.offset;
            if TookEffect(deadLetter)
            then rt.s == old(rt.s).(requests := old(rt.s).requests[p := part.(
                   dead := part.dead + {o}, session := part.session.(phase := Phase.Buried(o)))])
            else rt.s == old(rt.s) && part.dead + {} == part.dead
  {
    hide Inv, Reachable;
    if TookEffect(deadLetter) {
      rt.Take(Request(p, Op.Bury, 0.0, 0));
    }
  }
}
