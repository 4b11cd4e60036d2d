/** One Kafka partition and the consumer that owns it.

    The three durable consumers differ in the effect of a record, but not in how they fetch,
    commit, dead-letter, skip and restart. A crash may come between any two operations and
    loses the session, never the log or the committed offset.

    `effects`, `dead` and `skipped` record history: the offsets whose durable effect was
    reached, whose dead letter was sent, and whose record fell into the failure branch that
    goes on to the next record without seeking back. */
module Consumers {
  datatype Record<+T> = Valid(event: T) | Malformed

  /** Where the record in hand stands between being fetched and being left behind. */
  datatype Phase =
    | Idle
    | Handling(offset: nat)
    | Effected(offset: nat)
    | Buried(offset: nat)
    | Committed(offset: nat)

  /** What a consumer process holds in memory. `queue` is the worker's bounded queue of
      polled offsets; the other two consumers fetch one record at a time. */
  datatype Session =
    | Stopped
    | Running(position: nat, queue: seq<nat>, phase: Phase, failures: nat)

  datatype Partition<+T> = Partition(
    log: seq<Record<T>>,
    committed: nat,
    session: Session,
    effects: set<nat>,
    dead: set<nat>,
    skipped: set<nat>)

  datatype Op =
    | Start
    | Fetch
    | Poll(count: nat)
    | Take
    | Effect
    | Bury
    | Commit
    | Finish
    | Skip
    | Crash

  const NEW_SESSION := Running(0, [], Idle, 0)

  function Fresh<T>(): Partition<T> {
    Partition([], 0, Stopped, {}, {}, {})
  }

  /** A record may still be retried or dead-lettered after its effect, and even after its
      offset was committed, if what follows the commit raises. */
  predicate InHand(phase: Phase) {
    phase.Handling? || phase.Effected? || phase.Committed?
  }

  /** `capacity` bounds the queue. */
  predicate Enabled<T>(p: Partition<T>, op: Op, capacity: nat) {
    if p.session.Stopped? then op.Start? else
    var s := p.session;
    match op
    case Start => false
    case Crash => true
    case Fetch => s.phase.Idle? && s.queue == [] && s.position < |p.log|
    case Poll(n) => s.position + n <= |p.log| && |s.queue| + n <= capacity
    case Take => s.phase.Idle? && s.queue != []
    case Effect => InHand(s.phase)
    case Bury => InHand(s.phase)
    case Commit => s.phase.Effected? || s.phase.Buried?
    case Finish => s.phase.Committed?
    case Skip => InHand(s.phase)
  }

  function Range(from: nat, to: nat): (r: seq<nat>)
    requires from <= to
    ensures |r| == to - from
    ensures forall i :: 0 <= i < |r| ==> r[i] == from + i
  {
    seq(to - from, i requires 0 <= i => from + i)
  }

  function Began<T>(p: Partition<T>): Partition<T> {
    p.(session := Running(p.committed, [], Idle, 0))
  }

  function Halted<T>(p: Partition<T>): Partition<T> {
    p.(session := Stopped)
  }

  function Apply<T>(p: Partition<T>, op: Op, capacity: nat): Partition<T>
    requires Enabled(p, op, capacity)
  {
    var s := p.session;
    match op
    case Start => Began(p)
    case Crash => Halted(p)
    case Fetch => p.(session := s.(phase := Handling(s.position), position := s.position + 1))
    case Poll(n) => p.(session := s.(queue := s.queue + Range(s.position, s.position + n), position := s.position + n))
    case Take => p.(session := s.(phase := Handling(s.queue[0]), queue := s.queue[1..]))
    case Effect => p.(session := s.(phase := Effected(s.phase.offset)), effects := p.effects + {s.phase.offset})
    case Bury => p.(session := s.(phase := Buried(s.phase.offset)), dead := p.dead + {s.phase.offset})
    case Commit => p.(session := s.(phase := Committed(s.phase.offset)), committed := s.phase.offset + 1)
    case Finish => p.(session := s.(phase := Idle, failures := 0))
    case Skip => p.(session := s.(phase := Idle, failures := s.failures + 1),
                    skipped := if s.phase.Handling? then p.skipped + {s.phase.offset} else p.skipped)
  }

  function Append<T>(p: Partition<T>, r: Record<T>): Partition<T> {
    p.(log := p.log + [r])
  }

  // ---- no offset is passed over in silence ----

  ghost function Handled<T>(p: Partition<T>): set<nat> {
    p.effects + p.dead
  }

  ghost predicate IsHandled<T>(p: Partition<T>, o: nat) {
    o in p.effects || o in p.dead
  }

  ghost predicate IsAccounted<T>(p: Partition<T>, o: nat) {
    o in p.effects || o in p.dead || o in p.skipped
  }

  /** The offsets that were left behind with neither effect nor dead letter. */
  ghost function Lost<T>(p: Partition<T>): set<nat> {
    p.skipped - p.effects - p.dead
  }

  /** The first offset the session has not taken in hand. */
  function Front(s: Session): int
    requires s.Running?
  {
    s.position - |s.queue|
  }

  /** The first offset the session has not left behind. */
  function Pending(s: Session): int
    requires s.Running?
  {
    if s.phase.Idle? then Front(s) else Front(s) - 1
  }

  ghost predicate SessionSound<T>(p: Partition<T>, capacity: nat) {
    p.session.Running? ==>
      var s := p.session;
      && s.position <= |p.log|
      && |s.queue| <= capacity
      && |s.queue| <= s.position
      && (forall i :: 0 <= i < |s.queue| ==> s.queue[i] == Front(s) + i)
      && 0 <= Pending(s)
      && p.committed <= Pending(s) + (if s.phase.Idle? || s.phase.Handling? then 0 else 1)
      && (forall o: nat :: o < Pending(s) ==> IsAccounted(p, o))
      && (!s.phase.Idle? ==> s.phase.offset == Pending(s))
      && (s.phase.Effected? ==> s.phase.offset in p.effects)
      && (s.phase.Buried? ==> s.phase.offset in p.dead)
      && (s.phase.Committed? ==> IsHandled(p, s.phase.offset) && p.committed == s.phase.offset + 1)
  }

  ghost predicate Sound<T>(p: Partition<T>, capacity: nat) {
    && p.committed <= |p.log|
    && (forall o: nat :: IsAccounted(p, o) ==> o < |p.log|)
    && (forall o: nat :: o < p.committed ==> IsAccounted(p, o))
    && (p.committed > 0 ==> IsHandled(p, p.committed - 1))
    && SessionSound(p, capacity)
  }

  lemma FreshIsSound<T>(capacity: nat, budget: nat)
    requires budget > 0
    ensures Sound(Fresh<T>(), capacity) && NeverLongGap(Fresh<T>(), budget)
  {
  }

  lemma ApplyKeepsSound<T>(p: Partition<T>, op: Op, capacity: nat)
    requires Sound(p, capacity) && Enabled(p, op, capacity)
    ensures Sound(Apply(p, op, capacity), capacity)
  {
    hide Sound;
    if op.Start? || op.Crash? || op.Fetch? || op.Poll? || op.Take? {
      ReadingKeepsSound(p, op, capacity);
    } else {
      HandlingKeepsSound(p, op, capacity);
    }
  }

  lemma ReadingKeepsSound<T>(p: Partition<T>, op: Op, capacity: nat)
    requires Sound(p, capacity) && Enabled(p, op, capacity)
    requires op.Start? || op.Crash? || op.Fetch? || op.Poll? || op.Take?
    ensures Sound(Apply(p, op, capacity), capacity)
  {
    var q := Apply(p, op, capacity);
    assert forall o: nat :: IsAccounted(p, o) <==> IsAccounted(q, o);
    hide IsAccounted;
  }

  lemma HandlingKeepsSound<T>(p: Partition<T>, op: Op, capacity: nat)
    requires Sound(p, capacity) && Enabled(p, op, capacity)
    requires op.Effect? || op.Bury? || op.Commit? || op.Finish? || op.Skip?
    ensures Sound(Apply(p, op, capacity), capacity)
  {
    var q := Apply(p, op, capacity);
    forall o: nat
      ensures IsAccounted(p, o) ==> IsAccounted(q, o)
      ensures IsAccounted(q, o) ==> IsAccounted(p, o) || o == p.session.phase.offset
    {
    }
  }

  lemma SessionsKeepSound<T>(p: Partition<T>, capacity: nat)
    requires Sound(p, capacity)
    ensures Sound(Began(p), capacity) && Sound(Halted(p), capacity)
  {
    assert forall o: nat :: IsAccounted(p, o) <==> IsAccounted(Began(p), o);
    assert forall o: nat :: IsAccounted(p, o) <==> IsAccounted(Halted(p), o);
  }

  // ---- one queue for the partitions of a process ----

  function QueueLength<T>(p: Partition<T>): nat {
    if p.session.Running? then |p.session.queue| else 0
  }

  /** The records that wait in the queue of process `w`: those of all partitions it owns. */
  function Queued<T>(parts: seq<Partition<T>>, owner: nat -> nat, w: nat): nat {
    if parts == [] then 0
    else
      var n := |parts| - 1;
      Queued(parts[..n], owner, w) + (if owner(n) == w then QueueLength(parts[n]) else 0)
  }

  lemma {:induction false} QueuedByUpdate<T>(parts: seq<Partition<T>>, owner: nat -> nat, w: nat, p: nat, moved: Partition<T>)
    requires p < |parts|
    ensures owner(p) != w ==> Queued(parts[p := moved], owner, w) == Queued(parts, owner, w)
    ensures owner(p) == w ==>
              Queued(parts[p := moved], owner, w) + QueueLength(parts[p]) == Queued(parts, owner, w) + QueueLength(moved)
  {
    var n := |parts| - 1;
    if p == n {
      assert parts[p := moved][..n] == parts[..n];
    } else {
      QueuedByUpdate(parts[..n], owner, w, p, moved);
      assert parts[p := moved][..n] == parts[..n][p := moved];
    }
  }

  lemma {:induction false} NothingQueued<T>(parts: seq<Partition<T>>, owner: nat -> nat, w: nat)
    requires forall p :: 0 <= p < |parts| ==> parts[p].session.Stopped?
    ensures Queued(parts, owner, w) == 0
  {
    if parts != [] {
      NothingQueued(parts[..|parts| - 1], owner, w);
    }
  }

  lemma AppendKeepsSound<T>(p: Partition<T>, r: Record<T>, capacity: nat, budget: nat)
    requires Sound(p, capacity)
    ensures Sound(Append(p, r), capacity)
    ensures NeverLongGap(p, budget) ==> NeverLongGap(Append(p, r), budget)
  {
    forall o: nat
      ensures IsAccounted(p, o) <==> IsAccounted(Append(p, r), o)
    {
    }
  }

  // ---- losses never come `budget` in a row ----

  ghost predicate HasHandled(handled: set<nat>, from: nat, length: nat) {
    exists o :: from <= o < from + length && o in handled
  }

  /** Every `budget` consecutive offsets below `limit` hold one that was handled. */
  ghost predicate NoLongGap(handled: set<nat>, budget: nat, limit: int) {
    forall from: nat | from + budget <= limit :: HasHandled(handled, from, budget)
  }

  ghost predicate NeverLongGap<T>(p: Partition<T>, budget: nat) {
    && budget > 0
    && NoLongGap(Handled(p), budget, p.committed)
    && (p.session.Running? ==>
          var s := p.session;
          var base := Pending(s) - s.failures;
          && s.failures < budget
          && 0 <= base
          && (base > 0 ==> IsHandled(p, base - 1))
          && NoLongGap(Handled(p), budget, Pending(s)))
  }

  lemma GapsShrink(handled: set<nat>, more: set<nat>, budget: nat, limit: int)
    requires handled <= more && NoLongGap(handled, budget, limit)
    ensures NoLongGap(more, budget, limit)
  {
    forall from: nat | from + budget <= limit
      ensures HasHandled(more, from, budget)
    {
      assert HasHandled(handled, from, budget);
    }
  }

  /** A window that ends one further is covered if a handled offset lies close enough. */
  lemma GapExtends(handled: set<nat>, budget: nat, limit: int, near: int)
    requires NoLongGap(handled, budget, limit)
    requires (near in handled && limit - budget < near <= limit) || limit + 1 < budget
    ensures NoLongGap(handled, budget, limit + 1)
  {
    forall from: nat | from + budget <= limit + 1
      ensures HasHandled(handled, from, budget)
    {
      if from + budget == limit + 1 {
        assert from <= near < from + budget;
      }
    }
  }

  lemma ApplyKeepsGaps<T>(p: Partition<T>, op: Op, capacity: nat, budget: nat)
    requires Sound(p, capacity) && NeverLongGap(p, budget) && Enabled(p, op, capacity)
    requires op.Skip? ==> p.session.failures + 1 < budget
    ensures NeverLongGap(Apply(p, op, capacity), budget)
  {
    var q := Apply(p, op, capacity);
    GapsShrink(Handled(p), Handled(q), budget, p.committed);
    if p.session.Running? {
      var s := p.session;
      GapsShrink(Handled(p), Handled(q), budget, Pending(s));
      match op
      case Commit => GapExtends(Handled(q), budget, Pending(s), s.phase.offset);
      case Finish => GapExtends(Handled(q), budget, Pending(s), s.phase.offset);
      case Skip => GapExtends(Handled(q), budget, Pending(s), Pending(s) - s.failures - 1);
      case _ =>
    }
  }

  // ---- what the invariant says of committed offsets ----

  /** Every offset below the committed one had its effect, a dead letter, or was skipped. */
  lemma CommittedIsAccounted<T>(p: Partition<T>, capacity: nat, o: nat)
    requires Sound(p, capacity) && o < p.committed
    ensures o in p.effects || o in p.dead || o in Lost(p)
  {
    assert IsAccounted(p, o);
  }

  /** Of any `budget` consecutive committed offsets at least one was not lost. */
  lemma LossesAreShort<T>(p: Partition<T>, capacity: nat, budget: nat, from: nat) returns (o: nat)
    requires Sound(p, capacity) && NeverLongGap(p, budget) && from + budget <= p.committed
    ensures from <= o < from + budget && o in Handled(p)
  {
    assert HasHandled(Handled(p), from, budget);
    o :| from <= o < from + budget && o in Handled(p);
  }

  /** A consumer that never skips loses nothing. */
  lemma NothingLostWithoutSkips<T>(p: Partition<T>, capacity: nat, o: nat)
    requires Sound(p, capacity) && p.skipped == {} && o < p.committed
    ensures o in p.effects || o in p.dead
  {
    assert IsAccounted(p, o);
  }
}
