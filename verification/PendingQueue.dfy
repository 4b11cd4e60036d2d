/** The dashboard's queue of transactions waiting to be shown: an array with a head index,
    compacted now and then, that behaves as a bounded first-in first-out queue. */
module PendingQueue {
  import opened Options

  /** A first-in first-out queue that gives up its oldest items. */
  function PutBounded<T>(queue: seq<T>, max: nat, item: T): seq<T>
    requires max >= 1
  {
    (if |queue| >= max then queue[|queue| - max + 1..] else queue) + [item]
  }

  datatype QueueOp<T> = Put(item: T) | Drain

  datatype Played<T> = Played(queue: seq<T>, put: seq<T>, taken: seq<T>, dropped: nat)

  function Play<T>(max: nat, ops: seq<QueueOp<T>>): Played<T>
    requires max >= 1
  {
    if ops == [] then Played([], [], [], 0)
    else
      var p := Play(max, ops[..|ops| - 1]);
      match ops[|ops| - 1]
      case Put(x) => Played(PutBounded(p.queue, max, x), p.put + [x], p.taken,
                            p.dropped + if |p.queue| >= max then |p.queue| - max + 1 else 0)
      case Drain => if p.queue == [] then p else Played(p.queue[1..], p.put, p.taken + [p.queue[0]], p.dropped)
  }

  predicate Subsequence<T(==)>(small: seq<T>, large: seq<T>) {
    if small == [] then true
    else if large == [] then false
    else if small[|small| - 1] == large[|large| - 1] then Subsequence(small[..|small| - 1], large[..|large| - 1])
    else Subsequence(small, large[..|large| - 1])
  }

  lemma {:induction false} SubsequenceOfMore<T>(small: seq<T>, large: seq<T>, more: seq<T>)
    requires Subsequence(small, large)
    ensures Subsequence(small, large + more)
    decreases |more|
  {
    if more == [] {
      assert large + more == large;
    } else {
      SubsequenceOfMore(small, large, more[..|more| - 1]);
      var front := large + more[..|more| - 1];
      assert (large + more)[..|large + more| - 1] == front;
      SubsequenceOfOneMore(small, front, more[|more| - 1]);
      assert large + more == front + [more[|more| - 1]];
    }
  }

  lemma {:induction false} SubsequenceOfOneMore<T>(small: seq<T>, large: seq<T>, x: T)
    requires Subsequence(small, large)
    ensures Subsequence(small, large + [x])
    decreases |large|, 1
  {
    assert (large + [x])[..|large|] == large;
    if small != [] && small[|small| - 1] == x {
      Shorter(small, large);
    }
  }

  lemma {:induction false} Shorter<T>(small: seq<T>, large: seq<T>)
    requires small != [] && Subsequence(small, large)
    ensures Subsequence(small[..|small| - 1], large)
    decreases |large|, 0
  {
    var front := large[..|large| - 1];
    if small[|small| - 1] == large[|large| - 1] {
      SubsequenceOfOneMore(small[..|small| - 1], front, large[|large| - 1]);
      assert large == front + [large[|large| - 1]];
    } else {
      Shorter(small, front);
      SubsequenceOfOneMore(small[..|small| - 1], front, large[|large| - 1]);
      assert large == front + [large[|large| - 1]];
    }
  }

  ghost predicate NewestWait<T>(max: nat, p: Played<T>) {
    && |p.queue| <= max && |p.queue| <= |p.put|
    && p.queue == p.put[|p.put| - |p.queue|..]
    && Subsequence(p.taken, p.put[..|p.put| - |p.queue|])
    && |p.taken| + p.dropped + |p.queue| == |p.put|
    && (p.dropped == 0 ==> p.taken + p.queue == p.put)
  }

  lemma PutKeepsNewest<T>(max: nat, p: Played<T>, q: Played<T>, x: T)
    requires max >= 1 && NewestWait(max, p)
    requires q == Played(PutBounded(p.queue, max, x), p.put + [x], p.taken,
                         p.dropped + if |p.queue| >= max then |p.queue| - max + 1 else 0)
    ensures NewestWait(max, q)
  {
    var gone := p.put[..|p.put| - |p.queue|];
    var extra := q.put[|gone|..|q.put| - |q.queue|];
    SubsequenceOfMore(p.taken, gone, extra);
    hide Subsequence;
    assert q.put[..|q.put| - |q.queue|] == gone + extra;
  }

  lemma DrainKeepsNewest<T>(max: nat, p: Played<T>)
    requires NewestWait(max, p) && p.queue != []
    ensures NewestWait(max, Played(p.queue[1..], p.put, p.taken + [p.queue[0]], p.dropped))
  {
    hide Subsequence;
    var gone, x := p.put[..|p.put| - |p.queue|], p.queue[0];
    SubsequenceOfBoth(p.taken, gone, x);
    assert x == p.put[|gone|];
    assert p.put[..|p.put| - |p.queue[1..]|] == gone + [x];
    if p.dropped == 0 {
      assert p.taken + [x] + p.queue[1..] == p.taken + p.queue;
    }
  }

  lemma SubsequenceOfBoth<T>(small: seq<T>, large: seq<T>, x: T)
    requires Subsequence(small, large)
    ensures Subsequence(small + [x], large + [x])
  {
    assert (small + [x])[..|small|] == small && (large + [x])[..|large|] == large;
  }

  /** At every moment the queue holds the newest of the items put in, at most `max` of them;
      what was taken out is in the order it was put in; every item was taken, dropped or is
      waiting; and nothing is dropped while the queue stays below its limit. */
  lemma {:induction false} QueueKeepsTheNewest<T>(max: nat, ops: seq<QueueOp<T>>)
    requires max >= 1
    ensures var p := Play(max, ops);
            && |p.queue| <= max && |p.queue| <= |p.put|
            && p.queue == p.put[|p.put| - |p.queue|..]
            && Subsequence(p.taken, p.put[..|p.put| - |p.queue|])
            && |p.taken| + p.dropped + |p.queue| == |p.put|
            && (p.dropped == 0 ==> p.taken + p.queue == p.put)
  {
    PlayKeepsNewest(max, ops);
    hide Play, Subsequence;
  }

  lemma {:induction false} PlayKeepsNewest<T>(max: nat, ops: seq<QueueOp<T>>)
    requires max >= 1
    ensures NewestWait(max, Play(max, ops))
  {
    if ops != [] {
      PlayKeepsNewest(max, ops[..|ops| - 1]);
      var p := Play(max, ops[..|ops| - 1]);
      hide NewestWait, PutBounded;
      match ops[|ops| - 1] {
        case Put(x) => PutKeepsNewest(max, p, Play(max, ops), x);
        case Drain => if p.queue != [] { DrainKeepsNewest(max, p); }
      }
    }
  }

  const COMPACT_ABOVE: nat := 1024

  function Larger(a: nat, b: nat): nat {
    if a >= b then a else b
  }

  /** An array with a head index: items before the head are dead, and cut off only once they
      are many and outnumber the rest. */
  class PendingQueue<T> {
    const max: nat
    var pending: seq<T>
    var head: nat
    ghost var enqueued: nat
    ghost var shifted: nat

    ghost predicate Valid()
      reads this
    {
      && max >= 1
      && head <= |pending|
      && |pending| - head <= max
      && head <= Larger(COMPACT_ABOVE, max)
      && shifted + |pending| <= enqueued
    }

    function Contents(): seq<T>
      requires head <= |pending|
      reads this
    {
      pending[head..]
    }

    constructor (max: nat)
      requires max >= 1
      ensures Valid() && this.max == max && Contents() == [] && enqueued == 0 && shifted == 0
    {
      this.max, pending, head := max, [], 0;
      enqueued, shifted := 0, 0;
    }

    /** Moves the live items to the front; `shifted` counts them. */
    method Compact()
      requires head <= |pending| && shifted + |pending| <= enqueued
      modifies this`pending, this`head, this`shifted
      ensures head <= |pending| && Contents() == old(Contents())
      ensures head <= old(head) && (head <= COMPACT_ABOVE || head <= |Contents()|)
      ensures shifted + |pending| <= enqueued && shifted >= old(shifted)
    {
      if head > COMPACT_ABOVE && head * 2 > |pending| {
        shifted := shifted + (|pending| - head);
        pending := pending[head..];
        head := 0;
      }
    }

    method EnqueueTransaction(incoming: T) returns (count: nat)
      requires Valid()
      modifies this
      ensures Valid() && Contents() == PutBounded(old(Contents()), max, incoming)
      ensures count == |Contents()|
      ensures |pending| <= max + Larger(COMPACT_ABOVE, max)
      ensures enqueued == old(enqueued) + 1 && shifted <= enqueued
    {
      var pendingLength := |pending| - head;
      if pendingLength >= max {
        head := head + (pendingLength - max + 1);
      }
      Compact();
      pending := pending + [incoming];
      enqueued := enqueued + 1;
      count := |pending| - head;
    }

    /** One tick of the drain timer. */
    method DrainTick(paused: bool) returns (next: Option<T>)
      requires Valid()
      modifies this
      ensures Valid() && enqueued == old(enqueued) && shifted <= enqueued
      ensures next.None? <==> paused || old(Contents()) == []
      ensures old(Contents()) == (if next.Some? then [next.value] else []) + Contents()
      ensures |pending| <= max + Larger(COMPACT_ABOVE, max)
    {
      if paused || head >= |pending| {
        return None;
      }
      next := Some(pending[head]);
      head := head + 1;
      Compact();
    }
  }
}
