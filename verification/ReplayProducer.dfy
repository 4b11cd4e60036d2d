/** The replay producer: it sends one graph batch a time step and saves a checkpoint after
    each, and goes on from the checkpoint whenever it is started again. */
module ReplayProducer {
  import opened Events

  /** A batch in the topic: its step, its source offset and its event id. */
  datatype Sent = Sent(step: int, offset: int, id: EventId)

  datatype Durable = Durable(lastStep: int, lastOffset: int, topic: seq<Sent>)

  const FRESH := Durable(0, -1, [])

  predicate Increasing(steps: seq<int>) {
    forall i, j :: 0 <= i < j < |steps| ==> steps[i] < steps[j]
  }

  function After(steps: seq<int>, last: int): seq<int> {
    if steps == [] then [] else (if steps[0] > last then [steps[0]] else []) + After(steps[1..], last)
  }

  /** What becomes of one batch. */
  datatype Turn =
    | Proceed
    | Stop
    | SendFails(arrived: bool)
    | SaveFails(saved: bool)

  function BatchFor(stream: string, step: int, offset: int): Sent {
    Sent(step, offset, Observed(stream, if step >= 0 then step else 0))
  }

  /** One turn of the producer, which always works on the first step after the checkpoint;
      what it holds in memory is only ever what the checkpoint says. */
  function Attempt(stream: string, steps: seq<int>, d: Durable, turn: Turn): Durable {
    var remaining := After(steps, d.lastStep);
    if remaining == [] || turn.Stop? then d
    else
      var arrived := d.(topic := d.topic + [BatchFor(stream, remaining[0], d.lastOffset + 1)]);
      var saved := arrived.(lastStep := remaining[0], lastOffset := d.lastOffset + 1);
      match turn
      case Proceed => saved
      case SendFails(ok) => if ok then arrived else d
      case SaveFails(ok) => if ok then saved else arrived
  }

  /** Any number of turns, with restarts anywhere between them. */
  function Play(stream: string, steps: seq<int>, d: Durable, turns: seq<Turn>): Durable {
    if turns == [] then d
    else Attempt(stream, steps, Play(stream, steps, d, turns[..|turns| - 1]), turns[|turns| - 1])
  }

  function RemoveRepeats<T(==)>(xs: seq<T>): seq<T> {
    if xs == [] then []
    else
      var front := RemoveRepeats(xs[..|xs| - 1]);
      if xs[|xs| - 1] in xs[..|xs| - 1] then front else front + [xs[|xs| - 1]]
  }

  function Steps(topic: seq<Sent>): (steps: seq<int>)
    ensures |steps| == |topic| && forall i :: 0 <= i < |topic| ==> steps[i] == topic[i].step
  {
    seq(|topic|, i requires 0 <= i < |topic| => topic[i].step)
  }

  // ---- what every history of restarts keeps ----

  /** `done` steps are checkpointed; the topic holds copies of these and perhaps of one more. */
  ghost predicate Sound(stream: string, due: seq<int>, d: Durable, done: nat) {
    && done <= |due|
    && d.lastOffset == done - 1
    && d.lastStep == (if done == 0 then 0 else due[done - 1])
    && (forall i :: 0 <= i < |d.topic| ==>
          && 0 <= d.topic[i].offset <= done && d.topic[i].offset < |due|
          && d.topic[i] == BatchFor(stream, due[d.topic[i].offset], d.topic[i].offset))
    && (forall i, j :: 0 <= i < j < |d.topic| ==> d.topic[i].offset <= d.topic[j].offset)
    && (exists n :: done <= n <= done + 1 && n <= |due| && RemoveRepeats(Steps(d.topic)) == due[..n])
  }

  lemma {:induction false} AfterCut(steps: seq<int>, last: int, k: nat)
    requires k <= |steps|
    requires forall i :: 0 <= i < |steps| ==> (k <= i <==> steps[i] > last)
    ensures After(steps, last) == steps[k..]
  {
    if steps != [] {
      var rest := steps[1..];
      assert forall i :: 0 <= i < |rest| ==> rest[i] == steps[i + 1];
      if k == 0 {
        AfterCut(rest, last, 0);
        assert [steps[0]] + rest[0..] == steps[0..];
      } else {
        AfterCut(rest, last, k - 1);
        assert [] + rest[k - 1..] == steps[k..];
      }
    }
  }

  lemma CutAt(steps: seq<int>, last: int) returns (k: nat)
    requires Increasing(steps)
    ensures k <= |steps| && forall i :: 0 <= i < |steps| ==> (k <= i <==> steps[i] > last)
    ensures After(steps, last) == steps[k..]
  {
    k := 0;
    while k < |steps| && steps[k] <= last
      invariant k <= |steps| && forall i :: 0 <= i < k ==> steps[i] <= last
    {
      k := k + 1;
    }
    AfterCut(steps, last, k);
  }

  /** The steps still to do are the ones the checkpoint has not reached. */
  lemma RemainingIsTheRest(steps: seq<int>, done: nat)
    requires Increasing(steps)
    requires var due := After(steps, 0); done <= |due|
    ensures var due := After(steps, 0);
            && Increasing(due)
            && After(steps, if done == 0 then 0 else due[done - 1]) == due[done..]
  {
    hide After, Increasing;
    var k := CutAt(steps, 0);
    TailIncreases(steps, k);
    if done > 0 {
      CutAfter(steps, k + done - 1);
      assert steps[k..][done..] == steps[k + done..];
    }
  }

  lemma TailIncreases(steps: seq<int>, k: nat)
    requires Increasing(steps) && k <= |steps|
    ensures Increasing(steps[k..])
  {
  }

  lemma CutAfter(steps: seq<int>, m: nat)
    requires Increasing(steps) && m < |steps|
    ensures After(steps, steps[m]) == steps[m + 1..]
  {
    hide After;
    AfterCut(steps, steps[m], m + 1);
  }

  lemma RepeatAppended(xs: seq<int>, x: int)
    ensures RemoveRepeats(xs + [x]) == RemoveRepeats(xs) + if x in xs then [] else [x]
  {
    assert (xs + [x])[..|xs|] == xs;
    assert RemoveRepeats(xs) + [] == RemoveRepeats(xs);
  }

  lemma {:induction false} RepeatsKeepMembers(xs: seq<int>)
    ensures forall x :: x in xs <==> x in RemoveRepeats(xs)
  {
    if xs != [] {
      RepeatsKeepMembers(xs[..|xs| - 1]);
      assert xs == xs[..|xs| - 1] + [xs[|xs| - 1]];
    }
  }

  lemma RepeatedOrNext(due: seq<int>, xs: seq<int>, done: nat, n: nat)
    requires Increasing(due) && done <= n <= done + 1 && done < |due| && n <= |due|
    requires RemoveRepeats(xs) == due[..n]
    ensures RemoveRepeats(xs + [due[done]]) == due[..done + 1]
  {
    RepeatAppended(xs, due[done]);
    RepeatsKeepMembers(xs);
    hide RemoveRepeats;
    if n == done {
      assert due[done] !in due[..n];
    } else {
      assert due[..n][done] == due[done];
    }
  }

  function Arrived(stream: string, due: seq<int>, d: Durable, done: nat): Durable
    requires done < |due|
  {
    d.(topic := d.topic + [BatchFor(stream, due[done], done)])
  }

  lemma ArrivalKeeps(stream: string, due: seq<int>, d: Durable, done: nat)
    requires Increasing(due) && Sound(stream, due, d, done) && done < |due|
    ensures Sound(stream, due, Arrived(stream, due, d, done), done)
    ensures RemoveRepeats(Steps(Arrived(stream, due, d, done).topic)) == due[..done + 1]
  {
    hide RemoveRepeats, Increasing;
    var n :| done <= n <= done + 1 && n <= |due| && RemoveRepeats(Steps(d.topic)) == due[..n];
    var topic := Arrived(stream, due, d, done).topic;
    assert Steps(topic) == Steps(d.topic) + [due[done]];
    RepeatedOrNext(due, Steps(d.topic), done, n);
  }

  /** A turn leaves the state as it was, adds the copy, or adds it and moves the checkpoint. */
  lemma AttemptOutcome(stream: string, steps: seq<int>, d: Durable, done: nat, turn: Turn)
    requires Increasing(steps) && Sound(stream, After(steps, 0), d, done)
    ensures var due := After(steps, 0);
            Attempt(stream, steps, d, turn)
            == if done == |due| || turn.Stop? || turn == SendFails(false) then d
               else if turn.Proceed? || turn == SaveFails(true)
                 then Arrived(stream, due, d, done).(lastStep := due[done], lastOffset := done)
               else Arrived(stream, due, d, done)
  {
    hide Sound, After, Increasing, RemoveRepeats;
    Position(stream, After(steps, 0), d, done);
    RemainingIsTheRest(steps, done);
  }

  lemma AttemptKeeps(stream: string, steps: seq<int>, d: Durable, done: nat, turn: Turn) returns (later: nat)
    requires Increasing(steps) && Sound(stream, After(steps, 0), d, done)
    ensures Sound(stream, After(steps, 0), Attempt(stream, steps, d, turn), later)
  {
    hide Sound, Attempt, Arrived, Increasing, After, RemoveRepeats;
    var due := After(steps, 0);
    AttemptOutcome(stream, steps, d, done, turn);
    Position(stream, due, d, done);
    RemainingIsTheRest(steps, done);
    later := done;
    if done < |due| {
      ArrivalKeeps(stream, due, d, done);
      SavedIsSound(stream, due, Arrived(stream, due, d, done), done);
      later := done + if turn.Proceed? || turn == SaveFails(true) then 1 else 0;
    }
  }

  lemma Position(stream: string, due: seq<int>, d: Durable, done: nat)
    requires Sound(stream, due, d, done)
    ensures done <= |due| && d.lastOffset == done - 1 && d.lastStep == (if done == 0 then 0 else due[done - 1])
  {
  }

  lemma SavedIsSound(stream: string, due: seq<int>, d: Durable, done: nat)
    requires Sound(stream, due, d, done) && done < |due| && RemoveRepeats(Steps(d.topic)) == due[..done + 1]
    ensures Sound(stream, due, d.(lastStep := due[done], lastOffset := done), done + 1)
  {
    hide RemoveRepeats, Steps;
  }

  lemma {:induction false} PlayKeeps(stream: string, steps: seq<int>, turns: seq<Turn>) returns (done: nat)
    requires Increasing(steps)
    ensures Sound(stream, After(steps, 0), Play(stream, steps, FRESH, turns), done)
  {
    if turns == [] {
      done := 0;
      assert RemoveRepeats(Steps([])) == After(steps, 0)[..0];
    } else {
      done := PlayKeeps(stream, steps, turns[..|turns| - 1]);
      done := AttemptKeeps(stream, steps, Play(stream, steps, FRESH, turns[..|turns| - 1]), done, turns[|turns| - 1]);
    }
  }

  /** After any crashes and restarts: time steps in the topic never go back, every copy of a
      step has the same event id and, as its source offset, the step's index among the
      positive steps of the data set, and without its repeats the topic is a prefix of them;
      once the checkpoint has reached the last step, all of them. */
  lemma TopicIsAPrefix(stream: string, steps: seq<int>, turns: seq<Turn>)
    requires Increasing(steps)
    ensures var due := After(steps, 0);
            var d := Play(stream, steps, FRESH, turns);
            && (forall i, j :: 0 <= i < j < |d.topic| ==> d.topic[i].step <= d.topic[j].step)
            && (forall i :: 0 <= i < |d.topic| ==>
                  && 0 <= d.topic[i].offset < |due| && due[d.topic[i].offset] == d.topic[i].step
                  && d.topic[i].step > 0 && d.topic[i].id == Observed(stream, d.topic[i].step))
            && RemoveRepeats(Steps(d.topic)) <= due
            && (After(steps, d.lastStep) == [] ==> RemoveRepeats(Steps(d.topic)) == due)
  {
    var done := PlayKeeps(stream, steps, turns);
    RemainingIsTheRest(steps, done);
    DueArePositive(steps);
    SoundTopic(stream, After(steps, 0), Play(stream, steps, FRESH, turns), done);
    hide RemoveRepeats, Play, Sound;
    WhenDone(stream, steps, Play(stream, steps, FRESH, turns), done);
  }

  lemma DueArePositive(steps: seq<int>)
    requires Increasing(steps)
    ensures forall s :: s in After(steps, 0) ==> s > 0
  {
    var k := CutAt(steps, 0);
  }

  lemma WhenDone(stream: string, steps: seq<int>, d: Durable, done: nat)
    requires Increasing(steps) && Sound(stream, After(steps, 0), d, done)
    ensures After(steps, d.lastStep) == [] ==> RemoveRepeats(Steps(d.topic)) == After(steps, 0)
  {
    RemainingIsTheRest(steps, done);
    hide RemoveRepeats, After, Steps;
  }

  lemma SoundTopic(stream: string, due: seq<int>, d: Durable, done: nat)
    requires Increasing(due) && (forall s :: s in due ==> s > 0) && Sound(stream, due, d, done)
    ensures forall i, j :: 0 <= i < j < |d.topic| ==> d.topic[i].step <= d.topic[j].step
    ensures forall i :: 0 <= i < |d.topic| ==>
                  && 0 <= d.topic[i].offset < |due| && due[d.topic[i].offset] == d.topic[i].step
                  && d.topic[i].step > 0 && d.topic[i].id == Observed(stream, d.topic[i].step)
    ensures RemoveRepeats(Steps(d.topic)) <= due
  {
    hide RemoveRepeats, Steps;
    forall i | 0 <= i < |d.topic|
      ensures 0 <= d.topic[i].offset < |due| && due[d.topic[i].offset] == d.topic[i].step && d.topic[i].step > 0
    {
      assert due[d.topic[i].offset] in due;
    }
    forall i, j | 0 <= i < j < |d.topic|
      ensures d.topic[i].step <= d.topic[j].step
    {
      assert d.topic[i].offset <= d.topic[j].offset;
    }
  }

  /** Lives of the process follow one another like turns of one. */
  lemma {:induction false} RestartsCompose(stream: string, steps: seq<int>, d: Durable, first: seq<Turn>,
                                           second: seq<Turn>)
    ensures Play(stream, steps, Play(stream, steps, d, first), second) == Play(stream, steps, d, first + second)
  {
    if second == [] {
      assert first + second == first;
    } else {
      RestartsCompose(stream, steps, d, first, second[..|second| - 1]);
      assert (first + second)[..|first + second| - 1] == first + second[..|second| - 1];
    }
  }

  // ---- the service ----

  class Producer {
    const stream: string
    const timeSteps: seq<int>
    // durable: the checkpoint row, the topic, and the replay status
    var checkpoint: (int, int)
    var topic: seq<Sent>
    var completed: bool

    constructor (stream: string, timeSteps: seq<int>)
      ensures this.stream == stream && this.timeSteps == timeSteps && Contents() == FRESH && !completed
    {
      this.stream, this.timeSteps := stream, timeSteps;
      checkpoint, topic, completed := (0, -1), [], false;
    }

    function Contents(): Durable
      reads this
    {
      Durable(checkpoint.0, checkpoint.1, topic)
    }

    method SendAndWait(batch: Sent)
      modifies this`topic
      ensures topic == old(topic) + [batch]
    {
      topic := topic + [batch];
    }

    method SaveProducerCheckpoint(step: int, offset: int)
      modifies this`checkpoint
      ensures checkpoint == (step, offset)
    {
      checkpoint := (step, offset);
    }

    /** One life of the process: it runs until it is stopped, fails, or has sent the last
        step; `played` of its turns took place. */
    method Run(turns: seq<Turn>) returns (played: nat, finished: bool)
      requires Increasing(timeSteps)
      modifies this
      ensures played <= |turns|
      ensures Contents() == Play(stream, timeSteps, old(Contents()), turns[..played])
      ensures completed <==> old(completed) || finished
      ensures finished ==> After(timeSteps, checkpoint.0) == []
    {
      hide After, Increasing;
      played, finished := 0, false;
      var (lastStep, lastSourceOffset) := checkpoint;
      var remaining := After(timeSteps, lastStep);
      assert turns[..0] == [];
      for i := 0 to |remaining|
        invariant played == i <= |turns|
        invariant completed == old(completed)
        invariant Contents() == Play(stream, timeSteps, old(Contents()), turns[..i])
        invariant After(timeSteps, checkpoint.0) == remaining[i..]
        invariant checkpoint.1 == lastSourceOffset + i
      {
        if i == |turns| {
          return;
        }
        assert turns[..i + 1][..i] == turns[..i];
        var sourceOffset, timeStep := lastSourceOffset + 1 + i, remaining[i];
        played := i + 1;
        if turns[i].Stop? {
          return;
        }
        var event := BatchFor(stream, timeStep, sourceOffset);
        if turns[i].SendFails? {
          if turns[i].arrived {
            SendAndWait(event);
          }
          return;
        }
        SendAndWait(event);
        if turns[i].SaveFails? {
          if turns[i].saved {
            SaveProducerCheckpoint(timeStep, sourceOffset);
          }
          return;
        }
        RestAfterFirst(timeSteps, checkpoint.0, remaining[i..]);
        assert remaining[i..][1..] == remaining[i + 1..];
        SaveProducerCheckpoint(timeStep, sourceOffset);
      }
      finished := true;
      completed := true;
    }
  }

  lemma RestAfterFirst(steps: seq<int>, last: int, rest: seq<int>)
    requires Increasing(steps) && rest == After(steps, last) && rest != []
    ensures After(steps, rest[0]) == rest[1..]
  {
    hide After, Increasing;
    var k := CutAt(steps, last);
    CutAfter(steps, k);
    assert steps[k..][1..] == steps[k + 1..];
  }
}
