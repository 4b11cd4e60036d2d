/** Which result becomes the canonical score of a transaction, over any list of deliveries. */
module CanonicalScore {
  import opened Events
  import opened Tables

  function ProjectAll(t: Tables, results: seq<ScoringResult>, consumer: string): Tables {
    if results == [] then t
    else
      var earlier := ProjectAll(t, results[..|results| - 1], consumer);
      var o := Project(earlier, results[|results| - 1], consumer);
      if o.Projected? || o.Outdated? then o.tables else earlier
  }

  function KeyOf(r: ScoringResult): ScoreKey {
    (r.tx, r.model)
  }

  /** The transactions are stored, and an identity belongs to one transaction and model. */
  ghost predicate Deliverable(t: Tables, results: seq<ScoringResult>) {
    && (forall r :: r in results ==> r.tx in t.nodes)
    && (forall a, b :: a in results && b in results && a.eventId == b.eventId ==> KeyOf(a) == KeyOf(b))
    && (forall k, r :: k in t.scores && r in results && t.scores[k].source == r.eventId ==> k == KeyOf(r))
  }

  /** The delivery at `i` is the first of its event: redeliveries and copies are ignored. */
  ghost predicate IsFirst(t: Tables, results: seq<ScoringResult>, consumer: string, i: nat) {
    && i < |results|
    && (results[i].eventId, consumer) !in t.inbox
    && forall j :: 0 <= j < i ==> results[j].eventId != results[i].eventId
  }

  ghost predicate ComesFrom(t: Tables, results: seq<ScoringResult>, consumer: string, key: ScoreKey, score: Score) {
    || (key in t.scores && score == t.scores[key])
    || exists i: nat :: IsFirst(t, results, consumer, i) && KeyOf(results[i]) == key && score == ScoreOf(results[i])
  }

  /** Neither the score before nor any first delivery lies above the kept score. */
  ghost predicate Maximal(t: Tables, results: seq<ScoringResult>, consumer: string, key: ScoreKey, score: Score) {
    && (key in t.scores ==> score.watermark >= t.scores[key].watermark && score.scoredAt >= t.scores[key].scoredAt)
    && forall i: nat :: IsFirst(t, results, consumer, i) && KeyOf(results[i]) == key && Supersedes(results[i], score)
         ==> results[i].watermark == score.watermark && results[i].scoredAt == score.scoredAt
  }

  ghost predicate Kept(t: Tables, results: seq<ScoringResult>, consumer: string, key: ScoreKey, score: Score) {
    ComesFrom(t, results, consumer, key, score) && Maximal(t, results, consumer, key, score)
  }

  ghost predicate ScoresAfter(t: Tables, results: seq<ScoringResult>, consumer: string, later: Tables) {
    && later.nodes == t.nodes
    && (forall id: EventId :: (id, consumer) in later.inbox <==>
          (id, consumer) in t.inbox || exists r :: r in results && r.eventId == id)
    && (forall key :: key in t.scores ==> key in later.scores)
    && (forall i: nat :: IsFirst(t, results, consumer, i) ==> KeyOf(results[i]) in later.scores)
    && (forall key :: key in later.scores ==> Kept(t, results, consumer, key, later.scores[key]))
  }

  // ---- one more delivery ----

  lemma PrefixFirst(t: Tables, front: seq<ScoringResult>, r: ScoringResult, consumer: string, i: nat)
    requires i < |front|
    ensures IsFirst(t, front + [r], consumer, i) <==> IsFirst(t, front, consumer, i)
  {
    var all := front + [r];
    assert all[i] == front[i];
    assert forall j :: 0 <= j < i ==> all[j] == front[j];
  }

  lemma KeptStays(t: Tables, front: seq<ScoringResult>, r: ScoringResult, consumer: string, key: ScoreKey, score: Score)
    requires Kept(t, front, consumer, key, score)
    requires IsFirst(t, front + [r], consumer, |front|) && KeyOf(r) == key ==> !Supersedes(r, score)
    ensures Kept(t, front + [r], consumer, key, score)
  {
    var all := front + [r];
    if i: nat :| IsFirst(t, front, consumer, i) && KeyOf(front[i]) == key && score == ScoreOf(front[i]) {
      PrefixFirst(t, front, r, consumer, i);
      assert IsFirst(t, all, consumer, i) && all[i] == front[i];
    }
    forall i: nat | IsFirst(t, all, consumer, i) && KeyOf(all[i]) == key && Supersedes(all[i], score)
      ensures all[i].watermark == score.watermark && all[i].scoredAt == score.scoredAt
    {
      if i < |front| {
        PrefixFirst(t, front, r, consumer, i);
      }
    }
  }

  lemma NewIsKept(t: Tables, front: seq<ScoringResult>, r: ScoringResult, consumer: string)
    requires IsFirst(t, front + [r], consumer, |front|)
    requires forall i: nat :: IsFirst(t, front, consumer, i) && KeyOf(front[i]) == KeyOf(r) ==> !Above(front[i], r)
    requires KeyOf(r) in t.scores ==> Supersedes(r, t.scores[KeyOf(r)])
    ensures Kept(t, front + [r], consumer, KeyOf(r), ScoreOf(r))
  {
    var all := front + [r];
    assert all[|front|] == r;
    forall i: nat | IsFirst(t, all, consumer, i) && KeyOf(all[i]) == KeyOf(r) && Supersedes(all[i], ScoreOf(r))
      ensures all[i].watermark == r.watermark && all[i].scoredAt == r.scoredAt
    {
      if i < |front| {
        PrefixFirst(t, front, r, consumer, i);
      }
    }
  }

  /** `a` lies strictly above `b` in the order the update guard uses. */
  predicate Above(a: ScoringResult, b: ScoringResult) {
    AboveScore(a, ScoreOf(b))
  }

  predicate AboveScore(a: ScoringResult, score: Score) {
    Supersedes(a, score) && (a.watermark != score.watermark || a.scoredAt != score.scoredAt)
  }

  lemma NothingAboveNew(t: Tables, front: seq<ScoringResult>, r: ScoringResult, consumer: string, score: Score)
    requires Kept(t, front, consumer, KeyOf(r), score) && Supersedes(r, score)
    ensures forall i: nat :: IsFirst(t, front, consumer, i) && KeyOf(front[i]) == KeyOf(r) ==> !Above(front[i], r)
    ensures KeyOf(r) in t.scores ==> Supersedes(r, t.scores[KeyOf(r)])
  {
  }

  lemma SourceStaysApart(t: Tables, front: seq<ScoringResult>, r: ScoringResult, consumer: string, key: ScoreKey,
                         score: Score)
    requires Deliverable(t, front + [r]) && Kept(t, front, consumer, key, score) && key != KeyOf(r)
    ensures score.source != r.eventId
  {
    assert r in front + [r];
    if i: nat :| IsFirst(t, front, consumer, i) && KeyOf(front[i]) == key && score == ScoreOf(front[i]) {
      assert front[i] in front + [r];
    }
  }

  lemma NeverRefused(t: Tables, front: seq<ScoringResult>, r: ScoringResult, consumer: string, later: Tables)
    requires ScoresAfter(t, front, consumer, later) && Deliverable(t, front + [r])
    ensures !Project(later, r, consumer).Refused?
  {
    hide Kept;
    assert r in front + [r];
    forall k | k in later.scores && k != KeyOf(r)
      ensures later.scores[k].source != r.eventId
    {
      SourceStaysApart(t, front, r, consumer, k, later.scores[k]);
    }
  }

  lemma ClaimedIsNotFirst(t: Tables, front: seq<ScoringResult>, r: ScoringResult, consumer: string, later: Tables)
    requires ScoresAfter(t, front, consumer, later)
    ensures (r.eventId, consumer) in later.inbox <==> !IsFirst(t, front + [r], consumer, |front|)
  {
    var all := front + [r];
    assert all[|front|] == r;
    assert forall j :: 0 <= j < |front| ==> all[j] == front[j];
    if x :| x in front && x.eventId == r.eventId {
      var j :| 0 <= j < |front| && front[j] == x;
      assert all[j].eventId == all[|front|].eventId;
    } else if (r.eventId, consumer) !in t.inbox {
      assert forall j :: 0 <= j < |front| ==> front[j] in front;
    }
  }

  /** What the scores are after one more delivery. */
  lemma ScoresAfterOneMore(t: Tables, front: seq<ScoringResult>, r: ScoringResult, consumer: string, later: Tables,
                           key: ScoreKey)
    requires ScoresAfter(t, front, consumer, later) && Deliverable(t, front + [r])
    requires var o := Project(later, r, consumer);
             var more := if o.Projected? || o.Outdated? then o.tables else later;
             key in more.scores
    ensures var o := Project(later, r, consumer);
            var more := if o.Projected? || o.Outdated? then o.tables else later;
            Kept(t, front + [r], consumer, key, more.scores[key])
  {
    hide Kept, ScoresAfter, Deliverable, IsFirst;
    AfterFacts(t, front, consumer, later, key);
    NeverRefused(t, front, r, consumer, later);
    ClaimedIsNotFirst(t, front, r, consumer, later);
    var o := Project(later, r, consumer);
    if o.Projected? && key == KeyOf(r) {
      if key in later.scores {
        NothingAboveNew(t, front, r, consumer, later.scores[key]);
      } else {
        UnscoredHasNoFirst(t, front, consumer, later, key);
      }
      NewIsKept(t, front, r, consumer);
    } else {
      KeptStays(t, front, r, consumer, key, later.scores[key]);
    }
  }

  lemma AfterFacts(t: Tables, front: seq<ScoringResult>, consumer: string, later: Tables, key: ScoreKey)
    requires ScoresAfter(t, front, consumer, later)
    ensures key in later.scores ==> Kept(t, front, consumer, key, later.scores[key])
  {
  }

  lemma UnscoredHasNoFirst(t: Tables, front: seq<ScoringResult>, consumer: string, later: Tables, key: ScoreKey)
    requires ScoresAfter(t, front, consumer, later) && key !in later.scores
    ensures key !in t.scores && forall i: nat :: IsFirst(t, front, consumer, i) ==> KeyOf(front[i]) != key
  {
  }

  lemma {:induction false} AllAfter(t: Tables, results: seq<ScoringResult>, consumer: string)
    requires Deliverable(t, results)
    ensures ScoresAfter(t, results, consumer, ProjectAll(t, results, consumer))
  {
    if results != [] {
      var front, r := results[..|results| - 1], results[|results| - 1];
      assert results == front + [r];
      assert forall x :: x in front ==> x in results;
      AllAfter(t, front, consumer);
      OneMore(t, front, r, consumer, ProjectAll(t, front, consumer));
    }
  }

  lemma OneMore(t: Tables, front: seq<ScoringResult>, r: ScoringResult, consumer: string, later: Tables)
    requires ScoresAfter(t, front, consumer, later) && Deliverable(t, front + [r])
    ensures var o := Project(later, r, consumer);
            ScoresAfter(t, front + [r], consumer, if o.Projected? || o.Outdated? then o.tables else later)
  {
    hide Kept;
    var o := Project(later, r, consumer);
    var more := if o.Projected? || o.Outdated? then o.tables else later;
    assert r in front + [r];
    NeverRefused(t, front, r, consumer, later);
    ClaimedIsNotFirst(t, front, r, consumer, later);
    forall key | key in more.scores
      ensures Kept(t, front + [r], consumer, key, more.scores[key])
    {
      ScoresAfterOneMore(t, front, r, consumer, later, key);
    }
    forall i: nat | IsFirst(t, front + [r], consumer, i)
      ensures KeyOf((front + [r])[i]) in more.scores
    {
      if i < |front| {
        PrefixFirst(t, front, r, consumer, i);
      }
    }
    forall id: EventId
      ensures (id, consumer) in more.inbox <==>
              (id, consumer) in t.inbox || exists x :: x in front + [r] && x.eventId == id
    {
      if x :| x in front && x.eventId == id {
        assert x in front + [r];
      }
    }
  }

  // ---- the theorems ----

  /** Whatever was delivered, in whatever order and however often: a transaction whose result
      was delivered has a score, the score is one of the first deliveries (or the score from
      before), and no first delivery lies above it. */
  lemma KeptScoreIsMaximal(t: Tables, results: seq<ScoringResult>, consumer: string, i: nat)
    requires Deliverable(t, results) && IsFirst(t, results, consumer, i)
    ensures var later := ProjectAll(t, results, consumer);
            && KeyOf(results[i]) in later.scores
            && Kept(t, results, consumer, KeyOf(results[i]), later.scores[KeyOf(results[i])])
  {
    AllAfter(t, results, consumer);
  }

  /** A score's watermark and time never decrease while results arrive. */
  lemma {:induction false} ScoresNeverDecrease(t: Tables, results: seq<ScoringResult>, consumer: string, key: ScoreKey)
    requires key in t.scores
    ensures var later := ProjectAll(t, results, consumer);
            && key in later.scores
            && t.scores[key].watermark <= later.scores[key].watermark
            && t.scores[key].scoredAt <= later.scores[key].scoredAt
  {
    if results != [] {
      ScoresNeverDecrease(t, results[..|results| - 1], consumer, key);
    }
  }

  ghost predicate IdFixesPayload(results: seq<ScoringResult>) {
    forall a, b :: a in results && b in results && a.eventId == b.eventId ==> a == b
  }

  lemma {:induction false} HasFirst(t: Tables, results: seq<ScoringResult>, consumer: string, n: nat) returns (i: nat)
    requires n < |results| && (results[n].eventId, consumer) !in t.inbox
    ensures i <= n && IsFirst(t, results, consumer, i) && results[i].eventId == results[n].eventId
  {
    if j :| 0 <= j < n && results[j].eventId == results[n].eventId {
      i := HasFirst(t, results, consumer, j);
    } else {
      i := n;
    }
  }

  /** When an identity fixes its payload, the kept score is maximal among everything that was
      delivered, not only among first copies. */
  lemma MaximalAmongAll(t: Tables, results: seq<ScoringResult>, consumer: string, n: nat)
    requires Deliverable(t, results) && IdFixesPayload(results)
    requires n < |results| && (results[n].eventId, consumer) !in t.inbox
    ensures var later := ProjectAll(t, results, consumer);
            && KeyOf(results[n]) in later.scores
            && var kept := later.scores[KeyOf(results[n])];
               Supersedes(results[n], kept) ==> results[n].watermark == kept.watermark && results[n].scoredAt == kept.scoredAt
  {
    AllAfter(t, results, consumer);
    var i := HasFirst(t, results, consumer, n);
    assert results[i] in results && results[n] in results;
    KeptScoreIsMaximal(t, results, consumer, i);
  }

  /** `top` lies above every other delivered result of its transaction and model. */
  ghost predicate IsTop(results: seq<ScoringResult>, top: ScoringResult) {
    top in results && forall r :: r in results && KeyOf(r) == KeyOf(top) && r != top ==> Above(top, r)
  }

  /** Nothing was known of the transaction and model, and none of the results was claimed. */
  ghost predicate Untouched(t: Tables, results: seq<ScoringResult>, consumer: string, key: ScoreKey) {
    key !in t.scores && forall r :: r in results && KeyOf(r) == key ==> (r.eventId, consumer) !in t.inbox
  }

  /** The first delivered copy of the greatest result's event is that result. */
  ghost predicate FirstCopyIs(t: Tables, results: seq<ScoringResult>, consumer: string, top: ScoringResult) {
    exists i: nat :: IsFirst(t, results, consumer, i) && results[i] == top
  }

  /** The score ends as the greatest delivered result exactly when the first delivered copy of
      that result's event is the result itself: a copy scored again may come too late. */
  lemma GreatestWinsExactly(t: Tables, results: seq<ScoringResult>, consumer: string, top: ScoringResult)
    requires Deliverable(t, results) && Untouched(t, results, consumer, KeyOf(top)) && IsTop(results, top)
    ensures KeyOf(top) in ProjectAll(t, results, consumer).scores
    ensures ProjectAll(t, results, consumer).scores[KeyOf(top)] == ScoreOf(top) <==> FirstCopyIs(t, results, consumer, top)
  {
    var j := KeptFrom(t, results, consumer, top);
    var kept := ProjectAll(t, results, consumer).scores[KeyOf(top)];
    if i: nat :| IsFirst(t, results, consumer, i) && results[i] == top {
      TopIsKept(t, results, consumer, top, i, kept);
    }
  }

  /** For the same reason, and under the same condition, no delivered result lies above the
      kept score. */
  lemma MaximalExactly(t: Tables, results: seq<ScoringResult>, consumer: string, top: ScoringResult)
    requires Deliverable(t, results) && Untouched(t, results, consumer, KeyOf(top)) && IsTop(results, top)
    ensures KeyOf(top) in ProjectAll(t, results, consumer).scores
    ensures var kept := ProjectAll(t, results, consumer).scores[KeyOf(top)];
            (forall r :: r in results && KeyOf(r) == KeyOf(top) ==> !AboveScore(r, kept))
            <==> FirstCopyIs(t, results, consumer, top)
  {
    GreatestWinsExactly(t, results, consumer, top);
    var j := KeptFrom(t, results, consumer, top);
    assert results[j] != top ==> Above(top, results[j]);
  }

  /** The kept score is some first delivery's. */
  lemma KeptFrom(t: Tables, results: seq<ScoringResult>, consumer: string, top: ScoringResult) returns (j: nat)
    requires Deliverable(t, results) && Untouched(t, results, consumer, KeyOf(top)) && top in results
    ensures KeyOf(top) in ProjectAll(t, results, consumer).scores
    ensures var kept := ProjectAll(t, results, consumer).scores[KeyOf(top)];
            && Kept(t, results, consumer, KeyOf(top), kept)
            && IsFirst(t, results, consumer, j) && KeyOf(results[j]) == KeyOf(top) && kept == ScoreOf(results[j])
            && results[j] in results
  {
    AllAfter(t, results, consumer);
    var n :| 0 <= n < |results| && results[n] == top;
    var i := HasFirst(t, results, consumer, n);
    assert results[i] in results;
    KeptScoreIsMaximal(t, results, consumer, i);
    var kept := ProjectAll(t, results, consumer).scores[KeyOf(top)];
    j :| IsFirst(t, results, consumer, j) && KeyOf(results[j]) == KeyOf(top) && kept == ScoreOf(results[j]);
  }

  lemma TopIsKept(t: Tables, results: seq<ScoringResult>, consumer: string, top: ScoringResult, i: nat, kept: Score)
    requires KeyOf(top) !in t.scores && Kept(t, results, consumer, KeyOf(top), kept)
    requires IsFirst(t, results, consumer, i) && results[i] == top && IsTop(results, top)
    ensures kept == ScoreOf(top)
  {
    var j: nat :| IsFirst(t, results, consumer, j) && KeyOf(results[j]) == KeyOf(top) && kept == ScoreOf(results[j]);
    assert results[j] in results;
  }

  /** Any two different results for one transaction and model are strictly ordered by the guard. */
  ghost predicate StrictChain(results: seq<ScoringResult>) {
    forall a, b :: a in results && b in results && KeyOf(a) == KeyOf(b) && a != b ==> Above(a, b) || Above(b, a)
  }

  /** In a strict chain there is always a greatest result. */
  lemma {:induction false} ChainHasTop(results: seq<ScoringResult>, key: ScoreKey) returns (top: ScoringResult)
    requires StrictChain(results) && exists r :: r in results && KeyOf(r) == key
    ensures KeyOf(top) == key && IsTop(results, top)
  {
    var front, last := results[..|results| - 1], results[|results| - 1];
    assert results == front + [last];
    if r :| r in front && KeyOf(r) == key {
      top := ChainHasTop(front, key);
      if KeyOf(last) == key && last != top && Above(last, top) {
        top := last;
      }
    } else {
      top := last;
    }
  }

  /** When the results of one transaction and model form a strict chain, whatever their order
      and repetitions, one of them lies above the others, and the score ends as that one exactly
      when the first delivered copy of its event is it. */
  lemma ChainIsWonExactly(t: Tables, results: seq<ScoringResult>, consumer: string, key: ScoreKey)
    returns (top: ScoringResult)
    requires Deliverable(t, results) && StrictChain(results) && Untouched(t, results, consumer, key)
    requires exists r :: r in results && KeyOf(r) == key
    ensures KeyOf(top) == key && IsTop(results, top) && key in ProjectAll(t, results, consumer).scores
    ensures ProjectAll(t, results, consumer).scores[key] == ScoreOf(top) <==> FirstCopyIs(t, results, consumer, top)
  {
    top := ChainHasTop(results, key);
    GreatestWinsExactly(t, results, consumer, top);
  }

  /** When an identity fixes its payload the condition always holds: the score ends as the
      greatest result for every order of delivery and any repetitions. */
  lemma GreatestWins(t: Tables, results: seq<ScoringResult>, consumer: string, top: ScoringResult)
    requires Deliverable(t, results) && IdFixesPayload(results)
    requires Untouched(t, results, consumer, KeyOf(top)) && IsTop(results, top)
    ensures KeyOf(top) in ProjectAll(t, results, consumer).scores
    ensures ProjectAll(t, results, consumer).scores[KeyOf(top)] == ScoreOf(top)
  {
    var n :| 0 <= n < |results| && results[n] == top;
    var i := HasFirst(t, results, consumer, n);
    assert results[i] in results;
    GreatestWinsExactly(t, results, consumer, top);
  }

  /** The condition can fail: a request scored again after a crash yields a copy with the
      same identity and a later time, and the copy is ignored although it lies above. */
  lemma RescoredCopyIsIgnored()
    ensures exists t: Tables, first: ScoringResult, again: ScoringResult, consumer: string ::
              && Deliverable(t, [first, again]) && !IdFixesPayload([first, again])
              && Above(again, first)
              && KeyOf(again) in ProjectAll(t, [first, again], consumer).scores
              && ProjectAll(t, [first, again], consumer).scores[KeyOf(again)] == ScoreOf(first)
  {
    var id := Completed(Requested(Observed("s", 1), "a", 1), "m");
    var first := ScoringResult(id, "a", "m", "f", 0.5, 1, 10);
    var again := first.(scoredAt := 11);
    var t := EMPTY.(nodes := map["a" := NodeRow(1, [], "f", 0, 0, 1)]);
    var both := [first, again];
    assert both[0] in both && both[1] in both;
    assert both[..1] == [first] && [first][..0] == [];
    var one := Project(t, first, "p");
    assert !SourceHeldElsewhere(t.scores, KeyOf(first), id);
    assert one.Projected? && (id, "p") in one.tables.inbox;
    assert ProjectAll(t, [first], "p") == one.tables by {
      assert ProjectAll(t, [], "p") == t;
    }
    assert ProjectAll(t, both, "p") == one.tables;
    assert Deliverable(t, both);
  }
}
