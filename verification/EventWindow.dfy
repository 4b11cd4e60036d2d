/** The dashboard's window of recent event ids, which keeps redelivered events out. */
module EventWindow {
  function LastOf<T>(xs: seq<T>, n: nat): seq<T> {
    if |xs| <= n then xs else xs[|xs| - n..]
  }

  /** The events let through so far. */
  function Accepted(events: seq<string>, window: nat): seq<string> {
    if events == [] then []
    else
      var before := Accepted(events[..|events| - 1], window);
      var event := events[|events| - 1];
      if event in LastOf(before, window) then before else before + [event]
  }

  predicate NoRepeats(ids: seq<string>) {
    forall i, j :: 0 <= i < j < |ids| ==> ids[i] != ids[j]
  }

  lemma OneMoreRemembered(before: seq<string>, event: string, window: nat)
    requires NoRepeats(LastOf(before, window)) && event !in LastOf(before, window)
    ensures var next := LastOf(before, window) + [event];
            && NoRepeats(next)
            && LastOf(before + [event], window) == if |next| > window then next[1..] else next
  {
  }

  lemma FirstExpires(ids: seq<string>)
    requires ids != [] && NoRepeats(ids)
    ensures NoRepeats(ids[1..])
    ensures (set id | id in ids) - {ids[0]} == set id | id in ids[1..]
  {
    assert ids == [ids[0]] + ids[1..];
  }

  lemma OfferOne(events: seq<string>, event: string, window: nat)
    ensures var before := Accepted(events, window);
            Accepted(events + [event], window) == before + if event in LastOf(before, window) then [] else [event]
  {
    assert (events + [event])[..|events|] == events;
    assert Accepted(events, window) + [] == Accepted(events, window);
  }

  class EventWindow {
    const window: nat
    var recent: seq<string>
    var ids: set<string>
    ghost var offered: seq<string>

    /** The window holds the last accepted ids, each once, and the set the same ids. */
    ghost predicate Valid()
      reads this
    {
      && recent == LastOf(Accepted(offered, window), window)
      && NoRepeats(recent)
      && ids == set id | id in recent
    }

    constructor (window: nat)
      ensures Valid() && this.window == window && offered == []
    {
      this.window, recent, ids, offered := window, [], {}, [];
    }

    method RememberEvent(event: string) returns (isNew: bool)
      requires Valid()
      modifies this
      ensures Valid() && offered == old(offered) + [event]
      ensures isNew <==> event !in old(recent)
      ensures Accepted(offered, window) == Accepted(old(offered), window) + if isNew then [event] else []
    {
      hide LastOf, NoRepeats, Accepted;
      OfferOne(offered, event, window);
      ghost var before := Accepted(offered, window);
      assert recent == LastOf(before, window) && before + [] == before;
      offered := offered + [event];
      if event in ids {
        return false;
      }
      OneMoreRemembered(before, event, window);
      ids := ids + {event};
      recent := recent + [event];
      if |recent| > window {
        FirstExpires(recent);
        var expired := recent[0];
        recent := recent[1..];
        ids := ids - {expired};
      }
      return true;
    }
  }

  lemma {:induction false} AcceptedGrows(events: seq<string>, window: nat, k: nat)
    requires k <= |events|
    ensures Accepted(events[..k], window) <= Accepted(events, window)
  {
    if k < |events| {
      var front := events[..|events| - 1];
      AcceptedGrows(front, window, k);
      assert front[..k] == events[..k];
    } else {
      assert events[..k] == events;
    }
  }

  /** An event let through is not let through again before `window` others were. */
  lemma RedeliveryIsIgnored(events: seq<string>, window: nat, k: nat)
    requires k < |events|
    requires Accepted(events[..k + 1], window) == Accepted(events[..k], window) + [events[k]]
    requires |Accepted(events, window)| - |Accepted(events[..k + 1], window)| < window
    ensures Accepted(events + [events[k]], window) == Accepted(events, window)
  {
    AcceptedGrows(events, window, k + 1);
    var now, at := Accepted(events, window), Accepted(events[..k + 1], window);
    assert now[|at| - 1] == events[k];
    assert |at| - 1 >= |now| - window;
    assert events[k] in LastOf(now, window) by {
      if |now| > window {
        assert LastOf(now, window)[|at| - 1 - (|now| - window)] == events[k];
      }
    }
    assert (events + [events[k]])[..|events|] == events;
  }
}
