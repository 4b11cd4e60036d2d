/** Continuations: which states a run can go on to from a given one. */
module Paths {
  import opened Pipeline

  ghost predicate IsPath(c: Config, path: seq<State>) {
    path != [] && forall i :: 0 <= i < |path| - 1 ==> Next(c, path[i], path[i + 1])
  }

  /** Some steps lead from one state to the other. */
  ghost predicate Leads(c: Config, s: State, t: State) {
    exists path :: IsPath(c, path) && path[0] == s && path[|path| - 1] == t
  }

  lemma LeadsToItself(c: Config, s: State)
    ensures Leads(c, s, s)
  {
    assert IsPath(c, [s]);
  }

  lemma LeadsOn(c: Config, s: State, t: State, u: State)
    requires Leads(c, s, t) && Leads(c, t, u)
    ensures Leads(c, s, u)
  {
    hide Next;
    var first :| IsPath(c, first) && first[0] == s && first[|first| - 1] == t;
    var second :| IsPath(c, second) && second[0] == t && second[|second| - 1] == u;
    assert IsPath(c, first + second[1..]);
  }

  lemma StartIsReachable(c: Config)
    ensures Reachable(c, Init(c))
  {
    assert IsRun(c, [Init(c)]);
  }

  /** A run followed by a path is a run. */
  lemma ReachableOn(c: Config, s: State, t: State)
    requires Reachable(c, s) && Leads(c, s, t)
    ensures Reachable(c, t)
  {
    hide Next, Init;
    var run :| IsRun(c, run) && run[|run| - 1] == s;
    var path :| IsPath(c, path) && path[0] == s && path[|path| - 1] == t;
    assert IsRun(c, run + path[1..]);
  }

  /** One step leads on. */
  lemma OneStep(c: Config, s: State, step: Step)
    requires MayStep(c, s, step)
    ensures Leads(c, s, Do(c, s, step))
  {
    hide MayStep, Do;
    assert Next(c, s, Do(c, s, step));
    assert IsPath(c, [s, Do(c, s, step)]);
  }

  /** A step from a reachable state ends in one. */
  lemma OneStepFurther(c: Config, s: State, step: Step)
    requires Reachable(c, s) && MayStep(c, s, step)
    ensures Reachable(c, Do(c, s, step))
  {
    hide MayStep, Do, Init, Reachable, Leads;
    OneStep(c, s, step);
    ReachableOn(c, s, Do(c, s, step));
  }

  /** Whatever every step keeps, every path keeps. */
  lemma {:induction false} PathKeeps(c: Config, path: seq<State>, holds: State -> bool)
    requires IsPath(c, path) && holds(path[0])
    requires forall s, step :: holds(s) && MayStep(c, s, step) ==> holds(Do(c, s, step))
    ensures holds(path[|path| - 1])
  {
    hide MayStep, Do;
    if |path| > 1 {
      var last := |path| - 1;
      assert Next(c, path[last - 1], path[last]);
      var step :| MayStep(c, path[last - 1], step) && path[last] == Do(c, path[last - 1], step);
      FrontIsPath(c, path);
      PathKeeps(c, path[..last], holds);
    }
  }

  lemma FrontIsPath(c: Config, path: seq<State>)
    requires IsPath(c, path) && |path| > 1
    ensures IsPath(c, path[..|path| - 1])
  {
    hide Next;
    var front := path[..|path| - 1];
    assert forall i :: 0 <= i < |front| - 1 ==> Next(c, path[i], path[i + 1]);
  }
}
