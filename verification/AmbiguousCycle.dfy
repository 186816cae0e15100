/**
  What the recursive solver does to programs with an ambiguous goal on a cycle.  Its loop
  also stops, without another round, when the new value is ambiguous.  What was found
  beneath the goal then still rests on its old value, and goes to the cache.  The value of
  the goal itself can be wrong, too, since ambiguous values can still rise.
 */
module AmbiguousCycle {
  import opened Prelude
  import opened FixedPoints
  import opened SearchGraph
  import opened SearchRounds
  import opened RecursiveSolver

  /** Two goals and three values; `low` is below `mid` and `high`, and `high` stands for an ambiguous value. */
  datatype Names = Names(a: Goal, b: Goal, low: Value, mid: Value, high: Value)

  predicate Distinct(n: Names) {
    n.a != n.b && n.low != n.mid && n.low != n.high && n.mid != n.high
  }

  /** `a` asks for `b` and is `high` whatever the answer; `b` is `mid` if `a` is `high` and `low` otherwise. */
  function TwoGoals(n: Names): Program {
    Program(
      {n.a, n.b},
      g => 0,
      g => false,
      (g, answers) =>
        if |answers| == 0 then Ask(if g == n.a then n.b else n.a)
        else Done(if g == n.a then n.high else if answers[0] == n.high then n.mid else n.low),
      1,
      (kind, u, v) => u == v || u == n.low,
      kind => n.low,
      (kind, v) => if v == n.low then 0 else 1,
      1,
      v => v == n.high)
  }

  lemma TwoSteps(n: Names, w: World)
    requires Distinct(n) && w.Keys == {n.a, n.b}
    ensures Step(TwoGoals(n), w, n.a) == n.high
    ensures Step(TwoGoals(n), w, n.b) == if w[n.a] == n.high then n.mid else n.low
  {
    var p := TwoGoals(n);
    assert Eval(p, n.a, [], w) == Eval(p, n.a, [] + [w[n.b]], w);
    assert Eval(p, n.b, [], w) == Eval(p, n.b, [] + [w[n.a]], w);
  }

  lemma TwoGoalsAreWellFormed(n: Names)
    requires Distinct(n)
    ensures WellFormed(TwoGoals(n)) && Uniform(TwoGoals(n))
  {
    hide Step;
    var p := TwoGoals(n);
    forall g, w, w' | g in p.goals && IsWorld(p, w) && IsWorld(p, w') && Under(p, p.stratum(g), w, w')
      ensures Leq(p, g, Step(p, w, g), Step(p, w', g))
    {
      TwoSteps(n, w);
      TwoSteps(n, w');
    }
    assert Ordered(p, true) && Ordered(p, false);
    assert AsksKnown(p) && Monotone(p);
  }

  /** The values are `high` and `mid`, but if `a` is assumed to be `low` then `b` is, too. */
  lemma TwoModels(n: Names)
    requires Distinct(n) && WellFormed(TwoGoals(n))
    ensures var truth := Truth(TwoGoals(n)); truth[n.a] == n.high && truth[n.b] == n.mid
    ensures Model(TwoGoals(n), map[]) == Truth(TwoGoals(n))
    ensures Model(TwoGoals(n), map[n.a := n.low])[n.b] == n.low
  {
    hide WellFormed, Truth, Step, IsLeast, LevelWorld, Model;
    var p := TwoGoals(n);
    TruthIsLeast(p, 0);
    LeastElsewhere(p, 0, Truth(p), map[], Truth(p), n.a);
    LeastElsewhere(p, 0, Truth(p), map[], Truth(p), n.b);
    TwoSteps(n, Truth(p));
    NothingAssumed(p);
    var tau := map[n.a := n.low];
    var m := LevelWorld(p, tau, 0);
    LevelWorldIsLeast(p, tau, 0);
    LeastElsewhere(p, 0, Truth(p), tau, m, n.a);
    TwoSteps(n, m);
    ModelIsFixedPoint(p, tau, n.b);
  }

  /** An iteration for `a` asks exactly one question. */
  lemma OneQuestion(n: Names, base: Context, asked: seq<Goal>, answers: seq<Value>, value: Value)
    requires Distinct(n) && WellFormed(TwoGoals(n)) && Asked(TwoGoals(n), n.a, base, asked, answers)
    requires TwoGoals(n).request(n.a, answers) == Done(value)
    ensures asked == [n.b] && value == n.high && |answers| == 1 && answers[0] == Model(TwoGoals(n), base)[n.b]
  {
    hide WellFormed, Model;
    assert |answers| >= 1;
    assert answers[..0] == [];
    var first := if |answers| > 1 then answers[..1] else answers;
    assert TwoGoals(n).request(n.a, first).Done?;
  }

  /** A value below `high` that is not `high` itself is `low`. */
  lemma BelowHigh(n: Names, v: Value)
    requires Distinct(n) && Leq(TwoGoals(n), n.a, v, n.high) && v != n.high
    ensures v == n.low
  {
  }

  /** No search for `a` comes to an end with a value. */
  lemma NoLastRound(n: Names, value: Value)
    requires Distinct(n) && WellFormed(TwoGoals(n))
    ensures !LastRound(TwoGoals(n), map[], n.a, value)
  {
    hide WellFormed, Truth, Model, Asked;
    var p := TwoGoals(n);
    TwoModels(n);
    forall v, asked, answers
      ensures !QuietRound(p, map[], n.a, v, asked, answers, value)
    {
      if Asked(p, n.a, map[n.a := v], asked, answers) && p.request(n.a, answers) == Done(value) {
        var base := map[n.a := v];
        assert map[][n.a := v] == base;
        OneQuestion(n, base, asked, answers, value);
        if v != n.high && Leq(p, n.a, v, n.high) {
          BelowHigh(n, v);
          assert answers[0] != Model(p, map[])[asked[0]];
        }
      }
    }
  }

  /** If the loop of the root goal `a` stops, `b` is recorded as `low`. */
  lemma StopLeavesLow(n: Names, r: RoundRecord, s: State)
    requires Distinct(n) && WellFormed(TwoGoals(n)) && StoppedAfter(TwoGoals(n), r, s)
    requires r.dfn == 0 ==> r.tau == map[]
    requires RootIs(s.nodes, n.a)
    ensures r.dfn == 0 && TopIs(s, 0) && |s.stack| == 1 && r.goal == n.a
    ensures n.b in s.indices && s.indices[n.b] < |s.nodes| && s.nodes[s.indices[n.b]].goal == n.b
    ensures s.nodes[s.indices[n.b]].solution == n.low
  {
    hide WellFormed, Truth, Model, Told, NewNodes, RoundDone, Ready, Searching, AnswerState;
    var p := TwoGoals(n);
    TwoModels(n);
    StoppedValueIsTrue(p, r, s);
    StoppedIsSettled(p, r, s);
    StoppedKeepsSearch(p, r, s);
    SearchingParts(p, s, r.goal, r.dfn, r.tau);
    RootIsFirst(p, s, n.a, r.dfn);
    StoppedAssumesLow(n, r, s);
    WrongAnswerStays(p, r, s, 0);
    GoalAt(p, s, n.b);
  }

  lemma GoalAt(p: Program, s: State, g: Goal)
    requires IndexOk(p, s.nodes, s.indices) && g in s.indices
    ensures s.indices[g] < |s.nodes| && s.nodes[s.indices[g]].goal == g
  {
  }

  lemma RootIsFirst(p: Program, s: State, g: Goal, dfn: nat)
    requires WellFormed(p) && GraphOk(p, s) && TopIs(s, dfn) && s.nodes[dfn].goal == g && RootIs(s.nodes, g)
    ensures dfn == 0 && |s.stack| == 1
  {
    hide WellFormed, StrataOk, NodesCautious, CacheExact;
    assert s.nodes[0].goal == s.nodes[dfn].goal;
    PathRises(p, s, |s.path| - 1);
  }

  lemma {:induction false} PathRises(p: Program, s: State, d: nat)
    requires StackOk(p, s) && d < |s.path|
    ensures d <= s.path[d]
  {
    if d > 0 {
      PathRises(p, s, d - 1);
      assert s.path[d - 1] < s.path[d];
    }
  }

  lemma StoppedAssumesLow(n: Names, r: RoundRecord, s: State)
    requires Distinct(n) && WellFormed(TwoGoals(n)) && StoppedAfter(TwoGoals(n), r, s) && r.goal == n.a
             && r.tau == map[]
    ensures r.asked == [n.b] && |r.answers| == 1 && r.answers[0] == n.low
  {
    hide WellFormed, GraphOk, Truth, Model, NewNodes, Ready, Searching, AnswerState, Asked, AllBounded, Extends, Covers,
      Cautious, Round, Known;
    var p, v := TwoGoals(n), r.state.nodes[r.dfn].solution;
    TwoModels(n);
    SearchingParts(p, r.state, r.goal, r.dfn, r.tau);
    assert map[][n.a := v] == map[n.a := v];
    OneQuestion(n, map[n.a := v], r.asked, r.answers, r.answer);
    BelowHigh(n, v);
  }

  /** The search stops early, and leaves a graph that can be moved to the cache. */
  lemma SearchStops(n: Names, s: State, why: Halt)
    requires Distinct(n) && WellFormed(TwoGoals(n)) && Uniform(TwoGoals(n))
    requires HaltIs(TwoGoals(n), 2, s, why, 0, map[]) && RootIs(s.nodes, n.a)
    ensures why.EarlyStop? && TopIs(s, 0) && |s.stack| == 1
    ensures var t := PopState(s, 0, s.nodes[0].solution, why.minimums);
            && GraphOk(TwoGoals(n), t) && DoneFrom(t.nodes, 0)
            && exists i :: 0 <= i < |t.nodes| && t.nodes[i].goal == n.b && t.nodes[i].solution == n.low
  {
    hide WellFormed, StoppedAfter, MixedFrom, Uniform, GraphOk, Searching, NewNodes, IndexOk, PopState, RootIs, Known;
    var p := TwoGoals(n);
    if why.MixedCycle? {
      var depth :| MixedFrom(p, s, depth);
      UniformNeverMixes(p, s, depth);
      assert false;
    }
    var r :| StoppedAt(p, s, why.minimums, 0, map[], r);
    StopLeavesLow(n, r, s);
    StoppedKeepsSearch(p, r, s);
    FinishPops(p, s, n.a, 0, map[], why.minimums);
    PoppedNode(s, why.minimums, n.b);
  }

  lemma PoppedNode(s: State, links: nat, g: Goal)
    requires TopIs(s, 0) && g in s.indices && s.indices[g] < |s.nodes|
    ensures var t := PopState(s, 0, s.nodes[0].solution, links);
            && |t.nodes| == |s.nodes|
            && t.nodes[s.indices[g]].goal == s.nodes[s.indices[g]].goal
            && t.nodes[s.indices[g]].solution == s.nodes[s.indices[g]].solution
  {
  }

  lemma DrainedAt(nodes: seq<Node>, cache: map<Goal, Value>, cache': map<Goal, Value>, g: Goal, v: Value)
    requires Drained(nodes[0..], |nodes| - 0, cache, cache')
    requires exists i :: 0 <= i < |nodes| && nodes[i].goal == g && nodes[i].solution == v
    ensures g in cache' && cache'[g] == v
  {
    assert nodes[0..] == nodes;
  }

  /**
    Searching for `a` stops early.  Going on from there as the solver does, by taking the goal off the stack and
    moving it and all later nodes to the cache, leaves `low` there as the value of `b`, which is `mid`.
   */
  method SearchLeavesWrongValue(n: Names) returns (r: Outcome, cached: map<Goal, Value>)
    requires Distinct(n)
    ensures r.Halted? && r.why.EarlyStop?
    ensures n.b in cached && cached[n.b] == n.low
    ensures WellFormed(TwoGoals(n)) && Truth(TwoGoals(n))[n.b] == n.mid
  {
    hide WellFormed, Uniform, Truth, Model, LastRound, HaltIs, RootIs, GraphOk, IndexOk, Ready, PopState, Drained,
      TwoGoals, StackOk, NodesCautious;
    TwoGoalsAreWellFormed(n);
    TwoModels(n);
    HasBothGoals(n);
    var solver := new RecursiveContext(TwoGoals(n), 2, true);
    r := solver.SolveRootGoal(n.a);
    if r.Answer? {
      NoLastRound(n, r.value);
      assert false;
    }
    SearchStops(n, solver.Snap(), r.why);
    solver.PopGoal(0, 0, r.why.minimums);
    ghost var t := solver.Snap();
    GraphParts(solver.program, t);
    solver.MoveToCache(0);
    cached := solver.cache.value;
    DrainedAt(t.nodes, t.cache, cached, n.b, n.low);
  }

  lemma HasBothGoals(n: Names)
    requires Distinct(n)
    ensures TwoGoals(n).goals == {n.a, n.b} && |TwoGoals(n).goals| == 2
  {
  }

  // ----- A goal that asks for itself -----

  /** One goal and three values in a chain; all but `low` stand for ambiguous values. */
  datatype Chain = Chain(a: Goal, low: Value, mid: Value, high: Value)

  predicate IsChain(c: Chain) {
    c.low != c.mid && c.low != c.high && c.mid != c.high
  }

  /** `a` asks for `a` and is `mid` if the answer is `low` and `high` otherwise. */
  function OneGoal(c: Chain): Program {
    Program(
      {c.a},
      g => 0,
      g => false,
      (g, answers) => if |answers| == 0 then Ask(c.a) else Done(if answers[0] == c.low then c.mid else c.high),
      1,
      (kind, u, v) => u == v || u == c.low || (u == c.mid && v == c.high),
      kind => c.low,
      (kind, v) => if v == c.low then 0 else if v == c.mid then 1 else 2,
      2,
      v => v != c.low)
  }

  lemma OneStep(c: Chain, w: World)
    requires IsChain(c) && w.Keys == {c.a}
    ensures Step(OneGoal(c), w, c.a) == if w[c.a] == c.low then c.mid else c.high
  {
    var p := OneGoal(c);
    assert Eval(p, c.a, [], w) == Eval(p, c.a, [] + [w[c.a]], w);
  }

  lemma OneGoalIsWellFormed(c: Chain)
    requires IsChain(c)
    ensures WellFormed(OneGoal(c)) && Uniform(OneGoal(c)) && SettledIsUpward(OneGoal(c), false)
  {
    hide Step;
    var p := OneGoal(c);
    forall g, w, w' | g in p.goals && IsWorld(p, w) && IsWorld(p, w') && Under(p, p.stratum(g), w, w')
      ensures Leq(p, g, Step(p, w, g), Step(p, w', g))
    {
      OneStep(c, w);
      OneStep(c, w');
    }
    assert Ordered(p, true) && Ordered(p, false);
    assert AsksKnown(p) && Monotone(p);
  }

  lemma OneTruth(c: Chain)
    requires IsChain(c) && WellFormed(OneGoal(c))
    ensures Truth(OneGoal(c))[c.a] == c.high
    ensures Model(OneGoal(c), map[]) == Truth(OneGoal(c)) && Model(OneGoal(c), map[c.a := c.low])[c.a] == c.low
  {
    hide WellFormed, Truth, Step, IsLeast, Model;
    var p := OneGoal(c);
    TruthIsLeast(p, 0);
    LeastElsewhere(p, 0, Truth(p), map[], Truth(p), c.a);
    OneStep(c, Truth(p));
    NothingAssumed(p);
    ModelIsFixedPoint(p, map[c.a := c.low], c.a);
  }

  lemma OneSelfQuestion(c: Chain, v: Value, asked: seq<Goal>, answers: seq<Value>, value: Value)
    requires IsChain(c) && WellFormed(OneGoal(c)) && v == c.low && Asked(OneGoal(c), c.a, map[c.a := v], asked, answers)
    requires OneGoal(c).request(c.a, answers) == Done(value)
    ensures asked == [c.a] && answers == [c.low] && value == c.mid
  {
    hide WellFormed, Model, Truth;
    OneTruth(c);
    assert |answers| >= 1;
    assert answers[..0] == [];
    var first := if |answers| > 1 then answers[..1] else answers;
    assert OneGoal(c).request(c.a, first).Done?;
  }

  /** No search for `a` comes to an end with a value. */
  lemma NoLastRoundAlone(c: Chain, value: Value)
    requires IsChain(c) && WellFormed(OneGoal(c))
    ensures !LastRound(OneGoal(c), map[], c.a, value)
  {
    hide WellFormed, Truth, Model, Asked;
    var p := OneGoal(c);
    OneTruth(c);
    forall v, asked, answers
      ensures !QuietRound(p, map[], c.a, v, asked, answers, value)
    {
      if v == c.low && Asked(p, c.a, map[c.a := v], asked, answers) && p.request(c.a, answers) == Done(value) {
        assert map[][c.a := v] == map[c.a := v];
        OneSelfQuestion(c, v, asked, answers, value);
        assert answers[0] != Model(p, map[])[asked[0]];
      }
      assert map[][c.a := v] == map[c.a := v];
    }
  }

  /** If the loop of `a` stops, `a` is recorded as `mid`. */
  lemma StopLeavesMid(c: Chain, r: RoundRecord, s: State)
    requires IsChain(c) && WellFormed(OneGoal(c)) && StoppedAfter(OneGoal(c), r, s)
    requires r.dfn == 0 ==> r.tau == map[]
    requires RootIs(s.nodes, c.a)
    ensures r.dfn == 0 && r.tau == map[] && r.goal == c.a && TopIs(s, 0) && |s.stack| == 1
    ensures s.nodes[0].goal == c.a && s.nodes[0].solution == c.mid
  {
    hide WellFormed, GraphOk, Truth, Model, NewNodes, Ready, Searching, AnswerState, Asked, AllBounded, RoundDone, Leq;
    var p := OneGoal(c);
    SearchingParts(p, r.state, r.goal, r.dfn, r.tau);
    var v := r.state.nodes[r.dfn].solution;
    StoppedValue(p, r, s);
    StoppedKeepsSearch(p, r, s);
    SearchingParts(p, s, r.goal, r.dfn, r.tau);
    RootIsFirst(p, s, c.a, r.dfn);
    assert map[][c.a := v] == map[c.a := v];
    OneSelfQuestion(c, v, r.asked, r.answers, r.answer);
  }

  /** The search stops early, and leaves a graph that can be moved to the cache. */
  lemma SearchStopsAlone(c: Chain, s: State, why: Halt)
    requires IsChain(c) && WellFormed(OneGoal(c)) && Uniform(OneGoal(c))
    requires HaltIs(OneGoal(c), 1, s, why, 0, map[]) && RootIs(s.nodes, c.a)
    ensures why.EarlyStop? && TopIs(s, 0) && |s.stack| == 1
    ensures var t := PopState(s, 0, s.nodes[0].solution, why.minimums);
            && GraphOk(OneGoal(c), t) && DoneFrom(t.nodes, 0)
            && exists i :: 0 <= i < |t.nodes| && t.nodes[i].goal == c.a && t.nodes[i].solution == c.mid
  {
    hide WellFormed, StoppedAfter, MixedFrom, Uniform, GraphOk, Searching, NewNodes, IndexOk, RootIs, Known;
    var p := OneGoal(c);
    if why.MixedCycle? {
      var depth :| MixedFrom(p, s, depth);
      UniformNeverMixes(p, s, depth);
      assert false;
    }
    var r :| StoppedAt(p, s, why.minimums, 0, map[], r);
    StopLeavesMid(c, r, s);
    StoppedKeepsSearch(p, r, s);
    FinishPops(p, s, c.a, 0, map[], why.minimums);
    assert PopState(s, 0, s.nodes[0].solution, why.minimums).nodes[0].goal == c.a;
  }

  /** Searching for `a` stops early, and finishing it leaves `mid` in the cache as its value, which is `high`. */
  method SearchCachesWrongValue(c: Chain) returns (r: Outcome, cached: map<Goal, Value>)
    requires IsChain(c)
    ensures r.Halted? && r.why.EarlyStop?
    ensures c.a in cached && cached[c.a] == c.mid
    ensures WellFormed(OneGoal(c)) && Truth(OneGoal(c))[c.a] == c.high
  {
    hide WellFormed, Uniform, Truth, Model, LastRound, HaltIs, RootIs, GraphOk, IndexOk, Ready, PopState, Drained,
      OneGoal, StackOk, NodesCautious;
    OneGoalIsWellFormed(c);
    OneTruth(c);
    HasOneGoal(c);
    var solver := new RecursiveContext(OneGoal(c), 1, true);
    r := solver.SolveRootGoal(c.a);
    if r.Answer? {
      NoLastRoundAlone(c, r.value);
      assert false;
    }
    SearchStopsAlone(c, solver.Snap(), r.why);
    solver.PopGoal(0, 0, r.why.minimums);
    ghost var t := solver.Snap();
    GraphParts(solver.program, t);
    solver.MoveToCache(0);
    cached := solver.cache.value;
    DrainedAt(t.nodes, t.cache, cached, c.a, c.mid);
  }

  lemma HasOneGoal(c: Chain)
    ensures OneGoal(c).goals == {c.a} && |OneGoal(c).goals| == 1
  {
  }
}
