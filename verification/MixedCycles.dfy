/**
  What the recursive solver does to a program with a cycle of goals of both kinds.  It returns
  an error from within the cycle without recording that the cycle was met, so the goal that
  was given the error counts as finished and goes to the cache.
 */
module MixedCycles {
  import opened Prelude
  import opened FixedPoints
  import opened SearchGraph
  import opened SearchRounds
  import opened RecursiveSolver

  /** An inductive and a coinductive goal; `no` is the error value. */
  datatype Names = Names(x: Goal, y: Goal, yes: Value, no: Value)

  predicate Distinct(n: Names) {
    n.x != n.y && n.yes != n.no
  }

  function Start(n: Names, kind: bool): Value {
    if kind then n.yes else n.no
  }

  /** `x` asks for `y` and is `yes` whatever the answer; `y` asks for `x` and is `no` exactly if that is `yes`. */
  function TwoKinds(n: Names): Program {
    Program(
      {n.x, n.y},
      g => 0,
      g => g == n.y,
      (g, answers) =>
        if |answers| == 0 then Ask(if g == n.x then n.y else n.x)
        else Done(if g == n.x then n.yes else if answers[0] == n.yes then n.no else n.yes),
      1,
      (kind, u, v) => u == v || u == Start(n, kind),
      kind => Start(n, kind),
      (kind, v) => if v == Start(n, kind) then 0 else 1,
      1,
      v => false)
  }

  lemma TwoSteps(n: Names, w: World)
    requires Distinct(n) && w.Keys == {n.x, n.y}
    ensures Step(TwoKinds(n), w, n.x) == n.yes
    ensures Step(TwoKinds(n), w, n.y) == if w[n.x] == n.yes then n.no else n.yes
  {
    var p := TwoKinds(n);
    assert Eval(p, n.x, [], w) == Eval(p, n.x, [] + [w[n.y]], w);
    assert Eval(p, n.y, [], w) == Eval(p, n.y, [] + [w[n.x]], w);
  }

  lemma TwoKindsAreWellFormed(n: Names)
    requires Distinct(n)
    ensures WellFormed(TwoKinds(n)) && |TwoKinds(n).goals| == 2
  {
    hide Step;
    var p := TwoKinds(n);
    forall g, w, w' | g in p.goals && IsWorld(p, w) && IsWorld(p, w') && Under(p, p.stratum(g), w, w')
      ensures Leq(p, g, Step(p, w, g), Step(p, w', g))
    {
      TwoSteps(n, w);
      TwoSteps(n, w');
    }
    assert Ordered(p, true) && Ordered(p, false);
    assert AsksKnown(p) && Monotone(p);
  }

  lemma TwoTruths(n: Names)
    requires Distinct(n) && WellFormed(TwoKinds(n))
    ensures Truth(TwoKinds(n))[n.x] == n.yes && Truth(TwoKinds(n))[n.y] == n.no
  {
    hide WellFormed, Truth, Step, IsLeast;
    var p := TwoKinds(n);
    TruthIsLeast(p, 0);
    LeastElsewhere(p, 0, Truth(p), map[], Truth(p), n.x);
    LeastElsewhere(p, 0, Truth(p), map[], Truth(p), n.y);
    TwoSteps(n, Truth(p));
  }

  /** The solver with `g` on its stack, flagged, and the given cache. */
  ghost function WaitingFor(n: Names, g: Goal, cache: map<Goal, Value>): State {
    State(
      [Node(g, Initial(TwoKinds(n), g), Some(0), 0)],
      map[g := 0],
      [StackEntry(TwoKinds(n).coinductive(g), true)],
      [0],
      cache)
  }

  /** The solver right before goal `h`, asked for by `g`, is given its answer. */
  ghost function InCycle(n: Names, g: Goal, h: Goal): State {
    var p := TwoKinds(n);
    State(
      [Node(g, Initial(p, g), Some(0), 0), Node(h, Initial(p, h), Some(1), 1)],
      map[g := 0, h := 1],
      [StackEntry(p.coinductive(g), false), StackEntry(p.coinductive(h), false)],
      [0, 1],
      map[])
  }

  lemma BothPushed(n: Names, g: Goal, h: Goal)
    requires g != h
    ensures var p := TwoKinds(n);
            var s0 := State([], map[], [], [], map[]);
            var s1 := PushState(s0, PushedNode(p, s0, g), StackEntry(p.coinductive(g), false));
            PushState(s1, PushedNode(p, s1, h), StackEntry(p.coinductive(h), false)) == InCycle(n, g, h)
  {
  }

  /** Asking for `g` from within its own search flags it, and closes a cycle of both kinds. */
  lemma CycleCloses(n: Names, g: Goal, h: Goal)
    requires Distinct(n) && {g, h} == {n.x, n.y}
    ensures var s := Flagged(InCycle(n, g, h), g);
            && AsksMixedCycle(s, g) && TopIs(s, 1) && |s.nodes| == 2 && |s.stack| == 2 && !s.stack[1].cycle
            && s.indices[g] == 0 && s.nodes[0].goal == g
  {
    assert g in {n.x, n.y} && h in {n.x, n.y} && n.x in {g, h} && n.y in {g, h};
    var s := Flagged(InCycle(n, g, h), g);
    assert s.stack[0].coinductiveGoal != s.stack[1].coinductiveGoal;
  }

  /** The solver after `h` has been taken off the stack with the given value. */
  ghost function Finished(n: Names, g: Goal, h: Goal, value: Value): State {
    State(
      [Node(g, Initial(TwoKinds(n), g), Some(0), 0), Node(h, value, None, MAX_DFN)],
      map[g := 0, h := 1],
      [StackEntry(TwoKinds(n).coinductive(g), true)],
      [0],
      map[])
  }

  lemma FinishedIs(n: Names, g: Goal, h: Goal, value: Value)
    requires g != h
    ensures var s := Flagged(InCycle(n, g, h), g);
            var s' := s.(nodes := s.nodes[1 := s.nodes[1].(solution := value)]);
            TopIs(s', 1) && |s'.stack| == 2
              && PopState(s', 1, s'.nodes[1].solution, MAX_DFN) == Finished(n, g, h, value)
  {
    var s := Flagged(InCycle(n, g, h), g);
    var s' := s.(nodes := s.nodes[1 := s.nodes[1].(solution := value)]);
    var t := PopState(s', 1, s'.nodes[1].solution, MAX_DFN);
    assert t.nodes == Finished(n, g, h, value).nodes;
    assert t.stack == Finished(n, g, h, value).stack;
    assert t.path == [0];
  }

  lemma FinishedMoves(n: Names, g: Goal, h: Goal, value: Value, cache: map<Goal, Value>)
    requires Distinct(n) && {g, h} == {n.x, n.y}
    ensures var t := Finished(n, g, h, value);
            && IndexOk(TwoKinds(n), t.nodes, t.indices) && t.cache == map[]
            && |t.nodes| == 2 && DoneFrom(t.nodes, 1) && t.nodes[1].links == MAX_DFN
            && (Drained(t.nodes[1..], |t.nodes| - 1, map[], cache) ==>
                  CutState(t, 1).(cache := cache) == WaitingFor(n, g, map[h := value]))
  {
    assert g in {n.x, n.y} && h in {n.x, n.y} && n.x in {g, h} && n.y in {g, h};
    var t := Finished(n, g, h, value);
    assert t.nodes[1..] == [Node(h, value, None, MAX_DFN)];
    if Drained(t.nodes[1..], |t.nodes| - 1, map[], cache) {
      CacheOne(cache, h, value);
    }
    assert t.nodes[..1] == WaitingFor(n, g, map[]).nodes;
    assert Before(t.indices, 1) == map[g := 0];
  }

  lemma CacheOne(cache: map<Goal, Value>, h: Goal, value: Value)
    requires Drained([Node(h, value, None, MAX_DFN)], 1, map[], cache)
    ensures cache == map[h := value]
  {
    var nodes := [Node(h, value, None, MAX_DFN)];
    assert nodes[0].goal in cache && cache[nodes[0].goal] == nodes[0].solution;
  }

  /** Asks for `g`, which asks for `h`, which asks for `g` again and is given an error. */
  method CloseCycle(n: Names, g: Goal, h: Goal) returns (solver: RecursiveContext, r: Outcome)
    requires Distinct(n) && {g, h} == {n.x, n.y}
    ensures fresh(solver) && solver.program == TwoKinds(n) && r == Halted(MixedCycle)
    ensures solver.cache.Some? && solver.Snap() == Flagged(InCycle(n, g, h), g)
  {
    hide WellFormed, Ready, LoopAt, HaltIs, Answered, GraphOk, Known, IndexOk, InCycle, Flagged, AsksMixedCycle, Floor,
      TwoKinds;
    TwoKindsAreWellFormed(n);
    BothPushed(n, g, h);
    CycleCloses(n, g, h);
    AskEachOther(n, g, h);
    AllInOneStratum(n);
    solver := new RecursiveContext(TwoKinds(n), 2, true);
    var depth, dfn := solver.PushGoal(g);
    depth, dfn := solver.PushGoal(h);
    var minimums;
    r, minimums := solver.AnswerFromGraph(g, MAX_DFN, 0);
  }

  lemma AllInOneStratum(n: Names)
    ensures forall g :: TwoKinds(n).stratum(g) == 0
    ensures forall nodes :: Floor(TwoKinds(n), nodes, 0)
  {
  }

  /** Going on as the solver does, `h` takes the value it has for an error, which nobody relied on, and is cached. */
  method MeetCycle(n: Names, g: Goal, h: Goal) returns (solver: RecursiveContext, r: Outcome)
    requires Distinct(n) && {g, h} == {n.x, n.y}
    ensures fresh(solver) && solver.program == TwoKinds(n) && r == Halted(MixedCycle)
    ensures solver.cache.Some? && WellFormed(TwoKinds(n))
    ensures solver.Snap() == WaitingFor(n, g, map[h := ValueFor(n, h, n.no)])
  {
    hide WellFormed, Drained, IndexOk, InCycle, Flagged, Finished, WaitingFor, PopState, TwoKinds;
    TwoKindsAreWellFormed(n);
    AskEachOther(n, g, h);
    CycleCloses(n, g, h);
    solver, r := CloseCycle(n, g, h);
    var value := ValueFor(n, h, n.no);
    FinishedIs(n, g, h, value);
    solver.nodes := solver.nodes[1 := solver.nodes[1].(solution := value)];
    solver.PopGoal(1, 1, MAX_DFN);
    CacheSecond(solver, n, g, h, value);
  }

  method CacheSecond(solver: RecursiveContext, n: Names, g: Goal, h: Goal, value: Value)
    requires Distinct(n) && {g, h} == {n.x, n.y} && WellFormed(TwoKinds(n))
    requires solver.program == TwoKinds(n) && solver.cache.Some? && solver.Snap() == Finished(n, g, h, value)
    modifies solver
    ensures solver.cache.Some? && solver.Snap() == WaitingFor(n, g, map[h := value])
  {
    hide WellFormed, Drained, IndexOk, Finished, WaitingFor, TwoKinds, Before, GraphOk, FinalFrom, Known;
    FinishedMoves(n, g, h, value, map[]);
    ghost var t := solver.Snap();
    solver.MoveToCache(1);
    assert solver.Snap() == CutState(t, 1).(cache := solver.cache.value);
    FinishedMoves(n, g, h, value, solver.cache.value);
  }

  /** What an iteration for `g` comes to when its only question is answered with `v`. */
  function ValueFor(n: Names, g: Goal, v: Value): Value {
    TwoKinds(n).request(g, [v]).value
  }

  lemma AskEachOther(n: Names, g: Goal, h: Goal)
    requires Distinct(n) && {g, h} == {n.x, n.y}
    ensures TwoKinds(n).request(g, []) == Ask(h) && TwoKinds(n).request(h, []) == Ask(g)
    ensures g in TwoKinds(n).goals && h in TwoKinds(n).goals && g != h
  {
    assert g in {n.x, n.y} && h in {n.x, n.y} && n.x in {g, h} && n.y in {g, h};
  }

  /** Asking for `x` first leaves `yes` in the cache as the value of `y`, which is `no`. */
  method InductiveFirst(n: Names) returns (r: Outcome, cached: map<Goal, Value>)
    requires Distinct(n)
    ensures r == Halted(MixedCycle)
    ensures n.y in cached && cached[n.y] == n.yes
    ensures WellFormed(TwoKinds(n)) && Truth(TwoKinds(n))[n.y] == n.no
  {
    hide WellFormed, Truth;
    var solver;
    solver, r := MeetCycle(n, n.x, n.y);
    cached := solver.cache.value;
    TwoTruths(n);
  }

  /** What is left of the goal that was asked for first. */
  lemma LastMoves(n: Names, g: Goal, h: Goal, value: Value, v: Value, cache: map<Goal, Value>, cache': map<Goal, Value>)
    requires Distinct(n) && {g, h} == {n.x, n.y} && cache == map[h := v]
    ensures var s := WaitingFor(n, g, cache);
            var s' := s.(nodes := [s.nodes[0].(solution := value)], stack := [s.stack[0].(cycle := false)]);
            var t := PopState(s', 0, value, MAX_DFN);
            && TopIs(s', 0) && s'.nodes[0].solution == value
            && |t.nodes| == 1 && t.nodes[0].links == MAX_DFN && DoneFrom(t.nodes, 0)
            && IndexOk(TwoKinds(n), t.nodes, t.indices) && t.cache.Keys !! t.indices.Keys
            && (Drained(t.nodes[0..], |t.nodes| - 0, cache, cache') ==> g in cache' && cache'[g] == value)
  {
    assert g in {n.x, n.y} && h in {n.x, n.y} && n.x in {g, h} && n.y in {g, h};
    var late := PopState(WaitingFor(n, g, cache), 0, value, MAX_DFN).nodes[0..];
    assert late == [Node(g, value, None, MAX_DFN)];
    assert late[0].goal == g;
  }

  /** Asking for `y` first, `x` is cached as `yes`, and then `y` as `no`. */
  method CoinductiveFirst(n: Names) returns (r: Outcome, cached: map<Goal, Value>)
    requires Distinct(n)
    ensures r == Halted(MixedCycle)
    ensures n.y in cached && cached[n.y] == n.no
  {
    hide WellFormed, Truth, IndexOk, Drained, PopState;
    var solver;
    solver, r := MeetCycle(n, n.y, n.x);
    ghost var s := solver.Snap();
    // the first round has been given the value of `x`; its own value has changed, and `x` had asked for it
    var value := ValueFor(n, n.y, solver.cache.value[n.x]);
    assert solver.stack[0].cycle && solver.nodes[0].solution != value && !TwoKinds(n).settled(value);
    solver.stack := [solver.stack[0].(cycle := false)];
    solver.nodes := [solver.nodes[0].(solution := value)];
    solver.RollbackTo(1);
    // the second round is given the same value from the cache, and nobody asks for `y`
    assert ValueFor(n, n.y, solver.cache.value[n.x]) == value && !solver.stack[0].cycle;
    LastMoves(n, n.y, n.x, value, n.yes, solver.cache.value, map[]);
    Unrolled(s, solver.Snap(), value);
    solver.PopGoal(0, 0, MAX_DFN);
    solver.MoveToCache(0);
    cached := solver.cache.value;
    LastMoves(n, n.y, n.x, value, n.yes, s.cache, cached);
  }

  lemma Unrolled(s: State, s': State, value: Value)
    requires |s.nodes| == 1 && |s.stack| == 1 && s.indices.Values == {0}
    requires s' == s.(nodes := [s.nodes[0].(solution := value)][..1], indices := Before(s.indices, 1),
             stack := s'.stack)
    ensures s' == s.(nodes := [s.nodes[0].(solution := value)], stack := s'.stack)
  {
    assert forall g :: g in s.indices ==> s.indices[g] in s.indices.Values;
  }
}
