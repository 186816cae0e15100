/**
  The recursive solver's nested fixed-point search, for any finite set of goals, any
  values of finite height and any monotone steps.  Its values are proved to be the true
  ones, with and without the cache, and the nested iteration is proved to terminate.
  Three things can end a search before it has a value: reaching the overflow depth, a
  cycle of goals of both kinds, and a loop that stops at an ambiguous value although somebody
  relied on another one.
 */
module RecursiveSolver {
  import opened Prelude
  import opened FixedPoints
  import opened SearchGraph
  import opened SearchRounds

  /** Why a search has no value to trust. */
  datatype Halt = Overflow | MixedCycle | EarlyStop(minimums: nat)

  datatype Outcome = Answer(value: Value) | Halted(why: Halt)

  /** What has happened where a search ended without a value; node `n` was asked for in context `tau`. */
  ghost predicate HaltIs(p: Program, overflowDepth: nat, s: State, why: Halt, n: int, tau: Context) {
    match why
    case Overflow => |s.stack| == overflowDepth < |p.goals|
    case MixedCycle => exists depth :: MixedFrom(p, s, depth)
    case EarlyStop(minimums) => exists r: RoundRecord :: StoppedAt(p, s, minimums, n, tau, r)
  }

  /** The loop of node `n`, or of a later one, has stopped early after round `r`. */
  ghost predicate StoppedAt(p: Program, s: State, minimums: nat, n: int, tau: Context, r: RoundRecord) {
    StoppedAfter(p, r, s) && r.minimum == minimums && n <= r.dfn && (r.dfn == n ==> r.tau == tau)
  }

  /** The search ended at node `n` or a later one. */
  ghost predicate HaltIsFrom(p: Program, overflowDepth: nat, s: State, why: Halt, n: int) {
    exists tau :: HaltIs(p, overflowDepth, s, why, n, tau)
  }

  lemma HaltIsBefore(p: Program, overflowDepth: nat, s: State, why: Halt, n: int, tau: Context, n': int)
    requires HaltIs(p, overflowDepth, s, why, n, tau) && n' <= n
    ensures HaltIsFrom(p, overflowDepth, s, why, n')
  {
    hide HaltIs;
    if n' < n {
      HaltIsLater(p, overflowDepth, s, why, n, tau, n', tau);
    }
  }

  lemma HaltIsInside(p: Program, overflowDepth: nat, s: State, why: Halt, n: int, n': int, tau': Context)
    requires HaltIsFrom(p, overflowDepth, s, why, n) && n' < n
    ensures HaltIs(p, overflowDepth, s, why, n', tau')
  {
    hide HaltIs;
    var tau :| HaltIs(p, overflowDepth, s, why, n, tau);
    HaltIsLater(p, overflowDepth, s, why, n, tau, n', tau');
  }

  /** The loop of a later node is a later one. */
  lemma HaltIsLater(p: Program, overflowDepth: nat, s: State, why: Halt, n: int, tau: Context, n': int, tau': Context)
    requires HaltIs(p, overflowDepth, s, why, n, tau) && n' < n
    ensures HaltIs(p, overflowDepth, s, why, n', tau')
  {
    hide StoppedAfter, MixedFrom;
    if why.EarlyStop? {
      var r :| StoppedAt(p, s, why.minimums, n, tau, r);
      assert StoppedAt(p, s, why.minimums, n', tau', r);
    }
  }

  /** Programs in which nothing but the overflow depth ends a search early. */
  lemma OnlyOverflow(p: Program, overflowDepth: nat, s: State, why: Halt, n: int, tau: Context)
    requires WellFormed(p) && Uniform(p) && Decisive(p) && SettledIsUpward(p, false) && SettledIsUpward(p, true)
    requires HaltIs(p, overflowDepth, s, why, n, tau)
    ensures why.Overflow?
  {
    hide WellFormed, Uniform, Decisive, MixedFrom, StoppedAfter;
    match why
    case Overflow =>
    case MixedCycle =>
      forall depth
        ensures !MixedFrom(p, s, depth)
      {
        UniformNeverMixes(p, s, depth);
      }
    case EarlyStop(_) =>
      forall r: RoundRecord
        ensures !StoppedAfter(p, r, s)
      {
        DecisiveNeverStops(p, r, s);
      }
  }

  /** How a round of the loop ended. */
  datatype Ended = Stable | Settled | Rising

  /** The nodes from `dfn` on have their true values. */
  ghost predicate FinalFrom(p: Program, nodes: seq<Node>, dfn: nat)
    requires WellFormed(p)
  {
    forall i :: dfn <= i < |nodes| ==> nodes[i].goal in p.goals && nodes[i].solution == Truth(p)[nodes[i].goal]
  }

  lemma FlagIsReady(p: Program, s: State, dfn: nat, level: nat)
    requires Ready(p, s) && Floor(p, s.nodes, level)
    requires dfn < |s.nodes| && s.nodes[dfn].stackDepth.Some? && p.stratum(s.nodes[dfn].goal) <= level
    ensures s.nodes[dfn].stackDepth.value < |s.stack|
    ensures var depth := s.nodes[dfn].stackDepth.value;
            var s' := FlagState(s, depth);
            && Ready(p, s') && FlagsGrow(s.stack, s'.stack) && |s'.stack| == |s.stack| && s'.stack[depth].cycle
            && FlagsKept(p, s, s', |s.stack|, |s.nodes|, p.stratum(s.nodes[dfn].goal) + 1)
            && |s'.path| == |s'.stack| && SameStratumFrom(p, s', depth)
  {
    hide WellFormed, GraphOk, AllJustified, LinksOk, Floor, FlagsKept, SameStratumFrom;
    FlagKeepsGraph(p, s, dfn, level);
  }

  ghost predicate IsActive(s: State, goal: Goal) {
    && goal in s.indices && s.indices[goal] < |s.nodes|
    && s.nodes[s.indices[goal]].stackDepth.Some? && s.nodes[s.indices[goal]].stackDepth.value < |s.stack|
  }

  /** The state after a goal in the graph has been asked for: if it is active, its entry is flagged. */
  ghost function Flagged(s: State, goal: Goal): State {
    if IsActive(s, goal) then FlagState(s, s.nodes[s.indices[goal]].stackDepth.value) else s
  }

  lemma FlagIs(s: State, s': State, depth: nat)
    requires depth < |s.stack| && s' == s.(stack := s.stack[depth := s.stack[depth].(cycle := true)])
    ensures s' == FlagState(s, depth)
  {
  }

  lemma MixedHere(p: Program, overflowDepth: nat, s: State, depth: nat)
    requires depth < |s.stack| == |s.path| && BothKinds(s.stack, depth) && SameStratumFrom(p, s, depth)
    ensures forall n, tau :: HaltIs(p, overflowDepth, s, MixedCycle, n, tau)
  {
    assert MixedFrom(p, s, depth);
  }

  lemma CacheAnswered(p: Program, s: State, level: nat, minimum: nat, goal: Goal)
    requires Ready(p, s) && goal in s.cache && Floor(p, s.nodes, level)
    ensures Answered(p, s, s, level, goal, minimum, minimum, s.cache[goal])
  {
    hide WellFormed, GraphOk, AllJustified, LinksOk, Floor, Known, Bounded, Extends, FlagsKept, Model, IndexOk, Ready;
    ReadyParts(p, s);
    CacheAnswer(p, s, minimum, goal);
    ExtendsReflexive(p, ContextOf(s));
    FlagsSame(p, s, p.stratum(goal) + 1);
  }

  lemma GraphAnswered(p: Program, s0: State, s: State, level: nat, minimum: nat, minimum': nat, goal: Goal)
    requires Ready(p, s0) && Ready(p, s) && Floor(p, s.nodes, level) && s == s0.(stack := s.stack) && goal in s.indices
    requires s.indices[goal] < |s.nodes| && s.nodes[s.indices[goal]].goal == goal
    requires FlagsGrow(s0.stack, s.stack) && FlagsKept(p, s0, s, |s0.stack|, |s0.nodes|, p.stratum(goal) + 1)
    requires var node := s.nodes[s.indices[goal]];
             && minimum' == Min(minimum, node.links)
             && (node.stackDepth.Some? ==> node.stackDepth.value < |s.stack| && s.stack[node.stackDepth.value].cycle)
    ensures Answered(p, s0, s, level, goal, minimum, minimum', s.nodes[s.indices[goal]].solution)
  {
    hide WellFormed, GraphOk, AllJustified, LinksOk, Floor, Known, Bounded, Extends, FlagsKept, Model, IndexOk,
      FlagsGrow, LinkFits;
    ReadyParts(p, s0);
    ReadyParts(p, s);
    LinkFitsHere(p, s.nodes, s.indices[goal]);
    GraphAnswer(p, s, minimum', goal);
    ExtendsReflexive(p, ContextOf(s));
  }

  lemma UnknownAnswered(p: Program, s0: State, s1: State, s: State, level: nat, goal: Goal, minimum: nat, found: nat,
                        minimum': nat, value: Value)
    requires Ready(p, s0) && Ready(p, s) && goal in p.goals && IndexOk(p, s0.nodes, s0.indices)
             && IndexOk(p, s.nodes, s.indices)
    requires s.path == s0.path && FlagsGrow(s0.stack, s.stack) && Floor(p, s.nodes, level)
    requires FlagsKept(p, s0, s, |s0.stack|, |s0.nodes|, p.stratum(goal) + 1)
    requires |s0.nodes| <= |s1.nodes| && s1.nodes[..|s0.nodes|] == s0.nodes && Grown(s0.nodes, s.nodes, found)
    requires LinkFits(p, s1.nodes, |s0.nodes|, found, p.stratum(goal)) && minimum' == Min(minimum, found)
    requires WellFormed(p) && value == Model(p, ContextOf(s0))[goal] && Bounded(p, s, found, goal, value)
    requires Extends(p, ContextOf(s0), ContextOf(s))
    ensures Answered(p, s0, s, level, goal, minimum, minimum', value)
  {
    hide WellFormed, Ready, IndexOk, FlagsGrow, Floor, FlagsKept, LinkFits, Model, Bounded, Extends, Known;
    assert s.nodes[..|s0.nodes|] == s0.nodes;
    LinkFitsPrefix(p, s1.nodes, |s0.nodes|, s.nodes, |s0.nodes|, found, p.stratum(goal));
    LowerMinimum(p, s, goal, found, minimum', value);
  }

  ghost predicate RootIs(nodes: seq<Node>, goal: Goal) {
    nodes != [] ==> nodes[0].goal == goal
  }

  lemma NoIndices(p: Program, s: State)
    requires IndexOk(p, s.nodes, s.indices) && s.nodes == []
    ensures s.indices == map[] && ContextOf(s) == s.cache
  {
  }

  lemma EmptyFloor(p: Program, s: State, k: nat)
    requires s.nodes == []
    ensures Floor(p, s.nodes, k)
  {
  }

  lemma AnsweredRoot(p: Program, s0: State, s: State, goal: Goal, minimum: nat, minimum': nat, value: Value)
    requires Ready(p, s) && s0.path == [] && Answered(p, s0, s, p.stratum(goal), goal, minimum, minimum', value)
    ensures s.path == [] && s.nodes == []
    ensures WellFormed(p) && IndexOk(p, s0.nodes, s0.indices) && goal in p.goals
            && value == Model(p, ContextOf(s0))[goal]
  {
    hide WellFormed, Ready, IndexOk, FlagsGrow, FlagsKept, Grown, Floor, LinkFits, Model, Bounded, Extends, Known;
    NothingKept(p, s);
  }

  // ----- Iterations -----

  /** An iteration for `goal` that started in `s0` has been given these answers. */
  ghost predicate Iterating(p: Program, s0: State, s: State, goal: Goal, minimum: nat, asked: seq<Goal>,
                            answers: seq<Value>) {
    && WellFormed(p) && goal in p.goals && IndexOk(p, s0.nodes, s0.indices) && IndexOk(p, s.nodes, s.indices)
    && s.path == s0.path && FlagsGrow(s0.stack, s.stack) && Grown(s0.nodes, s.nodes, minimum)
    && Floor(p, s.nodes, p.stratum(goal)) && LinkFits(p, s.nodes, |s0.nodes|, minimum, p.stratum(goal))
    && FlagsKept(p, s0, s, |s0.stack|, |s0.nodes|, AskBound(p, goal))
    && Extends(p, ContextOf(s0), ContextOf(s)) && LowerExact(p, ContextOf(s0), p.stratum(goal))
    && Asked(p, goal, ContextOf(s0), asked, answers) && AllBounded(p, s, minimum, asked, answers)
  }

  lemma IteratingParts(p: Program, s0: State, s: State, goal: Goal, minimum: nat, asked: seq<Goal>, answers: seq<Value>)
    requires Iterating(p, s0, s, goal, minimum, asked, answers)
    ensures Floor(p, s.nodes, p.stratum(goal)) && s0.nodes <= s.nodes && |s.stack| == |s0.stack|
  {
  }

  lemma IterationStarts(p: Program, s: State, goal: Goal, minimum: nat)
    requires Ready(p, s) && goal in p.goals && Floor(p, s.nodes, p.stratum(goal)) && minimum == MAX_DFN
    ensures Iterating(p, s, s, goal, minimum, [], [])
  {
    hide WellFormed, GraphOk, IndexOk, Known, Floor, Ready, Extends, LowerExact, Asked, AllBounded, FlagsKept, AskBound;
    ReadyParts(p, s);
    ExtendsReflexive(p, ContextOf(s));
    ReadyIsExact(p, s, p.stratum(goal));
    FlagsSame(p, s, AskBound(p, goal));
    NothingAsked(p, s, goal, ContextOf(s), minimum);
  }

  lemma AskedOne(p: Program, s0: State, s: State, s': State, goal: Goal, minimum: nat, minimum': nat, asked: seq<Goal>,
                 answers: seq<Value>, q: Goal, answer: Value)
    requires Ready(p, s) && Ready(p, s') && Iterating(p, s0, s, goal, minimum, asked, answers)
    requires p.request(goal, answers) == Ask(q) && Answered(p, s, s', p.stratum(goal), q, minimum, minimum', answer)
    ensures Iterating(p, s0, s', goal, minimum', asked + [q], answers + [answer])
  {
    hide WellFormed, GraphOk, Known, Floor, Ready, Extends, LowerExact, Asked, AllBounded, FlagsKept, AskBound, Model,
      Bounded;
    AskIsKnown(p, goal, answers);
    assert s.nodes[..|s0.nodes|] == s0.nodes;
    FlagsKeptOn(p, s0, s, s', |s0.stack|, |s0.nodes|, AskBound(p, goal), |s.nodes|, p.stratum(q) + 1);
    ExtendsKeepsModel(p, ContextOf(s0), ContextOf(s));
    ExtendsTransitive(p, ContextOf(s0), ContextOf(s), ContextOf(s'));
    AskedMore(p, goal, ContextOf(s0), asked, answers, q);
    StillBounded(p, s, minimum, s', minimum', asked, answers, q, answer);
  }

  lemma IterationEnds(p: Program, s0: State, s: State, goal: Goal, minimum: nat, asked: seq<Goal>, answers: seq<Value>,
                      value: Value)
    requires Iterating(p, s0, s, goal, minimum, asked, answers) && p.request(goal, answers) == Done(value)
    ensures Iterated(p, s0, s, goal, minimum, value, asked, answers)
  {
    hide WellFormed, Known, Floor, Extends, LowerExact, Asked, AllBounded, FlagsKept, AskBound, Step, LevelWorld,
      Justified, FlagsGrow, Grown, LinkFits;
    AskedFlags(p, s0, s, goal);
    IterationOutcome(p, s, minimum, goal, ContextOf(s0), asked, answers, value);
  }

  lemma GoalOfIndex(p: Program, s: State, goal: Goal)
    requires Ready(p, s) && goal in s.indices
    ensures s.indices[goal] < |s.nodes| && s.nodes[s.indices[goal]].goal == goal && FlagsGrow(s.stack, s.stack)
  {
    hide WellFormed, AllJustified, LinksOk, StackOk, StrataOk;
  }

  lemma KnownGoals(p: Program, s: State, goal: Goal)
    requires IndexOk(p, s.nodes, s.indices)
    ensures goal in ContextOf(s) <==> goal in s.cache || goal in s.indices
  {
  }

  lemma SearchedLast(p: Program, s: State, goal: Goal, dfn: nat, tau: Context, minimum: nat)
    requires Searched(p, s, goal, dfn, tau, minimum)
    ensures WellFormed(p) && goal in p.goals && dfn < |s.nodes| && LastRound(p, tau, goal, s.nodes[dfn].solution)
  {
    hide WellFormed, GraphOk, AllJustified, NewNodes, Extends, LastRound, LinksOk, Floor;
  }

  lemma HaltedBelow(p: Program, s: State, s0: State, nodes: seq<Node>, goal: Goal, dfn: nat)
    requires SameBelow(p, s, s0, dfn, p.stratum(goal) + 1) && dfn < |s0.nodes| && s0.nodes[dfn].goal == goal
             && s0.nodes <= nodes
    ensures dfn <= |s.nodes| && dfn < |nodes| && nodes[..dfn] == s.nodes[..dfn] && nodes[dfn].goal == goal
  {
    hide FlagsKept, FlagsGrow;
    assert nodes[..dfn] == s0.nodes[..dfn];
  }

  lemma HaltedHere(p: Program, s: State, s': State, dfn: nat, k: nat)
    requires SameBelow(p, s, s', dfn, k)
    ensures dfn <= |s.nodes| && dfn <= |s'.nodes| && s'.nodes[..dfn] == s.nodes[..dfn]
  {
  }

  lemma StoppedHere(p: Program, overflowDepth: nat, r: RoundRecord, s: State)
    requires StoppedAfter(p, r, s)
    ensures HaltIs(p, overflowDepth, s, EarlyStop(r.minimum), r.dfn, r.tau)
  {
    hide StoppedAfter;
    assert StoppedAt(p, s, r.minimum, r.dfn, r.tau, r);
  }

  class RecursiveContext {
    const program: Program
    const overflowDepth: nat

    var stack: seq<StackEntry>
    var nodes: seq<Node>
    var indices: map<Goal, nat>
    var cache: Cache

    /** The nodes of the stack entries, bottom first. */
    ghost var path: seq<nat>

    ghost function Snap(): State
      reads this
    {
      State(nodes, indices, stack, path, Entries(cache))
    }

    /** Holds whenever no goal is just being finished. */
    ghost predicate Valid()
      reads this
    {
      && |program.goals| <= MAX_DFN && |stack| <= overflowDepth
      && Ready(program, Snap())
    }

    ghost function Context(): FixedPoints.Context
      requires IndexOk(program, nodes, indices)
      reads this
    {
      ContextOf(Snap())
    }

    constructor (program: Program, overflowDepth: nat, caching: bool)
      requires WellFormed(program) && |program.goals| <= MAX_DFN
      ensures Valid() && Snap() == State([], map[], [], [], map[])
      ensures this.program == program && this.overflowDepth == overflowDepth
      ensures cache == if caching then Some(map[]) else None
    {
      hide WellFormed, Ready;
      EmptyIsReady(program);
      this.program, this.overflowDepth := program, overflowDepth;
      stack, nodes, indices, path := [], [], map[], [];
      cache := if caching then Some(map[]) else None;
    }

    method SolveRootGoal(goal: Goal) returns (r: Outcome)
      requires Valid() && stack == [] && nodes == []
      requires goal in program.goals
      modifies this
      ensures CacheGrows(old(cache), cache)
      ensures r.Answer? ==> Valid() && stack == [] && nodes == []
      ensures r.Answer? ==> r.value == Truth(program)[goal]
      ensures r.Answer? && goal !in old(Entries(cache)) ==> LastRound(program, old(Entries(cache)), goal, r.value)
      ensures r.Halted? ==> HaltIs(program, overflowDepth, Snap(), r.why, 0, old(Entries(cache))) && RootIs(nodes, goal)
    {
      hide WellFormed, GraphOk, IndexOk, Truth, Model, Known, HaltIs, LastRound, Ready, Answered;
      ReadyParts(program, Snap());
      ghost var s := Snap();
      RootContext(program, s);
      KnownGoals(program, s, goal);
      NoIndices(program, s);
      EmptyFloor(program, s, program.stratum(goal));
      var minimums;
      r, minimums := SolveGoal(goal, MAX_DFN, program.stratum(goal));
      if r.Answer? {
        ReadyParts(program, Snap());
        AnsweredRoot(program, s, Snap(), goal, MAX_DFN, minimums, r.value);
      }
    }

    method SolveGoal(goal: Goal, minimums: nat, ghost level: nat) returns (r: Outcome, minimums': nat)
      requires Valid() && goal in program.goals && program.stratum(goal) <= level && Floor(program, nodes, level)
      modifies this
      ensures CacheGrows(old(cache), cache)
      ensures r.Answer? ==> Valid()
      ensures r.Answer? ==> Answered(program, old(Snap()), Snap(), level, goal, minimums, minimums', r.value)
      ensures r.Halted? ==> HaltIs(program, overflowDepth, Snap(), r.why, |old(nodes)|, old(Context()))
      ensures r.Halted? ==> old(nodes) <= nodes
      ensures goal in old(Entries(cache)) ==> r.Answer?
      ensures goal !in old(Context()) && r.Answer? ==> LastRound(program, old(Context()), goal, r.value)
      ensures r.Halted? && |old(nodes)| < |nodes| && goal !in old(Context()) ==> nodes[|old(nodes)|].goal == goal
      decreases |program.goals| - |stack|, 1
    {
      hide WellFormed, GraphOk, IndexOk, Known, Floor, Ready, HaltIs, LastRound, Answered;
      ReadyParts(program, Snap());
      KnownGoals(program, Snap(), goal);
      if cache.Some? && goal in cache.value {
        CacheAnswered(program, Snap(), level, minimums, goal);
        return Answer(cache.value[goal]), minimums;
      }
      if goal in indices {
        GoalOfIndex(program, Snap(), goal);
        r, minimums' := AnswerFromGraph(goal, minimums, level);
      } else {
        r, minimums' := SolveUnknown(goal, minimums, level);
      }
    }

    method AnswerFromGraph(goal: Goal, minimums: nat, ghost level: nat) returns (r: Outcome, minimums': nat)
      requires Valid() && goal in program.goals && goal in indices && indices[goal] < |nodes|
      requires program.stratum(goal) <= level && Floor(program, nodes, level)
      modifies this`stack
      ensures Valid()
      ensures r.Answer? ==> Answered(program, old(Snap()), Snap(), level, goal, minimums, minimums', r.value)
      ensures Snap() == Flagged(old(Snap()), goal)
      // a mixed cycle leads to an error
      ensures r.Halted? <==> AsksMixedCycle(Snap(), goal)
      ensures r.Halted? ==>
                r.why == MixedCycle && forall n, tau :: HaltIs(program, overflowDepth, Snap(), r.why, n, tau)
    {
      hide WellFormed, GraphOk, IndexOk, Known, Floor, Ready, HaltIs, Answered, SameStratumFrom, BothKinds, FlagState,
        FlagsKept, FlagsGrow;
      GoalOfIndex(program, Snap(), goal);
      var dfn := indices[goal];
      ghost var s := Snap();
      FlagsSame(program, s, program.stratum(goal) + 1);
      if nodes[dfn].stackDepth.Some? {
        var depth := nodes[dfn].stackDepth.value;
        FlagIsReady(program, s, dfn, level);
        stack := stack[depth := stack[depth].(cycle := true)];
        FlagIs(s, Snap(), depth);
        var mixed := MixedCycleFrom(depth);
        if mixed {
          MixedHere(program, overflowDepth, Snap(), depth);
          return Halted(MixedCycle), minimums;
        }
      }
      minimums' := Min(minimums, nodes[dfn].links);
      r := Answer(nodes[dfn].solution);
      GraphAnswered(program, s, Snap(), level, minimums, minimums', goal);
    }

    method MixedCycleFrom(depth: nat) returns (mixed: bool)
      requires depth < |stack|
      ensures mixed <==> BothKinds(stack, depth)
    {
      var coinductiveCount := 0;
      for d := depth to |stack|
        invariant 0 <= coinductiveCount <= d - depth
        invariant coinductiveCount != 0 <==> exists e :: depth <= e < d && stack[e].coinductiveGoal
        invariant coinductiveCount != d - depth <==> exists e :: depth <= e < d && !stack[e].coinductiveGoal
      {
        if stack[d].coinductiveGoal {
          coinductiveCount := coinductiveCount + 1;
        }
      }
      var totalCount := |stack| - depth;
      mixed := coinductiveCount != 0 && coinductiveCount != totalCount;
    }

    method PushGoal(goal: Goal) returns (depth: nat, dfn: nat)
      requires Valid() && goal in program.goals && goal !in indices && goal !in Entries(cache)
      requires |stack| < overflowDepth && Floor(program, nodes, program.stratum(goal))
      modifies this`stack, this`nodes, this`indices, this`path
      ensures depth == |old(stack)| && dfn == |old(nodes)|
      ensures Snap() == PushState(old(Snap()), PushedNode(program, old(Snap()), goal),
              StackEntry(program.coinductive(goal), false))
      ensures Valid() && LoopAt(program, Snap(), goal, dfn, old(Context()))
    {
      hide WellFormed, IndexOk, GraphOk, AllJustified, LinksOk, Floor, Known, Ready, LoopAt;
      ReadyParts(program, Snap());
      PushStarts(program, Snap(), goal);
      var coinductiveGoal := program.coinductive(goal);
      depth, dfn := |stack|, |nodes|;
      stack := stack + [StackEntry(coinductiveGoal, false)];
      nodes := nodes + [Node(goal, program.initial(coinductiveGoal), Some(depth), dfn)];
      indices := indices[goal := dfn];
      path := path + [dfn];
    }

    method RollbackTo(dfn: nat)
      requires dfn <= |nodes|
      modifies this`nodes, this`indices
      ensures nodes == old(nodes)[..dfn]
      ensures indices == Before(old(indices), dfn)
    {
      indices := map g | g in indices && indices[g] < dfn :: indices[g];
      nodes := nodes[..dfn];
    }

    method MoveToCache(dfn: nat)
      requires WellFormed(program) && IndexOk(program, nodes, indices) && Entries(cache).Keys !! indices.Keys
      requires dfn <= |nodes| && cache.Some? && DoneFrom(nodes, dfn)
      requires forall i :: dfn <= i < |nodes| ==> dfn <= nodes[i].links
      modifies this`nodes, this`indices, this`cache
      ensures nodes == old(nodes)[..dfn] && indices == Before(old(indices), dfn)
      ensures cache.Some? && CacheGrows(old(cache), cache)
      ensures Drained(old(nodes)[dfn..], |old(nodes)| - dfn, old(Entries(cache)), cache.value)
      // entries are final if the values are
      ensures old(FinalFrom(program, nodes, dfn) && GraphOk(program, Snap())) ==>
                GraphOk(program, Snap()) && Context() == old(Context())
    {
      hide Truth, WellFormed, GraphOk, IndexOk, Known, Drained;
      DrainIsFresh(program, Snap(), dfn);
      var drained := nodes[dfn..];
      DrainNothing(drained, cache.value);
      indices := map g | g in indices && indices[g] < dfn :: indices[g];
      nodes := nodes[..dfn];
      for k := 0 to |drained|
        invariant cache.Some? && Drained(drained, k, old(Entries(cache)), cache.value)
        invariant nodes == old(nodes)[..dfn] && indices == Before(old(indices), dfn)
      {
        assert drained[k] == old(nodes)[dfn + k];
        assert drained[k].stackDepth.None?;
        assert drained[k].links >= dfn;
        DrainOne(drained, k, old(Entries(cache)), cache.value);
        cache := Some(cache.value[drained[k].goal := drained[k].solution]);
      }
      if old(FinalFrom(program, nodes, dfn) && GraphOk(program, Snap())) {
        DrainKeepsGraph(program, old(Snap()), dfn, cache.value);
      }
      DrainKeepsKeys(drained, |drained|, old(Entries(cache)), cache.value);
      assert Snap() == CutState(old(Snap()), dfn).(cache := cache.value);
    }

    method SolveUnknown(goal: Goal, minimums: nat, ghost level: nat) returns (r: Outcome, minimums': nat)
      requires Valid() && goal in program.goals && program.stratum(goal) <= level && Floor(program, nodes, level)
      requires goal !in indices && goal !in Entries(cache)
      modifies this
      ensures CacheGrows(old(cache), cache)
      ensures r.Answer? ==> Valid()
      ensures r.Answer? ==> Answered(program, old(Snap()), Snap(), level, goal, minimums, minimums', r.value)
      ensures r.Halted? ==> HaltIs(program, overflowDepth, Snap(), r.why, |old(nodes)|, old(Context()))
      ensures r.Halted? ==> old(nodes) <= nodes
      ensures r.Answer? ==> LastRound(program, old(Context()), goal, r.value)
      ensures r.Halted? && |old(nodes)| < |nodes| ==> nodes[|old(nodes)|].goal == goal
      decreases |program.goals| - |stack|, 0
    {
      hide WellFormed, GraphOk, IndexOk, Model, Known, Bounded, Records, Floor, LinkFits, Extends, Ready, LoopAt,
        Searched, SameBelow, FlagsKept, LastRound, Answered, FlagsGrow, Grown;
      ReadyParts(program, Snap());
      ghost var s, tau := Snap(), Context();
      StackIsShort(program, s);
      ContextRecords(program, s, cache.Some?);
      FloorLowers(program, nodes, level, program.stratum(goal));
      if |stack| >= overflowDepth {
        return Halted(Overflow), minimums;
      }
      var depth, dfn := PushGoal(goal);
      StackIsShort(program, Snap());
      var halt, subgoalMinimums := SolveNewSubgoal(goal, depth, dfn, tau);
      if halt.Some? {
        assert nodes[..dfn] == s.nodes;
        return Halted(halt.value), minimums;
      }
      SearchedLast(program, Snap(), goal, dfn, tau, subgoalMinimums);
      ghost var s1 := Snap();
      var entry := StackEntry(program.coinductive(goal), false);
      SearchedBelow(program, s, PushedNode(program, s, goal), entry, s1, program.stratum(goal) + 1);
      minimums' := Min(minimums, subgoalMinimums);
      var answer := FinishGoal(goal, depth, dfn, tau, subgoalMinimums, level);
      r := Answer(answer);
      ReadyParts(program, Snap());
      FlagsAfterPop(program, s, s1, Snap(), program.stratum(goal) + 1);
      UnknownAnswered(program, s, s1, Snap(), level, goal, minimums, subgoalMinimums, minimums', answer);
    }

    /** The loop that re-solves a goal until its answer is stable. */
    method SolveNewSubgoal(goal: Goal, depth: nat, dfn: nat, ghost tau: FixedPoints.Context)
      returns (halt: Option<Halt>, minimums: nat)
      requires Valid() && |stack| == depth + 1 && LoopAt(program, Snap(), goal, dfn, tau)
      modifies this
      ensures halt.None? ==> |stack| == depth + 1 && Searched(program, Snap(), goal, dfn, tau, minimums)
      ensures halt.None? ==> SameBelow(program, old(Snap()), Snap(), dfn, program.stratum(goal) + 1)
      ensures halt.None? ==> LinkFits(program, nodes, dfn, minimums, program.stratum(goal))
      ensures CacheGrows(old(cache), cache)
      ensures halt.Some? ==> HaltIs(program, overflowDepth, Snap(), halt.value, dfn, tau)
      ensures halt.Some? ==>
                dfn < |nodes| && dfn <= |old(nodes)| && nodes[..dfn] == old(nodes)[..dfn] && nodes[dfn].goal == goal
      decreases |program.goals| - |stack|, 3
    {
      hide WellFormed, GraphOk, LoopAt, Searched, SameBelow, LinkFits, Ready, CacheGrows, RoundsLeft, Decided,
        StoppedAfter, IndexOk, Floor, Known, HaltIs, HaltIsFrom, Iterated;
      LoopParts(program, Snap(), goal, dfn, tau);
      NothingChanged(program, Snap(), dfn, program.stratum(goal) + 1);
      CacheKeysGrow(cache, cache, cache);
      while true
        invariant Valid() && |stack| == depth + 1 && LoopAt(program, Snap(), goal, dfn, tau)
        invariant SameBelow(program, old(Snap()), Snap(), dfn, program.stratum(goal) + 1)
        invariant CacheGrows(old(cache), cache)
        decreases RoundsLeft(program, nodes, dfn)
      {
        ghost var s0, cache0 := Snap(), cache;
        LoopParts(program, s0, goal, dfn, tau);
        var answer;
        ghost var asked, answers;
        answer, minimums, asked, answers := SolveIteration(goal);
        CacheKeysGrow(old(cache), cache0, cache);
        if answer.Halted? {
          HaltIsInside(program, overflowDepth, Snap(), answer.why, |s0.nodes|, dfn, tau);
          HaltedBelow(program, old(Snap()), s0, nodes, goal, dfn);
          return Some(answer.why), minimums;
        }
        ReadyParts(program, Snap());
        ghost var r := RoundRecord(Snap(), goal, dfn, tau, minimums, answer.value, asked, answers);
        RoundOutcome(program, s0, r);
        var ended := RecordAnswer(depth, dfn, answer.value, s0, r);
        SameBelowTransitive(program, old(Snap()), s0, Snap(), dfn, program.stratum(goal) + 1);
        if ended.Stable? {
          return None, minimums;
        } else if ended.Settled? {
          StoppedHere(program, overflowDepth, r, Snap());
          HaltedHere(program, old(Snap()), Snap(), dfn, program.stratum(goal) + 1);
          return Some(EarlyStop(minimums)), minimums;
        }
        LoopParts(program, Snap(), goal, dfn, tau);
      }
    }

    /** The loop ends when nobody asked for the goal, or its value is the one assumed, or is settled. */
    method RecordAnswer(depth: nat, dfn: nat, currentAnswer: Value, ghost s0: State, ghost r: RoundRecord)
      returns (ended: Ended)
      requires |stack| == depth + 1 && Snap() == r.state && dfn == r.dfn && currentAnswer == r.answer
      requires Decided(program, s0, r)
      modifies this`stack, this`nodes, this`indices
      ensures |stack| == depth + 1 && SameBelow(program, s0, Snap(), dfn, program.stratum(r.goal) + 1)
      ensures dfn < |nodes| && nodes[dfn].goal == r.goal
      ensures ended.Settled? <==>
                && old(stack)[depth].cycle && old(nodes)[dfn].solution != currentAnswer
                   && program.settled(currentAnswer)
      ensures ended.Settled? ==> StoppedAfter(program, r, Snap())
      ensures ended.Stable? ==> Searched(program, Snap(), r.goal, dfn, r.tau, r.minimum)
      ensures ended.Stable? ==> LinkFits(program, nodes, dfn, r.minimum, program.stratum(r.goal))
      ensures ended.Rising? ==> LoopAt(program, Snap(), r.goal, dfn, r.tau)
      ensures ended.Rising? ==> 0 <= RoundsLeft(program, nodes, dfn) < RoundsLeft(program, s0.nodes, dfn)
    {
      hide LoopAt, Searched, SameBelow, LinkFits, RoundsLeft, Before, StoppedAfter;
      var flagged := stack[depth].cycle;
      stack := stack[depth := stack[depth].(cycle := false)];
      var oldAnswer := nodes[dfn].solution;
      nodes := nodes[dfn := nodes[dfn].(solution := currentAnswer)];
      assert Snap() == AnswerState(old(Snap()), dfn, currentAnswer);
      if !flagged || oldAnswer == currentAnswer {
        ended := Stable;
      } else if program.settled(currentAnswer) {
        ended := Settled;
      } else {
        ended := Rising;
        RollbackTo(dfn + 1);
        assert Snap() == RepeatState(old(Snap()), dfn, currentAnswer);
      }
    }

    /** One round: questions are asked until the value is decided. */
    method SolveIteration(goal: Goal)
      returns (r: Outcome, minimums: nat, ghost asked: seq<Goal>, ghost told: seq<Value>)
      requires Valid() && goal in program.goals && Floor(program, nodes, program.stratum(goal))
      modifies this
      ensures CacheGrows(old(cache), cache)
      ensures r.Answer? ==> Valid()
      ensures r.Answer? ==> Iterated(program, old(Snap()), Snap(), goal, minimums, r.value, asked, told)
      ensures r.Halted? ==> HaltIsFrom(program, overflowDepth, Snap(), r.why, |old(nodes)|)
      ensures r.Halted? ==> old(nodes) <= nodes
      decreases |program.goals| - |stack|, 2
    {
      hide WellFormed, GraphOk, IndexOk, Known, Floor, Ready, HaltIs, HaltIsFrom, LastRound, Answered, Iterating,
        Iterated, CacheGrows;
      ReadyParts(program, Snap());
      ghost var start, level := Snap(), program.stratum(goal);
      asked, told := [], [];
      var answers: seq<Value> := [];
      minimums := MAX_DFN;
      IterationStarts(program, start, goal, MAX_DFN);
      CacheKeysGrow(cache, cache, cache);
      while program.request(goal, answers).Ask?
        invariant Valid() && CacheGrows(old(cache), cache)
        invariant Iterating(program, start, Snap(), goal, minimums, asked, answers)
        decreases program.questions - |answers|
      {
        var q := program.request(goal, answers).goal;
        AskIsKnown(program, goal, answers);
        ghost var s, cache0, minimums0 := Snap(), cache, minimums;
        IteratingParts(program, start, s, goal, minimums, asked, answers);
        ReadyParts(program, s);
        var answer;
        answer, minimums := SolveGoal(q, minimums, level);
        CacheKeysGrow(old(cache), cache0, cache);
        if answer.Halted? {
          HaltIsBefore(program, overflowDepth, Snap(), answer.why, |s.nodes|, ContextOf(s), |old(nodes)|);
          return answer, minimums, asked, told;
        }
        AskedOne(program, start, s, Snap(), goal, minimums0, minimums, asked, answers, q, answer.value);
        asked := asked + [q];
        answers := answers + [answer.value];
      }
      told := answers;
      r := Answer(program.request(goal, answers).value);
      IterationEnds(program, start, Snap(), goal, minimums, asked, answers, r.value);
    }

    /** Takes a goal whose loop is done off the stack. */
    method PopGoal(depth: nat, dfn: nat, minimums: nat)
      requires TopIs(Snap(), dfn) && |stack| == depth + 1
      modifies this`stack, this`nodes, this`path
      ensures Snap() == PopState(old(Snap()), dfn, old(nodes)[dfn].solution, minimums)
    {
      nodes := nodes[dfn := nodes[dfn].(links := minimums)];
      nodes := nodes[dfn := nodes[dfn].(stackDepth := None)];
      stack := stack[..depth];
      path := path[..depth];
    }

    /** The goal's loop is done: take it off the stack, and out of the graph if it depends on nothing before it. */
    method FinishGoal(goal: Goal, depth: nat, dfn: nat, ghost tau: FixedPoints.Context, minimums: nat, ghost level: nat)
      returns (value: Value)
      requires |program.goals| <= MAX_DFN && |stack| == depth + 1 <= overflowDepth
      requires Searched(program, Snap(), goal, dfn, tau, minimums)
      requires program.stratum(goal) <= level && Floor(program, nodes[..dfn], level)
      requires LinkFits(program, nodes, dfn, minimums, program.stratum(goal))
      requires Records(tau, nodes[..dfn], cache.Some?)
      modifies this
      ensures Valid() && path == old(path)[..depth] && stack == old(stack)[..depth] && Floor(program, nodes, level)
      ensures Grown(old(nodes)[..dfn], nodes, minimums)
      ensures CacheGrows(old(cache), cache)
      ensures Bounded(program, Snap(), minimums, goal, value)
      ensures Extends(program, tau, Context())
      ensures value == old(nodes)[dfn].solution == Model(program, tau)[goal]
    {
      hide WellFormed, GraphOk, IndexOk, AllJustified, Records, Truth, Model, Extends, Known, LinksOk, Bounded,
        Searching, Floor, LastRound;
      SearchingParts(program, Snap(), goal, dfn, tau);
      FinishPops(program, Snap(), goal, dfn, tau, minimums);
      FinishedValue(program, Snap(), dfn, tau);
      NodesAreFew(program, nodes, indices);
      ghost var s := Snap();
      value := nodes[dfn].solution;
      PopGoal(depth, dfn, minimums);
      ghost var t := Snap();
      if minimums >= dfn {
        GraphParts(program, t);
        FinishedHead(program, t, dfn);
        assert nodes[dfn].goal == goal;
        if cache.Some? {
          MoveToCache(dfn);
        } else {
          CutKeepsGraph(program, t, dfn);
          ReadyIndex(program, CutState(t, dfn));
          assert t.nodes[..dfn] == s.nodes[..dfn];
          CutRestoresContext(program, t, dfn, tau);
          ExtendsReflexive(program, tau);
          RollbackTo(dfn);
          assert Snap() == CutState(t, dfn);
        }
        assert nodes == s.nodes[..dfn];
        HeadIsGone(program, s, Snap(), goal, dfn, tau);
        FinalIsBound(program, Snap(), minimums, goal);
      } else {
        FinishedAndKept(program, s, goal, dfn, tau, minimums, level);
        NodeIndex(program, t, dfn);
        GraphAnswer(program, t, minimums, goal);
      }
    }
  }
}
