/**
  The rounds of the recursive solver's loop on its states: what one iteration computes, when
  the loop may stop or has to go on, what it leaves behind when it stops early, and how a
  finished goal leaves the stack.
 */
module SearchRounds {
  import opened Prelude
  import opened FixedPoints
  import opened SearchGraph

  /** `DepthFirstNumber::MAX`: "no cycle was met". */
  const MAX_DFN: nat := 0xFFFF_FFFF_FFFF_FFFF

  function Min(a: nat, b: nat): nat {
    if a <= b then a else b
  }

  // ----- Rounds -----

  /** `tau` answers the given nodes, and beyond them only cached goals. */
  ghost predicate Covers(tau: Context, nodes: seq<Node>, cached: set<Goal>) {
    && (forall i :: 0 <= i < |nodes| ==> nodes[i].goal in tau && tau[nodes[i].goal] == nodes[i].solution)
    && (forall g :: g in tau ==> g in cached || exists i :: 0 <= i < |nodes| && nodes[i].goal == g)
  }

  /** The state right after a round for node `dfn`, whose goal was first asked for in context `tau`. */
  ghost predicate RoundDone(p: Program, s: State, dfn: nat, tau: Context, answer: Value) {
    && WellFormed(p) && GraphOk(p, s)
    && TopIs(s, dfn)
    && DoneFrom(s.nodes, dfn + 1)
    && Cautious(p, tau) && Covers(tau, s.nodes[..dfn], s.cache.Keys)
    && s.nodes[dfn].goal in p.goals && s.nodes[dfn].goal !in tau
    && Extends(p, tau[s.nodes[dfn].goal := s.nodes[dfn].solution], ContextOf(s))
    && answer == Round(p, tau, s.nodes[dfn].goal, s.nodes[dfn].solution)
    && Leq(p, s.nodes[dfn].goal, s.nodes[dfn].solution, answer)
    && Leq(p, s.nodes[dfn].goal, s.nodes[dfn].solution, Model(p, tau)[s.nodes[dfn].goal])
  }

  lemma RoundStays(p: Program, s: State, dfn: nat, tau: Context, answer: Value)
    requires RoundDone(p, s, dfn, tau, answer)
    ensures var g := s.nodes[dfn].goal; Leq(p, g, answer, Model(p, tau)[g]) && Leq(p, g, answer, Truth(p)[g])
  {
    hide WellFormed, GraphOk, Leq, Model, Truth, Cautious, Round, Covers, Extends, Known;
    var g := s.nodes[dfn].goal;
    RoundStaysBelow(p, tau, g, s.nodes[dfn].solution);
    CautiousModel(p, tau, g);
    LeqTransitive(p, g, answer, Model(p, tau)[g], Truth(p)[g]);
  }

  /** The state with the new value recorded and the flag reset. */
  ghost function AnswerState(s: State, dfn: nat, answer: Value): State
    requires TopIs(s, dfn)
  {
    s.(nodes := s.nodes[dfn := s.nodes[dfn].(solution := answer)],
       stack := s.stack[|s.stack| - 1 := s.stack[|s.stack| - 1].(cycle := false)])
  }

  lemma AnswerKeepsStack(p: Program, s: State, dfn: nat, answer: Value)
    requires StackOk(p, s) && StrataOk(p, s) && TopIs(s, dfn)
    ensures StackOk(p, AnswerState(s, dfn, answer)) && StrataOk(p, AnswerState(s, dfn, answer))
  {
    var s' := AnswerState(s, dfn, answer);
    assert forall i :: 0 <= i < |s.nodes| ==> s'.nodes[i] == s.nodes[i].(solution := s'.nodes[i].solution);
    assert forall d :: 0 <= d < |s.stack| ==> s'.stack[d].coinductiveGoal == s.stack[d].coinductiveGoal;
    SameShape(p, s, s');
  }

  /** The order of the stack does not depend on values and flags. */
  lemma SameShape(p: Program, s: State, s': State)
    requires StackOk(p, s) && StrataOk(p, s) && s'.path == s.path && |s'.nodes| == |s.nodes| && |s'.stack| == |s.stack|
    requires forall i :: 0 <= i < |s.nodes| ==> s'.nodes[i] == s.nodes[i].(solution := s'.nodes[i].solution)
    requires forall d :: 0 <= d < |s.stack| ==> s'.stack[d].coinductiveGoal == s.stack[d].coinductiveGoal
    ensures StackOk(p, s') && StrataOk(p, s')
  {
  }

  lemma AnswerKeepsGraph(p: Program, s: State, dfn: nat, tau: Context, answer: Value)
    requires RoundDone(p, s, dfn, tau, answer)
    ensures var s' := AnswerState(s, dfn, answer);
            GraphOk(p, s') && ContextOf(s') == ContextOf(s)[s.nodes[dfn].goal := answer]
  {
    hide WellFormed, Leq, Model, Truth, Extends, Covers, Known, IndexOk, StackOk, StrataOk, Cautious, Round;
    RoundStays(p, s, dfn, tau, answer);
    AnswerKeepsStack(p, s, dfn, answer);
    KnownAfterUpdate(p, s.cache, s.nodes, s.indices, dfn, s.nodes[dfn].(solution := answer));
  }

  /** The nodes from `dfn` on are new with respect to `tau`. */
  lemma NewGoals(p: Program, s: State, dfn: nat, tau: Context, j: nat)
    requires IndexOk(p, s.nodes, s.indices) && s.cache.Keys !! s.indices.Keys
    requires dfn <= j < |s.nodes| && Covers(tau, s.nodes[..dfn], s.cache.Keys)
    ensures s.nodes[j].goal !in tau
  {
    var g := s.nodes[j].goal;
    assert g in s.indices && g !in s.cache;
    assert forall i :: 0 <= i < dfn ==> s.nodes[..dfn][i] == s.nodes[i] && s.nodes[i].goal != g;
  }

  lemma RoundUnasked(p: Program, s: State, dfn: nat, tau: Context, answer: Value)
    requires RoundDone(p, s, dfn, tau, answer) && !s.stack[|s.stack| - 1].cycle
    ensures Unasked(p, s, dfn, tau)
    ensures forall j :: dfn < j < |s.nodes| ==>
              s.nodes[j].goal in p.goals && Leq(p, s.nodes[j].goal, s.nodes[j].solution, Model(p, tau)[s.nodes[j].goal])
  {
    hide WellFormed, Leq, Model, Truth, Cautious, Round, NodesCautious;
    var g, b := s.nodes[dfn].goal, s.nodes[dfn].solution;
    assert forall i :: 0 <= i < dfn ==> s.nodes[..dfn][i] == s.nodes[i];
    forall j | dfn <= j < |s.nodes|
      ensures s.nodes[j].goal !in tau
    {
      NewGoals(p, s, dfn, tau, j);
    }
    forall j | dfn < j < |s.nodes|
      ensures s.nodes[j].goal in p.goals && Leq(p, s.nodes[j].goal, s.nodes[j].solution, Model(p, tau)[s.nodes[j].goal])
    {
      var q := s.nodes[j].goal;
      assert q in ContextOf(s) && ContextOf(s)[q] == s.nodes[j].solution && q != g;
      AssumeBelow(p, tau, g, b, q);
    }
  }

  /** After the last round, everything known has the value it has without the goal being assumed. */
  lemma RoundEntry(p: Program, s: State, dfn: nat, tau: Context, answer: Value, q: Goal)
    requires RoundDone(p, s, dfn, tau, answer) && !s.stack[|s.stack| - 1].cycle && AllJustified(p, s)
    requires q in ContextOf(s) && q !in tau && q != s.nodes[dfn].goal
    ensures q in p.goals && ContextOf(s)[q] == Model(p, tau)[q]
  {
    hide WellFormed, Leq, Model, Truth, Cautious, Round, NodesCautious, AllJustified;
    var g, b := s.nodes[dfn].goal, s.nodes[dfn].solution;
    if q in s.indices {
      var j := s.indices[q];
      assert forall i :: 0 <= i < dfn ==> s.nodes[..dfn][i] == s.nodes[i];
      assert j > dfn;
      RoundUnasked(p, s, dfn, tau, answer);
      UnaskedIsExact(p, s, dfn, tau, j);
    } else {
      assert ContextOf(s)[q] == s.cache[q];
      LeqReflexive(p, g, b);
      SettledEntry(p, tau, g, b, b, q);
    }
  }

  /** The loop may stop after a round when nobody asked for the goal or its value is unchanged. */
  lemma RoundEnds(p: Program, s: State, dfn: nat, tau: Context, answer: Value, minimum: nat)
    requires RoundDone(p, s, dfn, tau, answer) && AllJustified(p, s)
    requires s.stack[|s.stack| - 1].cycle ==> s.nodes[dfn].solution == answer
    requires Justified(p, s, minimum, s.nodes[dfn].goal, answer)
    ensures answer == Model(p, tau)[s.nodes[dfn].goal]
    ensures Extends(p, tau, ContextOf(s)[s.nodes[dfn].goal := answer])
    ensures AllJustified(p, PopState(s, dfn, answer, minimum))
  {
    hide WellFormed, Leq, Model, Truth, Cautious, Round, NodesCautious, AllJustified, StackOk, StrataOk, Justified,
      Covers, CacheExact;
    var g, b := s.nodes[dfn].goal, s.nodes[dfn].solution;
    RoundStays(p, s, dfn, tau, answer);
    PopKeepsJustified(p, s, dfn, answer, minimum);
    if b == answer {
      RoundIsStable(p, tau, g, b);
      ExtendsTransitive(p, tau, tau[g := b], ContextOf(s));
      assert ContextOf(s)[g := answer] == ContextOf(s);
    } else {
      RoundUnasked(p, s, dfn, tau, answer);
      UnaskedTop(p, s, dfn, tau, minimum, answer);
      LeqAntisymmetric(p, g, answer, Model(p, tau)[g]);
      forall q | q in ContextOf(s) && q !in tau && q != g
        ensures q in p.goals && ContextOf(s)[q] == Model(p, tau)[q]
      {
        RoundEntry(p, s, dfn, tau, answer, q);
      }
    }
  }

  /** The state without the top node and everything after it. */
  ghost function BelowTop(s: State, dfn: nat): State
    requires TopIs(s, dfn)
  {
    State(s.nodes[..dfn], Before(s.indices, dfn), s.stack[..|s.stack| - 1], s.path[..|s.path| - 1], s.cache)
  }

  /** The state in which the next round starts: later nodes are dropped. */
  ghost function RepeatState(s: State, dfn: nat, answer: Value): State
    requires TopIs(s, dfn)
  {
    CutState(AnswerState(s, dfn, answer), dfn + 1)
  }

  /** The next round starts where the first one did, but for the value of the goal and what has become final. */
  lemma RepeatIsPush(p: Program, s: State, dfn: nat, answer: Value)
    requires IndexOk(p, s.nodes, s.indices) && StackOk(p, s) && TopIs(s, dfn)
    ensures RepeatState(s, dfn, answer) ==
            PushState(BelowTop(s, dfn), s.nodes[dfn].(solution := answer), s.stack[|s.stack| - 1].(cycle := false))
    ensures s.nodes[dfn].goal !in BelowTop(s, dfn).indices && IndexOk(p, s.nodes[..dfn], Before(s.indices, dfn))
  {
    hide StackOk, IndexOk, Before;
    RepeatIndices(p, s, dfn);
    var s', t := RepeatState(s, dfn, answer), BelowTop(s, dfn);
    var node, entry := s.nodes[dfn].(solution := answer), s.stack[|s.stack| - 1].(cycle := false);
    assert s'.nodes == t.nodes + [node];
    assert s'.stack == t.stack + [entry];
    assert s'.path == t.path + [dfn];
    assert s'.indices == t.indices[node.goal := dfn];
  }

  lemma RepeatIndices(p: Program, s: State, dfn: nat)
    requires IndexOk(p, s.nodes, s.indices) && dfn < |s.nodes|
    ensures Before(s.indices, dfn + 1) == Before(s.indices, dfn)[s.nodes[dfn].goal := dfn]
    ensures s.nodes[dfn].goal !in Before(s.indices, dfn) && IndexOk(p, s.nodes[..dfn], Before(s.indices, dfn))
  {
  }

  lemma RepeatKeepsJustified(p: Program, s: State, dfn: nat, answer: Value)
    requires WellFormed(p) && IndexOk(p, s.nodes, s.indices) && StackOk(p, s) && TopIs(s, dfn)
    requires GraphOk(p, RepeatState(s, dfn, answer))
    requires LinksOk(p, s.nodes[..dfn]) && AllJustified(p, BelowTop(s, dfn))
    ensures var s' := RepeatState(s, dfn, answer); LinksOk(p, s'.nodes) && AllJustified(p, s')
  {
    hide WellFormed, Leq, Truth, AllJustified, NodesCautious, IndexOk, CacheExact, StrataOk;
    RepeatIsPush(p, s, dfn, answer);
    PushKeepsJustified(p, BelowTop(s, dfn), s.nodes[dfn].(solution := answer), s.stack[|s.stack| - 1].(cycle := false));
    assert s.nodes[dfn].stackDepth.Some? && s.nodes[dfn].links == dfn;
  }

  /** Only what has become final is kept for the next round. */
  lemma RepeatEntry(p: Program, s: State, dfn: nat, tau: Context, answer: Value, q: Goal)
    requires RoundDone(p, s, dfn, tau, answer) && GraphOk(p, RepeatState(s, dfn, answer))
    requires q in ContextOf(RepeatState(s, dfn, answer)) && q != s.nodes[dfn].goal
    ensures var v := ContextOf(RepeatState(s, dfn, answer))[q];
            if q in tau then v == tau[q] else q in p.goals && v == Model(p, tau[s.nodes[dfn].goal := answer])[q]
  {
    hide WellFormed, Leq, Model, Truth, Cautious, Round, NodesCautious, StackOk, StrataOk;
    var g, b := s.nodes[dfn].goal, s.nodes[dfn].solution;
    var s' := RepeatState(s, dfn, answer);
    if q in s'.indices {
      var i := s'.indices[q];
      assert i < dfn && s.nodes[..dfn][i] == s.nodes[i] == s'.nodes[i];
    } else {
      assert q in ContextOf(s) && q !in s.indices && ContextOf(s)[q] == s.cache[q];
      if q !in tau {
        RoundStays(p, s, dfn, tau, answer);
        SettledEntry(p, tau, g, b, answer, q);
      }
    }
  }

  lemma RepeatCovers(p: Program, s: State, dfn: nat, tau: Context, answer: Value)
    requires IndexOk(p, s.nodes, s.indices) && TopIs(s, dfn) && Covers(tau, s.nodes[..dfn], s.cache.Keys)
             && s.nodes[dfn].goal !in tau
    requires var s' := RepeatState(s, dfn, answer); IndexOk(p, s'.nodes, s'.indices)
    ensures var ctx, g := ContextOf(RepeatState(s, dfn, answer)), s.nodes[dfn].goal;
            g in ctx && ctx[g] == answer && forall q :: q in tau ==> q in ctx && q != g
  {
    var g, s' := s.nodes[dfn].goal, RepeatState(s, dfn, answer);
    assert s'.nodes[dfn].goal == g;
    forall q | q in tau
      ensures q in ContextOf(s')
    {
      if q !in s.cache {
        var i :| 0 <= i < |s.nodes[..dfn]| && s.nodes[..dfn][i].goal == q;
        assert s'.nodes[i] == s.nodes[i];
      }
    }
  }

  lemma RepeatContext(p: Program, s: State, dfn: nat, tau: Context, answer: Value)
    requires RoundDone(p, s, dfn, tau, answer) && GraphOk(p, RepeatState(s, dfn, answer))
    ensures Extends(p, tau[s.nodes[dfn].goal := answer], ContextOf(RepeatState(s, dfn, answer)))
  {
    hide WellFormed, Leq, Model, Truth, Cautious, Round, NodesCautious, StackOk, StrataOk, Covers, Known, CutState,
      AnswerState, RepeatState, CacheExact;
    var g, ctx := s.nodes[dfn].goal, ContextOf(RepeatState(s, dfn, answer));
    RepeatCovers(p, s, dfn, tau, answer);
    forall q | q in ctx && q != g
      ensures if q in tau then ctx[q] == tau[q] else q in p.goals && ctx[q] == Model(p, tau[g := answer])[q]
    {
      RepeatEntry(p, s, dfn, tau, answer, q);
    }
  }

  /** When the value has risen and somebody relied on it, the next round starts clean. */
  lemma RoundRepeats(p: Program, s: State, dfn: nat, tau: Context, answer: Value)
    requires RoundDone(p, s, dfn, tau, answer) && s.nodes[dfn].solution != answer
    requires LinksOk(p, s.nodes[..dfn]) && AllJustified(p, BelowTop(s, dfn))
    ensures var s', g := RepeatState(s, dfn, answer), s.nodes[dfn].goal;
            && GraphOk(p, s') && LinksOk(p, s'.nodes) && AllJustified(p, s')
            && Extends(p, tau[g := answer], ContextOf(s'))
            && Leq(p, g, answer, Round(p, tau, g, answer)) && Leq(p, g, answer, Model(p, tau)[g])
            && p.rank(p.coinductive(g), s.nodes[dfn].solution) < p.rank(p.coinductive(g), answer) <= p.height
  {
    hide WellFormed, Leq, Model, Truth, Cautious, Round, NodesCautious, StackOk, StrataOk, AllJustified, LinksOk,
      Covers, Extends, Known, IndexOk, CacheExact;
    var g, b := s.nodes[dfn].goal, s.nodes[dfn].solution;
    AnswerKeepsGraph(p, s, dfn, tau, answer);
    CutKeepsGraph(p, AnswerState(s, dfn, answer), dfn + 1);
    RepeatKeepsJustified(p, s, dfn, answer);
    RepeatContext(p, s, dfn, tau, answer);
    RoundStays(p, s, dfn, tau, answer);
    RoundRises(p, tau, g, b);
    RankRises(p, g, b, answer);
  }

  // ----- Iterations -----

  /** The questions asked so far, each answered with its value in context `base`. */
  ghost predicate Asked(p: Program, goal: Goal, base: Context, asked: seq<Goal>, answers: seq<Value>)
    requires WellFormed(p)
  {
    && |asked| == |answers|
    && forall j :: 0 <= j < |answers| ==>
                     && p.request(goal, answers[..j]) == Ask(asked[j])
                     && asked[j] in p.goals && p.stratum(asked[j]) <= p.stratum(goal)
                     && answers[j] == Model(p, base)[asked[j]]
  }

  /** None of the answers could be lower without something recorded being wrong. */
  ghost predicate AllBounded(p: Program, s: State, minimum: nat, asked: seq<Goal>, answers: seq<Value>)
    requires WellFormed(p)
  {
    |asked| == |answers| && forall j :: 0 <= j < |asked| ==> Bounded(p, s, minimum, asked[j], answers[j])
  }

  lemma AllBoundedTightens(p: Program, s: State, minimum: nat, s': State, minimum': nat, asked: seq<Goal>,
                           answers: seq<Value>)
    requires WellFormed(p) && Tightens(p, s, minimum, s', minimum') && AllBounded(p, s, minimum, asked, answers)
    ensures AllBounded(p, s', minimum', asked, answers)
  {
    hide WellFormed, Tightens, Bounded;
    forall j | 0 <= j < |asked|
      ensures Bounded(p, s', minimum', asked[j], answers[j])
    {
      BoundedTightens(p, s, minimum, s', minimum', asked[j], answers[j]);
    }
  }

  lemma AskedMore(p: Program, goal: Goal, base: Context, asked: seq<Goal>, answers: seq<Value>, q: Goal)
    requires WellFormed(p) && Asked(p, goal, base, asked, answers)
    requires p.request(goal, answers) == Ask(q) && q in p.goals && p.stratum(q) <= p.stratum(goal)
    ensures Asked(p, goal, base, asked + [q], answers + [Model(p, base)[q]])
  {
    hide WellFormed, Model;
    var asked', answers' := asked + [q], answers + [Model(p, base)[q]];
    assert answers'[..|answers|] == answers;
    forall j | 0 <= j < |answers'|
      ensures p.request(goal, answers'[..j]) == Ask(asked'[j])
    {
      if j < |answers| {
        assert answers'[..j] == answers[..j];
      }
    }
  }

  /** Values recorded for lower strata are final. */
  ghost predicate LowerExact(p: Program, base: Context, k: nat)
    requires WellFormed(p)
  {
    forall q :: q in base && q in p.goals && p.stratum(q) < k ==> base[q] == Truth(p)[q]
  }

  lemma FloorIsExact(p: Program, s: State, k: nat)
    requires WellFormed(p) && IndexOk(p, s.nodes, s.indices) && CacheExact(p, s.cache) && Floor(p, s.nodes, k)
    ensures LowerExact(p, ContextOf(s), k)
  {
    hide WellFormed, Truth;
    assert forall q :: q in s.indices ==> s.nodes[s.indices[q]].goal == q && k <= p.stratum(q);
  }

  /** The world in which every goal asked for has the value that was answered, and all others are at their bounds. */
  ghost function AskedWorld(p: Program, s: State, minimum: nat, k: nat, base: Context): (w: World)
    requires WellFormed(p)
    ensures IsWorld(p, w)
  {
    map q | q in p.goals ::
      if p.stratum(q) == k
        then (if Leq(p, q, Bound(p, s, minimum, q), Model(p, base)[q]) then Model(p, base)[q]
        else Bound(p, s, minimum, q))
      else Truth(p)[q]
  }

  /** What an iteration arrives at is exact for the context it started in, and justified by what it was told. */
  lemma IterationOutcome(p: Program, s: State, minimum: nat, goal: Goal, base: Context, asked: seq<Goal>,
                         answers: seq<Value>, value: Value)
    requires WellFormed(p) && goal in p.goals && Asked(p, goal, base, asked, answers)
             && AllBounded(p, s, minimum, asked, answers)
    requires p.request(goal, answers) == Done(value) && LowerExact(p, base, p.stratum(goal))
    ensures value == Step(p, LevelWorld(p, base, p.stratum(goal)), goal)
    ensures Justified(p, s, minimum, goal, value)
  {
    hide WellFormed, Leq, Truth, Model, LevelWorld, IsLeast, Under, Bound, Eval;
    var k := p.stratum(goal);
    var m, w, u := LevelWorld(p, base, k), AskedWorld(p, s, minimum, k, base), UpperWorld(p, s, minimum, k);
    LevelWorldIsLeast(p, base, k);
    forall j | 0 <= j < |asked|
      ensures m[asked[j]] == answers[j] && w[asked[j]] == answers[j]
    {
      var q := asked[j];
      assert Bounded(p, s, minimum, q, answers[j]);
      LeastElsewhere(p, k, Truth(p), base, m, q);
      if p.stratum(q) == k {
        ModelAt(p, base, q);
      } else {
        ExactStratum(p, base, q);
      }
    }
    AnswersDecide(p, goal, asked, answers, m, 0);
    AnswersDecide(p, goal, asked, answers, w, 0);
    assert answers[..0] == [];
    DoneEval(p, goal, answers, m, value);
    DoneEval(p, goal, answers, w, value);
    UpperUnderAsked(p, s, minimum, k, base);
    StepMonotone(p, u, w, goal);
  }

  lemma DoneEval(p: Program, goal: Goal, answers: seq<Value>, w: World, value: Value)
    requires p.request(goal, answers) == Done(value)
    ensures Eval(p, goal, answers, w) == value
  {
  }

  lemma UpperUnderAsked(p: Program, s: State, minimum: nat, k: nat, base: Context)
    requires WellFormed(p)
    ensures Under(p, k, UpperWorld(p, s, minimum, k), AskedWorld(p, s, minimum, k, base))
  {
    hide WellFormed, Leq, Truth, Model, Bound;
    forall q | q in p.goals
      ensures Leq(p, q, Bound(p, s, minimum, q), Bound(p, s, minimum, q))
    {
      LeqReflexive(p, q, Bound(p, s, minimum, q));
    }
  }

  // ----- Calls -----

  /** The nodes present before are untouched and everything new is finished and linked at or after `minimum`. */
  ghost predicate Grown(before: seq<Node>, after: seq<Node>, minimum: nat) {
    && before <= after
    && (forall i :: |before| <= i < |after| ==> after[i].stackDepth.None? && minimum <= after[i].links)
  }

  type Cache = Option<map<Goal, Value>>

  ghost predicate CacheGrows(before: Cache, after: Cache) {
    && before.Some? == after.Some?
    && (before.Some? ==> before.value.Keys <= after.value.Keys)
  }

  ghost function Entries(cache: Cache): map<Goal, Value> {
    if cache.Some? then cache.value else map[]
  }

  /** What asking for `goal` in state `s0` has come to. */
  ghost predicate Answered(p: Program, s0: State, s: State, level: nat, goal: Goal, minimum: nat, minimum': nat,
                           value: Value) {
    && WellFormed(p) && goal in p.goals && IndexOk(p, s0.nodes, s0.indices) && IndexOk(p, s.nodes, s.indices)
    // the stack is as it was, but for flags of goals in strata that were asked for
    && s.path == s0.path && FlagsGrow(s0.stack, s.stack)
    && FlagsKept(p, s0, s, |s0.stack|, |s0.nodes|, p.stratum(goal) + 1)
    // nodes are only added, and depend on nothing before the new minimum
    && Grown(s0.nodes, s.nodes, minimum') && Floor(p, s.nodes, level)
    && minimum' <= minimum
    && (minimum' == minimum || LinkFits(p, s.nodes, |s0.nodes|, minimum', p.stratum(goal)))
    // the value is exact for what was known, which is only extended
    && value == Model(p, ContextOf(s0))[goal]
    && Bounded(p, s, minimum', goal, value)
    && Extends(p, ContextOf(s0), ContextOf(s))
  }

  lemma CacheKeysGrow(cache0: Cache, cache1: Cache, cache2: Cache)
    requires cache0 != cache1 ==> CacheGrows(cache0, cache1)
    requires cache1 != cache2 ==> CacheGrows(cache1, cache2)
    ensures CacheGrows(cache0, cache2) && Entries(cache1).Keys <= Entries(cache2).Keys
  {
  }

  /**
    The first `n` entries, whose nodes are among the first `m`, have kept their flags unless they are in strata below
    `k`.
   */
  ghost predicate FlagsKept(p: Program, s0: State, s: State, n: nat, m: nat, k: nat) {
    && n <= |s0.stack| && n <= |s.stack| && n <= |s0.path| && m <= |s0.nodes|
    && forall d :: 0 <= d < n ==>
         s0.path[d] < m && (k <= p.stratum(s0.nodes[s0.path[d]].goal) ==> s.stack[d] == s0.stack[d])
  }

  lemma FlagsKeptOn(p: Program, s0: State, s1: State, s2: State, n: nat, m: nat, k: nat, m1: nat, k1: nat)
    requires FlagsKept(p, s0, s1, n, m, k) && FlagsKept(p, s1, s2, n, m1, k1) && k1 <= k
    requires s1.path == s0.path && m <= |s1.nodes| && s1.nodes[..m] == s0.nodes[..m]
    ensures FlagsKept(p, s0, s2, n, m, k)
  {
    forall d | 0 <= d < n && k <= p.stratum(s0.nodes[s0.path[d]].goal)
      ensures s2.stack[d] == s0.stack[d]
    {
      assert s1.nodes[..m][s0.path[d]] == s0.nodes[..m][s0.path[d]];
    }
  }

  /** A minimum among the first `n` nodes is the number of a goal in stratum `k` or lower. */
  ghost predicate LinkFits(p: Program, nodes: seq<Node>, n: nat, minimum: nat, k: nat)
    requires n <= |nodes|
  {
    minimum == MAX_DFN || minimum >= n || p.stratum(nodes[minimum].goal) <= k
  }

  lemma IndexGrows(p: Program, s: State, s': State)
    requires IndexOk(p, s.nodes, s.indices) && IndexOk(p, s'.nodes, s'.indices) && s.nodes <= s'.nodes
             && FlagsGrow(s.stack, s'.stack)
    ensures StateGrows(s, s')
  {
    forall g | g in s.indices
      ensures g in s'.indices && s'.indices[g] == s.indices[g]
    {
      assert s'.nodes[s.indices[g]].goal == g;
    }
  }

  // ----- Cycles -----

  ghost predicate BothKinds(stack: seq<StackEntry>, depth: nat) {
    && (exists d :: depth <= d < |stack| && stack[d].coinductiveGoal)
    && (exists d :: depth <= d < |stack| && !stack[d].coinductiveGoal)
  }

  /** Asking for `goal` closes a cycle of goals of both kinds. */
  ghost predicate AsksMixedCycle(s: State, goal: Goal) {
    && goal in s.indices && s.indices[goal] < |s.nodes|
    && s.nodes[s.indices[goal]].stackDepth.Some?
    && BothKinds(s.stack, s.nodes[s.indices[goal]].stackDepth.value)
  }

  /** The entries from `depth` on are of both kinds, although their goals are all in one stratum. */
  ghost predicate MixedFrom(p: Program, s: State, depth: nat) {
    depth < |s.stack| == |s.path| && BothKinds(s.stack, depth) && SameStratumFrom(p, s, depth)
  }

  ghost predicate SameStratumFrom(p: Program, s: State, depth: nat)
    requires depth < |s.stack| == |s.path|
  {
    forall d :: depth <= d < |s.stack| ==>
                  && s.path[d] < |s.nodes| && s.path[depth] < |s.nodes|
                  && s.nodes[s.path[d]].goal in p.goals
                  && p.stratum(s.nodes[s.path[d]].goal) == p.stratum(s.nodes[s.path[depth]].goal)
                  && s.stack[d].coinductiveGoal == p.coinductive(s.nodes[s.path[d]].goal)
  }

  /** A goal that is asked for again from within its own search is in the same stratum as everything above it. */
  lemma CycleStaysInStratum(p: Program, s: State, level: nat, depth: nat)
    requires StackOk(p, s) && StrataOk(p, s) && Floor(p, s.nodes, level) && depth < |s.stack|
    requires forall i :: 0 <= i < |s.nodes| ==> s.nodes[i].goal in p.goals
    requires p.stratum(s.nodes[s.path[depth]].goal) <= level
    ensures SameStratumFrom(p, s, depth)
  {
    forall d | depth <= d < |s.stack|
      ensures p.stratum(s.nodes[s.path[d]].goal) == p.stratum(s.nodes[s.path[depth]].goal)
    {
      assert d > depth ==> p.stratum(s.nodes[s.path[d]].goal) <= p.stratum(s.nodes[s.path[depth]].goal);
    }
  }

  lemma UniformCycle(p: Program, s: State, depth: nat, d: nat)
    requires Uniform(p) && depth <= d < |s.stack| == |s.path| && SameStratumFrom(p, s, depth)
    ensures s.stack[d].coinductiveGoal == s.stack[depth].coinductiveGoal
  {
    assert s.nodes[s.path[d]].goal in p.goals && s.nodes[s.path[depth]].goal in p.goals;
  }

  /** Mixed cycles do not occur in programs whose strata are uniform. */
  lemma UniformNeverMixes(p: Program, s: State, depth: nat)
    requires Uniform(p)
    ensures !MixedFrom(p, s, depth)
  {
    hide Uniform, SameStratumFrom;
    if depth < |s.stack| == |s.path| && SameStratumFrom(p, s, depth) {
      forall d | depth <= d < |s.stack|
        ensures s.stack[d].coinductiveGoal == s.stack[depth].coinductiveGoal
      {
        UniformCycle(p, s, depth, d);
      }
    }
  }

  ghost function FlagState(s: State, depth: nat): State
    requires depth < |s.stack|
  {
    s.(stack := s.stack[depth := s.stack[depth].(cycle := true)])
  }

  /** Flagging an entry keeps everything, and all entries above it are of the same stratum. */
  lemma FlagKeepsGraph(p: Program, s: State, dfn: nat, level: nat)
    requires WellFormed(p) && GraphOk(p, s) && AllJustified(p, s) && Floor(p, s.nodes, level)
    requires dfn < |s.nodes| && s.nodes[dfn].stackDepth.Some? && p.stratum(s.nodes[dfn].goal) <= level
    ensures s.nodes[dfn].stackDepth.value < |s.stack|
    ensures var depth := s.nodes[dfn].stackDepth.value;
            var s' := FlagState(s, depth);
            && GraphOk(p, s') && AllJustified(p, s') && FlagsGrow(s.stack, s'.stack)
            && FlagsKept(p, s, s', |s.stack|, |s.nodes|, p.stratum(s.nodes[dfn].goal) + 1)
            && |s'.path| == |s'.stack| && SameStratumFrom(p, s', depth)
  {
    hide WellFormed, Truth, Leq, AllJustified, NodesCautious, Floor, CacheExact, StackOk, StrataOk, FlagsKept,
      SameStratumFrom;
    DepthOf(p, s, dfn);
    var depth := s.nodes[dfn].stackDepth.value;
    var s' := FlagState(s, depth);
    SameShape(p, s, s');
    AllJustifiedGrows(p, s, s');
    CycleStaysInStratum(p, s', level, depth);
    FlagKeepsOthers(p, s, dfn);
  }

  lemma DepthOf(p: Program, s: State, dfn: nat)
    requires StackOk(p, s) && dfn < |s.nodes| && s.nodes[dfn].stackDepth.Some?
    ensures s.nodes[dfn].stackDepth.value < |s.stack| == |s.path| && s.path[s.nodes[dfn].stackDepth.value] == dfn
  {
  }

  lemma FlagKeepsOthers(p: Program, s: State, dfn: nat)
    requires StackOk(p, s) && dfn < |s.nodes| && s.nodes[dfn].stackDepth.Some?
             && s.nodes[dfn].stackDepth.value < |s.stack|
    ensures var s' := FlagState(s, s.nodes[dfn].stackDepth.value);
            FlagsKept(p, s, s', |s.stack|, |s.nodes|, p.stratum(s.nodes[dfn].goal) + 1)
  {
  }

  /** What a search for node `dfn` leaves behind it. */
  ghost predicate NewNodes(p: Program, nodes: seq<Node>, dfn: nat, minimum: nat) {
    forall i :: dfn < i < |nodes| ==>
                  && nodes[i].stackDepth.None? && minimum <= nodes[i].links < i
                  && p.stratum(nodes[nodes[i].links].goal) <= p.stratum(nodes[i].goal)
  }

  lemma FloorLowers(p: Program, nodes: seq<Node>, level: nat, k: nat)
    requires Floor(p, nodes, level) && k <= level
    ensures Floor(p, nodes, k)
  {
  }

  /** The parts of the invariant that the calls below need. */
  lemma GraphParts(p: Program, s: State)
    requires WellFormed(p) && GraphOk(p, s)
    ensures IndexOk(p, s.nodes, s.indices) && |s.path| == |s.stack| && s.cache.Keys !! s.indices.Keys
    ensures forall g :: g in s.indices ==> s.indices[g] < |s.nodes|
    ensures NodesCautious(p, s.nodes) && StackOk(p, s)
  {
  }

  lemma BelowPush(p: Program, s: State, node: Node, entry: StackEntry)
    requires IndexOk(p, s.nodes, s.indices) && |s.path| == |s.stack| && node.goal !in s.indices
    ensures BelowTop(PushState(s, node, entry), |s.nodes|) == s
  {
    var t := BelowTop(PushState(s, node, entry), |s.nodes|);
    assert t.nodes == s.nodes && t.stack == s.stack && t.path == s.path;
    assert t.indices == s.indices;
  }

  /** Only nodes that depend on an earlier node outlive their search, so the first one never does. */
  lemma KeptIsNotFirst(p: Program, s: State, i: int)
    requires StackOk(p, s) && s.path == [] && LinksOk(p, s.nodes) && 0 <= i < |s.nodes|
    ensures i > 0
  {
    assert s.nodes[i].stackDepth.None?;
  }

  // ----- What holds between steps -----

  /** Holds whenever no goal is just being finished. */
  ghost predicate Ready(p: Program, s: State) {
    WellFormed(p) && GraphOk(p, s) && LinksOk(p, s.nodes) && AllJustified(p, s)
  }

  lemma ReadyParts(p: Program, s: State)
    requires Ready(p, s)
    ensures WellFormed(p) && GraphOk(p, s) && IndexOk(p, s.nodes, s.indices) && |s.path| == |s.stack|
  {
  }

  /** The goal at the top of the stack has node `dfn`, which was asked for in context `tau`. */
  ghost predicate Searching(p: Program, s: State, goal: Goal, dfn: nat, tau: Context) {
    && WellFormed(p) && GraphOk(p, s)
    && TopIs(s, dfn) && s.nodes[dfn].goal == goal
    && goal in p.goals && goal !in tau
    && AllJustified(p, BelowTop(s, dfn)) && LinksOk(p, s.nodes[..dfn])
    && Floor(p, s.nodes, p.stratum(goal))
  }

  lemma SearchingParts(p: Program, s: State, goal: Goal, dfn: nat, tau: Context)
    requires Searching(p, s, goal, dfn, tau)
    ensures WellFormed(p) && GraphOk(p, s) && IndexOk(p, s.nodes, s.indices)
    ensures TopIs(s, dfn) && s.nodes[dfn].goal == goal && goal in p.goals && goal !in tau
    ensures Floor(p, s.nodes, p.stratum(goal))
  {
  }

  /** What the loop for node `dfn` keeps from round to round. */
  ghost predicate RoundReady(p: Program, s: State, goal: Goal, dfn: nat, tau: Context)
    requires WellFormed(p) && IndexOk(p, s.nodes, s.indices) && dfn < |s.nodes| && goal in p.goals
  {
    && Cautious(p, tau) && Covers(tau, s.nodes[..dfn], s.cache.Keys)
    && Extends(p, tau[goal := s.nodes[dfn].solution], ContextOf(s))
    && Leq(p, goal, s.nodes[dfn].solution, Model(p, tau)[goal])
    && Leq(p, goal, s.nodes[dfn].solution, Round(p, tau, goal, s.nodes[dfn].solution))
    && (p.settled(s.nodes[dfn].solution) ==> s.nodes[dfn].solution == Initial(p, goal))
  }

  lemma RoundStarts(p: Program, s: State, goal: Goal, dfn: nat, tau: Context)
    requires Searching(p, s, goal, dfn, tau) && |s.nodes| == dfn + 1
    requires s.nodes[dfn].solution == Initial(p, goal) && ContextOf(s) == tau[goal := Initial(p, goal)]
    ensures RoundReady(p, s, goal, dfn, tau)
  {
    hide WellFormed, GraphOk, Truth, Leq, Model, Round, AllJustified, LinksOk, Floor, Covers, Known, Extends, Cautious,
      IndexOk;
    var b := Initial(p, goal);
    SearchingParts(p, s, goal, dfn, tau);
    LeqInitial(p, goal, Model(p, tau)[goal]);
    LeqInitial(p, goal, Round(p, tau, goal, b));
    ExtendsReflexive(p, tau[goal := b]);
    StartCovers(p, s, goal, dfn, tau, b);
    KnownIsCautious(p, s, tau);
  }

  lemma StartCovers(p: Program, s: State, goal: Goal, dfn: nat, tau: Context, b: Value)
    requires IndexOk(p, s.nodes, s.indices) && |s.nodes| == dfn + 1 && s.nodes[dfn].goal == goal && goal !in tau
    requires ContextOf(s) == tau[goal := b]
    ensures Covers(tau, s.nodes[..dfn], s.cache.Keys)
    ensures forall g :: g in tau ==> g in ContextOf(s) && tau[g] == ContextOf(s)[g]
  {
    assert forall i :: 0 <= i < dfn ==> s.nodes[i].goal in ContextOf(s) && s.nodes[i].goal != goal;
    forall g | g in tau
      ensures g in ContextOf(s) && tau[g] == ContextOf(s)[g]
      ensures g in s.cache || exists i :: 0 <= i < dfn && s.nodes[..dfn][i].goal == g
    {
      if g in s.indices {
        assert s.indices[g] < dfn && s.nodes[..dfn][s.indices[g]].goal == g;
      }
    }
  }

  lemma KnownIsCautious(p: Program, s: State, tau: Context)
    requires WellFormed(p) && GraphOk(p, s) && forall g :: g in tau ==> g in ContextOf(s) && tau[g] == ContextOf(s)[g]
    ensures Cautious(p, tau)
  {
    hide WellFormed, Truth, Leq;
    forall g | g in tau && g in p.goals
      ensures Leq(p, g, tau[g], Truth(p)[g])
    {
      LeqReflexive(p, g, Truth(p)[g]);
      if g in s.indices {
        assert s.nodes[s.indices[g]].goal == g;
      }
    }
  }

  /** The state `s0` of a round's start has grown into `s`. */
  ghost predicate Reached(p: Program, s0: State, s: State, minimum: nat)
    requires WellFormed(p) && IndexOk(p, s0.nodes, s0.indices) && IndexOk(p, s.nodes, s.indices)
  {
    && s.path == s0.path && FlagsGrow(s0.stack, s.stack)
    && Grown(s0.nodes, s.nodes, minimum)
    && s0.cache.Keys <= s.cache.Keys
    && Extends(p, ContextOf(s0), ContextOf(s))
  }

  lemma BelowTopIndex(p: Program, s: State, dfn: nat)
    requires WellFormed(p) && IndexOk(p, s.nodes, s.indices) && NodesCautious(p, s.nodes) && TopIs(s, dfn)
    ensures var t := BelowTop(s, dfn); IndexOk(p, t.nodes, t.indices) && NodesCautious(p, t.nodes)
  {
    hide WellFormed, Truth, Leq;
  }

  lemma BelowTopGrows(p: Program, s0: State, s: State, dfn: nat)
    requires WellFormed(p) && GraphOk(p, s0) && GraphOk(p, s) && TopIs(s0, dfn) && s.path == s0.path
    requires s0.nodes <= s.nodes && FlagsGrow(s0.stack, s.stack) && AllJustified(p, BelowTop(s0, dfn))
    ensures TopIs(s, dfn) && AllJustified(p, BelowTop(s, dfn))
  {
    hide WellFormed, Truth, Leq, AllJustified, StackOk, StrataOk, CacheExact, Known, IndexOk, NodesCautious;
    assert s.nodes[..dfn] == s0.nodes[..dfn];
    var t, t' := BelowTop(s0, dfn), BelowTop(s, dfn);
    BelowTopIndex(p, s0, dfn);
    BelowTopIndex(p, s, dfn);
    IndexGrows(p, t, t');
    AllJustifiedGrows(p, t, t');
  }

  lemma RoundKeepsSearch(p: Program, s0: State, s: State, goal: Goal, dfn: nat, tau: Context, minimum: nat)
    requires Searching(p, s0, goal, dfn, tau) && |s0.nodes| == dfn + 1
    requires Ready(p, s) && Reached(p, s0, s, minimum) && Floor(p, s.nodes, p.stratum(goal))
    ensures Searching(p, s, goal, dfn, tau) && NewNodes(p, s.nodes, dfn, minimum)
    ensures s.nodes[..dfn] == s0.nodes[..dfn] && s.nodes[dfn] == s0.nodes[dfn]
  {
    hide WellFormed, GraphOk, AllJustified, Floor, Extends, Known, BelowTop;
    BelowTopGrows(p, s0, s, dfn);
    assert s.nodes[..dfn] == s0.nodes[..dfn] && s.nodes[dfn] == s0.nodes[dfn];
  }

  lemma CoversMore(tau: Context, nodes: seq<Node>, cached: set<Goal>, cached': set<Goal>)
    requires Covers(tau, nodes, cached) && cached <= cached'
    ensures Covers(tau, nodes, cached')
  {
  }

  lemma RoundFinished(p: Program, s0: State, s: State, goal: Goal, dfn: nat, tau: Context, minimum: nat, answer: Value)
    requires Searching(p, s0, goal, dfn, tau) && |s0.nodes| == dfn + 1
    requires IndexOk(p, s0.nodes, s0.indices) && RoundReady(p, s0, goal, dfn, tau)
    requires Ready(p, s) && IndexOk(p, s.nodes, s.indices) && Reached(p, s0, s, minimum)
             && Floor(p, s.nodes, p.stratum(goal))
    requires answer == Step(p, LevelWorld(p, ContextOf(s0), p.stratum(goal)), goal)
    ensures Searching(p, s, goal, dfn, tau) && RoundDone(p, s, dfn, tau, answer) && NewNodes(p, s.nodes, dfn, minimum)
    ensures s.nodes[..dfn] == s0.nodes[..dfn] && s.nodes[dfn] == s0.nodes[dfn]
  {
    hide WellFormed, GraphOk, Leq, Model, AllJustified, Cautious, Covers, Floor, Extends, Known, Step, LevelWorld,
      BelowTop, LinksOk;
    RoundKeepsSearch(p, s0, s, goal, dfn, tau, minimum);
    CoversMore(tau, s.nodes[..dfn], s0.cache.Keys, s.cache.Keys);
    var b := s0.nodes[dfn].solution;
    ExtendsKeepsLevel(p, tau[goal := b], ContextOf(s0), p.stratum(goal));
    ExtendsTransitive(p, tau[goal := b], ContextOf(s0), ContextOf(s));
  }

  /** Recording the answer changes nothing below the top. */
  lemma AnswerBelow(p: Program, s: State, dfn: nat, answer: Value)
    requires IndexOk(p, s.nodes, s.indices) && TopIs(s, dfn)
    ensures var s' := AnswerState(s, dfn, answer);
            && TopIs(s', dfn) && BelowTop(s', dfn) == BelowTop(s, dfn)
            && s'.nodes[..dfn] == s.nodes[..dfn] && s'.nodes[dfn].goal == s.nodes[dfn].goal
               && s'.nodes[dfn].solution == answer
            && s'.stack[..|s.stack| - 1] == s.stack[..|s.stack| - 1] && !s'.stack[|s.stack| - 1].cycle
            && forall links :: PopState(s', dfn, answer, links) == PopState(s, dfn, answer, links)
  {
    var s' := AnswerState(s, dfn, answer);
    assert s'.nodes[..dfn] == s.nodes[..dfn];
    assert s'.stack[..|s.stack| - 1] == s.stack[..|s.stack| - 1];
    forall links
      ensures PopState(s', dfn, answer, links) == PopState(s, dfn, answer, links)
    {
      assert PopState(s', dfn, answer, links).nodes == PopState(s, dfn, answer, links).nodes;
    }
  }

  lemma RepeatBelow(p: Program, s: State, dfn: nat, answer: Value)
    requires IndexOk(p, s.nodes, s.indices) && TopIs(s, dfn)
    ensures var s' := RepeatState(s, dfn, answer);
            && TopIs(s', dfn) && BelowTop(s', dfn) == BelowTop(s, dfn) && |s'.nodes| == dfn + 1
            && s'.nodes[..dfn] == s.nodes[..dfn] && s'.nodes[dfn].goal == s.nodes[dfn].goal
               && s'.nodes[dfn].solution == answer
            && s'.stack[..|s.stack| - 1] == s.stack[..|s.stack| - 1] && !s'.stack[|s.stack| - 1].cycle
  {
    var s' := RepeatState(s, dfn, answer);
    assert s'.nodes[..dfn] == s.nodes[..dfn];
    assert s'.stack[..|s.stack| - 1] == s.stack[..|s.stack| - 1];
    assert BelowTop(s', dfn).indices == BelowTop(s, dfn).indices;
  }

  lemma UpdateKeepsNodes(p: Program, nodes: seq<Node>, dfn: nat, node: Node, minimum: nat, k: nat)
    requires dfn < |nodes| && node.goal == nodes[dfn].goal && NewNodes(p, nodes, dfn, minimum) && Floor(p, nodes, k)
    ensures NewNodes(p, nodes[dfn := node], dfn, minimum) && Floor(p, nodes[dfn := node], k)
  {
  }

  lemma AnswerKeepsNodes(p: Program, s: State, dfn: nat, answer: Value, minimum: nat, k: nat)
    requires TopIs(s, dfn) && NewNodes(p, s.nodes, dfn, minimum) && Floor(p, s.nodes, k)
    ensures var s' := AnswerState(s, dfn, answer); NewNodes(p, s'.nodes, dfn, minimum) && Floor(p, s'.nodes, k)
  {
    hide NewNodes, Floor;
    UpdateKeepsNodes(p, s.nodes, dfn, s.nodes[dfn].(solution := answer), minimum, k);
  }

  lemma RepeatKeepsFloor(p: Program, s: State, dfn: nat, answer: Value, k: nat)
    requires TopIs(s, dfn) && Floor(p, s.nodes, k)
    ensures Floor(p, RepeatState(s, dfn, answer).nodes, k)
  {
    var s' := RepeatState(s, dfn, answer);
    assert forall i :: 0 <= i < |s'.nodes| ==> s'.nodes[i].goal == s.nodes[i].goal;
  }

  /** What holds of the state `s` whenever the loop for node `dfn` starts a round. */
  ghost predicate LoopAt(p: Program, s: State, goal: Goal, dfn: nat, tau: Context) {
    && Ready(p, s) && Searching(p, s, goal, dfn, tau)
    && |s.nodes| == dfn + 1 && !s.stack[|s.stack| - 1].cycle
    && RoundReady(p, s, goal, dfn, tau)
  }

  lemma LoopParts(p: Program, s: State, goal: Goal, dfn: nat, tau: Context)
    requires LoopAt(p, s, goal, dfn, tau)
    ensures Ready(p, s) && TopIs(s, dfn) && s.nodes[dfn].goal == goal && goal in p.goals
            && Floor(p, s.nodes, p.stratum(goal))
    ensures IndexOk(p, s.nodes, s.indices) && |s.nodes| == dfn + 1
  {
  }

  // ----- What a round relies on -----

  /** An iteration for `goal` asked these questions, was given these answers, and ended with `value`. */
  ghost predicate Told(p: Program, s: State, minimum: nat, goal: Goal, base: Context, asked: seq<Goal>,
                       answers: seq<Value>, value: Value)
    requires WellFormed(p)
  {
    && Asked(p, goal, base, asked, answers)
    && AllBounded(p, s, minimum, asked, answers)
    && p.request(goal, answers) == Done(value)
  }

  /**
    A round that assumed `b` and ended with `value`, which is `b` itself or rests on no answer that `b` made any
    different.
   */
  ghost predicate QuietRound(p: Program, tau: Context, goal: Goal, b: Value, asked: seq<Goal>, answers: seq<Value>,
                             value: Value)
    requires WellFormed(p) && goal in p.goals
  {
    && Asked(p, goal, tau[goal := b], asked, answers)
    && p.request(goal, answers) == Done(value)
    && Leq(p, goal, b, Model(p, tau)[goal])
    && (p.settled(b) ==> b == Initial(p, goal))
    && (b == value || forall j :: 0 <= j < |asked| ==> answers[j] == Model(p, tau)[asked[j]])
  }

  /** How the value of a goal that was asked for in context `tau` came about. */
  ghost predicate LastRound(p: Program, tau: Context, goal: Goal, value: Value) {
    && WellFormed(p) && goal in p.goals
    && exists b, asked, answers :: QuietRound(p, tau, goal, b, asked, answers, value)
  }

  lemma AskedSame(p: Program, goal: Goal, base: Context, base': Context, asked: seq<Goal>, answers: seq<Value>)
    requires WellFormed(p) && Asked(p, goal, base, asked, answers) && Model(p, base') == Model(p, base)
    ensures Asked(p, goal, base', asked, answers)
  {
    hide WellFormed, Model;
  }

  /** Nobody who was given a value that rests on the assumption has failed to set the flag. */
  lemma UnflaggedAnswer(p: Program, s: State, dfn: nat, tau: Context, answer: Value, minimum: nat, q: Goal)
    requires RoundDone(p, s, dfn, tau, answer) && AllJustified(p, s) && !s.stack[|s.stack| - 1].cycle && q in p.goals
    requires Bounded(p, s, minimum, q, Model(p, tau[s.nodes[dfn].goal := s.nodes[dfn].solution])[q])
    ensures Model(p, tau[s.nodes[dfn].goal := s.nodes[dfn].solution])[q] == Model(p, tau)[q]
  {
    hide WellFormed, Leq, Model, Truth, Cautious, Round, NodesCautious, AllJustified, Extends, Known, StrataOk;
    var g, b := s.nodes[dfn].goal, s.nodes[dfn].solution;
    var v := Model(p, tau[g := b])[q];
    AssumeBelow(p, tau, g, b, q);
    if q in s.indices && s.indices[q] < dfn {
      assert s.nodes[..dfn][s.indices[q]] == s.nodes[s.indices[q]];
      assert q in tau && q != g;
      ModelIsFixedPoint(p, tau, q);
      ModelIsFixedPoint(p, tau[g := b], q);
    } else {
      CautiousModel(p, tau, q);
      if q in s.indices && s.indices[q] > dfn {
        RoundUnasked(p, s, dfn, tau, answer);
        UnaskedIsExact(p, s, dfn, tau, s.indices[q]);
        LeqReflexive(p, q, Model(p, tau)[q]);
      }
      assert Leq(p, q, Model(p, tau)[q], Bound(p, s, minimum, q));
      LeqTransitive(p, q, Model(p, tau)[q], Bound(p, s, minimum, q), v);
      LeqAntisymmetric(p, q, v, Model(p, tau)[q]);
    }
  }

  lemma RoundIsQuiet(p: Program, s: State, dfn: nat, tau: Context, answer: Value, minimum: nat, asked: seq<Goal>,
                     answers: seq<Value>)
    requires RoundDone(p, s, dfn, tau, answer) && AllJustified(p, s)
    requires s.stack[|s.stack| - 1].cycle ==> s.nodes[dfn].solution == answer
    requires p.settled(s.nodes[dfn].solution) ==> s.nodes[dfn].solution == Initial(p, s.nodes[dfn].goal)
    requires var base := tau[s.nodes[dfn].goal := s.nodes[dfn].solution];
             Told(p, s, minimum, s.nodes[dfn].goal, base, asked, answers, answer)
    ensures LastRound(p, tau, s.nodes[dfn].goal, answer)
  {
    hide WellFormed, GraphOk, Leq, Model, Truth, Cautious, Round, AllJustified, Extends, Known, Covers, Bounded;
    var g, b := s.nodes[dfn].goal, s.nodes[dfn].solution;
    if b != answer {
      forall j | 0 <= j < |asked|
        ensures answers[j] == Model(p, tau)[asked[j]]
      {
        UnflaggedAnswer(p, s, dfn, tau, answer, minimum, asked[j]);
      }
    }
    assert QuietRound(p, tau, g, b, asked, answers, answer);
  }

  // ----- Stopping early -----

  /** A round of the loop for node `dfn`, as it ended. */
  datatype RoundRecord = RoundRecord(
    state: State, goal: Goal, dfn: nat, tau: Context, minimum: nat, answer: Value, asked: seq<Goal>,
      answers: seq<Value>)

  ghost predicate RoundIs(p: Program, r: RoundRecord) {
    && Ready(p, r.state)
    && Searching(p, r.state, r.goal, r.dfn, r.tau)
    && RoundDone(p, r.state, r.dfn, r.tau, r.answer)
    && NewNodes(p, r.state.nodes, r.dfn, r.minimum)
    && Told(p, r.state, r.minimum, r.goal, r.tau[r.goal := r.state.nodes[r.dfn].solution], r.asked, r.answers, r.answer)
  }

  /** The goal was asked for during the round, whose answer is new but settled: the loop stops all the same. */
  ghost predicate StopsEarly(p: Program, r: RoundRecord)
    requires RoundIs(p, r)
  {
    && r.state.stack[|r.state.stack| - 1].cycle
    && r.state.nodes[r.dfn].solution != r.answer
    && p.settled(r.answer)
    && (p.settled(r.state.nodes[r.dfn].solution) ==> r.state.nodes[r.dfn].solution == Initial(p, r.goal))
  }

  /** The loop has stopped early in the given state. */
  ghost predicate StoppedAfter(p: Program, r: RoundRecord, s: State) {
    RoundIs(p, r) && StopsEarly(p, r) && !Acyclic(p, r.goal) && s == AnswerState(r.state, r.dfn, r.answer)
  }

  /** The goal is recorded with the new value, which is settled and at most the true one. */
  lemma StoppedValue(p: Program, r: RoundRecord, s: State)
    requires StoppedAfter(p, r, s)
    ensures TopIs(s, r.dfn) && s.nodes[r.dfn].goal == r.goal && s.nodes[r.dfn].solution == r.answer
    ensures WellFormed(p) && r.goal in p.goals && Leq(p, r.goal, r.answer, Truth(p)[r.goal])
  {
    hide WellFormed, GraphOk, Truth, RoundDone, Told, NewNodes, Ready, Searching, AnswerState, Leq, IndexOk;
    SearchingParts(p, r.state, r.goal, r.dfn, r.tau);
    AnswerBelow(p, r.state, r.dfn, r.answer);
    RoundStays(p, r.state, r.dfn, r.tau, r.answer);
  }

  /** The value of the goal itself is exact for its context if and only if one more round would have reproduced it. */
  lemma StoppedValueIsExactly(p: Program, r: RoundRecord, s: State)
    requires StoppedAfter(p, r, s)
    ensures WellFormed(p) && r.goal in p.goals
    ensures r.answer == Model(p, r.tau)[r.goal] <==> Round(p, r.tau, r.goal, r.answer) == r.answer
  {
    hide WellFormed, GraphOk, Truth, Told, NewNodes, Ready, Searching, AnswerState, Leq, IndexOk, Model, Round, Extends,
      Covers, Cautious, Known;
    SearchingParts(p, r.state, r.goal, r.dfn, r.tau);
    RoundStays(p, r.state, r.dfn, r.tau, r.answer);
    ExactlyReproduced(p, r.tau, r.goal, r.answer);
  }

  lemma ExactlyReproduced(p: Program, tau: Context, g: Goal, v: Value)
    requires WellFormed(p) && g in p.goals && g !in tau && Leq(p, g, v, Model(p, tau)[g])
    ensures v == Model(p, tau)[g] <==> Round(p, tau, g, v) == v
  {
    hide WellFormed, Leq, Model, LevelWorld, Step;
    if v == Model(p, tau)[g] {
      ExtendsKeepsLevel(p, tau, tau[g := v], p.stratum(g));
      ModelIsFixedPoint(p, tau, g);
    }
    if Round(p, tau, g, v) == v {
      RoundIsStable(p, tau, g, v);
    }
  }

  /** If settled values cannot rise at all, the value of the goal itself is the true one. */
  lemma StoppedValueIsTrue(p: Program, r: RoundRecord, s: State)
    requires StoppedAfter(p, r, s) && SettledIsTop(p, p.coinductive(r.goal))
    ensures WellFormed(p) && r.goal in p.goals && r.answer == Truth(p)[r.goal]
  {
    hide WellFormed, Truth, Leq, StoppedAfter, SettledIsTop;
    StoppedValue(p, r, s);
    StoppedIsSettled(p, r, s);
    SettledIsTrue(p, r.goal, r.answer);
  }

  /** The state it stops in is otherwise like that of a loop that is done. */
  lemma StoppedKeepsSearch(p: Program, r: RoundRecord, s: State)
    requires StoppedAfter(p, r, s)
    ensures Searching(p, s, r.goal, r.dfn, r.tau) && NewNodes(p, s.nodes, r.dfn, r.minimum)
  {
    hide WellFormed, GraphOk, AllJustified, RoundDone, NewNodes, Told, LinksOk, Known, BelowTop, AnswerState, Floor,
      IndexOk, Ready;
    ReadyParts(p, r.state);
    AnswerKeepsGraph(p, r.state, r.dfn, r.tau, r.answer);
    AnswerBelow(p, r.state, r.dfn, r.answer);
    AnswerKeepsNodes(p, r.state, r.dfn, r.answer, r.minimum, p.stratum(r.goal));
  }

  /** The loop never stops early in programs whose settled goals are not on cycles. */
  lemma DecisiveNeverStops(p: Program, r: RoundRecord, s: State)
    requires WellFormed(p) && Decisive(p) && SettledIsUpward(p, p.coinductive(r.goal))
    ensures !StoppedAfter(p, r, s)
  {
    hide WellFormed, RoundIs, StopsEarly, Truth, Acyclic, AnswerState;
    if StoppedAfter(p, r, s) {
      StoppedValue(p, r, s);
      StoppedIsSettled(p, r, s);
      assert false;
    }
  }

  lemma StoppedIsSettled(p: Program, r: RoundRecord, s: State)
    requires StoppedAfter(p, r, s)
    ensures p.settled(r.answer)
  {
    hide RoundIs;
  }

  /** One more step on the recorded values, with the true ones elsewhere, does not raise node `i`. */
  ghost predicate StepStays(p: Program, s: State, dfn: nat, i: nat)
    requires WellFormed(p) && IndexOk(p, s.nodes, s.indices) && i < |s.nodes|
  {
    var g := s.nodes[i].goal;
    Leq(p, g, Step(p, Recorded(p, s, dfn, p.stratum(g), Truth(p)), g), s.nodes[i].solution)
  }

  /** What is recorded from a node on is right if and only if one more step would not raise any of it. */
  lemma RecordedRightExactly(p: Program, s: State, dfn: nat)
    requires WellFormed(p) && IndexOk(p, s.nodes, s.indices) && NodesCautious(p, s.nodes)
    ensures (forall i :: dfn <= i < |s.nodes| ==> s.nodes[i].solution == Truth(p)[s.nodes[i].goal])
            <==> (forall i :: dfn <= i < |s.nodes| ==> StepStays(p, s, dfn, i))
  {
    hide WellFormed, Truth, Leq, NodesCautious, Step;
    if forall i :: dfn <= i < |s.nodes| ==> s.nodes[i].solution == Truth(p)[s.nodes[i].goal] {
      forall i | dfn <= i < |s.nodes|
        ensures StepStays(p, s, dfn, i)
      {
        RightStays(p, s, dfn, i);
      }
    }
    if forall i :: dfn <= i < |s.nodes| ==> StepStays(p, s, dfn, i) {
      forall i | dfn <= i < |s.nodes|
        ensures s.nodes[i].solution == Truth(p)[s.nodes[i].goal]
      {
        StayingIsRight(p, s, dfn, i);
      }
    }
  }

  /**
    So what an early stop leaves behind, the goal itself included, is right if and only if one more step raises none of
    it.
   */
  lemma StopIsRightExactly(p: Program, r: RoundRecord, s: State)
    requires StoppedAfter(p, r, s)
    ensures WellFormed(p) && IndexOk(p, s.nodes, s.indices)
    ensures (forall i :: r.dfn <= i < |s.nodes| ==> s.nodes[i].solution == Truth(p)[s.nodes[i].goal])
            <==> (forall i :: r.dfn <= i < |s.nodes| ==> StepStays(p, s, r.dfn, i))
  {
    hide StoppedAfter, Searching, WellFormed, StackOk, StrataOk, CacheExact, Truth, StepStays;
    StoppedKeepsSearch(p, r, s);
    SearchingParts(p, s, r.goal, r.dfn, r.tau);
    RecordedRightExactly(p, s, r.dfn);
  }

  lemma RightStays(p: Program, s: State, dfn: nat, i: nat)
    requires WellFormed(p) && IndexOk(p, s.nodes, s.indices) && dfn <= i < |s.nodes|
    requires forall j :: dfn <= j < |s.nodes| ==> s.nodes[j].solution == Truth(p)[s.nodes[j].goal]
    ensures StepStays(p, s, dfn, i)
  {
    hide WellFormed, Truth, Leq, Step, IsLeast;
    var g, truth := s.nodes[i].goal, Truth(p);
    var k := p.stratum(g);
    assert Recorded(p, s, dfn, k, truth) == truth;
    TruthIsLeast(p, k);
    LeastElsewhere(p, k, truth, map[], truth, g);
    LeqReflexive(p, g, truth[g]);
  }

  lemma StayingIsRight(p: Program, s: State, dfn: nat, i: nat)
    requires WellFormed(p) && IndexOk(p, s.nodes, s.indices) && NodesCautious(p, s.nodes) && dfn <= i < |s.nodes|
    requires forall j :: dfn <= j < |s.nodes| ==> StepStays(p, s, dfn, j)
    ensures s.nodes[i].solution == Truth(p)[s.nodes[i].goal]
  {
    hide WellFormed, Truth, Leq, Step, NodesCautious, Model;
    var g, truth := s.nodes[i].goal, Truth(p);
    var k := p.stratum(g);
    var w := Recorded(p, s, dfn, k, truth);
    NothingAssumed(p);
    forall q | q in p.goals && p.stratum(q) == k
      ensures Leq(p, q, w[q], truth[q])
      ensures w[q] != truth[q] ==> Leq(p, q, Step(p, w, q), w[q])
    {
      LeqReflexive(p, q, truth[q]);
      if q in s.indices && dfn <= s.indices[q] {
        NodeIsCautious(p, s.nodes, s.indices[q]);
        assert StepStays(p, s, dfn, s.indices[q]);
      }
    }
    SelfSupport(p, map[], k, w, g);
  }

  /**
    A goal that the last round was given a wrong value of, and that was not known before, is left behind with that
    value.
   */
  lemma WrongAnswerStays(p: Program, r: RoundRecord, s: State, j: nat)
    requires StoppedAfter(p, r, s) && j < |r.asked| && r.asked[j] != r.goal && r.asked[j] !in r.tau
    requires WellFormed(p) && r.asked[j] in p.goals && r.answers[j] != Truth(p)[r.asked[j]]
    ensures r.asked[j] in s.indices && r.dfn < s.indices[r.asked[j]] < |s.nodes|
    ensures s.nodes[s.indices[r.asked[j]]].solution == r.answers[j]
  {
    hide WellFormed, Truth, Ready, NewNodes, Leq, Model, Round, Searching, Extends, Known, AnswerState, RoundDone,
      Bounded;
    var q := r.asked[j];
    SearchingParts(p, r.state, r.goal, r.dfn, r.tau);
    assert Bounded(p, r.state, r.minimum, q, r.answers[j]);
    AnswerIsCautious(p, r.state, r.dfn, r.tau, r.answer, q);
    WrongIsRecorded(p, r.state, r.minimum, q, r.answers[j]);
    RecordedIsModel(p, r.state, r.dfn, r.tau, r.answer, q);
  }

  /** What is recorded for a goal that was not known before is its value under the assumption. */
  lemma RecordedIsModel(p: Program, s: State, dfn: nat, tau: Context, answer: Value, q: Goal)
    requires RoundDone(p, s, dfn, tau, answer) && q in s.indices && q !in tau && q != s.nodes[dfn].goal
    ensures dfn < s.indices[q] < |s.nodes| && q in p.goals
    ensures s.nodes[s.indices[q]].solution == Model(p, tau[s.nodes[dfn].goal := s.nodes[dfn].solution])[q]
    ensures var s' := AnswerState(s, dfn, answer);
            s'.indices == s.indices && |s'.nodes| == |s.nodes| && s'.nodes[s.indices[q]] == s.nodes[s.indices[q]]
  {
    hide WellFormed, Leq, Model, Round, Cautious, NodesCautious, StackOk, StrataOk, CacheExact;
    assert s.nodes[s.indices[q]].goal == q && q in ContextOf(s);
    assert forall n :: 0 <= n < dfn ==> s.nodes[..dfn][n] == s.nodes[n] && s.nodes[n].goal in tau;
  }

  lemma AnswerIsCautious(p: Program, s: State, dfn: nat, tau: Context, answer: Value, q: Goal)
    requires RoundDone(p, s, dfn, tau, answer) && q in p.goals
    ensures Leq(p, q, Model(p, tau[s.nodes[dfn].goal := s.nodes[dfn].solution])[q], Truth(p)[q])
  {
    hide WellFormed, GraphOk, Truth, Leq, Model, Round, Covers, Extends, Known, Cautious;
    var g, b := s.nodes[dfn].goal, s.nodes[dfn].solution;
    AssumeBelow(p, tau, g, b, q);
    CautiousModel(p, tau, q);
    LeqTransitive(p, q, Model(p, tau[g := b])[q], Model(p, tau)[q], Truth(p)[q]);
  }

  /** A value that is below the true one is bounded only by what is recorded. */
  lemma WrongIsRecorded(p: Program, s: State, minimum: nat, q: Goal, v: Value)
    requires WellFormed(p) && Bounded(p, s, minimum, q, v) && v != Truth(p)[q] && Leq(p, q, v, Truth(p)[q])
    ensures q in s.indices && Targeted(s, minimum, s.indices[q])
  {
    hide WellFormed, Truth, Leq, Targeted;
    if !(q in s.indices && Targeted(s, minimum, s.indices[q])) {
      LeqAntisymmetric(p, q, v, Truth(p)[q]);
      assert false;
    }
  }

  // ----- What the loop arrives at -----

  /** What the loop for node `dfn` arrives at. */
  ghost predicate Searched(p: Program, s: State, goal: Goal, dfn: nat, tau: Context, minimum: nat) {
    && Searching(p, s, goal, dfn, tau)
    && NewNodes(p, s.nodes, dfn, minimum)
    && AllJustified(p, PopState(s, dfn, s.nodes[dfn].solution, minimum))
    && Extends(p, tau, ContextOf(s))
    && LastRound(p, tau, goal, s.nodes[dfn].solution)
  }

  /** How often the value of node `dfn` can still rise. */
  ghost function RoundsLeft(p: Program, nodes: seq<Node>, dfn: nat): int {
    if dfn < |nodes| then p.height - p.rank(p.coinductive(nodes[dfn].goal), nodes[dfn].solution) else 0
  }

  /** Below the top, nothing has changed but flags of goals in strata below `k`. */
  ghost predicate SameBelow(p: Program, s0: State, s: State, dfn: nat, k: nat) {
    && dfn <= |s0.nodes| && dfn <= |s.nodes| && s.nodes[..dfn] == s0.nodes[..dfn]
    && s.path == s0.path && |s.stack| == |s0.stack| > 0
    && FlagsGrow(s0.stack[..|s0.stack| - 1], s.stack[..|s.stack| - 1])
    && FlagsKept(p, s0, s, |s0.stack| - 1, dfn, k)
  }

  lemma SameBelowTransitive(p: Program, s0: State, s1: State, s2: State, dfn: nat, k: nat)
    requires SameBelow(p, s0, s1, dfn, k) && SameBelow(p, s1, s2, dfn, k)
    ensures SameBelow(p, s0, s2, dfn, k)
  {
    hide FlagsKept;
    FlagsKeptOn(p, s0, s1, s2, |s0.stack| - 1, dfn, k, dfn, k);
  }

  /**
    After a round that started in `s0`: the loop may stop if the answer is stable, and can go on unless it is settled.
   */
  ghost predicate Decided(p: Program, s0: State, r: RoundRecord) {
    && TopIs(r.state, r.dfn) && |r.state.stack| == |s0.stack|
    && var done, again := AnswerState(r.state, r.dfn, r.answer), RepeatState(r.state, r.dfn, r.answer);
    && SameBelow(p, s0, done, r.dfn, p.stratum(r.goal) + 1) && SameBelow(p, s0, again, r.dfn, p.stratum(r.goal) + 1)
    && done.nodes[r.dfn].goal == r.goal
    && var flagged, changed := r.state.stack[|r.state.stack| - 1].cycle, r.state.nodes[r.dfn].solution != r.answer;
    && (!flagged || !changed ==>
          Searched(p, done, r.goal, r.dfn, r.tau, r.minimum)
            && LinkFits(p, done.nodes, r.dfn, r.minimum, p.stratum(r.goal)))
    && (flagged && changed && p.settled(r.answer) ==> StoppedAfter(p, r, done))
    && (changed && !p.settled(r.answer) ==>
          LoopAt(p, again, r.goal, r.dfn, r.tau)
            && 0 <= RoundsLeft(p, again.nodes, r.dfn) < RoundsLeft(p, s0.nodes, r.dfn))
  }

  /** What an iteration for `goal` that started in `s0` has come to. */
  ghost predicate Iterated(p: Program, s0: State, s: State, goal: Goal, minimum: nat, value: Value, asked: seq<Goal>,
                           answers: seq<Value>)
  {
    && WellFormed(p) && goal in p.goals && IndexOk(p, s0.nodes, s0.indices) && IndexOk(p, s.nodes, s.indices)
    && s.path == s0.path && FlagsGrow(s0.stack, s.stack) && Grown(s0.nodes, s.nodes, minimum)
    && Floor(p, s.nodes, p.stratum(goal)) && LinkFits(p, s.nodes, |s0.nodes|, minimum, p.stratum(goal))
    && RoundFlags(p, s0, s, goal)
    && Extends(p, ContextOf(s0), ContextOf(s))
    && value == Step(p, LevelWorld(p, ContextOf(s0), p.stratum(goal)), goal)
    && Justified(p, s, minimum, goal, value)
    && Told(p, s, minimum, goal, ContextOf(s0), asked, answers, value)
  }

  /** The round `r` that started in `s0` has come to its end. */
  ghost predicate RoundOf(p: Program, s0: State, r: RoundRecord) {
    && LoopAt(p, s0, r.goal, r.dfn, r.tau) && Ready(p, r.state)
    && s0.cache.Keys <= r.state.cache.Keys
    && Iterated(p, s0, r.state, r.goal, r.minimum, r.answer, r.asked, r.answers)
  }

  lemma RoundEnded(p: Program, s0: State, r: RoundRecord)
    requires RoundOf(p, s0, r)
    ensures RoundIs(p, r) && TopIs(s0, r.dfn) && r.state.nodes[r.dfn] == s0.nodes[r.dfn] && r.goal in p.goals
    ensures p.settled(s0.nodes[r.dfn].solution) ==> s0.nodes[r.dfn].solution == Initial(p, r.goal)
    ensures |r.state.stack| == |s0.stack|
    ensures !s0.stack[|s0.stack| - 1].cycle
  {
    hide WellFormed, GraphOk, AllJustified, LinksOk, Model, Cautious, Covers, Extends, RoundDone, Justified, IndexOk,
      Known, NewNodes, Leq, Floor, Round, BelowTop, Searching, Ready, Step, LevelWorld, LinkFits, FlagsKept, Acyclic,
      RoundFlags, Asked, AllBounded;
    var b := s0.nodes[r.dfn].solution;
    ReadyParts(p, s0);
    SearchingParts(p, s0, r.goal, r.dfn, r.tau);
    RoundFinished(p, s0, r.state, r.goal, r.dfn, r.tau, r.minimum, r.answer);
    SearchingParts(p, r.state, r.goal, r.dfn, r.tau);
    ExtendsKeepsModel(p, r.tau[r.goal := b], ContextOf(s0));
    AskedSame(p, r.goal, ContextOf(s0), r.tau[r.goal := b], r.asked, r.answers);
  }

  lemma RoundOutcome(p: Program, s0: State, r: RoundRecord)
    requires RoundOf(p, s0, r)
    ensures Decided(p, s0, r) && |r.state.stack| == |s0.stack|
  {
    hide WellFormed, GraphOk, AllJustified, LinksOk, Model, Cautious, Covers, Extends, RoundDone, RoundReady, Justified,
      IndexOk, Known, NewNodes, Leq, Floor, Round, BelowTop, AnswerState, RepeatState, PopState, Searching, Ready, Step,
      LevelWorld, LinkFits, FlagsKept, Truth, Acyclic, RoundFlags, Told, LastRound, LoopAt;
    var s, dfn, answer := r.state, r.dfn, r.answer;
    RoundEnded(p, s0, r);
    ReadyParts(p, s);
    SearchingParts(p, s, r.goal, dfn, r.tau);
    AnswerBelow(p, s, dfn, answer);
    RepeatBelow(p, s, dfn, answer);
    AnswerPath(s, dfn, answer);
    LoopParts(p, s0, r.goal, dfn, r.tau);
    AnswerLinkFits(p, s, dfn, answer, r.minimum, p.stratum(r.goal));
    ReadyParts(p, s0);
    PathBelow(p, s0, dfn);
    AnswerFlags(p, s0, s, r.goal, dfn, answer);
    RepeatFlags(p, s0, s, r.goal, dfn, answer);
    if s.stack[|s.stack| - 1].cycle ==> s.nodes[dfn].solution == answer {
      LoopEnds(p, s, r.goal, dfn, r.tau, r.minimum, answer);
      ReadyJustified(p, s);
      RoundIsQuiet(p, s, dfn, r.tau, answer, r.minimum, r.asked, r.answers);
    } else if p.settled(answer) && Acyclic(p, r.goal) {
      TopFlagKept(p, s0, s, r.goal, dfn);
      assert false;
    }
    if s.nodes[dfn].solution != answer && !p.settled(answer) {
      LoopRepeats(p, s, r.goal, dfn, r.tau, answer);
      RepeatLoops(p, s, r.goal, dfn, r.tau, answer);
    }
  }

  lemma ReadyJustified(p: Program, s: State)
    requires Ready(p, s)
    ensures AllJustified(p, s)
  {
  }

  lemma RepeatLoops(p: Program, s: State, goal: Goal, dfn: nat, tau: Context, answer: Value)
    requires TopIs(s, dfn)
    requires var s' := RepeatState(s, dfn, answer);
             && Ready(p, s') && Searching(p, s', goal, dfn, tau) && IndexOk(p, s'.nodes, s'.indices)
             && |s'.nodes| == dfn + 1 && |s'.stack| == |s.stack| && !s'.stack[|s.stack| - 1].cycle
             && goal in p.goals && RoundReady(p, s', goal, dfn, tau)
    ensures LoopAt(p, RepeatState(s, dfn, answer), goal, dfn, tau)
  {
    hide Ready, Searching, RoundReady, RepeatState, IndexOk;
  }

  /** A round for `goal` flags only entries whose goals are in the strata it asks for. */
  ghost predicate RoundFlags(p: Program, s0: State, s: State, goal: Goal) {
    && FlagsKept(p, s0, s, |s0.stack|, |s0.nodes|, p.stratum(goal) + 1)
    && (Acyclic(p, goal) ==> FlagsKept(p, s0, s, |s0.stack|, |s0.nodes|, p.stratum(goal)))
  }

  lemma TopFlagKept(p: Program, s0: State, s: State, goal: Goal, dfn: nat)
    requires RoundFlags(p, s0, s, goal) && Acyclic(p, goal) && TopIs(s0, dfn) && s0.nodes[dfn].goal == goal
             && |s.stack| == |s0.stack|
    ensures s.stack[|s.stack| - 1] == s0.stack[|s0.stack| - 1]
  {
    assert s0.path[|s0.stack| - 1] == dfn;
  }

  lemma AnswerFlags(p: Program, s0: State, s: State, goal: Goal, dfn: nat, answer: Value)
    requires RoundFlags(p, s0, s, goal) && TopIs(s, dfn) && TopIs(s0, dfn) && |s.stack| == |s0.stack|
             && dfn < |s0.nodes|
    requires forall d :: 0 <= d < |s0.path| - 1 ==> s0.path[d] < dfn
    ensures FlagsKept(p, s0, AnswerState(s, dfn, answer), |s0.stack| - 1, dfn, p.stratum(goal) + 1)
  {
  }

  lemma RepeatFlags(p: Program, s0: State, s: State, goal: Goal, dfn: nat, answer: Value)
    requires RoundFlags(p, s0, s, goal) && TopIs(s, dfn) && TopIs(s0, dfn) && |s.stack| == |s0.stack|
             && dfn < |s0.nodes|
    requires forall d :: 0 <= d < |s0.path| - 1 ==> s0.path[d] < dfn
    ensures FlagsKept(p, s0, RepeatState(s, dfn, answer), |s0.stack| - 1, dfn, p.stratum(goal) + 1)
  {
  }

  lemma PathBelow(p: Program, s: State, dfn: nat)
    requires WellFormed(p) && GraphOk(p, s) && TopIs(s, dfn)
    ensures forall d :: 0 <= d < |s.path| - 1 ==> s.path[d] < dfn
  {
    hide WellFormed, IndexOk, StrataOk, NodesCautious, CacheExact;
  }

  lemma AnswerPath(s: State, dfn: nat, answer: Value)
    requires TopIs(s, dfn)
    ensures AnswerState(s, dfn, answer).path == RepeatState(s, dfn, answer).path == s.path
    ensures |AnswerState(s, dfn, answer).stack| == |RepeatState(s, dfn, answer).stack| == |s.stack|
    ensures dfn < |AnswerState(s, dfn, answer).nodes|
  {
  }

  lemma LoopEnds(p: Program, s: State, goal: Goal, dfn: nat, tau: Context, minimum: nat, answer: Value)
    requires Ready(p, s) && Searching(p, s, goal, dfn, tau) && RoundDone(p, s, dfn, tau, answer)
             && NewNodes(p, s.nodes, dfn, minimum)
    requires s.stack[|s.stack| - 1].cycle ==> s.nodes[dfn].solution == answer
    requires Justified(p, s, minimum, goal, answer)
    ensures var s' := AnswerState(s, dfn, answer);
            && Searching(p, s', goal, dfn, tau) && NewNodes(p, s'.nodes, dfn, minimum)
            && AllJustified(p, PopState(s', dfn, s'.nodes[dfn].solution, minimum))
            && Extends(p, tau, ContextOf(s'))
            && s'.nodes[..dfn] == s.nodes[..dfn] && s'.stack[..|s.stack| - 1] == s.stack[..|s.stack| - 1]
  {
    hide WellFormed, GraphOk, AllJustified, RoundDone, NewNodes, Justified, LinksOk, Extends, Known, BelowTop,
      AnswerState, PopState, Floor, IndexOk;
    ReadyParts(p, s);
    RoundEnds(p, s, dfn, tau, answer, minimum);
    AnswerKeepsGraph(p, s, dfn, tau, answer);
    AnswerBelow(p, s, dfn, answer);
    AnswerKeepsNodes(p, s, dfn, answer, minimum, p.stratum(goal));
    ReadyIndex(p, AnswerState(s, dfn, answer));
  }

  lemma ReadyIndex(p: Program, s: State)
    requires WellFormed(p) && GraphOk(p, s)
    ensures IndexOk(p, s.nodes, s.indices)
  {
  }

  lemma RoundDoneParts(p: Program, s: State, dfn: nat, tau: Context, answer: Value)
    requires RoundDone(p, s, dfn, tau, answer)
    ensures Cautious(p, tau) && Covers(tau, s.nodes[..dfn], s.cache.Keys)
  {
  }

  lemma LoopRepeats(p: Program, s: State, goal: Goal, dfn: nat, tau: Context, answer: Value)
    requires Ready(p, s) && Searching(p, s, goal, dfn, tau) && RoundDone(p, s, dfn, tau, answer)
    requires s.nodes[dfn].solution != answer && !p.settled(answer)
    ensures var s' := RepeatState(s, dfn, answer);
            && Ready(p, s') && Searching(p, s', goal, dfn, tau) && IndexOk(p, s'.nodes, s'.indices)
               && RoundReady(p, s', goal, dfn, tau)
            && |s'.nodes| == dfn + 1 && !s'.stack[|s.stack| - 1].cycle
            && s'.nodes[..dfn] == s.nodes[..dfn] && s'.stack[..|s.stack| - 1] == s.stack[..|s.stack| - 1]
            && p.rank(p.coinductive(goal), s.nodes[dfn].solution) < p.rank(p.coinductive(goal),
               s'.nodes[dfn].solution) <= p.height
  {
    hide WellFormed, GraphOk, AllJustified, RoundDone, LinksOk, Extends, Known, BelowTop, RepeatState, Floor, IndexOk,
      Cautious, Covers, Leq, Model, Round;
    ReadyParts(p, s);
    RoundRepeats(p, s, dfn, tau, answer);
    RoundDoneParts(p, s, dfn, tau, answer);
    RepeatBelow(p, s, dfn, answer);
    RepeatKeepsFloor(p, s, dfn, answer, p.stratum(goal));
    ReadyIndex(p, RepeatState(s, dfn, answer));
    RepeatCache(s, dfn, answer);
  }

  lemma RepeatCache(s: State, dfn: nat, answer: Value)
    requires TopIs(s, dfn)
    ensures RepeatState(s, dfn, answer).cache == s.cache
  {
  }

  /** A goal that has just been pushed is ready for its first round. */
  lemma PushStarts(p: Program, s: State, goal: Goal)
    requires Ready(p, s) && IndexOk(p, s.nodes, s.indices) && goal in p.goals && goal !in s.indices && goal !in s.cache
    requires Floor(p, s.nodes, p.stratum(goal))
    ensures var s' := PushState(s, PushedNode(p, s, goal), StackEntry(p.coinductive(goal), false));
            Ready(p, s') && LoopAt(p, s', goal, |s.nodes|, ContextOf(s))
  {
    hide WellFormed, IndexOk, GraphOk, AllJustified, LinksOk, Floor, Known, BelowTop, RoundReady, Initial;
    ReadyParts(p, s);
    PushKeepsGraph(p, s, goal);
    var s' := PushState(s, PushedNode(p, s, goal), StackEntry(p.coinductive(goal), false));
    BelowPush(p, s, PushedNode(p, s, goal), StackEntry(p.coinductive(goal), false));
    ReadyIndex(p, s');
    assert s'.nodes[..|s.nodes|] == s.nodes;
    RoundStarts(p, s', goal, |s.nodes|, ContextOf(s));
  }

  lemma SearchedBelow(p: Program, s: State, node: Node, entry: StackEntry, s1: State, k: nat)
    requires |s.path| == |s.stack| && SameBelow(p, PushState(s, node, entry), s1, |s.nodes|, k)
    ensures |s1.path| == |s1.stack| == |s.stack| + 1 && |s.nodes| <= |s1.nodes| && s1.nodes[..|s.nodes|] == s.nodes
    ensures s1.path[..|s.stack|] == s.path && FlagsGrow(s.stack, s1.stack[..|s.stack|])
    ensures FlagsKept(p, s, s1, |s.stack|, |s.nodes|, k)
  {
    var s0 := PushState(s, node, entry);
    assert s0.stack[..|s.stack|] == s.stack;
    assert s0.path[..|s.stack|] == s.path;
    assert s0.nodes[..|s.nodes|] == s.nodes;
  }

  lemma FlagsAfterPop(p: Program, s: State, s1: State, s2: State, k: nat)
    requires FlagsKept(p, s, s1, |s.stack|, |s.nodes|, k) && s2.stack == s1.stack[..|s.stack|]
    ensures FlagsKept(p, s, s2, |s.stack|, |s.nodes|, k)
  {
  }

  lemma NothingChanged(p: Program, s: State, dfn: nat, k: nat)
    requires Ready(p, s) && TopIs(s, dfn)
    ensures SameBelow(p, s, s, dfn, k)
  {
    hide WellFormed, AllJustified, LinksOk, GraphOk;
    PathBelow(p, s, dfn);
  }

  lemma FlagsSame(p: Program, s: State, k: nat)
    requires Ready(p, s)
    ensures FlagsKept(p, s, s, |s.stack|, |s.nodes|, k)
  {
    hide WellFormed, AllJustified, LinksOk, IndexOk, StrataOk, NodesCautious, CacheExact;
  }

  lemma AnswerLinkFits(p: Program, s: State, dfn: nat, answer: Value, minimum: nat, k: nat)
    requires TopIs(s, dfn) && LinkFits(p, s.nodes, dfn + 1, minimum, k)
    ensures dfn <= |AnswerState(s, dfn, answer).nodes|
            && LinkFits(p, AnswerState(s, dfn, answer).nodes, dfn, minimum, k)
  {
  }

  // ----- Finishing -----

  lemma DrainNothing(nodes: seq<Node>, cache: map<Goal, Value>)
    ensures Drained(nodes, 0, cache, cache)
  {
  }

  lemma DrainOne(nodes: seq<Node>, n: nat, cache: map<Goal, Value>, cache': map<Goal, Value>)
    requires Drained(nodes, n, cache, cache') && n < |nodes| && nodes[n].goal !in cache
    requires forall i, j :: 0 <= i < j < |nodes| ==> nodes[i].goal != nodes[j].goal
    ensures Drained(nodes, n + 1, cache, cache'[nodes[n].goal := nodes[n].solution])
  {
  }

  lemma DrainKeepsKeys(nodes: seq<Node>, n: nat, cache: map<Goal, Value>, cache': map<Goal, Value>)
    requires Drained(nodes, n, cache, cache')
    ensures cache.Keys <= cache'.Keys
  {
  }

  /** Taking the goal off the stack; if it depends on nothing before it, all values after it are final. */
  lemma FinishPops(p: Program, s: State, goal: Goal, dfn: nat, tau: Context, minimum: nat)
    requires Searching(p, s, goal, dfn, tau) && NewNodes(p, s.nodes, dfn, minimum)
    ensures var s' := PopState(s, dfn, s.nodes[dfn].solution, minimum);
            GraphOk(p, s') && IndexOk(p, s'.nodes, s'.indices) && ContextOf(s') == ContextOf(s)
              && DoneFrom(s'.nodes, dfn)
  {
    hide WellFormed, GraphOk, AllJustified, Floor, Known, BelowTop, LinksOk;
    PopKeepsGraph(p, s, dfn, minimum);
    ReadyIndex(p, PopState(s, dfn, s.nodes[dfn].solution, minimum));
  }

  lemma FinishedHead(p: Program, s: State, dfn: nat)
    requires WellFormed(p) && GraphOk(p, s) && AllJustified(p, s) && DoneFrom(s.nodes, dfn)
    requires forall i :: dfn <= i < |s.nodes| ==> dfn <= s.nodes[i].links
    ensures forall i :: dfn <= i < |s.nodes| ==>
              s.nodes[i].goal in p.goals && s.nodes[i].solution == Truth(p)[s.nodes[i].goal]
  {
    hide WellFormed, AllJustified, NodesCautious, StackOk, StrataOk, Truth;
    forall i | dfn <= i < |s.nodes|
      ensures s.nodes[i].goal in p.goals && s.nodes[i].solution == Truth(p)[s.nodes[i].goal]
    {
      HeadIsFinal(p, s, dfn, i);
    }
  }

  /** Everything after the finished goal is gone: the graph is as it was before the goal was pushed. */
  lemma HeadIsGone(p: Program, s: State, s': State, goal: Goal, dfn: nat, tau: Context)
    requires Searching(p, s, goal, dfn, tau) && GraphOk(p, s')
    requires s'.nodes == s.nodes[..dfn] && s'.indices == Before(s.indices, dfn) && s'.stack == s.stack[..|s.stack| - 1]
    ensures Ready(p, s')
  {
    hide WellFormed, AllJustified, Floor, LinksOk, StackOk, StrataOk, CacheExact, Truth, Leq;
    IndexGrows(p, BelowTop(s, dfn), s');
    AllJustifiedGrows(p, BelowTop(s, dfn), s');
  }

  lemma FinalIsBound(p: Program, s: State, minimum: nat, goal: Goal)
    requires Ready(p, s) && goal in p.goals
    ensures Bounded(p, s, minimum, goal, Truth(p)[goal])
  {
    hide WellFormed, AllJustified, LinksOk, StackOk, StrataOk, CacheExact, Truth, Leq, Bound;
    BoundIsCautious(p, s, minimum, goal);
  }

  lemma KeptLinks(p: Program, nodes: seq<Node>, nodes': seq<Node>, dfn: nat, minimum: nat)
    requires dfn < |nodes| && LinksOk(p, nodes[..dfn]) && NewNodes(p, nodes, dfn, minimum)
    requires minimum < dfn && p.stratum(nodes[minimum].goal) <= p.stratum(nodes[dfn].goal)
    requires nodes' == nodes[dfn := Node(nodes[dfn].goal, nodes[dfn].solution, None, minimum)]
    ensures LinksOk(p, nodes') && Grown(nodes[..dfn], nodes', minimum)
  {
    forall i | 0 <= i < |nodes'|
      ensures nodes'[i].links <= i && (nodes'[i].stackDepth.None? ==> nodes'[i].links < i)
      ensures p.stratum(nodes'[nodes'[i].links].goal) <= p.stratum(nodes'[i].goal)
    {
      if i < dfn {
        assert nodes[..dfn][i] == nodes[i] == nodes'[i];
        assert nodes[..dfn][nodes[i].links] == nodes'[nodes[i].links];
      }
    }
  }

  /** A goal that depends on an earlier one stays, which can only be in the same stratum. */
  lemma FinishedAndKept(p: Program, s: State, goal: Goal, dfn: nat, tau: Context, minimum: nat, level: nat)
    requires Searching(p, s, goal, dfn, tau) && NewNodes(p, s.nodes, dfn, minimum)
    requires minimum < dfn && p.stratum(s.nodes[minimum].goal) <= p.stratum(goal) <= level
             && Floor(p, s.nodes[..dfn], level)
    ensures var s' := PopState(s, dfn, s.nodes[dfn].solution, minimum);
            LinksOk(p, s'.nodes) && Floor(p, s'.nodes, level) && Grown(s.nodes[..dfn], s'.nodes, minimum)
  {
    hide WellFormed, GraphOk, AllJustified, BelowTop, LinksOk, NewNodes;
    KeptLinks(p, s.nodes, PopState(s, dfn, s.nodes[dfn].solution, minimum).nodes, dfn, minimum);
    assert p.stratum(s.nodes[..dfn][minimum].goal) >= level;
  }

  lemma FinishedValue(p: Program, s: State, dfn: nat, tau: Context)
    requires WellFormed(p) && IndexOk(p, s.nodes, s.indices) && dfn < |s.nodes| && s.nodes[dfn].goal !in tau
    requires Extends(p, tau, ContextOf(s))
    ensures s.nodes[dfn].goal in p.goals && s.nodes[dfn].solution == Model(p, tau)[s.nodes[dfn].goal]
  {
    hide WellFormed, Model;
    assert s.nodes[dfn].goal in ContextOf(s);
  }

  lemma LinkFitsPrefix(p: Program, nodes: seq<Node>, m: nat, nodes': seq<Node>, n: nat, minimum: nat, k: nat)
    requires n <= m <= |nodes| && n <= |nodes'| && nodes[..n] == nodes'[..n] && LinkFits(p, nodes, m, minimum, k)
    ensures LinkFits(p, nodes', n, minimum, k)
  {
    if minimum < n {
      assert nodes[..n][minimum] == nodes[minimum] && nodes'[..n][minimum] == nodes'[minimum];
    }
  }

  // ----- Answers that need no search -----

  lemma CacheAnswer(p: Program, s: State, minimum: nat, goal: Goal)
    requires Ready(p, s) && IndexOk(p, s.nodes, s.indices) && goal in s.cache
    ensures goal in p.goals && s.cache[goal] == Model(p, ContextOf(s))[goal]
    ensures Bounded(p, s, minimum, goal, s.cache[goal])
  {
    hide WellFormed, Truth, Leq, Model, AllJustified, LinksOk, StackOk, StrataOk;
    ModelIsFixedPoint(p, ContextOf(s), goal);
    LeqReflexive(p, goal, Truth(p)[goal]);
  }

  lemma GraphAnswer(p: Program, s: State, minimum: nat, goal: Goal)
    requires WellFormed(p) && GraphOk(p, s) && goal in s.indices && Targeted(s, minimum, s.indices[goal])
    ensures goal in p.goals
    ensures s.nodes[s.indices[goal]].solution == Model(p, ContextOf(s))[goal]
    ensures Bounded(p, s, minimum, goal, s.nodes[s.indices[goal]].solution)
  {
    hide WellFormed, Truth, Leq, Model, StackOk, StrataOk;
    assert s.nodes[s.indices[goal]].goal == goal;
    ModelIsFixedPoint(p, ContextOf(s), goal);
    LeqReflexive(p, goal, s.nodes[s.indices[goal]].solution);
  }

  lemma LinkFitsHere(p: Program, nodes: seq<Node>, dfn: nat)
    requires LinksOk(p, nodes) && dfn < |nodes|
    ensures nodes[dfn].links <= dfn && LinkFits(p, nodes, |nodes|, nodes[dfn].links, p.stratum(nodes[dfn].goal))
  {
  }

  lemma LowerMinimum(p: Program, s: State, goal: Goal, minimum: nat, minimum': nat, value: Value)
    requires Ready(p, s) && minimum' <= minimum && Bounded(p, s, minimum, goal, value)
    ensures Bounded(p, s, minimum', goal, value)
  {
    hide WellFormed, Bounded, Truth, AllJustified, LinksOk, StackOk, StrataOk;
    IndexGrows(p, s, s);
    GrowthTightens(p, s, minimum, s, minimum');
    BoundedTightens(p, s, minimum, s, minimum', goal, value);
  }

  lemma StackIsShort(p: Program, s: State)
    requires Ready(p, s)
    ensures |s.stack| <= |p.goals|
    ensures forall g :: g in p.goals && g !in s.indices ==> |s.stack| < |p.goals|
  {
    hide WellFormed, Truth, Leq, AllJustified, LinksOk, NodesCautious;
    PathIsShort(p, s);
  }

  lemma ContextRecords(p: Program, s: State, caching: bool)
    requires Ready(p, s) && IndexOk(p, s.nodes, s.indices) && (!caching ==> s.cache == map[])
    ensures Records(ContextOf(s), s.nodes, caching)
  {
    hide WellFormed, GraphOk, AllJustified, LinksOk;
    forall g | g in ContextOf(s) && !caching
      ensures exists i :: 0 <= i < |s.nodes| && s.nodes[i].goal == g
    {
      assert s.nodes[s.indices[g]].goal == g;
    }
  }

  lemma EmptyIsReady(p: Program)
    requires WellFormed(p)
    ensures Ready(p, State([], map[], [], [], map[]))
  {
    hide WellFormed, Truth;
  }

  /** Between searches only final values are known. */
  lemma RootContext(p: Program, s: State)
    requires Ready(p, s) && s.nodes == [] && IndexOk(p, s.nodes, s.indices)
    ensures Model(p, ContextOf(s)) == Truth(p)
  {
    hide WellFormed, AllJustified, Truth, Model, LinksOk, StackOk, StrataOk;
    NothingAssumed(p);
    ExtendsKeepsModel(p, map[], ContextOf(s));
  }

  lemma NothingKept(p: Program, s: State)
    requires Ready(p, s) && s.path == []
    ensures s.nodes == []
  {
    hide WellFormed, AllJustified, NodesCautious, CacheExact, StrataOk;
    if |s.nodes| > 0 {
      KeptIsNotFirst(p, s, 0);
      assert false;
    }
  }

  lemma ReadyIsExact(p: Program, s: State, k: nat)
    requires Ready(p, s) && IndexOk(p, s.nodes, s.indices) && Floor(p, s.nodes, k)
    ensures LowerExact(p, ContextOf(s), k)
  {
    hide WellFormed, AllJustified, LinksOk, StackOk, StrataOk, NodesCautious, Truth, Floor, Known, LowerExact;
    FloorIsExact(p, s, k);
  }

  lemma NothingAsked(p: Program, s: State, goal: Goal, base: Context, minimum: nat)
    requires WellFormed(p)
    ensures Asked(p, goal, base, [], []) && AllBounded(p, s, minimum, [], [])
  {
    hide WellFormed;
  }

  /** Iterations for `goal` ask only for goals of strata below this one. */
  ghost function AskBound(p: Program, goal: Goal): nat {
    if Acyclic(p, goal) then p.stratum(goal) else p.stratum(goal) + 1
  }

  lemma AskedFlags(p: Program, s0: State, s: State, goal: Goal)
    requires FlagsKept(p, s0, s, |s0.stack|, |s0.nodes|, AskBound(p, goal))
    ensures RoundFlags(p, s0, s, goal)
  {
    hide Acyclic;
  }

  lemma AskIsKnown(p: Program, goal: Goal, answers: seq<Value>)
    requires WellFormed(p) && goal in p.goals && p.request(goal, answers).Ask?
    ensures var q := p.request(goal, answers).goal;
            |answers| < p.questions && q in p.goals && p.stratum(q) <= p.stratum(goal)
              && p.stratum(q) < AskBound(p, goal)
  {
    hide Monotone, Ordered;
  }

  lemma StillBounded(p: Program, s: State, minimum: nat, s': State, minimum': nat, asked: seq<Goal>,
                     answers: seq<Value>, q: Goal, answer: Value)
    requires WellFormed(p) && IndexOk(p, s.nodes, s.indices) && Ready(p, s') && s.nodes <= s'.nodes
             && FlagsGrow(s.stack, s'.stack)
    requires minimum' <= minimum && AllBounded(p, s, minimum, asked, answers) && Bounded(p, s', minimum', q, answer)
    ensures AllBounded(p, s', minimum', asked + [q], answers + [answer])
  {
    hide WellFormed, AllJustified, LinksOk, StackOk, StrataOk, CacheExact, Truth, Bounded, Tightens;
    IndexGrows(p, s, s');
    GrowthTightens(p, s, minimum, s', minimum');
    AllBoundedTightens(p, s, minimum, s', minimum', asked, answers);
  }

  lemma NodeIndex(p: Program, s: State, dfn: nat)
    requires IndexOk(p, s.nodes, s.indices) && dfn < |s.nodes|
    ensures s.nodes[dfn].goal in s.indices && s.indices[s.nodes[dfn].goal] == dfn
  {
  }
}
