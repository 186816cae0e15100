/**
  The state of the recursive solver: a search graph of provisional values numbered depth
  first, a stack with cycle flags, and a cache.  What holds of every reachable state, and
  why values that have not risen to their final level may be trusted.
 */
module SearchGraph {
  import opened Prelude
  import opened FixedPoints

  datatype Node = Node(goal: Goal, solution: Value, stackDepth: Option<nat>, links: nat)

  datatype StackEntry = StackEntry(coinductiveGoal: bool, cycle: bool)

  /** `path[d]` is the node of the stack entry at depth `d`. */
  datatype State = State(nodes: seq<Node>, indices: map<Goal, nat>, stack: seq<StackEntry>, path: seq<nat>,
    cache: map<Goal, Value>)

  // ----- Invariants -----

  ghost predicate IndexOk(p: Program, nodes: seq<Node>, indices: map<Goal, nat>) {
    && (forall i :: 0 <= i < |nodes| ==>
          nodes[i].goal in p.goals && nodes[i].goal in indices && indices[nodes[i].goal] == i)
    && (forall g :: g in indices ==> indices[g] < |nodes| && nodes[indices[g]].goal == g)
  }

  ghost predicate StackOk(p: Program, s: State) {
    && |s.path| == |s.stack|
    && (forall d :: 0 <= d < |s.path| ==> s.path[d] < |s.nodes| && s.nodes[s.path[d]].stackDepth == Some(d))
    && (forall d :: 0 <= d < |s.path| ==> s.nodes[s.path[d]].links == s.path[d])
    && (forall d, e :: 0 <= d < e < |s.path| ==> s.path[d] < s.path[e])
    && (forall d :: 0 <= d < |s.stack| ==> s.stack[d].coinductiveGoal == p.coinductive(s.nodes[s.path[d]].goal))
    && (forall i :: 0 <= i < |s.nodes| && s.nodes[i].stackDepth.Some? ==>
          s.nodes[i].stackDepth.value < |s.path| && s.path[s.nodes[i].stackDepth.value] == i)
  }

  /** A goal on the stack was asked for by the one below it, so strata do not rise towards the top. */
  ghost predicate StrataOk(p: Program, s: State)
    requires forall d :: 0 <= d < |s.path| ==> s.path[d] < |s.nodes|
  {
    forall d, e :: 0 <= d < e < |s.path| ==> p.stratum(s.nodes[s.path[e]].goal) <= p.stratum(s.nodes[s.path[d]].goal)
  }

  /** A finished node that is still in the graph depends on something before it, which is not in a higher stratum. */
  ghost predicate LinksOk(p: Program, nodes: seq<Node>) {
    forall i :: 0 <= i < |nodes| ==>
                  && nodes[i].links <= i
                  && (nodes[i].stackDepth.None? ==> nodes[i].links < i)
                  && p.stratum(nodes[nodes[i].links].goal) <= p.stratum(nodes[i].goal)
  }

  /** Provisional values are at most the true ones. */
  ghost predicate NodesCautious(p: Program, nodes: seq<Node>)
    requires WellFormed(p)
  {
    forall i :: 0 <= i < |nodes| ==>
        nodes[i].goal in p.goals && Leq(p, nodes[i].goal, nodes[i].solution, Truth(p)[nodes[i].goal])
  }

  ghost predicate CacheExact(p: Program, cache: map<Goal, Value>)
    requires WellFormed(p)
  {
    forall g :: g in cache ==> g in p.goals && cache[g] == Truth(p)[g]
  }

  ghost predicate GraphOk(p: Program, s: State)
    requires WellFormed(p)
  {
    && IndexOk(p, s.nodes, s.indices)
    && StackOk(p, s)
    && StrataOk(p, s)
    && NodesCautious(p, s.nodes)
    && CacheExact(p, s.cache)
    && s.cache.Keys !! s.indices.Keys
  }

  /** All nodes are in stratum `k` or higher. */
  ghost predicate Floor(p: Program, nodes: seq<Node>, k: nat) {
    forall i :: 0 <= i < |nodes| ==> k <= p.stratum(nodes[i].goal)
  }

  /** Everything the cache and the graph currently answer. */
  ghost function Known(cache: map<Goal, Value>, nodes: seq<Node>, indices: map<Goal, nat>): Context
    requires forall g :: g in indices ==> indices[g] < |nodes|
  {
    map g | g in cache.Keys + indices.Keys :: if g in indices then nodes[indices[g]].solution else cache[g]
  }

  // ----- Why a node's value need not be higher -----

  /** Node `j` is not before `minimum`, and was flagged if still active. */
  ghost predicate Targeted(s: State, minimum: nat, j: nat) {
    && minimum <= j < |s.nodes|
    && (s.nodes[j].stackDepth.Some? ==>
         s.nodes[j].stackDepth.value < |s.stack| && s.stack[s.nodes[j].stackDepth.value].cycle)
  }

  /** An upper bound for the value of `q`: the recorded one if it may be relied on, and otherwise the true one. */
  ghost function Bound(p: Program, s: State, minimum: nat, q: Goal): Value
    requires WellFormed(p) && q in p.goals
  {
    if q in s.indices && Targeted(s, minimum, s.indices[q]) then s.nodes[s.indices[q]].solution else Truth(p)[q]
  }

  ghost function UpperWorld(p: Program, s: State, minimum: nat, k: nat): (w: World)
    requires WellFormed(p)
    ensures IsWorld(p, w)
  {
    map q | q in p.goals :: if p.stratum(q) == k then Bound(p, s, minimum, q) else Truth(p)[q]
  }

  /** The recorded values at or after `minimum` already keep the value of `g` from rising above `v`. */
  ghost predicate Justified(p: Program, s: State, minimum: nat, g: Goal, v: Value)
    requires WellFormed(p)
  {
    g in p.goals && Leq(p, g, Step(p, UpperWorld(p, s, minimum, p.stratum(g)), g), v)
  }

  ghost predicate AllJustified(p: Program, s: State)
    requires WellFormed(p)
  {
    forall i :: 0 <= i < |s.nodes| && s.nodes[i].stackDepth.None? ==>
                  Justified(p, s, s.nodes[i].links, s.nodes[i].goal, s.nodes[i].solution)
  }

  ghost predicate Bounded(p: Program, s: State, minimum: nat, q: Goal, v: Value)
    requires WellFormed(p)
  {
    q in p.goals && Leq(p, q, Bound(p, s, minimum, q), v)
  }

  /** No bound is higher in the second state than in the first. */
  ghost predicate Tightens(p: Program, s: State, minimum: nat, s': State, minimum': nat)
    requires WellFormed(p)
  {
    forall q :: q in p.goals ==> Leq(p, q, Bound(p, s', minimum', q), Bound(p, s, minimum, q))
  }

  lemma UpperTightens(p: Program, s: State, minimum: nat, s': State, minimum': nat, k: nat)
    requires WellFormed(p) && Tightens(p, s, minimum, s', minimum')
    ensures Under(p, k, UpperWorld(p, s', minimum', k), UpperWorld(p, s, minimum, k))
  {
    hide WellFormed, Truth, Bound, Leq;
  }

  lemma JustifiedTightens(p: Program, s: State, minimum: nat, s': State, minimum': nat, g: Goal, v: Value)
    requires WellFormed(p) && Tightens(p, s, minimum, s', minimum') && Justified(p, s, minimum, g, v)
    ensures Justified(p, s', minimum', g, v)
  {
    hide WellFormed, Truth, Bound, Leq, UpperWorld, Step, Tightens;
    var k := p.stratum(g);
    UpperTightens(p, s, minimum, s', minimum', k);
    var w, w' := UpperWorld(p, s, minimum, k), UpperWorld(p, s', minimum', k);
    StepMonotone(p, w', w, g);
    LeqTransitive(p, g, Step(p, w', g), Step(p, w, g), v);
  }

  lemma BoundedTightens(p: Program, s: State, minimum: nat, s': State, minimum': nat, q: Goal, v: Value)
    requires WellFormed(p) && Tightens(p, s, minimum, s', minimum') && Bounded(p, s, minimum, q, v)
    ensures Bounded(p, s', minimum', q, v)
  {
    hide WellFormed, Truth, Bound, Leq;
    LeqTransitive(p, q, Bound(p, s', minimum', q), Bound(p, s, minimum, q), v);
  }

  /** Recorded values are at most the true ones, so a bound is, too. */
  lemma BoundIsCautious(p: Program, s: State, minimum: nat, q: Goal)
    requires WellFormed(p) && NodesCautious(p, s.nodes) && IndexOk(p, s.nodes, s.indices) && q in p.goals
    ensures Leq(p, q, Bound(p, s, minimum, q), Truth(p)[q])
  {
    hide WellFormed, Truth, Leq;
    LeqReflexive(p, q, Truth(p)[q]);
    if q in s.indices {
      assert s.nodes[s.indices[q]].goal == q;
    }
  }

  /** What need not be a target any more is bounded by the true value. */
  lemma TightensByTargets(p: Program, s: State, minimum: nat, s': State, minimum': nat)
    requires WellFormed(p) && NodesCautious(p, s'.nodes) && IndexOk(p, s'.nodes, s'.indices)
    requires forall q :: q in p.goals && q in s.indices && Targeted(s, minimum, s.indices[q]) ==>
               q in s'.indices && Targeted(s', minimum', s'.indices[q])
                 && s'.nodes[s'.indices[q]].solution == s.nodes[s.indices[q]].solution
    ensures Tightens(p, s, minimum, s', minimum')
  {
    hide WellFormed, Truth, Leq, NodesCautious, IndexOk, Targeted;
    forall q | q in p.goals
      ensures Leq(p, q, Bound(p, s', minimum', q), Bound(p, s, minimum, q))
    {
      BoundIsCautious(p, s', minimum', q);
      LeqReflexive(p, q, Bound(p, s, minimum, q));
    }
  }

  // ----- How a call may change the state -----

  ghost predicate FlagsGrow(before: seq<StackEntry>, after: seq<StackEntry>) {
    && |before| == |after|
    && (forall d :: 0 <= d < |before| ==>
          before[d].coinductiveGoal == after[d].coinductiveGoal && (before[d].cycle ==> after[d].cycle))
  }

  /** Nodes and flags are only added. */
  ghost predicate StateGrows(s: State, s': State) {
    && s.nodes <= s'.nodes
    && FlagsGrow(s.stack, s'.stack)
    && (forall g :: g in s.indices ==> g in s'.indices && s'.indices[g] == s.indices[g])
  }

  lemma GrowthTightens(p: Program, s: State, minimum: nat, s': State, minimum': nat)
    requires WellFormed(p) && NodesCautious(p, s'.nodes) && IndexOk(p, s'.nodes, s'.indices)
    requires StateGrows(s, s') && minimum' <= minimum
    ensures Tightens(p, s, minimum, s', minimum')
  {
    hide WellFormed, Truth, Leq, NodesCautious;
    TightensByTargets(p, s, minimum, s', minimum');
  }

  lemma AllJustifiedGrows(p: Program, s: State, s': State)
    requires WellFormed(p) && NodesCautious(p, s'.nodes) && IndexOk(p, s'.nodes, s'.indices)
    requires StateGrows(s, s') && s.nodes == s'.nodes && AllJustified(p, s)
    ensures AllJustified(p, s')
  {
    hide WellFormed, Truth, Leq, NodesCautious, Justified, IndexOk, StateGrows;
    forall i | 0 <= i < |s'.nodes| && s'.nodes[i].stackDepth.None?
      ensures Justified(p, s', s'.nodes[i].links, s'.nodes[i].goal, s'.nodes[i].solution)
    {
      GrowthTightens(p, s, s.nodes[i].links, s', s.nodes[i].links);
      JustifiedTightens(p, s, s.nodes[i].links, s', s.nodes[i].links, s.nodes[i].goal, s.nodes[i].solution);
    }
  }

  // ----- Pushing -----

  ghost function PushedNode(p: Program, s: State, goal: Goal): Node {
    Node(goal, Initial(p, goal), Some(|s.stack|), |s.nodes|)
  }

  ghost function PushState(s: State, node: Node, entry: StackEntry): State {
    State(s.nodes + [node], s.indices[node.goal := |s.nodes|], s.stack + [entry], s.path + [|s.nodes|], s.cache)
  }

  /** A fresh active node that nobody has asked for is no target yet. */
  lemma PushTightens(p: Program, s: State, node: Node, entry: StackEntry, minimum: nat)
    requires WellFormed(p) && IndexOk(p, s.nodes, s.indices) && node.goal !in s.indices
    requires var s' := PushState(s, node, entry); NodesCautious(p, s'.nodes) && IndexOk(p, s'.nodes, s'.indices)
    ensures Tightens(p, s, minimum, PushState(s, node, entry), minimum)
  {
    hide WellFormed, Truth, Leq, NodesCautious;
    var s' := PushState(s, node, entry);
    TightensByTargets(p, s, minimum, s', minimum);
  }

  lemma PushKeepsJustified(p: Program, s: State, node: Node, entry: StackEntry)
    requires WellFormed(p) && IndexOk(p, s.nodes, s.indices) && node.goal !in s.indices && node.stackDepth.Some?
    requires var s' := PushState(s, node, entry); NodesCautious(p, s'.nodes) && IndexOk(p, s'.nodes, s'.indices)
    requires AllJustified(p, s)
    ensures AllJustified(p, PushState(s, node, entry))
  {
    hide WellFormed, Truth, Leq, NodesCautious, Justified, IndexOk;
    var s' := PushState(s, node, entry);
    forall i | 0 <= i < |s'.nodes| && s'.nodes[i].stackDepth.None?
      ensures Justified(p, s', s'.nodes[i].links, s'.nodes[i].goal, s'.nodes[i].solution)
    {
      PushTightens(p, s, node, entry, s.nodes[i].links);
      JustifiedTightens(p, s, s.nodes[i].links, s', s.nodes[i].links, s.nodes[i].goal, s.nodes[i].solution);
    }
  }

  // ----- Finishing the top node -----

  ghost predicate TopIs(s: State, dfn: nat) {
    |s.path| > 0 && |s.path| == |s.stack| && s.path[|s.path| - 1] == dfn < |s.nodes|
  }

  /** The state after the top goal, node `dfn`, has been taken off the stack with value `v`. */
  ghost function PopState(s: State, dfn: nat, v: Value, links: nat): State
    requires TopIs(s, dfn)
  {
    State(s.nodes[dfn := Node(s.nodes[dfn].goal, v, None, links)], s.indices, s.stack[..|s.stack| - 1],
      s.path[..|s.path| - 1], s.cache)
  }

  /** Allowed when nobody looked at the node, or when its value did not change. */
  lemma PopTightens(p: Program, s: State, dfn: nat, v: Value, links: nat, minimum: nat)
    requires WellFormed(p) && IndexOk(p, s.nodes, s.indices) && StackOk(p, s) && TopIs(s, dfn)
    requires NodesCautious(p, s.nodes) && Leq(p, s.nodes[dfn].goal, v, Truth(p)[s.nodes[dfn].goal])
    requires s.stack[|s.stack| - 1].cycle ==> v == s.nodes[dfn].solution
    ensures Tightens(p, s, minimum, PopState(s, dfn, v, links), minimum)
  {
    hide WellFormed, Truth, Leq;
    var s' := PopState(s, dfn, v, links);
    assert NodesCautious(p, s'.nodes);
    TightensByTargets(p, s, minimum, s', minimum);
  }

  lemma PopKeepsJustified(p: Program, s: State, dfn: nat, v: Value, links: nat)
    requires WellFormed(p) && IndexOk(p, s.nodes, s.indices) && StackOk(p, s) && TopIs(s, dfn)
    requires NodesCautious(p, s.nodes) && Leq(p, s.nodes[dfn].goal, v, Truth(p)[s.nodes[dfn].goal])
    requires s.stack[|s.stack| - 1].cycle ==> v == s.nodes[dfn].solution
    requires AllJustified(p, s) && Justified(p, s, links, s.nodes[dfn].goal, v)
    ensures AllJustified(p, PopState(s, dfn, v, links))
  {
    hide WellFormed, Truth, Leq, NodesCautious, Justified, IndexOk, StackOk;
    var s' := PopState(s, dfn, v, links);
    forall i | 0 <= i < |s'.nodes| && s'.nodes[i].stackDepth.None?
      ensures Justified(p, s', s'.nodes[i].links, s'.nodes[i].goal, s'.nodes[i].solution)
    {
      var n := s'.nodes[i];
      PopTightens(p, s, dfn, v, links, n.links);
      JustifiedTightens(p, s, n.links, s', n.links, n.goal, n.solution);
    }
  }

  // ----- When values are final -----

  ghost predicate DoneFrom(nodes: seq<Node>, dfn: nat) {
    forall i :: dfn <= i < |nodes| ==> nodes[i].stackDepth.None?
  }

  /** The recorded values of the nodes from `from` on in stratum `k`, and the values of `w` for all other goals. */
  ghost function Recorded(p: Program, s: State, from: nat, k: nat, w: World): (r: World)
    requires IndexOk(p, s.nodes, s.indices) && IsWorld(p, w)
    ensures IsWorld(p, r)
  {
    map q | q in p.goals :: if p.stratum(q) == k && q in s.indices && from <= s.indices[q]
      then s.nodes[s.indices[q]].solution else w[q]
  }

  /** Nodes that depend on nothing before `dfn` have their final values. */
  lemma HeadIsFinal(p: Program, s: State, dfn: nat, i: nat)
    requires WellFormed(p) && IndexOk(p, s.nodes, s.indices) && NodesCautious(p, s.nodes) && AllJustified(p, s)
    requires DoneFrom(s.nodes, dfn) && (forall j :: dfn <= j < |s.nodes| ==> dfn <= s.nodes[j].links)
             && dfn <= i < |s.nodes|
    ensures s.nodes[i].solution == Truth(p)[s.nodes[i].goal]
  {
    hide WellFormed, Truth, Leq, NodesCautious, Justified, Step, UpperWorld, Model;
    var g, k, truth := s.nodes[i].goal, p.stratum(s.nodes[i].goal), Truth(p);
    var w := Recorded(p, s, dfn, k, truth);
    NothingAssumed(p);
    forall q | q in p.goals && p.stratum(q) == k
      ensures Leq(p, q, w[q], truth[q])
      ensures w[q] != truth[q] ==> Leq(p, q, Step(p, w, q), w[q])
    {
      LeqReflexive(p, q, truth[q]);
      if q in s.indices && dfn <= s.indices[q] {
        var j := s.indices[q];
        NodeIsCautious(p, s.nodes, j);
        HeadUnderBound(p, s, dfn, j);
        assert Justified(p, s, s.nodes[j].links, q, s.nodes[j].solution);
        StepUnderBound(p, s, s.nodes[j].links, w, q, s.nodes[j].solution);
      }
    }
    SelfSupport(p, map[], k, w, g);
  }

  lemma NodeIsCautious(p: Program, nodes: seq<Node>, j: nat)
    requires WellFormed(p) && NodesCautious(p, nodes) && j < |nodes|
    ensures nodes[j].goal in p.goals && Leq(p, nodes[j].goal, nodes[j].solution, Truth(p)[nodes[j].goal])
  {
  }

  /** A world that is nowhere above the bounds leads to no more than what is justified. */
  lemma StepUnderBound(p: Program, s: State, minimum: nat, w: World, q: Goal, v: Value)
    requires WellFormed(p) && IsWorld(p, w) && Justified(p, s, minimum, q, v)
    requires Under(p, p.stratum(q), w, UpperWorld(p, s, minimum, p.stratum(q)))
    ensures Leq(p, q, Step(p, w, q), v)
  {
    hide WellFormed, Truth, Leq, Step, UpperWorld, Under;
    var u := UpperWorld(p, s, minimum, p.stratum(q));
    StepMonotone(p, w, u, q);
    LeqTransitive(p, q, Step(p, w, q), Step(p, u, q), v);
  }

  lemma HeadUnderBound(p: Program, s: State, dfn: nat, j: nat)
    requires WellFormed(p) && IndexOk(p, s.nodes, s.indices) && NodesCautious(p, s.nodes) && DoneFrom(s.nodes, dfn)
    requires dfn <= j < |s.nodes| && dfn <= s.nodes[j].links
    ensures var k := p.stratum(s.nodes[j].goal);
            Under(p, k, Recorded(p, s, dfn, k, Truth(p)), UpperWorld(p, s, s.nodes[j].links, k))
  {
    hide WellFormed, Truth, Leq, NodesCautious;
    var k, truth, m := p.stratum(s.nodes[j].goal), Truth(p), s.nodes[j].links;
    var w := Recorded(p, s, dfn, k, truth);
    forall q | q in p.goals && p.stratum(q) == k
      ensures Leq(p, q, w[q], Bound(p, s, m, q))
    {
      LeqReflexive(p, q, w[q]);
      if q in s.indices {
        NodeIsCautious(p, s.nodes, s.indices[q]);
      }
    }
  }

  // ----- A goal nobody asked for -----

  /** `tau` answers the nodes before `dfn`, the top of the stack, which was not asked for since it was pushed. */
  ghost predicate Unasked(p: Program, s: State, dfn: nat, tau: Context) {
    && TopIs(s, dfn)
    && s.nodes[dfn].stackDepth == Some(|s.stack| - 1)
    && !s.stack[|s.stack| - 1].cycle
    && DoneFrom(s.nodes, dfn + 1)
    && (forall j :: 0 <= j < dfn ==> s.nodes[j].goal in tau && tau[s.nodes[j].goal] == s.nodes[j].solution)
    && (forall j :: dfn <= j < |s.nodes| ==> s.nodes[j].goal !in tau)
  }

  /** The values recorded after `dfn`, and the model elsewhere, are nowhere above the bounds. */
  lemma UnaskedUnderBound(p: Program, s: State, dfn: nat, tau: Context, minimum: nat, k: nat)
    requires WellFormed(p) && IndexOk(p, s.nodes, s.indices) && NodesCautious(p, s.nodes)
    requires Cautious(p, tau) && Unasked(p, s, dfn, tau)
    ensures Under(p, k, Recorded(p, s, dfn + 1, k, LevelWorld(p, tau, k)), UpperWorld(p, s, minimum, k))
  {
    hide WellFormed, Truth, Leq, NodesCautious, Cautious, LevelWorld, Model, IsLeast;
    var m := LevelWorld(p, tau, k);
    var w := Recorded(p, s, dfn + 1, k, m);
    LevelWorldIsLeast(p, tau, k);
    forall q | q in p.goals
      ensures p.stratum(q) < k ==> w[q] == Truth(p)[q]
      ensures p.stratum(q) == k ==> Leq(p, q, w[q], Bound(p, s, minimum, q))
    {
      LeastElsewhere(p, k, Truth(p), tau, m, q);
      if p.stratum(q) == k {
        ModelAt(p, tau, q);
        CautiousModel(p, tau, q);
        LeqReflexive(p, q, w[q]);
        if q in s.indices {
          NodeIsCautious(p, s.nodes, s.indices[q]);
        }
      }
    }
  }

  /** The values found beneath a goal nobody asked for are exact without it. */
  lemma UnaskedIsExact(p: Program, s: State, dfn: nat, tau: Context, i: nat)
    requires WellFormed(p) && IndexOk(p, s.nodes, s.indices) && NodesCautious(p, s.nodes) && AllJustified(p, s)
    requires Cautious(p, tau) && Unasked(p, s, dfn, tau) && dfn < i < |s.nodes|
    requires forall j :: dfn < j < |s.nodes| ==>
               Leq(p, s.nodes[j].goal, s.nodes[j].solution, Model(p, tau)[s.nodes[j].goal])
    ensures s.nodes[i].solution == Model(p, tau)[s.nodes[i].goal]
  {
    hide WellFormed, Truth, Leq, NodesCautious, Justified, Step, UpperWorld, Model, LevelWorld, Cautious, IsLeast;
    var g, k := s.nodes[i].goal, p.stratum(s.nodes[i].goal);
    var m := LevelWorld(p, tau, k);
    var w := Recorded(p, s, dfn + 1, k, m);
    LevelWorldIsLeast(p, tau, k);
    forall q | q in p.goals
      ensures p.stratum(q) < k ==> w[q] == Truth(p)[q]
      ensures p.stratum(q) == k ==> Leq(p, q, w[q], Model(p, tau)[q])
      ensures p.stratum(q) == k && w[q] != Model(p, tau)[q] ==> q !in tau && Leq(p, q, Step(p, w, q), w[q])
    {
      LeastElsewhere(p, k, Truth(p), tau, m, q);
      if p.stratum(q) == k {
        ModelAt(p, tau, q);
        LeqReflexive(p, q, m[q]);
        if q in s.indices && dfn + 1 <= s.indices[q] {
          var j := s.indices[q];
          UnaskedUnderBound(p, s, dfn, tau, s.nodes[j].links, k);
          assert Justified(p, s, s.nodes[j].links, q, s.nodes[j].solution);
          StepUnderBound(p, s, s.nodes[j].links, w, q, s.nodes[j].solution);
        }
      }
    }
    SelfSupport(p, tau, k, w, g);
  }

  /** A justified value of the goal itself is not below its value in the model either. */
  lemma UnaskedTop(p: Program, s: State, dfn: nat, tau: Context, minimum: nat, v: Value)
    requires WellFormed(p) && IndexOk(p, s.nodes, s.indices) && NodesCautious(p, s.nodes) && AllJustified(p, s)
    requires Cautious(p, tau) && Unasked(p, s, dfn, tau)
    requires forall j :: dfn < j < |s.nodes| ==>
               Leq(p, s.nodes[j].goal, s.nodes[j].solution, Model(p, tau)[s.nodes[j].goal])
    requires Justified(p, s, minimum, s.nodes[dfn].goal, v)
    ensures Leq(p, s.nodes[dfn].goal, Model(p, tau)[s.nodes[dfn].goal], v)
  {
    hide WellFormed, Truth, Leq, NodesCautious, Justified, Step, UpperWorld, Model, LevelWorld, Cautious, AllJustified;
    var g, k := s.nodes[dfn].goal, p.stratum(s.nodes[dfn].goal);
    var m := LevelWorld(p, tau, k);
    var w := Recorded(p, s, dfn + 1, k, m);
    forall q | q in p.goals
      ensures w[q] == m[q]
    {
      if p.stratum(q) == k && q in s.indices && dfn + 1 <= s.indices[q] {
        UnaskedIsExact(p, s, dfn, tau, s.indices[q]);
        ModelAt(p, tau, q);
      }
    }
    assert w == m;
    UnaskedUnderBound(p, s, dfn, tau, minimum, k);
    ModelIsFixedPoint(p, tau, g);
    StepUnderBound(p, s, minimum, w, g, v);
  }

  // ----- The context -----

  lemma KnownAfterPush(p: Program, cache: map<Goal, Value>, nodes: seq<Node>, indices: map<Goal, nat>, node: Node)
    requires IndexOk(p, nodes, indices) && node.goal !in indices && node.goal !in cache
    ensures Known(cache, nodes + [node], indices[node.goal := |nodes|]) ==
              Known(cache, nodes, indices)[node.goal := node.solution]
    ensures node.goal !in Known(cache, nodes, indices)
  {
  }

  lemma KnownAfterUpdate(p: Program, cache: map<Goal, Value>, nodes: seq<Node>, indices: map<Goal, nat>, dfn: nat,
                         node: Node)
    requires IndexOk(p, nodes, indices) && dfn < |nodes| && node.goal == nodes[dfn].goal
    ensures IndexOk(p, nodes[dfn := node], indices)
    ensures Known(cache, nodes[dfn := node], indices) == Known(cache, nodes, indices)[node.goal := node.solution]
    ensures node.goal in Known(cache, nodes, indices)
    ensures Known(cache, nodes, indices)[node.goal] == nodes[dfn].solution
  {
  }

  ghost function ContextOf(s: State): Context
    requires forall g :: g in s.indices ==> s.indices[g] < |s.nodes|
  {
    Known(s.cache, s.nodes, s.indices)
  }

  lemma PushKeepsIndex(p: Program, s: State, node: Node, entry: StackEntry)
    requires IndexOk(p, s.nodes, s.indices) && node.goal in p.goals && node.goal !in s.indices
    ensures var s' := PushState(s, node, entry); IndexOk(p, s'.nodes, s'.indices)
  {
  }

  lemma PushKeepsStack(p: Program, s: State, goal: Goal)
    requires IndexOk(p, s.nodes, s.indices) && StackOk(p, s)
    ensures StackOk(p, PushState(s, PushedNode(p, s, goal), StackEntry(p.coinductive(goal), false)))
  {
    hide IndexOk;
  }

  lemma PushKeepsStrata(p: Program, s: State, goal: Goal)
    requires StackOk(p, s) && StrataOk(p, s) && LinksOk(p, s.nodes) && Floor(p, s.nodes, p.stratum(goal))
    ensures var s' := PushState(s, PushedNode(p, s, goal), StackEntry(p.coinductive(goal), false));
            && (forall d :: 0 <= d < |s'.path| ==> s'.path[d] < |s'.nodes|)
            && StrataOk(p, s') && LinksOk(p, s'.nodes) && Floor(p, s'.nodes, p.stratum(goal))
  {
    hide Initial;
  }

  lemma PushKeepsGraph(p: Program, s: State, goal: Goal)
    requires WellFormed(p) && GraphOk(p, s) && LinksOk(p, s.nodes) && AllJustified(p, s)
    requires goal in p.goals && goal !in s.indices && goal !in s.cache && Floor(p, s.nodes, p.stratum(goal))
    ensures var s' := PushState(s, PushedNode(p, s, goal), StackEntry(p.coinductive(goal), false));
            && GraphOk(p, s') && LinksOk(p, s'.nodes) && AllJustified(p, s') && Floor(p, s'.nodes, p.stratum(goal))
            && ContextOf(s') == ContextOf(s)[goal := Initial(p, goal)] && goal !in ContextOf(s)
  {
    hide WellFormed, Truth, Leq, AllJustified, StackOk, StrataOk, LinksOk, Floor, Known, IndexOk;
    var node := PushedNode(p, s, goal);
    PushKeepsIndex(p, s, node, StackEntry(p.coinductive(goal), false));
    PushKeepsStack(p, s, goal);
    PushKeepsStrata(p, s, goal);
    KnownAfterPush(p, s.cache, s.nodes, s.indices, node);
    LeqInitial(p, goal, Truth(p)[goal]);
    PushKeepsJustified(p, s, node, StackEntry(p.coinductive(goal), false));
  }

  ghost function Before(indices: map<Goal, nat>, dfn: nat): map<Goal, nat> {
    map g | g in indices && indices[g] < dfn :: indices[g]
  }

  /** The state without the nodes from `dfn` on. */
  ghost function CutState(s: State, dfn: nat): State
    requires dfn <= |s.nodes|
  {
    s.(nodes := s.nodes[..dfn], indices := Before(s.indices, dfn))
  }

  /** Cutting off finished nodes at the end leaves the rest of the graph in order. */
  lemma CutKeepsStack(p: Program, s: State, dfn: nat)
    requires IndexOk(p, s.nodes, s.indices) && StackOk(p, s) && StrataOk(p, s)
    requires dfn <= |s.nodes| && DoneFrom(s.nodes, dfn)
    ensures var s' := CutState(s, dfn);
            IndexOk(p, s'.nodes, s'.indices) && StackOk(p, s') && StrataOk(p, s')
  {
    forall d | 0 <= d < |s.path|
      ensures s.path[d] < dfn
    {
      assert s.nodes[s.path[d]].stackDepth.Some?;
    }
  }

  lemma CutKeepsGraph(p: Program, s: State, dfn: nat)
    requires WellFormed(p) && GraphOk(p, s) && dfn <= |s.nodes| && DoneFrom(s.nodes, dfn)
    ensures GraphOk(p, CutState(s, dfn))
  {
    hide WellFormed, Truth, Leq, StackOk, StrataOk;
    CutKeepsStack(p, s, dfn);
  }

  /** `cache'` is `cache` with the first `n` of the given nodes added. */
  ghost predicate Drained(nodes: seq<Node>, n: nat, cache: map<Goal, Value>, cache': map<Goal, Value>) {
    && n <= |nodes|
    && (forall g :: g in cache ==> g in cache' && cache'[g] == cache[g])
    && (forall i :: 0 <= i < n ==> nodes[i].goal in cache' && cache'[nodes[i].goal] == nodes[i].solution)
    && (forall g :: g in cache' ==> g in cache || exists i :: 0 <= i < n && nodes[i].goal == g)
  }

  lemma DrainIsFresh(p: Program, s: State, dfn: nat)
    requires IndexOk(p, s.nodes, s.indices) && s.cache.Keys !! s.indices.Keys && dfn <= |s.nodes|
    ensures forall i :: 0 <= i < |s.nodes[dfn..]| ==> s.nodes[dfn..][i].goal !in s.cache
    ensures forall i, j :: 0 <= i < j < |s.nodes[dfn..]| ==> s.nodes[dfn..][i].goal != s.nodes[dfn..][j].goal
  {
  }

  lemma DrainKeepsGraph(p: Program, s: State, dfn: nat, cache': map<Goal, Value>)
    requires WellFormed(p) && GraphOk(p, s) && dfn <= |s.nodes| && DoneFrom(s.nodes, dfn)
    requires forall i :: dfn <= i < |s.nodes| ==> s.nodes[i].solution == Truth(p)[s.nodes[i].goal]
    requires Drained(s.nodes[dfn..], |s.nodes| - dfn, s.cache, cache')
    ensures var s' := CutState(s, dfn).(cache := cache'); GraphOk(p, s') && ContextOf(s') == ContextOf(s)
  {
    hide WellFormed, Truth, Leq, StackOk, StrataOk, NodesCautious, Known, Drained;
    CutKeepsGraph(p, s, dfn);
    DrainedEntries(p, s, dfn, cache');
    DrainedContext(p, s, dfn, cache');
    CachePlaysNoPart(p, CutState(s, dfn), cache');
  }

  lemma CachePlaysNoPart(p: Program, s: State, cache': map<Goal, Value>)
    requires StackOk(p, s) && StrataOk(p, s)
    ensures StackOk(p, s.(cache := cache')) && StrataOk(p, s.(cache := cache'))
  {
  }

  /** The cached goals are those of before and those of the nodes that were drained. */
  lemma DrainedGoal(p: Program, s: State, dfn: nat, cache': map<Goal, Value>, g: Goal)
    requires IndexOk(p, s.nodes, s.indices) && s.cache.Keys !! s.indices.Keys && dfn <= |s.nodes|
    requires Drained(s.nodes[dfn..], |s.nodes| - dfn, s.cache, cache')
    ensures g in cache' <==> g in s.cache || (g in s.indices && dfn <= s.indices[g])
    ensures g in cache' ==> cache'[g] == if g in s.cache then s.cache[g] else s.nodes[s.indices[g]].solution
  {
    var late := s.nodes[dfn..];
    assert forall i :: 0 <= i < |late| ==> late[i] == s.nodes[dfn + i];
    if g in cache' && g !in s.cache {
      var i :| 0 <= i < |late| && late[i].goal == g;
      assert s.nodes[dfn + i].goal == g;
    }
    if g in s.indices && dfn <= s.indices[g] {
      assert late[s.indices[g] - dfn].goal == g;
    }
  }

  lemma DrainedEntries(p: Program, s: State, dfn: nat, cache': map<Goal, Value>)
    requires WellFormed(p) && IndexOk(p, s.nodes, s.indices) && CacheExact(p, s.cache) && s.cache.Keys !! s.indices.Keys
             && dfn <= |s.nodes|
    requires forall i :: dfn <= i < |s.nodes| ==> s.nodes[i].solution == Truth(p)[s.nodes[i].goal]
    requires Drained(s.nodes[dfn..], |s.nodes| - dfn, s.cache, cache')
    ensures CacheExact(p, cache') && cache'.Keys !! Before(s.indices, dfn).Keys
  {
    hide WellFormed, Truth, Drained;
    forall g | g in cache'
      ensures g in p.goals && cache'[g] == Truth(p)[g] && g !in Before(s.indices, dfn)
    {
      DrainedGoal(p, s, dfn, cache', g);
    }
  }

  lemma DrainedContext(p: Program, s: State, dfn: nat, cache': map<Goal, Value>)
    requires IndexOk(p, s.nodes, s.indices) && s.cache.Keys !! s.indices.Keys && dfn <= |s.nodes|
    requires Drained(s.nodes[dfn..], |s.nodes| - dfn, s.cache, cache')
    requires IndexOk(p, s.nodes[..dfn], Before(s.indices, dfn)) && cache'.Keys !! Before(s.indices, dfn).Keys
    ensures ContextOf(CutState(s, dfn).(cache := cache')) == ContextOf(s)
  {
    hide Drained;
    var ctx, ctx' := ContextOf(s), ContextOf(CutState(s, dfn).(cache := cache'));
    forall g
      ensures (g in ctx <==> g in ctx') && (g in ctx ==> ctx[g] == ctx'[g])
    {
      DrainedGoal(p, s, dfn, cache', g);
    }
  }

  /** Every node has an entry in `tau`, and without a cache nothing else has. */
  ghost predicate Records(tau: Context, nodes: seq<Node>, caching: bool) {
    && (forall i :: 0 <= i < |nodes| ==> nodes[i].goal in tau)
    && (!caching ==> forall g :: g in tau ==> exists i :: 0 <= i < |nodes| && nodes[i].goal == g)
  }

  /** Without a cache, cutting the graph back to `dfn` takes us back to the context the search began in. */
  lemma CutRestoresContext(p: Program, s: State, dfn: nat, tau: Context)
    requires WellFormed(p) && dfn <= |s.nodes| && IndexOk(p, s.nodes, s.indices) && s.cache == map[]
    requires IndexOk(p, s.nodes[..dfn], Before(s.indices, dfn))
    requires Extends(p, tau, ContextOf(s)) && Records(tau, s.nodes[..dfn], false)
    ensures ContextOf(CutState(s, dfn)) == tau
  {
    hide WellFormed, Model;
    var ctx := ContextOf(CutState(s, dfn));
    forall g | g in ctx
      ensures g in tau && ctx[g] == tau[g]
    {
      assert s.nodes[..dfn][s.indices[g]].goal == g;
    }
    forall g | g in tau
      ensures g in ctx
    {
      var i :| 0 <= i < dfn && s.nodes[..dfn][i].goal == g;
      assert s.indices[g] == i;
    }
  }

  lemma PopKeepsStack(p: Program, s: State, dfn: nat, links: nat)
    requires StackOk(p, s) && StrataOk(p, s) && TopIs(s, dfn)
    ensures var s' := PopState(s, dfn, s.nodes[dfn].solution, links); StackOk(p, s') && StrataOk(p, s')
  {
    var s' := PopState(s, dfn, s.nodes[dfn].solution, links);
    assert forall d :: 0 <= d < |s'.path| ==>
             s'.path[d] == s.path[d] < dfn && s'.nodes[s'.path[d]] == s.nodes[s.path[d]];
  }

  lemma PopKeepsGraph(p: Program, s: State, dfn: nat, links: nat)
    requires WellFormed(p) && GraphOk(p, s) && TopIs(s, dfn) && DoneFrom(s.nodes, dfn + 1)
    ensures var s' := PopState(s, dfn, s.nodes[dfn].solution, links);
            GraphOk(p, s') && ContextOf(s') == ContextOf(s) && DoneFrom(s'.nodes, dfn)
  {
    hide WellFormed, Truth, Leq, Known, IndexOk, StackOk, StrataOk;
    PopKeepsStack(p, s, dfn, links);
    KnownAfterUpdate(p, s.cache, s.nodes, s.indices, dfn, Node(s.nodes[dfn].goal, s.nodes[dfn].solution, None, links));
  }

  // ----- The number of goals bounds everything -----

  ghost function GoalsOf(p: Program, nodes: seq<Node>, indices: map<Goal, nat>, path: seq<nat>,
                         n: nat): (goals: set<Goal>)
    requires IndexOk(p, nodes, indices) && n <= |path|
    requires forall d :: 0 <= d < |path| ==> path[d] < |nodes|
    requires forall d, e :: 0 <= d < e < |path| ==> path[d] < path[e]
    ensures |goals| == n
    ensures forall g :: g in goals ==> g in p.goals && g in indices && exists d :: 0 <= d < n && indices[g] == path[d]
  {
    if n == 0 then {} else
      GoalsOf(p, nodes, indices, path, n - 1) + {nodes[path[n - 1]].goal}
  }

  /** Distinct goals on the stack: it never gets deeper than the number of goals. */
  lemma PathIsShort(p: Program, s: State)
    requires IndexOk(p, s.nodes, s.indices) && StackOk(p, s)
    ensures |s.path| <= |p.goals|
    ensures forall g :: g in p.goals && g !in s.indices ==> |s.path| < |p.goals|
  {
    var goals := GoalsOf(p, s.nodes, s.indices, s.path, |s.path|);
    SubsetSize(goals, p.goals);
    forall g | g in p.goals && g !in s.indices
      ensures |s.path| < |p.goals|
    {
      SubsetSize(goals, p.goals - {g});
    }
  }

  lemma NodesAreFew(p: Program, nodes: seq<Node>, indices: map<Goal, nat>)
    requires IndexOk(p, nodes, indices)
    ensures |nodes| <= |p.goals|
  {
    var all := seq(|nodes|, i => i);
    SubsetSize(GoalsOf(p, nodes, indices, all, |nodes|), p.goals);
  }
}
