/**
  Propositional Horn programs as an instance of the recursive solver: two values, clauses
  tried in order, conditions proved last one first.  Inductive and coinductive goals may
  occur together as long as no cycle mixes them, which strata make precise.
 */
module HornModels {
  import opened Prelude
  import opened FixedPoints
  import opened SearchRounds
  import opened RecursiveSolver

  /**
    `clauses[g]` lists the bodies of the clauses whose head is `g`; no goal has more than `questions` conditions in all.
   */
  datatype Horn = Horn(clauses: map<Goal, seq<seq<Goal>>>, coinductive: Goal -> bool, stratum: Goal -> nat,
    questions: nat)

  function Conditions(clauses: seq<seq<Goal>>): nat {
    if clauses == [] then 0 else |clauses[0]| + Conditions(clauses[1..])
  }

  /** All conditions are known goals of the same or a lower stratum, and strata are uniform. */
  ghost predicate Stratified(h: Horn) {
    && (forall g, i, k :: g in h.clauses && 0 <= i < |h.clauses[g]| && 0 <= k < |h.clauses[g][i]| ==>
          h.clauses[g][i][k] in h.clauses && h.stratum(h.clauses[g][i][k]) <= h.stratum(g))
    && (forall g, q :: g in h.clauses && q in h.clauses && h.stratum(g) == h.stratum(q) ==>
         h.coinductive(g) == h.coinductive(q))
    && (forall g :: g in h.clauses ==> Conditions(h.clauses[g]) <= h.questions)
  }

  // ----- Their meaning -----

  ghost predicate AllIn(body: seq<Goal>, world: set<Goal>) {
    forall k :: 0 <= k < |body| ==> body[k] in world
  }

  /** Some clause has a body that is true in `world`. */
  ghost predicate Fires(clauses: seq<seq<Goal>>, world: set<Goal>) {
    exists i :: 0 <= i < |clauses| && AllIn(clauses[i], world)
  }

  ghost predicate AgreeBelow(h: Horn, k: nat, world: set<Goal>, world': set<Goal>) {
    forall g :: g in h.clauses && h.stratum(g) < k ==> (g in world <==> g in world')
  }

  ghost predicate ClosedAt(h: Horn, k: nat, world: set<Goal>) {
    forall g :: g in h.clauses && h.stratum(g) == k && Fires(h.clauses[g], world) ==> g in world
  }

  ghost predicate SupportedAt(h: Horn, k: nat, world: set<Goal>) {
    forall g :: g in h.clauses && h.stratum(g) == k && g in world ==> Fires(h.clauses[g], world)
  }

  /**
    An inductive goal is in the least closed extension of the lower strata, a coinductive one in the greatest supported
    one.
   */
  ghost predicate StratifiedModel(h: Horn, model: set<Goal>) {
    && model <= h.clauses.Keys
    && (forall g :: g in h.clauses && !h.coinductive(g) ==>
          (g in model <==>
             forall world: set<Goal> ::
               AgreeBelow(h, h.stratum(g), model, world) && ClosedAt(h, h.stratum(g), world) ==> g in world))
    && (forall g :: g in h.clauses && h.coinductive(g) ==>
          (g in model <==>
             exists world: set<Goal> ::
               AgreeBelow(h, h.stratum(g), model, world) && SupportedAt(h, h.stratum(g), world) && g in world))
  }

  // ----- One iteration -----

  /** Goes through the remaining clauses with the answers to come. */
  function RunClauses(clauses: seq<seq<Goal>>, answers: seq<Value>, found: bool, yes: Value, no: Value): Request
    decreases clauses, 1, 0
  {
    if clauses == [] then Done(if found then yes else no) else
      RunBody(clauses[0], clauses[1..], answers, found, yes, no)
  }

  /** Proves the remaining conditions of a clause, last one first, and gives up at the first failure. */
  function RunBody(body: seq<Goal>, rest: seq<seq<Goal>>, answers: seq<Value>, found: bool, yes: Value,
                   no: Value): Request
    decreases rest, 2, body
  {
    if body == [] then RunClauses(rest, answers, true, yes, no)
    else if answers == [] then Ask(body[|body| - 1])
    else if answers[0] == yes then RunBody(body[..|body| - 1], rest, answers[1..], found, yes, no)
    else RunClauses(rest, answers[1..], found, yes, no)
  }

  function HornProgram(h: Horn, yes: Value, no: Value): Program {
    Program(
      h.clauses.Keys,
      h.stratum,
      h.coinductive,
      (g, answers) => if g in h.clauses then RunClauses(h.clauses[g], answers, false, yes, no) else Done(no),
      h.questions,
      (kind, a, b) => a == b || a == (if kind then yes else no),
      kind => if kind then yes else no,
      (kind, a) => if a == (if kind then yes else no) then 0 else 1,
      1,
      v => false)
  }

  ghost function TrueIn(w: World, yes: Value): set<Goal> {
    set g | g in w && w[g] == yes
  }

  // ----- An iteration decides whether a clause fires -----

  ghost predicate Occurs(clauses: seq<seq<Goal>>, q: Goal) {
    exists i, k :: 0 <= i < |clauses| && 0 <= k < |clauses[i]| && clauses[i][k] == q
  }

  lemma {:induction false} ClausesAsk(clauses: seq<seq<Goal>>, answers: seq<Value>, found: bool, yes: Value, no: Value)
    requires RunClauses(clauses, answers, found, yes, no).Ask?
    ensures |answers| < Conditions(clauses) && Occurs(clauses, RunClauses(clauses, answers, found, yes, no).goal)
    decreases clauses, 1, 0
  {
    BodyAsks(clauses[0], clauses[1..], answers, found, yes, no);
    assert clauses == [clauses[0]] + clauses[1..];
  }

  lemma {:induction false} BodyAsks(body: seq<Goal>, rest: seq<seq<Goal>>, answers: seq<Value>, found: bool, yes: Value,
                                    no: Value)
    requires RunBody(body, rest, answers, found, yes, no).Ask?
    ensures |answers| < |body| + Conditions(rest)
            && Occurs([body] + rest, RunBody(body, rest, answers, found, yes, no).goal)
    decreases rest, 2, body
  {
    var all := [body] + rest;
    assert forall i :: 0 <= i < |rest| ==> all[i + 1] == rest[i];
    if body == [] {
      ClausesAsk(rest, answers, true, yes, no);
    } else if answers == [] {
      assert all[0][|body| - 1] == body[|body| - 1];
    } else if answers[0] == yes {
      var shorter := body[..|body| - 1];
      BodyAsks(shorter, rest, answers[1..], found, yes, no);
      var q := RunBody(shorter, rest, answers[1..], found, yes, no).goal;
      var i, k :| 0 <= i < |[shorter] + rest| && 0 <= k < |([shorter] + rest)[i]| && ([shorter] + rest)[i][k] == q;
      assert all[i][k] == q;
    } else {
      ClausesAsk(rest, answers[1..], found, yes, no);
    }
  }

  /** After the given answers an iteration for `g` is about to go through `clauses`. */
  ghost predicate Pending(h: Horn, yes: Value, no: Value, g: Goal, answers: seq<Value>, clauses: seq<seq<Goal>>,
                          found: bool) {
    && g in h.clauses
    && |answers| + Conditions(clauses) <= h.questions
    && (forall i, k :: 0 <= i < |clauses| && 0 <= k < |clauses[i]| ==> clauses[i][k] in h.clauses)
    && (forall more :: RunClauses(h.clauses[g], answers + more, false, yes, no) ==
         RunClauses(clauses, more, found, yes, no))
  }

  ghost predicate PendingBody(h: Horn, yes: Value, no: Value, g: Goal, answers: seq<Value>, body: seq<Goal>,
                              rest: seq<seq<Goal>>, found: bool) {
    && g in h.clauses
    && |answers| + |body| + Conditions(rest) <= h.questions
    && (forall k :: 0 <= k < |body| ==> body[k] in h.clauses)
    && (forall i, k :: 0 <= i < |rest| && 0 <= k < |rest[i]| ==> rest[i][k] in h.clauses)
    && (forall more :: RunClauses(h.clauses[g], answers + more, false, yes, no) ==
         RunBody(body, rest, more, found, yes, no))
  }

  lemma {:induction false} ClausesDecide(h: Horn, yes: Value, no: Value, g: Goal, answers: seq<Value>,
                                         clauses: seq<seq<Goal>>, found: bool, w: World)
    requires Pending(h, yes, no, g, answers, clauses, found) && w.Keys == h.clauses.Keys
    ensures Eval(HornProgram(h, yes, no), g, answers, w) == if found || Fires(clauses, TrueIn(w, yes)) then yes else no
    decreases clauses, 1, 0
  {
    assert answers + [] == answers;
    if clauses != [] {
      var body, rest := clauses[0], clauses[1..];
      assert PendingBody(h, yes, no, g, answers, body, rest, found);
      BodyDecides(h, yes, no, g, answers, body, rest, found, w);
      FiresFirst(clauses, TrueIn(w, yes));
    }
  }

  lemma FiresFirst(clauses: seq<seq<Goal>>, world: set<Goal>)
    requires clauses != []
    ensures Fires(clauses, world) <==> AllIn(clauses[0], world) || Fires(clauses[1..], world)
  {
    if Fires(clauses, world) && !AllIn(clauses[0], world) {
      var i :| 0 <= i < |clauses| && AllIn(clauses[i], world);
      assert clauses[1..][i - 1] == clauses[i];
    }
    if Fires(clauses[1..], world) {
      var i :| 0 <= i < |clauses[1..]| && AllIn(clauses[1..][i], world);
      assert clauses[i + 1] == clauses[1..][i];
    }
  }

  lemma {:induction false} BodyDecides(h: Horn, yes: Value, no: Value, g: Goal, answers: seq<Value>, body: seq<Goal>,
                                       rest: seq<seq<Goal>>, found: bool, w: World)
    requires PendingBody(h, yes, no, g, answers, body, rest, found) && w.Keys == h.clauses.Keys
    ensures Eval(HornProgram(h, yes, no), g, answers, w) ==
            if found || AllIn(body, TrueIn(w, yes)) || Fires(rest, TrueIn(w, yes)) then yes else no
    decreases rest, 2, body
  {
    assert answers + [] == answers;
    if body == [] {
      ClausesDecide(h, yes, no, g, answers, rest, true, w);
    } else {
      var q := body[|body| - 1];
      var answers', shorter := answers + [w[q]], body[..|body| - 1];
      assert Eval(HornProgram(h, yes, no), g, answers, w) == Eval(HornProgram(h, yes, no), g, answers', w);
      forall more: seq<Value>
        ensures RunClauses(h.clauses[g], answers' + more, false, yes, no) ==
                if w[q] == yes then RunBody(shorter, rest, more, found, yes, no)
                  else RunClauses(rest, more, found, yes, no)
      {
        assert answers' + more == answers + ([w[q]] + more);
        assert ([w[q]] + more)[1..] == more;
      }
      if w[q] == yes {
        BodyDecides(h, yes, no, g, answers', shorter, rest, found, w);
        assert AllIn(body, TrueIn(w, yes)) <==> AllIn(shorter, TrueIn(w, yes));
      } else {
        ClausesDecide(h, yes, no, g, answers', rest, found, w);
        assert body[|body| - 1] !in TrueIn(w, yes);
      }
    }
  }

  /** An iteration of the solver computes the consequence operator of the program. */
  lemma StepIsConsequence(h: Horn, yes: Value, no: Value, w: World, g: Goal)
    requires Stratified(h) && g in h.clauses && w.Keys == h.clauses.Keys
    ensures Step(HornProgram(h, yes, no), w, g) == if Fires(h.clauses[g], TrueIn(w, yes)) then yes else no
  {
    assert forall more: seq<Value> :: [] + more == more;
    ClausesDecide(h, yes, no, g, [], h.clauses[g], false, w);
  }

  // ----- Horn programs are well-formed -----

  lemma FiresMonotone(clauses: seq<seq<Goal>>, world: set<Goal>, world': set<Goal>)
    requires Fires(clauses, world)
    requires forall i, k :: 0 <= i < |clauses| && 0 <= k < |clauses[i]| && clauses[i][k] in world ==>
               clauses[i][k] in world'
    ensures Fires(clauses, world')
  {
    var i :| 0 <= i < |clauses| && AllIn(clauses[i], world);
    assert AllIn(clauses[i], world');
  }

  lemma HornMonotone(h: Horn, yes: Value, no: Value, g: Goal, w: World, w': World)
    requires Stratified(h) && yes != no && g in h.clauses && w.Keys == h.clauses.Keys && w'.Keys == h.clauses.Keys
    requires Under(HornProgram(h, yes, no), h.stratum(g), w, w')
    ensures Leq(HornProgram(h, yes, no), g, Step(HornProgram(h, yes, no), w, g), Step(HornProgram(h, yes, no), w', g))
  {
    StepIsConsequence(h, yes, no, w, g);
    StepIsConsequence(h, yes, no, w', g);
    var clauses, t, t' := h.clauses[g], TrueIn(w, yes), TrueIn(w', yes);
    if h.coinductive(g) {
      if Fires(clauses, t') {
        FiresMonotone(clauses, t', t);
      }
    } else if Fires(clauses, t) {
      FiresMonotone(clauses, t, t');
    }
  }

  lemma HornIsWellFormed(h: Horn, yes: Value, no: Value)
    requires Stratified(h) && yes != no
    ensures WellFormed(HornProgram(h, yes, no)) && Uniform(HornProgram(h, yes, no)) && Decisive(HornProgram(h, yes, no))
  {
    hide Step, Truth;
    var p := HornProgram(h, yes, no);
    forall g, answers | g in p.goals && p.request(g, answers).Ask?
      ensures |answers| < p.questions && p.request(g, answers).goal in p.goals
              && p.stratum(p.request(g, answers).goal) <= p.stratum(g)
    {
      ClausesAsk(h.clauses[g], answers, false, yes, no);
    }
    forall g, w, w' | g in p.goals && IsWorld(p, w) && IsWorld(p, w') && Under(p, p.stratum(g), w, w')
      ensures Leq(p, g, Step(p, w, g), Step(p, w', g))
    {
      HornMonotone(h, yes, no, g, w, w');
    }
    assert Ordered(p, true) && Ordered(p, false);
    assert AsksKnown(p);
    assert Monotone(p);
  }

  // ----- The solver's values are the stratified model -----

  /** Whether a clause for `g` fires depends only on goals of the same or a lower stratum. */
  lemma FiresLocal(h: Horn, g: Goal, world: set<Goal>, world': set<Goal>)
    requires Stratified(h) && g in h.clauses
    requires forall q :: q in h.clauses && h.stratum(q) <= h.stratum(g) ==> (q in world <==> q in world')
    ensures Fires(h.clauses[g], world) <==> Fires(h.clauses[g], world')
  {
    if Fires(h.clauses[g], world) {
      FiresMonotone(h.clauses[g], world, world');
    }
    if Fires(h.clauses[g], world') {
      FiresMonotone(h.clauses[g], world', world);
    }
  }

  ghost function TrueGoals(h: Horn, yes: Value, no: Value): set<Goal>
    requires WellFormed(HornProgram(h, yes, no))
  {
    TrueIn(Truth(HornProgram(h, yes, no)), yes)
  }

  lemma TruthIsConsequence(h: Horn, yes: Value, no: Value, g: Goal)
    requires Stratified(h) && WellFormed(HornProgram(h, yes, no)) && g in h.clauses
    ensures Truth(HornProgram(h, yes, no))[g] == if Fires(h.clauses[g], TrueGoals(h, yes, no)) then yes else no
  {
    hide WellFormed, Truth, Step, IsLeast;
    var p := HornProgram(h, yes, no);
    TruthIsLeast(p, h.stratum(g));
    LeastElsewhere(p, h.stratum(g), Truth(p), map[], Truth(p), g);
    StepIsConsequence(h, yes, no, Truth(p), g);
  }

  /** The values of the lower strata, and in stratum `k` those of the given set. */
  ghost function AsWorld(h: Horn, yes: Value, no: Value, k: nat, world: set<Goal>): (w: World)
    requires WellFormed(HornProgram(h, yes, no))
    ensures w.Keys == h.clauses.Keys
  {
    map q | q in h.clauses :: if h.stratum(q) == k then (if q in world then yes else no)
      else Truth(HornProgram(h, yes, no))[q]
  }

  /** A set that is closed (or supported) in a stratum bounds the true values there. */
  lemma BoundedByWorld(h: Horn, yes: Value, no: Value, g: Goal, world: set<Goal>)
    requires Stratified(h) && yes != no && WellFormed(HornProgram(h, yes, no)) && g in h.clauses
    requires AgreeBelow(h, h.stratum(g), TrueGoals(h, yes, no), world)
    requires if h.coinductive(g) then SupportedAt(h, h.stratum(g), world) else ClosedAt(h, h.stratum(g), world)
    ensures if h.coinductive(g)
            then g in world ==> g in TrueGoals(h, yes, no) else g in TrueGoals(h, yes, no) ==> g in world
  {
    hide WellFormed, Step;
    var p, k := HornProgram(h, yes, no), h.stratum(g);
    var w := AsWorld(h, yes, no, k, world);
    forall q | q in p.goals && p.stratum(q) == k
      ensures Leq(p, q, Next(p, map[], w, q), w[q])
    {
      AsWorldAgrees(h, yes, no, k, world, q);
      StepIsConsequence(h, yes, no, w, q);
    }
    TruthBelow(p, k, w, g);
  }

  lemma AsWorldAgrees(h: Horn, yes: Value, no: Value, k: nat, world: set<Goal>, q: Goal)
    requires Stratified(h) && yes != no && WellFormed(HornProgram(h, yes, no)) && q in h.clauses && h.stratum(q) == k
    requires AgreeBelow(h, k, TrueGoals(h, yes, no), world)
    ensures Fires(h.clauses[q], TrueIn(AsWorld(h, yes, no, k, world), yes)) <==> Fires(h.clauses[q], world)
  {
    hide WellFormed, Truth, Fires;
    FiresLocal(h, q, TrueIn(AsWorld(h, yes, no, k, world), yes), world);
  }

  lemma TruthBelow(p: Program, k: nat, w: World, g: Goal)
    requires WellFormed(p) && IsWorld(p, w) && g in p.goals && p.stratum(g) == k
    requires forall q :: q in p.goals && p.stratum(q) < k ==> w[q] == Truth(p)[q]
    requires forall q :: q in p.goals && p.stratum(q) == k ==> Leq(p, q, Next(p, map[], w, q), w[q])
    ensures Leq(p, g, Truth(p)[g], w[g])
  {
    hide WellFormed, Truth, Leq, Next, Model;
    NothingAssumed(p);
    ModelIsLeast(p, map[], k, w, g);
  }

  /** The goals the solver finds true form the stratified model. */
  lemma TruthIsStratifiedModel(h: Horn, yes: Value, no: Value)
    requires Stratified(h) && yes != no && WellFormed(HornProgram(h, yes, no))
    ensures StratifiedModel(h, TrueGoals(h, yes, no))
  {
    hide WellFormed, Truth, Fires, Stratified;
    var model := TrueGoals(h, yes, no);
    forall g | g in h.clauses
      ensures g in model <==> Fires(h.clauses[g], model)
    {
      TruthIsConsequence(h, yes, no, g);
    }
    forall g, world: set<Goal> | g in h.clauses && AgreeBelow(h, h.stratum(g), model, world)
      ensures !h.coinductive(g) && g in model && ClosedAt(h, h.stratum(g), world) ==> g in world
      ensures h.coinductive(g) && g in world && SupportedAt(h, h.stratum(g), world) ==> g in model
    {
      if if h.coinductive(g) then SupportedAt(h, h.stratum(g), world) else ClosedAt(h, h.stratum(g), world) {
        BoundedByWorld(h, yes, no, g, world);
      }
    }
    forall g | g in h.clauses
      ensures AgreeBelow(h, h.stratum(g), model, model) && ClosedAt(h, h.stratum(g), model)
              && SupportedAt(h, h.stratum(g), model)
    {
    }
  }

  lemma {:induction false} ModelsAgree(h: Horn, model: set<Goal>, model': set<Goal>, k: nat)
    requires StratifiedModel(h, model) && StratifiedModel(h, model')
    ensures AgreeBelow(h, k, model, model')
  {
    if k > 0 {
      ModelsAgree(h, model, model', k - 1);
      var below := k - 1;
      assert forall world: set<Goal> :: AgreeBelow(h, below, model, world) ==> AgreeBelow(h, below, model', world);
      assert forall world: set<Goal> :: AgreeBelow(h, below, model', world) ==> AgreeBelow(h, below, model, world);
    }
  }

  /** There is only one stratified model. */
  lemma StratifiedModelIsUnique(h: Horn, model: set<Goal>, model': set<Goal>)
    requires StratifiedModel(h, model) && StratifiedModel(h, model')
    ensures model == model'
  {
    hide StratifiedModel;
    forall g | g in h.clauses
      ensures g in model <==> g in model'
    {
      ModelsAgree(h, model, model', h.stratum(g) + 1);
    }
    ModelIsKnown(h, model);
    ModelIsKnown(h, model');
  }

  lemma ModelIsKnown(h: Horn, model: set<Goal>)
    requires StratifiedModel(h, model)
    ensures model <= h.clauses.Keys
  {
  }

  /** The recursive solver decides membership in the stratified model; `None` stands for the overflow panic. */
  method SolveHorn(h: Horn, goal: Goal, yes: Value, no: Value, overflowDepth: nat, caching: bool,
                   ghost model: set<Goal>)
    returns (holds: Option<bool>)
    requires Stratified(h) && yes != no && goal in h.clauses && |h.clauses.Keys| <= MAX_DFN && StratifiedModel(h, model)
    ensures holds.Some? ==> (holds.value <==> goal in model)
    ensures |h.clauses.Keys| <= overflowDepth ==> holds.Some?
  {
    hide WellFormed, Uniform, Decisive, Stratified, StratifiedModel, Truth, LastRound, StoppedAt, MixedFrom;
    HornIsWellFormed(h, yes, no);
    TruthIsStratifiedModel(h, yes, no);
    StratifiedModelIsUnique(h, model, TrueGoals(h, yes, no));
    var p := HornProgram(h, yes, no);
    var solver := new RecursiveContext(p, overflowDepth, caching);
    ghost var cached := Entries(solver.cache);
    var r := solver.SolveRootGoal(goal);
    if r.Answer? {
      return Some(r.value == yes);
    }
    OnlyOverflow(p, overflowDepth, solver.Snap(), r.why, 0, cached);
    holds := None;
  }
}
