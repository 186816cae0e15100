/**
  Goals that are solved by asking for the values of other goals, and what their values
  are: least fixed points of monotone steps, stratum by stratum.

  Values form a partial order of finite height for inductive goals and another one for
  coinductive goals.  The value a search starts from is the least one in its order.
 */
module FixedPoints {
  type Goal(==, !new)
  type Value(==, !new)

  /** What solving a goal does next: ask for the value of another goal, or be done. */
  datatype Request = Ask(goal: Goal) | Done(value: Value)

  /**
    `request(g, answers)` is what one iteration for goal `g` does after it has been given `answers`.
    Goals in the same stratum may depend on each other; a goal never asks for one of a higher stratum.
   */
  datatype Program = Program(
    goals: set<Goal>,
    stratum: Goal -> nat,
    coinductive: Goal -> bool,
    request: (Goal, seq<Value>) -> Request,
    questions: nat,                               // no iteration asks more often
    leq: (bool, Value, Value) -> bool,            // the order for coinductive (true) and inductive (false) goals
    initial: bool -> Value,
    rank: (bool, Value) -> nat,
    height: nat,
    settled: Value -> bool)                       // values at which the loop stops without another round

  type World = map<Goal, Value>

  // ----- One iteration -----

  /** The outcome of an iteration for `g` that has been given `answers`, if all other goals have their values in `w`. */
  ghost function Eval(p: Program, g: Goal, answers: seq<Value>, w: World): Value
    decreases p.questions - |answers|
  {
    match p.request(g, answers)
    case Done(v) => v
    case Ask(q) => if |answers| < p.questions && q in w then Eval(p, g, answers + [w[q]], w)
      else p.initial(p.coinductive(g))
  }

  ghost function Step(p: Program, w: World, g: Goal): Value {
    Eval(p, g, [], w)
  }

  ghost predicate Leq(p: Program, g: Goal, a: Value, b: Value) {
    p.leq(p.coinductive(g), a, b)
  }

  ghost function Initial(p: Program, g: Goal): Value {
    p.initial(p.coinductive(g))
  }

  ghost predicate IsWorld(p: Program, w: World) {
    w.Keys == p.goals
  }

  /** The worlds agree below stratum `k`, and in stratum `k` the values of `w` are at most those of `w'`. */
  ghost predicate Under(p: Program, k: nat, w: World, w': World)
    requires IsWorld(p, w) && IsWorld(p, w')
  {
    forall g :: g in p.goals ==>
                  && (p.stratum(g) < k ==> w[g] == w'[g])
                  && (p.stratum(g) == k ==> Leq(p, g, w[g], w'[g]))
  }

  // ----- Well-formed programs -----

  /** A partial order with a least element, in which strictly rising sequences are short. */
  ghost predicate Ordered(p: Program, kind: bool) {
    && (forall a :: p.leq(kind, a, a))
    && (forall a, b :: p.leq(kind, a, b) && p.leq(kind, b, a) ==> a == b)
    && (forall a, b, c :: p.leq(kind, a, b) && p.leq(kind, b, c) ==> p.leq(kind, a, c))
    && (forall a :: p.leq(kind, p.initial(kind), a))
    && (forall a, b :: p.leq(kind, a, b) && a != b ==> p.rank(kind, a) < p.rank(kind, b))
    && (forall a :: p.rank(kind, a) <= p.height)
  }

  /** Settled values cannot rise at all. */
  ghost predicate SettledIsTop(p: Program, kind: bool) {
    forall a, b :: p.settled(a) && p.leq(kind, a, b) ==> a == b
  }

  /** Settled values can only rise to settled ones. */
  ghost predicate SettledIsUpward(p: Program, kind: bool) {
    forall a, b :: p.settled(a) && p.leq(kind, a, b) ==> p.settled(b)
  }

  /** Iterations are finite and ask only for known goals of the same or a lower stratum. */
  ghost predicate AsksKnown(p: Program) {
    forall g, answers :: g in p.goals && p.request(g, answers).Ask? ==>
                           && |answers| < p.questions
                           && p.request(g, answers).goal in p.goals
                           && p.stratum(p.request(g, answers).goal) <= p.stratum(g)
  }

  /** Within a stratum, higher answers lead to higher outcomes. */
  ghost predicate Monotone(p: Program) {
    forall g, w, w' :: g in p.goals && IsWorld(p, w) && IsWorld(p, w') && Under(p, p.stratum(g), w, w') ==>
                         Leq(p, g, Step(p, w, g), Step(p, w', g))
  }

  ghost predicate WellFormed(p: Program) {
    && Ordered(p, false)
    && Ordered(p, true)
    && AsksKnown(p)
    && Monotone(p)
  }

  /** No stratum, and so no cycle, has goals of both kinds. */
  ghost predicate Uniform(p: Program) {
    forall g, h :: g in p.goals && h in p.goals && p.stratum(g) == p.stratum(h) ==>
                     p.coinductive(g) == p.coinductive(h)
  }

  lemma LeqReflexive(p: Program, g: Goal, a: Value)
    requires WellFormed(p)
    ensures Leq(p, g, a, a)
  {
    assert Ordered(p, p.coinductive(g));
  }

  lemma LeqTransitive(p: Program, g: Goal, a: Value, b: Value, c: Value)
    requires WellFormed(p) && Leq(p, g, a, b) && Leq(p, g, b, c)
    ensures Leq(p, g, a, c)
  {
    assert Ordered(p, p.coinductive(g));
  }

  lemma LeqAntisymmetric(p: Program, g: Goal, a: Value, b: Value)
    requires WellFormed(p) && Leq(p, g, a, b) && Leq(p, g, b, a)
    ensures a == b
  {
    assert Ordered(p, p.coinductive(g));
  }

  lemma LeqInitial(p: Program, g: Goal, a: Value)
    requires WellFormed(p)
    ensures Leq(p, g, Initial(p, g), a)
  {
    assert Ordered(p, p.coinductive(g));
  }

  /** A strict rise leaves fewer rises. */
  lemma RankRises(p: Program, g: Goal, a: Value, b: Value)
    requires WellFormed(p) && Leq(p, g, a, b) && a != b
    ensures p.rank(p.coinductive(g), a) < p.rank(p.coinductive(g), b) <= p.height
  {
    assert Ordered(p, p.coinductive(g));
  }

  lemma StepMonotone(p: Program, w: World, w': World, g: Goal)
    requires WellFormed(p) && g in p.goals && IsWorld(p, w) && IsWorld(p, w') && Under(p, p.stratum(g), w, w')
    ensures Leq(p, g, Step(p, w, g), Step(p, w', g))
  {
    hide Step, Ordered, AsksKnown;
  }

  /** An iteration does not depend on the values in higher strata. */
  lemma StepLocal(p: Program, w: World, w': World, g: Goal)
    requires WellFormed(p) && g in p.goals && IsWorld(p, w) && IsWorld(p, w')
    requires forall q :: q in p.goals && p.stratum(q) <= p.stratum(g) ==> w[q] == w'[q]
    ensures Step(p, w, g) == Step(p, w', g)
  {
    hide Step, WellFormed, Leq;
    forall q | q in p.goals
      ensures Leq(p, q, w[q], w[q]) && Leq(p, q, w'[q], w'[q])
    {
      LeqReflexive(p, q, w[q]);
      LeqReflexive(p, q, w'[q]);
    }
    StepMonotone(p, w, w', g);
    StepMonotone(p, w', w, g);
    LeqAntisymmetric(p, g, Step(p, w, g), Step(p, w', g));
  }

  // ----- Models of one stratum -----

  /** Values that are assumed for the moment, or already settled. */
  type Context = map<Goal, Value>

  /** The value of `g` in the next world: assumed values stand for themselves. */
  ghost function Next(p: Program, tau: Context, w: World, g: Goal): Value {
    if g in tau then tau[g] else Step(p, w, g)
  }

  /** In stratum `k` the world does not fall short of what follows from it, with everything below as in `base`. */
  ghost predicate PreFixed(p: Program, k: nat, base: World, tau: Context, w: World)
    requires IsWorld(p, base)
  {
    && IsWorld(p, w)
    && forall g :: g in p.goals ==>
                     && (p.stratum(g) < k ==> w[g] == base[g])
                     && (p.stratum(g) == k ==> Leq(p, g, Next(p, tau, w, g), w[g]))
  }

  /** `m` is the least fixed point in stratum `k`, and equal to `base` elsewhere. */
  ghost predicate IsLeast(p: Program, k: nat, base: World, tau: Context, m: World)
    requires IsWorld(p, base)
  {
    && IsWorld(p, m)
    && (forall g :: g in p.goals ==> m[g] == if p.stratum(g) == k then Next(p, tau, m, g) else base[g])
    && (forall w :: PreFixed(p, k, base, tau, w) ==> Below(p, k, m, w))
  }

  ghost predicate Below(p: Program, k: nat, w: World, w': World)
    requires IsWorld(p, w) && IsWorld(p, w')
  {
    forall g :: g in p.goals && p.stratum(g) == k ==> Leq(p, g, w[g], w'[g])
  }

  /** Worlds that agree with `base` below a stratum are compared there. */
  lemma BelowIsUnder(p: Program, k: nat, w: World, w': World)
    requires IsWorld(p, w) && IsWorld(p, w') && Below(p, k, w, w')
    requires forall g :: g in p.goals && p.stratum(g) < k ==> w[g] == w'[g]
    ensures Under(p, k, w, w')
  {
  }

  ghost predicate Open(p: Program, k: nat, tau: Context, g: Goal) {
    g in p.goals && p.stratum(g) == k && g !in tau
  }

  ghost function OpenGoals(p: Program, k: nat, tau: Context): set<Goal> {
    set g | g in p.goals && Open(p, k, tau, g)
  }

  lemma AssumeOne(p: Program, k: nat, tau: Context, s: Goal, b: Value)
    requires Open(p, k, tau, s)
    ensures |OpenGoals(p, k, tau[s := b])| < |OpenGoals(p, k, tau)|
  {
    assert OpenGoals(p, k, tau[s := b]) == OpenGoals(p, k, tau) - {s};
  }

  /** With every goal of the stratum assumed there is nothing to compute. */
  lemma LeastIfAllAssumed(p: Program, k: nat, base: World, tau: Context)
    requires WellFormed(p) && IsWorld(p, base) && OpenGoals(p, k, tau) == {}
    ensures exists m :: IsLeast(p, k, base, tau, m)
  {
    hide WellFormed, Step;
    var m := map g | g in p.goals :: if p.stratum(g) == k && g in tau then tau[g] else base[g];
    forall g | g in p.goals && p.stratum(g) == k
      ensures g in tau
    {
      assert g !in OpenGoals(p, k, tau);
    }
    assert IsLeast(p, k, base, tau, m);
  }

  /**
    What is least under the assumption that `s` has value `b` is below everything closed in which `s` has at least that
    value.
   */
  lemma AssumedPreFixed(p: Program, k: nat, base: World, tau: Context, s: Goal, b: Value, w: World)
    requires IsWorld(p, base) && PreFixed(p, k, base, tau, w) && Open(p, k, tau, s) && Leq(p, s, b, w[s])
    ensures PreFixed(p, k, base, tau[s := b], w)
  {
  }

  /** Raising the assumed value of `s` to what follows from it, as long as that changes anything. */
  lemma {:induction false} LeastByRising(p: Program, k: nat, base: World, tau: Context, s: Goal, b: Value)
    requires WellFormed(p) && IsWorld(p, base) && Open(p, k, tau, s)
    requires forall w :: PreFixed(p, k, base, tau, w) ==> Leq(p, s, b, w[s])
    requires forall m :: IsLeast(p, k, base, tau[s := b], m) ==> Leq(p, s, b, Step(p, m, s))
    ensures exists m :: IsLeast(p, k, base, tau, m)
    decreases |OpenGoals(p, k, tau)|, 0, p.height - p.rank(p.coinductive(s), b)
  {
    hide WellFormed, Step, IsLeast;
    AssumeOne(p, k, tau, s, b);
    LeastExists(p, k, base, tau[s := b]);
    var m :| IsLeast(p, k, base, tau[s := b], m);
    LeastIsWorld(p, k, base, tau[s := b], m);
    var b' := Step(p, m, s);
    if b' == b {
      RisingEnds(p, k, base, tau, s, b, m);
    } else {
      RankRises(p, s, b, b');
      forall w | PreFixed(p, k, base, tau, w)
        ensures Leq(p, s, b', w[s])
      {
        RisingStaysBelow(p, k, base, tau, s, b, m, w);
      }
      forall m' | IsLeast(p, k, base, tau[s := b'], m')
        ensures Leq(p, s, b', Step(p, m', s))
      {
        RisingRises(p, k, base, tau, s, b, m, b', m');
      }
      LeastByRising(p, k, base, tau, s, b');
    }
  }

  lemma {:induction false} LeastExists(p: Program, k: nat, base: World, tau: Context)
    requires WellFormed(p) && IsWorld(p, base)
    ensures exists m :: IsLeast(p, k, base, tau, m)
    decreases |OpenGoals(p, k, tau)|, 1, 0
  {
    hide WellFormed, Step, IsLeast;
    if s :| s in OpenGoals(p, k, tau) {
      var b := Initial(p, s);
      forall w | PreFixed(p, k, base, tau, w)
        ensures Leq(p, s, b, w[s])
      {
        LeqInitial(p, s, w[s]);
      }
      forall m | IsLeast(p, k, base, tau[s := b], m)
        ensures Leq(p, s, b, Step(p, m, s))
      {
        LeqInitial(p, s, Step(p, m, s));
      }
      LeastByRising(p, k, base, tau, s, b);
    } else {
      LeastIfAllAssumed(p, k, base, tau);
    }
  }

  lemma LeastIsWorld(p: Program, k: nat, base: World, tau: Context, m: World)
    requires IsWorld(p, base) && IsLeast(p, k, base, tau, m)
    ensures IsWorld(p, m)
  {
  }

  lemma RisingEnds(p: Program, k: nat, base: World, tau: Context, s: Goal, b: Value, m: World)
    requires WellFormed(p) && IsWorld(p, base) && Open(p, k, tau, s) && IsLeast(p, k, base, tau[s := b], m)
             && Step(p, m, s) == b
    requires forall w :: PreFixed(p, k, base, tau, w) ==> Leq(p, s, b, w[s])
    ensures IsLeast(p, k, base, tau, m)
  {
    hide WellFormed, Step;
    forall w | PreFixed(p, k, base, tau, w)
      ensures Below(p, k, m, w)
    {
      AssumedPreFixed(p, k, base, tau, s, b, w);
    }
  }

  lemma RisingStaysBelow(p: Program, k: nat, base: World, tau: Context, s: Goal, b: Value, m: World, w: World)
    requires WellFormed(p) && IsWorld(p, base) && Open(p, k, tau, s) && IsLeast(p, k, base, tau[s := b], m)
    requires PreFixed(p, k, base, tau, w) && Leq(p, s, b, w[s])
    ensures Leq(p, s, Step(p, m, s), w[s])
  {
    hide WellFormed, Step, Leq;
    AssumedPreFixed(p, k, base, tau, s, b, w);
    BelowIsUnder(p, k, m, w);
    StepMonotone(p, m, w, s);
    LeqTransitive(p, s, Step(p, m, s), Step(p, w, s), w[s]);
  }

  /** A higher assumption leads to a higher model. */
  lemma HigherAssumption(p: Program, k: nat, base: World, tau: Context, s: Goal, b: Value, m: World, b': Value,
                         m': World)
    requires WellFormed(p) && IsWorld(p, base) && Open(p, k, tau, s) && Leq(p, s, b, b')
    requires IsLeast(p, k, base, tau[s := b], m) && IsLeast(p, k, base, tau[s := b'], m')
    ensures Below(p, k, m, m') && Under(p, k, m, m')
  {
    hide WellFormed, Step, Leq;
    forall g | g in p.goals && p.stratum(g) == k
      ensures Leq(p, g, Next(p, tau[s := b], m', g), m'[g])
    {
      LeqReflexive(p, g, m'[g]);
    }
    assert PreFixed(p, k, base, tau[s := b], m');
    BelowIsUnder(p, k, m, m');
  }

  lemma RisingRises(p: Program, k: nat, base: World, tau: Context, s: Goal, b: Value, m: World, b': Value, m': World)
    requires WellFormed(p) && IsWorld(p, base) && Open(p, k, tau, s) && Leq(p, s, b, b')
    requires IsLeast(p, k, base, tau[s := b], m) && IsLeast(p, k, base, tau[s := b'], m') && b' == Step(p, m, s)
    ensures Leq(p, s, b', Step(p, m', s))
  {
    hide WellFormed, Step, Leq;
    HigherAssumption(p, k, base, tau, s, b, m, b', m');
    StepMonotone(p, m, m', s);
  }

  lemma LeastUnique(p: Program, k: nat, base: World, tau: Context, m: World, m': World)
    requires WellFormed(p) && IsWorld(p, base) && IsLeast(p, k, base, tau, m) && IsLeast(p, k, base, tau, m')
    ensures m == m'
  {
    hide WellFormed, Step, Leq;
    LeastIsPreFixed(p, k, base, tau, m);
    LeastIsPreFixed(p, k, base, tau, m');
    forall g | g in p.goals
      ensures m[g] == m'[g]
    {
      if p.stratum(g) == k {
        LeqAntisymmetric(p, g, m[g], m'[g]);
      }
    }
  }

  lemma LeastIsPreFixed(p: Program, k: nat, base: World, tau: Context, m: World)
    requires WellFormed(p) && IsWorld(p, base) && IsLeast(p, k, base, tau, m)
    ensures PreFixed(p, k, base, tau, m)
  {
    hide WellFormed, Step, Leq;
    forall g | g in p.goals && p.stratum(g) == k
      ensures Leq(p, g, Next(p, tau, m, g), m[g])
    {
      LeqReflexive(p, g, m[g]);
    }
  }

  ghost function LevelModel(p: Program, k: nat, base: World, tau: Context): (m: World)
    requires WellFormed(p) && IsWorld(p, base)
    ensures IsWorld(p, m)
  {
    LeastExists(p, k, base, tau);
    var m :| IsLeast(p, k, base, tau, m);
    m
  }

  lemma LevelModelIsLeast(p: Program, k: nat, base: World, tau: Context)
    requires WellFormed(p) && IsWorld(p, base)
    ensures IsLeast(p, k, base, tau, LevelModel(p, k, base, tau))
  {
    hide WellFormed, IsLeast;
    LeastExists(p, k, base, tau);
  }

  // ----- The meaning of a program -----

  /** The values in all strata below `k`. */
  ghost function TruthTo(p: Program, k: nat): (w: World)
    requires WellFormed(p)
    ensures IsWorld(p, w)
  {
    if k == 0 then map g | g in p.goals :: Initial(p, g)
    else LevelModel(p, k - 1, TruthTo(p, k - 1), map[])
  }

  ghost function TrueValue(p: Program, g: Goal): Value
    requires WellFormed(p) && g in p.goals
  {
    TruthTo(p, p.stratum(g) + 1)[g]
  }

  /** The values of all goals: least in each stratum, given those of the strata below. */
  ghost function Truth(p: Program): (w: World)
    requires WellFormed(p)
    ensures IsWorld(p, w)
  {
    map g | g in p.goals :: TrueValue(p, g)
  }

  lemma LeastElsewhere(p: Program, k: nat, base: World, tau: Context, m: World, g: Goal)
    requires IsWorld(p, base) && IsLeast(p, k, base, tau, m) && g in p.goals
    ensures m[g] == if p.stratum(g) == k then Next(p, tau, m, g) else base[g]
  {
  }

  lemma TruthToAbove(p: Program, k: nat, g: Goal)
    requires WellFormed(p) && g in p.goals && p.stratum(g) < k
    ensures TruthTo(p, k + 1)[g] == TruthTo(p, k)[g]
  {
    hide WellFormed, Step, IsLeast, LevelModel;
    LevelModelIsLeast(p, k, TruthTo(p, k), map[]);
    LeastElsewhere(p, k, TruthTo(p, k), map[], TruthTo(p, k + 1), g);
  }

  lemma {:induction false} TruthToStays(p: Program, k: nat, g: Goal)
    requires WellFormed(p) && g in p.goals && p.stratum(g) < k
    ensures TruthTo(p, k)[g] == TruthTo(p, p.stratum(g) + 1)[g]
  {
    hide WellFormed, TruthTo;
    if k > p.stratum(g) + 1 {
      TruthToStays(p, k - 1, g);
      TruthToAbove(p, k - 1, g);
    }
  }

  lemma TruthAt(p: Program, g: Goal)
    requires WellFormed(p) && g in p.goals
    ensures Truth(p)[g] == TrueValue(p, g)
  {
    hide WellFormed, TrueValue;
  }

  lemma TruthStays(p: Program, k: nat, g: Goal)
    requires WellFormed(p) && g in p.goals && p.stratum(g) < k
    ensures TruthTo(p, k)[g] == Truth(p)[g]
  {
    hide WellFormed, TruthTo, Truth;
    TruthToStays(p, k, g);
    TruthAt(p, g);
  }

  /** The model of a stratum depends on the base only below it. */
  lemma SameBase(p: Program, k: nat, base: World, base': World, tau: Context, m: World)
    requires WellFormed(p) && IsWorld(p, base) && IsWorld(p, base') && IsLeast(p, k, base, tau, m)
    requires forall g :: g in p.goals && p.stratum(g) < k ==> base[g] == base'[g]
    ensures IsLeast(p, k, base', tau, map g | g in p.goals :: if p.stratum(g) == k then m[g] else base'[g])
  {
    hide WellFormed, Step, Leq;
    var m' := map g | g in p.goals :: if p.stratum(g) == k then m[g] else base'[g];
    forall g | g in p.goals && p.stratum(g) == k
      ensures m'[g] == Next(p, tau, m', g)
    {
      StepLocal(p, m, m', g);
    }
    forall w | PreFixed(p, k, base', tau, w)
      ensures Below(p, k, m', w)
    {
      assert PreFixed(p, k, base, tau, w);
    }
  }

  /** The meaning of a program is the least fixed point in every stratum. */
  lemma TruthIsLeast(p: Program, k: nat)
    requires WellFormed(p)
    ensures IsLeast(p, k, Truth(p), map[], Truth(p))
  {
    hide WellFormed, Step, Leq, IsLeast, Truth, LevelModel;
    var base, m, truth := TruthTo(p, k), TruthTo(p, k + 1), Truth(p);
    LevelModelIsLeast(p, k, base, map[]);
    assert IsLeast(p, k, base, map[], m);
    forall g | g in p.goals && p.stratum(g) < k + 1
      ensures m[g] == truth[g] && (p.stratum(g) < k ==> base[g] == truth[g])
    {
      TruthStays(p, k + 1, g);
      if p.stratum(g) < k {
        TruthStays(p, k, g);
      }
    }
    SameBase(p, k, base, truth, map[], m);
    assert truth == map g | g in p.goals :: if p.stratum(g) == k then m[g] else truth[g];
  }

  /** Iterations for `g` ask only for goals of lower strata. */
  ghost predicate Acyclic(p: Program, g: Goal) {
    forall answers :: p.request(g, answers).Ask? ==> p.stratum(p.request(g, answers).goal) < p.stratum(g)
  }

  /** Goals whose value is settled are not on cycles. */
  ghost predicate Decisive(p: Program)
    requires WellFormed(p)
  {
    forall g :: g in p.goals && p.settled(Truth(p)[g]) ==> Acyclic(p, g)
  }

  /** A value that cannot rise at all and is at most the true one is the true one. */
  lemma SettledIsTrue(p: Program, g: Goal, v: Value)
    requires WellFormed(p) && SettledIsTop(p, p.coinductive(g))
    requires g in p.goals && p.settled(v) && Leq(p, g, v, Truth(p)[g])
    ensures v == Truth(p)[g]
  {
    hide Truth, Ordered, AsksKnown, Monotone;
  }

  /** The world that stratum `k` sees under some assumptions, everything else being as it is. */
  ghost function LevelWorld(p: Program, tau: Context, k: nat): (w: World)
    requires WellFormed(p)
    ensures IsWorld(p, w)
  {
    LevelModel(p, k, Truth(p), tau)
  }

  lemma LevelWorldIsLeast(p: Program, tau: Context, k: nat)
    requires WellFormed(p)
    ensures IsLeast(p, k, Truth(p), tau, LevelWorld(p, tau, k))
  {
    hide WellFormed, IsLeast, Truth, LevelModel;
    LevelModelIsLeast(p, k, Truth(p), tau);
  }

  lemma ModelAt(p: Program, tau: Context, g: Goal)
    requires WellFormed(p) && g in p.goals
    ensures Model(p, tau)[g] == LevelWorld(p, tau, p.stratum(g))[g]
  {
    hide WellFormed, LevelWorld;
  }

  /** The values of all goals under some assumptions. */
  ghost function Model(p: Program, tau: Context): (w: World)
    requires WellFormed(p)
    ensures IsWorld(p, w)
  {
    map g | g in p.goals :: LevelWorld(p, tau, p.stratum(g))[g]
  }

  lemma ModelIsFixedPoint(p: Program, tau: Context, g: Goal)
    requires WellFormed(p) && g in p.goals
    ensures Model(p, tau)[g] == Next(p, tau, LevelWorld(p, tau, p.stratum(g)), g)
  {
    hide WellFormed, Step, Truth, Leq, LevelWorld, Model, IsLeast;
    ModelAt(p, tau, g);
    LevelWorldIsLeast(p, tau, p.stratum(g));
    LeastElsewhere(p, p.stratum(g), Truth(p), tau, LevelWorld(p, tau, p.stratum(g)), g);
  }

  /** A world closed in one stratum is above the model there. */
  lemma ModelIsLeast(p: Program, tau: Context, k: nat, w: World, g: Goal)
    requires WellFormed(p) && PreFixed(p, k, Truth(p), tau, w) && g in p.goals && p.stratum(g) == k
    ensures Leq(p, g, Model(p, tau)[g], w[g])
  {
    hide WellFormed, Step, Truth, Leq, LevelWorld, Model, PreFixed;
    ModelAt(p, tau, g);
    LevelWorldIsLeast(p, tau, k);
  }

  lemma NothingAssumed(p: Program)
    requires WellFormed(p)
    ensures Model(p, map[]) == Truth(p)
  {
    hide WellFormed, Step, Truth, IsLeast, LevelWorld, Model;
    forall g | g in p.goals
      ensures Model(p, map[])[g] == Truth(p)[g]
    {
      TruthIsLeast(p, p.stratum(g));
      LevelWorldIsLeast(p, map[], p.stratum(g));
      ModelAt(p, map[], g);
      LeastUnique(p, p.stratum(g), Truth(p), map[], Truth(p), LevelWorld(p, map[], p.stratum(g)));
    }
  }

  // ----- Recording values -----

  /** `tau'` adds to `tau` goals with the values they have under `tau`. */
  ghost predicate Extends(p: Program, tau: Context, tau': Context)
    requires WellFormed(p)
  {
    && (forall g :: g in tau ==> g in tau' && tau'[g] == tau[g])
    && (forall g :: g in tau' && g !in tau ==> g in p.goals && tau'[g] == Model(p, tau)[g])
  }

  /** Recording values changes none. */
  lemma ExtendsKeepsLevel(p: Program, tau: Context, tau': Context, k: nat)
    requires WellFormed(p) && Extends(p, tau, tau')
    ensures LevelWorld(p, tau', k) == LevelWorld(p, tau, k)
  {
    hide WellFormed, Step, Truth, Leq, LevelWorld, Model;
    var m, m' := LevelWorld(p, tau, k), LevelWorld(p, tau', k);
    LevelWorldIsLeast(p, tau, k);
    LevelWorldIsLeast(p, tau', k);
    forall g | g in p.goals && p.stratum(g) == k
      ensures Leq(p, g, Next(p, tau', m, g), m[g])
    {
      ModelAt(p, tau, g);
      LeqReflexive(p, g, m[g]);
    }
    assert PreFixed(p, k, Truth(p), tau', m);
    BelowIsUnder(p, k, m', m);
    forall g | g in p.goals && p.stratum(g) == k
      ensures Leq(p, g, Next(p, tau, m', g), m'[g])
    {
      ModelAt(p, tau, g);
      LeqReflexive(p, g, m'[g]);
      StepMonotone(p, m', m, g);
    }
    assert PreFixed(p, k, Truth(p), tau, m');
    forall g | g in p.goals
      ensures m[g] == m'[g]
    {
      if p.stratum(g) == k {
        LeqAntisymmetric(p, g, m[g], m'[g]);
      }
    }
  }

  lemma ExtendsKeepsModel(p: Program, tau: Context, tau': Context)
    requires WellFormed(p) && Extends(p, tau, tau')
    ensures Model(p, tau') == Model(p, tau)
  {
    hide WellFormed, Step, Truth, LevelWorld, Extends, Model;
    forall g | g in p.goals
      ensures Model(p, tau')[g] == Model(p, tau)[g]
    {
      ModelAt(p, tau, g);
      ModelAt(p, tau', g);
      ExtendsKeepsLevel(p, tau, tau', p.stratum(g));
    }
  }

  lemma ExtendsReflexive(p: Program, tau: Context)
    requires WellFormed(p)
    ensures Extends(p, tau, tau)
  {
    hide WellFormed, Model;
  }

  lemma ExtendsTransitive(p: Program, a: Context, b: Context, c: Context)
    requires WellFormed(p) && Extends(p, a, b) && Extends(p, b, c)
    ensures Extends(p, a, c)
  {
    hide WellFormed, Model;
    ExtendsKeepsModel(p, a, b);
  }

  // ----- Cautious contexts -----

  /** Assumed values are at most the true ones. */
  ghost predicate Cautious(p: Program, tau: Context)
    requires WellFormed(p)
  {
    forall g :: g in tau ==> g in p.goals && Leq(p, g, tau[g], Truth(p)[g])
  }

  lemma CautiousModel(p: Program, tau: Context, g: Goal)
    requires WellFormed(p) && Cautious(p, tau) && g in p.goals
    ensures Leq(p, g, Model(p, tau)[g], Truth(p)[g])
  {
    hide WellFormed, Step, Leq, Truth, Model;
    var k := p.stratum(g);
    TruthIsLeast(p, k);
    forall q | q in p.goals && p.stratum(q) == k
      ensures Leq(p, q, Next(p, tau, Truth(p), q), Truth(p)[q])
    {
      LeqReflexive(p, q, Truth(p)[q]);
    }
    ModelIsLeast(p, tau, k, Truth(p), g);
  }

  /** A stratum of which only true values are assumed has its true values. */
  lemma ExactStratum(p: Program, tau: Context, g: Goal)
    requires WellFormed(p) && g in p.goals
    requires forall q :: q in tau && q in p.goals && p.stratum(q) == p.stratum(g) ==> tau[q] == Truth(p)[q]
    ensures Model(p, tau)[g] == Truth(p)[g]
  {
    hide WellFormed, Step, Leq, Truth, Model, LevelWorld;
    var k, m := p.stratum(g), LevelWorld(p, tau, p.stratum(g));
    var truth := Truth(p);
    ModelAt(p, tau, g);
    LevelWorldIsLeast(p, tau, k);
    TruthIsLeast(p, k);
    forall q | q in p.goals && p.stratum(q) == k
      ensures Leq(p, q, Next(p, tau, truth, q), truth[q])
    {
      LeqReflexive(p, q, truth[q]);
    }
    assert PreFixed(p, k, truth, tau, truth);
    BelowIsUnder(p, k, m, truth);
    forall q | q in p.goals && p.stratum(q) == k
      ensures Leq(p, q, Next(p, map[], m, q), m[q])
    {
      LeqReflexive(p, q, m[q]);
      StepMonotone(p, m, truth, q);
    }
    assert PreFixed(p, k, truth, map[], m);
    LeqAntisymmetric(p, g, m[g], truth[g]);
  }

  // ----- Rounds -----

  /** Assuming at most its value for a goal leads to at most the model, and changes nothing in other strata. */
  lemma AssumeBelow(p: Program, tau: Context, s: Goal, b: Value, g: Goal)
    requires WellFormed(p) && s in p.goals && s !in tau && Leq(p, s, b, Model(p, tau)[s]) && g in p.goals
    ensures Leq(p, g, Model(p, tau[s := b])[g], Model(p, tau)[g])
    ensures p.stratum(g) != p.stratum(s) ==> Model(p, tau[s := b])[g] == Model(p, tau)[g]
  {
    hide WellFormed, Step, Leq, Truth, Model, LevelWorld;
    var k := p.stratum(g);
    var m, m' := LevelWorld(p, tau, k), LevelWorld(p, tau[s := b], k);
    ModelAt(p, tau, g);
    ModelAt(p, tau, s);
    ModelAt(p, tau[s := b], g);
    LevelWorldIsLeast(p, tau, k);
    LevelWorldIsLeast(p, tau[s := b], k);
    if k == p.stratum(s) {
      LeastIsPreFixed(p, k, Truth(p), tau, m);
      AssumedPreFixed(p, k, Truth(p), tau, s, b, m);
    } else {
      OtherStratum(p, tau, s, b, k);
      LeqReflexive(p, g, m[g]);
    }
  }

  lemma OtherStratum(p: Program, tau: Context, s: Goal, b: Value, k: nat)
    requires WellFormed(p) && s in p.goals && p.stratum(s) != k
    ensures LevelWorld(p, tau[s := b], k) == LevelWorld(p, tau, k)
  {
    hide WellFormed, Step, Leq, Truth, LevelWorld;
    var m := LevelWorld(p, tau, k);
    LevelWorldIsLeast(p, tau, k);
    LevelWorldIsLeast(p, tau[s := b], k);
    forall w | PreFixed(p, k, Truth(p), tau[s := b], w)
      ensures Below(p, k, m, w)
    {
      assert PreFixed(p, k, Truth(p), tau, w);
    }
    LeastUnique(p, k, Truth(p), tau[s := b], m, LevelWorld(p, tau[s := b], k));
  }

  /** What one round computes for `s` in stratum `p.stratum(s)`, if `s` was assumed to have value `b`. */
  ghost function Round(p: Program, tau: Context, s: Goal, b: Value): Value
    requires WellFormed(p)
  {
    Step(p, LevelWorld(p, tau[s := b], p.stratum(s)), s)
  }

  /** The value of `s` is an upper bound for what the rounds compute, as long as the assumption is below it. */
  lemma RoundStaysBelow(p: Program, tau: Context, s: Goal, b: Value)
    requires WellFormed(p) && s in p.goals && s !in tau && Leq(p, s, b, Model(p, tau)[s])
    ensures Leq(p, s, Round(p, tau, s, b), Model(p, tau)[s])
  {
    hide WellFormed, Step, Leq, Truth, Model, LevelWorld, IsLeast, PreFixed;
    var k := p.stratum(s);
    var m, m' := LevelWorld(p, tau, k), LevelWorld(p, tau[s := b], k);
    ModelAt(p, tau, s);
    LevelWorldIsLeast(p, tau, k);
    LevelWorldIsLeast(p, tau[s := b], k);
    LeastIsPreFixed(p, k, Truth(p), tau, m);
    RisingStaysBelow(p, k, Truth(p), tau, s, b, m', m);
  }

  /** Rounds that start higher end higher: provisional values rise from round to round. */
  lemma RoundRises(p: Program, tau: Context, s: Goal, b: Value)
    requires WellFormed(p) && s in p.goals && s !in tau && Leq(p, s, b, Round(p, tau, s, b))
    ensures Leq(p, s, Round(p, tau, s, b), Round(p, tau, s, Round(p, tau, s, b)))
  {
    hide WellFormed, Step, Leq, Truth, LevelWorld, IsLeast;
    var k, b' := p.stratum(s), Round(p, tau, s, b);
    LevelWorldIsLeast(p, tau[s := b], k);
    LevelWorldIsLeast(p, tau[s := b'], k);
    RisingRises(p, k, Truth(p), tau, s, b, LevelWorld(p, tau[s := b], k), b', LevelWorld(p, tau[s := b'], k));
  }

  /** A round that changes nothing has found the value. */
  lemma RoundIsStable(p: Program, tau: Context, s: Goal, b: Value)
    requires WellFormed(p) && s in p.goals && s !in tau && Leq(p, s, b, Model(p, tau)[s]) && Round(p, tau, s, b) == b
    ensures b == Model(p, tau)[s]
  {
    hide WellFormed, Step, Leq, Truth, IsLeast, LevelWorld, Model;
    var k := p.stratum(s);
    var m' := LevelWorld(p, tau[s := b], k);
    LevelWorldIsLeast(p, tau[s := b], k);
    forall g | g in p.goals
      ensures p.stratum(g) == k ==> Leq(p, g, Next(p, tau, m', g), m'[g])
      ensures p.stratum(g) < k ==> m'[g] == Truth(p)[g]
    {
      LeastElsewhere(p, k, Truth(p), tau[s := b], m', g);
      LeqReflexive(p, g, m'[g]);
    }
    LeastElsewhere(p, k, Truth(p), tau[s := b], m', s);
    ModelIsLeast(p, tau, k, m', s);
    LeqAntisymmetric(p, s, b, Model(p, tau)[s]);
  }

  /** Values that support each other, and are at most those of the model, are those of the model. */
  lemma SelfSupport(p: Program, tau: Context, k: nat, w: World, g: Goal)
    requires WellFormed(p) && IsWorld(p, w) && g in p.goals && p.stratum(g) == k
    requires forall q :: q in p.goals && p.stratum(q) < k ==> w[q] == Truth(p)[q]
    requires forall q :: q in p.goals && p.stratum(q) == k ==> Leq(p, q, w[q], Model(p, tau)[q])
    requires forall q :: q in p.goals && p.stratum(q) == k && w[q] != Model(p, tau)[q] ==>
               q !in tau && Leq(p, q, Step(p, w, q), w[q])
    ensures w[g] == Model(p, tau)[g]
  {
    hide WellFormed, Step, Leq, Truth, Model, LevelWorld, IsLeast;
    var m := LevelWorld(p, tau, k);
    LevelWorldIsLeast(p, tau, k);
    forall q | q in p.goals
      ensures p.stratum(q) == k ==> m[q] == Model(p, tau)[q] == Next(p, tau, m, q)
      ensures p.stratum(q) < k ==> m[q] == Truth(p)[q]
    {
      LeastElsewhere(p, k, Truth(p), tau, m, q);
      ModelAt(p, tau, q);
    }
    assert Under(p, k, w, m);
    forall q | q in p.goals && p.stratum(q) == k
      ensures Leq(p, q, Next(p, tau, w, q), w[q])
    {
      LeqReflexive(p, q, w[q]);
      StepMonotone(p, w, m, q);
    }
    ModelIsLeast(p, tau, k, w, g);
    LeqAntisymmetric(p, g, w[g], Model(p, tau)[g]);
  }

  /** The outcome of an iteration is determined by the answers it is given. */
  lemma {:induction false} AnswersDecide(p: Program, g: Goal, asked: seq<Goal>, answers: seq<Value>, w: World, n: nat)
    requires WellFormed(p) && g in p.goals && IsWorld(p, w) && |asked| == |answers| && n <= |answers|
    requires forall j :: 0 <= j < |answers| ==>
               p.request(g, answers[..j]) == Ask(asked[j]) && asked[j] in w && w[asked[j]] == answers[j]
    ensures Eval(p, g, answers[..n], w) == Eval(p, g, answers, w)
    decreases |answers| - n
  {
    if n < |answers| {
      AnswersDecide(p, g, asked, answers, w, n + 1);
      assert p.request(g, answers[..n]) == Ask(asked[n]);
      assert answers[..n] + [answers[n]] == answers[..n + 1];
    } else {
      assert answers[..n] == answers;
    }
  }

  /** A higher assumption leads to higher values everywhere. */
  lemma AssumeHigher(p: Program, tau: Context, s: Goal, b: Value, b': Value, g: Goal)
    requires WellFormed(p) && s in p.goals && s !in tau && Leq(p, s, b, b') && g in p.goals
    ensures Leq(p, g, Model(p, tau[s := b])[g], Model(p, tau[s := b'])[g])
  {
    hide WellFormed, Step, Leq, Truth, Model, LevelWorld, IsLeast;
    var k := p.stratum(g);
    ModelAt(p, tau[s := b], g);
    ModelAt(p, tau[s := b'], g);
    LevelWorldIsLeast(p, tau[s := b], k);
    LevelWorldIsLeast(p, tau[s := b'], k);
    if k == p.stratum(s) {
      HigherAssumption(p, k, Truth(p), tau, s, b, LevelWorld(p, tau[s := b], k), b', LevelWorld(p, tau[s := b'], k));
    } else {
      OtherStratum(p, tau, s, b, k);
      OtherStratum(p, tau, s, b', k);
      LeqReflexive(p, g, LevelWorld(p, tau, k)[g]);
    }
  }

  /** A value that is the true one under a low assumption is the true one under every higher one, and without any. */
  lemma SettledEntry(p: Program, tau: Context, s: Goal, b: Value, b': Value, g: Goal)
    requires WellFormed(p) && Cautious(p, tau) && s in p.goals && s !in tau && g in p.goals
    requires Leq(p, s, b, b') && Leq(p, s, b', Model(p, tau)[s]) && Model(p, tau[s := b])[g] == Truth(p)[g]
    ensures Model(p, tau[s := b'])[g] == Truth(p)[g] == Model(p, tau)[g]
  {
    hide WellFormed, Leq, Truth, Model, Cautious;
    AssumeHigher(p, tau, s, b, b', g);
    AssumeBelow(p, tau, s, b', g);
    CautiousModel(p, tau, g);
    LeqTransitive(p, g, Model(p, tau[s := b'])[g], Model(p, tau)[g], Truth(p)[g]);
    LeqAntisymmetric(p, g, Model(p, tau[s := b'])[g], Truth(p)[g]);
    LeqAntisymmetric(p, g, Model(p, tau)[g], Truth(p)[g]);
  }
}
