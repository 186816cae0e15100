/**
  Two ways to break a goal into literals: the SLG engine pops goals off a stack, the
  recursive solver recurses.  Both produce the same literals and keep the goal's meaning.
 */
module Flatten {
  type Atom(==, !new)
  type Clause(==, !new)

  datatype Goal =
    | All(goals: seq<Goal>)
    | Implies(clauses: set<Clause>, goal: Goal)
    | Not(goal: Goal)
    | Domain(atom: Atom)
    | CannotProve

  /** A goal to prove or to refute, with the clauses it may use. */
  datatype Literal = Positive(environment: set<Clause>, atom: Atom) | Negative(environment: set<Clause>, goal: Goal)

  // ----- What flattening means -----

  ghost function LiteralsOf(environment: set<Clause>, g: Goal): multiset<Literal>
    decreases g
  {
    match g
    case All(goals) => LiteralsOfAll(environment, goals)
    case Implies(clauses, goal) => LiteralsOf(environment + clauses, goal)
    case Not(goal) => multiset{Negative(environment, goal)}
    case Domain(atom) => multiset{Positive(environment, atom)}
    case CannotProve => multiset{}
  }

  ghost function LiteralsOfAll(environment: set<Clause>, goals: seq<Goal>): multiset<Literal>
    decreases goals
  {
    if goals == [] then multiset{}
    else LiteralsOfAll(environment, goals[..|goals| - 1]) + LiteralsOf(environment, goals[|goals| - 1])
  }

  /** Some part that must hold is known not to be provable either way. */
  ghost predicate Unprovable(g: Goal) {
    match g
    case All(goals) => exists i :: 0 <= i < |goals| && Unprovable(goals[i])
    case Implies(_, goal) => Unprovable(goal)
    case CannotProve => true
    case _ => false
  }

  datatype Truth = True | False | Unknown

  ghost function And(a: Truth, b: Truth): Truth {
    if a.False? || b.False? then False else if a.Unknown? || b.Unknown? then Unknown else True
  }

  ghost function Negation(a: Truth): Truth {
    match a
    case True => False
    case False => True
    case Unknown => Unknown
  }

  /** The values of domain goals, each with the clauses it may use. */
  type Oracle = (set<Clause>, Atom) -> Truth

  /** The value of a goal in strong three-valued logic. */
  ghost function Value(oracle: Oracle, environment: set<Clause>, g: Goal): Truth
    decreases g
  {
    match g
    case All(goals) => ValueOfAll(oracle, environment, goals)
    case Implies(clauses, goal) => Value(oracle, environment + clauses, goal)
    case Not(goal) => Negation(Value(oracle, environment, goal))
    case Domain(atom) => oracle(environment, atom)
    case CannotProve => Unknown
  }

  ghost function ValueOfAll(oracle: Oracle, environment: set<Clause>, goals: seq<Goal>): Truth
    decreases goals
  {
    if goals == [] then True
    else And(ValueOfAll(oracle, environment, goals[..|goals| - 1]), Value(oracle, environment, goals[|goals| - 1]))
  }

  /** A literal is proved or refuted on its own. */
  ghost function LiteralValue(oracle: Oracle, l: Literal): Truth {
    match l
    case Positive(environment, atom) => oracle(environment, atom)
    case Negative(environment, goal) => Negation(Value(oracle, environment, goal))
  }

  /**
    The value of a flattened goal: the conjunction of its literals, and unknown at best if something cannot be proved.
   */
  ghost function FlatValue(oracle: Oracle, literals: multiset<Literal>, cannotProve: bool): Truth {
    if exists l :: l in literals && LiteralValue(oracle, l).False? then False
    else if cannotProve || exists l :: l in literals && LiteralValue(oracle, l).Unknown? then Unknown
    else True
  }

  lemma FlatValueSum(oracle: Oracle, a: multiset<Literal>, p: bool, b: multiset<Literal>, q: bool)
    ensures FlatValue(oracle, a + b, p || q) == And(FlatValue(oracle, a, p), FlatValue(oracle, b, q))
  {
  }

  /** Flattening preserves the three-valued meaning. */
  lemma {:induction false} FlatteningKeepsValue(oracle: Oracle, environment: set<Clause>, g: Goal)
    ensures Value(oracle, environment, g) == FlatValue(oracle, LiteralsOf(environment, g), Unprovable(g))
    decreases g
  {
    match g
    case All(goals) => FlatteningAllKeepsValue(oracle, environment, goals);
    case Implies(clauses, goal) => FlatteningKeepsValue(oracle, environment + clauses, goal);
    case _ =>
  }

  lemma {:induction false} FlatteningAllKeepsValue(oracle: Oracle, environment: set<Clause>, goals: seq<Goal>)
    ensures ValueOfAll(oracle, environment, goals) ==
            FlatValue(oracle, LiteralsOfAll(environment, goals), exists i :: 0 <= i < |goals| && Unprovable(goals[i]))
    decreases goals
  {
    if goals != [] {
      var rest, last := goals[..|goals| - 1], goals[|goals| - 1];
      FlatteningAllKeepsValue(oracle, environment, rest);
      FlatteningKeepsValue(oracle, environment, last);
      var p := exists i :: 0 <= i < |rest| && Unprovable(rest[i]);
      FlatValueSum(oracle, LiteralsOfAll(environment, rest), p, LiteralsOf(environment, last), Unprovable(last));
      assert (exists i :: 0 <= i < |goals| && Unprovable(goals[i])) <==> p || Unprovable(last);
    }
  }

  // ----- The stack of the SLG engine -----

  datatype Pending = Pending(environment: set<Clause>, goal: Goal)

  ghost function PendingLiterals(pending: seq<Pending>): multiset<Literal> {
    if pending == [] then multiset{}
    else
      var last := pending[|pending| - 1];
      PendingLiterals(pending[..|pending| - 1]) + LiteralsOf(last.environment, last.goal)
  }

  ghost predicate PendingUnprovable(pending: seq<Pending>) {
    exists i :: 0 <= i < |pending| && Unprovable(pending[i].goal)
  }

  ghost function Size(g: Goal): nat {
    match g
    case All(goals) => 1 + SizeAll(goals)
    case Implies(_, goal) => 1 + Size(goal)
    case _ => 1
  }

  ghost function SizeAll(goals: seq<Goal>): nat {
    if goals == [] then 0 else SizeAll(goals[..|goals| - 1]) + Size(goals[|goals| - 1])
  }

  ghost function PendingSize(pending: seq<Pending>): nat {
    if pending == [] then 0 else PendingSize(pending[..|pending| - 1]) + Size(pending[|pending| - 1].goal)
  }

  /** Pushing the parts of a conjunction. */
  method PushAll(pending: seq<Pending>, environment: set<Clause>, goals: seq<Goal>) returns (pending': seq<Pending>)
    ensures PendingLiterals(pending') == PendingLiterals(pending) + LiteralsOfAll(environment, goals)
    ensures PendingUnprovable(pending') <==>
            PendingUnprovable(pending) || exists i :: 0 <= i < |goals| && Unprovable(goals[i])
    ensures PendingSize(pending') == PendingSize(pending) + SizeAll(goals)
  {
    hide PendingLiterals, PendingUnprovable, PendingSize, LiteralsOf, Unprovable, Size;
    pending' := pending;
    for i := 0 to |goals|
      invariant PendingLiterals(pending') == PendingLiterals(pending) + LiteralsOfAll(environment, goals[..i])
      invariant PendingUnprovable(pending') <==>
                PendingUnprovable(pending) || exists k :: 0 <= k < i && Unprovable(goals[k])
      invariant PendingSize(pending') == PendingSize(pending) + SizeAll(goals[..i])
    {
      assert goals[..i + 1][..i] == goals[..i];
      PushOne(pending', Pending(environment, goals[i]));
      pending' := pending' + [Pending(environment, goals[i])];
    }
    assert goals[..|goals|] == goals;
  }

  lemma PushOne(pending: seq<Pending>, p: Pending)
    ensures PendingLiterals(pending + [p]) == PendingLiterals(pending) + LiteralsOf(p.environment, p.goal)
    ensures PendingUnprovable(pending + [p]) <==> PendingUnprovable(pending) || Unprovable(p.goal)
    ensures PendingSize(pending + [p]) == PendingSize(pending) + Size(p.goal)
  {
    assert (pending + [p])[..|pending|] == pending;
    assert forall i :: 0 <= i < |pending| ==> (pending + [p])[i] == pending[i];
    assert (pending + [p])[|pending|] == p;
  }

  lemma NothingPending()
    ensures PendingLiterals([]) == multiset{} && !PendingUnprovable([]) && PendingSize([]) == 0
  {
  }

  lemma Unfolded(environment: set<Clause>, g: Goal)
    ensures g.All? ==>
              LiteralsOf(environment, g) == LiteralsOfAll(environment, g.goals) && Size(g) == 1 + SizeAll(g.goals)
    ensures g.All? ==> (Unprovable(g) <==> exists i :: 0 <= i < |g.goals| && Unprovable(g.goals[i]))
    ensures g.Implies? ==>
              LiteralsOf(environment, g) == LiteralsOf(environment + g.clauses, g.goal) && Size(g) == 1 + Size(g.goal)
    ensures g.Implies? ==> (Unprovable(g) <==> Unprovable(g.goal))
    ensures g.Not? ==> LiteralsOf(environment, g) == multiset{Negative(environment, g.goal)}
    ensures g.Domain? ==> LiteralsOf(environment, g) == multiset{Positive(environment, g.atom)}
    ensures g.CannotProve? ==> LiteralsOf(environment, g) == multiset{}
    ensures g.Not? || g.Domain? || g.CannotProve? ==> Size(g) == 1 && (Unprovable(g) <==> g.CannotProve?)
  {
  }

  method SimplifyGoal(environment: set<Clause>, goal: Goal) returns (subgoals: seq<Literal>, ambiguous: bool)
    ensures multiset(subgoals) == LiteralsOf(environment, goal)
    ensures ambiguous <==> Unprovable(goal)
  {
    hide PendingLiterals, PendingUnprovable, PendingSize, LiteralsOf, LiteralsOfAll, Unprovable, Size, SizeAll;
    subgoals, ambiguous := [], false;
    var pending := [Pending(environment, goal)];
    NothingPending();
    PushOne([], pending[0]);
    assert pending == [] + [pending[0]];
    while pending != []
      invariant multiset(subgoals) + PendingLiterals(pending) == LiteralsOf(environment, goal)
      invariant ambiguous || PendingUnprovable(pending) <==> Unprovable(goal)
      decreases PendingSize(pending)
    {
      var p := pending[|pending| - 1];
      var rest := pending[..|pending| - 1];
      assert pending == rest + [p];
      PushOne(rest, p);
      Unfolded(p.environment, p.goal);
      pending := rest;
      match p.goal {
        case All(goals) =>
          pending := PushAll(pending, p.environment, goals);
        case Implies(clauses, g) =>
          PushOne(rest, Pending(p.environment + clauses, g));
          pending := pending + [Pending(p.environment + clauses, g)];
        case Not(g) =>
          subgoals := subgoals + [Negative(p.environment, g)];
        case Domain(atom) =>
          subgoals := subgoals + [Positive(p.environment, atom)];
        case CannotProve =>
          ambiguous := true;
      }
    }
  }

  // ----- The recursion of the recursive solver -----

  /** `after` is `before` with those of the literals added that are not too large. */
  ghost predicate Added(tooLarge: Literal -> bool, before: multiset<Literal>, literals: multiset<Literal>,
                        after: multiset<Literal>) {
    forall l :: after[l] == before[l] + if tooLarge(l) then 0 else literals[l]
  }

  ghost predicate AnyTooLarge(tooLarge: Literal -> bool, literals: multiset<Literal>) {
    exists l :: l in literals && tooLarge(l)
  }

  lemma AddNothing(tooLarge: Literal -> bool, before: multiset<Literal>)
    ensures Added(tooLarge, before, multiset{}, before) && !AnyTooLarge(tooLarge, multiset{})
  {
  }

  lemma AddOne(tooLarge: Literal -> bool, before: multiset<Literal>, l: Literal)
    ensures Added(tooLarge, before, multiset{l}, before + if tooLarge(l) then multiset{} else multiset{l})
    ensures AnyTooLarge(tooLarge, multiset{l}) <==> tooLarge(l)
  {
    assert l in multiset{l};
  }

  lemma AddMore(tooLarge: Literal -> bool, before: multiset<Literal>, a: multiset<Literal>, between: multiset<Literal>,
                b: multiset<Literal>, after: multiset<Literal>)
    requires Added(tooLarge, before, a, between) && Added(tooLarge, between, b, after)
    ensures Added(tooLarge, before, a + b, after)
    ensures AnyTooLarge(tooLarge, a + b) <==> AnyTooLarge(tooLarge, a) || AnyTooLarge(tooLarge, b)
  {
  }

  class Fulfill {
    const tooLarge: Literal -> bool

    var obligations: seq<Literal>
    var cannotProve: bool

    constructor (tooLarge: Literal -> bool)
      ensures obligations == [] && !cannotProve && this.tooLarge == tooLarge
    {
      this.tooLarge := tooLarge;
      obligations, cannotProve := [], false;
    }

    /** A literal that is too large is given up. */
    method PushObligation(l: Literal)
      modifies this
      ensures obligations == old(obligations) + if tooLarge(l) then [] else [l]
      ensures cannotProve == (old(cannotProve) || tooLarge(l))
    {
      if tooLarge(l) {
        cannotProve := true;
      } else {
        obligations := obligations + [l];
      }
    }

    method PushGoals(environment: set<Clause>, goals: seq<Goal>)
      modifies this
      ensures old(obligations) <= obligations
      ensures Added(tooLarge, multiset(old(obligations)), LiteralsOfAll(environment, goals), multiset(obligations))
      ensures cannotProve <==> old(cannotProve) || (exists k :: 0 <= k < |goals| && Unprovable(goals[k]))
                               || AnyTooLarge(tooLarge, LiteralsOfAll(environment, goals))
      decreases goals, |goals|
    {
      hide Added, AnyTooLarge, LiteralsOf, Unprovable;
      AddNothing(tooLarge, multiset(obligations));
      for i := 0 to |goals|
        invariant old(obligations) <= obligations
        invariant Added(tooLarge, multiset(old(obligations)), LiteralsOfAll(environment, goals[..i]),
                  multiset(obligations))
        invariant cannotProve <==> old(cannotProve) || (exists k :: 0 <= k < i && Unprovable(goals[k]))
                                   || AnyTooLarge(tooLarge, LiteralsOfAll(environment, goals[..i]))
      {
        assert goals[..i + 1][..i] == goals[..i];
        ghost var soFar := multiset(obligations);
        PushGoal(environment, goals[i]);
        AddMore(tooLarge, multiset(old(obligations)), LiteralsOfAll(environment, goals[..i]), soFar,
                LiteralsOf(environment, goals[i]), multiset(obligations));
      }
      assert goals[..|goals|] == goals;
    }

    method PushGoal(environment: set<Clause>, goal: Goal)
      modifies this
      ensures old(obligations) <= obligations
      ensures Added(tooLarge, multiset(old(obligations)), LiteralsOf(environment, goal), multiset(obligations))
      ensures cannotProve <==>
              old(cannotProve) || Unprovable(goal) || AnyTooLarge(tooLarge, LiteralsOf(environment, goal))
      decreases goal
    {
      hide Added, AnyTooLarge;
      match goal {
        case All(goals) =>
          PushGoals(environment, goals);
        case Implies(clauses, g) =>
          PushGoal(environment + clauses, g);
        case Not(g) =>
          AddOne(tooLarge, multiset(obligations), Negative(environment, g));
          PushObligation(Negative(environment, g));
        case Domain(atom) =>
          AddOne(tooLarge, multiset(obligations), Positive(environment, atom));
          PushObligation(Positive(environment, atom));
        case CannotProve =>
          AddNothing(tooLarge, multiset(obligations));
          cannotProve := true;
      }
    }
  }

  /** When nothing is truncated, both solvers work on the same literals and agree on ambiguity. */
  method FlattenBothWays(environment: set<Clause>, goal: Goal, tooLarge: Literal -> bool)
    returns (subgoals: seq<Literal>, ambiguous: bool, obligations: seq<Literal>, cannotProve: bool)
    ensures (forall l :: l in LiteralsOf(environment, goal) ==> !tooLarge(l)) ==>
              multiset(subgoals) == multiset(obligations) && ambiguous == cannotProve
    ensures forall l :: l in obligations ==> l in subgoals
    ensures ambiguous ==> cannotProve
  {
    subgoals, ambiguous := SimplifyGoal(environment, goal);
    var fulfill := new Fulfill(tooLarge);
    fulfill.PushGoal(environment, goal);
    obligations, cannotProve := fulfill.obligations, fulfill.cannotProve;
    forall l | l in obligations
      ensures l in subgoals
    {
      assert l in multiset(obligations);
      assert l in multiset(subgoals);
    }
  }
}
