/**
  The vocabulary of the SLG engine: goals, strands, tables and stack entries, the
  operations on logical terms that the engine is parameterized by, and the plain
  resolution semantics its answers are compared with.
 */
module SlgContext {
  import opened Prelude

  /** A canonical goal in its environment: the key of a table. */
  type TableGoal(==, !new)

  /** A goal in its environment as it occurs inside a strand. */
  type Atom(==, !new)

  /** A substitution together with the region constraints that come with it. */
  type Subst(==, !new)

  datatype Literal = Positive(atom: Atom) | Negative(atom: Atom)

  datatype AnswerSubst = AnswerSubst(subst: Subst, delayed: seq<Atom>)

  datatype Answer = Answer(subst: AnswerSubst, ambiguous: bool)

  /** A program clause (or a simplified goal) resolved with a table's goal. */
  datatype Clause = Clause(subst: Subst, ambiguous: bool, subgoals: seq<Literal>)

  /** The effect of unifying a selected subgoal with an answer. */
  datatype Resolvent = Resolvent(subst: Subst -> Subst, atom: Atom -> Atom, goals: seq<Atom>, delayedAtom: Atom -> Atom)

  /** The operations on terms. Nothing is assumed about them. */
  datatype Context = Context(
    coinductive: TableGoal -> bool,
    clauses: TableGoal -> Option<seq<Clause>>,              // None: the goal flounders
    tableFor: Literal -> Option<TableGoal>,                 // None: the literal flounders
    resolve: (Atom, TableGoal, AnswerSubst) -> Option<Resolvent>,
    identity: (TableGoal, Subst) -> bool,
    unconstrained: Subst -> bool,
    tooLarge: Subst -> bool,
    canonical: Atom -> TableGoal)

  // ----- Strands -----

  datatype Floundered = Floundered(literal: Literal, time: nat)

  datatype ExClause = ExClause(
    subst: Subst,
    ambiguous: bool,
    subgoals: seq<Literal>,
    delayed: seq<Atom>,
    answerTime: nat,
    floundered: seq<Floundered>)

  datatype Selected = Selected(subgoalIndex: nat, subgoalTable: nat, answerIndex: nat)

  datatype Strand = Strand(exClause: ExClause, selected: Option<Selected>, lastPursuedTime: nat)

  // ----- Tables and stack -----

  datatype AnswerMode = Complete | Ambiguous

  datatype Table = Table(
    goal: TableGoal,
    coinductive: bool,
    floundered: bool,
    answers: seq<Answer>,
    answersHash: map<AnswerSubst, bool>,
    strands: seq<Strand>,
    mode: AnswerMode)

  /** `None` stands for `TimeStamp::MAX`. */
  datatype Minimums = Minimums(positive: Option<nat>, negative: Option<nat>)

  datatype StackEntry = StackEntry(table: nat, clock: nat, minimums: Minimums, active: Option<Strand>)

  function MinTime(a: Option<nat>, b: Option<nat>): Option<nat> {
    if a.None? then b
    else if b.None? then a
    else if a.value <= b.value then a else b
  }

  function TakeMinimums(a: Minimums, b: Minimums): Minimums {
    Minimums(MinTime(a.positive, b.positive), MinTime(a.negative, b.negative))
  }

  function MinimumOfPosAndNeg(m: Minimums): Option<nat> {
    MinTime(m.positive, m.negative)
  }

  predicate NotBefore(t: Option<nat>, clock: nat) {
    t.None? || t.value >= clock
  }

  // ----- Sequences -----

  function RemoveAt<T>(s: seq<T>, i: nat): seq<T>
    requires i < |s|
  {
    s[..i] + s[i + 1..]
  }

  function Map<T, U>(f: T -> U, s: seq<T>): (r: seq<U>)
    ensures |r| == |s|
    ensures forall i :: 0 <= i < |s| ==> r[i] == f(s[i])
  {
    seq(|s|, i requires 0 <= i < |s| => f(s[i]))
  }

  lemma MultisetRemoveAt<T>(s: seq<T>, i: nat)
    requires i < |s|
    ensures multiset(s) == multiset(RemoveAt(s, i)) + multiset{s[i]}
  {
    assert s == s[..i] + [s[i]] + s[i + 1..];
  }

  lemma MapRemoveAt<T, U>(f: T -> U, s: seq<T>, i: nat)
    requires i < |s|
    ensures multiset(Map(f, s)) == multiset(Map(f, RemoveAt(s, i))) + multiset{f(s[i])}
  {
    assert Map(f, RemoveAt(s, i)) == RemoveAt(Map(f, s), i);
    MultisetRemoveAt(Map(f, s), i);
  }

  /** Mapping respects permutation. */
  lemma {:induction false} MapPermutation<T, U>(f: T -> U, s: seq<T>, t: seq<T>)
    requires multiset(s) == multiset(t)
    ensures multiset(Map(f, s)) == multiset(Map(f, t))
    decreases |s|
  {
    if s == [] {
      assert |multiset(t)| == 0;
    } else {
      assert s[0] in multiset(t);
      var i :| 0 <= i < |t| && t[i] == s[0];
      MultisetRemoveAt(s, 0);
      MultisetRemoveAt(t, i);
      var s', t' := RemoveAt(s, 0), RemoveAt(t, i);
      assert multiset(s') == multiset(t') by {
        assert multiset(s') + multiset{s[0]} == multiset(t') + multiset{s[0]};
        assert multiset(s') == multiset(s') + multiset{s[0]} - multiset{s[0]};
        assert multiset(t') == multiset(t') + multiset{s[0]} - multiset{s[0]};
      }
      MapPermutation(f, s', t');
      MapRemoveAt(f, s, 0);
      MapRemoveAt(f, t, i);
    }
  }

  // ----- Operations on strands -----

  function MapLiteral(f: Atom -> Atom, l: Literal): Literal {
    match l
    case Positive(a) => Positive(f(a))
    case Negative(a) => Negative(f(a))
  }

  function MapLiterals(f: Atom -> Atom, ls: seq<Literal>): (r: seq<Literal>)
    ensures |r| == |ls|
    ensures forall i :: 0 <= i < |ls| ==> r[i] == MapLiteral(f, ls[i])
  {
    seq(|ls|, i requires 0 <= i < |ls| => MapLiteral(f, ls[i]))
  }

  function MapFloundered(f: Atom -> Atom, fs: seq<Floundered>): (r: seq<Floundered>)
    ensures |r| == |fs|
    ensures forall i :: 0 <= i < |fs| ==> r[i] == Floundered(MapLiteral(f, fs[i].literal), fs[i].time)
  {
    seq(|fs|, i requires 0 <= i < |fs| => Floundered(MapLiteral(f, fs[i].literal), fs[i].time))
  }

  function Positives(atoms: seq<Atom>): (r: seq<Literal>)
    ensures |r| == |atoms|
    ensures forall i :: 0 <= i < |atoms| ==> r[i] == Positive(atoms[i])
  {
    seq(|atoms|, i requires 0 <= i < |atoms| => Positive(atoms[i]))
  }

  /** Moves a subgoal to the floundered list, stamped with the strand's current answer time. */
  function FlounderSubgoal(e: ExClause, i: nat): ExClause
    requires i < |e.subgoals|
  {
    e.(subgoals := RemoveAt(e.subgoals, i), floundered := e.floundered + [Floundered(e.subgoals[i], e.answerTime)])
  }

  /** Plugs an answer into an ex-clause from which the answered subgoal has been removed. */
  function ApplyAnswer(e: ExClause, r: Resolvent, answer: AnswerSubst): ExClause {
    e.(subst := r.subst(e.subst),
       subgoals := MapLiterals(r.atom, e.subgoals) + Positives(r.goals),
       delayed := Map(r.atom, e.delayed) + Map(r.delayedAtom, answer.delayed),
       floundered := MapFloundered(r.atom, e.floundered))
  }

  function InitialStrand(c: Clause): Strand {
    Strand(ExClause(c.subst, c.ambiguous, c.subgoals, [], 0, []), None, 0)
  }

  function InitialStrands(cs: seq<Clause>): (r: seq<Strand>)
    ensures |r| == |cs|
    ensures forall i :: 0 <= i < |cs| ==> r[i] == InitialStrand(cs[i])
  {
    seq(|cs|, i requires 0 <= i < |cs| => InitialStrand(cs[i]))
  }

  // ----- Plain resolution -----

  /** Only positive literals. */
  ghost predicate Definite(ctx: Context) {
    forall g, i, k ::
      ctx.clauses(g).Some? && 0 <= i < |ctx.clauses(g).value| && 0 <= k < |ctx.clauses(g).value[i].subgoals| ==>
        ctx.clauses(g).value[i].subgoals[k].Positive?
  }

  function AtomOf(l: Literal): Atom {
    l.atom
  }

  function LiteralOf(f: Floundered): Literal {
    f.literal
  }

  /** `subst` and the goals `open` come from a clause for `g`. */
  ghost predicate FromClause(ctx: Context, g: TableGoal, subst: Subst, open: seq<Atom>) {
    && ctx.clauses(g).Some?
    && exists i :: 0 <= i < |ctx.clauses(g).value| && ClauseIs(ctx.clauses(g).value[i], subst, open)
  }

  ghost predicate ClauseIs(c: Clause, subst: Subst, open: seq<Atom>) {
    && !c.ambiguous
    && c.subst == subst
    && multiset(Map(AtomOf, c.subgoals)) == multiset(open)
  }

  ghost predicate Coinductive(ctx: Context, a: Atom) {
    ctx.tableFor(Positive(a)).Some? && ctx.coinductive(ctx.tableFor(Positive(a)).value)
  }

  /** Some resolution step turns the open goal `a` into `b`. */
  ghost predicate Becomes(ctx: Context, a: Atom, b: Atom) {
    exists atom, g, answer ::
      ctx.resolve(atom, g, answer).Some? && BecomesBy(ctx.resolve(atom, g, answer).value, a, b)
  }

  ghost predicate BecomesBy(r: Resolvent, a: Atom, b: Atom) {
    b == r.atom(a) || b == r.delayedAtom(a)
  }

  /**
    The goal of a coinductive table, or what resolution has made of one: it may be assumed while it is being proved.
   */
  least predicate Assumable(ctx: Context, a: Atom) {
    Coinductive(ctx, a) || exists b :: Becomes(ctx, b, a) && Assumable(ctx, b)
  }

  ghost predicate AllAssumable(ctx: Context, atoms: seq<Atom>) {
    forall a :: a in atoms ==> Assumable(ctx, a)
  }

  /**
    Resolving the `i`-th of the open goals `open0` with an answer, itself subject to assumptions, yields `subst` and
    `open`.
   */
  ghost predicate ResolvesTo(ctx: Context, subst0: Subst, open0: seq<Atom>, i: nat, answer: AnswerSubst, subst: Subst,
                             open: seq<Atom>) {
    && i < |open0|
    && ctx.tableFor(Positive(open0[i])).Some?
    && var r := ctx.resolve(open0[i], ctx.tableFor(Positive(open0[i])).value, answer);
       && r.Some?
       && subst == r.value.subst(subst0)
       && multiset(open) == multiset(Resolved(r.value, open0, i, answer))
  }

  ghost function Resolved(r: Resolvent, open0: seq<Atom>, i: nat, answer: AnswerSubst): seq<Atom>
    requires i < |open0|
  {
    Map(r.atom, RemoveAt(open0, i)) + r.goals + Map(r.delayedAtom, answer.delayed)
  }

  /** An assumption that is the goal itself is settled by coinduction. */
  ghost predicate Closes(ctx: Context, g: TableGoal, open0: seq<Atom>, a: Atom, open: seq<Atom>) {
    ctx.canonical(a) == g && Assumable(ctx, a) && multiset(open0) == multiset(open) + multiset{a}
  }

  /**
    Resolution without tables, strands, stack or modes: starting from a clause for `g`, open goals are
    resolved in any order with answers that are themselves derivable, leaving `open` to be proved.
    Answers may leave coinductive goals open, which are then open goals of whoever uses them.
   */
  least predicate Derives(ctx: Context, g: TableGoal, subst: Subst, open: seq<Atom>) {
    || FromClause(ctx, g, subst, open)
    || (exists subst0: Subst, open0: seq<Atom>, i: nat, answer: AnswerSubst ::
          && ResolvesTo(ctx, subst0, open0, i, answer, subst, open)
          && AllAssumable(ctx, answer.delayed)
          && Derives(ctx, g, subst0, open0)
          && Derives(ctx, ctx.tableFor(Positive(open0[i])).value, answer.subst, answer.delayed))
    || (exists open0: seq<Atom>, a: Atom :: Closes(ctx, g, open0, a, open) && Derives(ctx, g, subst, open0))
  }

  ghost predicate Derivable(ctx: Context, g: TableGoal, answer: Subst) {
    Derives(ctx, g, answer, [])
  }

  lemma DerivesPermutation(ctx: Context, g: TableGoal, subst: Subst, open: seq<Atom>, open': seq<Atom>)
    requires Derives(ctx, g, subst, open) && multiset(open) == multiset(open')
    ensures Derives(ctx, g, subst, open')
  {
    if FromClause(ctx, g, subst, open) {
      var i :| 0 <= i < |ctx.clauses(g).value| && ClauseIs(ctx.clauses(g).value[i], subst, open);
      assert ClauseIs(ctx.clauses(g).value[i], subst, open');
    } else if open0, a :| Closes(ctx, g, open0, a, open) && Derives(ctx, g, subst, open0) {
      assert Closes(ctx, g, open0, a, open');
    } else {
      var subst0: Subst, open0: seq<Atom>, i: nat, answer: AnswerSubst :|
        && ResolvesTo(ctx, subst0, open0, i, answer, subst, open)
        && AllAssumable(ctx, answer.delayed)
        && Derives(ctx, g, subst0, open0)
        && Derives(ctx, ctx.tableFor(Positive(open0[i])).value, answer.subst, answer.delayed);
      assert ResolvesTo(ctx, subst0, open0, i, answer, subst, open');
    }
  }

  /** Every literal a strand still has to prove, floundered or not. */
  ghost function Literals(e: ExClause): seq<Literal> {
    e.subgoals + Map(LiteralOf, e.floundered)
  }

  /** Every goal a strand still has to prove, delayed ones included. */
  ghost function OpenAtoms(e: ExClause): seq<Atom> {
    Map(AtomOf, Literals(e)) + e.delayed
  }

  /** A strand that is not ambiguous is a step of a derivation for its table's goal. */
  ghost predicate ExClauseSound(ctx: Context, g: TableGoal, e: ExClause) {
    && (forall l :: l in Literals(e) ==> l.Positive?)
    && AllAssumable(ctx, e.delayed)
    && (!e.ambiguous ==> Derives(ctx, g, e.subst, OpenAtoms(e)))
  }

  /** Reordering literals between the two lists, or giving up on certainty, keeps a strand sound. */
  lemma SoundPermutation(ctx: Context, g: TableGoal, e: ExClause, e': ExClause)
    requires ExClauseSound(ctx, g, e)
    requires multiset(Literals(e)) == multiset(Literals(e'))
    requires e'.subst == e.subst && e'.delayed == e.delayed && (e.ambiguous ==> e'.ambiguous)
    ensures ExClauseSound(ctx, g, e')
  {
    forall l | l in Literals(e')
      ensures l.Positive?
    {
      assert l in multiset(Literals(e'));
    }
    if !e'.ambiguous {
      MapPermutation(AtomOf, Literals(e), Literals(e'));
      DerivesPermutation(ctx, g, e.subst, OpenAtoms(e), OpenAtoms(e'));
    }
  }

  lemma InitialStrandSound(ctx: Context, g: TableGoal, i: nat)
    requires Definite(ctx) && ctx.clauses(g).Some? && i < |ctx.clauses(g).value|
    ensures ExClauseSound(ctx, g, InitialStrand(ctx.clauses(g).value[i]).exClause)
  {
    var c := ctx.clauses(g).value[i];
    var e := InitialStrand(c).exClause;
    assert Literals(e) == c.subgoals;
    if !c.ambiguous {
      assert OpenAtoms(e) == Map(AtomOf, c.subgoals);
      assert ClauseIs(c, c.subst, OpenAtoms(e));
    }
  }

  lemma MapConcat<T, U>(f: T -> U, a: seq<T>, b: seq<T>)
    ensures Map(f, a + b) == Map(f, a) + Map(f, b)
  {
  }

  lemma AtomsOfLiterals(f: Atom -> Atom, ls: seq<Literal>)
    ensures Map(AtomOf, MapLiterals(f, ls)) == Map(f, Map(AtomOf, ls))
  {
  }

  lemma LiteralsAfterAnswer(e: ExClause, r: Resolvent, answer: AnswerSubst)
    ensures Literals(ApplyAnswer(e, r, answer)) ==
            MapLiterals(r.atom, e.subgoals) + Positives(r.goals) + MapLiterals(r.atom, Map(LiteralOf, e.floundered))
  {
    assert Map(LiteralOf, MapFloundered(r.atom, e.floundered)) == MapLiterals(r.atom, Map(LiteralOf, e.floundered));
  }

  lemma AtomsApplied(e: ExClause, r: Resolvent, answer: AnswerSubst)
    ensures multiset(Map(AtomOf, Literals(ApplyAnswer(e, r, answer)))) ==
            multiset(Map(r.atom, Map(AtomOf, Literals(e))) + r.goals)
  {
    hide ApplyAnswer, Map;
    var subgoals, floundered := e.subgoals, Map(LiteralOf, e.floundered);
    LiteralsAfterAnswer(e, r, answer);
    MapConcat(AtomOf, MapLiterals(r.atom, subgoals) + Positives(r.goals), MapLiterals(r.atom, floundered));
    MapConcat(AtomOf, MapLiterals(r.atom, subgoals), Positives(r.goals));
    AtomsOfLiterals(r.atom, subgoals);
    AtomsOfLiterals(r.atom, floundered);
    assert Map(AtomOf, Positives(r.goals)) == r.goals;
    MapConcat(AtomOf, subgoals, floundered);
    MapConcat(r.atom, Map(AtomOf, subgoals), Map(AtomOf, floundered));
  }

  /** What is left to prove once the last subgoal has been answered. */
  lemma AtomsAfterAnswer(e: ExClause, r: Resolvent, answer: AnswerSubst)
    requires |e.subgoals| > 0
    ensures var n := |e.subgoals| - 1;
            var e1 := ApplyAnswer(e.(subgoals := RemoveAt(e.subgoals, n)), r, answer);
            multiset(OpenAtoms(e1)) == multiset(Resolved(r, OpenAtoms(e), n, answer))
  {
    var n := |e.subgoals| - 1;
    var rest := e.(subgoals := RemoveAt(e.subgoals, n));
    var e1 := ApplyAnswer(rest, r, answer);
    assert e1.delayed == Map(r.atom, e.delayed) + Map(r.delayedAtom, answer.delayed);
    hide ApplyAnswer;
    AtomsApplied(rest, r, answer);
    assert Literals(rest) == RemoveAt(Literals(e), n);
    assert Map(AtomOf, Literals(rest)) == RemoveAt(Map(AtomOf, Literals(e)), n);
    assert RemoveAt(OpenAtoms(e), n) == Map(AtomOf, Literals(rest)) + e.delayed;
    MapConcat(r.atom, Map(AtomOf, Literals(rest)), e.delayed);
  }

  lemma AssumableStays(ctx: Context, atom: Atom, h: TableGoal, e: ExClause, r: Resolvent, answer: AnswerSubst)
    requires ctx.resolve(atom, h, answer) == Some(r)
    requires AllAssumable(ctx, e.delayed) && AllAssumable(ctx, answer.delayed)
    ensures AllAssumable(ctx, ApplyAnswer(e, r, answer).delayed)
  {
    var delayed := ApplyAnswer(e, r, answer).delayed;
    forall k | 0 <= k < |delayed|
      ensures Assumable(ctx, delayed[k])
    {
      var b := if k < |e.delayed| then e.delayed[k] else answer.delayed[k - |e.delayed|];
      assert b in e.delayed || b in answer.delayed;
      assert BecomesBy(ctx.resolve(atom, h, answer).value, b, delayed[k]);
      assert Becomes(ctx, b, delayed[k]);
    }
  }

  lemma PositiveAfterAnswer(e: ExClause, r: Resolvent, answer: AnswerSubst)
    requires |e.subgoals| > 0 && forall l :: l in Literals(e) ==> l.Positive?
    ensures var e1 := ApplyAnswer(e.(subgoals := RemoveAt(e.subgoals, |e.subgoals| - 1)), r, answer);
            forall l :: l in Literals(e1) ==> l.Positive?
  {
    var n := |e.subgoals| - 1;
    var e1 := ApplyAnswer(e.(subgoals := RemoveAt(e.subgoals, n)), r, answer);
    forall k | 0 <= k < |Literals(e1)|
      ensures Literals(e1)[k].Positive?
    {
      if k < n {
        assert Literals(e)[k] in Literals(e);
      } else if k >= n + |r.goals| {
        assert Literals(e)[k - |r.goals| + 1] in Literals(e);
      }
    }
  }

  /** Merging an answer of the selected (last) subgoal is a resolution step. */
  lemma ApplyAnswerSound(ctx: Context, g: TableGoal, e: ExClause, h: TableGoal, answer: Answer, r: Resolvent, time: nat)
    requires ExClauseSound(ctx, g, e) && |e.subgoals| > 0
    requires var l := e.subgoals[|e.subgoals| - 1];
             && ctx.tableFor(l) == Some(h)
             && ctx.resolve(l.atom, h, answer.subst) == Some(r)
    requires AllAssumable(ctx, answer.subst.delayed)
    requires !answer.ambiguous ==> Derives(ctx, h, answer.subst.subst, answer.subst.delayed)
    ensures var e1 := ApplyAnswer(e.(subgoals := RemoveAt(e.subgoals, |e.subgoals| - 1)), r, answer.subst);
            ExClauseSound(ctx, g, e1.(ambiguous := e1.ambiguous || answer.ambiguous, answerTime := time))
  {
    var n := |e.subgoals| - 1;
    var l := e.subgoals[n];
    var rest := e.(subgoals := RemoveAt(e.subgoals, n));
    var e1 := ApplyAnswer(rest, r, answer.subst);
    var e2 := e1.(ambiguous := e1.ambiguous || answer.ambiguous, answerTime := time);
    assert l in Literals(e);
    PositiveAfterAnswer(e, r, answer.subst);
    AssumableStays(ctx, l.atom, h, rest, r, answer.subst);
    assert Literals(e2) == Literals(e1) && OpenAtoms(e2) == OpenAtoms(e1);
    if !e.ambiguous && !answer.ambiguous {
      AtomsAfterAnswer(e, r, answer.subst);
      assert OpenAtoms(e)[n] == l.atom;
      assert Positive(l.atom) == l;
      assert ResolvesTo(ctx, e.subst, OpenAtoms(e), n, answer.subst, e1.subst, OpenAtoms(e2));
    }
  }

  lemma CloseOne(ctx: Context, g: TableGoal, subst: Subst, open0: seq<Atom>, a: Atom, open: seq<Atom>)
    requires Closes(ctx, g, open0, a, open) && Derives(ctx, g, subst, open0)
    ensures Derives(ctx, g, subst, open)
  {
  }

  /** Settling the assumptions that are the goal itself. */
  lemma {:induction false} CloseAll(ctx: Context, g: TableGoal, subst: Subst, kept: seq<Atom>, delayed: seq<Atom>)
    requires Derives(ctx, g, subst, kept + delayed) && AllAssumable(ctx, delayed)
    ensures Derives(ctx, g, subst, kept + FilterDelayed(ctx, g, delayed))
    decreases |delayed|
  {
    hide Derives, Assumable;
    if delayed != [] {
      var a, rest := delayed[0], delayed[1..];
      assert kept + delayed == kept + [a] + rest;
      if ctx.canonical(a) == g {
        CloseOne(ctx, g, subst, kept + delayed, a, kept + rest);
        CloseAll(ctx, g, subst, kept, rest);
        assert kept + FilterDelayed(ctx, g, rest) == kept + FilterDelayed(ctx, g, delayed);
      } else {
        CloseAll(ctx, g, subst, kept + [a], rest);
        assert kept + [a] + FilterDelayed(ctx, g, rest) == kept + FilterDelayed(ctx, g, delayed);
      }
    }
  }

  /** The delayed subgoals of an answer: trivial cycles back to the table's own goal are settled. */
  function FilterDelayed(ctx: Context, goal: TableGoal, delayed: seq<Atom>): seq<Atom> {
    if delayed == [] then []
    else (if ctx.canonical(delayed[0]) != goal then [delayed[0]] else []) + FilterDelayed(ctx, goal, delayed[1..])
  }

  /** Exactly the trivial cycles are gone. */
  lemma {:induction false} FilteredExactly(ctx: Context, goal: TableGoal, delayed: seq<Atom>, a: Atom)
    ensures multiset(FilterDelayed(ctx, goal, delayed))[a] ==
            if ctx.canonical(a) == goal then 0 else multiset(delayed)[a]
  {
    if delayed != [] {
      FilteredExactly(ctx, goal, delayed[1..], a);
      assert delayed == [delayed[0]] + delayed[1..];
    }
  }
}
