/**
  What plain resolution means: if clauses and unification are sound, every answer that
  can be derived holds in every interpretation closed under the clauses.
 */
module SlgSemantics {
  import opened Prelude
  import opened SlgContext

  /** Values for the variables of a strand or an answer. */
  type Valuation(!new)

  /** Goals without variables. */
  type Fact(==, !new)

  /** The facts that goals denote once their variables have values. */
  datatype Meaning = Meaning(
    atom: (Atom, Valuation) -> Fact,                        // an open goal of a strand
    answer: (TableGoal, Subst, Valuation) -> Fact)          // a table's goal under a substitution

  type Interpretation = iset<Fact>

  ghost predicate AllHold(m: Meaning, i: Interpretation, open: seq<Atom>, v: Valuation) {
    forall k :: 0 <= k < |open| ==> m.atom(open[k], v) in i
  }

  /** For all values of the variables, the goal holds if everything open does. */
  ghost predicate Implied(m: Meaning, i: Interpretation, g: TableGoal, subst: Subst, open: seq<Atom>) {
    forall v :: AllHold(m, i, open, v) ==> m.answer(g, subst, v) in i
  }

  /** The clauses for each goal are true. */
  ghost predicate ClosedUnderClauses(ctx: Context, m: Meaning, i: Interpretation) {
    forall g, k :: ctx.clauses(g).Some? && 0 <= k < |ctx.clauses(g).value| && !ctx.clauses(g).value[k].ambiguous ==>
                     Implied(m, i, g, ctx.clauses(g).value[k].subst, Map(AtomOf, ctx.clauses(g).value[k].subgoals))
  }

  /** The valuation `v0` before a resolution step corresponds to `v` after it. */
  ghost predicate Corresponds(m: Meaning, r: Resolvent, v0: Valuation, v: Valuation) {
    && (forall g, s :: m.answer(g, r.subst(s), v) == m.answer(g, s, v0))
    && (forall a :: m.atom(r.atom(a), v) == m.atom(a, v0))
  }

  /**
    Unifying an open goal with an answer of its table is sound: values for the result are values for the strand,
    and if the answer holds and the goals that unification leaves over hold, so does the open goal.
   */
  ghost predicate SoundResolution(ctx: Context, m: Meaning, i: Interpretation) {
    forall a, h, answer, v ::
      ctx.tableFor(Positive(a)) == Some(h) && ctx.resolve(a, h, AnswerSubst(answer, [])).Some? ==>
        SoundStep(ctx, m, i, a, h, answer, ctx.resolve(a, h, AnswerSubst(answer, [])).value, v)
  }

  ghost predicate SoundStep(ctx: Context, m: Meaning, i: Interpretation, a: Atom, h: TableGoal, answer: Subst,
                            r: Resolvent, v: Valuation) {
    exists v0 ::
      && Corresponds(m, r, v0, v)
      && (Implied(m, i, h, answer, []) && AllHold(m, i, r.goals, v) ==> m.atom(a, v0) in i)
  }

  lemma HoldPermutation(m: Meaning, i: Interpretation, open: seq<Atom>, open': seq<Atom>, v: Valuation)
    requires multiset(open) == multiset(open') && AllHold(m, i, open, v)
    ensures AllHold(m, i, open', v)
  {
    forall k | 0 <= k < |open'|
      ensures m.atom(open'[k], v) in i
    {
      assert open'[k] in multiset(open');
      assert open'[k] in open;
    }
  }

  /** A clause resolved with nothing yet. */
  lemma ClauseImplied(ctx: Context, m: Meaning, i: Interpretation, g: TableGoal, subst: Subst, open: seq<Atom>)
    requires ClosedUnderClauses(ctx, m, i) && FromClause(ctx, g, subst, open)
    ensures Implied(m, i, g, subst, open)
  {
    var k :| 0 <= k < |ctx.clauses(g).value| && ClauseIs(ctx.clauses(g).value[k], subst, open);
    var c := ctx.clauses(g).value[k];
    assert Implied(m, i, g, c.subst, Map(AtomOf, c.subgoals));
    forall v | AllHold(m, i, open, v)
      ensures m.answer(g, subst, v) in i
    {
      HoldPermutation(m, i, open, Map(AtomOf, c.subgoals), v);
    }
  }

  /** One resolution step keeps the implication true. */
  lemma StepImplied(ctx: Context, m: Meaning, i: Interpretation, g: TableGoal, subst0: Subst, open0: seq<Atom>, n: nat,
                    answer: Subst,
                    subst: Subst, open: seq<Atom>)
    requires SoundResolution(ctx, m, i) && ResolvesTo(ctx, subst0, open0, n, AnswerSubst(answer, []), subst, open)
    requires Implied(m, i, g, subst0, open0) && Implied(m, i, ctx.tableFor(Positive(open0[n])).value, answer, [])
    ensures Implied(m, i, g, subst, open)
  {
    var a, h := open0[n], ctx.tableFor(Positive(open0[n])).value;
    var r := ctx.resolve(a, h, AnswerSubst(answer, [])).value;
    var rest := RemoveAt(open0, n);
    forall v | AllHold(m, i, open, v)
      ensures m.answer(g, subst, v) in i
    {
      assert Resolved(r, open0, n, AnswerSubst(answer, [])) == Map(r.atom, rest) + r.goals;
      HoldPermutation(m, i, open, Map(r.atom, rest) + r.goals, v);
      assert SoundStep(ctx, m, i, a, h, answer, r, v);
      var v0 :| Corresponds(m, r, v0, v)
        && (Implied(m, i, h, answer, []) && AllHold(m, i, r.goals, v) ==> m.atom(a, v0) in i);
      GoalsHold(m, i, Map(r.atom, rest), r.goals, v);
      RestHolds(m, i, r, open0, n, v0, v);
    }
  }

  lemma GoalsHold(m: Meaning, i: Interpretation, a: seq<Atom>, b: seq<Atom>, v: Valuation)
    requires AllHold(m, i, a + b, v)
    ensures AllHold(m, i, a, v) && AllHold(m, i, b, v)
  {
    forall k | 0 <= k < |a|
      ensures m.atom(a[k], v) in i
    {
      assert (a + b)[k] == a[k];
    }
    forall k | 0 <= k < |b|
      ensures m.atom(b[k], v) in i
    {
      assert (a + b)[|a| + k] == b[k];
    }
  }

  lemma RestHolds(m: Meaning, i: Interpretation, r: Resolvent, open0: seq<Atom>, n: nat, v0: Valuation, v: Valuation)
    requires n < |open0| && Corresponds(m, r, v0, v) && m.atom(open0[n], v0) in i
    requires AllHold(m, i, Map(r.atom, RemoveAt(open0, n)), v)
    ensures AllHold(m, i, open0, v0)
  {
    var rest := RemoveAt(open0, n);
    forall k | 0 <= k < |open0|
      ensures m.atom(open0[k], v0) in i
    {
      if k != n {
        var j := if k < n then k else k - 1;
        assert rest[j] == open0[k] && Map(r.atom, rest)[j] == r.atom(rest[j]);
      }
    }
  }

  /** No goal is coinductive. */
  ghost predicate Inductive(ctx: Context) {
    forall g :: !ctx.coinductive(g)
  }

  least lemma NothingAssumable(ctx: Context, a: Atom)
    requires Inductive(ctx) && Assumable(ctx, a)
    ensures false
  {
    if !Coinductive(ctx, a) {
      var b :| Becomes(ctx, b, a) && Assumable#[_k - 1](ctx, b);
      NothingAssumable(ctx, b);
    }
  }

  /** Everything derived is implied. */
  least lemma DerivedIsImplied(ctx: Context, m: Meaning, i: Interpretation, g: TableGoal, subst: Subst, open: seq<Atom>)
    requires Inductive(ctx) && ClosedUnderClauses(ctx, m, i) && SoundResolution(ctx, m, i)
    requires Derives(ctx, g, subst, open)
    ensures Implied(m, i, g, subst, open)
  {
    if FromClause(ctx, g, subst, open) {
      ClauseImplied(ctx, m, i, g, subst, open);
    } else if open0, a :| Closes(ctx, g, open0, a, open) && Derives#[_k - 1](ctx, g, subst, open0) {
      NothingAssumable(ctx, a);
    } else {
      var subst0: Subst, open0: seq<Atom>, n: nat, answer: AnswerSubst :|
        && ResolvesTo(ctx, subst0, open0, n, answer, subst, open)
        && AllAssumable(ctx, answer.delayed)
        && Derives#[_k - 1](ctx, g, subst0, open0)
        && Derives#[_k - 1](ctx, ctx.tableFor(Positive(open0[n])).value, answer.subst, answer.delayed);
      if answer.delayed != [] {
        assert answer.delayed[0] in answer.delayed;
        NothingAssumable(ctx, answer.delayed[0]);
      }
      DerivedIsImplied(ctx, m, i, g, subst0, open0);
      DerivedIsImplied(ctx, m, i, ctx.tableFor(Positive(open0[n])).value, answer.subst, answer.delayed);
      assert answer == AnswerSubst(answer.subst, []);
      StepImplied(ctx, m, i, g, subst0, open0, n, answer.subst, subst, open);
    }
  }

  /**
    Every derivable answer holds, whatever values its variables take, in every interpretation closed under the clauses.
   */
  lemma DerivableHolds(ctx: Context, m: Meaning, i: Interpretation, g: TableGoal, answer: Subst, v: Valuation)
    requires Inductive(ctx) && ClosedUnderClauses(ctx, m, i) && SoundResolution(ctx, m, i) && Derivable(ctx, g, answer)
    ensures m.answer(g, answer, v) in i
  {
    DerivedIsImplied(ctx, m, i, g, answer, []);
    assert AllHold(m, i, [], v);
  }
}
