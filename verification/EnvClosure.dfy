/**
  The clauses that follow from an environment: rounds of elaboration until nothing
  new appears compute the least set closed under elaboration.
 */
module EnvClosure {
  import opened Prelude

  type Clause(==, !new)

  /** What elaborating one clause adds. */
  type Elaboration = Clause -> set<Clause>

  ghost predicate Closed(step: Elaboration, s: set<Clause>) {
    forall c, d :: c in s && d in step(c) ==> d in s
  }

  /** `s` is the least closed set with these clauses. */
  ghost predicate LeastClosed(step: Elaboration, environment: set<Clause>, s: set<Clause>) {
    && environment <= s
    && Closed(step, s)
    && forall t: set<Clause> :: environment <= t && Closed(step, t) ==> s <= t
  }

  /** Elaborates all clauses of a round. */
  method ElaborateEnvClauses(step: Elaboration, clauses: set<Clause>) returns (out: set<Clause>)
    ensures forall d :: d in out <==> exists c :: c in clauses && d in step(c)
  {
    out := {};
    var rest := clauses;
    while rest != {}
      invariant rest <= clauses
      invariant forall d :: d in out <==> exists c :: c in clauses - rest && d in step(c)
      decreases |rest|
    {
      var c :| c in rest;
      out := out + step(c);
      rest := rest - {c};
    }
  }

  /** Everything found so far is needed, and everything but the last round has been elaborated. */
  ghost predicate Progress(step: Elaboration, environment: set<Clause>, closure: set<Clause>, lastRound: set<Clause>) {
    && environment <= closure
    && lastRound <= closure
    && (forall c, d :: c in closure - lastRound && d in step(c) ==> d in closure)
    && (forall t: set<Clause> :: environment <= t && Closed(step, t) ==> closure <= t)
  }

  lemma RoundProgress(step: Elaboration, environment: set<Clause>, closure: set<Clause>, lastRound: set<Clause>,
                      next: set<Clause>)
    requires Progress(step, environment, closure, lastRound)
    requires forall d :: d in next <==> exists c :: c in lastRound && d in step(c)
    ensures Progress(step, environment, closure + next, next - closure)
  {
    forall t: set<Clause> | environment <= t && Closed(step, t)
      ensures closure + next <= t
    {
      assert closure <= t;
    }
    forall c, d | c in closure + next - (next - closure) && d in step(c)
      ensures d in closure + next
    {
      assert c in closure;
      if c in lastRound {
        assert d in next;
      }
    }
  }

  /** `bound` witnesses that the closure is finite, without which the rounds would never end. */
  method ProgramClausesForEnv(step: Elaboration, environment: set<Clause>, ghost bound: set<Clause>)
    returns (closure: set<Clause>)
    requires environment <= bound && Closed(step, bound)
    ensures LeastClosed(step, environment, closure)
  {
    closure := environment;
    var lastRound := environment;
    while lastRound != {}
      invariant Progress(step, environment, closure, lastRound)
      decreases |bound - closure|, |lastRound|
    {
      hide Progress;
      var next := ElaborateEnvClauses(step, lastRound);
      RoundProgress(step, environment, closure, lastRound, next);
      RoundShrinks(step, environment, closure, lastRound, next, bound);
      lastRound := next - closure;
      closure := closure + next;
    }
  }

  lemma RoundShrinks(step: Elaboration, environment: set<Clause>, closure: set<Clause>, lastRound: set<Clause>,
                     next: set<Clause>, bound: set<Clause>)
    requires Progress(step, environment, closure, lastRound) && lastRound != {}
    requires forall d :: d in next <==> exists c :: c in lastRound && d in step(c)
    requires environment <= bound && Closed(step, bound)
    ensures next <= closure ==> next - closure == {}
    ensures !(next <= closure) ==> |bound - (closure + next)| < |bound - closure|
    ensures bound - (closure + next) <= bound - closure
  {
    assert closure <= bound;
    if d :| d in next && d !in closure {
      var c :| c in lastRound && d in step(c);
      assert d in bound;
      SmallerSet(bound - (closure + next), bound - closure, d);
    }
  }

  lemma SmallerSet(s: set<Clause>, t: set<Clause>, d: Clause)
    requires s <= t && d in t && d !in s
    ensures |s| < |t|
  {
    assert s <= t - {d};
    SubsetSize(s, t - {d});
  }
}
