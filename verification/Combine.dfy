/**
  Combining the solutions that different clauses give for one goal: solutions form a
  semilattice, and the loop over the clauses computes a join whatever their order.
 */
module Combine {
  import opened Prelude

  type Subst(==, !new)
  type Constraints(==, !new)
  type Inputs(==, !new)

  datatype Guidance = Definite(subst: Subst) | Suggested(subst: Subst) | Unknown

  datatype Solution = Unique(subst: Subst, constraints: Constraints) | Ambig(guidance: Guidance)

  datatype Priority = High | Low

  function IntoGuidance(s: Solution): Guidance {
    match s
    case Unique(subst, _) => Definite(subst)
    case Ambig(guidance) => guidance
  }

  function Combined(a: Solution, b: Solution): Solution {
    if a == b then a else
      match (IntoGuidance(a), IntoGuidance(b))
      case (Definite(s), Definite(t)) => Ambig(if s == t then Definite(s) else Unknown)
      case (Suggested(s), Suggested(t)) => Ambig(if s == t then Suggested(s) else Unknown)
      case _ => Ambig(Unknown)
  }

  /** `b` says no more than `a`. */
  ghost predicate Below(a: Solution, b: Solution) {
    || a == b
    || b == Ambig(Unknown)
    || (a.Unique? && b == Ambig(Definite(a.subst)))
  }

  /** `r` says as much as possible while saying no more than any member of `s`. */
  ghost predicate IsJoin(r: Solution, s: set<Solution>) {
    && (forall a :: a in s ==> Below(a, r))
    && (forall u :: (forall a :: a in s ==> Below(a, u)) ==> Below(r, u))
  }

  /** Solutions are partially ordered, and combining two is their join. */
  lemma CombinedIsJoin(a: Solution, b: Solution, c: Solution)
    ensures Below(a, a) && (Below(a, b) && Below(b, c) ==> Below(a, c)) && (Below(a, b) && Below(b, a) ==> a == b)
    ensures IsJoin(Combined(a, b), {a, b})
  {
    var r := Combined(a, b);
    forall u | forall x :: x in {a, b} ==> Below(x, u)
      ensures Below(r, u)
    {
      assert Below(a, u) && Below(b, u);
    }
  }

  lemma JoinUnique(r: Solution, r': Solution, s: set<Solution>)
    requires IsJoin(r, s) && IsJoin(r', s)
    ensures r == r'
  {
    CombinedIsJoin(r, r', r);
  }

  lemma JoinExtends(r: Solution, s: set<Solution>, b: Solution)
    requires IsJoin(r, s)
    ensures IsJoin(Combined(r, b), s + {b})
  {
    var r' := Combined(r, b);
    CombinedIsJoin(r, b, r');
    forall a | a in s + {b}
      ensures Below(a, r')
    {
      assert r in {r, b} && b in {r, b};
      if a in s {
        CombinedIsJoin(a, r, r');
      }
    }
    forall u | forall a :: a in s + {b} ==> Below(a, u)
      ensures Below(r', u)
    {
      assert forall a :: a in s ==> a in s + {b};
      assert b in s + {b};
      assert Below(r, u);
      assert forall x :: x in {r, b} ==> Below(x, u);
    }
  }

  // ----- Priorities -----

  /** A solution together with the priority of the clause it comes from. */
  datatype Ranked = Ranked(solution: Solution, priority: Priority)

  function ConstrainedSubst(s: Solution): Option<Subst> {
    match s
    case Unique(subst, _) => Some(subst)
    case Ambig(Definite(subst)) => Some(subst)
    case Ambig(Suggested(subst)) => Some(subst)
    case Ambig(Unknown) => None
  }

  /** The inputs of the goal once a solution has been applied to it; `inputs(None)` are those of the goal itself. */
  function CalculateInputs(inputs: Option<Subst> -> Inputs, s: Solution): Inputs {
    inputs(ConstrainedSubst(s))
  }

  /** The goal has the same inputs whatever its solution, as every goal but a projection has. */
  ghost predicate FixedInputs(inputs: Option<Subst> -> Inputs) {
    forall a, b :: inputs(a) == inputs(b)
  }

  /** Of a high- and a low-priority solution for the same inputs, the low one is dropped. */
  function WithPriorities(inputs: Option<Subst> -> Inputs, a: Ranked, b: Ranked): Ranked {
    if a.priority == b.priority then Ranked(Combined(a.solution, b.solution), a.priority)
    else
      var higher := if a.priority.High? then a.solution else b.solution;
      var lower := if a.priority.High? then b.solution else a.solution;
      if CalculateInputs(inputs, higher) == CalculateInputs(inputs, lower) then Ranked(higher, High)
        else Ranked(Combined(higher, lower), High)
  }

  /** All solutions combined, in the order of the clauses; a clause that fails contributes nothing. */
  ghost function CombineAll(inputs: Option<Subst> -> Inputs, results: seq<Option<Ranked>>): Option<Ranked> {
    if results == [] then None
    else
      var rest, last := CombineAll(inputs, results[..|results| - 1]), results[|results| - 1];
      if last.None? then rest
      else if rest.None? then last
      else Some(WithPriorities(inputs, rest.value, last.value))
  }

  ghost function Solutions(results: seq<Option<Ranked>>, priority: Priority): set<Solution> {
    set r | r in results && r.Some? && r.value.priority == priority :: r.value.solution
  }

  /** The solutions that count: those of high priority if there are any, and otherwise those of low priority. */
  ghost function Preferred(results: seq<Option<Ranked>>): set<Solution> {
    if Solutions(results, High) != {} then Solutions(results, High) else Solutions(results, Low)
  }

  lemma SolutionsExtend(results: seq<Option<Ranked>>, last: Option<Ranked>, priority: Priority)
    ensures Solutions(results + [last], priority) ==
            Solutions(results, priority) + if last.Some? && last.value.priority == priority then {last.value.solution}
              else {}
  {
    assert forall r :: r in results + [last] <==> r in results || r == last;
  }

  /** For a goal whose inputs do not depend on the solution, the combination is the join of the preferred solutions. */
  lemma {:induction false} CombineAllIsJoin(inputs: Option<Subst> -> Inputs, results: seq<Option<Ranked>>)
    requires FixedInputs(inputs)
    ensures var r := CombineAll(inputs, results);
            && (r.None? <==> Solutions(results, High) == {} && Solutions(results, Low) == {})
            && (r.Some? ==>
                  && IsJoin(r.value.solution, Preferred(results))
                  && (r.value.priority.High? <==> Solutions(results, High) != {}))
  {
    if results != [] {
      var rest, last := results[..|results| - 1], results[|results| - 1];
      assert results == rest + [last];
      CombineAllIsJoin(inputs, rest);
      SolutionsExtend(rest, last, High);
      SolutionsExtend(rest, last, Low);
      if last.Some? {
        var b := last.value;
        var r := CombineAll(inputs, rest);
        if r.None? {
          SingleJoin(b.solution);
          assert Preferred(results) == {b.solution};
        } else if r.value.priority == b.priority {
          JoinExtends(r.value.solution, Preferred(rest), b.solution);
          assert Preferred(results) == Preferred(rest) + {b.solution};
        } else if b.priority.High? {
          SingleJoin(b.solution);
          assert Preferred(results) == {b.solution};
        } else {
          assert Preferred(results) == Preferred(rest);
        }
      } else {
        assert Preferred(results) == Preferred(rest);
      }
    }
  }

  lemma SingleJoin(a: Solution)
    ensures IsJoin(a, {a})
  {
    CombinedIsJoin(a, a, a);
  }

  /** Once nothing is known at high priority, nothing changes any more. */
  lemma {:induction false} UnknownStays(inputs: Option<Subst> -> Inputs, results: seq<Option<Ranked>>, i: nat)
    requires i <= |results| && CombineAll(inputs, results[..i]) == Some(Ranked(Ambig(Unknown), High))
    ensures CombineAll(inputs, results) == Some(Ranked(Ambig(Unknown), High))
  {
    if i < |results| {
      var rest := results[..|results| - 1];
      assert rest[..i] == results[..i];
      UnknownStays(inputs, rest, i);
    } else {
      assert results[..i] == results;
    }
  }

  /** Goes through the clauses' results, stopping as soon as nothing can improve. */
  method SolveFromClauses(inputs: Option<Subst> -> Inputs, results: seq<Option<Ranked>>) returns (r: Option<Solution>)
    // stopping early makes no difference, for any goal
    ensures r == match CombineAll(inputs, results) case Some(s) => Some(s.solution) case None => None
    // for goals whose inputs are fixed, the outcome is determined by the set of preferred solutions
    ensures FixedInputs(inputs) ==>
              && (r.None? <==> forall k :: 0 <= k < |results| ==> results[k].None?)
              && (r.Some? ==> IsJoin(r.value, Preferred(results)))
  {
    var current: Option<Ranked> := None;
    for i := 0 to |results|
      invariant current == CombineAll(inputs, results[..i])
    {
      assert results[..i + 1][..i] == results[..i];
      if current == Some(Ranked(Ambig(Unknown), High)) {
        UnknownStays(inputs, results, i);
        NothingLost(inputs, results);
        return Some(Ambig(Unknown));
      }
      if results[i].Some? {
        current := match current
          case None => results[i]
          case Some(c) => Some(WithPriorities(inputs, c, results[i].value));
      }
    }
    assert results[..|results|] == results;
    NothingLost(inputs, results);
    r := match current case Some(s) => Some(s.solution) case None => None;
  }

  lemma NothingLost(inputs: Option<Subst> -> Inputs, results: seq<Option<Ranked>>)
    ensures FixedInputs(inputs) ==>
              var r := CombineAll(inputs, results);
              && (r.None? <==> forall k :: 0 <= k < |results| ==> results[k].None?)
              && (r.Some? ==> IsJoin(r.value.solution, Preferred(results)))
  {
    if FixedInputs(inputs) {
      CombineAllIsJoin(inputs, results);
      if k :| 0 <= k < |results| && results[k].Some? {
        assert results[k].value.solution in Solutions(results, results[k].value.priority);
      }
    }
  }

  /** The order of the clauses does not matter for such goals. */
  lemma AnyClauseOrder(inputs: Option<Subst> -> Inputs, results: seq<Option<Ranked>>, results': seq<Option<Ranked>>)
    requires FixedInputs(inputs)
    requires forall r :: r in results <==> r in results'
    ensures CombineAll(inputs, results) == CombineAll(inputs, results')
  {
    CombineAllIsJoin(inputs, results);
    CombineAllIsJoin(inputs, results');
    assert Solutions(results, High) == Solutions(results', High) && Solutions(results, Low) == Solutions(results', Low);
    if CombineAll(inputs, results).Some? {
      JoinUnique(CombineAll(inputs, results).value.solution, CombineAll(inputs, results').value.solution,
        Preferred(results));
    }
  }

  /** All clause orders lead to the same outcome. */
  ghost predicate OrderIrrelevant(inputs: Option<Subst> -> Inputs) {
    forall results, results' :: multiset(results) == multiset(results') ==>
        CombineAll(inputs, results) == CombineAll(inputs, results')
  }

  /**
    A definite and a suggested solution of low priority lose the inputs they share with a solution of high priority.
   */
  lemma InputsMakeOrderMatter(inputs: Option<Subst> -> Inputs, subst: Subst)
    requires inputs(Some(subst)) != inputs(None)
    ensures var s, t := Ambig(Definite(subst)), Ambig(Suggested(subst));
            var h, l, l' := Some(Ranked(s, High)), Some(Ranked(s, Low)), Some(Ranked(t, Low));
            CombineAll(inputs, [h, l, l']) == h && CombineAll(inputs, [l, l', h]) == Some(Ranked(Ambig(Unknown), High))
  {
    var s, t := Ambig(Definite(subst)), Ambig(Suggested(subst));
    var h, l, l' := Some(Ranked(s, High)), Some(Ranked(s, Low)), Some(Ranked(t, Low));
    assert [h, l, l'][..2] == [h, l] && [h, l][..1] == [h] && [l, l', h][..2] == [l, l'] && [l, l'][..1] == [l];
    assert CombineAll(inputs, [h]) == h && CombineAll(inputs, [l]) == l;
    assert CombineAll(inputs, [h, l]) == h;
    assert CombineAll(inputs, [l, l']) == Some(Ranked(Ambig(Unknown), Low));
  }

  /** The order of the clauses is irrelevant exactly for goals whose inputs do not depend on the solution. */
  lemma OrderIrrelevantExactly(inputs: Option<Subst> -> Inputs)
    ensures OrderIrrelevant(inputs) <==> FixedInputs(inputs)
  {
    if FixedInputs(inputs) {
      forall results, results' | multiset(results) == multiset(results')
        ensures CombineAll(inputs, results) == CombineAll(inputs, results')
      {
        SameMembers(results, results');
        AnyClauseOrder(inputs, results, results');
      }
    } else {
      var a, b :| inputs(a) != inputs(b);
      var subst := if inputs(a) != inputs(None) then a.value else b.value;
      InputsMakeOrderMatter(inputs, subst);
      var s, t := Ambig(Definite(subst)), Ambig(Suggested(subst));
      var h, l, l' := Some(Ranked(s, High)), Some(Ranked(s, Low)), Some(Ranked(t, Low));
      var one: seq<Option<Ranked>>, other: seq<Option<Ranked>> := [h, l, l'], [l, l', h];
      assert multiset(one) == multiset(other);
    }
  }

  lemma SameMembers(results: seq<Option<Ranked>>, results': seq<Option<Ranked>>)
    requires multiset(results) == multiset(results')
    ensures forall r :: r in results <==> r in results'
  {
    forall r
      ensures r in results <==> r in results'
    {
      assert r in results <==> r in multiset(results);
      assert r in results' <==> r in multiset(results');
    }
  }

  // ----- Priorities for any goal -----

  /** The substitution a solution comes with, if any: all but `Unknown` come with one. */
  ghost predicate Carries(s: Solution, subst: Option<Subst>) {
    if subst.None? then s == Ambig(Unknown)
    else
      || (exists c :: s == Unique(subst.value, c))
      || s == Ambig(Definite(subst.value))
      || s == Ambig(Suggested(subst.value))
  }

  lemma CarriesExactly(s: Solution, subst: Option<Subst>)
    ensures Carries(s, subst) <==> subst == ConstrainedSubst(s)
  {
    if s.Unique? {
      assert s == Unique(s.subst, s.constraints);
    }
  }

  /**
    A solution of high priority overrides one of low priority if and only if the goal has the same inputs under both
    substitutions; if not, nothing is known.
   */
  lemma HighOverridesExactly(inputs: Option<Subst> -> Inputs, h: Solution, s: Option<Subst>, l: Solution,
                             t: Option<Subst>)
    requires Carries(h, s) && Carries(l, t)
    ensures WithPriorities(inputs, Ranked(h, High), Ranked(l, Low)) ==
            Ranked(if inputs(s) == inputs(t) then h else Ambig(Unknown), High)
    ensures WithPriorities(inputs, Ranked(l, Low), Ranked(h, High)) ==
            Ranked(if inputs(s) == inputs(t) then h else Ambig(Unknown), High)
  {
    CarriesExactly(h, s);
    CarriesExactly(l, t);
  }

  ghost predicate NoneHigh(results: seq<Option<Ranked>>) {
    forall k :: 0 <= k < |results| && results[k].Some? ==> results[k].value.priority.Low?
  }

  /** The goal has the inputs it has under `s` also under the substitution of `l`. */
  ghost predicate SameInputs(inputs: Option<Subst> -> Inputs, s: Option<Subst>, l: Solution) {
    forall t :: Carries(l, t) ==> inputs(t) == inputs(s)
  }

  lemma SameInputsExactly(inputs: Option<Subst> -> Inputs, s: Option<Subst>, l: Solution)
    ensures SameInputs(inputs, s, l) <==> inputs(ConstrainedSubst(l)) == inputs(s)
  {
    forall t
      ensures Carries(l, t) <==> t == ConstrainedSubst(l)
    {
      CarriesExactly(l, t);
    }
  }

  /** Solutions of low priority alone are joined, whatever the inputs. */
  lemma {:induction false} LowAlone(inputs: Option<Subst> -> Inputs, results: seq<Option<Ranked>>)
    requires NoneHigh(results)
    ensures var r := CombineAll(inputs, results);
            && (r.None? <==> Solutions(results, Low) == {})
            && (r.Some? ==> r.value.priority.Low? && IsJoin(r.value.solution, Solutions(results, Low)))
  {
    if results != [] {
      var rest, last := results[..|results| - 1], results[|results| - 1];
      assert results == rest + [last];
      LowAlone(inputs, rest);
      SolutionsExtend(rest, last, Low);
      if last.Some? {
        var b := last.value;
        var r := CombineAll(inputs, rest);
        if r.None? {
          SingleJoin(b.solution);
          assert Solutions(results, Low) == {b.solution};
        } else {
          JoinExtends(r.value.solution, Solutions(rest, Low), b.solution);
        }
      }
    }
  }

  /**
    Whether the only solution of high priority stands: those of low priority before it have been joined by then, and
    those after it come one by one.
   */
  ghost predicate HighStands(inputs: Option<Subst> -> Inputs, s: Option<Subst>, before: seq<Option<Ranked>>,
                             after: seq<Option<Ranked>>) {
    && (forall j :: Solutions(before, Low) != {} && IsJoin(j, Solutions(before, Low)) ==> SameInputs(inputs, s, j))
    && (forall l :: l in Solutions(after, Low) ==> SameInputs(inputs, s, l))
  }

  /** One solution of high priority among any number of low priority, for any goal: it stands, or nothing is known. */
  lemma {:induction false} OneHigh(inputs: Option<Subst> -> Inputs, before: seq<Option<Ranked>>, h: Solution,
                                   s: Option<Subst>, after: seq<Option<Ranked>>)
    requires Carries(h, s) && NoneHigh(before) && NoneHigh(after)
    ensures CombineAll(inputs, before + [Some(Ranked(h, High))] + after) ==
            Some(Ranked(if HighStands(inputs, s, before, after) then h else Ambig(Unknown), High))
    decreases |after|
  {
    var high: seq<Option<Ranked>> := [Some(Ranked(h, High))];
    if after == [] {
      assert before + high + after == before + high;
      assert (before + high)[..|before|] == before;
      LowAlone(inputs, before);
      var r := CombineAll(inputs, before);
      if r.Some? {
        var j := r.value.solution;
        forall j' | IsJoin(j', Solutions(before, Low))
          ensures j' == j
        {
          JoinUnique(j, j', Solutions(before, Low));
        }
        HighOverridesExactly(inputs, h, s, j, ConstrainedSubst(j)) by { CarriesExactly(j, ConstrainedSubst(j)); }
        SameInputsExactly(inputs, s, j);
      }
    } else {
      var rest, last := after[..|after| - 1], after[|after| - 1];
      assert after == rest + [last];
      assert (before + high + after)[..|before| + |rest| + 1] == before + high + rest;
      OneHigh(inputs, before, h, s, rest);
      SolutionsExtend(rest, last, Low);
      if last.Some? {
        var l := last.value.solution;
        CarriesExactly(l, ConstrainedSubst(l));
        SameInputsExactly(inputs, s, l);
        var current := if HighStands(inputs, s, before, rest) then h else Ambig(Unknown);
        CarriesExactly(current, ConstrainedSubst(current));
        CarriesExactly(h, s);
        HighOverridesExactly(inputs, current, ConstrainedSubst(current), l, ConstrainedSubst(l));
      }
    }
  }
}
