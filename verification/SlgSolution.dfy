/**
  From answers to a solution: draws as many answers from a stream as it takes to tell
  whether there is none, exactly one, or what several of them have in common.
 */
module SlgSolution {
  import opened SlgContext
  import opened SlgInvariants
  import opened SlgEngine
  import opened SlgStream
  import A = Aggregate

  /** How substitutions of one goal are read as lists of terms of the kinds of its variables. */
  datatype Reading = Reading(term: Subst -> A.Term, kinds: seq<A.Kind>)

  /** Values have the kinds of their variables, and merging an answer into a strand instantiates its substitution. */
  ghost predicate Faithful(ctx: Context, reading: Reading) {
    && (forall s :: A.Fits(reading.term(s), A.List(reading.kinds)))
    && (forall atom, g, answer, s :: ctx.resolve(atom, g, answer).Some? ==>
          A.Instance(reading.term(ctx.resolve(atom, g, answer).value.subst(s)), reading.term(s)))
  }

  ghost function Finer(reading: Reading): (Subst, Subst) -> bool {
    (s, b) => A.Instance(reading.term(s), reading.term(b))
  }

  lemma TermFits(ctx: Context, reading: Reading, s: Subst)
    requires Faithful(ctx, reading)
    ensures A.Fits(reading.term(s), A.List(reading.kinds))
  {
  }

  lemma FinerIsRefining(ctx: Context, reading: Reading)
    requires Faithful(ctx, reading)
    ensures Refining(ctx, Finer(reading))
  {
    var finer := Finer(reading);
    forall s
      ensures finer(s, s)
    {
      A.InstanceReflexive(reading.term(s));
    }
    forall a, b, c | finer(a, b) && finer(b, c)
      ensures finer(a, c)
    {
      A.InstanceTransitive(reading.term(a), reading.term(b), reading.term(c));
    }
  }

  // ----- The answers that are merged -----

  /** The terms of the answers without delayed subgoals. */
  ghost function Seen(reading: Reading, answers: seq<Answer>): seq<A.Term> {
    if answers == [] then []
    else
      var last := answers[|answers| - 1];
      Seen(reading, answers[..|answers| - 1]) + if last.subst.delayed == [] then [reading.term(last.subst.subst)]
        else []
  }

  lemma {:induction false} SeenSkipped(reading: Reading, answers: seq<Answer>, from: nat, to: nat)
    requires from <= to <= |answers| && forall k :: from <= k < to ==> answers[k].subst.delayed != []
    ensures Seen(reading, answers[..to]) == Seen(reading, answers[..from])
  {
    if from < to {
      SeenSkipped(reading, answers, from, to - 1);
      assert answers[..to][..to - 1] == answers[..to - 1];
    }
  }

  /** `merged` are the terms of the answers handed out so far, unless the goal has floundered. */
  ghost predicate Drawn(reading: Reading, table: Table, answer: nat, merged: seq<A.Term>) {
    && A.AllFit(merged, reading.kinds)
    && (!table.floundered ==> answer <= |table.answers| && merged == Seen(reading, table.answers[..answer]))
  }

  lemma NothingDrawn(reading: Reading, table: Table)
    ensures Drawn(reading, table, 0, [])
  {
  }

  lemma DrawnGrows(reading: Reading, tables: seq<Table>, tables': seq<Table>, t: nat, answer: nat, answer': nat,
                   merged: seq<A.Term>)
    requires TablesGrow(tables, tables') && t < |tables| && Drawn(reading, tables[t], answer, merged)
    requires Skipped(tables'[t], answer, answer')
    ensures Drawn(reading, tables'[t], answer', merged)
  {
    assert Grows(tables[t], tables'[t]);
    if !tables'[t].floundered {
      assert tables'[t].answers[..answer] == tables[t].answers[..answer];
      SeenSkipped(reading, tables'[t].answers, answer, answer');
    }
  }

  lemma DrawnNext(ctx: Context, reading: Reading, table: Table, answer: nat, merged: seq<A.Term>)
    requires Faithful(ctx, reading) && Drawn(reading, table, answer, merged)
    requires answer < |table.answers| && table.answers[answer].subst.delayed == []
    ensures Drawn(reading, table, answer + 1, merged + [reading.term(table.answers[answer].subst.subst)])
  {
    assert table.answers[..answer + 1][..answer] == table.answers[..answer];
  }

  lemma DrawnFloundered(reading: Reading, table: Table, answer: nat, merged: seq<A.Term>)
    requires table.floundered && A.AllFit(merged, reading.kinds)
    ensures Drawn(reading, table, answer, merged + [A.Identity(reading.kinds)])
  {
    A.IdentityFits(reading.kinds, 0);
  }

  /** What all the given terms have in common. */
  function MergedOf(merged: seq<A.Term>): A.Term
    requires merged != []
  {
    A.MergeAll(merged[0], merged[1..])
  }

  lemma MergedNext(merged: seq<A.Term>, t: A.Term)
    requires merged != []
    ensures MergedOf(merged + [t]) == A.Merge(MergedOf(merged), t)
  {
    assert (merged + [t])[1..] == merged[1..] + [t];
    assert (merged[1..] + [t])[..|merged| - 1] == merged[1..];
  }

  lemma MergedFits(merged: seq<A.Term>, kinds: seq<A.Kind>)
    requires merged != [] && A.AllFit(merged, kinds)
    ensures A.Fits(MergedOf(merged), A.List(kinds)) && (|merged| > 1 ==> A.Numbered(MergedOf(merged), 0))
  {
    A.MergeAllGeneralizes(merged[0], merged[1..], kinds);
  }

  // ----- Guidance that no later answer changes -----

  /** All that can still become an answer of the table is being watched and cannot invalidate the guidance. */
  ghost predicate Conclusive(v: View, table: Table, reading: Reading, g: A.Term) {
    && v.cover.Some?
    && v.cover.value.goal == table.goal
    && v.cover.value.finer == Finer(reading)
    && forall b :: b in v.cover.value.base ==> !A.MayInvalidate(reading.term(b), g)
  }

  /** In every later state, the answers that have come in the meantime leave linear guidance as it is. */
  lemma LaterAnswersUnchanged(v: View, tables: seq<Table>, t: nat, reading: Reading, g: A.Term, k: nat)
    requires TablesOk(v, tables) && t < |tables| && !tables[t].floundered && Faithful(v.ops, reading)
    requires Conclusive(v, tables[t], reading, g) && A.Fits(g, A.List(reading.kinds)) && A.Numbered(g, 0)
    requires v.cover.value.from <= k < |tables[t].answers|
    ensures A.Merge(g, reading.term(tables[t].answers[k].subst.subst)) == g
  {
    hide StrandsOk, AnswersOk;
    assert TableOk(v, tables, tables[t]);
    var s := tables[t].answers[k].subst.subst;
    assert Inside(v, tables[t].goal, s);
    var b :| b in v.cover.value.base && v.cover.value.finer(s, b);
    A.InstanceUnchanged(g, reading.term(b), reading.term(s), reading.kinds);
  }

  // ----- Drawing answers -----

  datatype Solution = Unique(subst: Subst) | Ambig(guidance: A.Guidance)

  datatype Outcome = NoSolution | Solved(solution: Solution) | OutOfAnswers | Broken

  /** No answer makes any difference to the guidance. */
  ghost predicate Unchanging(reading: Reading, g: A.Term) {
    forall t :: A.Fits(t, A.List(reading.kinds)) ==> A.Merge(g, t) == g
  }

  lemma TrivialIsUnchanging(reading: Reading, merged: seq<A.Term>)
    requires merged != [] && A.AllFit(merged, reading.kinds) && A.IsTrivial(MergedOf(merged))
    ensures Unchanging(reading, MergedOf(merged))
  {
    MergedFits(merged, reading.kinds);
    forall t | A.Fits(t, A.List(reading.kinds))
      ensures A.Merge(MergedOf(merged), t) == MergedOf(merged)
    {
      A.TrivialIsFinal(MergedOf(merged), t, reading.kinds);
    }
  }

  /** All answers of the table have been drawn, and there will be no others. */
  ghost predicate AllDrawn(reading: Reading, table: Table, merged: seq<A.Term>) {
    !table.floundered && table.strands == [] && merged == Seen(reading, table.answers)
  }

  /** Draws the next answer and adds it to those merged so far; a floundered goal counts as the identity. */
  method DrawNext(stream: ForestSolver, reading: Reading, rounds: nat, maxSteps: nat, ghost merged: seq<A.Term>)
    returns (next: AnswerResult, ghost merged': seq<A.Term>)
    requires stream.Valid() && Faithful(stream.state.context, reading)
    requires Drawn(reading, stream.state.tables[stream.table], stream.answer, merged)
    modifies stream.state, stream
    ensures stream.state.cover == old(stream.state.cover) && stream.peeks == old(stream.peeks) + [next]
    ensures !next.StreamPanicked? ==> TablesGrow(old(stream.state.tables), stream.state.tables)
    ensures !next.StreamPanicked? ==>
              && stream.state.Valid() && stream.state.stack == [] && stream.table < |stream.state.tables|
              && stream.state.tables[stream.table].goal == old(stream.state.tables)[stream.table].goal
    ensures next.NextAnswerIs? || next.GoalFloundered? ==>
              && stream.Valid() && old(stream.answer) < stream.answer
              && Drawn(reading, stream.state.tables[stream.table], stream.answer, merged')
    ensures next.NextAnswerIs? ==>
              && merged' == merged + [reading.term(next.subst)]
              && !old(stream.state.tables)[stream.table].floundered && !stream.state.tables[stream.table].floundered
              && stream.answer <= |stream.state.tables[stream.table].answers|
              && stream.state.tables[stream.table].answers[stream.answer - 1] ==
                 Answer(AnswerSubst(next.subst, []), next.ambiguous)
              && (Definite(stream.state.context) && !next.ambiguous ==>
                    Derivable(stream.state.context, stream.state.tables[stream.table].goal, next.subst))
    ensures next.GoalFloundered? ==>
              merged' == merged + [A.Identity(reading.kinds)] && stream.state.tables[stream.table].floundered
    ensures !next.NextAnswerIs? && !next.GoalFloundered? ==> merged' == merged
    ensures next.NoMoreAnswers? ==> AllDrawn(reading, stream.state.tables[stream.table], merged)
  {
    hide IndexOk, TablesOk, StackOk, ViewOk, TablesGrow, Derivable, Definite, Faithful, Seen, Skipped;
    merged' := merged;
    ghost var tables0, answer0, t := stream.state.tables, stream.answer, stream.table;
    next := stream.NextAnswer(rounds, maxSteps);
    if !next.StreamPanicked? {
      ghost var tables1 := stream.state.tables;
      GoalKept(tables0, tables1, t);
      StaysFloundered(tables0, tables1, t);
      if next.NextAnswerIs? {
        DrawnGrows(reading, tables0, tables1, t, answer0, stream.answer - 1, merged);
        DrawnNext(stream.state.context, reading, tables1[t], stream.answer - 1, merged);
        AnswersMean(stream.state.Viewed(), tables1, t, stream.answer - 1);
        merged' := merged + [reading.term(next.subst)];
      } else if next.GoalFloundered? {
        DrawnFloundered(reading, tables1[t], stream.answer, merged);
        merged' := merged + [A.Identity(reading.kinds)];
      } else if next.NoMoreAnswers? {
        DrawnGrows(reading, tables0, tables1, t, answer0, |tables1[t].answers|, merged);
        assert tables1[t].answers[..|tables1[t].answers|] == tables1[t].answers;
      }
    }
  }

  lemma StaysFloundered(tables: seq<Table>, tables': seq<Table>, t: nat)
    requires TablesGrow(tables, tables') && t < |tables|
    ensures tables[t].floundered ==> tables'[t].floundered
  {
    assert Grows(tables[t], tables'[t]);
  }

  /** Only a table that has not floundered has answers. */
  lemma AnswersMean(v: View, tables: seq<Table>, t: nat, k: nat)
    requires TablesOk(v, tables) && t < |tables| && k < |tables[t].answers|
    ensures !tables[t].floundered
  {
    assert TableOk(v, tables, tables[t]);
  }

  /**
    The state after guidance has been found: it is what the answers drawn have in common, and no later answer can change
    it.
   */
  ghost predicate Found(state: SolveState, t: nat, reading: Reading, g: A.Term, merged: seq<A.Term>)
    reads state
  {
    && state.Valid() && state.stack == [] && t < |state.tables|
    && merged != [] && A.AllFit(merged, reading.kinds) && g == MergedOf(merged)
    && Conclusive(state.Viewed(), state.tables[t], reading, g)
    && var from := state.cover.value.from;
       !state.tables[t].floundered ==>
           from <= |state.tables[t].answers| && merged == Seen(reading, state.tables[t].answers[..from])
  }

  /** Watches everything that can still become an answer, none of which can invalidate the guidance. */
  ghost method Conclude(stream: ForestSolver, reading: Reading, from: nat, g: A.Term, merged: seq<A.Term>)
    requires stream.state.Valid() && stream.state.stack == [] && stream.table < |stream.state.tables|
    requires Faithful(stream.state.context, reading)
    requires merged != [] && g == MergedOf(merged) && Drawn(reading, stream.state.tables[stream.table], from, merged)
    requires forall b :: b in Candidates(stream.state.tables[stream.table], from) ==>
               !A.MayInvalidate(reading.term(b), g)
    modifies stream.state`cover
    ensures Found(stream.state, stream.table, reading, g, merged)
    ensures stream.state.cover.value.from == from
  {
    hide IndexOk, TablesOk, StackOk, ViewOk, Seen, Faithful;
    FinerIsRefining(stream.state.context, reading);
    stream.state.Watch(stream.table, from, Finer(reading));
  }

  /** The stream has given `r` as its last report since it had given the reports `before`. */
  ghost predicate Reported(before: seq<AnswerResult>, after: seq<AnswerResult>, r: AnswerResult) {
    before <= after && |before| < |after| && after[|after| - 1] == r
  }

  /** Neither the budget nor a failed assertion has ended a search since the reports `before`. */
  ghost predicate Undisturbed(before: seq<AnswerResult>, after: seq<AnswerResult>) {
    && before <= after
    && forall k :: |before| <= k < |after| ==> !after[k].OutOfQuantum? && !after[k].StreamPanicked?
  }

  /** The answers without delayed subgoals. */
  ghost function Clear(answers: seq<Answer>): seq<Answer> {
    if answers == [] then []
    else
      var last := answers[|answers| - 1];
      Clear(answers[..|answers| - 1]) + if last.subst.delayed == [] then [last] else []
  }

  /** The table is exhausted and has exactly these answers without delayed subgoals. */
  ghost predicate Exactly(table: Table, clear: seq<Answer>) {
    !table.floundered && table.strands == [] && Clear(table.answers) == clear
  }

  lemma {:induction false} ClearOnes(answers: seq<Answer>, i: nat)
    requires i < |answers| && answers[i].subst.delayed == []
    ensures answers[i] in Clear(answers)
  {
    var n := |answers| - 1;
    if i < n {
      ClearOnes(answers[..n], i);
    }
  }

  lemma {:induction false} ClearTwo(answers: seq<Answer>, i: nat, j: nat)
    requires i < j < |answers| && answers[i].subst.delayed == [] && answers[j].subst.delayed == []
    ensures |Clear(answers)| > 1
  {
    var n := |answers| - 1;
    if j < n {
      ClearTwo(answers[..n], i, j);
    } else {
      ClearOnes(answers[..n], i);
    }
  }

  lemma {:induction false} ClearIsSeen(reading: Reading, answers: seq<Answer>)
    ensures Seen(reading, answers) == seq(|Clear(answers)|, i requires 0 <= i < |Clear(answers)| =>
                                          reading.term(Clear(answers)[i].subst.subst))
  {
    if answers != [] {
      ClearIsSeen(reading, answers[..|answers| - 1]);
    }
  }

  lemma NoneLeft(reading: Reading, table: Table)
    requires AllDrawn(reading, table, [])
    ensures Exactly(table, []) && forall s :: !Exactly(table, [Answer(AnswerSubst(s, []), false)])
  {
    ClearIsSeen(reading, table.answers);
  }

  lemma OnlyOneLeft(reading: Reading, table: Table, merged: seq<A.Term>, k: nat)
    requires !table.floundered && table.strands == [] && Drawn(reading, table, |table.answers|, merged) && |merged| == 1
    requires k < |table.answers| && table.answers[k].subst.delayed == []
    ensures Exactly(table, [table.answers[k]]) && !Exactly(table, [])
    ensures forall s :: Exactly(table, [Answer(AnswerSubst(s, []), false)]) ==> s == table.answers[k].subst.subst
  {
    assert table.answers[..|table.answers|] == table.answers;
    ClearIsSeen(reading, table.answers);
    ClearOnes(table.answers, k);
  }

  lemma AnswerKept(tables: seq<Table>, tables': seq<Table>, t: nat, k: nat)
    requires TablesGrow(tables, tables') && t < |tables| && k < |tables[t].answers| && !tables'[t].floundered
    ensures k < |tables'[t].answers| && tables'[t].answers[k] == tables[t].answers[k]
  {
    assert Grows(tables[t], tables'[t]);
  }

  /** Index `k` of the table is what the stream has reported. */
  ghost predicate ReportedAt(table: Table, k: nat, r: AnswerResult) {
    || (r.GoalFloundered? && table.floundered)
    || (r.NextAnswerIs? && k < |table.answers| && table.answers[k] == Answer(AnswerSubst(r.subst, []), r.ambiguous))
  }

  /** With two answers, an ambiguous one or a floundered goal, there is no unique solution. */
  lemma NotExactly(tables: seq<Table>, tables1: seq<Table>, tables2: seq<Table>, t: nat, next: AnswerResult, k: nat,
                   peeked: AnswerResult, j: nat)
    requires TablesGrow(tables, tables1) && TablesGrow(tables1, tables2) && t < |tables| && k < j
    requires ReportedAt(tables[t], k, next)
    requires ReportedAt(tables1[t], j, peeked) || next.GoalFloundered? || next.ambiguous
    ensures !Exactly(tables2[t], []) && forall s :: !Exactly(tables2[t], [Answer(AnswerSubst(s, []), false)])
  {
    GrowTransitive(tables, tables1, tables2);
    StaysFloundered(tables, tables2, t);
    StaysFloundered(tables1, tables2, t);
    hide TablesGrow;
    if !tables2[t].floundered {
      AnswerKept(tables, tables2, t, k);
      ClearOnes(tables2[t].answers, k);
      if !next.ambiguous {
        AnswerKept(tables1, tables2, t, j);
        ClearTwo(tables2[t].answers, k, j);
      }
    }
  }

  /** Merges answers until the guidance is trivial or no future answer can change it. */
  method FindGuidance(stream: ForestSolver, reading: Reading, limit: nat, rounds: nat, maxSteps: nat, first: A.Term,
                      ghost drawn: seq<A.Term>)
    returns (r: Outcome, ghost merged: seq<A.Term>)
    requires stream.Valid() && Faithful(stream.state.context, reading)
    requires drawn != [] && first == MergedOf(drawn)
             && Drawn(reading, stream.state.tables[stream.table], stream.answer, drawn)
    modifies stream.state, stream
    ensures merged != [] && drawn <= merged
    ensures !r.Broken? ==>
              TablesGrow(old(stream.state.tables), stream.state.tables) && stream.table < |stream.state.tables|
    ensures r.OutOfAnswers? || r.Broken? || (r.Solved? && r.solution.Ambig?)
    // what the outcome says about the search itself
    ensures old(stream.peeks) <= stream.peeks
    ensures r.OutOfAnswers? ==> |merged| == |drawn| + limit
    ensures r.Broken? ==> Reported(old(stream.peeks), stream.peeks, StreamPanicked)
    ensures r.Solved? && r.solution.guidance.Suggested? ==> Reported(old(stream.peeks), stream.peeks, OutOfQuantum)
    ensures r.Solved? && !r.solution.guidance.Unknown? ==> !A.IsTrivial(r.solution.guidance.subst)
    ensures r == Solved(Ambig(A.Unknown)) ==> A.IsTrivial(MergedOf(merged)) && Unchanging(reading, MergedOf(merged))
    ensures r.Solved? && r.solution.guidance.Suggested? ==> r.solution.guidance.subst == MergedOf(merged)
    ensures r.Solved? && r.solution.guidance.Definite? ==>
              Found(stream.state, stream.table, reading, r.solution.guidance.subst, merged)
  {
    hide IndexOk, TablesOk, StackOk, ViewOk, Faithful, Seen, Conclusive, Definite, Derivable, TablesGrow;
    var g := first;
    merged := drawn;
    GrowReflexive(stream.state.tables);
    for n := 0 to limit
      invariant stream.Valid() && drawn <= merged && merged != [] && g == MergedOf(merged)
      invariant TablesGrow(old(stream.state.tables), stream.state.tables)
      invariant old(stream.peeks) <= stream.peeks && |merged| == |drawn| + n
      invariant Drawn(reading, stream.state.tables[stream.table], stream.answer, merged)
    {
      if A.IsTrivial(g) {
        TrivialIsUnchanging(reading, merged);
        return Solved(Ambig(A.Unknown)), merged;
      }
      var guidance := g;
      var any := stream.AnyFutureAnswer(s => A.MayInvalidate(reading.term(s), guidance));
      if !any {
        Conclude(stream, reading, stream.answer, g, merged);
        return Solved(Ambig(A.Definite(g))), merged;
      }
      var next;
      ghost var before, tables1 := merged, stream.state.tables;
      next, merged := DrawNext(stream, reading, rounds, maxSteps, merged);
      if !next.StreamPanicked? {
        GrowTransitive(old(stream.state.tables), tables1, stream.state.tables);
      }
      match next {
        case NextAnswerIs(subst, _) =>
          MergedNext(before, reading.term(subst));
          g := A.Merge(g, reading.term(subst));
        case GoalFloundered =>
          MergedNext(before, A.Identity(reading.kinds));
          g := A.Merge(g, A.Identity(reading.kinds));
        case NoMoreAnswers =>
          AllDrawnConcludes(reading, stream.state.tables[stream.table], merged);
          Conclude(stream, reading, |stream.state.tables[stream.table].answers|, g, merged);
          return Solved(Ambig(A.Definite(g))), merged;
        case OutOfQuantum =>
          return Solved(Ambig(A.Suggested(g))), merged;
        case StreamPanicked =>
          return Outcome.Broken, merged;
      }
    }
    r := OutOfAnswers;
  }

  lemma AllDrawnConcludes(reading: Reading, table: Table, merged: seq<A.Term>)
    requires AllDrawn(reading, table, merged) && A.AllFit(merged, reading.kinds)
    ensures Drawn(reading, table, |table.answers|, merged) && Candidates(table, |table.answers|) == {}
  {
    assert table.answers[..|table.answers|] == table.answers;
  }

  /** Draws as many answers as it needs to come up with a solution. */
  method MakeSolution(stream: ForestSolver, reading: Reading, limit: nat, rounds: nat, maxSteps: nat)
    returns (r: Outcome, ghost merged: seq<A.Term>)
    requires stream.Valid() && stream.answer == 0 && Faithful(stream.state.context, reading)
    modifies stream.state, stream
    // no solution: the table is exhausted without an answer
    ensures r.NoSolution? ==>
              stream.table < |stream.state.tables| && Exactly(stream.state.tables[stream.table], [])
    // and conversely, unless the search has been cut short
    ensures !r.Broken? && Undisturbed(old(stream.peeks), stream.peeks) ==>
              && stream.table < |stream.state.tables|
              && (Exactly(stream.state.tables[stream.table], []) ==> r.NoSolution?)
              && forall s :: Exactly(stream.state.tables[stream.table], [Answer(AnswerSubst(s, []), false)]) ==>
                   r == Solved(Unique(s))
    // the inconclusive outcomes need a reason
    ensures old(stream.peeks) <= stream.peeks
    ensures r.OutOfAnswers? ==> |merged| == 1 + limit
    ensures r.Broken? ==> Reported(old(stream.peeks), stream.peeks, StreamPanicked)
    ensures r.Solved? && r.solution.Ambig? && r.solution.guidance.Suggested? ==>
              Reported(old(stream.peeks), stream.peeks, OutOfQuantum)
    ensures r == Solved(Ambig(A.Unknown)) ==>
              || Reported(old(stream.peeks), stream.peeks, OutOfQuantum)
              || (merged != [] && A.IsTrivial(MergedOf(merged)) && Unchanging(reading, MergedOf(merged)))
    // a unique solution is the only answer of an exhausted table, and derivable by plain resolution
    ensures r.Solved? && r.solution.Unique? ==>
              && stream.table < |stream.state.tables|
              && Exactly(stream.state.tables[stream.table], [Answer(AnswerSubst(r.solution.subst, []), false)])
              && merged == [reading.term(r.solution.subst)]
              && (Definite(stream.state.context) ==>
                    Derivable(stream.state.context, stream.state.tables[stream.table].goal, r.solution.subst))
    // definite guidance is what the answers so far have in common, and everything that could change it is ruled out
    ensures r.Solved? && r.solution.Ambig? && r.solution.guidance.Definite? ==>
              Found(stream.state, stream.table, reading, r.solution.guidance.subst, merged)
              && !A.IsTrivial(r.solution.guidance.subst)
    ensures r.Solved? && r.solution.Ambig? && r.solution.guidance.Suggested? ==>
              merged != [] && r.solution.guidance.subst == MergedOf(merged)
    ensures r == Solved(Ambig(A.Unknown)) && merged != [] ==>
              (A.IsTrivial(MergedOf(merged)) && Unchanging(reading, MergedOf(merged)))
                || MergedOf(merged) == A.Identity(reading.kinds)
  {
    hide IndexOk, TablesOk, StackOk, ViewOk, Faithful, Seen, Definite, Derivable, Found, TablesGrow, Skipped, Exactly;
    merged := [];
    NothingDrawn(reading, stream.state.tables[stream.table]);
    var next;
    next, merged := DrawNext(stream, reading, rounds, maxSteps, []);
    if next.NoMoreAnswers? {
      NoneLeft(reading, stream.state.tables[stream.table]);
      return NoSolution, merged;
    } else if next.OutOfQuantum? {
      assert stream.peeks[|stream.peeks| - 1].OutOfQuantum?;
      return Solved(Ambig(A.Unknown)), merged;
    } else if next.StreamPanicked? {
      return Outcome.Broken, merged;
    }
    var term := if next.NextAnswerIs? then reading.term(next.subst) else A.Identity(reading.kinds);
    var ambiguous := next.GoalFloundered? || next.ambiguous;
    ghost var tables0, answer0 := stream.state.tables, stream.answer;
    var peeked := stream.PeekAnswer(rounds, maxSteps);
    if peeked.StreamPanicked? {
      return Outcome.Broken, merged;
    }
    ghost var tables1 := stream.state.tables;
    GoalKept(tables0, tables1, stream.table);
    DrawnGrows(reading, tables0, tables1, stream.table, answer0, stream.answer, merged);
    if peeked.OutOfQuantum? {
      assert stream.peeks[|stream.peeks| - 1].OutOfQuantum?;
      return Solved(Ambig(if term == A.Identity(reading.kinds) then A.Unknown else A.Suggested(term))), merged;
    }
    if peeked.NoMoreAnswers? && !ambiguous {
      AnswerKept(tables0, tables1, stream.table, answer0 - 1);
      OnlyOneLeft(reading, tables1[stream.table], merged, answer0 - 1);
      return Solved(Unique(next.subst)), merged;
    }
    ghost var answer1 := stream.answer;
    r, merged := FindGuidance(stream, reading, limit, rounds, maxSteps, term, merged);
    if !r.Broken? {
      NotExactly(tables0, tables1, stream.state.tables, stream.table, next, answer0 - 1, peeked, answer1);
    }
  }

  /**
    Goes on drawing answers after guidance has been found: they leave linear guidance as it is,
    unless the goal flounders, which leaves nothing of it.
   */
  method KeepDrawing(stream: ForestSolver, reading: Reading, g: A.Term, limit: nat, rounds: nat, maxSteps: nat,
                     ghost merged: seq<A.Term>)
    returns (g': A.Term, floundered: bool)
    requires stream.Valid() && Faithful(stream.state.context, reading)
             && Found(stream.state, stream.table, reading, g, merged)
    requires stream.answer == stream.state.cover.value.from
    modifies stream.state, stream
    ensures floundered ==> g' == A.Identity(reading.kinds)
    ensures !floundered && A.Numbered(g, 0) ==> g' == g
  {
    hide IndexOk, TablesOk, StackOk, ViewOk, Faithful, Seen, Definite, Derivable;
    g', floundered := g, false;
    ghost var drawn, from := merged, stream.answer;
    MergedFits(merged, reading.kinds);
    for n := 0 to limit
      invariant stream.Valid() && Drawn(reading, stream.state.tables[stream.table], stream.answer, drawn)
      invariant Conclusive(stream.state.Viewed(), stream.state.tables[stream.table], reading, g)
      invariant from == stream.state.cover.value.from <= stream.answer
      invariant floundered ==> stream.state.tables[stream.table].floundered
      invariant A.Fits(g', A.List(reading.kinds))
      invariant floundered ==> g' == A.Identity(reading.kinds)
      invariant !floundered && A.Numbered(g, 0) ==> g' == g
    {
      var next;
      next, drawn := DrawNext(stream, reading, rounds, maxSteps, drawn);
      match next {
        case NextAnswerIs(subst, _) =>
          if A.Numbered(g, 0) {
            LaterAnswersUnchanged(stream.state.Viewed(), stream.state.tables, stream.table, reading, g,
              stream.answer - 1);
          }
          TermFits(stream.state.context, reading, subst);
          A.MergeFromGeneralizes(g', reading.term(subst), reading.kinds, 0);
          g' := A.Merge(g', reading.term(subst));
        case GoalFloundered =>
          A.IdentityFits(reading.kinds, 0);
          A.IdentityForgets(g', reading.kinds, 0, 0);
          g' := A.Merge(g', A.Identity(reading.kinds));
          floundered := true;
        case NoMoreAnswers => return;
        case OutOfQuantum => return;
        case StreamPanicked => return;
      }
    }
  }
}
