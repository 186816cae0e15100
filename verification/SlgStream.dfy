/**
  Answer streams over the SLG engine: the retry loop that turns root searches into
  a sequence of answers, and the loop that reports all solutions of a goal.
 */
module SlgStream {
  import opened Prelude
  import opened SlgContext
  import opened SlgInvariants
  import opened SlgEngine
  import opened SlgCycles
  import opened SlgStrands

  /** The answers from `from` up to `to` were passed over because they have delayed subgoals. */
  ghost predicate Skipped(table: Table, from: nat, to: nat) {
    table.floundered || (from <= to <= |table.answers| && forall k :: from <= k < to ==>
        table.answers[k].subst.delayed != [])
  }

  /** An answer without delayed subgoals has been found already. */
  ghost predicate Known(table: Table, answer: nat) {
    !table.floundered && answer < |table.answers| && table.answers[answer].subst.delayed == []
  }

  lemma NothingSkipped(table: Table, answer: nat)
    requires table.floundered || answer <= |table.answers|
    ensures Skipped(table, answer, answer)
  {
  }

  lemma SkippedGrows(tables: seq<Table>, tables': seq<Table>, t: nat, from: nat, to: nat)
    requires TablesGrow(tables, tables') && t < |tables| && Skipped(tables[t], from, to)
    ensures Skipped(tables'[t], from, to)
  {
    assert Grows(tables[t], tables'[t]);
  }

  lemma SkippedFurther(tables: seq<Table>, tables': seq<Table>, t: nat, from: nat, mid: nat, to: nat)
    requires TablesGrow(tables, tables') && t < |tables| && Skipped(tables[t], from, mid)
             && Skipped(tables'[t], mid, to)
    ensures Skipped(tables'[t], from, to)
  {
    assert Grows(tables[t], tables'[t]);
  }

  /** What is reported for one answer. */
  datatype SubstitutionResult = DefiniteResult(subst: Subst) | AmbiguousResult(subst: Subst) | FlounderedResult

  function ResultOf(ctx: Context, goal: TableGoal, subst: Subst, ambiguous: bool): SubstitutionResult {
    if !ambiguous then DefiniteResult(subst)
    else if ctx.identity(goal, subst) then FlounderedResult
    else AmbiguousResult(subst)
  }

  /** What is reported for a list of answers: one result for each answer without delayed subgoals. */
  ghost function Report(ctx: Context, goal: TableGoal, answers: seq<Answer>): seq<SubstitutionResult> {
    if answers == [] then []
    else
      var last := answers[|answers| - 1];
      Report(ctx, goal, answers[..|answers| - 1])
      + if last.subst.delayed == [] then [ResultOf(ctx, goal, last.subst.subst, last.ambiguous)] else []
  }

  lemma {:induction false} ReportSkipped(ctx: Context, goal: TableGoal, answers: seq<Answer>, from: nat, to: nat)
    requires from <= to <= |answers| && forall k :: from <= k < to ==> answers[k].subst.delayed != []
    ensures Report(ctx, goal, answers[..to]) == Report(ctx, goal, answers[..from])
  {
    if from < to {
      ReportSkipped(ctx, goal, answers, from, to - 1);
      assert answers[..to][..to - 1] == answers[..to - 1];
    }
  }

  /** An answer without delayed subgoals. */
  ghost predicate ClearAnswer(answers: seq<Answer>, subst: Subst, ambiguous: bool) {
    Answer(AnswerSubst(subst, []), ambiguous) in answers
  }

  /** What a report says about the answers it is made from. */
  lemma {:induction false} ReportSays(ctx: Context, goal: TableGoal, answers: seq<Answer>, s: Subst)
    ensures DefiniteResult(s) in Report(ctx, goal, answers) <==> ClearAnswer(answers, s, false)
    ensures AmbiguousResult(s) in Report(ctx, goal, answers) <==>
            ClearAnswer(answers, s, true) && !ctx.identity(goal, s)
    ensures FlounderedResult in Report(ctx, goal, answers) <==>
              exists b :: ClearAnswer(answers, b, true) && ctx.identity(goal, b)
  {
    if answers != [] {
      var rest, last := answers[..|answers| - 1], answers[|answers| - 1];
      ReportSays(ctx, goal, rest, s);
      assert answers == rest + [last];
      if last.subst.delayed == [] {
        assert last == Answer(AnswerSubst(last.subst.subst, []), last.ambiguous);
      }
      assert forall b, x :: ClearAnswer(answers, b, x) <==>
          ClearAnswer(rest, b, x) || last == Answer(AnswerSubst(b, []), x);
    }
  }

  /** No substitution is reported twice. */
  ghost predicate NoRepeats(results: seq<SubstitutionResult>) {
    forall i, j :: 0 <= i < j < |results| && !results[i].FlounderedResult? && !results[j].FlounderedResult? ==>
                     results[i].subst != results[j].subst
  }

  lemma {:induction false} ReportedComesFrom(ctx: Context, goal: TableGoal, answers: seq<Answer>, i: nat)
    returns (k: nat)
    requires i < |Report(ctx, goal, answers)| && !Report(ctx, goal, answers)[i].FlounderedResult?
    ensures k < |answers| && answers[k].subst == AnswerSubst(Report(ctx, goal, answers)[i].subst, [])
  {
    var rest := answers[..|answers| - 1];
    if i < |Report(ctx, goal, rest)| {
      k := ReportedComesFrom(ctx, goal, rest, i);
    } else {
      k := |answers| - 1;
    }
  }

  /** A new answer adds a substitution that has not been reported before. */
  lemma ReportNoRepeats(ctx: Context, goal: TableGoal, answers: seq<Answer>, hash: map<AnswerSubst, bool>, n: nat)
    requires Indexed(answers, hash) && n < |answers| && answers[n].subst.delayed == []
    requires NoRepeats(Report(ctx, goal, answers[..n]))
    ensures Report(ctx, goal, answers[..n + 1]) ==
            Report(ctx, goal, answers[..n]) + [ResultOf(ctx, goal, answers[n].subst.subst, answers[n].ambiguous)]
    ensures NoRepeats(Report(ctx, goal, answers[..n + 1]))
  {
    var before := Report(ctx, goal, answers[..n]);
    assert answers[..n + 1][..n] == answers[..n];
    forall i | 0 <= i < |before| && !before[i].FlounderedResult?
      ensures before[i].subst != answers[n].subst.subst
    {
      var k := ReportedComesFrom(ctx, goal, answers[..n], i);
      assert answers[k].subst != answers[n].subst;
    }
  }

  /** The results so far are those of the answers seen so far, until the goal flounders. */
  ghost predicate Reported(ctx: Context, table: Table, answer: nat, results: seq<SubstitutionResult>) {
    && NoRepeats(results)
    && (!table.floundered ==> answer <= |table.answers| && results == Report(ctx, table.goal, table.answers[..answer]))
  }

  lemma ReportedGrows(ctx: Context, tables: seq<Table>, tables': seq<Table>, t: nat, answer: nat, answer': nat,
                      results: seq<SubstitutionResult>)
    requires TablesGrow(tables, tables') && t < |tables| && Reported(ctx, tables[t], answer, results)
    requires Skipped(tables'[t], answer, answer')
    ensures Reported(ctx, tables'[t], answer', results)
  {
    assert Grows(tables[t], tables'[t]);
    if !tables'[t].floundered {
      assert tables'[t].answers[..answer] == tables[t].answers[..answer];
      ReportSkipped(ctx, tables[t].goal, tables'[t].answers, answer, answer');
    }
  }

  /** Reporting the answer just handed out. */
  lemma ReportedNext(ctx: View, tables: seq<Table>, t: nat, answer: nat, results: seq<SubstitutionResult>)
    requires TablesOk(ctx, tables) && t < |tables| && answer < |tables[t].answers|
             && tables[t].answers[answer].subst.delayed == []
    requires Reported(ctx.ops, tables[t], answer, results)
    ensures var a := tables[t].answers[answer];
            Reported(ctx.ops, tables[t], answer + 1,
              results + [ResultOf(ctx.ops, tables[t].goal, a.subst.subst, a.ambiguous)])
  {
    hide StrandOk, Report, Indexed, NoRepeats, AnswerSound;
    TableIsOk(ctx, tables, t);
    ReportNoRepeats(ctx.ops, tables[t].goal, tables[t].answers, tables[t].answersHash, answer);
  }

  ghost predicate AllSound(ctx: Context, goal: TableGoal, results: seq<SubstitutionResult>) {
    Definite(ctx) ==> forall k :: 0 <= k < |results| && results[k].DefiniteResult? ==>
        Derivable(ctx, goal, results[k].subst)
  }

  lemma NothingReported(ctx: Context, table: Table)
    ensures Reported(ctx, table, 0, []) && AllSound(ctx, table.goal, [])
  {
  }

  lemma FlounderedReported(ctx: Context, table: Table, answer: nat, answer': nat, results: seq<SubstitutionResult>)
    requires table.floundered && NoRepeats(results)
    ensures Reported(ctx, table, answer', results + [FlounderedResult])
  {
  }

  lemma AllReported(ctx: Context, tables: seq<Table>, tables': seq<Table>, t: nat, answer: nat,
                    results: seq<SubstitutionResult>)
    requires TablesGrow(tables, tables') && t < |tables| && Reported(ctx, tables[t], answer, results)
    requires !tables'[t].floundered && Skipped(tables'[t], answer, |tables'[t].answers|)
    ensures results == Report(ctx, tables'[t].goal, tables'[t].answers)
  {
    ReportedGrows(ctx, tables, tables', t, answer, |tables'[t].answers|, results);
    assert tables'[t].answers[..|tables'[t].answers|] == tables'[t].answers;
  }

  lemma GoalKept(tables: seq<Table>, tables': seq<Table>, t: nat)
    requires TablesGrow(tables, tables') && t < |tables|
    ensures t < |tables'| && tables'[t].goal == tables[t].goal
  {
    assert Grows(tables[t], tables'[t]);
  }

  /** Nothing can become an answer of the table any more. */
  ghost predicate Finished(v: View, table: Table) {
    v.cover.Some? && v.cover.value.goal == table.goal && v.cover.value.base == {} && !v.cover.value.floundered
    && v.cover.value.from == |table.answers|
  }

  /** A finished table has the same answers in every later state. */
  lemma FinishedForGood(v: View, tables: seq<Table>, tables': seq<Table>, t: nat)
    requires t < |tables| && Finished(v, tables[t]) && TablesGrow(tables, tables') && TablesOk(v, tables')
    ensures !tables'[t].floundered && |tables'[t].answers| == |tables[t].answers| && Finished(v, tables'[t])
  {
    assert Grows(tables[t], tables'[t]);
    assert TableOk(v, tables', tables'[t]);
    var n := |tables[t].answers|;
    assert |tables'[t].answers| > n ==> Inside(v, tables'[t].goal, tables'[t].answers[n].subst.subst);
  }

  /**
    How a report of solutions ends: with all of them, at the caller's wish, out of budget, or with a failed assertion.
   */
  datatype ReportEnd = AllSeen | Stopped | OutOfBudget | Broken

  lemma StillReported(ctx: Context, tables: seq<Table>, tables': seq<Table>, t: nat, results: seq<SubstitutionResult>)
    requires t < |tables| && TablesGrow(tables, tables') && !tables'[t].floundered
             && |tables'[t].answers| == |tables[t].answers|
    requires results == Report(ctx, tables[t].goal, tables[t].answers)
    ensures results == Report(ctx, tables'[t].goal, tables'[t].answers)
  {
    assert Grows(tables[t], tables'[t]);
    assert tables'[t].answers == tables[t].answers;
  }

  /** A search that ended like this is followed by another one. */
  ghost predicate Retried(search: RootResult) {
    search.RootOutOfSteps? || search == RootFailed(QuantumExceeded) || search == RootFailed(InvalidAnswer)
  }

  ghost predicate AllRetried(searches: seq<RootResult>) {
    forall i :: 0 <= i < |searches| ==> Retried(searches[i])
  }

  /** What the stream makes of a search that is not followed by another one. */
  function Interpreted(search: RootResult): Option<AnswerResult> {
    match search
    case RootAnswer(subst, ambiguous) => Some(NextAnswerIs(subst, ambiguous))
    case RootFailed(InvalidAnswer) => None
    case RootFailed(TableFloundered) => Some(GoalFloundered)
    case RootFailed(NoMoreSolutions) => Some(NoMoreAnswers)
    case RootFailed(QuantumExceeded) => None
    case RootFailed(NegativeCycle) => Some(StreamPanicked)
    case RootPanicked(_) => Some(StreamPanicked)
    case RootOutOfSteps => None
  }

  /** What a peek reports is what the last of its searches found, unless it has used up its rounds. */
  ghost predicate Verdict(searches: seq<RootResult>, rounds: nat, r: AnswerResult) {
    && |searches| <= rounds
    && (forall i :: 0 <= i < |searches| - 1 ==> Retried(searches[i]))
    && if searches != [] && !Retried(searches[|searches| - 1]) then
         match searches[|searches| - 1]
         case RootAnswer(subst, ambiguous) => r == NextAnswerIs(subst, ambiguous)
         case RootFailed(failure) =>
           r == (if failure.NoMoreSolutions? then NoMoreAnswers
                 else if failure.TableFloundered? then GoalFloundered
                 else StreamPanicked)
         case RootPanicked(_) => r == StreamPanicked
         case RootOutOfSteps => false
       else
         r == OutOfQuantum && |searches| == rounds
  }

  lemma NothingSearched(rounds: nat)
    ensures Invalid([]) == 0 && AllRetried([]) && (rounds == 0 ==> Verdict([], rounds, OutOfQuantum))
  {
  }

  lemma VerdictSoFar(searches: seq<RootResult>, found: RootResult, rounds: nat)
    requires AllRetried(searches) && |searches| < rounds
    ensures Interpreted(found).Some? ==> Verdict(searches + [found], rounds, Interpreted(found).value)
    ensures Interpreted(found).None? ==>
              AllRetried(searches + [found])
                && (|searches| + 1 == rounds ==> Verdict(searches + [found], rounds, OutOfQuantum))
  {
  }

  /** Every other report of the stream is about whether a further solution follows. */
  ghost predicate Flags(peeks: seq<AnswerResult>, hasNext: seq<bool>) {
    && 2 * |hasNext| <= |peeks|
    && forall k :: 0 <= k < |hasNext| ==> (hasNext[k] <==> !peeks[2 * k + 1].NoMoreAnswers?)
  }

  lemma NoFlags(peeks: seq<AnswerResult>)
    ensures Flags(peeks[|peeks|..], [])
  {
  }

  lemma FlagNext(peeks: seq<AnswerResult>, next: AnswerResult, peeked: AnswerResult, hasNext: seq<bool>)
    requires Flags(peeks, hasNext) && |peeks| == 2 * |hasNext|
    ensures Flags(peeks + [next, peeked], hasNext + [!peeked.NoMoreAnswers?])
    ensures Flags(peeks + [next], hasNext)
  {
  }

  /** How many answers the searches have found that still have delayed subgoals. */
  ghost function Invalid(searches: seq<RootResult>): nat {
    if searches == [] then 0
    else Invalid(searches[..|searches| - 1])
         + if searches[|searches| - 1] == RootFailed(InvalidAnswer) then 1 else 0
  }

  lemma InvalidNext(searches: seq<RootResult>, found: RootResult)
    ensures Invalid(searches + [found]) == Invalid(searches) + if found == RootFailed(InvalidAnswer) then 1 else 0
  {
    assert (searches + [found])[..|searches|] == searches;
  }

  class ForestSolver {
    const state: SolveState
    const table: nat
    var answer: nat

    /** What all searches have found so far, and what has been reported of them. */
    ghost var searches: seq<RootResult>
    ghost var peeks: seq<AnswerResult>

    ghost predicate Valid()
      reads this, state
    {
      && state.Valid()
      && state.stack == []
      && table < |state.tables|
      && (state.tables[table].floundered || answer <= |state.tables[table].answers|)
    }

    constructor (state: SolveState, goal: TableGoal)
      requires state.Valid() && state.stack == []
      modifies state
      ensures Valid() && this.state == state && answer == 0 && searches == [] && peeks == []
      ensures state.tables[table].goal == goal && old(state.tables) <= state.tables
    {
      this.state := state;
      var t := state.GetOrCreateTable(goal);
      table := t;
      answer := 0;
      searches, peeks := [], [];
    }

    /** One search for the next answer; an answer with delayed subgoals is passed over. */
    method Search(maxSteps: nat) returns (found: RootResult)
      requires Valid()
      modifies state, this`answer
      ensures state.cover == old(state.cover)
      ensures !found.RootPanicked? ==> Valid() && TablesGrow(old(state.tables), state.tables)
      ensures !found.RootPanicked? ==>
                && answer == old(answer) + (if found == RootFailed(InvalidAnswer) then 1 else 0)
                && Skipped(state.tables[table], old(answer), answer)
      ensures found.RootAnswer? ==>
                var answers := state.tables[table].answers;
                answer < |answers| && answers[answer] == Answer(AnswerSubst(found.subst, []), found.ambiguous)
      ensures found.RootAnswer? && Definite(state.context) && !found.ambiguous ==>
                Derivable(state.context, state.tables[table].goal, found.subst)
      ensures found == RootFailed(NoMoreSolutions) ==>
                |state.tables[table].answers| == answer && state.tables[table].strands == []
                  && !state.tables[table].floundered
      ensures found == RootFailed(TableFloundered) ==> state.tables[table].floundered
      ensures maxSteps > 0 && Spent(old(state.tables)[table], old(answer)) ==> found == RootFailed(NoMoreSolutions)
      ensures Known(old(state.tables)[table], old(answer)) ==>
                var known := old(state.tables)[table].answers[old(answer)];
                found == RootAnswer(known.subst.subst, known.ambiguous) && state.tables == old(state.tables)
    {
      hide IndexOk, TablesOk, StackOk, ViewOk, MetOk, Definite, Derivable, TablesGrow, Tolerable, Searched, AllKept,
        DoomedTable, FailedAt;
      ghost var before := state.tables;
      NothingSkipped(before[table], answer);
      found := state.RootAnswerSearch(table, answer, maxSteps);
      if !found.RootPanicked? {
        SkippedGrows(before, state.tables, table, answer, answer);
      }
      if found == RootFailed(InvalidAnswer) {
        answer := answer + 1;
      }
    }

    /** The next answer without delayed subgoals, retrying for as long as the caller lets it. */
    method PeekAnswer(rounds: nat, maxSteps: nat) returns (r: AnswerResult)
      requires Valid()
      modifies state, this`answer, this`searches, this`peeks
      ensures !r.StreamPanicked? ==> Valid() && TablesGrow(old(state.tables), state.tables)
      ensures state.cover == old(state.cover)
      ensures peeks == old(peeks) + [r]
      ensures old(searches) <= searches && Verdict(searches[|old(searches)|..], rounds, r)
      ensures !r.StreamPanicked? ==> answer == old(answer) + Invalid(searches[|old(searches)|..])
      ensures !r.StreamPanicked? ==> old(answer) <= answer && Skipped(state.tables[table], old(answer), answer)
      ensures r.NextAnswerIs? ==>
                var answers := state.tables[table].answers;
                answer < |answers| && answers[answer] == Answer(AnswerSubst(r.subst, []), r.ambiguous)
      ensures r.NextAnswerIs? && Definite(state.context) && !r.ambiguous ==>
                Derivable(state.context, state.tables[table].goal, r.subst)
      ensures r.NoMoreAnswers? ==>
                |state.tables[table].answers| == answer && state.tables[table].strands == []
                  && !state.tables[table].floundered
      ensures r.GoalFloundered? ==> state.tables[table].floundered
      ensures rounds > 0 && maxSteps > 0 && Spent(old(state.tables)[table], old(answer)) ==> r.NoMoreAnswers?
      // peeking again finds the same answer and does no further work
      ensures rounds > 0 && Known(old(state.tables)[table], old(answer)) ==>
                var known := old(state.tables)[table].answers[old(answer)];
                && r == NextAnswerIs(known.subst.subst, known.ambiguous)
                && answer == old(answer) && state.tables == old(state.tables)
    {
      hide IndexOk, TablesOk, StackOk, ViewOk, MetOk, Definite, Derivable, TablesGrow, Skipped, Verdict, Retried, Known,
        Invalid, Spent;
      GrowReflexive(state.tables);
      NothingSkipped(state.tables[table], answer);
      NothingSearched(rounds);
      r := OutOfQuantum;
      ghost var own: seq<RootResult> := [];
      for round := 0 to rounds
        invariant Valid() && TablesGrow(old(state.tables), state.tables) && state.cover == old(state.cover)
        invariant old(answer) <= answer && Skipped(state.tables[table], old(answer), answer)
        invariant round == 0 ==> answer == old(answer) && state.tables == old(state.tables)
        invariant round > 0 ==> !Known(old(state.tables)[table], old(answer))
        invariant round > 0 && maxSteps > 0 ==> !Spent(old(state.tables)[table], old(answer))
        invariant answer == old(answer) + Invalid(own)
        invariant r == OutOfQuantum && |own| == round && AllRetried(own)
                  && (round == rounds ==> Verdict(own, rounds, r))
        invariant peeks == old(peeks) && searches == old(searches)
      {
        ghost var before, from := state.tables, answer;
        var found := Search(maxSteps);
        InvalidNext(own, found);
        VerdictSoFar(own, found, rounds);
        own := own + [found];
        if !found.RootPanicked? {
          GrowTransitive(old(state.tables), before, state.tables);
          SkippedFurther(before, state.tables, table, old(answer), from, answer);
        }
        var final := Interpreted(found);
        if final.Some? {
          r := final.value;
          break;
        }
      }
      searches, peeks := searches + own, peeks + [r];
      assert searches[|old(searches)|..] == own;
    }

    /** Hands out the next answer.  Only after an answer or a floundered goal may the stream be asked again. */
    method NextAnswer(rounds: nat, maxSteps: nat) returns (r: AnswerResult)
      requires Valid()
      modifies state, this`answer, this`searches, this`peeks
      ensures !r.StreamPanicked? ==> state.Valid() && state.stack == [] && TablesGrow(old(state.tables), state.tables)
      ensures state.cover == old(state.cover) && peeks == old(peeks) + [r]
      ensures r.NextAnswerIs? || r.GoalFloundered? ==> Valid() && old(answer) < answer
      ensures r.NextAnswerIs? ==>
                var answers := state.tables[table].answers;
                && old(answer) < answer <= |answers| && Skipped(state.tables[table], old(answer), answer - 1)
                && answers[answer - 1] == Answer(AnswerSubst(r.subst, []), r.ambiguous)
      ensures r.NextAnswerIs? && Definite(state.context) && !r.ambiguous ==>
                Derivable(state.context, state.tables[table].goal, r.subst)
      ensures r.GoalFloundered? ==> state.tables[table].floundered
      ensures r.NoMoreAnswers? ==>
                && table < |state.tables| && state.tables[table].strands == [] && !state.tables[table].floundered
                && Skipped(state.tables[table], old(answer), |state.tables[table].answers|)
    {
      hide IndexOk, TablesOk, StackOk, Derivable, TablesGrow;
      r := PeekAnswer(rounds, maxSteps);
      answer := answer + 1;
    }

    /** Tells whether an answer not handed out yet, or a strand that may still become one, passes a test. */
    method AnyFutureAnswer(test: Subst -> bool) returns (r: bool)
      requires Valid()
      ensures r <==> exists s :: s in Candidates(state.tables[table], answer) && test(s)
    {
      hide IndexOk, TablesOk, StackOk, ViewOk;
      var t := state.tables[table];
      ghost var candidates := Candidates(t, answer);
      var k := answer;
      while k < |t.answers|
        invariant answer <= k && forall i :: answer <= i < k && i < |t.answers| ==> !test(t.answers[i].subst.subst)
      {
        if test(t.answers[k].subst.subst) {
          assert t.answers[k].subst.subst in candidates;
          return true;
        }
        k := k + 1;
      }
      for j := 0 to |t.strands|
        invariant forall i :: 0 <= i < j ==> !test(t.strands[i].exClause.subst)
      {
        if test(t.strands[j].exClause.subst) {
          assert t.strands[j].exClause.subst in candidates;
          return true;
        }
      }
      r := false;
    }

    /**
      Reports the solutions one by one until there are no more, the caller has seen enough, or the budget is spent.
      The caller is told with each solution whether another one may follow.
     */
    method SolveMultiple(f: (SubstitutionResult, bool) -> bool, limit: nat, rounds: nat, maxSteps: nat)
      returns (results: seq<SubstitutionResult>, hasNext: seq<bool>, ended: ReportEnd)
      requires Valid() && answer == 0
      modifies state, this`answer, this`searches, this`peeks
      ensures NoRepeats(results)
      ensures AllSound(state.context, old(state.tables)[table].goal, results)
      ensures |hasNext| == |results| && forall k :: 0 <= k < |results| - 1 ==> f(results[k], hasNext[k])
      ensures !ended.Broken? ==> state.Valid() && table < |state.tables|
      ensures ended.AllSeen? ==> state.tables[table].strands == []
      ensures ended.AllSeen? ==> results == Report(state.context, state.tables[table].goal, state.tables[table].answers)
      // when told that none follows, the caller has seen all there are and ever will be
      ensures forall k :: 0 <= k < |results| && !hasNext[k] ==> k == |results| - 1
      ensures !ended.Broken? && |results| > 0 && !hasNext[|results| - 1] ==> Settled(results)
      // the caller is told that none follows exactly if that is what the stream has reported
      ensures old(peeks) <= peeks && Flags(peeks[|old(peeks)|..], hasNext)
      // why the report ends
      ensures ended.Stopped? ==> |results| > 0 && !f(results[|results| - 1], hasNext[|results| - 1])
      ensures ended.AllSeen? || ended.OutOfBudget? ==> forall k :: 0 <= k < |results| ==> f(results[k], hasNext[k])
      ensures ended.OutOfBudget? ==> |results| == limit || LastPeek(OutOfQuantum)
      ensures ended.Broken? ==> LastPeek(StreamPanicked)
    {
      hide IndexOk, TablesOk, StackOk, ViewOk, TablesGrow, NoRepeats, Report, Finished, Told, AllSound, Reported,
        Skipped, MetOk, Verdict, Invalid, Known, Definite, Derivable, Flags, Spent;
      results, hasNext := [], [];
      ghost var goal := state.tables[table].goal;
      NothingReported(state.context, state.tables[table]);
      NoFlags(peeks);
      for n := 0 to limit
        invariant old(peeks) <= peeks && |peeks| == |old(peeks)| + 2 * n && Flags(peeks[|old(peeks)|..], hasNext)
        invariant n == |results| && Valid() && state.tables[table].goal == goal
                  && Reported(state.context, state.tables[table], answer, results)
        invariant AllSound(state.context, goal, results)
        invariant |hasNext| == |results| && forall k :: 0 <= k < |results| ==> f(results[k], hasNext[k])
        invariant forall k :: 0 <= k < |results| && !hasNext[k] ==> k == |results| - 1
        invariant |results| > 0 && !hasNext[|results| - 1] ==> Told(results)
      {
        var next;
        ghost var told, reported := |results| > 0 && !hasNext[|results| - 1], peeks[|old(peeks)|..];
        next, results := ReportNext(results, rounds, maxSteps, told);
        FlagNext(reported, next, next, hasNext);
        assert peeks[|old(peeks)|..] == reported + [next];
        if next.StreamPanicked? {
          return results, hasNext, Broken;
        }
        if next.NoMoreAnswers? || next.OutOfQuantum? {
          return results, hasNext, if next.NoMoreAnswers? then AllSeen else OutOfBudget;
        }
        var peeked := PeekFurther(results, rounds, maxSteps);
        FlagNext(reported, next, peeked, hasNext);
        assert peeks[|old(peeks)|..] == reported + [next, peeked];
        hasNext := hasNext + [!peeked.NoMoreAnswers?];
        if peeked.StreamPanicked? {
          return results, hasNext, Broken;
        }
        if !f(results[|results| - 1], hasNext[|results| - 1]) {
          return results, hasNext, Stopped;
        }
      }
      ReportedHasNoRepeats(state.context, state.tables[table], answer, results);
      if |results| > 0 && !hasNext[|results| - 1] {
        ToldAll(results);
      }
      ended := OutOfBudget;
    }

    /** Looks whether another solution may follow those reported; if none does, none ever will. */
    method PeekFurther(results: seq<SubstitutionResult>, rounds: nat, maxSteps: nat) returns (peeked: AnswerResult)
      requires Valid() && Reported(state.context, state.tables[table], answer, results)
      modifies state, this`answer, this`searches, this`peeks
      ensures peeks == old(peeks) + [peeked] && NoRepeats(results)
      ensures !peeked.StreamPanicked? ==>
                && Valid() && state.tables[table].goal == old(state.tables)[table].goal
                && Reported(state.context, state.tables[table], answer, results)
      ensures peeked.NoMoreAnswers? ==> Told(results) && Settled(results)
    {
      hide IndexOk, TablesOk, StackOk, ViewOk, TablesGrow, NoRepeats, Report, Finished, Told, Reported, Skipped, MetOk,
        Verdict, Invalid, Known, Definite, Derivable, Spent;
      ghost var tables1, answer1 := state.tables, answer;
      ReportedHasNoRepeats(state.context, tables1[table], answer1, results);
      peeked := PeekAnswer(rounds, maxSteps);
      if !peeked.StreamPanicked? {
        GoalKept(tables1, state.tables, table);
        ReportedGrows(state.context, tables1, state.tables, table, answer1, answer, results);
        if peeked.NoMoreAnswers? {
          Remember(results);
          ToldAll(results);
        }
      }
    }

    /** Adds the next solution to the report; there is none after the caller has been told so. */
    method ReportNext(results: seq<SubstitutionResult>, rounds: nat, maxSteps: nat, ghost told: bool)
      returns (next: AnswerResult, results': seq<SubstitutionResult>)
      requires Valid() && Reported(state.context, state.tables[table], answer, results)
      requires AllSound(state.context, state.tables[table].goal, results) && (told ==> Told(results))
      modifies state, this`answer, this`searches, this`peeks
      ensures peeks == old(peeks) + [next]
      ensures AllSound(state.context, old(state.tables)[table].goal, results') && NoRepeats(results')
      ensures !next.StreamPanicked? ==>
                state.Valid() && table < |state.tables| && state.tables[table].goal == old(state.tables)[table].goal
      ensures next.NextAnswerIs? || next.GoalFloundered? ==>
                && !told && Valid() && Reported(state.context, state.tables[table], answer, results')
                && exists result :: results' == results + [result]
      ensures next.NoMoreAnswers? || next.OutOfQuantum? || next.StreamPanicked? ==> results' == results
      ensures next.NoMoreAnswers? ==>
                && state.tables[table].strands == []
                && results == Report(state.context, state.tables[table].goal, state.tables[table].answers)
      ensures !next.StreamPanicked? && told ==> Settled(results)
    {
      hide IndexOk, TablesOk, StackOk, ViewOk, TablesGrow, Derivable, NoRepeats, Report, Definite, Finished, Skipped;
      results' := results;
      ghost var tables0, answer0 := state.tables, answer;
      next := NextAnswer(rounds, maxSteps);
      if !next.StreamPanicked? {
        ghost var tables1 := state.tables;
        GoalKept(tables0, tables1, table);
        if told {
          FinishedForGood(state.Viewed(), tables0, tables1, table);
          StillReported(state.context, tables0, tables1, table, results);
        }
        if next.NoMoreAnswers? {
          AllReported(state.context, tables0, tables1, table, answer0, results);
        } else if next.NextAnswerIs? {
          ReportedGrows(state.context, tables0, tables1, table, answer0, answer - 1, results);
          ReportedNext(state.Viewed(), tables1, table, answer - 1, results);
          results' := results + [ResultOf(state.context, state.tables[table].goal, next.subst, next.ambiguous)];
        } else if next.GoalFloundered? {
          FlounderedReported(state.context, tables1[table], answer0, answer, results);
          results' := results + [FlounderedResult];
        }
      }
    }

    /** What the stream has reported last. */
    ghost predicate LastPeek(r: AnswerResult)
      reads this
    {
      peeks != [] && peeks[|peeks| - 1] == r
    }

    /** The report holds all answers, and nothing can become another one. */
    ghost predicate Settled(results: seq<SubstitutionResult>)
      reads this, state
    {
      && table < |state.tables|
      && Finished(state.Viewed(), state.tables[table])
      && results == Report(state.context, state.tables[table].goal, state.tables[table].answers)
    }

    /** The report is settled, and the stream is past its last answer. */
    ghost predicate Told(results: seq<SubstitutionResult>)
      reads this, state
    {
      Settled(results) && answer == |state.tables[table].answers|
    }

    /** An exhausted table is watched from now on. */
    ghost method Remember(results: seq<SubstitutionResult>)
      requires Valid() && Reported(state.context, state.tables[table], answer, results)
      requires |state.tables[table].answers| == answer && state.tables[table].strands == []
               && !state.tables[table].floundered
      modifies state`cover
      ensures Valid() && Told(results)
    {
      state.Watch(table, answer, (s, b) => true);
      var t := state.tables[table];
      assert t.answers[..answer] == t.answers;
    }

    lemma ToldAll(results: seq<SubstitutionResult>)
      requires Told(results)
      ensures Settled(results)
    {
    }
  }

  lemma ReportedHasNoRepeats(ctx: Context, table: Table, answer: nat, results: seq<SubstitutionResult>)
    requires Reported(ctx, table, answer, results)
    ensures NoRepeats(results)
  {
  }
}
