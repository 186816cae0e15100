/**
  The invariants of the SLG engine: what holds of every strand, table and stack
  entry in every reachable state, and how the basic updates preserve it.
 */
module SlgInvariants {
  import opened Prelude
  import opened SlgContext

  // ----- What is being watched -----

  /** The substitutions that the answers of one table, from some index on, are expected to refine. */
  datatype Cover = Cover(goal: TableGoal, floundered: bool, from: nat, base: set<Subst>, finer: (Subst, Subst) -> bool)

  /** The engine's operations, and what is currently being watched, if anything. */
  datatype View = View(ops: Context, cover: Option<Cover>)

  /** Resolution only ever refines substitutions. */
  ghost predicate Refining(ops: Context, finer: (Subst, Subst) -> bool) {
    && (forall s :: finer(s, s))
    && (forall a, b, c :: finer(a, b) && finer(b, c) ==> finer(a, c))
    && (forall atom, g, answer, s :: ops.resolve(atom, g, answer).Some? ==>
         finer(ops.resolve(atom, g, answer).value.subst(s), s))
  }

  ghost predicate ViewOk(v: View, indices: map<TableGoal, nat>) {
    v.cover.Some? ==> Refining(v.ops, v.cover.value.finer) && v.cover.value.goal in indices
  }

  /** A strand of a watched table refines one of the expected substitutions. */
  ghost predicate Inside(v: View, g: TableGoal, s: Subst) {
    v.cover.Some? && v.cover.value.goal == g ==> exists b :: b in v.cover.value.base && v.cover.value.finer(s, b)
  }

  // ----- Strands -----

  /** The selected subgoal is the last one, names its table, and asks for an answer that exists or comes next. */
  ghost predicate SelectedOk(ctx: View, tables: seq<Table>, e: ExClause, sel: Selected) {
    && sel.subgoalIndex + 1 == |e.subgoals|
    && sel.subgoalTable < |tables|
    && ctx.ops.tableFor(e.subgoals[sel.subgoalIndex]) == Some(tables[sel.subgoalTable].goal)
    && (tables[sel.subgoalTable].floundered || sel.answerIndex <= |tables[sel.subgoalTable].answers|)
  }

  ghost predicate TimesOk(e: ExClause) {
    forall k :: 0 <= k < |e.floundered| ==> e.floundered[k].time <= e.answerTime
  }

  /** A strand of a table with goal `g`. */
  ghost predicate StrandOk(ctx: View, tables: seq<Table>, g: TableGoal, s: Strand) {
    && TimesOk(s.exClause)
    && (s.selected.Some? ==> SelectedOk(ctx, tables, s.exClause, s.selected.value))
    && (Definite(ctx.ops) ==> ExClauseSound(ctx.ops, g, s.exClause))
    && Inside(ctx, g, s.exClause.subst)
  }

  ghost predicate StrandsOk(ctx: View, tables: seq<Table>, g: TableGoal, strands: seq<Strand>) {
    forall k :: 0 <= k < |strands| ==> StrandOk(ctx, tables, g, strands[k])
  }

  // ----- Tables -----

  /** The hash index holds exactly the published answers, and no answer is published twice. */
  ghost predicate Indexed(answers: seq<Answer>, hash: map<AnswerSubst, bool>) {
    && (forall k :: 0 <= k < |answers| ==> answers[k].subst in hash && hash[answers[k].subst] == answers[k].ambiguous)
    && (forall i, j :: 0 <= i < j < |answers| ==> answers[i].subst != answers[j].subst)
    && (forall s :: s in hash ==> exists k :: 0 <= k < |answers| && answers[k].subst == s)
  }

  ghost predicate AnswerSound(ctx: Context, g: TableGoal, a: Answer) {
    && AllAssumable(ctx, a.subst.delayed)
    && (!a.ambiguous ==> Derives(ctx, g, a.subst.subst, a.subst.delayed))
  }

  ghost predicate AnswersOk(ctx: View, t: Table) {
    && (!t.floundered ==> Indexed(t.answers, t.answersHash))
    && (t.mode.Complete? ==> forall k :: 0 <= k < |t.answers| ==> !t.answers[k].ambiguous)
    && (Definite(ctx.ops) ==> forall k :: 0 <= k < |t.answers| ==> AnswerSound(ctx.ops, t.goal, t.answers[k]))
  }

  /** The answers of a watched table from the given index on refine the expected substitutions. */
  ghost predicate AnswersInside(ctx: View, t: Table) {
    ctx.cover.Some? && ctx.cover.value.goal == t.goal ==>
      var cover := ctx.cover.value;
      if t.floundered then
        cover.floundered || cover.base != {}
      else
        && cover.from <= |t.answers|
        && forall k :: cover.from <= k < |t.answers| ==> Inside(ctx, t.goal, t.answers[k].subst.subst)
  }

  ghost predicate TableOk(ctx: View, tables: seq<Table>, t: Table) {
    && StrandsOk(ctx, tables, t.goal, t.strands)
    && AnswersOk(ctx, t)
    && AnswersInside(ctx, t)
    && (t.floundered ==> t.strands == [] && t.answers == [])
    && (ctx.ops.clauses(t.goal).None? ==> t.floundered)
    && t.coinductive == ctx.ops.coinductive(t.goal)
  }

  ghost predicate IndexOk(tables: seq<Table>, indices: map<TableGoal, nat>) {
    && (forall i :: 0 <= i < |tables| ==> tables[i].goal in indices && indices[tables[i].goal] == i)
    && (forall g :: g in indices ==> indices[g] < |tables| && tables[indices[g]].goal == g)
  }

  ghost predicate TablesOk(ctx: View, tables: seq<Table>) {
    forall i :: 0 <= i < |tables| ==> TableOk(ctx, tables, tables[i])
  }

  // ----- The stack -----

  /** A minimum below the entry's own clock is the clock of an entry strictly beneath it. */
  ghost predicate Anchored(stack: seq<StackEntry>, i: nat, t: Option<nat>)
    requires i < |stack|
  {
    t.Some? && t.value < stack[i].clock ==> exists j :: 0 <= j < i && stack[j].clock == t.value
  }

  /** The entry's active strand waits for the next answer of `callee`. */
  ghost predicate Waiting(tables: seq<Table>, entry: StackEntry, callee: nat) {
    && entry.active.Some?
    && entry.active.value.selected.Some?
    && callee < |tables|
    && entry.active.value.selected.value.subgoalTable == callee
    && entry.active.value.selected.value.answerIndex == |tables[callee].answers|
  }

  ghost predicate EntryOk(ctx: View, tables: seq<Table>, clock: nat, entry: StackEntry) {
    && entry.table < |tables|
    && !tables[entry.table].floundered
    && entry.clock <= clock
    && (entry.active.Some? ==> StrandOk(ctx, tables, tables[entry.table].goal, entry.active.value))
  }

  ghost predicate Ordered(stack: seq<StackEntry>) {
    forall i, j :: 0 <= i < j < |stack| ==> stack[i].clock < stack[j].clock && stack[i].table != stack[j].table
  }

  ghost predicate MinimumsOk(stack: seq<StackEntry>) {
    forall i :: 0 <= i < |stack| ==>
                  Anchored(stack, i, stack[i].minimums.positive) && Anchored(stack, i, stack[i].minimums.negative)
  }

  ghost predicate CallersWait(tables: seq<Table>, stack: seq<StackEntry>) {
    forall i {:trigger stack[i]} :: 0 <= i < |stack| - 1 ==> Waiting(tables, stack[i], stack[i + 1].table)
  }

  ghost predicate EntriesOk(ctx: View, tables: seq<Table>, clock: nat, stack: seq<StackEntry>) {
    forall i :: 0 <= i < |stack| ==> EntryOk(ctx, tables, clock, stack[i])
  }

  ghost predicate StackOk(ctx: View, tables: seq<Table>, clock: nat, stack: seq<StackEntry>) {
    && EntriesOk(ctx, tables, clock, stack)
    && Ordered(stack)
    && MinimumsOk(stack)
    && CallersWait(tables, stack)
  }

  // ----- How tables may change -----

  /** Answers are only ever appended, unless the table flounders. */
  ghost predicate Grows(a: Table, b: Table) {
    && a.goal == b.goal
    && a.coinductive == b.coinductive
    && (b.floundered || (!a.floundered && a.answers <= b.answers))
  }

  ghost predicate TablesGrow(tables: seq<Table>, tables': seq<Table>) {
    && |tables| <= |tables'|
    && (forall i :: 0 <= i < |tables| ==> Grows(tables[i], tables'[i]))
  }

  /** No answer was added or lost and nothing floundered. */
  ghost predicate SameAnswers(tables: seq<Table>, tables': seq<Table>) {
    && |tables| <= |tables'|
    && (forall i :: 0 <= i < |tables| ==>
          && tables[i].goal == tables'[i].goal
          && tables[i].coinductive == tables'[i].coinductive
          && tables[i].floundered == tables'[i].floundered
          && tables[i].answers == tables'[i].answers
          && tables[i].answersHash == tables'[i].answersHash)
  }

  lemma StrandOkGrows(ctx: View, tables: seq<Table>, tables': seq<Table>, g: TableGoal, s: Strand)
    requires TablesGrow(tables, tables') && StrandOk(ctx, tables, g, s)
    ensures StrandOk(ctx, tables', g, s)
  {
  }

  /** Replacing one table by a grown one. */
  lemma UpdateTableOk(ctx: View, tables: seq<Table>, t: nat, table: Table)
    requires TablesOk(ctx, tables) && t < |tables| && Grows(tables[t], table) && TableOk(ctx, tables, table)
    ensures TablesOk(ctx, tables[t := table]) && TablesGrow(tables, tables[t := table])
  {
    var tables' := tables[t := table];
    hide AnswersOk, StrandOk;
    assert TablesGrow(tables, tables') by {
      forall i | 0 <= i < |tables|
        ensures Grows(tables[i], tables'[i])
      {
        GrowsReflexive(ctx, tables, i);
      }
    }
    forall i | 0 <= i < |tables'|
      ensures TableOk(ctx, tables', tables'[i])
    {
      TableOkGrows(ctx, tables, tables', tables'[i]);
    }
  }

  lemma GrowsReflexive(ctx: View, tables: seq<Table>, i: nat)
    requires i < |tables|
    ensures Grows(tables[i], tables[i])
  {
  }

  lemma TableOkGrows(ctx: View, tables: seq<Table>, tables': seq<Table>, t: Table)
    requires TablesGrow(tables, tables') && TableOk(ctx, tables, t)
    ensures TableOk(ctx, tables', t)
  {
    hide AnswersOk;
    forall k | 0 <= k < |t.strands|
      ensures StrandOk(ctx, tables', t.goal, t.strands[k])
    {
      StrandOkGrows(ctx, tables, tables', t.goal, t.strands[k]);
    }
  }

  lemma SameAnswersGrow(tables: seq<Table>, tables': seq<Table>)
    requires SameAnswers(tables, tables')
    ensures TablesGrow(tables, tables')
  {
  }

  lemma GrowReflexive(tables: seq<Table>)
    ensures TablesGrow(tables, tables)
  {
    forall i | 0 <= i < |tables|
      ensures Grows(tables[i], tables[i])
    {
    }
  }

  lemma GrowTransitive(a: seq<Table>, b: seq<Table>, c: seq<Table>)
    requires TablesGrow(a, b) && TablesGrow(b, c)
    ensures TablesGrow(a, c)
  {
    forall i | 0 <= i < |a|
      ensures Grows(a[i], c[i])
    {
      assert Grows(a[i], b[i]) && Grows(b[i], c[i]);
    }
  }

  lemma StackOkSame(ctx: View, tables: seq<Table>, tables': seq<Table>, clock: nat, stack: seq<StackEntry>)
    requires SameAnswers(tables, tables') && StackOk(ctx, tables, clock, stack)
    ensures StackOk(ctx, tables', clock, stack)
  {
    SameAnswersGrow(tables, tables');
    hide StrandOk, Anchored, TablesGrow;
    forall i | 0 <= i < |stack|
      ensures EntryOk(ctx, tables', clock, stack[i])
    {
      if stack[i].active.Some? {
        StrandOkGrows(ctx, tables, tables', tables[stack[i].table].goal, stack[i].active.value);
      }
    }
  }

  /** Changing the queue or the mode of a table. */
  lemma UpdateStrandsOk(ctx: View, tables: seq<Table>, clock: nat, stack: seq<StackEntry>, t: nat, strands: seq<Strand>,
                        mode: AnswerMode)
    requires TablesOk(ctx, tables) && StackOk(ctx, tables, clock, stack) && t < |tables|
    requires StrandsOk(ctx, tables, tables[t].goal, strands)
    requires tables[t].floundered ==> strands == []
    requires mode.Complete? ==> tables[t].mode.Complete?
    ensures var tables' := tables[t := tables[t].(strands := strands, mode := mode)];
            TablesOk(ctx, tables') && StackOk(ctx, tables', clock, stack) && SameAnswers(tables, tables')
  {
    hide StrandOk, Indexed, AnswerSound, EntryOk, Waiting, Anchored;
    var table := tables[t].(strands := strands, mode := mode);
    UpdateTableOk(ctx, tables, t, table);
    StackOkSame(ctx, tables, tables[t := table], clock, stack);
  }

  lemma AppendTableOk(ctx: View, tables: seq<Table>, clock: nat, stack: seq<StackEntry>, table: Table)
    requires TablesOk(ctx, tables) && StackOk(ctx, tables, clock, stack)
    requires TableOk(ctx, tables, table)
    ensures TablesOk(ctx, tables + [table]) && StackOk(ctx, tables + [table], clock, stack)
            && SameAnswers(tables, tables + [table])
  {
    hide StrandOk, AnswersOk, EntryOk, Waiting, Anchored;
    var tables' := tables + [table];
    SameAnswersGrow(tables, tables');
    StackOkSame(ctx, tables, tables', clock, stack);
    forall i | 0 <= i < |tables'|
      ensures TableOk(ctx, tables', tables'[i])
    {
      TableOkGrows(ctx, tables, tables', tables'[i]);
    }
  }

  // ----- The top of the stack -----

  function Top(stack: seq<StackEntry>): StackEntry
    requires stack != []
  {
    stack[|stack| - 1]
  }

  function Popped(stack: seq<StackEntry>): seq<StackEntry>
    requires stack != []
  {
    stack[..|stack| - 1]
  }

  function WithTop(stack: seq<StackEntry>, entry: StackEntry): seq<StackEntry>
    requires stack != []
  {
    stack[|stack| - 1 := entry]
  }

  lemma AnchoredSame(stack: seq<StackEntry>, stack': seq<StackEntry>, i: nat, t: Option<nat>)
    requires i < |stack| && i < |stack'| && Anchored(stack, i, t)
    requires forall j :: 0 <= j <= i ==> stack[j].clock == stack'[j].clock
    ensures Anchored(stack', i, t)
  {
    if t.Some? && t.value < stack'[i].clock {
      var j :| 0 <= j < i && stack[j].clock == t.value;
      assert stack'[j].clock == t.value;
    }
  }

  /** Changing the active strand or lowering the minimums of the top entry. */
  lemma SetTopOk(ctx: View, tables: seq<Table>, clock: nat, stack: seq<StackEntry>, active: Option<Strand>, m: Minimums)
    requires StackOk(ctx, tables, clock, stack) && stack != []
    requires active.Some? ==> StrandOk(ctx, tables, tables[Top(stack).table].goal, active.value)
    requires Anchored(stack, |stack| - 1, m.positive) && Anchored(stack, |stack| - 1, m.negative)
    ensures StackOk(ctx, tables, clock,
            WithTop(stack, Top(stack).(active := active, minimums := TakeMinimums(Top(stack).minimums, m))))
  {
    hide StrandOk, Anchored, Waiting;
    var stack' := WithTop(stack, Top(stack).(active := active, minimums := TakeMinimums(Top(stack).minimums, m)));
    forall i | 0 <= i < |stack'|
      ensures Anchored(stack', i, stack'[i].minimums.positive) && Anchored(stack', i, stack'[i].minimums.negative)
    {
      AnchoredSame(stack, stack', i, stack'[i].minimums.positive);
      AnchoredSame(stack, stack', i, stack'[i].minimums.negative);
    }
  }

  lemma SetActiveOk(ctx: View, tables: seq<Table>, clock: nat, stack: seq<StackEntry>, active: Option<Strand>)
    requires StackOk(ctx, tables, clock, stack) && stack != []
    requires active.Some? ==> StrandOk(ctx, tables, tables[Top(stack).table].goal, active.value)
    ensures StackOk(ctx, tables, clock, WithTop(stack, Top(stack).(active := active)))
  {
    hide EntriesOk, Ordered, MinimumsOk, CallersWait, StrandOk;
    SetTopOk(ctx, tables, clock, stack, active, Minimums(None, None));
    assert TakeMinimums(Top(stack).minimums, Minimums(None, None)) == Top(stack).minimums;
  }

  lemma PopOk(ctx: View, tables: seq<Table>, clock: nat, stack: seq<StackEntry>)
    requires StackOk(ctx, tables, clock, stack) && stack != []
    ensures StackOk(ctx, tables, clock, Popped(stack))
  {
    hide EntryOk, Waiting, Anchored;
    var stack' := Popped(stack);
    forall i | 0 <= i < |stack'|
      ensures Anchored(stack', i, stack'[i].minimums.positive) && Anchored(stack', i, stack'[i].minimums.negative)
    {
      AnchoredSame(stack, stack', i, stack'[i].minimums.positive);
      AnchoredSame(stack, stack', i, stack'[i].minimums.negative);
    }
  }

  lemma PushOk(ctx: View, tables: seq<Table>, clock: nat, stack: seq<StackEntry>, callee: nat)
    requires StackOk(ctx, tables, clock, stack) && callee < |tables| && !tables[callee].floundered
    requires stack != [] ==> Waiting(tables, Top(stack), callee)
    requires forall i :: 0 <= i < |stack| ==> stack[i].table != callee
    ensures StackOk(ctx, tables, clock + 1, stack + [StackEntry(callee, clock + 1, Minimums(None, None), None)])
  {
    hide StrandOk, Waiting;
    var stack' := stack + [StackEntry(callee, clock + 1, Minimums(None, None), None)];
    forall i | 0 <= i < |stack|
      ensures Anchored(stack', i, stack'[i].minimums.positive) && Anchored(stack', i, stack'[i].minimums.negative)
    {
      AnchoredSame(stack, stack', i, stack'[i].minimums.positive);
      AnchoredSame(stack, stack', i, stack'[i].minimums.negative);
    }
    forall i | 0 <= i < |stack'| - 1
      ensures Waiting(tables, stack'[i], stack'[i + 1].table)
    {
      assert stack'[i] == stack[i];
      if i < |stack| - 1 {
        assert stack'[i + 1] == stack[i + 1];
      }
    }
  }

  /** What was anchored for a popped entry is anchored for the entry below it. */
  lemma AnchoredBelow(stack: seq<StackEntry>, t: Option<nat>)
    requires Ordered(stack) && |stack| > 1 && Anchored(stack, |stack| - 1, t)
    ensures Anchored(Popped(stack), |stack| - 2, t)
  {
    if t.Some? && t.value < stack[|stack| - 2].clock {
      var j :| 0 <= j < |stack| - 1 && stack[j].clock == t.value;
      assert Popped(stack)[j].clock == t.value;
    }
  }

  // ----- Unwinding -----

  /** The strands that unwinding hands back to table `t`, in order: those of the entries below the top. */
  ghost function Suspended(stack: seq<StackEntry>, t: nat): seq<Strand> {
    if |stack| < 2 then [] else
      var caller := stack[|stack| - 2];
      (if caller.table == t && caller.active.Some? then [caller.active.value] else []) + Suspended(Popped(stack), t)
  }

  ghost function Unwound(tables: seq<Table>, stack: seq<StackEntry>): seq<Table> {
    seq(|tables|, i requires 0 <= i < |tables| => tables[i].(strands := tables[i].strands + Suspended(stack, i)))
  }

  /** All that unwinding needs: everything but the top entry is in order. */
  ghost predicate Unwindable(ctx: View, tables: seq<Table>, clock: nat, stack: seq<StackEntry>) {
    && stack != []
    && StackOk(ctx, tables, clock, Popped(stack))
    && (|stack| > 1 ==> Top(Popped(stack)).active.Some?)
  }

  lemma CanUnwind(ctx: View, tables: seq<Table>, clock: nat, stack: seq<StackEntry>)
    requires StackOk(ctx, tables, clock, stack) && stack != []
    ensures Unwindable(ctx, tables, clock, stack)
  {
    hide EntryOk, Anchored;
    PopOk(ctx, tables, clock, stack);
    assert |stack| > 1 ==> Waiting(tables, stack[|stack| - 2], stack[|stack| - 1].table);
  }

  /** The top entry's own strand plays no part in unwinding. */
  lemma {:induction false} SuspendedBelowTop(stack: seq<StackEntry>, entry: StackEntry, t: nat)
    requires stack != []
    ensures Suspended(WithTop(stack, entry), t) == Suspended(stack, t)
  {
    assert Popped(WithTop(stack, entry)) == Popped(stack);
  }

  lemma UnwoundBelowTop(tables: seq<Table>, stack: seq<StackEntry>, entry: StackEntry)
    requires stack != []
    ensures Unwound(tables, WithTop(stack, entry)) == Unwound(tables, stack)
  {
    forall t | 0 <= t < |tables|
      ensures Suspended(WithTop(stack, entry), t) == Suspended(stack, t)
    {
      SuspendedBelowTop(stack, entry, t);
    }
  }

  /** One step of unwinding moves one strand from the stack to its table. */
  lemma UnwindStep(tables: seq<Table>, stack: seq<StackEntry>)
    requires |stack| > 1
    requires var caller := Top(Popped(stack)); caller.active.Some? && caller.table < |tables|
    ensures var caller := Top(Popped(stack));
            var table := tables[caller.table];
            Unwound(tables[caller.table := table.(strands := table.strands + [caller.active.value])],
                    WithTop(Popped(stack), caller.(active := None))) == Unwound(tables, stack)
  {
    var caller := Top(Popped(stack));
    var stack' := WithTop(Popped(stack), caller.(active := None));
    var table := tables[caller.table];
    var tables' := tables[caller.table := table.(strands := table.strands + [caller.active.value])];
    forall i | 0 <= i < |tables|
      ensures tables'[i].strands + Suspended(stack', i) == tables[i].strands + Suspended(stack, i)
    {
      SuspendedBelowTop(Popped(stack), caller.(active := None), i);
    }
    assert Unwound(tables', stack') == Unwound(tables, stack);
  }

  /** Every suspended strand goes back to its own table, and to no other. */
  lemma {:induction false} SuspendedOnce(stack: seq<StackEntry>, t: nat)
    requires Ordered(stack)
    requires forall i :: 0 <= i < |stack| - 1 ==> stack[i].active.Some?
    ensures forall i :: 0 <= i < |stack| - 1 && stack[i].table == t ==> Suspended(stack, t) == [stack[i].active.value]
    ensures (forall i :: 0 <= i < |stack| - 1 ==> stack[i].table != t) ==> Suspended(stack, t) == []
  {
    if |stack| >= 2 {
      SuspendedOnce(Popped(stack), t);
      assert forall i :: 0 <= i < |stack| - 1 ==> Popped(stack)[i] == stack[i];
    }
  }

  // ----- Publishing -----

  /** A table that is not on the stack may grow. */
  lemma StackOkElsewhere(ctx: View, tables: seq<Table>, clock: nat, stack: seq<StackEntry>, t: nat, table: Table)
    requires StackOk(ctx, tables, clock, stack) && t < |tables| && Grows(tables[t], table)
    requires forall i :: 0 <= i < |stack| ==> stack[i].table != t
    ensures StackOk(ctx, tables[t := table], clock, stack)
  {
    var tables' := tables[t := table];
    assert TablesGrow(tables, tables');
    hide StrandOk, Anchored, TablesGrow;
    forall i | 0 <= i < |stack|
      ensures EntryOk(ctx, tables', clock, stack[i])
    {
      if stack[i].active.Some? {
        StrandOkGrows(ctx, tables, tables', tables[stack[i].table].goal, stack[i].active.value);
      }
    }
    forall i | 0 <= i < |stack| - 1
      ensures Waiting(tables', stack[i], stack[i + 1].table)
    {
      assert Waiting(tables, stack[i], stack[i + 1].table);
    }
  }

  /** Changing the table at the top of the stack leaves the rest of the stack in order. */
  lemma TopTableOk(ctx: View, tables: seq<Table>, clock: nat, stack: seq<StackEntry>, table: Table)
    requires TablesOk(ctx, tables) && StackOk(ctx, tables, clock, stack) && stack != []
    requires Grows(tables[Top(stack).table], table) && TableOk(ctx, tables, table)
    ensures TablesOk(ctx, tables[Top(stack).table := table])
    ensures Unwindable(ctx, tables[Top(stack).table := table], clock, stack)
    ensures TablesGrow(tables, tables[Top(stack).table := table])
  {
    hide TableOk, Anchored, StrandOk;
    UpdateTableOk(ctx, tables, Top(stack).table, table);
    CanUnwind(ctx, tables, clock, stack);
    StackOkElsewhere(ctx, tables, clock, Popped(stack), Top(stack).table, table);
  }

  lemma IndexOkUpdate(tables: seq<Table>, indices: map<TableGoal, nat>, t: nat, table: Table)
    requires IndexOk(tables, indices) && t < |tables| && table.goal == tables[t].goal
    ensures IndexOk(tables[t := table], indices)
  {
  }

  /** A new answer keeps the hash index exact. */
  lemma IndexedAppend(answers: seq<Answer>, hash: map<AnswerSubst, bool>, a: Answer)
    requires Indexed(answers, hash) && a.subst !in hash
    ensures Indexed(answers + [a], hash[a.subst := a.ambiguous])
  {
    var answers', hash' := answers + [a], hash[a.subst := a.ambiguous];
    forall s | s in hash'
      ensures exists k :: 0 <= k < |answers'| && answers'[k].subst == s
    {
      if s == a.subst {
        assert answers'[|answers|].subst == s;
      } else {
        var k :| 0 <= k < |answers| && answers[k].subst == s;
        assert answers'[k].subst == s;
      }
    }
  }

  lemma PublishOk(ctx: View, tables: seq<Table>, t: Table, a: Answer, strands: seq<Strand>)
    requires TableOk(ctx, tables, t) && !t.floundered && a.subst !in t.answersHash
    requires t.mode.Complete? ==> !a.ambiguous
    requires Definite(ctx.ops) ==> AnswerSound(ctx.ops, t.goal, a)
    requires Inside(ctx, t.goal, a.subst.subst)
    requires strands == t.strands || strands == []
    ensures TableOk(ctx, tables,
            t.(answers := t.answers + [a], answersHash := t.answersHash[a.subst := a.ambiguous], strands := strands))
  {
    hide StrandOk, AnswerSound, Definite, Indexed, Inside;
    IndexedAppend(t.answers, t.answersHash, a);
  }
}
