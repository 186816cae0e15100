/**
  What becomes of strands: where they are held, and the only ways in which a table may
  lose one.  Nothing here speaks of how the engine updates its tables.
 */
module SlgStrands {
  import opened Prelude
  import opened SlgContext
  import opened SlgInvariants
  import opened SlgClear
  import opened SlgCycles

  /** A strand of a table in the given mode may be pursued at the given time. */
  predicate Eligible(strand: Strand, clock: nat, mode: AnswerMode) {
    && strand.lastPursuedTime < clock
    && (mode.Ambiguous? || !strand.exClause.ambiguous)
  }

  // ----- Where strands are held -----

  ghost function Own(entry: StackEntry, t: nat): multiset<Strand> {
    if entry.table == t && entry.active.Some? then multiset{entry.active.value} else multiset{}
  }

  /** The active strands of table `t`. */
  ghost function Actives(stack: seq<StackEntry>, t: nat): multiset<Strand> {
    if stack == [] then multiset{} else Actives(Popped(stack), t) + Own(Top(stack), t)
  }

  /** All strands of table `t`, queued and active. */
  ghost function Held(tables: seq<Table>, stack: seq<StackEntry>, t: nat): multiset<Strand>
    requires t < |tables|
  {
    multiset(tables[t].strands) + Actives(stack, t)
  }

  lemma ActivesWithTop(stack: seq<StackEntry>, entry: StackEntry, t: nat)
    requires stack != []
    ensures Actives(WithTop(stack, entry), t) == Actives(Popped(stack), t) + Own(entry, t)
  {
    assert Popped(WithTop(stack, entry)) == Popped(stack);
  }

  lemma ActivesPushed(stack: seq<StackEntry>, entry: StackEntry, t: nat)
    ensures Actives(stack + [entry], t) == Actives(stack, t) + Own(entry, t)
  {
    assert Popped(stack + [entry]) == stack;
  }

  lemma {:induction false} ActivesSuspended(stack: seq<StackEntry>, t: nat)
    requires stack != []
    ensures Actives(Popped(stack), t) == multiset(Suspended(stack, t))
  {
    if |stack| >= 2 {
      ActivesSuspended(Popped(stack), t);
      assert Top(Popped(stack)) == stack[|stack| - 2];
    }
  }

  /** Unwinding keeps all strands but the one at the top. */
  lemma UnwoundHolds(tables: seq<Table>, stack: seq<StackEntry>, t: nat)
    requires stack != [] && t < |tables|
    ensures Held(Unwound(tables, stack), [], t) == multiset(tables[t].strands) + Actives(Popped(stack), t)
  {
    ActivesSuspended(stack, t);
  }

  // ----- The ways to lose a strand -----

  /**
    The table has just got an answer that is certain, says nothing about the goal's variables and has no constraints.
   */
  ghost predicate TrivialAnswer(ctx: Context, table: Table, table': Table) {
    && |table'.answers| == |table.answers| + 1
    && var answer := table'.answers[|table.answers|];
       !answer.ambiguous && ctx.identity(table.goal, answer.subst.subst) && ctx.unconstrained(answer.subst.subst)
  }

  ghost predicate Kept(tables: seq<Table>, stack: seq<StackEntry>, tables': seq<Table>, stack': seq<StackEntry>,
                       t: nat) {
    t < |tables| && t < |tables'| && Held(tables, stack, t) <= Held(tables', stack', t)
  }

  /** Table `t` has all its strands, has floundered, or has just got a trivial answer. */
  ghost predicate Conserved(ctx: Context, tables: seq<Table>, stack: seq<StackEntry>, tables': seq<Table>,
                            stack': seq<StackEntry>, t: nat) {
    && t < |tables| && t < |tables'|
    && (tables'[t].floundered || TrivialAnswer(ctx, tables[t], tables'[t]) || Kept(tables, stack, tables', stack', t))
  }

  ghost predicate AllKept(tables: seq<Table>, stack: seq<StackEntry>, tables': seq<Table>, stack': seq<StackEntry>) {
    |tables| <= |tables'| && forall t :: 0 <= t < |tables| ==> Kept(tables, stack, tables', stack', t)
  }

  ghost predicate AllConserved(ctx: Context, tables: seq<Table>, stack: seq<StackEntry>, tables': seq<Table>,
                               stack': seq<StackEntry>) {
    |tables| <= |tables'| && forall t :: 0 <= t < |tables| ==> Conserved(ctx, tables, stack, tables', stack', t)
  }

  /**
    The strand the engine turns to next: the active one at the top, or the first eligible one of the table at the top.
   */
  ghost predicate NextIs(tables: seq<Table>, stack: seq<StackEntry>, x: Strand) {
    && stack != [] && Top(stack).table < |tables|
    && var top := Top(stack);
       if top.active.Some? then x == top.active.value
       else exists k: nat :: FirstEligible(tables[top.table], top.clock, k) && tables[top.table].strands[k] == x
  }

  ghost predicate FirstEligible(table: Table, clock: nat, k: nat) {
    && k < |table.strands| && Eligible(table.strands[k], clock, table.mode)
    && forall i :: 0 <= i < k ==> !Eligible(table.strands[i], clock, table.mode)
  }

  ghost predicate NoneEligible(tables: seq<Table>, stack: seq<StackEntry>) {
    && stack != [] && Top(stack).table < |tables| && Top(stack).active.None?
    && var table := tables[Top(stack).table];
       forall k :: 0 <= k < |table.strands| ==> !Eligible(table.strands[k], Top(stack).clock, table.mode)
  }

  /**
    The strand of table `t` that the next step is about: it turns to it, or learns that what it waits for has failed.
   */
  ghost predicate Concerned(tables: seq<Table>, stack: seq<StackEntry>, t: nat, x: Strand) {
    || (stack != [] && t == Top(stack).table && NextIs(tables, stack, x))
    || CalleeFailed(tables, stack, t, x)
  }

  /** The table at the top has nothing left to try, and `x` has been waiting for it. */
  ghost predicate CalleeFailed(tables: seq<Table>, stack: seq<StackEntry>, t: nat, x: Strand) {
    && NoneEligible(tables, stack) && tables[Top(stack).table].strands == [] && |stack| > 1
    && stack[|stack| - 2].table == t && stack[|stack| - 2].active == Some(x)
  }

  /** The table at the top has only met positive cycles that do not reach below it, and table `t` takes part in them. */
  ghost predicate GivenUp(tables: seq<Table>, stack: seq<StackEntry>, t: nat) {
    && NoneEligible(tables, stack)
    && var top := Top(stack);
       && tables[top.table].mode.Ambiguous? && tables[top.table].strands != []
       && NotBefore(top.minimums.positive, top.clock) && top.minimums.negative.None?
       && (t == top.table || Reached(Taken(tables, top.table), tables[top.table].strands, t))
  }

  // ----- What becomes of the strand that is pursued -----

  /** The same substitution and the same goals to be proved, in some arrangement. */
  ghost predicate SameTask(a: ExClause, b: ExClause) {
    a.subst == b.subst && (a.ambiguous ==> b.ambiguous) && multiset(OpenAtoms(a)) == multiset(OpenAtoms(b))
  }

  /** `z` is `y` waiting for the next answer of the same table. */
  ghost predicate AsksNext(y: Strand, z: Strand) {
    && z.exClause == y.exClause && y.selected.Some? && z.selected.Some?
    && z.selected.value.subgoalIndex == y.selected.value.subgoalIndex
    && z.selected.value.subgoalTable == y.selected.value.subgoalTable
    && z.selected.value.answerIndex == y.selected.value.answerIndex + 1
  }

  /** `w` is what resolving subgoal `i` of `e` with an answer leaves to be proved. */
  ghost predicate ResolvedInto(r: Resolvent, e: ExClause, i: nat, answer: Answer, w: ExClause) {
    && i < |OpenAtoms(e)|
    && w.subst == r.subst(e.subst)
    && (w.ambiguous <==> e.ambiguous || answer.ambiguous)
    && multiset(OpenAtoms(w)) == multiset(Resolved(r, OpenAtoms(e), i, answer.subst))
  }

  /** The strand has been resolved with the answer it asked for, and the further answers are not forgotten. */
  ghost predicate Tried(ctx: Context, tables: seq<Table>, held: multiset<Strand>, y: Strand) {
    && y.selected.Some? && y.selected.value.subgoalIndex < |y.exClause.subgoals|
    && y.selected.value.subgoalTable < |tables|
    && y.selected.value.answerIndex < |tables[y.selected.value.subgoalTable].answers|
    && var i, table := y.selected.value.subgoalIndex, tables[y.selected.value.subgoalTable];
       var answer := table.answers[y.selected.value.answerIndex];
       match y.exClause.subgoals[i]
       case Positive(atom) =>
         && (ctx.identity(table.goal, answer.subst.subst) || exists z :: z in held && AsksNext(y, z))
         && (ctx.resolve(atom, table.goal, answer.subst).Some? ==>
               exists z :: z in held
                           && ResolvedInto(ctx.resolve(atom, table.goal, answer.subst).value, y.exClause, i, answer,
                              z.exClause))
       case Negative(atom) =>
         || !answer.ambiguous
         || exists z :: z in held && z.exClause.subst == y.exClause.subst && z.exClause.ambiguous
                        && multiset(OpenAtoms(z.exClause)) + multiset{atom} == multiset(OpenAtoms(y.exClause))
  }

  /** The strand has nothing left to prove but trivial cycles, and the table knows the answer it stands for. */
  ghost predicate Answered(ctx: Context, table: Table, e: ExClause) {
    && e.subgoals == []
    && exists s :: s in table.answersHash && Stands(ctx, table, e, s)
  }

  ghost predicate Stands(ctx: Context, table: Table, e: ExClause, s: AnswerSubst)
    requires s in table.answersHash
  {
    && s.subst == e.subst
    && (table.answersHash[s] ==> e.ambiguous)
    && forall a :: multiset(s.delayed)[a] == if ctx.canonical(a) == table.goal then 0 else multiset(e.delayed)[a]
  }

  /** The table has floundered, knows the strand's answer, has tried it, or still holds it. */
  ghost predicate FollowedFrom(ctx: Context, tables: seq<Table>, stack: seq<StackEntry>, t: nat, y: Strand) {
    && t < |tables|
    && (|| tables[t].floundered
        || (exists z :: z in Held(tables, stack, t) && SameTask(y.exClause, z.exClause))
        || Tried(ctx, tables, Held(tables, stack, t), y)
        || Answered(ctx, tables[t], y.exClause))
  }

  /** The same of the strand with its goals rearranged and one of them selected. */
  ghost predicate Followed(ctx: Context, tables: seq<Table>, stack: seq<StackEntry>, t: nat, x: Strand) {
    exists y: Strand :: SameTask(x.exClause, y.exClause) && FollowedFrom(ctx, tables, stack, t, y)
  }

  ghost predicate NextFollowed(ctx: Context, tables: seq<Table>, stack: seq<StackEntry>, tables': seq<Table>,
                               stack': seq<StackEntry>) {
    stack != [] && forall x :: NextIs(tables, stack, x) ==> Followed(ctx, tables', stack', Top(stack).table, x)
  }

  lemma OnlyNext(tables: seq<Table>, stack: seq<StackEntry>, x: Strand, y: Strand)
    requires NextIs(tables, stack, x) && NextIs(tables, stack, y)
    ensures x == y
  {
    if Top(stack).active.None? {
      var table := tables[Top(stack).table];
      var k: nat :| FirstEligible(table, Top(stack).clock, k) && table.strands[k] == x;
      var j: nat :| FirstEligible(table, Top(stack).clock, j) && table.strands[j] == y;
      assert k == j;
    }
  }

  lemma NothingNext(tables: seq<Table>, stack: seq<StackEntry>, x: Strand)
    requires NoneEligible(tables, stack)
    ensures !NextIs(tables, stack, x)
  {
  }

  /** A strand that is still held is followed. */
  lemma HeldFollowed(ctx: Context, tables: seq<Table>, stack: seq<StackEntry>, t: nat, y: Strand, z: Strand)
    requires t < |tables| && SameTask(y.exClause, z.exClause)
    requires z in tables[t].strands || (stack != [] && Top(stack).table == t && Top(stack).active == Some(z))
             || (|stack| > 1 && stack[|stack| - 2].table == t && stack[|stack| - 2].active == Some(z))
    ensures z in Held(tables, stack, t) && FollowedFrom(ctx, tables, stack, t, y)
  {
    if z in tables[t].strands {
      assert z in multiset(tables[t].strands);
    } else if Top(stack).table == t && Top(stack).active == Some(z) {
      assert z in Own(Top(stack), t);
    } else {
      var below := Popped(stack);
      assert Top(below) == stack[|stack| - 2];
      assert z in Own(Top(below), t);
      assert z in Actives(below, t);
    }
  }

  /** What a step may do to table `t`: at most the strand it is about is gone, unless one of the reasons applies. */
  ghost predicate StepKeeps(ctx: Context, tables: seq<Table>, stack: seq<StackEntry>, tables': seq<Table>,
                            stack': seq<StackEntry>, t: nat) {
    && t < |tables| && t < |tables'|
    && (|| Conserved(ctx, tables, stack, tables', stack', t)
        || GivenUp(tables, stack, t)
        || exists x ::
             Concerned(tables, stack, t, x) && Held(tables, stack, t) <= Held(tables', stack', t) + multiset{x})
  }

  ghost predicate EachKeeps(ctx: Context, tables: seq<Table>, stack: seq<StackEntry>, tables': seq<Table>,
                            stack': seq<StackEntry>) {
    |tables| <= |tables'| && forall t :: 0 <= t < |tables| ==> StepKeeps(ctx, tables, stack, tables', stack', t)
  }

  /** No strand is lost without a reason, and the strand that is pursued is followed up. */
  ghost predicate StepConserves(ctx: Context, tables: seq<Table>, stack: seq<StackEntry>, tables': seq<Table>,
                                stack': seq<StackEntry>) {
    EachKeeps(ctx, tables, stack, tables', stack') && NextFollowed(ctx, tables, stack, tables', stack')
  }

  // ----- Steps that keep all strands -----

  lemma KeptNext(tables: seq<Table>, stack: seq<StackEntry>, tables1: seq<Table>, stack1: seq<StackEntry>,
                 tables2: seq<Table>, stack2: seq<StackEntry>)
    requires AllKept(tables, stack, tables1, stack1) && AllKept(tables1, stack1, tables2, stack2)
    ensures AllKept(tables, stack, tables2, stack2)
  {
    hide Held;
    forall t | 0 <= t < |tables|
      ensures Kept(tables, stack, tables2, stack2, t)
    {
      assert Kept(tables, stack, tables1, stack1, t) && Kept(tables1, stack1, tables2, stack2, t);
    }
  }

  lemma KeptGrown(tables: seq<Table>, tables': seq<Table>, stack: seq<StackEntry>)
    requires tables <= tables'
    ensures AllKept(tables, stack, tables', stack)
  {
    hide Actives;
    forall t | 0 <= t < |tables|
      ensures Kept(tables, stack, tables', stack, t)
    {
    }
  }

  /** Queues may be rearranged, get longer, and change their modes. */
  lemma KeptQueued(tables: seq<Table>, t: nat, table: Table, stack: seq<StackEntry>)
    requires t < |tables| && multiset(tables[t].strands) <= multiset(table.strands)
    ensures AllKept(tables, stack, tables[t := table], stack)
  {
    hide Actives;
    var tables' := tables[t := table];
    forall i | 0 <= i < |tables|
      ensures Kept(tables, stack, tables', stack, i)
    {
    }
  }

  lemma KeptEnqueued(tables: seq<Table>, t: nat, strand: Strand, stack: seq<StackEntry>)
    requires t < |tables|
    ensures AllKept(tables, stack, tables[t := Enqueued(tables[t], strand)], stack)
  {
    hide AllKept;
    KeptQueued(tables, t, Enqueued(tables[t], strand), stack);
  }

  lemma KeptTop(tables: seq<Table>, stack: seq<StackEntry>, entry: StackEntry)
    requires stack != []
             && (Top(stack).active.None? || (entry.table == Top(stack).table && entry.active == Top(stack).active))
    ensures AllKept(tables, stack, tables, WithTop(stack, entry))
  {
    forall t | 0 <= t < |tables|
      ensures Kept(tables, stack, tables, WithTop(stack, entry), t)
    {
      ActivesWithTop(stack, entry, t);
    }
  }

  lemma KeptPushed(tables: seq<Table>, stack: seq<StackEntry>, entry: StackEntry)
    ensures AllKept(tables, stack, tables, stack + [entry])
  {
    forall t | 0 <= t < |tables|
      ensures Kept(tables, stack, tables, stack + [entry], t)
    {
      ActivesPushed(stack, entry, t);
    }
  }

  lemma KeptPopped(tables: seq<Table>, stack: seq<StackEntry>)
    requires stack != [] && Top(stack).active.None?
    ensures AllKept(tables, stack, tables, Popped(stack))
  {
    forall t | 0 <= t < |tables|
      ensures Kept(tables, stack, tables, Popped(stack), t)
    {
    }
  }

  lemma KeptUnwound(tables: seq<Table>, stack: seq<StackEntry>)
    requires stack != [] && Top(stack).active.None?
    ensures AllKept(tables, stack, Unwound(tables, stack), [])
  {
    forall t | 0 <= t < |tables|
      ensures Kept(tables, stack, Unwound(tables, stack), [], t)
    {
      UnwoundHolds(tables, stack, t);
    }
  }

  /** Handing the active strand at the top back to its table. */
  lemma KeptReturned(tables: seq<Table>, stack: seq<StackEntry>)
    requires stack != [] && Top(stack).table < |tables| && Top(stack).active.Some?
    ensures var top := Top(stack);
            AllKept(tables, stack, tables[top.table := Enqueued(tables[top.table], top.active.value)],
                    WithTop(stack, top.(active := None)))
  {
    var top := Top(stack);
    var tables' := tables[top.table := Enqueued(tables[top.table], top.active.value)];
    var stack' := WithTop(stack, top.(active := None));
    forall t | 0 <= t < |tables|
      ensures Kept(tables, stack, tables', stack', t)
    {
      ActivesWithTop(stack, top.(active := None), t);
    }
  }

  // ----- Steps that may give strands up -----

  lemma KeptIsConserved(ctx: Context, tables: seq<Table>, stack: seq<StackEntry>, tables': seq<Table>,
                        stack': seq<StackEntry>)
    requires AllKept(tables, stack, tables', stack')
    ensures AllConserved(ctx, tables, stack, tables', stack')
  {
    hide Held;
    forall t | 0 <= t < |tables|
      ensures Conserved(ctx, tables, stack, tables', stack', t)
    {
      assert Kept(tables, stack, tables', stack', t);
    }
  }

  lemma ConservedTable(ctx: Context, tables: seq<Table>, stack: seq<StackEntry>, t: nat, table: Table)
    requires t < |tables|
    requires table.floundered || table.strands == tables[t].strands || TrivialAnswer(ctx, tables[t], table)
    ensures AllConserved(ctx, tables, stack, tables[t := table], stack)
  {
    hide Actives, TrivialAnswer;
    var tables' := tables[t := table];
    forall i | 0 <= i < |tables|
      ensures Conserved(ctx, tables, stack, tables', stack, i)
    {
    }
  }

  lemma ConservedThenKept(ctx: Context, tables: seq<Table>, stack: seq<StackEntry>, tables1: seq<Table>,
                          stack1: seq<StackEntry>, tables2: seq<Table>, stack2: seq<StackEntry>)
    requires AllConserved(ctx, tables, stack, tables1, stack1) && AllKept(tables1, stack1, tables2, stack2)
    requires SameAnswers(tables1, tables2)
    ensures AllConserved(ctx, tables, stack, tables2, stack2)
  {
    hide Held;
    forall t | 0 <= t < |tables|
      ensures Conserved(ctx, tables, stack, tables2, stack2, t)
    {
      assert Conserved(ctx, tables, stack, tables1, stack1, t) && Kept(tables1, stack1, tables2, stack2, t);
    }
  }

  lemma KeptThenConserved(ctx: Context, tables: seq<Table>, stack: seq<StackEntry>, tables1: seq<Table>,
                          stack1: seq<StackEntry>, tables2: seq<Table>, stack2: seq<StackEntry>)
    requires AllKept(tables, stack, tables1, stack1) && AllConserved(ctx, tables1, stack1, tables2, stack2)
    requires SameAnswers(tables, tables1)
    ensures AllConserved(ctx, tables, stack, tables2, stack2)
  {
    hide Held;
    forall t | 0 <= t < |tables|
      ensures Conserved(ctx, tables, stack, tables2, stack2, t)
    {
      assert Kept(tables, stack, tables1, stack1, t) && Conserved(ctx, tables1, stack1, tables2, stack2, t);
    }
  }

  lemma ConservedInStep(ctx: Context, tables: seq<Table>, stack: seq<StackEntry>, tables': seq<Table>,
                        stack': seq<StackEntry>)
    requires AllConserved(ctx, tables, stack, tables', stack')
    ensures EachKeeps(ctx, tables, stack, tables', stack')
  {
    hide Conserved, GivenUp, Concerned;
    forall t | 0 <= t < |tables|
      ensures StepKeeps(ctx, tables, stack, tables', stack', t)
    {
      assert Conserved(ctx, tables, stack, tables', stack', t);
    }
  }

  /** Taking the strand to be pursued, from the stack or from its queue. */
  ghost predicate Took(tables: seq<Table>, stack: seq<StackEntry>, tables1: seq<Table>, stack1: seq<StackEntry>,
                       x: Strand) {
    && stack != [] && SameAnswers(tables, tables1) && NextIs(tables, stack, x)
    && forall t :: 0 <= t < |tables| ==>
         Held(tables, stack, t) <= Held(tables1, stack1, t) + if t == Top(stack).table then multiset{x} else multiset{}
  }

  lemma TookActive(tables: seq<Table>, stack: seq<StackEntry>)
    requires stack != [] && Top(stack).table < |tables| && Top(stack).active.Some?
    ensures Took(tables, stack, tables, WithTop(stack, Top(stack).(active := None)), Top(stack).active.value)
  {
    forall t | 0 <= t < |tables|
      ensures Held(tables, stack, t) <= Held(tables, WithTop(stack, Top(stack).(active := None)), t)
                                        + if t == Top(stack).table then multiset{Top(stack).active.value}
                                          else multiset{}
    {
      ActivesWithTop(stack, Top(stack).(active := None), t);
    }
  }

  lemma TookQueued(tables: seq<Table>, stack: seq<StackEntry>, k: nat)
    requires stack != [] && Top(stack).table < |tables| && Top(stack).active.None?
    requires FirstEligible(tables[Top(stack).table], Top(stack).clock, k)
    ensures var t, table := Top(stack).table, tables[Top(stack).table];
            Took(tables, stack, tables[t := table.(strands := table.strands[k + 1..] + table.strands[..k])], stack,
                 table.strands[k])
  {
    hide Actives;
    var table := tables[Top(stack).table];
    assert table.strands == table.strands[..k] + [table.strands[k]] + table.strands[k + 1..];
  }

  lemma PursuedInStep(ctx: Context, tables: seq<Table>, stack: seq<StackEntry>, tables1: seq<Table>,
                      stack1: seq<StackEntry>, tables2: seq<Table>, stack2: seq<StackEntry>, x: Strand)
    requires Took(tables, stack, tables1, stack1, x) && AllConserved(ctx, tables1, stack1, tables2, stack2)
    ensures EachKeeps(ctx, tables, stack, tables2, stack2)
  {
    hide Held, GivenUp, NextIs, NoneEligible;
    forall t | 0 <= t < |tables|
      ensures StepKeeps(ctx, tables, stack, tables2, stack2, t)
    {
      assert Conserved(ctx, tables1, stack1, tables2, stack2, t);
      if t == Top(stack).table {
        assert Concerned(tables, stack, t, x);
      }
    }
  }

  lemma CallerHolds(tables: seq<Table>, stack: seq<StackEntry>, active: Option<Strand>, t: nat)
    requires |stack| > 1 && Top(stack).active.None? && stack[|stack| - 2].active.Some? && t < |tables|
    ensures var caller := stack[|stack| - 2];
            var lost := if caller.table == t then multiset{caller.active.value} else multiset{};
            && Held(tables, stack, t) <= Held(Unwound(tables, Popped(stack)), [], t) + lost
            && Held(tables, stack, t) <= Held(tables, WithTop(Popped(stack), caller.(active := active)), t) + lost
  {
    var caller := stack[|stack| - 2];
    assert Top(Popped(stack)) == caller;
    UnwoundHolds(tables, Popped(stack), t);
    ActivesWithTop(Popped(stack), caller.(active := active), t);
    assert Actives(stack, t) == Actives(Popped(stack), t);
  }

  /** The caller's strand is settled or gone, and no other. */
  lemma CalleeFailedInStep(ctx: Context, tables: seq<Table>, stack: seq<StackEntry>, tables': seq<Table>,
                           stack': seq<StackEntry>, active: Option<Strand>)
    requires NoneEligible(tables, stack) && tables[Top(stack).table].strands == []
    requires |stack| > 1 && stack[|stack| - 2].active.Some?
    requires var caller := stack[|stack| - 2];
             || (tables' == Unwound(tables, Popped(stack)) && stack' == [])
             || (tables' == tables && stack' == WithTop(Popped(stack), caller.(active := active)))
    ensures EachKeeps(ctx, tables, stack, tables', stack')
  {
    hide GivenUp, Held;
    var caller := stack[|stack| - 2];
    forall t | 0 <= t < |tables|
      ensures StepKeeps(ctx, tables, stack, tables', stack', t)
    {
      CallerHolds(tables, stack, active, t);
      if caller.table == t {
        assert Concerned(tables, stack, t, caller.active.value);
      }
    }
  }

  /** Only the tables that have been given up lose strands. */
  lemma GivenUpInStep(ctx: Context, tables: seq<Table>, stack: seq<StackEntry>, tables1: seq<Table>,
                      tables': seq<Table>)
    requires stack != [] && Top(stack).active.None? && |tables1| == |tables| && tables' == Unwound(tables1, stack)
    requires forall t :: 0 <= t < |tables| ==> GivenUp(tables, stack, t) || tables1[t] == tables[t]
    ensures EachKeeps(ctx, tables, stack, tables', [])
  {
    hide GivenUp, Concerned, Actives;
    forall t | 0 <= t < |tables|
      ensures StepKeeps(ctx, tables, stack, tables', [], t)
    {
      if tables1[t] == tables[t] {
        KeptUnwound(tables, stack);
        assert Kept(tables, stack, Unwound(tables, stack), [], t);
        assert tables'[t] == Unwound(tables, stack)[t];
      }
    }
  }

  // ----- Whole runs -----

  datatype Snapshot = Snapshot(tables: seq<Table>, stack: seq<StackEntry>)

  /** Consecutive states of a search. */
  ghost predicate Run(ctx: Context, h: seq<Snapshot>) {
    && h != []
    && forall i :: 0 <= i < |h| - 1 ==> StepConserves(ctx, h[i].tables, h[i].stack, h[i + 1].tables, h[i + 1].stack)
  }

  ghost predicate RunFrom(ctx: Context, first: Snapshot, last: Snapshot, h: seq<Snapshot>) {
    Run(ctx, h) && h[0] == first && h[|h| - 1] == last
  }

  /** There is a search from one state to the other. */
  ghost predicate Ran(ctx: Context, first: Snapshot, last: Snapshot) {
    exists h :: RunFrom(ctx, first, last, h)
  }

  lemma RanNowhere(ctx: Context, s: Snapshot)
    ensures Ran(ctx, s, s)
  {
    assert RunFrom(ctx, s, s, [s]);
  }

  lemma RanFurther(ctx: Context, first: Snapshot, s: Snapshot, last: Snapshot)
    requires Ran(ctx, first, s) && StepConserves(ctx, s.tables, s.stack, last.tables, last.stack)
    ensures Ran(ctx, first, last)
  {
    hide StepConserves;
    var h :| RunFrom(ctx, first, s, h);
    var h' := h + [last];
    forall i | 0 <= i < |h'| - 1
      ensures StepConserves(ctx, h'[i].tables, h'[i].stack, h'[i + 1].tables, h'[i + 1].stack)
    {
      if i < |h| - 1 {
        assert h'[i] == h[i] && h'[i + 1] == h[i + 1];
      }
    }
    assert RunFrom(ctx, first, last, h');
  }

  /** Why table `t` has fewer copies of strand `x` after a step than before. */
  ghost predicate Accounted(ctx: Context, s: Snapshot, s': Snapshot, t: nat, x: Strand) {
    && t < |s.tables| && t < |s'.tables|
    && (|| s'.tables[t].floundered
        || TrivialAnswer(ctx, s.tables[t], s'.tables[t])
        || GivenUp(s.tables, s.stack, t)
        || CalleeFailed(s.tables, s.stack, t, x)
        || (NextIs(s.tables, s.stack, x) && t == Top(s.stack).table && Followed(ctx, s'.tables, s'.stack, t, x)))
  }

  lemma LostInStep(ctx: Context, s: Snapshot, s': Snapshot, t: nat, x: Strand)
    requires StepConserves(ctx, s.tables, s.stack, s'.tables, s'.stack) && t < |s.tables|
    requires Held(s'.tables, s'.stack, t)[x] < Held(s.tables, s.stack, t)[x]
    ensures Accounted(ctx, s, s', t, x)
  {
    hide GivenUp, CalleeFailed, NextIs, Followed, TrivialAnswer, Held;
    assert StepKeeps(ctx, s.tables, s.stack, s'.tables, s'.stack, t);
  }

  /** No strand is lost over a whole run but for one of the reasons, at some step. */
  lemma {:induction false} LostInRun(ctx: Context, h: seq<Snapshot>, t: nat, x: Strand)
    requires Run(ctx, h) && t < |h[0].tables| && t < |h[|h| - 1].tables|
    requires Held(h[|h| - 1].tables, h[|h| - 1].stack, t)[x] < Held(h[0].tables, h[0].stack, t)[x]
    ensures exists i :: 0 <= i < |h| - 1 && Accounted(ctx, h[i], h[i + 1], t, x)
  {
    hide StepKeeps, Accounted, Held;
    if |h| > 1 {
      var n := |h| - 2;
      var h' := h[..|h| - 1];
      assert StepConserves(ctx, h[n].tables, h[n].stack, h[n + 1].tables, h[n + 1].stack);
      assert Run(ctx, h') by {
        forall i | 0 <= i < |h'| - 1
          ensures StepConserves(ctx, h'[i].tables, h'[i].stack, h'[i + 1].tables, h'[i + 1].stack)
        {
          assert StepConserves(ctx, h[i].tables, h[i].stack, h[i + 1].tables, h[i + 1].stack);
        }
      }
      RunGrows(ctx, h', t);
      if Held(h[n + 1].tables, h[n + 1].stack, t)[x] < Held(h[n].tables, h[n].stack, t)[x] {
        LostInStep(ctx, h[n], h[n + 1], t, x);
      } else {
        LostInRun(ctx, h', t, x);
        var i :| 0 <= i < |h'| - 1 && Accounted(ctx, h'[i], h'[i + 1], t, x);
        assert Accounted(ctx, h[i], h[i + 1], t, x);
      }
    }
  }

  lemma {:induction false} RunGrows(ctx: Context, h: seq<Snapshot>, t: nat)
    requires Run(ctx, h) && t < |h[0].tables|
    ensures t < |h[|h| - 1].tables|
  {
    hide StepKeeps;
    if |h| > 1 {
      var h' := h[..|h| - 1];
      forall i | 0 <= i < |h'| - 1
        ensures StepConserves(ctx, h'[i].tables, h'[i].stack, h'[i + 1].tables, h'[i + 1].stack)
      {
        assert StepConserves(ctx, h[i].tables, h[i].stack, h[i + 1].tables, h[i + 1].stack);
      }
      RunGrows(ctx, h', t);
      var n := |h| - 2;
      assert StepConserves(ctx, h[n].tables, h[n].stack, h[n + 1].tables, h[n + 1].stack);
    }
  }
}
