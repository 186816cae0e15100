/**
  How far down the stack cycles reach: the strands that were returned to a table on the
  stack because of a cycle, and what the minimums recorded in its entry say about them.
 */
module SlgCycles {
  import opened Prelude
  import opened SlgContext
  import opened SlgInvariants

  /**
    A strand that was returned to its table because of a cycle reaching down to the entry with clock `reach`.  The cycle
    is direct if that entry's table is the strand's selected one; otherwise the selected table's strands reach there.
    It is negative if one of the literals selected on the way is.
   */
  datatype Met = Met(strand: Strand, reach: nat, direct: bool, negative: bool)

  predicate SelectsNegative(strand: Strand) {
    && strand.selected.Some?
    && strand.selected.value.subgoalIndex < |strand.exClause.subgoals|
    && strand.exClause.subgoals[strand.selected.value.subgoalIndex].Negative?
  }

  function Enqueued(table: Table, strand: Strand): Table {
    table.(strands := table.strands + [strand])
  }

  /** The entry after one of its strands ran into a cycle. */
  function CycleRecorded(entry: StackEntry, strand: Strand, minimums: Minimums): StackEntry
    requires strand.selected.Some? && strand.selected.value.subgoalIndex < |strand.exClause.subgoals|
  {
    var m := match strand.exClause.subgoals[strand.selected.value.subgoalIndex]
             case Positive(_) => minimums
             case Negative(_) => Minimums(Some(entry.clock), MinimumOfPosAndNeg(minimums));
    entry.(minimums := TakeMinimums(entry.minimums, m))
  }

  // ----- Minimums -----

  /** A minimum is before a time exactly if one of the two is. */
  lemma MinTimeExactly(a: Option<nat>, b: Option<nat>, c: nat)
    ensures NotBefore(MinTime(a, b), c) <==> NotBefore(a, c) && NotBefore(b, c)
  {
  }

  lemma TakeMinimumsExactly(a: Minimums, b: Minimums, c: nat)
    ensures NotBefore(MinimumOfPosAndNeg(TakeMinimums(a, b)), c) <==>
            NotBefore(MinimumOfPosAndNeg(a), c) && NotBefore(MinimumOfPosAndNeg(b), c)
  {
    hide MinTime, NotBefore;
    MinTimeExactly(MinTime(a.positive, b.positive), MinTime(a.negative, b.negative), c);
    MinTimeExactly(a.positive, b.positive, c);
    MinTimeExactly(a.negative, b.negative, c);
    MinTimeExactly(a.positive, a.negative, c);
    MinTimeExactly(b.positive, b.negative, c);
  }

  /** The recorded time is the furthest that the cycles in `met` reach. */
  ghost predicate LeastReach(t: Option<nat>, met: set<Met>) {
    forall c: nat :: NotBefore(t, c) <==> NoneBefore(met, c)
  }

  ghost predicate NoneBefore(met: set<Met>, c: nat) {
    forall m :: m in met ==> m.reach >= c
  }

  ghost predicate SomeNegative(met: set<Met>) {
    exists m :: m in met && m.negative
  }

  lemma LeastOfBoth(a: Minimums, b: Minimums, met: set<Met>, more: set<Met>)
    requires LeastReach(MinimumOfPosAndNeg(a), met) && LeastReach(MinimumOfPosAndNeg(b), more)
    ensures LeastReach(MinimumOfPosAndNeg(TakeMinimums(a, b)), met + more)
  {
    hide MinTime, NotBefore, MinimumOfPosAndNeg, TakeMinimums;
    forall c: nat
      ensures NotBefore(MinimumOfPosAndNeg(TakeMinimums(a, b)), c) <==> NoneBefore(met + more, c)
    {
      TakeMinimumsExactly(a, b, c);
      assert NoneBefore(met + more, c) <==> NoneBefore(met, c) && NoneBefore(more, c);
    }
  }

  lemma NegativeOfBoth(met: set<Met>, more: set<Met>)
    ensures SomeNegative(met + more) <==> SomeNegative(met) || SomeNegative(more)
  {
    if SomeNegative(met) {
      var m :| m in met && m.negative;
      assert m in met + more;
    } else if SomeNegative(more) {
      var m :| m in more && m.negative;
      assert m in met + more;
    }
  }

  /** A negative cycle counts as reaching the entry itself, too, which loses nothing. */
  lemma NegativeReach(m: Minimums, clock: nat, more: set<Met>)
    requires LeastReach(MinimumOfPosAndNeg(m), more) && !NotBefore(MinimumOfPosAndNeg(m), clock + 1)
    ensures LeastReach(MinimumOfPosAndNeg(Minimums(Some(clock), MinimumOfPosAndNeg(m))), more)
    ensures MinimumOfPosAndNeg(m).Some? && ((forall x :: x in more ==> x.negative) ==> SomeNegative(more))
  {
    assert !NoneBefore(more, clock + 1);
    var n := MinimumOfPosAndNeg(m);
    forall c: nat
      ensures NotBefore(MinTime(Some(clock), n), c) <==> NoneBefore(more, c)
    {
      MinTimeExactly(Some(clock), n, c);
    }
  }

  /** The strand has selected the table of the entry with clock `reach`. */
  ghost function Direct(strand: Strand, reach: nat): set<Met> {
    {Met(strand, reach, true, SelectsNegative(strand))}
  }

  lemma DirectReach(strand: Strand, reach: nat)
    ensures LeastReach(MinimumOfPosAndNeg(Minimums(Some(reach), None)), Direct(strand, reach))
  {
    forall c: nat
      ensures NotBefore(Some(reach), c) <==> NoneBefore(Direct(strand, reach), c)
    {
      if NoneBefore(Direct(strand, reach), c) {
        assert Met(strand, reach, true, SelectsNegative(strand)) in Direct(strand, reach);
      }
    }
  }

  /** The caller's strand reaches wherever its callee's strands do. */
  ghost function Through(strand: Strand, met: set<Met>): set<Met> {
    set m | m in met :: Met(strand, m.reach, false, m.negative || SelectsNegative(strand))
  }

  lemma ThroughReach(t: Option<nat>, strand: Strand, met: set<Met>)
    requires LeastReach(t, met)
    ensures LeastReach(t, Through(strand, met))
    ensures !SelectsNegative(strand) ==> (SomeNegative(met) <==> SomeNegative(Through(strand, met)))
  {
    if !SelectsNegative(strand) && SomeNegative(met) {
      var m :| m in met && m.negative;
      assert Met(strand, m.reach, false, true) in Through(strand, met);
    }
    forall c: nat
      ensures NoneBefore(met, c) <==> NoneBefore(Through(strand, met), c)
    {
      if NoneBefore(Through(strand, met), c) {
        forall m | m in met
          ensures m.reach >= c
        {
          assert Met(strand, m.reach, false, m.negative || SelectsNegative(strand)) in Through(strand, met);
        }
      }
    }
  }

  // ----- The invariant -----

  /** The strand is back in the table, unpursued since, and what it waits for reaches down to the entry named. */
  ghost predicate Returned(table: Table, stack: seq<StackEntry>, i: nat, m: Met)
    requires i < |stack|
  {
    && m.strand in table.strands
    && m.strand.lastPursuedTime == stack[i].clock
    && m.strand.selected.Some?
    && (SelectsNegative(m.strand) ==> m.negative)
    && (m.direct ==>
          && (m.negative ==> SelectsNegative(m.strand))
          && exists d :: 0 <= d <= i && stack[d].table == m.strand.selected.value.subgoalTable
                         && stack[d].clock == m.reach)
  }

  ghost predicate EntryMet(tables: seq<Table>, stack: seq<StackEntry>, i: nat, met: set<Met>)
    requires i < |stack|
  {
    && stack[i].table < |tables|
    && (stack[i].active.Some? ==> stack[i].active.value.lastPursuedTime == stack[i].clock)
    && LeastReach(MinimumOfPosAndNeg(stack[i].minimums), met)
    && (stack[i].minimums.negative.Some? <==> SomeNegative(met))
    && forall m :: m in met ==> Returned(tables[stack[i].table], stack, i, m)
  }

  /** For each entry of the stack, the strands returned to its table because of a cycle since it was pushed. */
  ghost predicate MetOk(tables: seq<Table>, stack: seq<StackEntry>, met: seq<set<Met>>) {
    |met| == |stack| && forall i :: 0 <= i < |stack| ==> EntryMet(tables, stack, i, met[i])
  }

  /** The minimum recorded for an entry is at most the clock of each entry that a strand of its table waits for. */
  lemma CycleIsRecorded(tables: seq<Table>, stack: seq<StackEntry>, met: seq<set<Met>>, i: nat, m: Met)
    requires MetOk(tables, stack, met) && i < |stack| && m in met[i]
    ensures var t := MinimumOfPosAndNeg(stack[i].minimums); t.Some? && t.value <= m.reach
  {
    hide MinTime;
    assert EntryMet(tables, stack, i, met[i]);
    var t := MinimumOfPosAndNeg(stack[i].minimums);
    assert NotBefore(t, m.reach + 1) <==> NoneBefore(met[i], m.reach + 1);
  }

  /** The table at the top may be given up exactly if no strand returned to it reaches below it. */
  lemma ClosedExactly(tables: seq<Table>, stack: seq<StackEntry>, met: seq<set<Met>>)
    requires MetOk(tables, stack, met) && stack != []
    ensures var top := Top(stack);
            && (NotBefore(top.minimums.positive, top.clock) && NotBefore(top.minimums.negative, top.clock) <==>
                NoneBefore(met[|met| - 1], top.clock))
            && (top.minimums.negative.Some? <==> SomeNegative(met[|met| - 1]))
  {
    hide MinTime;
    var top := Top(stack);
    assert EntryMet(tables, stack, |stack| - 1, met[|met| - 1]);
    MinTimeExactly(top.minimums.positive, top.minimums.negative, top.clock);
  }

  // ----- Its preservation -----

  /** Strands pursued at the entry's clock are still there. */
  ghost predicate StillThere(tables: seq<Table>, tables': seq<Table>, entry: StackEntry) {
    && entry.table < |tables| && entry.table < |tables'|
    && forall s :: s in tables[entry.table].strands && s.lastPursuedTime == entry.clock ==>
         s in tables'[entry.table].strands
  }

  lemma EntryMetStays(tables: seq<Table>, stack: seq<StackEntry>, tables': seq<Table>, stack': seq<StackEntry>, i: nat,
                      met: set<Met>)
    requires i < |stack| && i < |stack'| && EntryMet(tables, stack, i, met)
    requires forall j :: 0 <= j <= i ==> stack'[j].table == stack[j].table && stack'[j].clock == stack[j].clock
    requires stack'[i].minimums == stack[i].minimums && StillThere(tables, tables', stack[i])
    requires stack'[i].active.Some? ==> stack'[i].active.value.lastPursuedTime == stack[i].clock
    ensures EntryMet(tables', stack', i, met)
  {
    forall m | m in met
      ensures Returned(tables'[stack'[i].table], stack', i, m)
    {
      assert Returned(tables[stack[i].table], stack, i, m);
    }
  }

  lemma MetTables(tables: seq<Table>, tables': seq<Table>, stack: seq<StackEntry>, met: seq<set<Met>>)
    requires MetOk(tables, stack, met) && forall i :: 0 <= i < |stack| ==> StillThere(tables, tables', stack[i])
    ensures MetOk(tables', stack, met)
  {
    hide StillThere;
    forall i | 0 <= i < |stack|
      ensures EntryMet(tables', stack, i, met[i])
    {
      EntryMetStays(tables, stack, tables', stack, i, met[i]);
    }
  }

  lemma MetEnqueued(tables: seq<Table>, t: nat, strand: Strand, stack: seq<StackEntry>, met: seq<set<Met>>)
    requires MetOk(tables, stack, met) && t < |tables|
    ensures MetOk(tables[t := Enqueued(tables[t], strand)], stack, met)
  {
    hide EntryMet;
    var tables' := tables[t := Enqueued(tables[t], strand)];
    forall i | 0 <= i < |stack|
      ensures StillThere(tables, tables', stack[i])
    {
      MetEntry(tables, stack, met, i);
    }
    MetTables(tables, tables', stack, met);
  }

  lemma MetMode(tables: seq<Table>, t: nat, mode: AnswerMode, stack: seq<StackEntry>, met: seq<set<Met>>)
    requires MetOk(tables, stack, met) && t < |tables|
    ensures MetOk(tables[t := tables[t].(mode := mode)], stack, met)
  {
    hide EntryMet;
    var tables' := tables[t := tables[t].(mode := mode)];
    forall i | 0 <= i < |stack|
      ensures StillThere(tables, tables', stack[i])
    {
      MetEntry(tables, stack, met, i);
    }
    MetTables(tables, tables', stack, met);
  }

  lemma MetEntry(tables: seq<Table>, stack: seq<StackEntry>, met: seq<set<Met>>, i: nat)
    requires MetOk(tables, stack, met) && i < |stack|
    ensures stack[i].table < |tables| && EntryMet(tables, stack, i, met[i])
    ensures stack[i].active.Some? ==> stack[i].active.value.lastPursuedTime == stack[i].clock
  {
    assert EntryMet(tables, stack, i, met[i]);
  }

  lemma MetGrown(tables: seq<Table>, tables': seq<Table>, stack: seq<StackEntry>, met: seq<set<Met>>)
    requires MetOk(tables, stack, met) && tables <= tables'
    ensures MetOk(tables', stack, met)
  {
    hide EntryMet;
    forall i | 0 <= i < |stack|
      ensures StillThere(tables, tables', stack[i])
    {
      MetEntry(tables, stack, met, i);
    }
    MetTables(tables, tables', stack, met);
  }

  /** A table that is not on the stack may change in any way. */
  lemma MetElsewhere(tables: seq<Table>, t: nat, table: Table, stack: seq<StackEntry>, met: seq<set<Met>>)
    requires MetOk(tables, stack, met) && t < |tables| && forall i :: 0 <= i < |stack| ==> stack[i].table != t
    ensures MetOk(tables[t := table], stack, met)
  {
    hide EntryMet;
    forall i | 0 <= i < |stack|
      ensures StillThere(tables, tables[t := table], stack[i])
    {
      MetEntry(tables, stack, met, i);
    }
    MetTables(tables, tables[t := table], stack, met);
  }

  lemma MetActive(tables: seq<Table>, stack: seq<StackEntry>, met: seq<set<Met>>, active: Option<Strand>)
    requires MetOk(tables, stack, met) && stack != []
    requires active.Some? ==> active.value.lastPursuedTime == Top(stack).clock
    ensures MetOk(tables, WithTop(stack, Top(stack).(active := active)), met)
  {
    hide EntryMet;
    var stack' := WithTop(stack, Top(stack).(active := active));
    forall i | 0 <= i < |stack|
      ensures EntryMet(tables, stack', i, met[i])
    {
      MetEntry(tables, stack, met, i);
      EntryMetStays(tables, stack, tables, stack', i, met[i]);
    }
  }

  lemma MetPushed(tables: seq<Table>, stack: seq<StackEntry>, met: seq<set<Met>>, entry: StackEntry)
    requires MetOk(tables, stack, met) && entry.table < |tables|
    requires entry.active.None? && entry.minimums == Minimums(None, None)
    ensures MetOk(tables, stack + [entry], met + [{}])
  {
    var stack' := stack + [entry];
    assert EntryMet(tables, stack', |stack|, {});
    hide EntryMet;
    forall i | 0 <= i < |stack|
      ensures EntryMet(tables, stack', i, met[i])
    {
      MetEntry(tables, stack, met, i);
      EntryMetStays(tables, stack, tables, stack', i, met[i]);
    }
  }

  lemma MetPopped(tables: seq<Table>, stack: seq<StackEntry>, met: seq<set<Met>>)
    requires MetOk(tables, stack, met) && stack != []
    ensures MetOk(tables, Popped(stack), met[..|met| - 1])
  {
    hide EntryMet;
    forall i | 0 <= i < |stack| - 1
      ensures EntryMet(tables, Popped(stack), i, met[i])
    {
      MetEntry(tables, stack, met, i);
      EntryMetStays(tables, stack, tables, Popped(stack), i, met[i]);
    }
  }

  /** The cycles in `more` are cycles that `strand` of the table at the top has run into. */
  ghost predicate RanInto(stack: seq<StackEntry>, strand: Strand, more: set<Met>)
    requires stack != []
  {
    && strand.selected.Some? && strand.lastPursuedTime == Top(stack).clock
    && forall m :: m in more ==>
         && m.strand == strand
         && (SelectsNegative(strand) ==> m.negative)
         && (m.direct ==>
               && (m.negative ==> SelectsNegative(strand))
               && exists d :: 0 <= d < |stack| && stack[d].table == strand.selected.value.subgoalTable
                              && stack[d].clock == m.reach)
  }

  lemma EntryReach(tables: seq<Table>, stack: seq<StackEntry>, met: seq<set<Met>>, i: nat)
    requires MetOk(tables, stack, met) && i < |stack|
    ensures LeastReach(MinimumOfPosAndNeg(stack[i].minimums), met[i])
    ensures stack[i].minimums.negative.Some? <==> SomeNegative(met[i])
  {
    assert EntryMet(tables, stack, i, met[i]);
  }

  lemma RanThrough(stack: seq<StackEntry>, strand: Strand, met: set<Met>)
    requires stack != [] && strand.selected.Some? && strand.lastPursuedTime == Top(stack).clock
    ensures RanInto(stack, strand, Through(strand, met))
  {
  }

  lemma AllNegative(stack: seq<StackEntry>, strand: Strand, more: set<Met>)
    requires stack != [] && RanInto(stack, strand, more)
    ensures SelectsNegative(strand) ==> forall x :: x in more ==> x.negative
  {
  }

  lemma MetCycle(tables: seq<Table>, stack: seq<StackEntry>, met: seq<set<Met>>, strand: Strand, minimums: Minimums,
                 more: set<Met>)
    requires MetOk(tables, stack, met) && stack != [] && RanInto(stack, strand, more)
    requires LeastReach(MinimumOfPosAndNeg(minimums), more) && (minimums.negative.Some? <==> SomeNegative(more))
    requires Top(stack).table < |tables|
    ensures var n := |stack| - 1;
            MetOk(tables[Top(stack).table := Enqueued(tables[Top(stack).table], strand)],
                  WithTop(stack, Top(stack).(minimums := TakeMinimums(Top(stack).minimums, minimums))),
                  met[n := met[n] + more])
  {
    hide MinimumOfPosAndNeg, LeastReach;
    var n := |stack| - 1;
    var tables' := tables[Top(stack).table := Enqueued(tables[Top(stack).table], strand)];
    var stack' := WithTop(stack, Top(stack).(minimums := TakeMinimums(Top(stack).minimums, minimums)));
    assert EntryMet(tables', stack', n, met[n] + more) by {
      assert EntryMet(tables, stack, n, met[n]);
      LeastOfBoth(Top(stack).minimums, minimums, met[n], more);
      NegativeOfBoth(met[n], more);
      forall m | m in met[n] + more
        ensures Returned(tables'[stack'[n].table], stack', n, m)
      {
        if m in met[n] {
          assert Returned(tables[stack[n].table], stack, n, m);
        }
        if m.direct {
          var d :| 0 <= d <= n && stack[d].table == m.strand.selected.value.subgoalTable && stack[d].clock == m.reach;
          assert stack'[d].table == stack[d].table && stack'[d].clock == stack[d].clock;
        }
      }
    }
    hide EntryMet;
    forall i | 0 <= i < n
      ensures EntryMet(tables', stack', i, met[i])
    {
      MetEntry(tables, stack, met, i);
      EntryMetStays(tables, stack, tables', stack', i, met[i]);
    }
  }

  /** Taking out a strand that has not been pursued since the entry at the top was pushed. */
  lemma MetDequeued(tables: seq<Table>, stack: seq<StackEntry>, met: seq<set<Met>>, k: nat)
    requires MetOk(tables, stack, met) && Ordered(stack) && stack != [] && Top(stack).table < |tables|
    requires var strands := tables[Top(stack).table].strands;
             k < |strands| && strands[k].lastPursuedTime < Top(stack).clock
    ensures var table := tables[Top(stack).table];
            MetOk(tables[Top(stack).table := table.(strands := table.strands[k + 1..] + table.strands[..k])], stack,
              met)
  {
    hide EntryMet;
    var table := tables[Top(stack).table];
    var tables' := tables[Top(stack).table := table.(strands := table.strands[k + 1..] + table.strands[..k])];
    forall i | 0 <= i < |stack|
      ensures StillThere(tables, tables', stack[i])
    {
      MetEntry(tables, stack, met, i);
      if i == |stack| - 1 {
        assert table.strands == table.strands[..k] + [table.strands[k]] + table.strands[k + 1..];
      }
    }
    MetTables(tables, tables', stack, met);
  }
}
