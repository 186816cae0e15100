/**
  The SLG engine: a forest of tables and the stack of a root search.  Each method
  mirrors one of the engine's steps; `Valid` is the invariant of all reachable states.
 */
module SlgEngine {
  import opened Prelude
  import opened SlgContext
  import opened SlgInvariants
  import opened SlgClear
  import opened SlgCycles
  import opened SlgStrands

  // ----- Floundered subgoals -----

  predicate Older(f: Floundered, answerTime: nat) {
    f.time < answerTime
  }

  function SwapRemove<T>(s: seq<T>, i: nat): seq<T>
    requires i < |s|
  {
    s[i := s[|s| - 1]][..|s| - 1]
  }

  lemma SwapRemoveElements<T>(s: seq<T>, i: nat)
    requires i < |s|
    ensures SwapRemove(s, i)[..i] == s[..i]
    ensures |SwapRemove(s, i)| == |s| - 1
    ensures forall k :: i <= k < |s| - 1 ==> SwapRemove(s, i)[k] in s[i + 1..]
  {
  }

  lemma MultisetSwapRemove<T>(s: seq<T>, i: nat)
    requires i < |s|
    ensures multiset(s) == multiset(SwapRemove(s, i)) + multiset{s[i]}
  {
    var n := |s| - 1;
    assert s == s[..n] + [s[n]];
    if i < n {
      assert SwapRemove(s, i) == s[..n][i := s[n]];
    } else {
      assert SwapRemove(s, i) == s[..n];
    }
  }

  /** How many literals `SelectSubgoal` may still have to look at. */
  ghost function Work(e: ExClause): nat {
    |e.subgoals| + OlderCount(e.floundered, e.answerTime)
  }

  ghost function OlderCount(fs: seq<Floundered>, answerTime: nat): nat {
    if fs == [] then 0
    else OlderCount(fs[..|fs| - 1], answerTime) + if Older(fs[|fs| - 1], answerTime) then 1 else 0
  }

  lemma {:induction false} NoneOlder(fs: seq<Floundered>, answerTime: nat)
    ensures OlderCount(fs, answerTime) == 0 <==> forall k :: 0 <= k < |fs| ==> !Older(fs[k], answerTime)
  {
    if fs != [] {
      NoneOlder(fs[..|fs| - 1], answerTime);
      assert fs == fs[..|fs| - 1] + [fs[|fs| - 1]];
    }
  }

  /** The reverse pass has dealt with the floundered subgoals from position `i` on. */
  ghost predicate Reconsidered(e: ExClause, subgoals: seq<Literal>, floundered: seq<Floundered>, i: nat) {
    && i <= |floundered|
    && i <= |e.floundered|
    && floundered[..i] == e.floundered[..i]
    && (forall f :: f in floundered[i..] ==> f in e.floundered && !Older(f, e.answerTime))
    && YoungerKept(e.floundered, floundered, e.answerTime)
    && e.subgoals <= subgoals
    && (forall k :: i <= k < |e.floundered| && Older(e.floundered[k], e.answerTime) ==>
         e.floundered[k].literal in subgoals)
    && multiset(subgoals + Map(LiteralOf, floundered)) == multiset(Literals(e))
    && |subgoals| + OlderCount(e.floundered[..i], e.answerTime) == |e.subgoals| + OlderCount(e.floundered, e.answerTime)
  }

  /** No entry that is not older has been lost or duplicated. */
  ghost predicate YoungerKept(before: seq<Floundered>, after: seq<Floundered>, answerTime: nat) {
    forall f :: !Older(f, answerTime) ==> multiset(after)[f] == multiset(before)[f]
  }

  lemma ReconsiderAt(e: ExClause, subgoals: seq<Literal>, floundered: seq<Floundered>, i: nat)
    requires Reconsidered(e, subgoals, floundered, i + 1)
    ensures floundered[i] == e.floundered[i] && floundered[..i] == e.floundered[..i]
    ensures OlderCount(e.floundered[..i + 1], e.answerTime) ==
            OlderCount(e.floundered[..i], e.answerTime) + if Older(e.floundered[i], e.answerTime) then 1 else 0
  {
    assert floundered[i] == floundered[..i + 1][i] == e.floundered[..i + 1][i];
    assert floundered[..i] == floundered[..i + 1][..i];
    assert e.floundered[..i] == e.floundered[..i + 1][..i];
  }

  lemma ReconsiderMoves(e: ExClause, subgoals: seq<Literal>, floundered: seq<Floundered>, i: nat)
    requires Reconsidered(e, subgoals, floundered, i + 1) && Older(floundered[i], e.answerTime)
    ensures Reconsidered(e, subgoals + [floundered[i].literal], SwapRemove(floundered, i), i)
  {
    hide Map, OlderCount, Older, SwapRemove;
    ReconsiderAt(e, subgoals, floundered, i);
    MovedLiteral(subgoals, floundered, i);
    SwapRemoveElements(floundered, i);
    MultisetSwapRemove(floundered, i);
  }

  lemma ReconsiderKeeps(e: ExClause, subgoals: seq<Literal>, floundered: seq<Floundered>, i: nat)
    requires Reconsidered(e, subgoals, floundered, i + 1) && !Older(floundered[i], e.answerTime)
    ensures Reconsidered(e, subgoals, floundered, i)
  {
    hide Map, OlderCount, Older;
    ReconsiderAt(e, subgoals, floundered, i);
    assert floundered[i..] == [floundered[i]] + floundered[i + 1..];
  }

  /** Gives the floundered subgoals that are older than the last answer another chance. */
  method ReconsiderFlounderedSubgoals(e: ExClause) returns (e': ExClause)
    ensures e' == e.(subgoals := e'.subgoals, floundered := e'.floundered)
    ensures e.subgoals <= e'.subgoals
    ensures multiset(Literals(e')) == multiset(Literals(e))
    ensures forall f :: f in e'.floundered ==> f in e.floundered && !Older(f, e.answerTime)
    ensures |e'.subgoals| == Work(e)
    // exactly the older entries have moved
    ensures forall f :: multiset(e'.floundered)[f] == if Older(f, e.answerTime) then 0 else multiset(e.floundered)[f]
    ensures forall f :: f in e.floundered && Older(f, e.answerTime) ==> f.literal in e'.subgoals
  {
    var subgoals, floundered := e.subgoals, e.floundered;
    var i := |floundered|;
    assert e.floundered[..i] == e.floundered;
    while i > 0
      invariant 0 <= i && Reconsidered(e, subgoals, floundered, i)
    {
      hide Reconsidered;
      i := i - 1;
      assert i < |floundered| by { ReconsiderBounds(e, subgoals, floundered, i); }
      if floundered[i].time < e.answerTime {
        ReconsiderMoves(e, subgoals, floundered, i);
        subgoals, floundered := subgoals + [floundered[i].literal], SwapRemove(floundered, i);
      } else {
        ReconsiderKeeps(e, subgoals, floundered, i);
      }
    }
    e' := e.(subgoals := subgoals, floundered := floundered);
    assert floundered[0..] == floundered;
    forall f
      ensures multiset(floundered)[f] == if Older(f, e.answerTime) then 0 else multiset(e.floundered)[f]
    {
      assert f in floundered <==> f in multiset(floundered);
    }
  }

  lemma ReconsiderBounds(e: ExClause, subgoals: seq<Literal>, floundered: seq<Floundered>, i: nat)
    requires Reconsidered(e, subgoals, floundered, i + 1)
    ensures i < |floundered|
  {
  }

  lemma MovedLiteral(subgoals: seq<Literal>, floundered: seq<Floundered>, i: nat)
    requires i < |floundered|
    ensures multiset(subgoals + [floundered[i].literal] + Map(LiteralOf, SwapRemove(floundered, i))) ==
            multiset(subgoals + Map(LiteralOf, floundered))
  {
    assert Map(LiteralOf, SwapRemove(floundered, i)) == SwapRemove(Map(LiteralOf, floundered), i);
    MultisetSwapRemove(Map(LiteralOf, floundered), i);
  }

  // ----- Outcomes -----

  datatype RootSearchFail = NoMoreSolutions | TableFloundered | QuantumExceeded | NegativeCycle | InvalidAnswer

  /** The assertions of the engine that the proofs do not rule out. */
  datatype PanicReason =
    | SubgoalsLeft            // a strand with an unsolvable negative subgoal is taken for an answer
    | NegativeDelayed         // an answer to a negative subgoal has delayed subgoals
    | CoinductiveNegative     // a coinductive cycle through a negative subgoal
    | AnswerUpgraded          // an answer published as ambiguous turns out not to be
    | UnselectedCycle         // a strand to be cleared after a cycle has no selected subgoal

  datatype StepOutcome = Continue | RootAnswerAvailable | Fail(failure: RootSearchFail) | Panic(reason: PanicReason)

  datatype SearchResult = Found | Failed(failure: RootSearchFail) | Panicked(reason: PanicReason) | OutOfSteps

  /** What the root of a search sees: an answer without delayed subgoals, or why there is none. */
  datatype RootResult =
    | RootAnswer(subst: Subst, ambiguous: bool)
    | RootFailed(failure: RootSearchFail)
    | RootPanicked(reason: PanicReason)
    | RootOutOfSteps

  datatype AnswerResult =
    | NextAnswerIs(subst: Subst, ambiguous: bool)
    | NoMoreAnswers
    | GoalFloundered
    | OutOfQuantum
    | StreamPanicked

  datatype MergeOutcome = Merged(strand: Strand) | MergeFailed | MergePanic(reason: PanicReason)

  /** With positive literals and inductive goals only, few assertions can fail. */
  ghost predicate Tolerable(ctx: Context, reason: PanicReason) {
    Definite(ctx) ==> reason.AnswerUpgraded? || reason.UnselectedCycle?
  }

  // ----- Steps on a single strand -----

  /** The strand has the same substitution and the same literals, in some arrangement. */
  ghost predicate SameWork(a: ExClause, b: ExClause) {
    && a.subst == b.subst
    && a.delayed == b.delayed
    && a.answerTime == b.answerTime
    && (a.ambiguous ==> b.ambiguous)
    && multiset(Literals(a)) == multiset(Literals(b))
  }

  /** The literal cannot be pursued now: no table can be made for it, or it is positive and its table has floundered. */
  ghost predicate CannotPursue(ctx: Context, tables: seq<Table>, indices: map<TableGoal, nat>, l: Literal) {
    ctx.tableFor(l).None? || (l.Positive? && HasFloundered(tables, indices, ctx.tableFor(l).value))
  }

  ghost predicate HasFloundered(tables: seq<Table>, indices: map<TableGoal, nat>, g: TableGoal) {
    g in indices && indices[g] < |tables| && tables[indices[g]].floundered
  }

  /** The literal is a subgoal, or was set aside before the last answer and so has another chance. */
  ghost predicate Open(e: ExClause, l: Literal) {
    l in e.subgoals || exists f :: f in e.floundered && Older(f, e.answerTime) && f.literal == l
  }

  /** Only literals that cannot be pursued are set aside. */
  ghost predicate SetAside(ctx: Context, tables: seq<Table>, indices: map<TableGoal, nat>, before: ExClause,
                           after: ExClause) {
    forall f :: multiset(after.floundered)[f] > multiset(before.floundered)[f] ==>
        CannotPursue(ctx, tables, indices, f.literal)
  }

  /** Literals with a chance stay open unless they cannot be pursued. */
  ghost predicate StayOpen(ctx: Context, tables: seq<Table>, indices: map<TableGoal, nat>, before: ExClause,
                           after: ExClause) {
    forall l :: Open(before, l) ==> CannotPursue(ctx, tables, indices, l) || Open(after, l)
  }

  /** Subgoals are tried from the last one on, and only given up if they cannot be pursued. */
  ghost predicate LastFirst(ctx: Context, tables: seq<Table>, indices: map<TableGoal, nat>, before: seq<Literal>,
                            after: seq<Literal>) {
    || (forall l :: l in before ==> CannotPursue(ctx, tables, indices, l))
    || (after <= before && forall l :: l in before[|after|..] ==> CannotPursue(ctx, tables, indices, l))
  }

  ghost predicate Advanced(ctx: Context, tables: seq<Table>, indices: map<TableGoal, nat>, before: ExClause,
                           after: ExClause) {
    && SetAside(ctx, tables, indices, before, after)
    && StayOpen(ctx, tables, indices, before, after)
    && LastFirst(ctx, tables, indices, before.subgoals, after.subgoals)
  }

  lemma AdvancedTransitive(ctx: Context, tables: seq<Table>, indices: map<TableGoal, nat>, a: ExClause, b: ExClause,
                           c: ExClause)
    requires Advanced(ctx, tables, indices, a, b) && Advanced(ctx, tables, indices, b, c)
    ensures Advanced(ctx, tables, indices, a, c)
  {
    hide CannotPursue, Open;
    forall f | multiset(c.floundered)[f] > multiset(a.floundered)[f]
      ensures CannotPursue(ctx, tables, indices, f.literal)
    {
      assert multiset(c.floundered)[f] > multiset(b.floundered)[f]
             || multiset(b.floundered)[f] > multiset(a.floundered)[f];
    }
    if !(forall l :: l in a.subgoals ==> CannotPursue(ctx, tables, indices, l))
      && c.subgoals <= b.subgoals <= a.subgoals {
      assert a.subgoals[|c.subgoals|..] == b.subgoals[|c.subgoals|..] + a.subgoals[|b.subgoals|..];
    }
  }

  lemma AdvancedGrows(ctx: Context, tables: seq<Table>, indices: map<TableGoal, nat>, tables': seq<Table>,
                      indices': map<TableGoal, nat>, a: ExClause, b: ExClause)
    requires IndexOk(tables, indices) && IndexOk(tables', indices') && tables <= tables'
    requires Advanced(ctx, tables, indices, a, b)
    ensures Advanced(ctx, tables', indices', a, b)
  {
    hide Open;
    forall l | CannotPursue(ctx, tables, indices, l)
      ensures CannotPursue(ctx, tables', indices', l)
    {
      if ctx.tableFor(l).Some? {
        var g := ctx.tableFor(l).value;
        assert tables'[indices[g]].goal == g;
      }
    }
  }

  /** A stage in the selection of a subgoal for the strand `initial`. */
  ghost predicate Pursuing(ctx: View, tables: seq<Table>, indices: map<TableGoal, nat>, g: TableGoal, initial: Strand,
                           strand: Strand) {
    && StrandOk(ctx, tables, g, strand)
    && strand.lastPursuedTime == initial.lastPursuedTime
    && SameWork(initial.exClause, strand.exClause)
    && Advanced(ctx.ops, tables, indices, initial.exClause, strand.exClause)
    // what is selected is what was selected before, or asks for the first answer
    && (strand.selected.Some? ==> strand == initial || strand.selected.value.answerIndex == 0)
  }

  /** Rearranging the literals leads to the next stage. */
  lemma Rearranged(ctx: View, tables: seq<Table>, indices: map<TableGoal, nat>, g: TableGoal, initial: Strand,
                   strand: Strand,
                   e: ExClause)
    requires Pursuing(ctx, tables, indices, g, initial, strand) && SameWork(strand.exClause, e)
    requires TimesOk(strand.exClause) ==> TimesOk(e)
    requires Advanced(ctx.ops, tables, indices, strand.exClause, e)
    ensures Pursuing(ctx, tables, indices, g, initial, strand.(exClause := e, selected := None))
  {
    hide Advanced;
    AdvancedTransitive(ctx.ops, tables, indices, initial.exClause, strand.exClause, e);
    if Definite(ctx.ops) {
      SoundPermutation(ctx.ops, g, strand.exClause, e);
    }
  }

  lemma PursuingGrows(ctx: View, tables: seq<Table>, indices: map<TableGoal, nat>, tables': seq<Table>,
                      indices': map<TableGoal, nat>, g: TableGoal, initial: Strand, strand: Strand)
    requires IndexOk(tables, indices) && IndexOk(tables', indices')
    requires tables <= tables' && Pursuing(ctx, tables, indices, g, initial, strand)
    ensures Pursuing(ctx, tables', indices', g, initial, strand)
  {
    hide SameWork, Definite, Advanced, IndexOk;
    assert TablesGrow(tables, tables');
    StrandOkGrows(ctx, tables, tables', g, strand);
    AdvancedGrows(ctx.ops, tables, indices, tables', indices', initial.exClause, strand.exClause);
  }

  lemma SelectedLast(ctx: View, tables: seq<Table>, indices: map<TableGoal, nat>, g: TableGoal, initial: Strand,
                     strand: Strand,
                     t: nat)
    requires Pursuing(ctx, tables, indices, g, initial, strand) && strand.exClause.subgoals != []
    requires var l := strand.exClause.subgoals[|strand.exClause.subgoals| - 1];
             t < |tables| && ctx.ops.tableFor(l) == Some(tables[t].goal)
    ensures Pursuing(ctx, tables, indices, g, initial,
                     strand.(selected := Some(Selected(|strand.exClause.subgoals| - 1, t, 0))))
  {
    hide Advanced;
  }

  lemma SelectionExists(ctx: View, tables: seq<Table>, indices: map<TableGoal, nat>, g: TableGoal, initial: Strand,
                        strand: Strand)
    requires Pursuing(ctx, tables, indices, g, initial, strand) && strand.selected.Some?
    ensures strand.selected.value.subgoalTable < |tables|
    ensures strand.selected.value.subgoalIndex + 1 == |strand.exClause.subgoals|
    ensures StrandOk(ctx, tables, g, strand)
  {
    hide Advanced;
  }

  /** A positive subgoal whose table has floundered cannot be pursued. */
  lemma SelectedFloundered(ctx: View, tables: seq<Table>, indices: map<TableGoal, nat>, g: TableGoal, strand: Strand)
    requires IndexOk(tables, indices) && StrandOk(ctx, tables, g, strand) && strand.selected.Some?
    requires tables[strand.selected.value.subgoalTable].floundered
    requires strand.exClause.subgoals[strand.selected.value.subgoalIndex].Positive?
    ensures CannotPursue(ctx.ops, tables, indices, strand.exClause.subgoals[strand.selected.value.subgoalIndex])
  {
    assert tables[strand.selected.value.subgoalTable].goal in indices;
  }

  /** The last subgoal is a negative literal that has a table, and the table has floundered. */
  ghost predicate LeftOver(ctx: Context, tables: seq<Table>, indices: map<TableGoal, nat>, e: ExClause) {
    && e.subgoals != []
    && var l := e.subgoals[|e.subgoals| - 1];
       && l.Negative?
       && ctx.tableFor(l).Some?
       && ctx.tableFor(l).value in indices
       && indices[ctx.tableFor(l).value] < |tables|
       && tables[indices[ctx.tableFor(l).value]].floundered
  }

  lemma LeftOverHere(ctx: View, tables: seq<Table>, indices: map<TableGoal, nat>, g: TableGoal, strand: Strand)
    requires IndexOk(tables, indices) && StrandOk(ctx, tables, g, strand) && strand.selected.Some?
    requires tables[strand.selected.value.subgoalTable].floundered
    requires strand.exClause.subgoals[strand.selected.value.subgoalIndex].Negative?
    ensures LeftOver(ctx.ops, tables, indices, strand.exClause)
  {
  }

  lemma PursuitStarts(ctx: View, tables: seq<Table>, indices: map<TableGoal, nat>, g: TableGoal, initial: Strand)
    requires StrandOk(ctx, tables, g, initial)
    ensures Pursuing(ctx, tables, indices, g, initial, initial)
    ensures initial.selected.Some? ==> initial.selected.value.subgoalTable < |tables|
  {
    hide Advanced, SameWork;
    SameWorkReflexive(ctx.ops, tables, indices, initial.exClause);
  }

  lemma PursuingParts(ctx: View, tables: seq<Table>, indices: map<TableGoal, nat>, g: TableGoal, initial: Strand,
                      strand: Strand)
    requires Pursuing(ctx, tables, indices, g, initial, strand)
    ensures StrandOk(ctx, tables, g, strand) && strand.lastPursuedTime == initial.lastPursuedTime
    ensures SameWork(initial.exClause, strand.exClause)
    ensures Advanced(ctx.ops, tables, indices, initial.exClause, strand.exClause)
    ensures strand.selected.Some? ==> strand == initial || strand.selected.value.answerIndex == 0
  {
  }

  lemma NoTable(ctx: Context, tables: seq<Table>, indices: map<TableGoal, nat>, l: Literal)
    requires ctx.tableFor(l).None?
    ensures CannotPursue(ctx, tables, indices, l)
  {
  }

  /** If nothing was moved back to the subgoals, everything is still set aside. */
  lemma StillFloundered(e: ExClause, e': ExClause)
    requires e.subgoals == [] && e.floundered != [] && e'.subgoals == []
    requires multiset(Literals(e')) == multiset(Literals(e))
    ensures e'.floundered != []
  {
    assert |Literals(e)| == |multiset(Literals(e))| == |multiset(Literals(e'))| == |Literals(e')|;
  }

  lemma SameWorkReflexive(ctx: Context, tables: seq<Table>, indices: map<TableGoal, nat>, e: ExClause)
    ensures SameWork(e, e) && Advanced(ctx, tables, indices, e, e)
  {
    assert e.subgoals[|e.subgoals|..] == [];
  }

  lemma AmbiguousSame(ctx: Context, tables: seq<Table>, indices: map<TableGoal, nat>, e: ExClause)
    ensures SameWork(e, e.(ambiguous := true)) && (TimesOk(e) ==> TimesOk(e.(ambiguous := true)))
    ensures Advanced(ctx, tables, indices, e, e.(ambiguous := true))
  {
    assert e.subgoals[|e.subgoals|..] == [];
    assert forall l :: Open(e, l) ==> Open(e.(ambiguous := true), l);
  }

  lemma FlounderAdvances(ctx: Context, tables: seq<Table>, indices: map<TableGoal, nat>, e: ExClause, i: nat)
    requires i + 1 == |e.subgoals| && CannotPursue(ctx, tables, indices, e.subgoals[i])
    ensures Advanced(ctx, tables, indices, e, FlounderSubgoal(e, i))
  {
    hide CannotPursue;
    var e' := FlounderSubgoal(e, i);
    assert e.subgoals[|e'.subgoals|..] == [e.subgoals[i]];
    assert multiset(e'.floundered) == multiset(e.floundered) + multiset{Floundered(e.subgoals[i], e.answerTime)};
    forall l | Open(e, l) && l != e.subgoals[i]
      ensures Open(e', l)
    {
      if l in e.subgoals {
        assert l in e'.subgoals;
      } else {
        var f :| f in e.floundered && Older(f, e.answerTime) && f.literal == l;
        assert f in e'.floundered;
      }
    }
  }

  /** Floundering moves one literal and never makes anything older. */
  lemma FlounderSame(e: ExClause, i: nat)
    requires i < |e.subgoals|
    ensures SameWork(e, FlounderSubgoal(e, i))
    ensures TimesOk(e) ==> TimesOk(FlounderSubgoal(e, i))
    ensures FlounderSubgoal(e, i).answerTime == e.answerTime && FlounderSubgoal(e, i).ambiguous == e.ambiguous
    ensures Work(FlounderSubgoal(e, i)) == Work(e) - 1
  {
    var e' := FlounderSubgoal(e, i);
    var f := Floundered(e.subgoals[i], e.answerTime);
    assert e'.floundered[..|e.floundered|] == e.floundered;
    assert Map(LiteralOf, e'.floundered) == Map(LiteralOf, e.floundered) + [e.subgoals[i]];
    MultisetRemoveAt(e.subgoals, i);
  }

  lemma ReconsiderSame(ctx: Context, tables: seq<Table>, indices: map<TableGoal, nat>, e: ExClause, e': ExClause)
    requires e.subgoals == [] && e' == e.(subgoals := e'.subgoals, floundered := e'.floundered)
             && |e'.subgoals| == Work(e)
    requires forall f :: multiset(e'.floundered)[f] <= multiset(e.floundered)[f]
    requires forall f :: f in e.floundered && Older(f, e.answerTime) ==> f.literal in e'.subgoals
    requires multiset(Literals(e')) == multiset(Literals(e))
    requires forall f :: f in e'.floundered ==> f in e.floundered && !Older(f, e.answerTime)
    ensures SameWork(e, e')
    ensures TimesOk(e) ==> TimesOk(e')
    ensures OlderCount(e'.floundered, e.answerTime) == 0 && Work(e') == Work(e)
    ensures e'.subgoals != [] ==> OlderCount(e.floundered, e.answerTime) > 0
    ensures Work(e'.(ambiguous := true)) == Work(e')
    ensures Advanced(ctx, tables, indices, e, e')
    ensures e'.subgoals == [] ==> forall l :: !Open(e', l)
  {
    NoneOlder(e'.floundered, e.answerTime);
  }

  /** If nothing is open at the end, no literal that had a chance could be pursued. */
  lemma AllTried(ctx: View, tables: seq<Table>, indices: map<TableGoal, nat>, g: TableGoal, initial: Strand,
                 strand: Strand)
    requires Pursuing(ctx, tables, indices, g, initial, strand) && forall l :: !Open(strand.exClause, l)
    ensures forall l :: Open(initial.exClause, l) ==> CannotPursue(ctx.ops, tables, indices, l)
  {
    hide Open, CannotPursue, StrandOk, SameWork;
  }

  lemma NothingOpen(e: ExClause)
    requires e.subgoals == [] && e.floundered == []
    ensures forall l :: !Open(e, l)
  {
  }

  lemma AmbiguousOpen(e: ExClause)
    requires forall l :: !Open(e, l)
    ensures forall l :: !Open(e.(ambiguous := true), l)
  {
    forall l
      ensures !Open(e.(ambiguous := true), l)
    {
      assert !Open(e, l);
    }
  }

  /** The strand after the answer to its selected subgoal has been plugged in. */
  function MergedExClause(e: ExClause, i: nat, r: Resolvent, answer: Answer): ExClause
    requires i < |e.subgoals|
  {
    var e1 := ApplyAnswer(e.(subgoals := RemoveAt(e.subgoals, i)), r, answer.subst);
    e1.(ambiguous := e1.ambiguous || answer.ambiguous, answerTime := e1.answerTime + 1)
  }

  lemma MergedOk(ctx: View, tables: seq<Table>, g: TableGoal, strand: Strand, r: Resolvent, answer: Answer)
    requires StrandOk(ctx, tables, g, strand) && strand.selected.Some?
    requires ctx.cover.Some? ==> Refining(ctx.ops, ctx.cover.value.finer)
    requires var sel := strand.selected.value;
             && TableOk(ctx, tables, tables[sel.subgoalTable])
             && answer in tables[sel.subgoalTable].answers
             && ctx.ops.resolve(strand.exClause.subgoals[sel.subgoalIndex].atom, tables[sel.subgoalTable].goal,
                answer.subst) == Some(r)
    ensures var e := MergedExClause(strand.exClause, strand.selected.value.subgoalIndex, r, answer);
            StrandOk(ctx, tables, g, strand.(exClause := e, selected := None))
  {
    hide Derives, Definite, SelectedOk;
    var e, sel := strand.exClause, strand.selected.value;
    assert SelectedOk(ctx, tables, e, sel);
    SelectedIsLast(ctx, tables, e, sel);
    if Definite(ctx.ops) {
      assert AnswerSound(ctx.ops, tables[sel.subgoalTable].goal, answer);
      ApplyAnswerSound(ctx.ops, g, e, tables[sel.subgoalTable].goal, answer, r, e.answerTime + 1);
    }
  }

  lemma SelectedIsLast(ctx: View, tables: seq<Table>, e: ExClause, sel: Selected)
    requires SelectedOk(ctx, tables, e, sel)
    ensures sel.subgoalIndex == |e.subgoals| - 1 && sel.subgoalTable < |tables|
    ensures ctx.ops.tableFor(e.subgoals[sel.subgoalIndex]) == Some(tables[sel.subgoalTable].goal)
  {
  }

  /** Definite programs never have negative subgoals; elsewhere such a subgoal may simply be dropped. */
  lemma NegativeDropped(ctx: View, tables: seq<Table>, g: TableGoal, strand: Strand, i: nat, ambiguous: bool)
    requires StrandOk(ctx, tables, g, strand) && i < |strand.exClause.subgoals| && strand.exClause.subgoals[i].Negative?
    ensures !Definite(ctx.ops)
    ensures StrandOk(ctx, tables, g,
            strand.(exClause := strand.exClause.(subgoals := RemoveAt(strand.exClause.subgoals, i),
            ambiguous := ambiguous), selected := None))
  {
    assert strand.exClause.subgoals[i] in Literals(strand.exClause);
  }

  lemma FlounderedOk(ctx: View, tables: seq<Table>, g: TableGoal, strand: Strand, i: nat)
    requires StrandOk(ctx, tables, g, strand) && i < |strand.exClause.subgoals|
    ensures StrandOk(ctx, tables, g, strand.(exClause := FlounderSubgoal(strand.exClause, i), selected := None))
  {
    FlounderSame(strand.exClause, i);
    if Definite(ctx.ops) {
      SoundPermutation(ctx.ops, g, strand.exClause, FlounderSubgoal(strand.exClause, i));
    }
  }

  /** The strand pursuing the next answer of the same subgoal. */
  function NextAlternative(strand: Strand): Strand
    requires strand.selected.Some?
  {
    var sel := strand.selected.value;
    strand.(selected := Some(sel.(answerIndex := sel.answerIndex + 1)))
  }

  /** A table before it has been searched: one strand for each clause, unless the goal flounders. */
  function FreshTable(ctx: Context, goal: TableGoal): Table {
    var strands := match ctx.clauses(goal) case Some(clauses) => InitialStrands(clauses) case None => [];
    Table(goal, ctx.coinductive(goal), ctx.clauses(goal).None?, [], map[], strands, Complete)
  }

  /** The table's strands stand for the clauses, one for one, and nothing has been done about them yet. */
  ghost predicate Unsearched(ctx: Context, goal: TableGoal, table: Table) {
    && table.goal == goal && (table.coinductive <==> ctx.coinductive(goal))
    && table.answers == [] && table.answersHash == map[] && table.mode.Complete?
    && (table.floundered <==> ctx.clauses(goal).None?)
    && match ctx.clauses(goal)
       case None => table.strands == []
       case Some(clauses) =>
         && |table.strands| == |clauses|
         && forall i :: 0 <= i < |clauses| ==> StandsForClause(table.strands[i], clauses[i])
  }

  ghost predicate StandsForClause(strand: Strand, clause: Clause) {
    && strand.exClause.subst == clause.subst
    && strand.exClause.ambiguous == clause.ambiguous
    && strand.exClause.subgoals == clause.subgoals
    && strand.exClause.delayed == [] && strand.exClause.floundered == [] && strand.exClause.answerTime == 0
    && strand.selected.None? && strand.lastPursuedTime == 0
  }

  lemma RotatedOk(ctx: View, tables: seq<Table>, g: TableGoal, strands: seq<Strand>, k: nat)
    requires StrandsOk(ctx, tables, g, strands) && k < |strands|
    ensures StrandsOk(ctx, tables, g, strands[k + 1..] + strands[..k]) && StrandOk(ctx, tables, g, strands[k])
    ensures multiset(strands) == multiset(strands[k + 1..] + strands[..k]) + multiset{strands[k]}
  {
    hide StrandOk;
    assert strands == strands[..k] + [strands[k]] + strands[k + 1..];
  }

  // ----- The engine -----

  class SolveState {
    const context: Context

    var tables: seq<Table>
    var indices: map<TableGoal, nat>
    var clock: nat
    var stack: seq<StackEntry>

    /** What the invariants keep track of, beside the state itself. */
    ghost var cover: Option<Cover>
    ghost var met: seq<set<Met>>

    ghost function Viewed(): View
      reads this
    {
      View(context, cover)
    }

    ghost predicate WellFormed()
      reads this
    {
      && ViewOk(Viewed(), indices)
      && IndexOk(tables, indices)
      && TablesOk(Viewed(), tables)
      && StackOk(Viewed(), tables, clock, stack)
    }

    ghost predicate Valid()
      reads this
    {
      WellFormed() && MetOk(tables, stack, met)
    }

    /** The goal of the table at the top of the stack. */
    ghost function TopGoal(): TableGoal
      requires WellFormed() && stack != []
      reads this
    {
      tables[Top(stack).table].goal
    }

    constructor (context: Context)
      ensures Valid() && tables == [] && stack == [] && this.context == context
    {
      this.context := context;
      tables, indices, clock, stack := [], map[], 0, [];
      cover, met := None, [];
    }

    /** Creates the table of a goal with one strand for each clause that resolves with it. */
    method BuildTable(goal: TableGoal) returns (table: Table)
      ensures table == FreshTable(context, goal) && Unsearched(context, goal, table)
      ensures (cover.Some? && cover.value.goal == goal) || TableOk(Viewed(), tables, table)
    {
      table := Table(goal, context.coinductive(goal), false, [], map[], [], Complete);
      match context.clauses(goal) {
        case None =>
          table := table.(floundered := true, strands := [], answers := []);
        case Some(clauses) =>
          for i := 0 to |clauses|
            invariant table == Table(goal, context.coinductive(goal), false, [], map[], InitialStrands(clauses[..i]),
                      Complete)
          {
            table := table.(strands := table.strands + [InitialStrand(clauses[i])]);
            assert InitialStrands(clauses[..i + 1]) == InitialStrands(clauses[..i]) + [InitialStrand(clauses[i])];
          }
          assert clauses[..|clauses|] == clauses;
          forall k | 0 <= k < |table.strands| && !(cover.Some? && cover.value.goal == goal)
            ensures StrandOk(Viewed(), tables, goal, table.strands[k])
          {
            if Definite(context) {
              InitialStrandSound(context, goal, k);
            }
          }
      }
    }

    method GetOrCreateTable(goal: TableGoal) returns (t: nat)
      requires Valid()
      modifies this`tables, this`indices
      ensures Valid() && old(tables) <= tables
      ensures t < |tables| && tables[t].goal == goal
      ensures tables == if goal in old(indices) then old(tables) else old(tables) + [FreshTable(context, goal)]
      ensures goal !in old(indices) ==> Unsearched(context, goal, tables[t])
    {
      if goal in indices {
        return indices[goal];
      }
      var table := BuildTable(goal);
      AppendTableOk(Viewed(), tables, clock, stack, table);
      MetGrown(tables, tables + [table], stack, met);
      t := |tables|;
      tables := tables + [table];
      indices := indices[goal := t];
    }

    method EnqueueStrand(t: nat, strand: Strand)
      requires WellFormed() && t < |tables| && !tables[t].floundered
      requires StrandOk(Viewed(), tables, tables[t].goal, strand)
      modifies this`tables
      ensures WellFormed() && (old(Valid()) ==> Valid())
      ensures tables == old(tables)[t := old(tables)[t].(strands := old(tables)[t].strands + [strand])]
      ensures SameAnswers(old(tables), tables)
    {
      hide StrandOk, StackOk, AnswersOk, MetOk;
      UpdateStrandsOk(Viewed(), tables, clock, stack, t, tables[t].strands + [strand], tables[t].mode);
      if Valid() {
        MetEnqueued(tables, t, strand, stack, met);
      }
      tables := tables[t := tables[t].(strands := tables[t].strands + [strand])];
    }

    /** Takes the first eligible strand out of a table's queue, rotating the queue to it. */
    method DequeueNextStrandThat(t: nat, clock: nat) returns (r: Option<Strand>)
      requires Valid() && t < |tables|
      modifies this`tables
      ensures WellFormed() && SameAnswers(old(tables), tables)
      ensures stack != [] && t == Top(stack).table && clock == Top(stack).clock ==> Valid()
      ensures r.None? ==> tables == old(tables)
                          && forall k :: 0 <= k < |tables[t].strands| ==>
                               !Eligible(tables[t].strands[k], clock, tables[t].mode)
      ensures r.Some? ==>
                exists k :: 0 <= k < |old(tables)[t].strands| && Dequeued(old(tables), tables, t, clock, k, r.value)
      ensures r.Some? ==> StrandOk(Viewed(), tables, tables[t].goal, r.value)
      // no strand is taken twice at the same time, and no ambiguous one while unambiguous answers are looked for
      ensures r.Some? ==>
                r.value.lastPursuedTime < clock && (tables[t].mode.Complete? ==> !r.value.exClause.ambiguous)
      ensures r.None? ==>
                forall s :: s in tables[t].strands ==>
                  s.lastPursuedTime >= clock || (tables[t].mode.Complete? && s.exClause.ambiguous)
    {
      hide StrandOk, StackOk, AnswersOk, MetOk;
      var strands := tables[t].strands;
      var first := 0;
      while first < |strands| && !Eligible(strands[first], clock, tables[t].mode)
        invariant 0 <= first <= |strands|
        invariant forall k :: 0 <= k < first ==> !Eligible(strands[k], clock, tables[t].mode)
      {
        first := first + 1;
      }
      if first == |strands| {
        return None;
      }
      RotatedOk(Viewed(), tables, tables[t].goal, strands, first);
      UpdateStrandsOk(Viewed(), tables, this.clock, stack, t, strands[first + 1..] + strands[..first], tables[t].mode);
      if stack != [] && t == Top(stack).table && clock == Top(stack).clock {
        InOrder(Viewed(), tables, this.clock, stack);
        MetDequeued(tables, stack, met, first);
      }
      tables := tables[t := tables[t].(strands := strands[first + 1..] + strands[..first])];
      SameAnswersGrow(old(tables), tables);
      StrandOkGrows(Viewed(), old(tables), tables, tables[t].goal, strands[first]);
      r := Some(strands[first]);
      assert Dequeued(old(tables), tables, t, clock, first, r.value);
    }

    /** Picks the subgoal a strand should pursue next, setting floundering ones aside. */
    method SelectSubgoal(initial: Strand) returns (strand: Strand, selected: bool)
      requires Valid() && stack != [] && StrandOk(Viewed(), tables, TopGoal(), initial)
      modifies this`tables, this`indices
      ensures Valid() && old(tables) <= tables
      ensures StrandOk(Viewed(), tables, TopGoal(), strand)
      ensures strand.lastPursuedTime == initial.lastPursuedTime && SameWork(initial.exClause, strand.exClause)
      ensures selected ==> strand.selected.Some? && !tables[strand.selected.value.subgoalTable].floundered
      ensures !selected ==> strand.selected.None?
      // a selection that can be pursued stays; a new one asks for the first answer
      ensures initial.selected.Some? && !old(tables)[initial.selected.value.subgoalTable].floundered ==>
                selected && strand == initial
      ensures selected ==> strand == initial || strand.selected.value.answerIndex == 0
      // only literals that cannot be pursued are set aside, from the last one on
      ensures Advanced(context, tables, indices, initial.exClause, strand.exClause)
      // nothing is selected only if nothing can be, or a negative literal is left over whose table has floundered
      ensures !selected && strand.exClause.subgoals != [] ==> LeftOver(context, tables, indices, strand.exClause)
      ensures !selected && strand.exClause.subgoals == [] ==>
                forall l :: Open(initial.exClause, l) ==> CannotPursue(context, tables, indices, l)
      ensures !selected && strand.exClause.subgoals == [] && strand.exClause.floundered != [] ==>
                strand.exClause.ambiguous
      ensures strand.exClause.subgoals != [] || strand.exClause.floundered == [] ==>
                strand.exClause.ambiguous == initial.exClause.ambiguous
    {
      hide IndexOk, TablesOk, StackOk, StrandOk, SameWork, Advanced, LeftOver, Literals, FlounderSubgoal, CannotPursue,
        Open,
        Pursuing, Work, MetOk;
      TopEntriesOk(Viewed(), tables, clock, stack);
      strand := initial;
      ghost var g := TopGoal();
      PursuitStarts(Viewed(), tables, indices, g, initial);
      while true
        invariant Valid() && old(tables) <= tables && TopGoal() == g
        invariant Pursuing(Viewed(), tables, indices, g, initial, strand)
        invariant strand.exClause.ambiguous == initial.exClause.ambiguous
        invariant initial.selected.Some? && !old(tables)[initial.selected.value.subgoalTable].floundered ==>
                    strand == initial
        decreases Work(strand.exClause)
      {
        var found;
        strand, found := PickSubgoal(initial, strand);
        PursuingParts(Viewed(), tables, indices, g, initial, strand);
        if !found {
          return strand, false;
        }
        SelectionExists(Viewed(), tables, indices, g, initial, strand);
        var sel := strand.selected.value;
        if tables[sel.subgoalTable].floundered {
          var e := strand.exClause;
          match e.subgoals[sel.subgoalIndex] {
            case Positive(_) =>
              FlounderSame(e, sel.subgoalIndex);
              SelectedFloundered(Viewed(), tables, indices, g, strand);
              FlounderAdvances(context, tables, indices, e, sel.subgoalIndex);
              Rearranged(Viewed(), tables, indices, g, initial, strand, FlounderSubgoal(e, sel.subgoalIndex));
              strand := strand.(selected := None, exClause := FlounderSubgoal(e, sel.subgoalIndex));
            case Negative(_) =>
              LeftOverHere(Viewed(), tables, indices, g, strand);
              SameWorkReflexive(context, tables, indices, e);
              Rearranged(Viewed(), tables, indices, g, initial, strand, e);
              strand := strand.(selected := None);
              PursuingParts(Viewed(), tables, indices, g, initial, strand);
              return strand, false;
          }
        } else {
          return strand, true;
        }
      }
    }

    /** Makes a selection unless there is one, or finds that none is possible. */
    method PickSubgoal(ghost initial: Strand, before: Strand) returns (strand: Strand, found: bool)
      requires Valid() && stack != [] && Pursuing(Viewed(), tables, indices, TopGoal(), initial, before)
      modifies this`tables, this`indices
      ensures Valid() && old(tables) <= tables && Pursuing(Viewed(), tables, indices, TopGoal(), initial, strand)
      ensures Work(strand.exClause) <= Work(before.exClause)
      ensures before.selected.Some? ==> found && strand == before && tables == old(tables)
      ensures found ==> strand.selected.Some? && strand.exClause.ambiguous == before.exClause.ambiguous
      ensures !found ==> strand.selected.None? && strand.exClause.subgoals == []
      ensures !found ==> forall l :: Open(initial.exClause, l) ==> CannotPursue(context, tables, indices, l)
      ensures !found ==> strand.exClause.ambiguous == if strand.exClause.floundered == [] then before.exClause.ambiguous
              else true
    {
      hide IndexOk, TablesOk, StackOk, StrandOk, SameWork, Advanced, LeftOver, Literals, FlounderSubgoal, CannotPursue,
        Open,
        Pursuing, Work, MetOk;
      TopEntriesOk(Viewed(), tables, clock, stack);
      strand := before;
      ghost var g := TopGoal();
      while strand.selected.None?
        invariant Valid() && old(tables) <= tables && TopGoal() == g
        invariant Pursuing(Viewed(), tables, indices, g, initial, strand)
        invariant strand.exClause.ambiguous == before.exClause.ambiguous
                  && Work(strand.exClause) <= Work(before.exClause)
        invariant before.selected.Some? ==> strand == before && tables == old(tables)
        decreases Work(strand.exClause), OlderCount(strand.exClause.floundered, strand.exClause.answerTime),
                  strand.selected.None?
      {
        var e := strand.exClause;
        if e.subgoals == [] {
          if e.floundered == [] {
            NothingOpen(e);
            AllTried(Viewed(), tables, indices, g, initial, strand);
            return strand, false;
          }
          var e' := ReconsiderFlounderedSubgoals(e);
          ReconsiderSame(context, tables, indices, e, e');
          Rearranged(Viewed(), tables, indices, g, initial, strand, e');
          strand := strand.(exClause := e');
          if e'.subgoals == [] {
            AmbiguousSame(context, tables, indices, e');
            AmbiguousOpen(e');
            Rearranged(Viewed(), tables, indices, g, initial, strand, e'.(ambiguous := true));
            strand := strand.(exClause := e'.(ambiguous := true));
            AllTried(Viewed(), tables, indices, g, initial, strand);
            StillFloundered(e, e');
            return strand, false;
          }
        } else {
          var i := |e.subgoals| - 1;
          var goal := context.tableFor(e.subgoals[i]);
          match goal {
            case Some(h) =>
              ghost var tables0, indices0 := tables, indices;
              var t := GetOrCreateTable(h);
              PursuingGrows(Viewed(), tables0, indices0, tables, indices, g, initial, strand);
              SelectedLast(Viewed(), tables, indices, g, initial, strand, t);
              strand := strand.(selected := Some(Selected(i, t, 0)));
            case None =>
              FlounderSame(e, i);
              NoTable(context, tables, indices, e.subgoals[i]);
              FlounderAdvances(context, tables, indices, e, i);
              Rearranged(Viewed(), tables, indices, g, initial, strand, FlounderSubgoal(e, i));
              strand := strand.(exClause := FlounderSubgoal(e, i));
          }
        }
      }
      found := true;
    }

    /** Unwinds the entire stack, returning all active strands back to their tables. */
    method UnwindStack()
      requires ViewOk(Viewed(), indices) && IndexOk(tables, indices) && TablesOk(Viewed(), tables)
      requires Unwindable(Viewed(), tables, clock, stack)
      modifies this`tables, this`stack, this`met
      ensures Valid() && stack == []
      ensures tables == Unwound(old(tables), old(stack)) && SameAnswers(old(tables), tables)
    {
      hide IndexOk, TablesOk, StrandOk, AnswersOk, Anchored, Waiting, Unwound;
      met := [];
      while true
        invariant SameAnswers(old(tables), tables) && met == []
        invariant IndexOk(tables, indices) && TablesOk(Viewed(), tables) && Unwindable(Viewed(), tables, clock, stack)
        invariant Unwound(tables, stack) == Unwound(old(tables), old(stack))
        decreases |stack|
      {
        ghost var tables0, stack0 := tables, stack;
        stack := Popped(stack);
        if stack == [] {
          NothingSuspended(tables, stack0);
          return;
        }
        UnwindStep(tables, stack0);
        var strand := Top(stack).active.value;
        SetActiveOk(Viewed(), tables, clock, stack, None);
        stack := WithTop(stack, Top(stack).(active := None));
        EnqueueStrand(Top(stack).table, strand);
        CanUnwind(Viewed(), tables, clock, stack);
      }
    }

    /** Empties the tables of the given strands' selected subgoals, and recursively those their strands lead to. */
    method ClearStrandsAfterCycle(strands: seq<Strand>) returns (ok: bool)
      requires AllTargetsIn(tables) && TargetsIn(|tables|, strands)
      modifies this`tables
      ensures OnlyEmptied(old(tables), tables)
      ensures ok <==> Clearable(old(tables), strands)
      ensures ok ==> forall t :: 0 <= t < |tables| ==>
                       tables[t] == if Reached(old(tables), strands, t) then old(tables)[t].(strands := [])
                         else old(tables)[t]
      ensures ok ==> SelectedAreEmpty(strands, tables) && EmptiedAreFollowed(old(tables), tables)
      ensures ok ==> StaysWithin(old(tables), strands, tables)
      decreases TotalStrands(tables) + |strands|
    {
      hide Reached, StaysWithin, SelectedAreEmpty, EmptiedAreFollowed, AllTargetsIn;
      ProgressStarts(tables, strands);
      for k := 0 to |strands|
        invariant Progress(old(tables), strands, k, tables)
      {
        if strands[k].selected.None? {
          assert !AllSelected(strands);
          return false;
        }
        var t := strands[k].selected.value.subgoalTable;
        ghost var now := tables;
        TakenShrinks(old(tables), now, t);
        TargetsStay(old(tables), now);
        TargetsStay(old(tables), Taken(now, t));
        var taken := tables[t].strands;
        tables := tables[t := tables[t].(strands := [])];
        ok := ClearStrandsAfterCycle(taken);
        if !ok {
          StepUnclearable(old(tables), strands, k, now);
          return false;
        }
        StepProgress(old(tables), strands, k, now, tables);
      }
      ProgressEnds(old(tables), strands, tables);
      ok := true;
    }

    /** Cleans up when a root search ends, however it ends. */
    method Drop()
      requires Valid()
      modifies this`tables, this`stack, this`met
      ensures Valid() && stack == [] && SameAnswers(old(tables), tables)
      ensures old(stack) == [] ==> tables == old(tables)
      ensures old(stack) != [] ==> tables == Dropped(old(tables), old(stack))
      ensures AllKept(old(tables), old(stack), tables, stack)
    {
      hide StackOk, TablesOk, IndexOk, StrandOk, Unwound, MetOk, AllKept;
      KeptGrown(tables, tables, stack);
      if stack != [] {
        TopEntriesOk(Viewed(), tables, clock, stack);
        if Top(stack).active.Some? {
          KeptReturned(tables, stack);
          var strand := Top(stack).active.value;
          SetActiveOk(Viewed(), tables, clock, stack, None);
          stack := WithTop(stack, Top(stack).(active := None));
          EnqueueStrand(Top(stack).table, strand);
          UnwoundBelowTop(tables, old(stack), Top(stack));
        }
        CanUnwind(Viewed(), tables, clock, stack);
        KeptUnwound(tables, stack);
        KeptNext(old(tables), old(stack), tables, stack, Unwound(tables, stack), []);
        UnwindStack();
      }
    }

    /** Plugs the available answer to the selected subgoal into the strand. */
    method MergeAnswerIntoStrand(strand: Strand) returns (r: MergeOutcome)
      requires Valid() && stack != [] && StrandOk(Viewed(), tables, TopGoal(), strand)
      requires strand.selected.Some?
      requires strand.selected.value.answerIndex < |tables[strand.selected.value.subgoalTable].answers|
      modifies this`tables, this`stack, this`met
      ensures r.MergePanic? ==> Tolerable(context, r.reason)
      ensures r.MergeFailed? ==> Valid() && stack == [] && SameAnswers(old(tables), tables)
      ensures r.Merged? ==> Valid() && stack == old(stack) && met == old(met) && SameAnswers(old(tables), tables)
      ensures r.Merged? ==>
                StrandOk(Viewed(), tables, TopGoal(), r.strand) && r.strand.lastPursuedTime == strand.lastPursuedTime
      ensures MergeSpec(context, old(tables), old(stack), strand, AnswerOf(old(tables), strand), r, tables)
    {
      hide IndexOk, StackOk, StrandOk, TablesOk, MergedExClause, Unwound, TablesGrow, Definite, MetOk, FlounderSubgoal;
      TopEntriesOk(Viewed(), tables, clock, stack);
      SelectionOk(Viewed(), tables, TopGoal(), strand);
      var e, sel, table := strand.exClause, strand.selected.value, Top(stack).table;
      SelectedIsLast(Viewed(), tables, e, sel);
      var answer := tables[sel.subgoalTable].answers[sel.answerIndex];
      if tables[table].mode.Complete? && answer.ambiguous {
        FlounderedOk(Viewed(), tables, TopGoal(), strand, sel.subgoalIndex);
        return Merged(strand.(exClause := FlounderSubgoal(e, sel.subgoalIndex), selected := None));
      }
      if e.subgoals[sel.subgoalIndex].Positive? {
        r := MergePositive(strand);
      } else {
        r := MergeNegative(strand);
      }
    }

    /** Resolves a positive subgoal with its answer; other answers are left to a strand of their own. */
    method MergePositive(strand: Strand) returns (r: MergeOutcome)
      requires Valid() && stack != [] && StrandOk(Viewed(), tables, TopGoal(), strand)
      requires strand.selected.Some? && SelectedLiteral(strand).Positive?
      requires strand.selected.value.answerIndex < |tables[strand.selected.value.subgoalTable].answers|
      requires !(tables[Top(stack).table].mode.Complete? && AnswerOf(tables, strand).ambiguous)
      modifies this`tables, this`stack, this`met
      ensures r.MergePanic? ==> Tolerable(context, r.reason)
      ensures r.MergeFailed? ==> Valid() && stack == [] && SameAnswers(old(tables), tables)
      ensures r.Merged? ==> Valid() && stack == old(stack) && met == old(met) && SameAnswers(old(tables), tables)
      ensures r.Merged? ==>
                StrandOk(Viewed(), tables, TopGoal(), r.strand) && r.strand.lastPursuedTime == strand.lastPursuedTime
      ensures MergeSpec(context, old(tables), old(stack), strand, AnswerOf(old(tables), strand), r, tables)
    {
      hide IndexOk, StackOk, StrandOk, TablesOk, MergedExClause, Unwound, TablesGrow, Definite, MetOk;
      TopEntriesOk(Viewed(), tables, clock, stack);
      SelectionOk(Viewed(), tables, TopGoal(), strand);
      var e, sel, table := strand.exClause, strand.selected.value, Top(stack).table;
      SelectedIsLast(Viewed(), tables, e, sel);
      var answer := tables[sel.subgoalTable].answers[sel.answerIndex];
      if !context.identity(tables[sel.subgoalTable].goal, answer.subst.subst) {
        AlternativeOk(Viewed(), tables, TopGoal(), strand);
        EnqueueStrand(table, NextAlternative(strand));
        SameAnswersGrow(old(tables), tables);
        StrandOkGrows(Viewed(), old(tables), tables, TopGoal(), strand);
      }
      var resolvent := context.resolve(e.subgoals[sel.subgoalIndex].atom, tables[sel.subgoalTable].goal, answer.subst);
      match resolvent {
        case Some(res) =>
          TableIsOk(Viewed(), tables, sel.subgoalTable);
          MergedOk(Viewed(), tables, TopGoal(), strand, res, answer);
          r := Merged(strand.(exClause := MergedExClause(e, sel.subgoalIndex, res, answer), selected := None));
        case None =>
          CanUnwind(Viewed(), tables, clock, stack);
          UnwindStack();
          r := MergeFailed;
      }
    }

    /** An answer to a negated goal refutes the strand, unless it is ambiguous. */
    method MergeNegative(strand: Strand) returns (r: MergeOutcome)
      requires Valid() && stack != [] && StrandOk(Viewed(), tables, TopGoal(), strand)
      requires strand.selected.Some? && SelectedLiteral(strand).Negative?
      requires strand.selected.value.answerIndex < |tables[strand.selected.value.subgoalTable].answers|
      requires !(tables[Top(stack).table].mode.Complete? && AnswerOf(tables, strand).ambiguous)
      modifies this`tables, this`stack, this`met
      ensures r.MergePanic? ==> Tolerable(context, r.reason)
      ensures r.MergeFailed? ==> Valid() && stack == [] && SameAnswers(old(tables), tables)
      ensures r.Merged? ==> Valid() && stack == old(stack) && met == old(met) && SameAnswers(old(tables), tables)
      ensures r.Merged? ==>
                StrandOk(Viewed(), tables, TopGoal(), r.strand) && r.strand.lastPursuedTime == strand.lastPursuedTime
      ensures MergeSpec(context, old(tables), old(stack), strand, AnswerOf(old(tables), strand), r, tables)
    {
      hide IndexOk, StackOk, StrandOk, TablesOk, Unwound, TablesGrow, Definite, MetOk;
      TopEntriesOk(Viewed(), tables, clock, stack);
      SelectionOk(Viewed(), tables, TopGoal(), strand);
      var e, sel := strand.exClause, strand.selected.value;
      SelectedIsLast(Viewed(), tables, e, sel);
      var answer := tables[sel.subgoalTable].answers[sel.answerIndex];
      NegativeDropped(Viewed(), tables, TopGoal(), strand, sel.subgoalIndex, true);
      if answer.subst.delayed != [] {
        r := MergePanic(NegativeDelayed);
      } else if !answer.ambiguous {
        CanUnwind(Viewed(), tables, clock, stack);
        UnwindStack();
        r := MergeFailed;
      } else {
        var e' := e.(subgoals := RemoveAt(e.subgoals, sel.subgoalIndex), ambiguous := true);
        r := Merged(strand.(exClause := e', selected := None));
      }
    }

    /** Searches the stack for a table. */
    method IsActive(table: nat) returns (r: Option<nat>)
      ensures r.None? ==> forall i :: 0 <= i < |stack| ==> stack[i].table != table
      ensures r.Some? ==> r.value < |stack| && stack[r.value].table == table
    {
      for i := 0 to |stack|
        invariant forall k :: 0 <= k < i ==> stack[k].table != table
      {
        if stack[i].table == table {
          return Some(i);
        }
      }
      r := None;
    }

    method TopOfStackIsCoinductiveFrom(depth: nat) returns (all: bool)
      requires Valid() && depth <= |stack|
      ensures all <==> forall i :: depth <= i < |stack| ==> tables[stack[i].table].coinductive
    {
      hide StrandOk, AnswersOk;
      for i := depth to |stack|
        invariant forall k :: depth <= k < i ==> tables[stack[k].table].coinductive
      {
        if !tables[stack[i].table].coinductive {
          return false;
        }
      }
      all := true;
    }

    /** A coinductive cycle: the subgoal is delayed. */
    method OnCoinductiveSubgoal(strand: Strand) returns (r: StepOutcome)
      requires Valid() && stack != [] && StrandOk(Viewed(), tables, TopGoal(), strand) && strand.selected.Some?
      requires context.coinductive(TopGoal()) && strand.lastPursuedTime == Top(stack).clock
      requires context.coinductive(tables[strand.selected.value.subgoalTable].goal)
      modifies this`stack
      ensures r == if strand.exClause.subgoals[strand.selected.value.subgoalIndex].Positive? then Continue
              else Panic(CoinductiveNegative)
      ensures r.Continue? ==> Valid() && stack == WithTop(old(stack), Top(old(stack)).(active := Some(Delayed(strand))))
      ensures r.Panic? ==> Tolerable(context, r.reason)
    {
      hide StackOk, TablesOk, IndexOk, StrandOk, Delayed, MetOk;
      TopEntriesOk(Viewed(), tables, clock, stack);
      SelectionOk(Viewed(), tables, TopGoal(), strand);
      var e, sel := strand.exClause, strand.selected.value;
      match e.subgoals[sel.subgoalIndex] {
        case Positive(_) =>
          DelayedOk(Viewed(), tables, TopGoal(), strand);
          SetActiveOk(Viewed(), tables, clock, stack, Some(Delayed(strand)));
          MetActive(tables, stack, met, Some(Delayed(strand)));
          stack := WithTop(stack, Top(stack).(active := Some(Delayed(strand))));
          r := Continue;
        case Negative(_) =>
          NegativeDropped(Viewed(), tables, TopGoal(), strand, sel.subgoalIndex, true);
          r := Panic(CoinductiveNegative);
      }
    }

    /** A positive or negative cycle: record how far down it reaches and return the strand to its table. */
    method OnPositiveCycle(strand: Strand, minimums: Minimums, ghost more: set<Met>)
      requires Valid() && stack != [] && StrandOk(Viewed(), tables, TopGoal(), strand) && strand.selected.Some?
      requires Top(stack).active.None?
      requires Anchored(stack, |stack| - 1, minimums.positive) && Anchored(stack, |stack| - 1, minimums.negative)
      // the minimums stand for cycles that the strand has run into, at least one of them no higher than this entry
      requires RanInto(stack, strand, more) && LeastReach(MinimumOfPosAndNeg(minimums), more)
      requires !NotBefore(MinimumOfPosAndNeg(minimums), Top(stack).clock + 1)
      requires !SelectsNegative(strand) ==> (minimums.negative.Some? <==> SomeNegative(more))
      modifies this`tables, this`stack, this`met
      ensures Valid()
      ensures tables == old(tables)[Top(old(stack)).table := Enqueued(old(tables)[Top(old(stack)).table], strand)]
      ensures stack == WithTop(old(stack), CycleRecorded(Top(old(stack)), strand, minimums))
      ensures met == old(met)[|stack| - 1 := old(met)[|stack| - 1] + more]
      ensures SameAnswers(old(tables), tables)
    {
      hide StrandOk, StackOk, TablesOk, IndexOk, Anchored, EntryMet, LeastReach, MinTime, NotBefore, RanInto,
        SomeNegative, Direct;
      TopEntriesOk(Viewed(), tables, clock, stack);
      SelectionOk(Viewed(), tables, TopGoal(), strand);
      var m := match strand.exClause.subgoals[strand.selected.value.subgoalIndex]
               case Positive(_) => minimums
               case Negative(_) => Minimums(Some(Top(stack).clock), MinimumOfPosAndNeg(minimums));
      NegativeAnchored(stack, minimums);
      SetTopOk(Viewed(), tables, clock, stack, None, m);
      assert LeastReach(MinimumOfPosAndNeg(m), more) && (m.negative.Some? <==> SomeNegative(more)) by {
        NegativeReach(minimums, Top(stack).clock, more);
        AllNegative(stack, strand, more);
      }
      MetCycle(tables, stack, met, strand, m, more);
      stack := WithTop(stack, Top(stack).(minimums := TakeMinimums(Top(stack).minimums, m)));
      met := met[|met| - 1 := met[|met| - 1] + more];
      EnqueueStrand(Top(stack).table, strand);
    }

    /** Pursues the subgoal that was selected for a strand of the table at the top of the stack. */
    method OnSubgoalSelected(strand: Strand) returns (r: StepOutcome)
      requires Valid() && stack != [] && Top(stack).active.None?
      requires StrandOk(Viewed(), tables, TopGoal(), strand) && strand.selected.Some?
      requires !tables[strand.selected.value.subgoalTable].floundered && strand.lastPursuedTime == Top(stack).clock
      modifies this`tables, this`stack, this`met, this`clock
      ensures r.Continue? || r == Fail(QuantumExceeded) || r.Panic?
      ensures r.Continue? ==> Valid() && stack != [] && RootKept(old(tables), old(stack), tables, stack)
      ensures r.Fail? ==> Valid() && stack == []
      ensures r.Panic? ==> Tolerable(context, r.reason)
      ensures !r.Panic? ==> SameAnswers(old(tables), tables)
      ensures !r.Panic? ==> AllKept(old(tables), old(stack), tables, stack)
      ensures !r.Panic? ==> FollowedFrom(context, tables, stack, Top(old(stack)).table, strand)
    {
      hide StrandOk, StackOk, TablesOk, IndexOk, MergeSpec, Tolerable, MetOk, AllKept, FollowedFrom;
      TopEntriesOk(Viewed(), tables, clock, stack);
      SelectionOk(Viewed(), tables, TopGoal(), strand);
      var sel := strand.selected.value;
      if sel.answerIndex < |tables[sel.subgoalTable].answers| {
        var merged := MergeAnswerIntoStrand(strand);
        MergeKeeps(context, old(tables), old(stack), strand, AnswerOf(old(tables), strand), merged, tables);
        match merged {
          case Merged(strand') =>
            SetActiveOk(Viewed(), tables, clock, stack, Some(strand'));
            MetActive(tables, stack, met, Some(strand'));
            KeptTop(tables, stack, Top(stack).(active := Some(strand')));
            KeptNext(old(tables), stack, tables, stack, tables, WithTop(stack, Top(stack).(active := Some(strand'))));
            stack := WithTop(stack, Top(stack).(active := Some(strand')));
            MergedFollowed(context, old(tables), old(stack), strand, strand', tables);
            r := Continue;
          case MergeFailed =>
            FailedFollowed(context, old(tables), old(stack), strand, tables);
            r := Fail(QuantumExceeded);
          case MergePanic(reason) => r := Panic(reason);
        }
      } else {
        assert |tables[sel.subgoalTable].answers| == sel.answerIndex;
        r := OnNoAnswerYet(strand);
      }
    }

    /** The selected subgoal has no further answer so far: either a cycle, or its table must be searched. */
    method OnNoAnswerYet(strand: Strand) returns (r: StepOutcome)
      requires Valid() && stack != [] && Top(stack).active.None?
      requires StrandOk(Viewed(), tables, TopGoal(), strand) && strand.selected.Some?
      requires var table := tables[strand.selected.value.subgoalTable];
               !table.floundered && |table.answers| == strand.selected.value.answerIndex
      requires strand.lastPursuedTime == Top(stack).clock
      modifies this`tables, this`stack, this`met, this`clock
      ensures r.Continue? || r.Panic?
      ensures r.Continue? ==>
                Valid() && stack != [] && RootKept(old(tables), old(stack), tables, stack)
                && SameAnswers(old(tables), tables) && AllKept(old(tables), old(stack), tables, stack)
                && FollowedFrom(context, tables, stack, Top(old(stack)).table, strand)
      ensures r.Panic? ==> Tolerable(context, r.reason)
      ensures (forall i :: 0 <= i < |old(stack)| ==> old(stack)[i].table != strand.selected.value.subgoalTable) ==>
                && r.Continue? && tables == old(tables) && clock == old(clock) + 1
                && stack == WithTop(old(stack), Top(old(stack)).(active := Some(strand)))
                            + [StackEntry(strand.selected.value.subgoalTable, clock, Minimums(None, None), None)]
                && met == old(met) + [{}]
      ensures forall d :: 0 <= d < |old(stack)| && old(stack)[d].table == strand.selected.value.subgoalTable ==>
                            OnCycle(old(tables), old(stack), old(met), strand, d, r, tables, stack, met)
    {
      hide StrandOk, StackOk, TablesOk, IndexOk, Anchored, Enqueued, Delayed, Tolerable, Ordered, EntryMet, LeastReach,
        MinTime, NotBefore, RanInto, SomeNegative, Direct, AllKept, FollowedFrom, SameTask;
      TopEntriesOk(Viewed(), tables, clock, stack);
      SelectionOk(Viewed(), tables, TopGoal(), strand);
      var sel := strand.selected.value;
      var depth := IsActive(sel.subgoalTable);
      if depth.Some? {
        OnlyOnce(Viewed(), tables, clock, stack, depth.value);
        var coinductive := TopOfStackIsCoinductiveFrom(depth.value);
        if coinductive {
          CoinductiveTop(depth.value);
          KeptTop(tables, stack, Top(stack).(active := Some(Delayed(strand))));
          r := OnCoinductiveSubgoal(strand);
          if r.Continue? {
            DelayedTask(strand);
            HeldFollowed(context, tables, stack, Top(stack).table, strand, Delayed(strand));
          }
        } else {
          ClockIsAnchored(stack, depth.value);
          CycleReaches(Viewed(), tables, clock, stack, strand, depth.value);
          OnPositiveCycle(strand, Minimums(Some(stack[depth.value].clock), None),
                          Direct(strand, stack[depth.value].clock));
          CycleKeeps(old(tables), old(stack), strand, Top(stack));
          QueuedFollowed(context, old(tables), stack, Top(stack).table, strand);
          r := Continue;
        }
      } else {
        Descend(strand);
        DescendKeeps(tables, old(stack), strand, Top(stack));
        SameTaskReflexive(strand.exClause);
        HeldFollowed(context, tables, stack, Top(old(stack)).table, strand, strand);
        r := Continue;
      }
    }

    /** Sets the strand aside and starts on its selected subgoal's table. */
    method Descend(strand: Strand)
      requires Valid() && stack != []
      requires StrandOk(Viewed(), tables, TopGoal(), strand) && strand.selected.Some?
      requires var table := tables[strand.selected.value.subgoalTable];
               !table.floundered && |table.answers| == strand.selected.value.answerIndex
      requires forall i :: 0 <= i < |stack| ==> stack[i].table != strand.selected.value.subgoalTable
      requires strand.lastPursuedTime == Top(stack).clock
      modifies this`stack, this`met, this`clock
      ensures Valid() && clock == old(clock) + 1 && met == old(met) + [{}]
      ensures stack == WithTop(old(stack), Top(old(stack)).(active := Some(strand)))
                       + [StackEntry(strand.selected.value.subgoalTable, clock, Minimums(None, None), None)]
    {
      hide StrandOk, StackOk, TablesOk, IndexOk, MetOk;
      DescendOk(Viewed(), tables, clock, stack, strand);
      SelectionOk(Viewed(), tables, TopGoal(), strand);
      var t := strand.selected.value.subgoalTable;
      MetActive(tables, stack, met, Some(strand));
      stack := WithTop(stack, Top(stack).(active := Some(strand)));
      clock := clock + 1;
      MetPushed(tables, stack, met, StackEntry(t, clock, Minimums(None, None), None));
      stack := stack + [StackEntry(t, clock, Minimums(None, None), None)];
      met := met + [{}];
    }

    /** Publishes the answer a strand without subgoals stands for, unless it is too large or known already. */
    method PursueAnswer(strand: Strand) returns (index: Option<nat>, panic: Option<PanicReason>)
      requires Valid() && stack != [] && StrandOk(Viewed(), tables, TopGoal(), strand)
      requires strand.exClause.subgoals != [] ==> !Definite(context)
      requires strand.exClause.subgoals == [] && strand.exClause.floundered != [] ==> strand.exClause.ambiguous
      requires tables[Top(stack).table].mode.Complete? ==> !strand.exClause.ambiguous
      modifies this`tables
      ensures panic.Some? ==> Tolerable(context, panic.value) && index.None?
      ensures panic == PublishPanic(context, old(tables)[Top(stack).table], strand.exClause)
      ensures panic.None? ==>
                && IndexOk(tables, indices) && TablesOk(Viewed(), tables) && Unwindable(Viewed(), tables, clock, stack)
                && |met| == |stack| && MetOk(tables, Popped(stack), met[..|met| - 1])
      ensures panic.None? ==> TablesGrow(old(tables), tables)
      // strands are only given up if the table flounders or the answer leaves nothing to be found
      ensures panic.None? ==> AllConserved(context, old(tables), stack, tables, stack)
      ensures panic.None? ==>
                tables[Top(stack).table].floundered || Answered(context, tables[Top(stack).table], strand.exClause)
      ensures index.Some? ==> Inside(Viewed(), old(TopGoal()), strand.exClause.subst)
      ensures panic.None? ==> var t := Top(stack).table; var table := old(tables)[t];
                if index.Some? then
                  && index.value == |table.answers|
                  && AnswerFor(context, table.goal, strand.exClause).subst !in table.answersHash
                  && tables == old(tables)[t := Published(context, table,
                     AnswerFor(context, table.goal, strand.exClause))]
                else if context.tooLarge(strand.exClause.subst) then
                  tables == old(tables)[t := table.(floundered := true, strands := [], answers := [])]
                else
                  tables == old(tables) && AnswerFor(context, table.goal, strand.exClause).subst in table.answersHash
    {
      hide StackOk, TablesOk, TableOk, IndexOk, StrandOk, Unwindable, AnswerSound, FilterDelayed, Published, EntryMet,
        AllKept, AllConserved, TrivialAnswer, Stands;
      TopEntriesOk(Viewed(), tables, clock, stack);
      TableIsOk(Viewed(), tables, Top(stack).table);
      index, panic := None, None;
      var t, e := Top(stack).table, strand.exClause;
      var table := tables[t];
      if e.subgoals != [] {
        panic := Some(SubgoalsLeft);
        return;
      }
      if context.tooLarge(e.subst) {
        StrandInside(Viewed(), tables, table.goal, strand);
        FlounderedTableOk(Viewed(), tables, table, e.subst);
        TopTableOk(Viewed(), tables, clock, stack, table.(floundered := true, strands := [], answers := []));
        IndexOkUpdate(tables, indices, t, table.(floundered := true, strands := [], answers := []));
        MetBelow(Viewed(), tables, clock, stack, met, table.(floundered := true, strands := [], answers := []));
        ConservedTable(context, tables, stack, t, table.(floundered := true, strands := [], answers := []));
        tables := tables[t := table.(floundered := true, strands := [], answers := [])];
        return;
      }
      var answer := AnswerFor(context, table.goal, e);
      if answer.subst in table.answersHash {
        if table.answersHash[answer.subst] && !answer.ambiguous {
          panic := Some(AnswerUpgraded);
          return;
        }
        CanUnwind(Viewed(), tables, clock, stack);
        MetPopped(tables, stack, met);
        KeptGrown(tables, tables, stack);
        KeptIsConserved(context, tables, stack, tables, stack);
        AnswerStands(context, table, table, e);
        return;
      }
      FinishedStrandSound(Viewed(), tables, table.goal, strand);
      StrandInside(Viewed(), tables, table.goal, strand);
      var table' := Published(context, table, answer);
      PublishedOk(Viewed(), tables, table, answer);
      TopTableOk(Viewed(), tables, clock, stack, table');
      IndexOkUpdate(tables, indices, t, table');
      MetBelow(Viewed(), tables, clock, stack, met, table');
      PublishedKeeps(context, table, answer);
      AnswerStands(context, table, table', e);
      ConservedTable(context, tables, stack, t, table');
      tables := tables[t := table'];
      index := Some(|table.answers|);
    }

    /** A strand has no subgoals left to pursue: it stands for an answer. */
    method OnNoRemainingSubgoals(strand: Strand) returns (r: StepOutcome)
      requires Valid() && stack != [] && Top(stack).active.None? && StrandOk(Viewed(), tables, TopGoal(), strand)
      requires strand.exClause.subgoals != [] ==> !Definite(context)
      requires strand.exClause.subgoals == [] && strand.exClause.floundered != [] ==> strand.exClause.ambiguous
      modifies this`tables, this`stack, this`met
      ensures r.Fail? ==> Valid() && r.failure == QuantumExceeded
      ensures r.Panic? ==> Tolerable(context, r.reason)
      // exactly when one of the assertions on a finished strand fails
      ensures var table := old(tables)[Top(old(stack)).table];
              if table.mode.Complete? && strand.exClause.ambiguous then !r.Panic?
              else match PublishPanic(context, table, strand.exClause)
                   case Some(reason) => r == Panic(reason)
                   case None => !r.Panic?
      ensures r.Continue? ==> Valid() && stack != [] && RootKept(old(tables), old(stack), tables, stack)
      ensures !r.Panic? ==> TablesGrow(old(tables), tables)
      ensures !r.Panic? ==> AllConserved(context, old(tables), old(stack), tables, stack)
      ensures !r.Panic? ==> FollowedFrom(context, tables, stack, Top(old(stack)).table, strand)
      // an ambiguous strand is put off until its table looks for ambiguous answers
      ensures var t := Top(old(stack)).table; var table := old(tables)[t];
              table.mode.Complete? && strand.exClause.ambiguous ==>
                r.Fail? && stack == old(stack) && tables == old(tables)[t := Enqueued(table, strand)]
      // a resumed caller finds the answer it was waiting for
      ensures r.Continue? ==>
                stack == Popped(old(stack)) && HasNewAnswer(old(tables), tables, Top(stack), Top(old(stack)).table)
      ensures r.RootAnswerAvailable? ==> Valid() && stack == [] && |old(stack)| == 1
      ensures r.RootAnswerAvailable? ==>
                var t := Top(old(stack)).table; |tables[t].answers| == |old(tables)[t].answers| + 1
    {
      hide StackOk, TablesOk, IndexOk, StrandOk, Published, FilterDelayed, Inside, Unwindable, TablesGrow, SameAnswers,
        Tolerable, RootKept, HasNewAnswer, Definite, Unwound, MetOk, AllKept, AllConserved, Answered, FollowedFrom;
      TopEntriesOk(Viewed(), tables, clock, stack);
      var table := Top(stack).table;
      if tables[table].mode.Complete? && strand.exClause.ambiguous {
        EnqueueStrand(table, strand);
        SameAnswersGrow(old(tables), tables);
        KeptEnqueued(old(tables), table, strand, stack);
        KeptIsConserved(context, old(tables), stack, tables, stack);
        QueuedFollowed(context, old(tables), stack, table, strand);
        r := Fail(QuantumExceeded);
      } else {
        ghost var answer := AnswerFor(context, tables[table].goal, strand.exClause);
        PublishedAnswer(context, tables[table], answer);
        var index, panic := PursueAnswer(strand);
        ghost var tables1 := tables;
        if panic.Some? {
          r := Panic(panic.value);
        } else {
          if index.None? {
            KeptUnwound(tables, stack);
            UnwindStack();
            r := Fail(QuantumExceeded);
          } else {
            r := ReturnFromTable();
            CallerResumes(Viewed(), old(tables), clock, old(stack), answer, tables);
          }
          SameAnswersGrow(tables1, tables);
          GrowTransitive(old(tables), tables1, tables);
          ConservedThenKept(context, old(tables), old(stack), tables1, old(stack), tables, stack);
          AnsweredFollowed(context, tables1, tables, stack, table, strand);
        }
      }
    }

    /** The table at the top has a new answer: go on with its caller, or report the answer if it is the root. */
    method ReturnFromTable() returns (r: StepOutcome)
      requires ViewOk(Viewed(), indices) && IndexOk(tables, indices) && TablesOk(Viewed(), tables)
      requires Unwindable(Viewed(), tables, clock, stack)
      requires |met| == |stack| && MetOk(tables, Popped(stack), met[..|met| - 1])
      requires Top(stack).table < |tables| && !tables[Top(stack).table].floundered
               && tables[Top(stack).table].answers != []
      requires Top(stack).active.None?
      requires var table := tables[Top(stack).table]; Inside(Viewed(), table.goal,
               table.answers[|table.answers| - 1].subst.subst)
      modifies this`tables, this`stack, this`met
      ensures Valid() && stack == Popped(old(stack)) && SameAnswers(old(tables), tables)
      ensures AllKept(old(tables), old(stack), tables, stack)
      ensures r == if stack == [] then RootAnswerAvailable else Continue
      ensures stack != [] ==> tables == old(tables)
      ensures stack == [] ==>
                var t := Top(old(stack)).table;
                var answers := old(tables)[t].answers;
                var answer := answers[|answers| - 1];
                tables == if answer.subst.delayed == [] then old(tables)
                          else old(tables)[t := Enqueued(old(tables)[t], RefinementStrand(answer))]
    {
      RestIsOk(Viewed(), tables, clock, stack);
      hide StackOk, TablesOk, IndexOk, StrandOk, Unwindable, MetOk, AllKept;
      KeptPopped(tables, stack);
      var table := Top(stack).table;
      stack, met := Popped(stack), met[..|met| - 1];
      if stack != [] {
        r := Continue;
      } else {
        var answer := tables[table].answers[|tables[table].answers| - 1];
        if answer.subst.delayed != [] {
          RefinementOk(Viewed(), tables, table, answer);
          EnqueueStrand(table, RefinementStrand(answer));
          KeptEnqueued(old(tables), table, RefinementStrand(answer), stack);
          KeptNext(old(tables), old(stack), old(tables), stack, tables, stack);
        }
        r := RootAnswerAvailable;
      }
    }

    /** No strand of the table at the top can be pursued: it has failed, is ambiguous at best, or only meets cycles. */
    method OnNoStrandsLeft() returns (r: StepOutcome)
      requires Valid() && stack != [] && Top(stack).active.None?
      modifies this`tables, this`stack, this`met
      ensures r.Continue? || r.Fail? || r == Panic(UnselectedCycle)
      ensures r.Continue? ==> Valid() && stack != [] && RootKept(old(tables), old(stack), tables, stack)
      ensures r.Fail? ==> Valid()
      ensures r == Fail(NoMoreSolutions) ==>
                && stack == [] && |old(stack)| == 1 && tables == old(tables)
                && tables[old(stack)[0].table].strands == [] && !tables[old(stack)[0].table].floundered
      ensures r.Fail? ==> r.failure in {NoMoreSolutions, QuantumExceeded, NegativeCycle}
      ensures !r.Panic? ==> SameAnswers(old(tables), tables)
      ensures !r.Panic? && NoneEligible(old(tables), old(stack)) ==>
                EachKeeps(context, old(tables), old(stack), tables, stack)
      ensures r.Fail? && NoneEligible(old(tables), old(stack)) ==> r.failure == FailureAt(old(tables), old(stack))
      // which of the cases applies
      ensures r == Fail(NoMoreSolutions) <==> |old(stack)| == 1 && old(tables)[Top(old(stack)).table].strands == []
      ensures var t := Top(old(stack)).table; var table := old(tables)[t];
              table.strands != [] && table.mode.Complete? ==>
                r == Fail(QuantumExceeded) && stack == old(stack)
                  && tables == old(tables)[t := table.(mode := Ambiguous)]
      ensures var top := Top(old(stack)); var table := old(tables)[top.table];
              table.strands != [] && table.mode.Ambiguous? ==>
                (r.Fail? || r.Panic? <==>
                   NotBefore(top.minimums.positive, top.clock) && NotBefore(top.minimums.negative, top.clock))
      // a cycle is taken for closed exactly if none of the strands it has returned reaches below the top
      ensures var top := Top(old(stack)); var table := old(tables)[top.table];
              |old(met)| == |old(stack)| && (table.strands != [] && table.mode.Ambiguous? ==>
                (r.Fail? || r.Panic? <==> NoneBefore(old(met)[|old(met)| - 1], top.clock)))
      ensures var top := Top(old(stack)); var table := old(tables)[top.table];
              r.Panic? <==>
                && table.strands != [] && table.mode.Ambiguous?
                && NotBefore(top.minimums.positive, top.clock) && NotBefore(top.minimums.negative, top.clock)
                && UnclearableCycle(old(tables), old(stack))
    {
      hide StackOk, TablesOk, IndexOk, StrandOk, Anchored, MinimumsOk, EntryMet, NoneBefore, EachKeeps, AllKept,
        AllConserved, NoneEligible, NotBefore, Cleared, CycleRecorded, Through, Unwound, UnclearableCycle, SomeNegative;
      TopEntriesOk(Viewed(), tables, clock, stack);
      ClosedExactly(tables, stack, met);
      var table := Top(stack).table;
      if tables[table].strands == [] {
        if |stack| == 1 {
          PopOk(Viewed(), tables, clock, stack);
          MetPopped(tables, stack, met);
          stack, met := Popped(stack), met[..|met| - 1];
          KeptPopped(tables, old(stack));
          KeptInStep(context, tables, old(stack), tables, stack);
          return Fail(NoMoreSolutions);
        }
        r := OnCalleeFailed();
        if NoneEligible(old(tables), old(stack)) {
          CalleeFailedInStep(context, old(tables), old(stack), tables, stack,
                             if stack == [] then None else Top(stack).active);
        }
        return;
      }
      if tables[table].mode.Complete? {
        ModeOk(Viewed(), tables, clock, stack, table);
        MetMode(tables, table, Ambiguous, stack, met);
        IndexOkUpdate(tables, indices, table, tables[table].(mode := Ambiguous));
        KeptQueued(tables, table, tables[table].(mode := Ambiguous), stack);
        tables := tables[table := tables[table].(mode := Ambiguous)];
        KeptInStep(context, old(tables), stack, tables, stack);
        return Fail(QuantumExceeded);
      }
      var minimums := Top(stack).minimums;
      if NotBefore(minimums.positive, Top(stack).clock) && NotBefore(minimums.negative, Top(stack).clock) {
        r := OnCycleWithoutAnswers();
        if r.Fail? && NoneEligible(old(tables), old(stack)) {
          ClearedInStep(context, old(tables), old(stack), tables);
        }
      } else {
        BottomReachesNothing(stack);
        OnPartOfCycle();
        PartOfCycleKeeps(old(tables), old(stack), Top(stack));
        KeptInStep(context, old(tables), old(stack), tables, stack);
        r := Continue;
      }
    }

    /** The table at the top has no strands left, so its caller's subgoal has no further answer. */
    method OnCalleeFailed() returns (r: StepOutcome)
      requires Valid() && |stack| > 1
      modifies this`tables, this`stack, this`met
      ensures r.Continue? ==> Valid() && stack != [] && RootKept(old(tables), old(stack), tables, stack)
      ensures r.Continue? || (r == Fail(QuantumExceeded) && Valid() && stack == [])
      ensures SameAnswers(old(tables), tables)
      ensures Top(Popped(old(stack))).active.Some?
      // a positive subgoal without answers ends the caller's strand and no other; a negative one has been proved
      ensures var caller := Top(Popped(old(stack)));
              var strand := caller.active.value;
              var i := strand.selected.value.subgoalIndex;
              if strand.exClause.subgoals[i].Positive? then
                r.Fail? && tables == Unwound(old(tables), Popped(old(stack)))
              else
                && r.Continue? && tables == old(tables)
                && var e := strand.exClause.(subgoals := RemoveAt(strand.exClause.subgoals, i));
                   stack == WithTop(Popped(old(stack)),
                     caller.(active := Some(strand.(exClause := e, selected := None))))
    {
      hide StackOk, TablesOk, IndexOk, StrandOk, Unwound, EntryMet;
      CallerOk(Viewed(), tables, clock, stack);
      PopOk(Viewed(), tables, clock, stack);
      MetEntry(tables, stack, met, |stack| - 2);
      MetPopped(tables, stack, met);
      stack, met := Popped(stack), met[..|met| - 1];
      var strand := Top(stack).active.value;
      var sel := strand.selected.value;
      match strand.exClause.subgoals[sel.subgoalIndex] {
        case Positive(_) =>
          SetActiveOk(Viewed(), tables, clock, stack, None);
          stack := WithTop(stack, Top(stack).(active := None));
          CanUnwind(Viewed(), tables, clock, stack);
          UnwoundBelowTop(tables, Popped(old(stack)), Top(stack));
          UnwindStack();
          r := Fail(QuantumExceeded);
        case Negative(_) =>
          NegativeDropped(Viewed(), tables, TopGoal(), strand, sel.subgoalIndex, strand.exClause.ambiguous);
          var e := strand.exClause.(subgoals := RemoveAt(strand.exClause.subgoals, sel.subgoalIndex));
          SetActiveOk(Viewed(), tables, clock, stack, Some(strand.(exClause := e, selected := None)));
          MetActive(tables, stack, met, Some(strand.(exClause := e, selected := None)));
          stack := WithTop(stack, Top(stack).(active := Some(strand.(exClause := e, selected := None))));
          r := Continue;
      }
    }

    /** Everything at the top only depends on itself: nothing more will come of it. */
    method OnCycleWithoutAnswers() returns (r: StepOutcome)
      requires Valid() && stack != []
      modifies this`tables, this`stack, this`met
      ensures r.Fail? || r == Panic(UnselectedCycle)
      ensures r.Panic? <==> UnclearableCycle(old(tables), old(stack))
      ensures r.Fail? ==> Valid() && stack == [] && SameAnswers(old(tables), tables)
      ensures r.Fail? ==> r.failure == if Top(old(stack)).minimums.negative.Some? then NegativeCycle
              else QuantumExceeded
      // the cycle is negative exactly if one of the strands it has returned depends on itself negatively
      ensures |old(met)| == |old(stack)|
      ensures Top(old(stack)).minimums.negative.Some? <==> SomeNegative(old(met)[|old(met)| - 1])
      ensures r.Fail? ==>
                tables == Unwound(if r.failure.NegativeCycle? then old(tables)
                  else Cleared(old(tables), Top(old(stack)).table), old(stack))
    {
      hide StackOk, TablesOk, IndexOk, StrandOk, Unwound, Clearable, Reached, SelectedAreEmpty, EmptiedAreFollowed,
        StaysWithin, EntryMet, SomeNegative, NotBefore;
      ClosedExactly(tables, stack, met);
      TopEntriesOk(Viewed(), tables, clock, stack);
      CanUnwind(Viewed(), tables, clock, stack);
      if Top(stack).minimums.negative.Some? {
        UnwindStack();
        return Fail(NegativeCycle);
      }
      var table := Top(stack).table;
      TargetsOk(Viewed(), tables, table);
      EmptiedOk(Viewed(), tables, indices, clock, stack, table);
      var strands := tables[table].strands;
      tables := tables[table := tables[table].(strands := [])];
      ghost var taken := tables;
      var ok := ClearStrandsAfterCycle(strands);
      if !ok {
        return Panic(UnselectedCycle);
      }
      assert tables == Cleared(old(tables), table);
      ClearedOk(Viewed(), taken, tables, indices, clock, stack);
      CanUnwind(Viewed(), tables, clock, stack);
      UnwindStack();
      r := Fail(QuantumExceeded);
    }

    /** The table at the top depends on entries below it: hand the dependency to the caller and go on there. */
    method OnPartOfCycle()
      requires Valid() && |stack| > 1
      requires !(NotBefore(Top(stack).minimums.positive, Top(stack).clock)
               && NotBefore(Top(stack).minimums.negative, Top(stack).clock))
      modifies this`tables, this`stack, this`met
      ensures Valid() && stack != [] && RootKept(old(tables), old(stack), tables, stack)
              && SameAnswers(old(tables), tables)
      ensures var caller := old(stack)[|old(stack)| - 2];
              && caller.active.Some? && caller.table < |old(tables)|
              && Top(stack).active.None? && Top(stack).table == caller.table
              && stack == WithTop(Popped(old(stack)),
                 CycleRecorded(caller.(active := None), caller.active.value, Top(old(stack)).minimums))
              && tables == old(tables)[caller.table := Enqueued(old(tables)[caller.table], caller.active.value)]
              && var n := |old(stack)| - 2;
                 met == old(met)[..n] + [old(met)[n] + Through(caller.active.value, old(met)[n + 1])]
    {
      hide StackOk, TablesOk, IndexOk, StrandOk, Anchored, EntryMet, RanInto, LeastReach, NotBefore, MinTime, Through,
        SomeNegative;
      CallerOk(Viewed(), tables, clock, stack);
      PopOk(Viewed(), tables, clock, stack);
      var minimums := Top(stack).minimums;
      MinimumsBelow(Viewed(), tables, clock, stack);
      CallerReaches(Viewed(), tables, clock, stack, met);
      MetPopped(tables, stack, met);
      ghost var below := met[|met| - 1];
      stack, met := Popped(stack), met[..|met| - 1];
      var strand := Top(stack).active.value;
      SetActiveOk(Viewed(), tables, clock, stack, None);
      AnchoredActive(stack, minimums);
      MetActive(tables, stack, met, None);
      stack := WithTop(stack, Top(stack).(active := None));
      OnPositiveCycle(strand, minimums, Through(strand, below));
    }

    /** Pursues a strand of the table at the top. */
    method PursueStrand(next: Strand) returns (r: StepOutcome)
      requires Valid() && stack != [] && Top(stack).active.None? && StrandOk(Viewed(), tables, TopGoal(), next)
      requires next.lastPursuedTime == Top(stack).clock
      modifies this`tables, this`indices, this`stack, this`met, this`clock
      ensures r.Continue? ==> Valid() && stack != [] && RootKept(old(tables), old(stack), tables, stack)
      ensures r.Fail? ==> Valid() && r.failure == QuantumExceeded
      ensures r.Panic? ==> Tolerable(context, r.reason)
      ensures !r.Panic? ==> TablesGrow(old(tables), tables)
      ensures !r.Panic? ==> AllConserved(context, old(tables), old(stack), tables, stack)
      ensures !r.Panic? ==> Followed(context, tables, stack, Top(old(stack)).table, next)
      ensures r.RootAnswerAvailable? ==>
                && Valid() && stack == [] && |old(stack)| == 1
                && |tables[old(stack)[0].table].answers| == |old(tables)[old(stack)[0].table].answers| + 1
      ensures Hopeless(context, next) ==> r == Panic(SubgoalsLeft)
    {
      hide StackOk, TablesOk, IndexOk, StrandOk, SameWork, SetAside, StayOpen, LastFirst, LeftOver, HasNewAnswer,
        Literals, Hopeless,
        Tolerable, AnswerFor, MetOk, AllKept, AllConserved, SameTask, FollowedFrom;
      TopEntriesOk(Viewed(), tables, clock, stack);
      var strand, selected := SelectSubgoal(next);
      HopelessStays(Viewed(), tables, indices, TopGoal(), next, strand);
      WorkIsTask(next.exClause, strand.exClause);
      ghost var tables1 := tables;
      KeptGrown(old(tables), tables1, stack);
      if selected {
        r := OnSubgoalSelected(strand);
        if !r.Panic? {
          KeptIsConserved(context, tables1, old(stack), tables, stack);
        }
      } else {
        UnselectedSound(Viewed(), tables, indices, TopGoal(), strand);
        r := OnNoRemainingSubgoals(strand);
      }
      if !r.Panic? {
        KeptThenConserved(context, old(tables), old(stack), tables1, old(stack), tables, stack);
      }
    }

    /** One round of the search loop. */
    method Step() returns (r: StepOutcome)
      requires Valid() && stack != []
      modifies this`tables, this`indices, this`stack, this`met, this`clock
      ensures r.Continue? ==> Valid() && stack != [] && RootKept(old(tables), old(stack), tables, stack)
      ensures r.Fail? ==> Valid() && r.failure in {NoMoreSolutions, QuantumExceeded, NegativeCycle}
      ensures r.Panic? ==> Tolerable(context, r.reason)
      ensures !r.Panic? ==> TablesGrow(old(tables), tables) && old(stack)[0].table < |old(tables)|
      // no strand is lost without a reason
      ensures !r.Panic? ==> StepConserves(context, old(tables), old(stack), tables, stack)
      ensures r.RootAnswerAvailable? ==>
                Valid() && stack == []
                  && |tables[old(stack)[0].table].answers| == |old(tables)[old(stack)[0].table].answers| + 1
      ensures r == Fail(NoMoreSolutions) ==>
                stack == [] && Exhausted(old(tables)[old(stack)[0].table], tables[old(stack)[0].table])
      // why it fails, and that it does if there is nothing left
      ensures r.Fail? ==> r.failure == FailureAt(old(tables), old(stack))
      ensures SpentRoot(old(tables), old(stack)) ==> r == Fail(NoMoreSolutions) && tables == old(tables)
      ensures Doomed(context, old(tables), old(stack)) ==> r == Panic(SubgoalsLeft)
    {
      hide StackOk, TablesOk, IndexOk, StrandOk, HasNewAnswer, MetOk, EachKeeps, AllConserved, Took, NextIs,
        NoneEligible, Followed;
      TopEntriesOk(Viewed(), tables, clock, stack);
      var top := Top(stack);
      var next := top.active;
      if next.Some? {
        SetActiveOk(Viewed(), tables, clock, stack, None);
        MetActive(tables, stack, met, None);
        TookActive(tables, stack);
        TookNext(tables, stack, tables, WithTop(stack, top.(active := None)), next.value);
        stack := WithTop(stack, top.(active := None));
      } else {
        next := DequeueNextStrandThat(top.table, top.clock);
        if next.Some? {
          TookFirst(old(tables), stack, tables, next.value);
          TookNext(old(tables), stack, tables, stack, next.value);
        }
      }
      assert TopGoal() == old(TopGoal());
      if next.None? {
        NoneToPursue(tables, stack);
        r := OnNoStrandsLeft();
      } else {
        SomethingToPursue(old(tables), old(stack), next.value);
        PursuedAt(Viewed(), tables, TopGoal(), next.value, top.clock);
        ghost var tables1, stack1 := tables, stack;
        SameAnswersGrow(old(tables), tables1);
        r := PursueStrand(next.value.(lastPursuedTime := top.clock));
        if !r.Panic? {
          GrowTransitive(old(tables), tables1, tables);
          PursuedInStep(context, old(tables), old(stack), tables1, stack1, tables, stack, next.value);
          NextIsFollowed(context, old(tables), old(stack), tables, stack, next.value,
            next.value.(lastPursuedTime := top.clock));
        }
      }
    }

    /** From now on, keeps track of what the answers of table `t` from index `from` on refine. */
    ghost method Watch(t: nat, from: nat, finer: (Subst, Subst) -> bool)
      requires Valid() && stack == [] && t < |tables| && Refining(context, finer)
      requires tables[t].floundered || from <= |tables[t].answers|
      modifies this`cover
      ensures Valid() && cover ==
                Some(Cover(tables[t].goal, tables[t].floundered, from, Candidates(tables[t], from), finer))
    {
      var cover' := Cover(tables[t].goal, tables[t].floundered, from, Candidates(tables[t], from), finer);
      Rewatched(context, cover, cover', tables, indices, t);
      cover := Some(cover');
    }

    /** Searches for answer number `initialAnswer` of a table, for at most `maxSteps` rounds. */
    method EnsureRootAnswer(initialTable: nat, initialAnswer: nat, maxSteps: nat) returns (r: SearchResult)
      requires Valid() && stack == [] && initialTable < |tables|
      requires tables[initialTable].floundered || initialAnswer <= |tables[initialTable].answers|
      modifies this`tables, this`indices, this`stack, this`met, this`clock
      ensures !r.Panicked? ==> Valid() && TablesGrow(old(tables), tables)
      ensures r.Panicked? ==> Tolerable(context, r.reason)
      ensures r.Found? ==> stack == [] && initialTable < |tables| && initialAnswer < |tables[initialTable].answers|
      ensures r.Failed? ==>
                r.failure != InvalidAnswer && (r.failure == TableFloundered ==> old(tables)[initialTable].floundered)
      // what ends the search is what makes its last step fail, and an exhausted table says so
      ensures r.Failed? && r.failure != TableFloundered ==>
                FailedAt(context, old(tables), initialTable, old(clock), r.failure)
      ensures maxSteps > 0 && Spent(old(tables)[initialTable], initialAnswer) ==>
                r == Failed(NoMoreSolutions) && tables == old(tables)
      ensures r == Failed(NoMoreSolutions) ==>
                initialTable < |tables| && |tables[initialTable].answers| == initialAnswer
                                               && tables[initialTable].strands == [] && !tables[initialTable].floundered
                                                  && stack == []
      ensures old(tables)[initialTable].floundered ==>
                r == Failed(TableFloundered) && stack == [] && tables == old(tables)
      ensures !old(tables)[initialTable].floundered && initialAnswer < |old(tables)[initialTable].answers| ==>
                r == Found && tables == old(tables)
      ensures maxSteps > 0 && DoomedTable(context, old(clock), old(tables)[initialTable], initialAnswer) ==>
                r == Panicked(SubgoalsLeft)
      // the tables have only changed by steps that lose no strand without a reason
      ensures !r.Panicked? ==> Searched(context, old(tables), initialTable, old(clock), tables, stack)
    {
      hide StackOk, TablesOk, IndexOk, Hopeless, MetOk, Ran, StepConserves, FailureAt;
      if tables[initialTable].floundered {
        return Failed(TableFloundered);
      }
      if initialAnswer < |tables[initialTable].answers| {
        return Found;
      }
      assert |tables[initialTable].answers| == initialAnswer;
      PushOk(Viewed(), tables, clock, stack, initialTable);
      clock := clock + 1;
      MetPushed(tables, stack, met, StackEntry(initialTable, clock, Minimums(None, None), None));
      stack := stack + [StackEntry(initialTable, clock, Minimums(None, None), None)];
      met := met + [{}];
      assert stack == [StackEntry(initialTable, clock, Minimums(None, None), None)];
      ghost var start := Snapshot(tables, stack);
      RanNowhere(context, start);
      DoomedStart(context, clock, tables, stack, initialAnswer);
      for step := 0 to maxSteps
        invariant Valid() && stack != [] && TablesGrow(old(tables), tables)
        invariant stack[0].table == initialTable < |tables| && |tables[initialTable].answers| == initialAnswer
        invariant Ran(context, start, Snapshot(tables, stack))
        invariant Spent(old(tables)[initialTable], initialAnswer) ==>
                    step == 0 && tables == old(tables) && SpentRoot(tables, stack)
        invariant DoomedTable(context, old(clock), old(tables)[initialTable], initialAnswer) ==>
                    step == 0 && Doomed(context, tables, stack)
      {
        ghost var before := Snapshot(tables, stack);
        var outcome := Step();
        if !outcome.Panic? {
          GrowTransitive(old(tables), before.tables, tables);
          RanFurther(context, start, before, Snapshot(tables, stack));
        }
        match outcome {
          case Continue =>
          case RootAnswerAvailable => return Found;
          case Fail(failure) => return Failed(failure);
          case Panic(reason) => return Panicked(reason);
        }
      }
      r := OutOfSteps;
    }

    /** A root search from an empty stack; the stack is empty again whenever it returns. */
    method RootAnswerSearch(table: nat, answer: nat, maxSteps: nat) returns (r: RootResult)
      requires Valid() && stack == [] && table < |tables|
      requires tables[table].floundered || answer <= |tables[table].answers|
      modifies this`tables, this`indices, this`stack, this`met, this`clock
      ensures !r.RootPanicked? ==> Valid() && stack == [] && table < |tables|
      ensures r.RootPanicked? ==> Tolerable(context, r.reason)
      // an answer that is not ambiguous can be derived by plain resolution
      ensures r.RootAnswer? && Definite(context) && !r.ambiguous ==> Derivable(context, tables[table].goal, r.subst)
      ensures r.RootAnswer? ==> answer < |tables[table].answers|
                                && tables[table].answers[answer] == Answer(AnswerSubst(r.subst, []), r.ambiguous)
      ensures r == RootFailed(InvalidAnswer) ==>
                answer < |tables[table].answers| && tables[table].answers[answer].subst.delayed != []
      ensures r == RootFailed(NoMoreSolutions) ==>
                |tables[table].answers| == answer && tables[table].strands == [] && !tables[table].floundered
      ensures r == RootFailed(TableFloundered) ==> tables[table].floundered
      ensures r.RootFailed? ==> tables[table].floundered || answer <= |tables[table].answers|
      // what ends the search is what makes its last step fail, and an exhausted table says so
      ensures r.RootFailed? && r.failure != TableFloundered && r.failure != InvalidAnswer ==>
                FailedAt(context, old(tables), table, old(clock), r.failure)
      ensures maxSteps > 0 && Spent(old(tables)[table], answer) ==>
                r == RootFailed(NoMoreSolutions) && tables == old(tables)
      // answers are never changed, and only lost when a table flounders
      ensures !r.RootPanicked? ==> TablesGrow(old(tables), tables)
      // no strand of any table is lost without a reason
      ensures !r.RootPanicked? ==> exists tables1, stack1 ::
                Searched(context, old(tables), table, old(clock), tables1, stack1)
                  && AllKept(tables1, stack1, tables, [])
      // what has been found stays found
      ensures !old(tables)[table].floundered && answer < |old(tables)[table].answers| ==>
                tables == old(tables) && (r.RootAnswer? || r == RootFailed(InvalidAnswer))
      ensures maxSteps > 0 && DoomedTable(context, old(clock), old(tables)[table], answer) ==>
                r == RootPanicked(SubgoalsLeft)
    {
      hide StackOk, TablesOk, IndexOk, Unwound, Dropped, Tolerable, Derivable, MetOk, AllKept, Searched, FailedAt;
      var search := EnsureRootAnswer(table, answer, maxSteps);
      ghost var tables1, stack1 := tables, stack;
      KeptGrown(tables, tables, stack);
      match search {
        case Found =>
          var found := tables[table].answers[answer];
          if found.subst.delayed != [] {
            r := RootFailed(InvalidAnswer);
          } else {
            AnswerIsSound(Viewed(), tables, table, answer);
            r := RootAnswer(found.subst.subst, found.ambiguous);
          }
        case Failed(failure) =>
          Drop();
          r := RootFailed(failure);
        case Panicked(reason) =>
          r := RootPanicked(reason);
        case OutOfSteps =>
          Drop();
          r := RootOutOfSteps;
      }
    }

    lemma CoinductiveTop(depth: nat)
      requires Valid() && depth < |stack|
      requires forall i :: depth <= i < |stack| ==> tables[stack[i].table].coinductive
      ensures context.coinductive(TopGoal()) && context.coinductive(tables[stack[depth].table].goal)
    {
      assert TableOk(Viewed(), tables, tables[Top(stack).table])
             && TableOk(Viewed(), tables, tables[stack[depth].table]);
    }
  }

  lemma DescendOk(ctx: View, tables: seq<Table>, clock: nat, stack: seq<StackEntry>, strand: Strand)
    requires StackOk(ctx, tables, clock, stack) && stack != []
    requires StrandOk(ctx, tables, tables[Top(stack).table].goal, strand) && strand.selected.Some?
    requires var table := tables[strand.selected.value.subgoalTable];
             !table.floundered && |table.answers| == strand.selected.value.answerIndex
    requires forall i :: 0 <= i < |stack| ==> stack[i].table != strand.selected.value.subgoalTable
    ensures StackOk(ctx, tables, clock + 1, WithTop(stack, Top(stack).(active := Some(strand)))
                                            + [StackEntry(strand.selected.value.subgoalTable, clock + 1,
                                              Minimums(None, None), None)])
  {
    assert SelectedOk(ctx, tables, strand.exClause, strand.selected.value);
    hide StrandOk, StackOk, SelectedOk;
    SetActiveOk(ctx, tables, clock, stack, Some(strand));
    PushOk(ctx, tables, clock, WithTop(stack, Top(stack).(active := Some(strand))), strand.selected.value.subgoalTable);
  }

  lemma AnchoredActive(stack: seq<StackEntry>, m: Minimums)
    requires stack != [] && Anchored(stack, |stack| - 1, m.positive) && Anchored(stack, |stack| - 1, m.negative)
    ensures var stack' := WithTop(stack, Top(stack).(active := None));
            Anchored(stack', |stack'| - 1, m.positive) && Anchored(stack', |stack'| - 1, m.negative)
  {
    var stack' := WithTop(stack, Top(stack).(active := None));
    AnchoredSame(stack, stack', |stack| - 1, m.positive);
    AnchoredSame(stack, stack', |stack| - 1, m.negative);
  }

  /** The caller of the table at the top waits with a strand whose selected subgoal is that table. */
  lemma CallerOk(ctx: View, tables: seq<Table>, clock: nat, stack: seq<StackEntry>)
    requires StackOk(ctx, tables, clock, stack) && |stack| > 1
    ensures var caller := stack[|stack| - 2];
            && EntryOk(ctx, tables, clock, caller) && EntryOk(ctx, tables, clock, stack[0])
            && Waiting(tables, caller, Top(stack).table)
            && SelectedOk(ctx, tables, caller.active.value.exClause, caller.active.value.selected.value)
            && StrandOk(ctx, tables, tables[caller.table].goal, caller.active.value)
  {
    assert Waiting(tables, stack[|stack| - 2], stack[|stack| - 1].table);
  }

  /** The entry at the bottom of the stack is never part of a cycle reaching further down. */
  lemma BottomReachesNothing(stack: seq<StackEntry>)
    requires stack != [] && MinimumsOk(stack)
    requires !(NotBefore(Top(stack).minimums.positive, Top(stack).clock)
             && NotBefore(Top(stack).minimums.negative, Top(stack).clock))
    ensures |stack| > 1
  {
    assert Anchored(stack, |stack| - 1, Top(stack).minimums.positive)
           && Anchored(stack, |stack| - 1, Top(stack).minimums.negative);
  }

  lemma ModeOk(ctx: View, tables: seq<Table>, clock: nat, stack: seq<StackEntry>, t: nat)
    requires TablesOk(ctx, tables) && StackOk(ctx, tables, clock, stack) && t < |tables|
    ensures var tables' := tables[t := tables[t].(mode := Ambiguous)];
            TablesOk(ctx, tables') && StackOk(ctx, tables', clock, stack)
  {
    hide StackOk, StrandOk, AnswersOk;
    assert TableOk(ctx, tables, tables[t]);
    UpdateStrandsOk(ctx, tables, clock, stack, t, tables[t].strands, Ambiguous);
  }

  lemma TargetsOk(ctx: View, tables: seq<Table>, t: nat)
    requires TablesOk(ctx, tables) && t < |tables|
    ensures AllTargetsIn(tables[t := tables[t].(strands := [])]) && TargetsIn(|tables|, tables[t].strands)
  {
    forall i | 0 <= i < |tables|
      ensures TargetsIn(|tables|, tables[i].strands)
    {
      assert TableOk(ctx, tables, tables[i]);
      forall k | 0 <= k < |tables[i].strands| && tables[i].strands[k].selected.Some?
        ensures tables[i].strands[k].selected.value.subgoalTable < |tables|
      {
        assert StrandOk(ctx, tables, tables[i].goal, tables[i].strands[k]);
      }
    }
  }

  lemma EmptiedOk(ctx: View, tables: seq<Table>, indices: map<TableGoal, nat>, clock: nat, stack: seq<StackEntry>,
                  t: nat)
    requires IndexOk(tables, indices) && TablesOk(ctx, tables) && StackOk(ctx, tables, clock, stack) && t < |tables|
    ensures var tables' := tables[t := tables[t].(strands := [])];
            IndexOk(tables', indices) && TablesOk(ctx, tables') && StackOk(ctx, tables', clock, stack)
  {
    hide StackOk, StrandOk, AnswersOk;
    UpdateStrandsOk(ctx, tables, clock, stack, t, [], tables[t].mode);
  }

  /**
    The table at the top only depends on itself and positively so, but some strand that it leads to has no selected
    subgoal.
   */
  ghost predicate UnclearableCycle(tables: seq<Table>, stack: seq<StackEntry>) {
    && stack != [] && Top(stack).table < |tables|
    && Top(stack).minimums.negative.None?
    && !Clearable(Taken(tables, Top(stack).table), tables[Top(stack).table].strands)
  }

  /** The tables after the cycle through table `t` has been given up. */
  ghost function Cleared(tables: seq<Table>, t: nat): seq<Table>
    requires t < |tables|
  {
    var taken := tables[t := tables[t].(strands := [])];
    seq(|tables|, i requires 0 <= i < |tables| =>
      if i == t || Reached(taken, tables[t].strands, i) then tables[i].(strands := []) else tables[i])
  }

  /** Emptying queues disturbs nothing. */
  lemma ClearedOk(ctx: View, tables: seq<Table>, tables': seq<Table>, indices: map<TableGoal, nat>, clock: nat,
                  stack: seq<StackEntry>)
    requires IndexOk(tables, indices) && TablesOk(ctx, tables) && StackOk(ctx, tables, clock, stack)
             && OnlyEmptied(tables, tables')
    ensures IndexOk(tables', indices) && TablesOk(ctx, tables') && StackOk(ctx, tables', clock, stack)
  {
    hide StackOk, StrandOk, AnswerSound, Indexed, Definite;
    assert SameAnswers(tables, tables');
    StackOkSame(ctx, tables, tables', clock, stack);
    SameAnswersGrow(tables, tables');
    forall i | 0 <= i < |tables'|
      ensures TableOk(ctx, tables', tables'[i])
    {
      assert TableOk(ctx, tables, tables'[i]);
      TableOkGrows(ctx, tables, tables', tables'[i]);
    }
  }

  lemma PursuedAt(ctx: View, tables: seq<Table>, g: TableGoal, strand: Strand, clock: nat)
    requires StrandOk(ctx, tables, g, strand)
    ensures StrandOk(ctx, tables, g, strand.(lastPursuedTime := clock))
  {
  }

  /**
    The substitutions of the answers of a table from an index on, and of its strands: all that can become an answer.
   */
  ghost function Candidates(table: Table, from: nat): set<Subst> {
    (set k | from <= k < |table.answers| :: table.answers[k].subst.subst)
    + (set k | 0 <= k < |table.strands| :: table.strands[k].exClause.subst)
  }

  lemma Rewatched(ops: Context, cover: Option<Cover>, cover': Cover, tables: seq<Table>, indices: map<TableGoal, nat>,
                  t: nat)
    requires IndexOk(tables, indices) && TablesOk(View(ops, cover), tables) && t < |tables|
             && Refining(ops, cover'.finer)
    requires tables[t].floundered || cover'.from <= |tables[t].answers|
    requires cover'.goal == tables[t].goal && cover'.floundered == tables[t].floundered
             && cover'.base == Candidates(tables[t], cover'.from)
    ensures ViewOk(View(ops, Some(cover')), indices) && TablesOk(View(ops, Some(cover')), tables)
  {
    hide Definite, ExClauseSound, AnswerSound, Indexed, Refining;
    var v, v' := View(ops, cover), View(ops, Some(cover'));
    assert forall s :: cover'.finer(s, s) by { FinerReflexive(ops, cover'.finer); }
    forall i | 0 <= i < |tables|
      ensures TableOk(v', tables, tables[i])
    {
      assert TableOk(v, tables, tables[i]);
      forall k | 0 <= k < |tables[i].strands|
        ensures StrandOk(v', tables, tables[i].goal, tables[i].strands[k])
      {
        assert StrandOk(v, tables, tables[i].goal, tables[i].strands[k]);
        if tables[i].goal == cover'.goal {
          assert tables[i].strands[k].exClause.subst in cover'.base;
        }
      }
      if tables[i].goal == cover'.goal {
        forall k | cover'.from <= k < |tables[i].answers|
          ensures Inside(v', tables[i].goal, tables[i].answers[k].subst.subst)
        {
          assert tables[i].answers[k].subst.subst in cover'.base;
        }
      }
    }
  }

  lemma FinerReflexive(ops: Context, finer: (Subst, Subst) -> bool)
    requires Refining(ops, finer)
    ensures forall s :: finer(s, s)
  {
  }

  /** All the strand has left are negative literals whose goals flounder. */
  ghost predicate Hopeless(ctx: Context, strand: Strand) {
    && strand.selected.None?
    && !strand.exClause.ambiguous
    && strand.exClause.floundered == []
    && strand.exClause.subgoals != []
    && forall l :: l in strand.exClause.subgoals ==>
         l.Negative? && ctx.tableFor(l).Some? && ctx.clauses(ctx.tableFor(l).value).None?
  }

  /** The table at the top can only pursue hopeless strands. */
  ghost predicate Doomed(ctx: Context, tables: seq<Table>, stack: seq<StackEntry>) {
    && stack != [] && Top(stack).active.None? && Top(stack).table < |tables|
    && var table := tables[Top(stack).table];
       && (exists k :: 0 <= k < |table.strands| && Eligible(table.strands[k], Top(stack).clock, table.mode))
       && (forall k :: 0 <= k < |table.strands| ==> Hopeless(ctx, table.strands[k]))
  }

  lemma FlounderedAreLiterals(e: ExClause)
    ensures forall f :: f in e.floundered ==> f.literal in Literals(e)
  {
    forall k | 0 <= k < |e.floundered|
      ensures e.floundered[k].literal in Literals(e)
    {
      assert Literals(e)[|e.subgoals| + k] == e.floundered[k].literal;
    }
  }

  /** A search for the next answer of the table has nothing but hopeless strands to pursue. */
  ghost predicate DoomedTable(ctx: Context, clock: nat, table: Table, answer: nat) {
    && !table.floundered && |table.answers| == answer
    && (exists k :: 0 <= k < |table.strands| && table.strands[k].lastPursuedTime <= clock)
    && (forall k :: 0 <= k < |table.strands| ==> Hopeless(ctx, table.strands[k]))
  }

  lemma DoomedStart(ctx: Context, clock: nat, tables: seq<Table>, stack: seq<StackEntry>, answer: nat)
    requires stack != [] && clock > 0 && Top(stack).clock == clock && Top(stack).active.None?
             && Top(stack).table < |tables|
    ensures DoomedTable(ctx, clock - 1, tables[Top(stack).table], answer) ==> Doomed(ctx, tables, stack)
  {
    var table := tables[Top(stack).table];
    if DoomedTable(ctx, clock - 1, table, answer) {
      var k :| 0 <= k < |table.strands| && table.strands[k].lastPursuedTime <= clock - 1;
      assert Hopeless(ctx, table.strands[k]);
      assert Eligible(table.strands[k], clock, table.mode);
    }
  }

  /** A hopeless strand has no subgoal that could be selected, and none that is set aside. */
  lemma HopelessStays(ctx: View, tables: seq<Table>, indices: map<TableGoal, nat>, g: TableGoal, initial: Strand,
                      strand: Strand)
    requires TablesOk(ctx, tables) && StrandOk(ctx, tables, g, strand)
    requires SameWork(initial.exClause, strand.exClause)
    requires SetAside(ctx.ops, tables, indices, initial.exClause, strand.exClause)
    ensures Hopeless(ctx.ops, initial) ==>
              && strand.exClause.subgoals != []
              && !initial.exClause.ambiguous
              && (strand.selected.Some? ==> tables[strand.selected.value.subgoalTable].floundered)
  {
    hide Definite, AnswersOk, AnswersInside, Inside, ExClauseSound;
    if Hopeless(ctx.ops, initial) {
      forall l | l in Literals(strand.exClause)
        ensures l in initial.exClause.subgoals
      {
        assert Literals(initial.exClause) == initial.exClause.subgoals;
        assert l in multiset(Literals(strand.exClause));
        assert l in multiset(Literals(initial.exClause));
      }
      FlounderedAreLiterals(strand.exClause);
      assert forall f :: f in strand.exClause.floundered ==> multiset(strand.exClause.floundered)[f] > 0;
      assert forall f :: f !in strand.exClause.floundered;
      assert strand.exClause.floundered == [];
      assert |multiset(Literals(strand.exClause))| == |multiset(Literals(initial.exClause))|;
      if strand.selected.Some? {
        var sel := strand.selected.value;
        assert strand.exClause.subgoals[sel.subgoalIndex] in Literals(strand.exClause);
        assert TableOk(ctx, tables, tables[sel.subgoalTable]);
      }
    }
  }

  /** Definite programs have no negative literals. */
  lemma UnselectedSound(ctx: View, tables: seq<Table>, indices: map<TableGoal, nat>, g: TableGoal, strand: Strand)
    requires StrandOk(ctx, tables, g, strand)
    ensures LeftOver(ctx.ops, tables, indices, strand.exClause) ==> !Definite(ctx.ops)
  {
    if LeftOver(ctx.ops, tables, indices, strand.exClause) {
      assert strand.exClause.subgoals[|strand.exClause.subgoals| - 1] in Literals(strand.exClause);
    }
  }

  function AnswerFor(ctx: Context, goal: TableGoal, e: ExClause): Answer {
    Answer(AnswerSubst(e.subst, FilterDelayed(ctx, goal, e.delayed)), e.ambiguous)
  }

  /** The assertion that fails when the strand is taken for an answer of the table, if one does. */
  function PublishPanic(ctx: Context, table: Table, e: ExClause): Option<PanicReason> {
    var subst := AnswerFor(ctx, table.goal, e).subst;
    if e.subgoals != [] then Some(SubgoalsLeft)
    else if !ctx.tooLarge(e.subst) && subst in table.answersHash && table.answersHash[subst] && !e.ambiguous
      then Some(AnswerUpgraded)
    else None
  }

  /** The table with a new answer; an unconditional, trivial answer makes all other strands superfluous. */
  function Published(ctx: Context, table: Table, answer: Answer): Table {
    var trivial := ctx.identity(table.goal, answer.subst.subst) && ctx.unconstrained(answer.subst.subst);
    table.(answers := table.answers + [answer],
           answersHash := table.answersHash[answer.subst := answer.ambiguous],
           strands := if !answer.ambiguous && trivial then [] else table.strands)
  }

  /** Publishing an answer gives the table's strands up only if the answer is trivial. */
  lemma PublishedKeeps(ctx: Context, table: Table, answer: Answer)
    ensures var table' := Published(ctx, table, answer);
            if TrivialAnswer(ctx, table, table') then table'.strands == [] else table'.strands == table.strands
    ensures Published(ctx, table, answer).goal == table.goal
    ensures Published(ctx, table, answer).answersHash == table.answersHash[answer.subst := answer.ambiguous]
  {
  }

  lemma TopEntriesOk(ctx: View, tables: seq<Table>, clock: nat, stack: seq<StackEntry>)
    requires StackOk(ctx, tables, clock, stack) && stack != []
    ensures EntryOk(ctx, tables, clock, Top(stack)) && EntryOk(ctx, tables, clock, stack[0])
    ensures MinimumsOk(stack)
  {
  }

  lemma InOrder(ctx: View, tables: seq<Table>, clock: nat, stack: seq<StackEntry>)
    requires StackOk(ctx, tables, clock, stack)
    ensures Ordered(stack)
  {
  }

  lemma SelectionOk(ctx: View, tables: seq<Table>, g: TableGoal, strand: Strand)
    requires StrandOk(ctx, tables, g, strand) && strand.selected.Some?
    ensures SelectedOk(ctx, tables, strand.exClause, strand.selected.value)
  {
  }

  lemma StrandInside(ctx: View, tables: seq<Table>, g: TableGoal, strand: Strand)
    requires StrandOk(ctx, tables, g, strand)
    ensures Inside(ctx, g, strand.exClause.subst)
  {
  }

  lemma TableIsOk(ctx: View, tables: seq<Table>, t: nat)
    requires TablesOk(ctx, tables) && t < |tables|
    ensures TableOk(ctx, tables, tables[t])
  {
  }

  lemma AnswerIsSound(ctx: View, tables: seq<Table>, t: nat, k: nat)
    requires TablesOk(ctx, tables) && t < |tables| && k < |tables[t].answers|
    ensures Definite(ctx.ops) ==> AnswerSound(ctx.ops, tables[t].goal, tables[t].answers[k])
    ensures var answer := tables[t].answers[k];
            Definite(ctx.ops) && answer.subst.delayed == [] && !answer.ambiguous ==>
              Derivable(ctx.ops, tables[t].goal, answer.subst.subst)
  {
    hide Derives;
    TableIsOk(ctx, tables, t);
  }

  lemma DelayedOk(ctx: View, tables: seq<Table>, g: TableGoal, strand: Strand)
    requires StrandOk(ctx, tables, g, strand) && strand.selected.Some? && SelectedLiteral(strand).Positive?
    requires ctx.ops.coinductive(tables[strand.selected.value.subgoalTable].goal)
    ensures StrandOk(ctx, tables, g, Delayed(strand)) && Delayed(strand).lastPursuedTime == strand.lastPursuedTime
  {
    hide Derives, Inside, Definite, Assumable;
    SelectionOk(ctx, tables, g, strand);
    if Definite(ctx.ops) {
      var e, i := strand.exClause, strand.selected.value.subgoalIndex;
      var l := e.subgoals[i];
      assert Positive(l.atom) == l;
      AssumableTable(ctx.ops, l.atom);
      DelayedSound(ctx.ops, g, e, i);
    }
  }

  lemma AssumableTable(ctx: Context, a: Atom)
    requires Coinductive(ctx, a)
    ensures Assumable(ctx, a)
  {
  }

  /** Delaying a subgoal leaves the open goals what they are. */
  lemma DelayedSound(ctx: Context, g: TableGoal, e: ExClause, i: nat)
    requires ExClauseSound(ctx, g, e) && i < |e.subgoals| && Assumable(ctx, e.subgoals[i].atom)
    ensures ExClauseSound(ctx, g, e.(subgoals := RemoveAt(e.subgoals, i), delayed := e.delayed + [e.subgoals[i].atom]))
  {
    hide Derives, Assumable;
    var e' := e.(subgoals := RemoveAt(e.subgoals, i), delayed := e.delayed + [e.subgoals[i].atom]);
    assert Literals(e') == RemoveAt(Literals(e), i);
    forall k | 0 <= k < |Literals(e')|
      ensures Literals(e')[k].Positive?
    {
      assert Literals(e')[k] in Literals(e);
    }
    MapRemoveAt(AtomOf, Literals(e), i);
    assert multiset(OpenAtoms(e')) == multiset(OpenAtoms(e));
    if !e.ambiguous {
      DerivesPermutation(ctx, g, e.subst, OpenAtoms(e), OpenAtoms(e'));
    }
  }

  lemma NegativeAnchored(stack: seq<StackEntry>, m: Minimums)
    requires stack != [] && Anchored(stack, |stack| - 1, m.positive) && Anchored(stack, |stack| - 1, m.negative)
    ensures Anchored(stack, |stack| - 1, Some(Top(stack).clock)) && Anchored(stack, |stack| - 1, MinimumOfPosAndNeg(m))
  {
  }

  lemma MinimumsBelow(ctx: View, tables: seq<Table>, clock: nat, stack: seq<StackEntry>)
    requires StackOk(ctx, tables, clock, stack) && |stack| > 1
    ensures var m := Top(stack).minimums;
            Anchored(Popped(stack), |stack| - 2, m.positive) && Anchored(Popped(stack), |stack| - 2, m.negative)
  {
    AnchoredBelow(stack, Top(stack).minimums.positive);
    AnchoredBelow(stack, Top(stack).minimums.negative);
  }

  lemma PublishedOk(ctx: View, tables: seq<Table>, table: Table, answer: Answer)
    requires TableOk(ctx, tables, table) && !table.floundered && answer.subst !in table.answersHash
    requires table.mode.Complete? ==> !answer.ambiguous
    requires Definite(ctx.ops) ==> AnswerSound(ctx.ops, table.goal, answer)
    requires Inside(ctx, table.goal, answer.subst.subst)
    ensures TableOk(ctx, tables, Published(ctx.ops, table, answer)) && Grows(table, Published(ctx.ops, table, answer))
  {
    hide TableOk, AnswerSound, Definite, Inside;
    PublishOk(ctx, tables, table, answer, Published(ctx.ops, table, answer).strands);
  }

  /** Whatever happens to the table at the top, the entries below are not concerned. */
  lemma MetBelow(ctx: View, tables: seq<Table>, clock: nat, stack: seq<StackEntry>, met: seq<set<Met>>, table: Table)
    requires StackOk(ctx, tables, clock, stack) && MetOk(tables, stack, met) && stack != []
             && Top(stack).table < |tables|
    ensures MetOk(tables[Top(stack).table := table], Popped(stack), met[..|met| - 1])
  {
    hide EntriesOk, MinimumsOk, CallersWait, EntryMet;
    MetPopped(tables, stack, met);
    MetElsewhere(tables, Top(stack).table, table, Popped(stack), met[..|met| - 1]);
  }

  lemma RestIsOk(ctx: View, tables: seq<Table>, clock: nat, stack: seq<StackEntry>)
    requires Unwindable(ctx, tables, clock, stack)
    ensures StackOk(ctx, tables, clock, Popped(stack))
  {
  }

  /** Publishing an answer at the top is what the entry below waits for. */
  lemma CallerResumes(ctx: View, tables: seq<Table>, clock: nat, stack: seq<StackEntry>, answer: Answer,
                      tables': seq<Table>)
    requires StackOk(ctx, tables, clock, stack) && stack != [] && Top(stack).table < |tables|
    requires SameAnswers(tables[Top(stack).table := Published(ctx.ops, tables[Top(stack).table], answer)], tables')
    ensures |tables'[Top(stack).table].answers| == |tables[Top(stack).table].answers| + 1
    ensures |stack| > 1 ==> HasNewAnswer(tables, tables', Top(Popped(stack)), Top(stack).table)
    ensures |stack| > 1 ==> RootKept(tables, stack, tables', Popped(stack))
  {
    if |stack| > 1 {
      CallerOk(ctx, tables, clock, stack);
      hide StrandOk, SelectedOk;
    }
  }

  lemma PublishedAnswer(ctx: Context, table: Table, answer: Answer)
    ensures Published(ctx, table, answer).goal == table.goal
    ensures Published(ctx, table, answer).answers == table.answers + [answer]
    ensures Published(ctx, table, answer).floundered == table.floundered
  {
  }

  /** The strand that proves the delayed subgoals of a root answer. */
  function RefinementStrand(answer: Answer): Strand {
    Strand(ExClause(answer.subst.subst, answer.ambiguous, Positives(answer.subst.delayed), [], 0, []), None, 0)
  }

  lemma RefinementOk(ctx: View, tables: seq<Table>, t: nat, answer: Answer)
    requires TablesOk(ctx, tables) && t < |tables| && answer in tables[t].answers && answer.subst.delayed != []
    requires Inside(ctx, tables[t].goal, answer.subst.subst)
    ensures StrandOk(ctx, tables, tables[t].goal, RefinementStrand(answer))
  {
    hide Derives, Inside;
    assert TableOk(ctx, tables, tables[t]);
    if Definite(ctx.ops) {
      assert AnswerSound(ctx.ops, tables[t].goal, answer);
      var e := RefinementStrand(answer).exClause;
      assert Literals(e) == Positives(answer.subst.delayed);
      assert OpenAtoms(e) == answer.subst.delayed;
    }
  }

  /** The caller's strand asks for an answer of `callee` that was not there before and is there now. */
  ghost predicate HasNewAnswer(before: seq<Table>, after: seq<Table>, caller: StackEntry, callee: nat) {
    && callee < |before| && callee < |after|
    && caller.active.Some? && caller.active.value.selected.Some?
    && caller.active.value.selected.value.subgoalTable == callee
    && |before[callee].answers| == caller.active.value.selected.value.answerIndex < |after[callee].answers|
  }

  /** The table has no new answers and nothing left to try. */
  ghost predicate Exhausted(before: Table, after: Table) {
    after.answers == before.answers && after.strands == [] && !after.floundered
  }

  /** The root search is still the same, and its table has no new answers yet. */
  ghost predicate RootKept(tables: seq<Table>, stack: seq<StackEntry>, tables': seq<Table>, stack': seq<StackEntry>) {
    && stack != [] && stack' != []
    && stack[0].table == stack'[0].table < |tables| <= |tables'|
    && tables[stack[0].table].answers == tables'[stack[0].table].answers
  }

  lemma FlounderedTableOk(ctx: View, tables: seq<Table>, table: Table, s: Subst)
    requires TableOk(ctx, tables, table) && Inside(ctx, table.goal, s)
    ensures TableOk(ctx, tables, table.(floundered := true, strands := [], answers := []))
    ensures Grows(table, table.(floundered := true, strands := [], answers := []))
  {
  }

  /** A strand with nothing left to prove is a derivation of its answer. */
  lemma FinishedStrandSound(ctx: View, tables: seq<Table>, g: TableGoal, strand: Strand)
    requires StrandOk(ctx, tables, g, strand) && strand.exClause.subgoals == []
    requires strand.exClause.floundered != [] ==> strand.exClause.ambiguous
    ensures Definite(ctx.ops) ==> AnswerSound(ctx.ops, g, AnswerFor(ctx.ops, g, strand.exClause))
  {
    hide Derives;
    if Definite(ctx.ops) {
      var e := strand.exClause;
      var filtered := FilterDelayed(ctx.ops, g, e.delayed);
      forall a | a in filtered
        ensures Assumable(ctx.ops, a)
      {
        FilteredExactly(ctx.ops, g, e.delayed, a);
        assert a in multiset(filtered);
        assert a in multiset(e.delayed);
      }
      if !e.ambiguous {
        assert OpenAtoms(e) == [] + e.delayed;
        CloseAll(ctx.ops, g, e.subst, [], e.delayed);
        assert [] + filtered == filtered;
      }
    }
  }

  /** The strand with its selected subgoal moved to the delayed ones. */
  function Delayed(strand: Strand): Strand
    requires strand.selected.Some? && strand.selected.value.subgoalIndex < |strand.exClause.subgoals|
  {
    var e, i := strand.exClause, strand.selected.value.subgoalIndex;
    strand.(exClause := e.(subgoals := RemoveAt(e.subgoals, i), delayed := e.delayed + [e.subgoals[i].atom]),
      selected := None)
  }

  /** What happens when the selected subgoal's table is already on the stack, at depth `d`. */
  ghost predicate OnCycle(tables: seq<Table>, stack: seq<StackEntry>, met: seq<set<Met>>, strand: Strand, d: nat,
                          r: StepOutcome, tables': seq<Table>, stack': seq<StackEntry>, met': seq<set<Met>>)
    requires d < |stack| && |met| == |stack| && strand.selected.Some?
             && strand.selected.value.subgoalIndex < |strand.exClause.subgoals|
    requires forall i :: 0 <= i < |stack| ==> stack[i].table < |tables|
  {
    if forall i :: d <= i < |stack| ==> tables[stack[i].table].coinductive then
      if strand.exClause.subgoals[strand.selected.value.subgoalIndex].Positive? then
        && r.Continue? && tables' == tables && stack' == WithTop(stack, Top(stack).(active := Some(Delayed(strand))))
        && met' == met
      else
        r.Panic?
    else
      && r.Continue?
      && tables' == tables[Top(stack).table := Enqueued(tables[Top(stack).table], strand)]
      && stack' == WithTop(stack, CycleRecorded(Top(stack), strand, Minimums(Some(stack[d].clock), None)))
      && met' == met[|met| - 1 := met[|met| - 1] + Direct(strand, stack[d].clock)]
  }

  /** A table is on the stack at most once. */
  lemma OnlyOnce(ctx: View, tables: seq<Table>, clock: nat, stack: seq<StackEntry>, d: nat)
    requires StackOk(ctx, tables, clock, stack) && d < |stack|
    ensures forall i :: 0 <= i < |stack| ==> stack[i].table < |tables|
    ensures forall i :: 0 <= i < |stack| && stack[i].table == stack[d].table ==> i == d
  {
    hide StrandOk, MinimumsOk, CallersWait;
    forall i | 0 <= i < |stack| && i != d
      ensures stack[i].table != stack[d].table
    {
    }
  }

  /** Selecting a table that is on the stack at depth `d` is a cycle reaching down to its clock. */
  lemma CycleReaches(ctx: View, tables: seq<Table>, clock: nat, stack: seq<StackEntry>, strand: Strand, d: nat)
    requires StackOk(ctx, tables, clock, stack) && d < |stack| && strand.selected.Some?
    requires stack[d].table == strand.selected.value.subgoalTable && strand.lastPursuedTime == Top(stack).clock
    ensures RanInto(stack, strand, Direct(strand, stack[d].clock))
    ensures LeastReach(MinimumOfPosAndNeg(Minimums(Some(stack[d].clock), None)), Direct(strand, stack[d].clock))
    ensures !NotBefore(MinimumOfPosAndNeg(Minimums(Some(stack[d].clock), None)), Top(stack).clock + 1)
    ensures !SelectsNegative(strand) ==> !SomeNegative(Direct(strand, stack[d].clock))
  {
    hide EntriesOk, MinimumsOk, CallersWait;
    DirectReach(strand, stack[d].clock);
  }

  /** What the table at the top depends on, its caller's strand depends on. */
  lemma CallerReaches(ctx: View, tables: seq<Table>, clock: nat, stack: seq<StackEntry>, met: seq<set<Met>>)
    requires StackOk(ctx, tables, clock, stack) && |stack| > 1 && MetOk(tables, stack, met)
    requires !(NotBefore(Top(stack).minimums.positive, Top(stack).clock)
             && NotBefore(Top(stack).minimums.negative, Top(stack).clock))
    ensures var caller := stack[|stack| - 2];
            && caller.active.Some?
            && var strand, m := caller.active.value, MinimumOfPosAndNeg(Top(stack).minimums);
               && RanInto(WithTop(Popped(stack), caller.(active := None)), strand, Through(strand, met[|met| - 1]))
               && LeastReach(m, Through(strand, met[|met| - 1]))
               && !NotBefore(m, caller.clock + 1)
               && (!SelectsNegative(strand) ==>
                     (Top(stack).minimums.negative.Some? <==> SomeNegative(Through(strand, met[|met| - 1]))))
  {
    hide StackOk, NotBefore, MinTime, LeastReach, SomeNegative, Through, EntryMet;
    var n := |stack| - 1;
    var strand := CallerStrand(ctx, tables, clock, stack);
    MetEntry(tables, stack, met, n - 1);
    EntryReach(tables, stack, met, n);
    ThroughReach(MinimumOfPosAndNeg(stack[n].minimums), strand, met[n]);
    RanThrough(WithTop(Popped(stack), stack[n - 1].(active := None)), strand, met[n]);
    ReachesBelow(ctx, tables, clock, stack);
  }

  lemma CallerStrand(ctx: View, tables: seq<Table>, clock: nat, stack: seq<StackEntry>) returns (strand: Strand)
    requires StackOk(ctx, tables, clock, stack) && |stack| > 1
    ensures stack[|stack| - 2].active == Some(strand) && strand.selected.Some?
  {
    assert Waiting(tables, stack[|stack| - 2], stack[|stack| - 1].table);
    strand := stack[|stack| - 2].active.value;
  }

  /** A minimum below the clock of the top entry is at most the clock of the entry beneath. */
  lemma ReachesBelow(ctx: View, tables: seq<Table>, clock: nat, stack: seq<StackEntry>)
    requires StackOk(ctx, tables, clock, stack) && |stack| > 1
    requires !(NotBefore(Top(stack).minimums.positive, Top(stack).clock)
             && NotBefore(Top(stack).minimums.negative, Top(stack).clock))
    ensures !NotBefore(MinimumOfPosAndNeg(Top(stack).minimums), stack[|stack| - 2].clock + 1)
  {
    hide EntriesOk, CallersWait, MinTime;
    var n := |stack| - 1;
    MinTimeExactly(Top(stack).minimums.positive, Top(stack).minimums.negative, stack[n - 1].clock + 1);
    assert Anchored(stack, n, stack[n].minimums.positive) && Anchored(stack, n, stack[n].minimums.negative);
  }

  lemma ClockIsAnchored(stack: seq<StackEntry>, depth: nat)
    requires depth < |stack|
    ensures Anchored(stack, |stack| - 1, Some(stack[depth].clock)) && Anchored(stack, |stack| - 1, None)
  {
  }

  lemma AlternativeOk(ctx: View, tables: seq<Table>, g: TableGoal, strand: Strand)
    requires StrandOk(ctx, tables, g, strand) && strand.selected.Some?
    requires strand.selected.value.answerIndex < |tables[strand.selected.value.subgoalTable].answers|
    ensures StrandOk(ctx, tables, g, NextAlternative(strand))
  {
  }

  ghost predicate HasAnswer(tables: seq<Table>, strand: Strand) {
    && strand.selected.Some? && strand.selected.value.subgoalTable < |tables|
    && strand.selected.value.answerIndex < |tables[strand.selected.value.subgoalTable].answers|
  }

  /** The available answer to the strand's selected subgoal. */
  ghost function AnswerOf(tables: seq<Table>, strand: Strand): Answer
    requires HasAnswer(tables, strand)
  {
    tables[strand.selected.value.subgoalTable].answers[strand.selected.value.answerIndex]
  }

  ghost function SelectedLiteral(strand: Strand): Literal
    requires strand.selected.Some? && strand.selected.value.subgoalIndex < |strand.exClause.subgoals|
  {
    strand.exClause.subgoals[strand.selected.value.subgoalIndex]
  }

  /** What merging an answer does, case by case. */
  ghost predicate MergeSpec(ctx: Context, tables: seq<Table>, stack: seq<StackEntry>, strand: Strand, answer: Answer,
                            r: MergeOutcome, tables': seq<Table>)
    requires stack != [] && Top(stack).table < |tables| && strand.selected.Some?
    requires strand.selected.value.subgoalIndex < |strand.exClause.subgoals|
             && strand.selected.value.subgoalTable < |tables|
  {
    var e, i, h := strand.exClause, strand.selected.value.subgoalIndex, tables[strand.selected.value.subgoalTable].goal;
    var top := tables[Top(stack).table];
    if top.mode.Complete? && answer.ambiguous then
      r == Merged(strand.(exClause := FlounderSubgoal(e, i), selected := None)) && tables' == tables
    else
      var queued := if e.subgoals[i].Positive? && !ctx.identity(h, answer.subst.subst)
                    then tables[Top(stack).table := top.(strands := top.strands + [NextAlternative(strand)])]
                      else tables;
      match e.subgoals[i]
      case Positive(atom) =>
        (match ctx.resolve(atom, h, answer.subst)
         case Some(res) => r == Merged(strand.(exClause := MergedExClause(e, i, res, answer), selected := None))
           && tables' == queued
         case None => r == MergeFailed && tables' == Unwound(queued, stack))
      case Negative(_) =>
        if answer.subst.delayed != [] then r == MergePanic(NegativeDelayed)
        else if !answer.ambiguous then r == MergeFailed && tables' == Unwound(queued, stack)
        else r == Merged(strand.(exClause := e.(subgoals := RemoveAt(e.subgoals, i), ambiguous := true),
          selected := None)) && tables' == queued
  }

  /** The state is reached by a search that starts from table `t`, or from no search at all. */
  ghost predicate Searched(ctx: Context, tables: seq<Table>, t: nat, clock: nat, tables': seq<Table>,
                           stack': seq<StackEntry>) {
    || (tables' == tables && stack' == [])
    || Ran(ctx, Snapshot(tables, [StackEntry(t, clock + 1, Minimums(None, None), None)]), Snapshot(tables', stack'))
  }

  /** What a table has lost over a whole search, it has lost at some step and for one of the reasons. */
  lemma LostInSearch(ctx: Context, tables: seq<Table>, root: nat, clock: nat, tables1: seq<Table>,
                     stack1: seq<StackEntry>,
                     tables2: seq<Table>, t: nat, x: Strand)
    requires Searched(ctx, tables, root, clock, tables1, stack1) && AllKept(tables1, stack1, tables2, [])
    requires t < |tables| && t < |tables2| && multiset(tables2[t].strands)[x] < multiset(tables[t].strands)[x]
    ensures exists h: seq<Snapshot>, i ::
              Run(ctx, h) && h[0].tables == tables && 0 <= i < |h| - 1 && Accounted(ctx, h[i], h[i + 1], t, x)
  {
    hide StepConserves, Accounted;
    var first := Snapshot(tables, [StackEntry(root, clock + 1, Minimums(None, None), None)]);
    assert Held(tables2, [], t) == multiset(tables2[t].strands);
    assert Held(tables, first.stack, t) == multiset(tables[t].strands);
    assert t < |tables1| ==> Kept(tables1, stack1, tables2, [], t);
    if tables1 != tables || stack1 != [] {
      var h :| RunFrom(ctx, first, Snapshot(tables1, stack1), h);
      RunGrows(ctx, h, t);
      LostInRun(ctx, h, t, x);
    }
  }

  lemma TookFirst(tables: seq<Table>, stack: seq<StackEntry>, tables': seq<Table>, strand: Strand)
    requires stack != [] && Top(stack).table < |tables| && Top(stack).active.None?
    requires exists k :: 0 <= k < |tables[Top(stack).table].strands|
                         && Dequeued(tables, tables', Top(stack).table, Top(stack).clock, k, strand)
    ensures Took(tables, stack, tables', stack, strand)
  {
    var k :| 0 <= k < |tables[Top(stack).table].strands|
             && Dequeued(tables, tables', Top(stack).table, Top(stack).clock, k, strand);
    TookQueued(tables, stack, k);
  }

  lemma TookNext(tables: seq<Table>, stack: seq<StackEntry>, tables1: seq<Table>, stack1: seq<StackEntry>, x: Strand)
    requires Took(tables, stack, tables1, stack1, x)
    ensures NextIs(tables, stack, x)
  {
  }

  lemma NextIsFollowed(ctx: Context, tables: seq<Table>, stack: seq<StackEntry>, tables': seq<Table>,
                       stack': seq<StackEntry>, x: Strand, pursued: Strand)
    requires stack != [] && NextIs(tables, stack, x) && pursued.exClause == x.exClause
    requires Followed(ctx, tables', stack', Top(stack).table, pursued)
    ensures NextFollowed(ctx, tables, stack, tables', stack')
  {
    hide NextIs, FollowedFrom;
    forall y | NextIs(tables, stack, y)
      ensures Followed(ctx, tables', stack', Top(stack).table, y)
    {
      OnlyNext(tables, stack, x, y);
    }
  }

  /** What makes a step fail in a state. */
  ghost function FailureAt(tables: seq<Table>, stack: seq<StackEntry>): RootSearchFail {
    if !NoneEligible(tables, stack) then QuantumExceeded
    else
      var top, table := Top(stack), tables[Top(stack).table];
      if table.strands == [] then (if |stack| == 1 then NoMoreSolutions else QuantumExceeded)
      else if table.mode.Ambiguous? && NotBefore(top.minimums.positive, top.clock)
              && NotBefore(top.minimums.negative, top.clock) && top.minimums.negative.Some? then NegativeCycle
      else QuantumExceeded
  }

  /** All answers of the table have been found. */
  ghost predicate Spent(table: Table, answer: nat) {
    !table.floundered && |table.answers| == answer && table.strands == []
  }

  /** The root of the search has nothing left to try. */
  ghost predicate SpentRoot(tables: seq<Table>, stack: seq<StackEntry>) {
    && |stack| == 1 && Top(stack).active.None? && Top(stack).table < |tables|
    && tables[Top(stack).table].strands == []
  }

  /** A search that starts from table `t` comes to a state in which a step fails like this. */
  ghost predicate FailedAt(ctx: Context, tables: seq<Table>, t: nat, clock: nat, failure: RootSearchFail) {
    exists s :: Ran(ctx, Snapshot(tables, [StackEntry(t, clock + 1, Minimums(None, None), None)]), s)
                && FailureAt(s.tables, s.stack) == failure
  }

  lemma SomethingToPursue(tables: seq<Table>, stack: seq<StackEntry>, x: Strand)
    requires NextIs(tables, stack, x)
    ensures !NoneEligible(tables, stack) && FailureAt(tables, stack) == QuantumExceeded && !SpentRoot(tables, stack)
  {
    if NoneEligible(tables, stack) {
      NothingNext(tables, stack, x);
    }
  }

  lemma NoneToPursue(tables: seq<Table>, stack: seq<StackEntry>)
    requires stack != [] && Top(stack).table < |tables| && Top(stack).active.None?
    requires var table := tables[Top(stack).table];
             forall k :: 0 <= k < |table.strands| ==> !Eligible(table.strands[k], Top(stack).clock, table.mode)
    ensures NoneEligible(tables, stack) && forall x :: !NextIs(tables, stack, x)
  {
    hide Eligible;
  }

  lemma SameTaskReflexive(e: ExClause)
    ensures SameTask(e, e)
  {
  }

  /** Rearranging literals leaves the goals to be proved what they are. */
  lemma WorkIsTask(a: ExClause, b: ExClause)
    requires SameWork(a, b)
    ensures SameTask(a, b)
  {
    MapPermutation(AtomOf, Literals(a), Literals(b));
  }

  lemma DelayedTask(strand: Strand)
    requires strand.selected.Some? && strand.selected.value.subgoalIndex < |strand.exClause.subgoals|
    ensures SameTask(strand.exClause, Delayed(strand).exClause)
  {
    var e, e', i := strand.exClause, Delayed(strand).exClause, strand.selected.value.subgoalIndex;
    assert Literals(e') == RemoveAt(Literals(e), i);
    MapRemoveAt(AtomOf, Literals(e), i);
  }

  lemma FlounderedTask(e: ExClause, i: nat)
    requires i < |e.subgoals|
    ensures SameTask(e, FlounderSubgoal(e, i))
  {
    hide FlounderSubgoal;
    FlounderSame(e, i);
    WorkIsTask(e, FlounderSubgoal(e, i));
  }

  lemma QueuedFollowed(ctx: Context, tables: seq<Table>, stack: seq<StackEntry>, t: nat, strand: Strand)
    requires t < |tables|
    ensures FollowedFrom(ctx, tables[t := Enqueued(tables[t], strand)], stack, t, strand)
  {
    hide FollowedFrom;
    SameTaskReflexive(strand.exClause);
    HeldFollowed(ctx, tables[t := Enqueued(tables[t], strand)], stack, t, strand, strand);
  }

  /** A finished strand's answer is known to its table. */
  lemma AnswerStands(ctx: Context, table: Table, table': Table, e: ExClause)
    requires e.subgoals == [] && table'.goal == table.goal
    requires var subst := AnswerFor(ctx, table.goal, e).subst;
             subst in table'.answersHash && (table'.answersHash[subst] ==> e.ambiguous)
    ensures Answered(ctx, table', e)
  {
    hide FilterDelayed;
    var subst := AnswerFor(ctx, table.goal, e).subst;
    forall a
      ensures multiset(subst.delayed)[a] == if ctx.canonical(a) == table.goal then 0 else multiset(e.delayed)[a]
    {
      FilteredExactly(ctx, table.goal, e.delayed, a);
    }
    assert Stands(ctx, table', e, subst);
  }

  lemma AnsweredFollowed(ctx: Context, tables: seq<Table>, tables': seq<Table>, stack: seq<StackEntry>, t: nat,
                         strand: Strand)
    requires t < |tables| && SameAnswers(tables, tables')
    requires tables[t].floundered || Answered(ctx, tables[t], strand.exClause)
    ensures FollowedFrom(ctx, tables', stack, t, strand)
  {
    if !tables[t].floundered {
      var s :| s in tables[t].answersHash && Stands(ctx, tables[t], strand.exClause, s);
      assert Stands(ctx, tables'[t], strand.exClause, s);
    }
  }

  lemma KeptInStep(ctx: Context, tables: seq<Table>, stack: seq<StackEntry>, tables': seq<Table>,
                   stack': seq<StackEntry>)
    requires AllKept(tables, stack, tables', stack')
    ensures EachKeeps(ctx, tables, stack, tables', stack')
  {
    hide *;
    KeptIsConserved(ctx, tables, stack, tables', stack');
    ConservedInStep(ctx, tables, stack, tables', stack');
  }

  lemma PartOfCycleKeeps(tables: seq<Table>, stack: seq<StackEntry>, entry: StackEntry)
    requires |stack| > 1 && Top(stack).active.None?
    requires var caller := stack[|stack| - 2];
             caller.table < |tables| && caller.active.Some? && entry.active.None? && entry.table == caller.table
    ensures var caller := stack[|stack| - 2];
            AllKept(tables, stack, tables[caller.table := Enqueued(tables[caller.table], caller.active.value)],
                    WithTop(Popped(stack), entry))
  {
    hide AllKept;
    var stack1, caller := Popped(stack), stack[|stack| - 2];
    var stack2 := WithTop(stack1, caller.(active := None));
    var tables' := tables[caller.table := Enqueued(tables[caller.table], caller.active.value)];
    KeptPopped(tables, stack);
    KeptReturned(tables, stack1);
    KeptTop(tables', stack2, entry);
    assert WithTop(stack2, entry) == WithTop(stack1, entry);
    KeptNext(tables, stack, tables, stack1, tables', stack2);
    KeptNext(tables, stack, tables', stack2, tables', WithTop(stack2, entry));
  }

  /** Giving up a cycle costs exactly the tables that take part in it their strands. */
  lemma ClearedInStep(ctx: Context, tables: seq<Table>, stack: seq<StackEntry>, tables': seq<Table>)
    requires NoneEligible(tables, stack) && tables[Top(stack).table].strands != []
             && tables[Top(stack).table].mode.Ambiguous?
    requires NotBefore(Top(stack).minimums.positive, Top(stack).clock)
    requires tables' == Unwound(if Top(stack).minimums.negative.Some? then tables
                                else Cleared(tables, Top(stack).table), stack)
    ensures EachKeeps(ctx, tables, stack, tables', [])
  {
    hide Reached, Unwound, EachKeeps;
    var tables1 := if Top(stack).minimums.negative.Some? then tables else Cleared(tables, Top(stack).table);
    GivenUpInStep(ctx, tables, stack, tables1, tables');
  }

  lemma CycleKeeps(tables: seq<Table>, stack: seq<StackEntry>, strand: Strand, entry: StackEntry)
    requires stack != [] && Top(stack).table < |tables| && Top(stack).active.None?
    ensures AllKept(tables, stack, tables[Top(stack).table := Enqueued(tables[Top(stack).table], strand)],
                    WithTop(stack, entry))
  {
    hide AllKept;
    var tables' := tables[Top(stack).table := Enqueued(tables[Top(stack).table], strand)];
    KeptEnqueued(tables, Top(stack).table, strand, stack);
    KeptTop(tables', stack, entry);
    KeptNext(tables, stack, tables', stack, tables', WithTop(stack, entry));
  }

  lemma DescendKeeps(tables: seq<Table>, stack: seq<StackEntry>, strand: Strand, entry: StackEntry)
    requires stack != [] && Top(stack).active.None?
    ensures AllKept(tables, stack, tables, WithTop(stack, Top(stack).(active := Some(strand))) + [entry])
  {
    hide AllKept;
    var stack' := WithTop(stack, Top(stack).(active := Some(strand)));
    KeptTop(tables, stack, Top(stack).(active := Some(strand)));
    KeptPushed(tables, stack', entry);
    KeptNext(tables, stack, tables, stack', tables, stack' + [entry]);
  }

  /** Merging an answer may add a strand to a queue and loses none. */
  lemma MergeKeeps(ctx: Context, tables: seq<Table>, stack: seq<StackEntry>, strand: Strand, answer: Answer,
                   r: MergeOutcome, tables': seq<Table>)
    requires stack != [] && Top(stack).table < |tables| && Top(stack).active.None? && strand.selected.Some?
    requires strand.selected.value.subgoalIndex < |strand.exClause.subgoals|
             && strand.selected.value.subgoalTable < |tables|
    requires MergeSpec(ctx, tables, stack, strand, answer, r, tables')
    ensures r.Merged? ==> AllKept(tables, stack, tables', stack)
    ensures r.MergeFailed? ==> AllKept(tables, stack, tables', [])
  {
    hide AllKept, Unwound, MergedExClause, FlounderSubgoal;
    var t := Top(stack).table;
    var queued := tables[t := Enqueued(tables[t], NextAlternative(strand))];
    KeptGrown(tables, tables, stack);
    KeptEnqueued(tables, t, NextAlternative(strand), stack);
    KeptUnwound(tables, stack);
    KeptUnwound(queued, stack);
    KeptNext(tables, stack, queued, stack, Unwound(queued, stack), []);
  }

  lemma MergedResolves(e: ExClause, i: nat, r: Resolvent, answer: Answer)
    requires i + 1 == |e.subgoals|
    ensures ResolvedInto(r, e, i, answer, MergedExClause(e, i, r, answer))
  {
    AtomsAfterAnswer(e, r, answer.subst);
    var e1 := ApplyAnswer(e.(subgoals := RemoveAt(e.subgoals, i)), r, answer.subst);
    assert Literals(MergedExClause(e, i, r, answer)) == Literals(e1);
  }

  /** Once an answer has been merged, everything that was set aside has another chance. */
  lemma MergedReopens(e: ExClause, i: nat, r: Resolvent, answer: Answer)
    requires i < |e.subgoals| && TimesOk(e)
    ensures var e' := MergedExClause(e, i, r, answer); forall l :: l in Literals(e') ==> Open(e', l)
  {
    var e' := MergedExClause(e, i, r, answer);
    forall k | 0 <= k < |Literals(e')|
      ensures Open(e', Literals(e')[k])
    {
      if k >= |e'.subgoals| {
        var f := e'.floundered[k - |e'.subgoals|];
        assert f in e'.floundered && Older(f, e'.answerTime) && f.literal == Literals(e')[k];
      }
    }
  }

  lemma NegativeResolved(e: ExClause, i: nat)
    requires i < |e.subgoals|
    ensures var e' := e.(subgoals := RemoveAt(e.subgoals, i), ambiguous := true);
            multiset(OpenAtoms(e')) + multiset{e.subgoals[i].atom} == multiset(OpenAtoms(e))
  {
    var e' := e.(subgoals := RemoveAt(e.subgoals, i), ambiguous := true);
    assert Literals(e') == RemoveAt(Literals(e), i);
    MapRemoveAt(AtomOf, Literals(e), i);
  }

  /** The strand has the answer it asked for, and `tables'` has the same one. */
  ghost predicate Asked(tables: seq<Table>, tables': seq<Table>, strand: Strand) {
    && HasAnswer(tables, strand) && SameAnswers(tables, tables')
    && strand.selected.value.subgoalIndex + 1 == |strand.exClause.subgoals|
  }

  lemma AlternativeHeld(tables: seq<Table>, stack: seq<StackEntry>, t: nat, strand: Strand)
    requires t < |tables| && strand.selected.Some? && NextAlternative(strand) in tables[t].strands
    ensures NextAlternative(strand) in Held(tables, stack, t) && AsksNext(strand, NextAlternative(strand))
  {
    assert NextAlternative(strand) in multiset(tables[t].strands);
  }

  lemma MergedFollowed(ctx: Context, tables: seq<Table>, stack: seq<StackEntry>, strand: Strand, strand': Strand,
                       tables': seq<Table>)
    requires stack != [] && Top(stack).table < |tables| && Asked(tables, tables', strand)
    requires MergeSpec(ctx, tables, stack, strand, AnswerOf(tables, strand), Merged(strand'), tables')
    ensures FollowedFrom(ctx, tables', WithTop(stack, Top(stack).(active := Some(strand'))), Top(stack).table, strand)
  {
    hide FollowedFrom, Tried, SameTask, MergedExClause, FlounderSubgoal, Held, ResolvedInto, OpenAtoms, AsksNext;
    var t, e, i := Top(stack).table, strand.exClause, strand.selected.value.subgoalIndex;
    var stack', answer := WithTop(stack, Top(stack).(active := Some(strand'))), AnswerOf(tables, strand);
    assert Top(stack') == Top(stack).(active := Some(strand'));
    SameTaskReflexive(strand'.exClause);
    HeldFollowed(ctx, tables', stack', t, strand', strand');
    if tables[t].mode.Complete? && answer.ambiguous {
      FlounderedTask(e, i);
      HeldFollowed(ctx, tables', stack', t, strand, strand');
    } else {
      match e.subgoals[i]
      case Positive(atom) =>
        var h := tables'[strand.selected.value.subgoalTable].goal;
        var r := ctx.resolve(atom, h, answer.subst).value;
        MergedResolves(e, i, r, answer);
        if !ctx.identity(h, answer.subst.subst) {
          AlternativeHeld(tables', stack', t, strand);
        }
        TriedPositive(ctx, tables', stack', t, strand);
      case Negative(_) =>
        NegativeResolved(e, i);
        TriedNegative(ctx, tables', stack', t, strand, strand');
    }
  }

  lemma TriedPositive(ctx: Context, tables: seq<Table>, stack: seq<StackEntry>, t: nat, strand: Strand)
    requires t < |tables| && HasAnswer(tables, strand)
             && strand.selected.value.subgoalIndex < |strand.exClause.subgoals|
    requires var i, h := strand.selected.value.subgoalIndex, tables[strand.selected.value.subgoalTable].goal;
             var answer, held := AnswerOf(tables, strand), Held(tables, stack, t);
             && strand.exClause.subgoals[i].Positive?
             && (ctx.identity(h, answer.subst.subst) || exists z :: z in held && AsksNext(strand, z))
             && var r := ctx.resolve(strand.exClause.subgoals[i].atom, h, answer.subst);
                r.Some? ==> exists z :: z in held && ResolvedInto(r.value, strand.exClause, i, answer, z.exClause)
    ensures FollowedFrom(ctx, tables, stack, t, strand)
  {
    hide Held, AsksNext, ResolvedInto;
    assert Tried(ctx, tables, Held(tables, stack, t), strand);
  }

  lemma TriedNegative(ctx: Context, tables: seq<Table>, stack: seq<StackEntry>, t: nat, strand: Strand, z: Strand)
    requires t < |tables| && HasAnswer(tables, strand)
             && strand.selected.value.subgoalIndex < |strand.exClause.subgoals|
    requires var i := strand.selected.value.subgoalIndex;
             && strand.exClause.subgoals[i].Negative?
             && z in Held(tables, stack, t) && z.exClause.subst == strand.exClause.subst && z.exClause.ambiguous
             && multiset(OpenAtoms(z.exClause)) + multiset{strand.exClause.subgoals[i].atom} ==
                multiset(OpenAtoms(strand.exClause))
    ensures FollowedFrom(ctx, tables, stack, t, strand)
  {
    hide Held, OpenAtoms;
    assert Tried(ctx, tables, Held(tables, stack, t), strand);
  }

  lemma FailedFollowed(ctx: Context, tables: seq<Table>, stack: seq<StackEntry>, strand: Strand, tables': seq<Table>)
    requires stack != [] && Top(stack).table < |tables| && Asked(tables, tables', strand)
    requires MergeSpec(ctx, tables, stack, strand, AnswerOf(tables, strand), MergeFailed, tables')
    ensures FollowedFrom(ctx, tables', [], Top(stack).table, strand)
  {
    hide Held, AsksNext, ResolvedInto, OpenAtoms, MergedExClause, FlounderSubgoal;
    var t, h := Top(stack).table, tables'[strand.selected.value.subgoalTable].goal;
    var answer := AnswerOf(tables, strand);
    if SelectedLiteral(strand).Positive? && !ctx.identity(h, answer.subst.subst) {
      AlternativeHeld(tables', [], t, strand);
    }
    assert Tried(ctx, tables', Held(tables', [], t), strand);
  }

  /** The `k`-th strand of table `t` was the first eligible one and has been taken out. */
  ghost predicate Dequeued(before: seq<Table>, after: seq<Table>, t: nat, clock: nat, k: nat, strand: Strand) {
    && t < |before|
    && k < |before[t].strands|
    && strand == before[t].strands[k]
    && Eligible(strand, clock, before[t].mode)
    && (forall i :: 0 <= i < k ==> !Eligible(before[t].strands[i], clock, before[t].mode))
    && after == before[t := before[t].(strands := before[t].strands[k + 1..] + before[t].strands[..k])]
  }

  lemma NothingSuspended(tables: seq<Table>, stack: seq<StackEntry>)
    requires |stack| == 1
    ensures Unwound(tables, stack) == tables
  {
    assert forall i :: 0 <= i < |tables| ==> tables[i].strands + Suspended(stack, i) == tables[i].strands;
  }

  /** The tables after a search was abandoned: every strand on the stack is back in its table. */
  ghost function Dropped(tables: seq<Table>, stack: seq<StackEntry>): seq<Table>
    requires stack != [] && Top(stack).table < |tables|
  {
    var top := Top(stack);
    var table := tables[top.table];
    Unwound(if top.active.Some? then tables[top.table := table.(strands := table.strands + [top.active.value])]
      else tables, stack)
  }

  /**
    Abandoning a search hands every strand on the stack back to its own table, exactly once, and changes nothing else.
   */
  lemma DroppedConserves(ctx: View, tables: seq<Table>, clock: nat, stack: seq<StackEntry>, t: nat)
    requires StackOk(ctx, tables, clock, stack) && stack != [] && Top(stack).table < |tables| && t < |tables|
    ensures |Dropped(tables, stack)| == |tables|
            && Dropped(tables, stack)[t] == tables[t].(strands := Dropped(tables, stack)[t].strands)
    ensures forall i :: 0 <= i < |stack| && stack[i].table == t ==>
                          Dropped(tables, stack)[t].strands == tables[t].strands + if stack[i].active.Some?
                            then [stack[i].active.value] else []
    ensures (forall i :: 0 <= i < |stack| ==> stack[i].table != t) ==> Dropped(tables, stack)[t] == tables[t]
  {
    hide StrandOk, MinimumsOk, EntryOk;
    forall i | 0 <= i < |stack| - 1
      ensures stack[i].active.Some?
    {
      assert Waiting(tables, stack[i], stack[i + 1].table);
    }
    SuspendedOnce(stack, t);
  }

  /** A program with one clause, whose only condition is the negation of a floundering goal. */
  function NegationExample(root: TableGoal, negated: TableGoal, atom: Atom, subst: Subst): Context {
    Context(
      g => false,
      g => if g == root then Some([Clause(subst, false, [Negative(atom)])]) else None,
      l => Some(negated),
      (a, g, answer) => None,
      (g, s) => false,
      s => false,
      s => false,
      a => root)
  }

  lemma NegationExampleDoomed(root: TableGoal, negated: TableGoal, atom: Atom, subst: Subst, clock: nat)
    requires root != negated
    ensures var ctx := NegationExample(root, negated, atom, subst);
            DoomedTable(ctx, clock, FreshTable(ctx, root), 0)
  {
    var ctx := NegationExample(root, negated, atom, subst);
    var strand := InitialStrand(Clause(subst, false, [Negative(atom)]));
    var table := FreshTable(ctx, root);
    assert ctx.clauses(root) == Some([Clause(subst, false, [Negative(atom)])]);
    assert table.strands == [strand] && table.strands[0].lastPursuedTime <= clock;
    assert Hopeless(ctx, strand);
  }

  /** Searching for the first answer of that goal fails the assertion that no subgoals are left. */
  method FlounderedNegation(root: TableGoal, negated: TableGoal, atom: Atom, subst: Subst) returns (r: RootResult)
    requires root != negated
    ensures r == RootPanicked(SubgoalsLeft)
  {
    hide TablesOk, StackOk, IndexOk, ViewOk, DoomedTable, Definite, Derivable, NegationExample;
    var context := NegationExample(root, negated, atom, subst);
    var state := new SolveState(context);
    var t := state.GetOrCreateTable(root);
    NegationExampleDoomed(root, negated, atom, subst, state.clock);
    r := state.RootAnswerSearch(t, 0, 1);
  }
}
