/**
  Clearing strands after a cycle: which tables lose their strands, and when.
 */
module SlgClear {
  import opened SlgContext

  ghost predicate TargetsIn(n: nat, strands: seq<Strand>) {
    forall k :: 0 <= k < |strands| && strands[k].selected.Some? ==> strands[k].selected.value.subgoalTable < n
  }

  ghost predicate AllTargetsIn(tables: seq<Table>) {
    forall t :: 0 <= t < |tables| ==> TargetsIn(|tables|, tables[t].strands)
  }

  ghost predicate SeedsIn(strands: seq<Strand>, c: set<nat>) {
    forall k :: 0 <= k < |strands| && strands[k].selected.Some? ==> strands[k].selected.value.subgoalTable in c
  }

  /** `c` contains every table that a strand of one of its tables has selected. */
  ghost predicate ClosedUnderSelection(tables: seq<Table>, c: set<nat>) {
    forall t :: t in c && t < |tables| ==> SeedsIn(tables[t].strands, c)
  }

  /** Table `t` can be reached from `strands` by following selected subgoals. */
  ghost predicate Reached(tables: seq<Table>, strands: seq<Strand>, t: nat) {
    forall c: set<nat> :: SeedsIn(strands, c) && ClosedUnderSelection(tables, c) ==> t in c
  }

  ghost predicate AllSelected(strands: seq<Strand>) {
    forall k :: 0 <= k < |strands| ==> strands[k].selected.Some?
  }

  /** Every strand that clearing comes across has a selected subgoal. */
  ghost predicate Clearable(tables: seq<Table>, strands: seq<Strand>) {
    && AllSelected(strands)
    && (forall t :: 0 <= t < |tables| && Reached(tables, strands, t) ==> AllSelected(tables[t].strands))
  }

  ghost predicate OnlyEmptied(tables: seq<Table>, tables': seq<Table>) {
    && |tables'| == |tables|
    && (forall t :: 0 <= t < |tables| ==> tables'[t] == tables[t] || tables'[t] == tables[t].(strands := []))
  }

  /** Nothing outside a closed set that contains the selected tables is touched. */
  ghost predicate StaysWithin(tables: seq<Table>, strands: seq<Strand>, tables': seq<Table>) {
    forall c: set<nat>, t ::
      SeedsIn(strands, c) && ClosedUnderSelection(tables, c) && t !in c && 0 <= t < |tables| && t < |tables'| ==>
        tables'[t] == tables[t]
  }

  ghost predicate SelectedAreEmpty(strands: seq<Strand>, tables': seq<Table>) {
    forall k :: 0 <= k < |strands| ==>
                  && strands[k].selected.Some?
                  && strands[k].selected.value.subgoalTable < |tables'|
                  && tables'[strands[k].selected.value.subgoalTable].strands == []
  }

  /** A table that was emptied has had its strands followed. */
  ghost predicate EmptiedAreFollowed(tables: seq<Table>, tables': seq<Table>) {
    forall t :: 0 <= t < |tables| && t < |tables'| && tables'[t].strands == [] ==>
        SelectedAreEmpty(tables[t].strands, tables')
  }

  ghost function TotalStrands(tables: seq<Table>): nat {
    if tables == [] then 0 else TotalStrands(tables[..|tables| - 1]) + |tables[|tables| - 1].strands|
  }

  lemma {:induction false} TotalDecreases(tables: seq<Table>, tables': seq<Table>)
    requires OnlyEmptied(tables, tables')
    ensures TotalStrands(tables') <= TotalStrands(tables)
  {
    if tables != [] {
      TotalDecreases(tables[..|tables| - 1], tables'[..|tables| - 1]);
    }
  }

  lemma {:induction false} TotalTaken(tables: seq<Table>, t: nat)
    requires t < |tables|
    ensures TotalStrands(tables[t := tables[t].(strands := [])]) + |tables[t].strands| == TotalStrands(tables)
  {
    var n := |tables| - 1;
    var tables' := tables[t := tables[t].(strands := [])];
    if t < n {
      TotalTaken(tables[..n], t);
      assert tables'[..n] == tables[..n][t := tables[t].(strands := [])];
    } else {
      assert tables'[..n] == tables[..n];
    }
  }

  /** Taking the strands of a reached table and following them reaches nothing new. */
  lemma ReachedThrough(tables: seq<Table>, now: seq<Table>, strands: seq<Strand>, t: nat, s: nat)
    requires OnlyEmptied(tables, now) && s < |tables| && Reached(tables, strands, s)
    requires Reached(now[s := now[s].(strands := [])], now[s].strands, t)
    ensures Reached(tables, strands, t)
  {
    forall c: set<nat> | SeedsIn(strands, c) && ClosedUnderSelection(tables, c)
      ensures t in c
    {
      ClosedStays(tables, now, c);
      ClosedStays(now, now[s := now[s].(strands := [])], c);
      assert s in c;
      assert SeedsIn(now[s].strands, c);
    }
  }

  lemma ClosedStays(tables: seq<Table>, tables': seq<Table>, c: set<nat>)
    requires OnlyEmptied(tables, tables') && ClosedUnderSelection(tables, c)
    ensures ClosedUnderSelection(tables', c)
  {
  }

  /** Clearing that runs to the end empties exactly the reached tables. */
  lemma ClearedExactly(tables: seq<Table>, strands: seq<Strand>, tables': seq<Table>, t: nat)
    requires OnlyEmptied(tables, tables') && StaysWithin(tables, strands, tables')
    requires SelectedAreEmpty(strands, tables') && EmptiedAreFollowed(tables, tables')
    requires t < |tables|
    ensures tables'[t] == if Reached(tables, strands, t) then tables[t].(strands := []) else tables[t]
    ensures Reached(tables, strands, t) ==> AllSelected(tables[t].strands)
  {
    var emptied := set i: nat | i < |tables| && tables'[i].strands == [];
    assert SeedsIn(strands, emptied) && ClosedUnderSelection(tables, emptied);
    if Reached(tables, strands, t) {
      assert t in emptied;
    } else {
      var c: set<nat> :| SeedsIn(strands, c) && ClosedUnderSelection(tables, c) && t !in c;
    }
  }

  // ----- One step of the loop -----

  function Taken(tables: seq<Table>, t: nat): seq<Table>
    requires t < |tables|
  {
    tables[t := tables[t].(strands := [])]
  }

  /** The loop has dealt with the first `k` strands. */
  ghost predicate Progress(tables: seq<Table>, strands: seq<Strand>, k: nat, now: seq<Table>) {
    && k <= |strands|
    && OnlyEmptied(tables, now)
    && StaysWithin(tables, strands, now)
    && SelectedAreEmpty(strands[..k], now)
    && EmptiedAreFollowed(tables, now)
  }

  lemma StepStaysWithin(tables: seq<Table>, strands: seq<Strand>, k: nat, now: seq<Table>, after: seq<Table>)
    requires k < |strands| && strands[k].selected.Some? && strands[k].selected.value.subgoalTable < |tables|
    requires OnlyEmptied(tables, now) && StaysWithin(tables, strands, now)
    requires var t := strands[k].selected.value.subgoalTable;
             OnlyEmptied(Taken(now, t), after) && StaysWithin(Taken(now, t), now[t].strands, after)
    ensures StaysWithin(tables, strands, after)
  {
    var t := strands[k].selected.value.subgoalTable;
    forall c: set<nat>, x | SeedsIn(strands, c) && ClosedUnderSelection(tables, c) && x !in c && 0 <= x < |tables|
      && x < |after|
      ensures after[x] == tables[x]
    {
      ClosedStays(tables, now, c);
      ClosedStays(now, Taken(now, t), c);
      assert t in c;
      assert SeedsIn(now[t].strands, c);
      assert Taken(now, t)[x] == now[x] == tables[x];
    }
  }

  lemma StillEmpty(strands: seq<Strand>, now: seq<Table>, after: seq<Table>)
    requires OnlyEmptied(now, after) && SelectedAreEmpty(strands, now)
    ensures SelectedAreEmpty(strands, after)
  {
  }

  lemma StepFollows(tables: seq<Table>, now: seq<Table>, t: nat, after: seq<Table>)
    requires OnlyEmptied(tables, now) && EmptiedAreFollowed(tables, now) && t < |tables|
    requires OnlyEmptied(Taken(now, t), after) && EmptiedAreFollowed(Taken(now, t), after)
    requires SelectedAreEmpty(now[t].strands, after)
    ensures EmptiedAreFollowed(tables, after) && OnlyEmptied(tables, after) && OnlyEmptied(now, after)
  {
    assert OnlyEmptied(now, after);
    forall x | 0 <= x < |tables| && x < |after| && after[x].strands == []
      ensures SelectedAreEmpty(tables[x].strands, after)
    {
      if now[x].strands == [] {
        StillEmpty(tables[x].strands, now, after);
      }
    }
  }

  lemma StepProgress(tables: seq<Table>, strands: seq<Strand>, k: nat, now: seq<Table>, after: seq<Table>)
    requires Progress(tables, strands, k, now) && k < |strands|
    requires strands[k].selected.Some? && strands[k].selected.value.subgoalTable < |tables|
    requires var t := strands[k].selected.value.subgoalTable;
             && OnlyEmptied(Taken(now, t), after) && StaysWithin(Taken(now, t), now[t].strands, after)
             && SelectedAreEmpty(now[t].strands, after) && EmptiedAreFollowed(Taken(now, t), after)
    ensures Progress(tables, strands, k + 1, after)
  {
    hide StaysWithin, EmptiedAreFollowed;
    var t := strands[k].selected.value.subgoalTable;
    StepStaysWithin(tables, strands, k, now, after);
    StepFollows(tables, now, t, after);
    StillEmpty(strands[..k], now, after);
    assert strands[..k + 1] == strands[..k] + [strands[k]];
  }

  /** A strand without a selected subgoal further on is one further on from here. */
  lemma StepUnclearable(tables: seq<Table>, strands: seq<Strand>, k: nat, now: seq<Table>)
    requires OnlyEmptied(tables, now) && k < |strands|
    requires strands[k].selected.Some? && strands[k].selected.value.subgoalTable < |tables|
    requires var t := strands[k].selected.value.subgoalTable; !Clearable(Taken(now, t), now[t].strands)
    ensures !Clearable(tables, strands)
  {
    var t := strands[k].selected.value.subgoalTable;
    assert Reached(tables, strands, t);
    if !AllSelected(now[t].strands) {
      assert now[t].strands == tables[t].strands;
    } else {
      var x :| 0 <= x < |tables| && Reached(Taken(now, t), now[t].strands, x) && !AllSelected(Taken(now, t)[x].strands);
      ReachedThrough(tables, now, strands, x, t);
      assert Taken(now, t)[x].strands == tables[x].strands;
    }
  }

  lemma ProgressStarts(tables: seq<Table>, strands: seq<Strand>)
    ensures Progress(tables, strands, 0, tables)
  {
  }

  lemma TargetsStay(tables: seq<Table>, now: seq<Table>)
    requires AllTargetsIn(tables) && OnlyEmptied(tables, now)
    ensures AllTargetsIn(now) && forall t :: 0 <= t < |now| ==> TargetsIn(|now|, now[t].strands)
  {
  }

  lemma TakenShrinks(tables: seq<Table>, now: seq<Table>, t: nat)
    requires OnlyEmptied(tables, now) && t < |tables|
    ensures TotalStrands(Taken(now, t)) + |now[t].strands| <= TotalStrands(tables)
    ensures OnlyEmptied(tables, Taken(now, t))
  {
    TotalDecreases(tables, now);
    TotalTaken(now, t);
  }

  lemma ProgressEnds(tables: seq<Table>, strands: seq<Strand>, now: seq<Table>)
    requires Progress(tables, strands, |strands|, now)
    ensures Clearable(tables, strands)
    ensures SelectedAreEmpty(strands, now) && EmptiedAreFollowed(tables, now) && StaysWithin(tables, strands, now)
    ensures forall t :: 0 <= t < |now| ==>
              now[t] == if Reached(tables, strands, t) then tables[t].(strands := []) else tables[t]
  {
    hide Reached;
    assert strands[..|strands|] == strands;
    forall t | 0 <= t < |now|
      ensures now[t] == if Reached(tables, strands, t) then tables[t].(strands := []) else tables[t]
      ensures Reached(tables, strands, t) ==> AllSelected(tables[t].strands)
    {
      ClearedExactly(tables, strands, now, t);
    }
  }
}
