# Chalk's solvers, modelled and verified

Chalk decides trait goals with two independent solvers that share one term language.
This project models the parts of both that are hard to get right, and the term
operations beneath them, and proves what they promise.

| file | what it models |
|---|---|
| `Prelude.dfy` | optional values and the size of subsets |
| `FixedPoints.dfy` | goals solved by asking for other goals: monotone steps over values of finite height, least fixed points stratum by stratum, and fixed points relative to assumed values |
| `SearchGraph.dfy` | the states of the recursive solver, what holds of every reachable one, and why recorded values may be trusted |
| `SearchRounds.dfy` | the rounds of the solver's loop on these states: what one computes, when the loop may stop, and what stopping early leaves behind |
| `RecursiveSolver.dfy` | the recursive solver itself: search graph, stack, cache, the solve-until-stable loop, and what ends a search without a value |
| `HornModels.dfy` | propositional Horn programs with inductive and coinductive goals as an instance, and their stratified model |
| `AmbiguousCycle.dfy` | searches that stop early at an ambiguous value and leave wrong values in the cache |
| `MixedCycles.dfy` | a cycle of goals of both kinds, whose cached values depend on which goal is asked for first |
| `SlgContext.dfy` | strands, tables and stack entries of the SLG engine, and plain resolution as the reference semantics |
| `SlgInvariants.dfy` | the invariant of all reachable engine states and the ways it is preserved |
| `SlgClear.dfy` | reachability through selected subgoals, and clearing strands after a cycle |
| `SlgCycles.dfy` | the strands that cycles have returned to the tables on the stack, and what the recorded minimums say about them |
| `SlgStrands.dfy` | where strands are held, what becomes of the one that is pursued, and the only ways to lose one |
| `SlgEngine.dfy` | the engine itself, one method per step, and the root search |
| `SlgStream.dfy` | answer streams, the test on all future answers, and the loop that reports all solutions |
| `SlgSolution.dfy` | how a stream of answers becomes a solution, and why it may stop drawing |
| `SlgSemantics.dfy` | what derivable answers of inductive programs mean: truth in every interpretation closed under the clauses |
| `Folding.dfy` | values with nested binders: shifting, substitution, fusing binders |
| `Aggregate.dfy` | anti-unification of answers and the test that no future answer matters |
| `Combine.dfy` | combining the solutions of several clauses, with priorities |
| `Flatten.dfy` | the two ways of breaking a goal into literals |
| `EnvClosure.dfy` | closure of an environment under elaboration |
| `MatchFilter.dfy` | the fast filter for clauses that could match |

The recursive solver and the SLG engine update their state in place, so they are classes
whose methods carry the state invariant (`RecursiveContext.Valid`, `SolveState.Valid`,
`ForestSolver.Valid`). Terms, folds, anti-unification and the clause lattice are pure and
are modelled by datatypes and functions. Unification, truncation, clause generation and
canonicalization are parameters of the model: the engine is proved for every choice of the
functions in `SlgContext.Context`, about which nothing is assumed.

Main results:

- The recursive solver gives every goal its value in the least fixed point, for any finite
  set of goals, any value type with orders of finite height and any monotone steps, with and
  without the cache, unless the search ends on one of three guards: the stack has reached the
  overflow depth (and holds that many distinct goals), a cycle has goals of both kinds, or a
  loop stops at a new ambiguous value although the goal was asked for. Until then
  everything in the cache is final, and the nested iteration terminates (by the goals not yet
  on the stack and the rises left to each provisional value). Provisional values strictly
  between the initial and the final one are covered: each value is exact relative to the
  context it was asked in, and a finished node carries a justification, that its step applied
  to what is recorded at or after its link already keeps it from rising.
- The cycle flag can be relied on: whoever was given a value that the provisional
  one made any different has set it, and only goals of strata that were asked for are flagged.
- For propositional Horn programs the solver decides membership in the stratified model, the
  least closed or greatest supported set of each stratum, which is unique.
- In every reachable state of the SLG engine the stack's clocks increase, no table is on it
  twice, every entry but the top waits with a strand for the next answer of the entry above,
  and every minimum below an entry's own clock is the clock of an entry beneath. So the
  engine's unwraps and index assertions hold, and the panic "nothing on the stack but cyclic
  result" cannot be reached.
- The minimums of an entry are exactly the furthest that the strands returned to its table
  because of a cycle reach, through however many tables, and say exactly whether one of them
  does so negatively. A cycle is taken for closed exactly if none of them reaches below it.
- No step of a search, and so no run, loses a strand but for a reason: its table has
  floundered, has just got an unambiguous trivial answer, is given up with a closed positive
  cycle, or the strand is the one that was pursued or whose subgoal has failed. What has been
  pursued is followed up: the strand is still held, has been resolved with the answer it
  asked for while a strand waits for the next one, or its answer is known to its table.
- A subgoal is set aside only if no table can be made for it, or it is positive and its table
  has floundered, and a strand becomes ambiguous only if that is so of all its literals.
- For programs with positive literals, coinductive ones included, every published answer
  that is not ambiguous has a derivation by plain resolution, without tables, strands or
  stack, from its delayed subgoals. These stem from coinductive goals, and one is only ever
  dropped for being the table's own goal. So the answer a root search returns has a
  derivation. If no goal is coinductive and resolution and clauses are sound, such an answer
  holds in every interpretation that is closed under the clauses.
- Every answer a table gains refines an answer or strand it had when the search last stopped.
  So the guidance at which the aggregation loop stops early is that of all answers to come,
  if it is linear and the goal does not flounder later; if it does, nothing of it is left.
- Unless the budget or an assertion cuts it short, `make_solution` says "no solution" and
  "unique" exactly for an exhausted table without answers and with a single unambiguous one.
- A caller told that no further solution follows has seen all there are and ever will be.
- No search loses a strand when it is abandoned; answers are only ever appended; clearing
  after a cycle empties exactly the tables reachable through selected subgoals.
- Substitution laws for nested binders, with errors: composition, identity, and that fusing
  two levels of binders and substituting once is substituting twice.
- Merging answers yields the most specific linear generalization of all that it looks at,
  which is everything but top-level lifetimes, fn-pointer and dyn types, and does so in any
  order; the "may invalidate" test is conclusive exactly for linear guidance.
- A high-priority solution overrides low-priority ones exactly as far as their substitutions
  give the goal the same inputs, whatever the forms of the solutions.

Findings about the code:

- `MayInvalidate` is not conclusive for guidance that repeats a variable. With guidance
  `(X, X)` and a future answer `(A, B)` the test says that nothing can change, although the
  answer contradicts the guidance (`RepeatedVariable`; `ConclusiveExactly` says for which
  guidance the test is conclusive).
- The outcome of the clause loop does not depend on the order of the clauses exactly for
  goals whose inputs do not depend on the solution. For `AliasEq` goals they do
  (`OrderIrrelevantExactly`, `InputsMakeOrderMatter`).
- The documentation of `propagate_floundered_subgoal` says a strand with a floundered
  negative subgoal is discarded. The code hands it on as if it had no subgoals left, and the
  assertion on remaining subgoals in `pursue_answer` then fails. `PursueAnswer` says exactly
  when, and `FlounderedNegation` searches for an answer of a one-clause program and ends
  with this failure.
- The loop of the recursive solver also stops when the new value is ambiguous, without
  another round. It does so exactly if the goal was asked for, the value has changed and it
  is ambiguous (`RecordAnswer`). Ambiguous values can still rise, as `Combine` shows for
  definite guidance, so the value of the goal itself may be wrong: it is exact for its
  context if and only if one more round would have reproduced it (`StoppedValueIsExactly`).
  What was found beneath it still rests on the old value. All that is left behind, the goal
  included, is right if and only if one more step on the recorded values would raise none of
  them (`StopIsRightExactly`). `SearchLeavesWrongValue` and `SearchCachesWrongValue` take
  programs of two goals and of one goal through the solver, up to a wrong value in the cache
  of another goal and of the goal itself. If no ambiguous goal is on a cycle the loop never
  stops early (`DecisiveNeverStops`).
- When a cycle has goals of both kinds, the solver returns an error without recording that a
  cycle was met. The goal that is given the error then counts as finished and is cached. In
  a program of two goals that ask for each other the cached value of one of them depends on
  which is asked for first (`InductiveFirst`, `CoinductiveFirst`).

## Model

| member | source | states |
|---|---|---|
| FixedPoints.LeastExists | chalk-recursive/src/fixed_point.rs:205-209 | for monotone steps and values of finite height the least fixed point relative to assumed values exists, stratum by stratum |
| FixedPoints.TruthIsLeast | chalk-recursive/src/recursive.rs:54-72 | the values of a program are, in every stratum, the least ones above the initial values that the steps do not raise |
| FixedPoints.ModelIsFixedPoint | chalk-recursive/src/fixed_point.rs:118-192 | a goal's value relative to assumed values is the assumed one, or what its step makes of the values relative to them |
| FixedPoints.ModelIsLeast | chalk-recursive/src/recursive.rs:54-72 | the values relative to assumed ones are below every world that the steps do not raise |
| FixedPoints.ExtendsKeepsModel | chalk-recursive/src/fixed_point.rs:118-134 | recording values that are exact for a context changes no other value, which is why the cache and finished graph nodes may be reused |
| FixedPoints.RoundRises | chalk-recursive/src/fixed_point.rs:205-209 | the loop's values are nondecreasing from round to round |
| FixedPoints.RoundStaysBelow | chalk-recursive/src/fixed_point.rs:201-235 | no round takes a provisional value above the goal's exact value in its context |
| FixedPoints.RoundIsStable | chalk-recursive/src/fixed_point.rs:226-231 | a value that a round reproduces is the exact one |
| FixedPoints.SelfSupport | chalk-recursive/src/fixed_point.rs:172-186 | goals that keep each other's values from rising have their values in the model |
| FixedPoints.SettledIsTrue | chalk-recursive/src/recursive.rs:83-99 | a value that is at most the true one is the true one, if it cannot rise at all |
| SearchGraph.HeadIsFinal | chalk-recursive/src/fixed_point.rs:172-186 | nodes that depend on nothing before the head carry their final values, so they may be cached |
| SearchGraph.UnaskedIsExact | chalk-recursive/src/fixed_point.rs:219-224 | values found beneath a goal nobody asked for again are exact without that goal, although its provisional value changed |
| SearchGraph.UnaskedTop | chalk-recursive/src/fixed_point.rs:219-224 | the goal's own new value is then not below its exact value either |
| SearchGraph.PushKeepsGraph | chalk-recursive/src/fixed_point.rs:155-160 | pushing a goal with its initial value keeps the graph, the links and all justifications |
| SearchGraph.PopKeepsGraph | chalk-recursive/src/fixed_point.rs:164-166 | taking a goal off the stack keeps the graph and changes no known value |
| SearchGraph.CutKeepsGraph | chalk-recursive/src/fixed_point/search_graph.rs:90-94 | cutting off finished nodes leaves a consistent graph |
| SearchGraph.CutRestoresContext | chalk-recursive/src/fixed_point/search_graph.rs:90-94 | without a cache, rolling back to a node restores exactly the context its goal was asked in |
| SearchGraph.DrainKeepsGraph | chalk-recursive/src/fixed_point/search_graph.rs:98-106 | moving finished nodes to the cache changes no known value |
| SearchGraph.PathIsShort | chalk-recursive/src/fixed_point/stack.rs:42-59 | the stack holds distinct goals, so it is never deeper than the number of goals |
| SearchRounds.RoundEnds | chalk-recursive/src/fixed_point.rs:219-231 | when the loop may stop, the value is exact, everything known extends the context the goal was asked in, and the remaining nodes stay justified |
| SearchRounds.RoundRepeats | chalk-recursive/src/fixed_point.rs:226-235 | otherwise the value has risen strictly; rolling back leaves a consistent, justified graph and keeps only what has become final |
| SearchRounds.IterationOutcome | chalk-recursive/src/solve.rs:41-99 | an iteration told exact values arrives at the step's exact value, and at one justified by what it was told |
| SearchRounds.CycleStaysInStratum | chalk-recursive/src/fixed_point.rs:136-143 | a goal asked for again from within its own search is in the same stratum as everything above it |
| SearchRounds.UniformNeverMixes | chalk-recursive/src/fixed_point.rs:139-143 | so no cycle is mixed if goals of one stratum are of one kind |
| SearchRounds.UnflaggedAnswer | chalk-recursive/src/fixed_point.rs:219-224 | if the flag is not set after a round, no value it was given depended on the assumption |
| SearchRounds.RoundIsQuiet | chalk-recursive/src/fixed_point.rs:219-231 | the loop ends with a round that reproduced its assumption or rested on no value that the assumption changed |
| SearchRounds.StoppedValueIsExactly | chalk-recursive/src/recursive.rs:91-99 | where the loop stops at an ambiguous value, that is the exact value of the goal if and only if one more round would have reproduced it |
| SearchRounds.StoppedValueIsTrue | chalk-recursive/src/recursive.rs:91-99 | it is the true value if ambiguous values cannot rise at all |
| SearchRounds.StopIsRightExactly | chalk-recursive/src/fixed_point.rs:226-231 | what an early stop leaves behind, the goal itself included, is right if and only if one more step raises none of it |
| SearchRounds.RecordedRightExactly | chalk-recursive/src/fixed_point.rs:172-186 | the values recorded from a node on are the true ones if and only if one more step on them raises none |
| SearchRounds.WrongAnswerStays | chalk-recursive/src/fixed_point.rs:226-231 | a goal of which the last round was given a wrong value is left behind with that value when the loop stops early |
| SearchRounds.DecisiveNeverStops | chalk-recursive/src/recursive.rs:91-99 | the loop never stops early if ambiguous goals ask only for goals of lower strata and ambiguous values rise only to ambiguous ones |
| SearchRounds.FinishedAndKept | chalk-recursive/src/fixed_point.rs:164-190 | a goal that depends on an earlier one stays in the graph with its links in order, and only goals of the asking stratum do |
| RecursiveSolver.RecursiveContext.constructor | chalk-recursive/src/fixed_point.rs:75-82 | a fresh context is consistent, with an empty cache or none |
| RecursiveSolver.OnlyOverflow | chalk-recursive/src/fixed_point.rs:103-112 | in programs without mixed cycles and ambiguous cycles nothing but the overflow depth ends a search without a value, if ambiguous values rise only to ambiguous ones |
| RecursiveSolver.RecursiveContext.SolveRootGoal | chalk-recursive/src/fixed_point.rs:103-112 | for every program with monotone steps: the value is the goal's true one, and stack and graph are empty again; or the search ended on the overflow depth, a mixed cycle or an early stop, which is described |
| RecursiveSolver.RecursiveContext.SolveGoal | chalk-recursive/src/fixed_point.rs:118-192 | a value is exact relative to the provisional values in scope and justified; the stack keeps its depth, older nodes are untouched, new ones link no lower than the returned minimum, only goals of strata asked for are flagged, and known values are only extended; terminates |
| RecursiveSolver.RecursiveContext.AnswerFromGraph | chalk-recursive/src/fixed_point.rs:133-153 | exactly the entry of an active goal is flagged; an error exactly if the goal closes a mixed cycle; otherwise a provisional or finished value that is exact for the current context |
| RecursiveSolver.RecursiveContext.MixedCycleFrom | chalk-recursive/src/fixed_point/stack.rs:73-82 | true exactly when both kinds of goals occur from the given depth on |
| RecursiveSolver.RecursiveContext.PushGoal | chalk-recursive/src/fixed_point.rs:155-160 | the new node and stack entry, after which the goal's first round may start |
| RecursiveSolver.RecursiveContext.MoveToCache | chalk-recursive/src/fixed_point/search_graph.rs:98-106 | exactly the nodes from the number on move to the cache, their assertions hold, and if their values are final no known value changes |
| RecursiveSolver.RecursiveContext.SolveUnknown | chalk-recursive/src/fixed_point.rs:154-191 | a goal that is neither cached nor in the graph is pushed, solved and finished with its exact value, which a quiet round produced; or the search ended at it or beneath it |
| RecursiveSolver.RecursiveContext.SolveNewSubgoal | chalk-recursive/src/fixed_point.rs:194-236 | the loop terminates by the rises left to the provisional value, and ends with all values exact for the context the goal was asked in and every node justified, or by an early stop |
| RecursiveSolver.RecursiveContext.RecordAnswer | chalk-recursive/src/fixed_point.rs:219-234 | the loop stops early exactly if the flag is set, the value has changed and the new one is ambiguous; it stops with a finished search if the flag is not set or nothing has changed; otherwise it goes on with a strictly higher value from a graph without the later nodes |
| RecursiveSolver.RecursiveContext.SolveIteration | chalk-recursive/src/recursive.rs:74-81 | one iteration computes the goal's step on the values of the current context, flags only goals of the strata it asks for, and justifies its value |
| RecursiveSolver.RecursiveContext.FinishGoal | chalk-recursive/src/fixed_point.rs:164-190 | leaving a goal removes it from the stack, caches or drops a finished group, and returns its exact value |
| HornModels.StepIsConsequence | chalk-recursive/src/solve.rs:153-193 | trying all clauses in order, the conditions of each last one first up to the first failure, computes the consequence operator |
| HornModels.HornIsWellFormed | chalk-recursive/src/recursive.rs:54-103 | Horn programs without mixed cycles have monotone steps over two values, so the solver applies |
| HornModels.TruthIsStratifiedModel | chalk-recursive/src/recursive.rs:54-72 | the goals found true form the stratified model: inductive goals from least closed sets, coinductive ones from greatest supported sets |
| HornModels.StratifiedModelIsUnique | chalk-recursive/src/recursive.rs:54-72 | there is only one stratified model |
| HornModels.SolveHorn | chalk-recursive/src/recursive.rs:127-133 | the solver succeeds exactly on the goals of the stratified model, with and without the cache |
| AmbiguousCycle.SearchLeavesWrongValue | chalk-recursive/src/recursive.rs:91-99 | searching a program of two goals stops early, and finishing the goal as the solver does leaves a wrong value of the other one in the cache |
| AmbiguousCycle.SearchCachesWrongValue | chalk-recursive/src/recursive.rs:91-99 | searching a goal that asks for itself stops early at an ambiguous value, which is cached although the true one is higher |
| MixedCycles.MeetCycle | chalk-recursive/src/fixed_point.rs:136-143 | two goals of different kinds that ask for each other: the second one is given an error and cached with the value it has for that |
| MixedCycles.InductiveFirst | chalk-recursive/src/fixed_point.rs:136-143 | asking for the inductive goal first leaves a wrong value of the coinductive one in the cache |
| MixedCycles.CoinductiveFirst | chalk-recursive/src/fixed_point.rs:136-143 | asking for the coinductive goal first leaves the other value in the cache |
| SlgContext.DerivesPermutation | chalk-engine/src/slg.rs:21-30 | a derivation does not depend on the order of the goals still open |
| SlgContext.ApplyAnswerSound | chalk-engine/src/slg/resolvent.rs:215-257 | plugging an answer derivable from its delayed subgoals into a strand is a resolution step that leaves them open, so a strand that is not ambiguous stays a derivation |
| SlgContext.CloseAll | chalk-engine/src/logic.rs:1468-1486 | dropping the delayed subgoals that are the table's own goal is coinduction, and nothing else is dropped |
| SlgContext.FilteredExactly | chalk-engine/src/logic.rs:1468-1486 | of the delayed subgoals exactly the trivial self-cycles are dropped, as a multiset |
| SlgInvariants.SuspendedOnce | chalk-engine/src/logic.rs:1276-1287 | each suspended strand is handed back to its own table exactly once and to no other |
| SlgInvariants.UnwindStep | chalk-engine/src/stack.rs:139-147 | one step of unwinding moves one strand from the stack to its table and conserves all of them |
| SlgInvariants.PushOk | chalk-engine/src/stack.rs:112-129 | pushing the table a caller waits for keeps the stack in order |
| SlgInvariants.IndexedAppend | chalk-engine/src/table.rs:127-160 | a new answer keeps the hash index exact and the answers distinct |
| SlgClear.ClearedExactly | chalk-engine/src/logic.rs:1295-1311 | what the recursion leaves behind determines each table: emptied if reachable through selected subgoals, untouched otherwise |
| SlgCycles.MinTimeExactly | chalk-engine/src/lib.rs:267-274 | a minimum is before a time exactly if one of the two times is |
| SlgCycles.MetCycle | chalk-engine/src/logic.rs:861-899 | recording a cycle keeps the minimums of the entry exact: the furthest that its returned strands reach, and whether one does so negatively |
| SlgCycles.CycleIsRecorded | chalk-engine/src/logic.rs:861-899 | for each strand returned to a table on the stack because of a cycle, the entry's minimum is at most the clock of the entry the cycle reaches |
| SlgCycles.ClosedExactly | chalk-engine/src/logic.rs:1204-1231 | the minimums of the top entry let it be given up exactly if no returned strand reaches below it, and tell exactly whether the cycle is negative |
| SlgStrands.UnwoundHolds | chalk-engine/src/logic.rs:1276-1287 | unwinding conserves all strands of every table but the one active at the top |
| SlgStrands.PursuedInStep | chalk-engine/src/logic.rs:508-560 | a step that pursues a strand costs its table that strand at most, unless the table flounders or gets a trivial answer |
| SlgStrands.CalleeFailedInStep | chalk-engine/src/logic.rs:1149-1196 | a failed callee costs no table a strand but the caller the one that was waiting |
| SlgStrands.GivenUpInStep | chalk-engine/src/logic.rs:1208-1229 | giving up a closed positive cycle costs only the tables reached from it their strands |
| SlgStrands.LostInRun | chalk-engine/src/logic.rs:482-562 | over any run of steps, what a table has fewer of it has lost at some step, for one of the listed reasons; if it was pursued, it was followed up |
| SlgEngine.ReconsiderFlounderedSubgoals | chalk-engine/src/logic.rs:1580-1594 | the reverse swap-remove pass moves exactly the literals older than the last answer back to the subgoals and keeps exactly the others, as multisets |
| SlgEngine.MergedOk | chalk-engine/src/logic.rs:640-690 | a strand with an answer merged in still satisfies the strand invariant, soundness included |
| SlgEngine.MergedResolves | chalk-engine/src/slg/resolvent.rs:215-257 | the merged strand has the resolved substitution, the ambiguity of both, and exactly the open goals left by resolution |
| SlgEngine.MergedReopens | chalk-engine/src/logic.rs:640-690 | after an answer has been merged every literal that was set aside has another chance |
| SlgEngine.DelayedSound | chalk-engine/src/logic.rs:811-852 | delaying a coinductive subgoal leaves it an open goal of the derivation |
| SlgEngine.RefinementOk | chalk-engine/src/logic.rs:1087-1140 | the refinement strand of a root answer has exactly the answer's delayed subgoals to prove, and is a derivation if the answer is not ambiguous |
| SlgEngine.PublishedKeeps | chalk-engine/src/logic.rs:1545-1575 | publishing gives up the table's strands if and only if the answer is unambiguous, trivial and unconstrained |
| SlgEngine.MergedFollowed | chalk-engine/src/logic.rs:570-755 | a strand that has been resolved is held as its resolvent, with another strand waiting for the next answer unless the answer was trivial |
| SlgEngine.LostInSearch | chalk-engine/src/logic.rs:84-118 | what a table has lost over a whole root search, cleaning up included, it has lost at some step and for one of the reasons |
| SlgEngine.BottomReachesNothing | chalk-engine/src/logic.rs:1230-1241 | an entry with a minimum below its clock is not the bottom one, so the panic there is unreachable |
| SlgEngine.CallerResumes | chalk-engine/src/logic.rs:1030-1041 | after an answer is published the caller's strand finds the answer it waited for |
| SlgEngine.DroppedConserves | chalk-engine/src/logic.rs:462-472 | abandoning a search returns every strand on the stack, the top one included, to its own table exactly once and changes nothing else |
| SlgEngine.SolveState.constructor | chalk-engine/src/forest.rs:22-29 | an empty forest satisfies the invariant |
| SlgEngine.SolveState.BuildTable | chalk-engine/src/logic.rs:230-353 | one strand per resolving clause, in order, each with the substitution, ambiguity and conditions of its clause and nothing done about it yet, or a floundered table |
| SlgEngine.SolveState.GetOrCreateTable | chalk-engine/src/logic.rs:200-224 | one table per goal, existing tables untouched, a new one with one strand for each clause |
| SlgEngine.SolveState.EnqueueStrand | chalk-engine/src/table.rs:73-75 | the strand goes to the end of the queue and nothing else changes |
| SlgEngine.SolveState.DequeueNextStrandThat | chalk-engine/src/table.rs:90-102 | the first eligible strand is taken and the queue rotated to it; no strand is taken twice at the same time and no ambiguous one in complete mode; none is taken exactly if all are ruled out by that |
| SlgEngine.SolveState.SelectSubgoal | chalk-engine/src/logic.rs:1313-1403 | terminates; keeps the substitution and the multiset of literals; only literals without a table, or positive ones whose table has floundered, are set aside, from the last one on; a selection that can be pursued stays; nothing is selected only if nothing can be, or a negative literal is left over whose table has floundered; the strand becomes ambiguous only if nothing can be selected and literals are left |
| SlgEngine.SolveState.PickSubgoal | chalk-engine/src/logic.rs:1317-1386 | terminates with the last literal that has a table selected, floundered ones having had another chance, or with none if no literal that had a chance can be pursued |
| SlgEngine.SolveState.UnwindStack | chalk-engine/src/logic.rs:1276-1287 | the stack is empty and every suspended strand is back at the end of its table's queue |
| SlgEngine.SolveState.ClearStrandsAfterCycle | chalk-engine/src/logic.rs:1295-1311 | terminates; succeeds exactly if every strand reached has a selected subgoal, and then empties exactly the tables reachable in the initial forest |
| SlgEngine.SolveState.Drop | chalk-engine/src/logic.rs:462-472 | the stack is empty, and the tables are the old ones with all strands of the stack returned, none of them lost |
| SlgEngine.SolveState.MergeAnswerIntoStrand | chalk-engine/src/logic.rs:570-755 | the outcome case by case: floundered in complete mode, resolved with the next alternative queued, failed and unwound, or a negative subgoal dropped; ambiguity is never reset |
| SlgEngine.SolveState.MergePositive | chalk-engine/src/logic.rs:612-706 | a positive subgoal: the next alternative is queued unless the answer is trivial, and the strand is resolved or fails |
| SlgEngine.SolveState.MergeNegative | chalk-engine/src/logic.rs:707-752 | a negative subgoal: a definite answer fails the strand, an ambiguous one makes it ambiguous, one with delayed subgoals panics |
| SlgEngine.SolveState.IsActive | chalk-engine/src/stack.rs:94-104 | finds a table on the stack exactly if it is there |
| SlgEngine.SolveState.TopOfStackIsCoinductiveFrom | chalk-engine/src/logic.rs:1642-1647 | true exactly if all tables from the depth on are coinductive |
| SlgEngine.SolveState.OnCoinductiveSubgoal | chalk-engine/src/logic.rs:811-852 | a positive subgoal is delayed and the strand stays active; a negative one panics; the coinductivity assertion holds of both tables |
| SlgEngine.SolveState.OnPositiveCycle | chalk-engine/src/logic.rs:861-899 | the cycle's reach is recorded in the top entry, negatively for a negative subgoal, the strand is queued, and the minimums still say exactly how far the returned strands reach |
| SlgEngine.SolveState.OnSubgoalSelected | chalk-engine/src/logic.rs:908-997 | keeps the invariant and all strands; the assertions on floundering and on the next answer index hold; the strand is followed up |
| SlgEngine.SolveState.OnNoAnswerYet | chalk-engine/src/logic.rs:961-997 | a subgoal already on the stack is delayed or recorded as a cycle at its depth; any other is pushed with a fresh clock |
| SlgEngine.SolveState.Descend | chalk-engine/src/logic.rs:986-997 | the strand becomes active and its subgoal's table is pushed with a larger clock |
| SlgEngine.SolveState.PursueAnswer | chalk-engine/src/logic.rs:1413-1578 | says exactly when which assertion fails; otherwise publishes a new answer at the next index, or flounders the table if it is too large, or leaves everything as it is if the answer is known; the stack below stays in order; strands are given up only if the table flounders or the answer is unambiguous, trivial and unconstrained; afterwards the table knows the answer the strand stands for, without its trivial self-cycles, or has floundered |
| SlgEngine.SolveState.OnNoRemainingSubgoals | chalk-engine/src/logic.rs:1003-1072 | an ambiguous strand goes back in complete mode; otherwise assertions fail exactly when publishing fails them; with a caller, the caller's strand now finds the answer it waited for; at the root, exactly one answer was added |
| SlgEngine.SolveState.PursueStrand | chalk-engine/src/logic.rs:515-558 | keeps the invariant and all answers; a strand whose literals are all negative and floundering fails the assertion on remaining subgoals |
| SlgEngine.HopelessStays | chalk-engine/src/logic.rs:767-809 | selection never gets rid of such a strand's subgoals |
| SlgEngine.FlounderedNegation | chalk-engine/src/logic.rs:1425-1429 | a search for the first answer of a one-clause program with a floundering negative condition ends in the failed assertion |
| SlgEngine.SolveState.ReturnFromTable | chalk-engine/src/logic.rs:1025-1058 | goes on with the caller, or at the root queues a refinement strand exactly if the answer has delayed subgoals |
| SlgEngine.SolveState.OnNoStrandsLeft | chalk-engine/src/logic.rs:1141-1272 | no more solutions exactly for an exhausted root; ambiguous answers are allowed before cycles are considered; a cycle continues with the caller exactly if it reaches below the table; panics exactly on a positive cycle that cannot be cleared; a cycle counts as closed exactly if no returned strand reaches below the top |
| SlgEngine.SolveState.OnCalleeFailed | chalk-engine/src/logic.rs:1149-1196 | a failed positive subgoal ends the caller's strand and no other; a failed negative one is removed |
| SlgEngine.SolveState.OnCycleWithoutAnswers | chalk-engine/src/logic.rs:1208-1229 | a negative cycle only unwinds; a positive one clears everything reachable from the table and then unwinds, and panics exactly if a strand reached has no selected subgoal |
| SlgEngine.SolveState.OnPartOfCycle | chalk-engine/src/logic.rs:1230-1271 | the caller takes over the minimums and its strand returns to its table, which then reaches wherever the callee's strands did |
| SlgEngine.SolveState.Step | chalk-engine/src/logic.rs:508-560 | one round of the search loop keeps the invariant, the root, and all answers; no strand is lost without a reason and the pursued one is followed up; a failed assertion is one of few for definite programs; says exactly which failure applies in which state |
| SlgEngine.SolveState.EnsureRootAnswer | chalk-engine/src/logic.rs:482-562 | over whole runs: the requested answer is found at its index, or the failure is exactly what makes a step of the run fail, and an exhausted table always says so; answers only grow; the tables change only by steps that lose no strand without a reason; a cached answer is found without any change |
| SlgEngine.SolveState.RootAnswerSearch | chalk-engine/src/logic.rs:84-118 | the stack is empty afterwards; an unambiguous answer is derivable by plain resolution, coinduction included; no strand is lost without a reason; the index requested next is never past the answers |
| SlgStream.ForestSolver.constructor | chalk-engine/src/forest.rs:40-53 | a stream starts at the first answer of the goal's table |
| SlgStream.ForestSolver.Search | chalk-engine/src/logic.rs:84-118 | one search: an answer with delayed subgoals is passed over and no other; a known answer is found without any change |
| SlgStream.ForestSolver.PeekAnswer | chalk-engine/src/forest.rs:67-105 | the next answer without delayed subgoals, skipping exactly the answers that have some; the report is what the last search found, every search before it being one to be retried; peeking again finds the same answer and does no work; an exhausted table has no more answers |
| SlgStream.ForestSolver.NextAnswer | chalk-engine/src/forest.rs:107-111 | after an answer or a floundered goal the stream may be asked again |
| SlgStream.ForestSolver.AnyFutureAnswer | chalk-engine/src/logic.rs:120-139 | true exactly if an answer not handed out yet or a queued strand passes the test |
| SlgStream.FinishedForGood | chalk-engine/src/logic.rs:482-562 | a table with no candidates left has the same answers in every later state |
| SlgStream.ReportNoRepeats | chalk-engine/src/table.rs:127-160 | an answer reported later has a substitution not reported before |
| SlgStream.ReportSays | chalk-engine/src/solve.rs:60-86 | a substitution is reported as definite, as ambiguous, or as floundered exactly if there is an answer without delayed subgoals of that kind |
| SlgStream.ForestSolver.ReportNext | chalk-engine/src/solve.rs:60-86 | one more solution is reported, and if its flag says that none follows, the report is complete and stays so |
| SlgStream.ForestSolver.PeekFurther | chalk-engine/src/solve.rs:82-85 | looking for another solution leaves the report as it is, and if there is none the report is complete for good |
| SlgStream.ForestSolver.SolveMultiple | chalk-engine/src/solve.rs:53-88 | no substitution is reported twice, definite results are derivable, a complete run reports every answer without delayed subgoals exactly once and in order, and the flag that none follows is truthful and is set exactly if the stream has said so; the caller's wish, the budget and failed assertions end a report only if they apply |
| SlgSolution.FinerIsRefining | chalk-engine/src/slg/resolvent.rs:215-257 | being an instance is a preorder that merging answers into strands respects |
| SlgSolution.LaterAnswersUnchanged | chalk-engine/src/slg/aggregate.rs:83-113 | in every later state, the answers that came in the meantime leave linear guidance that tested negative as it is |
| SlgSolution.NotExactly | chalk-engine/src/slg/aggregate.rs:38-76 | a second answer, an ambiguous one or a floundered goal rules out a unique solution in every later state |
| SlgSolution.FindGuidance | chalk-engine/src/slg/aggregate.rs:77-113 | the guidance is what all answers drawn have in common; if it is definite, everything that can still become an answer has tested negative; if it is trivial, no answer would change it; a suggestion, running out of answers and breaking off each need their reason |
| SlgSolution.MakeSolution | chalk-engine/src/slg/aggregate.rs:27-121 | unless the budget or an assertion has cut the search short, no solution and a unique one are returned exactly for an exhausted table with no answer or with just that one, unambiguous, which is derivable; guidance is what the answers drawn have in common, and definite guidance is conclusive; an inconclusive outcome needs its reason |
| SlgSolution.KeepDrawing | chalk-engine/src/slg/aggregate.rs:77-113 | drawing on after definite guidance leaves linear guidance as it is, unless the goal flounders, which leaves the identity |
| SlgSemantics.StepImplied | chalk-engine/src/slg/resolvent.rs:215-257 | a sound resolution step keeps the implication a strand stands for true |
| SlgSemantics.DerivedIsImplied | chalk-engine/src/slg.rs:21-30 | without coinductive goals, everything derived is implied in every interpretation closed under the clauses |
| SlgSemantics.DerivableHolds | chalk-engine/src/slg.rs:21-30 | without coinductive goals, every derivable answer holds in every interpretation closed under the clauses, whatever its variables stand for |
| Folding.Agree | chalk-ir/src/fold.rs:345-460 | two pairs of folds that treat free variables alike treat all values alike, errors included |
| Folding.KeepKeeps | chalk-ir/src/fold.rs:137-191 | the default folder changes nothing |
| Folding.ShiftCompose | chalk-ir/src/fold/shift.rs:32-43 | shifting in twice is shifting in once by the sum |
| Folding.ShifterShifts | chalk-ir/src/fold/shift.rs:58-107 | shifting in by folding never fails |
| Folding.ShiftRoundTrip | chalk-ir/src/fold/shift.rs:122-185 | shifting out is exactly the inverse of shifting in, and succeeds exactly on values that do not mention the binders left |
| Folding.FoldDefined | chalk-ir/src/fold.rs:345-460 | a fold that fails exactly on the variables outside a scope fails exactly on the values that mention one |
| Folding.SubstituteDefined | chalk-ir/src/fold/subst.rs:54-119 | substituting succeeds exactly if there are as many arguments as variables and every variable of the binder that occurs has an argument of its own sort |
| Folding.ApplyDefined | chalk-ir/src/lib.rs:2839-2883 | applying a substitution succeeds exactly if only its own variables occur, each with a value of its own sort |
| Folding.ApplyCompose | chalk-ir/src/lib.rs:2839-2883 | applying two substitutions is applying their composition, errors included |
| Folding.IdentityApplies | chalk-ir/src/lib.rs:2694-2712 | an identity substitution changes no canonical value |
| Folding.IdentityExactly | chalk-ir/src/lib.rs:2450-2480 | the trivial substitution is an identity, and a substitution is one exactly if it leaves the tuple of all variables alone |
| Folding.SubstAfterShift | chalk-ir/src/fold/subst.rs:54-75 | substituting into a value shifted in through the disappearing binder gives the value back |
| Folding.FuseThenSubstitute | chalk-ir/src/lib.rs:2211-2257 | substituting level by level equals substituting everything at once into the fused binders, errors included |
| Aggregate.InstanceIffMatches | chalk-engine/src/slg/aggregate.rs:219-228 | for linear terms being an instance is a matter of structure |
| Aggregate.AntiUnifyGeneralizes | chalk-engine/src/slg/aggregate.rs:235-573 | the anti-unifier yields a well-kinded linear term with fresh variables that both inputs match |
| Aggregate.AntiUnifyMostSpecific | chalk-engine/src/slg/aggregate.rs:235-573 | whatever generalizes both terms, with variables for their fn-pointer and dyn types, generalizes their anti-unification |
| Aggregate.MergeGeneralizes | chalk-engine/src/slg/aggregate.rs:131-185 | merged guidance is canonical and linear, and both inputs are instances of it |
| Aggregate.MergeExactly | chalk-engine/src/slg/aggregate.rs:131-185 | for all inputs: with variables for top-level lifetimes and for fn-pointer and dyn types, a linear substitution generalizes both inputs if and only if it generalizes the merged guidance |
| Aggregate.MergeMostSpecific | chalk-engine/src/slg/aggregate.rs:131-185 | without lifetimes and binder types, merged guidance is an instance of every linear substitution that both inputs are instances of |
| Aggregate.MergeAllAnyOrder | chalk-engine/src/slg/aggregate.rs:79-113 | any two or more answers lead to the same guidance in any order and with any repetition |
| Aggregate.StaysValid | chalk-engine/src/slg.rs:129-377 | a negative test stays negative under instantiation |
| Aggregate.ValidMergeUnchanged | chalk-engine/src/slg/aggregate.rs:131-185 | merging an answer that tests negative leaves canonical guidance as it is |
| Aggregate.NegativeTestConclusive | chalk-engine/src/slg.rs:116-123 | for linear guidance, no instance of a candidate that tests negative makes the guidance more general |
| Aggregate.ConclusiveExactly | chalk-engine/src/slg.rs:116-377 | every candidate that tests negative is an instance of the guidance if and only if the guidance is linear, or mentions a lifetime, fn-pointer or dyn type and never tests negative |
| Aggregate.RepeatedVariable | chalk-engine/src/slg.rs:148-160 | guidance `(X, X)` and answer `(A, B)`: the test is negative, yet the answer is no instance |
| Aggregate.InstanceUnchanged | chalk-engine/src/slg/aggregate.rs:131-185 | instances of a candidate that tests negative leave linear guidance unchanged |
| Aggregate.TrivialIsFinal | chalk-engine/src/slg/aggregate.rs:79-84 | no answer changes trivial guidance |
| Aggregate.IdentityForgets | chalk-engine/src/slg/aggregate.rs:96-103 | merging the answer of a floundered goal leaves nothing of the guidance |
| Combine.CombinedIsJoin | chalk-solve/src/solve.rs:64-100 | solutions are partially ordered and combining two is their join |
| Combine.JoinExtends | chalk-solve/src/solve.rs:64-88 | combining with one more solution is the join of all |
| Combine.CombineAllIsJoin | chalk-recursive/src/combine.rs:7-38 | with fixed inputs the combination is the join of the high-priority solutions if there are any, and otherwise of the low-priority ones |
| Combine.AnyClauseOrder | chalk-recursive/src/solve.rs:153-193 | with fixed inputs the order and repetition of clauses do not matter |
| Combine.InputsMakeOrderMatter | chalk-recursive/src/combine.rs:14-36 | for inputs that differ for some substitution, two orders of the same three solutions give different outcomes |
| Combine.OrderIrrelevantExactly | chalk-recursive/src/combine.rs:7-51 | all permutations of all results agree if and only if the inputs do not depend on the solution |
| Combine.HighOverridesExactly | chalk-recursive/src/combine.rs:14-51 | for all forms of solutions, a high-priority solution overrides a low-priority one exactly if their substitutions give the goal the same inputs; otherwise nothing is known, at high priority |
| Combine.OneHigh | chalk-recursive/src/combine.rs:7-51 | one high-priority solution and any number of low-priority ones, in the order of the clauses, for inputs that depend on the solution |
| Combine.UnknownStays | chalk-recursive/src/solve.rs:156-160 | once nothing is known at high priority nothing changes any more |
| Combine.SolveFromClauses | chalk-recursive/src/solve.rs:153-193 | stopping early makes no difference for any goal, and with fixed inputs the result is the join of the preferred solutions |
| Flatten.FlatteningKeepsValue | chalk-engine/src/simplify.rs:35-139 | the three-valued meaning of a goal, with negation, is that of its literals and its ambiguity |
| Flatten.SimplifyGoal | chalk-engine/src/simplify.rs:35-139 | the stack worklist yields exactly the goal's literals with their environments, and is ambiguous exactly if something cannot be proved |
| Flatten.PushAll | chalk-engine/src/simplify.rs:64-68 | pushing the parts of a conjunction adds exactly their literals to what is pending |
| Flatten.Fulfill.PushGoal | chalk-recursive/src/fulfill.rs:282-346 | the obligations grow by the goal's literals that are not too large; something cannot be proved exactly if the goal says so or a literal is too large |
| Flatten.FlattenBothWays | chalk-engine/src/simplify.rs:35-139 | when nothing is truncated both solvers work on the same literals and agree on ambiguity |
| EnvClosure.ElaborateEnvClauses | chalk-solve/src/clauses/env_elaborator.rs:23-40 | a round adds exactly what elaborating its clauses adds |
| EnvClosure.ProgramClausesForEnv | chalk-solve/src/clauses.rs:1104-1131 | the result is the least set that contains the environment and is closed under elaboration; terminates whenever a finite closed set exists |
| MatchFilter.CommonInstanceMatches | chalk-ir/src/could_match.rs:24-190 | if instances of two terms normalize to the same term, aliases anywhere standing for any type, the filter lets them pass |
| MatchFilter.FilterExactly | chalk-ir/src/could_match.rs:24-190 | for linear terms without aliases, binders and placeholders, what passes the filter has a common instance if and only if types in the same position have the same form and constants agree, which the filter does not compare |
| MatchFilter.FilterClauses | chalk-recursive/src/solve.rs:127-151 | filtering keeps every clause whose head has an instance in common with the goal, and of the heads the filter can compare only those |

## Left out

- RecursiveSolver.RecursiveContext.AnswerFromGraph: the search ends where the code goes on with the error value of a mixed cycle, because there is no fixed point that the code promises to compute from there on; `MixedCycles` follows the code further for one program.
- RecursiveSolver.RecursiveContext.SolveNewSubgoal: the search ends where the loop stops early; what the code makes of the values left behind is not modelled beyond `AmbiguousCycle`.
- RecursiveSolver.RecursiveContext.constructor: asks for monotone steps, and for no more goals than depth-first numbers.
- RecursiveSolver.RecursiveContext.SolveIteration: what an iteration asks next is a function of the answers so far; `HornModels` gives it for propositional clauses. Priorities and the early stop of the clause loop are modelled in `Combine`.
- HornModels.StepIsConsequence: one pass over the conditions, since propositional conditions are solved or fail and are never ambiguous.
- The limit on goal size in the recursive solver; sharing one cache between several solvers, and locking.
- SLG soundness for negative literals, and a model theory for coinductive derivations; SLG completeness and termination, which the engine does not promise: searches take a bound on the number of steps.
- SlgEngine.SolveState.EnsureRootAnswer: `maxSteps` bounds the rounds of a loop that has no bound of its own; reaching it ends the search like any other exit.
- SlgStream.ForestSolver.PeekAnswer: `rounds` stands for how often the caller lets the search continue; a negative cycle is the outcome `StreamPanicked`.
- SlgStream.ForestSolver.SolveMultiple: `limit` bounds the number of solutions drawn; a run that reaches it ends with `OutOfBudget`.
- SlgSolution.MakeSolution: `limit` bounds the number of answers merged (`OutOfAnswers`); the check of the expected number of answers is not modelled. `Faithful` asks that merging an answer into a strand instantiates its substitution.
- SlgSemantics.DerivableHolds: asks that no goal be coinductive; that resolution and clauses are sound is a hypothesis, since both are parameters of the model.
- Assertions of the engine that depend on completeness or on clause generation are outcomes of the model (`PanicReason`), not proved absent.
- Unification, canonicalization, universes, truncation and the abstraction of literals: functions of `SlgContext.Context`.
- Universes of fresh variables in anti-unification, and the types of constants, which are taken to be equal where kinds agree.
- Folding.Agree: the five folders of the term library that rename or replace variables; inference variables and placeholders are plain symbols.
- Quantifiers, equalities and subtype goals in flattening: they depend on the state of the inference table.
- The content of elaboration in `EnvClosure`: clause generation is a parameter.
- Parsing, lowering, coherence, well-formedness checks, built-in traits, display code and the REPL.
- Overflow of clocks, answer indices and de Bruijn depths.
