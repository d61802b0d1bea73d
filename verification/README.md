# C& in Dafny

C& checks that C code destroys every heap object at most once and never reads a dead one. Its promise
is that PASS is never wrong. This project models the decision procedures behind that promise and proves
what they guarantee.

## The flow analysis

`Flow` is the lattice: storages bound to object identities, object states, borrows, generations per
allocation site, widened sites, and pending out-owner guards, with their joins. `Transfer` says what one
element of a basic block and one branch edge do to a state. An expression around earlier elements, such as
the assignment in `y = *b`, is an element of its own that mentions their variables again (`Enclosing`), so
that a borrow it mentions is still live at the inner one. `Analyzer` is the analyser itself, an object
whose methods update states, queue and reports in place; each method is proved against `Transfer`.
`Liveness` is the backward borrow-liveness analysis.

What is proved of it, in this order:

- **It terminates, in a post-fixed point** (`Height`, `Bounded`, `Worklist`, `Analyzer`). Nothing is
  assumed about the monotonicity of transfers. Every state that is queued rose in a bounded order.
- **Borrow liveness is exact** (`Liveness`): it agrees with paths in the control-flow graph.
- **Identities are fresh** (`Ownership`), in every state that elements, edges and joins can produce.
- **Owners are unique** (`Ownership`, `Owners`) in every such state of a program without out-owner calls.
  With them, elements and joins still keep owners unique, and an edge does exactly when its refinement
  makes no second storage the owner of an object. It can:
  `w = malloc(n); out = NULL; if (f(&out)) out = w; if (out) ...` (`Owners.ObjectCanHaveTwoOwners`).
- **The two passes agree** (`Renaming`, `Agreement`). The reporting pass forgets borrows that the
  converging pass keeps, and creates borrows that the converging pass refuses because of those. As long as
  it is silent, both nevertheless leave the same storages and objects, up to the names of objects. A kept
  borrow can influence an allocation only on a cycle, and there the generation it would cause has already
  come round; and a borrow that is still moved from is not forgotten.
- **Guards tell the truth** (`Guards`): while a guard survives, its variable holds the result of the
  latest producing call for its slot, and the slot is as that call left it. `GuardLimits` says exactly
  which elements keep guards true.
- **No violation goes unnoticed** (`Execution`, `Soundness`, `Verdict`). `Execution` runs programs on
  machines with a heap; branches are taken as their conditions allow. For a program in scope that meets
  the first of the two further conditions below, whether it passes or not, the first violation of any run
  comes at or after an element of that run at which the reporting pass says something or drops a move
  without a word. So if it passes and no move was dropped, it has no violating run.
- **Destructions of borrowed objects** (`Borrowed`): which are reported, and when all are. What counts as a
  use is judged by execution (`Uses`): an element mentions exactly the variables on which what it does
  depends and those that its text names besides, and a variable that no path uses before overwriting it
  has no influence on any run from there on.

These are guarantees that nothing is missed. The others say that nothing is reported without reason:

- **Every report has its cause** (`Causes`): for each kind of element, which reports are made in which
  states, exactly.
- **What happened is remembered** (`Aftermath`): after a move, a destruction or a borrow, and whatever
  happens in between, what every later use of the variables concerned is reported as.
- **Straight-line code is judged by its text** (`StraightLine`): it passes exactly if no element breaks a
  rule, where who holds, owns and has freed what is read off the text.
- **Joins and edges give nothing away** (`Meanings`, `Refinement`, `Productions`): a join is the least state
  that covers both sides; an edge makes an unrefined slot an owner exactly if every result, or value, that
  its condition allows means that the slot was written; and a checked call can be used exactly on the
  edges on which it has succeeded.

What a program must satisfy to be in scope (`Verdict.InScope`) can be read off its text:

- allocation sites are numbered 1 to 999999, one per call expression. From 1000000 on,
  identities no longer decode to their site (`Ownership.LargeSitesCollide`);
- a producing call that the analyser would accept lies on no cycle of the graph: production has no
  retained-reference check;
- a variable that is declared as a borrow has no other declaration, and a call is one production;
- a condition on a producing call follows that call, which writes only on success. `FalseGuards` gives a
  program that passes and goes wrong because it asks a call that always writes;
- variables that receive results are not slots.

Two further conditions concern what the analysis meets, and for each there is a program that satisfies
everything else, passes, and has a run that destroys an object twice.

- No declaration resets a variable that a surviving guard is about (`FreshDeclarations`; the program is
  in `FalseGuards`). It holds of its own accord if control does not come back from a producing call to
  the declaration of a variable it involves, except around a loop, whose head forgets guards.
- No move is dropped without a report (`NoSilentMove`; the program is in `SilentMoves`). A move from an
  unresolved source is dropped, which does no harm if its target is unresolved too, or holds at best a
  dead object and nothing else can hold one. `SilentMoves.SilentMoveLosesMachine` shows that the
  condition is exact at an element: a move without a report makes the state lose a machine if and only if
  it counts as silent. The condition holds of its own accord in programs without moves.

A borrow that only the reporting pass creates is not tracked by the liveness analysis. `MissedBorrows` and
`RefusedMoves` give two programs, one with a mutable borrow and one with a move, whose destruction of a
borrowed and still used object goes unreported for that reason.

`Dead` is not a promise that an object is dead. `Soundness.ObjectFits` says why.

## Function summaries

`Syntax` is the tree of a function body. `Origins` is the resolver that says which parameter's object a
pointer expression points into, with an evaluation relation to judge it by. It is right for every plain
expression; three lemmas give expressions that it accepts although their values escape: integers cast to
pointers, pointers added as integers, arrays inside temporaries. Its comments speak of arrays and records
only; the code strips integer casts too, and the model follows the code. `Resolution` says exactly which
plain expressions it accepts; `p->array + n` is not among them, because the array is no pointer once its
cast is stripped.

`Summaries` and `Builder` are the scan of a body. What a summary is worth:

- **Effects are exact** (`Touches`, `SummaryFacts`). In a summary without conflict the effect of a
  parameter is what its own uses, in the order of the scan, make of its annotation; whether it ends at most
  borrowed, destroyed or taken over is said exactly, with a simpler condition for borrowed parameters that
  do not point to pointers.
- **Results are exact** (`Results`): from the returns of the body, when the result is owned, borrowed,
  unknown or none, and when it is a conflict.
- **No consuming use is forgotten in an argument that contains the parameter**, or that is a local
  initialised with it, never assigned and without its address taken. Through a second such local it is:
  `T *q = p; T *r = q; free(r);` leaves `p` borrowed (`SummaryLimits.ChainedCopyIsSaidToBorrow`).
- **A result that is said to borrow from a parameter comes from it**: the resolver found that parameter
  in the returned expression, or in the argument that a call hands through, and the body never assigns the
  parameter. It need not point into the object that the parameter pointed to on entry, in two ways:
  `return (T *)p->handle;` returns an integer, and `T **q = &p; *q = other; return p;` changes `p` without
  assigning it (`SummaryLimits`). `Holdings` defines what a parameter can hold while the body runs and says
  exactly which expressions stay with the entry object; `SummaryFacts.BorrowedResultIsRight` gives that
  condition for results: every source of the value is the parameter or null, and, unless all are null, the
  body does not both take the parameter's address and store through a pointer or call something.

`Rounds` is the bounded iteration over a translation unit.

## Smaller procedures

- `ContractText`, `ContractFile`: the contract-file parser from the characters of a line up.
  `ContractReading` says, of the lines alone, which files fit and what they state; `ContractExact`,
  `ContractBody` and `ContractFiles` prove that exactly these are accepted and read so, in whatever order
  and spelling. `ContractFacts` and `ContractPrinter` add a canonical printer and the exact set of maps that
  files can state.
- `Components`: the iterative strongly connected components of `scripts/pilots/cross_tu_pareto.py`.
- `Amalgam`: the line map of an amalgamation and its inverse.
- `Policies`, `Paths`, `Quoting`: policy comparison, path normalisation and shell quoting.

## Conventions

Storages, blocks, positions and names are numbered. A position is the rank of a (file, line, column)
triple, so that the least of two positions is the smaller number. The profile is `cand1` with pointer
output contracts. `decl` marks the initialiser of a declaration. A pruned successor keeps its edge number.

`dafny verify dfyconfig.toml` checks everything.

## Model

| member | source | states |
|---|---|---|
| Flow.JoinKeepsWf | src/cand.cpp:893-939 | Joins keep bindings well formed: the null id occurs with `Null` and only there, the unresolved id only with `Unknown` |
| Flow.JoinIdempotent | src/cand.cpp:987-1050 | Joining a state with itself changes nothing, in any of its six maps |
| Flow.AbsorbsJoined | src/cand.cpp:987-1050 | A join has absorbed its right operand |
| Flow.LeftAbsorption | src/cand.cpp:987-1050 | What a state has absorbed it goes on absorbing whatever is joined in next, although the join is not commutative |
| Meanings.JoinStateIsLeast | src/cand.cpp:852-881 | The joined object state covers what either side says may be the case, and nothing that does so covers less |
| Meanings.JoinBindingIsLeast | src/cand.cpp:893-939 | So does the joined binding |
| Meanings.JoinIsLeast | src/cand.cpp:987-1050 | A state covers the join of two states exactly if it covers both: storages, objects, borrows, counters and guards |
| Height.HeightIsBounded | src/cand.cpp:958-976 | States over a finite program have a bounded height |
| Height.JoinRaises | src/cand.cpp:893-1050 | A join that changes a state strictly raises its height: bindings, objects, borrows, generations and widenings rise, guards and minimum positions fall |
| Bounded.RunWithin | src/cand.cpp:4112-4126 | No element of a block leaves the finite universe of the program |
| Bounded.EdgeWithin | src/cand.cpp:4072-4077 | No edge refinement leaves that universe |
| Liveness.UsedAfterIsSolution | src/cand.cpp:3918-3945 | The path-defined liveness solves the equations of the loop |
| Liveness.SolutionIsComplete | src/cand.cpp:3918-3945 | Every solution of the equations contains every storage that some path uses before overwriting it |
| Liveness.LeastSolutionIsExact | src/cand.cpp:3891-3953 | A solution below the path-defined one is exact at every point |
| Liveness.BorrowLiveness.LiveAtEnd | src/cand.cpp:3926-3933 | The live set at a block end is the union over its successors |
| Liveness.BorrowLiveness.Transfer | src/cand.cpp:3891-3916 | The backward walk over a block, with and without recording, against the gen/kill equations |
| Liveness.BorrowLiveness.RefreshBlock | src/cand.cpp:3923-3943 | A changed table entry shrinks the room that is left; an unchanged block satisfies its equations |
| Liveness.BorrowLiveness.Compute | src/cand.cpp:3918-3953 | The do-while terminates, and a storage is recorded live after an event exactly when some path from there uses it before any kill |
| Worklist.SuccessorGains | src/cand.cpp:4071-4087 | A successor that gains something shrinks the room left above all in-states |
| Worklist.WorklistSkip | src/cand.cpp:4048-4051 | Skipping a block whose out-state is unchanged keeps every record of absorbed edges valid |
| Worklist.WorklistFlow | src/cand.cpp:4052-4087 | Flowing a new out-state keeps in-states reachable and bounded, out-states recorded, and makes progress |
| Worklist.EmptyWorklistIsPostFixed | src/cand.cpp:4024-4088 | An empty worklist means a post-fixed point |
| Analyzer.JoinStates | src/cand.cpp:987-1050 | The loops of the join compute the join of all six maps, with their different readings of absence |
| Analyzer.FlowAnalyzer.HasRetainedGenerationReference | src/cand.cpp:3151-3167 | The scan for retained references answers whether any other storage or borrow refers to the site |
| Analyzer.FlowAnalyzer.BindAllocationInPlace | src/cand.cpp:3080-3118 | Allocation with generations and widening, in place |
| Analyzer.FlowAnalyzer.MoveBinding | src/cand.cpp:2321-2411 | Moves: every refusal and the transfer of ownership |
| Analyzer.FlowAnalyzer.CreateBorrowInPlace | src/cand.cpp:1938-1969 | Creating a borrow: unknown parents, conflicts, success |
| Analyzer.FlowAnalyzer.InvalidateBorrowsInPlace | src/cand.cpp:1971-1978 | Exactly the live borrows of the destroyed object become invalid |
| Analyzer.FlowAnalyzer.ExpireBorrowUses | src/cand.cpp:1991-1997 | Exactly the borrows that are not live after the point are dropped |
| Analyzer.FlowAnalyzer.CheckAccess | src/cand.cpp:2039-2117 | An access changes nothing and reports what the ordered tests say, borrow tests first |
| Analyzer.FlowAnalyzer.ReportLiveBorrows | src/cand.cpp:2182-2192 | One report for every live borrow of the destroyed object |
| Analyzer.FlowAnalyzer.HandleFree | src/cand.cpp:2119-2239 | Destruction: the whole new state and every report |
| Analyzer.FlowAnalyzer.KillPendingGuardsForWrite | src/cand.cpp:2889-2902 | A write ends the guards it concerns, except its own call's |
| Analyzer.FlowAnalyzer.KillPendingGuardsInCall | src/cand.cpp:2867-2882 | A call ends the guards whose slot its arguments mention |
| Analyzer.FlowAnalyzer.ApplyOutOwnerProduce | src/cand.cpp:2650-2674 | An accepted production binds its slot and ends older guards of it |
| Analyzer.FlowAnalyzer.HandleProduce | src/cand.cpp:2929-3016 | A producing call: acceptance, kills, binding, new guard, store of the result |
| Analyzer.FlowAnalyzer.ProcessElement | src/cand.cpp:4208-4330 | One element of a block: new state, reports and new borrows |
| Analyzer.FlowAnalyzer.TransferInPlace | src/cand.cpp:4112-4126 | One block, element by element |
| Analyzer.FlowAnalyzer.FlowToSuccessors | src/cand.cpp:4069-4087 | Per-edge refinement, guard clearing at loop heads, join, and queueing of successors that gained |
| Analyzer.FlowAnalyzer.Visit | src/cand.cpp:4025-4087 | One turn of the loop keeps the invariant and shrinks the measure (room left, queue size), with no monotonicity assumed of the transfers |
| Analyzer.FlowAnalyzer.Converge | src/cand.cpp:4015-4088 | Convergence terminates in a post-fixed point whose in-states all arise along paths, and reports nothing |
| Analyzer.FlowAnalyzer.EmitDiagnostics | src/cand.cpp:4092-4109 | The reporting pass reports exactly what the converged states give |
| Analyzer.FlowAnalyzer.Run | src/cand.cpp:4015-4110 | Both passes: post-fixed in-states, exact borrow liveness, and exactly the emitted reports |
| Ownership.IdentityNamesItsSite | src/cand.cpp:3137-3149 | Identities do not wrap, stay below the parameter range, and decode to their site exactly when the site is below the stride |
| Ownership.LargeSitesCollide | src/cand.cpp:3137-3157 | For larger sites they do not: two sites share an identity |
| Ownership.AllocationIsFresh | src/cand.cpp:3080-3118 | In a good state an allocation gives up with a report or takes an identity that no other storage and no borrow refers to |
| Ownership.ReachableAllocationIsFresh | src/cand.cpp:3080-3118 | So it does in every state that elements, edges and joins of a program can produce |
| Ownership.ReachableOwnerIsUnique | src/cand.cpp:2321-2411 | In every such state of a program without out-owner calls, at most one storage owns an object |
| Owners.EdgeUniqueExactly | src/cand.cpp:2698-2832 | With out-owner calls, an edge keeps owners unique exactly when its refinement makes no second storage the owner of an object |
| Owners.OwnerIsUnique | src/cand.cpp:2650-2832 | So at most one storage owns an object at every point that is reached without such an edge |
| Owners.ObjectCanHaveTwoOwners | src/cand.cpp:2698-2744 | Otherwise not: a program in scope, without moves, that comes to a state in which two variables own one object |
| Guards.StepPending | src/cand.cpp:2848-2902 | Every guard after an element was there before and untouched by it, or was recorded by it |
| Guards.ArrivedUnguarded | src/cand.cpp:4072-4077 | A guard on a variable is pending at a block only downstream of a call for it, loop heads excepted |
| Guards.CallTellsTheTruth | src/cand.cpp:2605-2643 | After an accepted call that writes on success, a failing result means that the slot holds no object |
| Guards.SurvivesExactly | src/cand.cpp:2848-2902 | The guards that outlive an element, by the kill rules on the state before it, are exactly those that it leaves and has not recorded itself |
| Guards.StepKeepsGuards | src/cand.cpp:2867-3016 | Every modelled element keeps every pending guard true, unless it resets a variable that a surviving guard is about |
| Guards.JoinKeepsGuards | src/cand.cpp:1043-1048 | So do joins, which intersect |
| GuardLimits.ExactlyFreshDeclarationsKeepGuards | src/cand.cpp:2884-2902 | An element keeps every pending guard true in every machine exactly when it gives no new value to a variable that a guard which outlives it is kept in or testifies about; declarations end no guards |
| FalseGuards.StaleDeclarationCanBeAFalsePass | src/cand.cpp:3235-3363 | A declaration reached again by a goto under a guard: a program in scope that passes and destroys an object twice |
| FalseGuards.UnsignalledCallCanBeAFalsePass | src/cand.cpp:2803-2813 | A condition on a `write: always` call: a program otherwise in scope that passes and destroys an object twice |
| Soundness.JoinRepresents | src/cand.cpp:893-1050 | A join represents every machine its right operand represents |
| Soundness.MallocSound | src/cand.cpp:3439-3448 | An assignment from an allocation without a report: the new state represents the machine after it, under a naming in which the new object is fresh |
| Soundness.CopySound | src/cand.cpp:3455-3480 | A pointer copy without a report keeps the state representing the machine |
| Soundness.BorrowSound | src/cand.cpp:3271-3305 | So does a borrow-annotated declaration |
| Soundness.StepSound | src/cand.cpp:2039-3118 | An element without a report, unless it is a dropped move, is safe, and the state after it represents the machine after it |
| Soundness.RefineSound | src/cand.cpp:2749-2832 | On the edge a run takes, refinement by `==K`, `!=K`, truthiness and any number of `!` keeps the state representing the machine |
| Soundness.RefineAgrees | src/cand.cpp:2698-2832 | On such an edge a slot whose binding changes was an unrefined production; it becomes an owner only if the result of its latest call means success, and null only if it means failure; in a null check, only if the slot compares so |
| Soundness.VisitSound | src/cand.cpp:4112-4126 | The same along every prefix of a block |
| Soundness.RunSound | src/cand.cpp:4015-4110 | The in-state of every block a run reaches represents the machine there, as long as the run has met no report |
| Soundness.FirstViolationIsReported | src/cand.cpp:4092-4109 | No silent element of such a run violates |
| Agreement.MentionedDownstream | src/cand.cpp:3151-3167 | A state refers to an allocation site only downstream of it |
| Agreement.PathRaises | src/cand.cpp:4069-4087 | Generations and widenings flow along paths of the post-fixed point |
| Agreement.BorrowsDoNotDecide | src/cand.cpp:3090-3101 | A borrow that only the converging pass keeps decides no allocation |
| Renaming.StepRenamed | src/cand.cpp:1980-1997 | An element at which the reporting pass is silent keeps the two passes' states alike up to object names, unless a reference retained or a borrow kept by one of them decides it |
| Agreement.MoveNotRefused | src/cand.cpp:2334-2338 | A move that the converging pass refuses because of a borrow is refused in the reporting pass too, as long as that has been silent |
| Agreement.PassesDoAgree | src/cand.cpp:1980-1997 | Wherever the reporting pass is silent in a block, it ends the block with the converging pass's storages, objects and guards up to the names of objects, although one forgets borrows |
| Verdict.NoViolationUnnoticed | src/cand.cpp:4015-4110 | For every program in scope whose declarations meet no guard that outlives them, passing or not, the first violation of any run is at or after an element of that run with a report or a dropped move |
| Verdict.NoFalsePass | src/cand.cpp:4015-4110 | If such a program passes and no move was dropped, no run destroys or reads a dead object |
| Verdict.NoFalseGuard | src/cand.cpp:945-957 | Along a run that has met no report, a surviving guard's variable holds the result of the latest call for its slot, the slot is untouched since, and is empty if the result says failure |
| Verdict.NoFalseRefinement | src/cand.cpp:2698-2832 | On the edge that such a run takes, a slot called null holds no object; a slot becomes an owner only if the latest call for it succeeded and null only if it failed, or, in a null check, if the slot compares so |
| Verdict.NoFalsePassWithoutMoves | src/cand.cpp:4015-4110 | PASS without conditions on computed states, for programs without moves in which control does not come back to a declaration under a guard |
| Verdict.Check | src/cand.cpp:4015-4110 | The analysis as a whole: its verdict and what it is worth |
| Borrowed.DestructionReportsUsedBorrows | src/cand.cpp:2182-2192 | B001 is reported for a borrow exactly when it is a live borrow of the destroyed object that some path of the program still uses before overwriting it, and the converging pass created it |
| Borrowed.UsedSharedBorrowsAreReported | src/cand.cpp:2182-2192 | Without mutable borrows, and with no report before it in the block, exactly when some path still uses it |
| Borrowed.UsedBorrowsAreReported | src/cand.cpp:2182-2192 | Without mutable borrows and moves, exactly when some path still uses it |
| MissedBorrows.UsedBorrowCanBeMissed | src/cand.cpp:3754-3760 | A program in scope without moves in which a live borrow that only the reporting pass creates is used after its object is destroyed, and not reported |
| RefusedMoves.UsedSharedBorrowCanBeMissed | src/cand.cpp:2334-2338 | The same without mutable borrows, because a move that only the converging pass refuses makes the passes disagree |
| Uses.MentionsExactly | src/cand.cpp:3754-3803 | An element mentions a variable exactly if what it does depends on the variable's value or its text names it as assignment target, operand, argument or in an enclosing expression |
| Uses.OverwrittenExactly | src/cand.cpp:3805-3830 | It overwrites what every execution of it assigns, except scalar declarations and slots of calls |
| Uses.CondMentionsExactly | src/cand.cpp:3779-3803 | A condition mentions the variable that its value depends on, or the slot of the call it asks |
| Uses.UnusedDoesNotMatter | src/cand.cpp:3918-3953 | From any point, every run has its like whatever the variables hold that no path uses before overwriting them: same places, same violations |
| SilentMoves.SilentMoveCanBeAFalsePass | src/cand.cpp:2329-2334 | A move from an unresolved source is dropped without a report; a program that satisfies everything else, passes and destroys twice |
| SilentMoves.SilentMoveLosesMachine | src/cand.cpp:2329-2334 | A move without a report loses a machine (represented before, represented under no names after) if and only if its source is unresolved, its target is not, and the target claims something or another storage can hold an object |
| Causes.AccessReportsExactly | src/cand.cpp:2039-2117 | Each report of an access, and the state that causes it |
| Causes.DestructionReportsExactly | src/cand.cpp:2119-2239 | Each report of a destruction |
| Causes.MoveReportsExactly | src/cand.cpp:2321-2411 | Each report of a move |
| Causes.BorrowReportsExactly | src/cand.cpp:1938-1969 | Each report of a borrow |
| Causes.AllocationReportsExactly | src/cand.cpp:3080-3118 | Each report of an allocation |
| Causes.ProductionReportsExactly | src/cand.cpp:2929-3016 | Each report of a producing call: it is refused exactly when its slot cannot be written |
| Causes.ReachableReportsExactly | src/cand.cpp:4208-4330 | In every state that a program with small sites can come to, an element is reported exactly for its causes |
| Causes.EmittedExactly | src/cand.cpp:4092-4109 | The analysis reports something exactly if some element has a cause for it in the reporting pass, so a program passes exactly if none has any |
| Aftermath.CopyExactly | src/cand.cpp:3455-3480 | A copy names what its source names, never as its owner, and as given away exactly if the source is |
| Aftermath.MovedFromIsReported | src/cand.cpp:2090-2098 | After a variable has handed its object over, whatever happens that stores nothing into it: an access is a use after move, a destruction is by a non-owner, a move is a double move |
| Aftermath.JoinKeepsEmptied | src/cand.cpp:893-939 | Across a join that holds exactly if the other side names the same object, not as one that may be null, and as no borrow |
| Aftermath.EdgeKeepsEmptied | src/cand.cpp:2698-2744 | Across an edge always |
| Aftermath.DestroyedIsReported | src/cand.cpp:2102-2233 | After a destruction, whatever happens that stores nothing into a variable which named the object: an access is a use after destruction or of a dead borrow, a destruction is a double one, a borrow has no known parent |
| Aftermath.JoinKeepsDangling | src/cand.cpp:852-881 | Across a join that holds exactly if the other side knows whether the object is alive |
| Aftermath.EdgeKeepsDangling | src/cand.cpp:2698-2744 | Across an edge always |
| Aftermath.BlocksAreFresh | src/cand.cpp:4112-4126 | What the law about destructions asks of sites holds in every block of a program in scope |
| Aftermath.DestroyingExactly | src/cand.cpp:2198-2233 | Which objects a destruction marks dead, or possibly dead |
| Aftermath.BorrowsAfterDestroying | src/cand.cpp:1971-1978 | Which borrows it invalidates |
| Aftermath.LendingExactly | src/cand.cpp:1938-1969 | A borrow is made exactly if its parent is not dead and no live borrow stands in the way, and changes nothing else |
| Aftermath.LentAccess | src/cand.cpp:2021-2037 | While a borrow lives, an access through the owner conflicts with it exactly if it is mutable |
| Aftermath.LentDestruction | src/cand.cpp:2182-2218 | A destruction reports it exactly if it is still used, and it has then outlived its object |
| Aftermath.OutlivedIsReported | src/cand.cpp:1999-2019 | Whatever happens that does not borrow anew, every later access through it is reported |
| Aftermath.BorrowsExactly | src/cand.cpp:1991-1997 | The borrows after an element: those before it and those it makes, without those that a call or unary expression finds unused |
| StraightLine.FirstReportExactly | src/cand.cpp:4092-4126 | In straight-line code the first element that breaks a rule is reported for exactly what it breaks, and nothing before it |
| StraightLine.PassesExactly | src/cand.cpp:4092-4126 | Straight-line code is silent exactly if no element uses what was given away or freed, frees or moves it again, moves what it does not own, overwrites a live owner, or reads what was never stored |
| Refinement.ResultRefinesExactly | src/cand.cpp:2698-2722 | On an edge that asks for a call's result the slot becomes an owner exactly if every result that the condition allows means success, null exactly if every one means failure, and stays as it is otherwise |
| Refinement.NullCheckRefinesExactly | src/cand.cpp:2724-2744 | On an edge that compares the slot with null it becomes an owner exactly if only objects are allowed, and null exactly if only null is |
| Refinement.OthersRefineNothing | src/cand.cpp:2749-2832 | Nothing else is refined |
| Refinement.EdgeRefinesExactly | src/cand.cpp:4072-4077 | The same for what flows along an edge, which drops the guards exactly at loop heads |
| Productions.ProductionLeaves | src/cand.cpp:2650-2674 | An accepted call leaves its slot as owner if it certainly writes an object, and unrefined otherwise |
| Productions.GuardsExactly | src/cand.cpp:2848-2902 | The guards after an element are those that outlive it and the one that an accepted call records |
| Productions.CheckedExactly | src/cand.cpp:2698-2832 | After a checked call the slot is used without a report on exactly the edges on which only success is allowed |
| Refinement.EdgeChecksExactly | src/cand.cpp:4072-4077 | And for a null check |
| StraightLine.ProgramPassesExactly | src/cand.cpp:4015-4110 | A program without branches passes exactly if no element breaks a rule |
| Meanings.LeftLoanWins | src/cand.cpp:1012-1030 | A joined borrow keeps the left side's object and kind |
| Components.Advance | scripts/pilots/cross_tu_pareto.py:438-453 | The inner loop stops at the first new successor or after the last one, keeping the search invariant |
| Components.Retreat | scripts/pilots/cross_tu_pareto.py:454-468 | Leaving a node hands its lowlink to its parent and emits a component if it is a root |
| Components.PopComponent | scripts/pilots/cross_tu_pareto.py:459-467 | The popped nodes are exactly those above the root |
| Components.PoppedIsComponent | scripts/pilots/cross_tu_pareto.py:458-468 | What a root pops is a whole strongly connected component |
| Components.Explore | scripts/pilots/cross_tu_pareto.py:430-468 | The work loop terminates with an empty work list |
| Components.TarjanScc | scripts/pilots/cross_tu_pareto.py:423-469 | For every graph the lists partition the keys, and two keys share a list exactly when each reaches the other |
| Origins.StaysWithExactly | src/cand.cpp:4471-4484 | A pointer expression always evaluates to null or into parameter i's object exactly when every source of its value is that parameter or null |
| Origins.ResolverIsRight | src/cand.cpp:4482-4558 | Whatever plain expression the resolver accepts has only such sources |
| Origins.ResolvedStaysWith | src/cand.cpp:4446-4558 | So every plain expression resolved to parameter i evaluates to null or into its object |
| Origins.IntegerMemberEscapes | src/cand.cpp:4534-4541 | Not so for an integer member cast to a pointer |
| Origins.AddedPointerEscapes | src/cand.cpp:4512-4533 | Nor for a pointer added as an integer |
| Origins.TemporaryMemberEscapes | src/cand.cpp:4493-4500 | Nor for an array inside a conditional record |
| SummaryFacts.BorrowedExactly | src/cand.cpp:4659-4806 | Without conflict, a parameter ends at most borrowed exactly when its annotation says no more and no call in the body may give it away |
| Touches.EffectExactly | src/cand.cpp:4659-4806 | Without conflict, the effect of any parameter is its annotated one changed by its own uses in the order of the scan |
| Touches.RestsExactly | src/cand.cpp:4659-4806 | So any parameter, also one that points to pointers, ends at most borrowed exactly when its annotation says no more and no use harms the effect it has by then |
| SummaryFacts.NoConsumingEffectForgotten | src/cand.cpp:4739-4798 | A parameter that ends at most borrowed occurs in no argument that is freed, in a consuming, destroying or unknown position, or given to a callee without a summary |
| SummaryFacts.NoConsumedAliasForgotten | src/cand.cpp:4755-4777 | Nor is a local that the alias rule resolves to it consumed |
| SummaryLimits.ChainedCopyIsSaidToBorrow | src/cand.cpp:4605-4657 | A copy of a copy is not resolved: a parameter freed through one is said to be borrowed |
| Holdings.KeepsEntryExactly | src/cand.cpp:4581-4602 | A parameter holds its entry value throughout exactly when it is never assigned and not both exposed and within reach of a store or call |
| Holdings.StaysOnEntryExactly | src/cand.cpp:4471-4484 | A pointer expression always evaluates to null or into the object that parameter i pointed to on entry exactly when every source is that parameter or null and, unless all are null, the parameter keeps its entry value |
| SummaryFacts.BorrowedResultIsRight | src/cand.cpp:4669-4713 | If the result is said to borrow from parameter i, every returned pointer is null, a call whose callee says nothing, or has a source in which the resolver finds i; that source stays in the object i pointed to on entry exactly when all its sources are i or null and, unless all are null, i is not both exposed and within reach of a store |
| SummaryFacts.PlainSourceStays | src/cand.cpp:4669-4713 | So it stays there if it is plain and the address of i is never taken |
| SummaryLimits.HandleIsSaidToBorrow | src/cand.cpp:4534-4541 | The summary of `return (T *)p->handle;` says that the result borrows from `p`; it can be any object |
| SummaryLimits.OverwrittenIsSaidToBorrow | src/cand.cpp:4581-4590 | So does the summary of `T **q = &p; *q = other; return p;`, where `p` no longer holds its entry value |
| Touches.ConsumedExactly | src/cand.cpp:4739-4800 | Without conflict, a parameter is said to be destroyed, or taken over, exactly if its annotation says so and nothing else happens to it, or if it is passed on to that after harmless uses only and nothing else happens after |
| Touches.ArgumentTouches | src/cand.cpp:4739-4798 | What an argument does to a parameter: alone in it, among others, or as an alias in a consuming call; under a condition only possibly |
| Resolution.AcceptedExactly | src/cand.cpp:4482-4558 | A plain pointer expression is resolved exactly if it is built in the ways the resolver looks into and every source of its value is one parameter or null |
| Results.VisitsExactly | src/cand.cpp:4669-4675 | The scan judges exactly the returns of pointers that are not null |
| Results.OwnedExactly | src/cand.cpp:4669-4713 | Without annotations the result is owned exactly if nothing is reallocated, some returned pointer is owned and every other one is too or is said to be none: an allocator's or owning callee's result, a never assigned local that starts as one, or a never assigned parameter that was taken over before |
| Results.BorrowsExactly | src/cand.cpp:4669-4713 | It is borrowed from a parameter exactly if some returned pointer is and every other one is too or is said to be none |
| Results.NothingExactly | src/cand.cpp:4386-4423 | It is none exactly if no pointer is returned by type and nothing is said; what is left is unknown |
| Results.ConflictExactly | src/cand.cpp:4650-4657 | It is a conflict exactly if something is reallocated or two returned pointers say different things |
| Results.AnnotatedExactly | src/cand.cpp:4386-4423 | With an annotation the result is the annotated one, and a conflict exactly if the annotation is invalid, something is reallocated, or some returned pointer says otherwise |
| Builder.SummaryBuilder.MarkUses | src/cand.cpp:4661-4668 | Marking the uses of parameters in place |
| Builder.SummaryBuilder.InvolvedParameters | src/cand.cpp:4742-4777 | Which parameters an argument involves, aliases included |
| Builder.SummaryBuilder.ScanCall | src/cand.cpp:4739-4800 | The effects of a call, argument by argument |
| Builder.SummaryBuilder.ScanStatement | src/cand.cpp:4659-4806 | The scan of a statement tree in place |
| Builder.SummaryBuilder.BuildSummary | src/cand.cpp:4386-4423 | The summary of a function from its annotations and body |
| Rounds.ScanAgrees | src/cand.cpp:4659-4806 | A scan depends only on the summaries of the functions its tree calls |
| Rounds.Unsettled | src/cand.cpp:4836-4843 | A summary that still changes in round k+1 starts a call path of k calls |
| Rounds.Settles | src/cand.cpp:4836-4843 | On an acyclic unit of n functions, round n+1 changes nothing |
| Rounds.AllUnknownStarts | src/cand.cpp:4828-4835 | The first fixed point starts from a store of all functions with nothing known |
| Rounds.Iterate | src/cand.cpp:4836-4864 | The bounded loop ends in the store of one round more than there are functions, stable exactly if the last round changes nothing, as in acyclic units; a stable store is unchanged by rebuilding any function |
| ContractText.KeyOfExactly | src/cand.cpp:5189-5341 | A key is recognised exactly when the text is that key |
| ContractText.NumberReadsBack | src/cand.cpp:5108-5116 | Every 32-bit number reads back from its decimal form |
| ContractText.ValuesAreClean | src/cand.cpp:5152-5157 | What follows a key in a trimmed line has nothing to trim and no line break |
| ContractText.NumberExactly | src/cand.cpp:5108-5116 | A text is a number exactly if it consists of blanks, a sign and digits with a value of 32 bits, negative ones taken from the end of 64 |
| ContractFiles.ReadExactly | src/cand.cpp:5082-5342 | A file is accepted with a map exactly if every line fits, nothing is missing and the map is what the lines state, in whatever order, spelling and company |
| ContractFiles.SpellingDoesNotMatter | src/cand.cpp:5267-5305 | Files whose lines differ in the spelling of indices, numbers and effects, in comments, blank lines and notes only are read alike |
| ContractFile.ParseSymbolFacts | src/cand.cpp:5082-5342 | The loop computes the run of the line state machine and stops at the first misfit |
| ContractFacts.AcceptedIsLegal | src/cand.cpp:5117-5148 | Whatever lines of a file are accepted state well-formed contracts under names without line breaks: one effect per named index, a source for each borrowed result, one out-owner at most, with a polarity only if it writes on success |
| ContractPrinter.PrintedReadsBack | src/cand.cpp:5149-5342 | The canonical print of any list of distinct well-formed contracts is the lines of a file, and parsing it gives the list back |
| ContractPrinter.ExactlyLegalMapsAreStated | src/cand.cpp:5082-5342 | A map of contracts is what some file, a list of lines without line breaks, says exactly when it is well formed |
| Amalgam.Build | scripts/pilots/make_amalgam.py:39-51 | The amalgam and its offset table |
| Amalgam.AmalgamHoldsTheFiles | scripts/pilots/make_amalgam.py:39-51 | The line that the table names for line k of file i is that line |
| Amalgam.Remap | scripts/pilots/unity_counterfactual.py:139-153 | The binary search finds the segment that covers a line, or says that none does |
| Amalgam.RemapAmalgam | scripts/pilots/unity_counterfactual.py:139-153 | Mapping back inverts the table for every line |
| Amalgam.EveryLineHasAnOrigin | scripts/pilots/make_amalgam.py:39-51 | Every line is the header, a marker, or a line of a file |
| Amalgam.MarkersBelongToNoFile | scripts/pilots/unity_counterfactual.py:150-152 | The header and the markers are no file's lines |
| Policies.PolicyDiff.CompareBudgets | src/agent_policy.cpp:256-265 | The budget changes and whether one weakens |
| Policies.PolicyDiff.CompareScope | src/agent_policy.cpp:270-282 | The scope change, as sets |
| Policies.ComparePolicies | src/agent_policy.cpp:254-314 | The exact list of changes and the classification |
| Policies.VerdictExactly | src/agent_policy.cpp:310-313 | Weakening exactly if the newer policy passes findings that the older did not, else review exactly if a rule differs, else strengthening exactly if it no longer passes some |
| Policies.ChangesExactly | src/agent_policy.cpp:254-309 | A change is listed exactly if its value differs, classified by whether that value alone passes more, and as a review if it is a rule |
| Policies.AcceptedMeansStronger | src/agent_policy.cpp:310-313 | NO_CHANGE and PROOF_STRENGTHENING together mean at least as strong; NO_CHANGE means that all compared fields agree |
| Policies.AcceptedStepsCompose | src/agent_policy.cpp:254-314 | A chain of accepted steps is accepted end to end |
| Policies.UnchangedChain | src/agent_policy.cpp:254-314 | A chain of accepted steps that ends where it began never moved |
| Paths.SplitAndKeep | src/agent_policy.cpp:104-115 | The splitting loop terminates and keeps the right segments |
| Paths.NormalizedRelativePath | src/agent_policy.cpp:103-122 | The normal form of a path |
| Paths.SegmentsExactly | src/agent_policy.cpp:104-115 | The segments are the one way to cut a path at its slashes |
| Paths.NormalFormIs | src/agent_policy.cpp:103-122 | A path that is not refused comes out as its segments other than empty and dot, in their order, joined by single slashes |
| Paths.FixedPointsAreCanonical | src/agent_policy.cpp:103-122 | The fixed points are exactly the slash-joined proper segments and the empty path |
| Paths.NormalizingTwice | src/agent_policy.cpp:103-122 | Normalising is idempotent |
| Paths.EmptyWhenRefused | src/agent_policy.cpp:104-113 | A path comes out empty exactly when it is empty, absolute, climbing, or has nothing to keep |
| Quoting.QuoteShell | src/agent_policy.cpp:52-59 | The quoted form of a string |
| Quoting.QuotedIsOneWord | src/agent_policy.cpp:52-59 | The shell reads the quoted form of any string as one word, the string |
| Quoting.CommandLineReadsBack | src/cand.cpp:5911-5918 | A line of quoted arguments is read back as those arguments |

## Left out

- Clang: parsing, control-flow-graph construction, macro detection. Graphs and trees are inputs.
- Struct members, array elements, unions, atomics, inline assembly, `setjmp` and varargs: each only adds an unsupported item; `Opaque` stands for them.
- Parameters of the analysed function: two may alias one object. The PASS theorems are about locals.
- Consuming calls, summary returns and the effects of a producing call on its other arguments (`transferBinding`, `bindSummaryReturn`, `destroyBinding`): a consuming move leaves its object `Owned`.
- The `p0` profile, whose loop test is lexical only.
- Origin and lifetime strings of borrows, texts and traces of findings, counters.
- The pointer expression of an access as a measured point of borrow liveness: every live mutable borrow of the owner counts, as it does in the code when the point was not recorded.
- Ownership.ReachableOwnerIsUnique: does not cover programs with out-owner calls; for those it fails, and `Owners.OwnerIsUnique` says where it holds.
- Verdict.NoFalsePass: does not cover programs in which a move was dropped or a declaration met a guard that outlives it; for both it fails.
- Verdict.NoFalseRefinement: says that the slot holds no object, not that its value is null, since a declaration reached again leaves the old binding while the variable is indeterminate; and a comparison of an indeterminate slot with null may go either way.
- Origins.ResolvedStaysWith: asks for plain expressions; the condition is sufficient. For an arbitrary pointer expression the exact condition is `Origins.ComesFrom`.
- Origins: pointer arithmetic stays inside its object and casts between pointer types keep the object; values read from memory, other variables and calls are arbitrary.
- SummaryFacts.BorrowedExactly: is about parameters that do not point to pointers. For the others the result depends on the order of uses, as a subscript first makes the parameter borrowed and then a flow no longer makes it unknown; `Touches.RestsExactly` covers them.
- SummaryFacts.NoConsumingEffectForgotten: is about arguments in which the parameter occurs. Locals initialised with it are covered by `SummaryFacts.NoConsumedAliasForgotten`; chains of copies are not recognised by the code.
- SummaryFacts.BorrowedResultIsRight: takes callee summaries as given, and says nothing of calls with fewer arguments than the callee's source index, nor of the value of a call whose callee is said to return nothing.
- Holdings: the nodes of a body may be executed in any order and any number of times; increments stay inside the object; inline assembly does not reach a parameter.
- Rounds.Iterate: covers one fixed point; seeding reviewed annotations and merging contracts between the two is not modelled.
- ContractFile.ParseSymbolFacts: rejects parameter index 4294967295, for which the size of the table wraps around and the code's access is undefined. Opening and splitting the file is not modelled.
- StraightLine.PassesExactly: is about code without borrows, productions, pointer arithmetic and unsupported constructs; `Causes` and `Aftermath` cover their reports element by element.
- Aftermath.DestroyedIsReported: asks that no production takes up the identity of a named object, which `Aftermath.BlocksAreFresh` gives for programs in scope.
- Resolution.AcceptedExactly: is about plain expressions; `Origins` has the others that are accepted.
- Policies.VerdictExactly: findings stand for budgets used, unsupported items and files checked, which is what the compared limits are limits of.
- Origins of summaries and their out-owner field, which the scan does not read.
- Applying parsed contracts to declarations.
- Borrowed.UsedSharedBorrowsAreReported: asks that no element before the destruction in its block is reported, and `Borrowed.UsedBorrowsAreReported` that there are no moves; without either it fails, and the exact condition is that of `Borrowed.DestructionReportsUsedBorrows`.
- Amalgam.AmalgamHoldsTheFiles: asks that file names contain no newline, so that every marker is one line. Sorting the files by path, reading and writing them are not modelled.
- Quoting: gives up on lines with other shell syntax than quotes, backslashes and blanks.
- Policies: policy text, pins and budgets as JSON; texts of changes.
- JSON reports, evidence, replay, git, processes, environment checks, command line, fuzzing and pilot harnesses.
