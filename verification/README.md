# SparseBoomerang: the weighted pushdown engine and what is built on it

A Dafny model of the hard core of SparseBoomerang, with proofs of what its algorithms promise. `dafny verify dfyconfig.toml`
checks it.

- **Semirings.dfy** abstract idempotent semirings of finite height, and finite combinations of weights.
- **Automata.dfy** the weighted automaton with its re-entrant listeners, as a class whose methods call back in the
  middle of an update. What the callbacks do is a parameter, so post\*, the stack enumeration and the field import are
  instances of one engine. The proof keeps, at every nesting depth, which calls are still owed and by whom.
- **Pushdown.dfy**, **PostStar.dfy**, **Exactness.dfy**, **LeastFixpoint.dfy** pushdown systems with wildcards and their
  runs; the handlers of post\*; the result accepts exactly the reachable configurations, with exactly their weights; it is
  the least saturated automaton, whatever the order of events.
- **WeightedPushdownSystems.dfy** the class that rules and seeds are added to, at any time. **Existence.dfy**: every system
  has a result.
- **EmptyEpsilon.dfy**, **Limits.dfy**, **UnbalancedPops.dfy** exactly which epsilon labels, rules and pop weights these
  theorems hold for.
- **FinalWeights.dfy**, **Analysis.dfy**, **WeightTable.dfy**, **LoopCheck.dfy**, **StackEnumeration.dfy**,
  **Reachability.dfy** algorithms on the automaton. `Analysis` joins post\* and the extraction of final weights into one
  theorem about all valid runs; `WeightTable` is the table that is built from it.
- **FieldImport.dfy**, **Joins.dfy** points of indirection.
- **Flow.dfy** the forward and backward flow functions over a small heap.
- **Typestate.dfy**, **StrongUpdates.dfy** typestate weights and strong updates of IDEal.

How to read a result. `Result(sys, st)` says that `st` is what the engine rests in for the rules and seeds of `sys`:
all inputs are in it, every callback has been made with the current weight, and nothing is in it that callbacks do not
derive. `WeightedPushdownSystem.IsResult` says that the class is in such a state between any two calls. The other lemmas
assume only `Result`, so they hold for every order of rules, seeds and callbacks.

Conditions. Rules are `Paired` if a wildcard on the left comes with a wildcard on the right or at the call site; that is
how `SyncPDSSolver.java:530-676` builds them. A rule is exact in every context if and only if it is paired
(`Limits.PairedIff`). Field labels have an `Empty` epsilon (`Field.java:74-86`), call-graph edges do not. For an `Empty`
epsilon the language is exact as well. The weights of paths are genuine in all systems, and no report of a pop exceeds a
genuine weight in any, if and only if `one` is the least weight, as it is for the default of no weights
(`EmptyEpsilon.EmptyEpsilonKeepsWeightsIff`, `UnbalancedPops.ReportsBoundedIff`). `KeepsWeights` is the resulting condition
on a flavour. Reports of pops leave out the weight of the last rule: for any other epsilon, they are weights of runs
if and only if that is `one`, and account for all runs if and only if it is at most `one`
(`UnbalancedPops.ReportsGenuineIff`, `UnbalancedPops.ReportsCompleteIff`).

Where the code and its documentation or evident intent differ, the model follows the code:

- `unbalancedPop` is given the weight before the pop rule; the extended weight is computed and not used
  (`PostStar.java:156-159`).
- `containsLoop` says it is a depth-first search; it takes states first in, first out, and takes them again when they
  are on the worklist twice. It may answer true without a loop, and the answer may depend on the order of iteration.
- An `ExclusionWildcard` on the left or at a call site acts as a plain wildcard; it excludes only as a right label.
- `TransitionFunction.combineWith` with `one()` adds self-loops for the states of the other weight, which makes it
  non-associative; the semiring theorems are therefore not claimed for it.
- `asStatementValWeightTable` keeps one final weight per label and fact; transitions that share both overwrite each other,
  and those of generated states are entered under the fact they were created for.
- `combineWith` builds a transition with `null` states from the identity transition (`TransitionFunction.java:101-103`).

External behaviour appears as parameters: which labels `accepts` which, which states are generated, unbalanced, initial
or aliases, what `execute` and `propagateUnbalancedToCallSite` call back, and the order in which sets are iterated.

## Model

| member | source | states |
|---|---|---|
| Automata.WeightedPAutomaton.Put | WPDS/src/main/java/wpds/impl/WeightedPAutomaton.java:305-316 | the out and into indexes partition the transitions before and after, `states` are their ends, and only the weight of `t` changes |
| Automata.WeightedPAutomaton.Insert | WPDS/src/main/java/wpds/impl/WeightedPAutomaton.java:305-316 | every listener that observes `t` is now owed a call with the new weight; weights only ascend, and the termination budget strictly shrinks |
| Automata.WeightedPAutomaton.AddWeightForTransition | WPDS/src/main/java/wpds/impl/WeightedPAutomaton.java:292-333 | with callbacks that update the same transition or register listeners: terminates, ends with everything it owed delivered and everything owed by the calls around it untouched, the weight is at least `w`, and `added` says whether anything changed; epsilon self-loops are refused |
| Automata.WeightedPAutomaton.Notify | WPDS/src/main/java/wpds/impl/WeightedPAutomaton.java:318-327 | one of the three loops over a snapshot of listeners delivers exactly its part of what is owed, in any order |
| Automata.WeightedPAutomaton.RegisterListener | WPDS/src/main/java/wpds/impl/WeightedPAutomaton.java:358-395 | a listener that is new hears of every transition it observes; one that equals a registered one changes nothing; terminates under re-entrancy |
| Automata.WeightedPAutomaton.Replay | WPDS/src/main/java/wpds/impl/WeightedPAutomaton.java:360-390 | a replay delivers the weight a transition has when its turn comes, which settles what was owed for the earlier weights in the snapshot |
| Automata.WeightedPAutomaton.AddNote | WPDS/src/main/java/wpds/impl/WeightedPAutomaton.java:489-499 | the weight of an entry ascends; it is reported exactly when it changed |
| Automata.WeightedPAutomaton.RestingIsQuiescent | WPDS/src/main/java/wpds/impl/WeightedPAutomaton.java:292-395 | no lost notification: when no call is in progress, every listener has been called, and its call has ended, with the current weight of every transition it observes, and what the calls did still holds; nothing is in the automaton that the callbacks do not derive from the inputs, the indexes partition the transitions, and reported weights ascended strictly |
| Automata.WeightedPAutomaton.ReportIsDerivable | WPDS/src/main/java/wpds/impl/WeightedPAutomaton.java:489-499 | every weight that was ever reported, not only the last, is derived by the callbacks from the inputs |
| Automata.WeightedPAutomaton.Supply | WPDS/src/main/java/wpds/impl/WeightedPAutomaton.java:292-333 | a call from outside leads from one resting state to the next with one input more, and nothing that held stops holding |
| Automata.WeightedPAutomaton.Subscribe | WPDS/src/main/java/wpds/impl/WeightedPAutomaton.java:380-395 | the same for a listener registered from outside |
| Automata.SoundInsert | WPDS/src/main/java/wpds/impl/WeightedPAutomaton.java:312-316 | combining in a new weight spends budget: a missing transition, or rank of the finite-height semiring |
| Automata.DerivableInductive | WPDS/src/main/java/wpds/impl/WeightedPAutomaton.java:292-395 | the facts that the callbacks derive from the inputs are closed under them, hence the least such set |
| Pushdown.PopsEitherWay | WPDS/src/main/java/wpds/impl/PostStar.java:142-142 | a pop rule applies exactly where the label accepts the popped one or the popped one accepts the label |
| Pushdown.StepLifts | WPDS/src/main/java/wpds/impl/PostStar.java:209-282 | a rule reads only the top of the stack: its step is the same above any stack |
| Pushdown.Composes | WPDS/src/main/java/wpds/impl/PostStar.java:265-282 | runs compose at a call: a run to `<p, n below>` and a run from `<p, n>` alone give a run above `below`, with the product of the weights |
| PostStar.DerivedProper | WPDS/src/main/java/wpds/impl/PostStar.java:139-308 | transitions never lead into a control state, epsilon edges go from control to generated states, and nothing leaves the final state |
| PostStar.NormalClosed | WPDS/src/main/java/wpds/impl/PostStar.java:209-229 | when nothing is left to call, the automaton is closed under a normal rule, wildcards and exclusion included |
| PostStar.PushClosed | WPDS/src/main/java/wpds/impl/PostStar.java:264-282 | the same for a push rule: call-site and callee transitions through the generated state |
| PostStar.PopClosed | WPDS/src/main/java/wpds/impl/PostStar.java:139-166 | the same for a pop rule, through epsilon edges and with the transitive closure over what leaves the generated state |
| PostStar.ResultSaturated | WPDS/src/main/java/wpds/impl/PostStar.java:43-308 | the resting automaton is saturated for all rules and seeds |
| Exactness.AcceptsExactlyReachable | WPDS/src/main/java/wpds/impl/PostStar.java:139-308 | post* is exact: for every non-empty stack, the automaton accepts a configuration if and only if the rules reach it from a seed |
| Exactness.AcceptedReachable | WPDS/src/main/java/wpds/impl/PostStar.java:139-308 | what is accepted is reachable, whether or not the epsilon label is an `Empty` |
| Exactness.WeightOfRunsIsKept | WPDS/src/main/java/wpds/impl/PostStar.java:89-308 | every run to a configuration is below the weight of some accepting path for it, read from the final state outward |
| Exactness.WeightOfPathsIsGenuine | WPDS/src/main/java/wpds/impl/PostStar.java:89-308 | the weight of every accepting path is a finite combination of weights of genuine runs to that configuration, for an epsilon label that is not an `Empty`; `EmptyEpsilon.ResultGenuine` has the general case |
| Exactness.DerivedGenuine | WPDS/src/main/java/wpds/impl/PostStar.java:89-308 | the same for the weight of every single transition, listener and note, in every intermediate state: paths into a generated state mean runs from its configuration; `EmptyEpsilon.DerivedBelowGenuine` has the general case |
| Exactness.DerivedReachable | WPDS/src/main/java/wpds/impl/PostStar.java:139-308 | every transition, listener and note that is ever derived stands for a run |
| Exactness.UnbalancedPopsExactlyEmptyStacks | WPDS/src/main/java/wpds/impl/PostStar.java:152-160 | an unbalanced pop to `p` is reported if and only if the rules reach `p` with an empty stack |
| Exactness.UnbalancedPopNoted | WPDS/src/main/java/wpds/impl/PostStar.java:156-159 | every run to an empty stack is reported, with at least the weight it had before the last pop; the code computes the weight with the rule but passes the one without. `UnbalancedPops` says when that is right |
| LeastFixpoint.ResultIsLeast | WPDS/src/main/java/wpds/impl/PostStar.java:43-308 | the result is saturated and below every saturated automaton |
| LeastFixpoint.ResultIsUnique | WPDS/src/main/java/wpds/impl/WeightedPushdownSystem.java:33-57 | incremental equals batch: for given rules and seeds, every interleaving of adding them and of callbacks ends in the same weights |
| LeastFixpoint.ExpansionSaturates | WPDS/src/main/java/wpds/impl/PostStar.java:209-282 | an automaton is saturated for paired wildcard rules if and only if it is for all their instances |
| LeastFixpoint.WildcardsMeanTheirExpansion | WPDS/src/main/java/wpds/impl/PostStar.java:142-142 | post* gives the same weights with wildcard rules as with their finitely many instances: none at epsilon, none at an excluded label, pop rules over `accepts` in either direction |
| WeightedPushdownSystems.WeightedPushdownSystem.AddRuleInternal | WPDS/src/main/java/wpds/impl/WeightedPushdownSystem.java:43-48 | the rule goes to the set of its kind; the answer is whether it is new |
| WeightedPushdownSystems.WeightedPushdownSystem.AddRule | WPDS/src/main/java/wpds/impl/WeightedPushdownSystem.java:33-41 | at any time, before or after post* was started: the listener is told once of a new rule, saturates and terminates, and the automaton is again the result for all rules |
| WeightedPushdownSystems.WeightedPushdownSystem.OnRuleAdded | WPDS/src/main/java/wpds/impl/PostStar.java:43-53 | registering the handler of a rule keeps the automaton resting, with exactly one rule more accounted for |
| WeightedPushdownSystems.WeightedPushdownSystem.PostStar | WPDS/src/main/java/wpds/impl/WeightedPushdownSystem.java:50-57 | starting post* replays the rules that are there, in any order |
| WeightedPushdownSystems.WeightedPushdownSystem.AddSeed | WPDS/src/main/java/wpds/impl/WeightedPAutomaton.java:292-333 | seed transitions may be added at any time |
| WeightedPushdownSystems.WeightedPushdownSystem.IsResult | WPDS/src/main/java/wpds/impl/WeightedPushdownSystem.java:33-57 | between any two calls the automaton is a post* result for the rules and seeds so far, so every theorem about results applies to it |
| WeightedPushdownSystems.ArenaConfines | WPDS/src/main/java/wpds/impl/PostStar.java:98-198 | saturation terminates: the handlers stay among finitely many states, labels and popping handlers, and a transitive-pop handler registers nothing |
| EmptyEpsilon.ResultGenuine | WPDS/src/main/java/wpds/impl/PostStar.java:139-166 | for either kind of epsilon label: the weights of all accepting paths are genuine if epsilon is not an `Empty`, or if `one` is the least weight, as it is without weights |
| EmptyEpsilon.SameAsStrict | WPDS/src/main/java/wpds/impl/PostStar.java:162-165 | if `one` is the least weight, following epsilon edges to pop adds nothing: the weights are those without it |
| EmptyEpsilon.DerivedBelowGenuine | WPDS/src/main/java/wpds/impl/PostStar.java:89-308 | under the same condition, in every intermediate state: no weight of a transition, of a transitive-pop listener or of a report exceeds that of genuine runs, and every pop listener stands for a pop rule |
| EmptyEpsilon.EmptyEpsilonLosesWeight | WPDS/src/main/java/wpds/impl/PostStar.java:162-165 | a pop through an `Empty` epsilon edge drops the weight of that edge: for every algebra and every `w` not above `one`, a system in which every result accepts a configuration with a weight above `one`, whose only run weighs `w` |
| EmptyEpsilon.EmptyEpsilonKeepsWeightsIff | WPDS/src/main/java/wpds/impl/PostStar.java:162-165 | with an `Empty` epsilon, the weights of all accepting paths of all systems are genuine if and only if `one` is the least weight |
| Existence.ResultExists | WPDS/src/main/java/wpds/impl/PostStar.java:43-308 | every finite system has a post* result, so statements about all results are not about nothing |
| Limits.UnpairedAcceptsUnreachable | WPDS/src/main/java/wpds/impl/PostStar.java:212-223 | every rule with an unpaired wildcard fires on epsilon edges, and has a context of paired rules in which the automaton accepts an unreachable configuration |
| Limits.PairedIff | WPDS/src/main/java/wpds/impl/PostStar.java:212-223 | for every algebra and either kind of epsilon label, a rule leaves post* exact in every context of paired rules if and only if it is paired itself |
| UnbalancedPops.PopsOfOneGenuine | WPDS/src/main/java/wpds/impl/PostStar.java:152-160 | if all pop rules weigh `one`, every report is a combination of weights of runs to the empty stack |
| UnbalancedPops.PopsBelowOneComplete | WPDS/src/main/java/wpds/impl/PostStar.java:152-160 | if all pop rules weigh at most `one`, every run to an empty stack is below a report |
| UnbalancedPops.PopWeightIsNotReported | WPDS/src/main/java/wpds/impl/PostStar.java:156-159 | a system in which the only run to an empty stack weighs `w`, for any `w`, and `one` is reported |
| UnbalancedPops.ReportsGenuineIff | WPDS/src/main/java/wpds/impl/PostStar.java:156-159 | in all systems whose pop rules weigh `one` or `w`, reports are weights of runs if and only if `w` is `one` |
| UnbalancedPops.ReportsCompleteIff | WPDS/src/main/java/wpds/impl/PostStar.java:156-159 | in all such systems, reports account for all runs if and only if `w` is at most `one` |
| UnbalancedPops.EmptyEpsilonExceeds | WPDS/src/main/java/wpds/impl/PostStar.java:162-165 | with an `Empty` epsilon, a system in which every run to the empty stack weighs `w`, and a weight above `one` is reported |
| UnbalancedPops.ReportsBoundedIff | WPDS/src/main/java/wpds/impl/PostStar.java:162-165 | with an `Empty` epsilon, no report of any system exceeds the weight of runs before the last pop if and only if `one` is the least weight |
| FinalWeights.FinalWeights.GetTransitionsToFinalWeights | WPDS/src/main/java/wpds/impl/WeightedPAutomaton.java:614-622 | each transition gets exactly the combination, over all its paths through generated states to an initial state, of the outer-first products; the listener cascade terminates on cyclic automata; calling it again changes nothing |
| FinalWeights.FinalWeights.Register | WPDS/src/main/java/wpds/impl/WeightedPAutomaton.java:618-643 | a listener is told of every transition into its state once; an equal one is not registered again |
| FinalWeights.FinalWeights.OnInTransition | WPDS/src/main/java/wpds/impl/WeightedPAutomaton.java:637-645 | final weights only ascend, and every change is passed on through generated states |
| FinalWeights.PathSumsAreUnique | WPDS/src/main/java/wpds/impl/WeightedPAutomaton.java:614-645 | the path sums are determined by the automaton, so the order of callbacks does not matter |
| FinalWeights.PathSumsExist | WPDS/src/main/java/wpds/impl/WeightedPAutomaton.java:614-645 | every automaton has final weights |
| Analysis.RunsHaveFinalWeights | WPDS/src/main/java/wpds/impl/WeightedPAutomaton.java:614-645 | post* and the extraction together: every run that ends with `n` on top in `p` is below the final weight of some transition labelled `n` from `p` |
| Analysis.FinalWeightsAreRuns | WPDS/src/main/java/wpds/impl/WeightedPAutomaton.java:614-645 | and every such final weight is a finite combination of weights of such runs |
| WeightTable.AsStatementValWeightTable | boomerangPDS/src/main/java/boomerang/solver/AbstractBoomerangSolver.java:230-244 | the table by label and fact, for an order in which the transitions are read; those that share both overwrite each other |
| WeightTable.EntryOf | boomerangPDS/src/main/java/boomerang/solver/AbstractBoomerangSolver.java:238-241 | there is an entry exactly if the fact belongs to the method of the label and some transition has both; it is the final weight of one of them, the last one read |
| WeightTable.EntryRightIff | boomerangPDS/src/main/java/boomerang/solver/AbstractBoomerangSolver.java:230-244 | in every order the entry accounts for all runs to the fact and label, and for nothing else, if and only if the transitions that share them have one final weight and one of them leaves the control state |
| WeightTable.EntryDependsOnOrder | boomerangPDS/src/main/java/boomerang/solver/AbstractBoomerangSolver.java:241-241 | an input on which it does not: two ways to call with different weights |
| LoopCheck.ContainsLoop | WPDS/src/main/java/wpds/impl/WeightedPAutomaton.java:740-759 | terminates on every automaton; for a given order of states and transitions, it answers true exactly if some entry of the first-in first-out enumeration of walks has a transition from a state that came up before |
| LoopCheck.LevelIsWalks | WPDS/src/main/java/wpds/impl/WeightedPAutomaton.java:742-757 | level `k` of that enumeration holds the ends of the walks of length `k` |
| LoopCheck.LoopAlarms | WPDS/src/main/java/wpds/impl/WeightedPAutomaton.java:751-753 | no loop is missed: with a loop behind an initial state, every order answers true |
| LoopCheck.GapAlarms | WPDS/src/main/java/wpds/impl/WeightedPAutomaton.java:751-753 | every order answers true if two walks to a state differ in length by two or more |
| LoopCheck.SomeOrderAlarmsIff | WPDS/src/main/java/wpds/impl/WeightedPAutomaton.java:740-759 | some order answers true if and only if two walks to a state differ in length |
| LoopCheck.EveryOrderRightIff | WPDS/src/main/java/wpds/impl/WeightedPAutomaton.java:740-759 | every order answers correctly if and only if there is a loop or all walks to each state have one length |
| LoopCheck.StartsAreBack | WPDS/src/main/java/wpds/impl/WeightedPAutomaton.java:748-751 | the search follows exactly the transitions without epsilon that start in a generated state |
| LoopCheck.Expand | WPDS/src/main/java/wpds/impl/WeightedPAutomaton.java:747-755 | stops exactly if a followed transition starts in a visited state, and otherwise appends all their starts, in order |
| LoopCheck.LoopIsUneven | WPDS/src/main/java/wpds/impl/WeightedPAutomaton.java:751-753 | a loop behind a searched state gives walks to it whose lengths differ by two or more |
| LoopCheck.NextEntry | WPDS/src/main/java/wpds/impl/WeightedPAutomaton.java:744-757 | what one round of the worklist keeps |
| LoopCheck.FalseAlarm | WPDS/src/main/java/wpds/impl/WeightedPAutomaton.java:751-753 | a loop-free automaton on which every order answers true |
| Reachability.ForwardDFSVisitor.InsertEdge | WPDS/src/main/java/wpds/interfaces/ForwardDFSVisitor.java:110-138 | after every insertion, cycles and self-loops included, the index is the transitive closure of one edge more |
| Reachability.ForwardDFSVisitor.Saturate | WPDS/src/main/java/wpds/interfaces/ForwardDFSVisitor.java:126-137 | the worklist loop terminates on the count of unset pairs and leaves nothing to prolong |
| Reachability.ForwardDFSVisitor.MakeClosure | WPDS/src/main/java/wpds/interfaces/ForwardDFSVisitor.java:153-157 | `reaches`, `inverseReaches` and `refCount` stay in step |
| Reachability.ForwardDFSVisitor.OnWeightAdded | WPDS/src/main/java/wpds/interfaces/ForwardDFSVisitor.java:100-108 | the edge of an admitted transition enters the index, and its start is known to reach itself |
| Reachability.ForwardDFSVisitor.RegisterListener | WPDS/src/main/java/wpds/interfaces/ForwardDFSVisitor.java:37-43 | a new listener is attached at every state reachable from its own |
| Reachability.ForwardDFSVisitor.AddTransition | WPDS/src/main/java/wpds/interfaces/ForwardDFSVisitor.java:56-59 | transitions and registrations in any interleaving keep the whole index valid |
| Reachability.ForwardDFSVisitor.IndexIsClosure | WPDS/src/main/java/wpds/interfaces/ForwardDFSVisitor.java:110-138 | `refCount` and `reaches` hold exactly the one-or-more-step closure of the admitted edges |
| Reachability.ForwardDFSVisitor.ListenersAreExact | WPDS/src/main/java/wpds/interfaces/ForwardDFSVisitor.java:37-59 | a listener is told exactly the transitions whose start is its state or reachable from it |
| Reachability.ForwardDFSVisitor.OnlyListenersAreTold | WPDS/src/main/java/wpds/interfaces/ForwardDFSVisitor.java:145-151 | nobody else is told anything |
| Reachability.AllEdges | WPDS/src/main/java/wpds/interfaces/ForwardDFSVisitor.java:95-97 | the visitor that follows every transition |
| Reachability.EpsilonEdges | WPDS/src/main/java/wpds/interfaces/ForwardDFSEpsilonVisitor.java:26-28 | the visitor that follows `Empty` labels only; all of the above holds of it |
| FieldImport.DelayedTransitions.AddReachable | boomerangPDS/src/main/java/boomerang/poi/ExecuteImportFieldStmtPOI.java:524-531 | the mutual recursion with the insertion callbacks terminates and inserts everything that waited for the state |
| FieldImport.DelayedTransitions.QueueOrAdd | boomerangPDS/src/main/java/boomerang/poi/ExecuteImportFieldStmtPOI.java:533-541 | a transition is inserted now or when its target becomes reachable |
| FieldImport.DelayedTransitions.Trigger | boomerangPDS/src/main/java/boomerang/poi/ExecuteImportFieldStmtPOI.java:545-557 | the connecting transition is inserted, and everything behind it that waited |
| FieldImport.DelayedTransitions.FlowIsBatchClosure | boomerangPDS/src/main/java/boomerang/poi/ExecuteImportFieldStmtPOI.java:524-557 | deferred insertion equals the batch backward closure: the inserted transitions are exactly the queued ones whose target leads to a triggered state, and the connecting ones |
| FieldImport.ImportsExact | boomerangPDS/src/main/java/boomerang/poi/ExecuteImportFieldStmtPOI.java:498-522 | for cyclic base automata and any order of arrival, what is queued and activated is exactly what chains of fields lead to from the aliases |
| FieldImport.ExecuteImportFieldStmtPOI.constructor | boomerangPDS/src/main/java/boomerang/poi/ExecuteImportFieldStmtPOI.java:545-551 | what is connected carries the stored field of this point of indirection |
| FieldImport.ExecuteImportFieldStmtPOI.AddBaseTransition | boomerangPDS/src/main/java/boomerang/poi/ExecuteImportFieldStmtPOI.java:406-414 | a base transition may come at any time, before or after the point of indirection became active |
| FieldImport.ExecuteImportFieldStmtPOI.FlowsTo | boomerangPDS/src/main/java/boomerang/poi/ExecuteImportFieldStmtPOI.java:287-302 | becoming active replays the base transitions that are there |
| FieldImport.ExecuteImportFieldStmtPOI.BaseIsWhatWasAdded | boomerangPDS/src/main/java/boomerang/poi/ExecuteImportFieldStmtPOI.java:498-522 | import reads the base automaton and adds nothing to it |
| FieldImport.ExecuteImportFieldStmtPOI.CommandsExact | boomerangPDS/src/main/java/boomerang/poi/ExecuteImportFieldStmtPOI.java:498-582 | the same for the two automata together |
| FieldImport.ExecuteImportFieldStmtPOI.FlowIsExact | boomerangPDS/src/main/java/boomerang/poi/ExecuteImportFieldStmtPOI.java:498-557 | the flow automaton as a function of the base automaton: exactly what chains of fields lead to from the aliases and leads on to an activation, and the connecting transitions |
| FieldImport.ExecuteImportFieldStmtPOI.AccessPathsExact | boomerangPDS/src/main/java/boomerang/poi/ExecuteImportFieldStmtPOI.java:498-557 | an access path of an alias followed by the stored field is in the flow automaton if, and for an intermediate state new to the base automaton only if, the base automaton leads along it to an empty-field edge into an unbalanced state |
| Flow.ForwardNormalFlow | boomerangPDS/src/main/java/boomerang/flowfunction/DefaultForwardFlowFunction.java:96-202 | the states built up statement by statement are those of `Forward`, of which the theorems below are proved |
| Flow.BackwardNormalFlow | boomerangPDS/src/main/java/boomerang/flowfunction/DefaultBackwardFlowFunction.java:92-165 | the same for `Backward` |
| Flow.TargetStepIs | SynchronizedPDS/src/main/java/sync/pds/solver/SyncPDSSolver.java:530-676 | as a rule of the field system, a node, exclusion, push or pop node does to an access path what its name says and nothing else |
| Flow.ForwardTakesIff | boomerangPDS/src/main/java/boomerang/flowfunction/DefaultForwardFlowFunction.java:96-202 | exactly where the forward flow leads, for all statements: from the access path that held the object before, unless its variable is killed; from itself at `x = x.f`; and nowhere else |
| Flow.BackwardTakesIff | boomerangPDS/src/main/java/boomerang/flowfunction/DefaultBackwardFlowFunction.java:92-165 | exactly where the backward flow leads: to the access path that held the object before, unless the object is new; to itself at a store to its variable; and nowhere else |
| Flow.StrongUpdate | boomerangPDS/src/main/java/boomerang/flowfunction/DefaultForwardFlowFunction.java:110-110 | at a store `x.f = y`, the old path over `x.f` stops |
| Flow.ForwardTakes | boomerangPDS/src/main/java/boomerang/flowfunction/DefaultForwardFlowFunction.java:95-202 | the forward flow leads from the access path before to the one after if and only if the statement does not copy the path's own variable to itself |
| Flow.StepSound | boomerangPDS/src/main/java/boomerang/flowfunction/DefaultForwardFlowFunction.java:95-202 | one step over the heap: an access path that does not read the written cell through an alias denotes what one and the same access path denoted before; the forward flow leads from that one to it and the backward flow back |
| Flow.StepSoundIff | boomerangPDS/src/main/java/boomerang/flowfunction/DefaultBackwardFlowFunction.java:91-165 | for both flows: some access path connected with it held the object before, in every heap, if and only if the variable is not killed and the path does not go on over the stored field; heaps of one object break the others |
| Flow.ForwardPrecise | boomerangPDS/src/main/java/boomerang/flowfunction/DefaultForwardFlowFunction.java:95-202 | conversely, whatever a path flows forward to denotes afterwards what the path denoted before, unless the path reads the overwritten cell through an alias or is the one kept at `x = x.f` |
| Flow.BackwardPrecise | boomerangPDS/src/main/java/boomerang/flowfunction/DefaultBackwardFlowFunction.java:91-165 | the same backward, without the exception |
| Flow.ForwardPreciseIff | boomerangPDS/src/main/java/boomerang/flowfunction/DefaultForwardFlowFunction.java:95-202 | a forward flow is precise in every heap if and only if it is neither the path kept at `x = x.f` nor at a store of a field that the path has; heaps of two objects break the others |
| Flow.BackwardPreciseIff | boomerangPDS/src/main/java/boomerang/flowfunction/DefaultBackwardFlowFunction.java:91-165 | a backward flow is precise in every heap if and only if it is not at a store of a field that the path has |
| Flow.ProgramSound | boomerangPDS/src/main/java/boomerang/flowfunction/DefaultBackwardFlowFunction.java:91-165 | through every straight-line program, from any step on, both analyses follow the object along the same access paths |
| Flow.AllocationFound | boomerangPDS/src/main/java/boomerang/flowfunction/DefaultBackwardFlowFunction.java:94-96 | traced back to the variable of an allocation, the object is the one made there: forward finds the access path from it, backward finds it from the access path |
| Flow.SelfCopyIsLost | boomerangPDS/src/main/java/boomerang/flowfunction/DefaultForwardFlowFunction.java:184-192 | the exception to soundness: a copy of the path's own variable to itself is killed by the forward flow |
| Typestate.ExtendWith | idealPDS/src/main/java/typestate/TransitionFunction.java:62-87 | the loops compute the composition; the exception on a `null` state is raised exactly when two transitions are compared whose first has none |
| Typestate.CombineWith | idealPDS/src/main/java/typestate/TransitionFunction.java:90-118 | the result in all cases of `one()` and `zero()`, for the laws below |
| Typestate.ExtendDenotes | idealPDS/src/main/java/typestate/TransitionFunction.java:62-87 | extending composes the relations on states, never raises on weights without `null` states, and makes none |
| Typestate.ComposedPlain | idealPDS/src/main/java/typestate/TransitionFunction.java:74-84 | two transitions compose to a plain transition; only the identity leaves a matcher transition as it is |
| Typestate.CombineDenotes | idealPDS/src/main/java/typestate/TransitionFunction.java:114-117 | combining weights other than `one()` is the union of the relations |
| Typestate.CombineWithOneDenotes | idealPDS/src/main/java/typestate/TransitionFunction.java:98-113 | combining `one()` with a weight adds plain self-loops only: the identity on just the states the weight leaves |
| Typestate.CombineProper | idealPDS/src/main/java/typestate/TransitionFunction.java:101-103 | combining makes a transition with `null` states if and only if `one()` meets a weight with the identity transition |
| Typestate.ExtendUnits | idealPDS/src/main/java/typestate/TransitionFunction.java:63-67 | `one()` is the unit and `zero()` annihilates |
| Typestate.ExtendAssociative | idealPDS/src/main/java/typestate/TransitionFunction.java:62-87 | the two groupings give the same weight on weights without `null` states, and none raises; `GroupingIff` has the exact condition |
| Typestate.GroupingIff | idealPDS/src/main/java/typestate/TransitionFunction.java:62-87 | the two groupings have the same outcome, exceptions included, if and only if what raises in one of them raises in the other, read off the `null` targets and the arrows of the three weights. Nothing in the repository puts `Transition.identity()` into a weight, so `null` states do not arise there |
| Typestate.GroupingRaises | idealPDS/src/main/java/typestate/TransitionFunction.java:80-83 | an input with a `null` state on which they differ |
| Typestate.ExtendDistributes | idealPDS/src/main/java/typestate/TransitionFunction.java:62-118 | it distributes on both sides over combining weights other than `one()` |
| Typestate.ExtendOverOneIff | idealPDS/src/main/java/typestate/TransitionFunction.java:62-118 | over `one()`, extending distributes from the left, and from the right, if and only if the transitions that one side has are those that the other side has; for `one()` and `zero()` as the other factor, always |
| Typestate.OverOneDenotes | idealPDS/src/main/java/typestate/TransitionFunction.java:62-118 | on meanings, the two sides agree at a pair of states if and only if what the factor alone relates is kept: the weight leaves the middle state, or relates the pair in two steps |
| Typestate.ExtendOverOneFails | idealPDS/src/main/java/typestate/TransitionFunction.java:98-113 | an input on which it does not |
| Typestate.CombineJoins | idealPDS/src/main/java/typestate/TransitionFunction.java:90-118 | combining is commutative and idempotent, with unit `zero()` |
| Typestate.CombineAssociativeIff | idealPDS/src/main/java/typestate/TransitionFunction.java:98-113 | combining three weights is associative if and only if, where `one()` meets two others, the self-loops that only one grouping adds are there already |
| Typestate.AlongIsReachable | idealPDS/src/main/java/typestate/finiteautomata/TypeStateMachineWeightFunctions.java:192-195 | the weight along a run from the initial transition holds exactly the states the automaton can be in after it |
| Typestate.MergedIsReachable | idealPDS/src/main/java/typestate/TransitionFunction.java:62-118 | combined over several runs, exactly the states that one of them can end in |
| StackEnumeration.EnumerationExact | WPDS/src/main/java/wpds/impl/StackListener.java:23-36 | in any order of arrival, the reported call sites are exactly the labels that leave generated states on the stack of the observed state; `anyContext` is called exactly if a source-labelled transition leads to an initial state |
| StackEnumeration.StackAutomaton.AddTransition | WPDS/src/main/java/wpds/impl/StackListener.java:23-36 | an automaton with the listener: transitions may come at any time |
| StackEnumeration.StackAutomaton.Listen | WPDS/src/main/java/wpds/impl/StackListener.java:17-21 | the listener may be registered at any time |
| StackEnumeration.StackAutomaton.ReportsExact | WPDS/src/main/java/wpds/impl/StackListener.java:23-36 | what such an automaton has reported between any two calls is exactly what is to be found |
| StackEnumeration.StackAutomaton.ReportedOnce | WPDS/src/main/java/wpds/impl/StackListener.java:74-92 | no call site is reported twice |
| StackEnumeration.StackConfined | WPDS/src/main/java/wpds/impl/StackListener.java:74-82 | the enumeration terminates on cyclic automata |
| Joins.PointOfIndirection.AddBaseAllocation | boomerangPDS/src/main/java/boomerang/poi/PointOfIndirection.java:28-34 | whatever `execute` calls back, each pair that became due is executed once, what the calls around this one owe is left to them, no allocation is added that nobody asked for, and every call made back is carried out |
| Joins.PointOfIndirection.AddFlowAllocation | boomerangPDS/src/main/java/boomerang/poi/PointOfIndirection.java:36-42 | the same from the other side |
| Joins.UnbalancedFlows.AddPotentialUnbalancedFlow | boomerangPDS/src/main/java/boomerang/solver/AbstractBoomerangSolver.java:246-255 | the same for a transition returning from a callee and the call sites allowed for it |
| Joins.UnbalancedFlows.AllowUnbalanced | boomerangPDS/src/main/java/boomerang/solver/AbstractBoomerangSolver.java:277-288 | the same for a call site; nothing happens for an excluded callee |
| Joins.PointOfIndirection.Execute | boomerangPDS/src/main/java/boomerang/poi/PointOfIndirection.java:26-26 | the pair is executed, and whatever it calls back, at any depth, is done by the time it returns |
| Joins.PointOfIndirection.SidesAreAsked | boomerangPDS/src/main/java/boomerang/poi/PointOfIndirection.java:28-42 | the two sides hold exactly what was asked for, from outside or by a callback |
| Joins.PointOfIndirection.EachPairOnce | boomerangPDS/src/main/java/boomerang/poi/PointOfIndirection.java:28-42 | with no call in progress, each base allocation has been executed exactly once with each flow allocation, and nothing else has |
| Joins.UnbalancedFlows.PropagateUnbalancedToCallSite | boomerangPDS/src/main/java/boomerang/solver/AbstractBoomerangSolver.java:307-308 | the propagation is made, and whatever it calls back, at any depth, is done by the time it returns, except for excluded callees |
| Joins.UnbalancedFlows.SidesAreAsked | boomerangPDS/src/main/java/boomerang/solver/AbstractBoomerangSolver.java:246-288 | flows and allowed call sites are exactly what was asked for, except for excluded callees |
| Joins.UnbalancedFlows.EachMatchOnce | boomerangPDS/src/main/java/boomerang/solver/AbstractBoomerangSolver.java:246-288 | with no call in progress, each returning transition has been propagated exactly once to each call site allowed for its callee, and nothing else has |
| StrongUpdates.IDEALSeedSolver.AddAffectedPotentialStrongUpdate | idealPDS/src/main/java/ideal/IDEALSeedSolver.java:393-400 | keeps the bookkeeping in both objects equal to what the announcements so far say |
| StrongUpdates.IDEALSeedSolver.SetWeakUpdate | idealPDS/src/main/java/ideal/IDEALSeedSolver.java:402-409 | the same, for all statements the node affects |
| StrongUpdates.IDEALSeedSolver.Strong | idealPDS/src/main/java/ideal/IDEALWeightFunctions.java:132-134 | a statement is a strong update if and only if the option is on, some node affects it and no weakly updated node does |
| StrongUpdates.AnyOrder | idealPDS/src/main/java/ideal/IDEALSeedSolver.java:393-409 | the answer does not depend on the order of the announcements |
| StrongUpdates.WeakForGood | idealPDS/src/main/java/ideal/IDEALSeedSolver.java:393-409 | an affected statement that is not a strong update never becomes one |

## Left out

- Nested and summary automata, and the hooks that prevent transitions from being added: they depend on the synchronised solver.
- Depth limits, `computeDistance`, unbalanced-depth bookkeeping, the import depth, `canBeApplied`, and failure counters: the limits are off.
- `PreStar`: its second transition need not start where the first ends, so it does not compute the textbook pre\*.
- `getLongestPath`, regular expressions, dot output, statistics, string output, timeouts and query orchestration.
- Unregistering listeners, `registerSummaryEdge`, and unbalanced-pop listeners that register late.
- Pop rules whose label is an `Empty`, which the code refuses with an exception; `Field.empty()` counts as an ordinary label in the pushdown model.
- What the callbacks of an `UnbalancedPopListener` do with a report: reports are recorded in the order in which they are made.
- How `SyncPDSSolver` creates seeds and unbalanced states: a seed is a transition into the one final state, which is the one unbalanced state.
- FieldImport.ExecuteImportFieldStmtPOI.AddBaseTransition: an activation triggers this one point of indirection; the commands that the base automaton gives are carried out after the call that gave them returns, in the order given, and not in the middle of it; they do not touch the base automaton. The flow automaton is the set of its transitions.
- FieldImport.ExecuteImportFieldStmtPOI.FlowsTo: the handling at field statements only; import at call sites and the import of call transitions are not modelled.
- Reachability.ForwardDFSVisitor.AddTransition: what a told listener does is not part of this model, so insertions are not nested; the automaton is the part of it the visitor talks to.
- FinalWeights.FinalWeights.GetTransitionsToFinalWeights: for a fixed automaton; listeners that stay registered while it grows are not modelled.
- StackEnumeration.EnumerationExact: `anyContext` is recorded as happened or not; the code repeats the call when the weight of the transition ascends.
- Flow.ForwardNormalFlow: no arrays, static fields, phi statements, catch statements, `instanceof` tracking, inner-class fields, or `trackFields` off; copies, casts, loads, stores, allocations and throws only. Calls and returns are not modelled.
- Flow.BackwardNormalFlow: the same; allocation sites are `new` statements, and an exclusion node for a load cannot arise where the code tests for it.
- Flow.StepSound: not for a copy or cast of the access path's own variable to itself, which the forward flow kills (`Flow.SelfCopyIsLost`).
- Typestate.ExtendWith: the state-change statements are not modelled; equality of weights ignores them.
- Joins.UnbalancedFlows.AddPotentialUnbalancedFlow: with `forceUnbalanced` false; the model passes the callee along so that propagations can be told apart.
- Joins.PointOfIndirection.AddBaseAllocation: what `execute` calls back stays among finitely many allocations; without that the code need not end.
- Concurrency, sparse control-flow graphs, and the Soot and WALA bindings.
